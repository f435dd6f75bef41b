/** What holds of memory operations by themselves: a run confined to the window
    is the plain run, it writes one block inside the window, and a MOVEM pop
    undoes a MOVEM push. */
module MemOpLaws {
  import opened Words
  import opened BusMemory
  import opened MemOps
  import opened OperandMasking
  import opened Movem

  // ------------------------------------------------------- confined is plain

  lemma FetchPlain(e: Env, m: M)
    requires Ok(e, m) && Fetch(e, true, m).Some?
    ensures Fetch(e, false, m) == Fetch(e, true, m)
  {
  }

  lemma LoadPlain(e: Env, m: M, loc: Loc, size: Size)
    requires Ok(e, m) && (loc.InRegister? ==> loc.i < 16) && Load(e, true, m, loc, size).Some?
    ensures Load(e, false, m, loc, size) == Load(e, true, m, loc, size)
  {
  }

  lemma StorePlain(e: Env, m: M, loc: Loc, size: Size, v: u32)
    requires Ok(e, m) && (loc.InRegister? ==> loc.i < 16) && Store(e, true, m, loc, size, v).Some?
    ensures Store(e, false, m, loc, size, v) == Store(e, true, m, loc, size, v)
  {
  }

  lemma ResolvePlain(e: Env, m: M, ea: Ea, size: Size)
    requires Ok(e, m) && Resolve(e, true, m, ea, size).Some?
    ensures Resolve(e, false, m, ea, size) == Resolve(e, true, m, ea, size)
  {
    hide ReadMem, InWindow, Indexed, FullFormat;
    if Fetch(e, true, m).Some? {
      FetchPlain(e, m);
      var next := Fetch(e, true, m).value.m;
      if Fetch(e, true, next).Some? {
        FetchPlain(e, next);
      }
    }
    hide Fetch;
  }

  lemma ReadPlain(e: Env, m: M, ea: Ea, size: Size)
    requires Ok(e, m) && ReadEa(e, true, m, ea, size).Some?
    ensures ReadEa(e, false, m, ea, size) == ReadEa(e, true, m, ea, size)
  {
    hide Resolve, Load;
    ResolvePlain(e, m, ea, size);
    var x := Resolve(e, true, m, ea, size).value;
    LoadPlain(e, x.m, x.loc, size);
  }

  lemma PushPlain(e: Env, m: M, v: u32)
    requires Ok(e, m) && Push(e, true, m, v).Some?
    ensures Push(e, false, m, v) == Push(e, true, m, v)
  {
    var sp := Sub32(m.dar[15], 4);
    StorePlain(e, m.(dar := m.dar[15 := sp]), InMemory(sp), Long, v);
  }

  lemma PullPlain(e: Env, m: M)
    requires Ok(e, m) && Pull(e, true, m).Some?
    ensures Pull(e, false, m) == Pull(e, true, m)
  {
    LoadPlain(e, m, InMemory(m.dar[15]), Long);
  }

  lemma AddressPlain(e: Env, m: M, ea: Ea)
    requires Ok(e, m) && ea.IsControl() && AddressOf(e, true, m, ea).Some?
    ensures AddressOf(e, false, m, ea) == AddressOf(e, true, m, ea)
  {
    hide Resolve;
    ResolvePlain(e, m, ea, Long);
  }

  lemma MovePlain(e: Env, m: M, size: Size, src: Ea, dst: Ea)
    requires Ok(e, m) && ExecMove(e, true, m, size, src, dst).Some?
    ensures ExecMove(e, false, m, size, src, dst) == ExecMove(e, true, m, size, src, dst)
  {
    hide ReadEa, Resolve, Store, LogicFlags, SignExtended;
    ReadPlain(e, m, src, size);
    var s := ReadEa(e, true, m, src, size).value;
    if !dst.AddrReg? {
      ResolvePlain(e, s.m, dst, size);
      var d := Resolve(e, true, s.m, dst, size).value;
      StorePlain(e, d.m, d.loc, size, s.value);
    }
  }

  lemma ModifyPlain(e: Env, m: M, op: BinaryOp, size: Size, src: u32, dst: Ea)
    requires Ok(e, m) && Modify(e, true, m, op, size, src, dst).Some?
    ensures Modify(e, false, m, op, size, src, dst) == Modify(e, true, m, op, size, src, dst)
  {
    hide ReadEa, Store, Compute, OpFlags, Masked;
    ReadPlain(e, m, dst, size);
    var d := ReadEa(e, true, m, dst, size).value;
    if op != Cmp {
      StorePlain(e, d.m, d.loc, size, Masked(Compute(op, src, d.value), size));
    }
  }

  lemma UnaryPlain(e: Env, m: M, op: MemOp)
    requires Ok(e, m) && Decodable(op) && (op.Tst? || op.Clr? || op.Neg? || op.Not?) && Exec(e, true, m, op).Some?
    ensures Exec(e, false, m, op) == Exec(e, true, m, op)
  {
    hide ReadEa, Resolve, Store, SubFlags, LogicFlags, Masked;
    if op.Clr? {
      ResolvePlain(e, m, op.ea, op.size);
      var d := Resolve(e, true, m, op.ea, op.size).value;
      StorePlain(e, d.m, d.loc, op.size, 0);
    } else {
      ReadPlain(e, m, op.ea, op.size);
      var x := ReadEa(e, true, m, op.ea, op.size).value;
      if op.Neg? {
        StorePlain(e, x.m, x.loc, op.size, Masked(Sub32(0, x.value), op.size));
      } else if op.Not? {
        StorePlain(e, x.m, x.loc, op.size, Masked(0xFFFF_FFFF - x.value, op.size));
      }
    }
  }

  lemma BitPlain(e: Env, m: M, op: BitOp, bit: BitSource, ea: Ea)
    requires Ok(e, m) && ExecBitMem(e, true, m, op, bit, ea).Some?
    ensures ExecBitMem(e, false, m, op, bit, ea) == ExecBitMem(e, true, m, op, bit, ea)
  {
    hide ReadEa, Fetch, Store, ApplyBit, BitFlags;
    if bit.FromExtension? {
      FetchPlain(e, m);
    }
    var b := BitNumber(e, true, m, bit).value;
    ReadPlain(e, b.1, ea, Byte);
    var x := ReadEa(e, true, b.1, ea, Byte).value;
    if op != Test {
      var k := b.0 % 8;
      StorePlain(e, x.m.(flags := BitFlags(x.m.flags, x.value, k)), x.loc, Byte, ApplyBit(op, x.value, k) % 0x100);
    }
  }

  lemma {:induction false} DownPlain(e: Env, m: M, mask: u16, base: Reg, i: nat, a: u32)
    requires Ok(e, m) && i <= 16 && MovemDown(e, true, m, mask, base, i, a).Some?
    ensures MovemDown(e, false, m, mask, base, i, a) == MovemDown(e, true, m, mask, base, i, a)
    decreases 16 - i
  {
    hide BitOf, Store;
    if i < 16 {
      if !BitOf(mask, i) {
        DownPlain(e, m, mask, base, i + 1, a);
      } else {
        var next := Sub32(a, 4);
        var v := if 15 - i == 8 + base && !e.pre020 then Sub32(m.dar[15 - i], 4) else m.dar[15 - i];
        StorePlain(e, m, InMemory(next), Long, v);
        DownPlain(e, Store(e, true, m, InMemory(next), Long, v).value, mask, base, i + 1, next);
      }
    }
  }

  lemma {:induction false} UpPlain(e: Env, m: M, mask: u16, size: Size, i: nat, a: u32)
    requires Ok(e, m) && i <= 16 && MovemUp(e, true, m, mask, size, i, a).Some?
    ensures MovemUp(e, false, m, mask, size, i, a) == MovemUp(e, true, m, mask, size, i, a)
    decreases 16 - i
  {
    hide BitOf, Load, SignExtended;
    if i < 16 {
      if !BitOf(mask, i) {
        UpPlain(e, m, mask, size, i + 1, a);
      } else {
        LoadPlain(e, m, InMemory(a), size);
        var v := Load(e, true, m, InMemory(a), size).value;
        UpPlain(e, m.(dar := m.dar[i := SignExtended(v, size)]), mask, size, i + 1, Add32(a, size.Bytes()));
      }
    }
  }

  lemma MovemPlain(e: Env, m: M, op: MemOp)
    requires Ok(e, m) && Decodable(op) && Exec(e, true, m, op).Some?
    requires op.MovemWordPostInc? || op.MovemLongPostInc? || op.MovemLongPreDec?
    ensures Exec(e, false, m, op) == Exec(e, true, m, op)
  {
    hide MovemDown, MovemUp, Fetch;
    FetchPlain(e, m);
    var f := Fetch(e, true, m).value;
    if op.MovemLongPreDec? {
      DownPlain(e, f.m, f.word, op.base, 0, f.m.dar[8 + op.base]);
    } else {
      UpPlain(e, f.m, f.word, if op.MovemWordPostInc? then Word else Long, 0, f.m.dar[8 + op.base]);
    }
  }

  lemma FlowPlain(e: Env, m: M, op: MemOp)
    requires Ok(e, m) && Decodable(op) && Exec(e, true, m, op).Some?
    requires op.Bsr? || op.BranchWord? || op.Dbcc? || op.BitImmDataReg? || op.Rts? || op.Unlk? || op.Link?
    ensures Exec(e, false, m, op) == Exec(e, true, m, op)
  {
    hide Fetch, Push, Pull, ApplyBit, BitFlags, Merge, Add32, Sub32;
    if Fetch(e, true, m).Some? {
      FetchPlain(e, m);
    }
    match op {
      case Bsr(_, length) =>
        var at := if length == 4 then Fetch(e, true, m).value.m else m;
        PushPlain(e, at, at.pc);
      case Link(reg) =>
        var f := Fetch(e, true, m).value;
        PushPlain(e, f.m, f.m.dar[8 + reg]);
      case Rts => PullPlain(e, m);
      case Unlk(reg) => PullPlain(e, m.(dar := m.dar[15 := m.dar[8 + reg]]));
      case _ =>
    }
  }

  lemma ControlPlain(e: Env, m: M, op: MemOp)
    requires Ok(e, m) && Decodable(op) && Exec(e, true, m, op).Some?
    requires op.Lea? || op.Pea? || op.Jmp? || op.Jsr?
    ensures Exec(e, false, m, op) == Exec(e, true, m, op)
  {
    hide AddressOf, Push;
    AddressPlain(e, m, op.ea);
    var p := AddressOf(e, true, m, op.ea).value;
    if op.Pea? {
      PushPlain(e, p.1, p.0);
    } else if op.Jsr? {
      PushPlain(e, p.1, p.1.pc);
    }
  }

  /** Whatever the fast path takes, the unconfined instruction does the same. */
  lemma StrictIsPlain(e: Env, m: M, op: MemOp)
    requires Ok(e, m) && Decodable(op) && Exec(e, true, m, op).Some?
    ensures Exec(e, false, m, op) == Exec(e, true, m, op)
  {
    hide ReadEa, Resolve, Store, Modify, MovemUp, MovemDown, Fetch, Compute, OpFlags, SignExtended, Merge, DnOperand;
    match op {
      case Move(size, src, dst) => MovePlain(e, m, size, src, dst);
      case AluToReg(_, size, src, _) => ReadPlain(e, m, src, size);
      case AluToMem(o, size, from, dst) => ModifyPlain(e, m, o, size, DnOperand(o, m.dar[from], size), dst);
      case AluAddr(_, size, src, _) => ReadPlain(e, m, src, size);
      case AluImm(o, size, dst) =>
        ResolvePlain(e, m, Imm, size);
        var i := Resolve(e, true, m, Imm, size).value;
        ModifyPlain(e, i.m, o, size, i.loc.v, dst);
      case AddqSubq(data, size, ea, isSub) => ModifyPlain(e, m, if isSub then Sub else Add, size, data, ea);
      case BitMem(o, bit, ea) => BitPlain(e, m, o, bit, ea);
      case CmpM(size, ay, ax) =>
        ReadPlain(e, m, AnPostInc(ay), size);
        ReadPlain(e, ReadEa(e, true, m, AnPostInc(ay), size).value.m, AnPostInc(ax), size);
      case Tst(_, _) => UnaryPlain(e, m, op);
      case Clr(_, _) => UnaryPlain(e, m, op);
      case Neg(_, _) => UnaryPlain(e, m, op);
      case Not(_, _) => UnaryPlain(e, m, op);
      case MovemWordPostInc(_) => MovemPlain(e, m, op);
      case MovemLongPostInc(_) => MovemPlain(e, m, op);
      case MovemLongPreDec(_) => MovemPlain(e, m, op);
      case Lea(_, _) => ControlPlain(e, m, op);
      case Pea(_) => ControlPlain(e, m, op);
      case Jmp(_) => ControlPlain(e, m, op);
      case Jsr(_) => ControlPlain(e, m, op);
      case _ => FlowPlain(e, m, op);
    }
  }

  // ----------------------------------------------------- one block is written

  /** `after` is `before` with one block, inside the window, written over it. */
  ghost predicate OneBlock(e: Env, before: seq<u8>, after: seq<u8>)
    requires e.bus.Holds(before)
  {
    exists a: u32, b: seq<u8> :: after == Write(e.bus, before, a, b) && InWindow(e, a, |b|) && |b| <= 64
  }

  lemma NothingWritten(e: Env, mem: seq<u8>)
    requires e.bus.Holds(mem) && Fits(e)
    ensures OneBlock(e, mem, mem)
  {
    AtSmall(e.bus, e.base);
    NoBytes(e.bus, mem, e.base);
    var b: seq<u8> := [];
    assert mem == Write(e.bus, mem, e.base, b) && InWindow(e, e.base, |b|);
  }

  lemma StoreWritesBlock(e: Env, m: M, loc: Loc, size: Size, v: u32)
    requires Ok(e, m) && Fits(e) && (loc.InRegister? ==> loc.i < 16) && Store(e, true, m, loc, size, v).Some?
    ensures OneBlock(e, m.mem, Store(e, true, m, loc, size, v).value.mem)
  {
    hide Write;
    if loc.InMemory? {
      var b := SizedBytes(v, size);
      assert Store(e, true, m, loc, size, v).value.mem == Write(e.bus, m.mem, loc.a, b) && InWindow(e, loc.a, |b|);
    } else {
      NothingWritten(e, m.mem);
    }
  }

  lemma PushWritesBlock(e: Env, m: M, v: u32)
    requires Ok(e, m) && Fits(e) && Push(e, true, m, v).Some?
    ensures OneBlock(e, m.mem, Push(e, true, m, v).value.mem)
  {
    var sp := Sub32(m.dar[15], 4);
    StoreWritesBlock(e, m.(dar := m.dar[15 := sp]), InMemory(sp), Long, v);
  }

  lemma ModifyWritesBlock(e: Env, m: M, op: BinaryOp, size: Size, src: u32, dst: Ea)
    requires Ok(e, m) && Fits(e) && Modify(e, true, m, op, size, src, dst).Some?
    ensures OneBlock(e, m.mem, Modify(e, true, m, op, size, src, dst).value.mem)
  {
    hide ReadEa, Store, Compute, OpFlags, Masked;
    var d := ReadEa(e, true, m, dst, size).value;
    if op == Cmp {
      NothingWritten(e, m.mem);
    } else {
      StoreWritesBlock(e, d.m, d.loc, size, Masked(Compute(op, src, d.value), size));
    }
  }

  lemma DownWritesBlock(e: Env, m: M, base: Reg)
    requires Ok(e, m) && Fits(e) && Takes(e, m, MovemLongPreDec(base))
    ensures OneBlock(e, m.mem, Exec(e, true, m, MovemLongPreDec(base)).value.mem)
  {
    hide BitOf, Bus.At, MovemDown, Image, Write, InWindow, Fetch;
    var f := Fetch(e, true, m).value;
    assert f.m == m.(pc := f.m.pc) by { FetchMovesPc(e, m); }
    DownCovered(e, f.m, base, f.word);
    DownIsBlock(e, f.m, f.word, base, 0, f.m.dar[8 + base]);
    var low, b := Sub32(m.dar[8 + base], 4 * Count(f.word, 0)), Image(m.dar, f.word, 0);
    assert Exec(e, true, m, MovemLongPreDec(base)).value.mem == Write(e.bus, m.mem, low, b) && InWindow(e, low, |b|);
  }

  lemma FetchMovesPc(e: Env, m: M)
    requires Ok(e, m) && Fetch(e, true, m).Some?
    ensures Fetch(e, true, m).value.m == m.(pc := Add32(m.pc, 2))
  {
  }

  /** An operation the fast path takes changes one block of at most sixteen
      longs, inside the window, and no other byte. */
  lemma WritesOneBlock(e: Env, m: M, op: MemOp)
    requires Ok(e, m) && Fits(e) && Decodable(op) && Takes(e, m, op)
    ensures OneBlock(e, m.mem, Exec(e, true, m, op).value.mem)
  {
    hide ReadEa, Resolve, Store, Modify, MovemUp, MovemDown, Fetch, Compute, OpFlags, SignExtended, Merge, DnOperand,
         OneBlock, Push, AddressOf, Masked, LogicFlags, SubFlags, ApplyBit, BitFlags, UpShape, DownShape;
    NothingWritten(e, m.mem);
    match op {
      case Move(size, src, dst) =>
        if !dst.AddrReg? {
          var s := ReadEa(e, true, m, src, size).value;
          var d := Resolve(e, true, s.m, dst, size).value;
          StoreWritesBlock(e, d.m, d.loc, size, s.value);
        }
      case AluToMem(o, size, from, dst) => ModifyWritesBlock(e, m, o, size, DnOperand(o, m.dar[from], size), dst);
      case AluImm(o, size, dst) =>
        var i := Resolve(e, true, m, Imm, size).value;
        ModifyWritesBlock(e, i.m, o, size, i.loc.v, dst);
      case AddqSubq(data, size, ea, isSub) => ModifyWritesBlock(e, m, if isSub then Sub else Add, size, data, ea);
      case Clr(size, ea) =>
        var d := Resolve(e, true, m, ea, size).value;
        StoreWritesBlock(e, d.m, d.loc, size, 0);
      case Neg(size, ea) =>
        var x := ReadEa(e, true, m, ea, size).value;
        StoreWritesBlock(e, x.m, x.loc, size, Masked(Sub32(0, x.value), size));
      case Not(size, ea) =>
        var x := ReadEa(e, true, m, ea, size).value;
        StoreWritesBlock(e, x.m, x.loc, size, Masked(0xFFFF_FFFF - x.value, size));
      case BitMem(o, bit, ea) =>
        var b := BitNumber(e, true, m, bit).value;
        var x := ReadEa(e, true, b.1, ea, Byte).value;
        if o != Test {
          var k := b.0 % 8;
          StoreWritesBlock(e, x.m.(flags := BitFlags(x.m.flags, x.value, k)), x.loc, Byte,
                           ApplyBit(o, x.value, k) % 0x100);
        }
      case MovemLongPreDec(base) => DownWritesBlock(e, m, base);
      case Link(reg) =>
        var f := Fetch(e, true, m).value;
        PushWritesBlock(e, f.m, f.m.dar[8 + reg]);
      case Pea(ea) =>
        var p := AddressOf(e, true, m, ea).value;
        PushWritesBlock(e, p.1, p.0);
      case Jsr(ea) =>
        var p := AddressOf(e, true, m, ea).value;
        PushWritesBlock(e, p.1, p.1.pc);
      case Bsr(_, length) =>
        var at := if length == 4 then Fetch(e, true, m).value.m else m;
        PushWritesBlock(e, at, at.pc);
      case _ =>
    }
  }

  // ------------------------------------------------------------- push and pop

  /** The image of a list in postincrement order: bit 0 is D0, bit 15 is A7. */
  function ImageUp(dar: seq<u32>, mask: u16, i: nat): (b: seq<u8>)
    requires |dar| == 16 && i <= 16
    ensures |b| == 4 * Count(mask, i)
    decreases 16 - i
  {
    if i == 16 then []
    else (if BitOf(mask, i) then Bytes32(dar[i]) else []) + ImageUp(dar, mask, i + 1)
  }

  /** The same registers, in the other instruction's bit order. */
  predicate Reversed(push: u16, pop: u16) {
    forall i :: 0 <= i < 16 ==> (BitOf(pop, i) <==> BitOf(push, 15 - i))
  }

  lemma {:induction false} SameImage(dar: seq<u32>, push: u16, pop: u16, i: nat)
    requires |dar| == 16 && i <= 16 && Reversed(push, pop)
    ensures Image(dar, push, 16 - i) + ImageUp(dar, pop, i) == Image(dar, push, 0)
    decreases 16 - i
  {
    hide BitOf, Bytes32;
    if i < 16 {
      SameImage(dar, push, pop, i + 1);
      assert BitOf(pop, i) <==> BitOf(push, 15 - i);
      assert 15 - (15 - i) == i && 16 - (i + 1) == 15 - i;
      var mine := if BitOf(pop, i) then Bytes32(dar[i]) else [];
      assert Image(dar, push, 15 - i) == Image(dar, push, 16 - i) + mine;
      assert ImageUp(dar, pop, i) == mine + ImageUp(dar, pop, i + 1);
    }
  }

  /** Registers from `i` on that the mask lists hold their saved values. */
  predicate Restored(x: seq<u32>, y: seq<u32>, saved: seq<u32>, mask: u16, i: nat) {
    && |x| == |y| == |saved| == 16
    && forall r :: 0 <= r < 16 ==> y[r] == if r >= i && BitOf(mask, r) then saved[r] else x[r]
  }

  lemma {:induction false} UpRestores(e: Env, x: M, saved: seq<u32>, mask: u16, i: nat, a: u32)
    requires Ok(e, x) && |saved| == 16 && i <= 16
    requires MovemUp(e, true, x, mask, Long, i, a).Some?
    requires Block(e.bus, x.mem, a, 4 * Count(mask, i)) == ImageUp(saved, mask, i)
    ensures var y := MovemUp(e, true, x, mask, Long, i, a).value;
            && y.1 == Add32(a, 4 * Count(mask, i)) && y.0 == x.(dar := y.0.dar)
            && Restored(x.dar, y.0.dar, saved, mask, i)
    decreases 16 - i
  {
    hide BitOf, Block, Bytes32, ReadMem, SignExtended, Add32, Reaches, ImageUp;
    if i == 16 {
      assert Count(mask, i) == 0;
      AddNothing(a);
    } else if !BitOf(mask, i) {
      SkippedUp(saved, mask, i);
      UpRestores(e, x, saved, mask, i + 1, a);
    } else {
      NextSaved(e, x.mem, saved, mask, i, a);
      UpRestores(e, x.(dar := x.dar[i := saved[i]]), saved, mask, i + 1, Add32(a, 4));
    }
  }

  lemma AddNothing(a: u32)
    ensures Add32(a, 0) == a
  {
  }

  lemma SkippedUp(saved: seq<u32>, mask: u16, i: nat)
    requires |saved| == 16 && i < 16 && !BitOf(mask, i)
    ensures ImageUp(saved, mask, i) == ImageUp(saved, mask, i + 1)
  {
    hide BitOf;
  }

  /** The first long of an image and the image behind it. */
  lemma ImageUpSplits(saved: seq<u32>, mask: u16, i: nat)
    requires |saved| == 16 && i < 16 && BitOf(mask, i)
    ensures Count(mask, i) == 1 + Count(mask, i + 1)
    ensures ImageUp(saved, mask, i)[..4] == Bytes32(saved[i])
    ensures ImageUp(saved, mask, i)[4..] == ImageUp(saved, mask, i + 1)
  {
    hide BitOf, Bytes32;
  }

  lemma LongAt(e: Env, mem: seq<u8>, a: u32, v: u32)
    requires e.bus.Holds(mem) && Block(e.bus, mem, a, 4) == Bytes32(v)
    ensures ReadMem(e, mem, a, Long) == v
  {
    hide Block, Value, Bytes32;
    ValueOf32(v);
  }

  lemma NextSaved(e: Env, mem: seq<u8>, saved: seq<u32>, mask: u16, i: nat, a: u32)
    requires e.bus.Holds(mem) && |saved| == 16 && i < 16 && BitOf(mask, i)
    requires Block(e.bus, mem, a, 4 * Count(mask, i)) == ImageUp(saved, mask, i)
    ensures ReadMem(e, mem, a, Long) == saved[i] && SignExtended(saved[i], Long) == saved[i]
    ensures Block(e.bus, mem, Add32(a, 4), 4 * Count(mask, i + 1)) == ImageUp(saved, mask, i + 1)
    ensures Add32(Add32(a, 4), 4 * Count(mask, i + 1)) == Add32(a, 4 * Count(mask, i))
  {
    hide BitOf, Bytes32, Block, ReadMem, ImageUp, Count;
    ImageUpSplits(saved, mask, i);
    var n, k := 4 * Count(mask, i), 4 * Count(mask, i + 1);
    SubBlock(e.bus, mem, a, n, 0, 4);
    SubBlock(e.bus, mem, a, n, 4, k);
    BlockWraps(e.bus, mem, a + 4, k);
    LongAt(e, mem, a, saved[i]);
    WrapsAgain(a + 4, k);
  }

  /** What a push the fast path takes leaves: An lowered by the list, and under
      it the listed registers in order. */
  lemma Pushed(e: Env, m: M, base: Reg)
    requires Ok(e, m) && Fits(e) && Takes(e, m, MovemLongPreDec(base))
    ensures var mask, n := Fetch(e, true, m).value.word, Exec(e, true, m, MovemLongPreDec(base)).value;
            && n.dar[8 + base] == Sub32(m.dar[8 + base], 4 * Count(mask, 0))
            && Block(e.bus, n.mem, n.dar[8 + base], 4 * Count(mask, 0)) == Image(m.dar, mask, 0)
  {
    hide BitOf, Bus.At, MovemDown, Image, Write, InWindow, Fetch, Block, Bytes32;
    var f := Fetch(e, true, m).value;
    FetchMovesPc(e, m);
    DownCovered(e, f.m, base, f.word);
    DownIsBlock(e, f.m, f.word, base, 0, m.dar[8 + base]);
    BlockReadsBack(e.bus, m.mem, Sub32(m.dar[8 + base], 4 * Count(f.word, 0)), Image(m.dar, f.word, 0));
  }

  lemma Popped(e: Env, later: M, base: Reg, saved: seq<u32>)
    requires Ok(e, later) && |saved| == 16 && Takes(e, later, MovemLongPostInc(base))
    requires var mask := Fetch(e, true, later).value.word;
             Block(e.bus, later.mem, later.dar[8 + base], 4 * Count(mask, 0)) == ImageUp(saved, mask, 0)
    ensures var mask, n := Fetch(e, true, later).value.word, Exec(e, true, later, MovemLongPostInc(base)).value;
            && n.mem == later.mem && n.flags == later.flags
            && forall r :: 0 <= r < 16 ==>
                 n.dar[r] == if r == 8 + base then Add32(later.dar[8 + base], 4 * Count(mask, 0))
                             else if BitOf(mask, r) then saved[r] else later.dar[r]
  {
    hide BitOf, MovemUp, Fetch, Block, ImageUp, Count;
    FetchMovesPc(e, later);
    var g := Fetch(e, true, later).value;
    UpRestores(e, g.m, saved, g.word, 0, later.dar[8 + base]);
  }

  lemma SameCount(push: u16, pop: u16, dar: seq<u32>)
    requires Reversed(push, pop) && |dar| == 16
    ensures Count(pop, 0) == Count(push, 0) && ImageUp(dar, pop, 0) == Image(dar, push, 0)
  {
    hide BitOf, Count;
    SameImage(dar, push, pop, 0);
    ImageEnds(dar, push);
    assert [] + ImageUp(dar, pop, 0) == ImageUp(dar, pop, 0);
  }

  /** MOVEM.L list,-(An), anything that keeps An and the stored block, then
      MOVEM.L (An)+ of the same registers: each listed register and An have
      their old values back, and no other register changes. */
  lemma PushThenPop(e: Env, m: M, later: M, base: Reg)
    requires Ok(e, m) && Ok(e, later) && Fits(e)
    requires Takes(e, m, MovemLongPreDec(base)) && Takes(e, later, MovemLongPostInc(base))
    requires Reversed(Fetch(e, true, m).value.word, Fetch(e, true, later).value.word)
    requires var pushed := Exec(e, true, m, MovemLongPreDec(base)).value;
             var mask := Fetch(e, true, m).value.word;
             && later.dar[8 + base] == pushed.dar[8 + base]
             && Block(e.bus, later.mem, pushed.dar[8 + base], 4 * Count(mask, 0))
                == Block(e.bus, pushed.mem, pushed.dar[8 + base], 4 * Count(mask, 0))
    ensures var mask := Fetch(e, true, m).value.word;
            var popped := Exec(e, true, later, MovemLongPostInc(base)).value;
            && popped.mem == later.mem && popped.flags == later.flags
            && forall r :: 0 <= r < 16 ==>
                 popped.dar[r] == if r == 8 + base || BitOf(mask, 15 - r) then m.dar[r] else later.dar[r]
  {
    hide BitOf, Exec, Fetch, Block, Image, ImageUp, Count, UpShape, DownShape;
    var push, pop := Fetch(e, true, m).value.word, Fetch(e, true, later).value.word;
    Pushed(e, m, base);
    SameCount(push, pop, m.dar);
    Popped(e, later, base, m.dar);
    assert Add32(Sub32(m.dar[8 + base], 4 * Count(push, 0)), 4 * Count(push, 0)) == m.dar[8 + base];
    assert forall r :: 0 <= r < 16 ==> (BitOf(pop, r) <==> BitOf(push, 15 - r));
  }

  lemma ImageEnds(dar: seq<u32>, mask: u16)
    requires |dar| == 16
    ensures Image(dar, mask, 16) == []
  {
  }
}
