/** The batch loop's memory operations: operands located in a RAM window,
    address-register updates staged, nothing committed before every check has
    passed. Each method is proved against the sequential form in `MemOps`. */
module FastMem {
  import opened Words
  import opened BusMemory
  import opened MemOps
  import opened OperandMasking
  import opened Movem
  import opened SimpleOps

  // ----------------------------------------------------------- the window

  /** `Win::off`. */
  function Off(e: Env, a: u32, n: nat): Option<nat> {
    var o := Sub32(e.bus.At(a), e.base);
    if n <= e.len && o <= e.len - n then Some(o) else None
  }

  lemma OffFindsWindow(e: Env, a: u32, n: nat)
    requires Fits(e) && 0 < n <= e.len
    ensures Off(e, a, n).Some? <==> InWindow(e, a, n)
    ensures Off(e, a, n).Some? ==> Off(e, a, n).value == e.bus.At(a) - e.base
  {
    var addr := e.bus.At(a);
    assert addr < 0x1_0000_0000;
    hide Bus.At;
    if addr >= e.base {
      assert Sub32(addr, e.base) == addr - e.base;
    } else {
      assert Sub32(addr, e.base) == addr - e.base + 0x1_0000_0000;
    }
  }

  /** A window access and the bus access at the same address see the same bytes. */
  lemma WindowBlock(e: Env, mem: seq<u8>, a: u32, n: nat)
    requires e.bus.Holds(mem) && e.bus.At(a) + n <= e.bus.Size()
    ensures Block(e.bus, mem, a, n) == mem[e.bus.At(a)..e.bus.At(a) + n]
  {
    var p, b := e.bus.At(a), Block(e.bus, mem, a, n);
    forall i: nat | i < n
      ensures b[i] == mem[p..p + n][i]
    {
      AtShift(e.bus, a, i);
      AtSmall(e.bus, p + i);
      assert b[i] == Read8(e.bus, mem, a + i);
    }
  }

  lemma WindowWrite(e: Env, mem: seq<u8>, a: u32, b: seq<u8>)
    requires e.bus.Holds(mem) && e.bus.At(a) + |b| <= e.bus.Size()
    ensures Write(e.bus, mem, a, b) == mem[..e.bus.At(a)] + b + mem[e.bus.At(a) + |b|..]
  {
    var p := e.bus.At(a);
    var w, r := Write(e.bus, mem, a, b), mem[..p] + b + mem[p + |b|..];
    forall i | 0 <= i < |mem|
      ensures w[i] == r[i]
    {
      AtMinus(e.bus, i - (a - p), p);
      AtShift(e.bus, a, -p);
      WindowOffset(e.bus, i, a);
    }
  }

  lemma WindowOffset(bus: Bus, i: nat, a: u32)
    requires i < bus.Size()
    ensures var p := bus.At(a); bus.At(i - a) == if i >= p then i - p else i - p + bus.Size()
  {
    if bus.Bus24? {
      assert (i - a) % 0x100_0000 == (i - a % 0x100_0000) % 0x100_0000;
    }
  }

  // ------------------------------------------------------- staged updates

  /** `Ctx`: the next extension word and the pending register updates. */
  datatype Ctx = Ctx(nextExt: u32, pending: seq<(Reg, u32)>)

  /** What `Pending::commit` leaves in the registers. */
  function Committed(dar: seq<u32>, pending: seq<(Reg, u32)>): (r: seq<u32>)
    requires |dar| == 16
    ensures |r| == 16
    ensures forall i :: 0 <= i < 8 ==> r[i] == dar[i]
  {
    if pending == [] then dar
    else
      var last := pending[|pending| - 1];
      Committed(dar, pending[..|pending| - 1])[8 + last.0 := last.1]
  }

  /** The sequential state a half-executed fast operation stands for. */
  function Ahead(m: M, ctx: Ctx): (r: M)
    requires |m.dar| == 16
    ensures |r.dar| == 16
  {
    m.(dar := Committed(m.dar, ctx.pending), pc := ctx.nextExt)
  }

  lemma NothingStaged(m: M)
    requires |m.dar| == 16
    ensures Ahead(m, Ctx(m.pc, [])) == m
  {
  }

  lemma CommitStep(dar: seq<u32>, pending: seq<(Reg, u32)>, r: Reg, v: u32)
    requires |dar| == 16
    ensures Committed(dar, pending + [(r, v)]) == Committed(dar, pending)[8 + r := v]
  {
    assert (pending + [(r, v)])[..|pending|] == pending;
  }

  /** An operand as the fast path holds it: register, window offset or value. */
  datatype Place = InDar(i: nat) | InWin(off: nat) | Literal(v: u32)

  predicate Usable(e: Env, loc: Loc, size: Size) {
    loc.InMemory? ==> Reaches(e, true, loc.a, size)
  }

  /** A place and a sequential location are the same operand. */
  predicate Located(e: Env, loc: Loc, place: Place, size: Size) {
    match loc
    case InRegister(i) => place == InDar(i) && i < 16
    case Immediate(v) => place == Literal(v)
    case InMemory(a) => Reaches(e, true, a, size) && place == InWin(e.bus.At(a) - e.base)
  }

  /** Staged resolution found the operand sequential resolution finds, and
      stands for the state it leaves; or both refuse it. */
  predicate SameOperand(e: Env, m: M, ctx: Ctx, ea: Ea, size: Size, r: Option<(Place, Ctx)>)
    requires Ok(e, m)
  {
    var s := Resolve(e, true, Ahead(m, ctx), ea, size);
    if r.None? then s.None? || !Usable(e, s.value.loc, size)
    else
      && s.Some? && Located(e, s.value.loc, r.value.0, size)
      && Ahead(m, r.value.1) == s.value.m && r.value.1.nextExt % 2 == 0
      && |r.value.1.pending| <= |ctx.pending| + 1
      && (ea.DataReg? || ea.AddrReg? ==> r.value.1 == ctx)
      && (ea.Imm? ==> r.value.1.pending == ctx.pending)
  }

  /** The verdict and the new state of a fast operation: both of the strict
      sequential run, or refusal and nothing changed. */
  predicate Agrees(e: Env, m: M, op: MemOp, ok: bool, after: M)
    requires Ok(e, m) && Decodable(op)
  {
    match Exec(e, true, m, op)
    case Some(done) => ok && after == done
    case None => !ok && after == m
  }

  class Cpu {
    const env: Env
    const dar: array<u32>
    const mem: array<u8>
    var pc: u32
    var flags: Flags
    var windowUp: bool            // fm_len != 0

    ghost predicate Valid()
      reads this
    {
      && dar.Length == 16 && mem.Length == env.bus.Size() && dar as object != mem
      && Fits(env)
    }

    ghost function View(): (m: M)
      requires Valid()
      reads this, dar, mem
      ensures Ok(env, m)
    {
      M(dar[..], pc, flags, mem[..])
    }

    // ------------------------------------------------------ window access

    method WinRead(off: nat, size: Size, ghost a: u32) returns (v: u32)
      requires Valid() && InWindow(env, a, size.Bytes()) && off == env.bus.At(a) - env.base
      ensures v == ReadMem(env, View().mem, a, size)
    {
      hide Bus.At;
      WindowBlock(env, mem[..], a, size.Bytes());
      Limits(size.Bytes());
      var p := env.base + off;
      assert mem[..][p..p + size.Bytes()] == mem[p..p + size.Bytes()];
      v := Value(mem[p..p + size.Bytes()]);
    }

    method WinWrite(off: nat, size: Size, v: u32, ghost a: u32)
      requires Valid() && InWindow(env, a, size.Bytes()) && off == env.bus.At(a) - env.base
      modifies mem
      ensures View() == old(View()).(mem := WriteMem(env, old(View()).mem, a, size, v))
    {
      hide Bus.At, Write;
      var b := SizedBytes(v, size);
      WindowWrite(env, mem[..], a, b);
      var p := env.base + off;
      forall i | 0 <= i < |b| {
        mem[p + i] := b[i];
      }
      assert mem[..] == old(mem[..p]) + b + old(mem[p + |b|..]);
      assert old(mem[..])[..p] == old(mem[..p]) && old(mem[..])[p + |b|..] == old(mem[p + |b|..]);
    }

    method SetDar(i: nat, v: u32)
      requires Valid() && i < 16
      modifies dar
      ensures View() == old(View()).(dar := old(View()).dar[i := v])
    {
      dar[i] := v;
    }

    /** `locate`: alignment, then the window. */
    method Locate(raw: u32, size: Size) returns (off: Option<nat>)
      requires Valid()
      ensures off.Some? <==> Reaches(env, true, raw, size)
      ensures off.Some? ==> off.value == env.bus.At(raw) - env.base
    {
      OffFindsWindow(env, raw, size.Bytes());
      if env.pre020 && size != Byte && raw % 2 != 0 {
        return None;
      }
      off := Off(env, raw, size.Bytes());
    }

    // -------------------------------------------------- staged resolution

    /** `Pending::a`: later updates shadow earlier ones. */
    method StagedA(pending: seq<(Reg, u32)>, r: Reg) returns (v: u32)
      requires Valid()
      ensures v == Committed(dar[..], pending)[8 + r]
    {
      var i := |pending|;
      assert pending[..i] == pending;
      while i > 0
        invariant 0 <= i <= |pending|
        invariant Committed(dar[..], pending)[8 + r] == Committed(dar[..], pending[..i])[8 + r]
      {
        i := i - 1;
        assert pending[..i + 1][..i] == pending[..i];
        if pending[i].0 == r {
          return pending[i].1;
        }
      }
      assert pending[..0] == [];
      v := dar[8 + r];
    }

    method Commit(pending: seq<(Reg, u32)>)
      requires Valid()
      modifies dar
      ensures View() == old(View()).(dar := Committed(old(View()).dar, pending))
    {
      for i := 0 to |pending|
        invariant View() == old(View()).(dar := Committed(old(View()).dar, pending[..i]))
      {
        assert pending[..i + 1] == pending[..i] + [pending[i]];
        CommitStep(old(View()).dar, pending[..i], pending[i].0, pending[i].1);
        SetDar(8 + pending[i].0 as int, pending[i].1);
      }
      assert pending[..|pending|] == pending;
    }

    method ReadExtWord(ctx: Ctx) returns (r: Option<(u16, Ctx)>)
      requires Valid() && ctx.nextExt % 2 == 0
      ensures var f := Fetch(env, true, Ahead(View(), ctx));
              && (r.Some? <==> f.Some?)
              && (r.Some? ==> r.value.0 == f.value.word && Ahead(View(), r.value.1) == f.value.m
                              && r.value.1 == Ctx(Add32(ctx.nextExt, 2), ctx.pending)
                              && r.value.1.nextExt % 2 == 0)
    {
      hide ReadMem, Committed;
      OffFindsWindow(env, ctx.nextExt, 2);
      var off := Off(env, ctx.nextExt, 2);
      if off.None? {
        return None;
      }
      var w := WinRead(off.value, Word, ctx.nextExt);
      r := Some((w, Ctx(Add32(ctx.nextExt, 2), ctx.pending)));
    }

    /** `brief_index`, the index register seen through the pending updates. */
    method BriefIndex(ctx: Ctx, base: u32, ext: u16) returns (a: Option<u32>)
      requires Valid()
      ensures a == if FullFormat(env, ext) then None
                   else Some(Indexed(env, base, ext, Ahead(View(), ctx).dar[IndexRegister(ext)]))
    {
      hide Committed, Indexed, BitOf;
      if BitOf(ext, 8) && !env.pre020 {
        return None;
      }
      var idx := ext / 0x1000;
      var x;
      if idx >= 8 {
        x := StagedA(ctx.pending, idx - 8);
      } else {
        x := dar[idx];
      }
      a := Some(Indexed(env, base, ext, x));
    }

    /** The common end of every memory form: alignment and window. */
    method Place(raw: u32, size: Size, ctx: Ctx) returns (r: Option<(Place, Ctx)>)
      requires Valid()
      ensures r.Some? <==> Reaches(env, true, raw, size)
      ensures r.Some? ==> Located(env, InMemory(raw), r.value.0, size) && r.value.1 == ctx
    {
      var off := Locate(raw, size);
      r := if off.None? then None else Some((InWin(off.value), ctx));
    }

    /** `resolve`. No CPU state is modified. */
    method ResolveStaged(ea: Ea, size: Size, ctx: Ctx) returns (r: Option<(Place, Ctx)>)
      requires Valid() && ctx.nextExt % 2 == 0
      ensures SameOperand(env, View(), ctx, ea, size, r)
    {
      hide ReadMem, Committed, Reaches, Indexed, FullFormat, Located;
      match ea {
        case DataReg(k) =>
          r := Some((InDar(k), ctx));
          RegisterLocated(env, k, size);
        case AddrReg(k) =>
          r := Some((InDar(8 + k as int), ctx));
          RegisterLocated(env, 8 + k as int, size);
        case Imm =>
          r := ResolveImmediate(size, ctx);
        case AnPostInc(_) =>
          r := ResolveStepping(ea, size, ctx);
        case AnPreDec(_) =>
          r := ResolveStepping(ea, size, ctx);
        case _ =>
          var a := ResolveAddress(ea, ctx);
          if a.None? {
            return None;
          }
          r := Place(a.value.0, size, a.value.1);
      }
    }

    method ResolveImmediate(size: Size, ctx: Ctx) returns (r: Option<(Place, Ctx)>)
      requires Valid() && ctx.nextExt % 2 == 0
      ensures SameOperand(env, View(), ctx, Imm, size, r)
    {
      hide ReadMem, Committed, Reaches;
      var hi := ReadExtWord(ctx);
      if hi.None? {
        return None;
      }
      if size != Long {
        return Some((Literal(if size == Byte then hi.value.0 % 0x100 else hi.value.0), hi.value.1));
      }
      var lo := ReadExtWord(hi.value.1);
      if lo.None? {
        return None;
      }
      r := Some((Literal(hi.value.0 as int * 0x1_0000 + lo.value.0), lo.value.1));
    }

    /** (An)+ and -(An): the update is staged behind the checks. */
    method ResolveStepping(ea: Ea, size: Size, ctx: Ctx) returns (r: Option<(Place, Ctx)>)
      requires Valid() && ctx.nextExt % 2 == 0 && (ea.AnPostInc? || ea.AnPreDec?)
      ensures SameOperand(env, View(), ctx, ea, size, r)
    {
      hide ReadMem, Committed, Reaches;
      var was := StagedA(ctx.pending, ea.r);
      var a := if ea.AnPostInc? then was else Sub32(was, Increment(size, ea.r));
      var next := if ea.AnPostInc? then Add32(was, Increment(size, ea.r)) else a;
      r := Place(a, size, ctx);
      if r.Some? {
        CommitStep(View().dar, ctx.pending, ea.r, next);
        r := Some((r.value.0, Ctx(ctx.nextExt, ctx.pending + [(ea.r, next)])));
      }
    }

    /** The memory forms without a register update; also `resolve_control_addr`. */
    method ResolveAddress(ea: Ea, ctx: Ctx) returns (r: Option<(u32, Ctx)>)
      requires Valid() && ctx.nextExt % 2 == 0 && ea.IsControl()
      ensures var s := Resolve(env, true, Ahead(View(), ctx), ea, Long);
              && (r.Some? <==> s.Some?)
              && (r.Some? ==> s.value.loc == InMemory(r.value.0) && Ahead(View(), r.value.1) == s.value.m
                              && r.value.1.nextExt % 2 == 0 && r.value.1.pending == ctx.pending)
      ensures forall size :: Resolve(env, true, Ahead(View(), ctx), ea, size)
                          == Resolve(env, true, Ahead(View(), ctx), ea, Long)
    {
      hide ReadMem, Committed, Indexed, FullFormat;
      if ea.AnInd? {
        var a := StagedA(ctx.pending, ea.r);
        return Some((a, ctx));
      }
      var ext := ReadExtWord(ctx);
      if ext.None? {
        return None;
      }
      var w, next := ext.value.0, ext.value.1;
      match ea {
        case AnDisp(k) =>
          var a := StagedA(next.pending, k);
          r := Some((Add32(a, Sext16(w)), next));
        case AnIndex(k) =>
          var base := StagedA(ctx.pending, k);
          var a := BriefIndex(next, base, w);
          r := if a.None? then None else Some((a.value, next));
        case AbsW =>
          r := Some((Sext16(w) % 0x1_0000_0000, next));
        case AbsL =>
          var lo := ReadExtWord(next);
          r := if lo.None? then None else Some((w as int * 0x1_0000 + lo.value.0, lo.value.1));
        case PcDisp =>
          r := Some((Add32(ctx.nextExt, Sext16(w)), next));
        case PcIndex =>
          var a := BriefIndex(next, ctx.nextExt, w);
          r := if a.None? then None else Some((a.value, next));
      }
    }

    // -------------------------------------------------------- generic arms

    /** `load`: before the commit, so the registers are still the old ones. */
    method LoadPlace(place: Place, size: Size, ghost loc: Loc, ghost at: M) returns (v: u32)
      requires Valid() && Ok(env, at) && Located(env, loc, place, size) && at.mem == View().mem
      requires place.InDar? ==> at.dar[place.i] == dar[place.i]
      ensures Load(env, true, at, loc, size) == Some(v)
    {
      hide ReadMem;
      match place {
        case InDar(i) => v := Masked(dar[i], size);
        case Literal(x) => v := Masked(x, size);
        case InWin(off) => v := WinRead(off, size, loc.a);
      }
    }

    /** `store`, after the commit. */
    method StorePlace(place: Place, size: Size, v: u32, ghost loc: Loc)
      requires Valid() && Located(env, loc, place, size) && !place.Literal?
      modifies dar, mem
      ensures Store(env, true, old(View()), loc, size, v) == Some(View())
    {
      hide WriteMem;
      match place {
        case InDar(i) => SetDar(i, Merge(dar[i], v, size));
        case InWin(off) => WinWrite(off, size, v, loc.a);
      }
    }

    /** Resolve and read one operand: what every arm starts with. */
    method LoadStaged(ea: Ea, size: Size, ctx: Ctx) returns (r: Option<(Place, u32, Ctx)>)
      requires Valid() && ctx.nextExt % 2 == 0 && (ea.AddrReg? ==> ctx.pending == [])
      ensures var s := ReadEa(env, true, Ahead(View(), ctx), ea, size);
              && (r.Some? <==> s.Some?)
              && (r.Some? ==>
                    && Located(env, s.value.loc, r.value.0, size) && r.value.1 == s.value.value
                    && Ahead(View(), r.value.2) == s.value.m && r.value.2.nextExt % 2 == 0
                    && (ea.DataReg? || ea.AddrReg? ==> r.value.2 == ctx))
      ensures r.Some? && r.value.0.Literal? ==> ea.Imm?
    {
      assert ea.AddrReg? ==> Committed(dar[..], ctx.pending) == dar[..];
      hide ReadMem, InWindow, FetchIndexed, Fetch, FetchLong;
      var p := ResolveStaged(ea, size, ctx);
      if p.None? {
        return None;
      }
      ghost var s := Resolve(env, true, Ahead(View(), ctx), ea, size).value;
      var v := LoadPlace(p.value.0, size, s.loc, s.m);
      r := Some((p.value.0, v, p.value.1));
    }

    /** `ctx.pending.commit` and, in the end, `finish_pc!`. */
    method CommitAll(ctx: Ctx)
      requires Valid()
      modifies dar, this`pc
      ensures View() == Ahead(old(View()), ctx)
    {
      Commit(ctx.pending);
      pc := ctx.nextExt;
    }

    method GenericMove(size: Size, src: Ea, dst: Ea) returns (ok: bool)
      requires Valid() && pc % 2 == 0 && Decodable(Move(size, src, dst))
      modifies this`pc, this`flags, dar, mem
      ensures Agrees(env, old(View()), Move(size, src, dst), ok, View())
    {
      hide ReadMem, WriteMem, InWindow, Committed, Resolve, Load, Masked, LogicFlags, Merge, SignExtended;
      NothingStaged(View());
      var start := Ctx(pc, []);
      var s := LoadStaged(src, size, start);
      if s.None? {
        return false;
      }
      var value, ctx := s.value.1, s.value.2;
      if dst.AddrReg? {
        CommitAll(ctx);
        SetDar(8 + dst.r as int, SignExtended(value, size));
        return true;
      }
      var d := ResolveStaged(dst, size, ctx);
      if d.None? {
        return false;
      }
      CommitAll(d.value.1);
      StorePlace(d.value.0, size, value, Resolve(env, true, Ahead(old(View()), ctx), dst, size).value.loc);
      flags := LogicFlags(env.alu, flags, value, size);
      ok := true;
    }

    method GenericAluToReg(op: BinaryOp, size: Size, src: Ea, to: Reg) returns (ok: bool)
      requires Valid() && pc % 2 == 0 && op != Eor
      modifies this`pc, this`flags, dar
      ensures Agrees(env, old(View()), AluToReg(op, size, src, to), ok, View())
    {
      hide ReadMem, Committed, Resolve, Load, Compute, OpFlags, Merge, DnOperand, Masked;
      NothingStaged(View());
      var s := LoadStaged(src, size, Ctx(pc, []));
      if s.None? {
        return false;
      }
      var srcVal := s.value.1;
      CommitAll(s.value.2);
      var was := dar[to];
      var dstVal := Masked(was, size);
      var result := Compute(op, srcVal, dstVal);
      MaskedOperand(env.alu, op, flags, srcVal, was, size);
      if op != Cmp {
        SetDar(to, Merge(was, result, size));
      }
      flags := OpFlags(env.alu, op, flags, srcVal, dstVal, result, size);
      ok := true;
    }

    /** AluToMem, ADDQ, SUBQ and the tail of the immediate forms. */
    method GenericModify(op: BinaryOp, size: Size, src: u32, dst: Ea, ctx: Ctx, ghost m: M) returns (ok: bool)
      requires Valid() && ctx.nextExt % 2 == 0 && ctx.pending == [] && dst.IsDataAlterable()
      requires m == Ahead(View(), ctx)
      modifies this`pc, this`flags, dar, mem
      ensures var x := Modify(env, true, m, op, size, src, dst);
              ok == x.Some? && View() == if ok then x.value else old(View())
    {
      hide ReadMem, WriteMem, InWindow, Committed, Resolve, Bits32;
      var d := LoadStaged(dst, size, ctx);
      if d.None? {
        return false;
      }
      var place, dstVal := d.value.0, d.value.1;
      var result := Compute(op, src, dstVal);
      CommitAll(d.value.2);
      if op != Cmp {
        StorePlace(place, size, Masked(result, size), ReadEa(env, true, m, dst, size).value.loc);
      }
      flags := OpFlags(env.alu, op, flags, src, dstVal, result, size);
      ok := true;
    }

    method GenericAluToMem(op: BinaryOp, size: Size, from: Reg, dst: Ea) returns (ok: bool)
      requires Valid() && pc % 2 == 0 && dst.IsMemory() && dst.IsDataAlterable() && op != Cmp
      modifies this`pc, this`flags, dar, mem
      ensures Agrees(env, old(View()), AluToMem(op, size, from, dst), ok, View())
    {
      hide ReadMem, WriteMem, InWindow, Resolve, Compute, OpFlags, Merge, DnOperand, Masked;
      ghost var m := View();
      NothingStaged(m);
      MaskedSource(env, m, op, size, dar[from], dst);
      ok := GenericModify(op, size, Masked(dar[from], size), dst, Ctx(pc, []), m);
    }

    method GenericAddqSubq(data: u32, size: Size, ea: Ea, isSub: bool) returns (ok: bool)
      requires Valid() && pc % 2 == 0 && ea.IsMemory() && ea.IsDataAlterable()
      modifies this`pc, this`flags, dar, mem
      ensures Agrees(env, old(View()), AddqSubq(data, size, ea, isSub), ok, View())
    {
      hide Modify;
      NothingStaged(View());
      ok := GenericModify(if isSub then Sub else Add, size, data, ea, Ctx(pc, []), View());
    }

    method GenericAluImm(op: BinaryOp, size: Size, dst: Ea) returns (ok: bool)
      requires Valid() && pc % 2 == 0 && dst.IsDataAlterable()
      modifies this`pc, this`flags, dar, mem
      ensures Agrees(env, old(View()), AluImm(op, size, dst), ok, View())
    {
      hide Modify, Fetch, FetchLong, Committed;
      NothingStaged(View());
      var imm := ResolveStaged(Imm, size, Ctx(pc, []));
      if imm.None? {
        return false;
      }
      ghost var s := Resolve(env, true, View(), Imm, size).value;
      ok := GenericModify(op, size, imm.value.0.v, dst, imm.value.1, s.m);
    }

    method GenericAluAddr(op: AddrOp, size: Size, src: Ea, to: Reg) returns (ok: bool)
      requires Valid() && pc % 2 == 0 && size != Byte
      modifies this`pc, this`flags, dar
      ensures Agrees(env, old(View()), AluAddr(op, size, src, to), ok, View())
    {
      hide ReadMem, Committed, Resolve, Load, SignExtended;
      NothingStaged(View());
      var s := LoadStaged(src, size, Ctx(pc, []));
      if s.None? {
        return false;
      }
      var v := SignExtended(s.value.1, size);
      CommitAll(s.value.2);
      var dst := dar[8 + to];
      match op {
        case Adda => SetDar(8 + to as int, Add32(dst, v));
        case Suba => SetDar(8 + to as int, Sub32(dst, v));
        case Cmpa => flags := CmpFlags(env.alu, flags, v, dst, Sub32(dst, v), Long);
      }
      ok := true;
    }

    method GenericTst(size: Size, ea: Ea) returns (ok: bool)
      requires Valid() && pc % 2 == 0 && ea.IsMemory() && ea.IsDataAlterable()
      modifies this`pc, this`flags, dar
      ensures Agrees(env, old(View()), Tst(size, ea), ok, View())
    {
      hide ReadMem, Committed, Resolve, Load;
      NothingStaged(View());
      var s := LoadStaged(ea, size, Ctx(pc, []));
      if s.None? {
        return false;
      }
      CommitAll(s.value.2);
      flags := LogicFlags(env.alu, flags, s.value.1, size);
      ok := true;
    }

    method GenericClr(size: Size, ea: Ea) returns (ok: bool)
      requires Valid() && pc % 2 == 0 && ea.IsMemory() && ea.IsDataAlterable()
      modifies this`pc, this`flags, dar, mem
      ensures Agrees(env, old(View()), Clr(size, ea), ok, View())
    {
      hide ReadMem, WriteMem, InWindow, Committed, Resolve;
      NothingStaged(View());
      var d := ResolveStaged(ea, size, Ctx(pc, []));
      if d.None? {
        return false;
      }
      ghost var loc := Resolve(env, true, View(), ea, size).value.loc;
      CommitAll(d.value.1);
      StorePlace(d.value.0, size, 0, loc);
      flags := Cleared(flags);
      ok := true;
    }

    method GenericNeg(size: Size, ea: Ea) returns (ok: bool)
      requires Valid() && pc % 2 == 0 && ea.IsMemory() && ea.IsDataAlterable()
      modifies this`pc, this`flags, dar, mem
      ensures Agrees(env, old(View()), Neg(size, ea), ok, View())
    {
      hide ReadMem, WriteMem, InWindow, Committed, Resolve;
      NothingStaged(View());
      var d := LoadStaged(ea, size, Ctx(pc, []));
      if d.None? {
        return false;
      }
      ghost var loc := ReadEa(env, true, View(), ea, size).value.loc;
      var src := d.value.1;
      var result := Sub32(0, src);
      CommitAll(d.value.2);
      StorePlace(d.value.0, size, Masked(result, size), loc);
      flags := SubFlags(env.alu, flags, src, 0, result, size);
      ok := true;
    }

    method GenericNot(size: Size, ea: Ea) returns (ok: bool)
      requires Valid() && pc % 2 == 0 && ea.IsMemory() && ea.IsDataAlterable()
      modifies this`pc, this`flags, dar, mem
      ensures Agrees(env, old(View()), Not(size, ea), ok, View())
    {
      hide ReadMem, WriteMem, InWindow, Committed, Resolve, Load, Masked, LogicFlags, Merge;
      NothingStaged(View());
      var d := LoadStaged(ea, size, Ctx(pc, []));
      if d.None? {
        return false;
      }
      ghost var loc := ReadEa(env, true, View(), ea, size).value.loc;
      var result := Masked(0xFFFF_FFFF - d.value.1, size);
      CommitAll(d.value.2);
      StorePlace(d.value.0, size, result, loc);
      flags := LogicFlags(env.alu, flags, result, size);
      ok := true;
    }

    method GenericBitMem(op: BitOp, bit: BitSource, ea: Ea) returns (ok: bool)
      requires Valid() && pc % 2 == 0 && ea.IsMemory() && ea.IsDataAlterable()
      modifies this`pc, this`flags, dar, mem
      ensures Agrees(env, old(View()), BitMem(op, bit, ea), ok, View())
    {
      hide ReadMem, WriteMem, InWindow, Committed, Resolve, ApplyBit, BitFlags, Load, Masked, Merge;
      NothingStaged(View());
      var ctx := Ctx(pc, []);
      var number: nat;
      match bit {
        case FromRegister(r) =>
          number := dar[r];
        case FromExtension =>
          var w := ReadExtWord(ctx);
          if w.None? {
            return false;
          }
          number, ctx := w.value.0, w.value.1;
      }
      var k := number % 8;
      ghost var at := Ahead(View(), ctx);
      var d := LoadStaged(ea, Byte, ctx);
      if d.None? {
        return false;
      }
      ghost var loc := ReadEa(env, true, at, ea, Byte).value.loc;
      var v := d.value.1;
      CommitAll(d.value.2);
      flags := BitFlags(flags, v, k);
      if op != Test {
        StorePlace(d.value.0, Byte, ApplyBit(op, v, k) % 0x100, loc);
      }
      ok := true;
    }

    method GenericCmpM(size: Size, ay: Reg, ax: Reg) returns (ok: bool)
      requires Valid() && pc % 2 == 0
      modifies this`pc, this`flags, dar
      ensures Agrees(env, old(View()), CmpM(size, ay, ax), ok, View())
    {
      hide ReadMem, Committed, Resolve, Load;
      NothingStaged(View());
      var s := LoadStaged(AnPostInc(ay), size, Ctx(pc, []));
      if s.None? {
        return false;
      }
      var d := LoadStaged(AnPostInc(ax), size, s.value.2);
      if d.None? {
        return false;
      }
      CommitAll(d.value.2);
      flags := CmpFlags(env.alu, flags, s.value.1, d.value.1, Sub32(d.value.1, s.value.1), size);
      ok := true;
    }

    // -------------------------------------------------------- control flow

    /** `resolve_control_addr`, from the first extension word. */
    method ControlAddress(ea: Ea) returns (r: Option<(u32, u32)>)
      requires Valid() && pc % 2 == 0 && ea.IsControl()
      ensures var s := AddressOf(env, true, View(), ea);
              && (r.Some? <==> s.Some?)
              && (r.Some? ==> r.value.0 == s.value.0 && s.value.1 == View().(pc := r.value.1))
    {
      NothingStaged(View());
      hide Fetch, FetchLong, FetchIndexed;
      var a := ResolveAddress(ea, Ctx(pc, []));
      r := if a.None? then None else Some((a.value.0, a.value.1.nextExt));
    }

    /** A long stored below A7; A7 and memory change together or not at all. */
    method PushLong(v: u32, ghost m: M) returns (ok: bool)
      requires Valid() && Ok(env, m) && m == View().(pc := m.pc)
      modifies dar, mem
      ensures var p := MemOps.Push(env, true, m, v);
              ok == p.Some? && View().(pc := m.pc) == (if ok then p.value else m)
    {
      hide WriteMem, InWindow;
      var sp := Sub32(dar[15], 4);
      var off := Locate(sp, Long);
      if off.None? {
        return false;
      }
      WinWrite(off.value, Long, v, sp);
      SetDar(15, sp);
      ok := true;
    }

    method GenericLea(reg: Reg, ea: Ea) returns (ok: bool)
      requires Valid() && pc % 2 == 0 && ea.IsControl()
      modifies this`pc, dar
      ensures Agrees(env, old(View()), Lea(reg, ea), ok, View())
    {
      hide AddressOf;
      var a := ControlAddress(ea);
      if a.None? {
        return false;
      }
      SetDar(8 + reg as int, a.value.0);
      pc := a.value.1;
      ok := true;
    }

    method GenericPea(ea: Ea) returns (ok: bool)
      requires Valid() && pc % 2 == 0 && ea.IsControl()
      modifies this`pc, dar, mem
      ensures Agrees(env, old(View()), Pea(ea), ok, View())
    {
      hide AddressOf, MemOps.Push;
      var a := ControlAddress(ea);
      if a.None? {
        return false;
      }
      ok := PushLong(a.value.0, View().(pc := a.value.1));
      if ok {
        pc := a.value.1;
      }
    }

    /** The target is assigned unmasked; the next fetch applies the mask. */
    method GenericJmp(ea: Ea) returns (ok: bool)
      requires Valid() && pc % 2 == 0 && ea.IsControl()
      modifies this`pc
      ensures Agrees(env, old(View()), Jmp(ea), ok, View())
    {
      hide AddressOf;
      var a := ControlAddress(ea);
      if a.None? {
        return false;
      }
      pc := a.value.0;
      ok := true;
    }

    method GenericJsr(ea: Ea) returns (ok: bool)
      requires Valid() && pc % 2 == 0 && ea.IsControl()
      modifies this`pc, dar, mem
      ensures Agrees(env, old(View()), Jsr(ea), ok, View())
    {
      hide AddressOf, MemOps.Push;
      var a := ControlAddress(ea);
      if a.None? {
        return false;
      }
      ok := PushLong(a.value.1, View().(pc := a.value.1));
      if ok {
        pc := a.value.0;
      }
    }

    /** `read_ext` of the specialised flow operations: one word at the PC. */
    method ExtAtPc() returns (w: Option<u16>)
      requires Valid() && pc % 2 == 0
      ensures var f := Fetch(env, true, View());
              && (w.Some? <==> f.Some?)
              && (w.Some? ==> f.value == Fetched(w.value, View().(pc := Add32(pc, 2))))
    {
      NothingStaged(View());
      hide ReadMem;
      var r := ReadExtWord(Ctx(pc, []));
      w := if r.None? then None else Some(r.value.0);
    }

    // ------------------------------------- `fast_flow`: DBcc, BSR, RTS, Bcc.W

    method FastDbcc(condition: nat, reg: Reg) returns (ok: bool)
      requires Valid() && pc % 2 == 0
      modifies this`pc, dar
      ensures Agrees(env, old(View()), Dbcc(condition, reg), ok, View())
    {
      hide Fetch, Merge;
      var disp := ExtAtPc();
      if disp.None? {
        return false;
      }
      if !env.alu.holds(flags, condition) {
        var counter := Sub32(dar[reg], 1) % 0x1_0000;
        SetDar(reg, Merge(dar[reg], counter, Word));
        if counter != 0xFFFF {
          DisplacementFromWord(pc, disp.value);
          pc := Add32(pc, Sext16(disp.value));
          return true;
        }
      }
      pc := Add32(pc, 2);
      ok := true;
    }

    method FastRts() returns (ok: bool)
      requires Valid()
      modifies this`pc, dar
      ensures Agrees(env, old(View()), Rts, ok, View())
    {
      hide ReadMem, InWindow;
      var sp := dar[15];
      var off := Locate(sp, Long);
      if off.None? {
        return false;
      }
      var ret := WinRead(off.value, Long, sp);
      SetDar(15, Add32(sp, 4));
      pc := ret;
      ok := true;
    }

    method FastBsr(displacement: int, length: nat) returns (ok: bool)
      requires Valid() && pc % 2 == 0 && (length == 2 || length == 4)
      modifies this`pc, dar, mem
      ensures Agrees(env, old(View()), Bsr(displacement, length), ok, View())
    {
      hide Fetch, MemOps.Push;
      var base := pc;
      var disp := displacement;
      if length == 4 {
        var w := ExtAtPc();
        if w.None? {
          return false;
        }
        disp := Sext16(w.value);
      }
      var ret := Add32(base, length - 2);
      ok := PushLong(ret, View().(pc := ret));
      if ok {
        pc := Add32(base, disp);
      }
    }

    method FastBranchWord(condition: nat) returns (ok: bool)
      requires Valid() && pc % 2 == 0 && condition != 1
      modifies this`pc
      ensures Agrees(env, old(View()), BranchWord(condition), ok, View())
    {
      hide Fetch;
      var base := pc;
      var disp := ExtAtPc();
      if disp.None? {
        return false;
      }
      if condition == 0 || env.alu.holds(flags, condition) {
        pc := Add32(base, Sext16(disp.value));
      } else {
        pc := Add32(base, 2);
      }
      ok := true;
    }

    // ------------------------------------------------ LINK, UNLK, bit #n,Dn

    method FastLink(reg: Reg) returns (ok: bool)
      requires Valid() && pc % 2 == 0 && reg != 7
      modifies this`pc, dar, mem
      ensures Agrees(env, old(View()), Link(reg), ok, View())
    {
      hide Fetch, WriteMem, InWindow;
      var disp := ExtAtPc();
      if disp.None? {
        return false;
      }
      var sp := Sub32(dar[15], 4);
      var off := Locate(sp, Long);
      if off.None? {
        return false;
      }
      WinWrite(off.value, Long, dar[8 + reg], sp);
      SetDar(8 + reg as int, sp);
      SetDar(15, Add32(sp, Sext16(disp.value)));
      pc := Add32(pc, 2);
      ok := true;
    }

    method FastUnlk(reg: Reg) returns (ok: bool)
      requires Valid() && reg != 7
      modifies dar
      ensures Agrees(env, old(View()), Unlk(reg), ok, View())
    {
      hide ReadMem, InWindow;
      var sp := dar[8 + reg];
      var off := Locate(sp, Long);
      if off.None? {
        return false;
      }
      var v := WinRead(off.value, Long, sp);
      SetDar(8 + reg as int, v);
      SetDar(15, Add32(sp, 4));
      ok := true;
    }

    method FastBitImmDreg(op: BitOp, reg: Reg) returns (ok: bool)
      requires Valid() && pc % 2 == 0
      modifies this`pc, this`flags, dar
      ensures Agrees(env, old(View()), BitImmDataReg(op, reg), ok, View())
    {
      hide Fetch, ApplyBit, BitFlags;
      var w := ExtAtPc();
      if w.None? {
        return false;
      }
      var bit, value := w.value % 32, dar[reg];
      flags := BitFlags(flags, value, bit);
      SetDar(reg, ApplyBit(op, value, bit) % 0x1_0000_0000);
      pc := Add32(pc, 2);
      ok := true;
    }

    // ---------------------------------------------------------- `fast_move`

    /** The register and register-indirect sources, with the address-register
        update they stage in a local. None: another form. */
    method FastSource(src: Ea, size: Size) returns (r: Option<Option<(u32, Adjust)>>)
      requires Valid()
      ensures r.Some? ==>
                var s := ReadEa(env, true, View(), src, size);
                && (r.value.Some? <==> s.Some?)
                && (r.value.Some? ==> r.value.value.0 == s.value.value
                                      && Adjusted(View(), r.value.value.1) == s.value.m)
    {
      hide ReadMem, InWindow;
      match src {
        case DataReg(k) =>
          r := Some(Some((Masked(dar[k], size), None)));
        case AddrReg(k) =>
          r := Some(Some((Masked(dar[8 + k], size), None)));
        case AnInd(k) =>
          var v := ReadAt(dar[8 + k], size);
          r := Some(if v.None? then None else Some((v.value, None)));
        case AnPostInc(k) =>
          var a := dar[8 + k];
          var v := ReadAt(a, size);
          r := Some(if v.None? then None else Some((v.value, Some((k, Add32(a, Increment(size, k)))))));
        case AnPreDec(k) =>
          var a := Sub32(dar[8 + k], Increment(size, k));
          var v := ReadAt(a, size);
          r := Some(if v.None? then None else Some((v.value, Some((k, a)))));
        case _ =>
          r := None;
      }
    }

    method ReadAt(raw: u32, size: Size) returns (v: Option<u32>)
      requires Valid()
      ensures v == Load(env, true, View(), InMemory(raw), size)
    {
      hide ReadMem, InWindow;
      var off := Locate(raw, size);
      if off.None? {
        return None;
      }
      var x := WinRead(off.value, size, raw);
      v := Some(x);
    }

    method Adjust(adj: Adjust)
      requires Valid()
      modifies dar
      ensures View() == Adjusted(old(View()), adj)
    {
      if adj.Some? {
        SetDar(8 + adj.value.0 as int, adj.value.1);
      }
    }

    /** The MOVE to memory once both operands are located. */
    method FastWrite(raw: u32, size: Size, value: u32, adj: Adjust, ghost m: M) returns (ok: bool)
      requires Valid() && Ok(env, m) && Adjusted(View(), adj) == m
      modifies this`flags, dar, mem
      ensures var w := Store(env, true, m, InMemory(raw), size, value);
              && ok == w.Some?
              && View() == if ok then w.value.(flags := LogicFlags(env.alu, w.value.flags, value, size))
                           else old(View())
    {
      hide WriteMem, InWindow;
      var off := Locate(raw, size);
      if off.None? {
        return false;
      }
      Adjust(adj);
      WinWrite(off.value, size, value, raw);
      flags := LogicFlags(env.alu, flags, value, size);
      ok := true;
    }

    method FastMove(size: Size, src: Ea, dst: Ea) returns (r: Option<bool>)
      requires Valid() && (dst.IsDataAlterable() || dst.AddrReg?)
      modifies this`flags, dar, mem
      ensures r.Some? ==> Agrees(env, old(View()), Move(size, src, dst), r.value, View())
      ensures r.None? ==> View() == old(View())
    {
      hide ReadMem, ReadEa, Store, Merge, LogicFlags, SignExtended, Fetch, FetchLong, FetchIndexed, Masked, Add32, Sub32;
      ghost var m := View();
      var s := FastSource(src, size);
      if s.None? {
        return None;
      }
      if s.value.None? {
        return Some(false);
      }
      var value, adj := s.value.value.0, s.value.value.1;
      ghost var after := Adjusted(m, adj);
      if dst.DataReg? {
        StoreInRegister(env, after, dst.r, size, value);
        Adjust(adj);
        SetDar(dst.r, Merge(dar[dst.r], value, size));
        flags := LogicFlags(env.alu, flags, value, size);
        return Some(true);
      }
      if dst.AddrReg? {
        Adjust(adj);
        SetDar(8 + dst.r as int, SignExtended(value, size));
        return Some(true);
      }
      if !(dst.AnInd? || dst.AnPostInc? || dst.AnPreDec?) {
        return None;
      }
      // An address-register base sees a same-register source adjustment.
      var k := dst.r;
      var base := if adj.Some? && adj.value.0 == k then adj.value.1 else dar[8 + k];
      assert base == after.dar[8 + k];
      var ok;
      if dst.AnInd? {
        ok := FastWrite(base, size, value, adj, after);
      } else if dst.AnPostInc? {
        ok := FastWriteStepping(base, k, Add32(base, Increment(size, k)), size, value, adj, after);
      } else {
        var a := Sub32(base, Increment(size, k));
        ok := FastWriteStepping(a, k, a, size, value, adj, after);
      }
      r := Some(ok);
    }

    /** The same with the destination's own update, committed after the source's. */
    method FastWriteStepping(raw: u32, k: Reg, next: u32, size: Size, value: u32, adj: Adjust, ghost m: M)
      returns (ok: bool)
      requires Valid() && Ok(env, m) && Adjusted(View(), adj) == m
      modifies this`flags, dar, mem
      ensures var w := Store(env, true, WithA(m, k, next), InMemory(raw), size, value);
              && ok == w.Some?
              && View() == if ok then w.value.(flags := LogicFlags(env.alu, w.value.flags, value, size))
                           else old(View())
    {
      hide WriteMem, InWindow;
      var off := Locate(raw, size);
      if off.None? {
        return false;
      }
      Adjust(adj);
      SetDar(8 + k as int, next);
      WinWrite(off.value, size, value, raw);
      flags := LogicFlags(env.alu, flags, value, size);
      ok := true;
    }

    // ------------------------------------------------------- `fast_an_disp`

    /** One extension word at `at`, wherever the cursor would be by then. */
    method WordAt(at: u32) returns (w: Option<u16>)
      requires Valid() && at % 2 == 0
      ensures var f := Fetch(env, true, View().(pc := at));
              && (w.Some? <==> f.Some?)
              && (w.Some? ==> f.value == Fetched(w.value, View().(pc := Add32(at, 2))))
    {
      hide ReadMem, InWindow;
      OffFindsWindow(env, at, 2);
      var off := Off(env, at, 2);
      if off.None? {
        return None;
      }
      var v := WinRead(off.value, Word, at);
      w := Some(v);
    }

    /** Extension word and displaced address of one (d16,An) operand. */
    method DispOperand(at: u32, k: Reg) returns (r: Option<u32>)
      requires Valid() && at % 2 == 0
      ensures forall size ::
                (Resolve(env, true, View().(pc := at), AnDisp(k), size)
                 == if r.None? then None else Some(Resolved(InMemory(r.value), View().(pc := Add32(at, 2)))))
    {
      hide Fetch;
      var w := WordAt(at);
      r := if w.None? then None else Some(Add32(dar[8 + k], Sext16(w.value)));
    }

    method DispLoad(k: Reg, size: Size) returns (v: Option<(u32, u32)>)
      requires Valid() && pc % 2 == 0
      ensures ReadEa(env, true, View(), AnDisp(k), size)
              == if v.None? then None
                 else Some(Operand(InMemory(v.value.0), v.value.1, View().(pc := Add32(pc, 2))))
      ensures v.Some? ==> Reaches(env, true, v.value.0, size)
    {
      hide Resolve, Reaches, ReadMem;
      var a := DispOperand(pc, k);
      assert View().(pc := pc) == View();
      if a.None? {
        return None;
      }
      var x := ReadAt(a.value, size);
      LoadedReaches(env, View(), a.value, size);
      v := if x.None? then None else Some((a.value, x.value));
    }

    method DispToDataReg(size: Size, k: Reg, to: Reg) returns (ok: bool)
      requires Valid() && pc % 2 == 0
      modifies this`pc, this`flags, dar
      ensures Agrees(env, old(View()), Move(size, AnDisp(k), DataReg(to)), ok, View())
    {
      hide ReadEa, Merge, LogicFlags;
      var v := DispLoad(k, size);
      if v.None? {
        return false;
      }
      SetDar(to, Merge(dar[to], v.value.1, size));
      flags := LogicFlags(env.alu, flags, v.value.1, size);
      pc := Add32(pc, 2);
      ok := true;
    }

    method DispToAddrReg(size: Size, k: Reg, to: Reg) returns (ok: bool)
      requires Valid() && pc % 2 == 0
      modifies this`pc, dar
      ensures Agrees(env, old(View()), Move(size, AnDisp(k), AddrReg(to)), ok, View())
    {
      hide ReadEa, SignExtended;
      var v := DispLoad(k, size);
      if v.None? {
        return false;
      }
      SetDar(8 + to as int, SignExtended(v.value.1, size));
      pc := Add32(pc, 2);
      ok := true;
    }

    /** Write a located value, set the flags, step over the extension words. */
    method FinishStore(raw: u32, size: Size, v: u32, f: Flags, next: u32, ghost m: M) returns (ok: bool)
      requires Valid() && m == View().(pc := next)
      modifies this`pc, this`flags, mem
      ensures var w := Store(env, true, m, InMemory(raw), size, v);
              && ok == w.Some?
              && View() == if ok then w.value.(flags := f) else old(View())
    {
      hide WriteMem, InWindow;
      var off := Locate(raw, size);
      if off.None? {
        return false;
      }
      WinWrite(off.value, size, v, raw);
      flags := f;
      pc := next;
      ok := true;
    }

    method RegToDisp(size: Size, src: Ea, k: Reg) returns (ok: bool)
      requires Valid() && pc % 2 == 0 && (src.DataReg? || src.AddrReg?)
      modifies this`pc, this`flags, dar, mem
      ensures Agrees(env, old(View()), Move(size, src, AnDisp(k)), ok, View())
    {
      hide Fetch, Store, Masked, LogicFlags;
      var i := if src.DataReg? then src.r as int else 8 + src.r as int;
      var value := Masked(dar[i], size);
      ghost var m := View();
      assert m.(pc := pc) == m;
      var a := DispOperand(pc, k);
      assert ReadEa(env, true, m, src, size) == Some(Operand(InRegister(i), value, m));
      hide Resolve, ReadEa;
      if a.None? {
        return false;
      }
      ok := FinishStore(a.value, size, value, LogicFlags(env.alu, flags, value, size), Add32(pc, 2),
                        View().(pc := Add32(pc, 2)));
      StoreKeepsFlags(env, m.(pc := Add32(m.pc, 2)), a.value, size, value);
    }

    method DispToPreDec(size: Size, k: Reg, to: Reg) returns (ok: bool)
      requires Valid() && pc % 2 == 0
      modifies this`pc, this`flags, dar, mem
      ensures Agrees(env, old(View()), Move(size, AnDisp(k), AnPreDec(to)), ok, View())
    {
      hide ReadEa, Store, LogicFlags, ReadMem, WriteMem, InWindow;
      ghost var m := View();
      var v := DispLoad(k, size);
      if v.None? {
        return false;
      }
      var a := Sub32(dar[8 + to], Increment(size, to));
      var off := Locate(a, size);
      ghost var located := WithA(m.(pc := Add32(pc, 2)), to, a);
      StoreKeepsFlags(env, located, a, size, v.value.1);
      StoresWhereItReaches(env, located, a, size, v.value.1);
      if off.None? {
        return false;
      }
      SetDar(8 + to as int, a);
      WinWrite(off.value, size, v.value.1, a);
      flags := LogicFlags(env.alu, flags, v.value.1, size);
      pc := Add32(pc, 2);
      ok := true;
    }

    method DispToDisp(size: Size, k: Reg, to: Reg) returns (ok: bool)
      requires Valid() && pc % 2 == 0
      modifies this`pc, this`flags, dar, mem
      ensures Agrees(env, old(View()), Move(size, AnDisp(k), AnDisp(to)), ok, View())
    {
      hide ReadEa, Store, LogicFlags, Resolve;
      ghost var m := View();
      var v := DispLoad(k, size);
      if v.None? {
        return false;
      }
      EvenSteps(pc);
      var a := DispOperand(Add32(pc, 2), to);
      if a.None? {
        return false;
      }
      var value := v.value.1;
      ok := FinishStore(a.value, size, value, LogicFlags(env.alu, flags, value, size), Add32(pc, 4),
                        View().(pc := Add32(pc, 4)));
      StoreKeepsFlags(env, m.(pc := Add32(m.pc, 4)), a.value, size, value);
    }

    method TstDisp(size: Size, k: Reg) returns (ok: bool)
      requires Valid() && pc % 2 == 0
      modifies this`pc, this`flags
      ensures Agrees(env, old(View()), Tst(size, AnDisp(k)), ok, View())
    {
      hide ReadEa, LogicFlags;
      var v := DispLoad(k, size);
      if v.None? {
        return false;
      }
      flags := LogicFlags(env.alu, flags, v.value.1, size);
      pc := Add32(pc, 2);
      ok := true;
    }

    method ClrDisp(size: Size, k: Reg) returns (ok: bool)
      requires Valid() && pc % 2 == 0
      modifies this`pc, this`flags, mem
      ensures Agrees(env, old(View()), Clr(size, AnDisp(k)), ok, View())
    {
      hide Store, Resolve;
      ghost var m := View();
      assert m.(pc := pc) == m;
      var a := DispOperand(pc, k);
      if a.None? {
        return false;
      }
      ok := FinishStore(a.value, size, 0, Cleared(flags), Add32(pc, 2), View().(pc := Add32(pc, 2)));
      StoreKeepsFlags(env, m.(pc := Add32(m.pc, 2)), a.value, size, 0);
    }

    method AddqSubqDisp(data: u32, size: Size, k: Reg, isSub: bool) returns (ok: bool)
      requires Valid() && pc % 2 == 0
      modifies this`pc, this`flags, mem
      ensures Agrees(env, old(View()), AddqSubq(data, size, AnDisp(k), isSub), ok, View())
    {
      hide ReadEa, Store, AddFlags, SubFlags, Masked;
      ghost var m := View();
      var v := DispLoad(k, size);
      if v.None? {
        return false;
      }
      var dst := v.value.1;
      var result := if isSub then Sub32(dst, data) else Add32(dst, data);
      assert result == Compute(if isSub then Sub else Add, data, dst);
      var f := if isSub then SubFlags(env.alu, flags, data, dst, result, size)
               else AddFlags(env.alu, flags, data, dst, result, size);
      ok := FinishStore(v.value.0, size, Masked(result, size), f, Add32(pc, 2), View().(pc := Add32(pc, 2)));
      StoreKeepsFlags(env, m.(pc := Add32(m.pc, 2)), v.value.0, size, Masked(result, size));
    }

    method BitImmDisp(op: BitOp, k: Reg) returns (ok: bool)
      requires Valid() && pc % 2 == 0
      modifies this`pc, this`flags, mem
      ensures Agrees(env, old(View()), BitMem(op, FromExtension, AnDisp(k)), ok, View())
    {
      hide Fetch, Store, ApplyBit, BitFlags, Resolve, ReadMem, Reaches;
      ghost var m := View();
      assert m.(pc := pc) == m;
      var w := WordAt(pc);
      if w.None? {
        return false;
      }
      EvenSteps(pc);
      var a := DispOperand(Add32(pc, 2), k);
      if a.None? {
        return false;
      }
      ghost var at := m.(pc := Add32(pc, 4));
      var x := ReadAt(a.value, Byte);
      if x.None? {
        return false;
      }
      LoadedReaches(env, m, a.value, Byte);
      var bit, v := w.value % 8, x.value;
      if op == Test {
        flags := BitFlags(flags, v, bit);
        pc := Add32(pc, 4);
        return true;
      }
      var y := ApplyBit(op, v, bit) % 0x100;
      StoresWhereItReaches(env, at.(flags := BitFlags(flags, v, bit)), a.value, Byte, y);
      StoreKeepsFlags(env, at, a.value, Byte, y);
      ok := FinishStore(a.value, Byte, y, BitFlags(flags, v, bit), Add32(pc, 4), View().(pc := Add32(pc, 4)));
    }

    /** Some: handled or refused as a whole. None: not one of these forms. */
    method FastAnDisp(op: MemOp) returns (r: Option<bool>)
      requires Valid() && pc % 2 == 0 && Decodable(op)
      modifies this`pc, this`flags, dar, mem
      ensures r.Some? ==> Agrees(env, old(View()), op, r.value, View())
      ensures r.None? ==> View() == old(View())
    {
      hide Exec;
      var ok;
      match op {
        case Move(size, AnDisp(k), DataReg(to)) => ok := DispToDataReg(size, k, to);
        case Move(size, AnDisp(k), AddrReg(to)) => ok := DispToAddrReg(size, k, to);
        case Move(size, DataReg(i), AnDisp(k)) => ok := RegToDisp(size, DataReg(i), k);
        case Move(size, AddrReg(i), AnDisp(k)) => ok := RegToDisp(size, AddrReg(i), k);
        case Move(size, AnDisp(k), AnPreDec(to)) => ok := DispToPreDec(size, k, to);
        case Move(size, AnDisp(k), AnDisp(to)) => ok := DispToDisp(size, k, to);
        case Tst(size, AnDisp(k)) => ok := TstDisp(size, k);
        case Clr(size, AnDisp(k)) => ok := ClrDisp(size, k);
        case AddqSubq(data, size, AnDisp(k), isSub) => ok := AddqSubqDisp(data, size, k, isSub);
        case BitMem(bitOp, FromExtension, AnDisp(k)) => ok := BitImmDisp(bitOp, k);
        case _ => return None;
      }
      r := Some(ok);
    }

    // ---------------------------------------------------------------- MOVEM

    /** The listed registers, D0 first, into a located block. */
    method StoreList(mask: u16, first: nat, ghost start: u32)
      requires Valid() && InWindow(env, start, 4 * Count(mask, 0)) && first == env.bus.At(start) - env.base
      modifies mem
      ensures View() == old(View()).(mem := Write(env.bus, old(View()).mem, start, Image(old(View()).dar, mask, 0)))
    {
      hide BitOf, Bus.At, InWindow, Image, Write, WriteMem;
      ghost var m := View();
      var off := first;
      assert Image(m.dar, mask, 16) == [];
      NoBytes(env.bus, m.mem, start);
      for r := 0 to 16
        invariant View() == m.(mem := Write(env.bus, m.mem, start, Image(m.dar, mask, 16 - r)))
        invariant off == first + 4 * Count(mask, 16 - r)
      {
        ghost var done := Count(mask, 16 - r);
        assert Count(mask, 15 - r) == (if BitOf(mask, 15 - r) then 1 else 0) + done;
        if BitOf(mask, 15 - r) {
          CountFalls(mask, 0, 15 - r);
          Inside(env, start, 4 * Count(mask, 0), 4 * done, 4);
          StoreAscending(env, m.mem, start, m.dar, mask, r);
          WinWrite(off, Long, dar[r], Add32(start, 4 * done));
          off := off + 4;
        } else {
          SkippedImage(m.dar, mask, 15 - r);
        }
      }
    }

    /** MOVEM.L list,-(An): located as one block, stored upwards from D0. */
    method FastMovemLongPreDec(base: Reg) returns (ok: bool)
      requires Valid() && pc % 2 == 0
      modifies this`pc, dar, mem
      ensures ok <==> Takes(env, old(View()), MovemLongPreDec(base))
      ensures View() == if ok then Exec(env, true, old(View()), MovemLongPreDec(base)).value else old(View())
    {
      hide Fetch, BitOf, Bus.At, InWindow, MovemDown, Image, Write;
      var w := ExtAtPc();
      if w.None? {
        return false;
      }
      var mask := w.value;
      ghost var m := View().(pc := Add32(pc, 2));
      if mask == 0 || BitOf(mask, 7 - base) {
        return false;
      }
      EmptyMask(mask);
      var bytes := 4 * Count(mask, 0);
      var raw := dar[8 + base];
      var start := Sub32(raw, bytes);
      if DownShape(env, m, base, mask) {
        DownCovered(env, m, base, mask);
      }
      BlockFits(env, start, bytes);
      if env.pre020 && raw % 2 != 0 {
        return false;
      }
      if bytes > env.len {
        return false;
      }
      OffFindsWindow(env, start, bytes);
      var off := Off(env, start, bytes);
      if off.None? {
        return false;
      }
      DownIsBlock(env, m, mask, base, 0, raw);
      StoreList(mask, off.value, start);
      SetDar(8 + base as int, start);
      pc := Add32(pc, 2);
      ok := true;
    }

    method LoadOne(mask: u16, size: Size, r: nat, off: nat, ghost a: u32, ghost next: u32)
      requires Valid() && r < 16 && BitOf(mask, r) && Reaches(env, true, a, size)
      requires InWindow(env, a, size.Bytes()) && off == env.bus.At(a) - env.base
      modifies dar
      ensures MovemUp(env, true, old(View()).(pc := next), mask, size, r, a)
           == MovemUp(env, true, View().(pc := next), mask, size, r + 1, Add32(a, size.Bytes()))
    {
      hide BitOf, Bus.At, InWindow, ReadMem, SignExtended, MovemUp, Reaches, Count, Add32;
      LoadStep(env, View().(pc := next), mask, size, r, a);
      var v := WinRead(off, size, a);
      SetDar(r, SignExtended(v, size));
    }

    /** A located block into the listed registers, D0 first. */
    method LoadList(mask: u16, size: Size, limit: nat, first: nat, ghost start: u32, ghost next: u32)
      requires Valid() && size != Byte && limit <= 16 && Count(mask, limit) == 0 && Aligned(env, start, size)
      requires InWindow(env, start, Span(size, Count(mask, 0))) && first == env.bus.At(start) - env.base
      modifies dar
      ensures MovemUp(env, true, old(View()).(pc := next), mask, size, 0, start)
              == Some((View().(pc := next), Add32(start, Span(size, Count(mask, 0)))))
    {
      hide BitOf, Bus.At, InWindow, Aligned, MovemUp, Reaches;
      var off := first;
      ghost var a, done, total := start, 0, Count(mask, 0);
      for r := 0 to limit
        invariant done + Count(mask, r) == total && off == first + Span(size, done)
        invariant a == Add32(start, Span(size, done))
        invariant MovemUp(env, true, old(View()).(pc := next), mask, size, 0, start)
               == MovemUp(env, true, View().(pc := next), mask, size, r, a)
      {
        if BitOf(mask, r) {
          NextLoad(env, start, size, done, total);
          LoadOne(mask, size, r, off, a, next);
          off := off + size.Bytes();
          done := done + 1;
          a := Add32(a, size.Bytes());
        } else {
          SkipStep(env, View().(pc := next), mask, size, r, a);
        }
      }
      RestOfList(env, View().(pc := next), mask, size, limit, a);
    }

    /** Data-register-only MOVEM.W (An)+. */
    method FastMovemWordPostInc(base: Reg) returns (ok: bool)
      requires Valid() && pc % 2 == 0
      modifies this`pc, dar
      ensures ok <==> Takes(env, old(View()), MovemWordPostInc(base))
      ensures View() == if ok then Exec(env, true, old(View()), MovemWordPostInc(base)).value else old(View())
    {
      hide Fetch, BitOf, Bus.At, InWindow, MovemUp;
      var w := ExtAtPc();
      if w.None? {
        return false;
      }
      var mask := w.value;
      ghost var m := View().(pc := Add32(pc, 2));
      if mask == 0 || mask >= 0x100 {
        return false;
      }
      EmptyMask(mask);
      var bytes := 2 * Count(mask, 0);
      var raw := dar[8 + base];
      if UpShape(env, m, base, Word, mask) {
        UpCovered(env, m, base, Word, mask);
      }
      BlockFits(env, raw, bytes);
      if env.pre020 && raw % 2 != 0 {
        return false;
      }
      if bytes > env.len || env.bus.At(raw) + bytes > env.bus.Size() {
        return false;
      }
      OffFindsWindow(env, raw, bytes);
      var off := Off(env, raw, bytes);
      if off.None? {
        return false;
      }
      DataRegistersOnly(mask);
      LoadList(mask, Word, 8, off.value, raw, Add32(pc, 2));
      SetDar(8 + base as int, Add32(raw, bytes));
      pc := Add32(pc, 2);
      ok := true;
    }

    /** MOVEM.L (An)+,list. */
    method FastMovemLongPostInc(base: Reg) returns (ok: bool)
      requires Valid() && pc % 2 == 0
      modifies this`pc, dar
      ensures ok <==> Takes(env, old(View()), MovemLongPostInc(base))
      ensures View() == if ok then Exec(env, true, old(View()), MovemLongPostInc(base)).value else old(View())
    {
      hide Fetch, BitOf, Bus.At, InWindow, MovemUp;
      var w := ExtAtPc();
      if w.None? {
        return false;
      }
      var mask := w.value;
      ghost var m := View().(pc := Add32(pc, 2));
      if mask == 0 || BitOf(mask, 8 + base) {
        return false;
      }
      EmptyMask(mask);
      var bytes := 4 * Count(mask, 0);
      var raw := dar[8 + base];
      if UpShape(env, m, base, Long, mask) {
        UpCovered(env, m, base, Long, mask);
      }
      BlockFits(env, raw, bytes);
      if env.pre020 && raw % 2 != 0 {
        return false;
      }
      if bytes > env.len {
        return false;
      }
      OffFindsWindow(env, raw, bytes);
      var off := Off(env, raw, bytes);
      if off.None? {
        return false;
      }
      LoadList(mask, Long, 16, off.value, raw, Add32(pc, 2));
      SetDar(8 + base as int, Add32(raw, bytes));
      pc := Add32(pc, 2);
      ok := true;
    }

    // ------------------------------------------------ the surrounding loop

    /** The word at an even PC: window bytes if they lie there, else the bus. */
    method FetchWord() returns (w: u16)
      requires Valid()
      ensures w == ReadMem(env, View().mem, pc, Word)
    {
      hide ReadMem;
      OffFindsWindow(env, pc, 2);
      var off := Off(env, pc, 2);
      if windowUp && off.Some? {
        w := WinRead(off.value, Word, pc);
      } else {
        w := ReadMem(env, mem[..], pc, Word);
      }
    }

    method Install(m: M)
      requires Valid() && Ok(env, m)
      modifies this`pc, this`flags, dar, mem
      ensures View() == m
    {
      forall i | 0 <= i < 16 {
        dar[i] := m.dar[i];
      }
      forall i | 0 <= i < mem.Length {
        mem[i] := m.mem[i];
      }
      pc, flags := m.pc, m.flags;
      assert dar[..] == m.dar && mem[..] == m.mem;
    }

    // ------------------------------------------- register-only operations

    method ReadDirectReg(d: Direct, size: Size) returns (v: u32)
      requires Valid()
      ensures v == Masked(View().dar[d.Index()], size)
      ensures ReadEa(env, false, View(), d.AsEa(), size) == Some(Operand(InRegister(d.Index()), v, View()))
    {
      hide Masked;
      v := match d case Data(r) => Masked(dar[r], size) case Addr(r) => Masked(dar[8 + r], size);
    }

    method WriteDataReg(reg: Reg, size: Size, v: u32)
      requires Valid()
      modifies dar
      ensures View() == WithD(old(View()), reg, Merge(old(View()).dar[reg], v, size))
    {
      hide Merge;
      SetDar(reg, Merge(dar[reg], v, size));
    }

    method SimpleMoveReg(src: Direct, dst: Direct, size: Size)
      requires Valid()
      modifies this`flags, dar
      ensures Some(View()) == ExecSimple(env, old(View()), MoveReg(src, dst, size))
    {
      hide Masked, Merge, LogicFlags, SignExtended;
      var v := ReadDirectReg(src, size);
      match dst {
        case Data(r) =>
          WriteDataReg(r, size, v);
          flags := LogicFlags(env.alu, flags, v, size);
        case Addr(r) =>
          SetDar(8 + r as int, if size == Word then SignExtended(v, Word) else v);
          SignExtendsWords(v, size);
      }
    }

    method SimpleUnary(op: UnaryOp, reg: Reg, size: Size)
      requires Valid()
      modifies this`flags, dar
      ensures Some(View()) == ExecSimple(env, old(View()), UnaryDataReg(op, reg, size))
    {
      hide Masked, Merge, LogicFlags, SubFlags;
      var src := Masked(dar[reg], size);
      match op {
        case ClrReg =>
          WriteDataReg(reg, size, 0);
          flags := Cleared(flags);
        case NegReg =>
          var result := Sub32(0, src);
          MergeMasked(dar[reg], result, size);
          WriteDataReg(reg, size, result);
          flags := SubFlags(env.alu, flags, src, 0, result, size);
        case NegxReg =>
          var (f, result) := env.alu.subx(flags, src, 0, size);
          flags := f;
          WriteDataReg(reg, size, result);
        case NotReg =>
          var result := Masked(0xFFFF_FFFF - src, size);
          WriteDataReg(reg, size, result);
          flags := LogicFlags(env.alu, flags, result, size);
        case TstReg =>
          flags := LogicFlags(env.alu, flags, src, size);
      }
    }

    method SimpleAddqSubq(reg: Reg, data: u32, size: Size, isSub: bool)
      requires Valid()
      modifies this`flags, dar
      ensures Some(View()) == ExecSimple(env, old(View()), AddqSubqReg(reg, data, size, isSub))
    {
      hide Masked, Merge, OpFlags, Compute;
      var op := if isSub then Sub else Add;
      var dst := Masked(dar[reg], size);
      var result := Compute(op, data, dst);
      MaskedQuick(env.alu, isSub, flags, data, dar[reg], size);
      flags := OpFlags(env.alu, op, flags, data, dst, result, size);
      WriteDataReg(reg, size, result);
    }

    method SimpleBinary(op: BinaryOp, src: Direct, to: Reg, size: Size)
      requires Valid()
      modifies this`flags, dar
      ensures Some(View()) == ExecSimple(env, old(View()), BinaryDataReg(op, src, to, size))
    {
      hide Masked, Merge, OpFlags, Compute, ReadEa, ExecSimple;
      BinaryOnMasked(env, View(), op, src, to, size);
      var v := ReadDirectReg(src, size);
      var was := dar[to];
      var dst := Masked(was, size);
      var result := Compute(op, v, dst);
      flags := OpFlags(env.alu, op, flags, v, dst, result, size);
      if op != Cmp {
        WriteDataReg(to, size, result);
      }
    }

    method SimpleMulWord(from: Reg, to: Reg, signed: bool)
      requires Valid() && SetsLogicFlags(env.alu)
      modifies this`flags, dar
      ensures Some(View()) == ExecSimple(env, old(View()), MulWordDataReg(from, to, signed))
    {
      hide Product, LongFlags;
      var result := Product(signed, dar[from], dar[to]);
      SetDar(to, result);
      flags := LogicFlags(env.alu, flags, result, Long);
    }

    method SimpleAddrDataReg(op: AddrOp, src: Direct, to: Reg, size: Size)
      requires Valid()
      modifies this`flags, dar
      ensures Some(View()) == ExecSimple(env, old(View()), AddrDataReg(op, src, to, size))
    {
      hide Masked, SignExtended, CmpFlags;
      var v := ReadDirectReg(src, size);
      SignExtendsWords(v, size);
      if size == Word {
        v := SignExtended(v, Word);
      }
      var dst := dar[8 + to];
      match op {
        case Adda => SetDar(8 + to as int, Add32(dst, v));
        case Suba => SetDar(8 + to as int, Sub32(dst, v));
        case Cmpa => flags := CmpFlags(env.alu, flags, v, dst, Sub32(dst, v), Long);
      }
    }

    method SimpleAddSubx(from: Reg, to: Reg, size: Size, isSub: bool)
      requires Valid()
      modifies this`flags, dar
      ensures Some(View()) == ExecSimple(env, old(View()), AddSubxReg(from, to, size, isSub))
    {
      hide Masked, Merge;
      var src := Masked(dar[from], size);
      var dst := Masked(dar[to], size);
      var (f, result) := if isSub then env.alu.subx(flags, src, dst, size) else env.alu.addx(flags, src, dst, size);
      flags := f;
      WriteDataReg(to, size, result);
    }

    method SimpleBitReg(op: BitOp, bitReg: Reg, to: Reg)
      requires Valid()
      modifies this`flags, dar
      ensures Some(View()) == ExecSimple(env, old(View()), BitReg(op, bitReg, to))
    {
      hide BitOf, Pow2, ApplyBit, BitFlags;
      var bit := dar[bitReg] % 32;
      var value := dar[to];
      flags := BitFlags(flags, value, bit);
      if op != Test {
        SetDar(to, ApplyBit(op, value, bit) % 0x1_0000_0000);
      } else {
        TestKeeps(value, bit);
        assert dar[..][to := value] == dar[..];
      }
    }

    method SimpleBcd(from: Reg, to: Reg, isSub: bool)
      requires Valid()
      modifies this`flags, dar
      ensures Some(View()) == ExecSimple(env, old(View()), BcdReg(from, to, isSub))
    {
      hide Merge;
      var src := dar[from] % 0x100;
      var dst := dar[to] % 0x100;
      var (f, result) := if isSub then env.alu.bcdSub(flags, src, dst) else env.alu.bcdAdd(flags, src, dst);
      flags := f;
      WriteDataReg(to, Byte, result);
    }

    method SimpleExg(rx: Reg, ry: Reg, field: nat)
      requires Valid()
      modifies dar
      ensures Some(View()) == ExecSimple(env, old(View()), Exg(rx, ry, field))
    {
      if field == 0x08 {
        var tmp := dar[rx];
        dar[rx] := dar[ry];
        dar[ry] := tmp;
      } else if field == 0x09 {
        var tmp := dar[8 + rx];
        dar[8 + rx] := dar[8 + ry];
        dar[8 + ry] := tmp;
      } else if field == 0x11 {
        var tmp := dar[rx];
        dar[rx] := dar[8 + ry];
        dar[8 + ry] := tmp;
      }
    }

    method SimpleShift(reg: Reg, size: Size, countOrReg: Reg, countIsRegister: bool, shift: Shift)
      requires Valid()
      modifies this`flags, dar
      ensures Some(View())
              == ExecSimple(env, old(View()), ShiftReg(reg, size, countOrReg, countIsRegister, shift))
    {
      hide Masked, Merge;
      var count: nat := countOrReg;
      if countIsRegister {
        count := dar[countOrReg] % 64;
      } else if countOrReg == 0 {
        count := 8;
      }
      var (f, result) := env.alu.shift(flags, shift, size, count, Masked(dar[reg], size));
      flags := f;
      WriteDataReg(reg, size, result);
    }

    /** Writes to one register and the flags, and SWAP, EXT and EXTB among them. */
    method SimpleLoadReg(op: SimpleOp)
      requires Valid() && (op.Moveq? || op.Swap? || op.Ext? || op.Extb?)
      modifies this`flags, dar
      ensures Some(View()) == ExecSimple(env, old(View()), op)
    {
      hide Rotated16, Extended, LogicFlags, LongFlags;
      match op {
        case Moveq(reg, data) =>
          SetDar(reg, data);
          flags := LongFlags(flags, data);
        case Swap(reg) =>
          var v := Rotated16(dar[reg]);
          SetDar(reg, v);
          flags := LogicFlags(env.alu, flags, v, Long);
        case Ext(reg, size) =>
          var v := Extended(dar[reg], size);
          SetDar(reg, v);
          flags := LogicFlags(env.alu, flags, v, size);
        case Extb(reg) =>
          var v: u32 := Sext8(dar[reg] % 0x100) % 0x1_0000_0000;
          SetDar(reg, v);
          flags := LogicFlags(env.alu, flags, v, Long);
      }
    }

    /** `DecodedSimpleOp::execute`: masked operands and in-place updates, with the
        result of the dispatcher's general bodies. Nothing but registers, flags
        and, for the branch, the PC. */
    method ExecuteSimple(op: SimpleOp)
      requires Valid() && SetsLogicFlags(env.alu)
      modifies this`pc, this`flags, dar
      ensures Some(View()) == ExecSimple(env, old(View()), op)
      ensures !op.BranchShort? ==> pc == old(pc)
    {
      hide SetsLogicFlags, ExecSimple;
      match op {
        case MoveReg(src, dst, size) => SimpleMoveReg(src, dst, size);
        case UnaryDataReg(unary, reg, size) => SimpleUnary(unary, reg, size);
        case AddqSubqReg(reg, data, size, isSub) => SimpleAddqSubq(reg, data, size, isSub);
        case BinaryDataReg(bin, src, to, size) => SimpleBinary(bin, src, to, size);
        case MulWordDataReg(from, to, signed) => SimpleMulWord(from, to, signed);
        case AddrDataReg(addr, src, to, size) => SimpleAddrDataReg(addr, src, to, size);
        case AddSubxReg(from, to, size, isSub) => SimpleAddSubx(from, to, size, isSub);
        case BitReg(bit, bitReg, to) => SimpleBitReg(bit, bitReg, to);
        case BcdReg(from, to, isSub) => SimpleBcd(from, to, isSub);
        case Exg(rx, ry, field) => SimpleExg(rx, ry, field);
        case ShiftReg(reg, size, countOrReg, countIsRegister, shift) =>
          SimpleShift(reg, size, countOrReg, countIsRegister, shift);
        case Moveq(_, _) => SimpleLoadReg(op);
        case Swap(_) => SimpleLoadReg(op);
        case Ext(_, _) => SimpleLoadReg(op);
        case Extb(_) => SimpleLoadReg(op);
        case _ => SimpleRest(op);
      }
    }

    method SimpleRest(op: SimpleOp)
      requires Valid() && (op.Nop? || op.AddqSubqAddr? || op.SccDataReg? || op.BranchShort?)
      modifies this`pc, dar
      ensures Some(View()) == ExecSimple(env, old(View()), op)
      ensures !op.BranchShort? ==> pc == old(pc)
    {
      hide Merge;
      match op {
        case Nop =>
        case AddqSubqAddr(reg, data, isSub) =>
          var i := 8 + reg as int;
          if isSub {
            SetDar(i, Sub32(dar[i], data));
          } else {
            SetDar(i, Add32(dar[i], data));
          }
        case SccDataReg(condition, reg) =>
          WriteDataReg(reg, Byte, if env.alu.holds(flags, condition) then 0xFF else 0);
        case BranchShort(condition, displacement) =>
          if condition == 0 || env.alu.holds(flags, condition) {
            pc := Add32(pc, displacement);
          }
      }
    }

    // ------------------------------------------------------ `execute_mem_op`

    /** The arms behind the specialised paths. */
    method ExecuteGeneric(op: MemOp) returns (ok: bool)
      requires Valid() && pc % 2 == 0 && Decodable(op) && !IsMovem(op)
      modifies this`pc, this`flags, dar, mem
      ensures Agrees(env, old(View()), op, ok, View())
    {
      hide Exec;
      match op {
        case Move(size, src, dst) => ok := GenericMove(size, src, dst);
        case BitImmDataReg(o, reg) => ok := FastBitImmDreg(o, reg);
        case Link(reg) => ok := FastLink(reg);
        case Unlk(reg) => ok := FastUnlk(reg);
        case AluToReg(o, size, src, to) => ok := GenericAluToReg(o, size, src, to);
        case AluToMem(o, size, from, dst) => ok := GenericAluToMem(o, size, from, dst);
        case AluAddr(o, size, src, to) => ok := GenericAluAddr(o, size, src, to);
        case AluImm(o, size, dst) => ok := GenericAluImm(o, size, dst);
        case AddqSubq(data, size, ea, isSub) => ok := GenericAddqSubq(data, size, ea, isSub);
        case Tst(size, ea) => ok := GenericTst(size, ea);
        case Clr(size, ea) => ok := GenericClr(size, ea);
        case Neg(size, ea) => ok := GenericNeg(size, ea);
        case Not(size, ea) => ok := GenericNot(size, ea);
        case BitMem(o, bit, ea) => ok := GenericBitMem(o, bit, ea);
        case CmpM(size, ay, ax) => ok := GenericCmpM(size, ay, ax);
        case Lea(reg, ea) => ok := GenericLea(reg, ea);
        case Pea(ea) => ok := GenericPea(ea);
        case Jmp(ea) => ok := GenericJmp(ea);
        case Jsr(ea) => ok := GenericJsr(ea);
        case Rts => ok := FastRts();
        case Bsr(displacement, length) => ok := FastBsr(displacement, length);
        case BranchWord(condition) => ok := FastBranchWord(condition);
        case Dbcc(condition, reg) => ok := FastDbcc(condition, reg);
      }
    }

    /** Handled: the strict sequential run, whole. Not handled: nothing at all. */
    method ExecuteMemOp(op: MemOp) returns (ok: bool)
      requires Valid() && pc % 2 == 0 && Decodable(op)
      modifies this`pc, this`flags, dar, mem
      ensures ok <==> windowUp && Takes(env, old(View()), op)
      ensures View() == if ok then Exec(env, true, old(View()), op).value else old(View())
    {
      hide Exec, DownShape, UpShape, Fetch;
      if !windowUp {
        return false;
      }
      match op {
        case MovemWordPostInc(base) => ok := FastMovemWordPostInc(base); return;
        case MovemLongPreDec(base) => ok := FastMovemLongPreDec(base); return;
        case MovemLongPostInc(base) => ok := FastMovemLongPostInc(base); return;
        case Move(size, src, dst) =>
          var handled := FastMove(size, src, dst);
          if handled.Some? {
            return handled.value;
          }
        case _ =>
      }
      var handled := FastAnDisp(op);
      if handled.Some? {
        return handled.value;
      }
      ok := ExecuteGeneric(op);
    }
  }

  lemma BlockFits(e: Env, a: u32, n: nat)
    requires Fits(e)
    ensures InWindow(e, a, n) ==> e.bus.At(a) + n <= e.bus.Size() && n <= e.len
  {
  }

  lemma SkippedImage(dar: seq<u32>, mask: u16, i: nat)
    requires |dar| == 16 && i < 16 && !BitOf(mask, i)
    ensures Image(dar, mask, i) == Image(dar, mask, i + 1)
  {
    hide BitOf;
  }

  /** The next element of a located block reaches, and lies where it should. */
  lemma NextLoad(e: Env, start: u32, size: Size, done: nat, total: nat)
    requires Fits(e) && size != Byte && done < total && Aligned(e, start, size)
    requires InWindow(e, start, Span(size, total))
    ensures var a := Add32(start, Span(size, done));
            && Reaches(e, true, a, size) && e.bus.At(a) == e.bus.At(start) + Span(size, done)
            && Add32(a, size.Bytes()) == Add32(start, Span(size, done + 1))
            && Span(size, done + 1) == Span(size, done) + size.Bytes()
            && InWindow(e, a, size.Bytes()) && Span(size, done) >= 0
  {
    hide InWindow, Bus.At;
    var k: nat := Span(size, done);
    Inside(e, start, Span(size, total), k, size.Bytes());
    EvenUp(start, k);
    AddTwice(start, k, size.Bytes());
  }

  lemma LoadStep(e: Env, m: M, mask: u16, size: Size, r: nat, a: u32)
    requires Ok(e, m) && r < 16 && BitOf(mask, r) && Reaches(e, true, a, size)
    ensures MovemUp(e, true, m, mask, size, r, a)
            == MovemUp(e, true, m.(dar := m.dar[r := SignExtended(ReadMem(e, m.mem, a, size), size)]), mask, size,
                       r + 1, Add32(a, size.Bytes()))
    ensures Count(mask, r) == 1 + Count(mask, r + 1)
  {
    hide BitOf, ReadMem, SignExtended, Reaches;
  }

  lemma SkipStep(e: Env, m: M, mask: u16, size: Size, r: nat, a: u32)
    requires Ok(e, m) && r < 16 && !BitOf(mask, r)
    ensures MovemUp(e, true, m, mask, size, r, a) == MovemUp(e, true, m, mask, size, r + 1, a)
    ensures Count(mask, r) == Count(mask, r + 1)
  {
    hide BitOf, ReadMem, SignExtended, Reaches;
  }

  lemma AddTwice(a: u32, k: int, w: int)
    ensures Add32(Add32(a, k), w) == Add32(a, k + w)
  {
  }

  lemma LoadedReaches(e: Env, m: M, a: u32, size: Size)
    requires Ok(e, m)
    ensures Load(e, true, m, InMemory(a), size).Some? <==> Reaches(e, true, a, size)
  {
  }

  /** Store fails only on the address, and leaves flags and PC alone. */
  lemma StoresWhereItReaches(e: Env, m: M, a: u32, size: Size, v: u32)
    requires Ok(e, m)
    ensures Store(e, true, m, InMemory(a), size, v)
            == if Reaches(e, true, a, size) then Some(m.(mem := WriteMem(e, m.mem, a, size, v))) else None
  {
  }

  lemma StoreKeepsFlags(e: Env, m: M, a: u32, size: Size, v: u32)
    requires Ok(e, m)
    ensures var w := Store(e, true, m, InMemory(a), size, v); w.Some? ==> w.value.flags == m.flags
    ensures forall f :: (Store(e, true, m.(flags := f), InMemory(a), size, v)
                         == var w := Store(e, true, m, InMemory(a), size, v);
                            if w.None? then None else Some(w.value.(flags := f)))
  {
  }

  lemma EvenSteps(pc: u32)
    requires pc % 2 == 0
    ensures Add32(pc, 2) % 2 == 0 && Add32(Add32(pc, 2), 2) == Add32(pc, 4)
  {
  }

  /** An address-register update kept in a local. */
  type Adjust = Option<(Reg, u32)>

  function Adjusted(m: M, adj: Adjust): (r: M)
    requires |m.dar| == 16
    ensures |r.dar| == 16
  {
    if adj.None? then m else WithA(m, adj.value.0, adj.value.1)
  }

  lemma StoreInRegister(e: Env, m: M, i: nat, size: Size, v: u32)
    requires Ok(e, m) && i < 16
    ensures Store(e, true, m, InRegister(i), size, v) == Some(m.(dar := m.dar[i := Merge(m.dar[i], v, size)]))
  {
  }

  /** Relative to the displacement word, or to the PC after it less two. */
  lemma DisplacementFromWord(pc: u32, w: u16)
    ensures Add32(Add32(pc, 2), Sext16(w) - 2) == Add32(pc, Sext16(w))
  {
  }

  lemma RegisterLocated(e: Env, i: nat, size: Size)
    requires i < 16
    ensures Located(e, InRegister(i), InDar(i), size)
  {
  }

  // ------------------------------------------------ register-only operations

  lemma SignExtendsWords(v: u32, size: Size)
    ensures SignExtended(v, size) == if size == Word then SignExtended(v, Word) else v
  {
  }

  lemma MergeMasked(was: u32, v: u32, size: Size)
    ensures Merge(was, Masked(v, size), size) == Merge(was, v, size)
  {
    MaskedTwice(v, size);
  }

  lemma TestKeeps(v: u32, bit: nat)
    ensures ApplyBit(Test, v, bit) % 0x1_0000_0000 == v
  {
  }

  /** Read-modify-write of a data register, within the operation size. */
  lemma ModifiesRegister(e: Env, m: M, op: BinaryOp, size: Size, src: u32, to: Reg)
    requires Ok(e, m) && op != Cmp
    ensures var was := m.dar[to];
            var dst := Masked(was, size);
            var result := Compute(op, src, dst);
            Modify(e, false, m, op, size, src, DataReg(to))
            == Some(WithD(m, to, Merge(was, result, size)).(flags := OpFlags(e.alu, op, m.flags, src, dst, result, size)))
  {
    hide Masked, Compute, OpFlags;
    MergeMasked(m.dar[to], Compute(op, src, Masked(m.dar[to], size)), size);
  }

  /** Both operands masked first, as the batch loop does it. */
  lemma BinaryOnMasked(e: Env, m: M, op: BinaryOp, src: Direct, to: Reg, size: Size)
    requires Ok(e, m)
    ensures var v, was := Masked(m.dar[src.Index()], size), m.dar[to];
            var dst := Masked(was, size);
            var result := Compute(op, v, dst);
            var flagged := m.(flags := OpFlags(e.alu, op, m.flags, v, dst, result, size));
            ExecSimple(e, m, BinaryDataReg(op, src, to, size))
            == Some(if op == Cmp then flagged else WithD(flagged, to, Merge(was, result, size)))
  {
    hide Masked, Merge, OpFlags, Compute, DnOperand, Modify;
    var v := Masked(m.dar[src.Index()], size);
    if op == Eor {
      MaskedTwice(m.dar[src.Index()], size);
      LogicalSource(e, false, m, op, size, v, m.dar[src.Index()], DataReg(to));
      ModifiesRegister(e, m, op, size, v, to);
    } else {
      MaskedOperand(e.alu, op, m.flags, v, m.dar[to], size);
    }
  }
}
