/** MOVEM register by register against MOVEM as one block, and the lists the
    fast path takes. */
module Movem {
  import opened Words
  import opened BusMemory
  import opened MemOps
  import opened OperandMasking

  /** Registers the mask selects from bit `i` on. */
  function Count(mask: u16, i: nat): (n: nat)
    requires i <= 16
    ensures n <= 16 - i
    decreases 16 - i
  {
    if i == 16 then 0 else (if BitOf(mask, i) then 1 else 0) + Count(mask, i + 1)
  }

  /** The bytes of `n` words or longs. */
  function Span(size: Size, n: int): int {
    if size == Long then 4 * n else if size == Word then 2 * n else n
  }

  /** The block -(An) leaves in memory for bits `i` and up, lowest address
      first: bit 15 is D0, bit 0 is A7. */
  function Image(dar: seq<u32>, mask: u16, i: nat): (b: seq<u8>)
    requires |dar| == 16 && i <= 16
    ensures |b| == 4 * Count(mask, i)
    decreases 16 - i
  {
    if i == 16 then []
    else Image(dar, mask, i + 1) + if BitOf(mask, i) then Bytes32(dar[15 - i]) else []
  }

  lemma Inside(e: Env, a: u32, n: nat, k: nat, w: nat)
    requires Fits(e) && InWindow(e, a, n) && k + w <= n && w > 0
    ensures InWindow(e, Add32(a, k), w) && e.bus.At(Add32(a, k)) == e.bus.At(a) + k
  {
    AtShift(e.bus, a, k);
    AtWraps(e.bus, Add32(a, k), (a + k) / 0x1_0000_0000);
    assert Add32(a, k) + 0x1_0000_0000 * ((a + k) / 0x1_0000_0000) == a + k;
    AtSmall(e.bus, e.bus.At(a) + k);
  }

  lemma StepDown(a: u32, n: nat)
    ensures Sub32(Sub32(a, 4), 4 * n) == Sub32(a, 4 * (n + 1))
    ensures Add32(Sub32(a, 4 * (n + 1)), 4 * n) == Sub32(a, 4)
  {
    WrapsAgain(a - 4, -4 * n);
    WrapsAgain(a - 4 * (n + 1), 4 * n);
  }

  lemma StepUp(a: u32, size: Size, n: nat)
    ensures Add32(Add32(a, size.Bytes()), n) == Add32(a, size.Bytes() + n)
  {
    WrapsAgain(a + size.Bytes(), n);
  }

  lemma EvenDown(a: u32, n: nat)
    requires n % 2 == 0
    ensures a % 2 == 0 <==> Sub32(a, n) % 2 == 0
  {
  }

  lemma EvenUp(a: u32, n: nat)
    requires n % 2 == 0
    ensures a % 2 == 0 <==> Add32(a, n) % 2 == 0
  {
  }

  // ----------------------------------------------------------------- storing

  /** The register-by-register stores leave one block. */
  lemma {:induction false} DownIsBlock(e: Env, m: M, mask: u16, base: Reg, i: nat, a: u32)
    requires Ok(e, m) && Fits(e) && i <= 16
    requires !BitOf(mask, 7 - base)
    requires Aligned(e, a, Long) && InWindow(e, Sub32(a, 4 * Count(mask, i)), 4 * Count(mask, i))
    ensures MovemDown(e, true, m, mask, base, i, a) == Some(StoredBlock(e, m, mask, i, a))
    decreases 16 - i
  {
    hide BitOf, Bytes32, Write, Bus.At, InWindow, StoredBlock, Store, WriteMem, Aligned;
    if i == 16 {
      NoneStored(e, m, mask, i, a);
    } else if !BitOf(mask, i) {
      SkippedBit(e, m, mask, i, a);
      DownIsBlock(e, m, mask, base, i + 1, a);
    } else {
      var next, v := Sub32(a, 4), m.dar[15 - i];
      StoreNext(e, m, mask, i, a);
      var stored := m.(mem := WriteMem(e, m.mem, next, Long, v));
      if Count(mask, i + 1) == 0 {
        LastStored(e, stored, mask, base, i, next);
        NoneStored(e, stored, mask, i + 1, next);
      } else {
        DownIsBlock(e, stored, mask, base, i + 1, next);
      }
      StoredTogether(e, m, mask, i, a);
    }
  }

  /** The state after the stores of bits `i` and up, and where An ends. */
  function StoredBlock(e: Env, m: M, mask: u16, i: nat, a: u32): (M, u32)
    requires Ok(e, m) && i <= 16
  {
    var low := Sub32(a, 4 * Count(mask, i));
    (m.(mem := Write(e.bus, m.mem, low, Image(m.dar, mask, i))), low)
  }

  lemma NoneStored(e: Env, m: M, mask: u16, i: nat, a: u32)
    requires Ok(e, m) && i <= 16 && Count(mask, i) == 0
    ensures StoredBlock(e, m, mask, i, a) == (m, a)
  {
    hide BitOf, Write;
    NoBytes(e.bus, m.mem, a);
    assert Image(m.dar, mask, i) == [];
  }

  lemma SkippedBit(e: Env, m: M, mask: u16, i: nat, a: u32)
    requires Ok(e, m) && i < 16 && !BitOf(mask, i)
    ensures StoredBlock(e, m, mask, i, a) == StoredBlock(e, m, mask, i + 1, a)
  {
    hide BitOf, Write;
    assert Image(m.dar, mask, i) == Image(m.dar, mask, i + 1);
  }

  lemma StoreNext(e: Env, m: M, mask: u16, i: nat, a: u32)
    requires Ok(e, m) && Fits(e) && i < 16 && BitOf(mask, i)
    requires Aligned(e, a, Long) && InWindow(e, Sub32(a, 4 * Count(mask, i)), 4 * Count(mask, i))
    ensures var next := Sub32(a, 4);
            && Store(e, true, m, InMemory(next), Long, m.dar[15 - i])
               == Some(m.(mem := WriteMem(e, m.mem, next, Long, m.dar[15 - i])))
            && Aligned(e, next, Long)
            && (Count(mask, i + 1) > 0 ==>
                  InWindow(e, Sub32(next, 4 * Count(mask, i + 1)), 4 * Count(mask, i + 1)))
  {
    hide BitOf, WriteMem, InWindow, Bus.At, Aligned;
    NextInside(e, a, Count(mask, i + 1));
  }

  lemma NextInside(e: Env, a: u32, n: nat)
    requires Fits(e) && Aligned(e, a, Long) && InWindow(e, Sub32(a, 4 * (n + 1)), 4 * (n + 1))
    ensures Reaches(e, true, Sub32(a, 4), Long)
    ensures n > 0 ==> InWindow(e, Sub32(Sub32(a, 4), 4 * n), 4 * n)
  {
    hide InWindow, Bus.At;
    var low := Sub32(a, 4 * (n + 1));
    StepDown(a, n);
    Inside(e, low, 4 * (n + 1), 4 * n, 4);
    EvenDown(a, 4);
    if n > 0 {
      Inside(e, low, 4 * (n + 1), 0, 4 * n);
      assert Add32(low, 0) == low;
    }
  }

  lemma StoredTogether(e: Env, m: M, mask: u16, i: nat, a: u32)
    requires Ok(e, m) && i < 16 && BitOf(mask, i)
    ensures var stored := m.(mem := WriteMem(e, m.mem, Sub32(a, 4), Long, m.dar[15 - i]));
            StoredBlock(e, m, mask, i, a) == StoredBlock(e, stored, mask, i + 1, Sub32(a, 4))
  {
    hide BitOf, Write, Bytes32;
    StepDown(a, Count(mask, i + 1));
    JoinDown(e.bus, m.mem, Sub32(a, 4), Image(m.dar, mask, i + 1), Bytes32(m.dar[15 - i]));
  }

  lemma NoBytes(bus: Bus, mem: seq<u8>, a: int)
    requires bus.Holds(mem)
    ensures Write(bus, mem, a, []) == mem
  {
    var w := Write(bus, mem, a, []);
    forall i | 0 <= i < |mem|
      ensures w[i] == mem[i]
    {
      WriteElsewhere(bus, mem, a, [], i);
    }
  }

  lemma {:induction false} LastStored(e: Env, n: M, mask: u16, base: Reg, i: nat, a: u32)
    requires Ok(e, n) && i < 16 && Count(mask, i + 1) == 0
    ensures MovemDown(e, true, n, mask, base, i + 1, a) == Some((n, a))
    decreases 16 - i
  {
    hide BitOf;
    if i + 1 < 16 {
      LastStored(e, n, mask, base, i + 1, a);
    }
  }

  lemma JoinDown(bus: Bus, mem: seq<u8>, next: u32, low: seq<u8>, high: seq<u8>)
    requires bus.Holds(mem) && |low| + |high| < 0x100
    ensures Write(bus, Write(bus, mem, next, high), Sub32(next, |low|), low)
            == Write(bus, mem, Sub32(next, |low|), low + high)
  {
    PushExtends(bus, mem, next, low, high);
    WriteWraps(bus, Write(bus, mem, next, high), next - |low|, low);
    WriteWraps(bus, mem, next - |low|, low + high);
  }

  /** A strict run of the stores reaches its first and its last long. */
  lemma {:induction false} DownReaches(e: Env, m: M, mask: u16, base: Reg, i: nat, a: u32)
    requires Ok(e, m) && i <= 16
    requires MovemDown(e, true, m, mask, base, i, a).Some? && Count(mask, i) > 0
    ensures Reaches(e, true, Sub32(a, 4), Long)
    ensures Reaches(e, true, Sub32(a, 4 * Count(mask, i)), Long)
    decreases 16 - i
  {
    hide BitOf, Reaches, ReadMem, WriteMem;
    if !BitOf(mask, i) {
      DownReaches(e, m, mask, base, i + 1, a);
    } else {
      var next := Sub32(a, 4);
      var v := if 15 - i == 8 + base && !e.pre020 then Sub32(m.dar[15 - i], 4) else m.dar[15 - i];
      var n := Store(e, true, m, InMemory(next), Long, v);
      StepDown(a, Count(mask, i + 1));
      if Count(mask, i + 1) > 0 {
        DownReaches(e, n.value, mask, base, i + 1, next);
      }
    }
  }

  // ----------------------------------------------------------------- loading

  lemma SpanUp(a: u32, size: Size, n: nat)
    ensures n > 0 ==> Add32(Add32(a, size.Bytes()), Span(size, n - 1)) == Add32(a, Span(size, n))
    ensures Add32(a, Span(size, 0)) == a
  {
    if n > 0 {
      StepUp(a, size, Span(size, n - 1));
    }
  }

  /** One listed register of a run that succeeds. */
  lemma UpListed(e: Env, m: M, mask: u16, size: Size, i: nat, a: u32)
    requires Ok(e, m) && i < 16 && BitOf(mask, i)
    requires MovemUp(e, true, m, mask, size, i, a).Some?
    ensures Reaches(e, true, a, size) && Load(e, true, m, InMemory(a), size).Some?
    ensures var v := Load(e, true, m, InMemory(a), size).value;
            MovemUp(e, true, m.(dar := m.dar[i := SignExtended(v, size)]), mask, size, i + 1,
                    Add32(a, size.Bytes())).Some?
    ensures Count(mask, i) == 1 + Count(mask, i + 1)
  {
    hide BitOf, Reaches, ReadMem, SignExtended;
  }

  lemma UpSkipped(e: Env, m: M, mask: u16, size: Size, i: nat, a: u32)
    requires Ok(e, m) && i < 16 && !BitOf(mask, i)
    ensures MovemUp(e, true, m, mask, size, i, a) == MovemUp(e, true, m, mask, size, i + 1, a)
    ensures Count(mask, i) == Count(mask, i + 1)
  {
    hide BitOf, Reaches, ReadMem, SignExtended;
  }

  lemma {:induction false} UpReaches(e: Env, m: M, mask: u16, size: Size, i: nat, a: u32)
    requires Ok(e, m) && i <= 16
    requires MovemUp(e, true, m, mask, size, i, a).Some? && Count(mask, i) > 0
    ensures Reaches(e, true, a, size)
    ensures Reaches(e, true, Add32(a, Span(size, Count(mask, i) - 1)), size)
    decreases 16 - i
  {
    assert i < 16;
    hide MovemUp, Count, BitOf, Reaches, Load, SignExtended, Span, Add32;
    if !BitOf(mask, i) {
      UpSkipped(e, m, mask, size, i, a);
      UpReaches(e, m, mask, size, i + 1, a);
    } else {
      UpListed(e, m, mask, size, i, a);
      var v := Load(e, true, m, InMemory(a), size).value;
      var n := Count(mask, i + 1);
      SpanUp(a, size, n);
      if n > 0 {
        UpReaches(e, m.(dar := m.dar[i := SignExtended(v, size)]), mask, size, i + 1, Add32(a, size.Bytes()));
      }
    }
  }

  // ------------------------------------------------------------------- masks

  lemma {:induction false} NothingListed(mask: u16, i: nat)
    requires i <= 16 && Count(mask, i) == 0
    ensures mask / Pow2(i) == 0
    decreases 16 - i
  {
    if i == 16 {
      Pow32();
    } else {
      NothingListed(mask, i + 1);
      NextQuotient(mask, i);
    }
  }

  lemma EmptyMask(mask: u16)
    ensures mask == 0 <==> Count(mask, 0) == 0
  {
    assert Pow2(0) == 1;
    if Count(mask, 0) == 0 {
      NothingListed(mask, 0);
    }
    if mask == 0 {
      NoneAbove(mask, 0);
    }
  }

  lemma {:induction false} NoneAbove(mask: u16, i: nat)
    requires i <= 16 && mask / Pow2(i) == 0
    ensures Count(mask, i) == 0
    decreases 16 - i
  {
    if i < 16 {
      NoHighBits(mask, i, i);
      NoHighBits(mask, i, i + 1);
      NoneAbove(mask, i + 1);
    }
  }

  /** `mask & 0xFF00`: the address-register half of a postincrement list. */
  lemma DataRegistersOnly(mask: u16)
    requires mask < 0x100
    ensures Count(mask, 8) == 0
  {
    Pow32();
    NoneAbove(mask, 8);
  }

  lemma {:induction false} CountFalls(mask: u16, i: nat, j: nat)
    requires i <= j <= 16
    ensures Count(mask, j) <= Count(mask, i)
    decreases j - i
  {
    if i < j {
      CountFalls(mask, i + 1, j);
    }
  }

  lemma {:induction false} RestOfList(e: Env, m: M, mask: u16, size: Size, i: nat, a: u32)
    requires Ok(e, m) && i <= 16 && Count(mask, i) == 0
    ensures MovemUp(e, true, m, mask, size, i, a) == Some((m, a))
    decreases 16 - i
  {
    hide BitOf;
    if i < 16 {
      RestOfList(e, m, mask, size, i + 1, a);
    }
  }

  /** One more register on top of the block stored so far, in ascending order. */
  lemma StoreAscending(e: Env, mem: seq<u8>, start: u32, dar: seq<u32>, mask: u16, r: nat)
    requires e.bus.Holds(mem) && |dar| == 16 && r < 16 && BitOf(mask, 15 - r)
    ensures var below := Image(dar, mask, 16 - r);
            WriteMem(e, Write(e.bus, mem, start, below), Add32(start, |below|), Long, dar[r])
            == Write(e.bus, mem, start, Image(dar, mask, 15 - r))
  {
    hide BitOf, Write, Bytes32;
    var below := Image(dar, mask, 16 - r);
    WriteWraps(e.bus, Write(e.bus, mem, start, below), start + |below|, Bytes32(dar[r]));
    AppendAbove(e.bus, mem, start, below, Bytes32(dar[r]));
    assert 15 - (15 - r) == r && 15 - r + 1 == 16 - r;
  }

  // ------------------------------------------------- what the fast paths take

  predicate DownShape(e: Env, m: M, base: Reg, mask: u16)
    requires Ok(e, m)
  {
    var n := 4 * Count(mask, 0);
    mask != 0 && !BitOf(mask, 7 - base) && e.bus.At(Sub32(m.dar[8 + base], n)) + n <= e.bus.Size()
  }

  predicate UpShape(e: Env, m: M, base: Reg, size: Size, mask: u16)
    requires Ok(e, m)
  {
    && mask != 0 && (if size == Word then mask < 0x100 else !BitOf(mask, 8 + base))
    && e.bus.At(m.dar[8 + base]) + Span(size, Count(mask, 0)) <= e.bus.Size()
  }

  predicate IsMovem(op: MemOp) {
    op.MovemWordPostInc? || op.MovemLongPreDec? || op.MovemLongPostInc?
  }

  /** What the fast path executes: whatever runs strictly, and of MOVEM the
      lists it has a form for. */
  predicate Takes(e: Env, m: M, op: MemOp)
    requires Ok(e, m) && Decodable(op)
  {
    && Exec(e, true, m, op).Some?
    && match op
       case MovemWordPostInc(base) => Fetch(e, true, m).Some? && UpShape(e, m, base, Word, Fetch(e, true, m).value.word)
       case MovemLongPostInc(base) => Fetch(e, true, m).Some? && UpShape(e, m, base, Long, Fetch(e, true, m).value.word)
       case MovemLongPreDec(base) => Fetch(e, true, m).Some? && DownShape(e, m, base, Fetch(e, true, m).value.word)
       case _ => true
  }

  lemma EndsMakeBlock(e: Env, a: u32, n: nat, w: nat)
    requires Fits(e) && 0 < w <= n && e.bus.At(a) + n <= e.bus.Size()
    requires InWindow(e, a, w) && InWindow(e, Add32(a, n - w), w)
    ensures InWindow(e, a, n) && n <= e.len
  {
    var k := n - w;
    AtShift(e.bus, a, k);
    AtWraps(e.bus, Add32(a, k), (a + k) / 0x1_0000_0000);
    assert Add32(a, k) + 0x1_0000_0000 * ((a + k) / 0x1_0000_0000) == a + k;
    AtSmall(e.bus, e.bus.At(a) + k);
  }

  /** The fast store takes exactly the lists of its shape that run strictly. */
  lemma DownCovered(e: Env, m: M, base: Reg, mask: u16)
    requires Ok(e, m) && Fits(e) && DownShape(e, m, base, mask)
    ensures var a, n := m.dar[8 + base], 4 * Count(mask, 0);
            MovemDown(e, true, m, mask, base, 0, a).Some?
            <==> Aligned(e, a, Long) && InWindow(e, Sub32(a, n), n)
  {
    hide BitOf, Bus.At, MovemDown, Image;
    var a, c := m.dar[8 + base], Count(mask, 0);
    EmptyMask(mask);
    EvenDown(a, 4);
    if Aligned(e, a, Long) && InWindow(e, Sub32(a, 4 * c), 4 * c) {
      DownIsBlock(e, m, mask, base, 0, a);
    }
    if MovemDown(e, true, m, mask, base, 0, a).Some? {
      DownReaches(e, m, mask, base, 0, a);
      StepDown(a, c - 1);
      EndsMakeBlock(e, Sub32(a, 4 * c), 4 * c, 4);
    }
  }

  lemma {:induction false} UpRuns(e: Env, m: M, mask: u16, size: Size, i: nat, a: u32)
    requires Ok(e, m) && Fits(e) && i <= 16 && size != Byte
    requires Aligned(e, a, size) && InWindow(e, a, Span(size, Count(mask, i)))
    ensures MovemUp(e, true, m, mask, size, i, a).Some?
    decreases 16 - i
  {
    hide BitOf, ReadMem, SignExtended, Bus.At, InWindow, Span, Aligned;
    if i < 16 {
      if !BitOf(mask, i) {
        UpRuns(e, m, mask, size, i + 1, a);
      } else {
        var n := Count(mask, i + 1);
        LoadNext(e, a, size, n);
        var next := m.(dar := m.dar[i := SignExtended(Load(e, true, m, InMemory(a), size).value, size)]);
        if n > 0 {
          UpRuns(e, next, mask, size, i + 1, Add32(a, size.Bytes()));
        } else {
          RestOfList(e, next, mask, size, i + 1, Add32(a, size.Bytes()));
        }
      }
    }
  }

  lemma LoadNext(e: Env, a: u32, size: Size, n: nat)
    requires Fits(e) && size != Byte && Aligned(e, a, size) && InWindow(e, a, Span(size, n + 1))
    ensures Reaches(e, true, a, size) && Aligned(e, Add32(a, size.Bytes()), size)
    ensures n > 0 ==> InWindow(e, Add32(a, size.Bytes()), Span(size, n))
  {
    hide InWindow, Bus.At;
    Inside(e, a, Span(size, n + 1), 0, size.Bytes());
    assert Add32(a, 0) == a;
    EvenUp(a, size.Bytes());
    if n > 0 {
      Inside(e, a, Span(size, n + 1), size.Bytes(), Span(size, n));
    }
  }

  lemma SpanOfSome(size: Size, n: nat)
    requires size != Byte && n > 0
    ensures Span(size, n - 1) == Span(size, n) - size.Bytes() && size.Bytes() <= Span(size, n)
  {
  }

  /** The fast load takes exactly the lists of its shape that run strictly. */
  lemma UpCovered(e: Env, m: M, base: Reg, size: Size, mask: u16)
    requires Ok(e, m) && Fits(e) && size != Byte && UpShape(e, m, base, size, mask)
    ensures var a, n := m.dar[8 + base], Span(size, Count(mask, 0));
            MovemUp(e, true, m, mask, size, 0, a).Some? <==> Aligned(e, a, size) && InWindow(e, a, n)
  {
    hide BitOf, Bus.At, MovemUp, Count, InWindow, Span;
    var a, c := m.dar[8 + base], Count(mask, 0);
    EmptyMask(mask);
    SpanOfSome(size, c);
    if Aligned(e, a, size) && InWindow(e, a, Span(size, c)) {
      UpRuns(e, m, mask, size, 0, a);
    }
    if MovemUp(e, true, m, mask, size, 0, a).Some? {
      UpReaches(e, m, mask, size, 0, a);
      EndsMakeBlock(e, a, Span(size, c), size.Bytes());
    }
  }
}
