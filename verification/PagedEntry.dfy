/** Entry to the access-error handler under an active MMU. The frame is pushed
    and the vector read through the supervisor mapping, each push split like any
    other access; a refusal in the middle of it is a double fault. */
module PagedEntry {
  import opened Words
  import opened BusMemory
  import opened Exceptions
  import opened ExceptionReturn
  import P = PagedAccess

  function Repeat(n: nat, size: nat): seq<nat> {
    if n == 0 then [] else [size] + Repeat(n - 1, size)
  }

  /** The widths of the frame pushes, top of the frame first. The 68010 builds
      its frame with raw bus writes. */
  function PushSizes(model: Model): seq<nat> {
    if model.M68060? then [4, 4, 2, 4, 2]
    else if model.Is040() then Repeat(10, 4) + (Repeat(4, 2) + [4, 2, 4, 2])
    else if model.Is020Or030() then Repeat(9, 4) + (Repeat(4, 2) + (Repeat(8, 4) + (Repeat(5, 2) + [4, 2])))
    else []
  }

  /** The stores that push `block` below `sp`. */
  function PushStores(mmu: P.Mmu, sp: u32, block: seq<u8>, sizes: seq<nat>): seq<P.Store>
    decreases |sizes|
  {
    if sizes == [] || sizes[0] > |block| then []
    else
      var a, rest := Sub32(sp, sizes[0]), |block| - sizes[0];
      P.Stores(mmu, a, block[rest..]) + PushStores(mmu, a, block[..rest], sizes[1..])
  }

  /** Their cycles, which depend on no byte of it. */
  function PushCycles(mmu: P.Mmu, sp: u32, n: nat, sizes: seq<nat>): seq<P.Cycle>
    decreases |sizes|
  {
    if sizes == [] || sizes[0] > n then []
    else
      var a := Sub32(sp, sizes[0]);
      P.Cycles(mmu, a, sizes[0]) + PushCycles(mmu, a, n - sizes[0], sizes[1..])
  }

  lemma {:induction false} PushShape(mmu: P.Mmu, sp: u32, block: seq<u8>, sizes: seq<nat>)
    ensures P.Shape(PushStores(mmu, sp, block, sizes)) == PushCycles(mmu, sp, |block|, sizes)
    decreases |sizes|
  {
    hide P.Stores, P.Cycles;
    if sizes != [] && sizes[0] <= |block| {
      var a, rest := Sub32(sp, sizes[0]), |block| - sizes[0];
      P.ShapeOfStores(mmu, a, block[rest..]);
      PushShape(mmu, a, block[..rest], sizes[1..]);
      P.ShapeJoins(P.Stores(mmu, a, block[rest..]), PushStores(mmu, a, block[..rest], sizes[1..]));
    }
  }

  /** The supervisor stack pointer a frame goes below. */
  function EntryTop(model: Model, c: Core): u32 {
    c.stacks.Get(Active(model, c.sr.(s := true)))
  }

  function VectorAddress(vbr: u32): u32 {
    Add32(4 * BUS_ERROR, vbr)
  }

  function EntryCycles(model: Model, mmu: P.Mmu, sp: u32): seq<P.Cycle> {
    PushCycles(mmu, sp, FaultFrameSize(model), PushSizes(model))
  }

  function VectorCycles(mmu: P.Mmu, vbr: u32): seq<P.Cycle> {
    P.Cycles(mmu, VectorAddress(vbr), 4)
  }

  lemma Limits()
    ensures Limit(2) == 0x1_0000 && Limit(4) == 0x1_0000_0000
  {
  }

  /** `exception_bus_error`: the state it leaves, and whether one of its own
      accesses was refused. After a refusal nothing more is stored, A7 goes on
      down and the vector reads as zero. */
  function Entry(model: Model, space: P.Space, c: Core, f: Fault): (r: (Core, bool))
    requires Wf(model, c) && Legal(model, AccessError(f))
    ensures Wf(model, r.0)
  {
    var k := AccessError(f);
    if model.Pre68020() then (Enter(model, c, k), false)
    else
      var frame, sr := FirstFrame(model, c, k), SupervisorSr(c.sr, k);
      var sp := EntryTop(model, c);
      var w := P.WriteCycles(space, c.mem, c.writeSuppress, PushStores(space.mmu, sp, frame, PushSizes(model)));
      var pushed := c.(sr := sr, stacks := c.stacks.Put(Active(model, sr), Sub32(sp, |frame|)),
                       mem := w.mem, writeSuppress := w.suppress, pc := 0);
      if w.refused.Some? then (pushed, true)
      else
        Limits();
        P.PagedBytes(space, w.mem, c.readOverride, VectorAddress(c.vbr), 4, P.DataRead);
        var v := P.PagedRead(space, w.mem, c.readOverride, VectorAddress(c.vbr), 4, P.DataRead);
        (pushed.(pc := P.Seen(4, v.bytes), readOverride := v.over), v.refused.Some?)
  }

  lemma EntryFields(model: Model, c: Core, k: Cause)
    requires Wf(model, c) && Legal(model, k) && k.AccessError?
    ensures var e := Enter(model, c, k);
            && e.sr == SupervisorSr(c.sr, k) && e.ppc == c.ppc && e.vbr == c.vbr
            && e.readOverride == c.readOverride && e.writeSuppress == c.writeSuppress
            && e.pc == Read32(model.Bus(), e.mem, VectorAddress(c.vbr))
  {
    hide Frame, UnderFrame, Read32;
  }

  /** Whatever its accesses meet, entry leaves mode and stack pointers alike. */
  lemma EntryStackPointers(model: Model, space: P.Space, c: Core, f: Fault)
    requires Wf(model, c) && Legal(model, AccessError(f))
    ensures var e := Entry(model, space, c, f).0;
            && e.sr == SupervisorSr(c.sr, AccessError(f)) && e.ppc == c.ppc && e.vbr == c.vbr
            && e.stacks == c.stacks.Put(Active(model, e.sr), Sub32(EntryTop(model, c), FaultFrameSize(model)))
            && e.stacks == Enter(model, c, AccessError(f)).stacks
  {
    hide Frame, UnderFrame, Read32, P.WriteCycles, P.PagedRead, P.Seen, PushSizes, Pack;
    EntryStacks(model, c, AccessError(f));
    FrameSizes(model, c, AccessError(f));
  }

  // ----------------------------------------------------------- double faults

  /** No access of the entry is refused. */
  predicate EntryGranted(model: Model, space: P.Space, sp: u32, vbr: u32, over: Option<(u32, u32)>, suppress: Option<u32>) {
    model.Pre68020()
    || (&& P.CyclesGranted(space, suppress, EntryCycles(model, space.mmu, sp), P.DataWrite)
        && P.CyclesGranted(space, P.ArmedFor(over, P.DataRead), VectorCycles(space.mmu, vbr), P.DataRead))
  }

  /** The entry stores, or loads, at the address of an armed one-shot. */
  predicate StoresAt(model: Model, space: P.Space, c: Core, suppress: Option<u32>) {
    !model.Pre68020() && P.Touches(EntryCycles(model, space.mmu, EntryTop(model, c)), suppress)
  }

  predicate LoadsAt(model: Model, space: P.Space, c: Core, over: Option<(u32, u32)>) {
    !model.Pre68020() && P.Touches(VectorCycles(space.mmu, c.vbr), P.ArmedFor(over, P.DataRead))
  }

  /** The accesses of an entry: which are refused, and what they use up. */
  lemma EntryAccesses(model: Model, space: P.Space, c: Core, f: Fault)
    requires Wf(model, c) && Legal(model, AccessError(f))
    ensures var (e, refused) := Entry(model, space, c, f);
            && (refused <==> !EntryGranted(model, space, EntryTop(model, c), c.vbr, c.readOverride, c.writeSuppress))
            && (!refused ==>
                  && e.writeSuppress == (if StoresAt(model, space, c, c.writeSuppress) then None else c.writeSuppress)
                  && e.readOverride == (if LoadsAt(model, space, c, c.readOverride) then None else c.readOverride))
  {
    hide Frame, UnderFrame, Pack, P.WriteCycles, P.ReadCycles, P.CyclesGranted, P.Touches, P.Seen, P.Cycles, PushSizes,
         PushStores, PushCycles, Read32, Enter;
    if model.Pre68020() {
      EntryFields(model, c, AccessError(f));
    } else {
      var frame, sp := FirstFrame(model, c, AccessError(f)), EntryTop(model, c);
      FrameSizes(model, c, AccessError(f));
      PushShape(space.mmu, sp, frame, PushSizes(model));
      P.WritesGranted(space, c.mem, c.writeSuppress, PushStores(space.mmu, sp, frame, PushSizes(model)));
      var w := P.WriteCycles(space, c.mem, c.writeSuppress, PushStores(space.mmu, sp, frame, PushSizes(model)));
      P.SplitRead(space.mmu, VectorAddress(c.vbr), 4);
      P.ReadsGranted(space, w.mem, c.readOverride, VectorCycles(space.mmu, c.vbr), P.DataRead);
    }
  }

  // ------------------------------------------------------ through no mapping

  /** Granted where it says: mapped to itself and refused by nobody. */
  predicate Straight(space: P.Space, cycles: seq<P.Cycle>, kind: P.Access) {
    forall c :: c in cycles ==> P.Phys(space.mmu, c.a, kind) == Some(c.a) && !space.refuses(c.a, c.n, kind)
  }

  lemma {:induction false} StraightStore(space: P.Space, mem: seq<u8>, a: u32, bytes: seq<u8>)
    requires |mem| == P.TOP && 0 < |bytes| <= 4 && Straight(space, P.Cycles(space.mmu, a, |bytes|), P.DataWrite)
    ensures P.WriteCycles(space, mem, None, P.Stores(space.mmu, a, bytes)) == P.Written(Write(Bus32, mem, a, bytes), None, None)
    decreases |bytes|
  {
    hide P.Offset, P.PageSize, Write, P.Phys;
    var n, room := |bytes|, P.PageSize(space.mmu.tc) - 1;
    if n == 4 && P.Offset(space.mmu, a) > room - 3 {
      StraightParts(space, a, 2, 2);
      StraightStore(space, mem, a, bytes[..2]);
      StraightStore(space, Write(Bus32, mem, a, bytes[..2]), Add32(a, 2), bytes[2..]);
      assert bytes == bytes[..2] + bytes[2..];
      TwoStores(space, mem, a, bytes[..2], bytes[2..]);
    } else if n == 3 && P.Offset(space.mmu, a) > room - 2 {
      StraightParts(space, a, 2, 1);
      StraightStore(space, mem, a, bytes[..2]);
      StraightStore(space, Write(Bus32, mem, a, bytes[..2]), Add32(a, 2), bytes[2..]);
      assert bytes == bytes[..2] + bytes[2..];
      TwoStores(space, mem, a, bytes[..2], bytes[2..]);
    } else if n == 2 && P.Offset(space.mmu, a) == room {
      StraightParts(space, a, 1, 1);
      StraightStore(space, mem, a, bytes[..1]);
      StraightStore(space, Write(Bus32, mem, a, bytes[..1]), Add32(a, 1), bytes[1..]);
      assert bytes == bytes[..1] + bytes[1..];
      TwoStores(space, mem, a, bytes[..1], bytes[1..]);
    } else {
      StraightCycle(space, mem, a, bytes);
    }
  }

  lemma StraightParts(space: P.Space, a: u32, m: nat, n: nat)
    requires P.Cycles(space.mmu, a, m + n) == P.Cycles(space.mmu, a, m) + P.Cycles(space.mmu, Add32(a, m), n)
    requires Straight(space, P.Cycles(space.mmu, a, m + n), P.DataWrite)
    ensures Straight(space, P.Cycles(space.mmu, a, m), P.DataWrite)
    ensures Straight(space, P.Cycles(space.mmu, Add32(a, m), n), P.DataWrite)
  {
    hide P.Cycles, P.Phys;
  }

  lemma StraightCycle(space: P.Space, mem: seq<u8>, a: u32, bytes: seq<u8>)
    requires |mem| == P.TOP && P.Stores(space.mmu, a, bytes) == [P.Store(a, bytes)]
    requires Straight(space, [P.Cycle(a, |bytes|)], P.DataWrite)
    ensures P.WriteCycles(space, mem, None, P.Stores(space.mmu, a, bytes)) == P.Written(Write(Bus32, mem, a, bytes), None, None)
  {
    hide P.Stores, Write, P.Phys;
    P.OneStore(space, mem, None, a, bytes);
    assert P.Cycle(a, |bytes|) in [P.Cycle(a, |bytes|)];
    AtSmall(Bus32, a);
  }

  lemma TwoWrites(mem: seq<u8>, a: u32, x: seq<u8>, y: seq<u8>)
    requires |mem| == P.TOP && |x| + |y| <= 4
    ensures Write(Bus32, Write(Bus32, mem, a, x), Add32(a, |x|), y) == Write(Bus32, mem, a, x + y)
  {
    hide Write, Bus.At;
    WriteWraps(Bus32, Write(Bus32, mem, a, x), a + |x|, y);
    AppendAbove(Bus32, mem, a, x, y);
  }

  lemma TwoStores(space: P.Space, mem: seq<u8>, a: u32, x: seq<u8>, y: seq<u8>)
    requires |mem| == P.TOP && |x| + |y| <= 4
    requires P.Stores(space.mmu, a, x + y) == P.Stores(space.mmu, a, x) + P.Stores(space.mmu, Add32(a, |x|), y)
    requires P.WriteCycles(space, mem, None, P.Stores(space.mmu, a, x)) == P.Written(Write(Bus32, mem, a, x), None, None)
    requires var low := Write(Bus32, mem, a, x);
             P.WriteCycles(space, low, None, P.Stores(space.mmu, Add32(a, |x|), y))
             == P.Written(Write(Bus32, low, Add32(a, |x|), y), None, None)
    ensures P.WriteCycles(space, mem, None, P.Stores(space.mmu, a, x + y))
            == P.Written(Write(Bus32, mem, a, x + y), None, None)
  {
    hide P.Stores, Write, P.WriteCycles, Add32;
    P.WriteCyclesAppend(space, mem, None, P.Stores(space.mmu, a, x), P.Stores(space.mmu, Add32(a, |x|), y));
    TwoWrites(mem, a, x, y);
  }

  /** The widths are those of possible accesses and cover `n` bytes. */
  predicate Exhausts(n: nat, sizes: seq<nat>)
    decreases |sizes|
  {
    if sizes == [] then n == 0 else 0 < sizes[0] <= 4 && sizes[0] <= n && Exhausts(n - sizes[0], sizes[1..])
  }

  lemma {:induction false} ExhaustsJoins(m: nat, x: seq<nat>, n: nat, y: seq<nat>)
    requires Exhausts(m, x) && Exhausts(n, y)
    ensures Exhausts(m + n, x + y)
    decreases |x|
  {
    if x == [] {
      assert x + y == y;
    } else {
      assert (x + y)[1..] == x[1..] + y;
      ExhaustsJoins(m - x[0], x[1..], n, y);
    }
  }

  lemma {:induction false} RepeatExhausts(n: nat, size: nat)
    requires 0 < size <= 4
    ensures Exhausts(n * size, Repeat(n, size))
  {
    if n > 0 {
      RepeatExhausts(n - 1, size);
      assert n * size == size + (n - 1) * size;
      assert Repeat(n, size)[1..] == Repeat(n - 1, size);
    }
  }

  lemma ShortRuns()
    ensures Exhausts(6, [4, 2]) && Exhausts(12, [4, 2, 4, 2]) && Exhausts(16, [4, 4, 2, 4, 2])
  {
    var a: seq<nat>, b: seq<nat>, c: seq<nat> := [4, 2], [4, 2, 4, 2], [4, 4, 2, 4, 2];
    assert a[1..] == [2] && b[1..] == [2, 4, 2] && b[1..][1..] == a && c[1..] == b;
  }

  lemma PushSizesFit(model: Model)
    requires !model.Pre68020()
    ensures Exhausts(FaultFrameSize(model), PushSizes(model))
  {
    hide Repeat, Exhausts;
    ShortRuns();
    if model.M68060? {
    } else if model.Is040() {
      RepeatExhausts(4, 2);
      RepeatExhausts(10, 4);
      ExhaustsJoins(8, Repeat(4, 2), 12, [4, 2, 4, 2]);
      ExhaustsJoins(40, Repeat(10, 4), 20, Repeat(4, 2) + [4, 2, 4, 2]);
    } else {
      RepeatExhausts(5, 2);
      RepeatExhausts(8, 4);
      RepeatExhausts(4, 2);
      RepeatExhausts(9, 4);
      ExhaustsJoins(10, Repeat(5, 2), 6, [4, 2]);
      ExhaustsJoins(32, Repeat(8, 4), 16, Repeat(5, 2) + [4, 2]);
      ExhaustsJoins(8, Repeat(4, 2), 48, Repeat(8, 4) + (Repeat(5, 2) + [4, 2]));
      ExhaustsJoins(36, Repeat(9, 4), 56, Repeat(4, 2) + (Repeat(8, 4) + (Repeat(5, 2) + [4, 2])));
    }
  }

  /** The first push and the others. */
  lemma PushesSplit(space: P.Space, sp: u32, block: seq<u8>, sizes: seq<nat>)
    requires sizes != [] && Exhausts(|block|, sizes)
    requires Straight(space, PushCycles(space.mmu, sp, |block|, sizes), P.DataWrite)
    ensures var n := sizes[0];
            0 < n <= 4 && n <= |block| && Exhausts(|block| - n, sizes[1..])
    ensures var a, rest := Sub32(sp, sizes[0]), |block| - sizes[0];
            && Straight(space, P.Cycles(space.mmu, a, sizes[0]), P.DataWrite)
            && Straight(space, PushCycles(space.mmu, a, rest, sizes[1..]), P.DataWrite)
            && PushStores(space.mmu, sp, block, sizes)
               == P.Stores(space.mmu, a, block[rest..]) + PushStores(space.mmu, a, block[..rest], sizes[1..])
  {
    hide P.Stores, P.Cycles, P.Phys;
  }

  lemma {:induction false} StraightPushes(space: P.Space, mem: seq<u8>, sp: u32, block: seq<u8>, sizes: seq<nat>)
    requires |mem| == P.TOP && |block| <= P.TOP && Exhausts(|block|, sizes)
    requires Straight(space, PushCycles(space.mmu, sp, |block|, sizes), P.DataWrite)
    ensures P.WriteCycles(space, mem, None, PushStores(space.mmu, sp, block, sizes))
            == P.Written(Write(Bus32, mem, sp - |block|, block), None, None)
    decreases |sizes|
  {
    hide Write, Bus.At, P.WriteCycles, P.Stores, P.Cycles, Straight, PushStores, PushCycles, Exhausts;
    if sizes == [] {
      NothingWritten(space, mem, sp, block);
    } else {
      PushesSplit(space, sp, block, sizes);
      var rest := |block| - sizes[0];
      var a, low, high := Sub32(sp, sizes[0]), block[..rest], block[rest..];
      var upper := Write(Bus32, mem, a, high);
      StraightStore(space, mem, a, high);
      StraightPushes(space, upper, a, low, sizes[1..]);
      P.WriteCyclesAppend(space, mem, None, P.Stores(space.mmu, a, high), PushStores(space.mmu, a, low, sizes[1..]));
      PushedBelow(mem, sp, low, high);
      assert low + high == block;
    }
  }

  lemma NothingWritten(space: P.Space, mem: seq<u8>, sp: u32, block: seq<u8>)
    requires |mem| == P.TOP && Exhausts(|block|, [])
    ensures P.WriteCycles(space, mem, None, PushStores(space.mmu, sp, block, []))
            == P.Written(Write(Bus32, mem, sp - |block|, block), None, None)
  {
    var same := Write(Bus32, mem, sp - |block|, block);
    forall i: nat | i < |mem|
      ensures same[i] == mem[i]
    {
      WriteElsewhere(Bus32, mem, sp - |block|, block, i);
    }
    assert same == mem;
  }

  lemma PushedBelow(mem: seq<u8>, sp: u32, low: seq<u8>, high: seq<u8>)
    requires |mem| == P.TOP && |low| + |high| <= P.TOP
    ensures var a := Sub32(sp, |high|);
            Write(Bus32, Write(Bus32, mem, a, high), a - |low|, low) == Write(Bus32, mem, sp - |low + high|, low + high)
  {
    hide Write, Bus.At;
    var a := Sub32(sp, |high|);
    WriteWraps(Bus32, mem, sp - |high|, high);
    var upper := Write(Bus32, mem, sp - |high|, high);
    WrapsAgain(sp - |high|, 0 - |low|);
    WriteWraps(Bus32, upper, a - |low|, low);
    WriteWraps(Bus32, upper, sp - |high| - |low|, low);
    PushExtends(Bus32, mem, sp - |high|, low, high);
  }

  lemma {:induction false} Untouched(stores: seq<P.Store>, suppress: Option<u32>)
    requires !P.Touches(P.Shape(stores), suppress)
    ensures forall s :: s in stores ==> suppress != Some(s.a)
  {
    if stores != [] {
      P.TouchesStep(P.Shape(stores), suppress);
      assert P.Shape(stores)[1..] == P.Shape(stores[1..]);
      Untouched(stores[1..], suppress);
    }
  }

  lemma StraightFrame(model: Model, space: P.Space, c: Core, f: Fault)
    requires Wf(model, c) && Legal(model, AccessError(f)) && !model.Pre68020()
    requires !StoresAt(model, space, c, c.writeSuppress)
    requires Straight(space, EntryCycles(model, space.mmu, EntryTop(model, c)), P.DataWrite)
    ensures var sp, frame := EntryTop(model, c), FirstFrame(model, c, AccessError(f));
            P.WriteCycles(space, c.mem, c.writeSuppress, PushStores(space.mmu, sp, frame, PushSizes(model)))
            == P.Written(Write(Bus32, c.mem, sp - |frame|, frame), c.writeSuppress, None)
  {
    hide Frame, UnderFrame, PushSizes, PushStores, PushCycles, P.WriteCycles, Write, P.Touches, Straight, Exhausts, P.Shape;
    var sp, frame, sizes := EntryTop(model, c), FirstFrame(model, c, AccessError(f)), PushSizes(model);
    FrameSizes(model, c, AccessError(f));
    PushSizesFit(model);
    PushShape(space.mmu, sp, frame, sizes);
    StraightPushes(space, c.mem, sp, frame, sizes);
    Untouched(PushStores(space.mmu, sp, frame, sizes), c.writeSuppress);
    P.SuppressionUnseen(space, c.mem, c.writeSuppress, PushStores(space.mmu, sp, frame, sizes));
  }

  lemma {:induction false} StraightReads(space: P.Space, mem: seq<u8>, a: u32, cycles: seq<P.Cycle>)
    requires |mem| == P.TOP && P.Sized(cycles) && P.Consecutive(space.mmu, a, cycles) && Straight(space, cycles, P.DataRead)
    ensures P.ReadCycles(space, mem, None, cycles, P.DataRead)
            == P.Read(Block(Bus32, mem, a, P.Total(cycles)), None, None)
    decreases |cycles|
  {
    hide P.Offset, P.PageSize, P.Phys, Block;
    if cycles == [] {
    } else {
      var c, rest := cycles[0], cycles[1..];
      assert c in cycles;
      AtSmall(Bus32, a);
      StraightReads(space, mem, Add32(a, c.n), rest);
      BlockJoins(mem, a, c.n, P.Total(rest));
    }
  }

  lemma BlockJoins(mem: seq<u8>, a: u32, m: nat, n: nat)
    requires |mem| == P.TOP
    ensures Block(Bus32, mem, a, m + n) == Block(Bus32, mem, a, m) + Block(Bus32, mem, Add32(a, m), n)
  {
    hide Bus.At, Block;
    BlockWraps(Bus32, mem, a + m, n);
    var whole := Block(Bus32, mem, a, m + n);
    SubBlock(Bus32, mem, a, m + n, 0, m);
    SubBlock(Bus32, mem, a, m + n, m, n);
    assert a + 0 == a && whole == whole[0..m] + whole[m..m + n];
  }

  lemma StraightLong(space: P.Space, mem: seq<u8>, over: Option<(u32, u32)>, a: u32)
    requires |mem| == P.TOP && Straight(space, P.Cycles(space.mmu, a, 4), P.DataRead)
    requires !P.Touches(P.Cycles(space.mmu, a, 4), P.ArmedFor(over, P.DataRead))
    ensures var v := P.PagedRead(space, mem, over, a, 4, P.DataRead);
            v.refused.None? && v.over == over && P.Seen(4, v.bytes) == Read32(Bus32, mem, a)
  {
    hide P.Cycles, P.ReadCycles, Straight, Block, P.Seen;
    var cycles := P.Cycles(space.mmu, a, 4);
    P.SplitRead(space.mmu, a, 4);
    StraightReads(space, mem, a, cycles);
    assert over.Some? ==> forall c :: c in cycles ==> c.a != over.value.0;
    P.OverrideUnseen(space, mem, over, cycles, P.DataRead);
    P.SeenWhole(Block(Bus32, mem, a, 4));
  }

  /** Where the supervisor mapping is straight, and no one-shot is met, the entry
      is the one without an MMU. */
  lemma StraightEntry(model: Model, space: P.Space, c: Core, f: Fault)
    requires Wf(model, c) && Legal(model, AccessError(f)) && !model.Pre68020()
    requires !StoresAt(model, space, c, c.writeSuppress) && !LoadsAt(model, space, c, c.readOverride)
    requires Straight(space, EntryCycles(model, space.mmu, EntryTop(model, c)), P.DataWrite)
    requires Straight(space, VectorCycles(space.mmu, c.vbr), P.DataRead)
    ensures Entry(model, space, c, f) == (Enter(model, c, AccessError(f)), false)
  {
    hide Frame, UnderFrame, Enter, PushStores, PushSizes, PushCycles, P.WriteCycles, P.PagedRead, Write, P.Touches, Straight,
         Read32, P.Seen, P.Cycles;
    var k := AccessError(f);
    var sp, frame := EntryTop(model, c), FirstFrame(model, c, k);
    StraightFrame(model, space, c, f);
    FrameSizes(model, c, k);
    WriteWraps(Bus32, c.mem, sp - |frame|, frame);
    EntryStackPointers(model, space, c, f);
    EntryMemory(model, c, k);
    EntryFields(model, c, k);
    StraightLong(space, Write(Bus32, c.mem, sp - |frame|, frame), c.readOverride, VectorAddress(c.vbr));
  }

  lemma EntryIgnoresPc(model: Model, space: P.Space, c: Core, pc: u32, f: Fault)
    requires Wf(model, c) && Legal(model, AccessError(f))
    ensures Entry(model, space, c.(pc := pc), f) == Entry(model, space, c, f)
  {
    hide Block, Read32, FrameHead, Tail7, TailB, PushStores, PushSizes, P.WriteCycles, P.PagedRead, P.Seen;
    assert FirstFrame(model, c.(pc := pc), AccessError(f)) == FirstFrame(model, c, AccessError(f));
  }

  /** An entry without a refusal needs no one-shot. */
  lemma GrantedAnyway(model: Model, space: P.Space, sp: u32, vbr: u32, over: Option<(u32, u32)>, suppress: Option<u32>)
    requires EntryGranted(model, space, sp, vbr, None, None)
    ensures EntryGranted(model, space, sp, vbr, over, suppress)
  {
    hide P.CyclesGranted, PushCycles, PushSizes, P.Cycles;
    if !model.Pre68020() {
      P.GrantedAnyway(space, suppress, EntryCycles(model, space.mmu, sp), P.DataWrite);
      P.GrantedAnyway(space, P.ArmedFor(over, P.DataRead), VectorCycles(space.mmu, vbr), P.DataRead);
    }
  }

  lemma EntrySuppression(model: Model, space: P.Space, c: Core, f: Fault)
    requires Wf(model, c) && Legal(model, AccessError(f))
    ensures var e := Entry(model, space, c, f).0; e.writeSuppress == c.writeSuppress || e.writeSuppress.None?
  {
    hide FirstFrame, P.WriteCycles, P.PagedRead, P.Seen, PushStores, PushSizes, Enter;
    if model.Pre68020() {
      EntryFields(model, c, AccessError(f));
    } else {
      P.SuppressionOnlyUsed(space, c.mem, c.writeSuppress,
                            PushStores(space.mmu, EntryTop(model, c), FirstFrame(model, c, AccessError(f)), PushSizes(model)));
    }
  }

  // --------------------------------------------------------- where they land

  lemma CyclesWithin(mmu: P.Mmu, a: u32, n: nat)
    requires 0 < n <= 4 && a + n <= P.TOP
    ensures forall c :: c in P.Cycles(mmu, a, n) ==> a <= c.a && 0 < c.n && c.a + c.n <= a + n
    decreases n
  {
    hide P.Offset, P.PageSize;
    if n > 2 {
      CyclesWithin(mmu, a, 2);
      CyclesWithin(mmu, a + 2, n - 2);
    }
  }

  /** The pushes stay in the frame's region. */
  lemma {:induction false} PushesWithin(mmu: P.Mmu, sp: u32, n: nat, sizes: seq<nat>)
    requires n <= sp && Exhausts(n, sizes)
    ensures forall c :: c in PushCycles(mmu, sp, n, sizes) ==> sp - n <= c.a < sp
    decreases |sizes|
  {
    hide P.Cycles;
    if sizes != [] {
      CyclesWithin(mmu, Sub32(sp, sizes[0]), sizes[0]);
      PushesWithin(mmu, Sub32(sp, sizes[0]), n - sizes[0], sizes[1..]);
    }
  }

  /** A mapping without holes and a host that refuses nothing where the entry
      goes grant it. */
  lemma MappedEntryGranted(model: Model, space: P.Space, sp: u32, vbr: u32)
    requires !model.Pre68020() && FaultFrameSize(model) <= sp && VectorAddress(vbr) + 4 <= P.TOP
    requires forall a: u32, n: nat, kind: P.Access :: sp - FaultFrameSize(model) <= a < sp ==> P.Answered(space, P.Cycle(a, n), kind)
    requires forall a: u32, n: nat, kind: P.Access ::
               VectorAddress(vbr) <= a < VectorAddress(vbr) + 4 ==> P.Answered(space, P.Cycle(a, n), kind)
    ensures EntryGranted(model, space, sp, vbr, None, None)
  {
    hide P.Answered, PushSizes, PushCycles, P.Cycles, Exhausts;
    PushSizesFit(model);
    PushesWithin(space.mmu, sp, FaultFrameSize(model), PushSizes(model));
    CyclesWithin(space.mmu, VectorAddress(vbr), 4);
    assert forall c: P.Cycle :: c == P.Cycle(c.a, c.n);
    P.AllAnswered(space, EntryCycles(model, space.mmu, sp), P.DataWrite);
    P.AllAnswered(space, VectorCycles(space.mmu, vbr), P.DataRead);
  }

  /** A push whose top byte is on a page that takes no writes is refused. */
  lemma RefusedTop(space: P.Space, sp: u32, n: nat, rest: seq<P.Cycle>)
    requires P.Maps(space.mmu) && P.Phys(space.mmu, Sub32(sp, 1), P.DataWrite).None? && 0 < n <= 4
    ensures !P.CyclesGranted(space, None, P.Cycles(space.mmu, Sub32(sp, n), n) + rest, P.DataWrite)
  {
    hide P.CyclesGranted, P.Cycles, P.Phys, P.Maps;
    var cycles := P.Cycles(space.mmu, Sub32(sp, n), n);
    WrapsAgain(sp - n, n - 1);
    if P.CyclesGranted(space, None, cycles + rest, P.DataWrite) {
      P.GrantedParts(space, cycles, rest, P.DataWrite);
      P.GrantedReaches(space, Sub32(sp, n), n, P.DataWrite);
    }
  }

  /** And a whole frame. */
  lemma RefusedPageRefusesEntry(model: Model, space: P.Space, sp: u32)
    requires !model.Pre68020() && P.Maps(space.mmu) && P.Phys(space.mmu, Sub32(sp, 1), P.DataWrite).None?
    ensures !P.CyclesGranted(space, None, EntryCycles(model, space.mmu, sp), P.DataWrite)
  {
    hide PushSizes, P.CyclesGranted, P.Cycles, P.Phys, P.Maps, Exhausts;
    var sizes := PushSizes(model);
    FirstPush(model);
    var rest := PushCycles(space.mmu, Sub32(sp, sizes[0]), FaultFrameSize(model) - sizes[0], sizes[1..]);
    assert EntryCycles(model, space.mmu, sp) == P.Cycles(space.mmu, Sub32(sp, sizes[0]), sizes[0]) + rest;
    RefusedTop(space, sp, sizes[0], rest);
  }

  lemma FirstPush(model: Model)
    requires !model.Pre68020()
    ensures PushSizes(model) != [] && 0 < PushSizes(model)[0] <= 4 && PushSizes(model)[0] <= FaultFrameSize(model)
  {
    hide PushSizes;
    PushSizesFit(model);
  }
}
