/** Nested exceptions are last-in-first-out: handlers that store, use the
    stack, change the supervisor mode and take further exceptions, to any depth,
    still return to exactly the context they interrupted. */
module ExceptionNesting {
  import opened Words
  import opened BusMemory
  import opened Exceptions
  import opened ExceptionReturn

  /** A piece of guest execution between two points with balanced stacks. */
  datatype Program = Done | Then(first: Action, rest: Program)

  datatype Action =
    | Store(at: nat, value: u8)                     // any byte the program writes
    | Flow(pc: u32, ppc: u32, ccr: nat)             // instructions that move the PC and set flags
    | Mask(ipl: nat, t1: bool)                      // supervisor code changing the mask or trace
    | OnStack(bytes: int, body: Program)            // A7 lowered or raised around the body
    | UnderSr(word: u16, body: Program)             // MOVE to SR, the body, and the old SR again
    | Take(cause: Cause, body: Program)             // exception entry, the handler body, RTE

  function SetSr(model: Model, c: Core, word: u16): (r: Core)
    requires Wf(model, c)
    ensures Wf(model, r)
  {
    c.(sr := Unpack(model, word))
  }

  function MoveA7(model: Model, c: Core, bytes: int): (r: Core)
    requires Wf(model, c)
    ensures Wf(model, r)
  {
    c.(stacks := c.stacks.Put(Active(model, c.sr), Add32(A7(model, c), bytes)))
  }

  /** Execution; None when an RTE runs into a third throwaway frame. */
  function Run(model: Model, c: Core, p: Program): (r: Option<Core>)
    requires Wf(model, c)
    ensures r.Some? ==> Wf(model, r.value)
    decreases p
  {
    match p
    case Done => Some(c)
    case Then(first, rest) =>
      var mid := RunAction(model, c, first);
      if mid.None? then None else Run(model, mid.value, rest)
  }

  function RunAction(model: Model, c: Core, a: Action): (r: Option<Core>)
    requires Wf(model, c)
    ensures r.Some? ==> Wf(model, r.value)
    decreases a
  {
    match a
    case Store(at, value) =>
      if at < |c.mem| then Some(c.(mem := c.mem[at := value])) else Some(c)
    case Flow(pc, ppc, ccr) =>
      Some(c.(pc := pc, ppc := ppc, sr := c.sr.(ccr := ccr % 0x20)))
    case Mask(ipl, t1) =>
      Some(c.(sr := c.sr.(ipl := ipl % 8, t1 := t1)))
    case OnStack(bytes, body) =>
      var done := Run(model, MoveA7(model, c, -bytes), body);
      if done.None? then None else Some(MoveA7(model, done.value, bytes))
    case UnderSr(word, body) =>
      var done := Run(model, SetSr(model, c, word), body);
      if done.None? then None else Some(SetSr(model, done.value, Pack(c.sr)))
    case Take(cause, body) =>
      if !Legal(model, cause) then None
      else
        var done := Run(model, Enter(model, c, cause), body);
        if done.None? then None else Rte(model, done.value, 1)
  }

  // ------------------------------------------------------- intact, disjoint

  datatype Region = Region(base: int, size: nat)

  predicate Inside(model: Model, live: seq<Region>, i: int) {
    exists r :: r in live && Covers(model.Bus(), r.base, r.size, i)
  }

  predicate Apart(model: Model, live: seq<Region>, r: Region) {
    forall i :: 0 <= i < model.Bus().Size() && Covers(model.Bus(), r.base, r.size, i) ==> !Inside(model, live, i)
  }

  function FirstRegion(model: Model, c: Core, k: Cause): Region
    requires Wf(model, c) && Legal(model, k)
  {
    Region(FrameBase(model, c, k), FrameSize(model, k))
  }

  function FrameRegions(model: Model, c: Core, k: Cause): seq<Region>
    requires Wf(model, c) && Legal(model, k)
  {
    [FirstRegion(model, c, k)] + if NeedsThrowaway(model, c, k) then [Region(ThrowawayBase(c), 8)] else []
  }

  /** Nothing in the program writes to a frame still waiting for its RTE, and
      new frames are pushed clear of them (and of each other). Mask and SR
      changes are made by supervisor code, and UnderSr stays supervisor. */
  predicate Safe(model: Model, c: Core, p: Program, live: seq<Region>)
    requires Wf(model, c)
    decreases p
  {
    match p
    case Done => true
    case Then(first, rest) =>
      && SafeAction(model, c, first, live)
      && (RunAction(model, c, first).Some? ==> Safe(model, RunAction(model, c, first).value, rest, live))
  }

  predicate SafeAction(model: Model, c: Core, a: Action, live: seq<Region>)
    requires Wf(model, c)
    decreases a
  {
    match a
    case Store(at, _) => !Inside(model, live, at)
    case Flow(_, _, _) => true
    case Mask(_, _) => c.sr.s
    case OnStack(bytes, body) => Safe(model, MoveA7(model, c, -bytes), body, live)
    case UnderSr(word, body) =>
      c.sr.s && Unpack(model, word).s && Safe(model, SetSr(model, c, word), body, live)
    case Take(cause, body) =>
      && Legal(model, cause)
      && Apart(model, live, FirstRegion(model, c, cause))
      && (NeedsThrowaway(model, c, cause) ==>
            Apart(model, live + [FirstRegion(model, c, cause)], Region(ThrowawayBase(c), 8)))
      && Safe(model, Enter(model, c, cause), body, live + FrameRegions(model, c, cause))
  }

  /** What a balanced piece of execution leaves as it was. */
  predicate Keeps(model: Model, c: Core, r: Core, live: seq<Region>)
    requires Wf(model, c) && Wf(model, r)
  {
    && r.stacks == c.stacks && r.sr.s == c.sr.s && r.sr.m == c.sr.m
    && r.vbr == c.vbr && r.readOverride == c.readOverride && r.writeSuppress == c.writeSuppress
    && forall i :: 0 <= i < model.Bus().Size() && Inside(model, live, i) ==> r.mem[i] == c.mem[i]
  }

  // ------------------------------------------------------------------ entry

  /** Entry writes nothing but its own frames. */
  lemma EntryTouchesOnlyItsFrames(model: Model, c: Core, k: Cause, i: nat)
    requires Wf(model, c) && Legal(model, k) && i < model.Bus().Size()
    requires !Inside(model, FrameRegions(model, c, k), i)
    ensures Enter(model, c, k).mem[i] == c.mem[i]
  {
    hide FirstFrame, ThrowawayFrame, FrameBase, ThrowawayBase, Enter;
    EntryMemory(model, c, k);
    FrameSizes(model, c, k);
    var bus, first := model.Bus(), FirstRegion(model, c, k);
    var regions := FrameRegions(model, c, k);
    assert first == regions[0] && !Covers(bus, first.base, first.size, i);
    WriteElsewhere(bus, c.mem, first.base, FirstFrame(model, c, k), i);
    if NeedsThrowaway(model, c, k) {
      var mem := Write(bus, c.mem, first.base, FirstFrame(model, c, k));
      assert regions[1] == Region(ThrowawayBase(c), 8) && !Covers(bus, regions[1].base, 8, i);
      WriteElsewhere(bus, mem, ThrowawayBase(c), ThrowawayFrame(c, k), i);
    }
  }

  /** The frames are in memory when the handler starts. */
  lemma EntryBuildsFrames(model: Model, c: Core, k: Cause)
    requires Wf(model, c) && Legal(model, k)
    requires NeedsThrowaway(model, c, k) ==>
               Apart(model, [FirstRegion(model, c, k)], Region(ThrowawayBase(c), 8))
    ensures FramesIntact(model, c, k, Enter(model, c, k).mem)
  {
    hide FirstFrame, ThrowawayFrame, FrameBase, ThrowawayBase, Enter;
    EntryMemory(model, c, k);
    FrameSizes(model, c, k);
    var bus := model.Bus();
    var sp, n := FrameBase(model, c, k), FrameSize(model, k);
    var first := Write(bus, c.mem, sp, FirstFrame(model, c, k));
    BlockReadsBack(bus, c.mem, sp, FirstFrame(model, c, k));
    if NeedsThrowaway(model, c, k) {
      var both := Write(bus, first, ThrowawayBase(c), ThrowawayFrame(c, k));
      BlockReadsBack(bus, first, ThrowawayBase(c), ThrowawayFrame(c, k));
      forall i | 0 <= i < bus.Size() && Covers(bus, sp, n, i)
        ensures both[i] == first[i]
      {
        var live := [FirstRegion(model, c, k)];
        assert live[0] in live && Inside(model, live, i);
        WriteElsewhere(bus, first, ThrowawayBase(c), ThrowawayFrame(c, k), i);
      }
      BlockUntouched(bus, first, both, sp, n);
    }
  }

  lemma FramesStayIntact(model: Model, c: Core, k: Cause, mem: seq<u8>, mem': seq<u8>)
    requires Wf(model, c) && Legal(model, k) && model.Bus().Holds(mem) && model.Bus().Holds(mem')
    requires FramesIntact(model, c, k, mem)
    requires forall i :: 0 <= i < model.Bus().Size() && Inside(model, FrameRegions(model, c, k), i) ==> mem'[i] == mem[i]
    ensures FramesIntact(model, c, k, mem')
  {
    hide FirstFrame, ThrowawayFrame, FrameBase, ThrowawayBase;
    var regions := FrameRegions(model, c, k);
    var first := FirstRegion(model, c, k);
    assert first == regions[0];
    forall i | 0 <= i < model.Bus().Size() && Covers(model.Bus(), first.base, first.size, i)
      ensures mem'[i] == mem[i]
    {
      assert first in regions && Inside(model, regions, i);
    }
    BlockUntouched(model.Bus(), mem, mem', first.base, first.size);
    if NeedsThrowaway(model, c, k) {
      var second := Region(ThrowawayBase(c), 8);
      assert second == regions[1];
      forall i | 0 <= i < model.Bus().Size() && Covers(model.Bus(), second.base, second.size, i)
        ensures mem'[i] == mem[i]
      {
        assert second in regions && Inside(model, regions, i);
      }
      BlockUntouched(model.Bus(), mem, mem', second.base, second.size);
    }
  }

  // --------------------------------------------------------------- theorem

  lemma InsideAppend(model: Model, live: seq<Region>, more: seq<Region>, i: int)
    ensures Inside(model, live + more, i) <==> Inside(model, live, i) || Inside(model, more, i)
  {
    if Inside(model, live, i) {
      var r :| r in live && Covers(model.Bus(), r.base, r.size, i);
      assert r in live + more;
    }
    if Inside(model, more, i) {
      var r :| r in more && Covers(model.Bus(), r.base, r.size, i);
      assert r in live + more;
    }
  }

  /** Frames pushed clear of the live ones leave those alone. */
  lemma EntryKeepsLive(model: Model, c: Core, k: Cause, live: seq<Region>)
    requires Wf(model, c) && Legal(model, k)
    requires Apart(model, live, FirstRegion(model, c, k))
    requires NeedsThrowaway(model, c, k) ==>
               Apart(model, live + [FirstRegion(model, c, k)], Region(ThrowawayBase(c), 8))
    ensures forall i :: 0 <= i < model.Bus().Size() && Inside(model, live, i) ==>
              Enter(model, c, k).mem[i] == c.mem[i]
    ensures NeedsThrowaway(model, c, k) ==>
              Apart(model, [FirstRegion(model, c, k)], Region(ThrowawayBase(c), 8))
  {
    hide Enter, FrameBase, ThrowawayBase, Covers;
    var first := FirstRegion(model, c, k);
    forall i | 0 <= i < model.Bus().Size() && Inside(model, live, i)
      ensures Enter(model, c, k).mem[i] == c.mem[i]
    {
      InsideAppend(model, live, [first], i);
      assert !Inside(model, FrameRegions(model, c, k), i);
      EntryTouchesOnlyItsFrames(model, c, k, i);
    }
    if NeedsThrowaway(model, c, k) {
      var second := Region(ThrowawayBase(c), 8);
      forall i | 0 <= i < model.Bus().Size() && Covers(model.Bus(), second.base, second.size, i)
        ensures !Inside(model, [first], i)
      {
        InsideAppend(model, live, [first], i);
      }
    }
  }

  /** A handler that keeps the state entry left it in returns to the
      interrupted context. */
  lemma HandlerReturns(model: Model, c: Core, k: Cause, h: Core, live: seq<Region>)
    requires Wf(model, c) && Legal(model, k) && Wf(model, h)
    requires Apart(model, live, FirstRegion(model, c, k))
    requires NeedsThrowaway(model, c, k) ==>
               Apart(model, live + [FirstRegion(model, c, k)], Region(ThrowawayBase(c), 8))
    requires Keeps(model, Enter(model, c, k), h, live + FrameRegions(model, c, k))
    ensures Rte(model, h, 1) == Some(h.(sr := c.sr, pc := StackedPc(c, k), stacks := c.stacks))
    ensures Keeps(model, c, h.(sr := c.sr, pc := StackedPc(c, k), stacks := c.stacks), live)
  {
    hide FramesIntact, FrameRegions, FirstRegion, Rte, Apart, Inside;
    var e := Enter(model, c, k);
    var own := FrameRegions(model, c, k);
    EntryKeepsLive(model, c, k, live);
    EntryBuildsFrames(model, c, k);
    EntryStacks(model, c, k);
    forall i | 0 <= i < model.Bus().Size()
      ensures Inside(model, live, i) || Inside(model, own, i) ==> h.mem[i] == e.mem[i]
    {
      InsideAppend(model, live, own, i);
    }
    FramesStayIntact(model, c, k, e.mem, h.mem);
    EntryThenRte(model, c, k, h);
  }

  lemma {:induction false} ActionKeeps(model: Model, c: Core, a: Action, live: seq<Region>)
    requires Wf(model, c) && SafeAction(model, c, a, live)
    ensures RunAction(model, c, a).Some? && Keeps(model, c, RunAction(model, c, a).value, live)
    decreases a
  {
    hide Enter, FrameRegions, FirstRegion, Rte, Apart, Inside, Unpack, Pack;
    match a
    case OnStack(bytes, body) =>
      var low := MoveA7(model, c, -bytes);
      NestingKeeps(model, low, body, live);
      StackPointerComesBack(A7(model, c), bytes);
    case UnderSr(word, body) =>
      NestingKeeps(model, SetSr(model, c, word), body, live);
      SrRoundTrip(model, c.sr);
    case Take(cause, body) =>
      TakeKeeps(model, c, cause, body, live);
    case _ =>
  }

  lemma StackPointerComesBack(sp: u32, bytes: int)
    ensures Add32(Add32(sp, -bytes), bytes) == sp
  {
  }

  lemma {:induction false} TakeKeeps(model: Model, c: Core, k: Cause, body: Program, live: seq<Region>)
    requires Wf(model, c) && SafeAction(model, c, Take(k, body), live)
    ensures var r := RunAction(model, c, Take(k, body));
            && r.Some? && Keeps(model, c, r.value, live)
            && r.value.sr == c.sr && r.value.pc == StackedPc(c, k)
    decreases body, 1
  {
    hide Enter, FrameRegions, FirstRegion, Rte, Apart, Inside, Keeps, NeedsThrowaway;
    var e := Enter(model, c, k);
    NestingKeeps(model, e, body, live + FrameRegions(model, c, k));
    HandlerReturns(model, c, k, Run(model, e, body).value, live);
  }

  /** Whatever a safe program nests, all three stack pointers, S and M, the
      one-shots and every live frame are as they were when it ends, and no RTE
      in it fails. */
  lemma {:induction false} NestingKeeps(model: Model, c: Core, p: Program, live: seq<Region>)
    requires Wf(model, c) && Safe(model, c, p, live)
    ensures Run(model, c, p).Some? && Keeps(model, c, Run(model, c, p).value, live)
    decreases p, 0
  {
    if p.Then? {
      ActionKeeps(model, c, p.first, live);
      NestingKeeps(model, RunAction(model, c, p.first).value, p.rest, live);
    }
  }

  /** Last in, first out: an exception whose handler is any safe program,
      nesting further exceptions to any depth, ends with the SR and stack
      pointers it interrupted and continues at the PC it stacked. */
  lemma ExceptionsAreLastInFirstOut(model: Model, c: Core, k: Cause, body: Program)
    requires Wf(model, c) && SafeAction(model, c, Take(k, body), [])
    ensures var r := RunAction(model, c, Take(k, body));
            && r.Some? && r.value.sr == c.sr && r.value.pc == StackedPc(c, k) && r.value.stacks == c.stacks
            && r.value.readOverride == c.readOverride && r.value.writeSuppress == c.writeSuppress
  {
    TakeKeeps(model, c, k, body, []);
  }
}
