/** What the handlers behind an interrupt return to: an entry that is granted
    lets the interrupted code go on, one that is refused makes it run its last
    instruction again, and one refused twice does not stop the core. */
module FaultedInterruptCases {
  import opened Words
  import opened BusMemory
  import opened Exceptions
  import opened ExceptionReturn
  import opened FaultedInstruction
  import opened FaultedReturn
  import opened FaultedInterrupt
  import E = PagedEntry
  import N = ExceptionNesting
  import P = PagedAccess

  /** A granted entry, and any handler that leaves its frames alone: back to
      where the retired instruction has left the core. */
  lemma ServedInterruptGoesOn(env: Env, wdata: u32, model: Model, hit: State, level: nat, vector: nat, h: Core)
    requires Runs(model, hit) && !hit.faulted && hit.readOverride.None? && hit.writeSuppress.None?
    requires level < 8 && vector < 0x100 && InterruptStraight(model, hit, vector) && Wf(model, h)
    requires AtReturn(model, CoreOf(model, hit), Interrupt(level, vector), h)
    requires FramesIntact(model, CoreOf(model, hit), Interrupt(level, vector), h.mem)
    ensures CoreOf(model, Service(env, wdata, model, hit, level, vector))
            == Enter(model, CoreOf(model, hit), Interrupt(level, vector))
    ensures Rte(model, h, 1) == Some(h.(sr := hit.sr, pc := hit.pc, stacks := CoreOf(model, hit).stacks))
  {
    hide Service, InterruptStraight, AtReturn, FramesIntact, Rte, Enter, Active, Stored;
    GrantedInterruptIsEntry(env, wdata, model, hit, level, vector);
    EntryThenRte(model, CoreOf(model, hit), Interrupt(level, vector), h);
  }

  /** The entry to the handler of the fault is granted, and straight. */
  predicate HandlerStraight(model: Model, space: P.Space, start: Core) {
    && !E.StoresAt(model, space, start, start.writeSuppress) && !E.LoadsAt(model, space, start, start.readOverride)
    && E.Straight(space, E.EntryCycles(model, space.mmu, E.EntryTop(model, start)), P.DataWrite)
    && E.Straight(space, E.VectorCycles(space.mmu, start.vbr), P.DataRead)
  }

  /** A refused entry, and any handler of the fault that leaves its frame alone:
      back to the instruction that had retired, in the state it started in, with
      the memory it has written. */
  lemma RetiredInstructionRunsAgain(env: Env, wdata: u32, model: Model, s: State, hit: State, level: nat, vector: nat, fetched: u32,
                                    h: Core)
    requires Since(model, s, hit) && Runs(model, s) && Runs(model, hit) && level < 8 && vector < 0x100
    requires EntryRefused(model, hit, vector) && HandlerStraight(model, s.space, RefusedStart(model, s, hit, vector)) && Wf(model, h)
    requires var f := InterruptFault(env, wdata, model, hit, vector);
             && AtReturn(model, RefusedStart(model, s, hit, vector), AccessError(f), h)
             && FramesIntact(model, RefusedStart(model, s, hit, vector), AccessError(f), h.mem)
    ensures var f := InterruptFault(env, wdata, model, hit, vector);
            var done := NextStep(model, Service(env, wdata, model, hit, level, vector), fetched);
            && CoreOf(model, done).(ppc := s.ppc) == Enter(model, RefusedStart(model, s, hit, vector), AccessError(f))
            && done.dar[..15] == s.dar[..15]
    ensures Rte(model, h, 1) == Some(h.(sr := s.sr, pc := s.ppc, stacks := RefusedStart(model, s, hit, vector).stacks))
    ensures A7(model, Rte(model, h, 1).value) == s.dar[15]
  {
    hide Service, NextStep, EntryRefused, StacksAt, Pushes, VectorRead, AtReturn, FramesIntact, Rte, Enter, Since, E.StoresAt,
         E.LoadsAt, E.Straight, E.EntryCycles, E.VectorCycles, E.Entry;
    var start, f := RefusedStart(model, s, hit, vector), InterruptFault(env, wdata, model, hit, vector);
    RefusedInterruptRestarts(env, wdata, model, s, hit, level, vector, fetched);
    E.StraightEntry(model, s.space, start, f);
    E.EntryFields(model, start, AccessError(f));
    EntryThenRte(model, start, AccessError(f), h);
    var a7 := A7(model, E.Entry(model, s.space, start, f).0);
    assert s.dar[15 := a7][..15] == s.dar[..15];
  }

  /** In particular one that returns at once. */
  lemma RunsAgainAtOnce(env: Env, wdata: u32, model: Model, s: State, hit: State, level: nat, vector: nat, fetched: u32)
    requires Since(model, s, hit) && Runs(model, s) && Runs(model, hit) && level < 8 && vector < 0x100
    requires EntryRefused(model, hit, vector) && HandlerStraight(model, s.space, RefusedStart(model, s, hit, vector))
    ensures var h := CoreOf(model, NextStep(model, Service(env, wdata, model, hit, level, vector), fetched));
            && h.(ppc := s.ppc) == Enter(model, RefusedStart(model, s, hit, vector), AccessError(InterruptFault(env, wdata, model, hit, vector)))
            && Wf(model, h)
            && Rte(model, h, 1) == Some(h.(sr := s.sr, pc := s.ppc, stacks := RefusedStart(model, s, hit, vector).stacks))
  {
    hide Service, NextStep, EntryRefused, StacksAt, Pushes, VectorRead, Rte, Enter, Since, E.StoresAt, E.LoadsAt, E.Straight,
         E.EntryCycles, E.VectorCycles, E.Entry, N.FirstRegion, N.FrameRegions;
    var start, f := RefusedStart(model, s, hit, vector), InterruptFault(env, wdata, model, hit, vector);
    RefusedInterruptRestarts(env, wdata, model, s, hit, level, vector, fetched);
    E.StraightEntry(model, s.space, start, f);
    E.EntryFields(model, start, AccessError(f));
    N.HandlerReturns(model, start, AccessError(f), CoreOf(model, NextStep(model, Service(env, wdata, model, hit, level, vector), fetched)), []);
  }

  /** A refusal in the entry to the handler of that fault. Taken by an instruction
      it stops the core; here the core goes on where that entry has left it,
      with no frame of the handler's to return through if a push was refused. */
  lemma DoubleFaultRunsOn(env: Env, wdata: u32, model: Model, s: State, hit: State, level: nat, vector: nat, fetched: u32)
    requires Since(model, s, hit) && Runs(model, s) && Runs(model, hit) && level < 8 && vector < 0x100 && EntryRefused(model, hit, vector)
    requires var start := RefusedStart(model, s, hit, vector);
             !P.CyclesGranted(s.space, start.writeSuppress, E.EntryCycles(model, s.space.mmu, E.EntryTop(model, start)), P.DataWrite)
    ensures E.Entry(model, s.space, RefusedStart(model, s, hit, vector), InterruptFault(env, wdata, model, hit, vector)).1
    ensures var done := NextStep(model, Service(env, wdata, model, hit, level, vector), fetched);
            && !done.stopped && !done.faulted && done.pc == 0 && done.sr.s
  {
    hide Service, NextStep, EntryRefused, StacksAt, Pushes, VectorRead, Sound, Since, E.EntryCycles, P.CyclesGranted;
    var start, f := RefusedStart(model, s, hit, vector), InterruptFault(env, wdata, model, hit, vector);
    RefusedInterruptRestarts(env, wdata, model, s, hit, level, vector, fetched);
    RefusedPush(model, s.space, start, f);
  }

  lemma RefusedPush(model: Model, space: P.Space, c: Core, f: Fault)
    requires Wf(model, c) && Legal(model, AccessError(f)) && !model.Pre68020()
    requires !P.CyclesGranted(space, c.writeSuppress, E.EntryCycles(model, space.mmu, E.EntryTop(model, c)), P.DataWrite)
    ensures var (e, refused) := E.Entry(model, space, c, f); refused && e.pc == 0 && e.sr.s
  {
    hide Frame, UnderFrame, P.WriteCycles, P.PagedRead, P.CyclesGranted, E.PushStores, E.PushCycles, E.PushSizes, P.Seen, Pack;
    var frame, sp := FirstFrame(model, c, AccessError(f)), E.EntryTop(model, c);
    FrameSizes(model, c, AccessError(f));
    E.PushShape(space.mmu, sp, frame, E.PushSizes(model));
    P.WritesGranted(space, c.mem, c.writeSuppress, E.PushStores(space.mmu, sp, frame, E.PushSizes(model)));
  }

  // ---------------------------------------------------------- a halted core

  lemma FaultedContext(env: Env, wdata: u32, model: Model, x: State, word: u16, pc: u32, sr: u16)
    requires Runs(model, x) && x.faulted
    ensures var y := PushContext(env, wdata, model, x, word, pc, sr); SameMachine(x, y) && y.sr == x.sr
  {
    hide Active;
  }

  lemma FaultedFrames(env: Env, wdata: u32, model: Model, x: State, level: nat, vector: nat)
    requires Runs(model, x) && x.faulted && level < 8 && vector < 0x100
    ensures var y := PushFrames(env, wdata, model, x, level, vector); SameMachine(x, y) && y.sr.s
  {
    hide PushContext, Active, Pack, Unpack;
    var first := SwitchTo(model, x, InterruptSr(x.sr, level));
    FaultedContext(env, wdata, model, first, 4 * vector, x.pc, Pack(x.sr));
    var y := PushContext(env, wdata, model, first, 4 * vector, x.pc, Pack(x.sr));
    if y.sr.m && model.HasMasterStack() {
      FaultedContext(env, wdata, model, SwitchTo(model, y, y.sr.(s := true, m := false)), 0x1000 + 4 * vector, x.pc,
                     Pack(x.sr.(s := true)));
    }
  }

  /** A core that a double fault has halted does not stay so: an interrupt, which
      pushes and reads nothing, takes the stop back, and the next step the fault
      mode. */
  lemma InterruptRevivesHaltedCore(env: Env, wdata: u32, model: Model, x: State, level: nat, vector: nat, fetched: u32)
    requires Runs(model, x) && x.stopped && x.faulted && x.resume.None? && level < 8 && vector < 0x100
    ensures var done := NextStep(model, Service(env, wdata, model, x, level, vector), fetched);
            && !done.stopped && !done.faulted && done.sr.s && done.mem == x.mem && done.pc == fetched
  {
    hide PushFrames, Active, Pack;
    FaultedFrames(env, wdata, model, x, level, vector);
  }

  /** User code, and a supervisor stack whose top is on a page that takes no
      writes: any interrupt leaves the core running at address 0. */
  lemma UnmappedStackRunsOn(env: Env, wdata: u32, model: Model, s: State, hit: State, level: nat, vector: nat, fetched: u32)
    requires Since(model, s, hit) && Runs(model, s) && Runs(model, hit) && level < 8 && vector < 0x100
    requires !s.sr.s && !hit.sr.s && hit.writeSuppress.None?
    requires P.Maps(hit.space.mmu) && P.Phys(hit.space.mmu, Sub32(hit.banks.isp, 1), P.DataWrite).None?
    ensures EntryRefused(model, hit, vector)
    ensures var done := NextStep(model, Service(env, wdata, model, hit, level, vector), fetched);
            && !done.stopped && !done.faulted && done.pc == 0 && done.sr.s
  {
    hide Service, NextStep, E.EntryCycles, P.CyclesGranted, P.Maps, P.Phys, InterruptStores, P.WriteCycles, P.PagedRead, Pack, AtStart;
    FirstPushRefused(model, hit, vector);
    E.RefusedPageRefusesEntry(model, hit.space, hit.banks.isp);
    P.SuppressionOnlyUsed(hit.space, hit.mem, hit.writeSuppress, InterruptStores(model, hit, vector));
    DoubleFaultRunsOn(env, wdata, model, s, hit, level, vector, fetched);
  }

  lemma FirstPushRefused(model: Model, hit: State, vector: nat)
    requires Runs(model, hit) && !hit.sr.s && hit.writeSuppress.None? && vector < 0x100
    requires P.Maps(hit.space.mmu) && P.Phys(hit.space.mmu, Sub32(hit.banks.isp, 1), P.DataWrite).None?
    ensures EntryRefused(model, hit, vector)
  {
    hide P.CyclesGranted, P.Maps, P.Phys, Pushes, VectorRead, ContextCycles;
    RefusedIff(model, hit, vector);
    ContextRefused(hit.space, hit.banks.isp);
  }

  lemma ContextRefused(space: P.Space, sp: u32)
    requires P.Maps(space.mmu) && P.Phys(space.mmu, Sub32(sp, 1), P.DataWrite).None?
    ensures !P.CyclesGranted(space, None, ContextCycles(space.mmu, sp), P.DataWrite)
  {
    hide P.Cycles, P.CyclesGranted, P.Maps, P.Phys;
    var rest := P.Cycles(space.mmu, Sub32(sp, 6), 4) + P.Cycles(space.mmu, Sub32(sp, 8), 2);
    assert ContextCycles(space.mmu, sp) == P.Cycles(space.mmu, Sub32(sp, 2), 2) + rest;
    E.RefusedTop(space, sp, 2, rest);
  }
}
