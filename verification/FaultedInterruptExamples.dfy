/** Machine states in which a refused interrupt entry makes an instruction run
    twice, or leaves a core running that has no stack. */
module FaultedInterruptExamples {
  import opened Words
  import opened BusMemory
  import opened Exceptions
  import opened ExceptionReturn
  import opened FaultedInstruction
  import opened FaultedReturn
  import opened FaultedInterrupt
  import opened FaultedInterruptCases
  import opened FaultedReturnExamples
  import E = PagedEntry
  import N = ExceptionNesting
  import P = PagedAccess

  // ---------------------------------------------------------- an increment

  /** A 68030 in the master state, its stack at $4000 mapped, the interrupt stack
      at $1800 not, about to execute an increment of the byte at $2000. */
  function Before(): State {
    var sr, dar := Sr(false, false, true, true, 0, 0), seq<u32>(16, i => if i == 15 then 0x4000 else 0);
    State(dar, Stacks(0, 0x1800, 0), sr, 0x102, 0x100, 0, seq<u8>(0x1_0000_0000, i => 0), None, None, dar, Pack(sr),
          false, false, false, None, Paged(Some(0x1000), None))
  }

  function After(): State {
    Before().(pc := 0x104, mem := Before().mem[0x2000 := 1])
  }

  lemma Retires()
    ensures Runs(M68030, Before()) && Runs(M68030, After()) && Since(M68030, Before(), After())
    ensures LeavesMaster(M68030, After()) && E.EntryTop(M68030, CoreOf(M68030, After())) == 0x4000
    ensures CoreOf(M68030, After()).stacks == Stacks(0, 0x1800, 0x4000)
  {
    hide Paged, Pack;
  }

  lemma ContextWithin(mmu: P.Mmu, sp: u32)
    requires 8 <= sp
    ensures forall c :: c in ContextCycles(mmu, sp) ==> sp - 8 <= c.a && c.a + c.n <= sp && 0 < c.n
  {
    hide P.Cycles;
    E.CyclesWithin(mmu, sp - 2, 2);
    E.CyclesWithin(mmu, sp - 6, 4);
    E.CyclesWithin(mmu, sp - 8, 2);
  }

  lemma SecondFrameRefused(vector: nat)
    requires vector < 0x100
    ensures Runs(M68030, After()) && Pushes(M68030, After(), vector).refused.Some?
    ensures Pushes(M68030, After(), vector).suppress.None? && Pushes(M68030, After(), vector).mem[0x2000] == 1
  {
    hide Before, Paged, ContextCycles, P.CyclesGranted, P.Phys, InterruptStores, P.WriteCycles, Sound, P.Maps;
    Retires();
    var s, mmu := After(), After().space.mmu;
    PagedMaps(Some(0x1000), None);
    PagedAnswers(Some(0x1000), None, 0x17FF, 1, P.DataWrite);
    ContextRefused(s.space, 0x1800);
    RefusedIff(M68030, s, vector);
    if PushesGranted(M68030, s) {
      P.GrantedParts(s.space, ContextCycles(mmu, 0x4000), ContextCycles(mmu, 0x1800), P.DataWrite);
    }
    P.SuppressionOnlyUsed(s.space, s.mem, s.writeSuppress, InterruptStores(M68030, s, vector));
    FarFromTheByte();
    PushesElsewhere(M68030, s, vector, 0x2000);
  }

  lemma FarFromTheByte()
    ensures Runs(M68030, After())
    ensures forall c :: c in InterruptCycles(M68030, After()) ==> !P.Reaches(After().space, c, 0x2000)
  {
    hide Paged, ContextCycles, P.Phys, Sound;
    Retires();
    var mmu := After().space.mmu;
    ContextWithin(mmu, 0x4000);
    ContextWithin(mmu, 0x1800);
    forall c | c in InterruptCycles(M68030, After())
      ensures !P.Reaches(After().space, c, 0x2000)
    {
      PagedAnswers(Some(0x1000), None, c.a, c.n, P.DataWrite);
    }
  }

  function Start(vector: nat): (c: Core)
    requires vector < 0x100
    ensures Wf(M68030, c)
  {
    Retires();
    RefusedStart(M68030, Before(), After(), vector)
  }

  lemma StartFields(vector: nat)
    requires vector < 0x100
    ensures var c := Start(vector);
            && c.sr == Before().sr && c.ppc == 0x100 && c.vbr == 0 && c.stacks == Stacks(0, 0x1800, 0x4000)
            && c.readOverride.None? && c.writeSuppress.None? && c.mem[0x2000] == 1
  {
    hide Paged, Pushes, VectorRead, Pack;
    Retires();
    SecondFrameRefused(vector);
  }

  /** On the master stack and at the vector the mapping is straight. */
  lemma StartStraight(vector: nat)
    requires vector < 0x100
    ensures HandlerStraight(M68030, Before().space, Start(vector))
  {
    hide Paged, Start, P.Phys, E.EntryCycles, E.VectorCycles;
    StartFields(vector);
    NothingAt(M68030, Before().space, Start(vector));
    FrameWithin();
    forall c | c in E.EntryCycles(M68030, Before().space.mmu, 0x4000)
      ensures P.Phys(Before().space.mmu, c.a, P.DataWrite) == Some(c.a) && !Before().space.refuses(c.a, c.n, P.DataWrite)
    {
      Plainly(c.a, c.n, P.DataWrite);
    }
    forall c | c in E.VectorCycles(Before().space.mmu, 0)
      ensures P.Phys(Before().space.mmu, c.a, P.DataRead) == Some(c.a) && !Before().space.refuses(c.a, c.n, P.DataRead)
    {
      Plainly(c.a, c.n, P.DataRead);
    }
  }

  lemma Plainly(a: u32, n: nat, kind: P.Access)
    requires a < 0x1000 || 0x2000 <= a
    ensures P.Phys(Paged(Some(0x1000), None).mmu, a, kind) == Some(a) && !Paged(Some(0x1000), None).refuses(a, n, kind)
  {
    hide P.Phys;
    PagedAnswers(Some(0x1000), None, a, n, kind);
  }

  lemma FrameWithin()
    ensures forall c :: c in E.EntryCycles(M68030, Before().space.mmu, 0x4000) ==> 0x3FA4 <= c.a < 0x4000
    ensures forall c :: c in E.VectorCycles(Before().space.mmu, 0) ==> 8 <= c.a < 12
  {
    hide Paged, E.PushSizes, E.PushCycles, P.Cycles, E.Exhausts;
    E.PushSizesFit(M68030);
    E.PushesWithin(Before().space.mmu, 0x4000, 92, E.PushSizes(M68030));
    E.CyclesWithin(Before().space.mmu, 8, 4);
  }

  /** The byte has been incremented, an interrupt comes in, its second frame is
      refused: a handler that returns at once goes back to the increment, which
      has not happened to its registers, and finds the byte at 1. */
  lemma IncrementRunsTwice(env: Env, wdata: u32, level: nat, vector: nat, fetched: u32)
    requires level < 8 && vector < 0x100
    ensures Runs(M68030, After()) && Before().mem[0x2000] == 0
    ensures var handler := CoreOf(M68030, NextStep(M68030, Service(env, wdata, M68030, After(), level, vector), fetched));
            var back := Rte(M68030, handler, 1);
            && back.Some? && back.value.pc == Before().ppc && back.value.sr == Before().sr
            && A7(M68030, back.value) == Before().dar[15] && back.value.mem[0x2000] == 1
  {
    hide Before, RefusedStart, Service, NextStep, HandlerStraight, Paged, Since, EntryRefused, Rte, Enter, N.FrameRegions, N.Inside,
         Pushes, VectorRead, StacksAt;
    Retires();
    RefusedPushes(vector);
    StartFields(vector);
    StartStraight(vector);
    RunsAgainAtOnce(env, wdata, M68030, Before(), After(), level, vector, fetched);
    ByteKept(vector, InterruptFault(env, wdata, M68030, After(), vector));
  }

  lemma RefusedPushes(vector: nat)
    requires vector < 0x100
    ensures Runs(M68030, After()) && EntryRefused(M68030, After(), vector)
    ensures Before().mem[0x2000] == 0 && Before().ppc == 0x100 && Before().dar[15] == 0x4000
  {
    hide Paged, Pushes;
    SecondFrameRefused(vector);
  }

  lemma ByteKept(vector: nat, f: Fault)
    requires vector < 0x100 && Legal(M68030, AccessError(f))
    ensures Enter(M68030, Start(vector), AccessError(f)).mem[0x2000] == Start(vector).mem[0x2000]
  {
    hide Start, Enter;
    StartFields(vector);
    N.EntryTouchesOnlyItsFrames(M68030, Start(vector), AccessError(f), 0x2000);
  }

  // --------------------------------------------------------- no stack at all

  /** User code, and the page of the interrupt stack at $1800 is not mapped. */
  function User(): State {
    var sr, dar := Sr(false, false, false, false, 0, 0), seq<u32>(16, i => 0x3000);
    State(dar, Stacks(0, 0x1800, 0), sr, 0x102, 0x100, 0, seq<u8>(0x1_0000_0000, i => 0), None, None, dar, Pack(sr),
          false, false, false, None, Paged(Some(0x1000), None))
  }

  /** An interrupt behind its next instruction: the core runs on at address 0. */
  lemma UserRunsOn(env: Env, wdata: u32, level: nat, vector: nat, fetched: u32)
    requires level < 8 && vector < 0x100
    ensures Runs(M68030, User())
    ensures var done := NextStep(M68030, Service(env, wdata, M68030, User(), level, vector), fetched);
            && !done.stopped && !done.faulted && done.pc == 0 && done.sr.s
  {
    hide Paged, P.Phys, P.Maps, Service, NextStep, Pack;
    PagedMaps(Some(0x1000), None);
    PagedAnswers(Some(0x1000), None, 0x17FF, 1, P.DataWrite);
    UnmappedStackRunsOn(env, wdata, M68030, User(), User(), level, vector, fetched);
  }
}
