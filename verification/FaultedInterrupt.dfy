/** Interrupt entry on the 68020 and later when one of its own accesses is
    refused. The entry belongs to no instruction, but the fault it takes is
    rolled back to the start of the one that has just retired. */
module FaultedInterrupt {
  import opened Words
  import opened BusMemory
  import opened Exceptions
  import opened ExceptionReturn
  import opened FaultedInstruction
  import opened FaultedReturn
  import E = PagedEntry
  import P = PagedAccess

  /** `write_16`, `write_32` in supervisor mode. `wdata` is what the frame of a
      refusal reports as the data of the write. */
  function WriteData(env: Env, wdata: u32, model: Model, s: State, a: u32, bytes: seq<u8>): (r: State)
    requires Runs(model, s)
    ensures Runs(model, r)
  {
    if s.faulted then s
    else
      var w := P.PagedWrite(s.space, s.mem, s.writeSuppress, a, bytes);
      var t := s.(mem := w.mem, writeSuppress := w.suppress);
      match w.refused
      case None => t
      case Some(x) => Trigger(model, t, FaultOf(env, s.sr, x).(write := true, wdata := wdata))
  }

  /** `push_16`, `push_32`: A7 moves whether or not the write is granted. */
  function Push(env: Env, wdata: u32, model: Model, s: State, bytes: seq<u8>): (r: State)
    requires Runs(model, s)
    ensures Runs(model, r)
  {
    var t := s.(dar := s.dar[15 := Sub32(s.dar[15], |bytes|)]);
    WriteData(env, wdata, model, t, t.dar[15], bytes)
  }

  /** Format and vector, PC and SR. */
  function PushContext(env: Env, wdata: u32, model: Model, s: State, word: u16, pc: u32, sr: u16): (r: State)
    requires Runs(model, s)
    ensures Runs(model, r)
  {
    Push(env, wdata, model, Push(env, wdata, model, Push(env, wdata, model, s, Bytes16(word)), Bytes32(pc)), Bytes16(sr))
  }

  function InterruptSr(sr: Sr, level: nat): Sr {
    sr.(t1 := false, t0 := false, s := true, ipl := level)
  }

  /** The frame of an interrupt, and the second one out of the master state. */
  function PushFrames(env: Env, wdata: u32, model: Model, s: State, level: nat, vector: nat): (r: State)
    requires Runs(model, s) && level < 8 && vector < 0x100
    ensures Runs(model, r)
  {
    var entered := SwitchTo(model, s, InterruptSr(s.sr, level));
    var first := PushContext(env, wdata, model, entered, 4 * vector, s.pc, Pack(s.sr));
    if !first.sr.m then first
    else if !model.HasMasterStack() then first.(sr := first.sr.(m := false))
    else
      var second := SwitchTo(model, first, first.sr.(s := true, m := false));
      PushContext(env, wdata, model, second, 0x1000 + 4 * vector, s.pc, Pack(s.sr.(s := true)))
  }

  /** `jump_vector`. */
  function JumpVector(env: Env, model: Model, s: State, vector: nat): (r: State)
    requires Runs(model, s) && vector < 0x100
    ensures Runs(model, r)
  {
    var (t, target) := ReadLong(env, model, s, Add32(4 * vector, s.vbr));
    t.(pc := target)
  }

  /** `service_interrupt`. Its last act is to take the core out of a stop. */
  function Service(env: Env, wdata: u32, model: Model, s: State, level: nat, vector: nat): (r: State)
    requires Runs(model, s) && level < 8 && vector < 0x100
    ensures Runs(model, r)
  {
    JumpVector(env, model, PushFrames(env, wdata, model, s, level, vector), vector).(stopped := false)
  }

  /** The next step: its snapshot, a fetch that cannot fault again, and the close
      of the fault that is still open. */
  function NextStep(model: Model, t: State, fetched: u32): (r: State)
    requires Runs(model, t)
    ensures Runs(model, r)
  {
    End(model, t.(ppc := t.pc, darSave := t.dar, srSave := Pack(t.sr), pc := fetched))
  }

  // -------------------------------------------------------- in place, on a core

  method WriteBytes(cpu: Cpu, env: Env, wdata: u32, a: u32, bytes: seq<u8>)
    requires Runs(cpu.model, cpu.View())
    modifies cpu
    ensures Runs(cpu.model, cpu.View()) && cpu.View() == WriteData(env, wdata, cpu.model, old(cpu.View()), a, bytes)
  {
    hide P.PagedWrite, Trigger, Active, Unpack;
    if cpu.berrMode {
      return;
    }
    var sr := cpu.sr;
    var w := P.PagedWrite(cpu.space, cpu.mem, cpu.writeSuppress, a, bytes);
    cpu.mem, cpu.writeSuppress := w.mem, w.suppress;
    if w.refused.Some? {
      cpu.TriggerBusError(FaultOf(env, sr, w.refused.value).(write := true, wdata := wdata));
    }
  }

  method PushBytes(cpu: Cpu, env: Env, wdata: u32, bytes: seq<u8>)
    requires Runs(cpu.model, cpu.View())
    modifies cpu
    ensures Runs(cpu.model, cpu.View()) && cpu.View() == Push(env, wdata, cpu.model, old(cpu.View()), bytes)
  {
    hide WriteData, Active, Unpack;
    cpu.dar := cpu.dar[15 := Sub32(cpu.dar[15], |bytes|)];
    WriteBytes(cpu, env, wdata, cpu.dar[15], bytes);
  }

  method PushWords(cpu: Cpu, env: Env, wdata: u32, word: u16, pc: u32, sr: u16)
    requires Runs(cpu.model, cpu.View())
    modifies cpu
    ensures Runs(cpu.model, cpu.View())
    ensures cpu.View() == PushContext(env, wdata, cpu.model, old(cpu.View()), word, pc, sr)
  {
    hide Push, Sound;
    PushBytes(cpu, env, wdata, Bytes16(word));
    PushBytes(cpu, env, wdata, Bytes32(pc));
    PushBytes(cpu, env, wdata, Bytes16(sr));
  }

  method PushInterruptFrames(cpu: Cpu, env: Env, wdata: u32, level: nat, vector: nat)
    requires Runs(cpu.model, cpu.View()) && level < 8 && vector < 0x100
    modifies cpu
    ensures Runs(cpu.model, cpu.View())
    ensures cpu.View() == PushFrames(env, wdata, cpu.model, old(cpu.View()), level, vector)
  {
    hide PushContext, Active, Pack;
    var oldSr, stacked := cpu.sr, cpu.pc;
    cpu.SetFlagsBanked(InterruptSr(cpu.sr, level));
    PushWords(cpu, env, wdata, 4 * vector, stacked, Pack(oldSr));
    if cpu.sr.m && cpu.model.HasMasterStack() {
      cpu.SetFlagsBanked(cpu.sr.(s := true, m := false));
      PushWords(cpu, env, wdata, 0x1000 + 4 * vector, stacked, Pack(oldSr.(s := true)));
    } else if cpu.sr.m {
      cpu.sr := cpu.sr.(m := false);
    }
  }

  method ServiceInterrupt(cpu: Cpu, env: Env, wdata: u32, level: nat, vector: nat)
    requires Runs(cpu.model, cpu.View()) && level < 8 && vector < 0x100
    modifies cpu
    ensures Runs(cpu.model, cpu.View())
    ensures cpu.View() == Service(env, wdata, cpu.model, old(cpu.View()), level, vector)
  {
    hide PushFrames, ReadLong, Active, Unpack;
    PushInterruptFrames(cpu, env, wdata, level, vector);
    cpu.pc := FaultedReturn.Read32(cpu, env, Add32(4 * vector, cpu.vbr));
    cpu.stopped := false;
  }

  // ------------------------------------------------------- what it asks the bus

  function ContextStores(mmu: P.Mmu, sp: u32, word: u16, pc: u32, sr: u16): seq<P.Store> {
    P.Stores(mmu, Sub32(sp, 2), Bytes16(word)) + P.Stores(mmu, Sub32(sp, 6), Bytes32(pc))
    + P.Stores(mmu, Sub32(sp, 8), Bytes16(sr))
  }

  /** The cycles of one context pushed below `sp`. */
  function ContextCycles(mmu: P.Mmu, sp: u32): seq<P.Cycle> {
    P.Cycles(mmu, Sub32(sp, 2), 2) + P.Cycles(mmu, Sub32(sp, 6), 4) + P.Cycles(mmu, Sub32(sp, 8), 2)
  }

  predicate LeavesMaster(model: Model, hit: State) {
    hit.sr.m && model.HasMasterStack()
  }

  /** The stores of the entry from `hit`, in bus order. */
  function InterruptStores(model: Model, hit: State, vector: nat): seq<P.Store>
    requires Runs(model, hit) && vector < 0x100
  {
    var c, mmu := CoreOf(model, hit), hit.space.mmu;
    var first := ContextStores(mmu, E.EntryTop(model, c), 4 * vector, hit.pc, Pack(hit.sr));
    if LeavesMaster(model, hit) then
      first + ContextStores(mmu, c.stacks.isp, 0x1000 + 4 * vector, hit.pc, Pack(hit.sr.(s := true)))
    else first
  }

  /** What becomes of them, and of the vector read behind them. */
  function Pushes(model: Model, hit: State, vector: nat): (w: P.Written)
    requires Runs(model, hit) && vector < 0x100
    ensures |w.mem| == P.TOP
  {
    P.WriteCycles(hit.space, hit.mem, hit.writeSuppress, InterruptStores(model, hit, vector))
  }

  function VectorRead(model: Model, hit: State, vector: nat): P.Read
    requires Runs(model, hit) && vector < 0x100
  {
    P.PagedRead(hit.space, Pushes(model, hit, vector).mem, hit.readOverride, Add32(4 * vector, hit.vbr), 4, P.DataRead)
  }

  predicate EntryRefused(model: Model, hit: State, vector: nat)
    requires Runs(model, hit) && vector < 0x100
  {
    Pushes(model, hit, vector).refused.Some? || VectorRead(model, hit, vector).refused.Some?
  }

  function DataFault(env: Env, write: bool, wdata: u32, r: P.Refusal): Fault {
    Fault(write, false, r.size, r.address, wdata, SUPERVISOR_DATA, r.Unmapped?, env.fslw)
  }

  /** The fault the entry takes. */
  function InterruptFault(env: Env, wdata: u32, model: Model, hit: State, vector: nat): (f: Fault)
    requires Runs(model, hit) && vector < 0x100 && EntryRefused(model, hit, vector)
    ensures Legal(model, AccessError(f))
  {
    var w := Pushes(model, hit, vector);
    if w.refused.Some? then DataFault(env, true, wdata, w.refused.value)
    else DataFault(env, false, 0, VectorRead(model, hit, vector).refused.value)
  }

  /** The stacks when it takes it: those the retired instruction has left, but
      for a first frame pushed out of the master state and left behind. */
  function StacksAt(model: Model, hit: State, vector: nat): Stacks
    requires Runs(model, hit) && vector < 0x100
  {
    var c := CoreOf(model, hit);
    var first := ContextStores(hit.space.mmu, E.EntryTop(model, c), 4 * vector, hit.pc, Pack(hit.sr));
    if LeavesMaster(model, hit) && P.WriteCycles(hit.space, hit.mem, hit.writeSuppress, first).refused.None? then
      c.stacks.Put(MSP, Sub32(c.stacks.msp, 8))
    else c.stacks
  }

  /** What it goes back to: the start `s` of the instruction that has retired in
      `hit`, over the memory, one-shots and other stacks that instruction and
      the entry have left. */
  function RefusedStart(model: Model, s: State, hit: State, vector: nat): (c: Core)
    requires Runs(model, s) && Runs(model, hit) && vector < 0x100
    ensures Wf(model, c)
  {
    var w := Pushes(model, hit, vector);
    CoreOf(model, s).(stacks := StacksAt(model, hit, vector).Put(Active(model, s.sr), s.dar[15]), mem := w.mem,
                      readOverride := if w.refused.Some? then hit.readOverride else VectorRead(model, hit, vector).over,
                      writeSuppress := w.suppress)
  }

  /** The write cycles of the entry. */
  function InterruptCycles(model: Model, hit: State): seq<P.Cycle>
    requires |hit.dar| == 16
  {
    var c, mmu := CoreOf(model, hit), hit.space.mmu;
    var first := ContextCycles(mmu, E.EntryTop(model, c));
    if LeavesMaster(model, hit) then first + ContextCycles(mmu, c.stacks.isp) else first
  }

  predicate PushesGranted(model: Model, hit: State)
    requires |hit.dar| == 16
  {
    P.CyclesGranted(hit.space, hit.writeSuppress, InterruptCycles(model, hit), P.DataWrite)
  }

  predicate VectorGranted(hit: State, vector: nat)
    requires vector < 0x100
  {
    P.CyclesGranted(hit.space, P.ArmedFor(hit.readOverride, P.DataRead),
                    P.Cycles(hit.space.mmu, Add32(4 * vector, hit.vbr), 4), P.DataRead)
  }

  lemma ContextShape(mmu: P.Mmu, sp: u32, word: u16, pc: u32, sr: u16)
    ensures P.Shape(ContextStores(mmu, sp, word, pc, sr)) == ContextCycles(mmu, sp)
  {
    hide P.Stores, P.Cycles, P.Shape, Bytes16, Bytes32;
    var a, b, c := P.Stores(mmu, Sub32(sp, 2), Bytes16(word)), P.Stores(mmu, Sub32(sp, 6), Bytes32(pc)),
                   P.Stores(mmu, Sub32(sp, 8), Bytes16(sr));
    P.ShapeOfStores(mmu, Sub32(sp, 2), Bytes16(word));
    P.ShapeOfStores(mmu, Sub32(sp, 6), Bytes32(pc));
    P.ShapeOfStores(mmu, Sub32(sp, 8), Bytes16(sr));
    P.ShapeJoins(a, b);
    P.ShapeJoins(a + b, c);
  }

  lemma InterruptShape(model: Model, hit: State, vector: nat)
    requires Runs(model, hit) && vector < 0x100
    ensures P.Shape(InterruptStores(model, hit, vector)) == InterruptCycles(model, hit)
  {
    hide ContextStores, ContextCycles, P.Shape, Pack, Active;
    var c, mmu := CoreOf(model, hit), hit.space.mmu;
    var one := ContextStores(mmu, E.EntryTop(model, c), 4 * vector, hit.pc, Pack(hit.sr));
    var two := ContextStores(mmu, c.stacks.isp, 0x1000 + 4 * vector, hit.pc, Pack(hit.sr.(s := true)));
    ContextShape(mmu, E.EntryTop(model, c), 4 * vector, hit.pc, Pack(hit.sr));
    ContextShape(mmu, c.stacks.isp, 0x1000 + 4 * vector, hit.pc, Pack(hit.sr.(s := true)));
    P.ShapeJoins(one, two);
  }

  /** The entry is refused exactly when one of its cycles is, the one-shots
      counted in. */
  lemma RefusedIff(model: Model, hit: State, vector: nat)
    requires Runs(model, hit) && vector < 0x100
    ensures Pushes(model, hit, vector).refused.Some? <==> !PushesGranted(model, hit)
    ensures EntryRefused(model, hit, vector) <==> !PushesGranted(model, hit) || !VectorGranted(hit, vector)
  {
    hide InterruptStores, InterruptCycles, P.Cycles, P.CyclesGranted, P.WriteCycles, P.ReadCycles, P.Shape, P.Seen, Active;
    var a := Add32(4 * vector, hit.vbr);
    InterruptShape(model, hit, vector);
    P.WritesGranted(hit.space, hit.mem, hit.writeSuppress, InterruptStores(model, hit, vector));
    P.SplitRead(hit.space.mmu, a, 4);
    P.ReadsGranted(hit.space, Pushes(model, hit, vector).mem, hit.readOverride, P.Cycles(hit.space.mmu, a, 4), P.DataRead);
  }

  /** A byte none of its write cycles lands on is as the retired instruction has
      left it. */
  lemma PushesElsewhere(model: Model, hit: State, vector: nat, i: nat)
    requires Runs(model, hit) && vector < 0x100 && i < P.TOP
    requires forall c :: c in InterruptCycles(model, hit) ==> !P.Reaches(hit.space, c, i)
    ensures Pushes(model, hit, vector).mem[i] == hit.mem[i]
  {
    hide InterruptStores, InterruptCycles, P.WriteCycles, P.Shape, P.Reaches, Active;
    InterruptShape(model, hit, vector);
    P.WritesElsewhere(hit.space, hit.mem, hit.writeSuppress, InterruptStores(model, hit, vector), i);
  }

  // ------------------------------------------------------------ the fault in it

  /** The rest of the entry behind a dispatched fault: registers, and at most one
      switch away from the handler's stack. */
  ghost predicate Follows(model: Model, h: State, x: State) {
    Runs(model, x) && x.faulted && SameMachine(h, x) && SameElsewhere(Active(model, h.sr), x.banks, h.banks)
  }

  lemma PushFollows(env: Env, wdata: u32, model: Model, h: State, x: State, bytes: seq<u8>)
    requires Runs(model, x) && Follows(model, h, x)
    ensures Follows(model, h, Push(env, wdata, model, x, bytes)) && Push(env, wdata, model, x, bytes).sr == x.sr
  {
    hide Active;
  }

  lemma SwitchFollows(model: Model, h: State, x: State, sr: Sr)
    requires Runs(model, x) && Follows(model, h, x) && x.sr == h.sr && Stored(model, sr)
    ensures Follows(model, h, SwitchTo(model, x, sr))
  {
    hide Active;
  }

  lemma ContextFollows(env: Env, wdata: u32, model: Model, h: State, x: State, word: u16, pc: u32, sr: u16)
    requires Runs(model, x) && Follows(model, h, x)
    ensures Follows(model, h, PushContext(env, wdata, model, x, word, pc, sr))
  {
    hide Push, Follows;
    PushFollows(env, wdata, model, h, x, Bytes16(word));
    var one := Push(env, wdata, model, x, Bytes16(word));
    PushFollows(env, wdata, model, h, one, Bytes32(pc));
    PushFollows(env, wdata, model, h, Push(env, wdata, model, one, Bytes32(pc)), Bytes16(sr));
  }

  /** The retired instruction started in `s` and has left `x`: no fault since. */
  ghost predicate Since(model: Model, s: State, x: State) {
    && Runs(model, s) && AtStart(model, s) && Runs(model, x) && SameSnapshot(s, x)
  }

  /** `y` is what `stores` have made of `x`: a state with those done, or the fault
      that one of them has met in `at`, dispatched and followed up. */
  ghost predicate Done(env: Env, wdata: u32, model: Model, s: State, x: State, stores: seq<P.Store>, banks: Stacks, at: State, y: State)
    requires Runs(model, x)
  {
    var w := P.WriteCycles(x.space, x.mem, x.writeSuppress, stores);
    && Since(model, s, at) && Runs(model, y) && at.banks == banks && x.space == s.space && y.faulted == w.refused.Some?
    && at.mem == w.mem && at.writeSuppress == w.suppress && at.readOverride == x.readOverride
    && match w.refused
       case Some(r) =>
         Legal(model, AccessError(DataFault(env, true, wdata, r)))
         && Follows(model, Dispatch(model, at, DataFault(env, true, wdata, r)), y)
       case None =>
         Since(model, s, y) && y.banks == banks && y.mem == w.mem && y.writeSuppress == w.suppress && y.readOverride == x.readOverride
  }

  /** The mode a part of the entry goes on in. */
  ghost predicate InMode(s: State, x: State, y: State) {
    y.sr == if y.faulted then SupervisorSr(s.sr, Simple(BUS_ERROR)) else x.sr
  }

  lemma DispatchMode(model: Model, s: State, at: State, f: Fault)
    requires Since(model, s, at) && Legal(model, AccessError(f))
    ensures Dispatch(model, at, f).sr == SupervisorSr(s.sr, Simple(BUS_ERROR))
  {
    hide E.Entry, Restart, Pack, AtStart, Dispatch, Sound;
    DispatchRestarts(model, s, at, f);
  }

  lemma PushDone(env: Env, wdata: u32, model: Model, s: State, x: State, bytes: seq<u8>) returns (at: State)
    requires Since(model, s, x) && Runs(model, x) && x.sr.s
    ensures var y, a := Push(env, wdata, model, x, bytes), Sub32(x.dar[15], |bytes|);
            && Done(env, wdata, model, s, x, P.Stores(x.space.mmu, a, bytes), x.banks, at, y) && InMode(s, x, y)
            && (!y.faulted ==> y.dar == x.dar[15 := a])
  {
    hide P.WriteCycles, P.Stores, Dispatch, Pack, Unpack, Active, Stored;
    var t := x.(dar := x.dar[15 := Sub32(x.dar[15], |bytes|)]);
    var w := P.PagedWrite(t.space, t.mem, t.writeSuppress, t.dar[15], bytes);
    at := t.(mem := w.mem, writeSuppress := w.suppress);
    if w.refused.Some? {
      DispatchMode(model, s, at, DataFault(env, true, wdata, w.refused.value));
    }
  }

  /** One more push. */
  lemma ThenPush(env: Env, wdata: u32, model: Model, s: State, x: State, stores: seq<P.Store>, at: State, y: State, a: u32, bytes: seq<u8>)
    returns (at': State)
    requires Runs(model, x) && x.sr.s && Runs(model, y) && Done(env, wdata, model, s, x, stores, x.banks, at, y) && InMode(s, x, y)
    requires !y.faulted ==> Sub32(y.dar[15], |bytes|) == a
    ensures var z := Push(env, wdata, model, y, bytes);
            && Done(env, wdata, model, s, x, stores + P.Stores(x.space.mmu, a, bytes), x.banks, at', z) && InMode(s, x, z)
            && (!z.faulted ==> !y.faulted && z.dar == y.dar[15 := a])
  {
    hide P.WriteCycles, P.Stores, Dispatch, Pack, Unpack, Active, AtStart, Push;
    P.WriteCyclesAppend(x.space, x.mem, x.writeSuppress, stores, P.Stores(x.space.mmu, a, bytes));
    at' := at;
    if y.faulted {
      var w := P.WriteCycles(x.space, x.mem, x.writeSuppress, stores);
      PushFollows(env, wdata, model, Dispatch(model, at, DataFault(env, true, wdata, w.refused.value)), y, bytes);
    } else {
      at' := PushDone(env, wdata, model, s, y, bytes);
    }
  }

  lemma ContextDone(env: Env, wdata: u32, model: Model, s: State, x: State, word: u16, pc: u32, sr: u16)
    returns (at: State)
    requires Since(model, s, x) && Runs(model, x) && x.sr.s
    ensures var y, sp := PushContext(env, wdata, model, x, word, pc, sr), x.dar[15];
            && Done(env, wdata, model, s, x, ContextStores(x.space.mmu, sp, word, pc, sr), x.banks, at, y) && InMode(s, x, y)
            && (!y.faulted ==> y.dar == x.dar[15 := Sub32(sp, 8)])
  {
    hide Push, Done, InMode, Since, P.Stores, Bytes16, Bytes32;
    var sp, mmu := x.dar[15], x.space.mmu;
    PopsAdd(sp, 2, 4);
    PopsAdd(sp, 6, 2);
    at := PushDone(env, wdata, model, s, x, Bytes16(word));
    var one := Push(env, wdata, model, x, Bytes16(word));
    var stores := P.Stores(mmu, Sub32(sp, 2), Bytes16(word));
    at := ThenPush(env, wdata, model, s, x, stores, at, one, Sub32(sp, 6), Bytes32(pc));
    var two := Push(env, wdata, model, one, Bytes32(pc));
    stores := stores + P.Stores(mmu, Sub32(sp, 6), Bytes32(pc));
    at := ThenPush(env, wdata, model, s, x, stores, at, two, Sub32(sp, 8), Bytes16(sr));
  }

  lemma MasterBank(model: Model, x: State)
    ensures x.sr.s && x.sr.m && model.HasMasterStack() ==> Active(model, x.sr) == MSP
  {
  }

  lemma FirstSwitch(model: Model, s: State, hit: State, level: nat)
    requires Since(model, s, hit) && Runs(model, hit) && level < 8
    ensures Stored(model, InterruptSr(hit.sr, level))
    ensures var x := SwitchTo(model, hit, InterruptSr(hit.sr, level));
            && Since(model, s, x) && Runs(model, x) && x.banks == CoreOf(model, hit).stacks && x.sr == InterruptSr(hit.sr, level)
            && x.dar[15] == E.EntryTop(model, CoreOf(model, hit)) && Alike(hit, x)
  {
    hide Pack, AtStart;
  }

  /** Their accesses meet the same. */
  ghost predicate Alike(x: State, y: State) {
    x.space == y.space && x.mem == y.mem && x.writeSuppress == y.writeSuppress && x.readOverride == y.readOverride
  }

  lemma SecondSwitch(model: Model, s: State, hit: State, first: State)
    requires Since(model, s, first) && Runs(model, first) && Runs(model, hit)
    requires first.banks == CoreOf(model, hit).stacks && first.sr.s && first.sr.m && LeavesMaster(model, hit)
    requires first.dar[15] == Sub32(first.banks.msp, 8)
    ensures var x := SwitchTo(model, first, first.sr.(s := true, m := false));
            && Since(model, s, x) && Runs(model, x) && x.banks == first.banks.Put(MSP, Sub32(first.banks.msp, 8))
            && x.sr.s && x.dar[15] == first.banks.isp && Alike(first, x)
  {
    hide Pack, AtStart;
  }

  /** The second frame, behind a first one that was refused. */
  lemma SecondFollows(env: Env, wdata: u32, model: Model, s: State, x: State, stores: seq<P.Store>, at: State, first: State,
                      word: u16, pc: u32, sr: u16)
    requires Runs(model, x) && Runs(model, first) && first.faulted
    requires Done(env, wdata, model, s, x, stores, x.banks, at, first) && InMode(s, x, first)
    ensures Stored(model, first.sr.(s := true, m := false))
    ensures Done(env, wdata, model, s, x, stores, x.banks, at,
                 PushContext(env, wdata, model, SwitchTo(model, first, first.sr.(s := true, m := false)), word, pc, sr))
  {
    hide PushContext, P.WriteCycles, AtStart, Dispatch, Pack, Unpack, Active;
    var w := P.WriteCycles(x.space, x.mem, x.writeSuppress, stores);
    var f := DataFault(env, true, wdata, w.refused.value);
    DispatchMode(model, s, at, f);
    SwitchFollows(model, Dispatch(model, at, f), first, first.sr.(s := true, m := false));
    ContextFollows(env, wdata, model, Dispatch(model, at, f),
                   SwitchTo(model, first, first.sr.(s := true, m := false)), word, pc, sr);
  }

  /** Behind one that was granted. */
  lemma SecondDone(env: Env, wdata: u32, model: Model, s: State, hit: State, x: State, stores: seq<P.Store>, at: State, first: State,
                   word: u16, pc: u32, sr: u16)
    returns (at': State)
    requires Runs(model, hit) && Runs(model, x) && Runs(model, first) && LeavesMaster(model, hit) && first.sr.m && x.sr.s
    requires Done(env, wdata, model, s, x, stores, x.banks, at, first) && InMode(s, x, first) && !first.faulted
    requires x.banks == CoreOf(model, hit).stacks && first.dar[15] == Sub32(x.banks.msp, 8)
    ensures Stored(model, first.sr.(s := true, m := false))
    ensures Done(env, wdata, model, s, x, stores + ContextStores(x.space.mmu, x.banks.isp, word, pc, sr),
                 x.banks.Put(MSP, Sub32(x.banks.msp, 8)), at',
                 PushContext(env, wdata, model, SwitchTo(model, first, first.sr.(s := true, m := false)), word, pc, sr))
    ensures PushContext(env, wdata, model, SwitchTo(model, first, first.sr.(s := true, m := false)), word, pc, sr).sr.s
  {
    hide PushContext, ContextStores, P.WriteCycles, AtStart, Dispatch, Pack, Unpack, Active;
    P.WriteCyclesAppend(x.space, x.mem, x.writeSuppress, stores, ContextStores(x.space.mmu, x.banks.isp, word, pc, sr));
    SecondSwitch(model, s, hit, first);
    at' := ContextDone(env, wdata, model, s, SwitchTo(model, first, first.sr.(s := true, m := false)), word, pc, sr);
  }

  lemma DroppedM(env: Env, wdata: u32, model: Model, s: State, x: State, stores: seq<P.Store>, banks: Stacks, at: State, y: State)
    requires Runs(model, x) && Runs(model, y) && Done(env, wdata, model, s, x, stores, banks, at, y)
    ensures Runs(model, y.(sr := y.sr.(m := false)))
    ensures Done(env, wdata, model, s, x, stores, banks, at, y.(sr := y.sr.(m := false)))
  {
    hide Pack, Unpack, AtStart, Dispatch, P.WriteCycles;
  }

  lemma FramesDone(env: Env, wdata: u32, model: Model, s: State, hit: State, level: nat, vector: nat)
    returns (at: State)
    requires Since(model, s, hit) && Runs(model, hit) && level < 8 && vector < 0x100
    ensures var y := PushFrames(env, wdata, model, hit, level, vector);
            && Done(env, wdata, model, s, hit, InterruptStores(model, hit, vector), StacksAt(model, hit, vector), at, y)
            && (!y.faulted ==> y.sr.s)
  {
    hide PushContext, ContextStores, P.WriteCycles, Pack, AtStart, Dispatch, Since, Active;
    FirstSwitch(model, s, hit, level);
    var x := SwitchTo(model, hit, InterruptSr(hit.sr, level));
    var stores := ContextStores(x.space.mmu, x.dar[15], 4 * vector, hit.pc, Pack(hit.sr));
    at := ContextDone(env, wdata, model, s, x, 4 * vector, hit.pc, Pack(hit.sr));
    var first := PushContext(env, wdata, model, x, 4 * vector, hit.pc, Pack(hit.sr));
    var word, sr := 0x1000 + 4 * vector, Pack(hit.sr.(s := true));
    P.WriteCyclesAppend(x.space, x.mem, x.writeSuppress, stores, ContextStores(x.space.mmu, x.banks.isp, word, hit.pc, sr));
    if !first.sr.m {
    } else if !model.HasMasterStack() {
      DroppedM(env, wdata, model, s, x, stores, x.banks, at, first);
    } else if first.faulted {
      SecondFollows(env, wdata, model, s, x, stores, at, first, word, hit.pc, sr);
    } else {
      MasterBank(model, x);
      at := SecondDone(env, wdata, model, s, hit, x, stores, at, first, word, hit.pc, sr);
    }
  }

  lemma VectorDone(env: Env, wdata: u32, model: Model, s: State, hit: State, at: State, y: State, vector: nat)
    returns (at': State)
    requires Since(model, s, hit) && Runs(model, hit) && Runs(model, y) && vector < 0x100 && (!y.faulted ==> y.sr.s)
    requires Done(env, wdata, model, s, hit, InterruptStores(model, hit, vector), StacksAt(model, hit, vector), at, y)
    ensures JumpVector(env, model, y, vector).faulted <==> EntryRefused(model, hit, vector)
    ensures EntryRefused(model, hit, vector) ==>
              && Since(model, s, at') && Runs(model, s) && Restart(model, s, at') == RefusedStart(model, s, hit, vector)
              && Follows(model, Dispatch(model, at', InterruptFault(env, wdata, model, hit, vector)), JumpVector(env, model, y, vector))
  {
    hide P.PagedRead, P.Seen, InterruptStores, StacksAt, Pack, Unpack, Handler, Rolled, P.WriteCycles, Active, Stored;
    at' := at;
    if !y.faulted {
      var got := P.PagedRead(SpaceOf(env, y), y.mem, y.readOverride, Add32(4 * vector, y.vbr), 4, P.DataRead);
      assert got == VectorRead(model, hit, vector);
      at' := y.(readOverride := got.over);
    }
  }

  /** The next step closes the fault; a stop of the core has been taken back. */
  lemma FollowsCloses(model: Model, h: State, x: State, fetched: u32)
    requires Sound(model, h) && Captured(model, h) && Runs(model, x) && Follows(model, h, x)
    ensures var done := NextStep(model, x.(stopped := false), fetched);
            && CoreOf(model, done) == CoreOf(model, h).(ppc := x.pc) && done.dar == h.dar
            && !done.stopped && !done.faulted
  {
    hide Pack, Unpack, Active;
    SrRoundTrip(model, h.sr);
  }

  lemma HandlerRegisters(model: Model, s: State, at: State, f: Fault)
    requires Since(model, s, at) && Runs(model, s) && Legal(model, AccessError(f))
    ensures Sound(model, at)
    ensures var h, entry := Dispatch(model, at, f), E.Entry(model, s.space, Restart(model, s, at), f).0;
            Captured(model, h) && CoreOf(model, h) == entry && h.dar == s.dar[15 := A7(model, entry)]
  {
    hide E.Entry, Restart, Dispatch, Captured, Pack, AtStart;
    DispatchRestarts(model, s, at, f);
    A7IsRegister(model, Dispatch(model, at, f));
    OnlyA7(s.dar, Dispatch(model, at, f).dar);
  }

  /** An interrupt entry one of whose accesses is refused: the next step begins
      in the handler of the fault, and the frame that handler gets is that of the
      instruction which had retired, with its SR, PC and registers of the start,
      over what it and the entry have stored. */
  lemma RefusedInterruptRestarts(env: Env, wdata: u32, model: Model, s: State, hit: State, level: nat, vector: nat, fetched: u32)
    requires Since(model, s, hit) && Runs(model, s) && Runs(model, hit) && level < 8 && vector < 0x100
    ensures Service(env, wdata, model, hit, level, vector).faulted <==> EntryRefused(model, hit, vector)
    ensures EntryRefused(model, hit, vector) ==>
              var t, f := Service(env, wdata, model, hit, level, vector), InterruptFault(env, wdata, model, hit, vector);
              var done, entry := NextStep(model, t, fetched), E.Entry(model, s.space, RefusedStart(model, s, hit, vector), f).0;
              && CoreOf(model, done) == entry.(ppc := t.pc) && done.dar == s.dar[15 := A7(model, entry)]
              && !done.stopped && !done.faulted
  {
    hide PushFrames, JumpVector, Pack, Unpack, AtStart, StacksAt, InterruptStores, Done, E.Entry, Restart, Dispatch, NextStep,
         Sound, Active, P.WriteCycles, VectorRead;
    var at := FramesDone(env, wdata, model, s, hit, level, vector);
    var pushed := PushFrames(env, wdata, model, hit, level, vector);
    at := VectorDone(env, wdata, model, s, hit, at, pushed, vector);
    if EntryRefused(model, hit, vector) {
      HandlerRegisters(model, s, at, InterruptFault(env, wdata, model, hit, vector));
      FollowsCloses(model, Dispatch(model, at, InterruptFault(env, wdata, model, hit, vector)),
                    JumpVector(env, model, pushed, vector), fetched);
    }
  }

  // ------------------------------------------------------- out of a stopped core

  function Halted(model: Model, x: State): (r: State)
    requires Runs(model, x)
    ensures Runs(model, r)
  {
    x.(stopped := true)
  }

  lemma TriggerHalted(model: Model, x: State, f: Fault)
    requires Runs(model, x) && Legal(model, AccessError(f))
    ensures Trigger(model, Halted(model, x), f) == Halted(model, Trigger(model, x, f))
  {
    hide E.Entry, Unpack, Active, Pack, Stored;
  }

  lemma WriteHalted(env: Env, wdata: u32, model: Model, x: State, a: u32, bytes: seq<u8>)
    requires Runs(model, x)
    ensures WriteData(env, wdata, model, Halted(model, x), a, bytes) == Halted(model, WriteData(env, wdata, model, x, a, bytes))
  {
    hide P.PagedWrite, Trigger, Active, Pack, Stored;
    var w := P.PagedWrite(x.space, x.mem, x.writeSuppress, a, bytes);
    if !x.faulted && w.refused.Some? {
      TriggerHalted(model, x.(mem := w.mem, writeSuppress := w.suppress),
                    FaultOf(env, x.sr, w.refused.value).(write := true, wdata := wdata));
    }
  }

  lemma PushHalted(env: Env, wdata: u32, model: Model, x: State, bytes: seq<u8>)
    requires Runs(model, x)
    ensures Push(env, wdata, model, Halted(model, x), bytes) == Halted(model, Push(env, wdata, model, x, bytes))
  {
    hide WriteData, Active;
    var a := Sub32(x.dar[15], |bytes|);
    WriteHalted(env, wdata, model, x.(dar := x.dar[15 := a]), a, bytes);
  }

  lemma ContextHalted(env: Env, wdata: u32, model: Model, x: State, word: u16, pc: u32, sr: u16)
    requires Runs(model, x)
    ensures PushContext(env, wdata, model, Halted(model, x), word, pc, sr)
            == Halted(model, PushContext(env, wdata, model, x, word, pc, sr))
  {
    hide Push, Halted;
    PushHalted(env, wdata, model, x, Bytes16(word));
    PushHalted(env, wdata, model, Push(env, wdata, model, x, Bytes16(word)), Bytes32(pc));
    PushHalted(env, wdata, model, Push(env, wdata, model, Push(env, wdata, model, x, Bytes16(word)), Bytes32(pc)), Bytes16(sr));
  }

  lemma SwitchHalted(model: Model, x: State, sr: Sr)
    requires Runs(model, x) && Stored(model, sr)
    ensures SwitchTo(model, Halted(model, x), sr) == Halted(model, SwitchTo(model, x, sr))
  {
  }

  lemma FramesHalted(env: Env, wdata: u32, model: Model, hit: State, level: nat, vector: nat)
    requires Runs(model, hit) && level < 8 && vector < 0x100
    ensures PushFrames(env, wdata, model, Halted(model, hit), level, vector)
            == Halted(model, PushFrames(env, wdata, model, hit, level, vector))
  {
    hide PushContext, Pack, SwitchTo;
    SwitchHalted(model, hit, InterruptSr(hit.sr, level));
    var x := SwitchTo(model, hit, InterruptSr(hit.sr, level));
    ContextHalted(env, wdata, model, x, 4 * vector, hit.pc, Pack(hit.sr));
    var first := PushContext(env, wdata, model, x, 4 * vector, hit.pc, Pack(hit.sr));
    if first.sr.m && model.HasMasterStack() {
      SwitchHalted(model, first, first.sr.(s := true, m := false));
      ContextHalted(env, wdata, model, SwitchTo(model, first, first.sr.(s := true, m := false)), 0x1000 + 4 * vector, hit.pc,
                    Pack(hit.sr.(s := true)));
    }
  }

  lemma ReadHalted(env: Env, model: Model, y: State, a: u32, n: nat)
    requires Runs(model, y) && 0 < n <= 4
    ensures ReadData(env, model, Halted(model, y), a, n)
            == (Halted(model, ReadData(env, model, y, a, n).0), ReadData(env, model, y, a, n).1)
  {
    hide P.PagedRead, P.Seen, Trigger, Active, Stored;
    var got := P.PagedRead(SpaceOf(env, y), y.mem, y.readOverride, a, n, P.DataRead);
    if !y.faulted && got.refused.Some? {
      TriggerHalted(model, y.(readOverride := got.over), FaultOf(env, y.sr, got.refused.value));
    }
  }

  lemma VectorHalted(env: Env, model: Model, y: State, vector: nat)
    requires Runs(model, y) && vector < 0x100
    ensures JumpVector(env, model, Halted(model, y), vector) == Halted(model, JumpVector(env, model, y, vector))
  {
    hide ReadData, Active;
    ReadHalted(env, model, y, Add32(4 * vector, y.vbr), 4);
  }

  /** An interrupt finds the same core, stopped or not. */
  lemma StopIsForgotten(env: Env, wdata: u32, model: Model, hit: State, level: nat, vector: nat)
    requires Runs(model, hit) && level < 8 && vector < 0x100
    ensures Service(env, wdata, model, hit.(stopped := true), level, vector) == Service(env, wdata, model, hit, level, vector)
  {
    hide PushFrames, JumpVector, Active, Pack;
    FramesHalted(env, wdata, model, hit, level, vector);
    VectorHalted(env, model, PushFrames(env, wdata, model, hit, level, vector), vector);
  }

  // ------------------------------------------------- an entry that is granted

  lemma StraightPush(env: Env, wdata: u32, model: Model, x: State, bytes: seq<u8>)
    requires Runs(model, x) && !x.faulted && x.writeSuppress.None? && 0 < |bytes| <= 4
    requires E.Straight(x.space, P.Cycles(x.space.mmu, Sub32(x.dar[15], |bytes|), |bytes|), P.DataWrite)
    ensures var a := Sub32(x.dar[15], |bytes|);
            Push(env, wdata, model, x, bytes) == x.(dar := x.dar[15 := a], mem := Write(Bus32, x.mem, a, bytes))
  {
    hide P.Stores, P.WriteCycles, Write, Active, Pack, Trigger;
    E.StraightStore(x.space, x.mem, Sub32(x.dar[15], |bytes|), bytes);
  }

  /** Three pushes are one block, lowest address first. */
  lemma ThreePushed(mem: seq<u8>, sp: u32, high: seq<u8>, mid: seq<u8>, low: seq<u8>)
    requires |mem| == P.TOP && |high| == 2 && |mid| == 4 && |low| == 2
    ensures Write(Bus32, Write(Bus32, Write(Bus32, mem, Sub32(sp, 2), high), Sub32(sp, 6), mid), Sub32(sp, 8), low)
            == Write(Bus32, mem, Sub32(sp, 8), low + mid + high)
  {
    hide Write, Bus.At;
    var one, two := Write(Bus32, mem, Sub32(sp, 2), high), Write(Bus32, mem, Sub32(sp, 6), mid + high);
    E.PushedBelow(mem, sp, mid, high);
    WriteWraps(Bus32, one, Sub32(sp, 2) - 4, mid);
    PopsAdd(sp, 2, 4);
    WriteWraps(Bus32, mem, sp - 6, mid + high);
    E.PushedBelow(mem, sp, low, mid + high);
    WriteWraps(Bus32, two, Sub32(sp, 6) - 2, low);
    PopsAdd(sp, 6, 2);
    WriteWraps(Bus32, mem, sp - 8, low + (mid + high));
    assert low + (mid + high) == low + mid + high;
  }

  lemma StraightContext(env: Env, wdata: u32, model: Model, x: State, word: u16, pc: u32, sr: u16)
    requires Runs(model, x) && !x.faulted && x.writeSuppress.None?
    requires E.Straight(x.space, ContextCycles(x.space.mmu, x.dar[15]), P.DataWrite)
    ensures var a := Sub32(x.dar[15], 8);
            PushContext(env, wdata, model, x, word, pc, sr)
            == x.(dar := x.dar[15 := a], mem := Write(Bus32, x.mem, a, Bytes16(sr) + Bytes32(pc) + Bytes16(word)))
  {
    hide Push, P.Cycles, Write, Active, Pack, Bytes16, Bytes32, P.Phys;
    var sp := x.dar[15];
    StraightPush(env, wdata, model, x, Bytes16(word));
    PopsAdd(sp, 2, 4);
    PopsAdd(sp, 6, 2);
    var one := Push(env, wdata, model, x, Bytes16(word));
    StraightPush(env, wdata, model, one, Bytes32(pc));
    var two := Push(env, wdata, model, one, Bytes32(pc));
    StraightPush(env, wdata, model, two, Bytes16(sr));
    ThreePushed(x.mem, sp, Bytes16(word), Bytes32(pc), Bytes16(sr));
  }

  lemma FirstIsPushed(env: Env, wdata: u32, model: Model, hit: State, level: nat, vector: nat)
    requires Runs(model, hit) && !hit.faulted && hit.writeSuppress.None? && level < 8 && vector < 0x100
    requires E.Straight(hit.space, ContextCycles(hit.space.mmu, E.EntryTop(model, CoreOf(model, hit))), P.DataWrite)
    ensures var x := SwitchTo(model, hit, InterruptSr(hit.sr, level));
            var first := PushContext(env, wdata, model, x, 4 * vector, hit.pc, Pack(hit.sr));
            && first == x.(dar := first.dar, mem := first.mem)
            && CoreOf(model, first) == PushFirst(model, CoreOf(model, hit), Interrupt(level, vector))
  {
    hide PushContext, ContextCycles, E.Straight, Write, Pack, Bytes16, Bytes32, Unpack;
    var x := SwitchTo(model, hit, InterruptSr(hit.sr, level));
    SwitchKeepsStacks(model, hit, InterruptSr(hit.sr, level));
    StraightContext(env, wdata, model, x, 4 * vector, hit.pc, Pack(hit.sr));
  }

  lemma SecondIsPushed(env: Env, wdata: u32, model: Model, hit: State, first: State, level: nat, vector: nat)
    requires Runs(model, hit) && Runs(model, first) && !first.faulted && first.writeSuppress.None?
    requires level < 8 && vector < 0x100 && first.space == hit.space
    requires CoreOf(model, first) == PushFirst(model, CoreOf(model, hit), Interrupt(level, vector))
    requires LeavesMaster(model, hit)
    requires E.Straight(hit.space, ContextCycles(hit.space.mmu, CoreOf(model, hit).stacks.isp), P.DataWrite)
    ensures var y := SwitchTo(model, first, first.sr.(s := true, m := false));
            var second := PushContext(env, wdata, model, y, 0x1000 + 4 * vector, hit.pc, Pack(hit.sr.(s := true)));
            && second == y.(dar := second.dar, mem := second.mem)
            && CoreOf(model, second) == LeaveMaster(model, CoreOf(model, hit), Interrupt(level, vector), CoreOf(model, first))
  {
    hide PushContext, ContextCycles, E.Straight, Write, Pack, Bytes16, Bytes32, Unpack, Frame, UnderFrame;
    FrameSizes(model, CoreOf(model, hit), Interrupt(level, vector));
    var y := SwitchTo(model, first, first.sr.(s := true, m := false));
    SwitchKeepsStacks(model, first, first.sr.(s := true, m := false));
    StraightContext(env, wdata, model, y, 0x1000 + 4 * vector, hit.pc, Pack(hit.sr.(s := true)));
  }

  /** Where the entry goes is mapped straight, and nobody refuses it. */
  predicate InterruptStraight(model: Model, hit: State, vector: nat)
    requires Runs(model, hit) && vector < 0x100
  {
    var c, mmu := CoreOf(model, hit), hit.space.mmu;
    && E.Straight(hit.space, ContextCycles(mmu, E.EntryTop(model, c)), P.DataWrite)
    && (LeavesMaster(model, hit) ==> E.Straight(hit.space, ContextCycles(mmu, c.stacks.isp), P.DataWrite))
    && E.Straight(hit.space, P.Cycles(mmu, Add32(4 * vector, hit.vbr), 4), P.DataRead)
  }

  /** An interrupt entry with nothing refused is the entry without an MMU: its
      frame returns to where the retired instruction has left the PC. */
  lemma GrantedInterruptIsEntry(env: Env, wdata: u32, model: Model, hit: State, level: nat, vector: nat)
    requires Runs(model, hit) && !hit.faulted && hit.readOverride.None? && hit.writeSuppress.None?
    requires level < 8 && vector < 0x100 && InterruptStraight(model, hit, vector)
    ensures var t := Service(env, wdata, model, hit, level, vector);
            !t.faulted && CoreOf(model, t) == Enter(model, CoreOf(model, hit), Interrupt(level, vector))
  {
    FramesArePushed(env, wdata, model, hit, level, vector);
    VectorIsRead(env, model, PushFrames(env, wdata, model, hit, level, vector), vector);
  }

  lemma FramesArePushed(env: Env, wdata: u32, model: Model, hit: State, level: nat, vector: nat)
    requires Runs(model, hit) && !hit.faulted && hit.readOverride.None? && hit.writeSuppress.None?
    requires level < 8 && vector < 0x100 && InterruptStraight(model, hit, vector)
    ensures var t, c, k := PushFrames(env, wdata, model, hit, level, vector), CoreOf(model, hit), Interrupt(level, vector);
            && !t.faulted && t.readOverride.None? && t.space == hit.space && t.sr.s && t.vbr == hit.vbr
            && CoreOf(model, t) == LeaveMaster(model, c, k, PushFirst(model, c, k))
  {
    hide PushContext, ContextCycles, E.Straight, Write, Pack, Frame, UnderFrame, Unpack, P.Cycles, FrameHead;
    FirstIsPushed(env, wdata, model, hit, level, vector);
    var x := SwitchTo(model, hit, InterruptSr(hit.sr, level));
    var first := PushContext(env, wdata, model, x, 4 * vector, hit.pc, Pack(hit.sr));
    if LeavesMaster(model, hit) {
      SecondIsPushed(env, wdata, model, hit, first, level, vector);
    }
  }

  lemma VectorIsRead(env: Env, model: Model, t: State, vector: nat)
    requires Runs(model, t) && vector < 0x100 && !t.faulted && t.sr.s && t.readOverride.None?
    requires E.Straight(t.space, P.Cycles(t.space.mmu, Add32(4 * vector, t.vbr), 4), P.DataRead)
    ensures var y := JumpVector(env, model, t, vector);
            !y.faulted && CoreOf(model, y) == Jump(model, CoreOf(model, t), vector)
  {
    hide P.PagedRead, P.Seen, E.Straight, BusMemory.Read32, Active, Pack, Trigger, P.Cycles;
    var a := Add32(4 * vector, t.vbr);
    P.TouchesNone(None);
    E.StraightLong(t.space, t.mem, None, a);
  }
}
