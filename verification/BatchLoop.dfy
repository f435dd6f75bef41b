/** `run_batch`: the decoded inner loop with its memo table and window fetch, and
    the dispatcher behind it, against nothing but dispatched instructions. */
module BatchLoop {
  import opened Words
  import opened BusMemory
  import opened MemOps
  import opened MemOpDecode
  import opened MemOpLaws
  import opened Movem
  import opened SimpleOps
  import FastMem

  /** What the decoded loop skips checking, and everything else it never looks at. */
  datatype Control = Control(runModeNormal: bool, stopped: bool, intLevel: nat, t1: bool, t0: bool, rest: nat)

  datatype Core = Core(m: M, ppc: u32, ir: u16, control: Control)

  /** `can_run_decoded_simple_ops`. */
  predicate Quiet(c: Control) {
    c.runModeNormal && !c.stopped && c.intLevel == 0 && !c.t1 && !c.t0
  }

  datatype Outcome = Retires(core: Core) | Intercepted(core: Core, trap: nat)

  /** The parts that are not modelled here: the dispatcher beyond the arms of
      `MemOpDecode` and `SimpleOps`, the trace and interrupt work behind it, which
      depends on the trace bits the instruction started with, and the exception
      an odd PC takes. */
  datatype World = World(
    env: Env,
    dispatch: (u16, Core) -> Outcome,
    settle: (Control, Core) -> Core,
    fetchFault: Core -> Core)

  /** The dispatcher runs memory operands as `MemOps` says and register-only
      instructions as `SimpleOps` says, and intercepts illegal ones; behind an
      instruction that starts and ends quiet nothing is left to settle. */
  ghost predicate Faithful(w: World) {
    && Fits(w.env) && SetsLogicFlags(w.env.alu)
    && (forall word: u16, core: Core :: Ok(w.env, core.m) ==> Ok(w.env, w.dispatch(word, core).core.m))
    && (forall core: Core :: Ok(w.env, core.m) ==> Ok(w.env, w.fetchFault(core).m))
    && (forall was: Control, core: Core :: Ok(w.env, core.m) ==> Ok(w.env, w.settle(was, core).m))
    && (forall was: Control, core: Core :: Quiet(was) && Quiet(core.control) ==> w.settle(was, core) == core)
    && (forall word: u16, core: Core :: DispatchesSimple(w, word, core))
    && (forall word: u16, core: Core :: DispatchesAs(w, word, core))
  }

  predicate DispatchesSimple(w: World, word: u16, core: Core) {
    var verdict := DispatchedReg(OpcodeOf(word), w.env.pre020);
    && (Ok(w.env, core.m) && verdict.Runs? ==>
          w.dispatch(word, core) == Retires(core.(m := ExecSimple(w.env, core.m, verdict.op).value)))
    && (verdict.Illegal? ==> w.dispatch(word, core).Intercepted?)
  }

  predicate DispatchesAs(w: World, word: u16, core: Core) {
    var op := Dispatched(OpcodeOf(word), w.env.pre020);
    Ok(w.env, core.m) && op.Some? && Decodable(op.value) && Exec(w.env, false, core.m, op.value).Some? ==>
      w.dispatch(word, core) == Retires(core.(m := Exec(w.env, false, core.m, op.value).value))
  }

  /** A dispatcher with exactly the arms of `SimpleOps` and `MemOpDecode`. */
  function ArmsOnly(e: Env, word: u16, core: Core): Outcome {
    if !Ok(e, core.m) then Intercepted(core, 0)
    else
      match DispatchedReg(OpcodeOf(word), e.pre020)
      case Runs(op) => Retires(core.(m := ExecSimple(e, core.m, op).value))
      case Illegal => Intercepted(core, 4)
      case Elsewhere =>
        match Dispatched(OpcodeOf(word), e.pre020)
        case None => Intercepted(core, 0)
        case Some(op) =>
          if Decodable(op) && Exec(e, false, core.m, op).Some?
          then Retires(core.(m := Exec(e, false, core.m, op).value)) else Intercepted(core, 0)
  }

  /** A trace exception behind an instruction that started with T1 set, as
      `check_trace` decides it, whatever the instruction did to T1. */
  function Traced(was: Control, core: Core): Core {
    if was.t1 then core.(control := core.control.(t1 := false, t0 := false, rest := core.control.rest + 1)) else core
  }

  function ArmsOnlyWorld(e: Env): World {
    World(e, (word: u16, core: Core) => ArmsOnly(e, word, core), Traced, (core: Core) => core)
  }

  /** The assumptions on the unmodelled parts can be met together. */
  lemma FaithfulWorldsExist(e: Env)
    requires Fits(e) && SetsLogicFlags(e.alu)
    ensures Faithful(ArmsOnlyWorld(e))
  {
    hide SetsLogicFlags, Fits, Ok, DispatchedReg, Dispatched, Exec, ExecSimple, OpcodeOf, DispatchesAs, DispatchesSimple;
    var w := ArmsOnlyWorld(e);
    forall word: u16, core: Core
      ensures DispatchesSimple(w, word, core) && DispatchesAs(w, word, core)
      ensures Ok(e, core.m) ==> Ok(e, w.dispatch(word, core).core.m)
    {
      ArmsAgree(e, word, core);
    }
  }

  lemma ArmsAgree(e: Env, word: u16, core: Core)
    ensures var w := ArmsOnlyWorld(e); DispatchesSimple(w, word, core) && DispatchesAs(w, word, core)
    ensures Ok(e, core.m) ==> Ok(e, ArmsOnly(e, word, core).core.m)
  {
    hide Ok, DispatchedReg, Dispatched, Exec, ExecSimple, OpcodeOf;
    if Ok(e, core.m) {
      OneDispatcher(e, core.m, OpcodeOf(word));
    }
  }

  // ------------------------------------------------- the reference: dispatch

  /** A run of dispatched instructions so far. */
  datatype Progress = Progress(core: Core, retired: nat, trap: Option<nat>)

  function OpcodeAt(w: World, core: Core): u16
    requires Ok(w.env, core.m)
  {
    ReadMem(w.env, core.m.mem, core.m.pc, Word)
  }

  /** The opcode fetched: PPC, IR and the PC behind it. */
  function AfterFetch(w: World, core: Core): (r: Core)
    requires Ok(w.env, core.m)
    ensures Ok(w.env, r.m)
  {
    core.(m := core.m.(pc := Add32(core.m.pc, 2)), ppc := core.m.pc, ir := OpcodeAt(w, core))
  }

  ghost function Step(w: World, p: Progress): (r: Progress)
    requires Faithful(w) && Ok(w.env, p.core.m)
    ensures Ok(w.env, r.core.m)
  {
    if p.trap.Some? then p
    else if p.core.m.pc % 2 != 0 then p.(core := w.fetchFault(p.core))
    else
      match w.dispatch(OpcodeAt(w, p.core), AfterFetch(w, p.core))
      case Retires(done) => p.(core := w.settle(p.core.control, done), retired := p.retired + 1)
      case Intercepted(at, trap) => p.(core := at, trap := Some(trap))
  }

  ghost function Steps(w: World, core: Core, k: nat): (r: Progress)
    requires Faithful(w) && Ok(w.env, core.m)
    ensures Ok(w.env, r.core.m)
  {
    if k == 0 then Progress(core, 0, None) else Step(w, Steps(w, core, k - 1))
  }

  /** No opcode the reference run fetches is one of those only the batch loop's
      decoder accepts. */
  ghost predicate LegalRun(w: World, core: Core)
    requires Faithful(w) && Ok(w.env, core.m)
  {
    forall k: nat :: Steps(w, core, k).core.m.pc % 2 == 0 ==> !Lax(OpcodeOf(OpcodeAt(w, Steps(w, core, k).core)))
  }

  /** One retired instruction of the reference, seen from the operation it runs. */
  lemma MemOpRetires(w: World, core: Core, op: MemOp)
    requires Faithful(w) && Ok(w.env, core.m) && core.m.pc % 2 == 0 && Quiet(core.control)
    requires FastDecode(OpcodeOf(OpcodeAt(w, core))) == Some(op) && Decodable(op)
    requires Exec(w.env, true, AfterFetch(w, core).m, op).Some?
    ensures Step(w, Progress(core, 0, None))
            == Progress(AfterFetch(w, core).(m := Exec(w.env, true, AfterFetch(w, core).m, op).value), 1, None)
  {
    hide FastDecode, Dispatched, Exec, ReadMem, Ok;
    var word, at := OpcodeAt(w, core), AfterFetch(w, core);
    DecodersAgree(OpcodeOf(word), w.env.pre020);
    StrictIsPlain(w.env, at.m, op);
    assert DispatchesAs(w, word, at);
  }

  lemma SimpleOpRetires(w: World, core: Core, op: SimpleOp)
    requires Faithful(w) && Ok(w.env, core.m) && core.m.pc % 2 == 0 && Quiet(core.control)
    requires FastSimple(OpcodeOf(OpcodeAt(w, core)), w.env.pre020) == Some(op) && !Lax(OpcodeOf(OpcodeAt(w, core)))
    ensures Step(w, Progress(core, 0, None))
            == Progress(AfterFetch(w, core).(m := ExecSimple(w.env, AfterFetch(w, core).m, op).value), 1, None)
  {
    hide FastSimple, DispatchedReg, ExecSimple, ReadMem, Ok, Lax, OpcodeOf;
    var word, at := OpcodeAt(w, core), AfterFetch(w, core);
    SimpleDecodersAgree(OpcodeOf(word), w.env.pre020);
    assert DispatchesSimple(w, word, at);
  }

  /** Why the run must be legal: a lax opcode is trapped by the reference and
      named a register-only operation by the batch loop's decoder. */
  lemma LaxOpcodesAreTrapped(w: World, core: Core)
    requires Faithful(w) && Ok(w.env, core.m) && core.m.pc % 2 == 0 && Lax(OpcodeOf(OpcodeAt(w, core)))
    ensures Step(w, Progress(core, 0, None)).trap.Some?
    ensures DecodeOf(w, OpcodeAt(w, core)).Simple?
  {
    hide FastSimple, DispatchedReg, ExecSimple, ReadMem, Ok, Lax, OpcodeOf;
    var word, at := OpcodeAt(w, core), AfterFetch(w, core);
    SimpleDecodersAgree(OpcodeOf(word), w.env.pre020);
    assert DispatchesSimple(w, word, at);
  }

  /** Steps do not depend on how much has been retired before. */
  lemma StepCounts(w: World, core: Core, n: nat)
    requires Faithful(w) && Ok(w.env, core.m)
    ensures var one := Step(w, Progress(core, 0, None));
            Step(w, Progress(core, n, None)) == one.(retired := one.retired + n)
  {
  }

  // --------------------------------------------------------------- the loops

  datatype CachedOp = Unknown | Simple(simple: SimpleOp) | Mem(op: MemOp) | Complex

  /** What `cached_decode` computes on a miss. */
  function DecodeOf(w: World, word: u16): (r: CachedOp)
    ensures r != Unknown
  {
    match FastSimple(OpcodeOf(word), w.env.pre020)
    case Some(op) => Simple(op)
    case None =>
      match FastDecode(OpcodeOf(word))
      case Some(op) => Mem(op)
      case None => Complex
  }

  datatype InnerExit = Budget | Watched(pc: u32) | Fault | Miss(opcode: u16)
  datatype Exit = BudgetExhausted | WatchedPc(pc: u32) | Stopped | Trapped(trap: nat) | FaultsExhausted

  class Batch {
    const w: World
    const cpu: FastMem.Cpu
    const table: array<CachedOp>
    var ppc: u32
    var ir: u16
    var control: Control

    /** The memo table holds nothing or the decoding of its index. */
    ghost predicate Valid()
      reads this, cpu, table
    {
      && Faithful(w) && cpu.Valid() && cpu.env == w.env
      && table.Length == 0x1_0000 && table as object != cpu.dar && table as object != cpu.mem
      && (forall i :: 0 <= i < 0x1_0000 ==> table[i] == Unknown || table[i] == DecodeOf(w, i))
    }

    ghost function View(): (c: Core)
      requires Valid()
      reads this, cpu, cpu.dar, cpu.mem, table
      ensures Ok(w.env, c.m)
    {
      Core(cpu.View(), ppc, ir, control)
    }

    constructor (world: World, core: FastMem.Cpu, control: Control)
      requires Faithful(world) && core.Valid() && core.env == world.env
      ensures Valid() && View() == Core(core.View(), 0, 0, control)
      ensures w == world && cpu == core && fresh(table)
    {
      w, cpu := world, core;
      table := new CachedOp[0x1_0000](_ => Unknown);
      ppc, ir, this.control := 0, 0, control;
    }

    /** `clear_decoded_op_cache`. */
    method ClearDecodedOpCache()
      requires Valid()
      modifies table
      ensures Valid() && View() == old(View())
    {
      forall i | 0 <= i < table.Length {
        table[i] := Unknown;
      }
    }

    method CachedDecode(opcode: u16) returns (op: CachedOp)
      requires Valid()
      modifies table
      ensures Valid() && op == DecodeOf(w, opcode)
    {
      op := table[opcode];
      if op != Unknown {
        return;
      }
      var o := OpcodeOf(opcode);
      var simple := FastSimple(o, w.env.pre020);
      if simple.Some? {
        op := Simple(simple.value);
      } else {
        var decoded := FastDecode(o);
        op := if decoded.Some? then Mem(decoded.value) else Complex;
      }
      table[opcode] := op;
    }

    /** The opcode at an even PC, through the window if it lies there. */
    method FetchOpcode() returns (opcode: u16)
      requires Valid() && cpu.pc % 2 == 0
      modifies this`ppc, this`ir, cpu`pc
      ensures Valid() && View() == AfterFetch(w, old(View())) && opcode == OpcodeAt(w, old(View()))
    {
      hide ReadMem, Faithful, DecodeOf;
      ppc := cpu.pc;
      opcode := cpu.FetchWord();
      cpu.pc := Add32(cpu.pc, 2);
      ir := opcode;
    }

    /** Put a whole core in place: what the unmodelled parts leave behind. */
    method Install(c: Core)
      requires Valid() && Ok(w.env, c.m)
      modifies this`ppc, this`ir, this`control, cpu`pc, cpu`flags, cpu.dar, cpu.mem
      ensures Valid() && View() == c
    {
      hide Faithful, DecodeOf;
      cpu.Install(c.m);
      ppc, ir, control := c.ppc, c.ir, c.control;
    }

    /** One turn of the decoded loop. */
    method DecodedTurn() returns (turn: Turn)
      requires Valid() && Quiet(control)
      requires cpu.pc % 2 == 0 ==> !Lax(OpcodeOf(OpcodeAt(w, View())))
      modifies this`ppc, this`ir, this`control, cpu`pc, cpu`flags, cpu.dar, cpu.mem, table
      ensures Valid() && (!turn.Faulted? ==> control == old(control))
      ensures TurnIs(w, old(View()), turn, View())
    {
      hide ReadMem, Faithful, FastDecode, FastSimple, OpcodeOf, Lax, Exec, ExecSimple, UpShape, DownShape, Fetch;
      ghost var before := View();
      if cpu.pc % 2 != 0 {
        var core := Core(M(cpu.dar[..], cpu.pc, cpu.flags, cpu.mem[..]), ppc, ir, control);
        assert core == before;
        FaithfulFaults(w, before);
        Install(w.fetchFault(core));
        return Faulted;
      }
      var opcode := FetchOpcode();
      ghost var at := View();
      var op := CachedDecode(opcode);
      assert View() == at;
      match op {
        case Simple(o) =>
          SimpleOpRetires(w, before, o);
          FaithfulFlags(w);
          cpu.ExecuteSimple(o);
          turn := Ran;
        case Mem(o) =>
          EvenStep(before.m.pc);
          var ok := cpu.ExecuteMemOp(o);
          if ok {
            MemOpRetires(w, before, o);
            turn := Ran;
          } else {
            turn := Missed(opcode);
          }
        case _ =>
          turn := Missed(opcode);
      }
    }

    /** `run_decoded_simple_batch`, recording and running no traces. */
    method RunDecodedSimpleBatch(budget: nat, watchPcs: seq<u32>) returns (exit: InnerExit, retired: nat)
      requires Valid() && Quiet(control) && LegalRun(w, View())
      modifies this`ppc, this`ir, this`control, cpu`pc, cpu`flags, cpu.dar, cpu.mem, table
      ensures Valid() && (!exit.Fault? ==> control == old(control)) && retired <= budget
      ensures InnerIs(w, old(View()), budget, watchPcs, exit, retired, View())
    {
      hide ReadMem, Faithful, AfterFetch, Step;
      ghost var start := View();
      retired := 0;
      while retired < budget
        invariant Valid() && control == old(control) && retired <= budget
        invariant Steps(w, start, retired) == Progress(View(), retired, None)
      {
        ghost var here := View();
        LegalHere(w, start, retired);
        var turn := DecodedTurn();
        match turn {
          case Faulted => return Fault, retired;
          case Missed(opcode) => return Miss(opcode), retired;
          case Ran =>
        }
        StepCounts(w, here, retired);
        retired := retired + 1;
        if cpu.pc in watchPcs {
          return Watched(cpu.pc), retired;
        }
      }
      exit := Budget;
    }

    /** `run_batch_inner`: the decoded loop while the core is quiet, dispatch for
        what it hands back, trace and interrupt work behind every dispatched
        instruction. `faults` bounds the fetch faults taken. */
    method RunBatch(maxInstructions: nat, watchPcs: seq<u32>, faults: nat)
      returns (exit: Exit, retired: nat, ghost k: nat)
      requires Valid() && LegalRun(w, View())
      modifies this`ppc, this`ir, this`control, cpu`pc, cpu`flags, cpu.dar, cpu.mem, table
      ensures Valid()
      ensures Steps(w, old(View()), k) == Progress(View(), retired, if exit.Trapped? then Some(exit.trap) else None)
      ensures old(control).stopped ==> exit.Stopped? && k == 0
      ensures exit.BudgetExhausted? ==> retired == maxInstructions
      ensures exit.Stopped? ==> control.stopped
      ensures exit.WatchedPc? ==> cpu.pc == exit.pc && exit.pc in watchPcs
      ensures retired <= maxInstructions
    {
      hide ReadMem, Faithful, AfterFetch, Step, LegalRun;
      ghost var start := View();
      retired, k := 0, 0;
      if control.stopped {
        return Stopped, 0, 0;
      }
      var left := faults;
      while true
        invariant Valid() && retired <= maxInstructions
        invariant Steps(w, start, k) == Progress(View(), retired, None)
        decreases left, maxInstructions - retired
      {
        if retired == maxInstructions {
          return BudgetExhausted, retired, k;
        }
        var inner, n := RunToDispatch(maxInstructions - retired, watchPcs, start, k, retired);
        retired, k := retired + n, k + n;
        match inner {
          case Budget => return BudgetExhausted, retired, k;
          case Watched(pc) => return WatchedPc(pc), retired, k;
          case Fault =>
            FaultStep(w, Steps(w, start, k), View());
            k := k + 1;
            if left == 0 {
              return FaultsExhausted, retired, k;
            }
            left := left - 1;
          case Miss(opcode) =>
            var trap := DispatchOne(opcode, Steps(w, start, k));
            k := k + 1;
            if trap.Some? {
              return Trapped(trap.value), retired, k;
            }
            retired := retired + 1;
            if control.stopped {
              return Stopped, retired, k;
            }
            if cpu.pc in watchPcs {
              return WatchedPc(cpu.pc), retired, k;
            }
        }
      }
    }

    /** Up to the next opcode that needs the dispatcher. */
    method RunToDispatch(budget: nat, watchPcs: seq<u32>, ghost start: Core, ghost k: nat, ghost before: nat)
      returns (exit: InnerExit, n: nat)
      requires Valid() && Ok(w.env, start.m) && LegalRun(w, start) && budget > 0
      requires Steps(w, start, k) == Progress(View(), before, None)
      modifies this`ppc, this`ir, this`control, cpu`pc, cpu`flags, cpu.dar, cpu.mem, table
      ensures Valid() && n <= budget && (exit.Fault? || exit.Miss? ==> n < budget)
      ensures var p := Steps(w, start, k + n);
              && p.retired == before + n && p.trap.None?
              && match exit
                 case Budget => n == budget && View() == p.core
                 case Watched(pc) => View() == p.core && cpu.pc == pc && pc in watchPcs
                 case Fault => TurnIs(w, p.core, Faulted, View())
                 case Miss(opcode) => TurnIs(w, p.core, Missed(opcode), View())
    {
      hide ReadMem, Faithful, AfterFetch, Step, LegalRun;
      ghost var here := View();
      if Quiet(control) {
        LegalTail(w, start, k);
        exit, n := RunDecodedSimpleBatch(budget, watchPcs);
        StepsAdd(w, start, k, n);
        return;
      }
      n := 0;
      if cpu.pc % 2 != 0 {
        FaithfulFaults(w, here);
        var core := Core(M(cpu.dar[..], cpu.pc, cpu.flags, cpu.mem[..]), ppc, ir, control);
        assert core == here;
        Install(w.fetchFault(core));
        return Fault, 0;
      }
      var opcode := FetchOpcode();
      exit := Miss(opcode);
    }

    /** Dispatch the opcode just fetched, then the trace and interrupt work. */
    method DispatchOne(opcode: u16, ghost p: Progress) returns (trap: Option<nat>)
      requires Valid() && Ok(w.env, p.core.m) && p.trap.None? && TurnIs(w, p.core, Missed(opcode), View())
      modifies this`ppc, this`ir, this`control, cpu`pc, cpu`flags, cpu.dar, cpu.mem
      ensures Valid()
      ensures Step(w, p) == Progress(View(), if trap.None? then p.retired + 1 else p.retired, trap)
    {
      hide ReadMem;
      ghost var at := View();
      var core := Core(M(cpu.dar[..], cpu.pc, cpu.flags, cpu.mem[..]), ppc, ir, control);
      assert core == at;
      var r := w.dispatch(opcode, core);
      if r.Intercepted? {
        Install(r.core);
        return Some(r.trap);
      }
      Install(w.settle(core.control, r.core));
      trap := None;
    }
  }

  datatype Turn = Ran | Missed(opcode: u16) | Faulted

  /** What one turn may be: a whole reference step, a fetch and nothing else, or
      the fault an odd PC takes. */
  ghost predicate TurnIs(w: World, before: Core, turn: Turn, after: Core)
    requires Faithful(w) && Ok(w.env, before.m)
  {
    match turn
    case Ran => Step(w, Progress(before, 0, None)) == Progress(after, 1, None)
    case Missed(opcode) =>
      before.m.pc % 2 == 0 && after == AfterFetch(w, before) && opcode == OpcodeAt(w, before)
    case Faulted => before.m.pc % 2 != 0 && after == w.fetchFault(before)
  }

  /** Where the decoded loop leaves the core when it returns. */
  ghost predicate InnerIs(w: World, start: Core, budget: nat, watchPcs: seq<u32>, exit: InnerExit, retired: nat, after: Core)
    requires Faithful(w) && Ok(w.env, start.m)
  {
    var p := Steps(w, start, retired);
    && p.retired == retired && p.trap.None?
    && match exit
       case Budget => retired == budget && after == p.core
       case Watched(pc) => retired > 0 && after == p.core && after.m.pc == pc && pc in watchPcs
       case Fault => retired < budget && TurnIs(w, p.core, Faulted, after)
       case Miss(opcode) => retired < budget && TurnIs(w, p.core, Missed(opcode), after)
  }

  lemma LegalHere(w: World, start: Core, k: nat)
    requires Faithful(w) && Ok(w.env, start.m) && LegalRun(w, start)
    ensures Steps(w, start, k).core.m.pc % 2 == 0 ==> !Lax(OpcodeOf(OpcodeAt(w, Steps(w, start, k).core)))
  {
  }

  lemma FaithfulFaults(w: World, core: Core)
    requires Faithful(w) && Ok(w.env, core.m)
    ensures Ok(w.env, w.fetchFault(core).m)
  {
  }

  lemma FaithfulFlags(w: World)
    requires Faithful(w)
    ensures SetsLogicFlags(w.env.alu)
  {
  }

  lemma EvenStep(pc: u32)
    requires pc % 2 == 0
    ensures Add32(pc, 2) % 2 == 0
  {
  }

  lemma {:induction false} StepsAdd(w: World, start: Core, k: nat, n: nat)
    requires Faithful(w) && Ok(w.env, start.m) && Steps(w, start, k).trap.None?
    ensures var p := Steps(w, start, k);
            var q := Steps(w, p.core, n);
            Steps(w, start, k + n) == q.(retired := p.retired + q.retired)
    decreases n
  {
    if n > 0 {
      StepsAdd(w, start, k, n - 1);
      assert k + n - 1 == k + (n - 1);
      var p := Steps(w, start, k);
      var q := Steps(w, p.core, n - 1);
      MoreRetired(w, q, p.retired);
    }
  }

  lemma MoreRetired(w: World, p: Progress, n: nat)
    requires Faithful(w) && Ok(w.env, p.core.m)
    ensures Step(w, p.(retired := n + p.retired)) == Step(w, p).(retired := n + Step(w, p).retired)
  {
  }

  lemma LegalTail(w: World, start: Core, k: nat)
    requires Faithful(w) && Ok(w.env, start.m) && LegalRun(w, start) && Steps(w, start, k).trap.None?
    ensures LegalRun(w, Steps(w, start, k).core)
  {
    hide Faithful, ReadMem;
    var mid := Steps(w, start, k).core;
    forall n: nat | Steps(w, mid, n).core.m.pc % 2 == 0
      ensures !Lax(OpcodeOf(OpcodeAt(w, Steps(w, mid, n).core)))
    {
      StepsAdd(w, start, k, n);
      LegalHere(w, start, k + n);
    }
  }

  lemma FaultStep(w: World, p: Progress, after: Core)
    requires Faithful(w) && Ok(w.env, p.core.m) && p.trap.None? && TurnIs(w, p.core, Faulted, after)
    ensures Step(w, p) == p.(core := after)
  {
  }
}
