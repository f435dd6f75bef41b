/** `run_for_cycles`: the plain cycle-budget runner and its two hook-enabled
    variants, which service interrupts at a different point. */
module CycleRunner {
  import opened Words
  import P = Pairing060

  datatype Trap = Aline(opcode: u16) | Fline(opcode: u16) | TrapInstruction(num: u8)
                | Breakpoint(num: u8) | IllegalInstruction(opcode: u16)

  datatype Exit = BudgetExhausted | BoundaryRequested | Stopped | Trapped(trap: Trap) | OutOfTurns

  /** What the bus and the processor look like at an instruction boundary;
      `requested` is the bus's pending boundary request. */
  datatype Host<C> = Host(core: C, intLevel: nat, stopped: bool, requested: bool)

  /** One precise instruction up to, but not including, its interrupt check.
      `polls` is false when `step` leaves before that check: a fault or a trace
      exception. `fetchFault` marks an opcode fetch that never dispatched. */
  datatype Executed<C> =
    | Completed(core: C, cycles: nat, stops: bool, requests: bool, polls: bool, fetchFault: bool)
    | Surfaced(core: C, requests: bool, trap: Trap)

  datatype Entered<C> = Entered(core: C, requests: bool)

  datatype Machine<!C> = Machine(
    execute: C -> Executed<C>,
    maskLevel: C -> nat,
    enter: (C, nat) -> Entered<C>,
    entryCycles: nat)

  datatype Event = Instruction(cycles: nat) | InterruptEntry(cycles: nat)
  datatype Control = Continue | Return
  type Hook<!C> = (Host<C>, Event) -> (Host<C>, Control)

  /** The two compile-time switches: which boundaries call the hook. */
  datatype Mode = Plain | InstructionHook | BoundaryHook

  datatype StepResult = Ok(cycles: nat) | Intercepted(trap: Trap)

  datatype BatchResult = BatchResult(cycles: int, instructions: nat, exit: Exit)

  // ---------------------------------------------------------- specification

  /** What a batch is charged for, in order. */
  datatype Charge = Executing(cycles: nat, fetchFault: bool) | Entering(cycles: nat)

  function Cycles(log: seq<Charge>): nat {
    if log == [] then 0 else log[0].cycles + Cycles(log[1..])
  }

  function Instructions(log: seq<Charge>): nat {
    if log == [] then 0 else (if log[0].Executing? then 1 else 0) + Instructions(log[1..])
  }

  /** NMI always; any other level only above the mask. */
  predicate Serviceable<C>(m: Machine<C>, h: Host<C>) {
    var level := h.intLevel % 8;
    level == 7 || level > m.maskLevel(h.core)
  }

  function Serviced<C>(m: Machine<C>, h: Host<C>): Host<C> {
    var e := m.enter(h.core, h.intLevel % 8);
    Host(e.core, 0, false, h.requested || e.requests)
  }

  function AfterExecuting<C>(h: Host<C>, e: Executed<C>): Host<C>
    requires e.Completed?
  {
    h.(core := e.core, stopped := e.stops, requested := h.requested || e.requests)
  }

  /** One time round the loop: where it leaves the host, what it charges, and
      whether the batch ends there. */
  datatype Turn<C> = Turn(host: Host<C>, charges: seq<Charge>, exit: Option<Exit>)

  /** Without a hook the interrupt check belongs to the instruction. */
  function PlainTurn<C>(m: Machine<C>, h: Host<C>): Turn<C> {
    match m.execute(h.core)
    case Surfaced(c, req, trap) =>
      Turn(h.(core := c, requested := h.requested || req), [], Some(Trapped(trap)))
    case Completed(c, n, stops, req, polls, fault) =>
      var ran := h.(core := c, stopped := stops, requested := h.requested || req);
      var entered := polls && Serviceable(m, ran);
      var end := if entered then Serviced(m, ran) else ran;
      var charges := [Executing(n, fault)] + if entered then [Entering(m.entryCycles)] else [];
      if end.stopped then Turn(end, charges, Some(Stopped))
      else if end.requested then Turn(end.(requested := false), charges, Some(BoundaryRequested))
      else Turn(end, charges, None)
  }

  /** An interrupt boundary of its own; the last component says whether the
      batch must return. */
  function EntryBoundary<C>(m: Machine<C>, mode: Mode, hook: Hook<C>, h: Host<C>): (Host<C>, seq<Charge>, bool) {
    if !Serviceable(m, h) then (h, [], false)
    else
      var seen := Serviced(m, h);
      var (end, control) := if mode.BoundaryHook? then hook(seen, InterruptEntry(m.entryCycles)) else (seen, Continue);
      (end.(requested := false), [Entering(m.entryCycles)], end.requested || control.Return?)
  }

  function EntryTurn<C>(m: Machine<C>, mode: Mode, hook: Hook<C>, h: Host<C>, charge: Charge): Turn<C> {
    var (end, entry, leave) := EntryBoundary(m, mode, hook, h);
    Turn(end, [charge] + entry, if leave then Some(BoundaryRequested) else None)
  }

  /** With a hook the instruction runs with the interrupt level put away, the
      hook sees its boundary, and only then is the level looked at. */
  function HookTurn<C>(m: Machine<C>, mode: Mode, hook: Hook<C>, h: Host<C>): Turn<C> {
    match m.execute(h.core)
    case Surfaced(c, req, trap) =>
      Turn(h.(core := c, requested := h.requested || req), [], Some(Trapped(trap)))
    case Completed(c, n, stops, req, _, fault) =>
      var ran := h.(core := c, stopped := stops, requested := h.requested || req);
      if stops && !Serviceable(m, ran) then Turn(ran, [Executing(n, fault)], Some(Stopped))
      else if stops then EntryTurn(m, mode, hook, ran, Executing(n, fault))
      else
        var (seen, control) := hook(ran, Instruction(n));
        if seen.requested || control.Return? then
          Turn(seen.(requested := false), [Executing(n, fault)], Some(BoundaryRequested))
        else EntryTurn(m, mode, hook, seen, Executing(n, fault))
  }

  function OneTurn<C>(m: Machine<C>, mode: Mode, hook: Hook<C>, h: Host<C>): Turn<C> {
    if mode.Plain? then PlainTurn(m, h) else HookTurn(m, mode, hook, h)
  }

  datatype Run<C> = Run(host: Host<C>, log: seq<Charge>, exit: Exit)

  /** The loop from `remaining` cycles on, for at most `turns` turns. */
  function Loop<C>(m: Machine<C>, mode: Mode, hook: Hook<C>, h: Host<C>, remaining: int, turns: nat): Run<C>
    decreases turns
  {
    if remaining <= 0 then Run(h, [], BudgetExhausted)
    else if h.stopped then Run(h, [], Stopped)
    else if turns == 0 then Run(h, [], OutOfTurns)
    else
      var turn := OneTurn(m, mode, hook, h);
      if turn.exit.Some? then Run(turn.host, turn.charges, turn.exit.value)
      else
        Following(turn.charges, Loop(m, mode, hook, turn.host, remaining - Cycles(turn.charges), turns - 1))
  }

  lemma Unrolled<C>(m: Machine<C>, mode: Mode, hook: Hook<C>, h: Host<C>, remaining: int, turns: nat)
    ensures remaining <= 0 ==> Loop(m, mode, hook, h, remaining, turns) == Run(h, [], BudgetExhausted)
    ensures remaining > 0 && h.stopped ==> Loop(m, mode, hook, h, remaining, turns) == Run(h, [], Stopped)
    ensures remaining > 0 && !h.stopped && turns == 0 ==>
              Loop(m, mode, hook, h, remaining, turns) == Run(h, [], OutOfTurns)
    ensures remaining > 0 && !h.stopped && turns > 0 ==>
              var turn := OneTurn(m, mode, hook, h);
              Loop(m, mode, hook, h, remaining, turns)
              == if turn.exit.Some? then Run(turn.host, turn.charges, turn.exit.value)
                 else Following(turn.charges, Loop(m, mode, hook, turn.host, remaining - Cycles(turn.charges), turns - 1))
  {
    hide OneTurn, Cycles;
  }

  function Following<C>(log: seq<Charge>, rest: Run<C>): Run<C> {
    rest.(log := log + rest.log)
  }

  /** A whole batch: a pending interrupt first, then the loop. */
  function Batch<C>(m: Machine<C>, mode: Mode, hook: Hook<C>, h: Host<C>, remaining: int, turns: nat): Run<C> {
    var (begun, entry, leave) := EntryBoundary(m, mode, hook, h);
    if leave then Run(begun, entry, BoundaryRequested)
    else
      Following(entry, Loop(m, mode, hook, begun, remaining - Cycles(entry), turns))
  }

  lemma {:induction false} Joined(a: seq<Charge>, b: seq<Charge>)
    ensures Cycles(a + b) == Cycles(a) + Cycles(b)
    ensures Instructions(a + b) == Instructions(a) + Instructions(b)
  {
    if a == [] {
      assert a + b == b;
    } else {
      assert (a + b)[1..] == a[1..] + b;
      Joined(a[1..], b);
    }
  }

  lemma Charged(charge: Charge, entry: seq<Charge>)
    ensures Cycles([charge]) == charge.cycles && Cycles([charge] + entry) == charge.cycles + Cycles(entry)
    ensures Instructions([charge]) == if charge.Executing? then 1 else 0
    ensures Instructions([charge] + entry) == Instructions([charge]) + Instructions(entry)
  {
    Joined([charge], entry);
  }

  lemma EntryBoundaryShape<C>(m: Machine<C>, mode: Mode, hook: Hook<C>, h: Host<C>)
    ensures var entry := EntryBoundary(m, mode, hook, h).1;
            && Instructions(entry) == 0
            && Cycles(entry) == (if Serviceable(m, h) then m.entryCycles else 0)
    ensures !Serviceable(m, h) ==> EntryBoundary(m, mode, hook, h) == (h, [], false)
  {
    Charged(Entering(m.entryCycles), []);
  }

  lemma PlainTurnCharges<C>(m: Machine<C>, h: Host<C>, e: Executed<C>)
    requires e == m.execute(h.core) && e.Completed?
    ensures var turn, ran := PlainTurn(m, h), AfterExecuting(h, e);
            var entered := e.polls && Serviceable(m, ran);
            var end := if entered then Serviced(m, ran) else ran;
            && Instructions(turn.charges) == 1
            && Cycles(turn.charges) == e.cycles + (if entered then m.entryCycles else 0)
            && (end.stopped ==> turn.host == end && turn.exit == Some(Stopped))
            && (!end.stopped && end.requested ==>
                  turn.host == end.(requested := false) && turn.exit == Some(BoundaryRequested))
            && (!end.stopped && !end.requested ==> turn.host == end && turn.exit == None)
  {
    var charge := Executing(e.cycles, e.fetchFault);
    Charged(charge, []);
    Charged(Entering(m.entryCycles), []);
    Charged(charge, [Entering(m.entryCycles)]);
    assert [charge] + [] == [charge];
  }

  lemma NothingCharged()
    ensures Cycles([]) == Instructions([]) == 0
  {
  }

  lemma LevelZero<C>(m: Machine<C>, h: Host<C>)
    requires h.intLevel == 0
    ensures !Serviceable(m, h)
  {
  }

  lemma HookTurnCharges<C>(m: Machine<C>, mode: Mode, hook: Hook<C>, h: Host<C>, e: Executed<C>)
    requires e == m.execute(h.core) && e.Completed?
    ensures var ran := AfterExecuting(h, e);
            var charge := Executing(e.cycles, e.fetchFault);
            && Cycles([charge]) == e.cycles && Instructions([charge]) == 1
            && (ran.stopped && Serviceable(m, ran) ==> HookTurn(m, mode, hook, h) == EntryTurn(m, mode, hook, ran, charge))
            && (ran.stopped && !Serviceable(m, ran) ==> HookTurn(m, mode, hook, h) == Turn(ran, [charge], Some(Stopped)))
  {
    Charged(Executing(e.cycles, e.fetchFault), []);
  }

  lemma EntryTurnCharges<C>(m: Machine<C>, mode: Mode, hook: Hook<C>, h: Host<C>, charge: Charge)
    ensures var turn, (end, entry, leave) := EntryTurn(m, mode, hook, h, charge), EntryBoundary(m, mode, hook, h);
            && turn.host == end && turn.exit == (if leave then Some(BoundaryRequested) else None)
            && Instructions(turn.charges) == Instructions([charge])
            && Cycles(turn.charges) == charge.cycles + Cycles(entry)
  {
    EntryBoundaryShape(m, mode, hook, h);
    Charged(charge, EntryBoundary(m, mode, hook, h).1);
  }

  lemma FollowingLog<C>(log: seq<Charge>, rest: Run<C>)
    ensures var run := Following(log, rest);
            && run.host == rest.host && run.exit == rest.exit
            && Cycles(run.log) == Cycles(log) + Cycles(rest.log)
            && Instructions(run.log) == Instructions(log) + Instructions(rest.log)
    ensures Cycles([]) == Instructions([]) == 0
  {
    Joined(log, rest.log);
  }

  lemma Begun<C>(run: Run<C>)
    ensures Following([], run) == run && Cycles([]) == Instructions([]) == 0
  {
    assert [] + run.log == run.log;
  }

  lemma FollowingTwice<C>(log: seq<Charge>, charges: seq<Charge>, rest: Run<C>)
    ensures Following(log, Following(charges, rest)) == Following(log + charges, rest)
  {
    assert log + (charges + rest.log) == log + charges + rest.log;
  }

  // --------------------------------------------------------- implementation

  class Runner<C> {
    const machine: Machine<C>
    const hook: Hook<C>
    var core: C
    var intLevel: nat
    var stopped: bool
    var requested: bool
    var resetCycles: nat
    var initialCycles: int
    var cyclesRemaining: int

    constructor (machine: Machine<C>, hook: Hook<C>, core: C)
      ensures this.machine == machine && this.hook == hook
      ensures At() == Host(core, 0, false, false) && resetCycles == 0
    {
      this.machine, this.hook, this.core := machine, hook, core;
      intLevel, stopped, requested := 0, false, false;
      resetCycles, initialCycles, cyclesRemaining := 0, 0, 0;
    }

    function At(): Host<C>
      reads this
    {
      Host(core, intLevel, stopped, requested)
    }

    method Become(h: Host<C>)
      modifies this`core, this`intLevel, this`stopped, this`requested
      ensures At() == h
    {
      core, intLevel, stopped, requested := h.core, h.intLevel, h.stopped, h.requested;
    }

    method TakeBoundaryRequest() returns (was: bool)
      modifies this`requested
      ensures was == old(requested) && !requested
    {
      was := requested;
      requested := false;
    }

    method CallHook(event: Event) returns (control: Control)
      modifies this`core, this`intLevel, this`stopped, this`requested
      ensures (At(), control) == hook(old(At()), event)
    {
      var (h, answer) := hook(At(), event);
      Become(h);
      control := answer;
    }

    method CheckAndServiceInterrupts() returns (taken: bool)
      modifies this`core, this`intLevel, this`stopped, this`requested, this`cyclesRemaining
      ensures taken == Serviceable(machine, old(At()))
      ensures At() == if taken then Serviced(machine, old(At())) else old(At())
      ensures cyclesRemaining == old(cyclesRemaining) - if taken then machine.entryCycles else 0
    {
      var level := intLevel % 8;
      if level == 7 || level > machine.maskLevel(core) {
        var e := machine.enter(core, level);
        core := e.core;
        requested := requested || e.requests;
        stopped := false;
        cyclesRemaining := cyclesRemaining - machine.entryCycles;
        intLevel := 0;
        return true;
      }
      return false;
    }

    /** Fetch, dispatch and the interrupt check that `step` itself makes. */
    method Step() returns (result: StepResult)
      requires !stopped
      modifies this`core, this`intLevel, this`stopped, this`requested, this`cyclesRemaining
      ensures var e := machine.execute(old(core));
              match e
              case Surfaced(c, req, trap) =>
                && result == Intercepted(trap)
                && At() == old(At()).(core := c, requested := old(requested) || req)
                && cyclesRemaining == old(cyclesRemaining)
              case Completed(c, n, stops, req, polls, fault) =>
                var ran := AfterExecuting(old(At()), e);
                var entered := polls && Serviceable(machine, ran);
                && result == Ok(n)
                && At() == (if entered then Serviced(machine, ran) else ran)
                && cyclesRemaining == old(cyclesRemaining) - if entered then machine.entryCycles else 0
    {
      match machine.execute(core) {
        case Surfaced(c, req, trap) =>
          core := c;
          requested := requested || req;
          result := Intercepted(trap);
        case Completed(c, n, stops, req, polls, fault) =>
          core := c;
          stopped := stops;
          requested := requested || req;
          if polls {
            if intLevel > 0 {
              var _ := CheckAndServiceInterrupts();
            }
          }
          result := Ok(n);
      }
    }

    method ServiceInterruptBoundary(mode: Mode) returns (control: Option<Control>)
      modifies this`core, this`intLevel, this`stopped, this`requested, this`cyclesRemaining
      ensures control.Some? <==> Serviceable(machine, old(At()))
      ensures control.None? ==> At() == old(At()) && cyclesRemaining == old(cyclesRemaining)
      ensures control.Some? ==>
                && (At(), control.value)
                   == (var seen := Serviced(machine, old(At()));
                       if mode.BoundaryHook? then hook(seen, InterruptEntry(machine.entryCycles)) else (seen, Continue))
                && cyclesRemaining == old(cyclesRemaining) - machine.entryCycles
    {
      var beforeInterrupt := cyclesRemaining;
      var taken := CheckAndServiceInterrupts();
      if !taken {
        return None;
      }
      var entryCycles := beforeInterrupt - cyclesRemaining;
      if mode.BoundaryHook? {
        var answer := CallHook(InterruptEntry(entryCycles));
        return Some(answer);
      }
      return Some(Continue);
    }

    /** The interrupt boundary and the requests that may follow it. */
    method CrossInterruptBoundary(mode: Mode) returns (taken: bool, leave: bool)
      modifies this`core, this`intLevel, this`stopped, this`requested, this`cyclesRemaining
      ensures taken == Serviceable(machine, old(At()))
      ensures var (end, entry, go) := EntryBoundary(machine, mode, hook, old(At()));
              At() == end && leave == go && cyclesRemaining == old(cyclesRemaining) - Cycles(entry)
    {
      taken, leave := false, false;
      var control := ServiceInterruptBoundary(mode);
      if control.Some? {
        taken := true;
        var request := TakeBoundaryRequest();
        leave := request || control.value == Return;
      }
    }

    /** The body of the loop. `None` goes round again. */
    method TakeTurn(mode: Mode, ghost turn: Turn<C>) returns (exit: Option<Exit>, retired: nat)
      requires !stopped && turn == OneTurn(machine, mode, hook, At())
      modifies this`core, this`intLevel, this`stopped, this`requested, this`cyclesRemaining
      ensures At() == turn.host && exit == turn.exit
      ensures cyclesRemaining == old(cyclesRemaining) - Cycles(turn.charges)
      ensures retired == Instructions(turn.charges)
    {
      hide EntryBoundary, EntryTurn, Serviced, Serviceable, Cycles, Instructions;
      ghost var executed := machine.execute(core);
      ghost var h := At();
      NothingCharged();
      if executed.Completed? {
        PlainTurnCharges(machine, h, executed);
        HookTurnCharges(machine, mode, hook, h, executed);
      }
      var hooked := !mode.Plain?;
      var deferredIrq := 0;
      if hooked {
        deferredIrq := intLevel;
        intLevel := 0;
      }
      ghost var charge := if executed.Completed? then Executing(executed.cycles, executed.fetchFault) else Entering(0);
      ghost var deferred := if executed.Completed? then AfterExecuting(At(), executed) else At();
      if hooked {
        LevelZero(machine, deferred);
      }
      var result := Step();
      if hooked {
        intLevel := deferredIrq;
      }
      match result {
        case Intercepted(trap) =>
          return Some(Trapped(trap)), 0;
        case Ok(cycles) =>
          cyclesRemaining := cyclesRemaining - cycles;
          if stopped {
            if hooked {
              EntryBoundaryShape(machine, mode, hook, At());
              EntryTurnCharges(machine, mode, hook, At(), charge);
              var taken, leave := CrossInterruptBoundary(mode);
              if taken {
                return if leave then Some(BoundaryRequested) else None, 1;
              }
            }
            return Some(Stopped), 1;
          }
          var hookControl := Continue;
          if hooked {
            hookControl := CallHook(Instruction(cycles));
          }
          var request := TakeBoundaryRequest();
          if request || hookControl == Return {
            return Some(BoundaryRequested), 1;
          }
          if hooked {
            EntryTurnCharges(machine, mode, hook, At(), charge);
            var _, leave := CrossInterruptBoundary(mode);
            if leave {
              return Some(BoundaryRequested), 1;
            }
          }
          return None, 1;
      }
    }

    /** `run_for_cycles_inner`. What it returns is the drained reset cycles plus
        everything charged, and the instructions among the charges. */
    method RunForCycles(mode: Mode, cycleBudget: int, turns: nat) returns (result: BatchResult)
      modifies this
      ensures cycleBudget <= 0 ==>
                && result == BatchResult(0, 0, BudgetExhausted)
                && At() == old(At()) && resetCycles == old(resetCycles)
      ensures cycleBudget > 0 ==>
                var run := Batch(machine, mode, hook, old(At()), cycleBudget - old(resetCycles), turns);
                && At() == run.host && resetCycles == 0
                && result == BatchResult(old(resetCycles) + Cycles(run.log), Instructions(run.log), run.exit)
                && cyclesRemaining == cycleBudget - result.cycles
    {
      hide Loop, Following, EntryBoundary, Cycles, Instructions;
      EntryBoundaryShape(machine, mode, hook, At());
      initialCycles := cycleBudget;
      if cycleBudget <= 0 {
        cyclesRemaining := cycleBudget;
        return BatchResult(0, 0, BudgetExhausted);
      }
      if resetCycles > 0 {
        cyclesRemaining := cycleBudget - resetCycles;
        resetCycles := 0;
      } else {
        cyclesRemaining := cycleBudget;
      }
      var _, leaveAtOnce := CrossInterruptBoundary(mode);
      if leaveAtOnce {
        return BatchResult(initialCycles - cyclesRemaining, 0, BoundaryRequested);
      }
      ghost var entry := EntryBoundary(machine, mode, hook, old(At())).1;
      FollowingLog(entry, Loop(machine, mode, hook, At(), cyclesRemaining, turns));
      var instructions, exit := RunLoop(mode, turns);
      return BatchResult(initialCycles - cyclesRemaining, instructions, exit);
    }

    method RunLoop(mode: Mode, turns: nat) returns (instructions: nat, exit: Exit)
      modifies this`core, this`intLevel, this`stopped, this`requested, this`cyclesRemaining
      ensures var run := Loop(machine, mode, hook, old(At()), old(cyclesRemaining), turns);
              && At() == run.host && exit == run.exit
              && instructions == Instructions(run.log)
              && cyclesRemaining == old(cyclesRemaining) - Cycles(run.log)
    {
      hide Loop, OneTurn, Following, Cycles, Instructions;
      ghost var whole := Loop(machine, mode, hook, At(), cyclesRemaining, turns);
      ghost var log := [];
      var left: nat := turns;
      instructions := 0;
      Begun(whole);
      while true
        invariant instructions == Instructions(log)
        invariant cyclesRemaining == old(cyclesRemaining) - Cycles(log)
        invariant whole == Following(log, Loop(machine, mode, hook, At(), cyclesRemaining, left))
        decreases left
      {
        ghost var here := Loop(machine, mode, hook, At(), cyclesRemaining, left);
        Unrolled(machine, mode, hook, At(), cyclesRemaining, left);
        FollowingLog(log, here);
        if cyclesRemaining <= 0 {
          return instructions, BudgetExhausted;
        }
        if stopped {
          return instructions, Stopped;
        }
        if left == 0 {
          return instructions, OutOfTurns;
        }
        ghost var turn := OneTurn(machine, mode, hook, At());
        Joined(log, turn.charges);
        ghost var rest := Loop(machine, mode, hook, turn.host, cyclesRemaining - Cycles(turn.charges), left - 1);
        FollowingTwice(log, turn.charges, rest);
        var end, retired := TakeTurn(mode, turn);
        instructions := instructions + retired;
        if end.Some? {
          return instructions, end.value;
        }
        log := log + turn.charges;
        left := left - 1;
      }
    }
  }
}
