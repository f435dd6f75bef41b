/** What the cycle-budget runner promises about whole batches: how far it may
    overshoot, when its hooks are invisible, and how much it can retire. */
module CycleLaws {
  import opened Words
  import opened CycleRunner
  import P = Pairing060

  // ------------------------------------------------------- overshooting

  /** The charges before the last executed instruction. */
  function BeforeLast(log: seq<Charge>): (r: seq<Charge>)
    ensures r <= log
    ensures Instructions(log) > 0 ==> Instructions(r) == Instructions(log) - 1
  {
    if log == [] then []
    else
      var init, last := log[..|log| - 1], log[|log| - 1];
      assert log == init + [last];
      Joined(init, [last]);
      Charged(last, []);
      if last.Executing? then init else BeforeLast(init)
  }

  lemma BeforeLastOfTurn(charges: seq<Charge>)
    requires IsTurn(charges)
    ensures BeforeLast(charges) == [] && Instructions(charges) == 1
  {
    Charged(charges[0], charges[1..]);
    if |charges| == 2 {
      Charged(charges[1], []);
      assert charges == [charges[0]] + [charges[1]];
      assert charges[..1] == [charges[0]];
      assert BeforeLast([charges[0]]) == [];
    } else {
      assert charges == [charges[0]] + charges[1..];
    }
  }

  predicate IsTurn(charges: seq<Charge>) {
    && 1 <= |charges| <= 2 && charges[0].Executing?
    && (|charges| == 2 ==> charges[1].Entering?)
  }

  lemma {:induction false} BeforeLastOfRest(first: seq<Charge>, rest: seq<Charge>)
    requires Instructions(rest) > 0
    ensures BeforeLast(first + rest) == first + BeforeLast(rest)
  {
    var init, last := rest[..|rest| - 1], rest[|rest| - 1];
    assert rest == init + [last];
    Joined(init, [last]);
    Charged(last, []);
    assert (first + rest)[..|first + rest| - 1] == first + init;
    if !last.Executing? {
      BeforeLastOfRest(first, init);
    }
  }

  /** Every turn that goes round again, and every one that is charged at all,
      executes exactly one instruction and enters at most one interrupt. */
  lemma TurnShape<C>(m: Machine<C>, mode: Mode, hook: Hook<C>, h: Host<C>)
    ensures var turn := OneTurn(m, mode, hook, h);
            if m.execute(h.core).Completed? then IsTurn(turn.charges) else turn.charges == [] && turn.exit.Some?
  {
  }

  lemma LogShape<C>(m: Machine<C>, mode: Mode, hook: Hook<C>, h: Host<C>, remaining: int, turns: nat)
    ensures var run := Loop(m, mode, hook, h, remaining, turns);
            && (Instructions(run.log) == 0 <==> run.log == [])
            && Instructions(run.log) <= turns
    decreases turns
  {
    hide OneTurn, Cycles;
    if remaining > 0 && !h.stopped && turns > 0 {
      var turn := OneTurn(m, mode, hook, h);
      TurnShape(m, mode, hook, h);
      if IsTurn(turn.charges) {
        BeforeLastOfTurn(turn.charges);
      }
      if turn.exit.None? {
        LogShape(m, mode, hook, turn.host, remaining - Cycles(turn.charges), turns - 1);
        Joined(turn.charges, Loop(m, mode, hook, turn.host, remaining - Cycles(turn.charges), turns - 1).log);
      }
    }
  }

  /** Whatever the exit, the cycles before the last instruction were below the
      budget; running out of budget means they no longer are after it. */
  lemma {:induction false} LoopOvershoot<C>(m: Machine<C>, mode: Mode, hook: Hook<C>, h: Host<C>, remaining: int, turns: nat)
    ensures var run := Loop(m, mode, hook, h, remaining, turns);
            && (Instructions(run.log) > 0 ==> Cycles(BeforeLast(run.log)) < remaining)
            && (run.exit == BudgetExhausted ==> Cycles(run.log) >= remaining)
            && (run.exit.Trapped? ==> Cycles(run.log) < remaining)
            && (run.exit == OutOfTurns ==> Cycles(run.log) < remaining && Instructions(run.log) == turns)
    decreases turns
  {
    hide Loop, OneTurn, Following, Cycles, Instructions, BeforeLast;
    Unrolled(m, mode, hook, h, remaining, turns);
    NothingCharged();
    if remaining > 0 && !h.stopped && turns > 0 {
      var turn := OneTurn(m, mode, hook, h);
      TurnShape(m, mode, hook, h);
      TurnExit(m, mode, hook, h);
      if IsTurn(turn.charges) {
        BeforeLastOfTurn(turn.charges);
      }
      if turn.exit.None? {
        var left := remaining - Cycles(turn.charges);
        var rest := Loop(m, mode, hook, turn.host, left, turns - 1);
        LoopOvershoot(m, mode, hook, turn.host, left, turns - 1);
        LogShape(m, mode, hook, turn.host, left, turns - 1);
        FollowingLog(turn.charges, rest);
        LogAfter(turn.charges, rest);
      }
    }
  }

  lemma TurnExit<C>(m: Machine<C>, mode: Mode, hook: Hook<C>, h: Host<C>)
    ensures var turn := OneTurn(m, mode, hook, h);
            && turn.exit != Some(BudgetExhausted) && turn.exit != Some(OutOfTurns)
            && (turn.exit.Some? && turn.exit.value.Trapped? ==> turn.charges == [])
  {
  }

  lemma LogAfter<C>(charges: seq<Charge>, rest: Run<C>)
    requires IsTurn(charges)
    requires Instructions(rest.log) == 0 ==> rest.log == []
    ensures BeforeLast(Following(charges, rest).log)
            == if Instructions(rest.log) > 0 then charges + BeforeLast(rest.log) else []
    ensures Instructions(rest.log) > 0 ==>
              Cycles(charges + BeforeLast(rest.log)) == Cycles(charges) + Cycles(BeforeLast(rest.log))
  {
    hide Cycles, Instructions, BeforeLast;
    if Instructions(rest.log) > 0 {
      BeforeLastOfRest(charges, rest.log);
      Joined(charges, BeforeLast(rest.log));
    } else {
      BeforeLastOfTurn(charges);
      assert charges + [] == charges;
    }
  }

  /** The same for a whole batch, interrupt entry included. */
  lemma OnlyTheLastInstructionOvershoots<C>(m: Machine<C>, mode: Mode, hook: Hook<C>, h: Host<C>, remaining: int, turns: nat)
    ensures var run := Batch(m, mode, hook, h, remaining, turns);
            && (Instructions(run.log) > 0 ==> Cycles(BeforeLast(run.log)) < remaining)
            && (run.exit == BudgetExhausted ==> Cycles(run.log) >= remaining)
  {
    hide Loop, EntryBoundary, Cycles, Instructions, BeforeLast;
    var (begun, entry, leave) := EntryBoundary(m, mode, hook, h);
    EntryBoundaryShape(m, mode, hook, h);
    if !leave {
      var left := remaining - Cycles(entry);
      var rest := Loop(m, mode, hook, begun, left, turns);
      LoopOvershoot(m, mode, hook, begun, left, turns);
      Joined(entry, rest.log);
      if Instructions(rest.log) > 0 {
        BeforeLastOfRest(entry, rest.log);
        Joined(entry, BeforeLast(rest.log));
      }
    }
  }

  // -------------------------------------------------- hooks that do nothing

  ghost predicate Inert<C(!new)>(hook: Hook<C>) {
    forall h: Host<C>, e: Event :: hook(h, e) == (h, Continue)
  }

  /** When the instruction at `h` tells the two runners apart: it leaves an
      interrupt serviceable, and either `step` left before its own check (a
      fault, a trace exception) or a boundary request outranks the hook
      runner's check. */
  predicate Diverges<C>(m: Machine<C>, h: Host<C>) {
    var e := m.execute(h.core);
    e.Completed? &&
    var ran := AfterExecuting(h, e);
    Serviceable(m, ran) && (e.polls <==> ran.requested && !ran.stopped)
  }

  lemma InertEntry<C(!new)>(m: Machine<C>, mode: Mode, hook: Hook<C>, h: Host<C>)
    requires Inert(hook)
    ensures EntryBoundary(m, mode, hook, h)
            == if Serviceable(m, h)
               then (Serviced(m, h).(requested := false), [Entering(m.entryCycles)], Serviced(m, h).requested)
               else (h, [], false)
  {
  }

  lemma TurnsAgreeIff<C(!new)>(m: Machine<C>, mode: Mode, hook: Hook<C>, h: Host<C>)
    requires Inert(hook) && !mode.Plain? && !h.stopped
    ensures OneTurn(m, mode, hook, h) == OneTurn(m, Plain, hook, h) <==> !Diverges(m, h)
    ensures Diverges(m, h) ==> |OneTurn(m, mode, hook, h).charges| != |OneTurn(m, Plain, hook, h).charges|
  {
    hide Inert, EntryBoundary, Serviceable;
    var e := m.execute(h.core);
    if e.Completed? {
      var ran := AfterExecuting(h, e);
      InertEntry(m, mode, hook, ran);
      InertInstruction(hook, ran, e.cycles);
      if ran.stopped || !ran.requested {
        assert ran.stopped || ran.(requested := false) == ran;
        var charge := [Executing(e.cycles, e.fetchFault)];
        assert charge + [] == charge;
      }
    }
  }

  lemma InertInstruction<C(!new)>(hook: Hook<C>, h: Host<C>, cycles: nat)
    requires Inert(hook)
    ensures hook(h, Instruction(cycles)) == (h, Continue)
  {
  }

  /** No turn of the plain run tells the runners apart. */
  predicate Tame<C>(m: Machine<C>, h: Host<C>, remaining: int, turns: nat)
    decreases turns
  {
    remaining <= 0 || h.stopped || turns == 0 ||
    (!Diverges(m, h) &&
     (PlainTurn(m, h).exit.Some? ||
      Tame(m, PlainTurn(m, h).host, remaining - Cycles(PlainTurn(m, h).charges), turns - 1)))
  }

  lemma {:induction false} TameRunsAgree<C(!new)>(m: Machine<C>, mode: Mode, hook: Hook<C>, h: Host<C>,
                                                   remaining: int, turns: nat, n: nat)
    requires Inert(hook) && !mode.Plain? && n <= turns && Tame(m, h, remaining, turns)
    ensures Loop(m, mode, hook, h, remaining, n) == Loop(m, Plain, hook, h, remaining, n)
    decreases n
  {
    hide Inert, Loop, HookTurn, PlainTurn, Diverges, Following, Cycles;
    Unrolled(m, mode, hook, h, remaining, n);
    Unrolled(m, Plain, hook, h, remaining, n);
    if remaining > 0 && !h.stopped && n > 0 {
      TurnsAgreeIff(m, mode, hook, h);
      var turn := PlainTurn(m, h);
      if turn.exit.None? {
        TameRunsAgree(m, mode, hook, turn.host, remaining - Cycles(turn.charges), turns - 1, n - 1);
      }
    }
  }

  lemma {:induction false} WildRunsDiffer<C(!new)>(m: Machine<C>, mode: Mode, hook: Hook<C>, h: Host<C>,
                                                    remaining: int, turns: nat) returns (n: nat)
    requires Inert(hook) && !mode.Plain? && !Tame(m, h, remaining, turns)
    ensures n <= turns && Loop(m, mode, hook, h, remaining, n) != Loop(m, Plain, hook, h, remaining, n)
    decreases turns
  {
    hide Inert, Loop, HookTurn, PlainTurn, Diverges, Following, Cycles;
    TurnsAgreeIff(m, mode, hook, h);
    var turn := PlainTurn(m, h);
    if Diverges(m, h) {
      n := 1;
      OneTurnLog(m, mode, hook, h, remaining);
      OneTurnLog(m, Plain, hook, h, remaining);
    } else {
      var left := remaining - Cycles(turn.charges);
      var k := WildRunsDiffer(m, mode, hook, turn.host, left, turns - 1);
      n := k + 1;
      Unrolled(m, mode, hook, h, remaining, n);
      Unrolled(m, Plain, hook, h, remaining, n);
      FollowingInjective(turn.charges, Loop(m, mode, hook, turn.host, left, k), Loop(m, Plain, hook, turn.host, left, k));
    }
  }

  lemma OneTurnLog<C>(m: Machine<C>, mode: Mode, hook: Hook<C>, h: Host<C>, remaining: int)
    requires remaining > 0 && !h.stopped
    ensures Loop(m, mode, hook, h, remaining, 1).log == OneTurn(m, mode, hook, h).charges
  {
    hide OneTurn, Loop;
    var turn := OneTurn(m, mode, hook, h);
    Unrolled(m, mode, hook, h, remaining, 1);
    if turn.exit.None? {
      Unrolled(m, mode, hook, turn.host, remaining - Cycles(turn.charges), 0);
      assert turn.charges + [] == turn.charges;
    }
  }

  lemma FollowingInjective<C>(log: seq<Charge>, a: Run<C>, b: Run<C>)
    requires a != b
    ensures Following(log, a) != Following(log, b)
  {
    if log + a.log == log + b.log {
      assert a.log == (log + a.log)[|log|..];
      assert b.log == (log + b.log)[|log|..];
    }
  }

  /** The hook runners with an inert hook are the plain runner, for every number
      of turns, exactly when no turn of the plain run diverges. */
  lemma InertHookIsInvisibleIff<C(!new)>(m: Machine<C>, mode: Mode, hook: Hook<C>, h: Host<C>, remaining: int, turns: nat)
    requires Inert(hook) && !mode.Plain?
    ensures Tame(m, h, remaining, turns) <==>
            forall n | 0 <= n <= turns ::
              Loop(m, mode, hook, h, remaining, n) == Loop(m, Plain, hook, h, remaining, n)
  {
    hide Inert, Loop, Tame;
    if Tame(m, h, remaining, turns) {
      forall n | 0 <= n <= turns
        ensures Loop(m, mode, hook, h, remaining, n) == Loop(m, Plain, hook, h, remaining, n)
      {
        TameRunsAgree(m, mode, hook, h, remaining, turns, n);
      }
    } else {
      var n := WildRunsDiffer(m, mode, hook, h, remaining, turns);
    }
  }

  /** No fault, no trace exception and no boundary request anywhere. */
  ghost predicate Undisturbed<C(!new)>(m: Machine<C>) {
    && (forall c: C :: var e := m.execute(c); e.Completed? ==> e.polls && !e.requests)
    && (forall c: C, level: nat :: !m.enter(c, level).requests)
  }

  lemma {:induction false} UndisturbedIsTame<C(!new)>(m: Machine<C>, h: Host<C>, remaining: int, turns: nat)
    requires Undisturbed(m) && !h.requested
    ensures Tame(m, h, remaining, turns)
    decreases turns
  {
    hide Cycles, Serviceable;
    if remaining > 0 && !h.stopped && turns > 0 {
      var turn := PlainTurn(m, h);
      if turn.exit.None? {
        UndisturbedIsTame(m, turn.host, remaining - Cycles(turn.charges), turns - 1);
      }
    }
  }

  /** The whole batch, with an interrupt possibly pending on entry. */
  lemma UndisturbedBatchesAgree<C(!new)>(m: Machine<C>, mode: Mode, hook: Hook<C>, h: Host<C>, remaining: int, turns: nat)
    requires Undisturbed(m) && Inert(hook) && !h.requested
    ensures Batch(m, mode, hook, h, remaining, turns) == Batch(m, Plain, hook, h, remaining, turns)
  {
    hide Inert, Undisturbed, Loop, EntryBoundary, Tame;
    InertEntry(m, mode, hook, h);
    InertEntry(m, Plain, hook, h);
    var (begun, entry, leave) := EntryBoundary(m, mode, hook, h);
    if !leave && !mode.Plain? {
      UndisturbedIsTame(m, begun, remaining - Cycles(entry), turns);
      TameRunsAgree(m, mode, hook, begun, remaining - Cycles(entry), turns, turns);
    }
  }

  // ----------------------------------------------- retirement per budget

  /** Executed instructions whose opcode was really fetched. */
  function Fetched(log: seq<Charge>): nat {
    if log == [] then 0 else (if log[0].Executing? && !log[0].fetchFault then 1 else 0) + Fetched(log[1..])
  }

  lemma {:induction false} FetchedJoined(a: seq<Charge>, b: seq<Charge>)
    ensures Fetched(a + b) == Fetched(a) + Fetched(b)
  {
    if a == [] {
      assert a + b == b;
    } else {
      assert (a + b)[1..] == a[1..] + b;
      FetchedJoined(a[1..], b);
    }
  }

  /** Every fetched instruction is paid for at two per clock, half of it perhaps
      by the window `open` an earlier one left; nothing else opens a window. */
  ghost predicate Pays<C(!new)>(m: Machine<C>, mode: Mode, hook: Hook<C>, open: C -> bool) {
    && (forall c: C :: var e := m.execute(c); e.Completed? ==> PaidStep(open(c), open(e.core), e.cycles, e.fetchFault))
    && (forall c: C, level: nat :: open(m.enter(c, level).core) ==> open(c))
    && (forall h: Host<C>, e: Event :: open(hook(h, e).0.core) ==> open(h.core))
  }

  function Half(open: bool): nat {
    if open then 1 else 0
  }

  predicate PaidStep(before: bool, after: bool, cycles: nat, fetchFault: bool) {
    2 * cycles + Half(before) >= Half(after) + if fetchFault then 0 else 1
  }

  lemma EntryPays<C(!new)>(m: Machine<C>, mode: Mode, hook: Hook<C>, open: C -> bool, h: Host<C>)
    requires Pays(m, mode, hook, open)
    ensures var (end, entry, _) := EntryBoundary(m, mode, hook, h);
            (open(end.core) ==> open(h.core)) && Fetched(entry) == 0
  {
  }

  lemma TurnPays<C(!new)>(m: Machine<C>, mode: Mode, hook: Hook<C>, open: C -> bool, h: Host<C>)
    requires Pays(m, mode, hook, open)
    ensures var turn := OneTurn(m, mode, hook, h);
            && Fetched(turn.charges) <= 1
            && (turn.exit.None? ==>
                  2 * Cycles(turn.charges) + Half(open(h.core)) >= Fetched(turn.charges) + Half(open(turn.host.core)))
  {
    hide Pays, Serviceable;
    var e := m.execute(h.core);
    if e.Completed? {
      var ran := AfterExecuting(h, e);
      StepPays(m, mode, hook, open, h, e);
      var charge := Executing(e.cycles, e.fetchFault);
      ChargePays(charge, Entering(m.entryCycles));
      assert [charge] + [] == [charge];
      var seen := hook(ran, Instruction(e.cycles)).0;
      EntryPays(m, mode, hook, open, ran);
      EntryPays(m, mode, hook, open, seen);
      EntryBoundaryShape(m, mode, hook, ran);
      EntryBoundaryShape(m, mode, hook, seen);
    }
  }

  lemma ChargePays(charge: Charge, entry: Charge)
    requires charge.Executing? && entry.Entering?
    ensures Cycles([charge]) == charge.cycles && Cycles([charge] + [entry]) == charge.cycles + entry.cycles
    ensures Fetched([charge]) == Fetched([charge] + [entry]) == if charge.fetchFault then 0 else 1
  {
    Charged(charge, [entry]);
    Charged(entry, []);
    FetchedJoined([charge], [entry]);
  }

  lemma StepPays<C(!new)>(m: Machine<C>, mode: Mode, hook: Hook<C>, open: C -> bool, h: Host<C>, e: Executed<C>)
    requires Pays(m, mode, hook, open) && e == m.execute(h.core) && e.Completed?
    ensures PaidStep(open(h.core), open(e.core), e.cycles, e.fetchFault)
    ensures var ran := AfterExecuting(h, e);
            && (open(Serviced(m, ran).core) ==> open(e.core))
            && (open(hook(ran, Instruction(e.cycles)).0.core) ==> open(e.core))
  {
  }

  /** With a positive budget a batch retires at most twice the budget, not
      counting opcode fetches that faulted; a window open at the start is worth
      at most the one instruction that may overshoot. */
  lemma {:induction false} LoopRetires<C(!new)>(m: Machine<C>, mode: Mode, hook: Hook<C>, open: C -> bool,
                                                 h: Host<C>, remaining: int, turns: nat)
    requires Pays(m, mode, hook, open)
    ensures var log := Loop(m, mode, hook, h, remaining, turns).log;
            Fetched(log) <= if remaining > 0 then 2 * remaining - 1 + Half(open(h.core)) else 0
    decreases turns
  {
    hide Pays, Loop, OneTurn, Cycles, Fetched;
    Unrolled(m, mode, hook, h, remaining, turns);
    NothingFetched();
    if remaining > 0 && !h.stopped && turns > 0 {
      var turn := OneTurn(m, mode, hook, h);
      TurnPays(m, mode, hook, open, h);
      if turn.exit.None? {
        var left := remaining - Cycles(turn.charges);
        LoopRetires(m, mode, hook, open, turn.host, left, turns - 1);
        FetchedJoined(turn.charges, Loop(m, mode, hook, turn.host, left, turns - 1).log);
      }
    }
  }

  lemma NothingFetched()
    ensures Fetched([]) == 0
  {
  }

  lemma RetiresAtMostTwicePerBudget<C(!new)>(m: Machine<C>, mode: Mode, hook: Hook<C>, open: C -> bool,
                                              h: Host<C>, remaining: int, turns: nat)
    requires Pays(m, mode, hook, open)
    ensures var log := Batch(m, mode, hook, h, remaining, turns).log;
            Fetched(log) <= if remaining > 0 then 2 * remaining else 0
  {
    hide Pays, Loop, EntryBoundary, Cycles, Fetched;
    var (begun, entry, leave) := EntryBoundary(m, mode, hook, h);
    EntryPays(m, mode, hook, open, h);
    NothingFetched();
    if !leave {
      var left := remaining - Cycles(entry);
      LoopRetires(m, mode, hook, open, begun, left, turns);
      FetchedJoined(entry, Loop(m, mode, hook, begun, left, turns).log);
    }
  }

  /** So a limit of twice the budget on the turns never shows, as long as no
      opcode fetch faults. */
  lemma {:induction false} TwiceTheBudgetIsEnough<C(!new)>(m: Machine<C>, mode: Mode, hook: Hook<C>, open: C -> bool,
                                                            h: Host<C>, remaining: int, turns: nat)
    requires Pays(m, mode, hook, open)
    requires forall c: C :: m.execute(c).Completed? ==> !m.execute(c).fetchFault
    requires turns >= 2 * remaining - 1 + Half(open(h.core))
    ensures Loop(m, mode, hook, h, remaining, turns).exit != OutOfTurns
    decreases turns
  {
    hide Pays, Loop, HookTurn, PlainTurn, Cycles, Fetched;
    Unrolled(m, mode, hook, h, remaining, turns);
    if remaining > 0 && !h.stopped {
      var turn := OneTurn(m, mode, hook, h);
      TurnPays(m, mode, hook, open, h);
      TurnShape(m, mode, hook, h);
      TurnExit(m, mode, hook, h);
      if turn.exit.None? {
        TurnFetched(m, mode, hook, h);
        TwiceTheBudgetIsEnough(m, mode, hook, open, turn.host, remaining - Cycles(turn.charges), turns - 1);
      }
    }
  }

  lemma TurnFetched<C>(m: Machine<C>, mode: Mode, hook: Hook<C>, h: Host<C>)
    requires var e := m.execute(h.core); e.Completed? && !e.fetchFault
    ensures Fetched(OneTurn(m, mode, hook, h).charges) == 1
  {
    hide Serviceable;
    var e := m.execute(h.core);
    ChargePays(Executing(e.cycles, false), Entering(m.entryCycles));
    assert [Executing(e.cycles, false)] + [] == [Executing(e.cycles, false)];
  }

  // ------------------------------------------------------------ the 68060

  /** One 68060 instruction as the program `X` supplies it: what retires and
      what it does to the branch cache, or a fetch that faulted, or a trap. */
  datatype Fetch060<X> =
    | Ins060(retired: P.Retired, strobe: P.Event, next: X, stops: bool, requests: bool, faults: bool, trace: Option<nat>)
    | Fault060(next: X, stops: bool, requests: bool)
    | Trap060(next: X, requests: bool, trap: Trap)

  /** `step` on the 68060: `cycles_060` prices what retires, and exceptions and
      traps break the pipeline. */
  function Execute060<X>(ess: bool, t: P.Timing, fetched: Fetch060<X>): Executed<(P.Timing, X)> {
    match fetched
    case Trap060(x, req, trap) => Surfaced((t.(head := None), x), req, trap)
    case Fault060(x, stops, req) => Completed((t.(head := None), x), 0, stops, req, false, true)
    case Ins060(r, strobe, x, stops, req, faults, trace) =>
      var struck := if strobe.Ins? then t else P.Step(ess, t, strobe).0;
      P.StepPaysForRetirement(ess, struck, P.Ins(r));
      var (after, cost) := P.Retire(ess, struck, r);
      if trace.Some?
      then Completed((after.(head := None), x), cost + trace.value, stops, req, false, false)
      else Completed((after, x), cost, stops, req, !faults, false)
  }

  function Machine060<X>(ess: X -> bool, fetch: X -> Fetch060<X>, mask: X -> nat,
                         enter: (X, nat) -> (X, bool)): Machine<(P.Timing, X)> {
    Machine((c: (P.Timing, X)) => Execute060(ess(c.1), c.0, fetch(c.1)),
            (c: (P.Timing, X)) => mask(c.1),
            (c: (P.Timing, X), level: nat) =>
              var (x, requests) := enter(c.1, level); Entered((c.0.(head := None), x), requests),
            44)
  }

  function Window<X>(c: (P.Timing, X)): bool {
    c.0.head.Some?
  }

  lemma Execute060Pays<X>(ess: bool, t: P.Timing, fetched: Fetch060<X>)
    ensures var e := Execute060(ess, t, fetched);
            e.Completed? ==> PaidStep(t.head.Some?, e.core.0.head.Some?, e.cycles, e.fetchFault)
  {
    if fetched.Ins060? {
      var struck := if fetched.strobe.Ins? then t else P.Step(ess, t, fetched.strobe).0;
      P.StepPaysForRetirement(ess, struck, P.Ins(fetched.retired));
    }
  }

  /** At most two instructions per clock carries over from the timing model to
      `run_for_cycles`: whatever program, interrupts and branch-cache strobes,
      a 68060 batch retires at most twice its budget. */
  lemma Retires060AtMostTwicePerBudget<X(!new)>(ess: X -> bool, fetch: X -> Fetch060<X>, mask: X -> nat,
                                                 enter: (X, nat) -> (X, bool), hook: Hook<(P.Timing, X)>,
                                                 h: Host<(P.Timing, X)>, remaining: int, turns: nat)
    ensures var log := Batch(Machine060(ess, fetch, mask, enter), Plain, hook, h, remaining, turns).log;
            Fetched(log) <= if remaining > 0 then 2 * remaining else 0
  {
    var m := Machine060(ess, fetch, mask, enter);
    var inert: Hook<(P.Timing, X)> := (h, e) => (h, Continue);
    PlainIgnoresHook(m, hook, inert, h, remaining, turns);
    forall c: (P.Timing, X)
      ensures var e := m.execute(c); e.Completed? ==> PaidStep(Window(c), Window(e.core), e.cycles, e.fetchFault)
    {
      Execute060Pays(ess(c.1), c.0, fetch(c.1));
    }
    RetiresAtMostTwicePerBudget(m, Plain, inert, Window, h, remaining, turns);
  }

  lemma {:induction false} PlainLoopIgnoresHook<C>(m: Machine<C>, a: Hook<C>, b: Hook<C>, h: Host<C>, remaining: int, turns: nat)
    ensures Loop(m, Plain, a, h, remaining, turns) == Loop(m, Plain, b, h, remaining, turns)
    decreases turns
  {
    hide PlainTurn, HookTurn, Cycles;
    if remaining > 0 && !h.stopped && turns > 0 {
      var turn := PlainTurn(m, h);
      PlainLoopIgnoresHook(m, a, b, turn.host, remaining - Cycles(turn.charges), turns - 1);
    }
  }

  lemma PlainIgnoresHook<C>(m: Machine<C>, a: Hook<C>, b: Hook<C>, h: Host<C>, remaining: int, turns: nat)
    ensures Batch(m, Plain, a, h, remaining, turns) == Batch(m, Plain, b, h, remaining, turns)
  {
    hide Loop;
    var (begun, entry, leave) := EntryBoundary(m, Plain, a, h);
    if !leave {
      PlainLoopIgnoresHook(m, a, b, begun, remaining - Cycles(entry), turns);
    }
  }
}
