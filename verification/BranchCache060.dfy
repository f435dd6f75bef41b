/** The 68060 branch cache: 256 direct-mapped slots of packed state bytes, and
    the per-branch two-bit counters it is meant to behave like. */
module BranchCache060 {
  import opened Words

  // ------------------------------------------------------------ abstraction

  /** One slot, unpacked: the branch it holds, its two-bit saturating counter
      and the privilege mode it was allocated in. */
  datatype Slot = Empty | Entry(pc: u32, counter: nat, user: bool)

  type Slots = s: seq<Slot> | |s| == 256 witness seq(256, _ => Empty)

  function NoEntries(): Slots {
    seq(256, _ => Empty)
  }

  function SlotOf(pc: u32): nat
    ensures SlotOf(pc) < 256
  {
    pc / 2 % 256
  }

  predicate Hit(slots: Slots, pc: u32) {
    slots[SlotOf(pc)].Entry? && slots[SlotOf(pc)].pc == pc
  }

  /** A miss predicts not-taken. */
  function Predict(slots: Slots, pc: u32): Option<bool> {
    if Hit(slots, pc) then Some(slots[SlotOf(pc)].counter >= 2) else None
  }

  /** One step of a two-bit saturating counter. */
  function Saturate(counter: nat, taken: bool): nat {
    if taken then (if counter < 3 then counter + 1 else 3)
    else if counter > 0 then counter - 1 else 0
  }

  function Updated(slots: Slots, pc: u32, taken: bool, user: bool): Slots {
    var i := SlotOf(pc);
    if Hit(slots, pc) then
      slots[i := Entry(pc, Saturate(slots[i].counter, taken), slots[i].user)]
    else if taken then
      slots[i := Entry(pc, 2, user)]
    else
      slots
  }

  function UserCleared(slots: Slots): Slots {
    seq(256, i requires 0 <= i < 256 => if slots[i].Entry? && slots[i].user then Empty else slots[i])
  }

  // --------------------------------------------------------- implementation

  const BC_VALID: bv8 := 0x04
  const BC_USER: bv8 := 0x08
  const BC_COUNTER: bv8 := 0x03

  function CounterOf(state: bv8): (c: nat)
    ensures c <= 3
  {
    var bits := state & BC_COUNTER;
    if bits == 0 then 0 else if bits == 1 then 1 else if bits == 2 then 2 else 3
  }

  /** What a tag and its packed state byte stand for. */
  function Unpack(tag: u32, state: bv8): Slot {
    if state & BC_VALID == 0 then Empty
    else Entry(tag, CounterOf(state), state & BC_USER != 0)
  }

  lemma CountUp(tag: u32, state: bv8)
    requires state & BC_VALID != 0
    ensures var c := state & BC_COUNTER;
            Unpack(tag, (state & 0xFC) | if c + 1 < 3 then c + 1 else 3)
            == Entry(tag, Saturate(CounterOf(state), true), state & BC_USER != 0)
  {
  }

  lemma CountDown(tag: u32, state: bv8)
    requires state & BC_VALID != 0
    ensures var c := state & BC_COUNTER;
            Unpack(tag, (state & 0xFC) | if c == 0 then 0 else c - 1)
            == Entry(tag, Saturate(CounterOf(state), false), state & BC_USER != 0)
  {
  }

  class BranchCache {
    const tags: array<u32>
    const state: array<bv8>

    ghost predicate Valid()
      reads state
    {
      && tags.Length == state.Length == 256
      && tags as object != state
      && forall i :: 0 <= i < 256 && state[i] & BC_USER != 0 ==> state[i] & BC_VALID != 0
    }

    ghost function View(): Slots
      requires Valid()
      reads tags, state
    {
      seq(256, i requires 0 <= i < 256 reads tags, state requires Valid() => Unpack(tags[i], state[i]))
    }

    constructor ()
      ensures Valid() && fresh(tags) && fresh(state)
      ensures View() == NoEntries()
    {
      tags := new u32[256](_ => 0);
      state := new bv8[256](_ => 0);
    }

    method ClearAll()
      requires Valid()
      modifies state
      ensures Valid() && View() == NoEntries()
    {
      for i := 0 to 256
        invariant forall k :: 0 <= k < i ==> state[k] == 0
      {
        state[i] := 0;
      }
    }

    method ClearUser()
      requires Valid()
      modifies state
      ensures Valid() && View() == UserCleared(old(View()))
    {
      for i := 0 to 256
        invariant forall k :: i <= k < 256 ==> state[k] == old(state[k])
        invariant forall k :: 0 <= k < i ==>
                    state[k] == if old(state[k]) & BC_USER != 0 then 0 else old(state[k])
      {
        if state[i] & BC_USER != 0 {
          state[i] := 0;
        }
      }
    }

    method Lookup(pc: u32) returns (prediction: Option<bool>)
      requires Valid()
      ensures prediction == Predict(View(), pc)
    {
      var i := SlotOf(pc);
      if state[i] & BC_VALID != 0 && tags[i] == pc {
        prediction := Some(state[i] & BC_COUNTER >= 2);
      } else {
        prediction := None;
      }
    }

    method Record(pc: u32, taken: bool, user: bool)
      requires Valid()
      modifies tags, state
      ensures Valid() && View() == Updated(old(View()), pc, taken, user)
    {
      ghost var was := View();
      var i := SlotOf(pc);
      var hit := state[i] & BC_VALID != 0 && tags[i] == pc;
      if hit {
        CountUp(pc, state[i]);
        CountDown(pc, state[i]);
        var counter := state[i] & BC_COUNTER;
        if taken {
          counter := if counter + 1 < 3 then counter + 1 else 3;
        } else {
          counter := if counter == 0 then 0 else counter - 1;
        }
        state[i] := (state[i] & 0xFC) | counter;
      } else if taken {
        tags[i] := pc;
        state[i] := BC_VALID | (if user then BC_USER else 0) | 2;
      }
      assert View() == was[i := Unpack(tags[i], state[i])];
    }
  }

  // ------------------------------------------------- per-branch counters

  datatype Event = Branch(pc: u32, taken: bool, user: bool) | AllCleared | UserOnlyCleared

  function Apply(slots: Slots, e: Event): Slots {
    match e
    case Branch(pc, taken, user) => Updated(slots, pc, taken, user)
    case AllCleared => NoEntries()
    case UserOnlyCleared => UserCleared(slots)
  }

  function After(h: seq<Event>): Slots {
    if h == [] then NoEntries() else Apply(After(h[..|h| - 1]), h[|h| - 1])
  }

  /** Outcomes recorded for one branch, oldest first. */
  function Outcomes(pc: u32, h: seq<Event>): seq<bool> {
    if h == [] then []
    else
      var rest := Outcomes(pc, h[..|h| - 1]);
      var e := h[|h| - 1];
      if e.Branch? && e.pc == pc then rest + [e.taken] else rest
  }

  /** Count up on taken, down on not-taken, kept within 0..3. */
  function SaturatingCount(start: nat, outcomes: seq<bool>): nat {
    if outcomes == [] then start
    else Saturate(SaturatingCount(start, outcomes[..|outcomes| - 1]), outcomes[|outcomes| - 1])
  }

  /** The event that can make `pc` lose its slot: a clear that covers it, or a
      taken execution of another branch with the same slot. */
  predicate Evicts(e: Event, pc: u32, user: bool) {
    match e
    case Branch(q, taken, _) => taken && q != pc && SlotOf(q) == SlotOf(pc)
    case AllCleared => true
    case UserOnlyCleared => user
  }

  /** `a` is where the current entry of `pc` was made: a taken execution that
      missed, with nothing since that could evict it. */
  predicate AllocatedAt(h: seq<Event>, pc: u32, user: bool, a: nat) {
    && a < |h|
    && h[a] == Branch(pc, true, user)
    && !Hit(After(h[..a]), pc)
    && forall j :: a < j < |h| ==> !Evicts(h[j], pc, user)
  }

  lemma OutcomesSplit(pc: u32, h: seq<Event>, a: nat)
    requires a < |h|
    ensures Outcomes(pc, h[a..]) == Outcomes(pc, h[a..|h| - 1])
                                    + (if h[|h| - 1].Branch? && h[|h| - 1].pc == pc
                                       then [h[|h| - 1].taken] else [])
  {
    assert h[a..][..|h[a..]| - 1] == h[a..|h| - 1];
  }

  lemma CountSplit(start: nat, outcomes: seq<bool>, last: bool)
    ensures SaturatingCount(start, outcomes + [last]) == Saturate(SaturatingCount(start, outcomes), last)
  {
    assert (outcomes + [last])[..|outcomes|] == outcomes;
  }

  /** A branch that hits after an event either was allocated by it, or hit
      before it and was not evicted by it. */
  lemma HitComesFrom(slots: Slots, e: Event, pc: u32)
    requires Hit(Apply(slots, e), pc)
    ensures var now := Apply(slots, e)[SlotOf(pc)];
            if !Hit(slots, pc) then e == Branch(pc, true, now.user) && now.counter == 2
            else var was := slots[SlotOf(pc)];
                 && now.user == was.user && !Evicts(e, pc, was.user)
                 && now.counter == if e.Branch? && e.pc == pc then Saturate(was.counter, e.taken) else was.counter
  {
  }

  lemma AllocationSurvives(h: seq<Event>, pc: u32, user: bool, a: nat)
    requires h != [] && AllocatedAt(h[..|h| - 1], pc, user, a) && !Evicts(h[|h| - 1], pc, user)
    ensures AllocatedAt(h, pc, user, a)
  {
    var before := h[..|h| - 1];
    assert h[..a] == before[..a] && h[a] == before[a];
    forall j | a < j < |h|
      ensures !Evicts(h[j], pc, user)
    {
      assert j < |before| ==> h[j] == before[j];
    }
  }

  lemma CountSurvives(h: seq<Event>, pc: u32, a: nat)
    requires a < |h| - 1
    ensures var e := h[|h| - 1];
            var was := SaturatingCount(2, Outcomes(pc, h[..|h| - 1][a + 1..]));
            SaturatingCount(2, Outcomes(pc, h[a + 1..]))
            == if e.Branch? && e.pc == pc then Saturate(was, e.taken) else was
  {
    var e := h[|h| - 1];
    var outcomes := Outcomes(pc, h[a + 1..|h| - 1]);
    assert h[..|h| - 1][a + 1..] == h[a + 1..|h| - 1];
    OutcomesSplit(pc, h, a + 1);
    if e.Branch? && e.pc == pc {
      CountSplit(2, outcomes, e.taken);
    } else {
      assert outcomes + [] == outcomes;
    }
  }

  /** A hit reports the saturating count, from 2, of that branch's own outcomes
      since its entry was allocated, and every live entry has an allocation. */
  lemma {:induction false} HitReportsSaturatingCount(h: seq<Event>, pc: u32) returns (a: nat)
    requires Hit(After(h), pc)
    ensures AllocatedAt(h, pc, After(h)[SlotOf(pc)].user, a)
    ensures After(h)[SlotOf(pc)].counter == SaturatingCount(2, Outcomes(pc, h[a + 1..]))
  {
    assert h != [];
    var n := |h| - 1;
    HitComesFrom(After(h[..n]), h[n], pc);
    if Hit(After(h[..n]), pc) {
      a := HitReportsSaturatingCount(h[..n], pc);
      AllocationSurvives(h, pc, After(h)[SlotOf(pc)].user, a);
      CountSurvives(h, pc, a);
    } else {
      a := n;
      assert h[a + 1..] == [];
    }
  }

  /** Conversely, a branch with a surviving allocation hits. */
  lemma {:induction false} AllocationHits(h: seq<Event>, pc: u32, user: bool, a: nat)
    requires AllocatedAt(h, pc, user, a)
    ensures Hit(After(h), pc) && After(h)[SlotOf(pc)].user == user
  {
    var n := |h| - 1;
    if a < n {
      assert h[..n][..a] == h[..a];
      AllocationHits(h[..n], pc, user, a);
      assert !Evicts(h[n], pc, user);
    }
  }

  // ------------------------------------------------------- mispredictions

  /** Nothing in `h` can disturb the slot of `pc` except `pc` itself. */
  predicate Undisturbed(h: seq<Event>, pc: u32) {
    forall j :: 0 <= j < |h| ==>
      h[j].Branch? && (h[j].pc == pc || SlotOf(h[j].pc) != SlotOf(pc))
  }

  function Mispredicts(h: seq<Event>, pc: u32, slots: Slots): nat {
    if h == [] then 0
    else
      var e := h[0];
      match e
      case Branch(q, taken, user) =>
        (if q == pc && (Predict(slots, pc) == Some(true)) != taken then 1 else 0)
        + Mispredicts(h[1..], pc, Updated(slots, q, taken, user))
      case AllCleared => Mispredicts(h[1..], pc, NoEntries())
      case UserOnlyCleared => Mispredicts(h[1..], pc, UserCleared(slots))
  }

  /** Number of maximal runs of equal outcomes of `pc`, given the direction the
      run in progress has (if any). */
  function Runs(h: seq<Event>, pc: u32, current: Option<bool>): nat {
    if h == [] then 0
    else if h[0].Branch? && h[0].pc == pc then
      (if current == Some(h[0].taken) then 0 else 1) + Runs(h[1..], pc, Some(h[0].taken))
    else Runs(h[1..], pc, current)
  }

  /** How many more mispredictions the slot allows while outcomes keep going in
      the direction `d`. */
  function Debt(slots: Slots, pc: u32, d: bool): nat {
    if !Hit(slots, pc) then (if d then 1 else 0)
    else
      var c := slots[SlotOf(pc)].counter;
      if d then (if c >= 2 then 0 else 2 - c) else if c < 2 then 0 else if c == 2 then 1 else 2
  }

  predicate CountersInRange(slots: Slots) {
    forall i :: 0 <= i < 256 && slots[i].Entry? ==> slots[i].counter <= 3
  }

  lemma {:induction false} MispredictsPerRun(h: seq<Event>, pc: u32, slots: Slots, current: Option<bool>)
    requires Undisturbed(h, pc) && CountersInRange(slots)
    ensures Mispredicts(h, pc, slots)
            <= 2 * Runs(h, pc, current) + if current.Some? then Debt(slots, pc, current.value) else 0
  {
    if h != [] {
      var e := h[0];
      var next := Updated(slots, e.pc, e.taken, e.user);
      assert CountersInRange(next);
      MispredictsPerRun(h[1..], pc, next, if e.pc == pc then Some(e.taken) else current);
    }
  }

  /** Without aliasing or clears, every maximal run of equal outcomes of a
      branch mispredicts at most twice, whatever the cache held before. */
  lemma AtMostTwoMispredictsPerRun(h: seq<Event>, pc: u32, slots: Slots)
    requires Undisturbed(h, pc) && CountersInRange(slots)
    ensures Mispredicts(h, pc, slots) <= 2 * Runs(h, pc, None)
  {
    MispredictsPerRun(h, pc, slots, None);
  }

  /** Aliasing is what the bound excludes: two branches 512 bytes apart that
      alternate taken evict each other, so one maximal run of `0` mispredicts
      three times. */
  lemma AliasedBranchesKeepMispredicting()
    ensures var h := [Branch(0, true, false), Branch(512, true, false),
                      Branch(0, true, false), Branch(512, true, false), Branch(0, true, false)];
            Runs(h, 0, None) == 1 && Mispredicts(h, 0, NoEntries()) == 3
  {
    var a, b := Branch(0, true, false), Branch(512, true, false);
    var h := [a, b, a, b, a];
    var ea, eb := NoEntries()[0 := Entry(0, 2, false)], NoEntries()[0 := Entry(512, 2, false)];
    assert SlotOf(0) == SlotOf(512) == 0;
    assert h[1..] == [b, a, b, a] && h[1..][1..] == [a, b, a] && [a, b, a][1..] == [b, a] && [b, a][1..] == [a];
    assert Updated(NoEntries(), 0, true, false) == ea;
    assert Updated(ea, 512, true, false) == eb && Updated(eb, 0, true, false) == ea;
    assert Mispredicts([a], 0, eb) == 1;
    assert Mispredicts([b, a], 0, ea) == 1;
    assert Mispredicts([a, b, a], 0, eb) == 2;
    assert Mispredicts([b, a, b, a], 0, ea) == 2;
    assert Runs([a], 0, Some(true)) == 0 && Runs([b, a], 0, Some(true)) == 0;
    assert Runs([a, b, a], 0, Some(true)) == 0 && Runs([b, a, b, a], 0, Some(true)) == 0;
  }
}
