/** 68010 loop mode: a one-word body and its DBcc, run again from the held pair
    of words, against the ordinary DBcc that refills the queue every time. */
module LoopMode {
  import opened Words
  import opened BusMemory
  import opened Prefetch

  /** Registers, condition codes and memory: what the body works on. */
  datatype Machine = Machine(dar: seq<u32>, flags: nat, mem: seq<u8>)

  /** The held body and DBcc words. */
  datatype Held = Held(body: u16, dbcc: u16)

  datatype State = State(m: Machine, pc: u32, queue: seq<u16>, loop: Option<Held>, fetches: nat)

  /** `loopable_68010`: the one-word instructions loop mode holds. */
  predicate Loopable68010(op: u16) {
    var family, mode, opmode := op / 0x1000, op / 8 % 8, op / 0x40 % 8;
    var loopEa := 2 <= mode <= 4;
    if 1 <= family <= 3 then mode <= 4 && 2 <= opmode <= 4
    else if family == 4 then loopEa && LoopableUnary(op / 0x100 % 16, opmode % 4)
    else if family == 8 || family == 0xC then
      (opmode == 4 && mode == 1) || (loopEa && opmode != 3 && opmode != 7)
    else if family == 9 || family == 0xB || family == 0xD then
      (4 <= opmode <= 6 && mode == 1) || loopEa
    else family == 0xE && opmode == 3 && loopEa && op / 0x200 % 8 <= 3
  }

  /** NEGX, CLR, NEG, NOT and TST of any size, and NBCD. */
  predicate LoopableUnary(hi: nat, size: nat) {
    ((hi == 0 || hi == 2 || hi == 4 || hi == 6 || hi == 0xA) && size != 3) || (hi == 8 && size == 0)
  }

  /** What a one-word instruction does, and whether a condition holds. */
  datatype Isa = Isa(run: (u16, Machine) -> Machine, holds: (nat, nat) -> bool)

  predicate Sane(m: Machine) {
    |m.dar| == 16 && Bus24.Holds(m.mem)
  }

  ghost predicate Keeps(isa: Isa) {
    forall word: u16, m: Machine :: Sane(m) ==> Sane(isa.run(word, m))
  }

  predicate Full(s: State) {
    Sane(s.m) && |s.queue| == 2
  }

  function WordAhead(s: State, d: nat): u16
    requires Sane(s.m)
  {
    WordAt(s.m.mem, Add32(s.pc, d))
  }

  /** The queue refilled at a new PC. */
  function RefilledAt(s: State, pc: u32): (r: State)
    requires Sane(s.m)
    ensures Full(r) && r.m == s.m
  {
    var t := s.(pc := pc);
    t.(queue := [WordAhead(t, 0), WordAhead(t, 2)], fetches := s.fetches + 2)
  }

  /** The body: its word consumed, its effect, and outside loop mode the final
      prefetch behind it. */
  ghost function BodyStep(isa: Isa, s: State): (r: State)
    requires Full(s) && Keeps(isa)
    ensures Sane(r.m) && (s.loop.None? ==> Full(r)) && |r.queue| >= 1 && r.loop == s.loop
  {
    var t := s.(m := isa.run(s.queue[0], s.m), pc := Add32(s.pc, 2), queue := s.queue[1..]);
    if s.loop.Some? then t else t.(queue := t.queue + [WordAhead(t, 2)], fetches := t.fetches + 1)
  }

  function Decremented(v: u32): u32 {
    v - v % 0x1_0000 + (v + 0xFFFF) % 0x1_0000
  }

  function Condition(opcode: u16): nat {
    opcode / 0x100 % 16
  }

  function Counter(opcode: u16): nat
    ensures Counter(opcode) < 8
  {
    opcode % 8
  }

  function Counted(s: State, opcode: u16): (r: State)
    requires Sane(s.m)
    ensures Sane(r.m)
  {
    var n := Counter(opcode);
    s.(m := s.m.(dar := s.m.dar[n := Decremented(s.m.dar[n])]))
  }

  /** DBcc while looping: no instruction fetch on a taken iteration. */
  function LoopDbcc(isa: Isa, s: State): (r: State)
    requires Sane(s.m) && |s.queue| >= 1 && s.loop.Some?
    ensures Full(r)
  {
    var opcode := s.queue[0];
    var at := s.(pc := Add32(s.pc, 2));
    if isa.holds(s.m.flags, Condition(opcode)) then RefilledAt(at.(loop := None), Add32(at.pc, 2))
    else
      var t := Counted(at, opcode);
      if t.m.dar[Counter(opcode)] % 0x1_0000 != 0xFFFF then
        t.(pc := Sub32(at.pc, 4), queue := [s.loop.value.body, s.loop.value.dbcc])
      else RefilledAt(t.(loop := None), Add32(at.pc, 2))
  }

  /** The ordinary DBcc: its displacement word, then the target or what follows. */
  function OrdinaryDbcc(isa: Isa, s: State): (r: State)
    requires Full(s) && s.loop.None?
    ensures Full(r) && r.loop.None?
  {
    var opcode, disp := s.queue[0], s.queue[1];
    var at := s.(pc := Add32(s.pc, 2));
    if isa.holds(s.m.flags, Condition(opcode)) then RefilledAt(at, Add32(at.pc, 2))
    else
      var t := Counted(at, opcode);
      if t.m.dar[Counter(opcode)] % 0x1_0000 != 0xFFFF then RefilledAt(t, Add32(at.pc, Sext16(disp)))
      else RefilledAt(t.(fetches := t.fetches + 1), Add32(at.pc, 2))
  }

  /** The 68010's entry: a -4 displacement back to a loopable body. */
  function EnteringDbcc(isa: Isa, s: State): (r: State)
    requires Full(s) && s.loop.None?
    ensures Full(r)
  {
    var opcode, disp := s.queue[0], s.queue[1];
    var r := OrdinaryDbcc(isa, s);
    var taken := !isa.holds(s.m.flags, Condition(opcode)) && r.m.dar[Counter(opcode)] % 0x1_0000 != 0xFFFF;
    if taken && Sext16(disp) == -4 && Loopable68010(r.queue[0]) then r.(loop := Some(Held(r.queue[0], opcode))) else r
  }

  // ------------------------------------------------------------- the core

  /** DBcc as the dispatcher runs it on the 68010, in and out of loop mode. */
  class Core {
    const isa: Isa
    var dar: seq<u32>
    var flags: nat
    var mem: seq<u8>
    var pc: u32
    var queue0: u16
    var queue1: u16
    var prefetchCount: nat
    var loopMode: bool
    var loopBodyWord: u16
    var loopDbccWord: u16
    var fetches: nat

    constructor (isa: Isa, m: Machine, pc: u32)
      requires Sane(m)
      ensures View() == RefilledAt(State(m, 0, [], None, 0), pc) && this.isa == isa
    {
      this.isa := isa;
      dar, flags, mem, this.pc := m.dar, m.flags, m.mem, pc;
      queue0, queue1 := WordAt(m.mem, Add32(pc, 0)), WordAt(m.mem, Add32(pc, 2));
      prefetchCount, loopMode, fetches := 2, false, 2;
    }

    ghost function View(): State
      reads this
    {
      State(Machine(dar, flags, mem), pc,
            if prefetchCount == 0 then [] else if prefetchCount == 1 then [queue0] else [queue0, queue1],
            if loopMode then Some(Held(loopBodyWord, loopDbccWord)) else None, fetches)
    }

    method FullPrefetch()
      requires Sane(View().m)
      modifies this`queue0, this`queue1, this`prefetchCount, this`fetches
      ensures View() == RefilledAt(old(View()), pc)
    {
      queue0 := WordAt(mem, Add32(pc, 0));
      queue1 := WordAt(mem, Add32(pc, 2));
      prefetchCount := 2;
      fetches := fetches + 2;
    }

    method CountDown(reg: nat) returns (expired: bool)
      requires Sane(View().m) && reg < 8
      modifies this`dar
      ensures dar == old(dar)[reg := Decremented(old(dar)[reg])] && expired == (dar[reg] % 0x1_0000 == 0xFFFF)
    {
      dar := dar[reg := Decremented(dar[reg])];
      expired := dar[reg] % 0x1_0000 == 0xFFFF;
    }

    method DbccLooping()
      requires Sane(View().m) && 1 <= prefetchCount <= 2 && loopMode
      modifies this
      ensures View() == LoopDbcc(isa, old(View()))
    {
      hide WordAt, Decremented;
      var opcode := queue0;
      pc := Add32(pc, 2);
      if isa.holds(flags, Condition(opcode)) {
        loopMode := false;
        pc := Add32(pc, 2);
        FullPrefetch();
        return;
      }
      var expired := CountDown(Counter(opcode));
      if !expired {
        pc := Sub32(pc, 4);
        queue0, queue1, prefetchCount := loopBodyWord, loopDbccWord, 2;
        return;
      }
      loopMode := false;
      pc := Add32(pc, 2);
      FullPrefetch();
    }

    method DbccOrdinary()
      requires Sane(View().m) && prefetchCount == 2 && !loopMode
      modifies this
      ensures View() == EnteringDbcc(isa, old(View()))
    {
      hide WordAt, Decremented, Sext16, Add32, Condition, Counter, Loopable68010;
      var opcode, disp := queue0, queue1;
      pc := Add32(pc, 2);
      if isa.holds(flags, Condition(opcode)) {
        pc := Add32(pc, 2);
        FullPrefetch();
        return;
      }
      var expired := CountDown(Counter(opcode));
      if expired {
        fetches := fetches + 1;                          // discarded
        pc := Add32(pc, 2);
        FullPrefetch();
        return;
      }
      pc := Add32(pc, Sext16(disp));
      FullPrefetch();
      if Sext16(disp) == -4 && Loopable68010(queue0) {
        loopMode, loopBodyWord, loopDbccWord := true, queue0, opcode;
      }
    }

    method Dbcc()
      requires Sane(View().m) && 1 <= prefetchCount <= 2 && (!loopMode ==> prefetchCount == 2)
      modifies this
      ensures View() == if old(loopMode) then LoopDbcc(isa, old(View())) else EnteringDbcc(isa, old(View()))
    {
      if loopMode {
        DbccLooping();
      } else {
        DbccOrdinary();
      }
    }
  }

  // ------------------------------------------------------------ transparency

  /** Two states no program can tell apart. */
  predicate Same(a: State, b: State) {
    a.m == b.m && a.pc == b.pc && a.queue == b.queue
  }

  /** At the loop's body: memory holds the pair and the displacement behind it. */
  predicate AtBody(s: State, held: Held)
    requires Sane(s.m)
  {
    && s.queue == [held.body, held.dbcc]
    && WordAhead(s, 0) == held.body && WordAhead(s, 2) == held.dbcc && WordAhead(s, 4) == 0xFFFC
  }

  /** The body stores into none of the three words. */
  ghost predicate Leaves(isa: Isa, s: State, held: Held)
    requires Full(s) && Keeps(isa)
  {
    var t := s.(m := isa.run(held.body, s.m));
    WordAhead(t, 0) == held.body && WordAhead(t, 2) == held.dbcc && WordAhead(t, 4) == 0xFFFC
  }

  lemma Steps(pc: u32)
    ensures Add32(Add32(pc, 2), 2) == Add32(pc, 4) && Sub32(Add32(pc, 4), 4) == pc && Add32(pc, 0) == pc
    ensures Add32(Add32(pc, 4), -4) == pc && Add32(Add32(pc, 4), 2) == Add32(pc, 6)
  {
    AddAdd(pc, 2, 2);
    AddAdd(pc, 4, -4);
    AddAdd(pc, 4, 2);
    assert Sub32(Add32(pc, 4), 4) == Add32(Add32(pc, 4), -4);
  }

  lemma AddAdd(a: u32, x: int, y: int)
    ensures Add32(Add32(a, x), y) == Add32(a, x + y) && Add32(a, 0) == a
  {
  }

  /** One turn of the loop, held or not. */
  lemma TurnIsTransparent(isa: Isa, s: State, o: State, held: Held)
    requires Full(s) && Full(o) && Keeps(isa) && Same(s, o) && s.loop == Some(held) && o.loop.None?
    requires AtBody(s, held) && Leaves(isa, s, held)
    ensures var a, b := LoopDbcc(isa, BodyStep(isa, s)), OrdinaryDbcc(isa, BodyStep(isa, o));
            && Same(a, b)
            && (a.loop.Some? ==> a.loop == s.loop && a.pc == s.pc && a.fetches == s.fetches && AtBody(a, held))
            && (a.loop.None? ==> a.pc == Add32(s.pc, 6))
  {
    hide WordAt, Decremented;
    Steps(s.pc);
    var x, y := BodyStep(isa, s), BodyStep(isa, o);
    assert x.queue == [held.dbcc] && y.queue[0] == held.dbcc;
    assert y.queue[1] == 0xFFFC && Sext16(0xFFFC) == -4;
  }

  /** A taken turn is the ordinary DBcc's exactly when the body has left the
      three words alone: the displacement, which the held pair does not include,
      as much as the pair. */
  lemma DisplacementMatters(isa: Isa, s: State, o: State, held: Held)
    requires Full(s) && Full(o) && Keeps(isa) && Same(s, o) && s.loop == Some(held) && o.loop.None?
    requires AtBody(s, held) && LoopDbcc(isa, BodyStep(isa, s)).loop.Some?
    ensures var a, b := LoopDbcc(isa, BodyStep(isa, s)), OrdinaryDbcc(isa, BodyStep(isa, o));
            && (Same(a, b) <==> Leaves(isa, s, held))
            && (a.pc == b.pc <==> WordAhead(s.(m := isa.run(held.body, s.m)), 4) == 0xFFFC)
  {
    hide WordAt, Decremented;
    Steps(s.pc);
    var y := BodyStep(isa, o);
    var disp := WordAhead(s.(m := isa.run(held.body, s.m)), 4);
    assert y.queue == [held.dbcc, disp];
    BackToStart(s.pc, disp);
  }

  /** MOVE.W D0,(A0): what the failing loop below repeats. */
  const MOVE_D0_TO_A0: u16 := 0x3080

  /** DBF D1,-4. */
  const DBF_D1: u16 := 0x51C9

  function MoveD0ToA0(word: u16, m: Machine): Machine {
    if word == MOVE_D0_TO_A0 && Sane(m) then m.(mem := Write(Bus24, m.mem, m.dar[8], Bytes16(m.dar[0] % 0x1_0000)))
    else m
  }

  /** A loop the program can contain: its loopable body stores D0 over the
      displacement of its own DBF. Held, it goes round again; the ordinary DBF
      would branch elsewhere, whatever D0 holds but the displacement itself. */
  lemma StoringOntoTheDisplacement(isa: Isa, m: Machine, pc: u32, held: Held)
    requires held == Held(MOVE_D0_TO_A0, DBF_D1)
    requires isa.run == MoveD0ToA0 && (forall f :: !isa.holds(f, 1))
    requires Sane(m) && m.dar[8] == Add32(pc, 4) && m.dar[0] % 0x1_0000 != 0xFFFC && m.dar[1] % 0x1_0000 != 0
    requires AtBody(State(m, pc, [held.body, held.dbcc], None, 0), held)
    ensures Loopable68010(held.body) && Keeps(isa)
    ensures var o := State(m, pc, [held.body, held.dbcc], None, 0);
            && LoopDbcc(isa, BodyStep(isa, o.(loop := Some(held)))).pc == pc
            && OrdinaryDbcc(isa, BodyStep(isa, o)).pc != pc
  {
    StoringKeeps(isa);
    FailingWords(held);
    hide WordAt, Decremented, Write, Bytes16, LoopDbcc, OrdinaryDbcc, BodyStep, Loopable68010, Condition, Counter;
    var o := State(m, pc, [held.body, held.dbcc], None, 0);
    var s := o.(loop := Some(held));
    StoredWord(m.mem, m.dar[8], m.dar[0] % 0x1_0000);
    DecrementedCounter(m.dar[1]);
    TakenTurn(isa, s, held);
    DisplacementMatters(isa, s, o, held);
  }

  lemma FailingWords(held: Held)
    requires held == Held(MOVE_D0_TO_A0, DBF_D1)
    ensures Loopable68010(held.body) && Condition(held.dbcc) == 1 && Counter(held.dbcc) == 1
  {
  }

  lemma StoringKeeps(isa: Isa)
    requires isa.run == MoveD0ToA0
    ensures Keeps(isa)
  {
  }

  /** The held DBcc's condition false and its counter not expired. */
  lemma TakenTurn(isa: Isa, s: State, held: Held)
    requires Full(s) && Keeps(isa) && s.loop == Some(held) && s.queue == [held.body, held.dbcc]
    requires var t := isa.run(held.body, s.m);
             !isa.holds(t.flags, Condition(held.dbcc)) && Decremented(t.dar[Counter(held.dbcc)]) % 0x1_0000 != 0xFFFF
    ensures var a := LoopDbcc(isa, BodyStep(isa, s)); a.loop.Some? && a.pc == s.pc
  {
    hide WordAt, Decremented, Condition, Counter;
    Steps(s.pc);
  }

  lemma DecrementedCounter(v: u32)
    ensures Decremented(v) % 0x1_0000 == 0xFFFF <==> v % 0x1_0000 == 0
  {
  }

  lemma StoredWord(mem: seq<u8>, a: u32, w: u16)
    requires Bus24.Holds(mem)
    ensures WordAt(Write(Bus24, mem, a, Bytes16(w)), a) == w
  {
    var b, after := Bytes16(w), Write(Bus24, mem, a, Bytes16(w));
    BlockReadsBack(Bus24, mem, a, b);
    assert b[0..2] == b;
    Word16ReadsBack(Bus24, after, a, 2, 0, w);
  }

  lemma BackToStart(pc: u32, disp: u16)
    ensures Add32(Add32(pc, 4), Sext16(disp)) == pc <==> disp == 0xFFFC
  {
  }

  /** `n` turns, or fewer if the loop is left first. */
  ghost function LoopTurns(isa: Isa, s: State, n: nat): (r: State)
    requires Full(s) && Keeps(isa)
    ensures Full(r)
    decreases n
  {
    if n == 0 || s.loop.None? then s else LoopTurns(isa, LoopDbcc(isa, BodyStep(isa, s)), n - 1)
  }

  /** The same turns without loop mode; `home` is the body's address. */
  ghost function OrdinaryTurns(isa: Isa, s: State, home: u32, n: nat): (r: State)
    requires Full(s) && Keeps(isa) && s.loop.None?
    ensures Full(r)
    decreases n
  {
    if n == 0 || s.pc != home then s else OrdinaryTurns(isa, OrdinaryDbcc(isa, BodyStep(isa, s)), home, n - 1)
  }

  /** Every turn's body spares the three words. */
  ghost predicate AllLeave(isa: Isa, s: State, held: Held, n: nat)
    requires Full(s) && Keeps(isa)
    decreases n
  {
    n > 0 && s.loop.Some? ==> Leaves(isa, s, held) && AllLeave(isa, LoopDbcc(isa, BodyStep(isa, s)), held, n - 1)
  }

  /** Loop mode is transparent: from the moment the pair is held, any number of
      turns leaves the registers, memory, PC and queue of the ordinary DBcc,
      and no turn that stays in the loop fetches an instruction word. */
  lemma {:induction false} LoopModeIsTransparent(isa: Isa, s: State, o: State, held: Held, n: nat)
    requires Full(s) && Full(o) && Keeps(isa) && Same(s, o) && s.loop == Some(held) && o.loop.None?
    requires AtBody(s, held) && AllLeave(isa, s, held, n)
    ensures var a := LoopTurns(isa, s, n);
            && Same(a, OrdinaryTurns(isa, o, s.pc, n))
            && (a.loop.Some? ==> a.fetches == s.fetches)
    decreases n
  {
    hide LoopDbcc, OrdinaryDbcc, BodyStep, Leaves, AtBody;
    if n > 0 {
      TurnIsTransparent(isa, s, o, held);
      var a, b := LoopDbcc(isa, BodyStep(isa, s)), OrdinaryDbcc(isa, BodyStep(isa, o));
      if a.loop.Some? {
        LoopModeIsTransparent(isa, a, b, held, n - 1);
      } else {
        LeavesHome(s.pc);
      }
    }
  }

  lemma LeavesHome(pc: u32)
    ensures Add32(pc, 6) != pc
  {
  }

  /** What entry holds is the pair in memory, so the law applies from there. */
  lemma EntryHoldsThePair(isa: Isa, s: State)
    requires Full(s) && s.loop.None?
    requires s.queue[0] == WordAhead(s, 0) && s.queue[1] == WordAhead(s, 2)
    requires EnteringDbcc(isa, s).loop.Some?
    ensures var r := EnteringDbcc(isa, s); AtBody(r, r.loop.value) && Loopable68010(r.loop.value.body)
  {
    hide WordAt, Decremented;
    var r := EnteringDbcc(isa, s);
    BackTwo(s.pc);
    assert Sext16(s.queue[1]) == -4 ==> s.queue[1] == 0xFFFC;
  }

  lemma BackTwo(pc: u32)
    ensures var t := Add32(Add32(pc, 2), -4);
            Add32(t, 0) == t && Add32(t, 2) == pc && Add32(t, 4) == Add32(pc, 2) && Add32(pc, 0) == pc
  {
    AddAdd(pc, 2, -4);
    AddAdd(pc, -2, 2);
    AddAdd(pc, -2, 4);
  }
}
