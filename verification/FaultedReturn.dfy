/** RTE as its code runs it, read by read, under an active MMU that may refuse
    any of the reads: what is left of the stacks when it faults. */
module FaultedReturn {
  import opened Words
  import opened BusMemory
  import opened Exceptions
  import E = PagedEntry
  import opened FaultedInstruction
  import P = PagedAccess

  /** What data reads meet in user mode, and the status long word the 68060
      reports for a refusal. What they meet in supervisor mode is the state's. */
  datatype Env = Env(user: P.Space, fslw: u32)

  function SpaceOf(env: Env, s: State): P.Space {
    if s.sr.s then s.space else env.user
  }

  predicate Runs(model: Model, s: State) {
    Sound(model, s) && !model.Pre68020()
  }

  const USER_DATA := 1
  const SUPERVISOR_DATA := 5

  function FaultOf(env: Env, sr: Sr, r: P.Refusal): Fault {
    Fault(false, false, r.size, r.address, 0, if sr.s then SUPERVISOR_DATA else USER_DATA, r.Unmapped?, env.fslw)
  }

  // ------------------------------------------------------------------- reads

  /** `read_16`, `read_32`: nothing once the instruction has faulted; a refusal
      dispatches the fault. */
  function ReadData(env: Env, model: Model, s: State, a: u32, n: nat): (r: (State, nat))
    requires Runs(model, s) && 0 < n <= 4
    ensures Runs(model, r.0) && r.1 < Limit(n)
  {
    if s.faulted then (s, 0)
    else
      P.PagedBytes(SpaceOf(env, s), s.mem, s.readOverride, a, n, P.DataRead);
      var got := P.PagedRead(SpaceOf(env, s), s.mem, s.readOverride, a, n, P.DataRead);
      var t := s.(readOverride := got.over);
      (if got.refused.Some? then Trigger(model, t, FaultOf(env, s.sr, got.refused.value)) else t, P.Seen(n, got.bytes))
  }

  lemma Limits()
    ensures Limit(2) == 0x1_0000 && Limit(4) == 0x1_0000_0000
  {
  }

  function ReadWord(env: Env, model: Model, s: State, a: u32): (r: (State, u16))
    requires Runs(model, s)
    ensures Runs(model, r.0)
  {
    Limits();
    ReadData(env, model, s, a, 2)
  }

  function ReadLong(env: Env, model: Model, s: State, a: u32): (r: (State, u32))
    requires Runs(model, s)
    ensures Runs(model, r.0)
  {
    Limits();
    ReadData(env, model, s, a, 4)
  }

  /** A7 raised by `n`. */
  function Discard(model: Model, s: State, n: nat): (r: State)
    requires Runs(model, s)
    ensures Runs(model, r)
  {
    s.(dar := s.dar[15 := Add32(s.dar[15], n)])
  }

  /** `pull_16`, `pull_32`: A7 moves whether or not the read was granted. */
  function PullWord(env: Env, model: Model, s: State): (r: (State, u16))
    requires Runs(model, s)
    ensures Runs(model, r.0)
  {
    var (t, v) := ReadWord(env, model, s, s.dar[15]);
    (Discard(model, t, 2), v)
  }

  function PullLong(env: Env, model: Model, s: State): (r: (State, u32))
    requires Runs(model, s)
    ensures Runs(model, r.0)
  {
    var (t, v) := ReadLong(env, model, s, s.dar[15]);
    (Discard(model, t, 4), v)
  }

  function SetSr(model: Model, s: State, word: u16): (r: State)
    requires Runs(model, s)
    ensures Runs(model, r)
  {
    SwitchTo(model, s, Unpack(model, word))
  }

  // --------------------------------------------------------------- one frame

  /** SR, PC and format word pulled, `rest` bytes dropped, SR loaded. */
  function Body(env: Env, model: Model, s: State, rest: nat): (r: State)
    requires Runs(model, s)
    ensures Runs(model, r)
  {
    var (a, word) := PullWord(env, model, s);
    var (b, target) := PullLong(env, model, a);
    var (c, _) := PullWord(env, model, b.(pc := target));
    SetSr(model, Discard(model, c, rest), word)
  }

  /** A format $1 frame: only its SR counts. */
  function Throwaway(env: Env, model: Model, s: State): (r: State)
    requires Runs(model, s)
    ensures Runs(model, r)
  {
    var (a, word) := PullWord(env, model, s);
    SetSr(model, Discard(model, a, 6), word)
  }

  /** The writeback protocol of format $7, with the words as they were read. */
  function ArmWriteback(env: Env, model: Model, s: State): (r: State)
    requires Runs(model, s)
    ensures Runs(model, r)
  {
    var sp := s.dar[15];
    var (a, ssw) := ReadWord(env, model, s, Add32(sp, 0x0C));
    if HasBit(ssw, 0x100) || !HasBit(ssw, 0x400) then a
    else
      var (b, wb3s) := ReadWord(env, model, a, Add32(sp, 0x0E));
      if HasBit(wb3s, 0x80) then b
      else
        var (c, wb3a) := ReadLong(env, model, b, Add32(sp, 0x18));
        c.(writeSuppress := Some(wb3a))
  }

  /** The data-cycle protocol of format $B. */
  function ArmDataCycle(env: Env, model: Model, s: State): (r: State)
    requires Runs(model, s)
    ensures Runs(model, r)
  {
    var sp := s.dar[15];
    var (a, ssw) := ReadWord(env, model, s, Add32(sp, 0x0A));
    if HasBit(ssw, 0x100) || ssw / 0x1000 != 0 then a
    else
      var (b, address) := ReadLong(env, model, a, Add32(sp, 0x10));
      if HasBit(ssw, 0x40) then
        var (c, input) := ReadLong(env, model, b, Add32(sp, 0x2C));
        c.(readOverride := Some((address, input)))
      else b.(writeSuppress := Some(address))
  }

  datatype Turn = Crossed(s: State) | Left(s: State) | Malformed(s: State)

  /** One turn of the loop in RTE. */
  function TurnOf(env: Env, model: Model, s: State): (r: Turn)
    requires Runs(model, s)
    ensures Runs(model, r.s)
  {
    var (t, word) := ReadWord(env, model, s, Add32(s.dar[15], 6));
    TurnFor(env, model, t, word / 0x1000)
  }

  function TurnFor(env: Env, model: Model, t: State, format: nat): (r: Turn)
    requires Runs(model, t)
    ensures Runs(model, r.s)
  {
    if format == 1 then Crossed(Throwaway(env, model, t))
    else
      match Rest(model, format)
      case None => Malformed(t)
      case Some(rest) => Left(Body(env, model, Honoured(env, model, t, format), rest))
  }

  /** What a frame holds after its format word, by format. */
  function Rest(model: Model, format: nat): Option<nat> {
    if format == 0 then Some(0)
    else if format == 2 then Some(4)
    else if format == 4 && model.M68060? then Some(8)
    else if format == 7 && model.Is040() then Some(52)
    else if format == 0xA && model.Is020Or030() then Some(24)
    else if format == 0xB && model.Is020Or030() then Some(84)
    else None
  }

  /** The fault frames' one-shot protocols come before the pulls. */
  function Honoured(env: Env, model: Model, t: State, format: nat): (r: State)
    requires Runs(model, t)
    ensures Runs(model, r)
  {
    if format == 7 then ArmWriteback(env, model, t) else if format == 0xB then ArmDataCycle(env, model, t) else t
  }

  /** RTE from supervisor mode, over at most `limit` throwaway frames. */
  datatype Outcome = Back(s: State) | FormatError(s: State) | Unfinished

  function Return(env: Env, model: Model, s: State, limit: nat): (r: Outcome)
    requires Runs(model, s)
    ensures !r.Unfinished? ==> Runs(model, r.s)
    decreases limit
  {
    match TurnOf(env, model, s)
    case Left(t) => Back(t)
    case Malformed(t) => FormatError(t)
    case Crossed(t) => if limit == 0 then Unfinished else Return(env, model, t, limit - 1)
  }

  // -------------------------------------------------------- in place, on a core

  method ReadCycles(cpu: Cpu, env: Env, a: u32, n: nat) returns (v: nat)
    requires Runs(cpu.model, cpu.View()) && 0 < n <= 4
    modifies cpu
    ensures Runs(cpu.model, cpu.View()) && (cpu.View(), v) == ReadData(env, cpu.model, old(cpu.View()), a, n)
    ensures v < Limit(n)
  {
    hide P.PagedRead, Trigger, P.Seen, Active;
    if cpu.berrMode {
      return 0;
    }
    var sr, space := cpu.sr, if cpu.sr.s then cpu.space else env.user;
    var got := P.PagedRead(space, cpu.mem, cpu.readOverride, a, n, P.DataRead);
    P.PagedBytes(space, cpu.mem, cpu.readOverride, a, n, P.DataRead);
    cpu.readOverride := got.over;
    if got.refused.Some? {
      cpu.TriggerBusError(FaultOf(env, sr, got.refused.value));
    }
    v := P.Seen(n, got.bytes);
  }

  method Read16(cpu: Cpu, env: Env, a: u32) returns (v: u16)
    requires Runs(cpu.model, cpu.View())
    modifies cpu
    ensures Runs(cpu.model, cpu.View()) && (cpu.View(), v) == ReadWord(env, cpu.model, old(cpu.View()), a)
  {
    hide ReadData;
    Limits();
    v := ReadCycles(cpu, env, a, 2);
  }

  method Read32(cpu: Cpu, env: Env, a: u32) returns (v: u32)
    requires Runs(cpu.model, cpu.View())
    modifies cpu
    ensures Runs(cpu.model, cpu.View()) && (cpu.View(), v) == ReadLong(env, cpu.model, old(cpu.View()), a)
  {
    hide ReadData;
    Limits();
    v := ReadCycles(cpu, env, a, 4);
  }

  method DropBytes(cpu: Cpu, n: nat)
    requires Runs(cpu.model, cpu.View())
    modifies cpu`dar
    ensures Runs(cpu.model, cpu.View()) && cpu.View() == Discard(cpu.model, old(cpu.View()), n)
  {
    cpu.dar := cpu.dar[15 := Add32(cpu.dar[15], n)];
  }

  method Pull16(cpu: Cpu, env: Env) returns (v: u16)
    requires Runs(cpu.model, cpu.View())
    modifies cpu
    ensures Runs(cpu.model, cpu.View()) && (cpu.View(), v) == PullWord(env, cpu.model, old(cpu.View()))
  {
    hide ReadWord, Active;
    v := Read16(cpu, env, cpu.dar[15]);
    DropBytes(cpu, 2);
  }

  method Pull32(cpu: Cpu, env: Env) returns (v: u32)
    requires Runs(cpu.model, cpu.View())
    modifies cpu
    ensures Runs(cpu.model, cpu.View()) && (cpu.View(), v) == PullLong(env, cpu.model, old(cpu.View()))
  {
    hide ReadLong, Active;
    v := Read32(cpu, env, cpu.dar[15]);
    DropBytes(cpu, 4);
  }

  method PullContext(cpu: Cpu, env: Env, rest: nat)
    requires Runs(cpu.model, cpu.View())
    modifies cpu
    ensures Runs(cpu.model, cpu.View()) && cpu.View() == Body(env, cpu.model, old(cpu.View()), rest)
  {
    hide PullWord, PullLong, Active, Unpack;
    var word := Pull16(cpu, env);
    cpu.pc := Pull32(cpu, env);
    var _ := Pull16(cpu, env);
    DropBytes(cpu, rest);
    cpu.SetSr(word);
  }

  method DiscardThrowaway(cpu: Cpu, env: Env)
    requires Runs(cpu.model, cpu.View())
    modifies cpu
    ensures Runs(cpu.model, cpu.View()) && cpu.View() == Throwaway(env, cpu.model, old(cpu.View()))
  {
    hide PullWord, Active, Unpack;
    var word := Pull16(cpu, env);
    DropBytes(cpu, 6);
    cpu.SetSr(word);
  }

  method HonourWriteback(cpu: Cpu, env: Env)
    requires Runs(cpu.model, cpu.View())
    modifies cpu
    ensures Runs(cpu.model, cpu.View()) && cpu.View() == ArmWriteback(env, cpu.model, old(cpu.View()))
  {
    hide ReadWord, ReadLong, Active;
    var sp := cpu.dar[15];
    var ssw := Read16(cpu, env, Add32(sp, 0x0C));
    if !HasBit(ssw, 0x100) && HasBit(ssw, 0x400) {
      var wb3s := Read16(cpu, env, Add32(sp, 0x0E));
      if !HasBit(wb3s, 0x80) {
        var wb3a := Read32(cpu, env, Add32(sp, 0x18));
        cpu.writeSuppress := Some(wb3a);
      }
    }
  }

  method HonourDataCycle(cpu: Cpu, env: Env)
    requires Runs(cpu.model, cpu.View())
    modifies cpu
    ensures Runs(cpu.model, cpu.View()) && cpu.View() == ArmDataCycle(env, cpu.model, old(cpu.View()))
  {
    hide ReadWord, ReadLong, Active;
    var sp := cpu.dar[15];
    var ssw := Read16(cpu, env, Add32(sp, 0x0A));
    if !HasBit(ssw, 0x100) && ssw / 0x1000 == 0 {
      var address := Read32(cpu, env, Add32(sp, 0x10));
      if HasBit(ssw, 0x40) {
        var input := Read32(cpu, env, Add32(sp, 0x2C));
        cpu.readOverride := Some((address, input));
      } else {
        cpu.writeSuppress := Some(address);
      }
    }
  }

  datatype Exit = Done | Invalid | More

  /** RTE from supervisor mode, over at most `limit` throwaway frames. */
  method ReturnFromException(cpu: Cpu, env: Env, limit: nat) returns (exit: Exit)
    requires Runs(cpu.model, cpu.View())
    modifies cpu
    ensures Runs(cpu.model, cpu.View())
    ensures match Return(env, cpu.model, old(cpu.View()), limit)
            case Back(t) => exit.Done? && cpu.View() == t
            case FormatError(t) => exit.Invalid? && cpu.View() == t
            case Unfinished => exit.More?
  {
    hide ReadWord, Body, Throwaway, ArmWriteback, ArmDataCycle, Active;
    var model, left := cpu.model, limit;
    while true
      invariant cpu.model == model && Runs(model, cpu.View()) && 0 <= left <= limit
      invariant Return(env, model, cpu.View(), left) == Return(env, model, old(cpu.View()), limit)
      decreases left
    {
      ghost var head := cpu.View();
      var word := Read16(cpu, env, Add32(cpu.dar[15], 6));
      var format := word / 0x1000;
      if format == 1 {
        DiscardThrowaway(cpu, env);
        assert TurnOf(env, model, head) == Crossed(cpu.View());
        if left == 0 {
          return More;
        }
        left := left - 1;
      } else {
        var known := FinishFrame(cpu, env, format);
        return if known then Done else Invalid;
      }
    }
  }

  method FinishFrame(cpu: Cpu, env: Env, format: nat) returns (known: bool)
    requires Runs(cpu.model, cpu.View()) && format != 1
    modifies cpu
    ensures Runs(cpu.model, cpu.View())
    ensures TurnFor(env, cpu.model, old(cpu.View()), format) == if known then Left(cpu.View()) else Malformed(cpu.View())
  {
    hide Body, ArmWriteback, ArmDataCycle, Active, Sound;
    known := true;
    if format == 0 {
      PullContext(cpu, env, 0);
    } else if format == 2 {
      PullContext(cpu, env, 4);
    } else if format == 4 && cpu.model.M68060? {
      PullContext(cpu, env, 8);
    } else if format == 7 && cpu.model.Is040() {
      HonourWriteback(cpu, env);
      PullContext(cpu, env, 52);
    } else if format == 0xA && cpu.model.Is020Or030() {
      PullContext(cpu, env, 24);
    } else if format == 0xB && cpu.model.Is020Or030() {
      HonourDataCycle(cpu, env);
      PullContext(cpu, env, 84);
    } else {
      known := false;
    }
  }

  // ---------------------------------------------------------- inside one frame

  /** A fault of the RTE that started in `s` has been dispatched: the handler is
      captured, every stack but its own is as in `banks`, and the core has
      stopped if the entry was refused in its turn. */
  ghost predicate Struck(model: Model, s: State, banks: Stacks, x: State)
    requires Runs(model, s)
  {
    && x.faulted && x.resume.Some? && |x.resume.value.dar| == 16
    && x.resume.value.sr == Pack(SupervisorSr(s.sr, Simple(BUS_ERROR)))
    && x.resume.value.dar[..15] == s.dar[..15] && x.resume.value.dar[15] == HandlerSp(model, s)
    && SameElsewhere(Active(model, s.sr), x.banks, banks)
    && MayStop(model, s, x.stopped)
  }

  /** The stack pointer that any data fault of `s` starts its handler with. */
  function HandlerSp(model: Model, s: State): u32
    requires Runs(model, s)
  {
    Sub32(s.dar[15], FaultFrameSize(model))
  }

  /** The entry to the handler is granted, with these one-shots armed. */
  predicate HandlerGranted(model: Model, s: State, over: Option<(u32, u32)>, suppress: Option<u32>)
    requires |s.dar| == 16
  {
    E.EntryGranted(model, s.space, s.dar[15], s.vbr, over, suppress)
  }

  ghost predicate MayStop(model: Model, s: State, stopped: bool)
    requires |s.dar| == 16
  {
    exists over, suppress :: stopped == !HandlerGranted(model, s, over, suppress)
  }

  /** On the way through a frame: nothing but A7, PC and one-shots has changed,
      or the fault has been dispatched. */
  ghost predicate Along(model: Model, s: State, head: State, x: State)
    requires Runs(model, s)
  {
    && Runs(model, x)
    && if x.faulted then Struck(model, s, head.banks, x) && Active(model, x.sr) == Active(model, s.sr)
       else SameSnapshot(s, x) && x.banks == head.banks && x.sr == head.sr
  }

  predicate Returns(model: Model, s: State) {
    Runs(model, s) && AtStart(model, s) && s.sr.s
  }

  lemma DispatchStrikes(model: Model, s: State, x: State, f: Fault)
    requires Returns(model, s) && Runs(model, s) && Sound(model, x) && SameSnapshot(s, x) && Legal(model, AccessError(f))
    ensures var h := Dispatch(model, x, f);
            && Captured(model, h) && h.dar[..15] == s.dar[..15] && h.dar[15] == HandlerSp(model, s)
            && h.sr == SupervisorSr(s.sr, Simple(BUS_ERROR)) && Active(model, h.sr) == Active(model, s.sr)
            && SameElsewhere(Active(model, s.sr), h.banks, x.banks)
            && h.stopped == !HandlerGranted(model, s, x.readOverride, x.writeSuppress)
  {
    hide E.Entry, E.EntryGranted, E.StoresAt, E.LoadsAt, Pack, Unpack, Dispatch, Restart, Sound, AtStart, Captured;
    DispatchRestarts(model, s, x, f);
    var start, h := Restart(model, s, x), Dispatch(model, x, f);
    RestartTop(model, s, x);
    E.EntryStackPointers(model, s.space, start, f);
    E.EntryAccesses(model, s.space, start, f);
    A7IsRegister(model, h);
  }

  lemma FaultStrikes(model: Model, s: State, head: State, x: State, f: Fault)
    requires Returns(model, s) && Runs(model, s) && Along(model, s, head, x) && !x.faulted && Legal(model, AccessError(f))
    ensures Along(model, s, head, Trigger(model, x, f))
  {
    hide E.EntryGranted, Unpack, Pack, Dispatch, HandlerSp, SupervisorSr, Active;
    DispatchStrikes(model, s, x, f);
    Stops(model, s, x.readOverride, x.writeSuppress);
  }

  lemma Stops(model: Model, s: State, over: Option<(u32, u32)>, suppress: Option<u32>)
    requires |s.dar| == 16
    ensures MayStop(model, s, !HandlerGranted(model, s, over, suppress))
  {
    hide E.EntryGranted;
  }

  lemma RestartTop(model: Model, s: State, x: State)
    requires Returns(model, s) && Runs(model, s) && Sound(model, x)
    ensures var start := Restart(model, s, x);
            && E.EntryTop(model, start) == s.dar[15] && start.sr == s.sr && start.vbr == s.vbr
            && start.readOverride == x.readOverride && start.writeSuppress == x.writeSuppress
            && start.stacks == x.banks.Put(Active(model, s.sr), s.dar[15])
  {
  }

  lemma ReadGoesOn(env: Env, model: Model, s: State, head: State, x: State, a: u32, n: nat)
    requires Returns(model, s) && Runs(model, s) && Along(model, s, head, x) && 0 < n <= 4
    ensures Along(model, s, head, ReadData(env, model, x, a, n).0)
    ensures x.faulted ==> ReadData(env, model, x, a, n) == (x, 0)
  {
    hide Trigger, Struck, P.PagedRead, P.Seen, Unpack, Pack, AtStart;
    if !x.faulted {
      var got := P.PagedRead(SpaceOf(env, x), x.mem, x.readOverride, a, n, P.DataRead);
      var t := x.(readOverride := got.over);
      assert Along(model, s, head, t);
      if got.refused.Some? {
        FaultStrikes(model, s, head, t, FaultOf(env, x.sr, got.refused.value));
      }
    }
  }

  lemma DiscardGoesOn(model: Model, s: State, head: State, x: State, n: nat)
    requires Returns(model, s) && Runs(model, s) && Along(model, s, head, x)
    ensures Along(model, s, head, Discard(model, x, n))
  {
    hide Unpack, Pack, AtStart, Active, SupervisorSr, HandlerSp, SameElsewhere;
  }

  lemma SettingGoesOn(model: Model, s: State, head: State, x: State, target: u32, over: Option<(u32, u32)>, suppress: Option<u32>)
    requires Returns(model, s) && Runs(model, s) && Along(model, s, head, x)
    ensures Along(model, s, head, x.(pc := target, readOverride := over, writeSuppress := suppress))
  {
    hide Unpack, Pack, AtStart, Active, SupervisorSr, HandlerSp, SameElsewhere;
  }

  lemma PullsGoOn(env: Env, model: Model, s: State, head: State, x: State)
    requires Returns(model, s) && Runs(model, s) && Runs(model, x) && Along(model, s, head, x)
    ensures Along(model, s, head, PullWord(env, model, x).0) && Along(model, s, head, PullLong(env, model, x).0)
  {
    hide ReadData, Along, Returns;
    ReadGoesOn(env, model, s, head, x, x.dar[15], 2);
    ReadGoesOn(env, model, s, head, x, x.dar[15], 4);
    DiscardGoesOn(model, s, head, ReadWord(env, model, x, x.dar[15]).0, 2);
    DiscardGoesOn(model, s, head, ReadLong(env, model, x, x.dar[15]).0, 4);
  }

  lemma ProtocolsGoOn(env: Env, model: Model, s: State, head: State, x: State)
    requires Returns(model, s) && Runs(model, s) && Runs(model, x) && Along(model, s, head, x)
    ensures Along(model, s, head, ArmWriteback(env, model, x)) && Along(model, s, head, ArmDataCycle(env, model, x))
  {
    hide ReadData, Along, Returns;
    var sp := x.dar[15];
    WritebackGoesOn(env, model, s, head, x);
    ReadGoesOn(env, model, s, head, x, Add32(sp, 0x0A), 2);
    var b := ReadWord(env, model, x, Add32(sp, 0x0A)).0;
    ReadGoesOn(env, model, s, head, b, Add32(sp, 0x10), 4);
    var (c, address) := ReadLong(env, model, b, Add32(sp, 0x10));
    SettingGoesOn(model, s, head, c, c.pc, c.readOverride, Some(address));
    ReadGoesOn(env, model, s, head, c, Add32(sp, 0x2C), 4);
    var (d, input) := ReadLong(env, model, c, Add32(sp, 0x2C));
    SettingGoesOn(model, s, head, d, d.pc, Some((address, input)), d.writeSuppress);
  }

  lemma WritebackGoesOn(env: Env, model: Model, s: State, head: State, x: State)
    requires Returns(model, s) && Runs(model, s) && Runs(model, x) && Along(model, s, head, x)
    ensures Along(model, s, head, ArmWriteback(env, model, x))
  {
    hide ReadData, Along, Returns;
    var sp := x.dar[15];
    ReadGoesOn(env, model, s, head, x, Add32(sp, 0x0C), 2);
    var a := ReadWord(env, model, x, Add32(sp, 0x0C)).0;
    ReadGoesOn(env, model, s, head, a, Add32(sp, 0x0E), 2);
    var b := ReadWord(env, model, a, Add32(sp, 0x0E)).0;
    ReadGoesOn(env, model, s, head, b, Add32(sp, 0x18), 4);
    var (c, wb3a) := ReadLong(env, model, b, Add32(sp, 0x18));
    SettingGoesOn(model, s, head, c, c.pc, c.readOverride, Some(wb3a));
  }

  // --------------------------------------------------------------- whole turns

  /** An SR load after the fault leaves the stacks other than the handler's. */
  lemma StruckSrLoad(model: Model, s: State, head: State, x: State, word: u16)
    requires Returns(model, s) && Runs(model, s) && Along(model, s, head, x) && x.faulted
    ensures Struck(model, s, head.banks, SetSr(model, x, word))
  {
    hide Unpack, Pack, AtStart;
  }

  /** A turn that faults and leaves the loop loads SR once: no harm done. */
  lemma FaultedBody(env: Env, model: Model, s: State, head: State, x: State, rest: nat)
    requires Returns(model, s) && Runs(model, s) && Runs(model, x) && Along(model, s, head, x)
    ensures Body(env, model, x, rest).faulted ==> Struck(model, s, head.banks, Body(env, model, x, rest))
  {
    hide PullWord, PullLong, Along, Struck, Returns, Unpack, Active;
    PullsGoOn(env, model, s, head, x);
    var a := PullWord(env, model, x).0;
    PullsGoOn(env, model, s, head, a);
    var (b, target) := PullLong(env, model, a);
    SettingGoesOn(model, s, head, b, target, b.readOverride, b.writeSuppress);
    var b' := b.(pc := target);
    PullsGoOn(env, model, s, head, b');
    var c := PullWord(env, model, b').0;
    DiscardGoesOn(model, s, head, c, rest);
    if Discard(model, c, rest).faulted {
      StruckSrLoad(model, s, head, Discard(model, c, rest), PullWord(env, model, x).1);
    }
  }

  /** A turn that leaves the loop, whatever the format. */
  lemma FaultedFrame(env: Env, model: Model, s: State, head: State, t: State, format: nat)
    requires Returns(model, s) && Runs(model, s) && Runs(model, t) && Along(model, s, head, t)
    ensures var turn := TurnFor(env, model, t, format);
            turn.Left? && turn.s.faulted ==> Struck(model, s, head.banks, turn.s)
  {
    hide Body, ArmWriteback, ArmDataCycle, Along, Struck, Returns, Rest, Throwaway;
    if Rest(model, format).Some? {
      ProtocolsGoOn(env, model, s, head, t);
      FaultedBody(env, model, s, head, Honoured(env, model, t, format), Rest(model, format).value);
    }
  }

  lemma PlainRead(env: Env, model: Model, x: State, a: u32, n: nat)
    requires Runs(model, x) && 0 < n <= 4 && !ReadData(env, model, x, a, n).0.faulted
    ensures !x.faulted && ReadData(env, model, x, a, n).0 == x.(readOverride := ReadData(env, model, x, a, n).0.readOverride)
  {
    hide P.PagedRead, P.Seen, Trigger;
  }

  lemma StaysPut(sp: u32)
    ensures Add32(sp, 0) == sp
  {
  }

  lemma SpsAdd(sp: u32, m: nat, n: nat)
    ensures Add32(Add32(sp, m), n) == Add32(sp, m + n)
  {
    WrapsAgain(sp + m, n);
  }

  /** A throwaway frame crossed: its stack has moved over it, and A7 is freshly
      loaded. */
  lemma CrossedFrame(env: Env, model: Model, x: State)
    requires Runs(model, x) && !Throwaway(env, model, x).faulted
    ensures var t := Throwaway(env, model, x);
            && !x.faulted && SameSnapshot(x, t) && t.banks == CoreOf(model, t).stacks
            && t.banks == x.banks.Put(Active(model, x.sr), Add32(x.dar[15], 8))
  {
    assert |x.dar| == 16;
    hide ReadData, Unpack, Active, Sound;
    PlainRead(env, model, x, x.dar[15], 2);
    SpsAdd(x.dar[15], 2, 6);
  }

  lemma StrayBody(env: Env, model: Model, y: State)
    requires Runs(model, y) && y.faulted
    ensures Body(env, model, y, 0) == SetSr(model, Discard(model, y, 8).(pc := 0), 0)
  {
    SpsAdd(y.dar[15], 2, 4);
    SpsAdd(y.dar[15], 6, 2);
    SpsAdd(y.dar[15], 8, 0);
    hide SetSr, Add32;
  }

  /** With the fault dispatched, the rest reads as a format 0 frame of zeros on
      whatever stack A7 is. */
  lemma StrayFrame(env: Env, model: Model, y: State, limit: nat)
    requires Runs(model, y) && y.faulted
    ensures Return(env, model, y, limit) == Back(SetSr(model, Discard(model, y, 8).(pc := 0), 0))
  {
    StrayBody(env, model, y);
    hide Body, SetSr, Sound;
    assert TurnOf(env, model, y) == Left(Body(env, model, y, 0));
  }

  lemma StruckThrowaway(env: Env, model: Model, s: State, head: State, t: State)
    requires Returns(model, s) && Runs(model, s) && Runs(model, t) && Along(model, s, head, t)
    ensures Throwaway(env, model, t).faulted ==> Struck(model, s, head.banks, Throwaway(env, model, t))
  {
    hide PullWord, Along, Struck, Returns, Unpack, Active;
    PullsGoOn(env, model, s, head, t);
    var (a, word) := PullWord(env, model, t);
    DiscardGoesOn(model, s, head, a, 6);
    if Discard(model, a, 6).faulted {
      StruckSrLoad(model, s, head, Discard(model, a, 6), word);
    }
  }

  /** The stray turn moves one stack, and it may be the handler's. */
  lemma StrayStruck(model: Model, s: State, head: State, y: State)
    requires Returns(model, s) && Runs(model, s) && Runs(model, y) && Struck(model, s, head.banks, y)
    requires y.dar[15] == y.banks.Get(Active(model, y.sr))
    ensures var r, bank := SetSr(model, Discard(model, y, 8).(pc := 0), 0), Active(model, y.sr);
            Struck(model, s, y.banks.Put(bank, Add32(y.banks.Get(bank), 8)), r)
  {
    hide Unpack, Pack, AtStart;
  }

  // ---------------------------------------------------------------- the chain

  /** How many of the frames that RTE takes off are throwaway frames of the
      stack `bank`: those crossed before the fault, and the one it still makes
      up from zeros when the SR word of a throwaway frame is refused. */
  function Taken(env: Env, model: Model, s: State, limit: nat, bank: Bank): nat
    requires Runs(model, s)
    decreases limit
  {
    var turn := TurnOf(env, model, s);
    if !turn.Crossed? then 0
    else if turn.s.faulted then (if Active(model, turn.s.sr) == bank then 1 else 0)
    else (if Active(model, s.sr) == bank then 1 else 0) + if limit == 0 then 0 else Taken(env, model, turn.s, limit - 1, bank)
  }

  /** A head of the loop: A7 is the start's own, or freshly loaded. */
  ghost predicate Head(model: Model, s: State, head: State)
    requires Runs(model, s)
  {
    && Runs(model, head) && !head.faulted && SameSnapshot(s, head)
    && SameElsewhere(Active(model, s.sr), head.banks, CoreOf(model, head).stacks)
  }

  /** The architectural stack pointer of `bank`. */
  function StackOf(model: Model, s: State, bank: Bank): u32
    requires Runs(model, s)
  {
    CoreOf(model, s).stacks.Get(bank)
  }

  lemma FormatGoesOn(env: Env, model: Model, s: State, head: State) returns (t: State, format: nat)
    requires Returns(model, s) && Runs(model, s) && Head(model, s, head)
    ensures Runs(model, t) && Along(model, s, head, t) && TurnOf(env, model, head) == TurnFor(env, model, t, format)
    ensures !t.faulted ==> t.sr == head.sr && t.dar == head.dar && t.banks == head.banks
  {
    hide ReadData, TurnFor, Struck, Unpack;
    var (u, word) := ReadWord(env, model, head, Add32(head.dar[15], 6));
    ReadGoesOn(env, model, s, head, head, Add32(head.dar[15], 6), 2);
    t, format := u, word / 0x1000;
    if !t.faulted {
      PlainRead(env, model, head, Add32(head.dar[15], 6), 2);
    }
  }

  lemma StruckElsewhere(model: Model, s: State, banks: Stacks, x: State, bank: Bank)
    requires Runs(model, s) && Struck(model, s, banks, x) && bank != Active(model, s.sr)
    ensures x.banks.Get(bank) == banks.Get(bank) && Struck(model, s, x.banks, x)
  {
    hide Unpack, Pack, Active;
  }

  lemma HeadElsewhere(model: Model, s: State, head: State, bank: Bank)
    requires Runs(model, s) && Head(model, s, head) && bank != Active(model, s.sr)
    ensures head.banks.Get(bank) == StackOf(model, head, bank)
  {
    hide Active;
  }

  lemma LeftStruck(env: Env, model: Model, s: State, head: State, bank: Bank)
    requires Returns(model, s) && Runs(model, s) && Head(model, s, head) && bank != Active(model, s.sr)
    requires var turn := TurnOf(env, model, head); turn.Left? && turn.s.faulted
    ensures var out := TurnOf(env, model, head).s;
            Struck(model, s, out.banks, out) && out.banks.Get(bank) == StackOf(model, head, bank)
  {
    hide TurnFor, TurnOf, Along, Struck;
    var t, format := FormatGoesOn(env, model, s, head);
    FaultedFrame(env, model, s, head, t, format);
    HeadElsewhere(model, s, head, bank);
    StruckElsewhere(model, s, head.banks, TurnOf(env, model, head).s, bank);
  }

  lemma CrossedStep(env: Env, model: Model, s: State, head: State, bank: Bank)
    requires Returns(model, s) && Runs(model, s) && Head(model, s, head) && bank != Active(model, s.sr)
    requires var turn := TurnOf(env, model, head); turn.Crossed? && !turn.s.faulted
    ensures var t := TurnOf(env, model, head).s;
            && Head(model, s, t)
            && StackOf(model, t, bank) == Add32(StackOf(model, head, bank), if Active(model, head.sr) == bank then 8 else 0)
  {
    hide TurnOf, Throwaway, Unpack, Active, Sound, Struck, Honoured, Rest, Body;
    var t, format := FormatGoesOn(env, model, s, head);
    CrossedFrame(env, model, t);
  }

  lemma StrayLanding(env: Env, model: Model, s: State, head: State) returns (y: State)
    requires Returns(model, s) && Runs(model, s) && Runs(model, head) && Head(model, s, head)
    requires var turn := TurnOf(env, model, head); turn.Crossed? && turn.s.faulted
    ensures Runs(model, y) && y == TurnOf(env, model, head).s && y.faulted
    ensures Struck(model, s, head.banks, y) && y.dar[15] == y.banks.Get(Active(model, y.sr))
  {
    hide TurnOf, Unpack, Active, Honoured, Rest, Body, Along, Head, Struck, Returns, PullWord;
    var t, format := FormatGoesOn(env, model, s, head);
    StruckThrowaway(env, model, s, head, t);
    y := Throwaway(env, model, t);
  }

  lemma StrayStep(env: Env, model: Model, s: State, head: State, limit: nat, bank: Bank)
    requires Returns(model, s) && Runs(model, s) && Runs(model, head) && Head(model, s, head) && bank != Active(model, s.sr)
    requires var turn := TurnOf(env, model, head); turn.Crossed? && turn.s.faulted
    ensures var y := TurnOf(env, model, head).s; var out := Return(env, model, y, limit);
            && out.Back? && out.s.faulted && Struck(model, s, out.s.banks, out.s)
            && out.s.banks.Get(bank) == Add32(StackOf(model, head, bank), if Active(model, y.sr) == bank then 8 else 0)
  {
    hide TurnOf, Unpack, Active, Head, Struck, Returns, StackOf, Return, Runs;
    var y := StrayLanding(env, model, s, head);
    HeadElsewhere(model, s, head, bank);
    StruckElsewhere(model, s, head.banks, y, bank);
    StrayFrame(env, model, y, limit);
    StrayStruck(model, s, head, y);
    var stray := Active(model, y.sr);
    StruckElsewhere(model, s, y.banks.Put(stray, Add32(y.banks.Get(stray), 8)), Return(env, model, y, limit).s, bank);
  }

  lemma OneTurn(env: Env, model: Model, head: State, limit: nat, bank: Bank)
    requires Runs(model, head)
    ensures var turn, out, n := TurnOf(env, model, head), Return(env, model, head, limit), Taken(env, model, head, limit, bank);
            match turn
            case Left(t) => out == Back(t) && n == 0
            case Malformed(t) => out == FormatError(t)
            case Crossed(t) =>
              if limit == 0 then out == Unfinished
              else
                && out == Return(env, model, t, limit - 1)
                && n == if t.faulted then (if Active(model, t.sr) == bank then 1 else 0)
                        else (if Active(model, head.sr) == bank then 1 else 0) + Taken(env, model, t, limit - 1, bank)
  {
    hide TurnOf, Runs, Active;
  }

  /** The conclusion about a run of RTE from `head` that has faulted. */
  ghost predicate Settled(env: Env, model: Model, s: State, head: State, limit: nat, bank: Bank)
    requires Runs(model, s) && Runs(model, head)
  {
    var out := Return(env, model, head, limit);
    out.Back? ==>
      && Struck(model, s, out.s.banks, out.s)
      && out.s.banks.Get(bank) == Add32(StackOf(model, head, bank), 8 * Taken(env, model, head, limit, bank))
  }

  lemma FaultSettles(env: Env, model: Model, s: State, head: State, limit: nat, bank: Bank)
    requires Returns(model, s) && Runs(model, s) && Runs(model, head) && Head(model, s, head) && bank != Active(model, s.sr)
    requires TurnOf(env, model, head).s.faulted
    ensures Settled(env, model, s, head, limit, bank)
  {
    hide TurnOf, Returns, Active, Runs, StackOf, Struck, Head, Add32, Return, Taken;
    var turn := TurnOf(env, model, head);
    OneTurn(env, model, head, limit, bank);
    if turn.Left? {
      LeftStruck(env, model, s, head, bank);
      StaysPut(StackOf(model, head, bank));
    } else if turn.Crossed? && limit > 0 {
      StrayStep(env, model, s, head, limit - 1, bank);
    }
  }

  lemma CrossedSettles(env: Env, model: Model, s: State, head: State, limit: nat, bank: Bank)
    requires Returns(model, s) && Runs(model, s) && Runs(model, head) && Head(model, s, head) && bank != Active(model, s.sr) && limit > 0
    requires var turn := TurnOf(env, model, head);
             turn.Crossed? && !turn.s.faulted && Settled(env, model, s, turn.s, limit - 1, bank)
    ensures Settled(env, model, s, head, limit, bank)
  {
    hide TurnOf, Returns, Active, Runs, StackOf, Struck, Head, Add32, Return, Taken;
    var t, sp := TurnOf(env, model, head).s, StackOf(model, head, bank);
    OneTurn(env, model, head, limit, bank);
    CrossedStep(env, model, s, head, bank);
    SpsAdd(sp, if Active(model, head.sr) == bank then 8 else 0, 8 * Taken(env, model, t, limit - 1, bank));
  }

  lemma {:induction false} ChainSettles(env: Env, model: Model, s: State, head: State, limit: nat, bank: Bank)
    requires Returns(model, s) && Runs(model, s) && Runs(model, head) && Head(model, s, head) && bank != Active(model, s.sr)
    requires var out := Return(env, model, head, limit); out.Back? && out.s.faulted
    ensures Settled(env, model, s, head, limit, bank)
    decreases limit
  {
    hide TurnOf, Returns, Active, Runs, Settled, Head, Return, Taken;
    var turn := TurnOf(env, model, head);
    OneTurn(env, model, head, limit, bank);
    if turn.s.faulted {
      FaultSettles(env, model, s, head, limit, bank);
    } else {
      CrossedStep(env, model, s, head, bank);
      ChainSettles(env, model, s, turn.s, limit - 1, bank);
      CrossedSettles(env, model, s, head, limit, bank);
    }
  }

  // ------------------------------------------------------------- main results

  /** RTE has faulted somewhere in its frames. */
  predicate Faulted(env: Env, model: Model, s: State, limit: nat) {
    && Returns(model, s) && Runs(model, s)
    && var out := Return(env, model, s, limit);
       out.Back? && out.s.faulted
  }

  /** And its handler has been entered. */
  predicate Handled(env: Env, model: Model, s: State, limit: nat) {
    Faulted(env, model, s, limit) && !Return(env, model, s, limit).s.stopped
  }

  /** The state once the step has closed it. */
  function Closed(env: Env, model: Model, s: State, limit: nat): (c: Core)
    requires Faulted(env, model, s, limit)
  {
    CoreOf(model, End(model, Return(env, model, s, limit).s))
  }

  /** The stacks a data fault of this RTE leaves if it crosses no frame. */
  function PlainStacks(model: Model, s: State): Stacks
    requires Runs(model, s)
  {
    CoreOf(model, s).stacks.Put(Active(model, s.sr), HandlerSp(model, s))
  }

  lemma PlainFault(model: Model, s: State, f: Fault)
    requires Returns(model, s) && Runs(model, s) && Legal(model, AccessError(f))
    ensures var e := E.Entry(model, s.space, CoreOf(model, s), f).0;
            e.sr == SupervisorSr(s.sr, Simple(BUS_ERROR)) && e.stacks == PlainStacks(model, s)
  {
    hide Pack, Unpack, E.Entry;
    E.EntryStackPointers(model, s.space, CoreOf(model, s), f);
  }

  lemma StartIsHead(model: Model, s: State)
    requires Returns(model, s) && Runs(model, s)
    ensures Head(model, s, s) && Active(model, s.sr) != USP
    ensures forall bank :: bank != Active(model, s.sr) ==> StackOf(model, s, bank) == s.banks.Get(bank)
  {
    hide Sound, Pack, Unpack;
  }

  /** What `end_faulted_instruction` makes of it. */
  lemma StruckCloses(model: Model, s: State, x: State)
    requires Returns(model, s) && Runs(model, s) && Runs(model, x) && Struck(model, s, x.banks, x)
    ensures var e := End(model, x);
            && e.sr == SupervisorSr(s.sr, Simple(BUS_ERROR)) && e.faulted == x.stopped && e.stopped == x.stopped
            && e.dar[..15] == s.dar[..15]
            && CoreOf(model, e).stacks == x.banks.Put(Active(model, s.sr), HandlerSp(model, s))
  {
    hide Pack, Unpack, HandlerSp, MayStop;
    SrRoundTrip(model, SupervisorSr(s.sr, Simple(BUS_ERROR)));
  }

  lemma ReturnStruck(env: Env, model: Model, s: State, limit: nat)
    requires Faulted(env, model, s, limit) && Runs(model, s)
    ensures var x := Return(env, model, s, limit).s; Struck(model, s, x.banks, x)
  {
    hide Active, Sound, Head, Return, Taken, Struck, AtStart, Add32;
    StartIsHead(model, s);
    ChainSettles(env, model, s, s, limit, USP);
  }

  /** Whether the handler is reached. With the entry's accesses granted it is;
      with one refused that no one-shot stands in for, the core has stopped, and
      stays so. */
  lemma FaultedReturnStops(env: Env, model: Model, s: State, limit: nat)
    requires Faulted(env, model, s, limit) && Runs(model, s)
    ensures HandlerGranted(model, s, None, None) ==> Handled(env, model, s, limit)
    ensures (forall over, suppress :: !HandlerGranted(model, s, over, suppress)) ==> !Handled(env, model, s, limit)
    ensures var e := End(model, Return(env, model, s, limit).s);
            e.stopped == e.faulted == !Handled(env, model, s, limit)
  {
    hide Return, HandlerSp, E.EntryGranted, Pack, Unpack, Returns;
    ReturnStruck(env, model, s, limit);
    GrantedAlways(model, s);
  }

  lemma GrantedAlways(model: Model, s: State)
    requires Runs(model, s)
    ensures HandlerGranted(model, s, None, None) ==> forall over, suppress :: HandlerGranted(model, s, over, suppress)
  {
    hide E.EntryGranted;
    if HandlerGranted(model, s, None, None) {
      forall over, suppress
        ensures HandlerGranted(model, s, over, suppress)
      {
        E.GrantedAnyway(model, s.space, s.dar[15], s.vbr, over, suppress);
      }
    }
  }

  /** A handled fault of RTE leaves the SR and the handler's stack of any data
      fault of that instruction, but every other stack has lost the throwaway
      frames that were taken from it. */
  lemma FaultedReturnStacks(env: Env, model: Model, s: State, limit: nat, bank: Bank)
    requires Handled(env, model, s, limit) && Runs(model, s)
    ensures Closed(env, model, s, limit).sr == SupervisorSr(s.sr, Simple(BUS_ERROR))
    ensures Closed(env, model, s, limit).stacks.Get(bank)
            == if bank == Active(model, s.sr) then PlainStacks(model, s).Get(bank)
               else Add32(PlainStacks(model, s).Get(bank), 8 * Taken(env, model, s, limit, bank))
  {
    hide Active, Sound, Head, Return, Taken, Struck, HandlerSp, End, Unpack, Pack, AtStart, Add32;
    var x, home := Return(env, model, s, limit).s, Active(model, s.sr);
    StartIsHead(model, s);
    ChainSettles(env, model, s, s, limit, if bank == home then USP else bank);
    StruckCloses(model, s, x);
  }

  /** A turn as the mapping shows the frame: throwaway exactly when its format
      word reads as format 1; the SR it loads, and whether it faults, follow
      from the two words. */
  lemma ThrowawayTurn(env: Env, model: Model, s: State)
    requires Runs(model, s) && !s.faulted
    ensures var space, sp, turn := SpaceOf(env, s), s.dar[15], TurnOf(env, model, s);
            var format := P.PagedRead(space, s.mem, s.readOverride, Add32(sp, 6), 2, P.DataRead);
            var sr := P.PagedRead(space, s.mem, format.over, sp, 2, P.DataRead);
            && (turn.Crossed? <==> P.Seen(2, format.bytes) / 0x1000 == 1)
            && (turn.Crossed? ==>
                  && (turn.s.faulted <==> format.refused.Some? || sr.refused.Some?)
                  && Active(model, turn.s.sr)
                     == if format.refused.None? && P.Seen(2, sr.bytes) / 0x2000 % 2 == 1 then
                          (if model.HasMasterStack() && P.Seen(2, sr.bytes) / 0x1000 % 2 == 1 then MSP else ISP)
                        else USP)
  {
    hide P.PagedRead, P.Seen, Dispatch, Stored;
    var (t, word) := ReadWord(env, model, s, Add32(s.dar[15], 6));
    ZeroSr(model);
    assert TurnOf(env, model, s).Crossed? <==> word / 0x1000 == 1;
  }

  lemma ZeroSr(model: Model)
    ensures !Unpack(model, 0).s
  {
  }

  lemma {:induction false} TakenBound(env: Env, model: Model, s: State, limit: nat, bank: Bank)
    requires Runs(model, s)
    ensures Taken(env, model, s, limit, bank) <= limit + 1
    decreases limit
  {
    hide TurnOf, Runs, Active;
    var turn := TurnOf(env, model, s);
    if turn.Crossed? && !turn.s.faulted && limit > 0 {
      TakenBound(env, model, turn.s, limit - 1, bank);
    }
  }

  lemma WholeTurns(sp: u32, n: nat)
    ensures Add32(sp, 8 * n) == sp <==> n % 0x2000_0000 == 0
  {
    var q, r := n / 0x2000_0000, n % 0x2000_0000;
    assert sp + 8 * n == sp + 8 * r + 0x1_0000_0000 * q;
    Multiples32(sp + 8 * r, q);
  }

  /** The stack loses throwaway frames, and not so many that its pointer comes
      round to where it was. */
  predicate Loses(env: Env, model: Model, s: State, limit: nat, bank: Bank)
    requires Runs(model, s)
  {
    Taken(env, model, s, limit, bank) % 0x2000_0000 != 0
  }

  lemma LosesSome(env: Env, model: Model, s: State, limit: nat, bank: Bank)
    requires Runs(model, s) && limit < 0x1FFF_FFFF
    ensures Loses(env, model, s, limit, bank) <==> Taken(env, model, s, limit, bank) > 0
  {
    hide Taken, Runs;
    TakenBound(env, model, s, limit, bank);
  }

  /** The stacks are those of a plain data fault exactly when no stack but the
      handler's loses a frame. */
  lemma FaultedReturnKeepsStacksIff(env: Env, model: Model, s: State, limit: nat)
    requires Handled(env, model, s, limit) && Runs(model, s)
    ensures Closed(env, model, s, limit).stacks == PlainStacks(model, s)
            <==> forall bank :: Loses(env, model, s, limit, bank) ==> bank == Active(model, s.sr)
  {
    hide Active, Return, End, Closed, PlainStacks, Taken, TurnOf, Sound;
    var done, plain := Closed(env, model, s, limit).stacks, PlainStacks(model, s);
    forall bank: Bank
      ensures done.Get(bank) == plain.Get(bank) <==> (Loses(env, model, s, limit, bank) ==> bank == Active(model, s.sr))
    {
      FaultedReturnStacks(env, model, s, limit, bank);
      WholeTurns(plain.Get(bank), Taken(env, model, s, limit, bank));
    }
    if forall bank :: Loses(env, model, s, limit, bank) ==> bank == Active(model, s.sr) {
      assert done.Get(USP) == plain.Get(USP) && done.Get(ISP) == plain.Get(ISP) && done.Get(MSP) == plain.Get(MSP);
    } else {
      var bank :| Loses(env, model, s, limit, bank) && bank != Active(model, s.sr);
      assert done.Get(bank) != plain.Get(bank);
    }
  }
}
