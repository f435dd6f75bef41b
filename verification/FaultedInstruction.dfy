/** What becomes of an instruction that faults half-way: its registers are
    rolled back, the handler is entered, and whatever the rest of its code still
    does has no effect on the state the handler starts from. */
module FaultedInstruction {
  import opened Words
  import opened BusMemory
  import opened Exceptions
  import opened ExceptionReturn
  import E = PagedEntry
  import P = PagedAccess

  /** `fault_resume`: what the dispatch of the fault established. */
  datatype Resume = Resume(pc: u32, sr: u16, dar: seq<u32>)

  /** The core with its raw stack banks. The bank A7 is standing in for holds a
      stale value until the next switch. `space` is what supervisor accesses
      meet. */
  datatype State = State(dar: seq<u32>, banks: Stacks, sr: Sr, pc: u32, ppc: u32, vbr: u32, mem: seq<u8>,
                         readOverride: Option<(u32, u32)>, writeSuppress: Option<u32>,
                         darSave: seq<u32>, srSave: u16,
                         exceptionProcessing: bool, faulted: bool, stopped: bool, resume: Option<Resume>,
                         space: P.Space)

  /** The architectural state: all three stack pointers, A7 among them. */
  function CoreOf(model: Model, s: State): Core
    requires |s.dar| == 16
  {
    Core(s.sr, s.banks.Put(Active(model, s.sr), s.dar[15]), s.pc, s.ppc, s.vbr, s.mem,
         s.readOverride, s.writeSuppress)
  }

  predicate Sound(model: Model, s: State) {
    && |s.dar| == 16 && |s.darSave| == 16
    && (s.resume.Some? ==> |s.resume.value.dar| == 16)
    && Wf(model, CoreOf(model, s))
  }

  // ----------------------------------------------------- stack bank switches

  /** `set_s_flag`, `set_sm_flag`: back A7 up, change the mode, reload A7. */
  function SwitchTo(model: Model, s: State, sr: Sr): (r: State)
    requires Sound(model, s) && Stored(model, sr)
    ensures Sound(model, r)
  {
    var banks := s.banks.Put(Active(model, s.sr), s.dar[15]);
    s.(banks := banks, sr := sr, dar := s.dar[15 := banks.Get(Active(model, sr))])
  }

  /** `set_sr_noint_nosp`. */
  function SetSrNoSp(model: Model, s: State, word: u16): (r: State)
    requires Sound(model, s)
    ensures Sound(model, r)
  {
    s.(sr := Unpack(model, word))
  }

  /** A switch of modes by itself moves no stack pointer. */
  lemma SwitchKeepsStacks(model: Model, s: State, sr: Sr)
    requires Sound(model, s) && Stored(model, sr)
    ensures CoreOf(model, SwitchTo(model, s, sr)) == CoreOf(model, s).(sr := sr)
  {
  }

  // ------------------------------------------------------ faults and closing

  /** The registers and SR of the instruction's start. */
  function Rolled(model: Model, s: State): (r: State)
    requires Sound(model, s)
    ensures Sound(model, r)
  {
    SetSrNoSp(model, s, s.srSave).(dar := s.darSave)
  }

  /** `exception_bus_error`, on the raw banks. A refusal of one of its own
      accesses is a double fault and stops the core. */
  function Handler(model: Model, s: State, f: Fault): (r: State)
    requires Sound(model, s) && Legal(model, AccessError(f))
    ensures Sound(model, r)
  {
    var (e, refused) := E.Entry(model, s.space, CoreOf(model, s), f);
    var sup := SwitchTo(model, s, SupervisorSr(s.sr, AccessError(f)));
    sup.(dar := sup.dar[15 := A7(model, e)], pc := e.pc, mem := e.mem, readOverride := e.readOverride,
         writeSuppress := e.writeSuppress, stopped := s.stopped || refused)
  }

  lemma PopsAdd(sp: u32, m: nat, n: nat)
    ensures Sub32(Sub32(sp, m), n) == Sub32(sp, m + n)
  {
    WrapsAgain(sp - m, 0 - n);
  }

  lemma SupervisorStack(model: Model, c: Core, f: Fault)
    ensures E.EntryTop(model, c) == c.stacks.Get(Active(model, SupervisorSr(c.sr, AccessError(f))))
  {
  }

  lemma NextStore(mmu: P.Mmu, sp: u32, left: seq<u8>, sizes: seq<nat>)
    requires sizes != [] && E.Exhausts(|left|, sizes)
    ensures 0 < sizes[0] <= |left| && E.Exhausts(|left| - sizes[0], sizes[1..])
    ensures var a, rest := Sub32(sp, sizes[0]), |left| - sizes[0];
            E.PushStores(mmu, sp, left, sizes)
            == P.Stores(mmu, a, left[rest..]) + E.PushStores(mmu, a, left[..rest], sizes[1..])
  {
    hide P.Stores;
  }

  lemma NoMoreStores(space: P.Space, mem: seq<u8>, suppress: Option<u32>, sp: u32, left: seq<u8>, sizes: seq<nat>)
    requires |mem| == P.TOP && sizes == [] && E.Exhausts(|left|, sizes)
    ensures left == [] && P.WriteCycles(space, mem, suppress, E.PushStores(space.mmu, sp, left, sizes)) == P.Written(mem, suppress, None)
  {
  }

  predicate OverrideAt(over: Option<(u32, u32)>, a: u32) {
    over.Some? && over.value.0 == a
  }

  /** Roll the instruction back, enter the handler, remember where it starts. */
  function Dispatch(model: Model, s: State, f: Fault): (r: State)
    requires Sound(model, s) && Legal(model, AccessError(f))
    ensures Sound(model, r)
  {
    var h := Handler(model, Rolled(model, s), f);
    h.(faulted := true, resume := Some(Resume(h.pc, Pack(h.sr), h.dar)))
  }

  /** `trigger_bus_error`. A fault in an exception entry stops the core. */
  function Trigger(model: Model, s: State, f: Fault): (r: State)
    requires Sound(model, s) && Legal(model, AccessError(f))
    ensures Sound(model, r) && r.faulted
  {
    if s.faulted then s
    else if s.exceptionProcessing then s.(stopped := true, faulted := true)
    else Dispatch(model, s, f)
  }

  /** `end_faulted_instruction`. */
  function End(model: Model, s: State): (r: State)
    requires Sound(model, s)
    ensures Sound(model, r)
  {
    var back := match s.resume
      case None => s
      case Some(h) => SetSrNoSp(model, s, h.sr).(pc := h.pc, dar := h.dar, resume := None);
    back.(faulted := s.stopped)
  }

  // ------------------------------------------------------------ instructions

  /** What the MMU and the host bus answer to a cycle: where it goes, or a
      refusal. */
  datatype Answer = Granted(physical: u32) | Refused(fault: Fault)

  /** What an instruction's code can do to this state, in any order. Loads,
      fetches and stores are single bus cycles at logical addresses. */
  datatype Micro =
    | SetRegister(i: nat, value: u32)
    | SetPc(value: u32)
    | SetCcr(ccr: nat)
    | LoadSr(word: u16)
    | Fetch(answer: Answer)
    | Load(addr: u32, n: nat, answer: Answer)
    | Store(addr: u32, answer: Answer, bytes: seq<u8>)

  function Meet(model: Model, s: State, answer: Answer): (r: State)
    requires Sound(model, s)
    ensures Sound(model, r)
  {
    if answer.Refused? && Legal(model, AccessError(answer.fault)) then Trigger(model, s, answer.fault) else s
  }

  function Apply(model: Model, s: State, m: Micro): (r: State)
    requires Sound(model, s)
    ensures Sound(model, r)
  {
    match m
    case SetRegister(i, v) => if i < 16 then s.(dar := s.dar[i := v]) else s
    case SetPc(v) => s.(pc := v)
    case SetCcr(ccr) => s.(sr := s.sr.(ccr := ccr % 0x20))
    case LoadSr(word) => SwitchTo(model, s, Unpack(model, word))
    case Fetch(answer) => Meet(model, s, answer)
    case Load(addr, _, answer) =>
      if !s.faulted && OverrideAt(s.readOverride, addr) then s.(readOverride := None) else Meet(model, s, answer)
    case Store(addr, answer, bytes) =>
      if !s.faulted && s.writeSuppress == Some(addr) then s.(writeSuppress := None)
      else if !s.faulted && answer.Granted? then s.(mem := Write(model.Bus(), s.mem, answer.physical, bytes))
      else Meet(model, s, answer)
  }

  /** What a load returns: the low bytes of an override, or what memory holds,
      or nothing. */
  function Loaded(model: Model, s: State, addr: u32, n: nat, answer: Answer): nat
    requires Sound(model, s)
  {
    if s.faulted then 0
    else if OverrideAt(s.readOverride, addr) then LowBytes(s.readOverride.value.1, n)
    else
      match answer
      case Granted(physical) => Value(Block(model.Bus(), s.mem, physical, n))
      case Refused(_) => 0
  }

  function LowBytes(v: u32, n: nat): nat {
    Value(Bytes32(v)[if n < 4 then 4 - n else 0..])
  }

  function Run(model: Model, s: State, code: seq<Micro>): (r: State)
    requires Sound(model, s)
    ensures Sound(model, r)
    decreases |code|
  {
    if code == [] then s else Run(model, Apply(model, s, code[0]), code[1..])
  }

  // --------------------------------------------------------------- the class

  class Cpu {
    const model: Model
    var dar: seq<u32>
    var sp: Stacks
    var sr: Sr
    var pc: u32
    var ppc: u32
    var vbr: u32
    var mem: seq<u8>
    var readOverride: Option<(u32, u32)>
    var writeSuppress: Option<u32>
    var darSave: seq<u32>
    var srSave: u16
    var exceptionProcessing: bool
    var berrMode: bool
    var stopped: bool
    var faultResume: Option<Resume>
    var space: P.Space

    ghost function View(): State
      reads this
    {
      State(dar, sp, sr, pc, ppc, vbr, mem, readOverride, writeSuppress, darSave, srSave,
            exceptionProcessing, berrMode, stopped, faultResume, space)
    }

    ghost predicate Valid()
      reads this
    {
      Sound(model, View())
    }

    method BackupSp()
      requires Valid()
      modifies this`sp
      ensures Valid() && sp == old(sp).Put(Active(model, sr), dar[15])
    {
      sp := sp.Put(Active(model, sr), dar[15]);
    }

    method SetFlagsBanked(value: Sr)
      requires Valid() && Stored(model, value)
      modifies this`sp, this`sr, this`dar
      ensures Valid() && View() == SwitchTo(model, old(View()), value)
    {
      BackupSp();
      sr := value;
      dar := dar[15 := sp.Get(Active(model, sr))];
    }

    method SetSr(word: u16)
      requires Valid()
      modifies this`sp, this`sr, this`dar
      ensures Valid() && View() == Apply(model, old(View()), LoadSr(word))
    {
      SetFlagsBanked(Unpack(model, word));
    }

    method ReadCycle(addr: u32, n: nat, answer: Answer) returns (v: nat)
      requires Valid()
      modifies this
      ensures Valid() && View() == Apply(model, old(View()), Load(addr, n, answer))
      ensures v == Loaded(model, old(View()), addr, n, answer)
    {
      hide Trigger, Unpack, Active;
      if !berrMode && readOverride.Some? && readOverride.value.0 == addr {
        v := LowBytes(readOverride.value.1, n);
        readOverride := None;
        return;
      }
      v := 0;
      match answer {
        case Granted(physical) =>
          if !berrMode {
            v := Value(Block(model.Bus(), mem, physical, n));
          }
        case Refused(f) =>
          if Legal(model, AccessError(f)) {
            TriggerBusError(f);
          }
      }
    }

    method WriteCycle(addr: u32, answer: Answer, bytes: seq<u8>)
      requires Valid()
      modifies this
      ensures Valid() && View() == Apply(model, old(View()), Store(addr, answer, bytes))
      ensures old(berrMode) ==> mem == old(mem)
    {
      hide Dispatch, Unpack, Active, Write;
      if berrMode {
        return;
      }
      if writeSuppress == Some(addr) {
        writeSuppress := None;
        return;
      }
      match answer {
        case Granted(physical) =>
          mem := Write(model.Bus(), mem, physical, bytes);
        case Refused(f) =>
          if Legal(model, AccessError(f)) {
            TriggerBusError(f);
          }
      }
    }

    method TriggerBusError(f: Fault)
      requires Valid() && Legal(model, AccessError(f))
      modifies this
      ensures Valid() && View() == Trigger(model, old(View()), f)
    {
      hide Dispatch, Unpack, Active;
      if berrMode {
        return;
      }
      if exceptionProcessing {
        stopped := true;
        berrMode := true;
        return;
      }
      DispatchFault(f);
    }

    method DispatchFault(f: Fault)
      requires Valid() && Legal(model, AccessError(f)) && !berrMode
      modifies this
      ensures Valid() && View() == Dispatch(model, old(View()), f)
    {
      hide Rolled, Handler, Sound;
      RollBack();
      ExceptionBusError(f);
      CaptureHandler();
    }

    method CaptureHandler()
      requires Valid()
      modifies this`faultResume, this`berrMode
      ensures Valid() && View() == old(View()).(faulted := true, resume := Some(Resume(pc, Pack(sr), dar)))
    {
      hide Unpack, Active, Pack;
      faultResume := Some(Resume(pc, Pack(sr), dar));
      berrMode := true;
    }

    method RollBack()
      requires Valid()
      modifies this`sr, this`dar
      ensures Valid() && View() == Rolled(model, old(View()))
    {
      hide Unpack, Active;
      sr := Unpack(model, srSave);
      dar := darSave;
    }

    /** The frame that `ExceptionUnit` builds, push by push, and the vector. */
    method ExceptionBusError(f: Fault)
      requires Valid() && Legal(model, AccessError(f)) && !berrMode
      modifies this
      ensures Valid() && View() == Handler(model, old(View()), f).(faulted := berrMode)
    {
      hide E.Entry, Unpack, Active;
      ghost var was := View();
      var core := Core(sr, sp.Put(Active(model, sr), dar[15]), pc, ppc, vbr, mem, readOverride, writeSuppress);
      SetFlagsBanked(SupervisorSr(sr, AccessError(f)));
      if model.Pre68020() {
        RawEntry(core, f, was);
      } else {
        PagedEntry(core, f, was);
      }
    }

    method RawEntry(core: Core, f: Fault, ghost was: State)
      requires Valid() && Legal(model, AccessError(f)) && !berrMode && model.Pre68020()
      requires Sound(model, was) && core == CoreOf(model, was)
      requires View() == SwitchTo(model, was, SupervisorSr(was.sr, AccessError(f)))
      modifies this`dar, this`pc, this`mem
      ensures Valid() && View() == Handler(model, was, f).(faulted := berrMode)
    {
      hide Enter, Unpack, Active;
      E.EntryFields(model, core, AccessError(f));
      var e := Enter(model, core, AccessError(f));
      dar := dar[15 := A7(model, e)];
      pc, mem := e.pc, e.mem;
    }

    method PagedEntry(core: Core, f: Fault, ghost was: State)
      requires Valid() && Legal(model, AccessError(f)) && !berrMode && !model.Pre68020()
      requires Sound(model, was) && core == CoreOf(model, was)
      requires View() == SwitchTo(model, was, SupervisorSr(was.sr, AccessError(f)))
      modifies this
      ensures Valid() && View() == Handler(model, was, f).(faulted := berrMode)
    {
      hide FirstFrame, Unpack, Active, Stored, E.PushSizes, E.PushStores, E.Exhausts, P.WriteCycles, P.PagedRead, P.Seen, Enter;
      E.PushSizesFit(model);
      FrameSizes(model, core, AccessError(f));
      PushFrame(FirstFrame(model, core, AccessError(f)));
      SupervisorStack(model, core, f);
      if berrMode {
        pc := 0;
      } else {
        ReadVector();
      }
    }

    method ReadVector()
      requires Valid() && !berrMode && !model.Pre68020()
      modifies this`pc, this`readOverride, this`stopped, this`berrMode
      ensures var v := P.PagedRead(space, mem, old(readOverride), E.VectorAddress(vbr), 4, P.DataRead);
              && pc == P.Seen(4, v.bytes) && readOverride == v.over
              && berrMode == v.refused.Some? && stopped == (old(stopped) || v.refused.Some?)
    {
      hide P.PagedRead, P.Seen;
      E.Limits();
      P.PagedBytes(space, mem, readOverride, E.VectorAddress(vbr), 4, P.DataRead);
      var v := P.PagedRead(space, mem, readOverride, E.VectorAddress(vbr), 4, P.DataRead);
      pc := P.Seen(4, v.bytes);
      readOverride := v.over;
      if v.refused.Some? {
        stopped := true;
        berrMode := true;
      }
    }

    /** After a refused push the rest only lower A7. */
    method PushFrame(frame: seq<u8>)
      requires Valid() && !berrMode && !model.Pre68020()
      requires E.Exhausts(|frame|, E.PushSizes(model))
      modifies this`mem, this`writeSuppress, this`dar, this`stopped, this`berrMode
      ensures Valid()
      ensures var w := P.WriteCycles(space, old(mem), old(writeSuppress),
                                     E.PushStores(space.mmu, old(dar[15]), frame, E.PushSizes(model)));
              && mem == w.mem && writeSuppress == w.suppress
              && berrMode == w.refused.Some? && stopped == (old(stopped) || w.refused.Some?)
      ensures dar == old(dar)[15 := Sub32(old(dar[15]), |frame|)]
    {
      hide E.PushSizes, E.PushStores, E.Exhausts, Active, P.WriteCycles, P.Stores, Stored;
      var sizes, left, i := E.PushSizes(model), frame, 0;
      ghost var all := P.WriteCycles(space, mem, writeSuppress, E.PushStores(space.mmu, dar[15], frame, sizes));
      while i < |sizes|
        invariant Valid() && i <= |sizes| && |left| <= |frame| && E.Exhausts(|left|, sizes[i..])
        invariant !berrMode ==> all == P.WriteCycles(space, mem, writeSuppress, E.PushStores(space.mmu, dar[15], left, sizes[i..]))
        invariant berrMode ==> all.refused.Some? && mem == all.mem && writeSuppress == all.suppress
        invariant stopped == (old(stopped) || berrMode)
        invariant dar == old(dar)[15 := Sub32(old(dar[15]), |frame| - |left|)]
      {
        assert sizes[i..][1..] == sizes[i + 1..];
        NextStore(space.mmu, dar[15], left, sizes[i..]);
        var n, rest := sizes[i], |left| - sizes[i];
        PopsAdd(old(dar[15]), |frame| - |left|, n);
        dar := dar[15 := Sub32(dar[15], n)];
        if !berrMode {
          PushOne(left[rest..], left[..rest], sizes[i + 1..]);
        }
        left := left[..rest];
        i := i + 1;
      }
      NoMoreStores(space, mem, writeSuppress, dar[15], left, sizes[i..]);
    }

    /** One push, with A7 already lowered. */
    method PushOne(bytes: seq<u8>, ghost low: seq<u8>, ghost later: seq<nat>)
      requires Valid() && !berrMode && !model.Pre68020()
      modifies this`mem, this`writeSuppress, this`stopped, this`berrMode
      ensures Valid() && stopped == (old(stopped) || berrMode)
      ensures var rest := E.PushStores(space.mmu, dar[15], low, later);
              var all := P.WriteCycles(space, old(mem), old(writeSuppress), P.Stores(space.mmu, dar[15], bytes) + rest);
              if berrMode then all.refused.Some? && mem == all.mem && writeSuppress == all.suppress
              else all == P.WriteCycles(space, mem, writeSuppress, rest)
    {
      hide P.WriteCycles, P.Stores, E.PushStores, Active;
      P.WriteCyclesAppend(space, mem, writeSuppress, P.Stores(space.mmu, dar[15], bytes), E.PushStores(space.mmu, dar[15], low, later));
      var w := P.PagedWrite(space, mem, writeSuppress, dar[15], bytes);
      mem, writeSuppress := w.mem, w.suppress;
      if w.refused.Some? {
        stopped := true;
        berrMode := true;
      }
    }

    method EndFaultedInstruction()
      requires Valid()
      modifies this
      ensures Valid() && View() == End(model, old(View()))
    {
      hide Unpack;
      match faultResume {
        case Some(h) =>
          faultResume := None;
          pc := h.pc;
          sr := Unpack(model, h.sr);
          dar := h.dar;
        case None =>
      }
      if stopped {
        berrMode := true;
        return;
      }
      berrMode := false;
    }
  }

  // --------------------------------------------------------------- no afterlife

  /** The fault has just been dispatched. */
  predicate Captured(model: Model, s: State)
    requires Sound(model, s)
  {
    s.faulted && s.resume == Some(Resume(s.pc, Pack(s.sr), s.dar))
  }

  /** Everything but registers, SR, PC and the raw banks. */
  ghost predicate SameMachine(s: State, r: State) {
    && r.faulted == s.faulted && r.mem == s.mem && r.resume == s.resume && r.stopped == s.stopped
    && r.vbr == s.vbr && r.ppc == s.ppc && r.darSave == s.darSave && r.srSave == s.srSave && r.space == s.space
    && r.readOverride == s.readOverride && r.writeSuppress == s.writeSuppress
    && r.exceptionProcessing == s.exceptionProcessing
  }

  lemma {:induction false} TailTouchesNoRam(model: Model, s: State, tail: seq<Micro>)
    requires Sound(model, s) && s.faulted
    ensures SameMachine(s, Run(model, s, tail))
    decreases |tail|
  {
    if tail != [] {
      StepTouchesNoRam(model, s, tail[0]);
      hide Apply;
      TailTouchesNoRam(model, Apply(model, s, tail[0]), tail[1..]);
    }
  }

  lemma StepTouchesNoRam(model: Model, s: State, m: Micro)
    requires Sound(model, s) && s.faulted
    ensures SameMachine(s, Apply(model, s, m))
  {
    hide Write, Dispatch, Unpack, Active;
  }

  /** An instruction that has faulted stays so, and one that ends without a
      fault met none on the way. */
  lemma FaultStays(model: Model, s: State, code: seq<Micro>)
    requires Sound(model, s) && code != []
    ensures s.faulted ==> Apply(model, s, code[0]).faulted
    ensures Apply(model, s, code[0]).faulted ==> Run(model, s, code).faulted
  {
    hide Apply;
    var next := Apply(model, s, code[0]);
    if s.faulted {
      StepTouchesNoRam(model, s, code[0]);
    }
    if next.faulted {
      TailTouchesNoRam(model, next, code[1..]);
    }
  }

  /** A faulted instruction has no afterlife: whatever its remaining code does to
      registers, SR, PC and memory, the handler starts from what the dispatch
      captured, over the memory the dispatch left. */
  lemma NoAfterlife(model: Model, s: State, tail: seq<Micro>)
    requires Sound(model, s) && Captured(model, s)
    ensures var e := End(model, Run(model, s, tail));
            && e.pc == s.pc && e.sr == s.sr && e.dar == s.dar && e.mem == s.mem
            && e.faulted == s.stopped
  {
    TailTouchesNoRam(model, s, tail);
    SrRoundTrip(model, s.sr);
  }

  // ------------------------------------------------------- the other stacks

  function SrWords(code: seq<Micro>): seq<u16> {
    if code == [] then []
    else (if code[0].LoadSr? then [code[0].word] else []) + SrWords(code[1..])
  }

  /** No SR load but the last leaves the bank `home`. */
  predicate Homebound(model: Model, home: Bank, words: seq<u16>) {
    forall i :: 0 <= i < |words| - 1 ==> Active(model, Unpack(model, words[i])) == home
  }

  predicate SameElsewhere(home: Bank, a: Stacks, b: Stacks) {
    a.Put(home, 0) == b.Put(home, 0)
  }

  lemma {:induction false} OtherBanksKept(model: Model, home: Bank, was: Stacks, s: State, code: seq<Micro>)
    requires Sound(model, s)
    requires Homebound(model, home, SrWords(code)) && (SrWords(code) != [] ==> Active(model, s.sr) == home)
    requires SameElsewhere(home, s.banks, was)
    requires s.faulted || !Run(model, s, code).faulted
    ensures SameElsewhere(home, Run(model, s, code).banks, was)
    decreases |code|
  {
    if code != [] {
      WordsStep(model, home, code);
      FaultStays(model, s, code);
      StepKeepsOthers(model, home, s, code[0]);
      hide Apply, Homebound, SrWords;
      OtherBanksKept(model, home, was, Apply(model, s, code[0]), code[1..]);
    }
  }

  lemma WordsStep(model: Model, home: Bank, code: seq<Micro>)
    requires code != [] && Homebound(model, home, SrWords(code))
    ensures Homebound(model, home, SrWords(code[1..]))
    ensures SrWords(code) == (if code[0].LoadSr? then [code[0].word] else []) + SrWords(code[1..])
    ensures code[0].LoadSr? && SrWords(code[1..]) != [] ==> Active(model, Unpack(model, code[0].word)) == home
    ensures SrWords(code[1..]) != [] ==> SrWords(code) != []
  {
    hide Unpack, Active;
    var rest := SrWords(code[1..]);
    if code[0].LoadSr? {
      TailHomebound(model, home, code[0].word, rest);
    } else {
      assert SrWords(code) == rest;
    }
  }

  lemma TailHomebound(model: Model, home: Bank, word: u16, rest: seq<u16>)
    requires Homebound(model, home, [word] + rest)
    ensures Homebound(model, home, rest)
    ensures rest != [] ==> Active(model, Unpack(model, word)) == home
  {
    hide Unpack, Active;
    var words := [word] + rest;
    if rest != [] {
      assert words[0] == word;
    }
    forall i | 0 <= i < |rest| - 1
      ensures Active(model, Unpack(model, rest[i])) == home
    {
      assert words[i + 1] == rest[i];
    }
  }

  lemma StepKeepsOthers(model: Model, home: Bank, s: State, m: Micro)
    requires Sound(model, s) && (s.faulted || !Apply(model, s, m).faulted)
    requires m.LoadSr? ==> Active(model, s.sr) == home
    ensures SameElsewhere(home, Apply(model, s, m).banks, s.banks)
    ensures Active(model, Apply(model, s, m).sr)
            == if m.LoadSr? then Active(model, Unpack(model, m.word)) else Active(model, s.sr)
  {
    hide Write, Dispatch, Unpack;
  }

  function Loads(words: seq<u16>): seq<Micro> {
    seq(|words|, i requires 0 <= i < |words| => LoadSr(words[i]))
  }

  lemma {:induction false} LoadsWords(words: seq<u16>)
    ensures SrWords(Loads(words)) == words
  {
    if words != [] {
      assert Loads(words)[1..] == Loads(words[1..]);
      LoadsWords(words[1..]);
    }
  }

  lemma {:induction false} SrWordsAppend(a: seq<Micro>, b: seq<Micro>)
    ensures SrWords(a + b) == SrWords(a) + SrWords(b)
  {
    if a == [] {
      assert a + b == b;
    } else {
      assert (a + b)[0] == a[0] && (a + b)[1..] == a[1..] + b;
      SrWordsAppend(a[1..], b);
      var first := if a[0].LoadSr? then [a[0].word] else [];
      assert SrWords(a) == first + SrWords(a[1..]) && SrWords(a + b) == first + SrWords(a[1..] + b);
    }
  }

  lemma {:induction false} RunAppend(model: Model, s: State, a: seq<Micro>, b: seq<Micro>)
    requires Sound(model, s)
    ensures Run(model, s, a + b) == Run(model, Run(model, s, a), b)
    decreases |a|
  {
    hide Apply;
    if a == [] {
      assert a + b == b;
    } else {
      assert (a + b)[1..] == a[1..] + b;
      RunAppend(model, Apply(model, s, a[0]), a[1..], b);
    }
  }

  /** Once a value has been backed up, further SR loads only move it around. */
  lemma {:induction false} BackedUpStays(model: Model, s: State, words: seq<u16>, bank: Bank, v: u32)
    requires Sound(model, s)
    requires s.banks.Get(bank) == v && CoreOf(model, s).stacks.Get(bank) == v
    ensures Run(model, s, Loads(words)).banks.Get(bank) == v
    decreases |words|
  {
    hide Unpack, Active;
    if words != [] {
      assert Loads(words)[1..] == Loads(words[1..]);
      var next := Apply(model, s, LoadSr(words[0]));
      SwitchKeepsStacks(model, s, Unpack(model, words[0]));
      BackedUpStays(model, next, words[1..], bank, v);
    }
  }

  lemma {:induction false} LoadsEndIn(model: Model, s: State, words: seq<u16>)
    requires Sound(model, s) && words != []
    ensures Run(model, s, Loads(words)).sr == Unpack(model, words[|words| - 1])
    decreases |words|
  {
    hide Unpack, Active;
    assert Loads(words)[1..] == Loads(words[1..]);
    var next := Apply(model, s, LoadSr(words[0]));
    if |words| > 1 {
      LoadsEndIn(model, next, words[1..]);
    } else {
      assert Loads(words[1..]) == [];
    }
  }

  /** A7 changed while an early SR load has selected another stack. */
  function Disturbing(words: seq<u16>, i: nat, v: u32): seq<Micro>
    requires i < |words| - 1
  {
    Loads(words[..i + 1]) + ([SetRegister(15, v)] + Loads(words[i + 1..]))
  }

  lemma DisturbingWords(words: seq<u16>, i: nat, v: u32)
    requires i < |words| - 1
    ensures SrWords(Disturbing(words, i, v)) == words
  {
    LoadsWords(words[..i + 1]);
    LoadsWords(words[i + 1..]);
    var set15: seq<Micro> := [SetRegister(15, v)];
    assert SrWords(set15) == [];
    SrWordsAppend(set15, Loads(words[i + 1..]));
    SrWordsAppend(Loads(words[..i + 1]), set15 + Loads(words[i + 1..]));
    assert words[..i + 1] + words[i + 1..] == words;
  }

  lemma DisturbingMovesBank(model: Model, s: State, words: seq<u16>, i: nat, v: u32)
    requires Sound(model, s) && i < |words| - 1
    ensures Run(model, s, Disturbing(words, i, v)).banks.Get(Active(model, Unpack(model, words[i]))) == v
  {
    hide Unpack, Active, Apply;
    var before, after := words[..i + 1], words[i + 1..];
    LoadsEndIn(model, s, before);
    RunAppend(model, s, Loads(before), [SetRegister(15, v)] + Loads(after));
    ChangedAwayIsBackedUp(model, Run(model, s, Loads(before)), after, v);
  }

  lemma ChangedAwayIsBackedUp(model: Model, away: State, after: seq<u16>, v: u32)
    requires Sound(model, away) && after != []
    ensures Run(model, away, [SetRegister(15, v)] + Loads(after)).banks.Get(Active(model, away.sr)) == v
  {
    hide Unpack, Active;
    var moved := Apply(model, away, SetRegister(15, v));
    assert ([SetRegister(15, v)] + Loads(after))[1..] == Loads(after);
    assert Loads(after)[1..] == Loads(after[1..]);
    var saved := Apply(model, moved, LoadSr(after[0]));
    SwitchKeepsStacks(model, moved, Unpack(model, after[0]));
    BackedUpStays(model, saved, after[1..], Active(model, away.sr), v);
  }

  lemma HomeboundTailKeepsStacks(model: Model, s: State, tail: seq<Micro>)
    requires Sound(model, s) && Captured(model, s)
    requires Homebound(model, Active(model, s.sr), SrWords(tail))
    ensures CoreOf(model, End(model, Run(model, s, tail))).stacks == CoreOf(model, s).stacks
  {
    hide Unpack, Active, Apply, Homebound;
    NoAfterlife(model, s, tail);
    OtherBanksKept(model, Active(model, s.sr), s.banks, s, tail);
    EndKeepsBanks(model, Run(model, s, tail));
  }

  lemma EndKeepsBanks(model: Model, s: State)
    requires Sound(model, s)
    ensures End(model, s).banks == s.banks
  {
    hide Unpack;
  }

  lemma StrayTailMovesAStack(model: Model, s: State, words: seq<u16>, i: nat) returns (tail: seq<Micro>)
    requires Sound(model, s) && Captured(model, s)
    requires i < |words| - 1 && Active(model, Unpack(model, words[i])) != Active(model, s.sr)
    ensures SrWords(tail) == words
    ensures CoreOf(model, End(model, Run(model, s, tail))).stacks != CoreOf(model, s).stacks
  {
    hide Unpack, Active, Apply, SrWords, Disturbing, CoreOf, End, Run, Captured;
    var bank := Active(model, Unpack(model, words[i]));
    var v: u32 := if CoreOf(model, s).stacks.Get(bank) == 0 then 1 else 0;
    tail := Disturbing(words, i, v);
    DisturbingWords(words, i, v);
    DisturbingMovesBank(model, s, words, i, v);
    NoAfterlife(model, s, tail);
    EndKeepsBanks(model, Run(model, s, tail));
    InactiveStack(model, End(model, Run(model, s, tail)), bank);
  }

  lemma InactiveStack(model: Model, s: State, bank: Bank)
    requires |s.dar| == 16 && bank != Active(model, s.sr)
    ensures CoreOf(model, s).stacks.Get(bank) == s.banks.Get(bank)
  {
  }

  /** The registers are captured, the inactive stack banks are not: they survive
      every tail with these SR loads exactly when no load but the last leaves
      the handler's stack. */
  lemma OtherStacksKeptIff(model: Model, s: State, words: seq<u16>)
    requires Sound(model, s) && Captured(model, s)
    ensures Homebound(model, Active(model, s.sr), words)
            <==> forall tail :: SrWords(tail) == words ==>
                   CoreOf(model, End(model, Run(model, s, tail))).stacks == CoreOf(model, s).stacks
  {
    hide Unpack, Active, Apply, SrWords, CoreOf, End, Run;
    var home := Active(model, s.sr);
    if Homebound(model, home, words) {
      forall tail | SrWords(tail) == words
        ensures CoreOf(model, End(model, Run(model, s, tail))).stacks == CoreOf(model, s).stacks
      {
        HomeboundTailKeepsStacks(model, s, tail);
      }
    } else {
      var i :| 0 <= i < |words| - 1 && Active(model, Unpack(model, words[i])) != home;
      var tail := StrayTailMovesAStack(model, s, words, i);
    }
  }

  // --------------------------------------------------- runs without a fault

  /** What the step set up, and what only a fault changes. */
  ghost predicate SameSnapshot(s: State, r: State) {
    && r.darSave == s.darSave && r.srSave == s.srSave && r.ppc == s.ppc && r.vbr == s.vbr && r.space == s.space
    && r.faulted == s.faulted && r.stopped == s.stopped && r.exceptionProcessing == s.exceptionProcessing
  }

  lemma {:induction false} PlainRunKeepsSnapshot(model: Model, s: State, code: seq<Micro>)
    requires Sound(model, s) && !Run(model, s, code).faulted
    ensures SameSnapshot(s, Run(model, s, code))
    decreases |code|
  {
    if code != [] {
      FaultStays(model, s, code);
      PlainStepKeepsSnapshot(model, s, code[0]);
      hide Apply;
      PlainRunKeepsSnapshot(model, Apply(model, s, code[0]), code[1..]);
    }
  }

  lemma PlainStepKeepsSnapshot(model: Model, s: State, m: Micro)
    requires Sound(model, s) && !Apply(model, s, m).faulted
    ensures SameSnapshot(s, Apply(model, s, m))
  {
    hide Write, Unpack, Active, Trigger, Stored;
  }

  // --------------------------------------------------------------- one-shots

  predicate LoadsFrom(code: seq<Micro>, over: Option<(u32, u32)>) {
    exists i :: 0 <= i < |code| && code[i].Load? && OverrideAt(over, code[i].addr)
  }

  predicate StoresTo(code: seq<Micro>, suppress: Option<u32>) {
    exists i :: 0 <= i < |code| && code[i].Store? && suppress == Some(code[i].addr)
  }

  lemma OneShotsStep(model: Model, s: State, m: Micro)
    requires Sound(model, s) && !s.faulted && !Apply(model, s, m).faulted
    ensures var next := Apply(model, s, m);
            && next.readOverride == (if LoadsFrom([m], s.readOverride) then None else s.readOverride)
            && next.writeSuppress == (if StoresTo([m], s.writeSuppress) then None else s.writeSuppress)
  {
    hide Write, Unpack, Trigger, Active, Sound, Stored;
    assert [m][0] == m;
  }

  lemma MatchSplits(code: seq<Micro>, over: Option<(u32, u32)>, suppress: Option<u32>)
    requires code != []
    ensures LoadsFrom(code, over) <==> LoadsFrom([code[0]], over) || LoadsFrom(code[1..], over)
    ensures StoresTo(code, suppress) <==> StoresTo([code[0]], suppress) || StoresTo(code[1..], suppress)
  {
    var m, rest := code[0], code[1..];
    assert [m][0] == m && forall i :: 0 <= i < |rest| ==> rest[i] == code[i + 1];
    assert forall i :: 1 <= i < |code| ==> code[i] == rest[i - 1];
  }

  /** A plain run uses an armed one-shot up exactly when one of its cycles is at
      the armed address. */
  lemma {:induction false} OneShotsAfter(model: Model, s: State, code: seq<Micro>)
    requires Sound(model, s) && !Run(model, s, code).faulted
    ensures var r := Run(model, s, code);
            && r.readOverride == (if LoadsFrom(code, s.readOverride) then None else s.readOverride)
            && r.writeSuppress == (if StoresTo(code, s.writeSuppress) then None else s.writeSuppress)
    decreases |code|
  {
    if code != [] {
      FaultStays(model, s, code);
      OneShotsStep(model, s, code[0]);
      MatchSplits(code, s.readOverride, s.writeSuppress);
      var next := Apply(model, s, code[0]);
      hide Apply, LoadsFrom, StoresTo;
      OneShotsAfter(model, next, code[1..]);
    }
  }

  /** The same state with some of its one-shots taken away. */
  function Disarmed(model: Model, s: State, over: bool, suppress: bool): (r: State)
    requires Sound(model, s)
    ensures Sound(model, r)
  {
    s.(readOverride := if over then None else s.readOverride, writeSuppress := if suppress then None else s.writeSuppress)
  }

  /** A run that misses an armed address goes as if nothing were armed. */
  lemma {:induction false} OneShotsUnseen(model: Model, s: State, code: seq<Micro>, over: bool, suppress: bool)
    requires Sound(model, s) && !Run(model, s, code).faulted
    requires over ==> !LoadsFrom(code, s.readOverride)
    requires suppress ==> !StoresTo(code, s.writeSuppress)
    ensures Run(model, Disarmed(model, s, over, suppress), code) == Disarmed(model, Run(model, s, code), over, suppress)
    decreases |code|
  {
    if code != [] {
      FaultStays(model, s, code);
      OneShotsStep(model, s, code[0]);
      MatchSplits(code, s.readOverride, s.writeSuppress);
      UnseenStep(model, s, code[0], over, suppress);
      var next := Apply(model, s, code[0]);
      hide Apply, LoadsFrom, StoresTo;
      OneShotsUnseen(model, next, code[1..], over, suppress);
    }
  }

  lemma UnseenStep(model: Model, s: State, m: Micro, over: bool, suppress: bool)
    requires Sound(model, s) && !s.faulted && !Apply(model, s, m).faulted
    requires over ==> !LoadsFrom([m], s.readOverride)
    requires suppress ==> !StoresTo([m], s.writeSuppress)
    ensures Apply(model, Disarmed(model, s, over, suppress), m) == Disarmed(model, Apply(model, s, m), over, suppress)
  {
    hide Write, Unpack, Trigger, Active, Sound, Stored;
    assert [m][0] == m;
  }

  /** The first store at the suppressed address, and no other, is dropped: the
      rest of the code runs as if it were not there and nothing were armed. */
  lemma FirstMatchingStoreIsDropped(model: Model, s: State, before: seq<Micro>, store: Micro, after: seq<Micro>)
    requires Sound(model, s) && !Run(model, s, before).faulted
    requires store.Store? && s.writeSuppress == Some(store.addr) && !StoresTo(before, s.writeSuppress)
    ensures Run(model, s, before + ([store] + after)) == Run(model, s.(writeSuppress := None), before + after)
  {
    hide Apply;
    OneShotsUnseen(model, s, before, false, true);
    OneShotsAfter(model, s, before);
    RunAppend(model, s, before, [store] + after);
    RunAppend(model, s.(writeSuppress := None), before, after);
    assert ([store] + after)[1..] == after;
    Dropped(model, Run(model, s, before), store);
  }

  lemma Dropped(model: Model, s: State, m: Micro)
    requires Sound(model, s) && !s.faulted
    ensures m.Store? && s.writeSuppress == Some(m.addr) ==> Apply(model, s, m) == s.(writeSuppress := None)
    ensures m.Load? && OverrideAt(s.readOverride, m.addr) ==> Apply(model, s, m) == s.(readOverride := None)
  {
  }

  /** The first load at the overridden address, and no other, takes the
      handler's value instead of a bus cycle. */
  lemma FirstMatchingLoadIsSupplied(model: Model, s: State, before: seq<Micro>, load: Micro, after: seq<Micro>)
    requires Sound(model, s) && !Run(model, s, before).faulted
    requires load.Load? && OverrideAt(s.readOverride, load.addr) && !LoadsFrom(before, s.readOverride)
    ensures Run(model, s, before + ([load] + after)) == Run(model, s.(readOverride := None), before + after)
    ensures Loaded(model, Run(model, s, before), load.addr, load.n, load.answer) == LowBytes(s.readOverride.value.1, load.n)
  {
    hide Apply, LowBytes;
    OneShotsUnseen(model, s, before, true, false);
    OneShotsAfter(model, s, before);
    RunAppend(model, s, before, [load] + after);
    RunAppend(model, s.(readOverride := None), before, after);
    assert ([load] + after)[1..] == after;
    Dropped(model, Run(model, s, before), load);
  }

  // ------------------------------------------------------ restart as a whole

  /** The handler as it is entered: the entry from the architectural state. */
  lemma HandlerIsEntry(model: Model, s: State, f: Fault)
    requires Sound(model, s) && Legal(model, AccessError(f))
    ensures var h, (e, refused) := Handler(model, s, f), E.Entry(model, s.space, CoreOf(model, s), f);
            && CoreOf(model, h) == e && h.sr == SupervisorSr(s.sr, AccessError(f)) && h.dar[..15] == s.dar[..15]
            && SameElsewhere(Active(model, h.sr), h.banks, CoreOf(model, s).stacks)
            && h.stopped == (s.stopped || refused)
  {
    hide E.Entry;
    var c := CoreOf(model, s);
    E.EntryStackPointers(model, s.space, c, f);
    SwitchKeepsStacks(model, s, SupervisorSr(s.sr, AccessError(f)));
  }

  lemma DispatchedState(model: Model, s: State, f: Fault)
    requires Sound(model, s) && Legal(model, AccessError(f))
    ensures SameSnapshot(s, Handler(model, s, f).(stopped := s.stopped))
  {
    hide E.Entry, Active;
  }

  /** The snapshot the step takes before it fetches. */
  predicate AtStart(model: Model, s: State)
    requires Sound(model, s)
  {
    && s.darSave == s.dar && s.srSave == Pack(s.sr)
    && !s.faulted && !s.stopped && !s.exceptionProcessing
  }

  /** The access that faults: refused, and at no armed address. */
  lemma FaultingAccess(model: Model, s: State, m: Micro) returns (f: Fault)
    requires Sound(model, s) && !s.faulted && Apply(model, s, m).faulted
    ensures (m.Fetch? || m.Load? || m.Store?) && m.answer == Refused(f) && Legal(model, AccessError(f))
    ensures Apply(model, s, m) == Trigger(model, s, f)
  {
    hide Write, Unpack, Trigger, Active;
    f := m.answer.fault;
  }

  /** An instruction from `s`: code without a fault, and a cycle that faults. */
  predicate Faults(model: Model, s: State, before: seq<Micro>, m: Micro)
    requires Sound(model, s)
  {
    AtStart(model, s) && !Run(model, s, before).faulted && Apply(model, Run(model, s, before), m).faulted
  }

  /** What a fault at `hit` goes back to: the context the instruction started
      in, over the memory, the one-shots and the other stacks as its code has
      left them. */
  function Restart(model: Model, s: State, hit: State): (c: Core)
    requires Sound(model, s) && Sound(model, hit)
    ensures Wf(model, c)
  {
    CoreOf(model, s).(stacks := hit.banks.Put(Active(model, s.sr), s.dar[15]), mem := hit.mem,
                      readOverride := hit.readOverride, writeSuppress := hit.writeSuppress)
  }

  /** The other stacks are the start's own if no SR load but the last left the
      instruction's stack. */
  lemma RestartStacks(model: Model, s: State, before: seq<Micro>)
    requires Sound(model, s) && !Run(model, s, before).faulted
    requires Homebound(model, Active(model, s.sr), SrWords(before))
    ensures Restart(model, s, Run(model, s, before)).stacks == CoreOf(model, s).stacks
  {
    hide Unpack, Active, Apply, Homebound;
    OtherBanksKept(model, Active(model, s.sr), s.banks, s, before);
  }

  lemma RollsBack(model: Model, s: State, hit: State)
    requires Sound(model, s) && AtStart(model, s) && Sound(model, hit) && SameSnapshot(s, hit)
    ensures var rolled := Rolled(model, hit);
            && CoreOf(model, rolled) == Restart(model, s, hit).(pc := hit.pc)
            && rolled.sr == s.sr && rolled.dar == s.dar && SameSnapshot(s, rolled)
  {
    hide Unpack, Active, Pack;
    SrRoundTrip(model, s.sr);
  }

  /** The dispatch of a fault at `hit`, in an instruction that started in `s`. */
  lemma DispatchRestarts(model: Model, s: State, hit: State, f: Fault)
    requires Sound(model, s) && AtStart(model, s) && Sound(model, hit) && SameSnapshot(s, hit) && Legal(model, AccessError(f))
    ensures var h, (e, refused) := Dispatch(model, hit, f), E.Entry(model, s.space, Restart(model, s, hit), f);
            && Captured(model, h) && CoreOf(model, h) == e && h.dar[..15] == s.dar[..15]
            && h.sr == SupervisorSr(s.sr, AccessError(f)) && h.stopped == refused
            && SameElsewhere(Active(model, h.sr), h.banks, Restart(model, s, hit).stacks)
            && SameSnapshot(s, h.(faulted := false, stopped := false))
  {
    hide E.Entry, Unpack, Active, Pack, Handler, Rolled, Restart;
    var rolled := Rolled(model, hit);
    RollsBack(model, s, hit);
    E.EntryIgnoresPc(model, s.space, Restart(model, s, hit), hit.pc, f);
    HandlerIsEntry(model, rolled, f);
    DispatchedState(model, rolled, f);
  }

  /** The whole fault: registers and SR rolled back to the instruction's start,
      the exception entered from there, the instruction's remaining code without
      effect on anything but other stacks, and not on them if it is homebound.
      The core is stopped exactly when the entry is refused in its turn. */
  lemma FaultRestartsInstruction(model: Model, s: State, before: seq<Micro>, m: Micro, after: seq<Micro>) returns (f: Fault)
    requires Sound(model, s) && Faults(model, s, before, m)
    ensures (m.Fetch? || m.Load? || m.Store?) && m.answer == Refused(f) && Legal(model, AccessError(f))
    ensures var hit := Run(model, s, before);
            var done := End(model, Run(model, Apply(model, hit, m), after));
            var (entry, refused) := E.Entry(model, s.space, Restart(model, s, hit), f);
            && CoreOf(model, done).(stacks := entry.stacks) == entry && done.dar == s.dar[15 := A7(model, entry)]
            && done.stopped == refused && done.faulted == refused
            && (Homebound(model, Active(model, entry.sr), SrWords(after)) ==> CoreOf(model, done) == entry)
  {
    hide E.Entry, Unpack, Active, Pack, Apply, Homebound, Restart;
    var hit := Run(model, s, before);
    f := FaultingAccess(model, hit, m);
    PlainRunKeepsSnapshot(model, s, before);
    DispatchRestarts(model, s, hit, f);
    var h := Apply(model, hit, m);
    assert h == Dispatch(model, hit, f);
    ClosesAsCaptured(model, s, h, after);
  }

  lemma ClosesAsCaptured(model: Model, s: State, h: State, after: seq<Micro>)
    requires Sound(model, s) && Sound(model, h) && h.faulted && Captured(model, h) && h.dar[..15] == s.dar[..15]
    ensures var done := End(model, Run(model, h, after));
            && CoreOf(model, done).(stacks := CoreOf(model, h).stacks) == CoreOf(model, h)
            && done.dar == s.dar[15 := A7(model, CoreOf(model, h))]
            && done.stopped == h.stopped && done.faulted == h.stopped
            && (Homebound(model, Active(model, h.sr), SrWords(after)) ==> CoreOf(model, done) == CoreOf(model, h))
  {
    hide Unpack, Active, Pack, Homebound, Apply, Captured, Run, End;
    var tail := Run(model, h, after);
    NoAfterlife(model, h, after);
    TailTouchesNoRam(model, h, after);
    A7IsRegister(model, h);
    EndTouchesNoRam(model, tail);
    OnlyA7(s.dar, h.dar);
    if Homebound(model, Active(model, h.sr), SrWords(after)) {
      HomeboundTailKeepsStacks(model, h, after);
    }
  }

  lemma A7IsRegister(model: Model, s: State)
    requires Sound(model, s)
    ensures A7(model, CoreOf(model, s)) == s.dar[15]
  {
  }

  lemma EndTouchesNoRam(model: Model, s: State)
    requires Sound(model, s)
    ensures var e := End(model, s);
            && e.mem == s.mem && e.vbr == s.vbr && e.ppc == s.ppc && e.readOverride == s.readOverride
            && e.writeSuppress == s.writeSuppress && e.stopped == s.stopped && e.faulted == s.stopped
  {
    hide Unpack;
  }

  lemma OnlyA7(a: seq<u32>, b: seq<u32>)
    requires |a| == 16 && |b| == 16 && a[..15] == b[..15]
    ensures b == a[15 := b[15]]
  {
    assert b == b[..15] + [b[15]] && a[15 := b[15]] == a[..15] + [b[15]];
  }

  /** The one-shots the handler finds armed: each is kept exactly when no cycle
      before the fault, and no cycle of the entry, was at its address. */
  lemma OneShotsAtHandler(model: Model, s: State, before: seq<Micro>, m: Micro, after: seq<Micro>)
    requires Sound(model, s) && Faults(model, s, before, m)
    ensures var hit := Run(model, s, before);
            var done, start := End(model, Run(model, Apply(model, hit, m), after)), Restart(model, s, hit);
            !done.stopped ==>
              && done.readOverride == (if LoadsFrom(before, s.readOverride) || E.LoadsAt(model, s.space, start, s.readOverride)
                                       then None else s.readOverride)
              && done.writeSuppress == (if StoresTo(before, s.writeSuppress) || E.StoresAt(model, s.space, start, s.writeSuppress)
                                        then None else s.writeSuppress)
  {
    hide E.Entry, E.LoadsAt, E.StoresAt, E.EntryGranted, Unpack, Active, Apply, Run, End, LoadsFrom, StoresTo, Pack;
    var hit := Run(model, s, before);
    var f := FaultRestartsInstruction(model, s, before, m, after);
    OneShotsAfter(model, s, before);
    OneShotsOf(model, s, hit, f);
    NothingAt(model, s.space, Restart(model, s, hit));
  }

  lemma OneShotsOf(model: Model, s: State, hit: State, f: Fault)
    requires Sound(model, s) && Sound(model, hit) && Legal(model, AccessError(f))
    ensures var start := Restart(model, s, hit);
            var (e, refused) := E.Entry(model, s.space, start, f);
            !refused ==>
              && e.readOverride == (if E.LoadsAt(model, s.space, start, hit.readOverride) then None else hit.readOverride)
              && e.writeSuppress == (if E.StoresAt(model, s.space, start, hit.writeSuppress) then None else hit.writeSuppress)
  {
    hide E.Entry, E.EntryGranted, E.LoadsAt, E.StoresAt;
    E.EntryAccesses(model, s.space, Restart(model, s, hit), f);
  }

  lemma NothingAt(model: Model, space: P.Space, c: Core)
    ensures !E.LoadsAt(model, space, c, None) && !E.StoresAt(model, space, c, None)
  {
  }

  /** An absorbed write that was dropped before a later fault is not absorbed
      again: the next restart faults at it, unless its page has been mapped. */
  lemma AbsorbedWriteFaultsAgain(model: Model, s: State, absorbed: Micro, m: Micro, after: seq<Micro>, again: State)
    requires Sound(model, s) && Faults(model, s, [absorbed], m)
    requires absorbed.Store? && s.writeSuppress == Some(absorbed.addr)
    requires absorbed.answer.Refused? && Legal(model, AccessError(absorbed.answer.fault))
    requires Sound(model, again) && AtStart(model, again)
    requires var done := End(model, Run(model, Apply(model, Run(model, s, [absorbed]), m), after));
             !done.stopped && again.writeSuppress == done.writeSuppress
    ensures again.writeSuppress.None? && Apply(model, again, absorbed).faulted
  {
    hide Run, End, Faults, Dispatch, E.StoresAt, E.LoadsAt, Unpack, Active, Pack;
    OneShotsAtHandler(model, s, [absorbed], m, after);
    assert [absorbed][0] == absorbed;
  }
}
