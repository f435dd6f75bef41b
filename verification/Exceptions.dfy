/** Exception entry and RTE as functions on a processor state whose three stack
    pointers are seen unbanked: the frames each model pushes, and what RTE
    takes back. */
module Exceptions {
  import opened Words
  import opened BusMemory

  // ---------------------------------------------------------------- models

  datatype Model = M68000 | M68010 | SCC68070 | EC020 | M68020 | EC030 | M68030 | EC040 | LC040 | M68040 | M68060 {
    predicate Pre68020() {
      M68000? || M68010? || SCC68070?
    }

    predicate Is040() {
      EC040? || LC040? || M68040?
    }

    predicate Is020Or030() {
      EC020? || M68020? || EC030? || M68030?
    }

    function Bus(): Bus {
      if M68000? || M68010? then Bus24 else Bus32
    }

    /** The SR bits beyond T1, S, the mask and the CCR that `sr_mask` keeps. */
    predicate HasT0() {
      Is020Or030() || Is040()
    }

    predicate HasM() {
      !Pre68020()
    }

    /** The 68060 stores M but has a single supervisor stack. */
    predicate HasMasterStack() {
      Is020Or030() || Is040()
    }
  }

  // ---------------------------------------------------------- status register

  datatype Sr = Sr(t1: bool, t0: bool, s: bool, m: bool, ipl: nat, ccr: nat)

  function Bit(b: bool, weight: nat): nat {
    if b then weight else 0
  }

  predicate InRange(sr: Sr) {
    sr.ipl < 8 && sr.ccr < 0x20
  }

  /** `get_sr`. */
  function Pack(sr: Sr): u16
    requires InRange(sr)
  {
    Bit(sr.t1, 0x8000) + Bit(sr.t0, 0x4000) + Bit(sr.s, 0x2000) + Bit(sr.m, 0x1000)
    + 0x100 * sr.ipl + sr.ccr
  }

  predicate HasBit(w: u16, weight: nat)
    requires weight > 0
  {
    w / weight % 2 == 1
  }

  /** The flags `set_sr` derives from a word: masked by the model, and M only
      together with S. */
  function Unpack(model: Model, w: u16): (sr: Sr)
    ensures Stored(model, sr)
  {
    var s := HasBit(w, 0x2000);
    Sr(HasBit(w, 0x8000), model.HasT0() && HasBit(w, 0x4000), s,
       model.HasM() && s && HasBit(w, 0x1000), w / 0x100 % 8, w % 0x20)
  }

  /** A status register the model can hold. */
  predicate Stored(model: Model, sr: Sr) {
    && InRange(sr)
    && (sr.t0 ==> model.HasT0())
    && (sr.m ==> sr.s && model.HasM())
  }

  lemma TopBit(b: nat, low: nat)
    requires b < 2 && low < 0x8000
    ensures HasBit(0x8000 * b + low, 0x8000) == (b == 1)
  {
  }

  lemma SecondBit(high: nat, b: nat, low: nat)
    requires b < 2 && high < 2 && low < 0x4000
    ensures HasBit(0x8000 * high + 0x4000 * b + low, 0x4000) == (b == 1)
  {
  }

  lemma ThirdBit(high: nat, b: nat, low: nat)
    requires b < 2 && high < 4 && low < 0x2000
    ensures HasBit(0x4000 * high + 0x2000 * b + low, 0x2000) == (b == 1)
  {
  }

  lemma FourthBit(high: nat, b: nat, low: nat)
    requires b < 2 && high < 8 && low < 0x1000
    ensures HasBit(0x2000 * high + 0x1000 * b + low, 0x1000) == (b == 1)
  {
  }

  lemma MaskField(high: nat, ipl: nat, ccr: nat)
    requires ipl < 8 && ccr < 0x100
    ensures (0x100 * (8 * high + ipl) + ccr) / 0x100 % 8 == ipl
  {
    assert (0x100 * (8 * high + ipl) + ccr) / 0x100 == 8 * high + ipl;
  }

  lemma ConditionField(high: nat, ccr: nat)
    requires ccr < 0x20
    ensures (0x20 * high + ccr) % 0x20 == ccr
  {
  }

  lemma PackT1(sr: Sr)
    requires InRange(sr)
    ensures HasBit(Pack(sr), 0x8000) == sr.t1
  {
    TopBit(Bit(sr.t1, 1), Bit(sr.t0, 0x4000) + Bit(sr.s, 0x2000) + Bit(sr.m, 0x1000) + 0x100 * sr.ipl + sr.ccr);
  }

  lemma PackT0(sr: Sr)
    requires InRange(sr)
    ensures HasBit(Pack(sr), 0x4000) == sr.t0
  {
    SecondBit(Bit(sr.t1, 1), Bit(sr.t0, 1), Bit(sr.s, 0x2000) + Bit(sr.m, 0x1000) + 0x100 * sr.ipl + sr.ccr);
  }

  lemma PackS(sr: Sr)
    requires InRange(sr)
    ensures HasBit(Pack(sr), 0x2000) == sr.s
  {
    ThirdBit(Bit(sr.t1, 2) + Bit(sr.t0, 1), Bit(sr.s, 1), Bit(sr.m, 0x1000) + 0x100 * sr.ipl + sr.ccr);
  }

  lemma PackM(sr: Sr)
    requires InRange(sr)
    ensures HasBit(Pack(sr), 0x1000) == sr.m
  {
    FourthBit(Bit(sr.t1, 4) + Bit(sr.t0, 2) + Bit(sr.s, 1), Bit(sr.m, 1), 0x100 * sr.ipl + sr.ccr);
  }

  lemma PackLow(sr: Sr)
    requires InRange(sr)
    ensures Pack(sr) / 0x100 % 8 == sr.ipl && Pack(sr) % 0x20 == sr.ccr
  {
    var high := Bit(sr.t1, 16) + Bit(sr.t0, 8) + Bit(sr.s, 4) + Bit(sr.m, 2);
    MaskField(high, sr.ipl, sr.ccr);
    ConditionField(64 * high + 8 * sr.ipl, sr.ccr);
  }

  /** What is stacked comes back: a model's SR survives its packed form. */
  lemma SrRoundTrip(model: Model, sr: Sr)
    requires Stored(model, sr)
    ensures Unpack(model, Pack(sr)) == sr
  {
    PackT1(sr);
    PackT0(sr);
    PackS(sr);
    PackM(sr);
    PackLow(sr);
  }

  // ------------------------------------------------------------------ state

  datatype Bank = USP | ISP | MSP

  datatype Stacks = Stacks(usp: u32, isp: u32, msp: u32) {
    function Get(b: Bank): u32 {
      match b case USP => usp case ISP => isp case MSP => msp
    }

    function Put(b: Bank, v: u32): Stacks {
      match b
      case USP => this.(usp := v)
      case ISP => this.(isp := v)
      case MSP => this.(msp := v)
    }
  }

  /** The stack A7 is, in a given mode. */
  function Active(model: Model, sr: Sr): Bank {
    if !sr.s then USP else if sr.m && model.HasMasterStack() then MSP else ISP
  }

  /** Architectural state of exception processing. `readOverride` and
      `writeSuppress` are the one-shot effects a fault handler can arm. */
  datatype Core = Core(sr: Sr, stacks: Stacks, pc: u32, ppc: u32, vbr: u32, mem: seq<u8>,
                       readOverride: Option<(u32, u32)>, writeSuppress: Option<u32>)

  function A7(model: Model, c: Core): u32 {
    c.stacks.Get(Active(model, c.sr))
  }

  predicate Wf(model: Model, c: Core) {
    model.Bus().Holds(c.mem) && Stored(model, c.sr)
  }

  /** Word accesses through an odd stack pointer are address errors before the
      68020; the laws are about stacks those models can push on. */
  predicate StacksAligned(model: Model, st: Stacks) {
    model.Pre68020() ==> st.usp % 2 == 0 && st.isp % 2 == 0 && st.msp % 2 == 0
  }

  // ------------------------------------------------------------------ entry

  /** Push a block on the active stack. */
  function Push(model: Model, c: Core, block: seq<u8>): (r: Core)
    requires Wf(model, c)
    ensures Wf(model, r)
  {
    var sp := Sub32(A7(model, c), |block|);
    c.(stacks := c.stacks.Put(Active(model, c.sr), sp),
       mem := Write(model.Bus(), c.mem, sp, block))
  }

  function Jump(model: Model, c: Core, vector: nat): (r: Core)
    requires Wf(model, c) && vector < 0x100
    ensures Wf(model, r)
  {
    c.(pc := Read32(model.Bus(), c.mem, Add32(vector * 4, c.vbr)))
  }

  /** The frame words every format starts with: SR, PC, format and vector. */
  function FrameHead(sr: Sr, pc: u32, format: nat, vector: nat): seq<u8>
    requires InRange(sr) && format < 16 && vector < 0x400
  {
    Bytes16(Pack(sr)) + Bytes32(pc) + Bytes16(0x1000 * format + 4 * vector)
  }

  /** What kind of exception, with what the processor captured about it. */
  datatype Cause =
    | Simple(vector: nat)                  // TRAP #n, illegal, privilege, A-line, ...
    | Group2(vector: nat)                  // CHK, TRAPV, zero divide, trace
    | Interrupt(level: nat, vector: nat)
    | AccessError(fault: Fault)            // bus error on the 68010 and later

  /** A faulted bus cycle: direction, space, width, address, the data of a
      write, the function code, and whether translation (not the bus) failed. */
  datatype Fault = Fault(write: bool, instruction: bool, size: nat, address: u32, wdata: u32,
                         fc: nat, translation: bool, fslw: u32)

  const BUS_ERROR := 2

  predicate Legal(model: Model, k: Cause) {
    match k
    case Simple(v) => v < 0x100
    case Group2(v) => v < 0x100
    case Interrupt(level, v) => level < 8 && v < 0x100
    case AccessError(f) => !model.M68000? && f.fc < 8
  }

  /** TRAPs, TRAPV, trace, zero divide and interrupts resume after the
      instruction; the rest stack the instruction itself. */
  predicate StacksNextPc(vector: nat) {
    vector == 7 || vector == 9 || vector == 5 || 32 <= vector < 48 || 24 <= vector <= 31
  }

  function StackedPc(c: Core, k: Cause): u32 {
    match k
    case Simple(v) => if StacksNextPc(v) then c.pc else c.ppc
    case Group2(_) => c.pc
    case Interrupt(_, _) => c.pc
    case AccessError(_) => c.ppc
  }

  /** Format $7 after the first four words: effective address to PD3. */
  function Tail7(f: Fault): seq<u8>
    requires f.fc < 8
  {
    Bytes32(f.address) + Bytes16(Ssw040(f)) + Bytes16(Wb3s(f)) + Zeros(4) + Bytes32(f.address)
    + Bytes32(if f.write then f.address else 0) + Bytes32(if f.write then f.wdata else 0) + Zeros(28)
  }

  function Size040(f: Fault): nat {
    if f.size == 1 then 0x20 else if f.size == 2 then 0x40 else 0
  }

  function Ssw040(f: Fault): u16
    requires f.fc < 8
  {
    Bit(!f.write, 0x100) + Bit(f.translation, 0x400) + Size040(f) + f.fc
  }

  function Wb3s(f: Fault): u16
    requires f.fc < 8
  {
    if f.write then 0x80 + Size040(f) + f.fc else 0
  }

  /** Format $B after the first four words: +$08 to +$5A. */
  function TailB(f: Fault): seq<u8>
    requires f.fc < 8
  {
    Zeros(2) + Bytes16(Ssw030(f)) + Zeros(4) + Bytes32(if f.instruction then 0 else f.address) + Zeros(4)
    + Bytes32(if f.write then f.wdata else 0) + Zeros(8) + Bytes32(if f.instruction then f.address else 0)
    + Zeros(52)
  }

  function Ssw030(f: Fault): u16
    requires f.fc < 8
  {
    f.fc + if f.instruction then 0x5000
           else 0x100 + Bit(!f.write, 0x40)
                + if f.size == 1 then 0x10 else if f.size == 2 then 0x20 else if f.size == 3 then 0x30 else 0
  }

  /** Bytes of the (first) frame, lowest address first. `under` is what memory
      holds where the 68010 leaves words of its long frame unwritten. */
  function Frame(model: Model, c: Core, k: Cause, under: seq<u8>): seq<u8>
    requires InRange(c.sr) && Legal(model, k) && |under| == 50
  {
    var pc := StackedPc(c, k);
    match k
    case AccessError(f) =>
      if model.Pre68020() then
        FrameHead(c.sr, pc, 8, BUS_ERROR) + Zeros(6) + under[6..8] + Zeros(2) + under[10..12]
        + Zeros(2) + under[14..16] + Zeros(2) + under[18..50]
      else if model.M68060? then
        FrameHead(c.sr, pc, 4, BUS_ERROR) + Bytes32(f.address) + Bytes32(f.fslw)
      else if model.Is040() then
        FrameHead(c.sr, pc, 7, BUS_ERROR) + Tail7(f)
      else
        FrameHead(c.sr, pc, 0xB, BUS_ERROR) + TailB(f)
    case Group2(v) =>
      if model.M68000? then Bytes16(Pack(c.sr)) + Bytes32(pc)
      else if model.Pre68020() then FrameHead(c.sr, pc, 0, v)
      else FrameHead(c.sr, pc, 2, v) + Bytes32(c.ppc)
    case Simple(v) =>
      if model.M68000? then Bytes16(Pack(c.sr)) + Bytes32(pc) else FrameHead(c.sr, pc, 0, v)
    case Interrupt(_, v) =>
      if model.M68000? then Bytes16(Pack(c.sr)) + Bytes32(pc) else FrameHead(c.sr, pc, 0, v)
  }

  function VectorOf(k: Cause): nat {
    match k
    case Simple(v) => v
    case Group2(v) => v
    case Interrupt(_, v) => v
    case AccessError(_) => BUS_ERROR
  }

  function SupervisorSr(sr: Sr, k: Cause): Sr {
    sr.(s := true, t1 := false, t0 := false, ipl := if k.Interrupt? then k.level else sr.ipl)
  }

  /** Supervisor mode, trace off: the state frames are pushed in. */
  function Supervised(model: Model, c: Core, k: Cause): (r: Core)
    requires Wf(model, c) && Legal(model, k)
    ensures Wf(model, r)
  {
    c.(sr := SupervisorSr(c.sr, k))
  }

  predicate NeedsThrowaway(model: Model, c: Core, k: Cause) {
    k.Interrupt? && c.sr.m && model.HasMasterStack()
  }

  /** The access-error frame: formats $8, $4, $7 and $B. */
  function FaultFrameSize(model: Model): nat {
    if model.Pre68020() then 58 else if model.M68060? then 16 else if model.Is040() then 60 else 92
  }

  function FrameSize(model: Model, k: Cause): nat {
    if k.AccessError? then FaultFrameSize(model)
    else if model.M68000? then 6
    else if k.Group2? && !model.Pre68020() then 12
    else 8
  }

  function UnderFrame(model: Model, c: Core, k: Cause): seq<u8>
    requires Wf(model, c) && Legal(model, k)
  {
    Block(model.Bus(), c.mem, A7(model, Supervised(model, c, k)) - 50, 50)
  }

  function PushFirst(model: Model, c: Core, k: Cause): (r: Core)
    requires Wf(model, c) && Legal(model, k)
    ensures Wf(model, r)
  {
    Push(model, Supervised(model, c, k), Frame(model, c, k, UnderFrame(model, c, k)))
  }

  /** Leave the master state: the 68020-68040 continue on the interrupt stack
      behind a format $1 frame, the 68060 just drops M. */
  function LeaveMaster(model: Model, c: Core, k: Cause, entered: Core): (r: Core)
    requires Wf(model, c) && Legal(model, k) && Wf(model, entered)
    ensures Wf(model, r)
  {
    if NeedsThrowaway(model, c, k) then
      Push(model, entered.(sr := entered.sr.(m := false)), FrameHead(c.sr.(s := true), c.pc, 1, VectorOf(k)))
    else if k.Interrupt? then entered.(sr := entered.sr.(m := if model.M68060? then false else entered.sr.m))
    else entered
  }

  /** Exception entry. */
  function Enter(model: Model, c: Core, k: Cause): (r: Core)
    requires Wf(model, c) && Legal(model, k)
    ensures Wf(model, r)
  {
    Jump(model, LeaveMaster(model, c, k, PushFirst(model, c, k)), VectorOf(k))
  }

  // -------------------------------------------------------------------- RTE

  /** The slots of a frame that RTE looks at, whatever its format. */
  datatype Top = Top(sr: Sr, pc: u32, format: nat, word0A: u16, word0C: u16, word0E: u16,
                     long10: u32, long18: u32, long2C: u32)

  function ReadTop(model: Model, c: Core): Top
    requires Wf(model, c)
  {
    var bus, mem, sp := model.Bus(), c.mem, A7(model, c);
    Top(Unpack(model, Read16(bus, mem, sp)), Read32(bus, mem, sp + 2), Read16(bus, mem, sp + 6) / 0x1000,
        Read16(bus, mem, sp + 0x0A), Read16(bus, mem, sp + 0x0C), Read16(bus, mem, sp + 0x0E),
        Read32(bus, mem, sp + 0x10), Read32(bus, mem, sp + 0x18), Read32(bus, mem, sp + 0x2C))
  }

  datatype Unwound = Returned(c: Core) | Again(c: Core) | BadFormat

  /** SR and PC from the top of the active stack, `size` bytes released. */
  function Release(model: Model, c: Core, top: Top, size: nat): Core {
    c.(sr := top.sr, pc := top.pc,
       stacks := c.stacks.Put(Active(model, c.sr), Add32(A7(model, c), size)))
  }

  /** The writeback protocol of format $7. */
  function Arm7(c: Core, top: Top): Core {
    if !HasBit(top.word0C, 0x100) && HasBit(top.word0C, 0x400) && !HasBit(top.word0E, 0x80) then
      c.(writeSuppress := Some(top.long18))
    else c
  }

  /** The data-cycle protocol of format $B. */
  function ArmB(c: Core, top: Top): Core {
    if !HasBit(top.word0A, 0x100) && top.word0A / 0x1000 == 0 then
      if HasBit(top.word0A, 0x40) then c.(readOverride := Some((top.long10, top.long2C)))
      else c.(writeSuppress := Some(top.long10))
    else c
  }

  /** RTE up to one frame. */
  function UnwindWith(model: Model, c: Core, top: Top): Unwound {
    if model.M68000? then Returned(Release(model, c, top, 6))
    else if top.format == 0 then Returned(Release(model, c, top, 8))
    else if model.Pre68020() then
      if top.format == 8 then Returned(Release(model, c, top, 58)) else BadFormat
    else if top.format == 1 then Again(Release(model, c, top, 8).(pc := c.pc))
    else if top.format == 2 then Returned(Release(model, c, top, 12))
    else if top.format == 4 && model.M68060? then Returned(Release(model, c, top, 16))
    else if top.format == 7 && model.Is040() then Returned(Release(model, Arm7(c, top), top, 60))
    else if top.format == 0xA && model.Is020Or030() then Returned(Release(model, c, top, 32))
    else if top.format == 0xB && model.Is020Or030() then Returned(Release(model, ArmB(c, top), top, 92))
    else BadFormat
  }

  function UnwindOne(model: Model, c: Core): (r: Unwound)
    requires Wf(model, c)
    ensures !r.BadFormat? ==> Wf(model, r.c)
  {
    UnwindWith(model, c, ReadTop(model, c))
  }

  /** RTE over at most `limit` throwaway frames. A bad format takes the format
      error exception; from user mode RTE is a privilege violation. */
  function Rte(model: Model, c: Core, limit: nat): (r: Option<Core>)
    requires Wf(model, c)
    ensures r.Some? ==> Wf(model, r.value)
    decreases limit
  {
    if !c.sr.s then Some(Enter(model, c, Simple(8)))
    else Unwind(model, c, limit)
  }

  function Unwind(model: Model, c: Core, limit: nat): (r: Option<Core>)
    requires Wf(model, c)
    ensures r.Some? ==> Wf(model, r.value)
    decreases limit
  {
    match UnwindOne(model, c)
    case Returned(r) => Some(r)
    case Again(r) => if limit == 0 then None else Unwind(model, r, limit - 1)
    case BadFormat => Some(Enter(model, c, Simple(14)))
  }
}
