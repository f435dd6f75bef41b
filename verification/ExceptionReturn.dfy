/** Entry and RTE are inverse: one exception, its frames intact, comes back to
    the interrupted context, unless the handler of an access error has armed one
    of the one-shots its frame can ask for. */
module ExceptionReturn {
  import opened Words
  import opened BusMemory
  import opened Exceptions

  /** The slots every format shares, read from the block they were pushed as. */
  lemma HeadReadsBack(model: Model, mem: seq<u8>, sp: u32, n: nat, sr: Sr, pc: u32, format: nat, vector: nat, tail: seq<u8>)
    requires model.Bus().Holds(mem) && InRange(sr) && format < 16 && vector < 0x400
    requires n == 8 + |tail|
    requires Block(model.Bus(), mem, sp, n) == FrameHead(sr, pc, format, vector) + tail
    ensures Read16(model.Bus(), mem, sp) == Pack(sr)
    ensures Read32(model.Bus(), mem, sp + 2) == pc
    ensures Read16(model.Bus(), mem, sp + 6) == 0x1000 * format + 4 * vector
  {
    var bus, b := model.Bus(), Block(model.Bus(), mem, sp, n);
    var fmt := 0x1000 * format + 4 * vector;
    assert b == Bytes16(Pack(sr)) + Bytes32(pc) + Bytes16(fmt) + tail;
    assert b[0..2] == Bytes16(Pack(sr));
    assert b[2..6] == Bytes32(pc);
    assert b[6..8] == Bytes16(fmt);
    Word16ReadsBack(bus, mem, sp, n, 0, Pack(sr));
    Word32ReadsBack(bus, mem, sp, n, 2, pc);
    Word16ReadsBack(bus, mem, sp, n, 6, fmt);
  }

  lemma ShortHeadReadsBack(mem: seq<u8>, sp: u32, sr: Sr, pc: u32)
    requires Bus24.Holds(mem) && InRange(sr)
    requires Block(Bus24, mem, sp, 6) == Bytes16(Pack(sr)) + Bytes32(pc)
    ensures Read16(Bus24, mem, sp) == Pack(sr)
    ensures Read32(Bus24, mem, sp + 2) == pc
  {
    var b := Block(Bus24, mem, sp, 6);
    assert b[0..2] == Bytes16(Pack(sr));
    assert b[2..6] == Bytes32(pc);
    Word16ReadsBack(Bus24, mem, sp, 6, 0, Pack(sr));
    Word32ReadsBack(Bus24, mem, sp, 6, 2, pc);
  }

  // ------------------------------------------------------------- one frame

  function FirstFrame(model: Model, c: Core, k: Cause): seq<u8>
    requires Wf(model, c) && Legal(model, k)
  {
    Frame(model, c, k, UnderFrame(model, c, k))
  }

  function ThrowawayFrame(c: Core, k: Cause): seq<u8>
    requires InRange(c.sr) && VectorOf(k) < 0x400
  {
    FrameHead(c.sr.(s := true), c.pc, 1, VectorOf(k))
  }

  lemma FrameSizes(model: Model, c: Core, k: Cause)
    requires Wf(model, c) && Legal(model, k)
    ensures |FirstFrame(model, c, k)| == FrameSize(model, k)
    ensures |ThrowawayFrame(c, k)| == 8
  {
  }

  /** Where the first frame lies after entry. */
  function FrameBase(model: Model, c: Core, k: Cause): u32
    requires Wf(model, c) && Legal(model, k)
  {
    Sub32(A7(model, Supervised(model, c, k)), FrameSize(model, k))
  }

  function ThrowawayBase(c: Core): u32 {
    Sub32(c.stacks.isp, 8)
  }

  /** Memory still holds the frames that entry from `c` pushed. */
  predicate FramesIntact(model: Model, c: Core, k: Cause, mem: seq<u8>)
    requires Wf(model, c) && Legal(model, k) && model.Bus().Holds(mem)
  {
    && Block(model.Bus(), mem, FrameBase(model, c, k), FrameSize(model, k)) == FirstFrame(model, c, k)
    && (NeedsThrowaway(model, c, k) ==>
          Block(model.Bus(), mem, ThrowawayBase(c), 8) == ThrowawayFrame(c, k))
  }

  /** The handler is about to execute RTE: mode and stack pointers are those of
      the first handler instruction. */
  predicate AtReturn(model: Model, c: Core, k: Cause, h: Core)
    requires Wf(model, c) && Legal(model, k)
  {
    var e := Enter(model, c, k);
    h.sr.s && h.sr.m == e.sr.m && h.stacks == e.stacks
  }

  lemma StackPointerReturns(sp: u32, size: nat)
    requires size < 0x100
    ensures Add32(Sub32(sp, size), size) == sp
  {
  }

  /** Where entry leaves the stacks. */
  lemma EntryStacks(model: Model, c: Core, k: Cause)
    requires Wf(model, c) && Legal(model, k)
    ensures var e, bank := Enter(model, c, k), Active(model, Supervised(model, c, k).sr);
            var pushed := c.stacks.Put(bank, FrameBase(model, c, k));
            && e.sr.s
            && e.stacks == (if NeedsThrowaway(model, c, k) then pushed.Put(ISP, ThrowawayBase(c)) else pushed)
            && (NeedsThrowaway(model, c, k) ==> bank == MSP && !e.sr.m)
            && (!NeedsThrowaway(model, c, k) ==> Active(model, e.sr) == bank)
  {
    FrameSizes(model, c, k);
  }

  /** What entry leaves in memory: its frames over what was there. */
  lemma EntryMemory(model: Model, c: Core, k: Cause)
    requires Wf(model, c) && Legal(model, k)
    ensures var first := Write(model.Bus(), c.mem, FrameBase(model, c, k), FirstFrame(model, c, k));
            Enter(model, c, k).mem
            == if NeedsThrowaway(model, c, k) then
                 Write(model.Bus(), first, ThrowawayBase(c), ThrowawayFrame(c, k))
               else first
  {
    hide Frame, FrameHead, Read32;
    FrameSizes(model, c, k);
  }

  lemma AccessFrameShape(model: Model, c: Core, k: Cause) returns (tail: seq<u8>)
    requires Wf(model, c) && Legal(model, k) && k.AccessError?
    ensures var format := if model.Pre68020() then 8 else if model.M68060? then 4 else if model.Is040() then 7 else 0xB;
            FirstFrame(model, c, k) == FrameHead(c.sr, c.ppc, format, BUS_ERROR) + tail
  {
    var f, under := k.fault, UnderFrame(model, c, k);
    if model.Pre68020() {
      tail := Zeros(6) + under[6..8] + Zeros(2) + under[10..12] + Zeros(2) + under[14..16] + Zeros(2) + under[18..50];
    } else if model.M68060? {
      tail := Bytes32(f.address) + Bytes32(f.fslw);
    } else if model.Is040() {
      tail := Tail7(f);
    } else {
      tail := TailB(f);
    }
    var format := if model.Pre68020() then 8 else if model.M68060? then 4 else if model.Is040() then 7 else 0xB;
    assert FirstFrame(model, c, k) == FrameHead(c.sr, c.ppc, format, BUS_ERROR) + tail;
  }

  function FormatOf(model: Model, k: Cause): nat {
    if k.AccessError? then
      if model.Pre68020() then 8 else if model.M68060? then 4 else if model.Is040() then 7 else 0xB
    else if k.Group2? && !model.Pre68020() then 2 else 0
  }

  /** What RTE reads from the top of an intact first frame. */
  lemma FirstFrameReadsBack(model: Model, c: Core, k: Cause, mem: seq<u8>)
    requires Wf(model, c) && Legal(model, k) && model.Bus().Holds(mem)
    requires Block(model.Bus(), mem, FrameBase(model, c, k), FrameSize(model, k)) == FirstFrame(model, c, k)
    ensures var sp := FrameBase(model, c, k);
            && Read16(model.Bus(), mem, sp) == Pack(c.sr)
            && Read32(model.Bus(), mem, sp + 2) == StackedPc(c, k)
            && (!model.M68000? ==> Read16(model.Bus(), mem, sp + 6) / 0x1000 == FormatOf(model, k))
  {
    hide Pack, FrameBase, Read16, Read32;
    var sp, n, pc := FrameBase(model, c, k), FrameSize(model, k), StackedPc(c, k);
    FrameSizes(model, c, k);
    if model.M68000? {
      ShortHeadReadsBack(mem, sp, c.sr, pc);
    } else if k.AccessError? {
      var tail := AccessFrameShape(model, c, k);
      HeadReadsBack(model, mem, sp, n, c.sr, pc, FormatOf(model, k), BUS_ERROR, tail);
    } else if k.Group2? && !model.Pre68020() {
      HeadReadsBack(model, mem, sp, n, c.sr, pc, 2, k.vector, Bytes32(c.ppc));
    } else {
      var head := FrameHead(c.sr, pc, 0, VectorOf(k));
      assert head + [] == head;
      HeadReadsBack(model, mem, sp, n, c.sr, pc, 0, VectorOf(k), []);
    }
  }

  // --------------------------------------------------- fault frame protocols

  /** The top of a format $7 frame as entry built it. */
  predicate Reports7(f: Fault, top: Top)
    requires f.fc < 8
  {
    && top.word0C == Ssw040(f) && top.word0E == Wb3s(f)
    && (f.write ==> top.long18 == f.address)
  }

  /** The top of a format $B frame as entry built it. */
  predicate ReportsB(f: Fault, top: Top)
    requires f.fc < 8
  {
    top.word0A == Ssw030(f) && (!f.instruction ==> top.long10 == f.address)
  }

  lemma Tail7Slots(model: Model, mem: seq<u8>, sp: u32, f: Fault, word0E: u16)
    requires model.Bus().Holds(mem) && f.fc < 8
    requires var b := Block(model.Bus(), mem, sp, 60);
             && b[0x0C..0x0E] == Bytes16(Ssw040(f))
             && b[0x0E..0x10] == Bytes16(word0E)
             && b[0x18..0x1C] == Bytes32(if f.write then f.address else 0)
    ensures Read16(model.Bus(), mem, sp + 0x0C) == Ssw040(f)
    ensures Read16(model.Bus(), mem, sp + 0x0E) == word0E
    ensures f.write ==> Read32(model.Bus(), mem, sp + 0x18) == f.address
  {
    Word16ReadsBack(model.Bus(), mem, sp, 60, 0x0C, Ssw040(f));
    Word16ReadsBack(model.Bus(), mem, sp, 60, 0x0E, word0E);
    Word32ReadsBack(model.Bus(), mem, sp, 60, 0x18, if f.write then f.address else 0);
  }

  lemma TailBSlots(model: Model, mem: seq<u8>, sp: u32, f: Fault, word0A: u16)
    requires model.Bus().Holds(mem) && f.fc < 8
    requires var b := Block(model.Bus(), mem, sp, 92);
             && b[0x0A..0x0C] == Bytes16(word0A)
             && b[0x10..0x14] == Bytes32(if f.instruction then 0 else f.address)
    ensures Read16(model.Bus(), mem, sp + 0x0A) == word0A
    ensures !f.instruction ==> Read32(model.Bus(), mem, sp + 0x10) == f.address
  {
    Word16ReadsBack(model.Bus(), mem, sp, 92, 0x0A, word0A);
    Word32ReadsBack(model.Bus(), mem, sp, 92, 0x10, if f.instruction then 0 else f.address);
  }

  lemma Frame7Slots(f: Fault, head: seq<u8>)
    requires f.fc < 8 && |head| == 8
    ensures var b := head + Tail7(f);
            && |b| == 60
            && b[0x0C..0x0E] == Bytes16(Ssw040(f))
            && b[0x0E..0x10] == Bytes16(Wb3s(f))
            && b[0x18..0x1C] == Bytes32(if f.write then f.address else 0)
  {
    var b := head + Tail7(f);
    assert b[0x0C..0x0E] == Bytes16(Ssw040(f));
    assert b[0x0E..0x10] == Bytes16(Wb3s(f));
    assert b[0x18..0x1C] == Bytes32(if f.write then f.address else 0);
  }

  lemma FrameBSlots(f: Fault, head: seq<u8>)
    requires f.fc < 8 && |head| == 8
    ensures var b := head + TailB(f);
            && |b| == 92
            && b[0x0A..0x0C] == Bytes16(Ssw030(f))
            && b[0x10..0x14] == Bytes32(if f.instruction then 0 else f.address)
  {
    var b := head + TailB(f);
    assert b[0x0A..0x0C] == Bytes16(Ssw030(f));
    assert b[0x10..0x14] == Bytes32(if f.instruction then 0 else f.address);
  }

  lemma WritebackBits(f: Fault)
    requires f.fc < 8
    ensures HasBit(Ssw040(f), 0x100) == !f.write
    ensures HasBit(Ssw040(f), 0x400) == f.translation
    ensures HasBit(Wb3s(f), 0x80) == f.write
  {
  }

  lemma DataCycleBits(f: Fault)
    requires f.fc < 8
    ensures HasBit(Ssw030(f), 0x100) == !f.instruction
    ensures Ssw030(f) / 0x1000 == if f.instruction then 5 else 0
    ensures !f.instruction ==> HasBit(Ssw030(f), 0x40) == !f.write
  {
  }

  lemma Reported7ArmsNothing(c: Core, f: Fault, top: Top)
    requires f.fc < 8 && Reports7(f, top)
    ensures Arm7(c, top) == c
  {
    WritebackBits(f);
  }

  lemma ReportedBArmsNothing(c: Core, f: Fault, top: Top)
    requires f.fc < 8 && ReportsB(f, top)
    ensures ArmB(c, top) == c
  {
    DataCycleBits(f);
  }

  // ------------------------------------------------------ the inverse law

  /** The top of the stack shows the context that entry from `c` stacked. */
  predicate Shows(model: Model, c: Core, k: Cause, top: Top)
    requires Legal(model, k)
  {
    && top.sr == c.sr && top.pc == StackedPc(c, k)
    && (!model.M68000? ==> top.format == FormatOf(model, k))
    && (k.AccessError? ==>
          && (model.Is040() ==> Reports7(k.fault, top))
          && (model.Is020Or030() ==> ReportsB(k.fault, top)))
  }

  lemma FaultFrame7(model: Model, c: Core, f: Fault)
    requires Wf(model, c) && model.Is040() && f.fc < 8
    ensures var b := FirstFrame(model, c, AccessError(f));
            && |b| == 60
            && b[..8] == FrameHead(c.sr, c.ppc, 7, BUS_ERROR)
            && b[0x0C..0x0E] == Bytes16(Ssw040(f))
            && b[0x0E..0x10] == Bytes16(Wb3s(f))
            && b[0x18..0x1C] == Bytes32(if f.write then f.address else 0)
  {
    hide Pack, Ssw040, Wb3s;
    var head := FrameHead(c.sr, c.ppc, 7, BUS_ERROR);
    assert FirstFrame(model, c, AccessError(f)) == head + Tail7(f);
    Frame7Slots(f, head);
  }

  lemma FaultFrameB(model: Model, c: Core, f: Fault)
    requires Wf(model, c) && model.Is020Or030() && f.fc < 8
    ensures var b := FirstFrame(model, c, AccessError(f));
            && |b| == 92
            && b[..8] == FrameHead(c.sr, c.ppc, 0xB, BUS_ERROR)
            && b[0x0A..0x0C] == Bytes16(Ssw030(f))
            && b[0x10..0x14] == Bytes32(if f.instruction then 0 else f.address)
  {
    hide Pack, Ssw030;
    var head := FrameHead(c.sr, c.ppc, 0xB, BUS_ERROR);
    assert FirstFrame(model, c, AccessError(f)) == head + TailB(f);
    FrameBSlots(f, head);
  }

  lemma IntactFaultFrame(model: Model, c: Core, k: Cause, h: Core)
    requires Wf(model, c) && Legal(model, k) && Wf(model, h) && k.AccessError?
    requires A7(model, h) == FrameBase(model, c, k)
    requires Block(model.Bus(), h.mem, FrameBase(model, c, k), FrameSize(model, k)) == FirstFrame(model, c, k)
    ensures model.Is040() ==> Reports7(k.fault, ReadTop(model, h))
    ensures model.Is020Or030() ==> ReportsB(k.fault, ReadTop(model, h))
  {
    hide Read16, Read32, Unpack, FirstFrame, FrameBase, Ssw030, Ssw040, Wb3s;
    var f, sp := k.fault, FrameBase(model, c, k);
    if model.Is040() {
      FaultFrame7(model, c, f);
      Tail7Slots(model, h.mem, sp, f, Wb3s(f));
    } else if model.Is020Or030() {
      FaultFrameB(model, c, f);
      TailBSlots(model, h.mem, sp, f, Ssw030(f));
    }
  }

  lemma ShownFrameUnwinds(model: Model, c: Core, k: Cause, h: Core, top: Top)
    requires Legal(model, k) && Shows(model, c, k, top)
    ensures UnwindWith(model, h, top)
            == Returned(h.(sr := c.sr, pc := StackedPc(c, k),
                           stacks := h.stacks.Put(Active(model, h.sr), Add32(A7(model, h), FrameSize(model, k)))))
  {
    if k.AccessError? && model.Is040() {
      Reported7ArmsNothing(h, k.fault, top);
    } else if k.AccessError? && model.Is020Or030() {
      ReportedBArmsNothing(h, k.fault, top);
    }
  }

  lemma UnwindsFirstFrame(model: Model, c: Core, k: Cause, h: Core)
    requires Wf(model, c) && Legal(model, k) && Wf(model, h)
    requires A7(model, h) == FrameBase(model, c, k)
    requires Block(model.Bus(), h.mem, FrameBase(model, c, k), FrameSize(model, k)) == FirstFrame(model, c, k)
    ensures UnwindOne(model, h)
            == Returned(h.(sr := c.sr, pc := StackedPc(c, k),
                           stacks := h.stacks.Put(Active(model, h.sr), Add32(A7(model, h), FrameSize(model, k)))))
  {
    hide Read16, Read32, Unpack, Pack, FirstFrame, FrameBase, UnwindWith;
    FirstFrameReadsBack(model, c, k, h.mem);
    SrRoundTrip(model, c.sr);
    if k.AccessError? {
      IntactFaultFrame(model, c, k, h);
    }
    assert Shows(model, c, k, ReadTop(model, h));
    ShownFrameUnwinds(model, c, k, h, ReadTop(model, h));
  }

  lemma IntactThrowawayShows(model: Model, c: Core, k: Cause, h: Core)
    requires Wf(model, c) && Legal(model, k) && Wf(model, h)
    requires NeedsThrowaway(model, c, k) && A7(model, h) == ThrowawayBase(c)
    requires Block(model.Bus(), h.mem, ThrowawayBase(c), 8) == ThrowawayFrame(c, k)
    ensures ReadTop(model, h).sr == c.sr && ReadTop(model, h).format == 1
  {
    hide Read16, Read32, Unpack, Pack;
    var frame := ThrowawayFrame(c, k);
    assert c.sr.(s := true) == c.sr;
    assert frame + [] == frame;
    HeadReadsBack(model, h.mem, ThrowawayBase(c), 8, c.sr, c.pc, 1, VectorOf(k), []);
    SrRoundTrip(model, c.sr);
  }

  lemma UnwindsThrowaway(model: Model, c: Core, k: Cause, h: Core)
    requires Wf(model, c) && Legal(model, k) && Wf(model, h)
    requires NeedsThrowaway(model, c, k) && A7(model, h) == ThrowawayBase(c)
    requires Block(model.Bus(), h.mem, ThrowawayBase(c), 8) == ThrowawayFrame(c, k)
    ensures UnwindOne(model, h)
            == Again(h.(sr := c.sr, stacks := h.stacks.Put(Active(model, h.sr), Add32(ThrowawayBase(c), 8))))
  {
    IntactThrowawayShows(model, c, k, h);
  }

  /** Any exception on any model, whatever the handler did in between: with the
      frames intact and the handler back where it started, RTE restores SR, PC
      and all three stack pointers, touches no memory and arms no one-shot. */
  lemma EntryThenRte(model: Model, c: Core, k: Cause, h: Core)
    requires Wf(model, c) && Legal(model, k) && Wf(model, h)
    requires AtReturn(model, c, k, h) && FramesIntact(model, c, k, h.mem)
    ensures Rte(model, h, 1) == Some(h.(sr := c.sr, pc := StackedPc(c, k), stacks := c.stacks))
  {
    hide UnwindOne, FirstFrame, ThrowawayFrame;
    EntryStacks(model, c, k);
    var start := Supervised(model, c, k);
    var bank := Active(model, start.sr);
    StackPointerReturns(c.stacks.Get(bank), FrameSize(model, k));
    if NeedsThrowaway(model, c, k) {
      StackPointerReturns(c.stacks.isp, 8);
      UnwindsThrowaway(model, c, k, h);
      var back := UnwindOne(model, h).c;
      UnwindsFirstFrame(model, c, k, back);
    } else {
      UnwindsFirstFrame(model, c, k, h);
    }
  }

  // ------------------------------------------- what a fault handler can arm

  /** `w` with one bit cleared. */
  function Cleared(w: u16, weight: nat): u16
    requires weight > 0
  {
    if HasBit(w, weight) && w >= weight then w - weight else w
  }

  lemma ClearedFlags(f: Fault)
    requires f.fc < 8
    ensures var w := Cleared(Ssw030(f), 0x100);
            && !HasBit(w, 0x100)
            && w / 0x1000 == (if f.instruction then 5 else 0)
            && (!f.instruction ==> HasBit(w, 0x40) == !f.write)
    ensures !HasBit(Cleared(Wb3s(f), 0x80), 0x80)
  {
  }

  lemma ClearedDfArms(c: Core, f: Fault, top: Top)
    requires f.fc < 8 && top.word0A == Cleared(Ssw030(f), 0x100)
    requires !f.instruction ==> top.long10 == f.address
    ensures ArmB(c, top)
            == c.(readOverride := if !f.instruction && !f.write then Some((f.address, top.long2C)) else c.readOverride,
                  writeSuppress := if !f.instruction && f.write then Some(f.address) else c.writeSuppress)
  {
    hide Ssw030, Cleared;
    ClearedFlags(f);
  }

  lemma ClearedVArms(c: Core, f: Fault, top: Top)
    requires f.fc < 8 && top.word0C == Ssw040(f) && top.word0E == Cleared(Wb3s(f), 0x80)
    requires f.write ==> top.long18 == f.address
    ensures Arm7(c, top)
            == c.(writeSuppress := if f.write && f.translation then Some(f.address) else c.writeSuppress)
  {
    hide Ssw040, Wb3s, Cleared;
    WritebackBits(f);
    ClearedFlags(f);
  }

  /** With one frame pushed, the handler starts at its base, and releasing it
      puts the stack pointers back. */
  lemma ReleasedStacks(model: Model, c: Core, k: Cause, h: Core)
    requires Wf(model, c) && Legal(model, k) && AtReturn(model, c, k, h) && !NeedsThrowaway(model, c, k)
    ensures A7(model, h) == FrameBase(model, c, k)
    ensures h.stacks.Put(Active(model, h.sr), Add32(A7(model, h), FrameSize(model, k))) == c.stacks
  {
    hide FirstFrame;
    EntryStacks(model, c, k);
    StackPointerReturns(c.stacks.Get(Active(model, Supervised(model, c, k).sr)), FrameSize(model, k));
  }

  /** A long frame whose handler cleared DF and supplied a data input buffer. */
  predicate CompletedByHandler(model: Model, c: Core, f: Fault, mem: seq<u8>, input: u32)
    requires Wf(model, c) && model.Is020Or030() && model.Bus().Holds(mem) && f.fc < 8
  {
    var frame := FirstFrame(model, c, AccessError(f));
    && |frame| == 92
    && Block(model.Bus(), mem, FrameBase(model, c, AccessError(f)), 92)
       == frame[..0x0A] + Bytes16(Cleared(Ssw030(f), 0x100)) + frame[0x0C..0x2C] + Bytes32(input) + frame[0x30..]
  }

  lemma SliceOfSlice(s: seq<u8>, from: nat, to: nat, i: nat, j: nat)
    requires from <= to <= |s| && i <= j <= to - from
    ensures s[from..to][i..j] == s[from + i..from + j]
  {
    var inner, direct := s[from..to][i..j], s[from + i..from + j];
    forall k | 0 <= k < j - i
      ensures inner[k] == direct[k]
    {
      assert inner[k] == s[from..to][i + k] == s[from + (i + k)];
    }
  }

  /** What RTE reads of a long frame with SSW and input buffer replaced. */
  lemma CompletedTop(model: Model, h: Core, frame: seq<u8>, sr: Sr, pc: u32, f: Fault, ssw: u16, input: u32)
    requires Wf(model, h) && Stored(model, sr) && f.fc < 8 && |frame| == 92
    requires frame[..8] == FrameHead(sr, pc, 0xB, BUS_ERROR)
    requires frame[0x10..0x14] == Bytes32(if f.instruction then 0 else f.address)
    requires Block(model.Bus(), h.mem, A7(model, h), 92)
             == frame[..0x0A] + Bytes16(ssw) + frame[0x0C..0x2C] + Bytes32(input) + frame[0x30..]
    ensures var top := ReadTop(model, h);
            && top.sr == sr && top.pc == pc && top.format == 0xB && top.word0A == ssw && top.long2C == input
            && (!f.instruction ==> top.long10 == f.address)
  {
    hide Read16, Read32, Unpack, Pack, Block, Bytes32, FrameHead;
    var bus, mem, sp := model.Bus(), h.mem, A7(model, h);
    var edited := Block(bus, mem, sp, 92);
    SrRoundTrip(model, sr);
    assert edited[..8] == frame[..8] && edited == edited[..8] + edited[8..];
    HeadReadsBack(model, mem, sp, 92, sr, pc, 0xB, BUS_ERROR, edited[8..]);
    assert edited[0x0A..0x0C] == Bytes16(ssw);
    assert edited[0x0C..0x2C] == frame[0x0C..0x2C];
    SliceOfSlice(edited, 0x0C, 0x2C, 4, 8);
    SliceOfSlice(frame, 0x0C, 0x2C, 4, 8);
    assert edited[0x2C..0x30] == Bytes32(input);
    TailBSlots(model, mem, sp, f, ssw);
    Word32ReadsBack(bus, mem, sp, 92, 0x2C, input);
  }

  /** A 68020/68030 handler may clear DF and fill in the data input buffer
      (+$2C) of the long frame. It arms exactly the faulted data cycle: the
      supplied value for a read, a suppressed write for a write, and nothing
      for an instruction fetch; everything else returns as usual. */
  lemma ClearingDfCompletesTheDataCycle(model: Model, c: Core, f: Fault, h: Core, input: u32)
    requires Wf(model, c) && Wf(model, h) && model.Is020Or030() && f.fc < 8
    requires AtReturn(model, c, AccessError(f), h)
    requires CompletedByHandler(model, c, f, h.mem, input)
    ensures Rte(model, h, 1)
            == Some(h.(sr := c.sr, pc := c.ppc, stacks := c.stacks,
                       readOverride := if !f.instruction && !f.write then Some((f.address, input)) else h.readOverride,
                       writeSuppress := if !f.instruction && f.write then Some(f.address) else h.writeSuppress))
  {
    hide ReadTop, FirstFrame, FrameBase, Block, Ssw030, Cleared, ArmB, Active;
    var k := AccessError(f);
    ReleasedStacks(model, c, k, h);
    FaultFrameB(model, c, f);
    CompletedTop(model, h, FirstFrame(model, c, k), c.sr, c.ppc, f, Cleared(Ssw030(f), 0x100), input);
    ClearedDfArms(h, f, ReadTop(model, h));
    assert h.sr.s;
  }

  /** A 68040 frame whose handler cleared WB3S.V. */
  predicate AbsorbedByHandler(model: Model, c: Core, f: Fault, mem: seq<u8>)
    requires Wf(model, c) && model.Is040() && model.Bus().Holds(mem) && f.fc < 8
  {
    var frame := FirstFrame(model, c, AccessError(f));
    && |frame| == 60
    && Block(model.Bus(), mem, FrameBase(model, c, AccessError(f)), 60)
       == frame[..0x0E] + Bytes16(Cleared(Wb3s(f), 0x80)) + frame[0x10..]
  }

  /** What RTE reads of a 68040 frame with WB3S replaced. */
  lemma AbsorbedTop(model: Model, h: Core, frame: seq<u8>, sr: Sr, pc: u32, f: Fault, wb3s: u16)
    requires Wf(model, h) && Stored(model, sr) && f.fc < 8 && |frame| == 60
    requires frame[..8] == FrameHead(sr, pc, 7, BUS_ERROR)
    requires frame[0x0C..0x0E] == Bytes16(Ssw040(f))
    requires frame[0x18..0x1C] == Bytes32(if f.write then f.address else 0)
    requires Block(model.Bus(), h.mem, A7(model, h), 60) == frame[..0x0E] + Bytes16(wb3s) + frame[0x10..]
    ensures var top := ReadTop(model, h);
            && top.sr == sr && top.pc == pc && top.format == 7
            && top.word0C == Ssw040(f) && top.word0E == wb3s && (f.write ==> top.long18 == f.address)
  {
    hide Read16, Read32, Unpack, Pack, Block, Bytes32, FrameHead, Ssw040;
    var mem, sp := h.mem, A7(model, h);
    var edited := Block(model.Bus(), mem, sp, 60);
    SrRoundTrip(model, sr);
    assert edited[..8] == frame[..8] && edited == edited[..8] + edited[8..];
    HeadReadsBack(model, mem, sp, 60, sr, pc, 7, BUS_ERROR, edited[8..]);
    assert edited[0x0C..0x0E] == frame[0x0C..0x0E];
    assert edited[0x0E..0x10] == Bytes16(wb3s);
    assert edited[0x18..0x1C] == frame[0x18..0x1C];
    Tail7Slots(model, mem, sp, f, wb3s);
  }

  /** A 68040 handler that clears WB3S.V absorbs the store, exactly when the
      frame reports a write that failed in translation. */
  lemma ClearingVAbsorbsTheWrite(model: Model, c: Core, f: Fault, h: Core)
    requires Wf(model, c) && Wf(model, h) && model.Is040() && f.fc < 8
    requires AtReturn(model, c, AccessError(f), h)
    requires AbsorbedByHandler(model, c, f, h.mem)
    ensures Rte(model, h, 1)
            == Some(h.(sr := c.sr, pc := c.ppc, stacks := c.stacks,
                       writeSuppress := if f.write && f.translation then Some(f.address) else h.writeSuppress))
  {
    hide ReadTop, FirstFrame, FrameBase, Block, Ssw040, Wb3s, Cleared, Arm7, Active;
    var k := AccessError(f);
    ReleasedStacks(model, c, k, h);
    FaultFrame7(model, c, f);
    AbsorbedTop(model, h, FirstFrame(model, c, k), c.sr, c.ppc, f, Cleared(Wb3s(f), 0x80));
    ClearedVArms(h, f, ReadTop(model, h));
    assert h.sr.s;
  }
}
