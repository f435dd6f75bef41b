/** Exception processing as the core performs it: banked stack pointers, frames
    pushed word by word, RTE popping what it finds. Every method is proved
    against the functions of `Exceptions`. */
module ExceptionUnit {
  import opened Words
  import opened BusMemory
  import opened Exceptions

  // ------------------------------------------------------ pushes as blocks

  /** Two pushes are one push of the lower block followed by the upper. */
  lemma PushTwice(model: Model, c: Core, high: seq<u8>, low: seq<u8>)
    requires Wf(model, c) && |low| + |high| < 0x1000
    ensures Push(model, Push(model, c, high), low) == Push(model, c, low + high)
  {
    var bus, sp := model.Bus(), A7(model, c);
    var mid := Sub32(sp, |high|);
    PushExtends(bus, c.mem, mid, low, high);
    WriteWraps(bus, Write(bus, c.mem, mid, high), mid - |low|, low);
    WriteWraps(bus, c.mem, mid - |low|, low + high);
    WriteWraps(bus, c.mem, sp - |low + high|, low + high);
    assert Sub32(mid, |low|) == Sub32(sp, |low + high|);
  }

  /** The 68000 writes PC low, SR, PC high; the frame is the same block. */
  lemma FrameInBusOrder(bus: Bus, mem: seq<u8>, sp: u32, sr: seq<u8>, hi: seq<u8>, lo: seq<u8>)
    requires bus.Holds(mem) && |sr| == |hi| == |lo| == 2
    ensures Write(bus, Write(bus, Write(bus, mem, sp + 4, lo), sp, sr), sp + 2, hi) == Write(bus, mem, sp, sr + hi + lo)
  {
    var was := Block(bus, mem, sp, 6);
    WriteBack(bus, mem, sp, 6);
    Patch(bus, mem, sp, was, 4, lo);
    var one := was[..4] + lo + was[6..];
    Patch(bus, mem, sp, one, 0, sr);
    var two := one[..0] + sr + one[2..];
    assert sp + 0 == sp;
    Patch(bus, mem, sp, two, 2, hi);
    assert two[..2] + hi + two[4..] == sr + hi + lo;
  }

  // -------------------------------------------------------------- the core

  class Cpu {
    const model: Model
    const mem: array<u8>
    const sp: array<u32>          // banked stack pointers: 0 USP, 4 ISP, 6 MSP
    var a7: u32                   // dar[15]
    var t1Flag: bool
    var t0Flag: bool
    var sFlag: bool
    var mFlag: bool
    var intMask: nat
    var ccr: nat
    var pc: u32
    var ppc: u32
    var vbr: u32
    var stopped: nat
    var exceptionProcessing: bool
    var readOverride: Option<(u32, u32)>
    var writeSuppress: Option<u32>
    var fcOverride: Option<nat>        // the SFC/DFC space of a faulted MOVES
    var pendingFaultWdata: u32

    function Status(): Sr
      reads this
    {
      Sr(t1Flag, t0Flag, sFlag, mFlag, intMask, ccr)
    }

    /** The three stack pointers with A7 in its place. */
    ghost function StackPointers(): Stacks
      requires sp.Length == 7
      reads this, sp
    {
      Stacks(sp[0], sp[4], sp[6]).Put(Active(model, Status()), a7)
    }

    ghost predicate Valid()
      reads this, sp, mem
    {
      && mem.Length == model.Bus().Size() && sp.Length == 7 && sp as object != mem
      && Stored(model, Status())
    }

    ghost function View(): (c: Core)
      requires Valid()
      reads this, sp, mem
      ensures Wf(model, c) && A7(model, c) == a7
    {
      Core(Status(), StackPointers(), pc, ppc, vbr, mem[..], readOverride, writeSuppress)
    }

    /** Stacks that a 68000 or 68010 can push words on. */
    ghost predicate Aligned()
      requires Valid()
      reads this, sp, mem
    {
      StacksAligned(model, View().stacks) && (model.Pre68020() ==> vbr % 2 == 0)
    }

    // ------------------------------------------------- banking and status

    function SpIndex(): (i: nat)
      reads this
      ensures i == match Active(model, Status()) case USP => 0 case ISP => 4 case MSP => 6
    {
      if model.M68060? then (if sFlag then 4 else 0)
      else if !sFlag then 0
      else if mFlag && !model.Pre68020() then 6 else 4
    }

    method BackupSp()
      requires Valid()
      modifies sp
      ensures Valid() && View() == old(View())
      ensures sp[SpIndex()] == a7
      ensures Stacks(sp[0], sp[4], sp[6]) == StackPointers()
    {
      var idx := SpIndex();
      sp[idx] := a7;
    }

    method RestoreSp()
      requires Valid()
      modifies this`a7
      ensures a7 == sp[SpIndex()]
    {
      var idx := SpIndex();
      a7 := sp[idx];
    }

    method SetSFlag(value: bool)
      requires Valid() && (mFlag ==> value)
      modifies this`sFlag, this`a7, sp
      ensures Valid() && View() == old(View()).(sr := old(Status()).(s := value))
    {
      BackupSp();
      sFlag := value;
      RestoreSp();
    }

    method SetSmFlag(s: bool, m: bool)
      requires Valid() && (m ==> s && model.HasM())
      modifies this`sFlag, this`mFlag, this`a7, sp
      ensures Valid() && View() == old(View()).(sr := old(Status()).(s := s, m := m))
    {
      BackupSp();
      sFlag := s;
      mFlag := m;
      RestoreSp();
    }

    function GetSr(): u16
      requires InRange(Status())
      reads this
    {
      Pack(Status())
    }

    method SetTraceMaskAndCcr(t1: bool, t0: bool, ipl: nat, codes: nat)
      requires Valid() && (t0 ==> model.HasT0()) && ipl < 8 && codes < 0x20
      modifies this`t1Flag, this`t0Flag, this`intMask, this`ccr
      ensures Valid()
      ensures View() == old(View()).(sr := old(Status()).(t1 := t1, t0 := t0, ipl := ipl, ccr := codes))
    {
      t1Flag, t0Flag, intMask, ccr := t1, t0, ipl, codes;
    }

    method SetSr(word: u16)
      requires Valid()
      modifies this`t1Flag, this`t0Flag, this`intMask, this`ccr, this`sFlag, this`mFlag, this`a7, sp
      ensures Valid() && View() == old(View()).(sr := Unpack(model, word))
    {
      hide HasBit, Active;
      var s := HasBit(word, 0x2000);
      SetTraceMaskAndCcr(HasBit(word, 0x8000), model.HasT0() && HasBit(word, 0x4000),
                         word / 0x100 % 8, word % 0x20);
      SetSmFlag(s, s && model.HasM() && HasBit(word, 0x1000));
    }

    // ---------------------------------------------------- memory accesses

    method Write16(addr: u32, value: u16)
      requires Valid() && (model.Pre68020() ==> addr % 2 == 0)
      modifies mem
      ensures Valid()
      ensures View() == old(View()).(mem := Write(model.Bus(), old(mem[..]), addr, Bytes16(value)))
    {
      var bus := model.Bus();
      ghost var was := mem[..];
      mem[bus.At(addr)] := value / 0x100;
      mem[bus.At(addr + 1)] := value % 0x100;
      WordStored(bus, was, addr, value);
      assert mem[..] == Stored16(bus, was, addr, value);
    }

    method Write32(addr: u32, value: u32)
      requires Valid() && (model.Pre68020() ==> addr % 2 == 0)
      modifies mem
      ensures Valid()
      ensures View() == old(View()).(mem := Write(model.Bus(), old(mem[..]), addr, Bytes32(value)))
    {
      var bus := model.Bus();
      ghost var was := mem[..];
      mem[bus.At(addr)] := value / 0x1_0000 / 0x100;
      mem[bus.At(addr + 1)] := value / 0x1_0000 % 0x100;
      mem[bus.At(addr + 2)] := value % 0x1_0000 / 0x100;
      mem[bus.At(addr + 3)] := value % 0x1_0000 % 0x100;
      LongStored(bus, was, addr, value);
      assert mem[..] == Stored32(bus, was, addr, value);
    }

    method Load16(addr: u32) returns (value: u16)
      requires Valid() && (model.Pre68020() ==> addr % 2 == 0)
      ensures value == Read16(model.Bus(), mem[..], addr)
    {
      var bus := model.Bus();
      WordLoaded(bus, mem[..], addr);
      value := mem[bus.At(addr)] as int * 0x100 + mem[bus.At(addr + 1)];
    }

    method Load32(addr: u32) returns (value: u32)
      requires Valid() && (model.Pre68020() ==> addr % 2 == 0)
      ensures value == Read32(model.Bus(), mem[..], addr)
    {
      var bus := model.Bus();
      LongLoaded(bus, mem[..], addr);
      value := ((mem[bus.At(addr)] as int * 0x100 + mem[bus.At(addr + 1)]) * 0x100
                + mem[bus.At(addr + 2)]) * 0x100 + mem[bus.At(addr + 3)];
    }

    // ---------------------------------------------------- stack and vector

    method Push16(value: u16)
      requires Valid() && Aligned()
      modifies this`a7, mem
      ensures Valid() && Aligned()
      ensures View() == Push(model, old(View()), Bytes16(value))
    {
      hide Write, Bytes16, Bus.At;
      a7 := Sub32(a7, 2);
      Write16(a7, value);
    }

    method Push32(value: u32)
      requires Valid() && Aligned()
      modifies this`a7, mem
      ensures Valid() && Aligned()
      ensures View() == Push(model, old(View()), Bytes32(value))
    {
      hide Write, Bytes32, Bus.At;
      a7 := Sub32(a7, 4);
      Write32(a7, value);
    }

    method Pull16() returns (value: u16)
      requires Valid() && Aligned()
      modifies this`a7
      ensures Valid() && Aligned()
      ensures value == Read16(model.Bus(), mem[..], old(a7))
      ensures View() == Popped(model, old(View()), 2)
    {
      value := Load16(a7);
      a7 := Add32(a7, 2);
    }

    method Pull32() returns (value: u32)
      requires Valid() && Aligned()
      modifies this`a7
      ensures Valid() && Aligned()
      ensures value == Read32(model.Bus(), mem[..], old(a7))
      ensures View() == Popped(model, old(View()), 4)
    {
      value := Load32(a7);
      a7 := Add32(a7, 4);
    }

    method JumpVector(vector: nat)
      requires Valid() && Aligned() && vector < 0x100
      modifies this`pc
      ensures Valid() && Aligned()
      ensures View() == Jump(model, old(View()), vector)
    {
      pc := Load32(Add32(vector * 4, vbr));
    }

    /** One more word below the frame built so far. */
    method StackWord(value: u16, ghost base: Core, ghost above: seq<u8>)
      requires Valid() && Aligned() && Wf(model, base) && |above| < 0x100
      requires View() == Push(model, base, above)
      modifies this`a7, mem
      ensures Valid() && Aligned()
      ensures View() == Push(model, base, Bytes16(value) + above)
    {
      PushTwice(model, base, above, Bytes16(value));
      Push16(value);
    }

    method StackLong(value: u32, ghost base: Core, ghost above: seq<u8>)
      requires Valid() && Aligned() && Wf(model, base) && |above| < 0x100
      requires View() == Push(model, base, above)
      modifies this`a7, mem
      ensures Valid() && Aligned()
      ensures View() == Push(model, base, Bytes32(value) + above)
    {
      PushTwice(model, base, above, Bytes32(value));
      Push32(value);
    }

    // ---------------------------------------------------- exception entry

    method BecomeSupervisor()
      requires Valid() && Aligned()
      modifies this`sFlag, this`a7, this`t1Flag, this`t0Flag, sp
      ensures Valid() && Aligned()
      ensures View() == old(View()).(sr := old(Status()).(s := true, t1 := false, t0 := false))
    {
      SetSFlag(true);
      t1Flag := false;
      t0Flag := false;
    }

    /** The 68000 stacks PC and SR; the 68010 and later a vector word first. */
    method PushShortFrame(vector: nat, stackedPc: u32, oldSr: u16)
      requires Valid() && Aligned() && vector < 0x100
      modifies this`a7, mem
      ensures Valid() && Aligned()
      ensures View() == Push(model, old(View()), ShortFrame(model, vector, stackedPc, oldSr))
    {
      hide Write, Bytes16, Bytes32, Push;
      ghost var base := View();
      ghost var frame: seq<u8> := [];
      NothingPushed(model, base);
      if !model.M68000? {
        StackWord(4 * vector, base, frame);
        frame := Bytes16(4 * vector) + frame;
        assert frame == Bytes16(4 * vector);
      }
      StackLong(stackedPc, base, frame);
      StackWord(oldSr, base, Bytes32(stackedPc) + frame);
      assert Bytes16(oldSr) + (Bytes32(stackedPc) + frame) == ShortFrame(model, vector, stackedPc, oldSr);
    }

    /** `take_exception`. A second exception while one is being processed is a
        double fault and stops the processor. */
    method TakeException(vector: nat)
      requires Valid() && Aligned() && vector < 0x100
      modifies this, sp, mem
      ensures Valid() && Aligned()
      ensures old(exceptionProcessing) ==> View() == old(View()) && stopped == 1 && exceptionProcessing
      ensures !old(exceptionProcessing) ==>
                View() == Enter(model, old(View()), Simple(vector)) && stopped == old(stopped) && !exceptionProcessing
    {
      hide Write, Bytes16, Bytes32, Pack, Push, Block, Read32;
      if exceptionProcessing {
        stopped := 1;
        return;
      }
      exceptionProcessing := true;
      ghost var c, k := View(), Simple(vector);
      var oldSr := GetSr();
      BecomeSupervisor();
      assert View() == Supervised(model, c, k);
      var stackedPc := if StacksNextPc(vector) then pc else ppc;
      PushShortFrame(vector, stackedPc, oldSr);
      ShortFrameIs(model, c, k, vector);
      JumpVector(vector);
      exceptionProcessing := false;
    }

    /** `take_group2_exception`: the 68020 and later add the address of the
        instruction that caused it. */
    method TakeGroup2Exception(vector: nat)
      requires Valid() && Aligned() && vector < 0x100
      modifies this, sp, mem
      ensures Valid() && Aligned()
      ensures View() == Enter(model, old(View()), Group2(vector))
    {
      hide Write, Bytes16, Bytes32, Pack, Push, Block, Read32;
      ghost var c, k := View(), Group2(vector);
      var oldSr := GetSr();
      BecomeSupervisor();
      assert View() == Supervised(model, c, k);
      if model.Pre68020() {
        PushShortFrame(vector, pc, oldSr);
        ShortFrameIs(model, c, k, vector);
      } else {
        PushSixWordFrame(vector, oldSr);
        SixWordFrameIs(model, c, vector);
      }
      JumpVector(vector);
    }

    method PushSixWordFrame(vector: nat, oldSr: u16)
      requires Valid() && Aligned() && vector < 0x100
      modifies this`a7, mem
      ensures Valid() && Aligned()
      ensures View() == Push(model, old(View()), SixWordFrame(vector, pc, ppc, oldSr))
    {
      hide Write, Bytes16, Bytes32, Push;
      ghost var base := View();
      Push32(ppc);
      ghost var frame := Bytes32(ppc);
      StackWord(0x2000 + 4 * vector, base, frame);
      frame := Bytes16(0x2000 + 4 * vector) + frame;
      StackLong(pc, base, frame);
      frame := Bytes32(pc) + frame;
      StackWord(oldSr, base, frame);
      assert Bytes16(oldSr) + frame == SixWordFrame(vector, pc, ppc, oldSr);
    }

    /** `service_interrupt`, given what the acknowledge cycle answered. */
    method ServiceInterrupt(level: nat, response: u32)
      requires Valid() && Aligned() && level < 8
      modifies this, sp, mem
      ensures Valid() && Aligned() && stopped == 0
      ensures View() == Enter(model, old(View()), Interrupt(level, IackVector(response, level)))
    {
      hide Write, Bytes16, Bytes32, Pack, Push, Block, Read32;
      var vector := IackVector(response, level);
      ghost var c, k := View(), Interrupt(level, vector);
      var oldSr := GetSr();
      BecomeSupervisor();
      SetMask(level);
      assert View() == Supervised(model, c, k);
      var stackedPc := pc;
      if model.M68000? || model.M68010? {
        PushFrameInBusOrder(vector, stackedPc, oldSr);
      } else {
        PushShortFrame(vector, stackedPc, oldSr);
      }
      ShortFrameIs(model, c, k, vector);
      assert View() == PushFirst(model, c, k);
      LeaveMasterState(vector, stackedPc, oldSr, c, k);
      JumpVector(vector);
      stopped := 0;
    }

    method SetMask(level: nat)
      requires Valid() && Aligned() && level < 8
      modifies this`intMask
      ensures Valid() && Aligned()
      ensures View() == old(View()).(sr := old(Status()).(ipl := level))
    {
      intMask := level;
    }

    /** PC low, SR, PC high and, on the 68010, the vector word. */
    method WriteFrameInBusOrder(base: u32, vector: nat, stackedPc: u32, oldSr: u16)
      requires Valid() && base % 2 == 0 && vector < 0x100 && (model.M68000? || model.M68010?)
      modifies mem
      ensures Valid()
      ensures View() == old(View()).(mem := Write(model.Bus(), old(mem[..]), base,
                                                  ShortFrame(model, vector, stackedPc, oldSr)))
    {
      hide Write, Bus.At, Bytes16, ShortFrame, Pack, Active;
      BusOrderFrame(model, mem[..], base, vector, stackedPc, oldSr);
      Write16(Add32(base, 4), stackedPc % 0x1_0000);
      Write16(base, oldSr);
      Write16(Add32(base, 2), stackedPc / 0x1_0000);
      if model.M68010? {
        Write16(Add32(base, 6), 4 * vector);
      }
    }

    method PushFrameInBusOrder(vector: nat, stackedPc: u32, oldSr: u16)
      requires Valid() && Aligned() && vector < 0x100 && (model.M68000? || model.M68010?)
      modifies this`a7, mem
      ensures Valid() && Aligned()
      ensures View() == Push(model, old(View()), ShortFrame(model, vector, stackedPc, oldSr))
    {
      hide Write, Bus.At, Bytes16, Bytes32;
      a7 := Sub32(a7, if model.M68000? then 6 else 8);
      WriteFrameInBusOrder(a7, vector, stackedPc, oldSr);
    }

    /** Behind an interrupt frame on the master stack, the 68020-68040 build a
        throwaway frame on the interrupt stack; the 68060 only drops M. */
    method LeaveMasterState(vector: nat, stackedPc: u32, oldSr: u16, ghost c: Core, ghost k: Cause)
      requires Valid() && Aligned() && Wf(model, c) && Legal(model, k) && k.Interrupt?
      requires vector == VectorOf(k) && stackedPc == c.pc && oldSr == Pack(c.sr) && Status() == SupervisorSr(c.sr, k)
      modifies this`sFlag, this`mFlag, this`a7, sp, mem
      ensures Valid() && Aligned()
      ensures View() == LeaveMaster(model, c, k, old(View()))
    {
      hide Write, Bytes16, Bytes32, Pack, Push;
      if model.HasMasterStack() && mFlag {
        SetSmFlag(true, false);
        ghost var base := View();
        PackS(c.sr);
        var sr2 := if HasBit(oldSr, 0x2000) then oldSr else oldSr + 0x2000;
        assert c.sr.(s := true) == c.sr && sr2 == Pack(c.sr);
        NothingPushed(model, base);
        StackWord(0x1000 + 4 * vector, base, []);
        StackLong(stackedPc, base, Bytes16(0x1000 + 4 * vector) + []);
        StackWord(sr2, base, Bytes32(stackedPc) + (Bytes16(0x1000 + 4 * vector) + []));
        assert Bytes16(sr2) + (Bytes32(stackedPc) + (Bytes16(0x1000 + 4 * vector) + []))
            == FrameHead(c.sr.(s := true), c.pc, 1, vector);
      } else if model.M68060? && mFlag {
        mFlag := false;
      }
    }

    // ------------------------------------------------- access-error frames

    method StackZeroLongs(n: nat, ghost base: Core, ghost above: seq<u8>)
      requires Valid() && Aligned() && Wf(model, base) && |above| + 4 * n < 0x100
      requires View() == Push(model, base, above)
      modifies this`a7, mem
      ensures Valid() && Aligned()
      ensures View() == Push(model, base, Zeros(4 * n) + above)
    {
      hide Write, Push, Bytes32, Zeros;
      ZeroBytes();
      assert Zeros(0) + above == above;
      for i := 0 to n
        invariant Valid() && Aligned()
        invariant View() == Push(model, base, Zeros(4 * i) + above)
      {
        StackLong(0, base, Zeros(4 * i) + above);
        ZerosJoin(4, 4 * i);
        assert Zeros(4) + (Zeros(4 * i) + above) == Zeros(4 * (i + 1)) + above;
      }
    }

    method StackZeroWords(n: nat, ghost base: Core, ghost above: seq<u8>)
      requires Valid() && Aligned() && Wf(model, base) && |above| + 2 * n < 0x100
      requires View() == Push(model, base, above)
      modifies this`a7, mem
      ensures Valid() && Aligned()
      ensures View() == Push(model, base, Zeros(2 * n) + above)
    {
      hide Write, Push, Bytes16, Zeros;
      ZeroBytes();
      assert Zeros(0) + above == above;
      for i := 0 to n
        invariant Valid() && Aligned()
        invariant View() == Push(model, base, Zeros(2 * i) + above)
      {
        StackWord(0, base, Zeros(2 * i) + above);
        ZerosJoin(2, 2 * i);
        assert Zeros(2) + (Zeros(2 * i) + above) == Zeros(2 * (i + 1)) + above;
      }
    }

    /** SR, restart PC and format word: the top of every frame but the 68000's. */
    method StackHead(format: nat, oldSr: u16, ghost sr: Sr, ghost base: Core, ghost above: seq<u8>)
      requires Valid() && Aligned() && Wf(model, base) && |above| < 0xF0 && format < 16
      requires InRange(sr) && oldSr == Pack(sr)
      requires View() == Push(model, base, above)
      modifies this`a7, mem
      ensures Valid() && Aligned()
      ensures View() == Push(model, base, FrameHead(sr, old(ppc), format, BUS_ERROR) + above)
    {
      hide Write, Push, Bytes16, Bytes32, Pack;
      var word := 0x1000 * format + 4 * BUS_ERROR;
      StackWord(word, base, above);
      StackLong(ppc, base, Bytes16(word) + above);
      StackWord(oldSr, base, Bytes32(ppc) + (Bytes16(word) + above));
      assert Bytes16(oldSr) + (Bytes32(ppc) + (Bytes16(word) + above))
          == FrameHead(sr, ppc, format, BUS_ERROR) + above;
    }

    method PushFormat4(f: Fault, oldSr: u16, ghost sr: Sr)
      requires Valid() && Aligned() && InRange(sr) && oldSr == Pack(sr)
      modifies this`a7, mem
      ensures Valid() && Aligned()
      ensures View() == Push(model, old(View()), FrameHead(sr, old(ppc), 4, BUS_ERROR)
                                                 + (Bytes32(f.address) + Bytes32(f.fslw)))
    {
      hide Write, Push, Bytes32, Pack, FrameHead;
      ghost var base := View();
      Push32(f.fslw);
      StackLong(f.address, base, Bytes32(f.fslw));
      StackHead(4, oldSr, sr, base, Bytes32(f.address) + Bytes32(f.fslw));
    }

    /** PD3-PD0, WB1A, WB2D and WB2A: all clear. */
    method PushUnusedWritebacks()
      requires Valid() && Aligned()
      modifies this`a7, mem
      ensures Valid() && Aligned()
      ensures View() == Push(model, old(View()), Zeros(28))
    {
      hide Write, Push, Zeros;
      ghost var base := View();
      NothingPushed(model, base);
      StackZeroLongs(3, base, []);
      StackZeroLongs(4, base, Zeros(12) + []);
      ZerosJoin(16, 12);
      assert Zeros(16) + (Zeros(12) + []) == Zeros(28);
    }

    method PushFormat7(f: Fault, oldSr: u16, ghost sr: Sr)
      requires Valid() && Aligned() && InRange(sr) && oldSr == Pack(sr) && f.fc < 8
      modifies this`a7, mem
      ensures Valid() && Aligned()
      ensures View() == Push(model, old(View()), FrameHead(sr, old(ppc), 7, BUS_ERROR) + Tail7(f))
    {
      hide Write, Push, Bytes16, Bytes32, Pack, FrameHead, Zeros, Ssw040, Wb3s, Tail7, Active, StacksAligned, Wf;
      ghost var base := View();
      PushUnusedWritebacks();
      ghost var tail := Zeros(28);
      var wb3d := if f.write then f.wdata else 0;
      StackLong(wb3d, base, tail);
      tail := Bytes32(wb3d) + tail;
      var wb3a := if f.write then f.address else 0;
      StackLong(wb3a, base, tail);
      tail := Bytes32(wb3a) + tail;
      StackLong(f.address, base, tail);
      tail := Bytes32(f.address) + tail;
      StackZeroWords(2, base, tail);                     // WB1S, WB2S
      tail := Zeros(4) + tail;
      StackWord(Wb3s(f), base, tail);
      tail := Bytes16(Wb3s(f)) + tail;
      StackWord(Ssw040(f), base, tail);
      tail := Bytes16(Ssw040(f)) + tail;
      StackLong(f.address, base, tail);
      tail := Bytes32(f.address) + tail;
      Tail7Nested(f);
      StackHead(7, oldSr, sr, base, tail);
    }

    /** +$1C to +$5A, of which only the stage B address means anything. */
    method PushPipelineDump(stageB: u32)
      requires Valid() && Aligned()
      modifies this`a7, mem
      ensures Valid() && Aligned()
      ensures View() == Push(model, old(View()), Zeros(8) + (Bytes32(stageB) + Zeros(52)))
    {
      hide Write, Push, Bytes32, Zeros;
      ghost var base := View();
      NothingPushed(model, base);
      StackZeroLongs(9, base, []);                       // +$38..$5A
      StackZeroWords(4, base, Zeros(36) + []);           // +$30..$36
      StackZeroLongs(2, base, Zeros(8) + (Zeros(36) + []));  // +$28, +$2C
      ZerosJoin(8, 36);
      ZerosJoin(8, 44);
      assert Zeros(8) + (Zeros(8) + (Zeros(36) + [])) == Zeros(52);
      StackLong(stageB, base, Zeros(52));                // +$24
      StackZeroLongs(2, base, Bytes32(stageB) + Zeros(52));  // +$1C, +$20
    }

    method PushFormatB(f: Fault, oldSr: u16, ghost sr: Sr)
      requires Valid() && Aligned() && InRange(sr) && oldSr == Pack(sr) && f.fc < 8
      modifies this`a7, mem
      ensures Valid() && Aligned()
      ensures View() == Push(model, old(View()), FrameHead(sr, old(ppc), 0xB, BUS_ERROR) + TailB(f))
    {
      hide Write, Push, Bytes16, Bytes32, Pack, FrameHead, Zeros, Ssw030, TailB, Active, StacksAligned, Wf;
      ghost var base := View();
      var stageB := if f.instruction then f.address else 0;
      PushPipelineDump(stageB);
      ghost var tail := Zeros(8) + (Bytes32(stageB) + Zeros(52));
      var dob := if f.write then f.wdata else 0;
      StackLong(dob, base, tail);                        // +$18
      tail := Bytes32(dob) + tail;
      StackZeroLongs(1, base, tail);                     // +$14
      tail := Zeros(4) + tail;
      var dataFault := if f.instruction then 0 else f.address;
      StackLong(dataFault, base, tail);                  // +$10
      tail := Bytes32(dataFault) + tail;
      StackZeroWords(2, base, tail);                     // +$0C, +$0E
      tail := Zeros(4) + tail;
      StackWord(Ssw030(f), base, tail);                  // +$0A
      tail := Bytes16(Ssw030(f)) + tail;
      StackZeroWords(1, base, tail);                     // +$08
      tail := Zeros(2) + tail;
      TailBNested(f);
      StackHead(0xB, oldSr, sr, base, tail);
    }

    /** `fake_push`: A7 moves, the words under it stay as they were. */
    method StackHole(size: nat, ghost base: Core, ghost above: seq<u8>)
      requires Valid() && Aligned() && Wf(model, base) && |above| + size < 0x100 && size % 2 == 0
      requires View() == Push(model, base, above)
      modifies this`a7
      ensures Valid() && Aligned()
      ensures View() == Push(model, base, Beneath(model, base, |above|, size) + above)
    {
      HolePushed(model, base, above, size);
      hide Write, Push, Beneath, Bus.At;
      Lower(size);
    }

    method Lower(size: nat)
      requires Valid() && Aligned() && size < 0x100 && size % 2 == 0
      modifies this`a7
      ensures Valid() && Aligned()
      ensures View() == Lowered(model, old(View()), size)
    {
      a7 := Sub32(a7, size);
    }

    method PushFormat8(oldSr: u16, ghost sr: Sr)
      requires Valid() && Aligned() && InRange(sr) && oldSr == Pack(sr)
      modifies this`a7, mem
      ensures Valid() && Aligned()
      ensures View() == Push(model, old(View()), FrameHead(sr, old(ppc), 8, BUS_ERROR)
                               + Tail8(Beneath(model, old(View()), 0, 50)))
    {
      hide Write, Push, Bytes16, Bytes32, Pack, FrameHead, Zeros, Beneath;
      ghost var base := View();
      ghost var under := Beneath(model, base, 0, 50);
      BeneathSlices(model, base);
      NothingPushed(model, base);
      StackHole(32, base, []);
      ghost var tail := under[18..50];
      StackZeroWords(1, base, tail);                     // instruction input buffer
      tail := Zeros(2) + tail;
      StackHole(2, base, tail);
      tail := under[14..16] + tail;
      StackZeroWords(1, base, tail);                     // data input buffer
      tail := Zeros(2) + tail;
      StackHole(2, base, tail);
      tail := under[10..12] + tail;
      StackZeroWords(1, base, tail);                     // data output buffer
      tail := Zeros(2) + tail;
      StackHole(2, base, tail);
      tail := under[6..8] + tail;
      StackZeroLongs(1, base, tail);                     // fault address
      tail := Zeros(4) + tail;
      StackZeroWords(1, base, tail);                     // special status word
      tail := Zeros(2) + tail;
      Tail8Nested(under);
      StackHead(8, oldSr, sr, base, tail);
    }

    /** `exception_bus_error` on the 68010 and later. */
    method ExceptionBusError(address: u32, write: bool, instruction: bool, size: nat, translation: bool, fslw: u32)
      requires Valid() && Aligned() && !model.M68000? && (fcOverride.Some? ==> fcOverride.value < 8)
      modifies this, sp, mem
      ensures Valid() && Aligned() && fcOverride == None
      ensures View() == Enter(model, old(View()), AccessError(
                          Fault(write, instruction, size, address, old(pendingFaultWdata),
                                FunctionCode(old(fcOverride), old(sFlag), instruction), translation, fslw)))
    {
      hide Write, Push, Pack, Block, Read32, FrameHead, Tail7, TailB, Tail8, Bytes32;
      ghost var c := View();
      var oldSr := GetSr();
      var f := Fault(write, instruction, size, address, pendingFaultWdata,
                     FunctionCode(fcOverride, sFlag, instruction), translation, fslw);
      BecomeSupervisor();
      fcOverride := None;
      ghost var k := AccessError(f);
      ghost var sr := c.sr;
      assert View() == Supervised(model, c, k);
      if model.Pre68020() {
        PushFormat8(oldSr, sr);
        Format8Is(model, c, k);
      } else if model.M68060? {
        PushFormat4(f, oldSr, sr);
        assert FrameHead(sr, c.ppc, 4, BUS_ERROR) + (Bytes32(f.address) + Bytes32(f.fslw))
            == FrameHead(sr, c.ppc, 4, BUS_ERROR) + Bytes32(f.address) + Bytes32(f.fslw);
      } else if model.Is040() {
        PushFormat7(f, oldSr, sr);
      } else {
        PushFormatB(f, oldSr, sr);
      }
      assert View() == PushFirst(model, c, k);
      JumpVector(BUS_ERROR);
    }

    // ----------------------------------------------------------------- RTE

    method ProbeFormat() returns (format: nat)
      requires Valid() && Aligned()
      ensures format == ReadTop(model, View()).format
    {
      hide Read16, Read32, Unpack, Bus.At;
      WrappedReads(model, View());
      assert model.Pre68020() ==> a7 % 2 == 0;
      EvenOffset(a7, 6);
      var word := Load16(Add32(a7, 6));
      format := word / 0x1000;
    }

    /** The stacked PC taken, the frame discarded; the stacked SR is handed on. */
    method PopContext(size: nat) returns (word: u16)
      requires Valid() && Aligned() && 6 <= size < 0x100 && size % 2 == 0
      modifies this`a7, this`pc
      ensures Valid() && Aligned()
      ensures var top := ReadTop(model, old(View()));
              View() == Popped(model, old(View()), size).(pc := top.pc) && Unpack(model, word) == top.sr
    {
      hide Read16, Read32, ReadTop, Unpack, Active, Bus.At, Add32;
      ghost var c := View();
      WrappedReads(model, c);
      word := Pull16();
      var target := Pull32();
      Discard(size - 6);
      PoppedThrice(model, c, size);
      pc := target;
    }

    /** SR and PC off the frame, the rest of it discarded. */
    method ReleaseFrame(size: nat)
      requires Valid() && Aligned() && 6 <= size < 0x100 && size % 2 == 0
      modifies this`a7, this`pc, this`t1Flag, this`t0Flag, this`intMask, this`ccr, this`sFlag, this`mFlag, sp
      ensures Valid() && Aligned()
      ensures View() == Release(model, old(View()), ReadTop(model, old(View())), size)
    {
      hide Read16, Read32, Unpack, Active, Bus.At, ReadTop;
      var word := PopContext(size);
      SetSr(word);
    }

    /** Format $1: the PC is not restored. */
    method DiscardThrowaway()
      requires Valid() && Aligned()
      modifies this`a7, this`t1Flag, this`t0Flag, this`intMask, this`ccr, this`sFlag, this`mFlag, sp
      ensures Valid() && Aligned()
      ensures View() == Release(model, old(View()), ReadTop(model, old(View())), 8).(pc := old(pc))
    {
      hide Read16, Read32, Unpack, Active, Bus.At;
      ghost var c := View();
      WrappedReads(model, c);
      var word := Pull16();
      Discard(6);
      PoppedThrice(model, c, 8);
      SetSr(word);
    }

    method Discard(size: nat)
      requires Valid() && Aligned() && size % 2 == 0
      modifies this`a7
      ensures Valid() && Aligned()
      ensures View() == Popped(model, old(View()), size)
    {
      a7 := Add32(a7, size);
    }

    /** A cleared WB3S.V in a translation write fault absorbs the write. */
    method ArmWriteback()
      requires Valid() && Aligned() && !model.Pre68020()
      modifies this`writeSuppress
      ensures Valid() && Aligned()
      ensures View() == Arm7(old(View()), ReadTop(model, old(View())))
      ensures ReadTop(model, View()) == ReadTop(model, old(View()))
    {
      hide Read16, Read32, Unpack, Bus.At;
      WrappedReads(model, View());
      var ssw := Load16(Add32(a7, 0x0C));
      if !HasBit(ssw, 0x100) && HasBit(ssw, 0x400) {
        var wb3s := Load16(Add32(a7, 0x0E));
        if !HasBit(wb3s, 0x80) {
          var wb3a := Load32(Add32(a7, 0x18));
          writeSuppress := Some(wb3a);
        }
      }
    }

    /** A cleared DF in a data-fault frame: the handler did the data cycle. */
    method ArmDataCycle()
      requires Valid() && Aligned() && !model.Pre68020()
      modifies this`writeSuppress, this`readOverride
      ensures Valid() && Aligned()
      ensures View() == ArmB(old(View()), ReadTop(model, old(View())))
      ensures ReadTop(model, View()) == ReadTop(model, old(View()))
    {
      hide Read16, Read32, Unpack, Bus.At;
      WrappedReads(model, View());
      var ssw := Load16(Add32(a7, 0x0A));
      if !HasBit(ssw, 0x100) && ssw / 0x1000 == 0 {
        var fa := Load32(Add32(a7, 0x10));
        if HasBit(ssw, 0x40) {
          var dib := Load32(Add32(a7, 0x2C));
          readOverride := Some((fa, dib));
        } else {
          writeSuppress := Some(fa);
        }
      }
    }

    /** One turn of the 68020's RTE loop. */
    method UnwindFrame() returns (again: bool)
      requires Valid() && Aligned() && !model.Pre68020() && !exceptionProcessing
      modifies this, sp, mem
      ensures Valid() && Aligned() && !exceptionProcessing
      ensures var was := old(View()); var one := UnwindOne(model, was);
              && again == one.Again?
              && View() == if one.BadFormat? then Enter(model, was, Simple(14)) else one.c
    {
      hide Read16, Read32, Unpack, Active, Bus.At, Enter, Release, Arm7, ArmB;
      var format := ProbeFormat();
      again := false;
      if format == 0 {
        ReleaseFrame(8);
      } else if format == 1 {
        DiscardThrowaway();
        again := true;
      } else if format == 2 {
        ReleaseFrame(12);
      } else if format == 4 && model.M68060? {
        ReleaseFrame(16);
      } else if format == 7 && model.Is040() {
        ArmWriteback();
        ReleaseFrame(60);
      } else if format == 0xA && model.Is020Or030() {
        ReleaseFrame(32);
      } else if format == 0xB && model.Is020Or030() {
        ArmDataCycle();
        ReleaseFrame(92);
      } else {
        TakeException(14);
      }
    }

    /** RTE, over at most `limit` throwaway frames. */
    method ReturnFromException(limit: nat) returns (done: bool)
      requires Valid() && Aligned() && !exceptionProcessing
      modifies this, sp, mem
      ensures done <==> Rte(model, old(View()), limit).Some?
      ensures done ==> Valid() && Aligned() && Rte(model, old(View()), limit) == Some(View())
    {
      hide Read16, Read32, Unpack, Active, Bus.At, Enter, Release, Arm7, ArmB;
      if !sFlag {
        TakeException(8);
        return true;
      }
      if model.M68000? {
        ReleaseFrame(6);
        return true;
      }
      if model.Pre68020() {
        var format := ProbeFormat();
        if format == 0 {
          ReleaseFrame(8);
        } else if format == 8 {
          ReleaseFrame(58);
        } else {
          TakeException(14);
        }
        return true;
      }
      var left := limit;
      while true
        invariant Valid() && Aligned() && !exceptionProcessing
        invariant Unwind(model, View(), left) == Rte(model, old(View()), limit)
        decreases left
      {
        var again := UnwindFrame();
        if !again {
          return true;
        }
        if left == 0 {
          return false;
        }
        left := left - 1;
      }
    }
  }

  // ------------------------------------------------------------------- RTE

  lemma EvenOffset(a: u32, d: int)
    requires d % 2 == 0
    ensures a % 2 == 0 ==> Add32(a, d) % 2 == 0
  {
  }

  /** The slots RTE reads, at addresses wrapped to 32 bits. */
  lemma WrappedReads(model: Model, c: Core)
    requires Wf(model, c)
    ensures var bus, mem, sp, top := model.Bus(), c.mem, A7(model, c), ReadTop(model, c);
            && top.sr == Unpack(model, Read16(bus, mem, sp))
            && top.pc == Read32(bus, mem, Add32(sp, 2))
            && top.format == Read16(bus, mem, Add32(sp, 6)) / 0x1000
            && top.word0A == Read16(bus, mem, Add32(sp, 0x0A))
            && top.word0C == Read16(bus, mem, Add32(sp, 0x0C))
            && top.word0E == Read16(bus, mem, Add32(sp, 0x0E))
            && top.long10 == Read32(bus, mem, Add32(sp, 0x10))
            && top.long18 == Read32(bus, mem, Add32(sp, 0x18))
            && top.long2C == Read32(bus, mem, Add32(sp, 0x2C))
  {
    hide Block, Unpack, Active, Bus.At;
    var bus, mem := model.Bus(), c.mem;
    var sp: int := A7(model, c);
    BlockWraps(bus, mem, sp + 2, 4);
    BlockWraps(bus, mem, sp + 6, 2);
    BlockWraps(bus, mem, sp + 0x0A, 2);
    BlockWraps(bus, mem, sp + 0x0C, 2);
    BlockWraps(bus, mem, sp + 0x0E, 2);
    BlockWraps(bus, mem, sp + 0x10, 4);
    BlockWraps(bus, mem, sp + 0x18, 4);
    BlockWraps(bus, mem, sp + 0x2C, 4);
  }

  lemma PoppedThrice(model: Model, c: Core, size: nat)
    requires 6 <= size < 0x100
    ensures Popped(model, Popped(model, Popped(model, c, 2), 4), size - 6) == Popped(model, c, size)
    ensures Popped(model, Popped(model, c, 2), size - 2) == Popped(model, c, size)
  {
    hide Active;
    var sp := A7(model, c);
    assert Add32(Add32(sp, 2), 4) == Add32(sp, 6) && Add32(Add32(sp, 6), size - 6) == Add32(sp, size);
    assert Add32(Add32(sp, 2), size - 2) == Add32(sp, size);
  }

  /** What memory holds `depth` to `depth + size` bytes under the stack top. */
  function Beneath(model: Model, c: Core, depth: nat, size: nat): (b: seq<u8>)
    requires Wf(model, c)
    ensures |b| == size
  {
    Block(model.Bus(), c.mem, A7(model, c) - depth - size, size)
  }

  function Lowered(model: Model, c: Core, size: nat): Core {
    c.(stacks := c.stacks.Put(Active(model, c.sr), Sub32(A7(model, c), size)))
  }

  /** Lowering A7 without writing is pushing what is already there. */
  lemma HolePushed(model: Model, c: Core, above: seq<u8>, size: nat)
    requires Wf(model, c) && |above| + size < 0x100
    ensures Push(model, c, Beneath(model, c, |above|, size) + above)
            == Lowered(model, Push(model, c, above), size)
  {
    hide Bus.At;
    var hole := Beneath(model, c, |above|, size);
    PushTwice(model, c, above, hole);
    var bus, pushed := model.Bus(), Push(model, c, above);
    var sp := Sub32(A7(model, pushed), size);
    HoleUntouched(model, c, above, size);
    WriteBack(bus, pushed.mem, sp, size);
  }

  lemma HoleUntouched(model: Model, c: Core, above: seq<u8>, size: nat)
    requires Wf(model, c) && |above| + size < 0x100
    ensures var pushed := Push(model, c, above);
            Block(model.Bus(), pushed.mem, Sub32(A7(model, pushed), size), size)
            == Beneath(model, c, |above|, size)
  {
    hide Bus.At;
    var bus, n := model.Bus(), |above|;
    var base := A7(model, c) - n;
    var pushed := Write(bus, c.mem, base, above);
    WriteWraps(bus, c.mem, base, above);
    BlockWraps(bus, pushed, base - size, size);
    assert Sub32(Sub32(A7(model, c), n), size) == (base - size) % 0x1_0000_0000;
    forall i | 0 <= i < bus.Size() && Covers(bus, base - size, size, i)
      ensures pushed[i] == c.mem[i]
    {
      AtMinus(bus, i - (base - size), size);
      assert i - (base - size) - size == i - base;
      WriteElsewhere(bus, c.mem, base, above, i);
    }
    BlockUntouched(bus, c.mem, pushed, base - size, size);
  }

  function Tail8(under: seq<u8>): seq<u8>
    requires |under| == 50
  {
    Zeros(6) + under[6..8] + Zeros(2) + under[10..12] + Zeros(2) + under[14..16] + Zeros(2) + under[18..50]
  }

  lemma Tail8Nested(under: seq<u8>)
    requires |under| == 50
    ensures Tail8(under)
            == Zeros(2) + (Zeros(4) + (under[6..8] + (Zeros(2) + (under[10..12] + (Zeros(2)
               + (under[14..16] + (Zeros(2) + under[18..50])))))))
  {
    ZerosJoin(2, 4);
    hide Zeros;
  }

  lemma BeneathSlices(model: Model, c: Core)
    requires Wf(model, c)
    ensures var under := Beneath(model, c, 0, 50);
            && Beneath(model, c, 0, 32) + [] == under[18..50]
            && Beneath(model, c, 34, 2) == under[14..16]
            && Beneath(model, c, 38, 2) == under[10..12]
            && Beneath(model, c, 42, 2) == under[6..8]
  {
    hide Block;
    var bus, low := model.Bus(), A7(model, c) - 50;
    SubBlock(bus, c.mem, low, 50, 18, 32);
    SubBlock(bus, c.mem, low, 50, 14, 2);
    SubBlock(bus, c.mem, low, 50, 10, 2);
    SubBlock(bus, c.mem, low, 50, 6, 2);
  }

  lemma Format8Is(model: Model, c: Core, k: Cause)
    requires Wf(model, c) && Legal(model, k) && k.AccessError? && model.Pre68020()
    ensures Frame(model, c, k, UnderFrame(model, c, k))
            == FrameHead(c.sr, c.ppc, 8, BUS_ERROR) + Tail8(Beneath(model, Supervised(model, c, k), 0, 50))
  {
    hide Block, FrameHead, Zeros;
    var under := UnderFrame(model, c, k);
    assert under == Beneath(model, Supervised(model, c, k), 0, 50);
  }

  /** FC2-0 of a faulted access: the MOVES space if one is set. */
  function FunctionCode(moves: Option<nat>, supervisor: bool, instruction: bool): (fc: nat)
    requires moves.Some? ==> moves.value < 8
    ensures fc < 8
  {
    match moves
    case Some(fc) => fc
    case None => (if supervisor then 4 else 0) + if instruction then 2 else 1
  }

  lemma ZeroBytes()
    ensures Bytes16(0) == Zeros(2) && Bytes32(0) == Zeros(4)
  {
  }

  lemma ZerosJoin(a: nat, b: nat)
    ensures Zeros(a) + Zeros(b) == Zeros(a + b)
  {
  }

  lemma Tail7Nested(f: Fault)
    requires f.fc < 8
    ensures Tail7(f)
            == Bytes32(f.address) + (Bytes16(Ssw040(f)) + (Bytes16(Wb3s(f)) + (Zeros(4) + (Bytes32(f.address)
               + (Bytes32(if f.write then f.address else 0) + (Bytes32(if f.write then f.wdata else 0) + Zeros(28)))))))
  {
    hide Bytes16, Bytes32, Zeros, Ssw040, Wb3s;
  }

  lemma TailBNested(f: Fault)
    requires f.fc < 8
    ensures TailB(f)
            == Zeros(2) + (Bytes16(Ssw030(f)) + (Zeros(4) + (Bytes32(if f.instruction then 0 else f.address)
               + (Zeros(4) + (Bytes32(if f.write then f.wdata else 0) + (Zeros(8)
               + (Bytes32(if f.instruction then f.address else 0) + Zeros(52))))))))
  {
    hide Bytes16, Bytes32, Zeros, Ssw030;
  }

  /** An all-ones answer to the acknowledge cycle asks for the autovector. */
  function IackVector(response: u32, level: nat): (v: nat)
    requires level < 8
    ensures v < 0x100
  {
    if response == 0xFFFF_FFFF then 24 + level else response % 0x100
  }

  function SixWordFrame(vector: nat, pc: u32, ppc: u32, sr: u16): seq<u8>
    requires vector < 0x100
  {
    Bytes16(sr) + Bytes32(pc) + Bytes16(0x2000 + 4 * vector) + Bytes32(ppc)
  }

  lemma SixWordFrameIs(model: Model, c: Core, vector: nat)
    requires Wf(model, c) && vector < 0x100 && !model.Pre68020()
    ensures Frame(model, c, Group2(vector), UnderFrame(model, c, Group2(vector)))
            == SixWordFrame(vector, c.pc, c.ppc, Pack(c.sr))
  {
    hide Pack;
  }

  lemma BusOrderFrame(model: Model, mem: seq<u8>, sp: u32, vector: nat, pc: u32, sr: u16)
    requires model.Bus().Holds(mem) && vector < 0x100 && (model.M68000? || model.M68010?)
    ensures var bus := model.Bus();
            var lo := Write(bus, mem, Add32(sp, 4), Bytes16(pc % 0x1_0000));
            var mid := Write(bus, lo, sp, Bytes16(sr));
            var hi := Write(bus, mid, Add32(sp, 2), Bytes16(pc / 0x1_0000));
            (if model.M68010? then Write(bus, hi, Add32(sp, 6), Bytes16(4 * vector)) else hi)
            == Write(bus, mem, sp, ShortFrame(model, vector, pc, sr))
  {
    hide Write, Bytes16;
    var bus := model.Bus();
    var lo := Write(bus, mem, sp + 4, Bytes16(pc % 0x1_0000));
    var mid := Write(bus, lo, sp, Bytes16(sr));
    var hi := Write(bus, mid, sp + 2, Bytes16(pc / 0x1_0000));
    WriteWraps(bus, mem, sp + 4, Bytes16(pc % 0x1_0000));
    WriteWraps(bus, mid, sp + 2, Bytes16(pc / 0x1_0000));
    WriteWraps(bus, hi, sp + 6, Bytes16(4 * vector));
    var head := Bytes16(sr) + Bytes16(pc / 0x1_0000) + Bytes16(pc % 0x1_0000);
    FrameInBusOrder(bus, mem, sp, Bytes16(sr), Bytes16(pc / 0x1_0000), Bytes16(pc % 0x1_0000));
    assert Bytes16(sr) + Bytes32(pc) == head;
    if model.M68010? {
      AppendAbove(bus, mem, sp, head, Bytes16(4 * vector));
    }
    assert Bytes16(sr) + Bytes32(pc) + [] == head;
  }

  /** The three- or four-word frame of TRAPs, faults and interrupts. */
  function ShortFrame(model: Model, vector: nat, pc: u32, sr: u16): seq<u8>
    requires vector < 0x100
  {
    Bytes16(sr) + Bytes32(pc) + if model.M68000? then [] else Bytes16(4 * vector)
  }

  lemma NothingPushed(model: Model, c: Core)
    requires Wf(model, c)
    ensures Push(model, c, []) == c
  {
    var sp := Sub32(A7(model, c), 0);
    var m := Write(model.Bus(), c.mem, sp, []);
    forall i | 0 <= i < |m|
      ensures m[i] == c.mem[i]
    {
      WriteElsewhere(model.Bus(), c.mem, sp, [], i);
    }
    assert m == c.mem && sp == A7(model, c);
  }

  lemma ShortFrameIs(model: Model, c: Core, k: Cause, vector: nat)
    requires Wf(model, c) && Legal(model, k) && vector == VectorOf(k)
    requires k.Simple? || k.Interrupt? || (k.Group2? && model.Pre68020())
    ensures Frame(model, c, k, UnderFrame(model, c, k)) == ShortFrame(model, vector, StackedPc(c, k), Pack(c.sr))
  {
    hide Pack;
  }

  /** A7 raised over `size` bytes. */
  function Popped(model: Model, c: Core, size: nat): Core {
    c.(stacks := c.stacks.Put(Active(model, c.sr), Add32(A7(model, c), size)))
  }

  /** Byte stores of a word, most significant first. */
  function Stored16(bus: Bus, mem: seq<u8>, addr: u32, value: u16): (m: seq<u8>)
    requires bus.Holds(mem)
    ensures bus.Holds(m)
  {
    var one: seq<u8> := mem[bus.At(addr) := value / 0x100];
    one[bus.At(addr + 1) := value % 0x100]
  }

  function Stored32(bus: Bus, mem: seq<u8>, addr: u32, value: u32): (m: seq<u8>)
    requires bus.Holds(mem)
    ensures bus.Holds(m)
  {
    var hi: u16, lo: u16 := value / 0x1_0000, value % 0x1_0000;
    var one: seq<u8> := mem[bus.At(addr) := hi / 0x100];
    var two: seq<u8> := one[bus.At(addr + 1) := hi % 0x100];
    var three: seq<u8> := two[bus.At(addr + 2) := lo / 0x100];
    three[bus.At(addr + 3) := lo % 0x100]
  }

  lemma WordStored(bus: Bus, mem: seq<u8>, addr: u32, value: u16)
    requires bus.Holds(mem)
    ensures Stored16(bus, mem, addr, value) == Write(bus, mem, addr, Bytes16(value))
  {
    var a, b := Stored16(bus, mem, addr, value), Write(bus, mem, addr, Bytes16(value));
    forall i | 0 <= i < |mem|
      ensures a[i] == b[i]
    {
      hide Bus.At;
      Offset(bus, i, addr, 0);
      Offset(bus, i, addr, 1);
      assert addr + 0 == addr;
    }
  }

  /** Which byte of an access at `addr` index `i` is. */
  lemma Offset(bus: Bus, i: nat, addr: int, k: nat)
    requires i < bus.Size() && k < 4
    ensures bus.At(i - addr) == k <==> i == bus.At(addr + k)
  {
    AtShift(bus, i - addr, addr);
    AtShift(bus, addr + k, -addr);
    AtSmall(bus, k);
    AtSmall(bus, i);
    assert i - addr + addr == i && addr + k + -addr == k;
    assert k + addr == addr + k && i + -addr == i - addr;
  }

  lemma LongStored(bus: Bus, mem: seq<u8>, addr: u32, value: u32)
    requires bus.Holds(mem)
    ensures Stored32(bus, mem, addr, value) == Write(bus, mem, addr, Bytes32(value))
  {
    var a, b := Stored32(bus, mem, addr, value), Write(bus, mem, addr, Bytes32(value));
    forall i | 0 <= i < |mem|
      ensures a[i] == b[i]
    {
      hide Bus.At;
      Offset(bus, i, addr, 0);
      Offset(bus, i, addr, 1);
      Offset(bus, i, addr, 2);
      Offset(bus, i, addr, 3);
      assert addr + 0 == addr;
    }
  }

  lemma WordLoaded(bus: Bus, mem: seq<u8>, addr: u32)
    requires bus.Holds(mem)
    ensures Read16(bus, mem, addr) == mem[bus.At(addr)] as int * 0x100 + mem[bus.At(addr + 1)]
  {
    hide Bus.At;
    var b := Block(bus, mem, addr, 2);
    assert addr + 0 == addr;
    assert b[0] == Read8(bus, mem, addr) && b[1] == Read8(bus, mem, addr + 1);
    assert b[..1] == [b[0]] && b[..1][..0] == [];
    assert Value(b[..1]) == b[0] as int;
  }

  lemma LongLoaded(bus: Bus, mem: seq<u8>, addr: u32)
    requires bus.Holds(mem)
    ensures Read32(bus, mem, addr)
            == ((mem[bus.At(addr)] as int * 0x100 + mem[bus.At(addr + 1)]) * 0x100
                + mem[bus.At(addr + 2)]) * 0x100 + mem[bus.At(addr + 3)]
  {
    hide Bus.At;
    var b := Block(bus, mem, addr, 4);
    assert addr + 0 == addr;
    assert b[0] == Read8(bus, mem, addr) && b[1] == Read8(bus, mem, addr + 1);
    assert b[2] == Read8(bus, mem, addr + 2) && b[3] == Read8(bus, mem, addr + 3);
    var high, low := b[..2], b[2..];
    assert b == high + low;
    ValueAppends(high, low);
    assert high == [b[0], b[1]] && low == [b[2], b[3]];
    assert high[..1] == [b[0]] && high[..1][..0] == [] && low[..1] == [b[2]] && low[..1][..0] == [];
  }
}
