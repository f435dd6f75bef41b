/** Register-only one-word instructions: the batch loop's decoder and the
    dispatcher's, and what the dispatcher's arms do with register operands. */
module SimpleOps {
  import opened Words
  import opened BusMemory
  import opened MemOps
  import opened MemOpDecode

  datatype Direct = Data(r: Reg) | Addr(r: Reg) {
    function Index(): (i: nat)
      ensures i < 16
    {
      if Data? then r else 8 + r
    }

    function AsEa(): Ea {
      if Data? then DataReg(r) else AddrReg(r)
    }
  }

  datatype UnaryOp = ClrReg | NegReg | NegxReg | NotReg | TstReg

  /** `DecodedSimpleOp`. */
  datatype SimpleOp =
    | Nop
    | MoveReg(src: Direct, dst: Direct, size: Size)
    | Moveq(reg: Reg, data: u32)
    | UnaryDataReg(unary: UnaryOp, reg: Reg, size: Size)
    | Swap(reg: Reg)
    | Ext(reg: Reg, size: Size)
    | Extb(reg: Reg)
    | AddqSubqReg(reg: Reg, data: u32, size: Size, isSub: bool)
    | AddqSubqAddr(reg: Reg, data: u32, isSub: bool)
    | BinaryDataReg(op: BinaryOp, src: Direct, to: Reg, size: Size)
    | MulWordDataReg(from: Reg, to: Reg, signed: bool)
    | AddrDataReg(addrOp: AddrOp, src: Direct, to: Reg, size: Size)
    | AddSubxReg(from: Reg, to: Reg, size: Size, isSub: bool)
    | BitReg(bitOp: BitOp, bitReg: Reg, to: Reg)
    | BcdReg(from: Reg, to: Reg, isSub: bool)
    | Exg(rx: Reg, ry: Reg, field: nat)
    | SccDataReg(condition: nat, reg: Reg)
    | ShiftReg(reg: Reg, size: Size, countOrReg: Reg, countIsRegister: bool, shift: Shift)
    | BranchShort(condition: nat, displacement: int)

  // ------------------------------------------------ `DecodedSimpleOp::decode`

  function DirectReg(mode: Octal, reg: Octal): Option<Direct> {
    if mode == 0 then Some(Data(reg)) else if mode == 1 then Some(Addr(reg)) else None
  }

  function ShiftOf(o: Opcode): Shift {
    Shift(match o.mode % 4 case 0 => Arithmetic case 1 => Logical case 2 => ThroughExtend case _ => Rotate,
          o.opmode >= 4)
  }

  /** Bits 7-3. */
  function ModeField(o: Opcode): nat {
    8 * (o.opmode % 4) + o.mode
  }

  function FastSimple(o: Opcode, pre020: bool): Option<SimpleOp> {
    if 1 <= o.group <= 3 then FastMoveReg(o, MoveSize(o.group))
    else if o.group == 7 then Some(Moveq(o.reg9, Sext8(o.Low()) % 0x1_0000_0000))
    else if o == Opcode(4, 7, 1, 6, 1) then Some(Nop)
    else if o.group == 4 && FastUnaryReg(o).Some? then FastUnaryReg(o)
    else if o.group == 0 && o.opmode >= 4 && o.mode == 0 then Some(BitReg(BitOpOf(o.Bits76()), o.reg9, o.reg))
    else if o.group == 4 && o.reg9 == 4 && o.opmode == 1 && o.mode == 0 then Some(Swap(o.reg))
    else if o.group == 4 && o.reg9 == 4 && o.opmode == 2 && o.mode == 0 then Some(Ext(o.reg, Word))
    else if o.group == 4 && o.reg9 == 4 && o.opmode == 3 && o.mode == 0 then Some(Ext(o.reg, Long))
    else if o.group == 4 && o.reg9 == 4 && o.opmode == 7 && o.mode == 0 && !pre020 then Some(Extb(o.reg))
    else if o.group == 5 && o.Bits76() != 3 && o.mode <= 1 then Some(FastQuick(o))
    else if o.group == 5 && o.Bits76() == 3 && o.mode == 0 then Some(SccDataReg(o.Sub(), o.reg))
    else if o.group == 8 || o.group == 9 || 0xB <= o.group <= 0xD then FastAluReg(o)
    else if o.group == 0xE && o.Bits76() != 3 then
      Some(ShiftReg(o.reg, AluSize(o.Bits76()), o.reg9, o.mode >= 4, ShiftOf(o)))
    else if o.group == 6 && o.Sub() != 1 && o.Low() != 0 && o.Low() != 0xFF then
      Some(BranchShort(o.Sub(), Sext8(o.Low())))
    else None
  }

  function FastMoveReg(o: Opcode, size: Size): Option<SimpleOp> {
    match DirectReg(o.mode, o.reg)
    case None => None
    case Some(src) =>
      if o.opmode == 0 then Some(MoveReg(src, Data(o.reg9), size))
      else if o.opmode == 1 && size != Byte then Some(MoveReg(src, Addr(o.reg9), size))
      else None
  }

  function FastUnaryReg(o: Opcode): Option<SimpleOp> {
    if o.mode != 0 || o.Bits76() == 3 then None
    else
      match o.Sub()
      case 0x0 => Some(UnaryDataReg(NegxReg, o.reg, AluSize(o.Bits76())))
      case 0x2 => Some(UnaryDataReg(ClrReg, o.reg, AluSize(o.Bits76())))
      case 0x4 => Some(UnaryDataReg(NegReg, o.reg, AluSize(o.Bits76())))
      case 0x6 => Some(UnaryDataReg(NotReg, o.reg, AluSize(o.Bits76())))
      case 0xA => Some(UnaryDataReg(TstReg, o.reg, AluSize(o.Bits76())))
      case _ => None
  }

  function FastQuick(o: Opcode): SimpleOp {
    if o.mode == 1 then AddqSubqAddr(o.reg, QuickData(o.reg9), o.opmode >= 4)
    else AddqSubqReg(o.reg, QuickData(o.reg9), AluSize(o.Bits76()), o.opmode >= 4)
  }

  function FastAluReg(o: Opcode): Option<SimpleOp>
    requires o.group == 8 || o.group == 9 || 0xB <= o.group <= 0xD
  {
    var src := DirectReg(o.mode, o.reg);
    if o.group == 0xC && (o.opmode == 3 || o.opmode == 7) && o.mode == 0 then
      Some(MulWordDataReg(o.reg, o.reg9, o.opmode == 7))
    else if o.opmode <= 2 then
      match src
      case None => None
      case Some(s) =>
        Some(BinaryDataReg(if o.group == 0xB then Cmp else AluGroupOp(o.group).value, s, o.reg9, AluSize(o.opmode)))
    else if (o.group == 8 || o.group == 0xC) && o.opmode == 4 && o.mode == 0 then
      Some(BcdReg(o.reg, o.reg9, o.group == 8))
    else if o.group == 8 then None
    else if o.group == 0xC then
      (if ModeField(o) == 0x08 || ModeField(o) == 0x09 || ModeField(o) == 0x11
       then Some(Exg(o.reg9, o.reg, ModeField(o))) else None)
    else if o.opmode == 3 || o.opmode == 7 then
      match src
      case None => None
      case Some(s) =>
        Some(AddrDataReg(AddrGroupOp(o.group).value, s, o.reg9, if o.opmode == 3 then Word else Long))
    else if o.mode != 0 then None
    else if o.group == 0xB then Some(BinaryDataReg(Eor, Data(o.reg9), o.reg, AluSize(o.opmode)))
    else Some(AddSubxReg(o.reg, o.reg9, AluSize(o.opmode), o.group == 9))
  }

  // --------------------------------------------- the dispatcher's own arms

  /** What an opcode is dispatched to: a register-only instruction, the illegal
      instruction trap, or some other arm. */
  datatype Verdict = Runs(op: SimpleOp) | Illegal | Elsewhere

  function DispatchedReg(o: Opcode, pre020: bool): Verdict {
    match o.group
    case 0 =>
      if o.opmode >= 4 && o.mode == 0 then Runs(BitReg(BitOpOf(o.Bits76()), o.reg9, o.reg)) else Elsewhere
    case 1 => DispatchMoveReg(o)
    case 2 => DispatchMoveReg(o)
    case 3 => DispatchMoveReg(o)
    case 4 => DispatchReg4(o, pre020)
    case 5 => DispatchReg5(o)
    case 6 =>
      if o.Low() == 0 || (o.Low() == 0xFF && !pre020) || o.Sub() == 1 then Elsewhere
      else Runs(BranchShort(o.Sub(), Sext8(o.Low())))
    case 7 => if o.opmode >= 4 then Illegal else Runs(Moveq(o.reg9, Sext8(o.Low()) % 0x1_0000_0000))
    case 8 => DispatchReg8C(o)
    case 9 => DispatchReg9BD(o)
    case 0xB => DispatchReg9BD(o)
    case 0xC => DispatchReg8C(o)
    case 0xD => DispatchReg9BD(o)
    case 0xE =>
      if o.Bits76() == 3 then Elsewhere
      else Runs(ShiftReg(o.reg, AluSize(o.Bits76()), o.reg9, o.mode >= 4, ShiftOf(o)))
    case _ => Elsewhere
  }

  function DispatchMoveReg(o: Opcode): Verdict {
    var size := MoveSize(o.group);
    if size == Byte && o.mode == 1 then Illegal
    else if o.opmode == 7 && o.reg9 > 1 then Illegal
    else
      match (EaOf(o.mode, o.reg), EaOf(o.opmode, o.reg9))
      case (Some(DataReg(s)), Some(DataReg(d))) => Runs(MoveReg(Data(s), Data(d), size))
      case (Some(AddrReg(s)), Some(DataReg(d))) => Runs(MoveReg(Addr(s), Data(d), size))
      case (Some(DataReg(s)), Some(AddrReg(d))) => if size == Byte then Illegal else Runs(MoveReg(Data(s), Addr(d), size))
      case (Some(AddrReg(s)), Some(AddrReg(d))) => if size == Byte then Illegal else Runs(MoveReg(Addr(s), Addr(d), size))
      case _ => Elsewhere
  }

  function DispatchReg4(o: Opcode, pre020: bool): Verdict {
    if o.reg9 == 7 && o.opmode == 1 && o.mode == 6 && o.reg == 1 then Runs(Nop)
    else if o.mode != 0 then Elsewhere
    else if o.reg9 == 6 && o.opmode < 2 then Elsewhere                             // MULL, DIVL
    else if o.opmode == 3 && (o.reg9 == 0 || o.reg9 == 1) then Elsewhere           // MOVE from SR, CCR
    else if 4 <= o.opmode <= 6 then Elsewhere                                      // CHK, unassigned
    else if o.Bits76() != 3 && o.Sub() == 0 then Runs(UnaryDataReg(NegxReg, o.reg, AluSize(o.Bits76())))
    else if o.Bits76() != 3 && o.Sub() == 2 then Runs(UnaryDataReg(ClrReg, o.reg, AluSize(o.Bits76())))
    else if o.Bits76() != 3 && o.Sub() == 4 then Runs(UnaryDataReg(NegReg, o.reg, AluSize(o.Bits76())))
    else if o.Bits76() != 3 && o.Sub() == 6 then Runs(UnaryDataReg(NotReg, o.reg, AluSize(o.Bits76())))
    else if o.Sub() == 8 && o.Bits76() == 1 then Runs(Swap(o.reg))
    else if o.Sub() == 8 && o.Bits76() == 2 then Runs(Ext(o.reg, Word))
    else if o.Sub() == 8 && o.Bits76() == 3 then Runs(Ext(o.reg, Long))
    else if o.Sub() == 9 && o.Bits76() == 3 then (if pre020 then Illegal else Runs(Extb(o.reg)))
    else if o.Sub() == 0xA && o.Bits76() != 3 then Runs(UnaryDataReg(TstReg, o.reg, AluSize(o.Bits76())))
    else Elsewhere
  }

  function DispatchReg5(o: Opcode): Verdict {
    if o.Bits76() == 3 then (if o.mode == 0 then Runs(SccDataReg(o.Sub(), o.reg)) else Elsewhere)
    else if o.mode == 1 then
      (if o.Bits76() == 0 then Illegal else Runs(AddqSubqAddr(o.reg, QuickData(o.reg9), o.opmode >= 4)))
    else if o.mode == 0 then Runs(AddqSubqReg(o.reg, QuickData(o.reg9), AluSize(o.Bits76()), o.opmode >= 4))
    else Elsewhere
  }

  /** OR and AND to a data register take no address register at any size. */
  function DispatchReg8C(o: Opcode): Verdict {
    if o.opmode <= 2 then
      if o.mode == 1 then Illegal
      else if o.mode == 0 then
        Runs(BinaryDataReg(if o.group == 8 then Or else And, Data(o.reg), o.reg9, AluSize(o.opmode)))
      else Elsewhere
    else if o.opmode == 3 || o.opmode == 7 then
      if o.group == 0xC && o.mode == 0 then Runs(MulWordDataReg(o.reg, o.reg9, o.opmode == 7)) else Elsewhere
    else if o.opmode == 4 && o.mode == 0 then Runs(BcdReg(o.reg, o.reg9, o.group == 8))
    else if o.opmode == 4 && o.mode == 1 then Elsewhere
    else if o.group == 0xC && (ModeField(o) == 0x08 || ModeField(o) == 0x09 || ModeField(o) == 0x11) then
      Runs(Exg(o.reg9, o.reg, ModeField(o)))
    else Elsewhere
  }

  /** ADD, SUB and CMP take an address register at word and long size only. */
  function DispatchReg9BD(o: Opcode): Verdict {
    if o.opmode <= 2 then
      var op := if o.group == 9 then BinaryOp.Sub else if o.group == 0xB then Cmp else Add;
      if o.mode == 1 && AluSize(o.opmode) == Byte then Illegal
      else if o.mode == 0 then Runs(BinaryDataReg(op, Data(o.reg), o.reg9, AluSize(o.opmode)))
      else if o.mode == 1 then Runs(BinaryDataReg(op, Addr(o.reg), o.reg9, AluSize(o.opmode)))
      else Elsewhere
    else if o.opmode == 3 || o.opmode == 7 then
      var op := if o.group == 9 then Suba else if o.group == 0xB then Cmpa else Adda;
      var size := if o.opmode == 3 then Word else Long;
      if o.mode == 0 then Runs(AddrDataReg(op, Data(o.reg), o.reg9, size))
      else if o.mode == 1 then Runs(AddrDataReg(op, Addr(o.reg), o.reg9, size))
      else Elsewhere
    else if o.mode != 0 then Elsewhere
    else if o.group == 0xB then Runs(BinaryDataReg(Eor, Data(o.reg9), o.reg, AluSize(o.opmode)))
    else Runs(AddSubxReg(o.reg, o.reg9, AluSize(o.opmode), o.group == 9))
  }

  // ----------------------------------------------------------- the comparison

  /** The encodings the batch loop's decoder lets through although no 68k has
      them: MOVEQ with bit 8 set, byte operations on an address register, and
      OR and AND from one. */
  predicate Lax(o: Opcode) {
    || (o.group == 7 && o.opmode >= 4)
    || (o.group == 1 && o.opmode == 0 && o.mode == 1)
    || (o.group == 5 && o.Bits76() == 0 && o.mode == 1)
    || ((o.group == 8 || o.group == 0xC) && o.opmode <= 2 && o.mode == 1)
    || ((o.group == 9 || o.group == 0xB || o.group == 0xD) && o.opmode == 0 && o.mode == 1)
  }

  lemma SimpleGroup4Agrees(o: Opcode, pre020: bool)
    requires o.group == 4 && FastSimple(o, pre020).Some?
    ensures DispatchedReg(o, pre020) == Runs(FastSimple(o, pre020).value)
  {
    hide AluSize;
  }

  lemma SimpleAluAgrees(o: Opcode, pre020: bool)
    requires (o.group == 8 || o.group == 9 || 0xB <= o.group <= 0xD) && FastSimple(o, pre020).Some?
    ensures DispatchedReg(o, pre020) == if Lax(o) then Illegal else Runs(FastSimple(o, pre020).value)
  {
    hide MoveSize, QuickData;
  }

  /** What the batch loop decodes to a register-only operation the dispatcher
      runs as that operation, except exactly the `Lax` encodings, which it
      rejects as illegal instructions. */
  lemma SimpleDecodersAgree(o: Opcode, pre020: bool)
    ensures var fast := FastSimple(o, pre020);
            && (fast.Some? && !Lax(o) ==> DispatchedReg(o, pre020) == Runs(fast.value))
            && (fast.Some? && Lax(o) ==> DispatchedReg(o, pre020) == Illegal)
            && (Lax(o) ==> fast.Some?)
  {
    hide AluSize, QuickData, BitOpOf, ShiftOf, FastUnaryReg, FastAluReg, DispatchReg4, DispatchReg8C, DispatchReg9BD;
    if o.group == 4 {
      if FastSimple(o, pre020).Some? {
        SimpleGroup4Agrees(o, pre020);
      }
    } else if o.group == 8 || o.group == 9 || 0xB <= o.group <= 0xD {
      if FastSimple(o, pre020).Some? {
        SimpleAluAgrees(o, pre020);
      }
      if Lax(o) {
        LaxAlu(o);
      }
    }
  }

  lemma LaxAlu(o: Opcode)
    requires (o.group == 8 || o.group == 9 || 0xB <= o.group <= 0xD) && Lax(o)
    ensures FastAluReg(o).Some?
  {
  }

  // ------------------------------------------------------------ instructions

  function WithD(m: M, r: Reg, v: u32): (n: M)
    requires |m.dar| == 16
    ensures |n.dar| == 16
  {
    m.(dar := m.dar[r := v])
  }

  /** `set_logic_flags` on a long, as MOVEQ and the multiplies write it out. */
  function LongFlags(f: Flags, v: u32): Flags {
    Flags(f.x, if v >= 0x8000_0000 then 0x80 else 0, v, 0, 0)
  }

  ghost predicate SetsLogicFlags(alu: Alu) {
    forall f: Flags, v: u32 :: alu.logic(f, v, Long) == LongFlags(f, v)
  }

  function Product(signed: bool, a: u32, b: u32): u32 {
    var x, y := a % 0x1_0000, b % 0x1_0000;
    (if signed then Sext16(x) * Sext16(y) else x * y) % 0x1_0000_0000
  }

  function Rotated16(v: u32): u32 {
    v % 0x1_0000 * 0x1_0000 + v / 0x1_0000
  }

  function Extended(v: u32, size: Size): u32 {
    if size == Word then v - v % 0x1_0000 + Sext8(v % 0x100) % 0x1_0000
    else if size == Long then Sext16(v % 0x1_0000) % 0x1_0000_0000
    else v
  }

  function Exchanged(dar: seq<u32>, rx: Reg, ry: Reg, field: nat): (r: seq<u32>)
    requires |dar| == 16
    ensures |r| == 16
  {
    if field == 0x08 then dar[rx := dar[ry]][ry := dar[rx]]
    else if field == 0x09 then dar[8 + rx := dar[8 + ry]][8 + ry := dar[8 + rx]]
    else if field == 0x11 then dar[rx := dar[8 + ry]][8 + ry := dar[rx]]
    else dar
  }

  function ExecUnary(e: Env, m: M, op: UnaryOp, reg: Reg, size: Size): (r: Option<M>)
    requires Ok(e, m)
    ensures r.Some? ==> Ok(e, r.value)
  {
    match op
    case ClrReg => ExecClr(e, false, m, size, DataReg(reg))
    case NegReg => ExecNeg(e, false, m, size, DataReg(reg))
    case NotReg => ExecNot(e, false, m, size, DataReg(reg))
    case TstReg => ExecTst(e, false, m, size, DataReg(reg))
    case NegxReg =>
      match ReadEa(e, false, m, DataReg(reg), size)
      case None => None
      case Some(x) =>
        var (f, v) := e.alu.subx(x.m.flags, x.value, 0, size);
        Store(e, false, x.m.(flags := f), x.loc, size, v)
  }

  /** `exec_addq` and `exec_subq` on a data register see the whole register. */
  function ExecQuick(e: Env, m: M, reg: Reg, data: u32, size: Size, isSub: bool): (r: M)
    requires Ok(e, m)
    ensures Ok(e, r)
  {
    var op, dst := if isSub then BinaryOp.Sub else Add, m.dar[reg];
    var result := Compute(op, data, dst);
    WithD(m, reg, Merge(dst, result, size)).(flags := OpFlags(e.alu, op, m.flags, data, dst, result, size))
  }

  function ExecAddSubx(e: Env, m: M, from: Reg, to: Reg, size: Size, isSub: bool): (r: M)
    requires Ok(e, m)
    ensures Ok(e, r)
  {
    var src, dst := Masked(m.dar[from], size), Masked(m.dar[to], size);
    var (f, v) := if isSub then e.alu.subx(m.flags, src, dst, size) else e.alu.addx(m.flags, src, dst, size);
    WithD(m, to, Merge(m.dar[to], v, size)).(flags := f)
  }

  function ExecBcd(e: Env, m: M, from: Reg, to: Reg, isSub: bool): (r: M)
    requires Ok(e, m)
    ensures Ok(e, r)
  {
    var src, dst := m.dar[from] % 0x100, m.dar[to] % 0x100;
    var (f, v) := if isSub then e.alu.bcdSub(m.flags, src, dst) else e.alu.bcdAdd(m.flags, src, dst);
    WithD(m, to, Merge(m.dar[to], v, Byte)).(flags := f)
  }

  function ExecBitDataReg(m: M, op: BitOp, bitReg: Reg, to: Reg): (r: M)
    requires |m.dar| == 16
    ensures |r.dar| == 16 && r.mem == m.mem
  {
    var k, v := m.dar[bitReg] % 32, m.dar[to];
    WithD(m, to, ApplyBit(op, v, k) % 0x1_0000_0000).(flags := BitFlags(m.flags, v, k))
  }

  function ShiftCount(dar: seq<u32>, countOrReg: Reg, countIsRegister: bool): nat
    requires |dar| == 16
  {
    if countIsRegister then dar[countOrReg] % 64 else QuickData(countOrReg)
  }

  /** The shift bodies return a result within the operation size. */
  function ExecShift(e: Env, m: M, reg: Reg, size: Size, countOrReg: Reg, countIsRegister: bool, shift: Shift): (r: M)
    requires Ok(e, m)
    ensures Ok(e, r)
  {
    var (f, v) := e.alu.shift(m.flags, shift, size, ShiftCount(m.dar, countOrReg, countIsRegister),
                              Masked(m.dar[reg], size));
    WithD(m, reg, Merge(m.dar[reg], v, size)).(flags := f)
  }

  function ExecBinary(e: Env, m: M, op: BinaryOp, src: Direct, to: Reg, size: Size): (r: Option<M>)
    requires Ok(e, m)
    ensures r.Some? ==> Ok(e, r.value)
  {
    if op == Eor then Modify(e, false, m, op, size, m.dar[src.Index()], DataReg(to))
    else ExecAluToReg(e, false, m, op, size, src.AsEa(), to)
  }

  /** A register-only instruction after its opcode fetch, through the same
      bodies that serve every other addressing mode. None cannot happen. */
  function ExecSimple(e: Env, m: M, op: SimpleOp): (r: Option<M>)
    requires Ok(e, m)
    ensures r.Some? && Ok(e, r.value)
  {
    match op
    case Nop => Some(m)
    case MoveReg(src, dst, size) => ExecMove(e, false, m, size, src.AsEa(), dst.AsEa())
    case Moveq(reg, data) => Some(WithD(m, reg, data).(flags := LongFlags(m.flags, data)))
    case UnaryDataReg(unary, reg, size) => ExecUnary(e, m, unary, reg, size)
    case Swap(reg) =>
      var v := Rotated16(m.dar[reg]);
      Some(WithD(m, reg, v).(flags := LogicFlags(e.alu, m.flags, v, Long)))
    case Ext(reg, size) =>
      var v := Extended(m.dar[reg], size);
      Some(WithD(m, reg, v).(flags := LogicFlags(e.alu, m.flags, v, size)))
    case Extb(reg) =>
      var v := Sext8(m.dar[reg] % 0x100) % 0x1_0000_0000;
      Some(WithD(m, reg, v).(flags := LogicFlags(e.alu, m.flags, v, Long)))
    case AddqSubqReg(reg, data, size, isSub) => Some(ExecQuick(e, m, reg, data, size, isSub))
    case AddqSubqAddr(reg, data, isSub) =>
      Some(WithA(m, reg, if isSub then Sub32(m.dar[8 + reg], data) else Add32(m.dar[8 + reg], data)))
    case BinaryDataReg(op, src, to, size) => ExecBinary(e, m, op, src, to, size)
    case MulWordDataReg(from, to, signed) =>
      var v := Product(signed, m.dar[from], m.dar[to]);
      Some(WithD(m, to, v).(flags := LongFlags(m.flags, v)))
    case AddrDataReg(op, src, to, size) => ExecAluAddr(e, false, m, op, size, src.AsEa(), to)
    case AddSubxReg(from, to, size, isSub) => Some(ExecAddSubx(e, m, from, to, size, isSub))
    case BitReg(op, bitReg, to) => Some(ExecBitDataReg(m, op, bitReg, to))
    case BcdReg(from, to, isSub) => Some(ExecBcd(e, m, from, to, isSub))
    case Exg(rx, ry, field) => Some(m.(dar := Exchanged(m.dar, rx, ry, field)))
    case SccDataReg(condition, reg) =>
      Store(e, false, m, InRegister(reg), Byte, if e.alu.holds(m.flags, condition) then 0xFF else 0)
    case ShiftReg(reg, size, countOrReg, countIsRegister, shift) =>
      Some(ExecShift(e, m, reg, size, countOrReg, countIsRegister, shift))
    case BranchShort(condition, displacement) =>
      if condition == 0 || e.alu.holds(m.flags, condition) then Some(m.(pc := Add32(m.pc, displacement))) else Some(m)
  }

  /** The general form of a register-only instruction that has one. */
  function General(op: SimpleOp): Option<MemOp> {
    match op
    case MoveReg(src, dst, size) => Some(Move(size, src.AsEa(), dst.AsEa()))
    case BinaryDataReg(o, src, to, size) => if o == Eor then None else Some(AluToReg(o, size, src.AsEa(), to))
    case AddrDataReg(o, src, to, size) => Some(AluAddr(o, size, src.AsEa(), to))
    case _ => None
  }

  predicate OneReading(o: Opcode, pre020: bool) {
    var general, simple := Dispatched(o, pre020), DispatchedReg(o, pre020);
    general.Some? && Decodable(general.value) ==>
      !simple.Illegal? && (simple.Runs? ==> General(simple.op) == general)
  }

  /** No data register has a memory-operand reading in group 4. */
  lemma MemoryOnly4(o: Opcode, pre020: bool)
    requires o.mode == 0
    ensures var general := DispatchGroup4(o, pre020); general.Some? ==> !Decodable(general.value)
  {
    EaShape(o.mode, o.reg);
    hide AluSize;
  }

  lemma OneReading4(o: Opcode, pre020: bool)
    requires o.group == 4
    ensures OneReading(o, pre020)
  {
    if o.mode == 0 {
      hide DispatchGroup4, Decodable, AluSize;
      MemoryOnly4(o, pre020);
    } else if o == Opcode(4, 7, 1, 6, 1) {
      hide Decodable;
      assert DispatchGroup4(o, pre020).None?;
    } else {
      hide DispatchGroup4, Decodable, AluSize;
      assert DispatchReg4(o, pre020) == Elsewhere;
    }
  }

  lemma OneReadingMove(o: Opcode, pre020: bool)
    requires 1 <= o.group <= 3
    ensures OneReading(o, pre020)
  {
  }

  lemma OneReading8C(o: Opcode, pre020: bool)
    requires o.group == 8 || o.group == 0xC
    ensures OneReading(o, pre020)
  {
    EaShape(o.mode, o.reg);
    hide AluSize;
  }

  lemma OneReading9BD(o: Opcode, pre020: bool)
    requires o.group == 9 || o.group == 0xB || o.group == 0xD
    ensures OneReading(o, pre020)
  {
    EaShape(o.mode, o.reg);
  }

  lemma OneReadingRest(o: Opcode, pre020: bool)
    requires !(1 <= o.group <= 4) && o.group != 8 && o.group != 9 && !(0xB <= o.group <= 0xD)
    ensures OneReading(o, pre020)
  {
    EaShape(o.mode, o.reg);
    hide EaOf, AluSize, BitOpOf;
  }

  /** Where an opcode has both a register-only and a memory-operand reading,
      they are the same instruction. */
  lemma OneDispatcher(e: Env, m: M, o: Opcode)
    requires Ok(e, m)
    ensures OneReading(o, e.pre020)
    ensures var general, simple := Dispatched(o, e.pre020), DispatchedReg(o, e.pre020);
            general.Some? && Decodable(general.value) && simple.Runs? ==>
              Exec(e, false, m, general.value) == ExecSimple(e, m, simple.op)
  {
    hide Dispatched, DispatchedReg, ExecMove, ExecAluToReg, ExecAluAddr;
    if o.group == 4 {
      OneReading4(o, e.pre020);
    } else if 1 <= o.group <= 3 {
      OneReadingMove(o, e.pre020);
    } else if o.group == 8 || o.group == 0xC {
      OneReading8C(o, e.pre020);
    } else if o.group == 9 || o.group == 0xB || o.group == 0xD {
      OneReading9BD(o, e.pre020);
    } else {
      OneReadingRest(o, e.pre020);
    }
  }
}
