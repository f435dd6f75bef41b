/** Two decoders of the same opcodes: the batch loop's, which names the memory
    operations it can run, and the dispatcher's, which accepts or rejects every
    encoding. What the first names, the second runs. */
module MemOpDecode {
  import opened Words
  import opened MemOps

  type Octal = x: nat | x < 8

  /** An opcode word by its fields: 4, 3, 3, 3 and 3 bits. */
  datatype Opcode = Opcode(group: nat, reg9: Octal, opmode: Octal, mode: Octal, reg: Octal) {
    /** Bits 11-8. */
    function Sub(): nat {
      2 * reg9 + opmode / 4
    }

    /** Bits 7-6. */
    function Bits76(): nat {
      opmode % 4
    }

    /** Bits 7-0. */
    function Low(): u8 {
      64 * (opmode % 4) + 8 * mode + reg
    }
  }

  function OpcodeOf(word: u16): Opcode {
    Opcode(word / 0x1000, word / 0x200 % 8, word / 0x40 % 8, word / 8 % 8, word % 8)
  }

  function EaOf(mode: Octal, reg: Octal): Option<Ea> {
    match mode
    case 0 => Some(DataReg(reg))
    case 1 => Some(AddrReg(reg))
    case 2 => Some(AnInd(reg))
    case 3 => Some(AnPostInc(reg))
    case 4 => Some(AnPreDec(reg))
    case 5 => Some(AnDisp(reg))
    case 6 => Some(AnIndex(reg))
    case _ =>
      match reg
      case 0 => Some(AbsW)
      case 1 => Some(AbsL)
      case 2 => Some(PcDisp)
      case 3 => Some(PcIndex)
      case 4 => Some(Imm)
      case _ => None
  }

  function SizeOf(bits: nat): Option<Size> {
    match bits
    case 0 => Some(Byte)
    case 1 => Some(Word)
    case 2 => Some(Long)
    case _ => None
  }

  function BitOpOf(bits: nat): BitOp {
    match bits
    case 0 => Test
    case 1 => Change
    case 2 => Clear
    case _ => Set
  }

  function MoveSize(group: nat): Size {
    if group == 1 then Byte else if group == 2 then Long else Word
  }

  // ------------------------------------------------- `DecodedMemOp::decode`

  function FastDecode(o: Opcode): (r: Option<MemOp>)
    ensures r.Some? ==> Decodable(r.value)
  {
    match o.group
    case 0 => FastGroup0(o)
    case 1 => FastMoveOp(o, Byte)
    case 2 => FastMoveOp(o, Long)
    case 3 => FastMoveOp(o, Word)
    case 4 => FastGroup4(o)
    case 5 => FastGroup5(o)
    case 6 => FastGroup6(o)
    case 8 => FastAlu(o)
    case 9 => FastAlu(o)
    case 0xB => FastAlu(o)
    case 0xC => FastAlu(o)
    case 0xD => FastAlu(o)
    case _ => None
  }

  function FastMoveOp(o: Opcode, size: Size): (r: Option<MemOp>)
    ensures r.Some? ==> Decodable(r.value)
  {
    match (EaOf(o.mode, o.reg), EaOf(o.opmode, o.reg9))
    case (Some(src), Some(dst)) =>
      if size == Byte && (src.AddrReg? || dst.AddrReg?) then None
      else if !dst.IsDataAlterable() && !dst.AddrReg? then None
      else Some(Move(size, src, dst))
    case _ => None
  }

  function FastBitMem(o: Opcode, bit: BitSource): (r: Option<MemOp>)
    ensures r.Some? ==> Decodable(r.value)
  {
    match EaOf(o.mode, o.reg)
    case None => None
    case Some(ea) =>
      if !ea.IsMemory() || !ea.IsDataAlterable() then None
      else Some(BitMem(BitOpOf(o.Bits76()), bit, ea))
  }

  function FastGroup0(o: Opcode): (r: Option<MemOp>)
    ensures r.Some? ==> Decodable(r.value)
  {
    if o.opmode >= 4 then FastBitMem(o, FromRegister(o.reg9))
    else if o.reg9 == 4 then
      if o.mode == 0 then Some(BitImmDataReg(BitOpOf(o.Bits76()), o.reg)) else FastBitMem(o, FromExtension)
    else
      var op := match o.reg9
        case 0 => Some(Or)
        case 1 => Some(And)
        case 2 => Some(BinaryOp.Sub)
        case 3 => Some(Add)
        case 5 => Some(Eor)
        case 6 => Some(Cmp)
        case _ => None;
      match (SizeOf(o.Bits76()), op, EaOf(o.mode, o.reg))
      case (Some(size), Some(p), Some(dst)) => if dst.IsDataAlterable() then Some(AluImm(p, size, dst)) else None
      case _ => None
  }

  function FastControl(o: Opcode, make: Ea -> MemOp): Option<MemOp> {
    match EaOf(o.mode, o.reg)
    case None => None
    case Some(ea) => if ea.IsControl() then Some(make(ea)) else None
  }

  function FastGroup4(o: Opcode): (r: Option<MemOp>)
    ensures r.Some? ==> Decodable(r.value)
  {
    if o == Opcode(4, 7, 1, 6, 5) then Some(Rts)
    else if o.reg9 == 6 && o.opmode == 2 && o.mode == 3 then Some(MovemWordPostInc(o.reg))
    else if o.reg9 == 7 && o.opmode == 1 && o.mode == 2 && o.reg != 7 then Some(Link(o.reg))
    else if o.reg9 == 7 && o.opmode == 1 && o.mode == 3 && o.reg != 7 then Some(Unlk(o.reg))
    else if o.reg9 == 4 && o.opmode == 3 && o.mode == 4 then Some(MovemLongPreDec(o.reg))
    else if o.reg9 == 6 && o.opmode == 3 && o.mode == 3 then Some(MovemLongPostInc(o.reg))
    else if o.opmode == 7 then FastControl(o, ea => Lea(o.reg9, ea))
    else if o.reg9 == 4 && o.opmode == 1 then FastControl(o, ea => Pea(ea))
    else if o.reg9 == 7 && o.opmode == 2 then FastControl(o, ea => Jsr(ea))
    else if o.reg9 == 7 && o.opmode == 3 then FastControl(o, ea => Jmp(ea))
    else
      match (SizeOf(o.Bits76()), EaOf(o.mode, o.reg))
      case (Some(size), Some(ea)) =>
        if !ea.IsMemory() || !ea.IsDataAlterable() then None
        else (match o.Sub()
              case 0xA => Some(Tst(size, ea))
              case 0x2 => Some(Clr(size, ea))
              case 0x4 => Some(Neg(size, ea))
              case 0x6 => Some(Not(size, ea))
              case _ => None)
      case _ => None
  }

  function QuickData(reg9: Octal): u32 {
    if reg9 == 0 then 8 else reg9
  }

  function FastGroup5(o: Opcode): (r: Option<MemOp>)
    ensures r.Some? ==> Decodable(r.value)
  {
    if o.Bits76() == 3 then (if o.mode == 1 then Some(Dbcc(o.Sub(), o.reg)) else None)
    else
      match (SizeOf(o.Bits76()), EaOf(o.mode, o.reg))
      case (Some(size), Some(ea)) =>
        if !ea.IsMemory() || !ea.IsDataAlterable() then None
        else Some(AddqSubq(QuickData(o.reg9), size, ea, o.opmode >= 4))
      case _ => None
  }

  function FastGroup6(o: Opcode): (r: Option<MemOp>)
    ensures r.Some? ==> Decodable(r.value)
  {
    if o.Sub() == 1 then
      if o.Low() == 0 then Some(Bsr(0, 4))
      else if o.Low() == 0xFF then None
      else Some(Bsr(Sext8(o.Low()), 2))
    else if o.Low() == 0 then Some(BranchWord(o.Sub()))
    else None
  }

  function AluGroupOp(group: nat): Option<BinaryOp> {
    match group
    case 8 => Some(Or)
    case 9 => Some(BinaryOp.Sub)
    case 0xC => Some(And)
    case 0xD => Some(Add)
    case _ => None
  }

  function AddrGroupOp(group: nat): Option<AddrOp> {
    match group
    case 9 => Some(Suba)
    case 0xB => Some(Cmpa)
    case 0xD => Some(Adda)
    case _ => None
  }

  function FastAlu(o: Opcode): (r: Option<MemOp>)
    ensures r.Some? ==> Decodable(r.value)
  {
    match EaOf(o.mode, o.reg)
    case None => None
    case Some(ea) =>
      if o.opmode == 3 || o.opmode == 7 then
        match AddrGroupOp(o.group)
        case None => None
        case Some(op) => Some(AluAddr(op, if o.opmode == 3 then Word else Long, ea, o.reg9))
      else
        var size := if o.opmode % 4 == 0 then Byte else if o.opmode % 4 == 1 then Word else Long;
        if o.opmode < 4 then
          var op := if o.group == 0xB then Some(Cmp) else AluGroupOp(o.group);
          if op.None? || (ea.AddrReg? && (size == Byte || op.value == Or || op.value == And)) then None
          else Some(AluToReg(op.value, size, ea, o.reg9))
        else if o.group == 0xB then
          if ea.AddrReg? then Some(CmpM(size, ea.r, o.reg9))
          else if ea.DataReg? || !ea.IsDataAlterable() || !ea.IsMemory() then None
          else Some(AluToMem(Eor, size, o.reg9, ea))
        else if !ea.IsMemory() || !ea.IsDataAlterable() || AluGroupOp(o.group).None? then None
        else Some(AluToMem(AluGroupOp(o.group).value, size, o.reg9, ea))
  }

  // --------------------------------------------- the dispatcher's own arms

  predicate EaControl(mode: Octal, reg: Octal) {
    mode == 2 || mode == 5 || mode == 6 || (mode == 7 && reg <= 3)
  }

  predicate EaDataAlterable(mode: Octal, reg: Octal) {
    mode == 0 || (2 <= mode <= 6) || (mode == 7 && reg <= 1)
  }

  /** The mode `AddressingMode::decode` gives where the arm has checked that
      there is one. */
  function Mode(mode: Octal, reg: Octal): Ea {
    if EaOf(mode, reg).Some? then EaOf(mode, reg).value else Imm
  }

  /** The memory-operand instruction an opcode is dispatched to; None for every
      other instruction and for what raises illegal instruction. */
  function Dispatched(o: Opcode, pre020: bool): Option<MemOp> {
    match o.group
    case 0 => DispatchGroup0(o, pre020)
    case 1 => DispatchMove(o)
    case 2 => DispatchMove(o)
    case 3 => DispatchMove(o)
    case 4 => DispatchGroup4(o, pre020)
    case 5 => DispatchGroup5(o)
    case 6 => DispatchGroup6(o, pre020)
    case 8 => DispatchGroup8(o)
    case 9 => DispatchGroup9D(o, BinaryOp.Sub, Suba)
    case 0xB => DispatchGroupB(o)
    case 0xC => DispatchGroupC(o)
    case 0xD => DispatchGroup9D(o, Add, Adda)
    case _ => None
  }

  function DispatchMove(o: Opcode): Option<MemOp> {
    var size := MoveSize(o.group);
    if size == Byte && o.mode == 1 then None
    else if o.opmode == 7 && o.reg9 > 1 then None
    else
      match (EaOf(o.mode, o.reg), EaOf(o.opmode, o.reg9))
      case (Some(src), Some(dst)) => if o.opmode == 1 && size == Byte then None else Some(Move(size, src, dst))
      case _ => None
  }

  function DispatchGroup0(o: Opcode, pre020: bool): Option<MemOp> {
    if o.opmode == 3 && o.reg9 >= 5 then None                      // CAS, CAS2, and the MOVES size gap
    else if o.reg9 == 7 && o.opmode < 4 then None                  // MOVES
    else if o.opmode == 3 && o.reg9 < 4 then None                  // CALLM, RTM, CMP2, CHK2
    else if o.opmode >= 4 && o.mode == 1 then None                 // MOVEP
    else if o.Sub() == 0 || o.Sub() == 2 || o.Sub() == 4 || o.Sub() == 6 || o.Sub() == 0xA then
      if o.mode == 7 && o.reg == 4 && (o.Sub() == 0 || o.Sub() == 2 || o.Sub() == 0xA) then None  // to CCR or SR
      else if !EaDataAlterable(o.mode, o.reg) || SizeOf(o.Bits76()).None? then None
      else
        var op := match o.Sub() case 0 => Or case 2 => And case 4 => BinaryOp.Sub case 6 => Add case _ => Eor;
        Some(AluImm(op, SizeOf(o.Bits76()).value, Mode(o.mode, o.reg)))
    else if o.Sub() == 0xC then
      if !EaDataAlterable(o.mode, o.reg) && !(!pre020 && o.mode == 7 && (o.reg == 2 || o.reg == 3)) then None
      else if SizeOf(o.Bits76()).None? then None
      else Some(AluImm(Cmp, SizeOf(o.Bits76()).value, Mode(o.mode, o.reg)))
    else
      var dynamic := o.opmode >= 4;
      var ok := if o.Bits76() == 0 then o.mode != 1 && (o.mode == 7 ==> o.reg <= if dynamic then 4 else 3)
                else EaDataAlterable(o.mode, o.reg);
      if !ok then None
      else if o.mode == 0 then (if dynamic then None else Some(BitImmDataReg(BitOpOf(o.Bits76()), o.reg)))
      else Some(BitMem(BitOpOf(o.Bits76()), if dynamic then FromRegister(o.reg9) else FromExtension,
                       Mode(o.mode, o.reg)))
  }

  function DispatchGroup4(o: Opcode, pre020: bool): Option<MemOp> {
    if o.reg9 == 4 && o.opmode == 0 && o.mode == 1 then None                       // LINK.L
    else if o.reg9 == 6 && o.opmode < 2 then None                                  // MULL, DIVL
    else if o.opmode == 3 && (o.reg9 == 0 || o.reg9 == 1) then None                // MOVE from SR, CCR
    else if 4 <= o.opmode <= 6 then None                                           // CHK, unassigned
    else if o.reg9 == 7 && o.opmode == 1 && (o.mode == 6 || o.mode == 7) then
      (if o.mode == 6 && o.reg == 5 then Some(Rts) else None)                      // 4E70-4E7F
    else if (o.Sub() == 0 || o.Sub() == 2 || o.Sub() == 4 || o.Sub() == 6) && o.Bits76() != 3
            && !EaDataAlterable(o.mode, o.reg) then None
    else if o.Sub() == 0 then None                                                 // NEGX
    else if o.Sub() == 2 then UnarySized(o, (s, ea) => Clr(s, ea))
    else if o.Sub() == 4 then UnarySized(o, (s, ea) => Neg(s, ea))
    else if o.Sub() == 6 then UnarySized(o, (s, ea) => Not(s, ea))
    else if o.Sub() == 8 && (o.Bits76() == 0 || (o.Bits76() == 1 && o.mode < 2)
                             || (o.Bits76() >= 2 && o.mode == 0)) then None        // NBCD, SWAP, BKPT, EXT
    else if o.Sub() == 9 && o.Bits76() == 3 && o.mode == 0 then None               // EXTB
    else if o.Sub() == 0xA then
      if o.Bits76() == 3 then None                                                 // TAS, ILLEGAL
      else if (if pre020 then EaDataAlterable(o.mode, o.reg)
               else !((o.mode == 1 && o.Bits76() == 0) || (o.mode == 7 && o.reg > 4)))
      then UnarySized(o, (s, ea) => Tst(s, ea)) else None
    else if o.reg9 == 7 && o.opmode == 1 && o.mode < 2 then None                   // TRAP
    else if o.reg9 == 7 && o.opmode == 1 && o.mode == 2 then Some(Link(o.reg))
    else if o.reg9 == 7 && o.opmode == 1 && o.mode == 3 then Some(Unlk(o.reg))
    else if o.reg9 == 7 && o.opmode == 1 then None                                 // MOVE USP
    else if o.reg9 == 7 && o.opmode == 2 then
      (if EaControl(o.mode, o.reg) then Some(Jsr(Mode(o.mode, o.reg))) else None)
    else if o.reg9 == 7 && o.opmode == 3 then
      (if EaControl(o.mode, o.reg) then Some(Jmp(Mode(o.mode, o.reg))) else None)
    else if o.opmode == 7 then
      (if EaControl(o.mode, o.reg) then Some(Lea(o.reg9, Mode(o.mode, o.reg))) else None)
    else if o.reg9 == 4 && o.opmode == 1 then
      (if EaControl(o.mode, o.reg) then Some(Pea(Mode(o.mode, o.reg))) else None)
    else if o.Sub() == 8 && o.Bits76() == 3 && o.mode == 4 then Some(MovemLongPreDec(o.reg))
    else if o.Sub() == 0xC && o.mode == 3 then
      Some(if o.Bits76() % 2 == 0 then MovemWordPostInc(o.reg) else MovemLongPostInc(o.reg))
    else None
  }

  function UnarySized(o: Opcode, make: (Size, Ea) -> MemOp): Option<MemOp> {
    if SizeOf(o.Bits76()).None? then None else Some(make(SizeOf(o.Bits76()).value, Mode(o.mode, o.reg)))
  }

  function DispatchGroup5(o: Opcode): Option<MemOp> {
    if o.Bits76() == 3 then (if o.mode == 1 then Some(Dbcc(o.Sub(), o.reg)) else None)  // TRAPcc, Scc: others
    else if o.mode < 2 || (o.mode == 7 && o.reg > 1) then None                          // register forms, illegal
    else UnarySized(o, (s, ea) => AddqSubq(QuickData(o.reg9), s, ea, o.opmode >= 4))
  }

  function DispatchGroup6(o: Opcode, pre020: bool): Option<MemOp> {
    if o.Low() == 0 then Some(if o.Sub() == 1 then Bsr(0, 4) else BranchWord(o.Sub()))
    else if o.Low() == 0xFF && !pre020 then None                                        // long displacement
    else if o.Sub() == 1 then Some(Bsr(Sext8(o.Low()), 2))
    else None                                                                           // Bcc.B
  }

  function AluSize(opmode: nat): Size {
    if opmode % 4 == 0 then Byte else if opmode % 4 == 1 then Word else Long
  }

  function ToReg(o: Opcode, op: BinaryOp, addrSource: bool): Option<MemOp> {
    if (o.mode == 1 && (!addrSource || AluSize(o.opmode) == Byte)) || (o.mode == 7 && o.reg > 4) then None
    else Some(AluToReg(op, AluSize(o.opmode), Mode(o.mode, o.reg), o.reg9))
  }

  function ToMem(o: Opcode, op: BinaryOp): Option<MemOp> {
    if o.mode < 2 || !EaDataAlterable(o.mode, o.reg) then None
    else Some(AluToMem(op, AluSize(o.opmode), o.reg9, Mode(o.mode, o.reg)))
  }

  function ToAddr(o: Opcode, op: AddrOp): Option<MemOp> {
    if o.mode == 7 && o.reg > 4 then None
    else Some(AluAddr(op, if o.opmode == 3 then Word else Long, Mode(o.mode, o.reg), o.reg9))
  }

  function DispatchGroup8(o: Opcode): Option<MemOp> {
    if o.opmode <= 2 then ToReg(o, Or, false)
    else if o.opmode == 3 || o.opmode == 7 then None                                    // DIVU, DIVS
    else ToMem(o, Or)                                                                   // or SBCD, PACK, UNPK
  }

  function DispatchGroupC(o: Opcode): Option<MemOp> {
    if o.opmode <= 2 then ToReg(o, And, false)
    else if o.opmode == 3 || o.opmode == 7 then None                                    // MULU, MULS
    else ToMem(o, And)                                                                  // or ABCD, EXG
  }

  function DispatchGroup9D(o: Opcode, op: BinaryOp, addrOp: AddrOp): Option<MemOp> {
    if o.opmode <= 2 then ToReg(o, op, true)
    else if o.opmode == 3 || o.opmode == 7 then ToAddr(o, addrOp)
    else ToMem(o, op)                                                                   // or ADDX, SUBX
  }

  function DispatchGroupB(o: Opcode): Option<MemOp> {
    if o.opmode <= 2 then ToReg(o, Cmp, true)
    else if o.opmode == 3 || o.opmode == 7 then ToAddr(o, Cmpa)
    else if o.mode == 1 then Some(CmpM(AluSize(o.opmode), o.reg, o.reg9))
    else if o.mode == 0 then None                                                       // EOR Dn,Dm
    else ToMem(o, Eor)
  }

  // ----------------------------------------------------------- the comparison

  lemma EaShape(mode: Octal, reg: Octal)
    ensures var ea := EaOf(mode, reg);
            && (ea.None? <==> mode == 7 && reg > 4)
            && (ea.Some? ==> (ea.value.AddrReg? <==> mode == 1) && (ea.value.DataReg? <==> mode == 0)
                             && (ea.value.IsDataAlterable() <==> EaDataAlterable(mode, reg))
                             && (ea.value.IsControl() <==> EaControl(mode, reg))
                             && (ea.value.IsMemory() <==> mode >= 2 && !(mode == 7 && reg == 4))
                             && (mode == 1 ==> ea.value == AddrReg(reg)))
  {
  }

  lemma MovesAgree(o: Opcode)
    requires 1 <= o.group <= 3 && FastDecode(o).Some?
    ensures DispatchMove(o) == FastDecode(o)
  {
    EaShape(o.mode, o.reg);
    EaShape(o.opmode, o.reg9);
    hide EaOf;
  }

  lemma Group0Agrees(o: Opcode, pre020: bool)
    requires FastGroup0(o).Some?
    ensures DispatchGroup0(o, pre020) == FastGroup0(o)
  {
    EaShape(o.mode, o.reg);
    hide EaOf, BitOpOf;
  }

  /** LEA, PEA, JSR and JMP. */
  predicate AddressOnly(o: Opcode) {
    o.opmode == 7 || (o.reg9 == 4 && o.opmode == 1) || (o.reg9 == 7 && (o.opmode == 2 || o.opmode == 3))
  }

  lemma AddressOnlyAgrees(o: Opcode, pre020: bool)
    requires o.group == 4 && FastGroup4(o).Some? && AddressOnly(o)
    ensures DispatchGroup4(o, pre020) == FastGroup4(o)
  {
    EaShape(o.mode, o.reg);
    hide EaOf;
  }

  lemma Group4Agrees(o: Opcode, pre020: bool)
    requires o.group == 4 && FastGroup4(o).Some?
    ensures DispatchGroup4(o, pre020) == FastGroup4(o)
  {
    if AddressOnly(o) {
      AddressOnlyAgrees(o, pre020);
    } else {
      EaShape(o.mode, o.reg);
      hide EaOf, FastControl;
    }
  }

  lemma Groups56Agree(o: Opcode, pre020: bool)
    ensures FastGroup5(o).Some? ==> DispatchGroup5(o) == FastGroup5(o)
    ensures FastGroup6(o).Some? ==> DispatchGroup6(o, pre020) == FastGroup6(o)
  {
    EaShape(o.mode, o.reg);
    hide EaOf;
  }

  lemma AluAgrees(o: Opcode, pre020: bool)
    requires (o.group == 8 || o.group == 9 || 0xB <= o.group <= 0xD) && FastAlu(o).Some?
    ensures Dispatched(o, pre020) == FastAlu(o)
  {
    EaShape(o.mode, o.reg);
    hide EaOf;
  }

  /** Whatever opcode the batch loop decodes to a memory operation is dispatched
      to that operation: it is legal, and its size, operands and registers are
      read from the same bits. */
  lemma DecodersAgree(o: Opcode, pre020: bool)
    requires FastDecode(o).Some?
    ensures Dispatched(o, pre020) == FastDecode(o)
  {
    hide FastGroup0, FastGroup4, FastGroup5, FastGroup6, FastAlu, FastMoveOp,
         DispatchMove, DispatchGroup0, DispatchGroup4, DispatchGroup5, DispatchGroup6,
         DispatchGroup8, DispatchGroup9D, DispatchGroupB, DispatchGroupC;
    match o.group {
      case 0 => Group0Agrees(o, pre020);
      case 4 => Group4Agrees(o, pre020);
      case 5 => Groups56Agree(o, pre020);
      case 6 => Groups56Agree(o, pre020);
      case _ =>
        if 1 <= o.group <= 3 {
          MovesAgree(o);
        } else {
          AluAgrees(o, pre020);
        }
    }
  }
}
