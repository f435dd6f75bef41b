/** 68060 timing: the pipeline classification of opcodes, the branch cache and
    the retrospective pairing model of `cycles_060`. */
module Timing060 {
  import opened Words

  // ---------------------------------------------------------------- opcodes

  /** Dispatch classes of MC68060UM Tables 10-2 and 10-3. */
  datatype OepClass = PoepSoep | PoepOnly | PoepUntilLast | PoepButAllowsSoep

  datatype Flag =
    | BRANCH          // Bcc/BRA/BSR and DBcc: costed on the branch path
    | DBCC            // DBcc, a branch with its own loop costs
    | VARIABLE        // data-dependent: derived from the handler's raw count
    | DEFINES_CCR
    | USES_CCR_LATE
    | EA_INDEXED      // one extra clock, never a candidate for the sOEP
    | UNCLASSIFIED
    | READS_MEM
    | WRITES_MEM

  /** A timing entry, unpacked: class, pipeline occupancy in clocks, flags. */
  datatype Info060 = Info060(class_: OepClass, cycles: nat, flags: set<Flag>) {
    predicate Has(flag: Flag) {
      flag in flags
    }
  }

  const CYC_BRANCH_TAKEN := 7
  const CYC_BRANCH_NOT_TAKEN := 1
  const CYC_DBCC_TAKEN := 2
  const CYC_DBCC_EXPIRED := 3
  const CYC_FLOW_MIN := 5
  const CYC_MISPREDICT := 7

  const PESSIMISTIC := Info060(PoepOnly, 1, {UNCLASSIFIED, VARIABLE})

  function EaFlags(mode: bv16, reg: bv16, read: bool, write: bool): set<Flag> {
    var isMem := mode >= 2 && !(mode == 7 && reg == 4);
    (if isMem && read then {READS_MEM} else {})
    + (if isMem && write then {WRITES_MEM} else {})
    + (if mode == 6 || (mode == 7 && reg == 3) then {EA_INDEXED} else {})
  }

  function AluInfo(mode: bv16, reg: bv16, read: bool, write: bool): Info060 {
    Info060(PoepSoep, 1, {DEFINES_CCR} + EaFlags(mode, reg, read, write))
  }

  function ClassifyGroup0(op: bv16, mode: bv16, reg: bv16): Info060 {
    if op & 0x0100 != 0 || op & 0x0F00 == 0x0800 then
      Info060(PoepOnly, 1, {DEFINES_CCR} + EaFlags(mode, reg, true, op & 0x00C0 != 0))
    else if op & 0x0FC0 == 0x00C0 || op & 0x09C0 == 0x08C0 then
      PESSIMISTIC
    else if mode == 7 && reg == 4 then
      Info060(PoepOnly, 1, {VARIABLE})
    else
      AluInfo(mode, reg, true, op & 0x0F00 != 0x0C00)
  }

  function ClassifyGroup4(op: bv16, mode: bv16, reg: bv16): Info060 {
    var sub := op & 0x0FC0;
    if sub == 0x00C0 || sub == 0x02C0 || sub == 0x04C0 || sub == 0x06C0 then
      Info060(PoepOnly, 1, {VARIABLE})
    else if op & 0x0B80 == 0x0880 && mode != 0 then
      Info060(PoepUntilLast, 2, {VARIABLE, READS_MEM, WRITES_MEM})
    else if sub == 0x0AC0 then
      Info060(PoepOnly, 2, {DEFINES_CCR, READS_MEM, WRITES_MEM})
    else if op & 0x0F80 == 0x0C00 then
      Info060(PoepOnly, 2, {DEFINES_CCR, VARIABLE})
    else if op & 0x0FF8 == 0x0840 then
      AluInfo(0, 0, false, false)
    else if op & 0x0E00 == 0x0800 && op & 0x00C0 != 0x0040 then
      AluInfo(mode, reg, true, true)
    else if op & 0x0F00 == 0x0200 || op & 0x0F00 == 0x0000
         || op & 0x0F00 == 0x0400 || op & 0x0F00 == 0x0600 then
      AluInfo(mode, reg, true, true)
    else if op & 0x01C0 == 0x01C0 then
      Info060(PoepSoep, 1, EaFlags(mode, reg, false, false))
    else if op & 0x01C0 == 0x0180 then
      Info060(PoepOnly, 2, {VARIABLE})
    else if op & 0x0F00 == 0x0A00 then
      AluInfo(mode, reg, true, false)
    else
      Info060(PoepOnly, 1, {VARIABLE})
  }

  function ClassifyGroup5(op: bv16, mode: bv16, reg: bv16): Info060 {
    if op & 0x00F8 == 0x00C8 then
      Info060(PoepOnly, CYC_DBCC_EXPIRED, {BRANCH, DBCC, USES_CCR_LATE})
    else if op & 0x00C0 == 0x00C0 then
      Info060(PoepSoep, 1, {USES_CCR_LATE} + EaFlags(mode, reg, false, true))
    else
      AluInfo(mode, reg, true, true)
  }

  function ClassifyGroupE(op: bv16): Info060 {
    if op & 0x08C0 == 0x08C0 then
      PESSIMISTIC
    else if op & 0x00C0 == 0x00C0 then
      Info060(PoepSoep, 1, {DEFINES_CCR, READS_MEM, WRITES_MEM})
    else if op & 0x0018 == 0x0010 then
      Info060(PoepOnly, 1, {DEFINES_CCR, USES_CCR_LATE})
    else
      Info060(PoepSoep, 1, {DEFINES_CCR})
  }

  /** The classification of one opcode word, in dispatcher group order. */
  function Classify(op: bv16): Info060 {
    var group := op >> 12;
    var mode := (op >> 3) & 7;
    var reg := op & 7;
    if group == 0x0 then
      ClassifyGroup0(op, mode, reg)
    else if 0x1 <= group <= 0x3 then
      Info060(PoepSoep, 1, {DEFINES_CCR} + EaFlags(mode, reg, true, false)
                           + EaFlags((op >> 6) & 7, (op >> 9) & 7, false, true))
    else if group == 0x4 then
      ClassifyGroup4(op, mode, reg)
    else if group == 0x5 then
      ClassifyGroup5(op, mode, reg)
    else if group == 0x6 then
      Info060(PoepOnly, CYC_BRANCH_TAKEN,
              {BRANCH} + if op & 0x0F00 != 0 then {USES_CCR_LATE} else {})
    else if group == 0x7 then
      Info060(PoepSoep, 1, {DEFINES_CCR})
    else if group == 0x8 then
      if op & 0x00C0 == 0x00C0 || op & 0x01F0 == 0x0100 || op & 0x01F0 == 0x0140 then
        Info060(PoepOnly, 2, {DEFINES_CCR, VARIABLE})
      else
        AluInfo(mode, reg, true, op & 0x0100 != 0)
    else if group == 0x9 || group == 0xD then
      if op & 0x0130 == 0x0100 && mode <= 1 then
        Info060(PoepOnly, 1, {DEFINES_CCR, USES_CCR_LATE} + EaFlags(mode, reg, true, true))
      else
        AluInfo(mode, reg, true, op & 0x0100 != 0 && op & 0x00C0 != 0x00C0)
    else if group == 0xB then
      AluInfo(mode, reg, true, op & 0x0100 != 0 && op & 0x00C0 != 0x00C0)
    else if group == 0xC then
      if op & 0x00C0 == 0x00C0 then
        Info060(PoepOnly, 2, {DEFINES_CCR})
      else if op & 0x01F0 == 0x0100 then
        Info060(PoepOnly, 2, {DEFINES_CCR, VARIABLE})
      else if op & 0x01F8 == 0x0140 || op & 0x01F8 == 0x0148 || op & 0x01F8 == 0x0188 then
        Info060(PoepOnly, 1, {})
      else
        AluInfo(mode, reg, true, op & 0x0100 != 0)
    else if group == 0xE then
      ClassifyGroupE(op)
    else
      PESSIMISTIC
  }

  const FULL_MASK: bv16 := 0xFFFF

  function Dn(reg: bv16): bv16
    requires reg < 8
  {
    (1 as bv16) << reg
  }

  function An(reg: bv16): bv16
    requires reg < 8
  {
    (0x100 as bv16) << reg
  }

  /** Address registers and operand register (use, def) of one EA field. */
  function EaMasks(mode: bv16, reg: bv16): (bv16, bv16)
    requires reg < 8
  {
    if mode == 0 then (Dn(reg), 0)
    else if mode == 1 || mode == 2 || mode == 5 then (An(reg), 0)
    else if mode == 3 || mode == 4 then (An(reg), An(reg))
    else if mode == 6 then (FULL_MASK, 0)
    else (0, 0)
  }

  /** Registers an opcode uses and defines; full masks when not decoded. */
  function RegMasks(op: bv16): (bv16, bv16) {
    var group := op >> 12;
    var mode := (op >> 3) & 7;
    var reg := op & 7;
    var hi := (op >> 9) & 7;
    var opmode := (op >> 6) & 7;
    var (eu, ed) := EaMasks(mode, reg);
    var own := if mode == 0 then Dn(reg) else if mode == 1 then An(reg) else 0;
    if 0x1 <= group <= 0x3 then
      var (du, dd) := EaMasks(opmode, hi);
      var extra := if opmode == 0 then Dn(hi) else if opmode == 1 then An(hi) else 0;
      (eu | du, ed | dd | extra)
    else if group == 0x7 then
      (0, Dn(hi))
    else if group == 0x8 || group == 0x9 || group == 0xB || group == 0xC || group == 0xD then
      if opmode <= 2 then (eu | Dn(hi), ed | Dn(hi))
      else if opmode == 3 || opmode == 7 then (eu | An(hi), ed | An(hi))
      else (Dn(hi) | eu, ed)
    else if group == 0x5 then
      (eu, ed | own)
    else if group == 0xE && op & 0x00C0 != 0x00C0 then
      (Dn(reg) | (if op & 0x0020 != 0 then Dn(hi) else 0), Dn(reg))
    else if group == 0x4 then
      if op & 0x01C0 == 0x01C0 then (eu, An(hi))
      else if op & 0x0F00 < 0x0700 || op & 0x0F00 == 0x0A00 then
        (eu, ed | if mode == 0 then Dn(reg) else 0)
      else (FULL_MASK, FULL_MASK)
    else
      (FULL_MASK, FULL_MASK)
  }

  predicate IsDbcc(op: bv16) {
    op >> 12 == 5 && op & 0x00F8 == 0x00C8
  }

  predicate IsBranch(op: bv16) {
    op >> 12 == 6 || IsDbcc(op)
  }

  /** An entry off the branch path: at least a clock of pipeline occupancy. */
  predicate Straight(info: Info060) {
    info.cycles >= 1 && BRANCH !in info.flags && DBCC !in info.flags
  }

  lemma EaFlagsAreOperandFlags(mode: bv16, reg: bv16, read: bool, write: bool)
    ensures EaFlags(mode, reg, read, write) <= {READS_MEM, WRITES_MEM, EA_INDEXED}
  {
  }

  lemma AluShape(mode: bv16, reg: bv16, read: bool, write: bool)
    ensures Straight(AluInfo(mode, reg, read, write))
  {
    EaFlagsAreOperandFlags(mode, reg, read, write);
  }

  lemma Group0Shape(op: bv16, mode: bv16, reg: bv16)
    ensures Straight(ClassifyGroup0(op, mode, reg))
  {
    EaFlagsAreOperandFlags(mode, reg, true, op & 0x00C0 != 0);
    AluShape(mode, reg, true, op & 0x0F00 != 0x0C00);
  }

  lemma Group4Shape(op: bv16, mode: bv16, reg: bv16)
    ensures Straight(ClassifyGroup4(op, mode, reg))
  {
    AluShape(0, 0, false, false);
    AluShape(mode, reg, true, true);
    AluShape(mode, reg, true, false);
    EaFlagsAreOperandFlags(mode, reg, false, false);
  }

  lemma Group5Shape(op: bv16, mode: bv16, reg: bv16)
    requires op & 0x00F8 != 0x00C8
    ensures Straight(ClassifyGroup5(op, mode, reg))
  {
    EaFlagsAreOperandFlags(mode, reg, false, true);
    AluShape(mode, reg, true, true);
  }

  lemma HighGroupsShape(op: bv16)
    requires op >> 12 >= 7
    ensures Straight(Classify(op))
  {
    var mode := (op >> 3) & 7;
    var reg := op & 7;
    EaFlagsAreOperandFlags(mode, reg, true, true);
    AluShape(mode, reg, true, true);
    AluShape(mode, reg, true, false);
  }

  /** What the whole 64K table promises the cost model: exactly the Bcc group
      and DBcc carry the branch flag, and every other entry occupies the
      pipeline for at least a clock. */
  lemma ClassifyShape(op: bv16)
    ensures IsBranch(op) ==> Classify(op).Has(BRANCH) && (Classify(op).Has(DBCC) <==> IsDbcc(op))
    ensures !IsBranch(op) ==> Straight(Classify(op))
  {
    var mode := (op >> 3) & 7;
    var reg := op & 7;
    var group := op >> 12;
    if group >= 7 {
      HighGroupsShape(op);
    } else if group == 0 {
      Group0Shape(op, mode, reg);
    } else if group <= 3 {
      EaFlagsAreOperandFlags(mode, reg, true, false);
      EaFlagsAreOperandFlags((op >> 6) & 7, (op >> 9) & 7, false, true);
    } else if group == 4 {
      Group4Shape(op, mode, reg);
    } else if group == 5 && !IsDbcc(op) {
      Group5Shape(op, mode, reg);
    }
  }
}
