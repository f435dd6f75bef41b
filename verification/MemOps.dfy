/** Memory-operand instructions as the dispatcher runs them: operands resolved
    one after the other, each side effect on an address register immediate, each
    access checked when it is made. */
module MemOps {
  import opened Words
  import opened BusMemory

  // ------------------------------------------------------------- operations

  type Reg = x: nat | x < 8

  datatype Size = Byte | Word | Long {
    function Bytes(): nat {
      if Byte? then 1 else if Word? then 2 else 4
    }

    /** One more than `mask()`. */
    function Limit(): nat {
      if Byte? then 0x100 else if Word? then 0x1_0000 else 0x1_0000_0000
    }
  }

  datatype Ea =
    | DataReg(r: Reg) | AddrReg(r: Reg)
    | AnInd(r: Reg) | AnPostInc(r: Reg) | AnPreDec(r: Reg) | AnDisp(r: Reg) | AnIndex(r: Reg)
    | AbsW | AbsL | PcDisp | PcIndex | Imm
  {
    predicate IsDataAlterable() {
      !AddrReg? && !PcDisp? && !PcIndex? && !Imm?
    }

    predicate IsControl() {
      AnInd? || AnDisp? || AnIndex? || AbsW? || AbsL? || PcDisp? || PcIndex?
    }

    predicate IsMemory() {
      !DataReg? && !AddrReg? && !Imm?
    }
  }

  datatype BinaryOp = Add | Sub | And | Or | Eor | Cmp
  datatype AddrOp = Adda | Suba | Cmpa
  datatype BitOp = Test | Change | Clear | Set
  datatype BitSource = FromRegister(r: Reg) | FromExtension

  /** `DecodedMemOp`. */
  datatype MemOp =
    | Move(size: Size, src: Ea, dst: Ea)
    | MovemWordPostInc(base: Reg)
    | MovemLongPreDec(base: Reg)
    | MovemLongPostInc(base: Reg)
    | BitImmDataReg(bitOp: BitOp, reg: Reg)
    | Link(reg: Reg)
    | Unlk(reg: Reg)
    | AluToReg(op: BinaryOp, size: Size, src: Ea, to: Reg)
    | AluToMem(op: BinaryOp, size: Size, from: Reg, dst: Ea)
    | AluAddr(addrOp: AddrOp, size: Size, src: Ea, to: Reg)
    | AluImm(op: BinaryOp, size: Size, dst: Ea)
    | AddqSubq(data: u32, size: Size, ea: Ea, isSub: bool)
    | Tst(size: Size, ea: Ea)
    | Clr(size: Size, ea: Ea)
    | Neg(size: Size, ea: Ea)
    | Not(size: Size, ea: Ea)
    | BitMem(bitOp: BitOp, bit: BitSource, ea: Ea)
    | CmpM(size: Size, ay: Reg, ax: Reg)
    | Lea(reg: Reg, ea: Ea)
    | Pea(ea: Ea)
    | Jmp(ea: Ea)
    | Jsr(ea: Ea)
    | Rts
    | Bsr(displacement: int, length: nat)
    | BranchWord(condition: nat)
    | Dbcc(condition: nat, reg: Reg)

  /** The operand forms `DecodedMemOp::decode` lets through. */
  predicate Decodable(op: MemOp) {
    match op
    case Move(_, _, dst) => dst.IsDataAlterable() || dst.AddrReg?
    case Link(reg) => reg != 7
    case Unlk(reg) => reg != 7
    case AluToMem(o, _, _, dst) => dst.IsMemory() && dst.IsDataAlterable() && o != Cmp
    case AluToReg(o, _, _, _) => o != Eor
    case AluAddr(_, size, _, _) => size != Byte
    case AluImm(_, _, dst) => dst.IsDataAlterable()
    case AddqSubq(_, _, ea, _) => ea.IsMemory() && ea.IsDataAlterable()
    case Tst(_, ea) => ea.IsMemory() && ea.IsDataAlterable()
    case Clr(_, ea) => ea.IsMemory() && ea.IsDataAlterable()
    case Neg(_, ea) => ea.IsMemory() && ea.IsDataAlterable()
    case Not(_, ea) => ea.IsMemory() && ea.IsDataAlterable()
    case BitMem(_, _, ea) => ea.IsMemory() && ea.IsDataAlterable()
    case Lea(_, ea) => ea.IsControl()
    case Pea(ea) => ea.IsControl()
    case Jmp(ea) => ea.IsControl()
    case Jsr(ea) => ea.IsControl()
    case Bsr(_, length) => length == 2 || length == 4
    case BranchWord(condition) => condition != 1
    case _ => true
  }

  // ---------------------------------------------------------------- machine

  datatype Flags = Flags(x: nat, n: nat, notZ: nat, v: nat, c: nat)

  /** The flag setters, `test_condition`, and the bodies whose result and flags
      come together: ADDX and SUBX, BCD arithmetic, shifts and rotates. The
      setters see nothing of their operands but the bits inside the operation
      size. */
  datatype Alu = Alu(logic: (Flags, nat, Size) -> Flags,
                     add: (Flags, nat, nat, nat, Size) -> Flags,
                     sub: (Flags, nat, nat, nat, Size) -> Flags,
                     cmp: (Flags, nat, nat, nat, Size) -> Flags,
                     holds: (Flags, nat) -> bool,
                     addx: (Flags, nat, nat, Size) -> (Flags, u32),
                     subx: (Flags, nat, nat, Size) -> (Flags, u32),
                     bcdAdd: (Flags, nat, nat) -> (Flags, u32),
                     bcdSub: (Flags, nat, nat) -> (Flags, u32),
                     shift: (Flags, Shift, Size, nat, nat) -> (Flags, u32))

  datatype ShiftKind = Arithmetic | Logical | ThroughExtend | Rotate
  datatype Shift = Shift(kind: ShiftKind, left: bool)

  /** CPU generation, address bus, RAM window and ALU. */
  datatype Env = Env(pre020: bool, bus: Bus, base: u32, len: nat, alu: Alu)

  /** D0-D7 and A0-A7, the PC, the flags and the bus's memory. */
  datatype M = M(dar: seq<u32>, pc: u32, flags: Flags, mem: seq<u8>)

  predicate Fits(e: Env) {
    4 <= e.len && e.base + e.len <= e.bus.Size()
  }

  predicate Ok(e: Env, m: M) {
    |m.dar| == 16 && e.bus.Holds(m.mem)
  }

  // -------------------------------------------------------------- arithmetic

  function Pow2(n: nat): (p: nat)
    ensures p > 0
  {
    if n == 0 then 1 else 2 * Pow2(n - 1)
  }

  predicate BitOf(v: nat, i: nat) {
    v / Pow2(i) % 2 == 1
  }

  function OneBit(op: BinaryOp, a: nat, b: nat): nat {
    match op
    case And => if a == 1 && b == 1 then 1 else 0
    case Or => if a == 1 || b == 1 then 1 else 0
    case _ => if a != b then 1 else 0
  }

  /** AND, OR and EOR of the low `n` bits. */
  function Bitwise(op: BinaryOp, a: nat, b: nat, n: nat): (r: nat)
    ensures r < Pow2(n)
  {
    if n == 0 then 0 else 2 * Bitwise(op, a / 2, b / 2, n - 1) + OneBit(op, a % 2, b % 2)
  }

  lemma Pow32()
    ensures Pow2(8) == 0x100 && Pow2(16) == 0x1_0000 && Pow2(32) == 0x1_0000_0000
  {
    assert Pow2(8) == 0x100;
    assert Pow2(16) == 0x1_0000;
    assert Pow2(24) == 0x100_0000;
    assert Pow2(32) == 0x1_0000_0000;
  }

  function Masked(v: u32, size: Size): (r: u32)
    ensures r < size.Limit() && r <= v
  {
    v % size.Limit()
  }

  /** `(old & !mask) | (value & mask)`. */
  function Merge(was: u32, value: u32, size: Size): (r: u32) {
    was - was % size.Limit() + value % size.Limit()
  }

  function SignExtended(v: u32, size: Size): u32 {
    if size == Word then Sext16(v % 0x1_0000) % 0x1_0000_0000 else v
  }

  function Bits32(op: BinaryOp, a: u32, b: u32): u32 {
    Pow32();
    Bitwise(op, a, b, 32)
  }

  function Compute(op: BinaryOp, src: u32, dst: u32): u32 {
    match op
    case Add => Add32(src, dst)
    case Sub => Sub32(dst, src)
    case Cmp => Sub32(dst, src)
    case _ => Bits32(op, src, dst)
  }

  function LogicFlags(alu: Alu, f: Flags, value: u32, size: Size): Flags {
    alu.logic(f, Masked(value, size), size)
  }

  function SubFlags(alu: Alu, f: Flags, src: u32, dst: u32, result: u32, size: Size): Flags {
    alu.sub(f, Masked(src, size), Masked(dst, size), Masked(result, size), size)
  }

  function AddFlags(alu: Alu, f: Flags, src: u32, dst: u32, result: u32, size: Size): Flags {
    alu.add(f, Masked(src, size), Masked(dst, size), Masked(result, size), size)
  }

  function CmpFlags(alu: Alu, f: Flags, src: u32, dst: u32, result: u32, size: Size): Flags {
    alu.cmp(f, Masked(src, size), Masked(dst, size), Masked(result, size), size)
  }

  function OpFlags(alu: Alu, op: BinaryOp, f: Flags, src: u32, dst: u32, result: u32, size: Size): Flags {
    match op
    case Add => AddFlags(alu, f, src, dst, result, size)
    case Sub => SubFlags(alu, f, src, dst, result, size)
    case Cmp => CmpFlags(alu, f, src, dst, result, size)
    case _ => LogicFlags(alu, f, result, size)
  }

  function Cleared(f: Flags): Flags {
    f.(n := 0, notZ := 0, v := 0, c := 0)
  }

  /** BTST, BCHG, BCLR and BSET of one bit of `v`. */
  function ApplyBit(op: BitOp, v: u32, bit: nat): int {
    match op
    case Test => v
    case Set => if BitOf(v, bit) then v else v + Pow2(bit)
    case Clear => if BitOf(v, bit) then v - Pow2(bit) else v
    case Change => if BitOf(v, bit) then v - Pow2(bit) else v + Pow2(bit)
  }

  function BitFlags(f: Flags, v: u32, bit: nat): Flags {
    f.(notZ := if BitOf(v, bit) then 1 else 0)
  }

  /** `addr_inc`: byte steps of A7 keep the stack pointer even. */
  function Increment(size: Size, r: Reg): nat {
    if size == Byte && r == 7 then 2 else size.Bytes()
  }

  /** A brief-format index: base, displacement and scaled index register. */
  function Indexed(e: Env, base: u32, ext: u16, x: u32): u32 {
    var index := if BitOf(ext, 11) then x else Sext16(x % 0x1_0000);
    var scaled := if e.pre020 then index
      else match ext / 0x200 % 4
           case 0 => index
           case 1 => 2 * index
           case 2 => 4 * index
           case _ => 8 * index;
    Add32(base, Sext8(ext % 0x100) + scaled)
  }

  function IndexRegister(ext: u16): nat
    ensures IndexRegister(ext) < 16
  {
    ext / 0x1000
  }

  predicate FullFormat(e: Env, ext: u16) {
    BitOf(ext, 8) && !e.pre020
  }

  // ------------------------------------------------------------------ access

  predicate InWindow(e: Env, a: u32, n: nat) {
    e.base <= e.bus.At(a) && e.bus.At(a) + n <= e.base + e.len
  }

  /** Odd word and long accesses are address errors before the 68020. */
  predicate Aligned(e: Env, a: u32, size: Size) {
    e.pre020 && size != Byte ==> a % 2 == 0
  }

  /** `strict` runs stay inside the window; a plain run may go anywhere. */
  predicate Reaches(e: Env, strict: bool, a: u32, size: Size) {
    Aligned(e, a, size) && (strict ==> InWindow(e, a, size.Bytes()))
  }

  lemma Limits(n: nat)
    ensures Limit(1) == 0x100 && Limit(2) == 0x1_0000 && Limit(4) == 0x1_0000_0000
  {
    assert Limit(2) == 0x100 * Limit(1) && Limit(3) == 0x100 * Limit(2) && Limit(4) == 0x100 * Limit(3);
  }

  function ReadMem(e: Env, mem: seq<u8>, a: u32, size: Size): (v: u32)
    requires e.bus.Holds(mem)
    ensures v < size.Limit()
  {
    Limits(size.Bytes());
    Value(Block(e.bus, mem, a, size.Bytes()))
  }

  function SizedBytes(v: u32, size: Size): (b: seq<u8>)
    ensures |b| == size.Bytes()
  {
    match size
    case Byte => [v % 0x100]
    case Word => Bytes16(v % 0x1_0000)
    case Long => Bytes32(v)
  }

  function WriteMem(e: Env, mem: seq<u8>, a: u32, size: Size, v: u32): (r: seq<u8>)
    requires e.bus.Holds(mem)
    ensures e.bus.Holds(r)
  {
    Write(e.bus, mem, a, SizedBytes(v, size))
  }

  // ------------------------------------------------------ operand resolution

  /** `EaResult`. */
  datatype Loc = InRegister(i: nat) | InMemory(a: u32) | Immediate(v: u32)

  datatype Fetched = Fetched(word: u16, m: M)
  datatype Resolved = Resolved(loc: Loc, m: M)

  /** `read_imm_16`. */
  function Fetch(e: Env, strict: bool, m: M): (r: Option<Fetched>)
    requires Ok(e, m)
    ensures r.Some? ==> Ok(e, r.value.m) && r.value.m.mem == m.mem
  {
    if m.pc % 2 != 0 || (strict && !InWindow(e, m.pc, 2)) then None
    else Some(Fetched(ReadMem(e, m.mem, m.pc, Word), m.(pc := Add32(m.pc, 2))))
  }

  /** `read_imm_32`. */
  function FetchLong(e: Env, strict: bool, m: M): (r: Option<(u32, M)>)
    requires Ok(e, m)
    ensures r.Some? ==> Ok(e, r.value.1) && r.value.1.mem == m.mem
  {
    match Fetch(e, strict, m)
    case None => None
    case Some(hi) =>
      match Fetch(e, strict, hi.m)
      case None => None
      case Some(lo) => Some((hi.word * 0x1_0000 + lo.word, lo.m))
  }

  function WithA(m: M, r: Reg, v: u32): (n: M)
    requires |m.dar| == 16
    ensures |n.dar| == 16
  {
    m.(dar := m.dar[8 + r := v])
  }

  /** Base plus a brief-format index; the full format is left to dispatch. */
  function FetchIndexed(e: Env, strict: bool, m: M, base: u32): (r: Option<Resolved>)
    requires Ok(e, m)
    ensures r.Some? ==> Ok(e, r.value.m) && r.value.m.mem == m.mem
  {
    match Fetch(e, strict, m)
    case None => None
    case Some(f) =>
      if FullFormat(e, f.word) then None
      else Some(Resolved(InMemory(Indexed(e, base, f.word, f.m.dar[IndexRegister(f.word)])), f.m))
  }

  /** `resolve_ea`. */
  function Resolve(e: Env, strict: bool, m: M, ea: Ea, size: Size): (r: Option<Resolved>)
    requires Ok(e, m)
    ensures r.Some? ==> Ok(e, r.value.m) && (r.value.loc.InRegister? ==> r.value.loc.i < 16)
    ensures r.Some? ==> r.value.m.mem == m.mem
    ensures r.Some? ==> (r.value.loc.InMemory? <==> ea.IsMemory()) && (r.value.loc.Immediate? <==> ea.Imm?)
    ensures r.Some? && r.value.loc.InRegister? ==> r.value.loc.i == if ea.DataReg? then ea.r else 8 + ea.r
  {
    match ea
    case DataReg(r) => Some(Resolved(InRegister(r), m))
    case AddrReg(r) => Some(Resolved(InRegister(8 + r), m))
    case AnInd(r) => Some(Resolved(InMemory(m.dar[8 + r]), m))
    case AnPostInc(r) =>
      var a := m.dar[8 + r];
      Some(Resolved(InMemory(a), WithA(m, r, Add32(a, Increment(size, r)))))
    case AnPreDec(r) =>
      var a := Sub32(m.dar[8 + r], Increment(size, r));
      Some(Resolved(InMemory(a), WithA(m, r, a)))
    case AnDisp(r) =>
      (match Fetch(e, strict, m)
       case None => None
       case Some(f) => Some(Resolved(InMemory(Add32(f.m.dar[8 + r], Sext16(f.word))), f.m)))
    case AnIndex(r) => FetchIndexed(e, strict, m, m.dar[8 + r])
    case AbsW =>
      (match Fetch(e, strict, m)
       case None => None
       case Some(f) => Some(Resolved(InMemory(Sext16(f.word) % 0x1_0000_0000), f.m)))
    case AbsL =>
      (match FetchLong(e, strict, m)
       case None => None
       case Some(p) => Some(Resolved(InMemory(p.0), p.1)))
    case PcDisp =>
      (match Fetch(e, strict, m)
       case None => None
       case Some(f) => Some(Resolved(InMemory(Add32(m.pc, Sext16(f.word))), f.m)))
    case PcIndex => FetchIndexed(e, strict, m, m.pc)
    case Imm =>
      if size == Long then
        match FetchLong(e, strict, m)
        case None => None
        case Some(p) => Some(Resolved(Immediate(p.0), p.1))
      else
        match Fetch(e, strict, m)
        case None => None
        case Some(f) => Some(Resolved(Immediate(if size == Byte then f.word % 0x100 else f.word), f.m))
  }

  /** `read_resolved_ea`. */
  function Load(e: Env, strict: bool, m: M, loc: Loc, size: Size): (r: Option<u32>)
    requires Ok(e, m) && (loc.InRegister? ==> loc.i < 16)
  {
    match loc
    case InRegister(i) => Some(Masked(m.dar[i], size))
    case Immediate(v) => Some(Masked(v, size))
    case InMemory(a) => if Reaches(e, strict, a, size) then Some(ReadMem(e, m.mem, a, size)) else None
  }

  /** `write_resolved_ea`. */
  function Store(e: Env, strict: bool, m: M, loc: Loc, size: Size, v: u32): (r: Option<M>)
    requires Ok(e, m) && (loc.InRegister? ==> loc.i < 16)
    ensures r.Some? ==> Ok(e, r.value)
  {
    match loc
    case InRegister(i) => Some(m.(dar := m.dar[i := Merge(m.dar[i], v, size)]))
    case Immediate(_) => None
    case InMemory(a) =>
      if Reaches(e, strict, a, size) then Some(m.(mem := WriteMem(e, m.mem, a, size, v))) else None
  }

  datatype Operand = Operand(loc: Loc, value: u32, m: M)

  /** Resolve, then read. */
  function ReadEa(e: Env, strict: bool, m: M, ea: Ea, size: Size): (r: Option<Operand>)
    requires Ok(e, m)
    ensures r.Some? ==> r.value.m.mem == m.mem
    ensures r.Some? ==> Ok(e, r.value.m) && (r.value.loc.InRegister? ==> r.value.loc.i < 16)
  {
    match Resolve(e, strict, m, ea, size)
    case None => None
    case Some(x) =>
      match Load(e, strict, x.m, x.loc, size)
      case None => None
      case Some(v) => Some(Operand(x.loc, v, x.m))
  }

  /** `get_ea_address`. */
  function AddressOf(e: Env, strict: bool, m: M, ea: Ea): (r: Option<(u32, M)>)
    requires Ok(e, m) && ea.IsControl()
    ensures r.Some? ==> r.value.1.mem == m.mem
    ensures r.Some? ==> Ok(e, r.value.1)
  {
    match Resolve(e, strict, m, ea, Long)
    case None => None
    case Some(x) => Some((x.loc.a, x.m))
  }

  /** `push_32`. */
  function Push(e: Env, strict: bool, m: M, v: u32): (r: Option<M>)
    requires Ok(e, m)
    ensures r.Some? ==> Ok(e, r.value)
  {
    var sp := Sub32(m.dar[15], 4);
    Store(e, strict, m.(dar := m.dar[15 := sp]), InMemory(sp), Long, v)
  }

  /** `pull_32`. */
  function Pull(e: Env, strict: bool, m: M): (r: Option<(u32, M)>)
    requires Ok(e, m)
    ensures r.Some? ==> Ok(e, r.value.1)
  {
    match Load(e, strict, m, InMemory(m.dar[15]), Long)
    case None => None
    case Some(v) => Some((v, m.(dar := m.dar[15 := Add32(m.dar[15], 4)])))
  }

  // ------------------------------------------------------------ instructions

  function ExecMove(e: Env, strict: bool, m: M, size: Size, src: Ea, dst: Ea): (r: Option<M>)
    requires Ok(e, m)
    ensures r.Some? ==> Ok(e, r.value)
  {
    match ReadEa(e, strict, m, src, size)
    case None => None
    case Some(s) =>
      if dst.AddrReg? then Some(WithA(s.m, dst.r, SignExtended(s.value, size)))
      else
        match Resolve(e, strict, s.m, dst, size)
        case None => None
        case Some(d) =>
          match Store(e, strict, d.m, d.loc, size, s.value)
          case None => None
          case Some(w) => Some(w.(flags := LogicFlags(e.alu, w.flags, s.value, size)))
  }

  /** ADD and SUB mask Dn to the operation size, the others pass it whole. */
  function DnOperand(op: BinaryOp, v: u32, size: Size): u32 {
    if op == Add || op == Sub then Masked(v, size) else v
  }

  function ExecAluToReg(e: Env, strict: bool, m: M, op: BinaryOp, size: Size, src: Ea, to: Reg): (r: Option<M>)
    requires Ok(e, m)
    ensures r.Some? ==> Ok(e, r.value)
  {
    match ReadEa(e, strict, m, src, size)
    case None => None
    case Some(s) =>
      var was := s.m.dar[to];
      var dst := DnOperand(op, was, size);
      var result := Compute(op, s.value, dst);
      Some(s.m.(dar := if op == Cmp then s.m.dar else s.m.dar[to := Merge(was, result, size)],
                flags := OpFlags(e.alu, op, s.m.flags, s.value, dst, result, size)))
  }

  /** Read-modify-write of one operand with a source already in hand. */
  function Modify(e: Env, strict: bool, m: M, op: BinaryOp, size: Size, src: u32, dst: Ea): (r: Option<M>)
    requires Ok(e, m)
    ensures r.Some? ==> Ok(e, r.value)
  {
    match ReadEa(e, strict, m, dst, size)
    case None => None
    case Some(d) =>
      var result := Compute(op, src, d.value);
      var w := if op == Cmp then Some(d.m) else Store(e, strict, d.m, d.loc, size, Masked(result, size));
      match w
      case None => None
      case Some(n) => Some(n.(flags := OpFlags(e.alu, op, n.flags, src, d.value, result, size)))
  }

  function ExecAluAddr(e: Env, strict: bool, m: M, op: AddrOp, size: Size, src: Ea, to: Reg): (r: Option<M>)
    requires Ok(e, m)
    ensures r.Some? ==> Ok(e, r.value)
  {
    match ReadEa(e, strict, m, src, size)
    case None => None
    case Some(s) =>
      var v, dst := SignExtended(s.value, size), s.m.dar[8 + to];
      match op
      case Adda => Some(WithA(s.m, to, Add32(dst, v)))
      case Suba => Some(WithA(s.m, to, Sub32(dst, v)))
      case Cmpa => Some(s.m.(flags := CmpFlags(e.alu, s.m.flags, v, dst, Sub32(dst, v), Long)))
  }

  function ExecAluImm(e: Env, strict: bool, m: M, op: BinaryOp, size: Size, dst: Ea): (r: Option<M>)
    requires Ok(e, m)
    ensures r.Some? ==> Ok(e, r.value)
  {
    match Resolve(e, strict, m, Imm, size)
    case None => None
    case Some(i) => Modify(e, strict, i.m, op, size, i.loc.v, dst)
  }

  function ExecTst(e: Env, strict: bool, m: M, size: Size, ea: Ea): (r: Option<M>)
    requires Ok(e, m)
    ensures r.Some? ==> Ok(e, r.value)
  {
    match ReadEa(e, strict, m, ea, size)
    case None => None
    case Some(x) => Some(x.m.(flags := LogicFlags(e.alu, x.m.flags, x.value, size)))
  }

  /** The 68000 reads its operand first; the others only write. */
  function ExecClr(e: Env, strict: bool, m: M, size: Size, ea: Ea): (r: Option<M>)
    requires Ok(e, m)
    ensures r.Some? ==> Ok(e, r.value)
  {
    match Resolve(e, strict, m, ea, size)
    case None => None
    case Some(x) =>
      match Store(e, strict, x.m, x.loc, size, 0)
      case None => None
      case Some(n) => Some(n.(flags := Cleared(n.flags)))
  }

  function ExecNeg(e: Env, strict: bool, m: M, size: Size, ea: Ea): (r: Option<M>)
    requires Ok(e, m)
    ensures r.Some? ==> Ok(e, r.value)
  {
    match ReadEa(e, strict, m, ea, size)
    case None => None
    case Some(x) =>
      var result := Sub32(0, x.value);
      match Store(e, strict, x.m, x.loc, size, Masked(result, size))
      case None => None
      case Some(n) => Some(n.(flags := SubFlags(e.alu, n.flags, x.value, 0, result, size)))
  }

  function ExecNot(e: Env, strict: bool, m: M, size: Size, ea: Ea): (r: Option<M>)
    requires Ok(e, m)
    ensures r.Some? ==> Ok(e, r.value)
  {
    match ReadEa(e, strict, m, ea, size)
    case None => None
    case Some(x) =>
      var result := Masked(0xFFFF_FFFF - x.value, size);
      match Store(e, strict, x.m, x.loc, size, result)
      case None => None
      case Some(n) => Some(n.(flags := LogicFlags(e.alu, n.flags, result, size)))
  }

  /** The bit number, from a data register or an extension word. */
  function BitNumber(e: Env, strict: bool, m: M, bit: BitSource): (r: Option<(nat, M)>)
    requires Ok(e, m)
    ensures r.Some? ==> Ok(e, r.value.1)
  {
    match bit
    case FromRegister(r) => Some((m.dar[r], m))
    case FromExtension =>
      match Fetch(e, strict, m)
      case None => None
      case Some(f) => Some((f.word, f.m))
  }

  function ExecBitMem(e: Env, strict: bool, m: M, op: BitOp, bit: BitSource, ea: Ea): (r: Option<M>)
    requires Ok(e, m)
    ensures r.Some? ==> Ok(e, r.value)
  {
    match BitNumber(e, strict, m, bit)
    case None => None
    case Some(b) =>
      match ReadEa(e, strict, b.1, ea, Byte)
      case None => None
      case Some(x) =>
        var k := b.0 % 8;
        var flagged := x.m.(flags := BitFlags(x.m.flags, x.value, k));
        if op == Test then Some(flagged)
        else Store(e, strict, flagged, x.loc, Byte, ApplyBit(op, x.value, k) % 0x100)
  }

  function ExecBitReg(e: Env, strict: bool, m: M, op: BitOp, reg: Reg): (r: Option<M>)
    requires Ok(e, m)
    ensures r.Some? ==> Ok(e, r.value)
  {
    match Fetch(e, strict, m)
    case None => None
    case Some(f) =>
      var k, v := f.word % 32, f.m.dar[reg];
      Some(f.m.(flags := BitFlags(f.m.flags, v, k), dar := f.m.dar[reg := ApplyBit(op, v, k) % 0x1_0000_0000]))
  }

  function ExecCmpM(e: Env, strict: bool, m: M, size: Size, ay: Reg, ax: Reg): (r: Option<M>)
    requires Ok(e, m)
    ensures r.Some? ==> Ok(e, r.value)
  {
    match ReadEa(e, strict, m, AnPostInc(ay), size)
    case None => None
    case Some(s) =>
      match ReadEa(e, strict, s.m, AnPostInc(ax), size)
      case None => None
      case Some(d) =>
        Some(d.m.(flags := CmpFlags(e.alu, d.m.flags, s.value, d.value, Sub32(d.value, s.value), size)))
  }

  function ExecLink(e: Env, strict: bool, m: M, reg: Reg): (r: Option<M>)
    requires Ok(e, m)
    ensures r.Some? ==> Ok(e, r.value)
  {
    match Fetch(e, strict, m)
    case None => None
    case Some(f) =>
      match Push(e, strict, f.m, f.m.dar[8 + reg])
      case None => None
      case Some(p) =>
        var framed := WithA(p, reg, p.dar[15]);
        Some(framed.(dar := framed.dar[15 := Add32(framed.dar[15], Sext16(f.word))]))
  }

  function ExecUnlk(e: Env, strict: bool, m: M, reg: Reg): (r: Option<M>)
    requires Ok(e, m)
    ensures r.Some? ==> Ok(e, r.value)
  {
    match Pull(e, strict, m.(dar := m.dar[15 := m.dar[8 + reg]]))
    case None => None
    case Some(p) => Some(WithA(p.1, reg, p.0))
  }

  function ExecCall(e: Env, strict: bool, m: M, target: u32, m': M): (r: Option<M>)
    requires Ok(e, m) && Ok(e, m')
    ensures r.Some? ==> Ok(e, r.value)
  {
    match Push(e, strict, m', m'.pc)
    case None => None
    case Some(p) => Some(p.(pc := target))
  }

  function ExecBsr(e: Env, strict: bool, m: M, displacement: int, length: nat): (r: Option<M>)
    requires Ok(e, m)
    ensures r.Some? ==> Ok(e, r.value)
  {
    if length == 4 then
      match Fetch(e, strict, m)
      case None => None
      case Some(f) => ExecCall(e, strict, m, Add32(m.pc, Sext16(f.word)), f.m)
    else ExecCall(e, strict, m, Add32(m.pc, displacement), m)
  }

  function ExecBranch(e: Env, strict: bool, m: M, condition: nat): (r: Option<M>)
    requires Ok(e, m)
    ensures r.Some? ==> Ok(e, r.value)
  {
    match Fetch(e, strict, m)
    case None => None
    case Some(f) =>
      if condition == 0 || e.alu.holds(m.flags, condition) then Some(f.m.(pc := Add32(m.pc, Sext16(f.word))))
      else Some(f.m)
  }

  /** The displacement counts from the displacement word. */
  function ExecDbcc(e: Env, strict: bool, m: M, condition: nat, reg: Reg): (r: Option<M>)
    requires Ok(e, m)
    ensures r.Some? ==> Ok(e, r.value)
  {
    match Fetch(e, strict, m)
    case None => None
    case Some(f) =>
      if e.alu.holds(m.flags, condition) then Some(f.m)
      else
        var counter := Sub32(m.dar[reg], 1) % 0x1_0000;
        var counted := f.m.(dar := f.m.dar[reg := Merge(m.dar[reg], counter, Word)]);
        if counter != 0xFFFF then Some(counted.(pc := Add32(f.m.pc, Sext16(f.word) - 2))) else Some(counted)
  }

  // ------------------------------------------------------------------- MOVEM

  /** MOVEM.L list,-(An) from bit `i` on: A7 first, each register stored at once.
      A base in the list is stored less one transfer from the 68020 on. */
  function MovemDown(e: Env, strict: bool, m: M, mask: u16, base: Reg, i: nat, a: u32): (r: Option<(M, u32)>)
    requires Ok(e, m) && i <= 16
    ensures r.Some? ==> Ok(e, r.value.0)
    decreases 16 - i
  {
    if i == 16 then Some((m, a))
    else if !BitOf(mask, i) then MovemDown(e, strict, m, mask, base, i + 1, a)
    else
      var next := Sub32(a, 4);
      var v := if 15 - i == 8 + base && !e.pre020 then Sub32(m.dar[15 - i], 4) else m.dar[15 - i];
      match Store(e, strict, m, InMemory(next), Long, v)
      case None => None
      case Some(n) => MovemDown(e, strict, n, mask, base, i + 1, next)
  }

  /** MOVEM (An)+,list from register `i` on. */
  function MovemUp(e: Env, strict: bool, m: M, mask: u16, size: Size, i: nat, a: u32): (r: Option<(M, u32)>)
    requires Ok(e, m) && i <= 16
    ensures r.Some? ==> r.value.0.mem == m.mem
    ensures r.Some? ==> Ok(e, r.value.0)
    decreases 16 - i
  {
    if i == 16 then Some((m, a))
    else if !BitOf(mask, i) then MovemUp(e, strict, m, mask, size, i + 1, a)
    else
      match Load(e, strict, m, InMemory(a), size)
      case None => None
      case Some(v) =>
        MovemUp(e, strict, m.(dar := m.dar[i := SignExtended(v, size)]), mask, size, i + 1,
                Add32(a, size.Bytes()))
  }

  function ExecMovemDown(e: Env, strict: bool, m: M, base: Reg): (r: Option<M>)
    requires Ok(e, m)
    ensures r.Some? ==> Ok(e, r.value)
  {
    match Fetch(e, strict, m)
    case None => None
    case Some(f) =>
      match MovemDown(e, strict, f.m, f.word, base, 0, f.m.dar[8 + base])
      case None => None
      case Some(p) => Some(WithA(p.0, base, p.1))
  }

  function ExecMovemUp(e: Env, strict: bool, m: M, size: Size, base: Reg): (r: Option<M>)
    requires Ok(e, m)
    ensures r.Some? ==> Ok(e, r.value)
  {
    match Fetch(e, strict, m)
    case None => None
    case Some(f) =>
      match MovemUp(e, strict, f.m, f.word, size, 0, f.m.dar[8 + base])
      case None => None
      case Some(p) => Some(WithA(p.0, base, p.1))
  }

  // ------------------------------------------------------------ the dispatcher

  /** One instruction after its opcode fetch. None: an address error, a full
      extension word, or (strict) an access outside the window. */
  function Exec(e: Env, strict: bool, m: M, op: MemOp): (r: Option<M>)
    requires Ok(e, m) && Decodable(op)
    ensures r.Some? ==> Ok(e, r.value)
  {
    match op
    case Move(size, src, dst) => ExecMove(e, strict, m, size, src, dst)
    case MovemWordPostInc(base) => ExecMovemUp(e, strict, m, Word, base)
    case MovemLongPostInc(base) => ExecMovemUp(e, strict, m, Long, base)
    case MovemLongPreDec(base) => ExecMovemDown(e, strict, m, base)
    case BitImmDataReg(o, reg) => ExecBitReg(e, strict, m, o, reg)
    case Link(reg) => ExecLink(e, strict, m, reg)
    case Unlk(reg) => ExecUnlk(e, strict, m, reg)
    case AluToReg(o, size, src, to) => ExecAluToReg(e, strict, m, o, size, src, to)
    case AluToMem(o, size, from, dst) => Modify(e, strict, m, o, size, DnOperand(o, m.dar[from], size), dst)
    case AluAddr(o, size, src, to) => ExecAluAddr(e, strict, m, o, size, src, to)
    case AluImm(o, size, dst) => ExecAluImm(e, strict, m, o, size, dst)
    case AddqSubq(data, size, ea, isSub) => Modify(e, strict, m, if isSub then Sub else Add, size, data, ea)
    case Tst(size, ea) => ExecTst(e, strict, m, size, ea)
    case Clr(size, ea) => ExecClr(e, strict, m, size, ea)
    case Neg(size, ea) => ExecNeg(e, strict, m, size, ea)
    case Not(size, ea) => ExecNot(e, strict, m, size, ea)
    case BitMem(o, bit, ea) => ExecBitMem(e, strict, m, o, bit, ea)
    case CmpM(size, ay, ax) => ExecCmpM(e, strict, m, size, ay, ax)
    case Lea(reg, ea) =>
      (match AddressOf(e, strict, m, ea)
       case None => None
       case Some(p) => Some(WithA(p.1, reg, p.0)))
    case Pea(ea) =>
      (match AddressOf(e, strict, m, ea)
       case None => None
       case Some(p) => Push(e, strict, p.1, p.0))
    case Jmp(ea) =>
      (match AddressOf(e, strict, m, ea)
       case None => None
       case Some(p) => Some(p.1.(pc := p.0)))
    case Jsr(ea) =>
      (match AddressOf(e, strict, m, ea)
       case None => None
       case Some(p) => ExecCall(e, strict, m, p.0, p.1))
    case Rts =>
      (match Pull(e, strict, m)
       case None => None
       case Some(p) => Some(p.1.(pc := p.0)))
    case Bsr(displacement, length) => ExecBsr(e, strict, m, displacement, length)
    case BranchWord(condition) => ExecBranch(e, strict, m, condition)
    case Dbcc(condition, reg) => ExecDbcc(e, strict, m, condition, reg)
  }
}
