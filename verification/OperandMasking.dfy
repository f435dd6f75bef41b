/** Masking an operand to its size before or after an operation: arithmetic and
    bitwise results agree in the bits that count. */
module OperandMasking {
  import opened Words
  import opened BusMemory
  import opened MemOps

  lemma Coarser8(x: int)
    ensures x % 0x1_0000_0000 % 0x100 == x % 0x100
  {
  }

  lemma Coarser16(x: int)
    ensures x % 0x1_0000_0000 % 0x1_0000 == x % 0x1_0000
  {
  }

  lemma Multiples8(a: int, k: int)
    ensures (a + 0x100 * k) % 0x100 == a % 0x100
  {
  }

  lemma Multiples16(a: int, k: int)
    ensures (a + 0x1_0000 * k) % 0x1_0000 == a % 0x1_0000
  {
  }

  lemma Difference8(s: u32, was: u32)
    ensures Sub32(was % 0x100, s) % 0x100 == Sub32(was, s) % 0x100
  {
    var low: int, all: int := was % 0x100, was;
    Coarser8(all - s);
    Coarser8(low - s);
    Multiples8(low - s, all / 0x100);
    assert all - s == low - s + 0x100 * (all / 0x100);
  }

  lemma Difference16(s: u32, was: u32)
    ensures Sub32(was % 0x1_0000, s) % 0x1_0000 == Sub32(was, s) % 0x1_0000
  {
    var low: int, all: int := was % 0x1_0000, was;
    Coarser16(all - s);
    Coarser16(low - s);
    Multiples16(low - s, all / 0x1_0000);
    assert all - s == low - s + 0x1_0000 * (all / 0x1_0000);
  }

  lemma DifferenceMasked(s: u32, was: u32, size: Size)
    ensures Sub32(Masked(was, size), s) % size.Limit() == Sub32(was, s) % size.Limit()
  {
    hide Sub32;
    match size
    case Byte => Difference8(s, was);
    case Word => Difference16(s, was);
    case Long => assert Masked(was, size) == was;
  }

  lemma MaskedTwice(v: u32, size: Size)
    ensures Masked(Masked(v, size), size) == Masked(v, size)
  {
  }

  lemma SumMasked(s: u32, was: u32, size: Size)
    ensures Add32(s, Masked(was, size)) % size.Limit() == Add32(s, was) % size.Limit()
  {
    hide Add32;
    match size
    case Byte => Sum8(s, was);
    case Word => Sum16(s, was);
    case Long => assert Masked(was, size) == was;
  }

  lemma Sum8(s: u32, was: u32)
    ensures Add32(s, was % 0x100) % 0x100 == Add32(s, was) % 0x100
  {
    Coarser8(s + was % 0x100);
    Coarser8(s + was);
    Multiples8(s + was % 0x100, was / 0x100);
  }

  lemma Sum16(s: u32, was: u32)
    ensures Add32(s, was % 0x1_0000) % 0x1_0000 == Add32(s, was) % 0x1_0000
  {
    Coarser16(s + was % 0x1_0000);
    Coarser16(s + was);
    Multiples16(s + was % 0x1_0000, was / 0x1_0000);
  }

  /** ADDQ and SUBQ: masking the register first changes nothing. */
  lemma MaskedQuick(alu: Alu, isSub: bool, f: Flags, data: u32, was: u32, size: Size)
    ensures var op, d := if isSub then BinaryOp.Sub else Add, Masked(was, size);
            var r, r' := Compute(op, data, was), Compute(op, data, d);
            && OpFlags(alu, op, f, data, was, r, size) == OpFlags(alu, op, f, data, d, r', size)
            && Merge(was, r, size) == Merge(was, r', size)
  {
    hide Add32, Sub32;
    DifferenceMasked(data, was, size);
    SumMasked(data, was, size);
    MaskedTwice(was, size);
  }

  lemma HalfModulus(x: nat, bit: nat, p: nat)
    requires p > 0 && bit < 2
    ensures (2 * x + bit) % (2 * p) == 2 * (x % p) + bit
  {
    var q, r := x / p, x % p;
    assert x == p * q + r;
    assert 2 * x + bit == (2 * p) * q + (2 * r + bit);
    QuotientUnique(2 * p, q, 2 * r + bit);
  }

  lemma HalfRemainder(b: nat, p: nat)
    requires p > 0
    ensures b % (2 * p) % 2 == b % 2 && b % (2 * p) / 2 == b / 2 % p
  {
    HalfModulus(b / 2, b % 2, p);
    assert b == 2 * (b / 2) + b % 2;
  }

  /** The low bits of a bitwise result come from the low bits of its operands. */
  lemma {:induction false} BitwiseTruncates(op: BinaryOp, a: nat, b: nat, n: nat, k: nat)
    requires k <= n
    ensures Bitwise(op, a, b, n) % Pow2(k) == Bitwise(op, a, b, k)
    decreases k
  {
    if k > 0 {
      BitwiseTruncates(op, a / 2, b / 2, n - 1, k - 1);
      HalfModulus(Bitwise(op, a / 2, b / 2, n - 1), OneBit(op, a % 2, b % 2), Pow2(k - 1));
    }
  }

  lemma {:induction false} BitwiseOfLowBits(op: BinaryOp, a: nat, b: nat, k: nat)
    ensures Bitwise(op, a % Pow2(k), b % Pow2(k), k) == Bitwise(op, a, b, k)
    decreases k
  {
    if k > 0 {
      HalfRemainder(a, Pow2(k - 1));
      HalfRemainder(b, Pow2(k - 1));
      BitwiseOfLowBits(op, a / 2, b / 2, k - 1);
    }
  }

  lemma BitsMasked(op: BinaryOp, a: u32, a': u32, b: u32, b': u32, size: Size)
    requires a % size.Limit() == a' % size.Limit() && b % size.Limit() == b' % size.Limit()
    ensures Bits32(op, a, b) % size.Limit() == Bits32(op, a', b') % size.Limit()
  {
    Pow32();
    var k := 8 * size.Bytes();
    assert Pow2(k) == size.Limit();
    hide Pow2, Bitwise;
    BitwiseTruncates(op, a, b, 32, k);
    BitwiseTruncates(op, a', b', 32, k);
    BitwiseOfLowBits(op, a, b, k);
    BitwiseOfLowBits(op, a', b', k);
  }

  /** Masking Dn before or after the operation makes no difference to the
      result within the operation size, or to the flags. */
  lemma MaskedOperand(alu: Alu, op: BinaryOp, f: Flags, src: u32, was: u32, size: Size)
    ensures var d, d' := DnOperand(op, was, size), Masked(was, size);
            var r, r' := Compute(op, src, d), Compute(op, src, d');
            && OpFlags(alu, op, f, src, d, r, size) == OpFlags(alu, op, f, src, d', r', size)
            && Merge(was, r, size) == Merge(was, r', size)
  {
    hide Bits32, Add32, Sub32;
    MaskedTwice(was, size);
    DifferenceMasked(src, was, size);
    BitsMasked(op, src, src, was, Masked(was, size), size);
  }

  lemma LogicalResult(alu: Alu, op: BinaryOp, f: Flags, a: u32, b: u32, dst: u32, size: Size)
    requires (op == And || op == Or || op == Eor) && Masked(a, size) == Masked(b, size)
    ensures var r, r' := Compute(op, a, dst), Compute(op, b, dst);
            && Masked(r, size) == Masked(r', size)
            && OpFlags(alu, op, f, a, dst, r, size) == OpFlags(alu, op, f, b, dst, r', size)
  {
    hide Bits32;
    BitsMasked(op, a, b, dst, dst, size);
  }

  lemma ModifyUnfolds(e: Env, strict: bool, m: M, op: BinaryOp, size: Size, src: u32, dst: Ea, d: Operand)
    requires Ok(e, m) && ReadEa(e, strict, m, dst, size) == Some(d) && op != Cmp
    ensures var result := Compute(op, src, d.value);
            var w := Store(e, strict, d.m, d.loc, size, Masked(result, size));
            Modify(e, strict, m, op, size, src, dst)
            == if w.None? then None
               else Some(w.value.(flags := OpFlags(e.alu, op, w.value.flags, src, d.value, result, size)))
  {
    hide Compute, OpFlags, Masked, ReadEa, Store, Ok;
  }

  /** A logical operation on one operand sees only its source's low bits. */
  lemma LogicalSource(e: Env, strict: bool, m: M, op: BinaryOp, size: Size, a: u32, b: u32, dst: Ea)
    requires Ok(e, m) && (op == And || op == Or || op == Eor)
    requires Masked(a, size) == Masked(b, size)
    ensures Modify(e, strict, m, op, size, a, dst) == Modify(e, strict, m, op, size, b, dst)
  {
    hide Compute, OpFlags, Masked, ReadEa, Store, Ok;
    var d := ReadEa(e, strict, m, dst, size);
    if d.Some? {
      hide Modify;
      ModifyUnfolds(e, strict, m, op, size, a, dst, d.value);
      ModifyUnfolds(e, strict, m, op, size, b, dst, d.value);
      LogicalResult(e.alu, op, d.value.m.flags, a, b, d.value.value, size);
      var w := Store(e, strict, d.value.m, d.value.loc, size, Masked(Compute(op, a, d.value.value), size));
      if w.Some? {
        LogicalResult(e.alu, op, w.value.flags, a, b, d.value.value, size);
      }
    }
  }

  /** The same for Dn as the source of a memory destination. */
  lemma MaskedSource(e: Env, m: M, op: BinaryOp, size: Size, v: u32, dst: Ea)
    requires Ok(e, m) && op != Cmp
    ensures Modify(e, true, m, op, size, Masked(v, size), dst)
            == Modify(e, true, m, op, size, DnOperand(op, v, size), dst)
  {
    hide Modify;
    if op != Add && op != Sub {
      MaskedTwice(v, size);
      LogicalSource(e, true, m, op, size, Masked(v, size), v, dst);
    }
  }

  // ------------------------------------------------------- bits of a mask

  lemma Doubled(p: nat, h: nat)
    ensures p * (2 * h) == (2 * p) * h && p * (2 * h + 1) == (2 * p) * h + p
  {
  }

  lemma HalfQuotient(v: nat, p: nat)
    requires p > 0
    ensures v / (2 * p) == v / p / 2
  {
    var q: nat, r: nat := v / p, v % p;
    HalfOf(v, p, q, r, q / 2);
  }

  lemma HalfOf(v: nat, p: nat, q: nat, r: nat, h: nat)
    requires p > 0 && v == p * q + r && r < p && h == q / 2
    ensures v / (2 * p) == h
  {
    Doubled(p, h);
    if q == 2 * h {
      QuotientUnique(2 * p, h, r);
    } else {
      assert q == 2 * h + 1;
      QuotientUnique(2 * p, h, p + r);
    }
  }

  lemma NextQuotient(v: nat, i: nat)
    ensures v / Pow2(i) == 2 * (v / Pow2(i + 1)) + if BitOf(v, i) then 1 else 0
  {
    HalfQuotient(v, Pow2(i));
  }

  lemma {:induction false} NoHighBits(v: nat, i: nat, j: nat)
    requires i <= j && v / Pow2(i) == 0
    ensures v / Pow2(j) == 0 && !BitOf(v, j)
    decreases j - i
  {
    if i < j {
      NextQuotient(v, i);
      NoHighBits(v, i + 1, j);
    }
  }
}
