/** The guest address space as a byte array: 24- or 32-bit address buses,
    big-endian accesses that wrap at the top, and blocks of bytes. */
module BusMemory {
  import opened Words

  datatype Bus = Bus24 | Bus32 {
    function Size(): nat {
      if Bus24? then 0x100_0000 else 0x1_0000_0000
    }

    /** The physical index of a (possibly wrapped) address. */
    function At(a: int): nat
      ensures At(a) < Size()
    {
      if Bus24? then a % 0x100_0000 else a % 0x1_0000_0000
    }

    predicate Holds(mem: seq<u8>) {
      |mem| == Size()
    }
  }

  function Bytes16(w: u16): (b: seq<u8>)
    ensures |b| == 2
  {
    [w / 0x100, w % 0x100]
  }

  function Bytes32(l: u32): (b: seq<u8>)
    ensures |b| == 4
  {
    Bytes16(l / 0x1_0000) + Bytes16(l % 0x1_0000)
  }

  function Zeros(n: nat): (z: seq<u8>)
    ensures |z| == n
  {
    seq<u8>(n, _ => 0)
  }

  function Read8(bus: Bus, mem: seq<u8>, a: int): u8
    requires bus.Holds(mem)
  {
    mem[bus.At(a)]
  }

  /** The bytes `[base, base + n)`. */
  function Block(bus: Bus, mem: seq<u8>, base: int, n: nat): (b: seq<u8>)
    requires bus.Holds(mem)
    ensures |b| == n
  {
    seq<u8>(n, i requires 0 <= i < n => Read8(bus, mem, base + i))
  }

  function Limit(n: nat): (l: nat)
    ensures l > 0
  {
    if n == 0 then 1 else 0x100 * Limit(n - 1)
  }

  /** The number a big-endian byte string stands for. */
  function Value(bytes: seq<u8>): (v: nat)
    ensures v < Limit(|bytes|)
  {
    if bytes == [] then 0 else 0x100 * Value(bytes[..|bytes| - 1]) + bytes[|bytes| - 1]
  }

  function Read16(bus: Bus, mem: seq<u8>, a: int): u16
    requires bus.Holds(mem)
  {
    Value(Block(bus, mem, a, 2))
  }

  function Read32(bus: Bus, mem: seq<u8>, a: int): u32
    requires bus.Holds(mem)
  {
    Value(Block(bus, mem, a, 4))
  }

  /** `block` laid over memory from `base` upwards. */
  function Write(bus: Bus, mem: seq<u8>, base: int, block: seq<u8>): (m: seq<u8>)
    requires bus.Holds(mem)
    ensures bus.Holds(m)
  {
    seq(|mem|, i requires 0 <= i < |mem| =>
      if bus.At(i - base) < |block| then block[bus.At(i - base)] else mem[i])
  }

  /** Whether index `i` is one of the `n` that start at `base`. */
  predicate Covers(bus: Bus, base: int, n: nat, i: int) {
    bus.At(i - base) < n
  }

  lemma AtShift(bus: Bus, a: int, d: int)
    ensures bus.At(bus.At(a) + d) == bus.At(a + d)
  {
    if bus.Bus24? {
      Shift24(a, d);
    } else {
      Shift32(a, d);
    }
  }

  lemma Shift24(a: int, d: int)
    ensures (a % 0x100_0000 + d) % 0x100_0000 == (a + d) % 0x100_0000
  {
  }

  lemma Shift32(a: int, d: int)
    ensures (a % 0x1_0000_0000 + d) % 0x1_0000_0000 == (a + d) % 0x1_0000_0000
  {
  }

  lemma AtMinus(bus: Bus, x: int, d: nat)
    requires d <= bus.Size()
    ensures bus.At(x - d) == if bus.At(x) >= d then bus.At(x) - d else bus.At(x) - d + bus.Size()
  {
    if bus.Bus24? {
      Minus24(x, d);
    } else {
      Minus32(x, d);
    }
  }

  lemma Minus24(x: int, d: nat)
    requires d <= 0x100_0000
    ensures (x - d) % 0x100_0000
            == if x % 0x100_0000 >= d then x % 0x100_0000 - d else x % 0x100_0000 - d + 0x100_0000
  {
  }

  lemma Minus32(x: int, d: nat)
    requires d <= 0x1_0000_0000
    ensures (x - d) % 0x1_0000_0000
            == if x % 0x1_0000_0000 >= d then x % 0x1_0000_0000 - d else x % 0x1_0000_0000 - d + 0x1_0000_0000
  {
  }

  lemma WriteAt(bus: Bus, mem: seq<u8>, base: int, block: seq<u8>, a: int)
    requires bus.Holds(mem)
    ensures Read8(bus, Write(bus, mem, base, block), a)
            == if bus.At(a - base) < |block| then block[bus.At(a - base)] else Read8(bus, mem, a)
  {
    AtShift(bus, a, -base);
    assert bus.At(bus.At(a) - base) == bus.At(a - base);
  }

  lemma AtSmall(bus: Bus, k: nat)
    requires k < bus.Size()
    ensures bus.At(k) == k
  {
  }

  lemma BlockReadsBack(bus: Bus, mem: seq<u8>, base: int, block: seq<u8>)
    requires bus.Holds(mem) && |block| <= bus.Size()
    ensures Block(bus, Write(bus, mem, base, block), base, |block|) == block
  {
    var m := Write(bus, mem, base, block);
    forall i: nat | i < |block|
      ensures Read8(bus, m, base + i) == block[i]
    {
      WriteAt(bus, mem, base, block, base + i);
      AtSmall(bus, i);
      assert base + i - base == i;
    }
  }

  lemma ValueOf16(w: u16)
    ensures Value(Bytes16(w)) == w
  {
    var b := Bytes16(w);
    assert b[..1] == [w / 0x100] && b[..1][..0] == [];
  }

  lemma ValueAppends(high: seq<u8>, low: seq<u8>)
    requires |low| == 2
    ensures Value(high + low) == 0x1_0000 * Value(high) + Value(low)
  {
    var all := high + low;
    var init := all[..|all| - 1];
    assert init[..|init| - 1] == high;
    assert low[..1] == [low[0]] && low[..1][..0] == [];
  }

  lemma ValueOf32(l: u32)
    ensures Value(Bytes32(l)) == l
  {
    ValueAppends(Bytes16(l / 0x1_0000), Bytes16(l % 0x1_0000));
    ValueOf16(l / 0x1_0000);
    ValueOf16(l % 0x1_0000);
  }

  lemma SubBlock(bus: Bus, mem: seq<u8>, base: int, n: nat, at: nat, k: nat)
    requires bus.Holds(mem) && at + k <= n
    ensures Block(bus, mem, base + at, k) == Block(bus, mem, base, n)[at..at + k]
  {
    var outer, inner := Block(bus, mem, base, n), Block(bus, mem, base + at, k);
    forall i: nat | i < k
      ensures inner[i] == outer[at..at + k][i]
    {
      assert base + at + i == base + (at + i);
    }
  }

  lemma Word16ReadsBack(bus: Bus, mem: seq<u8>, base: int, n: nat, at: nat, w: u16)
    requires bus.Holds(mem) && at + 2 <= n
    requires Block(bus, mem, base, n)[at..at + 2] == Bytes16(w)
    ensures Read16(bus, mem, base + at) == w
  {
    SubBlock(bus, mem, base, n, at, 2);
    ValueOf16(w);
  }

  lemma Word32ReadsBack(bus: Bus, mem: seq<u8>, base: int, n: nat, at: nat, l: u32)
    requires bus.Holds(mem) && at + 4 <= n
    requires Block(bus, mem, base, n)[at..at + 4] == Bytes32(l)
    ensures Read32(bus, mem, base + at) == l
  {
    SubBlock(bus, mem, base, n, at, 4);
    ValueOf32(l);
  }

  /** A push below an already pushed block extends the block downwards. */
  lemma PushExtends(bus: Bus, mem: seq<u8>, base: int, low: seq<u8>, high: seq<u8>)
    requires bus.Holds(mem) && |low| + |high| <= bus.Size()
    ensures Write(bus, Write(bus, mem, base, high), base - |low|, low) == Write(bus, mem, base - |low|, low + high)
  {
    var a := Write(bus, Write(bus, mem, base, high), base - |low|, low);
    var b := Write(bus, mem, base - |low|, low + high);
    forall i | 0 <= i < |mem|
      ensures a[i] == b[i]
    {
      PushOffsets(bus, i, base, |low|, |high|);
    }
  }

  lemma PushOffsets(bus: Bus, i: int, base: int, low: nat, high: nat)
    requires low + high <= bus.Size()
    ensures var hi, lo := bus.At(i - base), bus.At(i - (base - low));
            if lo < low then true
            else if lo < low + high then hi == lo - low
            else hi >= high
  {
    var x := i - (base - low);
    AtMinus(bus, x, low);
    assert i - base == x - low;
  }

  /** A block keeps its bytes when nothing it covers changes. */
  lemma BlockUntouched(bus: Bus, mem: seq<u8>, mem': seq<u8>, base: int, n: nat)
    requires bus.Holds(mem) && bus.Holds(mem') && n <= bus.Size()
    requires forall i :: 0 <= i < bus.Size() && Covers(bus, base, n, i) ==> mem'[i] == mem[i]
    ensures Block(bus, mem', base, n) == Block(bus, mem, base, n)
  {
    var was, now := Block(bus, mem, base, n), Block(bus, mem', base, n);
    forall k: nat | k < n
      ensures now[k] == was[k]
    {
      var i := bus.At(base + k);
      AtShift(bus, base + k, -base);
      AtSmall(bus, k);
      assert i + -base == i - base && base + k + -base == k;
      assert bus.At(i - base) == k;
      assert Covers(bus, base, n, i);
      assert now[k] == Read8(bus, mem', base + k) && was[k] == Read8(bus, mem, base + k);
    }
  }

  /** Overwriting part of a block that was just written. */
  lemma Patch(bus: Bus, mem: seq<u8>, base: int, block: seq<u8>, at: nat, part: seq<u8>)
    requires bus.Holds(mem) && at + |part| <= |block| <= bus.Size()
    ensures Write(bus, Write(bus, mem, base, block), base + at, part)
            == Write(bus, mem, base, block[..at] + part + block[at + |part|..])
  {
    var patched := block[..at] + part + block[at + |part|..];
    var a := Write(bus, Write(bus, mem, base, block), base + at, part);
    var b := Write(bus, mem, base, patched);
    forall i | 0 <= i < |mem|
      ensures a[i] == b[i]
    {
      PatchOffsets(bus, i, base, at, |part|, |block|);
    }
  }

  lemma PatchOffsets(bus: Bus, i: int, base: int, at: nat, part: nat, block: nat)
    requires at + part <= block <= bus.Size()
    ensures var outer, inner := bus.At(i - base), bus.At(i - (base + at));
            (inner < part <==> at <= outer < at + part) && (inner < part ==> inner == outer - at)
  {
    AtMinus(bus, i - base, at);
    assert i - (base + at) == i - base - at;
  }

  /** Writing back what a block already holds changes nothing. */
  lemma WriteBack(bus: Bus, mem: seq<u8>, base: int, n: nat)
    requires bus.Holds(mem) && n <= bus.Size()
    ensures Write(bus, mem, base, Block(bus, mem, base, n)) == mem
  {
    var a := Write(bus, mem, base, Block(bus, mem, base, n));
    forall i | 0 <= i < |mem|
      ensures a[i] == mem[i]
    {
      var k := bus.At(i - base);
      AtShift(bus, i - base, base);
      assert i - base + base == i && bus.At(k + base) == bus.At(i) == i;
      if k < n {
        assert Block(bus, mem, base, n)[k] == Read8(bus, mem, base + k);
      }
    }
  }

  /** Outside the block that was written, memory is as it was. */
  lemma WriteElsewhere(bus: Bus, mem: seq<u8>, base: int, block: seq<u8>, i: nat)
    requires bus.Holds(mem) && i < bus.Size()
    requires !Covers(bus, base, |block|, i)
    ensures Write(bus, mem, base, block)[i] == mem[i]
  {
  }

  // --------------------------------------------------------- wrapped addresses

  lemma Multiples24(a: int, k: int)
    ensures (a + 0x100_0000 * k) % 0x100_0000 == a % 0x100_0000
  {
  }

  /** Wrapping an address to 32 bits first never changes the byte it names. */
  lemma AtWraps(bus: Bus, a: int, q: int)
    ensures bus.At(a + 0x1_0000_0000 * q) == bus.At(a)
  {
    if bus.Bus24? {
      Multiples24(a, 0x100 * q);
    } else {
      Multiples32(a, q);
    }
  }

  lemma WriteWraps(bus: Bus, mem: seq<u8>, x: int, block: seq<u8>)
    requires bus.Holds(mem)
    ensures Write(bus, mem, x % 0x1_0000_0000, block) == Write(bus, mem, x, block)
  {
    hide Bus.At;
    var a, b := Write(bus, mem, x % 0x1_0000_0000, block), Write(bus, mem, x, block);
    forall i | 0 <= i < |mem|
      ensures a[i] == b[i]
    {
      AtWraps(bus, i - x, x / 0x1_0000_0000);
      assert i - x % 0x1_0000_0000 == i - x + 0x1_0000_0000 * (x / 0x1_0000_0000);
    }
  }

  lemma BlockWraps(bus: Bus, mem: seq<u8>, x: int, n: nat)
    requires bus.Holds(mem)
    ensures Block(bus, mem, x % 0x1_0000_0000, n) == Block(bus, mem, x, n)
  {
    hide Bus.At;
    var a, b := Block(bus, mem, x % 0x1_0000_0000, n), Block(bus, mem, x, n);
    forall i: nat | i < n
      ensures a[i] == b[i]
    {
      var y := x % 0x1_0000_0000;
      AtWraps(bus, y + i, x / 0x1_0000_0000);
      assert y + i + 0x1_0000_0000 * (x / 0x1_0000_0000) == x + i;
      assert a[i] == Read8(bus, mem, y + i) && b[i] == Read8(bus, mem, x + i);
    }
  }

  /** A word written just above a block extends it upwards. */
  lemma AppendAbove(bus: Bus, mem: seq<u8>, sp: u32, low: seq<u8>, high: seq<u8>)
    requires bus.Holds(mem) && |low| + |high| < 0x100
    ensures Write(bus, Write(bus, mem, sp, low), sp + |low|, high) == Write(bus, mem, sp, low + high)
  {
    var n := |low| + |high|;
    var was := Block(bus, mem, sp, n);
    WriteBack(bus, mem, sp, n);
    Patch(bus, mem, sp, was, 0, low);
    var one := was[..0] + low + was[|low|..];
    Patch(bus, mem, sp, one, |low|, high);
    assert sp + 0 == sp && one[..|low|] + high + one[n..] == low + high;
  }
}
