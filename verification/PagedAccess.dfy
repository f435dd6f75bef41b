/** Data and immediate accesses under an active MMU. An access that straddles a
    page is split into bus cycles; whatever the split, it is the big-endian
    sequence of byte accesses, each translated through its own page, up to the
    first refusal. A cycle that a fault handler completed (an armed read
    override, an armed write suppression) is taken from there, once. */
module PagedAccess {
  import opened Words
  import opened BusMemory

  // ------------------------------------------------------------ translation

  const TOP := 0x1_0000_0000

  /** TC as the page size depends on it: PS on the 68030, P on the 68040/060. */
  datatype Paging = Tc030(ps: nat) | Tc040(p: bool)

  /** `mmu_page_mask` plus one. */
  function PageSize(tc: Paging): (size: nat)
    ensures size >= 0x100
  {
    match tc
    case Tc030(ps) =>
      if ps <= 8 then 0x100 else if ps == 9 then 0x200 else if ps == 10 then 0x400 else if ps == 11 then 0x800
      else if ps == 12 then 0x1000 else if ps == 13 then 0x2000 else if ps == 14 then 0x4000 else 0x8000
    case Tc040(p) => if p then 0x2000 else 0x1000
  }

  /** What an access is for; the MMU may refuse one and grant another. */
  datatype Access = DataRead | DataWrite | Fetch

  /** The mapping, whatever the table walk computes it from: the first physical
      byte of the frame of a page, or a refusal. */
  datatype Mmu = Mmu(tc: Paging, frame: (u32, Access) -> Option<u32>)

  ghost predicate Maps(mmu: Mmu) {
    forall page: u32, kind: Access :: mmu.frame(page, kind).Some? ==>
      mmu.frame(page, kind).value + PageSize(mmu.tc) <= TOP
  }

  function Offset(mmu: Mmu, a: u32): nat
    ensures Offset(mmu, a) < PageSize(mmu.tc)
  {
    a % PageSize(mmu.tc)
  }

  function PageOf(mmu: Mmu, a: u32): u32 {
    a - Offset(mmu, a)
  }

  /** One byte through its own page. */
  function Phys(mmu: Mmu, a: u32, kind: Access): (p: Option<nat>)
  {
    match mmu.frame(PageOf(mmu, a), kind)
    case None => None
    case Some(base) => Some(base + Offset(mmu, a))
  }

  lemma PhysInRange(mmu: Mmu, a: u32, kind: Access)
    requires Maps(mmu) && Phys(mmu, a, kind).Some?
    ensures Phys(mmu, a, kind).value < TOP
  {
    assert mmu.frame(PageOf(mmu, a), kind).value + PageSize(mmu.tc) <= TOP;
  }

  // ------------------------------------------- the byte-by-byte specification

  /** How many of the `n` bytes from `a` come before the first refused one. */
  function Granted(mmu: Mmu, a: u32, n: nat, kind: Access): (k: nat)
    ensures k <= n
    ensures forall i :: 0 <= i < k ==> Phys(mmu, Add32(a, i), kind).Some?
    ensures k < n ==> Phys(mmu, Add32(a, k), kind).None?
  {
    if n == 0 then 0
    else
      var k := Granted(mmu, a, n - 1, kind);
      if k < n - 1 || Phys(mmu, Add32(a, k), kind).None? then k else n
  }

  ghost function ByteReads(mmu: Mmu, mem: seq<u8>, a: u32, n: nat, kind: Access): (b: seq<u8>)
    requires Maps(mmu) && |mem| == TOP && Granted(mmu, a, n, kind) == n
    ensures |b| == n
  {
    if n == 0 then []
    else
      PhysInRange(mmu, Add32(a, n - 1), kind);
      ByteReads(mmu, mem, a, n - 1, kind) + [mem[Phys(mmu, Add32(a, n - 1), kind).value]]
  }

  ghost function ByteWrites(mmu: Mmu, mem: seq<u8>, a: u32, bytes: seq<u8>): (m: seq<u8>)
    requires Maps(mmu) && |mem| == TOP && Granted(mmu, a, |bytes|, DataWrite) == |bytes|
    ensures |m| == TOP
    decreases |bytes|
  {
    if bytes == [] then mem
    else
      var last := |bytes| - 1;
      PhysInRange(mmu, Add32(a, last), DataWrite);
      ByteWrites(mmu, mem, a, bytes[..last])[Phys(mmu, Add32(a, last), DataWrite).value := bytes[last]]
  }

  // ------------------------------------------------------------------ paging

  lemma PageSizes(tc: Paging)
    ensures exists q: nat :: q * PageSize(tc) == TOP
  {
    var q := if tc == Tc040(true) || tc == Tc030(13) then 0x8_0000 else if tc.Tc040? || tc == Tc030(12) then 0x10_0000
             else if tc.ps <= 8 then 0x100_0000 else if tc.ps == 9 then 0x80_0000 else if tc.ps == 10 then 0x40_0000
             else if tc.ps == 11 then 0x20_0000 else if tc.ps == 14 then 0x4_0000 else 0x2_0000;
    assert q * PageSize(tc) == TOP;
  }

  /** Consecutive bytes of one page are consecutive in its frame. */
  lemma NextInPage(mmu: Mmu, a: u32, i: nat)
    requires Offset(mmu, a) + i < PageSize(mmu.tc)
    ensures Offset(mmu, Add32(a, i)) == Offset(mmu, a) + i
    ensures PageOf(mmu, Add32(a, i)) == PageOf(mmu, a)
  {
    PageSizes(mmu.tc);
    hide PageSize;
    var s := PageSize(mmu.tc);
    var q: nat :| q * s == TOP;
    var x, r := a / s, a % s;
    assert a == s * x + r;
    QuotientUnique(s, x, r + i);
    if x >= q {
      Multiply(s, q, x);
      assert false;
    }
    Multiply(s, x + 1, q);
    assert s * (x + 1) == s * x + s;
    assert Add32(a, i) == s * x + (r + i);
  }

  lemma PreviousInPage(mmu: Mmu, a: u32)
    requires Offset(mmu, a) > 0
    ensures PageOf(mmu, Sub32(a, 1)) == PageOf(mmu, a)
  {
    hide PageSize;
    var s := PageSize(mmu.tc);
    var x, r := a / s, a % s;
    assert a == s * x + r;
    QuotientUnique(s, x, r - 1);
    assert a - 1 == s * x + (r - 1);
  }

  /** An address whose page refuses, six bytes below one that is mapped. */
  lemma PageEdge(mmu: Mmu, a: u32, kind: Access)
    requires Phys(mmu, a, kind).None? && Phys(mmu, Add32(a, 6), kind).Some?
    ensures Offset(mmu, a) > 0
  {
    hide PageSize;
    if Offset(mmu, a) + 6 < PageSize(mmu.tc) {
      NextInPage(mmu, a, 6);
    }
  }

  lemma {:induction false} GrantedInPage(mmu: Mmu, a: u32, n: nat, kind: Access)
    requires Offset(mmu, a) + n <= PageSize(mmu.tc)
    ensures Granted(mmu, a, n, kind) == if Phys(mmu, a, kind).Some? then n else 0
  {
    hide Offset, PageSize, PageOf;
    if n > 0 {
      GrantedInPage(mmu, a, n - 1, kind);
      NextInPage(mmu, a, n - 1);
      assert Add32(a, 0) == a;
    }
  }

  lemma {:induction false} ReadsInPage(mmu: Mmu, mem: seq<u8>, a: u32, n: nat, kind: Access, p: nat)
    requires Maps(mmu) && |mem| == TOP
    requires Offset(mmu, a) + n <= PageSize(mmu.tc) && Phys(mmu, a, kind) == Some(p)
    ensures Granted(mmu, a, n, kind) == n && p + n <= TOP
    ensures ByteReads(mmu, mem, a, n, kind) == mem[p..p + n]
  {
    hide Offset, PageSize, Phys, Maps, Granted;
    GrantedInPage(mmu, a, n, kind);
    PageFits(mmu, a, n, kind, p);
    if n > 0 {
      PhysInPage(mmu, a, n - 1, kind, p);
      hide Add32;
      ReadsInPage(mmu, mem, a, n - 1, kind, p);
      LongerSlice(mem, p, n);
    }
  }

  lemma PageFits(mmu: Mmu, a: u32, n: nat, kind: Access, p: nat)
    requires Maps(mmu) && Offset(mmu, a) + n <= PageSize(mmu.tc) && Phys(mmu, a, kind) == Some(p)
    ensures p + n <= TOP
  {
    hide Offset, PageSize;
    assert mmu.frame(PageOf(mmu, a), kind).value + PageSize(mmu.tc) <= TOP;
  }

  /** Inside one page, physical addresses go up with logical ones. */
  lemma PhysInPage(mmu: Mmu, a: u32, i: nat, kind: Access, p: nat)
    requires Maps(mmu) && Offset(mmu, a) + i < PageSize(mmu.tc) && Phys(mmu, a, kind) == Some(p)
    ensures Phys(mmu, Add32(a, i), kind) == Some(p + i)
  {
    hide Offset, PageSize, PageOf;
    NextInPage(mmu, a, i);
  }

  lemma LongerSlice(mem: seq<u8>, p: nat, n: nat)
    requires n > 0 && p + n <= |mem|
    ensures mem[p..p + n] == mem[p..p + n - 1] + [mem[p + n - 1]]
  {
  }

  /** `bytes` stored at consecutive physical addresses. */
  function Stored(mem: seq<u8>, p: nat, bytes: seq<u8>): (m: seq<u8>)
    requires p + |bytes| <= |mem|
    ensures |m| == |mem|
  {
    mem[..p] + bytes + mem[p + |bytes|..]
  }

  lemma {:induction false} WritesInPage(mmu: Mmu, mem: seq<u8>, a: u32, bytes: seq<u8>, p: nat)
    requires Maps(mmu) && |mem| == TOP
    requires Offset(mmu, a) + |bytes| <= PageSize(mmu.tc) && Phys(mmu, a, DataWrite) == Some(p)
    ensures Granted(mmu, a, |bytes|, DataWrite) == |bytes| && p + |bytes| <= TOP
    ensures ByteWrites(mmu, mem, a, bytes) == Stored(mem, p, bytes)
    decreases |bytes|
  {
    hide Offset, PageSize, PageOf;
    GrantedInPage(mmu, a, |bytes|, DataWrite);
    assert mmu.frame(PageOf(mmu, a), DataWrite).value + PageSize(mmu.tc) <= TOP;
    if bytes != [] {
      var last := |bytes| - 1;
      NextInPage(mmu, a, last);
      assert Phys(mmu, Add32(a, last), DataWrite) == Some(p + last);
      hide Phys;
      WritesInPage(mmu, mem, a, bytes[..last], p);
      assert Stored(mem, p, bytes[..last])[p + last := bytes[last]] == Stored(mem, p, bytes);
    }
  }

  // --------------------------------------------------------- joining two parts

  lemma StepsAdd(a: u32, m: nat, i: int)
    ensures Add32(Add32(a, m), i) == Add32(a, m + i)
  {
  }

  lemma {:induction false} GrantedJoins(mmu: Mmu, a: u32, m: nat, n: nat, kind: Access)
    ensures Granted(mmu, a, m + n, kind)
            == if Granted(mmu, a, m, kind) < m then Granted(mmu, a, m, kind)
               else m + Granted(mmu, Add32(a, m), n, kind)
  {
    hide Phys;
    if n > 0 {
      GrantedJoins(mmu, a, m, n - 1, kind);
      StepsAdd(a, m, Granted(mmu, Add32(a, m), n - 1, kind));
      assert m + n - 1 == m + (n - 1);
    }
  }

  lemma {:induction false} ReadsJoin(mmu: Mmu, mem: seq<u8>, a: u32, m: nat, n: nat, kind: Access)
    requires Maps(mmu) && |mem| == TOP
    requires Granted(mmu, a, m, kind) == m && Granted(mmu, Add32(a, m), n, kind) == n
    ensures Granted(mmu, a, m + n, kind) == m + n
    ensures ByteReads(mmu, mem, a, m + n, kind) == ByteReads(mmu, mem, a, m, kind) + ByteReads(mmu, mem, Add32(a, m), n, kind)
  {
    hide Phys;
    GrantedJoins(mmu, a, m, n, kind);
    if n > 0 {
      ReadsJoin(mmu, mem, a, m, n - 1, kind);
      StepsAdd(a, m, n - 1);
      assert m + n - 1 == m + (n - 1);
    }
  }

  lemma {:induction false} WritesJoin(mmu: Mmu, mem: seq<u8>, a: u32, x: seq<u8>, y: seq<u8>)
    requires Maps(mmu) && |mem| == TOP
    requires Granted(mmu, a, |x|, DataWrite) == |x| && Granted(mmu, Add32(a, |x|), |y|, DataWrite) == |y|
    ensures Granted(mmu, a, |x| + |y|, DataWrite) == |x| + |y|
    ensures ByteWrites(mmu, mem, a, x + y) == ByteWrites(mmu, ByteWrites(mmu, mem, a, x), Add32(a, |x|), y)
    decreases |y|
  {
    hide Phys;
    GrantedJoins(mmu, a, |x|, |y|, DataWrite);
    if y == [] {
      assert x + y == x;
    } else {
      var init := y[..|y| - 1];
      assert (x + y)[..|x + y| - 1] == x + init;
      WritesJoin(mmu, mem, a, x, init);
      StepsAdd(a, |x|, |y| - 1);
    }
  }

  // ------------------------------------------------------------- the accesses

  /** What an access that met no earlier fault leaves behind: the address of the
      first refused byte, if there is one. */
  function Outcome(mmu: Mmu, a: u32, n: nat, kind: Access): Option<u32> {
    var k := Granted(mmu, a, n, kind);
    if k == n then None else Some(Add32(a, k))
  }

  lemma OutcomeJoins(mmu: Mmu, a: u32, m: nat, n: nat, kind: Access)
    ensures Outcome(mmu, a, m + n, kind)
            == if Outcome(mmu, a, m, kind).Some? then Outcome(mmu, a, m, kind)
               else Outcome(mmu, Add32(a, m), n, kind)
  {
    hide Granted;
    GrantedJoins(mmu, a, m, n, kind);
    StepsAdd(a, m, Granted(mmu, Add32(a, m), n, kind));
  }

  /** A read of `n` bytes returned `v`: the big-endian value of the bytes, each
      read through its own page. */
  ghost predicate ReadsAs(mmu: Mmu, mem: seq<u8>, a: u32, n: nat, kind: Access, v: nat)
    requires Maps(mmu) && |mem| == TOP && Outcome(mmu, a, n, kind).None?
  {
    v == Value(ByteReads(mmu, mem, a, n, kind))
  }

  /** The bytes before the first refused one, stored through their own pages. */
  ghost function AfterWrite(mmu: Mmu, mem: seq<u8>, a: u32, bytes: seq<u8>): (m: seq<u8>)
    requires Maps(mmu) && |mem| == TOP
    ensures |m| == TOP
  {
    var k := Granted(mmu, a, |bytes|, DataWrite);
    GrantedPrefix(mmu, a, |bytes|, DataWrite);
    ByteWrites(mmu, mem, a, bytes[..k])
  }

  lemma {:induction false} GrantedPrefix(mmu: Mmu, a: u32, n: nat, kind: Access)
    ensures var k := Granted(mmu, a, n, kind); Granted(mmu, a, k, kind) == k
  {
    hide Phys;
    if n > 0 && Granted(mmu, a, n, kind) < n {
      GrantedPrefix(mmu, a, n - 1, kind);
    }
  }

  /** Two parts of a write, the second not attempted when the first faults. */
  lemma AfterWriteJoins(mmu: Mmu, mem: seq<u8>, a: u32, x: seq<u8>, y: seq<u8>)
    requires Maps(mmu) && |mem| == TOP
    ensures AfterWrite(mmu, mem, a, x + y)
            == if Outcome(mmu, a, |x|, DataWrite).Some? then AfterWrite(mmu, mem, a, x)
               else AfterWrite(mmu, AfterWrite(mmu, mem, a, x), Add32(a, |x|), y)
  {
    hide Granted, ByteWrites;
    GrantedJoins(mmu, a, |x|, |y|, DataWrite);
    var k := Granted(mmu, a, |x|, DataWrite);
    GrantedPrefix(mmu, a, |x|, DataWrite);
    if k < |x| {
      assert (x + y)[..k] == x[..k];
    } else {
      var j := Granted(mmu, Add32(a, |x|), |y|, DataWrite);
      GrantedPrefix(mmu, Add32(a, |x|), |y|, DataWrite);
      assert (x + y)[..k + j] == x + y[..j] && x[..k] == x;
      WritesJoin(mmu, mem, a, x, y[..j]);
    }
  }

  function Bytes24(v: u32): (b: seq<u8>)
    ensures |b| == 3
  {
    Bytes16(v / 0x100 % 0x1_0000) + [v % 0x100]
  }

  // ---------------------------------------------------------------- bus cycles

  /** What the accesses of one privilege mode meet: the mapping, and the host
      bus, which may refuse a translated cycle by its address and size. */
  datatype Space = Space(mmu: Mmu, refuses: (u32, nat, Access) -> bool)

  datatype Refusal =
    | Unmapped(address: u32, size: nat)
    | BusError(address: u32, size: nat)
    | OddPc(address: u32, size: nat)

  /** Bytes that one cycle transfers; they never leave their page. */
  datatype Cycle = Cycle(a: u32, n: nat)

  function Cycles(mmu: Mmu, a: u32, n: nat): seq<Cycle>
    decreases n
  {
    if n == 2 && Offset(mmu, a) == PageSize(mmu.tc) - 1 then [Cycle(a, 1), Cycle(Add32(a, 1), 1)]
    else if n == 3 && Offset(mmu, a) > PageSize(mmu.tc) - 1 - 2 then Cycles(mmu, a, 2) + [Cycle(Add32(a, 2), 1)]
    else if n == 4 && Offset(mmu, a) > PageSize(mmu.tc) - 1 - 3 then Cycles(mmu, a, 2) + Cycles(mmu, Add32(a, 2), 2)
    else [Cycle(a, n)]
  }

  /** The bytes read before the first refused cycle, the override still armed
      afterwards, and the refusal. */
  datatype Read = Read(bytes: seq<u8>, over: Option<(u32, u32)>, refused: Option<Refusal>)

  function OneRead(space: Space, mem: seq<u8>, over: Option<(u32, u32)>, c: Cycle, kind: Access): (r: Read)
    requires |mem| == TOP && c.n <= 4
    ensures |r.bytes| == if r.refused.None? then c.n else 0
  {
    if kind.DataRead? && over.Some? && over.value.0 == c.a then
      Read(Bytes32(over.value.1)[4 - c.n..], None, None)
    else
      match Phys(space.mmu, c.a, kind)
      case None => Read([], over, Some(Unmapped(c.a, c.n)))
      case Some(p) =>
        if space.refuses(Bus32.At(p), c.n, kind) then Read([], over, Some(BusError(Bus32.At(p), c.n)))
        else Read(Block(Bus32, mem, p, c.n), over, None)
  }

  predicate Sized(cycles: seq<Cycle>) {
    forall c :: c in cycles ==> 0 < c.n <= 4
  }

  function ReadCycles(space: Space, mem: seq<u8>, over: Option<(u32, u32)>, cycles: seq<Cycle>, kind: Access): Read
    requires |mem| == TOP && Sized(cycles)
    decreases |cycles|
  {
    if cycles == [] then Read([], over, None)
    else
      var r := OneRead(space, mem, over, cycles[0], kind);
      if r.refused.Some? then r
      else
        var rest := ReadCycles(space, mem, r.over, cycles[1..], kind);
        rest.(bytes := r.bytes + rest.bytes)
  }

  /** The number an `n`-byte read returns: a refused part reads as zeros, and of
      a three- or four-byte read the first word only as a whole. */
  function Seen(n: nat, bytes: seq<u8>): (v: nat)
    ensures |bytes| <= n ==> v < Limit(n)
  {
    var kept := if n > 2 && |bytes| < 2 then [] else bytes;
    Value(if |kept| <= n then kept + Zeros(n - |kept|) else kept)
  }

  datatype Store = Store(a: u32, bytes: seq<u8>)

  function Stores(mmu: Mmu, a: u32, bytes: seq<u8>): seq<Store>
    decreases |bytes|
  {
    var n := |bytes|;
    if n == 2 && Offset(mmu, a) == PageSize(mmu.tc) - 1 then [Store(a, bytes[..1]), Store(Add32(a, 1), bytes[1..])]
    else if n == 3 && Offset(mmu, a) > PageSize(mmu.tc) - 1 - 2 then
      Stores(mmu, a, bytes[..2]) + [Store(Add32(a, 2), bytes[2..])]
    else if n == 4 && Offset(mmu, a) > PageSize(mmu.tc) - 1 - 3 then
      Stores(mmu, a, bytes[..2]) + Stores(mmu, Add32(a, 2), bytes[2..])
    else [Store(a, bytes)]
  }

  datatype Written = Written(mem: seq<u8>, suppress: Option<u32>, refused: Option<Refusal>)

  function OneWrite(space: Space, mem: seq<u8>, suppress: Option<u32>, s: Store): (w: Written)
    requires |mem| == TOP
    ensures |w.mem| == TOP
  {
    if suppress == Some(s.a) then Written(mem, None, None)
    else
      match Phys(space.mmu, s.a, DataWrite)
      case None => Written(mem, suppress, Some(Unmapped(s.a, |s.bytes|)))
      case Some(p) =>
        if space.refuses(Bus32.At(p), |s.bytes|, DataWrite) then
          Written(mem, suppress, Some(BusError(Bus32.At(p), |s.bytes|)))
        else Written(Write(Bus32, mem, p, s.bytes), suppress, None)
  }

  function WriteCycles(space: Space, mem: seq<u8>, suppress: Option<u32>, stores: seq<Store>): (w: Written)
    requires |mem| == TOP
    ensures |w.mem| == TOP
    decreases |stores|
  {
    if stores == [] then Written(mem, suppress, None)
    else
      var w := OneWrite(space, mem, suppress, stores[0]);
      if w.refused.Some? then w else WriteCycles(space, w.mem, w.suppress, stores[1..])
  }

  lemma {:induction false} ReadCyclesAppend(space: Space, mem: seq<u8>, over: Option<(u32, u32)>, x: seq<Cycle>,
                                            y: seq<Cycle>, kind: Access)
    requires |mem| == TOP && Sized(x) && Sized(y)
    ensures Sized(x + y)
    ensures var r := ReadCycles(space, mem, over, x, kind);
            ReadCycles(space, mem, over, x + y, kind)
            == if r.refused.Some? then r
               else var rest := ReadCycles(space, mem, r.over, y, kind); rest.(bytes := r.bytes + rest.bytes)
    decreases |x|
  {
    hide OneRead;
    if x == [] {
      assert x + y == y;
    } else {
      assert (x + y)[1..] == x[1..] + y;
      var r := OneRead(space, mem, over, x[0], kind);
      ReadCyclesAppend(space, mem, r.over, x[1..], y, kind);
    }
  }

  lemma {:induction false} WriteCyclesAppend(space: Space, mem: seq<u8>, suppress: Option<u32>, x: seq<Store>, y: seq<Store>)
    requires |mem| == TOP
    ensures var w := WriteCycles(space, mem, suppress, x);
            WriteCycles(space, mem, suppress, x + y)
            == if w.refused.Some? then w else WriteCycles(space, w.mem, w.suppress, y)
    decreases |x|
  {
    hide OneWrite;
    if x == [] {
      assert x + y == y;
    } else {
      assert (x + y)[1..] == x[1..] + y;
      var w := OneWrite(space, mem, suppress, x[0]);
      WriteCyclesAppend(space, w.mem, w.suppress, x[1..], y);
    }
  }

  // ------------------------------------------------- one-shots of a restart

  /** An override whose address no cycle starts at is neither seen nor used up. */
  lemma {:induction false} OverrideUnseen(space: Space, mem: seq<u8>, over: Option<(u32, u32)>, cycles: seq<Cycle>, kind: Access)
    requires |mem| == TOP && Sized(cycles)
    requires over.Some? && kind.DataRead? ==> forall c :: c in cycles ==> c.a != over.value.0
    ensures ReadCycles(space, mem, over, cycles, kind) == ReadCycles(space, mem, None, cycles, kind).(over := over)
    decreases |cycles|
  {
    if cycles != [] {
      assert cycles[0] in cycles;
      OverrideUnseen(space, mem, over, cycles[1..], kind);
    }
  }

  /** The first cycle at its address takes the value the handler supplied, if
      the cycles before it are granted, and no other cycle does. */
  lemma OverrideTakenOnce(space: Space, mem: seq<u8>, a: u32, v: u32, before: seq<Cycle>, n: nat, after: seq<Cycle>)
    requires |mem| == TOP && Sized(before) && 0 < n <= 4 && Sized(after)
    requires forall c :: c in before ==> c.a != a
    ensures Sized(before + ([Cycle(a, n)] + after))
    ensures var all := ReadCycles(space, mem, Some((a, v)), before + ([Cycle(a, n)] + after), DataRead);
            var first := ReadCycles(space, mem, None, before, DataRead);
            var rest := ReadCycles(space, mem, None, after, DataRead);
            all == if first.refused.Some? then first.(over := Some((a, v)))
                   else Read(first.bytes + (Bytes32(v)[4 - n..] + rest.bytes), None, rest.refused)
  {
    hide Phys, Block, Bytes32;
    var tail := [Cycle(a, n)] + after;
    assert tail[1..] == after;
    assert OneRead(space, mem, Some((a, v)), tail[0], DataRead) == Read(Bytes32(v)[4 - n..], None, None);
    hide OneRead;
    OverrideUnseen(space, mem, Some((a, v)), before, DataRead);
    OverrideUnseen(space, mem, None, after, DataRead);
    ReadCyclesAppend(space, mem, Some((a, v)), before, tail, DataRead);
  }

  lemma {:induction false} SuppressionUnseen(space: Space, mem: seq<u8>, suppress: Option<u32>, stores: seq<Store>)
    requires |mem| == TOP
    requires forall s :: s in stores ==> suppress != Some(s.a)
    ensures WriteCycles(space, mem, suppress, stores) == WriteCycles(space, mem, None, stores).(suppress := suppress)
    decreases |stores|
  {
    if stores != [] {
      assert stores[0] in stores;
      var w := OneWrite(space, mem, suppress, stores[0]);
      SuppressionUnseen(space, w.mem, suppress, stores[1..]);
    }
  }

  /** The first store at its address is dropped, if the stores before it are
      granted, and every other store happens. */
  lemma SuppressionTakenOnce(space: Space, mem: seq<u8>, before: seq<Store>, it: Store, after: seq<Store>)
    requires |mem| == TOP
    requires forall s :: s in before ==> s.a != it.a
    ensures var all := WriteCycles(space, mem, Some(it.a), before + ([it] + after));
            var first := WriteCycles(space, mem, None, before);
            all == if first.refused.Some? then first.(suppress := Some(it.a))
                   else WriteCycles(space, mem, None, before + after)
  {
    SuppressionUnseen(space, mem, Some(it.a), before);
    SuppressionUnseen(space, mem, None, before);
    assert ([it] + after)[1..] == after;
    WriteCyclesAppend(space, mem, Some(it.a), before, [it] + after);
    WriteCyclesAppend(space, mem, None, before, after);
  }

  // -------------------------------------------------------- which are granted

  predicate Answered(space: Space, c: Cycle, kind: Access) {
    var p := Phys(space.mmu, c.a, kind);
    p.Some? && !space.refuses(Bus32.At(p.value), c.n, kind)
  }

  /** No cycle is refused; the first one at `armed` needs no answer. */
  predicate CyclesGranted(space: Space, armed: Option<u32>, cycles: seq<Cycle>, kind: Access)
    decreases |cycles|
  {
    cycles == []
    || if armed == Some(cycles[0].a) then CyclesGranted(space, None, cycles[1..], kind)
       else Answered(space, cycles[0], kind) && CyclesGranted(space, armed, cycles[1..], kind)
  }

  predicate Touches(cycles: seq<Cycle>, armed: Option<u32>) {
    exists c :: c in cycles && armed == Some(c.a)
  }

  function ArmedFor(over: Option<(u32, u32)>, kind: Access): Option<u32> {
    if kind.DataRead? && over.Some? then Some(over.value.0) else None
  }

  lemma TouchesStep(cycles: seq<Cycle>, armed: Option<u32>)
    requires cycles != []
    ensures Touches(cycles, armed) <==> armed == Some(cycles[0].a) || Touches(cycles[1..], armed)
  {
    assert cycles[0] in cycles;
    assert forall c :: c in cycles <==> c == cycles[0] || c in cycles[1..];
  }

  lemma {:induction false} ReadsGranted(space: Space, mem: seq<u8>, over: Option<(u32, u32)>, cycles: seq<Cycle>, kind: Access)
    requires |mem| == TOP && Sized(cycles)
    ensures var r := ReadCycles(space, mem, over, cycles, kind);
            && (r.refused.None? <==> CyclesGranted(space, ArmedFor(over, kind), cycles, kind))
            && (r.refused.None? ==> r.over == if Touches(cycles, ArmedFor(over, kind)) then None else over)
    decreases |cycles|
  {
    hide Phys, Block, Bytes32, Touches;
    if cycles == [] {
      TouchesNone(ArmedFor(over, kind));
    } else {
      assert cycles[0] in cycles;
      TouchesStep(cycles, ArmedFor(over, kind));
      ReadsGranted(space, mem, OneRead(space, mem, over, cycles[0], kind).over, cycles[1..], kind);
    }
  }

  lemma TouchesNone(armed: Option<u32>)
    ensures !Touches([], armed)
  {
  }

  /** The cycles that stores take, without their bytes. */
  function Shape(stores: seq<Store>): seq<Cycle> {
    if stores == [] then [] else [Cycle(stores[0].a, |stores[0].bytes|)] + Shape(stores[1..])
  }

  lemma {:induction false} ShapeJoins(x: seq<Store>, y: seq<Store>)
    ensures Shape(x + y) == Shape(x) + Shape(y)
  {
    if x == [] {
      assert x + y == y;
    } else {
      assert (x + y)[1..] == x[1..] + y;
      ShapeJoins(x[1..], y);
    }
  }

  /** Reads and writes split alike. */
  lemma ShapeOfStores(mmu: Mmu, a: u32, bytes: seq<u8>)
    ensures Shape(Stores(mmu, a, bytes)) == Cycles(mmu, a, |bytes|)
    decreases |bytes|
  {
    hide Offset, PageSize;
    var n, room := |bytes|, PageSize(mmu.tc) - 1;
    if n == 4 && Offset(mmu, a) > room - 3 {
      ShapeOfStores(mmu, a, bytes[..2]);
      ShapeOfStores(mmu, Add32(a, 2), bytes[2..]);
      ShapeJoins(Stores(mmu, a, bytes[..2]), Stores(mmu, Add32(a, 2), bytes[2..]));
    } else if n == 3 && Offset(mmu, a) > room - 2 {
      ShapeOfStores(mmu, a, bytes[..2]);
      ShapeOfOne(Add32(a, 2), bytes[2..]);
      ShapeJoins(Stores(mmu, a, bytes[..2]), [Store(Add32(a, 2), bytes[2..])]);
    } else if n == 2 && Offset(mmu, a) == room {
      ShapeOfOne(a, bytes[..1]);
      ShapeOfOne(Add32(a, 1), bytes[1..]);
      ShapeJoins([Store(a, bytes[..1])], [Store(Add32(a, 1), bytes[1..])]);
      assert [Store(a, bytes[..1])] + [Store(Add32(a, 1), bytes[1..])] == Stores(mmu, a, bytes);
    } else {
      ShapeOfOne(a, bytes);
    }
  }

  lemma ShapeOfOne(a: u32, bytes: seq<u8>)
    ensures Shape([Store(a, bytes)]) == [Cycle(a, |bytes|)]
  {
    assert [Store(a, bytes)][1..] == [];
  }

  lemma {:induction false} WritesGranted(space: Space, mem: seq<u8>, suppress: Option<u32>, stores: seq<Store>)
    requires |mem| == TOP
    ensures var w := WriteCycles(space, mem, suppress, stores);
            && (w.refused.None? <==> CyclesGranted(space, suppress, Shape(stores), DataWrite))
            && (w.refused.None? ==> w.suppress == if Touches(Shape(stores), suppress) then None else suppress)
    decreases |stores|
  {
    hide Phys, Write, Touches;
    if stores == [] {
      TouchesNone(suppress);
    } else {
      var shape, w := Shape(stores), OneWrite(space, mem, suppress, stores[0]);
      assert shape[1..] == Shape(stores[1..]);
      TouchesStep(shape, suppress);
      if w.refused.None? {
        WritesGranted(space, w.mem, w.suppress, stores[1..]);
      }
    }
  }

  /** Writes only ever use a suppression up. */
  lemma {:induction false} SuppressionOnlyUsed(space: Space, mem: seq<u8>, suppress: Option<u32>, stores: seq<Store>)
    requires |mem| == TOP
    ensures var w := WriteCycles(space, mem, suppress, stores); w.suppress == suppress || w.suppress.None?
    decreases |stores|
  {
    hide Phys, Write;
    if stores != [] {
      var w := OneWrite(space, mem, suppress, stores[0]);
      SuppressionOnlyUsed(space, w.mem, w.suppress, stores[1..]);
    }
  }

  /** Whether a granted write cycle lands on the byte `i`. */
  predicate Reaches(space: Space, c: Cycle, i: nat) {
    Phys(space.mmu, c.a, DataWrite).Some? && Covers(Bus32, Phys(space.mmu, c.a, DataWrite).value, c.n, i)
  }

  lemma {:induction false} WritesElsewhere(space: Space, mem: seq<u8>, suppress: Option<u32>, stores: seq<Store>, i: nat)
    requires |mem| == TOP && i < TOP && forall c :: c in Shape(stores) ==> !Reaches(space, c, i)
    ensures WriteCycles(space, mem, suppress, stores).mem[i] == mem[i]
    decreases |stores|
  {
    hide Phys, Write, Covers;
    if stores != [] {
      var s, w := stores[0], OneWrite(space, mem, suppress, stores[0]);
      assert Shape(stores)[0] == Cycle(s.a, |s.bytes|) && Shape(stores)[1..] == Shape(stores[1..]);
      assert Cycle(s.a, |s.bytes|) in Shape(stores);
      if Phys(space.mmu, s.a, DataWrite).Some? {
        WriteElsewhere(Bus32, mem, Phys(space.mmu, s.a, DataWrite).value, s.bytes, i);
      }
      if w.refused.None? {
        WritesElsewhere(space, w.mem, w.suppress, stores[1..], i);
      }
    }
  }

  lemma {:induction false} AllAnswered(space: Space, cycles: seq<Cycle>, kind: Access)
    requires forall c :: c in cycles ==> Answered(space, c, kind)
    ensures CyclesGranted(space, None, cycles, kind)
    decreases |cycles|
  {
    hide Answered;
    if cycles != [] {
      assert cycles[0] in cycles;
      AllAnswered(space, cycles[1..], kind);
    }
  }

  /** What is granted without a one-shot is granted with one. */
  lemma {:induction false} GrantedAnyway(space: Space, armed: Option<u32>, cycles: seq<Cycle>, kind: Access)
    requires CyclesGranted(space, None, cycles, kind)
    ensures CyclesGranted(space, armed, cycles, kind)
    decreases |cycles|
  {
    hide Answered;
    if cycles != [] {
      GrantedAnyway(space, armed, cycles[1..], kind);
    }
  }

  lemma {:induction false} GrantedParts(space: Space, x: seq<Cycle>, y: seq<Cycle>, kind: Access)
    requires CyclesGranted(space, None, x + y, kind)
    ensures CyclesGranted(space, None, x, kind) && CyclesGranted(space, None, y, kind)
    decreases |x|
  {
    hide Answered;
    if x == [] {
      assert x + y == y;
    } else {
      assert (x + y)[1..] == x[1..] + y;
      GrantedParts(space, x[1..], y, kind);
    }
  }

  /** A granted access has its last byte mapped. */
  lemma {:induction false} GrantedReaches(space: Space, a: u32, n: nat, kind: Access)
    requires Maps(space.mmu) && 0 < n <= 4 && CyclesGranted(space, None, Cycles(space.mmu, a, n), kind)
    ensures Phys(space.mmu, Add32(a, n - 1), kind).Some?
    decreases n
  {
    hide Offset, PageSize, Phys, Maps;
    var room := PageSize(space.mmu.tc) - 1;
    if n == 4 && Offset(space.mmu, a) > room - 3 {
      GrantedParts(space, Cycles(space.mmu, a, 2), Cycles(space.mmu, Add32(a, 2), 2), kind);
      GrantedReaches(space, Add32(a, 2), 2, kind);
      StepsAdd(a, 2, 1);
    } else if n == 3 && Offset(space.mmu, a) > room - 2 {
      GrantedParts(space, Cycles(space.mmu, a, 2), [Cycle(Add32(a, 2), 1)], kind);
    } else if n == 2 && Offset(space.mmu, a) == room {
      GrantedParts(space, [Cycle(a, 1)], [Cycle(Add32(a, 1), 1)], kind);
    } else {
      PhysInPage(space.mmu, a, n - 1, kind, Phys(space.mmu, a, kind).value);
    }
  }

  // ---------------------------------------------------- cycles and their bytes

  /** Consecutive cycles from `a`, each inside its page. */
  predicate Consecutive(mmu: Mmu, a: u32, cycles: seq<Cycle>)
    decreases |cycles|
  {
    cycles != [] ==>
      var c := cycles[0];
      c.a == a && Offset(mmu, a) + c.n <= PageSize(mmu.tc) && Consecutive(mmu, Add32(a, c.n), cycles[1..])
  }

  function Total(cycles: seq<Cycle>): nat {
    if cycles == [] then 0 else cycles[0].n + Total(cycles[1..])
  }

  function At(refused: Option<Refusal>): Option<u32> {
    match refused
    case None => None
    case Some(r) => Some(r.address)
  }

  predicate HostRefused(refused: Option<Refusal>) {
    refused.Some? && refused.value.BusError?
  }

  /** With no override used up and no refusal by the host, the bytes before the
      first refused one, each through its own page. */
  lemma {:induction false} CyclesAreBytes(space: Space, mem: seq<u8>, over: Option<(u32, u32)>, a: u32,
                                          cycles: seq<Cycle>, kind: Access)
    requires Maps(space.mmu) && |mem| == TOP && Sized(cycles) && Consecutive(space.mmu, a, cycles)
    requires var r := ReadCycles(space, mem, over, cycles, kind); r.over == over && !HostRefused(r.refused)
    ensures var r, n := ReadCycles(space, mem, over, cycles, kind), Total(cycles);
            && (r.refused.Some? ==> r.refused.value.Unmapped? && Outcome(space.mmu, a, n, kind) == Some(r.refused.value.address))
            && (r.refused.None? ==> Outcome(space.mmu, a, n, kind).None? && r.bytes == ByteReads(space.mmu, mem, a, n, kind))
    decreases |cycles|
  {
    hide Offset, PageSize, Phys, Maps, Granted, ByteReads, Block, OneRead, Outcome;
    if cycles == [] {
      NoCycles(space.mmu, mem, a, kind);
    } else {
      var c, rest := cycles[0], cycles[1..];
      var r := OneRead(space, mem, over, c, kind);
      OutcomeJoins(space.mmu, a, c.n, Total(rest), kind);
      FirstKeepsOverride(space, mem, over, cycles, kind);
      CycleIsBytes(space, mem, over, c, kind);
      if r.refused.None? {
        CyclesAreBytes(space, mem, over, Add32(a, c.n), rest, kind);
        if ReadCycles(space, mem, over, rest, kind).refused.None? {
          OutcomeGrants(space.mmu, a, c.n, kind);
          OutcomeGrants(space.mmu, Add32(a, c.n), Total(rest), kind);
          ReadsJoin(space.mmu, mem, a, c.n, Total(rest), kind);
        }
      }
    }
  }

  lemma NoCycles(mmu: Mmu, mem: seq<u8>, a: u32, kind: Access)
    requires Maps(mmu) && |mem| == TOP
    ensures Outcome(mmu, a, 0, kind).None? && ByteReads(mmu, mem, a, 0, kind) == []
  {
  }

  /** An override still armed at the end was not used up by the first cycle. */
  lemma FirstKeepsOverride(space: Space, mem: seq<u8>, over: Option<(u32, u32)>, cycles: seq<Cycle>, kind: Access)
    requires |mem| == TOP && Sized(cycles) && cycles != []
    requires ReadCycles(space, mem, over, cycles, kind).over == over
    ensures OneRead(space, mem, over, cycles[0], kind).over == over
  {
    OverrideUnseen(space, mem, None, cycles[1..], kind);
  }

  lemma OutcomeGrants(mmu: Mmu, a: u32, n: nat, kind: Access)
    ensures Outcome(mmu, a, n, kind).None? <==> Granted(mmu, a, n, kind) == n
  {
  }

  lemma CycleIsBytes(space: Space, mem: seq<u8>, over: Option<(u32, u32)>, c: Cycle, kind: Access)
    requires Maps(space.mmu) && |mem| == TOP && 0 < c.n <= 4
    requires Offset(space.mmu, c.a) + c.n <= PageSize(space.mmu.tc)
    requires var r := OneRead(space, mem, over, c, kind); r.over == over && !HostRefused(r.refused)
    ensures var r := OneRead(space, mem, over, c, kind);
            && (r.refused.Some? ==> r.refused.value.Unmapped? && Outcome(space.mmu, c.a, c.n, kind) == Some(r.refused.value.address))
            && (r.refused.None? ==> Outcome(space.mmu, c.a, c.n, kind).None?
                                    && r.bytes == ByteReads(space.mmu, mem, c.a, c.n, kind))
  {
    hide Offset, PageSize, Maps, ByteReads, Block;
    GrantedInPage(space.mmu, c.a, c.n, kind);
    assert Add32(c.a, 0) == c.a;
    var p := Phys(space.mmu, c.a, kind);
    if p.Some? {
      ReadsInPage(space.mmu, mem, c.a, c.n, kind, p.value);
      BlockIsSlice(mem, p.value, c.n);
    }
  }

  lemma BlockIsSlice(mem: seq<u8>, p: nat, n: nat)
    requires |mem| == TOP && p + n <= TOP
    ensures Block(Bus32, mem, p, n) == mem[p..p + n]
  {
    var block := Block(Bus32, mem, p, n);
    forall i: nat | i < n
      ensures block[i] == mem[p..p + n][i]
    {
      AtSmall(Bus32, p + i);
      assert block[i] == Read8(Bus32, mem, p + i);
    }
  }

  lemma WriteIsSplice(mem: seq<u8>, p: nat, bytes: seq<u8>)
    requires |mem| == TOP && p + |bytes| <= TOP
    ensures Write(Bus32, mem, p, bytes) == Stored(mem, p, bytes)
  {
    forall i | 0 <= i < TOP
      ensures Write(Bus32, mem, p, bytes)[i] == Stored(mem, p, bytes)[i]
    {
      if p <= i {
        AtSmall(Bus32, i - p);
      } else {
        AtMinus(Bus32, i, p);
        AtSmall(Bus32, i);
      }
    }
  }

  predicate Adjacent(mmu: Mmu, a: u32, stores: seq<Store>)
    decreases |stores|
  {
    stores != [] ==>
      var s := stores[0];
      && s.a == a && 0 < |s.bytes| && Offset(mmu, a) + |s.bytes| <= PageSize(mmu.tc)
      && Adjacent(mmu, Add32(a, |s.bytes|), stores[1..])
  }

  function Data(stores: seq<Store>): seq<u8> {
    if stores == [] then [] else stores[0].bytes + Data(stores[1..])
  }

  /** With no suppression used up and no refusal by the host, the bytes before
      the first refused one are stored, each through its own page. */
  lemma {:induction false} StoresAreBytes(space: Space, mem: seq<u8>, suppress: Option<u32>, a: u32, stores: seq<Store>)
    requires Maps(space.mmu) && |mem| == TOP && Adjacent(space.mmu, a, stores)
    requires var w := WriteCycles(space, mem, suppress, stores); w.suppress == suppress && !HostRefused(w.refused)
    ensures var w, bytes := WriteCycles(space, mem, suppress, stores), Data(stores);
            && w.mem == AfterWrite(space.mmu, mem, a, bytes)
            && Outcome(space.mmu, a, |bytes|, DataWrite) == At(w.refused)
    decreases |stores|
  {
    hide Offset, PageSize, Phys, Maps, Granted, AfterWrite;
    if stores == [] {
      NothingWritten(space.mmu, mem, a);
    } else {
      var s, rest := stores[0], stores[1..];
      var w := OneWrite(space, mem, suppress, s);
      if w.refused.None? && w.suppress != suppress {
        SuppressionUnseen(space, w.mem, None, rest);
      }
      StoreIsBytes(space, mem, suppress, s);
      OutcomeJoins(space.mmu, a, |s.bytes|, |Data(rest)|, DataWrite);
      AfterWriteJoins(space.mmu, mem, a, s.bytes, Data(rest));
      if w.refused.None? {
        StoresAreBytes(space, w.mem, w.suppress, Add32(a, |s.bytes|), rest);
      }
    }
  }

  lemma NothingWritten(mmu: Mmu, mem: seq<u8>, a: u32)
    requires Maps(mmu) && |mem| == TOP
    ensures AfterWrite(mmu, mem, a, []) == mem && Outcome(mmu, a, 0, DataWrite).None?
  {
  }

  lemma StoreIsBytes(space: Space, mem: seq<u8>, suppress: Option<u32>, s: Store)
    requires Maps(space.mmu) && |mem| == TOP && s.bytes != []
    requires Offset(space.mmu, s.a) + |s.bytes| <= PageSize(space.mmu.tc)
    requires var w := OneWrite(space, mem, suppress, s); w.suppress == suppress && !HostRefused(w.refused)
    ensures var w := OneWrite(space, mem, suppress, s);
            && w.mem == AfterWrite(space.mmu, mem, s.a, s.bytes)
            && Outcome(space.mmu, s.a, |s.bytes|, DataWrite) == At(w.refused)
  {
    hide Offset, PageSize, Maps, ByteWrites, Write;
    GrantedInPage(space.mmu, s.a, |s.bytes|, DataWrite);
    assert Add32(s.a, 0) == s.a && s.bytes[..0] == [] && s.bytes[..|s.bytes|] == s.bytes;
    var p := Phys(space.mmu, s.a, DataWrite);
    if p.Some? {
      WritesInPage(space.mmu, mem, s.a, s.bytes, p.value);
      WriteIsSplice(mem, p.value, s.bytes);
    } else {
      NoBytes(space.mmu, mem, s.a);
    }
  }

  lemma NoBytes(mmu: Mmu, mem: seq<u8>, a: u32)
    requires Maps(mmu) && |mem| == TOP
    ensures Granted(mmu, a, 0, DataWrite) == 0 && ByteWrites(mmu, mem, a, []) == mem
  {
  }

  // ------------------------------------------------------- how accesses split

  lemma SplitRead(mmu: Mmu, a: u32, n: nat)
    requires 0 < n <= 4
    ensures Sized(Cycles(mmu, a, n)) && Consecutive(mmu, a, Cycles(mmu, a, n)) && Total(Cycles(mmu, a, n)) == n
    decreases n
  {
    hide Offset, PageSize, Consecutive, Total;
    var room := PageSize(mmu.tc) - 1;
    if n == 4 && Offset(mmu, a) > room - 3 {
      SplitRead(mmu, a, 2);
      SplitRead(mmu, Add32(a, 2), 2);
      ConsecutiveJoins(mmu, a, Cycles(mmu, a, 2), Cycles(mmu, Add32(a, 2), 2));
    } else if n == 3 && Offset(mmu, a) > room - 2 {
      SplitRead(mmu, a, 2);
      SingleCycle(mmu, Add32(a, 2), 1);
      ConsecutiveJoins(mmu, a, Cycles(mmu, a, 2), [Cycle(Add32(a, 2), 1)]);
    } else if n == 2 && Offset(mmu, a) == room {
      SingleCycle(mmu, a, 1);
      SingleCycle(mmu, Add32(a, 1), 1);
      ConsecutiveJoins(mmu, a, [Cycle(a, 1)], [Cycle(Add32(a, 1), 1)]);
      assert [Cycle(a, 1)] + [Cycle(Add32(a, 1), 1)] == Cycles(mmu, a, 2);
    } else {
      SingleCycle(mmu, a, n);
    }
  }

  lemma SingleCycle(mmu: Mmu, a: u32, n: nat)
    requires Offset(mmu, a) + n <= PageSize(mmu.tc)
    ensures Consecutive(mmu, a, [Cycle(a, n)]) && Total([Cycle(a, n)]) == n
  {
    hide Offset, PageSize;
    assert [Cycle(a, n)][1..] == [];
  }

  lemma {:induction false} TotalJoins(x: seq<Cycle>, y: seq<Cycle>)
    ensures Total(x + y) == Total(x) + Total(y)
    ensures x != [] ==> Total(x) == x[0].n + Total(x[1..])
    decreases |x|
  {
    if x == [] {
      assert x + y == y;
    } else {
      assert (x + y)[1..] == x[1..] + y;
      TotalJoins(x[1..], y);
    }
  }

  lemma NoStep(a: u32)
    ensures Add32(a, Total([])) == a
  {
  }

  lemma {:induction false} ConsecutiveJoins(mmu: Mmu, a: u32, x: seq<Cycle>, y: seq<Cycle>)
    requires Consecutive(mmu, a, x) && Consecutive(mmu, Add32(a, Total(x)), y)
    ensures Consecutive(mmu, a, x + y) && Total(x + y) == Total(x) + Total(y)
    decreases |x|
  {
    hide Offset, PageSize, Add32, Total;
    TotalJoins(x, y);
    if x == [] {
      NoStep(a);
      assert x + y == y;
    } else {
      assert (x + y)[1..] == x[1..] + y;
      StepsAdd(a, x[0].n, Total(x[1..]));
      ConsecutiveJoins(mmu, Add32(a, x[0].n), x[1..], y);
    }
  }

  lemma SplitWrite(mmu: Mmu, a: u32, bytes: seq<u8>)
    requires 0 < |bytes| <= 4
    ensures Adjacent(mmu, a, Stores(mmu, a, bytes)) && Data(Stores(mmu, a, bytes)) == bytes
    decreases |bytes|
  {
    hide Offset, PageSize, Adjacent, Data;
    var n, room := |bytes|, PageSize(mmu.tc) - 1;
    if n == 4 && Offset(mmu, a) > room - 3 {
      assert bytes == bytes[..2] + bytes[2..];
      SplitWrite(mmu, a, bytes[..2]);
      SplitWrite(mmu, Add32(a, 2), bytes[2..]);
      AdjacentJoins(mmu, a, Stores(mmu, a, bytes[..2]), Stores(mmu, Add32(a, 2), bytes[2..]));
      DataJoins(Stores(mmu, a, bytes[..2]), Stores(mmu, Add32(a, 2), bytes[2..]));
    } else if n == 3 && Offset(mmu, a) > room - 2 {
      assert bytes == bytes[..2] + bytes[2..];
      SplitWrite(mmu, a, bytes[..2]);
      SingleStore(mmu, Add32(a, 2), bytes[2..]);
      AdjacentJoins(mmu, a, Stores(mmu, a, bytes[..2]), [Store(Add32(a, 2), bytes[2..])]);
      DataJoins(Stores(mmu, a, bytes[..2]), [Store(Add32(a, 2), bytes[2..])]);
    } else if n == 2 && Offset(mmu, a) == room {
      assert bytes == bytes[..1] + bytes[1..];
      SingleStore(mmu, a, bytes[..1]);
      SingleStore(mmu, Add32(a, 1), bytes[1..]);
      AdjacentJoins(mmu, a, [Store(a, bytes[..1])], [Store(Add32(a, 1), bytes[1..])]);
      DataJoins([Store(a, bytes[..1])], [Store(Add32(a, 1), bytes[1..])]);
      assert [Store(a, bytes[..1])] + [Store(Add32(a, 1), bytes[1..])] == Stores(mmu, a, bytes);
    } else {
      SingleStore(mmu, a, bytes);
    }
  }

  lemma SingleStore(mmu: Mmu, a: u32, bytes: seq<u8>)
    requires bytes != [] && Offset(mmu, a) + |bytes| <= PageSize(mmu.tc)
    ensures Adjacent(mmu, a, [Store(a, bytes)]) && Data([Store(a, bytes)]) == bytes
  {
    hide Offset, PageSize;
    assert [Store(a, bytes)][1..] == [] && bytes + [] == bytes;
  }

  lemma {:induction false} DataJoins(x: seq<Store>, y: seq<Store>)
    ensures Data(x + y) == Data(x) + Data(y)
  {
    if x == [] {
      assert x + y == y;
    } else {
      assert (x + y)[1..] == x[1..] + y;
      DataJoins(x[1..], y);
    }
  }

  lemma {:induction false} AdjacentJoins(mmu: Mmu, a: u32, x: seq<Store>, y: seq<Store>)
    requires Adjacent(mmu, a, x) && Adjacent(mmu, Add32(a, |Data(x)|), y)
    ensures Adjacent(mmu, a, x + y)
    decreases |x|
  {
    hide Offset, PageSize;
    if x == [] {
      assert x + y == y && Add32(a, 0) == a;
    } else {
      var n, rest := |x[0].bytes|, x[1..];
      assert (x + y)[1..] == rest + y;
      assert |Data(x)| == n + |Data(rest)|;
      hide Data;
      StepsAdd(a, n, |Data(rest)|);
      hide Add32;
      AdjacentJoins(mmu, Add32(a, n), rest, y);
    }
  }

  /** `n` bytes at `a`, as one access. */
  function PagedRead(space: Space, mem: seq<u8>, over: Option<(u32, u32)>, a: u32, n: nat, kind: Access): Read
    requires |mem| == TOP && 0 < n <= 4
  {
    SplitRead(space.mmu, a, n);
    ReadCycles(space, mem, over, Cycles(space.mmu, a, n), kind)
  }

  function PagedWrite(space: Space, mem: seq<u8>, suppress: Option<u32>, a: u32, bytes: seq<u8>): (w: Written)
    requires |mem| == TOP
    ensures |w.mem| == TOP
  {
    WriteCycles(space, mem, suppress, Stores(space.mmu, a, bytes))
  }

  /** A plain read: no override used up, no refusal by the host. */
  lemma PlainRead(space: Space, mem: seq<u8>, over: Option<(u32, u32)>, a: u32, n: nat, kind: Access)
    requires Maps(space.mmu) && |mem| == TOP && 0 < n <= 4
    requires var r := PagedRead(space, mem, over, a, n, kind); r.over == over && !HostRefused(r.refused)
    ensures var r := PagedRead(space, mem, over, a, n, kind);
            && At(r.refused) == Outcome(space.mmu, a, n, kind)
            && (r.refused.None? ==> ReadsAs(space.mmu, mem, a, n, kind, Seen(n, r.bytes)))
  {
    hide Offset, PageSize, Cycles, ReadCycles, Maps, ByteReads, Outcome;
    SplitRead(space.mmu, a, n);
    CyclesAreBytes(space, mem, over, a, Cycles(space.mmu, a, n), kind);
    var r := PagedRead(space, mem, over, a, n, kind);
    if r.refused.None? {
      OutcomeGrants(space.mmu, a, n, kind);
      SeenWhole(r.bytes);
    }
  }

  lemma SeenWhole(bytes: seq<u8>)
    ensures |bytes| != 0 ==> Seen(|bytes|, bytes) == Value(bytes)
  {
    assert bytes + Zeros(0) == bytes;
  }

  lemma PlainWrite(space: Space, mem: seq<u8>, suppress: Option<u32>, a: u32, bytes: seq<u8>)
    requires Maps(space.mmu) && |mem| == TOP && 0 < |bytes| <= 4
    requires var w := PagedWrite(space, mem, suppress, a, bytes); w.suppress == suppress && !HostRefused(w.refused)
    ensures var w := PagedWrite(space, mem, suppress, a, bytes);
            && At(w.refused)
               == Outcome(space.mmu, a, |bytes|, DataWrite)
            && w.mem == AfterWrite(space.mmu, mem, a, bytes)
  {
    hide Offset, PageSize, Stores, WriteCycles, Maps, AfterWrite, Outcome;
    SplitWrite(space.mmu, a, bytes);
    StoresAreBytes(space, mem, suppress, a, Stores(space.mmu, a, bytes));
  }

  // ------------------------------------------- values of accesses read in parts

  lemma SeenJoins(m: nat, n: nat, x: seq<u8>, y: seq<u8>)
    requires |x| == m && 0 < n <= 2 && (m == 2 || (m == 1 && n == 1)) && |y| <= n
    ensures Seen(m + n, x + y) == (if n == 1 then 0x100 else 0x1_0000) * Seen(m, x) + Seen(n, y)
  {
    SeenWhole(x);
    var low := y + Zeros(n - |y|);
    assert x + y + Zeros(m + n - |x + y|) == x + low;
    if n == 1 {
      ValueAppendsByte(x, low);
    } else {
      ValueAppends(x, low);
    }
  }

  lemma SeenNothing(n: nat, bytes: seq<u8>)
    requires 0 < n <= 4 && |bytes| < 2 && (bytes == [] || n > 2)
    ensures Seen(n, bytes) == 0
  {
    assert [] + Zeros(n) == Zeros(n);
    NoValue(n);
  }

  lemma {:induction false} NoValue(n: nat)
    ensures Value(Zeros(n)) == 0
  {
    if n > 0 {
      assert Zeros(n)[..n - 1] == Zeros(n - 1);
      NoValue(n - 1);
    }
  }

  lemma ValueAppendsByte(high: seq<u8>, low: seq<u8>)
    requires |low| == 1
    ensures Value(high + low) == 0x100 * Value(high) + Value(low)
  {
    assert (high + low)[..|high + low| - 1] == high && low[..0] == [];
  }

  /** How many bytes a read got: all of them unless a cycle was refused. */
  lemma {:induction false} BytesRead(space: Space, mem: seq<u8>, over: Option<(u32, u32)>, cycles: seq<Cycle>, kind: Access)
    requires |mem| == TOP && Sized(cycles)
    ensures var r := ReadCycles(space, mem, over, cycles, kind);
            if r.refused.None? then |r.bytes| == Total(cycles) else |r.bytes| < Total(cycles)
    decreases |cycles|
  {
    if cycles != [] {
      assert cycles[0] in cycles;
      var r := OneRead(space, mem, over, cycles[0], kind);
      BytesRead(space, mem, r.over, cycles[1..], kind);
    }
  }

  lemma PagedBytes(space: Space, mem: seq<u8>, over: Option<(u32, u32)>, a: u32, n: nat, kind: Access)
    requires |mem| == TOP && 0 < n <= 4
    ensures var r := PagedRead(space, mem, over, a, n, kind);
            if r.refused.None? then |r.bytes| == n else |r.bytes| < n
  {
    SplitRead(space.mmu, a, n);
    BytesRead(space, mem, over, Cycles(space.mmu, a, n), kind);
  }

  /** An access split in two: the second part is not attempted when the first
      is refused, and then the whole reads as zero. */
  lemma ReadInParts(space: Space, mem: seq<u8>, over: Option<(u32, u32)>, a: u32, m: nat, n: nat, kind: Access)
    requires |mem| == TOP && 0 < n <= 2 && (m == 2 || (m == 1 && n == 1))
    requires Cycles(space.mmu, a, m + n) == Cycles(space.mmu, a, m) + Cycles(space.mmu, Add32(a, m), n)
    ensures var first, all := PagedRead(space, mem, over, a, m, kind), PagedRead(space, mem, over, a, m + n, kind);
            if first.refused.Some? then
              all.refused == first.refused && all.over == first.over && Seen(m + n, all.bytes) == 0
            else
              var rest := PagedRead(space, mem, first.over, Add32(a, m), n, kind);
              && all.refused == rest.refused && all.over == rest.over
              && Seen(m + n, all.bytes)
                 == (if n == 1 then 0x100 else 0x1_0000) * Seen(m, first.bytes) + Seen(n, rest.bytes)
  {
    hide Cycles, ReadCycles, Seen;
    SplitRead(space.mmu, a, m);
    SplitRead(space.mmu, Add32(a, m), n);
    var first := PagedRead(space, mem, over, a, m, kind);
    PagedBytes(space, mem, over, a, m, kind);
    ReadCyclesAppend(space, mem, over, Cycles(space.mmu, a, m), Cycles(space.mmu, Add32(a, m), n), kind);
    if first.refused.Some? {
      SeenNothing(m + n, first.bytes);
    } else {
      var rest := PagedRead(space, mem, first.over, Add32(a, m), n, kind);
      PagedBytes(space, mem, first.over, Add32(a, m), n, kind);
      SeenJoins(m, n, first.bytes, rest.bytes);
    }
  }

  lemma OneCycle(space: Space, mem: seq<u8>, over: Option<(u32, u32)>, a: u32, n: nat, kind: Access)
    requires |mem| == TOP && 0 < n <= 4 && Cycles(space.mmu, a, n) == [Cycle(a, n)]
    ensures PagedRead(space, mem, over, a, n, kind) == OneRead(space, mem, over, Cycle(a, n), kind)
  {
    hide OneRead;
    assert [Cycle(a, n)][1..] == [];
    var r := OneRead(space, mem, over, Cycle(a, n), kind);
    assert r.bytes + [] == r.bytes && ReadCycles(space, mem, r.over, [], kind) == Read([], r.over, None);
  }

  lemma OneStore(space: Space, mem: seq<u8>, suppress: Option<u32>, a: u32, bytes: seq<u8>)
    requires |mem| == TOP && Stores(space.mmu, a, bytes) == [Store(a, bytes)]
    ensures PagedWrite(space, mem, suppress, a, bytes) == OneWrite(space, mem, suppress, Store(a, bytes))
  {
    hide OneWrite;
    assert [Store(a, bytes)][1..] == [];
    var w := OneWrite(space, mem, suppress, Store(a, bytes));
    assert WriteCycles(space, w.mem, w.suppress, []) == Written(w.mem, w.suppress, None);
  }

  lemma WriteInParts(space: Space, mem: seq<u8>, suppress: Option<u32>, a: u32, x: seq<u8>, y: seq<u8>)
    requires |mem| == TOP
    requires Stores(space.mmu, a, x + y) == Stores(space.mmu, a, x) + Stores(space.mmu, Add32(a, |x|), y)
    ensures var first, all := PagedWrite(space, mem, suppress, a, x), PagedWrite(space, mem, suppress, a, x + y);
            all == if first.refused.Some? then first
                   else PagedWrite(space, first.mem, first.suppress, Add32(a, |x|), y)
  {
    hide Stores, WriteCycles;
    WriteCyclesAppend(space, mem, suppress, Stores(space.mmu, a, x), Stores(space.mmu, Add32(a, |x|), y));
  }

  /** Fetches are no data reads: they never look at the override. */
  lemma FetchIgnoresOverride(space: Space, mem: seq<u8>, over: Option<(u32, u32)>, a: u32, n: nat)
    requires |mem| == TOP && 0 < n <= 4
    ensures PagedRead(space, mem, over, a, n, Fetch) == PagedRead(space, mem, None, a, n, Fetch).(over := over)
  {
    hide Cycles, ReadCycles;
    SplitRead(space.mmu, a, n);
    OverrideUnseen(space, mem, over, Cycles(space.mmu, a, n), Fetch);
  }

  class Cpu {
    var space: Space
    var mem: seq<u8>
    var pc: u32
    var readOverride: Option<(u32, u32)>
    var writeSuppress: Option<u32>
    var fault: Option<Refusal>          // the fault mode, with the refused cycle

    ghost predicate Valid()
      reads this
    {
      Maps(space.mmu) && |mem| == TOP
    }

    /** What a read does to the one-shot and the fault mode, and returns. */
    ghost predicate Answers(over: Option<(u32, u32)>, a: u32, n: nat, kind: Access, v: nat)
      requires Valid() && 0 < n <= 4
      reads this
    {
      var r := PagedRead(space, mem, over, a, n, kind);
      fault == r.refused && readOverride == r.over && v == Seen(n, r.bytes)
    }

    /** A read no one-shot and no host refusal played a part in. */
    ghost predicate IsPlain(over: Option<(u32, u32)>)
      reads this
    {
      readOverride == over && !HostRefused(fault)
    }

    ghost predicate ReadBytes(a: u32, n: nat, kind: Access, v: nat)
      requires Valid()
      reads this
    {
      At(fault) == Outcome(space.mmu, a, n, kind) && (fault.None? ==> ReadsAs(space.mmu, mem, a, n, kind, v))
    }

    /** One bus cycle; only data reads look at the override. */
    method ReadCycle(a: u32, n: nat, kind: Access) returns (v: nat)
      requires Valid() && fault.None? && 0 < n <= 4
      modifies this`fault, this`readOverride
      ensures var r := OneRead(space, mem, old(readOverride), Cycle(a, n), kind);
              fault == r.refused && readOverride == r.over && v == Seen(n, r.bytes)
    {
      hide Phys, Block, Seen;
      ghost var r := OneRead(space, mem, readOverride, Cycle(a, n), kind);
      if kind.DataRead? && readOverride.Some? && readOverride.value.0 == a {
        SeenWhole(r.bytes);
        v := Value(Bytes32(readOverride.value.1)[4 - n..]);
        readOverride := None;
        return;
      }
      var p := Phys(space.mmu, a, kind);
      SeenNothing(n, []);
      if p.None? {
        fault := Some(Unmapped(a, n));
        return 0;
      }
      var physical := Bus32.At(p.value);
      if space.refuses(physical, n, kind) {
        fault := Some(BusError(physical, n));
        return 0;
      }
      SeenWhole(r.bytes);
      v := Value(Block(Bus32, mem, p.value, n));
    }

    method WriteCycle(a: u32, bytes: seq<u8>)
      requires Valid() && fault.None?
      modifies this`fault, this`writeSuppress, this`mem
      ensures Valid()
      ensures var w := OneWrite(space, old(mem), old(writeSuppress), Store(a, bytes));
              fault == w.refused && writeSuppress == w.suppress && mem == w.mem
    {
      hide Phys, Write, Maps;
      if writeSuppress == Some(a) {
        writeSuppress := None;
        return;
      }
      var p := Phys(space.mmu, a, DataWrite);
      if p.None? {
        fault := Some(Unmapped(a, |bytes|));
        return;
      }
      var physical := Bus32.At(p.value);
      if space.refuses(physical, |bytes|, DataWrite) {
        fault := Some(BusError(physical, |bytes|));
        return;
      }
      mem := Write(Bus32, mem, p.value, bytes);
    }

    /** An access that stays in its page is one cycle. */
    method ReadWhole(a: u32, n: nat, kind: Access) returns (v: nat)
      requires Valid() && fault.None? && 0 < n <= 4 && Cycles(space.mmu, a, n) == [Cycle(a, n)]
      modifies this`fault, this`readOverride
      ensures Answers(old(readOverride), a, n, kind, v) && v < Limit(n)
    {
      hide Offset, PageSize, OneRead, Seen, Maps;
      OneCycle(space, mem, readOverride, a, n, kind);
      v := ReadCycle(a, n, kind);
    }

    lemma PlainAnswer(over: Option<(u32, u32)>, a: u32, n: nat, kind: Access, v: nat)
      requires Valid() && 0 < n <= 4 && Answers(over, a, n, kind, v)
      ensures IsPlain(over) ==> ReadBytes(a, n, kind, v)
    {
      hide PagedRead, Maps, ReadsAs, Outcome, Seen;
      if IsPlain(over) {
        PlainRead(space, mem, over, a, n, kind);
      }
    }

    method Read8(a: u32) returns (v: u8)
      requires Valid()
      modifies this`fault, this`readOverride
      ensures old(fault).Some? ==> fault == old(fault) && readOverride == old(readOverride) && v == 0
      ensures old(fault).None? ==> Answers(old(readOverride), a, 1, DataRead, v)
      ensures old(fault).None? && IsPlain(old(readOverride)) ==> ReadBytes(a, 1, DataRead, v)
    {
      ghost var was := readOverride;
      hide Offset, PageSize, OneRead, ReadCycles, Seen, Maps, ReadsAs, Outcome;
      if fault.Some? {
        return 0;
      }
      v := ReadWhole(a, 1, DataRead);
      PlainAnswer(was, a, 1, DataRead, v);
    }

    method Read16(a: u32) returns (v: u16)
      requires Valid()
      modifies this`fault, this`readOverride
      ensures old(fault).Some? ==> fault == old(fault) && readOverride == old(readOverride) && v == 0
      ensures old(fault).None? ==> Answers(old(readOverride), a, 2, DataRead, v)
      ensures old(fault).None? && IsPlain(old(readOverride)) ==> ReadBytes(a, 2, DataRead, v)
    {
      ghost var was := readOverride;
      hide Offset, PageSize, OneRead, ReadCycles, Seen, Maps, ReadsAs, Outcome;
      if fault.Some? {
        return 0;
      }
      if Offset(space.mmu, a) == PageSize(space.mmu.tc) - 1 {
        ReadInParts(space, mem, readOverride, a, 1, 1, DataRead);
        var hi := Read8(a);
        if fault.Some? {
          v := 0;
        } else {
          var lo := Read8(Add32(a, 1));
          v := hi as int * 0x100 + lo;
        }
      } else {
        v := ReadWhole(a, 2, DataRead);
      }
      PlainAnswer(was, a, 2, DataRead, v);
    }

    method Read24(a: u32) returns (v: u32)
      requires Valid()
      modifies this`fault, this`readOverride
      ensures old(fault).Some? ==> fault == old(fault) && readOverride == old(readOverride) && v == 0
      ensures old(fault).None? ==> Answers(old(readOverride), a, 3, DataRead, v)
      ensures old(fault).None? && IsPlain(old(readOverride)) ==> ReadBytes(a, 3, DataRead, v)
    {
      ghost var was := readOverride;
      hide Offset, PageSize, OneRead, ReadCycles, Seen, Maps, ReadsAs, Outcome;
      if fault.Some? {
        return 0;
      }
      if Offset(space.mmu, a) > PageSize(space.mmu.tc) - 1 - 2 {
        ReadInParts(space, mem, readOverride, a, 2, 1, DataRead);
        var hi := Read16(a);
        if fault.Some? {
          v := 0;
        } else {
          var lo := Read8(Add32(a, 2));
          v := hi as int * 0x100 + lo;
        }
      } else {
        v := ReadWhole(a, 3, DataRead);
      }
      PlainAnswer(was, a, 3, DataRead, v);
    }

    method Read32(a: u32) returns (v: u32)
      requires Valid()
      modifies this`fault, this`readOverride
      ensures old(fault).Some? ==> fault == old(fault) && readOverride == old(readOverride) && v == 0
      ensures old(fault).None? ==> Answers(old(readOverride), a, 4, DataRead, v)
      ensures old(fault).None? && IsPlain(old(readOverride)) ==> ReadBytes(a, 4, DataRead, v)
    {
      ghost var was := readOverride;
      hide Offset, PageSize, OneRead, ReadCycles, Seen, Maps, ReadsAs, Outcome;
      if fault.Some? {
        return 0;
      }
      if Offset(space.mmu, a) > PageSize(space.mmu.tc) - 1 - 3 {
        ReadInParts(space, mem, readOverride, a, 2, 2, DataRead);
        var hi := Read16(a);
        if fault.Some? {
          v := 0;
        } else {
          var lo := Read16(Add32(a, 2));
          v := hi as int * 0x1_0000 + lo;
        }
      } else {
        v := ReadWhole(a, 4, DataRead);
      }
      PlainAnswer(was, a, 4, DataRead, v);
    }

    ghost predicate Does(was: seq<u8>, armed: Option<u32>, a: u32, bytes: seq<u8>)
      requires |was| == TOP
      reads this
    {
      var w := PagedWrite(space, was, armed, a, bytes);
      fault == w.refused && writeSuppress == w.suppress && mem == w.mem
    }

    ghost predicate StoresPlainly(armed: Option<u32>)
      reads this
    {
      writeSuppress == armed && !HostRefused(fault)
    }

    ghost predicate StoresBytes(was: seq<u8>, a: u32, bytes: seq<u8>)
      requires Maps(space.mmu) && |was| == TOP
      reads this
    {
      At(fault) == Outcome(space.mmu, a, |bytes|, DataWrite) && mem == AfterWrite(space.mmu, was, a, bytes)
    }

    method WriteWhole(a: u32, bytes: seq<u8>)
      requires Valid() && fault.None? && bytes != [] && Stores(space.mmu, a, bytes) == [Store(a, bytes)]
      modifies this`fault, this`mem, this`writeSuppress
      ensures Valid() && Does(old(mem), old(writeSuppress), a, bytes)
    {
      hide Offset, PageSize, OneWrite, Maps;
      OneStore(space, mem, writeSuppress, a, bytes);
      WriteCycle(a, bytes);
    }

    lemma PlainStore(was: seq<u8>, armed: Option<u32>, a: u32, bytes: seq<u8>)
      requires Maps(space.mmu) && |was| == TOP && 0 < |bytes| <= 4 && Does(was, armed, a, bytes)
      ensures StoresPlainly(armed) ==> StoresBytes(was, a, bytes)
    {
      hide PagedWrite, Maps, AfterWrite, Outcome;
      if StoresPlainly(armed) {
        PlainWrite(space, was, armed, a, bytes);
      }
    }

    method Write8(a: u32, value: u8)
      requires Valid()
      modifies this`fault, this`mem, this`writeSuppress
      ensures Valid()
      ensures old(fault).Some? ==> fault == old(fault) && mem == old(mem) && writeSuppress == old(writeSuppress)
      ensures old(fault).None? ==> Does(old(mem), old(writeSuppress), a, [value])
      ensures old(fault).None? && StoresPlainly(old(writeSuppress)) ==> StoresBytes(old(mem), a, [value])
    {
      hide Offset, PageSize, OneWrite, WriteCycles, Maps, AfterWrite, Outcome;
      if fault.Some? {
        return;
      }
      ghost var was, armed := mem, writeSuppress;
      WriteWhole(a, [value]);
      PlainStore(was, armed, a, [value]);
    }

    method Write16(a: u32, value: u16)
      requires Valid()
      modifies this`fault, this`mem, this`writeSuppress
      ensures Valid()
      ensures old(fault).Some? ==> fault == old(fault) && mem == old(mem) && writeSuppress == old(writeSuppress)
      ensures old(fault).None? ==> Does(old(mem), old(writeSuppress), a, Bytes16(value))
      ensures old(fault).None? && StoresPlainly(old(writeSuppress)) ==> StoresBytes(old(mem), a, Bytes16(value))
    {
      hide Offset, PageSize, OneWrite, WriteCycles, Maps, AfterWrite, Outcome;
      if fault.Some? {
        return;
      }
      ghost var was, armed := mem, writeSuppress;
      if Offset(space.mmu, a) == PageSize(space.mmu.tc) - 1 {
        assert Bytes16(value) == [value / 0x100] + [value % 0x100];
        WriteInParts(space, mem, writeSuppress, a, [value / 0x100], [value % 0x100]);
        Write8(a, value / 0x100);
        if fault.None? {
          Write8(Add32(a, 1), value % 0x100);
        }
      } else {
        WriteWhole(a, Bytes16(value));
      }
      PlainStore(was, armed, a, Bytes16(value));
    }

    method Write24(a: u32, value: u32)
      requires Valid()
      modifies this`fault, this`mem, this`writeSuppress
      ensures Valid()
      ensures old(fault).Some? ==> fault == old(fault) && mem == old(mem) && writeSuppress == old(writeSuppress)
      ensures old(fault).None? ==> Does(old(mem), old(writeSuppress), a, Bytes24(value))
      ensures old(fault).None? && StoresPlainly(old(writeSuppress)) ==> StoresBytes(old(mem), a, Bytes24(value))
    {
      hide Offset, PageSize, OneWrite, WriteCycles, Maps, AfterWrite, Outcome;
      if fault.Some? {
        return;
      }
      ghost var was, armed := mem, writeSuppress;
      if Offset(space.mmu, a) > PageSize(space.mmu.tc) - 1 - 2 {
        WriteInParts(space, mem, writeSuppress, a, Bytes16(value / 0x100 % 0x1_0000), [value % 0x100]);
        Write16(a, value / 0x100 % 0x1_0000);
        if fault.None? {
          Write8(Add32(a, 2), value % 0x100);
        }
      } else {
        WriteWhole(a, Bytes24(value));
      }
      PlainStore(was, armed, a, Bytes24(value));
    }

    method Write32(a: u32, value: u32)
      requires Valid()
      modifies this`fault, this`mem, this`writeSuppress
      ensures Valid()
      ensures old(fault).Some? ==> fault == old(fault) && mem == old(mem) && writeSuppress == old(writeSuppress)
      ensures old(fault).None? ==> Does(old(mem), old(writeSuppress), a, Bytes32(value))
      ensures old(fault).None? && StoresPlainly(old(writeSuppress)) ==> StoresBytes(old(mem), a, Bytes32(value))
    {
      hide Offset, PageSize, OneWrite, WriteCycles, Maps, AfterWrite, Outcome;
      if fault.Some? {
        return;
      }
      ghost var was, armed := mem, writeSuppress;
      if Offset(space.mmu, a) > PageSize(space.mmu.tc) - 1 - 3 {
        WriteInParts(space, mem, writeSuppress, a, Bytes16(value / 0x1_0000), Bytes16(value % 0x1_0000));
        Write16(a, value / 0x1_0000);
        if fault.None? {
          Write16(Add32(a, 2), value % 0x1_0000);
        }
      } else {
        WriteWhole(a, Bytes32(value));
      }
      PlainStore(was, armed, a, Bytes32(value));
    }

    /** An extension word at the PC. An odd PC is an address error. */
    method ReadImm16() returns (v: u16)
      requires Valid() && fault.None?
      modifies this`fault, this`readOverride, this`pc
      ensures readOverride == old(readOverride)
      ensures pc == if fault.None? then Add32(old(pc), 2) else old(pc)
      ensures old(pc) % 2 != 0 ==> fault == Some(OddPc(old(pc), 2)) && v == 0
      ensures old(pc) % 2 == 0 ==> Answers(readOverride, old(pc), 2, Fetch, v)
      ensures old(pc) % 2 == 0 && !HostRefused(fault) ==> ReadBytes(old(pc), 2, Fetch, v)
    {
      hide Offset, PageSize, PagedRead, Seen, Maps, ReadsAs, Outcome;
      if pc % 2 != 0 {
        fault := Some(OddPc(pc, 2));
        return 0;
      }
      EvenOffset(space.mmu, pc);
      FetchIgnoresOverride(space, mem, readOverride, pc, 2);
      var value := ReadWhole(pc, 2, Fetch);
      v := value;
      PlainAnswer(readOverride, pc, 2, Fetch, v);
      if fault.None? {
        pc := Add32(pc, 2);
      }
    }

    /** Two extension words; on a page boundary each through its own page. */
    method ReadImm32() returns (v: u32)
      requires Valid() && fault.None?
      modifies this`fault, this`readOverride, this`pc
      ensures readOverride == old(readOverride)
      ensures fault.None? ==> pc == Add32(old(pc), 4)
      ensures old(pc) % 2 != 0 ==> fault == Some(OddPc(old(pc), 2)) && v == 0
      ensures old(pc) % 2 == 0 ==> Answers(readOverride, old(pc), 4, Fetch, v)
      ensures old(pc) % 2 == 0 && !HostRefused(fault) ==> ReadBytes(old(pc), 4, Fetch, v)
    {
      hide Offset, PageSize, PagedRead, Seen, Maps, ReadsAs, Outcome;
      ghost var a, armed := pc, readOverride;
      if pc % 2 != 0 {
        fault := Some(OddPc(pc, 2));
        return 0;
      }
      FetchIgnoresOverride(space, mem, readOverride, pc, 4);
      if Offset(space.mmu, pc) > PageSize(space.mmu.tc) - 1 - 3 {
        ReadInParts(space, mem, readOverride, pc, 2, 2, Fetch);
        EvenStep(pc);
        var hi := ReadImm16();
        if fault.Some? {
          v := 0;
        } else {
          var lo := ReadImm16();
          v := hi as int * 0x1_0000 + lo;
        }
      } else {
        v := ReadWhole(pc, 4, Fetch);
        if fault.None? {
          pc := Add32(pc, 4);
        }
      }
      PlainAnswer(armed, a, 4, Fetch, v);
    }
  }

  lemma Divided(a: nat, s: nat) returns (q: nat, r: nat)
    requires s > 0
    ensures r == a % s && a == q * s + r && r < s
  {
    q, r := a / s, a % s;
  }

  lemma EvenRemainder(a: nat, h: nat, q: nat, r: nat)
    requires a % 2 == 0 && a == q * (2 * h) + r && r < 2 * h
    ensures r + 2 <= 2 * h
  {
    var m := q * h;
    assert q * (2 * h) == 2 * m;
    assert r == a - 2 * m;
  }

  /** Pages are even, so a word at an even address never straddles one. */
  lemma EvenOffset(mmu: Mmu, a: u32)
    requires a % 2 == 0
    ensures Offset(mmu, a) + 2 <= PageSize(mmu.tc)
  {
    hide PageSize;
    var h := EvenPages(mmu.tc);
    var q, r := Divided(a, PageSize(mmu.tc));
    EvenRemainder(a, h, q, r);
  }

  lemma EvenPages(tc: Paging) returns (h: nat)
    ensures PageSize(tc) == 2 * h
  {
    h := PageSize(tc) / 2;
  }

  lemma EvenStep(a: u32)
    requires a % 2 == 0
    ensures Add32(a, 2) % 2 == 0 && Add32(Add32(a, 2), 2) == Add32(a, 4)
  {
  }
}
