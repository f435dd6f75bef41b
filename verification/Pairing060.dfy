/** `cycles_060`: retrospective superscalar pairing, branch folding and what
    they cost over whole instruction streams. */
module Pairing060 {
  import opened Words
  import opened Timing060
  import opened BranchCache060

  const PCR_ESS: bv32 := 0x0000_0001
  const CACR_060_EBC: bv32 := 0x0080_0000
  const CACR_060_CABC: bv32 := 0x0040_0000
  const CACR_060_CUBC: bv32 := 0x0020_0000

  /** The CACR bits the 68060 stores; the clear strobes are not among them. */
  const CACR_060_STORED: bv32 := 0xF880_E000

  /** The instruction in the pOEP whose sOEP slot is still open. */
  datatype Head = Head(defMask: bv16, definesCcr: bool, accessedMem: bool, headCached: bool)

  datatype Timing = Timing(slots: Slots, head: Option<Head>)

  /** Everything `cycles_060` reads about the instruction that just retired. */
  datatype Retired = Retired(ir: bv16, raw: int, cached: bool, flowed: bool,
                             pc: u32, ppc: u32, branchCacheOn: bool, user: bool)

  // ---------------------------------------------------------- specification

  /** `i32` division truncates toward zero. */
  function TruncDiv4(raw: int): int {
    if raw >= 0 then raw / 4 else -((-raw) / 4)
  }

  function FallbackCycles(raw: int): int {
    var scaled := TruncDiv4(raw);
    if scaled >= 1 then scaled else 1
  }

  predicate Taken(info: Info060, r: Retired) {
    if info.Has(DBCC) then r.pc != Add32(r.ppc, 4) else r.flowed
  }

  function BranchCost(slots: Slots, r: Retired, taken: bool, isDbcc: bool, foldTargetOpen: bool): (Slots, int) {
    if !r.branchCacheOn || !r.cached then
      (slots,
       if isDbcc then (if taken then CYC_DBCC_TAKEN else CYC_DBCC_EXPIRED)
       else if taken then CYC_BRANCH_TAKEN else CYC_BRANCH_NOT_TAKEN)
    else
      var predicted := Predict(slots, r.ppc) == Some(true);
      (Updated(slots, r.ppc, taken, r.user),
       if predicted != taken then CYC_MISPREDICT
       else if taken && foldTargetOpen then 0 else 1)
  }

  /** MC68060UM Table 10-1, as the model applies it. */
  predicate MayDispatchBehind(head: Head, info: Info060, uses: bv16, defs: bv16, cached: bool) {
    && head.headCached && cached
    && info.class_ == PoepSoep
    && !info.Has(EA_INDEXED) && !info.Has(UNCLASSIFIED) && !info.Has(VARIABLE)
    && (uses | defs) & head.defMask == 0
    && !(info.Has(USES_CCR_LATE) && head.definesCcr)
    && !(head.accessedMem && (info.Has(READS_MEM) || info.Has(WRITES_MEM)))
  }

  /** The timing entry and the (use, def) masks of the retired opcode. */
  datatype Decoded = Decoded(info: Info060, uses: bv16, defs: bv16)

  function Decode(op: bv16): Decoded {
    Decoded(Classify(op), RegMasks(op).0, RegMasks(op).1)
  }

  predicate Pairs(ess: bool, t: Timing, r: Retired, d: Decoded) {
    ess && t.head.Some? && MayDispatchBehind(t.head.value, d.info, d.uses, d.defs, r.cached)
  }

  function BaseCycles(r: Retired, info: Info060): int {
    (if info.Has(VARIABLE) || info.Has(UNCLASSIFIED) then FallbackCycles(r.raw) else info.cycles)
    + if info.Has(EA_INDEXED) then 1 else 0
  }

  function HeadOf(r: Retired, d: Decoded): Option<Head> {
    if d.info.class_ == PoepOnly then None
    else Some(Head(d.defs, d.info.Has(DEFINES_CCR),
                   d.info.Has(READS_MEM) || d.info.Has(WRITES_MEM), r.cached))
  }

  function RetireAs(ess: bool, t: Timing, r: Retired, d: Decoded): (Timing, int) {
    if d.info.Has(BRANCH) then
      var (slots, cost) := BranchCost(t.slots, r, Taken(d.info, r), d.info.Has(DBCC), t.head.Some?);
      (Timing(slots, None), cost)
    else if r.flowed then
      (t.(head := None), if FallbackCycles(r.raw) >= CYC_FLOW_MIN then FallbackCycles(r.raw) else CYC_FLOW_MIN)
    else if Pairs(ess, t, r, d) then
      (t.(head := None), if BaseCycles(r, d.info) >= 1 then BaseCycles(r, d.info) - 1 else 0)
    else
      (t.(head := HeadOf(r, d)), BaseCycles(r, d.info))
  }

  function Retire(ess: bool, t: Timing, r: Retired): (Timing, int) {
    RetireAs(ess, t, r, Decode(r.ir))
  }

  // --------------------------------------------------------- implementation

  /** The processor fields the timing model reads and writes. */
  class Cpu060 {
    var ir: bv16
    var pc: u32
    var ppc: u32
    var changeOfFlow: bool
    var sFlag: bool
    var pcr: bv32
    var cacr: bv32
    const branchCache: BranchCache
    var pendingHead: Option<Head>

    ghost predicate Valid()
      reads this, branchCache, branchCache.tags, branchCache.state
    {
      branchCache.Valid()
    }

    ghost function View(): Timing
      requires Valid()
      reads this, branchCache, branchCache.tags, branchCache.state
    {
      Timing(branchCache.View(), pendingHead)
    }

    ghost function Inputs(raw: int, fetchCached: bool): Retired
      reads this
    {
      Retired(ir, raw, fetchCached, changeOfFlow, pc, ppc, cacr & CACR_060_EBC != 0, !sFlag)
    }

    constructor ()
      ensures Valid() && View() == Timing(NoEntries(), None)
      ensures fresh(branchCache) && fresh(branchCache.tags) && fresh(branchCache.state)
    {
      branchCache := new BranchCache();
      pendingHead := None;
    }

    method BranchCost060(taken: bool, isDbcc: bool, fetchCached: bool, foldTargetOpen: bool, ghost r: Retired)
      returns (cost: int)
      requires Valid() && r == Inputs(r.raw, fetchCached)
      modifies branchCache.tags, branchCache.state
      ensures Valid()
      ensures (branchCache.View(), cost)
              == BranchCost(old(branchCache.View()), r, taken, isDbcc, foldTargetOpen)
    {
      if cacr & CACR_060_EBC == 0 || !fetchCached {
        if isDbcc {
          return if taken then CYC_DBCC_TAKEN else CYC_DBCC_EXPIRED;
        }
        return if taken then CYC_BRANCH_TAKEN else CYC_BRANCH_NOT_TAKEN;
      }
      var user := !sFlag;
      var prediction := branchCache.Lookup(ppc);
      var predictedTaken := prediction == Some(true);
      if predictedTaken && taken {
        cost := if foldTargetOpen then 0 else 1;
      } else if !predictedTaken && !taken {
        cost := 1;
      } else {
        cost := CYC_MISPREDICT;
      }
      branchCache.Record(ppc, taken, user);
    }

    method SoepDispatchTest(head: Head, info: Info060, uses: bv16, defs: bv16, fetchCached: bool)
      returns (pairs: bool)
      ensures pairs <==> pcr & PCR_ESS != 0 && MayDispatchBehind(head, info, uses, defs, fetchCached)
    {
      if pcr & PCR_ESS == 0 {
        return false;
      }
      if !(head.headCached && fetchCached) {
        return false;
      }
      if info.class_ != PoepSoep || info.Has(EA_INDEXED) || info.Has(UNCLASSIFIED) || info.Has(VARIABLE) {
        return false;
      }
      if (uses | defs) & head.defMask != 0 {
        return false;
      }
      if info.Has(USES_CCR_LATE) && head.definesCcr {
        return false;
      }
      if head.accessedMem && (info.Has(READS_MEM) || info.Has(WRITES_MEM)) {
        return false;
      }
      return true;
    }

    /** MOVEC to CACR: the clear strobes act at once and never read back, and
        switching the branch cache off empties it. */
    method WriteCacr(value: bv32)
      requires Valid()
      modifies this`cacr, branchCache.tags, branchCache.state
      ensures Valid() && cacr == value & CACR_060_STORED
      ensures cacr & (CACR_060_CABC | CACR_060_CUBC) == 0
      ensures var was := old(View());
              View() == if value & CACR_060_CABC != 0
                           || (old(cacr) & CACR_060_EBC != 0 && value & CACR_060_EBC == 0)
                        then Step(false, was, ClearAllBranches).0
                        else if value & CACR_060_CUBC != 0 then Step(false, was, ClearUserBranches).0
                        else was
    {
      if value & CACR_060_CABC != 0 {
        branchCache.ClearAll();
      } else if value & CACR_060_CUBC != 0 {
        branchCache.ClearUser();
      }
      if cacr & CACR_060_EBC != 0 && value & CACR_060_EBC == 0 {
        branchCache.ClearAll();
      }
      cacr := value & CACR_060_STORED;
    }

    method Cycles060(raw: int, fetchCached: bool) returns (cost: int)
      requires Valid()
      modifies this`pendingHead, branchCache.tags, branchCache.state
      ensures Valid()
      ensures (View(), cost) == Retire(pcr & PCR_ESS != 0, old(View()), old(Inputs(raw, fetchCached)))
    {
      cost := DecodedCycles060(Decode(ir), raw, fetchCached);
    }

    method DecodedCycles060(d: Decoded, raw: int, fetchCached: bool) returns (cost: int)
      requires Valid()
      modifies this`pendingHead, branchCache.tags, branchCache.state
      ensures Valid()
      ensures (View(), cost) == RetireAs(pcr & PCR_ESS != 0, old(View()), old(Inputs(raw, fetchCached)), d)
    {
      ghost var r := Inputs(raw, fetchCached);
      var info := d.info;
      if info.Has(BRANCH) {
        var taken := if info.Has(DBCC) then pc != Add32(ppc, 4) else changeOfFlow;
        var foldTargetOpen := pendingHead.Some?;
        pendingHead := None;
        cost := BranchCost060(taken, info.Has(DBCC), fetchCached, foldTargetOpen, r);
        return;
      }
      if changeOfFlow {
        pendingHead := None;
        var refill := FallbackCycles(raw);
        return if refill >= CYC_FLOW_MIN then refill else CYC_FLOW_MIN;
      }
      cost := if info.Has(VARIABLE) || info.Has(UNCLASSIFIED) then FallbackCycles(raw) else info.cycles;
      if info.Has(EA_INDEXED) {
        cost := cost + 1;
      }
      cost := DispatchOrLead(d, fetchCached, cost, r);
    }

    /** The retrospective part: ride in the open sOEP slot of the previous
        instruction, or become the new head if the class leaves one open. */
    method DispatchOrLead(d: Decoded, fetchCached: bool, alone: nat, ghost r: Retired) returns (cost: int)
      requires r == Inputs(r.raw, fetchCached)
      modifies this`pendingHead
      ensures var t := Timing(NoEntries(), old(pendingHead));
              if Pairs(pcr & PCR_ESS != 0, t, r, d)
              then pendingHead == None && cost == if alone >= 1 then alone - 1 else 0
              else pendingHead == HeadOf(r, d) && cost == alone
    {
      if pendingHead.Some? {
        var pairs := SoepDispatchTest(pendingHead.value, d.info, d.uses, d.defs, fetchCached);
        if pairs {
          pendingHead := None;
          return if alone - 1 >= 0 then alone - 1 else 0;
        }
      }
      match d.info.class_ {
        case PoepOnly =>
          pendingHead := None;
        case _ =>
          pendingHead := Some(Head(d.defs, d.info.Has(DEFINES_CCR),
                                   d.info.Has(READS_MEM) || d.info.Has(WRITES_MEM), fetchCached));
      }
      return alone;
    }
  }

  // ------------------------------------------------------------ whole runs

  /** What can happen to the timing state between two fetches: an instruction
      retires, something breaks the pipeline (exceptions, stops, traps), or
      CACR.CABC / CACR.CUBC strobes the branch cache. */
  datatype Event = Ins(r: Retired) | PipelineBreak | ClearAllBranches | ClearUserBranches

  function Step(ess: bool, t: Timing, e: Event): (Timing, int) {
    match e
    case Ins(r) => Retire(ess, t, r)
    case PipelineBreak => (t.(head := None), 0)
    case ClearAllBranches => (t.(slots := NoEntries()), 0)
    case ClearUserBranches => (t.(slots := UserCleared(t.slots)), 0)
  }

  /** Total cycles of a run; `ess[i]` is PCR.ESS while event `i` happens. */
  function Total(ess: seq<bool>, t: Timing, run: seq<Event>): int
    requires |ess| == |run|
  {
    if run == [] then 0
    else var (next, cost) := Step(ess[0], t, run[0]); cost + Total(ess[1..], next, run[1..])
  }

  function RetiredCount(run: seq<Event>): nat {
    if run == [] then 0 else (if run[0].Ins? then 1 else 0) + RetiredCount(run[1..])
  }

  function Open(t: Timing): nat {
    if t.head.Some? then 1 else 0
  }

  lemma BaseCyclesPositive(r: Retired)
    requires !IsBranch(r.ir)
    ensures BaseCycles(r, Classify(r.ir)) >= 1
  {
    ClassifyShape(r.ir);
  }

  lemma BranchFlag(op: bv16)
    ensures Classify(op).Has(BRANCH) <==> IsBranch(op)
  {
    ClassifyShape(op);
  }

  /** One event pays for what it retires: half a clock per instruction, the
      other half lent by the window an earlier instruction left open. */
  lemma StepPaysForRetirement(ess: bool, t: Timing, e: Event)
    ensures var (next, cost) := Step(ess, t, e);
            cost >= 0 && 2 * cost + Open(t) >= (if e.Ins? then 1 else 0) + Open(next)
  {
    if e.Ins? {
      BranchFlag(e.r.ir);
      if !IsBranch(e.r.ir) {
        BaseCyclesPositive(e.r);
      }
    }
  }

  /** At most two instructions per clock: twice the cycles of any run, plus one
      if a pairing window was open at its start, covers what it retired. */
  lemma {:induction false} AtMostTwoPerClock(ess: seq<bool>, t: Timing, run: seq<Event>)
    requires |ess| == |run|
    ensures Total(ess, t, run) >= 0
    ensures 2 * Total(ess, t, run) + Open(t) >= RetiredCount(run)
  {
    if run != [] {
      StepPaysForRetirement(ess[0], t, run[0]);
      AtMostTwoPerClock(ess[1..], Step(ess[0], t, run[0]).0, run[1..]);
    }
  }

  /** How far the run that pairs less may be behind the other in open windows:
      it holds a window that the other has already spent on a pair. */
  function Lent(more: Timing, less: Timing): nat {
    if more.head.None? && less.head.Some? then 1 else 0
  }

  predicate Alike(more: Timing, less: Timing) {
    && more.slots == less.slots
    && (more.head.Some? && less.head.Some? ==> more.head == less.head)
  }

  lemma StepKeepsTheLead(essMore: bool, essLess: bool, more: Timing, less: Timing, e: Event)
    requires essLess ==> essMore
    requires Alike(more, less)
    ensures var (more', a) := Step(essMore, more, e);
            var (less', b) := Step(essLess, less, e);
            Alike(more', less') && a + Lent(more', less') <= b + Lent(more, less)
  {
    if e.Ins? {
      BranchFlag(e.r.ir);
      if !IsBranch(e.r.ir) {
        BaseCyclesPositive(e.r);
      }
    }
  }

  lemma {:induction false} LeadOverRuns(essMore: seq<bool>, essLess: seq<bool>, more: Timing, less: Timing, run: seq<Event>)
    requires |essMore| == |essLess| == |run|
    requires forall i :: 0 <= i < |run| && essLess[i] ==> essMore[i]
    requires Alike(more, less)
    ensures Total(essMore, more, run) <= Total(essLess, less, run) + Lent(more, less)
  {
    if run != [] {
      StepKeepsTheLead(essMore[0], essLess[0], more, less, run[0]);
      LeadOverRuns(essMore[1..], essLess[1..],
                   Step(essMore[0], more, run[0]).0, Step(essLess[0], less, run[0]).0, run[1..]);
    }
  }

  /** Enabling superscalar dispatch never slows a program: whatever PCR.ESS
      does over one run, having it set at more points costs no more cycles. */
  lemma SuperscalarNeverSlower(essMore: seq<bool>, essLess: seq<bool>, t: Timing, run: seq<Event>)
    requires |essMore| == |essLess| == |run|
    requires forall i :: 0 <= i < |run| && essLess[i] ==> essMore[i]
    ensures Total(essMore, t, run) <= Total(essLess, t, run)
  {
    LeadOverRuns(essMore, essLess, t, t, run);
  }

  /** The comparison holds for totals only. With a predicted `bra` after two
      MOVEQs, pairing spends the window the branch would have folded into, so
      the branch by itself costs more with PCR.ESS set. */
  lemma PairingCanCostABranchItsFold()
    ensures exists t: Timing, first: Retired, bra: Retired ::
              var paired := Retire(true, t, first).0;
              var scalar := Retire(false, t, first).0;
              Retire(true, paired, bra).1 > Retire(false, scalar, bra).1
  {
    var slots := NoEntries()[0 := Entry(0, 3, false)];
    var t := Timing(slots, Some(Head(0x0001, true, false, true)));
    var first := Retired(0x7201, 4, true, false, 2, 0, true, false);
    var bra := Retired(0x60FE, 10, true, true, 0, 0, true, false);
    ClassifyShape(bra.ir);
    assert Classify(0x7201) == Info060(PoepSoep, 1, {DEFINES_CCR});
    assert RegMasks(0x7201) == (0, 0x0002);
    assert Pairs(true, t, first, Decode(first.ir));
    var paired := Retire(true, t, first).0;
    var scalar := Retire(false, t, first).0;
    assert Retire(true, paired, bra).1 == 1 && Retire(false, scalar, bra).1 == 0;
  }
}
