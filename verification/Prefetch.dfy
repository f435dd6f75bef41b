/** The two-word prefetch queue of the 68000 and 68010: its micro-operations,
    and over any run of them coherence with memory and the count of fetches. */
module Prefetch {
  import opened Words
  import opened BusMemory

  function WordAt(mem: seq<u8>, a: int): u16
    requires Bus24.Holds(mem)
  {
    Read16(Bus24, mem, a)
  }

  // -------------------------------------------------- the queue by itself

  /** PC, valid queue words, memory, and how many fetches the bus has seen. */
  datatype Front = Front(pc: u32, queue: seq<u16>, mem: seq<u8>, fetches: nat)

  predicate Sound(f: Front) {
    Bus24.Holds(f.mem) && |f.queue| <= 2
  }

  /** Queue word i is the memory word at PC + 2i. */
  predicate Coherent(f: Front)
    requires Sound(f)
  {
    forall i :: 0 <= i < |f.queue| ==> f.queue[i] == WordAt(f.mem, f.pc + 2 * i)
  }

  /** `consume_imm_16_no_prefetch`: the word and the state behind it. */
  function Consumed(f: Front): (r: Front)
    requires Sound(f)
    ensures Sound(r)
  {
    if f.queue == [] then f.(pc := Add32(f.pc, 2), fetches := f.fetches + 1)
    else f.(pc := Add32(f.pc, 2), queue := f.queue[1..])
  }

  function NextWord(f: Front): u16
    requires Sound(f)
  {
    if f.queue == [] then WordAt(f.mem, f.pc) else f.queue[0]
  }

  /** `top_up_prefetch_one`. */
  function ToppedUpOne(f: Front): (r: Front)
    requires Sound(f)
    ensures Sound(r)
  {
    if |f.queue| >= 2 then f
    else f.(queue := f.queue + [WordAt(f.mem, f.pc + 2 * |f.queue|)], fetches := f.fetches + 1)
  }

  /** `top_up_prefetch`. */
  function ToppedUp(f: Front): (r: Front)
    requires Sound(f)
    ensures Sound(r) && |r.queue| == 2
  {
    ToppedUpOne(ToppedUpOne(f))
  }

  /** `prefetch_first` and `prefetch_second`, at a new PC. */
  function FirstRefill(f: Front): (r: Front)
    requires Sound(f)
    ensures Sound(r) && |r.queue| == 1
  {
    f.(queue := [WordAt(f.mem, f.pc)], fetches := f.fetches + 1)
  }

  function SecondRefill(f: Front): (r: Front)
    requires Sound(f)
    ensures Sound(r)
  {
    if |f.queue| != 1 then f
    else f.(queue := f.queue + [WordAt(f.mem, f.pc + 2)], fetches := f.fetches + 1)
  }

  // -------------------------------------------------------------- any run

  datatype Event =
    | Opcode                                  // a word consumed without its refill
    | Extension                               // a word consumed, the np prefetch behind it
    | NpPrefetch
    | FinalPrefetch                           // the end-of-instruction top-up
    | Flow(target: u32)                       // both refill reads
    | FlowFirst(target: u32)                  // the first one, other accesses to follow
    | FlowSecond
    | Store(at: nat, value: u8)

  /** Byte `at` belongs to the word queue slot `i` stands for. */
  predicate InSlot(f: Front, i: nat, at: nat) {
    Bus24.At(f.pc + 2 * i) == at || Bus24.At(f.pc + 2 * i + 1) == at
  }

  predicate Unqueued(f: Front, at: nat) {
    forall i :: 0 <= i < |f.queue| ==> !InSlot(f, i, at)
  }

  function Step(f: Front, e: Event): (r: Front)
    requires Sound(f)
    ensures Sound(r)
  {
    match e
    case Opcode => Consumed(f)
    case Extension => ToppedUpOne(Consumed(f))
    case NpPrefetch => ToppedUpOne(f)
    case FinalPrefetch => ToppedUp(f)
    case Flow(t) => SecondRefill(FirstRefill(f.(pc := t)))
    case FlowFirst(t) => FirstRefill(f.(pc := t))
    case FlowSecond => SecondRefill(f)
    case Store(at, v) => if at < |f.mem| then f.(mem := f.mem[at := v]) else f
  }

  function Run(f: Front, run: seq<Event>): (r: Front)
    requires Sound(f)
    ensures Sound(r)
    decreases |run|
  {
    if run == [] then f else Run(Step(f, run[0]), run[1..])
  }

  /** Stores spare the queued words. */
  predicate Spares(f: Front, run: seq<Event>)
    requires Sound(f)
    decreases |run|
  {
    run != [] ==> (run[0].Store? ==> Unqueued(f, run[0].at)) && Spares(Step(f, run[0]), run[1..])
  }

  predicate Consumes(e: Event) {
    e.Opcode? || e.Extension?
  }

  /** The words a run takes out of the queue. */
  function Stream(f: Front, run: seq<Event>): seq<u16>
    requires Sound(f)
    decreases |run|
  {
    if run == [] then []
    else (if Consumes(run[0]) then [NextWord(f)] else []) + Stream(Step(f, run[0]), run[1..])
  }

  /** The words that direct reads at the PC would have returned instead. */
  function DirectReads(f: Front, run: seq<Event>): seq<u16>
    requires Sound(f)
    decreases |run|
  {
    if run == [] then []
    else (if Consumes(run[0]) then [WordAt(f.mem, f.pc)] else []) + DirectReads(Step(f, run[0]), run[1..])
  }

  lemma ConsumedCoherent(f: Front)
    requires Sound(f) && Coherent(f)
    ensures Coherent(Consumed(f)) && NextWord(f) == WordAt(f.mem, f.pc)
  {
    assert f.pc + 2 * 0 == f.pc;
    var r := Consumed(f);
    forall i | 0 <= i < |r.queue|
      ensures r.queue[i] == WordAt(r.mem, r.pc + 2 * i)
    {
      assert r.queue[i] == f.queue[i + 1];
      WrappedWord(f.mem, f.pc + 2, 2 * i);
      assert f.pc + 2 * (i + 1) == f.pc + 2 + 2 * i;
    }
  }

  /** A PC that wraps names the same words. */
  lemma WrappedWord(mem: seq<u8>, x: nat, d: nat)
    requires Bus24.Holds(mem)
    ensures WordAt(mem, x % 0x1_0000_0000 + d) == WordAt(mem, x + d)
  {
    hide Value;
    var q := x / 0x1_0000_0000;
    assert x % 0x1_0000_0000 + d + 0x1_0000_0000 * q == x + d;
    BlockWraps(Bus24, mem, x % 0x1_0000_0000 + d, 2);
    BlockWraps(Bus24, mem, x + d, 2);
    Multiples32(x % 0x1_0000_0000 + d, q);
  }

  lemma ToppedUpOneCoherent(f: Front)
    requires Sound(f) && Coherent(f)
    ensures Coherent(ToppedUpOne(f))
  {
  }

  lemma StoreCoherent(f: Front, at: nat, v: u8)
    requires Sound(f) && Coherent(f) && Unqueued(f, at)
    ensures Coherent(Step(f, Store(at, v)))
  {
    hide Bus.At, Value;
    if at < |f.mem| {
      var mem: seq<u8> := f.mem[at := v];
      forall i | 0 <= i < |f.queue|
        ensures WordAt(mem, f.pc + 2 * i) == f.queue[i]
      {
        assert !InSlot(f, i, at);
        UntouchedWord(f.mem, mem, f.pc + 2 * i, at);
      }
    }
  }

  lemma UntouchedWord(mem: seq<u8>, mem': seq<u8>, a: int, at: nat)
    requires Bus24.Holds(mem) && Bus24.Holds(mem') && at < |mem|
    requires forall j :: 0 <= j < |mem| && j != at ==> mem'[j] == mem[j]
    requires Bus24.At(a) != at && Bus24.At(a + 1) != at
    ensures WordAt(mem', a) == WordAt(mem, a)
  {
    hide Bus.At, Value;
    var b, b' := Block(Bus24, mem, a, 2), Block(Bus24, mem', a, 2);
    assert b[0] == Read8(Bus24, mem, a + 0) && b[1] == Read8(Bus24, mem, a + 1);
    assert b'[0] == Read8(Bus24, mem', a + 0) && b'[1] == Read8(Bus24, mem', a + 1);
    assert a + 0 == a;
    assert b == b';
  }

  lemma StepCoherent(f: Front, e: Event)
    requires Sound(f) && Coherent(f) && (e.Store? ==> Unqueued(f, e.at))
    ensures Coherent(Step(f, e))
  {
    hide WordAt;
    match e {
      case Opcode => ConsumedCoherent(f);
      case Extension =>
        ConsumedCoherent(f);
        ToppedUpOneCoherent(Consumed(f));
      case FinalPrefetch =>
        ToppedUpOneCoherent(f);
        ToppedUpOneCoherent(ToppedUpOne(f));
      case Store(at, v) => StoreCoherent(f, at, v);
      case _ =>
    }
  }

  /** Over any run whose stores spare the queued words: at most two words are
      queued, each is the memory word at its address, and the words consumed are
      those direct reads at successive PCs would have returned. */
  lemma {:induction false} QueueStaysCoherent(f: Front, run: seq<Event>)
    requires Sound(f) && Coherent(f) && Spares(f, run)
    ensures Coherent(Run(f, run)) && |Run(f, run).queue| <= 2
    ensures Stream(f, run) == DirectReads(f, run)
    decreases |run|
  {
    hide WordAt, Step, Coherent;
    if run != [] {
      StepCoherent(f, run[0]);
      ConsumedCoherent(f);
      QueueStaysCoherent(Step(f, run[0]), run[1..]);
    }
  }

  predicate ChangesFlow(e: Event) {
    e.Flow? || e.FlowFirst?
  }

  /** Between flow changes, what was fetched and not consumed is in the queue. */
  lemma {:induction false} FetchesBalance(f: Front, run: seq<Event>)
    requires Sound(f) && forall e :: e in run ==> !ChangesFlow(e)
    ensures var r := Run(f, run);
            r.fetches - f.fetches - |Stream(f, run)| == |r.queue| - |f.queue|
    decreases |run|
  {
    hide WordAt;
    if run != [] {
      assert run[0] in run;
      FetchesBalance(Step(f, run[0]), run[1..]);
    }
  }
}
