/** Machine states in which the faults of RTE do what their laws say: 4K pages
    mapped to themselves, all but one, and a host that answers everywhere, or
    everywhere but at one address. */
module FaultedReturnExamples {
  import opened Words
  import opened BusMemory
  import opened Exceptions
  import opened FaultedInstruction
  import opened FaultedReturn
  import opened FaultedReturnCases
  import E = PagedEntry
  import P = PagedAccess

  function Paged(hole: Option<u32>, silent: Option<u32>): P.Space {
    P.Space(P.Mmu(P.Tc030(12), (page: u32, kind: P.Access) => if hole == Some(page) || page % 0x1000 != 0 then None else Some(page)),
            (a, n, kind) => silent == Some(a))
  }

  lemma PagedMaps(hole: Option<u32>, silent: Option<u32>)
    ensures P.Maps(Paged(hole, silent).mmu)
  {
    forall page: u32, kind: P.Access | Paged(hole, silent).mmu.frame(page, kind).Some?
      ensures Paged(hole, silent).mmu.frame(page, kind).value + 0x1000 <= P.TOP
    {
      LastPage(page);
    }
  }

  lemma LastPage(page: u32)
    requires page % 0x1000 == 0
    ensures page + 0x1000 <= P.TOP
  {
  }

  function PageAt(a: u32): u32 {
    a - a % 0x1000
  }

  lemma PagedAnswers(hole: Option<u32>, silent: Option<u32>, a: u32, n: nat, kind: P.Access)
    ensures P.Phys(Paged(hole, silent).mmu, a, kind) == if hole == Some(PageAt(a)) then None else Some(a)
    ensures P.Answered(Paged(hole, silent), P.Cycle(a, n), kind) <==> hole != Some(PageAt(a)) && silent != Some(a)
  {
    AtSmall(Bus32, a);
  }

  function WordIn(mem: seq<u8>, a: u32): nat
    requires a + 1 < |mem|
  {
    0x100 * (mem[a] as int) + mem[a + 1]
  }

  /** A word at an even address, through such a mapping. */
  lemma WordRead(hole: Option<u32>, silent: Option<u32>, mem: seq<u8>, a: u32)
    requires |mem| == P.TOP && a % 2 == 0 && a + 1 < P.TOP
    ensures var r := P.PagedRead(Paged(hole, silent), mem, None, a, 2, P.DataRead);
            && r.over.None?
            && if hole == Some(PageAt(a)) || silent == Some(a) then r.refused.Some? && r.bytes == []
               else r.refused.None? && P.Seen(2, r.bytes) == WordIn(mem, a)
  {
    hide P.Offset, P.PageSize, P.Phys, Bus.At, P.Seen, PageAt, WordIn;
    var space := Paged(hole, silent);
    P.EvenOffset(space.mmu, a);
    P.OneCycle(space, mem, None, a, 2, P.DataRead);
    PagedAnswers(hole, silent, a, 2, P.DataRead);
    TwoBytes(mem, a);
    P.SeenWhole(Block(Bus32, mem, a, 2));
  }

  lemma TwoBytes(mem: seq<u8>, a: u32)
    requires |mem| == P.TOP && a + 1 < P.TOP
    ensures Value(Block(Bus32, mem, a, 2)) == WordIn(mem, a)
  {
    AtSmall(Bus32, a);
    AtSmall(Bus32, a + 1);
    var block := Block(Bus32, mem, a, 2);
    assert block == [mem[a], mem[a + 1]];
    assert block[..1] == [mem[a]] && block[..1][..0] == [];
  }

  /** A 68030 about to execute RTE on the interrupt stack. */
  function About(a7: u32, msp: u32, usp: u32, mem: seq<u8>, space: P.Space): State {
    var sr, dar := Sr(false, false, true, false, 7, 0), seq<u32>(16, i => if i == 15 then a7 else 0);
    State(dar, Stacks(usp, 0, msp), sr, 0, 0, 0, mem, None, None, dar, Pack(sr), false, false, false, None, space)
  }

  lemma AboutReturns(a7: u32, msp: u32, usp: u32, mem: seq<u8>, space: P.Space)
    requires |mem| == P.TOP
    ensures var s := About(a7, msp, usp, mem, space); Returns(M68030, s) && Runs(M68030, s)
  {
  }

  /** The entry is granted if its frame and the vector avoid hole and silence. */
  lemma AboutGranted(a7: u32, msp: u32, usp: u32, mem: seq<u8>, hole: Option<u32>, silent: Option<u32>)
    requires 0x100 <= a7
    requires hole.Some? ==> hole.value >= 0x1000 && hole.value % 0x1000 == 0
                            && (hole.value + 0x1000 <= a7 - 92 || a7 <= hole.value)
    requires silent.Some? ==> silent.value >= a7
    ensures HandlerGranted(M68030, About(a7, msp, usp, mem, Paged(hole, silent)), None, None)
  {
    hide P.Answered;
    var space := Paged(hole, silent);
    forall a: u32, n: nat, kind: P.Access | a7 - 92 <= a < a7 || 8 <= a < 12
      ensures P.Answered(space, P.Cycle(a, n), kind)
    {
      PagedAnswers(hole, silent, a, n, kind);
    }
    E.MappedEntryGranted(M68030, space, a7, 0);
  }

  // -------------------------------------------- a host that refuses an SR word

  /** A throwaway frame at $1FFC, whose SR word the host does not answer. */
  function SilentSr(): State {
    About(0x1FFC, 0, 0, seq<u8>(0x1_0000_0000, i => if i == 0x2002 then 0x10 else 0), Paged(None, Some(0x1FFC)))
  }

  /** USP was 0, and the handler finds it at 8. */
  lemma SilentSrMovesUsp(env: Env)
    ensures var s := SilentSr();
            && Runs(M68030, s) && Handled(env, M68030, s, 1)
            && CoreOf(M68030, s).stacks.usp == 0 && Closed(env, M68030, s, 1).stacks.usp == 8
  {
    hide Closed, SrRefused, Handled, Faulted, Returns, Pack, Paged, HandlerGranted, P.PagedRead, P.Seen;
    var mem := seq<u8>(0x1_0000_0000, i => if i == 0x2002 then 0x10 else 0);
    AboutReturns(0x1FFC, 0, 0, mem, Paged(None, Some(0x1FFC)));
    SilentRefused(env);
    AboutGranted(0x1FFC, 0, 0, mem, None, Some(0x1FFC));
    RefusedSrMovesUsp(env, M68030, SilentSr(), 1);
  }

  lemma SilentRefused(env: Env)
    ensures Runs(M68030, SilentSr()) && SrRefused(env, M68030, SilentSr()) && SrRead(env, SilentSr()).over.None?
  {
    hide Paged, P.PagedRead, P.Seen, Pack, Returns;
    var mem := seq<u8>(0x1_0000_0000, i => if i == 0x2002 then 0x10 else 0);
    AboutReturns(0x1FFC, 0, 0, mem, Paged(None, Some(0x1FFC)));
    WordRead(None, Some(0x1FFC), mem, 0x2002);
    WordRead(None, Some(0x1FFC), mem, 0x1FFC);
  }

  // --------------------------------------------- a page that is not mapped

  /** The same frame, with the page of its SR word unmapped: the frame of the
      fault goes to that page too, and the core stops. */
  function UnmappedSr(): State {
    About(0x1FFC, 0, 0, seq<u8>(0x1_0000_0000, i => if i == 0x2002 then 0x10 else 0), Paged(Some(0x1000), None))
  }

  lemma UnmappedSrStops(env: Env)
    ensures var s := UnmappedSr();
            && Runs(M68030, s) && Faulted(env, M68030, s, 1) && !Handled(env, M68030, s, 1)
            && End(M68030, Return(env, M68030, s, 1).s).stopped
  {
    hide SrRefused, Handled, Faulted, Returns, Pack, P.PagedRead, P.Seen, P.Phys, Return, End;
    var mem := seq<u8>(0x1_0000_0000, i => if i == 0x2002 then 0x10 else 0);
    AboutReturns(0x1FFC, 0, 0, mem, Paged(Some(0x1000), None));
    UnmappedRefused(env);
    PagedAnswers(Some(0x1000), None, 0x1FFC, 2, P.DataRead);
    PagedAnswers(Some(0x1000), None, 0x1FFC, 2, P.DataWrite);
    PagedMaps(Some(0x1000), None);
    UnmappedSrHalts(env, M68030, UnmappedSr(), 1);
    FaultedReturnStops(env, M68030, UnmappedSr(), 1);
  }

  lemma UnmappedRefused(env: Env)
    ensures Runs(M68030, UnmappedSr()) && SrRefused(env, M68030, UnmappedSr())
  {
    hide Paged, P.PagedRead, P.Seen, Pack, Returns;
    var mem := seq<u8>(0x1_0000_0000, i => if i == 0x2002 then 0x10 else 0);
    AboutReturns(0x1FFC, 0, 0, mem, Paged(Some(0x1000), None));
    WordRead(Some(0x1000), None, mem, 0x2002);
    WordRead(Some(0x1000), None, mem, 0x1FFC);
  }

  // --------------------------------------------------- two throwaway frames

  /** Throwaway frames at $3000 on the interrupt stack, for the master state,
      and at $4000 on the master stack, for user mode. */
  function TwoFrames(): State {
    About(0x3000, 0x4000, 0x1000,
          seq<u8>(0x1_0000_0000, i => if i == 0x3000 then 0x30 else if i == 0x3006 || i == 0x4006 then 0x10 else 0),
          Paged(None, None))
  }

  /** Behind the first, and behind the second. */
  function InMaster(): State {
    var s := TwoFrames();
    s.(banks := Stacks(0x1000, 0x3008, 0x4000), sr := Sr(false, false, true, true, 0, 0), dar := s.dar[15 := 0x4000])
  }

  function InUser(): State {
    var s := TwoFrames();
    s.(banks := Stacks(0x1000, 0x3008, 0x4008), sr := Sr(false, false, false, false, 0, 0), dar := s.dar[15 := 0x1000])
  }

  lemma CrossesToMaster(env: Env)
    ensures Runs(M68030, TwoFrames()) && TurnOf(env, M68030, TwoFrames()) == Crossed(InMaster())
  {
    hide Paged, P.PagedRead, P.Seen, Pack, TurnOf;
    var mem := TwoFrames().mem;
    AboutReturns(0x3000, 0x4000, 0x1000, mem, Paged(None, None));
    WordRead(None, None, mem, 0x3006);
    WordRead(None, None, mem, 0x3000);
    PlainCross(env, M68030, TwoFrames(), 0x3000);
    assert TwoFrames().dar[15 := 0x3008][15 := 0x4000] == TwoFrames().dar[15 := 0x4000];
  }

  lemma CrossesToUser(env: Env)
    ensures Runs(M68030, InMaster()) && TurnOf(env, M68030, InMaster()) == Crossed(InUser())
  {
    hide Paged, P.PagedRead, P.Seen, Pack, TurnOf;
    var mem := TwoFrames().mem;
    WordRead(None, None, mem, 0x4006);
    WordRead(None, None, mem, 0x4000);
    PlainCross(env, M68030, InMaster(), 0);
    assert InMaster().dar[15 := 0x4008][15 := 0x1000] == InUser().dar;
  }

  lemma FaultsInUser(env: Env)
    requires env.user == Paged(Some(0x1000), None)
    ensures Runs(M68030, InUser())
    ensures TurnOf(env, M68030, InUser()).Left? && TurnOf(env, M68030, InUser()).s.faulted
  {
    hide Paged, P.PagedRead, P.Seen, Pack, TurnOf;
    WordRead(Some(0x1000), None, TwoFrames().mem, 0x1006);
    RefusedFormat(env, M68030, InUser());
  }

  /** In user mode page $1000 is not mapped, and the third frame would be there:
      MSP, which was $4000, is $4008 in the handler. */
  lemma TwoFramesMoveMsp(env: Env)
    requires env.user == Paged(Some(0x1000), None)
    ensures var s := TwoFrames();
            && Runs(M68030, s) && Handled(env, M68030, s, 2)
            && CoreOf(M68030, s).stacks.msp == 0x4000 && Closed(env, M68030, s, 2).stacks.msp == 0x4008
  {
    hide Closed, TurnOf, Return, Taken, Pack, Paged, HandlerGranted, Sound;
    var s := TwoFrames();
    AboutReturns(0x3000, 0x4000, 0x1000, s.mem, s.space);
    CrossesToMaster(env);
    CrossesToUser(env);
    FaultsInUser(env);
    OneTurn(env, M68030, s, 2, USP);
    OneTurn(env, M68030, InMaster(), 1, USP);
    OneTurn(env, M68030, InUser(), 0, USP);
    AboutGranted(0x3000, 0x4000, 0x1000, s.mem, None, None);
    FaultedReturnStops(env, M68030, s, 2);
    FaultBehindTwoFrames(env, M68030, s, 2);
  }

  // ------------------------------------------------------- an unreadable SSW

  /** A long frame at $1FF6: its format word at $1FFC is on a mapped page, its SSW
      at $2000 is not, and the frame of the fault goes below. */
  function UnreadableSsw(): State {
    About(0x1FF6, 0, 0, seq<u8>(0x1_0000_0000, i => if i == 0x1FFC then 0xB0 else 0), Paged(Some(0x2000), None))
  }

  lemma SswRefused(env: Env)
    ensures var s := UnreadableSsw();
            && Runs(M68030, s) && Returns(M68030, s) && Untouched(env, M68030, s) && AtSsw(env, M68030, s).0.faulted
  {
    hide Paged, P.PagedRead, P.Seen, Pack, Dispatch;
    var s := UnreadableSsw();
    AboutReturns(0x1FF6, 0, 0, s.mem, s.space);
    WordRead(Some(0x2000), None, s.mem, 0x1FFC);
    WordRead(Some(0x2000), None, s.mem, 0x2000);
    P.SeenNothing(2, []);
    assert s.(readOverride := None) == s;
    assert AtFormat(env, M68030, s) == (s, 0xB000);
  }

  /** The handler is entered, and the next write at address 0 is suppressed. */
  lemma UnreadableSswArms(env: Env)
    ensures var s := UnreadableSsw();
            && Runs(M68030, s) && Handled(env, M68030, s, 0)
            && s.writeSuppress.None? && Closed(env, M68030, s, 0).writeSuppress == Some(0)
  {
    hide Return, End, Pack, Paged, HandlerGranted, Sound, Untouched, Returns, AtSsw;
    var s := UnreadableSsw();
    SswRefused(env);
    UntouchedFrameArmsIff(env, M68030, s, 0);
    AboutGranted(0x1FF6, 0, 0, s.mem, Some(0x2000), None);
    FaultedReturnStops(env, M68030, s, 0);
    EndTouchesNoRam(M68030, Return(env, M68030, s, 0).s);
  }
}
