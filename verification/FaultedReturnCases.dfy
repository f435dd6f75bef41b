/** Faults of RTE one by one: which frames do harm to which stack, and which arm
    a one-shot. */
module FaultedReturnCases {
  import opened Words
  import opened BusMemory
  import opened Exceptions
  import opened FaultedInstruction
  import opened FaultedReturn
  import E = PagedEntry
  import P = PagedAccess

  // ------------------------------------------------------- throwaway frames

  /** No throwaway frame or one crossed, then a fault in a frame of another
      format or at its format word: harmless. */
  lemma FaultBehindOneFrame(env: Env, model: Model, s: State, limit: nat)
    requires Handled(env, model, s, limit) && Runs(model, s)
    requires var turn := TurnOf(env, model, s);
             turn.Left? || (turn.Crossed? && !turn.s.faulted && TurnOf(env, model, turn.s).Left?)
    ensures Closed(env, model, s, limit).stacks == PlainStacks(model, s)
  {
    hide TurnOf, Active, Runs, Sound, End, Closed, Return;
    FaultedReturnKeepsStacksIff(env, model, s, limit);
    var turn := TurnOf(env, model, s);
    forall bank: Bank | bank != Active(model, s.sr)
      ensures !Loses(env, model, s, limit, bank)
    {
      OneTurn(env, model, s, limit, bank);
      if turn.Crossed? && limit > 0 {
        OneTurn(env, model, turn.s, limit - 1, bank);
      }
    }
  }

  /** Two throwaway frames crossed, the second on another stack, then a fault:
      that stack ends 8 higher. */
  lemma FaultBehindTwoFrames(env: Env, model: Model, s: State, limit: nat)
    requires Handled(env, model, s, limit) && Runs(model, s)
    requires var one := TurnOf(env, model, s);
             && one.Crossed? && !one.s.faulted && Active(model, one.s.sr) != Active(model, s.sr)
             && var two := TurnOf(env, model, one.s);
                two.Crossed? && !two.s.faulted && TurnOf(env, model, two.s).Left?
    ensures var bank := Active(model, TurnOf(env, model, s).s.sr);
            Closed(env, model, s, limit).stacks.Get(bank) == Add32(PlainStacks(model, s).Get(bank), 8)
  {
    hide TurnOf, Active, Runs, Sound, End, Closed, Return;
    var one := TurnOf(env, model, s);
    var two, bank := TurnOf(env, model, one.s), Active(model, one.s.sr);
    OneTurn(env, model, s, limit, bank);
    if limit > 0 {
      OneTurn(env, model, one.s, limit - 1, bank);
      if limit > 1 {
        OneTurn(env, model, two.s, limit - 2, bank);
      }
    }
    FaultedReturnStacks(env, model, s, limit, bank);
  }

  /** What RTE reads first of a frame, and after it of a throwaway frame. */
  function FormatRead(env: Env, s: State): P.Read
    requires |s.dar| == 16 && |s.mem| == P.TOP
  {
    P.PagedRead(SpaceOf(env, s), s.mem, s.readOverride, Add32(s.dar[15], 6), 2, P.DataRead)
  }

  function SrRead(env: Env, s: State): P.Read
    requires |s.dar| == 16 && |s.mem| == P.TOP
  {
    P.PagedRead(SpaceOf(env, s), s.mem, FormatRead(env, s).over, s.dar[15], 2, P.DataRead)
  }

  /** A throwaway frame whose format word is readable and whose SR word is not. */
  predicate SrRefused(env: Env, model: Model, s: State)
    requires Runs(model, s)
  {
    && FormatRead(env, s).refused.None? && P.Seen(2, FormatRead(env, s).bytes) / 0x1000 == 1
    && SrRead(env, s).refused.Some? && SrRead(env, s).bytes == []
  }

  lemma RefusedSrTurn(env: Env, model: Model, s: State)
    requires Returns(model, s) && Runs(model, s) && SrRefused(env, model, s)
    ensures var turn := TurnOf(env, model, s);
            && turn.Crossed? && turn.s.faulted && Active(model, turn.s.sr) == USP
            && turn.s.stopped == !HandlerGranted(model, s, SrRead(env, s).over, s.writeSuppress)
  {
    hide TurnOf, P.PagedRead, P.Seen, HandlerGranted, Sound, Pack, Active;
    ThrowawayTurn(env, model, s);
    P.SeenNothing(2, []);
    RefusedSrStops(env, model, s);
  }

  lemma RefusedSrStops(env: Env, model: Model, s: State)
    requires Returns(model, s) && Runs(model, s) && SrRefused(env, model, s)
    ensures TurnOf(env, model, s).s.stopped == !HandlerGranted(model, s, SrRead(env, s).over, s.writeSuppress)
  {
    hide P.PagedRead, P.Seen, HandlerGranted, Dispatch, Unpack, Pack, Active, HandlerSp;
    var t := s.(readOverride := SrRead(env, s).over);
    DispatchStrikes(model, s, t, FaultOf(env, s.sr, SrRead(env, s).refused.value));
  }

  /** RTE faults at the SR word, reads it as zero, loads USP into A7 and takes a
      format 0 frame of zeros from there. Either the core stops, exactly when the
      entry to the handler is refused, or USP ends 8 higher. */
  lemma RefusedSrMovesUsp(env: Env, model: Model, s: State, limit: nat)
    requires Returns(model, s) && Runs(model, s) && SrRefused(env, model, s) && limit > 0
    ensures Faulted(env, model, s, limit)
    ensures Handled(env, model, s, limit) <==> HandlerGranted(model, s, SrRead(env, s).over, s.writeSuppress)
    ensures var plain := PlainStacks(model, s);
            Handled(env, model, s, limit) ==>
              Closed(env, model, s, limit).stacks == plain.Put(USP, Add32(plain.usp, 8))
  {
    hide TurnOf, End, Closed, PlainStacks, SrRefused, SrRead, Return, Taken, Unpack, Returns, HandlerGranted, Active;
    RefusedSrTurn(env, model, s);
    StrayFrame(env, model, TurnOf(env, model, s).s, limit - 1);
    OneTurn(env, model, s, limit, USP);
    if Handled(env, model, s, limit) {
      StartIsHead(model, s);
      forall bank: Bank
        ensures Closed(env, model, s, limit).stacks.Get(bank)
                == Add32(PlainStacks(model, s).Get(bank), if bank == USP then 8 else 0)
      {
        OneTurn(env, model, s, limit, bank);
        FaultedReturnStacks(env, model, s, limit, bank);
        StaysPut(PlainStacks(model, s).Get(bank));
      }
      OneMoved(Closed(env, model, s, limit).stacks, PlainStacks(model, s));
    }
  }

  lemma OneMoved(a: Stacks, b: Stacks)
    requires forall bank: Bank :: a.Get(bank) == Add32(b.Get(bank), if bank == USP then 8 else 0)
    ensures a == b.Put(USP, Add32(b.usp, 8))
  {
    assert a.Get(USP) == Add32(b.usp, 8) && a.Get(ISP) == Add32(b.isp, 0) && a.Get(MSP) == Add32(b.msp, 0);
  }

  /** When it is the mapping that refuses the SR word, the page that refuses it
      is the one the frame of the fault goes to, and the core stops: a page that
      is not mapped can make RTE move USP only on the way to a halt. */
  lemma UnmappedSrHalts(env: Env, model: Model, s: State, limit: nat)
    requires Returns(model, s) && Runs(model, s) && SrRefused(env, model, s) && limit > 0
    requires P.Maps(s.space.mmu) && s.readOverride.None? && s.writeSuppress.None?
    requires P.Phys(s.space.mmu, s.dar[15], P.DataRead).None? && P.Phys(s.space.mmu, s.dar[15], P.DataWrite).None?
    ensures Faulted(env, model, s, limit) && !Handled(env, model, s, limit)
  {
    hide Return, TurnOf, P.PagedRead, P.Seen, P.Phys, P.Maps, P.Offset, P.PageOf, P.CyclesGranted, E.EntryCycles, Returns, AtStart;
    RefusedSrMovesUsp(env, model, s, limit);
    FormatMapped(env, model, s);
    P.PageEdge(s.space.mmu, s.dar[15], P.DataRead);
    SamePageBelow(s.space.mmu, s.dar[15]);
    E.RefusedPageRefusesEntry(model, s.space, s.dar[15]);
  }

  lemma FormatMapped(env: Env, model: Model, s: State)
    requires Returns(model, s) && Runs(model, s) && SrRefused(env, model, s) && s.readOverride.None?
    ensures P.Phys(s.space.mmu, Add32(s.dar[15], 6), P.DataRead).Some?
  {
    hide P.Phys, P.ReadCycles, P.Offset, P.PageSize, P.Seen, Pack;
    var a := Add32(s.dar[15], 6);
    var cycles := P.Cycles(s.space.mmu, a, 2);
    P.SplitRead(s.space.mmu, a, 2);
    P.ReadsGranted(s.space, s.mem, None, cycles, P.DataRead);
    assert cycles[0].a == a && P.Answered(s.space, cycles[0], P.DataRead);
  }

  lemma SamePageBelow(mmu: P.Mmu, a: u32)
    requires P.Offset(mmu, a) > 0 && P.Phys(mmu, a, P.DataWrite).None?
    ensures P.Phys(mmu, Sub32(a, 1), P.DataWrite).None?
  {
    hide P.Offset, P.PageOf;
    P.PreviousInPage(mmu, a);
  }

  // ---------------------------------------------- turns with nothing refused

  lemma PlainWord(env: Env, model: Model, s: State, a: u32)
    requires Runs(model, s) && !s.faulted && s.readOverride.None?
    requires var got := P.PagedRead(SpaceOf(env, s), s.mem, None, a, 2, P.DataRead); got.refused.None? && got.over.None?
    ensures ReadWord(env, model, s, a) == (s, P.Seen(2, P.PagedRead(SpaceOf(env, s), s.mem, None, a, 2, P.DataRead).bytes))
  {
    hide P.PagedRead, P.Seen, Trigger, Sound;
    assert s.(readOverride := None) == s;
  }

  /** A throwaway frame both of whose words are granted: its stack moves over
      it, and its SR is loaded. */
  lemma PlainCross(env: Env, model: Model, s: State, w: u16)
    requires Runs(model, s) && !s.faulted && s.readOverride.None?
    requires FormatRead(env, s).refused.None? && FormatRead(env, s).over.None?
    requires P.Seen(2, FormatRead(env, s).bytes) / 0x1000 == 1
    requires SrRead(env, s).refused.None? && SrRead(env, s).over.None? && P.Seen(2, SrRead(env, s).bytes) == w
    ensures TurnOf(env, model, s) == Crossed(SetSr(model, Discard(model, s, 8), w))
  {
    hide P.PagedRead, P.Seen, ReadData, SetSr, Honoured, Rest, Body, Stored;
    PlainWord(env, model, s, Add32(s.dar[15], 6));
    PlainWord(env, model, s, s.dar[15]);
    SpsAdd(s.dar[15], 2, 6);
    assert PullWord(env, model, s) == (Discard(model, s, 2), w);
    assert Discard(model, Discard(model, s, 2), 6) == Discard(model, s, 8);
  }

  /** A format word that is refused reads as a format 0 frame. */
  lemma RefusedFormat(env: Env, model: Model, s: State)
    requires Runs(model, s) && !s.faulted && FormatRead(env, s).refused.Some? && FormatRead(env, s).bytes == []
    ensures TurnOf(env, model, s).Left? && TurnOf(env, model, s).s.faulted
  {
    hide P.PagedRead, P.Seen, Dispatch, Unpack, Active, PullLong;
    P.SeenNothing(2, []);
    var t := ReadWord(env, model, s, Add32(s.dar[15], 6)).0;
    assert TurnOf(env, model, s) == Left(Body(env, model, t, 0));
    BodyStaysFaulted(env, model, t, 0);
  }

  lemma BodyStaysFaulted(env: Env, model: Model, x: State, rest: nat)
    requires Runs(model, x) && x.faulted
    ensures Body(env, model, x, rest).faulted
  {
    hide Body;
    BodyArmsNothing(env, model, x, rest);
  }

  // ------------------------------------------------------- armed by a fault

  /** The suppressed write still armed, or used up in the entry to a handler. */
  predicate NothingArmed(x: State, r: State) {
    && (x.faulted ==> r.faulted && r.writeSuppress == x.writeSuppress)
    && (r.writeSuppress == x.writeSuppress || r.writeSuppress.None?)
  }

  lemma ReadArmsNothing(env: Env, model: Model, x: State, a: u32, n: nat)
    requires Runs(model, x) && 0 < n <= 4
    ensures NothingArmed(x, ReadData(env, model, x, a, n).0)
  {
    hide P.PagedRead, P.Seen, E.Entry, Unpack, Active, Pack;
    if !x.faulted {
      var got := P.PagedRead(SpaceOf(env, x), x.mem, x.readOverride, a, n, P.DataRead);
      if got.refused.Some? {
        DispatchArmsNothing(model, x.(readOverride := got.over), FaultOf(env, x.sr, got.refused.value));
      }
    }
  }

  lemma DispatchArmsNothing(model: Model, x: State, f: Fault)
    requires Sound(model, x) && Legal(model, AccessError(f)) && !x.faulted
    ensures NothingArmed(x, Trigger(model, x, f))
  {
    hide E.Entry, Unpack, Active, Pack;
    E.EntrySuppression(model, x.space, CoreOf(model, Rolled(model, x)), f);
  }

  lemma BodyArmsNothing(env: Env, model: Model, x: State, rest: nat)
    requires Runs(model, x)
    ensures NothingArmed(x, Body(env, model, x, rest))
  {
    hide ReadData, Unpack, Active;
    var (a, word) := PullWord(env, model, x);
    var (b, target) := PullLong(env, model, a);
    var c := b.(pc := target);
    ReadArmsNothing(env, model, x, x.dar[15], 2);
    ReadArmsNothing(env, model, a, a.dar[15], 4);
    ReadArmsNothing(env, model, c, c.dar[15], 2);
  }

  /** The state behind the read of a frame's format word, and behind that of the
      SSW of a long frame. */
  function AtFormat(env: Env, model: Model, s: State): (r: (State, u16))
    requires Runs(model, s)
    ensures Runs(model, r.0)
  {
    ReadWord(env, model, s, Add32(s.dar[15], 6))
  }

  function AtSsw(env: Env, model: Model, s: State): (r: (State, u16))
    requires Runs(model, s)
    ensures Runs(model, r.0)
  {
    ReadWord(env, model, AtFormat(env, model, s).0, Add32(s.dar[15], 0x0A))
  }

  /** A long frame as the fault pushed it, DF set: it asks RTE for nothing. Its
      SSW may be refused as a whole. */
  predicate Untouched(env: Env, model: Model, s: State)
    requires Runs(model, s)
  {
    && !AtFormat(env, model, s).0.faulted && AtFormat(env, model, s).1 / 0x1000 == 0xB
    && if AtSsw(env, model, s).0.faulted then AtSsw(env, model, s).1 == 0 else HasBit(AtSsw(env, model, s).1, 0x100)
  }

  /** RTE arms a suppressed write for such a frame exactly when its SSW is
      refused, whatever else is: that reads as a completed write, and suppresses
      the next write at address 0. */
  lemma UntouchedFrameArmsIff(env: Env, model: Model, s: State, limit: nat)
    requires Returns(model, s) && Runs(model, s) && model.Is020Or030() && Untouched(env, model, s)
    ensures var out, refused := Return(env, model, s, limit), AtSsw(env, model, s).0.faulted;
            && out.Back?
            && (refused ==> out.s.faulted && out.s.writeSuppress == Some(0))
            && (!refused ==> out.s.writeSuppress == s.writeSuppress || out.s.writeSuppress.None?)
            && (s.writeSuppress != Some(0) ==> (out.s.writeSuppress == Some(0) <==> refused))
  {
    hide ReadData, Body, Unpack, Active, Return, Pack, ArmDataCycle;
    var t := AtFormat(env, model, s).0;
    PlainRead(env, model, s, Add32(s.dar[15], 6), 2);
    OneTurn(env, model, s, limit, USP);
    UntouchedFrame(env, model, t);
    BodyArmsNothing(env, model, ArmDataCycle(env, model, t), 84);
  }

  lemma UntouchedFrame(env: Env, model: Model, t: State)
    requires Runs(model, t) && !t.faulted
    requires var (a, ssw) := ReadWord(env, model, t, Add32(t.dar[15], 0x0A));
             if a.faulted then ssw == 0 else HasBit(ssw, 0x100)
    ensures var a, r := ReadWord(env, model, t, Add32(t.dar[15], 0x0A)).0, ArmDataCycle(env, model, t);
            && r.faulted == a.faulted
            && r.writeSuppress == if a.faulted then Some(0) else t.writeSuppress
  {
    hide P.PagedRead, P.Seen, Dispatch, Active;
  }
}
