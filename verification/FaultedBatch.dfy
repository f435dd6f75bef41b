/** Faulted instructions in `run_batch`, which goes back to the normal run mode
    without putting back what the dispatch of the fault captured. */
module FaultedBatch {
  import opened Words
  import opened Exceptions
  import opened FaultedInstruction
  import E = PagedEntry

  /** What `run_batch` does where every other runner calls
      `end_faulted_instruction`. */
  function BatchEnd(model: Model, s: State): (r: State)
    requires Sound(model, s)
    ensures Sound(model, r)
  {
    s.(faulted := false)
  }

  /** `is_halted`, `is_stopped`. */
  predicate IsHalted(s: State) {
    s.stopped && s.faulted
  }

  predicate IsStopped(s: State) {
    s.stopped && !s.faulted
  }

  /** The batch goes on as a step would exactly when the rest of the faulted code
      has ended with the handler's PC, SR and registers, and its entry was not
      refused. */
  lemma BatchEndsLikeStepIff(model: Model, h: State, tail: seq<Micro>)
    requires Sound(model, h) && Captured(model, h)
    ensures var t := Run(model, h, tail);
            BatchEnd(model, t).(resume := None) == End(model, t)
            <==> t.pc == h.pc && t.sr == h.sr && t.dar == h.dar && !h.stopped
  {
    hide Unpack, Pack, Active, Run;
    TailTouchesNoRam(model, h, tail);
    NoAfterlife(model, h, tail);
    EndKeepsBanks(model, Run(model, h, tail));
  }

  /** The end of a JSR whose push has been refused: the PC is the target all the
      same. (BSR has set its PC before it pushes, and has no such end.) */
  function JsrTail(target: u32): seq<Micro> {
    [SetPc(target)]
  }

  /** The end of an RTS whose pull has been refused, with the handler's frame at
      `sp`: A7 raised, and a PC of 0. */
  function RtsTail(sp: u32): seq<Micro> {
    [SetRegister(15, Add32(sp, 4))] + JsrTail(0)
  }

  lemma JsrEnds(model: Model, h: State, target: u32)
    requires Sound(model, h)
    ensures Run(model, h, JsrTail(target)) == h.(pc := target) && SrWords(JsrTail(target)) == []
  {
    hide Trigger, Unpack, Active;
    assert JsrTail(target)[1..] == [];
  }

  lemma RtsEnds(model: Model, h: State, sp: u32)
    requires Sound(model, h)
    ensures Run(model, h, RtsTail(sp)) == h.(dar := h.dar[15 := Add32(sp, 4)], pc := 0) && SrWords(RtsTail(sp)) == []
  {
    hide Trigger, Unpack, Active, JsrTail;
    assert RtsTail(sp)[1..] == JsrTail(0);
    JsrEnds(model, Apply(model, h, RtsTail(sp)[0]), 0);
  }

  /** A JSR that faults on its push: stepped, the handler runs; in a batch its
      frame has been pushed and the subroutine runs, in supervisor mode. */
  lemma JsrGoesOnInBatch(model: Model, s: State, before: seq<Micro>, m: Micro, target: u32) returns (f: Fault)
    requires Sound(model, s) && Faults(model, s, before, m)
    ensures m.answer == Refused(f) && Legal(model, AccessError(f))
    ensures var hit := Run(model, s, before);
            var t := Run(model, Apply(model, hit, m), JsrTail(target));
            var entry := E.Entry(model, s.space, Restart(model, s, hit), f).0;
            CoreOf(model, End(model, t)) == entry && CoreOf(model, BatchEnd(model, t)) == entry.(pc := target)
  {
    hide Unpack, Active, Pack, Apply, Run, Restart, E.Entry, JsrTail, SrWords;
    f := FaultRestartsInstruction(model, s, before, m, JsrTail(target));
    JsrEnds(model, Apply(model, Run(model, s, before), m), target);
    FaultDispatches(model, s, before, m, f);
  }

  lemma FaultDispatches(model: Model, s: State, before: seq<Micro>, m: Micro, f: Fault)
    requires Sound(model, s) && Faults(model, s, before, m) && m.answer == Refused(f) && Legal(model, AccessError(f))
    ensures var hit := Run(model, s, before);
            var h, (entry, refused) := Apply(model, hit, m), E.Entry(model, s.space, Restart(model, s, hit), f);
            && CoreOf(model, h) == entry && Captured(model, h) && h.stopped == refused
            && h.dar[15] == A7(model, entry)
  {
    hide Unpack, Active, Pack, Apply, Restart, E.Entry, Dispatch;
    var hit := Run(model, s, before);
    var _ := FaultingAccess(model, hit, m);
    PlainRunKeepsSnapshot(model, s, before);
    DispatchRestarts(model, s, hit, f);
    A7IsRegister(model, Apply(model, hit, m));
  }

  /** An RTS that faults on its pull: in a batch the core goes on at address 0,
      its stack pointer inside the frame of the fault. */
  lemma RtsGoesOnInBatch(model: Model, s: State, before: seq<Micro>, m: Micro) returns (f: Fault)
    requires Sound(model, s) && Faults(model, s, before, m)
    ensures m.answer == Refused(f) && Legal(model, AccessError(f))
    ensures var hit := Run(model, s, before);
            var entry := E.Entry(model, s.space, Restart(model, s, hit), f).0;
            var t := Run(model, Apply(model, hit, m), RtsTail(A7(model, entry)));
            && CoreOf(model, End(model, t)) == entry
            && CoreOf(model, BatchEnd(model, t))
               == entry.(pc := 0, stacks := entry.stacks.Put(Active(model, entry.sr), Add32(A7(model, entry), 4)))
  {
    hide Unpack, Pack, Apply, Run, Restart, E.Entry, RtsTail, SrWords, Active;
    f := FaultingAccess(model, Run(model, s, before), m);
    var sp := A7(model, E.Entry(model, s.space, Restart(model, s, Run(model, s, before)), f).0);
    var _ := FaultRestartsInstruction(model, s, before, m, RtsTail(sp));
    RtsEnds(model, Apply(model, Run(model, s, before), m), sp);
    FaultDispatches(model, s, before, m, f);
  }

  /** A double fault halts a stepped core. In a batch the core is left looking as
      if it had executed STOP. */
  lemma HaltLooksLikeStop(model: Model, s: State, before: seq<Micro>, m: Micro, tail: seq<Micro>) returns (f: Fault)
    requires Sound(model, s) && Faults(model, s, before, m)
    ensures m.answer == Refused(f) && Legal(model, AccessError(f))
    ensures var hit := Run(model, s, before);
            var t, refused := Run(model, Apply(model, hit, m), tail), E.Entry(model, s.space, Restart(model, s, hit), f).1;
            && IsHalted(End(model, t)) == refused && !IsStopped(End(model, t))
            && IsStopped(BatchEnd(model, t)) == refused && !IsHalted(BatchEnd(model, t))
  {
    hide Unpack, Active, Pack, Apply, Run, Restart, E.Entry;
    f := FaultRestartsInstruction(model, s, before, m, tail);
    FaultDispatches(model, s, before, m, f);
    TailTouchesNoRam(model, Apply(model, Run(model, s, before), m), tail);
  }
}
