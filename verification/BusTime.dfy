/** Bus time on the 68000 and 68010: every access and every internal clock is
    billed where it happens. Each instruction states whether the cycle count it
    returns is exactly what it billed. On the 68000 that is always so; on the
    68010 not for JMP and JSR through extension words, CMPM, long ADDX and SUBX
    on memory, the return from an access error, and anything in loop mode. */
module BusTime {
  import opened Words
  import opened BusMemory
  import opened MemOps
  import opened Prefetch
  import opened LoopMode
  import X = Exceptions

  class Core {
    const m68010: bool
    var pc: u32
    var queue0: u16
    var queue1: u16
    var prefetchCount: nat
    var pendingSyncClocks: nat
    var consumeWithoutPrefetch: bool
    var loopMode: bool
    var loopBodyWord: u16
    var loopDbccWord: u16
    var dar: seq<u32>
    var otherSp: u32              // the stack pointer A7 is not
    var sr: u16
    var vbr: u32
    // the host's side
    var mem: seq<u8>
    var busTime: nat              // 4 a word or byte access, 8 a long
    var syncTime: nat             // clocks reported through `sync`
    var fetches: nat

    ghost predicate Valid()
      reads this
    {
      Bus24.Holds(mem) && |dar| == 16 && prefetchCount <= 2 && (loopMode ==> m68010)
    }

    function Queue(): (q: seq<u16>)
      reads this
      ensures prefetchCount <= 2 ==> |q| == prefetchCount
    {
      if prefetchCount == 0 then [] else if prefetchCount == 1 then [queue0] else [queue0, queue1]
    }

    ghost function View(): (f: Front)
      requires Valid()
      reads this
      ensures Sound(f)
    {
      Front(pc, Queue(), mem, fetches)
    }

    /** Everything billed so far, reported or still pending. */
    ghost function Clock(): nat
      reads this
    {
      busTime + syncTime + pendingSyncClocks
    }

    /** Between two instructions: nothing pending, the PC even, and a word to run. */
    ghost predicate Settled()
      reads this
    {
      Valid() && prefetchCount > 0 && pendingSyncClocks == 0 && pc % 2 == 0 && !consumeWithoutPrefetch
    }

    /** The same with the queue full and outside loop mode. */
    ghost predicate Boundary()
      reads this
    {
      Settled() && prefetchCount == 2 && !loopMode
    }

    // -------------------------------------------------- micro-operations

    method InternalCycles(clocks: nat)
      modifies this`pendingSyncClocks
      ensures pendingSyncClocks == old(pendingSyncClocks) + clocks
    {
      pendingSyncClocks := pendingSyncClocks + clocks;
    }

    method FlushSync()
      modifies this`pendingSyncClocks, this`syncTime
      ensures pendingSyncClocks == 0 && Clock() == old(Clock())
    {
      if pendingSyncClocks > 0 {
        syncTime := syncTime + pendingSyncClocks;
        pendingSyncClocks := 0;
      }
    }

    method PrefetchRead(addr: int) returns (w: u16)
      requires Valid()
      modifies this`pendingSyncClocks, this`syncTime, this`busTime, this`fetches
      ensures w == WordAt(mem, addr) && fetches == old(fetches) + 1
      ensures pendingSyncClocks == 0 && Clock() == old(Clock()) + 4
    {
      FlushSync();
      w := WordAt(mem, addr);
      busTime := busTime + 4;
      fetches := fetches + 1;
    }

    /** An odd PC leaves the queue empty: the next fetch takes the address error. */
    method PrefetchFirst()
      requires Valid()
      modifies this`pendingSyncClocks, this`syncTime, this`busTime, this`fetches, this`queue0, this`prefetchCount
      ensures Valid()
      ensures pc % 2 == 0 ==> View() == FirstRefill(old(View()))
                              && pendingSyncClocks == 0 && Clock() == old(Clock()) + 4
      ensures pc % 2 != 0 ==> prefetchCount == 0
    {
      prefetchCount := 0;
      if pc % 2 != 0 {
        return;
      }
      queue0 := PrefetchRead(pc);
      prefetchCount := 1;
    }

    method PrefetchSecond()
      requires Valid()
      modifies this`pendingSyncClocks, this`syncTime, this`busTime, this`fetches, this`queue1, this`prefetchCount
      ensures Valid()
      ensures old(prefetchCount) == 1 && pc % 2 == 0 ==> View() == SecondRefill(old(View()))
                                                         && pendingSyncClocks == 0 && Clock() == old(Clock()) + 4
    {
      if prefetchCount != 1 || pc % 2 != 0 {
        return;
      }
      queue1 := PrefetchRead(Add32(pc, 2));
      NextWordAt(mem, pc, 1);
      prefetchCount := 2;
    }

    /** The queue holds the two words at the PC. */
    ghost predicate Refilled()
      reads this
      requires Valid()
    {
      prefetchCount == 2 && queue0 == WordAt(mem, pc) && queue1 == WordAt(mem, pc + 2)
    }

    method FullPrefetch()
      requires Valid()
      modifies this`pendingSyncClocks, this`syncTime, this`busTime, this`fetches
      modifies this`queue0, this`queue1, this`prefetchCount
      ensures Valid()
      ensures pc % 2 == 0 ==> Refilled() && pendingSyncClocks == 0 && Clock() == old(Clock()) + 8
                              && fetches == old(fetches) + 2
    {
      PrefetchFirst();
      PrefetchSecond();
      assert pc % 2 == 0 ==> Queue()[0] == queue0 && Queue()[1] == queue1 && View().queue == Queue();
    }

    method TopUpPrefetchOne()
      requires Valid() && pc % 2 == 0
      modifies this`pendingSyncClocks, this`syncTime, this`busTime, this`fetches
      modifies this`queue0, this`queue1, this`prefetchCount
      ensures Valid() && View() == if loopMode then old(View()) else ToppedUpOne(old(View()))
      ensures var fetched := !loopMode && old(prefetchCount) < 2;
              && (fetched ==> pendingSyncClocks == 0 && Clock() == old(Clock()) + 4)
              && (!fetched ==> pendingSyncClocks == old(pendingSyncClocks) && Clock() == old(Clock()))
    {
      hide WordAt, Add32;
      if loopMode {
        return;
      }
      if prefetchCount >= 2 {
        return;
      }
      NextWordAt(mem, pc, prefetchCount);
      var w := PrefetchRead(Add32(pc, 2 * prefetchCount));
      if prefetchCount == 0 {
        queue0 := w;
      } else {
        queue1 := w;
      }
      prefetchCount := prefetchCount + 1;
    }

    method TopUpPrefetch()
      requires Valid() && pc % 2 == 0
      modifies this`pendingSyncClocks, this`syncTime, this`busTime, this`fetches
      modifies this`queue0, this`queue1, this`prefetchCount
      ensures Valid()
      ensures loopMode ==> View() == old(View()) && Clock() == old(Clock()) && pendingSyncClocks == old(pendingSyncClocks)
      ensures !loopMode ==>
                && View() == ToppedUp(old(View())) && prefetchCount == 2
                && Clock() == old(Clock()) + 4 * (2 - old(prefetchCount))
                && pendingSyncClocks == if old(prefetchCount) < 2 then 0 else old(pendingSyncClocks)
    {
      if loopMode {
        return;
      }
      while prefetchCount < 2
        invariant Valid() && old(prefetchCount) <= prefetchCount
        invariant ToppedUp(View()) == ToppedUp(old(View()))
        invariant Clock() == old(Clock()) + 4 * (prefetchCount - old(prefetchCount))
        invariant pendingSyncClocks == if old(prefetchCount) < prefetchCount then 0 else old(pendingSyncClocks)
      {
        TopUpPrefetchOne();
      }
    }

    method ConsumeImm16NoPrefetch() returns (w: u16)
      requires Valid() && pc % 2 == 0
      modifies this`pendingSyncClocks, this`syncTime, this`busTime, this`fetches
      modifies this`queue0, this`prefetchCount, this`pc
      ensures Valid() && pc % 2 == 0 && w == NextWord(old(View())) && View() == Consumed(old(View()))
      ensures old(prefetchCount) > 0 ==> pendingSyncClocks == old(pendingSyncClocks) && Clock() == old(Clock())
      ensures old(prefetchCount) == 0 ==> pendingSyncClocks == 0 && Clock() == old(Clock()) + 4
    {
      if prefetchCount > 0 {
        w := queue0;
        queue0 := queue1;
        prefetchCount := prefetchCount - 1;
        pc := Add32(pc, 2);
        return;
      }
      w := PrefetchRead(pc);
      pc := Add32(pc, 2);
    }

    method ReadImm16() returns (w: u16)
      requires Valid() && pc % 2 == 0 && !loopMode
      modifies this`pendingSyncClocks, this`syncTime, this`busTime, this`fetches
      modifies this`queue0, this`queue1, this`prefetchCount, this`pc
      ensures Valid() && pc % 2 == 0 && w == NextWord(old(View()))
      ensures View() == if consumeWithoutPrefetch then Consumed(old(View())) else ToppedUpOne(Consumed(old(View())))
      ensures var direct := if old(prefetchCount) == 0 then 4 else 0;
              Clock() == old(Clock()) + direct + if consumeWithoutPrefetch then 0 else 4
      ensures old(prefetchCount) == 0 || !consumeWithoutPrefetch ==> pendingSyncClocks == 0
      ensures old(prefetchCount) > 0 && consumeWithoutPrefetch ==> pendingSyncClocks == old(pendingSyncClocks)
      ensures pc == Add32(old(pc), 2)
      ensures var left := if old(prefetchCount) == 0 then 0 else old(prefetchCount) - 1;
              prefetchCount == if consumeWithoutPrefetch then left else left + 1
      ensures w == if old(prefetchCount) > 0 then old(Queue())[0] else WordAt(mem, old(pc))
    {
      w := ConsumeImm16NoPrefetch();
      if !consumeWithoutPrefetch {
        TopUpPrefetchOne();
      }
    }

    /** The opcode, whose refill was the previous instruction's last prefetch. */
    method FetchOpcode()
      requires Settled()
      modifies this`pendingSyncClocks, this`syncTime, this`busTime, this`fetches
      modifies this`queue0, this`prefetchCount, this`pc
      ensures Valid() && pc == Add32(old(pc), 2) && pc % 2 == 0 && Queue() == old(Queue())[1..]
      ensures prefetchCount == old(prefetchCount) - 1 && pendingSyncClocks == 0
      ensures Clock() == old(Clock()) && fetches == old(fetches)
    {
      var _ := ConsumeImm16NoPrefetch();
    }

    // ----------------------------------------------------- data accesses

    method Read8(a: u32) returns (v: u8)
      requires Valid()
      modifies this`pendingSyncClocks, this`syncTime, this`busTime
      ensures v == BusMemory.Read8(Bus24, mem, a) && pendingSyncClocks == 0 && Clock() == old(Clock()) + 4
    {
      FlushSync();
      busTime := busTime + 4;
      v := BusMemory.Read8(Bus24, mem, a);
    }

    method Read16(a: u32) returns (v: u16)
      requires Valid() && a % 2 == 0
      modifies this`pendingSyncClocks, this`syncTime, this`busTime
      ensures v == WordAt(mem, a) && pendingSyncClocks == 0 && Clock() == old(Clock()) + 4
    {
      FlushSync();
      busTime := busTime + 4;
      v := WordAt(mem, a);
    }

    method Read32(a: u32) returns (v: u32)
      requires Valid() && a % 2 == 0
      modifies this`pendingSyncClocks, this`syncTime, this`busTime
      ensures v == BusMemory.Read32(Bus24, mem, a) && pendingSyncClocks == 0 && Clock() == old(Clock()) + 8
    {
      FlushSync();
      busTime := busTime + 8;
      v := BusMemory.Read32(Bus24, mem, a);
    }

    method Write8(a: u32, v: u8)
      requires Valid()
      modifies this`pendingSyncClocks, this`syncTime, this`busTime, this`mem
      ensures Valid() && mem == Write(Bus24, old(mem), a, [v])
      ensures pendingSyncClocks == 0 && Clock() == old(Clock()) + 4
    {
      FlushSync();
      busTime := busTime + 4;
      mem := Write(Bus24, mem, a, [v]);
    }

    method Write16(a: u32, v: u16)
      requires Valid() && a % 2 == 0
      modifies this`pendingSyncClocks, this`syncTime, this`busTime, this`mem
      ensures Valid() && mem == Write(Bus24, old(mem), a, Bytes16(v))
      ensures pendingSyncClocks == 0 && Clock() == old(Clock()) + 4
    {
      FlushSync();
      busTime := busTime + 4;
      mem := Write(Bus24, mem, a, Bytes16(v));
    }

    method Write32(a: u32, v: u32)
      requires Valid() && a % 2 == 0
      modifies this`pendingSyncClocks, this`syncTime, this`busTime, this`mem
      ensures Valid() && mem == Write(Bus24, old(mem), a, Bytes32(v))
      ensures pendingSyncClocks == 0 && Clock() == old(Clock()) + 8
    {
      FlushSync();
      busTime := busTime + 8;
      mem := Write(Bus24, mem, a, Bytes32(v));
    }

    method Push32(v: u32)
      requires Valid() && dar[15] % 2 == 0
      modifies this`pendingSyncClocks, this`syncTime, this`busTime, this`mem, this`dar
      ensures Valid() && dar == old(dar)[15 := Sub32(old(dar)[15], 4)]
      ensures mem == Write(Bus24, old(mem), dar[15], Bytes32(v))
      ensures pendingSyncClocks == 0 && Clock() == old(Clock()) + 8
    {
      dar := dar[15 := Sub32(dar[15], 4)];
      Write32(dar[15], v);
    }

    method Pull16() returns (v: u16)
      requires Valid() && dar[15] % 2 == 0
      modifies this`pendingSyncClocks, this`syncTime, this`busTime, this`dar
      ensures Valid() && v == WordAt(mem, old(dar)[15]) && dar == old(dar)[15 := Add32(old(dar)[15], 2)]
      ensures dar[15] % 2 == 0 && pendingSyncClocks == 0 && Clock() == old(Clock()) + 4
    {
      v := Read16(dar[15]);
      dar := dar[15 := Add32(dar[15], 2)];
    }

    method Pull32() returns (v: u32)
      requires Valid() && dar[15] % 2 == 0
      modifies this`pendingSyncClocks, this`syncTime, this`busTime, this`dar
      ensures Valid() && v == BusMemory.Read32(Bus24, mem, old(dar)[15])
      ensures dar == old(dar)[15 := Add32(old(dar)[15], 4)]
      ensures pendingSyncClocks == 0 && Clock() == old(Clock()) + 8
    {
      v := Read32(dar[15]);
      dar := dar[15 := Add32(dar[15], 4)];
    }

    // ------------------------------------------------ flow instructions

    /** The displacement of a Bcc, BRA or BSR, its word taken without the np
        prefetch on paths that abandon the stream. */
    method BranchDisplacement(displacement: u8, abandoned: bool) returns (disp: int)
      requires Valid() && !loopMode && pc % 2 == 0 && prefetchCount == 1 && !consumeWithoutPrefetch
      modifies this`pendingSyncClocks, this`syncTime, this`busTime, this`fetches
      modifies this`queue0, this`queue1, this`prefetchCount, this`pc, this`consumeWithoutPrefetch
      ensures Valid() && !consumeWithoutPrefetch && pc % 2 == 0
      ensures disp == if displacement == 0 then Sext16(old(Queue())[0]) else Sext8(displacement)
      ensures pc == if displacement == 0 then Add32(old(pc), 2) else old(pc)
      ensures displacement != 0 || abandoned ==> Clock() == old(Clock())
      ensures displacement == 0 && !abandoned ==>
                Clock() == old(Clock()) + 4 && pendingSyncClocks == 0 && prefetchCount == 1
      ensures displacement != 0 ==> prefetchCount == 1
    {
      hide WordAt, Consumed, ToppedUpOne, NextWord;
      if displacement == 0 {
        consumeWithoutPrefetch := abandoned;
        var w := ReadImm16();
        consumeWithoutPrefetch := false;
        disp := Sext16(w);
      } else {
        disp := Sext8(displacement);
      }
    }

    /** Bcc and BRA. */
    method StepBcc(displacement: u8, taken: bool) returns (cycles: nat)
      requires Boundary()
      modifies this`pendingSyncClocks, this`syncTime, this`busTime, this`fetches
      modifies this`queue0, this`queue1, this`prefetchCount, this`pc, this`consumeWithoutPrefetch
      ensures Valid()
      ensures pc == if taken then Add32(old(pc), 2 + Displacement(displacement, old(Queue())))
                    else Add32(old(pc), if displacement == 0 then 4 else 2)
      ensures pc % 2 == 0 ==> Boundary() && Clock() == old(Clock()) + cycles && (taken ==> Refilled())
    {
      hide WordAt, ToppedUpOne, ToppedUp, Sext8, Sext16;
      FetchOpcode();
      var base := pc;
      InternalCycles(if taken then 2 else 4);
      var disp := BranchDisplacement(displacement, taken);
      if taken {
        TwoSteps(old(pc), disp);
        pc := Add32(base, disp);
        FullPrefetch();
        cycles := 10;
      } else {
        cycles := if displacement == 0 then 12 else 8;
        TopUpPrefetch();
      }
    }

    /** The return address is pushed before the refill from the target. */
    method StepBsr(displacement: u8) returns (cycles: nat)
      requires Boundary() && dar[15] % 2 == 0
      modifies this
      ensures Valid() && dar == old(dar)[15 := Sub32(old(dar)[15], 4)]
      ensures pc == Add32(old(pc), 2 + Displacement(displacement, old(Queue())))
      ensures mem == Write(Bus24, old(mem), dar[15], Bytes32(Add32(old(pc), if displacement == 0 then 4 else 2)))
      ensures pc % 2 == 0 ==> Boundary() && Clock() == old(Clock()) + cycles && Refilled()
    {
      hide WordAt, Write, Sext8, Sext16;
      FetchOpcode();
      var base := pc;
      InternalCycles(2);
      var disp := BranchDisplacement(displacement, true);
      TwoSteps(old(pc), disp);
      var returnPc := pc;
      pc := Add32(base, disp);
      Push32(returnPc);
      FullPrefetch();
      cycles := 18;
    }

    /** DBcc: true condition, taken, counter expired. A taken one may enter the
        68010's loop mode. Looping, it holds its body without a single bus
        access, and what it charges is never what it bills. */
    method StepDbcc(holds: bool, reg: Reg) returns (cycles: nat)
      requires Settled() && (loopMode || prefetchCount == 2)
      modifies this`pendingSyncClocks, this`syncTime, this`busTime, this`fetches, this`dar
      modifies this`queue0, this`queue1, this`prefetchCount, this`pc, this`consumeWithoutPrefetch
      modifies this`loopMode, this`loopBodyWord, this`loopDbccWord
      ensures Valid()
      ensures dar == if holds then old(dar) else old(dar)[reg := Decremented(old(dar)[reg])]
      ensures var taken := !holds && dar[reg] % 0x1_0000 != 0xFFFF;
              && (old(loopMode) ==> pc == (if taken then Sub32(old(pc), 2) else Add32(old(pc), 4)) && loopMode == taken)
              && (!old(loopMode) ==>
                    && pc == (if taken then Add32(old(pc), 2 + Sext16(old(Queue())[1])) else Add32(old(pc), 4))
                    && loopMode == EntersLoop(taken, old(Queue())[1]))
      ensures pc % 2 == 0 ==>
                && Settled() && prefetchCount == 2 && (!holds && !loopMode ==> Refilled())
                && (Clock() == old(Clock()) + cycles <==> !old(loopMode))
    {
      hide WordAt, ToppedUpOne, ToppedUp, Sext16, Consumed, NextWord, Decremented, Loopable68010;
      if loopMode {
        cycles := LoopingDbcc(holds, reg);
      } else {
        cycles := OrdinaryDbcc(holds, reg);
      }
    }

    method OrdinaryDbcc(holds: bool, reg: Reg) returns (cycles: nat)
      requires Boundary()
      modifies this`pendingSyncClocks, this`syncTime, this`busTime, this`fetches, this`dar
      modifies this`queue0, this`queue1, this`prefetchCount, this`pc, this`consumeWithoutPrefetch
      modifies this`loopMode, this`loopBodyWord, this`loopDbccWord
      ensures Valid()
      ensures dar == if holds then old(dar) else old(dar)[reg := Decremented(old(dar)[reg])]
      ensures var taken := !holds && dar[reg] % 0x1_0000 != 0xFFFF;
              && pc == (if taken then Add32(old(pc), 2 + Sext16(old(Queue())[1])) else Add32(old(pc), 4))
              && loopMode == EntersLoop(taken, old(Queue())[1])
      ensures pc % 2 == 0 ==>
                && Settled() && prefetchCount == 2 && (!holds ==> Refilled())
                && Clock() == old(Clock()) + cycles
    {
      hide WordAt, ToppedUpOne, ToppedUp, Sext16, Consumed, NextWord, Decremented, Loopable68010;
      var dbccWord := queue0;
      FetchOpcode();
      InternalCycles(if holds then 4 else 2);
      consumeWithoutPrefetch := !holds;
      var w := ReadImm16();
      consumeWithoutPrefetch := false;
      TwoSteps(old(pc), Sext16(w));
      if holds {
        TopUpPrefetch();
        return 12;
      }
      cycles := CountAndBranch(reg, w, dbccWord);
    }

    /** Loop mode is entered on a taken -4 displacement back to a loopable body. */
    predicate EntersLoop(taken: bool, disp: u16)
      reads this
    {
      taken && m68010 && Sext16(disp) == -4 && prefetchCount == 2 && Loopable68010(queue0)
    }

    method LoopingDbcc(holds: bool, reg: Reg) returns (cycles: nat)
      requires Settled() && loopMode
      modifies this`pendingSyncClocks, this`syncTime, this`busTime, this`fetches, this`dar
      modifies this`queue0, this`queue1, this`prefetchCount, this`pc, this`loopMode
      ensures Settled() && prefetchCount == 2 && (!loopMode ==> Refilled())
      ensures dar == if holds then old(dar) else old(dar)[reg := Decremented(old(dar)[reg])]
      ensures loopMode == (!holds && dar[reg] % 0x1_0000 != 0xFFFF)
      ensures pc == if loopMode then Sub32(old(pc), 2) else Add32(old(pc), 4)
      ensures Clock() == old(Clock()) + (if loopMode then 0 else 8) != old(Clock()) + cycles
      ensures loopMode ==> Queue() == [loopBodyWord, loopDbccWord] && fetches == old(fetches)
    {
      hide WordAt, Decremented;
      TwoSteps(pc, 2);
      EvenHalves(pc);
      BackOver(pc);
      FetchOpcode();
      if holds {
        loopMode := false;
        pc := Add32(pc, 2);
        FullPrefetch();
        return 12;
      }
      dar := dar[reg := Decremented(dar[reg])];
      if dar[reg] % 0x1_0000 != 0xFFFF {
        pc := Sub32(pc, 4);
        queue0, queue1, prefetchCount := loopBodyWord, loopDbccWord, 2;
        return 6;
      }
      loopMode := false;
      pc := Add32(pc, 2);
      FullPrefetch();
      cycles := 16;
    }

    /** The counter, and the target or the fall-through behind it. */
    method CountAndBranch(reg: Reg, disp: u16, dbccWord: u16) returns (cycles: nat)
      requires Valid() && pc % 2 == 0 && !consumeWithoutPrefetch && !loopMode
      modifies this`pendingSyncClocks, this`syncTime, this`busTime, this`fetches, this`dar
      modifies this`queue0, this`queue1, this`prefetchCount, this`pc
      modifies this`loopMode, this`loopBodyWord, this`loopDbccWord
      ensures Valid() && dar == old(dar)[reg := Decremented(old(dar)[reg])]
      ensures var taken := dar[reg] % 0x1_0000 != 0xFFFF;
              && pc == (if taken then Add32(old(pc), Sext16(disp) - 2) else old(pc))
              && loopMode == EntersLoop(taken, disp)
      ensures pc % 2 == 0 ==> Refilled() && pendingSyncClocks == 0 && Clock() == old(Clock()) + cycles - 2
    {
      hide WordAt, Sext16, Decremented, Loopable68010;
      dar := dar[reg := Decremented(dar[reg])];
      if dar[reg] % 0x1_0000 != 0xFFFF {
        pc := Add32(pc, Sext16(disp) - 2);
        FullPrefetch();
        if m68010 && Sext16(disp) == -4 && prefetchCount == 2 && Loopable68010(queue0) {
          loopMode, loopBodyWord, loopDbccWord := true, queue0, dbccWord;
        }
        return 10;
      }
      ExpiredRefill();
      cycles := 14;
    }

    /** An expired counter: one discarded read, then the refill, at the same PC. */
    method ExpiredRefill()
      requires Valid() && pc % 2 == 0
      modifies this`pendingSyncClocks, this`syncTime, this`busTime, this`fetches
      modifies this`queue0, this`queue1, this`prefetchCount
      ensures Valid() && Refilled() && pendingSyncClocks == 0 && Clock() == old(Clock()) + 12
    {
      var _ := Read16(pc);
      FullPrefetch();
    }

    /** One extension word without its np prefetch, internal clocks around it. */
    method ControlExtension(before: nat, after: nat) returns (w: u16)
      requires Valid() && !loopMode && pc % 2 == 0 && prefetchCount == 1 && consumeWithoutPrefetch && pendingSyncClocks == 0
      modifies this`pendingSyncClocks, this`syncTime, this`busTime, this`fetches
      modifies this`queue0, this`queue1, this`prefetchCount, this`pc
      ensures Valid() && pc % 2 == 0 && pc == Add32(old(pc), 2) && prefetchCount == 0
      ensures w == old(Queue())[0] && Clock() == old(Clock()) + before + after
    {
      hide WordAt, Consumed, ToppedUpOne, NextWord;
      InternalCycles(before);
      w := ReadImm16();
      InternalCycles(after);
    }

    /** Extension words of a control address, taken without np prefetches. */
    method ControlAddress(mode: Control) returns (a: u32)
      requires Valid() && !loopMode && pc % 2 == 0 && prefetchCount == 1 && !consumeWithoutPrefetch && pendingSyncClocks == 0
      modifies this`pendingSyncClocks, this`syncTime, this`busTime, this`fetches
      modifies this`queue0, this`prefetchCount, this`queue1, this`pc, this`consumeWithoutPrefetch
      ensures Valid() && !consumeWithoutPrefetch && pc % 2 == 0
      ensures pc == Add32(old(pc), ExtensionBytes(mode))
      ensures a == ControlTarget(mode, dar, old(pc), old(Queue())[0], WordAt(mem, Add32(old(pc), 2)))
      ensures Clock() == old(Clock()) + JumpCycles(mode)
    {
      hide WordAt, Consumed, ToppedUpOne, NextWord, BriefIndexed, Sext16;
      consumeWithoutPrefetch := true;
      var base := pc;
      match mode {
        case OfAn(r) =>
          a := dar[8 + r];
        case OfAnDisp(r) =>
          var w := ControlExtension(0, 2);
          a := Add32(dar[8 + r], Sext16(w));
        case OfAnIndex(r) =>
          var w := ControlExtension(2, 4);
          a := BriefIndexed(dar, dar[8 + r], w);
        case OfAbsW =>
          var w := ControlExtension(0, 2);
          a := Sext16(w) % 0x1_0000_0000;
        case OfAbsL =>
          var hi := ControlExtension(0, 0);
          var lo := ReadImm16();                         // the queue is empty: a direct read
          TwoSteps(base, 2);
          a := hi as int * 0x1_0000 + lo;
        case OfPcDisp =>
          var w := ControlExtension(0, 2);
          a := Add32(base, Sext16(w));
        case OfPcIndex =>
          var w := ControlExtension(2, 4);
          a := BriefIndexed(dar, base, w);
      }
      consumeWithoutPrefetch := false;
    }

    /** The 68010's flat charge has no room for an address calculation. */
    predicate JumpConserves(mode: Control) {
      !m68010 || JumpCycles(mode) == 0
    }

    method StepJmp(mode: Control) returns (cycles: nat)
      requires Boundary()
      modifies this`pendingSyncClocks, this`syncTime, this`busTime, this`fetches
      modifies this`queue0, this`queue1, this`prefetchCount, this`pc, this`consumeWithoutPrefetch
      ensures Valid()
      ensures pc == ControlTarget(mode, dar, Add32(old(pc), 2), old(Queue())[1], WordAt(mem, Add32(old(pc), 4)))
      ensures pc % 2 == 0 ==>
                && Boundary() && Refilled() && Clock() == old(Clock()) + 8 + JumpCycles(mode)
                && (Clock() == old(Clock()) + cycles <==> JumpConserves(mode))
    {
      hide WordAt;
      TwoSteps(pc, 2);
      FetchOpcode();
      pc := ControlAddress(mode);
      FullPrefetch();
      cycles := if m68010 then 8 else 8 + JumpCycles(mode);
    }

    method StepJsr(mode: Control) returns (cycles: nat)
      requires Boundary() && dar[15] % 2 == 0
      modifies this
      ensures Valid() && dar == old(dar)[15 := Sub32(old(dar)[15], 4)]
      ensures pc == ControlTarget(mode, old(dar), Add32(old(pc), 2), old(Queue())[1],
                                  WordAt(old(mem), Add32(old(pc), 4)))
      ensures mem == Write(Bus24, old(mem), dar[15], Bytes32(Add32(old(pc), 2 + ExtensionBytes(mode))))
      ensures pc % 2 == 0 ==>
                && Boundary() && Refilled() && Clock() == old(Clock()) + 16 + JumpCycles(mode)
                && (Clock() == old(Clock()) + cycles <==> JumpConserves(mode))
    {
      hide WordAt, Write;
      FetchOpcode();
      var target := ControlAddress(mode);
      TwoSteps(old(pc), ExtensionBytes(mode));
      TwoSteps(old(pc), 2);
      Push32(pc);
      pc := target;
      FullPrefetch();
      cycles := if m68010 then 16 else 16 + JumpCycles(mode);
    }

    method StepRts() returns (cycles: nat)
      requires Boundary() && dar[15] % 2 == 0
      modifies this
      ensures Valid() && mem == old(mem)
      ensures dar == old(dar)[15 := Add32(old(dar)[15], 4)]
      ensures pc == BusMemory.Read32(Bus24, mem, old(dar)[15])
      ensures pc % 2 == 0 ==> Boundary() && Clock() == old(Clock()) + cycles && Refilled()
    {
      hide WordAt, BusMemory.Read32;
      FetchOpcode();
      pc := Pull32();
      FullPrefetch();
      cycles := 16;
    }

    /** RTR: the condition codes of a status word, then the PC. */
    method StepRtr() returns (cycles: nat)
      requires Boundary() && dar[15] % 2 == 0
      modifies this
      ensures Valid() && mem == old(mem) && otherSp == old(otherSp)
      ensures sr == WithCcr(old(sr), WordAt(mem, old(dar)[15]))
      ensures dar == old(dar)[15 := Add32(old(dar)[15], 6)]
      ensures pc == BusMemory.Read32(Bus24, mem, Add32(old(dar)[15], 2))
      ensures pc % 2 == 0 ==> Boundary() && Clock() == old(Clock()) + cycles && Refilled()
    {
      hide WordAt, BusMemory.Read32;
      ThreeSteps(dar[15]);
      FetchOpcode();
      var w := Pull16();
      sr := WithCcr(sr, w);
      pc := Pull32();
      FullPrefetch();
      cycles := 20;
    }

    /** `set_sr`: a changed S bit swaps the stack pointers. */
    method SetSr(w: u16)
      requires Valid()
      modifies this`sr, this`dar, this`otherSp
      ensures Valid() && sr == StatusFields(w)
      ensures dar[..15] == old(dar)[..15]
      ensures if Supervisor(sr) == Supervisor(old(sr))
              then dar == old(dar) && otherSp == old(otherSp)
              else dar == old(dar)[15 := old(otherSp)] && otherSp == old(dar)[15]
    {
      var next := StatusFields(w);
      if Supervisor(next) != Supervisor(sr) {
        var sp := dar[15];
        dar := dar[15 := otherSp];
        otherSp := sp;
      }
      sr := next;
    }

    /** RTE from supervisor mode: status word and PC, on the 68010 behind a look
        at the format, which costs as much as pulling the word. The access error
        frame's return pulls it again and charges less than that takes. */
    method StepRte() returns (cycles: nat)
      requires Boundary() && dar[15] % 2 == 0 && Supervisor(sr) && (m68010 ==> Format() == 0 || Format() == 8)
      modifies this
      ensures Valid() && mem == old(mem) && sr == StatusFields(WordAt(mem, old(dar)[15]))
      ensures pc == BusMemory.Read32(Bus24, mem, Add32(old(dar)[15], 2))
      ensures var released := Add32(old(dar)[15], FrameBytes(old(Format())));
              if Supervisor(sr) then dar == old(dar)[15 := released] && otherSp == old(otherSp)
              else dar == old(dar)[15 := old(otherSp)] && otherSp == released
      ensures pc % 2 == 0 ==>
                && Boundary() && Refilled()
                && (Clock() == old(Clock()) + cycles <==> !(m68010 && old(Format()) == 8))
    {
      hide WordAt, BusMemory.Read32, StatusFields;
      var sp := dar[15];
      EvenHalves(sp);
      FetchOpcode();
      var format := 0;
      if m68010 {
        var w := Read16(Add32(sp, 6));
        format := w / 0x1000;
      }
      var status := PullFrame(format);
      SetSr(status);
      FullPrefetch();
      cycles := if m68010 && format == 0 then 24 else 20;
    }

    /** Status word and PC pulled, the frame released. */
    method PullFrame(format: nat) returns (status: u16)
      requires Valid() && dar[15] % 2 == 0
      modifies this`pendingSyncClocks, this`syncTime, this`busTime, this`dar, this`pc
      ensures Valid() && status == WordAt(mem, old(dar)[15])
      ensures pc == BusMemory.Read32(Bus24, mem, Add32(old(dar)[15], 2))
      ensures dar == old(dar)[15 := Add32(old(dar)[15], FrameBytes(format))]
      ensures pendingSyncClocks == 0 && Clock() == old(Clock()) + if m68010 && format == 8 then 16 else 12
    {
      hide WordAt, BusMemory.Read32;
      ThreeSteps(dar[15]);
      EvenHalves(dar[15]);
      status := Pull16();
      pc := Pull32();
      if m68010 && format == 8 {
        var _ := Pull16();
        dar := dar[15 := Add32(dar[15], 50)];
      } else if m68010 {
        dar := dar[15 := Add32(dar[15], 2)];
      }
    }

    /** The format of the frame on top, as the 68010 finds it. */
    function Format(): nat
      requires |dar| == 16 && Bus24.Holds(mem)
      reads this
    {
      WordAt(mem, Add32(dar[15], 6)) / 0x1000
    }

    function FrameBytes(format: nat): nat {
      if !m68010 then 6 else if format == 8 then 58 else 8
    }

    // --------------------------------------------- data-moving instructions

    method MovepStore(a: u32, bytes: seq<u8>)
      requires Valid() && pendingSyncClocks == 0
      modifies this`pendingSyncClocks, this`syncTime, this`busTime, this`mem
      ensures Valid() && mem == Scattered(old(mem), a, bytes)
      ensures pendingSyncClocks == 0 && Clock() == old(Clock()) + 4 * |bytes|
    {
      hide Write;
      assert bytes[0..] == bytes && Add32(a, 2 * 0) == a;
      for i := 0 to |bytes|
        invariant Valid() && pendingSyncClocks == 0 && Clock() == old(Clock()) + 4 * i
        invariant Scattered(mem, Add32(a, 2 * i), bytes[i..]) == Scattered(old(mem), a, bytes)
      {
        assert bytes[i..][1..] == bytes[i + 1..];
        TwoMore(a, i);
        Write8(Add32(a, 2 * i), bytes[i]);
      }
      assert bytes[|bytes|..] == [];
    }

    method MovepLoad(a: u32, n: nat) returns (got: seq<u8>)
      requires Valid() && pendingSyncClocks == 0
      modifies this`pendingSyncClocks, this`syncTime, this`busTime
      ensures got == Gathered(mem, a, n) && pendingSyncClocks == 0 && Clock() == old(Clock()) + 4 * n
    {
      got := [];
      assert Add32(a, 2 * 0) == a;
      for i := 0 to n
        invariant Valid() && pendingSyncClocks == 0 && Clock() == old(Clock()) + 4 * i
        invariant got + Gathered(mem, Add32(a, 2 * i), n - i) == Gathered(mem, a, n)
      {
        TwoMore(a, i);
        GatherStep(mem, Add32(a, 2 * i), n - i, got);
        var b := Read8(Add32(a, 2 * i));
        got := got + [b];
      }
    }

    /** MOVEP: every other byte, most significant first. */
    method StepMovep(long: bool, toMemory: bool, dreg: Reg, areg: Reg) returns (cycles: nat)
      requires Boundary()
      modifies this
      ensures Boundary() && Clock() == old(Clock()) + cycles && pc == Add32(old(pc), 4)
      ensures var a := Add32(old(dar)[8 + areg], Sext16(old(Queue())[1]));
              var n := if long then 4 else 2;
              if toMemory then dar == old(dar) && mem == Scattered(old(mem), a, MovepBytes(old(dar)[dreg], n))
              else mem == old(mem) && dar == old(dar)[dreg := MovepMerged(old(dar)[dreg], Gathered(mem, a, n))]
    {
      hide WordAt, ToppedUpOne, ToppedUp, Consumed, NextWord, Scattered, Gathered, MovepMerged, MovepBytes, Sext16;
      TwoSteps(pc, 0);
      FetchOpcode();
      var disp := ReadImm16();
      var a := Add32(dar[8 + areg], Sext16(disp));
      var n := if long then 4 else 2;
      if toMemory {
        MovepStore(a, MovepBytes(dar[dreg], n));
      } else {
        var got := MovepLoad(a, n);
        dar := dar[dreg := MovepMerged(dar[dreg], got)];
      }
      TopUpPrefetch();
      cycles := if long then 24 else 16;
    }

    method ReadSized(a: u32, size: Size) returns (v: u32)
      requires Valid() && (size != Byte ==> a % 2 == 0)
      modifies this`pendingSyncClocks, this`syncTime, this`busTime
      ensures pendingSyncClocks == 0 && Clock() == old(Clock()) + Access(size)
    {
      match size {
        case Byte => v := Read8(a);
        case Word => v := Read16(a);
        case Long => v := Read32(a);
      }
    }

    /** CMPM (Ay)+,(Ax)+: both operands in order, nothing stored. The 68010 is
        charged the comparison alone. */
    method StepCmpm(size: Size, ay: Reg, ax: Reg) returns (cycles: nat)
      requires Settled() && prefetchCount == 2 && EvenOperand(size, dar[8 + ay]) && EvenOperand(size, dar[8 + ax])
      modifies this`pendingSyncClocks, this`syncTime, this`busTime, this`fetches
      modifies this`queue0, this`queue1, this`prefetchCount, this`pc, this`dar
      ensures Settled() && (!loopMode ==> Boundary()) && pc == Add32(old(pc), 2)
      ensures Clock() == old(Clock()) + cycles <==> !m68010
      ensures var first := old(dar)[8 + ay := Add32(old(dar)[8 + ay], Increment(size, ay))];
              dar == first[8 + ax := Add32(first[8 + ax], Increment(size, ax))]
    {
      hide WordAt, ToppedUpOne, ToppedUp, BusMemory.Read32;
      FetchOpcode();
      EvenIncrement(size, ay, dar[8 + ay]);
      var src := dar[8 + ay];
      dar := dar[8 + ay := Add32(src, Increment(size, ay))];
      var _ := ReadSized(src, size);
      var dst := dar[8 + ax];
      dar := dar[8 + ax := Add32(dst, Increment(size, ax))];
      var _ := ReadSized(dst, size);
      TopUpPrefetch();
      cycles := if m68010 then 4 else if size == Long then 20 else 12;
    }

    /** The two predecrements, billed as one overlapping pair. */
    method PredecrementPair(size: Size, ay: Reg, ax: Reg) returns (src: u32, dst: u32)
      requires Valid() && EvenOperand(size, dar[8 + ay]) && EvenOperand(size, dar[8 + ax]) && pendingSyncClocks == 0
      modifies this`pendingSyncClocks, this`dar
      ensures Valid() && EvenOperand(size, src) && EvenOperand(size, dst) && pendingSyncClocks == 2
      ensures src == Sub32(old(dar)[8 + ay], Increment(size, ay))
      ensures var first := old(dar)[8 + ay := src];
              dst == Sub32(first[8 + ax], Increment(size, ax)) && dar == first[8 + ax := dst]
    {
      EvenIncrement(size, ay, dar[8 + ay]);
      InternalCycles(2);
      src := Sub32(dar[8 + ay], Increment(size, ay));
      dar := dar[8 + ay := src];
      EvenIncrement(size, ax, dar[8 + ax]);
      InternalCycles(2);
      dst := Sub32(dar[8 + ax], Increment(size, ax));
      dar := dar[8 + ax := dst];
      pendingSyncClocks := 0;
      InternalCycles(2);
    }

    /** `read_long_predec_68000`: low word first. */
    method ReadLongPredec68000(a: u32)
      requires Valid() && a % 2 == 0
      modifies this`pendingSyncClocks, this`syncTime, this`busTime
      ensures pendingSyncClocks == 0 && Clock() == old(Clock()) + 8
    {
      EvenHalves(a);
      var _ := Read16(Add32(a, 2));
      var _ := Read16(a);
    }

    /** A long result as two words, the final prefetch between or before them. */
    method WriteLongResult(a: u32, result: u32, interleaved: bool)
      requires Valid() && a % 2 == 0 && pc % 2 == 0 && prefetchCount == 1 && pendingSyncClocks == 0
      modifies this`pendingSyncClocks, this`syncTime, this`busTime, this`mem, this`fetches
      modifies this`queue0, this`queue1, this`prefetchCount
      ensures Valid() && pendingSyncClocks == 0 && prefetchCount == (if loopMode then 1 else 2)
      ensures Clock() == old(Clock()) + if loopMode then 8 else 12
    {
      hide WordAt, ToppedUpOne, ToppedUp, Write;
      EvenHalves(a);
      if !interleaved {
        TopUpPrefetch();
      }
      Write16(Add32(a, 2), result % 0x1_0000);
      if interleaved {
        TopUpPrefetch();
      }
      Write16(a, result / 0x1_0000);
    }

    /** ADDX and SUBX -(Ay),-(Ax), whatever the result. The charge of the long
        form is the 68000's: on the 68010 it falls short of the bus time, and in
        loop mode the final prefetch that is charged does not happen. */
    method StepExtended(size: Size, ay: Reg, ax: Reg, result: u32) returns (cycles: nat)
      requires Settled() && prefetchCount == 2 && EvenOperand(size, dar[8 + ay]) && EvenOperand(size, dar[8 + ax])
      modifies this
      ensures Settled() && (!loopMode ==> Boundary()) && loopMode == old(loopMode) && pc == Add32(old(pc), 2)
      ensures Clock() == old(Clock()) + cycles <==> !(m68010 && size == Long) && !loopMode
    {
      hide WordAt, ToppedUpOne, ToppedUp, BusMemory.Read32, Write;
      FetchOpcode();
      var src, dst := PredecrementPair(size, ay, ax);
      if size == Long {
        if m68010 {
          var _ := Read32(src);
          var _ := Read32(dst);
        } else {
          ReadLongPredec68000(src);
          ReadLongPredec68000(dst);
        }
        WriteLongResult(dst, result, !m68010);
      } else {
        var _ := ReadSized(src, size);
        var _ := ReadSized(dst, size);
        TopUpPrefetch();
        if size == Byte {
          Write8(dst, result % 0x100);
        } else {
          Write16(dst, result % 0x1_0000);
        }
      }
      cycles := if !m68010 && size == Long then 30 else 18;
    }

    // ------------------------------------------------------- exceptions

    /** Supervisor mode, trace off: A7 becomes the supervisor stack pointer. */
    method EnterSupervisor()
      requires Valid()
      modifies this`sr, this`dar, this`otherSp
      ensures Valid() && sr == SupervisorStatus(old(sr))
      ensures dar == old(dar)[15 := old(SupervisorSp())]
      ensures otherSp == if Supervisor(old(sr)) then old(otherSp) else old(dar)[15]
    {
      SupervisorFields(sr);
      SetSr(SupervisorStatus(sr));
      assert dar[15] == old(SupervisorSp());
      assert dar == old(dar)[15 := dar[15]];
    }

    function SupervisorSp(): u32
      requires |dar| == 16
      reads this
    {
      if Supervisor(sr) then dar[15] else otherSp
    }

    /** Vector fetch, first refill read, two internal clocks, second refill read. */
    method JumpVector(vector: nat)
      requires Valid() && vector < 0x100 && vbr % 2 == 0
      modifies this`pendingSyncClocks, this`syncTime, this`busTime, this`fetches
      modifies this`queue0, this`queue1, this`prefetchCount, this`pc, this`loopMode
      ensures Valid() && !loopMode && pc == BusMemory.Read32(Bus24, mem, Add32(4 * vector, vbr))
      ensures pc % 2 == 0 ==> Refilled() && pendingSyncClocks == 0 && Clock() == old(Clock()) + 18
    {
      hide BusMemory.Read32;
      loopMode := false;
      EvenVector(vector, vbr);
      pc := Read32(Add32(4 * vector, vbr));
      PrefetchFirst();
      InternalCycles(2);
      PrefetchSecond();
      assert pc % 2 == 0 ==> Queue()[0] == queue0 && Queue()[1] == queue1 && View().queue == Queue();
    }

    /** `push_exception_frame_68000`. */
    method PushFrame68000(stackedPc: u32, oldSr: u16)
      requires Valid() && dar[15] % 2 == 0
      modifies this`pendingSyncClocks, this`syncTime, this`busTime, this`mem, this`dar
      ensures Valid() && dar == old(dar)[15 := Sub32(old(dar)[15], 6)]
      ensures pendingSyncClocks == 0 && Clock() == old(Clock()) + 12
    {
      hide Write;
      var sp := Sub32(dar[15], 6);
      dar := dar[15 := sp];
      EvenHalves(sp);
      Write16(Add32(sp, 4), stackedPc % 0x1_0000);
      Write16(sp, oldSr);
      Write16(Add32(sp, 2), stackedPc / 0x1_0000);
    }

    /** `take_exception` on the 68000, behind the opcode that raised it. */
    method StepException(vector: nat) returns (cycles: nat)
      requires Boundary() && !m68010 && SupervisorSp() % 2 == 0 && vbr % 2 == 0 && vector < 0x100
      requires ExceptionCycles(vector) == 34
      modifies this
      ensures Valid()
      ensures pc % 2 == 0 ==> Boundary() && Clock() == old(Clock()) + cycles && Refilled()
    {
      hide WordAt;
      var ppc := pc;
      FetchOpcode();
      InternalCycles(4);
      var oldSr := sr;
      EnterSupervisor();
      PushFrame68000(if X.StacksNextPc(vector) then pc else ppc, oldSr);
      JumpVector(vector);
      cycles := ExceptionCycles(vector);
    }

    /** A taken TRAPV reads the word it would have prefetched, and its group-2
        entry has no leading clocks; a trace entry has four. */
    method StepGroup2(trace: bool) returns (cycles: nat)
      requires Boundary() && !m68010 && SupervisorSp() % 2 == 0 && vbr % 2 == 0
      modifies this
      ensures Valid()
      ensures pc % 2 == 0 ==> Boundary() && Clock() == old(Clock()) + cycles && Refilled()
    {
      hide WordAt, StatusFields, SupervisorStatus, Write;
      if trace {
        InternalCycles(4);
        EnterGroup2(9);
      } else {
        FetchOpcode();
        EvenHalves(pc);
        var _ := Read16(Add32(pc, 2));
        EnterGroup2(7);
      }
      cycles := ExceptionCycles(if trace then 9 else 7);
    }

    /** `take_group2_exception`: the frame and the vector. */
    method EnterGroup2(vector: nat)
      requires Valid() && SupervisorSp() % 2 == 0 && vbr % 2 == 0 && vector < 0x100
      modifies this
      ensures Valid() && !loopMode && consumeWithoutPrefetch == old(consumeWithoutPrefetch)
      ensures pc % 2 == 0 ==> Refilled() && pendingSyncClocks == 0 && Clock() == old(Clock()) + 30
    {
      hide WordAt, StatusFields, SupervisorStatus, Write, BusMemory.Read32;
      var oldSr := sr;
      EnterSupervisor();
      PushFrame68000(pc, oldSr);
      JumpVector(vector);
    }

    method InterruptFrame68000(stackedPc: u32, oldSr: u16)
      requires Valid() && dar[15] % 2 == 0 && pendingSyncClocks == 0
      modifies this`pendingSyncClocks, this`syncTime, this`busTime, this`mem, this`dar
      ensures Valid() && pendingSyncClocks == 0 && Clock() == old(Clock()) + 26
    {
      hide Write;
      InternalCycles(6);
      var sp := Sub32(dar[15], 6);
      dar := dar[15 := sp];
      EvenHalves(sp);
      Write16(Add32(sp, 4), stackedPc % 0x1_0000);
      InternalCycles(4);
      FlushSync();                                       // the acknowledge cycle
      InternalCycles(4);
      Write16(sp, oldSr);
      Write16(Add32(sp, 2), stackedPc / 0x1_0000);
    }

    method InterruptFrame68010(stackedPc: u32, oldSr: u16, vector: nat)
      requires Valid() && dar[15] % 2 == 0 && pendingSyncClocks == 0 && vector < 0x100
      modifies this`pendingSyncClocks, this`syncTime, this`busTime, this`mem, this`dar
      ensures Valid() && pendingSyncClocks == 0 && Clock() == old(Clock()) + 28
    {
      hide Write;
      InternalCycles(12);
      FlushSync();
      var sp := Sub32(dar[15], 8);
      dar := dar[15 := sp];
      EvenHalves(sp);
      Write16(Add32(sp, 4), stackedPc % 0x1_0000);
      Write16(sp, oldSr);
      Write16(Add32(sp, 2), stackedPc / 0x1_0000);
      Write16(Add32(sp, 6), 4 * vector);
    }

    /** `service_interrupt`: 44 clocks on the 68000, 46 on the 68010, out of
        loop mode too. */
    method StepInterrupt(level: nat, vector: nat) returns (cycles: nat)
      requires Settled() && SupervisorSp() % 2 == 0 && level < 8 && vbr % 2 == 0 && vector < 0x100
      modifies this
      ensures Valid() && cycles == (if m68010 then 46 else 44) && sr == Interrupted(old(sr), level)
      ensures pc % 2 == 0 ==> Boundary() && Clock() == old(Clock()) + cycles && Refilled()
    {
      hide WordAt, Write;
      var oldSr := sr;
      EnterSupervisor();
      sr := Interrupted(oldSr, level);
      if m68010 {
        InterruptFrame68010(pc, oldSr, vector);
      } else {
        InterruptFrame68000(pc, oldSr);
      }
      JumpVector(vector);
      cycles := if m68010 then 46 else 44;
    }

    // ------------------------------------------------------------ any run

    /** No operand that would take an address error, no RTE from user mode, and
        nothing whose charge is not its bus time. */
    predicate CanRun(t: Timed)
      requires Bus24.Holds(mem)
      reads this
    {
      |dar| == 16 && (loopMode ==> t.Interrupt?) &&
      match t
      case Bsr(_) => dar[15] % 2 == 0
      case Jmp(mode) => JumpConserves(mode)
      case Jsr(mode) => dar[15] % 2 == 0 && JumpConserves(mode)
      case Rts => dar[15] % 2 == 0
      case Rtr => dar[15] % 2 == 0
      case Rte => dar[15] % 2 == 0 && Supervisor(sr) && (m68010 ==> Format() == 0)
      case Cmpm(size, ay, ax) => EvenOperand(size, dar[8 + ay]) && EvenOperand(size, dar[8 + ax]) && !m68010
      case Extended(size, ay, ax, _) =>
        EvenOperand(size, dar[8 + ay]) && EvenOperand(size, dar[8 + ax]) && !(m68010 && size == Long)
      case Exception(vector) => SupervisorSp() % 2 == 0 && vbr % 2 == 0 && !m68010 && ExceptionCycles(vector) == 34
      case Group2(_) => SupervisorSp() % 2 == 0 && vbr % 2 == 0 && !m68010
      case Interrupt(_, _) => SupervisorSp() % 2 == 0 && vbr % 2 == 0
      case _ => true
    }

    method Execute(t: Timed) returns (cycles: nat)
      requires Settled() && prefetchCount == 2 && CanRun(t)
      modifies this
      ensures Valid()
      ensures pc % 2 == 0 ==> Settled() && prefetchCount == 2 && Clock() == old(Clock()) + cycles
      ensures pc % 2 == 0 && loopMode ==> t.Dbcc? && m68010
    {
      hide WordAt, Write, BusMemory.Read32, Loopable68010, StatusFields;
      match t {
        case Bcc(displacement, taken) => cycles := StepBcc(displacement, taken);
        case Bsr(displacement) => cycles := StepBsr(displacement);
        case Dbcc(holds, reg) => cycles := StepDbcc(holds, reg);
        case Jmp(mode) => cycles := StepJmp(mode);
        case Jsr(mode) => cycles := StepJsr(mode);
        case Rts => cycles := StepRts();
        case Rtr => cycles := StepRtr();
        case Rte => cycles := StepRte();
        case Movep(long, toMemory, dreg, areg) => cycles := StepMovep(long, toMemory, dreg, areg);
        case Cmpm(size, ay, ax) => cycles := StepCmpm(size, ay, ax);
        case Extended(size, ay, ax, result) => cycles := StepExtended(size, ay, ax, result);
        case Exception(vector) => cycles := StepException(vector);
        case Group2(trace) => cycles := StepGroup2(trace);
        case Interrupt(level, vector) => cycles := StepInterrupt(level, vector);
      }
    }

    /** Over any run of these, up to the first that takes an address error, is
        privileged, or is charged something else than its bus time: the cycles
        charged are the bus time and the clocks sent to `sync`, and the core is
        at an instruction boundary again. */
    method RunAll(program: seq<Timed>) returns (cycles: nat, done: nat)
      requires Boundary()
      modifies this
      ensures Valid() && done <= |program| && (pc % 2 == 0 && done < |program| ==> !CanRun(program[done]))
      ensures pc % 2 == 0 ==>
                && Settled() && prefetchCount == 2 && (!m68010 ==> Boundary())
                && busTime + syncTime == old(busTime + syncTime) + cycles
    {
      hide WordAt;
      cycles, done := 0, 0;
      while done < |program| && pc % 2 == 0 && CanRun(program[done])
        invariant done <= |program| && Valid()
        invariant pc % 2 == 0 ==> Settled() && prefetchCount == 2 && Clock() == old(Clock()) + cycles
      {
        var c := Execute(program[done]);
        cycles, done := cycles + c, done + 1;
      }
    }
  }

  /** The instructions and entries whose charges are accounted for here. */
  datatype Timed =
    | Bcc(displacement: u8, taken: bool)
    | Bsr(displacement: u8)
    | Dbcc(holds: bool, reg: Reg)
    | Jmp(mode: Control)
    | Jsr(mode: Control)
    | Rts
    | Rtr
    | Rte
    | Movep(long: bool, toMemory: bool, dreg: Reg, areg: Reg)
    | Cmpm(size: Size, ay: Reg, ax: Reg)
    | Extended(size: Size, ay: Reg, ax: Reg, result: u32)
    | Exception(vector: u8)
    | Group2(trace: bool)
    | Interrupt(level: Reg, vector: u8)

  /** `exception_cycles`. */
  function ExceptionCycles(vector: nat): nat {
    if vector < 2 then 40 else if vector < 4 then 50 else if vector == 5 then 38 else if vector == 6 then 40
    else if 24 <= vector <= 31 then 44 else 34
  }

  predicate Supervisor(sr: u16) {
    sr / 0x2000 % 2 == 1
  }

  /** T1, S, the mask and the condition codes: what the 68000 and 68010 keep. */
  function StatusFields(w: u16): u16 {
    0x8000 * (w / 0x8000) + 0x2000 * (w / 0x2000 % 2) + 0x100 * (w / 0x100 % 8) + w % 0x20
  }

  function WithCcr(sr: u16, w: u16): u16 {
    sr - sr % 0x100 + w % 0x20
  }

  function SupervisorStatus(sr: u16): u16 {
    0x2000 + 0x100 * (sr / 0x100 % 8) + sr % 0x20
  }

  function Interrupted(sr: u16, level: nat): u16
    requires level < 8
  {
    0x2000 + 0x100 * level + sr % 0x20
  }

  lemma SupervisorFields(sr: u16)
    ensures var w := SupervisorStatus(sr); StatusFields(w) == w && Supervisor(w)
  {
    FieldsOf(sr / 0x100 % 8, sr % 0x20);
  }

  lemma FieldsOf(ipl: nat, ccr: nat)
    requires ipl < 8 && ccr < 0x20
    ensures var w := 0x2000 + 0x100 * ipl + ccr;
            w / 0x8000 == 0 && w / 0x2000 == 1 && w / 0x100 % 8 == ipl && w % 0x20 == ccr
  {
    var w := 0x2000 + 0x100 * ipl + ccr;
    assert w / 0x100 == 0x20 + ipl;
    assert w == 0x20 * (0x100 + 8 * ipl) + ccr;
  }

  lemma Joined(a: u32, x: int, y: int)
    ensures Add32(Add32(a, x), y) == Add32(a, x + y)
  {
    WrapsAgain(a + x, y);
  }

  lemma ThreeSteps(sp: u32)
    ensures Add32(Add32(sp, 2), 4) == Add32(sp, 6) && Add32(Add32(sp, 6), 2) == Add32(sp, 8)
    ensures Add32(Add32(sp, 8), 50) == Add32(sp, 58)
  {
    hide Add32;
    Joined(sp, 2, 4);
    Joined(sp, 6, 2);
    Joined(sp, 8, 50);
  }

  function Access(size: Size): nat {
    if size == Long then 8 else 4
  }

  predicate EvenOperand(size: Size, a: u32) {
    size != Byte ==> a % 2 == 0
  }

  lemma EvenIncrement(size: Size, r: Reg, a: u32)
    requires EvenOperand(size, a)
    ensures EvenOperand(size, Add32(a, Increment(size, r))) && EvenOperand(size, Sub32(a, Increment(size, r)))
  {
  }

  lemma EvenHalves(a: u32)
    ensures a % 2 == 0 ==> Add32(a, 2) % 2 == 0 && Add32(a, 4) % 2 == 0 && Add32(a, 6) % 2 == 0
  {
  }

  lemma EvenVector(vector: nat, vbr: u32)
    requires vbr % 2 == 0 && vector < 0x100
    ensures Add32(4 * vector, vbr) % 2 == 0
  {
    var x := 4 * vector + vbr;
    assert x % 2 == 0;
    assert x % 0x1_0000_0000 == x || x % 0x1_0000_0000 == x - 0x1_0000_0000;
  }

  lemma TwoMore(a: u32, i: nat)
    ensures Add32(Add32(a, 2 * i), 2) == Add32(a, 2 * (i + 1))
  {
  }

  // ------------------------------------------------------------------- MOVEP

  /** The bytes MOVEP stores: the low `n` of the register, highest first. */
  function MovepBytes(v: u32, n: nat): (b: seq<u8>)
    requires n == 2 || n == 4
    ensures |b| == n
  {
    if n == 4 then Bytes32(v) else Bytes16(v % 0x1_0000)
  }

  /** Bytes stored at every other address from `a`. */
  function Scattered(mem: seq<u8>, a: u32, b: seq<u8>): (m: seq<u8>)
    requires Bus24.Holds(mem)
    ensures Bus24.Holds(m)
    decreases |b|
  {
    if b == [] then mem else Scattered(Write(Bus24, mem, a, [b[0]]), Add32(a, 2), b[1..])
  }

  /** Bytes read at every other address from `a`. */
  function Gathered(mem: seq<u8>, a: u32, n: nat): (b: seq<u8>)
    requires Bus24.Holds(mem)
    ensures |b| == n
    decreases n
  {
    if n == 0 then [] else [BusMemory.Read8(Bus24, mem, a)] + Gathered(mem, Add32(a, 2), n - 1)
  }

  lemma GatherStep(mem: seq<u8>, a: u32, n: nat, got: seq<u8>)
    requires Bus24.Holds(mem) && n > 0
    ensures (got + [BusMemory.Read8(Bus24, mem, a)]) + Gathered(mem, Add32(a, 2), n - 1) == got + Gathered(mem, a, n)
  {
  }

  function MovepMerged(was: u32, b: seq<u8>): u32
    requires |b| == 2 || |b| == 4
  {
    ValueLimits();
    if |b| == 4 then Value(b) else was - was % 0x1_0000 + Value(b)
  }

  lemma ValueLimits()
    ensures Limit(2) == 0x1_0000 && Limit(4) == 0x1_0000_0000
  {
    assert Limit(1) == 0x100 && Limit(2) == 0x100 * Limit(1) && Limit(3) == 0x100 * Limit(2) && Limit(4) == 0x100 * Limit(3);
  }

  /** The control addressing modes. */
  datatype Control =
    | OfAn(r: Reg) | OfAnDisp(r: Reg) | OfAnIndex(r: Reg) | OfAbsW | OfAbsL | OfPcDisp | OfPcIndex

  function ExtensionBytes(mode: Control): nat {
    match mode case OfAn(_) => 0 case OfAbsL => 4 case _ => 2
  }

  /** The address a control mode names; `pc` is that of its first extension word. */
  function ControlTarget(mode: Control, dar: seq<u32>, pc: u32, ext: u16, low: u16): u32
    requires |dar| == 16
  {
    match mode
    case OfAn(r) => dar[8 + r]
    case OfAnDisp(r) => Add32(dar[8 + r], Sext16(ext))
    case OfAnIndex(r) => BriefIndexed(dar, dar[8 + r], ext)
    case OfAbsW => Sext16(ext) % 0x1_0000_0000
    case OfAbsL => ext as int * 0x1_0000 + low
    case OfPcDisp => Add32(pc, Sext16(ext))
    case OfPcIndex => BriefIndexed(dar, pc, ext)
  }

  /** `jump_addr_calc_cycles`. */
  function JumpCycles(mode: Control): nat {
    match mode
    case OfAn(_) => 0
    case OfAnIndex(_) => 6
    case OfPcIndex => 6
    case OfAbsL => 4
    case _ => 2
  }

  /** Brief-format index address before the 68020. */
  function BriefIndexed(dar: seq<u32>, base: u32, ext: u16): u32
    requires |dar| == 16
  {
    var x := dar[ext / 0x1000];
    Add32(base, Sext8(ext % 0x100) + if ext / 0x800 % 2 == 1 then x else Sext16(x % 0x1_0000))
  }

  lemma BackOver(pc: u32)
    ensures Sub32(Add32(pc, 2), 4) == Sub32(pc, 2) && (pc % 2 == 0 ==> Sub32(pc, 2) % 2 == 0)
  {
  }

  lemma TwoSteps(pc: u32, d: int)
    ensures Add32(Add32(pc, 2), d) == Add32(pc, 2 + d)
    ensures Add32(Add32(pc, 4), d - 2) == Add32(pc, 2 + d)
    ensures Add32(Add32(pc, 2), 2) == Add32(pc, 4)
  {
  }

  /** The displacement of a branch: its low byte, or the word queued behind it. */
  function Displacement(displacement: u8, queue: seq<u16>): int
    requires |queue| == 2
  {
    if displacement == 0 then Sext16(queue[1]) else Sext8(displacement)
  }

  lemma NextWordAt(mem: seq<u8>, pc: u32, i: nat)
    requires Bus24.Holds(mem) && i <= 1
    ensures WordAt(mem, Add32(pc, 2 * i)) == WordAt(mem, pc + 2 * i)
  {
    WrappedWord(mem, pc + 2 * i, 0);
  }
}
