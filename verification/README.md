# m68k: verified models of the emulator's fast paths and protocols

The emulator runs the 68000 family, 68000 to 68060. Several of its parts exist
twice: once in a simple form and once in a fast or staged form that must mean
the same. This project models six of them, each from the code that implements
it, and proves the simple meaning.

* **Batch execution.** A window of RAM is read and written directly
  (`FastMem.dfy`). Operand updates are staged and committed only after every
  check has passed. The reference is the dispatcher's sequential interpreter
  (`MemOps.dfy` for memory operands, `SimpleOps.dfy` for register-only
  instructions), decoders included (`MemOpDecode.dfy`, `SimpleOps.dfy`).
  `BatchLoop.dfy` puts the memo table, the window fetch, both kinds of decoded
  operation and the fallback to dispatch together and proves that a whole batch
  is a run of dispatched instructions. `Movem.dfy`, `OperandMasking.dfy` and
  `MemOpLaws.dfy` hold the laws in between.
* **Exceptions.** `Exceptions.dfy` gives frames, entry and RTE for all models
  as functions; `ExceptionUnit.dfy` proves the word-by-word pushes and the RTE
  loop, with their banked stack pointers, against it. `ExceptionReturn.dfy`
  proves that RTE inverts entry, including the two protocols by which a handler
  completes a faulted access. `ExceptionNesting.dfy` proves last-in-first-out
  for any nesting.
* **Faults under an active MMU.** `PagedAccess.dfy` is data access across page
  boundaries, with one-shots and host refusals. `PagedEntry.dfy` is entry to the
  access-error handler through the mapping, double faults included.
  `FaultedInstruction.dfy` is the rollback and resume of an instruction that
  faults part-way, with the one-shots a handler can arm; `FaultedReturn.dfy` and
  `FaultedReturnCases.dfy` are RTE when its own reads are refused,
  `FaultedInterrupt.dfy` and `FaultedInterruptCases.dfy` interrupt entry when
  its accesses are, and `FaultedBatch.dfy` is what the batch makes of a fault.
  `FaultedReturnExamples.dfy` and `FaultedInterruptExamples.dfy` hold concrete
  machine states.
* **Bus time on the 68000 and 68010.** `Prefetch.dfy` is the two-word queue,
  `BusTime.dfy` the clock accounting of whole instructions, `LoopMode.dfy` the
  68010's loop mode.
* **68060 timing.** `Timing060.dfy`, `BranchCache060.dfy` and `Pairing060.dfy`:
  opcode classes, the branch cache, superscalar pairing and what they cost over
  whole runs.
* **The cycle budget.** `CycleRunner.dfy` and `CycleLaws.dfy` are
  `run_for_cycles` and its hook-enabled variants.

`Words.dfy` and `BusMemory.dfy` hold machine words and byte memory with
wrap-around.

Where the source updates fields in place, the model is a class whose methods do
the same, and each method's contract equates the new state with a specification
function; the laws are lemmas about those functions. Where the source computes
a value, the model is a function.

Seven places where the code does not do what one would expect of it, with the
exact condition:

* `DecodedSimpleOp::decode` accepts encodings no 68k has. `SimpleOps.Lax` names
  them all; `BatchLoop.LaxOpcodesAreTrapped` shows that a batch runs on where
  the dispatcher traps.
* 68010 loop mode never re-reads the displacement word, so a body that stores
  into it (not only into the held pair) loops where the ordinary DBcc would go
  elsewhere. `LoopMode.StoringOntoTheDisplacement` is such a loop,
  `LoopMode.DisplacementMatters` the exact condition.
* On the 68010 some charges are not the clocks billed to the bus: JMP and JSR in
  any mode dearer than (An), CMPM, long ADDX and SUBX on memory, RTE from the
  long frame, and everything in loop mode. `BusTime.Core.StepJmp`, `StepJsr`,
  `StepCmpm`, `StepExtended`, `StepRte` and `StepDbcc` state each as an
  equivalence; on the 68000 all of them conserve.
* An RTE that faults in its own frames can leave another stack pointer moved,
  because registers are captured at the fault and the inactive stack banks are
  not. It happens when the fault comes after two throwaway frames of which the
  second was on another stack (`FaultedReturnCases.FaultBehindTwoFrames`; a
  machine state is `FaultedReturnExamples.TwoFramesMoveMsp`), and when the format
  word of a throwaway frame is readable and its SR word is not
  (`RefusedSrMovesUsp`). In that second case the core stops, rather than reach
  a handler, if it is the mapping that refuses the SR word, because the frame of
  the fault goes to the same page (`UnmappedSrHalts`); USP is moved only under a
  host that refuses less than a page (`SilentSrMovesUsp`). One throwaway frame
  and a fault at the next format word do no harm (`FaultBehindOneFrame`).
  `FaultedReturn.FaultedReturnKeepsStacksIff` is the exact condition on the
  chain of frames and the mapping, for every RTE whose handler is reached, and
  `FaultedReturnStops` says which are not. An RTE over an untouched long frame
  arms a suppressed write at address 0 exactly when the SSW is unreadable:
  `UntouchedFrameArmsIff`, with the state `UnreadableSswArms`.
* The rollback of a fault does not bring back a one-shot that the instruction
  has used up: `FaultedInstruction.OneShotsAtHandler` says which survive, and
  `AbsorbedWriteFaultsAgain` shows what a restarted MOVEM meets.
* An interrupt entry that is refused rolls back to the start of the instruction
  that has just retired, because that is the snapshot there is:
  `FaultedInterruptCases.RetiredInstructionRunsAgain`, exactly when
  `FaultedInterrupt.RefusedIff` says so. The entry ends by clearing a stop, so a
  double fault in it does not halt the core (`DoubleFaultRunsOn`,
  `UnmappedStackRunsOn`), and an interrupt starts a halted one again
  (`InterruptRevivesHaltedCore`), where cpu.rs:1370-1373 has it dead until
  reset. `FaultedInterruptExamples` has a state for each of the first two.
* `run_batch` returns to the normal run mode after a fault without putting back
  the handler's PC, SR and registers, where its comment (execute.rs:774-776)
  claims to mirror `execute`, which does (execute.rs:178-180). A faulting JSR
  goes on in its subroutine, a faulting RTS at address 0
  (`FaultedBatch.JsrGoesOnInBatch`, `RtsGoesOnInBatch`);
  `BatchEndsLikeStepIff` is the exact condition.

The hook-enabled cycle runners also differ from the plain one in two
situations, which `CycleLaws.Diverges` names.

To check the project: `dafny verify dfyconfig.toml`.

## Model

| member | source | states |
|---|---|---|
| `Timing060.ClassifyShape` | src/core/timing_060.rs:256-474 | for all 65536 opcodes: exactly group 6 (Bcc, BRA, BSR) and DBcc carry the branch flag, and every other opcode is priced at one clock or more |
| `BranchCache060.BranchCache.ClearAll` | src/core/timing_060.rs:142-144 | the packed tag and state arrays become the empty cache |
| `BranchCache060.BranchCache.ClearUser` | src/core/timing_060.rs:147-153 | exactly the entries allocated in user mode disappear; supervisor entries keep tag and counter |
| `BranchCache060.BranchCache.Lookup` | src/core/timing_060.rs:157-164 | a prediction exactly for the PC whose full tag is held, taken exactly from counter 2 on; None on every alias and every empty slot |
| `BranchCache060.BranchCache.Record` | src/core/timing_060.rs:168-184 | a hit steps a saturating two-bit counter in place, a taken miss allocates weakly taken, a not-taken miss changes nothing; no other slot moves |
| `BranchCache060.HitReportsSaturatingCount` | src/core/timing_060.rs:157-184 | after any history, a hit has a latest allocation that nothing has evicted, and its counter is the saturating count of that PC's own outcomes since then |
| `BranchCache060.AllocationHits` | src/core/timing_060.rs:137-184 | the converse: an allocation not evicted since is a hit, with its user bit |
| `BranchCache060.MispredictsPerRun` | src/core/timing_060.rs:157-184 | from any table and mid-run state, mispredictions are at most two per maximal same-direction run plus the debt of the counter at the start |
| `BranchCache060.AtMostTwoMispredictsPerRun` | src/core/timing_060.rs:157-184 | a branch no alias disturbs mispredicts at most twice per maximal run of equal outcomes, over any history |
| `BranchCache060.AliasedBranchesKeepMispredicting` | src/core/timing_060.rs:137-184 | the bound needs the absence of aliasing: two branches 512 bytes apart mispredict three times in one run |
| `Pairing060.Cpu060.BranchCost060` | src/core/timing_060.rs:718-743 | static, folded, correct and mispredicted branch costs and the cache update behind each, as one function of the table before |
| `Pairing060.Cpu060.SoepDispatchTest` | src/core/timing_060.rs:665-705 | true exactly when PCR.ESS is set and the head leaves a slot the instruction may use under MC68060UM Table 10-1 |
| `Pairing060.Cpu060.Cycles060` | src/core/timing_060.rs:598-658 | cost, pairing window and branch cache after a retired instruction equal the specification step, in place |
| `Pairing060.Cpu060.DispatchOrLead` | src/core/timing_060.rs:632-658 | either the instruction rides the open slot one clock cheaper and closes it, or it pays in full and becomes the head its class allows |
| `Pairing060.Cpu060.WriteCacr` | src/core/cpu.rs:1198-1231 | the clear strobes act at once and never read back, switching the branch cache off empties it, and only stored bits are stored |
| `Pairing060.StepPaysForRetirement` | src/core/timing_060.rs:598-743 | each step pays half a clock per retired instruction, the other half at most lent by an open window |
| `Pairing060.AtMostTwoPerClock` | src/core/timing_060.rs:602-743 | over any stream of retirements, pipeline breaks and branch-cache clears, twice the cycles plus one for a window open at the start is at least the number retired |
| `Pairing060.StepKeepsTheLead` | src/core/timing_060.rs:598-743 | running the same step with and without superscalar dispatch, the paired run never falls further behind than a window it has already spent |
| `Pairing060.LeadOverRuns` | src/core/timing_060.rs:598-743 | the same over whole runs from any two states that share a branch cache |
| `Pairing060.SuperscalarNeverSlower` | src/core/timing_060.rs:598-743 | for every stream and every schedule of PCR.ESS, having it set at more points never costs more cycles in total |
| `Pairing060.PairingCanCostABranchItsFold` | src/core/timing_060.rs:598-743 | the comparison holds for totals only: a concrete stream where pairing makes one branch dearer by itself |
| `BusMemory.BlockReadsBack` | src/core/memory.rs:422-446 | a block written at any address, wrapping at the top of the bus, reads back as itself |
| `BusMemory.PushExtends` | src/core/execute.rs:1106-1133 | two stores at descending addresses are one store of the joined block |
| `Exceptions.SrRoundTrip` | src/core/cpu.rs:2297-2339 | what a model stacks as SR and reloads comes back flag by flag, for every SR that model can hold |
| `ExceptionReturn.EntryStacks` | src/core/exceptions.rs:371-660 | where entry leaves each of USP, ISP and MSP, for every model, cause and (S,M), including the frame pair on MSP and ISP |
| `ExceptionReturn.EntryMemory` | src/core/exceptions.rs:371-660 | entry changes memory by exactly its one or two frames |
| `ExceptionReturn.FirstFrameReadsBack` | src/core/decode.rs:1196-1374 | RTE finds SR, PC and format of any frame entry pushed at the slots it reads |
| `ExceptionReturn.IntactFaultFrame` | src/core/exceptions.rs:421-596 | an unmodified format $7 or $B frame reads back as the report of its fault |
| `ExceptionReturn.Reported7ArmsNothing` | src/core/decode.rs:1280-1315 | an unmodified format $7 frame arms no suppressed write |
| `ExceptionReturn.ReportedBArmsNothing` | src/core/decode.rs:1316-1364 | an unmodified format $B frame arms neither a read value nor a suppressed write |
| `ExceptionReturn.UnwindsFirstFrame` | src/core/decode.rs:1207-1364 | one turn of RTE over an intact frame of any format restores SR and PC and releases exactly that frame |
| `ExceptionReturn.UnwindsThrowaway` | src/core/decode.rs:1254-1261 | one turn of RTE over a throwaway frame changes SR and the interrupt stack, not the PC, and goes round again |
| `ExceptionReturn.EntryThenRte` | src/core/decode.rs:1196-1374 | any exception on any model, whatever the handler did in between: frames intact and stacks back, RTE restores SR, PC and all of USP, ISP and MSP, writes nothing and arms nothing |
| `ExceptionReturn.ClearingDfCompletesTheDataCycle` | src/core/decode.rs:1316-1364 | a handler that clears DF in a format $B frame arms exactly the faulted data cycle: the supplied value for a read, a suppressed write for a write, nothing for an instruction fetch |
| `ExceptionReturn.ClearingVAbsorbsTheWrite` | src/core/decode.rs:1280-1315 | clearing WB3S.V in a format $7 frame suppresses the store exactly when the frame reports a write that failed in translation |
| `ExceptionNesting.EntryTouchesOnlyItsFrames` | src/core/exceptions.rs:371-660 | no byte outside the frames of an exception changes on entry |
| `ExceptionNesting.HandlerReturns` | src/core/decode.rs:1196-1374 | a handler that keeps the state it was entered with returns to the interrupted context |
| `ExceptionNesting.ActionKeeps` | src/core/execute.rs:1215-1300 | each action of a safe program keeps the stacks, S and M, the one-shots and every live frame |
| `ExceptionNesting.NestingKeeps` | src/core/execute.rs:1215-1300 | any program of nested exceptions that leaves live frames alone ends with all stack pointers, S, M, one-shots and live frames as they were, and none of its RTEs fails |
| `ExceptionNesting.ExceptionsAreLastInFirstOut` | src/core/execute.rs:1215-1300 | an exception whose handler nests further exceptions to any depth, on any mix of stacks, ends at the PC it stacked with the SR and three stack pointers it interrupted |
| `ExceptionUnit.PushTwice` | src/core/execute.rs:1106-1118 | two pushes are one push of the lower block followed by the upper, wrap included |
| `ExceptionUnit.FrameInBusOrder` | src/core/exceptions.rs:176-192 | the 68000's write order (PC low, SR, PC high) leaves the same frame as ascending order |
| `ExceptionUnit.BusOrderFrame` | src/core/execute.rs:1229-1273 | the interrupt microcode's write order leaves the ordinary three- or four-word frame |
| `ExceptionUnit.HolePushed` | src/core/exceptions.rs:165-174 | words a long frame skips keep what memory held there |
| `ExceptionUnit.Cpu.BackupSp` | src/core/cpu.rs:700-704 | the active bank, chosen by S and M, holds A7; the architectural state does not change |
| `ExceptionUnit.Cpu.SetSFlag` | src/core/cpu.rs:713-719 | changing S swaps the stack in A7 and nothing else: all three stack pointers keep their values |
| `ExceptionUnit.Cpu.SetSmFlag` | src/core/cpu.rs:721-727 | the same for S and M together, over three banks |
| `ExceptionUnit.Cpu.SetSr` | src/core/cpu.rs:2313-2326 | the whole SR as the model stores it, with the stacks swapped behind it |
| `ExceptionUnit.Cpu.Push16` | src/core/execute.rs:1106-1111 | a word pushed in place is a block pushed on the active stack |
| `ExceptionUnit.Cpu.Push32` | src/core/execute.rs:1113-1118 | a long likewise |
| `ExceptionUnit.Cpu.Pull16` | src/core/execute.rs:1120-1126 | the word at A7, and A7 raised |
| `ExceptionUnit.Cpu.Pull32` | src/core/execute.rs:1128-1134 | the long at A7, and A7 raised |
| `ExceptionUnit.Cpu.JumpVector` | src/core/execute.rs:1143-1162 | the PC read through the vector base |
| `ExceptionUnit.Cpu.TakeException` | src/core/exceptions.rs:608-660 | the word-by-word frame equals entry as specified; a second exception in the middle of one stops the processor and changes nothing |
| `ExceptionUnit.Cpu.TakeGroup2Exception` | src/core/exceptions.rs:205-236 | the same for the format $2 frame of the 68020 and later |
| `ExceptionUnit.Cpu.ServiceInterrupt` | src/core/execute.rs:1215-1300 | interrupt entry as specified on every model, out of stop, with the second frame out of master state |
| `ExceptionUnit.Cpu.LeaveMasterState` | src/core/execute.rs:1275-1293 | the throwaway frame on the interrupt stack of the 68020-68040; the 68060 only drops M |
| `ExceptionUnit.Cpu.ExceptionBusError` | src/core/exceptions.rs:371-598 | formats $8, $7, $B and $4, pushed word by word, equal the specified frame of the fault |
| `ExceptionUnit.Cpu.PushFormat7` | src/core/exceptions.rs:462-523 | the 30-word frame with SSW, WB3S and the writeback address and data at their offsets |
| `ExceptionUnit.Cpu.PushFormatB` | src/core/exceptions.rs:524-596 | the 46-word frame with SSW, fault address, output buffer and stage B address at their offsets |
| `ExceptionUnit.Cpu.PushFormat8` | src/core/exceptions.rs:431-447 | the 29-word frame whose unwritten words keep what memory held |
| `ExceptionUnit.Cpu.ArmWriteback` | src/core/decode.rs:1280-1315 | reads the frame in place and arms exactly what the format $7 protocol says |
| `ExceptionUnit.Cpu.ArmDataCycle` | src/core/decode.rs:1316-1364 | the same for format $B |
| `ExceptionUnit.Cpu.UnwindFrame` | src/core/decode.rs:1241-1374 | one turn of the RTE loop in place equals one specified turn; a bad format takes the format error exception |
| `ExceptionUnit.Cpu.ReturnFromException` | src/core/decode.rs:1196-1374 | the whole RTE loop equals the specified return, privilege violation included |
| `FaultedInstruction.Cpu.SetSr` | src/core/cpu.rs:2313-2326 | an SR load with bank swaps on the raw register file |
| `FaultedInstruction.Cpu.ReadCycle` | src/core/cpu.rs:1528-1572 | a read cycle at the overridden address returns the low bytes of the override, uses it up and is not attempted; another returns what memory holds there or dispatches the fault; after a fault it returns zero and does nothing |
| `FaultedInstruction.Cpu.WriteCycle` | src/core/cpu.rs:1775-1814 | a write cycle at the suppressed address is dropped and uses the suppression up; any other stores or faults; after a fault nothing happens |
| `FaultedInstruction.Cpu.PushFrame` | src/core/exceptions.rs:455-596 | the pushes of an access-error frame in place, each split and translated like any other write; behind a refused one the rest only lower A7, and the core is stopped in the fault mode |
| `FaultedInstruction.Cpu.ExceptionBusError` | src/core/exceptions.rs:371-598 | that frame and the vector read, through the supervisor mapping, equal the specified entry; a refusal of either is a double fault |
| `FaultedInstruction.Cpu.TriggerBusError` | src/core/cpu.rs:1446-1476 | registers and SR rolled back, the handler entered, its start captured; a fault in an entry stops the core |
| `FaultedInstruction.Cpu.EndFaultedInstruction` | src/core/cpu.rs:1362-1377 | the captured PC, SR and registers put back; the fault mode kept only for a stopped core |
| `FaultedInstruction.NoAfterlife` | src/core/cpu.rs:1362-1377 | after a dispatched fault, any sequence of further register, SR, PC and memory operations ends at exactly the captured PC, SR and registers, with RAM as the dispatch left it |
| `FaultedInstruction.OtherStacksKeptIff` | src/core/cpu.rs:1362-1377 | the inactive stack banks are not captured: they survive every tail with given SR loads exactly when no load but the last selects a stack other than the handler's |
| `FaultedInstruction.OneShotsAfter` | src/core/cpu.rs:1528-1992 | a run of cycles without a fault uses an armed one-shot up exactly when one of them is at the armed address |
| `FaultedInstruction.FirstMatchingStoreIsDropped` | src/core/cpu.rs:1775-1992 | in any restarted instruction the first store at the suppressed address, and no other, is dropped: the rest runs as if it were not there and nothing were armed |
| `FaultedInstruction.FirstMatchingLoadIsSupplied` | src/core/cpu.rs:1528-1773 | the first load at the overridden address, and no other, takes no bus cycle, returns the override's low bytes and uses it up, refused or not |
| `FaultedInstruction.FaultRestartsInstruction` | src/core/execute.rs:885-904 | a fault anywhere in an instruction enters the exception from the SR and registers of the instruction's own start, over the memory, one-shots and other stacks its code has left, whatever its remaining code does; the core stops exactly when an access of that entry is refused |
| `FaultedInstruction.RestartStacks` | src/core/cpu.rs:1466-1468 | those other stacks are the start's own if no SR load but the last has left the instruction's stack |
| `FaultedInstruction.OneShotsAtHandler` | src/core/cpu.rs:1446-1476 | the rollback does not restore one-shots: each is still armed in the handler exactly when no cycle before the fault and no cycle of the entry was at its address |
| `FaultedInstruction.AbsorbedWriteFaultsAgain` | src/core/cpu.rs:1775-1814 | so a write that a handler absorbed, dropped before a later fault of the same instruction, faults again on the next restart |
| `PagedEntry.EntryAccesses` | src/core/cpu.rs:1457-1465 | an entry under an active MMU is refused exactly when one of its push or vector cycles is, an armed one-shot standing in for the first cycle at its address; granted, it uses up exactly the one-shots it meets |
| `PagedEntry.EntryStackPointers` | src/core/exceptions.rs:371-598 | whatever its accesses meet, entry leaves the mode and the three stack pointers of the plain entry |
| `PagedEntry.StraightEntry` | src/core/exceptions.rs:371-598 | the pushes of any model, split at page edges wherever they fall, and the vector read are the plain entry where the mapping is the identity and no one-shot is met |
| `PagedEntry.RefusedPageRefusesEntry` | src/core/cpu.rs:1457-1465 | with the byte under the supervisor stack pointer on a page that takes no writes, no access-error frame can be pushed |
| `FaultedReturn.ReadCycles` | src/core/cpu.rs:1574-1713 | a data read of RTE through the mapping of its mode: one-shot, refusal, dispatch of the fault and the value returned, zero once faulted |
| `FaultedReturn.Pull16` | src/core/execute.rs:1120-1126 | A7 moves by two whether or not the read was granted |
| `FaultedReturn.Pull32` | src/core/execute.rs:1128-1134 | A7 moves by four likewise |
| `FaultedReturn.HonourWriteback` | src/core/decode.rs:1280-1315 | the format $7 protocol with the words as they were read, refused ones included |
| `FaultedReturn.HonourDataCycle` | src/core/decode.rs:1316-1364 | the format $B protocol likewise |
| `FaultedReturn.ReturnFromException` | src/core/decode.rs:1240-1374 | the RTE loop of the 68020 and later in place, read by read, equals its specification under any mapping |
| `FaultedReturn.ThrowawayTurn` | src/core/decode.rs:1242-1261 | what a turn does with the frame as the mapping shows it: throwaway exactly when the format word reads as 1, faulted exactly when one of its two words is refused, and the stack its SR word selects |
| `FaultedReturn.FaultedReturnStops` | src/core/cpu.rs:1457-1465 | whether a faulted RTE reaches its handler: it does when the entry's own accesses are granted; when one is refused that no one-shot stands in for, the core has stopped and stays so |
| `FaultedReturn.FaultedReturnStacks` | src/core/decode.rs:1240-1374 | with the handler reached, the exact value of every stack pointer: the handler's own as after any data fault, every other eight higher for each throwaway frame taken from it |
| `FaultedReturn.PlainFault` | src/core/cpu.rs:1446-1476 | where a data fault of the RTE that crosses no frame leaves mode and stacks: what entry from its start does |
| `FaultedReturn.FaultedReturnKeepsStacksIff` | src/core/decode.rs:1240-1374 | with the handler reached, the stacks are those exactly when no stack but the handler's loses a throwaway frame |
| `FaultedReturn.LosesSome` | src/core/decode.rs:1240-1374 | and below 2^29 frames in a row, losing is having at least one taken |
| `FaultedReturnCases.FaultBehindOneFrame` | src/core/decode.rs:1240-1374 | no throwaway frame or one crossed, then a fault in a frame that ends the loop, or at its format word: harmless |
| `FaultedReturnCases.FaultBehindTwoFrames` | src/core/decode.rs:1240-1374 | two crossed, the second on another stack, then a fault: that stack ends eight higher |
| `FaultedReturnCases.RefusedSrMovesUsp` | src/core/decode.rs:1254-1261 | a throwaway frame whose format word is readable and whose SR word is refused: the core stops exactly when the handler's entry is refused, and otherwise USP ends eight higher |
| `FaultedReturnCases.UnmappedSrHalts` | src/core/cpu.rs:1457-1465 | if the mapping refuses the SR word to reads and writes, the frame of the fault goes to that same page: the entry is refused and the core stops |
| `FaultedReturnCases.UntouchedFrameArmsIff` | src/core/decode.rs:1316-1364 | over a format $B frame that asks for nothing (DF set), whatever else of it is refused, RTE arms a suppressed write exactly when the SSW is refused: the next one at address 0 |
| `FaultedReturnExamples.SilentSrMovesUsp` | src/core/decode.rs:1254-1261 | a 68030 whose host does not answer at the SR word of a throwaway frame: the handler runs and finds USP, which was 0, at 8 |
| `FaultedReturnExamples.UnmappedSrStops` | src/core/cpu.rs:1457-1465 | the same frame with its SR word on an unmapped page: the core stops |
| `FaultedReturnExamples.TwoFramesMoveMsp` | src/core/decode.rs:1240-1374 | two throwaway frames and a third frame on an unmapped user page: the handler runs and finds MSP, which was $4000, at $4008 |
| `FaultedReturnExamples.UnreadableSswArms` | src/core/decode.rs:1316-1364 | a long frame at $1FF6 with page $2000 unmapped: the handler runs and the next write at address 0 is suppressed |
| `FaultedInterrupt.PushInterruptFrames` | src/core/execute.rs:1262-1293 | the one or two frames of an interrupt in place, any of whose pushes may be refused and dispatch a fault, equal their specification |
| `FaultedInterrupt.ServiceInterrupt` | src/core/execute.rs:1215-1300 | the whole entry likewise, its vector read included |
| `FaultedInterrupt.RefusedIff` | src/core/execute.rs:1262-1296 | the entry is refused exactly when one of its push or vector cycles is, the armed one-shots counted in |
| `FaultedInterrupt.RefusedInterruptRestarts` | src/core/cpu.rs:1466-1475 | the entry takes a fault exactly when it is refused; then the next step begins in the access-error handler with the frame, SR and registers of the start of the instruction that had already retired, over the memory that instruction and the granted pushes have written, and the core is not stopped |
| `FaultedInterrupt.PushesElsewhere` | src/core/cpu.rs:1775-1992 | a byte that no write cycle of the entry lands on is as the retired instruction has left it |
| `FaultedInterrupt.StopIsForgotten` | src/core/execute.rs:1298-1300 | a stopped core is served as a running one |
| `FaultedInterrupt.GrantedInterruptIsEntry` | src/core/execute.rs:1215-1300 | through a straight mapping, with nothing refused, it is the plain interrupt entry |
| `FaultedInterruptCases.ServedInterruptGoesOn` | src/core/execute.rs:1215-1300 | then any handler that leaves its frames alone returns behind the retired instruction |
| `FaultedInterruptCases.RetiredInstructionRunsAgain` | src/core/cpu.rs:1466-1475 | a refused entry, and a handler of the fault that leaves its frame alone: RTE returns to the instruction that had retired, which runs a second time on what it has stored |
| `FaultedInterruptCases.RunsAgainAtOnce` | src/core/cpu.rs:1466-1475 | in particular a handler that returns at once |
| `FaultedInterruptCases.DoubleFaultRunsOn` | src/core/execute.rs:1298-1300 | when a frame push of that fault is refused too, the core is not stopped: it goes on at address 0 |
| `FaultedInterruptCases.UnmappedStackRunsOn` | src/core/execute.rs:1298-1300 | so it does for every interrupt of user code while the interrupt stack's page takes no writes |
| `FaultedInterruptCases.InterruptRevivesHaltedCore` | src/core/execute.rs:112-113 | an interrupt of a core that a double fault has halted pushes nothing and sets it going again |
| `FaultedInterruptExamples.IncrementRunsTwice` | src/core/execute.rs:920-923 | a 68030 in the master state with the interrupt stack unmapped: an increment of the byte at $2000 has retired and left 1; RTE returns to it with the byte at 1 |
| `FaultedInterruptExamples.UserRunsOn` | src/core/execute.rs:1298-1300 | a user program with the interrupt stack unmapped: any interrupt leaves the core running at address 0 |
| `FaultedBatch.BatchEndsLikeStepIff` | src/core/execute.rs:774-784 | run_batch leaves a faulted instruction as a step does exactly when the rest of its code has ended with the handler's PC, SR and registers and the entry was not refused |
| `FaultedBatch.JsrGoesOnInBatch` | src/core/decode.rs:1771-1775 | a JSR whose push faults: stepped, its handler runs; in a batch the subroutine does, on the handler's stack |
| `FaultedBatch.RtsGoesOnInBatch` | src/core/decode.rs:1393-1399 | an RTS whose pull faults: in a batch the core goes on at address 0, four bytes into the frame |
| `FaultedBatch.HaltLooksLikeStop` | src/core/cpu.rs:1064-1073 | a double fault leaves a stepped core halted, and in a batch one that looks stopped |
| `PagedAccess.Cpu.Read8` | src/core/cpu.rs:1528-1572 | for every page size, mapping, host and address (32-bit wrap included) the 8-bit read is its bus cycles in order up to the first refusal, an overridden one supplied instead; with no override used up and no host refusal it is the big-endian value of the bytes each translated through its own page, or the fault is the first refused byte |
| `PagedAccess.Cpu.Read16` | src/core/cpu.rs:1574-1639 | for every page size, mapping, host and address (32-bit wrap included) the 16-bit read is its bus cycles in order up to the first refusal, an overridden one supplied instead; with no override used up and no host refusal it is the big-endian value of the bytes each translated through its own page, or the fault is the first refused byte |
| `PagedAccess.Cpu.Read24` | src/core/cpu.rs:1715-1773 | for every page size, mapping, host and address (32-bit wrap included) the 24-bit read is its bus cycles in order up to the first refusal, an overridden one supplied instead; with no override used up and no host refusal it is the big-endian value of the bytes each translated through its own page, or the fault is the first refused byte |
| `PagedAccess.Cpu.Read32` | src/core/cpu.rs:1641-1713 | for every page size, mapping, host and address (32-bit wrap included) the 32-bit read is its bus cycles in order up to the first refusal, an overridden one supplied instead; with no override used up and no host refusal it is the big-endian value of the bytes each translated through its own page, or the fault is the first refused byte |
| `PagedAccess.Cpu.Write8` | src/core/cpu.rs:1775-1814 | the 8-bit write is its bus cycles in order up to the first refusal, a suppressed one dropped; with no suppression used up and no host refusal it stores each byte through its own page, exactly up to the first refused one, whose address is the fault |
| `PagedAccess.Cpu.Write16` | src/core/cpu.rs:1816-1879 | the 16-bit write is its bus cycles in order up to the first refusal, a suppressed one dropped; with no suppression used up and no host refusal it stores each byte through its own page, exactly up to the first refused one, whose address is the fault |
| `PagedAccess.Cpu.Write24` | src/core/cpu.rs:1881-1933 | the 24-bit write is its bus cycles in order up to the first refusal, a suppressed one dropped; with no suppression used up and no host refusal it stores each byte through its own page, exactly up to the first refused one, whose address is the fault |
| `PagedAccess.Cpu.Write32` | src/core/cpu.rs:1935-1992 | the 32-bit write is its bus cycles in order up to the first refusal, a suppressed one dropped; with no suppression used up and no host refusal it stores each byte through its own page, exactly up to the first refused one, whose address is the fault |
| `PagedAccess.Cpu.ReadImm16` | src/core/ea.rs:291-335 | an extension word at the PC, by translation and host; an odd PC faults, the PC moves only on success, and no override is looked at |
| `PagedAccess.Cpu.ReadImm32` | src/core/ea.rs:352-410 | two extension words, each through its own page across a page boundary |
| `PagedAccess.OverrideTakenOnce` | src/core/cpu.rs:1535-1540 | the first cycle at the override's address takes the supplied value's low bytes if the cycles before it are granted; no other cycle, before or after, sees the override |
| `PagedAccess.SuppressionTakenOnce` | src/core/cpu.rs:1782-1787 | the first store at the suppressed address is dropped if the stores before it are granted; every other store happens |
| `PagedAccess.PlainRead` | src/core/cpu.rs:1528-1773 | cycles are bytes: however an access is split, the result is the byte-by-byte one |
| `PagedAccess.PlainWrite` | src/core/cpu.rs:1775-1992 | the same for stores, partial ones included |
| `PagedAccess.NextInPage` | src/core/cpu.rs:1511-1524 | consecutive addresses inside one page of any selectable size keep their page and differ in offset, at the 32-bit wrap too |
| `PagedAccess.GrantedJoins` | src/core/cpu.rs:1574-1992 | how far an access gets is how far its two parts get, in order, wherever it is split |
| `PagedAccess.ReadsJoin` | src/core/cpu.rs:1574-1773 | split reads join to the bytes of the whole |
| `PagedAccess.AfterWriteJoins` | src/core/cpu.rs:1816-1992 | split writes join to the bytes of the whole, the second part not attempted when the first faults |
| `MemOps.Bitwise` | src/core/instructions/logical.rs:55-66 | AND, OR and EOR of the low bits stay within them |
| `OperandMasking.BitwiseTruncates` | src/core/mem_ops.rs:1946-1985 | truncating the result of a bitwise operation is operating on fewer bits |
| `OperandMasking.BitwiseOfLowBits` | src/core/mem_ops.rs:1946-1985 | the low bits of a bitwise operation depend only on the operands' low bits |
| `OperandMasking.MaskedOperand` | src/core/mem_ops.rs:1615-1649 | masking Dn before the operation (the batch loop) or passing it whole (the dispatcher) gives the same register and flags, for every operation and size |
| `OperandMasking.MaskedSource` | src/core/mem_ops.rs:1626-1649 | the same for Dn as the source of a memory destination |
| `OperandMasking.MaskedQuick` | src/core/instructions/integer_arith.rs:90-131 | the same for ADDQ and SUBQ |
| `MemOpDecode.DecodersAgree` | src/core/mem_ops.rs:238-560 | every opcode the batch loop's decoder names is legal and dispatched to the same operation, size, operands and registers |
| `MemOpDecode.Group4Agrees` | src/core/mem_ops.rs:357-440 | the same for group 4, where the two decoders test in different orders |
| `MemOpLaws.StrictIsPlain` | src/core/mem_ops.rs:9-18 | an operation that succeeds inside the window does the same with the window forgotten, so it is what the dispatcher does |
| `MemOpLaws.WritesOneBlock` | src/core/mem_ops.rs:1493-1511 | every operation the batch loop takes changes one block of at most sixteen longs inside the window and no other byte |
| `MemOpLaws.Pushed` | src/core/mem_ops.rs:940-973 | a taken MOVEM.L -(An) lowers An by the list and leaves under it the listed registers in order |
| `MemOpLaws.Popped` | src/core/mem_ops.rs:976-1005 | a taken MOVEM.L (An)+ loads exactly the listed registers from the block and raises An past it |
| `MemOpLaws.PushThenPop` | src/core/mem_ops.rs:940-1005 | MOVEM.L push, anything that keeps An and the block, then pop of the same registers: every listed register and An are back, no other register, flag or byte changes |
| `Movem.DownIsBlock` | src/core/instructions/data_movement.rs:394-480 | the sixteen checked register-by-register stores leave the one block the fast path writes |
| `Movem.DownCovered` | src/core/mem_ops.rs:940-973 | a list of the fast store's shape runs register by register exactly when base and block pass the fast path's one test |
| `Movem.UpCovered` | src/core/mem_ops.rs:839-1005 | the same for the loads |
| `FastMem.OffFindsWindow` | src/core/mem_ops.rs:621-629 | the wrapped-offset test accepts exactly the accesses wholly inside the window |
| `FastMem.WindowBlock` | src/core/memory.rs:26-42 | a window slice and the bus access at the same address are the same bytes |
| `FastMem.Cpu.WinRead` | src/core/mem_ops.rs:632-642 | a window read is the bus read |
| `FastMem.Cpu.WinWrite` | src/core/mem_ops.rs:644-655 | a window write is the bus write |
| `FastMem.Cpu.StagedA` | src/core/mem_ops.rs:676-684 | an address register as the pending updates leave it, later ones shadowing earlier |
| `FastMem.Cpu.Commit` | src/core/mem_ops.rs:693-697 | all staged updates, in order, in place |
| `FastMem.Cpu.ReadExtWord` | src/core/mem_ops.rs:1335-1345 | the next extension word and cursor of the sequential interpreter, or refusal |
| `FastMem.Cpu.BriefIndex` | src/core/mem_ops.rs:1349-1376 | the indexed address with the index register seen through the pending updates; full-format words refused |
| `FastMem.Cpu.ResolveStaged` | src/core/mem_ops.rs:1380-1449 | staged resolution of any mode finds the operand sequential resolution finds and stands for the state it leaves, under any aliasing; or both refuse it |
| `FastMem.Cpu.ResolveStepping` | src/core/mem_ops.rs:1391-1412 | the same for (An)+ and -(An), the byte step of A7 included |
| `FastMem.Cpu.LoadStaged` | src/core/mem_ops.rs:1484-1490 | resolve-then-load on staged state is resolve-then-load in sequence |
| `FastMem.Cpu.StorePlace` | src/core/mem_ops.rs:1493-1511 | a store after the commit is the sequential store |
| `FastMem.Cpu.GenericMove` | src/core/mem_ops.rs:1586-1611 | MOVE and MOVEA: handled, with the sequential state, or refused with no register, flag, PC or byte changed, exactly as the strict sequential run succeeds or fails |
| `FastMem.Cpu.GenericAluToReg` | src/core/mem_ops.rs:1615-1625 | ALU to Dn: handled, with the sequential state, or refused with no register, flag, PC or byte changed, exactly as the strict sequential run succeeds or fails |
| `FastMem.Cpu.GenericAluToMem` | src/core/mem_ops.rs:1626-1649 | ALU to memory: handled, with the sequential state, or refused with no register, flag, PC or byte changed, exactly as the strict sequential run succeeds or fails |
| `FastMem.Cpu.GenericAluAddr` | src/core/mem_ops.rs:1650-1675 | ADDA, SUBA, CMPA: handled, with the sequential state, or refused with no register, flag, PC or byte changed, exactly as the strict sequential run succeeds or fails |
| `FastMem.Cpu.GenericAluImm` | src/core/mem_ops.rs:1676-1706 | immediate ALU: handled, with the sequential state, or refused with no register, flag, PC or byte changed, exactly as the strict sequential run succeeds or fails |
| `FastMem.Cpu.GenericAddqSubq` | src/core/mem_ops.rs:1707-1731 | ADDQ and SUBQ: handled, with the sequential state, or refused with no register, flag, PC or byte changed, exactly as the strict sequential run succeeds or fails |
| `FastMem.Cpu.GenericTst` | src/core/mem_ops.rs:1732-1741 | TST: handled, with the sequential state, or refused with no register, flag, PC or byte changed, exactly as the strict sequential run succeeds or fails |
| `FastMem.Cpu.GenericClr` | src/core/mem_ops.rs:1742-1754 | CLR: handled, with the sequential state, or refused with no register, flag, PC or byte changed, exactly as the strict sequential run succeeds or fails |
| `FastMem.Cpu.GenericNeg` | src/core/mem_ops.rs:1755-1766 | NEG: handled, with the sequential state, or refused with no register, flag, PC or byte changed, exactly as the strict sequential run succeeds or fails |
| `FastMem.Cpu.GenericNot` | src/core/mem_ops.rs:1767-1778 | NOT: handled, with the sequential state, or refused with no register, flag, PC or byte changed, exactly as the strict sequential run succeeds or fails |
| `FastMem.Cpu.GenericBitMem` | src/core/mem_ops.rs:1779-1803 | bit operations on memory: handled, with the sequential state, or refused with no register, flag, PC or byte changed, exactly as the strict sequential run succeeds or fails |
| `FastMem.Cpu.GenericCmpM` | src/core/mem_ops.rs:1804-1818 | CMPM: handled, with the sequential state, or refused with no register, flag, PC or byte changed, exactly as the strict sequential run succeeds or fails |
| `FastMem.Cpu.GenericLea` | src/core/mem_ops.rs:1819-1826 | LEA: handled, with the sequential state, or refused with no register, flag, PC or byte changed, exactly as the strict sequential run succeeds or fails |
| `FastMem.Cpu.GenericPea` | src/core/mem_ops.rs:1827-1842 | PEA: handled, with the sequential state, or refused with no register, flag, PC or byte changed, exactly as the strict sequential run succeeds or fails |
| `FastMem.Cpu.GenericJmp` | src/core/mem_ops.rs:1843-1852 | JMP: handled, with the sequential state, or refused with no register, flag, PC or byte changed, exactly as the strict sequential run succeeds or fails |
| `FastMem.Cpu.GenericJsr` | src/core/mem_ops.rs:1853-1870 | JSR: handled, with the sequential state, or refused with no register, flag, PC or byte changed, exactly as the strict sequential run succeeds or fails |
| `FastMem.Cpu.FastMove` | src/core/mem_ops.rs:726-834 | every operand pair the specialised MOVE claims gets the verdict and state of the sequential MOVE, source and destination sharing a register included |
| `FastMem.Cpu.FastAnDisp` | src/core/mem_ops.rs:1012-1238 | the same for all (d16,An) specialisations; anything else is handed on untouched |
| `FastMem.Cpu.FastDbcc` | src/core/mem_ops.rs:1250-1266 | DBcc: verdict and state of the dispatcher's arm, or nothing changed |
| `FastMem.Cpu.FastRts` | src/core/mem_ops.rs:1267-1280 | RTS: verdict and state of the dispatcher's arm, or nothing changed |
| `FastMem.Cpu.FastBsr` | src/core/mem_ops.rs:1281-1307 | BSR.B and BSR.W: verdict and state of the dispatcher's arm, or nothing changed |
| `FastMem.Cpu.FastBranchWord` | src/core/mem_ops.rs:1308-1322 | Bcc.W and BRA.W: verdict and state of the dispatcher's arm, or nothing changed |
| `FastMem.Cpu.FastLink` | src/core/mem_ops.rs:896-916 | LINK: frame, An and A7 of the sequential instruction, or nothing changed |
| `FastMem.Cpu.FastUnlk` | src/core/mem_ops.rs:919-935 | UNLK likewise |
| `FastMem.Cpu.FastBitImmDreg` | src/core/mem_ops.rs:875-893 | BTST, BCHG, BCLR and BSET #n,Dn likewise |
| `FastMem.Cpu.FastMovemLongPreDec` | src/core/mem_ops.rs:940-973 | one located block, written upwards, is the register-by-register store; taken exactly for the lists the sequential run completes |
| `FastMem.Cpu.FastMovemLongPostInc` | src/core/mem_ops.rs:976-1005 | the same for the loads |
| `FastMem.Cpu.FastMovemWordPostInc` | src/core/mem_ops.rs:839-872 | the same for the sign-extending word loads into data registers |
| `FastMem.Cpu.ExecuteMemOp` | src/core/mem_ops.rs:1520-1943 | for every operation, state and window: true exactly when the window is up and the sequential instruction stays inside it (and a MOVEM has the shape taken), with its whole state; false changes nothing |
| `FastMem.Cpu.ExecuteSimple` | src/core/op_cache.rs:461-781 | every register-only operation, with masked operands and updates in place, leaves the state of the dispatcher's general bodies; the PC moves only for a short branch |
| `FastMem.Cpu.SimpleBinary` | src/core/op_cache.rs:566-609 | ADD, SUB, AND, OR, EOR and CMP between registers with both operands masked first |
| `FastMem.Cpu.SimpleAddqSubq` | src/core/op_cache.rs:541-565 | ADDQ and SUBQ to Dn with the register masked first |
| `FastMem.Cpu.SimpleUnary` | src/core/op_cache.rs:493-528 | CLR, NEG, NEGX, NOT and TST of a data register |
| `FastMem.Cpu.SimpleMulWord` | src/core/op_cache.rs:610-640 | MULU and MULS set the flags the dispatcher writes out by hand |
| `FastMem.BinaryOnMasked` | src/core/instructions/logical.rs:55-66 | masking both operands first does not change what the general body leaves, EOR included |
| `SimpleOps.SimpleDecodersAgree` | src/core/op_cache.rs:197-323 | what the batch loop decodes as a register-only operation the dispatcher runs as that operation, except exactly the encodings no 68k has (MOVEQ with bit 8, byte forms and OR/AND from An), which it rejects |
| `SimpleOps.OneDispatcher` | src/core/decode.rs:74-142 | an opcode with both a register-only and a memory-operand reading means one instruction |
| `BatchLoop.FaithfulWorldsExist` | src/core/execute.rs:612-800 | the assumptions on the unmodelled dispatcher can be met together, by a world that does take a trace exception decided on the SR before the instruction |
| `BatchLoop.MemOpRetires` | src/core/op_cache.rs:1124-1135 | a memory operation the batch loop handles is one dispatched instruction |
| `BatchLoop.SimpleOpRetires` | src/core/op_cache.rs:1110-1123 | a register-only operation it runs is one dispatched instruction |
| `BatchLoop.LaxOpcodesAreTrapped` | src/core/decode.rs:91-98 | on the excluded encodings the dispatcher traps where the batch loop would run on |
| `BatchLoop.Batch.CachedDecode` | src/core/op_cache.rs:1158-1186 | the memo table always holds nothing or the decoding of its index, and the answer is the decoding |
| `BatchLoop.Batch.ClearDecodedOpCache` | src/core/op_cache.rs:988-990 | dropping the memo changes no answer and no state |
| `BatchLoop.Batch.DecodedTurn` | src/core/op_cache.rs:1079-1141 | one turn of the decoded loop is one dispatched instruction, or a fetched miss, or the fault of an odd PC; stop, interrupt and trace state never change |
| `BatchLoop.Batch.RunDecodedSimpleBatch` | src/core/op_cache.rs:1017-1154 | any number of turns equals that many dispatched instructions, up to budget, watched PC, fault or miss, with the run mode the loop skips checking untouched |
| `BatchLoop.Batch.RunToDispatch` | src/core/execute.rs:642-712 | the decoded loop where the core is quiet, a plain fetch where it is not |
| `BatchLoop.Batch.DispatchOne` | src/core/execute.rs:713-812 | a missed opcode dispatched, with the trace and interrupt work behind it, which is given the trace bits from before it, is one reference step |
| `BatchLoop.Batch.RunBatch` | src/core/execute.rs:612-812 | the whole batch equals k dispatched instructions in registers, flags, PC, RAM, PPC, IR, stop, trace and interrupt state, with the exact retirement count at every exit |
| `BatchLoop.StepsAdd` | src/core/execute.rs:612-812 | runs of the reference compose, retirement counts added |
| `Prefetch.QueueStaysCoherent` | src/core/cpu.rs:891-1020 | over any fault-free run with no store to a queued address, every queue word is the memory word at PC+2i, at most two are held, and the consumed stream is direct reads at successive PCs |
| `Prefetch.FetchesBalance` | src/core/cpu.rs:932-1020 | between flow changes, fetches minus consumed words is the change in queue length |
| `Prefetch.StoreCoherent` | src/core/cpu.rs:869-889 | a byte stored outside the queued words leaves the queue coherent |
| `BusTime.Core.FlushSync` | src/core/cpu.rs:836-845 | pending internal clocks reach the bus and none is lost |
| `BusTime.Core.FullPrefetch` | src/core/cpu.rs:891-930 | eight clocks, two fetches, and a full queue at the target; an odd target is left to the address error |
| `BusTime.Core.TopUpPrefetch` | src/core/cpu.rs:955-971 | four clocks per missing word and a full queue, by the source's loop |
| `BusTime.Core.ReadImm16` | src/core/ea.rs:291-350 | the word consumed, the queue topped up or not, and the clocks of exactly those bus accesses |
| `BusTime.Core.ConsumeImm16NoPrefetch` | src/core/cpu.rs:1005-1020 | one word consumed without the prefetch behind it |
| `BusTime.Core.StepBcc` | src/core/decode.rs:2191-2253 | Bcc and BRA, byte and word, taken and not: PC, registers and memory stated, and the charged cycles equal bus time plus clocks sent to sync, with the queue full again |
| `BusTime.Core.StepBsr` | src/core/decode.rs:2226-2240 | BSR, its push before the refill: PC, registers and memory stated, and the charged cycles equal bus time plus clocks sent to sync, with the queue full again |
| `BusTime.Core.StepRts` | src/core/decode.rs:1393-1399 | RTS: PC, registers and memory stated, and the charged cycles equal bus time plus clocks sent to sync, with the queue full again |
| `BusTime.Core.OrdinaryDbcc` | src/core/decode.rs:2041-2103 | DBcc outside loop mode: condition true, taken and expired; registers, PC, entry to loop mode, and the charge equals the bus time |
| `BusTime.Core.LoopingDbcc` | src/core/decode.rs:2016-2040 | a DBcc in loop mode makes no fetch on a taken turn, and its charge never equals its bus time |
| `BusTime.Core.StepDbcc` | src/core/decode.rs:2016-2103 | DBcc conserves bus time exactly when the core is not in loop mode |
| `BusTime.Core.StepJmp` | src/core/decode.rs:1783-1808 | JMP in every control mode: target and full queue; conserved exactly unless it is a 68010 and the mode costs more than (An) |
| `BusTime.Core.StepJsr` | src/core/decode.rs:1749-1782 | JSR likewise, with its return address pushed |
| `BusTime.Core.StepRtr` | src/core/decode.rs:1415-1423 | RTR: only the CCR loaded, then the PC, A7 raised by six, cycles conserved |
| `BusTime.Core.StepRte` | src/core/decode.rs:1196-1239 | RTE of the 68000 and of the 68010's two formats: SR, PC, the frame released and the stacks swapped on return to user mode; conserved exactly unless it is the 68010's long frame |
| `BusTime.Core.StepMovep` | src/core/decode.rs:652-712 | MOVEP both ways and sizes: every other byte, most significant first, and cycles conserved |
| `BusTime.Core.StepCmpm` | src/core/decode.rs:2574-2605 | CMPM with aliased registers; conserved exactly on the 68000 |
| `BusTime.Core.StepExtended` | src/core/decode.rs:2425-2492 | ADDX/SUBX -(Ay),-(Ax): conserved exactly when it is neither the long form on a 68010, whose charge is 18 where the bus takes 30, nor run in loop mode |
| `BusTime.Core.StepException` | src/core/exceptions.rs:608-660 | the 34-clock exceptions of the 68000 cost exactly their bus time and refill the queue |
| `BusTime.Core.StepGroup2` | src/core/exceptions.rs:205-265 | TRAPs and trace likewise |
| `BusTime.Core.StepInterrupt` | src/core/execute.rs:1215-1310 | interrupt entry is 44 clocks on the 68000 and 46 on the 68010, all of it bus or sync time |
| `BusTime.Core.Execute` | src/core/decode.rs:1393-2880 | any modelled instruction or entry but the ones named above conserves bus time, and only a 68010 DBcc enters loop mode |
| `BusTime.Core.RunAll` | src/core/decode.rs:1393-2880 | over any run up to an odd PC or an instruction that is excluded, the cycles charged are the clocks the bus saw, with no clock pending and the queue full at each boundary |
| `LoopMode.Core.DbccLooping` | src/core/decode.rs:2016-2040 | the looping DBcc in place equals its specification: held words, no fetch on a taken turn |
| `LoopMode.Core.DbccOrdinary` | src/core/decode.rs:2041-2103 | the ordinary DBcc in place, with entry to loop mode on a -4 displacement to a loopable body |
| `LoopMode.TurnIsTransparent` | src/core/decode.rs:2016-2103 | one turn from the held pair is one turn of the ordinary DBcc, in registers, memory, PC and queue, without an instruction fetch |
| `LoopMode.DisplacementMatters` | src/core/decode.rs:2016-2082 | a taken turn leaves the state the ordinary DBcc would, in full, exactly when the body has left the held pair and the displacement word alone; its PC exactly when the displacement still reads -4 |
| `LoopMode.StoringOntoTheDisplacement` | src/core/decode.rs:1903-2082 | the failing input: MOVE.W D0,(A0) held with its DBF, A0 at the displacement word, keeps looping where the ordinary DBF would branch elsewhere |
| `LoopMode.LoopModeIsTransparent` | src/core/decode.rs:1903-2103 | any number of turns, until the loop is left and including leaving it |
| `LoopMode.EntryHoldsThePair` | src/core/decode.rs:2070-2082 | what entry holds is the pair in memory, so the law applies from there |
| `CycleRunner.Runner.CheckAndServiceInterrupts` | src/core/execute.rs:1185-1200 | serviced exactly for NMI or a level above the mask; entry cycles charged, level and stop cleared |
| `CycleRunner.Runner.Step` | src/core/execute.rs:846-927 | the interrupt check belongs to the step unless a fault or trace exception left first |
| `CycleRunner.Runner.ServiceInterruptBoundary` | src/core/execute.rs:332-357 | the hook sees an entry exactly when one is serviced and the mode asks for it |
| `CycleRunner.Runner.TakeTurn` | src/core/execute.rs:409-548 | one turn of the loop in every mode, the level put away and restored around a hooked step |
| `CycleRunner.Runner.RunForCycles` | src/core/execute.rs:360-552 | the returned cycles are the drained reset cycles plus every instruction and interrupt entry charged, the count is the instructions among them, and a non-positive budget does nothing |
| `CycleLaws.OnlyTheLastInstructionOvershoots` | src/core/execute.rs:409-507 | whatever the exit, the total before the last instruction was below the budget; a budget exit means it no longer is |
| `CycleLaws.LoopOvershoot` | src/core/execute.rs:409-548 | the same for the loop, and a surfaced trap is charged nothing |
| `CycleLaws.TurnsAgreeIff` | src/core/execute.rs:424-506 | with an inert hook, one turn of a hook runner is the plain turn exactly unless it leaves an interrupt serviceable and either the step skipped its own check or a boundary request outranks the hook runner's |
| `CycleLaws.InertHookIsInvisibleIff` | src/core/execute.rs:360-552 | the hook runners equal the plain runner for every number of turns exactly when no turn of the plain run diverges |
| `CycleLaws.UndisturbedBatchesAgree` | src/core/execute.rs:256-328 | no fault, trace or boundary request: the inert-hook batch has the result and state of the plain one, with an interrupt pending on entry too |
| `CycleLaws.RetiresAtMostTwicePerBudget` | src/core/execute.rs:409-507 | whenever each fetched instruction pays half a clock, a batch retires at most twice its budget |
| `CycleLaws.TwiceTheBudgetIsEnough` | src/core/execute.rs:409-507 | so the loop ends within twice its budget as long as no opcode fetch faults |
| `CycleLaws.Retires060AtMostTwicePerBudget` | src/core/timing_060.rs:598-743 | the 68060 does pay: for any program, interrupts, traces and branch-cache strobes a batch retires at most twice its budget |

## Left out

- ExceptionUnit.Cpu.ReturnFromException: follows at most `limit` throwaway frames in a row; a hand-built chain longer than that is not covered. Entry builds at most one.
- ExceptionUnit.Cpu.ExceptionBusError: pushes of a frame are plain here and are not refused (`FaultedInstruction.Cpu.ExceptionBusError` has them translated), and the 68000's seven-word group 0 frame is not modelled (its RTE reads only three words, so no return law holds for it).
- ExceptionNesting.ExceptionsAreLastInFirstOut: assumes frames that do not overlap live ones; a stack that wraps into another frame has no such law.
- ExceptionReturn.EntryThenRte: in this module and in `ExceptionNesting` and `ExceptionUnit` entry pushes and the vector read are plain; under an active MMU they are modelled in `PagedEntry`, and `PagedEntry.StraightEntry` says when the two agree.
- FaultedInstruction.FaultRestartsInstruction: the prefetch queue is not restored by the code and is not part of the captured state. Code that arms a one-shot itself is RTE, which `FaultedReturn` covers. The 68010's frame is pushed plainly, and a model without an MMU, or with it off, is a mapping of pages to themselves.
- FaultedInstruction.Cpu.TriggerBusError: the MMU configuration and illegal-operation exceptions, which enter their handlers without the rollback, are not modelled.
- FaultedReturn.ReturnFromException: follows at most `limit` throwaway frames; a bad format is left to `ExceptionUnit`, which takes the format error exception. It runs under an active MMU; the 68010's RTE is not included.
- FaultedInterrupt.ServiceInterrupt: the 68020 and later. The vector number and the data a refused write reports are parameters; the pending level, which the code clears even when the entry was refused, is in `CycleRunner`.
- FaultedBatch.BatchEndsLikeStepIff: the captured PC, SR and registers, which the batch leaves behind unused, are not followed further.
- PagedAccess.Cpu.Read32: the table walk is an arbitrary mapping of pages, one for each privilege mode, that an access does not change.
- FastMem.Cpu.ExecuteMemOp: `change_of_flow` is not compared, because the decoded loop does not reset it. Full-format extension words are refused by the fast path and left to the dispatcher unmodelled.
- FastMem.Cpu.FastMovemLongPostInc: the 68000 and 68010 make one extra discarded read behind a MOVEM load, which the fast path does not; the model compares state, not bus accesses.
- FastMem.Cpu.ExecuteSimple: cycle counts of the decoded operations are not modelled. ADDX/SUBX, BCD and shift bodies, and the flag setters, are arbitrary functions that both sides call (of `set_logic_flags` the long form is written out); the shift bodies are taken to return a result within the operation size.
- BatchLoop.Batch.RunBatch: stops after `faults` opcode-fetch faults, because a handler on an odd address faults for ever. The dispatcher beyond the modelled arms, trace and interrupt work, and the odd-PC exception are arbitrary functions under the assumptions of `BatchLoop.Faithful`. Opcode fetches at even addresses are taken not to fault. Compiled traces never run and are never recorded.
- BusTime.Core.StepException: states time, queue and PC; what the frame holds is stated in `ExceptionUnit`. The 68010's non-interrupt exceptions and the 50-clock exceptions follow no conservation law and are not included.
- BusTime.Core.StepExtended: the extended arithmetic itself is an arbitrary result.
- LoopMode.LoopModeIsTransparent: the body is an arbitrary function on registers, flags and memory that leaves PC and queue alone; its own bus order relative to the final prefetch is not modelled.
- Pairing060.Cpu060.Cycles060: the opcode class is computed by the classifier each time, not read from the packed 65536-entry table built from it.
- CycleRunner.Runner.RunForCycles: `turns` bounds the loop, because opcode fetches that fault for ever charge nothing; `CycleLaws.TwiceTheBudgetIsEnough` shows when it cannot show. An instruction is an arbitrary function of the state without the interrupt level; the boundary-hook runner's few register-only shortcuts are taken to be the dispatched instruction. Totals are unbounded integers where the code has `i32`.
- Recording and running compiled traces, and the portable trace executor.
- The MMU table walk, the FPU, divide, long multiply and bit-field instructions.
- STOP and LPSTOP timing, 68000 address-error return, and the cycle tables of the 68020, 68030 and 68040.
- HLE handlers, serialization, profiling, and the disassembler.
- The window's raw pointer: its validity is the bus's contract; the model has the bytes themselves.
