# Verified model of the SKIR runtime

SKIR runs synchronous-dataflow kernels that are joined by first-in-first-out streams. This project models its
most intricate parts in Dafny and proves what they are for. Nothing here executes the original program; the
proofs are about the model, which follows the C++ code branch by branch.

| part | modules |
|---|---|
| Deadlock detection (tags, the Block, Transmit and Detect rules) | `D4RTag`, `D4RProtocol`, `D4RInvariant`, `D4RSteps`, `D4RTheorems`, `D4RVerdicts`, `D4RRuns`, `D4RCallback` |
| The StreamIt front end's lowering of statements to basic blocks | `StreamIt`, `BlockGraph`, `Lowering`, `StrayJumps`, `LoweringProof`, `LoweringTheorems`, `LoweringBlocks`, `LoweringExamples`, `FEIRToSKIR` |
| Bounded ring streams, batch sizes, the unchecked skeletons | `RingArith`, `RingMachine`, `RingMemory`, `StreamOps`, `Batch`, `BatchRun`, `Skeleton`, `SkeletonRun` |
| Kernel fusion | `FusionRates`, `FusionStreams`, `FusionMeaning`, `FusedWork` |
| Kernel fission | `Fission`, `FissionTheorems`, `FissionRates`, `FissionWork` |
| The task scheduler | `TbbSched`, `TbbTheorems`, `TbbProgress` |
| Coroutine switching, topological sorting, draining a pipeline | `Koroutine`, `TopoSort`, `Draining` |

Concurrent parts (detection, rings, the skeleton among its peers, fission, the scheduler, draining) are state
machines whose steps may be interleaved in any order; their theorems hold for every run, and what they count and
keep is tied to the steps of the run. Parts that update objects
in one thread are classes and methods proved against functions on values: `D4RCallback`, `FEIRToSKIR`, `StreamOps`,
`Skeleton`, `FusionStreams`, `FusedWork`, `FissionRates`, `FissionWork`, `TopoSort`, and the ending of a kernel in
`Draining`.

## What the proofs found

These properties do not hold of the code as it stands. For each there is a theorem that says exactly when it does,
and an input for which it does not.

- **Lowering.** A loop clears the break target when it ends and leaves the continue target where its own body
  put it (tools/streamit/FEIRToSKIR.cpp:1421 and :1618). The emitted blocks are the right ones if and only if no
  break or continue comes after a nested loop in the same loop body (`FrontEndIsRestoredIff`). Otherwise a break
  branches to a null block and a continue to a block of the inner loop (`BreakAfterLoopCrashes`,
  `ContinueAfterLoopHangs`, `ContinueAfterForPushes`). Even then the blocks do what the program does on every input whose run executes no such
  jump (`FrontEndRunsRight`); where the first one executed is not a continue they do so if and only if there is none
  (`FrontEndRunIsRightIff`). The branch to the null block crashes here when it is run; in the source the branch
  instruction is built from a null block already while the program is compiled (tools/streamit/FEIRToSKIR.cpp:1321-1335),
  whether or not it would ever be executed.
- **Batch size.** `(space - peek_rate)` is unsigned (lib/runtime/inline_stream_ops.cpp:414). A batch is safe if
  and only if no input holds fewer items than its peek rate while its pop rate is above one (`BatchSafeIff`,
  `WrappedBatchIsUnsafe`). An empty stream whose reader pops two elements and peeks at one more is such an input
  (`EmptyInputIsUnsafe`). With a pop rate of one the wrapped value looks negative and the kernel just waits.
- **The skeleton for one input and one output** counts in units of four bytes whatever the element size is
  (lib/runtime/inline_stream_ops.cpp:609). Where the batch size does not wrap, it is safe in every state of its
  streams if and only if elements have four bytes (`Skeleton11SafeIff`): with smaller ones a full output looks empty
  (`SmallUnsafe`), with larger ones one item counts as several (`LargeUnsafe`).
- **True or artificial deadlock.** A kernel is taken to wait for room whenever it has a stream to the kernel that
  blocks it, even if it waits for that kernel's items (lib/SKIR/SKIRTbbSched.cpp:193-210). A report calls a deadlock
  what it is unless every kernel of the cycle waits for items and one of them has a stream to the kernel it waits for
  (`VerdictIsRightIff`). Every report of every run is right if and only if no kernel has a stream to a kernel that it
  reads from (`VerdictsAreRightIffOneWay`); two kernels that feed each other are misjudged (`FeedbackLoopIsMisjudged`).
- **Renumbering for fusion.** Stream numbers are looked up among the inputs first (lib/SKIR/SKIRFusion.cpp:251-261).
  Every push of the pair keeps its stream if and only if no stream is an input and an output of the fused kernel with
  different numbers (`RenumberedOpsKeepTheirStreamsIff`). If the second kernel writes back to the second input of the
  first, that push names no stream at all (`FeedbackLosesPush`).
- **Fused kernels that end.** The buffer of a fused kernel lives for one call, and what is left in it is lost. From
  the state before the call: nothing is lost if and only if no upstream firing of the round, not even the last, and no
  downstream firing but possibly the last returns something other than 0 (`FusedKernel.Work`, `RoundKeepsAll`). A batch
  loses nothing if and only if this holds of every round it starts (`FusedKernel.WorkBatch`, `BatchKeepsAll`). A first
  kernel that ends with its first firing loses the element it
  pushed for a second one that pops two (`EndLosesElement`).
- **Fission rates.** The outer streams are declared with `width` times a rate although the first replica may get a
  multiple (lib/SKIR/SKIRDPSched.cpp:113, :125, :152, :179). The splitter's declared rate is what it takes in a round
  if and only if the multiple is 1 or the rate 0, the joiner's also if there is one replica (`SplitterDeclaredRightIff`,
  `JoinerDeclaredRightIff`, `MultiplierIsNotDeclared`). The replicas' own streams are declared from the outer ones after
  these were multiplied (`ReplicaInputsDeclaredRightIff`, `ReplicaOutputsDeclaredRightIff`), but the analysis of the
  replicas declares them again before they are allocated (lib/SKIR/SKIRRuntimeGraph.cpp:204-205). What the splitter
  asks of its input before a round is enough for the round if and only if the multiple is at most 1, what the joiner
  asks of its output if and only if it is at least 1 or there is one replica (`SplitterAsksEnoughIff`,
  `JoinerAsksEnoughIff`). The theorems about what fission computes (`FissionTheorems`) are therefore for a multiple of 1,
  the one with which both are safe.
- **Topological order.** Looking up the source of an edge registers it (lib/SKIR/SKIRRuntimeGraph.cpp:575). A sort
  lists only kernels, and no null pointer, if and only if the map held none and no stream of a registered kernel leaves
  a kernel that is not in the map (`RuntimeGraph.TopoSort`); after the source of a stream is removed it is listed as a
  null pointer (`RemovedKernelIsListed`).

## Model

| member | source | states |
|---|---|---|
| D4RTag.TagOrder | deps/d4r/D4RTag.h:49-63 | `operator<` on tags is a strict total order that agrees with equality, ties in the label decided by the smaller priority |
| D4RTag.FreshIsLeast | deps/d4r/D4RTag.h:43-44 | the tag of a kernel that has not blocked is below every tag that a Block makes, and its priority above that of every queue with a size |
| D4RProtocol.Locate | lib/SKIR/SKIRTbbSched.cpp:191-210 | nothing is located if and only if the two kernels share no stream; a size other than -1 is the queue size of an output to the blocking kernel, and -1 comes with an input from it exactly when there is no such output |
| D4RProtocol.LocateFinds | lib/SKIR/SKIRTbbSched.cpp:193-209 | what is located is the first output to the blocking kernel with its own queue size, or without one the first input from it with -1 |
| D4RSteps.BlockRises | lib/SKIR/SKIRTbbSched.cpp:272-274 | a Block makes a label above both public labels it read, carrying the kernel's own key |
| D4RSteps.TransmitRaises | lib/SKIR/SKIRTbbSched.cpp:222-225 | a Transmit changes the public tag exactly when the blocker's is larger, and then strictly raises it |
| D4RSteps.GateIsOpen | lib/SKIR/SKIRTbbSched.cpp:212-262 | the changed-flag test never stops a Transmit in a reachable state, and passing it leaves both flags as they were |
| D4RSteps.PollMoves | lib/SKIR/SKIRTbbSched.cpp:183-284 | a poll is nothing, a Block that raises every flag of the kernel, or a Transmit that leaves the flags alone |
| D4RSteps.StepKeepsInv | lib/SKIR/SKIRTbbSched.cpp:183-284 | firings, ends, waits and polls in any order keep what the tags say about who waits for whom |
| D4RSteps.RunKeepsInv | lib/SKIR/SKIRTbbSched.cpp:183-284 | the same over every run |
| D4RTheorems.ReportsAreReal | lib/SKIR/SKIRTbbSched.cpp:235-247 | a kernel that reports lies on a real cycle of kernels all still blocked on each other, has the least priority on it, and calls the deadlock true exactly when all of them are blocked on reads; then it has the least key, and else the smallest queue among those that the kernels of the cycle write to the next one |
| D4RTheorems.LeastHasSmallestQueue | lib/SKIR/SKIRTbbSched.cpp:205-208 | the kernel with the least priority of a cycle writes to the next one over a queue no larger than any other such queue of the cycle, ties decided by the key |
| D4RTheorems.LeastDecides | lib/SKIR/SKIRTbbSched.cpp:245-247 | on a cycle the kernel with the least priority is blocked on a read if and only if every kernel is |
| D4RTheorems.Soundness | lib/SKIR/SKIRTbbSched.cpp:183-284 | the same in every state reachable from construction, whatever stale tags earlier blocks left |
| D4RRuns.CountsAreTheRuns | lib/SKIR/SKIR_kernel_t.h:85 | a kernel's firing count is the sum of the run's firings of it, and it has ended if and only if the run ends it |
| D4RRuns.WaitsUntilReleased | lib/SKIR/SKIRTbbSched.cpp:212-284 | a wait lasts, without a firing of the kernel, until its blocker fires or ends and releases it |
| D4RTheorems.VerdictIsRightIff | lib/SKIR/SKIRTbbSched.cpp:193-247 | a report says that a deadlock is true exactly when all its kernels wait for items, unless they do and one of them has a stream to the kernel it waits for |
| D4RTheorems.OneWayVerdictsAreRight | lib/SKIR/SKIRTbbSched.cpp:193-247 | on a graph where no kernel has a stream to one that it reads from, every report of every run says what the deadlock is |
| D4RVerdicts.VerdictsAreRightIffOneWay | lib/SKIR/SKIRTbbSched.cpp:193-247 | no run of a graph ends in a misjudged deadlock if and only if no kernel has a stream to one that it reads from |
| D4RVerdicts.TwoWayIsMisjudged | lib/SKIR/SKIRTbbSched.cpp:193-247 | two kernels with streams both ways that wait for each other's items, polled often enough, call that deadlock artificial |
| D4RVerdicts.FeedbackLoopIsMisjudged | lib/SKIR/SKIRTbbSched.cpp:193-247 | so does the graph of two kernels that feed each other |
| D4RTheorems.CycleStays | lib/SKIR/SKIRTbbSched.cpp:212-262 | no step breaks a deadlock cycle or changes a private tag on it; only a poll changes a public tag, and by the Transmit rule |
| D4RTheorems.DeadlockIsForever | lib/SKIR/SKIRTbbSched.cpp:183-284 | once there, a deadlock cycle is there after every run |
| D4RTheorems.PollOnCycle | lib/SKIR/SKIRTbbSched.cpp:235-247 | a kernel on a cycle reports exactly when its public tag equals its blocker's and carries its own priority |
| D4RTheorems.QuietTagsAgree | lib/SKIR/SKIRTbbSched.cpp:222-235 | when no Transmit on the cycle would raise a tag, all public tags on it agree |
| D4RTheorems.QuietCycleReports | lib/SKIR/SKIRTbbSched.cpp:235-247 | then exactly one kernel of the cycle reports, the one with the least priority |
| D4RTheorems.FinitelyManyRises | deps/d4r/D4RTag.h:49-55 | tag changes on a cycle use up a number fixed when the cycle forms, so there are only finitely many |
| D4RTheorems.QuietSweepReports | lib/SKIR/SKIR_kernel_t.h:88-92 | if every kernel of the cycle is polled and no tag on it changes, one of the polls reports |
| D4RTheorems.DetectionIsInevitable | lib/SKIR/SKIRTbbSched.cpp:183-284 | more rounds of polls than that number always contain a report |
| D4RTheorems.CycleHasBounds | deps/d4r/D4RTag.h:43-44 | such a number exists for every cycle |
| D4RTheorems.PollsLock | lib/SKIR/SKIRTbbSched.cpp:264-284 | kernels that wait for each other in a ring are a deadlock cycle once each of them has been polled |
| D4RTheorems.EveryWaitCycleIsReported | lib/SKIR/SKIRTbbSched.cpp:183-284 | every ring of waits is reported: for some number, every run of more rounds of polls than that contains a report at a kernel of the ring |
| D4RCallback.RtKernel.constructor | deps/d4r/D4RTag.h:43-44 | a new kernel's tags carry its key, the largest priority word and no label |
| D4RCallback.RtKernel.LocateStream | lib/SKIR/SKIRTbbSched.cpp:191-210 | the two searches find what `Locate` says, the output winning |
| D4RCallback.RtKernel.RaiseFlags | lib/SKIR/SKIRTbbSched.cpp:279-282 | every input's read flag and every output's write flag is up afterwards |
| D4RCallback.RtKernel.Block | lib/SKIR/SKIRTbbSched.cpp:268-284 | the Block branch sets tags, flags, last blocker and last count as `Callback` says |
| D4RCallback.RtKernel.Transmit | lib/SKIR/SKIRTbbSched.cpp:212-262 | the Transmit branch changes the public tag, the two flags and the verdict as `Callback` says |
| D4RCallback.RtKernel.D4rCb | lib/SKIR/SKIRTbbSched.cpp:183-287 | the whole call-back has exactly the effect that the protocol's poll step has, and none when no stream is shared |
| FEIRToSKIR.Visitor.VisitExpr | tools/streamit/FEIRToSKIR.cpp:129-242 | visiting an expression leaves the builder fields and returns the value that `LowerExpr` gives |
| FEIRToSKIR.Visitor.VisitSimple | tools/streamit/FEIRToSKIR.cpp:1279-1305 | the same for assignments, compound assignments, pushes and expression statements |
| FEIRToSKIR.Visitor.VisitStmt | tools/streamit/FEIRToSKIR.cpp:1384-1491 | visiting any statement leaves blocks, current block, break and continue targets as `LowerStmt` gives them |
| FEIRToSKIR.Visitor.VisitStmtJump | tools/streamit/FEIRToSKIR.cpp:1321-1335 | break and continue end the current block with their target and go on in a dead one |
| FEIRToSKIR.Visitor.VisitStmtIfThen | tools/streamit/FEIRToSKIR.cpp:1440-1491 | an if with either branch missing is lowered as `LowerIf` says |
| FEIRToSKIR.Visitor.VisitStmtWhile | tools/streamit/FEIRToSKIR.cpp:1585-1626 | a while loop is lowered as `LowerWhile` says, clearing the break target |
| FEIRToSKIR.Visitor.VisitStmtFor | tools/streamit/FEIRToSKIR.cpp:1384-1438 | a for loop is lowered as `LowerFor` says, its increment with the break target cleared |
| StreamIt.SubUndoesAdd | tools/streamit/FEIRToSKIR.cpp:149-153 | on 32-bit integers subtraction undoes addition and addition subtraction |
| StreamIt.MulLaws | tools/streamit/FEIRToSKIR.cpp:155-156 | multiplication is repeated addition, also where it wraps round |
| StreamIt.DivTruncates | tools/streamit/FEIRToSKIR.cpp:158-168 | quotient times divisor plus remainder is the dividend, the remainder is smaller than the divisor and has the dividend's sign |
| StreamIt.Comparisons | tools/streamit/FEIRToSKIR.cpp:170-244 | exactly one of less, equal and greater holds, the other comparisons are their negations, and the logical operators look at both operands |
| StreamIt.AssignmentIsSeen | tools/streamit/FEIRToSKIR.cpp:1279-1305 | a variable has the value assigned to it, and no other variable and no evaluation of an expression changes one |
| LoweringProof.ExprRuns | tools/streamit/FEIRToSKIR.cpp:129-242 | running the code of an expression yields its value and effects and keeps every earlier register |
| LoweringProof.SimpleRuns | tools/streamit/FEIRToSKIR.cpp:1279-1305 | running the code of a simple statement has its effect on variables, input position and output |
| LoweringProof.StmtRuns | tools/streamit/FEIRToSKIR.cpp:1384-1626 | with targets restored after loops, the blocks of a statement run from its entry to its continuation, break or continue target with the statement's own result, or run on as long as it does |
| LoweringTheorems.RestoredReachesResult | tools/streamit/FEIRToSKIR.cpp:1384-1626 | whole programs with restored targets halt with the program's variables, input position and output |
| LoweringTheorems.RestoredHaltMeansResult | tools/streamit/FEIRToSKIR.cpp:1384-1626 | and halt only if the program ends, with its result; they never crash |
| LoweringTheorems.PlacedExactly | tools/streamit/FEIRToSKIR.cpp:1412-1421 | both lowerings of a statement agree but for branch targets, and agree wholly exactly as long as no break or continue follows a nested loop of the same body |
| LoweringTheorems.FrontEndIsRestoredIff | tools/streamit/FEIRToSKIR.cpp:1611-1618 | the front end emits the correct blocks if and only if no break or continue follows a nested loop of the same loop body |
| LoweringTheorems.FrontEndReachesResult | tools/streamit/FEIRToSKIR.cpp:1384-1626 | for such programs the emitted blocks halt with the program's result whenever it has one |
| LoweringTheorems.FrontEndHaltMeansResult | tools/streamit/FEIRToSKIR.cpp:1384-1626 | and stop only there |
| StrayJumps.WatchIsExec | tools/streamit/FEIRToSKIR.cpp:1412-1421 | a run that executes no jump with lost targets is the program's own run; with restored targets, or in a program whose jumps are well placed, every run is one |
| LoweringTheorems.FrontEndRunsRight | tools/streamit/FEIRToSKIR.cpp:1384-1626 | on every input whose run executes no break or continue after a nested loop of the same body, the emitted blocks halt with the program's result |
| LoweringTheorems.FrontEndRunHaltMeansResult | tools/streamit/FEIRToSKIR.cpp:1384-1626 | and as long as it executes none they stop only there |
| LoweringTheorems.StrayBreakCrashes | tools/streamit/FEIRToSKIR.cpp:1615-1618 | if the first such jump executed is a break, the emitted blocks branch to null |
| LoweringTheorems.FrontEndRunIsRightIff | tools/streamit/FEIRToSKIR.cpp:1384-1626 | where the first such jump executed, if any, is no continue, the emitted blocks halt with the program's result if and only if there is none |
| LoweringBlocks.StmtTidy | tools/streamit/FEIRToSKIR.cpp:1384-1626 | after any statement every branch leads to a block that has its terminator or is still to get it |
| LoweringBlocks.OneTerminator | tools/streamit/FEIRToSKIR.cpp:1384-1626 | for every program no block has two terminators, and every block a branch leads to has one unless it is the last |
| LoweringBlocks.ControlStaysInEndedBlocks | tools/streamit/FEIRToSKIR.cpp:1384-1626 | control is only ever in a block with exactly one terminator, or in the last one |
| LoweringExamples.BreakAfterLoopCrashes | tools/streamit/FEIRToSKIR.cpp:1615-1618 | a break after a nested loop: the program stops after one item, the emitted blocks branch to null |
| LoweringExamples.ContinueAfterLoopHangs | tools/streamit/FEIRToSKIR.cpp:1412-1413 | a continue after a nested loop: the program ends at the first zero, the emitted blocks never halt |
| LoweringExamples.LoopLeavesTargets | tools/streamit/FEIRToSKIR.cpp:1412-1421 | a loop without inner loops leaves no break target, and as continue target its condition block if it is a while loop and its increment block if it is a for loop |
| LoweringExamples.ContinueAfterForPushes | tools/streamit/FEIRToSKIR.cpp:1412-1413 | a continue after a nested for loop: the program ends at the first zero without a push, the emitted blocks go on for ever and run the inner increment each time |
| RingArith.AdvanceIsNext | lib/runtime/inline_stream_ops.cpp:194 | the cursor step goes to the next element's place, going round |
| RingArith.PushSpaceCounts | lib/runtime/inline_stream_ops.cpp:385-393 | the push space is the element size times the free slots, one slot always kept free |
| RingArith.PopSpaceCounts | lib/runtime/inline_stream_ops.cpp:376-383 | the pop space is the element size times the elements between the cursors |
| RingMachine.StepKeepsInv | lib/runtime/inline_stream_ops.cpp:316-350 | cursor reads, copies and publications of both ends in any order keep cursors, counts and buffer in step |
| RingMachine.PublishedIsFound | lib/runtime/inline_stream_ops.cpp:316-350 | what one end has published is found by the other end's next look, all of it |
| RingMachine.CheckIsLook | lib/runtime/inline_stream_ops.cpp:326-344 | the tests of blocking push and pop ask exactly whether the space computation would find one slot, or one element |
| RingMachine.FirstInFirstOut | lib/runtime/inline_stream_ops.cpp:316-350 | in every run, what was taken followed by what is in the ring is what was copied in, and the ring holds at most B/es - 1 elements |
| RingMachine.NothingIsOverwritten | lib/runtime/inline_stream_ops.cpp:331-369 | a copy writes inside the buffer and on no unread element; a take or peek reads exactly the element asked for |
| RingMachine.CopiesStaySafe | lib/runtime/inline_stream_ops.cpp:385-409 | space computed once is enough for that many unchecked pushes, whatever the consumer does meanwhile |
| RingMachine.TakesStaySafe | lib/runtime/inline_stream_ops.cpp:376-418 | items counted once stay there for that many unchecked pops and peeks, whatever the producer does |
| RingMemory.Guards | lib/runtime/inline_stream_ops.cpp:287-288 | the wait conditions of push, pop and peek say exactly whether there is room, an element, or an element that far on |
| RingMemory.PushAppends | lib/runtime/inline_stream_ops.cpp:1000-1008 | copying to the head and advancing it appends one element to the stream's contents |
| RingMemory.PopRemoves | lib/runtime/inline_stream_ops.cpp:763-770 | reading at the tail and advancing it removes the first element |
| RingMemory.PeekReads | lib/runtime/inline_stream_ops.cpp:886-893 | a peek reads the element at its offset, going round |
| StreamOps.SkirStream.TryPush | lib/runtime/inline_stream_ops.cpp:188-201 | one round of a checked push appends the element if there is room and else changes nothing |
| StreamOps.SkirStream.TryPop | lib/runtime/inline_stream_ops.cpp:231-241 | one round of a checked pop takes the first element if there is one |
| StreamOps.SkirStream.TryPeek | lib/runtime/inline_stream_ops.cpp:277-293 | one round of a checked peek gives the element at the offset if it is there |
| StreamOps.SkirStream.PushNocheck | lib/runtime/inline_stream_ops.cpp:1000-1008 | an unchecked push with room appends the element |
| StreamOps.SkirStream.PopNocheck | lib/runtime/inline_stream_ops.cpp:763-770 | an unchecked pop of a stream that is not empty takes the first element |
| StreamOps.SkirStream.PeekNocheck | lib/runtime/inline_stream_ops.cpp:886-893 | an unchecked peek gives the element at the offset |
| Batch.ComputeNiters | lib/runtime/inline_stream_ops.cpp:395-422 | the two loops give the least limit, or zero and the other end of the first stream that allows no firing, outputs first |
| Batch.PopLimitExact | lib/runtime/inline_stream_ops.cpp:414 | a limit on firings by an input is exact unless the unsigned subtraction wraps, and then it is huge |
| Batch.BatchSafeIff | lib/runtime/inline_stream_ops.cpp:395-422 | a batch has room and items for all its pushes, pops and peeks if and only if no input wraps |
| Batch.BatchIsLargest | lib/runtime/inline_stream_ops.cpp:395-422 | no larger batch would be safe |
| Batch.Skeleton11SafeIff | lib/runtime/inline_stream_ops.cpp:593-639 | the one-in one-out skeleton's batch is within what there is, at all rates and in every state of its streams in which it does not wrap, if and only if elements have four bytes |
| Batch.Skeleton11Safe4 | lib/runtime/inline_stream_ops.cpp:609 | with four bytes it is, unless it wraps |
| Batch.SmallUnsafe | lib/runtime/inline_stream_ops.cpp:609 | with one or two bytes a full output looks empty |
| Batch.LargeUnsafe | lib/runtime/inline_stream_ops.cpp:609 | with eight or more, one item counts as several |
| BatchRun.PushesOfBatchAreSafe | lib/runtime/inline_stream_ops.cpp:545-568 | any firings up to the batch size, at the declared push rate and interleaved with the consumer, find room for every unchecked push |
| BatchRun.PopsOfBatchAreSafe | lib/runtime/inline_stream_ops.cpp:545-568 | and, unless the computation wrapped, find every item they pop or peek at |
| BatchRun.WrappedBatchIsUnsafe | lib/runtime/inline_stream_ops.cpp:414 | if it wrapped, even one firing at the declared rates may ask for an item that is not there |
| BatchRun.EmptyInputIsUnsafe | lib/runtime/inline_stream_ops.cpp:414 | an empty stream whose reader peeks past two pops is such a state, and every stream starts in it |
| Skeleton.CheckedOpMeans | lib/runtime/inline_stream_ops.cpp:188-293 | a checked pop, peek or push of a work function gets the first element, the one asked for, or appends what the kernel gives, and blocks exactly when there is none or no room |
| Skeleton.StopsAtFirst | lib/runtime/inline_stream_ops.cpp:625-633 | the firings of a batch end with the first that returns something other than 0, or when all are made |
| Skeleton.OpRefines | lib/runtime/inline_stream_ops.cpp:777-795 | an unchecked operation on private cursors is the checked one on the stream as it would be when published, and leaves the shared cursors alone |
| Skeleton.PrivateFiring | lib/runtime/inline_stream_ops.cpp:626-629 | a firing on private cursors equals a checked firing, which does not block, and the shared cursors stay on the boundary before it |
| Skeleton.BatchIsEnough | lib/runtime/inline_stream_ops.cpp:609-611 | with four-byte elements the batch size leaves items and room for every firing |
| Skeleton.BatchIsAllThereIs | lib/runtime/inline_stream_ops.cpp:609-611 | and it leaves out no firing there are items and room for |
| Skeleton.SkeletonRefinesChecked | lib/runtime/inline_stream_ops.cpp:593-639 | a run of the skeleton, ended early by a work result other than 0 or not, leaves kernel state, buffers and shared cursors as the same checked firings do |
| SkeletonRun.PeerActRefines | lib/runtime/inline_stream_ops.cpp:615-631 | a push or pop of a peer that the shared cursors allow is allowed on the streams as they would be when published, and does the same to both |
| SkeletonRun.CheckedPeerMeans | lib/runtime/inline_stream_ops.cpp:188-241 | a peer's push appends to the input and its pop takes the first element of the output, each blocking exactly when it cannot |
| SkeletonRun.PeersAnywhere | lib/runtime/inline_stream_ops.cpp:593-639 | the steps of peers may stand anywhere among those of the skeleton |
| SkeletonRun.SkeletonRunRefinesChecked | lib/runtime/inline_stream_ops.cpp:593-639 | with both peers moving at any time, a run of the skeleton is a run of checked operations of all three kernels in the same order, none of the skeleton's blocks, and it ends in the same shared streams |
| Skeleton.Extern | lib/runtime/inline_stream_ops.cpp:628 | the work function called with headers holding private cursors does what `PrivateFiring` says to the real buffers |
| Skeleton.RunBatch | lib/runtime/inline_stream_ops.cpp:625-633 | the loop that fires, publishes and leaves at a result other than 0 ends as checked firings would |
| Skeleton.ComputeNiters11 | lib/runtime/inline_stream_ops.cpp:609-611 | the batch size of the skeleton, and when it is 0 the other end of the output if that has no room for a firing, else of the input |
| Skeleton.WorkfnNocheck11 | lib/runtime/inline_stream_ops.cpp:593-639 | the whole skeleton fires the largest number of times there are items and room for, unless a firing stops it, and ends as checked firings would; if it can fire it returns the last work result, and else the other end of the output if that has no room, the other end of the input if it has, or 0 where there is no kernel at that end |
| FusionRates.MyLCM | lib/SKIR/SKIRFusion.cpp:268-274 | the search ends, at the least common multiple |
| FusionRates.MatchRates | lib/SKIR/SKIRFusion.cpp:294-309 | both kernels' firings move the least common multiple of the rates |
| FusionRates.LeastFirings | lib/SKIR/SKIRFusion.cpp:303-307 | no smaller positive pair of firings moves the same number of elements in and out |
| FusionStreams.ComputeCommonStreams | lib/SKIR/SKIRFusion.cpp:36-49 | exactly the streams the first kernel writes and the second reads |
| FusionStreams.ComputeOuterStreams | lib/SKIR/SKIRFusion.cpp:52-83 | the remaining inputs, or outputs, of both kernels in order |
| FusionStreams.Renumber | lib/SKIR/SKIRFusion.cpp:251-261 | the search through inputs, outputs and internal streams finds the first match |
| FusionStreams.RenumberedOpsKeepTheirStreamsIff | lib/SKIR/SKIRFusion.cpp:219-266 | every renumbered pop of both kernels keeps its stream; every push does if and only if no stream of the fused kernel is an input and an output with different numbers |
| FusionStreams.FeedbackLosesPush | lib/SKIR/SKIRFusion.cpp:251-261 | a second kernel that writes back to the first one's second input has its push renumbered to an output that does not exist |
| FusionStreams.NoFeedbackKeepsNames | lib/SKIR/SKIRFusion.cpp:219-266 | without feedback between or around the pair all pushes keep their streams |
| FusionStreams.AdjustRates | lib/SKIR/SKIRFusion.cpp:389-409 | every rate of both kernels' streams is multiplied once by its own kernel's firings |
| FusionStreams.MatchStreams | lib/SKIR/SKIRFusion.cpp:294-409 | the firings move the least common multiple of both rates; fusion is refused and changes nothing exactly when so many firings do not fit a buffer; otherwise every rate is multiplied by its kernel's firings and both rates of the shared stream become that multiple |
| FusionMeaning.OrderDoesNotMatter | lib/SKIR/SKIRFusion.cpp:278-284 | every legal schedule of two kernels on a first-in-first-out stream ends where its two counts of firings say |
| FusionMeaning.SchedulesAgree | lib/SKIR/SKIRFusion.cpp:278-284 | two schedules with the same counts end in the same states, outputs and stream |
| FusedWork.RoundIsLegal | lib/runtime/inline_stream_ops.cpp:81-94 | with matched rates the two loops can run on an empty stream and leave it empty |
| FusedWork.FusionPreservesMeaning | lib/SKIR/SKIRFusion.cpp:278-527 | m firings of the fused kernel end as any legal schedule with m times niter0 and m times niter1 firings does |
| FusedWork.PushFuse | lib/runtime/inline_stream_ops.cpp:141-148 | four bytes are written at the index, inside the buffer |
| FusedWork.PushAll | lib/runtime/inline_stream_ops.cpp:141-148 | the pushes of one firing fill the linear buffer further, one element after the other |
| FusedWork.PopAll | lib/runtime/inline_stream_ops.cpp:150-157 | the pops of one firing read the elements that were pushed, in order |
| FusedWork.FusedKernel.UpLoop | lib/runtime/inline_stream_ops.cpp:81-86 | the first loop fills the linear buffer, never past its end, as that many firings fill the stream, and returns at a result other than 0 |
| FusedWork.FusedKernel.DownLoop | lib/runtime/inline_stream_ops.cpp:87-92 | the second loop empties it as that many firings would, and returns at a result other than 0 |
| FusedWork.StoppedUpstream | lib/runtime/inline_stream_ops.cpp:83 | a stop among the upstream firings of a round, even at the last, loses elements |
| FusedWork.StoppedDownstream | lib/runtime/inline_stream_ops.cpp:89 | a stop among the downstream ones loses elements if and only if it is not at the last |
| FusedWork.FusedKernel.Work | lib/runtime/inline_stream_ops.cpp:71-106 | one firing of the fused kernel has the effect of one round of the two kernels and resets its counters if no firing of the round stops, else the effect of the round up to the first that does; elements are lost unless no firing stops but possibly the last one of the round |
| FusedWork.FusedKernel.WorkBatch | lib/runtime/inline_stream_ops.cpp:531-537 | m firings of the fused kernel, none of which stops, end as every legal schedule of the two kernels with m times niter0 and m times niter1 firings does; nothing is lost if and only if every round that is started keeps its elements |
| FusedWork.EndLosesElement | lib/runtime/inline_stream_ops.cpp:81-84 | the element pushed by a first kernel that ends in the middle of a round never reaches the second |
| Fission.StepKeepsInv | lib/runtime/inline_stream_ops.cpp:689-742 | splitter, replicas, joiner and the outer ends, interleaved in any order, keep every piece in its place |
| FissionTheorems.OutputIsPrefix | lib/SKIR/SKIRDPSched.cpp:102-216 | the joined output is always the stateless kernel mapped over the first pieces of all that was fed, in order; the pieces joined and the room left are the room there was and all that was made since |
| FissionTheorems.HistoryIsTheRuns | lib/runtime/inline_stream_ops.cpp:689-742 | every step of splitter, replica or joiner handles one piece, and every piece joined uses up room in the outer output |
| FissionTheorems.NoInternalDeadlock | lib/runtime/inline_stream_ops.cpp:689-742 | with a round of input and room for a round of output, splitter, a replica or joiner can always go on |
| FissionTheorems.DrainedIsComplete | lib/SKIR/SKIRDPSched.cpp:102-216 | when nothing can go on any more the output is the kernel mapped over all complete rounds of input |
| FissionTheorems.InternalStepsAreBounded | lib/runtime/inline_stream_ops.cpp:689-742 | splitter, replicas and joiner together make at most three steps for every piece of input, so without more input they come to rest |
| FissionRates.CallKernel | lib/SKIR/SKIRDPSched.cpp:102-214 | the rates of splitter, joiner and all streams, with the first replica's multiple; the declared outer rates are what a round moves if and only if the multiple is 1, the rate 0 or, at the joiner, the width 1 |
| FissionRates.SplitterDeclaredRightIff | lib/SKIR/SKIRDPSched.cpp:109-126 | the rate declared for the splitter's input is the sum of what it gives the replicas if and only if the rate is 0 or the multiple 1 |
| FissionRates.JoinerDeclaredRightIff | lib/SKIR/SKIRDPSched.cpp:149-180 | the rate declared for the joiner's output is the sum of what it takes from the replicas if and only if the rate is 0, the multiple 1 or the width 1 |
| FissionRates.SplitterAsksEnoughIff | lib/SKIR/SKIRDPSched.cpp:109-126 | what the splitter asks of its input is enough for a round if and only if the multiple is at most 1 |
| FissionRates.JoinerAsksEnoughIff | lib/SKIR/SKIRDPSched.cpp:149-180 | what the joiner asks of its output is enough for a round if and only if the multiple is at least 1 or the width 1 |
| FissionRates.ReplicaInputsDeclaredRightIff | lib/SKIR/SKIRDPSched.cpp:202 | the replicas' inputs are first declared with the rates they are filled with if and only if the rate is 0, or width and multiple are 1 |
| FissionRates.ReplicaOutputsDeclaredRightIff | lib/SKIR/SKIRDPSched.cpp:211 | their outputs with the rates they are emptied with if and only if the rate is 0 or the width 1 |
| FissionRates.MultiplierIsNotDeclared | lib/SKIR/SKIRDPSched.cpp:113-152 | with four replicas and a multiple of two a round of the splitter takes five elements where four are declared, and one of the joiner makes five where eight are |
| FissionWork.SplitRound | lib/runtime/inline_stream_ops.cpp:699-711 | a round of the splitter moves consecutive pieces of its input to consecutive outputs |
| FissionWork.JoinRound | lib/runtime/inline_stream_ops.cpp:727-739 | a round of the joiner appends the first piece of each input in turn |
| FissionWork.JoinUndoesSplit | lib/runtime/inline_stream_ops.cpp:699-739 | joining what a splitter with the same rates has given puts its input together again |
| TbbSched.StepKeepsInv | lib/SKIR/SKIRTbbSched.cpp:418-497 | every step of dispatcher and workers keeps task counts, owners, locks and queue in step |
| TbbTheorems.TaskAccounting | lib/SKIR/SKIRTbbSched.cpp:418-497 | `running` is the number of live tasks of the kernel, 0 or 1, and positive at every decrement |
| TbbTheorems.WorkIsExclusive | lib/SKIR/SKIRTbbSched.cpp:418-497 | no two workers are in the same kernel's work function at once |
| TbbTheorems.NoKernelLost | lib/SKIR/SKIRTbbSched.cpp:562-582 | a called kernel that is neither done nor removed is queued or in the dispatcher's hand, exactly once |
| TbbTheorems.MovesUp | lib/SKIR/SKIRTbbSched.cpp:737-771 | every pop moves a queued kernel one place forward |
| TbbTheorems.ExaminedAgain | lib/SKIR/SKIRTbbSched.cpp:737-771 | so it is examined again after at most as many pops as the queue is long |
| TbbProgress.ExaminedGetsTask | lib/SKIR/SKIRTbbSched.cpp:739-766 | a kernel that is examined while it is to run, has no task and is not locked gets a task, which owns it |
| TbbProgress.PutBackMeansBusy | lib/SKIR/SKIRTbbSched.cpp:739-771 | whatever workers do meanwhile, a kernel is put back only if at some moment since it was popped it had a task, was locked by a worker or was no longer to run |
| TbbProgress.QueuedComesToBeBusy | lib/SKIR/SKIRTbbSched.cpp:737-771 | so every queued kernel comes to be in one of these states within as many pops as the queue is long |
| TbbProgress.EndedIsDropped | lib/SKIR/SKIRTbbSched.cpp:740-771 | a kernel that is done or removed when it is examined is not put back |
| TbbProgress.BusyIsPutBack | lib/SKIR/SKIRTbbSched.cpp:742-771 | one that has a task goes to the end of the queue |
| TbbProgress.LockedIsPutBack | lib/SKIR/SKIRTbbSched.cpp:742-771 | so does one whose lock is taken |
| TbbProgress.TaskWorks | lib/SKIR/SKIRTbbSched.cpp:418-449 | a queued task of a kernel that is to run and not locked locks it and enters its work function |
| TbbProgress.WorksOnlyIfToRun | lib/SKIR/SKIRTbbSched.cpp:438-449 | the work function is entered if and only if the kernel is neither done nor removed |
| TbbProgress.RemovedEndsAtOnce | lib/SKIR/SKIRTbbSched.cpp:423-428 | a queued task of a kernel that is removed ends without going into the work loop |
| TbbProgress.BlockedHelps | lib/SKIR/SKIRTbbSched.cpp:460-468 | a task that is blocked on an idle kernel starts a task for it, is queued again itself, and both locks are free |
| TbbProgress.BlockedSteals | lib/SKIR/SKIRTbbSched.cpp:469-475 | one that is blocked on a kernel with a queued task takes that over and is queued again |
| TbbProgress.BlockedLeaves | lib/SKIR/SKIRTbbSched.cpp:469-482 | one that is blocked on a running kernel frees its lock, and tries again or ends |
| TbbProgress.BlockedRetries | lib/SKIR/SKIRTbbSched.cpp:478-484 | one whose blocker is locked tries again or ends, and changes nothing else |
| TbbProgress.BlockedOnRemovedEnds | lib/SKIR/SKIRTbbSched.cpp:460-484 | one whose blocker has been removed ends |
| TbbProgress.EndLeavesIdle | lib/SKIR/SKIRTbbSched.cpp:486-490 | a task that ends leaves its kernel without task and lock |
| TbbProgress.RefusedGivesUp | lib/SKIR/SKIRTbbSched.cpp:491-496 | a task that cannot lock its kernel is gone and no longer counted |
| TbbProgress.TaskGoesOn | lib/SKIR/SKIRTbbSched.cpp:418-497 | every task can always take a step of its own, whatever locks others hold |
| TbbProgress.AtRestAllIdle | lib/SKIR/SKIRTbbSched.cpp:418-497 | when all tasks are gone every kernel is unlocked and its count is 0 |
| TbbProgress.ToRunIff | lib/SKIR/SKIRTbbSched.cpp:562-595 | a kernel is to run exactly from its call until its work function reports that it is done or it is removed |
| Koroutine.ResumeSwitches | lib/SKIR/SKIRKoroSched.cpp:346-371 | a resume saves the scheduler's registers where the record says and gives the coroutine its own, its stack pointer, its arguments and control |
| Koroutine.YieldSwitches | lib/SKIR/SKIRKoroSched.cpp:233-263 | a yield saves the coroutine's registers, stack pointer and return address and returns to the scheduler |
| Koroutine.ReturnSwitches | lib/SKIR/SKIRKoroSched.cpp:265-291 | a return resets stack pointer and entry point and returns to the scheduler |
| Koroutine.SetUpStarts | lib/SKIR/SKIRKoroSched.cpp:403-459 | a new coroutine is set up to enter its function on an empty stack, below a dummy return address of -1 and with six zero registers |
| Koroutine.SchedulerIsRestored | lib/SKIR/SKIRKoroSched.cpp:233-371 | over any number of turns, every resume comes back with the six callee-saved registers, the stack pointer and the return address of the call |
| Koroutine.RecordStays | lib/SKIR/SKIRKoroSched.cpp:403-413 | entry point and stack of a coroutine never change |
| Koroutine.CoroutineIsRestored | lib/SKIR/SKIRKoroSched.cpp:233-371 | a resume after a yield goes on there with the coroutine's own registers and stack pointer |
| Koroutine.EntersFunction | lib/SKIR/SKIRKoroSched.cpp:265-291 | the first resume and every resume after a return enters the function with the initial stack pointer |
| TopoSort.RuntimeGraph.AddKernel | lib/SKIR/SKIRRuntimeGraph.cpp:545-559 | registers the kernel and forgets its edges, or changes nothing if it is registered already |
| TopoSort.RuntimeGraph.RemoveKernel | lib/SKIR/SKIRRuntimeGraph.cpp:562-567 | forgets the kernel and its edges |
| TopoSort.RuntimeGraph.AddEdge | lib/SKIR/SKIRRuntimeGraph.cpp:570-580 | adds the edge, or registers a null entry when the source is unknown; nothing when an end is no kernel |
| TopoSort.RuntimeGraph.RefreshAdjList | lib/SKIR/SKIRRuntimeGraph.cpp:598-633 | the edges are those of the registered kernels' allocated streams between registered source and target; the new null entries are the unregistered sources among them |
| TopoSort.RuntimeGraph.Visit | lib/SKIR/SKIRRuntimeGraph.cpp:723-736 | the depth-first visit ends and keeps sorted kernels, visited kernels and those on the way apart |
| TopoSort.RuntimeGraph.TopoSort | lib/SKIR/SKIRRuntimeGraph.cpp:706-721 | ends on every graph, lists every entry once, and puts the source of every edge before its target unless the edge lies on a cycle; a null pointer is listed if and only if there was one or a stream of a registered kernel leaves an unknown one |
| TopoSort.PipeDangles | lib/SKIR/SKIRRuntimeGraph.cpp:575 | after the source of a pipe is removed the pipe's stream leaves an unknown kernel |
| TopoSort.RemovedKernelIsListed | lib/SKIR/SKIRRuntimeGraph.cpp:562-721 | so the sort lists a null pointer for it |
| Draining.StepKeepsInv | lib/SKIR/SKIRRuntimeKernel.h:188-239 | firings and ends of pipeline kernels keep dead ends, freed streams and counts in step |
| Draining.EndsDrained | lib/runtime/inline_stream_ops.cpp:395-422 | every stream holds what its writer's firings pushed and its reader's did not pop, and that fits; a kernel that has reported the end made exactly as many firings as its writer's firings feed, after its writer ended; a stream is freed exactly once, when both its ends are dead |
| Draining.CountsAreTheRuns | lib/SKIR/SKIRRuntimeKernel.h:188-239 | a kernel's count is that of the firings of the run, and it is dead if and only if the run ends it |
| Draining.DrainGoesOn | lib/runtime/inline_stream_ops.cpp:403-421 | after the source has ended some kernel can always fire or end until all have ended |
| Draining.DrainIsBounded | lib/runtime/inline_stream_ops.cpp:403-421 | after the source has ended no order of steps makes more of them than a measure of what is queued and alive |
| Draining.DrainTerminates | lib/runtime/inline_stream_ops.cpp:403-421 | so every run comes to an end, and there all kernels have ended, every stream has been freed exactly once, and every kernel has fired as often as the source's firings feed it, whatever the order |
| Draining.RuntimeKernel.Done | lib/SKIR/SKIRRuntimeKernel.h:196-238 | marks all ends dead, frees streams whose other end is dead already, and lets go of the streams so that a second call does nothing |

## Left out

- Machine words: element counts, firing counts, tag counts and addresses are unbounded, except where a wrap-around decides the result (`PopLimit`, 32-bit arithmetic of the StreamIt programs, the queue size -1 as an unsigned word).
- Memory ordering: single reads and writes of shared fields are atomic and seen in order; a poll of the detection, a batch-size computation and a `done` call are each one step where several kernels are interleaved.
- Deadlock detection: `last_blocker` is uninitialised in the source until the first Block and is null here; kernels have a fixed rate, so no progress means an unchanged count; node keys are distinct; the locks that are commented out in the source are not modelled.
- Lowering: do-while, the ternary operator, bit-wise and unary operators, arrays, floats, declarations and the type conversions between boolean and integer values; a division by zero, which is undefined, gives 0 on both sides.
- FEIRToSKIR.Visitor.VisitExpr: integers only; floating-point operands and the conversions between operand types are left out.
- LoweringProof.ExprRuns: integers only, as VisitExpr.
- Rings: stream headers shared between processes, the array streams, `num_push`, and buffers whose size is no multiple of the element size.
- Skeleton.Extern: a work function is a fixed list of stream operations, as the declared rates require, whose result depends on the kernel state it leaves.
- Skeleton.WorkfnNocheck11: as a method it runs while both peers stand still; with moving peers the skeleton is a state machine, in SkeletonRun.SkeletonRunRefinesChecked.
- Fusion: kernels that peek, several shared streams with different rate ratios, streams with elements that are not four bytes, and the rewriting of instructions itself.
- FusionStreams.RenumberedOpsKeepTheirStreamsIff: is for at most 1000 streams a side, beyond which an outer number would read as an internal one.
- Fission.StepKeepsInv: pieces are moved one stream at a time, not one element at a time, since no replica or joiner can use a part of one.
- Fission: kernels with state or peeking; every replica gets one piece a round, which is what a multiple of 1 means.
- FissionRates.CallKernel: gives the rates as first set; the analysis of kernels that sets the replicas' rates again afterwards is not part of this model.
- The task scheduler: which task is stolen and by which worker, retry counts, pausing, code generation and statistics; removal of a kernel by the merging call-back may come at any time.
- Draining.StepKeepsInv: pipelines of kernels without children, and no race between two `done` calls.
- Draining.RuntimeKernel.Done: ends one kernel; the calls for its children, which the source makes first, are left out.
- TopoSort: streams shared between processes, whose ends can be a number that is no kernel.
- Code generation, the OpenCL scheduler and C backend, sockets, event logs, command-line tools and timing.
