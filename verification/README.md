# Verified models of the benchmark helpers

This project models, in Dafny, the parts of the repository that are algorithms of
their own, and proves what they promise over all inputs and all runs:

* **KernelSim**, the simulator of several applications on one GPU. Loading links
  recorded kernels into a tree (`KernelTree`, `KernelTrace` on values, `TraceLoader`
  on linked objects). One turn of the event loop is a function on the loop's
  variables (`Colocation`); what every turn keeps is split into what the counters
  and the queue hold (`ColocationStructure`), when the running kernel ends
  (`ColocationSchedule`) and what the clock says (`ColocationTiming`); whole runs are in
  `ColocationRuns` and `ColocationTheorems`; `ProcessorSharing` relates the rescaled finish times to an
  ideal shared channel; `KernelSim` is the program's own loop over a priority queue
  and arrays, held against the state machine; `KernelProgram` joins loading and
  simulating. `Bags` counts and maps over multisets.
* **The step barrier between workers** (`SyncQueues`): the operations each worker
  builds, and the protocol that they run.
* **Gradient all-reduce**: tensors and their flat layout (`Tensors`), ranges of
  consecutive indices (`Ranges`), leaving entries out of a list and inserting them
  (`Selection`), packing small gradients (`GradientPacking`, `GradientReduction`, the
  loops in `GradientAllReduce`), batches (`BatchPacking`, `ReduceAlgorithms`,
  `BatchAllReduce`), reduction put off by one run (`Deferral`), and device groups
  (`DeviceGroups`).
* **Threads**: the generation-counting barrier (`ThreadBarrier`) and the image
  producer on top of it (`ImageProducer`).
* **Two loops**: even splitting into multiples (`SplitDivisible`) and non-maximum
  suppression (`Suppression`).

`Arithmetic` and `Results` are shared helpers.

Time, tensor elements, scores and boxes are exact reals. Concurrency is modelled as
interleaved atomic steps: what a thread does under the lock is one step, a queue
operation is one step. The queues of the simulator are multisets of which *any*
element of least time may be on top, so that every order of simultaneous events is
covered; likewise `argsort` may order equal scores as it likes, and a staging area may
put before it gets or get before it puts.

## What the proofs found

* The simulator checks the time of every link but the one to the closing kernel of an
  iteration. On traces that loading accepts, the simulated clock never runs backwards
  exactly when every application's last kernel ends within the iteration
  (`KernelProgram.ClockAdvancesIffTracesEndInside`).
* On such traces the monotone clock and the claim that nobody is sped up both fail. One
  kernel of ten seconds in an iteration of five is loaded, and an application whose host
  takes twice as long as recorded then finishes in no time at all, a slowdown of minus
  one hundred percent (`KernelProgram.OverlongSpedUp`). A lone chain is not sped up
  exactly when the slowdown and the host's share of the iteration do not have opposite
  signs (`ColocationTheorems.LoneChainNotSpedUpIff`). For several applications both
  claims are proved for recordings in order of time (`ColocationRuns.ClockForward`,
  `ColocationRuns.NoSpeedUp`).
* What is reported as an application's time is always the clock of the turn that
  finished its last event, whatever the recordings are (`ColocationRuns.RuntimesAreSet`).
* Loading follows the null parent of the head exactly when the first record starts
  before time zero; its complaint `invalid type[0]` never occurs
  (`KernelTrace.NullParentIffNegativeStart`).
* The message about a kernel rescheduled to the present time cannot occur in exact
  arithmetic: a retried event lies strictly ahead (`ColocationSchedule.RetryGoesPast`).
* `extract_ranges` documents `range_size_limit` as the largest size of a range; a range
  holds up to two indices more (`Ranges.LimitExceeded`). The documented limit holds
  exactly when the list nowhere has more consecutive indices than the limit
  (`Ranges.LimitHoldsIff`). The model follows the code.
* Hierarchical copying leaves the last of an odd number of devices out. It is exact
  exactly when their number is even or that device has nothing but zeros
  (`ReduceAlgorithms.HierarchicalIsExactIff`).
* `sum_gradients_all_reduce` returns no towers at all when there are no gradients
  (`GradientAllReduce.SumGradientsAllReduce`).
* The suppression loop ends exactly when every box it keeps suppresses itself
  (`Suppression.LoopEndsIff`), and it ends whatever the scores are exactly when every box
  suppresses itself, unless the slice leaves none to rank
  (`Suppression.EndsForAllScoresIff`). A box turned inside out does not, for a positive
  criterion (`Suppression.SelfSuppressesIff`), and the loop picks it for ever
  (`Suppression.InsideOutForEver`).
* Both areas in `calc_iou` are computed from the same corners. What it returns is
  intersection over union exactly when the boxes have nothing in common or the area taken
  for both is the mean of theirs (`Suppression.OverlapIsTrueIff`); of two boxes half apart
  the left one suppresses the right one, and not the other way round
  (`Suppression.HalfApart`). The model follows the code.
* Tokens of the step barrier do not say whose they are, and a fast worker's next token
  can stand in for a slow worker's (`SyncQueues.TokensStandIn`). The barrier is safe all
  the same (`SyncQueues.BarrierSafe`).

## Model

| member | source | states |
|---|---|---|
| KernelSim.SimColocation | KernelSim/src/KernelSim.cpp:35-289 | The simulation ends, for all apps whose kernels form trees and for every order of simultaneous events, and what it leaves is the end of a complete run of the state machine; every kernel of an app has finished as often as the app's iteration fits into the time given, rounded down, but at least once; every returned runtime is the clock of the turn that finished the app's last event, before which the app was busy and after which it stays idle; the printed slowdown is the time beyond the recording in percent of it; if the recordings are in order of time, no app whose host is not sped up ran faster than recorded; and a lone chain takes exactly its iterations with the host's share stretched, so that on an unslowed host its slowdown is zero |
| KernelSim.TakeTurn | KernelSim/src/KernelSim.cpp:58-277 | One pass through the loop's switch changes queue, counters, `k_sch`, `ac`, `loop` and `rt` as the state machine's turn does |
| KernelSim.RescaleQueue | KernelSim/src/KernelSim.cpp:134-161 | Moving the queue through a second one and back rescales exactly the running copies of one kind and loses nothing |
| KernelSim.SubmittedKernel | KernelSim/src/KernelSim.cpp:62-96 | A submitted kernel starts on a free GPU, or is put off to just after the running kernel |
| KernelSim.SubmittedCopy | KernelSim/src/KernelSim.cpp:97-162 | A submitted copy joins its channel and slows the others down |
| KernelSim.Finished | KernelSim/src/KernelSim.cpp:165-257 | A finished kernel or copy is removed, its children are submitted, and the rest of its channel speeds up |
| KernelSim.RenewApp | KernelSim/src/KernelSim.cpp:260-274 | An app with nothing in flight begins its next iteration or is given its runtime |
| KernelSim.SetUp | KernelSim/src/KernelSim.cpp:40-51 | Every app's head is queued, with one kernel in flight and as many iterations as fit into the time given, rounded down, at least one |
| Colocation.IterationsFit | KernelSim/src/KernelSim.cpp:48-49 | The number of iterations is the largest that fits into the time given, or one when none fits, and this determines it |
| Colocation.ChildAfter | KernelSim/src/KernelSim.cpp:180-187 | Every child asks to run when the host's recorded share has passed, stretched by the slowdown, and carries its kernel's type and length |
| KernelSim.Report | KernelSim/src/KernelSim.cpp:281-286 | The slowdown printed for a complete run is the time beyond the recording in percent of it; for recordings in order of time it is never negative for an app whose host is not sped up, and whatever the recordings are it is zero for a lone chain on an unslowed host whose last kernel closes the iteration |
| ColocationStructure.StructuralNext | KernelSim/src/KernelSim.cpp:53-279 | Every turn keeps: the queue holds each live kernel exactly once and no other, `count[t]` counts the running events of type `t`, at most one kernel runs, `ac[i]` counts the queued events of app `i`, and every kernel has finished once per iteration so far |
| ColocationStructure.StructuralInit | KernelSim/src/KernelSim.cpp:36-51 | All of this holds before the first turn |
| ColocationStructure.LiveAfterFinish | KernelSim/src/KernelSim.cpp:166-187 | Finishing a kernel makes its children live, itself no longer live, and leaves every other kernel as it was |
| ColocationTiming.TimingNext | KernelSim/src/KernelSim.cpp:53-279 | For recordings in order of time every turn keeps: no event lies in the past, no event is ahead of the recording, and no finished iteration was shorter than recorded; the clock does not go back |
| ColocationTiming.NotEarlyRescale | KernelSim/src/KernelSim.cpp:142-237 | Rescaling a copy from one number of sharers to another never makes it earlier than recorded |
| ColocationTiming.IterationLasted | KernelSim/src/KernelSim.cpp:260-273 | An iteration with nothing in flight lasted at least as long as recorded, and so did all before it |
| ColocationSchedule.ScheduledNext | KernelSim/src/KernelSim.cpp:64-257 | Every turn keeps: the running kernel ends at `k_sch` |
| ColocationSchedule.RetryGoesPast | KernelSim/src/KernelSim.cpp:81-92 | Whatever the event times are, a kernel that finds the GPU busy is put off to just after the running kernel ends, which is not before now |
| ColocationRuns.ReachableSchedule | KernelSim/src/KernelSim.cpp:64-257 | In every state of every run `k_sch` is when the running kernel ends |
| ColocationRuns.ReachableStructure | KernelSim/src/KernelSim.cpp:40-277 | The structural invariant holds in every state of every run |
| ColocationRuns.ReachableTiming | KernelSim/src/KernelSim.cpp:40-277 | For recordings in order of time the timing invariant holds in every state of every run |
| ColocationRuns.TurnEnds | KernelSim/src/KernelSim.cpp:53-277 | A turn leaves an app's counter and runtime alone, or it was busy and stays so unless the turn finishes the only event it has in flight, in its last iteration, and sets the runtime to now |
| ColocationRuns.RuntimeIsSet | KernelSim/src/KernelSim.cpp:260-274 | In every state of every run an app has nothing in flight if and only if a turn so far finished its last event; until then it was busy, and since then its runtime is the clock of that turn |
| ColocationRuns.RuntimesAreSet | KernelSim/src/KernelSim.cpp:48-285 | When the queue is empty every app's runtime is the clock of the turn that finished its last event |
| ColocationRuns.ReplayedInFull | KernelSim/src/KernelSim.cpp:48-279 | When the queue is empty every kernel of every app has finished exactly as often as the app has iterations, at least once |
| ColocationRuns.NoSpeedUp | KernelSim/src/KernelSim.cpp:104-285 | For recordings in order of time sharing the machine never speeds an app up whose host is not: its runtime is at least its iterations times its recorded length |
| ColocationRuns.TurnDescends | KernelSim/src/KernelSim.cpp:53-279 | Whatever the event times are, every turn lowers the measure: executions still to finish, then submitted events, then kernels that would find the GPU busy; so every run ends |
| ColocationRuns.ClockForward | KernelSim/src/KernelSim.cpp:58-58 | For recordings in order of time the clock is monotone within a run |
| ColocationTheorems.ClockAdvancesIffOrdered | KernelSim/src/KernelSim.cpp:180-207 | A complete run's clock moves forward if and only if every kernel was recorded to start after the one it waits for has ended |
| ColocationTheorems.LoneChainIsExact | KernelSim/src/KernelSim.cpp:53-285 | A lone app whose kernels form a chain takes exactly its iterations times the period of the chain, for every slowdown of the host |
| ColocationTheorems.PeriodStretched | KernelSim/src/KernelSim.cpp:180-207 | The period of a chain is its recorded length and, beyond it, the host's share times the slowdown; on an unslowed host it is the recorded length |
| ColocationTheorems.GapsAre | KernelSim/src/KernelSim.cpp:180-207 | The host's share of a chain is the recorded time without the kernels |
| ColocationTheorems.LoneChainNotSpedUpIff | KernelSim/src/KernelSim.cpp:180-285 | A lone chain takes at least its recorded time if and only if the host's recorded share times the slowdown is not negative, recordings out of order included |
| ColocationTheorems.EventuallyFinishes | KernelSim/src/KernelSim.cpp:165-187 | In a complete run every kernel finishes at some turn |
| ProcessorSharing.TurnRefinesSharing | KernelSim/src/KernelSim.cpp:97-257 | Seen from either copy channel, a turn is: time passes on an ideal shared channel, then the same copy joins, or leaves with nothing left to do; no other copy's remaining work changes |
| ProcessorSharing.ServeConservesRate | KernelSim/src/KernelSim.cpp:142-237 | The total remaining work on a busy channel falls at rate exactly one, whoever is on it |
| ProcessorSharing.RescaleKeepsOrder | KernelSim/src/KernelSim.cpp:142-237 | Rescaling keeps the order of finish times and finishes nothing before now |
| ProcessorSharing.CopyJoins | KernelSim/src/KernelSim.cpp:98-162 | Joining adds one full-length job to the ideal channel and changes no other |
| ProcessorSharing.CopyLeaves | KernelSim/src/KernelSim.cpp:193-257 | Leaving removes one finished job from the ideal channel and changes no other |
| TraceLoader.LoadTrace | KernelSim/src/KernelSim.cpp:324-411 | The linked kernels built from a trace are the tree that `Load` describes, parent and child pointers included, between first and last kernel; failures are the same |
| TraceLoader.AddRecord | KernelSim/src/KernelSim.cpp:364-403 | One record is hung where `Place` says, or refused with the same error |
| TraceLoader.FindBrother | KernelSim/src/KernelSim.cpp:375-388 | The backward search stops at the last brother that has ended |
| TraceLoader.Link | KernelSim/src/KernelSim.cpp:396-403 | Linking a kernel below a parent that has none of its type changes these two kernels only |
| TraceLoader.Kernel.AddNextKernel | KernelSim/src/App.h:63-67 | A child is added exactly when no child of its type is there |
| KernelTrace.PlaceKeeps | KernelSim/src/KernelSim.cpp:364-403 | Every record keeps the tree rooted, its links in order of time and brothers of different types |
| KernelTrace.LoadedIsTree | KernelSim/src/KernelSim.cpp:324-411 | Every accepted trace is a rooted tree with inverse links and differing brothers; all its links are in order of time, but the last, which is so exactly when the last record ends within the iteration |
| KernelTrace.LoadedInOrder | KernelSim/src/KernelSim.cpp:328-405 | The loaded kernels are records of the trace, in their order |
| KernelTrace.LoadedIsRecorded | KernelSim/src/KernelSim.cpp:328-405 | Between head and closing kernel there is nothing that was not recorded |
| KernelTrace.LastIsLeaf | KernelSim/src/KernelSim.cpp:365-411 | The last kernel never has a child, so that adding below it, or adding the tail, cannot fail |
| KernelTrace.NullParentIffNegativeStart | KernelSim/src/KernelSim.cpp:365-376 | The parent of the head is followed exactly when the first record starts before zero, and `invalid type[0]` is never printed |
| KernelTrace.AttachOrdered | KernelSim/src/KernelSim.cpp:366-411 | Hanging a kernel below another keeps the order in time exactly when that one has ended |
| KernelProgram.ClockAdvancesIffTracesEndInside | KernelSim/src/KernelSim.cpp:23-423 | For accepted traces the simulated clock moves forward if and only if every app's last recorded kernel ends within its iteration |
| KernelProgram.OverlongSpedUp | KernelSim/src/KernelSim.cpp:364-411 | A trace that loading accepts, of one kernel longer than the iteration, on which an app with a slowed host finishes at time zero |
| KernelProgram.LoadedApp | KernelSim/src/KernelSim.cpp:324-411 | A loaded trace meets what the simulator asks, and is in order of time exactly when its last kernel ends inside |
| SyncQueues.Benchmark.AddSyncQueuesAndBarrier | benchmarks/scripts/tf_cnn_benchmarks/benchmark_cnn.py:3389-3411 | The operations built add exactly one token to every other worker's queue and none to the own, and take once, as many tokens as there are other workers; the queues live on the next device in turn |
| SyncQueues.StepKeeps | benchmarks/scripts/tf_cnn_benchmarks/benchmark_cnn.py:3389-3411 | Every step of every worker keeps: no token is lost or made, no queue holds more than the number of workers, and nobody has completed a round that another has not worked for |
| SyncQueues.FirstToComplete | benchmarks/scripts/tf_cnn_benchmarks/benchmark_cnn.py:3396-3411 | The first worker to complete a round has in effect been given a token of it by every other, although tokens are anonymous |
| SyncQueues.BarrierSafe | benchmarks/scripts/tf_cnn_benchmarks/benchmark_cnn.py:2123-2127 | Once any worker has completed a round every worker has done its work of it; completed rounds never differ by more than one |
| SyncQueues.DrainedHasRoom | benchmarks/scripts/tf_cnn_benchmarks/benchmark_cnn.py:3392-3409 | A worker that has taken its tokens of the round has room in its queue |
| SyncQueues.SomebodyCanMove | benchmarks/scripts/tf_cnn_benchmarks/benchmark_cnn.py:3389-3411 | As long as a worker has rounds ahead some worker can move, even if a worker takes all its tokens in one go |
| SyncQueues.EveryRoundCompletes | benchmarks/scripts/tf_cnn_benchmarks/benchmark_cnn.py:3389-3411 | Every run ends within a bound, and it ends with every round completed by everybody and all queues empty |
| SyncQueues.TokensStandIn | benchmarks/scripts/tf_cnn_benchmarks/benchmark_cnn.py:3399-3409 | A run in which both tokens a worker takes come from the same, faster worker |
| Ranges.ExtractRanges | benchmarks/scripts/tf_cnn_benchmarks/allreduce.py:466-500 | The ranges and singles are those of the list's cut into stretches of consecutive indices that end only at a gap or when full |
| Ranges.CutUnique | benchmarks/scripts/tf_cnn_benchmarks/allreduce.py:484-500 | There is only one such cut |
| Ranges.ExtractedPartition | benchmarks/scripts/tf_cnn_benchmarks/allreduce.py:466-500 | For increasing lists ranges and singles are disjoint, each in order, and together the list; a range has at least two indices and spans at most the limit plus one |
| Ranges.LimitExceeded | benchmarks/scripts/tf_cnn_benchmarks/allreduce.py:469-487 | A range of two indices more than the limit is not cut, so that the documented size is exceeded for every limit that is not negative |
| Ranges.LimitHoldsIff | benchmarks/scripts/tf_cnn_benchmarks/allreduce.py:469-500 | No range returned is larger than the limit if and only if no run of consecutive indices in the list is; with a limit of zero, if and only if no two indices are consecutive; below zero there are no ranges |
| Tensors.ElementsProduct | benchmarks/scripts/tf_cnn_benchmarks/allreduce.py:550-590 | The number of elements of a shape is multiplicative over its dimensions: one for none, the dimension itself for a single one |
| GradientAllReduce.PackRange | benchmarks/scripts/tf_cnn_benchmarks/allreduce.py:506-535 | The range's tensors are concatenated flat, and the dictionary is given indices, variables and shapes under the key, and nothing else |
| GradientAllReduce.UnpackGradTuple | benchmarks/scripts/tf_cnn_benchmarks/allreduce.py:538-557 | A packed gradient is split by the sizes of the shapes, each piece in its shape and beside its variable |
| GradientAllReduce.PackSmallTensors | benchmarks/scripts/tf_cnn_benchmarks/allreduce.py:560-613 | Every tower becomes its packed ranges followed by what is not packed, in order; what is packed are the longer ranges of small gradients of the first tower: only four-byte gradients of at most the given number of bytes, and of two such neighbours at least one; without any, nothing changes |
| GradientAllReduce.UnpackSmallTensors | benchmarks/scripts/tf_cnn_benchmarks/allreduce.py:616-644 | Every tower becomes what repeated insertion of its unpacked members makes of it |
| GradientPacking.UnpackPack | benchmarks/scripts/tf_cnn_benchmarks/allreduce.py:560-644 | Unpacking undoes packing: every gradient is back at its index, in its shape, beside its variable |
| GradientPacking.PackingCommutes | benchmarks/scripts/tf_cnn_benchmarks/allreduce.py:446-463 | Reducing packed gradients gives the packed reduction |
| GradientReduction.PackingInvisible | benchmarks/scripts/tf_cnn_benchmarks/allreduce.py:438-463 | Unpacking the reduction of the packed towers gives the reduction of the towers themselves |
| GradientAllReduce.SumGradientsAllReduce | benchmarks/scripts/tf_cnn_benchmarks/allreduce.py:438-463 | Whatever is packed and in whatever chunks: every gradient of every tower becomes the sum over all towers beside the tower's own variable |
| GradientAllReduce.ReduceTowers | benchmarks/scripts/tf_cnn_benchmarks/allreduce.py:445-461 | Transposing, reducing in chunks and transposing back reduces every gradient in place |
| Selection.InsertSmallest | benchmarks/scripts/tf_cnn_benchmarks/allreduce.py:638-641 | Inserting the first missing entry at its own index puts it back, and nothing else moves out of order |
| Selection.SortedKept | benchmarks/scripts/tf_cnn_benchmarks/allreduce.py:590-596 | Sorting the large and the single indices gives all indices that are not packed |
| BatchPacking.UnpackPack | benchmarks/scripts/tf_cnn_benchmarks/batch_allreduce.py:546-600 | Concatenating and splitting a device's tensors is undone exactly, for every number of splits |
| BatchPacking.PackingCommutes | benchmarks/scripts/tf_cnn_benchmarks/batch_allreduce.py:142-205 | Reducing the packs gives the packs of the reduction |
| BatchPacking.SplitSizesTotal | benchmarks/scripts/tf_cnn_benchmarks/batch_allreduce.py:568-573 | The split sizes are as many as asked for, never negative, and share out the whole |
| BatchAllReduce.BatchAllReduce | benchmarks/scripts/tf_cnn_benchmarks/batch_allreduce.py:117-205 | For every number of splits and every algorithm every device is given, for each tensor, the sum over the devices the algorithm counts; it fails exactly when the algorithm does |
| BatchPacking.SplitSizesEven | benchmarks/scripts/tf_cnn_benchmarks/batch_allreduce.py:568-573 | All split sizes but the last are the same, and the last is larger by less than the number of splits |
| BatchAllReduce.TensorPacker.MaybeSplitTensors | benchmarks/scripts/tf_cnn_benchmarks/batch_allreduce.py:559-574 | The single concatenated tensor is split, in order, into as many packs as asked for, all equally long but for the last, which is longer by less than that number; anything but a single tensor is refused |
| BatchAllReduce.TensorPacker.UndoMaybeConcatTensors | benchmarks/scripts/tf_cnn_benchmarks/batch_allreduce.py:583-600 | The single tensor is split into the remembered sizes and shapes; anything but a single tensor is refused |
| BatchAllReduce.UnpackedReduced | benchmarks/scripts/tf_cnn_benchmarks/batch_allreduce.py:172-199 | The packs after reduction unpack to the reduced tensors |
| ReduceAlgorithms.DoBatchAllReduce | benchmarks/scripts/tf_cnn_benchmarks/batch_allreduce.py:231-376 | Copying, hierarchical copying and reducing as gradients give all devices the sums over the devices counted |
| ReduceAlgorithms.ReduceByCopying | benchmarks/scripts/tf_cnn_benchmarks/batch_allreduce.py:231-239 | Every device shares the tensorwise sums |
| ReduceAlgorithms.ReduceHierarchically | benchmarks/scripts/tf_cnn_benchmarks/batch_allreduce.py:256-308 | Two group sums, added and broadcast, are the sums over twice half the devices; it fails for unknown topologies, other than eight devices in a GCP_V100 one, and a single device |
| ReduceAlgorithms.HierarchicalIsExactIff | benchmarks/scripts/tf_cnn_benchmarks/batch_allreduce.py:260-274 | With more than one device the result is the full sum if and only if their number is even or the last device has nothing but zeros |
| ReduceAlgorithms.MainDevicesApart | benchmarks/scripts/tf_cnn_benchmarks/batch_allreduce.py:310-334 | With an even number of devices each group is summed on a device of its own |
| ReduceAlgorithms.MainDevicesInTurn | benchmarks/scripts/tf_cnn_benchmarks/batch_allreduce.py:326-328 | All devices are the first main device in turn, so that no two of as many successive tensors as there are devices share one; the second is half of the devices away |
| ReduceAlgorithms.LinkedPairsInTurn | benchmarks/scripts/tf_cnn_benchmarks/batch_allreduce.py:329-337 | The two linked pairs are used in turn, each in both directions |
| ReduceAlgorithms.ReduceAsGradients | benchmarks/scripts/tf_cnn_benchmarks/batch_allreduce.py:358-376 | Reducing tensors as gradients without variables, small ones packed, gives the same sums |
| Deferral.Session | benchmarks/scripts/tf_cnn_benchmarks/batch_allreduce.py:142-205 | After one warm-up the first run returns zeros and every later run exactly the reduction of the inputs of the run before it, whichever of put and get goes first |
| Deferral.Run | benchmarks/scripts/tf_cnn_benchmarks/batch_allreduce.py:432-482 | One run reduces what the run before put into the staging areas and leaves one value, its own, in each |
| Deferral.Exchange | benchmarks/scripts/tf_cnn_benchmarks/batch_allreduce.py:450-456 | A device's tensors are exchanged for those of the run before, and no get ever waits |
| Deferral.WarmUp | benchmarks/scripts/tf_cnn_benchmarks/batch_allreduce.py:450-452 | After the warm-up every staging area holds one zero tensor |
| Deferral.OnePutEach | benchmarks/scripts/tf_cnn_benchmarks/batch_allreduce.py:504-512 | Every result waits for exactly one put operation, for every number of splits: that of its own tensor, or of the one concatenated tensor |
| Deferral.EveryPutAwaited | benchmarks/scripts/tf_cnn_benchmarks/batch_allreduce.py:504-512 | Every put operation is waited for by some result |
| DeviceGroups.GroupDeviceNames | benchmarks/scripts/tf_cnn_benchmarks/allreduce.py:183-192 | As many groups as needed, each of the group size, dealt out in turn; too large a group is refused |
| DeviceGroups.OnceOrTwice | benchmarks/scripts/tf_cnn_benchmarks/allreduce.py:174-192 | Every device is used once or twice, twice exactly the first few that fill the last places |
| DeviceGroups.TwiceInOneGroup | benchmarks/scripts/tf_cnn_benchmarks/allreduce.py:187-191 | In the groups dealt out, for distinct devices, some group holds a device twice exactly when it is among the first few and the number of groups divides the number of devices |
| ThreadBarrier.Barrier.WaitBegin | benchmarks/scripts/tf_cnn_benchmarks/cnn_util.py:93-106 | Arriving counts the thread or, for the last one, opens the next generation and wakes everybody up; only the others sleep |
| ThreadBarrier.Barrier.WaitAgain | benchmarks/scripts/tf_cnn_benchmarks/cnn_util.py:104-106 | A thread that wakes up sleeps again until its generation is over |
| ThreadBarrier.Barrier.AbortAll | benchmarks/scripts/tf_cnn_benchmarks/cnn_util.py:111-117 | Disabling opens the next generation exactly when somebody waits |
| ThreadBarrier.StepKeeps | benchmarks/scripts/tf_cnn_benchmarks/cnn_util.py:93-117 | Every step of every thread, spurious wakeups included, keeps: `waiting` is the number of threads blocked in the current generation and below `parties`, past generations were complete, nobody sleeps through a release, and once disabled nobody is blocked |
| ThreadBarrier.LeavesWhenComplete | benchmarks/scripts/tf_cnn_benchmarks/cnn_util.py:104-106 | A thread leaves only when all parties have arrived in its generation, or the barrier was disabled |
| ThreadBarrier.DisabledReleases | benchmarks/scripts/tf_cnn_benchmarks/cnn_util.py:95-117 | After it is disabled every thread in it is awake and may leave, and nobody blocks again |
| ThreadBarrier.Synchronizes | benchmarks/scripts/tf_cnn_benchmarks/cnn_util.py:72-106 | With as many threads as parties a thread returns from its k-th wait only after every thread has called it k times |
| ImageProducer.ProducesInTime | benchmarks/scripts/tf_cnn_benchmarks/cnn_util.py:168-200 | Whenever the main thread wants a batch there is one, never more than two groups are unconsumed, and after `done` at most one more group is put |
| ImageProducer.MoveKeeps | benchmarks/scripts/tf_cnn_benchmarks/cnn_util.py:168-200 | Every step of the two threads keeps the relation between batches, groups and calls of `wait` that this rests on |
| ImageProducer.JoinReturns | benchmarks/scripts/tf_cnn_benchmarks/cnn_util.py:171-175 | Once the barrier is disabled the producer can always step until it has exited, and every step brings that nearer |
| ImageProducer.BothThreadsEnd | benchmarks/scripts/tf_cnn_benchmarks/cnn_util.py:168-200 | In every run there are at most five more steps once the barrier is disabled, and where no step is left `join` has returned and the producer has exited |
| ImageProducer.SomebodyCanMove | benchmarks/scripts/tf_cnn_benchmarks/cnn_util.py:168-200 | The two threads never deadlock |
| SplitDivisible.Split | cnn/models/mobilenet_conv_blocks.py:65-80 | The pieces sum to the number: after each the running total is the least multiple no less than the exact share rounded down, and each is the even piece rounded down or one divisor more; it is refused exactly as the first two assertions say |
| SplitDivisible.ShareIs | cnn/models/mobilenet_conv_blocks.py:75-75 | The share of the first so many pieces is the exact one, rounded down |
| SplitDivisible.LargestBase | cnn/models/mobilenet_conv_blocks.py:70-70 | The even piece is the largest multiple of the divisor of which as many as asked for fit |
| Suppression.Suppress | benchmarks/scripts/tf_cnn_benchmarks/coco_metric.py:168-178 | What the loop keeps is exactly what the definition keeps: a ranked box stays if and only if no kept box of higher rank suppresses it |
| Suppression.IntersectionIsLargest | benchmarks/scripts/tf_cnn_benchmarks/coco_metric.py:99-106 | The intersection is the largest area of a proper box inside both boxes, and zero when there is no such box |
| Suppression.AreaIs | benchmarks/scripts/tf_cnn_benchmarks/coco_metric.py:108-111 | What is taken for either area is that of the box between the candidate's upper left and the target's lower right corner: the target's own if the boxes share the former, the candidate's own if they share the latter |
| Suppression.PassesIff | benchmarks/scripts/tf_cnn_benchmarks/coco_metric.py:113-176 | A box is spared exactly when the intersection is below the criterion times the sum of both areas without the intersection, or above it when that sum is negative, and never when it is zero |
| Suppression.OverlapIsTrueIff | benchmarks/scripts/tf_cnn_benchmarks/coco_metric.py:96-113 | The overlap computed is intersection over union if and only if nothing is common to the boxes or the area taken for both is the mean of theirs |
| Suppression.HalfApart | benchmarks/scripts/tf_cnn_benchmarks/coco_metric.py:96-113 | Two unit boxes half apart, of overlap a third: at a criterion of one half the left one suppresses the right one and the right one spares the left one |
| Suppression.LikelyAre | benchmarks/scripts/tf_cnn_benchmarks/coco_metric.py:157-161 | A class takes part with exactly the boxes that score more than 0.05 in it, in order |
| Suppression.LoopEndsIff | benchmarks/scripts/tf_cnn_benchmarks/coco_metric.py:172-178 | The loop ends if and only if every box that the definition keeps suppresses itself, and then within as many turns as there are boxes |
| Suppression.EndsForAllScoresIff | benchmarks/scripts/tf_cnn_benchmarks/coco_metric.py:157-178 | The loop ends for a class whatever its scores and however equal ones are ordered if and only if every box suppresses itself, or a negative `max_num` takes all boxes away |
| Suppression.InsideOutForEver | benchmarks/scripts/tf_cnn_benchmarks/coco_metric.py:168-178 | With a box turned inside out and a criterion of one half the loop never ends |
| Suppression.SelfSuppressesIff | benchmarks/scripts/tf_cnn_benchmarks/coco_metric.py:96-113 | A proper box suppresses itself when the criterion is at most one, an empty one always, one turned inside out only when the criterion is not positive |
| Suppression.CandidatesInOrder | benchmarks/scripts/tf_cnn_benchmarks/coco_metric.py:164-182 | The candidates are distinct, in order of their scores, and none overlaps a better one |
| Suppression.DecodeSingle | benchmarks/scripts/tf_cnn_benchmarks/coco_metric.py:144-198 | The result is the last, by score, of all classes' detections, without the background; it is the dummy exactly when no box scores high enough for any class |
| Suppression.LastOfIs | benchmarks/scripts/tf_cnn_benchmarks/coco_metric.py:164-196 | The slice from the end keeps the last so many, everything for zero, and for a negative number all but the first so many |
| Suppression.BestAreReturned | benchmarks/scripts/tf_cnn_benchmarks/coco_metric.py:196-198 | No detection that is left out is better than one that is returned |

## Left out

- KernelSim.SimColocation: that nobody is sped up is stated for recordings in order of time whose tail ends the iteration, with durations that are not negative and a host not sped up beyond its gaps; for recordings out of order, termination, the counts of replays and ColocationTheorems.ClockAdvancesIffOrdered remain.
- KernelSim.Report: an app's length must not be zero, by which the program divides.
- Floating-point rounding, in the simulator as well as in tensors and scores; the conversion of the number of iterations to a machine integer is taken as unbounded.
- Reading traces and configuration from files, skipping `[CUDA_memset]` lines, stream numbers, and all printing, including the verbose look at the queue after its last event was popped.
- The bandwidth fields of kernels and events: `Event::setKernel` does not copy them, so that they stay zero.
- The value of `rt` before it is first assigned is left arbitrary.
- SyncQueues.BarrierSafe: the tokens are counted, not listed; they are all alike.
- The TensorFlow runtime: an all-reduce is the elementwise sum, a queue is first-in first-out with its capacity, a staging area first-in first-out without one. Device placement is not modelled, so neither is the lookup of the first element of a packed tensor that is empty.
- GradientAllReduce.SumGradientsAllReduce: which auxiliary devices each reduction uses is not modelled, nor is the choice among NCCL, ring and shuffle algorithms.
- The dictionary keys of packing are pairs of numbers in place of strings of the form `device:position`.
- BatchAllReduce.BatchAllReduce: taking the mean in place of the sum, compacting to half precision and XLA compilation are left out, and the number of splits is a number (zero stands for none); the mean is never asked for by the repository, compacting is lossy.
- Deferral.Session: it is the variant without XLA compilation, and the number of splits is a number: with none given as a missing value the program's assertion on control dependencies fails unless there is one tensor.
- The choice of `threading.Barrier` in place of the repository's own, and interrupts of the main thread while it waits.
- SplitDivisible.Split: it asks for positive `num_ways` and `divisible_by`, by which the program divides; `_make_divisible`, which rounds a floating-point number, is left out.
- Suppression.DecodeSingle: it asks that the loop of every class ends, which Suppression.LoopEndsIff and Suppression.EndsForAllScoresIff decide; labels and scores of the result are one record per detection in place of three arrays.
- Parsing all-reduce specifications, cluster management, flags, data sets, model definitions and the training loop.
