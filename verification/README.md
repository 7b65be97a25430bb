# Stellar-Bench: the round protocol, the strided kernel and their arithmetic

Stellar-Bench factorises a rating matrix P x Q on several machines. A parameter server (PS) cuts P and
Q into blocks, sends every worker one P block and one Q block by RDMA write, lets it run stochastic
gradient steps on the pair, takes the pair back, and starts the next round when every worker has
answered. Nothing is locked: all coordination is by counters, two flags (`can_send`, `can_recv`) and a
READY message per frame. This project models that protocol with all its threads, proves that it
computes what a sequential loop would compute, and settles when it terminates. It also proves that the
CUDA kernel gives the same result under every interleaving, and the sizes and bounds both rely on.

## How it is put together

- `Arith`, `Vectors`, `Params`: facts about products and quotients; products and norms of vectors; the
  program's sizes.
- `Cells`: memory in cells (one `int` field or one `double`), and reading a frame's length and ids
  back from its headers. `Frames`: blocks, frames, packing and unpacking on arrays.
- `Link`: one RDMA connection, all its handlers and threads, one access to shared memory per step.
  `Connections`: the same as objects updated in place, each method proved equal to its step.
- `Rounds`: the PS and any number of workers, with a connection down and one up for each; any thread
  may take the next step. CanMerge reads one `recved_iter` entry per step, packing, the write and
  unpacking move one cell per step, and computing does one sample per step.
- `Invariant`: the inductive invariant. Everything it says about worker i is relative to the round r
  unpacked last from it: `body`, the pair after r computations; `dn`, the frame that carries it down;
  `bk`, the frame that comes back. The counters around the ring differ by at most one, so in each ring
  a single thread holds the round.
- `Safety`, `Progress`, `Liveness`: what follows from it. `Races`: what slow threads can bring about.
  `Fairness`: endless schedules. `Processes`: the main loops of the two programs and the bodies of the PS's threads, on their global variables and arrays. `Clusters`: all
  objects of a run together, under any schedule; every run of the objects is a run of `Rounds`, so the
  results below hold of the objects.
- `Partition`, `Sgd`: partitionBlock and FakeSubMF, as functions and in place.
- `Kernel`, `KernelLoops`, `Shuffling`, `Gpu`: `cuda_mf` one access at a time, its loop nest, the
  shuffles, and `gpu_mf`.
- `System`: the program's own blocks, arithmetic and 1200 rounds put into the protocol; end to end.

## Main results

1. In every reachable state, outside an unpack, the PS's pair i is the initial pair after
   `recved_iter[i] + 1` computations; when round k merges, all pairs together are the state of the
   sequential loop after k rounds; and every step is a stutter or one step of a bulk-synchronous
   machine whose pairs are, before and after it, what the PS's memory holds.
2. At most one of the activities that touch a worker's pair or the buffers it travels through goes on
   at any time. Frames arrive once, in order, with the right age; no copy leaves its buffer.
3. `can_recv` stays true after the first frame (it is never cleared), so READY gives no back-pressure:
   the first READY waits for its frame to be read, but later ones need not, and states in which one is
   sent for an unread frame are reachable if and only if there are at least two rounds. Receive buffers
   are safe all the same, because of the counters.
4. The client posts a write and clears `can_send` afterwards. If the next frame is flagged in between,
   the clear wipes out the new flag and the run never ends. A reachable state can still reach the last
   round if and only if no flag is lost in this way (or the last merge is already done); such states
   are reachable if and only if there are three rounds or more, so the program's 1200 rounds can hang.
   An endless schedule in which every thread gets a turn again and again reaches the last round if and
   only if no flag is lost before the last merge; in particular if every clear comes before the next
   flag, or post and clear are one step. Fair schedules that never end exist if and only if there are
   three rounds or more.
5. `completed_iter <= to_send_age` holds on the worker whenever its guard is evaluated, which makes
   `==` as good as `<=`. Of the counters at other times it is false: with two rounds or more, and only
   then, every worker has a reachable state in which `to_send_age` is one behind, its thread being
   between raising the flag and `to_send_age++`.
6. A thread of the kernel takes each rated entry of its row and column class once and moves the two
   rows by the error, rating minus product. A launch leaves the same elements under every interleaving,
   and they are those of the loop nests run one after another; hence so do the 100 launches of
   `gpu_mf`, whose shuffles can produce every permutation, each in one way.
7. Frames fit the registered buffer if and only if there are at least three workers. With up to
   sixteen workers no row the PS holds ever leaves the ball of squared radius 666.6, except that a row
   which an unpack has replaced in part stays within twice that.

## Assumptions

- Each access to a counter, flag or cell is one sequentially consistent step.
- Verbs deliver reliably, in order and once; a message that finds no posted receive waits
  (rdma_two_sided_client_op.cpp:315); a write is announced when its data is in place.
- Both connections of every worker are established and each server still owes its MSG_MR.
- `double` is `real`; `random()` and the shuffles draw from arbitrary given values. `random_shuffle`
  trades entry i with one drawn from entries 0 to i, for i from 1 on, as the GNU C++ library does.

## Model

| member | source | states |
|---|---|---|
| Link.ClientKeepsCredit | rdma_two_sided_client_op.cpp:108-174 | each step of the client handler keeps exactly one right to post per connection and the receive accounting |
| Link.CtlKeepsCredit | rdma_two_sided_server_op.cpp:14-34 | delivering a control message moves the credit to the client and uses up the one posted receive |
| Link.WireKeepsCredit | rdma_two_sided_client_op.cpp:14-41 | the write in flight carries the credit and consumes exactly one receive of the server |
| Link.ServerKeepsCredit | rdma_two_sided_server_op.cpp:66-134 | each step of the server handler keeps exactly one credit, for the zero-length branch too |
| Link.CreditProtectsSlots | rdma_two_sided_server_op.cpp:62-74 | one credit means no message slot or wire is reused while in use, and a receive is posted when a write arrives |
| Link.SenderKeeps | ps.cpp:293-326 | a sending thread with nothing outstanding leaves a whole copy of the frame in the buffer and flags just that |
| Link.WireKeeps | rdma_two_sided_client_op.cpp:83-85 | a cell is transferred only while the receiving thread is not reading, and what has arrived is a prefix of the frame |
| Link.ReceiverKeeps | ps.cpp:339-394 | unpacking and counting a frame keeps the invariant of the connection |
| Connections.ClientContext.constructor | rdma_two_sided_client_op.cpp:90-106 | a registered client context: one receive posted, no flag raised, no address known |
| Connections.ConnContext.constructor | rdma_two_sided_server_op.cpp:49-64 | a registered server context: one receive posted, MSG_MR owed |
| Connections.Connection.constructor | rdma_two_sided_server_op.cpp:66-75 | a fresh connection is in the initial state of the link |
| Connections.Connection.ClientOnCompletion | rdma_two_sided_client_op.cpp:108-174 | the handler on its context, one access per call, does the client step of the link or waits exactly when that is not enabled |
| Connections.Connection.ServerOnCompletion | rdma_two_sided_server_op.cpp:66-134 | likewise for the server handler, both branches on the size |
| Connections.Connection.DeliverControl | rdma_two_sided_server_op.cpp:14-34 | the message read from the server's slot reaches the client's slot when a receive is posted |
| Connections.Connection.MoveWrite | rdma_two_sided_client_op.cpp:14-41 | the write copies the next cell of the send buffer as it is now, and completes into a posted receive |
| Connections.Connection.SendFrom | worker.cu:309-336 | one access of the worker's rdma_sendTd is the sender step of the link on the pair it packs from |
| Connections.Connection.SendStamped | ps.cpp:293-326 | one access of the PS's rdma_sendTd, which stamps both ages in the block array itself and then packs it, is the sender step of the link |
| Connections.Connection.ReceiveTurn | ps.cpp:339-394 | one turn of rdma_recvTd apart from the cell it copies |
| Connections.Connection.ReceiveFresh | worker.cu:349-400 | the worker copies the next cell into new memory |
| Connections.Connection.ReceiveInPlace | ps.cpp:339-394 | the PS copies the next cell in place, into the block that the header in the buffer names |
| Clusters.Node.constructor | worker.cu:90-93 | a worker with two fresh connections is in the initial state |
| Clusters.Node.LinkTurn | rdma_two_sided_client_op.cpp:108-174 | a handler or the wire moves its own connection as `Rounds` says and leaves the other connection, the memory and the counters alone |
| Clusters.Node.ComputeTurn | worker.cu:128-159 | one access of the worker's main thread is the compute step, and waits exactly while the round's pair is not there |
| Clusters.Node.ReceiveTurn | worker.cu:349-400 | one access of the worker's rdma_recvTd is the receiver step and fills the worker's memory |
| Clusters.Node.SendTurn | worker.cu:309-336 | one access of the worker's rdma_sendTd, under its equality guard, is the sender step |
| Clusters.Cluster.constructor | ps.cpp:72-134 | counters, connections and workers around the PS's block arrays start in an initial, hence reachable, state of the protocol |
| Clusters.Cluster.MergeTurn | ps.cpp:142-201 | one access of the PS main thread on its globals is the merge step |
| Clusters.Cluster.SendDown | ps.cpp:293-326 | one access of the PS's sending thread on the block arrays is the protocol step and touches no other worker's objects |
| Clusters.Cluster.ReceiveUp | ps.cpp:339-394 | likewise for the receiving thread, which writes into whichever block array the buffer names |
| Clusters.Cluster.Turn | ps.cpp:285-395 | any thread, handler or wire can be scheduled next: the objects move by just the step of `Rounds`, or not at all when it is not enabled |
| Clusters.Cluster.Run | ps.cpp:142-168 | after any schedule of turns, up to the PS's exit, the objects are in the state the protocol assigns to that schedule, and it is reachable |
| Clusters.SchedulesAreRuns | ps.cpp:142-168 | the states that schedules lead to, with threads waiting when they must, are exactly those that runs of the protocol lead to |
| Invariant.FoldKeepsShape | worker.cu:203-244 | any number of samples leaves ids, indices, heights, sizes and ages of the pair as they were |
| Invariant.BodyKeepsShape | ps.cpp:277-278 | headers of the pair are those of the partition after every round |
| Invariant.Chain | ps.cpp:173-201 | the counters of one ring decrease along it and the ends differ by at most one |
| Invariant.DownSenderKeeps | ps.cpp:302-321 | stamping and packing on the PS, under its guard, keep the worker's invariant |
| Invariant.UpSenderKeeps | worker.cu:312-328 | packing on the worker, under its equality guard, keeps it |
| Invariant.DownReceiverKeeps | worker.cu:352-397 | unpacking on the worker keeps it |
| Invariant.InPlaceHitsOwnBlock | ps.cpp:356-383 | the block named by the headers in worker i's buffer is block i |
| Invariant.UpReceiverKeeps | ps.cpp:348-390 | unpacking in place keeps the invariant and touches no other block |
| Invariant.UpCountKeeps | ps.cpp:387-387 | counting the frame turns round r into round r + 1 with everything quiet |
| Invariant.ComputeKeeps | worker.cu:128-159 | the compute loop, sample by sample, keeps it |
| Invariant.MergeKeeps | ps.cpp:142-168 | reading `recved_iter` entry by entry and the two updates of a merge keep it |
| Invariant.StepKeeps | ps.cpp:285-395 | every step of every thread keeps the global invariant and changes one worker and its block only |
| Invariant.ReachableInv | ps.cpp:142-168 | the invariant holds in every reachable state of every interleaving, for any number of workers |
| Safety.CounterChain | ps.cpp:142-201 | all counters of all rings are ordered in every reachable state and no two workers are more than one round apart |
| Safety.EqualityGuardSuffices | worker.cu:174-184 | whenever the guard is read `==` and `<=` agree; between the flag and `to_send_age++` the counter can be behind, by one at most |
| Safety.SeqRoundsAt | ps.cpp:142-168 | the sequential loop over rounds and workers yields k computations of every pair |
| Safety.BlocksAreComputed | ps.cpp:356-387 | outside an unpack the PS's pair is the initial one after `recved_iter + 1` computations; during one, where old and new cells meet |
| Safety.MergeRefinesSequential | ps.cpp:142-168 | at the merge of round k the PS holds the sequential state after k rounds |
| Safety.StepRefinesBsp | ps.cpp:387-387 | every step is a stutter, or one step of a machine in which no worker runs ahead of another; before and after it the machine's pairs are the blocks in the PS's memory outside an unpack, and a counted block is the machine's new pair |
| Safety.OneActivity | ps.cpp:302-384 | staging, transfer, unpacking, computing and merging exclude each other without locks |
| Safety.OtherBlocksUntouched | ps.cpp:88-93 | threads of different workers never touch the same block |
| Safety.ReceiveBufferSafe | ps.cpp:348-390 | a receive buffer is written only after all earlier frames are unpacked and holds the whole frame while read, although `can_recv` is true from the first frame on |
| Safety.SendBufferSafe | worker.cu:312-328 | a send buffer is refilled only after its last write was delivered; a write in flight carries the frame it announced |
| Safety.StagingInBounds | ps.cpp:304-317 | packing and transfer stay inside their buffers |
| Safety.UnpackingInBounds | ps.cpp:356-383 | the length and destination taken from the buffer are those of the worker's own block |
| Safety.OneCredit | rdma_two_sided_server_op.cpp:83-131 | exactly one credit per connection in every reachable state; the message it travels in is MR before the first frame and READY ever after |
| Safety.LengthIsDelivered | rdma_two_sided_server_op.cpp:85-113 | the length announced with a write is that of the frame it carries, through every step of the handler, and `buf_len` is the length of the frame received last, hence of the one being unpacked |
| Safety.LogEffect | ps.cpp:319-321 | only raising the flag and counting a frame extend the histories, by the staged and the unpacked frame |
| Safety.ExactlyOnceInOrder | worker.cu:353-396 | frames unpacked are a prefix of frames flagged, at most one behind, and frame k has the contents of round k |
| Safety.AgesCountFrames | ps.cpp:310-311 | frame k carries `data_age` k in both headers, in either direction |
| Safety.ShapesAreConserved | ps.cpp:358-383 | every frame that arrives describes the block made by the partition |
| Progress.LinkMoves | rdma_two_sided_client_op.cpp:112-168 | a flagged frame whose flag is not lost can always be moved on by some handler, wire or thread |
| Progress.SomeoneMoves | ps.cpp:142-168 | without a lost flag some step other than polling is enabled |
| Progress.StepAdvances | ps.cpp:142-168 | every step other than polling raises the measure, polling leaves it |
| Progress.PosBounded | ps.cpp:163-166 | the measure is bounded up to the last round |
| Progress.RunsAreBounded | ps.cpp:142-168 | every run has a bounded number of steps that are not polling |
| Liveness.DoomedNeverExits | rdma_two_sided_client_op.cpp:135-138 | after a flag is lost no schedule reaches the last round |
| Liveness.StepKeepsUnlost | rdma_two_sided_client_op.cpp:145-152 | only flagging over a pending clear loses a flag |
| Liveness.OvertakingLoses | rdma_two_sided_client_op.cpp:149-151 | flagging over a pending clear does lose it |
| Liveness.CanFinish | ps.cpp:142-168 | without a lost flag there is a run to the last round |
| Liveness.FinishableIffNotDoomed | rdma_two_sided_client_op.cpp:135-152 | a reachable state can finish if and only if it is not doomed |
| Liveness.ReachDoom | rdma_two_sided_client_op.cpp:135-137 | holding back one pending clear drives the system into a doomed state |
| Liveness.DoomIffThreeRounds | rdma_two_sided_client_op.cpp:149-152 | doomed states are reachable if and only if there are at least three rounds |
| Liveness.AtomicPostsArePrompt | rdma_two_sided_client_op.cpp:135-137 | if post and clear are one step no frame is flagged over a pending clear |
| Liveness.PromptRunsFinish | ps.cpp:142-168 | runs that clear before the next flag are never stuck before the last round and have boundedly many steps that are not polling |
| Liveness.AtomicRunsFinish | rdma_two_sided_client_op.cpp:135-137 | runs whose posts and clears are one step can, before the last round, always go on with one more such step that is not polling |
| Liveness.ExitHasAllResults | ps.cpp:163-166 | at exit the results of all ages but the last have been unpacked from every worker |
| Races.CounterLagsIffTwoRounds | worker.cu:312-328 | a reachable state in which `completed_iter <= to_send_age` fails on worker i exists if and only if there are two rounds or more |
| Races.FirstReadyWaits | rdma_two_sided_server_op.cpp:105-129 | no READY is on its way for an unread frame before the first frame has been read |
| Races.ReadyComesEarlyIffTwoRounds | rdma_two_sided_server_op.cpp:105-129 | READY for a frame nobody has read can be on its way, on any connection, if and only if there are two rounds or more |
| Fairness.FairScheduleEndsIffNeverDoomed | ps.cpp:142-168 | an endless schedule that keeps giving every thread turns reaches the last round if and only if no flag is lost before the last merge |
| Fairness.PromptSchedulesEnd | rdma_two_sided_client_op.cpp:135-138 | it does if every clear comes before the next flag |
| Fairness.AtomicSchedulesEnd | rdma_two_sided_client_op.cpp:135-137 | it does if post and clear are one step |
| Fairness.FairAtomicScheduleExists | rdma_two_sided_client_op.cpp:135-137 | there are such fair schedules whatever the number of rounds |
| Fairness.FairScheduleHangsIffThreeRounds | rdma_two_sided_client_op.cpp:149-152 | a fair schedule that never reaches the last round exists if and only if there are three rounds or more |
| Processes.ParameterServer.constructor | ps.cpp:72-93 | the PS's counters before the first round |
| Processes.ParameterServer.CanMerge | ps.cpp:173-188 | true exactly when no worker is behind, at any length |
| Processes.ParameterServer.MainLoop | ps.cpp:142-168 | one pass merges or changes nothing, and says whether the process exits, just when the counter has reached the last round |
| Processes.MainLoopIsSteps | ps.cpp:142-168 | an uninterrupted successful pass is a run of the main thread's steps |
| Processes.StageFrame | ps.cpp:302-317 | both ages are stamped in the global blocks, and the buffer parses back to the stamped pair |
| Processes.UnpackFrame | ps.cpp:356-384 | the blocks named in the buffer become what it holds, in their own arrays; others stay |
| Processes.WorkerProcess.constructor | worker.cu:90-93 | the worker's counters before the first round |
| Processes.WorkerProcess.MainLoop | worker.cu:128-159 | one pass runs FakeSubMF once when the pair of the round is there, or changes nothing |
| Frames.FrameRoundTrip | ps.cpp:304-317 | unpacking a packed pair gives back both blocks whatever stale cells follow |
| Frames.ParseRoundTrip | worker.cu:360-382 | a well-typed frame is the image of the blocks it parses to |
| Frames.PutHeader | ps.cpp:313-313 | the header fields are copied to their offsets |
| Frames.PutElements | ps.cpp:314-314 | the elements are copied behind the header, nothing else changes |
| Frames.PackBlock | ps.cpp:313-314 | a block's image is put at its offset |
| Frames.PackPair | worker.cu:315-325 | the buffer starts with the frame, keeps its tail, and parses back to the pair |
| Frames.GetElements | ps.cpp:367-369 | an element array is filled from the buffer |
| Frames.UnpackBlockFresh | worker.cu:362-371 | a block in new memory, equal to what the buffer holds |
| Frames.UnpackPairFresh | worker.cu:360-382 | both blocks, the second found through the header of the first |
| Frames.UnpackBlockInPlace | ps.cpp:356-370 | the named block takes what the buffer holds, in the array it already has |
| Partition.NewBlock | ps.cpp:265-278 | the fields of one entry and a new element array of its size |
| Partition.PartitionBlock | ps.cpp:258-282 | every block gets the id, start, height, size and a new array of its own; later entries stay |
| Partition.Tiles | ps.cpp:261-276 | heights add up to the rows, and row x lies in block x / ceil(rc / p) only |
| Partition.PartsTile | ps.cpp:265-276 | by the start indices and heights stored in the blocks, every row belongs to exactly one block |
| Partition.HeightByBranch | ps.cpp:268-275 | the branch computes the height of each block, between 0 and the rounded-up quotient |
| Partition.NonEmptyIff | ps.cpp:261-276 | no block is empty if and only if (p - 1) ceil(rc / p) < rc |
| Partition.SquareSuffices | ps.cpp:261-276 | (p - 1)^2 < rc is enough |
| Partition.BlocksNonEmpty | worker.cu:220-221 | with the program's sizes FakeSubMF's moduli are positive for 1 to 791 workers |
| Partition.FrameFitsIff | ps.cpp:304-308 | all frames fit the buffer if and only if there are at least three workers |
| Partition.LengthSurvivesImmediate | rdma_two_sided_client_op.cpp:26-26 | the frame length is not zero and survives the 32-bit immediate |
| Partition.IntsDoNotOverflow | ps.cpp:261-277 | the int arithmetic of the partition stays below 2^31 |
| Sgd.SampleShrinks | worker.cu:228-238 | a sample shrinks both rows it touches by the factor 1 - yita theta at least |
| Sgd.SampleMovesPrediction | worker.cu:226-238 | exactly how a sample changes the product of the two rows it draws, and each of their elements; all other rows stay |
| Sgd.SamplesSplit | worker.cu:213-243 | samples taken in two goes are those taken in one, the second go using the later random numbers |
| Sgd.SampleKeepsRows | worker.cu:215-243 | and leaves all other rows as they are |
| Sgd.SamplesKeepBound | worker.cu:203-244 | the bound on all rows holds after any number of samples, whatever is drawn |
| Sgd.InitialRowsBounded | ps.cpp:122-134 | the initial rows of worker i are within the bound if and only if i <= 15 |
| Sgd.Predict | worker.cu:228-231 | the loop computes the product of the two rows |
| Sgd.UpdateRows | worker.cu:234-238 | the in-place loop moves each element of the P row by 0.001 (error q - 0.05 p), each of the Q row by the new P row, and no other element |
| Sgd.FakeSubMF | worker.cu:203-244 | the method on arrays computes the 90000 samples and keeps the bound |
| Kernel.MicroLocal | cuda_kernel_mf.cu:2-28 | a thread's step depends on nothing but the rows and columns of its residues |
| Kernel.MicroLeavesOthers | cuda_kernel_mf.cu:2-28 | and changes nothing that another thread owns |
| Kernel.AccessInRange | cuda_kernel_mf.cu:13-26 | every access is inside the arrays |
| Kernel.LaunchIsSolo | cuda_kernel_mf.cu:2-28 | after any interleaving each thread is where it would be alone and sees what it would see |
| Kernel.AnyTwoAgree | gpu_mf.cu:28-28 | two complete interleavings of a launch leave the same memory |
| KernelLoops.ThreadRuns | cuda_kernel_mf.cu:10-27 | the accesses of a thread add up to its loop nest, and it finishes |
| KernelLoops.ErrIsRatingMinusDot | cuda_kernel_mf.cu:13-19 | the accumulated error is the rating minus the product of the two rows |
| KernelLoops.EntryMovesRows | cuda_kernel_mf.cu:13-26 | an entry without a rating changes nothing; with one, each element of its row becomes 0.96 times itself plus 0.2 times the error times the column's, then likewise the column by the new row, and nothing else changes |
| KernelLoops.ThreadVisitsOwnEntries | cuda_kernel_mf.cu:10-12 | a thread takes all entries of its row class and column class, each once, row by row, and no others |
| KernelLoops.SerialSchedule | gpu_mf.cu:28-28 | running the threads one after another is one of the interleavings |
| KernelLoops.LaunchIsSerial | gpu_mf.cu:28-28 | a memory is the result of some complete interleaving if and only if it is the serial result |
| KernelLoops.AllLaunchesAreSerial | gpu_mf.cu:19-29 | the same if and only if over any sequence of launches, each interleaved in its own way |
| Gpu.EntryError | cuda_kernel_mf.cu:13-19 | the rating minus the product of the two rows, or zero where there is no rating |
| Gpu.UpdateEntry | cuda_kernel_mf.cu:21-26 | the update loop moves the elements of the two rows by the error, with the source's 0.2, the column seeing the new row, and no other element |
| Gpu.CudaMf | cuda_kernel_mf.cu:2-28 | one thread on the arrays computes its loop nest, skipping entries without a rating |
| Gpu.RandomShuffle | gpu_mf.cu:24-25 | the ids end up where the draws put them: `Shuffled` of what they were, again a permutation |
| Gpu.ShuffleIds | gpu_mf.cu:20-25 | both id arrays are the identity shuffled by their own draws |
| Shuffling.EveryPermutationIsDrawn | gpu_mf.cu:24-25 | every permutation is the shuffled identity for some draws |
| Shuffling.SameShuffleIffSamePicks | gpu_mf.cu:24-25 | two sequences of draws give the same permutation if and only if they pick the same entry each time |
| Gpu.FillIds | gpu_mf.cu:20-23 | the id arrays start as the identity, a permutation |
| Gpu.LaunchSerially | gpu_mf.cu:28-28 | all threads of a launch, in order |
| Gpu.GpuMf | gpu_mf.cu:3-35 | after 100 launches, the n-th with the identity shuffled by the n-th draws, the host arrays hold the serial result of those launches |
| System.SetUpBlocks | ps.cpp:116-134 | both block arrays are partitioned, every element of P block i is i * 0.1 and every element of Q block i is i * 0.1 + 1, in arrays of their own |
| System.BlocksAreConfigured | ps.cpp:116-134 | the frames of blocks prepared in this way are where the protocol starts |
| System.UsableIff | mf_common.h:6-9 | at which numbers of workers the PS's arrays suffice, frames fit and FakeSubMF's moduli are defined: an arithmetic condition that all numbers from 3 to 791 meet |
| System.ConfigureIsValid | ps.cpp:116-134 | from three workers up to the CAP of the PS's arrays, the program's blocks and arithmetic meet every assumption of the protocol |
| System.FoldIsSamples | worker.cu:148-148 | computing on the protocol's cells is FakeSubMF on the elements |
| System.BodyIsFactors | worker.cu:139-151 | pair k of the protocol is the k-th result of FakeSubMF in the partition's blocks |
| System.FactorsAreOneRun | worker.cu:213-243 | k rounds are k times 90000 samples in one go, drawn from random() without a gap or a repetition |
| System.BufLenIsFrameBytes | rdma_two_sided_server_op.cpp:85-113 | in bytes, `buf_len` at either end is the length the PS staged for the worker |
| System.BlocksHoldFactors | ps.cpp:142-168 | end to end: in every reachable state, outside an unpack, the PS's blocks hold the iterates of FakeSubMF |
| System.BlocksBounded | ps.cpp:122-134 | with up to 16 workers all rows the PS holds stay bounded in every reachable state: by 666.6, or twice that while an unpack has replaced a row in part |
| System.ProgramCanHang | ps.cpp:163-166 | the program with its 1200 rounds can finish, it can get stuck for good, and some fair schedule of it never ends |
| System.ProgramRaces | worker.cu:312-328 | in the program every worker's `to_send_age` can lag, and READY can come before its frame is read on each connection |

## Left out

- Connection set-up and teardown, event loops, memory registration, completion queues: library calls.
- The one-sided code (client_rdma_op.cpp, server_rdma_op.cpp, rdma_common.cpp): not used by the rounds.
- test_send.cpp, test_recv.cpp, testHybrid: demonstrations with a weaker discipline.
- Weak memory, floating-point rounding, the quality of random numbers, sleeping and printing.
- `isP` and the raw `eles` pointer inside headers; `buf_prepared`; `wait4connection`, which is never called.
- The order of the assignments inside one unpacked header, and the worker's old element arrays, which leak: a frame is unpacked cell by cell in buffer order, on the worker into memory that starts empty.
- The shuffle of `worker_qidx` (ps.cpp:153) is commented out in the source: worker i always gets blocks i.
- What the worker processes still do after the PS has exited: runs end there.
- One or two workers, more than CAP (2000), and numbers that leave a block empty (System.UsableIff): frames overrun the buffer, the PS's arrays are too short, or FakeSubMF divides by zero. `System` speaks of all other numbers; the protocol results hold for any valid configuration.
- Link.SenderKeeps: the length is a number of cells here; System.BufLenIsFrameBytes converts it to bytes, and Partition.LengthSurvivesImmediate says that those survive the 32-bit immediate.
- Invariant.ComputeKeeps: a sample is one step; by Safety.OneActivity nobody else touches the pair meanwhile, so finer steps would show nothing new.
- Gpu.GpuMf: threads run in their serial order in this method; the other orders are the subject of KernelLoops.LaunchIsSerial.
