# Verified model of the rollout and training core

This project models the parts of the training framework in which lists, indices, real arithmetic and mutable state
do the work, and proves what they promise. Tensors are sequences of reals or tokens, numbers are unbounded, and the
collectives of a process group are "every rank sees every rank's input". Whatever the program leaves to its
surroundings is an oracle that a contract quantifies over: which task finishes next, what the filter says, what the
engine answers, which port is free.

| file | what it models |
|---|---|
| `Gae.dfy` | advantage estimation: the serial recurrence, the chunked parallel scan, the padded batch with its length-adaptive mode |
| `Balancing.dfy`, `Partitions.dfy` | Karmarkar–Karp differencing on a heap of mutable states, the checks around it, the biased greedy partitioner |
| `DataParallel.dfy` | trimming a rollout and splitting it over the data-parallel ranks |
| `Relayout.dfy`, `AllGather.dfy` | zigzag and contiguous context-parallel layouts, and the path that gathers and re-slices the whole stream |
| `AsyncTraining.dfy` | the one-ahead training loop with its weight pushes, the actor, and the queue of weight snapshots |
| `PartialRollout.dfy`, `WeightVersions.dfy` | groups that are aborted, wait in the buffer and are continued later, with the weights every token was generated under |
| `RolloutLoop.dfy` | submitting, finishing, dropping, retrying and aborting prompt groups |
| `SampleLifecycle.dfy` | one sample through generation, abort, requeueing, stripping and retry |
| `Engines.dfy` | port allocation, engine start and recovery, and the kills of the health monitor, node by node |
| `DataSource.dfy` | the resumable stream of shuffled epochs and its buffer |
| `PassAtK.dfy` | the pass@k estimator and the pass rates of a batch |
| `Packing.dfy` | first-fit micro-batch counting |
| `Sharding.dfy` | the shard writer with its index, and the chunker |
| `Whitening.dfy` | masked whitening by statistics over all ranks |
| `Arith.dfy`, `Sequences.dfy`, `Options.dfy` | shared integer facts, sums and permutations, and the option type |

The results a reader would start from:

- The chunked scan and the serial recurrence return the same advantages and returns on every row, for every chunk size:
  `Gae.KernelsAgree`.
- Differencing always merges the two states with the largest spreads; what it ends with covers every index once, leaves
  no part empty, and keeps part sums within the longest length, or within the widest sorted block when sizes must be
  equal: `Balancing.KarmarkarKarp`.
- The two context-parallel relayouts undo each other and are adjoint for the inner product, on any mix of zigzag and
  contiguous sequences: `Relayout.ZigzagRoundTrip`, `Relayout.PackedRoundTrip`, `Relayout.RelayoutIsAdjoint`.
- In every asynchronous run each rollout runs under one weight version, at most an update interval old
  (`AsyncTraining.TrainAsync`, `AsyncTraining.EveryIterationFresh`).  Its samples may hold older tokens: those trained on
  are all of that version in every run exactly if partial rollout is off, or masks earlier tokens, or no response may
  have a token, or no group can be in flight when a batch is full (`WeightVersions.AlwaysCurrentExactly`).  None can
  exactly if a fetch asks for just a batch and either that is one group, or there is no filter and every fetch is served
  in full: so it is with the default options and a data set no smaller than a batch
  (`PartialRollout.GivesBackExactly`).  Then the old log-probs of every trained token are taken under the version that
  generated it (`WeightVersions.OldLogProbsPerToken`).
- However often groups are sampled again, given back and continued, no position of the prompt stream is trained on twice
  in a run (`WeightVersions.TrainedOnce`).
- In every schedule of the rollout loop each submission is kept, dropped, surplus or aborted, and what is submitted is
  exactly what was fetched and the clones that are due: a prompt is submitted at most once plus its retries, and just so
  often if it is always dropped for a reason to sample it again (`RolloutLoop.GenerateRollout`,
  `RolloutLoop.PromptSubmissions`, `RolloutLoop.SampledAgainExactly`).
- Over any attempts a sample holds exactly what the engine said, and is continued, done or rewarded as the last reply
  demands: `SampleLifecycle.Attempts`.
- A recovery fails exactly if an engine is torn, its head up and another node down, and else puts all ports of a start
  above those of the starts before it, each free when it was asked for and the first such from the cursor on
  (`Engines.ServerGroup.StartEngines`, `Engines.Recover`).  Beside a health monitor
  whose kills go node by node, recoveries that never come halfway through a kill never fail (`Engines.RunSteps`).
- A resumed run hands out what the uninterrupted one does: always for the stream, and with a buffer exactly if that was
  empty (`DataSource.SaveAndResume`, `DataSource.SaveAndResumeBuffered`).

Where the code and what is said of it differ, the model follows the code and states the difference exactly:

- The length-adaptive lambda is documented to give the first token `k` times the terminal reward. The code gives
  `lambda^(L-1)` times; the two agree exactly if the reward is zero or `k` is one (`Gae.TerminalCredit`; smallest case
  `Gae.CreditExample`).
- With `keep_old_actor` and an update interval of one, `rollout_actor` is described as a copy of the current actor but
  is taken while the checkpoint of `args.load` is live. So the first rollout uses the generating weights exactly if
  that checkpoint equals the initial actor; all later ones always do (`AsyncTraining.OldLogProbsOverRun`).
- With a longer interval the snapshot is newer than the weights the rollout ran under exactly in the iteration that
  follows a push (`AsyncTraining.SnapshotMatchesUnlessPushed`, `AsyncTraining.LongerIntervalSnapshot`; smallest case
  `AsyncTraining.LongerIntervalExample`).
- The push is kept out of a running generation, but with partial rollout and without masking a group that was aborted
  before a push is continued after it: a trained token can be of any earlier version (`WeightVersions.CarriedRun`;
  smallest case `WeightVersions.MixedExample`).  The promise of the masking option, that only tokens of the rollout's
  own version are trained on, holds (`WeightVersions.TrainedTokensCurrent`).
- The gather path treats every sequence as zigzag. On rank 0 it gives back a shard of the right length exactly if every
  length is divisible by twice the number of ranks (`AllGather.AllGatherForward`, `AllGather.EvenMeansDivisible`;
  smallest case `AllGather.OddShare`).
- `get_samples(n)` hands out `n` groups exactly if `n` does not pass the end of the next epoch, which any `n` up to the
  size of the data set meets; a larger request is served short (`DataSource.RolloutDataSource.NextPrompts`; smallest
  case `DataSource.ServedShort`).
- `save` does not write the buffer, so a resumed run is the uninterrupted one exactly if the buffer was empty
  (`DataSource.SaveAndResumeBuffered`; smallest case `DataSource.GroupLost`).
- The number of micro batches is named a minimum but is what first fit needs, which may be more
  (`Packing.NotTheMinimum`) but is less than twice what any packing needs (`Packing.FirstFitBound`).  It is the minimum
  when it is at most two, when the total would not go into one bin fewer, when any two lengths are jointly over
  capacity, and when all lengths are equal (`Packing.TwoAreMinimal`, `Packing.TotalShowsMinimal`,
  `Packing.LongOnesAreMinimal`, `Packing.EqualOnesAreMinimal`).
- Port allocation fails its final assertion exactly if a node of a multi-node engine is restarted without the engine's
  first node (`Engines.Allocate`).  Pausing a health monitor does not wait for a kill it is in.  A recovery that comes
  between the nodes of that kill restarts the first ones, the kill goes on, and the next recovery fails, exactly then
  (`Engines.RecoverAgain`; smallest case `Engines.CaughtHalfway`).
- Port cursors are kept per node index, which is counted from the group's first rank.  So ports handed out on one
  machine are disjoint exactly if the group's first GPU is where a machine's first process would be, or the group has
  only one node index (`Engines.MachinesDisjoint`; smallest case `Engines.SharedMachine`).

## Model

| member | source | states |
|---|---|---|
| Gae.AdvantageStep | miles/utils/ppo_utils.py:508-512 | the discounted sum of all later residuals satisfies the backward recurrence of the serial kernels |
| Gae.VanillaGae | miles/utils/ppo_utils.py:688-709 | the loop returns, at every position, the discounted sum of later residuals, and that plus the value |
| Gae.GetAdvantagesAndReturns | miles/utils/ppo_utils.py:466-525 | the single-sample loop computes the same closed forms, for the empty response too |
| Gae.KernelIsPower | miles/utils/ppo_utils.py:803-820 | scalar and per-row construction of the chunk matrix and of the carry weights give the same powers, weight zero included |
| Gae.ChunkIsScan | miles/utils/ppo_utils.py:825-858 | inside a chunk the matrix product plus the weighted carry is the sequential scan of the whole row |
| Gae.ScanOfReverse | miles/utils/ppo_utils.py:765-777 | scanning the reversed, zero-padded residuals forwards gives the discounted sums backwards; padding is never seen |
| Gae.ScanInChunks | miles/utils/ppo_utils.py:833-865 | chunk after chunk with the carried state, cut to the unpadded length, is the sequential scan |
| Gae.ChunkedGae | miles/utils/ppo_utils.py:712-870 | for every length, chunk size, gamma and lambda the blocked scan returns the closed-form advantages and returns |
| Gae.KernelsAgree | miles/utils/ppo_utils.py:688-870 | run on one row, both kernels return the same advantages and returns, scalar or per-row weight and any chunk size |
| Gae.PaddingKeepsAdvantages | miles/utils/ppo_utils.py:602-628 | zero padding a row to any longer length leaves the advantages of its own tokens unchanged |
| Gae.SuffixSumIsLambdaOneReturn | miles/utils/ppo_utils.py:585-587 | with gamma one the suffix sum of rewards is the advantage for lambda one plus the value |
| Gae.TerminalCredit | miles/utils/ppo_utils.py:549-565 | with zero values and one terminal reward, lambda times the first advantage is k times the reward; the first advantage itself is so exactly if the reward is zero or k is one |
| Gae.CreditExample | miles/utils/ppo_utils.py:549-565 | two tokens and lambda one half: the documented credit is a quarter of the reward, the computed one a half |
| Gae.SuffixSums | miles/utils/ppo_utils.py:641-641 | flip, running sum and flip give the suffix sums |
| Gae.GetAdvantagesAndReturnsBatch | miles/utils/ppo_utils.py:568-685 | exactly which inputs are rejected, with no precondition: longer rows are cut to the response length and a single value is repeated, as the tensor assignment does; every row gets the advantages and returns of its own unpadded sample, or suffix-sum returns in the length-adaptive mode, where its lambda to the power of its length is k and its credit for a terminal reward follows |
| Gae.RowIsCredited | miles/utils/ppo_utils.py:616-626 | in the length-adaptive mode a nonempty row has the advantages of a positive lambda whose power by the length is k, and with zero values and one terminal reward lambda times its first advantage is k times the reward |
| Balancing.SpreadNeverGrows | miles/utils/seqlen_balancing.py:64-71 | a merged state is at most as wide as the wider of the two |
| Balancing.NonEmptyAfterMerge | miles/utils/seqlen_balancing.py:64-67 | merging states with x and y nonempty sets gives min(k, x + y) nonempty sets, zero lengths included |
| Balancing.MergeKeepsItems | miles/utils/seqlen_balancing.py:32-36 | a merge neither loses nor duplicates items |
| Balancing.MergeKeepsUniform | miles/utils/seqlen_balancing.py:64-67 | states of equal-sized sets merge to equal-sized sets |
| Balancing.PartSet.Add | miles/utils/seqlen_balancing.py:28-30 | the item goes to the end and its length to the sum |
| Balancing.PartSet.Merge | miles/utils/seqlen_balancing.py:32-36 | the other set's items follow this set's items, and the sum grows by their lengths |
| Balancing.State.constructor | miles/utils/seqlen_balancing.py:46-53 | k sets with one item each or one item in all, in descending order |
| Balancing.State.Merge | miles/utils/seqlen_balancing.py:64-67 | set i is joined with the other state's set k-1-i and the sets are sorted again; the same set objects remain |
| Balancing.SortedSets | miles/utils/seqlen_balancing.py:67-67 | a permutation of the set objects in which no set precedes a larger one |
| Balancing.PopLeast | miles/utils/seqlen_balancing.py:110-111 | the state taken off the heap is the first to leave it: none has its outer sums further apart, and at equal distance none has a larger first set |
| Balancing.PartOrder | miles/utils/seqlen_balancing.py:38-43 | a set is smaller by its sum, then by its number of items, then at the first difference of the item lists |
| Balancing.StateOrder | miles/utils/seqlen_balancing.py:73-79 | a state leaves the heap before another exactly if its outer sums are further apart, or as far and its first set is larger |
| Balancing.LargestSpreadFirst | miles/utils/seqlen_balancing.py:73-79 | so no two sets of a state that leaves later are further apart |
| Balancing.MergeRound | miles/utils/seqlen_balancing.py:109-114 | a round replaces the first two states to leave the heap by their merge and touches no other |
| Balancing.MergeKeepsContents | miles/utils/seqlen_balancing.py:109-114 | replacing any two states by their merge keeps items, spread bound, the count of nonempty sets up to k, and equal sizes |
| Balancing.MergeAll | miles/utils/seqlen_balancing.py:95-116 | one state is left that holds everything within the bound, and it is what rounds of largest spread first make of the states |
| Balancing.KarmarkarKarp | miles/utils/seqlen_balancing.py:20-123 | fails exactly on an empty or, for equal sizes, indivisible list; else the result of merging the two states with the largest spreads until one is left, from one state per item in order or per block of k: every index is in exactly one of k parts, min(k, n) parts are nonempty, sums differ by at most the bound of the mode, and equal sizes are equal |
| Balancing.FiveLengths | miles/utils/seqlen_balancing.py:106-114 | lengths 8, 7, 6, 5, 4 for two parts: the sums are 16 and 14 |
| Partitions.GetSeqlenBalancedPartitions | miles/utils/seqlen_balancing.py:146-177 | with at least k items, divisible for equal sizes, no check fires; the parts are those of the differencing, nonempty, ascending, cover every index once, and keep the bound on sums |
| Partitions.CheckAndSort | miles/utils/seqlen_balancing.py:164-174 | on a balanced partitioning the checks pass and sorting keeps each part's indices |
| Partitions.GreedyPicksFewest | miles/utils/seqlen_balancing.py:127-137 | with the bias above all lengths together the least biased sum belongs to a part with the fewest items |
| Partitions.GreedyAssign | miles/utils/seqlen_balancing.py:126-137 | item counts stay within one of each other with the bias, sums within the longest length without it; every item goes to the part with the fewest items first if sizes are to be equal, then the smallest sum, then the earliest, as the parts are when it comes |
| Partitions.EqualCounts | miles/utils/seqlen_balancing.py:138-142 | counts within one of each other all equal n/k exactly if k divides n |
| Partitions.GreedyPartition | miles/utils/seqlen_balancing.py:126-143 | fails exactly if equal sizes are wanted and k does not divide n; else an exact cover with equal counts, or with sums within the longest length; every item is where that rule puts it |
| DataParallel.Trim | miles/ray/rollout.py:659-674 | fails exactly on too few samples; else the longest prefix that is a multiple of the batch size |
| DataParallel.DynamicSize | miles/ray/rollout.py:678-705 | the dynamic batch size is a positive multiple of the ranks and makes one step of a large enough rollout |
| DataParallel.StridedRange | miles/ray/rollout.py:954-954 | the strided range is the residue class below n in ascending order |
| DataParallel.StridedCovers | miles/ray/rollout.py:954-954 | the strided ranges of all ranks cover every index once |
| DataParallel.SplitTrainDataByDp | miles/ray/rollout.py:941-994 | fails exactly when the balancer rejects the batch; else the ranks' index lists cover every row once and each rank holds the rows of its list |
| DataParallel.ProcessRolloutData | miles/utils/data.py:286-297 | every length a rank keeps is the length of the row beside it |
| DataParallel.SampleHasOneOwner | miles/ray/rollout.py:956-994 | every sample is held by exactly one rank at exactly one place |
| DataParallel.TrimAndSplit | miles/ray/rollout.py:659-674 | with the dynamic size a rollout of at least one sample per rank always splits, into equal shares of the kept prefix |
| Relayout.ZigzagTest | miles_plugins/models/hf_attention.py:97-98 | a global length is divisible by twice the ranks exactly if the share is even, and the chunk is half the share |
| Relayout.GetCpSequenceLengths | miles_plugins/models/hf_attention.py:41-52 | succeeds exactly if every length is divisible and the shares add up to the local length |
| Relayout.ZigzagToPackedShard | miles_plugins/models/hf_attention.py:61-84 | the loop over ranks and sequences gives this rank its contiguous shard of the true stream |
| Relayout.PackedShardToZigzag | miles_plugins/models/hf_attention.py:87-104 | the loop over sequences gives this rank its zigzag or contiguous piece of every sequence |
| Relayout.ZigzagRoundTrip | miles_plugins/models/hf_attention.py:107-122 | to packed shards and back is the identity on every rank |
| Relayout.PackedRoundTrip | miles_plugins/models/hf_attention.py:125-140 | to zigzag shards and back is the identity on every rank |
| Relayout.RelayoutPermutes | miles_plugins/models/hf_attention.py:61-84 | any sum over all tokens of all ranks is unchanged |
| Relayout.RelayoutNatural | miles_plugins/models/hf_attention.py:61-104 | relayout moves tokens without looking at them |
| Relayout.RelayoutIsAdjoint | miles_plugins/models/hf_attention.py:117-140 | using each map as the other's backward preserves the inner product |
| AllGather.WholeIsFull | miles_plugins/models/hf_attention.py:259-273 | when every share is even the stream rebuilt from slices is the true one |
| AllGather.RebuildAll | miles_plugins/models/hf_attention.py:257-273 | the loop of slices computes that rebuilt stream |
| AllGather.ResliceAll | miles_plugins/models/hf_attention.py:293-302 | cutting by torch's chunks gives this rank its piece when shares are even, and rank 0 too little otherwise |
| AllGather.AllGatherForward | miles_plugins/models/hf_attention.py:247-302 | with an identity attention the path rebuilds the stream and gives the shard back when every share is even; on rank 0 the length is right exactly then |
| AllGather.OddShare | miles_plugins/models/hf_attention.py:247-302 | one sequence of two tokens on two ranks does not come back on rank 0 |
| AllGather.EvenMeansDivisible | miles_plugins/models/hf_attention.py:259-263 | even shares are divisibility of every global length by twice the ranks |
| AsyncTraining.TensorBackuper.Backup | miles/utils/tensor_backper.py:55-61 | the tag holds a copy of the live weights, other tags are untouched |
| AsyncTraining.TensorBackuper.Copy | miles/utils/tensor_backper.py:64-66 | the destination tag holds what the source tag held |
| AsyncTraining.TensorBackuper.Restore | miles/utils/tensor_backper.py:69-74 | the live weights are those of the tag |
| AsyncTraining.Actor.constructor | miles/backends/megatron_utils/actor.py:178-189 | after start-up the newest actor is live again and both snapshots hold what was loaded; the reference model is what its checkpoint holds |
| AsyncTraining.Actor.SwitchModel | miles/backends/megatron_utils/actor.py:304-308 | the tag's weights are live and no snapshot changes |
| AsyncTraining.Actor.TrainActor | miles/backends/megatron_utils/actor.py:461-572 | log-probs use the old-actor snapshot or the newest weights, the optimizer step starts from the newest weights, and the snapshots stay; reference log-probs use the reference model, which becomes the newest actor exactly at a due update |
| AsyncTraining.Actor.UpdateWeights | miles/backends/megatron_utils/actor.py:684-743 | the newest weights are pushed, and the snapshot queue moves by one or is refreshed |
| AsyncTraining.RolloutManager.Generate | train_async.py:33-41 | a generation starts only when none runs, under the weights the engines hold |
| AsyncTraining.RolloutManager.Await | train_async.py:35-37 | awaiting the running rollout yields what the rollout function makes of the buffer under the weights it started with, and leaves the buffer it returns; awaiting it again yields the same |
| AsyncTraining.RolloutManager.Push | train_async.py:64-68 | weights change only while nothing is generating |
| AsyncTraining.TrainAsync | train_async.py:27-71 | in every run iteration r trains on rollout r, which ran under one pushed version and on the buffer that rollout r - 1 left, and the step starts from the newest version |
| AsyncTraining.StalenessBound | train_async.py:64-68 | the engines that run a rollout are at most one update interval behind the actor that trains on it; older tokens of continued samples are the matter of WeightVersions |
| AsyncTraining.EveryIterationFresh | train_async.py:34-68 | the rollout of every iteration of every run ran from start to end under one version within that bound |
| AsyncTraining.OldLogProbsUseGenerator | miles/backends/megatron_utils/actor.py:493-521 | with the queue, the weights for old log-probs are those the rollout ran under; for the first rollout exactly if checkpoint and actor agree |
| AsyncTraining.OldLogProbsOverRun | miles/backends/megatron_utils/actor.py:184-189 | so over a whole run if and only if the loaded checkpoint is the initial actor |
| AsyncTraining.RefAtFirst | miles/backends/megatron_utils/actor.py:181-182 | until the first due update the reference model is what its checkpoint holds |
| AsyncTraining.RefSince | miles/backends/megatron_utils/actor.py:561-570 | from a due update to the next one it is the actor of that update |
| AsyncTraining.SnapshotMatchesUnlessPushed | miles/backends/megatron_utils/actor.py:739-740 | for a longer interval the snapshot is the generating version unless a push came just before, and then it is newer |
| AsyncTraining.LongerIntervalSnapshot | miles/backends/megatron_utils/actor.py:731-740 | for the log-probs of every iteration of a run: the rollout's weights, except after a push, when they are the version just pushed |
| AsyncTraining.LongerIntervalExample | miles/backends/megatron_utils/actor.py:731-740 | with an interval of two, iteration 2 has data of version 0 and log-probs of version 2 |
| PartialRollout.AttemptDates | miles/rollout/sglang_rollout.py:309-347 | an attempt keeps the tokens a sample carries with their births, adds tokens born now, and under masking trains on exactly the new ones |
| PartialRollout.AttemptIsCurrent | miles/rollout/sglang_rollout.py:315-317 | a sample's trained tokens are all of this rollout exactly if earlier ones are masked or its first token is of this rollout |
| PartialRollout.RolloutDates | miles/rollout/sglang_rollout.py:685-707 | whatever a rollout keeps and gives back, every token was born in some rollout so far, in order, under the weights of that rollout |
| PartialRollout.CurrentExactly | miles/rollout/sglang_rollout.py:409-450 | a rollout's data is all of its own making exactly if earlier tokens are masked or every sample was started in it; so it is with nothing in the buffer or no tokens to generate |
| PartialRollout.RolloutIsMade | miles/rollout/sglang_rollout.py:489-546 | every outcome of the loop keeps only groups that finished, gives back only under partial rollout and fewer than one fetch, and takes the buffer first |
| PartialRollout.NothingGivenBack | miles/utils/arguments.py:2457-2463 | no rollout gives a group back without partial rollout, when one group is fetched at a time, or when every fetch brings just a batch and nothing is dropped |
| PartialRollout.GivesBackExactly | miles/utils/arguments.py:2457-2463 | and in all other cases the loop has a rollout that gives a group back |
| PartialRollout.StockGoesDown | miles/rollout/data_source.py:168-200 | for every index, what a rollout keeps and what it leaves in buffer and stream is no more than what was there before it |
| PartialRollout.NothingTwice | miles/rollout/data_source.py:168-200 | so a buffer and stream without repeated indices stays so, and what is kept and given back has none |
| PartialRollout.RunRollout | miles/rollout/sglang_rollout.py:685-707 | the loop on groups from the buffer first: for every plan of waits, verdicts, fetch sizes and engine calls it finishes exactly if the loop is left within the watched waits, with exactly the outcome that belongs to the plan, which keeps a batch of finished groups and gives back fewer than one fetch brings; from a buffer and stream without repetitions it submits and hands on no group twice and leaves such a buffer and stream |
| PartialRollout.SubmittedNotTwice | miles/rollout/sglang_rollout.py:42-55 | if no two groups of buffer and stream share an index, nothing is submitted twice |
| PartialRollout.HoldCarries | miles/rollout/sglang_rollout.py:409-450 | under a plan whose waits report all groups but the first, that one is aborted with a token, and later goes back to the buffer as it is |
| PartialRollout.ReleaseTrains | miles/rollout/sglang_rollout.py:484-546 | under a plan whose first wait reports everything, the held group is kept and its old token trained on |
| PartialRollout.HoldFinishes | miles/rollout/sglang_rollout.py:489-535 | the loop itself, run on the holding plan, is left after one pass, or after two with one group dropped, and has exactly the first group in flight |
| WeightVersions.EveryTokenDated | train_async.py:33-68 | in every run every token of iteration i's data was generated in a rollout up to i, under the version that rollout ran under |
| WeightVersions.TrainedTokensCurrent | miles/rollout/sglang_rollout.py:315-317 | the tokens an iteration trains on are all of its own rollout's version exactly if earlier ones are masked or every sample was started in it; so in every run unless rollouts can give groups back, without masking, with tokens |
| WeightVersions.OldLogProbsPerToken | miles/backends/megatron_utils/actor.py:493-521 | in those cases the snapshot queue takes the old log-prob of every trained token under the version that generated it |
| WeightVersions.CarriedRun | miles/rollout/sglang_rollout.py:706-707 | in the other cases, for every later rollout there is a run of the loop in which it trains on a token of the first version, so the age of a token has no bound |
| WeightVersions.AlwaysCurrentExactly | miles/utils/arguments.py:440-457 | every run trains on tokens of its rollouts' versions alone if and only if not partial rollout, without masking, with tokens, and with over-sampling, a filter or short fetches that let a group be in flight at the end; both halves over outcomes of the loop |
| WeightVersions.MixedExample | miles/rollout/sglang_rollout.py:409-450 | two groups fetched and one kept: a group aborted in rollout 0 stays in flight through rollout 1 and is kept in rollout 2, with a push between; its token is of version 0, its old log-prob of version 1 |
| WeightVersions.TrainedOnce | miles/rollout/data_source.py:168-200 | over a whole run no position of the prompt stream is trained on twice, none from before the run at all, and the buffer never holds two groups of one position |
| RolloutLoop.GenerateState.SubmitGenerateTasks | miles/rollout/sglang_rollout.py:152-165 | the groups join the pending ones and the remaining batch size grows by their number |
| RolloutLoop.NextGroups | miles/rollout/sglang_rollout.py:491-498 | groups to retry go first, at most as many as are lacking; a fetch, however few groups it brings, happens only without them |
| RolloutLoop.TopUp | miles/rollout/sglang_rollout.py:490-499 | computes the topped-up state, which covers the batch and stays under the over-sampling bound |
| RolloutLoop.ToppedUpKeeps | miles/rollout/sglang_rollout.py:490-499 | topping up submits groups to retry in order and then what the source hands out, and keeps the books balanced, with what was fetched equal to what the source handed out |
| RolloutLoop.Decide | miles/rollout/sglang_rollout.py:512-526 | kept groups join an unfilled batch, dropped ones leave the count and leave a clone exactly if one is due |
| RolloutLoop.DecisionKeeps | miles/rollout/sglang_rollout.py:512-526 | a decision, whatever it is, keeps the books balanced with the group no longer in flight |
| RolloutLoop.CollectDone | miles/rollout/sglang_rollout.py:502-526 | the batch takes the kept groups in finishing order until it is full; drops and clones are exactly those the filter asked for |
| RolloutLoop.SomethingPending | miles/rollout/sglang_rollout.py:489-501 | at the guard the remaining batch size is pending plus kept, and the wait is never on an empty set |
| RolloutLoop.OnDrop | miles/rollout/sglang_rollout.py:515-520 | a drop leaves exactly the clone that is due, and keeps the invariant of the loop |
| RolloutLoop.Abort | miles/rollout/sglang_rollout.py:409-450 | waits until nothing is pending, and hands back every pending group exactly under partial rollout |
| RolloutLoop.GenerateRollout | miles/rollout/sglang_rollout.py:484-546 | runs exactly the passes of the specification up to the first after which the batch is full; a finished run returns exactly the batch in index order and, under partial rollout, what was in flight; submitted = kept + dropped + surplus + aborted = fetched + clones of the groups dropped for solve_none or solve_all within the limit, less those waiting, with fewer aborted than one fetch may bring; a run watched for n waits without finishing has dropped all but fewer than a batch of n groups |
| RolloutLoop.AfterKeeps | miles/rollout/sglang_rollout.py:489-526 | every pass keeps the books balanced and under the over-sampling bound, and decides on at least one group |
| RolloutLoop.NothingLeft | miles/utils/arguments.py:2457-2463 | nothing is in flight when the batch is full if one group is fetched at a time, or if every fetch brings just a batch and nothing is dropped |
| RolloutLoop.AfterAccounts | miles/rollout/sglang_rollout.py:42-70 | of the groups fetched with an index, at most that many are in flight, kept or waiting to be sampled again at one time |
| RolloutLoop.SubmittedAtMost | miles/rollout/sglang_rollout.py:42-55 | a prompt is submitted with r retries at most as often as it was fetched with no more, and never beyond the limit unless fetched so |
| RolloutLoop.PromptSubmissions | miles/rollout/sglang_rollout.py:42-55 | a prompt handed out once is submitted at most one plus its remaining retries, however long the run |
| RolloutLoop.SampledAgainExactly | miles/rollout/sglang_rollout.py:42-49 | a prompt handed out once and always dropped for solve_none or solve_all is submitted exactly one plus its remaining retries times, once nothing of it is in flight or waiting |
| SampleLifecycle.RequestContinues | miles/rollout/sglang_rollout.py:193-225 | a request continues exactly the sample's tokens or the prompt, and asks for what is left of the cap, never a negative number |
| SampleLifecycle.AbsorbKeepsShape | miles/rollout/sglang_rollout.py:233-264 | a reply keeps lengths, cap and mask, and the tokens are what was sent followed by what came back |
| SampleLifecycle.AttemptKeepsShape | miles/rollout/sglang_rollout.py:309-347 | every call keeps the invariant, and the ones of the mask are exactly what this call generated |
| SampleLifecycle.StripKeepsShape | miles/utils/types.py:184-199 | stripping keeps the invariant, for routed experts exactly when a token is left, so always for nonempty prompts |
| SampleLifecycle.StripUndoes | miles/utils/types.py:184-199 | stripping what a reply added to a response gives back tokens, log-probs and mask |
| SampleLifecycle.Sample.UpdateFromMetaInfo | miles/utils/types.py:246-252 | abort, length and stop make a sample aborted, truncated and completed; any other reason keeps its status |
| SampleLifecycle.Sample.Generate | miles/rollout/sglang_rollout.py:168-304 | the new state as a function of the old one and the reply; its assertions never fire on valid samples |
| SampleLifecycle.Sample.GenerateAndRm | miles/rollout/sglang_rollout.py:309-370 | finished samples are returned, halted ones aborted, others generated; who gets a reward; validity is kept |
| SampleLifecycle.Attempts | miles/rollout/sglang_rollout.py:309-361 | over any attempts, halted or not: a done sample stays as it is, a halted one is to be continued, and any other sends the prompt with all that was said and asks for the rest of the cap; it ends as the reply's reason demands, is rewarded unless aborted, and holds exactly the tokens, text and log-probs of the replies |
| SampleLifecycle.AbortedGoesOn | miles/rollout/sglang_rollout.py:318-361 | after an abort there is no reward, and the next request sends what was said and asks for what is left of the cap |
| SampleLifecycle.DoneStays | miles/rollout/sglang_rollout.py:318-361 | after a stop or a cut-off there is a reward, the two are told apart, and a further attempt changes nothing |
| SampleLifecycle.Sample.StripLastOutputTokens | miles/utils/types.py:184-199 | fails exactly on more tokens than the response has; else the stripped state |
| SampleLifecycle.Sample.Validate | miles/utils/types.py:166-182 | accepts exactly if mask, log-probs and routed experts have the lengths they should |
| SampleLifecycle.ValidateAccepts | miles/utils/types.py:166-182 | accepts every valid sample |
| SampleLifecycle.Run | miles/rollout/sglang_rollout.py:309-370 | any run of attempts, requeueing, strips, resets and clones keeps tokens, log-probs, mask and cap in step; every event makes of the sample what it should |
| Engines.GetFreePort | miles/utils/misc.py:167-172 | the first port at or above the start that begins a free run |
| Engines.GrantsDisjoint | miles/ray/rollout.py:1050-1065 | two grants on one node index share no port |
| Engines.IndexIsMachine | miles/ray/rollout.py:130-137 | processes of a group on one machine have the same node index exactly if the group's first GPU is among the first ones of a machine that one process takes, or the group has only one node index |
| Engines.MachinesDisjoint | miles/ray/rollout.py:1038-1065 | all that may be handed out to a group is disjoint on every machine exactly then |
| Engines.SharedMachine | miles/ray/rollout.py:1208-1263 | engines of four GPUs on machines of eight from GPU four on: the second and third share a machine but not a node index |
| Engines.PortAllocator.Assign | miles/ray/rollout.py:1055-1065 | a run of ports that is free at this call, the first such from the cursor on, as long as its purpose needs, is booked, the cursor moves past it, and the rank is told |
| Engines.AskedOneMore | miles/ray/rollout.py:1050-1065 | one more such interval keeps that all of them were free when asked for, and first from the cursor |
| Engines.NodeSlots | miles/ray/rollout.py:1041-1048 | from a rank to the end of its node are exactly the later ranks with the same node index |
| Engines.VisitNode | miles/ray/rollout.py:1073-1096 | every later rank of the node gets its ports; rendezvous addresses go to each rank or from a head to its engine |
| Engines.SkipRank | miles/ray/rollout.py:1043-1044 | a rank on a visited node is already served |
| Engines.VisitRank | miles/ray/rollout.py:1040-1096 | visiting a node extends what is settled by the rank and its node |
| Engines.Allocate | miles/ray/rollout.py:1016-1103 | every started rank has its ports; the final assertion holds exactly if with a rank of a multi-node engine its head is started too, and then all nodes of an engine meet at its head; each node is visited once, and what is asked for, in order, is just what its ranks need; every interval was free when it was asked for |
| Engines.TornLacksHeads | miles/ray/rollout.py:1079-1103 | the heads of what is down are down too exactly if no engine has its head up and another node down |
| Engines.UniformHasHeads | miles/ray/rollout.py:94-101 | so when the nodes of an engine run or are down together |
| Engines.ServerGroup.StartEngines | miles/ray/rollout.py:103-215 | fails exactly if an engine of an active group is torn; all places are filled, the count of new engines is that of the dead, and all ports lie above the given cursors; what is asked for, in order, is just what the ranks that were down need; every interval was free when it was asked for, and the first such from its cursor |
| Engines.KillEngine | miles/utils/health_monitor.py:160-177 | with nothing in between, exactly the nodes of the engine go down, and engines stay up or down as a whole |
| Engines.RunHealthChecks | miles/utils/health_monitor.py:137-177 | with nothing in between, after a round, cut short or not, an actor runs exactly if it ran and its engine answered or was not reached |
| Engines.Recover | miles/ray/rollout.py:287-304 | fails exactly if some active group has a torn engine; else every group is complete again and the counts match; each group's ports lie above those of all earlier groups; every interval of every start was free when it was asked for |
| Engines.HealthMonitor.ClearNode | miles/utils/health_monitor.py:160-177 | one round of the kill's loop takes down the next node of the victim and nothing else |
| Engines.HealthMonitor.Recovery | miles/ray/rollout.py:599-620 | a recovery between two nodes of a kill fills all places, and fails exactly if an earlier kill was caught by a recovery after its first node and has cleared another one since |
| Engines.TornExactlyIfCaught | miles/utils/health_monitor.py:160-177 | at every moment an engine is torn exactly if its latest kill was so caught |
| Engines.RunSteps | miles/ray/rollout.py:599-620 | over any kills, cleared nodes and recoveries, whether one comes halfway through a kill and whether one fails is as the history of the monitor's thread says; and if none comes halfway, none fails |
| Engines.NeverHalfway | miles/ray/rollout.py:599-620 | a history without a recovery halfway through a kill has none that finds an engine torn |
| Engines.RecoverAgain | miles/ray/rollout.py:599-620 | a recovery during a kill, the rest of the kill, and another recovery: the latter fails exactly if the former came after the first node |
| Engines.CaughtHalfway | miles/ray/rollout.py:599-620 | one engine on two nodes, a recovery between them: the first node is left up, the second down, and the next recovery fails |
| DataSource.EpochIsPermutation | miles/utils/data.py:255-263 | every epoch serves every prompt as often as the data set holds it |
| DataSource.StreamIsPermuted | miles/utils/data.py:255-263 | the prompt at position p of the stream is the one its epoch's permutation puts at p modulo the size |
| DataSource.SkipEpochs | miles/rollout/data_source.py:94-100 | starting in a later epoch is the same stream with the earlier epochs skipped |
| DataSource.PositionIsProduct | miles/rollout/data_source.py:89-100 | an offset in an epoch stands for the epochs before it times the data set, plus the offset |
| DataSource.Dataset.Shuffle | miles/utils/data.py:255-263 | the order is that of the epoch, cached or new |
| DataSource.RolloutDataSource.NextPrompts | miles/rollout/data_source.py:86-100 | the next slice of the infinite stream; how many prompts it holds for every request |
| DataSource.ServedShort | miles/rollout/data_source.py:89-100 | three prompts asked of a data set with one are two |
| DataSource.RolloutDataSource.GetSamples | miles/rollout/data_source.py:86-114 | the same as groups, with consecutive group and sample indices |
| DataSource.IndicesUnique | miles/rollout/data_source.py:104-113 | no two samples share an index |
| DataSource.Serve | miles/rollout/data_source.py:86-114 | any calls for at most the data set each give consecutive slices of the stream, nothing lost or repeated |
| DataSource.RolloutDataSource.Load | miles/rollout/data_source.py:134-156 | the state is the saved one, data order included, or unchanged without a file |
| DataSource.SaveAndResume | miles/rollout/data_source.py:119-156 | a fresh source that loads goes on exactly as the uninterrupted one |
| DataSource.BufferedSource.PopFirst | miles/rollout/data_source.py:216-220 | the oldest groups leave the buffer, in order |
| DataSource.BufferedSource.GetSamples | miles/rollout/data_source.py:168-187 | the oldest buffered groups, then the stream for what is missing; exactly n for n up to the data set |
| DataSource.BufferedSource.AddSamples | miles/rollout/data_source.py:189-202 | groups join at the end; fails exactly on a group of the wrong size |
| DataSource.HandedIsOlder | miles/rollout/data_source.py:86-114 | what was handed out, or stays in the buffer, is older than all the stream has next, so groups that are given back are |
| DataSource.ServeBuffered | miles/rollout/data_source.py:168-187 | any calls for at most the data set each hand out the buffer in order and then consecutive slices of the stream |
| DataSource.ResumeDropsBuffer | miles/rollout/data_source.py:119-132 | from the same place in the stream, what is handed out with a buffer and without one is the same exactly if the buffer is empty or nothing is asked for |
| DataSource.SaveAndResumeBuffered | miles/rollout/data_source.py:119-156 | a fresh buffered source that loads goes on as the uninterrupted one, for all later calls, exactly if the buffer was empty or nothing more is asked for |
| DataSource.GroupLost | miles/rollout/data_source.py:119-156 | a group that was given back is handed out again, but not after a resume |
| PassAtK.ChoicesAreAll | miles/utils/metric_utils.py:45-48 | the list of choices holds exactly the ways to draw k of n |
| PassAtK.ChoicesDiffer | miles/utils/metric_utils.py:45-48 | and none of them twice |
| PassAtK.ChoiceCount | miles/utils/metric_utils.py:45-48 | Pascal's triangle counts them |
| PassAtK.NextInRow | miles/utils/metric_utils.py:49-51 | the absorption identities of the triangle |
| PassAtK.Telescope | miles/utils/metric_utils.py:51-51 | a product of ratios of neighbours is the ratio of the ends |
| PassAtK.EstimateIsRatio | miles/utils/metric_utils.py:45-51 | on both branches the estimate is 1 - C(n-c, k)/C(n, k) |
| PassAtK.MissCount | miles/utils/metric_utils.py:45-48 | whichever samples are correct, C(n-c, k) choices draw none of them |
| PassAtK.EstimateIsFraction | miles/utils/metric_utils.py:40-53 | whichever samples are correct, the estimate is the fraction of all draws of k that contain one of them |
| PassAtK.EstimateBounds | miles/utils/metric_utils.py:45-51 | it lies in [0, 1], is 1 exactly when a miss is impossible and 0 exactly without a correct or a drawn sample |
| PassAtK.MonotoneInCorrect | miles/utils/metric_utils.py:45-51 | more correct samples do not lower it |
| PassAtK.MonotoneInDraws | miles/utils/metric_utils.py:45-51 | nor do more draws |
| PassAtK.ComputePassRate | miles/utils/metric_utils.py:11-37 | fails exactly on a wrong number of rewards; else one rate for every power of two up to the group size, the mean estimate, in [0, 1] and nondecreasing; a sample is correct exactly if its reward is one |
| PassAtK.CorrectIsOnes | miles/utils/metric_utils.py:25-30 | the number of correct samples is the number of rewards equal to one |
| Packing.GetMinimumNumMicroBatchSize | miles/utils/data.py:272-283 | the nested loops count the bins of first fit |
| Packing.FirstFitIsPacking | miles/utils/data.py:274-281 | the bins are the loads of an assignment of all items, so nothing is lost or counted twice |
| Packing.FirstFitTotal | miles/utils/data.py:274-281 | the total length is conserved |
| Packing.FirstFitWithinCapacity | miles/utils/data.py:276-279 | every bin is within capacity if every length is |
| Packing.FirstFitPairsExceed | miles/utils/data.py:276-281 | any two bins are jointly over capacity |
| Packing.FirstFitBound | miles/utils/data.py:272-283 | at most one bin, or fewer than twice the bins of any packing |
| Packing.NotTheMinimum | miles/utils/data.py:272-273 | an input on which first fit uses three bins where two suffice |
| Packing.TotalShowsMinimal | miles/utils/data.py:272-283 | no packing needs fewer bins if the total is more than one bin fewer could hold |
| Packing.TwoAreMinimal | miles/utils/data.py:272-283 | a count of at most two is the minimum |
| Packing.LongOnesAreMinimal | miles/utils/data.py:272-283 | with any two lengths jointly over capacity each has its own bin and no packing needs fewer |
| Packing.EqualOnesAreMinimal | miles/utils/data.py:272-283 | equal positive lengths are packed into as few bins as possible |
| Sharding.ChunksPartition | miles/utils/iter_utils.py:26-42 | the chunks in order are the items in order |
| Sharding.ChunksBounded | miles/utils/iter_utils.py:33-39 | no chunk is empty, and one over the limit is a single item |
| Sharding.ChunksAdjacent | miles/utils/iter_utils.py:33-36 | two neighbours together are over the limit |
| Sharding.ChunksClosedLate | miles/utils/iter_utils.py:33-36 | a chunk is closed only when the next item would put it over the limit |
| Sharding.ChunkCount | miles/utils/iter_utils.py:26-42 | hence a linear bound on the number of chunks |
| Sharding.ChunkBySize | miles/utils/iter_utils.py:26-42 | the loop yields exactly these chunks, closed before they reach the size |
| Sharding.ShardedSafetensorsWriter.Add | miles/backends/megatron_utils/hf_export.py:85-95 | fails exactly on a repeated name; else the tensor is added and the shards stay the chunks of what was added |
| Sharding.ShardedSafetensorsWriter.Store | miles/backends/megatron_utils/hf_export.py:90-95 | the tensor goes to the current shard or, if that would pass the limit, to a new one |
| Sharding.ShardedSafetensorsWriter.Finalize | miles/backends/megatron_utils/hf_export.py:108-124 | fails exactly without tensors; else every shard has its final file, the index maps exactly the added names each to the file that holds it, and the total size is conserved |
| Sharding.MapOkOn | miles/backends/megatron_utils/hf_export.py:116-120 | one more shard keeps the index right, because names are distinct |
| Whitening.AllReduce | miles/utils/distributed_utils.py:124-138 | the reduced local sums are the sums over the data of all ranks |
| Whitening.DeviationsExpand | miles/utils/distributed_utils.py:143-145 | squared deviations expand into the three sums |
| Whitening.BiasedMeaning | miles/utils/distributed_utils.py:143-145 | mean square less squared mean is the mean squared deviation |
| Whitening.Bessel | miles/utils/distributed_utils.py:148-150 | the factor turns it into the deviation over n - 1 |
| Whitening.Statistics | miles/utils/distributed_utils.py:138-150 | fails exactly on an all-zero mask; else whole-data mean and variance |
| Whitening.DistributedMaskedWhiten | miles/utils/distributed_utils.py:98-158 | each rank's values are whitened with the statistics of all ranks' data |
| Whitening.WhitenedSumIsZero | miles/utils/distributed_utils.py:153-156 | with mean shift the whitened unmasked values of all ranks sum to zero |
| Whitening.UnshiftedKeepsMean | miles/utils/distributed_utils.py:153-156 | without mean shift the whitened unmasked values of all ranks keep their mean |
| Whitening.WhitenedVariance | miles/utils/distributed_utils.py:153-153 | and their variance is one but for epsilon |
| Whitening.PartsAreWhole | miles/utils/distributed_utils.py:153-158 | the ranks' results together are the whitened whole |

## Left out

- Rounding, data types, devices and pinned memory: numbers are reals or unbounded integers.
- Rows of a batch are modelled one at a time where a kernel treats them independently; the tensor of rows is a sequence.
- The context-parallel branches of advantage estimation rest on helpers of cp_utils.py and are not part of this model.
- Gae.LengthAdaptiveLambda: the L-th root of k is given, as a real.
- Balancing.PopLeast: takes any state that no other precedes; Python's heap picks one of them by its internal order.
- AsyncTraining: offloading, checkpoint saves, evaluation, mixture-of-experts replay, and the options that skip the forward pass for old log-probs or the weight push.
- AsyncTraining: the optimizer step is a function of weights, data and log-prob weights; a critic only decides whether the actor trains.
- RolloutLoop: what a task does inside is in SampleLifecycle and PartialRollout; metrics and the user's filters and post-processing are not modelled.
- RolloutLoop.GenerateRollout: does not claim that a run ends, since a filter may drop for ever; it bounds what an unfinished run has dropped.
- PartialRollout: prompts, rewards and what the filter looks at; the buffer serves the oldest groups first; a fresh group is known by its number in the stream, of which its sample index is a multiple.
- WeightVersions: a rollout's tokens are born under the weights the engines hold when it starts, which no push changes before it ends; the buffer is empty at first, as it is not saved.
- WeightVersions.AlwaysCurrentExactly: if fetches may be served short, ranges over sources that serve any number of groups from one on; which ones the program's own source serves for a data set smaller than a fetch is in DataSource.RolloutDataSource.NextPrompts.
- SampleLifecycle: custom generate functions, several samples per call, multimodal inputs, the radix-tree middleware and samples marked failed.
- SampleLifecycle.AbsorbKeepsShape: assumes an engine that respects the token budget, decodes tokens to nonempty text and returns one row of routed experts per token but the first, if replay asks for them.
- Engines: addresses, external engines, offloading and weight transfer to restarted engines.
- Engines.MachinesDisjoint: machines have `num_gpus_per_node` GPUs each, in order, and the GPUs of one process divide that number; whether a port that was asked for on another machine is free there is not modelled.
- Engines.HealthMonitor.Recovery: is one step; a kill that clears a node while a recovery is in its own loop over the places is not modelled.
- Engines.KillEngine: a group holds whole engines, without which the program's own indexing fails.
- DataSource: the branch without a data set hands out blank samples and saves nothing; custom buffer filters and the metadata dictionary.
- PassAtK.ComputePassRate: an empty batch, of which the program takes the mean of nothing, is excluded.
- Packing.NotTheMinimum: four conditions under which the count is the minimum are proved, but no exact one; telling the minimum is the bin packing problem.
- Sharding: file formats and the copying of other assets; a shard's file name is the pair of its number and the number of shards.
- Whitening.DistributedMaskedWhiten: the reciprocal square root is given; masks are nonnegative, and zero and one are a special case.
- Argument parsing, routers, logging, dashboards, checkpoint archives, reward shaping and the model layers themselves.
