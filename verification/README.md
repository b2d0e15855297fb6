# Model of the diffusion distillation harness

This project models the parts of the harness that decide what survives: the Wan campaign that trains, evaluates
and promotes student checkpoints across crashes; the sharded evaluation it relies on; the native scheduler
trajectories of the Wan adapter and the records built from them; the surgery on safetensors checkpoints and the
cache that stages them; the temporal row merging and schedule reduction of the ComfyUI hook; the flow-matching
arithmetic and latent layout of H3; and the progressive stage manager.

Protocols that must survive crashes are state machines over their durable steps, with every interleaving and a crash
before any step. Objects that the source changes in place are classes whose methods are proved against functions
of their values. Floating-point numbers are reals, hashing has no collisions, and everything outside the modelled
code (models, controller, evaluator, foreign schedulers) is an arbitrary function.

| file | subject |
|---|---|
| `CampaignDecision.dfy`, `Campaign.dfy` | decision, digest binding, the campaign as a machine over durable writes |
| `CampaignInvariant.dfy` | its invariant |
| `CampaignFrames.dfy`, `CampaignRounds.dfy`, `CampaignProof.dfy` | why every write preserves it: frame facts, the writes of one round, every step |
| `CampaignSafety.dfy`, `CampaignOrder.dfy`, `CampaignJudging.dfy` | what holds over every run: rounds and lineage, what each write leaves behind, how children are judged |
| `CampaignProgress.dfy`, `CampaignFingerprints.dfy` | over every run: what promotions add up to, what becomes of fingerprints |
| `CampaignTraces.dfy` | runs that reach given points |
| `CampaignRun.dfy` | the campaign loop as a program that refines the machine |
| `Totals.dfy`, `Sorting.dfy` | order-independent totals; stable sorting |
| `StrictReport.dfy`, `ShardedEvaluation.dfy` | the evaluation report, field by field; single-process and sharded evaluation |
| `RowMerge.dfy`, `ReducedSigmas.dfy` | temporal row merging with its splice; schedule reduction |
| `FlowSchedule.dfy`, `WanSchedule.dfy`, `FlowMatching.dfy`, `LatentLayout.dfy` | sigma grids, stages of a native grid, Euler steps and distillation targets, unpatching |
| `SchedulerMachine.dfy`, `SchedulerTrajectory.dfy` | native scheduler trajectories, as values and as objects |
| `TrajectoryRecord.dfy`, `TrajectoryBuilder.dfy` | the two-file record; building and replaying |
| `CheckpointPatch.dfy`, `BlockPrune.dfy`, `CheckpointStage.dfy` | patching, pruning, staging |
| `StageManager.dfy` | the promotion chain and its serialization |
| `Wrappers.dfy`, `Arith.dfy`, `Decimal.dfy`, `Tensors.dfy` | shared types, arithmetic facts, decimal names |

Where the code does less than one would expect, the model keeps the code and says exactly when it is right:

- A training worker that reports success and exits with a nonzero code skips the digest binding (`BindingHoldsIff`).
- A crash between the decision file and the state file orphans an accepted child for good (`OrphanNeverPromoted`,
  `AcceptedRoundsAccounted`, `OrphanHappens`); one between the registration of a fingerprint and
  the start of its worker burns it (`CrashBurnsIff`, `BurnHappens`), and one before its first step checkpoint loses it
  (`CrashLosesIff`, `LostForever`).
- A duplicate proposal puts back the failed list of the start of the launch and so forgets later failures
  (`FailedListAfter`).
- Without a positive semantic or quality margin, as in the shipped configuration, promotions need not be progress
  (`ProgressIff`, `StagnationHappens`).
- Beginning a trajectory never compares the scheduler's last sigma, so the last step may still be refused
  (`AcceptsExactly`); a begin that raises, or finds nothing to begin, leaves the role on unchecked Euler steps
  (`ChecksStepsIff`).
- A snapshot covers nine attribute names and nothing else (`RestoreExactIff`, `HiddenStateEscapes`).
- The tiny adapter mixes by cleanness but is scheduled by sigma (`TinyStepStaysIff`).
- A tensor artifact at, above or below the record's own place makes a trajectory unloadable (`SaveThenLoadIff`).
- Two sources of one stem, size and modification time share a staged file (`ServesOwnBytesIff`).
- Two spellings of one block index, in ASCII or any other decimal digits, lose a tensor (`TensorsLostIffClash`).
- Storing a restored stage manager adds absent keys and drops foreign ones, and restoring never reads stage indices,
  teacher evaluations or teacher checkpoints of its promotions (`RestoreThenStoreIff`).

## Model

| member | source | states |
|---|---|---|
| CampaignDecision.Judge | tools/wan_vllm_campaign.py:1034-1064 | A candidate is accepted exactly when the correctness gate does not block it, it improves on the parent by the margins, no visual gate fails, both floors hold and a required release contract is met |
| CampaignDecision.MeetsIff | harness4h3/student/wan_campaign.py:444-499 | What acceptance asks, field by field of the two results, absent numbers counting as zero |
| CampaignDecision.ReasonIsFirstObjection | harness4h3/student/wan_campaign.py:452-499 | A rejection names the most important objection in a fixed order in which the later release checks override the controller gate; an acceptance names its improvement |
| CampaignDecision.BindTraining | tools/wan_vllm_campaign.py:1536-1556 | A training that counts as succeeded comes from a report that says success; nothing is ever recorded as skipped here |
| CampaignDecision.NonzeroExitSkipsBinding | tools/wan_vllm_campaign.py:1537-1538 | A worker that reports success but exits with a nonzero code is accepted with a foreign parent and no checkpoint |
| CampaignDecision.BindingHoldsIff | tools/wan_vllm_campaign.py:1537-1556 | A report is bound to child and parent digests, whatever they are, exactly when it does not combine a nonzero exit code with a success status |
| CampaignProof.NextPreserves | tools/wan_vllm_campaign.py:1794-2180 | Every durable write, launch and crash keeps the whole campaign invariant: order of rounds, resumability, training history, lineage, accounting and what the process believes |
| CampaignSafety.RunInv | tools/wan_vllm_campaign.py:1794-2180 | The invariant holds in every state of every run with crashes and restarts at any durable write |
| CampaignSafety.CompleteRoundsAreFrozen | tools/wan_vllm_campaign.py:1804-1826 | A complete round is never executed again: its directory, its child file and its training history never change afterwards |
| CampaignSafety.OpenRoundIsHighest | tools/wan_vllm_campaign.py:1806-1826 | At most one round is incomplete and not failed, and it is the highest-numbered round with artifacts |
| CampaignOrder.ProposesNextRound | tools/wan_vllm_campaign.py:1865-1893 | A new proposal always goes to the first round number without artifacts, and every smaller number has some |
| CampaignOrder.ResumesLastRound | tools/wan_vllm_campaign.py:1865-1870 | Only the highest round with artifacts is resumed, with its step checkpoint and without results |
| CampaignOrder.ProposeRegisters | tools/wan_vllm_campaign.py:2016-2022 | A proposal is a duplicate exactly when the fingerprint of proposal, stored parent and launch identity is registered; otherwise it is registered for its round |
| CampaignOrder.TrainingBinds | tools/wan_vllm_campaign.py:1536-1556 | In every run the training file says success exactly for a success report that, after a normal exit, names the child on disk and the stored parent and passes the other bindings; only then is the child evaluated |
| CampaignJudging.EvaluationJudges | tools/wan_vllm_campaign.py:2098-2119 | In every run a finished evaluation accepts the child exactly when gate, margins against the stored parent, floors, visual gate and release contract allow it, and otherwise gives the first objection |
| CampaignOrder.DecisionIsSaved | tools/wan_vllm_campaign.py:2119-2121 | The decision file holds the verdict of the evaluation, or says why there was none |
| CampaignOrder.StateIsSaved | tools/wan_vllm_campaign.py:2146-2153 | Ending a round makes an accepted child the stored parent with its own evaluation, and keeps the parent otherwise |
| CampaignJudging.RecordsOfRun | tools/wan_vllm_campaign.py:2030-2121 | In every run training, evaluation and decision files of a complete round belong together, unless a restart closed the round as incomplete |
| CampaignJudging.PromotedOnTerms | tools/wan_vllm_campaign.py:2098-2152 | Every promoted round was judged by an action of the run, under the gate of that action and the thresholds of its launch, and passed against the parent before it |
| CampaignJudging.FailedListAfter | tools/wan_vllm_campaign.py:2058-2092 | A failed training adds its round to the stored failed list; a duplicate puts back the list of the start of the launch |
| CampaignSafety.TrainedOnce | tools/wan_vllm_campaign.py:2010-2067 | No fingerprint has a worker started under two round numbers and no round starts workers for two fingerprints |
| CampaignSafety.StartNeverRejects | tools/wan_vllm_campaign.py:1828-1834 | The digest check of the stored parent never fails on restart |
| CampaignFingerprints.ResumesIff | tools/wan_vllm_campaign.py:1939-2016 | A round that qualifies for resumption resumes exactly when the launch computes the stored fingerprint for its stored proposal, and always when no launch had another fingerprint identity; the parent digest cannot have moved |
| CampaignSafety.ParentLineage | tools/wan_vllm_campaign.py:2146-2159 | The stored parent ends a chain of accepted rounds from the configured parent, each trained from its predecessor, and the stored evaluation is that of the stored parent |
| CampaignProgress.PromotionLadder | tools/wan_vllm_campaign.py:1049-1060 | After k promotions quality is at least initial plus the quality margins, temporal at least initial minus the drops that the launches of these promotions allowed, and the last child meets its semantic floor |
| CampaignProgress.EqualRungs | tools/wan_vllm_campaign.py:1049-1060 | With one set of thresholds the margins are k * min_quality_delta and k * max_temporal_drop |
| CampaignProgress.MarginsOfRun | tools/wan_vllm_campaign.py:1034-1064 | Every promotion of a run met the thresholds of the launch that made it |
| CampaignProgress.SemanticProgress | tools/wan_vllm_campaign.py:1034-1064 | With positive semantic margins every later parent is strictly better than every earlier one |
| CampaignProgress.PromotionProgressIff | tools/wan_vllm_campaign.py:1034-1064 | Whatever the scores are, a promoted child is ahead of its parent in semantic score, decision quality or quality score exactly when one of the two margins is positive |
| CampaignProgress.ProgressIff | tools/wan_vllm_campaign.py:2146-2159 | Under one set of settings every later parent of every run is ahead of every earlier one exactly when one of the two margins is positive |
| CampaignProgress.StagnationHappens | tools/wan_vllm_campaign.py:1049-1060 | With neither margin, as shipped, a run promotes a child that is ahead in nothing and has lost all the temporal consistency it may |
| CampaignProgress.StoredParentImproves | tools/wan_vllm_campaign.py:2149-2152 | In every run the stored parent evaluation obeys the ladder, with as many rungs as there were promotions |
| CampaignSafety.AcceptedRoundsAccounted | tools/wan_vllm_campaign.py:2119-2152 | An accepted complete round is exactly one that was promoted, orphaned by a crash, or is about to be promoted |
| CampaignSafety.OrphanNeverPromoted | tools/wan_vllm_campaign.py:2119-2159 | A child orphaned between the decision and the state file stays accepted on disk and never becomes a parent |
| CampaignTraces.OrphanHappens | tools/wan_vllm_campaign.py:2119-2152 | Whatever candidate the settings would promote over the initial parent, a run with one crash leaves it accepted while its child is not the parent |
| CampaignTraces.OrphanHappensAsShipped | tools/wan_vllm_campaign.py:327-330 | Such a candidate exists under margins that the loop configuration accepts |
| CampaignFingerprints.BurnedForever | tools/wan_vllm_campaign.py:2016-2067 | No worker is ever started for a fingerprint that was registered and whose process died before starting one |
| CampaignFingerprints.CrashBurnsIff | tools/wan_vllm_campaign.py:2016-2067 | An action leaves a registered fingerprint without a worker exactly when it is a crash between its registration and the start of the worker, the wait for devices included |
| CampaignFingerprints.BurnHappens | tools/wan_vllm_campaign.py:2022-2067 | With any settings a run burns the fingerprint of any proposal for the initial parent, after its fingerprint file is written |
| CampaignFingerprints.CrashLosesIff | tools/wan_vllm_campaign.py:1806-1826 | An action loses a registered fingerprint for good, without a training result, exactly when it is a crash that interrupts its round before the first step checkpoint, whether or not the worker has started |
| CampaignFingerprints.LostForever | tools/wan_vllm_campaign.py:1806-1826 | A lost fingerprint never gets a training result: its round is marked failed and later proposals with it are duplicates |
| CampaignFingerprints.BurnedIsLost | tools/wan_vllm_campaign.py:1806-1826 | A fingerprint whose worker never started is lost as well |
| CampaignRun.Campaigner.RunRound | tools/wan_vllm_campaign.py:1891-2163 | One imperative round is a continuation of a run of the campaign machine, and ends at the next round or with the process gone |
| CampaignRun.Campaigner.EvaluateChild | tools/wan_vllm_campaign.py:2098-2119 | The program accepts the child exactly when it passes under the gate of its round, and never a child that is not on disk |
| CampaignRun.Campaigner.Train | tools/wan_vllm_campaign.py:1502-1556 | The program counts the training exactly when the worker reports success and a normal exit is bound to child file and parent |
| CampaignRun.Campaigner.Recover | tools/wan_vllm_campaign.py:1804-1827 | Startup marks irreparable rounds as failed one durable write at a time, as the machine does |
| CampaignRun.Campaigner.RunCampaign | tools/wan_vllm_campaign.py:1794-2180 | A launch with any budget of durable writes stays a run of the machine, whatever controller, worker and evaluator answer; it ends by itself only above the round limit or after as many rounds without a new parent as patience allows, and not earlier |
| CampaignRun.Campaigner.RunLaunches | tools/wan_vllm_campaign.py:1794-2180 | Any number of launches, each with settings of its own, leave complete rounds unchanged, at most one open round on top, and the stored parent on its ladder above the initial one |
| ShardedEvaluation.EvaluateSingle | tools/wan_vllm_campaign.py:1158-1316 | The nested loops measure the selected prompts and seeds in order and stop at the first failure; every field of the result is described by its cases |
| ShardedEvaluation.MergeShards | tools/wan_vllm_campaign.py:1341-1424 | Extending, sorting and summing over shard results gives the specified merge, described field by field |
| ShardedEvaluation.EvaluateParallel | tools/wan_vllm_campaign.py:1434-1501 | One process per case, all failures collected first, then the merge; a single process when there is one device or one case; described field by field |
| StrictReport.ReportDescribes | tools/wan_vllm_campaign.py:1244-1316 | Every mean times the number of cases is the sum of that score over the cases, every hardware total the sum of that measurement, the peak their largest, and verdict, failures, version and flags are those of the cases |
| ShardedEvaluation.SelectionAt | tools/wan_vllm_campaign.py:1159-1160 | The videos are the first seeds of the first case, then those of the second, and so on |
| ShardedEvaluation.SingleReports | tools/wan_vllm_campaign.py:1158-1316 | One process reports exactly the selected videos, measured in order, or the error of the first that cannot be measured |
| ShardedEvaluation.MergeReports | tools/wan_vllm_campaign.py:1341-1424 | A merge reports all cases of the shards in order of case id and seed, with the totals of the shards added up |
| ShardedEvaluation.ShardedReports | tools/wan_vllm_campaign.py:1427-1501 | However the cases were distributed, the report describes all selected videos, each measured once |
| ShardedEvaluation.MergedOrder | tools/wan_vllm_campaign.py:1347 | The merged cases are ordered by case id, then seed, and cases with equal keys keep their order |
| Sorting.SortSorts | tools/wan_vllm_campaign.py:1347 | Sorting by any total transitive key order gives a sorted list |
| Sorting.SortIsStable | tools/wan_vllm_campaign.py:1347 | Entries with the same key keep their order |
| StrictReport.VerdictMeans | tools/wan_vllm_campaign.py:1244-1310 | Validity, promotability and failure code say whether every enabled visual gate passed, and the failure count is zero exactly then |
| StrictReport.PeakIsLargest | tools/wan_vllm_campaign.py:1297-1298 | The reported peak memory is the largest peak of any case |
| ShardedEvaluation.ShardedAgreesIff | tools/wan_vllm_campaign.py:1427-1501 | A sharded success is a single-process success with the same means, verdict, failure multiset, totals and peak; given a single-process success, sharding succeeds exactly when it is not used or every selected case selects a seed |
| ShardedEvaluation.ShardedAgrees | tools/wan_vllm_campaign.py:1240-1501 | With the seeds a manifest guarantees and a positive seed count, single-process and sharded evaluation always agree |
| ShardedEvaluation.MergeIgnoresShardOrder | tools/wan_vllm_campaign.py:1341-1374 | Shard order changes no aggregate, and nothing at all when case keys are distinct |
| ShardedEvaluation.VersionOfAgreeing | tools/wan_vllm_campaign.py:1305-1308 | The version tag is order-independent when the cases report a single version |
| RowMerge.KeptRowsIncreasing | tools/comfyui_h3_optimizations.py:143-153 | Kept rows are numbered by a strictly increasing map below the reduced count |
| RowMerge.GroupMembers | tools/comfyui_h3_optimizations.py:146-153 | Every group has exactly one kept row and at most one more, the same spatial row of the next frame |
| RowMerge.RenumberingGroups | tools/comfyui_h3_optimizations.py:141-156 | The group ids are exactly 0..reduced_count-1 and every group has one or two members |
| RowMerge.KeptRowGroup | tools/comfyui_h3_optimizations.py:151-153 | A kept row shares its group only with its merged row of the following odd frame |
| RowMerge.BuildGroupIds | tools/comfyui_h3_optimizations.py:141-156 | Drop mask, running count and override in place compute the group ids and the reduced count |
| RowMerge.Reduce | tools/comfyui_h3_optimizations.py:161-166 | Two zeroed accumulators, one pass of additions and one division compute the mean of every group |
| RowMerge.CountsArePositive | tools/comfyui_h3_optimizations.py:164-166 | No group count is zero, and none exceeds two |
| RowMerge.DroppedAt | tools/comfyui_h3_optimizations.py:139-145 | Row i of frame f is dropped exactly when f is odd and its pair was decided to merge |
| RowMerge.ReduceAfterExpand | tools/comfyui_h3_optimizations.py:161-166 | Reducing expanded rows gives the reduced rows back |
| RowMerge.ExpandAfterReduce | tools/comfyui_h3_optimizations.py:233-237 | Expanding reduced rows fixes every unmerged row and gives both rows of a merged pair their mean |
| RowMerge.ColumnSumConserved | tools/comfyui_h3_optimizations.py:161-166 | Reduce then expand conserves every column sum |
| RowMerge.VideoSegmentIs | tools/comfyui_h3_optimizations.py:93-106 | The first segment of kind video that divides evenly into at least two latent frames is chosen, and none when there is no such segment |
| RowMerge.MergePlan | tools/comfyui_h3_optimizations.py:119-139 | A plan covers the video segment and merges at least one pair |
| RowMerge.MergePlanIff | tools/comfyui_h3_optimizations.py:119-139 | There is a plan exactly when merging is on for the step with a threshold in range, a video segment exists and some row is similar enough; it merges exactly those rows |
| RowMerge.PlanShortens | tools/comfyui_h3_optimizations.py:139-156 | A merged pair makes the reduced count smaller than the segment |
| RowMerge.SpliceKeepsPositions | tools/comfyui_h3_optimizations.py:233-237 | Around any length-preserving attention the output has the original length, and rows outside the segment keep their positions |
| RowMerge.SpliceMeans | tools/comfyui_h3_optimizations.py:158-173 | Inside the segment an unmerged row enters the attention unchanged, and a merged pair as its mean at one position |
| ReducedSigmas.IndicesRise | tools/comfyui_h3_optimizations.py:50 | The rounded linspace indices are strictly increasing for 1 <= target < steps |
| ReducedSigmas.IndexEnds | tools/comfyui_h3_optimizations.py:50 | They start at 0, end at steps-1 for target >= 2, and stay in range |
| ReducedSigmas.GapsAreEven | tools/comfyui_h3_optimizations.py:50 | Consecutive gaps are the floor or the ceiling of the ideal spacing |
| ReducedSigmas.SelectedIsRounded | tools/comfyui_h3_optimizations.py:50-51 | De-duplication and clamping drop and change nothing |
| ReducedSigmas.ReducedSchedule | tools/comfyui_h3_optimizations.py:30-54 | The output has target+1 entries, picked out of the last steps+1 base entries at the evenly spaced points rounded half to even, keeps both end points and stays strictly decreasing |
| ReducedSigmas.TotalStepsIs | tools/comfyui_h3_optimizations.py:36-41 | The base schedule is asked for steps / denoise steps, rounded down, below denoise one, and for the steps themselves otherwise |
| FlowSchedule.UnshiftedInvertsShifted | tools/h3_real_train_worker.py:675-693 | Inverting the video shift recovers the unit grid point |
| FlowSchedule.WorkerMatchesAdapter | tools/h3_real_train_worker.py:681-694 | For every number of evaluations the worker's schedules equal the adapters' in both modalities, error case included |
| FlowSchedule.BinaryScheduleIs | tools/h3_real_train_worker.py:681-694 | Point i of n has the odds shift * (n - i) / i, in the video grid with the video shift and in the audio grid with the audio shift |
| FlowSchedule.GridFalls | h3_training/adapters/real_h3.py:338-344 | Every schedule falls strictly from 1 to 0 |
| FlowSchedule.GridRefines | h3_training/adapters/tiny.py:111-118 | The n-step grid is every k-th point of the n*k-step grid, the even points for k = 2 |
| WanSchedule.EveryStageFits | tools/wan_student_train_worker.py:120-135 | A stage gets a grid out of any accepted native grid exactly when its evaluations divide the source; it is every k-th boundary and timestep, needs no padding and passes the checks of a new schedule |
| WanSchedule.AcceptsIff | harness4h3/student/wan_schedule.py:22-41 | What an accepted schedule satisfies: falling sigmas to zero and one timestep per evaluation within the tolerance of its mode |
| WanSchedule.CoarsensIff | harness4h3/student/wan_schedule.py:113-134 | A schedule can be coarsened exactly by a factor above one that divides its evaluations |
| WanSchedule.StagesNest | harness4h3/student/wan_schedule.py:113-134 | The boundaries and timesteps of a stage are every j-th of those of the stage with j times its evaluations |
| FlowMatching.EulerFollowsInterpolant | h3_training/adapters/real_h3.py:323-332 | Euler integration of the true velocity is on the clean/noise interpolant at every boundary of any schedule |
| FlowMatching.EulerEndsClean | h3_training/adapters/real_h3.py:262-332 | It ends on the clean latent, also when it starts from pure noise |
| FlowMatching.ConventionsAgree | h3_training/adapters/wan.py:512-514 | The H3 and the Wan convention give the same trajectory under negated velocity |
| FlowMatching.ReconstructionsRecoverClean | h3_training/adapters/wan.py:211-278 | Both conventions reconstruct the clean latent from any interpolant |
| FlowMatching.TinyReconstructs | h3_training/adapters/tiny.py:78-103 | The tiny adapter's mixing and reconstruction agree in its own time coordinate |
| FlowMatching.TinyStepStaysIff | h3_training/adapters/tiny.py:78-118 | Fed with schedule sigmas, a tiny step stays on its interpolant exactly when the interval is empty or clean and noise coincide |
| FlowMatching.LossZeroIff | tools/h3_real_train_worker.py:783-788 | The sum of the two mean squared errors is zero exactly when both endpoints are met |
| FlowMatching.EntryFormulas | h3_training/adapters/wan.py:211-278 | Mixing, stepping and reconstructing of the three adapters, entry by entry |
| FlowMatching.LossIs | tools/h3_real_train_worker.py:783-788 | The loss is the mean squared difference of the video entries plus that of the audio entries |
| FlowMatching.TargetIs | tools/h3_real_train_worker.py:733-775 | The target mixes at the even boundary, predicts there with the flipped sign, steps to the odd boundary, predicts and steps again, each modality over its own sigmas |
| FlowMatching.EndpointIs | tools/h3_real_train_worker.py:747-788 | The student endpoint is one step of its flipped prediction from the mix at its own boundary |
| FlowMatching.TwoStepsInOne | tools/h3_real_train_worker.py:747-760 | One student step meets two teacher steps exactly for the interval-weighted mean velocity |
| FlowMatching.DistillLossZeroIff | tools/h3_real_train_worker.py:733-788 | With the worker's schedules the distillation loss is zero exactly when both student velocities are the weighted means of the teacher's |
| FlowMatching.SchedulesAlign | tools/h3_real_train_worker.py:681-694 | The student boundaries of an interval are the outer teacher boundaries |
| LatentLayout.UnravelRavel | h3_training/adapters/real_h3.py:196-200 | Row-major positions determine their multi-index |
| LatentLayout.RavelUnravel | h3_training/adapters/real_h3.py:196-200 | Every buffer position is the position of one multi-index |
| LatentLayout.VideoChainCell | h3_training/adapters/real_h3.py:195-200 | The reshape/permute/reshape chain sends row (f,y,x), column (c,dy,dx) to (c, f, 2y+dy, 2x+dx) |
| LatentLayout.UnpatchVideoAccepts | h3_training/adapters/real_h3.py:180-193 | Exactly the caches of width 96 that hold a square patch grid per frame are accepted |
| LatentLayout.UnpatchVideoIsBijection | h3_training/adapters/real_h3.py:173-200 | The video unpatch is a bijection between cache cells and latent cells for every frame count and patch side |
| LatentLayout.UnpackAudioIsBijection | h3_training/adapters/real_h3.py:202-206 | The audio unpack accepts exactly two streams of width 32 and moves every cell once |
| LatentLayout.WorkerVideoAgrees | tools/h3_real_train_worker.py:640-646 | The worker's fixed video sizes are the instance with 5 frames and side 8 |
| LatentLayout.WorkerAudioAgrees | tools/h3_real_train_worker.py:649-650 | The worker's fixed audio sizes are the instance with 37 frames |
| SchedulerMachine.RolesAreIndependent | h3_training/adapters/wan.py:314-511 | In any interleaving of calls each role sees exactly the replies and the state it would see alone |
| SchedulerMachine.RestoreExactIff | h3_training/adapters/wan.py:387-434 | Restoring recreates the captured scheduler exactly when nothing outside the nine names differs and no covered name was added |
| SchedulerMachine.RestoreResumes | h3_training/adapters/wan.py:387-511 | Capture, any calls of any roles, restore: the role answers all later calls as right after the capture, and no other role is touched |
| SchedulerMachine.HiddenStateEscapes | h3_training/adapters/wan.py:394-408 | A scheduler attribute outside the nine names can make the restored role answer differently |
| SchedulerMachine.AcceptsAtMost | h3_training/adapters/wan.py:484-507 | A context accepts no more than its remaining steps, whatever is offered, and its index counts the accepted ones |
| SchedulerMachine.StepUsesOwnEntries | h3_training/adapters/wan.py:484-511 | A step over the scheduler's own interval runs the foreign step at the index-th timestep of its table; over another interval it is refused and nothing changes |
| SchedulerMachine.StepsWalkTheTable | h3_training/adapters/wan.py:484-511 | The k-th accepted step of a trajectory begun at i uses timestep i + k, whatever was refused before |
| SchedulerMachine.EulerStepIs | h3_training/adapters/wan.py:512-514 | Without a trajectory a step is latent + (next - current) * prediction, entry by entry |
| SchedulerMachine.PreparesIff | h3_training/adapters/wan.py:325-352 | When a begin succeeds, and which scheduler it leaves: a copy set up for all evaluations, then for the start index |
| SchedulerMachine.CaptureIs | h3_training/adapters/wan.py:387-414 | A capture holds the index, the class and the values of the nine named attributes that exist |
| SchedulerMachine.RestoreRefusedIff | h3_training/adapters/wan.py:416-434 | A restore is refused exactly without a trajectory or for another class, and then changes nothing |
| SchedulerMachine.AcceptsExactly | h3_training/adapters/wan.py:325-352 | A trajectory begun at i accepts at most nfe-i steps, and all of them in schedule order exactly if the scheduler's last sigma, which beginning never compares, is the schedule's |
| SchedulerMachine.ChecksStepsIff | h3_training/adapters/wan.py:314-353 | Until its next begin a role's steps are checked against the native table exactly when the scheduler has trajectories, there is a schedule and its setup succeeds; otherwise every interval is accepted, silently when there was nothing to begin |
| SchedulerMachine.CaptureThenRestore | h3_training/adapters/wan.py:387-434 | An adapter that restores only what it captured: capture, any interleaving, restore, and later calls answer as they would have at the capture |
| SchedulerMachine.EarnedFits | h3_training/adapters/wan.py:387-434 | Every snapshot captured in a run fits every scheduler of its kind, whichever role restores it |
| SchedulerTrajectory.WanAdapter.BeginTrajectory | h3_training/adapters/wan.py:314-352 | Drops the old trajectory first, then installs a fresh deep copy; every other role keeps its objects |
| SchedulerTrajectory.WanAdapter.SchedulerStep | h3_training/adapters/wan.py:472-514 | Refines the machine's step while the native scheduler changes its lists in place |
| SchedulerTrajectory.WanAdapter.CaptureNative | h3_training/adapters/wan.py:387-414 | The snapshot has the values of the nine names in list objects of its own |
| SchedulerTrajectory.WanAdapter.RestoreNative | h3_training/adapters/wan.py:416-434 | The scheduler gets clones, and the snapshot stays as it was |
| SchedulerTrajectory.NativeScheduler.Copy | h3_training/adapters/wan.py:280-301 | A deep copy shows the same attributes and shares no object |
| SchedulerTrajectory.WanAdapter.Interleave | h3_training/adapters/wan.py:314-514 | Any sequence of calls of any roles on the objects does what the machine does |
| SchedulerTrajectory.WanAdapter.Resume | h3_training/adapters/wan.py:387-434 | After capture, any calls and restore the role is where it was, and the snapshot still shows the captured values |
| TrajectoryRecord.Directory.Save | h3_training/wan_trajectory.py:226-242 | Nothing is written for a trajectory that does not validate; otherwise the tensor file and then the record are replaced |
| TrajectoryRecord.ValidIff | h3_training/wan_trajectory.py:179-224 | What a valid trajectory satisfies: versions, counts, falling schedules, finite tensors and digests, and nothing else |
| TrajectoryRecord.SaveThenLoadIff | h3_training/wan_trajectory.py:226-258 | Saving, then loading gives an equal trajectory exactly when files can be in both places, however they are named, and neither place is the other or below it |
| TrajectoryRecord.CrashGivesOldNewOrError | h3_training/wan_trajectory.py:75-104 | A save over an older record that dies anywhere leaves the old trajectory, the new one, or an error; between the writes it is the old one exactly when its tensors are untouched or equal |
| TrajectoryRecord.LoadsAreNeverMixed | h3_training/wan_trajectory.py:144-258 | With any number of savers dying anywhere, and record and tensors read at different moments, a load returns a wholly accepted trajectory or an error |
| TrajectoryRecord.RecordVouchesForTensors | h3_training/wan_trajectory.py:219-224 | Under a stored record only its own tensors load |
| TrajectoryBuilder.Integrate | h3_training/wan_trajectory_builder.py:106-134 | The loop keeps every boundary state, prediction and snapshot of the integration |
| TrajectoryBuilder.BuildRecord | h3_training/wan_trajectory_builder.py:86-172 | Checks, integration, digests and validation in source order |
| TrajectoryBuilder.NoisedIsInterpolant | h3_training/adapters/wan.py:211-216 | The first state is (1 - s) * clean + s * noise entry by entry: noise at one, clean at zero, the flow interpolant in between |
| TrajectoryBuilder.BuiltIsIntegration | h3_training/wan_trajectory_builder.py:86-172 | A built record names its inputs and holds the integration: at boundary j the teacher predicts at state j and sigma j and the native step over interval j leads to state j + 1 |
| TrajectoryBuilder.AssemblesIff | h3_training/wan_trajectory_builder.py:86-172 | Building fails exactly when an input is missing or malformed, the setup is refused or a step raises |
| TrajectoryBuilder.ReplayByEuler | h3_training/wan_trajectory_builder.py:226-246 | Without a native trajectory a replay is a chain of Euler steps along the teacher's predictions |
| TrajectoryBuilder.RollStaysFinite | h3_training/wan_trajectory_builder.py:113-139 | A teacher and a solver that keep finite tensors finite keep every state and prediction of the integration finite, latent and scheduler together |
| TrajectoryBuilder.BuilderAcceptsIff | h3_training/wan_trajectory_builder.py:86-172 | With such a teacher and solver the assembled record validates exactly when clean latent and noise are finite and both schedules fall to zero |
| TrajectoryBuilder.ReplayRecord | h3_training/wan_trajectory_builder.py:205-246 | The replay loop computes the replayed boundary states |
| TrajectoryBuilder.ReplayReproduces | h3_training/wan_trajectory_builder.py:205-246 | Replaying a built record reproduces every stored boundary state exactly |
| TrajectoryBuilder.SnapshotsResume | h3_training/wan_trajectory_builder.py:113-134 | Every stored snapshot, restored over any scheduler of the kind, continues through exactly the stored rest |
| TrajectoryBuilder.BuildInto | h3_training/wan_trajectory_builder.py:172-202 | The replay audit after saving never rejects, and the directory then loads the built trajectory |
| CheckpointPatch.Storage.PatchTensors | tools/h3_real_support.py:132-168 | Copy, then seek and write each range; all the checks come before the copy |
| CheckpointPatch.FormatReadsBack | tools/h3_real_support.py:82-101 | Eight little-endian length bytes, a JSON text and any payload are read back as the parsed header and the payload's position; a file cut inside the header is refused |
| CheckpointPatch.ReadsIff | tools/h3_real_support.py:82-101 | When a header is readable, and which check fails otherwise, in terms of the bytes |
| CheckpointPatch.PatchesIff | tools/h3_real_support.py:132-168 | A patch of a readable parent goes through exactly when each replacement names a tensor and fills its range; it puts the payloads at their offsets and changes no other byte and no other file |
| CheckpointPatch.WritesPatch | tools/h3_real_support.py:159-165 | With ranges in bounds and apart, each payload is in its range, every other byte and the length are unchanged |
| CheckpointPatch.PatchKeepsHeader | tools/h3_real_support.py:82-101 | The child reads back the parent's header and data start |
| CheckpointPatch.RangeEqual | tools/h3_real_train_worker.py:1199-1209 | The block loop decides equality of the two reads of any range |
| CheckpointPatch.VerifyChildRanges | tools/h3_real_train_worker.py:1212-1241 | The verifying loop computes the specified verdict and counts |
| CheckpointPatch.VerifyAcceptsIff | tools/h3_real_train_worker.py:1212-1241 | For any child the fast path accepts exactly on equal header and size, the full scan exactly if the frozen tensors are unchanged too, with equal counts |
| CheckpointPatch.ComparesBytes | tools/h3_real_train_worker.py:1199-1241 | A frozen tensor passes and a replaced one is not counted exactly when all bytes of its range agree |
| CheckpointPatch.PatchedVerifies | tools/h3_real_train_worker.py:1222-1241 | A patched child always passes, fast or full; the changed count is the number of replacements whose bytes differ, the rest is frozen |
| CheckpointStage.NextKeepsInv | tools/h3_checkpoint_stage.py:40-65 | Every file step, failure and crash of any prefetcher or worker keeps the staging invariant |
| CheckpointStage.SameNameIff | tools/h3_checkpoint_stage.py:24-29 | Two sources share a staged name exactly when stem, size and modification time agree, whatever dashes and digits a stem has |
| CheckpointStage.FailsIff | tools/h3_real_train_worker.py:581-609 | Staging fails exactly by a copy that fails or by a deletion that fails a prefetcher; a worker tolerates the latter |
| CheckpointStage.StagedFilesAreWhole | tools/h3_checkpoint_stage.py:43-55 | A file under a final staged name is always the whole of a source of that name |
| CheckpointStage.StagedFileIsMine | tools/h3_real_train_worker.py:610-613 | When names tell sources apart, the check after the barrier finds this very checkpoint |
| CheckpointStage.OnlyHolderTouchesFiles | tools/h3_real_train_worker.py:581-609 | Only the lock holder changes a file, and it is alone in the critical section |
| CheckpointStage.VisibleFilesNeverChange | tools/h3_checkpoint_stage.py:46-54 | A visible file is never written to; it appears whole, from the holder's own partial |
| CheckpointStage.CompletedSectionLeavesTarget | tools/h3_checkpoint_stage.py:56-65 | A completed section leaves exactly its target and no partials, but for deletions a worker tolerated |
| CheckpointStage.SomeoneCanMove | tools/h3_checkpoint_stage.py:40-65 | The lock holder is never stuck and a free lock can be taken |
| CheckpointStage.ServesOwnBytesIff | tools/h3_checkpoint_stage.py:24-29 | Every process is served its own bytes exactly when no two sources share stem, size and modification time |
| BlockPrune.ParseMade | tools/h3_real_prune_worker.py:28 | A rewritten name parses to the index and suffix it was made from |
| BlockPrune.ParsesIff | tools/h3_real_prune_worker.py:28 | A name is a block name of this index and suffix exactly when it spells blocks, digits of that value and the suffix, perhaps with a line end |
| BlockPrune.ImportanceIs | tools/h3_real_prune_worker.py:63-87 | A block's importance is the mean of the mean absolute values of its importance tensors, and fails exactly when there is none or one is empty or not finite |
| BlockPrune.RemoveCountBounds | tools/h3_real_prune_worker.py:207 | At least one block goes and one stays; otherwise the count is the least that reaches the ratio |
| BlockPrune.LeastAreRemoved | tools/h3_real_prune_worker.py:207-211 | Removed and kept blocks partition the range and every removed one sorts before every kept one by score, then index |
| BlockPrune.RenumberingIsBijection | tools/h3_real_prune_worker.py:211-212 | Renumbering is the increasing bijection from the kept blocks onto 0..k-1 |
| BlockPrune.RewriteState | tools/h3_real_prune_worker.py:213-222 | The loop fills the child's dictionary as specified, later names overwriting earlier ones |
| BlockPrune.ChildNameIs | tools/h3_real_prune_worker.py:214-222 | Block k of the child carries the names of the k-th kept block of the parent; other tensors keep their names and removed blocks have none |
| BlockPrune.PrunesIff | tools/h3_real_prune_worker.py:194-212 | A parent is pruned exactly for a ratio in range, at least two blocks numbered from zero, and an importance for each |
| BlockPrune.NamesMeetIff | tools/h3_real_prune_worker.py:214-222 | Two surviving names meet in one child name exactly when they are block names of one index and suffix |
| BlockPrune.RewriteKeepsTensors | tools/h3_real_prune_worker.py:213-222 | Without a clash every surviving tensor is in the child, unchanged, under its new name |
| BlockPrune.TensorsLostIffClash | tools/h3_real_prune_worker.py:213-222 | The child has as many tensors as survive exactly when there is no clash |
| BlockPrune.CanonicalNeverClash | tools/h3_real_prune_worker.py:214-222 | Canonically written indices never clash |
| BlockPrune.ClashCanHappen | tools/h3_real_prune_worker.py:204-222 | An accepted checkpoint that spells one index twice in its importance tensors loses one of them |
| BlockPrune.ChildIndicesMatch | tools/h3_real_prune_worker.py:162-163 | The child's block indices are exactly zero up to its layer count |
| BlockPrune.ParametersSplit | tools/h3_real_prune_worker.py:244-245 | Parameter counts split exactly between the child and the removed blocks |
| BlockPrune.PruneIsFaithful | tools/h3_real_prune_worker.py:194-223 | For every accepted parent and ratio: the less important blocks go, every other tensor is carried over unchanged under its new number, and parameters add up |
| StageManager.PlanBinaryStages | h3_training/algorithms/progressive_distillation.py:83-97 | The halving loop computes the specified plan or error |
| StageManager.PlanIff | h3_training/algorithms/progressive_distillation.py:83-97 | There is a plan exactly when the source is the target times a power of two, with one halving stage per factor |
| StageManager.ProgressiveStageManager.Create | h3_training/algorithms/progressive_stage_manager.py:36-47 | Construction plans the stages and checks order and evaluations of given promotions |
| StageManager.ProgressiveStageManager.PromoteStudent | h3_training/algorithms/progressive_stage_manager.py:76-108 | An accepted, distinct student of the planned evaluations becomes the teacher; otherwise nothing changes |
| StageManager.PromotesIff | h3_training/algorithms/progressive_stage_manager.py:76-108 | A promotion is taken exactly when a stage is left for an accepted, distinct student of its evaluations with a checkpoint, and records teacher, student and stage |
| StageManager.MakesIff | h3_training/algorithms/progressive_stage_manager.py:36-47 | A manager is made exactly for a plan, a named teacher and promotions that follow the plan in order |
| StageManager.ProgressiveStageManager.FromState | h3_training/algorithms/progressive_stage_manager.py:123-147 | The replay loop rebuilds the specified manager or raises |
| StageManager.PromoteKeepsChain | h3_training/algorithms/progressive_stage_manager.py:76-108 | Each stage's teacher is the previous stage's student |
| StageManager.ChainHalves | h3_training/algorithms/progressive_stage_manager.py:50-62 | Evaluations halve with every promotion and the plan is complete exactly when they reach the target |
| StageManager.RestoredIsChain | h3_training/algorithms/progressive_stage_manager.py:123-147 | Every accepted state describes such a chain |
| StageManager.StoreThenRestore | h3_training/algorithms/progressive_stage_manager.py:110-147 | from_state_dict(state_dict(m)) rebuilds m for every chained manager with resolved paths |
| StageManager.PromoteKeepsResolved | h3_training/algorithms/progressive_stage_manager.py:93 | With idempotent path resolution promotion only stores resolved paths |
| StageManager.RestoreThenStoreIff | h3_training/algorithms/progressive_stage_manager.py:123-147 | An accepted state is stored again unchanged exactly when it has every key, no other one, and its unread fields agree with the replay |
| StageManager.UnreadFieldsAreIgnored | h3_training/algorithms/progressive_stage_manager.py:125-141 | A state with a wrong stage index and wrong teacher evaluations is accepted and comes back corrected |

## Left out

- The controller, the training worker, the evaluator, model forward passes, the VAE and CLIP scoring are arbitrary functions or arbitrary answers.
- Prompts and vLLM requests, launcher processes, GPU polling, event and experience logs, controller-attempt files and the final campaign result file are not modelled; none of them is read back by the loop.
- Configuration, evidence and release checks (`load_loop_config`, preflight, release gates) are long conjunctions settled by reading one branch.
- The campaign root is used by one campaign process at a time, and a child checkpoint lies in its own round directory; a training worker that outlives its crashed parent is not modelled.
- The adaptive visual retry after a strict evaluation, and worker timeouts of the sharded evaluation, are not modelled.
- Floating-point rounding, tensor dtypes and devices are not modelled: tensors hold reals, with one mark for non-finite entries, and the row merge compares given similarities.
- A name in a trajectory directory leads to a fixed path; links are resolved in that map. Latents have at least one entry.
- SHA-256 and JSON are modelled as structure: no collisions, parsing of a safetensors header is an arbitrary function. The snapshot digest does not tell a tuple from a list; values here have one sequence constructor.
- Writes that the source makes atomic by renaming are one step; what a machine, rather than a process, may lose after a rename without a sync is not modelled, and neither are leftover temporary files, which nothing reads.
- The native scheduler is deterministic in its attributes; list attributes are changed in place, tensors are values, and broadcasting between latents of different shapes is an error. Reuse of a role's object identity after it is freed is not modelled.
- A scheduler table index past the end is reported as a failed step, where the source raises a plain index error.
- Reloading the pruned child through the foreign loader, and quantization sidecars, which only change labels, are not modelled.
- Sources of staged checkpoints lie outside the staging directory and do not change while they are copied.
- A child file that is being patched is not renamed into place, so a crash while patching leaves a partial child; only completed patches are described.
- tools/wan_fidelity_campaign.py, tools/wan_loss_ablation.py, tools/wan_visual_retry.py and the unlocked staging of tools/student_train_worker.py would only add easier members of the same kinds.
