# Verified models of operad's engines

operad composes LLM agents into typed trees, type-checks them by a symbolic trace, runs them behind
a rate limiter, trains their prompts with textual gradients, and persists and displays what it did.
This project models nine of its engines in Dafny and proves what they guarantee, or, where the code
does not keep a guarantee on all inputs, the exact condition under which it does. Where code and
documentation differ the models follow the code.

| files | what they model |
|---|---|
| `SlidingWindow`, `SlotProtocol`, `RpmGate`, `SlotOvershoot`, `TpmGate`, `TpmOvershoot`, `SlotBilling`, `WaiterOrder`, `GateQueues` | the sliding-window counters and tokens as objects; tasks interleaving through semaphore, RPM and TPM gates as a state machine over atomic steps; ghost ledgers |
| `Architectures`, `Compositions`, `BuildAcceptance`, `BuildSoundness`, `BuildExactness` | `build()` as a type checker for trees of leaves, Sequential, Loop, Parallel and Router, against an evaluator with arbitrary leaves |
| `TracerPaths`, `RunPaths` | the tracer as gathered tasks on an event loop that share one stack, and the paths it records against those that runs report |
| `DeficitSchedule`, `StratifiedSampler`, `BatchLoader` | the deficit scheduler in exact arithmetic (deficits scaled by the number of samples), the stratified sampler and the batch iterator |
| `Gradients`, `MergedGradients` | merging textual gradients, and what a batch does to pending ones |
| `TrainingCassette`, `TrainingReplay`, `ReplayKeys`, `EpochReports`, `TrainerLoop` | the training loop in record and replay mode, as functions and as an object |
| `MutationOps`, `MutationEdits`, `MutationRollback`, `RollbackExactness` | in-place mutation ops, their private snapshots, compound ops with rollback |
| `AgentTrees`, `AgentClone`, `AgentFreeze`, `AgentThaw`, `TracedThaw` | agent objects with types, shared children and routing references; clone, freeze and thaw, also with the graph that the tracer recorded |
| `ScenarioTree`, `Conversation` | the scenario tree, its flat listing, and the conversation that walks it |
| `TracePairing`, `TracePersistence`, `JsonReader` | the two step-matching loops; the two trace file formats, and a reader for JSON (RFC 8259) that reads them back |
| `MermaidForest`, `IoGraphs`, `IoGraphContents` | the nesting of the Mermaid view, and the two input/output views |
| `Options`, `Selections` | optional values; sublists by their positions |

Code that updates state is a class or a method proved equal to a function of its inputs or of the old
state; the theorems are about those functions.

Worth knowing, and proved; "exactly when" stands for an if-and-only-if over all inputs:

- The RPM gate can overshoot its budget by the number of permits less one, and does; it stays within
  budget on every run only with a single permit.
- At the TPM gate the window and the grants together exceed the limit by at most a reserve for each
  permit but one, and for each permit what a call costs beyond what its refund gives back. That bound is
  reached too; the window stays within the limit on every run exactly with a single permit and no such
  excess.
- Settling a token below its reserve while the TPM limit is 0 leaves the reserve on the counter.
- Gathered tasks share the tracer's stack. A node is recorded under the path that runs report, for
  every node, exactly when of the children of each Parallel only the last may contain a Parallel.
- `build()` accepts exactly the trees in which every declared type fits where it is used, a Router's output
  being compared with its first branch only. Mismatches at run time are excluded exactly when every router
  accepts what its branches yield.
- A batch in which a parameter gets no gradient drops that parameter's pending one, so "regardless of
  batch boundaries" (`operad/train/trainer.py:163-171`) holds exactly when no contributing batch is
  followed by an empty one. Samples come newest batch first, so "arrival order" (the same lines) holds
  exactly when, besides, at most one batch contributes.
- Replaying a training cassette reproduces the recording exactly when every epoch with batches ends
  on an accumulation boundary and no two parameters share a path. Paths are local to their agent, so
  parameters of different agents can share one.
- A replay from other parameter values than the recording's, or on other inputs in its first window,
  raises at its first step, before it overwrites anything, if the first epoch with batches fills a window.
- After a successful apply, undo fails exactly when an op object occurs twice or a compound is empty.
  After a failing one, rollback stops half-way exactly when that is so among the ops that were applied
  by then; the caller sees the error of the undo instead of its cause.
- `clone()` keeps sharing below one parent; an agent attached to two parents is cloned twice.
- A frozen tree thaws exactly when no agent sits under two paths, the root has a name, and every agent's
  path is in the recorded graph or its class declares input and output, provided different paths have
  different dotted forms, as they do without dots in attribute names. Each agent comes back with the
  types of its recorded node, else with those of its class. Agents whose dotted paths coincide come back
  with one class and the same types.
- If of each Parallel's children only the last may contain a Parallel, the tracer has recorded all types,
  so they never stand in the way of thawing. A Parallel of a Parallel and a leaf, all of classes that
  declare no types, can be built and frozen and does not thaw.
- While a limit is 0, newcomers pass and whoever was queued before stays queued.
- A scenario tree comes back from its listing exactly when every node is named as parent by as many
  later rows as it has children; unique ids are enough for that, not necessary.
- `trace_diff(t, t)` with a negative tolerance reports every step as changed.

## Model

| member | source | states |
|---|---|---|
| SlidingWindow.ExpiredIsWindow | operad/runtime/slots.py:69-73 | expiry from the front of a sorted deque keeps exactly the events inside the window and never changes a tally over a later cutoff |
| SlidingWindow.RefundTakesNewest | operad/runtime/slots.py:106-128 | a refund takes its amount from the newest events: every tally from a cutoff on drops by the amount, but not below zero |
| SlidingWindow.RefundKeepsShape | operad/runtime/slots.py:106-128 | after a refund the events are still sorted and positive, with unchanged stamps |
| SlidingWindow.SlidingCounter.Expire | operad/runtime/slots.py:69-73 | the loop leaves `Expired` of the old events |
| SlidingWindow.SlidingCounter.Current | operad/runtime/slots.py:75-78 | returns the units stamped inside the window |
| SlidingWindow.SlidingCounter.TryAcquire | operad/runtime/slots.py:80-92 | admits at once if and only if there is no limit or nothing is asked for, or nobody queues and the amount fits on top of the window; else queues a pending future |
| SlidingWindow.AcquireAdmitsIff | operad/runtime/slots.py:80-92 | that condition, and what becomes of the queue and the futures either way |
| SlidingWindow.SlidingCounter.Abandon | operad/runtime/slots.py:91-96 | a cancelled waiter leaves the queue, everybody else keeps their place |
| SlidingWindow.SlidingCounter.ChargeUnits | operad/runtime/slots.py:98-104 | expire, record, wake: every tally inside the window grows by the amount, at the present time |
| SlidingWindow.ChargeRecords | operad/runtime/slots.py:98-104 | the same of the charge itself, for every cutoff inside the window |
| SlidingWindow.SlidingCounter.RefundUnits | operad/runtime/slots.py:106-128 | the index loop over the deque is the recursive newest-first refund, followed by a wake |
| SlidingWindow.SlidingCounter.WakeWaiters | operad/runtime/slots.py:130-143 | the FIFO loop serves a prefix of the queue: each of it fits on top of the window and those before it, the next does not, and exactly the pending futures in it are resolved |
| SlidingWindow.SlidingCounter.ChangeLimit | operad/runtime/slots.py:63-67 | new limit, then a wake |
| SlidingWindow.WokenIsPrefix | operad/runtime/slots.py:130-143 | a pass over the queue serves a prefix of it, as long as needs fit, and resolves exactly the pending futures in it |
| SlidingWindow.WakeServes | operad/runtime/slots.py:130-143 | a wake-up keeps the window and all needs it serves within the limit and stops at the first waiter that does not fit |
| GateQueues.NoOvertaking | operad/runtime/slots.py:43-47 | on every run from the start and at both gates, whenever two tasks are queued the later one gets nothing, on any continuation, while the earlier one still waits |
| GateQueues.RunsStayOrderly | operad/runtime/slots.py:80-96 | on every run each queued task is listed once, is suspended at that gate with that request, and has no grant |
| GateQueues.NoGrantAtZero | operad/runtime/slots.py:130-143 | whoever is queued when the limit is 0 gets nothing, on any run, until the limit is set to something else |
| SlidingWindow.SlotToken.Settle | operad/runtime/slots.py:156-171 | the first settlement refunds the reserve and charges the cost; later ones change nothing |
| RpmGate.StepKeeps | operad/runtime/slots.py:80-143 | every atomic step of every task keeps the overshoot invariant |
| RpmGate.BoundedOvershoot | operad/runtime/slots.py:359-395 | after any run that never lowers the budget, units in the window plus uncharged grants are at most the limit plus permits less one, under cancellation too |
| SlotOvershoot.OvershootIsReached | operad/runtime/slots.py:130-143 | for every limit and number of permits some run reaches that bound inside one window |
| SlotOvershoot.WithinBudgetIffOnePermit | operad/runtime/slots.py:359-395 | the window stays within budget on all such runs if and only if there is one permit |
| SlotProtocol.ProvisionalReserve | operad/runtime/slots.py:351-356 | a reserve is twice the tokens asked for, and never less than one |
| TpmGate.StepKeeps | operad/runtime/slots.py:80-171 | every atomic step of every task keeps the TPM bound, with one more excess to spare for each permit not in use at the gate |
| TpmGate.TpmOvershoot | operad/runtime/slots.py:359-395 | after any run that never lowers the limit, tokens in the window plus reserves granted and not yet charged are at most the limit, a reserve for each permit but one and an excess for each permit |
| TpmOvershoot.OvershootIsReached | operad/runtime/slots.py:130-171 | for every number of permits, every reserve up to the limit and every excess some run puts exactly that many tokens inside one window |
| TpmOvershoot.WithinLimitIff | operad/runtime/slots.py:359-395 | the window stays within the TPM limit on all such runs if and only if there is one permit and no call costs more than its refund gives back |
| SlotBilling.BillingDominance | operad/runtime/slots.py:106-171 | on every run, for every cutoff, the recorded tokens are covered by open reserves and settled costs from that cutoff on |
| SlotBilling.BillingExactWhileQuiet | operad/runtime/slots.py:106-171 | on runs where nothing expires both tallies are equal |
| SlotBilling.WindowCoveredBySettledCost | operad/runtime/slots.py:156-171 | once all tokens are settled the window holds no more than the real cost charged inside it |
| SlotBilling.SettleKeepsDominanceIff | operad/runtime/slots.py:156-171 | one settlement keeps dominance at every cutoff if and only if the limit is not 0 or the cost is at least the reserve |
| SlotBilling.UnlimitedSettlementLeaks | operad/runtime/slots.py:98-128 | a run in which a reserve stays on the counter because the limit was 0 at settlement |
| BuildAcceptance.BuildAcceptsIff | operad/core/build.py:250-359 | `build()` accepts a tree if and only if each stage admits what the one before declares, a loop of two or more passes its last output at its first stage, gathered children and unadapted branches their parent's input, and what each composite returns under the trace conforms to its output |
| BuildAcceptance.BuildReportsFirst | operad/core/build.py:260-307 | of all checks of the trace in order the first that fails is reported, and if none fails the tree is accepted |
| Compositions.LinearReturns | operad/core/flow.py:41-45 | what a Sequential or a Loop returns came through every stage in order, pass after pass, each handed what the one before returned, the first the input |
| Compositions.ParallelReturns | operad/core/flow.py:66-71 | every child is handed the input, and `combine` is given the answers of all of them, one each and in the order of the children |
| Compositions.ParallelFails | operad/core/flow.py:66-69 | a failing child keeps no other from running; the error is that of the first that failed in the order of the children, or a crash of `combine` |
| Compositions.RouterReturns | operad/core/flow.py:171-192 | the branch whose key the selector answers is invoked, on the input or on what `branch_input` makes of it, and its answer returned |
| Compositions.RouterMissesIff | operad/core/flow.py:171-187 | without a branch of that key the Router misses and nothing else runs; with one it ends as that branch does |
| Compositions.ErrorsSurface | operad/core/agent.py:1512-1560 | an invocation returns if and only if nothing was raised anywhere below it, by gathered siblings either; a failing one reports an error that was raised |
| BuildSoundness.BuildIsSound | operad/core/build.py:250-359 | an accepted tree whose routers accept what their branches yield never raises a mismatch in any run of well-behaved leaves, and returns instances of its output |
| BuildSoundness.ConformDelivers | operad/core/flow.py:152-192 | declared conformity of all branch outputs makes every router accept what its branches yield |
| BuildSoundness.BuildIsSoundWhenBranchesConform | operad/core/agent.py:1470-1497 | the same guarantee from the declarations alone, for outcomes and for swallowed errors |
| TracerPaths.TameTrace | operad/core/build.py:250-307 | if of gathered siblings only the last gathers again, the trace ends and its nodes are the paths of the code in order |
| TracerPaths.FaithfulIffTame | operad/core/flow.py:64-67 | at every stage of the trace every invocation is recorded under the path it reports at run time, if and only if of gathered siblings only the last gathers again |
| TracerPaths.UnnestedIsTame | operad/core/flow.py:64-67 | trees without a Parallel below a Parallel meet that condition |
| RunPaths.RunPathsAreRecorded | operad/core/agent.py:1409-1417 | under that condition every path reported in any run, failed ones included, is the path of a recorded node |
| RunPaths.RunVisitsTheGraph | operad/core/agent.py:1409-1417 | without a router besides, a run that returns a value passes each recorded node as often as the trace did, in whatever order siblings run |
| RunPaths.NestedGatherIsMisrecorded | operad/core/build.py:250-258 | a Parallel of a Parallel and a leaf: the leaf is recorded below its sibling, where no run reports it |
| BuildExactness.NeverMismatchesIffDelivers | operad/core/flow.py:163-173 | for accepted trees no run of well-behaved leaves ever mismatches if and only if every router accepts what its branches yield, selectors being free to answer with every branch key |
| DeficitSchedule.PickedIsPositive | operad/data/loader.py:157-172 | every pick goes to a class of positive deficit |
| DeficitSchedule.Discrepancy | operad/data/loader.py:157-172 | after any number of picks a class is strictly between its share less m - 1 and its share plus 1 |
| DeficitSchedule.FairBatch | operad/data/loader.py:157-172 | any b consecutive picks are within m of the fair share |
| DeficitSchedule.NoWrap | operad/data/loader.py:157-172 | within a pass no class is picked more often than it has members |
| DeficitSchedule.AllPicked | operad/data/loader.py:157-172 | after a full pass every class was picked exactly as often as it has members |
| StratifiedSampler.IndexOfLargest | operad/data/loader.py:164-166 | the first class of largest deficit is picked |
| StratifiedSampler.Interleave | operad/data/loader.py:157-172 | the loop over pointers and deficits yields what the schedule says, and its modulo never wraps |
| StratifiedSampler.EachMemberOnce | operad/data/loader.py:157-172 | a pass yields every member of every class exactly once |
| StratifiedSampler.Group | operad/data/loader.py:197-211 | samples are bucketed by key, keys in order of first appearance, samples of a key in ascending order |
| StratifiedSampler.StratifiedOrder | operad/data/loader.py:197-221 | whatever the shuffle, the order is a permutation of the indices and every window of it is fair to every key |
| BatchLoader.LoaderIter.Next | operad/data/loader.py:314-353 | one step hands out the next batch, closes the one in flight and announces the new one |
| BatchLoader.LoaderIter.FlushPending | operad/data/loader.py:370-385 | the batch in flight is closed once |
| BatchLoader.Drain | operad/data/loader.py:295-353 | a full iteration yields all batches, each announced and closed once before the next |
| BatchLoader.BatchSlice | operad/data/loader.py:314-353 | batch i is the slice of the order from i times the batch size |
| BatchLoader.BatchesCover | operad/data/loader.py:282-286 | the batches put together are the order (or its whole batches), and there are as many as `len` says |
| BatchLoader.EveryBatchIsFair | operad/data/loader.py:175-221 | every batch of a stratified order holds each class within m of its fair share |
| Gradients.MergeGrads | operad/train/trainer.py:57-89 | the loops join messages and fields in order, keep first occurrences of paths and take the worst severity; one gradient is passed through |
| MergedGradients.MergedSays | operad/train/trainer.py:57-89 | the merged message is the non-empty messages in order, joined; a field is there if some gradient has it, with the values in order; paths are the first occurrences; severity is the largest |
| MergedGradients.JoinSeparates | operad/train/trainer.py:57-89 | joining puts the separator between two texts, and only there |
| Gradients.MergeNested | operad/train/trainer.py:57-89 | merging a tail first changes nothing |
| Gradients.RunBatch | operad/train/trainer.py:598-648 | every parameter's slot goes from its pending gradient and the batch's samples to what `AfterBatch` says; the loss is the samples' mean |
| MergedGradients.ContributionsAre | operad/train/trainer.py:617-641 | the gradients a batch contributes to a parameter are those written by the samples that reach it with some severity, every one, in sample order |
| Gradients.WindowIsFlatMerge | operad/train/trainer.py:598-648 | if no contributing batch is followed by an empty one, the window's gradient is the one merge of all samples, newest batch first |
| Gradients.BoundariesDoNotMatterIff | operad/train/trainer.py:163-171 | for a given window shape batch boundaries never matter if and only if no contributing batch is followed by an empty one |
| Gradients.ArrivalOrderIff | operad/train/trainer.py:163-171 | for a given window shape the gradient is the merge in arrival order if and only if nothing is dropped and at most one batch contributes |
| Gradients.ArrivalOrderFails | operad/train/trainer.py:640-645 | two batches of one sample each: target paths come out newest first |
| TrainingCassette.LoadIsLastLine | operad/utils/cassette.py:118-128 | of the lines with one key the last is loaded |
| ReplayKeys.DueStepRecorded | operad/train/trainer.py:336-396 | a step is recorded as one more line, with the epoch, step, inputs and parameter values it was taken on and the values it left |
| ReplayKeys.DueStepFoundIff | operad/train/trainer.py:286-334 | a due step of a replay succeeds if and only if the file holds a line recorded at that epoch and step, on that window's inputs and from exactly those parameter values; the last such line's values are then in force |
| ReplayKeys.FirstStepFoundIff | operad/utils/cassette.py:280-308 | against a fresh recording the first step is found if and only if the replay starts from the recording's values and its first window has the recording's inputs |
| ReplayKeys.OtherRunsMiss | operad/train/trainer.py:286-301 | replaying a fresh recording from other values, or with other inputs in the first window, raises |
| EpochReports.EpochReported | operad/train/trainer.py:276-439 | an epoch reports every batch's loss, on the values that the batches before left, and the values it leaves, then the values at the end and the mean loss over samples; the scheduler moves once |
| TrainingCassette.RestoreIffDistinct | operad/train/trainer.py:306-310 | storing values by path and writing them back is the identity for all values if and only if paths are distinct |
| TrainingReplay.RecordStamped | operad/utils/cassette.py:311-341 | a recording's own lines carry strictly increasing (epoch, step) stamps |
| TrainingReplay.ReplayRefinesRecord | operad/train/trainer.py:286-396 | under the condition below, replay shows the recording's values, scheduler state and losses after every batch and epoch, for any optimizer and loss and any earlier lines |
| TrainingReplay.StepPerBatchRefines | operad/train/trainer.py:286-396 | without accumulation distinct paths are enough |
| TrainingReplay.FlushIsLost | operad/train/trainer.py:397-439 | an epoch that ends inside a window is flushed by the recording and not by the replay |
| TrainingReplay.SharedPathIsLost | operad/train/trainer.py:306-310 | two parameters with one path cannot both be replayed |
| TrainingReplay.AlwaysRefinesIff | operad/train/trainer.py:234-439 | replay always refines record if and only if windows close with their epochs and paths are distinct (or there is no batch) |
| TrainerLoop.Cassette.Open | operad/utils/cassette.py:118-128 | the loading loop builds the last-line-wins index |
| TrainerLoop.Cassette.RecordStep | operad/utils/cassette.py:311-341 | a step is appended to the file and indexed |
| TrainerLoop.Trainer.WriteBack | operad/train/trainer.py:306-310 | the two nested loops write each stored value to the first parameter with that path |
| TrainerLoop.Trainer.RecordOne | operad/train/trainer.py:276-396 | one batch while recording |
| TrainerLoop.Trainer.ReplayOne | operad/train/trainer.py:286-334 | one batch while replaying, exactly as in `DueStepFoundIff`; a missing key raises |
| TrainerLoop.Trainer.FitRecording | operad/train/trainer.py:234-439 | the epochs of a recording, residual flush included |
| TrainerLoop.Trainer.FitReplaying | operad/train/trainer.py:234-439 | the epochs of a replay, without flush |
| TrainerLoop.RecordThenReplay | operad/utils/cassette.py:344-366 | recording and then replaying from the same start ends in the same values, scheduler state and reports, without a miss |
| MutationOps.ResolvePath | operad/utils/paths.py:51-69 | the loop over the segments is the lookup of the dotted path |
| MutationEdits.ResolveFollows | operad/utils/paths.py:51-69 | the empty path is the root; a path extended by an attribute leads to that child of where the path led, if it has one |
| MutationOps.Op.ApplyPrimitive | operad/utils/ops.py:56-355 | one primitive edit: it is refused exactly when its path leads nowhere or the edit makes no sense there, and then changes nothing; else the one field it names is written, at the target only, and its old value kept for undo |
| MutationOps.EditWrites | operad/utils/ops.py:56-355 | what each edit writes: appends keep the list and end with the new item, a replacement stands at its index from either end and nowhere else, a drop removes exactly that position, a setter changes its one field; refused exactly for an index out of range, a missing configuration or a bad example |
| MutationOps.WroteIsExact | operad/utils/ops.py:56-355 | that description leaves one possible result |
| MutationOps.Op.UndoPrimitive | operad/utils/ops.py:56-355 | the snapshotted field is put back and the snapshot dropped |
| MutationOps.Op.Rollback | operad/utils/ops.py:419-423 | the applied parts are undone last first, up to the first error |
| MutationOps.Op.UndoOp | operad/utils/ops.py:426-431 | undo of any nesting of ops |
| MutationOps.Op.ApplyOp | operad/utils/ops.py:414-424 | apply of any nesting of ops, with rollback; a primitive op as `ApplyPrimitive` has it |
| MutationEdits.AppliedInOrder | operad/utils/ops.py:414-424 | an apply that goes through has made every primitive edit of the nesting once, first to last, each on what the one before left |
| MutationRollback.UndoRestores | operad/utils/ops.py:401-431 | after a successful apply of a reversible op, undo restores every field of every agent, also when paths overlap |
| MutationRollback.UndoSucceedsIff | operad/utils/ops.py:426-431 | after a successful apply undo succeeds if and only if no op object occurs twice and no compound is empty |
| RollbackExactness.RollbackSucceedsIff | operad/utils/ops.py:414-424 | a failing apply of any nesting reports the refused edit's own error, and then has changed no agent, if and only if the ops applied before the failure hold no object twice and no empty compound |
| RollbackExactness.FlatRollbackIff | operad/utils/ops.py:419-423 | the rollback of one compound at a refused primitive edit goes through if and only if the parts before it are reversible |
| RollbackExactness.FailedApplyRestores | operad/utils/ops.py:414-424 | a failing apply of a reversible op changes no agent and reports the failing part's own error |
| RollbackExactness.RepeatBreaksRollback | operad/utils/ops.py:419-423 | a compound of one op object twice and a failing part keeps one of the two edits |
| RollbackExactness.EmptyBreaksRollback | operad/utils/ops.py:426-428 | an edit, an empty compound and a failing part: the edit stays |
| RollbackExactness.ApplyThenUndo | operad/utils/ops.py:401-431 | on live agents, apply followed by undo leaves every field as it was |
| AgentTrees.StateWalk | operad/core/agent.py:415-440 | the state snapshot holds, at every path, every declared field, the two type names and the children's keys of the agent there |
| AgentTrees.DottedInjective | operad/core/freeze.py:485-488 | without dots in attribute names, dotted strings name attribute paths one to one |
| AgentClone.CopyExtras | operad/core/agent.py:545-557 | routing values are copied with every own child replaced by its clone, whatever becomes of other agents |
| AgentClone.Clone | operad/core/agent.py:491-559 | the clone is new at every depth, has the class, fields, attribute names and per-parent sharing of the original, but for the context asked for at the root, and its routing values point at its own children |
| AgentClone.CloneKeepsState | operad/core/agent.py:415-440 | the clone's declared state is the original's, but for the context asked for |
| AgentClone.CloneMirrors | operad/core/agent.py:545-557 | at every path the references lead to the child under the same attribute |
| AgentClone.SharingSurvivesIff | operad/core/agent.py:507-509 | the clone has the original's sharing if and only if no agent is attached to two parents |
| AgentFreeze.RedactedAt | operad/core/freeze.py:223-247 | at every path name, role, task, style, context, rules, examples and children's keys are unchanged, a configuration is there if it was, with its key gone and the rest unchanged |
| AgentFreeze.SubstituteStands | operad/core/freeze.py:103-145 | substitution succeeds exactly for references to own children in lists and dicts, and puts their attributes in |
| AgentFreeze.ResolveCopies | operad/core/freeze.py:148-158 | a frozen reference resolves to the new child under the same attribute |
| AgentFreeze.LabelledTree | operad/core/agent.py:2300-2322 | the breadth-first walk labels every agent once, with a shortest path that leads to it |
| AgentFreeze.NameChildren | operad/core/freeze.py:362-366 | the identity map names every child by one of its attributes |
| AgentFreeze.PlainIsUnambiguous | operad/core/freeze.py:355-358 | without dots in attribute names, different paths have different keys in the record |
| AgentFreeze.DottedNamesCollide | operad/core/freeze.py:485-488 | an attribute named like a path below a sibling has that path's key |
| AgentFreeze.Freeze | operad/core/freeze.py:335-407 | freezing succeeds exactly when all routing values are storable; the record holds the redacted state and, keyed by dotted strings, one label with class and routing for every agent, and beside them the recorded graph as it is |
| AgentThaw.Reconstruct | operad/core/freeze.py:449-489 | rebuilding succeeds exactly when every path of the state has a class, and a node in the graph or types declared by that class; it builds new agents with the recorded fields, those types and resolved routing |
| AgentThaw.LabelledIffUnshared | operad/core/freeze.py:355-358 | the keys written at freeze are those looked up at thaw exactly for unshared trees with a named root |
| AgentThaw.Thaw | operad/core/freeze.py:516-560 | a frozen tree thaws if and only if it was unshared, its root named, and every agent's dotted path recorded in the graph or its class typed; every agent gets the types found that way |
| AgentThaw.AmbiguousPathsShareAClass | operad/core/freeze.py:457-489 | agents whose dotted paths coincide come back with one class and the same types, whatever the record holds |
| AgentThaw.ThawMirrors | operad/core/freeze.py:491-513 | at every path the thawed agent has the class and every declared field but the key of the configuration, and its references lead to its own children |
| AgentThaw.TypesComeBackIff | operad/core/freeze.py:449-479 | every thawed agent has its own types again if and only if at every path the node last recorded there, or without one the class, has them |
| AgentThaw.ThawedStateIff | operad/core/freeze.py:180-220 | the thawed state is the redacted state if and only if every agent had a name and its type names came back |
| AgentThaw.FreezeThenThaw | operad/core/freeze.py:335-571 | the round trip on live agents with any recorded graph: when it succeeds, and what comes back, field by field at every path |
| TracedThaw.TameTypesRecorded | operad/core/build.py:250-307 | at the end of a trace in which of gathered siblings only the last gathers again, every agent of an unshared tree is recorded under its own path with its own types |
| TracedThaw.TameRoundTrip | operad/core/freeze.py:335-571 | such a tree thaws if and only if its routing is storable, it is unshared and its root named, and every agent comes back with its own types |
| TracedThaw.NestedTypeMissing | operad/core/build.py:250-258 | in the trace of a Parallel of a Parallel and a leaf, no types are recorded under the leaf's path |
| TracedThaw.NestedDoesNotThaw | operad/core/freeze.py:464-478 | that tree, as four agents whose classes declare no types: storable, unshared, named and without dots, yet thawing fails |
| ScenarioTree.FindIffListed | operad/algorithms/talker_reasoner.py:84-96 | lookup finds an id exactly when the tree has it |
| ScenarioTree.Serialize | operad/algorithms/talker_reasoner.py:99-121 | the appending walk produces the pre-order rows |
| ScenarioTree.RowIds | operad/algorithms/talker_reasoner.py:102-115 | every node is listed once |
| ScenarioTree.ParentsFirst | operad/algorithms/talker_reasoner.py:102-115 | every row but the root's comes after its parent's |
| ScenarioTree.ListingRebuilds | operad/algorithms/talker_reasoner.py:99-121 | with unique ids the ordered tree comes back from the (id, parent id) list |
| ScenarioTree.ListingRebuildsIff | operad/algorithms/talker_reasoner.py:99-121 | it comes back if and only if every node is named as parent by as many later rows as it has children |
| ScenarioTree.ListingInjective | operad/algorithms/talker_reasoner.py:99-121 | equal listings come from trees equal on the listed fields |
| ScenarioTree.RepeatedIdsAreAmbiguous | operad/algorithms/talker_reasoner.py:52 | without unique ids two different trees have one listing |
| Conversation.ApplyMoves | operad/algorithms/talker_reasoner.py:591-611 | a decision stays or goes to a child, whatever id the navigator invents |
| Conversation.DecisionLeads | operad/algorithms/talker_reasoner.py:591-611 | where each decision leads: finish and stay to the node, advance to an only child, branch to the first child of that id, everything else to the node; and whether it is terminal |
| Conversation.RunKeeps | operad/algorithms/talker_reasoner.py:464-514 | in every run the turns are a numbered walk in the tree, only the last may be terminal, and there are at most `max_turns` |
| Conversation.RunStops | operad/algorithms/talker_reasoner.py:484-488 | a run ends with its script, with a terminal turn or with its turns used up, one message a turn in order |
| Conversation.RunIsTold | operad/algorithms/talker_reasoner.py:518-589 | every turn a run adds is decided and spoken by the two agents on the turns before it |
| Conversation.MovesBounded | operad/algorithms/talker_reasoner.py:591-611 | with unique ids a run moves at most as often as its start node is high |
| Conversation.TalkerReasoner.Make | operad/algorithms/talker_reasoner.py:392-424 | which arguments are refused, and the initial state |
| Conversation.TalkerReasoner.Reset | operad/algorithms/talker_reasoner.py:443-450 | rewinds to the node, or refuses and changes nothing |
| Conversation.TalkerReasoner.TakeTurn | operad/algorithms/talker_reasoner.py:518-589 | one turn; the current node always exists |
| Conversation.TalkerReasoner.Step | operad/algorithms/talker_reasoner.py:452-460 | refused after the end, else one turn |
| Conversation.TalkerReasoner.RunScript | operad/algorithms/talker_reasoner.py:462-514 | the loop is the recursive run |
| TracePairing.MatchSteps | operad/benchmark/regression.py:267-302 | the dictionaries and loops produce `Pairs` |
| TracePairing.TraceDiff | operad/runtime/trace_diff.py:127-180 | the deltas are those of the same pairs in the same order |
| TracePairing.StatusIff | operad/runtime/trace_diff.py:191-254 | a delta is Added or Removed exactly when a side is missing, else Unchanged exactly when both sides failed alike, or neither failed and prompt and input are the same, and the latency is within the tolerance |
| TracePairing.ReasonsIff | operad/runtime/trace_diff.py:191-254 | which reasons a changed pair is given: exactly those that differ, each at most once |
| TracePairing.OnPathIsSelection | operad/benchmark/regression.py:267-302 | the steps of a path are those of the trace on it, every one, in the trace's order |
| TracePairing.PairsOnEveryPath | operad/runtime/trace_diff.py:8-12 | on every path the k-th old step meets the k-th new one, each once and in order |
| TracePairing.SwapMirrors | operad/runtime/trace_diff.py:127-180 | comparing the other way round swaps the sides of every path's pairs |
| TracePairing.EachStepOnce | operad/benchmark/regression.py:267-302 | the old sides are the old trace's steps and the new sides the new one's |
| TracePairing.SelfDiffUnchangedIff | operad/runtime/trace_diff.py:191-254 | a trace equals itself if and only if the tolerance is not negative or it has no steps |
| TracePersistence.Save | operad/runtime/trace.py:58-78 | the two file layouts |
| TracePersistence.IndentedSafe | operad/runtime/trace.py:66-71 | an indented document never has a newline followed by an opening brace |
| TracePersistence.SplitUnlines | operad/runtime/trace.py:72-78 | printed objects hold no line break, so the lines come back |
| TracePersistence.SniffIff | operad/runtime/trace.py:94-97 | the line-by-line branch is taken exactly for the line form with at least one step |
| TracePersistence.LoadSaved | operad/runtime/trace.py:58-104 | loading what was saved gives the trace back from either form, with any number of steps, for every parser that reads back the printed documents |
| JsonReader.ReadInverts | operad/runtime/trace.py:66-78 | reading a printed document gives it back, from the compact and the indented layout and before a line break, for all nesting and all strings |
| JsonReader.SaveThenLoad | operad/runtime/trace.py:58-104 | saving a trace and loading it through that reader is the identity for both file forms |
| MermaidForest.Dedupe | operad/core/view.py:31-40 | the first node of every path stays, in order |
| MermaidForest.NearestCompositePath | operad/core/view.py:196-207 | the loop finds the longest proper prefix that is a composite, the root counting as none |
| MermaidForest.NearestIff | operad/core/view.py:196-207 | the result is the longest proper prefix among the composites, unless that is the root; without one there is none |
| MermaidForest.EmittedExactlyOnce | operad/core/view.py:265-343 | every distinct path is emitted once and none is left for the orphan pass |
| MermaidForest.NestedAsBlock | operad/core/view.py:265-343 | what is emitted for a node is one block, the node first, and holds exactly the paths whose chain of nearest composites leads to it |
| MermaidForest.RenderNodes | operad/core/view.py:257-343 | the recursive renderer terminates and lists every path exactly once |
| IoGraphs.RenderLive | operad/core/view.py:470-608 | the loops over live types |
| IoGraphs.RenderJson | operad/core/view.py:611-711 | the loops over the JSON |
| IoGraphs.ViewsAgreeIff | operad/core/view.py:448-711 | for traced graphs whose qualified names identify types, both views agree in edges, composites, keys, fields and order, and agree wholly if and only if every listed class name is the last segment of its qualified name |
| IoGraphContents.EdgesShown | operad/core/view.py:470-608 | the view has an edge for every recorded call of a leaf, in order, with its types, class and enclosing composite, and one more exactly if the root is a leaf |
| IoGraphContents.TypesShown | operad/core/view.py:470-608 | every type at an end of an edge has one row, in the order of first occurrence, with the class name and fields of a type of the graph of that qualified name |

## Left out

- RpmGate.BoundedOvershoot: a step reads the clock once; two clock readings inside one uninterrupted stretch of code are taken as equal.
- SlotBilling.BillingDominance: on the runs covered no token is settled below its reserve while the TPM limit is 0; what goes wrong then is `SettleKeepsDominanceIff`. Replacing the counter object at run time is not covered.
- TpmGate.TpmOvershoot: runs on which the limit is never lowered and starts at one or more; after a lowering the excess over the new limit is whatever was on the counter.
- BuildAcceptance.BuildAcceptsIff: trees of leaves and the four architectures, as their constructors allow them; composites with a `forward` of their own are not covered.
- BuildSoundness.BuildIsSound: the `combine` of a Parallel is of one fixed result class, and leaves answer with instances of their declared output.
- TracerPaths.FaithfulIffTame: attribute names hold no dot (one direction needs that); the trace is one in which no check fails, and gathered children start in the order in which they are gathered, as the event loop's first-in-first-out queue has it.
- RunPaths.RunVisitsTheGraph: the evaluator runs gathered children one after the other; order is left out of the statement.
- BuildExactness.NeverMismatchesIffDelivers: leaves and `combine` functions can answer with any key; a Literal label field that rules out some branch keys would make more trees safe.
- DeficitSchedule.Discrepancy: deficits are exact; the floating-point loop of the source may break ties differently.
- TrainingReplay.AlwaysRefinesIff: the three hashes of a key are taken as injective, values as unchanged by JSON; callbacks, validation, early stopping and gradient clipping are not modelled.
- ReplayKeys.OtherRunsMiss: the first epoch with batches has a whole window; otherwise the recording's flush has stepped first, which a replay does not repeat (`FlushIsLost`).
- MutationOps.Op.ApplyOp: the op list of a compound is fixed, and no op contains itself.
- AgentClone.Clone: what a deep copy makes of an agent that is no child is left open; hooks and gradient flags, which clone resets, are not modelled.
- AgentFreeze.NameChildren: children are an unordered map, so which of its attributes names a shared child is left open, as is the order of equally short labels.
- AgentTrees.DottedInjective: names with dots are left to `DottedNamesCollide`; the theorems about freezing ask for different dotted forms of different paths instead.
- AgentThaw.Reconstruct: routing is set when an agent is built and not in a second pass; only records written by freeze under the same versions are covered, type and class names are taken to resolve, and examples to validate against the types found.
- TracedThaw.TameRoundTrip: for trees with a composite root, whose trace ends.
- TracePersistence.LoadSaved: takes any parser that reads back the documents that were printed; that there is one is `JsonReader.SaveThenLoad`. Header fields are in key order and `steps` sorts last.
- JsonReader.SaveThenLoad: numbers are kept as their text, so NaN and infinities, which Python prints outside RFC 8259, are not covered; neither are lone surrogates, which the strings here cannot hold, nor objects with a repeated key, which a dict cannot hold.
- IoGraphs.ViewsAgreeIff: the composites are compared by the arguments of the one helper both views call; field descriptions are opaque.
- `load_state`, `diff_states` and the per-agent hash are not modelled.
- Waiters' liveness: the limiter has no timer, so nothing is said about when a waiter is woken.
- Attribute slugs of Router branches (`operad/core/flow.py:104-106`) are taken as distinct attribute names.
- Sampling order of `WeightedRandomSampler`, `random_split` and the asynchronous queueing inside `asyncio.Semaphore` are left out.
- Prompt rendering, Mermaid labels and edges, HTML and Rich output, model backends, batch submission, the CLI and the dashboard are left out.
- Graphs rehydrated by `from_json`, cached system prompts and optimizer state in frozen files are left out.
- The benchmark store, metrics, retry loop, best-epoch selection and the other algorithm loops would only add easy members.
