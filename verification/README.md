# State machines that survive interleavings and crashes

A Dafny model of a Go library of state machines, and proofs of what its
concurrent and hierarchical parts promise. There are five cores.

**The Supervisor protocol** (`Supervisor*.dfy`). A Supervisor owns one committed
state. It admits one operation at a time, writes an in-doubt snapshot to a
Journal before an external Issue callback may start, waits for Verify, latches
the first fault, and is adjudicated or restored after a crash.
`SupervisorSpec` gives every critical section under the Supervisor's lock as a
function on its fields. `SupervisorSystem` interleaves them as the steps of one
system: the goroutine of the admitted call with its program counter, live
callbacks, publications, the Journal image, crashes, restorations, and a history
over all incarnations. The environment chooses every callback outcome,
cancellation, timer notification and crash. `SupervisorSafety` states the
results for every state that any run can reach; `SupervisorOwnership`,
`SupervisorDoubt`, `SupervisorJournal`, `SupervisorTrace`, `SupervisorCalls`,
`SupervisorLatch`, `SupervisorCounters`, `SupervisorFates`, `SupervisorEvidence`
and `SupervisorFrames` hold the parts of the one inductive invariant behind them.
`SupervisorStarts` and `SupervisorStamps` say which attempts start and which
steps number a record along a run, `SupervisorUncertainty` follows each run with
an observer, and `SupervisorWitness` builds two runs.

**The statechart hierarchy** (`Hierarchy`, `Shape`, `HierarchyCycles`,
`Statechart`, `StatechartCompile`, `StatechartInstance`). `Hierarchy` says what
lineages, preorder and initial chains are, from the parent links alone. The
other modules hold the loops of the library: the numbering walk, the common
ancestor by depths, both path fills, the three-colour cycle search, selection,
Permitted, Arrows, the compiler, and Fire.

**The queued Runtime** (`QueuedSpec`, `QueuedSystem`, `QueuedSafety`,
`QueuedObject`). Many clients, one worker on demand, and enqueuers that race
with the end of a run.

**The bounded causal history** (`CausalHistory`), a sorted buffer changed in
place.

**The strict compiler and the optimistic store** (`StrictDefinition`,
`MemoryStore`).

`SupervisorObject`, `QueuedObject` and the class `MemoryStore.Store` are the
refinement link to objects whose methods update fields: each method's contract
equates the new field values with the function of the old ones that the results
are about. They are not results themselves and have no rows below.

What is assumed: the clock never shows the zero time and never runs backwards;
a fresh incarnation identity was never used before; keys are equal to
themselves; one process at a time writes the Journal, and a write that a crash
interrupts has either replaced the image or left it.

Where the code and its comments differ, the model follows the code. The comment
on the margin below the record ceiling (`supervised/execution.go:17-22`) says
that the remaining stamps never exhaust the counter. They exhaust it exactly in
the runs in which at least as many steps stamp as there are numbers left:
`ExhaustedExactly` counts the stamping steps by the guards of their branches, for
every run of one incarnation. Refused calls stamp without looking at the margin,
so `RefusalsExhaust` reaches the ceiling from every state that is not Stopped,
and `ExhaustedInFlight` builds a run that reaches it while an operation admitted
below the margin is in flight. The margin is good for sixteen stamps
(`MarginCoversSixteen`). A stamp at the ceiling issues no number, so no
incarnation issues a number twice.

A snapshot in doubt need not be uncertain: `DoubtWithoutUncertainty` says
exactly when it is not, and `RefusedPreparationHappens` builds a run that gets
there.

## Model

| member | source | states |
|---|---|---|
| SupervisorSafety.CrashSafety | supervised/execution.go:728-813 | In every reachable state, crashed or not: if an Issue callback started for an attempt that was neither committed nor adjudicated, the durable image is in doubt about exactly that attempt, so there is only one; no captured Journal write names another; and whatever is restored from the image is Faulted over it. |
| SupervisorSafety.SnapshotClosure | supervised/execution.go:1652-1706 | Every snapshot of every reachable Supervisor passes the restoration validator, counter ceilings aside, and its pending evidence has an issue time. |
| SupervisorSafety.EvidenceSurvives | supervised/execution.go:297-395 | A snapshot of a reachable Supervisor can be restored n times if and only if its counters leave room for n restarts; each time the state, revision, attempt, record mark and the pending evidence are exactly the first ones. |
| SupervisorUncertainty.DoubtWithoutUncertainty | supervised/execution.go:728-767 | Along every run with crashes anywhere, a snapshot is in doubt without being uncertain if and only if the retained fault was latched by an Issue call whose Journal preparation was refused; then the attempt it names never reached its controller. |
| SupervisorWitness.RefusedPreparationHappens | supervised/execution.go:707-709 | A run of a machine that a strict definition compiles to ends in doubt without uncertainty, its controller never called. |
| SupervisorSafety.OperationExclusion | supervised/delivery.go:13-43 | An operation is admitted only when no call runs, no callback of any kind is live, and no publication of an operation, Trip, expiry or secondary cause is in flight; its token is new. |
| SupervisorSafety.OperationLifecycle | supervised/delivery.go:13-43 | The owner changes only by an admission, or by release at the very step after which its call has returned and none of its callbacks is live; Trips and timers release nothing. |
| SupervisorSafety.CountersAreReal | supervised/delivery.go:58-101 | Every callback counter and the reporting counter equal the number of live callbacks and publications; each gate is busy exactly while its flag is set and one of its callbacks is live. |
| SupervisorOwnership.StepOwned | supervised/delivery.go:13-43 | Every step of a running system keeps the ownership of calls, callbacks and publications and all their counts. |
| SupervisorSafety.NoCheckBypassed | supervised/execution.go:551-726 | Behind every commit of every run lies the complete trace its row requires, in order, for that change; an external one was admitted strictly before its stored deadline. |
| SupervisorSafety.ReadyIsEarned | supervised/execution.go:467-1148 | Every step into Ready is a commit with its complete trace, a Start or an adjudication after every reconciler returned nil in order, or a refusal after all preconditions passed and every guard declined; a call that consumed the outcome of a guard after its cancellation takes none of these decisions. |
| SupervisorSafety.LatchSafety | supervised/execution.go:1598-1650 | From a latched fault until a successful adjudication, over any run, the fault is the first one and state and revision do not change. |
| SupervisorSafety.NoFallback | supervised/execution.go:1249-1257 | A continuation that finds it no longer owns its operation finds a latched fault, so the fallbacks without a fault are unreachable. |
| SupervisorSafety.RevocationHolds | supervised/execution.go:1634-1648 | A revoked operation stays revoked, and its later steps change neither state, revision, pending change, fault nor mode. |
| SupervisorSafety.AttemptStartsOnce | supervised/execution.go:615-631 | The step that would hand an attempt to its controller does so if and only if its operation is live and executing, and then the attempt was never handed over before, in this incarnation or an earlier one. |
| SupervisorStarts.NoneStartsTwice | supervised/execution.go:615-631 | Along any run, with crashes and restorations anywhere, no two Issue callbacks start for the same attempt and none for one started before the run; the history of started attempts grows by exactly these. |
| SupervisorSafety.OutcomeOnce | supervised/execution.go:1239-1357 | A callback outcome becomes primary or secondary at most once and never both; cleanup makes exactly the failures of abandoned operations secondary and delivers every outcome of a live operation. |
| SupervisorSafety.NoOutcomeLost | supervised/execution.go:1239-1357 | A delivered outcome stays until invoke consumes it; after an abandonment the operation starts no further callback. |
| SupervisorSafety.AdjudicationMoves | supervised/execution.go:1122-1148 | Adopt and Override move to their declared target and raise the revision by exactly one; Retain moves nothing. |
| SupervisorStamps.CountersNeverWrap | supervised/record.go:156-162 | In every run of one incarnation no 64-bit counter wraps, and the record numbers that its stamping steps issue are the consecutive ones above the mark it started from. |
| SupervisorStamps.NumbersAboveMark | supervised/execution.go:347-395 | The numbers a restored Supervisor issues are the consecutive ones above the record mark of its snapshot, as many as its counter advances. |
| SupervisorStamps.StepStamps | supervised/record.go:156-162 | Every step raises the record counter, up to the ceiling, if and only if its branch stamps: a refused, expired or nil-context call, any decision, a late cause, a closing write given up or failed, a Trip, an expiry. |
| SupervisorStamps.ExhaustedExactly | supervised/execution.go:17-22 | Every run of one incarnation ends at its start plus the number of its stamping steps, cut off at the ceiling; so it exhausts the counter if and only if at least as many steps stamp as numbers are left. |
| SupervisorStamps.MarginCoversSixteen | supervised/execution.go:450-454 | After any admission, a run with at most sixteen stamping steps leaves the counter below the ceiling. |
| SupervisorStamps.RefusalsExhaust | supervised/execution.go:467-502 | From every running state that is not Stopped, any number of Starts can be refused one after the other; each stamps, and they change nothing but the counter and their own publications. |
| SupervisorWitness.ExhaustedInFlight | supervised/execution.go:17-22 | A run of a machine that a strict definition compiles to admits an Issue below the margin, and refused Starts exhaust the counter while it is in flight. |
| Hierarchy.IntervalIsAncestry | statechart/position.go:226-235 | In every forest, the stretch of one node lies inside that of another if and only if the other is its ancestor or itself. |
| Hierarchy.DestinationBelow | statechart/position.go:92-102 | An initial chain ends below where it starts, at its own destination. |
| Shape.CompileShape | statechart/position.go:50-104 | For every acyclic definition in any order, the stack walk and its reverse give every node the depth, interval and destination that the parent links define. |
| Shape.LeastCommonAncestor | statechart/position.go:114-126 | The result's lineage is exactly the set of common ancestors, so it is the deepest; -1 when there is none. |
| Shape.Path | statechart/position.go:202-214 | The loop along the parents lists the lineage of the active state. |
| Shape.StatusIsPath | statechart/position.go:216-235 | Status agrees with Path for every state: active is the head, enclosing the rest, inactive everything else declared, nothing for an undeclared state. |
| Shape.Paths | statechart/position.go:128-159 | Exits and entries are the lineages of source and destination below the stop its kind determines: the parent of a reentered target, otherwise the deepest state enclosing source and target. |
| Shape.PathReplay | statechart/position.go:128-159 | Replaying exits, then entries, from the lineage of the source exits only the innermost active state, enters only inactive children of it, and ends at the lineage of the destination. |
| HierarchyCycles.FindCycles | statechart/statechart.go:328-372 | The search ends and reports every cycle of the parents exactly once; none if and only if they form a forest. |
| StatechartCompile.Compile | statechart/statechart.go:179-313 | A chart results if and only if the definition is well formed, and then it is the chart that the definition describes. |
| Statechart.SelectTransition | statechart/statechart.go:429-455 | The chosen row is the first applicable one of the nearest active state that has one; none is chosen only if none applies. |
| Statechart.HomeFixed | statechart/statechart.go:419-422 | Destinations are their own destinations. |
| Statechart.Permitted | statechart/statechart.go:681-713 | Exactly the events that selection accepts, each once, each with the state that Fire would commit. |
| Statechart.ExposedIsSelectable | statechart/position.go:308-329 | A row is reached with only guarded rows before it if and only if some guard valuation selects it. |
| Statechart.Arrows | statechart/position.go:278-306 | Exactly the rows that some guard valuation selects from the source, each once; none from an undeclared source. |
| StatechartInstance.Instance.New | statechart/statechart.go:401-417 | An Instance results if and only if the initial state is declared, and holds its destination. |
| StatechartInstance.Instance.Fire | statechart/statechart.go:568-654 | Fire runs the plan of the one selected row over its own path, commits the only state selection accepts or, after a failing action, nothing; it keeps the active state a destination, the observations numbered without a gap, and their replay leading to the active lineage. |
| StatechartInstance.RunPlan | statechart/statechart.go:603-637 | The first failing action in the order exits, effect, entries decides the error, with the actions of its phase completed before it. |
| StatechartInstance.NumbersContinue | statechart/observe.go:91-114 | Each commit's observations carry the numbers after the last one's, modulo 2^64. |
| StatechartInstance.CommitKeeps | statechart/statechart.go:639-653 | A commit extends the numbering and the replay of all observations to the new lineage. |
| QueuedSafety.Accounting | queued/queued.go:215-283 | In every reachable state the count is what is queued or executing, within the limit; there is at most one worker, and a queue is never without it. |
| QueuedSafety.FirstInFirstOut | queued/queued.go:422-442 | Roots start in order of admission minus the withdrawn ones, each once. |
| QueuedSafety.OneFate | queued/queued.go:251-269 | Every admitted root is queued, withdrawn and never run, at hand, or run and delivered once. |
| QueuedSafety.NeverInFlight | queued/queued.go:517-523 | The inner Instance never reports a call in flight. |
| QueuedSafety.RunToCompletion | queued/queued.go:345-378 | Follow-ups begin in order of acceptance, at most the limit; a run that succeeds has begun and committed every one it accepted, and its cascade takes no more. |
| QueuedSafety.CommittedFold | queued/queued.go:457-555 | The state is the fold of what the runs committed, run after run in the order they started, each a prefix of what it accepted and all of it if it succeeded. |
| QueuedSafety.StepsShareRun | queued/queued.go:525-536 | Observed steps carry the odd numbers in order, modulo 2^64, and all steps of a run carry the number of its first. |
| CausalHistory.PublishedNewest | supervised/record.go:164-193 | Publishing a new number keeps the buffer the newest records of all published, in order, and drops one exactly when it was full. |
| CausalHistory.HistoryIsNewest | supervised/record.go:164-193 | After any publications with different numbers the buffer holds exactly the newest ones, and retained plus dropped equals published. |
| CausalHistory.OrderDoesNotMatter | supervised/record.go:164-166 | The buffer and the number dropped do not depend on the order of publication. |
| CausalHistory.History.Append | supervised/record.go:166-193 | The search, shift and insertion in place do what publication means; the drop counter saturates. |
| StrictDefinition.Reachable | supervised/definition.go:401-410 | The fixpoint loop ends and finds exactly the states reachable from the initial one. |
| StrictDefinition.Compile | supervised/definition.go:170-433 | A machine results if and only if the definition is strict, and then it is the one the definition describes. |
| StrictDefinition.StrictDecides | supervised/definition.go:376-398 | A state that is not terminal handles or refuses each event and never both; a terminal one handles none. |
| StrictDefinition.CompiledSelectable | supervised/definition.go:336-347 | Every compiled row is chosen by some valuation of the guards: no row is in vain. |
| MemoryStore.RevisionCountsCommits | persist/memory.go:113-120 | In every reachable state a key's revision is its number of commits modulo 2^64, and its state what the last one wrote. |
| MemoryStore.CommitsFormAChain | persist/memory.go:94-121 | Every commit's callback was given the state some multiple of 2^64 commits before it: below 2^64 commits, exactly the state committed immediately before. |
| MemoryStore.CommitsExactlyUndisturbed | persist/memory.go:113-120 | An update commits if and only if the number of commits of its key since its load is a multiple of 2^64; a loser changes nothing. |

## Left out

- MemoryStore.CommitsFormAChain: names the immediately preceding state only below 2^64 commits of a key, because the revision wraps there and the code compares revisions alone.
- SupervisorStamps.CountersNeverWrap: speaks of one incarnation, because a restored Supervisor numbers operations anew and continues records at the mark of its snapshot, above which numbers stamped after that snapshot are issued again under the new incarnation.
- Result and Record values, their timing fields, error text, stacks and joined errors: outcomes are a small enumeration and a cause number. The argument errors of constructors and the limits they check are not modelled.
- Status and the other read-only inspections, DOT output and String methods.
- Goroutines, channels, contexts, cancel functions and clocks: a step is one critical section with the lock-free code before the next one, each with one clock reading; cancellation is a flag and timers are notifications that may come at any time with any numbers.
- The record numbers assigned late when a result carries no stamp, the failure counters of the Recorder, and the publication of records beyond their order: a publication is its Journal write, its record delivery and its return.
- Bodies of application callbacks: a callback group is its size, and its callbacks return nil, an error, or not normally. Nil callbacks are the flags the compilers look at.
- Key checks: keys are natural numbers. The compilers' messages are counted, not worded.
- The zero values of Runtime and Instance, reentrancy detection and the errors of Enqueue for a wrong Runtime or type.
- In the queued system a withdrawal or a cancelled check may happen at any time, a superset of what cancellation allows. A failing event stands for errors, panics and Goexit alike.
- Concurrent Fire calls on one statechart Instance: Fire is one call, and the in-flight flag decides its refusal.
- Observers, their containment, timeouts and panics; the persistence wrappers around a store; SQLite.
- The two fills of a path share one allocation in the code and are two arrays in the model.
