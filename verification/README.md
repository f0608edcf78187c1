# Data Channel runtime: a verified model

A Data Channel is a graph of nodes that the platform validates, runs, retries and records, and that reads the
change log of business entities through durable cursors. This project models the parts of the runtime that
have to be right for a run to mean anything, and proves what they promise.

## What is here

| files | what they model |
|---|---|
| `digraph`, `channel_graph` | finite directed graphs; the channel graph, its nodes, edges, parents and frames |
| `cycle_check`, `graph_order`, `ancestry`, `frames`, `ports` | the structural checks of validation, the topological order, ancestor closures, and refining output ports |
| `labelling`, `plan`, `journal` | the declarative meaning of a run: which nodes run and how edges are labelled, what a frame may change, and the record of starts, finishes and rounds |
| `engine_types`, `engine`, `execution` | the engine: the stack walk, retries, error policies, nested containers and their rounds, and a run from validation to outcome |
| `commit_log`, `transactions`, `assign_trigger`, `change_pages` | numbering of change-log rows at commit under the counters' row locks, captured bounds, pages, purges and the purge mark |
| `checkpoints`, `change_range`, `no_skip` | cursors, a run's session over them, and all interleavings of runs, writers and purges |
| `inbound_response`, `inbound_dedup` | the single-answer slot of an inbound call, and the record that lets a repeated call get the first answer |
| `template_scan`, `template_typing` | splitting template text, matching values against schemas, typing paths |
| `previews` | clipping outputs for storage and cutting them for a response |
| `recovery`, `streaks`, `bulkhead` | what follows a failed run, the failure streak of a channel, and the admission pool |
| `images` | the row images of the change log, rebuilt and decoded page by page |

`dafny verify dfyconfig.toml` checks the whole project.

## How the code is read

* Code that updates fields becomes a class whose methods name their whole new state (`Engine.Run`,
  `AssignTrigger.Tables`, the stores, `PeekBulkhead`); loops stay loops; recursive and branching code stays
  functions. Node results, which the engine edits in place, are values replaced by edited values.
* The engine is stated for any graph: it ends, and its record is in order. What needs an accepted graph is said under
  the condition that the graph was accepted.
* Node executors, interruption checks, the clock of the engine, schema refiners, the expression parser, casts,
  JSON reading and text conversion are arbitrary functions. The engine's are keyed by the execution's sequence
  number or by the position of the check, so every behaviour of the outside is one such function. A container may
  ask for any finite number of rounds.
* A SQL statement is one atomic step. A row is visible to others once its transaction has committed; a counter row
  stays locked until commit or rollback. Entities are named by their place in the order of their ids. Times are
  integers; the slot and the records of inbound calls are told the time.
* Concurrency is a state machine whose histories are all sequences of enabled steps: `CommitLog.IsRun`,
  `Transactions.IsDbRun`, `NoSkip.IsHistory`, `InboundResponse.IsHistory`, `Streaks.IsHistory`. In `Streaks` each read
  and each save of a channel's record is a step of its own, as nothing is locked between them. `Recovery.IsHistory`
  takes a whole settlement as one step: settlements of different runs share no rows but the channel's record, and of
  that the step only says what it asks of the streak. The locked sections of the dedup store and of the admission pool
  are methods, and what they keep is their class invariant.
* History fields (`born`, `deleted`, `handed`, `claims`, `history`, `admitted`, `rest`, the episodes of recovery) only
  remember what happened; no step reads them to decide anything but which ids are unused.
* Ids are wrapped text, and error codes and statuses are enumerations.

## Where a promise needs a condition

* The client of an inbound call gets the claimed answer only if the thread's last read comes before the slot
  expires; `InboundResponse.ClientGetsTheClaimedAnswer` has the exact condition and
  `InboundResponse.LateReadLosesTheAnswer` a history in which it fails.
* The check that closes a dataset load sees only deletions after the mark it began with:
  `ChangePages.ClosingCheckIsExact`, with a history it misses in `ChangePages.PurgeBehindTheMarkGoesUnseen`.
* A failed episode asks the streak to count exactly when no retry was due; when a due retry cannot be queued the
  episode ends uncounted (`Recovery.FailureIsCountedOnce`, `Recovery.LostRetryIsNotCounted`).
* A save of the channel that comes between a settlement's read and its save can make the streak wrong;
  `Streaks.RightIffUnchanged` and `Streaks.RightIffUndisturbed` have the exact conditions,
  `Streaks.TwoFailuresCountOnce` and `Streaks.StaleFailureUndoesASuccess` histories in which it fails.
* A stored preview reports a cut of the original exactly when a list over the cap is the last one recorded under its
  path (`Previews.ClippedPreviewsTheSame`); keys without dots ensure it, and `Previews.DottedKeyHidesACut` is an output
  for which it fails.
* Path typing is sound through `properties` and `items` of schemas that name a type; two lemmas show that
  `additionalProperties` and untyped schemas are not enough.
* An update image rebuilds exactly when the new row has no column the old one lacks (`Images.UpdateRebuilds`).
* A text segment that ends in exactly one opening brace cannot stand before an expression in any template
  (`TemplateScan.ScannedIffWritable`).

## Model

| member | source | states |
|---|---|---|
| CycleCheck.CycleProblems | backend/channel/graph.py:710-742 | reports nothing if and only if the edges between known nodes contain no directed cycle, multi-edges and self-loops included; every problem reported names an edge that closes a cycle |
| CycleCheck.Dfs | backend/channel/graph.py:719-733 | one visit of the three-colour search keeps the gray path and the finishing order, and only ever uses up white nodes |
| Digraph.AcyclicIffRanked | backend/channel/graph.py:710-742 | what the check means: no directed cycle exactly when some numbering makes every edge go up |
| GraphOrder.Topo | backend/channel/graph.py:1151-1175 | the order is a permutation of the known ids, and puts every edge's source before its target if and only if the graph is acyclic |
| GraphOrder.Release | backend/channel/graph.py:1166-1171 | releasing a node's edges keeps the counters equal to the edges still pending and the ready list equal to the nodes at zero |
| Ancestry.AncestorSets | backend/channel/graph.py:1124-1148 | for every node exactly the ids that reach it over edges that cross no frame |
| Ancestry.AncestorClosure | backend/channel/graph.py:1115-1121 | a stop node's closure is exactly what reaches it inside its frame, itself included; none for an unknown node |
| Ancestry.ReachableFrom | backend/channel/graph.py:633-651 | exactly the known ids reached from a start node |
| Frames.ParentCycle | backend/channel/graph.py:892-908 | following parents reports a cycle only when the parent relation runs back into itself, and does so for every node on such a cycle once all parents are known containers |
| Frames.FrameProblems | backend/channel/graph.py:911-983 | the frame check reports nothing if and only if parents are known containers without a cycle and every edge enters a frame only from its container's each port |
| Frames.TriggerProblems | backend/channel/graph.py:598-630 | reports nothing if and only if there is exactly one trigger and no edge into it |
| Frames.ReachabilityProblems | backend/channel/graph.py:692-707 | reports nothing if and only if every node is reached from some trigger |
| Execution.StructuralProblems | backend/channel/graph.py:59-84 | the four structural checks together accept exactly the graphs the engine's safety needs |
| Execution.NothingCrosses | backend/channel/graph.py:879-889 | on a frame-clean graph no edge crosses a frame, so the ancestor walk loses nothing |
| Execution.ContainerComesFirst | backend/channel/graph.py:911-983 | on a frame-clean graph every path from outside into a body has passed its container |
| Execution.NoWayOut | backend/channel/graph.py:911-983 | from inside a container no path of edges leads back to it |
| Execution.TriggerIsTopLevel | backend/channel/graph.py:598-630 | the trigger of an accepted graph lies in no container |
| Execution.SmallLoopIsAccepted | backend/channel/graph.py:59-84 | such graphs exist: a trigger, a container it starts and a node in its body |
| Ports.RefinePorts | backend/channel/graph.py:1044-1112 | on an acyclic graph with distinct refs every node's ports are its refiner applied to all its ancestors' ports |
| Ports.SolutionIsUnique | backend/channel/graph.py:1044-1112 | there is only one such assignment of ports |
| Ports.OrderOfListsDoesNotMatter | backend/channel/graph.py:1044-1112 | and it does not change when the node and edge lists are reordered |
| Ports.GatherNames | backend/channel/graph.py:1023-1041 | a name stands for a ref exactly when all ancestors of that name share that ref, whatever the order they are met in |
| Ports.WalkContainers | backend/channel/graph.py:1000-1020 | the refs of exactly the containers around a node, stopping at a missing or repeated parent |
| Labelling.LabellingIsUnique | backend/channel/engine.py:175-205 | given the boundary of a frame and the nodes' results there is one set of nodes that run and one live/dead label for every edge |
| Labelling.EdgeOrderDoesNotMatter | backend/channel/engine.py:175-205 | nor does it depend on the order the edges are listed in: labellings of two lists of the same edges run the same nodes and label equal edges alike |
| Labelling.ProgressStep | backend/channel/engine.py:182-205 | deciding one ready node of an acyclic frame keeps everything decided before |
| Labelling.CoverStep | backend/channel/engine.py:207-221 | pushing the ready targets leaves no undecided node off the stack unless it waits behind another undecided node |
| Labelling.NothingLeft | backend/channel/engine.py:114-140 | with an empty stack every node of the frame has been decided and every edge labelled: what is left would be a cycle |
| Plan.UnderLeavesFrame | backend/channel/engine.py:142-147 | whatever lies under a node of a frame is in another frame, never the frame's own container |
| Plan.SourcesOfFrame | backend/channel/graph.py:911-983 | every edge into a frame comes from the frame itself or from its container's each port |
| Plan.FrameEffect | backend/channel/engine.py:474-498 | handling a node of a frame changes no edge of any other frame except those under that node |
| Plan.ArmingForgetsThePast | backend/channel/engine.py:271-276 | re-arming resets every counting edge into the body, so two arbitrary pasts become the same |
| Plan.RoundsAreIndependent | backend/channel/engine.py:474-498 | two rounds of a body in which the nodes that run in both declare the same ports run the same nodes and label every edge of the body alike that is not left to inner rounds, whatever earlier rounds did |
| Plan.OneDeeper | backend/channel/engine.py:101-112 | whatever the graph, going into one more body never meets a container whose round is open, so nested walks end |
| Plan.HandledAreMembers | backend/channel/engine.py:114-156 | on an accepted graph the walk of a scope handles exactly the reachable nodes of its frame |
| Journal.StartsMatchFinishes | backend/channel/engine.py:362-407 | in a well-bracketed record every started execution is still open or has finished exactly once |
| Journal.RoundsRecordedOnce | backend/channel/engine.py:474-498 | no container execution records the same round twice |
| Journal.UnbegunRoundIsEmpty | backend/channel/engine.py:474-498 | nothing has started in a round that has not been recorded |
| Journal.ClosedRecordIsMatched | backend/channel/engine.py:223-261 | a record with nothing open matches every start with exactly one finish |
| Engine.Run.constructor | backend/channel/engine.py:68-99 | every edge starts pending, nothing has been recorded and no node has run, on any graph |
| Engine.Run.Walk | backend/channel/engine.py:114-140 | on any graph the walk ends; however it ends, what it started is one block of consecutive attempts per node, no node twice, and only the last block may be unfinished; when it ends by itself exactly the nodes of its result map were started and each left its policy's result of its last attempt; on an accepted graph those are the nodes the declarative rule runs, and every edge of the frame carries that rule's label, in whatever order the stack took |
| Engine.Run.Kill | backend/channel/engine.py:191-193 | exactly the node's outgoing edges become dead |
| Engine.Run.Settle | backend/channel/engine.py:195-205 | the outgoing edges, those of skipped ports apart, become live or dead as the result declares |
| Engine.Run.Push | backend/channel/engine.py:207-221 | the stack grows by exactly the node's ready targets of the walk that are still to do, ordered by position |
| Engine.Run.Seeds | backend/channel/engine.py:149-156 | the first stack is the ready nodes of the walk, ordered by position |
| Engine.Run.Handle | backend/channel/engine.py:223-261 | a node that runs adds exactly its block of attempts and the result it left to the walk, which keeps its invariant, or the run stops with a record in order |
| Engine.Run.Skip | backend/channel/engine.py:114-140 | a ready node without a live edge is killed, nothing is started for it, and the walk keeps its invariant |
| Engine.Run.RunNode | backend/channel/engine.py:223-261 | what is started at its place is one block of attempts of the node; the run goes on only if the node's policy allows it after the last of them, and then the result noted is that policy's result of that attempt; only the node's own edges and what lies under it change |
| Engine.Run.Tries | backend/channel/engine.py:293-323 | for leaves and containers alike: at most as many attempts as the retry budget allows, started one after the other at one place, all but the last failed, and only a spent budget yields a failure; on success exactly the last attempt is still open and its result is the one returned |
| Engine.Run.Attempt | backend/channel/engine.py:325-330 | a body stop inside an attempt becomes the outcome that ends the run and leaves nothing of the attempt open |
| Engine.Run.Start | backend/channel/engine.py:362-381 | a stopped round finishes its container's execution before the stop travels on |
| Engine.Run.OnStart | backend/channel/engine.py:362-381 | every start carries the innermost open container execution and round, and opens inside it |
| Engine.Run.OnFinish | backend/channel/engine.py:362-381 | a finish closes exactly the innermost open execution, under its number |
| Engine.Run.OnRound | backend/channel/engine.py:474-498 | a round is recorded on the innermost open execution, under the next index |
| Engine.Run.Arm | backend/channel/engine.py:271-276 | the states become exactly those of the armed body |
| Engine.Run.RunRound | backend/channel/engine.py:474-498 | what starts in a round is in order; when the round ends by itself exactly the nodes of its result map were started in it, each leaving its policy's result of its last attempt, and on an accepted graph the body is labelled as an armed body, whatever the edges were before, and exactly the values of those nodes are returned |
| Engine.Run.Round | backend/channel/engine.py:263-269 | the record holds the value of every body node that ran, under its ref, and nothing else |
| Execution.AcceptedIsSound | backend/channel/engine.py:523-565 | an accepted graph cut to a backward-closed set gives the engine everything its invariants need |
| Execution.TriggerStartsRoot | backend/channel/engine.py:541-557 | every other reachable top-level node waits behind a reachable one, so starting at the trigger leaves nobody out |
| Execution.Reachable | backend/channel/engine.py:541-547 | a run is cut to exactly the nodes its trigger reaches that also reach the stop node without crossing a frame |
| Execution.ReachIsCut | backend/channel/engine.py:541-547 | on an accepted graph that is everything, or exactly what reaches the stop node, and it is closed under incoming edges |
| Execution.Execute | backend/channel/engine.py:523-564 | on any graph a run ends, with a closed bracketed record of reachable nodes only, and in the outermost frame and every round at any depth one block of attempts per node; a failure blamed on a node names a started execution whose result ends the run; a run that succeeds on an accepted graph has started exactly the top-level nodes the labelling rule runs, each left its policy's result of its last attempt, and every body waits as at the beginning or carries the labelling of its container's last round |
| Execution.OrderDoesNotMatter | backend/channel/engine.py:114-140 | two completed runs of one accepted graph, whatever the order of its lists, the positions, the retries, the rounds and the timing: if each top-level node that ran in both after the same past left the same result, the same top-level nodes ran with the same results and every edge out of one of them ended alike, a container's each edges apart |
| Execution.OrderDoesNotMatterInBodies | backend/channel/engine.py:474-498 | the same for the body of any container, at any depth, that had a complete round in both runs or in neither |
| Execution.RunsRepeat | backend/channel/engine.py:114-140 | so when executions give the same results whatever their numbers, any two completed runs of the graph agree on nodes, results and labels in every frame, at any depth, that both walked or neither did |
| EngineTypes.PastDecides | backend/channel/engine.py:175-205 | the labelling is unique even when a node's result may depend on everything that ran before it |
| EngineTypes.SameResults | backend/channel/engine.py:345-360 | results that do not depend on execution numbers are left the same at every node that ran in both of two walks, however often it was retried |
| EngineTypes.RoundsAgree | backend/channel/engine.py:474-498 | two complete rounds of one container, in one run or two, in which each node that ran in both after the same past left the same result: the same nodes ran, the body's edges are labelled alike and the records are equal unless two nodes share a ref |
| EngineTypes.RoundsRepeat | backend/channel/engine.py:474-498 | in particular when executions give the same results whatever their numbers |
| CommitLog.StepKeepsValid | backend/entity/change_log.py:1053-1102 | every step of any transaction or purge keeps numbering, row identity, the counter lock and the purge mark consistent, and history only grows |
| CommitLog.NumbersHaveNoGap | backend/entity/change_log.py:1053-1102 | in every interleaving the numbers present and the numbers purged together are exactly 1 up to the counter, none held twice |
| CommitLog.NothingAppearsBelowTheBound | backend/entity/change_log.py:490-500 | once a bound is captured, every row ever seen later at or below it was already visible then |
| CommitLog.LaterCommitsGetGreaterNumbers | backend/entity/change_log.py:1070-1096 | a row committed later than a visible one always has the greater number |
| CommitLog.PurgeRaisesMark | backend/entity/change_log.py:884-916 | after a purge the mark is the greatest position ever deleted |
| CommitLog.MarkOnlyMovesUp | backend/entity/change_log.py:884-916 | over any run the purge mark, once there, only moves up |
| ChangePages.ReadEntriesAfter | backend/entity/change_log.py:576-631 | the page is the oldest rows after the cursor up to the bound, in order; more is reported exactly when a row was left out; a limit below one is refused |
| ChangePages.NextPageScans | backend/entity/change_log.py:576-631 | a page read where the last one ended extends a gapless ordered scan |
| ChangePages.PagesTileTheRange | backend/entity/change_log.py:576-631 | pages read until none is left list, in order and once each, rows that were visible when the bound was captured, missing only those purged meanwhile |
| ChangePages.RefusedIffDeletedAfterCursor | backend/channel/change_range.py:81-91 | opening is refused exactly when a row after the stored cursor has been deleted |
| ChangePages.ClosingCheckIsExact | backend/channel/nodes/volume/changes_dataset.py:190-207 | the check that closes a load fails it exactly when a row after both the start and the earlier mark was deleted meanwhile |
| ChangePages.CheckedLoadMissedNothing | backend/channel/nodes/volume/changes_dataset.py:144-187 | when the range starts at or after the earlier mark, the check passes if and only if nothing in the range was deleted during the load |
| ChangePages.PurgeBehindTheMarkGoesUnseen | backend/channel/nodes/volume/changes_dataset.py:190-207 | behind the earlier mark the check can pass although a row of the range was deleted during the load |
| Transactions.RunOfEachLog | backend/entity/change_log.py:1053-1102 | whatever transactions over several entities do is, entity by entity, a run of that entity's log |
| Transactions.StepKeepsLocks | backend/entity/change_log.py:1064-1096 | a counter is locked exactly by the open transaction that numbered its rows there, and each transaction takes counters in entity order |
| Transactions.SomebodyMoves | backend/entity/change_log.py:1064-1077 | the counter locks never deadlock: in every reachable state with a transaction at commit, some transaction at commit can take its next step |
| AssignTrigger.Tables.NoteCommit | backend/entity/change_log.py:1036-1050 | the pending table gains exactly one row per transaction and entity inserted into |
| AssignTrigger.NumberEntity | backend/entity/change_log.py:1069-1095 | one pass of the loop numbers the transaction's rows above the counter and moves the counter up by how many they were |
| AssignTrigger.Tables.AssignCommitSeq | backend/entity/change_log.py:1053-1102 | every pending entity's rows are numbered, its counter moved, nothing else changed, and the pending rows of the transaction are gone |
| AssignTrigger.RankIsPlace | backend/entity/change_log.py:1080-1090 | numbering by row_number gives each row its place in sequence order |
| AssignTrigger.GivenFillsTheRange | backend/entity/change_log.py:1080-1094 | one update hands out exactly the numbers following the base, without gap |
| Checkpoints.MemoryCheckpointStore.Read | backend/channel/checkpoints.py:57-61 | the stored position, or none |
| Checkpoints.MemoryCheckpointStore.Advance | backend/channel/checkpoints.py:63-74 | the key goes to the later of the stored and the given position, no other key moves |
| Checkpoints.MemoryCheckpointStore.DeleteForChannel | backend/channel/checkpoints.py:76-80 | removes exactly the channel's cursors |
| Checkpoints.AdvanceFromRun | backend/channel/checkpoints.py:231-245 | a run that did not complete or stopped at a node moves nothing; otherwise each proposed key goes to the later of stored and proposed and no other key moves |
| Checkpoints.DumpProposals | backend/channel/checkpoints.py:373-383 | the nested form flattens back to exactly the proposals |
| Checkpoints.LoadProposals | backend/channel/checkpoints.py:360-370 | reading the nested form gives exactly its flat form, an absent one nothing |
| Checkpoints.RunCheckpoints.constructor | backend/channel/checkpoints.py:192-199 | a session opened on a run row starts with the proposals the row holds and no bounds |
| Checkpoints.RunCheckpoints.Stored | backend/channel/checkpoints.py:207-210 | the later of the durable cursor and the run's own proposal |
| Checkpoints.RunCheckpoints.Bound | backend/channel/checkpoints.py:212-218 | the first captured bound of a stream is kept for the session |
| Checkpoints.RunCheckpoints.Propose | backend/channel/checkpoints.py:220-228 | a proposal only moves up, and the run row always reloads to the session's proposals |
| ChangeRange.OpenChangeRange | backend/channel/change_range.py:70-104 | which refusal, and otherwise which start and bound, in each case |
| ChangeRange.ProposeChangeRange | backend/channel/change_range.py:118-135 | an empty scan proposes nothing; otherwise the last entry scanned raises the proposal |
| NoSkip.NothingIsSkipped | backend/channel/checkpoints.py:231-245 | in every interleaving of runs, commits, purges and channel deletions, every entry at or below a stored cursor was handed to a completed run of that channel that did not stop at a node, or was purged |
| NoSkip.NextKeepsSound | backend/channel/change_range.py:70-135 | every single step keeps cursors, proposals and half-read ranges covered |
| NoSkip.OnlyCompletedRunsMoveCursors | backend/channel/checkpoints.py:231-245 | a cursor changes only by taking a proposal of a completed run that did not stop at a node; it is dropped only with its channel |
| NoSkip.CursorsOnlyMoveUp | backend/channel/checkpoints.py:63-74 | as long as its channel is not deleted a cursor never goes back, over any stretch of any history |
| NoSkip.OpenRefusedIffEntriesWereLost | backend/channel/change_range.py:81-91 | at the moment of the mark check a range opens exactly when nothing after the cursor it read has been deleted |
| NoSkip.DatabaseMovesLogs | backend/entity/change_log.py:1053-1102 | whatever transactions do to the logs is a step the runs allow for |
| InboundResponse.MemoryInboundResponseStore.Open | backend/channel/inbound_response.py:88-97 | opens a slot unless one is current; other slots are untouched |
| InboundResponse.MemoryInboundResponseStore.Claim | backend/channel/inbound_response.py:99-108 | wins exactly on a current open slot, which then holds the payload |
| InboundResponse.MemoryInboundResponseStore.Read | backend/channel/inbound_response.py:110-115 | the payload of a current answered slot, or none |
| InboundResponse.MemoryInboundResponseStore.Close | backend/channel/inbound_response.py:128-134 | closes exactly a current open slot |
| InboundResponse.MemoryInboundResponseStore.Look | backend/channel/inbound_response.py:136-143 | an expired slot is dropped and counts as none |
| InboundResponse.ClientGetsTheClaimedAnswer | backend/channel/inbound_http.py:252-295 | in every interleaving of the API thread, the closer and the workers at most one claim succeeds and none after the reply; the client gets the claimed payload if and only if a claim succeeded and the last read came before the slot expired |
| InboundResponse.StepKeepsSound | backend/channel/inbound_http.py:252-295 | each step keeps the slot telling the claims, and a reply is final |
| InboundResponse.LateReadLosesTheAnswer | backend/channel/inbound_http.py:252-271 | the expiry condition is needed: a thread woken after expiry sends the fallback although the claim had returned true |
| InboundDedup.MemoryInboundDedupStore.Admit | backend/channel/inbound_dedup.py:78-107 | reserves exactly when no unexpired record is there; otherwise replays the stored answer and counts the hit, or refuses |
| InboundDedup.MemoryInboundDedupStore.AttachJob | backend/channel/inbound_dedup.py:109-116 | attaches only to an unanswered record without a job |
| InboundDedup.MemoryInboundDedupStore.Abandon | backend/channel/inbound_dedup.py:118-124 | drops only an unanswered record without a job |
| InboundDedup.MemoryInboundDedupStore.Answer | backend/channel/inbound_dedup.py:126-145 | only the attached job writes, and only once |
| InboundDedup.MemoryInboundDedupStore.ReleaseUnanswered | backend/channel/inbound_dedup.py:147-155 | drops exactly the job's unanswered records |
| InboundDedup.MemoryInboundDedupStore.DeleteExpired | backend/channel/inbound_dedup.py:157-164 | drops exactly the expired records and returns how many |
| InboundDedup.MemoryInboundDedupStore.HitCount | backend/channel/inbound_dedup.py:166-168 | equals the number of replays ever given for the channel, in spite of purges |
| InboundDedup.ReservationsDoNotOverlap | backend/channel/inbound_dedup.py:78-107 | between two reservations of one key the first has run out, or was dropped without an answer |
| InboundDedup.RepeatsAgree | backend/channel/inbound_dedup.py:78-145 | two replays with no new reservation between them return the same answer |
| InboundDedup.ReserveKeeps | backend/channel/inbound_dedup.py:78-107 | a reservation keeps every law of the history |
| InboundDedup.FillKeeps | backend/channel/inbound_dedup.py:109-145 | attaching a job or writing an answer keeps every law of the history |
| InboundDedup.ShrinkKeeps | backend/channel/inbound_dedup.py:118-164 | dropping or purging records keeps every law of the history |
| TemplateTyping.PathIsSound | backend/channel/template.py:373-390 | if a value matches a schema and a path is typed through properties and items of schemas that name a type, whatever the path yields matches the schema found |
| TemplateTyping.ExpressionIsSound | backend/channel/template.py:328-370 | the same from a whole expression, over the refs, node names and port order it resolves through |
| TemplateTyping.WideningOnlyAdds | backend/channel/template.py:463-517 | a strict match is a widened match at every depth, and on plain JSON the two are the same |
| TemplateTyping.AdditionalTypeIsNotChecked | backend/channel/template.py:381-390 | a path typed through additionalProperties can yield a value its schema does not match |
| TemplateTyping.UntypedSchemaIsNotChecked | backend/channel/template.py:463-471 | so can a path through a schema that names no type |
| TemplateTyping.RenderedMatches | backend/channel/template.py:408-431 | the accepting branches of rendering check the declared schema, an enum on a plain string apart; no induction is in it, matching at depth is in WideningOnlyAdds |
| TemplateScan.ScannedIffWritable | backend/channel/template.py:168-204 | a list of segments is what some text splits into exactly when no text is empty or next to another, none before an expression ends in a single opening brace, and every expression is closed by its own braces |
| TemplateScan.WrittenIsReadBack | backend/channel/template.py:168-204 | writing such a list with escapes and splitting the text gives the list back |
| TemplateScan.ReadIsWritable | backend/channel/template.py:168-248 | whatever the scanner returns is such a list |
| TemplateScan.Scan | backend/channel/template.py:168-204 | the index loop computes the segments of the text, or a syntax error |
| TemplateScan.ReadExpression | backend/channel/template.py:207-248 | finds the closing braces outside quotes and nested braces, or reports a syntax error |
| TemplateScan.ClosingDecided | backend/channel/template.py:207-248 | what follows the closing braces does not change where an expression ends |
| Previews.ClipLists | backend/channel/channel_run.py:564-576 | clipping equals cutting, and the lengths recorded are those of every list visited, under its path |
| Previews.PreviewCopy | backend/channel/channel_run.py:554-561 | the copy stored is the output cut, with the lengths recorded from the root |
| Previews.CutTwice | backend/channel/run_store.py:981-993 | cutting what was cut changes nothing and reports nothing |
| Previews.CutIffTooLong | backend/channel/run_store.py:981-993 | something is cut exactly when some visited list is longer than the cap |
| Previews.PathsAreDistinct | backend/channel/channel_run.py:564-576 | with plain keys no two lists are recorded under one path |
| Previews.ClippedPreviewsTheSame | backend/channel/run_store.py:964-978 | previewing the clipped value with its recorded lengths gives the value that previewing the original gives, and the same flag if and only if no visited list is over the cap or some list that is was the last recorded under its path |
| Previews.LongTotalIffLongIsLast | backend/channel/channel_run.py:564-576 | a recorded length is over the cap exactly when some list over the cap is the last recorded under its path |
| Previews.PlainKeysPreviewTheSame | backend/channel/run_store.py:964-978 | so with non-empty keys without dots the two previews always agree |
| Previews.DottedKeyHidesACut | backend/channel/channel_run.py:554-576 | at the cap of 100: a list of 101 under a dotted key is overwritten by a nested empty list, and the preview of the clipped output no longer reports the cut |
| Recovery.Limit | backend/channel/recovery.py:153-158 | at most ten, and none for anything but an integer |
| Recovery.Ancestors | backend/channel/recovery.py:161-174 | counts the retries behind a job as far as rows can be followed |
| Recovery.ReleaseFailedChain | backend/channel/recovery.py:76-98 | drops exactly the chain's failed jobs whose settings say so |
| Recovery.Settlement.SettleFailure | backend/channel/recovery.py:45-73 | the stores written in sequence end in exactly the state the cascade's step describes, with one count asked of the streak when the step asks it |
| Recovery.Settlement.SettleSuccess | backend/channel/recovery.py:31-42 | a published success asks once for the streak to be cleared, and the job is dropped as its settings say |
| Recovery.CascadeIsBounded | backend/channel/recovery.py:45-73 | in every history one run leads to at most as many retries as its limit allows, never more than ten, and at most one error run, which leads to nothing |
| Recovery.OpenChainsAreWhole | backend/channel/recovery.py:161-203 | while an episode is open every job of its chain is still there on the same channel and version, so counting ancestors gives the number of retries |
| Recovery.FailureIsCountedOnce | backend/channel/recovery.py:45-73 | a failure queues the next retry and counts nothing, or closes the episode; a closed published episode has asked to be counted exactly once, unless a retry was due and could not be queued |
| Recovery.SuccessAsksToClear | backend/channel/recovery.py:31-42 | a published success asks once for the streak to be cleared and counts nothing |
| Recovery.CountsAskedAreEpisodes | backend/channel/recovery.py:45-73 | in every history a channel's streak is asked to count exactly as often as episodes of that channel ended published with no retry due |
| Recovery.LostRetryIsNotCounted | backend/channel/recovery.py:177-203 | a published run with one retry left whose retry cannot be queued ends its episode without having asked to be counted |
| Streaks.RightIffUnchanged | backend/channel/recovery.py:290-306 | in every interleaving of failures, successes and edits of one channel the streak is at every moment the failures saved since the last success if and only if each failure and edit found at its save the streak it had read |
| Streaks.RightIffUndisturbed | backend/channel/recovery.py:290-306 | while no success clears it: if and only if no failure is saved between the first read of a failure or an edit and its save |
| Streaks.AloneIsRight | backend/channel/recovery.py:290-306 | it is enough that no other save of the channel falls between anybody's first read and save |
| Streaks.EveryFailureCounts | backend/channel/recovery.py:290-306 | a channel that only fails: the streak never exceeds the failures saved, and equals them if and only if none was saved between the read and the save of another |
| Streaks.TwoFailuresCountOnce | backend/channel/recovery.py:290-306 | two failures settled at once can raise the streak by one |
| Streaks.StaleFailureUndoesASuccess | backend/channel/recovery.py:290-306 | a failure that read before a success saved brings the old count back |
| Streaks.StepKeepsValid | backend/channel/recovery.py:290-306 | every step keeps what each writer holds equal to the streak as it was at its first read |
| Streaks.Store.BumpStreak | backend/channel/recovery.py:290-294 | with nobody between its two reads and its save a failure adds one to the channel's streak, and does nothing without the channel |
| Streaks.Store.WriteStreak | backend/channel/recovery.py:297-306 | with nobody between, the streak becomes the value given, and nothing happens without the channel |
| Recovery.BehindCounts | backend/channel/recovery.py:161-174 | while the rows of a chain are there, counting back from its i-th job gives i |
| Bulkhead.PeekBulkhead.constructor | backend/core/bulkhead.py:43-52 | negative settings count as zero and nothing is admitted |
| Bulkhead.PeekBulkhead.Admit | backend/core/bulkhead.py:62-72 | admits exactly when there are slots, the actor is below its share and the total below the slots; a refusal names the count that was full |
| Bulkhead.PeekBulkhead.Release | backend/core/bulkhead.py:85-92 | takes exactly one from the total and one from the actor |
| Bulkhead.PeekBulkhead.SubmitNowait | backend/core/bulkhead.py:62-77 | a failed hand-off leaves the accounts as they were |
| Bulkhead.AdmitKeepsAccounts | backend/core/bulkhead.py:65-72 | the total stays the sum of the actors' counts and the number of admitted tasks, within slots and shares |
| Bulkhead.ReleaseKeepsAccounts | backend/core/bulkhead.py:85-92 | the clamps at zero never take effect, and the accounts stay exact |
| Images.UpdateRebuilds | backend/entity/change_log.py:786-805 | an update image rebuilds to exactly its two rows if and only if the new row has no column the old one lacks |
| Images.Rebuild | backend/entity/change_log.py:1129-1141 | the rows of each kind of image |
| Images.AssignGroups | backend/entity/change_log.py:1228-1242 | every image's owner is a group of its target's key, and no key has two groups |
| Images.SameKeyCastsAlike | backend/entity/change_log.py:1245-1259 | targets of one key have the same columns, cast alike |
| Images.GuardedCells | backend/entity/change_log.py:1168-1175 | another group's columns never fail, and the owner's are the image's own |
| Images.StoreDecoded | backend/entity/change_log.py:1330-1342 | rows in any order, looked up by their ordinals, put every image's own cells back at its place |
| Images.DecodeImages | backend/entity/change_log.py:1201-1225 | whatever order the result rows come in, a page decodes exactly when every image alone does, and gives position by position what decoding each alone gives, null images staying null |
| Images.EntriesDecoded | backend/entity/change_log.py:646-664 | each entry of a page carries its own two images, as reading that entry alone gives them |

## Left out

- Engine.Run.RunNode: an exception raised by a node executor is not modelled; the engine does not catch it, and the start before it stays unmatched.
- Execution.StructuralProblems: covers the cycle, trigger, reachability and frame checks; names, refs, configuration, expressions, templates, settings, respond nodes and port types are separate checks that only add problems.
- Ports.RefinePorts: input port schemas and coarse types, which are read off the solution, are left out.
- Engine.Run.RunRound: the round templates a container evaluates and the capture of inputs are left out.
- Previews.ClipLists: works on nested values that it replaces, where the source deletes list tails in place; sharing inside one output is not modelled, as the source copies the output first.
- AssignTrigger.Tables.AssignCommitSeq: waiting for a locked counter is in `Transactions`; here the locks are free.
- Transactions.StepKeepsLocks: savepoints, statement failures and isolation levels above read committed are left out.
- NoSkip.NothingIsSkipped: entries purged between opening a range and reading it count as purged, as the code does not detect them there.
- InboundResponse.ClientGetsTheClaimedAnswer: the thread may wake at any moment, which includes every time the event or the timeout wakes it; the whole-second expiry of the Redis scripts is left out.
- InboundDedup.MemoryInboundDedupStore.Admit: the times given to admissions and purges do not go back.
- TemplateTyping.RenderedMatches: conversion to text and JSON reading are arbitrary functions; `enum` is not looked at on a plain string.
- TemplateScan.Scan: whether a body parses is an arbitrary answer; only spaces, tabs and line ends are stripped from a body.
- Streaks.RightIffUnchanged: the other fields of the channel's record, which the same saves write back, are left out.
- Recovery.CascadeIsBounded: rows deleted from outside the settling are left out; checking the error target and queueing runs are answers that may come out either way.
- Bulkhead.PeekBulkhead.Release: a task cancelled before it runs, which only a shutdown does, is never released and is left out.
- Images.DecodeImages: the JSON text that carries a page to the database and the target key's text form are left out; both are taken as exact.
- `LocalCheckpoints` keeps the same proposals without a store.
- SQL, Redis and HTTP adapters, admission of an inbound request before its record, credentials and media types: input and output.
- `map_legacy_cursor` and the one-time numbering of old rows: migration code.
- Run summaries, execution queries, retention, dataset tables, schedules, permissions, settings and all frontend files.
