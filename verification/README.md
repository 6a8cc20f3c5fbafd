# Proofs about the workflow engine and the agent runtime

A Dafny 4.11 model of the parts of this repository in which the most state meets the most branching,
with proofs of what holds in every run:

- the business-workflow runtime: recursive activation over a pinned graph, human tasks and approvals,
  forks, joins and decision gates, output bindings, pause and resume, send-back, ad-hoc side tasks,
  cancel, attached timers and the two sweeps (`WorkflowGraph`, `Worklist`, `Engine`, `Engine*`,
  `BusinessInstance`);
- the context writes underneath it, on values and on a heap of mutable objects (`JsonTree`,
  `SetPathHeap`);
- the two places where the repository relies on row locks, statement by statement: publishing a
  template and sweeping timers with several workers (`PublishProtocol`, `TimerSweep`, `TimerSweepRounds`);
- the agent tool loop and its text machinery: canonical printer, brace scanner, 32-bit call hash
  (`ToolLoop`, `ToolLoopAnswers`, `ToolLoopReads`, `StableJson`, `StableText`, `Scanner`, `CallHash`,
  `CallSignature`);
- the coalescing refresh queue, and which file a requested path resolves to (`RefreshQueue`, `CodeRoots`,
  `CodeRootAnswers`).

`dafny verify dfyconfig.toml` checks the whole project.

## How the engine is modelled

`BusinessInstance` is the runtime as the source has it: a class whose fields are the instance row and
its task, approval, timer and event tables, with methods that update them step by step, including the
recursion of `activateNode` and its loops. Each method is proved equal to a transition function of
`Engine`; `Engine.Step` is one exported call, `Engine.Exec` a whole run from the start of an instance.
Some `Engine*` modules prove what every run keeps; `EngineActivation`, `EngineDelivery`, `EngineSendBacks`,
`EngineRows` and `EngineEdits` read off each call's result what it did, in terms of the graph, the rows and
the paths of the context. A call that would never return (a cycle of
synchronous nodes, or the self-wait described below) is part of the model: `fuel` bounds the node
visits of a run and results are stated for every bound.

The model follows the code where the code and its comments disagree (line numbers without a file are
of server/businessWorkflows.ts):

- The join counter is read under the flat key `joinArrivals.<id>` (server/businessWorkflows.ts:952) but
  written as a nested path (957), so a join with two or more incoming edges never forwards.
  `Env.nestedRead` switches to the repaired read; counting results are stated for it, and the
  consequences of the flat read for the code as it is.
- A decision gate activates every enabled edge; its default edge counts only when none is enabled (848-859).
- END completes the instance and leaves sibling tasks and active nodes as they are (833-846).
- An intermediate approval decision leaves the node active with no PENDING row (1414-1420).
- Finishing either of two blocking ad-hoc tasks resumes the instance (1326-1332).
- AUTO_COMPLETE on a RUNNING instance waits for a row lock that the sweep itself holds; the call
  changes what it had changed by then and does not come back (`Blocked`). `BlockedMarking` says exactly
  when this strands a node, `UnalarmedRunsAreLive` which versions are safe, `SelfWaitNeverEnds` why it
  does not resolve.
- The instances table declares no `updated_at` column (server/db.ts:3498-3512), though the join reset of a
  send-back (1981-1987, 2098-2104) and the context edits assign it. `Engine` is about a table that has the
  column; `EngineSchema` says exactly which calls fail without it, and what they leave behind.
- Removing context keys has no status check (2408-2446); a send-back is accepted on a COMPLETED
  instance that still has open work (1927-1962), and also for ad-hoc tasks.
- "Never double-fire" in the timer sweep holds unless a sweep's transaction is rolled back after an
  action came back (`RepeatsExactly`).
- A publish reads the draft before it takes the lock (367-370), so it can put up a draft that is no longer
  current; `PublishesCurrentExactly` and `SettledAtTheLock` say when.
- Two automatic reads can be three (server/agentRuntime.ts:728, 748, 769; `ReadsBounds` says when), and
  the last return of the tool loop counts the last reply's usage twice (server/agentRuntime.ts:1847-1849).
- "No answer without a tool execution" in the tool loop has one exception, a rejected tool request
  before the answer; `AnswersAreGrounded` states it exactly.

## Model

| member | source | states |
|---|---|---|
| `WorkflowGraph.FindJoinsBetween` | src/lib/businessWorkflowRuntime.ts:210-237 | The breadth-first search returns, once each, exactly the joins strictly between the two nodes: reachable along edges without walking past the node sent back from |
| `WorkflowGraph.IncomingCounts` | server/businessWorkflows.ts:953-955 | The number a join waits for is the number of all edges that end at it, whatever their conditions and sources |
| `WorkflowGraph.FirstById` | server/businessWorkflows.ts:1468 | A lookup by id finds the first node with the id |
| `WorkflowGraph.FirstStart` | server/businessWorkflows.ts:1046 | A run starts at the first node of the built-in START type, and at none only if there is none |
| `WorkflowGraph.GroupsSplit` | src/lib/businessWorkflowConditions.ts:135-148 | An AND group holds when both halves of its list do, an OR group of non-empty halves when one does; one part stands for itself and an empty group holds |
| `BusinessInstance.PickActivatableTargets` | server/businessWorkflows.ts:992-1005 | The loop returns the target nodes of exactly the edges whose condition holds and whose target exists, in edge order |
| `JsonTree.SplitPathOfDot` | server/businessWorkflows.ts:516-534 | Joining two dotted paths with a dot concatenates their keys whatever dots, blanks or empty pieces the halves contain |
| `JsonTree.OneKey` | server/businessWorkflows.ts:516-521 | A path without a dot is one key, trimmed, or no key when it is blank |
| `JsonTree.TrimIs` | server/businessWorkflows.ts:516-521 | Trimming drops all white space at both ends of a text and nothing else |
| `JsonTree.SpaceCodes` | server/businessWorkflows.ts:516-521 | White space is the white space and line ends of ECMAScript, by code |
| `JsonTree.ReadBack` | server/businessWorkflows.ts:516-534 | Reading the written path gives the written value |
| `JsonTree.ReadElsewhere` | server/businessWorkflows.ts:516-534 | Every path that is not a prefix or an extension of the written one reads as before |
| `JsonTree.PrefixBecomesObject` | server/businessWorkflows.ts:524-532 | Whatever stood on the way to the written path is a plain object afterwards |
| `JsonTree.ReadAfterWrite` | server/businessWorkflows.ts:516-534 | Reading any path after writing any other: on or below the written path stands what is inside the value, above it the object that was there or a new one with the rest of the write inside, and elsewhere what stood before |
| `JsonTree.WriteIsIdle` | server/businessWorkflows.ts:516-534 | A write changes nothing if and only if its value was already there |
| `JsonTree.BindingsDeliver` | server/businessWorkflows.ts:536-555 | A defined output is delivered if no later binding that writes touches its path |
| `JsonTree.BindAllElsewhere` | server/businessWorkflows.ts:536-555 | Bindings leave every path incomparable to those they write to alone |
| `JsonTree.ReadAfterBindings` | server/businessWorkflows.ts:536-555 | Any path, after any list of bindings, reads as what stood there taken through their writes in turn |
| `JsonTree.BindingLostExactly` | server/businessWorkflows.ts:536-555 | For every list of bindings, an output is delivered if and only if the writes of the later bindings, taken in turn, leave it standing |
| `JsonTree.OneTouchExactly` | server/businessWorkflows.ts:536-555 | When one later binding touches its path, an output is delivered if and only if the later value brings it along or was already part of it |
| `JsonTree.ComparableBindingsLose` | server/businessWorkflows.ts:536-555 | A pair of bindings, one path extending the other, that loses an output |
| `SetPathHeap.SetPathIn` | server/businessWorkflows.ts:516-534 | Run on mutable objects that form a tree, the moving cursor performs exactly the write of the value-level law, keeps the tree shape, and disturbs no tree that is not part of the context |
| `SetPathHeap.MoveCursor` | server/businessWorkflows.ts:522-532 | The loop takes the cursor along all keys but the last, each object on its way reading as what stood there or as new |
| `SetPathHeap.StepInto` | server/businessWorkflows.ts:524-532 | One iteration of the loop: the cursor moves one key down, into the object that is there or a new one put in place of anything else |
| `SetPathHeap.WriteLast` | server/businessWorkflows.ts:532-534 | The final assignment makes the whole context read as the written tree |
| `SetPathHeap.BackUp` | server/businessWorkflows.ts:516-534 | From the last object back up the trail, each object the cursor passed reads as the written subtree |
| `SetPathHeap.BindOutputs` | server/businessWorkflows.ts:536-555 | The loop over bindings on a shallow copy yields the bound context as a tree; the object passed in keeps its own properties |
| `BusinessInstance.BusinessInstance.constructor` | server/businessWorkflows.ts:1049-1073 | A started instance is RUNNING with the given context, no rows and one INSTANCE_STARTED event |
| `BusinessInstance.BusinessInstance.FireAttachmentsForTrigger` | server/businessWorkflows.ts:671-766 | The walk over attachments emits one event per notification due and one row and event per timer to schedule, in order |
| `BusinessInstance.BusinessInstance.EnterNode` | server/businessWorkflows.ts:800-990 | The rows, marks, metadata and events of one node by its base type, before control moves on |
| `BusinessInstance.BusinessInstance.NextNodes` | server/businessWorkflows.ts:820-970 | The nodes control moves to, as a function of the graph and the state; `EngineActivation.NextIsHandedOver` says which they are |
| `BusinessInstance.BusinessInstance.ActivateNode` | server/businessWorkflows.ts:793-990 | The recursive activation ends in the state of the depth-first work list that the whole-run results are about |
| `BusinessInstance.BusinessInstance.ActivateEach` | server/businessWorkflows.ts:820-832 | Activating targets one after the other, each with everything it leads to, is one walk of the list |
| `BusinessInstance.BusinessInstance.Start` | server/businessWorkflows.ts:1075-1081 | Activation from the START node gives the state every run begins in |
| `BusinessInstance.BusinessInstance.CancelScheduledTimersForNode` | server/businessWorkflows.ts:768-785 | Exactly the armed timers of the node become cancelled |
| `BusinessInstance.BusinessInstance.LeaveNode` | server/businessWorkflows.ts:1472-1501 | Completing a node logs it, fires its attachments, cancels its timers, binds its output and removes it from the active list; `EngineDelivery.AdvanceDelivers` reads the result |
| `BusinessInstance.BusinessInstance.AdvanceFromCompletedNode` | server/businessWorkflows.ts:1447-1517 | On a RUNNING instance and an existing node only: leave the node, then activate what its edges lead to under the new context; `EngineDelivery.AdvanceDelivers` reads the result |
| `BusinessInstance.BusinessInstance.Claim` | server/businessWorkflows.ts:1221-1263 | Claims an OPEN task; refused while paused, null otherwise |
| `BusinessInstance.BusinessInstance.Complete` | server/businessWorkflows.ts:1265-1351 | Completes an open task; planned work advances the graph, a blocking side task resumes the instance, all error replies included |
| `BusinessInstance.BusinessInstance.DecideApproval` | server/businessWorkflows.ts:1355-1431 | Decides a PENDING approval; only the three settling decisions advance the graph |
| `BusinessInstance.BusinessInstance.Reassign` | server/businessWorkflows.ts:1770-1841 | Reassigning releases a claim and leaves every other row alone |
| `BusinessInstance.BusinessInstance.ReassignApprovalTo` | server/businessWorkflows.ts:1843-1901 | Reassigns PENDING approvals only |
| `BusinessInstance.BusinessInstance.CreateAdHocTask` | server/businessWorkflows.ts:2145-2247 | Adds a side task unless the instance has ended; a blocking one pauses a RUNNING instance |
| `BusinessInstance.BusinessInstance.PauseInstance` | server/businessWorkflows.ts:2251-2289 | Pauses a RUNNING instance and no other |
| `BusinessInstance.BusinessInstance.ResumeInstance` | server/businessWorkflows.ts:2291-2323 | Resumes a PAUSED instance and no other |
| `BusinessInstance.BusinessInstance.ResetJoinCounters` | server/businessWorkflows.ts:1966-1988 | Removes exactly the nested counters of the joins between target and source |
| `BusinessInstance.BusinessInstance.SendTaskBack` | server/businessWorkflows.ts:1903-2027 | Closes the task as SENT_BACK, resets the joins crossed, cancels the timers of its node and re-activates the target, all error replies included; `EngineSendBacks.TaskGoesBackTo` reads the result |
| `BusinessInstance.BusinessInstance.SendApprovalBack` | server/businessWorkflows.ts:2029-2141 | The same for a PENDING approval; `EngineSendBacks.ApprovalGoesBackTo` reads the result |
| `BusinessInstance.BusinessInstance.Cancel` | server/businessWorkflows.ts:1084-1142 | Closes all open tasks, rejects pending approvals and disarms timers, unless COMPLETED or CANCELLED already |
| `BusinessInstance.BusinessInstance.UpdateInstanceContext` | server/businessWorkflows.ts:2352-2401 | Merges a patch key by key unless the instance has ended; writes and logs only if some value prints differently |
| `BusinessInstance.BusinessInstance.RemoveInstanceContextKeys` | server/businessWorkflows.ts:2408-2446 | Removes the given keys that exist and are not reserved, in any status; logs only if one was removed |
| `BusinessInstance.BusinessInstance.AttachInstanceDocument` | server/businessWorkflows.ts:2469-2531 | Appends a well-formed document to the list kept in the context, unless the instance has ended |
| `BusinessInstance.BusinessInstance.RemoveInstanceDocument` | server/businessWorkflows.ts:2533-2568 | Removes the documents with the id, in any status; a null entry makes it fail without effect |
| `BusinessInstance.BusinessInstance.SweepOneTimer` | server/businessWorkflowSweeper.ts:120-253 | Fires one armed timer by its action and stamps it only if the action came back |
| `BusinessInstance.BusinessInstance.AutoCompleteTask` | server/businessWorkflowSweeper.ts:234-253 | What auto-completion has changed when it comes back, fails, or hangs on the timer row's lock |
| `BusinessInstance.BusinessInstance.SweepOneOverdueTask` | server/businessWorkflowSweeper.ts:268-376 | Stamps an open overdue task once and sends its overdue notifications in order up to the first that fails |
| `EngineInduction.RunKeeps` | server/businessWorkflows.ts:793-1142 | What entering any node and every call keep, every run keeps |
| `EngineActivation.NextIsHandedOver` | server/businessWorkflows.ts:820-970 | The nodes activated next are the targets, in edge order, of: every open edge behind START, a fork or a notification; behind a gate every open edge, and when there is none the first edge with the configured id if its target exists; behind a join every open edge once its arrivals with this one are as many as the edges that end at it; and none behind any other node |
| `EngineActivation.StartEnters` | server/businessWorkflows.ts:1046-1081 | A started instance has the given context, and its log begins with the start and the activation of the START node |
| `EngineActivation.UnknownIsHumanTask` | server/businessWorkflows.ts:559-583 | A type name the table does not know is a human task |
| `EngineActivation.WaitingIsActive` | server/businessWorkflows.ts:862-985 | After an activation every node entered that waits for something is active |
| `EngineActivation.TypesResolve` | server/businessWorkflows.ts:559-583 | A built-in type is itself, a custom one what the table of the run says |
| `EngineActivation.TimerIsNoted` | server/businessWorkflows.ts:913-928 | A timer node notes itself under timers.<id>, and paths incomparable to that read as before |
| `EngineActivation.ArrivalIsNoted` | server/businessWorkflows.ts:951-958 | A join counts under joinArrivals.<id>: one more than it has read, nested or under the whole dotted key, and paths incomparable to that read as before |
| `EngineActivation.TimersAreCounted` | server/businessWorkflows.ts:671-766 | For each combination of settings as many timer rows are armed as there are enabled alarms with a delay, on activation and never else |
| `EngineActivation.NoticesAreCounted` | server/businessWorkflows.ts:671-766 | One event per enabled notification attached for the trigger |
| `EngineDelivery.AdvanceDelivers` | server/businessWorkflows.ts:1447-1517 | Moving on from completed work of a RUNNING instance: without bindings the output stands at nodeOutputs.<id>; every binding not overwritten later reads its output at its path; paths incomparable to those written read as before; the node is not active any more, its armed timers and no others are cancelled; and control goes to the targets of exactly the edges open in that very context |
| `EngineDelivery.CompleteDelivers` | server/businessWorkflows.ts:1265-1351 | Completing an open planned task of a RUNNING instance delivers the explicit output, else the form data, else nothing, at its node, and closes the row |
| `EngineDelivery.DecideDelivers` | server/businessWorkflows.ts:1355-1431 | Settling a pending approval delivers the decision by its name, with conditions and notes if given, at its node |
| `EngineDelivery.InterimDecision` | server/businessWorkflows.ts:1414-1420 | Any other decision marks its row and moves nothing |
| `EngineDelivery.CompleteReplies` | server/businessWorkflows.ts:1265-1351 | How completing is answered in every other case, refusals before nulls on a paused instance; on an instance that is not RUNNING, or at a node that is gone, the row is closed and nothing moves |
| `EngineDelivery.DecideReplies` | server/businessWorkflows.ts:1355-1431 | How deciding is answered in every other case, likewise |
| `EngineSendBacks.TaskGoesBackTo` | server/businessWorkflows.ts:1903-2027 | A send-back succeeds if and only if the task is open, the instance not paused and the target an existing node other than START and END; then the row is SENT_BACK, the armed timers of its node are off and no others, the joins crossed have forgotten their arrivals and no others, and the target is entered first |
| `EngineSendBacks.ApprovalGoesBackTo` | server/businessWorkflows.ts:2029-2141 | The same for a pending approval, whose row becomes NEEDS_MORE_INFORMATION |
| `EngineSendBacks.SendBackDisarms` | server/businessWorkflows.ts:2009-2013 | After a send-back no earlier timer row of the source is armed, and every earlier row of any other node is unchanged |
| `EngineRows.ClaimIsExclusive` | server/businessWorkflows.ts:1221-1263 | A claim succeeds if and only if the task is OPEN and the instance not paused; then the row names the claimant, and no one else can claim it |
| `EngineRows.ReassignFrees` | server/businessWorkflows.ts:1770-1841 | Reassigning an open task sets the assignee and releases any claim, so it can be claimed again; nothing else changes |
| `EngineRows.ReassignApprovalMoves` | server/businessWorkflows.ts:1843-1901 | Reassigning succeeds if and only if the approval is pending, and changes its assignee alone |
| `EngineRows.BlockingBrackets` | server/businessWorkflows.ts:2145-2247 | Creating a blocking side task on a RUNNING instance pauses it; completing it sets it going again, with nothing planned changed |
| `EngineRows.SideTaskStaysAside` | server/businessWorkflows.ts:2145-2247 | Any other side task changes neither the status nor anything planned; an ended instance refuses it |
| `EngineRows.LatestOpenIs` | server/businessWorkflowSweeper.ts:369-388 | The sweeper looks up the most recent open task of the node, and finds none only if there is none |
| `EngineRows.SweepStamps` | server/businessWorkflowSweeper.ts:120-148 | Every sweep of an armed row logs first that it fired, and stamps the row if and only if the action came back |
| `EngineRows.SweepNotifies` | server/businessWorkflowSweeper.ts:172-194 | NOTIFY, or an unknown action, touches no task, and only NOTIFY can fail |
| `EngineRows.SweepEscalates` | server/businessWorkflowSweeper.ts:195-233 | ESCALATE hands the most recent open task of the node to the configured assignee, released from any claim |
| `EngineRows.SweepCompletes` | server/businessWorkflowSweeper.ts:234-253 | AUTO_COMPLETE closes the most recent open task of the node and no other |
| `EngineEdits.UpdateReads` | server/businessWorkflows.ts:2352-2401 | After an update every patched key reads as patched and every other as before; the same update again changes nothing |
| `EngineEdits.RemoveUndoesUpdate` | server/businessWorkflows.ts:2408-2446 | Removing the keys an update has added gives the context back |
| `EngineEdits.ReservedStay` | server/businessWorkflows.ts:2408-2446 | Reserved keys are never removed |
| `EngineEdits.DetachUndoesAttach` | server/businessWorkflows.ts:2469-2568 | Attaching appends the document to the list, and removing its id, if new, gives the list back |
| `EngineRows.OverdueOnce` | server/businessWorkflowSweeper.ts:268-363 | The overdue sweep takes a task if and only if it is open and was never taken; it stamps it and alerts as the attachments say, in order, up to the first alert that fails |
| `EngineEdits.CancelCloses` | server/businessWorkflows.ts:1084-1142 | Cancel leaves a COMPLETED or CANCELLED instance alone; in any other exactly the open tasks are withdrawn, the pending approvals rejected and the armed timers disarmed |
| `EngineEdits.UpdateLogsExactly` | server/businessWorkflows.ts:2352-2401 | An update is refused if and only if the instance has ended, and else writes and logs if and only if some patched key is new or prints differently |
| `EngineEdits.RemoveLogsExactly` | server/businessWorkflows.ts:2408-2446 | A removal takes exactly the given keys that are there and not reserved, and logs if and only if there is one, in any status |
| `EngineEdits.AttachExactly` | server/businessWorkflows.ts:2469-2531 | Attaching is refused if and only if the document is malformed or the instance has ended, and else appends it and logs |
| `EngineEdits.DetachExactly` | server/businessWorkflows.ts:2533-2568 | Detaching fails without effect if and only if a null is among the documents, and else leaves, in order, exactly the documents without the id, and logs if and only if there were others |
| `EngineTells.RunTells` | server/businessWorkflows.ts:793-1165 | In every run: agent tasks are delegated, notifications sent and the instance completed exactly once per activation of such a node; every timer row has one event; and the status is what the log says: COMPLETED if and only if an END was reached, CANCELLED if and only if the one cancel is there, PAUSED exactly as long as pauses outnumber resumptions, by one |
| `EngineLifecycle.StepStatus` | server/businessWorkflows.ts:1084-2323 | Every call moves the status along five allowed moves; only cancel cancels; a cancelled instance keeps all rows |
| `EngineGrowth.StepGrows` | server/businessWorkflows.ts:1084-2323 | Every call only adds rows and events; a closed task, a decided approval and a fired or cancelled timer stay exactly as they are, and no timer row changes but in being fired or cancelled |
| `EngineGrowth.ClaimedOverdueOnce` | server/businessWorkflowSweeper.ts:273-297 | In every run, however many sweeps look at it, a task is claimed as overdue at most once, and never again after |
| `EngineLifecycle.EndedForever` | server/businessWorkflows.ts:1084-1142 | COMPLETED and CANCELLED are never left; after CANCELLED there is never an open task, pending approval or armed timer, and only context and log can change |
| `EngineLifecycle.PausedStep` | server/businessWorkflows.ts:1155-1165 | A paused instance leaves PAUSED exactly on resume, cancel or the end of a blocking side task; no other call or sweep moves its planned part |
| `EngineLifecycle.PauseFreezes` | server/businessWorkflows.ts:1155-1165 | Over any run segment that stays PAUSED, active nodes, join counters, open planned tasks and approval statuses are unchanged |
| `EngineBooks.RunBooks` | server/businessWorkflows.ts:862-878 | In every run: activations of a work node equal its rows; completed, sent-back and decided rows equal the events that say so; withdrawn rows exist only after a cancel |
| `EngineAdvance.RunOnce` | server/businessWorkflows.ts:1447-1517 | In every run, work settled at a node and NODE_COMPLETED events of the node agree while the instance is RUNNING or PAUSED, and the events are never more |
| `EngineMarking.RunMarking` | server/businessWorkflows.ts:862-878 | In every run, active nodes are listed once and exist, and each has its open task or its approval that is pending or carries an intermediate decision and was not sent back, except nodes a sweep has stranded |
| `EngineMarking.HangsExactly` | server/businessWorkflowSweeper.ts:234-253 | A sweep does not come back if and only if its row is an armed AUTO_COMPLETE, the instance is RUNNING, and the most recent open task at its node is planned work of an existing node |
| `EngineMarking.BlockedMarking` | server/businessWorkflowSweeper.ts:234-253 | A sweep breaks the live marking if and only if the row it takes is an armed AUTO_COMPLETE of a RUNNING instance whose node exists, is active and has one open planned task and no other |
| `EngineMarking.AutoCompleteStrands` | server/businessWorkflowSweeper.ts:234-253 | A run of one sweep reaches a RUNNING instance with an active task node and no open task |
| `EngineAlarms.RunStrandsAlarmed` | server/businessWorkflows.ts:671-766 | In every run, only nodes whose version carries an enabled AUTO_COMPLETE alarm are ever stranded |
| `EngineAlarms.UnalarmedRunsAreLive` | server/businessWorkflows.ts:862-878 | If the version has no such alarm, in every state of every run every active node still has its work |
| `EngineJoins.RunKeys` | server/businessWorkflows.ts:949-967 | In every run the metadata has no top-level key but the two the engine writes into |
| `EngineJoins.FlatReadMisses` | server/businessWorkflows.ts:951-960 | Hence the flat read always finds 0, and a join forwards exactly when the edges of the version that end at it are at most one |
| `EngineJoins.StepCounts` | server/businessWorkflows.ts:949-967 | With the nested read, one call moves a join's counter by its activations, from zero if the call reset it |
| `EngineJoins.RunCounts` | server/businessWorkflows.ts:949-967 | With the nested read, in every run a join's counter equals its activations since the start or its last send-back reset |
| `EngineCauses.RunCauses` | server/businessWorkflows.ts:793-990 | In every run each activation is explained by an earlier event: the start, a predecessor that passed control on along an edge, completed work, or a send-back. With the nested read a join passes control on only once its activations since the start or the last send-back across it reach its incoming edges, counted by the log alone, and its counter is always that count |
| `EngineCauses.ForwardsExactly` | server/businessWorkflows.ts:951-966 | At the moment a join is entered it forwards if and only if its activations since the start or the last send-back across it, this one included, reach the number of edges of the version that end at it (with the flat read: if and only if that is at most one) |
| `EngineCauses.BehindJoinsNeverStarts` | server/businessWorkflows.ts:951-966 | As written, a node reached only through joins with two or more incoming edges is never activated in any run, unless work is sent back to it |
| `EngineJoinStall.JoinNeverForwards` | server/businessWorkflows.ts:951-966 | A run enters a join with two incoming edges twice; the task behind it never starts and the instance stays RUNNING with nothing to do |
| `EngineFlow.RunFunds` | server/businessWorkflows.ts:793-990 | In every run, at each activation of a node, fewer lie before it than control was handed to the node before: once per edge out of a node that passed control on or was completed, once per send-back to it, once for the start |
| `EngineLog.StepBehind` | server/businessWorkflows.ts:1084-2598 | No call reads the event log: whatever the log held before, a call does the same and replies the same |
| `EngineSchema.ColumnMattersExactly` | server/businessWorkflows.ts:1981-1987 | Under the schema as declared a call differs from the model if and only if it comes to a statement that names the missing column: a send-back across a join, or a context edit with something to write; it then fails, and only the send-back has changed its row |
| `EngineSchema.UnloggedSendBack` | server/businessWorkflows.ts:1951-1987 | Such a send-back leaves a task row SENT_BACK without the event that says so |
| `EngineSchema.SendBackStrands` | server/businessWorkflows.ts:1951-1987 | It breaks the live marking if and only if the node is active and has no other open task |
| `EngineSchema.BooksBreakExactly` | server/businessWorkflows.ts:1951-1987 | One call under the declared schema breaks the agreement of log and rows if and only if it is a send-back, of a task or of an approval, that crosses a join |
| `EngineSchema.DeclaredRunBooks` | server/businessWorkflows.ts:1951-2104 | In every run under the declared schema log and rows agree up to exactly one missing event per such send-back; they agree at the end if and only if there was none |
| `EnginePaths.ActivationCountsTrails` | server/businessWorkflows.ts:793-990 | Activating a node creates exactly one row per enabled path from it to a work node, in lexicographic order of the paths, and leaves the context alone |
| `EnginePaths.ReturnsIffBounded` | server/businessWorkflows.ts:793-990 | Activation returns if and only if the paths control can follow are bounded |
| `EnginePaths.ReturnsIffAcyclic` | server/businessWorkflows.ts:793-990 | Activation of a node returns if and only if no cycle of synchronous hops can be reached from it |
| `EnginePaths.RankReturns` | server/businessWorkflows.ts:793-990 | If some rank drops along every synchronous hop, activation returns |
| `EnginePaths.RankBounds` | server/businessWorkflows.ts:793-990 | A rank that drops along every synchronous hop bounds the paths |
| `EnginePaths.CycleNeverReturns` | server/businessWorkflows.ts:793-990 | On a cycle of synchronous hops activation never returns |
| `PublishProtocol.PublishingIsSerialised` | server/businessWorkflows.ts:367-439 | For any interleaving and any drift at the start, committed version numbers are pairwise distinct, current_version climbs strictly with each commit and ends at the last one, and every version holds a content that was once the draft |
| `PublishProtocol.CommitHealsDrift` | server/businessWorkflows.ts:390-428 | The INSERT never hits the primary key, and a commit puts current_version above its old value and at the maximum of the table |
| `PublishProtocol.NobodyIsStuck` | server/businessWorkflows.ts:388-394 | At most one publisher is inside its transaction, and whoever holds the lock can move on |
| `PublishProtocol.NewerNumberOlderDraft` | server/businessWorkflows.ts:367-370 | The unlocked read lets a slow publisher put an older draft under the newer number |
| `PublishProtocol.PublishesCurrentExactly` | server/businessWorkflows.ts:367-439 | Whatever others do in between, a publish puts up the draft of its unlocked read; it is the current draft at the commit if and only if the draft is the same at both moments |
| `PublishProtocol.LockFreezesDraft` | server/businessWorkflows.ts:388-439 | While a publisher holds the row lock the draft does not change |
| `PublishProtocol.SettledAtTheLock` | server/businessWorkflows.ts:388-439 | So the published draft is the current one at the commit if and only if the draft at the read is still there when the lock is taken |
| `PublishProtocol.UndisturbedPublish` | server/businessWorkflows.ts:367-439 | With the lock free a publish can always run, puts the draft up under the first number above the counter and every number in the table, and changes nothing else |
| `PublishProtocol.OnlyCommitsShow` | server/businessWorkflows.ts:388-439 | No move but a commit changes the committed versions and counter; a rollback changes nothing others could see |
| `TimerSweep.SweepingIsSafe` | server/businessWorkflowSweeper.ts:102-148 | For any interleaving of sweepers and cancels: no timer is fired and cancelled, no row is on two sweepers' lists, nothing fires early, locked rows are still armed |
| `TimerSweep.DeliveriesAreAccounted` | server/businessWorkflowSweeper.ts:120-146 | Every action that came back is behind a committed stamp, in an open sweep, or lost with a rolled-back one |
| `TimerSweep.AtMostOnceWithoutRollback` | server/businessWorkflowSweeper.ts:102-106 | Without a rollback no timer's action comes back twice |
| `TimerSweep.RepeatsExactly` | server/businessWorkflowSweeper.ts:102-146 | In every run, when an action is about to come back, its earlier deliveries are exactly those rolled back: it is a repeat if and only if one was lost |
| `TimerSweep.RollbackFiresAgain` | server/businessWorkflowSweeper.ts:102-106 | A rollback between action and commit makes the next sweep act again |
| `TimerSweep.ClosedStaysClosed` | server/businessWorkflows.ts:768-785 | A fired or cancelled row never changes again |
| `TimerSweep.FailedStaysArmed` | server/businessWorkflowSweeper.ts:129-138 | From the moment an action fails, whatever anyone does until that sweep commits or rolls back, its row stays held, armed, unwritten and off the list; when the sweep ends, either way, the row is as it was, free, and any resting sweeper may take it |
| `TimerSweep.SelfWaitNeverEnds` | server/businessWorkflowSweeper.ts:234-253 | A sweeper whose action waits for a cancel of the row it holds never ends by itself, whatever else happens |
| `TimerSweep.SelfWaitHappens` | server/businessWorkflowSweeper.ts:234-253 | A run of four moves gets there |
| `TimerSweep.BlockedWantsItsRow` | server/businessWorkflows.ts:768-785 | A sweep that does not come back has set out to cancel the very row it was fired by |
| `TimerSweep.BlockedIsSelfWait` | server/businessWorkflows.ts:768-785 | Wherever a sweeper takes up a row whose auto-completion the engine model calls Blocked, the run enters that self-wait and stays in it, whatever moves follow, until one of the two connections is killed |
| `TimerSweepRounds.SweepFires` | server/businessWorkflowSweeper.ts:102-148 | A sweep nobody disturbs can always run to its end; it fires exactly the rows it took whose action came back, each delivered once more, and leaves all others as they were |
| `TimerSweepRounds.EveryRowIsHandled` | server/businessWorkflowSweeper.ts:120-148 | Whatever others do in between, a sweep commits when it has passed every row it took, not before |
| `TimerSweepRounds.FlagsShowAtCommit` | server/businessWorkflowSweeper.ts:102-148 | Fired and cancelled flags change only when the holder of the row commits, by what it has written |
| `TimerSweepRounds.CancelIsThorough` | server/businessWorkflows.ts:768-785 | When a cancel commits, none of the rows it wanted is armed, whatever happened since it began |
| `TimerSweepRounds.CancelTakesEffect` | server/businessWorkflows.ts:768-785 | A cancel that finds the armed rows it wants free cancels exactly these |
| `TimerSweepRounds.DueInTime` | server/businessWorkflowSweeper.ts:102-118 | A row armed for a time can be taken from that time on and not before |
| `TimerSweepRounds.BatchOfFifty` | server/businessWorkflowSweeper.ts:102-118 | Fifty due rows can be taken at a time, and no more |
| `StableJson.StableIsCanonical` | server/agentRuntime.ts:474-483 | Two values print alike if and only if they are equal up to the order of object keys |
| `StableJson.PrintsApart` | server/agentRuntime.ts:474-483 | Printed values delimit themselves: equal texts with any continuation come from equal values and equal continuations |
| `StableJson.QuoteRoundTrip` | server/agentRuntime.ts:477-482 | Reading a quoted string back gives the string, escapes, control characters and lone surrogates included |
| `StableJson.SameKeysSamePlaces` | server/agentRuntime.ts:481-482 | Sorted objects with the same keys have them in the same places |
| `StableText.Words` | server/agentRuntime.ts:474-483 | What prints as null, true, false, an empty array and an empty object |
| `StableText.ArrayText` | server/agentRuntime.ts:479 | An array prints as its elements in order, commas between them, in brackets |
| `StableText.ObjectText` | server/agentRuntime.ts:481-482 | An object prints as its fields by ascending keys, quoted key, colon and value, commas between them, in braces |
| `StableText.LessIs` | server/agentRuntime.ts:481 | Keys compare by their first different code unit, a proper prefix being less |
| `StableText.EscapeConcat` | server/agentRuntime.ts:478 | A string is quoted piece by piece, unless the cut goes through a surrogate pair |
| `StableText.PlainText` | server/agentRuntime.ts:478 | Plain units and surrogate pairs are written as they are |
| `StableText.LongEscapes` | server/agentRuntime.ts:478 | Control characters without a short escape and lone surrogates are written with four lower-case hexadecimal digits of their value |
| `Scanner.ExtractBalancedJsonCandidates` | server/agentRuntime.ts:189-243 | On any text the results are disjoint ordered slices, each an opening brace with positive depth up to the brace that closes it, with nothing opening in between and nothing closed after |
| `Scanner.ReadCharacter` | server/agentRuntime.ts:209-240 | One character inside an object moves depth, string and escape flags as the reading automaton does |
| `Scanner.WhatCounts` | server/agentRuntime.ts:209-236 | Outside strings only quotes and braces count; in a string a quote ends it, a backslash hides the next unit, and nothing else counts |
| `Scanner.ScanIsUnique` | server/chatEvidence.ts:128-182 | Those conditions determine the result: a text has one scan |
| `Scanner.PrintedObjectIsBalanced` | server/agentRuntime.ts:203-236 | A printed object is one balanced slice whatever braces, quotes and backslashes its strings hold |
| `Scanner.ScannerUndoesPrinter` | server/agentRuntime.ts:189-243 | On printed objects between brace-free separators the scanner returns exactly those objects' texts, in order |
| `CallHash.RoundIsFnv` | server/agentRuntime.ts:495-496 | One round of shifts and adds on signed numbers is (h xor c) * 16777619 mod 2^32 |
| `CallHash.RoundInjective` | server/agentRuntime.ts:495-496 | A round loses neither the running hash nor the code unit |
| `CallHash.HashToolCall` | server/agentRuntime.ts:491-499 | The loop computes 32-bit FNV-1a over the UTF-16 code units |
| `CallHash.OneChangeNeverCollides` | server/agentRuntime.ts:491-499 | Equal-length texts that differ at exactly one position never collide |
| `CallHash.SignaturesDiffer` | server/agentRuntime.ts:498 | Nor do their hexadecimal signatures |
| `StableText.TestVectors` | server/agentRuntime.ts:491-499 | The hash meets the published FNV-1a vectors for the empty text and "a" |
| `StableText.DigitsRead` | server/agentRuntime.ts:498 | The hexadecimal digits are lower-case, without leading zeros, and read back as the number |
| `CallSignature.SignToolCall` | server/agentRuntime.ts:491-499 | The signature is the hash, in hexadecimal, of the tool id, two colons and the printed arguments |
| `StableText.HashedText` | server/agentRuntime.ts:491-492 | What is hashed is the tool id, two colons and the printed arguments |
| `StableText.HashedWithoutArguments` | server/agentRuntime.ts:491-492 | And an empty object when there are no arguments |
| `CallSignature.SameTextExactly` | server/agentRuntime.ts:474-492 | Two calls of colon-free tools have the same text if and only if they name the same tool with the same arguments up to the order of object keys |
| `CallSignature.SameCallSameSignature` | server/agentRuntime.ts:485-499 | So a repeated call has the same signature however its object keys are ordered |
| `ToolLoop.BuildAutomaticWorkspaceReadCalls` | server/agentRuntime.ts:671-775 | The three loops collect new non-empty paths from ranked symbols, files and matches, with the cap looked at after each addition |
| `ToolLoop.ReadsBounds` | server/agentRuntime.ts:728-772 | At most three reads, on distinct non-empty paths; three if and only if reads are due, the symbols alone give fewer than two paths and with the files exactly two, and some match names a further one |
| `ToolLoop.ThreeReads` | server/agentRuntime.ts:748-772 | Three reads do happen |
| `ToolLoop.ExecuteReadOnlyToolChain` | server/agentRuntime.ts:777-849 | A chain is the call itself, then for discovery tools its follow-up reads |
| `ToolLoop.RunIteration` | server/agentRuntime.ts:1302-1711 | One iteration: discovery, rejection, duplicate guard, execution, no-index exit and returns as in the loop body; the `ToolLoopAnswers` rows say what a turn makes of its replies |
| `ToolLoop.InvokeToolLoop` | server/agentRuntime.ts:1301-1863 | The whole turn, with the forced answer and the fallback behind the loop; the `ToolLoopAnswers` rows say what it answers, runs and reports |
| `ToolLoop.TurnBounds` | server/agentRuntime.ts:158-163 | A turn makes at most six model calls and eight executions, five calls of its own and three automatic reads on distinct paths, and no two chosen calls share a signature |
| `ToolLoop.DiscoveryIsFirst` | server/agentRuntime.ts:1340-1348 | Automatic discovery runs at most once, before anything else, only after a first reply that asked for no tool |
| `ToolLoop.FallThroughIsSafe` | server/agentRuntime.ts:1713-1863 | A turn that falls through the loop was just asked for a tool in its last loop reply, and ends with a forced answer resting on evidence or with the fixed safe message |
| `ToolLoop.AnswersAreGrounded` | server/agentRuntime.ts:1440-1450 | With discovery available an accepted answer rests on a tool execution except exactly when every earlier reply, of at least one, was a rejected tool request |
| `ToolLoop.RejectedThenAnswered` | server/agentRuntime.ts:1560-1612 | The exception happens: rejected, then answered, without any execution |
| `ToolLoop.UsageIsExactUnlessSafe` | server/agentRuntime.ts:1847-1849 | Reported usage is the sum over all model calls, except behind a safe message, where the last loop reply counts twice and a forced reply not at all |
| `ToolLoopAnswers.AnswersAreReplies` | server/agentRuntime.ts:1396-1863 | Of every turn: an answer from inside the loop is the last reply, its text if it is no decision and else exactly the field of the decision it is; behind the loop it is what the forced reply shows if that is not empty, and else the safe message with the tool the last loop reply names; a turn never ends by passing on such a reply |
| `ToolLoopAnswers.RunsWhatIsAsked` | server/agentRuntime.ts:1560-1670 | The calls the model chose that ran are exactly those its replies in the loop asked for, in this order, each signature once; rejected requests run nothing |
| `ToolLoopAnswers.WhenItLeaves` | server/agentRuntime.ts:1301-1711 | A turn that no reply ends inside the loop leaves it with the second repetition of a call, with the first chosen call that finds no index, or after five replies, whichever comes first |
| `ToolLoopAnswers.DispositionsTell` | server/agentRuntime.ts:1560-1670 | What the turn reports about tool requests is what the last reply that repeats nothing made of it; repaired behind a forced answer, stripped behind the safe message |
| `ToolLoopAnswers.DiscoveryRuns` | server/agentRuntime.ts:600-634 | When the first reply is no decision or an answer and the message is not blank, browse_code runs first if it is allowed, else workspace_search if that is |
| `ToolLoopReads.RankedAre` | server/agentRuntime.ts:696-704 | The symbols are taken as a stable sort with the preferred ones first leaves them |
| `ToolLoopReads.GatherTakes` | server/agentRuntime.ts:711-772 | From a list, from left to right, exactly the paths that are not blank and not taken yet, up to the one that brings the list to two or more |
| `ToolLoopReads.ReadsTake` | server/agentRuntime.ts:671-775 | Nothing is read unless reads are due; then from the symbols, and with fewer than two so far from the files and the matches |
| `ToolLoopReads.ReadsFollow` | server/agentRuntime.ts:777-849 | In every turn the automatic reads stand exactly behind the calls whose results name them |
| `RefreshQueue.Queue.constructor` | server/desktopRepoSync.ts:379-425 | The queue starts empty |
| `RefreshQueue.Queue.Add` | server/desktopRepoSync.ts:379-405 | Merges the roots into the queue; without a registered worker one starts and takes them at once |
| `RefreshQueue.Queue.Continue` | server/desktopRepoSync.ts:399-421 | A worker whose refresh settled takes what is queued or leaves its loop |
| `RefreshQueue.Queue.Finally` | server/desktopRepoSync.ts:421-423 | The finally step takes the worker off the registry |
| `RefreshQueue.Queue.CancelPeriodicRefresh` | server/desktopRepoSync.ts:857-868 | Cancelling drops what is queued for the capability |
| `RefreshQueue.OneWorkerEach` | server/desktopRepoSync.ts:395-424 | In every run at most one started loop per capability, and the registry names exactly the capabilities that have one |
| `RefreshQueue.EveryRootIsAccountedFor` | server/desktopRepoSync.ts:389-393 | Each enqueued root is still queued, was handed to a refresh, was overwritten by a later enqueue for its repository, or was cancelled |
| `RefreshQueue.WorkersWorkOnHanded` | server/desktopRepoSync.ts:399-421 | In every run what a worker is refreshing is what was handed last for its capability |
| `RefreshQueue.QueuedWorkHasAWorker` | server/desktopRepoSync.ts:399-423 | Queued work has a refreshing worker that takes all of it next, if and only if no late enqueue (one between a loop exit and its finally) was left without a later cancel and without a later enqueue that starts a worker |
| `RefreshQueue.OrphanedExactly` | server/desktopRepoSync.ts:395-423 | From any state without such work: queued work is without a refreshing worker if and only if the run has a late enqueue that nothing later made up for |
| `RefreshQueue.StalledExactly` | server/desktopRepoSync.ts:395-424 | Work is queued with nobody registered if and only if such an enqueue was followed by the finally of the worker it had found |
| `RefreshQueue.LateEnqueueThenSettle` | server/desktopRepoSync.ts:395-424 | In any reachable state: after a late enqueue the finally of that worker stalls the work, whatever else comes in between, unless a cancel does |
| `RefreshQueue.LateEnqueueStalls` | server/desktopRepoSync.ts:395-423 | A run of four moves stalls, for any capability and any roots |
| `RefreshQueue.NextEnqueueHeals` | server/desktopRepoSync.ts:389-393 | The next enqueue takes the stalled roots along |
| `CodeRoots.ResolveShow` | server/codeRoots.ts:51-58 | Printing a normalised path and resolving the text gives the path back |
| `CodeRoots.WithinIsPrefix` | server/codeRoots.ts:51-58 | The text test on the relative path holds exactly when the root's normalised segments begin the candidate's |
| `CodeRoots.SafeJoinIsSafe` | server/codeRoots.ts:66-72 | A safe join throws exactly when the path resolves to somewhere outside the root, and otherwise returns the resolved path |
| `CodeRoots.DownwardStays` | server/codeRoots.ts:66-72 | A path without ".." never leaves the directory it starts from |
| `CodeRoots.FirstContaining` | server/codeRoots.ts:115-118 | The search returns the first root that contains the path and misses none |
| `CodeRoots.CanonicalPathsAreContained` | server/codeRoots.ts:281-385 | For every request and root list, a result that names a root names a given one that contains the resolved path |
| `CodeRoots.TryRootsSettles` | server/codeRoots.ts:330-341 | The loop answers by the first root under which the path exists or throws at the first root the path escapes, whichever comes first, all roots before it having been tried in vain; it runs out if and only if the path stays within every root and exists under none |
| `CodeRoots.TryRootsContained` | server/codeRoots.ts:330-341 | A result of the loop names a given root, lies within it and exists; an error means that some root is escaped |
| `CodeRoots.AnsweredPathsExist` | server/codeRoots.ts:281-385 | A relative request answered without a fallback names a root and an existing path |
| `CodeRootAnswers.PrefixedAnswer` | server/codeRoots.ts:302-354 | If the first of several names is a token of a root, the first such, the path of the other names below it is the answer if it exists and an error if it leaves the root; else the first root that settles all the names answers, and if none does, that first path, as a fallback |
| `CodeRootAnswers.RelativeAnswer` | server/codeRoots.ts:330-384 | Otherwise the first root that settles the names answers; if none does, the single root, else the workspace path, else the first root, else the working directory, each with its mode |
| `CodeRootAnswers.AbsoluteAnswer` | server/codeRoots.ts:295-304 | An absolute path is answered normalised, with the first root that contains it |
| `CodeRootAnswers.BlankAnswer` | server/codeRoots.ts:290-293 | A blank request is an error |
| `CodeRootAnswers.NamesRead` | server/codeRoots.ts:306-307 | Names joined by slashes or backslashes are read back |
| `CodeRootAnswers.LeadingDot` | server/codeRoots.ts:306-307 | A leading "./" is dropped with the slashes after it, and elsewhere a dot is a name |
| `CodeRootAnswers.UpTakesBack` | server/codeRoots.ts:66-72 | ".." takes back the name before it and stops at the top |

## Left out

- Statement-level interleaving of engine calls: each exported call is one atomic step on the rows of one
  instance (the engine reads and rewrites the instance row without a lock, so its invariants hold for
  serialised calls only). After a hanging sweep any further calls are allowed, more than can happen.
- `EngineJoins.RunCounts`: speaks of the nested read and of node ids that are one path key each; for the
  flat read as written, `FlatReadMisses` and `BehindJoinsNeverStarts` hold instead.
- `EnginePaths.ActivationCountsTrails`: speaks of the flat read as written, under which a join with at
  most one incoming edge passes control on and any other is a leaf; so do the results on termination.
- `SetPathHeap.BindOutputs`: requires that no object-valued output is bound to two places, because the
  source would then share one mutable object between them until the row is reloaded.
- Comparing a condition's clause with a value (JavaScript's loose number and string comparison) is an
  arbitrary function of the context; groups, missing conditions and empty groups are as in
  src/lib/businessWorkflowConditions.ts:135-160.
- Custom node types are a fixed map during a run.
- Clocks, due dates, the time a TIMER node notes, completion and pause stamps, actors, recipients, messages and notification delivery;
  what depends on them is a parameter of the call. Row ids are positions in their tables.
- Fractional numbers in contexts, and property names inherited from Object.prototype.
- Live marking over whole runs under a schema without the `updated_at` column: `EngineSchema` follows log and
  rows over runs, the marking call by call.
- Values carry no key order, which `JSON.stringify` compares in a context update; the keys that differ in
  this alone are a parameter of the call.
- The refresh of a capability itself, git, the file system and tool bodies: arbitrary results. A model
  call or tool that throws, and cancellation of a turn, end the turn outside the model.
- `ToolLoop.InvokeToolLoop`: the prompt texts, debug output and discovery metadata of a turn are not
  modelled, nor is the branch without a tool loop; usage is one number. The fixed texts around an answer
  (of the safe message, and "Workflow unblocked." for an empty summary) are left to the caller.
- Values JSON cannot write (functions, symbols, big integers, objects with their own `toJSON`).
- Windows paths; `resolveCapabilityCodeRoots`, which gathers the roots from disk and registries.
- Tables, indexes and SQL text, listing and statistics queries, seeds, user interface and configuration.
