# A verified model of the bounded browser-job executor

The system lets a local agent run a small typed program in one browser tab that the user has shared. Five parts work
together, and each is modelled here in its own form:

- **The program language and its interpreter.** `Program` holds the typed actions, the flattening of nested branches
  and the static rules in the order the validator applies them; `Acceptance` says what each rule means and that the
  rules together accept exactly the lawful programs. `Executor` is the interpreter as a class: every await may return
  anything, fail, drift or cancel. `ExecutorModel` holds its event history with the rules every event obeys, `Waits`
  the retry loop read off that history, and `RunLaws` what a run of an accepted program guarantees. The interpreter is
  proved against a chain of action steps (`RunLaws.ListRun`), and the guarantees are proved about that chain.
  `LinearPrograms` exhibits the programs that are certainly accepted, and `Fitting` says which programs can only fail
  for a cause outside the executor.
- **The mutation boundary.** `MutationProtocol` is a step machine of clients, relays, the extension's worker, timers,
  cancellation, port loss and the local user, with FIFO channels and one step per await. `HonestRun` shows that an
  honest job gets through it. `Relay` is the native relay as a class with interleaved handler threads, down to the bytes
  the agents send. `Results` is the result message and the client's check of it; `EndToEnd` joins it to the protocol.
- **The grant workspace.** `Workspace` is the stored workspace as a class with a ghost history of everything stored.
- **Collectors and loops.** `Scrolling`, `RequestCapture` and `Locator` follow the loops of the executor; the retry
  loop, the private-result budget and the capture life cycle are methods of `Executor.BrowserExecutor`.
- **Wire format and schedule table.** `LineFraming`, `NativeFraming` and `CanonicalJson` are proved against the streams
  and values they encode; `Scheduler` is the lock-protected table as a class with a ghost life per schedule.

What the browser, the operating system and the user do is arbitrary throughout: a nondeterministic choice inside a
method, a parameter, or an element of an arbitrary sequence of steps. Identifiers that the code draws at random are
fresh numbers. URLs are given as parsed components. JSON numbers are integers.

Where the code differs from what one would expect, the model follows the code:

- Two grants can come to show one URL, exactly when two tabs whose grants survive a check show the same one. What is
  then stored is dropped as a whole by the next check (`Workspace.NextCheckIff`, `Workspace.RotationCanCollide`), unless
  the request goes on to revoke, replace or evict grants until no two of those left collide
  (`Workspace.NextCheckAfterRevokeIff`, `Workspace.NextCheckAfterShareIff`).
- Two jobs can be in the worker at once, because the test for an active job and the assignment are several awaits apart:
  exactly when a job message meets the test while no job is active and another is already past it
  (`MutationProtocol.TwoJobsIff`, `MutationProtocol.TwoJobsCanRunAtOnce`). The authorization guarantees hold all the
  same.
- A cancelled job can begin its mutation: cancellation is tested when the answer is read, and the target is then read
  with nothing tested again. A started job is cancelled exactly when a step between the two cancels it
  (`MutationProtocol.StartsCancelledIff`, `HonestRun.CancelledJobStarts`).
- The line sender admits a payload of exactly the size limit, which no receiver accepts; and a shorter line may still be
  refused, depending on what follows it (`LineFraming.SentPayloadReceived`, `LineFraming.AlwaysReceivedIff`).
- A node that is ignored by accessibility cuts the chain of ancestors as far as locators are concerned: a node has
  exactly the ancestors up to the first ignored one (`Locator.AncestorIff`, `Locator.IgnoredParentHidesAncestors`).
- An unfinished download is not waited for: its error is not among the retryable ones, so only a first look that finds
  the downloads finished succeeds (`Executor.BrowserExecutor.WaitFor`, `Executor.BrowserExecutor.StopDownloadCapture`).
- Static acceptance does not keep a program from failing on its own account: it may, for instance, close its tab while
  the debugger is attached (`Fitting.AcceptedNeedNotFit`). A program whose actions fit one after the other fails only if
  an answer, the clock or the user goes against it (`Executor.BrowserExecutor.Run`).
- No rule keeps the insertion of private text behind the boundary: any plain action may stand before it
  (`LinearPrograms.LinearAccepted`).

## Model

| member | source | states |
|---|---|---|
| Program.FlattenActions | extension/protocol.mjs:171-193 | the pushing loop yields the flattened actions, or the first error in source order, for every nesting |
| Program.FlattenIsFlat | extension/protocol.mjs:171-193 | when flattening succeeds, its result is the plain pre-order listing of all actions |
| Program.PathMatchesPrefixMeaning | extension/protocol.mjs:151-153 | a path matches a prefix exactly when it equals it or continues it at a slash |
| Program.IndexOfMeaning | extension/protocol.mjs:509-523 | the first-index test finds the first occurrence, or says there is none |
| Acceptance.OnlyIff | extension/protocol.mjs:512-519 | "once among the top-level and once among all operations" means: at exactly one top-level position and in no branch |
| Acceptance.OrderIff | extension/protocol.mjs:520 | comparing first indices in the flattened list is comparing the two top-level positions |
| Acceptance.LifecycleMeaning | extension/protocol.mjs:509-523 | the life-cycle rule holds iff the program opens first, attaches and detaches once in that order at top level, and ends detached or by closing the tab |
| Acceptance.BoundaryMeaning | extension/protocol.mjs:524-540 | a mutation program passes iff it has one boundary, at top level, with no branching after it |
| Acceptance.CaptureMeaning | extension/protocol.mjs:541-575 | each capture rule holds iff the capture is absent or started once and later stopped once, both at top level |
| Acceptance.AcceptedIff | extension/protocol.mjs:453-592 | validation accepts exactly the programs that satisfy the declarative rules |
| Acceptance.DeclarationsIff | extension/protocol.mjs:474-507 | the checks before the actions hold exactly for one to eight distinct prefixes, an initial URL inside the policy, limits in their ranges and distinct, safe, at most 32 result fields |
| Acceptance.InTargetIff | extension/protocol.mjs:151-153 | a URL is inside the target exactly if it is https, has no credentials, has the target's origin, and its path is one of the prefixes or goes on after a slash |
| Acceptance.ActionsIff | extension/protocol.mjs:508-509 | the rules for single actions hold exactly if every action that goes elsewhere names a URL inside the policy and every one that names a private result a declared one; read-only and matching fields likewise |
| Acceptance.FlattenIff | extension/protocol.mjs:171-193 | a program can be flattened exactly if every choice has one to four non-empty branches, nothing else has any, all operations are supported, and choices are nested at most four deep |
| Acceptance.AcceptedReadChangesNothing | extension/protocol.mjs:524-530 | an accepted read-only program holds no operation that changes anything, at any depth |
| LinearPrograms.LinearAccepted | extension/protocol.mjs:453-592 | every linear mutation program of plain actions with a valid target and room in its limits is accepted |
| Fitting.LinearFits | extension/executor.mjs:175-230 | in every linear mutation program that does not close its tab, each action starts in a session in which its handler has no failure of its own |
| Fitting.AcceptedNeedNotFit | extension/executor.mjs:328-331 | acceptance alone does not say that: an accepted mutation program may close its tab while the debugger is attached, which the executor refuses |
| ExecutorModel.GuardedCommand | extension/executor.mjs:158-173 | in a guarded history every page command is allow-listed, goes to the attached tab, and belongs to an action whose target check passed right after it began, on the tab the command goes to, seeing the URL then expected, active and focused, inside the target's origin and path prefixes |
| ExecutorModel.GuardedStart | extension/executor.mjs:153-160 | no action of a guarded history starts unless the clock was read just before and the deadline was not reached |
| ExecutorModel.GuardedMutation | extension/executor.mjs:1345-1352 | a mutation begins at most once, and right before it the boundary was granted, the deadline checked and the target seen to be exact, in that order |
| Waits.CheckedBetween | extension/executor.mjs:419-436 | between any two evaluations of a wait there are a sleep, a passing target check and a deadline check |
| Waits.SleepEndsInTime | extension/executor.mjs:419-436 | every sleep of a wait follows a retryable failure and ends by the earlier of the deadline and start plus timeout |
| ExecutorModel.PutFields | extension/executor.mjs:728-733 | writing a private result adds exactly its field |
| ExecutorModel.PutThenDelete | extension/executor.mjs:728-733 | deleting an oversized result leaves the other fields and never more bytes than before the write |
| RunLaws.RunWithin | extension/executor.mjs:158-173 | whatever fails, the counted actions are a subsequence of the flattened program, and what its actions never touch is unchanged |
| RunLaws.RunFinishes | extension/executor.mjs:158-173 | a successful run completes every one of its actions in order, and a choice only by completing all actions of one of its branches |
| RunLaws.CompletedByBranches | extension/executor.mjs:438-450 | in every chain, whenever a choice was completed, some branch of it had just run through |
| RunLaws.CountedWithinBudget | extension/executor.mjs:158-173 | an accepted program never exceeds its action budget and attempts open, attach, detach and the boundary at most once each |
| RunLaws.DetachedWhenDone | extension/executor.mjs:126-134 | when every action succeeds, the program itself has detached the debugger |
| RunLaws.BoundaryRun | extension/executor.mjs:1345-1357 | the actions counted since the mutation began are a contiguous run of those after the boundary, all of them on success, and the start was granted |
| RunLaws.NoBoundaryNoMutation | extension/protocol.mjs:526-531 | a program without a boundary never begins a mutation |
| RunLaws.WrittenAt | extension/executor.mjs:687-693 | after a successful run each top-level extraction has its private result |
| RunLaws.CapturedWhenDone | extension/executor.mjs:917-939 | after a successful run each started capture has delivered its private result |
| RunLaws.ExactlyDeclared | extension/protocol.mjs:576-590 | with all extractions at top level, a successful run leaves exactly the declared private fields |
| RunLaws.AcceptedRun | extension/protocol.mjs:453-592 | static acceptance implies all of the run guarantees, completed choices included, for every chain of action steps |
| Executor.BrowserExecutor.Run | extension/executor.mjs:126-151 | for an accepted program and any browser: afterwards detached, no captures, no listeners, the whole history guarded with the deadline counted from the start, the run guarantees hold, results are exactly the declared ones on success, and the budget, unsupported-action and leaked-debugger errors never occur; and if each action fits the session it starts in, the run succeeds unless an answer, the clock or the user goes against it |
| Executor.BrowserExecutor.RunActions | extension/executor.mjs:158-173 | the loop is a chain of action steps in which the first failure ends the run; actions that fit one after the other all succeed, and leave the session they should, unless something outside goes against them or the budget is used up |
| Executor.BrowserExecutor.RunOne | extension/executor.mjs:161-171 | one action is counted and checked against the budget; if a tab is open, either it fails with nothing else done or the check right after its start saw the expected URL before the handler ran; it has only the effect its operation may have, a tab action that succeeds has done what it says, and an action that fits fails only for a cause outside |
| Executor.BrowserExecutor.EnterAction | extension/executor.mjs:160-170 | it succeeds on an open target only right after that tab was seen to show the expected URL, active and focused |
| Executor.BrowserExecutor.RunBranches | extension/executor.mjs:438-450 | the choice is decided by the branches in order: by the first that was not given up, with its own outcome or the failed target check after it, or, exactly if all were given up, by all-branches-failed; each one given up ran to a recoverable failure and was followed by a passing target check; success completes all actions of one branch; only actions of the branches were counted, and nothing recovered from lost a private result |
| Executor.BrowserExecutor.TryBranch | extension/executor.mjs:438-450 | the branch runs to an outcome of its own; only a recoverable failure followed by a target check that just passed moves on to the next branch, success settles the choice, anything else is rethrown |
| Executor.BrowserExecutor.Cleanup | extension/executor.mjs:144-150 | from any state, cleanup ends detached, without captures and without listeners, and leaves the private results alone |
| Executor.BrowserExecutor.AssertExactTarget | extension/executor.mjs:272-284 | it passes only when the open tab shows the expected URL, is active and its window is focused, and fails only with the three target errors |
| Executor.BrowserExecutor.Command | extension/executor.mjs:408-417 | a command succeeds only if allow-listed and attached, and goes to the attached tab |
| Executor.BrowserExecutor.WaitFor | extension/executor.mjs:419-436 | what it adds to the history is a whole wait: at most min(attempts, 20) evaluations, each after a deadline check and, but for the first, after a sleep and a passing target check; sleeps of the set delay within the timeout, none past the stop time; it gives up only on a final failure, the last attempt, want of time, cancellation, the deadline or a drifted target; downloads are looked at once; never the exhausted error |
| Executor.BrowserExecutor.OpenOrFocus | extension/executor.mjs:232-257 | on success the shared tab is the target and was just seen to be the exact target; a second open fails with nothing done |
| Executor.BrowserExecutor.NavigateTo | extension/executor.mjs:286-326 | navigation and history moves change the expected URL on success only, and then the tab was just seen loaded with it; every failure rolls it back |
| Executor.BrowserExecutor.CreateSameOriginTab | extension/executor.mjs:300-311 | refused while attached; on success the new tab is the target and was just seen to show the URL |
| Executor.BrowserExecutor.CloseTargetTab | extension/executor.mjs:328-338 | refused while attached; on success there is no target tab |
| Executor.BrowserExecutor.AttachDebugger | extension/executor.mjs:346-373 | success attaches; a failure half-way leaves the debugger detached |
| Executor.BrowserExecutor.OpenSession | extension/executor.mjs:348-368 | a successful attach is followed by enabling the DOM, accessibility and page domains, and, where the browser has debugger events, by asking for child frames, in that order and with nothing in between |
| Executor.BrowserExecutor.DetachDebugger | extension/executor.mjs:375-406 | best effort always ends detached without an error; otherwise success does; before the debugger is let go every domain was disabled, those of the child frames first |
| Executor.BrowserExecutor.Store | extension/executor.mjs:728-733 | the write succeeds exactly when the encoded results still fit, and otherwise the field is gone |
| Executor.BrowserExecutor.CapturePerformance | extension/executor.mjs:834-847 | on success its field is written and the last command disabled the metrics again, and a recovered failure loses no other field |
| Executor.BrowserExecutor.StartDownloadCapture | extension/executor.mjs:902-915 | success records the capture and its listeners, failure changes nothing |
| Executor.BrowserExecutor.StopDownloadCapture | extension/executor.mjs:917-939 | on success the capture has ended with its listeners and, outside cleanup, delivered its result after the one look that found the downloads finished; an unfinished one fails at once with the capture still there; no other capture changes |
| Executor.BrowserExecutor.StartEventCapture | extension/executor.mjs:1170-1194 | a capture whose domain cannot be enabled leaves neither capture nor listener behind |
| Executor.BrowserExecutor.StopEventCapture | extension/executor.mjs:1196-1220 | the capture ends even if disabling its domain fails, and a success has delivered its result |
| Executor.BrowserExecutor.CrossBoundary | extension/executor.mjs:1345-1357 | a mutation begins only once, after the boundary was granted, the deadline checked and the exact target seen again, in that order with nothing in between |
| MutationProtocol.StepKeeps | extension/service-worker.js:341-479 | every step of every party keeps the authorization invariant |
| MutationProtocol.RunInvariant | extension/service-worker.js:341-479 | the invariant holds in every state of every run |
| MutationProtocol.MutationAuthorized | browser_executor/client.py:340-372 | a mutation of job j has begun only after, in this order: j's client returned normally from its only callback; the local user approved j, or a mode that needs no approval granted it with no protected operation; j read that answer uncancelled; and the exact target was seen |
| MutationProtocol.OnlyOwnBoundaryRunsCallback | browser_executor/client.py:345-367 | a callback runs only on the job's own first boundary message, after that job asked for it |
| MutationProtocol.OnlyGrantGrants | extension/service-worker.js:453-478 | an answer becomes granted only by the user's approval, or under a mode that needs none without protected operations, on an open boundary whose client has returned |
| MutationProtocol.OnlyAnswerIsChecked | extension/executor.mjs:1347-1349 | the target is looked at only after a granted answer was read in time by an uncancelled job |
| MutationProtocol.OnlyTargetStarts | extension/executor.mjs:1350-1351 | only seeing the exact target, after such an answer was read, starts a mutation |
| MutationProtocol.CancelsIff | extension/service-worker.js:351-362 | a job is cancelled after a step iff it was before or the step cancels it: the active job, by a call for its port or for all |
| MutationProtocol.StartsCancelledIff | extension/executor.mjs:1347-1351 | a job that starts was uncancelled when its answer was read, and is cancelled at the start iff some step in between cancels it |
| MutationProtocol.StepIsStill | extension/service-worker.js:351-362 | no other step of anyone runs a callback, returns one, grants an answer, reads it or starts a mutation |
| MutationProtocol.BoundaryAnswered | extension/service-worker.js:341-362 | every step answers an open boundary exactly so: with the local user's word, whatever mode and operations; with a grant when the state is read in a mode that needs no approval for a program without protected operations; with a denial for the agent's refusal, a cancellation, the timer and an unreadable state; and any other step leaves it open |
| MutationProtocol.ActiveIff | extension/service-worker.js:550-608 | a job becomes the active one only with the last await before it runs, and stays it until its own end or until another becomes it |
| MutationProtocol.HandlersGoOn | browser_executor/native_messaging.py:502-578 | a connection is accepted once, keeps its job and its answer, and stays ended once it has ended |
| MutationProtocol.AdmittedIff | browser_executor/native_messaging.py:552-571 | a connection may still send exactly its first job, and then one answer that names it |
| MutationProtocol.PortLossCancels | extension/service-worker.js:352-388 | losing the port of the active job is possible at any time and cancels it |
| MutationProtocol.AuthorizationKeeps | extension/service-worker.js:441-479 | handling an authorization message, for whatever job, port or boundary, keeps the invariant |
| MutationProtocol.RequestKeeps | extension/service-worker.js:417-439 | requesting the boundary keeps the invariant, whether or not the message can be sent |
| MutationProtocol.DecideKeeps | extension/service-worker.js:453-478 | whatever mode is read, the decision keeps the invariant: only a mode that allows it grants |
| MutationProtocol.AnswerKeeps | extension/service-worker.js:722-729 | a user's answer, given once the client has authorized, keeps the invariant |
| MutationProtocol.ForwardKeeps | browser_executor/native_messaging.py:552-571 | forwarding keeps the invariant: a true authorization on its way to the worker is a returned callback |
| MutationProtocol.TwoJobsCanRunAtOnce | extension/service-worker.js:481-550 | from any initial state two jobs of one relay can both be running in the worker |
| MutationProtocol.TwoJobsIff | extension/service-worker.js:481-550 | a run has two jobs past the active-job test at once iff at some step a job message meets that test while no job is active and another is already past it |
| HonestRun.HonestJobStarts | browser_executor/client.py:340-367 | from any initial state a ready job has a run that begins its mutation uncancelled, in any mode and with any operations: with the local user's approval wherever one is needed |
| HonestRun.HonestJobEnds | extension/service-worker.js:545-615 | that run goes on to the job's end: the client has read the result, and no job is active any more |
| HonestRun.DeclinedJobDenied | browser_executor/client.py:345-367 | and another run ends with the boundary denied because the client's callback failed |
| HonestRun.CancelledJobStarts | extension/executor.mjs:1347-1351 | the same run with a cancellation while the target is read begins the mutation of a cancelled job |
| EndToEnd.GrantReachedClient | browser_executor/client.py:340-372 | from the moment the worker reads a granted answer, the job's client counts itself authorized |
| EndToEnd.AuthorizedIff | browser_executor/client.py:345-367 | in every run the client counts itself authorized exactly from the moment its callback returned normally |
| EndToEnd.AcceptedSuccessWasAuthorized | browser_executor/client.py:101-102 | whatever a message says: in every run, if the client accepts it as the success of a mutation program, its callback had returned normally before |
| EndToEnd.ResultAccepted | browser_executor/client.py:77-122 | in every run, the job's client accepts every result message that is honest about the answer the worker has read |
| EndToEnd.HasProtectedIff | extension/service-worker.js:24-33 | in a well-placed program the search for protected operations finds one at any depth iff there is one |
| EndToEnd.SuccessWasAuthorized | extension/service-worker.js:441-479 | an honest success of an accepted mutation program comes after its client's callback returned and after the user approved, or a mode without approval granted a program without protected operations |
| Relay.NativeRelay.Serve | browser_executor/native_messaging.py:502-578 | for any interleaving of any agents sending any bytes: the relay does exactly the events that can happen, nothing written is taken back, of each connection's bytes a prefix of what they may have relayed is relayed in order, all of it while the handler waits for more, and the traffic is a concatenation of blocks, each from a connection of its own: a job, or a job and one reply for it |
| Relay.NativeRelay.Take | browser_executor/native_messaging.py:502-578 | one event of one thread has exactly its effect on slot, handlers and output |
| Relay.NativeRelay.Accept | browser_executor/native_messaging.py:502-513 | a second agent is refused while the slot is held |
| Relay.NativeRelay.ReceiveChunk | browser_executor/native_messaging.py:518-524 | a chunk is appended; an empty one, or one that takes the buffer past 1048576 bytes, ends the connection and frees the slot, and no other does |
| Relay.NativeRelay.Handle | browser_executor/native_messaging.py:525-571 | exactly the lines that pass are relayed; anything else ends the connection with nothing relayed |
| Relay.NativeRelay.Close | browser_executor/native_messaging.py:574-578 | ending a connection frees the slot |
| Relay.JudgeIff | browser_executor/native_messaging.py:529-571 | a query of its exact shape is answered before any job, a job with a proper id is relayed first, then one reply that names it; everything else is rejected |
| Relay.AdmitShape | browser_executor/native_messaging.py:552-571 | whatever lines an agent sends, at most one job and one matching reply are admitted |
| Relay.HonestAgentRelayed | browser_executor/native_messaging.py:552-571 | whatever follows, the lines of an agent that sends its job and a reply admit both |
| Relay.HonestAgentServed | browser_executor/native_messaging.py:502-578 | an agent that connects while the slot is free and sends at most a job and its reply is still reading after any events, holds the slot, and has had exactly its handled lines relayed, all of them once none is left: whatever others do and however its bytes are cut, as long as nothing breaks its connection and what follows the last newline never passes 1048576 bytes |
| Relay.NoticesWritten | browser_executor/native_messaging.py:453-455 | every notice of the relay itself is written, whatever the agents do, and no other |
| Relay.BlockwiseIff | browser_executor/native_messaging.py:552-571 | traffic falls into blocks iff every message is a job from a connection not heard before, or a reply right after its own job from the same connection |
| Results.ExecuteJob | extension/service-worker.js:481-604 | a job runs exactly if nothing turns it away, and otherwise is refused for the first reason that applies; every message passes the client's check; it reports the run: its status, action count, start of the mutation and results, or the run's own error or what kept a finished run from succeeding; a success was granted and carries the declared results; and a program whose actions fit is done unless something went against its run |
| Results.AcceptedMessageIff | browser_executor/client.py:77-122 | the client accepts exactly the messages for its own job with declared fields, with a generic error if and only if they are no success, with status, action bound, mutation flag and private count that agree, and that are no mutation success it never authorized |
| Results.OkReplyAccepted | browser_executor/client.py:77-122 | a success message with declared results and granted mutation passes every test of the client |
| Results.ErrorReplyAccepted | browser_executor/client.py:77-122 | a failure message passes every test of the client, authorized or not |
| Results.RefusalAccepted | extension/service-worker.js:483-530 | a refusal with a generic code passes every test of the client |
| Results.SafeErrorCode | extension/service-worker.js:403-406 | the reported code always has the generic form, and a code that has it is reported as it is |
| Results.GenericCodeIff | extension/service-worker.js:17 | a code is generic exactly if it is one allowed character, or up to 62 inner ones between two |
| Results.FilteredSlots | extension/service-worker.js:398-401 | filtering by the declared fields drops none of the private results, so their count is right |
| Workspace.WorkspaceStore.Serve | extension/service-worker.js:225-334 | after any requests and any answers of the browser, nothing recorded is lost, ids name one grant each, never return once gone, and every stored workspace is well formed |
| Workspace.ValidWorkspaceIff | extension/service-worker.js:108-123 | stored data counts as a workspace exactly if it is at most 16 safe grants that differ in id, tab and URL, one of them selected if any is |
| Workspace.LawfulSnoc | extension/service-worker.js:225-256 | storing a workspace made from the latest one keeps the laws of the whole history |
| Workspace.WorkspaceStore.CheckedWorkspaceUnlocked | extension/service-worker.js:225-256 | what is stored and returned is the check of the stored workspace, or of the empty one if that is invalid, under the browser's answers |
| Workspace.CheckTabs | extension/service-worker.js:231-247 | the loop keeps, rotates or drops each grant by its own tab's answer, in order |
| Workspace.CheckMembers | extension/service-worker.js:231-247 | a checked grant keeps tab, window and origin, has a new id exactly when its URL changed, and was just shown by its tab |
| Workspace.CheckedSurvivor | extension/service-worker.js:231-247 | a check leaves one grant for each tab that still lives in its window and shows a safe URL of its origin, in order: the grant itself if the URL is the same, otherwise one with a new id |
| Workspace.CheckedIsItself | extension/service-worker.js:225-256 | a workspace whose tabs all still show its URLs is its own check: grants, order, ids and selection |
| Workspace.CheckApart | extension/service-worker.js:231-247 | checked grants have distinct ids and tabs |
| Workspace.CheckedSelection | extension/service-worker.js:248-250 | a check keeps the selection whenever that grant is still there, and otherwise selects the last one |
| Workspace.SelectionKeptIff | extension/service-worker.js:248-250 | that is so exactly when the selected grant's tab still shows its URL |
| Workspace.ReselectedFormed | extension/service-worker.js:248-250 | the selection is a member, and missing exactly when no grant is left |
| Workspace.WorkspaceStore.StartCollaboration | extension/service-worker.js:282-324 | the clicked tab, asked for again if the click carries no usable URL, ends up as the selected grant showing that URL in the workspace just checked; otherwise nothing changes and the answer says why |
| Workspace.WorkspaceStore.ShareTarget | extension/service-worker.js:293-322 | an existing grant for tab and URL is selected, otherwise a fresh one is added |
| Workspace.SharedFormed | extension/service-worker.js:303-321 | sharing stays within 16 grants with distinct ids and tabs |
| Workspace.SharedKeeps | extension/service-worker.js:303-309 | a grant survives a share iff it has another tab and URL and is not the oldest of a full workspace |
| Workspace.SharedOrder | extension/service-worker.js:303-321 | a new grant comes last and is selected, and the survivors keep their order |
| Workspace.SharedDistinctUrls | extension/service-worker.js:303-321 | sharing never introduces a duplicate URL |
| Workspace.RevokedFormed | extension/service-worker.js:262-280 | exactly the revoked grants are gone and the rest is well formed |
| Workspace.RevokedExactly | extension/service-worker.js:262-280 | a revocation removes everything, or the named grant, or without a name the selected one, and keeps the order; the selection stays whenever its grant is still there, and otherwise the last one is selected |
| Workspace.WorkspaceStore.RevokeCollaboration | extension/service-worker.js:262-280 | what is stored is the checked workspace without the revoked grants; the answer says whether there were any; a revoked id is gone, and revoking all empties it |
| Workspace.WorkspaceStore.CollaborationForProgram | extension/service-worker.js:326-334 | a program is matched exactly to the grant with its id, URL and origin, whose own tab has just shown that URL |
| Workspace.CheckedDistinctIff | extension/service-worker.js:231-247 | of the grants that a check leaves and that are kept afterwards, no two have one URL iff no two of them have tabs showing the same one |
| Workspace.NextCheckIff | extension/service-worker.js:108-123 | the next check starts from what a check stored iff no two survivors collided, and from an empty workspace otherwise |
| Workspace.NextCheckAfterSelectIff | extension/service-worker.js:293-300 | the same after an existing grant was selected |
| Workspace.NextCheckAfterRevokeIff | extension/service-worker.js:262-280 | after a revocation, iff no two of the grants it leaves collided |
| Workspace.NextCheckAfterShareIff | extension/service-worker.js:303-322 | after a share, iff no two of the grants it neither replaces nor evicts collided |
| Workspace.RotationCanCollide | extension/service-worker.js:239-243 | it happens: two grants whose tabs navigate to one URL produce a workspace that the next check rejects |
| CanonicalJson.PrintThenParse | browser_executor/protocol.py:271-274 | printing then parsing returns the value and leaves what followed it |
| CanonicalJson.PrintInjective | browser_executor/protocol.py:271-274 | different values have different texts |
| CanonicalJson.EscapeLength | browser_executor/protocol.py:271-274 | only the quotation mark, the reverse solidus and the control characters are escaped, seven of them with two characters and the others with six |
| CanonicalJson.CanonicalIff | extension/protocol.mjs:155-161 | sorted forms agree exactly when the values are equal up to member order |
| CanonicalJson.CanonicalFacts | extension/protocol.mjs:155-161 | sorting the members keeps every key with its value |
| CanonicalJson.CanonicalTextIff | browser_executor/protocol.py:271-274 | two values print alike exactly when they are equal up to member order |
| CanonicalJson.CanonicalTextOrdered | browser_executor/protocol.py:271-274 | in the canonical text, read back, the keys of every object ascend character by character |
| CanonicalJson.HashedTextIff | browser_executor/protocol.py:277-280 | the hashed text determines the program up to member order and its own hash field, and exactly that |
| RequestCapture.Capture.HandleRequestEvent | extension/executor.mjs:1081-1168 | the handler, with its push, pop and roll-back, has the effect of the event on the capture's value |
| RequestCapture.Capture.HandleSent | extension/executor.mjs:1094-1131 | a request row that does not fit is taken back and leaves only the flag |
| RequestCapture.Capture.HandleUpdate | extension/executor.mjs:1133-1164 | an update that does not fit is rolled back and leaves only the flag |
| RequestCapture.Capture.HandleAll | extension/executor.mjs:1081-1168 | the listener over any events yields the run of those events |
| RequestCapture.RunLawful | extension/executor.mjs:1058-1061 | for any events the row count and the encoded size stay within bounds and every id's index is its latest retained row |
| RequestCapture.FlagsSticky | extension/executor.mjs:1081-1168 | both flags stay on, and every retained row keeps its place, its request and its failure |
| RequestCapture.FlagShortens | extension/executor.mjs:1058-1061 | turning the truncation flag on shortens the encoding by one byte, so it never breaks the bound |
| RequestCapture.CleanCaptureIsPlain | extension/executor.mjs:1081-1168 | with neither flag set the capture equals the plain unbounded reading of all events |
| RequestCapture.CleanIff | extension/executor.mjs:1063-1168 | neither flag is set exactly if every event is well formed and fits in its turn |
| RequestCapture.LeftOutIff | extension/executor.mjs:1063-1168 | the first event that is not taken sets the truncation flag exactly if it is well formed but not captured or has no room, and the failure flag otherwise |
| Scrolling.CollectAxByScrolling | extension/executor.mjs:695-726 | a success is the first max_items of the first occurrences among all rows observed, within max_scrolls; it goes on exactly while rows are missing and the last stable_rounds observations added something, and no match it passed failed to give its row |
| Scrolling.AddMatches | extension/executor.mjs:704-717 | one observation adds exactly its new rows up to the limit, ends with the error of the first match that gives none, or stops where the byte count overflows |
| Scrolling.IdentityIff | extension/executor.mjs:706 | two rows have one identity string iff they agree on every dedupe field |
| Scrolling.CountIsSize | extension/executor.mjs:709-711 | the running byte count is the encoded size of the rows, plus one, so it never understates it |
| Scrolling.LimitReached | extension/executor.mjs:715-718 | once the limit is reached, the rest of the round could not change the result |
| Locator.FindAx | extension/executor.mjs:525-532 | the result is exactly the nodes meeting the locator in tree order, or the one its ordinal names; not found exactly if there is none of that kind, ambiguous exactly if one was asked for and several meet it |
| Locator.MeetingIsExactly | extension/executor.mjs:527 | the filtered nodes are a subsequence of the tree and contain exactly the nodes that meet the locator |
| Locator.NodeMatchesIff | extension/executor.mjs:490-507 | a node matches exactly if it satisfies each stated condition: role, one of the roles, name, a part of the name or one of several up to case, the expression on a name of at most 4096 bytes, checked and focused |
| Locator.AncestorMatches | extension/executor.mjs:509-519 | the walk up finds an enclosing proper ancestor iff there is one, or the locator asks for none |
| Locator.NodeMatchesTree | extension/executor.mjs:521-523 | evaluation agrees with the declarative meaning of the locator |
| Locator.AxTree | extension/executor.mjs:471-488 | nodes are gathered frame by frame and the map holds exactly them |
| Locator.AllAncestorsPassed | extension/executor.mjs:509-519 | a walk that reached a root has passed every proper ancestor |
| Locator.NestedWithinIsChain | extension/executor.mjs:509-523 | nested `within` asks for a chain of proper ancestors |
| Locator.AncestorIff | extension/executor.mjs:471-519 | a node has exactly those ancestors that a path of parents in Chrome's listing leads to with no ignored node on it |
| Locator.MeetsIff | extension/executor.mjs:509-523 | so a locator that asks for an ancestor is met iff one of those encloses |
| Locator.IgnoredParentHidesAncestors | extension/executor.mjs:471-519 | in particular a node whose own parent is ignored has no ancestors, so it meets a locator iff it matches and no ancestor is asked for |
| Locator.AncestorsStayInSession | extension/executor.mjs:510-516 | no witness ancestor belongs to another frame session |
| LineFraming.LineReceiver.ReceiveLine | browser_executor/client.py:39-48 | the received line and the leftovers are what the unread bytes and their chunking determine |
| LineFraming.LineReceiver.ReceiveAll | browser_executor/client.py:39-48 | a stream within the limit yields its lines under every chunking, leftovers included |
| LineFraming.ReceiveMeaning | browser_executor/client.py:39-48 | a received line is the first one sent and nothing is lost; each error names its cause |
| LineFraming.LinesInverse | browser_executor/native_messaging.py:525-528 | cutting a stream at newlines loses nothing |
| LineFraming.LinesAppend | browser_executor/native_messaging.py:519-528 | reading may stop after any byte and resume with what was left over |
| LineFraming.AlwaysReceivedIff | browser_executor/client.py:39-45 | a line arrives under every chunking iff it and one more chunk, or everything sent, fit the limit |
| LineFraming.SentPayloadReceived | browser_executor/client.py:32-45 | a payload is sent exactly if it has at most 1048576 bytes, and, sent alone, received exactly if it is one byte below that |
| NativeFraming.NativeInput.ReadMessage | browser_executor/native_messaging.py:342-355 | one message is read off the stream, or the end or the missing part is reported |
| NativeFraming.ParsedFrame | browser_executor/native_messaging.py:342-369 | a frame cut anywhere is reported as truncated, never as another message |
| NativeFraming.ReadCutStream | browser_executor/native_messaging.py:342-369 | a cut stream of frames yields exactly the messages wholly before the cut, and no error iff the cut is between messages |
| NativeFraming.FrameUnique | browser_executor/native_messaging.py:363-368 | two framed streams agree only if their first payloads and their remainders do |
| Scheduler.ScheduleTable.Serve | browser_executor/collaboration.py:1253-1353 | under any interleaving at most 4 schedules are active and 32 retained, every schedule has led an allowed life, no recorded life is forgotten or rewritten, and every unread result is still there |
| Scheduler.LifeIff | browser_executor/collaboration.py:1267-1284 | the allowed lives are exactly seven stories, one per outcome |
| Scheduler.LifeMeaning | browser_executor/collaboration.py:1253-1353 | a cancelled schedule never ran, a result is read at most once and only after it was produced, and nothing with a result was dropped |
| Scheduler.ScheduleTable.ScheduleOne | browser_executor/collaboration.py:1260-1314 | a schedule is refused for its arguments, for four active rows, or for a full table with nothing to drop, each exactly then and with nothing changed; otherwise a new row goes to the end, and a full table first loses its oldest cancelled or failed row |
| Scheduler.ScheduleTable.Begin | browser_executor/collaboration.py:1267-1272 | a timer runs exactly if its schedule is still scheduled, and then only that row changes |
| Scheduler.ScheduleTable.End | browser_executor/collaboration.py:1273-1284 | a running schedule completes with its result or fails, and only its row changes |
| Scheduler.ScheduleTable.CancelOne | browser_executor/collaboration.py:1326-1337 | cancelling succeeds exactly on a scheduled job, which then never begins, and changes only its row |
| Scheduler.ScheduleTable.ResultOf | browser_executor/collaboration.py:1339-1353 | a completed result is handed out once and its row gone; anything else is only reported |

## Left out

- Executor.BrowserExecutor.WaitFor: assumes that the clock never runs backwards and a sleep lasts at least as long as asked.
- Executor.BrowserExecutor.Run: the event history, the mark that cleanup has begun and the mark that no answer went against the run (`smooth`, set beside each answer) are fields of the model; the source keeps none of them.
- Executor.BrowserExecutor.UsePage: the page-reading and input handlers (clicks, keys, drags, selection, files, dialogs, screenshots, extraction) are one handler that may send any commands in any order and end in any of their codes; what they compute is modelled only for locators, scrolling and request capture.
- Executor.BrowserExecutor.StopEventCapture: log, request and console captures share one method; what a capture collected is a size chosen freely, and the removal of a listener is assumed to succeed.
- Executor.BrowserExecutor.DetachDebugger: child frames are a number chosen when detaching starts; frames that appear while it runs are not seen.
- Executor.BrowserExecutor.Store: sizes count characters of field names as one byte each, since declared names are plain ASCII.
- Program.FlattenActions: an action is its operation, URL, private field, timeout and branches; numeric ranges, locators, slots and identifiers of actions are not part of the rules modelled.
- MutationProtocol.MutationAuthorized: messages are already decoded and job ids are fresh; byte-level framing is in `LineFraming` and `Relay`, and the program's own actions are in `Executor`.
- MutationProtocol.TwoJobsIff: a program match and platform lookup that fail are single refusal steps.
- Relay.JudgeIff: the answer to a query and the error sent to a second agent are not part of the relay's output.
- Relay.NativeRelay.Serve: a write to the extension is all or nothing, and the shutdown of the relay, which closes the current connection, is not modelled.
- Executor.BrowserExecutor.RunActions: what goes against a run includes a first look that is not satisfied yet; how a wait goes on then is stated by `WaitFor`.
- Results.ExecuteJob: progress, notifications and job-state storage are omitted; private values are checked as one arbitrary answer.
- Workspace.WorkspaceStore.Serve: storage always succeeds; badges, markers, tab groups and publishing to the native host are presentation and not part of this model.
- CanonicalJson.PrintThenParse: numbers are integers, because the two languages print other numbers differently; the parser reads canonical text without white space.
- CanonicalJson.HashedTextIff: UTF-8 encoding and SHA-256 are not modelled, so the statement is about the text that is hashed; keys are ordered by character, which agrees in both languages outside surrogate pairs, and integer-like keys, which JavaScript would enumerate first, do not occur in programs.
- RequestCapture.RunLawful: timestamps are JSON values whose numbers are integers, and a URL is given without credentials, query and fragment.
- Scrolling.CollectAxByScrolling: scrolling, settling and the target check between rounds are one step that may fail with any code.
- Locator.FindAx: lower-casing and regular expressions are arbitrary functions, keys are pairs of session and node id, and the forest is assumed acyclic with a rank as witness, since the loop would not end otherwise.
- NativeFraming.ReadCutStream: decoding the payload as JSON is not included.
- Scheduler.ScheduleTable.Serve: the check that the collaboration exists and the snapshot itself are an arbitrary outcome.
- Console, log and download event handlers, which repeat the request capture's pattern with simpler rows.
- The Python validator: its rules are the same, but it treats omitted lists, lengths and URL normalisation differently.
- Chrome APIs, sockets, file permissions, native-host installation, the command line and the side panel.
- The collaboration controller's other tools, workflow recording, provider sessions and file policy.
