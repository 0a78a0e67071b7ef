# Execution Manager: a verified model

The Execution Manager of an adaptive platform moves a machine through states such as Starting-up,
Running, Suspend and Shuttingdown. For each requested state it kills the processes the state does
not allow, starts those it does, tells the components to switch on or off, waits until reports or
confirmations say the machine is there, and then confirms and commits. This project models that
protocol, the two peers that drive it (an adaptive application and the Machine State Manager with
its persisted last state), and the data that feed it, and proves what holds over all their runs.

`dafny verify dfyconfig.toml` checks the whole project.

## How it is built

- `Protocol.dfy` is a step system. One worker thread runs queued requests; remote calls are served
  between any two of its steps. A run is any sequence of enabled events.
- `Invariants.dfy`, `SafeCommit.dfy`, `CommitBacking.dfy`, `Sequencing.dfy`, `Plans.dfy`,
  `WaitRelease.dfy` and `Requester.dfy` hold the theorems about all runs.
- `Manager.dfy` holds the objects the program updates in place, with its loops. Each method is
  proved to have the effect of a step, or to lead from one state of the step system to another by
  a run of it that serves the calls that came in before each of its steps, so the theorems apply to
  the objects.
- `Application.dfy` and `WholeSystem.dfy` model an application and the composition of the manager
  with any number of polling applications.
- `Storage.dfy` and `StateManager.dfy` model the Machine State Manager's request loop over its
  storage, boot after boot; `Mailbox.dfy` its side of a confirmation, alone and composed with the
  manager; `Refusals.dfy` what it gets out of a request the manager refuses.
- `Manifests.dfy` and `ServiceNames.dfy` model the manifest reader, the JSON forms and the parsing
  of binary paths; `ShippedManifests.dfy` reads the manifests the program comes with.
- `Witnesses.dfy` gives concrete runs that show where a stronger reading of a guarantee fails; the
  exact conditions are theorems of the other modules.

The table under Model lists the theorems first, then the loops and the operations built on them,
and last the methods that take a single step. The queues' push and pop, the removal of one
subscriber and the entering of an application's state are tied to their step in the same way and
have no row.

## Assumptions

- Each remote call is one atomic step. The worker is split at its accesses to shared state: flag
  reset, kill snapshot, each kill, start snapshot, each start, each poll round, component state,
  filling of the pending set together with the notices, each test and sample of the wait loop,
  confirm, commit. The program does not lock all of these accesses; interleavings inside a step are
  not modelled. Reset and sampling of the readiness flag are single steps because only the worker
  uses it.
- The kill loop and the start loop work on a snapshot of the active set. Sets are walked in any
  order, which includes the sorted order of the program.
- Which processes are alive in a poll round, when waits time out, which confirmations arrive and
  when are arbitrary. Poll rounds may overlap with starts.
- In the runs of `Protocol` every remote call is arbitrary. In the composed runs of `WholeSystem`
  the calls that come from outside are arbitrary too, except that nobody else reports, fetches or
  confirms under the name of a modelled application, and that an application's report reaches the
  manager in the same step as its change of phase. `ActiveIffUp` and `PollsConverge` rest on both.
- In `Mailbox` a client registers once and has one request at a time; its server can be reached only
  from the registration on. A request's wait begins any time after the request was sent, or the call
  is given up. A request that reaches the manager late is one of the manager's own steps.
- The files of manifests and storage are JSON trees; the text syntax is not modelled.

## Findings

- A confirm that arrives while nothing is pending sets the confirmation flag even before the new
  pending set is filled. A transition to Suspend or Running can then be committed with no process
  in place and no component confirmed (`Witnesses.StrayConfirmCommitsSuspend`).
  `CommitBacking.CommitsBackedIff` says exactly when that can happen, and
  `SafeCommit.CommitIsSafe` what every commit guarantees all the same.
- Before any registration the gate admits the pid -1, and only it
  (`Requester.UnregisteredRequestQueuedIffMinusOne`).
- A wait for a confirmation that times out leaves a promise whose future is taken, so all later
  waits throw, and only then does a wait throw (`Mailbox.WaitThrowsIffOneTimedOut`). Nothing catches
  that exception: the Machine State Manager's request loop ends, and a later Shuttingdown is never
  requested. `StateManager.FinishesIffNoneMissed` says exactly when the loop runs to its end.
- A request the manager refuses, such as a repeated one, is never confirmed. It can still obtain a
  result: made while the worker is at rest, exactly when a confirm is outstanding
  (`Refusals.RefusedAnswerIffOutstanding`). When none is, its wait can only time out and the next
  one throws (`Refusals.RefusedWaitLeavesFutureTaken`). `StateManager.RepeatedRequest` shows both
  fates of the request loop.
- The confirm of Starting-up can answer the first request of the Machine State Manager
  (`Witnesses.StartupConfirmAnswersFirstRequest`). A result can be older than its request exactly
  when a confirm is outstanding as the request is made (`Mailbox.StaleAnswerIffOutstanding`).
- Saving the last state fails silently when the storage file holds a tree that is neither null nor
  an object (`Storage.SavedValueSurvivesReload`).
- Parsing a service name fails for exactly one family of paths (`ServiceNames.ParsesInstalledPaths`).

## Model

| member | source | states |
|---|---|---|
| `SafeCommit.CommitIsSafe` | applications/ExecutionManager/src/execution_manager.cpp:270-289 | Every commit of every run: after the transition filled its pending set the wait compared the sets and found active = allowed, or, for Suspend and Running only, nothing was pending or the flag was up before the filling; a committed Starting-up saw a live, allowed, previously inactive msm process in a poll round |
| `CommitBacking.CommitsBackedIff` | applications/ExecutionManager/src/execution_manager.cpp:258-289 | At a filling in any run: every commit that can follow is backed by a state after it (active = allowed; for Suspend and Running also nothing pending) if and only if the state is another one, or no confirm served since the reset left nothing pending, or nobody is registered, or the sets are equal already |
| `CommitBacking.CommitsBackedIffSafeToFill` | applications/ExecutionManager/src/execution_manager.cpp:258-289 | The same at any state of the invariant, read off the flag, the registered and the active set |
| `SafeCommit.CommitBackedUnlessEarly` | applications/ExecutionManager/src/execution_manager.cpp:262-289 | A commit whose pending set was filled with the flag down is backed at an instant after the filling; for other states than Suspend and Running every commit is, by a comparison made in the wait |
| `SafeCommit.EarlyFlagIffEarlyConfirm` | applications/ExecutionManager/src/execution_manager.cpp:324-344 | Up to the filling the flag is up if and only if a confirm served since the reset left nothing pending |
| `SafeCommit.FillPrecedes` | applications/ExecutionManager/src/execution_manager.cpp:181-185 | In the wait, the confirm and the commit the filling of this transition lies between its flag reset and now |
| `SafeCommit.ReadyIsWitnessed` | applications/ExecutionManager/src/execution_manager.cpp:158-168 | Readiness, whenever true, comes from a comparison made in this transition's wait; the confirmation flag in the wait from an instant of the wait with nothing pending, or from before the filling |
| `SafeCommit.FlagOrigins` | applications/ExecutionManager/src/execution_manager.cpp:324-344 | The steps that can make either flag true, or let the wait end, and what holds in the state they make |
| `SafeCommit.PlanIsWitnessed` | applications/ExecutionManager/src/execution_manager.cpp:59-74 | While starting, the plan is allowed minus active at a snapshot taken since the reset |
| `SafeCommit.StartupIsWitnessed` | applications/ExecutionManager/src/execution_manager.cpp:76-101 | Past the start-up check there is a poll round of this transition that saw the msm process |
| `Sequencing.RequestsAreServedInOrder` | common/other/src/common.cpp:43-67 | Requests = finished + in flight + queued, in order: nothing lost, repeated or overtaken between gate and worker |
| `Sequencing.CommitsRefineRequests` | applications/ExecutionManager/src/execution_manager_server.cpp:29-39 | The committed states are a subsequence of Starting-up followed by the queued requests |
| `Sequencing.CommitsAreTransitions` | applications/ExecutionManager/src/execution_manager.cpp:235-248 | Every committed state is a manifest state, no two neighbours are equal, the first is not empty, and the current state is the last of them |
| `Sequencing.ConfirmsMatchCommits` | applications/ExecutionManager/src/execution_manager.cpp:288-289 | Confirms sent are commits, plus one exactly between the confirm and the assignment |
| `Sequencing.RefusedRequestsLeaveTheMachine` | applications/ExecutionManager/src/execution_manager.cpp:235-256 | From taking a request to an idle worker without commit: current and component state are unchanged and the worker sent no confirm and no notice; a foreign or equal request makes it touch nothing but the flags, and any other is a Starting-up whose six poll rounds saw no live msm process of the plan made in this transition |
| `Sequencing.RoundsAreCounted` | applications/ExecutionManager/src/execution_manager.cpp:76-101 | The poll rounds since the plan are as many as counted, and the verdict is whether in one of them a process of the plan was alive whose name contains msm |
| `Refusals.RefusedAnswerIffOutstanding` | applications/ExecutionManager/src/execution_manager.cpp:235-246 | A request foreign to the manifest or equal to the current state, made while the worker is at rest and followed by none but such requests, can obtain a result if and only if a confirm lies in the promise or is on its way |
| `Refusals.RefusedWaitLeavesFutureTaken` | common/machine_state_client/src/machine_state_client.cpp:127-143 | With none outstanding it obtains nothing, and once its wait has begun every later wait will throw, whatever confirms, reports and refused requests come |
| `Invariants.AgreementAtRest` | applications/ExecutionManager/src/execution_manager.cpp:170-179 | With no transition in flight and a current state, pollers are served kOff exactly under Suspend and kOn exactly otherwise |
| `Invariants.InvStep` | applications/ExecutionManager/src/execution_manager.cpp:229-294 | Every step of worker and remote side keeps the invariant: bookkeeping, allowed map, pending state, component state, plans, readiness |
| `Invariants.AllowedMapIsStable` | applications/ExecutionManager/src/execution_manager.cpp:163 | Despite the inserting lookup the map means the restriction of the manifests to machine states in every reachable state, with no foreign key |
| `Invariants.ComponentBookkeeping` | applications/ExecutionManager/src/execution_manager.cpp:181-185 | Pending confirmations and subscribers are registered in every reachable state; right after a component change pending = registered |
| `Invariants.RegisteredGrows` | applications/ExecutionManager/src/execution_manager.cpp:299 | The registered set only grows over a run |
| `Invariants.RefusedIffNeverRegistered` | applications/ExecutionManager/src/execution_manager.cpp:307-322 | In every run a poller gets an error and an empty state exactly as long as it has never registered |
| `Invariants.LeavesPendingIffOwnConfirm` | applications/ExecutionManager/src/execution_manager.cpp:332-343 | Whoever left the pending set over a stretch of a run sent its own confirm there, with neither general-error nor invalid; and without a filling in between whoever did so has left it |
| `Invariants.ConfirmedIffLastDecision` | applications/ExecutionManager/src/execution_manager.cpp:324-344 | In every run the confirmation flag is up if and only if the last event to decide it (reset, sample, a confirm that found nobody pending or was accepted) was no reset and left nobody pending; so a confirm that leaves somebody pending takes it down |
| `Invariants.ServedStateIsLastSwitch` | applications/ExecutionManager/src/execution_manager.cpp:170-179 | In every state, in a transition too, pollers are served nothing before the first component change, then kOff if its pending state was Suspend and kOn otherwise |
| `Invariants.WorkerNeverStuck` | applications/ExecutionManager/src/execution_manager.cpp:229-294 | Remote calls are served in every reachable state, and the worker can move unless it is idle with nothing queued |
| `Invariants.FilteredIsRestriction` | applications/ExecutionManager/src/execution_manager.cpp:41-57 | A process is allowed for a state exactly when the state is a machine state and the manifests list the process for it |
| `Plans.TransitionFollowsPlan` | applications/ExecutionManager/src/execution_manager.cpp:119-139 | At the component change a transition has killed exactly active minus allowed of its kill snapshot and started exactly allowed minus active of its start snapshot, each once, and none both; its calls since the kill snapshot are these kills, then these starts |
| `Plans.EveryStepsCalls` | applications/ExecutionManager/src/execution_manager.cpp:119-154 | Starting from none, a kill step calls for that kill, a start step for that start, the confirm step for one success, and no other step but the filling calls for anything |
| `Plans.KillsFollowPlan` | applications/ExecutionManager/src/execution_manager.cpp:119-139 | At every point of the killing, killed and still to kill make up the snapshot |
| `Plans.StartsFollowPlan` | applications/ExecutionManager/src/execution_manager.cpp:59-109 | At every point of the starting, started and still to start make up the snapshot |
| `Plans.OnlyDeclaredStartOnlyUndeclaredDie` | applications/ExecutionManager/src/execution_manager.cpp:141-150 | In every run only processes declared for the pending state are started for it and only others are killed |
| `Plans.SubscribersAreSurvivors` | applications/ExecutionManager/src/execution_manager.cpp:296-305 | The subscriber list is, in order and multiplicity, the event-mode registrations not followed by a kill of the component |
| `Plans.ChangeNotifiesSurvivors` | applications/ExecutionManager/src/execution_manager.cpp:187-190 | Each component change sends one notice per surviving subscription, in order, and nothing else: kOff when the pending state is Suspend, kOn otherwise |
| `Plans.KilledNotNotifiedUnlessReregistered` | applications/ExecutionManager/src/execution_manager.cpp:132-136 | A process killed before is notified only if it registered in event mode in between |
| `Plans.EraseEachIsOneFilter` | applications/ExecutionManager/src/execution_manager.cpp:123-138 | The nested kill-and-erase passes are one filter of the list |
| `WaitRelease.ReportsShrinkOutstanding` | applications/ExecutionManager/src/execution_manager.cpp:202-218 | In-plan reports never enlarge the difference of active and allowed set; an owed one removes exactly its process |
| `WaitRelease.ConfirmAvailableIffNothingOutstanding` | applications/ExecutionManager/src/execution_manager.cpp:158-168 | isConfirmAvailable answers true exactly when that difference has size zero |
| `WaitRelease.OwedReportsReleaseTheWait` | applications/ExecutionManager/src/execution_manager.cpp:270-286 | Any order and interleaving: once all owed reports came and none went against the plan, five more worker steps include the release |
| `WaitRelease.NonePendingReleasesTheWait` | applications/ExecutionManager/src/execution_manager.cpp:270-279 | Under Suspend and Running an empty pending set releases the wait within five worker steps, whatever is reported |
| `Requester.FirstRegistrationWins` | applications/ExecutionManager/src/msm_handler.cpp:11-36 | The registered pid is, forever, the first named registration's real pid |
| `Requester.QueuedIffFirstRegistered` | applications/ExecutionManager/src/execution_manager_server.cpp:92-108 | A request is queued if and only if it carries that pid (-1 before any registration) |
| `Requester.SingleRequester` | applications/ExecutionManager/src/msm_handler.cpp:38-41 | With positive pids every queued request follows a successful registration of its own pid, and all successful registrations agree |
| `Requester.UnregisteredRequestQueuedIffMinusOne` | applications/ExecutionManager/src/msm_handler.cpp:7-9 | Before any registration a request passes the gate exactly when its pid is -1 |
| `Requester.ActiveIffLastReportedRunning` | applications/ExecutionManager/src/execution_manager.cpp:193-219 | The active set is exactly the processes whose last running-or-shutting-down report was running |
| `WholeSystem.CoreRuns` | applications/ExecutionManager/src/execution_manager.cpp:193-344 | The core's events of a composed run form a run of the core |
| `WholeSystem.ActiveIffUp` | applications/AdaptiveApplication1/src/state.cpp:35-75 | Composed with applications: active exactly from run to termination, through suspends, resumes and restarts |
| `WholeSystem.PollIsOneAction` | applications/AdaptiveApplication1/src/adaptive_app.cpp:68-79 | A fetched reply, its reaction and its confirm, whatever happens in between, are the application's one action for it, and the manager gets the confirm the application records |
| `WholeSystem.PollFetchesTheReply` | applications/AdaptiveApplication1/src/adaptive_app.cpp:68-79 | A poll fetches the component state served, or an error if the component is not registered |
| `WholeSystem.PollsConverge` | applications/AdaptiveApplication1/src/adaptive_app.cpp:68-106 | After a component change: once every component registered at the filling has completed a poll whose fetch follows the change and whose confirm follows the filling, in any interleaving with stale polls, nothing is pending and all their component states equal the manager's |
| `WholeSystem.PollsReleaseTheWait` | applications/ExecutionManager/src/execution_manager.cpp:258-279 | Hence polling alone ends a transition to Suspend or Running, from its filling or from within its wait |
| `WholeSystem.ProgressStep` | applications/AdaptiveApplication1/src/adaptive_app.cpp:68-79 | No step of any party spoils a poll begun under the current component state, and its confirm converges; only the filling asks for another |
| `Witnesses.StrayConfirmCommitsSuspend` | applications/ExecutionManager/src/execution_manager.cpp:327-331 | A run in which a stray confirm right after the reset commits Suspend with its process never active and its component still pending |
| `Witnesses.MinusOnePassesTheGate` | applications/ExecutionManager/src/execution_manager_server.cpp:98-105 | A run in which an unregistered request with pid -1 is queued |
| `Witnesses.StartupConfirmAnswersFirstRequest` | common/machine_state_client/src/machine_state_client.cpp:127-143 | A run in which the client registers, the confirm of Starting-up is delivered, and it answers the client's first request before that is served |
| `Application.LifeAlternates` | applications/AdaptiveApplication1/src/adaptive_app.cpp:38-61 | After any inputs: Run iff kOn, Suspend iff kOff; suspends and resumes alternate from a suspend; the reports are one initializing, one running for the start, and one running per resume |
| `Application.ActionConfirmsOnce` | applications/AdaptiveApplication1/src/adaptive_app.cpp:68-106 | Each action sends one confirm; success iff the phase changed, unchanged iff valid and equal, invalid iff nonsense, a failed fetch passed on |
| `Application.ConfirmsCountActions` | applications/AdaptiveApplication1/src/adaptive_app.cpp:108-125 | Confirms sent equal actions that had something to confirm |
| `StateManager.FinishesIffNoneMissed` | applications/MachineStateManager/src/msm_state_machine.cpp:83-105 | The loop finishes exactly when an available Shuttingdown is among the socket inputs and no wait throws; when all calls are answered, exactly when every request before the last is confirmed in time |
| `StateManager.MachineStateManager.AheadReads` | applications/MachineStateManager/src/machine_state_manager.cpp:123-141 | What the loop will consider: the stored text before the socket inputs on the first run, unless nothing or Shuttingdown is stored; the inputs later; nothing when the entry is malformed |
| `StateManager.EndIsDetermined` | applications/MachineStateManager/src/msm_state_machine.cpp:83-105 | Candidates and replies determine how many requests are made and how the loop ends |
| `StateManager.RequestsEndIffShutdown` | applications/MachineStateManager/src/msm_state_machine.cpp:104 | What the loop is to ask for ends in Shuttingdown exactly when that is available and among the socket inputs |
| `StateManager.RepeatedRequest` | applications/MachineStateManager/src/msm_state_machine.cpp:86-104 | Running asked for twice, then Suspend and Shuttingdown, a confirmation coming for the first: the loop throws at the third exactly when none comes for the second, and finishes exactly when one comes for the second and for the third |
| `StateManager.ThroughShutdownMeaning` | applications/MachineStateManager/src/msm_state_machine.cpp:86-104 | The cut is a prefix whose only Shuttingdown is its last element |
| `StateManager.OnlyAvailableMeaning` | applications/MachineStateManager/src/machine_state_manager.cpp:101-108 | The filter is a subsequence with exactly the available elements, each as often as before |
| `StateManager.EachBootResumes` | applications/MachineStateManager/src/machine_state_manager.cpp:123-149 | Any number of boots on one storage file, whatever ended them: each first sends the state asked for last before it unless that was Shuttingdown, then socket inputs; while nothing was asked for, the file decides: no entry or Shuttingdown gives socket inputs only, another text comes first, and an entry of another form ends the boot |
| `StateManager.RestartResumes` | applications/MachineStateManager/src/machine_state_manager.cpp:123-149 | The step of it: what the next boot finds and sends after a boot that sent anything |
| `Storage.SavedValueSurvivesReload` | per/src/keyvaluestorage.cpp:29-67 | Set, sync and reload give the value back, stored as the text under value, and touch no other key, exactly when the tree was null or an object |
| `Storage.GetReads` | per/src/keyvaluestorage.cpp:10-44 | A text is read exactly when the tree holds it under value, not-set exactly for an absent key; any other entry breaks |
| `Mailbox.ObtainedAreDelivered` | common/machine_state_client/src/machine_state_client.cpp:127-143 | Obtained results are a subsequence of the deliveries: each its own, in order |
| `Mailbox.ResultsNeverOutnumberConfirms` | common/machine_state_client/src/machine_state_client.cpp:186-195 | Obtained <= kept <= carried <= confirms sent, in every prefix of every composed run, requests given up included, and all are successes |
| `Mailbox.SuccessesBoundedByCommits` | applications/ExecutionManager/src/execution_manager.cpp:288 | Hence successful requests are bounded by commits |
| `Mailbox.TimeOutIsFinal` | common/machine_state_client/src/machine_state_client.cpp:130-137 | After one timed-out wait nothing is ever obtained again |
| `Mailbox.WaitThrowsIffOneTimedOut` | common/machine_state_client/src/machine_state_client.cpp:130-142 | A wait throws if and only if an earlier one timed out |
| `Mailbox.StaleAnswerIffOutstanding` | common/machine_state_client/src/machine_state_client.cpp:127-143 | A request can be answered without any confirm sent after it if and only if, when it is made, a confirm lies in the promise or is still on its way |
| `Mailbox.KnownBounds` | common/machine_state_client/src/machine_state_client.cpp:186-195 | Kept confirms and those on their way never grow while the manager sends none |
| `Manifests.RunsFollowManifests` | applications/ExecutionManager/src/execution_manager.cpp:59-150 | Over a whole run processes are started only for states their manifests declare, and never killed for those |
| `Manifests.ApplicationRoundTrip` | common/other/src/manifests.cpp:29-113 | Decoding an encoded application manifest returns it |
| `Manifests.MachineRoundTrip` | common/other/src/manifests.cpp:115-165 | Decoding an encoded machine manifest returns it |
| `Manifests.OptionRoundTrip` | common/other/include/manifests.hpp:118-122 | Startup options round-trip through the enumeration's names |
| `Manifests.KindNames` | common/other/include/manifests.hpp:118-122 | The names of the three kinds, and that anything else is read as the simple form |
| `ShippedManifests.AdaptiveApplicationIsRead` | applications/AdaptiveApplication1/manifest.json:1-36 | The shipped application manifest is read as one process with its option and three machine states |
| `ShippedManifests.StateManagerIsRead` | applications/MachineStateManager/manifest.json:1-33 | The shipped manifest of the Machine State Manager declares MachineStateManager_msm for exactly four states |
| `ShippedManifests.MachineIsRead` | applications/ExecutionManager/machine_manifest.json:1-27 | The shipped machine manifest is read as its five machine states in order |
| `ServiceNames.ParsesInstalledPaths` | common/other/src/common.cpp:28-41 | prefix + App/processes/Proc parses to App_Proc if and only if it is not the family with no prefix, empty App and non-empty Proc |
| `ServiceNames.ParsingNeverThrows` | common/other/src/common.cpp:28-41 | Under wrapping arithmetic every path parses, and the name ends in the text after the last slash |
| `Manager.ExecutionManager.SetMachineState` | applications/ExecutionManager/src/execution_manager.cpp:229-294 | The whole method, with calls served before any of its steps, is a run of the step system serving exactly these; its outcomes and what each leaves unchanged |
| `Manager.ExecutionManager.WaitForConfirmations` | applications/ExecutionManager/src/execution_manager.cpp:270-286 | The wait loop, with calls between its samples, leads by a run of the step system to its end, or to a state its further turns do not change |
| `Manager.ExecutionManager.KillProcessesForState` | applications/ExecutionManager/src/execution_manager.cpp:119-139 | The loop kills active minus allowed of its start, each once, and is a run of the kill steps with the calls served in between |
| `Manager.ExecutionManager.StartApplicationsForState` | applications/ExecutionManager/src/execution_manager.cpp:59-111 | The loops start allowed minus active of their start, each once; under Starting-up the verdict is whether one of six rounds sees a live msm process, and the first that does ends the poll; a run of the start and poll steps with the calls served in between |
| `Manager.ExecutionManager.ChangeComponentsState` | applications/ExecutionManager/src/execution_manager.cpp:170-191 | New component state, then pending filled from registered and one notice per subscriber in order, with calls before either |
| `Manager.ExecutionManager.IsConfirmAvailable` | applications/ExecutionManager/src/execution_manager.cpp:158-168 | Compares active and allowed set, inserting a missing entry |
| `Manager.ExecutionManager.FilterStates` | applications/ExecutionManager/src/execution_manager.cpp:41-57 | The erasing loop leaves exactly the entries of machine states |
| `Manager.ExecutionManagerServer.RunOne` | applications/ExecutionManager/src/execution_manager_server.cpp:33-39 | One turn of the worker thread is a run from the idle state serving exactly the calls on the manager |
| `Manager.KillRun` | applications/ExecutionManager/src/execution_manager.cpp:119-139 | A kill loop's effect is reached by single kill steps in any order |
| `Manager.StartRun` | applications/ExecutionManager/src/execution_manager.cpp:59-111 | A start phase's effect and verdict are reached by single start and poll steps |
| `StateManager.MachineStateManager.EnterRun` | applications/MachineStateManager/src/msm_state_machine.cpp:83-105 | Given what comes of each request: sends exactly the available candidates, cut through the first Shuttingdown or the first wait that throws; which of these ends it; and what storage holds then |
| `StateManager.MachineStateManager.GetNewState` | applications/MachineStateManager/src/machine_state_manager.cpp:97-111 | Draws the next available candidate, or waits having used all up |
| `StateManager.Boots` | applications/MachineStateManager/src/machine_state_manager.cpp:97-149 | Any number of boots on one storage file, each with its inputs and replies: what every one asks for, how it ends, and what the file holds after the last |
| `Mailbox.MachineStateClient.WaitForConfirm` | common/machine_state_client/src/machine_state_client.cpp:127-143 | The wait is a run of the promise's steps that delivers the arriving confirmations; which of them it returns, when it times out, when it throws |
| `Application.AdaptiveApp.Live` | applications/AdaptiveApplication1/src/aa_main.cpp:43-52 | init, run, the action loop and terminate have the effect of the specified life, whose last report is shutting down |
| `Manifests.GetStatesSupportedByApplication` | common/other/src/manifest_reader.cpp:31-62 | The four nested loops invert the manifests exactly: a process is listed for a state iff a manifest declares it; no empty entry |
| `Manifests.GetMachineStates` | common/other/src/manifest_reader.cpp:64-89 | The modes of the first MachineState group, none without one |
| `Manager.ExecutionManager.constructor` | applications/ExecutionManager/src/execution_manager.cpp:24-39 | A new manager is the initial state of the step system, map filtered |
| `Manager.ExecutionManager.ReportApplicationState` | applications/ExecutionManager/src/execution_manager.cpp:193-219 | In place, the report step |
| `Manager.ExecutionManager.RegisterComponent` | applications/ExecutionManager/src/execution_manager.cpp:296-305 | In place, the registration step |
| `Manager.ExecutionManager.GetComponentState` | applications/ExecutionManager/src/execution_manager.cpp:307-322 | The reply the step system gives pollers |
| `Manager.ExecutionManager.ConfirmComponentState` | applications/ExecutionManager/src/execution_manager.cpp:324-344 | In place, the confirm step |
| `Manager.MsmHandler.RegisterMsm` | applications/ExecutionManager/src/msm_handler.cpp:11-36 | Accepts a named registration while free or from the same pid |
| `Manager.ExecutionManagerServer.constructor` | applications/ExecutionManager/src/execution_manager_server.cpp:19-40 | A new server is the initial state, Starting-up queued |
| `Manager.ExecutionManagerServer.Register` | applications/ExecutionManager/src/execution_manager_server.cpp:64-80 | In place, the registration step, with its result |
| `Manager.ExecutionManagerServer.SetMachineState` | applications/ExecutionManager/src/execution_manager_server.cpp:92-108 | In place, the gated request step |
| `Application.AdaptiveApp.SetState` | applications/AdaptiveApplication1/src/adaptive_app.cpp:81-106 | In place, the reaction to a component state |
| `Application.AdaptiveApp.PollComponentState` | applications/AdaptiveApplication1/src/adaptive_app.cpp:68-79 | In place, one poll |
| `Application.AdaptiveApp.StateUpdateHandler` | applications/AdaptiveApplication1/src/adaptive_app.cpp:63-66 | In place, one event |
| `Application.AdaptiveApp.PerformAction` | applications/AdaptiveApplication1/src/adaptive_app.cpp:108-125 | In place, one action of either mode |
| `StateManager.MachineStateManager.GetNewStateForStartRun` | applications/MachineStateManager/src/machine_state_manager.cpp:123-141 | Persisted state first unless Shuttingdown, then socket inputs |
| `StateManager.MachineStateManager.SaveReceivedState` | applications/MachineStateManager/src/machine_state_manager.cpp:143-149 | Sets and syncs, or silently changes nothing when the tree cannot hold the key |
| `Storage.KeyValueStorage.SetValue` | per/src/keyvaluestorage.cpp:29-33 | In place, with the failing case |
| `Storage.KeyValueStorage.GetValue` | per/src/keyvaluestorage.cpp:35-44 | Not-set exactly when the key is absent |
| `StateManager.MachineStateManager.SetMachineState` | applications/MachineStateManager/src/machine_state_manager.cpp:81-89 | Sends the request and, answered, waits: what that leaves of promise and future, and when it throws |
| `Mailbox.MachineStateClient.ConfirmStateTransition` | common/machine_state_client/src/machine_state_client.cpp:186-195 | Keeps a confirmation only when the slot is free |

## Left out

- Manager.ExecutionManagerServer.RunOne: serves the calls on the manager at any step of the turn, but registrations of the Machine State Manager and requests only between turns; they touch nothing but the queue and the pid, and the runs of `Protocol` have them between any two steps.
- Manager.ExecutionManager.KillProcessesForState: walks a snapshot, not the live set, so an application that reports its shutdown during the loop is still killed in the model.
- Mailbox.MachineStateClient.WaitForConfirm: takes the confirmations that arrive during the wait, and those that arrive while it ends, as parameters; it is proved to be one of the runs of `Mailbox.BoxNext`, which has them at any point.
- Process control (fork, exec, popen, systemctl): the calls are recorded, their effect reaches the manager only through reports.
- A process that dies without reporting its shutdown: in `WholeSystem` an application leaves by its own termination.
- Event-mode transport between manager and applications: the notices sent and the handling of a received state are modelled, the sockets are not.
- Remote procedure plumbing, sockets, signals, logging and the mean calculator: no property of interest.
- Real time: sleeps, timeouts and poll periods are arbitrary choices; only the bound of six start-up rounds is kept.
- Which replies the manager gives the request loop: `StateManager` takes them as a parameter, for any replies; the composition of one client with the manager is in `Mailbox`.
- The Machine State Manager's own reports and registration call on entering and leaving its phases: each is one fixed call.
- Data races at the level of the C++ memory model and the shutdown of threads.
- Command line options built from startup options, and the directory listing of the manifest reader.
- JSON decoders on trees no encoder makes: modelled (they yield no value), with no theorem beyond the round trips.
