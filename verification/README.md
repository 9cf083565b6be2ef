# An agent control plane, modelled and proved

This project models the durable parts of an agent control plane: shared records replaced by
compare-and-set under fencing tokens or revision numbers, and the code that many callers run on
them at once. Each component is a specification (functions and states), the imperative code that
implements it (methods and classes proved against the specification), and theorems about the
specification over all inputs, runs or interleavings.

* **Run protocol** (`RunStateMachine`, `RunProtocol`, `RunCalls`, `RequestRaces`, `SettlementRaces`, `OneApproval`,
  `RunServices`, `EventLog`). The state machine of one run, its approvals and its ordered event log. Every
  repository call is one step; `RunProtocol` proves what all interleavings of steps keep, and the service
  methods in `RunServices` run with arbitrary other callers between any two of their steps (`Await`). Each promises what holds
  however it was disturbed, and, when `alone`, its exact effect on the whole state.
* **Evaluations and releases** (`EvalRuns`, `EvalDatasets`, `ReleaseGate`, `Release`). The controller that makes one
  durable move per reconcile, its termination measure, and the gate that reads its verdicts.
* **Deployments** (`Deployments`, `DeploymentPlane`, `Routing`, `TaskQueue`). Promotion, policy
  replacement, rollback and reconcile over one environment revision, the routes they produce, the
  weighted choice between routes, and the queue whose tasks drive the controllers.
* **AG-UI projection** (`JsonPatch`, `Activity`, `StreamFrames`, `Flattening`, `EventStream`,
  `StreamAgreement`). One log shown live as JSON patches, rebuilt from history as a fold, and replayed
  from a cursor in the middle of an event; when the three agree is proved exactly.
* **Publication and bundles** (`Publication`, `PackagePaths`, `PackageHash`, `AgentBundle`,
  `BundleRoundTrip`, `BundleExamples`). The recursive publication of a local package graph, and packing, hashing and
  checked unpacking of agent bundles.
* **Keyed stores** (`RefreshTokens`, `AuthSessions`, `ThreadBindings`, `ThreadSelection`). Refresh-token
  families under rotation and revocation, the two-index thread binding store, and the choice of the runs
  a thread shows.

`Outcomes`, `TextOrder`, `Splitting`, `Whitespace` and `Decimals` are shared vocabulary.

Other callers are the empty-bodied methods named `Interfere` and `OtherWriters`: their contracts allow
any legal steps of anybody else, so what a method proves after calling one holds for every scheduling.

Where a promise fails, the project says exactly when it holds and gives a run that breaks it:

* interleaved requests for approval, with nobody else running, keep "one approval pending exactly while the run
  waits" if and only if the run was not written between any request's read and its write
  (`RequestRaces.PromiseKeptIffNoneOvertaken`, `RequestRaces.TwoPendingIffEachReadsFirst`), and from every
  quiet running run two requests can leave two pending (`RequestRaces.TwoRequestsCanLeaveTwoPending`);
* a request and the settlement of its approval, interleaved, leave the run waiting for an approval already settled if
  and only if the approval was withdrawn or the settling call read the run before the request's write was won
  (`OneApproval.SettledEarlyStrandsIff`), and from every quiet running run a grant can do that
  (`OneApproval.DecisionCanStrandTheRun`); repeating the decision does not move the run of an approval that is not
  inline. `SettlementRaces.StrandedIff` is the condition for any number of requests and settlements,
  `SettlementRaces.WaitHoldsIffNotRead` the one with any other callers;
* withdrawing the approval a live run waits for leaves it waiting with none pending, and no other whole call
  breaks the promise (`RunCalls.CallKeepsWaitIff`, `RunCalls.WithdrawalStrandsTheRun`);
* a dataset version can be stored with a case id used twice only if its draft is edited between the two reads
  of its creation (`EvalDatasets.StoredIdsDistinctIff`, `EvalDatasets.MendedDraftStoresDuplicates`), and an
  Eval Run over it never ends (`EvalRuns.DuplicateIdNeverEnds`);
* a cancellation that read the run queued closes one that a worker has provisioned if and only if its first write was
  lost to that (`RunServices.ControlPlane.Cancel`, with the run `RunProtocol.CancelCanCloseAnOwnedRun`);
* a worker that crashes while it holds a task strands the record in this queue
  (`TaskQueue.LiveRecordsHaveTasksIff`);
* a rollback can leave a route outside the environment's policy (`Deployments.RollbackCanLeaveThePolicy`,
  with `Deployments.StepKeepsComplianceIff`);
* a stored conversation that ends in a blank prompt, and holds a real one, loses a real prompt
  (`ThreadSelection.ShowsConversationIff`, `ThreadSelection.BlankEndDropsAPrompt`);
* a binding added to the repository with previous sessions, which the service never does, leaves them out of
  the session index (`ThreadBindings.AddKeepsIndexIff`);
* a bundle is not accepted back when a packed path holds a backslash, when its manifest is not named
  `agent.yaml`, or when only the provenance no longer fits (`BundleRoundTrip.PackedIsAcceptedIff`,
  `BundleExamples.BackslashIsRefused`, `BundleExamples.OtherManifestIsRefused`);
* a second queued event, or one that is not the first thing shown, separates the live activity from the
  rebuilt one (`Activity.LiveEqualsHistoryIff`); files or messages after a closing event separate the live
  stream from its replay (`StreamAgreement.LiveEqualsReplayIff`).

Verify with `dafny verify dfyconfig.toml`.

## Model

| member | source | states |
|---|---|---|
| `EventLog.PutKeepsOrder` | src/harness/adapters/memory.py:254-270 | One append keeps every log numbered 1..n and the id index exactly the stored events; only a stored event lengthens a log, by one, at its end |
| `EventLog.AnyWritersKeepOrder` | src/harness/adapters/memory.py:254-275 | Whatever any number of writers append in any order, logs stay 1..n and only grow |
| `EventLog.ListAfterIsSuffix` | src/harness/adapters/memory.py:272-275 | `list_after(k)` is exactly the suffix after the k-th event, for every integer k |
| `EventLog.IdsAreUnique` | src/harness/adapters/memory.py:254-270 | An event id names exactly one position of one log |
| `EventLog.InMemoryEventRepository.Append` | src/harness/adapters/memory.py:254-270 | The repository call does what the append function says, with its three refusals |
| `EventLog.InMemoryEventRepository.List` | src/harness/adapters/memory.py:272-275 | The filtered list equals the specified list; the store is unchanged |
| `EventLog.EventService.Attempt` | src/harness/application/events.py:70-80 | One turn of the retry loop between interfering writers: either the event is stored last, or some other writer stored one meanwhile |
| `EventLog.EventService.Append` | src/harness/application/events.py:41-80 | The call stores its event exactly once, at the end of the log it finds, and makes at most one attempt more than there were successes of other writers |
| `RunStateMachine.TerminalIsLast` | src/harness/core/state_machine.py:6-47 | In every path of the transition table a terminal status is the last |
| `RunStateMachine.StoppingStays` | src/harness/core/state_machine.py:6-47 | A path that reached cancelling or a terminal status stays there or ends |
| `RunStateMachine.CancellingEnds` | src/harness/core/state_machine.py:6-47 | Whatever follows cancelling on a path is terminal |
| `RunProtocol.EveryInterleavingKeepsInv` | src/harness/adapters/memory.py:137-149 | Every interleaving of the repository calls of any number of callers keeps the record, reporting and approval invariants |
| `RunProtocol.TokenCountsWrites` | src/harness/application/runs.py:319-381 | From creation on, under every interleaving: the history is a path of the table, the fencing token is the number of winning writes, and stored `run.*` events plus winners yet to report equal the token plus one for `run.queued` |
| `RunProtocol.ApprovalsSettleOnce` | src/harness/application/approvals.py:192-229 | Under every interleaving an approval has at most one outcome event, only once settled, and every outcome event names the stored outcome |
| `RunProtocol.StoppedAndSettledForever` | src/harness/application/runs.py:319-381 | Along every continuation a run being stopped never runs again, an ended run is never written again, a settled approval never changes, the log only grows |
| `RunProtocol.OthersKeepRely` | src/harness/adapters/memory.py:211-222 | However long other callers run, they cannot take back, repeat or report on behalf of one caller what it wrote |
| `RunProtocol.LongerTraceIsOnward` | src/harness/adapters/memory.py:137-149 | A later state of the same run is onward from an earlier one |
| `RunServices.ControlPlane.CompareAndSet` | src/harness/adapters/memory.py:137-149 | The write wins exactly when status and token are the expected ones, and then raises the token by one |
| `RunServices.ControlPlane.SettleApproval` | src/harness/adapters/memory.py:211-222 | The approval write wins exactly when the approval is still pending |
| `RunServices.ControlPlane.WriteNow` | src/harness/application/runs.py:328-335 | A write computed from an earlier read wins exactly when the record is still the one read; otherwise the token has moved on |
| `RunServices.ControlPlane.Move` | src/harness/application/approvals.py:246-262 | An illegal move is refused, a lost one conflicts, a won one is reported once; undisturbed it is the move of the table |
| `RunServices.ControlPlane.Reclaim` | src/harness/worker/orchestrator.py:702-718 | Taking over a run raises the token, keeps the status and reports the recovery |
| `RunServices.ControlPlane.Cancel` | src/harness/application/runs.py:319-381 | When the call returns normally, whatever else ran: a run it read queued or waiting has ended and is what it returns, one it read provisioning or running it left for its worker to close, and in every case the run is being stopped or over. It raises only when the run moved on without stopping between its read and its write. Undisturbed: a queued or waiting run is cancelled two tokens on with both events appended, a provisioning or running one is cancelling one token on, a cancelling one is closed, an ended one stays as it is. However disturbed, it takes exactly the steps of the cancellation it reports, and a run it read queued has been provisioned by the end exactly when its first write was lost to that |
| `RunCalls.CancelIsDue` | src/harness/application/runs.py:319-381 | A whole cancellation, said status by status: which runs it closes, which it leaves cancelling, the token and the events it appends |
| `RunStateMachine.OnlyTheFirstProvisions` | src/harness/core/state_machine.py:6-47 | On every path of the table a run is queued only until its first write and is provisioned by its first write or never |
| `RunStateMachine.UnprovisionedIffCancelledFirst` | src/harness/core/state_machine.py:6-47 | A run that is cancelled was never provisioned exactly when the cancellation was its first write |
| `RunProtocol.CancelledRunWasOwnedIff` | src/harness/application/runs.py:319-381 | Under every interleaving a run that is being or has been cancelled, by whichever caller, was provisioned exactly when another write came before the cancellation |
| `RunProtocol.CancelCanCloseAnOwnedRun` | src/harness/application/runs.py:350-381 | A run whose closing caller takes exactly the steps of a cancellation that read the run queued, lost its first write and closed the run, with a worker having provisioned it |
| `RunServices.ControlPlane.AskToStop` | src/harness/application/runs.py:328-353 | The first write of a cancellation, lost or won, leaves either a stopping run or a conflict about a run that moved on |
| `RunServices.ControlPlane.FinishCancel` | src/harness/application/runs.py:355-381 | Closing a cancelling run always ends with a terminal record: a lost write means a worker closed it |
| `RunServices.ControlPlane.ExpireApproval` | src/harness/application/approvals.py:192-229 | Whoever settles it, the approval is settled when the call ends, and the value returned is the stored outcome; undisturbed it has exactly the effects of an expiry. However disturbed, it takes exactly the steps of the settlement that ends in the stage reported |
| `RunServices.ControlPlane.AfterExpiry` | src/harness/application/approvals.py:197-229 | After an expiry an inline wait gets its run back, any other live run is rejected if it waits; undisturbed exactly so |
| `RunServices.ControlPlane.CancelPending` | src/harness/application/approvals.py:128-166 | A withdrawn approval is settled when the call returns, with the stored outcome as the answer; the call takes exactly the steps of a withdrawal that ends in the stage reported, and none of them writes the run |
| `RunServices.ControlPlane.RequestApproval` | src/harness/application/approvals.py:264-326 | However disturbed, the call takes exactly the steps of a request that ends in the phase reported, returns exactly when that phase is paused or found, and otherwise raises with its approval stored and the token moved, or with nothing stored; undisturbed it adds, notes and pauses, or changes nothing |
| `RunServices.ControlPlane.DecideApproval` | src/harness/application/approvals.py:328-403 | A normal return means the stored outcome is this decision, whatever else ran; a decision it stored returns normally exactly when the call itself moved the run, a grant to running and a refusal to rejected. Undisturbed the whole state is the decision, the expiry or nothing, and the answer is the outcome where it should be. However disturbed, the call takes exactly the steps of the settlement that ends in the stage reported |
| `RunServices.ControlPlane.EnsureInlineRunResumed` | src/harness/application/approvals.py:168-178 | A waiting run is put back to running; a lost write is an error only if the run still waits |
| `RunServices.ControlPlane.ListExpiredPending` | src/harness/adapters/memory.py:224-233 | The due pending approvals, each once, the earliest first; only the limit keeps one off the list |
| `RunServices.ControlPlane.ReapExpired` | src/harness/application/approvals.py:231-244 | A limit below one is refused; otherwise every approval listed as due is settled when the reaper returns, and below the limit every approval due when it started. Undisturbed it settles none but the due ones, each as expired, and reports how many |
| `RunCalls.DecisionIsDue` | src/harness/application/approvals.py:328-403 | A whole decision settles its approval and no other with that outcome, reports it, and moves a waiting run to running for a grant and to rejected for a refusal |
| `RunCalls.ExpiryIsDue` | src/harness/application/approvals.py:192-229 | A whole expiry settles its approval and no other, reports it, and puts a waiting run back to running for an inline wait and to rejected otherwise |
| `RunCalls.RequestIsDue` | src/harness/application/approvals.py:264-326 | A whole request on a running run without this tool call stores its approval, announces it and puts the run to wait, and otherwise changes nothing |
| `RunCalls.SettledIsDue` | src/harness/application/approvals.py:328-403 | A settled approval keeps its outcome under every later call, and only granting an inline one again resumes a waiting run |
| `RunServices.ControlPlane.WaitForDecision` | src/harness/application/approvals.py:102-126 | The polling loop ends, at the latest with the first poll after expiry, and returns the durably stored outcome |
| `RunCalls.WaitingIffOnePending` | src/harness/application/approvals.py:264-403 | Along any sequence of whole calls on a new run, with approvals that are not inline, waiting and pending agree after every call exactly when no call withdraws an approval that a live run waits for |
| `RunCalls.CallKeepsWaitIff` | src/harness/application/approvals.py:154-403 | Each whole call keeps: a live run waits for approval exactly when exactly one approval is pending, and otherwise none is. The one exception, in both directions, is withdrawing an approval a live run waits for |
| `RunCalls.WithdrawalStrandsTheRun` | src/harness/application/approvals.py:154-166 | A concrete sequence: a running run asks, the approval is withdrawn, and the run waits with nothing pending |
| `RequestRaces.RequestsFollowTheProtocol` | src/harness/application/approvals.py:264-326 | Interleaved requests take only protocol steps, so everything proved of all interleavings holds of theirs |
| `RequestRaces.PhaseFixesSteps` | src/harness/application/approvals.py:264-326 | In every history the steps a request has taken are fixed by how far it has come |
| `RequestRaces.LostIffTokenMoved` | src/harness/application/approvals.py:246-262 | The write of a request is lost exactly when the record's token has moved since the request read it |
| `RequestRaces.LostLeavesPendingIff` | src/harness/application/approvals.py:264-326 | Whatever else runs, step by step: a request that read, stored and tried its write loses it exactly when the run was written between its read and its write, and its approval is still pending exactly when nobody has settled it since |
| `RequestRaces.StartedIsQuiet` | src/harness/core/state_machine.py:6-47 | A new run that a worker has provisioned and started is such a running run with nothing pending |
| `RequestRaces.PromiseKeptIffNoneLost` | src/harness/application/approvals.py:264-326 | However many requests interleave on a running run with nothing pending, and nobody else runs: once all have ended, it waits exactly when one approval is pending if and only if no request lost its write |
| `RequestRaces.PromiseKeptIffNoneOvertaken` | src/harness/application/approvals.py:264-326 | The same, again with requests alone, as a condition on the order of the steps: if and only if the run was not written between any request's read and its write |
| `RequestRaces.TwoPendingIffEachReadsFirst` | src/harness/application/approvals.py:264-326 | Two requests, and nobody else, leave two approvals pending exactly when each reads the run before the other's write is won, and otherwise keep the promise |
| `RequestRaces.TwoRequestsCanLeaveTwoPending` | src/harness/application/approvals.py:264-326 | From every quiet running run, a history of two requests in their own steps that leaves two approvals pending, one of them of a request that raised |
| `SettlementRaces.HistoryKeepsInv` | src/harness/application/approvals.py:128-403 | Every interleaving of requests, settlements and any other callers keeps what each stage of a settlement says of the records: its outcome stored, its report owed or made, its read a value the run has had |
| `SettlementRaces.SettlementsAreNeverBlocked` | src/harness/application/approvals.py:128-403 | Whatever the others have done, a settlement that has not ended has a turn it can take |
| `SettlementRaces.StageFixesSteps` | src/harness/application/approvals.py:128-403 | In every history the steps a decision, expiry, withdrawal or resumption has taken are those of its stage |
| `SettlementRaces.WaitHoldsIffNotRead` | src/harness/application/approvals.py:192-403 | With any other callers: a run that a request put to wait still waits on that write, once the settlements have ended, exactly when none of them acts on a read of the run made after it and no other caller has written the run |
| `SettlementRaces.WaitsIffWinUnread` | src/harness/application/approvals.py:192-403 | Any number of requests and settlements and nobody else: once all have ended the run waits exactly when some request's write was won and no settlement acts on a later read |
| `SettlementRaces.StrandedIff` | src/harness/application/approvals.py:192-403 | The same calls: the run is left waiting with nothing pending exactly when, besides, every approval a request stored has been settled |
| `OneApproval.SettledEarlyStrandsIff` | src/harness/application/approvals.py:192-403 | One request that is not inline, any number of decisions, expiries and withdrawals, any interleaving, nobody else: the run is left waiting with nothing pending exactly when the approval was withdrawn or was settled by a call that read the run before the request's write was won; otherwise a granted run is running and a refused or expired one rejected |
| `OneApproval.PromiseKeptIffSettledInTime` | src/harness/application/approvals.py:192-403 | For the same histories: the run waits exactly when one approval is pending if and only if the approval was not settled that early |
| `OneApproval.DecisionCanStrandTheRun` | src/harness/application/approvals.py:264-403 | From every quiet running run, a history in the calls' own steps: a grant stored and read between the request's event and its write finds no move, and the request then waits for an approval already granted |
| `EvalRuns.EveryHistoryKeepsInv` | src/harness/evals/controller.py:115-190 | Whatever the reconciles meet and whenever cancellation comes, stored results are exactly one per case before the index while live, and a verdict is over all cases |
| `EvalRuns.EveryMoveIsInTheTable` | src/harness/evals/models.py:168-184 | Every move of every history follows the transition table, terminals stay as they are, and nothing changes without raising the fencing token |
| `EvalRuns.PassedMeansEveryCasePassed` | src/harness/evals/controller.py:323-335 | A passed run has a stored passing result for every case |
| `EvalRuns.ResultsSayWhatWasMet` | src/harness/evals/controller.py:246-335 | Along every history each stored result was stored by one reconcile or cancellation, stays as stored, and says what that one met: passed exactly for a child that ended or was accepted and was judged passing with no fault, never for a timeout, a fault or a cancellation |
| `EvalRuns.PassedIffSeenPassing` | src/harness/evals/controller.py:258-290 | With distinct ids, after every history: a case has a passing result if and only if some reconcile met its child run ended or accepted, without fault, and judged it passing |
| `EvalRuns.VerdictIff` | src/harness/evals/controller.py:323-335 | A run with a verdict has a result for every case, and has passed exactly when there are cases and every one of them passed |
| `EvalRuns.ActiveCaseAlwaysMatches` | src/harness/evals/controller.py:135-141 | The active case is always the case the durable index names: the mismatch branch is never taken |
| `EvalRuns.AtMostFourMovesPerCase` | src/harness/evals/controller.py:115-335 | At most 4n+2 reconciles change anything over n cases, whatever happens around them |
| `EvalRuns.OnlyPollsChangeNothing` | src/harness/evals/controller.py:246-291 | A reconcile that meets no fault and changes nothing is a poll within the case timeout, or a second result for a used id |
| `EvalRuns.EveryEvalRunEnds` | src/harness/evals/controller.py:115-335 | With distinct case ids and time passing, the run is terminal after (4n+3)(limit+2) reconciles |
| `EvalRuns.DuplicateIdNeverEnds` | src/harness/evals/repositories.py:146-152 | With a case id used twice an undisturbed run never ends: the second result is refused for ever. `EvalDatasets` says when such a dataset can be stored |
| `EvalDatasets.SuiteAcceptsIffDistinct` | src/harness/evals/suite.py:102-108 | Counting ids finds exactly the lists with a repeated one |
| `EvalDatasets.DraftRepository.CreateDatasetVersion` | src/harness/evals/service.py:75-150 | The revision is checked on one read of the draft, the suite on a second one that others may have edited before, and the cases of the first are stored |
| `EvalDatasets.StoredIdsDistinctIff` | src/harness/evals/service.py:84-130 | A stored dataset has distinct case ids exactly when its own cases would pass the suite check, and they did whenever the draft had the same revision at both reads |
| `EvalDatasets.MendedDraftStoresDuplicates` | src/harness/evals/service.py:84-130 | The race that stores a repeated id: an edit mends the draft between the two reads |
| `EvalDatasets.RunsOfUneditedDraftsEnd` | src/harness/evals/controller.py:115-335 | An Eval Run over a dataset created from a draft not edited meanwhile ends |
| `EvalRuns.EvalController.CompareAndSet` | src/harness/evals/repositories.py:135-144 | Wins exactly on the expected status and the next token; a wrong token raises |
| `EvalRuns.EvalController.AddCaseResult` | src/harness/evals/repositories.py:146-152 | A stored result is never changed; storing the same one again is accepted |
| `EvalRuns.EvalController.Reconcile` | src/harness/evals/controller.py:115-190 | One call is exactly one step of the specified state machine, a verdict that is refused being retried as an error result, and a call that raises changed nothing; with `ResultsSayWhatWasMet`, any result it stores is the judgement of the child it met |
| `EvalRuns.EvalController.CompleteCase` | src/harness/evals/controller.py:280-290 | Result stored and index advanced together, or neither |
| `EvalRuns.EvalController.Finalize` | src/harness/evals/controller.py:323-335 | Artifacts once, then the verdict over the stored results |
| `EvalRuns.EvalController.Cancel` | src/harness/evals/controller.py:292-321 | An unfinished active case gets its cancelled result, then the run closes |
| `EvalRuns.EvalController.CancelRun` | src/harness/evals/service.py:253-278 | With any moves of others between its read and its write: it raises exactly when it had to write and the token had moved; otherwise the run it read live is cancelling one token on, an ended or cancelling one is left as it is, and the run is offered to the queue unless it has ended |
| `EvalRuns.SameTokenSameRun` | src/harness/evals/repositories.py:135-144 | Along any moves the token never falls, and an unmoved token means an unchanged run |
| `ReleaseGate.EveryWorldKeepsInv` | src/harness/evals/service.py:164-238 | In every reachable state of the stores each Eval Run is a run over the cases of its stored dataset version |
| `ReleaseGate.Latest` | src/harness/evals/service.py:297-308 | The dictionary loop keeps, for every id that counts, exactly its newest required version |
| `ReleaseGate.Gate` | src/harness/evals/service.py:280-331 | Passes exactly when the newest version of every required dataset was passed by a run of this agent version; the missing ids are exactly the others |
| `ReleaseGate.PassedByIff` | src/harness/evals/service.py:309-331 | A dataset counts as passed exactly when some run of this agent version over this very version of it has passed |
| `ReleaseGate.DatasetsStay` | src/harness/evals/repositories.py:52-62 | A stored dataset version stays as it is |
| `ReleaseGate.GateIsBackedByResults` | src/harness/evals/service.py:280-346 | Whatever the stores go through before and between the gate's two reads, what it lets through has, for every case of the datasets it read, a stored passing result that a reconcile stored on meeting the child run of that case passing, all in a passed run of that version |
| `ReleaseGate.EvidenceStays` | src/harness/evals/service.py:280-346 | No later call on the stores withdraws that evidence |
| `ReleaseGate.RequirePromotionAllowed` | src/harness/evals/service.py:333-346 | Raises if and only if some dataset that must pass has no passed run of this version; a return means that for every such dataset there is the evidence of `GateIsBackedByResults` |
| `Release.Promote` | src/harness/deployments/service.py:404-557 | End to end: a promotion of an evaluated agent is stored only with evidence for every required case, and its snapshot satisfies the policy of the revision it will move. It is refused as not evaluated exactly when a dataset that must pass was not passed, and past the gate, undisturbed, it is stored exactly when revision, registration, policy and catalog admit it and the identifiers are free |
| `Deployments.EveryInterleavingKeepsInv` | src/harness/deployments/repositories.py:89-103 | Under every interleaving each revision is made from the one before by exactly one mover, deployments and routes stay sound |
| `Deployments.OneSuccessPerRevision` | src/harness/deployments/controller.py:67-144 | A succeeded deployment itself made the move from its expected revision, so no two with the same expected revision succeed; the status determines the fencing token |
| `Deployments.NewRoutesAreValid` | src/harness/deployments/controller.py:86-117 | The controller's arithmetic gives distinct routes with weights in range totalling 100, although the validators are skipped |
| `Deployments.ReachableRoutesAreValid` | src/harness/deployments/models.py:176-181 | Every reachable environment has no routes or valid ones, healthy exactly when routed, and every routed snapshot passed the gate |
| `Deployments.StepKeepsComplianceIff` | src/harness/deployments/service.py:338-402 | Every step keeps all routes within the current policy, a rollback's advance exactly when its snapshot complies |
| `Deployments.RoutesAlwaysComply` | src/harness/deployments/service.py:404-557 | In every interleaving whose rollbacks comply, every route satisfies the environment's current policy |
| `Deployments.ValidatedIffInside` | src/harness/deployments/service.py:251-295 | The validation accepts exactly an agent version whose profile, catalog, routes, servers and knowledge are inside the policy, and the error it names is about something outside |
| `Deployments.CompliesIffInside` | src/harness/deployments/service.py:360-375 | A snapshot complies exactly when its registered agent version is inside the policy |
| `Deployments.RollbackCanLeaveThePolicy` | src/harness/deployments/service.py:559-618 | A concrete run in which a rollback leaves a route outside the current policy |
| `Deployments.ExecIsOnward` | src/harness/deployments/repositories.py:198-207 | History only grows, stored snapshots stay, deployments keep their orders and finals stay final |
| `DeploymentPlane.Plane.CompareAndSetPolicy` | src/harness/deployments/repositories.py:89-103 | Wins exactly when the environment is still the one that was checked |
| `DeploymentPlane.Plane.CompareAndSetRoutes` | src/harness/deployments/repositories.py:89-103 | The same for a reconcile's routes, recorded as this deployment's move |
| `DeploymentPlane.Plane.Move` | src/harness/deployments/controller.py:130-144 | A status move is made once or the record another worker left is returned; token and status always agree |
| `DeploymentPlane.Plane.CheckRoutes` | src/harness/deployments/service.py:360-375 | The validation loop accepts only when every current route satisfies the new policy |
| `DeploymentPlane.Plane.ReplacePolicyRequest` | src/harness/deployments/service.py:338-402 | A normal return means that the revision read was the expected one, the catalog accepted the policy, and revision expected+1 carries it; undisturbed it succeeds exactly when revision, catalog and all routes allow it, and then only revision and policy of the environment change, while a refusal leaves it as it is |
| `DeploymentPlane.Plane.Promote` | src/harness/deployments/service.py:404-557 | A stored promotion had its expected revision, a registered agent version inside that policy, passed the gate and was accepted by the catalog; a missing agent version, a closed gate and a breach of the policy are reported exactly when they are the reason. Undisturbed it is stored exactly when all of these hold and its identifiers are free, as one queued deployment and one snapshot |
| `DeploymentPlane.Plane.RollbackRequest` | src/harness/deployments/service.py:559-618 | A stored rollback targets a snapshot that passed the gate, at full weight and the expected revision. Undisturbed it is stored exactly when the revision is the expected one, the snapshot is stored and passed the gate, and the identifier is free, and nothing else changes; a missing snapshot is reported exactly when that is the reason |
| `DeploymentPlane.Plane.ChooseRoutes` | src/harness/deployments/controller.py:86-112 | The branches of the controller compute the specified routes |
| `DeploymentPlane.Plane.TryAdvance` | src/harness/deployments/controller.py:73-124 | Reports a win only when this deployment moved its expected revision; undisturbed it wins exactly when the move is possible |
| `DeploymentPlane.Plane.Reconcile` | src/harness/deployments/controller.py:67-128 | Success is returned only when this deployment's own write moved the environment on; undisturbed a queued deployment starts reconciling, and a reconciling one succeeds exactly when it was deployed, the environment is at the expected revision and a canary has a healthy version to share with, which then keeps the rest of the traffic; otherwise it fails and the environment stays |
| `Routing.Resolve` | src/harness/deployments/service.py:663-670 | The selection loop never falls through on valid routes: the bucket lies in the range of the route returned |
| `Routing.OneOwner` | src/harness/deployments/service.py:663-670 | Every prefix has exactly one owning route |
| `Routing.HitsInRounds` | src/harness/deployments/service.py:663-670 | Exact count of prefixes with a bucket in a range |
| `Routing.RouteShareMatchesWeight` | src/harness/deployments/service.py:663-670 | Of the 2^32 prefixes a route of weight w owns between 42949672*w and 42949673*w |
| `Routing.ReachableSharesMatchWeights` | src/harness/deployments/controller.py:86-117 | The same in every reachable environment |
| `Routing.CanaryKeysFollowIff` | src/harness/deployments/controller.py:86-117 | For two promotions with their own snapshots, the second advancing the environment the first left: every key of the first target goes to the second exactly when the second takes all traffic or is the healthy version, or the first was a canary beside the healthy version with no more than the second's percentage |
| `TaskQueue.AcknowledgeKeepsIff` | src/harness/adapters/memory.py:634-637 | Acknowledging keeps pending the disjoint union of ready and leased exactly when the key is not ready |
| `TaskQueue.EnqueueKeeps` | src/harness/adapters/memory.py:621-625 | Enqueueing keeps the queue consistent |
| `TaskQueue.DequeueKeeps` | src/harness/adapters/memory.py:627-632 | Dequeueing keeps the queue consistent |
| `TaskQueue.RetryKeeps` | src/harness/adapters/memory.py:639-643 | Retrying keeps the queue consistent |
| `TaskQueue.InMemoryTaskQueue.Enqueue` | src/harness/adapters/memory.py:621-625 | A key that is not pending becomes the last ready one; a pending one changes nothing |
| `TaskQueue.InMemoryTaskQueue.Dequeue` | src/harness/adapters/memory.py:627-632 | The first ready key is leased and returned; nothing exactly when none is ready |
| `TaskQueue.InMemoryTaskQueue.Acknowledge` | src/harness/adapters/memory.py:634-637 | The key is neither leased nor pending any more, and the ready keys stay |
| `TaskQueue.InMemoryTaskQueue.Retry` | src/harness/adapters/memory.py:639-643 | A leased key goes to the end of the ready ones, and one that is not leased changes nothing |
| `TaskQueue.ServedInOrder` | src/harness/adapters/memory.py:621-643 | Workers are served in the order of the offers: a new key and one given back come after all that are ready, one already pending changes nothing |
| `TaskQueue.EveryInterleavingKeepsInv` | src/harness/evals/controller.py:70-86 | Under any interleaving of dequeue, reconcile and ack-or-retry by any workers, with crashes: leases are exactly the keys held by workers or by workers that crashed, and every live record is pending |
| `TaskQueue.LiveRecordsHaveTasksIff` | src/harness/deployments/controller.py:40-53 | A non-terminal record whose creation call has finished is ready or held by a worker exactly unless a worker crashed while it held it; then its key stays leased and this queue does not deliver it again |
| `TaskQueue.AbsorbedOfferComesBack` | src/harness/evals/service.py:253-278 | A cancel's enqueue absorbed by a lease is not lost: concluding puts the key back unless the record was seen terminal |
| `ThreadBindings.IndexIsDetermined` | src/harness/adapters/memory.py:476-612 | The thread map determines the session index |
| `ThreadBindings.SessionsAreNotShared` | src/harness/adapters/memory.py:476-612 | No session belongs to two threads of one user |
| `ThreadBindings.AddKeepsIndexIff` | src/harness/adapters/memory.py:482-489 | An accepted add keeps the index exactly when it names no session but its own; the service never adds a binding with previous sessions, so only a direct caller of the repository can break it |
| `ThreadBindings.EverySequenceKeepsIndex` | src/harness/adapters/memory.py:476-612 | After any sequence of add, retitle, archive and rebind the session index is the one the thread map determines |
| `ThreadBindings.HistoryOnlyGrows` | src/harness/adapters/memory.py:527-612 | Threads keep their sessions, and neither `updated_at` nor the title timestamp goes back |
| `ThreadBindings.DeduplicatedKeepsMembers` | src/harness/adapters/memory.py:602-602 | The ordered deduplication keeps exactly the members, each once |
| `ThreadBindings.InMemoryAguiThreadBindingRepository.AddBinding` | src/harness/adapters/memory.py:482-489 | Refused, with nothing changed, exactly when the thread or the session is taken; an accepted binding is what thread and session lead to, and nothing else changes |
| `ThreadBindings.InMemoryAguiThreadBindingRepository.StoreSessionAliases` | src/harness/adapters/memory.py:507-509 | The alias loop points every session of the binding at it |
| `ThreadBindings.InMemoryAguiThreadBindingRepository.UpdateTitle` | src/harness/adapters/memory.py:527-555 | Refused exactly for an unknown thread; the returned binding carries the given title unless a later one is shown, is what its thread and all its sessions lead to, and nothing else changes |
| `ThreadBindings.InMemoryAguiThreadBindingRepository.SetArchived` | src/harness/adapters/memory.py:557-582 | Refused exactly for an unknown thread; the returned binding carries the given mark, is what its thread and all its sessions lead to, and nothing else changes |
| `ThreadBindings.InMemoryAguiThreadBindingRepository.RebindSession` | src/harness/adapters/memory.py:583-612 | Refused exactly for an unknown thread or a session of another thread; the returned binding is bound to the new session, keeps all its old ones as previous, and is what the thread and every one of these sessions lead to, and nothing else changes |
| `RefreshTokens.EveryInterleavingKeepsInv` | src/harness/auth/repositories.py:162-195 | Under every interleaving each family is one chain of distinct tokens of one user, all but the last revoked and replaced by the next |
| `RefreshTokens.OneLiveTokenPerFamily` | src/harness/auth/service.py:219-243 | A family never has two live tokens |
| `RefreshTokens.LinksFormOneChain` | src/harness/auth/repositories.py:168-181 | Replacement links never come back to a token, all lead to the one unreplaced token, and no token replaces two |
| `RefreshTokens.DeadForever` | src/harness/auth/service.py:219-249 | A family with no live token never gets one again; a revoked token never changes |
| `RefreshTokens.RotatedAtMostOnce` | src/harness/auth/repositories.py:168-181 | Along any run a token is rotated at most once |
| `AuthSessions.AuthService.IssueSession` | src/harness/auth/service.py:357-360 | A new session is one fresh live token of a fresh family, for this user, with every other token as it was |
| `AuthSessions.AuthService.Refresh` | src/harness/auth/service.py:219-243 | A success rotated this very token and returns its live successor, of the same user and family; unknown, reused, expired and lost are told apart, and after any of the last three the whole family is dead, whatever ran meanwhile; undisturbed it is exactly the specified effect |
| `AuthSessions.AuthService.RotateRefreshToken` | src/harness/auth/repositories.py:168-181 | Rotation wins exactly on a live token |
| `AuthSessions.AuthService.RevokeMatching` | src/harness/auth/repositories.py:183-195 | The revocation loops revoke exactly the live tokens that match |
| `AuthSessions.AuthService.Logout` | src/harness/auth/service.py:245-249 | Whichever token of the family is presented, the family is dead afterwards; undisturbed nothing else changes |
| `AuthSessions.AuthService.ChangePassword` | src/harness/auth/service.py:325-355 | A normal return means every session the user had is dead; an error changed no token; undisturbed it succeeds exactly for the right current and a different strong new password, and then revokes exactly the live tokens of this user |
| `AuthSessions.AcceptableIffStrong` | src/harness/auth/service.py:527-531 | The password rule accepts exactly what is long enough, not too long, and holds a letter of each case and a digit |
| `ThreadSelection.SortedIsSorted` | src/harness/agui/routes.py:701-701 | The runs considered are the given ones, ordered by creation and id |
| `ThreadSelection.GreedyIsLeast` | src/harness/agui/routes.py:714-730 | Taking the earliest match each time succeeds whenever any embedding exists, and no pick is later than in any other |
| `ThreadSelection.EarlierRuns` | src/harness/agui/routes.py:714-729 | The cursor loop finds the greedy embedding or none |
| `ThreadSelection.VisibleThreadRuns` | src/harness/agui/routes.py:700-731 | The runs shown are the leftmost embedding ending at the latest run whenever one exists, otherwise all runs |
| `ThreadSelection.ShowsConversationIff` | src/harness/agui/routes.py:714-731 | A selection shows every stored non-blank prompt exactly when the last stored prompt is not blank or no stored prompt is non-blank |
| `ThreadSelection.BlankEndDropsAPrompt` | src/harness/agui/routes.py:714-731 | A concrete thread whose blank last prompt makes the selection drop a real one |
| `Publication.Partition` | src/harness/cli.py:320-322 | Splitting a reference at its last separator, and none exactly when there is none |
| `Publication.Publisher.Visit` | src/harness/cli.py:299-341 | The recursive walk over the shared sets ends; on success the directory and all below it are logged and the sets restored, on failure a walk that ends badly in exactly the reported way exists |
| `Publication.PublishLocalAgentGraph` | src/harness/cli.py:299-341 | On its own: succeeds exactly when no walk ends badly, then publishes exactly the reachable packages, itself last; whatever happens the log is free of duplicates and every package in it pins only packages published before it, and an error names a package for which the reason reported is true |
| `Publication.OrderedIsRight` | src/harness/cli.py:299-341 | Said with the texts of the references: everything published pins, by `name@version`, packages of that very name and version published before it |
| `Publication.TroubleMeans` | src/harness/cli.py:299-341 | Each error a publication can end with is true of what it reaches: a directory without a valid package, a reference that pins another version than the catalog holds, a walk back to a package already on it, a package the control plane refuses |
| `Publication.EdgeIffPins` | src/harness/cli.py:319-331 | One package leads to another exactly when one of its references reads the other's directory name, `@`, and a version |
| `Publication.PublishedHasNoTrouble` | src/harness/cli.py:299-341 | Nothing below a published package is broken, mispinned, refused or cyclic |
| `Publication.CyclesAreNeverPublished` | src/harness/cli.py:315-318 | No package on a cycle is ever published, not even by a run that fails |
| `PackageHash.Utf8IsInjective` | src/harness/agent_package.py:159-159 | Distinct paths have distinct encoded forms |
| `PackageHash.FromBigEndianRoundTrip` | src/harness/agent_package.py:161-163 | Reading a length prefix and writing it again gives the same bytes |
| `PackageHash.DecodeInvertsEncode` | src/harness/agent_package.py:156-165 | The bytes fed to the hash decode to the list of files, within the 4- and 8-byte bounds |
| `PackageHash.EncodeInvertsDecode` | src/harness/agent_package.py:156-165 | Only the encoding of a list of files decodes |
| `PackagePaths.NormalizedIsNormal` | src/harness/agent_package.py:347-360 | A path that stays inside is, normalized, a path of the same components |
| `PackagePaths.ListingIsSorted` | src/harness/agent_package.py:104-107 | A listing holds each path once, in component order |
| `PackagePaths.SortedIsListing` | src/harness/agent_package.py:156-158 | There is only one way to list a set of paths in order |
| `PackagePaths.SortPaths` | src/harness/agent_package.py:156-158 | The sorted list is the listing |
| `AgentBundle.ScanPaths` | src/harness/agent_package.py:104-153 | The scanning loop accepts exactly when no path has a fault and both limits hold, and then yields the chosen files; an error is the fault of a scanned path |
| `AgentBundle.PackageFiles` | src/harness/agent_package.py:104-153 | The files of a directory that go into a package, in listing order, or a refusal exactly when one is due; said without the loop: every file taken is a regular one outside the caches and environments, is no secret, is readable, and the limits hold |
| `AgentBundle.PackableIsFit` | src/harness/agent_package.py:104-153 | What is packed, said without the scan: all the regular files outside caches and environments, with their contents, none of them a secret by name or content, unreadable, too long in path or content or in the place of the provenance; no link; and fewer than 20 000 of them |
| `AgentBundle.HashPackage` | src/harness/agent_package.py:156-165 | The hash is taken over the length-prefixed listing |
| `AgentBundle.HashInputDeterminesFiles` | src/harness/agent_package.py:156-165 | Two packages hashed over the same bytes are the same package |
| `AgentBundle.PackAgentPackage` | src/harness/agent_package.py:270-321 | A packable directory becomes the bundle of exactly its files and a provenance describing them |
| `AgentBundle.Unpack` | src/harness/agent_package.py:340-396 | The entry loop succeeds exactly when no entry has a fault and otherwise reports the first one; it writes exactly the entries' files |
| `AgentBundle.UnpacksIff` | src/harness/agent_package.py:340-396 | Said without the loop: good entries, distinct normalized names, total within the limit, no file below another |
| `AgentBundle.UnpackedHolds` | src/harness/agent_package.py:373-396 | The files written are exactly those of the entries, with their contents |
| `AgentBundle.UnpackedIsBounded` | src/harness/agent_package.py:345-372 | Every path written stays inside, is normal and within the limits |
| `AgentBundle.CheckInventory` | src/harness/agent_package.py:422-475 | Accepts exactly when the records describe every file but the provenance, each once, by size and hash |
| `AgentBundle.ExtractAgentBundle` | src/harness/agent_package.py:324-481 | Accepts exactly when every entry can be written safely and the provenance describes exactly the files written; its hash is then taken over exactly the extracted files |
| `AgentBundle.AcceptedIsVouched` | src/harness/agent_package.py:422-481 | An accepted bundle vouches for itself: it is within the limits, its files come from its entries byte by byte, and its provenance names the manifest hash, the package hash and the inventory that are true of them |
| `BundleRoundTrip.PackedIsAcceptedIff` | src/harness/agent_package.py:270-481 | A packed bundle is accepted exactly when its paths hold no backslash, the manifest is named agent.yaml, and provenance and archive fit; it then carries the same files |
| `BundleRoundTrip.PackThenExtract` | src/harness/agent_package.py:270-481 | End to end: packing and extracting gives back the same files and hash under exactly those conditions |
| `BundleExamples.ExampleToolsAreReliable` | src/harness/agent_package.py:294-306 | There are tools that write and read back every provenance claim |
| `BundleExamples.BackslashIsRefused` | src/harness/agent_package.py:346-350 | A packable directory with a backslash in a path whose bundle is refused |
| `BundleExamples.OtherManifestIsRefused` | src/harness/agent_package.py:398-403 | A packable directory whose manifest has another name, whose bundle is refused |
| `JsonPatch.PathOfPointers` | src/harness/agui/activity.py:522-528 | The pointers a run emits denote the member paths they spell (section 3 of RFC 6901) |
| `JsonPatch.AppendToMember` | src/harness/agui/activity.py:522-522 | `add` at `/items/-` appends to the array (section 4.1 of RFC 6902) |
| `JsonPatch.ReplaceMember` | src/harness/agui/activity.py:523-526 | `replace` of an existing member sets it (section 4.3 of RFC 6902) |
| `JsonPatch.AddToMember` | src/harness/agui/activity.py:527-528 | `add` of an object member sets it (section 4.1 of RFC 6902) |
| `Activity.BuildRunActivity` | src/harness/agui/activity.py:471-498 | The document returned shows the log, and there is none exactly for a log that shows nothing: one item for every event shown, in order, with its kind and status, the status of the last event that names one (succeeded exactly for `run.succeeded` or a result without error, failed exactly for a failure, rejection, timeout or failed result, and so on), the metrics of the last report, the time of the first event |
| `Activity.FoldFits` | src/harness/agui/activity.py:205-498 | For all logs, what the loop folds shows the log: items, overall status, metrics, start |
| `Activity.FramesAreFit` | src/harness/agui/activity.py:501-535 | For all events, the frames shown live carry the item, status and metrics of that event |
| `Activity.ActivityProjection` | src/harness/agui/activity.py:501-535 | The frames built for an event are the specified snapshot or patch; the patch sets the status this event names, appends an item that fits it, and sets the metrics it reports |
| `Activity.PatchIsStep` | src/harness/agui/activity.py:501-535 | Applied to the document folded so far, an event's patch gives the document of the next fold |
| `Activity.LiveFollowsFold` | src/harness/agui/activity.py:471-535 | From a queued event on, as long as no other comes, the client shows the fold of the events since |
| `Activity.LiveShowsTheLog` | src/harness/agui/activity.py:471-535 | So what the client shows after applying the patches is the log since its queued event: its items, its metrics, and the status the last event to name one names |
| `Activity.LiveEqualsHistoryIff` | src/harness/agui/activity.py:471-535 | The activity shown live equals the one rebuilt from history exactly for logs that show nothing or start with their only queued event |
| `StreamFrames.CursorReadsFrameId` | src/harness/agui/routes.py:52-67 | The identifier of a frame, sent back, is read as its event and the number of its frames received |
| `StreamFrames.ResponseMessageId` | src/harness/agui/routes.py:95-107 | The reverse search finds the latest message the provider named, or the run's own |
| `StreamFrames.ResponseIsLastNamed` | src/harness/agui/routes.py:95-107 | Files go on the message named by the last event that names one |
| `StreamFrames.ResponseIsOwn` | src/harness/agui/routes.py:95-107 | and on the run's own where no event names one |
| `StreamFrames.TerminalArtifactProjection` | src/harness/agui/routes.py:110-130 | The loop emits one card for every file, on the response message |
| `StreamFrames.ProjectStreamEvent` | src/harness/agui/routes.py:133-179 | The frames of an event are the specified ones, in order; they tell what the event is, and those that start, end and stream a message carry its run, message and text |
| `StreamFrames.ProjectedTells` | src/harness/agui/mapper.py:67-206 | Which frames an event has, for all events: a start exactly for a queued run, a finish exactly for a success, an error exactly for a failure, streamed text exactly for a delta with safe text, tool calls and answers exactly for the events of a tool or an approval, activity exactly for what is shown |
| `StreamFrames.ProjectedFrames` | src/harness/agui/mapper.py:67-206 | A run's start comes first and opens its message, its end comes last, and streamed text is the safe text of the event under the message it names |
| `EventStream.StoredLogsAreDense` | src/harness/adapters/memory.py:254-275 | Whatever any writers appended, the log the streams read is dense, and `list_after` on it is the suffix they take |
| `EventStream.StreamAguiEvents` | src/harness/agui/routes.py:753-796 | The replay sends exactly what is left after the cursor, up to the events stored between its two reads of the log, whose frames alone are missing from the end |
| `EventStream.SecondReadOnlyAdds` | src/harness/agui/routes.py:766-778 | What was left out because it was stored between the two reads is exactly the frames of those events |
| `EventStream.LiveStream` | src/harness/agui/routes.py:322-361 | However the polls cut the log, the live loop sends the events up to the end of the poll that met a terminal event, each projected from the events up to itself |
| `EventStream.ReconnectLosesNothing` | src/harness/agui/routes.py:753-796 | Reconnecting with the identifier of any frame gives exactly the frames after it, with the same identifiers |
| `EventStream.UnknownCursorStartsOver` | src/harness/agui/routes.py:52-67 | A missing, malformed or zero identifier replays everything |
| `EventStream.IdentifiersAreUnique` | src/harness/agui/routes.py:785-796 | No two frames of a stream share an identifier |
| `StreamAgreement.LiveEqualsReplayIff` | src/harness/agui/routes.py:110-179 | What was sent live is what a replay sends exactly when nothing after a closing event changes its file cards |
| `StreamAgreement.TerminalLastAgrees` | src/harness/agui/routes.py:322-361 | In particular when the terminal event is the last |
| `StreamAgreement.FollowedToTheEnd` | src/harness/agui/routes.py:322-361 | A live stream followed to the end sends every event |
| `StreamAgreement.LiveThenReconnect` | src/harness/agui/routes.py:322-361 | Part of a live stream plus a reconnect from its last frame is exactly the replay of the whole log |
| `StreamAgreement.StreamsShowHistoryIff` | src/harness/agui/activity.py:471-535 | Live stream, replay and history build the same activity, for exactly the logs that start with their only queued event |
| `StreamAgreement.ClosingFrameComesLast` | src/harness/agui/routes.py:133-179 | The closing frame is the last of its event, after the end of the message and a card for every file known |

## Left out

- DeploymentPlane.Plane.Promote: does not model idempotency keys, previews and the optional quality gate; the catalog, profile and knowledge checks are one boolean the caller supplies.
- DeploymentPlane.Plane.RollbackRequest: does not model idempotency keys.
- DeploymentPlane.Plane.ReplacePolicyRequest: the catalog, knowledge-reference and production-profile checks are one boolean the caller supplies.
- Release.Promote: as DeploymentPlane.Plane.Promote, behind the modelled gate.
- AuthSessions.AuthService.ChangePassword: the password rule is stated for ASCII letters and digits; Unicode case is not modelled.
- AgentBundle.PackAgentPackage: the other production gates of `check_agent_package` are assumed to have passed.
- EventStream.StreamAguiEvents: redaction is the identity.
- EventStream.LiveStream: redaction is the identity, and keep-alives carry no frame.
- SQL and Redis repositories, HTTP routes, settings, migrations and composition: the in-memory repositories are the reference.
- Run creation with its session locks, deduplication and quotas (`application/runs.py:138-280`); the model starts at the stored record.
- Worker execution, sandboxes and the policy engine: the worker is any caller that takes legal steps.
- Redaction is the identity. The replay endpoint redacts only the events after the cursor, without the memory the live stream keeps of protected tool calls, so agreement of streams is proved for logs that need no redaction.
- Idempotency keys of promotion, rollback and Eval Run creation, audit entries, metrics and traces.
- A crash between storing a case result and replacing the Eval Run: one reconcile is atomic here, and the retried result, having a new completion time, would be refused. The two writes of one reconcile are likewise not interleaved with a cancellation.
- Environment quotas and runtime previews.
- Deciding an inline approval again resumes whatever wait the run is in; the waiting equivalence is stated for approvals that are not inline.
- The clock is read once in a reconcile: the error result that follows a refused verdict has the same completion time. An uploaded input goes by the name of its fixture.
- Futures of inline waiters: completion and polling are modelled, timeouts of the event loop are the clock advancing.
- JSON, SHA-256, ZIP, JWT and Argon2 are parameters or ideal: provenance is written and read back faithfully, hashes of distinct secrets differ, fresh identifiers are distinct. The routing hash is any 32-bit value.
- File system limits other than nesting of files below files (component bytes, permissions), links inside the extraction root (none can be written), and destinations that are not empty.
- The other production gates of `check_agent_package`; a directory is assumed to have passed them and not to change while it is packed or published. Catalogs reached through symbolic links are not modelled.
- Unicode beyond scalar values (surrogate file names), non-ASCII digits in a stream cursor, and Unicode case in the password rule, which is stated for ASCII letters and digits.
- Display texts, summaries and details of activity items, which are parameters; keep-alives and the client identifiers substituted into start and finish frames.
- A live stream is a finite sequence of polls; that a run eventually ends is not claimed.
- `login`, registration and OAuth up to the session they issue; access tokens.
- User listing and lookup by session of the thread binding store, which only read.
