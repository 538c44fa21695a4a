# Verification of provider-http-async

A Dafny model of the controller logic of this Crossplane provider, with proofs.

* **AsyncRequest** (`Api`, `Cluster`, `RequestMapping`, `RequestGen`, `Poller`, `Deploy`, `Observing`, `Reconciling`): one reconcile is
  Observe, IsUpToDate, then Create, Update, Delete, finalizer drop or nothing, then DeployAction, Poll and status writes.
  All durable state is the stored status; the process may die at any interaction. The world is a value and a reconcile
  consumes a *tape* of turns, one for each Get, status write, HTTP request or sleep. A turn says what others did before it
  (spec edit, deletion, time) and how it was answered; a tape cut short is a crash. A statement over all tapes is
  therefore a statement over all interleavings, refusals, lost acknowledgements and crashes.
* **`Controller`** holds the same operations as methods of a class that mutates its fields, with the source's loops; each is
  proved to move its world exactly as the function does, so the theorems are about these methods.
* **`Protocol`** is the specification: an auditor that sees only the log of calls, verdicts and writes, keeps its own books
  and says what may happen next. It does not know the controller's code. `Refinement` shows that every run is legal,
  `ProtocolProofs` and `Safety` what every legal run guarantees; `Leaks` shows why the at-most-one-CREATE property
  needs its hypotheses.
* `SpecFlow` and `NoLeaks` derive the leak-free case from hypotheses on specs, responses and tapes.
* `Terms` states what an answer, a URL, a mapping or a request has to be like for a case to apply, in terms of the spec's own functions
  and of plain texts and numbers; `Observations`, `Deployments`, `Operations` and `Routes` say in these terms what every case of an
  observation, a deployment, a poll and a whole reconcile comes to: what is sent, what is put on record, what becomes of the
  finalizer. `Mutates` counts the requests of a reconcile. `DisposableOutcomes` does the same for the one-off request.
* `TerminalStall`, `TerminalRuns`, `NonInterference`, `CrashMasking`, `PollBound`, `TemplateCache`, `Drift`, `Verdicts`: further properties.
* **Status writes** (`StatusWriter`, `StatusHandler`): the conflict-retry loops against any concurrent writers, which justifies
  the atomic status writes of `Cluster`.
* **AsyncDisposableRequest** (`Disposable`, `DisposableController`, `DisposableProofs`, `DisposableOutcomes`): the one-off request and its retry limit.
* **Secrets** (`Placeholders`, `Substitution`, `SecretMask`, `JsonMask`): masking response data with placeholders and patching it back.

jq expressions are fields of function type, total and with errors as values; nothing is assumed about them unless a
theorem says so. The dispatch of the managed reconciler is the table described in the comments of
`internal/service/request/observe.go:128-136` and `internal/service/request/observe.go:163-181`: error, nothing; absent and deleted, drop the
finalizer; present and deleted, Delete; absent, Create; present and out of date, Update.

Where the code and its comments disagree the model follows the code: `startedAt` is kept when a terminal is recorded over an
anchor and reset when the terminal is cleared (`internal/service/request/observe.go:418-419`); and the terminal error is
`status.terminalError`, not a field under `status.polling` as a comment in the controller says.

Properties that are false of the code as one might first state them, with what holds instead:

* *At most one CREATE before identity* fails exactly when an operation leaks: accepted but never anchored, completed without
  an identity, or released because its polling block was removed (`Safety.AtMostOneOperation`, `Leaks`). It holds in every run
  whose CREATE mappings, answers and anchor writes rule these out (`NoLeaks.AtMostOneLive`).
* *The attempt cap* of a disposable request fails by exactly the lost requests; none is lost when status writes succeed and
  expectedResponse yields booleans (`DisposableProofs.AttemptCap`, `ExactAttempts`, `UndecidableNeverStops`).
* *A spec change reopens a terminal* holds if and only if the generation then met exceeds the one recorded by the terminal
  write (`TerminalRuns.TerminalReopensIff`); an edit just before that write is lost (`TerminalRuns.CorrectionIsSwallowed`).
* *Sequential patching is substitution* fails when a placeholder comes to stand, by an earlier replacement, where the text had
  none. Each step is exact if and only if that has not happened (`Substitution.ReplacementIsExact`, `LoopIsStepwise`), and so is
  the result for the last step (`LastDecides`); a caller can check the substituted text for placeholders
  (`SequentialIsSimultaneous`). Beyond the first stray occurrence the result may still be right by coincidence, if later
  replacements restore it; this remainder has no simpler description here.
* *Lookups are stable* is a property of the four actions only; for any other action `RequestMapping.OtherActionsAreUnstable`
  says exactly when it changes. No caller looks up another action.

## Model

| member | source | states |
|---|---|---|
| Refinement.RunGood | internal/controller/cluster/request/request.go:242-396 | Refinement: every run of the controller, on any tapes (edits, deletions, refusals, lost acknowledgements, crashes), is a legal run of the protocol in Protocol.dfy, and the auditor's books kept from the log alone always show the stored status |
| Refinement.ReconcileGood | internal/controller/cluster/request/request.go:242-330 | one reconcile keeps to the protocol |
| Refinement.IsUpToDateGood | internal/service/request/observe.go:114-213 | what an observation promises the dispatch: not-found over an identity only with a reported absence, never over an anchor under deletion; "seen" never under a terminal |
| Refinement.DeployActionGood | internal/service/request/deployaction.go:28-202 | DeployAction fires only without anchor and terminal, anchors the answer before polling, and writes only what the protocol allows |
| Refinement.PollGood | internal/service/request/polling/poller.go:104-272 | Poll works on the stored anchor and clock, leaves the status alone and its verdict is on the books |
| ProtocolProofs.LegalIsSafe | internal/service/request/deployaction.go:140-202 | every legal log satisfies the protocol invariant: clock implies anchor; the anchored operation is the last one sent; no operation is Identified while externalRef is empty |
| ProtocolProofs.LedgerBalances | internal/service/request/deployaction.go:110-202 | the fates the auditor assigns account for every polled mutate and every anchor clear of a legal log |
| Safety.OperationLedger | internal/service/request/deployaction.go:110-202 | conservation in every reachable state: polled mutates sent = anchor clears + (1 if anchored) + sends that ended before the anchor write |
| Safety.AnchorIsFresh | internal/service/request/deployaction.go:140-149 | an anchor write stores the answer of the accepted mutate this very reconcile sent last, under a clock started by this write |
| Safety.ClearsOnlyAtTheEnd | internal/service/request/deployaction.go:169-202 | an anchor is cleared only after this reconcile's poll ended in completion, confirmed failure, or "no polling block"; never on a timeout or bad polling.url |
| Safety.AtMostOneOperation | internal/service/request/observe.go:160-186 | before identity, at every instant of every run: operations that may live = leaked ones + (1 if anchored); at most one if and only if nothing leaked (or one leaked and none is anchored) |
| NoLeaks.OnlyCreateBeforeIdentity | internal/service/request/observe.go:160-186 | a resource whose OBSERVE URLs are keyed on .status.externalRef, in every run and before identity: every mutate is a CREATE, every poll runs under a CREATE mapping of some spec of the run, every completion is reported under one |
| NoLeaks.AtMostOneLive | internal/service/request/observe.go:160-186 | for such a resource, when externalRef names what a CREATE mapping reports as completed, no CREATE mapping loses its polling block under an anchor, and CREATEs accepted before identity are anchored: at every instant before identity nothing has leaked but an operation whose anchor write comes next, and at most one may live; UPDATE and REMOVE mappings are free |
| NoLeaks.AtMostOneOnPromptTapes | internal/service/request/deployaction.go:140-149 | the same bound with hypotheses on specs, answers and tapes alone: CREATE mappings poll, no accepted request goes without its answer, and what follows an answer takes effect |
| NoLeaks.OneSpec | internal/service/request/observe.go:220-224 | for a single spec the demands on the specs are about its OBSERVE URL, its CREATE mapping and its externalRef expression, whatever its UPDATE and REMOVE mappings are |
| NoLeaks.NothingLeaks | internal/service/request/deployaction.go:110-202 | nothing leaks in a whole run, before identity or after, for any OBSERVE URL, when also the completions of UPDATE and REMOVE mappings are named by externalRef, none loses its polling block under an anchor, and all accepted polled mutates are anchored |
| Safety.EarlierOperationsEnded | internal/service/request/deployaction.go:45-49 | when a mutate goes out before identity, every earlier polled operation has ended if and only if none leaked |
| Leaks.CrashBeforeAnchorForks | internal/service/request/deployaction.go:66-73 | the hypothesis is needed: for every creatable resource a crash between the accepted CREATE and its anchor write leads to a second live CREATE |
| Leaks.BlankCompletionReopensCreate | internal/service/request/deployaction.go:407-423 | a CREATE that completes while externalRef fails or yields "" loses its anchor, and the next reconcile sends a second CREATE |
| Safety.DeletionHoldsOperation | internal/service/request/observe.go:160-186 | while deletion is requested and an anchor is set, Observe never answers not-existing |
| Safety.DeletionSafety | internal/controller/cluster/request/request.go:391-395 | over whole runs: the finalizer is dropped without anchor, and over an identity only after reported absence; no mutate goes out over an anchor or terminal; on the externalRef route every REMOVE has a non-empty externalRef |
| Safety.IdentityIsMonotone | internal/service/request/deployaction.go:413-446 | once set, externalRef never returns to empty, in any run |
| Safety.IdentityGuardsCreate | internal/service/request/observe.go:232-349 | with externalRef set, CREATE is sent only after this same reconcile's OBSERVE response was reported absent by a removed- or exists-check |
| Safety.IdentityIsEarned | internal/controller/cluster/request/request.go:252-268 | externalRef changes only by an import, from an explicit external-name into an empty field, or to a non-empty value of the externalRef expression |
| Safety.ClockPairing | internal/service/request/deployaction.go:478-512 | startedAt implies anchor in every reachable state; every poll and poll GET runs on the stored clock (the now-fallback is dead) |
| Safety.ClockStartsOnce | internal/service/request/deployaction.go:159-163 | between two clock starts, by an anchor write or a resume, lies the clearing of a terminal or of the anchor |
| SpecFlow.RunFlow | internal/controller/cluster/request/request.go:242-396 | what a run inherits: it works only with specs of the object and the tapes, anchors and completes only with answers of the tapes, deploys only CREATE before a keyed resource has an identity, and, on prompt tapes, follows every accepted polled mutate by its anchor write; its log only grows |
| Observations.ObservationIsJudged | internal/service/request/observe.go:232-393 | decision table of IsUpToDate for a resource at rest, on both paths: gone by isRemovedCheck (404 where none is set) or missing by resourceExistsCheck is absent; a broken check, or an HTTP error on the externalRef path, decides nothing; otherwise seen, in sync as expectedResponseCheck says, and stuck when out of sync without an UPDATE mapping |
| Observations.UnknownNeedsSuccess | internal/service/request/observe.go:293-349 | on the response path a resource not known to be there is absent unless OBSERVE succeeds, and then judged by the table |
| Observations.UnidentifiedIsAbsent | internal/service/request/observe.go:232-245 | no identity and an OBSERVE URL keyed on it: absent, with nothing sent |
| Observations.UnsendableObserve | internal/service/request/observe.go:194-225 | no OBSERVE mapping, a polled resource looked up by its response, a request that cannot be templated: error, stall, or absent for a resource not known to be there |
| Routes.UnclearEndsIt | internal/controller/cluster/request/request.go:270-280 | an OBSERVE answer that decides nothing ends the reconcile: nothing sent, nothing written, finalizer kept |
| Routes.AbsentIsCreatedOrReleased | internal/controller/cluster/request/request.go:270-276 | absent: CREATE is deployed, its mutate sent if it templates; under deletion the finalizer goes and nothing is sent |
| Routes.SyncedIsLeft | internal/controller/cluster/request/request.go:297-330 | present and in sync: the answer goes on record with failures reset, nothing is sent, the finalizer stays |
| Routes.DriftIsUpdated | internal/controller/cluster/request/request.go:297-362 | present and out of sync: the answer goes on record, then UPDATE is deployed and its mutate sent |
| Routes.DeletedIsRemoved | internal/controller/cluster/request/request.go:364-396 | present under deletion, in sync or not: REMOVE is deployed and the finalizer stays |
| Routes.StuckStalls | internal/service/request/observe.go:379-392 | out of sync without an UPDATE mapping: terminal for this generation, nothing sent |
| Routes.SilenceIsCounted | internal/service/request/statushandler/status.go:39-50 | a resource taken as present although OBSERVE got no answer: one more failure, nothing else |
| Routes.UnidentifiedIsCreatedOrReleased | internal/service/request/observe.go:232-245 | without identity on the externalRef route: CREATE is deployed or the finalizer goes, with no OBSERVE |
| Routes.UnknownIsCreatedOrReleased | internal/service/request/observe.go:293-330 | the same on the response route after an OBSERVE without success |
| Routes.StalledIsLeft | internal/service/request/observe.go:122-158 | a terminal of this generation sends and writes nothing; one abandoned under deletion with nothing created is released |
| Routes.InFlightIsResumed | internal/service/request/observe.go:160-186 | an operation in flight is resumed by CREATE while there is no identity, else by UPDATE, or REMOVE under deletion; nothing is sent for it |
| Routes.EditedIsNotNamed | internal/controller/cluster/request/request.go:262-268 | an import whose object was edited since the Get: the plain update is refused, and the reconcile ends without effect |
| Routes.CreateIsNotRepeated | internal/service/request/deployaction.go:73-86 | a CREATE without polling whose answer names the resource: the name is stored, and the next reconcile, on any tape, sends another CREATE only if its OBSERVE answer reports absence |
| Mutates.DeploySends | internal/service/request/deployaction.go:28-65 | on any tape a deployment sends its own mutate, once, if and only if nothing is in flight and its mapping exists and templates |
| Mutates.ReconcileSends | internal/controller/cluster/request/request.go:242-396 | on any tape a reconcile sends one mutate at most, and no CREATE over an identity at rest unless its OBSERVE answer reports absence |
| Deployments.SyncAnswered | internal/service/request/deployaction.go:73-104 | a mutate without polling, answered: identity extracted by externalRef, answer and request on record with failures counted and cache set, an HTTP error stalls if and only if isTerminalError says so, for its reason |
| Deployments.Unanswered | internal/service/request/deployaction.go:73-116 | a mutate without an answer: one more failure and a message, nothing else but an identity the empty answer may yield |
| Deployments.PolledRefused | internal/service/request/deployaction.go:118-138 | a polled mutate answered by an HTTP error: on record, never anchored, stalled if and only if isTerminalError says so |
| Deployments.PolledAccepted | internal/service/request/deployaction.go:140-169 | a polled mutate accepted: its answer anchored under a clock, then polled |
| Deployments.Resumes | internal/service/request/deployaction.go:149-169 | an operation in flight is polled and not sent; a clock that was reset starts first |
| Deployments.NothingToSend | internal/service/request/deployaction.go:33-54 | no mapping is no error, a mutate that cannot be templated is one: either way nothing is sent and nothing changes |
| Operations.PollStops | internal/service/request/polling/poller.go:104-272 | what a poll ends with, round by round: it goes on exactly while answers are not done and sleeps run out before deadline and two-minute budget, and the first other round gives the outcome; a deleted resource has no deadline |
| Operations.BadUrls | internal/service/request/polling/poller.go:120-162 | a polling.url that cannot be evaluated is an error, one that is not absolute is terminal |
| Operations.UnpolledIsOver | internal/service/request/polling/poller.go:104-116 | without a polling block the operation is complete: the anchor goes, the identity comes from the mutate answer |
| Operations.OperationEnds | internal/service/request/deployaction.go:166-251 | what each outcome leaves on record: terminal keeps the anchor, completion clears it and stores the identity, a failure is surfaced and stalls if and only if isTerminalError says so, all else changes nothing |
| Terms.LookupServes | internal/service/request/requestmapping/mapping.go:30-67 | the mapping looked up is the first of the action or, if there is none, the first of its usual method |
| Terms.TemplatedIs | internal/service/request/requestgen/request_generator.go:152-169 | the request comes from the stored response if that templates validly, else from the cache, with the mapping's method or the usual one of its action |
| Terms.UrlsIff | internal/service/request/observe.go:445-458 | the URL tests in terms of the texts that occur in the URL |
| Verdicts.PollVerdictsAreJustified | internal/service/request/polling/poller.go:188-271 | a timeout only after the deadline of an undeleted resource, a pause only after the budget, an end only on an answer of the operation that reports done, failed or completed as polling.error says |
| Verdicts.OperationFailureEnds | internal/service/request/deployaction.go:218-251 | a confirmed failure: the failing answer is on record, anchor and clock are gone, counter and identity untouched, stalled if and only if isTerminalError says so of the surfaced status |
| Verdicts.ErrorsDecideNothing | internal/service/request/observe.go:232-268 | an identified resource at rest whose OBSERVE is answered by an HTTP error that no removed-check explains: the reconcile ends there, deleted or not, with no mutate, no status change and the finalizer kept |
| TerminalStall.TerminalIsStable | internal/service/request/observe.go:122-158 | from a terminal observed at the current generation, any number of reconciles sends no HTTP and changes no status field but one externalRef seed |
| TerminalRuns.TerminalReopensIff | internal/service/request/observe.go:122-158 | a terminal of any run was recorded at some generation by the last terminal write; the next reconcile whose Get and clear succeed removes it if and only if the generation it gets exceeds that one (and the resource is not deleted with nothing created) |
| TerminalStall.SpecChangeReopens | internal/service/request/observe.go:410-422 | what the clear does: terminalError, error and startedAt go, anchor and identity stay, and IsUpToDate goes on as if no terminal had stood |
| TerminalRuns.CorrectionIsSwallowed | internal/service/request/polling/poller.go:355-373 | a correction that arrives just before the terminal write counts as observed: it is in the stored spec, yet every later run without another edit stalls without a request |
| TerminalRuns.LastTerminalWrite | internal/service/request/polling/poller.go:355-373 | a standing terminal was put there by the last terminal write of the log, at the generation on record |
| NonInterference.RouteIsInert | internal/service/request/observe.go:114-287 | two-run: with a terminal that stands, or with an operation in flight or no identity once a moved terminal is cleared, the observation and its writes are the same whatever response, cache, requestDetails, failed and error hold, and no HTTP goes out; only objects identified and not in flight are left to the next row |
| NonInterference.StoredResponseIsInert | internal/service/request/deployaction.go:345-361 | two-run over any number of reconciles: with templates and checks that do not read stored response data, those five fields change no route, no call and no routing field |
| CrashMasking.SettledRunsAgree | internal/service/request/deployaction.go:140-202 | any two runs that settle the anchored operation in time end in the same status, through any crashes and refusals, and send no mutate |
| CrashMasking.CrashesAreMasked | internal/service/request/deployaction.go:140-202 | after any crashed prefix, one undisturbed reconcile before the deadline reaches exactly the status of the crash-free run, with no mutate |
| PollBound.PollLoopGets | internal/service/request/polling/poller.go:188-271 | the GETs of one loop are an interval apart, none is after the budget nor, unless deleted, after the deadline |
| PollBound.PollGets | internal/service/request/polling/poller.go:164-272 | one Poll sends at most budget/interval + 1 GETs, none after startedAt + timeout unless the resource is being deleted |
| PollBound.AttendGets | internal/service/request/polling/poller.go:164-272 | all reconciles of one undeleted operation: GETs beyond one per reconcile are an interval apart and none follows the deadline |
| PollBound.OperationGetBound | internal/service/request/polling/poller.go:164-272 | over R reconciles of one operation, at most R + timeout/interval GETs |
| RequestMapping.LookupsAreStable | internal/service/request/requestmapping/mapping.go:51-75 | for the four actions, a lookup finds the same mapping with the same effective method after any earlier lookups, despite their SetMethod writes |
| RequestMapping.OtherActionsAreUnstable | internal/service/request/requestmapping/mapping.go:69-75 | for every action outside the four, an OBSERVE lookup changes what it finds if and only if it has no mapping of its own and the OBSERVE mapping, its method empty, precedes all GET mappings |
| RequestMapping.GetMapping | internal/service/request/requestmapping/mapping.go:51-67 | the lookup with its hidden write: the first mapping by action, else by default method; a mapping found by action gets its method filled in, nothing else changes |
| RequestMapping.GetMappingByAction | internal/service/request/requestmapping/mapping.go:40-47 | the first mapping of that action, or none exists |
| RequestMapping.GetMappingByMethod | internal/service/request/requestmapping/mapping.go:30-37 | the first mapping of that method, or none exists |
| Drift.NoSilentDrift | internal/service/request/observe.go:379-392 | whenever IsUpToDate reports drift, the following UPDATE finds a mapping, after any earlier lookups |
| TemplateCache.CacheTemplatesAll | internal/service/request/requestgen/request_generator.go:152-169 | a sound non-empty cache makes every mapping template validly, whatever response is stored |
| TemplateCache.CacheSoundness | internal/service/request/statushandler/status.go:91-113 | in every run without edits to another spec, whose templates do not read .status: after the first cache write templating never errs again |
| Controller.External.Poll | internal/service/request/polling/poller.go:104-130 | world and outcome equal Poller.Poll, of which the theorems speak |
| Controller.External.PollUntil | internal/service/request/polling/poller.go:188-271 | the clock-driven loop equals the recursive PollLoop, log included |
| Controller.External.DeployAction | internal/service/request/deployaction.go:28-202 | world and result equal Deploy.DeployAction: firing, anchoring before the first poll, resuming, finishing |
| Controller.External.HandlePollOperationFailure | internal/service/request/deployaction.go:218-251 | world and result equal Deploy.HandleOperationFailure: the failing answer surfaced, then a stall or a cleared anchor |
| Controller.External.IsUpToDate | internal/service/request/observe.go:114-213 | world and answer equal Observing.IsUpToDate: terminal gate, in-flight routing |
| Controller.External.ObserveByMapping | internal/service/request/observe.go:194-225 | world and answer equal Observing.ObserveByMapping: polled-response guard, choice of path |
| Controller.External.ObserveExternalRefDriven | internal/service/request/observe.go:232-288 | world and answer equal Observing.ObserveExternalRefDriven |
| Controller.External.ObserveResponseDriven | internal/service/request/observe.go:293-349 | world and answer equal Observing.ObserveResponseDriven |
| Controller.External.DetermineIfUpToDate | internal/service/request/observe.go:355-393 | world and answer equal Observing.DetermineIfUpToDate |
| Controller.External.HasPolling | internal/service/request/observe.go:460-467 | an early-exit scan decides whether any mapping polls |
| Controller.External.Observe | internal/controller/cluster/request/request.go:242-330 | world and answer equal Reconciling.ObserveResource: seed, observe, record |
| Controller.External.CreateOrUpdate | internal/controller/cluster/request/request.go:332-362 | world equals Reconciling.RefreshAndDeploy |
| Controller.External.Delete | internal/controller/cluster/request/request.go:364-396 | world equals Reconciling.Delete: an unidentified operation in flight is resumed through CREATE, else REMOVE is deployed |
| Controller.External.Run | internal/controller/cluster/request/request.go:242-396 | a whole run of the methods keeps a legal log, a safe book, and books that show the stored status |
| StatusWriter.RequestResource.SetRequestResourceStatus | internal/utils/set_status.go:114-136 | for every interference: success if and only if one of the five attempts is not beaten before the API server fails, and then exactly one write of ours, made by all setters on the state it overwrites; conflict if and only if all five writes were beaten in ten calls that did not fail; failure only when a call failed |
| StatusWriter.RequestResource.Rewrite | internal/service/request/deployaction.go:478-493 | get-change-store under RetryOnConflict applies the change once, to the very object it overwrites, exactly when some attempt is not overtaken before a call fails; a conflict needs five overtaken attempts, a failure a failed call |
| StatusWriter.RequestResource.TryStatus | internal/utils/set_status.go:117-130 | one attempt of it: updated exactly when the copy is at the stored version and the call succeeds; else beaten, with the local copy refetched, or failed |
| StatusWriter.RequestResource.TryRewrite | internal/service/request/deployaction.go:481-492 | one attempt of it: stored on the object just fetched, nothing to store, or no write of ours on a conflict |
| StatusWriter.RequestResource.ApplySetters | internal/utils/set_status.go:117-119 | the setters run in order on the local object |
| StatusWriter.HonestWriteIsAtomic | internal/utils/set_status.go:104-109 | for a caller that fetched first and changed nothing itself, the write is one atomic application of the setters |
| StatusWriter.RequestResource.MutateAndRecord | internal/controller/cluster/request/request.go:297-324 | a caller that mutates its copy before recording: the mutation is written if and only if our write overwrote the version fetched; once others have moved on, no write of the history holds it |
| StatusHandler.SettersAreTheChange | internal/service/request/statushandler/status.go:46-66 | the setter list of a response or error amounts to the one status change the protocol model uses |
| StatusHandler.FailuresAreCounted | internal/service/request/statushandler/status.go:46-99 | status.failed counts failures in a row: one more (on an int32) per recorded failure, from zero after a recovery, untouched otherwise; no routing field moves |
| StatusHandler.RequestStatusHandler.ShouldCache | internal/service/request/statushandler/status.go:104-113 | the early-exit loop: cache if and only if every mapping templates validly |
| StatusHandler.RequestStatusHandler.SetRequestStatus | internal/service/request/statushandler/status.go:39-67 | the appended setter list is written by the conflict-retry writer, for each of transport error, HTTP error, success and other; it succeeds exactly when an answer arrived and the writer wins |
| DisposableProofs.AttemptLedger | internal/service/disposablerequest/deployaction.go:29-70 | after any run, until synced: requests sent + phantoms = status.failed (as int32) + (1 if anchored) + lost |
| DisposableProofs.AttemptCap | internal/service/disposablerequest/deployaction.go:29-41 | with rollbackRetriesLimit L, no run sends more than L requests plus the lost ones |
| DisposableProofs.ExactAttempts | internal/service/disposablerequest/polling.go:181-238 | when status writes succeed and expectedResponse is boolean: sent = status.failed + (1 if anchored) until synced, and never more than L |
| DisposableProofs.SpentIsFinal | internal/service/disposablerequest/deployaction.go:29-41 | once synced (not looping) or at the limit, no run sends anything or changes the status |
| DisposableProofs.InFlightIsNotRefired | internal/service/disposablerequest/deployaction.go:43-50 | an anchored operation is polled, never fired again |
| DisposableProofs.SendsOnlyWhenDue | internal/controller/cluster/disposablerequest/disposablerequest.go:326-405 | a reconcile sends a trigger only for a resource that is not deleted, synced, in flight or out of retries, and whose next retry, if it has one, is due |
| DisposableProofs.PollVerdicts | internal/service/disposablerequest/polling.go:122-168 | a timeout only after the deadline, a pause only after the budget, an end only on an answer that reports it |
| DisposableProofs.UndecidableNeverStops | internal/service/disposablerequest/deployaction.go:154-158 | a failing expectedResponse expression counts no failure: n reconciles send n requests, whatever the limit |
| DisposableOutcomes.TriggerAnswered | internal/service/disposablerequest/deployaction.go:119-169 | a trigger answered: an HTTP error counts a failure; without polling expectedResponse unset or true means synced with failures reset, false counts a failure, a broken expression leaves nothing on record; with polling the answer is anchored; answer, request and time on record |
| DisposableOutcomes.TriggerUnanswered | internal/service/disposablerequest/deployaction.go:134-141 | no answer: one failure, with the request and the time on record |
| DisposableOutcomes.SecretsUnresolved | internal/service/disposablerequest/deployaction.go:74-97 | unresolved secrets: nothing is sent, one failure is counted |
| DisposableOutcomes.MovedIsNotAnchored | internal/service/disposablerequest/polling.go:60-88 | an object written since the Get: the answer is not anchored, and its operation is lost |
| DisposableOutcomes.LoopStops | internal/service/disposablerequest/polling.go:122-168 | what the poll loop ends with, round by round |
| DisposableOutcomes.OperationEnds | internal/service/disposablerequest/polling.go:103-238 | how an operation in flight ends: completion judged by expectedResponse, failure and timeout counted, anchor and clock cleared by all but a broken expression, a pause and an error; nothing is sent |
| DisposableOutcomes.BadUrls | internal/service/disposablerequest/polling.go:103-118 | a polling.url that cannot be evaluated changes nothing, one that is not absolute counts a failure and clears the anchor |
| DisposableOutcomes.UnsyncedIsDeployed | internal/controller/cluster/disposablerequest/disposablerequest.go:326-405 | an unsynced resource is deployed unless exhausted or resting until its time; a deleted one is released |
| DisposableOutcomes.SyncedIsSentAgainIff | internal/controller/cluster/disposablerequest/disposablerequest.go:405-460 | when a synced resource is sent again: if and only if it loops with retries left and its stored response fails expectedResponse (at its time, if one is set), or its time has come, or it loops without a limit |
| DisposableOutcomes.SyncedWithoutResponse | internal/service/disposablerequest/observe.go:25-56 | a synced resource without a stored response is out of date unless it waits for its time |
| DisposableOutcomes.InvalidIsNotSent | internal/controller/cluster/disposablerequest/disposablerequest.go:462-490 | an invalid method or URL is never sent |
| DisposableController.External.DeployAction | internal/service/disposablerequest/deployaction.go:23-71 | world equals Disposable.DeployAction, of which the ledger speaks |
| DisposableController.External.HandleHttpResponse | internal/service/disposablerequest/deployaction.go:119-170 | world equals Disposable.HandleResponse: HTTP errors, polling, validation |
| DisposableController.External.BeginPolling | internal/service/disposablerequest/polling.go:60-88 | world equals Disposable.BeginPolling: the anchor is written before the first poll |
| DisposableController.External.PollOperation | internal/service/disposablerequest/polling.go:122-175 | the poll loop equals the recursive PollLoop |
| DisposableController.External.DrivePolling | internal/service/disposablerequest/polling.go:103-176 | world equals Disposable.DrivePolling: the ending of each outcome |
| DisposableController.External.FinalizeSuccess | internal/service/disposablerequest/polling.go:181-214 | world equals Disposable.FinalizeSuccess: a broken expectedResponse keeps the anchor and counts nothing |
| DisposableController.External.FinalizeError | internal/service/disposablerequest/polling.go:220-238 | world equals Disposable.FinalizeError: the failure counted, the anchor cleared |
| DisposableController.External.Observe | internal/controller/cluster/disposablerequest/disposablerequest.go:326-460 | world and answer equal Disposable.ObserveDisposable |
| DisposableController.External.ValidateStoredResponse | internal/service/disposablerequest/observe.go:25-56 | no stored status code means not expected; unresolved secrets are an error; else the patched body is checked |
| DisposableController.External.Run | internal/controller/cluster/disposablerequest/disposablerequest.go:326-490 | a whole run of the methods keeps the ledger and the cap |
| Placeholders.ParseIsComplete | internal/data-patcher/parser.go:25-33 | every text of the pattern is found, with its three parts |
| Placeholders.ParseIsSound | internal/data-patcher/parser.go:25-33 | and only texts of the pattern are |
| Placeholders.ScanFlatten | internal/data-patcher/parser.go:31-33 | marking placeholders leaves the text intact |
| Placeholders.RemoveDuplicates | internal/data-patcher/parser.go:36-48 | the result is the list at increasing positions that are exactly the first occurrences: each string once, in order |
| Substitution.ReplacementIsExact | internal/data-patcher/parser.go:62-65 | one ReplaceAll fills the slots of its placeholder and touches nothing else if and only if the placeholder does not occur among the literals, or stands for itself |
| Substitution.LoopIsStepwise | internal/data-patcher/parser.go:68-87 | every intermediate text of the loop is the partial substitution if and only if no placeholder strays among the literals when its turn comes |
| Substitution.LastDecides | internal/data-patcher/parser.go:68-87 | if none strays before the last turn, the final text is the substitution if and only if the last does not stray |
| Substitution.TwoPlaceholders | internal/data-patcher/parser.go:68-87 | with two placeholders the final text is the substitution if and only if the second does not stray once the first is replaced |
| Substitution.SequentialIsSimultaneous | internal/data-patcher/parser.go:68-87 | in any order and with any repetition the loop is one simultaneous substitution, when no placeholder of the text occurs in the substituted text (or it stands for itself) |
| Substitution.NoDoubleBraceSuffices | internal/data-patcher/parser.go:68-87 | in particular when the substituted text holds no two opening braces in a row, JSON-object values included |
| Substitution.BraceFreeValuesSuffice | internal/data-patcher/parser.go:68-87 | in particular for non-empty values without braces in a text without loose double braces |
| Placeholders.PatchSecretsToValue | internal/data-patcher/parser.go:68-87 | the loop: every placeholder replaced in turn; an error if and only if some placeholder names a secret that does not exist |
| Substitution.PatchIsSubstitution | internal/data-patcher/parser.go:68-87 | under that condition the patched text is the substitution of the secrets' values |
| Substitution.BracesInValuesMakeOrderMatter | internal/data-patcher/parser.go:68-87 | a value that is the text of another placeholder makes the order matter |
| Substitution.EmptyValuesMakeNewPlaceholders | internal/data-patcher/parser.go:68-87 | an empty value can join its surroundings to the text of another placeholder |
| SecretMask.HttpResponse.ReplaceSensitiveValues | internal/data-patcher/secret_patcher.go:183-214 | masks in place: the body is the same pieces joined by the quoted placeholder instead of the quoted value, no piece holding it; every header text likewise, unquoted; a JSON-object value goes by the tree replacement or else as bare text; for any key order |
| SecretMask.ReplaceAllReplaces | internal/data-patcher/secret_patcher.go:202-214 | strings.ReplaceAll: the text splits at the occurrences of the pattern into pieces without it, and the result joins them by the replacement |
| SecretMask.PatchIsStepwise | internal/data-patcher/parser.go:68-87 | patching replaces the placeholders one after another, each once, in the order they occur first, by what the secrets hold (empty for a missing key) |
| SecretMask.JsonObjectsLookLikeIt | internal/data-patcher/secret_patcher.go:262-266 | isJSONObject: between blanks, an opening and a closing brace |
| SecretMask.Secret.UpdateData | internal/data-patcher/secret_patcher.go:159-175 | a found value is stored under its key; a missing one preserves, empties or deletes the key; no other key is touched |
| SecretMask.MaskUndone | internal/data-patcher/secret_patcher.go:202-214 | after masking a text without placeholders, the only placeholders are the masks, and replacing them gives the text back |
| SecretMask.TextRoundTrip | internal/data-patcher/secret_patcher.go:176-214 | one text, masked and patched with the secret that holds the value, is unchanged |
| SecretMask.ResponseRoundTrip | internal/data-patcher/secret_patcher.go:159-214 | body and headers come back exactly, for every simple value stored under its key |
| JsonMask.WalkAndReplace | internal/data-patcher/secret_patcher.go:239-260 | for every map order: ok if and only if some object subtree equals the target, and then the result is the input with exactly one topmost such subtree replaced; otherwise the input |
| JsonMask.HasHitIffOccurs | internal/data-patcher/secret_patcher.go:239-260 | the recursive search finds a hit if and only if some path leads to a subtree that equals the target |
| JsonMask.MaskingIsLocal | internal/data-patcher/secret_patcher.go:239-260 | masking changes that node only, and putting the target back restores the tree |

## Left out

- Conditions, events, logging, label and annotation sync, owner references, messages of terminal errors (constants here).
- HTTP transport, TLS, token sources, auth merging: a request is one interaction with an answer or none.
- gojq, JSON encoding and duration parsing; URL validation is reduced to an http(s) scheme with a non-empty host.
- The managed reconciler's own writes (finalizer, external-create annotations) and its rate limiting; one reconcile at a time per object.
- The namespaced controllers, which are copies of the same machines.
- The cache's lastUpdated field, and secret injection into responses before they are anchored or recorded.
- Secrets that change between two templatings of one request; the disposable model does let secrets fail to resolve.
- A mapping's filled-in method is not part of the jq context of the model; the real context holds the whole spec.
- Time passes at interactions only: a clock check and the GET that follows it happen at the same instant. The clock of a retried status write is read once.
- Mutates without a polling block are in the log but not in the operation ledger, which is about anchors.
- Safety.AtMostOneOperation: counts every mutate sent through a polling mapping, not CREATE alone; before identity this is the stronger bound.
- CrashMasking.CrashesAreMasked: assumes no edits or deletion while the operation is in flight, a stable final answer, and polling expressions that do not read the stored response; an operation anchored over an identity needs an UPDATE mapping.
- NonInterference.StoredResponseIsInert: templates, checks and expressions that read response, cache, requestDetails, failed or error are excluded; with them the two runs may differ.
- Routes.AbsentIsCreatedOrReleased: like the other rows of Routes, Observations, Deployments, Operations and DisposableOutcomes, says what happens when nobody edits the resource meanwhile and the named calls succeed; under edits, refusals and crashes the run theorems apply.
- NoLeaks.AtMostOneLive: is about resources keyed on externalRef; others are covered by Safety.AtMostOneOperation and, under demands on all their mutate mappings, NoLeaks.NothingLeaks.
- NoLeaks.AtMostOneOnPromptTapes: asks a polling block of every CREATE mapping and promptness of every answered request on a tape; NoLeaks.AtMostOneLive asks less, on the log: no block removed under an anchor, and accepted mutates before identity anchored.
- SecretMask.ResponseRoundTrip: simple values only, one mapping at a time; a JSON-object value is re-marshaled by the body replacement (JsonMask) and does not come back byte for byte.
- JsonMask.WalkAndReplace: works on values; the original updates maps and slices of a freshly parsed tree in place, where no aliasing exists.
- Trimming considers ASCII white space only.
- Liveness of deletion, of nextReconcile retries, and of an anchor created over an identity without an UPDATE mapping: the code does not guarantee these.
- Recursion into maps and slices when patching specs (patchSecretsInMap, patchSecretsInSlice) and isSecretDataUpToDate, syncMap: easy members.
