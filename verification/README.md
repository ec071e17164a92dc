# Verification model of Cyrene Exchange

Exchange is an OpenAI-compatible gateway with a durable Product store. This
project models four of its parts in Dafny and proves what they promise over all
inputs, all timings and whole runs.

* **The request machine.** The chat and embeddings handlers try a bounded number
  of route candidates. A provider is an arbitrary finite script of chunks that
  ends normally, with an error or with a cancellation. The cancellation event is
  an oracle read anew at every check. An observer callback may fail at any call,
  and the consumer of a stream may leave after any item. `Capabilities` (usage
  reports), `Assembly` (tool-call assembly), `Lifecycle` (callbacks),
  `Streaming` (the generator) and `Gateway` (unary collection, fallback, the
  handler) hold the methods and their specification functions; `AssemblyLaws`,
  `StreamLaws`, `StreamReports` (how a stream ends and what its events carry),
  `Fallback` (what the loop does with what providers do), `GatewayLaws` and
  `HandlerLaws` (whole handler runs over the router's plan) the theorems.
* **The durable store.** `AuditLedger` and `LedgerLaws` join the gateway's
  callbacks to audit rows and billing events, for one run and for any
  interleaving of runs. `RouteStore` and `RouteRuns` model route drafts with
  optimistic versions, grants and the idempotency ledger; every service command
  is split into the steps between which other requests may act. `Credentials`
  is the table of operator credentials and API keys, `CredentialLaws` what a
  token resolves to over its runs.
* **The authorization/cloud worker.** `DrainBarrier` is the two-thread protocol
  of shutdown (gate, flag, stop event); `ClaimRunner` is the worker's cycle
  against a table of fenced claims.
* **Normalisation, media and planning.** `Values`, `Base64` and `Protocol`
  normalise a payload; `Projection` and `ProjectionLaws` project it onto the
  plugin contract, and `PayloadLaws` follows each member from the wire to the
  plugin; `Media` and `MediaLaws` resolve artifact references within
  the byte budget; `Routing` is what a router may see and the plan it makes,
  which `PlanLaws` spells out;
  `ScopeSignature` is the canonical form of a repository scope.
  `Prelude` and `Sorting` are shared.

Code that updates state is modelled by classes and loops, each method proved
equal to a function of its inputs and the old state; the theorems are about
those functions. Where the source calls something it does not contain (a
provider, an observer, a router, SHA-256, `fnmatchcase`) the model takes an
arbitrary function.

`dafny verify dfyconfig.toml` checks the whole project.

## Where the code differs from its documentation

* "Exactly one terminal outcome" has two exceptions, and `ExactlyOneTerminalReport`
  says they are the only ones: a stream whose body is never advanced, and a
  reached provider that itself raises the gateway's lifecycle error before the
  first chunk, which the handler re-raises without a report
  (`LeftUnreportedExactly`).
* An edit compares the stored version with the one in the command, not with the
  one it read. `EditCanDemoteActiveRoute` gives a trace in which an active route
  returns to draft; `EditDemotesIff` says exactly when a commit does that, and
  `EditOverwritesWhatItReadIff` when an edit is applied to the row it read.
* A revoked API key does not stay revoked if an operator configures its token
  under its reference again: the row is enabled, and revoking the key a second
  time has no effect because it is already marked revoked
  (`RevokedKeyCanComeBack`; `RevokingStopsExactly` says exactly when a
  revocation works, `StoppedStaysStopped` what a caller can rely on).
* Streamed and unary answers agree on the finish reason unless the last one the
  provider sent is the empty string (`StreamedEqualsUnary`).
* A normalised request may still be undeliverable to a plugin: mixed text and
  typed messages, unknown message fields and an explicit null schema are
  accepted by the normaliser and refused by the projection (`DeliveredExactly`).
  Unknown members of tools, in contrast, are dropped (`ToolExtrasAreDropped`).
* A malformed payload is not always refused: a message role or part type that is
  a list or an object raises Python's type error inside a set lookup, which the
  handler does not map to a refusal. `TypeErrorExactly` gives the exact
  condition, `HashablePayloadsNeverBreak` what a caller can check, and
  `UnhashableRoleEscapes` and `UnhashablePartTypeEscapes` one payload of each kind.
* The check against duplicate repository targets compares whole rows
  (`RepeatedRepositoryIsAccepted`).

## Model

| member | source | states |
|---|---|---|
| Capabilities.MergeChunkUsage | src/cyrene_exchange/gateway.py:1356-1389 | the loop over chunks yields the merge of their usage reports |
| Capabilities.MergeIsMonoid | src/cyrene_exchange/gateway.py:1356-1377 | merging usage is associative, with absent usage as identity on both sides |
| Capabilities.MergeAllSplits | src/cyrene_exchange/gateway.py:1277-1300 | running usage of a stream and usage of the whole answer agree on every split of the chunks |
| Capabilities.MergeAllIsLastKnown | src/cyrene_exchange/gateway.py:1356-1377 | each merged field is the last fact any chunk reported for it: nothing is invented, nothing forgotten |
| Capabilities.UnknownIffNoFacts | product/src/cyrene_exchange_product/store.py:1196-1213 | the stored completeness class is unknown exactly when the usage holds no fact, the condition under which no billing event exists |
| Capabilities.UsageOnlyGrows | product/src/cyrene_exchange_product/store.py:1196-1213 | along a stream the class only moves unknown, partial, final, and a known fact stays known |
| Assembly.ToolCallAccumulator.Merge | src/cyrene_exchange/gateway.py:394-415 | a fragment is taken exactly when its index and identity fit; then the accumulator is extended by it, else nothing of the call changes |
| Assembly.MergeChunk | src/cyrene_exchange/gateway.py:1391-1412 | the accumulators of a dictionary follow the fragments seen so far without aliasing |
| Assembly.AssembleMessage | src/cyrene_exchange/gateway.py:1391-1412 | the loop assembles the message that `MessageIsWhatWasSent` describes, or reports the conflict |
| Assembly.AssemblySucceedsIffConflictFree | src/cyrene_exchange/gateway.py:394-415 | assembly fails exactly when two fragments of one index name different ids or types, wherever they are |
| Assembly.AccumulatorsRemember | src/cyrene_exchange/gateway.py:379-438 | an accumulator holds the identity of some fragment of its index, and of every fragment that names one |
| AssemblyLaws.MessageIsWhatWasSent | src/cyrene_exchange/gateway.py:1391-1412 | an assembled message read off the chunks: the first role sent or the default; the joined text, or none when it is empty and there are calls; one call for each index by increasing index, with the identity its fragments name and their names and their arguments each joined, absent exactly when none was sent |
| AssemblyLaws.FinishIsWhatWasSent | src/cyrene_exchange/gateway.py:1206-1211 | the finish reason is the last non-empty one sent, else it tells whether any chunk had tool calls |
| Streaming.StreamBody | src/cyrene_exchange/gateway.py:1240-1354 | items, exit and callbacks of the generator for every script, cancellation timing and abandonment point |
| Streaming.PumpChunks | src/cyrene_exchange/gateway.py:1270-1301 | the loop over chunks, up to cancellation, close or the last chunk |
| Streaming.FinishStream | src/cyrene_exchange/gateway.py:1302-1335 | default finish, trailing usage, terminal commit and only then the closing marker |
| Streaming.CloseStream | src/cyrene_exchange/gateway.py:1336-1354 | the terminal report of a run that did not commit |
| StreamLaws.LocalsMeaning | src/cyrene_exchange/gateway.py:1270-1301 | what the generator's flags mean in terms of the chunks consumed |
| StreamLaws.NoUsageLeftOver | src/cyrene_exchange/gateway.py:1318-1328 | the trailing usage-only event can never be emitted |
| StreamLaws.ExactlyOneReport | src/cyrene_exchange/gateway.py:1240-1354 | a stream advanced at least once makes exactly one terminal report, carrying the usage of exactly the chunks delivered; one never advanced makes none |
| StreamLaws.DoneMeansCommitted | src/cyrene_exchange/gateway.py:1329-1335 | the closing marker is yielded exactly when the completed report was accepted, last, after it and after all chunks |
| StreamLaws.UsageOnlyOnChunkEvents | src/cyrene_exchange/gateway.py:1296-1328 | usage appears on chunk events only, and at most two items follow the chunks |
| StreamLaws.UndisturbedStream | src/cyrene_exchange/gateway.py:1270-1335 | the items of a stream nobody disturbs |
| StreamReports.CancelledBeforeChunk | src/cyrene_exchange/gateway.py:1336-1354 | a cancellation seen before a chunk ends the stream cancelled after the items already sent, with the usage of the chunks delivered |
| StreamReports.ClosedAfterChunk | src/cyrene_exchange/gateway.py:1336-1354 | a consumer that closes after a chunk leaves a failed report, or a cancelled one if the event is set at that moment; the error type follows a second read of the event |
| StreamReports.EndsAfterChunks | src/cyrene_exchange/gateway.py:1302-1354 | how a stream ends whose chunks were all taken: cancelled, failed, closed on the default finish event or completed, each with its error type, items and exit, exactly when |
| StreamReports.EventCarriesItsChunk | src/cyrene_exchange/gateway.py:1277-1301 | every event carries the role, text, calls and finish reason of its chunk, and exactly when usage is wanted and known, the last known facts so far with a derived total |
| StreamLaws.FoldFollowsChunks | src/cyrene_exchange/capabilities.py:67-84 | a client that folds the events holds after each event what the chunks so far say |
| StreamLaws.StreamedEqualsUnary | src/cyrene_exchange/gateway.py:1172-1335 | the folded stream is the unary message, or the unary path has no answer exactly on a conflicting identity; the finish reasons agree exactly when the last one sent is not empty |
| Gateway.CollectResponse | src/cyrene_exchange/gateway.py:1172-1238 | unary collection with its cancellation checks and error mapping |
| Gateway.MakeAttempt | src/cyrene_exchange/gateway.py:672-738 | what resolving and invoking one candidate yields |
| Gateway.SettleAttempt | src/cyrene_exchange/gateway.py:715-757 | the report that follows each way an attempt ends, and whether the next candidate is tried |
| Gateway.TryCandidate | src/cyrene_exchange/gateway.py:644-760 | one candidate: cancellation check, admission, attempt, report |
| Gateway.TryCandidates | src/cyrene_exchange/gateway.py:644-760 | the loop over candidates equals the recursive specification |
| Gateway.HandleRequest | src/cyrene_exchange/gateway.py:487-760 | the whole chat handler, each preflight refusal included |
| Gateway.HandleAdmitted | src/cyrene_exchange/gateway.py:528-643 | the part of the handler after authentication and quota |
| Gateway.ResolveAndTry | src/cyrene_exchange/gateway.py:619-760 | media verdict, then the candidates |
| HandlerLaws.PlanIsTriedInOrder | src/cyrene_exchange/gateway.py:592-760 | for every handler run: callback by callback, admissions and reports alternate along the router's plan from its first entry, never beyond the configured number of attempts, each with the route, provider, model and principal of that entry, each failure with its provider's own error type and usage |
| HandlerLaws.OutcomeFollowsPlan | src/cyrene_exchange/gateway.py:644-760 | an answer, an opened stream, an unreported attempt or a failure of all names the entry of the plan where the run ended, the entries before which failed, and the provider's own answer |
| HandlerLaws.FirstHealthyOfPlanAnswers | src/cyrene_exchange/gateway.py:592-760 | undisturbed, entry k of the plan answers or streams exactly when the request passes every check, k is below the number of attempts, k is healthy and every earlier entry fails; all fail exactly when each entry that may be tried does |
| HandlerLaws.NothingIsTriedUnchecked | src/cyrene_exchange/gateway.py:513-640 | a candidate is admitted only for an authenticated request within its quota that parses, is permitted, has a plan and has its media; any other makes at most one callback, a refusal |
| HandlerLaws.RefusalTable | src/cyrene_exchange/gateway.py:513-640 | what a request that is turned away is told, once: the first check it fails decides the error type, and what is not yet known of the request is left out |
| GatewayLaws.FallbackDiscipline | src/cyrene_exchange/gateway.py:592-760 | the loop over the candidates: a later one only after every earlier one was reported failed; a failure report means that the provider failed or refused, with its own error type and usage; the candidate that answers, or whose stream is opened, responds by its own script after every earlier one failed (`HandlerLaws` says this of the router's plan) |
| Fallback.FirstHealthyAnswers | src/cyrene_exchange/gateway.py:644-760 | undisturbed, a request is answered by, or its stream opened on, a candidate exactly when it is healthy and every earlier one fails; the answer is the one its script makes |
| Fallback.AllFailedExactly | src/cyrene_exchange/gateway.py:759-760 | undisturbed, a request fails for want of candidates exactly when every one fails |
| Fallback.GivenUpExactly | src/cyrene_exchange/gateway.py:644-757 | the exact condition, read by read and callback by callback, under which a candidate is given up for the next one |
| Fallback.AnsweredExactly | src/cyrene_exchange/gateway.py:707-716 | under any cancellations and observer failures, the exact condition for an answer by a given candidate, read off its script and the reads of the event, and its body |
| Fallback.OpenedExactly | src/cyrene_exchange/gateway.py:687-706 | the exact condition for a stream opened on a given candidate: its first chunk exists, so no fallback follows a chunk |
| Fallback.LeftUnreportedExactly | src/cyrene_exchange/gateway.py:736-737 | an admitted attempt is left unreported exactly when its candidate is reached and its provider raises the lifecycle error before a first chunk |
| Fallback.ReportsAreTrue | src/cyrene_exchange/gateway.py:715-757 | each report of a candidate is read off its provider's script: failed with its error type and usage, completed with its answer's usage, cancelled only after a cancellation and with the usage known by then; only a reported failure is followed by another candidate |
| Fallback.AttemptTells | src/cyrene_exchange/gateway.py:672-757 | what the result of an attempt says about its provider, embeddings included |
| Fallback.CollectResult | src/cyrene_exchange/gateway.py:1172-1238 | a unary answer arises exactly from a complete, conflict-free script in which no check saw a cancellation, a failure exactly from an unanswerable one, and a cancellation carries the usage of the chunks collected |
| GatewayLaws.ExactlyOneTerminalReport | src/cyrene_exchange/gateway.py:644-760 | admissions and terminal reports pair up one to one in order, none follows a failed admission, a failed callback is never retried, except exactly when a reached provider raises the lifecycle error before a first chunk, or a stream is opened and never advanced |
| GatewayLaws.PendingExactly | src/cyrene_exchange/gateway.py:687-737 | those two cases as conditions on the plan, the provider scripts, the event and the replies |
| GatewayLaws.WellBehavedProvidersArePaired | src/cyrene_exchange/gateway.py:736-737 | if no planned provider raises the lifecycle error before its first chunk, only an unread stream breaks the pairing |
| GatewayLaws.HandleObeysLaw | src/cyrene_exchange/gateway.py:487-760 | at most two callbacks per attempt and one more |
| AuditLedger.AuditStore.BeginRequest | product/src/cyrene_exchange_product/store.py:955-992 | one in-flight row per request id, else nothing changes |
| AuditLedger.AuditStore.RecordRejection | product/src/cyrene_exchange_product/store.py:994-1030 | inserts a terminal row unless the id is known |
| AuditLedger.AuditStore.FinishRequest | product/src/cyrene_exchange_product/store.py:1032-1080 | only an in-flight row takes an outcome |
| AuditLedger.AuditStore.ListActiveActivityTasks | product/src/cyrene_exchange_product/store.py:1093-1101 | reports exactly the rows in flight |
| AuditLedger.RequestAuditRecorder.OnRequestStarted | product/src/cyrene_exchange_product/audit.py:44-58 | the admission callback as a ledger step |
| AuditLedger.RequestAuditRecorder.OnRequestFinished | product/src/cyrene_exchange_product/audit.py:60-88 | the row is finished before the billing event is sent; only a known usage is billed |
| AuditLedger.RequestAuditRecorder.OnRequestRejected | product/src/cyrene_exchange_product/audit.py:90-113 | the rejection callback as a ledger step |
| LedgerLaws.RequestsFollowProtocol | src/cyrene_exchange/gateway.py:470-471 | with one attempt allowed, every request follows the protocol fresh, busy, over |
| LedgerLaws.LedgerRefinement | product/src/cyrene_exchange_product/audit.py:44-113 | a run leaves exactly one row for its id and alters no other; the row has, column by column, the plan's first candidate, the principal and the reported outcome and usage, or the refusal, and a bill exists exactly for known facts; the row is terminal except in the two cases in which the run never reports its end |
| LedgerLaws.RecorderAnswersFaithfully | product/src/cyrene_exchange_product/audit.py:44-113 | whatever its ledger holds, the recorder can answer every run as the ledger theorems suppose |
| LedgerLaws.DoneMeansCommittedRow | product/src/cyrene_exchange_product/store.py:1032-1080 | when the client sees the closing marker the row is completed, carries the usage of all chunks, and the bill has the same counts |
| LedgerLaws.OnlyOwnersAlterRows | product/src/cyrene_exchange_product/store.py:955-1080 | no step of any interleaving alters a row another run inserted, or a terminal row |
| LedgerLaws.WorldStaysConsistent | product/src/cyrene_exchange_product/audit.py:60-88 | over all interleavings at most one bill per request, equal to its terminal row in counts, source, model, actor and workspace |
| LedgerLaws.RowsAreFinal | product/src/cyrene_exchange_product/store.py:1032-1080 | rows never disappear, change owner or change after their outcome |
| LedgerLaws.ActiveTasksAreBusyRuns | product/src/cyrene_exchange_product/store.py:1093-1101 | the reported tasks are exactly the requests of runs still busy |
| RouteStore.ExchangeStore.CreateRouteDraft | product/src/cyrene_exchange_product/store.py:282-383 | grant checks, replay, and insertion with its ledger entry in one mutation that restores both tables on failure |
| RouteStore.DraftErrorsExactly | product/src/cyrene_exchange_product/store.py:282-383 | exactly when a draft is refused with which error, and what is answered otherwise |
| RouteStore.ExchangeStore.ReplaceRouteVersion | product/src/cyrene_exchange_product/store.py:456-480 | compare-and-swap on the version of one route |
| RouteStore.ExchangeProductService.EditRouteDraft | product/src/cyrene_exchange_product/service.py:325-340 | an edit by the draft's owner applies the commanded pattern, binding, model and priority to the row it read and swaps against the commanded version |
| RouteStore.ExchangeProductService.ConfirmRouteDraft | product/src/cyrene_exchange_product/service.py:342-373 | a confirmation succeeds exactly under its checks; the row it leaves is active, one version on and otherwise the draft; it fails with the error of the first obstacle |
| RouteStore.ReadDraftExactly | product/src/cyrene_exchange_product/service.py:375-436 | exactly whose drafts a principal may edit or confirm, and which error everything else gets |
| RouteRuns.VersionNamesOneDocument | product/src/cyrene_exchange_product/store.py:456-480 | over every run versions never fall, origin never changes, and an equal version means an equal document |
| RouteRuns.StepMoves | product/src/cyrene_exchange_product/store.py:456-480 | every step moves a route by at most one version |
| RouteRuns.ValidatedDraftGoesLive | product/src/cyrene_exchange_product/service.py:342-373 | in every interleaving a committed activation replaces exactly the draft that was validated, and changes nothing of it but its state and version |
| RouteRuns.ConfirmCommitsIffUnchanged | product/src/cyrene_exchange_product/service.py:438-481 | a confirmation commits exactly when the validated draft is still current |
| RouteRuns.EditOverwritesWhatItReadIff | product/src/cyrene_exchange_product/service.py:325-340 | a committed edit overwrites the row it read exactly when it commanded that version |
| RouteRuns.EditAppliesTheCommand | product/src/cyrene_exchange_product/service.py:325-340 | in every interleaving a committed edit leaves the commanded pattern, binding, model and priority under the next version, and everything else as it was read |
| RouteRuns.ActiveStaysFrozen | product/src/cyrene_exchange_product/service.py:325-398 | when edits name the version they read, an active row never changes by edit or confirm |
| RouteRuns.ActivatedAtMostOnce | product/src/cyrene_exchange_product/service.py:342-373 | when edits name the version they read, a route is activated at most once |
| RouteRuns.EditDemotesIff | product/src/cyrene_exchange_product/service.py:325-340 | in every interleaving a committed edit returns an active row to draft exactly when the row has the commanded version, which is then not the one the edit read |
| RouteRuns.EditCanDemoteActiveRoute | product/src/cyrene_exchange_product/service.py:325-340 | such a run exists: a concrete trace |
| RouteRuns.DraftsAreCreatedOnce | product/src/cyrene_exchange_product/store.py:596-615 | over all interleavings of retries one draft per scope and key; equal digests get its id, other digests conflict, the absent-route error never occurs |
| RouteRuns.CreateStep | product/src/cyrene_exchange_product/service.py:185-323 | a draft is inserted exactly when its key is new and its grants hold at that step, with the fields of the command and the owner of the credential; a replay changes nothing |
| Credentials.CredentialStore.ConfigureCredentials | product/src/cyrene_exchange_product/store.py:648-699 | succeeds exactly when the list fits the table, whatever its order; on conflict everything is rolled back |
| Credentials.FitsOneMore | product/src/cyrene_exchange_product/store.py:648-699 | the check before one upsert decides whether the list extended by it still fits |
| Credentials.ConfigureBindsAllOrNothing | product/src/cyrene_exchange_product/store.py:648-699 | either every listed token is bound to its principal's row, or the table is unchanged |
| Credentials.CredentialStore.DisableCredential | product/src/cyrene_exchange_product/store.py:701-711 | disables one enabled row and nothing else |
| Credentials.CredentialStore.CreateApiKey | product/src/cyrene_exchange_product/store.py:713-767 | one key and its replay identity, or the key created before, or a conflict |
| Credentials.CredentialStore.RevokeApiKey | product/src/cyrene_exchange_product/store.py:788-809 | revocation keeps the row; a second one changes nothing |
| Credentials.ResolutionIsUnambiguous | product/src/cyrene_exchange_product/store.py:811-914 | a token resolves to at most one identity, and an API key never to a control identity |
| CredentialLaws.ResolvesExactly | product/src/cyrene_exchange_product/store.py:811-914 | exactly which row a token resolves to in each of the three queries: its own, enabled, unexpired, of the kind the plane admits |
| CredentialLaws.EnablingExactly | product/src/cyrene_exchange_product/store.py:648-809 | exactly which operation enables or disables a credential |
| CredentialLaws.DisablingStops | product/src/cyrene_exchange_product/store.py:701-711 | after disabling a credential no token resolves to it, on either plane and at any time |
| CredentialLaws.RevokingStopsExactly | product/src/cyrene_exchange_product/store.py:788-809 | revoking a key stops it exactly when its row was not marked revoked before |
| CredentialLaws.RevokedKeyCanComeBack | product/src/cyrene_exchange_product/store.py:679-690 | a revoked key whose token is configured again resolves, and a second revocation has no effect: a concrete trace |
| CredentialLaws.StoppedStaysStopped | product/src/cyrene_exchange_product/store.py:648-809 | over every run a disabled or revoked credential never resolves again unless a configuration names it |
| CredentialLaws.LiveStaysLive | product/src/cyrene_exchange_product/store.py:648-809 | over every run a live credential stays enabled, with its token and expiry, until it is disabled or its key revoked |
| CredentialLaws.CreatedKeyResolves | product/src/cyrene_exchange_product/store.py:713-767 | a new key resolves to its own principal and nothing else until its expiry, never on the control plane, and no other row changes |
| CredentialLaws.ConfiguredTokenResolves | product/src/cyrene_exchange_product/store.py:648-699 | a newly configured token resolves on the control plane, and on the data plane exactly when it is a gateway token |
| CredentialLaws.KeysAreCreatedOnce | product/src/cyrene_exchange_product/store.py:727-767 | after any later run the same creation request replays the same key, and another request under its idempotency key conflicts |
| Credentials.TableGrowsOneToOne | product/src/cyrene_exchange_product/store.py:648-809 | over every run references and digests correspond one to one and no reference is ever rebound |
| DrainBarrier.DrainIsABarrier | product/src/cyrene_exchange_product/integrations/authorization_cloud.py:219-242 | once begin_drain returned true, no step of any interleaving claims or admits; at most one admitted call is in flight |
| DrainBarrier.FlagAloneAllowsOne | product/src/cyrene_exchange_product/integrations/authorization_cloud.py:219-242 | once the flag is set at most one further claim or admission happens, and one can happen exactly when a gate section had found the flags clear |
| DrainBarrier.TimedOutDrainIsNoBarrier | product/src/cyrene_exchange_product/integrations/authorization_cloud.py:219-233 | that state is reached by a drain that times out: a concrete trace |
| DrainBarrier.NormalStopMeansExited | product/src/cyrene_exchange_product/server.py:1178-1197 | a normal return of stop_runner means the worker has exited for good |
| ClaimRunner.EveryClaimSettledOnce | product/src/cyrene_exchange_product/integrations/authorization_cloud.py:286-595 | in a disciplined history every claim is settled exactly once by an operation of its own kind and fence, store failures excepted |
| ClaimRunner.SettlementsBelongToClaims | product/src/cyrene_exchange_product/integrations/authorization_cloud.py:286-595 | every settlement belongs to a claim that was open |
| ClaimRunner.SettlementNamesOneClaim | product/src/cyrene_exchange_product/integrations/store.py:3726-3810 | fences being fresh, a settlement names exactly one claim of the whole history |
| ClaimRunner.SendDiscipline | product/src/cyrene_exchange_product/integrations/authorization_cloud.py:532-595 | an email is sent only right after its mark; what was not sent is released, an answer of unknown effect is finished as unknown and never released, trusted evidence is recorded as it says |
| ClaimRunner.UnknownIsNeverReleased | product/src/cyrene_exchange_product/integrations/authorization_cloud.py:445-473 | a refresh is recorded succeeded exactly when it was observed in scope, every other answer as unknown, and none is released |
| ClaimRunner.ObservationsAreReal | product/src/cyrene_exchange_product/integrations/authorization_cloud.py:330-375 | a healthy observation is recorded only right after the call that made it |
| ClaimRunner.UndisturbedJobs | product/src/cyrene_exchange_product/integrations/authorization_cloud.py:286-595 | the exact operations of each undisturbed job, script by script |
| ClaimRunner.CycleOrder | product/src/cyrene_exchange_product/integrations/authorization_cloud.py:244-272 | an undisturbed cycle is the monitor, the refresh and the email, in this order |
| ClaimRunner.CycleCountsJobs | product/src/cyrene_exchange_product/integrations/authorization_cloud.py:244-272 | the result of an undisturbed cycle counts each job that was found once, as done, given back or of unknown effect |
| ClaimRunner.IntegrationStore.ClaimJob | product/src/cyrene_exchange_product/integrations/store.py:3726-3810 | claims one due job under a fresh fence |
| ClaimRunner.AuthorizationCloudRunner.ClaimUnderGate | product/src/cyrene_exchange_product/integrations/authorization_cloud.py:291-300 | no claim once a flag is seen |
| ClaimRunner.AuthorizationCloudRunner.RunAuthorizationChecks | product/src/cyrene_exchange_product/integrations/authorization_cloud.py:286-375 | keeps the discipline on every path; undisturbed, it makes exactly the specified operations |
| ClaimRunner.AuthorizationCloudRunner.RunCloudRefresh | product/src/cyrene_exchange_product/integrations/authorization_cloud.py:377-481 | likewise for the cloud refresh, with its counts |
| ClaimRunner.AuthorizationCloudRunner.RunEmailNotification | product/src/cyrene_exchange_product/integrations/authorization_cloud.py:483-595 | likewise for the email, with its counts |
| ClaimRunner.AuthorizationCloudRunner.MarkThenSend | product/src/cyrene_exchange_product/integrations/authorization_cloud.py:532-595 | a failed mark ends the job quietly; otherwise the send is settled by its answer and counted by what became of it, whatever fails |
| ClaimRunner.AuthorizationCloudRunner.RunOnce | product/src/cyrene_exchange_product/integrations/authorization_cloud.py:244-272 | one cycle keeps the discipline; undisturbed, its operations and its result are those of the three jobs |
| ClaimRunner.AuthorizationCloudRunner.RunForever | product/src/cyrene_exchange_product/integrations/authorization_cloud.py:274-284 | every history of the worker is disciplined and its fences are fresh; none starts after a seen flag; an undisturbed one is the cycles in turn |
| Base64.RoundTrip | src/cyrene_exchange/protocol.py:217-230 | decoding undoes the encoding of section 4 of RFC 4648 |
| Base64.AlphabetExactly | src/cyrene_exchange/protocol.py:217-230 | the alphabet is that of table 1 of RFC 4648 |
| Base64.QuadIsBigEndian | src/cyrene_exchange/protocol.py:217-230 | four digits are the 24 bits of three bytes, highest first |
| Base64.DecodesExactly | src/cyrene_exchange/protocol.py:217-230 | exactly which texts decode: whole groups of digits, of which only the last may be padded |
| Base64.TestVectors | src/cyrene_exchange/protocol.py:217-230 | the test vectors of section 10 of RFC 4648 |
| Base64.EncodedLength | src/cyrene_exchange/protocol.py:217-230 | four characters for each started group of three bytes |
| Base64.DecodedLength | src/cyrene_exchange/protocol.py:217-230 | three bytes for each group, at most two fewer |
| Base64.GateIsSafe | src/cyrene_exchange/protocol.py:217-222 | every text whose bytes are within the limit passes the length gate |
| Base64.GateIsTight | src/cyrene_exchange/protocol.py:217-222 | alone the gate admits the limit rounded up to whole groups, one byte more for 20 MiB, and that many do pass |
| Protocol.NormalizeInline | src/cyrene_exchange/protocol.py:217-230 | inline media is accepted exactly when it decodes, is not empty and fits; the gate never decides |
| Protocol.NormalizeMedia | src/cyrene_exchange/protocol.py:188-257 | a media part is accepted exactly when it is well formed and fits the running budget |
| Protocol.NormalizeContentPart | src/cyrene_exchange/protocol.py:169-257 | text and media parts, with the byte counter threaded through |
| Protocol.NormalizeToolCalls | src/cyrene_exchange/protocol.py:132-166 | tool calls in order, arguments exactly as they came |
| Protocol.NormalizeMessage | src/cyrene_exchange/protocol.py:260-304 | one message with its parts, names and tool calls |
| Protocol.NormalizeTool | src/cyrene_exchange/protocol.py:54-92 | one tool, its schema and other members kept |
| Protocol.FromOpenai | src/cyrene_exchange/protocol.py:332-396 | the whole payload, or the failure of the first offending part |
| PayloadLaws.PartAcceptedExactly | src/cyrene_exchange/protocol.py:169-257 | exactly which content parts are accepted, member by member |
| PayloadLaws.MessageAcceptedExactly | src/cyrene_exchange/protocol.py:260-304 | exactly which messages are accepted: roles, content, names and tool calls |
| PayloadLaws.PayloadAcceptedExactly | src/cyrene_exchange/protocol.py:332-396 | exactly which payloads are accepted, given their messages: model, settings and tools |
| Values.StripExactly | src/cyrene_exchange/protocol.py:44-51 | stripping removes white space at both ends and nothing else |
| Values.Utf8SizeExactly | src/cyrene_exchange/protocol.py:290-291 | the encoded size of a text is the sum over its characters, one to four bytes each |
| Protocol.TypeErrorExactly | src/cyrene_exchange/protocol.py:169-304 | a payload raises a type error instead of being refused exactly when, with everything before it accepted, a message role or a reached part type cannot be looked up in a set |
| Protocol.HashablePayloadsNeverBreak | src/cyrene_exchange/protocol.py:188-271 | if all roles and part types can be looked up, no payload raises it |
| Protocol.UnhashableRoleEscapes | src/cyrene_exchange/protocol.py:270-272 | a payload with a list for a role raises it |
| Protocol.UnhashablePartTypeEscapes | src/cyrene_exchange/protocol.py:183-189 | a payload with an object for a part type raises it |
| Projection.ToMessage | src/cyrene_exchange/direct_plugin.py:505-561 | the text projection of one message |
| Projection.ToMessageV3 | src/cyrene_exchange/direct_plugin.py:457-502 | the typed projection of one message |
| Projection.ToRequest | src/cyrene_exchange/direct_plugin.py:351-411 | the text projection of a request |
| ProjectionLaws.V3IffTyped | src/cyrene_exchange/direct_plugin.py:429-435 | version 3 is required exactly when some message of the payload has typed parts |
| ProjectionLaws.TextProjectionExact | src/cyrene_exchange/direct_plugin.py:351-411 | the text projection accepts exactly the payloads with known message fields, no explicit null schema and no typed parts |
| ProjectionLaws.V3ProjectionExact | src/cyrene_exchange/direct_plugin.py:438-503 | the typed projection accepts exactly those in which, in addition, every message has typed parts |
| ProjectionLaws.DeliveredExactly | src/cyrene_exchange/direct_plugin.py:164-165 | an accepted payload can be delivered exactly when it is expressible and all or none of its messages are typed |
| ProjectionLaws.TextIsCarried | src/cyrene_exchange/direct_plugin.py:505-561 | a delivered message has the role, text and names of the payload |
| ProjectionLaws.ArgumentsAreCarried | src/cyrene_exchange/direct_plugin.py:527-553 | tool calls are delivered in number and order with their exact arguments |
| PayloadLaws.SettingsAreCarried | src/cyrene_exchange/direct_plugin.py:384-411 | model, streaming, temperature, token limit, tool choice, parallel calls and usage reach the plugin with the payload's values, and absent ones stay absent |
| PayloadLaws.ToolsAreCarried | src/cyrene_exchange/direct_plugin.py:351-383 | tools are delivered in number and order with their names, descriptions, schemas and strictness |
| PayloadLaws.PartsAreCarried | src/cyrene_exchange/direct_plugin.py:457-502 | typed parts are delivered in number and order, text as it is, media with its decoded bytes or its reference, under the role and names of their message |
| ProjectionLaws.ToolExtrasAreDropped | src/cyrene_exchange/direct_plugin.py:353-383 | unknown members of a tool's function leave no trace |
| ProjectionLaws.StructuredExactlyWhenNeeded | src/cyrene_exchange/direct_plugin.py:414-426 | version 2 is chosen exactly when the projected request has something version 1 lacks |
| Media.MediaResolver.ResolveReference | src/cyrene_exchange/gateway.py:1022-1056 | one reference: two checks of the event, the resolver, and every test of its answer |
| Media.MediaResolver.ResolveParts | src/cyrene_exchange/gateway.py:1011-1056 | the inner loop over parts |
| Media.MediaResolver.ResolveRequest | src/cyrene_exchange/gateway.py:998-1061 | the outer loop over messages |
| MediaLaws.AcceptedWithinBudget | src/cyrene_exchange/protocol.py:216-230 | all decoded media of an accepted payload together are within the limit |
| MediaLaws.ResolvedWithinBudget | src/cyrene_exchange/gateway.py:1003-1055 | whatever the resolver answers, all media of a resolved request together are within the limit |
| MediaLaws.ResolutionKeepsShape | src/cyrene_exchange/gateway.py:1005-1061 | messages and parts keep number, order and fields; no reference remains; the bytes are an answer for the referenced id with the MIME type the reference names, of the recorded size and digest and not empty |
| MediaLaws.ResolvesExactly | src/cyrene_exchange/gateway.py:998-1061 | with a steady resolver and no cancellation, resolution succeeds exactly when every reference can be honoured and everything fits |
| MediaLaws.InterruptedOnlyByCancellation | src/cyrene_exchange/gateway.py:1022-1056 | a resolution is reported cancelled only if somebody cancelled; every other failure is the artifact's |
| MediaLaws.PlainRequestsPass | src/cyrene_exchange/gateway.py:1012-1020 | a request without references is unchanged and asks neither the event nor the resolver |
| MediaLaws.ResolutionKeepsDelivery | src/cyrene_exchange/direct_plugin.py:429-503 | resolution never decides whether an accepted request can be delivered |
| Routing.RequestForRouting | src/cyrene_exchange/gateway.py:333-360 | the loops build the router's view |
| Routing.ViewExact | src/cyrene_exchange/gateway.py:333-360 | two requests have the same view, hence the same candidates from any router, exactly when they differ at most in media bytes of equal length, artifact ids and file names |
| PlanLaws.RouterSees | src/cyrene_exchange/gateway.py:333-360 | what a router is shown of each part: text as it is, media by its type, MIME type and length or the presence of a reference, nothing else |
| Routing.PlanIsExact | product/src/cyrene_exchange_product/routing.py:68-94 | the plan lists exactly the matching live routes of the scope, by priority and id, each once |
| Routing.PlanIsUnique | product/src/cyrene_exchange_product/store.py:482-527 | contents and order leave no other list |
| PlanLaws.PlanForPrincipal | product/src/cyrene_exchange_product/routing.py:48-94 | the plan for a principal, target by target: binding, id and model of exactly the active matching routes it may use, by priority and id, each once |
| Routing.ScopesAreDisjoint | product/src/cyrene_exchange_product/routing.py:48-66 | plans of different scopes share no route |
| Routing.ActivationAddsOneRoute | product/src/cyrene_exchange_product/store.py:456-527 | confirming a draft leaves every other entry of every plan in place and adds its route exactly to the matching plans of its own endpoint and scope |
| ScopeSignature.HfScopeSignature | product/src/cyrene_exchange_product/cli.py:731-765 | the loop over rows, the duplicate check and the final sort |
| ScopeSignature.SignatureIsCanonical | product/src/cyrene_exchange_product/cli.py:731-765 | accepted scopes, in either spelling, have equal signatures exactly when they differ at most in the order of rows and of permissions within rows |
| ScopeSignature.AcceptedExactly | product/src/cyrene_exchange_product/cli.py:738-764 | a scope is accepted exactly when its rows are and no two say the same |
| ScopeSignature.RowExactly | product/src/cyrene_exchange_product/cli.py:741-762 | exactly which rows are accepted in either spelling, what entry each becomes, and when one raises Python's type error |
| ScopeSignature.SignatureSays | product/src/cyrene_exchange_product/cli.py:731-765 | the signature has one entry for each row, saying what the row says, in order |
| ScopeSignature.RepeatedRepositoryIsAccepted | product/src/cyrene_exchange_product/cli.py:763-764 | one repository listed twice with different permissions is accepted |
| Sorting.SortCanonical | product/src/cyrene_exchange_product/cli.py:762-765 | sorting by a total order is a canonical form for the elements of a sequence |
| Sorting.SortedUnique | product/src/cyrene_exchange_product/cli.py:762-765 | order and elements determine a sorted sequence |
| Sorting.StringLeExactly | product/src/cyrene_exchange_product/cli.py:762-765 | the order on strings is lexicographic |

## Left out

- HTTP, SSE and gRPC transport, JSON and protobuf encoding, logging and redaction: I/O without state of its own. Tool schemas are carried as objects, so their JSON text and a schema that cannot be serialised are not modelled.
- SQL, schema migration and documents: tables are maps and each mutation block is one atomic method that restores the tables when it fails.
- Timestamps, credential expiry as wall-clock time, quota thresholds and usage-window arithmetic: they add single comparisons only; the time of a resolution is a parameter.
- Hashing: idempotency scopes, token digests and artifact digests are taken as arbitrary functions or values; distinct idempotency scopes are taken not to collide, and server-generated ids may repeat (the insert then fails).
- Gateway.HandleRequest: the verdict of media resolution and its number of reads of the event are inputs here, so the handler theorems hold for every verdict; `Media` models resolution itself. The embeddings handler shares the model, with an embedding provider in place of a chat provider and nothing to resolve.
- Gateway.MakeAttempt: the request handed to a provider is not modelled beyond the model and stream flags; its projection is `Projection`.
- Streaming.StreamBody: a consumer that throws into the generator is modelled only as closing it.
- RouteStore.ExchangeProductService: draft creation by the service is the `Create` step of `RouteRuns`; listing, reading and the non-atomic creation of endpoints and routes are not part of this model.
- RouteRuns.ActiveStaysFrozen: the creation of an active route without a draft exists in the model for fresh ids only; rewriting an existing row by an upsert is not part of this model.
- Credentials: scopes and names of API keys, and the service's checks before creating one, are not part of this model.
- ClaimRunner.AuthorizationCloudRunner.RunAuthorizationChecks: the batch size is the configured 1, so the loop over claims has one turn; notification texts and dedupe keys written with a monitor result are not part of this model.
- ClaimRunner.AuthorizationCloudRunner.RunForever: idle waiting is not modelled, and the number of cycles is a parameter, so the result covers every finite history.
- ClaimRunner.IntegrationStore: lease expiry and a second worker are not modelled; a job left over after a failed mark is recovered by lease expiry in the store. A failing recipient lookup counts as a failed store operation.
- DrainBarrier: timeouts are nondeterministic choices; the runner's configuration check and the reported state strings are not part of this model.
- Protocol.FromOpenai: lone surrogates in strings and integers too large for a float raise other exceptions in the source; here such strings do not exist and such integers are refused as out of range. Error texts are not modelled, only whether the failure is a refusal or Python's own type error.
- Base64.Decode: surplus padding after a complete group, which some Python versions let pass, is refused as section 4 of RFC 4648 has it.
- Projection.ToRequest: the validation inside the contract package's own data classes is not part of this model.
- Routing.PlanIsExact: the SQL query is a set of rows put in order; `fnmatchcase` is an arbitrary predicate.
- AuditLedger.RequestAuditRecorder.OnRequestStarted: the optional managed-activity wrapper (audit.py:51-58), which may refuse an admission before the row is written, belongs to a runtime SDK and is not part of this model; the recorder here has none configured.
- AuditLedger.RequestAuditRecorder.OnRequestFinished: likewise for the wrapper around the terminal write (audit.py:82-85), which may fail after the row is committed.
- AuditLedger.AuditStore.ListActiveActivityTasks: the order of the reported tasks is not modelled.
