# RelayLab: a verified model of its retries, crashes and stale reads

RelayLab runs experiments through a coordinator that calls a durable runner, keeps a receipt of every attempt, and lets
people review runs over a live-updating list. This project models the parts of it whose correctness depends on
interleavings, crashes and encodings, and proves what the code is for. To check it:
`dafny verify dfyconfig.toml`, Dafny 4.11.

How the files fit together:

- **Ledger and lease.** `Lease` is a state machine of any number of runner processes over the guard file and the lease
  file, one file-system call per step, with crashes and I/O errors anywhere and process ids that are used again.
  `LeaseHost` is the start-up code itself, proved to take those steps while others interfere between any two calls.
  `Ledger` holds the executions table and its statements, `Runner` the handlers of one process as functions on its
  memory, `RunnerAnswers` what its callers get, `RunnerApp` the handlers as they run, and
  `RunnerWorld` all of it together: lease, rows and runners.
- **Requests and encodings.** `JsonNumber`, `JsonString` and `Json` are printing and parsing of JSON (RFC 8259) with its
  round trip; `CanonicalJson` is the canonical form; `Protocol` is validation, fingerprint, stored results and the
  classifier; `Identity` is headers, ids and operation identities.
- **Coordinator.** `Coordinator` is the attempt protocol, `CoordinatorService` the request handler, `Channel` the gRPC
  connection, and `System` composes coordinator, a lossy network and `RunnerWorld`.
- **Baseline dependency.** `Downstream` is the JSON-RPC exchange of both sides, `DownstreamService` the handler over a
  lifetime, and `Baseline` the coordinator on this transport, a lossy network, restarts of the dependency and anything
  else that may answer in its place.
- **Reviews.** `ReviewStore` is the schema and its statements, `ReviewRepository` the repository object, `ReviewQuery`
  the two list queries, `ReviewTable` the table as a client sees it, `ReviewHub` the subscribers and the sender loop,
  `ReviewService` the service, `LiveSocket` the browser's socket, `ReviewClient` the workspace's variables, `ReviewLive`
  one whole session, `LiveSafety`, `LiveConvergence`, `LiveRows`, `LiveExact`, `LiveForgotten`, `LiveRecovery` and
  `LiveExpiry` what is proved of it, and `LiveWatch` the browser's socket and the session together.

Every machine has the same form: a state, an action for each atomic step, a total `Next` in which a step that is not
enabled changes nothing, and theorems about `Run` over every sequence of actions. Where the program updates an object in
place there is a class whose methods are proved to take the machine's steps. Statements are all-or-nothing; clocks,
generated ids, storage faults, deadlines and the behaviour of the network are parameters of the actions, so the theorems
hold for all of them. Owner ids, execution ids and subscriptions are new when they are generated. Text of the runner's
protocol is a sequence of UTF-16 units; numbers are finite decimals with one zero.

Where the code and its documentation or a hoped-for property differ, the code is kept:

- A runner whose new process has the process id of the dead owner refuses the lease, because its own id counts as alive
  (`LeaseHost.SoloOutcome` gives the exact condition).
- Overlapping requests for one key can leave a timeout receipt after a settled one (`Coordinator.OverlapBreaksShape`,
  reached by `Coordinator.OverlapLosesSettledReceipt`); without overlap the settled receipt is final
  (`Coordinator.SettledReceiptIsFinal`).
- The comment at server/src/app.ts:114-117 says that work sent again still runs once. On the JSON-RPC transport that
  holds if and only if no two lifetimes of the dependency are reached by requests for the key
  (`Baseline.ExecutedOnceIffReachedOnce`); after a restart the next unsettled retry runs it again
  (`Baseline.RestartRunsAgain`, with the shortest run in `Baseline.SameRequestRunsTwice`). On the runner it holds over
  every run (`RunnerWorld.WorkBeginsAtMostOnce`).
- The pattern for a session's header is matched by .NET, whose dollar sign also admits a final newline: such a text is
  accepted, and revoking with it leaves the session there (`ReviewService.Service.Revoke` gives the exact condition).
- A live read that fails while a foreground operation runs is forgotten: nothing is reported and nothing is read again.
  A session at rest is current or the failure was reported, except exactly when an operation began or ended during that
  read and a review has moved since it was received (`LiveExact.CurrentOrReported`); `LiveForgotten.ForgottenFailure` is
  a run in which that happens, and `LiveExact.RefreshHeals` says that a refresh repairs every such session.
- An opener whose guard cannot be removed fails although its lease is written, and a release that fails is swallowed;
  either leaves the lease of a live process, which refuses the next opener. `Lease.LeaseIsLetGo` says that only this or
  the end of the process leaves a lease.
- A storage fault while a job completes leaves a RUNNING row without work, which answers ABORTED until a restart;
  `RunnerWorld.CloseLeavesOnlyLost` says that those rows are exactly the ones a close leaves RUNNING.

## Model

| member | source | states |
|---|---|---|
| Lease.NextKeepsInv | runner/src/store.ts:22-57 | every file-system call, fault, crash, start and close keeps the ownership invariant, whoever takes it |
| Lease.MutualExclusion | runner/src/store.ts:22-57 | over every run at most one opener has the ledger, and the lease on disk names it |
| Lease.LeaseRemovedOnlyByOwnerOrAfterDeath | runner/src/store.ts:41-51 | a lease disappears only by a step of its living owner or after that owner's death |
| Lease.LeaseIsLetGo | runner/src/store.ts:24-27 | over every run an opener that stops having the ledger has removed its lease if and only if the removing call succeeded, and leaves it as written if and only if the process ended or a removing call failed |
| Lease.GuardIsLetGo | runner/src/store.ts:54-56 | likewise for the guard: it is gone if and only if the removing call succeeded |
| Lease.SecondAttemptSucceeds | runner/src/store.ts:35-53 | an opener that removed a stale lease always creates its own at the second attempt |
| LeaseHost.HolderIsAlone | runner/src/store.ts:22-57 | whoever holds the ledger holds it alone, with its own lease on disk |
| LeaseHost.Host.CreateExclusive | runner/src/store.ts:32-37 | exclusive creation under interference: success means this opener's empty file exists, EEXIST on the lease only at the first attempt |
| LeaseHost.Host.WriteFile | runner/src/store.ts:33-38 | the opener's file holds its own record, or writing or closing failed, the file holds nothing, part or all of that record, and the opener moves to its clean-up |
| LeaseHost.Host.ReadLeaseFile | runner/src/store.ts:42-50 | a read returns the lease as it stands or fails, and the opener's next step follows |
| LeaseHost.Host.Signal | runner/src/store.ts:43-49 | the liveness check fails with ESRCH exactly for a process that is gone, and only then the opener goes on |
| LeaseHost.Host.RemoveStale | runner/src/store.ts:50-51 | the stale lease is removed and the second attempt follows, or the opener gives up |
| LeaseHost.Host.IsOwnFile | runner/src/store.ts:24-27 | reading a file back finds it still this opener's own unless the read fails, and the opener's next call follows |
| LeaseHost.Host.UnlinkOwnFile | runner/src/store.ts:24-27 | when it succeeds the file is gone from disk, when it fails the opener's own file is still there and the opener ends; it fails exactly for an I/O error |
| LeaseHost.Host.RemoveGuard | runner/src/store.ts:54-56 | it succeeds if and only if the guard is gone, exactly without an I/O error; start-up goes on only if the lease was acquired |
| LeaseHost.Host.AcquireLease | runner/src/store.ts:35-53 | the bounded loop ends holding the guard, with the lease acquired or refused |
| LeaseHost.Host.AcquireOwnership | runner/src/store.ts:28-57 | guard, lease and guard removal end ready to open the database, or holding nothing |
| LeaseHost.Host.OpenExecutionStore | runner/src/store.ts:19-84 | whatever everyone else does, the opener ends with the ledger alone and its own lease on disk, or refused with nothing, or dead |
| LeaseHost.Host.Release | runner/src/store.ts:24-27 | every error is swallowed; afterwards the lease is gone if neither call met an I/O error, and otherwise it is on disk as this opener wrote it |
| LeaseHost.Host.CloseStore | runner/src/store.ts:98 | after close this process no longer has the ledger, and its lease is gone exactly unless releasing it met an I/O error |
| LeaseHost.SoloOutcome | runner/src/store.ts:28-57 | an opener running alone gets the ledger if and only if there is no guard and no lease of a live process; otherwise every file is as it was |
| LeaseHost.SoloExaminesLease | runner/src/store.ts:40-51 | from an existing lease, the reclaim path succeeds exactly for a readable lease of a dead process |
| LeaseHost.SoloCloses | runner/src/store.ts:98 | closing alone without an I/O error removes the lease and leaves the files free |
| LeaseHost.SoloReopens | runner/src/store.ts:19-98 | after such a close the next opener, in the same process or another, gets the ledger |
| JsonNumber.NumberReadsBack | runner/src/app.ts:17 | every finite number, printed as JavaScript prints it, parses back to itself before any delimiter |
| JsonNumber.NotationIsExact | runner/src/app.ts:17 | a number is written with an exponent if and only if its magnitude is below 1e-6 or at least 1e21 |
| JsonString.StringReadsBack | runner/src/app.ts:16-17 | every UTF-16 text, escaped by JSON.stringify, parses back to itself, lone surrogates included |
| JsonString.PlainIsKept | runner/src/app.ts:16-17 | a text without quotes, backslashes, control characters and surrogates is quoted as it is |
| Json.ParseStringify | runner/src/app.ts:33 | JSON.parse of what JSON.stringify printed is the same value, member order included |
| Json.StringifyIsSendable | server/src/runner-client.ts:56 | the text of every value is well-formed UTF-16 without control characters, so a payload or result with lone surrogates crosses a UTF-8 channel unchanged |
| CanonicalJson.CanonicalIsSorted | runner/src/app.ts:14-18 | the recursive canonical text is the plain text of the value with the members of every object sorted |
| CanonicalJson.BeforeIsExact | runner/src/app.ts:16 | keys are ordered by the first UTF-16 unit that differs, a prefix first |
| CanonicalJson.SortedUnique | runner/src/app.ts:16 | the sorted order of an object's distinct keys is unique |
| CanonicalJson.CanonicalExact | runner/src/app.ts:14-18 | two values have the same canonical text if and only if they are equal up to member order at every depth |
| Protocol.Validate | runner/src/app.ts:29-34 | an accepted request has a known behaviour and a payload text that parses to a JSON object |
| Protocol.Utf8LengthCounts | runner/src/app.ts:31 | the byte length is one per unit, one more from 0x80 and from 0x800, less two per surrogate pair |
| Protocol.FingerprintExact | runner/src/app.ts:35-38 | the fingerprints of two requests agree if and only if reference and behaviour are the same and the payloads equal up to member order, numbers being compared as exact decimals |
| Protocol.AcceptedResultIsAccepted | server/src/runner-client.ts:72-74 | the result a finished job stores is accepted for every payload that differs from its own in member order only |
| Protocol.CompletedJobClassified | server/src/runner-client.ts:69-80 | through the JSON round trip a healthy or slow job is classified success, unavailable downstream_error and malformed invalid_response |
| Protocol.SuccessIsBacked | server/src/runner-client.ts:69-77 | an arbitrary reply counts as a success if and only if it is a well-formed COMPLETED execution for this operation and experiment whose stored result is accepted, for this experiment, at an instant, with an echo whose canonical text is the payload's |
| Protocol.FailureIsReported | server/src/runner-client.ts:69-77 | an arbitrary reply counts as a failure of the work if and only if such an execution says so and stored an error text; every other reply is a success or invalid |
| Identity.OperationIdInjective | server/src/runner-client.ts:52 | operation ids determine namespace, experiment and key although keys may contain colons |
| Identity.ExperimentRefInjective | server/src/runner-client.ts:53 | experiment references determine namespace and experiment |
| Identity.ParsedIdPrintsBack | server/src/app.ts:21-23 | an accepted path id is positive and prints back as the same text |
| Identity.PrintedIdParses | server/src/app.ts:21-23 | every id of at most fifteen digits is accepted as it is printed |
| Identity.HeaderReadsBack | server/src/app.ts:16-19 | a header text with white space around it is read as that text if it is an accepted value, and otherwise not at all |
| Identity.AcceptedIsRead | server/src/app.ts:16-19 | every accepted header value is read as itself, whatever white space is around it |
| Identity.ReferencesWithinRunnerLimits | server/src/runner-client.ts:19 | every accepted namespace and path id makes, with any key or exchange id of at most 80 units, references within the limits of 200 and 80 units |
| Ledger.ExecutionStore.RecoverRunning | runner/src/store.ts:76-79 | no RUNNING row is left, every other row is untouched and no identity changes |
| Ledger.ExecutionStore.Start | runner/src/store.ts:87-92 | an existing row is never overwritten; without a fault the new row is RUNNING; a failed read-back leaves the row |
| Ledger.ExecutionStore.Complete | runner/src/store.ts:93-97 | only a RUNNING row changes, and the row as it then stands is returned |
| Ledger.RecoveredFaithful | runner/src/store.ts:76-79 | after recovery each row's fingerprint, identity and result still belong to the request it was made for |
| Ledger.RecoveryIsExact | runner/src/store.ts:76-79 | recovery gives exactly the RUNNING rows the state INTERRUPTED, the time and a note that reads back as an error, and keeps every other field and row |
| Runner.ExecuteRunKeepsOk | runner/src/app.ts:28-64 | a call keeps rows, works and pending map consistent, advances rows only, replies only with stored COMPLETED rows, and starts a job only for an operation without a row |
| Runner.ExecuteRunJob | runner/src/app.ts:35-47 | a reply or a wait is always for this operation under this request's own fingerprint |
| Runner.ExecuteRunFaithful | runner/src/app.ts:35-51 | a new row is faithful to its request and no call makes another row unfaithful |
| Runner.FinishKeepsOk | runner/src/app.ts:52-61 | the end of a job keeps the memory consistent; without a fault nothing is lost |
| Runner.FinishFaithful | runner/src/app.ts:54-58 | the stored outcome and result are the ones the job's behaviour calls for |
| RunnerAnswers.NewRequestIsAnswered | runner/src/app.ts:28-64 | without a fault every valid request for a new operation starts its job, and its caller is answered with a COMPLETED record, with the ids and times given, that the coordinator classifies as the behaviour calls for |
| RunnerAnswers.InvalidRequestsAreRefused | runner/src/app.ts:29-34 | a call is refused as invalid if and only if the runner is not closing and the request breaks one of the literal limits on ids, reference, behaviour or payload |
| RunnerAnswers.OrdinaryRequestsAreValid | server/src/runner-client.ts:52-56 | every request the coordinator makes for an accepted namespace, path, key and exchange id is valid if its payload is within 64000 units and bytes |
| RunnerAnswers.ClosingRefusesCalls | runner/src/app.ts:76 | a call is refused as unavailable if and only if the runner is closing, and then nothing changes |
| RunnerAnswers.StorageFailuresAreInternal | runner/src/app.ts:66-72 | a valid call fails as internal at once if and only if a statement of the ledger failed, and a new operation's job begins in every other case |
| RunnerAnswers.ChangedRequestsAreRefused | runner/src/app.ts:35-38 | exactly the requests whose reference, behaviour or payload value differ from the stored one are refused, numbers being compared as exact decimals; reordered members are not a change |
| RunnerAnswers.RetriesGetTheRecord | runner/src/app.ts:37-46 | a retry of a completed operation gets the stored record, at once or from the pending promise, unless reading it back had failed |
| RunnerAnswers.RetriesAfterDrop | runner/src/app.ts:63 | once the settled promise of a completed operation has left the map every retry is answered at once with the stored record; an unsettled one stays |
| RunnerAnswers.LookupGetsTheRecord | runner/src/app.ts:79-87 | a lookup of a stored operation is answered with its row |
| RunnerAnswers.InterruptedIsAborted | runner/src/app.ts:39-46 | a retry is refused as needing inspection if and only if the operation was interrupted by a restart or a storage fault left it RUNNING with nobody awaiting it; while a job is pending the retry waits for it |
| RunnerApp.App.constructor | runner/src/store.ts:76-81 | after start-up no row is RUNNING and the memory is empty |
| RunnerApp.App.Accept | runner/src/app.ts:48-62 | the handler's insertion and registration are the step of the model, faults included |
| RunnerApp.App.Dispatch | runner/src/app.ts:36-47 | the handler's branches on the existing row are the step of the model |
| RunnerApp.App.ExecuteRun | runner/src/app.ts:75-78 | the handler up to its first await is the step of the model, keeps the invariant, and replies only with COMPLETED rows |
| RunnerApp.App.Store | runner/src/app.ts:58-60 | storing a job's result is the step of the model |
| RunnerApp.App.FinishWork | runner/src/app.ts:52-61 | the rest of the job body is the step of the model and leaves no unfinished work for the operation |
| RunnerApp.App.DropPending | runner/src/app.ts:63 | the pending entry is removed only after its promise has settled |
| RunnerApp.App.Respond | runner/src/app.ts:66-77 | a waiting call gets the outcome of its promise |
| RunnerApp.App.GetExecution | runner/src/app.ts:79-87 | a lookup changes nothing and answers the stored row, NOT_FOUND without one, and its own error while closing, for a bad id and for a storage fault |
| RunnerApp.App.BeginClose | runner/src/app.ts:96-98 | closing only sets the flag |
| RunnerApp.App.ReadyToClose | runner/src/app.ts:99-101 | when the store is let go, the RUNNING rows are exactly those a storage fault left behind |
| RunnerWorld.OneRunner | runner/src/store.ts:20-21 | while a runner is open no other process is opening, open or closing |
| RunnerWorld.NobodyRunsDuringRecovery | runner/src/store.ts:76-79 | when recovery runs no runner is open |
| RunnerWorld.NextKeepsInv | runner/src/app.ts:28-103 | every step of every process keeps the whole invariant and only advances rows |
| RunnerWorld.WorkBeginsAtMostOnce | runner/src/app.ts:36-63 | across retries, crashes and restarts a job's body starts at most once for an operation |
| RunnerWorld.RecoveryInterruptsOnlyDeadWork | runner/src/store.ts:76-79 | recovery marks a row INTERRUPTED only when no process has live work for it |
| RunnerWorld.RowsWriteOnce | runner/src/store.ts:76-97 | over every run rows only appear or advance once, keeping identity, fingerprint and reference |
| RunnerWorld.RepliesAgree | runner/src/app.ts:36-63 | all successful replies for an operation, before and after restarts, are the same COMPLETED record |
| RunnerWorld.InterruptedNeverReplies | runner/src/app.ts:39 | once an operation is INTERRUPTED no call for it is ever answered with an execution |
| RunnerWorld.RunKeepsFaithful | runner/src/app.ts:35-58 | over every run each row belongs to the request it was made for |
| RunnerWorld.CloseLeavesOnlyLost | runner/src/app.ts:96-102 | at the moment of closing a row is RUNNING if and only if a storage fault lost it |
| RunnerWorld.FaultlessLosesNothing | runner/src/app.ts:52-63 | without storage faults nothing is ever lost |
| RunnerWorld.GracefulRestart | runner/src/app.ts:96-102 | without storage faults a graceful close leaves no RUNNING row, and the next start-up interrupts none |
| Coordinator.FindRunByKey | server/src/database.ts:285-291 | the receipt found is one for the experiment and key, and none is found only if there is none |
| Coordinator.OnlySettledKeysAreReplayed | server/src/app.ts:114-130 | a request does not call the runner if and only if it has a key whose newest receipt is a success, a failure of the work or an invalid response; after a timeout or an unreachable runner it calls |
| Coordinator.ReceiptsInOrder | server/src/database.ts:285-291 | over every run receipts are kept in the order of their ids, each id once |
| Coordinator.DeletionIsExact | server/src/database.ts:293-296 | deletion takes the experiment and its receipts and nothing else |
| Coordinator.DeletionSplits | server/src/database.ts:293-296 | deletion keeps the other receipts in their order |
| Coordinator.DeletedForEver | coordinator-dotnet/Services/ExperimentService.cs:30-31 | a deleted experiment never returns, and no answer that arrives later leaves a receipt for it |
| Coordinator.NextKeepsShape | server/src/app.ts:118-195 | without overlap, every step keeps each key's history unsettled entries followed by at most one settled entry |
| Coordinator.NewestIsSettled | server/src/database.ts:285-291 | in such a history the receipt found by key is the settled one whenever there is one |
| Coordinator.SettledReceiptIsFinal | server/src/app.ts:118-130 | once a settled receipt exists every later request for the key is answered with it and calls no runner |
| Coordinator.OverlapBreaksShape | server/src/app.ts:118-195 | from every overlap of two requests for a key, any settling answer followed by an unsettled end leaves a settled receipt that is not the newest, so the runner is called again |
| Coordinator.OverlapIsReached | server/src/app.ts:118-195 | from an empty desk one experiment and two requests with one key are such an overlap |
| Coordinator.OverlapLosesSettledReceipt | server/src/app.ts:118-195 | that run breaks the history as soon as the first answer settles and a deadline ends the second |
| CoordinatorService.CorrelationId | server/src/downstream-rpc.ts:42-44 | the exchange id is always a UUID |
| CoordinatorService.ExchangeIdIsKept | server/src/downstream-rpc.ts:42-44 | a caller's UUID, with white space around it or not, is kept in lower case; any other header gets the new id |
| CoordinatorService.ExperimentService.Execute | server/src/app.ts:104-198 | one request: not found, replayed without any change, or exactly begin, everything others did meanwhile, and this attempt's receipt, appended last, for the operation named by experiment and key, or by the exchange without a key |
| CoordinatorService.ExperimentService.Append | coordinator-dotnet/Services/ExperimentService.cs:30-31 | the receipt gets the next id, and none is stored for an experiment deleted during the call |
| System.RowAnswers | server/src/runner-client.ts:69-80 | a COMPLETED row with this request's fingerprint is classified by what the experiment's behaviour calls for |
| System.AnswerClassified | server/src/runner-client.ts:69-80 | whatever answer reaches a waiting request, it is for its own operation and classified as expected |
| System.NextKeepsInv | server/src/app.ts:118-195 | every step of coordinator, network and runners keeps the composed invariant |
| System.OneExecutionBehindManyAttempts | server/src/app.ts:118-195 | all success receipts with one operation id carry the same completed execution, and the ledger still holds it |
| System.OperationIsExperimentAndKey | server/src/runner-client.ts:52 | over every run two requests that were sent are for one operation if and only if they are for one experiment and one key, an exchange without a key counting as its own |
| System.WorkOfKeyBeginsOnce | server/src/runner-client.ts:52 | over every run the work of one experiment and key begins at most once, whoever sends it and however often |
| System.OneExecutionBehindAKey | server/src/app.ts:118-195 | all success receipts of one experiment and key carry one execution |
| System.SuccessEchoesThePayload | server/src/runner-client.ts:72-75 | over every run a success receipt carries a completed execution whose echo is the saved experiment's payload |
| System.FailuresAreExact | server/src/runner-client.ts:58-67 | over every run a receipt without an execution is a timeout exactly for DEADLINE_EXCEEDED, unreachable exactly for UNAVAILABLE, and a failure for every other status |
| System.OrdinaryRequestsAreNotRefused | runner/src/app.ts:29-34 | a request that was sent for an accepted path, key and exchange, with a payload within limits, is never refused as invalid |
| System.InterruptedNeverSucceeds | runner/src/app.ts:37-46 | an operation interrupted by a restart has no success receipt then or later |
| System.ReceiptsAreHonest | server/src/runner-client.ts:51-80 | every answered receipt has the outcome its experiment calls for, and success only for healthy or slow ones |
| Channel.CallsUseTheOpenChannel | server/src/runner-client.ts:25-40 | the active-call count is the number of calls in flight, all on the current channel, which is open unless closed explicitly |
| Channel.NeverShutUnderACall | server/src/runner-client.ts:32-36 | only an explicit close shuts a channel that a call is using |
| Channel.IdleCallUsesHealthyChannel | coordinator-dotnet/Services/RunnerGateway.cs:34-58 | a call that starts from idle never uses a channel on which a call was UNAVAILABLE |
| Channel.OnlyFailedChannelsAreReplaced | server/src/runner-client.ts:32-36 | over every run a channel is replaced if and only if the last call in flight ends while open and some call on that channel was UNAVAILABLE |
| Channel.Connection.Start | server/src/runner-client.ts:27-29 | a call gets the current open channel unless the connection is closed |
| Channel.Connection.Finish | server/src/runner-client.ts:29-38 | the callback counts down and replaces the channel exactly when idle after an UNAVAILABLE |
| Channel.Connection.Close | server/src/runner-client.ts:50 | closing shuts the current channel |
| Downstream.RequestReadsBack | server/src/downstream-rpc.ts:36-56 | every request the coordinator builds is accepted by the dependency and read as it was meant |
| Downstream.ReplyClassified | server/src/downstream-rpc.ts:63-86 | what the work did is what the coordinator records, under whatever id the caller chose |
| Downstream.SameReplySameVerdict | server/src/downstream-rpc.ts:63-86 | one reply re-enveloped for two callers is classified identically |
| Downstream.VerdictIsExact | server/src/downstream-rpc.ts:63-86 | success exactly for an acceptance of this experiment without an error, downstream_error exactly for an error report without a result and with its code, each of version 2.0 and under the expected id; both together are invalid, as section 5 of the JSON-RPC 2.0 Specification requires |
| Downstream.RefusalsAreExact | downstream/src/app.ts:79-103 | a body is accepted if and only if it is an envelope for the one method whose parameters describe a request; otherwise it gets -32600, -32601 or -32602, each exactly for its own reason and under the right id |
| Downstream.ErrorCodes | downstream/src/app.ts:79-108 | the four error codes are the numbers of section 5.1 of the JSON-RPC 2.0 Specification and -32001 |
| Downstream.CacheKeyInjective | downstream/src/app.ts:126-128 | two experiments never share a cache entry, whatever their keys contain |
| DownstreamService.NextKeepsInv | downstream/src/app.ts:79-145 | every arrival, resolution and response keeps cache, work and callers consistent |
| DownstreamService.ExecutedOnce | downstream/src/app.ts:106-137 | however calls interleave, each experiment and key is executed once in a lifetime |
| DownstreamService.CallersAgree | downstream/src/app.ts:129-145 | all callers of one experiment and key get the same reply under their own ids and the same verdict |
| DownstreamService.RefusedStartsNothing | downstream/src/app.ts:79-103 | a refused body starts no work and is answered with an error under its own id, or null |
| DownstreamService.Service.Handle | downstream/src/app.ts:79-137 | the handler up to its await is the step of the model |
| DownstreamService.Service.Begin | downstream/src/app.ts:126-137 | work starts exactly when no promise is cached |
| DownstreamService.Service.Resolve | downstream/src/app.ts:106-123 | resolving a promise stores the reply its own request calls for |
| DownstreamService.Service.Reply | downstream/src/app.ts:142-144 | the body sent is the shared reply under the caller's id |
| Baseline.ReadResponse | server/src/app.ts:143-191 | the handler's steps from a response, or an exception, to the stored fields are the receipt of the model |
| Baseline.OutcomeIsExact | server/src/app.ts:150-183 | each outcome of an exchange if and only if: timeout and unreachable by exception, success by a status from 200 to 299 and a correlated acceptance, an error code by a correlated error, downstream_error by that or another status; the body is kept as JSON only if it is an object |
| Baseline.NextKeepsInv | server/src/app.ts:104-198 | every step of coordinator, network and dependency, restarts and foreign answers included, keeps the composed invariant |
| Baseline.ReceiptsAreHonest | server/src/app.ts:163-176 | over every run a receipt the dependency answered, in whichever lifetime, has the outcome and code its own experiment calls for |
| Baseline.SuccessIsBacked | server/src/app.ts:163-172 | over every run, whoever answered, a success rests on a successful status and a correlated result for its own experiment, and an error code on a correlated error |
| Baseline.OnlySettledKeysAreReplayed | server/src/app.ts:114-130 | a request is not sent if and only if it has a key whose newest receipt is a success, a failure of the work or an invalid response |
| Baseline.DeletedForEver | coordinator-dotnet/Services/ExperimentService.cs:30-31 | over every run a deleted experiment never returns and no later answer leaves a receipt for it |
| Baseline.AttemptsShareOneReply | downstream/src/app.ts:126-144 | over every run all answers of one lifetime for one experiment and key are one reply, each under its own caller's id, and their receipts agree |
| Baseline.ExecutedOnceIffReachedOnce | downstream/src/app.ts:126-137 | over a whole run an experiment and key is executed at most once if and only if requests for it reach only one lifetime of the dependency |
| Baseline.RestartRunsAgain | server/src/app.ts:114-137 | after any run, a restart and then a request for a key that was sent before and is not replayed execute the work again |
| Baseline.SameRequestRunsTwice | server/src/app.ts:114-137 | for every experiment and key, the seven steps in which one caller gives up and the retry after a restart runs the work a second time |
| ReviewStore.DeleteKeepsOk | coordinator-dotnet/Data/EfRepository.cs:61 | deleting an experiment keeps every constraint and every review with its run and experiment |
| ReviewStore.DeletionIsExact | coordinator-dotnet/Data/EfRepository.cs:61 | an experiment is deleted, with its runs and nothing else, if and only if it exists and none of its runs has been submitted |
| ReviewStore.DecideKeepsOk | coordinator-dotnet/Data/EfRepository.cs:136-151 | a decision returns a result only for a pending review and keeps every constraint |
| ReviewStore.SubmitKeepsOk | server/src/database.ts:363-372 | a submission keeps every constraint and changes no other review |
| ReviewStore.NextKeepsOk | database/schema.sqlite.sql:4-55 | every statement keeps constraints, finality and at most one effective decision per review |
| ReviewStore.EvidenceAndDecisionsAreFinal | database/schema.sqlite.sql:25-55 | once a review exists its run and experiment never change or disappear, and a decision is what every later read returns |
| ReviewStore.OneReviewOneDecision | database/schema.sqlite.sql:44-55 | over every run at most one review per run, at most one decide call per review returns a result, and decided fields are all set or all null |
| ReviewStore.EveryReviewIsReadable | coordinator-dotnet/Data/SqliteRepository.cs:62-63 | the joins of the review query hide no review |
| ReviewRepository.Repository.CreateReview | coordinator-dotnet/Data/SqliteRepository.cs:64-73 | the transaction is the statement of the model, and a result can be read back |
| ReviewRepository.Repository.DecideReview | coordinator-dotnet/Data/SqliteRepository.cs:104-112 | conditional update and read-back are the statement of the model; a result means the review was pending |
| ReviewRepository.Repository.DeleteExperiment | coordinator-dotnet/Data/SqliteRepository.cs:55 | the cascade is the statement of the model, and no review changes |
| ReviewQuery.TryParse | coordinator-dotnet/Models/ReviewListOptions.cs:23-26 | a parsed number is a 32-bit natural number |
| ReviewQuery.NumbersReadBack | coordinator-dotnet/Models/ReviewListOptions.cs:23-26 | the printed text of a number is parsed as that number if and only if it fits in 32 bits |
| ReviewQuery.AcceptedOptionsAreExact | coordinator-dotnet/Models/ReviewListOptions.cs:10-31 | options are accepted if and only if the status is one of three, page and size come together, and they are digits of numbers within limits |
| ReviewQuery.OptionsReadBack | coordinator-dotnet/Models/ReviewListOptions.cs:10-31 | the printed options of a request are read as they were meant |
| ReviewQuery.ParsedOffsetFits | coordinator-dotnet/Models/ReviewListOptions.cs:10-31 | every parsed page and size has an offset within 32 bits, so the checked product never throws |
| ReviewQuery.BuildSql | coordinator-dotnet/Data/SqliteRepository.cs:74-102 | the built statement with its positional parameters evaluates, on any scan of the table, to what the other adapter's pipeline gives on any other scan |
| ReviewQuery.SortsAgree | coordinator-dotnet/Data/EfRepository.cs:124-125 | ordering by CASE and id gives the same sequence as ordering by rank and then by id |
| ReviewQuery.ListingIsExact | coordinator-dotnet/Data/EfRepository.cs:114-130 | an unpaged list has exactly the wanted rows, each once, pending first and newest first |
| ReviewQuery.PagesAreTheList | coordinator-dotnet/Data/EfRepository.cs:126-127 | the pages of an unchanged store, put together, are the unpaged list cut without gap or overlap |
| ReviewTable.ListContains | coordinator-dotnet/Services/ReviewService.cs:44-45 | an actor's list is the rows in that actor's scope, each once |
| ReviewTable.UnannouncedChangesNothing | coordinator-dotnet/Services/ReviewUpdates.cs:34-40 | a write that is not announced to an actor does not change that actor's list |
| ReviewTable.CreateReviewIsSubmit | coordinator-dotnet/Data/SqliteRepository.cs:64-73 | a submission of the store is a write of the table a client sees, and a refused one is none |
| ReviewTable.DecideReviewIsDecide | coordinator-dotnet/Data/SqliteRepository.cs:104-112 | a decision of the store is a write of that table, and one without a result is none |
| ReviewHub.ReviewUpdates.Subscribe | coordinator-dotnet/Services/ReviewUpdates.cs:23-33 | a new subscriber without a token, or 429 and no change at 128 subscribers |
| ReviewHub.ReviewUpdates.Dispose | coordinator-dotnet/Services/ReviewUpdates.cs:19-30 | exactly this subscriber is gone |
| ReviewHub.ReviewUpdates.Publish | coordinator-dotnet/Services/ReviewUpdates.cs:34-40 | the subscribers of reviewers and of the review's researcher have a token, and nobody else changes |
| ReviewHub.ReviewUpdates.SessionRevoked | coordinator-dotnet/Services/ReviewUpdates.cs:41-47 | every subscriber under exactly this text has a token, and nobody else changes |
| ReviewHub.ReviewUpdates.Drain | coordinator-dotnet/Controllers/ReviewLiveController.cs:71 | reading the channel until it is empty takes exactly this subscriber's token |
| ReviewHub.Await | coordinator-dotnet/Controllers/ReviewLiveController.cs:54-80 | publications during an await reach this socket's token as the session machine's signals do |
| ReviewHub.SendUpdates | coordinator-dotnet/Controllers/ReviewLiveController.cs:49-83 | the loop of check, drain, send and re-arm takes, for every sequence of wake-ups and concurrent publications, exactly the server steps of the session machine |
| ReviewHub.IncomingEnds | coordinator-dotnet/Controllers/ReviewLiveController.cs:56-65 | a client that closes is let go without a policy code, one that sends anything else gets it |
| ReviewService.TrimEndNonBlank | coordinator-dotnet/Services/ReviewService.cs:65-68 | accepted feedback always passes the table's check on blank feedback |
| ReviewService.TrimIsTrimmed | coordinator-dotnet/Services/ReviewService.cs:65-68 | trimming takes exactly the white space around a text |
| ReviewService.TokenOfIsExact | coordinator-dotnet/Services/ReviewService.cs:38 | a header carries a token if and only if it is the scheme and the token, with at most one final newline |
| ReviewService.Service.CreateSession | coordinator-dotnet/Services/ReviewService.cs:22-33 | who may open a session, with which actor and role, for an hour; exactly the expired ones are dropped, and the limit is 256 |
| ReviewService.Service.ActorFor | coordinator-dotnet/Services/ReviewService.cs:34-43 | an actor exactly for the token of an unexpired session, whether or not a newline follows it; an expired session is forgotten |
| ReviewService.Service.Revoke | coordinator-dotnet/Services/ReviewService.cs:46 | the subscribers under this text are woken, and by then the session is gone, if and only if the text does not end in a newline; no other session changes |
| ReviewService.Service.Get | coordinator-dotnet/Services/ReviewService.cs:47-52 | a review is visible exactly to reviewers and to its own researcher |
| ReviewService.Service.Submit | coordinator-dotnet/Services/ReviewService.cs:53-60 | the new review is pending, for this run and researcher, persisted and then announced to everyone concerned; otherwise nothing is written or announced and the status says why |
| ReviewService.Service.Settle | coordinator-dotnet/Services/ReviewService.cs:67-70 | an accepted decision is persisted and then announced exactly when the review exists and is pending, and otherwise nothing changes |
| ReviewService.Service.Decide | coordinator-dotnet/Services/ReviewService.cs:61-71 | exactly a valid decision by a reviewer on a pending review is persisted, approved or rejected as the body says, with the text trimmed, this reviewer and this time, and then announced; every other request gets its own error status and changes nothing |
| ReviewService.SubmitReachesEveryChangedList | coordinator-dotnet/Services/ReviewService.cs:57-58 | everyone whose list a submission changes has a token in each subscription when it is answered |
| ReviewService.DecideReachesEveryChangedList | coordinator-dotnet/Services/ReviewService.cs:68-69 | everyone whose list a decision changes has a token in each subscription when it is answered |
| LiveSocket.SomethingIsAlwaysDue | client/src/review-live.ts:17-73 | while online and alive, a retry within 30 seconds or a watchdog on the newest socket is always due, unless no socket can be made |
| LiveSocket.OldSocketsAreSilent | client/src/review-live.ts:34-47 | a socket that has been replaced causes no callback, whatever it still delivers |
| LiveSocket.NothingChangesAfterExpiry | client/src/review-live.ts:45-49 | after an expiry no socket is opened, the list is never asked to reload and the expiry is not reported again; only going offline is still reported |
| LiveSocket.ReloadsAreFrames | client/src/review-live.ts:34-44 | an event asks the list to reload exactly once if it is a ready or reviews-changed frame on the heard socket, and otherwise not |
| LiveSocket.ExpiryIsPolicyClose | client/src/review-live.ts:45-49 | the expiry is reported exactly once, when the heard socket closes with code 1008 |
| LiveSocket.StatusesAreExact | client/src/review-live.ts:17-61 | each event reports each status exactly when it should |
| LiveSocket.ClosesAreExact | client/src/review-live.ts:28-61 | a socket is closed exactly for text that is not JSON, for silence, and when the browser goes offline or comes back; every heard frame arms the watchdog anew and the end disarms it |
| LiveSocket.WaitsCountLosses | client/src/review-live.ts:39-54 | over every run the wait before the next retry is one second, doubled up to thirty for every loss of the heard socket since the last ready |
| LiveSocket.ReviewWatcher.TryConnect | client/src/review-live.ts:17-33 | connecting makes the new socket the only one heard, with its watchdog armed |
| LiveSocket.ReviewWatcher.Receive | client/src/review-live.ts:34-44 | a frame's effect on watchdog, backoff and callbacks is the step of the model, of which ReloadsAreFrames says which frames reach the workspace |
| LiveSocket.ReviewWatcher.Close | client/src/review-live.ts:45-54 | a close event's effect on stop, retry and backoff is the step of the model |
| LiveSocket.ReviewWatcher.GoOffline | client/src/review-live.ts:57-61 | going offline cancels the retry and closes the socket |
| LiveSocket.ReviewWatcher.GoOnline | client/src/review-live.ts:62 | going online closes the old socket and connects again unless stopped |
| LiveSocket.ReviewWatcher.Stop | client/src/review-live.ts:66-73 | stopping cancels both timers and closes the socket |
| ReviewClient.OneReadCanApply | client/src/ReviewWorkspace.tsx:69-86 | of two outstanding live reads at most one can still change what is shown, and none while an operation runs |
| ReviewClient.CallbacksKeepOk | client/src/ReviewWorkspace.tsx:69-100 | every callback keeps dirty implying a running operation or a drain still to come |
| ReviewClient.Workspace.DrainNow | client/src/ReviewWorkspace.tsx:71-78 | a read is started exactly for a dirty idle client, and it is then the newest |
| ReviewClient.Workspace.OnChanged | client/src/ReviewWorkspace.tsx:89 | after an invalidation the client is dirty or a new read has been started |
| ReviewClient.Workspace.OnRead | client/src/ReviewWorkspace.tsx:78-86 | a result is shown, repeated or ignored as the model says, and a failure is reported exactly for the newest read with no operation since |
| ReviewClient.Workspace.SetWorking | client/src/ReviewWorkspace.tsx:61 | the counter marks both ends of an operation |
| ReviewClient.Workspace.OnWorkEnded | client/src/ReviewWorkspace.tsx:100 | the effect after an operation serves what waited for it |
| ReviewClient.Workspace.SubmitEnds | client/src/ReviewWorkspace.tsx:183-199 | the new review is shown first, or nothing changes, and the operation ends |
| ReviewClient.Workspace.DecideEnds | client/src/ReviewWorkspace.tsx:201-235 | exactly the decided review is replaced, or nothing changes, and the operation ends |
| ReviewClient.Workspace.LoadEnds | client/src/ReviewWorkspace.tsx:168-181 | the loaded list is shown, or nothing changes, and the operation ends |
| LiveSafety.NextKeepsInv | client/src/ReviewWorkspace.tsx:55-113 | every step keeps the session invariant, and everything shown stays shown at the same or a later state |
| LiveSafety.ShownNeverGoesBack | client/src/ReviewWorkspace.tsx:168-235 | over every run what was shown is still shown, a shown decision never changes back, and no review is shown twice |
| LiveSafety.ShownReadsAreDisjoint | client/src/ReviewWorkspace.tsx:57-86 | any two reads that were shown have disjoint lifetimes, and the shown server version never decreases |
| LiveConvergence.NextKeepsNews | client/src/ReviewWorkspace.tsx:71-100 | with a live subscription, news is always on its way, in a read that will count, on the screen, or in a read that failed |
| LiveConvergence.NextKeepsMemory | client/src/ReviewWorkspace.tsx:71-86 | every step keeps the four cases in which the last invalidation is remembered |
| LiveConvergence.NoInvalidationIsLost | client/src/ReviewWorkspace.tsx:71-100 | after each changed callback, for ever: dirty, or the newest read began after it, or a read begun after it was shown, or that newest read failed; and dirty means an operation or its drain is still to come |
| LiveRows.RowMoved | coordinator-dotnet/Services/ReviewService.cs:53-71 | a row of the table differs between two versions if and only if a write between them moved it |
| LiveRows.SameReviewsExactly | client/src/ReviewWorkspace.tsx:102-113 | what is shown is the reviews of the server's list, in the same states, if and only if each was received since the write that last moved it |
| LiveRows.SnapshotUpToDate | coordinator-dotnet/Services/ReviewUpdates.cs:34-40 | a loaded list misses nothing if and only if no write announced to the actor came after it |
| LiveRows.NextKeepsRows | client/src/ReviewWorkspace.tsx:168-235 | every step keeps account of which row is shown as of which version, for loads, submissions and decisions |
| LiveExact.NextKeepsTold | coordinator-dotnet/Controllers/ReviewLiveController.cs:49-83 | with a live subscription any news since the last changed callback is unpublished or on its way through the socket |
| LiveExact.NextKeepsReports | client/src/ReviewWorkspace.tsx:71-86 | over every step a live read's failure is reported if and only if no operation began or ended since the read started |
| LiveExact.SessionAtRestShowsTheServersList | client/src/ReviewWorkspace.tsx:63-100 | a connected session with nothing outstanding shows exactly the actor's list as the server would send it, if its newest live read did not fail or a list as of the last callback was shown |
| LiveExact.LoadedAfterCallback | client/src/ReviewWorkspace.tsx:168-181 | a shown list whose request was made since the last changed callback is such a list, whichever requests failed before |
| LiveExact.ShownExactly | client/src/ReviewWorkspace.tsx:63-113 | at every moment of every run: the same reviews as the server's list if and only if each was received since it last moved, and for a loaded list exactly that list if and only if no announced write came after it |
| LiveExact.CurrentOrReported | client/src/ReviewWorkspace.tsx:78-86 | at rest the list is current or the newest read's failure was reported, except exactly when an operation began or ended during that read and a review has moved since it was received |
| LiveExact.RefreshHeals | client/src/ReviewWorkspace.tsx:168-181 | whatever failed before, an uninterrupted refresh leaves a session at rest with the server's list |
| LiveRecovery.SessionCanComeToRest | client/src/review-live.ts:17-44 | from every moment of an authorized session some steps that write nothing, one reconnection among them, bring it to rest showing the list of that moment |
| LiveRecovery.Reconnects | client/src/review-live.ts:33-43 | subscribing, ready and one read bring a quiet client to rest whatever it had missed |
| LiveForgotten.ForgottenFailure | client/src/ReviewWorkspace.tsx:83-85 | a concrete run in which a live read fails behind a refused submission, nothing reports it, and the session at rest misses a submitted review |
| LiveWatch.EventsAgree | client/src/review-live.ts:34-54 | every event of the browser takes the session's own step: a reload callback exactly where the session is called back, an expiry exactly where it ends, a new socket exactly where one is opened |
| LiveWatch.WatchedIsASession | client/src/review-live.ts:17-73 | every run of the socket code with a server is a run of the session machine |
| LiveWatch.WatchedSessionConverges | client/src/review-live.ts:17-73 | so at rest the list behind the socket code is the server's, under the conditions of the session |
| LiveWatch.WatchedReloadIsRemembered | client/src/review-live.ts:34-44 | after each reload callback of the socket code, for ever: one of the four cases in which it is remembered |
| LiveExpiry.NothingNewWithoutSession | coordinator-dotnet/Controllers/ReviewLiveController.cs:49-83 | once a session is revoked or expired no socket gets more than the frames whose check had passed, and a socket opened later gets only its end |
| LiveExpiry.RevokedSessionEnds | coordinator-dotnet/Controllers/ReviewLiveController.cs:66-83 | from every moment of every session with a live socket between two frames, revocation by its wake-up and expiry by the next heartbeat end the client's session once the frames in transit have arrived |

## Left out

- React rendering, navigation focus, styles, the Android application, scripts, containers and continuous integration.
- Session tokens, UUIDs and SHA-256: new values and collision freedom are taken for granted, and the canonical text itself is the fingerprint.
- The in-memory database path of the ledger, which takes no lease, and the operator's clean-up of an abandoned guard.
- Numbers outside the finite decimals: a literal that overflows becomes null when printed again, negative zero prints as zero, and values are not rounded to doubles.
- Object keys that JavaScript treats specially (`__proto__`, integer-like keys that are enumerated first).
- Calendar ranges of timestamps and version bits of UUIDs: only their shape is checked.
- Differences of the .NET coordinator that cannot change an outcome here: for numbers that are exact decimals, raw payload text and JsonNode text of scalars; and the two lock sections at the end of a call, which are one step of module Channel.
- The coordinator's lookup of one execution, which maps a runner reply or error to 200, 404 or 503; only its use of the channel is modelled.
- Logs, display fields such as durations and correlation headers of replayed receipts, and the requiresRefresh flag, which only disables a button.
- React's scheduling: the effect after an operation is a step of its own that may come at any later moment; state updates of one callback are one step.
- What a session still shows after it has expired: the machine of a session ends there, although an operation that was running may still write its list into the emptied screen.
- Subscribers of one session other than its own sockets, and the heartbeat's period; every timer is a step that may happen at any time.
- Wall-clock deadlines and message-size limits of gRPC, HTTP and WebSocket: they appear as errors that may happen at any time.
- The MySQL pool, migrations and time zones; the three repositories are one model of their common statements.
- JSON-RPC 2.0 batches and notifications, which the dependency does not accept; its 200 kB limit on a body, beyond which the answer is a foreign one.
- Baseline.ReadResponse: is the part of the handler after fetch; looking up, replaying and appending are steps of module Baseline, and their handler is CoordinatorService.
- Coordinator.OverlapBreaksShape: shows that every overlap can break the history, not which later requests repair it.
- RunnerApp.App.GetExecution: a lookup is a method of the runner but not an action of RunnerWorld, since it changes nothing.
- LiveExact.SessionAtRestShowsTheServersList: promises nothing about when a session comes to rest; LiveRecovery says that it can.
- LiveExact.ShownExactly: for a list patched by hand it compares the reviews and their states, not their order, because the client patches a decision in place while the server sorts pending reviews first.
- LiveExact.CurrentOrReported: a report is the call that shows the error; that a later operation clears the text is not modelled.
- Protocol.FingerprintExact: two payload texts that parsing rounds to one double have different fingerprints here and the same in the program.
- RunnerAnswers.ChangedRequestsAreRefused: such a pair of payloads is refused here and accepted by the program.
- ReviewQuery.TryParse: does not accept NUL characters after the digits, which .NET's parser ignores.
- ReviewQuery.BuildSql: the statement is the list of fragments the builder appends, not its characters.
