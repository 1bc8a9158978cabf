# Harness security gateway: a verified model

agentd admits chat events as Runs, dispatches each Run to sandboxd, and sends one reply per Run back
through a connector. This project models the durable state machine in the middle of that (the Core
store), the protocols on either side of it (the dispatch engine, the runner event pipeline, the Discord
connector, the isolated provider and its endpoint), and four algorithms the gateway relies on, and proves
what they promise. `dafny verify dfyconfig.toml` checks everything.

How the model reads the source:

- A Go string is a sequence of bytes (`GoTypes.Str`); UTF-8, white space and control characters are
  decided on bytes as Go's packages decide them (`Utf8`). int64 arithmetic that can overflow is wrapped
  explicitly. Times are Unix milliseconds, durations nanoseconds.
- A store transaction is one atomic step (`StoreSteps`): a function from the committed rows to the
  committed rows and the caller's result. A rollback returns the rows it was given. The clock reading,
  tokens, Run IDs, the authorizer's answer and page pressure are inputs of the step and arbitrary, so the
  clock may go backwards. `CoreStore.Store` is the same store as an object whose methods change its tables
  statement by statement; its ghost history ties the tables to the transactions so far, and each method keeps that
  tie and promises what `StorePromises` proves of every history. `StoreVerdicts` and `OutboxVerdicts` say of each call,
  from the rows it finds and column by column, which answer it gives and what it writes.
- The migration SQL is used only to name columns. The constraints it declares are proved from the Go
  code as part of the invariant.
- Locks: each mutex-held region of the provider and the endpoint is one step, and the theorems range over
  every interleaving of any number of calls. The objects `IsolatedProvider.Isolated` and `Endpoint.Server` carry a
  ghost record of all callers' steps, and each method takes one of them for its caller.
- Digests (SHA-256 of scopes, replies, bindings, the policy) are taken to be injective, so the value that
  is hashed stands for its digest. The digests of Run IDs, which name deliveries, are arbitrary strings that
  differ for different Run IDs (`Dispatch.FreshId`). JSON encodings are typed values.

The modules, in the order of the five parts:

- Core store: `StoreTypes`, `StoreSteps`, `StoreInvariant`, `StoreHistory`, `StoreChecked`, `StoreStart`,
  `StoreReplies`, `StoreDispatch`, `StoreOutbox`, `StoreTight`, `OutboxVerdicts`, `StoreVerdicts`, `StorePromises`,
  `CoreStore`, with `Ordering` for ORDER BY ... LIMIT.
- Dispatch: `Dispatch`, `DispatchAgreement`, `DispatchProgress`, `RunOutcome`.
- Provider and endpoint: `Provider`, `ProviderRuns`, `IsolatedProvider`, `Endpoint`, `ChunkedResponse`.
- Runner event pipeline: `RunnerWire`, `RunnerBridge`, `ExecutionWire`, `RunOutcome`.
- Connector and algorithms: `DiscordDelivery`, `ReplyDelivery`, `SplitReply`, `Scanner`, `EventEncoding`, `Policy`,
  `ConnectorPaths`.

What the proofs brought out:

- The queued limit of a connector bounds admissions, not rows. Queued and dispatching Runs together reach the limit
  plus one, and no more, exactly when the limits on nonterminal Runs and on input bytes exceed the queued limit; with
  a second connector, a requeued dispatch brings queued Runs alone there (`StoreTight.QueuedLimitIsPassedByOne`,
  `StoreTight.QueuedAlonePassesByOne`).
- An accepted runner stream can get stuck. The event log keeps number 512 for a terminal event, while the stream
  validator and a target's event limit allow progress under it; and the log takes no run.started once the Run is
  cancelling (`RunnerBridge.LegalStreamsCanStick`). Apart from those two, and with a sink that binds every event under a
  valid reference, a legal stream within its target's limits is always delivered whole (`RunnerBridge.WholeRunsAreDelivered`, `RunnerBridge.OnlyWholeRunsAreDelivered`).
- `recoverOwner` writes its last phase without looking for Blocked. Blocked is still absorbing, because the
  only writer that could come between is unreachable: every authorized send holds usable owner auth
  (`ProviderRuns.AuthorizedSendsAreUsable`).
- A reply that is all white space is refused, but a chunk of an accepted reply can be blank: a lone newline, or 1900
  tabs (`SplitReply.LineBreakBecomesAChunk`, `SplitReply.TabsBecomeAChunk`). `SplitReply.BlankChunks` says exactly
  which chunks are; a text where white space other than a plain space is never followed by more white space has none
  (`SplitReply.UnpairedTextHasNoBlankChunk`).

## Model

| member | source | states |
|---|---|---|
| Ordering.FirstNIsOrdered | internal/corestore/outbox.go:106-112 | The ordered, limited query: increasing, ahead of every row it leaves out, no row twice, and short only when nothing is left out |
| Ordering.First | internal/corestore/runs.go:396-397 | The one row that comes before all others by creation time, then ID |
| GoTypes.LessIsLexicographic | internal/corestore/runs.go:396-397 | The order on IDs is bytewise: the first differing byte decides, and a proper prefix comes first |
| StoreSteps.AdvanceHorizon | internal/corestore/runs.go:204-220 | A horizon never moves back, reaches the cutoff, and other connectors' horizons stay |
| StoreSteps.QueueHead | internal/corestore/runs.go:396-403 | None exactly when nothing is queued; otherwise the first queued Run in order |
| StoreInvariant.EvictKeepsInv | internal/corestore/runs.go:198-248 | Eviction and compaction keep the whole store invariant |
| StoreInvariant.EvictShrinks | internal/corestore/runs.go:198-248 | Eviction removes rows and changes none; no live Run goes and no horizon moves back |
| StoreInvariant.EvictionIsTogether | internal/corestore/runs.go:226-246 | A delivery goes only when resolved and with its Run; a Run goes only when terminal, without receipt and without delivery |
| StoreInvariant.IngestCases | internal/corestore/runs.go:44-172 | An ingest creates one Run and its receipt after every admission check passed, or commits the eviction alone, or nothing |
| StoreInvariant.IngestKeepsInv | internal/corestore/runs.go:23-172 | Ingest keeps the invariant |
| StoreInvariant.AddRunKeepsQuotas | internal/corestore/runs.go:250-296 | The capacity check leaves room for exactly the rows an admission adds, for all five limits |
| StoreInvariant.WaitingIsBounded | internal/corestore/runs.go:369-395 | Queued and dispatching Runs together exceed the queued ones by at most one |
| StoreInvariant.InputBytesRemove | internal/corestore/runs.go:277-284 | The retained-bytes sum does not depend on the order in which rows are added up |
| StoreInvariant.ClaimCases | internal/corestore/runs.go:356-441 | A claim requeues expired dispatches, and may then take one queued Run only when none is active anywhere |
| StoreInvariant.ClaimKeepsInv | internal/corestore/runs.go:356-441 | Claiming keeps the invariant, so at most one Run is dispatching or running |
| StoreInvariant.PrepareKeepsInv | internal/corestore/runs.go:447-533 | Preparation keeps the invariant, so the frozen start session is the scope's current one |
| StoreInvariant.MarkRunningKeepsInv | internal/corestore/runs.go:544-596 | Marking keeps the invariant: a running Run is prepared and holds its token |
| StoreInvariant.CommitTerminalKeepsInv | internal/corestore/runs.go:634-680 | The terminal row and the session row it writes keep the invariant |
| StoreInvariant.InsertDeliveryKeepsInv | internal/corestore/outbox.go:20-68 | Inserting a reply keeps one delivery per Run and the pending limit |
| StoreInvariant.FinishCases | internal/corestore/runs.go:598-690 | A finish that commits held the Run's token after preparation, and row, session and reply go together; otherwise nothing changes |
| StoreInvariant.FinishKeepsInv | internal/corestore/runs.go:598-690 | Finishing keeps the invariant |
| StoreInvariant.CompleteCases | internal/corestore/outbox.go:173-253 | A completion changes nothing, or exactly the one leased row whose current unexpired token it presents |
| StoreInvariant.CompleteKeepsInv | internal/corestore/outbox.go:173-253 | Completion keeps the invariant and rewrites no resolved delivery |
| StoreInvariant.LeaseAllRows | internal/corestore/outbox.go:133-166 | The claim loop leases each selected row once, from the row as it was, and touches no other |
| StoreInvariant.LeaseCases | internal/corestore/outbox.go:70-171 | A delivery claim changes nothing, or leases a batch of distinct pending rows of its own connector under nonempty tokens |
| StoreInvariant.LeaseKeepsInv | internal/corestore/outbox.go:70-171 | Claiming deliveries keeps the invariant |
| StoreInvariant.ResetKeepsInv | internal/corestore/maintenance.go:117-179 | An offline reset keeps the invariant: it never touches the scope of a live Run |
| StoreHistory.ApplyKeepsInv | internal/corestore/runs.go:23-690 | Every transaction keeps the invariant |
| StoreHistory.EveryRunIsSound | internal/corestore/runs.go:108-114 | In every reachable store, under any clock: one active Run, one live Run per scope, frozen sessions, linked rows, the row constraints and all quotas |
| StoreHistory.OnlyIngestAdmits | internal/corestore/runs.go:356-690 | No other transaction touches receipts, horizons, the set of Runs, a Run's origin or its frozen start |
| StoreHistory.EveryAdmissionIsRemembered | internal/corestore/runs.go:198-248 | Every event ever admitted still has its receipt, or lies at or below the horizon |
| StoreHistory.EveryReceiptIsAnAdmission | internal/corestore/runs.go:152-172 | Every receipt in the store is that of an admission whose Run is still there |
| StoreHistory.AtMostOneRunPerEvent | internal/corestore/runs.go:44-99 | Over every run, at most one Run is ever created per connector, event ID and occurrence time |
| StoreHistory.ReplayReturnsTheOriginal | internal/corestore/runs.go:51-85 | A replay never creates a Run; a retained one returns the original Run for the same payload and conflicts for any other |
| StoreChecked.EveryRunIsChecked | internal/corestore/runs.go:87-150 | In every reachable store each Run has a valid ID and a nonblank input, and each active Run a valid token |
| StoreStart.EveryRunWasAdmitted | internal/corestore/runs.go:134-150 | Every Run in the store has, in its six scope columns, message, input, policy revision and creation time, what an event admitted under its ID and its authorization said |
| StoreStart.EveryOfferStands | internal/corestore/runs.go:467-532 | A start request once offered is what the Run's row still says, for as long as the row exists |
| StoreStart.SameRequestEveryTime | internal/agentdispatch/engine.go:258-291 | Any two start requests ever offered for one Run ID agree in every field, across leases, tokens, clocks and restarts |
| StoreStart.OffersTellTheEvent | internal/agentdispatch/engine.go:268-291 | Every start ever offered asks for an admitted event's own input, in its own scope, of the target it was authorized for |
| StoreReplies.OnlyFinishTerminates | internal/corestore/runs.go:598-690 | Only FinishRun ends a Run, under the Run's own token after preparation |
| StoreReplies.FinishReplacesTheStartSession | internal/corestore/runs.go:667-680 | Whatever ends a Run finds the session the Run started from as the current one, and replaces it only by that Run's result |
| StoreReplies.SessionsChangeOnlyAtFinishOrReset | internal/corestore/sessions.go:39-55 | A session changes only when a Run of its scope ends, or by a reset while no Run of the scope is live |
| StoreReplies.EveryTerminalRunHasOneReply | internal/agentdispatch/engine.go:462-482 | In every run driven by the engine, each terminal Run has exactly one delivery |
| StoreReplies.ReplyIsCommittedWithTheRun | internal/corestore/runs.go:680-690 | The commit that ends a Run is the commit that creates its pending delivery, under an unused ID |
| StoreDispatch.EveryDispatchIsTheLatest | internal/corestore/runs.go:405-441 | In every run a Run's dispatch token and expiry are those of the latest claim that took it |
| StoreDispatch.OnlyTheLatestClaimMoves | internal/corestore/runs.go:447-690 | A preparation, a running mark or a finish is accepted only under the latest claim's token, and while dispatching only before its lease expires; refused, it changes nothing |
| StoreOutbox.EveryLeaseIsTheLatest | internal/corestore/outbox.go:133-166 | In every run a row's lease token and expiry are those of the latest claim that returned it |
| StoreOutbox.CompletionNeedsTheLatestLease | internal/corestore/outbox.go:196-220 | A completion changes the store only with the token of the latest claim and before that lease expires, and only that row |
| StoreOutbox.TheLatestLeaseCompletes | internal/corestore/outbox.go:217-253 | Conversely, a well-formed completion by that holder always takes effect |
| StoreOutbox.ResolvedDeliveriesNeverChange | internal/corestore/outbox.go:199-210 | A resolved delivery never changes; compaction may remove it, with its Run |
| StoreOutbox.CompletionIsIdempotent | internal/corestore/outbox.go:199-216 | Repeating an accepted completion changes nothing, whatever transactions came in between, unless one of them granted that delivery the same token again |
| StoreOutbox.ResolvedCompletionRepeats | internal/corestore/outbox.go:199-210 | Repeating a completion that resolved its delivery is accepted for as long as the delivery is kept |
| StoreOutbox.BackoffIsCappedDoubling | internal/corestore/outbox.go:255-267 | The doubling loop computes min(base * 2^(attempts-1), one hour) |
| StoreOutbox.RetryAtIsExact | internal/corestore/outbox.go:229-233 | The retry time is exact when it fits int64; the wrapped sum is otherwise caught |
| StoreOutbox.RetryBecomesClaimable | internal/corestore/outbox.go:229-238 | A retried delivery is claimable exactly from that instant on; the retry is refused exactly when the instant does not fit |
| StoreTight.QueuedLimitIsPassedByOne | internal/corestore/runs.go:250-296 | For every configuration and connector some run, with every clock reading a positive int64, reaches the queued limit plus one exactly when the nonterminal and byte limits exceed it; no run goes further |
| StoreTight.NeverPassed | internal/corestore/runs.go:250-296 | Otherwise no run passes the queued limit |
| StoreTight.QueuedAlonePassesByOne | internal/corestore/runs.go:369-403 | Under the same condition a requeued dispatch brings queued Runs alone to the limit plus one, with every clock reading a positive int64 and a fresh token |
| StoreVerdicts.EvictVerdict | internal/corestore/runs.go:198-248 | The horizon moves to the last millisecond the receipt window leaves out and never back; exactly the receipts up to it and exactly the spent Runs go, each with its delivery |
| StoreVerdicts.ReplayVerdict | internal/corestore/runs.go:55-81 | The receipt of an event returns that event's own Run for its payload and conflicts for any other; nothing changes |
| StoreVerdicts.AdmitVerdict | internal/corestore/runs.go:87-172 | Each answer of an admission has its exact condition on window, authorization, live Runs of the same six columns, the five limits and the ID; a created Run carries the event and authorization column by column |
| StoreVerdicts.IngestVerdict | internal/corestore/runs.go:23-172 | Eviction first; then the receipt decides, or the admission of a new event does, each as stated |
| OutboxVerdicts.InsertVerdict | internal/corestore/outbox.go:20-68 | A reply is in exactly unless it clashes or the connector is full; it is then the Run's one answer, pending and available at once; no other delivery changes |
| StorePromises.IngestPromises | internal/corestore/runs.go:23-172 | A created Run's event was never admitted in the whole history and its row is made from it; a duplicate is the Run of an earlier admission with the same payload; the rows decide which |
| StorePromises.OneRunPerConversation | internal/corestore/runs.go:108-114 | In every run no two admitted events of one binding, connector, actor, conversation and target are being worked on at a time |
| StorePromises.BusyConversationIsRefused | internal/corestore/runs.go:108-114 | A new authorized event of a conversation with a live Run is refused as busy, whatever its text, message or payload |
| StoreVerdicts.ClaimVerdict | internal/corestore/runs.go:356-441 | Each answer of a claim has its exact condition; lapsed dispatches are queued again, the oldest waiting Run is taken under the token and expiry given, every other row stays |
| StoreVerdicts.PrepareVerdict | internal/corestore/runs.go:447-533 | Each answer of a preparation has its exact condition; the first freezes the session and deadline given, a later one reads them |
| StoreVerdicts.MarkVerdict | internal/corestore/runs.go:544-596 | Each answer of a running mark has its exact condition; it changes the state alone |
| StoreVerdicts.FinishVerdict | internal/corestore/runs.go:598-705 | Each answer of a finish has its exact condition, the conflict of a differing repeat among them; what is accepted writes the outcome, the session and the reply, and nothing else |
| OutboxVerdicts.CompleteVerdict | internal/corestore/outbox.go:173-253 | Each answer of a completion has its exact condition, the conflict of a differing repeat among them; the row takes the outcome, its failure or reference, and for a retry its time |
| OutboxVerdicts.RetriedComesBack | internal/corestore/outbox.go:90-132 | After an accepted retry no claim returns the delivery before the retry time; from then on a claim returns it, or a full batch of deliveries that go before it |
| StorePromises.PreparePromises | internal/corestore/runs.go:447-533 | A prepared start is the latest worker's, freezes the scope's current session and the deadline given, and equals every earlier offer |
| StorePromises.MarkPromises | internal/corestore/runs.go:544-596 | A marked Run runs, prepared, under its latest claim, as the only active Run |
| StorePromises.FinishPromises | internal/corestore/runs.go:598-690 | A finished Run has ended as stated in every outcome column under its latest claim, replaces the session it started from, and has exactly one answer; a differing repeat conflicts |
| OutboxVerdicts.LeaseVerdict | internal/corestore/outbox.go:70-171 | The claim returns the first due deliveries of the connector by available time, creation time and ID, all of them unless the limit is reached, each leased under its own token with one attempt more; it fails exactly for bad arguments or too few good tokens |
| StorePromises.CompletePromises | internal/corestore/outbox.go:173-253 | The delivery records the outcome; the store changed only under the latest unexpired lease; a differing repeat conflicts |
| OutboxVerdicts.ResetVerdict | internal/corestore/maintenance.go:117-179 | Each answer of a reset has its exact condition; the session goes exactly when it is the expected one of an idle scope; every other session stays |
| CoreStore.Store.EvictInboundReceipts | internal/corestore/runs.go:198-248 | Drops exactly the receipts up to the horizon it returns, and exactly the Runs that nothing refers to but resolved deliveries, with those |
| CoreStore.Store.RetainedInputBytes | internal/corestore/runs.go:277-284 | The sum of input lengths over a connector's Runs |
| CoreStore.Store.CheckInboundCapacity | internal/corestore/runs.go:250-296 | Accepts exactly when all limits leave room |
| CoreStore.Store.ReplayReceipt | internal/corestore/runs.go:55-81 | The receipt's own payload finds the Run made from this very event, another payload conflicts, an unknown version rolls back |
| CoreStore.Store.AdmitNewEvent | internal/corestore/runs.go:87-172 | Every answer for its exact reason; a created Run is from an authorized event inside the window, has its columns, joins with its receipt as the one live Run of its scope and leaves the connector within its limits; a refusal commits the eviction alone or undoes it |
| CoreStore.Store.IngestTextRun | internal/corestore/runs.go:23-172 | Keeps the tables what the history gives; creates at most one Run per event of the whole history, with the event's own columns, and finds the earlier one again |
| CoreStore.Store.ClaimQueuedRun | internal/corestore/runs.go:356-441 | Keeps the history; the Run claimed is the oldest that waited and the only active one, under the token given; lapsed dispatches go back in line |
| CoreStore.Store.PrepareRunStart | internal/corestore/runs.go:447-533 | Keeps the history; only the latest claim prepares, and the start equals every earlier offer |
| CoreStore.Store.MarkRunRunning | internal/corestore/runs.go:544-596 | Keeps the history; only the latest claim marks, and the Run is then the only active one |
| CoreStore.Store.InsertTextDelivery | internal/corestore/outbox.go:20-68 | The reply becomes or already is the Run's one answer, or is refused for exactly the stated clash or quota; no other delivery changes |
| CoreStore.Store.FinishRun | internal/corestore/runs.go:598-690 | Keeps the history; only the latest claim finishes, the session replaced is the one the Run started from, and the reply is its one answer; a refused reply undoes all |
| CoreStore.Store.ClaimTextDeliveries | internal/corestore/outbox.go:70-171 | Keeps the history; returns the first due deliveries in order, each the connector's own and leased under its token; lapsed leases are taken back |
| CoreStore.Store.LeaseClaimable | internal/corestore/outbox.go:90-171 | The transaction of the claim: release, select, lease each, or undo it all |
| CoreStore.Store.LeaseEach | internal/corestore/outbox.go:133-166 | The loop leases every selected ID, or stops at the first missing or invalid token |
| CoreStore.Store.RetryBackoff | internal/corestore/outbox.go:255-267 | The loop returns min(base * 2^(attempt-1), one hour) |
| CoreStore.Store.CompleteDelivery | internal/corestore/outbox.go:173-253 | Keeps the history; only the latest unexpired lease changes the delivery, which then records the outcome |
| CoreStore.Store.ResetSession | internal/corestore/maintenance.go:117-179 | Keeps the history; removes exactly the expected session of a scope where no Run is live |
| DispatchAgreement.ConnectorTurnsOver | internal/corestore/runs.go:198-248 | Connector steps keep every live Run's row as it is and add only queued Runs under unused IDs |
| DispatchAgreement.ClaimKeepsSync | internal/agentdispatch/engine.go:173-193 | DispatchOne keeps Core and sandbox in step |
| DispatchAgreement.PrepareKeepsSync | internal/agentdispatch/engine.go:268-291 | The offered request is the frozen one; an invalid request means the sandbox never had the Run |
| DispatchAgreement.StartReplyIsOk | internal/agentdispatch/engine.go:293-337 | Every reply to StartRun leads on soundly; a conflict means the sandbox has no record of the Run |
| DispatchAgreement.SnapshotKeepsSync | internal/agentdispatch/engine.go:370-410 | A snapshot leads to a finish only when the sandbox's record is terminal |
| DispatchAgreement.GetKeepsSync | internal/agentdispatch/engine.go:302-369 | Polling, and proving absence before failing a Run, keep Core and sandbox in step |
| DispatchAgreement.FinishKeepsSync | internal/agentdispatch/engine.go:462-482 | A committed finish says what the sandbox's record says |
| DispatchAgreement.SandboxKeepsSync | internal/agentdispatch/engine.go:559-583 | Whatever a progressing sandbox does in between keeps agreement |
| DispatchAgreement.EverySystemIsSound | internal/agentdispatch/engine.go:258-446 | Every run of store, worker, connectors and faithful sandbox, with crashes and lost replies anywhere, keeps the joint invariant |
| DispatchAgreement.CoreAgreesWithSandbox | internal/agentdispatch/engine.go:258-446 | A Run terminal in Core that the sandbox has a record of is terminal there too, in the same state, with the output, session and failure class of the record's last event |
| DispatchAgreement.RecordIsOfTheRun | internal/agentdispatch/engine.go:268-291 | The sandbox's record of a Run is of the Run's own input, scope and target, with the session and deadline its row froze |
| DispatchAgreement.DeliveriesTellTheOutcome | internal/agentdispatch/engine.go:412-482 | In every run of the system each delivery tells its Run's outcome, and of a completed Run carries the output of the sandbox record's last event unless that is blank |
| DispatchAgreement.EndedRowsStay | internal/corestore/runs.go:598-690 | No transaction changes the row of an ended Run |
| DispatchAgreement.NoRecordEver | internal/agentdispatch/engine.go:301-321 | A Run that Core ended without a sandbox record never gets one |
| DispatchAgreement.JustifiedFinishCommits | internal/agentdispatch/engine.go:462-482 | In every run, whatever finish the worker has come to commits under a live lease with room for the reply: the Run ends as it says and its reply is pending under its own ID |
| DispatchAgreement.ReplyIdIsFree | internal/agentdispatch/engine.go:654-657 | The reply ID derived from a live Run is valid and names no delivery yet |
| DispatchAgreement.PollOfEndedRunFinishes | internal/agentdispatch/engine.go:358-410 | In every run, polling a running Run that the sandbox has ended leads to the sandbox's own outcome, which the store's validators accept |
| DispatchAgreement.ProvedAbsenceFails | internal/agentdispatch/engine.go:302-316 | Absence proved after a terminal start error leads to that failure |
| DispatchProgress.UndisturbedRunCompletes | internal/agentdispatch/engine.go:173-482 | From every state the system can be in with the worker idle and a Run waiting, an undisturbed dispatch is possible and ends with that Run completed in Core and its output in a pending reply |
| DispatchProgress.QueueLeadsToOffer | internal/agentdispatch/engine.go:173-291 | Claiming, reading the session and preparing lead to the offer of a Run that waited |
| DispatchProgress.PrepareLeads | internal/agentdispatch/engine.go:268-291 | The request offered carries the Run's own input, scope and target, and the frozen or current session and deadline |
| DispatchProgress.OfferLeadsToFinish | internal/agentdispatch/engine.go:293-410 | A start that is taken, run to its end and polled leads to the finish made from the record |
| DispatchProgress.RefusedStartLeads | internal/agentdispatch/engine.go:585-602 | A refused start leads, once absence is proved, to the failure class of its error; an unavailable sandbox leaves the Run as it is |
| DispatchProgress.RunningIsMarked | internal/agentdispatch/engine.go:340-404 | A record seen running is marked running in Core |
| DispatchProgress.AdvanceLeads | internal/agentdispatch/engine.go:198-230 | A known Run is taken up where its row stands |
| DispatchProgress.RunnerOutputIsDelivered | internal/agentdispatch/engine.go:412-482 | The output of the runner's run.completed frame is what Core's row holds and, unless blank, what the delivery carries |
| RunOutcome.FinalEventPayload | internal/executionwire/validate.go:254-305 | A valid terminal snapshot's last event carries the payload its state needs |
| RunOutcome.TerminalSnapshotCanFinish | internal/agentdispatch/engine.go:412-446 | The store's validators accept the finish and the reply made from any valid terminal snapshot |
| RunOutcome.OwnFailuresCanFinish | internal/agentdispatch/engine.go:448-460 | They also accept the engine's own failures, for every Run ID the store accepts |
| RunOutcome.FinishKeepsTheOutcome | internal/agentdispatch/engine.go:412-446 | The Core state names the sandbox state, one to one; output, session and failure class are carried over and nothing is invented |
| RunOutcome.ReplyTellsTheOutcome | internal/agentdispatch/engine.go:412-446 | The reply to a completed snapshot is its last event's output unless blank; a failure is told by its class alone; cancelled and interrupted have their fixed texts |
| RunOutcome.MapFailureKeepsTheName | internal/agentdispatch/engine.go:604-629 | A failure class keeps its name from the wire to the row |
| RunOutcome.MapFailureIsInjective | internal/agentdispatch/engine.go:604-629 | Different failure classes stay different |
| RunOutcome.FailureTextIsReply | internal/agentdispatch/engine.go:631-652 | Every fixed failure text is a valid reply |
| RunOutcome.DeliveryIdIsIdentifier | internal/agentdispatch/engine.go:654-657 | The derived delivery ID is a valid identifier |
| RunOutcome.DeliveryIdIsInjective | internal/agentdispatch/engine.go:654-657 | Different digests give different delivery IDs |
| ExecutionWire.GrowthKeepsLog | internal/sandboxstore/events.go:55-104 | Every accepted append and cancellation of a valid event log gives a valid snapshot that has only progressed |
| ExecutionWire.UnendedLogCanEnd | internal/sandboxstore/events.go:65-67 | A Run that has not ended can always be ended: the last sequence number is kept free |
| RunnerWire.Sequence.Accept | internal/runnerwire/sequence.go:28-63 | Accepts an event exactly when the stream so far stays legal, and keeps nothing of a refused one |
| RunnerWire.Sequence.Finalize | internal/runnerwire/sequence.go:67-78 | True exactly when the stream ended with a terminal event |
| RunnerBridge.AcceptedEventsTranslate | internal/runnerbridge/bridge.go:237-281 | Every accepted runner event becomes a valid execution event, terminal exactly when it was, that says field by field what the frame says; a session reference is there exactly when the target resumes and the frame brings a token |
| RunnerBridge.TargetRefusalMeans | internal/runnerbridge/bridge.go:171-189 | The target refuses a frame exactly for unwanted or overlong text, or a session token where none may be or none where one must |
| RunnerBridge.AppendKeepsStep | internal/runnerbridge/bridge.go:193-205 | Committing the next translated event keeps validator and log in step |
| RunnerBridge.AppendRefusesExactly | internal/sandboxstore/events.go:55-104 | The log refuses the next legal frame exactly when it is nonterminal and numbered 512, or run.started of a cancelling Run, or its minted reference is invalid |
| RunnerBridge.CommitEvent | internal/runnerbridge/bridge.go:190-199 | An accepted event is committed in its place, or nothing is, for exactly the sink's reason or one of those three |
| RunnerBridge.BridgeOne | internal/runnerbridge/bridge.go:157-206 | One pass commits the event read, or stops for the one reason the read gives |
| RunnerBridge.BridgeNext | internal/runnerbridge/bridge.go:157-206 | One pass as part of the whole stream: it goes on with all reads so far passed and committed, or ends the stream for good |
| RunnerBridge.BridgeEvents | internal/runnerbridge/bridge.go:157-207 | For any stream the loop stops within MaxEvents accepted frames with a valid log; the log says field by field what exactly the reads that pass say, the stop is for the first other read's reason, and it finishes exactly when the reads bring a whole Run, in the state and with the payload of its last frame |
| RunnerBridge.WholeRunsAreDelivered | internal/runnerbridge/bridge.go:157-207 | Every legal stream to its terminal event, within the target's limits and the log's, not cancelled before it starts, is delivered |
| RunnerBridge.OnlyWholeRunsAreDelivered | internal/runnerbridge/bridge.go:157-207 | And nothing else is |
| RunnerBridge.LegalStreamsCanStick | internal/sandboxstore/events.go:65-67 | A legal stream that its target allows, all of whose earlier reads pass, is refused at progress number 512, and at run.started of a cancelled Run |
| IsolatedProvider.Isolated.InitialAuth | internal/codexprovider/isolated_linux_amd64.go:101-116 | Hands the local file out exactly once, as first minted, before anything was resolved or authorized |
| IsolatedProvider.Isolated.BeginCall | internal/codexprovider/isolated_linux_amd64.go:121-129 | A begun call is among those counted; none begins once the provider is closed |
| IsolatedProvider.Isolated.EndCall | internal/codexprovider/isolated_linux_amd64.go:131-138 | The last call to end after Close, and no other, closes the drained channel |
| IsolatedProvider.Isolated.PrepareEnter | internal/codexprovider/isolated_linux_amd64.go:152-158 | The one call that enters preparation: no owner resolve came before it and no other call is inside |
| IsolatedProvider.Isolated.ResolveOwner | internal/codexprovider/isolated_linux_amd64.go:160-164 | The native consumer is asked without force once and with force once, ever |
| IsolatedProvider.Isolated.PrepareLeave | internal/codexprovider/isolated_linux_amd64.go:163-178 | Preparation ends with the auth it was given exactly when that is usable and nobody gave up; otherwise blocked |
| IsolatedProvider.Isolated.OpenEndpoint | internal/codexprovider/isolated_linux_amd64.go:183-195 | The provider becomes ready from prepared alone, at version zero with usable auth |
| IsolatedProvider.Isolated.AuthorizeSend | internal/codexprovider/isolated_linux_amd64.go:210-223 | Authorized exactly when open, ready and alive and presenting the access token and account of the representation in force; the auth is usable and the one the owner's resolve gave for its version, and the fence is down; the other answers for their exact reasons |
| IsolatedProvider.Isolated.SendUpstream | internal/codexprovider/isolated_linux_amd64.go:224-241 | The auth of an authorized send is usable, so the send goes out; a verified 401 leads to recovery |
| IsolatedProvider.Isolated.RecoverEnter | internal/codexprovider/isolated_linux_amd64.go:252-270 | Each answer has its exact condition: the one 401 that starts the recovery raises the fence and recovers alone; a late one changes nothing, a spent one blocks |
| IsolatedProvider.Isolated.RecoverLeave | internal/codexprovider/isolated_linux_amd64.go:272-287 | The recovery ends at version one awaiting the refresh with the auth it was given exactly when that is usable and nobody gave up; otherwise blocked |
| IsolatedProvider.Isolated.RefreshLocal | internal/codexprovider/isolated_linux_amd64.go:289-330 | Each answer has its exact condition; the representation issued has the tokens drawn and the account held, is the only one ever, and lowers the fence |
| IsolatedProvider.Isolated.CloseProvider | internal/codexprovider/isolated_linux_amd64.go:335-344 | Closing twice is closing once; drained closes now exactly when no begun call is left |
| IsolatedProvider.FenceMeans | internal/codexprovider/isolated_linux_amd64.go:252-270 | What the first region of a recovery finds and leaves in any interleaving |
| IsolatedProvider.RefreshMeans | internal/codexprovider/isolated_linux_amd64.go:297-330 | What one pass of the refresh loop finds and leaves in any interleaving |
| ProviderRuns.MoveKeepsFields | internal/codexprovider/isolated_linux_amd64.go:147-330 | Every region keeps what the fields say about each other |
| ProviderRuns.MovePhases | internal/codexprovider/isolated_linux_amd64.go:252-287 | Only the preparing call ends Opening, only the recovering call ends Recovering, and nothing ends Blocked |
| ProviderRuns.EveryInterleavingIsSound | internal/codexprovider/isolated_linux_amd64.go:121-367 | Every interleaving of any number of calls keeps the joint invariant |
| ProviderRuns.EveryStartIsUntouched | internal/codexprovider/isolated_linux_amd64.go:101-116 | Before preparation nothing was observed, and before the refresh the local representation is the one minted first |
| ProviderRuns.RecoveryIsOneShot | internal/codexprovider/isolated_linux_amd64.go:252-330 | At most one unforced and one forced owner resolve, one local refresh, and version at most one |
| ProviderRuns.NoSendBehindTheFence | internal/codexprovider/isolated_linux_amd64.go:210-223 | Between a fencing 401 and any later authorization lies the local refresh; at version one the token presented was issued before |
| ProviderRuns.SendsPresentTheCurrent | internal/codexprovider/isolated_linux_amd64.go:210-237 | Over every interleaving each authorized send presented the access token and account of the representation minted first, or after the refresh of the issued one, and carries the auth that the unforced, or at version one the forced, owner resolve gave |
| ProviderRuns.BlockedIsFinal | internal/codexprovider/isolated_linux_amd64.go:243-287 | Blocked is absorbing |
| ProviderRuns.AuthorizedSendsAreUsable | internal/codexprovider/isolated_linux_amd64.go:224-250 | Every authorized send holds usable owner auth, so the self-blocking branch and its block are never reached |
| ProviderRuns.DrainedExactlyOnce | internal/codexprovider/isolated_linux_amd64.go:131-138 | The drained channel is closed at most once, exactly when Close was called and every begun call has ended |
| Endpoint.Server.OpenServer | internal/codexprovider/endpoint_linux.go:138-146 | Opens exactly when it was neither open, stopped nor cancelled before |
| Endpoint.Server.StopServer | internal/codexprovider/endpoint_linux.go:147-159 | After it no operation is charged and none is authorized |
| Endpoint.Server.AcceptConnection | internal/codexprovider/endpoint_linux.go:188-203 | Admitted exactly while open with fewer than 4 being served; at most 16 connections are ever accepted |
| Endpoint.Server.ChargeOperation | internal/codexprovider/endpoint_linux.go:323-336 | Allowed exactly while open, alive and with budget left; an allowed charge leaves the operation within its budget, this call included; a refused one spends its slot |
| Endpoint.Server.AuthorizeUpstream | internal/codexprovider/endpoint_linux.go:240-248 | Authorized exactly while open, alive and never rejected, and then within budget; a latched rejection is reported with its reason, anything else without one |
| Endpoint.Server.RejectOperation | internal/codexprovider/endpoint_linux.go:250-259 | The operation keeps its first reason and no call for it can be authorized from then on |
| Endpoint.Server.HasRefreshBudget | internal/codexprovider/endpoint_linux.go:263-267 | True exactly while no refresh was charged, and then none was authorized or is on its way to be |
| Endpoint.Server.FinishConnection | internal/codexprovider/endpoint_linux.go:204-211 | The connection goes, and its place is free |
| Endpoint.EveryInterleavingIsSound | internal/codexprovider/endpoint_linux.go:185-336 | Every interleaving of connections keeps budgets, latches and connection limits |
| Endpoint.UpstreamCallsAreBounded | internal/codexprovider/endpoint_linux.go:323-345 | Upstream calls never exceed 1 refresh, 2 catalog and 16 inference; settings never go upstream |
| Endpoint.RejectionLatches | internal/codexprovider/endpoint_linux.go:240-259 | No call for an operation is authorized after its first recorded rejection |
| Endpoint.RefreshBudgetIsUnspent | internal/codexprovider/endpoint_linux.go:261-267 | A remaining refresh budget means no refresh was or is about to be authorized |
| ChunkedResponse.HexReads | internal/codexprovider/endpoint_linux.go:466-468 | The decoder of section 7.1 of RFC 9112 reads back every chunk size written |
| ChunkedResponse.ChunksDecode | internal/codexprovider/endpoint_linux.go:466-474 | Whole chunks decode to their data, followed by whatever the rest decodes to |
| ChunkedResponse.CutChunkDecodes | internal/codexprovider/endpoint_linux.go:466-474 | A chunk cut anywhere decodes to a prefix of its data and never ends the message |
| ChunkedResponse.CutFinalDecodes | internal/codexprovider/endpoint_linux.go:479-485 | The final chunk ends the message exactly when all of it went out |
| ChunkedResponse.WriteChunk | internal/codexprovider/endpoint_linux.go:466-474 | Three writes send one chunk, or a prefix of it |
| ChunkedResponse.WriteFinal | internal/codexprovider/endpoint_linux.go:479-485 | Ends the message only with the whole body forwarded |
| ChunkedResponse.Forward | internal/codexprovider/endpoint_linux.go:447-490 | What the client decodes is a prefix of the body of at most 2 MiB, ended only when whole; without failure, cancellation or broken write it is whole exactly when it fits and the body does not stall |
| ChunkedResponse.SteadyBodiesDoNotStall | internal/codexprovider/endpoint_linux.go:447-490 | A body that may give something in any three reads in a row and reports its end never stalls, however the reads are cut |
| DiscordDelivery.ReadSentChunks | internal/discordconnector/state.go:175-195 | Reads recorded progress exactly when it is a contiguous prefix of this reply |
| DiscordDelivery.SendStepKeepsSound | internal/discordconnector/service.go:295-323 | Sending and recording one chunk keeps tables and journal sound, wherever it stops |
| DiscordDelivery.RecordWritesOneRow | internal/discordconnector/state.go:199-224 | A chunk is recorded at most once, under the ID and at the time of its acknowledgement; no other row changes |
| DiscordDelivery.DeliverKeepsSound | internal/discordconnector/service.go:254-334 | An attempt keeps them sound, wherever it stops |
| DiscordDelivery.EveryRunIsSound | internal/discordconnector/service.go:239-334 | So does any number of attempts, in any order, with a crash anywhere |
| DiscordDelivery.ChunksGoInOrder | internal/discordconnector/service.go:291-323 | A chunk is tried only after all earlier ones were recorded, and never once recorded itself |
| DiscordDelivery.ProgressIsAPrefix | internal/discordconnector/state.go:197-224 | Recorded progress is always a contiguous prefix of one reply, each chunk acknowledged under the recorded reference |
| DiscordDelivery.DeliveredMeansAcknowledged | internal/discordconnector/service.go:324-343 | Core hears "delivered" only after every chunk of a reply was acknowledged, with the ID of its first chunk, and of the reply offered when all attempts offered one |
| DiscordDelivery.RetryMeansRefused | internal/discordconnector/service.go:299-312 | Core is asked to retry only right after the platform refused a chunk in a way that may pass |
| DiscordDelivery.ErrorsAreTold | internal/discordconnector/discord.go:44-61 | A platform error ends the attempt, and Core is told the outcome and class its status calls for |
| DiscordDelivery.CoreTakesEveryReport | internal/discordconnector/service.go:254-343 | Whatever the connector reports of a delivery in any run is a completion that Core's validator accepts |
| ReplyDelivery.DeliveredIsTheWholeText | internal/discordconnector/service.go:254-343 | When Core hears "delivered" of a delivery whose attempts render one text, the platform has acknowledged chunks that make up the whole trimmed text but for spaces between them |
| ReplyDelivery.Render | internal/discordconnector/service.go:264-285 | A delivery for another channel or with a text that does not split is refused; any other is split as SplitReply says |
| ReplyDelivery.UnrenderableIsTold | internal/discordconnector/service.go:264-274 | What cannot be rendered is reported at once with its class, without a send |
| ReplyDelivery.RememberedIsToldAgain | internal/discordconnector/service.go:256-262 | A remembered delivery is reported again under its reference, never sent again |
| DiscordDelivery.UndisturbedAttemptDelivers | internal/discordconnector/service.go:254-334 | Undisturbed, an attempt resumes where earlier ones stopped, sends the rest and tells Core the first chunk's ID |
| DiscordDelivery.PruneKeepsContiguous | internal/discordconnector/state.go:228-245 | Pruning removes whole prefixes, so what is left is contiguous |
| DiscordDelivery.DeliverKeepsContiguous | internal/discordconnector/service.go:254-343 | Every attempt keeps recorded progress contiguous, also on tables that were pruned before |
| DiscordDelivery.Connector.RecordChunk | internal/discordconnector/state.go:199-224 | Tables and result equal the recording step |
| DiscordDelivery.Connector.SendChunk | internal/discordconnector/service.go:295-323 | Tables, journal and result equal one chunk's step |
| DiscordDelivery.Connector.SendChunks | internal/discordconnector/service.go:287-323 | The loop equals the steps from the first unrecorded chunk on, and knows the first chunk's reference |
| DiscordDelivery.Connector.Deliver | internal/discordconnector/service.go:254-343 | Keeps the account of all attempts; as long as nothing was pruned, tables and journal are sound and all it adds to the journal is in order; progress stays contiguous in any case |
| DiscordDelivery.Connector.PruneSent | internal/discordconnector/state.go:228-245 | Removes exactly the deliveries whose latest chunk is old, each with all its chunks, and exactly the old sent rows; what is left is contiguous and attempts may go on |
| SplitReply.Trim | internal/discordconnector/discord.go:260-262 | Trimmed text is valid and neither end of it is white space |
| SplitReply.TrimTakesOnlySpace | internal/discordconnector/discord.go:260-262 | Trimming takes white space off both ends and nothing else |
| SplitReply.TrimmedAwayIfBlank | internal/discordconnector/discord.go:262-264 | Nothing is left exactly when the text is all white space |
| SplitReply.Cut | internal/discordconnector/discord.go:273-279 | A cut lies before a rune start, above zero and at most at 1900 bytes |
| SplitReply.ChunksAreGood | internal/discordconnector/discord.go:265-283 | Every chunk is nonempty, at most 1900 bytes and valid UTF-8 |
| SplitReply.SplitDropsOnlySpaces | internal/discordconnector/discord.go:280-281 | The text is the chunks in order with nothing but spaces between them |
| SplitReply.WovenKeepsEveryByte | internal/discordconnector/discord.go:252-254 | Text and chunks agree in every byte that is not a space |
| SplitReply.HeadIsBlank | internal/discordconnector/discord.go:273-281 | The chunk cut off a long rest is blank exactly when everything before the cut is |
| SplitReply.BlankChunks | internal/discordconnector/discord.go:265-283 | A chunk of a trimmed text is blank exactly when it is cut from a rest too long for one chunk that is white space up to its cut |
| SplitReply.UnpairedTextHasNoBlankChunk | internal/discordconnector/discord.go:265-283 | No chunk is blank if white space other than a plain space is never followed by more white space |
| SplitReply.PlainSpacesAreUnpaired | internal/discordconnector/discord.go:265-283 | Which holds of every text whose only white space is the plain space |
| SplitReply.LineBreakBecomesAChunk | internal/discordconnector/discord.go:273-281 | Two lines of 1899 bytes with a newline and a space between them are accepted and make three chunks; the second is the newline |
| SplitReply.TabsBecomeAChunk | internal/discordconnector/discord.go:273-281 | A word, a space, 1900 tabs and a word make three chunks; the second is blank though no break is in reach |
| SplitReply.FindCut | internal/discordconnector/discord.go:273-279 | The search and the backing-up loop find that cut |
| SplitReply.SplitLoop | internal/discordconnector/discord.go:265-283 | Returns all chunks when at most maxChunks are needed, and nothing otherwise |
| SplitReply.SplitText | internal/discordconnector/discord.go:254-284 | Accepts exactly valid, nonblank text that fits maxChunks chunks, and returns the whole of it |
| Scanner.OnlyTheTailMatters | internal/codexadapter/adapter.go:612-629 | A needle in the text shows either earlier or in the kept tail plus the new write |
| Scanner.TailOfWindow | internal/codexadapter/adapter.go:624-628 | The tail kept of the window is the tail of the whole text |
| Scanner.Discard.Write | internal/codexadapter/adapter.go:573-598 | Accepts what fits; the write that passes the limit is scanned whole and none after it |
| Scanner.Discard.Scan | internal/codexadapter/adapter.go:612-629 | matched is true exactly when all that was scanned contains the needle |
| Scanner.DiscardAll | internal/codexadapter/adapter.go:573-629 | For any split into writes and any limit: matched equals whole-text search of what was scanned, accepted is the total cut at the limit, and scanning ends with the write that passes it |
| EventEncoding.BigEndianReads | internal/agentservice/service.go:317-319 | A fixed-width big-endian integer reads back |
| EventEncoding.Put64Reads | internal/agentservice/service.go:317-319 | Every int64, negative ones included, reads back from its eight bytes |
| EventEncoding.FramedReads | internal/agentservice/service.go:361-366 | A length-framed string reads back whatever follows it |
| EventEncoding.Hasher.WriteString | internal/agentservice/service.go:361-366 | Appends eight length bytes and the string |
| EventEncoding.Hasher.WriteEvent | internal/agentservice/service.go:313-328 | Appends the event's fields in the fixed order |
| EventEncoding.PreHash | internal/agentservice/service.go:309-332 | The bytes hashed are the version 2 encoding |
| EventEncoding.PreHashV1 | internal/agentservice/service.go:337-359 | The bytes hashed are the version 1 encoding |
| EventEncoding.DecodeInvertsEncode | internal/agentservice/service.go:309-332 | Decoding gives the connector and every field back |
| EventEncoding.EncodingIsInjective | internal/agentservice/service.go:306-332 | Equal version 2 bytes come from equal connectors and events |
| EventEncoding.EncodingV1IsInjective | internal/agentservice/service.go:337-359 | Equal version 1 bytes come from equal events |
| EventEncoding.VersionsNeverCollide | internal/agentservice/service.go:306-359 | No version 1 encoding equals any version 2 encoding |
| Policy.CheckConnectors | internal/agentconfig/config.go:176-188 | Accepts exactly well-formed connectors with a dedicated user and distinct IDs |
| Policy.ConnectorsById | internal/agentconfig/config.go:225-227 | Every ID finds its own connector |
| Policy.CheckBindings | internal/agentconfig/config.go:219-258 | Accepts exactly well-formed bindings with distinct labels and keys that refer to a connector and not to its own actor |
| Policy.ValidateConfig | internal/agentconfig/config.go:136-260 | Accepts exactly valid connectors and bindings whose sockets and files are kept apart |
| ConnectorPaths.CleanIsNormal | internal/agentconfig/config.go:331-351 | A cleaned path has no empty, "." or ".." component |
| ConnectorPaths.CleanIsStable | internal/agentconfig/config.go:331-351 | Cleaning a clean path changes nothing |
| ConnectorPaths.CleanExtends | internal/agentconfig/config.go:331-351 | One more path element does nothing if empty or ".", goes to the directory if "..", and is a step in otherwise |
| ConnectorPaths.LockIsSuffixed | internal/agentconfig/config.go:63-67 | The lock's path is the database's cleaned path with the suffix appended |
| ConnectorPaths.CheckSockets | internal/agentconfig/config.go:139-214 | Accepts exactly absolute, distinct sockets in directories that neither overlap nor hold the database, its lock or the sandbox socket |
| ConnectorPaths.ConnectorsAreApart | internal/agentconfig/config.go:200-211 | No connector's directory holds another connector's socket or a file of agentd, at any depth and in any order |
| Policy.SortAscends | internal/agentpolicy/policy.go:212-224 | Sorting by distinct keys gives an ascending list |
| Policy.SortHas | internal/agentpolicy/policy.go:212-224 | Sorting keeps exactly the items |
| Policy.AscendingIsUnique | internal/agentpolicy/policy.go:212-224 | There is one ascending list of given items, whatever sorted it |
| Policy.BuildCanonical | internal/agentpolicy/policy.go:193-224 | The loops and sorts build the canonical form |
| Policy.CanonicalIgnoresOrderAndLabels | internal/agentpolicy/policy.go:193-230 | The canonical form does not depend on order or labels |
| Policy.CanonicalDeterminesGrants | internal/agentpolicy/policy.go:193-230 | Equal canonical forms mean the same connectors and grants |
| Policy.MakeEndpoints | internal/agentpolicy/policy.go:112-117 | One empty endpoint per connector |
| Policy.Compile | internal/agentpolicy/policy.go:100-134 | The endpoints are exactly the table of listed bindings, split by connector |
| Policy.GrantedIffListed | internal/agentpolicy/policy.go:56-71 | Authorization succeeds exactly when a matching binding is listed |
| Policy.RefusedExactly | internal/agentpolicy/policy.go:56-71 | Each refusal has its exact reason: unknown connector, empty reference, the connector's own actor, or no binding |
| Policy.GrantIsTheBindings | internal/agentpolicy/policy.go:118-132 | And then gives that binding's own target, a fingerprint of that binding alone, and the policy's revision |
| Policy.GrantsAreTaken | internal/agentconfig/config.go:219-258 | Whatever a valid configuration grants, the store takes as an authorization and the sandbox as a target |
| Policy.EqualCanonicalDecidesAlike | internal/agentpolicy/policy.go:56-71 | Equal canonical forms decide every request alike |

## Left out

- SQLite itself: page limits, busy errors, migrations and I/O failures inside a transaction; a transaction commits whole or not at all.
- Sandbox requests that take effect after the caller gave up: a StartRun call takes effect before it returns or not at all, though its reply may be lost.
- A second engine worker: the process lock admits one worker, and a crashed worker is gone.
- The sandbox store's target, credential and workspace checks: they appear only as start errors a faithful sandbox may return.
- HTTP, Unix sockets, TLS, the Docker command line, procfs and file attestation.
- JSON decoding and frame byte encoding: the models start from typed values.
- SHA-256, random IDs and local token minting: injective functions and arbitrary inputs.
- Timers, deadlines and goroutine scheduling: replaced by arbitrary inputs and arbitrary interleaving.
- Taint of the credential source and release of artifacts in the provider: they touch no field the theorems speak of.
- Reading of requests and diagnostics in the endpoint's exchange: they decide only which operation is charged.
- Polling for inbound Discord messages, its cursor and the pause after failures.
- The ready handshake, session resolution and manifest checks before the bridge's loop.
- DiscordDelivery.ProgressIsAPrefix: speaks of runs without pruning in between; once something was pruned only contiguity is kept, which DeliverKeepsContiguous and PruneKeepsContiguous state.
- Policy.ValidateConfig: leaves out the schema name and the ranges of timeouts, leases, windows and quotas, which are independent comparisons.
