# Verified model of the Avantime protocols

A Dafny model of the protocols and algorithms in `apps/web/lib`, with machine-checked proofs.
`dafny verify dfyconfig.toml` checks everything. Each protocol is modelled at its await points: a
step is what runs between two awaits, or one database transaction, and a theorem about "every run"
covers every interleaving of the steps of any number of workers, including those that stall or
crash for good. A step that is not enabled changes nothing.

## What is modelled

**Document processing.** `FileLock` is the promise-chain lock around the JSON files, with mutual
exclusion in arrival order and equivalence to a sequential run. `DocumentQueue` is the file queue
as a class whose calls go through that lock; `DocumentLeases` proves lease periods disjoint and
fenced calls ordered by token. `DocumentWorker` splits `processClaimedJob` at every await;
`DocumentFence`, `DocumentOutcomes`, `DocumentNoLostWork` and `DocumentDerivatives` prove what the
fence, the queue and the derivatives guarantee and, for the last two, exactly which steps break
the guarantee. `DocumentPaths` says how an undisturbed run ends, `DocumentSteps` what a step
leaves alone, and `DocumentRaces` has concrete runs that reach such steps.

**Knowledge index.** `KnowledgeRows` holds the rows, their guarded writes and the queries;
`KnowledgeIndex` the article table with its trigger, the event lifecycle and the workers;
`KnowledgeAudiences` who finds what, `KnowledgePaths` how an undisturbed worker ends, and
`KnowledgeDeletion` when rows of a deleted article can come back.

**Governance.** `Utf16`, `Json`, `JsonRoundTrip` and `CanonicalJson` model strings as UTF-16 code
units, `JSON.stringify`, a parser for it, and the canonical print (section 3.2.3 of RFC 8785,
section 7 of RFC 8259). `GovernanceEvidence` seals evidence with it. `ApprovalPolicy` and
`Approvals` are the four-eyes state machine, run against a tamperer who rewrites payload columns,
and `ApprovalRuns` its whole runs.

**Jira.** `JiraOutbox` keeps operations and the rows they are about in step, `JiraDeliveries`
says what each transaction achieves; `JiraInbound` treats inbound events that arrive in any order
and may repeat.

**Limits and money.** `RateLimits` has the two sliding windows and the fixed-minute limiter,
`AiBudget` the cost controller, `AiGateway` the calls that reserve, reconcile and release.

**Text and embeddings.** `PageText`, `Chunker`, `PageChunks`, `DocumentText` and `NormalForm`
cover page normalisation, windowing and offsets; `Embedding` incremental embedding; `Migration`
the document migration and its dry run.

**Second factor.** `Base32` is RFC 4648 section 6 over wrapping accumulators, `Mfa` the
truncation of RFC 4226 section 5.3, TOTP verification, and concurrent authentication.

`Wrappers` and `Powers` hold shared definitions.

## Where the code falls short of what one would expect

Each item is a theorem below, with the exact condition.

- A COMPLETED document can be without text and chunks: a stalled worker's catch block deletes them
  without a guard. This can happen exactly after a claim that gets through while another live run
  may still clean up after the same document (`DocumentDerivatives.TakesOver`). Claiming again
  after a crash is harmless.
- A QUEUED document can be without a job, exactly after one of the steps of
  `DocumentNoLostWork.LosesJob`: requeueing a finished document whose job is gone or about to be
  acknowledged; withdrawing a job after an upload, once or again, although a worker has taken it
  up; and moving a document out of UPLOADED under a run that owns its job and has read it as
  UPLOADED. Other retries, and other claims of UPLOADED documents, are harmless.
- Tokens restart with every job, so an outcome can take effect on another run's mark: exactly
  after a PROCESSING mark under a (worker id, token) that another run of the document, past its
  own mark, bears too (`DocumentOutcomes.Clashes`). Worker ids with one run at a time are safe.
- A row of a deleted article can reappear after its delete event is COMPLETED, exactly if some
  worker still holds the document; queries never return it.
- Page normalisation is not idempotent exactly when a page has CR CR LF between visible
  characters.
- Usage stays within limit plus overruns in all runs exactly if actual costs are never negative.
- A resolved request can be reopened, exactly if a write that is newer, not terminal and a change
  to the open status its transaction read takes effect after the request was resolved since that
  read (`JiraInbound.OverlooksResolution`).
- Comments can go back in time, exactly if a write takes effect after a newer comment was written
  between its transaction's read and itself.
- Wrong codes are counted after they are compared, so requests sent in parallel get more than five
  guesses at one challenge: n more than four, n being how many are open at once.
- The Jira back-off throws in some run exactly when more than 21 attempts are allowed.
- Incremental embedding equals a rebuild in index and provenance too exactly if each chunk whose
  text did not change is still in its old place.
- Reindexing reports QUEUED although nothing was queued exactly if there is something to reindex
  and embedding is disabled or the document's metadata is current while a vector is not.
- A migration dry run differs from the real run exactly if two documents share a missing original,
  both pass the metadata check, and the later one's text and chunks are not blocked.

## Assumptions

SHA-256 is injective and the embedding provider deterministic. Ids that are random in the program
are fresh. A database transaction, or a conditional `updateMany`, is one atomic step unless a
module splits it (approvals, the index workers, MFA and the last section of `JiraInbound` do).
Every change of an article's content raises its version and article ids are never reused. Company
ids contain no colon.

## Model

| member | source | states |
|---|---|---|
| FileLock.MutualExclusionInArrivalOrder | apps/web/lib/document-processing-queue.ts:79-99 | in every interleaving a call gets inside the lock only when all that arrived before it have finished |
| FileLock.EntryDeletedOnlyWhenNobodyWaits | apps/web/lib/document-processing-queue.ts:79-99 | the map entry is absent if and only if no call is inside or waiting |
| FileLock.InterleavingEqualsSequentialRun | apps/web/lib/document-processing-queue.ts:79-99 | every interleaving of locked read-modify-write calls leaves the file of the sequential run in arrival order |
| FileLock.EarliestCallCanStep | apps/web/lib/document-processing-queue.ts:79-99 | no deadlock: the earliest unfinished call can always take a step |
| DocumentQueue.LocalDocumentProcessingQueue.Enqueue | apps/web/lib/document-processing-queue.ts:148-184 | an upsert by document: a job is added if and only if the document has none |
| DocumentQueue.LocalDocumentProcessingQueue.Claim | apps/web/lib/document-processing-queue.ts:186-225 | the oldest claimable job is leased with attempts and token raised; none is returned only if none is claimable |
| DocumentQueue.LocalDocumentProcessingQueue.Renew | apps/web/lib/document-processing-queue.ts:227-254 | the lease moves exactly when owner, token and running lease all fit |
| DocumentQueue.LocalDocumentProcessingQueue.AssertLease | apps/web/lib/document-processing-queue.ts:256-275 | passes only for the owner's running lease, and says when the job is missing |
| DocumentQueue.LocalDocumentProcessingQueue.Acknowledge | apps/web/lib/document-processing-queue.ts:277-294 | removes the owner's job; a missing job is fine, a foreign one an error that changes nothing |
| DocumentQueue.LocalDocumentProcessingQueue.Release | apps/web/lib/document-processing-queue.ts:296-318 | gives the owner's job back, unclaimed and available from the given time |
| DocumentQueue.LocalDocumentProcessingQueue.RemoveForDocument | apps/web/lib/document-processing-queue.ts:320-331 | exactly the document's jobs are removed |
| DocumentQueue.ApplyKeeps | apps/web/lib/document-processing-queue.ts:148-331 | every call keeps one job per document, attempts equal to the token, and lease fields exactly on claimed jobs |
| DocumentQueue.InterleavedCallsKeepOneJobPerDocument | apps/web/lib/document-processing-queue.ts:148-331 | so does every interleaving of calls through the file lock |
| DocumentLeases.FencedCallsSucceedInTokenOrder | apps/web/lib/document-processing-queue.ts:227-318 | in every run the fenced calls that succeed on one job have non-decreasing tokens |
| DocumentLeases.LeasePeriodsNeverOverlap | apps/web/lib/document-processing-queue.ts:186-318 | in every run the lease periods of two claims of one job are disjoint and their tokens differ |
| DocumentLeases.OnlyLatestClaimPasses | apps/web/lib/document-processing-queue.ts:277-318 | a caller that passes the fence holds the token of the job's latest claim |
| DocumentLeases.RepeatedClaimsReachEveryJob | apps/web/lib/document-processing-queue.ts:203-224 | no starvation: as many claims as there are claimable jobs claim each of them |
| DocumentLeases.JobBecomesClaimable | apps/web/lib/document-processing-queue.ts:203-224 | a consistent job is claimable if and only if it is available and holds no running lease |
| DocumentWorker.StatusChangesFollowTheTable | apps/web/lib/document-processing-state.ts:13-21 | every step of workers and services keeps each document's status or follows the transition table |
| DocumentPaths.UploadIsQueued | apps/web/lib/document-services.ts:260-297 | a new document becomes QUEUED with one job that can be claimed at once |
| DocumentPaths.UndisturbedRunCompletes | apps/web/lib/document-processing-worker.ts:105-252 | from any state: a run that nobody disturbs completes the uploaded, queued or abandoned document it claims, with derivatives, one more attempt and no job, and changes nothing else |
| DocumentPaths.ThrowingRunEnds | apps/web/lib/document-processing-worker.ts:254-332 | from any state: a run whose processing throws leaves no derivatives; the document is FAILED, QUARANTINED or QUEUED by retryability and attempts, and in the last case its job is free and due after the doubled delay |
| DocumentPaths.SettledDocumentIsLeftAlone | apps/web/lib/document-processing-worker.ts:105-147 | a run that finds its document settled or deleted changes nothing but to remove the job |
| DocumentFence.FenceIsThePair | apps/web/lib/document-repositories.ts:702-745 | in every run a guarded write that passes finds its own (worker id, token) in the latest mark, and that mark is its own run's if and only if it was made for the same job |
| DocumentOutcomes.AtMostOneOutcomePerSpell | apps/web/lib/document-processing-worker.ts:211-332 | in every run each PROCESSING mark gets at most one guarded outcome |
| DocumentOutcomes.OutcomeNeedsOwnMark | apps/web/lib/document-processing-worker.ts:211-332 | in every run without a clash of pairs an outcome takes effect only while the run's own mark is the latest |
| DocumentOutcomes.ForeignOutcomeIff | apps/web/lib/document-repositories.ts:702-745 | in every state such a run reaches, a step can lead to an outcome on another run's mark, without another clash, if and only if it clashes: a PROCESSING mark under a (worker id, token) that another run of the document, past its own mark, bears too |
| DocumentOutcomes.SequentialWorkersNeverClash | apps/web/lib/document-processing-worker.ts:119-147 | runs in which each worker id has at most one run at a time never clash |
| DocumentNoLostWork.UnfinishedDocumentKeepsItsJob | apps/web/lib/document-processing-worker.ts:119-147 | in every run without a step that loses a job, a QUEUED or PROCESSING document has a job in the queue |
| DocumentNoLostWork.JobIsLostIff | apps/web/lib/document-services.ts:281-297 | in every state such a run reaches, a step can lead to a document without its job, by harmless steps only, if and only if it is one of the steps that lose a job |
| DocumentNoLostWork.UnfinishedDocumentCanBeClaimed | apps/web/lib/document-processing-worker.ts:289-332 | from some time on the job of an unfinished document is claimed in its turn |
| DocumentDerivatives.CompletedKeepsDerivatives | apps/web/lib/document-processing-worker.ts:205-264 | in every run without a takeover a COMPLETED document has its derivatives, whatever crashes, lapses, is retried or is claimed again |
| DocumentDerivatives.DerivativesAreLostIff | apps/web/lib/document-processing-worker.ts:257-264 | in every state such a run reaches, a step can lead to a COMPLETED document without derivatives, without a takeover after it, if and only if it is a takeover |
| DocumentRaces.UploadRaceLosesJob | apps/web/lib/document-services.ts:281-297 | a run that leaves a QUEUED document without a job because it was claimed while UPLOADED |
| DocumentRaces.ReprocessRaceLosesJob | apps/web/lib/document-services.ts:323-343 | a run that leaves a QUEUED document without a job because reprocessing met an acknowledgement |
| DocumentRaces.StaleWorkerDeletesDerivatives | apps/web/lib/document-processing-worker.ts:254-264 | a run that leaves a COMPLETED document without derivatives |
| DocumentRaces.TokensRestartWithEveryJob | apps/web/lib/document-repositories.ts:702-745 | a run in which a stale run's guard matches the mark of another run of the same worker id |
| KnowledgeRows.KnowledgeSearchAdapter.Upsert | apps/web/lib/knowledge-indexing.ts:153-178 | replaces a row unless the stored version is newer; all other rows stay |
| KnowledgeRows.KnowledgeSearchAdapter.Remove | apps/web/lib/knowledge-indexing.ts:179-185 | removes the row up to the given version only |
| KnowledgeRows.KnowledgeVectorAdapter.Upsert | apps/web/lib/knowledge-indexing.ts:481-516 | the same guard for vector rows, with content hash and embedding |
| KnowledgeRows.KnowledgeVectorAdapter.Remove | apps/web/lib/knowledge-indexing.ts:623-629 | removes the vector row up to the given version only |
| KnowledgeRows.FilterDropsNothing | apps/web/lib/knowledge-indexing.ts:39-55 | for a joined row the audience clause of the query and the permission check agree, so the filter after LIMIT never shortens a page; who that admits is the subject of `KnowledgeAudiences` |
| KnowledgeRows.EverythingIsSearchable | apps/web/lib/knowledge-indexing.ts:660-692 | the indexed text contains the title, the summary, the body and every tag |
| KnowledgeIndex.QueriesReturnCurrentDocuments | apps/web/lib/knowledge-indexing.ts:211-229 | in every run what either query returns is the document, hash and embedded text of the article's current version, which is indexable |
| KnowledgeIndex.CompletedMeansFound | apps/web/lib/knowledge-index-worker.ts:192-252 | in every run, once the current version's event is COMPLETED and the article indexable, every permitted reader finds it by both queries exactly when the text matches |
| KnowledgeIndex.WorkersKeepCurrentRows | apps/web/lib/knowledge-index-worker.ts:118-252 | no worker step, however late, drops or changes current rows of an indexable article |
| KnowledgeIndex.DeadLetterHidesArticle | apps/web/lib/knowledge-index-worker.ts:75-92 | the current version always has its event, and when that is dead-lettered no query returns the article |
| KnowledgeIndex.ArticlesAreIndependent | apps/web/lib/knowledge-index-worker.ts:192-252 | any interleaving over all articles looks to one article like the run of its own steps |
| KnowledgeAudiences.OrganizationsAreIsolated | apps/web/lib/knowledge-indexing.ts:187-246 | in every run no query returns to an organization an article owned by another one, and of the platform's only platform-wide and public ones |
| KnowledgeAudiences.PublicAndPlatformAreIsolated | apps/web/lib/knowledge-indexing.ts:187-246 | in every run the public is returned public articles only, and the platform platform-owned ones only |
| KnowledgeAudiences.UnpublishedIsHidden | apps/web/lib/knowledge-indexing.ts:217-233 | in every run drafts, archived, private and quarantined articles are returned to nobody |
| KnowledgeAudiences.MembersFindTheirOwn | apps/web/lib/knowledge-indexing.ts:187-246 | in every run, once the current event is COMPLETED, an organization finds its own organization-wide and public articles exactly by their text |
| KnowledgeAudiences.PlatformArticlesAreFound | apps/web/lib/knowledge-indexing.ts:187-246 | likewise the public articles of the platform by everybody, those of organizations by the public, and platform-wide ones by organizations and the platform |
| KnowledgePaths.UndisturbedRunIndexes | apps/web/lib/knowledge-index-worker.ts:192-252 | from every reachable state: a worker that claims the due event of a published article and is not disturbed completes it, and both rows hold the current text |
| KnowledgePaths.UndisturbedRunRemoves | apps/web/lib/knowledge-index-worker.ts:192-222 | for an article that is deleted or not to be shown it removes both rows up to that version |
| KnowledgePaths.SupersededRunChangesNothing | apps/web/lib/knowledge-index-worker.ts:200-208 | and none if another version is current |
| KnowledgePaths.CompletionFollowsWork | apps/web/lib/knowledge-index-worker.ts:192-252 | in every run a worker that completes its event has read the article and removed both rows, or written both, or found another version current |
| KnowledgePaths.FailureEnds | apps/web/lib/knowledge-index-worker.ts:134-181 | a failure makes the event due again after the doubled delay; the last one buries it and quarantines exactly the version it is about |
| KnowledgePaths.ExhaustIff | apps/web/lib/knowledge-index-worker.ts:75-92 | a lapsed lease buries an event exactly on its last attempt |
| KnowledgePaths.ReindexIff | apps/web/lib/knowledge-indexing.ts:404-460 | reindexing files a due event for a new version exactly for a platform article in the expected version |
| KnowledgeDeletion.RowsComeBackIffHeld | apps/web/lib/knowledge-index-worker.ts:200-208 | cleaned-up rows of a deleted article come back in some run if and only if a worker still holds its document |
| KnowledgeDeletion.OrphanAfterCompletedDeletion | apps/web/lib/knowledge-index-worker.ts:236-245 | a reachable state with the delete event COMPLETED and a row stored |
| JsonRoundTrip.ParsePrinted | apps/web/lib/governance-evidence.ts:55-62 | a JSON parser recovers every value from its print followed by any safe text |
| JsonRoundTrip.PrintIntForm | apps/web/lib/governance-evidence.ts:55-56 | an integer prints with a minus sign exactly if it is negative and no leading zero |
| JsonRoundTrip.PrintInjective | apps/web/lib/governance-approval-policy.ts:207-217 | two values print alike if and only if they are equal with ordered fields |
| JsonRoundTrip.PrintWellFormed | apps/web/lib/governance-evidence.ts:48-50 | prints contain no unpaired surrogate, so UTF-8 hashing loses nothing |
| Utf16.HashInjective | apps/web/lib/governance-evidence.ts:48-50 | well-formed strings hash alike if and only if they are equal |
| CanonicalJson.CanonicalIsSortedPrint | apps/web/lib/governance-evidence.ts:55-62 | the canonical print is the ordinary print of the deeply sorted value |
| CanonicalJson.CanonicalIff | apps/web/lib/governance-evidence.ts:55-62 | two values have the same canonical print if and only if they are equal with unordered keys |
| CanonicalJson.CanonicalParsesBack | apps/web/lib/governance-evidence.ts:55-62 | parsing a canonical print gives a sorted value of the same meaning |
| GovernanceEvidence.CreatedVerifies | apps/web/lib/governance-evidence.ts:187-215 | a created envelope verifies, and invalid evidence gets none |
| GovernanceEvidence.TamperingIsDetected | apps/web/lib/governance-evidence.ts:199-215 | an envelope with altered evidence verifies if and only if that is valid and means the same, and otherwise fails with the right error |
| GovernanceEvidence.ParsedVerifiesIff | apps/web/lib/governance-evidence.ts:199-215 | whatever object is parsed: it verifies if and only if it has exactly the three fields, version 1, valid evidence and that evidence's hash, and fails for the evidence, the hash or the form otherwise |
| GovernanceEvidence.UnreadableFiles | apps/web/lib/governance-evidence.ts:239-244 | a file is refused as unreadable if and only if it does not parse or goes on after the value |
| GovernanceEvidence.WrittenFileVerifies | apps/web/lib/governance-evidence.ts:217-244 | a written file verifies when it is read back, with the same evidence and hash; invalid evidence is not written |
| GovernanceEvidence.AlteredFileIsDetected | apps/web/lib/governance-evidence.ts:239-244 | a file in which the evidence was exchanged verifies if and only if the new one is valid and means the same, and otherwise fails with the right error |
| ApprovalPolicy.FingerprintIff | apps/web/lib/governance-approval-policy.ts:185-218 | two payloads share a fingerprint if and only if all columns agree and the parameters are equal with unordered keys |
| Approvals.ExecutedMeansApproved | apps/web/lib/governance-approvals.ts:370-508 | in every run, tampering included, an EXECUTED request ran once, by its requester, before expiry, with enough distinct other approvers, on the payload as first requested |
| Approvals.NotExecutedMeansNoRun | apps/web/lib/governance-approvals.ts:455-465 | a request in any other status was never executed |
| Approvals.FinalStays | apps/web/lib/governance-approvals.ts:245-249 | REJECTED, CANCELLED, EXPIRED and EXECUTED never change again |
| Approvals.NobodyDecidesOwn | apps/web/lib/governance-approvals.ts:221-236 | while the requester column is left alone, the requester never decides |
| Approvals.ReportCountsNothing | apps/web/lib/governance-invariants.ts:84-95 | the counts of malformed executions and of self-approvals stay 0 |
| ApprovalRuns.OneDecisionDecides | apps/web/lib/governance-approvals.ts:221-249 | in every run, tampering included, a request is REJECTED if and only if a rejection is stored, is APPROVED, EXECUTED or EXPIRED once an approval is, and never EXECUTED without one |
| ApprovalRuns.ExecutedIsTraced | apps/web/lib/governance-approvals.ts:75-300 | in every run the request, each decision and each execution go back to a user who had signed in with a second factor within ten minutes; untampered, deciders are in time, of the organization, and not the requester |
| ApprovalRuns.FourEyesIff | apps/web/lib/governance-approvals.ts:75-508 | request, decision and execution by anybody with any arguments end in EXECUTED if and only if each of the three was allowed, condition by condition |
| JiraOutbox.TablesStayInStep | apps/web/lib/jira-outbox.ts:89-349 | in every run the row mirrors its operation's status unless Jira reported the issue deleted since, attempts stay within bounds, a token exists exactly while PROCESSING, and a passing token guard implies current attempts |
| JiraOutbox.ClaimKeeps | apps/web/lib/jira-outbox.ts:89-151 | a whole batch claim, burying exhausted leases on the way, keeps both tables in step |
| JiraOutbox.CompletedIsFinal | apps/web/lib/jira-outbox.ts:172-184 | no later step changes a COMPLETED operation |
| JiraOutbox.BackoffArgument | apps/web/lib/jira-outbox.ts:60-65 | a failure that does not bury asks for a back-off of attempt 1 to maxAttempts - 1 |
| JiraOutbox.BackoffThrowsIff | apps/web/lib/jira-outbox.ts:60-65 | some run makes the back-off throw if and only if more than 21 attempts are allowed |
| JiraDeliveries.ClaimHandsOutReady | apps/web/lib/jira-outbox.ts:89-151 | a batch hands out exactly the wanted operations that are ready, under one new token, and buries exactly the worn-out ones |
| JiraDeliveries.RunningLeaseHolds | apps/web/lib/jira-outbox.ts:89-151 | while a lease runs, no claim hands the operation to anybody else |
| JiraDeliveries.CompleteEnds | apps/web/lib/jira-outbox.ts:164-281 | in every run completing under the token makes the operation COMPLETED and its row created or sent, and whatever follows it is handed to nobody again |
| JiraDeliveries.FailEnds | apps/web/lib/jira-outbox.ts:283-349 | in every run failing under the token ends in DEAD_LETTER exactly if the failure is final or the attempt the last, and otherwise in FAILED and due after the doubled delay, up to attempt 20 |
| JiraDeliveries.LateWorkerChangesNothing | apps/web/lib/jira-outbox.ts:164-349 | without the token neither changes anything |
| JiraDeliveries.FinishedStays | apps/web/lib/jira-outbox.ts:89-184 | a completed operation, and a buried one until it is retried by hand, stays as it is and is handed to nobody |
| JiraDeliveries.RetryRevives | apps/web/lib/jira-outbox.ts:425-476 | a retry makes exactly buried operations ready at once with all their attempts |
| JiraDeliveries.DeletedIssueShows | apps/web/lib/jira-inbound.ts:388-412 | an issue reported deleted shows as a failure on its own request only |
| JiraDeliveries.AtMostMaxAttemptsHandOuts | apps/web/lib/jira-outbox.ts:89-151 | in every run an operation is handed out at most maxAttempts times, and as often again per retry |
| JiraInbound.ResolveJiraStatus | apps/web/lib/jira-sync-policy.ts:138-159 | the status of the organisation's last entry that maps the name to one, if any, and else the default table's |
| JiraInbound.RedeliveryChangesNothing | apps/web/lib/jira-inbound.ts:184-290 | a processed status event changes nothing when redelivered at any later time |
| JiraInbound.StatusNeverGoesBack | apps/web/lib/jira-sync-policy.ts:161-175 | jiraUpdatedAt rises with every change, and a terminal request stays terminal |
| JiraInbound.EventIsTakenIff | apps/web/lib/jira-inbound.ts:213-247 | an event is shown in full if and only if its status is known, it is newer and opens nothing resolved or closed, and changes nothing otherwise |
| JiraInbound.ClosedStaysClosed | apps/web/lib/jira-sync-policy.ts:161-175 | once resolved or closed, whatever whole transactions come |
| JiraInbound.OrderIndependentIff | apps/web/lib/jira-inbound.ts:213-247 | events of any kind (unknown, stale, tied, repeated) are independent of order and repetition if and only if, among those the request would take, the latest agree and are terminal or none is |
| JiraInbound.RequestIsReopenedIff | apps/web/lib/jira-inbound.ts:213-247 | in every interleaving of status transactions a resolved request is reopened at some point if and only if some write overlooks that it was resolved since its read |
| JiraInbound.ReadsBeforeWritesReopen | apps/web/lib/jira-inbound.ts:213-247 | an older resolving and a newer open event, both read before either is written, leave the request open |
| JiraInbound.UninterruptedIsWhole | apps/web/lib/jira-inbound.ts:213-247 | read and write with nothing between them are the whole transaction |
| JiraInbound.CommentsLastWriterWinsIff | apps/web/lib/jira-inbound.ts:317-354 | a comment's final content depends only on the set of events if and only if those tied for the latest time agree, and is then the latest |
| JiraInbound.CommentErrors | apps/web/lib/jira-inbound.ts:299-331 | which comments are refused: exactly undated ones and those under another request's message |
| JiraInbound.OlderCommentOnTopIff | apps/web/lib/jira-inbound.ts:317-354 | for any message read and any current message: the write puts an older comment on top, and jiraCommentUpdatedAt goes back, if and only if the message read takes the event and the current one is newer |
| JiraInbound.CommentsGoBackIff | apps/web/lib/jira-inbound.ts:332-354 | in every interleaving of comment transactions the stored time goes back at some point if and only if some write takes effect after a newer comment was written since its read |
| JiraInbound.ReadsBeforeWritesOvertake | apps/web/lib/jira-inbound.ts:317-354 | a run in which an older comment is written over a newer one |
| RateLimits.MemoryAiRateLimiter.Consume | apps/web/lib/ai-control.ts:77-95 | allows a call exactly under all three limits and keeps the pruned list, else changes nothing |
| RateLimits.MemoryIdentityRateLimiter.Consume | apps/web/lib/identity-rate-limit.ts:51-62 | the same for one window; an invalid configuration is an error that changes nothing |
| RateLimits.PrunedDecidesAsHistory | apps/web/lib/ai-control.ts:82-93 | with a non-decreasing clock and fixed limits the pruned list decides as the full history |
| RateLimits.WindowsHoldLimit | apps/web/lib/ai-control.ts:80-90 | any window of a rule's length, wherever it lies, holds at most its limit of accepted calls |
| RateLimits.ApiRateLimiter.AssertApiRateLimit | apps/web/lib/api-rate-limit.ts:9-24 | counts per clock minute; a refused call leaves the entry as it was |
| RateLimits.AnyMinuteHoldsTwice | apps/web/lib/api-rate-limit.ts:9-24 | any sixty seconds hold at most twice the limit, a limit below one counting as one |
| RateLimits.TwiceIsReached | apps/web/lib/api-rate-limit.ts:9-24 | for every limit, negative ones included, that bound is reached |
| AiBudget.MemoryAiCostController.Reserve | apps/web/lib/ai-control.ts:166-193 | grants exactly when the key is free and neither limit would be exceeded |
| AiBudget.MemoryAiCostController.Reconcile | apps/web/lib/ai-control.ts:195-209 | frees the key and charges day and month of the moment; an unknown key changes nothing |
| AiBudget.MemoryAiCostController.Release | apps/web/lib/ai-control.ts:211-213 | frees the key and charges nothing |
| AiBudget.GrantsIff | apps/web/lib/ai-control.ts:166-193 | a reservation is granted exactly if the key is free and neither positive limit would be passed by usage and reservations |
| AiBudget.ChargesDayAndMonth | apps/web/lib/ai-control.ts:195-209 | a charge counts for its company's day and month and for no other |
| AiBudget.UsageStaysWithinLimit | apps/web/lib/ai-control.ts:166-213 | in every run a company's usage in any day or month is at most the limit plus the overruns charged there |
| AiBudget.BoundIffCostsNotNegative | apps/web/lib/ai-control.ts:200-208 | for every positive limit and every bound c on actual costs: usage stays within limit plus overruns in all runs if and only if c is not negative |
| AiGateway.DefaultAiGateway.Authorize | apps/web/lib/ai-gateway.ts:672-710 | refused by the rate limit exactly if the limiter does not allow the call, by the budget exactly if it allows it and the reservation is not granted, and otherwise adds exactly that reservation; an allowed call counts either way |
| AiGateway.DefaultAiGateway.WithRetry | apps/web/lib/ai-gateway.ts:659-670 | the provider is asked once or twice, twice exactly after a transient failure, and the last answer is the result |
| AiGateway.DefaultAiGateway.Embed | apps/web/lib/ai-gateway.ts:609-657 | succeeds exactly if there are texts, both guards let it through and the last answer is well-formed and not negative in cost, and names the error otherwise; live reservations are as found and usage is charged exactly on success |
| AiGateway.FlightsLeaveReservations | apps/web/lib/ai-gateway.ts:541-657 | however calls interleave, the reservations nobody in flight holds stay the same |
| AiGateway.AllCallsOver | apps/web/lib/ai-gateway.ts:541-657 | when all calls are over the live reservations are what they were |
| AiGateway.ReservedByLength | apps/web/lib/ai-gateway.ts:134-140 | a call reserves by the length of its texts, rounded up to four characters, under a key that exactly its purpose and correlation share |
| AiGateway.FlightsNeverRefund | apps/web/lib/ai-gateway.ts:541-657 | however calls interleave, no usage falls and no reservation is negative |
| AiGateway.BatchesOfOneJobShareKey | apps/web/lib/ai-gateway.ts:615-622 | batches of one job share a budget key whatever usage key they carry: refused while one is in flight, judged by the budget alone afterwards |
| PageText.NormalizeIdempotentIff | apps/web/lib/pdf-extractor.ts:18-22 | a page is stable under a second normalisation if and only if it has no CR CR LF between visible characters |
| PageText.TwiceDiffers | apps/web/lib/pdf-extractor.ts:81-87 | a concrete page that changes twice |
| Chunker.LastIndexOf | apps/web/lib/pdf-extractor.ts:36-37 | the last occurrence at or before the position, or -1 if there is none |
| Chunker.WindowEnd | apps/web/lib/pdf-extractor.ts:33-44 | a window is non-empty, inside the text and at most one longer than the chunk size |
| Chunker.WindowSeeksBreak | apps/web/lib/pdf-extractor.ts:33-44 | a window short of the end stops behind the last paragraph or sentence break in its last two fifths, and at its size if there is none |
| Chunker.SplitTextIntoChunks | apps/web/lib/pdf-extractor.ts:13-75 | the loop terminates with the chunks of the windows, blank ones left out |
| Chunker.WindowsChained | apps/web/lib/pdf-extractor.ts:32-72 | each window starts after the one before, not behind its end, and has length 1 to chunkSize + 1 |
| Chunker.WindowsRebuildText | apps/web/lib/pdf-extractor.ts:32-72 | dropping what windows share rebuilds the whole text |
| Chunker.ChunksCoverText | apps/web/lib/pdf-extractor.ts:46-65 | each chunk is a trimmed slice numbered by its position, and every visible character is in some chunk |
| Chunker.DefaultAdvance | apps/web/lib/pdf-extractor.ts:36-71 | with the defaults each step advances at least 522 characters |
| Chunker.DefaultChunkCount | apps/web/lib/pdf-extractor.ts:13-75 | with the defaults there are at most length / 522 chunks, rounded up |
| PageChunks.SplitPagesIntoChunks | apps/web/lib/pdf-extractor.ts:77-113 | the joined text, and the chunks of all pages moved to it |
| PageChunks.OffsetsAreRight | apps/web/lib/pdf-extractor.ts:88-112 | for pages without CR CR LF inside, each chunk lies in its own page's span, equals the trimmed slice of the joined text, and is numbered by its position |
| PageChunks.PageCoveredIff | apps/web/lib/pdf-extractor.ts:77-113 | a page's chunks reach the end of its span if and only if it has no CR CR LF inside |
| DocumentText.NoCrLeft | apps/web/lib/document-text-normalization.ts:3-13 | normalised document text has no carriage return |
| NormalForm.NothingVisibleIsLost | apps/web/lib/document-text-normalization.ts:3-13 | the visible characters stay, in order, all of them unless the text is cut |
| NormalForm.ResultIsNormal | apps/web/lib/document-text-normalization.ts:3-13 | no control characters, single spaces only and none beside a line feed, at most three line feeds in a row, trimmed unless cut |
| NormalForm.NormalTextStays | apps/web/lib/document-text-normalization.ts:3-13 | such text stays as it is, so normalising twice is normalising once |
| DocumentText.DocumentOffsetsAreRight | apps/web/lib/document-intelligence.ts:89-94 | so every document's chunk offsets are right |
| Embedding.EmbedDocument | apps/web/lib/document-embedding.ts:373-448 | the batch loop embeds the changed chunks and deletes stale vectors; a crash leaves exactly a first part of that work |
| Embedding.IncrementalEqualsRebuild | apps/web/lib/document-embedding.ts:380-443 | for any faithful store the ids, hashes and vectors of the active model and version are those of a rebuild |
| Embedding.RerunAfterCrashesEqualsRebuild | apps/web/lib/document-embedding.ts:392-436 | also after any number of crashed runs over any contents |
| Embedding.OtherVersionsUntouched | apps/web/lib/document-embedding.ts:437-443 | vectors of other models and versions stay as they are |
| Embedding.UpToDateIffNothingToDo | apps/web/lib/document-embedding.ts:156-181 | the plan is UP_TO_DATE if and only if the metadata is current and the worker would embed nothing and change no vector |
| Embedding.MetadataCurrentIff | apps/web/lib/document-embedding.ts:156-181 | metadata written for some chunks is current for others exactly if status, model, version and dimensions fit and the ids and texts are the same in order |
| Embedding.ReportsQueuedInVainIff | apps/web/lib/document-embedding.ts:77-199 | a real reindex reports QUEUED with nothing queued if and only if the store is not a rebuild while the metadata is current, or embedding is disabled and the metadata is not current |
| Embedding.QueuedInVain | apps/web/lib/document-embedding.ts:77-199 | current metadata over an empty store, or embedding disabled: QUEUED is reported and nothing is queued |
| Embedding.WholeRecordsEqualRebuildIff | apps/web/lib/document-embedding.ts:389-424 | index and provenance included, the active records are those of a rebuild if and only if every chunk that is not embedded again already has its own place in its record |
| Embedding.MovedChunkKeepsOldPlace | apps/web/lib/document-embedding.ts:389-424 | a chunk whose text stayed and whose index or provenance moved keeps its old record |
| Migration.TargetServices.CopyObject | apps/web/lib/document-migration.ts:49-77 | copies unless present, fails on another object under the key, and writes nothing on a dry run |
| Migration.TargetServices.MigrateDocuments | apps/web/lib/document-migration.ts:122-221 | the report and the target after migrating every document and the history |
| Migration.DryRunPredictsRealRun | apps/web/lib/document-migration.ts:122-221 | with distinct ids and stored names a dry run changes nothing and gives the real run's report |
| Migration.SecondRunDoesNothing | apps/web/lib/document-migration.ts:122-221 | with distinct ids a second real run copies nothing, migrates nothing and leaves the target alone |
| Migration.NotFailedMeansArrived | apps/web/lib/document-migration.ts:134-190 | every document that does not fail is in the target whole, with the original's checksum |
| Migration.ReportIsRight | apps/web/lib/document-migration.ts:122-190 | each document is in exactly one list, failed, skipped or migrated, by what the target held when its turn came |
| Migration.CopiesAreCounted | apps/web/lib/document-migration.ts:122-221 | the target grows by at least the copies reported, and by exactly those if nothing fails |
| Migration.DryRunPredictsIff | apps/web/lib/document-migration.ts:122-221 | with distinct ids the two reports agree if and only if no original is copied for one document and counted again for a later one |
| Migration.SharedNameMiscounts | apps/web/lib/document-migration.ts:134-190 | two documents that share a name whose original is only in the source: the two reports differ |
| Base32.Base32Encode | apps/web/lib/mfa.ts:23-37 | the wrapping accumulator computes the quintet encoding of section 6 of RFC 4648 |
| Base32.Base32Decode | apps/web/lib/mfa.ts:39-55 | the wrapping accumulator computes the octet decoding, or the error for a foreign letter |
| Base32.RoundTrip | apps/web/lib/mfa.ts:23-55 | decoding an encoding gives the bytes back, for every length |
| Base32.AnyCaseAndPaddingDecodes | apps/web/lib/mfa.ts:39-55 | so does the encoding in any mixture of cases and with any padding |
| Base32.WhiteSpaceIsIgnored | apps/web/lib/mfa.ts:39-41 | white space before the last letter does not matter |
| Base32.DecodesIff | apps/web/lib/mfa.ts:39-55 | decoding fails exactly for a letter outside the alphabet |
| Mfa.EncodedSecretWorks | apps/web/lib/mfa.ts:95-107 | an encoded secret gives the codes of its bytes |
| Mfa.TruncationReadsFourBytes | apps/web/lib/mfa.ts:100-107 | the number is what the four bytes at the offset spell in bits, most significant first, without the top bit; the code is its remainder modulo a million |
| Mfa.RfcExample | apps/web/lib/mfa.ts:100-107 | the example of section 5.4 of RFC 4226 |
| Mfa.FitsWithinHalfAMinute | apps/web/lib/mfa.ts:109-127 | a code fits from half a minute before its half minute to half a minute after it |
| Mfa.VerifyTotp | apps/web/lib/mfa.ts:109-127 | returns the lowest unused counter in the window whose code fits, or none if none does |
| Mfa.AuthenticatesIff | apps/web/lib/identity-auth.ts:431-532 | an uninterrupted request authenticates, and uses up challenge and factor, if and only if the challenge is open, in time and below five attempts and the code is the user's, unused and in time; otherwise an open challenge counts an attempt |
| Mfa.FinishLooksAgain | apps/web/lib/identity-auth.ts:484-532 | from any state: the transaction of a request that waited authenticates if and only if challenge and factor are still usable then |
| Mfa.EachUsedOnce | apps/web/lib/identity-auth.ts:503-532 | in every interleaving a challenge authenticates once at most, a recovery code is used once at most, and attempts stay within five |
| Mfa.GuessesIff | apps/web/lib/identity-auth.ts:442-502 | a challenge takes k wrong codes in some run with at most n requests open at once if and only if k is at most 4 + n (none for n = 0): five in sequence, more only in parallel |
| Mfa.CountersIncrease | apps/web/lib/identity-auth.ts:515-526 | accepted counters of a method strictly increase |
| Mfa.BoundedAcceptances | apps/web/lib/identity-auth.ts:467-526 | between two times a method accepts at most three codes more than counters pass |

## Left out

- The notification outbox and the embedding queue: further instances of the machines in `JiraOutbox`, `FileLock`, `DocumentQueue` and `DocumentLeases`.
- The inbound event lifecycle (claim, fail, retry, dead letter): the outbound one without a mirrored row; redelivery is modelled as repetition.
- Retrying and reprocessing documents by hand beyond enqueueing and the move to QUEUED: a retry that is refused withdraws the job it enqueued, and reprocessing ends by deleting the derivatives without a guard, so both can race with a worker as well.  Two concurrent uploads of one document can also lose its job.
- The change to FAILED when enqueueing an upload fails for want of the database or the disk; after a refused move to QUEUED it is refused as well, because the document has left UPLOADED for good.
- Resolving a quarantined document by hand, hard deletion, storage clean-up and the heartbeat's metadata write.
- The embedding worker's own lease and status writes: `Embedding` has its store and batches, and the late unguarded upsert of a worker that lost its lease is not one of its steps.
- Several articles in one LIMIT 50 page, their ranking and scores: each row is judged by itself.  The row status READY, which the modelled code always writes, is not a column of the model.
- The Redis cache of the knowledge index, the Redis limiters and queues, and the PostgreSQL cost controller.
- JSON numbers that are not integers or are 10^21 or more, and values of type undefined; the field checks of evidence are one predicate.  Evidence files are read in the form in which they are written, without insignificant white space before the end, and a hash field that is not a string counts as malformed.  Instants in a fingerprint print as integers, and its parameter names sort by code unit where the program uses locale order.
- The reading of a chunk size times 0.6 is the exact three fifths; NFC is an arbitrary function; upper-casing a secret is the ASCII one.
- KnowledgeIndex.FailKeeps: does not model the back-off rejecting an attempt above 20, as `JiraOutbox` does.
- AiGateway.FlightsLeaveReservations: assumes an event sink that does not throw after usage was recorded.
- The answer call of the gateway: the embedding call with another request type and key.
- Mfa.EachUsedOnce: replaced recovery codes are not deleted in the model, and a hash is never issued twice.
- Rounding of costs, time zones, clocks and random numbers: exact reals, numbered days and months, and parameters.
