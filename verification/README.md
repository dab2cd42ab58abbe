# CRM protocols, modelled and proved in Dafny

The CRM keeps its promises with single-statement compare-and-set updates and
atomic database batches: one lease row fences everything that touches the
Exchange mailbox, a send never happens twice, a credential pointer never dangles,
delivery statuses converge, integration commands are serializable, attachments
are served only when proved clean, and refresh tokens are redeemed once. This
project models those protocols and proves them over every run.

`dafny verify dfyconfig.toml` checks all of it.

## How the model is built

* **Rows** are datatypes, and every SQL statement or batch is a function from
  rows to rows and a result (`*Store.dfy`, and the first part of `ExchangeSync`,
  `MailgunEvents` and `Integration`). Beside them stand classes whose fields are
  the tables and whose methods carry the statements out: each is proved equal to
  its function and says what that means for its caller.
* **Calls** are processes. Each has one program-counter value per await of the
  source, which carries the local variables still needed. Everything a call
  cannot choose is in the event that moves it: the clock reading, the drawn
  identifiers, the provider's answer, and whether the step was acknowledged, took
  effect unnoticed or failed. Any process may crash between steps.
* **Results** are about `Run(START, es)` for every list of events `es`: every
  interleaving of any number of calls.

| files | what they cover |
|---|---|
| `ExchangeConnectionStore`, `ExchangeLeaseFencing`, `ExchangeCredentialRotation` | the connection row, lease, OAuth flows, cleanup queue; token rotation against the vault |
| `ExchangeTokenVault`, `Base64Url` | conditional bucket writes and tombstones; the key and envelope encoding |
| `ExchangeSendStore`, `ExchangeSend` | the send-once protocol and the reconciler that repairs uncertain sends |
| `ExchangeSync` | folder cursors and message links |
| `MailgunEvents`, `MailgunEventStore` | delivery events racing with the message insert; the loops that link and derive |
| `Integration`, `CanonicalJson` | the command executor and the text its fingerprints are computed from |
| `AttachmentScanStore`, `AttachmentScan` | the malware-scan queue, receipts, and serving |
| `AttachmentUploadStore`, `AttachmentUpload`, `AttachmentUploadRetry` | upload quota, finalization, and retries after a half-done batch |
| `AttachmentBytes`, `Utf8` | the bytes themselves: chunks, staging, assembly, and the strict decoder text goes through |
| `MobileAuthStore`, `MobileAuth` | mobile sessions and refresh-token families |
| `ByteStreams`, `Wrappers` | reading a stream piece by piece; options, clocks and other shared types |

## Assumptions

* A statement is atomic, a batch is all-or-nothing, and either takes effect at
  the step that runs it or not at all.
* Drawn identifiers are compared only. Where freshness matters it is a guard of
  the step: lease owners and credential versions are never drawn twice, and
  bucket versions are never reused. The mobile-session and upload results need no
  freshness at all, because the unique indexes refuse a collision.
* SHA-256 is injective: a digest stands for its content. Conditional bucket writes
  are atomic.
* Clock readings are arbitrary everywhere. The two results that need more say so
  in their `requires`: `ActiveQuotaHolds` and `ExpiredLeaseNeverReturns`.

## Where the code does less than it says

* **Renewing a scan lease can shorten it**, and can bring back a lease that had
  expired: `renewScanJob` computes the new end from a clock reading taken at the
  start of the call, and writes it after two more awaits
  (lib/attachment-scan-store.ts:148-158). `RenewalCanShorten` and
  `LateRenewalRevives` are the concrete cases, `RenewalShortensIff` and
  `ExpiredLeaseRevivesIff` say exactly when it happens. The ten-minute bound holds
  regardless.
* **Base64url does not round-trip the empty string** nor more than 18432 bytes:
  the decoder's pattern needs a character and its length limit is on the text
  (lib/exchange-token-vault.ts:341-343). The vault never encodes either.
* **Canonical JSON is not injective on every parsed value**: a literal out of
  range parses to an infinity, which prints `null`, and -0 prints `0`
  (lib/integration.ts:24). `CanonicalIffSameMeaning` states exactly what is kept.
* **A staged `first()` that skips rows can never commit**, since its guard
  compares the whole result with the one row (lib/integration.ts:116-121).
  `FirstOfTwoNeverCommits` is a service that hits it; `GuardsHoldIff` says what the
  guards check, and `UndisturbedCommitsIff` that skipped rows are the only
  obstacle for a command nobody disturbs. No service of the application hits it:
  every `first()` in lib/crm-accounts.ts:138-203 and lib/integration.ts:132-180
  selects by primary key or has `LIMIT 1`, and `SelectingOneCommits` says that is
  enough.
* **The finalizing batch is not both-or-neither** (lib/attachment-v2-transfer.ts:204-223):
  when the duplicate the finalizer found is deleted before the batch, its own row
  is inserted and the upload stays uncommitted. `InsertMaySurviveAlone` is the
  concrete case, `SurvivesAloneIff` and, over every run, `RowSurvivesAloneIff` say
  exactly when; a finalizer that found no duplicate is not affected. A retry
  commits the upload with that row while it is live (`RetryCommitsTheRow`); once
  the row is deleted, the insert of every retry fails on the row's own key, unless
  another live row has the same bytes (`PresentRowThrowsIff`,
  `DeletedRowBlocksRetries`).

## Model

| member | source | states |
|---|---|---|
| ExchangeConnectionStore.ConnectIsBothOrNeither | lib/exchange-connection-store.ts:143-171 | in every state the connect batch moves the pointer exactly when it completes the flow, and exactly then its caller gets the row; otherwise nothing changes |
| ExchangeConnectionStore.Rows.Write | drizzle/0020_cynical_the_order.sql:11-19 | whatever a statement writes, no credential version drops out of sight: every version that was the pointer or queued still is, or the new pointer is one of them; nothing is queued while the pointer stays |
| ExchangeConnectionStore.Rows.Ensure | lib/exchange-connection-store.ts:59-72 | after it there is a connection row, one that existed is never overwritten, and no guarded statement is admitted that was not before |
| ExchangeConnectionStore.Rows.Acquire | lib/exchange-connection-store.ts:75-88 | success means nobody held the lease; from then on only this owner is admitted, for at most 60 s; generation, pointer and cleanup are as before; a refusal changes nothing |
| ExchangeConnectionStore.Rows.Renew | lib/exchange-connection-store.ts:95-115 | succeeds exactly for an admitted guard of a connected mailbox; then that guard, and no other owner, is admitted until 60 s from now |
| ExchangeConnectionStore.Rows.Release | lib/exchange-connection-store.ts:117-122 | done exactly by the lease owner, after which no guard at all is admitted; anybody else changes nothing |
| ExchangeConnectionStore.Rows.Commit | lib/exchange-connection-store.ts:125-140 | only an admitted guard commits, and only once: the spent guard is never admitted again, the same lease at the next version is; no credential version drops out of sight |
| ExchangeConnectionStore.Rows.Connect | lib/exchange-connection-store.ts:143-171 | the batch as executed: pointer and flow together, or no row changes at all |
| ExchangeConnectionStore.Rows.Disconnect | lib/exchange-connection-store.ts:174-195 | on success the pointer is gone but accounted for in the cleanup queue, no guard of this generation or an older one is ever admitted, and no flow of one is active; a refusal leaves row and queue alone; only active flows of those generations fail |
| ExchangeConnectionStore.Rows.OpenFlow | lib/exchange-connection-store.ts:197-218 | state hashes stay unique and an operator keeps at most one active flow; a created flow is pending, of the present generation and expires within its limit; no other flow becomes active or changes while active |
| ExchangeConnectionStore.Rows.ClaimCallbackFlow | lib/exchange-connection-store.ts:220-229 | once: after it no flow with this state hash can be claimed at this time or later; only a movable pending flow with that hash changes, to staging |
| ExchangeConnectionStore.Rows.FinishCallbackFlow | lib/exchange-connection-store.ts:231-241 | once: an unexpired staging flow of the present generation becomes ready and claimable, and finishing it again never succeeds; a refusal changes nothing |
| ExchangeConnectionStore.Rows.ClaimFinalizeFlow | lib/exchange-connection-store.ts:243-255 | once: a flow is consumed only by its binder and operator, is then the one the connect batch looks for, and no later claim of it succeeds, whoever asks |
| ExchangeConnectionStore.Rows.Fail | lib/exchange-connection-store.ts:271-275 | succeeds exactly on an active flow, which is never active again; finished flows and all others are as before |
| ExchangeConnectionStore.Rows.Queue | lib/exchange-connection-store.ts:280-288 | adds at most the given version and never the active pointer; afterwards the version is the pointer or queued |
| ExchangeConnectionStore.Rows.Complete | lib/exchange-connection-store.ts:308-315 | never forgets the active pointer; of the queue it removes the given version and nothing else |
| ExchangeLeaseFencing.WritesFormBlocks | lib/exchange-connection-store.ts:95-195 | over every sequence of statements with any clock readings, the successful guarded writes of one owner are contiguous |
| ExchangeLeaseFencing.DisplacedOwnerIsFenced | lib/exchange-connection-store.ts:75-122 | once the lease is held by another owner or by nobody, no write guarded by the earlier owner ever succeeds again |
| ExchangeLeaseFencing.DisconnectClosesGeneration | lib/exchange-connection-store.ts:174-195 | after a disconnect no write of that generation or an older one succeeds and no flow created in one moves |
| ExchangeLeaseFencing.FlowConnectsAtMostOnce | lib/exchange-connection-store.ts:143-171 | no OAuth flow connects twice in any run |
| ExchangeLeaseFencing.AchievedByHolder | lib/exchange-mail-store.ts:26-28 | every guarded write, mail writes included, is by the lease holder and of the present generation |
| ExchangeLeaseFencing.CallMovesFlows | lib/exchange-connection-store.ts:197-275 | any statement takes a flow at most one station forward or fails it, and changes nothing else of it |
| ExchangeLeaseFencing.FlowsOnlyGoForward | lib/exchange-connection-store.ts:197-275 | over every run a flow only goes forward and its end is final |
| ExchangeCredentialRotation.PointerIsAlwaysLive | lib/exchange-connection-service.ts:110-361 | in every run of connect, check, access and disconnect, with crashes and lost acknowledgements at any await, the object the row points at is a live value holding the very token the provider issued for it |
| ExchangeCredentialRotation.QueuedVersionNeverReturns | lib/exchange-connection-service.ts:373-410 | a credential version that was ever queued for cleanup never becomes the active pointer |
| ExchangeCredentialRotation.QueuedUntilErased | lib/exchange-connection-service.ts:384-410 | from the moment a version is queued, in every continuation, it is on the queue or its vault object is missing or a tombstone: nothing is taken off while it can still be read |
| ExchangeCredentialRotation.DeadStaysDead | lib/exchange-connection-service.ts:384-396 | a version that is dead (queued, tombstoned or abandoned) stays dead over every run |
| ExchangeTokenVault.ReplacementSeesNoChange | lib/exchange-token-vault.ts:256-280 | no lost updates: after any other conditional writes, a replacement conditioned on a read etag succeeds exactly when the object is still the one read |
| ExchangeTokenVault.CreationNeverReplaces | lib/exchange-token-vault.ts:147-172 | a create-only write never replaces a live or tombstoned object |
| ExchangeTokenVault.Bucket.PutConditional | lib/exchange-token-vault.ts:262-280 | writes at most the one object, under an etag no object carries, so that the same condition is used up; a conflict changes nothing; versions stay in order for every earlier reader |
| ExchangeTokenVault.Bucket.TombstoneCredential | lib/exchange-token-vault.ts:162-172 | revokes exactly the version that was read; afterwards neither a replacement of that version nor a create-only write of the key is permitted, and every other object is as before |
| ExchangeTokenVault.ReadBoundedBody | lib/exchange-token-vault.ts:282-316 | the body is returned whole exactly when it has the declared size, in at most 256 pieces and 24 KiB |
| Base64Url.RoundTrip | lib/exchange-token-vault.ts:337-349 | decode after encode gives the bytes back exactly for 1 to 18432 bytes; the empty string and longer ones are refused |
| Base64Url.EmptyDoesNotRoundTrip | lib/exchange-token-vault.ts:342 | the empty byte string encodes to the empty string, which the decoder refuses |
| Base64Url.AcceptsOnlyEncodings | lib/exchange-token-vault.ts:341-349 | decode accepts exactly the canonical encodings of 1 to 18432 bytes |
| Base64Url.DecodeReadsCleanSextets | lib/exchange-token-vault.ts:341-349 | what decodes, and to what: alphabet, length, and unused bits that are zero |
| Base64Url.EncodeIsUnpadded | lib/exchange-token-vault.ts:337-339 | replacing two letters and stripping the padding of standard base64 is the unpadded url alphabet on the sextets |
| Base64Url.KeyPatternIffThirtyTwoBytes | lib/exchange-runtime.ts:20 | the 43-character startup pattern accepts exactly the strings the vault decodes to 32 bytes |
| Base64Url.DecodeBase64Url | lib/exchange-token-vault.ts:341-349 | the byte-copying decoder computes the specified result |
| ExchangeSendStore.Sends.Create | lib/exchange-mail-store.ts:144-157 | one row per command: after a success no writer creates another at any time; the row starts prepared under the lease; correlations and graph ids stay unique |
| ExchangeSendStore.Sends.Advance | lib/exchange-mail-store.ts:160-177 | a transition is taken under the lease only; phase rank strictly climbs, the version counts it, a graph id once set stays; a duplicate graph id throws and changes nothing |
| ExchangeSendStore.Sends.Reconcile | lib/exchange-send-reconciliation.ts:194-257 | on success the command is sent under this id, one it already had is the same, and provider ids stay unique; it throws only if another Exchange command has the id, and then changes nothing |
| ExchangeSendStore.Sends.FlagManual | lib/exchange-send-reconciliation.ts:259-305 | changes at most the mark of this command, and only while it is dispatching without a provider id |
| ExchangeSend.SendsAtMostOnce | lib/exchange-outbound.ts:48-153 | over every interleaving of senders and reconcilers, with crashes and lost acknowledgements, each command creates at most one draft and submits at most once; once submitted, the stored row is past drafted and names that draft |
| ExchangeSend.StepMovesRows | lib/exchange-mail-store.ts:160-186 | any step takes a send-state row through at most one allowed transition, counted by its version |
| ExchangeSend.RowsClimbOverRuns | lib/exchange-mail-store.ts:160-186 | over every run rank and version only climb and a graph id stays |
| ExchangeSend.VersionIsBounded | db/schema.ts:1183-1186 | in every run the version is at most the rank and at most five, and the phases that need a graph id have one |
| ExchangeSend.SentUnderOwnId | lib/exchange-send-reconciliation.ts:194-257 | a command is marked sent only with an accepted row, under that row's graph id, and no two commands share a provider id |
| ExchangeSend.ResolvedCommandsAnswerTheSame | lib/exchange-send-reconciliation.ts:333-377 | after one adjudication answered accepted-as-id, the command stays sent under it and every later answer is the same |
| ExchangeSend.LaterAnswersAgree | lib/exchange-send-reconciliation.ts:146-192 | from any state in which the command is resolved, every new answer names the same id |
| ExchangeSync.NoMailIsLost | lib/exchange-sync-service.ts:33-118 | in every run with crashes, replays and delta resets, every message on every page before a stored cursor has a link row |
| ExchangeSync.SavesNeverFork | lib/exchange-mail-store.ts:46-76 | every successful save continues exactly the cursor it replaces, one page further |
| ExchangeSync.VersionAloneExtendsIff | lib/exchange-mail-store.ts:46-65 | by its version alone a save continues the stored cursor exactly when the token it read is still the stored one |
| ExchangeSync.SaversContinueIff | lib/exchange-mail-store.ts:46-65 | over every run, for every process about to save: what the version check alone lets through continues the stored cursor exactly when the stored token is the one read; under the lease it always is, and the version check never fails |
| ExchangeSync.VersionAloneCanFork | lib/exchange-mail-store.ts:46-65 | two writers: after a reset by the lease holder the late save of a displaced writer passes the version check of a cursor it does not continue; with the lease check it is refused at any time |
| ExchangeSync.Folders.Save | lib/exchange-mail-store.ts:46-65 | a success is by the lease holder, stores its token under a higher version than the one it replaced, and the same expectation never succeeds twice; a refusal changes no cursor |
| ExchangeSync.Folders.Reset | lib/exchange-mail-store.ts:68-76 | removes only the cursor of exactly the expected version, which cannot be reset again; every other cursor is as before |
| ExchangeSync.Folders.Link | lib/exchange-mail-store.ts:85-120 | a link keeps what is not given, is un-removed, and is never redirected to another CRM message |
| ExchangeSync.Folders.Remove | lib/exchange-mail-store.ts:123-135 | keeps every row and all but its removed flag; exactly links of this folder among the given ids are marked, all of them for at most 25 ids under the lease |
| MailgunEvents.Converges | lib/mailgun-event-reconciliation.ts:45-127 | whatever the interleaving of callbacks with the message insert, once all finish unbroken every matching event is linked and the stored status is the one derived from the full set |
| MailgunEvents.MessageConverges | lib/mailgun-event-reconciliation.ts:45-127 | the same for one message, whatever breaks elsewhere: it is enough that no process working for this message breaks |
| MailgunEvents.ConvergesAfterRetry | lib/mailgun-event-store.ts:61-70 | after any run with any broken calls, one more callback for the message, new or delivered again, restores links and status, if no process working for it breaks from then on |
| MailgunEvents.StepKeepsTended | lib/mailgun-event-reconciliation.ts:482-545 | every step, broken calls included, keeps it true that somebody is still going to link each matching row and refresh the stale status, unless a process working for the message breaks |
| MailgunEvents.DeriveStable | lib/mailgun-event-reconciliation.ts:547-590 | as long as no further event is linked, derived status and greatest row stay the same although rows are appended and linked elsewhere |
| MailgunEvents.SameCountSameSet | lib/mailgun-event-reconciliation.ts:514-527 | the optimistic check by count misses no link: a subset of equal count is the whole set |
| MailgunEventStore.Store.Insert | lib/mailgun-event-store.ts:35-59 | provider event ids and callback keys stay unique, rows are only appended, and delivering the same callback again changes nothing |
| MailgunEventStore.Store.LinkUnmatchedEvents | lib/mailgun-event-reconciliation.ts:94-127 | the loop links exactly the unmatched events of the message and returns how many |
| MailgunEventStore.Store.SelectLinked | lib/mailgun-event-reconciliation.ts:556-575 | exactly the linked rows, newest first by time and then row |
| MailgunEventStore.Store.LatestDeliverySnapshot | lib/mailgun-event-reconciliation.ts:547-590 | the single pass computes the derived status, the number of linked rows and the greatest row |
| MailgunEventStore.Store.RefreshDeliveryStatus | lib/mailgun-event-reconciliation.ts:482-545 | whatever rows are added and linked between snapshots and updates, a status that is written is right at that moment, and overtaken attempts write nothing |
| MailgunEventStore.LatestIsNewest | lib/mailgun-event-reconciliation.ts:556-589 | the derived status comes from the linked event with a delivery state that no other such event is newer than |
| Integration.CommandsAreSerializable | lib/integration.ts:66-129 | the tables are what the log makes of them entry by entry, and each committed command is its service run alone on the tables before it, with exactly its writes applied and its receipt rendered |
| Integration.RerunGivesTheSame | lib/integration.ts:109-129 | re-running the service on the state its batch committed at gives the same reads, writes and target |
| Integration.GuardsMakeItRunAlone | lib/integration.ts:116-121 | if every recorded read still holds, the service run here sees exactly what it was shown |
| Integration.RunsAloneIsUnique | lib/integration.ts:109-128 | a service run alone has one trace and one target |
| Integration.AppliedAtMostOnce | lib/integration.ts:90-97 | each subject and idempotency key applies its writes at most once |
| Integration.AnswersAreStored | lib/integration.ts:69-75 | every receipt answered is the stored one, for the same fingerprint; a conflict only against a different one |
| Integration.LaterCallsReplay | lib/integration.ts:69-75 | once stored, the receipt (or the conflict) is what every later call finds, forever |
| Integration.GuardsHoldIff | lib/integration.ts:116-121 | for every trace and all tables: the recorded guards hold exactly when the service run here sees the same and no first() skips rows |
| Integration.UndisturbedCommitsIff | lib/integration.ts:90-129 | a command nobody disturbs, whose slot is free, whose writes pass and whose receipt is there, commits exactly when no staged first() skips rows |
| Integration.FirstOfTwoNeverCommits | lib/integration.ts:116-121 | a concrete service that asks for the first of two rows, which no database ever lets commit |
| Integration.SelectingOneCommits | lib/crm-accounts.ts:138-203 | a service whose first() reads select at most one row, as all of the application do, commits when nobody disturbs it |
| Integration.Database.Commit | lib/integration.ts:91-102 | all guards are rechecked, then all writes applied and the receipt stored; any failure leaves the database as it was |
| Integration.StagingDatabase.ReadAll | lib/integration.ts:121 | the service is shown the rows of the real tables, and guards and writes stay those of what it has been shown |
| Integration.StagingDatabase.ReadFirst | lib/integration.ts:121 | the service is shown the first row of the real tables, or none if there is none, and guards and writes stay those of what it has been shown |
| Integration.StagingDatabase.Batch | lib/integration.ts:127 | the service is told done while the real database is unchanged, and guards and writes stay those of what it has been shown |
| Integration.StagingDatabase.Finish | lib/integration.ts:90-129 | if the batch commits, the service run alone on the tables just before gives this trace and target, and the tables are those with its writes applied; otherwise nothing changed |
| CanonicalJson.CanonicalIffSameMeaning | lib/integration.ts:24 | for all parsed values, canonical texts are equal exactly when the values mean the same JSON: equal up to key order, the sign of zero, and out-of-range numbers read as null |
| CanonicalJson.KeyOrderIsForgotten | lib/integration.ts:24 | two neighbouring keys may be swapped |
| CanonicalJson.OutOfRangePrintsNull | lib/integration.ts:24 | plain injectivity fails: an out-of-range literal prints like null and -0 like 0 |
| CanonicalJson.PrintPrefix | lib/integration.ts:24 | a printed value is read back uniquely together with what follows it |
| CanonicalJson.QuotedPrefix | lib/integration.ts:24 | a printed string ends at its closing quote and determines its code units, surrogates included |
| AttachmentScanStore.Store.Insert | lib/attachment-scan-store.ts:69-74 | adds at most one job, for the live object that was read, and leaves every job that exists as it was |
| AttachmentScanStore.Store.Reopen | lib/attachment-scan-store.ts:77-89 | a reopened job starts over in a new generation, in which every earlier lease is lost; the same object with no clean verdict grown old is left alone, and so is every other job |
| AttachmentScanStore.Store.Exhaust | lib/attachment-scan-store.ts:124-126 | exactly the expired leases on their fifth attempt become blocked |
| AttachmentScanStore.Store.Next | lib/attachment-scan-store.ts:132-134 | the claimable job with the earliest availability, then name; none only if none is claimable |
| AttachmentScanStore.Store.Claim | lib/attachment-scan-store.ts:130-140 | the next job is leased for 120 s in a new generation, with one more attempt |
| AttachmentScanStore.Store.Extend | lib/attachment-scan-store.ts:152-158 | only a lease that holds is moved, and then it holds exactly until the new end; no other lease gains or loses anything |
| AttachmentScanStore.Store.Fail | lib/attachment-scan-store.ts:159-170 | only a lease that holds fails; then no lease of the job holds, and it is claimable again after 30 s at the earliest, never after a policy refusal; a refusal changes nothing |
| AttachmentScanStore.Store.Commit | lib/attachment-scan-store.ts:174-188 | only a lease that holds publishes, under the key of its own generation; then no lease of the job holds and it is never claimable; a refusal changes nothing |
| AttachmentScanStore.WindowIsBounded | lib/attachment-scan-store.ts:152 | an authorising lease ends within ten minutes of its claim |
| AttachmentScanStore.RenewalShortensIff | lib/attachment-scan-store.ts:148-158 | a renewal shortens the lease exactly when it read its clock before the last written reading and the ten-minute bound does not decide |
| AttachmentScanStore.RenewalCanShorten | lib/attachment-scan-store.ts:148-158 | two overlapping renewals, the earlier reading written last, take five seconds away |
| AttachmentScanStore.LateRenewalRevives | lib/attachment-scan-store.ts:148-158 | a renewal that read its clock before the expiry revives the lease after it |
| AttachmentScanStore.LostStaysLost | lib/attachment-scan-store.ts:142-147 | a lease lost to another generation, state or token never authorises again, at any time |
| AttachmentScan.ServedMeansClean | lib/attachment-scan-service.ts:120-149 | a non-null answer had an instant within the call at which the live object had a committed clean verdict for exactly its version, hash and size, the receipt held what was committed and the bucket held those bytes |
| AttachmentScan.RefusedMeansNegative | lib/attachment-scan-service.ts:156-199 | a true answer of the blocking check was right at its last read: the live object was refused by policy or is infected by a backed verdict, and the bucket had held those bytes at an earlier instant within the call |
| AttachmentScan.SecondReadIsTheFirst | lib/attachment-scan-service.ts:142-147 | equal generations at the two job reads mean the completed row did not change in between |
| AttachmentScan.CompletedJobsAreBacked | lib/attachment-scan-service.ts:77-113 | in every run a completed job has its receipt stored under its own key, about its own object and with the published verdict |
| AttachmentScan.ReceiptsAreImmutable | lib/attachment-scan-service.ts:99-104 | a stored receipt is never overwritten |
| AttachmentScan.AttemptsAndWindowsAreBounded | lib/attachment-scan-store.ts:121-170 | in every run attempts stay within five, a pending job has one left, and a lease ends within 600 s of its claim |
| AttachmentScan.LostLeaseNeverReturns | lib/attachment-scan-store.ts:142-147 | over every run a lease lost to failure, completion or takeover never holds again, whatever the clocks say |
| AttachmentScan.ExpiredLeaseRevivesIff | lib/attachment-scan-store.ts:148-158 | an expired lease acts again after a step exactly when the step writes a renewal that read its clock before the expiry |
| AttachmentScan.ExpiredLeaseNeverReturns | lib/attachment-scan-store.ts:148-158 | if every renewal in flight or still to come reads its clock after the expiry, the lease never holds again |
| AttachmentScan.NegativeIsAbsorbing | lib/attachment-scan-store.ts:63-91 | infected and blocked jobs never change while the attachment names the same bytes |
| AttachmentUploadStore.InsertKeepsQuota | lib/attachment-v2-store.ts:130-142 | an admitted upload keeps every 24-hour window and the active limit, whatever the clocks of the callers say |
| AttachmentUploadStore.InsertMaySurviveAlone | lib/attachment-v2-transfer.ts:204-223 | the commit batch is not both-or-neither: a concrete row inserted although the upload is not committed |
| AttachmentUploadStore.SurvivesAloneIff | lib/attachment-v2-transfer.ts:204-223 | for all rows and arguments: the row survives alone exactly when it is inserted although the caller decided on another winner than its own object |
| AttachmentUploadStore.OwnObjectIsBothOrNeither | lib/attachment-v2-transfer.ts:204-223 | a finalizer that names its own object inserts exactly when it commits |
| AttachmentUploadStore.Store.Create | lib/attachment-v2-store.ts:133-142 | quota check and insertion are one step, and the quota is kept |
| AttachmentUploadStore.Store.Claim | lib/attachment-v2-transfer.ts:163-169 | a claim means no earlier lease may finalize any more; afterwards only this one may, for two minutes; no other upload changes and the quota is kept |
| AttachmentUploadStore.Store.Release | lib/attachment-v2-transfer.ts:226-231 | afterwards this lease may never finalize; the upload of another lease is as before and the quota is kept |
| AttachmentUploadStore.Store.Commit | lib/attachment-v2-transfer.ts:204-223 | a committed upload names a live attachment; a throwing batch changes nothing |
| AttachmentUploadStore.Store.Delete | lib/attachment-v2-store.ts:159-164 | no commit can name the attachment afterwards; every other field and row is as before and the quota is kept |
| AttachmentUpload.DailyQuotaHolds | lib/attachment-v2-store.ts:133-142 | in every run every closed 24-hour window of a creator holds at most 40 uploads and 100 MiB |
| AttachmentUpload.ActiveQuotaHolds | lib/attachment-v2-store.ts:133-142 | at any time no earlier than its latest creation a creator has at most three unexpired active uploads |
| AttachmentUpload.OneLeaseCommits | lib/attachment-v2-transfer.ts:151-231 | at most one lease commits an upload, and a committed upload never changes again |
| AttachmentUpload.CommittedUploadsAreBacked | lib/attachment-v2-transfer.ts:170-223 | in every run a committed upload names an attachment of its own owner and hash whose stored bytes have that hash and version |
| AttachmentUpload.CommitNamesLiveAttachment | lib/attachment-v2-transfer.ts:204-223 | at the step that commits it, that attachment is live |
| AttachmentUpload.RowSurvivesAloneIff | lib/attachment-v2-transfer.ts:170-223 | over every run: when a batch takes effect its row survives alone exactly when the finalizer had found a previous row and, at the batch, no live row with these bytes is left |
| AttachmentUploadRetry.SurvivorHasItsObject | lib/attachment-v2-transfer.ts:204-223 | a row that survived alone is live, its object is stored with its hash, size and version, and its upload is still to be finished |
| AttachmentUploadRetry.RunKeepsRow | lib/attachment-v2-transfer.ts:204-223 | such a row stays with its object in every continuation; once deleted it stays deleted |
| AttachmentUploadRetry.RetryCommitsTheRow | lib/attachment-v2-transfer.ts:151-223 | while the row is live, an undisturbed retry commits the upload naming it |
| AttachmentUploadRetry.PresentRowThrowsIff | lib/attachment-v2-transfer.ts:204-210 | with the row there, the insert of a retry throws exactly when it may finish and nothing live has the same owner and bytes |
| AttachmentUploadRetry.DeletedRowBlocksRetries | lib/attachment-v2-transfer.ts:204-223 | over every run: once the row is deleted, every later batch of the upload changes nothing, unless another live row has its owner and bytes |
| AttachmentBytes.ValidIffTiles | lib/attachment-v2-store.ts:46-68 | a manifest passes the size checks exactly when its parts tile the file: full chunks, one last non-empty chunk, adding up |
| AttachmentBytes.UploadRoundTrip | lib/attachment-v2-transfer.ts:42-149 | after any calls in any order with retries and interruptions, a complete upload joins to the original file and is accepted under its digest; it is assembled exactly unless it is declared plain text or CSV and is not clean text |
| AttachmentBytes.EveryPartSentCompletes | lib/attachment-v2-transfer.ts:22-81 | once every part was sent whole and recorded, the upload is complete exactly when the file starts like its declared type and not like an executable |
| AttachmentBytes.UploadableIff | lib/attachment-v2-transfer.ts:22-137 | which files can be uploaded at all: once every part was sent, exactly those that start like their type and, if declared text, are clean text |
| AttachmentBytes.BrokenTextIsRefused | tests/attachment-v2-transfer.test.mjs:184-206 | a complete text upload of two bytes that is never assembled |
| Utf8.FeedAllSplits | lib/attachment-v2-transfer.ts:126-129 | decoding chunk by chunk is decoding the whole file, wherever it is cut |
| Utf8.WellFormedIffEncoding | lib/attachment-v2-transfer.ts:89 | the strict decoder accepts exactly the UTF-8 encodings of sequences of Unicode scalar values |
| Utf8.CleanIffEncoding | lib/attachment-v2-transfer.ts:126-129 | clean text is exactly the encoding of scalar values other than zero |
| AttachmentBytes.PartsRejoin | lib/attachment-v2-store.ts:59-65 | the declared parts of a file, in order, are the file |
| AttachmentBytes.RangesAreParts | lib/attachment-v2-transfer.ts:235-264 | the served ranges are the declared parts |
| AttachmentBytes.Download | lib/attachment-v2-transfer.ts:235-264 | asking for every range in order and joining the answers gives the stored bytes |
| AttachmentBytes.AssembleBody | lib/attachment-v2-transfer.ts:85-137 | yields the concatenation of the staged chunks exactly when every chunk is there with its declared size and hash, the total is right, and text types have no zero byte and are well-formed UTF-8 to the end, characters across chunk boundaries included |
| AttachmentBytes.ReadBoundedBytes | lib/attachment-v2-protocol.ts:68-102 | the stream is returned whole exactly when it is within the limit |
| ByteStreams.Gather | lib/attachment-v2-protocol.ts:89-92 | pieces copied at growing offsets are their concatenation |
| MobileAuthStore.RotateBatchIsOneOfThree | lib/mobile-auth-store.ts:337-446 | the six-statement batch changes exactly [1,1,0,0,0,0], [0,0,1,1,1,1] or nothing, decided by the rows alone, and throws only when the new token already exists |
| MobileAuthStore.NoCollision | db/schema.ts:1034-1036 | a token nobody has passes every unique index |
| MobileAuthStore.ExchangeBatchIsAllOrNothing | lib/mobile-auth-store.ts:231-295 | the exchange batch consumes the code and creates session and token together, or changes no row |
| MobileAuthStore.OperatorRevocationIsAnsweredExactly | lib/mobile-auth-store.ts:101-125 | the operator is told a session was revoked exactly when this call revoked it |
| MobileAuthStore.Store.ExchangeAuthorizationCode | lib/mobile-auth-store.ts:231-294 | the batch as executed, rolled back as a whole when an index refuses a row |
| MobileAuthStore.Store.RotateRefreshToken | lib/mobile-auth-store.ts:337-441 | the six statements as executed, rolled back as a whole when an index refuses a row |
| MobileAuthStore.Store.RevokeKnownSession | lib/mobile-auth-store.ts:498-546 | one guard for audit and revocation: both happen exactly for a live session the token was issued to; then no rotation of that session does anything any more, and the rows stay valid |
| MobileAuthStore.Store.RevokeSessionByOperator | lib/mobile-auth-store.ts:89-126 | true exactly when a live session of this operator was revoked by this call |
| MobileAuth.OneCurrentToken | lib/mobile-auth-store.ts:305-457 | in every run a session has exactly one unrotated token, the one its row names |
| MobileAuth.BatchesAreWhole | lib/mobile-auth-store.ts:337-446 | in every run, for any presented token, the six-statement batch is a rotation, a revocation or nothing, as the rows decide |
| MobileAuth.TokensAreRedeemedOnce | lib/mobile-auth-store.ts:392-441 | no refresh token is redeemed twice in any run |
| MobileAuth.OneCallerPerToken | lib/mobile-auth-store.ts:442-456 | at most one caller ever receives a new token for the same refresh token |
| MobileAuth.RotatedTokensBuyNothing | lib/mobile-auth-store.ts:305-457 | a call that starts with an already rotated token never receives a new one |
| MobileAuth.EligibleReuseReachesTheBatch | lib/mobile-auth-store.ts:314-334 | both reads let an eligible call with a rotated token through to the batch |
| MobileAuth.ReuseRevokesForGood | lib/mobile-auth-store.ts:337-391 | once that batch takes effect the session stays revoked, nobody is let in and none of its tokens is redeemed again |
| MobileAuth.RunKeepsRevoked | lib/mobile-auth-store.ts:459-479 | a revoked session row never changes again and redeems nothing |
| MobileAuth.GrantYieldsOneSession | lib/mobile-auth-store.ts:180-303 | a grant belongs to at most one session |
| MobileAuth.OneCallerPerCode | lib/mobile-auth-store.ts:180-303 | at most one caller ever receives a session for the same authorization code |

## Left out

- The services (lib/exchange-connection-service.ts, lib/exchange-outbound.ts, lib/exchange-send-reconciliation.ts, lib/exchange-sync-service.ts, the reading and committing parts of lib/attachment-scan-service.ts, lib/attachment-v2-transfer.ts, lib/mobile-auth-store.ts and lib/integration.ts) are modelled as one step per await rather than as method bodies, because other calls run between any two awaits; their local variables live in the program counter and there is no aliasing to capture.
- ExchangeCredentialRotation.PointerIsAlwaysLive: the vault objects of OAuth flows (state and verifier) are not modelled, only those of refresh tokens.
- ExchangeConnectionStore.Rows.Complete: the order and retry counters of the cleanup listing are not modelled; a listing is any page of at most twenty queued versions without the active one.
- ExchangeSync.NoMailIsLost: the CRM conversation and contact planned for an imported message are not modelled; a projection is the pair of references its link row stores, chosen by the event.
- ExchangeSend.SendsAtMostOnce: the sent-items lookup of the reconciler is an answer of the event; matching internet message ids is not modelled.
- MailgunEvents.Converges: suppression side effects and the mapping from provider event types to delivery states are not modelled (an event carries its delivery state); Cakemail, whose recorder decides from a read before its insert, is not covered and does not converge this way.
- MailgunEventStore.Store.RefreshDeliveryStatus: what other processes do to the event rows while it runs is a parameter, one grown table per attempt; the message row itself is left alone meanwhile.
- Integration.CommandsAreSerializable: authentication, scopes, input parsing, the audit entry and the read-only operations are not modelled; a service is any function from what it has been shown to what it does next, with its clock and identifiers fixed.
- CanonicalJson.CanonicalIffSameMeaning: decimal printing of finite numbers is not modelled; a number is its shortest decimal text.
- Base64Url.DecodeBase64Url: the runtime's forgiving decoder is modelled for the alphabet and padding the vault passes to it, without whitespace.
- AttachmentScan.ServedMeansClean: scanner heartbeats are a flag of the event; the text encoding of receipts and verdict fields that are only pattern-checked are not modelled.
- AttachmentScanStore.Store.Insert: jobs are named by their attachment, of which there is at most one job, and the storage key is the one determined by the attachment.
- AttachmentUpload.CommittedUploadsAreBacked: file names, content types, authorization callbacks and owner kinds are not modelled beyond an owner that exists or not.
- AttachmentBytes.UploadRoundTrip: abort signals and failed bucket calls are not modelled beyond steps that stop without effect; the platform's fatal TextDecoder is taken to be the one of the Encoding Standard.
- MobileAuth.ReuseRevokesForGood: scopes (constant by a CHECK constraint), device names, PKCE hashing and e-mail normalisation are not modelled.
- completeFlow (lib/exchange-connection-store.ts:257-269) is not modelled; no service calls it.
- Network clients, cryptography, Graph and Mailgun request building, OAuth and JWT parsing, environment parsing, routes and user interface are not modelled; calls to them are answers of events.
- Compliance predicates, account and contact parsing, deliverability rates, timeline sorting and dashboard queries are left out: they are long lists of independent conditions that would add only easy members.
