# Verified model of the API's state machines

The Go API in `services/api/internal/httpapi` keeps its state in PostgreSQL tables, an object
store, a LiveKit server and a few in-memory structures. The guarantees that matter hold only
across several handlers and background workers. This project models those state machines in
Dafny and proves the guarantees over every run, and where one turns out not to hold it proves
exactly when it does and gives an input that breaks it.

How the model is built:

* A table is a map or a sequence of rows, a statement or a transaction is one step, and the
  clock is an argument of each step.
* What a run does is a pure function over its events; each handler or worker that changes state
  in the program is a class method proved against that function.
* A write carries how it ends: committed, rolled back, or committed while the program sees an error.
  Calls of the object store and of LiveKit carry their outcome too, and LiveKit's participant list
  is an arbitrary list. The theorems hold for every combination of these outcomes; the failures
  that are not modelled stand at the end.
* Cryptographic primitives are arbitrary functions of the right shape: `hash` for the lock key
  and for recovery codes, `Mac` for the keyed hash of a TOTP secret (twenty bytes). So is `canon`,
  which gives the id that the database reads from a text.

| file | what it models |
|---|---|
| `LegalHold.dfy` | hold placement and release against purge runs, delete handlers and the clean-up of the drive trash, interleaved statement by statement, with advisory locks, lost sessions and READ COMMITTED visibility |
| `HoldPolicy.dfy` | exactly what callers and the database must grant for a hold to protect its objects |
| `RetentionLedger.dfy` | what those purge runs and deletions mark and count, and which recordings keep their object |
| `RetentionPurge.dfy` | one purge run as the loop it is, and how many runs drain a backlog |
| `Meetings.dfy` | join, token, leave, moderation, reconciliation and the duration worker on one participant table |
| `DurationWorker.dfy` | the duration worker over all meetings, fifty a pass |
| `Subscriptions.dfy` | the subscription row and when it entitles |
| `EventInbox.dfy` | the exactly-once inbox of both billing webhooks |
| `Billing.dfy` | the subscription status machine with its log, invoices and cancellation |
| `Plans.dfy` | plan overrides, the general quota check and the meeting fast path |
| `Drive.dfy` | version history of a file under concurrent uploads, restores and renames |
| `Activity.dfy` | the six-way feed and its cursor |
| `Incidents.dfy` | operators, alerts and the escalation worker on one incident, and its timeline |
| `RateLimiter.dfy` | fixed windows with sweeping |
| `ChatHub.dfy` | the pub/sub hub with bounded buffers |
| `Scim.dfy` | SCIM PATCH and PUT for groups and users |
| `ScimRfc.dfy` | the member operations as section 3.5.2 of RFC 7644 has them, and where the handler follows it |
| `Mfa.dfy` | TOTP truncation and window, recovery codes |
| `Options.dfy` | what the others share |

Where the code falls short of what it is for, the model keeps the code and the results say where:

* A placement locks the text it was called with and a purge locks the text the database prints, so a
  hold placed with an upper-case UUID does not keep a running purge away; neither does any hold once
  the purge has lost its database session, a delete call that failed may still be carried out later,
  and the delete handlers and the clean-up of the drive trash take no lock at all. These are all the
  ways in which a held object can go (`HoldPolicy.HoldsAreSafeExactly`,
  `HoldPolicy.OtherSpellingTakesHeld`, `HoldPolicy.LostSessionTakesHeld`,
  `HoldPolicy.LateRemoveTakesHeld`, `HoldPolicy.UnlockedDeleteTakesHeld`).
* A purge can call the object store for an attachment of a held conversation, exactly when its row is
  already missing at the hold check; the object is gone by then (`LegalHold.HeldCallAtCheck`,
  `LegalHold.RemoveCallUnderHoldHappens`).
* A recording under a hold that took the purge's lock is without its object exactly if a delete
  handler took it, or a purge deleted it and did not see its transaction through
  (`RetentionLedger.RecordingHasObject`, `RetentionLedger.HeldRecordingHasObject`,
  `RetentionLedger.HeldWithoutObject`).
* Fifty meetings whose rooms never close keep the duration worker from ever reaching a later one
  (`DurationWorker.ServedExactly`, `DurationWorker.Starved`).
* A webhook delivery whose commit is not acknowledged is answered as failed and has taken effect
  (`EventInbox.OnlySuccessChanges`); sent again it is a duplicate (`EventInbox.RetryAfterFailure`).
* A subscription event of the generic webhook that carries an invoice never applies, because the
  event type gives the invoice no status (`Billing.GenericApplies`, `Billing.RenewalWithInvoiceFails`).
  Neither does an activation for a customer id that another tenant has, nor an invoice whose currency
  is three characters but not three letters, although both pass validation
  (`Billing.OthersCustomerFails`, `Billing.OddCurrencyFails`).
* A plan-inactivated webhook makes a subscription that is not entitled ACTIVE again while a scheduled
  cancellation has not reached its period end (`Billing.InactivationCanEntitle`,
  `Billing.InactivationEntitlesAgain`).
* A plan whose features do not decode to an object crashes the general quota check as soon as an
  override switches a feature, while the fast path answers (`Plans.FastPathAgrees`,
  `Plans.GeneralPathCrashes`).
* A drive upload that is overtaken by another one commits all the same, and the overtaken content is
  neither current nor recorded (`Drive.CommitKeepsHistoryWhenFresh`, `Drive.OvertakenUploadIsLost`).
* An upload whose commit goes through without acknowledgement deletes the object that is now current;
  only that takes a past content's object away (`Drive.StoredUnlessCommitLost`,
  `Drive.UnacknowledgedUploadLosesObject`).
* A feed page that ends between two rows with one timestamp loses the rest of the tie
  (`Activity.FollowListsEverything`, `Activity.TiesBeyondAPageAreLost`).
* Every change of an incident's assignee fails and takes a change of its severity back with it,
  because the statement gives the UUID column a text (`Incidents.IncidentStore.UpdateAdminIncident`).
* On authentication paths outside the five listed ones, reads and writes share a rate-limit window
  with different limits (`RateLimiter.SameBucketSameLimit`).
* A SCIM remove of the whole `members` attribute changes nothing, where section 3.5.2.2 of RFC 7644
  empties the group, and of a filter the handler reads only the first `value eq` literal
  (`ScimRfc.RemoveFollowsRfc`, `ScimRfc.BareRemoveChangesNothing`). A replace with a filter replaces
  all members, and an unknown operation that names no user is accepted (`ScimRfc.OtherVerbsFollowRfc`). An add or
  replace without a path, which sections 3.5.2.1 and 3.5.2.3 allow, is refused
  (`ScimRfc.PathlessAddIsRefused`).
* A SCIM PUT keeps the new name when its members are refused (`Scim.GroupRow.ReplaceGroup`), and
  refuses a list with duplicates that a PATCH accepts (`Scim.PutIsPatchReplace`).
* A JSON null for `active` deactivates a user like false does (`Scim.DeactivatedByFalseOrNull`), and a
  deactivation whose commit is not acknowledged leaves the sessions alive (`Scim.UserRow.PatchUser`).
* A recovery code is used twice exactly if its first use was not written down and it is presented
  again, because the error of that update is ignored (`Mfa.ConsumedOnceUnlessReused`,
  `Mfa.LostUpdateReusesCode`).

Column defaults and constraints come from the migrations in `services/api/migrations`.
Check the project with `dafny verify dfyconfig.toml`.

## Model

| member | source | states |
|---|---|---|
| `LegalHold.LockKeyNamesOneResource` | services/api/internal/httpapi/governance.go:247-249 | two lock keys are equal exactly if tenant, type and the text given for the id are |
| `LegalHold.RunKeepsInv` | services/api/internal/httpapi/governance.go:184-231 | in every interleaving each transaction past its lock statement holds the lock of the text it was called with, a placement with another lock than a purge's is on record, and every checked purge item is unheld apart from such a placement or its row was gone |
| `LegalHold.PlaceDisturbsNone` | services/api/internal/httpapi/governance.go:194-231 | a hold placement's statement takes nothing away that a purge in another transaction relies on, unless it was called with a text that takes another lock |
| `LegalHold.PurgeDisturbsNone` | services/api/internal/httpapi/governance.go:368-395 | a purge's statement takes nothing away that another open purge relies on |
| `LegalHold.DeleteDisturbsNone` | services/api/internal/httpapi/recordings.go:336-383 | a deletion without a lock leaves what an open purge relies on alone |
| `LegalHold.HeldObjectsStay` | services/api/internal/httpapi/governance.go:318-395 | no event takes an object from the store while a committed ACTIVE hold covers its recording, conversation or file, except: a purge's, if a placement was called for it with a text that takes another lock or the purge lost its session before; a delete handler's or the clean-up's that had read the row; a delete call that failed before and is carried out late |
| `LegalHold.HeldCallAtCheck` | services/api/internal/httpapi/governance.go:325-332 | right after the hold check the delete call is about to be made under a hold exactly if the item is an attachment of a held conversation whose row is missing |
| `LegalHold.RemoveCallUnderHold` | services/api/internal/httpapi/governance.go:325-332 | while a call with its session is pending it is made under a hold only if a placement took another lock, or the row was missing at the check; then the object is gone and it is no recording |
| `LegalHold.RemoveCallUnderHoldHappens` | services/api/internal/httpapi/governance.go:302-332 | a run of two purges and a placement in which that call happens |
| `HoldPolicy.HoldsAreSafeExactly` | services/api/internal/httpapi/governance.go:189-231 | no run ever takes a held object exactly if every placement that reaches a recording or conversation takes the purge's lock, then no purge may lose its session and no failed delete call is carried out late, and no recording or file that can be held is deleted without a lock |
| `HoldPolicy.CanonicalTakesTheLock` | services/api/internal/httpapi/governance.go:201 | the text that takes the purge's lock is the one the database prints, apart from colliding keys |
| `HoldPolicy.HeldWasCalled` | services/api/internal/httpapi/governance.go:189-215 | only a placement called for a resource brings it under a hold |
| `HoldPolicy.OtherSpellingTakesHeld` | services/api/internal/httpapi/governance.go:201 | for every other spelling of an id with another lock, the run in which a purge takes a held object |
| `HoldPolicy.LostSessionTakesHeld` | services/api/internal/httpapi/governance.go:366-383 | the same run with the right lock and a session lost after the check |
| `HoldPolicy.LateRemoveTakesHeld` | services/api/internal/httpapi/governance.go:383-386 | the run in which a purge's delete call fails, the hold is placed, and the store carries the call out |
| `HoldPolicy.UnlockedDeleteTakesHeld` | services/api/internal/httpapi/drive.go:261-290 | the run in which a delete handler or the clean-up takes the object of a recording or file that was held after it had read the row |
| `RetentionLedger.EachMarkCountedOnce` | services/api/internal/httpapi/governance.go:366-397 | with overlapping runs and lost commits no row is marked twice, the marked rows are those of the committed purges and of the deletions without a lock, and a run reports exactly its acknowledged commits |
| `RetentionLedger.MarkedMeansDeleted` | services/api/internal/httpapi/governance.go:383-395 | a recording with storage_deleted_at has lost its object and has retention_expired_at, whatever failed |
| `RetentionLedger.StrayedAreGone` | services/api/internal/httpapi/governance.go:368-395 | an object counts as strayed exactly if some event took it without a purge's mark: a deletion without a lock, a lost reply of the store, a call carried out late, a lost session, a rollback, or a transaction that marked nothing |
| `RetentionLedger.RecordingHasObject` | services/api/internal/httpapi/recordings.go:336-383 | in every run a recording has its object exactly if it is not marked, no open purge transaction has just deleted it, and no such event happened to it |
| `RetentionLedger.HeldRecordingHasObject` | services/api/internal/httpapi/recordings.go:338-383 | a held recording, if no placement for it was called with a text that takes another lock, still has its object exactly if no such event happened to it |
| `RetentionLedger.HeldWithoutObject` | services/api/internal/httpapi/governance.go:383-395 | a rollback after the delete, then a hold: the row claims an object that is gone |
| `RetentionPurge.RecordingTable.List` | services/api/internal/httpapi/governance.go:354-365 | the batch is the oldest fifty eligible rows, held rows filtered before the limit |
| `RetentionPurge.RecordingTable.PurgeOne` | services/api/internal/httpapi/governance.go:368-395 | one item's transaction: check, delete, guarded mark, count only after an acknowledged commit |
| `RetentionPurge.RecordingTable.PurgeListed` | services/api/internal/httpapi/governance.go:366-397 | the loop deletes, marks and counts exactly the items whose transaction got that far, for every pattern of failures and lost replies |
| `RetentionPurge.RecordingTable.PurgeExpired` | services/api/internal/httpapi/governance.go:349-398 | one run over the batch, and that a run in which every transaction goes through is a clean one that reports all its items |
| `RetentionPurge.RunShrinksEligible` | services/api/internal/httpapi/governance.go:354-397 | a run takes exactly the marked items off the eligible set and leaves held rows alone |
| `RetentionPurge.DrainsInCeilRuns` | services/api/internal/httpapi/governance.go:354-397 | n expired unheld recordings are gone after ceil(n/50) runs without faults, and not before |
| `Meetings.StepRows` | services/api/internal/httpapi/meetings.go:193-286 | whatever happens rows keep their place, departed rows stay as they are, and only a join adds a row, for a user without a live one |
| `Meetings.RunKeepsInv` | services/api/internal/httpapi/meetings.go:193-286 | every run keeps the row and meeting invariants, over all six handlers and the worker |
| `Meetings.LiveRowIsNewest` | services/api/internal/httpapi/livekit.go:24-36 | a user has at most one live row and it is the newest, so the token lookup finds it |
| `Meetings.LeftAtExactlyWhenAway` | services/api/internal/httpapi/participants.go:111-165 | left_at is set exactly while the status is DISCONNECTED, LEFT or REMOVED |
| `Meetings.DepartureIsFinal` | services/api/internal/httpapi/participants.go:240-263 | LEFT and REMOVED rows never change their status or left_at, and no row disappears |
| `Meetings.PresentWasAdmitted` | services/api/internal/httpapi/meetings.go:238-267 | in a waiting-room meeting a present row of a user other than the host was admitted by a moderator |
| `Meetings.TokenNeedsAdmission` | services/api/internal/httpapi/livekit.go:14-52 | a token in such a meeting is for a row that was admitted after it was inserted |
| `Meetings.BothIdentityFormats` | services/api/internal/httpapi/participants.go:167-174 | a user counts as online exactly if the plain id or the id before a colon is in LiveKit's list |
| `Meetings.DisconnectedSince` | services/api/internal/httpapi/participants.go:129-164 | a DISCONNECTED row has been so since the pass that demoted it, at the time in its left_at |
| `Meetings.NothingSeen` | services/api/internal/httpapi/livekit.go:42-52 | while it stays so its user was granted no token and no pass that wrote the row saw the user online |
| `Meetings.LeftOnlyAfterGrace` | services/api/internal/httpapi/participants.go:129-164 | a row is finalised as LEFT only two minutes or more after its latest demotion, with no token and no sighting in between |
| `Meetings.EndIsFinal` | services/api/internal/httpapi/realtime_moderation.go:66-99 | ENDED and CANCELLED are never left, started_at and room_closed_at are written once, an auto-ended meeting keeps one auto-end event and no live participant |
| `Meetings.SettingOnlyShortens` | services/api/internal/httpapi/meeting_duration_worker.go:89-92 | the effective limit: a workspace setting can shorten what the plan or its override allows and never extend it, and an override replaces the plan's limit |
| `Meetings.AutoEndsAtLimit` | services/api/internal/httpapi/meeting_duration_worker.go:87-102 | an event auto-ends a meeting exactly if it is a worker's pass that commits and the effective limit has passed since the start |
| `Meetings.RoomClosedAfterClose` | services/api/internal/httpapi/meeting_duration_worker.go:124-154 | room_closed_at is the time of a worker pass that closed the room or found it closed |
| `Meetings.RetriedUntilClosed` | services/api/internal/httpapi/meeting_duration_worker.go:87-154 | until the room is closed the query selects the meeting in every pass unless it was cancelled |
| `DurationWorker.PickedExactly` | services/api/internal/httpapi/meeting_duration_worker.go:87-102 | a pass picks a meeting exactly if the query selects it and fewer than fifty that it selects come before |
| `DurationWorker.Starved` | services/api/internal/httpapi/meeting_duration_worker.go:87-154 | fifty meetings whose rooms never close leave every later one unpicked and unchanged in every run of passes |
| `DurationWorker.ServedExactly` | services/api/internal/httpapi/meeting_duration_worker.go:87-154 | when the other rooms close, a selected meeting is picked within as many passes as there are meetings before it and one more, exactly if fewer than fifty of those never close |
| `DurationWorker.Worker.RunMeetingDurationEnforcement` | services/api/internal/httpapi/meeting_duration_worker.go:71-122 | one pass: the selected batch, one after the other, whatever fails |
| `Meetings.MeetingRoom.JoinMeeting` | services/api/internal/httpapi/meetings.go:193-286 | the join handler does what the join event does, including an error after the participant row is written, and keeps the invariants |
| `Meetings.MeetingRoom.LiveKitToken` | services/api/internal/httpapi/livekit.go:14-91 | the token handler grants or refuses as specified and rejoins a DISCONNECTED row |
| `Meetings.MeetingRoom.LeaveMeeting` | services/api/internal/httpapi/lifecycle.go:5-33 | leaving closes the newest live row only |
| `Meetings.MeetingRoom.ModerateParticipant` | services/api/internal/httpapi/participants.go:210-269 | the guarded updates of admit, reject and remove |
| `Meetings.MeetingRoom.ReconcileRealtime` | services/api/internal/httpapi/participants.go:111-165 | one reconciliation pass over the candidates, where any row update may fail and is ignored |
| `Meetings.MeetingRoom.ModerateMeeting` | services/api/internal/httpapi/realtime_moderation.go:66-99 | lock, unlock and end |
| `Meetings.MeetingRoom.DeleteMeeting` | services/api/internal/httpapi/meetings.go:135-166 | cancelling a meeting, refused while it is in use |
| `Meetings.MeetingRoom.EnforceDuration` | services/api/internal/httpapi/meeting_duration_worker.go:124-154 | one worker pass: end, close the room, remember the close |
| `EventInbox.OnlySuccessChanges` | services/api/internal/httpapi/billing.go:163-213 | refused and duplicate deliveries change nothing, a processed one took effect, a failed one did exactly if its commit was not acknowledged |
| `EventInbox.RetryAfterFailure` | services/api/internal/httpapi/billing.go:163-213 | a failed delivery sent again is processed if nothing had taken effect, and a duplicate exactly if it had |
| `EventInbox.LandedIdsStay` | services/api/internal/httpapi/billing_xendit_webhook.go:76-87 | once an id took effect every later delivery of it is a duplicate or a reuse and changes nothing |
| `EventInbox.SeenAreKept` | services/api/internal/httpapi/billing_xendit_webhook.go:63-106 | the registered ids are those of the deliveries that took effect, one each |
| `EventInbox.FirstSuccessWins` | services/api/internal/httpapi/billing.go:163-213 | a delivery takes effect exactly if it is valid, applies, is not rolled back, and no delivery of its id took effect before |
| `EventInbox.OnlyKeptMatter` | services/api/internal/httpapi/billing_xendit_webhook.go:63-106 | every sequence of deliveries ends in the state that those which took effect alone produce |
| `Billing.BillingIsExactlyOnce` | services/api/internal/httpapi/billing.go:132-214 | the same for billing as it stands, both webhook paths in one inbox |
| `Billing.StepKeepsLog` | services/api/internal/httpapi/billing_xendit_webhook.go:149-242 | every webhook and administrator action keeps each tenant's chain and the cancellation flag |
| `Billing.LogIsUnbroken` | services/api/internal/httpapi/billing.go:269-280 | each tenant's log is an unbroken from/to chain from the first status to the current one, CANCELED means no scheduled cancellation, and the table's constraints hold |
| `Billing.CancellationRunsOutAtPeriodEnd` | services/api/internal/httpapi/billing_xendit_webhook.go:196-214 | a scheduled cancellation leaves the subscription entitled exactly until its period end, whenever the inactivation arrives |
| `Billing.GenericApplies` | services/api/internal/httpapi/billing.go:227-286 | a valid generic event applies exactly if its status finds the subscription, names a known plan and takes neither the billing id nor the customer of another tenant, and its invoice is for a known tenant, in three capital letters of currency, and comes with a status |
| `Billing.RenewalWithInvoiceFails` | services/api/internal/httpapi/billing.go:188-199 | a renewal that carries its invoice passes validation and is refused by every database |
| `Billing.OthersCustomerFails` | services/api/internal/httpapi/billing.go:274 | an activation for the customer of another tenant passes validation and is refused |
| `Billing.OddCurrencyFails` | services/api/internal/httpapi/billing.go:254-258 | a paid invoice in the currency 12A passes validation and is refused by every database |
| `Billing.InactivationCanEntitle` | services/api/internal/httpapi/billing_xendit_webhook.go:196-214 | exactly when an inactivation webhook turns a subscription that was not entitled into one that is |
| `Billing.InactivationEntitlesAgain` | services/api/internal/httpapi/billing_xendit_webhook.go:196-242 | a run of a cancellation, a failed payment and an inactivation in which that happens |
| `Billing.BillingService.Webhook` | services/api/internal/httpapi/billing.go:132-214 | one delivery through the inbox: register, apply, finalize, or roll all of it back, keeping each tenant's chain |
| `Billing.BillingService.ApplyGenericEvent` | services/api/internal/httpapi/billing.go:227-286 | a generic event on subscription and invoice rows |
| `Billing.BillingService.ApplyXenditEvent` | services/api/internal/httpapi/billing_xendit_webhook.go:149-194 | the dispatch over Xendit events |
| `Billing.BillingService.ActivateXenditPlan` | services/api/internal/httpapi/billing_xendit_webhook.go:149-194 | activation through the newest matching checkout |
| `Billing.BillingService.InactivateXenditPlan` | services/api/internal/httpapi/billing_xendit_webhook.go:196-214 | inactivation before and after the period end |
| `Billing.BillingService.UpsertXenditCycle` | services/api/internal/httpapi/billing_xendit_webhook.go:244-266 | the invoice of a billing cycle |
| `Billing.BillingService.UpdateXenditStatus` | services/api/internal/httpapi/billing_xendit_webhook.go:222-242 | the subscription after a cycle |
| `Billing.BillingService.AdminCancellation` | services/api/internal/httpapi/billing.go:88-130 | cancel and resume by an administrator, with the provider's refusal, keeping each tenant's chain |
| `Plans.FoldCrashes` | services/api/internal/httpapi/plans.go:104-122 | the override loop crashes exactly if the plan has no features object and some row switches one |
| `Plans.FoldLimits` | services/api/internal/httpapi/plans.go:127-140 | after the loop a limit is its row's value, else the plan's |
| `Plans.FoldFeatures` | services/api/internal/httpapi/plans.go:104-122 | after the loop a feature is its row's switch, else the plan's |
| `Plans.OrderDoesNotMatter` | services/api/internal/httpapi/plans.go:104-122 | override rows may be read in any order |
| `Plans.FastPathAgrees` | services/api/internal/httpapi/plans.go:142-218 | the meeting fast path gives the general verdict for every plan, rows in any order and clock, except exactly where the general path crashes |
| `Plans.GeneralPathCrashes` | services/api/internal/httpapi/plans.go:104-122 | a plan without a features object and one switching row: the fast path allows, the general path crashes |
| `Plans.PlanEntitlements.ApplyLimitOverride` | services/api/internal/httpapi/plans.go:127-140 | one limit written in place |
| `Plans.PlanEntitlements.LoadOverrides` | services/api/internal/httpapi/plans.go:96-125 | the loop over the override rows |
| `Drive.EveryRowIsPast` | services/api/internal/httpapi/drive.go:331-369 | under any interleaving, failure and lost acknowledgement a recorded row holds the content the file had at that version, and nothing recorded or past changes |
| `Drive.HistoryHoldsPast` | services/api/internal/httpapi/drive.go:359-361 | from the first upload on, each row of the history is a version before the current one, with its content |
| `Drive.StoredUnlessCommitLost` | services/api/internal/httpapi/drive.go:352-366 | every past content still has its object exactly if no upload committed without acknowledgement and was cleaned up after |
| `Drive.UnacknowledgedUploadLosesObject` | services/api/internal/httpapi/drive.go:363-366 | one such upload: its content is current and its object is gone |
| `Drive.CommitKeepsHistoryWhenFresh` | services/api/internal/httpapi/drive.go:359-363 | a commit keeps the history complete exactly if the version it read is still current or it changes no content |
| `Drive.RenameKeepsHistory` | services/api/internal/httpapi/drive.go:213 | a rename bumps the version without a row and the history stays complete |
| `Drive.FreshRunsAccountForEverything` | services/api/internal/httpapi/drive.go:383-406 | when no commit is overtaken, the content at any past version is the least recorded row from it on, else the current content |
| `Drive.SerialRunsAreFresh` | services/api/internal/httpapi/drive.go:292-407 | requests that end before the next one begins overtake no commit |
| `Drive.SerialHistoryIsComplete` | services/api/internal/httpapi/drive.go:292-407 | so serial requests, from the first upload on, keep every version looked up right and every past content reachable |
| `Drive.LookupFindsLeast` | services/api/internal/httpapi/drive.go:359-361 | looking a version up gives the row with the least recorded version from it on |
| `Drive.PastIsLeastRow` | services/api/internal/httpapi/drive.go:383-406 | after serial requests the content of any version is that of the least recorded row from it on, and the current one exactly when no row is recorded from it on |
| `Drive.NothingPastIsLost` | services/api/internal/httpapi/drive.go:331-369 | then every past content is current or recorded |
| `Drive.OvertakenUploadIsLost` | services/api/internal/httpapi/drive.go:331-364 | two uploads that read one version: the first committed is neither current nor recorded |
| `Drive.RestoreCanBeUndone` | services/api/internal/httpapi/drive.go:383-406 | restoring the version a restore replaced brings its content back, whatever ran in between |
| `Drive.FileNode.CommitVersion` | services/api/internal/httpapi/drive.go:352-368 | the transaction of upload and restore, with a read that may be stale and an acknowledgement that may be lost |
| `Drive.FileNode.UploadVersion` | services/api/internal/httpapi/drive.go:292-370 | an upload with nothing in between: history, answer, and which objects are stored afterwards, the removal after an error included |
| `Drive.FileNode.RestoreVersion` | services/api/internal/httpapi/drive.go:372-407 | a restore makes a past content current and keeps the history complete |
| `Drive.FileNode.RenameNode` | services/api/internal/httpapi/drive.go:213 | a rename, whose update may fail or go unacknowledged |
| `Activity.SortIsStable` | services/api/internal/httpapi/activity.go:79 | the reference sort is descending, a permutation, and keeps the order within one timestamp |
| `Activity.BoundedSourcesSuffice` | services/api/internal/httpapi/activity.go:61-79 | fetching limit+1 rows from each source gives the same first rows as the whole union, ties included |
| `Activity.QueryAll` | services/api/internal/httpapi/activity.go:60-78 | the query loop collects enough for the page |
| `Activity.WorkspaceActivity` | services/api/internal/httpapi/activity.go:30-89 | the reply is exactly the newest rows of the union before the cursor, with an exact hasMore, or a refusal of the parameters |
| `Activity.NextPageIsSmaller` | services/api/internal/httpapi/activity.go:84-87 | the cursor moves back and the rest shrinks, so following it ends |
| `Activity.FollowListsEverything` | services/api/internal/httpapi/activity.go:79-88 | following the cursor lists every row once, newest first, exactly if no page ends inside a tie |
| `Activity.DistinctTimesAreListedOnce` | services/api/internal/httpapi/activity.go:79-88 | with distinct timestamps it always does |
| `Activity.TiesBeyondAPageAreLost` | services/api/internal/httpapi/activity.go:80-87 | rows of one timestamp beyond the first page are never shown |
| `Incidents.RunKeepsInv` | services/api/internal/httpapi/incidents.go:229-266 | over every run of the three writers each incident's log accounts for its row, one incident a fingerprint, and logs only grow |
| `Incidents.LogReplaysToRow` | services/api/internal/httpapi/alertmanager_webhook.go:87-120 | replaying the log by event kind gives the status, and resolved_at is set exactly in RESOLVED and CLOSED |
| `Incidents.ManualFromIsReplay` | services/api/internal/httpapi/incidents.go:229-266 | every manual transition recorded the status the log before it replays to, and was allowed from there |
| `Incidents.EscalatedOnce` | services/api/internal/httpapi/incident_escalation_worker.go:97-134 | level 1 exactly if the log holds an ESCALATED entry, and never two |
| `Incidents.EscalatedWhenDue` | services/api/internal/httpapi/incident_escalation_worker.go:68-134 | it was raised while OPEN, never acknowledged, and not before the deadline of the severity it records |
| `Incidents.AcknowledgedNeverEscalates` | services/api/internal/httpapi/incident_escalation_worker.go:104 | once acknowledged an incident is not escalated later, not even after a reopen |
| `Incidents.NothingDueLeft` | services/api/internal/httpapi/incident_escalation_worker.go:68-95 | a pass without faults that was not cut at a hundred leaves nothing due |
| `Incidents.PassMeans` | services/api/internal/httpapi/incident_escalation_worker.go:82-95 | a pass escalates exactly the selected incidents whose transaction went through |
| `Incidents.IncidentStore.CreateAdminIncident` | services/api/internal/httpapi/incidents.go:92-132 | a new incident with its CREATED event, or a refusal |
| `Incidents.IncidentStore.UpdateAdminIncident` | services/api/internal/httpapi/incidents.go:171-227 | a severity with its event, or a refusal; an assignee always fails and takes the severity back |
| `Incidents.IncidentStore.TransitionAdminIncident` | services/api/internal/httpapi/incidents.go:229-266 | a manual transition or its refusal |
| `Incidents.IncidentStore.AddIncidentNote` | services/api/internal/httpapi/incidents.go:268-292 | a note on an existing incident |
| `Incidents.IncidentStore.UpsertAlertIncident` | services/api/internal/httpapi/alertmanager_webhook.go:65-122 | an alert creates or updates the one incident of its fingerprint |
| `Incidents.IncidentStore.EscalateIncident` | services/api/internal/httpapi/incident_escalation_worker.go:97-134 | the guarded update and its event, with other requests since the selection |
| `Incidents.IncidentStore.RunIncidentEscalation` | services/api/internal/httpapi/incident_escalation_worker.go:57-95 | the worker's loop over the selected incidents |
| `RateLimiter.Limiter.Allow` | services/api/internal/httpapi/security.go:43-65 | one request: restart, refuse, or count and sweep |
| `RateLimiter.Limiter.Sweep` | services/api/internal/httpapi/security.go:57-63 | deleting while iterating leaves exactly the windows that still run |
| `RateLimiter.SweepNeverChangesAnswers` | services/api/internal/httpapi/security.go:43-65 | answers are those of a limiter that never forgets a window |
| `RateLimiter.AtMostTwoWindows` | services/api/internal/httpapi/security.go:43-65 | any half-open interval of one window length holds at most 2L-1 allowed requests for a key |
| `RateLimiter.BurstAcrossTheBoundary` | services/api/internal/httpapi/security.go:47-56 | that bound is reached for every limit |
| `RateLimiter.RetryAfterIsExact` | services/api/internal/httpapi/security.go:51-53 | a refused request stays refused until exactly the promised time and is then allowed |
| `RateLimiter.SameBucketSameLimit` | services/api/internal/httpapi/security.go:67-88 | one bucket has one limit except on authentication paths outside the listed ones |
| `RateLimiter.MinuteBound` | services/api/internal/httpapi/security.go:27-88 | the bound for real requests: address, path and method |
| `ChatHub.StepKeepsInv` | services/api/internal/httpapi/chat_hub.go:22-52 | registered channels are open and filed under their conversation, open channels are registered, no conversation is empty, buffers hold at most eight |
| `ChatHub.HubIsQueuePerSubscriber` | services/api/internal/httpapi/chat_hub.go:22-52 | in every interleaving each channel is its subscriber's own bounded queue over what was published during its subscription |
| `ChatHub.OrderIsKept` | services/api/internal/httpapi/chat_hub.go:43-52 | received then pending messages are the sent ones minus those that met eight pending, in order |
| `ChatHub.LosslessWhenNeverFull` | services/api/internal/httpapi/chat_hub.go:46-51 | nothing is lost exactly if no message met eight pending ones |
| `ChatHub.MessageHub.Subscribe` | services/api/internal/httpapi/chat_hub.go:22-30 | a new channel under its conversation |
| `ChatHub.MessageHub.Unsubscribe` | services/api/internal/httpapi/chat_hub.go:31-40 | the closure removes and closes; a second call panics and changes nothing |
| `ChatHub.MessageHub.TrySend` | services/api/internal/httpapi/chat_hub.go:47-50 | a send that does not wait, on an open channel only |
| `ChatHub.MessageHub.Publish` | services/api/internal/httpapi/chat_hub.go:43-52 | every subscriber of the conversation is offered the message, no other channel changes |
| `ChatHub.MessageHub.Receive` | services/api/internal/httpapi/chat_hub.go:22-31 | the oldest pending message |
| `Scim.FilterNamesMember` | services/api/internal/httpapi/scim.go:595-606 | the filter form names exactly the id between its quotes |
| `Scim.GroupRow.PatchUsers` | services/api/internal/httpapi/scim.go:531-552 | the loop over an operation's users is one set operation, refused as a whole by one bad user |
| `Scim.GroupRow.PatchStep` | services/api/internal/httpapi/scim.go:499-553 | one operation of the list |
| `Scim.GroupRow.PatchGroup` | services/api/internal/httpapi/scim.go:481-565 | a PATCH leaves the group unchanged or makes it the left-to-right fold of its set operations |
| `Scim.RepeatIsIdempotent` | services/api/internal/httpapi/scim.go:499-553 | repeating any operation changes nothing more |
| `Scim.RemoveUndoesAdd` | services/api/internal/httpapi/scim.go:531-552 | removing added users restores the group |
| `ScimRfc.ReadsFirstId` | services/api/internal/httpapi/scim.go:595-606 | of any filter the handler reads the literal of the first value eq comparison in the text, whatever follows |
| `ScimRfc.RemoveFollowsRfc` | services/api/internal/httpapi/scim.go:520-552 | a remove follows section 3.5.2.2 of RFC 7644 exactly if it has no path, or the members its path means are those the handler removes and their ids are well formed |
| `ScimRfc.SimpleRemoveFollowsRfc` | services/api/internal/httpapi/scim.go:520-552 | with one comparison: value eq on a well-formed id always follows it, the whole attribute or any other comparison exactly if it selects no member |
| `ScimRfc.OtherVerbsFollowRfc` | services/api/internal/httpapi/scim.go:512-552 | with a path, add and an unfiltered replace follow the standard, a filtered replace and an unknown verb exactly under the stated conditions; without one everything is refused, which follows it exactly for an unknown verb or an attribute the provider takes not |
| `ScimRfc.PathlessAddIsRefused` | services/api/internal/httpapi/scim.go:513-516 | users added as attributes of the group are refused, where section 3.5.2.1 adds them |
| `ScimRfc.BareRemoveChangesNothing` | services/api/internal/httpapi/scim.go:526-531 | a remove of the whole attribute leaves the members, where the standard empties the group |
| `Scim.GroupRow.ReplaceMembers` | services/api/internal/httpapi/scim.go:354-374 | PUT's members: all valid and distinct, or no change |
| `Scim.PutIsPatchReplace` | services/api/internal/httpapi/scim.go:354-374 | PUT and PATCH replace agree on a list exactly if it has no duplicates or an invalid member |
| `Scim.GroupRow.ReplaceGroup` | services/api/internal/httpapi/scim.go:333-352 | PUT writes name and external id before the members and keeps them when those are refused |
| `Scim.UserRow.PatchField` | services/api/internal/httpapi/scim.go:414-461 | one operation of the list: its refusal or its one field |
| `Scim.WrittenStep` | services/api/internal/httpapi/scim.go:414-461 | writing one operation after the other is last write wins |
| `Scim.UserRow.PatchUser` | services/api/internal/httpapi/scim.go:396-479 | a user PATCH is last write wins per field or changes nothing, and revokes the sessions exactly if it is acknowledged and the last active value is false |
| `Scim.LastWriteWins` | services/api/internal/httpapi/scim.go:414-460 | the value kept for a field is that of the last operation on it |
| `Scim.DeactivatedByFalseOrNull` | services/api/internal/httpapi/scim.go:421-470 | an accepted request leaves an active user deactivated exactly if the last active in it is false or null, and exactly then it revokes the sessions |
| `Mfa.OffsetIsInside` | services/api/internal/httpapi/mfa.go:178-180 | truncation reads no byte past the nineteenth of twenty |
| `Mfa.TruncationIsWordMod` | services/api/internal/httpapi/mfa.go:178-181 | the truncated value is the word of the four bytes from the offset on, the first one on top, modulo 2^31 |
| `Mfa.CodeIsSixDigits` | services/api/internal/httpapi/mfa.go:168-182 | a code is six decimal digits that read as that word modulo 2^31 modulo 10^6 |
| `Mfa.ValidTotp` | services/api/internal/httpapi/mfa.go:156-167 | a code is accepted exactly if it has six characters and equals one of the three codes around now |
| `Mfa.WithinThirtySeconds` | services/api/internal/httpapi/mfa.go:161-173 | the period of any time is one of the three compared at any time within thirty seconds |
| `Mfa.AcceptedWithinThirtySeconds` | services/api/internal/httpapi/mfa.go:156-182 | a code is accepted at every time within thirty seconds of when it was made |
| `Mfa.CodesAreConserved` | services/api/internal/httpapi/auth.go:109-118 | over any serial run, used plus remaining codes are the initial ones plus those whose update was lost |
| `Mfa.ConsumedOnceWhenSaved` | services/api/internal/httpapi/auth.go:109-118 | no code is used more often than it was stored, exactly if what was used without being struck off is still stored |
| `Mfa.ConsumedOnceUnlessReused` | services/api/internal/httpapi/auth.go:109-118 | with distinct codes, each is consumed at most once exactly if no code whose first use was not written down is presented again |
| `Mfa.LostUpdateReusesCode` | services/api/internal/httpapi/auth.go:116-117 | a lost update lets one code in twice |
| `Mfa.MfaRow.VerifyMfa` | services/api/internal/httpapi/mfa.go:137-154 | a one-time password or a stored code is accepted, and the first match is cut out |
| `Mfa.MfaRow.Login` | services/api/internal/httpapi/auth.go:109-118 | the second factor of a login, whose update may be lost without refusing it |

## Left out

- HTTP decoding, replies, permissions, audit events other than those counted, notifications and e-mails, except as faults that roll a transaction back.
- The `apps/web` tree and the clients for MinIO, LiveKit, Xendit and SMTP; each call is an outcome parameter.
- Failed reads, which answer with an error and change nothing; an object the store keeps although the call that put it failed, which nothing refers to.
- Trimming, upper- and lower-casing: strings reach the model normalised, and outside `LegalHold.dfy` so do UUIDs.
- LegalHold: the redaction of chat messages and of audit events, single statements without an object; a file of the drive stands for its current object; `reconcileRecordingStatuses`, which deletes nothing.
- Meetings.RunKeepsInv: is about serial requests, because the join handler's check and insert are separate statements without a lock.
- Meetings.LeftOnlyAfterGrace: takes the two clock readings of one reconciliation pass as one, and application and database clocks as equal.
- DurationWorker.ServedExactly: takes limits as they are and requests as absent between two passes; a meeting that starts later comes later in the query's order.
- Plans.FastPathAgrees: is about one check at a time; the check and the insert it guards are separate statements, so two requests may both pass.
- Billing: application and database clocks are taken as equal, and a checkout's plan and tenant are known ones.
- Billing invoices: the order of invoice statuses is not constrained, as in the code.
- Drive: folder moves, deletion and retention of files; a version's row is never removed.
- Drive.FreshRunsAccountForEverything: assumes a new object's name was never used, since it carries a nanosecond clock reading.
- Activity: what each query selects and formats; a source is any descending sequence of rows, and rows do not change between pages.
- Incidents: the fallback fingerprint of an alert without one, updated_at, acknowledged_by and resolved_by.
- RateLimiter.AtMostTwoWindows: takes the clock readings in the order the requests enter the mutex, although `now` is read before it; the Retry-After header's whole seconds are not modelled.
- ChatHub: channels are numbered values of a map; two names for one channel are not captured, and a receiver that waits is one that receives at the next step.
- Scim: creating groups and users, PUT of users and pagination; a removed or added user is given in canonical spelling.
- ScimRfc.RemoveFollowsRfc: filters are formulas over eq, ne, co, sw, ew and pr, printed with parentheses; the sub-attribute form `members[...].display`, ordering comparisons, and literals that hold a quote or end in the text the handler searches for, are not covered.
- Mfa: concurrent logins with one recovery code, enrolment and disabling; the keyed hash is an arbitrary function.
