# Pouch, verified

A Dafny model of the message path of Pouch, an end-to-end encrypted messenger: a sending device, the relay
that queues its ciphertexts, a receiving device, and the local database both rest on. The subject is order:
what is encrypted, posted, stored, acknowledged, saved and deleted, in which order, and what a failed request
or a crash between two steps leaves behind. Beside it stand the backup file, the passphrase that protects the
database, and the safety numbers two people compare.

`dafny verify dfyconfig.toml` checks the whole project.

## How it is built

Every application call is described twice.

* As a *program*: the sequence of its atomic effects, each one SQL statement, one relay request, or one change
  of in-memory state (`Client`, `Tables`, `Mls`). A crash is a prefix of a program followed by reopening from
  what is on disk. All theorems about runs, crashes and interleavings are about programs.
* As a *method* on objects that change in place, in the form of the source: `LocalStore` over its tables,
  `LiveConversation`, `Provider` and `RelayLink`, and `Pouch` over them (`Storage`, `Sessions`, `Protocol`).
  Each method is proved to leave exactly the state its program leaves, and to have noted exactly that program,
  effect by effect, in the journal its parts share.

The network and the clock are parameters: a script of answers, in which a post may be accepted, refused, or
kept by the relay with the answer lost, and an acknowledgement may succeed, be refused, or have its answer
lost. MLS is idealised (`Mls`): a ciphertext is its sealed content; a group is the peer's credential, a send
counter and the set of generations received; a Welcome opens one group once; a rejected message changes
nothing. What a receiver can still decrypt is stated over the set of generations processed, and
`Ratchet.ReceiveRatchet` shows that a chain head with a bounded queue of unused keys decides the same thing.
Random identifiers are assumed not to collide with ones in use.

| file | subject |
|---|---|
| `Basics`, `RowOrder` | bytes, order, hex; what `ORDER BY at, id` means |
| `Tables`, `StoreRules` | the database, its statements, and what runs of statements keep |
| `RelayStore`, `RelayRuns` | the relay's queue and theorems over its runs |
| `Ratchet`, `Mls` | the reorder window, the idealised library |
| `Client`, `Calls` | every call as a program; sessions, restarts, crashes |
| `Outcomes`, `Introductions` | what each call comes to for its caller; from an invite to a conversation in both directions |
| `OutboxRules`, `Generations`, `OutboxRuns`, `Conservation` | flushing; no generation reused; in which order sessions post; every generation accounted for |
| `Reading`, `Polls`, `PollOrders`, `Repoll`, `InStep`, `Acknowledging`, `Redelivery`, `StoredRows`, `NoLoss` | receiving: closed form, confluence and its limits, crash recovery and exactly when it holds, failed acknowledgements, what rows hold, no loss |
| `Restarts`, `TrustRules`, `SilentChanges` | what restarts rebuild; verification and key-change warnings over sessions, and the ones a crash hides |
| `Storage`, `Sessions`, `ProgramRuns`, `Protocol` | the objects that change in place, proved against the programs |
| `Snapshot`, `BackupFile`, `Backup` | provider snapshots, the backup frame, export and import |
| `Keying`, `SafetyNumber` | the database key under passphrase changes; safety numbers |

Every lemma is declared `{:induction false}`: each induction is written out.

## What turned out not to hold

Each of these is a lemma with the exact condition or a concrete case; the code is modelled as it is.

* **Outbox order is not generation order.** The queue is sorted by second and then by random identifier. Posting
  follows generations exactly when `(at, id)` does (`OutboxRules.PostedInGenerationOrder`). A failed send breaks the
  order exactly when a row of its conversation still waits that is dated later, or the same second under an identifier
  that sorts after the new one (`OutboxRuns.SameSecondCanReorder`). An advancing clock is enough over whole sessions
  (`OutboxRuns.StrictTimesGiveGenerationOrder`), except after a crash between queueing and saving, and then exactly
  when the saved counter trailed memory (`OutboxRuns.CutAfterQueueingCanReorder`), as an introduction that was not
  accepted leaves it (`OutboxRuns.UnacceptedIntroductionTrails`). The comment at core/src/api/messaging.rs:157-160
  promises order without these conditions.
* **A crash can reuse a generation.** The snapshot is saved last. In every call, a crash repeats a generation exactly
  when a fresh ciphertext has been handed over since the last save (`Generations.CrashRepeatsExactlyInTheWindow`).
  Among completed calls only adding a contact can leave that window open, exactly when the introduction's answer is
  lost (`Generations.LostIntroductionThenRestartRepeats`).
* **The key-replacement warning can be lost.** "They have to happen together", says
  core/src/storage/contacts.rs:108, but the new key and the note of the change are two statements. A crash hides the
  change exactly when it falls between them and no earlier change was unanswered
  (`StoreRules.CrashInsideKeyReplacementLosesTheWarning`, `SilentChanges.CrashInsideAReadLosesTheWarning`), and no
  warning comes for as long as the contact keeps that key (`SilentChanges.TheLostWarningNeverComes`).
* **Polling again after a crash is not always the same as one poll.** It is, at every crash point, exactly for a device
  in step: ratchets saved, and every conversation with a row and a group live (`InStep.RecoversExactlyInStep`). Adding
  a contact leaves the device out of step unless both its posts are accepted, a poll unless it is acknowledged or had
  nothing to open; no other call does (`InStep.CallKeepsCurrent`). A contact whose Welcome got no answer is filed but
  not live; a later save and a restart make it live, so messages of a peer who did join are ignored by a poll and
  stored by the same poll cut short and repeated (`InStep.LostWelcomeBreaksRecovery`, `InStep.RestartAddsExactly`).
* **A failed acknowledgement strands the batch.** The call returns before saving and the ratchet in memory has moved
  on, so no poll of that session handles or acknowledges it again (`Acknowledging.FailedAcknowledgeStrandsTheBatch`),
  and its Welcomes not even after a restart (`Acknowledging.FailedAcknowledgeStrandsWelcomesForGood`). Its other
  messages are handled again after a restart exactly when the relay refused the acknowledgement and nothing was saved
  in between; one save, such as a send or an invite makes, strands them for good too
  (`Redelivery.HandledAgainExactly`). When they are handled again, one that had been deleted meanwhile comes back
  (`Redelivery.FailedAcknowledgeCanBringADeletedMessageBack`).
* **Sixty-four generations, not more.** A set of waiting messages is stored whole under every order exactly when it is
  inside the reorder window (`Ratchet.EveryOrderDecrypts`, and for whole polls
  `PollOrders.EveryOrderHandlesAllExactlyInTheWindow`); one generation more has a failing order
  (`Polls.OutsideTheWindowOrderDecides`).
* **Contact rows can depend on the order of a batch**, exactly when a contact's messages come under different keys or
  its introductions differ (`PollOrders.ContactRowsAgreeExactly`).
* **Very long intervals delete at once.** From 2^63 seconds on, a disappearing interval is stored negative
  (`StoreRules.IntervalsBelowTwoTo63MeanWhatTheySay`).
* **Sweeps show in one place.** Collects never reveal a sweep. The count an acknowledgement returns does, exactly when
  it names an expired blob (`RelayRuns.SweepShowsInTheAcknowledgeCount`).
* **A backup forgets warnings.** An unanswered key change is not reported on the restored device
  (`Backup.WarningsAreNotBackedUp`).
* **A crash while changing a passphrase can lose the database.** Between naming the new salt and re-encrypting, the
  only copy of the old salt is gone (`Keying.WhatTheWindowLeaves`). The comment at
  core/src/api/storage_controls.rs:118-120 describes this crash the other way round: it is the sidecar that names the
  new source while the file is still under the old key.
* **A wipe cut short after exactly seven of its eight deletions, or first run cut between its two writes,** leaves an
  identity row without MLS state: the device is neither new nor able to open (`StoreRules.WipeCutShort`,
  `Restarts.FirstRunCutShort`).

## Model

| member | source | states |
|---|---|---|
| NoLoss.NoAcceptedMessageIsLost | core/src/api/messaging.rs:185-317 | In every interleaving of senders, other inboxes, polls, acknowledgements (lost answers included), sweeps, clock ticks, all other calls, and crashes at every effect, each text the relay accepted for the device is still queued, expired, stored with its conversation, direction and body, or was stored so until a purge that found the row older than its interval deleted it; and the ratchets saved on disk have used up only generations whose message is safe |
| NoLoss.EventIsSafe | core/src/api/messaging.rs:306-315 | The inductive step: no acknowledgement and no saved ratchet is ever ahead of the store, whatever happens next |
| NoLoss.EventIsTruthful | core/src/storage/messages.rs:9-22 | Every row in the table, and every row retention ever deleted, holds the text the relay accepted under its identifier or a message of the device's own, and every deleted one was due |
| NoLoss.BatchMayRun | core/src/api/messaging.rs:209-315 | Every effect of a poll, at the moment it is carried out, acknowledges only what is stored and saves only ratchets whose messages are stored |
| Polls.OrderDoesNotMatter | core/src/api/messaging.rs:194-304 | For a batch inside the window, Welcomes mixed in, every permutation gives the same message rows, the same ratchets and groups and the same acknowledged identifiers |
| Polls.EveryTextIsStored | core/src/api/messaging.rs:276-295 | In such a batch every text addressed to a conversation of the device, or to one a Welcome of the batch opens, is stored with its body and acknowledged |
| PollOrders.EveryOrderHandlesAllExactlyInTheWindow | core/src/crypto/session.rs:24-39 | For any batch whose addressed envelopes parse, Welcomes mixed in: every order handles and acknowledges every addressed envelope if and only if the batch is in the reorder window once its Welcomes are joined |
| PollOrders.ContactRowsAgreeExactly | core/src/api/messaging.rs:233-274 | For a batch in the window, every order leaves the same contact rows if and only if the messages of each contact come under one key and its introductions say the same; the orders that differ read one or the other disagreeing message last |
| Polls.OutsideTheWindowOrderDecides | core/src/crypto/session.rs:24-39 | Two texts 64 or more generations apart: newest first loses the older one, oldest first keeps both |
| Polls.AddressedInWindowOpens | core/src/crypto/session.rs:243-271 | Whichever message of an in-window batch is read next opens if and only if it is addressed to a live conversation from its peer |
| Polls.TakeInIs | core/src/api/messaging.rs:203-213 | Trying the joined Welcomes again in the second pass would change nothing: the two passes are one pass of joins and one of reads over the whole batch |
| Reading.ReadOneIs | core/src/api/messaging.rs:213-304 | One envelope read to the end, in closed form: which contact, change, message and conversation rows it writes, and that it writes none unless it opens and parses |
| Outcomes.ReturnedAreStored | core/src/api/messaging.rs:276-295 | What a poll returns: every message is in the table under a text of the batch, with its conversation, body and time, and acknowledged; and every text acknowledged is returned |
| Outcomes.OpenedAreGained | core/src/api/messaging.rs:198-207 | The conversations a poll reports as opened are exactly those whose group it gained, and they are live |
| Repoll.CrashThenPollAgain | core/src/api/messaging.rs:185-304 | Crash a poll of a device in step (`InStep`) after any effect of its two passes, reopen and poll the same batch again: contacts, conversations, ratchets and message rows are those of one uninterrupted poll with retention applied, up to the times rows were stored; for every batch, in the window or not |
| InStep.RecoversExactlyInStep | core/src/api/messaging.rs:185-304 | That holds for every batch and every crash point if and only if the device is in step: the saved snapshot is the ratchets in memory, and every conversation with a row and a group is live |
| InStep.CallKeepsCurrent | core/src/api/mod.rs:227-234 | From a device in step, any call ends in step, except adding a contact unless Welcome and introduction were both accepted, and a poll unless its acknowledgement succeeded, nothing was handled or nothing could be opened: an if-and-only-if over every call |
| InStep.SessionInStepExactly | core/src/api/mod.rs:103-163 | Over every session from first run, crashes at any effect included: in step if and only if the ratchets have not moved since they were last saved and no contact was added since the last restart whose Welcome was not accepted; those conversations are exactly the ones that are not live |
| InStep.PollsOfASessionRecover | core/src/api/messaging.rs:185-304 | So every poll after a session that ended in step recovers from a crash at any effect of its passes |
| InStep.LostWelcomeBreaksRecovery | core/src/api/contacts.rs:41-52 | The input on which it fails: an invite taken up whose Welcome got no answer though the peer joined, one later save, and a text from the peer, which the uninterrupted poll leaves alone and the crashed and repeated one stores |
| InStep.RestartAddsExactly | core/src/api/mod.rs:149-163 | What a restart makes live after any session beyond what was live: exactly the conversations so filed since the last restart whose group a later save put on disk; it drops none |
| Acknowledging.CrashAnywhereThenPollAgain | core/src/api/messaging.rs:185-317 | The same, again for a device in step, over every effect of a poll, acknowledge, save and purge included, with the relay returning what was not acknowledged: until the acknowledgement reaches it as above, from then on exactly the tables the passes left with retention applied |
| Repoll.CrashInJoins | core/src/api/messaging.rs:326-358 | A crash anywhere in the first pass: joining again registers each conversation once and ends in the same tables |
| Repoll.CrashInReads | core/src/api/messaging.rs:209-304 | A crash anywhere in the second pass leaves tables that reading the batch again completes |
| Acknowledging.CrashWhileSettling | core/src/api/messaging.rs:306-315 | A crash during acknowledge, save and purge finds every row the passes stored, less only what this poll's own purge took |
| Acknowledging.AnAcknowledgedPollKeepsCurrent | core/src/api/messaging.rs:307-310 | After a poll the saved snapshot equals the ratchets in memory if and only if the acknowledgement succeeded, or nothing was handled, or the second pass had nothing it could open; and then every known conversation is live |
| Acknowledging.ReopenedIsCurrent | core/src/api/mod.rs:103-163 | Reopening brings memory and disk in step however the device was left |
| Acknowledging.FailedAcknowledgeStrandsTheBatch | core/src/api/messaging.rs:307-310 | After a failed acknowledgement nothing is saved or purged, and through any calls and polls of the session no poll handles or acknowledges anything that one handled |
| Acknowledging.FailedAcknowledgeStrandsWelcomesForGood | core/src/api/messaging.rs:326-358 | A Welcome joined in such a poll is never handled or acknowledged again, through restarts and crashes too: its joining was saved |
| Redelivery.HandledAgainExactly | core/src/api/messaging.rs:307-310 | A poll whose acknowledgement fails, any completed calls, a restart, and a poll of what the relay still holds: an envelope the first poll handled is handled again if and only if it was no Welcome, the relay refused the acknowledgement rather than losing its answer, and none of the calls saved the ratchets |
| Redelivery.FailedAcknowledgeCanBringADeletedMessageBack | core/src/api/messaging.rs:307-315 | So a text deleted in between, by any call or by retention at the restart, comes back, dated by the second poll, if and only if the acknowledgement was refused and nothing was saved after it; with no call in between it was deleted if and only if its retention had run out at the restart |
| Generations.NoGenerationIsReused | core/src/api/messaging.rs:40-149 | From first run, with restarts and crashes anywhere but between handing over a fresh ciphertext and the next save, no two different ciphertexts the relay stored or that still wait share conversation, sender and generation; what waits, and so what a retry posts, was issued before; and a restart at the end repeats a generation if and only if something is pending |
| Generations.CrashRepeatsExactlyInTheWindow | core/src/api/messaging.rs:55-149 | A crash after any number of effects of any call leaves a snapshot that repeats a generation if and only if what was carried out hands over a fresh ciphertext after its last save |
| Generations.TheSecondCiphertext | core/src/api/messaging.rs:55-149 | The repeat itself: after the restart the conversation can be sent in, and once as many texts have been sent as the saved counter is behind, whatever the network answers, the next send posts a ciphertext with the same conversation, sender and generation and its own text |
| Generations.WindowOfASend | core/src/api/messaging.rs:96-149 | In a send the window runs from the post, or from queueing after a refusal, up to the save |
| Generations.LostIntroductionThenRestartRepeats | core/src/api/contacts.rs:48-64 | Adding a contact and restarting repeats a generation if and only if the Welcome was accepted and the answer to the introduction lost |
| Generations.CallKeeps | core/src/api/mod.rs:227-234 | A completed call leaves the saved counters past everything posted or queued if and only if it lost no introduction |
| Conservation.EveryGenerationIsAccountedFor | core/src/api/messaging.rs:40-178 | Over every crash-free run with unambiguous posts, at every call boundary each generation the counters have issued is in exactly one place: accepted by the relay, waiting in the outbox, purged from it, or dropped with a failed introduction; a generation not issued is in none |
| Conservation.CallBalances | core/src/storage/settings.rs:110-118 | The same for one call of any kind, purges included |
| OutboxRules.FlushTakesAPrefix | core/src/api/messaging.rs:161-178 | A flush posts exactly a prefix of the outbox in (at, id) order and then the entry that failed; removes exactly the accepted prefix; changes only the failed entry, by one attempt and its reason; and touches nothing else on the device |
| Outcomes.SendOutcome | core/src/api/messaging.rs:67-149 | A send posts, to where the peer was last known to receive, this text at the next generation; the message is filed under the relay's identifier if it was accepted, else under the local one with its ciphertext queued for its first retry; the counter moves by one and is saved |
| OutboxRules.PostedInGenerationOrder | core/src/storage/outbox.rs:43-64 | The posted order is generation order if and only if (at, id) follows the generations |
| OutboxRules.LaterRowsArePostedLater | core/src/storage/outbox.rs:37-47 | Rows queued strictly later for later generations are posted in generation order |
| OutboxRuns.StrictTimesGiveGenerationOrder | core/src/api/messaging.rs:161-178 | From first run, over every session with crashes anywhere but between queueing a ciphertext and saving: if the clock strictly advances from each failed send to the next, every flush posts each conversation in generation order |
| OutboxRuns.FailedSendKeepsOrderExactly | core/src/api/messaging.rs:96-129 | One failed send on any outbox in generation order leaves it so if and only if every row of the conversation still waiting sorts on its own side of the new one |
| OutboxRuns.SameSecondCanReorder | core/src/api/messaging.rs:30-35 | While no counter has gone back, on any such outbox: the failed send puts a later generation first if and only if a row of the conversation still waiting is dated later, or the same second with an identifier that sorts after the new random one |
| OutboxRuns.CutAfterQueueingCanReorder | core/src/api/messaging.rs:112-129 | On any outbox those sessions leave: cut off between queueing and saving, then failing to send again at a later time, the device posts out of generation order if and only if the saved counter trailed memory and the row being queued still waits |
| OutboxRuns.UnacceptedIntroductionTrails | core/src/api/contacts.rs:54-64 | Adding a contact leaves the saved counter behind memory if and only if the Welcome was accepted and the introduction was not |
| RowOrder.InOrderEnumerates | core/src/storage/outbox.rs:44-47 | `ORDER BY at, id` lists every row once, by time and then by identifier |
| RowOrder.EnumerationUnique | core/src/storage/messages.rs:26-29 | There is one such listing, so a query's answer is a function of the table |
| Ratchet.ReceiveRatchet.Take | core/src/crypto/session.rs:24-54 | A chain head with a queue of 64 unused keys takes a generation exactly when it is unused, no processed generation is 64 or more above it and it is at most 2000 ahead; a refusal changes nothing |
| Ratchet.WindowInNumbers | core/src/crypto/session.rs:39-54 | After one message processed, those up to 63 behind it and up to 2001 ahead decrypt; before any, generations up to 2000 |
| Ratchet.EveryOrderDecrypts | core/src/crypto/session.rs:24-54 | A waiting set decrypts in full under every order if and only if it lies in the window |
| Ratchet.ConsecutiveRun | core/src/crypto/session.rs:39-45 | A run of consecutive new generations decrypts under every order if and only if it is at most 64 long |
| RelayStore.ExpiryBounds | server/src/store.rs:220-232 | A blob lives its whole lifetime and at most an hour longer, below saturation |
| RelayStore.ExpiryRevealsOnlyTheHour | server/src/store.rs:20-30 | Two arrivals get the same expiry if and only if they fall in the same hour or both saturate |
| RelayStore.ValidInboxIds | server/src/store.rs:245-252 | An address is valid if and only if it is the hexadecimal text of sixteen bytes, in either case, which is how an identity makes one (core/src/crypto/identity.rs:194-203) |
| RelayStore.CollectedExactly | server/src/store.rs:130-155 | A collect returns exactly the inbox's unexpired blobs, once each, in identifier order |
| RelayStore.Store.Enqueue | server/src/store.rs:105-123 | Validates the address, then the size, then stores for 30 days and an hour from the start of the arrival hour; every refusal leaves the table alone |
| RelayStore.Store.Collect | server/src/store.rs:130-155 | Answers exactly for a valid address and a clock the database can hold, with the specified rows, and deletes nothing |
| RelayStore.Store.Acknowledge | server/src/store.rs:158-173 | Erases exactly the rows of this inbox with the named identifiers, leaves every other row as it was, and returns how many are gone; a malformed address is refused and erases nothing |
| RelayStore.Store.SweepExpired | server/src/store.rs:176-179 | Removes exactly the rows whose expiry has come and returns how many |
| RelayRuns.SweepIsUnobservable | server/src/store.rs:175-179 | Under a clock that never goes back, every run of enqueues, collects and acknowledgements gives the same collect answers with any sweeps interleaved as with none |
| RelayRuns.SweepShowsInTheAcknowledgeCount | server/src/store.rs:158-179 | For every table, inbox, identifiers and time: the count acknowledged after a sweep equals the count without it if and only if no identifier names an expired row of that inbox |
| RelayRuns.EveryAcceptedBlobCanShowASweep | server/src/store.rs:105-179 | Any accepted blob shows it, exactly from its expiry on |
| RelayRuns.AcceptedBlobLifetime | server/src/store.rs:105-155 | A blob accepted at t and not acknowledged is returned by every collect up to t + TTL and by none from t + TTL + 3600 on |
| RelayRuns.AcknowledgedIsGone | server/src/store.rs:157-173 | Over every run that follows an acknowledgement, every collect of every inbox answers as without it, less exactly the named identifiers in the inbox that named them |
| RelayRuns.ArrivalOrderLeavesNoTrace | server/src/store.rs:125-141 | Permuting enqueues that arrive within one hour leaves the identical table |
| RelayRuns.DrainedIsNeverUsed | server/src/store.rs:130-173 | After any run, with other inboxes, collects, partial acknowledgements and sweeps in between, an inbox that is empty again leaves the table of the run in which nobody used it |
| StoreRules.IntegrityStep | core/src/storage/schema.rs:60-130 | Every statement, cascading deletes included, keeps every reference valid |
| StoreRules.RegisteringAgainLosesNothing | core/src/storage/contacts.rs:14-49 | Re-adding contacts and conversations, in any number and order, removes no row and changes no key, verification or disappearing interval |
| StoreRules.ReplaceKeyEffect | core/src/storage/contacts.rs:100-143 | A different key is stored, verification dropped, the old key and date noted and KeyChanged reported; the same key changes nothing |
| StoreRules.KeyChangeReportedUntilAnswered | core/src/api/contacts.rs:94-107 | A noted change is reported through every run of statements but its own acknowledgement and a wipe, even if the contact is marked verified |
| StoreRules.AnsweringIsNotVerifying | core/src/storage/contacts.rs:193-204 | Answering changes no contact row; a further change warns again |
| StoreRules.CrashInsideKeyReplacementLosesTheWarning | core/src/storage/contacts.rs:131-141 | After a crash in a replacement the new key is in use with no warning if and only if it fell between the two statements and no earlier change was still unanswered |
| SilentChanges.CrashInsideAReadLosesTheWarning | core/src/api/messaging.rs:233-245 | The same for a crash after any effect of reading a message under a new key, and the restart that follows |
| SilentChanges.TheLostWarningNeverComes | core/src/api/messaging.rs:242-245 | From then on no warning comes, through any calls, polls, restarts and crashes, for as long as the contact is heard from under that key |
| StoreRules.PolicyRoundTrip | core/src/storage/types.rs:83-105 | The stored form of a retention policy reads back as that policy |
| StoreRules.PurgeIsExact | core/src/storage/settings.rs:91-121 | A purge removes exactly the message and outbox rows strictly older than their interval, the conversation's own if set, else the device's |
| Outcomes.PolicyTakesEffect | core/src/storage/types.rs:68-81 | Choosing a policy takes at once, from every conversation without its own interval, exactly the rows older than 2592000, 604800 or 86400 seconds, or none |
| Outcomes.IntervalTakesEffect | core/src/storage/settings.rs:69-121 | Giving a conversation an interval replaces the policy for it; taking it away gives the conversation back to the policy; other conversations keep theirs |
| Outcomes.UnknownPolicyKeepsEverything | core/src/storage/types.rs:92-105 | A stored text that is not one of the three deleting policies keeps everything |
| StoreRules.PurgingTwiceIsPurgingLast | core/src/storage/settings.rs:91-121 | Purging at n1 and then n2, n1 no later, equals purging at n2 |
| StoreRules.ShorterPolicyDeletesMore | core/src/storage/types.rs:57-81 | A shorter policy deletes everything a longer one does |
| StoreRules.IntervalsBelowTwoTo63MeanWhatTheySay | core/src/storage/settings.rs:70-121 | Setting an interval and purging takes, on all tables and at all times, exactly the rows of that conversation older than the interval the user set, if and only if the interval is below 2^63 seconds |
| StoreRules.WipeLeavesNothing | core/src/storage/mod.rs:118-141 | A wipe empties every table; cut short after any deletion it keeps references valid |
| StoreRules.WipeCutShort | core/src/storage/mod.rs:128-138 | A device that opens still opens after at most six deletions, is new after eight, and holds an identity row without MLS state, neither new nor able to open, after exactly seven |
| Restarts.FirstRunCutShort | core/src/api/mod.rs:82-87 | First run cut between its two writes, and at no other point, leaves an identity row without MLS state, the same tables as a wipe after its seventh deletion; creating an identity again on them would make them open |
| TrustRules.VerifiedMeansTheUserVerifiedThisKey | core/src/storage/contacts.rs:33-61 | In every state reachable by calls, restarts and crashes, a verified contact is one whose latest verify action was "true" and was made while its present key was the stored one (`TrustRules.VerifiedExactly` is the if-and-only-if) |
| TrustRules.VerifiedExactly | core/src/storage/contacts.rs:51-143 | Over every session with restarts and crashes at any effect: a contact is verified if and only if the latest among verdicts on it and replacements of its key was a verdict of "true", or there was none and it was verified before |
| TrustRules.StaysVerified | core/src/storage/contacts.rs:28-61 | A verified contact stays so through every session that brings no verdict of "false" and no different key |
| Outcomes.VerdictIsRecorded | core/src/api/contacts.rs:79-86 | A verdict, either way, is written to that contact and changes nothing else; with no unanswered change the contact is then reported Verified exactly when the verdict was "true", with one it stays KeyChanged; on an unknown contact it does nothing |
| TrustRules.OnlyTheUserDecides | core/src/api/contacts.rs:79-86 | No call but the user's own verifies a contact or answers a warning |
| TrustRules.ProcessedMessageSetsTheKey | core/src/api/messaging.rs:233-245 | After a processed message the contact's key is the authenticated sender key: a different one drops verification and reports KeyChanged, the same one changes neither |
| TrustRules.WarningStaysUntilAnswered | core/src/api/contacts.rs:94-107 | Over whole sessions with crashes at any effect, a noted change is reported in every later state until its contact's change is acknowledged |
| Restarts.RestartRebuildsEveryConversation | core/src/api/mod.rs:143-163 | After any session, crashes included, references hold, the device opens, a restart makes live exactly the conversations with a row and a saved group, and every live conversation is among them with its contact's current address and key |
| Restarts.DiskKept | core/src/api/mod.rs:103-141 | At every crash point of every call the disk is fit to open |
| Restarts.CallSteady | core/src/api/mod.rs:227-234 | Every completed call leaves each live conversation with its row, its group, and its group in the saved snapshot |
| Basics.HexInjective | core/src/api/contacts.rs:36-37 | Distinct identity keys give distinct contact identifiers |
| Basics.LeqIsLexicographic | core/src/storage/messages.rs:26-29 | Identifiers are compared at the first byte in which they differ, and a proper prefix sorts first |
| Basics.TextLeqIsLexicographic | core/src/storage/contacts.rs:85-89 | The same for names, by code point |
| Introductions.AnInviteConnects | core/src/api/contacts.rs:17-65 | From an invite to a conversation: one side makes an invite and may be restarted, the other takes it up with both posts accepted, the first polls the two blobs in either order; then both are acknowledged, the inviter has filed the other under the name given and the key that signs, unverified and without a warning, each posts to where the other receives, and what either sends next the other opens |
| Introductions.JoinFilesTheCreator | core/src/api/messaging.rs:326-358 | A usable Welcome is filed under the identifier of the key that made it: a new contact holds that key, unverified; a known one keeps key and verification; no other contact changes; the conversation is live under that key and the key package is spent |
| Introductions.FirstMessageRaisesNothing | core/src/api/messaging.rs:233-245 | The first message from the creator of a joined conversation is handled, changes no key, raises no warning and verifies nobody |
| Introductions.IntroductionTellsWhereToReply | core/src/api/messaging.rs:247-275 | An introduction that is read sets the name, and the address and key replies go to, now and after a restart |
| Introductions.TakingUpAnInvite | core/src/api/contacts.rs:27-65 | With both posts accepted: the Welcome and then the introduction go to the address in the invite, the introduction says where this device receives, and contact, conversation and live peer are those the invite names |
| Introductions.InviteOutlivesARestart | core/src/api/contacts.rs:17-21 | The key package of an invite is still usable after a restart, and nothing else has changed |
| Introductions.TheInviterMeets | core/src/api/messaging.rs:194-275 | The poll of the one who made the invite, for both orders of the two blobs |
| Introductions.NextMessageArrives | core/src/crypto/session.rs:222-271 | Of two devices in step, what one sends next the other opens and stores with its body, and they are in step again |
| Storage.LocalStore.PutContact | core/src/storage/contacts.rs:33-49 | The upsert: an existing row gets the new name and address and keeps key and verification; a new row is stored as given |
| Storage.LocalStore.ReplaceIdentityKey | core/src/storage/contacts.rs:119-143 | Reports whether the key changed, and carries out the replacement statement by statement |
| Storage.LocalStore.PutConversation | core/src/storage/contacts.rs:215-226 | The upsert, refused when the contact is missing |
| Storage.LocalStore.Contacts | core/src/storage/contacts.rs:85-105 | Every contact once, by display name; the order between equal names is left open |
| Storage.LocalStore.Messages | core/src/storage/messages.rs:25-45 | Every row of the conversation, each once, earliest first, and by identifier within a second |
| Storage.LocalStore.QueuedRows | core/src/storage/outbox.rs:43-64 | Every waiting row, each once, earliest first, and by identifier within a second |
| Storage.LocalStore.RecordAttempt | core/src/storage/outbox.rs:85-91 | One more attempt and its reason on that entry; no other entry, and no row added or lost |
| Storage.LocalStore.DisappearAfter | core/src/storage/settings.rs:57-67 | Reads back the interval that was set: the two casts cancel |
| Storage.LocalStore.PurgeExpired | core/src/storage/settings.rs:91-121 | The purge of both tables, and the count of rows removed from each |
| Storage.LocalStore.Wipe | core/src/storage/mod.rs:118-141 | Every table empty, one statement at a time |
| Sessions.LiveConversation.JoinGroup | core/src/crypto/session.rs:183-216 | Joins exactly when the Welcome is for an unspent key package of this device, and spends it |
| Sessions.LiveConversation.Encrypt | core/src/crypto/session.rs:222-235 | The ciphertext at the group's next generation, which is then used up |
| Sessions.LiveConversation.Decrypt | core/src/crypto/session.rs:243-271 | Opens exactly what the group can still decrypt, returning the proved sender key; a refusal changes nothing |
| Sessions.RelayLink.Acknowledge | core/src/transport.rs:277-284 | Sends nothing when there is nothing to acknowledge |
| Protocol.Pouch.FlushOutbox | core/src/api/messaging.rs:161-178 | Carries out exactly the flush program and returns how many entries it delivered |
| Protocol.Pouch.SendPayload | core/src/api/messaging.rs:40-60 | Encrypt, post, then save only if the post was accepted; returns the identifier the relay gave, or its error |
| Protocol.Pouch.SendMessage | core/src/api/messaging.rs:67-149 | Flush whatever comes of it, encrypt, post, record, save: the state and every effect in order, and which outcome is returned: the identifier the relay gave this post, its error, or an unknown conversation |
| Protocol.Pouch.TryJoin | core/src/api/messaging.rs:326-358 | Joins, registers the contact unverified and the conversation, goes live, saves, in that order; the contact is the one whose key made the Welcome, under that key; any other blob changes nothing |
| Protocol.Pouch.JoinWelcomes | core/src/api/messaging.rs:198-207 | The first pass: what was joined, what is left, and every effect in order |
| Protocol.Pouch.FindOpening | core/src/api/messaging.rs:209-216 | Tried in any order, the live conversations find the one that opens the blob, if one does |
| Protocol.Pouch.ReadEnvelope | core/src/api/messaging.rs:209-304 | One turn of the second pass: opened, key noticed, payload stored; handled only if it opened and parsed |
| Protocol.Pouch.ReadMessages | core/src/api/messaging.rs:209-304 | The whole second pass: state, effects, handled identifiers and returned rows |
| Protocol.Pouch.Settle | core/src/api/messaging.rs:306-315 | Acknowledge, and only if that succeeds save and purge |
| Protocol.Pouch.ReceiveMessages | core/src/api/messaging.rs:185-317 | A whole poll: state, every effect in order, when it succeeds and which rows it returns |
| Protocol.Pouch.AddContact | core/src/api/contacts.rs:27-65 | The contact is filed before the Welcome is posted; the conversation goes live and is saved only if it was accepted; then the introduction. Returns the identifier of the conversation if both posts were accepted, else the error of the first that was not |
| Protocol.Pouch.InviteCode | core/src/api/contacts.rs:17-21 | A key package is added and saved before the code is handed out |
| Protocol.Pouch.Conversations | core/src/api/contacts.rs:89-113 | Every conversation once, with its contact's name, the identity state with an unanswered change outranking verification, and as latest message the body of one that no other of the conversation is later than, or none if it is empty |
| Protocol.Pouch.SetRetentionPolicy | core/src/api/storage_controls.rs:19-30 | The policy is in force and applied at once; the count is of rows deleted from both tables |
| Protocol.Pouch.SetDisappearingMessages | core/src/api/storage_controls.rs:43-53 | The same for one conversation; an unknown one changes nothing |
| Protocol.Pouch.Create | core/src/api/mod.rs:69-98 | First run leaves the identity row, the snapshot and nothing else |
| Protocol.Pouch.Open | core/src/api/mod.rs:103-141 | Opens exactly when identity and matching MLS state are on disk; rebuilds, then applies retention |
| Protocol.Pouch.ReloadConversations | core/src/api/mod.rs:149-163 | Live are exactly the conversations with a row, a contact and a group, each with its contact's address and key |
| Protocol.Pouch.WipeAll | core/src/api/mod.rs:221-225 | Nothing live and nothing in any table |
| Snapshot.AnyListingRestores | core/src/crypto/provider.rs:58-86 | Whatever order the map is iterated in, the list of pairs restores the map |
| Snapshot.ProviderStorage.Snapshot | core/src/crypto/provider.rs:58-69 | Lists every entry once, and the list restores the map |
| Snapshot.ProviderStorage.Restore | core/src/crypto/provider.rs:72-86 | Replaces what was held by the list's entries, a later pair winning |
| BackupFile.FramesAndFilesMatch | core/src/api/backup.rs:154-161 | Frame and parser invert each other, in both directions, on every accepted file: the eight bytes of the name, a 1, sixteen bytes of salt, twelve of nonce, the ciphertext |
| BackupFile.WhyAFileIsRefused | core/src/api/backup.rs:255-276 | Which of the three header errors a file gets, exactly |
| BackupFile.WrittenReadsBack | core/src/api/backup.rs:184-203 | The recovery key reads back what was written; a key deriving to another is told so |
| Backup.BackupRoundTrip | core/src/api/backup.rs:119-243 | Importing an export opens a device with the same identity, live MLS state, contacts with keys and verification, conversations with intervals, policy, and every thread in order, minus what retention takes at opening; outbox and key-change history are empty |
| Backup.ImportRebuilds | core/src/api/backup.rs:210-238 | The statements of an import rebuild the tables row for row |
| Backup.TrustSurvivesRestore | core/src/api/backup.rs:216-218 | A restored contact is verified only on the strength of the action the old device remembers |
| Backup.WarningsAreNotBackedUp | core/src/api/backup.rs:99-111 | A key change not answered before the backup is not reported after it |
| Backup.ExportPayload | core/src/api/backup.rs:119-153 | The nested loops gather every contact, conversation and message exactly once, and the live MLS state |
| Backup.ExportBackup | core/src/api/backup.rs:119-175 | The file is the sealed payload of exactly those rows |
| Backup.Populate | core/src/api/backup.rs:210-238 | Succeeds exactly when no row points outside the payload, and then leaves what the import statements leave |
| Backup.ImportBackup | core/src/api/backup.rs:184-243 | Every outcome: which error for which file, and otherwise the opened device |
| Backup.ExportsImport | core/src/api/backup.rs:177-183 | What a device exports, its recovery key imports |
| Keying.PassphraseInForceOpens | core/src/api/storage_controls.rs:123-172 | Over every run of setting, changing and clearing, with the re-encryption failing at any call and crashes anywhere outside the window, `unlock` with the passphrase in force yields the key the database is under, and no other passphrase does |
| Keying.EveryCrashPoint | core/src/api/storage_controls.rs:123-172 | For a crash after any number of effects: nothing opens the database if and only if the crash is in the window; otherwise the passphrase in force does; and a database under a passphrase key is never opened without one |
| Keying.WhatTheWindowLeaves | core/src/api/storage_controls.rs:116-146 | A crash inside the window when a first passphrase is set is repaired by deleting the sidecar; when one is changed, the old salt is gone |
| Keying.OnlyThePassphraseOpens | core/src/api/storage_controls.rs:105-113 | Once a passphrase is set no key is left on disk and only that passphrase opens the database |
| Keying.FirstUnlockKeys | core/src/keying.rs:129-173 | The first unlock makes a device key, stores it, and later unlocks return it |
| Keying.FirstUnlockCutShort | core/src/keying.rs:155-190 | Cut short in its own write it leaves a key file every later unlock refuses, and at no other point |
| Keying.SourceRoundTrip | core/src/keying.rs:87-116 | A recorded key source reads back, and only a recorded one reads at all |
| Keying.WhyUnlockFails | core/src/keying.rs:87-173 | Which error a locked database gives, exactly: a passphrase is asked for if and only if the sidecar is a 2 and sixteen bytes and none was given; malformed means another sidecar than that or the single byte 1, or a key file not of 32 bytes where the key file counts |
| Keying.Keyring.Unlock | core/src/keying.rs:129-137 | The key, or which error; writes only to make a missing device key |
| Keying.Keyring.SetPassphrase | core/src/api/storage_controls.rs:123-146 | Sidecar, re-encryption, then removal of the device key; rolled back on failure, effect by effect |
| Keying.Keyring.ClearPassphrase | core/src/api/storage_controls.rs:153-172 | Device key, sidecar, re-encryption; rolled back on failure; refused on a malformed key file |
| Keying.Keyring.DevelopmentDeviceKey | core/src/keying.rs:155-173 | Made once, written before it is handed out, then read back; a file of another length is refused |
| SafetyNumber.BothPartiesAgree | core/src/crypto/safety_number.rs:39-57 | Both parties derive the same number, for all keys and any hash |
| SafetyNumber.EveryGroupReadsBack | core/src/crypto/safety_number.rs:94-120 | Sixty decimal digits, each group of five writing its five bytes of the digest, highest first, modulo 100000; the smaller key's six groups first |
| SafetyNumber.DigestIsTheLastRound | core/src/crypto/safety_number.rs:94-108 | The digest is the last of 5201 hash values: the first over version and key, each later one over the one before and the key |
| SafetyNumber.GroupsOfFive | core/src/crypto/safety_number.rs:64-76 | The shown form has a space at every sixth place and the digits in order elsewhere |
| SafetyNumber.GroupingLosesNothing | core/src/crypto/safety_number.rs:64-76 | Taking the spaces out of the grouped form gives the digits |
| SafetyNumber.BlockValue | core/src/crypto/safety_number.rs:111-116 | The 64-bit shifts compute the number the five bytes write, highest first: it stays below 2^40 |
| SafetyNumber.Fingerprint | core/src/crypto/safety_number.rs:94-120 | The hash iterated 5200 times over digest and key, rendered in six groups |
| SafetyNumber.Derive | core/src/crypto/safety_number.rs:45-57 | Sixty digits, the same whichever key comes first |

## Left out

- Internals of MLS, AEAD, HKDF, Argon2, SHA-256, zstd and JSON: unseen libraries, replaced by ideal laws (decryption inverts encryption and fails otherwise, parsing inverts printing, distinct passphrases and salts derive distinct keys). Decompression or parsing that fails is the `Unreadable` plaintext.
- MLS epochs, handshake messages and padding: no call of this repository advances an epoch after a group is made. What a real library does to its state when it rejects a message is idealised to nothing.
- The 32-bit width of generations and of attempt counts: unbounded here.
- Aliasing of conversation objects: each is filed under its own group, which the source gets from owning its map.
- Failing local file and SQL writes other than broken foreign keys: a statement runs or the process stops. `set_key_source` failing during a rollback is therefore not a case.
- Rows the relay's clock cannot store: `Store.Enqueue` reports a database error when the expiry exceeds 2^63 - 1, as binding it does.
- `Protocol.Pouch.SendMessage`: the manifest is not built; the outcome and the state are.
- `Protocol.Pouch.AddContact`: starts from a decoded invite; a malformed one fails before anything else happens.
- `PollOrders.ContactRowsAgreeExactly`: says nothing of the key-change rows, whose date is when the first message under the new key was read.
- `Backup.ImportBackup`: a crash part of the way through an import, which leaves a prefix of its rows on a path that had no identity.
- `Keying.FirstUnlockCutShort`: a file half filled by the operating system is the empty one; both are refused for their length.
- Two devices live on one restored backup: outside the design, and it breaks the uniqueness of generations.
- That the outbox ever drains: an entry the relay always refuses blocks the queue.
- `SafetyNumber::matches`, the pending-change list, counts and labels: one-line members.
- HTTP plumbing and the URL check of core/src/transport.rs, routing and the sweep timer of server/src/main.rs, core/src/manifest.rs, invite encoding, schema upgrades, and the clients.
- Random-number quality, zeroization, secure deletion on disk and compression side channels: not functional properties.
