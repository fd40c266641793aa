# Hermes push, recovery and voice: a verified model

This project models five stateful parts of the Hermes app and its server and proves what they are for.

**Push registration and outbox** (`Push*.dfy`). `PushModel` gives the store's tables and the effect of each
transaction on them; `PushStore` and `PushRuntime` are the same transactions as methods that update an object's
fields, proved to have exactly those effects. `PushInvariant` and `PushRuns` hold what every transaction keeps
and what holds in every reachable store, migration included. `PushConfluence` (arrival order, delete wins),
`PushHandshake` (whose proof activates), `PushSending` (bounded sending under crashes), `PushAttention` (no stale
input), `PushAdmission` (admission only narrows), `PushReplay` and `PushCrash` (exactly when a replayed inbox entry
does no harm), `PushDrain` (the drain where the caps cut nothing) and `PushFeed` (paging equals filtering) are the
main results.

**The phone's side of the same protocol** (`Phone`, `Agreement`, `Consent`, `Bridge`). `Phone` is the sealed
state; `Agreement` joins it to the server through a network that loses, repeats and reorders every request and
answer, while other clients and arbitrary push messages interfere. `Consent` holds the one-use tickets, account
gates and the storage of engines that died; `Bridge` is the native object.

**Turn-recovery ledger** (`Ledger*.dfy`). Handlers are cut where they wait, and a crash with a reload may fall
between any two stretches. `LedgerStore` has the validator as the loops it is.

**Voice** (`Recognizer`, `Voice*.dfy`). One utterance with its four timers and real deadlines, and any number of
engines sharing one microphone lease.

**Session paging** (`Paging`). The completion rule for listings in which every page repeats the pinned rows.

## How to read the model

- A UUID is a value that was not used before; SHA-256 is injective, so a row keeps the value itself and a digest
  of a prompt is a parameter of the right shape. An event is identified with its cursor, a job with its row id.
- Scans without an order in the query take the order as a parameter, and the results hold for every order; in a
  full table it may decide which new event is kept.
- Clocks are parameters. A push send is an arbitrary status code, or a crash that loses its transaction.
- In `Agreement` the relay in the app is reduced to what it sends and hands back: a registration request made of
  the sealed state after the write-ahead, a confirmation for the present generation, a deletion for a recorded
  revocation, and each answer together with the authority it answers. Each may arrive any number of times or
  never. Hints that reach the phone are arbitrary.
- The ledger saves before every wait, so what a crash leaves is the ledger between two stretches; a crash before
  a save is the stretch not taken. Stretches that the original runs without waiting in between, after a
  simulated disconnect, may be interleaved here, which allows more than the original does.
- In `Voice` the start of a recognition is a claim followed later by the report that it started, so events and
  endings may fall in between, as they may in the original when the platform calls back at once.

## Where the code does less than one might expect

Each is stated as an exact condition, with a run or an input that fails it.

- An interrupt that lands while a handler is finishing a turn is later overwritten by `completed`
  (`LedgerTerminal.OverForGood`, `LedgerTerminal.InterruptIsOverwritten`).
- The ledger's validator accepts ledgers whose next turn would overwrite an old one, and turns whose replay never
  advances; neither can be reached (`LedgerHistory.CreatingNeedsAnUnusedName`,
  `LedgerHistory.AcceptableReplayCanStall`; `LedgerHistory.AcceptableButDoomed` and
  `LedgerHistory.AcceptableButStalled` are such ledgers).
- The phone accepts a selection that names a session twice; the server refuses it (`Agreement.FirstArrival`,
  `Agreement.RepeatedSessionIsRefused`).
- Stopping a later generation silences an older running capture without cancelling it (`VoiceStop.StopReaches`,
  `VoiceStop.OlderCaptureIsLeftRunning`).
- The service calls record-then-remove crash-safe because recording deduplicates (service.py:61-62). It is, unless
  the cap on stored events cuts what the first pass stored, or what it found: then the replay stores and pushes
  that event anew. For a replay at the same time the exact condition, on the store before the first pass, is
  `PushReplay.Harmless`: recording stops early, or the cap is zero, or the wanted events that are not stored yet fit
  under the cap and leave each stored one among the newest. The cap on attention never matters
  (`PushReplay.ReplayIsHarmless`, `PushCrash.CrashesNeverShow`, `PushCrash.ReplayCanPushAgain`). For replays at any
  later times the wanted events that were stored must also live until the last of them
  (`PushReplay.ReplaysPushNothing`). An entry that has expired is not recorded at all.

## Model

| member | source | states |
|---|---|---|
| `Paging.PageCarriesEveryPin` | scripts/paging_contract_fuzz.py:48-54 | every page shows its window and all pins, each pin row once |
| `Paging.ClaimIsComplete` | scripts/paging_contract_fuzz.py:78-91 | a client that claims completion after more zero-new pages than the pins can fill has the full set, for every total, pin set and page size |
| `Paging.ClaimComes` | scripts/paging_contract_fuzz.py:78-91 | the claim comes: past the last row at most `threshold` further pages are needed |
| `Paging.SafeExactlyWhenPagesOutnumberPins` | scripts/paging_contract_fuzz.py:144-182 | a threshold is safe on all layouts with that many pins if and only if `threshold * size > pins`, which is if and only if it is at least `pins / size + 1`; below it a layout is truncated |
| `Paging.OutnumberIsRequired` | scripts/paging_contract_fuzz.py:84-87 | `pins / size + 1` is the least number of pages that outnumber the pins |
| `Paging.TakeRound` | scripts/paging_contract_fuzz.py:78-90 | one round of the loop takes the scan one page further and computes the required threshold from what was seen |
| `Paging.ClientApiServerPages` | scripts/paging_contract_fuzz.py:66-91 | prunes at most once and only on the full set; prunes for certain when the cap allows ceil(total/size) + pins/size + 1 pages; never collects a row the server does not have |
| `Paging.ClientArchivedPages` | scripts/paging_contract_fuzz.py:94-105 | completes if and only if the cap reaches the total, and then with the full set |
| `Paging.ClientNaiveZeroNew` | scripts/paging_contract_fuzz.py:144-156 | is the scan with threshold one, so it truncates exactly where threshold one is unsafe |
| `Paging.StockServer.Make` | scripts/paging_contract_fuzz.py:44-46 | keeps exactly the wanted pins that are rows |
| `PushTypes.ScopeReloads` | server/mobile-push/mobile_push/scope.py:16-42 | a stored scope is read back exactly when some request could have produced it, and then unchanged |
| `PushInvariant.PutKeeps` | server/mobile-push/mobile_push/store.py:134-222 | registering keeps the store invariant: unique index, rows, challenges, job authority, leases |
| `PushInvariant.ConfirmKeeps` | server/mobile-push/mobile_push/store.py:224-248 | confirming keeps the store invariant |
| `PushInvariant.RevokeKeeps` | server/mobile-push/mobile_push/store.py:263-290 | revoking and burying keep the store invariant |
| `PushInvariant.RecordKeeps` | server/mobile-push/mobile_push/store.py:365-415 | recording an observer event, in any scan order, keeps the store invariant |
| `PushInvariant.ClaimPreparedKeeps` | server/mobile-push/mobile_push/store.py:507-514 | pruning and finishing exhausted jobs keep the store invariant |
| `PushInvariant.LeaseKeeps` | server/mobile-push/mobile_push/store.py:515-527 | taking a lease keeps the store invariant, in particular one row per token |
| `PushInvariant.DeliverKeeps` | server/mobile-push/mobile_push/service.py:80-116 | the sender's transaction keeps the store invariant, whatever the answer |
| `PushInvariant.PruneKeeps` | server/mobile-push/mobile_push/store.py:430-440 | pruning keeps the store invariant |
| `PushRuns.ReopenEstablishes` | server/mobile-push/mobile_push/store.py:55-98 | opening a database of any age establishes the store invariant: rows without a revision lose their authority and their jobs |
| `PushRuns.ReopenAgainChangesNothing` | server/mobile-push/mobile_push/store.py:68-98 | opening a migrated database again changes nothing |
| `PushRuns.RunKeeps` | server/mobile-push/mobile_push/store.py:134-527 | the invariant holds after any sequence of transactions |
| `PushRuns.OutboxAuthority` | server/mobile-push/mobile_push/store.py:166-216 | in every reachable store each outbox row has its registration's current generation; revoked and upgrade-required rows own none, a pending row at most its one challenge, an active row no challenge |
| `PushRuns.SenderFindsItsAuthority` | server/mobile-push/mobile_push/service.py:128-132 | the missing-row and generation tests of the sender can never refuse a job whose lease holds |
| `PushRuns.RunLater` | server/mobile-push/mobile_push/store.py:134-527 | over any run generations, revisions, cursors and tokens only grow, registrations are never deleted, revocation and cancellation are for good |
| `PushConfluence.NewestIsAccepted` | server/mobile-push/mobile_push/store.py:150-165 | a request with a revision above every earlier one is accepted whatever arrived before it |
| `PushConfluence.LargestRevisionWins` | server/mobile-push/mobile_push/store.py:134-222 | whatever the order, repetition and other traffic, an installation that is not revoked ends with exactly the content of the largest revision |
| `PushConfluence.ArrivalOrderDoesNotMatter` | server/mobile-push/mobile_push/store.py:134-222 | two runs carrying the same requests in any order and multiplicity agree on endpoint, keys, kinds, scope, nonce, revision and owner unless one of them revoked |
| `PushConfluence.RevokedStays` | server/mobile-push/mobile_push/store.py:155-157 | a revoked row never changes and every later registration of it leaves every table unchanged |
| `PushConfluence.DeleteWins` | server/mobile-push/mobile_push/store.py:263-290 | an accepted deletion anywhere in a run wins over every registration before or after it |
| `PushSending.SendingIsBounded` | server/mobile-push/mobile_push/service.py:75-116 | over every interleaving of workers with crashes, rollbacks and lease expiry: one send per token, at most `max_attempts` sends per job, none after a committed permanent answer, and no two valid tokens for a job |
| `PushSending.TakenOverNeverCommits` | server/mobile-push/mobile_push/service.py:80-116 | a worker whose lease was taken over, or whose job is gone, never sends and never changes the store, however the run goes on |
| `PushSending.ReclaimTakesOver` | server/mobile-push/mobile_push/store.py:515-527 | claiming a job takes it from whoever held it |
| `PushSending.DeadStays` | server/mobile-push/mobile_push/service.py:103-109 | a job that is finished or deleted never becomes sendable again |
| `PushSending.NotedKeeps` | server/mobile-push/mobile_push/service.py:98-116 | a send that was made but whose transaction was lost still counts against its claim |
| `PushHandshake.PutQueuesItsChallenge` | server/mobile-push/mobile_push/store.py:166-222 | with a positive challenge lifetime and event cap, an accepted registration leaves exactly one job for its installation: a fresh challenge for its nonce and generation |
| `PushHandshake.OnlyThePushedProofActivates` | server/mobile-push/mobile_push/store.py:224-248 | whatever happens in between, only the owner with the very challenge that was pushed, before it expires, confirms that generation |
| `PushHandshake.ConfirmedOnce` | server/mobile-push/mobile_push/store.py:228-236 | a confirmed generation refuses every later proof, over any run |
| `PushHandshake.LeaseExcludes` | server/mobile-push/mobile_push/store.py:515-527 | for thirty seconds a leased job is offered to no one else |
| `PushHandshake.RetriesBackOff` | server/mobile-push/mobile_push/service.py:110-115 | each retry waits at least as long as the one before, doubling up to five minutes |
| `PushAttention.NoStaleInput` | server/mobile-push/mobile_push/store.py:373-391 | after a resolution or the end of the turn was recorded, no earlier input event for it is ever sent |
| `PushAttention.ResolvedInputsStayCancelled` | server/mobile-push/mobile_push/store.py:417-427 | while a resolved request is remembered every input event for it is cancelled and no live one can be created, in either arrival order |
| `PushAdmission.AdmissionOnlyNarrows` | server/mobile-push/mobile_push/service.py:148-180 | every job queued for an observer event was admitted at an earlier observation of that event: its installation was then active, at that generation, consenting, and is still that very registration |
| `PushAdmission.ObserveAdmits` | server/mobile-push/mobile_push/store.py:353-363 | the captured map holds exactly the consenting active registrations with their generations |
| `PushDrain.RecordIsRecorded` | server/mobile-push/mobile_push/store.py:365-415 | where the count caps cut nothing: what recording an event does to every event, job and attention row, independently of the scan order and of identifiers |
| `PushDrain.AttemptsCollapse` | server/mobile-push/mobile_push/service.py:61-72 | where the count caps cut nothing: any number of attempts at one entry, each before it expires, has the effect of the last one |
| `PushDrain.RecordedIsFunction` | server/mobile-push/mobile_push/store.py:365-415 | stores that agree up to identifiers agree after recording the same event |
| `PushDrain.CrashyDrainIsClean` | server/mobile-push/mobile_push/service.py:61-72 | where the count caps cut nothing: a drain with crashes between record and remove at any times leaves the events, jobs and attention of one clean pass made at the times of the last attempts |
| `PushDrain.SmallTablesAreIdle` | server/mobile-push/mobile_push/store.py:430-440 | the count caps do nothing on tables no larger than the cap |
| `PushReplay.ReplayIsHarmless` | server/mobile-push/mobile_push/store.py:365-415 | recording an entry again at the same time leaves the events, jobs and attention of the first pass if and only if, in the store before the first pass, recording stops early or the cap is zero or the new rows fit under the cap and push out no wanted row; otherwise somebody is pushed an event anew |
| `PushReplay.HarmlessReplay` | server/mobile-push/mobile_push/store.py:365-415 | a harmless replay changes no table and, with a time to live, no counter either |
| `PushReplay.ReplayPushesNothing` | server/mobile-push/mobile_push/service.py:61-72 | a replay at any later time before the entry expires leaves events and jobs as time alone would, exactly when the first pass had room and the wanted rows it found live on; otherwise it pushes an event anew |
| `PushReplay.ReplaysPushNothing` | server/mobile-push/mobile_push/service.py:61-72 | any number of replays at any later times: all of them leave events and jobs alone if and only if that holds at the first pass until the time of the last replay |
| `PushReplay.WantedAreKept` | server/mobile-push/mobile_push/store.py:430-440 | after a first pass every wanted event is still stored at a later time exactly when the room was there before it and the old ones live on |
| `PushReplay.AttentionSettles` | server/mobile-push/mobile_push/store.py:380-388 | noting a request or a turn end again at the same time changes no attention row: the cap on attention never matters to a replay |
| `PushReplay.RoomIsEnough` | server/mobile-push/mobile_push/store.py:430-440 | tables with room for the wanted events and one request, counted before the call, are left alone by the caps throughout it |
| `PushCrash.CrashesNeverShow` | server/mobile-push/mobile_push/service.py:61-72 | whatever crashes fall between record and remove, replaying entries at the same time or after they expired, no point of the drain differs from the clean drain: if and only if every entry is harmless for the store that the clean drain brings it to |
| `PushCrash.ReplayCanPushAgain` | server/mobile-push/mobile_push/service.py:61-72 | a reachable store and an entry for which a replay stores and queues an event anew |
| `PushCrash.RunKeepsReplayOk` | server/mobile-push/mobile_push/store.py:134-527 | in every reachable store attention rows are numbered in order and only inputs and challenges are cancelled, as the replay theorems ask |
| `PushRuntime.CrashRunIsDrain` | server/mobile-push/mobile_push/service.py:61-72 | the loop with crashes between record and remove is the drain with repeated attempts, entry by entry |
| `PushFeed.MorePagesAdvance` | server/mobile-push/mobile_push/store.py:478-503 | a page that reports more strictly advances the cursor |
| `PushFeed.PageIsPrefix` | server/mobile-push/mobile_push/store.py:478-503 | a page shows the first permitted rows after the cursor, in order |
| `PushFeed.StoreFits` | server/mobile-push/mobile_push/store.py:430-440 | the events table never exceeds its cap after a transaction |
| `PushFeed.FollowingShowsEverything` | server/mobile-push/mobile_push/store.py:471-505 | following the cursor to the end shows exactly the permitted live rows after it, once each, in order |
| `PushFeed.PagingEqualsFiltering` | server/mobile-push/mobile_push/store.py:471-505 | the same in every reachable store under one cap |
| `PushFeed.ClosedFeedsStayClosed` | server/mobile-push/mobile_push/store.py:442-470 | a feed bound to a generation that is over is refused for good |
| `PushStore.Store.Open` | server/mobile-push/mobile_push/store.py:55-98 | opening runs the migration loop over the legacy rows and ends in the migrated database |
| `PushStore.Store.AddEvent` | server/mobile-push/mobile_push/store.py:312-345 | insert-or-ignore on the deduplication key |
| `PushStore.Store.Queue` | server/mobile-push/mobile_push/store.py:305-310 | insert-or-ignore on the outbox key |
| `PushStore.Store.Prune` | server/mobile-push/mobile_push/store.py:430-440 | drops expired rows and all but the newest, with their jobs |
| `PushStore.Store.CancelAttention` | server/mobile-push/mobile_push/store.py:417-427 | cancels the input events of a request or session and drops their jobs |
| `PushStore.Store.RevokeIn` | server/mobile-push/mobile_push/store.py:251-260 | revokes the row, bumps its generation, empties its outbox and cancels its challenges |
| `PushStore.Store.Put` | server/mobile-push/mobile_push/store.py:134-222 | registers or refuses with the code that applies, and queues the challenge |
| `PushStore.Store.Confirm` | server/mobile-push/mobile_push/store.py:224-248 | activates exactly the pending generation with the right proof, or refuses |
| `PushStore.Store.Revoke` | server/mobile-push/mobile_push/store.py:263-290 | revokes, buries an unknown installation, or refuses |
| `PushStore.Store.Targets` | server/mobile-push/mobile_push/store.py:353-363 | the admission snapshot |
| `PushStore.Store.Record` | server/mobile-push/mobile_push/store.py:365-415 | records an observer event |
| `PushStore.Store.RecordRows` | server/mobile-push/mobile_push/store.py:392-414 | the scan over registrations |
| `PushStore.Store.RecordRow` | server/mobile-push/mobile_push/store.py:392-414 | one registration of that scan |
| `PushStore.Store.OldestDue` | server/mobile-push/mobile_push/store.py:515-519 | the due job with the smallest id, or none when none is due |
| `PushStore.Store.Claim` | server/mobile-push/mobile_push/store.py:507-527 | leases the oldest due job under a new token |
| `PushStore.Store.Events` | server/mobile-push/mobile_push/store.py:442-505 | one page of the feed, or the code that refuses its binding |
| `PushStore.Store.ReadPage` | server/mobile-push/mobile_push/store.py:471-505 | the loop over the selected rows computes the specified page |
| `PushStore.Store.Deliver` | server/mobile-push/mobile_push/service.py:80-116 | the sender's transaction on a claimed job |
| `PushStore.UpgradedIsReopened` | server/mobile-push/mobile_push/store.py:68-98 | the migration loop ends in the specified database |
| `PushRuntime.PutKeepsQueue` | server/mobile-push/mobile_push/inbox.py:32-43 | putting keeps the inbox bounded, in order and free of duplicates |
| `PushRuntime.Inbox.Put` | server/mobile-push/mobile_push/inbox.py:32-43 | drops expired entries, ignores a duplicate, keeps the newest |
| `PushRuntime.Inbox.Peek` | server/mobile-push/mobile_push/inbox.py:45-47 | the waiting entry with the least id, or none when none waits |
| `PushRuntime.Inbox.Remove` | server/mobile-push/mobile_push/inbox.py:49-51 | removing the entry just peeked leaves the others in order |
| `PushRuntime.Runtime.Observe` | server/mobile-push/mobile_push/service.py:148-180 | nothing while stopping; otherwise captures the authority, then records at once or queues behind waiting events |
| `PushRuntime.Runtime.DrainInbox` | server/mobile-push/mobile_push/service.py:63-72 | moves up to 32 entries into the store, oldest first |
| `PushRuntime.Runtime.DeliverOne` | server/mobile-push/mobile_push/service.py:56-116 | sends only when the inbox is empty, and nothing when push is off or stopping |
| `Phone.ShownOnce` | android/app/src/main/kotlin/com/hermesagent/hermes_android/MobilePushBridge.kt:401-424 | a push event that is remembered is shown once: the same hint again changes nothing, and a tap of the present registration was issued for it |
| `Phone.UnexpiredKeeps` | android/app/src/main/kotlin/com/hermesagent/hermes_android/MobilePushBridge.kt:388-396 | exactly the unexpired challenges of other events are kept |
| `Phone.WithoutForgets` | android/app/src/main/kotlin/com/hermesagent/hermes_android/MobilePushBridge.kt:274-284 | an acknowledged revocation forgets exactly that installation |
| `Phone.ChallengeIsHeld` | android/app/src/main/kotlin/com/hermesagent/hermes_android/MobilePushBridge.kt:388-400 | a valid challenge is held as the newest of at most sixteen, the only one of its event, with none that expired |
| `Phone.TapOpensOnce` | android/app/src/main/kotlin/com/hermesagent/hermes_android/MobilePushBridge.kt:333-338 | a tap is handed out once and only for the present active generation before it expires |
| `Agreement.NextKeeps` | android/app/src/main/kotlin/com/hermesagent/hermes_android/MobilePushBridge.kt:151-446 | every move of phone, server and network keeps the joint invariant |
| `Agreement.ActiveMeansConfirmed` | android/app/src/main/kotlin/com/hermesagent/hermes_android/MobilePushBridge.kt:318-332 | under loss, repetition and reordering: an active phone was given its generation for the request it sent under its present nonce, the server confirmed it, and the server's row is either active at that generation with exactly that request, or revoked |
| `Agreement.ServerIsNeverAhead` | server/mobile-push/mobile_push/store.py:158-160 | the server's stored revision never exceeds the phone's |
| `Agreement.FirstArrival` | server/mobile-push/mobile_push/store.py:145-165 | the first arrival of the phone's present request is refused exactly when the row is revoked (409), there is no row and the table is full (429), or the selection names a session twice (422) |
| `Agreement.RepeatedSessionIsRefused` | server/mobile-push/mobile_push/scope.py:16-42 | a run to a first request whose selection names a session twice; the server refuses it with 422 under any policy and stores nothing |
| `Agreement.OldNonceIsDead` | android/app/src/main/kotlin/com/hermesagent/hermes_android/MobilePushPolicy.kt:20-41 | after an invalidation or disable no push under the old nonce is ever accepted and nothing accepted under it is ever opened |
| `Agreement.ForgottenIsSilent` | android/app/src/main/kotlin/com/hermesagent/hermes_android/MobilePushBridge.kt:252-284 | an installation leaves the phone's revocation record only after the server revoked it, and then nothing is queued for it |
| `Agreement.ActiveIsReachable` | lib/core/services/mobile_push_service.dart:535-612 | over a kind network the handshake does reach activation |
| `Agreement.ScopeOfPhone` | android/app/src/main/kotlin/com/hermesagent/hermes_android/MobilePushPolicy.kt:9-19 | a selection the phone accepts is refused by the server exactly when it names a session twice |
| `Agreement.RotateKeeps` | android/app/src/main/kotlin/com/hermesagent/hermes_android/MobilePushBridge.kt:440-446 | an invalidation keeps the joint invariant |
| `Agreement.SendPutKeeps` | lib/core/services/mobile_push_service.dart:548-560 | the write-ahead before a registration request keeps the joint invariant |
| `Agreement.PutAnsweredKeeps` | lib/core/services/mobile_push_service.dart:561-574 | an answer, however late, keeps the joint invariant |
| `Agreement.DisableRecords` | android/app/src/main/kotlin/com/hermesagent/hermes_android/MobilePushBridge.kt:250-267 | withdrawing consent records the revocation that is still owed |
| `Agreement.PutArrivesKeeps` | server/mobile-push/mobile_push/store.py:134-222 | the arrival of any request ever sent keeps the joint invariant |
| `Agreement.ConfirmArrivesKeeps` | server/mobile-push/mobile_push/store.py:224-248 | the arrival of any confirmation ever sent keeps the joint invariant |
| `Agreement.DeleteArrivesKeeps` | server/mobile-push/mobile_push/store.py:263-290 | the arrival of any deletion ever sent keeps the joint invariant |
| `Agreement.ElsewhereKeeps` | server/mobile-push/mobile_push/store.py:134-527 | whatever other clients, observers and senders do keeps the joint invariant |
| `Agreement.DeleteAnsweredKeeps` | lib/core/services/mobile_push_service.dart:482-500 | forgetting a revocation that was answered keeps the joint invariant |
| `Consent.ConsentIsFresh` | android/app/src/main/kotlin/com/hermesagent/hermes_android/MobilePushBridge.kt:211-237 | consent is granted only on a ticket issued to that same engine for that connection, untouched since by account change, metadata write, withdrawal, other grant or engine loss |
| `Consent.OneGrantPerTicket` | android/app/src/main/kotlin/com/hermesagent/hermes_android/MobilePushBridge.kt:232-234 | a ticket admits at most one grant over any run |
| `Consent.OrphansDrain` | android/app/src/main/kotlin/com/hermesagent/hermes_android/MobilePushBridge.kt:53-91 | an engine is listed exactly while it has outstanding storage, a dead engine holds no ticket, and it gates only while its storage drains |
| `Consent.GateOutlivesItsEngine` | android/app/src/main/kotlin/com/hermesagent/hermes_android/MobilePushBridge.kt:65-70 | a dead engine's gate survives every step but the completion of its last operation, which lifts it |
| `Consent.NothingStartsWhileDraining` | android/app/src/main/kotlin/com/hermesagent/hermes_android/MobilePushBridge.kt:73-92 | while an abandoned operation is outstanding no ticket, account change, storage call or grant succeeds |
| `Consent.OutstandingIsCounted` | android/app/src/main/kotlin/com/hermesagent/hermes_android/MobilePushBridge.kt:76-88 | a completion always finds a positive count |
| `Consent.NextKeeps` | android/app/src/main/kotlin/com/hermesagent/hermes_android/MobilePushBridge.kt:48-254 | every command keeps the counts and gates |
| `Bridge.MobilePushBridge.AttachEngine` | android/app/src/main/kotlin/com/hermesagent/hermes_android/MobilePushBridge.kt:48-51 | a new engine |
| `Bridge.MobilePushBridge.DetachEngine` | android/app/src/main/kotlin/com/hermesagent/hermes_android/MobilePushBridge.kt:53-64 | marks the engine dead, drops its tickets and, if nothing is outstanding, its gates |
| `Bridge.MobilePushBridge.ReleaseOrphan` | android/app/src/main/kotlin/com/hermesagent/hermes_android/MobilePushBridge.kt:65-70 | lifts a dead engine's gates once nothing is outstanding |
| `Bridge.MobilePushBridge.BeginStorage` | android/app/src/main/kotlin/com/hermesagent/hermes_android/MobilePushBridge.kt:73-91 | refused for a dead engine and while anything is draining; otherwise counted |
| `Bridge.MobilePushBridge.Complete` | android/app/src/main/kotlin/com/hermesagent/hermes_android/MobilePushBridge.kt:80-89 | takes effect once however often it is reported |
| `Bridge.MobilePushBridge.ConnectionFence` | android/app/src/main/kotlin/com/hermesagent/hermes_android/MobilePushBridge.kt:173-179 | the ticket of that engine, or none while storage or a change is pending |
| `Bridge.MobilePushBridge.BeginConnectionChange` | android/app/src/main/kotlin/com/hermesagent/hermes_android/MobilePushBridge.kt:180-194 | gates all named connections at once and withdraws consent that concerns them |
| `Bridge.MobilePushBridge.EndConnectionChange` | android/app/src/main/kotlin/com/hermesagent/hermes_android/MobilePushBridge.kt:195-202 | lifts only the engine's own gate and only when its storage is done |
| `Bridge.MobilePushBridge.ConnectionIsChanged` | android/app/src/main/kotlin/com/hermesagent/hermes_android/MobilePushBridge.kt:203-209 | drops the ticket and withdraws consent for that connection |
| `Bridge.MobilePushBridge.EnablePush` | android/app/src/main/kotlin/com/hermesagent/hermes_android/MobilePushBridge.kt:211-249 | grants consent, consumes the ticket, or refuses, as specified |
| `Bridge.MobilePushBridge.DisablePush` | android/app/src/main/kotlin/com/hermesagent/hermes_android/MobilePushBridge.kt:250-267 | withdraws consent and tickets |
| `Bridge.MobilePushBridge.BeforeMetadataWrite` | android/app/src/main/kotlin/com/hermesagent/hermes_android/MobilePushBridge.kt:124-136 | clears all tickets and withdraws consent whose saved account changes |
| `Bridge.MobilePushBridge.Snapshot` | android/app/src/main/kotlin/com/hermesagent/hermes_android/MobilePushBridge.kt:162-172 | upgrades a state sealed before fencing |
| `Bridge.MobilePushBridge.RecoverRegistration` | android/app/src/main/kotlin/com/hermesagent/hermes_android/MobilePushBridge.kt:289-302 | a new nonce and revision for the same consent |
| `Bridge.MobilePushBridge.BeginRegistration` | android/app/src/main/kotlin/com/hermesagent/hermes_android/MobilePushBridge.kt:303-309 | write-ahead of the one request for this nonce |
| `Bridge.MobilePushBridge.BeginConfirmation` | android/app/src/main/kotlin/com/hermesagent/hermes_android/MobilePushBridge.kt:310-313 | write-ahead of a confirmation |
| `Bridge.MobilePushBridge.TakeGeneration` | android/app/src/main/kotlin/com/hermesagent/hermes_android/MobilePushBridge.kt:318-325 | takes a generation for the present authority only |
| `Bridge.MobilePushBridge.Activate` | android/app/src/main/kotlin/com/hermesagent/hermes_android/MobilePushBridge.kt:326-331 | activates the present generation only |
| `Bridge.MobilePushBridge.NewEndpoint` | android/app/src/main/kotlin/com/hermesagent/hermes_android/MobilePushBridge.kt:354-366 | a changed endpoint renews the authority; the same one changes nothing |
| `Bridge.MobilePushBridge.PushFailed` | android/app/src/main/kotlin/com/hermesagent/hermes_android/MobilePushBridge.kt:368-377 | a failed transport renews the authority and drops the endpoint |
| `Bridge.MobilePushBridge.AckRevoked` | android/app/src/main/kotlin/com/hermesagent/hermes_android/MobilePushBridge.kt:274-284 | forgets exactly the acknowledged revocation |
| `Bridge.MobilePushBridge.ReceivePush` | android/app/src/main/kotlin/com/hermesagent/hermes_android/MobilePushBridge.kt:379-425 | holds a challenge or remembers an event before it is shown |
| `Bridge.MobilePushBridge.KeepUnexpired` | android/app/src/main/kotlin/com/hermesagent/hermes_android/MobilePushBridge.kt:389-394 | the loop over held challenges |
| `Bridge.MobilePushBridge.CaptureTap` | android/app/src/main/kotlin/com/hermesagent/hermes_android/MobilePushBridge.kt:427-439 | keeps a tap that is valid and was issued |
| `Bridge.MobilePushBridge.TakeTap` | android/app/src/main/kotlin/com/hermesagent/hermes_android/MobilePushBridge.kt:333-338 | hands out a tap at most once and only if still valid |
| `LedgerRuns.DecimalInjective` | tools/fake_gateway/turn_recovery_contract.py:529-531 | rendered counters are distinct |
| `LedgerRuns.KeyInjective` | tools/fake_gateway/turn_recovery_contract.py:615-615 | a composite key determines its parts |
| `LedgerRuns.NextKeeps` | tools/fake_gateway/turn_recovery_contract.py:481-976 | every handler step, abandoned handler, restart and crash keeps the ledger invariant |
| `LedgerRuns.OpenKeeps` | tools/fake_gateway/turn_recovery_contract.py:522-548 | opening a session keeps the ledger invariant |
| `LedgerRuns.SubmitKeeps` | tools/fake_gateway/turn_recovery_contract.py:616-659 | submitting keeps the ledger invariant |
| `LedgerRuns.StepKeeps` | tools/fake_gateway/turn_recovery_contract.py:749-766 | one stretch of a finishing handler keeps the ledger invariant |
| `LedgerRuns.InterruptKeeps` | tools/fake_gateway/turn_recovery_contract.py:907-910 | interrupting keeps the ledger invariant |
| `LedgerRuns.PruneKeeps` | tools/fake_gateway/turn_recovery_contract.py:954-956 | pruning keeps the ledger invariant |
| `LedgerRuns.CrashKeeps` | tools/fake_gateway/turn_recovery_contract.py:159-175 | a crash and reload keep the ledger invariant |
| `LedgerHistory.ReloadsAreAccepted` | tools/fake_gateway/turn_recovery_contract.py:329-471 | every ledger reachable by interleaved handlers with crashes and reloads anywhere passes the validator |
| `LedgerHistory.CreatingNeedsAnUnusedName` | tools/fake_gateway/turn_recovery_contract.py:393-471 | a ledger the validator accepts stays acceptable when a turn is created if and only if the next turn name is unused, which the validator does not check |
| `LedgerHistory.AcceptableButDoomed` | tools/fake_gateway/turn_recovery_contract.py:470-471 | such a ledger exists |
| `LedgerHistory.AppendingNeedsTidiness` | tools/fake_gateway/turn_recovery_contract.py:444-459 | an acceptable turn stays acceptable when an event is appended if and only if it has events or nothing to retain |
| `LedgerHistory.AcceptableReplayCanStall` | tools/fake_gateway/turn_recovery_contract.py:857-873 | exactly which acceptable turns make a replay report more without advancing |
| `LedgerHistory.AcceptableButStalled` | tools/fake_gateway/turn_recovery_contract.py:857-873 | a whole ledger that the validator accepts, with a turn whose replay says there is more and stays where it is |
| `LedgerHistory.IntentIsExecutedOnce` | tools/fake_gateway/turn_recovery_contract.py:613-659 | after an acknowledgement every later submission of that client turn from that mobile session gets the same turn, or a conflict if its digest differs, and changes only the attempt counter |
| `LedgerHistory.ExecutionsAreTurns` | tools/fake_gateway/turn_recovery_contract.py:616-659 | executions equal turns, are at most the submissions, and there is one turn per session and client turn |
| `LedgerReplay.LogIsKept` | tools/fake_gateway/turn_recovery_contract.py:692-707 | a turn retains a suffix of everything ever appended to it, numbered from one without gaps |
| `LedgerReplay.PageIsPieceOfLog` | tools/fake_gateway/turn_recovery_contract.py:834-875 | a page is the piece of the log after the position; a position before what is retained gets a snapshot or the pruned error, never a page |
| `LedgerReplay.ReplayIsComplete` | tools/fake_gateway/turn_recovery_contract.py:834-875 | paging through a turn that stands still ends and yields exactly the rest of the log |
| `LedgerReplay.ReadingIsContiguous` | tools/fake_gateway/turn_recovery_contract.py:834-875 | with appends, prunes, crashes and reloads between the requests, what was read is one contiguous piece of the log; a start beyond the end reads nothing until the log has grown past it |
| `LedgerTerminal.TerminalChangesExactly` | tools/fake_gateway/turn_recovery_contract.py:747-758 | a terminal status changes at exactly one kind of step: the last stretch of a handler under way when the turn was interrupted |
| `LedgerTerminal.OverForGood` | tools/fake_gateway/turn_recovery_contract.py:709-766 | a turn that is over stays so over every continuation if and only if no handler is under way on it |
| `LedgerTerminal.InterruptIsOverwritten` | tools/fake_gateway/turn_recovery_contract.py:747-758 | the overwrite does happen |
| `LedgerStore.TurnRecoveryLedger.SessionOpen` | tools/fake_gateway/turn_recovery_contract.py:481-564 | binds once per mobile session, and the runtime it returns is scoped to that session |
| `LedgerStore.TurnRecoveryLedger.PromptSubmit` | tools/fake_gateway/turn_recovery_contract.py:576-678 | acknowledges, refuses or creates as specified, saving before it waits |
| `LedgerStore.TurnRecoveryLedger.ResumeHandler` | tools/fake_gateway/turn_recovery_contract.py:709-766 | one stretch of finishing a turn |
| `LedgerStore.TurnRecoveryLedger.FindTurn` | tools/fake_gateway/turn_recovery_contract.py:792-812 | the turn a request means, within its own session |
| `LedgerStore.TurnRecoveryLedger.InterruptTurn` | tools/fake_gateway/turn_recovery_contract.py:893-921 | ends in a terminal status |
| `LedgerStore.TurnRecoveryLedger.PruneTurn` | tools/fake_gateway/turn_recovery_contract.py:940-965 | forgets the events and keeps the numbering |
| `LedgerStore.TurnRecoveryLedger.ReconcileTurn` | tools/fake_gateway/turn_recovery_contract.py:814-875 | the loop over the events computes the specified replay |
| `LedgerStore.TurnRecoveryLedger.DetachConnection` | tools/fake_gateway/turn_recovery_contract.py:259-263 | forgets the connection |
| `LedgerStore.TurnRecoveryLedger.RestartRuntimes` | tools/fake_gateway/turn_recovery_contract.py:967-976 | forgets runtimes and keeps the durable part |
| `LedgerStore.TurnRecoveryLedger.Save` | tools/fake_gateway/turn_recovery_contract.py:473-479 | memory and disk agree |
| `LedgerStore.Validate` | tools/fake_gateway/turn_recovery_contract.py:329-471 | the checks in their order decide exactly acceptability |
| `LedgerStore.ValidateBindings` | tools/fake_gateway/turn_recovery_contract.py:354-375 | decides exactly that bindings are well formed with distinct sessions |
| `LedgerStore.ValidateTurns` | tools/fake_gateway/turn_recovery_contract.py:393-469 | decides exactly that turns are well formed, indexed and counted |
| `LedgerStore.ValidateEvents` | tools/fake_gateway/turn_recovery_contract.py:444-459 | decides exactly that the events are gap-free up to the last sequence number |
| `LedgerStore.Reload` | tools/fake_gateway/turn_recovery_contract.py:304-327 | the validator accepts what the old process left and the new one starts on it |
| `LedgerHistory.RunLater` | tools/fake_gateway/turn_recovery_contract.py:522-659 | over any run sessions stay bound, turns keep their identity and intent, the index keeps its entries, and positions only grow |
| `LedgerRuns.RunKeeps` | tools/fake_gateway/turn_recovery_contract.py:481-976 | the ledger invariant holds after any run |
| `LedgerReplay.LogOnlyGrows` | tools/fake_gateway/turn_recovery_contract.py:692-707 | what was logged stays logged |
| `LedgerTerminal.StaysOver` | tools/fake_gateway/turn_recovery_contract.py:709-766 | without a handler under way a turn that is over stays so |
| `LedgerTerminal.OverwrittenBy` | tools/fake_gateway/turn_recovery_contract.py:749-766 | a handler under way can go on until it has overwritten the status |
| `Recognizer.EndsOnce` | android/app/src/main/kotlin/com/hermesagent/hermes_android/JoinableSpeechRecognizer.kt:145-164 | for any callbacks the outcome is reported once, the platform recognizer is destroyed once, at most one result is final and it is the last event, and a failure comes exactly with a deadline or an error |
| `Recognizer.NothingAfterTheEnd` | android/app/src/main/kotlin/com/hermesagent/hermes_android/JoinableSpeechRecognizer.kt:81-136 | after the end no call has any effect |
| `Recognizer.TimerIsPending` | android/app/src/main/kotlin/com/hermesagent/hermes_android/JoinableSpeechRecognizer.kt:35-111 | a recognizer that has not ended has a pending timer, for every sequence of callbacks |
| `Recognizer.EndsByTheDeadline` | android/app/src/main/kotlin/com/hermesagent/hermes_android/JoinableSpeechRecognizer.kt:81-143 | with timers on time it ends within the readiness wait, the wait for speech, one listening period and the final grace |
| `Recognizer.DeadlineIsTight` | android/app/src/main/kotlin/com/hermesagent/hermes_android/JoinableSpeechRecognizer.kt:81-143 | for every valid request some run takes exactly that long |
| `Recognizer.JoinableSpeechRecognizer.StartListening` | android/app/src/main/kotlin/com/hermesagent/hermes_android/JoinableSpeechRecognizer.kt:35-50 | starts, or ends with the failure that the platform raised |
| `Recognizer.JoinableSpeechRecognizer.FinishUtterance` | android/app/src/main/kotlin/com/hermesagent/hermes_android/JoinableSpeechRecognizer.kt:65-74 | begins the final grace, once |
| `Recognizer.JoinableSpeechRecognizer.CancelUtterance` | android/app/src/main/kotlin/com/hermesagent/hermes_android/JoinableSpeechRecognizer.kt:76-79 | ends as canceled |
| `Recognizer.JoinableSpeechRecognizer.OnReadyForSpeech` | android/app/src/main/kotlin/com/hermesagent/hermes_android/JoinableSpeechRecognizer.kt:81-94 | replaces the readiness timer by the listening timers |
| `Recognizer.JoinableSpeechRecognizer.OnBeginningOfSpeech` | android/app/src/main/kotlin/com/hermesagent/hermes_android/JoinableSpeechRecognizer.kt:96-103 | restarts the listening period |
| `Recognizer.JoinableSpeechRecognizer.OnEndOfSpeech` | android/app/src/main/kotlin/com/hermesagent/hermes_android/JoinableSpeechRecognizer.kt:105-111 | begins the final grace |
| `Recognizer.JoinableSpeechRecognizer.OnPartialResults` | android/app/src/main/kotlin/com/hermesagent/hermes_android/JoinableSpeechRecognizer.kt:113-117 | a result that is not final |
| `Recognizer.JoinableSpeechRecognizer.OnResults` | android/app/src/main/kotlin/com/hermesagent/hermes_android/JoinableSpeechRecognizer.kt:119-126 | the only final result |
| `Recognizer.JoinableSpeechRecognizer.OnError` | android/app/src/main/kotlin/com/hermesagent/hermes_android/JoinableSpeechRecognizer.kt:128-136 | ends with the reason and the failure that belong to that platform error |
| `Recognizer.JoinableSpeechRecognizer.End` | android/app/src/main/kotlin/com/hermesagent/hermes_android/JoinableSpeechRecognizer.kt:145-164 | the only exit |
| `Recognizer.JoinableSpeechRecognizer.Fire` | android/app/src/main/kotlin/com/hermesagent/hermes_android/JoinableSpeechRecognizer.kt:41-43 | what each timer was set up to do |
| `VoiceHistory.OneCapture` | android/app/src/main/kotlin/com/hermesagent/hermes_android/VoiceProtocol.kt:49-53 | across any engines at most one capture exists, and an engine has one exactly when it holds the lease |
| `VoiceHistory.CompletionsAreCalledOnce` | android/app/src/main/kotlin/com/hermesagent/hermes_android/HandsFreeVoiceEngine.kt:210-219 | every start completion and waiter is called back once: it was, or the present capture owes it, never both |
| `VoiceHistory.HiddenCapturesAreCancelled` | android/app/src/main/kotlin/com/hermesagent/hermes_android/HandsFreeVoiceEngine.kt:48-65 | while an engine is hidden or closed any capture it has was told to cancel |
| `VoiceHistory.EventsAreNumbered` | android/app/src/main/kotlin/com/hermesagent/hermes_android/HandsFreeVoiceEngine.kt:221-245 | the events of a session are numbered from one and its `stopped` comes at most once |
| `VoiceStop.StoppedSessionsAreSilent` | android/app/src/main/kotlin/com/hermesagent/hermes_android/HandsFreeVoiceEngine.kt:146-168 | after a stop the session says `stopped` at most once and nothing else |
| `VoiceStop.NoStartAfterStop` | android/app/src/main/kotlin/com/hermesagent/hermes_android/HandsFreeVoiceEngine.kt:230-232 | no capture of that owner with that generation or an older one ever starts again; the request is answered at once with a failure |
| `VoiceStop.StopReaches` | android/app/src/main/kotlin/com/hermesagent/hermes_android/HandsFreeVoiceEngine.kt:146-168 | exactly what one stop reaches: a wake capture of that very session is told to cancel, a speech capture of it ends within the call, any other is left as it is; but every capture of the owner up to that generation is silenced |
| `VoiceStop.OlderCaptureIsLeftRunning` | android/app/src/main/kotlin/com/hermesagent/hermes_android/HandsFreeVoiceEngine.kt:146-168 | a run, for captures of either kind, in which stopping the next generation leaves an older capture that could speak running, holding the microphone, not told to cancel and silent |
| `VoiceRuns.NextKeeps` | android/app/src/main/kotlin/com/hermesagent/hermes_android/HandsFreeVoiceEngine.kt:48-236 | every call keeps an engine and the lease in order |
| `VoiceRuns.EndedKeeps` | android/app/src/main/kotlin/com/hermesagent/hermes_android/HandsFreeVoiceEngine.kt:170-196 | the end of a capture releases the lease and calls back all it owed |
| `VoiceRuns.ClaimKeeps` | android/app/src/main/kotlin/com/hermesagent/hermes_android/HandsFreeVoiceEngine.kt:97-120 | a claim takes the lease only when it is free and records what it owes |
| `VoiceRuns.StopKeeps` | android/app/src/main/kotlin/com/hermesagent/hermes_android/HandsFreeVoiceEngine.kt:146-168 | a stop revokes for good and tells its own capture |
| `VoiceStop.RunIsLater` | android/app/src/main/kotlin/com/hermesagent/hermes_android/HandsFreeVoiceEngine.kt:230-246 | over any run revocations and marks only grow and a revoked session logs nothing but `stopped` |
| `VoiceHistory.StepKeeps` | android/app/src/main/kotlin/com/hermesagent/hermes_android/VoiceProtocol.kt:48-53 | one engine's call leaves the others and the lease in order |
| `VoiceObjects.NativeVoiceLease.Acquire` | android/app/src/main/kotlin/com/hermesagent/hermes_android/VoiceProtocol.kt:51-51 | compare-and-set from free |
| `VoiceObjects.NativeVoiceLease.Release` | android/app/src/main/kotlin/com/hermesagent/hermes_android/VoiceProtocol.kt:52-52 | only the holder releases |
| `VoiceObjects.HandsFreeVoiceEngine.ClaimCapture` | android/app/src/main/kotlin/com/hermesagent/hermes_android/HandsFreeVoiceEngine.kt:97-120 | claims or refuses with the code that applies |
| `VoiceObjects.HandsFreeVoiceEngine.StopSession` | android/app/src/main/kotlin/com/hermesagent/hermes_android/HandsFreeVoiceEngine.kt:146-168 | stops a session |
| `VoiceObjects.HandsFreeVoiceEngine.RevokeAll` | android/app/src/main/kotlin/com/hermesagent/hermes_android/HandsFreeVoiceEngine.kt:63-65 | stops every session that is not revoked |
| `VoiceObjects.HandsFreeVoiceEngine.ChangeForeground` | android/app/src/main/kotlin/com/hermesagent/hermes_android/HandsFreeVoiceEngine.kt:48-52 | hiding the app tells any capture to cancel |
| `VoiceObjects.HandsFreeVoiceEngine.CloseEngine` | android/app/src/main/kotlin/com/hermesagent/hermes_android/HandsFreeVoiceEngine.kt:54-61 | closing tells any capture to cancel, and shuts the joining thread down once no capture is held |
| `VoiceObjects.HandsFreeVoiceEngine.AwaitRecognition` | android/app/src/main/kotlin/com/hermesagent/hermes_android/HandsFreeVoiceEngine.kt:122-144 | finishes or cancels only the recognition that is named |
| `VoiceObjects.HandsFreeVoiceEngine.CaptureEnded` | android/app/src/main/kotlin/com/hermesagent/hermes_android/HandsFreeVoiceEngine.kt:170-196 | release, start completion, report, stop and waiters in that order; the joining thread of a closed engine is shut down |
| `VoiceObjects.HandsFreeVoiceEngine.OnCaptureEnded` | android/app/src/main/kotlin/com/hermesagent/hermes_android/HandsFreeVoiceEngine.kt:170-196 | the native side reports that it is done |
| `VoiceObjects.HandsFreeVoiceEngine.OnWakeArmed` | android/app/src/main/kotlin/com/hermesagent/hermes_android/HandsFreeVoiceEngine.kt:71-75 | only an eligible capture reports that it is armed |
| `VoiceObjects.HandsFreeVoiceEngine.OnRecognitionStarted` | android/app/src/main/kotlin/com/hermesagent/hermes_android/HandsFreeVoiceEngine.kt:93-94 | the start completion, if still owed |
| `VoiceObjects.HandsFreeVoiceEngine.OnRecognizerEvent` | android/app/src/main/kotlin/com/hermesagent/hermes_android/HandsFreeVoiceEngine.kt:87-89 | only an eligible capture passes events on |
| `VoiceObjects.HandsFreeVoiceEngine.SettleCapture` | android/app/src/main/kotlin/com/hermesagent/hermes_android/HandsFreeVoiceEngine.kt:216-219 | the waiters in order |
| `VoiceObjects.HandsFreeVoiceEngine.MarkStopped` | android/app/src/main/kotlin/com/hermesagent/hermes_android/HandsFreeVoiceEngine.kt:221-225 | `stopped` once per session |
| `VoiceObjects.HandsFreeVoiceEngine.RevokeSession` | android/app/src/main/kotlin/com/hermesagent/hermes_android/HandsFreeVoiceEngine.kt:149-151 | the tombstone of a session |

## Left out

- Web Push encryption, VAPID, DNS checks and TLS: library and network code; a send is a status code.
- SQL text, JSON encoding, AES-GCM sealing, file modes: tables are maps and sealed state is a value.
- FastAPI, Flutter, Android and UnifiedPush plumbing, notifications, permission dialogs, wake-word audio: foreign calls whose answers are parameters.
- Other gateway fixtures and the capture scripts: scripted input and output.
- Release, licence and documentation checkers: finite checks of strings and files.
- Looper and operating-system delay: timers fire on time in the deadline results, and only there.
- PushDrain.CrashyDrainIsClean: is only sufficient; it assumes one policy and durable set throughout, replays before the entry expires, and count caps that cut nothing. The exact conditions are in PushReplay and PushCrash.
- PushDrain.AttemptsCollapse: the same for one entry.
- PushDrain.RecordIsRecorded: the same for one pass.
- PushCrash.CrashesNeverShow: compares with the clean drain for replays at the same time or after expiry, because a later replay renews how long a request is remembered; for later replays PushReplay.ReplaysPushNothing says when events and jobs stay alone. Both keep one policy, and let no client request fall between the attempts.
- PushReplay.ReplaysPushNothing: starts from a first pass that recorded; after one that stopped on a remembered resolution, the next attempt is the first.
- PushRuntime.CrashRunIsDrain: takes entries of durable sessions; the others are removed without being recorded.
- PushStore.Store.Events: reads durability as a set rather than asking session by session, and leaves out the fields of a row that only decorate the answer.
- Agreement.ActiveMeansConfirmed: has one server and one phone; a second server would be a second world, and the relay's own checks of the answer's shape are taken as made.
- LedgerReplay.ReadingIsContiguous: covers reconcile; the live push of events to subscribers is not part of this model.
- LedgerStore.Validate: takes the JSON as already decoded to the record types, so the checks for missing or mistyped fields are not stated.
- LedgerStore.TurnRecoveryLedger.PromptSubmit: takes the schema and size limits of a prompt as one flag.
- LedgerStore.TurnRecoveryLedger.SessionOpen: takes the forbidden fields and the profile selector of an open request as one flag.
- Bridge.MobilePushBridge.EnablePush: takes the comparison with the saved account, the permission and the distributor as flags.
- Bridge.MobilePushBridge.BeforeMetadataWrite: takes the comparison of the saved account rows as a flag.
- Bridge.MobilePushBridge.Snapshot: leaves out persisting the default session scope.
