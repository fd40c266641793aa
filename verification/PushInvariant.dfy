/** What every transaction keeps, and so what holds in every reachable store. */
module PushInvariant {
  import opened Basics
  import opened PushTypes
  import opened PushModel

  /** The unique index and the events table agree, and cursors are never reused. */
  ghost predicate IndexOk(db: Db) {
    && (forall k :: k in db.index ==> db.index[k] in db.events && db.events[db.index[k]].key == k)
    && (forall c :: c in db.events ==> db.events[c].key in db.index && db.index[db.events[c].key] == c && c < db.nextCursor)
  }

  ghost predicate RowOk(db: Db, i: Installation)
    requires i in db.registrations
  {
    var row := db.registrations[i];
    && row.generation >= 1
    && (row.status == Pending || row.status == Active ==>
          row.revision >= 1 && SessionScope.FromRegistration(row.scope) == Some(row.scope))
    && (row.nonce != "" ==> (i, row.nonce) in db.nonces)
  }

  ghost predicate RowsOk(db: Db) {
    forall i :: i in db.registrations ==> RowOk(db, i)
  }

  /** A challenge names a generation its installation has reached. */
  ghost predicate ChallengeOk(db: Db, c: nat)
    requires c in db.events
  {
    var source := db.events[c].key.source;
    source.ChallengeFor? ==>
      source.installation in db.registrations && source.generation <= db.registrations[source.installation].generation
  }

  ghost predicate ChallengesOk(db: Db) {
    forall c :: c in db.events ==> ChallengeOk(db, c)
  }

  /** A job belongs to its registration's current generation and to work that generation may do. */
  ghost predicate JobOk(db: Db, k: JobKey) {
    && k.event in db.events && k.installation in db.registrations
    && var row, event := db.registrations[k.installation], db.events[k.event];
       && row.generation == k.generation && event.key.owner == row.owner
       && (row.status == Pending || row.status == Active)
       && (row.status == Pending <==> event.key.source == ChallengeFor(k.installation, k.generation))
       && (row.status == Active <==> event.key.source.FromHook?)
  }

  ghost predicate JobsOk(db: Db) {
    forall k :: k in db.outbox ==> JobOk(db, k)
  }

  ghost predicate LeasesOk(db: Db) {
    && (forall k :: k in db.outbox ==> db.outbox[k].id < db.nextJob)
    && (forall k :: k in db.outbox && db.outbox[k].lease.Some? ==> db.outbox[k].lease.value < db.nextToken)
    && (forall j, k :: j in db.outbox && k in db.outbox && db.outbox[j].id == db.outbox[k].id ==> j == k)
    && (forall j, k :: j in db.outbox && k in db.outbox && db.outbox[j].lease.Some? && db.outbox[j].lease == db.outbox[k].lease ==> j == k)
  }

  ghost predicate StoreOk(db: Db) {
    IndexOk(db) && RowsOk(db) && ChallengesOk(db) && JobsOk(db) && LeasesOk(db)
  }

  lemma StoreIndexOk(db: Db)
    requires StoreOk(db)
    ensures IndexOk(db)
  {
  }

  // ---- Pieces ----

  lemma PruneKeeps(db: Db, policy: Policy, now: int)
    requires StoreOk(db)
    ensures StoreOk(Prune(db, policy, now))
  {
    PruneKeepsIndex(db, policy, now);
    hide IndexOk, DeleteAllButNewestAttention, DeleteExpiredAttention;
  }

  lemma PruneKeepsIndex(db: Db, policy: Policy, now: int)
    requires IndexOk(db)
    ensures IndexOk(Prune(db, policy, now))
  {
    hide DeleteAllButNewestAttention, DeleteExpiredAttention;
  }

  lemma WipeKeeps(db: Db, i: Installation)
    requires StoreOk(db)
    ensures StoreOk(WipeInstallation(db, i))
    ensures forall k :: k in WipeInstallation(db, i).outbox ==> k.installation != i
  {
  }

  lemma InsertKeeps(db: Db, key: EventKey, now: int, expires: int)
    requires StoreOk(db)
    requires key.source.ChallengeFor? ==>
               key.source.installation in db.registrations && key.source.generation <= db.registrations[key.source.installation].generation
    ensures var (db', c) := InsertEvent(db, key, now, expires);
            StoreOk(db') && c in db'.events && db'.events[c].key == key
  {
    InsertKeepsIndex(db, key, now, expires);
    InsertKeepsJobs(db, key, now, expires);
    hide IndexOk, JobsOk, InsertEvent;
    InsertLeavesRest(db, key, now, expires);
  }

  lemma InsertKeepsIndex(db: Db, key: EventKey, now: int, expires: int)
    requires IndexOk(db)
    ensures var (db', c) := InsertEvent(db, key, now, expires); IndexOk(db') && c in db'.events && db'.events[c].key == key
  {
  }

  lemma InsertKeepsJobs(db: Db, key: EventKey, now: int, expires: int)
    requires IndexOk(db) && JobsOk(db)
    ensures JobsOk(InsertEvent(db, key, now, expires).0)
  {
  }

  lemma InsertLeavesRest(db: Db, key: EventKey, now: int, expires: int)
    requires RowsOk(db) && ChallengesOk(db) && LeasesOk(db)
    requires key.source.ChallengeFor? ==>
               key.source.installation in db.registrations && key.source.generation <= db.registrations[key.source.installation].generation
    ensures var db' := InsertEvent(db, key, now, expires).0; RowsOk(db') && ChallengesOk(db') && LeasesOk(db')
  {
  }

  lemma QueueKeeps(db: Db, key: JobKey, hint: Hint, now: int)
    requires StoreOk(db) && JobOk(db, key)
    ensures StoreOk(QueueJob(db, key, hint, now))
  {
    QueueKeepsLeases(db, key, hint, now);
    hide LeasesOk;
  }

  lemma QueueKeepsLeases(db: Db, key: JobKey, hint: Hint, now: int)
    requires LeasesOk(db)
    ensures LeasesOk(QueueJob(db, key, hint, now))
  {
  }

  /** Fewer jobs, and leases at most given up: nothing else about a store can break. */
  ghost predicate OutboxShrinks(db: Db, outbox: map<JobKey, Job>) {
    forall k :: k in outbox ==>
      k in db.outbox && outbox[k].id == db.outbox[k].id && (outbox[k].lease == db.outbox[k].lease || outbox[k].lease == None)
  }

  lemma ShrinkKeeps(db: Db, outbox: map<JobKey, Job>)
    requires StoreOk(db) && OutboxShrinks(db, outbox)
    ensures StoreOk(db.(outbox := outbox))
  {
  }

  lemma CancelKeeps(db: Db, sessionId: string, request: Option<string>)
    requires StoreOk(db)
    ensures StoreOk(CancelAttention(db, sessionId, request))
  {
  }

  // ---- Transactions ----

  lemma QueueChallengeKeeps(db: Db, p: Principal, i: Installation, nonce: string, challenge: string, now: int, expires: int)
    requires StoreOk(db) && i in db.registrations && db.registrations[i].owner == p && db.registrations[i].status == Pending
    ensures StoreOk(QueueChallenge(db, p, i, db.registrations[i].generation, nonce, challenge, now, expires))
  {
    var generation := db.registrations[i].generation;
    var key := EventKey(p, ChallengeFor(i, generation));
    InsertKeeps(db, key, now, expires);
    var (inserted, cursor) := InsertEvent(db, key, now, expires);
    QueueKeeps(inserted, JobKey(cursor, i, generation), Hint(cursor, Challenge, generation, nonce, expires, Some(challenge)), now);
  }

  lemma PutAcceptedKeeps(db: Db, p: Principal, i: Installation, body: Body, policy: Policy, now: int, challenge: string)
    requires StoreOk(db) && PutRefusal(db, p, i, body, policy).None?
    ensures StoreOk(PutAccepted(db, p, i, body, policy, now, challenge))
  {
    hide StoreOk, QueueChallenge;
    var expires := now + policy.challengeTtl;
    WriteKeeps(db, p, i, body, challenge, expires);
    QueueChallengeKeeps(WriteRegistration(db, p, i, body, challenge, expires), p, i, body.nonce, challenge, now, expires);
  }

  lemma PutKeeps(db: Db, p: Principal, i: Installation, body: Body, policy: Policy, now: int, challenge: string)
    requires StoreOk(db)
    ensures StoreOk(Put(db, p, i, body, policy, now, challenge).0)
  {
    if PutRefusal(db, p, i, body, policy).None? {
      PutAcceptedKeeps(db, p, i, body, policy, now, challenge);
      PruneKeeps(PutAccepted(db, p, i, body, policy, now, challenge), policy, now);
    }
  }

  lemma WriteKeeps(db: Db, p: Principal, i: Installation, body: Body, challenge: string, expires: int)
    requires StoreOk(db) && 1 <= body.revision && PutScope(body).Some?
    ensures StoreOk(WriteRegistration(db, p, i, body, challenge, expires))
  {
    WipeKeeps(db, i);
    WrittenKeeps(WipeInstallation(db, i), p, i, NextGeneration(db, i), body, challenge, expires);
  }

  lemma WrittenKeeps(wiped: Db, p: Principal, i: Installation, generation: nat, body: Body, challenge: string, expires: int)
    requires StoreOk(wiped) && (forall k :: k in wiped.outbox ==> k.installation != i) && 1 <= body.revision && PutScope(body).Some?
    requires generation == NextGeneration(wiped, i)
    ensures StoreOk(wiped.(
        registrations := wiped.registrations[i := PendingRow(p, generation, body, PutScope(body).value, challenge, expires)],
        nonces := wiped.nonces + {(i, body.nonce)}))
  {
    assert SessionScope.FromBody(body.mode, body.sessionIds) == Some(PutScope(body).value);
    ScopeReloads(PutScope(body).value);
  }

  lemma ConfirmKeeps(db: Db, p: Principal, i: Installation, generation: nat, challenge: string, policy: Policy, durable: set<string>, now: int)
    requires StoreOk(db)
    ensures StoreOk(Confirm(db, p, i, generation, challenge, policy, durable, now).0)
  {
  }

  lemma RevokeInKeeps(db: Db, i: Installation)
    requires StoreOk(db) && i in db.registrations
    ensures StoreOk(RevokeIn(db, i))
  {
    WipeKeeps(db, i);
    RetireKeeps(WipeInstallation(db, i), i);
    var row := RevokedRow(db.registrations[i]);
    assert RevokeIn(db, i) == WipeInstallation(db, i).(registrations := db.registrations[i := row]);
  }

  lemma RetireKeeps(db: Db, i: Installation)
    requires StoreOk(db) && i in db.registrations && forall k :: k in db.outbox ==> k.installation != i
    ensures StoreOk(db.(registrations := db.registrations[i := RevokedRow(db.registrations[i])]))
  {
  }

  lemma RevokeKeeps(db: Db, p: Principal, i: Installation, policy: Option<Policy>)
    requires StoreOk(db)
    ensures StoreOk(Revoke(db, p, i, policy).0)
  {
    hide RevokeIn, StoreOk;
    if i in db.registrations {
      RevokeInKeeps(db, i);
    } else {
      BuryKeeps(db, p, i);
    }
  }

  lemma BuryKeeps(db: Db, p: Principal, i: Installation)
    requires StoreOk(db) && i !in db.registrations
    ensures StoreOk(db.(registrations := db.registrations[i := Tombstone(p)]))
  {
  }

  lemma NoteKeeps(db: Db, hook: Hook, policy: Policy, now: int)
    requires StoreOk(db)
    ensures StoreOk(Note(db, hook, policy, now))
  {
    if hook.HasRequest() {
      NoteRequestKeeps(db, hook, policy, now);
    } else {
      NoteTurnEndKeeps(db, hook.sessionId);
    }
  }

  lemma UpsertKeeps(db: Db, a: AttentionKey, resolved: bool, expires: int)
    requires StoreOk(db)
    ensures StoreOk(UpsertAttention(db, a, resolved, expires))
  {
    AttentionKeeps(db, UpsertAttention(db, a, resolved, expires));
  }

  lemma NoteRequestKeeps(db: Db, hook: Hook, policy: Policy, now: int)
    requires StoreOk(db)
    ensures StoreOk(NoteRequest(db, hook, policy, now))
  {
    hide StoreOk, UpsertAttention, CancelAttention;
    var a := AttentionKey(hook.sessionId, hook.reference);
    var expires := now + policy.ttl * 2;
    UpsertKeeps(db, a, hook.kind == InputResolved, expires);
    CancelKeeps(UpsertAttention(db, a, hook.kind == InputResolved, expires), hook.sessionId, Some(hook.reference));
  }

  lemma NoteTurnEndKeeps(db: Db, sessionId: string)
    requires StoreOk(db)
    ensures StoreOk(NoteTurnEnd(db, sessionId))
  {
    CancelKeeps(db, sessionId, None);
    AttentionKeeps(CancelAttention(db, sessionId, None), NoteTurnEnd(db, sessionId));
  }

  lemma AttentionKeeps(db: Db, db': Db)
    requires StoreOk(db) && db' == db.(attention := db'.attention, nextAttention := db'.nextAttention)
    ensures StoreOk(db')
  {
  }

  lemma RecordForKeeps(db: Db, i: Installation, hook: Hook, targets: Option<map<Installation, nat>>, policy: Policy, now: int, expires: int)
    requires StoreOk(db)
    ensures StoreOk(RecordFor(db, i, hook, targets, policy, now, expires))
  {
    if Queues(db, i, hook, targets, policy) {
      var row := db.registrations[i];
      var key := EventKey(row.owner, FromHook(hook));
      InsertKeeps(db, key, now, expires);
      var (inserted, cursor) := InsertEvent(db, key, now, expires);
      QueueKeeps(inserted, JobKey(cursor, i, row.generation), Hint(cursor, hook.kind, row.generation, row.nonce, expires, None), now);
    }
  }

  lemma {:induction false} RecordAllKeeps(db: Db, order: seq<Installation>, hook: Hook, targets: Option<map<Installation, nat>>,
                                          policy: Policy, now: int, expires: int)
    requires StoreOk(db)
    ensures StoreOk(RecordAll(db, order, hook, targets, policy, now, expires))
  {
    if order != [] {
      RecordAllKeeps(db, order[..|order| - 1], hook, targets, policy, now, expires);
      RecordForKeeps(RecordAll(db, order[..|order| - 1], hook, targets, policy, now, expires), order[|order| - 1], hook, targets, policy, now, expires);
    }
  }

  lemma RecordKeeps(db: Db, order: seq<Installation>, hook: Hook, targets: Option<map<Installation, nat>>, policy: Policy, now: int, expires: int)
    requires StoreOk(db)
    ensures StoreOk(Record(db, order, hook, targets, policy, now, expires))
  {
    var pruned := Prune(db, policy, now);
    PruneKeeps(db, policy, now);
    NoteKeeps(pruned, hook, policy, now);
    RecordAllKeeps(Note(pruned, hook, policy, now), order, hook, targets, policy, now, expires);
    PruneKeeps(RecordAll(Note(pruned, hook, policy, now), order, hook, targets, policy, now, expires), policy, now);
  }

  lemma FinishShrinks(db: Db, maxAttempts: nat, now: int)
    ensures OutboxShrinks(db, FinishExhausted(db.outbox, maxAttempts, now))
  {
  }

  lemma ClaimPreparedKeeps(db: Db, policy: Policy, now: int)
    requires StoreOk(db)
    ensures StoreOk(ClaimPrepared(db, policy, now))
  {
    hide StoreOk, Prune, OutboxShrinks, FinishExhausted;
    var pruned := Prune(db, policy, now);
    PruneKeeps(db, policy, now);
    FinishShrinks(pruned, policy.maxAttempts, now);
    ShrinkKeeps(pruned, FinishExhausted(pruned.outbox, policy.maxAttempts, now));
  }

  lemma LeaseKeeps(db: Db, k: JobKey, now: int)
    requires StoreOk(db) && k in db.outbox
    ensures StoreOk(Lease(db, k, now))
  {
    LeaseKeepsLeases(db, k, now);
    hide LeasesOk;
  }

  lemma LeaseKeepsLeases(db: Db, k: JobKey, now: int)
    requires LeasesOk(db) && k in db.outbox
    ensures LeasesOk(Lease(db, k, now))
  {
  }

  lemma AfterSendKeeps(db: Db, k: JobKey, code: int, now: int)
    requires StoreOk(db) && k in db.outbox && k.installation in db.registrations
    ensures StoreOk(AfterSend(db, k, code, now))
  {
    if Gone(code) {
      RevokeInKeeps(db, k.installation);
    } else {
      ShrinkKeeps(db, AfterSend(db, k, code, now).outbox);
    }
  }

  lemma DeliverKeeps(db: Db, k: JobKey, token: nat, policy: Policy, durable: set<string>, stopping: bool, code: int, now: int)
    requires StoreOk(db)
    ensures StoreOk(Deliver(db, k, token, policy, durable, stopping, code, now))
  {
    if LeaseHolds(db, k, token) {
      ShrinkKeeps(db, FinishJob(db, k).outbox);
      if Permitted(db, k, policy, durable, stopping, now) {
        AfterSendKeeps(db, k, code, now);
      }
    }
  }
}
