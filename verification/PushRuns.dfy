/** Runs of the push store: any sequence of transactions, in any interleaving of clients, observers
    and senders, from a freshly opened database of any age. */
module PushRuns {
  import opened Basics
  import opened PushTypes
  import opened PushModel
  import opened PushInvariant

  datatype Op =
    | PutOp(p: Principal, i: Installation, body: Body, policy: Policy, now: int, challenge: string)
    | ConfirmOp(p: Principal, i: Installation, generation: nat, proof: string, policy: Policy, durable: set<string>, now: int)
    | RevokeOp(p: Principal, i: Installation, caller: Option<Policy>)
    | RecordOp(order: seq<Installation>, hook: Hook, targets: Option<map<Installation, nat>>, policy: Policy, now: int, expires: int)
    | ClaimOp(pick: Option<JobKey>, policy: Policy, now: int)
    | DeliverOp(job: JobKey, token: nat, policy: Policy, durable: set<string>, stopping: bool, code: int, now: int)
    | ReopenOp

  function Apply(db: Db, op: Op): Db {
    match op
    case PutOp(p, i, body, policy, now, challenge) => Put(db, p, i, body, policy, now, challenge).0
    case ConfirmOp(p, i, generation, proof, policy, durable, now) => Confirm(db, p, i, generation, proof, policy, durable, now).0
    case RevokeOp(p, i, caller) => Revoke(db, p, i, caller).0
    case RecordOp(order, hook, targets, policy, now, expires) => Record(db, order, hook, targets, policy, now, expires)
    case ClaimOp(pick, policy, now) =>
      var prepared := ClaimPrepared(db, policy, now);
      if pick.Some? && pick.value in prepared.outbox then Lease(prepared, pick.value, now) else prepared
    case DeliverOp(job, token, policy, durable, stopping, code, now) => Deliver(db, job, token, policy, durable, stopping, code, now)
    case ReopenOp => Reopen(db)
  }

  /** A claim takes the oldest job that is due, and none only when none is due. */
  ghost predicate Enabled(db: Db, op: Op) {
    if op.ClaimOp? then
      var outbox := ClaimPrepared(db, op.policy, op.now).outbox;
      if op.pick.Some? then OldestDue(outbox, op.pick.value, op.policy.maxAttempts, op.now)
      else forall k :: k in outbox ==> !Due(outbox[k], op.policy.maxAttempts, op.now)
    else true
  }

  function After(db: Db, ops: seq<Op>): Db {
    if ops == [] then db else Apply(After(db, ops[..|ops| - 1]), ops[|ops| - 1])
  }

  lemma {:induction false} AfterSplits(db: Db, ops: seq<Op>, more: seq<Op>)
    ensures After(db, ops + more) == After(After(db, ops), more)
  {
    if more == [] {
      assert ops + more == ops;
    } else {
      var front := more[..|more| - 1];
      AfterSplits(db, ops, front);
      assert (ops + more)[..|ops + more| - 1] == ops + front;
    }
  }

  // ---- Opening an old database ----

  /** What a database written before revisions existed satisfies: rows without a revision may own anything. */
  ghost predicate LegacyOk(db: Db) {
    && IndexOk(db) && ChallengesOk(db) && LeasesOk(db)
    && (forall i :: i in db.registrations ==> db.registrations[i].generation >= 1)
    && (forall i :: i in db.registrations && db.registrations[i].revision >= 1 ==> RowOk(db, i))
    && (forall k :: k in db.outbox ==> k.event in db.events && k.installation in db.registrations)
    && (forall k :: k in db.outbox ==> Legacy(db.registrations[k.installation]) || JobOk(db, k))
  }

  lemma ReopenKeepsEvents(db: Db)
    requires LegacyOk(db)
    ensures IndexOk(Reopen(db)) && ChallengesOk(Reopen(db))
  {
  }

  lemma ReopenEstablishes(db: Db)
    requires LegacyOk(db)
    ensures StoreOk(Reopen(db))
  {
    ReopenKeepsEvents(db);
    hide IndexOk, ChallengesOk;
  }

  /** Migration is restart-safe: opening a migrated store again changes nothing. */
  lemma ReopenAgainChangesNothing(db: Db)
    requires StoreOk(db)
    ensures Reopen(db) == db && LegacyOk(db)
  {
    assert (set i | i in db.registrations && db.registrations[i].nonce != "" :: (i, db.registrations[i].nonce)) <= db.nonces;
    var again := Reopen(db);
    assert again.registrations == db.registrations;
    assert again.events == db.events;
    assert again.outbox == db.outbox;
  }

  // ---- The invariant over runs ----

  lemma ClaimKeeps(db: Db, op: Op)
    requires StoreOk(db) && op.ClaimOp?
    ensures StoreOk(Apply(db, op))
  {
    hide StoreOk, ClaimPrepared, Lease;
    var prepared := ClaimPrepared(db, op.policy, op.now);
    ClaimPreparedKeeps(db, op.policy, op.now);
    if op.pick.Some? && op.pick.value in prepared.outbox {
      LeaseKeeps(prepared, op.pick.value, op.now);
    }
  }

  lemma ApplyKeeps(db: Db, op: Op)
    requires StoreOk(db)
    ensures StoreOk(Apply(db, op))
  {
    hide StoreOk, Put, Confirm, Revoke, Record, Deliver, Reopen, ClaimPrepared, Lease;
    match op
    case PutOp(p, i, body, policy, now, challenge) => PutKeeps(db, p, i, body, policy, now, challenge);
    case ConfirmOp(p, i, generation, proof, policy, durable, now) => ConfirmKeeps(db, p, i, generation, proof, policy, durable, now);
    case RevokeOp(p, i, caller) => RevokeKeeps(db, p, i, caller);
    case RecordOp(order, hook, targets, policy, now, expires) => RecordKeeps(db, order, hook, targets, policy, now, expires);
    case ClaimOp(_, _, _) => ClaimKeeps(db, op);
    case DeliverOp(job, token, policy, durable, stopping, code, now) => DeliverKeeps(db, job, token, policy, durable, stopping, code, now);
    case ReopenOp => ReopenAgainChangesNothing(db);
  }

  lemma {:induction false} RunKeeps(db: Db, ops: seq<Op>)
    requires StoreOk(db)
    ensures StoreOk(After(db, ops))
  {
    if ops != [] {
      RunKeeps(db, ops[..|ops| - 1]);
      ApplyKeeps(After(db, ops[..|ops| - 1]), ops[|ops| - 1]);
    }
  }

  /** In every reachable store an outbox row belongs to its registration's current generation: revoked and
      upgrade-required rows own none, a pending row at most its own challenge, an active row no challenge. */
  lemma {:induction false} OutboxAuthority(start: Db, ops: seq<Op>, k: JobKey)
    requires LegacyOk(start) && k in After(Reopen(start), ops).outbox
    ensures var db := After(Reopen(start), ops);
            && k.installation in db.registrations && k.event in db.events
            && var row := db.registrations[k.installation];
               && row.generation == k.generation
               && (row.status == Pending || row.status == Active)
               && (row.status == Active ==> db.events[k.event].key.source.FromHook?)
               && (row.status == Pending ==>
                     db.events[k.event].key.source == ChallengeFor(k.installation, k.generation)
                     && forall j :: j in db.outbox && j.installation == k.installation ==> j == k)
  {
    ReopenEstablishes(start);
    RunKeeps(Reopen(start), ops);
    var db := After(Reopen(start), ops);
    hide After, LeasesOk, ChallengesOk, RowsOk;
    assert JobOk(db, k);
    var row := db.registrations[k.installation];
    forall j | row.status == Pending && j in db.outbox && j.installation == k.installation
      ensures j == k
    {
      assert JobOk(db, j);
      assert db.events[j.event].key == db.events[k.event].key;
    }
  }

  /** The sender re-reads its rows under its lease and always finds them, at the job's own generation:
      its missing-row and generation tests never refuse a job. */
  lemma {:induction false} SenderFindsItsAuthority(start: Db, ops: seq<Op>, k: JobKey, token: nat)
    requires LegacyOk(start) && LeaseHolds(After(Reopen(start), ops), k, token)
    ensures var db := After(Reopen(start), ops);
            k.installation in db.registrations && k.event in db.events
            && db.registrations[k.installation].generation == k.generation
  {
    OutboxAuthority(start, ops, k);
  }

  // ---- Recording leaves the registrations alone, and the scan leaves attention alone ----

  lemma {:induction false} RecordAllLeavesRows(db: Db, order: seq<Installation>, hook: Hook, targets: Option<map<Installation, nat>>,
                                               policy: Policy, now: int, expires: int)
    ensures RecordAll(db, order, hook, targets, policy, now, expires).registrations == db.registrations
    ensures RecordAll(db, order, hook, targets, policy, now, expires).nonces == db.nonces
    ensures RecordAll(db, order, hook, targets, policy, now, expires).attention == db.attention
    ensures RecordAll(db, order, hook, targets, policy, now, expires).nextAttention == db.nextAttention
  {
    if order != [] {
      RecordAllLeavesRows(db, order[..|order| - 1], hook, targets, policy, now, expires);
    }
  }

  lemma NoteLeavesRows(db: Db, hook: Hook, policy: Policy, now: int)
    ensures Note(db, hook, policy, now).registrations == db.registrations && Note(db, hook, policy, now).nonces == db.nonces
  {
  }

  lemma RecordLeavesRows(db: Db, order: seq<Installation>, hook: Hook, targets: Option<map<Installation, nat>>, policy: Policy, now: int, expires: int)
    ensures Record(db, order, hook, targets, policy, now, expires).registrations == db.registrations
    ensures Record(db, order, hook, targets, policy, now, expires).nonces == db.nonces
  {
    hide RecordAll, Note, PruneEvents, CascadeIndex, CascadeJobs, DeleteExpiredAttention, DeleteAllButNewestAttention;
    NoteLeavesRows(Prune(db, policy, now), hook, policy, now);
    RecordAllLeavesRows(Note(Prune(db, policy, now), hook, policy, now), order, hook, targets, policy, now, expires);
  }

  // ---- What only grows ----

  ghost predicate RowLater(a: Registration, b: Registration) {
    && a.owner == b.owner
    && a.generation <= b.generation
    && a.revision <= b.revision
    && (a.status == Revoked ==> b == a)
    && (a.generation == b.generation ==> b == a || (a.status == Pending && b == a.(status := Active, challenge := None)))
  }

  /** Generations, cursors and tokens only grow, no registration disappears, revocation and cancellation are for good. */
  ghost predicate Later(db: Db, db': Db) {
    && db.nextCursor <= db'.nextCursor && db.nextToken <= db'.nextToken
    && db.nonces <= db'.nonces
    && (forall i :: i in db.registrations ==> i in db'.registrations && RowLater(db.registrations[i], db'.registrations[i]))
    && (forall c :: c in db'.events && c < db.nextCursor ==>
          c in db.events && db'.events[c].key == db.events[c].key && (db.events[c].cancelled ==> db'.events[c].cancelled))
  }

  lemma LaterTransitive(a: Db, b: Db, c: Db)
    requires Later(a, b) && Later(b, c)
    ensures Later(a, c)
  {
  }

  lemma PruneLater(db: Db, policy: Policy, now: int)
    ensures Later(db, Prune(db, policy, now))
  {
  }

  lemma InsertLater(db: Db, key: EventKey, now: int, expires: int)
    requires IndexOk(db)
    ensures Later(db, InsertEvent(db, key, now, expires).0)
  {
  }

  lemma WriteLater(db: Db, p: Principal, i: Installation, body: Body, policy: Policy, challenge: string, expires: int)
    requires PutRefusal(db, p, i, body, policy).None?
    ensures Later(db, WriteRegistration(db, p, i, body, challenge, expires))
  {
  }

  lemma QueueChallengeLater(db: Db, p: Principal, i: Installation, generation: nat, nonce: string, challenge: string, now: int, expires: int)
    requires IndexOk(db)
    ensures Later(db, QueueChallenge(db, p, i, generation, nonce, challenge, now, expires))
  {
    InsertLater(db, EventKey(p, ChallengeFor(i, generation)), now, expires);
  }

  lemma PutLater(db: Db, p: Principal, i: Installation, body: Body, policy: Policy, now: int, challenge: string)
    requires StoreOk(db)
    ensures Later(db, Put(db, p, i, body, policy, now, challenge).0)
  {
    hide StoreOk, QueueChallenge, WriteRegistration, Prune;
    var expires := now + policy.challengeTtl;
    if PutRefusal(db, p, i, body, policy).None? {
      var written := WriteRegistration(db, p, i, body, challenge, expires);
      WriteLater(db, p, i, body, policy, challenge, expires);
      WriteKeeps(db, p, i, body, challenge, expires);
      QueueChallengeLater(written, p, i, NextGeneration(db, i), body.nonce, challenge, now, expires);
      var accepted := PutAccepted(db, p, i, body, policy, now, challenge);
      LaterTransitive(db, written, accepted);
      PruneLater(accepted, policy, now);
      LaterTransitive(db, accepted, Prune(accepted, policy, now));
    }
  }

  lemma CancelLater(db: Db, sessionId: string, request: Option<string>)
    ensures Later(db, CancelAttention(db, sessionId, request))
  {
  }

  lemma NoteLater(db: Db, hook: Hook, policy: Policy, now: int)
    ensures Later(db, Note(db, hook, policy, now))
  {
    var a := AttentionKey(hook.sessionId, hook.reference);
    CancelLater(UpsertAttention(db, a, hook.kind == InputResolved, now + policy.ttl * 2), hook.sessionId, Some(hook.reference));
    CancelLater(db, hook.sessionId, None);
    hide CancelAttention;
  }

  lemma RecordForLater(db: Db, i: Installation, hook: Hook, targets: Option<map<Installation, nat>>, policy: Policy, now: int, expires: int)
    requires StoreOk(db)
    ensures Later(db, RecordFor(db, i, hook, targets, policy, now, expires))
  {
    if Queues(db, i, hook, targets, policy) {
      InsertLater(db, EventKey(db.registrations[i].owner, FromHook(hook)), now, expires);
    }
  }

  lemma {:induction false} RecordAllLater(db: Db, order: seq<Installation>, hook: Hook, targets: Option<map<Installation, nat>>,
                                          policy: Policy, now: int, expires: int)
    requires StoreOk(db)
    ensures Later(db, RecordAll(db, order, hook, targets, policy, now, expires))
  {
    if order != [] {
      var before := RecordAll(db, order[..|order| - 1], hook, targets, policy, now, expires);
      RecordAllLater(db, order[..|order| - 1], hook, targets, policy, now, expires);
      RecordAllKeeps(db, order[..|order| - 1], hook, targets, policy, now, expires);
      RecordForLater(before, order[|order| - 1], hook, targets, policy, now, expires);
      LaterTransitive(db, before, RecordAll(db, order, hook, targets, policy, now, expires));
    }
  }

  lemma RecordLater(db: Db, order: seq<Installation>, hook: Hook, targets: Option<map<Installation, nat>>, policy: Policy, now: int, expires: int)
    requires StoreOk(db)
    ensures Later(db, Record(db, order, hook, targets, policy, now, expires))
  {
    hide StoreOk, Prune, Note, RecordAll;
    var pruned := Prune(db, policy, now);
    var noted := Note(pruned, hook, policy, now);
    var all := RecordAll(noted, order, hook, targets, policy, now, expires);
    PruneKeeps(db, policy, now);
    PruneLater(db, policy, now);
    NoteKeeps(pruned, hook, policy, now);
    NoteLater(pruned, hook, policy, now);
    LaterTransitive(db, pruned, noted);
    RecordAllLater(noted, order, hook, targets, policy, now, expires);
    LaterTransitive(db, noted, all);
    PruneLater(all, policy, now);
    LaterTransitive(db, all, Prune(all, policy, now));
  }

  lemma AfterSendLater(db: Db, k: JobKey, code: int, now: int)
    requires k in db.outbox && k.installation in db.registrations && db.registrations[k.installation].status != Revoked
    ensures Later(db, AfterSend(db, k, code, now))
  {
  }

  lemma DeliverLater(db: Db, k: JobKey, token: nat, policy: Policy, durable: set<string>, stopping: bool, code: int, now: int)
    requires StoreOk(db)
    ensures Later(db, Deliver(db, k, token, policy, durable, stopping, code, now))
  {
    hide AfterSend, StoreOk, Permitted;
    if LeaseHolds(db, k, token) {
      LeaseHasAuthority(db, k);
      AfterSendLater(db, k, code, now);
    }
  }

  lemma LeaseHasAuthority(db: Db, k: JobKey)
    requires StoreOk(db) && k in db.outbox
    ensures JobOk(db, k)
  {
  }

  lemma ConfirmLater(db: Db, op: Op)
    requires op.ConfirmOp?
    ensures Later(db, Apply(db, op))
  {
  }

  lemma WipeLater(db: Db, i: Installation)
    ensures Later(db, WipeInstallation(db, i))
  {
  }

  lemma RetireLater(db: Db, i: Installation)
    requires i in db.registrations && db.registrations[i].status != Revoked
    ensures Later(db, db.(registrations := db.registrations[i := RevokedRow(db.registrations[i])]))
  {
  }

  lemma BuryLater(db: Db, p: Principal, i: Installation)
    requires i !in db.registrations
    ensures Later(db, db.(registrations := db.registrations[i := Tombstone(p)]))
  {
  }

  lemma RevokeLater(db: Db, op: Op)
    requires op.RevokeOp?
    ensures Later(db, Apply(db, op))
  {
    hide Later, WipeInstallation;
    SameLater(db);
    if op.i !in db.registrations {
      BuryLater(db, op.p, op.i);
    } else if db.registrations[op.i].status != Revoked {
      var retired := db.(registrations := db.registrations[op.i := RevokedRow(db.registrations[op.i])]);
      RetireLater(db, op.i);
      WipeLater(retired, op.i);
      LaterTransitive(db, retired, WipeInstallation(retired, op.i));
    }
  }

  lemma ClaimLater(db: Db, op: Op)
    requires op.ClaimOp?
    ensures Later(db, Apply(db, op))
  {
    hide Prune;
    PruneLater(db, op.policy, op.now);
  }

  lemma ApplyLater(db: Db, op: Op)
    requires StoreOk(db)
    ensures Later(db, Apply(db, op))
  {
    hide StoreOk, Later, Put, Confirm, Revoke, Record, Deliver, ClaimPrepared, Lease, Reopen;
    match op
    case PutOp(p, i, body, policy, now, challenge) => PutLater(db, p, i, body, policy, now, challenge);
    case ConfirmOp(_, _, _, _, _, _, _) => ConfirmLater(db, op);
    case RevokeOp(_, _, _) => RevokeLater(db, op);
    case RecordOp(order, hook, targets, policy, now, expires) => RecordLater(db, order, hook, targets, policy, now, expires);
    case ClaimOp(_, _, _) => ClaimLater(db, op);
    case DeliverOp(job, token, policy, durable, stopping, code, now) => DeliverLater(db, job, token, policy, durable, stopping, code, now);
    case ReopenOp =>
      ReopenAgainChangesNothing(db);
      SameLater(db);
  }

  lemma SameLater(db: Db)
    ensures Later(db, db)
  {
  }

  lemma {:induction false} RunLater(db: Db, ops: seq<Op>)
    requires StoreOk(db)
    ensures Later(db, After(db, ops))
  {
    if ops != [] {
      var before := After(db, ops[..|ops| - 1]);
      RunLater(db, ops[..|ops| - 1]);
      RunKeeps(db, ops[..|ops| - 1]);
      ApplyLater(before, ops[|ops| - 1]);
      LaterTransitive(db, before, After(db, ops));
    }
  }
}
