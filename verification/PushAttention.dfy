/** Input requests that have been resolved, or whose turn has ended, are never pushed again. */
module PushAttention {
  import opened Basics
  import opened PushTypes
  import opened PushModel
  import opened PushInvariant
  import opened PushRuns

  // ---- No stale attention ----

  predicate SendsEvent(db: Db, op: Op, c: nat) {
    op.DeliverOp? && op.job.event == c && Sends(db, op.job, op.token, op.policy, op.durable, op.stopping, op.now)
  }

  /** The request the hook settles, or all of its session's when it ends the turn. */
  predicate Settles(hook: Hook, event: Event) {
    (hook.kind == InputResolved && event.InputFor(hook.sessionId, Some(hook.reference)))
    || (hook.EndsTurn() && event.InputFor(hook.sessionId, None))
  }

  predicate Silenced(db: Db, c: nat) {
    c < db.nextCursor && (c in db.events ==> db.events[c].cancelled)
  }

  lemma SilencedStays(db: Db, db': Db, c: nat)
    requires Later(db, db') && Silenced(db, c)
    ensures Silenced(db', c)
  {
  }

  lemma NoteSilences(db: Db, hook: Hook, policy: Policy, now: int, c: nat)
    requires c in db.events && c < db.nextCursor && Settles(hook, db.events[c])
    ensures Silenced(Note(db, hook, policy, now), c)
  {
  }

  lemma RecordSilences(db: Db, order: seq<Installation>, hook: Hook, targets: Option<map<Installation, nat>>, policy: Policy,
                       now: int, expires: int, c: nat)
    requires StoreOk(db) && expires > now && c in db.events && Settles(hook, db.events[c])
    ensures Silenced(Record(db, order, hook, targets, policy, now, expires), c)
  {
    CursorBelowNext(db, c);
    hide StoreOk, Note, RecordAll, Later, Silenced, PruneEvents;
    var pruned := Prune(db, policy, now);
    var noted := Note(pruned, hook, policy, now);
    var all := RecordAll(noted, order, hook, targets, policy, now, expires);
    PruneKeeps(db, policy, now);
    PruneLater(db, policy, now);
    NoteKeeps(pruned, hook, policy, now);
    RecordAllLater(noted, order, hook, targets, policy, now, expires);
    PruneLater(all, policy, now);
    PrunedEvent(db, policy, now, c);
    if c in pruned.events {
      NoteSilences(pruned, hook, policy, now, c);
    } else {
      NoteLater(pruned, hook, policy, now);
      SilencedStays(pruned, noted, c);
    }
    SilencedStays(noted, all, c);
    SilencedStays(all, Prune(all, policy, now), c);
  }

  lemma CursorBelowNext(db: Db, c: nat)
    requires StoreOk(db) && c in db.events
    ensures c < db.nextCursor
  {
  }

  lemma PrunedEvent(db: Db, policy: Policy, now: int, c: nat)
    requires c in db.events && c < db.nextCursor
    ensures c in Prune(db, policy, now).events ==> Prune(db, policy, now).events[c] == db.events[c]
    ensures c !in Prune(db, policy, now).events ==> Silenced(Prune(db, policy, now), c)
    ensures Prune(db, policy, now).nextCursor == db.nextCursor
  {
  }

  lemma SilencedIsNotSent(db: Db, op: Op, c: nat)
    requires Silenced(db, c)
    ensures !SendsEvent(db, op, c)
  {
  }

  /** Once a resolution, or the end of the turn, has been recorded, no input event of that request that was
      already stored is sent, ever, whatever happens next. */
  lemma NoStaleInput(start: Db, ops: seq<Op>, settle: Op, more: seq<Op>, op: Op, c: nat)
    requires StoreOk(start) && settle.RecordOp? && settle.expires > settle.now
    requires c in After(start, ops).events && Settles(settle.hook, After(start, ops).events[c])
    ensures !SendsEvent(After(Apply(After(start, ops), settle), more), op, c)
  {
    hide StoreOk, After, Later, Silenced, Settles, SendsEvent, Record;
    var before := After(start, ops);
    var settled := Apply(before, settle);
    RunKeeps(start, ops);
    RecordSilences(before, settle.order, settle.hook, settle.targets, settle.policy, settle.now, settle.expires, c);
    RecordKeeps(before, settle.order, settle.hook, settle.targets, settle.policy, settle.now, settle.expires);
    RunLater(settled, more);
    SilencedStays(settled, After(settled, more), c);
    SilencedIsNotSent(After(settled, more), op, c);
  }

  // ---- While the resolution is remembered ----

  /** Every stored input of a request remembered as resolved is cancelled. */
  ghost predicate AttentionOk(db: Db) {
    forall a, c :: a in db.attention && db.attention[a].resolved && c in db.events && db.events[c].InputFor(a.sessionId, Some(a.request))
                   ==> db.events[c].cancelled
  }

  lemma PruneAttention(db: Db, policy: Policy, now: int)
    requires AttentionOk(db)
    ensures AttentionOk(Prune(db, policy, now))
  {
  }

  lemma PutAttention(db: Db, p: Principal, i: Installation, body: Body, policy: Policy, now: int, challenge: string)
    requires AttentionOk(db)
    ensures AttentionOk(Put(db, p, i, body, policy, now, challenge).0)
  {
    hide AttentionOk, WriteRegistration, QueueChallenge, Prune;
    if PutRefusal(db, p, i, body, policy).None? {
      var expires := now + policy.challengeTtl;
      var written := WriteRegistration(db, p, i, body, challenge, expires);
      WriteAttention(db, p, i, body, challenge, expires);
      QueueChallengeAttention(written, p, i, NextGeneration(db, i), body.nonce, challenge, now, expires);
      PruneAttention(PutAccepted(db, p, i, body, policy, now, challenge), policy, now);
    }
  }

  lemma WriteAttention(db: Db, p: Principal, i: Installation, body: Body, challenge: string, expires: int)
    requires AttentionOk(db) && body.revision >= 0 && PutScope(body).Some?
    ensures AttentionOk(WriteRegistration(db, p, i, body, challenge, expires))
  {
  }

  lemma QueueChallengeAttention(db: Db, p: Principal, i: Installation, generation: nat, nonce: string, challenge: string, now: int, expires: int)
    requires AttentionOk(db)
    ensures AttentionOk(QueueChallenge(db, p, i, generation, nonce, challenge, now, expires))
  {
  }

  predicate Unresolved(db: Db, hook: Hook) {
    var a := AttentionKey(hook.sessionId, hook.reference);
    hook.kind == Input ==> !(a in db.attention && db.attention[a].resolved)
  }

  lemma NoteAttention(db: Db, hook: Hook, policy: Policy, now: int)
    requires AttentionOk(db) && !AlreadyResolved(db, hook)
    ensures AttentionOk(Note(db, hook, policy, now)) && Unresolved(Note(db, hook, policy, now), hook)
  {
  }

  lemma RecordForAttention(db: Db, i: Installation, hook: Hook, targets: Option<map<Installation, nat>>, policy: Policy, now: int, expires: int)
    requires AttentionOk(db) && Unresolved(db, hook)
    ensures AttentionOk(RecordFor(db, i, hook, targets, policy, now, expires))
    ensures RecordFor(db, i, hook, targets, policy, now, expires).attention == db.attention
  {
  }

  lemma {:induction false} RecordAllAttention(db: Db, order: seq<Installation>, hook: Hook, targets: Option<map<Installation, nat>>,
                                              policy: Policy, now: int, expires: int)
    requires AttentionOk(db) && Unresolved(db, hook)
    ensures AttentionOk(RecordAll(db, order, hook, targets, policy, now, expires))
    ensures RecordAll(db, order, hook, targets, policy, now, expires).attention == db.attention
  {
    if order != [] {
      hide AttentionOk, RecordFor;
      RecordAllAttention(db, order[..|order| - 1], hook, targets, policy, now, expires);
      RecordForAttention(RecordAll(db, order[..|order| - 1], hook, targets, policy, now, expires), order[|order| - 1], hook, targets, policy, now, expires);
    }
  }

  lemma RecordAttention(db: Db, order: seq<Installation>, hook: Hook, targets: Option<map<Installation, nat>>, policy: Policy, now: int, expires: int)
    requires AttentionOk(db)
    ensures AttentionOk(Record(db, order, hook, targets, policy, now, expires))
  {
    hide AttentionOk, Prune, Note, RecordAll, Unresolved;
    var pruned := Prune(db, policy, now);
    PruneAttention(db, policy, now);
    if expires > now && !AlreadyResolved(pruned, hook) {
      var noted := Note(pruned, hook, policy, now);
      NoteAttention(pruned, hook, policy, now);
      RecordAllAttention(noted, order, hook, targets, policy, now, expires);
      PruneAttention(RecordAll(noted, order, hook, targets, policy, now, expires), policy, now);
    }
  }

  lemma DeliverAttention(db: Db, k: JobKey, token: nat, policy: Policy, durable: set<string>, stopping: bool, code: int, now: int)
    requires AttentionOk(db)
    ensures AttentionOk(Deliver(db, k, token, policy, durable, stopping, code, now))
  {
    hide Permitted;
  }

  lemma ApplyAttention(db: Db, op: Op)
    requires StoreOk(db) && AttentionOk(db)
    ensures AttentionOk(Apply(db, op))
  {
    hide StoreOk, Put, Record, Deliver, Reopen, Prune;
    match op
    case PutOp(p, i, body, policy, now, challenge) => PutAttention(db, p, i, body, policy, now, challenge);
    case RecordOp(order, hook, targets, policy, now, expires) => RecordAttention(db, order, hook, targets, policy, now, expires);
    case ClaimOp(_, policy, now) => PruneAttention(db, policy, now);
    case DeliverOp(job, token, policy, durable, stopping, code, now) => DeliverAttention(db, job, token, policy, durable, stopping, code, now);
    case ReopenOp => ReopenAgainChangesNothing(db);
    case _ =>
  }

  /** In every reachable store, in whatever order request and resolution arrived: while a resolution is
      remembered, every stored input of that request is cancelled. */
  lemma {:induction false} ResolvedInputsStayCancelled(start: Db, ops: seq<Op>)
    requires StoreOk(start) && AttentionOk(start)
    ensures AttentionOk(After(start, ops))
  {
    if ops != [] {
      hide StoreOk, AttentionOk, Apply;
      RunKeeps(start, ops[..|ops| - 1]);
      ResolvedInputsStayCancelled(start, ops[..|ops| - 1]);
      ApplyAttention(After(start, ops[..|ops| - 1]), ops[|ops| - 1]);
    }
  }
}
