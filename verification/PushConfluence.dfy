/** Registration requests may arrive in any order and more than once: the largest revision wins, and a
    deletion wins over every registration. */
module PushConfluence {
  import opened Basics
  import opened PushTypes
  import opened PushModel
  import opened PushInvariant
  import opened PushRuns

  predicate PutOn(op: Op, i: Installation) {
    op.PutOp? && op.i == i
  }

  /** The row holds what the request asked for. */
  predicate Content(row: Registration, body: Body) {
    && row.endpoint == body.endpoint && row.keys == body.keys && row.kinds == body.kinds
    && row.nonce == body.nonce && row.revision == body.revision && Some(row.scope) == PutScope(body)
  }

  /** One client registers the installation: well-formed requests, a revision per body and a nonce per revision. */
  ghost predicate OneClient(ops: seq<Op>, p: Principal, i: Installation) {
    && (forall j :: 0 <= j < |ops| && PutOn(ops[j], i) ==>
          ops[j].p == p && 1 <= ops[j].body.revision <= MAX_REVISION && PutScope(ops[j].body).Some?)
    && (forall j, k :: 0 <= j < |ops| && 0 <= k < |ops| && PutOn(ops[j], i) && PutOn(ops[k], i) ==>
          if ops[j].body.revision == ops[k].body.revision then ops[j].body == ops[k].body
          else ops[j].body.nonce != ops[k].body.nonce)
  }

  /** The installation's first request finds room in the table. */
  ghost predicate FindsRoom(start: Db, ops: seq<Op>, i: Installation) {
    forall j :: 0 <= j < |ops| && PutOn(ops[j], i) ==>
      var before := After(start, ops[..j]);
      i in before.registrations || |before.registrations| < ops[j].policy.maxRegistrations
  }

  ghost predicate Largest(ops: seq<Op>, i: Installation, j: int) {
    && 0 <= j < |ops| && PutOn(ops[j], i)
    && forall k :: 0 <= k < |ops| && PutOn(ops[k], i) ==> ops[k].body.revision <= ops[j].body.revision
  }

  // ---- Transactions that are not a registration of `i` ----

  /** The row of `i` either ends revoked or keeps its content, with at most its activation. */
  ghost predicate KeepsContent(db: Db, db': Db, i: Installation) {
    && (forall n :: (i, n) in db'.nonces <==> (i, n) in db.nonces)
    && (i in db.registrations ==> i in db'.registrations)
    && (i in db'.registrations ==>
          || (db'.registrations[i].status == Revoked
              && db'.registrations[i].revision == (if i in db.registrations then db.registrations[i].revision else 0))
          || (i in db.registrations && db'.registrations[i] == db.registrations[i])
          || (i in db.registrations && db.registrations[i].status == Pending
              && db'.registrations[i] == db.registrations[i].(status := Active, challenge := None)))
  }

  lemma QueueChallengeLeavesRows(db: Db, p: Principal, i: Installation, generation: nat, nonce: string, challenge: string, now: int, expires: int)
    ensures QueueChallenge(db, p, i, generation, nonce, challenge, now, expires).registrations == db.registrations
    ensures QueueChallenge(db, p, i, generation, nonce, challenge, now, expires).nonces == db.nonces
  {
  }

  lemma PutWrites(db: Db, p: Principal, i: Installation, body: Body, policy: Policy, now: int, challenge: string)
    ensures var (db', reply) := Put(db, p, i, body, policy, now, challenge);
            if reply.Refused? then db' == db
            else PutScope(body).Some? && body.revision >= 1
                 && db'.registrations == db.registrations[i :=
                      PendingRow(p, NextGeneration(db, i), body, PutScope(body).value, challenge, now + policy.challengeTtl)]
                 && db'.nonces == db.nonces + {(i, body.nonce)}
  {
    hide QueueChallenge, PruneEvents, CascadeIndex, CascadeJobs, DeleteAllButNewestAttention;
    if PutRefusal(db, p, i, body, policy).None? {
      var expires := now + policy.challengeTtl;
      QueueChallengeLeavesRows(WriteRegistration(db, p, i, body, challenge, expires), p, i, NextGeneration(db, i), body.nonce, challenge, now, expires);
    }
  }

  lemma OtherPutKeepsContent(db: Db, op: Op, i: Installation)
    requires op.PutOp? && op.i != i
    ensures KeepsContent(db, Apply(db, op), i)
  {
    hide Put;
    PutWrites(db, op.p, op.i, op.body, op.policy, op.now, op.challenge);
  }

  lemma DeliverKeepsContent(db: Db, op: Op, i: Installation)
    requires StoreOk(db) && op.DeliverOp?
    ensures KeepsContent(db, Apply(db, op), i)
  {
    hide StoreOk;
    if LeaseHolds(db, op.job, op.token) {
      LeaseHasAuthority(db, op.job);
    }
  }

  lemma OtherKeepsContent(db: Db, op: Op, i: Installation)
    requires StoreOk(db) && !PutOn(op, i)
    ensures KeepsContent(db, Apply(db, op), i)
  {
    hide StoreOk, Put, Record, Deliver, Reopen;
    match op
    case PutOp(_, _, _, _, _, _) => OtherPutKeepsContent(db, op, i);
    case RecordOp(order, hook, targets, policy, now, expires) => RecordLeavesRows(db, order, hook, targets, policy, now, expires);
    case DeliverOp(_, _, _, _, _, _, _) => DeliverKeepsContent(db, op, i);
    case ReopenOp => ReopenAgainChangesNothing(db);
    case _ =>
  }

  // ---- Registrations of `i` ----

  /** What a prefix of the run has made of the installation. */
  ghost predicate Settled(db: Db, ops: seq<Op>, p: Principal, i: Installation) {
    && (i !in db.registrations ==> forall j :: 0 <= j < |ops| ==> !PutOn(ops[j], i))
    && (i in db.registrations && db.registrations[i].status != Revoked ==>
          db.registrations[i].owner == p && exists j :: Largest(ops, i, j) && Content(db.registrations[i], ops[j].body))
    && (forall n :: (i, n) in db.nonces ==> exists j :: 0 <= j < |ops| && PutOn(ops[j], i) && ops[j].body.nonce == n)
  }

  lemma OtherStepSettles(db: Db, db': Db, ops: seq<Op>, op: Op, p: Principal, i: Installation)
    requires Settled(db, ops, p, i) && KeepsContent(db, db', i) && !PutOn(op, i)
    ensures Settled(db', ops + [op], p, i)
  {
    var all := ops + [op];
    assert forall j :: 0 <= j < |ops| ==> all[j] == ops[j];
    forall n | (i, n) in db'.nonces
      ensures exists j :: 0 <= j < |all| && PutOn(all[j], i) && all[j].body.nonce == n
    {
      var j :| 0 <= j < |ops| && PutOn(ops[j], i) && ops[j].body.nonce == n;
      assert PutOn(all[j], i);
    }
    if i in db'.registrations && db'.registrations[i].status != Revoked {
      var j :| Largest(ops, i, j) && Content(db.registrations[i], ops[j].body);
      assert Largest(all, i, j) && Content(db'.registrations[i], all[j].body);
    }
  }

  lemma NoncesOfPut(db: Db, db': Db, ops: seq<Op>, op: Op, p: Principal, i: Installation)
    requires Settled(db, ops, p, i) && PutOn(op, i) && db'.nonces <= db.nonces + {(i, op.body.nonce)}
    ensures var all := ops + [op];
            forall n :: (i, n) in db'.nonces ==> exists j :: 0 <= j < |all| && PutOn(all[j], i) && all[j].body.nonce == n
  {
    var all := ops + [op];
    assert all[|ops|] == op;
    forall n | (i, n) in db'.nonces
      ensures exists j :: 0 <= j < |all| && PutOn(all[j], i) && all[j].body.nonce == n
    {
      if n == op.body.nonce {
        assert PutOn(all[|ops|], i);
      } else {
        var j :| 0 <= j < |ops| && PutOn(ops[j], i) && ops[j].body.nonce == n;
        assert all[j] == ops[j] && PutOn(all[j], i);
      }
    }
  }

  /** A request with a revision above every earlier one is accepted, whatever arrived before it. */
  lemma NewestIsAccepted(db: Db, ops: seq<Op>, op: Op, p: Principal, i: Installation)
    requires StoreOk(db) && Settled(db, ops, p, i) && OneClient(ops + [op], p, i) && PutOn(op, i)
    requires i in db.registrations || |db.registrations| < op.policy.maxRegistrations
    requires i in db.registrations ==> db.registrations[i].status != Revoked && db.registrations[i].revision < op.body.revision
    ensures PutRefusal(db, p, i, op.body, op.policy).None?
  {
    var all := ops + [op];
    assert all[|ops|] == op;
    if i in db.registrations {
      var j :| Largest(ops, i, j) && Content(db.registrations[i], ops[j].body);
      assert all[j] == ops[j] && PutOn(all[j], i);
      forall k | 0 <= k < |ops| && PutOn(ops[k], i)
        ensures ops[k].body.nonce != op.body.nonce
      {
        assert all[k] == ops[k] && PutOn(all[k], i);
      }
    }
  }

  lemma PutStepSettles(db: Db, ops: seq<Op>, op: Op, p: Principal, i: Installation)
    requires StoreOk(db) && Settled(db, ops, p, i) && OneClient(ops + [op], p, i) && PutOn(op, i)
    requires i in db.registrations || |db.registrations| < op.policy.maxRegistrations
    ensures Settled(Apply(db, op), ops + [op], p, i)
  {
    hide StoreOk, Put;
    var all := ops + [op];
    assert all[|ops|] == op && forall j :: 0 <= j < |ops| ==> all[j] == ops[j];
    var db' := Apply(db, op);
    PutWrites(db, op.p, i, op.body, op.policy, op.now, op.challenge);
    NoncesOfPut(db, db', ops, op, p, i);
    assert op.p == p by { assert PutOn(all[|ops|], i); }
    if i in db.registrations && db.registrations[i].status == Revoked {
      assert PutRefusal(db, p, i, op.body, op.policy).Some?;
      PutRefused(db, op);
    } else if i in db.registrations && op.body.revision <= db.registrations[i].revision {
      PutRefused(db, op);
      var j :| Largest(ops, i, j) && Content(db.registrations[i], ops[j].body);
      assert Largest(all, i, j) && Content(db'.registrations[i], all[j].body);
    } else {
      NewestIsAccepted(db, ops, op, p, i);
      PutRefused(db, op);
      if i in db.registrations {
        var j :| Largest(ops, i, j) && Content(db.registrations[i], ops[j].body);
      }
      assert Largest(all, i, |ops|) && Content(db'.registrations[i], all[|ops|].body);
    }
  }

  lemma PutRefused(db: Db, op: Op)
    requires op.PutOp?
    ensures Put(db, op.p, op.i, op.body, op.policy, op.now, op.challenge).1.Refused? <==> PutRefusal(db, op.p, op.i, op.body, op.policy).Some?
  {
  }

  lemma {:induction false} RunSettles(start: Db, ops: seq<Op>, p: Principal, i: Installation)
    requires StoreOk(start) && i !in start.registrations && forall n :: (i, n) !in start.nonces
    requires OneClient(ops, p, i) && FindsRoom(start, ops, i)
    ensures Settled(After(start, ops), ops, p, i)
  {
    if ops != [] {
      hide StoreOk, Apply, Settled;
      var front, op := ops[..|ops| - 1], ops[|ops| - 1];
      assert ops == front + [op];
      assert forall j :: 0 <= j < |front| ==> front[j] == ops[j] && front[..j] == ops[..j];
      assert OneClient(front, p, i) && FindsRoom(start, front, i);
      RunSettles(start, front, p, i);
      RunKeeps(start, front);
      if PutOn(op, i) {
        PutStepSettles(After(start, front), front, op, p, i);
      } else {
        OtherKeepsContent(After(start, front), op, i);
        OtherStepSettles(After(start, front), After(start, ops), front, op, p, i);
      }
    }
  }

  /** Whatever else happens in between, an installation that was asked for and is not revoked ends with
      exactly the content of the largest revision that arrived. */
  lemma {:induction false} LargestRevisionWins(start: Db, ops: seq<Op>, p: Principal, i: Installation)
    requires StoreOk(start) && i !in start.registrations && forall n :: (i, n) !in start.nonces
    requires OneClient(ops, p, i) && FindsRoom(start, ops, i)
    requires exists j :: 0 <= j < |ops| && PutOn(ops[j], i)
    ensures i in After(start, ops).registrations
    ensures var row := After(start, ops).registrations[i];
            row.status == Revoked
            || (row.owner == p && exists j :: Largest(ops, i, j) && Content(row, ops[j].body))
  {
    RunSettles(start, ops, p, i);
  }

  ghost predicate Asked(ops: seq<Op>, i: Installation, body: Body) {
    exists j :: 0 <= j < |ops| && PutOn(ops[j], i) && ops[j].body == body
  }

  /** Two runs that carried the same requests, in whatever order and multiplicity and among whatever else,
      leave the installation with the same content unless one of them revoked it. */
  lemma {:induction false} ArrivalOrderDoesNotMatter(start: Db, ops: seq<Op>, other: seq<Op>, p: Principal, i: Installation)
    requires StoreOk(start) && i !in start.registrations && forall n :: (i, n) !in start.nonces
    requires OneClient(ops, p, i) && FindsRoom(start, ops, i) && OneClient(other, p, i) && FindsRoom(start, other, i)
    requires exists j :: 0 <= j < |ops| && PutOn(ops[j], i)
    requires forall body :: Asked(ops, i, body) <==> Asked(other, i, body)
    ensures i in After(start, ops).registrations && i in After(start, other).registrations
    ensures var a, b := After(start, ops).registrations[i], After(start, other).registrations[i];
            a.status == Revoked || b.status == Revoked
            || (a.endpoint == b.endpoint && a.keys == b.keys && a.kinds == b.kinds && a.scope == b.scope
                && a.nonce == b.nonce && a.revision == b.revision && a.owner == b.owner)
  {
    hide After, OneClient, FindsRoom;
    var seen :| 0 <= seen < |ops| && PutOn(ops[seen], i);
    assert Asked(ops, i, ops[seen].body);
    LargestRevisionWins(start, ops, p, i);
    LargestRevisionWins(start, other, p, i);
    var a, b := After(start, ops).registrations[i], After(start, other).registrations[i];
    if a.status != Revoked && b.status != Revoked {
      var j :| Largest(ops, i, j) && Content(a, ops[j].body);
      var l :| Largest(other, i, l) && Content(b, other[l].body);
      OneBodyPerRevision(ops, p, i);
      SameLargest(ops, other, i, j, l);
    }
  }

  ghost predicate OneBody(ops: seq<Op>, i: Installation) {
    forall j, k :: 0 <= j < |ops| && 0 <= k < |ops| && PutOn(ops[j], i) && PutOn(ops[k], i) ==>
      ops[j].body.revision == ops[k].body.revision ==> ops[j].body == ops[k].body
  }

  lemma OneBodyPerRevision(ops: seq<Op>, p: Principal, i: Installation)
    requires OneClient(ops, p, i)
    ensures OneBody(ops, i)
  {
  }

  lemma SameLargest(ops: seq<Op>, other: seq<Op>, i: Installation, j: int, l: int)
    requires Largest(ops, i, j) && Largest(other, i, l)
    requires forall body :: Asked(ops, i, body) <==> Asked(other, i, body)
    requires OneBody(ops, i)
    ensures ops[j].body == other[l].body
  {
    assert Asked(ops, i, ops[j].body) && Asked(other, i, other[l].body);
  }

  lemma PutOnRevoked(db: Db, op: Op)
    requires op.PutOp? && op.i in db.registrations && db.registrations[op.i].status == Revoked
    ensures Apply(db, op) == db
  {
  }

  lemma RevokeRevokes(db: Db, q: Principal, i: Installation, caller: Option<Policy>)
    requires Revoke(db, q, i, caller).1.Accepted?
    ensures i in Revoke(db, q, i, caller).0.registrations && Revoke(db, q, i, caller).0.registrations[i].status == Revoked
  {
  }

  /** Revocation is final: the row never changes again, and every later registration of that
      installation, by anyone, leaves every table as it was. */
  lemma RevokedStays(db: Db, i: Installation, more: seq<Op>)
    requires StoreOk(db) && i in db.registrations && db.registrations[i].status == Revoked
    ensures var now := After(db, more);
            && i in now.registrations && now.registrations[i] == db.registrations[i]
            && forall op :: PutOn(op, i) ==> Apply(now, op) == now
  {
    hide StoreOk, After, Apply;
    RunLater(db, more);
    forall op | PutOn(op, i)
      ensures Apply(After(db, more), op) == After(db, more)
    {
      PutOnRevoked(After(db, more), op);
    }
  }

  /** A deletion that the server accepts wins over every registration, earlier or later. */
  lemma {:induction false} DeleteWins(start: Db, ops: seq<Op>, q: Principal, i: Installation, caller: Option<Policy>, more: seq<Op>)
    requires StoreOk(start)
    requires Revoke(After(start, ops), q, i, caller).1.Accepted?
    ensures var now := After(Revoke(After(start, ops), q, i, caller).0, more);
            && i in now.registrations && now.registrations[i].status == Revoked
            && now.registrations[i] == Revoke(After(start, ops), q, i, caller).0.registrations[i]
            && forall op :: PutOn(op, i) ==> Apply(now, op) == now
  {
    hide StoreOk, After, Apply, Revoke;
    RunKeeps(start, ops);
    RevokeKeeps(After(start, ops), q, i, caller);
    RevokeRevokes(After(start, ops), q, i, caller);
    RevokedStays(Revoke(After(start, ops), q, i, caller).0, i, more);
  }
}
