/** The handshake: what a registration queues, whose proof activates it, and how long a sender waits. */
module PushHandshake {
  import opened Basics
  import opened PushTypes
  import opened PushModel
  import opened PushInvariant
  import opened PushRuns
  import opened PushConfluence

  /** The one job that can activate the registration: its challenge, addressed to its nonce and generation. */
  ghost predicate ChallengeQueued(db: Db, i: Installation, generation: nat, nonce: string, challenge: string, k: JobKey) {
    && k in db.outbox && k.installation == i && k.generation == generation && k.event in db.events
    && !db.outbox[k].done && db.outbox[k].attempts == 0 && db.outbox[k].lease.None?
    && db.outbox[k].payload.Some?
    && var hint := db.outbox[k].payload.value;
       && hint.kind == Challenge && hint.challenge == Some(challenge) && hint.nonce == nonce && hint.generation == generation
       && !db.events[k.event].cancelled && db.events[k.event].key.source == ChallengeFor(i, generation)
       && hint.expires == db.events[k.event].expiresAt
  }

  /** A generation about to be given out has no challenge on record yet. */
  lemma NextChallengeIsNew(db: Db, p: Principal, i: Installation)
    requires StoreOk(db)
    ensures EventKey(p, ChallengeFor(i, NextGeneration(db, i))) !in db.index
  {
    hide RowsOk, JobsOk, LeasesOk;
    assert forall c :: c in db.events ==> ChallengeOk(db, c);
  }

  lemma WrittenIsBare(db: Db, p: Principal, i: Installation, body: Body, challenge: string, expires: int)
    requires IndexOk(db) && body.revision >= 0 && PutScope(body).Some?
    ensures var w := WriteRegistration(db, p, i, body, challenge, expires);
            && w.index == db.index && w.nextCursor == db.nextCursor
            && w.events.Keys == db.events.Keys && (forall c :: c in w.events ==> c < w.nextCursor)
            && forall k :: k in w.outbox ==> k.event in w.events || k in db.outbox
  {
  }

  lemma QueuedChallenge(w: Db, p: Principal, i: Installation, generation: nat, nonce: string, challenge: string, now: int, expires: int)
    requires EventKey(p, ChallengeFor(i, generation)) !in w.index
    requires JobKey(w.nextCursor, i, generation) !in w.outbox
    ensures var db := QueueChallenge(w, p, i, generation, nonce, challenge, now, expires);
            && ChallengeQueued(db, i, generation, nonce, challenge, JobKey(w.nextCursor, i, generation))
            && db.events == w.events[w.nextCursor := Event(EventKey(p, ChallengeFor(i, generation)), now, expires, false)]
  {
  }

  lemma PruneKeepsNewest(db: Db, policy: Policy, now: int, i: Installation, generation: nat, nonce: string, challenge: string, k: JobKey)
    requires ChallengeQueued(db, i, generation, nonce, challenge, k) && policy.maxEvents >= 1 && db.events[k.event].expiresAt > now
    requires forall c :: c in db.events ==> c <= k.event
    ensures ChallengeQueued(Prune(db, policy, now), i, generation, nonce, challenge, k)
  {
    hide DeleteAllButNewestAttention, DeleteExpiredAttention;
    assert NewerEvents(DeleteExpiredEvents(db.events, now), k.event) == {};
  }

  /** An accepted registration leaves exactly one job for its installation: its own fresh challenge. */
  lemma PutQueuesItsChallenge(db: Db, p: Principal, i: Installation, body: Body, policy: Policy, now: int, challenge: string)
    returns (k: JobKey)
    requires StoreOk(db) && Put(db, p, i, body, policy, now, challenge).1.Accepted?
    requires policy.challengeTtl >= 1 && policy.maxEvents >= 1
    ensures var (after, reply) := Put(db, p, i, body, policy, now, challenge);
            && ChallengeQueued(after, i, reply.generation, body.nonce, challenge, k)
            && i in after.registrations && after.registrations[i].challenge == Some(challenge)
            && forall j :: j in after.outbox && j.installation == i ==> j == k
  {
    hide StoreOk, WriteRegistration, QueueChallenge, Prune, ChallengeQueued;
    var expires, generation := now + policy.challengeTtl, NextGeneration(db, i);
    PutRefused(db, PutOp(p, i, body, policy, now, challenge));
    var w := WriteRegistration(db, p, i, body, challenge, expires);
    StoreIndexOk(db);
    WrittenIsBare(db, p, i, body, challenge, expires);
    NextChallengeIsNew(db, p, i);
    WriteKeeps(db, p, i, body, challenge, expires);
    NoFutureJobs(w, i, generation);
    QueuedChallenge(w, p, i, generation, body.nonce, challenge, now, expires);
    k := JobKey(w.nextCursor, i, generation);
    QueuedExpires(PutAccepted(db, p, i, body, policy, now, challenge), i, generation, body.nonce, challenge, k);
    PruneKeepsNewest(PutAccepted(db, p, i, body, policy, now, challenge), policy, now, i, generation, body.nonce, challenge, k);
    PutKeeps(db, p, i, body, policy, now, challenge);
    PutWrites(db, p, i, body, policy, now, challenge);
    OnlyThatJob(Put(db, p, i, body, policy, now, challenge).0, i, generation, body.nonce, challenge, k);
  }

  lemma QueuedExpires(db: Db, i: Installation, generation: nat, nonce: string, challenge: string, k: JobKey)
    requires ChallengeQueued(db, i, generation, nonce, challenge, k)
    ensures k.event in db.events
  {
  }

  lemma NoFutureJobs(db: Db, i: Installation, generation: nat)
    requires StoreOk(db)
    ensures JobKey(db.nextCursor, i, generation) !in db.outbox
  {
    hide RowsOk, ChallengesOk, LeasesOk;
    assert forall k :: k in db.outbox ==> JobOk(db, k);
  }

  lemma OnlyThatJob(db: Db, i: Installation, generation: nat, nonce: string, challenge: string, k: JobKey)
    requires StoreOk(db) && ChallengeQueued(db, i, generation, nonce, challenge, k)
    ensures forall j :: j in db.outbox && j.installation == i ==> j == k
  {
    hide RowsOk, ChallengesOk, LeasesOk;
    assert JobOk(db, k);
    forall j | j in db.outbox && j.installation == i
      ensures j == k
    {
      assert JobOk(db, j);
      assert db.events[j.event].key == db.events[k.event].key;
    }
  }

  /** Whatever happens after a registration was accepted: only its own owner, with the very challenge that was
      pushed, can confirm its generation. */
  lemma OnlyThePushedProofActivates(db: Db, p: Principal, i: Installation, body: Body, policy: Policy, now: int, challenge: string,
                                    more: seq<Op>, q: Principal, proof: string, current: Policy, durable: set<string>, later: int)
    requires StoreOk(db) && Put(db, p, i, body, policy, now, challenge).1.Accepted?
    requires var (after, reply) := Put(db, p, i, body, policy, now, challenge);
             Confirm(After(after, more), q, i, reply.generation, proof, current, durable, later).1.Accepted?
    ensures q == p && proof == challenge && later < now + policy.challengeTtl
  {
    hide StoreOk, After, Put;
    var after := Put(db, p, i, body, policy, now, challenge).0;
    PutKeeps(db, p, i, body, policy, now, challenge);
    PutWrites(db, p, i, body, policy, now, challenge);
    PutGeneration(db, p, i, body, policy, now, challenge);
    RunLater(after, more);
  }

  lemma PutGeneration(db: Db, p: Principal, i: Installation, body: Body, policy: Policy, now: int, challenge: string)
    requires Put(db, p, i, body, policy, now, challenge).1.Accepted?
    ensures Put(db, p, i, body, policy, now, challenge).1.generation == NextGeneration(db, i)
  {
  }

  /** A generation is confirmed once: every later proof for it is refused, over any run. */
  lemma ConfirmedOnce(db: Db, p: Principal, i: Installation, generation: nat, proof: string, policy: Policy, durable: set<string>, now: int,
                      more: seq<Op>, q: Principal, again: string, current: Policy, known: set<string>, later: int)
    requires StoreOk(db) && Confirm(db, p, i, generation, proof, policy, durable, now).1.Accepted?
    ensures var after := Confirm(db, p, i, generation, proof, policy, durable, now).0;
            Confirm(After(after, more), q, i, generation, again, current, known, later).1
              == Refused(if q == p then 409 else 404)
  {
    hide StoreOk, After;
    var after := Confirm(db, p, i, generation, proof, policy, durable, now).0;
    ConfirmKeeps(db, p, i, generation, proof, policy, durable, now);
    RunLater(after, more);
  }

  // ---- Waiting ----

  /** Until its lease runs out no other worker is offered the job, and each retry waits at least as long as
      the one before, never more than five minutes. */
  lemma LeaseExcludes(db: Db, k: JobKey, maxAttempts: nat, now: int, later: int)
    requires k in db.outbox && later < now + 30
    ensures !Due(Lease(db, k, now).outbox[k], maxAttempts, later)
  {
  }

  lemma {:induction false} PowersGrow(m: nat, n: nat)
    requires m <= n
    ensures 1 <= Pow2(m) <= Pow2(n)
    decreases n
  {
    if m < n {
      PowersGrow(m, n - 1);
    } else if m > 0 {
      PowersGrow(m - 1, n - 1);
    }
  }

  lemma RetriesBackOff(m: nat, n: nat)
    requires m <= n
    ensures 1 <= RetryDelay(m) <= RetryDelay(n) <= 300
    ensures RetryDelay(m) < 300 ==> RetryDelay(m) == Pow2(m)
    ensures m >= 9 ==> RetryDelay(m) == 300
  {
    PowersGrow(0, m);
    PowersGrow(m, n);
    if m >= 9 {
      PowersGrow(9, m);
      assert Pow2(9) == 512;
    }
  }
}
