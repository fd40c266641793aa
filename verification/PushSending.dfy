/** Any number of senders claim and send concurrently, and may die at any point. */
module PushSending {
  import opened Basics
  import opened PushTypes
  import opened PushModel
  import opened PushInvariant
  import opened PushRuns

  /** One request that left the server; `settled` when its permanent answer was committed. */
  datatype Sent = Sent(token: nat, job: JobKey, settled: bool)

  /** The store, the jobs in workers' hands by lease token, and everything sent so far. */
  datatype World = World(db: Db, held: map<nat, JobKey>, log: seq<Sent>)

  datatype Step =
    | Transact(op: Op)
    | Claim(pick: Option<JobKey>, policy: Policy, now: int)
    | Deliver(token: nat, policy: Policy, durable: set<string>, stopping: bool, code: int, now: int, commits: bool)
    | Die(token: nat)

  predicate IsOther(op: Op) {
    !op.ClaimOp? && !op.DeliverOp?
  }

  /** Workers act only on jobs they hold; a claim takes the oldest due job. */
  ghost predicate Possible(w: World, step: Step) {
    match step
    case Transact(op) => IsOther(op)
    case Claim(pick, policy, now) => Enabled(w.db, ClaimOp(pick, policy, now))
    case Deliver(token, _, _, _, _, _, _) => token in w.held
    case Die(token) => token in w.held
  }

  function DeliverAs(w: World, step: Step): Op
    requires step.Deliver? && step.token in w.held
  {
    DeliverOp(w.held[step.token], step.token, step.policy, step.durable, step.stopping, step.code, step.now)
  }

  predicate SendsNow(w: World, step: Step)
    requires step.Deliver? && step.token in w.held
  {
    Sends(w.db, w.held[step.token], step.token, step.policy, step.durable, step.stopping, step.now)
  }

  /** A worker uses its job at most once; if it dies between the answer and the commit, the send has
      happened and the store has not changed. */
  function Next(w: World, step: Step): World {
    match step
    case Transact(op) => w.(db := Apply(w.db, op))
    case Claim(pick, policy, now) =>
      var db := Apply(w.db, ClaimOp(pick, policy, now));
      if pick.Some? then World(db, w.held[w.db.nextToken := pick.value], w.log) else w.(db := db)
    case Deliver(token, _, _, _, code, _, commits) =>
      if token !in w.held then w
      else
        World(if commits then Apply(w.db, DeliverAs(w, step)) else w.db,
              w.held - {token},
              if SendsNow(w, step) then w.log + [Sent(token, w.held[token], commits && Permanent(code))] else w.log)
    case Die(token) => w.(held := w.held - {token})
  }

  function Play(w: World, steps: seq<Step>): World {
    if steps == [] then w else Next(Play(w, steps[..|steps| - 1]), steps[|steps| - 1])
  }

  ghost predicate Plays(w: World, steps: seq<Step>) {
    forall j :: 0 <= j < |steps| ==> Possible(Play(w, steps[..j]), steps[j])
  }

  function Count(log: seq<Sent>, k: JobKey): nat {
    if log == [] then 0 else Count(log[..|log| - 1], k) + if log[|log| - 1].job == k then 1 else 0
  }

  ghost predicate Logged(log: seq<Sent>, token: nat) {
    exists j :: 0 <= j < |log| && log[j].token == token
  }

  // ---- When a job can still be sent ----

  /** The job's event stands uncancelled and its registration is still at the job's generation. */
  predicate Live(db: Db, k: JobKey) {
    && k.event in db.events && !db.events[k.event].cancelled
    && k.installation in db.registrations && db.registrations[k.installation].generation == k.generation
    && db.registrations[k.installation].status != Revoked
    && (db.events[k.event].key.source.ChallengeFor? ==> db.registrations[k.installation].status == Pending)
  }

  /** The job names an event and a generation that have existed. */
  predicate Known(db: Db, k: JobKey) {
    k.event < db.nextCursor && k.installation in db.registrations && k.generation <= db.registrations[k.installation].generation
  }

  lemma KnownStays(db: Db, db': Db, k: JobKey)
    requires Later(db, db') && Known(db, k)
    ensures Known(db', k)
  {
  }

  /** A job that can no longer be sent never can be again. */
  lemma DeadStays(db: Db, db': Db, k: JobKey)
    requires Later(db, db') && Known(db, k) && !Live(db, k)
    ensures !Live(db', k)
  {
  }

  predicate Kept(db: Db, db': Db, k: JobKey)
    requires k in db'.outbox
  {
    k in db.outbox && db'.outbox[k].attempts == db.outbox[k].attempts && db'.outbox[k].lease == db.outbox[k].lease
    && (db.outbox[k].done ==> db'.outbox[k].done)
  }

  predicate Fresh(db: Db, db': Db, k: JobKey)
    requires k in db'.outbox
  {
    db'.outbox[k].attempts == 0 && db'.outbox[k].lease == None && (k in db.outbox ==> !Live(db', k))
  }

  /** Without claims and sends the outbox only keeps jobs, adds fresh ones, and drops dead ones. */
  ghost predicate OutboxStep(db: Db, db': Db) {
    && (forall k :: k in db'.outbox ==> Kept(db, db', k) || Fresh(db, db', k))
    && (forall k :: k in db.outbox && k !in db'.outbox ==> !Live(db', k))
  }

  lemma JobKnown(db: Db, k: JobKey)
    requires StoreOk(db) && k in db.outbox
    ensures Known(db, k)
  {
    assert JobOk(db, k);
  }

  lemma OutboxStepTransitive(a: Db, b: Db, c: Db)
    requires StoreOk(a) && StoreOk(b) && Later(a, b) && Later(b, c) && OutboxStep(a, b) && OutboxStep(b, c)
    ensures OutboxStep(a, c)
  {
    hide StoreOk, Later, Live, Known;
    forall k | k in c.outbox
      ensures Kept(a, c, k) || Fresh(a, c, k)
    {
      if k in a.outbox {
        JobKnown(a, k);
        KnownStays(a, b, k);
        if !Live(b, k) {
          DeadStays(b, c, k);
        }
      }
    }
    forall k | k in a.outbox && k !in c.outbox
      ensures !Live(c, k)
    {
      JobKnown(a, k);
      KnownStays(a, b, k);
      if !Live(b, k) {
        DeadStays(b, c, k);
      }
    }
  }

  lemma PruneOutbox(db: Db, policy: Policy, now: int)
    ensures OutboxStep(db, Prune(db, policy, now))
  {
  }

  lemma WriteOutbox(db: Db, p: Principal, i: Installation, body: Body, challenge: string, expires: int)
    requires StoreOk(db) && body.revision >= 0 && PutScope(body).Some?
    ensures OutboxStep(db, WriteRegistration(db, p, i, body, challenge, expires))
  {
    forall k | k in db.outbox
      ensures k.installation == i ==> k.generation < NextGeneration(db, i)
    {
      assert JobOk(db, k);
    }
  }

  lemma QueueChallengeOutbox(db: Db, p: Principal, i: Installation, generation: nat, nonce: string, challenge: string, now: int, expires: int)
    ensures OutboxStep(db, QueueChallenge(db, p, i, generation, nonce, challenge, now, expires))
  {
  }

  lemma PutOutbox(db: Db, p: Principal, i: Installation, body: Body, policy: Policy, now: int, challenge: string)
    requires StoreOk(db)
    ensures OutboxStep(db, Put(db, p, i, body, policy, now, challenge).0)
  {
    hide StoreOk, QueueChallenge, WriteRegistration, Prune, Later, OutboxStep;
    var expires := now + policy.challengeTtl;
    if PutRefusal(db, p, i, body, policy).None? {
      var written := WriteRegistration(db, p, i, body, challenge, expires);
      var accepted := PutAccepted(db, p, i, body, policy, now, challenge);
      WriteOutbox(db, p, i, body, challenge, expires);
      WriteLater(db, p, i, body, policy, challenge, expires);
      WriteKeeps(db, p, i, body, challenge, expires);
      QueueChallengeOutbox(written, p, i, NextGeneration(db, i), body.nonce, challenge, now, expires);
      QueueChallengeAfterWrite(db, p, i, body, policy, challenge, now, expires);
      OutboxStepTransitive(db, written, accepted);
      LaterTransitive(db, written, accepted);
      PutAcceptedKeeps(db, p, i, body, policy, now, challenge);
      PruneOutbox(accepted, policy, now);
      PruneLater(accepted, policy, now);
      OutboxStepTransitive(db, accepted, Prune(accepted, policy, now));
    } else {
      Unchanged(db);
    }
  }

  lemma Unchanged(db: Db)
    ensures OutboxStep(db, db)
  {
  }

  lemma QueueChallengeAfterWrite(db: Db, p: Principal, i: Installation, body: Body, policy: Policy, challenge: string, now: int, expires: int)
    requires StoreOk(db) && PutRefusal(db, p, i, body, policy).None?
    ensures Later(WriteRegistration(db, p, i, body, challenge, expires),
                  QueueChallenge(WriteRegistration(db, p, i, body, challenge, expires), p, i, NextGeneration(db, i), body.nonce, challenge, now, expires))
  {
    WriteKeeps(db, p, i, body, challenge, expires);
    hide WriteRegistration, QueueChallenge, Later;
    QueueChallengeLater(WriteRegistration(db, p, i, body, challenge, expires), p, i, NextGeneration(db, i), body.nonce, challenge, now, expires);
  }

  lemma ConfirmOutbox(db: Db, op: Op)
    requires StoreOk(db) && op.ConfirmOp?
    ensures OutboxStep(db, Apply(db, op))
  {
    forall k | k in db.outbox
      ensures JobOk(db, k)
    {
    }
  }

  lemma RevokeOutbox(db: Db, op: Op)
    requires StoreOk(db) && op.RevokeOp?
    ensures OutboxStep(db, Apply(db, op))
  {
    hide StoreOk;
    forall k | k in db.outbox
      ensures JobOk(db, k)
    {
      LeaseHasAuthority(db, k);
    }
  }

  lemma CancelOutbox(db: Db, sessionId: string, request: Option<string>)
    ensures OutboxStep(db, CancelAttention(db, sessionId, request))
  {
  }

  lemma NoteOutbox(db: Db, hook: Hook, policy: Policy, now: int)
    ensures OutboxStep(db, Note(db, hook, policy, now))
  {
    var a := AttentionKey(hook.sessionId, hook.reference);
    CancelOutbox(UpsertAttention(db, a, hook.kind == InputResolved, now + policy.ttl * 2), hook.sessionId, Some(hook.reference));
    CancelOutbox(db, hook.sessionId, None);
    hide CancelAttention;
  }

  lemma RecordForOutbox(db: Db, i: Installation, hook: Hook, targets: Option<map<Installation, nat>>, policy: Policy, now: int, expires: int)
    ensures OutboxStep(db, RecordFor(db, i, hook, targets, policy, now, expires))
  {
  }

  lemma {:induction false} RecordAllOutbox(db: Db, order: seq<Installation>, hook: Hook, targets: Option<map<Installation, nat>>,
                                           policy: Policy, now: int, expires: int)
    requires StoreOk(db)
    ensures OutboxStep(db, RecordAll(db, order, hook, targets, policy, now, expires))
  {
    hide StoreOk, OutboxStep, Later, RecordFor;
    if order == [] {
      Unchanged(db);
    } else {
      var front := order[..|order| - 1];
      var before := RecordAll(db, front, hook, targets, policy, now, expires);
      RecordAllOutbox(db, front, hook, targets, policy, now, expires);
      RecordAllLater(db, front, hook, targets, policy, now, expires);
      RecordAllKeeps(db, front, hook, targets, policy, now, expires);
      RecordForOutbox(before, order[|order| - 1], hook, targets, policy, now, expires);
      RecordForLater(before, order[|order| - 1], hook, targets, policy, now, expires);
      OutboxStepTransitive(db, before, RecordAll(db, order, hook, targets, policy, now, expires));
    }
  }

  lemma RecordOutbox(db: Db, order: seq<Installation>, hook: Hook, targets: Option<map<Installation, nat>>, policy: Policy, now: int, expires: int)
    requires StoreOk(db)
    ensures OutboxStep(db, Record(db, order, hook, targets, policy, now, expires))
  {
    hide StoreOk, OutboxStep, Later, Prune, Note, RecordAll;
    var pruned := Prune(db, policy, now);
    var noted := Note(pruned, hook, policy, now);
    var all := RecordAll(noted, order, hook, targets, policy, now, expires);
    Unchanged(db);
    PruneKeeps(db, policy, now);
    PruneLater(db, policy, now);
    PruneOutbox(db, policy, now);
    NoteKeeps(pruned, hook, policy, now);
    NoteLater(pruned, hook, policy, now);
    NoteOutbox(pruned, hook, policy, now);
    LaterTransitive(db, pruned, noted);
    OutboxStepTransitive(db, pruned, noted);
    RecordAllKeeps(noted, order, hook, targets, policy, now, expires);
    RecordAllLater(noted, order, hook, targets, policy, now, expires);
    RecordAllOutbox(noted, order, hook, targets, policy, now, expires);
    LaterTransitive(db, noted, all);
    OutboxStepTransitive(db, noted, all);
    PruneLater(all, policy, now);
    PruneOutbox(all, policy, now);
    OutboxStepTransitive(db, all, Prune(all, policy, now));
  }

  lemma OtherOutbox(db: Db, op: Op)
    requires StoreOk(db) && IsOther(op)
    ensures OutboxStep(db, Apply(db, op))
  {
    hide StoreOk, OutboxStep, Put, Confirm, Revoke, Record, Reopen;
    match op
    case PutOp(p, i, body, policy, now, challenge) => PutOutbox(db, p, i, body, policy, now, challenge);
    case ConfirmOp(_, _, _, _, _, _, _) => ConfirmOutbox(db, op);
    case RevokeOp(_, _, _) => RevokeOutbox(db, op);
    case RecordOp(order, hook, targets, policy, now, expires) => RecordOutbox(db, order, hook, targets, policy, now, expires);
    case ReopenOp =>
      ReopenAgainChangesNothing(db);
      Unchanged(db);
  }

  // ---- The claim protocol ----

  /** A lease whose token has not been used to send. */
  ghost predicate Open(w: World, k: JobKey)
    requires k in w.db.outbox
  {
    w.db.outbox[k].lease.Some? && !Logged(w.log, w.db.outbox[k].lease.value)
  }

  ghost predicate TokensOk(w: World) {
    && (forall t :: t in w.held ==> t < w.db.nextToken && !Logged(w.log, t))
    && (forall j :: 0 <= j < |w.log| ==> w.log[j].token < w.db.nextToken && Known(w.db, w.log[j].job))
    && (forall i, j :: 0 <= i < j < |w.log| ==> w.log[i].token != w.log[j].token)
  }

  /** Sends of a job never outnumber its claims, of which there are at most `most`. */
  ghost predicate CountOk(w: World, most: nat, k: JobKey) {
    && Count(w.log, k) <= most
    && (Live(w.db, k) ==>
          if k in w.db.outbox then
            w.db.outbox[k].attempts <= most
            && Count(w.log, k) + (if Open(w, k) then 1 else 0) <= w.db.outbox[k].attempts
          else Count(w.log, k) == 0)
  }

  ghost predicate SettledOk(w: World) {
    && (forall j :: 0 <= j < |w.log| && w.log[j].settled ==>
          !Live(w.db, w.log[j].job) || (w.log[j].job in w.db.outbox && w.db.outbox[w.log[j].job].done))
    && (forall i, j :: 0 <= i < j < |w.log| && w.log[i].settled ==> w.log[i].job != w.log[j].job)
  }

  ghost predicate SendingOk(w: World, most: nat) {
    StoreOk(w.db) && TokensOk(w) && (forall k :: CountOk(w, most, k)) && SettledOk(w)
  }

  lemma {:induction false} CountedIsKnown(w: World, log: seq<Sent>, k: JobKey)
    requires forall j :: 0 <= j < |log| ==> Known(w.db, log[j].job)
    ensures Count(log, k) > 0 ==> Known(w.db, k)
  {
    if log != [] {
      CountedIsKnown(w, log[..|log| - 1], k);
    }
  }

  lemma CountAppends(log: seq<Sent>, sent: Sent, k: JobKey)
    ensures Count(log + [sent], k) == Count(log, k) + if sent.job == k then 1 else 0
  {
    assert (log + [sent])[..|log|] == log;
  }

  /** A store step without claims and sends keeps every job's account. */
  lemma StepKeepsCount(w: World, db': Db, most: nat, k: JobKey)
    requires SendingOk(w, most) && Later(w.db, db') && OutboxStep(w.db, db')
    ensures CountOk(w.(db := db'), most, k)
  {
    hide StoreOk, Later, Live, SettledOk, Known;
    assert CountOk(w, most, k);
    CountedIsKnown(w, w.log, k);
    if k in w.db.outbox {
      JobKnown(w.db, k);
    }
    if Known(w.db, k) && !Live(w.db, k) {
      DeadStays(w.db, db', k);
    }
  }

  lemma StepKeepsTokens(w: World, db': Db)
    requires TokensOk(w) && Later(w.db, db')
    ensures TokensOk(w.(db := db'))
  {
    hide Later, Known;
    assert w.db.nextToken <= db'.nextToken by { LaterTokens(w.db, db'); }
    forall j | 0 <= j < |w.log|
      ensures Known(db', w.log[j].job)
    {
      KnownStays(w.db, db', w.log[j].job);
    }
  }

  lemma LaterTokens(db: Db, db': Db)
    requires Later(db, db')
    ensures db.nextToken <= db'.nextToken
  {
  }

  lemma StepKeepsSettled(w: World, db': Db, most: nat)
    requires SendingOk(w, most) && Later(w.db, db') && OutboxStep(w.db, db')
    ensures SettledOk(w.(db := db'))
  {
    hide StoreOk, Later, Live, Known;
    forall j | 0 <= j < |w.log| && w.log[j].settled
      ensures !Live(db', w.log[j].job) || (w.log[j].job in db'.outbox && db'.outbox[w.log[j].job].done)
    {
      var k := w.log[j].job;
      assert Known(w.db, k);
      if !Live(w.db, k) {
        DeadStays(w.db, db', k);
      } else if k in db'.outbox {
        assert Kept(w.db, db', k) || Fresh(w.db, db', k);
      }
    }
  }

  lemma TransactKeeps(w: World, op: Op, most: nat)
    requires SendingOk(w, most) && IsOther(op)
    ensures SendingOk(Next(w, Transact(op)), most)
  {
    hide StoreOk, Later, OutboxStep, Apply, CountOk, TokensOk, SettledOk;
    var db' := Apply(w.db, op);
    ApplyKeeps(w.db, op);
    ApplyLater(w.db, op);
    OtherOutbox(w.db, op);
    StepKeepsTokens(w, db');
    StepKeepsSettled(w, db', most);
    forall k
      ensures CountOk(w.(db := db'), most, k)
    {
      StepKeepsCount(w, db', most, k);
    }
  }

  // ---- Claims ----

  lemma PreparedOutbox(db: Db, policy: Policy, now: int)
    ensures OutboxStep(db, ClaimPrepared(db, policy, now))
    ensures Later(db, ClaimPrepared(db, policy, now))
    ensures ClaimPrepared(db, policy, now).nextToken == db.nextToken
  {
    PruneOutbox(db, policy, now);
    PruneLater(db, policy, now);
  }

  lemma PreparedKeeps(w: World, policy: Policy, now: int, most: nat)
    requires SendingOk(w, most)
    ensures SendingOk(w.(db := ClaimPrepared(w.db, policy, now)), most)
  {
    hide StoreOk, Later, OutboxStep, ClaimPrepared, CountOk, TokensOk, SettledOk;
    var db' := ClaimPrepared(w.db, policy, now);
    PreparedOutbox(w.db, policy, now);
    ClaimPreparedKeeps(w.db, policy, now);
    StepKeepsTokens(w, db');
    StepKeepsSettled(w, db', most);
    forall k
      ensures CountOk(w.(db := db'), most, k)
    {
      StepKeepsCount(w, db', most, k);
    }
  }

  lemma LeaseLater(db: Db, k: JobKey, now: int)
    requires k in db.outbox
    ensures Later(db, Lease(db, k, now))
    ensures forall j :: Live(Lease(db, k, now), j) == Live(db, j)
  {
  }

  function Leased(w: World, k: JobKey, now: int): World
    requires k in w.db.outbox
  {
    World(Lease(w.db, k, now), w.held[w.db.nextToken := k], w.log)
  }

  lemma LeasedKeepsTokens(w: World, k: JobKey, now: int)
    requires TokensOk(w) && k in w.db.outbox
    ensures TokensOk(Leased(w, k, now))
  {
    LeaseLater(w.db, k, now);
    StepKeepsTokens(w, Lease(w.db, k, now));
    hide Known;
  }

  lemma LeasedKeepsCount(w: World, k: JobKey, now: int, most: nat, j: JobKey)
    requires CountOk(w, most, j) && k in w.db.outbox && w.db.outbox[k].attempts < most
    ensures CountOk(Leased(w, k, now), most, j)
  {
    LeaseLater(w.db, k, now);
    hide Live;
  }

  lemma LeaseKeepsSending(w: World, k: JobKey, now: int, most: nat)
    requires SendingOk(w, most) && k in w.db.outbox && !w.db.outbox[k].done && w.db.outbox[k].attempts < most
    ensures SendingOk(Leased(w, k, now), most)
  {
    hide StoreOk, CountOk, TokensOk, Live;
    LeaseKeeps(w.db, k, now);
    LeaseLater(w.db, k, now);
    LeasedKeepsTokens(w, k, now);
    forall j
      ensures CountOk(Leased(w, k, now), most, j)
    {
      LeasedKeepsCount(w, k, now, most, j);
    }
  }

  lemma ClaimKeepsSending(w: World, step: Step, most: nat)
    requires SendingOk(w, most) && step.Claim? && Possible(w, step) && step.policy.maxAttempts <= most
    ensures SendingOk(Next(w, step), most)
  {
    hide SendingOk, ClaimPrepared, Lease;
    PreparedKeeps(w, step.policy, step.now, most);
    var prepared := w.(db := ClaimPrepared(w.db, step.policy, step.now));
    PreparedOutbox(w.db, step.policy, step.now);
    if step.pick.Some? {
      LeaseKeepsSending(prepared, step.pick.value, step.now, most);
    }
  }

  // ---- Sends ----

  lemma DropKeeps(w: World, token: nat, most: nat)
    requires SendingOk(w, most)
    ensures SendingOk(w.(held := w.held - {token}), most)
  {
    hide StoreOk, Live, Known;
    var w' := w.(held := w.held - {token});
    forall k
      ensures CountOk(w', most, k)
    {
      assert CountOk(w, most, k);
    }
  }

  /** A delivery keeps jobs, gives up at most their leases, and drops only dead ones. */
  ghost predicate DeliverStep(db: Db, db': Db) {
    && (forall j :: j in db'.outbox ==> Delivered(db, db', j))
    && (forall j :: j in db.outbox && j !in db'.outbox ==> !Live(db', j))
  }

  predicate Delivered(db: Db, db': Db, j: JobKey)
    requires j in db'.outbox
  {
    j in db.outbox && db'.outbox[j].attempts == db.outbox[j].attempts
    && (db'.outbox[j].lease == db.outbox[j].lease || db'.outbox[j].lease == None)
    && (db.outbox[j].done ==> db'.outbox[j].done)
  }

  lemma DeliverOutbox(db: Db, k: JobKey, token: nat, policy: Policy, durable: set<string>, stopping: bool, code: int, now: int)
    requires StoreOk(db)
    ensures DeliverStep(db, PushModel.Deliver(db, k, token, policy, durable, stopping, code, now))
  {
    hide StoreOk, Permitted;
    if LeaseHolds(db, k, token) {
      LeaseHasAuthority(db, k);
    }
  }

  lemma DeliveredKeepsCount(w: World, db': Db, most: nat, k: JobKey)
    requires SendingOk(w, most) && Later(w.db, db') && DeliverStep(w.db, db')
    ensures CountOk(w.(db := db'), most, k)
  {
    hide StoreOk, Later, Live, Known, SettledOk;
    assert CountOk(w, most, k);
    CountedIsKnown(w, w.log, k);
    if k in w.db.outbox {
      JobKnown(w.db, k);
    }
    if Known(w.db, k) && !Live(w.db, k) {
      DeadStays(w.db, db', k);
    }
  }

  lemma DeliveredKeepsSettled(w: World, db': Db, most: nat)
    requires SendingOk(w, most) && Later(w.db, db') && DeliverStep(w.db, db')
    ensures SettledOk(w.(db := db'))
  {
    hide StoreOk, Later, Live, Known;
    forall j | 0 <= j < |w.log| && w.log[j].settled
      ensures !Live(db', w.log[j].job) || (w.log[j].job in db'.outbox && db'.outbox[w.log[j].job].done)
    {
      var k := w.log[j].job;
      assert Known(w.db, k);
      if !Live(w.db, k) {
        DeadStays(w.db, db', k);
      } else if k in db'.outbox {
        assert Delivered(w.db, db', k);
      }
    }
  }

  lemma DeliveryKeeps(w: World, op: Op, most: nat)
    requires SendingOk(w, most) && op.DeliverOp?
    ensures SendingOk(w.(db := Apply(w.db, op)), most)
  {
    hide StoreOk, Later, DeliverStep, CountOk, TokensOk, SettledOk, Apply;
    var db' := Apply(w.db, op);
    assert db' == PushModel.Deliver(w.db, op.job, op.token, op.policy, op.durable, op.stopping, op.code, op.now) by {
      ApplyDeliver(w.db, op);
    }
    ApplyKeeps(w.db, op);
    ApplyLater(w.db, op);
    DeliverOutbox(w.db, op.job, op.token, op.policy, op.durable, op.stopping, op.code, op.now);
    StepKeepsTokens(w, db');
    DeliveredKeepsSettled(w, db', most);
    forall k
      ensures CountOk(w.(db := db'), most, k)
    {
      DeliveredKeepsCount(w, db', most, k);
    }
  }

  lemma ApplyDeliver(db: Db, op: Op)
    requires op.DeliverOp?
    ensures Apply(db, op) == PushModel.Deliver(db, op.job, op.token, op.policy, op.durable, op.stopping, op.code, op.now)
  {
  }

  /** Handing in the token and noting the send. */
  function Noted(w: World, token: nat, k: JobKey, settled: bool): World {
    World(w.db, w.held - {token}, w.log + [Sent(token, k, settled)])
  }

  lemma NotedLogs(w: World, token: nat, k: JobKey, settled: bool, t: nat)
    ensures Logged(Noted(w, token, k, settled).log, t) <==> Logged(w.log, t) || t == token
  {
    var log := Noted(w, token, k, settled).log;
    assert log[|w.log|].token == token;
    if Logged(w.log, t) {
      var j :| 0 <= j < |w.log| && w.log[j].token == t;
      assert log[j] == w.log[j];
    }
  }

  lemma NotedKeepsTokens(w: World, token: nat, k: JobKey)
    requires TokensOk(w) && token in w.held && Known(w.db, k)
    ensures TokensOk(Noted(w, token, k, false))
  {
    hide Known;
    var w' := Noted(w, token, k, false);
    forall t | t in w'.held
      ensures t < w'.db.nextToken && !Logged(w'.log, t)
    {
      NotedLogs(w, token, k, false, t);
    }
    forall i, j | 0 <= i < j < |w'.log|
      ensures w'.log[i].token != w'.log[j].token
    {
      if j == |w.log| {
        assert w'.log[i] == w.log[i];
        assert !Logged(w.log, token);
      }
    }
  }

  lemma NotedKeepsCount(w: World, token: nat, k: JobKey, most: nat, j: JobKey)
    requires StoreOk(w.db) && TokensOk(w) && CountOk(w, most, j) && token in w.held && LeaseHolds(w.db, k, token) && Live(w.db, k)
    ensures CountOk(Noted(w, token, k, false), most, j)
  {
    CountAppends(w.log, Sent(token, k, false), j);
    LeaseIsOneRow(w.db, k, j, token);
    hide StoreOk, Live;
    if j in w.db.outbox && w.db.outbox[j].lease.Some? {
      NotedLogs(w, token, k, false, w.db.outbox[j].lease.value);
    }
  }

  lemma LeaseIsOneRow(db: Db, k: JobKey, j: JobKey, token: nat)
    requires StoreOk(db) && LeaseHolds(db, k, token)
    ensures j in db.outbox && db.outbox[j].lease == Some(token) ==> j == k
  {
  }

  lemma NotedKeepsSettled(w: World, token: nat, k: JobKey, most: nat)
    requires SendingOk(w, most) && LeaseHolds(w.db, k, token) && Live(w.db, k)
    ensures SettledOk(Noted(w, token, k, false))
  {
    hide StoreOk, Live, CountOk, TokensOk;
    var w' := Noted(w, token, k, false);
    forall i, j | 0 <= i < j < |w'.log| && w'.log[i].settled
      ensures w'.log[i].job != w'.log[j].job
    {
      assert w'.log[i] == w.log[i];
    }
  }

  lemma NotedKeeps(w: World, token: nat, k: JobKey, most: nat)
    requires SendingOk(w, most) && token in w.held && LeaseHolds(w.db, k, token) && Live(w.db, k)
    ensures SendingOk(Noted(w, token, k, false), most)
  {
    hide StoreOk, CountOk, TokensOk, SettledOk, Live;
    JobKnown(w.db, k);
    NotedKeepsTokens(w, token, k);
    NotedKeepsSettled(w, token, k, most);
    forall j
      ensures CountOk(Noted(w, token, k, false), most, j)
    {
      NotedKeepsCount(w, token, k, most, j);
    }
  }

  lemma PermittedIsLive(db: Db, k: JobKey, policy: Policy, durable: set<string>, stopping: bool, now: int)
    requires StoreOk(db) && k in db.outbox && Permitted(db, k, policy, durable, stopping, now)
    ensures Live(db, k)
  {
    LeaseHasAuthority(db, k);
  }

  /** A permanent answer leaves the job done or its registration revoked. */
  lemma PermanentSettles(db: Db, k: JobKey, code: int, now: int)
    requires k in db.outbox && k.installation in db.registrations && Permanent(code)
    ensures !Live(AfterSend(db, k, code, now), k)
         || (k in AfterSend(db, k, code, now).outbox && AfterSend(db, k, code, now).outbox[k].done)
  {
  }

  lemma SettleLast(w: World, most: nat)
    requires SendingOk(w, most) && |w.log| > 0
    requires var k := w.log[|w.log| - 1].job; !Live(w.db, k) || (k in w.db.outbox && w.db.outbox[k].done)
    ensures var last := w.log[|w.log| - 1];
            SendingOk(w.(log := w.log[..|w.log| - 1] + [last.(settled := true)]), most)
  {
    hide StoreOk, Live, Known;
    var last := w.log[|w.log| - 1];
    var w' := w.(log := w.log[..|w.log| - 1] + [last.(settled := true)]);
    assert w.log == w.log[..|w.log| - 1] + [last];
    assert forall j :: 0 <= j < |w.log| ==> w'.log[j].token == w.log[j].token && w'.log[j].job == w.log[j].job;
    forall k
      ensures CountOk(w', most, k)
    {
      SettledCounts(w, w', k);
      CountAppends(w.log[..|w.log| - 1], last, k);
      CountAppends(w.log[..|w.log| - 1], last.(settled := true), k);
      assert CountOk(w, most, k);
    }
    assert TokensOk(w') by {
      forall t
        ensures Logged(w.log, t) <==> Logged(w'.log, t)
      {
        SameTokens(w.log, w'.log, t);
      }
    }
  }

  lemma SameTokens(log: seq<Sent>, log': seq<Sent>, t: nat)
    requires |log| == |log'| && forall j :: 0 <= j < |log| ==> log'[j].token == log[j].token
    ensures Logged(log, t) <==> Logged(log', t)
  {
  }

  lemma SettledCounts(w: World, w': World, k: JobKey)
    requires w'.db == w.db && |w.log| == |w'.log| && forall j :: 0 <= j < |w.log| ==> w'.log[j].token == w.log[j].token
    ensures k in w.db.outbox ==> Open(w, k) == Open(w', k)
  {
    if k in w.db.outbox && w.db.outbox[k].lease.Some? {
      SameTokens(w.log, w'.log, w.db.outbox[k].lease.value);
    }
  }

  lemma SendKeeps(w: World, step: Step, most: nat)
    requires SendingOk(w, most) && step.Deliver? && step.token in w.held && SendsNow(w, step)
    ensures SendingOk(Next(w, step), most)
  {
    hide SendingOk, Apply, Permitted, Live, AfterSend;
    var k, op := w.held[step.token], DeliverAs(w, step);
    SendingIsStore(w, most);
    PermittedIsLive(w.db, k, step.policy, step.durable, step.stopping, step.now);
    var noted := Noted(w, step.token, k, false);
    NotedKeeps(w, step.token, k, most);
    if step.commits {
      DeliveryKeeps(noted, op, most);
      var sent := noted.(db := Apply(noted.db, op));
      if Permanent(step.code) {
        LeaseHasAuthority(w.db, k);
        PermanentSettles(w.db, k, step.code, step.now);
        ApplyDeliver(w.db, op);
        SettleLast(sent, most);
        assert sent.log[..|sent.log| - 1] == w.log;
      }
    }
  }

  lemma SendingIsStore(w: World, most: nat)
    requires SendingOk(w, most)
    ensures StoreOk(w.db)
  {
  }

  lemma NextKeeps(w: World, step: Step, most: nat)
    requires SendingOk(w, most) && Possible(w, step) && (step.Claim? ==> step.policy.maxAttempts <= most)
    ensures SendingOk(Next(w, step), most)
  {
    hide SendingOk, Apply;
    match step
    case Transact(op) => TransactKeeps(w, op, most);
    case Claim(_, _, _) => ClaimKeepsSending(w, step, most);
    case Die(token) => DropKeeps(w, token, most);
    case Deliver(token, _, _, _, _, _, _) =>
      if SendsNow(w, step) {
        SendKeeps(w, step, most);
      } else {
        DropKeeps(w, token, most);
        if step.commits {
          DeliveryKeeps(w.(held := w.held - {token}), DeliverAs(w, step), most);
        }
      }
  }

  ghost predicate AtMost(steps: seq<Step>, most: nat) {
    forall j :: 0 <= j < |steps| && steps[j].Claim? ==> steps[j].policy.maxAttempts <= most
  }

  lemma {:induction false} PlayKeeps(w: World, steps: seq<Step>, most: nat)
    requires SendingOk(w, most) && Plays(w, steps) && AtMost(steps, most)
    ensures SendingOk(Play(w, steps), most)
  {
    hide SendingOk, Next, Possible;
    if steps != [] {
      var front := steps[..|steps| - 1];
      assert forall j :: 0 <= j < |front| ==> front[j] == steps[j] && front[..j] == steps[..j];
      PlayKeeps(w, front, most);
      assert Possible(Play(w, front), steps[|steps| - 1]);
      NextKeeps(Play(w, front), steps[|steps| - 1], most);
    }
  }

  /** No workers yet, and no job claimed more than `most` times before. */
  function Opening(db: Db): World {
    World(db, map[], [])
  }

  lemma OpeningOk(db: Db, most: nat)
    requires StoreOk(db) && forall k :: k in db.outbox ==> db.outbox[k].attempts <= most
    requires forall k :: k in db.outbox ==> db.outbox[k].lease.Some? ==> db.outbox[k].attempts >= 1
    ensures SendingOk(Opening(db), most)
  {
    hide StoreOk, Live;
  }

  /** Over every interleaving of any number of workers, clients and observers, with crashes, rollbacks and
      lease expiry: a token sends at most once, a job is sent at most `most` times, nothing follows a
      committed permanent answer, one token at most fits a job, and a token in hand has sent nothing. What becomes
      of a worker whose lease was taken over is said by `TakenOverNeverCommits`. */
  lemma {:induction false} SendingIsBounded(start: Db, steps: seq<Step>, most: nat)
    requires StoreOk(start) && forall k :: k in start.outbox ==> start.outbox[k].attempts <= most
    requires forall k :: k in start.outbox ==> start.outbox[k].lease.Some? ==> start.outbox[k].attempts >= 1
    requires Plays(Opening(start), steps) && AtMost(steps, most)
    ensures var w := Play(Opening(start), steps);
            && (forall i, j :: 0 <= i < j < |w.log| ==> w.log[i].token != w.log[j].token)
            && (forall k :: Count(w.log, k) <= most)
            && (forall i, j :: 0 <= i < j < |w.log| && w.log[i].settled ==> w.log[i].job != w.log[j].job)
            && (forall s, t, k :: s in w.held && t in w.held && LeaseHolds(w.db, k, s) && LeaseHolds(w.db, k, t) ==> s == t)
            && (forall t :: t in w.held ==> !Logged(w.log, t))
  {
    OpeningOk(start, most);
    PlayKeeps(Opening(start), steps, most);
    hide StoreOk, Play, Live, Known;
    var w := Play(Opening(start), steps);
    forall k
      ensures Count(w.log, k) <= most
    {
      assert CountOk(w, most, k);
    }
  }

  // ---- A lease that was taken over ----

  /** The token was handed out, and the job is not leased under it (any longer). */
  predicate Lost(db: Db, k: JobKey, token: nat) {
    token < db.nextToken && !(k in db.outbox && db.outbox[k].lease == Some(token))
  }

  /** Leases are kept, given up, or taken under tokens never handed out before. */
  ghost predicate LeasesMove(db: Db, db': Db) {
    && db.nextToken <= db'.nextToken
    && forall k :: k in db'.outbox && db'.outbox[k].lease.Some? && db'.outbox[k].lease.value < db.nextToken ==>
         k in db.outbox && db.outbox[k].lease == db'.outbox[k].lease
  }

  lemma OutboxMovesLeases(db: Db, db': Db)
    requires OutboxStep(db, db') && Later(db, db')
    ensures LeasesMove(db, db')
  {
    hide Live;
  }

  lemma ClaimMovesLeases(db: Db, op: Op)
    requires op.ClaimOp?
    ensures LeasesMove(db, Apply(db, op))
  {
    hide PruneEvents, DeleteExpiredAttention, DeleteAllButNewestAttention, CascadeIndex;
  }

  lemma ApplyMovesLeases(db: Db, op: Op)
    requires StoreOk(db)
    ensures LeasesMove(db, Apply(db, op))
  {
    hide StoreOk, OutboxStep, Later, Apply, LeasesMove;
    ApplyLater(db, op);
    if op.ClaimOp? {
      ClaimMovesLeases(db, op);
    } else if op.DeliverOp? {
      ApplyDeliver(db, op);
      DeliverOutbox(db, op.job, op.token, op.policy, op.durable, op.stopping, op.code, op.now);
      DeliverMovesLeases(db, Apply(db, op));
    } else {
      OtherOutbox(db, op);
      OutboxMovesLeases(db, Apply(db, op));
    }
  }

  lemma DeliverMovesLeases(db: Db, db': Db)
    requires DeliverStep(db, db') && Later(db, db')
    ensures LeasesMove(db, db')
  {
    hide Live;
  }

  /** Claiming a job takes it over from whoever held it. */
  lemma ReclaimTakesOver(w: World, token: nat, policy: Policy, now: int)
    requires token in w.held && token < w.db.nextToken && Possible(w, Claim(Some(w.held[token]), policy, now))
    ensures Lost(Next(w, Claim(Some(w.held[token]), policy, now)).db, w.held[token], token)
  {
    hide PruneEvents, CascadeIndex, CascadeJobs, DeleteExpiredAttention, DeleteAllButNewestAttention, FinishExhausted;
    var k := w.held[token];
    var prepared := ClaimPrepared(w.db, policy, now);
    assert Lease(prepared, k, now).outbox[k].lease == Some(w.db.nextToken);
  }

  lemma NextStaysLost(w: World, step: Step, k: JobKey, token: nat)
    requires StoreOk(w.db) && Lost(w.db, k, token)
    ensures StoreOk(Next(w, step).db) && Lost(Next(w, step).db, k, token)
  {
    hide StoreOk, Apply;
    match step
    case Transact(op) =>
      ApplyKeeps(w.db, op);
      ApplyMovesLeases(w.db, op);
    case Claim(pick, policy, now) =>
      ApplyKeeps(w.db, ClaimOp(pick, policy, now));
      ApplyMovesLeases(w.db, ClaimOp(pick, policy, now));
    case Deliver(t, _, _, _, _, _, _) =>
      if t in w.held {
        ApplyKeeps(w.db, DeliverAs(w, step));
        ApplyMovesLeases(w.db, DeliverAs(w, step));
      }
    case Die(_) =>
  }

  /** A worker whose lease was taken over, or whose job is gone, never sends and never commits anything: its token
      fits its job at no later time, so its delivery leaves the store as it is. */
  lemma {:induction false} TakenOverNeverCommits(w: World, more: seq<Step>, step: Step)
    requires StoreOk(w.db) && step.Deliver? && step.token in w.held && Lost(w.db, w.held[step.token], step.token)
    ensures var v, k := Play(w, more), w.held[step.token];
            && Lost(v.db, k, step.token) && StoreOk(v.db)
            && !Sends(v.db, k, step.token, step.policy, step.durable, step.stopping, step.now)
            && PushModel.Deliver(v.db, k, step.token, step.policy, step.durable, step.stopping, step.code, step.now) == v.db
  {
    hide StoreOk, Next, Permitted, AfterSend;
    if more != [] {
      TakenOverNeverCommits(w, more[..|more| - 1], step);
      NextStaysLost(Play(w, more[..|more| - 1]), more[|more| - 1], w.held[step.token], step.token);
    }
  }
}
