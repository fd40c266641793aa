/** An observer's event is pushed only under the consents captured when it was observed, however long it
    waits in the inbox and whatever is granted, renewed or revoked meanwhile. */
module PushAdmission {
  import opened Basics
  import opened PushTypes
  import opened PushModel
  import opened PushInvariant
  import opened PushRuns

  /** An event with the authority captured for it. */
  datatype Captured = Captured(hook: Hook, targets: map<Installation, nat>)

  /** The store, and everything ever captured: what waits in the inbox is among it. */
  datatype Observed = Observed(db: Db, captured: set<Captured>)

  datatype Step =
    | Observe(hook: Hook, seenUnder: Policy)
    | RecordCaptured(entry: Captured, order: seq<Installation>, policy: Policy, now: int, expires: int)
    | Server(op: Op)

  ghost predicate Possible(o: Observed, step: Step) {
    match step
    case Observe(_, _) => true
    case RecordCaptured(entry, _, _, _, _) => entry in o.captured
    case Server(op) => !op.RecordOp?
  }

  function Next(o: Observed, step: Step): Observed {
    match step
    case Observe(hook, policy) => o.(captured := o.captured + {Captured(hook, Targets(o.db, hook, policy))})
    case RecordCaptured(entry, order, policy, now, expires) =>
      o.(db := Record(o.db, order, entry.hook, Some(entry.targets), policy, now, expires))
    case Server(op) => o.(db := Apply(o.db, op))
  }

  function Play(start: Db, steps: seq<Step>): Observed {
    if steps == [] then Observed(start, {}) else Next(Play(start, steps[..|steps| - 1]), steps[|steps| - 1])
  }

  ghost predicate Plays(start: Db, steps: seq<Step>) {
    forall j :: 0 <= j < |steps| ==> Possible(Play(start, steps[..j]), steps[j])
  }

  /** Step `j` observed the hook while the installation was active at that generation and consented to it. */
  ghost predicate AdmittedAt(start: Db, steps: seq<Step>, hook: Hook, i: Installation, generation: nat, j: int) {
    && 0 <= j < |steps| && steps[j].Observe? && steps[j].hook == hook
    && var db := Play(start, steps[..j]).db;
       Target(db, i, hook, steps[j].seenUnder) && db.registrations[i].generation == generation
  }

  ghost predicate Admitted(start: Db, steps: seq<Step>, hook: Hook, i: Installation, generation: nat) {
    exists j :: AdmittedAt(start, steps, hook, i, generation, j)
  }

  lemma AdmittedStays(start: Db, steps: seq<Step>, step: Step, hook: Hook, i: Installation, generation: nat)
    requires Admitted(start, steps, hook, i, generation)
    ensures Admitted(start, steps + [step], hook, i, generation)
  {
    var j :| AdmittedAt(start, steps, hook, i, generation, j);
    assert (steps + [step])[..j] == steps[..j];
    assert AdmittedAt(start, steps + [step], hook, i, generation, j);
  }

  // ---- New jobs ----

  predicate JobFor(db: Db, k: JobKey, hook: Hook, targets: Option<map<Installation, nat>>) {
    k.event in db.events && db.events[k.event].key.source == FromHook(hook) && PushModel.Captured(targets, k.installation, k.generation)
  }

  /** Every job that `db'` has and `db` has not is for this hook and captured. */
  ghost predicate OnlyAdds(db: Db, db': Db, hook: Hook, targets: Option<map<Installation, nat>>) {
    forall k :: k in db'.outbox && k !in db.outbox ==> JobFor(db', k, hook, targets)
  }

  lemma InsertAdds(db: Db, key: EventKey, now: int, expires: int)
    requires StoreOk(db)
    ensures var (db', c) := InsertEvent(db, key, now, expires);
            && c in db'.events && db'.events[c].key == key && db'.outbox == db.outbox
            && forall d :: d in db.events ==> d in db'.events && db'.events[d].key == db.events[d].key
  {
    StoreIndexOk(db);
    hide StoreOk;
  }

  lemma RecordForAdds(db: Db, i: Installation, hook: Hook, targets: Option<map<Installation, nat>>, policy: Policy, now: int, expires: int)
    requires StoreOk(db)
    ensures OnlyAdds(db, RecordFor(db, i, hook, targets, policy, now, expires), hook, targets)
    ensures forall k :: JobFor(db, k, hook, targets) ==> JobFor(RecordFor(db, i, hook, targets, policy, now, expires), k, hook, targets)
  {
    hide StoreOk, InsertEvent, AllowsHook;
    if Queues(db, i, hook, targets, policy) {
      InsertAdds(db, EventKey(db.registrations[i].owner, FromHook(hook)), now, expires);
    }
  }

  lemma {:induction false} RecordAllAdds(db: Db, order: seq<Installation>, hook: Hook, targets: Option<map<Installation, nat>>,
                                         policy: Policy, now: int, expires: int)
    requires StoreOk(db)
    ensures OnlyAdds(db, RecordAll(db, order, hook, targets, policy, now, expires), hook, targets)
  {
    hide StoreOk, RecordFor, JobFor;
    if order != [] {
      var front := order[..|order| - 1];
      RecordAllAdds(db, front, hook, targets, policy, now, expires);
      RecordAllKeeps(db, front, hook, targets, policy, now, expires);
      RecordForAdds(RecordAll(db, front, hook, targets, policy, now, expires), order[|order| - 1], hook, targets, policy, now, expires);
    }
  }

  lemma NoteAddsNone(db: Db, hook: Hook, policy: Policy, now: int)
    ensures forall k :: k in Note(db, hook, policy, now).outbox ==> k in db.outbox
  {
  }

  lemma PruneAddsNone(db: Db, policy: Policy, now: int)
    ensures forall k :: k in Prune(db, policy, now).outbox ==> k in db.outbox && k.event in Prune(db, policy, now).events
    ensures forall c :: c in Prune(db, policy, now).events ==> c in db.events && Prune(db, policy, now).events[c] == db.events[c]
  {
  }

  lemma RecordAdds(db: Db, order: seq<Installation>, hook: Hook, targets: Option<map<Installation, nat>>, policy: Policy, now: int, expires: int)
    requires StoreOk(db)
    ensures OnlyAdds(db, Record(db, order, hook, targets, policy, now, expires), hook, targets)
  {
    hide StoreOk, Prune, Note, RecordAll, AlreadyResolved;
    var pruned := Prune(db, policy, now);
    var noted := Note(pruned, hook, policy, now);
    PruneKeeps(db, policy, now);
    PruneAddsNone(db, policy, now);
    NoteKeeps(pruned, hook, policy, now);
    NoteAddsNone(pruned, hook, policy, now);
    RecordAllAdds(noted, order, hook, targets, policy, now, expires);
    PruneAddsNone(RecordAll(noted, order, hook, targets, policy, now, expires), policy, now);
  }

  /** Outside the observers only a registration adds a job, and that is a challenge. */
  lemma ServerAddsChallenges(db: Db, op: Op)
    requires StoreOk(db) && !op.RecordOp?
    ensures forall k :: k in Apply(db, op).outbox && k !in db.outbox ==>
              k.event in Apply(db, op).events && Apply(db, op).events[k.event].key.source.ChallengeFor?
  {
    hide StoreOk, Put, Deliver, Reopen, Prune;
    match op
    case PutOp(p, i, body, policy, now, challenge) => PutAddsChallenge(db, p, i, body, policy, now, challenge);
    case ClaimOp(_, policy, now) => PruneAddsNone(db, policy, now);
    case DeliverOp(job, token, policy, durable, stopping, code, now) => DeliverAddsNone(db, job, token, policy, durable, stopping, code, now);
    case ReopenOp => ReopenAgainChangesNothing(db);
    case _ =>
  }

  lemma DeliverAddsNone(db: Db, k: JobKey, token: nat, policy: Policy, durable: set<string>, stopping: bool, code: int, now: int)
    ensures forall j :: j in Deliver(db, k, token, policy, durable, stopping, code, now).outbox ==> j in db.outbox
  {
    hide Permitted;
  }

  lemma QueueChallengeAdds(db: Db, p: Principal, i: Installation, generation: nat, nonce: string, challenge: string, now: int, expires: int)
    requires IndexOk(db)
    ensures var db' := QueueChallenge(db, p, i, generation, nonce, challenge, now, expires);
            forall k :: k in db'.outbox && k !in db.outbox ==> k.event in db'.events && db'.events[k.event].key.source.ChallengeFor?
  {
  }

  lemma PutAddsChallenge(db: Db, p: Principal, i: Installation, body: Body, policy: Policy, now: int, challenge: string)
    requires StoreOk(db)
    ensures var db' := Put(db, p, i, body, policy, now, challenge).0;
            forall k :: k in db'.outbox && k !in db.outbox ==> k.event in db'.events && db'.events[k.event].key.source.ChallengeFor?
  {
    hide StoreOk, QueueChallenge, Prune;
    if PutRefusal(db, p, i, body, policy).None? {
      var expires := now + policy.challengeTtl;
      var written := WriteRegistration(db, p, i, body, challenge, expires);
      WriteKeeps(db, p, i, body, challenge, expires);
      StoreIndexOk(written);
      QueueChallengeAdds(written, p, i, NextGeneration(db, i), body.nonce, challenge, now, expires);
      PruneAddsNone(PutAccepted(db, p, i, body, policy, now, challenge), policy, now);
    }
  }

  // ---- Runs ----

  /** A job that was not there at the start is a challenge, or for an admitted hook. */
  ghost predicate Justified(start: Db, steps: seq<Step>, db: Db, k: JobKey)
    requires k.event in db.events
  {
    k in start.outbox || db.events[k.event].key.source.ChallengeFor?
    || Admitted(start, steps, db.events[k.event].key.source.hook, k.installation, k.generation)
  }

  ghost predicate AdmissionOk(start: Db, steps: seq<Step>, o: Observed) {
    && StoreOk(o.db)
    && (forall entry, i :: entry in o.captured && i in entry.targets ==> Admitted(start, steps, entry.hook, i, entry.targets[i]))
    && (forall k :: k in o.db.outbox ==> k.event in o.db.events && Justified(start, steps, o.db, k))
  }

  lemma ObserveAdmits(start: Db, steps: seq<Step>, hook: Hook, policy: Policy, i: Installation)
    requires i in Targets(Play(start, steps).db, hook, policy)
    ensures Admitted(start, steps + [Observe(hook, policy)], hook, i, Targets(Play(start, steps).db, hook, policy)[i])
  {
    var all := steps + [Observe(hook, policy)];
    assert all[..|steps|] == steps && all[|steps|] == Observe(hook, policy);
    assert AdmittedAt(start, all, hook, i, Targets(Play(start, steps).db, hook, policy)[i], |steps|);
  }

  lemma NextIsLater(o: Observed, step: Step)
    requires StoreOk(o.db)
    ensures StoreOk(Next(o, step).db) && Later(o.db, Next(o, step).db)
  {
    hide StoreOk, Later, Apply, Record;
    match step
    case Observe(_, _) => SameIsLater(o.db);
    case RecordCaptured(entry, order, policy, now, expires) =>
      RecordKeeps(o.db, order, entry.hook, Some(entry.targets), policy, now, expires);
      RecordLater(o.db, order, entry.hook, Some(entry.targets), policy, now, expires);
    case Server(op) =>
      ApplyKeeps(o.db, op);
      ApplyLater(o.db, op);
  }

  lemma SameIsLater(db: Db)
    requires StoreOk(db)
    ensures Later(db, db)
  {
  }

  /** A new job of the next step is justified by what has been captured. */
  lemma NewJobIsJustified(start: Db, steps: seq<Step>, o: Observed, step: Step, k: JobKey)
    requires AdmissionOk(start, steps, o) && Possible(o, step)
    requires k in Next(o, step).db.outbox && k !in o.db.outbox && k.event in Next(o, step).db.events
    ensures Justified(start, steps, Next(o, step).db, k)
  {
    hide StoreOk, Apply, Record, Admitted;
    match step
    case Observe(_, _) =>
    case RecordCaptured(entry, order, policy, now, expires) =>
      RecordAdds(o.db, order, entry.hook, Some(entry.targets), policy, now, expires);
      assert JobFor(Next(o, step).db, k, entry.hook, Some(entry.targets));
    case Server(op) => ServerAddsChallenges(o.db, op);
  }

  lemma EventStays(db: Db, db': Db, c: nat)
    requires StoreOk(db) && Later(db, db') && c in db.events && c in db'.events
    ensures db'.events[c].key == db.events[c].key
  {
  }

  lemma JobHasEvent(db: Db, k: JobKey)
    requires StoreOk(db) && k in db.outbox
    ensures k.event in db.events
  {
    LeaseHasAuthority(db, k);
  }

  lemma JustifiedStays(start: Db, steps: seq<Step>, o: Observed, step: Step, k: JobKey)
    requires AdmissionOk(start, steps, o) && Possible(o, step) && k in Next(o, step).db.outbox
    ensures k.event in Next(o, step).db.events && Justified(start, steps + [step], Next(o, step).db, k)
  {
    hide StoreOk, Next, Possible, Later, Admitted;
    var o' := Next(o, step);
    NextIsLater(o, step);
    JobHasEvent(o'.db, k);
    if k in o.db.outbox {
      EventStays(o.db, o'.db, k.event);
    } else {
      NewJobIsJustified(start, steps, o, step, k);
    }
    var source := o'.db.events[k.event].key.source;
    if source.FromHook? && Admitted(start, steps, source.hook, k.installation, k.generation) {
      AdmittedStays(start, steps, step, source.hook, k.installation, k.generation);
    }
  }

  lemma {:induction false} CapturedStays(start: Db, steps: seq<Step>, step: Step, entry: Captured, i: Installation)
    requires AdmissionOk(start, steps, Play(start, steps)) && entry in Next(Play(start, steps), step).captured && i in entry.targets
    ensures Admitted(start, steps + [step], entry.hook, i, entry.targets[i])
  {
    hide StoreOk, Apply, Record, Admitted, Targets, Justified;
    var o := Play(start, steps);
    if entry in o.captured {
      AdmittedStays(start, steps, step, entry.hook, i, entry.targets[i]);
    } else {
      ObserveAdmits(start, steps, step.hook, step.seenUnder, i);
    }
  }

  lemma {:induction false} PlayAdmits(start: Db, steps: seq<Step>)
    requires StoreOk(start) && Plays(start, steps)
    ensures AdmissionOk(start, steps, Play(start, steps))
  {
    if steps == [] {
      forall k | k in start.outbox
        ensures k.event in start.events
      {
        JobHasEvent(start, k);
      }
    } else {
      hide StoreOk, Next, Possible, Admitted, Justified;
      var front, step := steps[..|steps| - 1], steps[|steps| - 1];
      assert steps == front + [step];
      assert forall j :: 0 <= j < |front| ==> front[j] == steps[j] && front[..j] == steps[..j];
      PlayAdmits(start, front);
      assert Possible(Play(start, front), step);
      var before, after := Play(start, front), Play(start, steps);
      assert after == Next(before, step);
      hide Play;
      NextIsLater(before, step);
      forall entry, i | entry in after.captured && i in entry.targets
        ensures Admitted(start, steps, entry.hook, i, entry.targets[i])
      {
        CapturedStays(start, front, step, entry, i);
      }
      forall k | k in after.db.outbox
        ensures k.event in after.db.events && Justified(start, steps, after.db, k)
      {
        JustifiedStays(start, front, before, step, k);
      }
    }
  }

  lemma {:induction false} PrefixIsEarlier(start: Db, steps: seq<Step>, j: nat)
    requires StoreOk(start) && j <= |steps|
    ensures StoreOk(Play(start, steps[..j]).db) && Later(Play(start, steps[..j]).db, Play(start, steps).db)
    decreases |steps|
  {
    hide StoreOk, Next, Later;
    if j == |steps| {
      assert steps[..j] == steps;
      if j > 0 {
        PrefixIsEarlier(start, steps[..j - 1], j - 1);
        assert steps[..j - 1][..j - 1] == steps[..j - 1];
        NextIsLater(Play(start, steps[..j - 1]), steps[j - 1]);
      }
      SameIsLater(Play(start, steps).db);
    } else {
      var front := steps[..|steps| - 1];
      assert front[..j] == steps[..j];
      PrefixIsEarlier(start, front, j);
      PrefixIsEarlier(start, front, |front|);
      assert front[..|front|] == front;
      NextIsLater(Play(start, front), steps[|steps| - 1]);
      LaterTransitive(Play(start, steps[..j]).db, Play(start, front).db, Play(start, steps).db);
    }
  }

  /** A job ever queued for a hook was admitted: at some earlier observation of that hook its installation
      was active, at the job's generation, and consented; and it is still that very registration. */
  lemma AdmissionOnlyNarrows(start: Db, steps: seq<Step>, k: JobKey) returns (j: int)
    requires StoreOk(start) && Plays(start, steps)
    requires k in Play(start, steps).db.outbox && k !in start.outbox
    requires k.event in Play(start, steps).db.events && Play(start, steps).db.events[k.event].key.source.FromHook?
    ensures var db := Play(start, steps).db;
            var hook := db.events[k.event].key.source.hook;
            && AdmittedAt(start, steps, hook, k.installation, k.generation, j)
            && k.installation in db.registrations
            && db.registrations[k.installation] == Play(start, steps[..j]).db.registrations[k.installation]
  {
    hide StoreOk, Next, Possible;
    PlayAdmits(start, steps);
    var db := Play(start, steps).db;
    var hook := db.events[k.event].key.source.hook;
    j :| AdmittedAt(start, steps, hook, k.installation, k.generation, j);
    PrefixIsEarlier(start, steps, j);
    LeaseHasAuthority(db, k);
  }
}
