/** Draining the inbox with crashes between recording an entry and removing it: exactly when no crash shows,
    and a reachable store in which one does. */
module PushCrash {
  import opened Basics
  import opened PushTypes
  import opened PushModel
  import opened PushInvariant
  import opened PushRuns
  import opened PushConfluence
  import opened PushDrain
  import opened PushReplay

  // ---- What every transaction keeps ----

  lemma InsertKeepsInputs(db: Db, key: EventKey, now: int, expires: int)
    requires OnlyInputsCancelled(db)
    ensures OnlyInputsCancelled(InsertEvent(db, key, now, expires).0)
  {
  }

  lemma PutKeepsInputs(db: Db, p: Principal, i: Installation, body: Body, policy: Policy, now: int, challenge: string)
    requires OnlyInputsCancelled(db) && Numbered(db)
    ensures OnlyInputsCancelled(Put(db, p, i, body, policy, now, challenge).0) && Numbered(Put(db, p, i, body, policy, now, challenge).0)
  {
    hide OnlyInputsCancelled, Numbered, WriteRegistration, QueueChallenge, Prune;
    if PutRefusal(db, p, i, body, policy).None? {
      var expires := now + policy.challengeTtl;
      var written := WriteRegistration(db, p, i, body, challenge, expires);
      WriteKeepsInputs(db, p, i, body, challenge, expires);
      QueueChallengeKeepsInputs(written, p, i, NextGeneration(db, i), body.nonce, challenge, now, expires);
      PruneKeepsSettledInputs(PutAccepted(db, p, i, body, policy, now, challenge), policy, now);
      PrunedNumbers(PutAccepted(db, p, i, body, policy, now, challenge), policy, now);
    }
  }

  lemma WriteKeepsInputs(db: Db, p: Principal, i: Installation, body: Body, challenge: string, expires: int)
    requires OnlyInputsCancelled(db) && Numbered(db) && body.revision >= 0 && PutScope(body).Some?
    ensures var w := WriteRegistration(db, p, i, body, challenge, expires); OnlyInputsCancelled(w) && Numbered(w)
  {
  }

  lemma QueueChallengeKeepsInputs(db: Db, p: Principal, i: Installation, generation: nat, nonce: string, challenge: string, now: int, expires: int)
    requires OnlyInputsCancelled(db) && Numbered(db)
    ensures var q := QueueChallenge(db, p, i, generation, nonce, challenge, now, expires); OnlyInputsCancelled(q) && Numbered(q)
  {
    InsertKeepsInputs(db, EventKey(p, ChallengeFor(i, generation)), now, expires);
  }

  lemma NoteKeepsInputs(db: Db, hook: Hook, policy: Policy, now: int)
    requires OnlyInputsCancelled(db) && Numbered(db)
    ensures OnlyInputsCancelled(Note(db, hook, policy, now)) && Numbered(Note(db, hook, policy, now))
  {
    hide DeleteJobsOfCancelled;
  }

  lemma RecordForKeepsInputs(db: Db, i: Installation, hook: Hook, targets: Option<map<Installation, nat>>, policy: Policy, now: int, expires: int)
    requires OnlyInputsCancelled(db) && Numbered(db)
    ensures var r := RecordFor(db, i, hook, targets, policy, now, expires); OnlyInputsCancelled(r) && Numbered(r)
  {
    hide AllowsHook, Captured;
    if Queues(db, i, hook, targets, policy) {
      InsertKeepsInputs(db, EventKey(db.registrations[i].owner, FromHook(hook)), now, expires);
    }
  }

  lemma {:induction false} RecordAllKeepsInputs(db: Db, order: seq<Installation>, hook: Hook, targets: Option<map<Installation, nat>>,
                                                policy: Policy, now: int, expires: int)
    requires OnlyInputsCancelled(db) && Numbered(db)
    ensures var r := RecordAll(db, order, hook, targets, policy, now, expires); OnlyInputsCancelled(r) && Numbered(r)
  {
    if order != [] {
      hide OnlyInputsCancelled, Numbered, RecordFor;
      RecordAllKeepsInputs(db, order[..|order| - 1], hook, targets, policy, now, expires);
      RecordForKeepsInputs(RecordAll(db, order[..|order| - 1], hook, targets, policy, now, expires), order[|order| - 1], hook, targets, policy, now, expires);
    }
  }

  lemma RecordKeepsInputs(db: Db, order: seq<Installation>, hook: Hook, targets: Option<map<Installation, nat>>, policy: Policy, now: int, expires: int)
    requires OnlyInputsCancelled(db) && Numbered(db)
    ensures var r := Record(db, order, hook, targets, policy, now, expires); OnlyInputsCancelled(r) && Numbered(r)
  {
    hide OnlyInputsCancelled, Numbered, Prune, Note, RecordAll;
    var pruned := Prune(db, policy, now);
    var noted := Note(pruned, hook, policy, now);
    var all := RecordAll(noted, order, hook, targets, policy, now, expires);
    PruneKeepsSettledInputs(db, policy, now);
    PrunedNumbers(db, policy, now);
    NoteKeepsInputs(pruned, hook, policy, now);
    RecordAllKeepsInputs(noted, order, hook, targets, policy, now, expires);
    PruneKeepsSettledInputs(all, policy, now);
    PrunedNumbers(all, policy, now);
  }

  lemma DeliverKeepsInputs(db: Db, k: JobKey, token: nat, policy: Policy, durable: set<string>, stopping: bool, code: int, now: int)
    requires OnlyInputsCancelled(db) && Numbered(db)
    ensures var r := Deliver(db, k, token, policy, durable, stopping, code, now); OnlyInputsCancelled(r) && Numbered(r)
  {
    hide Permitted;
  }

  lemma AuthorityKeepsInputs(db: Db, op: Op)
    requires OnlyInputsCancelled(db) && Numbered(db) && (op.ConfirmOp? || op.RevokeOp?)
    ensures OnlyInputsCancelled(Apply(db, op)) && Numbered(Apply(db, op))
  {
    hide DeleteJobsOf;
  }

  lemma ClaimKeepsInputs(db: Db, op: Op)
    requires OnlyInputsCancelled(db) && Numbered(db) && op.ClaimOp?
    ensures OnlyInputsCancelled(Apply(db, op)) && Numbered(Apply(db, op))
  {
    hide Prune, FinishExhausted;
    PruneKeepsSettledInputs(db, op.policy, op.now);
    PrunedNumbers(db, op.policy, op.now);
  }

  lemma ApplyKeepsReplayOk(db: Db, op: Op)
    requires ReplayOk(db)
    ensures ReplayOk(Apply(db, op))
  {
    ApplyKeeps(db, op);
    hide StoreOk, OnlyInputsCancelled, Numbered, Put, Confirm, Revoke, Record, Deliver, Reopen, ClaimPrepared, Lease;
    match op
    case PutOp(p, i, body, policy, now, challenge) => PutKeepsInputs(db, p, i, body, policy, now, challenge);
    case RecordOp(order, hook, targets, policy, now, expires) => RecordKeepsInputs(db, order, hook, targets, policy, now, expires);
    case DeliverOp(job, token, policy, durable, stopping, code, now) => DeliverKeepsInputs(db, job, token, policy, durable, stopping, code, now);
    case ClaimOp(_, _, _) => ClaimKeepsInputs(db, op);
    case ReopenOp => ReopenAgainChangesNothing(db);
    case _ => AuthorityKeepsInputs(db, op);
  }

  /** In every reachable store attention rows are numbered in order and only inputs and challenges are cancelled. */
  lemma {:induction false} RunKeepsReplayOk(db: Db, ops: seq<Op>)
    requires ReplayOk(db)
    ensures ReplayOk(After(db, ops))
  {
    if ops != [] {
      hide ReplayOk, Apply;
      RunKeepsReplayOk(db, ops[..|ops| - 1]);
      ApplyKeepsReplayOk(After(db, ops[..|ops| - 1]), ops[|ops| - 1]);
    }
  }

  lemma EntryKeepsReplayOk(db: Db, order: seq<Installation>, e: Entry, policy: Policy, now: int)
    requires ReplayOk(db)
    ensures ReplayOk(RecordEntry(db, order, e, policy, now)) && RecordEntry(db, order, e, policy, now).registrations == db.registrations
  {
    hide StoreOk, OnlyInputsCancelled, Numbered, Record;
    RecordKeeps(db, order, e.hook, Some(e.targets), policy, now, e.expires);
    RecordKeepsInputs(db, order, e.hook, Some(e.targets), policy, now, e.expires);
    RecordLeavesRows(db, order, e.hook, Some(e.targets), policy, now, e.expires);
  }

  // ---- Stores that only numbers tell apart ----

  /** The same tables; the counters may differ only where nothing that they number is kept. */
  ghost predicate Twin(a: Db, b: Db, policy: Policy) {
    if policy.maxEvents == 0 then SamePushes(a, b) && a.attention == b.attention
    else SameButNumbers(a, b) && (policy.ttl > 0 ==> a == b)
  }

  lemma TwinsAreSame(a: Db, b: Db, policy: Policy)
    requires Twin(a, b, policy)
    ensures Same(a, b) && a.registrations == b.registrations
  {
    hide Same;
    SameTablesAreSame(a, b);
  }

  lemma TwinTransitive(a: Db, b: Db, c: Db, policy: Policy)
    requires Twin(a, b, policy) && Twin(b, c, policy)
    ensures Twin(a, c, policy)
  {
  }

  lemma RecordForIgnoresAttention(db: Db, m: map<AttentionKey, Attention>, x: nat, i: Installation, e: Entry, policy: Policy, now: int)
    ensures RecordFor(db.(attention := m, nextAttention := x), i, e.hook, Some(e.targets), policy, now, e.expires)
            == RecordFor(db, i, e.hook, Some(e.targets), policy, now, e.expires).(attention := m, nextAttention := x)
  {
    SameQueues(db, db.(attention := m, nextAttention := x), i, e, policy);
    hide Queues, InsertEvent;
    if Queues(db, i, e.hook, Some(e.targets), policy) {
      QueuesListed(db, i, e, policy);
      InsertIgnoresAttention(db, m, x, WantedKey(db, i, e), now, e.expires);
    }
  }

  lemma InsertIgnoresAttention(db: Db, m: map<AttentionKey, Attention>, x: nat, key: EventKey, now: int, expires: int)
    ensures InsertEvent(db.(attention := m, nextAttention := x), key, now, expires)
            == (InsertEvent(db, key, now, expires).0.(attention := m, nextAttention := x), InsertEvent(db, key, now, expires).1)
  {
  }

  lemma {:induction false} RecordAllIgnoresAttention(db: Db, m: map<AttentionKey, Attention>, x: nat, order: seq<Installation>, e: Entry, policy: Policy, now: int)
    ensures RecordAll(db.(attention := m, nextAttention := x), order, e.hook, Some(e.targets), policy, now, e.expires)
            == RecordAll(db, order, e.hook, Some(e.targets), policy, now, e.expires).(attention := m, nextAttention := x)
  {
    if order != [] {
      hide RecordFor;
      var front := order[..|order| - 1];
      RecordAllIgnoresAttention(db, m, x, front, e, policy, now);
      RecordForIgnoresAttention(RecordAll(db, front, e.hook, Some(e.targets), policy, now, e.expires), m, x, order[|order| - 1], e, policy, now);
    }
  }

  lemma CancelIgnoresAttention(db: Db, m: map<AttentionKey, Attention>, x: nat, sessionId: string, request: Option<string>)
    ensures CancelAttention(db.(attention := m, nextAttention := x), sessionId, request)
            == CancelAttention(db, sessionId, request).(attention := m, nextAttention := x)
  {
  }

  lemma NoteIgnoresNumbers(a: Db, b: Db, hook: Hook, policy: Policy, now: int)
    requires SameButNumbers(a, b)
    ensures var n, m := Note(a, hook, policy, now), Note(b, hook, policy, now);
            n == m.(attention := n.attention, nextAttention := n.nextAttention)
  {
    hide CancelAttention, UpsertAttention, ResolveSession;
    var about, resolved, expires := AttentionKey(hook.sessionId, hook.reference), hook.kind == InputResolved, now + policy.ttl * 2;
    var u, v := UpsertAttention(a, about, resolved, expires), UpsertAttention(b, about, resolved, expires);
    UpsertIgnoresNumbers(a, b, about, resolved, expires);
    CancelIgnoresAttention(v, u.attention, u.nextAttention, hook.sessionId, Some(hook.reference));
    CancelIgnoresAttention(b, a.attention, a.nextAttention, hook.sessionId, None);
  }

  lemma UpsertIgnoresNumbers(a: Db, b: Db, about: AttentionKey, resolved: bool, expires: int)
    requires SameButNumbers(a, b)
    ensures var u, v := UpsertAttention(a, about, resolved, expires), UpsertAttention(b, about, resolved, expires);
            u == v.(attention := u.attention, nextAttention := u.nextAttention)
  {
  }

  /** Without a time to live a request that is noted is dropped at once, whatever its number. */
  lemma NotedWithoutTtl(a: Db, b: Db, hook: Hook, policy: Policy, now: int)
    requires SameButNumbers(a, b) && policy.ttl == 0
    ensures PrunedAttention(Note(a, hook, policy, now).attention, policy, now) == PrunedAttention(Note(b, hook, policy, now).attention, policy, now)
  {
    hide Note, DeleteAllButNewestAttention, ResolveSession;
    NoteAttentionIs(a, hook, policy, now);
    NoteAttentionIs(b, hook, policy, now);
    if hook.HasRequest() {
      assert DeleteExpiredAttention(Note(a, hook, policy, now).attention, now) == DeleteExpiredAttention(Note(b, hook, policy, now).attention, now);
    }
  }

  lemma PrunedApart(n: Db, m: Db, policy: Policy, now: int)
    requires n == m.(attention := n.attention, nextAttention := n.nextAttention)
    requires PrunedAttention(n.attention, policy, now) == PrunedAttention(m.attention, policy, now)
    ensures SameButNumbers(Prune(n, policy, now), Prune(m, policy, now))
  {
  }

  lemma ResolvedAlike(a: Db, b: Db, hook: Hook)
    requires a.attention == b.attention
    ensures AlreadyResolved(a, hook) == AlreadyResolved(b, hook)
  {
  }

  lemma EntryWithoutTtl(a: Db, b: Db, order: seq<Installation>, e: Entry, policy: Policy, now: int)
    requires SameButNumbers(a, b) && policy.ttl == 0
    ensures SameButNumbers(RecordEntry(a, order, e, policy, now), RecordEntry(b, order, e, policy, now))
  {
    hide Note, RecordAll, Prune, AlreadyResolved, PrunedAttention;
    PrunedApart(a, b, policy, now);
    var p, q := Prune(a, policy, now), Prune(b, policy, now);
    ResolvedAlike(p, q, e.hook);
    NoteIgnoresNumbers(p, q, e.hook, policy, now);
    NotedWithoutTtl(p, q, e.hook, policy, now);
    var n, m := Note(p, e.hook, policy, now), Note(q, e.hook, policy, now);
    RecordAllIgnoresAttention(m, n.attention, n.nextAttention, order, e, policy, now);
    RecordAllLeavesRows(n, order, e.hook, Some(e.targets), policy, now, e.expires);
    RecordAllLeavesRows(m, order, e.hook, Some(e.targets), policy, now, e.expires);
    PrunedApart(RecordAll(n, order, e.hook, Some(e.targets), policy, now, e.expires),
                RecordAll(m, order, e.hook, Some(e.targets), policy, now, e.expires), policy, now);
  }

  /** Recording the same entry in twins leaves twins. */
  lemma EntryKeepsTwins(a: Db, b: Db, order: seq<Installation>, e: Entry, policy: Policy, now: int)
    requires Twin(a, b, policy)
    ensures Twin(RecordEntry(a, order, e, policy, now), RecordEntry(b, order, e, policy, now), policy)
  {
    hide Record;
    if policy.maxEvents == 0 {
      if now < e.expires {
        PassEmpties(a, order, e, policy, now);
        PassEmpties(b, order, e, policy, now);
      } else {
        ExpiredEntry(a, order, e, policy, now);
        ExpiredEntry(b, order, e, policy, now);
      }
    } else if policy.ttl == 0 {
      EntryWithoutTtl(a, b, order, e, policy, now);
    }
  }

  lemma ExpiredEntry(db: Db, order: seq<Installation>, e: Entry, policy: Policy, now: int)
    requires e.expires <= now
    ensures RecordEntry(db, order, e, policy, now) == db
  {
  }

  /** A replay of a harmless entry leaves a twin of what the first pass left. */
  lemma ReplayIsTwin(db: Db, order: seq<Installation>, again: seq<Installation>, e: Entry, policy: Policy, now: int)
    requires ReplayOk(db) && Lists(order, db) && e.hook.Valid() && Harmless(db, e, policy, now)
    ensures var once := RecordEntry(db, order, e, policy, now); Twin(RecordEntry(once, again, e, policy, now), once, policy)
  {
    hide StoreOk, OnlyInputsCancelled, Numbered, Lists, Record, Harmless;
    if policy.maxEvents > 0 {
      HarmlessReplay(db, order, again, e, policy, now);
    } else if now < e.expires {
      PassEmpties(db, order, e, policy, now);
      PassEmpties(RecordEntry(db, order, e, policy, now), again, e, policy, now);
    } else {
      ExpiredEntry(db, order, e, policy, now);
      ExpiredEntry(db, again, e, policy, now);
    }
  }

  lemma TwinsAreAsHarmless(a: Db, b: Db, e: Entry, policy: Policy, now: int)
    requires Twin(a, b, policy) && Harmless(b, e, policy, now)
    ensures Harmless(a, e, policy, now)
  {
    hide PruneEvents, CascadeIndex, CascadeJobs, DeleteAllButNewestAttention, DeleteExpiredAttention, WantedKeys, HasRoom;
    if policy.maxEvents > 0 {
      SameWantedKeys(a, b, e, policy);
      var p, q := Prune(a, policy, now), Prune(b, policy, now);
      assert forall k: EventKey, n: nat :: HasRoom(p, k, n, policy) == HasRoom(q, k, n, policy) by {
        RoomAlike(p, q, policy);
      }
    }
  }

  lemma RoomAlike(p: Db, q: Db, policy: Policy)
    requires p.index == q.index && p.events == q.events
    ensures forall k: EventKey, n: nat :: HasRoom(p, k, n, policy) == HasRoom(q, k, n, policy)
  {
  }

  // ---- One entry with its replays ----

  /** A first attempt and its replays: each at the same time or when the entry has expired. */
  ghost predicate Replays(db: Db, e: Entry, first: Attempt, tries: seq<Attempt>) {
    && tries != [] && tries[0] == first
    && forall m :: 0 <= m < |tries| ==> ReplayAt(db, e, first, tries[m])
  }

  ghost predicate ReplayAt(db: Db, e: Entry, first: Attempt, t: Attempt) {
    Lists(t.order, db) && (t.now == first.now || t.now >= e.expires)
  }

  lemma {:induction false} AttemptsKeep(db: Db, e: Entry, tries: seq<Attempt>, policy: Policy)
    requires ReplayOk(db)
    ensures ReplayOk(Attempts(db, e, tries, policy)) && Attempts(db, e, tries, policy).registrations == db.registrations
  {
    if tries != [] {
      hide ReplayOk, RecordEntry;
      var last := tries[|tries| - 1];
      AttemptsKeep(db, e, tries[..|tries| - 1], policy);
      EntryKeepsReplayOk(Attempts(db, e, tries[..|tries| - 1], policy), last.order, e, policy, last.now);
    }
  }

  /** Any number of replays of a harmless entry leave a twin of what one pass leaves. */
  lemma {:induction false} ReplaysAreTwins(db: Db, e: Entry, first: Attempt, tries: seq<Attempt>, policy: Policy)
    requires ReplayOk(db) && e.hook.Valid() && Replays(db, e, first, tries) && Harmless(db, e, policy, first.now)
    ensures Twin(Attempts(db, e, tries, policy), RecordEntry(db, first.order, e, policy, first.now), policy)
  {
    hide ReplayOk, Lists, RecordEntry, Harmless, Twin;
    var n := |tries| - 1;
    var once := RecordEntry(db, first.order, e, policy, first.now);
    assert ReplayAt(db, e, first, tries[0]);
    if n == 0 {
      assert tries[..0] == [];
      assert Attempts(db, e, tries[..0], policy) == db;
      TwinOfItself(once, policy);
    } else {
      var before, last := Attempts(db, e, tries[..n], policy), tries[n];
      assert ReplayAt(db, e, first, last);
      ReplaysAreTwins(db, e, first, tries[..n], policy);
      if last.now >= e.expires {
        ExpiredEntry(before, last.order, e, policy, last.now);
      } else {
        EntryKeepsTwins(before, once, last.order, e, policy, last.now);
        ReplayIsTwin(db, first.order, last.order, e, policy, first.now);
        TwinTransitive(RecordEntry(before, last.order, e, policy, last.now), RecordEntry(once, last.order, e, policy, last.now), once, policy);
      }
    }
  }

  lemma TwinOfItself(db: Db, policy: Policy)
    ensures Twin(db, db, policy)
  {
  }

  // ---- The whole drain ----

  /** Each entry recorded once. */
  function Once(clean: seq<Attempt>): (r: seq<seq<Attempt>>)
    ensures |r| == |clean|
  {
    seq(|clean|, j requires 0 <= j < |clean| => [clean[j]])
  }

  function CleanDrain(db: Db, entries: seq<Entry>, clean: seq<Attempt>, policy: Policy): Db
    requires |entries| == |clean|
  {
    Drain(db, entries, Once(clean), policy)
  }

  lemma CleanDrainIs(db: Db, entries: seq<Entry>, clean: seq<Attempt>, policy: Policy)
    requires |entries| == |clean| > 0
    ensures var n := |entries| - 1;
            CleanDrain(db, entries, clean, policy) == RecordEntry(CleanDrain(db, entries[..n], clean[..n], policy), clean[n].order, entries[n], policy, clean[n].now)
  {
    hide RecordEntry;
    var n := |entries| - 1;
    assert Once(clean)[..n] == Once(clean[..n]);
    OneAttempt(CleanDrain(db, entries[..n], clean[..n], policy), entries[n], clean[n], policy);
  }

  lemma OneAttempt(db: Db, e: Entry, t: Attempt, policy: Policy)
    ensures Attempts(db, e, [t], policy) == RecordEntry(db, t.order, e, policy, t.now)
    ensures Attempts(db, e, [t, t], policy) == RecordEntry(RecordEntry(db, t.order, e, policy, t.now), t.order, e, policy, t.now)
  {
    hide RecordEntry;
    assert [t][..0] == [] && [t, t][..1] == [t];
    assert Attempts(db, e, [t][..0], policy) == db;
  }

  /** A drain in which crashes made each entry be recorded again, any number of times. */
  ghost predicate CrashPattern(db: Db, entries: seq<Entry>, clean: seq<Attempt>, tries: seq<seq<Attempt>>) {
    |entries| == |clean| == |tries| && forall j :: 0 <= j < |tries| ==> Replays(db, entries[j], clean[j], tries[j])
  }

  ghost predicate Drainable(db: Db, entries: seq<Entry>, clean: seq<Attempt>) {
    |entries| == |clean| && forall j :: 0 <= j < |entries| ==> entries[j].hook.Valid() && Lists(clean[j].order, db)
  }

  /** Each entry found, in the clean drain, a store that was harmless for it. */
  ghost predicate AllHarmless(db: Db, entries: seq<Entry>, clean: seq<Attempt>, policy: Policy)
    requires |entries| == |clean|
  {
    forall j :: 0 <= j < |entries| ==> HarmlessAt(db, entries, clean, policy, j)
  }

  predicate HarmlessAt(db: Db, entries: seq<Entry>, clean: seq<Attempt>, policy: Policy, j: nat)
    requires |entries| == |clean| && j < |entries|
  {
    Harmless(CleanDrain(db, entries[..j], clean[..j], policy), entries[j], policy, clean[j].now)
  }

  lemma {:induction false} DrainKeeps(db: Db, entries: seq<Entry>, tries: seq<seq<Attempt>>, policy: Policy)
    requires ReplayOk(db) && |entries| == |tries|
    ensures ReplayOk(Drain(db, entries, tries, policy)) && Drain(db, entries, tries, policy).registrations == db.registrations
  {
    if entries != [] {
      hide ReplayOk, Attempts;
      var n := |entries| - 1;
      DrainKeeps(db, entries[..n], tries[..n], policy);
      AttemptsKeep(Drain(db, entries[..n], tries[..n], policy), entries[n], tries[n], policy);
    }
  }

  lemma SameListing(a: Db, b: Db, e: Entry, first: Attempt, tries: seq<Attempt>)
    requires Replays(a, e, first, tries) && a.registrations == b.registrations
    ensures Replays(b, e, first, tries)
  {
    hide Lists;
    forall m | 0 <= m < |tries|
      ensures ReplayAt(b, e, first, tries[m])
    {
      assert ReplayAt(a, e, first, tries[m]);
      ListsAlso(tries[m].order, a, b);
    }
  }

  lemma {:induction false} HarmlessDrain(db: Db, entries: seq<Entry>, clean: seq<Attempt>, tries: seq<seq<Attempt>>, policy: Policy)
    requires ReplayOk(db) && Drainable(db, entries, clean) && CrashPattern(db, entries, clean, tries) && AllHarmless(db, entries, clean, policy)
    ensures Twin(Drain(db, entries, tries, policy), CleanDrain(db, entries, clean, policy), policy)
  {
    hide ReplayOk, Replays, Harmless, Twin, Attempts, CleanDrain, RecordEntry;
    if entries == [] {
      EmptyDrains(db, entries, clean, tries, policy);
    } else {
      var n := |entries| - 1;
      var e, first := entries[n], clean[n];
      var a, b := Drain(db, entries[..n], tries[..n], policy), CleanDrain(db, entries[..n], clean[..n], policy);
      PrefixHarmless(db, entries, clean, policy);
      HarmlessDrain(db, entries[..n], clean[..n], tries[..n], policy);
      assert HarmlessAt(db, entries, clean, policy, n);
      TwinsAreAsHarmless(a, b, e, policy, first.now);
      DrainKeeps(db, entries[..n], tries[..n], policy);
      SameListing(db, a, e, first, tries[n]);
      ReplaysAreTwins(a, e, first, tries[n], policy);
      EntryKeepsTwins(a, b, first.order, e, policy, first.now);
      CleanDrainIs(db, entries, clean, policy);
      TwinTransitive(Drain(db, entries, tries, policy), RecordEntry(a, first.order, e, policy, first.now), CleanDrain(db, entries, clean, policy), policy);
    }
  }

  lemma EmptyDrains(db: Db, entries: seq<Entry>, clean: seq<Attempt>, tries: seq<seq<Attempt>>, policy: Policy)
    requires |entries| == |clean| == |tries| == 0
    ensures Twin(Drain(db, entries, tries, policy), CleanDrain(db, entries, clean, policy), policy)
  {
  }

  lemma PrefixHarmless(db: Db, entries: seq<Entry>, clean: seq<Attempt>, policy: Policy)
    requires |entries| == |clean| > 0 && AllHarmless(db, entries, clean, policy)
    ensures AllHarmless(db, entries[..|entries| - 1], clean[..|entries| - 1], policy)
  {
    hide Harmless, CleanDrain;
    var n := |entries| - 1;
    forall j | 0 <= j < n
      ensures HarmlessAt(db, entries[..n], clean[..n], policy, j)
    {
      assert HarmlessAt(db, entries, clean, policy, j);
      assert entries[..n][..j] == entries[..j] && clean[..n][..j] == clean[..j];
    }
  }

  /** Whatever crashes there were, after `k` entries the store is as a clean drain leaves it. */
  ghost predicate NeverShows(db: Db, entries: seq<Entry>, clean: seq<Attempt>, policy: Policy, k: nat)
    requires |entries| == |clean| && k <= |entries|
  {
    forall tries :: CrashPattern(db, entries[..k], clean[..k], tries) ==>
      Same(Drain(db, entries[..k], tries, policy), CleanDrain(db, entries[..k], clean[..k], policy))
  }

  lemma {:induction false} HarmlessPrefix(db: Db, entries: seq<Entry>, clean: seq<Attempt>, policy: Policy, k: nat)
    requires |entries| == |clean| && k <= |entries| && AllHarmless(db, entries, clean, policy)
    ensures AllHarmless(db, entries[..k], clean[..k], policy)
    decreases |entries|
  {
    hide AllHarmless;
    if k == |entries| {
      assert entries[..k] == entries && clean[..k] == clean;
    } else {
      var n := |entries| - 1;
      PrefixHarmless(db, entries, clean, policy);
      HarmlessPrefix(db, entries[..n], clean[..n], policy, k);
      assert entries[..n][..k] == entries[..k] && clean[..n][..k] == clean[..k];
    }
  }

  lemma HarmlessNeverShows(db: Db, entries: seq<Entry>, clean: seq<Attempt>, policy: Policy, k: nat)
    requires ReplayOk(db) && Drainable(db, entries, clean) && k <= |entries| && AllHarmless(db, entries, clean, policy)
    ensures NeverShows(db, entries, clean, policy, k)
  {
    hide ReplayOk, Replays, Drain, CleanDrain, Same, Twin, Lists, AllHarmless;
    HarmlessPrefix(db, entries, clean, policy, k);
    forall tries | CrashPattern(db, entries[..k], clean[..k], tries)
      ensures Same(Drain(db, entries[..k], tries, policy), CleanDrain(db, entries[..k], clean[..k], policy))
    {
      HarmlessDrain(db, entries[..k], clean[..k], tries, policy);
      TwinsAreSame(Drain(db, entries[..k], tries, policy), CleanDrain(db, entries[..k], clean[..k], policy), policy);
    }
  }

  /** The crash pattern in which only the last of `n` entries is recorded twice. */
  function TwiceAtLast(clean: seq<Attempt>): (tries: seq<seq<Attempt>>)
    requires clean != []
    ensures |tries| == |clean|
  {
    Once(clean[..|clean| - 1]) + [[clean[|clean| - 1], clean[|clean| - 1]]]
  }

  lemma TwiceIsPattern(db: Db, entries: seq<Entry>, clean: seq<Attempt>)
    requires clean != [] && Drainable(db, entries, clean)
    ensures CrashPattern(db, entries, clean, TwiceAtLast(clean))
  {
    hide Lists;
    forall j | 0 <= j < |clean|
      ensures Replays(db, entries[j], clean[j], TwiceAtLast(clean)[j])
    {
      assert Lists(clean[j].order, db);
      assert ReplayAt(db, entries[j], clean[j], clean[j]);
    }
  }

  lemma TwiceDrains(db: Db, entries: seq<Entry>, clean: seq<Attempt>, policy: Policy)
    requires clean != [] && |entries| == |clean|
    ensures var n := |entries| - 1;
            var before := CleanDrain(db, entries[..n], clean[..n], policy);
            var once := RecordEntry(before, clean[n].order, entries[n], policy, clean[n].now);
            && CleanDrain(db, entries, clean, policy) == once
            && Drain(db, entries, TwiceAtLast(clean), policy) == RecordEntry(once, clean[n].order, entries[n], policy, clean[n].now)
  {
    hide RecordEntry, Attempts;
    var n := |entries| - 1;
    CleanDrainIs(db, entries, clean, policy);
    assert TwiceAtLast(clean)[..n] == Once(clean[..n]);
    OneAttempt(CleanDrain(db, entries[..n], clean[..n], policy), entries[n], clean[n], policy);
  }

  lemma ShownTwice(db: Db, entries: seq<Entry>, clean: seq<Attempt>, policy: Policy)
    requires ReplayOk(db) && Drainable(db, entries, clean) && clean != []
    requires Same(Drain(db, entries, TwiceAtLast(clean), policy), CleanDrain(db, entries, clean, policy))
    ensures HarmlessAt(db, entries, clean, policy, |clean| - 1)
  {
    hide Drain, CleanDrain, Same, Lists, Harmless, RecordEntry, StoreOk, OnlyInputsCancelled, Numbered, TwiceAtLast;
    var n := |clean| - 1;
    var before := CleanDrain(db, entries[..n], clean[..n], policy);
    TwiceDrains(db, entries, clean, policy);
    CleanDrainKeeps(db, entries[..n], clean[..n], policy);
    ListsAlso(clean[n].order, db, before);
    ReplayIsHarmless(before, clean[n].order, clean[n].order, entries[n], policy, clean[n].now);
  }

  lemma CleanDrainKeeps(db: Db, entries: seq<Entry>, clean: seq<Attempt>, policy: Policy)
    requires ReplayOk(db) && |entries| == |clean|
    ensures ReplayOk(CleanDrain(db, entries, clean, policy)) && CleanDrain(db, entries, clean, policy).registrations == db.registrations
  {
    hide ReplayOk, Drain;
    DrainKeeps(db, entries, Once(clean), policy);
  }

  /** However often the drain crashes between recording and removing, at no point does it show in events, jobs or
      attention: exactly when every entry was harmless for the store that the clean drain brings it to. */
  lemma CrashesNeverShow(db: Db, entries: seq<Entry>, clean: seq<Attempt>, policy: Policy)
    requires ReplayOk(db) && Drainable(db, entries, clean)
    ensures (forall k :: 0 <= k <= |entries| ==> NeverShows(db, entries, clean, policy, k)) <==> AllHarmless(db, entries, clean, policy)
  {
    hide ReplayOk, Lists, NeverShows, HarmlessAt;
    if forall k :: 0 <= k <= |entries| ==> NeverShows(db, entries, clean, policy, k) {
      forall j | 0 <= j < |entries|
        ensures HarmlessAt(db, entries, clean, policy, j)
      {
        assert NeverShows(db, entries, clean, policy, j + 1);
        NeverShownIsHarmless(db, entries, clean, policy, j);
      }
    }
    if AllHarmless(db, entries, clean, policy) {
      forall k | 0 <= k <= |entries|
        ensures NeverShows(db, entries, clean, policy, k)
      {
        HarmlessNeverShows(db, entries, clean, policy, k);
      }
    }
  }

  lemma NeverShownIsHarmless(db: Db, entries: seq<Entry>, clean: seq<Attempt>, policy: Policy, j: nat)
    requires ReplayOk(db) && Drainable(db, entries, clean) && j < |entries| && NeverShows(db, entries, clean, policy, j + 1)
    ensures HarmlessAt(db, entries, clean, policy, j)
  {
    hide ReplayOk, Lists, Harmless, Drain, CleanDrain, Same, CrashPattern;
    var front, firsts := entries[..j + 1], clean[..j + 1];
    TwiceIsPattern(db, front, firsts);
    ShownTwice(db, front, firsts, policy);
    assert front[..j] == entries[..j] && firsts[..j] == clean[..j];
    assert HarmlessAt(db, front, firsts, policy, j);
  }

  // ---- A store in which a replay does harm ----

  /** No lifecycle event is stored yet. */
  ghost predicate OnlyChallenges(db: Db) {
    forall k :: k in db.index ==> k.source.ChallengeFor?
  }

  lemma PutStoresNoHook(db: Db, p: Principal, i: Installation, body: Body, policy: Policy, now: int, challenge: string)
    requires OnlyChallenges(db)
    ensures OnlyChallenges(Put(db, p, i, body, policy, now, challenge).0)
  {
    hide PruneEvents, CascadeJobs, DeleteExpiredAttention, DeleteAllButNewestAttention, DeleteJobsOf, CancelChallengesOf;
  }

  lemma ConfirmStoresNoHook(db: Db, op: Op)
    requires OnlyChallenges(db) && op.ConfirmOp?
    ensures OnlyChallenges(Apply(db, op))
  {
    hide DeleteJobsOf;
  }

  const ALICE := Principal("local", "alice")
  const BOB := Principal("local", "bob")

  /** An operator who keeps one event. */
  const ONE_EVENT := Policy(true, map[], {ALICE, BOB}, 3600, 300, 1, 256, 5)

  const SUBSCRIPTION := Body(1, "nonce", "https://push.example", "{}", {TurnDone}, Authorized, None)

  function Joins(p: Principal, i: Installation): seq<Op> {
    [PutOp(p, i, SUBSCRIPTION, ONE_EVENT, 0, "challenge"), ConfirmOp(p, i, 1, "challenge", ONE_EVENT, {}, 0)]
  }

  function ActiveRow(p: Principal): Registration {
    Registration(p, 1, Active, "nonce", "https://push.example", "{}", {TurnDone}, SessionScope(Authorized, []), None, 300, 1)
  }

  lemma JoinIs(db: Db, p: Principal, i: Installation)
    ensures After(db, Joins(p, i)) == Apply(Apply(db, Joins(p, i)[0]), Joins(p, i)[1])
  {
    hide Apply;
    assert Joins(p, i)[..1] == [Joins(p, i)[0]];
    assert Joins(p, i)[..1][..0] == [];
    assert After(db, Joins(p, i)[..1][..0]) == db;
  }

  lemma Joined(db: Db, p: Principal, i: Installation)
    requires i !in db.registrations && |db.registrations| < 256 && OnlyChallenges(db) && p in ONE_EVENT.ownerGrants
    ensures var after := After(db, Joins(p, i)); after.registrations == db.registrations[i := ActiveRow(p)] && OnlyChallenges(after)
  {
    hide Put, After, OnlyChallenges;
    JoinIs(db, p, i);
    var put := Put(db, p, i, SUBSCRIPTION, ONE_EVENT, 0, "challenge").0;
    PutAccepts(db, p, i);
    PutWrites(db, p, i, SUBSCRIPTION, ONE_EVENT, 0, "challenge");
    PutStoresNoHook(db, p, i, SUBSCRIPTION, ONE_EVENT, 0, "challenge");
    ConfirmStoresNoHook(put, Joins(p, i)[1]);
  }

  lemma PutAccepts(db: Db, p: Principal, i: Installation)
    requires i !in db.registrations && |db.registrations| < 256
    ensures Put(db, p, i, SUBSCRIPTION, ONE_EVENT, 0, "challenge").1.Accepted?
  {
    hide Prune, QueueChallenge, WriteRegistration;
  }

  /** Alice and Bob subscribe, one after the other. */
  function TwoJoin(): seq<Op> {
    Joins(ALICE, "a") + Joins(BOB, "b")
  }

  lemma TwoJoined()
    ensures var db := After(EmptyDb(), TwoJoin());
            ReplayOk(db) && OnlyChallenges(db) && db.registrations == map["a" := ActiveRow(ALICE), "b" := ActiveRow(BOB)]
  {
    hide After;
    RunKeepsReplayOk(EmptyDb(), TwoJoin());
    AfterSplits(EmptyDb(), Joins(ALICE, "a"), Joins(BOB, "b"));
    Joined(EmptyDb(), ALICE, "a");
    Joined(After(EmptyDb(), Joins(ALICE, "a")), BOB, "b");
  }

  const TURN_DONE := Entry(Hook(TurnDone, "session", "turn"), map["a" := 1, "b" := 1], 3600)

  lemma BothAreWanted(db: Db)
    requires db.registrations == map["a" := ActiveRow(ALICE), "b" := ActiveRow(BOB)]
    ensures WantedKeys(db, TURN_DONE, ONE_EVENT) == {EventKey(ALICE, FromHook(TURN_DONE.hook)), EventKey(BOB, FromHook(TURN_DONE.hook))}
  {
    assert Queues(db, "a", TURN_DONE.hook, Some(TURN_DONE.targets), ONE_EVENT);
    assert Queues(db, "b", TURN_DONE.hook, Some(TURN_DONE.targets), ONE_EVENT);
    assert WantedKey(db, "a", TURN_DONE) == EventKey(ALICE, FromHook(TURN_DONE.hook));
    assert WantedKey(db, "b", TURN_DONE) == EventKey(BOB, FromHook(TURN_DONE.hook));
  }

  lemma BothDoNotFit(db: Db)
    requires OnlyChallenges(db) && db.registrations == map["a" := ActiveRow(ALICE), "b" := ActiveRow(BOB)]
    ensures !Harmless(db, TURN_DONE, ONE_EVENT, 0)
  {
    hide Queues, WantedKeys, PruneEvents, DeleteExpiredAttention, DeleteAllButNewestAttention, CascadeJobs;
    BothAreWanted(db);
    var a, b := EventKey(ALICE, FromHook(TURN_DONE.hook)), EventKey(BOB, FromHook(TURN_DONE.hook));
    var kept := Prune(db, ONE_EVENT, 0);
    assert a !in kept.index && b !in kept.index;
    assert MissingKeys(db, kept, TURN_DONE, ONE_EVENT) == {a, b};
  }

  /** A reachable store, and an entry that is pushed to somebody again when it is replayed: Alice and Bob both
      consent, the table keeps one event, so the first pass keeps only the last of the two, and the replay
      stores the other one anew. */
  lemma ReplayCanPushAgain()
    ensures var db := After(EmptyDb(), TwoJoin());
            var once := RecordEntry(db, ["a", "b"], TURN_DONE, ONE_EVENT, 0);
            var twice := RecordEntry(once, ["a", "b"], TURN_DONE, ONE_EVENT, 0);
            && ReplayOk(db) && Lists(["a", "b"], db) && !Harmless(db, TURN_DONE, ONE_EVENT, 0) && !Same(twice, once)
            && exists key, i :: PushedAnew(once, twice, key, i, TURN_DONE)
  {
    hide After, RecordEntry, Harmless, Same, PushedAnew, StoreOk, OnlyInputsCancelled, Numbered, OnlyChallenges;
    var db := After(EmptyDb(), TwoJoin());
    TwoJoined();
    BothDoNotFit(db);
    ReplayIsHarmless(db, ["a", "b"], ["a", "b"], TURN_DONE, ONE_EVENT, 0);
  }
}
