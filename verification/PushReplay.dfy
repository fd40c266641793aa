/** Exactly when recording an inbox entry again does no harm. A crash between record and remove replays the
    entry; the count caps may meanwhile have cut an event that the first pass stored, and the replay then
    stores it, and pushes it, a second time. */
module PushReplay {
  import opened Basics
  import opened PushTypes
  import opened PushModel
  import opened PushInvariant
  import opened PushRuns
  import opened PushDrain

  // ---- The condition, read off the store before the call ----

  function WantedKey(db: Db, i: Installation, e: Entry): EventKey
    requires i in db.registrations
  {
    EventKey(db.registrations[i].owner, FromHook(e.hook))
  }

  /** The events that an entry asks for: one for each owner of a consenting registration. */
  function WantedKeys(db: Db, e: Entry, policy: Policy): set<EventKey> {
    set i | i in db.registrations && Queues(db, i, e.hook, Some(e.targets), policy) :: WantedKey(db, i, e)
  }

  /** Those that no kept row has. */
  function MissingKeys(db: Db, kept: Db, e: Entry, policy: Policy): set<EventKey> {
    WantedKeys(db, e, policy) - kept.index.Keys
  }

  /** A row of the table with room for `added` newer rows below the cap. */
  predicate HasRoom(kept: Db, key: EventKey, added: nat, policy: Policy) {
    key in kept.index ==> |NewerEvents(kept.events, kept.index[key])| + added < policy.maxEvents
  }

  /** The new rows fit under the cap and push out no wanted row that is already there. */
  predicate Fits(db: Db, e: Entry, policy: Policy, now: int) {
    var kept := Prune(db, policy, now);
    var added := |MissingKeys(db, kept, e, policy)|;
    added <= policy.maxEvents && forall k | k in WantedKeys(db, e, policy) :: HasRoom(kept, k, added, policy)
  }

  /** Recording stops before it stores anything: the entry has expired, or its resolution is remembered. */
  predicate Stops(db: Db, e: Entry, policy: Policy, now: int) {
    e.expires <= now || AlreadyResolved(Prune(db, policy, now), e.hook)
  }

  /** What a caller can check before recording: a replay at the same time will do no harm. */
  predicate Harmless(db: Db, e: Entry, policy: Policy, now: int) {
    Stops(db, e, policy, now) || policy.maxEvents == 0 || Fits(db, e, policy, now)
  }

  // ---- Ranks ----

  /** Rows from `lo` up to `hi` were added above all that were there. */
  ghost predicate AddedAbove(a: map<nat, Event>, b: map<nat, Event>, lo: nat, hi: nat) {
    && lo <= hi
    && (forall c :: c in a ==> c < lo)
    && (forall c :: c in b <==> c in a || lo <= c < hi)
  }

  lemma OldRank(a: map<nat, Event>, b: map<nat, Event>, lo: nat, hi: nat, c: nat)
    requires AddedAbove(a, b, lo, hi) && c in a
    ensures |NewerEvents(b, c)| == |NewerEvents(a, c)| + (hi - lo)
  {
    assert NewerEvents(b, c) == NewerEvents(a, c) + Range(lo, hi);
    assert NewerEvents(a, c) * Range(lo, hi) == {};
  }

  lemma NewRank(a: map<nat, Event>, b: map<nat, Event>, lo: nat, hi: nat, c: nat)
    requires AddedAbove(a, b, lo, hi) && lo <= c < hi
    ensures |NewerEvents(b, c)| == hi - 1 - c
  {
    assert NewerEvents(b, c) == Range(c + 1, hi);
  }

  // ---- A pruned store ----

  /** No row is expired and every row is among the newest. */
  ghost predicate Trimmed(db: Db, policy: Policy, now: int) {
    && (forall c :: c in db.events ==> db.events[c].expiresAt > now && |NewerEvents(db.events, c)| < policy.maxEvents)
    && (forall k :: k in db.index ==> db.index[k] in db.events)
    && (forall k :: k in db.outbox ==> k.event in db.events)
    && AttentionTrimmed(db.attention, policy, now)
  }

  ghost predicate AttentionTrimmed(attention: map<AttentionKey, Attention>, policy: Policy, now: int) {
    forall a :: a in attention ==> attention[a].expiresAt > now && |NewerAttention(attention, attention[a].row)| < policy.maxEvents
  }

  function PrunedAttention(attention: map<AttentionKey, Attention>, policy: Policy, now: int): map<AttentionKey, Attention> {
    DeleteAllButNewestAttention(DeleteExpiredAttention(attention, now), policy.maxEvents)
  }

  lemma PrunedAttentionIsTrimmed(attention: map<AttentionKey, Attention>, policy: Policy, now: int)
    ensures AttentionTrimmed(PrunedAttention(attention, policy, now), policy, now)
  {
    var p, live := PrunedAttention(attention, policy, now), DeleteExpiredAttention(attention, now);
    forall a | a in p
      ensures |NewerAttention(p, p[a].row)| < policy.maxEvents
    {
      SubsetSize(NewerAttention(p, p[a].row), NewerAttention(live, p[a].row));
    }
  }

  lemma TrimmedAttentionStays(attention: map<AttentionKey, Attention>, policy: Policy, now: int)
    requires AttentionTrimmed(attention, policy, now)
    ensures PrunedAttention(attention, policy, now) == attention
  {
    assert DeleteExpiredAttention(attention, now) == attention;
  }

  lemma PrunedIsTrimmed(db: Db, policy: Policy, now: int)
    ensures Trimmed(Prune(db, policy, now), policy, now)
  {
    var p, live := Prune(db, policy, now), DeleteExpiredEvents(db.events, now);
    PrunedAttentionIsTrimmed(db.attention, policy, now);
    hide DeleteExpiredAttention, DeleteAllButNewestAttention, AttentionTrimmed;
    forall c | c in p.events
      ensures |NewerEvents(p.events, c)| < policy.maxEvents
    {
      SubsetSize(NewerEvents(p.events, c), NewerEvents(live, c));
    }
  }

  /** Pruning a pruned store at the same time changes nothing. */
  lemma TrimmedStays(db: Db, policy: Policy, now: int)
    requires Trimmed(db, policy, now)
    ensures Prune(db, policy, now) == db
  {
    TrimmedAttentionStays(db.attention, policy, now);
    hide DeleteExpiredAttention, DeleteAllButNewestAttention, AttentionTrimmed;
    assert DeleteExpiredEvents(db.events, now) == db.events;
    assert DeleteAllButNewestEvents(db.events, policy.maxEvents) == db.events;
    assert CascadeIndex(db.index, db.events) == db.index;
    assert CascadeJobs(db.outbox, db.events) == db.outbox;
  }

  // ---- What the scan adds ----

  function MissingIn(db: Db, order: seq<Installation>, e: Entry, policy: Policy): set<EventKey> {
    set i | i in order && Queues(db, i, e.hook, Some(e.targets), policy) && WantedKey(db, i, e) !in db.index :: WantedKey(db, i, e)
  }

  ghost predicate Grown(a: Db, b: Db, missing: set<EventKey>, expires: int) {
    && b.registrations == a.registrations
    && b.nextCursor == a.nextCursor + |missing|
    && AddedAbove(a.events, b.events, a.nextCursor, b.nextCursor)
    && (forall k :: k in b.index <==> k in a.index || k in missing)
    && (forall k :: k in a.index ==> b.index[k] == a.index[k])
    && (forall c :: c in a.events ==> b.events[c] == a.events[c])
    && (forall c :: c in b.events && a.nextCursor <= c ==> b.events[c].expiresAt == expires && b.events[c].key in missing && !b.events[c].cancelled)
  }

  lemma GrownOne(a: Db, before: Db, missing: set<EventKey>, key: EventKey, now: int, expires: int)
    requires Grown(a, before, missing, expires) && missing !! a.index.Keys
    ensures Grown(a, InsertEvent(before, key, now, expires).0, if key in a.index then missing else missing + {key}, expires)
  {
    if key in missing {
      assert missing + {key} == missing;
    }
  }

  lemma QueueGrows(a: Db, before: Db, missing: set<EventKey>, key: JobKey, hint: Hint, now: int, expires: int)
    requires Grown(a, before, missing, expires)
    ensures Grown(a, QueueJob(before, key, hint, now), missing, expires)
  {
  }

  lemma MissingSnoc(db: Db, front: seq<Installation>, i: Installation, e: Entry, policy: Policy)
    ensures MissingIn(db, front + [i], e, policy) ==
            if Queues(db, i, e.hook, Some(e.targets), policy) && WantedKey(db, i, e) !in db.index then MissingIn(db, front, e, policy) + {WantedKey(db, i, e)}
            else MissingIn(db, front, e, policy)
    ensures MissingIn(db, front, e, policy) !! db.index.Keys
  {
    assert forall j :: j in front + [i] <==> j in front || j == i;
  }

  lemma SameQueues(a: Db, b: Db, i: Installation, e: Entry, policy: Policy)
    requires a.registrations == b.registrations
    ensures Queues(a, i, e.hook, Some(e.targets), policy) == Queues(b, i, e.hook, Some(e.targets), policy)
  {
  }

  lemma RecordForGrows(a: Db, before: Db, front: seq<Installation>, i: Installation, e: Entry, policy: Policy, now: int)
    requires Grown(a, before, MissingIn(a, front, e, policy), e.expires)
    ensures Grown(a, RecordFor(before, i, e.hook, Some(e.targets), policy, now, e.expires), MissingIn(a, front + [i], e, policy), e.expires)
  {
    hide MissingIn, Queues, InsertEvent, QueueJob;
    assert before.registrations == a.registrations;
    SameQueues(a, before, i, e, policy);
    MissingSnoc(a, front, i, e, policy);
    if Queues(a, i, e.hook, Some(e.targets), policy) {
      hide Grown;
      QueuesListed(a, i, e, policy);
      var row := a.registrations[i];
      GrownOne(a, before, MissingIn(a, front, e, policy), WantedKey(a, i, e), now, e.expires);
      var (inserted, cursor) := InsertEvent(before, WantedKey(a, i, e), now, e.expires);
      QueueGrows(a, inserted, MissingIn(a, front + [i], e, policy), JobKey(cursor, i, row.generation),
                 Hint(cursor, e.hook.kind, row.generation, row.nonce, e.expires, None), now, e.expires);
    }
  }

  lemma {:induction false} RecordAllGrows(a: Db, order: seq<Installation>, e: Entry, policy: Policy, now: int)
    requires IndexOk(a)
    ensures Grown(a, RecordAll(a, order, e.hook, Some(e.targets), policy, now, e.expires), MissingIn(a, order, e, policy), e.expires)
  {
    if order != [] {
      hide IndexOk, Grown, RecordFor, MissingIn;
      var front, i := order[..|order| - 1], order[|order| - 1];
      RecordAllGrows(a, front, e, policy, now);
      RecordForGrows(a, RecordAll(a, front, e.hook, Some(e.targets), policy, now, e.expires), front, i, e, policy, now);
      assert order == front + [i];
    }
  }

  // ---- Which rows are there when the entry is recorded again ----

  ghost predicate LiveEvents(db: Db, now: int) {
    forall c :: c in db.events ==> db.events[c].expiresAt > now
  }

  /** What a pass at `t1` leaves, seen at `t2`: the newest rows, less those that expired meanwhile. */
  lemma KeptRows(s: Db, policy: Policy, t1: int, t2: int)
    requires LiveEvents(s, t1) && t1 <= t2
    ensures forall c :: c in Prune(Prune(s, policy, t1), policy, t2).events <==>
                        c in s.events && |NewerEvents(s.events, c)| < policy.maxEvents && s.events[c].expiresAt > t2
  {
    var once := Prune(s, policy, t1);
    var live := DeleteExpiredEvents(once.events, t2);
    assert DeleteExpiredEvents(s.events, t1) == s.events;
    hide DeleteAllButNewestAttention, DeleteExpiredAttention, CascadeIndex, CascadeJobs;
    forall c | c in live
      ensures |NewerEvents(live, c)| < policy.maxEvents
    {
      SubsetSize(NewerEvents(live, c), NewerEvents(s.events, c));
    }
  }

  lemma KeptIndex(s: Db, policy: Policy, t1: int, t2: int, k: EventKey)
    requires LiveEvents(s, t1) && t1 <= t2 && IndexOk(s)
    ensures k in Prune(Prune(s, policy, t1), policy, t2).index <==>
            k in s.index && |NewerEvents(s.events, s.index[k])| < policy.maxEvents && s.events[s.index[k]].expiresAt > t2
  {
    var once := Prune(s, policy, t1);
    KeptRows(s, policy, t1, t2);
    KeptRows(s, policy, t1, t1);
    SameCursor(s, policy, t1, k);
    SameCursor(once, policy, t2, k);
    hide Prune;
  }

  lemma SameCursor(db: Db, policy: Policy, now: int, k: EventKey)
    ensures k in Prune(db, policy, now).index <==> k in db.index && db.index[k] in Prune(db, policy, now).events
    ensures k in Prune(db, policy, now).index ==> Prune(db, policy, now).index[k] == db.index[k]
  {
    hide PruneEvents;
  }

  /** A key that was there before the pass survives it under the same condition on its old rank. */
  lemma OldKeyKept(n: Db, s: Db, missing: set<EventKey>, expires: int, policy: Policy, t1: int, t2: int, k: EventKey)
    requires IndexOk(n) && IndexOk(s) && Grown(n, s, missing, expires) && LiveEvents(n, t1) && t1 <= t2 < expires
    requires k in n.index
    ensures k in Prune(Prune(s, policy, t1), policy, t2).index <==>
            |NewerEvents(n.events, n.index[k])| + |missing| < policy.maxEvents && n.events[n.index[k]].expiresAt > t2
  {
    hide Prune, IndexOk;
    GrownIsLive(n, s, missing, expires, t1);
    KeptIndex(s, policy, t1, t2, k);
    IndexedRow(n, k);
    OldRank(n.events, s.events, n.nextCursor, s.nextCursor, n.index[k]);
  }

  lemma IndexedRow(db: Db, k: EventKey)
    requires IndexOk(db) && k in db.index
    ensures db.index[k] in db.events && db.events[db.index[k]].key == k && db.index[k] < db.nextCursor
  {
  }

  lemma RowIndexed(db: Db, c: nat)
    requires IndexOk(db) && c in db.events
    ensures db.events[c].key in db.index && db.index[db.events[c].key] == c
  {
  }

  lemma GrownIsLive(n: Db, s: Db, missing: set<EventKey>, expires: int, now: int)
    requires Grown(n, s, missing, expires) && LiveEvents(n, now) && now < expires
    ensures LiveEvents(s, now)
  {
  }

  /** The new keys all survive exactly when they fit under the cap. */
  lemma NewKeysKept(n: Db, s: Db, missing: set<EventKey>, expires: int, policy: Policy, t1: int, t2: int)
    requires IndexOk(n) && IndexOk(s) && Grown(n, s, missing, expires) && LiveEvents(n, t1) && t1 <= t2 < expires
    requires missing !! n.index.Keys
    ensures (forall k :: k in missing ==> k in Prune(Prune(s, policy, t1), policy, t2).index) <==> |missing| <= policy.maxEvents
  {
    hide Prune, IndexOk;
    GrownIsLive(n, s, missing, expires, t1);
    if |missing| <= policy.maxEvents {
      forall k | k in missing
        ensures k in Prune(Prune(s, policy, t1), policy, t2).index
      {
        NewCursor(n, s, missing, expires, k);
        KeptIndex(s, policy, t1, t2, k);
        NewRank(n.events, s.events, n.nextCursor, s.nextCursor, s.index[k]);
      }
    } else {
      var c := n.nextCursor;
      RowIndexed(s, c);
      NewRank(n.events, s.events, n.nextCursor, s.nextCursor, c);
      KeptIndex(s, policy, t1, t2, s.events[c].key);
      assert s.events[c].key in missing;
    }
  }

  lemma NewCursor(n: Db, s: Db, missing: set<EventKey>, expires: int, k: EventKey)
    requires IndexOk(n) && IndexOk(s) && Grown(n, s, missing, expires) && k in missing && k !in n.index
    ensures k in s.index && n.nextCursor <= s.index[k] < s.nextCursor && s.events[s.index[k]].expiresAt == expires
  {
    IndexedRow(s, k);
    var c := s.index[k];
    if c in n.events {
      RowIndexed(n, c);
    }
  }

  // ---- What Note leaves of the events ----

  /** The same rows with the same expiries at the same cursors. */
  ghost predicate SameRows(a: Db, b: Db) {
    && b.registrations == a.registrations && b.index == a.index && b.nextCursor == a.nextCursor && b.nextJob == a.nextJob
    && b.nonces == a.nonces && b.nextToken == a.nextToken
    && b.events.Keys == a.events.Keys
    && forall c :: c in b.events ==> b.events[c].expiresAt == a.events[c].expiresAt
  }

  lemma CancelKeepsRows(a: Db, sessionId: string, request: Option<string>)
    ensures SameRows(a, CancelAttention(a, sessionId, request))
  {
    hide DeleteJobsOfCancelled;
  }

  /** Note changes attention, cancels inputs and drops jobs; every row stays where it is. */
  lemma NoteKeepsRows(a: Db, hook: Hook, policy: Policy, now: int)
    ensures SameRows(a, Note(a, hook, policy, now))
  {
    hide CancelAttention, ResolveSession;
    var noted := UpsertAttention(a, AttentionKey(hook.sessionId, hook.reference), hook.kind == InputResolved, now + policy.ttl * 2);
    CancelKeepsRows(noted, hook.sessionId, Some(hook.reference));
    CancelKeepsRows(a, hook.sessionId, None);
  }

  lemma SameRanks(a: map<nat, Event>, b: map<nat, Event>, c: nat)
    requires a.Keys == b.Keys
    ensures NewerEvents(a, c) == NewerEvents(b, c)
  {
  }

  /** Only inputs and challenges are ever cancelled. */
  ghost predicate OnlyInputsCancelled(db: Db) {
    forall c :: c in db.events && db.events[c].cancelled ==> Cancellable(db.events[c])
  }

  predicate Cancellable(event: Event) {
    event.key.source.FromHook? ==> event.key.source.hook.kind == Input
  }

  predicate Swept(hook: Hook, event: Event) {
    || (hook.EndsTurn() && event.InputFor(hook.sessionId, None))
    || (hook.kind == InputResolved && event.InputFor(hook.sessionId, Some(hook.reference)))
  }

  /** What a resolution or a turn end cancels is cancelled, and then no cancelled event has a job. */
  ghost predicate Settled(db: Db, hook: Hook) {
    && (forall c :: c in db.events && Swept(hook, db.events[c]) ==> db.events[c].cancelled)
    && (Sweeps(hook) ==> forall k :: k in db.outbox && k.event in db.events ==> !db.events[k.event].cancelled)
  }

  lemma NoteSettles(a: Db, hook: Hook, policy: Policy, now: int)
    requires hook.Valid()
    ensures Settled(Note(a, hook, policy, now), hook)
    ensures OnlyInputsCancelled(a) ==> OnlyInputsCancelled(Note(a, hook, policy, now))
  {
    hide ResolveSession, UpsertAttention;
    UpsertLeavesEvents(a, AttentionKey(hook.sessionId, hook.reference), hook.kind == InputResolved, now + policy.ttl * 2);
  }

  lemma UpsertLeavesEvents(a: Db, about: AttentionKey, resolved: bool, expires: int)
    ensures UpsertAttention(a, about, resolved, expires).events == a.events && UpsertAttention(a, about, resolved, expires).outbox == a.outbox
  {
  }

  /** Cancelling again where all is settled changes nothing. */
  lemma CancelStays(b: Db, hook: Hook)
    requires Settled(b, hook) && Sweeps(hook)
    ensures CancelAttention(b, hook.sessionId, if hook.EndsTurn() then None else Some(hook.reference)) == b
  {
    var request := if hook.EndsTurn() then None else Some(hook.reference);
    assert CancelInputs(b.events, hook.sessionId, request) == b.events;
    assert DeleteJobsOfCancelled(b.outbox, b.events) == b.outbox;
  }

  lemma SettledUpsert(b: Db, hook: Hook, about: AttentionKey, resolved: bool, expires: int)
    requires Settled(b, hook)
    ensures var u := UpsertAttention(b, about, resolved, expires);
            Settled(u, hook) && u == b.(attention := u.attention, nextAttention := u.nextAttention)
  {
  }

  /** Noting again where all is settled changes attention only. */
  lemma SettledStays(b: Db, hook: Hook, policy: Policy, now: int)
    requires hook.Valid() && Settled(b, hook)
    ensures var n := Note(b, hook, policy, now); n == b.(attention := n.attention, nextAttention := n.nextAttention)
  {
    hide Settled, UpsertAttention, CancelAttention, ResolveSession;
    var about, resolved, expires := AttentionKey(hook.sessionId, hook.reference), hook.kind == InputResolved, now + policy.ttl * 2;
    SettledUpsert(b, hook, about, resolved, expires);
    if hook.EndsTurn() {
      CancelStays(b, hook);
    } else if hook.kind == InputResolved {
      CancelStays(UpsertAttention(b, about, resolved, expires), hook);
    }
  }

  lemma InsertSettled(db: Db, e: Entry, owner: Principal, now: int)
    requires Settled(db, e.hook) && OnlyInputsCancelled(db) && IndexOk(db)
    ensures var (db', c) := InsertEvent(db, EventKey(owner, FromHook(e.hook)), now, e.expires);
            && Settled(db', e.hook) && OnlyInputsCancelled(db') && c in db'.events && db'.events[c].key == EventKey(owner, FromHook(e.hook))
  {
    assert db.nextCursor !in db.events;
  }

  lemma QueueSettled(db: Db, hook: Hook, key: JobKey, hint: Hint, now: int)
    requires Settled(db, hook) && OnlyInputsCancelled(db) && key.event in db.events && db.events[key.event].key.source == FromHook(hook)
    ensures Settled(QueueJob(db, key, hint, now), hook) && OnlyInputsCancelled(QueueJob(db, key, hint, now))
  {
    assert Sweeps(hook) ==> !db.events[key.event].cancelled;
  }

  // ---- Every wanted event and job is there ----

  predicate Served(db: Db, i: Installation, e: Entry, policy: Policy) {
    Queues(db, i, e.hook, Some(e.targets), policy) ==>
      WantedKey(db, i, e) in db.index
      && JobKey(db.index[WantedKey(db, i, e)], i, db.registrations[i].generation) in db.outbox
  }

  ghost predicate EveryoneServed(db: Db, e: Entry, policy: Policy) {
    forall i :: i in db.registrations ==> Served(db, i, e, policy)
  }

  /** The scan changes nothing where every wanted event and job is there. */
  lemma {:induction false} ServedStays(db: Db, order: seq<Installation>, e: Entry, policy: Policy, now: int)
    requires EveryoneServed(db, e, policy)
    ensures RecordAll(db, order, e.hook, Some(e.targets), policy, now, e.expires) == db
  {
    if order != [] {
      hide Queues;
      var i := order[|order| - 1];
      ServedStays(db, order[..|order| - 1], e, policy, now);
      if Queues(db, i, e.hook, Some(e.targets), policy) {
        QueuesListed(db, i, e, policy);
        assert Served(db, i, e, policy);
      }
    }
  }

  lemma RecordForSettles(db: Db, i: Installation, e: Entry, policy: Policy, now: int)
    requires IndexOk(db) && Settled(db, e.hook) && OnlyInputsCancelled(db)
    ensures var db' := RecordFor(db, i, e.hook, Some(e.targets), policy, now, e.expires);
            Settled(db', e.hook) && OnlyInputsCancelled(db')
  {
    hide Queues, IndexOk, Settled, OnlyInputsCancelled, InsertEvent, QueueJob;
    if Queues(db, i, e.hook, Some(e.targets), policy) {
      QueuesListed(db, i, e, policy);
      var row := db.registrations[i];
      InsertSettled(db, e, row.owner, now);
      var (inserted, cursor) := InsertEvent(db, WantedKey(db, i, e), now, e.expires);
      QueueSettled(inserted, e.hook, JobKey(cursor, i, row.generation),
                   Hint(cursor, e.hook.kind, row.generation, row.nonce, e.expires, None), now);
    }
  }

  lemma RecordForServes(db: Db, i: Installation, e: Entry, policy: Policy, now: int)
    ensures var db' := RecordFor(db, i, e.hook, Some(e.targets), policy, now, e.expires);
            && Served(db', i, e, policy) && db'.registrations == db.registrations
            && (forall k :: k in db.outbox ==> k in db'.outbox) && (forall k :: k in db.index ==> k in db'.index && db'.index[k] == db.index[k])
  {
    hide Queues;
    if Queues(db, i, e.hook, Some(e.targets), policy) {
      QueuesListed(db, i, e, policy);
    }
    SameQueues(db, RecordFor(db, i, e.hook, Some(e.targets), policy, now, e.expires), i, e, policy);
  }

  lemma ServedLater(db: Db, db': Db, i: Installation, e: Entry, policy: Policy)
    requires Served(db, i, e, policy) && db'.registrations == db.registrations
    requires (forall k :: k in db.outbox ==> k in db'.outbox) && (forall k :: k in db.index ==> k in db'.index && db'.index[k] == db.index[k])
    ensures Served(db', i, e, policy)
  {
    SameQueues(db, db', i, e, policy);
    hide Queues;
    if Queues(db, i, e.hook, Some(e.targets), policy) {
      QueuesListed(db, i, e, policy);
    }
  }

  lemma {:induction false} RecordAllServes(db: Db, order: seq<Installation>, e: Entry, policy: Policy, now: int)
    requires StoreOk(db) && Settled(db, e.hook) && OnlyInputsCancelled(db)
    ensures var db' := RecordAll(db, order, e.hook, Some(e.targets), policy, now, e.expires);
            && Settled(db', e.hook) && OnlyInputsCancelled(db') && forall i :: i in order ==> Served(db', i, e, policy)
  {
    if order != [] {
      hide StoreOk, Settled, OnlyInputsCancelled, Served, RecordFor;
      var front, last := order[..|order| - 1], order[|order| - 1];
      var before := RecordAll(db, front, e.hook, Some(e.targets), policy, now, e.expires);
      var after := RecordAll(db, order, e.hook, Some(e.targets), policy, now, e.expires);
      RecordAllServes(db, front, e, policy, now);
      RecordAllKeeps(db, front, e.hook, Some(e.targets), policy, now, e.expires);
      StoreIndexOk(before);
      RecordForSettles(before, last, e, policy, now);
      RecordForServes(before, last, e, policy, now);
      forall i | i in order
        ensures Served(after, i, e, policy)
      {
        if i != last {
          assert i in front;
          ServedLater(before, after, i, e, policy);
        }
      }
    }
  }

  lemma PruneKeepsSettled(s: Db, e: Entry, policy: Policy, now: int)
    requires Settled(s, e.hook) && OnlyInputsCancelled(s)
    ensures Settled(Prune(s, policy, now), e.hook) && OnlyInputsCancelled(Prune(s, policy, now))
  {
    hide DeleteAllButNewestAttention, DeleteExpiredAttention, CascadeIndex;
  }

  /** Where no wanted key was cut, nobody's job was. */
  lemma PruneServes(s: Db, i: Installation, e: Entry, policy: Policy, now: int)
    requires Served(s, i, e, policy)
    requires Queues(s, i, e.hook, Some(e.targets), policy) ==> WantedKey(s, i, e) in Prune(s, policy, now).index
    ensures Served(Prune(s, policy, now), i, e, policy)
  {
    hide PruneEvents, DeleteAllButNewestAttention, DeleteExpiredAttention;
    SameQueues(s, Prune(s, policy, now), i, e, policy);
    hide Queues;
    if Queues(s, i, e.hook, Some(e.targets), policy) {
      QueuesListed(s, i, e, policy);
    }
  }

  // ---- The first pass ----

  /** The store after pruning and noting, and after the scan. */
  function Noted(db: Db, e: Entry, policy: Policy, now: int): Db {
    Note(Prune(db, policy, now), e.hook, policy, now)
  }

  function Scanned(db: Db, order: seq<Installation>, e: Entry, policy: Policy, now: int): Db {
    RecordAll(Noted(db, e, policy, now), order, e.hook, Some(e.targets), policy, now, e.expires)
  }

  lemma PassIs(db: Db, order: seq<Installation>, e: Entry, policy: Policy, now: int)
    ensures RecordEntry(db, order, e, policy, now) ==
            if e.expires <= now then db
            else if AlreadyResolved(Prune(db, policy, now), e.hook) then Prune(db, policy, now)
            else Prune(Scanned(db, order, e, policy, now), policy, now)
  {
    hide Prune, Note, RecordAll, AlreadyResolved;
  }

  lemma StagesOk(db: Db, order: seq<Installation>, e: Entry, policy: Policy, now: int)
    requires StoreOk(db)
    ensures StoreOk(Prune(db, policy, now)) && StoreOk(Noted(db, e, policy, now)) && StoreOk(Scanned(db, order, e, policy, now))
    ensures StoreOk(RecordEntry(db, order, e, policy, now))
  {
    hide StoreOk, Prune, Note, RecordAll, Record;
    PruneKeeps(db, policy, now);
    NoteKeeps(Prune(db, policy, now), e.hook, policy, now);
    RecordAllKeeps(Noted(db, e, policy, now), order, e.hook, Some(e.targets), policy, now, e.expires);
    RecordEntryKeeps(db, order, e, policy, now);
  }

  lemma StagesKeepRegistrations(db: Db, order: seq<Installation>, e: Entry, policy: Policy, now: int)
    ensures Noted(db, e, policy, now).registrations == db.registrations && Scanned(db, order, e, policy, now).registrations == db.registrations
    ensures Noted(db, e, policy, now).index == Prune(db, policy, now).index
  {
    hide RecordAll, PruneEvents, Note, DeleteAllButNewestAttention, DeleteExpiredAttention, CascadeIndex, CascadeJobs;
    NoteKeepsRows(Prune(db, policy, now), e.hook, policy, now);
    RecordAllLeavesRows(Noted(db, e, policy, now), order, e.hook, Some(e.targets), policy, now, e.expires);
  }

  lemma SameWantedKeys(a: Db, b: Db, e: Entry, policy: Policy)
    requires a.registrations == b.registrations
    ensures WantedKeys(a, e, policy) == WantedKeys(b, e, policy)
  {
    forall i
      ensures Queues(a, i, e.hook, Some(e.targets), policy) == Queues(b, i, e.hook, Some(e.targets), policy)
    {
      SameQueues(a, b, i, e, policy);
    }
    hide Queues;
  }

  lemma MissingListed(db: Db, n: Db, order: seq<Installation>, e: Entry, policy: Policy)
    requires Lists(order, db) && n.registrations == db.registrations
    ensures MissingIn(n, order, e, policy) == WantedKeys(db, e, policy) - n.index.Keys
  {
    forall i
      ensures Queues(n, i, e.hook, Some(e.targets), policy) == Queues(db, i, e.hook, Some(e.targets), policy)
    {
      SameQueues(n, db, i, e, policy);
    }
    hide Queues;
  }

  /** The wanted rows that are already there live on until `t2`. */
  predicate LivesOn(db: Db, e: Entry, policy: Policy, t1: int, t2: int) {
    forall k | k in WantedKeys(db, e, policy) :: Lasts(Prune(db, policy, t1), k, t2)
  }

  predicate Lasts(kept: Db, key: EventKey, until: int) {
    key in kept.index && kept.index[key] in kept.events ==> kept.events[kept.index[key]].expiresAt > until
  }

  lemma NotedRow(db: Db, e: Entry, policy: Policy, now: int, k: EventKey)
    requires IndexOk(Prune(db, policy, now)) && k in Prune(db, policy, now).index
    ensures var a, n := Prune(db, policy, now), Noted(db, e, policy, now);
            && k in n.index && n.index[k] == a.index[k] && a.index[k] in a.events && a.index[k] in n.events
            && n.events[n.index[k]].expiresAt == a.events[a.index[k]].expiresAt
            && NewerEvents(n.events, n.index[k]) == NewerEvents(a.events, a.index[k])
  {
    hide Prune, Note;
    var a := Prune(db, policy, now);
    NoteKeepsRows(a, e.hook, policy, now);
    IndexedRow(a, k);
    SameRanks(a.events, Noted(db, e, policy, now).events, a.index[k]);
  }

  lemma NotedIsLive(db: Db, e: Entry, policy: Policy, now: int)
    ensures LiveEvents(Noted(db, e, policy, now), now)
  {
    hide Prune, Note;
    NoteKeepsRows(Prune(db, policy, now), e.hook, policy, now);
    PrunedIsTrimmed(db, policy, now);
  }

  /** After a first pass every wanted event is still there at `t2` exactly when the condition held before it. */
  lemma {:induction false} WantedAreKept(db: Db, order: seq<Installation>, e: Entry, policy: Policy, t1: int, t2: int)
    requires StoreOk(db) && Lists(order, db) && t1 <= t2 < e.expires
    ensures WantedKeys(db, e, policy) <= Prune(Prune(Scanned(db, order, e, policy, t1), policy, t1), policy, t2).index.Keys
            <==> Fits(db, e, policy, t1) && LivesOn(db, e, policy, t1, t2)
  {
    hide StoreOk, IndexOk, Lists, Prune, Note, RecordAll, WantedKeys, MissingIn, LiveEvents, Grown;
    var a, n, s := Prune(db, policy, t1), Noted(db, e, policy, t1), Scanned(db, order, e, policy, t1);
    var missing := MissingKeys(db, a, e, policy);
    var last := Prune(Prune(s, policy, t1), policy, t2);
    StagesOk(db, order, e, policy, t1);
    StagesKeepRegistrations(db, order, e, policy, t1);
    StoreIndexOk(a);
    StoreIndexOk(n);
    StoreIndexOk(s);
    NotedIsLive(db, e, policy, t1);
    RecordAllGrows(n, order, e, policy, t1);
    MissingListed(db, n, order, e, policy);
    assert MissingIn(n, order, e, policy) == missing;
    NewKeysKept(n, s, missing, e.expires, policy, t1, t2);
    forall k | k in WantedKeys(db, e, policy) && k !in missing
      ensures k in last.index <==> HasRoom(a, k, |missing|, policy) && Lasts(a, k, t2)
    {
      NotedRow(db, e, policy, t1, k);
      OldKeyKept(n, s, missing, e.expires, policy, t1, t2, k);
    }
    forall k | k in missing
      ensures k in WantedKeys(db, e, policy) && HasRoom(a, k, |missing|, policy) && Lasts(a, k, t2)
    {
    }
  }

  // ---- A pass over a pruned store ----

  /** The tables that say what is pushed. */
  predicate SamePushes(a: Db, b: Db) {
    a.registrations == b.registrations && a.events == b.events && a.index == b.index && a.outbox == b.outbox
  }

  lemma SamePushesServed(a: Db, b: Db, e: Entry, policy: Policy)
    requires SamePushes(a, b) && EveryoneServed(b, e, policy)
    ensures EveryoneServed(a, e, policy)
  {
    hide Served;
    forall i | i in a.registrations
      ensures Served(a, i, e, policy)
    {
      ServedLater(b, a, i, e, policy);
    }
  }

  /** Where every wanted event and job is there and settled, recording changes attention only. */
  lemma ServedPass(b: Db, again: seq<Installation>, e: Entry, policy: Policy, now: int)
    requires Trimmed(b, policy, now) && Settled(b, e.hook) && EveryoneServed(b, e, policy) && e.hook.Valid()
    ensures var r := RecordEntry(b, again, e, policy, now);
            && r == b.(attention := r.attention, nextAttention := r.nextAttention)
            && (!Stops(b, e, policy, now) ==>
                  r.attention == PrunedAttention(Note(b, e.hook, policy, now).attention, policy, now)
                  && r.nextAttention == Note(b, e.hook, policy, now).nextAttention)
  {
    hide Settled, Served, Note, RecordAll, AlreadyResolved;
    TrimmedStays(b, policy, now);
    var n := Note(b, e.hook, policy, now);
    SettledStays(b, e.hook, policy, now);
    SamePushesServed(n, b, e, policy);
    ServedStays(n, again, e, policy, now);
    PassIs(b, again, e, policy, now);
    PrunesAttention(b, n, policy, now);
  }

  lemma PrunesAttention(b: Db, n: Db, policy: Policy, now: int)
    requires Trimmed(b, policy, now) && n == b.(attention := n.attention, nextAttention := n.nextAttention)
    ensures Prune(n, policy, now) == n.(attention := PrunedAttention(n.attention, policy, now))
  {
    hide DeleteExpiredAttention, DeleteAllButNewestAttention, AttentionTrimmed;
    assert DeleteExpiredEvents(b.events, now) == b.events;
    assert DeleteAllButNewestEvents(b.events, policy.maxEvents) == b.events;
    assert CascadeIndex(b.index, b.events) == b.index;
    assert CascadeJobs(b.outbox, b.events) == b.outbox;
  }

  /** Somebody asked for the event `key` and its row is new, with the job `i` is owed. */
  ghost predicate PushedAnew(b: Db, r: Db, key: EventKey, i: Installation, e: Entry) {
    && i in b.registrations && key == WantedKey(b, i, e)
    && EventOf(b, key).None? && EventOf(r, key) == Some(EventFacts(e.expires, false))
    && JobOf(b, key, i, b.registrations[i].generation).None?
    && JobOf(r, key, i, b.registrations[i].generation) == Some(FreshJob(b, i, e))
  }

  /** Where a wanted event is missing, recording adds one of those missing, and its push. */
  lemma UnservedPass(b: Db, again: seq<Installation>, e: Entry, policy: Policy, now: int) returns (key: EventKey, i: Installation)
    requires StoreOk(b) && Trimmed(b, policy, now) && Lists(again, b) && e.hook.Valid() && policy.maxEvents > 0 && !Stops(b, e, policy, now)
    requires !(WantedKeys(b, e, policy) <= b.index.Keys)
    ensures PushedAnew(b, RecordEntry(b, again, e, policy, now), key, i, e)
  {
    hide StoreOk, IndexOk, Prune, Note, RecordAll, WantedKeys, MissingIn, Grown, AlreadyResolved, Trimmed, LiveEvents, Queues, EventOf, JobOf, FreshJob;
    TrimmedStays(b, policy, now);
    PassIs(b, again, e, policy, now);
    var n, s := Noted(b, e, policy, now), Scanned(b, again, e, policy, now);
    StagesOk(b, again, e, policy, now);
    StagesKeepRegistrations(b, again, e, policy, now);
    StoreIndexOk(b);
    StoreIndexOk(n);
    StoreIndexOk(s);
    RecordAllGrows(n, again, e, policy, now);
    MissingListed(b, n, again, e, policy);
    NotedIsLive(b, e, policy, now);
    var missed :| missed in WantedKeys(b, e, policy) && missed !in b.index.Keys;
    assert missed in MissingIn(n, again, e, policy);
    key := NewestSurvives(n, s, MissingIn(n, again, e, policy), e.expires, policy, now);
    i := Wanting(b, key, e, policy);
    AbsentKey(b, key, i, b.registrations[i].generation);
    SameQueues(b, n, i, e, policy);
    SurvivorFacts(n, s, again, key, i, e, policy, now);
    AnewHolds(b, n, RecordEntry(b, again, e, policy, now), key, i, e);
  }

  lemma AnewHolds(b: Db, n: Db, r: Db, key: EventKey, i: Installation, e: Entry)
    requires i in b.registrations && n.registrations == b.registrations && key == WantedKey(b, i, e)
    requires EventOf(b, key).None? && EventOf(r, key) == Some(EventFacts(e.expires, false))
    requires JobOf(b, key, i, b.registrations[i].generation).None?
    requires JobOf(r, key, i, b.registrations[i].generation) == Some(FreshJob(n, i, e))
    ensures PushedAnew(b, r, key, i, e)
  {
    hide EventOf, JobOf;
  }

  lemma AbsentKey(db: Db, key: EventKey, i: Installation, g: nat)
    requires key !in db.index
    ensures EventOf(db, key).None? && JobOf(db, key, i, g).None?
  {
  }

  lemma NewestSurvives(n: Db, s: Db, missing: set<EventKey>, expires: int, policy: Policy, now: int) returns (key: EventKey)
    requires IndexOk(s) && Grown(n, s, missing, expires) && LiveEvents(n, now) && now < expires && policy.maxEvents > 0 && missing != {}
    ensures key in missing && key in Prune(s, policy, now).index
  {
    hide Prune, IndexOk;
    GrownIsLive(n, s, missing, expires, now);
    var c := s.nextCursor - 1;
    RowIndexed(s, c);
    NewRank(n.events, s.events, n.nextCursor, s.nextCursor, c);
    key := s.events[c].key;
    PrunedIsTrimmed(s, policy, now);
    TrimmedStays(Prune(s, policy, now), policy, now);
    KeptIndex(s, policy, now, now, key);
  }

  lemma Wanting(b: Db, key: EventKey, e: Entry, policy: Policy) returns (i: Installation)
    requires key in WantedKeys(b, e, policy)
    ensures Queues(b, i, e.hook, Some(e.targets), policy) && i in b.registrations && key == WantedKey(b, i, e)
  {
    i :| i in b.registrations && Queues(b, i, e.hook, Some(e.targets), policy) && key == WantedKey(b, i, e);
  }

  lemma SurvivorFacts(n: Db, s: Db, again: seq<Installation>, key: EventKey, i: Installation, e: Entry, policy: Policy, now: int)
    requires StoreOk(n) && s == RecordAll(n, again, e.hook, Some(e.targets), policy, now, e.expires) && i in n.registrations && i in again
    requires Queues(n, i, e.hook, Some(e.targets), policy) && key == WantedKey(n, i, e)
    requires key !in n.index && key in Prune(s, policy, now).index
    ensures EventOf(Prune(s, policy, now), key) == Some(EventFacts(e.expires, false))
    ensures JobOf(Prune(s, policy, now), key, i, n.registrations[i].generation) == Some(FreshJob(n, i, e))
  {
    hide StoreOk, Prune, RecordAll, Queues, EventOf, JobOf, FreshJob;
    AbsentKey(n, key, i, n.registrations[i].generation);
    RecordAllFacts(n, again, e, policy, now, key, i, n.registrations[i].generation);
    PrunedFacts(s, policy, now, key, i, n.registrations[i].generation);
  }

  /** Pruning leaves a key it keeps as it was. */
  lemma PrunedFacts(s: Db, policy: Policy, now: int, key: EventKey, i: Installation, g: nat)
    requires key in Prune(s, policy, now).index
    ensures EventOf(Prune(s, policy, now), key) == EventOf(s, key)
    ensures JobOf(Prune(s, policy, now), key, i, g) == JobOf(s, key, i, g)
  {
    hide DeleteExpiredAttention, DeleteAllButNewestAttention;
  }

  // ---- Attention ----

  /** A request noted later has a higher row number than every other. */
  ghost predicate Numbered(db: Db) {
    forall a :: a in db.attention ==> db.attention[a].row < db.nextAttention
  }

  /** A request just noted is kept if it is live: the cap on attention never cuts it. */
  lemma NotedRequestKept(attention: map<AttentionKey, Attention>, next: nat, hook: Hook, policy: Policy, now: int)
    requires AttentionTrimmed(attention, policy, now) && (forall a :: a in attention ==> attention[a].row < next)
    requires hook.HasRequest() && policy.ttl > 0 && policy.maxEvents > 0
    ensures AttentionKey(hook.sessionId, hook.reference) in PrunedAttention(NotedAttention(attention, next, hook, policy, now), policy, now)
  {
    var about := AttentionKey(hook.sessionId, hook.reference);
    var noted := NotedAttention(attention, next, hook, policy, now);
    var live := DeleteExpiredAttention(noted, now);
    assert about in live;
    if about in attention {
      assert NewerAttention(live, live[about].row) == NewerAttention(attention, attention[about].row);
    } else {
      assert NewerAttention(live, next) == {};
    }
  }

  /** Noting again at the same time changes no attention: the cap on attention never matters. */
  lemma {:induction false} AttentionSettles(attention: map<AttentionKey, Attention>, next: nat, next': nat, hook: Hook, policy: Policy, now: int)
    requires AttentionTrimmed(attention, policy, now) && (forall a :: a in attention ==> attention[a].row < next)
    requires hook.Valid() && policy.maxEvents > 0
    ensures var t := PrunedAttention(NotedAttention(attention, next, hook, policy, now), policy, now);
            PrunedAttention(NotedAttention(t, next', hook, policy, now), policy, now) == t
  {
    hide AttentionTrimmed, PrunedAttention;
    var about := AttentionKey(hook.sessionId, hook.reference);
    var noted := NotedAttention(attention, next, hook, policy, now);
    var t := PrunedAttention(noted, policy, now);
    PrunedAttentionIsTrimmed(noted, policy, now);
    PrunedIsPart(noted, policy, now);
    if hook.EndsTurn() {
      assert ResolveSession(t, hook.sessionId) == t;
      TrimmedAttentionStays(t, policy, now);
    } else if about in t {
      assert NotedAttention(t, next', hook, policy, now) == t;
      TrimmedAttentionStays(t, policy, now);
    } else {
      if policy.ttl > 0 {
        NotedRequestKept(attention, next, hook, policy, now);
      }
      ExpiredIsDropped(t, about, NotedAttention(t, next', hook, policy, now)[about], policy, now);
      TrimmedAttentionStays(t, policy, now);
    }
  }

  lemma PrunedIsPart(attention: map<AttentionKey, Attention>, policy: Policy, now: int)
    ensures forall a :: a in PrunedAttention(attention, policy, now) ==>
                        a in attention && PrunedAttention(attention, policy, now)[a] == attention[a]
  {
  }

  lemma ExpiredIsDropped(attention: map<AttentionKey, Attention>, a: AttentionKey, row: Attention, policy: Policy, now: int)
    requires a !in attention && row.expiresAt <= now
    ensures PrunedAttention(attention[a := row], policy, now) == PrunedAttention(attention, policy, now)
  {
    assert DeleteExpiredAttention(attention[a := row], now) == DeleteExpiredAttention(attention, now);
  }

  // ---- Recording the entry again ----

  lemma PruneTwice(db: Db, policy: Policy, now: int)
    ensures Prune(Prune(db, policy, now), policy, now) == Prune(db, policy, now)
  {
    hide Prune;
    PrunedIsTrimmed(db, policy, now);
    TrimmedStays(Prune(db, policy, now), policy, now);
  }

  /** Recording prunes first, so it may as well start from the pruned store. */
  lemma PassPrunesFirst(db: Db, order: seq<Installation>, e: Entry, policy: Policy, now: int)
    requires e.expires > now
    ensures RecordEntry(Prune(db, policy, now), order, e, policy, now) == RecordEntry(db, order, e, policy, now)
    ensures Stops(Prune(db, policy, now), e, policy, now) == Stops(db, e, policy, now)
  {
    hide Prune, Note, RecordAll, AlreadyResolved;
    PruneTwice(db, policy, now);
  }

  /** A pass that did not stop is not stopped by its own attention. */
  lemma StillUnresolved(db: Db, order: seq<Installation>, e: Entry, policy: Policy, t1: int, t2: int)
    requires !AlreadyResolved(Prune(db, policy, t1), e.hook)
    ensures !AlreadyResolved(Prune(Prune(Scanned(db, order, e, policy, t1), policy, t1), policy, t2), e.hook)
  {
    hide PruneEvents, RecordAll, CascadeIndex, CascadeJobs, Note, NotedAttention, PrunedAttention;
    var a, n, s := Prune(db, policy, t1), Noted(db, e, policy, t1), Scanned(db, order, e, policy, t1);
    NoteAttentionIs(a, e.hook, policy, t1);
    RecordAllLeavesRows(n, order, e.hook, Some(e.targets), policy, t1, e.expires);
    PrunedIsPart(s.attention, policy, t1);
    PrunedIsPart(Prune(s, policy, t1).attention, policy, t2);
    NotedUnresolved(a, e.hook, policy, t1);
  }

  lemma NotedUnresolved(a: Db, hook: Hook, policy: Policy, now: int)
    requires !AlreadyResolved(a, hook)
    ensures var noted, about := NotedAttention(a.attention, a.nextAttention, hook, policy, now), AttentionKey(hook.sessionId, hook.reference);
            hook.kind == Input && about in noted ==> !noted[about].resolved
  {
  }

  lemma ScanServesAll(db: Db, order: seq<Installation>, e: Entry, policy: Policy, now: int)
    requires StoreOk(db) && Lists(order, db) && OnlyInputsCancelled(db) && e.hook.Valid()
    ensures var s := Scanned(db, order, e, policy, now); EveryoneServed(s, e, policy) && Settled(s, e.hook) && OnlyInputsCancelled(s)
  {
    hide StoreOk, Prune, Note, RecordAll, Settled, OnlyInputsCancelled, Served;
    var n := Noted(db, e, policy, now);
    StagesOk(db, order, e, policy, now);
    StagesKeepRegistrations(db, order, e, policy, now);
    PruneKeepsSettledInputs(db, policy, now);
    NoteSettles(Prune(db, policy, now), e.hook, policy, now);
    RecordAllServes(n, order, e, policy, now);
  }

  lemma PruneKeepsSettledInputs(db: Db, policy: Policy, now: int)
    requires OnlyInputsCancelled(db)
    ensures OnlyInputsCancelled(Prune(db, policy, now))
  {
    hide DeleteExpiredAttention, DeleteAllButNewestAttention, CascadeIndex, CascadeJobs;
  }

  lemma PruneServesAll(s: Db, e: Entry, policy: Policy, now: int)
    requires EveryoneServed(s, e, policy) && WantedKeys(s, e, policy) <= Prune(s, policy, now).index.Keys
    ensures EveryoneServed(Prune(s, policy, now), e, policy)
  {
    hide Served, Queues, PruneEvents, DeleteExpiredAttention, DeleteAllButNewestAttention, CascadeIndex, CascadeJobs;
    forall i | i in s.registrations
      ensures Served(Prune(s, policy, now), i, e, policy)
    {
      if Queues(s, i, e.hook, Some(e.targets), policy) {
        assert WantedKey(s, i, e) in WantedKeys(s, e, policy);
      }
      PruneServes(s, i, e, policy, now);
    }
  }

  lemma PruneLeavesRegistrations(db: Db, policy: Policy, now: int)
    ensures Prune(db, policy, now).registrations == db.registrations
  {
  }

  /** The store as a replay finds it: what the first pass left, less what expired since. */
  ghost predicate Awaits(lapsed: Db, e: Entry, policy: Policy, now: int) {
    StoreOk(lapsed) && Trimmed(lapsed, policy, now) && Settled(lapsed, e.hook) && !Stops(lapsed, e, policy, now)
  }

  lemma FirstPassLeaves(db: Db, order: seq<Installation>, e: Entry, policy: Policy, t1: int, t2: int)
    requires StoreOk(db) && Lists(order, db) && OnlyInputsCancelled(db) && e.hook.Valid() && !Stops(db, e, policy, t1) && t1 <= t2 < e.expires
    ensures var lapsed := Prune(RecordEntry(db, order, e, policy, t1), policy, t2);
            && Awaits(lapsed, e, policy, t2) && lapsed.registrations == db.registrations
            && (WantedKeys(db, e, policy) <= lapsed.index.Keys <==> Fits(db, e, policy, t1) && LivesOn(db, e, policy, t1, t2))
            && (WantedKeys(db, e, policy) <= lapsed.index.Keys ==> EveryoneServed(lapsed, e, policy))
  {
    hide StoreOk, Lists, Prune, Note, RecordAll, Settled, OnlyInputsCancelled, Served, AlreadyResolved, WantedKeys, Fits, LivesOn, Trimmed;
    var s := Scanned(db, order, e, policy, t1);
    var once := Prune(s, policy, t1);
    var lapsed := Prune(once, policy, t2);
    PassIs(db, order, e, policy, t1);
    StagesOk(db, order, e, policy, t1);
    PruneKeeps(s, policy, t1);
    PruneKeeps(once, policy, t2);
    PrunedIsTrimmed(once, policy, t2);
    PruneTwice(once, policy, t2);
    ScanServesAll(db, order, e, policy, t1);
    PruneKeepsSettled(s, e, policy, t1);
    PruneKeepsSettled(once, e, policy, t2);
    StillUnresolved(db, order, e, policy, t1, t2);
    WantedAreKept(db, order, e, policy, t1, t2);
    StagesKeepRegistrations(db, order, e, policy, t1);
    PruneLeavesRegistrations(s, policy, t1);
    PruneLeavesRegistrations(once, policy, t2);
    SameWantedKeys(db, s, e, policy);
    SameWantedKeys(db, once, e, policy);
    if WantedKeys(db, e, policy) <= lapsed.index.Keys {
      IndexShrinks(once, policy, t2);
      PruneServesAll(s, e, policy, t1);
      PruneServesAll(once, e, policy, t2);
    }
  }

  lemma IndexShrinks(db: Db, policy: Policy, now: int)
    ensures Prune(db, policy, now).index.Keys <= db.index.Keys
  {
    hide PruneEvents;
  }

  lemma NoRoomEmpties(db: Db, policy: Policy, now: int)
    requires policy.maxEvents == 0
    ensures var p := Prune(db, policy, now); p.events == map[] && p.index == map[] && p.outbox == map[] && p.attention == map[]
  {
  }

  lemma PassEmpties(db: Db, order: seq<Installation>, e: Entry, policy: Policy, now: int)
    requires policy.maxEvents == 0 && now < e.expires
    ensures var r := RecordEntry(db, order, e, policy, now); r.events == map[] && r.index == map[] && r.outbox == map[] && r.attention == map[]
    ensures RecordEntry(db, order, e, policy, now).registrations == db.registrations
  {
    hide Prune, Note, RecordAll, AlreadyResolved;
    PassIs(db, order, e, policy, now);
    NoRoomEmpties(db, policy, now);
    NoRoomEmpties(Scanned(db, order, e, policy, now), policy, now);
    RecordLeavesRows(db, order, e.hook, Some(e.targets), policy, now, e.expires);
  }

  /** A replay at any later time leaves events and jobs as time alone would have left them, exactly when the new
      rows fitted under the cap and pushed out no wanted row, and the wanted rows that were there live on;
      otherwise somebody is pushed an event anew. */
  lemma {:induction false} ReplayPushesNothing(db: Db, order: seq<Installation>, again: seq<Installation>, e: Entry, policy: Policy, t1: int, t2: int)
    requires StoreOk(db) && OnlyInputsCancelled(db) && Lists(order, db) && Lists(again, db) && e.hook.Valid()
    requires !Stops(db, e, policy, t1) && t1 <= t2 < e.expires
    ensures var once := RecordEntry(db, order, e, policy, t1);
            var lapsed, twice := Prune(once, policy, t2), RecordEntry(once, again, e, policy, t2);
            if policy.maxEvents == 0 || (Fits(db, e, policy, t1) && LivesOn(db, e, policy, t1, t2)) then SamePushes(twice, lapsed)
            else exists key, i :: PushedAnew(lapsed, twice, key, i, e)
  {
    hide StoreOk, OnlyInputsCancelled, Lists, Prune, Record, Stops, Fits, LivesOn, WantedKeys, EveryoneServed, Trimmed, Settled, PushedAnew;
    var once := RecordEntry(db, order, e, policy, t1);
    var lapsed, twice := Prune(once, policy, t2), RecordEntry(once, again, e, policy, t2);
    FirstPassLeaves(db, order, e, policy, t1, t2);
    PassPrunesFirst(once, again, e, policy, t2);
    if policy.maxEvents == 0 {
      PassEmpties(once, again, e, policy, t2);
      NoRoomEmpties(once, policy, t2);
      PruneLeavesRegistrations(once, policy, t2);
    } else if Fits(db, e, policy, t1) && LivesOn(db, e, policy, t1, t2) {
      ServedPass(lapsed, again, e, policy, t2);
    } else {
      ListsAlso(again, db, lapsed);
      SameWantedKeys(db, lapsed, e, policy);
      var key, i := UnservedPass(lapsed, again, e, policy, t2);
    }
  }

  lemma ListsAlso(order: seq<Installation>, a: Db, b: Db)
    requires Lists(order, a) && a.registrations == b.registrations
    ensures Lists(order, b)
  {
  }

  // ---- Recording the entry again at the same time ----

  /** What every transaction keeps and the theorems on replays ask for. */
  ghost predicate ReplayOk(db: Db) {
    StoreOk(db) && OnlyInputsCancelled(db) && Numbered(db)
  }

  lemma LivesNow(db: Db, e: Entry, policy: Policy, now: int)
    ensures LivesOn(db, e, policy, now, now)
  {
    hide Prune, WantedKeys;
    PrunedIsTrimmed(db, policy, now);
  }

  /** Everything but the numbering of attention rows, which shows only while a row is noted. */
  ghost predicate SameButNumbers(a: Db, b: Db) {
    a == b.(nextAttention := a.nextAttention)
  }

  lemma OnceIsPruned(db: Db, order: seq<Installation>, e: Entry, policy: Policy, now: int)
    requires now < e.expires
    ensures var once := RecordEntry(db, order, e, policy, now); Prune(once, policy, now) == once
  {
    hide Prune, Note, RecordAll, AlreadyResolved;
    PassIs(db, order, e, policy, now);
    PruneTwice(db, policy, now);
    PruneTwice(Scanned(db, order, e, policy, now), policy, now);
  }

  lemma OnceAttention(db: Db, order: seq<Installation>, e: Entry, policy: Policy, now: int)
    requires !Stops(db, e, policy, now)
    ensures var a, once := Prune(db, policy, now), RecordEntry(db, order, e, policy, now);
            && once.attention == PrunedAttention(NotedAttention(a.attention, a.nextAttention, e.hook, policy, now), policy, now)
            && once.nextAttention == Noted(db, e, policy, now).nextAttention
  {
    hide PruneEvents, CascadeIndex, CascadeJobs, Note, RecordAll, AlreadyResolved, NotedAttention, DeleteAllButNewestAttention, DeleteExpiredAttention;
    PassIs(db, order, e, policy, now);
    NoteAttentionIs(Prune(db, policy, now), e.hook, policy, now);
    RecordAllLeavesRows(Noted(db, e, policy, now), order, e.hook, Some(e.targets), policy, now, e.expires);
  }

  lemma PrunedNumbers(db: Db, policy: Policy, now: int)
    requires Numbered(db)
    ensures Numbered(Prune(db, policy, now)) && AttentionTrimmed(Prune(db, policy, now).attention, policy, now)
  {
    hide PruneEvents, CascadeIndex, CascadeJobs;
    PrunedAttentionIsTrimmed(db.attention, policy, now);
    PrunedIsPart(db.attention, policy, now);
  }

  /** A harmless replay changes nothing at all, where the cap is not zero. */
  lemma {:induction false} HarmlessReplay(db: Db, order: seq<Installation>, again: seq<Installation>, e: Entry, policy: Policy, now: int)
    requires ReplayOk(db) && Lists(order, db) && e.hook.Valid()
    requires policy.maxEvents > 0 && Harmless(db, e, policy, now)
    ensures var once := RecordEntry(db, order, e, policy, now);
            var twice := RecordEntry(once, again, e, policy, now);
            SameButNumbers(twice, once) && (policy.ttl > 0 ==> twice == once)
  {
    hide StoreOk, OnlyInputsCancelled, Numbered, Lists, Prune, Record, Stops, Fits, LivesOn, WantedKeys, EveryoneServed, Trimmed, Settled,
         NotedAttention, PrunedAttention, AttentionTrimmed, Note;
    var once := RecordEntry(db, order, e, policy, now);
    if Stops(db, e, policy, now) {
      StoppedTwice(db, order, again, e, policy, now);
    } else {
      RunsInTime(db, e, policy, now);
      LivesNow(db, e, policy, now);
      FirstPassLeaves(db, order, e, policy, now, now);
      OnceIsPruned(db, order, e, policy, now);
      ServedPass(once, again, e, policy, now);
      OnceAttention(db, order, e, policy, now);
      NoteAttentionIs(once, e.hook, policy, now);
      var a := Prune(db, policy, now);
      PrunedNumbers(db, policy, now);
      AttentionSettlesIn(a, once.nextAttention, e.hook, policy, now);
      if policy.ttl > 0 && e.hook.HasRequest() {
        RequestKeptIn(a, e.hook, policy, now);
      }
    }
  }

  lemma RunsInTime(db: Db, e: Entry, policy: Policy, now: int)
    requires !Stops(db, e, policy, now)
    ensures now < e.expires
  {
  }

  lemma AttentionSettlesIn(a: Db, next: nat, hook: Hook, policy: Policy, now: int)
    requires AttentionTrimmed(a.attention, policy, now) && Numbered(a) && hook.Valid() && policy.maxEvents > 0
    ensures var t := PrunedAttention(NotedAttention(a.attention, a.nextAttention, hook, policy, now), policy, now);
            PrunedAttention(NotedAttention(t, next, hook, policy, now), policy, now) == t
  {
    hide AttentionTrimmed, PrunedAttention, NotedAttention;
    AttentionSettles(a.attention, a.nextAttention, next, hook, policy, now);
  }

  lemma RequestKeptIn(a: Db, hook: Hook, policy: Policy, now: int)
    requires AttentionTrimmed(a.attention, policy, now) && Numbered(a) && hook.HasRequest() && policy.ttl > 0 && policy.maxEvents > 0
    ensures AttentionKey(hook.sessionId, hook.reference) in
            PrunedAttention(NotedAttention(a.attention, a.nextAttention, hook, policy, now), policy, now)
  {
    hide AttentionTrimmed, PrunedAttention, NotedAttention;
    NotedRequestKept(a.attention, a.nextAttention, hook, policy, now);
  }

  lemma StoppedTwice(db: Db, order: seq<Installation>, again: seq<Installation>, e: Entry, policy: Policy, now: int)
    requires Stops(db, e, policy, now)
    ensures RecordEntry(RecordEntry(db, order, e, policy, now), again, e, policy, now) == RecordEntry(db, order, e, policy, now)
  {
    hide Prune, Note, RecordAll, AlreadyResolved;
    PruneTwice(db, policy, now);
  }

  lemma SameTablesAreSame(a: Db, b: Db)
    requires SamePushes(a, b) && a.attention == b.attention
    ensures Same(a, b)
  {
  }

  lemma AnewIsNotSame(b: Db, r: Db, key: EventKey, i: Installation, e: Entry)
    requires PushedAnew(b, r, key, i, e)
    ensures !Same(r, b) && !SamePushes(r, b)
  {
    assert EventOf(r, key) != EventOf(b, key);
  }

  /** Recording an entry again at the same time leaves the events, jobs and attention of the first pass exactly
      when the store before the first pass was harmless for it; otherwise somebody is pushed an event anew. */
  lemma {:induction false} ReplayIsHarmless(db: Db, order: seq<Installation>, again: seq<Installation>, e: Entry, policy: Policy, now: int)
    requires ReplayOk(db) && Lists(order, db) && Lists(again, db) && e.hook.Valid()
    ensures var once := RecordEntry(db, order, e, policy, now);
            var twice := RecordEntry(once, again, e, policy, now);
            (Same(twice, once) <==> Harmless(db, e, policy, now))
            && (!Harmless(db, e, policy, now) ==> exists key, i :: PushedAnew(once, twice, key, i, e))
  {
    hide StoreOk, OnlyInputsCancelled, Numbered, Lists, Prune, Record, Stops, Fits, LivesOn, PushedAnew, Same;
    var once := RecordEntry(db, order, e, policy, now);
    var twice := RecordEntry(once, again, e, policy, now);
    if Stops(db, e, policy, now) {
      StoppedTwice(db, order, again, e, policy, now);
      SameTablesAreSame(twice, once);
    } else if policy.maxEvents == 0 {
      RunsInTime(db, e, policy, now);
      PassEmpties(db, order, e, policy, now);
      PassEmpties(once, again, e, policy, now);
      SameTablesAreSame(twice, once);
    } else if Fits(db, e, policy, now) {
      HarmlessReplay(db, order, again, e, policy, now);
      SameTablesAreSame(twice, once);
    } else {
      RunsInTime(db, e, policy, now);
      ReplayPushesNothing(db, order, again, e, policy, now, now);
      OnceIsPruned(db, order, e, policy, now);
      var key, i :| PushedAnew(once, twice, key, i, e);
      AnewIsNotSame(once, twice, key, i, e);
    }
  }

  // ---- Any number of replays, at any later times ----

  /** Attempts in time order, all before the entry expires. */
  ghost predicate InTime(db: Db, e: Entry, tries: seq<Attempt>) {
    && tries != [] && (forall j :: 0 <= j < |tries| ==> Lists(tries[j].order, db) && tries[j].now < e.expires)
    && forall j, k :: 0 <= j < k < |tries| ==> tries[j].now <= tries[k].now
  }

  /** Attempt `j` leaves events and jobs as time alone would have left them. */
  ghost predicate Quiet(db: Db, e: Entry, tries: seq<Attempt>, policy: Policy, j: nat)
    requires j < |tries|
  {
    SamePushes(Attempts(db, e, tries[..j + 1], policy), Prune(Attempts(db, e, tries[..j], policy), policy, tries[j].now))
  }

  /** A replay at `t2` finds every wanted event that the first pass found or added. */
  predicate Holds(db: Db, e: Entry, policy: Policy, t1: int, t2: int) {
    policy.maxEvents == 0 || (Fits(db, e, policy, t1) && LivesOn(db, e, policy, t1, t2))
  }

  lemma HeldBefore(db: Db, e: Entry, policy: Policy, t1: int, t2: int, t3: int)
    requires t2 <= t3 && Holds(db, e, policy, t1, t3)
    ensures Holds(db, e, policy, t1, t2)
  {
    hide Fits, WantedKeys, Prune;
  }

  lemma NextAttempt(db: Db, e: Entry, tries: seq<Attempt>, policy: Policy, j: nat)
    requires j < |tries|
    ensures Attempts(db, e, tries[..j + 1], policy)
            == RecordEntry(Attempts(db, e, tries[..j], policy), tries[j].order, e, policy, tries[j].now)
  {
    hide RecordEntry;
    assert tries[..j + 1][..j] == tries[..j];
  }

  /** The rows of a store cut at `t1` that are left at `t3` do not depend on a pruning in between. */
  lemma PrunedBetween(db: Db, policy: Policy, t1: int, t2: int, t3: int)
    requires Trimmed(db, policy, t1) && t1 <= t2 <= t3
    ensures SamePushes(Prune(Prune(db, policy, t2), policy, t3), Prune(db, policy, t3))
  {
    hide DeleteAllButNewestAttention, DeleteExpiredAttention, AttentionTrimmed, DeleteExpiredEvents;
    OnlyExpiryCuts(db, policy, t1, t2);
    PrunedIsTrimmed(db, policy, t2);
    OnlyExpiryCuts(Prune(db, policy, t2), policy, t2, t3);
    OnlyExpiryCuts(db, policy, t1, t3);
    ExpiredTwice(db.events, t2, t3);
    hide PruneEvents;
    assert CascadeIndex(CascadeIndex(db.index, PruneEvents(db.events, policy.maxEvents, t2)), PruneEvents(db.events, policy.maxEvents, t3))
        == CascadeIndex(db.index, PruneEvents(db.events, policy.maxEvents, t3));
    assert CascadeJobs(CascadeJobs(db.outbox, PruneEvents(db.events, policy.maxEvents, t2)), PruneEvents(db.events, policy.maxEvents, t3))
        == CascadeJobs(db.outbox, PruneEvents(db.events, policy.maxEvents, t3));
  }

  lemma ExpiredTwice(events: map<nat, Event>, t2: int, t3: int)
    requires t2 <= t3
    ensures DeleteExpiredEvents(DeleteExpiredEvents(events, t2), t3) == DeleteExpiredEvents(events, t3)
    ensures forall c :: c in DeleteExpiredEvents(events, t3) ==> c in DeleteExpiredEvents(events, t2)
  {
  }

  lemma OnlyExpiryCuts(db: Db, policy: Policy, t1: int, t2: int)
    requires Trimmed(db, policy, t1) && t1 <= t2
    ensures Prune(db, policy, t2).events == DeleteExpiredEvents(db.events, t2)
    ensures PruneEvents(db.events, policy.maxEvents, t2) == DeleteExpiredEvents(db.events, t2)
  {
    hide DeleteAllButNewestAttention, DeleteExpiredAttention, AttentionTrimmed;
    var live := DeleteExpiredEvents(db.events, t2);
    forall c | c in live
      ensures |NewerEvents(live, c)| < policy.maxEvents
    {
      SubsetSize(NewerEvents(live, c), NewerEvents(db.events, c));
    }
  }

  lemma SamePushesPruned(a: Db, b: Db, policy: Policy, now: int)
    requires SamePushes(a, b)
    ensures SamePushes(Prune(a, policy, now), Prune(b, policy, now))
  {
  }

  /** What a replay at `t` finds after some attempts. */
  ghost predicate Finds(db: Db, e: Entry, first: Attempt, before: Db, policy: Policy, t: int) {
    && StoreOk(before) && before.registrations == db.registrations
    && Awaits(Prune(before, policy, t), e, policy, t)
    && SamePushes(Prune(before, policy, t), Prune(RecordEntry(db, first.order, e, policy, first.now), policy, t))
  }

  /** A replay is quiet exactly when it finds what it wants; otherwise somebody is pushed an event anew. */
  lemma ReplayOutcome(db: Db, e: Entry, first: Attempt, before: Db, again: Attempt, policy: Policy)
    requires StoreOk(db) && OnlyInputsCancelled(db) && e.hook.Valid() && Lists(first.order, db) && Lists(again.order, db)
    requires !Stops(db, e, policy, first.now) && first.now <= again.now < e.expires && policy.maxEvents > 0
    requires Finds(db, e, first, before, policy, again.now)
    ensures var lapsed, after := Prune(before, policy, again.now), RecordEntry(before, again.order, e, policy, again.now);
            if Holds(db, e, policy, first.now, again.now) then SamePushes(after, lapsed)
            else exists key, i :: PushedAnew(lapsed, after, key, i, e)
  {
    hide StoreOk, OnlyInputsCancelled, Lists, Prune, Record, Stops, Fits, LivesOn, WantedKeys, EveryoneServed, Trimmed, Settled, PushedAnew;
    var lapsed := Prune(before, policy, again.now);
    var clean := Prune(RecordEntry(db, first.order, e, policy, first.now), policy, again.now);
    FirstPassLeaves(db, first.order, e, policy, first.now, again.now);
    PassPrunesFirst(before, again.order, e, policy, again.now);
    SameWantedKeys(db, lapsed, e, policy);
    if Holds(db, e, policy, first.now, again.now) {
      SamePushesServed(lapsed, clean, e, policy);
      ServedPass(lapsed, again.order, e, policy, again.now);
    } else {
      ListsAlso(again.order, db, lapsed);
      var key, i := UnservedPass(lapsed, again.order, e, policy, again.now);
    }
  }

  lemma SettledAlike(a: Db, b: Db, hook: Hook)
    requires SamePushes(a, b) && Settled(b, hook)
    ensures Settled(a, hook)
  {
  }

  /** After a quiet replay the next one finds the same. */
  lemma FindsAgain(db: Db, e: Entry, first: Attempt, before: Db, again: Attempt, policy: Policy, t: int)
    requires StoreOk(db) && OnlyInputsCancelled(db) && e.hook.Valid() && Lists(first.order, db)
    requires !Stops(db, e, policy, first.now) && first.now <= again.now <= t < e.expires
    requires Finds(db, e, first, before, policy, again.now)
    requires SamePushes(RecordEntry(before, again.order, e, policy, again.now), Prune(before, policy, again.now))
    ensures Finds(db, e, first, RecordEntry(before, again.order, e, policy, again.now), policy, t)
  {
    hide StoreOk, OnlyInputsCancelled, Lists, Prune, Note, RecordAll, Fits, LivesOn, WantedKeys, EveryoneServed, Trimmed, Settled, AlreadyResolved, Record;
    var once := RecordEntry(db, first.order, e, policy, first.now);
    var after := RecordEntry(before, again.order, e, policy, again.now);
    var lapsed := Prune(after, policy, t);
    RecordEntryKeeps(before, again.order, e, policy, again.now);
    PruneKeeps(after, policy, t);
    PrunedIsTrimmed(after, policy, t);
    PruneTwice(after, policy, t);
    FirstPassLeaves(db, first.order, e, policy, first.now, t);
    SamePushesPruned(after, Prune(before, policy, again.now), policy, t);
    SamePushesPruned(Prune(before, policy, again.now), Prune(once, policy, again.now), policy, t);
    OnceIsPruned(db, first.order, e, policy, first.now);
    PrunedIsTrimmed(once, policy, first.now);
    PrunedBetween(once, policy, first.now, again.now, t);
    SettledAlike(lapsed, Prune(once, policy, t), e.hook);
    PruneTwice(before, policy, again.now);
    PassIs(before, again.order, e, policy, again.now);
    StillUnresolved(before, again.order, e, policy, again.now, t);
    PruneLeavesRegistrations(before, policy, again.now);
  }

  lemma FirstFinds(db: Db, e: Entry, first: Attempt, policy: Policy, t: int)
    requires StoreOk(db) && OnlyInputsCancelled(db) && e.hook.Valid() && Lists(first.order, db)
    requires !Stops(db, e, policy, first.now) && first.now <= t < e.expires
    ensures Finds(db, e, first, RecordEntry(db, first.order, e, policy, first.now), policy, t)
  {
    hide StoreOk, OnlyInputsCancelled, Lists, Prune, Record, Stops, Fits, LivesOn, WantedKeys, EveryoneServed, Trimmed, Settled;
    FirstPassLeaves(db, first.order, e, policy, first.now, t);
    RecordEntryKeeps(db, first.order, e, policy, first.now);
    RecordLeavesRows(db, first.order, e.hook, Some(e.targets), policy, first.now, e.expires);
  }

  /** The requirements of a first pass that recorded and whose replays are in time. */
  ghost predicate FirstRecorded(db: Db, e: Entry, tries: seq<Attempt>, policy: Policy) {
    && StoreOk(db) && OnlyInputsCancelled(db) && e.hook.Valid() && InTime(db, e, tries)
    && !Stops(db, e, policy, tries[0].now) && policy.maxEvents > 0
  }

  lemma {:induction false} ReplaysFind(db: Db, e: Entry, tries: seq<Attempt>, policy: Policy, n: nat, t: int)
    requires FirstRecorded(db, e, tries, policy) && 1 <= n <= |tries| && tries[n - 1].now <= t < e.expires
    requires n > 1 ==> Holds(db, e, policy, tries[0].now, tries[n - 1].now)
    ensures Finds(db, e, tries[0], Attempts(db, e, tries[..n], policy), policy, t)
  {
    hide StoreOk, OnlyInputsCancelled, Lists, Stops, Finds, RecordEntry, Attempts, Holds;
    assert Lists(tries[0].order, db);
    NextAttempt(db, e, tries, policy, n - 1);
    if n == 1 {
      NoAttempts(db, e, tries, policy);
      FirstFinds(db, e, tries[0], policy, t);
    } else {
      var again := tries[n - 1];
      var before := Attempts(db, e, tries[..n - 1], policy);
      HeldBefore(db, e, policy, tries[0].now, tries[n - 2].now, again.now);
      ReplaysFind(db, e, tries, policy, n - 1, again.now);
      assert Lists(again.order, db);
      ReplayOutcome(db, e, tries[0], before, again, policy);
      FindsAgain(db, e, tries[0], before, again, policy, t);
    }
  }

  lemma NoAttempts(db: Db, e: Entry, tries: seq<Attempt>, policy: Policy)
    ensures Attempts(db, e, tries[..0], policy) == db
  {
  }

  lemma ReplayQuiet(db: Db, e: Entry, tries: seq<Attempt>, policy: Policy, j: nat)
    requires FirstRecorded(db, e, tries, policy) && 1 <= j < |tries|
    requires j > 1 ==> Holds(db, e, policy, tries[0].now, tries[j - 1].now)
    ensures Quiet(db, e, tries, policy, j) <==> Holds(db, e, policy, tries[0].now, tries[j].now)
  {
    hide StoreOk, OnlyInputsCancelled, Lists, Stops, Finds, RecordEntry, Attempts, Holds, PushedAnew, Prune, SamePushes;
    assert Lists(tries[0].order, db) && Lists(tries[j].order, db);
    var before := Attempts(db, e, tries[..j], policy);
    ReplaysFind(db, e, tries, policy, j, tries[j].now);
    NextAttempt(db, e, tries, policy, j);
    ReplayOutcome(db, e, tries[0], before, tries[j], policy);
    var lapsed, after := Prune(before, policy, tries[j].now), Attempts(db, e, tries[..j + 1], policy);
    if !Holds(db, e, policy, tries[0].now, tries[j].now) {
      var key, i :| PushedAnew(lapsed, after, key, i, e);
      AnewIsNotSame(lapsed, after, key, i, e);
    }
  }

  lemma {:induction false} ReplaysQuiet(db: Db, e: Entry, tries: seq<Attempt>, policy: Policy, n: nat)
    requires FirstRecorded(db, e, tries, policy) && 1 <= n < |tries|
    ensures (forall j :: 1 <= j <= n ==> Quiet(db, e, tries, policy, j)) <==> Holds(db, e, policy, tries[0].now, tries[n].now)
  {
    hide StoreOk, OnlyInputsCancelled, Lists, Stops, Quiet, Holds;
    if n == 1 {
      ReplayQuiet(db, e, tries, policy, 1);
    } else {
      ReplaysQuiet(db, e, tries, policy, n - 1);
      if Holds(db, e, policy, tries[0].now, tries[n - 1].now) {
        ReplayQuiet(db, e, tries, policy, n);
      } else if Holds(db, e, policy, tries[0].now, tries[n].now) {
        HeldBefore(db, e, policy, tries[0].now, tries[n - 1].now, tries[n].now);
      }
    }
  }

  lemma NoRoomQuiet(db: Db, e: Entry, tries: seq<Attempt>, policy: Policy, j: nat)
    requires InTime(db, e, tries) && policy.maxEvents == 0 && j < |tries|
    ensures Quiet(db, e, tries, policy, j)
  {
    hide RecordEntry, Attempts, Prune, Lists;
    var before, t := Attempts(db, e, tries[..j], policy), tries[j];
    NextAttempt(db, e, tries, policy, j);
    PassEmpties(before, t.order, e, policy, t.now);
    NoRoomEmpties(before, policy, t.now);
    PruneLeavesRegistrations(before, policy, t.now);
  }

  /** However often and however much later an entry is replayed before it expires, no replay touches events or
      jobs: exactly when the first pass had room, and the wanted rows it found live until the last replay. */
  lemma {:induction false} ReplaysPushNothing(db: Db, e: Entry, tries: seq<Attempt>, policy: Policy)
    requires StoreOk(db) && OnlyInputsCancelled(db) && e.hook.Valid() && InTime(db, e, tries) && |tries| >= 2
    requires !Stops(db, e, policy, tries[0].now)
    ensures (forall j :: 1 <= j < |tries| ==> Quiet(db, e, tries, policy, j)) <==>
            Holds(db, e, policy, tries[0].now, tries[|tries| - 1].now)
  {
    hide StoreOk, OnlyInputsCancelled, InTime, Stops, Quiet, Fits, LivesOn;
    if policy.maxEvents == 0 {
      forall j | 1 <= j < |tries|
        ensures Quiet(db, e, tries, policy, j)
      {
        NoRoomQuiet(db, e, tries, policy, j);
      }
    } else {
      ReplaysQuiet(db, e, tries, policy, |tries| - 1);
    }
  }

  // ---- Room that can be checked before the call ----

  lemma GrownSize(a: Db, b: Db, missing: set<EventKey>, expires: int)
    requires Grown(a, b, missing, expires)
    ensures |b.events| <= |a.events| + |missing|
  {
    SubsetSize(b.events.Keys, a.events.Keys + Range(a.nextCursor, b.nextCursor));
  }

  lemma NotedSize(db: Db, hook: Hook, policy: Policy, now: int)
    ensures |Note(db, hook, policy, now).attention| <= |db.attention| + 1
  {
    hide NotedAttention, ResolveSession;
    var about, noted := AttentionKey(hook.sessionId, hook.reference), Note(db, hook, policy, now).attention;
    NoteAttentionIs(db, hook, policy, now);
    NotedKeys(db, hook, policy, now);
    SubsetSize(noted.Keys, db.attention.Keys + {about});
  }

  lemma NotedKeys(db: Db, hook: Hook, policy: Policy, now: int)
    ensures forall a :: a in NotedAttention(db.attention, db.nextAttention, hook, policy, now) ==>
                        a in db.attention || a == AttentionKey(hook.sessionId, hook.reference)
  {
  }

  /** Tables with room for the wanted events and one request are left alone by the caps throughout the call. */
  lemma {:induction false} RoomIsEnough(db: Db, order: seq<Installation>, e: Entry, policy: Policy, now: int)
    requires StoreOk(db) && Lists(order, db)
    requires |db.events| + |WantedKeys(db, e, policy)| <= policy.maxEvents && |db.attention| + 1 <= policy.maxEvents
    ensures Roomy(db, order, e, policy, now)
  {
    hide StoreOk, IndexOk, Lists, Note, RecordAll, MissingIn, Grown, CapsIdle, WantedKeys;
    var trimmed := Trim(db, now);
    var noted := Note(trimmed, e.hook, policy, now);
    var scan := Scan(db, order, e, policy, now);
    SmallTablesAreIdle(db, policy, now);
    TrimKeeps(db, now);
    NoteKeeps(trimmed, e.hook, policy, now);
    StoreIndexOk(noted);
    NoteKeepsRows(trimmed, e.hook, policy, now);
    NotedSize(trimmed, e.hook, policy, now);
    RecordAllGrows(noted, order, e, policy, now);
    RecordAllLeavesRows(noted, order, e.hook, Some(e.targets), policy, now, e.expires);
    MissingListed(db, noted, order, e, policy);
    SubsetSize(MissingIn(noted, order, e, policy), WantedKeys(db, e, policy));
    GrownSize(noted, scan, MissingIn(noted, order, e, policy), e.expires);
    SubsetSize(trimmed.events.Keys, db.events.Keys);
    SubsetSize(trimmed.attention.Keys, db.attention.Keys);
    assert |noted.events.Keys| == |trimmed.events.Keys|;
    SmallTablesAreIdle(scan, policy, now);
  }
}
