/** Draining the inbox records an event and only then removes it, so a crash in between records it again. Where
    the count caps cut nothing, recording again is recording once, at the later time, up to fresh identifiers and
    creation times. */
module PushDrain {
  import opened Basics
  import opened PushTypes
  import opened PushModel
  import opened PushInvariant

  // ---- The tables up to identifiers and creation times ----

  datatype EventFacts = EventFacts(expiresAt: int, cancelled: bool)

  datatype JobFacts = JobFacts(attempts: nat, lease: Option<nat>, leaseUntil: int, done: bool, nonce: Option<string>, expires: Option<int>)

  datatype AttentionFacts = AttentionFacts(resolved: bool, expiresAt: int)

  function EventOf(db: Db, key: EventKey): Option<EventFacts> {
    if key in db.index && db.index[key] in db.events then
      Some(EventFacts(db.events[db.index[key]].expiresAt, db.events[db.index[key]].cancelled))
    else None
  }

  function FactsOf(job: Job): JobFacts {
    JobFacts(job.attempts, job.lease, job.leaseUntil, job.done,
             if job.payload.Some? then Some(job.payload.value.nonce) else None,
             if job.payload.Some? then Some(job.payload.value.expires) else None)
  }

  function JobOf(db: Db, key: EventKey, i: Installation, generation: nat): Option<JobFacts> {
    if key in db.index && JobKey(db.index[key], i, generation) in db.outbox then
      Some(FactsOf(db.outbox[JobKey(db.index[key], i, generation)]))
    else None
  }

  function AttentionOf(db: Db, a: AttentionKey): Option<AttentionFacts> {
    if a in db.attention then Some(AttentionFacts(db.attention[a].resolved, db.attention[a].expiresAt)) else None
  }

  ghost predicate Same(a: Db, b: Db) {
    && a.registrations == b.registrations
    && (forall key :: EventOf(a, key) == EventOf(b, key))
    && (forall key, i, g :: JobOf(a, key, i, g) == JobOf(b, key, i, g))
    && (forall k :: AttentionOf(a, k) == AttentionOf(b, k))
  }

  // ---- Recording where the count caps delete nothing ----

  function Trim(db: Db, now: int): Db {
    var events := DeleteExpiredEvents(db.events, now);
    db.(events := events, index := CascadeIndex(db.index, events), outbox := CascadeJobs(db.outbox, events),
        attention := DeleteExpiredAttention(db.attention, now))
  }

  /** The count caps delete nothing once the expired rows are gone. */
  predicate CapsIdle(db: Db, policy: Policy, now: int) {
    && DeleteAllButNewestEvents(DeleteExpiredEvents(db.events, now), policy.maxEvents) == DeleteExpiredEvents(db.events, now)
    && DeleteAllButNewestAttention(DeleteExpiredAttention(db.attention, now), policy.maxEvents) == DeleteExpiredAttention(db.attention, now)
  }

  lemma IdlePruneTrims(db: Db, policy: Policy, now: int)
    requires CapsIdle(db, policy, now)
    ensures Prune(db, policy, now) == Trim(db, now)
  {
  }

  /** Tables with no more rows than the cap are left alone by it. */
  lemma SmallTablesAreIdle(db: Db, policy: Policy, now: int)
    requires |db.events| <= policy.maxEvents && |db.attention| <= policy.maxEvents
    ensures CapsIdle(db, policy, now)
  {
    var live := DeleteExpiredEvents(db.events, now);
    forall c | c in live
      ensures |NewerEvents(live, c)| < policy.maxEvents
    {
      SubsetSize(NewerEvents(live, c), db.events.Keys - {c});
    }
    var noted := DeleteExpiredAttention(db.attention, now);
    forall a | a in noted
      ensures |NewerAttention(noted, noted[a].row)| < policy.maxEvents
    {
      SubsetSize(NewerAttention(noted, noted[a].row), db.attention.Keys - {a});
    }
  }

  datatype Entry = Entry(hook: Hook, targets: map<Installation, nat>, expires: int)

  function Scan(db: Db, order: seq<Installation>, e: Entry, policy: Policy, now: int): Db {
    RecordAll(Note(Trim(db, now), e.hook, policy, now), order, e.hook, Some(e.targets), policy, now, e.expires)
  }

  function RecordEntry(db: Db, order: seq<Installation>, e: Entry, policy: Policy, now: int): Db {
    Record(db, order, e.hook, Some(e.targets), policy, now, e.expires)
  }

  predicate Roomy(db: Db, order: seq<Installation>, e: Entry, policy: Policy, now: int) {
    CapsIdle(db, policy, now) && CapsIdle(Scan(db, order, e, policy, now), policy, now)
  }

  ghost predicate Lists(order: seq<Installation>, db: Db) {
    forall i :: i in db.registrations <==> i in order
  }

  // ---- What recording does to each row ----

  function TrimmedEvent(e: Option<EventFacts>, now: int): Option<EventFacts> {
    if e.Some? && e.value.expiresAt > now then e else None
  }

  function TrimmedAttention(a: Option<AttentionFacts>, now: int): Option<AttentionFacts> {
    if a.Some? && a.value.expiresAt > now then a else None
  }

  predicate Cancels(hook: Hook, key: EventKey) {
    && key.source.FromHook? && key.source.hook.kind == Input && key.source.hook.sessionId == hook.sessionId
    && (hook.EndsTurn() || (hook.kind == InputResolved && key.source.hook.reference == hook.reference))
  }

  predicate Sweeps(hook: Hook) {
    hook.EndsTurn() || hook.kind == InputResolved
  }

  function NotedEvent(e: Option<EventFacts>, hook: Hook, key: EventKey): Option<EventFacts> {
    if e.Some? && Cancels(hook, key) then Some(e.value.(cancelled := true)) else e
  }

  /** Recording stops early for an input whose resolution is remembered. */
  predicate Early(a: Option<AttentionFacts>, hook: Hook, now: int) {
    hook.kind == Input && TrimmedAttention(a, now).Some? && TrimmedAttention(a, now).value.resolved
  }

  ghost predicate Wanted(db: Db, key: EventKey, e: Entry, policy: Policy) {
    exists i :: i in db.registrations && Queues(db, i, e.hook, Some(e.targets), policy)
                && key == EventKey(db.registrations[i].owner, FromHook(e.hook))
  }

  predicate WantedJob(db: Db, key: EventKey, i: Installation, g: nat, e: Entry, policy: Policy) {
    Queues(db, i, e.hook, Some(e.targets), policy) && key == EventKey(db.registrations[i].owner, FromHook(e.hook))
    && g == db.registrations[i].generation
  }

  function EventAfter(before: Option<EventFacts>, hook: Hook, key: EventKey, now: int, expires: int, early: bool, wanted: bool): Option<EventFacts> {
    var live := TrimmedEvent(before, now);
    if early then live
    else if live.None? && wanted then Some(EventFacts(expires, false))
    else NotedEvent(live, hook, key)
  }

  function JobAfter(before: Option<JobFacts>, event: Option<EventFacts>, hook: Hook, key: EventKey, now: int, early: bool,
                    wanted: bool, made: JobFacts): Option<JobFacts> {
    var live := TrimmedEvent(event, now);
    var kept := if live.None? then None else before;
    if early then kept
    else
      var noted := if Sweeps(hook) && live.Some? && NotedEvent(live, hook, key).value.cancelled then None else kept;
      if noted.None? && wanted then Some(made) else noted
  }

  function AttentionAfter(before: Option<AttentionFacts>, a: AttentionKey, hook: Hook, policy: Policy, now: int, early: bool): Option<AttentionFacts> {
    var live := TrimmedAttention(before, now);
    if early then live
    else if hook.HasRequest() && a == AttentionKey(hook.sessionId, hook.reference) then
      TrimmedAttention(Some(AttentionFacts((live.Some? && live.value.resolved) || hook.kind == InputResolved, now + policy.ttl * 2)), now)
    else if hook.EndsTurn() && a.sessionId == hook.sessionId && live.Some? then Some(live.value.(resolved := true))
    else live
  }

  function FreshJob(db: Db, i: Installation, e: Entry): JobFacts {
    JobFacts(0, None, 0, false, if i in db.registrations then Some(db.registrations[i].nonce) else None, Some(e.expires))
  }

  predicate EarlyIn(db: Db, e: Entry, now: int) {
    Early(AttentionOf(db, AttentionKey(e.hook.sessionId, e.hook.reference)), e.hook, now)
  }

  // ---- The stages ----

  lemma TrimFacts(db: Db, now: int)
    requires IndexOk(db)
    ensures forall key :: EventOf(Trim(db, now), key) == TrimmedEvent(EventOf(db, key), now)
    ensures forall key, i, g :: JobOf(Trim(db, now), key, i, g) == if TrimmedEvent(EventOf(db, key), now).None? then None else JobOf(db, key, i, g)
    ensures forall a :: AttentionOf(Trim(db, now), a) == TrimmedAttention(AttentionOf(db, a), now)
    ensures Trim(db, now).registrations == db.registrations
  {
  }

  lemma TrimKeeps(db: Db, now: int)
    requires StoreOk(db)
    ensures StoreOk(Trim(db, now))
  {
  }

  /** Cancelling inputs of a session, or of one request in it, and dropping the jobs of every cancelled event. */
  lemma CancelFacts(db: Db, sessionId: string, request: Option<string>, key: EventKey, i: Installation, g: nat)
    requires IndexOk(db)
    ensures var e, db' := EventOf(db, key), CancelAttention(db, sessionId, request);
            var hit := key.source.FromHook? && key.source.hook.kind == Input && key.source.hook.sessionId == sessionId
                       && (request.Some? ==> key.source.hook.reference == request.value);
            && EventOf(db', key) == (if e.Some? && hit then Some(e.value.(cancelled := true)) else e)
            && JobOf(db', key, i, g) == (if e.Some? && (hit || e.value.cancelled) then None else JobOf(db, key, i, g))
            && db'.registrations == db.registrations
  {
  }

  lemma UpsertFacts(db: Db, a: AttentionKey, resolved: bool, expires: int, key: EventKey, i: Installation, g: nat)
    requires IndexOk(db)
    ensures var db' := UpsertAttention(db, a, resolved, expires);
            IndexOk(db') && EventOf(db', key) == EventOf(db, key) && JobOf(db', key, i, g) == JobOf(db, key, i, g)
            && db'.registrations == db.registrations
  {
  }

  lemma ResolveFacts(db: Db, attention: map<AttentionKey, Attention>, key: EventKey, i: Installation, g: nat)
    ensures var db' := db.(attention := attention);
            EventOf(db', key) == EventOf(db, key) && JobOf(db', key, i, g) == JobOf(db, key, i, g)
  {
  }

  lemma NoteFacts(db: Db, hook: Hook, policy: Policy, now: int, key: EventKey, i: Installation, g: nat)
    requires IndexOk(db) && hook.Valid()
    ensures EventOf(Note(db, hook, policy, now), key) == NotedEvent(EventOf(db, key), hook, key)
    ensures JobOf(Note(db, hook, policy, now), key, i, g)
            == if Sweeps(hook) && EventOf(db, key).Some? && NotedEvent(EventOf(db, key), hook, key).value.cancelled then None else JobOf(db, key, i, g)
    ensures Note(db, hook, policy, now).registrations == db.registrations
  {
    hide IndexOk, EventOf, JobOf, CancelAttention, UpsertAttention, ResolveSession;
    var a, expires := AttentionKey(hook.sessionId, hook.reference), now + policy.ttl * 2;
    UpsertFacts(db, a, hook.kind == InputResolved, expires, key, i, g);
    CancelFacts(UpsertAttention(db, a, hook.kind == InputResolved, expires), hook.sessionId, Some(hook.reference), key, i, g);
    CancelFacts(db, hook.sessionId, None, key, i, g);
    var cancelled := CancelAttention(db, hook.sessionId, None);
    ResolveFacts(cancelled, ResolveSession(cancelled.attention, hook.sessionId), key, i, g);
  }

  function NotedAttention(attention: map<AttentionKey, Attention>, next: nat, hook: Hook, policy: Policy, now: int): map<AttentionKey, Attention> {
    var a := AttentionKey(hook.sessionId, hook.reference);
    if hook.HasRequest() then
      attention[a := Attention(if a in attention then attention[a].row else next,
                               (a in attention && attention[a].resolved) || hook.kind == InputResolved, now + policy.ttl * 2)]
    else if hook.EndsTurn() then ResolveSession(attention, hook.sessionId)
    else attention
  }

  lemma NoteAttentionIs(db: Db, hook: Hook, policy: Policy, now: int)
    ensures Note(db, hook, policy, now).attention == NotedAttention(db.attention, db.nextAttention, hook, policy, now)
    ensures Note(db, hook, policy, now).nextAttention >= db.nextAttention
    ensures policy.ttl > 0 && AttentionKey(hook.sessionId, hook.reference) in db.attention ==>
              Note(db, hook, policy, now).nextAttention == db.nextAttention
    ensures hook.EndsTurn() ==> Note(db, hook, policy, now).nextAttention == db.nextAttention
  {
    hide CancelInputs, DeleteJobsOfCancelled, ResolveSession;
  }

  lemma NoteAttentionFacts(db: Db, hook: Hook, policy: Policy, now: int, a: AttentionKey)
    requires hook.Valid()
    ensures var before := AttentionOf(db, a);
            AttentionOf(Note(db, hook, policy, now), a) ==
              if hook.HasRequest() && a == AttentionKey(hook.sessionId, hook.reference) then
                Some(AttentionFacts((before.Some? && before.value.resolved) || hook.kind == InputResolved, now + policy.ttl * 2))
              else if hook.EndsTurn() && a.sessionId == hook.sessionId && before.Some? then Some(before.value.(resolved := true))
              else before
  {
    hide Note;
    NoteAttentionIs(db, hook, policy, now);
  }

  ghost predicate WantedBy(db: Db, order: seq<Installation>, key: EventKey, e: Entry, policy: Policy) {
    exists i :: i in order && Queues(db, i, e.hook, Some(e.targets), policy) && key == EventKey(db.registrations[i].owner, FromHook(e.hook))
  }

  predicate Hits(db: Db, i: Installation, e: Entry, policy: Policy, key: EventKey) {
    Queues(db, i, e.hook, Some(e.targets), policy) && key == EventKey(db.registrations[i].owner, FromHook(e.hook))
  }

  lemma RecordForEvents(db: Db, i: Installation, e: Entry, policy: Policy, now: int, key: EventKey)
    requires IndexOk(db)
    ensures var db' := RecordFor(db, i, e.hook, Some(e.targets), policy, now, e.expires);
            EventOf(db', key) == if EventOf(db, key).None? && Hits(db, i, e, policy, key) then Some(EventFacts(e.expires, false)) else EventOf(db, key)
  {
    hide Target, Captured;
  }

  lemma QueuesListed(db: Db, i: Installation, e: Entry, policy: Policy)
    requires Queues(db, i, e.hook, Some(e.targets), policy)
    ensures i in db.registrations
  {
  }

  lemma RecordForJobs(db: Db, i: Installation, e: Entry, policy: Policy, now: int, key: EventKey, j: Installation, g: nat)
    requires IndexOk(db) && JobsOk(db)
    ensures var db' := RecordFor(db, i, e.hook, Some(e.targets), policy, now, e.expires);
            JobOf(db', key, j, g) ==
              if JobOf(db, key, j, g).None? && Hits(db, i, e, policy, key) && j == i && g == db.registrations[i].generation then Some(FreshJob(db, i, e))
              else JobOf(db, key, j, g)
  {
    hide Queues;
    assert forall k :: k in db.outbox ==> JobOk(db, k);
    if Queues(db, i, e.hook, Some(e.targets), policy) {
      QueuesListed(db, i, e, policy);
    }
  }

  lemma RecordForFacts(db: Db, i: Installation, e: Entry, policy: Policy, now: int, key: EventKey, j: Installation, g: nat)
    requires StoreOk(db)
    ensures var db' := RecordFor(db, i, e.hook, Some(e.targets), policy, now, e.expires);
            var hits := Queues(db, i, e.hook, Some(e.targets), policy) && key == EventKey(db.registrations[i].owner, FromHook(e.hook));
            && db'.registrations == db.registrations && db'.attention == db.attention
            && EventOf(db', key) == (if EventOf(db, key).None? && hits then Some(EventFacts(e.expires, false)) else EventOf(db, key))
            && JobOf(db', key, j, g) ==
                 (if JobOf(db, key, j, g).None? && hits && j == i && g == db.registrations[i].generation then Some(FreshJob(db, i, e))
                  else JobOf(db, key, j, g))
  {
    hide IndexOk, JobsOk, EventOf, JobOf, FreshJob, AllowsHook, Captured;
    RecordForEvents(db, i, e, policy, now, key);
    RecordForJobs(db, i, e, policy, now, key, j, g);
  }

  lemma {:induction false} RecordAllFacts(db: Db, order: seq<Installation>, e: Entry, policy: Policy, now: int, key: EventKey, j: Installation, g: nat)
    requires StoreOk(db)
    ensures var db' := RecordAll(db, order, e.hook, Some(e.targets), policy, now, e.expires);
            && db'.registrations == db.registrations && db'.attention == db.attention
            && EventOf(db', key) == (if EventOf(db, key).None? && WantedBy(db, order, key, e, policy) then Some(EventFacts(e.expires, false))
                                     else EventOf(db, key))
            && JobOf(db', key, j, g) == (if JobOf(db, key, j, g).None? && j in order && WantedJob(db, key, j, g, e, policy) then Some(FreshJob(db, j, e))
                                         else JobOf(db, key, j, g))
  {
    hide StoreOk, EventOf, JobOf, RecordFor;
    if order != [] {
      var front, i := order[..|order| - 1], order[|order| - 1];
      var before := RecordAll(db, front, e.hook, Some(e.targets), policy, now, e.expires);
      RecordAllFacts(db, front, e, policy, now, key, j, g);
      RecordAllKeeps(db, front, e.hook, Some(e.targets), policy, now, e.expires);
      RecordForFacts(before, i, e, policy, now, key, j, g);
      WantedGrows(db, before, front, i, key, e, policy);
      assert j in order <==> j in front || j == i;
    }
  }

  lemma WantedGrows(db: Db, before: Db, front: seq<Installation>, i: Installation, key: EventKey, e: Entry, policy: Policy)
    requires before.registrations == db.registrations
    ensures WantedBy(db, front + [i], key, e, policy) <==>
            WantedBy(db, front, key, e, policy)
            || (Queues(before, i, e.hook, Some(e.targets), policy) && key == EventKey(before.registrations[i].owner, FromHook(e.hook)))
    ensures forall order :: |order| == |front| + 1 && order[..|front|] == front && order[|front|] == i ==> order == front + [i]
  {
    var order := front + [i];
    assert i in order && forall k :: k in front ==> k in order;
    assert forall k :: k in order ==> k in front || k == i;
  }

  lemma ListedIsWanted(db: Db, noted: Db, order: seq<Installation>, key: EventKey, e: Entry, policy: Policy)
    requires Lists(order, db) && noted.registrations == db.registrations
    ensures WantedBy(noted, order, key, e, policy) <==> Wanted(db, key, e, policy)
  {
  }

  /** Recording without an early stop, row by row. */
  lemma ScanFacts(db: Db, order: seq<Installation>, e: Entry, policy: Policy, now: int, key: EventKey, i: Installation, g: nat)
    requires StoreOk(db) && Lists(order, db) && e.hook.Valid() && e.expires > now
    ensures var scanned := Scan(db, order, e, policy, now);
            && scanned.registrations == db.registrations && StoreOk(scanned)
            && EventOf(scanned, key) == EventAfter(EventOf(db, key), e.hook, key, now, e.expires, false, Wanted(db, key, e, policy))
            && JobOf(scanned, key, i, g) == JobAfter(JobOf(db, key, i, g), EventOf(db, key), e.hook, key, now, false,
                                                     WantedJob(db, key, i, g, e, policy), FreshJob(db, i, e))
  {
    hide StoreOk, EventOf, JobOf, RecordAll, Note, Trim, Wanted, WantedBy;
    var trimmed := Trim(db, now);
    var noted := Note(trimmed, e.hook, policy, now);
    TrimKeeps(db, now);
    StoreIndexOk(db);
    StoreIndexOk(trimmed);
    TrimFacts(db, now);
    NoteKeeps(trimmed, e.hook, policy, now);
    NoteFacts(trimmed, e.hook, policy, now, key, i, g);
    RecordAllFacts(noted, order, e, policy, now, key, i, g);
    RecordAllKeeps(noted, order, e.hook, Some(e.targets), policy, now, e.expires);
    ListedIsWanted(db, noted, order, key, e, policy);
    SameWantedJob(db, noted, key, i, g, e, policy);
  }

  lemma SameWantedJob(db: Db, noted: Db, key: EventKey, i: Installation, g: nat, e: Entry, policy: Policy)
    requires noted.registrations == db.registrations
    ensures WantedJob(noted, key, i, g, e, policy) == WantedJob(db, key, i, g, e, policy)
    ensures FreshJob(noted, i, e) == FreshJob(db, i, e)
    ensures WantedJob(db, key, i, g, e, policy) ==> i in db.registrations
  {
  }

  lemma ScanAttention(db: Db, order: seq<Installation>, e: Entry, policy: Policy, now: int, a: AttentionKey)
    requires StoreOk(db) && e.hook.Valid()
    ensures TrimmedAttention(AttentionOf(Scan(db, order, e, policy, now), a), now) == AttentionAfter(AttentionOf(db, a), a, e.hook, policy, now, false)
  {
    hide StoreOk, EventOf, JobOf, RecordAll, Note, Trim, AttentionOf;
    var noted := Note(Trim(db, now), e.hook, policy, now);
    TrimKeeps(db, now);
    StoreIndexOk(db);
    TrimFacts(db, now);
    NoteKeeps(Trim(db, now), e.hook, policy, now);
    NoteAttentionFacts(Trim(db, now), e.hook, policy, now, a);
    RecordAllFacts(noted, order, e, policy, now, EventKey(Principal("", ""), ChallengeFor("", 0)), "", 0);
    SameAttention(noted, Scan(db, order, e, policy, now), a);
  }

  lemma SameAttention(a: Db, b: Db, k: AttentionKey)
    requires a.attention == b.attention
    ensures AttentionOf(a, k) == AttentionOf(b, k)
  {
  }

  lemma RecordIs(db: Db, order: seq<Installation>, e: Entry, policy: Policy, now: int)
    requires IndexOk(db) && Roomy(db, order, e, policy, now) && e.expires > now
    ensures RecordEntry(db, order, e, policy, now) ==
            if EarlyIn(db, e, now) then Trim(db, now) else Trim(Scan(db, order, e, policy, now), now)
  {
    hide Prune, Trim, RecordAll, Note, CapsIdle;
    IdlePruneTrims(db, policy, now);
    IdlePruneTrims(Scan(db, order, e, policy, now), policy, now);
    TrimFacts(db, now);
    assert AlreadyResolved(Trim(db, now), e.hook) == EarlyIn(db, e, now);
  }

  lemma RecordRow(db: Db, order: seq<Installation>, e: Entry, policy: Policy, now: int, key: EventKey, i: Installation, g: nat)
    requires StoreOk(db) && Lists(order, db) && e.hook.Valid() && e.expires > now && Roomy(db, order, e, policy, now)
    ensures var db', early := RecordEntry(db, order, e, policy, now), EarlyIn(db, e, now);
            && db'.registrations == db.registrations
            && EventOf(db', key) == EventAfter(EventOf(db, key), e.hook, key, now, e.expires, early, Wanted(db, key, e, policy))
            && JobOf(db', key, i, g) == JobAfter(JobOf(db, key, i, g), EventOf(db, key), e.hook, key, now, early,
                                                 WantedJob(db, key, i, g, e, policy), FreshJob(db, i, e))
  {
    hide StoreOk, EventOf, JobOf, AttentionOf, Scan, Trim, Wanted, WantedJob, FreshJob, Roomy, RecordEntry, EarlyIn;
    StoreIndexOk(db);
    RecordIs(db, order, e, policy, now);
    TrimFacts(db, now);
    if !EarlyIn(db, e, now) {
      var scanned := Scan(db, order, e, policy, now);
      ScanFacts(db, order, e, policy, now, key, i, g);
      StoreIndexOk(scanned);
      TrimFacts(scanned, now);
      NoEventNoJob(scanned, key, i, g);
    }
  }

  lemma RecordRowAttention(db: Db, order: seq<Installation>, e: Entry, policy: Policy, now: int, a: AttentionKey)
    requires StoreOk(db) && Lists(order, db) && e.hook.Valid() && e.expires > now && Roomy(db, order, e, policy, now)
    ensures AttentionOf(RecordEntry(db, order, e, policy, now), a)
            == AttentionAfter(AttentionOf(db, a), a, e.hook, policy, now, EarlyIn(db, e, now))
  {
    hide StoreOk, EventOf, JobOf, AttentionOf, Scan, Trim, Wanted, WantedJob, FreshJob, Roomy, RecordEntry, EarlyIn;
    StoreIndexOk(db);
    RecordIs(db, order, e, policy, now);
    TrimFacts(db, now);
    if !EarlyIn(db, e, now) {
      var scanned := Scan(db, order, e, policy, now);
      ScanFacts(db, order, e, policy, now, EventKey(Principal("", ""), ChallengeFor("", 0)), "", 0);
      StoreIndexOk(scanned);
      TrimFacts(scanned, now);
      ScanAttention(db, order, e, policy, now, a);
    }
  }

  /** Every row after recording is a function of that row before, the registrations and the clock; the order
      of the scan plays no part. */
  ghost predicate Recorded(db: Db, db': Db, e: Entry, policy: Policy, now: int) {
    var early := EarlyIn(db, e, now);
    && db'.registrations == db.registrations
    && (forall key :: EventOf(db', key) == EventAfter(EventOf(db, key), e.hook, key, now, e.expires, early, Wanted(db, key, e, policy)))
    && (forall key, i, g :: JobOf(db', key, i, g) ==
          JobAfter(JobOf(db, key, i, g), EventOf(db, key), e.hook, key, now, early, WantedJob(db, key, i, g, e, policy), FreshJob(db, i, e)))
    && (forall a :: AttentionOf(db', a) == AttentionAfter(AttentionOf(db, a), a, e.hook, policy, now, early))
  }

  lemma RecordIsRecorded(db: Db, order: seq<Installation>, e: Entry, policy: Policy, now: int)
    requires StoreOk(db) && Lists(order, db) && e.hook.Valid() && e.expires > now && Roomy(db, order, e, policy, now)
    ensures Recorded(db, RecordEntry(db, order, e, policy, now), e, policy, now)
  {
    hide *;
    var db', early := RecordEntry(db, order, e, policy, now), EarlyIn(db, e, now);
    RecordRow(db, order, e, policy, now, EventKey(Principal("", ""), ChallengeFor("", 0)), "", 0);
    forall key
      ensures EventOf(db', key) == EventAfter(EventOf(db, key), e.hook, key, now, e.expires, early, Wanted(db, key, e, policy))
    {
      RecordRow(db, order, e, policy, now, key, "", 0);
    }
    forall key, i, g
      ensures JobOf(db', key, i, g) == JobAfter(JobOf(db, key, i, g), EventOf(db, key), e.hook, key, now, early,
                                                WantedJob(db, key, i, g, e, policy), FreshJob(db, i, e))
    {
      RecordRow(db, order, e, policy, now, key, i, g);
    }
    forall a
      ensures AttentionOf(db', a) == AttentionAfter(AttentionOf(db, a), a, e.hook, policy, now, early)
    {
      RecordRowAttention(db, order, e, policy, now, a);
    }
    RowsMakeRecorded(db, db', e, policy, now);
  }

  lemma RowsMakeRecorded(db: Db, db': Db, e: Entry, policy: Policy, now: int)
    requires db'.registrations == db.registrations
    requires forall key :: EventOf(db', key) == EventAfter(EventOf(db, key), e.hook, key, now, e.expires, EarlyIn(db, e, now), Wanted(db, key, e, policy))
    requires forall key, i, g :: JobOf(db', key, i, g) ==
               JobAfter(JobOf(db, key, i, g), EventOf(db, key), e.hook, key, now, EarlyIn(db, e, now), WantedJob(db, key, i, g, e, policy), FreshJob(db, i, e))
    requires forall a :: AttentionOf(db', a) == AttentionAfter(AttentionOf(db, a), a, e.hook, policy, now, EarlyIn(db, e, now))
    ensures Recorded(db, db', e, policy, now)
  {
    hide EventOf, JobOf, AttentionOf, EarlyIn, Wanted, WantedJob, FreshJob, EventAfter, JobAfter, AttentionAfter;
  }

  lemma NoEventNoJob(db: Db, key: EventKey, i: Installation, g: nat)
    requires StoreOk(db)
    ensures EventOf(db, key).None? ==> JobOf(db, key, i, g).None?
  {
  }

  // ---- Recording again ----

  lemma EventTwice(before: Option<EventFacts>, hook: Hook, key: EventKey, t1: int, t2: int, expires: int, early1: bool, early2: bool, wanted: bool)
    requires t1 <= t2 < expires && (early2 ==> early1) && (wanted ==> key.source == FromHook(hook))
    ensures EventAfter(EventAfter(before, hook, key, t1, expires, early1, wanted), hook, key, t2, expires, early2, wanted)
            == EventAfter(before, hook, key, t2, expires, early2, wanted)
  {
  }

  lemma JobTwice(before: Option<JobFacts>, event: Option<EventFacts>, hook: Hook, key: EventKey, t1: int, t2: int, expires: int,
                 early1: bool, early2: bool, wanted: bool, wantedEvent: bool, made: JobFacts)
    requires t1 <= t2 < expires && (early2 ==> early1) && (wanted ==> wantedEvent) && (event.None? ==> before.None?)
    requires wantedEvent ==> key.source == FromHook(hook)
    ensures JobAfter(JobAfter(before, event, hook, key, t1, early1, wanted, made),
                     EventAfter(event, hook, key, t1, expires, early1, wantedEvent), hook, key, t2, early2, wanted, made)
            == JobAfter(before, event, hook, key, t2, early2, wanted, made)
  {
  }

  lemma AttentionTwice(before: Option<AttentionFacts>, a: AttentionKey, hook: Hook, policy: Policy, t1: int, t2: int, early1: bool, early2: bool)
    requires t1 <= t2 && hook.Valid()
    requires a == AttentionKey(hook.sessionId, hook.reference) ==> early1 == Early(before, hook, t1) && early2 == Early(before, hook, t2)
    requires early2 ==> early1
    requires early1 ==> hook.kind == Input
    ensures AttentionAfter(AttentionAfter(before, a, hook, policy, t1, early1), a, hook, policy, t2, early2)
            == AttentionAfter(before, a, hook, policy, t2, early2)
  {
  }

  lemma EarlyTwice(before: Option<AttentionFacts>, hook: Hook, policy: Policy, t1: int, t2: int)
    requires t1 <= t2 && hook.Valid()
    ensures var a := AttentionKey(hook.sessionId, hook.reference);
            Early(AttentionAfter(before, a, hook, policy, t1, Early(before, hook, t1)), hook, t2) == Early(before, hook, t2)
    ensures Early(before, hook, t2) ==> Early(before, hook, t1)
  {
  }

  lemma WantedIsFromHook(db: Db, key: EventKey, i: Installation, g: nat, e: Entry, policy: Policy)
    ensures Wanted(db, key, e, policy) ==> key.source == FromHook(e.hook)
    ensures WantedJob(db, key, i, g, e, policy) ==> Wanted(db, key, e, policy)
  {
  }

  lemma SameWanted(a: Db, b: Db, key: EventKey, i: Installation, g: nat, e: Entry, policy: Policy)
    requires a.registrations == b.registrations
    ensures Wanted(a, key, e, policy) == Wanted(b, key, e, policy)
    ensures WantedJob(a, key, i, g, e, policy) == WantedJob(b, key, i, g, e, policy)
    ensures FreshJob(a, i, e) == FreshJob(b, i, e)
  {
  }

  /** Recording an event twice is recording it once, at the later time: the crash between record and remove
      leaves no trace. */
  lemma RecordedCollapses(db: Db, once: Db, twice: Db, e: Entry, policy: Policy, t1: int, t2: int)
    requires StoreOk(db) && e.hook.Valid() && t1 <= t2 < e.expires
    requires Recorded(db, once, e, policy, t1) && Recorded(once, twice, e, policy, t2)
    ensures Recorded(db, twice, e, policy, t2)
  {
    hide StoreOk, EventOf, JobOf, AttentionOf, Wanted, WantedJob, FreshJob, EventAfter, JobAfter, AttentionAfter, Early;
    var about := AttentionKey(e.hook.sessionId, e.hook.reference);
    var early1, early2 := EarlyIn(db, e, t1), EarlyIn(db, e, t2);
    EarlyTwice(AttentionOf(db, about), e.hook, policy, t1, t2);
    assert EarlyIn(once, e, t2) == early2;
    forall key
      ensures EventOf(twice, key) == EventAfter(EventOf(db, key), e.hook, key, t2, e.expires, early2, Wanted(db, key, e, policy))
    {
      WantedIsFromHook(db, key, "", 0, e, policy);
      SameWanted(db, once, key, "", 0, e, policy);
      EventTwice(EventOf(db, key), e.hook, key, t1, t2, e.expires, early1, early2, Wanted(db, key, e, policy));
    }
    forall key, i, g
      ensures JobOf(twice, key, i, g) == JobAfter(JobOf(db, key, i, g), EventOf(db, key), e.hook, key, t2, early2,
                                                  WantedJob(db, key, i, g, e, policy), FreshJob(db, i, e))
    {
      WantedIsFromHook(db, key, i, g, e, policy);
      SameWanted(db, once, key, i, g, e, policy);
      NoEventNoJob(db, key, i, g);
      JobTwice(JobOf(db, key, i, g), EventOf(db, key), e.hook, key, t1, t2, e.expires, early1, early2,
               WantedJob(db, key, i, g, e, policy), Wanted(db, key, e, policy), FreshJob(db, i, e));
    }
    forall a
      ensures AttentionOf(twice, a) == AttentionAfter(AttentionOf(db, a), a, e.hook, policy, t2, early2)
    {
      EarlyIsInput(AttentionOf(db, about), e.hook, t1);
      AttentionTwice(AttentionOf(db, a), a, e.hook, policy, t1, t2, early1, early2);
    }
  }

  lemma EarlyIsInput(a: Option<AttentionFacts>, hook: Hook, now: int)
    ensures Early(a, hook, now) ==> hook.kind == Input
  {
  }

  /** Stores that agree up to identifiers agree after recording the same event, whatever the scan orders. */
  lemma RecordedIsFunction(a: Db, b: Db, a': Db, b': Db, e: Entry, policy: Policy, now: int)
    requires Same(a, b) && Recorded(a, a', e, policy, now) && Recorded(b, b', e, policy, now)
    ensures Same(a', b')
  {
    hide EventOf, JobOf, AttentionOf, Wanted, WantedJob, FreshJob, EventAfter, JobAfter, AttentionAfter, Early;
    forall key
      ensures EventOf(a', key) == EventOf(b', key)
    {
      SameWanted(a, b, key, "", 0, e, policy);
    }
    forall key, i, g
      ensures JobOf(a', key, i, g) == JobOf(b', key, i, g)
    {
      SameWanted(a, b, key, i, g, e, policy);
    }
  }

  // ---- Draining ----

  datatype Attempt = Attempt(order: seq<Installation>, now: int)

  /** One inbox entry, recorded again after every crash before its removal. */
  function Attempts(db: Db, e: Entry, tries: seq<Attempt>, policy: Policy): Db {
    if tries == [] then db
    else RecordEntry(Attempts(db, e, tries[..|tries| - 1], policy), tries[|tries| - 1].order, e, policy, tries[|tries| - 1].now)
  }

  ghost predicate AttemptOk(db: Db, e: Entry, t: Attempt, policy: Policy) {
    Lists(t.order, db) && t.now < e.expires && Roomy(db, t.order, e, policy, t.now)
  }

  /** The clock does not run back, the entry has not expired, and the count caps delete nothing. */
  ghost predicate AttemptsOk(db: Db, e: Entry, tries: seq<Attempt>, policy: Policy) {
    && (forall j :: 0 <= j < |tries| ==> AttemptOk(Attempts(db, e, tries[..j], policy), e, tries[j], policy))
    && (forall j, k :: 0 <= j < k < |tries| ==> tries[j].now <= tries[k].now)
  }

  lemma RecordEntryKeeps(db: Db, order: seq<Installation>, e: Entry, policy: Policy, now: int)
    requires StoreOk(db)
    ensures StoreOk(RecordEntry(db, order, e, policy, now))
  {
    hide StoreOk, Record;
    RecordKeeps(db, order, e.hook, Some(e.targets), policy, now, e.expires);
  }

  lemma {:induction false} AttemptsCollapse(db: Db, e: Entry, tries: seq<Attempt>, policy: Policy)
    requires StoreOk(db) && e.hook.Valid() && tries != [] && AttemptsOk(db, e, tries, policy)
    ensures StoreOk(Attempts(db, e, tries, policy))
    ensures Recorded(db, Attempts(db, e, tries, policy), e, policy, tries[|tries| - 1].now)
  {
    hide StoreOk, Recorded, RecordEntry, AttemptOk;
    var n := |tries| - 1;
    var front := tries[..n];
    assert forall j :: 0 <= j < n ==> front[j] == tries[j] && front[..j] == tries[..j];
    var before := Attempts(db, e, front, policy);
    assert AttemptOk(before, e, tries[n], policy);
    if n > 0 {
      AttemptsCollapse(db, e, front, policy);
    }
    AttemptIsRecorded(before, e, tries[n], policy);
    RecordEntryKeeps(before, tries[n].order, e, policy, tries[n].now);
    if n > 0 {
      AttemptInTime(before, e, tries[n], policy);
      RecordedCollapses(db, before, Attempts(db, e, tries, policy), e, policy, tries[n - 1].now, tries[n].now);
    }
  }

  lemma AttemptInTime(db: Db, e: Entry, t: Attempt, policy: Policy)
    requires AttemptOk(db, e, t, policy)
    ensures t.now < e.expires
  {
  }

  lemma AttemptIsRecorded(db: Db, e: Entry, t: Attempt, policy: Policy)
    requires StoreOk(db) && e.hook.Valid() && AttemptOk(db, e, t, policy)
    ensures Recorded(db, RecordEntry(db, t.order, e, policy, t.now), e, policy, t.now)
  {
    hide StoreOk, Recorded, RecordEntry, Roomy, Lists;
    RecordIsRecorded(db, t.order, e, policy, t.now);
  }

  /** A drain of several entries, with the attempts each one took. */
  function Drain(db: Db, entries: seq<Entry>, tries: seq<seq<Attempt>>, policy: Policy): Db
    requires |entries| == |tries|
  {
    if entries == [] then db
    else Attempts(Drain(db, entries[..|entries| - 1], tries[..|tries| - 1], policy), entries[|entries| - 1], tries[|tries| - 1], policy)
  }

  ghost predicate DrainOk(db: Db, entries: seq<Entry>, tries: seq<seq<Attempt>>, policy: Policy)
    requires |entries| == |tries|
  {
    entries == []
    || (DrainOk(db, entries[..|entries| - 1], tries[..|tries| - 1], policy)
        && entries[|entries| - 1].hook.Valid() && tries[|tries| - 1] != []
        && AttemptsOk(Drain(db, entries[..|entries| - 1], tries[..|tries| - 1], policy), entries[|entries| - 1], tries[|tries| - 1], policy))
  }

  /** Each entry recorded once, when its last attempt was made. */
  ghost predicate Clean(tries: seq<seq<Attempt>>, clean: seq<seq<Attempt>>) {
    |clean| == |tries|
    && forall j :: 0 <= j < |tries| ==> tries[j] != [] && |clean[j]| == 1 && clean[j][0].now == tries[j][|tries[j]| - 1].now
  }

  /** However often the drain crashed between recording and removing, it leaves the events, jobs and attention
      of one clean pass in the same order, up to identifiers and creation times. */
  lemma {:induction false} CrashyDrainIsClean(db: Db, entries: seq<Entry>, tries: seq<seq<Attempt>>, clean: seq<seq<Attempt>>, policy: Policy)
    requires StoreOk(db) && |entries| == |tries| && Clean(tries, clean)
    requires DrainOk(db, entries, tries, policy) && DrainOk(db, entries, clean, policy)
    ensures StoreOk(Drain(db, entries, tries, policy)) && StoreOk(Drain(db, entries, clean, policy))
    ensures Same(Drain(db, entries, tries, policy), Drain(db, entries, clean, policy))
  {
    hide StoreOk, Recorded, Attempts, AttemptsOk, EventOf, JobOf, AttentionOf;
    if entries != [] {
      var n := |entries| - 1;
      var e := entries[n];
      CrashyDrainIsClean(db, entries[..n], tries[..n], clean[..n], policy);
      var a, b := Drain(db, entries[..n], tries[..n], policy), Drain(db, entries[..n], clean[..n], policy);
      AttemptsCollapse(a, e, tries[n], policy);
      AttemptsCollapse(b, e, clean[n], policy);
      RecordedIsFunction(a, b, Attempts(a, e, tries[n], policy), Attempts(b, e, clean[n], policy), e, policy, clean[n][0].now);
    }
  }
}
