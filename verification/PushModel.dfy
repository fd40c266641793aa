/** The tables of the push store and the effect of each transaction on them. A function whose name
    starts with a verb of SQL is one statement; the others are whole transactions. */
module PushModel {
  import opened Basics
  import opened PushTypes

  datatype Db = Db(
    registrations: map<Installation, Registration>,
    nonces: set<(Installation, string)>,
    events: map<nat, Event>,
    index: map<EventKey, nat>,
    outbox: map<JobKey, Job>,
    attention: map<AttentionKey, Attention>,
    nextCursor: nat,
    nextJob: nat,
    nextAttention: nat,
    nextToken: nat)

  datatype Reply = Accepted(generation: nat) | Refused(code: int)

  // ---- Statements ----

  function DeleteJobsOf(outbox: map<JobKey, Job>, i: Installation): map<JobKey, Job> {
    map k | k in outbox && k.installation != i :: outbox[k]
  }

  function CancelChallengesOf(events: map<nat, Event>, i: Installation): map<nat, Event> {
    map c | c in events :: if events[c].ChallengeOf(i) then events[c].(cancelled := true) else events[c]
  }

  function CancelInputs(events: map<nat, Event>, sessionId: string, request: Option<string>): map<nat, Event> {
    map c | c in events :: if events[c].InputFor(sessionId, request) then events[c].(cancelled := true) else events[c]
  }

  function DeleteJobsOfCancelled(outbox: map<JobKey, Job>, events: map<nat, Event>): map<JobKey, Job> {
    map k | k in outbox && !(k.event in events && events[k.event].cancelled) :: outbox[k]
  }

  function DeleteExpiredEvents(events: map<nat, Event>, now: int): map<nat, Event> {
    map c | c in events && events[c].expiresAt > now :: events[c]
  }

  function NewerEvents(events: map<nat, Event>, c: nat): set<nat> {
    set d | d in events && d > c
  }

  /** Keep the `limit` rows with the highest cursors. */
  function DeleteAllButNewestEvents(events: map<nat, Event>, limit: nat): map<nat, Event> {
    map c | c in events && |NewerEvents(events, c)| < limit :: events[c]
  }

  function DeleteExpiredAttention(attention: map<AttentionKey, Attention>, now: int): map<AttentionKey, Attention> {
    map a | a in attention && attention[a].expiresAt > now :: attention[a]
  }

  function NewerAttention(attention: map<AttentionKey, Attention>, row: nat): set<AttentionKey> {
    set a | a in attention && attention[a].row > row
  }

  function DeleteAllButNewestAttention(attention: map<AttentionKey, Attention>, limit: nat): map<AttentionKey, Attention> {
    map a | a in attention && |NewerAttention(attention, attention[a].row)| < limit :: attention[a]
  }

  function ResolveSession(attention: map<AttentionKey, Attention>, sessionId: string): map<AttentionKey, Attention> {
    map a | a in attention :: if a.sessionId == sessionId then attention[a].(resolved := true) else attention[a]
  }

  /** Deleting an event deletes its jobs and its entry in the unique index. */
  function CascadeJobs(outbox: map<JobKey, Job>, events: map<nat, Event>): map<JobKey, Job> {
    map k | k in outbox && k.event in events :: outbox[k]
  }

  function CascadeIndex(index: map<EventKey, nat>, events: map<nat, Event>): map<EventKey, nat> {
    map k | k in index && index[k] in events :: index[k]
  }

  function FinishExhausted(outbox: map<JobKey, Job>, maxAttempts: nat, now: int): map<JobKey, Job> {
    map k | k in outbox ::
      if outbox[k].attempts >= maxAttempts && outbox[k].leaseUntil <= now
      then outbox[k].(done := true, payload := None) else outbox[k]
  }

  // ---- Shared parts of transactions ----

  function PruneEvents(events: map<nat, Event>, limit: nat, now: int): map<nat, Event> {
    DeleteAllButNewestEvents(DeleteExpiredEvents(events, now), limit)
  }

  function Prune(db: Db, policy: Policy, now: int): Db {
    var events := PruneEvents(db.events, policy.maxEvents, now);
    db.(events := events,
        index := CascadeIndex(db.index, events),
        outbox := CascadeJobs(db.outbox, events),
        attention := DeleteAllButNewestAttention(DeleteExpiredAttention(db.attention, now), policy.maxEvents))
  }

  /** Insert-or-ignore on the unique (owner, dedup) key; the event's cursor either way. */
  function InsertEvent(db: Db, key: EventKey, now: int, expires: int): (Db, nat) {
    if key in db.index then (db, db.index[key])
    else
      (db.(events := db.events[db.nextCursor := Event(key, now, expires, false)],
           index := db.index[key := db.nextCursor],
           nextCursor := db.nextCursor + 1),
       db.nextCursor)
  }

  function QueueJob(db: Db, key: JobKey, hint: Hint, now: int): Db {
    if key in db.outbox then db
    else db.(outbox := db.outbox[key := Job(db.nextJob, Some(hint), 0, now, None, 0, false)], nextJob := db.nextJob + 1)
  }

  /** Every authority change empties the installation's outbox and cancels its challenges. */
  function WipeInstallation(db: Db, i: Installation): Db {
    db.(outbox := DeleteJobsOf(db.outbox, i), events := CancelChallengesOf(db.events, i))
  }

  function RevokedRow(row: Registration): Registration {
    row.(generation := row.generation + 1, status := Revoked, challenge := None, endpoint := "", keys := "{}")
  }

  function RevokeIn(db: Db, i: Installation): Db
    requires i in db.registrations
  {
    WipeInstallation(db.(registrations := db.registrations[i := RevokedRow(db.registrations[i])]), i)
  }

  // ---- put ----

  function PutScope(body: Body): Option<SessionScope> {
    SessionScope.FromBody(body.mode, body.sessionIds)
  }

  function PutRefusal(db: Db, p: Principal, i: Installation, body: Body, policy: Policy): Option<int> {
    if !(1 <= body.revision <= MAX_REVISION) || PutScope(body).None? then Some(422)
    else if i in db.registrations then
      var row := db.registrations[i];
      if row.owner != p then Some(404)
      else if row.status == Revoked then Some(409)
      else if body.revision <= row.revision then Some(409)
      else if row.nonce == body.nonce || (i, body.nonce) in db.nonces then Some(409)
      else None
    else if |db.registrations| >= policy.maxRegistrations then Some(429)
    else None
  }

  function NextGeneration(db: Db, i: Installation): nat {
    if i in db.registrations then db.registrations[i].generation + 1 else 1
  }

  function PendingRow(p: Principal, generation: nat, body: Body, scope: SessionScope, challenge: string, expires: int): Registration
    requires body.revision >= 0
  {
    Registration(p, generation, Pending, body.nonce, body.endpoint, body.keys, body.kinds, scope, Some(challenge), expires, body.revision)
  }

  function WriteRegistration(db: Db, p: Principal, i: Installation, body: Body, challenge: string, expires: int): Db
    requires body.revision >= 0 && PutScope(body).Some?
  {
    var wiped := WipeInstallation(db, i);
    wiped.(
      registrations := db.registrations[i := PendingRow(p, NextGeneration(db, i), body, PutScope(body).value, challenge, expires)],
      nonces := db.nonces + {(i, body.nonce)})
  }

  function QueueChallenge(db: Db, p: Principal, i: Installation, generation: nat, nonce: string, challenge: string,
                          now: int, expires: int): Db {
    var (inserted, cursor) := InsertEvent(db, EventKey(p, ChallengeFor(i, generation)), now, expires);
    var hint := Hint(cursor, Challenge, generation, nonce, expires, Some(challenge));
    QueueJob(inserted, JobKey(cursor, i, generation), hint, now)
  }

  function PutAccepted(db: Db, p: Principal, i: Installation, body: Body, policy: Policy, now: int, challenge: string): Db
    requires PutRefusal(db, p, i, body, policy).None?
  {
    var expires := now + policy.challengeTtl;
    QueueChallenge(WriteRegistration(db, p, i, body, challenge, expires), p, i, NextGeneration(db, i), body.nonce, challenge, now, expires)
  }

  function Put(db: Db, p: Principal, i: Installation, body: Body, policy: Policy, now: int, challenge: string): (Db, Reply) {
    var refusal := PutRefusal(db, p, i, body, policy);
    if refusal.Some? then (db, Refused(refusal.value))
    else (Prune(PutAccepted(db, p, i, body, policy, now, challenge), policy, now), Accepted(NextGeneration(db, i)))
  }

  // ---- confirm and revoke ----

  function ConfirmRefusal(db: Db, p: Principal, i: Installation, generation: nat, challenge: string, policy: Policy,
                          durable: set<string>, now: int): Option<int> {
    if i !in db.registrations || db.registrations[i].owner != p then Some(404)
    else
      var row := db.registrations[i];
      if row.generation != generation || row.status != Pending || row.challengeExpires <= now || row.challenge != Some(challenge)
      then Some(409)
      else
        var scope := SessionScope.FromRegistration(row.scope);
        if scope.None? then Some(422)
        else if !scope.value.Ready(p, policy, durable) then Some(403)
        else None
  }

  function Confirm(db: Db, p: Principal, i: Installation, generation: nat, challenge: string, policy: Policy,
                   durable: set<string>, now: int): (Db, Reply) {
    var refusal := ConfirmRefusal(db, p, i, generation, challenge, policy, durable, now);
    if refusal.Some? then (db, Refused(refusal.value))
    else
      (db.(registrations := db.registrations[i := db.registrations[i].(status := Active, challenge := None)],
           outbox := DeleteJobsOf(db.outbox, i)),
       Accepted(generation))
  }

  function Tombstone(p: Principal): Registration {
    Registration(p, 1, Revoked, "", "", "{}", {}, SessionScope(Explicit, []), None, 0, 0)
  }

  /** `policy` is absent where the caller gives none; the capacity is then 256. */
  function Revoke(db: Db, p: Principal, i: Installation, policy: Option<Policy>): (Db, Reply) {
    if i !in db.registrations then
      if policy.Some? && !policy.value.Admitted(p) then (db, Refused(403))
      else if |db.registrations| >= (if policy.Some? then policy.value.maxRegistrations else 256) then (db, Refused(429))
      else (db.(registrations := db.registrations[i := Tombstone(p)]), Accepted(1))
    else if db.registrations[i].owner != p then (db, Refused(404))
    else if db.registrations[i].status == Revoked then (db, Accepted(db.registrations[i].generation))
    else (RevokeIn(db, i), Accepted(db.registrations[i].generation + 1))
  }

  // ---- observers ----

  predicate AllowsHook(row: Registration, hook: Hook, policy: Policy) {
    && hook.kind in row.kinds
    && row.scope.Allows(row.owner, hook.sessionId, policy)
  }

  predicate Target(db: Db, i: Installation, hook: Hook, policy: Policy) {
    i in db.registrations && db.registrations[i].status == Active && AllowsHook(db.registrations[i], hook, policy)
  }

  /** The authority captured when the observer runs. */
  function Targets(db: Db, hook: Hook, policy: Policy): map<Installation, nat> {
    map i | i in db.registrations && Target(db, i, hook, policy) :: db.registrations[i].generation
  }

  predicate Captured(targets: Option<map<Installation, nat>>, i: Installation, generation: nat) {
    targets.Some? ==> i in targets.value && targets.value[i] == generation
  }

  predicate Queues(db: Db, i: Installation, hook: Hook, targets: Option<map<Installation, nat>>, policy: Policy) {
    Target(db, i, hook, policy) && Captured(targets, i, db.registrations[i].generation)
  }

  function RecordFor(db: Db, i: Installation, hook: Hook, targets: Option<map<Installation, nat>>, policy: Policy,
                     now: int, expires: int): Db {
    if !Queues(db, i, hook, targets, policy) then db
    else
      var row := db.registrations[i];
      var (inserted, cursor) := InsertEvent(db, EventKey(row.owner, FromHook(hook)), now, expires);
      var hint := Hint(cursor, hook.kind, row.generation, row.nonce, expires, None);
      QueueJob(inserted, JobKey(cursor, i, row.generation), hint, now)
  }

  /** The scan over registrations, in the order the database happens to give them. */
  function RecordAll(db: Db, order: seq<Installation>, hook: Hook, targets: Option<map<Installation, nat>>, policy: Policy,
                     now: int, expires: int): Db {
    if order == [] then db
    else RecordFor(RecordAll(db, order[..|order| - 1], hook, targets, policy, now, expires),
                   order[|order| - 1], hook, targets, policy, now, expires)
  }

  function CancelAttention(db: Db, sessionId: string, request: Option<string>): Db {
    var events := CancelInputs(db.events, sessionId, request);
    db.(events := events, outbox := DeleteJobsOfCancelled(db.outbox, events))
  }

  predicate AlreadyResolved(db: Db, hook: Hook) {
    var a := AttentionKey(hook.sessionId, hook.reference);
    hook.kind == Input && a in db.attention && db.attention[a].resolved
  }

  function UpsertAttention(db: Db, a: AttentionKey, resolved: bool, expires: int): Db {
    if a in db.attention then
      db.(attention := db.attention[a := Attention(db.attention[a].row, db.attention[a].resolved || resolved, expires)])
    else
      db.(attention := db.attention[a := Attention(db.nextAttention, resolved, expires)], nextAttention := db.nextAttention + 1)
  }

  function NoteRequest(db: Db, hook: Hook, policy: Policy, now: int): Db {
    var noted := UpsertAttention(db, AttentionKey(hook.sessionId, hook.reference), hook.kind == InputResolved, now + policy.ttl * 2);
    if hook.kind == InputResolved then CancelAttention(noted, hook.sessionId, Some(hook.reference)) else noted
  }

  function NoteTurnEnd(db: Db, sessionId: string): Db {
    var cancelled := CancelAttention(db, sessionId, None);
    cancelled.(attention := ResolveSession(cancelled.attention, sessionId))
  }

  /** The bookkeeping before the scan: requests noted and resolved, inputs of a finished turn cancelled. */
  function Note(db: Db, hook: Hook, policy: Policy, now: int): Db {
    if hook.HasRequest() then NoteRequest(db, hook, policy, now)
    else if hook.EndsTurn() then NoteTurnEnd(db, hook.sessionId)
    else db
  }

  function Record(db: Db, order: seq<Installation>, hook: Hook, targets: Option<map<Installation, nat>>, policy: Policy,
                  now: int, expires: int): Db {
    if expires <= now then db
    else
      var pruned := Prune(db, policy, now);
      if AlreadyResolved(pruned, hook) then pruned
      else Prune(RecordAll(Note(pruned, hook, policy, now), order, hook, targets, policy, now, expires), policy, now)
  }

  // ---- sender ----

  predicate Due(job: Job, maxAttempts: nat, now: int) {
    !job.done && job.nextAt <= now && job.leaseUntil <= now && job.attempts < maxAttempts
  }

  ghost predicate OldestDue(outbox: map<JobKey, Job>, k: JobKey, maxAttempts: nat, now: int) {
    && k in outbox && Due(outbox[k], maxAttempts, now)
    && forall j :: j in outbox && Due(outbox[j], maxAttempts, now) ==> outbox[k].id <= outbox[j].id
  }

  function ClaimPrepared(db: Db, policy: Policy, now: int): Db {
    var pruned := Prune(db, policy, now);
    pruned.(outbox := FinishExhausted(pruned.outbox, policy.maxAttempts, now))
  }

  function Lease(db: Db, k: JobKey, now: int): Db
    requires k in db.outbox
  {
    var job := db.outbox[k];
    db.(outbox := db.outbox[k := job.(lease := Some(db.nextToken), leaseUntil := now + 30, attempts := job.attempts + 1)],
        nextToken := db.nextToken + 1)
  }

  predicate LeaseHolds(db: Db, k: JobKey, token: nat) {
    k in db.outbox && db.outbox[k].lease == Some(token) && !db.outbox[k].done
  }

  function Pow2(n: nat): nat {
    if n == 0 then 1 else 2 * Pow2(n - 1)
  }

  function RetryDelay(attempts: nat): nat {
    if Pow2(attempts) < 300 then Pow2(attempts) else 300
  }

  predicate Permanent(code: int) {
    200 <= code <= 202 || (400 <= code < 500 && code != 408 && code != 429)
  }

  predicate Gone(code: int) {
    code == 404 || code == 410
  }

  /** The sender's own check, made after the claim and on the current rows and policy. */
  predicate Permitted(db: Db, k: JobKey, policy: Policy, durable: set<string>, stopping: bool, now: int) {
    && !stopping && policy.enabled
    && k.installation in db.registrations && k.event in db.events && !db.events[k.event].cancelled
    && db.registrations[k.installation].generation == k.generation
    && db.events[k.event].expiresAt > now
    && var row := db.registrations[k.installation];
       policy.Admitted(row.owner)
       && if db.events[k.event].Kind() == Challenge then row.status == Pending && row.scope.Ready(row.owner, policy, durable)
          else
            var hook := db.events[k.event].key.source.hook;
            row.status == Active && AllowsHook(row, hook, policy) && hook.sessionId in durable
  }

  function FinishJob(db: Db, k: JobKey): Db
    requires k in db.outbox
  {
    db.(outbox := db.outbox[k := db.outbox[k].(done := true, payload := None)])
  }

  function AfterSend(db: Db, k: JobKey, code: int, now: int): Db
    requires k in db.outbox && k.installation in db.registrations
  {
    var job := db.outbox[k];
    if Gone(code) then RevokeIn(db, k.installation)
    else if Permanent(code) then
      db.(outbox := db.outbox[k := job.(done := true, payload := None, lease := None, leaseUntil := 0)])
    else
      db.(outbox := db.outbox[k := job.(lease := None, leaseUntil := 0, nextAt := now + RetryDelay(job.attempts))])
  }

  /** The sender's transaction for a claimed job: nothing, a drop, or a send answered by `code`. */
  function Deliver(db: Db, k: JobKey, token: nat, policy: Policy, durable: set<string>, stopping: bool, code: int, now: int): Db {
    if !LeaseHolds(db, k, token) then db
    else if !Permitted(db, k, policy, durable, stopping, now) then FinishJob(db, k)
    else AfterSend(db, k, code, now)
  }

  predicate Sends(db: Db, k: JobKey, token: nat, policy: Policy, durable: set<string>, stopping: bool, now: int) {
    LeaseHolds(db, k, token) && Permitted(db, k, policy, durable, stopping, now)
  }

  // ---- reopening ----

  predicate Legacy(row: Registration) {
    row.revision == 0 && (row.status == Pending || row.status == Active)
  }

  function UpgradeRow(row: Registration): Registration {
    RevokedRow(row).(status := UpgradeRequired)
  }

  /** Opening a database: rows without a revision lose their authority, and every nonce is on record. */
  function Reopen(db: Db): Db {
    Db(map i | i in db.registrations :: if Legacy(db.registrations[i]) then UpgradeRow(db.registrations[i]) else db.registrations[i],
       db.nonces + (set i | i in db.registrations && db.registrations[i].nonce != "" :: (i, db.registrations[i].nonce)),
       map c | c in db.events ::
         if db.events[c].key.source.ChallengeFor? && db.events[c].key.source.installation in db.registrations
            && Legacy(db.registrations[db.events[c].key.source.installation])
         then db.events[c].(cancelled := true) else db.events[c],
       db.index,
       map k | k in db.outbox && !(k.installation in db.registrations && Legacy(db.registrations[k.installation])) :: db.outbox[k],
       db.attention, db.nextCursor, db.nextJob, db.nextAttention, db.nextToken)
  }

  function EmptyDb(): Db {
    Db(map[], {}, map[], map[], map[], map[], 1, 1, 1, 0)
  }
}
