/** The observer inbox and the worker that drains it before it sends. */
module PushRuntime {
  import opened Basics
  import opened PushTypes
  import D = PushDrain
  import I = PushInvariant
  import M = PushModel
  import opened PushRuns
  import PushStore

  /** A waiting event: what was captured for it, and when the inbox lets go of it. */
  datatype Waiting = Waiting(id: nat, hook: Hook, targets: map<Installation, nat>, expiresAt: int)

  // ---- A bounded, deduplicated queue ----

  function DeleteExpired(rows: seq<Waiting>, now: int): seq<Waiting> {
    if rows == [] then []
    else if rows[0].expiresAt > now then [rows[0]] + DeleteExpired(rows[1..], now)
    else DeleteExpired(rows[1..], now)
  }

  predicate Holds(rows: seq<Waiting>, hook: Hook) {
    exists j :: 0 <= j < |rows| && rows[j].hook == hook
  }

  /** The newest `limit` rows, still in order. */
  function Newest(rows: seq<Waiting>, limit: nat): seq<Waiting> {
    if |rows| <= limit then rows else rows[|rows| - limit..]
  }

  function InboxPut(rows: seq<Waiting>, row: Waiting, limit: nat, now: int): seq<Waiting> {
    var live := DeleteExpired(rows, now);
    Newest(if Holds(live, row.hook) then live else live + [row], limit)
  }

  function InboxRemove(rows: seq<Waiting>, id: nat): seq<Waiting> {
    if rows == [] then []
    else if rows[0].id == id then InboxRemove(rows[1..], id)
    else [rows[0]] + InboxRemove(rows[1..], id)
  }

  /** Identities ascend and no event waits twice. */
  ghost predicate QueueOk(rows: seq<Waiting>, nextId: nat) {
    && (forall i, j :: 0 <= i < j < |rows| ==> rows[i].id < rows[j].id && rows[i].hook != rows[j].hook)
    && (forall i :: 0 <= i < |rows| ==> rows[i].id < nextId)
  }

  lemma {:induction false} DeleteExpiredHolds(rows: seq<Waiting>, now: int)
    ensures forall row :: row in DeleteExpired(rows, now) <==> row in rows && row.expiresAt > now
  {
    if rows != [] {
      DeleteExpiredHolds(rows[1..], now);
      assert forall row :: row in rows <==> row == rows[0] || row in rows[1..];
    }
  }

  lemma TailOk(rows: seq<Waiting>, nextId: nat)
    requires QueueOk(rows, nextId) && rows != []
    ensures QueueOk(rows[1..], nextId)
    ensures forall w :: w in rows[1..] ==> rows[0].id < w.id && rows[0].hook != w.hook
  {
  }

  lemma PrependOk(row: Waiting, rest: seq<Waiting>, nextId: nat)
    requires QueueOk(rest, nextId) && row.id < nextId && forall w :: w in rest ==> row.id < w.id && row.hook != w.hook
    ensures QueueOk([row] + rest, nextId)
  {
  }

  lemma AppendOk(rows: seq<Waiting>, row: Waiting)
    requires QueueOk(rows, row.id) && !Holds(rows, row.hook)
    ensures QueueOk(rows + [row], row.id + 1)
  {
  }

  lemma NewestOk(rows: seq<Waiting>, limit: nat, nextId: nat)
    requires QueueOk(rows, nextId)
    ensures QueueOk(Newest(rows, limit), nextId) && |Newest(rows, limit)| <= limit
    ensures forall w :: w in Newest(rows, limit) ==> w in rows
  {
  }

  lemma {:induction false} DeleteExpiredOk(rows: seq<Waiting>, now: int, nextId: nat)
    requires QueueOk(rows, nextId)
    ensures QueueOk(DeleteExpired(rows, now), nextId)
  {
    if rows != [] {
      TailOk(rows, nextId);
      DeleteExpiredOk(rows[1..], now, nextId);
      DeleteExpiredHolds(rows[1..], now);
      if rows[0].expiresAt > now {
        assert rows[0].id < nextId;
        PrependOk(rows[0], DeleteExpired(rows[1..], now), nextId);
      }
      hide QueueOk;
    }
  }

  lemma Relax(rows: seq<Waiting>, nextId: nat)
    requires QueueOk(rows, nextId)
    ensures QueueOk(rows, nextId + 1)
  {
  }

  /** Putting an event keeps the queue bounded, ordered and free of duplicates; while an event waits, a
      second report of it changes nothing, so its first capture stands. */
  lemma PutKeepsQueue(rows: seq<Waiting>, row: Waiting, limit: nat, now: int)
    requires QueueOk(rows, row.id)
    ensures var after := InboxPut(rows, row, limit, now);
            && QueueOk(after, row.id + 1) && |after| <= limit
            && (forall w :: w in after ==> w == row || (w in rows && w.expiresAt > now))
            && (row in after ==> row in rows || forall w :: w in rows && w.expiresAt > now ==> w.hook != row.hook)
  {
    hide QueueOk, DeleteExpired;
    var live := DeleteExpired(rows, now);
    DeleteExpiredHolds(rows, now);
    DeleteExpiredOk(rows, now, row.id);
    if Holds(live, row.hook) {
      Relax(live, row.id);
      NewestOk(live, limit, row.id + 1);
    } else {
      AppendOk(live, row);
      NewestOk(live + [row], limit, row.id + 1);
      forall w | w in rows && w.expiresAt > now
        ensures w.hook != row.hook
      {
        assert w in live;
      }
    }
  }

  class Inbox {
    var rows: seq<Waiting>
    var nextId: nat

    ghost predicate Valid()
      reads this
    {
      QueueOk(rows, nextId)
    }

    constructor ()
      ensures Valid() && rows == []
    {
      rows, nextId := [], 1;
    }

    method Put(hook: Hook, targets: map<Installation, nat>, policy: Policy, now: int)
      requires Valid()
      modifies this
      ensures Valid() && |rows| <= policy.maxEvents
      ensures rows == InboxPut(old(rows), Waiting(old(nextId), hook, targets, now + policy.ttl), policy.maxEvents, now)
    {
      var row := Waiting(nextId, hook, targets, now + policy.ttl);
      PutKeepsQueue(rows, row, policy.maxEvents, now);
      rows := DeleteExpired(rows, now);
      if !Holds(rows, hook) {
        rows := rows + [row];
      }
      nextId := nextId + 1;
      rows := Newest(rows, policy.maxEvents);
    }

    /** The row with the least id, or none when the inbox is empty. */
    method Peek() returns (row: Option<Waiting>)
      requires Valid()
      ensures row == if rows == [] then None else Some(rows[0])
      ensures row.Some? ==> row.value in rows && forall w :: w in rows ==> row.value.id <= w.id
    {
      row := if rows == [] then None else Some(rows[0]);
    }

    /** Removing the row just peeked leaves the others, in order. */
    method Remove(id: nat)
      requires Valid() && rows != [] && id == rows[0].id
      modifies this`rows
      ensures Valid() && rows == old(rows)[1..]
    {
      RemoveFirst(rows, id);
      rows := InboxRemove(rows, id);
    }
  }

  lemma RemoveFirst(rows: seq<Waiting>, id: nat)
    requires rows != [] && id == rows[0].id && forall i, j :: 0 <= i < j < |rows| ==> rows[i].id < rows[j].id
    ensures InboxRemove(rows, id) == rows[1..]
  {
    RemoveAbsent(rows[1..], id);
  }

  lemma {:induction false} RemoveAbsent(rows: seq<Waiting>, id: nat)
    requires forall i :: 0 <= i < |rows| ==> rows[i].id != id
    ensures InboxRemove(rows, id) == rows
  {
    if rows != [] {
      RemoveAbsent(rows[1..], id);
    }
  }

  // ---- The worker ----

  /** What the clock and the scan order are at one round of the drain. */
  datatype Round = Round(now: int, order: seq<Installation>)

  /** The store after one waiting event: recorded unless it expired or its session is not durable. */
  function DrainRow(db: M.Db, row: Waiting, policy: Policy, durable: set<string>, round: Round): M.Db {
    if row.expiresAt > round.now && row.hook.sessionId in durable then
      M.Record(db, round.order, row.hook, Some(row.targets), policy, round.now, row.expiresAt)
    else db
  }

  function DrainRows(db: M.Db, rows: seq<Waiting>, policy: Policy, durable: set<string>, rounds: seq<Round>): M.Db
    requires |rows| <= |rounds|
  {
    if rows == [] then db
    else DrainRow(DrainRows(db, rows[..|rows| - 1], policy, durable, rounds[..|rows| - 1]), rows[|rows| - 1], policy, durable, rounds[|rows| - 1])
  }

  const DRAIN_LIMIT: nat := 32

  function Drained(rows: seq<Waiting>): nat {
    if |rows| <= DRAIN_LIMIT then |rows| else DRAIN_LIMIT
  }

  /** A claim, and the delivery of what it found. */
  function Turn(db: M.Db, pick: Option<JobKey>, policy: Policy, claimAt: int, sendPolicy: Policy, durable: set<string>,
                stopping: bool, code: int, sendAt: int): M.Db {
    var claimed := Apply(db, ClaimOp(pick, policy, claimAt));
    if pick.None? then claimed
    else M.Deliver(claimed, pick.value, db.nextToken, sendPolicy, durable, stopping, code, sendAt)
  }

  /** The registrations as the database scans them in this round. */
  ghost predicate ScansAll(db: M.Db, rounds: seq<Round>) {
    forall n :: 0 <= n < |rounds| ==> forall i :: i in rounds[n].order <==> i in db.registrations
  }

  class Runtime {
    const store: PushStore.Store
    const inbox: Inbox

    constructor (store: PushStore.Store, inbox: Inbox)
      ensures this.store == store && this.inbox == inbox
    {
      this.store, this.inbox := store, inbox;
    }

    /** The observer's own path: capture the authority now, then record at once or, behind events that
        already wait or a busy store, queue what was captured. */
    method Observe(hook: Hook, stopping: bool, policy: Policy, durable: set<string>, busy: bool, now: int, order: seq<Installation>)
      requires inbox.Valid() && forall i :: i in order <==> i in store.registrations
      modifies store, inbox
      ensures inbox.Valid()
      ensures var captured := M.Targets(old(store.View()), hook, policy);
              if stopping || !policy.enabled || hook.sessionId !in durable then
                store.View() == old(store.View()) && inbox.rows == old(inbox.rows)
              else if old(inbox.rows) == [] && !busy then
                inbox.rows == [] && store.View() == M.Record(old(store.View()), order, hook, Some(captured), policy, now, now + policy.ttl)
              else
                store.View() == old(store.View())
                && inbox.rows == InboxPut(old(inbox.rows), Waiting(old(inbox.nextId), hook, captured, now + policy.ttl), policy.maxEvents, now)
    {
      if stopping {
        return;
      }
      if policy.enabled && hook.sessionId in durable {
        var captured := store.Targets(hook, policy);
        var waiting := inbox.Peek();
        if waiting.Some? || busy {
          inbox.Put(hook, captured, policy, now);
        } else {
          store.Record(order, hook, Some(captured), policy, now, now + policy.ttl);
        }
      }
    }

    /** Move up to 32 waiting events into the store, oldest first. */
    method DrainInbox(policy: Policy, durable: set<string>, rounds: seq<Round>)
      requires inbox.Valid() && |rounds| >= DRAIN_LIMIT && ScansAll(store.View(), rounds)
      modifies store, inbox
      ensures inbox.Valid()
      ensures var n := Drained(old(inbox.rows));
              inbox.rows == old(inbox.rows)[n..]
              && store.View() == DrainRows(old(store.View()), old(inbox.rows)[..n], policy, durable, rounds[..n])
    {
      hide M.Record, QueueOk;
      ghost var rows, db := inbox.rows, store.View();
      var n := 0;
      while n < DRAIN_LIMIT && inbox.rows != []
        invariant 0 <= n <= Drained(rows) && inbox.Valid() && inbox.rows == rows[n..]
        invariant store.View() == DrainRows(db, rows[..n], policy, durable, rounds[..n])
        invariant store.registrations == db.registrations
      {
        var first := inbox.Peek();
        var row := first.value;
        ghost var before := store.View();
        assert rows[..n + 1][..n] == rows[..n] && rounds[..n + 1][..n] == rounds[..n];
        if row.expiresAt > rounds[n].now && row.hook.sessionId in durable {
          assert forall i :: i in rounds[n].order <==> i in db.registrations;
          store.Record(rounds[n].order, row.hook, Some(row.targets), policy, rounds[n].now, row.expiresAt);
          RecordLeavesRows(before, rounds[n].order, row.hook, Some(row.targets), policy, rounds[n].now, row.expiresAt);
        }
        inbox.Remove(row.id);
        n := n + 1;
      }
    }

    /** One turn of the worker. It sends only when the inbox is empty, so that a resolution that waits is
        recorded before any input it may silence is sent. */
    method DeliverOne(policy: Policy, stopping: bool, durable: set<string>, rounds: seq<Round>, claimAt: int,
                      sendPolicy: Policy, stoppingNow: bool, code: int, sendAt: int)
      returns (worked: bool, sent: bool)
      requires inbox.Valid() && |rounds| >= DRAIN_LIMIT && ScansAll(store.View(), rounds)
      requires PushStoreOk(store.View())
      modifies store, inbox
      ensures inbox.Valid()
      ensures sent ==> worked && inbox.rows == [] && |old(inbox.rows)| <= DRAIN_LIMIT
      ensures !policy.enabled || stopping ==> !worked && store.View() == old(store.View()) && inbox.rows == old(inbox.rows)
      ensures policy.enabled && !stopping ==>
                var n := Drained(old(inbox.rows));
                var drained := DrainRows(old(store.View()), old(inbox.rows)[..n], policy, durable, rounds[..n]);
                inbox.rows == old(inbox.rows)[n..]
                && if inbox.rows != [] then worked && store.View() == drained
                   else exists pick :: Enabled(drained, ClaimOp(pick, policy, claimAt)) && worked == pick.Some?
                          && store.View() == Turn(drained, pick, policy, claimAt, sendPolicy, durable, stoppingNow, code, sendAt)
    {
      hide M.Record, M.Deliver, DrainRows, Apply, Enabled, I.StoreOk;
      sent := false;
      if !policy.enabled || stopping {
        return false, false;
      }
      ghost var n := Drained(inbox.rows);
      DrainKeeps(store.View(), inbox.rows[..n], policy, durable, rounds[..n]);
      DrainInbox(policy, durable, rounds);
      if inbox.rows != [] {
        return true, false;
      }
      ghost var drained := store.View();
      var pick, token := store.Claim(policy, claimAt);
      ClaimedHasRows(drained, pick, policy, claimAt);
      if pick.None? {
        return false, false;
      }
      sent := store.Deliver(pick.value, token, sendPolicy, durable, stoppingNow, code, sendAt);
      worked := true;
    }
  }

  ghost predicate PushStoreOk(db: M.Db) {
    I.StoreOk(db)
  }

  lemma {:induction false} DrainKeeps(db: M.Db, rows: seq<Waiting>, policy: Policy, durable: set<string>, rounds: seq<Round>)
    requires I.StoreOk(db) && |rows| <= |rounds|
    ensures I.StoreOk(DrainRows(db, rows, policy, durable, rounds))
  {
    hide I.StoreOk, M.Record;
    if rows != [] {
      var n := |rows| - 1;
      DrainKeeps(db, rows[..n], policy, durable, rounds[..n]);
      I.RecordKeeps(DrainRows(db, rows[..n], policy, durable, rounds[..n]), rounds[n].order, rows[n].hook, Some(rows[n].targets), policy,
                    rounds[n].now, rows[n].expiresAt);
    }
  }

  lemma ClaimedHasRows(db: M.Db, pick: Option<JobKey>, policy: Policy, now: int)
    requires I.StoreOk(db)
    ensures var claimed := Apply(db, ClaimOp(pick, policy, now));
            forall k :: k in claimed.outbox ==> k.installation in claimed.registrations
  {
    ApplyKeeps(db, ClaimOp(pick, policy, now));
    hide Apply;
  }

  // ---- Crashes between record and remove ----

  /** One round of the loop: the oldest event is recorded, and then removed unless the process dies first. */
  datatype CrashRound = CrashRound(round: Round, dies: bool)

  /** The store and the inbox after some rounds; both are durable, so the next process goes on from there. */
  function CrashRun(db: M.Db, rows: seq<Waiting>, policy: Policy, durable: set<string>, rounds: seq<CrashRound>): (M.Db, seq<Waiting>) {
    if rounds == [] then (db, rows)
    else
      var (before, left) := CrashRun(db, rows, policy, durable, rounds[..|rounds| - 1]);
      var last := rounds[|rounds| - 1];
      if left == [] then (before, left)
      else (DrainRow(before, left[0], policy, durable, last.round), if last.dies then left else left[1..])
  }

  /** How often each removed event was recorded, and how often the one after them. */
  datatype Tally = Tally(removed: seq<seq<D.Attempt>>, pending: seq<D.Attempt>)

  function TallyOf(waiting: nat, rounds: seq<CrashRound>): (t: Tally)
    ensures |t.removed| <= waiting
    ensures |t.removed| == waiting ==> t.pending == []
  {
    if rounds == [] then Tally([], [])
    else
      var before, last := TallyOf(waiting, rounds[..|rounds| - 1]), rounds[|rounds| - 1];
      var attempt := D.Attempt(last.round.order, last.round.now);
      if |before.removed| == waiting then before
      else if last.dies then before.(pending := before.pending + [attempt])
      else Tally(before.removed + [before.pending + [attempt]], [])
  }

  function EntryOf(row: Waiting): D.Entry {
    D.Entry(row.hook, row.targets, row.expiresAt)
  }

  function EntriesOf(rows: seq<Waiting>): (entries: seq<D.Entry>)
    ensures |entries| == |rows|
  {
    seq(|rows|, j requires 0 <= j < |rows| => EntryOf(rows[j]))
  }

  lemma DrainRowRecords(db: M.Db, row: Waiting, policy: Policy, durable: set<string>, round: Round)
    requires row.hook.sessionId in durable
    ensures DrainRow(db, row, policy, durable, round) == D.RecordEntry(db, round.order, EntryOf(row), policy, round.now)
  {
  }

  /** The worker's loop with crashes is the drain with repeated attempts: what was removed has been drained, and
      the oldest event still waiting has been recorded as often as the process died on it. */
  lemma {:induction false} CrashRunIsDrain(db: M.Db, rows: seq<Waiting>, policy: Policy, durable: set<string>, rounds: seq<CrashRound>)
    requires forall j :: 0 <= j < |rows| ==> rows[j].hook.sessionId in durable
    ensures var (after, left) := CrashRun(db, rows, policy, durable, rounds);
            var tally := TallyOf(|rows|, rounds);
            var n := |tally.removed|;
            && left == rows[n..]
            && var drained := D.Drain(db, EntriesOf(rows[..n]), tally.removed, policy);
               after == if left == [] then drained else D.Attempts(drained, EntryOf(left[0]), tally.pending, policy)
  {
    hide D.RecordEntry, DrainRow;
    if rounds != [] {
      var front, last := rounds[..|rounds| - 1], rounds[|rounds| - 1];
      CrashRunIsDrain(db, rows, policy, durable, front);
      var (before, left) := CrashRun(db, rows, policy, durable, front);
      var tally := TallyOf(|rows|, front);
      var n := |tally.removed|;
      if left != [] {
        var e, attempt := EntryOf(left[0]), D.Attempt(last.round.order, last.round.now);
        DrainRowRecords(before, left[0], policy, durable, last.round);
        OneMoreAttempt(D.Drain(db, EntriesOf(rows[..n]), tally.removed, policy), e, tally.pending, attempt, policy);
        if !last.dies {
          OneMoreEntry(db, rows, n, tally.removed, tally.pending + [attempt], policy);
        }
      }
    }
  }

  lemma OneMoreAttempt(db: M.Db, e: D.Entry, tries: seq<D.Attempt>, t: D.Attempt, policy: Policy)
    ensures D.Attempts(db, e, tries + [t], policy) == D.RecordEntry(D.Attempts(db, e, tries, policy), t.order, e, policy, t.now)
  {
    hide D.RecordEntry;
    assert (tries + [t])[..|tries|] == tries;
  }

  lemma OneMoreEntry(db: M.Db, rows: seq<Waiting>, n: nat, removed: seq<seq<D.Attempt>>, tries: seq<D.Attempt>, policy: Policy)
    requires n < |rows| && |removed| == n
    ensures D.Drain(db, EntriesOf(rows[..n + 1]), removed + [tries], policy)
            == D.Attempts(D.Drain(db, EntriesOf(rows[..n]), removed, policy), EntryOf(rows[n]), tries, policy)
  {
    hide D.Attempts;
    var entries := EntriesOf(rows[..n + 1]);
    assert entries[..n] == EntriesOf(rows[..n]);
    assert (removed + [tries])[..n] == removed;
  }
}
