/** The event feed: one page of a principal's stored events, and following its cursor. */
module PushFeed {
  import opened Basics
  import opened PushTypes
  import opened PushModel
  import opened PushRuns
  import opened PushInvariant

  /** Who reads, and with which consent: bound to one registration, or unbound with the operator's grants only. */
  datatype Reader = Reader(p: Principal, binding: Option<Registration>, policy: Policy, durable: set<string>, now: int)

  datatype Page = Page(visible: seq<nat>, nextCursor: nat, hasMore: bool)

  /** A row the query selects. */
  predicate Selected(db: Db, r: Reader, c: nat) {
    c in db.events && db.events[c].key.owner == r.p && db.events[c].expiresAt > r.now && !db.events[c].cancelled
  }

  /** A selected row the reader may see; a challenge carries no session and shows only to an unbound reader. */
  predicate Permitted(db: Db, r: Reader, c: nat)
    requires c in db.events
  {
    var source := db.events[c].key.source;
    if source.ChallengeFor? then r.binding.None?
    else if r.binding.Some? then AllowsHookFor(r, source.hook) && source.hook.sessionId in r.durable
    else r.policy.Allowed(r.p, source.hook.sessionId) && source.hook.sessionId in r.durable
  }

  predicate AllowsHookFor(r: Reader, hook: Hook)
    requires r.binding.Some?
  {
    hook.kind in r.binding.value.kinds && r.binding.value.scope.Allows(r.p, hook.sessionId, r.policy)
  }

  predicate Visible(db: Db, r: Reader, c: nat) {
    Selected(db, r, c) && Permitted(db, r, c)
  }

  /** The selected cursors from `c` on, ascending. */
  function Rows(db: Db, r: Reader, c: nat): seq<nat>
    decreases db.nextCursor - c
  {
    if c >= db.nextCursor then []
    else if Selected(db, r, c) then [c] + Rows(db, r, c + 1)
    else Rows(db, r, c + 1)
  }

  function Take<T>(s: seq<T>, n: nat): seq<T> {
    if |s| <= n then s else s[..n]
  }

  /** What the loop over the selected rows returns. */
  function PageOf(db: Db, r: Reader, rows: seq<nat>, limit: nat, cursor: nat): Page
  {
    if rows == [] then Page([], cursor, false)
    else if !Visible(db, r, rows[0]) then PageOf(db, r, rows[1..], limit, rows[0])
    else if limit == 0 then Page([], cursor, true)
    else
      var rest := PageOf(db, r, rows[1..], limit - 1, rows[0]);
      Page([rows[0]] + rest.visible, rest.nextCursor, rest.hasMore)
  }

  function FeedPage(db: Db, r: Reader, limit: nat, after: nat): Page {
    PageOf(db, r, Take(Rows(db, r, after + 1), r.policy.maxEvents), limit, after)
  }

  /** The reference: every cursor from `c` on that the reader may see, ascending. */
  function Everything(db: Db, r: Reader, c: nat): seq<nat>
    decreases db.nextCursor - c
  {
    if c >= db.nextCursor then []
    else if Visible(db, r, c) then [c] + Everything(db, r, c + 1)
    else Everything(db, r, c + 1)
  }

  function Filter(db: Db, r: Reader, rows: seq<nat>): seq<nat> {
    if rows == [] then []
    else if Visible(db, r, rows[0]) then [rows[0]] + Filter(db, r, rows[1..])
    else Filter(db, r, rows[1..])
  }

  lemma {:induction false} FilterSplits(db: Db, r: Reader, a: seq<nat>, b: seq<nat>)
    ensures Filter(db, r, a + b) == Filter(db, r, a) + Filter(db, r, b)
  {
    if a == [] {
      assert a + b == b;
    } else {
      FilterSplits(db, r, a[1..], b);
      assert (a + b)[1..] == a[1..] + b;
    }
  }

  lemma {:induction false} FilterOfRows(db: Db, r: Reader, c: nat)
    ensures Filter(db, r, Rows(db, r, c)) == Everything(db, r, c)
    decreases db.nextCursor - c
  {
    if c < db.nextCursor {
      FilterOfRows(db, r, c + 1);
      if Selected(db, r, c) {
        assert ([c] + Rows(db, r, c + 1))[1..] == Rows(db, r, c + 1);
      }
    }
  }

  ghost predicate Ascending(db: Db, r: Reader, c: nat, rows: seq<nat>) {
    && (forall i :: 0 <= i < |rows| ==> c <= rows[i] < db.nextCursor)
    && (forall i :: 0 <= i < |rows| ==> Selected(db, r, rows[i]))
    && (forall i, j :: 0 <= i < j < |rows| ==> rows[i] < rows[j])
  }

  lemma {:induction false} RowsAscend(db: Db, r: Reader, c: nat)
    ensures Ascending(db, r, c, Rows(db, r, c))
    decreases db.nextCursor - c
  {
    hide Selected;
    if c < db.nextCursor {
      RowsAscend(db, r, c + 1);
      AscendingGrows(db, r, c, Rows(db, r, c + 1));
    }
  }

  lemma AscendingGrows(db: Db, r: Reader, c: nat, rest: seq<nat>)
    requires Ascending(db, r, c + 1, rest) && c < db.nextCursor
    ensures Ascending(db, r, c, rest)
    ensures Selected(db, r, c) ==> Ascending(db, r, c, [c] + rest)
  {
    hide Selected;
    var rows := [c] + rest;
    assert forall i :: 0 < i < |rows| ==> rows[i] == rest[i - 1];
  }

  /** Dropping the rows up to one of them is querying again from behind it. */
  lemma {:induction false} RowsAfter(db: Db, r: Reader, c: nat, j: nat)
    requires j < |Rows(db, r, c)|
    ensures Rows(db, r, c)[j + 1..] == Rows(db, r, Rows(db, r, c)[j] + 1)
    decreases db.nextCursor - c
  {
    RowsAscend(db, r, c);
    if Selected(db, r, c) {
      assert Rows(db, r, c)[1..] == Rows(db, r, c + 1);
      if j > 0 {
        RowsAfter(db, r, c + 1, j - 1);
        assert Rows(db, r, c)[j + 1..] == Rows(db, r, c + 1)[j..];
      }
    } else {
      RowsAfter(db, r, c + 1, j);
    }
  }

  /** A page shows the visible rows of a prefix of the query; its cursor is the end of that prefix, and
      what is left holds a visible row exactly when the page says there is more. */
  lemma {:induction false} PageIsPrefix(db: Db, r: Reader, rows: seq<nat>, limit: nat, cursor: nat) returns (j: nat)
    ensures var page := PageOf(db, r, rows, limit, cursor);
            && j <= |rows|
            && page.visible == Filter(db, r, rows[..j]) && |page.visible| <= limit
            && page.nextCursor == (if j == 0 then cursor else rows[j - 1])
            && (page.hasMore <==> Filter(db, r, rows[j..]) != [])
            && (!page.hasMore ==> j == |rows|)
            && (page.hasMore ==> |page.visible| == limit)
  {
    if rows == [] {
      j := 0;
    } else if !Visible(db, r, rows[0]) {
      var k := PageIsPrefix(db, r, rows[1..], limit, rows[0]);
      j := k + 1;
      assert rows[..j][1..] == rows[1..][..k];
      assert rows[j..] == rows[1..][k..];
    } else if limit == 0 {
      j := 0;
      assert rows[..0] == [] && rows[0..] == rows;
    } else {
      var k := PageIsPrefix(db, r, rows[1..], limit - 1, rows[0]);
      j := k + 1;
      assert rows[..j][1..] == rows[1..][..k];
      assert rows[j..] == rows[1..][k..];
    }
  }

  /** A page with more to come moves the cursor forward, past every row it showed. */
  lemma MorePagesAdvance(db: Db, r: Reader, limit: nat, after: nat)
    requires limit >= 1 && FeedPage(db, r, limit, after).hasMore
    ensures after < FeedPage(db, r, limit, after).nextCursor < db.nextCursor
  {
    RowsAscend(db, r, after + 1);
    var rows := Take(Rows(db, r, after + 1), r.policy.maxEvents);
    var j := PageIsPrefix(db, r, rows, limit, after);
    assert rows[..0] == [];
  }

  /** Following the cursor until a page says there is no more. */
  function Follow(db: Db, r: Reader, limit: nat, after: nat): seq<nat>
    requires limit >= 1
    decreases db.nextCursor - after
  {
    var page := FeedPage(db, r, limit, after);
    if page.hasMore then
      MorePagesAdvance(db, r, limit, after);
      page.visible + Follow(db, r, limit, page.nextCursor)
    else page.visible
  }

  /** While the table fits the query's own bound, following the cursor shows exactly what the reader may
      see, once each and in order, whatever the page size. */
  lemma {:induction false} FollowingShowsEverything(db: Db, r: Reader, limit: nat, after: nat)
    requires limit >= 1 && |Rows(db, r, after + 1)| <= r.policy.maxEvents
    ensures Follow(db, r, limit, after) == Everything(db, r, after + 1)
    decreases db.nextCursor - after
  {
    var rows := Rows(db, r, after + 1);
    var page := FeedPage(db, r, limit, after);
    var j := PageIsPrefix(db, r, rows, limit, after);
    FilterOfRows(db, r, after + 1);
    assert rows == rows[..j] + rows[j..];
    FilterSplits(db, r, rows[..j], rows[j..]);
    if page.hasMore {
      MorePagesAdvance(db, r, limit, after);
      assert j > 0;
      RowsAfter(db, r, after + 1, j - 1);
      assert rows[j..] == Rows(db, r, page.nextCursor + 1);
      FollowingShowsEverything(db, r, limit, page.nextCursor);
      FilterOfRows(db, r, page.nextCursor + 1);
    } else {
      assert rows[..j] == rows;
    }
  }

  // ---- The table fits ----

  lemma {:induction false} Smallest(s: set<nat>, some: nat) returns (m: nat)
    requires some in s
    ensures m in s && forall x :: x in s ==> m <= x
    decreases some
  {
    if x: nat :| x in s && x < some {
      m := Smallest(s, x);
    } else {
      m := some;
    }
  }

  lemma CapBounds(events: map<nat, Event>, limit: nat)
    ensures |DeleteAllButNewestEvents(events, limit)| <= limit
  {
    var kept := DeleteAllButNewestEvents(events, limit);
    if c: nat :| c in kept {
      var m := Smallest(kept.Keys, c);
      SubsetSize(kept.Keys - {m}, NewerEvents(events, m));
    } else {
      assert kept == map[];
    }
  }

  /** The operator's bound on stored events, the same throughout the run. */
  ghost predicate SameCap(op: Op, cap: nat) {
    match op
    case PutOp(_, _, _, policy, _, _) => policy.maxEvents == cap
    case RecordOp(_, _, _, policy, _, _) => policy.maxEvents == cap
    case ClaimOp(_, policy, _) => policy.maxEvents == cap
    case _ => true
  }

  lemma PruneFits(db: Db, policy: Policy, now: int)
    ensures |Prune(db, policy, now).events| <= policy.maxEvents
  {
    CapBounds(DeleteExpiredEvents(db.events, now), policy.maxEvents);
  }

  lemma SameKeysFit<V>(a: map<nat, V>, b: map<nat, V>)
    requires a.Keys == b.Keys
    ensures |a| == |b|
  {
    assert |a| == |a.Keys| && |b| == |b.Keys|;
  }

  lemma RecordFits(db: Db, op: Op, cap: nat)
    requires |db.events| <= cap && op.RecordOp? && op.policy.maxEvents == cap
    ensures |Apply(db, op).events| <= cap
  {
    hide Prune, RecordAll, Note, AlreadyResolved;
    PruneFits(db, op.policy, op.now);
    PruneFits(RecordAll(Note(Prune(db, op.policy, op.now), op.hook, op.policy, op.now), op.order, op.hook, op.targets, op.policy, op.now, op.expires),
              op.policy, op.now);
  }

  lemma PutFits(db: Db, op: Op, cap: nat)
    requires |db.events| <= cap && op.PutOp? && op.policy.maxEvents == cap
    ensures |Apply(db, op).events| <= cap
  {
    hide Prune, PutAccepted;
    if PutRefusal(db, op.p, op.i, op.body, op.policy).None? {
      PruneFits(PutAccepted(db, op.p, op.i, op.body, op.policy, op.now, op.challenge), op.policy, op.now);
    }
  }

  lemma OtherFits(db: Db, op: Op)
    requires op.ConfirmOp? || op.RevokeOp? || op.DeliverOp? || op.ReopenOp?
    ensures |Apply(db, op).events| == |db.events|
  {
    hide PushModel.Permitted, ConfirmRefusal;
    assert Apply(db, op).events.Keys == db.events.Keys;
    SameKeysFit(Apply(db, op).events, db.events);
  }

  lemma {:induction false} StoreFits(start: Db, ops: seq<Op>, cap: nat)
    requires |start.events| <= cap && forall j :: 0 <= j < |ops| ==> SameCap(ops[j], cap)
    ensures |After(start, ops).events| <= cap
  {
    if ops != [] {
      hide Apply, Prune;
      var db, op := After(start, ops[..|ops| - 1]), ops[|ops| - 1];
      StoreFits(start, ops[..|ops| - 1], cap);
      match op
      case PutOp(_, _, _, _, _, _) => PutFits(db, op, cap);
      case RecordOp(_, _, _, _, _, _) => RecordFits(db, op, cap);
      case ClaimOp(_, policy, now) => ClaimFits(db, op);
      case _ => OtherFits(db, op);
    }
  }

  lemma ClaimFits(db: Db, op: Op)
    requires op.ClaimOp?
    ensures |Apply(db, op).events| <= op.policy.maxEvents
  {
    hide Prune;
    PruneFits(db, op.policy, op.now);
  }

  lemma RowsFit(db: Db, r: Reader, c: nat)
    ensures |Rows(db, r, c)| <= |db.events|
  {
    RowsAscend(db, r, c);
    var rows := Rows(db, r, c);
    forall i | 0 <= i < |rows|
      ensures rows[i] in db.events
    {
      assert Selected(db, r, rows[i]);
    }
    DistinctFits(rows, db.events.Keys);
  }

  lemma {:induction false} DistinctFits(rows: seq<nat>, s: set<nat>)
    requires forall i :: 0 <= i < |rows| ==> rows[i] in s
    requires forall i, j :: 0 <= i < j < |rows| ==> rows[i] < rows[j]
    ensures |rows| <= |s|
    decreases |rows|
  {
    if rows != [] {
      var last := rows[|rows| - 1];
      DistinctFits(rows[..|rows| - 1], s - {last});
    }
  }

  /** In every reachable store under one event cap, paging equals filtering. */
  lemma PagingEqualsFiltering(start: Db, ops: seq<Op>, r: Reader, limit: nat, after: nat)
    requires limit >= 1 && |start.events| <= r.policy.maxEvents
    requires forall j :: 0 <= j < |ops| ==> SameCap(ops[j], r.policy.maxEvents)
    ensures Follow(After(start, ops), r, limit, after) == Everything(After(start, ops), r, after + 1)
  {
    hide After, Follow, Everything, Rows, SameCap;
    StoreFits(start, ops, r.policy.maxEvents);
    RowsFit(After(start, ops), r, after + 1);
    FollowingShowsEverything(After(start, ops), r, limit, after);
  }

  // ---- Who may read ----

  const MAX_GENERATION: int := 9223372036854775807

  datatype Binding = Bound(row: Registration) | Unbound | NotBound(code: int)

  /** The registration a reader names, if it names one: both parts or neither, its own, and active right now
      at that very generation. */
  function Bind(db: Db, p: Principal, installation: Option<Installation>, generation: Option<int>): Binding {
    if installation.None? && generation.None? then Unbound
    else if installation.None? || generation.None? || !Identifier(installation.value) || !(1 <= generation.value <= MAX_GENERATION)
    then NotBound(422)
    else if installation.value !in db.registrations || db.registrations[installation.value].owner != p then NotBound(404)
    else if db.registrations[installation.value].status != Active || db.registrations[installation.value].generation != generation.value
    then NotBound(409)
    else Bound(db.registrations[installation.value])
  }

  /** A feed bound to a generation that is over stays closed, whatever the installation does next. */
  lemma {:induction false} ClosedFeedsStayClosed(db: Db, ops: seq<Op>, p: Principal, i: Installation, generation: int)
    requires StoreOk(db) && i in db.registrations && Identifier(i) && 1 <= generation <= MAX_GENERATION
    requires generation < db.registrations[i].generation || db.registrations[i].status == Revoked
    ensures Bind(After(db, ops), p, Some(i), Some(generation)) == NotBound(if db.registrations[i].owner == p then 409 else 404)
  {
    hide StoreOk, After, Identifier;
    RunLater(db, ops);
  }
}
