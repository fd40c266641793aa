/** The store as it runs: one object whose tables each transaction rewrites, and what each leaves there. */
module PushStore {
  import opened Basics
  import opened PushTypes
  import M = PushModel
  import opened PushRuns
  import Feed = PushFeed

  class Store {
    var registrations: map<Installation, Registration>
    var nonces: set<(Installation, string)>
    var events: map<nat, Event>
    var index: map<EventKey, nat>
    var outbox: map<JobKey, Job>
    var attention: map<AttentionKey, Attention>
    var nextCursor: nat
    var nextJob: nat
    var nextAttention: nat
    var nextToken: nat

    function View(): M.Db
      reads this
    {
      M.Db(registrations, nonces, events, index, outbox, attention, nextCursor, nextJob, nextAttention, nextToken)
    }

    /** Opening a database file: the migration walks over the rows that predate revisions. */
    constructor Open(db: M.Db, legacy: seq<Installation>)
      requires forall i :: i in legacy <==> i in db.registrations && M.Legacy(db.registrations[i])
      requires forall j, k :: 0 <= j < k < |legacy| ==> legacy[j] != legacy[k]
      ensures View() == M.Reopen(db)
    {
      hide Upgraded, M.DeleteJobsOf, M.CancelChallengesOf, M.Reopen, M.Legacy;
      NothingUpgraded(db);
      registrations, nonces, events, index := db.registrations, db.nonces, db.events, db.index;
      outbox, attention := db.outbox, db.attention;
      nextCursor, nextJob, nextAttention, nextToken := db.nextCursor, db.nextJob, db.nextAttention, db.nextToken;
      new;
      var n := 0;
      while n < |legacy|
        invariant 0 <= n <= |legacy|
        invariant View() == Upgraded(db, legacy[..n])
      {
        var i := legacy[n];
        StillThere(db, legacy[..n], i);
        UpgradeStep(db, legacy[..n], i);
        assert legacy[..n + 1] == legacy[..n] + [i];
        registrations := registrations[i := registrations[i].(status := UpgradeRequired, generation := registrations[i].generation + 1,
                                                              challenge := None, endpoint := "", keys := "{}")];
        outbox := M.DeleteJobsOf(outbox, i);
        events := M.CancelChallengesOf(events, i);
        n := n + 1;
      }
      assert legacy[..n] == legacy;
      UpgradedIsReopened(db, legacy);
      nonces := nonces + set i | i in registrations && registrations[i].nonce != "" :: (i, registrations[i].nonce);
    }

    method AddEvent(key: EventKey, now: int, expires: int) returns (cursor: nat)
      modifies this`events, this`index, this`nextCursor
      ensures View() == M.InsertEvent(old(View()), key, now, expires).0
      ensures cursor == M.InsertEvent(old(View()), key, now, expires).1
    {
      if key in index {
        return index[key];
      }
      cursor := nextCursor;
      events := events[cursor := Event(key, now, expires, false)];
      index := index[key := cursor];
      nextCursor := cursor + 1;
    }

    method Queue(key: JobKey, hint: Hint, now: int)
      modifies this`outbox, this`nextJob
      ensures View() == M.QueueJob(old(View()), key, hint, now)
    {
      if key !in outbox {
        outbox := outbox[key := Job(nextJob, Some(hint), 0, now, None, 0, false)];
        nextJob := nextJob + 1;
      }
    }

    method Prune(policy: Policy, now: int)
      modifies this`events, this`index, this`outbox, this`attention
      ensures View() == M.Prune(old(View()), policy, now)
    {
      events := M.DeleteExpiredEvents(events, now);
      events := M.DeleteAllButNewestEvents(events, policy.maxEvents);
      index := M.CascadeIndex(index, events);
      outbox := M.CascadeJobs(outbox, events);
      attention := M.DeleteExpiredAttention(attention, now);
      attention := M.DeleteAllButNewestAttention(attention, policy.maxEvents);
    }

    method CancelAttention(sessionId: string, request: Option<string>)
      modifies this`events, this`outbox
      ensures View() == M.CancelAttention(old(View()), sessionId, request)
    {
      events := M.CancelInputs(events, sessionId, request);
      outbox := M.DeleteJobsOfCancelled(outbox, events);
    }

    method RevokeIn(i: Installation)
      requires i in registrations
      modifies this`registrations, this`outbox, this`events
      ensures View() == M.RevokeIn(old(View()), i)
    {
      var row := registrations[i];
      registrations := registrations[i := row.(generation := row.generation + 1, status := Revoked, challenge := None, endpoint := "", keys := "{}")];
      outbox := M.DeleteJobsOf(outbox, i);
      events := M.CancelChallengesOf(events, i);
    }

    method Put(p: Principal, i: Installation, body: Body, policy: Policy, now: int, challenge: string) returns (reply: M.Reply)
      modifies this
      ensures View() == M.Put(old(View()), p, i, body, policy, now, challenge).0
      ensures reply == M.Put(old(View()), p, i, body, policy, now, challenge).1
    {
      hide M.Prune, M.QueueJob, M.InsertEvent, M.DeleteJobsOf, M.CancelChallengesOf;
      if body.revision < 1 || body.revision > MAX_REVISION {
        return M.Refused(422);
      }
      var scope := SessionScope.FromBody(body.mode, body.sessionIds);
      if scope.None? {
        return M.Refused(422);
      }
      var generation := 1;
      if i in registrations {
        var previous := registrations[i];
        if previous.owner != p {
          return M.Refused(404);
        }
        if previous.status == Revoked || body.revision <= previous.revision {
          return M.Refused(409);
        }
        if previous.nonce == body.nonce || (i, body.nonce) in nonces {
          return M.Refused(409);
        }
        generation := previous.generation + 1;
      } else if |registrations| >= policy.maxRegistrations {
        return M.Refused(429);
      }
      ghost var before := View();
      var expires := now + policy.challengeTtl;
      outbox := M.DeleteJobsOf(outbox, i);
      events := M.CancelChallengesOf(events, i);
      registrations := registrations[i := Registration(p, generation, Pending, body.nonce, body.endpoint, body.keys, body.kinds,
                                                       scope.value, Some(challenge), expires, body.revision)];
      nonces := nonces + {(i, body.nonce)};
      assert View() == M.WriteRegistration(before, p, i, body, challenge, expires);
      var cursor := AddEvent(EventKey(p, ChallengeFor(i, generation)), now, expires);
      var hint := Hint(cursor, Challenge, generation, body.nonce, expires, Some(challenge));
      Queue(JobKey(cursor, i, generation), hint, now);
      Prune(policy, now);
      reply := M.Accepted(generation);
    }

    method Confirm(p: Principal, i: Installation, generation: nat, challenge: string, policy: Policy, durable: set<string>, now: int)
      returns (reply: M.Reply)
      modifies this`registrations, this`outbox
      ensures View() == M.Confirm(old(View()), p, i, generation, challenge, policy, durable, now).0
      ensures reply == M.Confirm(old(View()), p, i, generation, challenge, policy, durable, now).1
    {
      if i !in registrations || registrations[i].owner != p {
        return M.Refused(404);
      }
      var row := registrations[i];
      if row.generation != generation || row.status != Pending || row.challengeExpires <= now || row.challenge != Some(challenge) {
        return M.Refused(409);
      }
      var scope := SessionScope.FromRegistration(row.scope);
      if scope.None? {
        return M.Refused(422);
      }
      if !scope.value.Ready(p, policy, durable) {
        return M.Refused(403);
      }
      registrations := registrations[i := row.(status := Active, challenge := None)];
      outbox := M.DeleteJobsOf(outbox, i);
      reply := M.Accepted(generation);
    }

    method Revoke(p: Principal, i: Installation, caller: Option<Policy>) returns (reply: M.Reply)
      modifies this`registrations, this`outbox, this`events
      ensures View() == M.Revoke(old(View()), p, i, caller).0
      ensures reply == M.Revoke(old(View()), p, i, caller).1
    {
      hide M.RevokeIn;
      if i !in registrations {
        if caller.Some? && !caller.value.Admitted(p) {
          return M.Refused(403);
        }
        var capacity := if caller.Some? then caller.value.maxRegistrations else 256;
        if |registrations| >= capacity {
          return M.Refused(429);
        }
        registrations := registrations[i := Registration(p, 1, Revoked, "", "", "{}", {}, SessionScope(Explicit, []), None, 0, 0)];
        return M.Accepted(1);
      }
      var row := registrations[i];
      if row.owner != p {
        return M.Refused(404);
      }
      if row.status == Revoked {
        return M.Accepted(row.generation);
      }
      RevokeIn(i);
      reply := M.Accepted(row.generation + 1);
    }

    method Targets(hook: Hook, policy: Policy) returns (targets: map<Installation, nat>)
      ensures targets == M.Targets(View(), hook, policy)
    {
      targets := map i | i in registrations && registrations[i].status == Active && M.AllowsHook(registrations[i], hook, policy)
                   :: registrations[i].generation;
    }

    /** `order` is the order in which the database scans the registrations. */
    method Record(order: seq<Installation>, hook: Hook, targets: Option<map<Installation, nat>>, policy: Policy, now: int, expires: int)
      requires forall i :: i in order <==> i in registrations
      modifies this
      ensures View() == M.Record(old(View()), order, hook, targets, policy, now, expires)
    {
      hide M.Prune, M.RecordFor, M.CancelAttention, M.ResolveSession;
      if expires <= now {
        return;
      }
      Prune(policy, now);
      ghost var pruned := View();
      if hook.HasRequest() {
        var a := AttentionKey(hook.sessionId, hook.reference);
        if hook.kind == Input && a in attention && attention[a].resolved {
          return;
        }
        var resolved := hook.kind == InputResolved;
        if a in attention {
          attention := attention[a := Attention(attention[a].row, attention[a].resolved || resolved, now + policy.ttl * 2)];
        } else {
          attention := attention[a := Attention(nextAttention, resolved, now + policy.ttl * 2)];
          nextAttention := nextAttention + 1;
        }
        if resolved {
          CancelAttention(hook.sessionId, Some(hook.reference));
        }
      } else if hook.EndsTurn() {
        CancelAttention(hook.sessionId, None);
        attention := M.ResolveSession(attention, hook.sessionId);
      }
      ghost var noted := View();
      assert noted == M.Note(pruned, hook, policy, now);
      RecordRows(order, hook, targets, policy, now, expires);
      Prune(policy, now);
    }

    method RecordRows(order: seq<Installation>, hook: Hook, targets: Option<map<Installation, nat>>, policy: Policy, now: int, expires: int)
      modifies this`events, this`index, this`nextCursor, this`outbox, this`nextJob
      ensures View() == M.RecordAll(old(View()), order, hook, targets, policy, now, expires)
    {
      hide M.RecordFor;
      ghost var noted := View();
      var n := 0;
      while n < |order|
        invariant 0 <= n <= |order|
        invariant View() == M.RecordAll(noted, order[..n], hook, targets, policy, now, expires)
      {
        RecordRow(order[n], hook, targets, policy, now, expires);
        assert order[..n + 1][..n] == order[..n];
        n := n + 1;
      }
      assert order[..n] == order;
    }

    method RecordRow(i: Installation, hook: Hook, targets: Option<map<Installation, nat>>, policy: Policy, now: int, expires: int)
      modifies this`events, this`index, this`nextCursor, this`outbox, this`nextJob
      ensures View() == M.RecordFor(old(View()), i, hook, targets, policy, now, expires)
    {
      hide M.InsertEvent, M.QueueJob;
      if i in registrations && registrations[i].status == Active {
        var row := registrations[i];
        if targets.Some? && !(i in targets.value && targets.value[i] == row.generation) {
          return;
        }
        if !M.AllowsHook(row, hook, policy) {
          return;
        }
        var cursor := AddEvent(EventKey(row.owner, FromHook(hook)), now, expires);
        Queue(JobKey(cursor, i, row.generation), Hint(cursor, hook.kind, row.generation, row.nonce, expires, None), now);
      }
    }

    /** The oldest job that is due, found by a scan of the outbox. */
    method OldestDue(maxAttempts: nat, now: int) returns (pick: Option<JobKey>)
      ensures pick.Some? ==> M.OldestDue(outbox, pick.value, maxAttempts, now)
      ensures pick.None? ==> forall k :: k in outbox ==> !M.Due(outbox[k], maxAttempts, now)
    {
      pick := None;
      var todo := outbox.Keys;
      while todo != {}
        invariant todo <= outbox.Keys
        invariant pick.Some? ==> pick.value in outbox && M.Due(outbox[pick.value], maxAttempts, now)
        invariant forall k :: k in outbox && k !in todo && M.Due(outbox[k], maxAttempts, now) ==>
                    pick.Some? && outbox[pick.value].id <= outbox[k].id
        decreases todo
      {
        var k :| k in todo;
        todo := todo - {k};
        if M.Due(outbox[k], maxAttempts, now) && (pick.None? || outbox[k].id < outbox[pick.value].id) {
          pick := Some(k);
        }
      }
    }

    method Claim(policy: Policy, now: int) returns (pick: Option<JobKey>, token: nat)
      modifies this
      ensures Enabled(old(View()), ClaimOp(pick, policy, now)) && View() == Apply(old(View()), ClaimOp(pick, policy, now))
      ensures token == old(nextToken)
    {
      hide M.Prune, M.FinishExhausted;
      ghost var before := View();
      Prune(policy, now);
      outbox := M.FinishExhausted(outbox, policy.maxAttempts, now);
      assert View() == M.ClaimPrepared(before, policy, now);
      PruneLeavesTokens(before, policy, now);
      token := nextToken;
      pick := OldestDue(policy.maxAttempts, now);
      if pick.Some? {
        var job := outbox[pick.value];
        outbox := outbox[pick.value := job.(lease := Some(token), leaseUntil := now + 30, attempts := job.attempts + 1)];
        nextToken := token + 1;
      }
    }

    /** The sender's transaction for a job it claimed; `code` is what the endpoint would answer. */
    method Deliver(k: JobKey, token: nat, policy: Policy, durable: set<string>, stopping: bool, code: int, now: int) returns (sent: bool)
      requires k in outbox ==> k.installation in registrations
      modifies this
      ensures View() == M.Deliver(old(View()), k, token, policy, durable, stopping, code, now)
      ensures sent == M.Sends(old(View()), k, token, policy, durable, stopping, now)
    {
      hide M.Permitted, M.RevokeIn;
      if k !in outbox || outbox[k].lease != Some(token) || outbox[k].done {
        return false;
      }
      var job := outbox[k];
      if !M.Permitted(View(), k, policy, durable, stopping, now) {
        outbox := outbox[k := job.(done := true, payload := None)];
        return false;
      }
      sent := true;
      if code == 404 || code == 410 {
        RevokeIn(k.installation);
      } else if 200 <= code <= 202 || (400 <= code < 500 && code != 408 && code != 429) {
        outbox := outbox[k := job.(done := true, payload := None, lease := None, leaseUntil := 0)];
      } else {
        outbox := outbox[k := job.(lease := None, leaseUntil := 0, nextAt := now + M.RetryDelay(job.attempts))];
      }
    }

    /** One page of the feed, or the code that refuses it. */
    method Events(p: Principal, after: nat, limit: nat, policy: Policy, durable: set<string>, now: int,
                  installation: Option<Installation>, generation: Option<int>) returns (page: Option<Feed.Page>, code: int)
      ensures var binding := Feed.Bind(View(), p, installation, generation);
              && (page.None? <==> binding.NotBound?)
              && (binding.NotBound? ==> code == binding.code)
              && (binding.Unbound? ==> page == Some(Feed.FeedPage(View(), Feed.Reader(p, None, policy, durable, now), limit, after)))
              && (binding.Bound? ==>
                    page == Some(Feed.FeedPage(View(), Feed.Reader(p, Some(binding.row), policy, durable, now), limit, after)))
    {
      hide Feed.FeedPage;
      code := 200;
      var binding: Option<Registration> := None;
      if installation.Some? || generation.Some? {
        if installation.None? || generation.None? || !Identifier(installation.value)
           || !(1 <= generation.value <= Feed.MAX_GENERATION) {
          return None, 422;
        }
        if installation.value !in registrations || registrations[installation.value].owner != p { return None, 404; }
        var row := registrations[installation.value];
        if row.status != Active || row.generation != generation.value { return None, 409; }
        binding := Some(row);
      }
      var visible := ReadPage(Feed.Reader(p, binding, policy, durable, now), limit, after);
      page := Some(visible);
    }

    method ReadPage(r: Feed.Reader, limit: nat, after: nat) returns (page: Feed.Page)
      ensures page == Feed.FeedPage(View(), r, limit, after)
    {
      hide Feed.Visible, Feed.Rows;
      var rows := Feed.Take(Feed.Rows(View(), r, after + 1), r.policy.maxEvents);
      var visible, cursor := [], after;
      var n := 0;
      while n < |rows|
        invariant 0 <= n <= |rows| && |visible| <= limit
        invariant var rest := Feed.PageOf(View(), r, rows[n..], limit - |visible|, cursor);
                  Feed.PageOf(View(), r, rows, limit, after) == Feed.Page(visible + rest.visible, rest.nextCursor, rest.hasMore)
      {
        assert rows[n..][0] == rows[n] && rows[n..][1..] == rows[n + 1..];
        if !Feed.Visible(View(), r, rows[n]) {
          cursor := rows[n];
        } else {
          if |visible| == limit {
            return Feed.Page(visible, cursor, true);
          }
          cursor := rows[n];
          visible := visible + [rows[n]];
        }
        n := n + 1;
      }
      assert rows[n..] == [];
      page := Feed.Page(visible, cursor, false);
    }
  }

  lemma PruneLeavesTokens(db: M.Db, policy: Policy, now: int)
    ensures M.ClaimPrepared(db, policy, now).nextToken == db.nextToken
  {
  }

  // ---- The migration loop ----

  /** The database with some of its legacy rows upgraded. */
  function Upgraded(db: M.Db, done: seq<Installation>): M.Db {
    db.(registrations := map i | i in db.registrations :: if i in done then M.UpgradeRow(db.registrations[i]) else db.registrations[i],
        events := map c | c in db.events ::
          if db.events[c].key.source.ChallengeFor? && db.events[c].key.source.installation in done
          then db.events[c].(cancelled := true) else db.events[c],
        outbox := map k | k in db.outbox && k.installation !in done :: db.outbox[k])
  }

  lemma NothingUpgraded(db: M.Db)
    ensures Upgraded(db, []) == db
  {
    assert Upgraded(db, []).registrations == db.registrations;
    assert Upgraded(db, []).events == db.events;
    assert Upgraded(db, []).outbox == db.outbox;
  }

  lemma StillThere(db: M.Db, done: seq<Installation>, i: Installation)
    requires i in db.registrations && i !in done
    ensures i in Upgraded(db, done).registrations && Upgraded(db, done).registrations[i] == db.registrations[i]
  {
  }

  lemma UpgradeStep(db: M.Db, done: seq<Installation>, i: Installation)
    requires i in db.registrations && i !in done
    ensures var a, b := Upgraded(db, done), Upgraded(db, done + [i]);
            b == a.(registrations := a.registrations[i := M.UpgradeRow(db.registrations[i])],
                    outbox := M.DeleteJobsOf(a.outbox, i),
                    events := M.CancelChallengesOf(a.events, i))
  {
    var a, b := Upgraded(db, done), Upgraded(db, done + [i]);
    assert forall j :: j in done + [i] <==> j in done || j == i;
    assert forall c :: c in b.events ==> b.events[c] == M.CancelChallengesOf(a.events, i)[c];
  }

  lemma UpgradedIsReopened(db: M.Db, legacy: seq<Installation>)
    requires forall i :: i in legacy <==> i in db.registrations && M.Legacy(db.registrations[i])
    ensures var a, b := Upgraded(db, legacy), M.Reopen(db);
            b == a.(nonces := a.nonces + set i | i in a.registrations && a.registrations[i].nonce != "" :: (i, a.registrations[i].nonce))
  {
    var a, b := Upgraded(db, legacy), M.Reopen(db);
    assert a.registrations == b.registrations;
    assert a.events == b.events;
    assert a.outbox == b.outbox;
    assert forall i :: i in db.registrations ==> a.registrations[i].nonce == db.registrations[i].nonce;
    assert (set i | i in a.registrations && a.registrations[i].nonce != "" :: (i, a.registrations[i].nonce))
        == (set i | i in db.registrations && db.registrations[i].nonce != "" :: (i, db.registrations[i].nonce));
  }
}
