/** Replay without loss: a turn's log is everything that was ever appended to it, and whatever a client
    pages through is a contiguous piece of that log. */
module LedgerReplay {
  import opened LedgerModel
  import opened LedgerRuns
  import opened LedgerHistory

  function LastSeq(d: Durable, id: string): int {
    if id in d.turns then d.turns[id].lastSeq else 0
  }

  /** What a step appended to a turn. */
  function Appended(d: Durable, e: Durable, id: string): seq<Event> {
    if id !in e.turns then []
    else
      var events := e.turns[id].events;
      var count := LastSeq(e, id) - LastSeq(d, id);
      if 0 <= count <= |events| then events[|events| - count..] else []
  }

  /** Everything ever appended to a turn, in order. */
  function Log(start: Ledger, steps: seq<Step>, id: string): seq<Event> {
    if steps == [] then []
    else
      var front := steps[..|steps| - 1];
      Log(start, front, id) + Appended(After(start, front).durable, After(start, steps).durable, id)
  }

  /** The log is numbered from one without gaps and the turn retains a suffix of it. */
  ghost predicate LogOk(log: seq<Event>, t: Turn) {
    && |log| == t.lastSeq
    && (forall k :: 0 <= k < |log| ==> log[k].seqNo == k + 1)
    && 0 < t.firstRetained <= t.lastSeq + 1
    && t.events == log[t.firstRetained - 1..]
  }

  ghost predicate LogsOk(l: Ledger, log: seq<Event>, id: string) {
    if id in l.durable.turns then LogOk(log, l.durable.turns[id]) else log == []
  }

  // ---- Steps ----

  /** The turn gained some events at its end, or gave up all that it retained. */
  ghost predicate Extends(t: Turn, u: Turn) {
    || (u.firstRetained == t.firstRetained && t.lastSeq <= u.lastSeq && |u.events| == |t.events| + (u.lastSeq - t.lastSeq)
        && u.events[..|t.events|] == t.events
        && forall k :: |t.events| <= k < |u.events| ==> u.events[k].seqNo == t.lastSeq + 1 + k - |t.events|)
    || (u.lastSeq == t.lastSeq && u.firstRetained == t.lastSeq + 1 && u.events == [])
  }

  lemma {:induction false} EmitAllExtends(t: Turn, payloads: seq<Payload>)
    ensures Extends(t, EmitAll(t, payloads)) && EmitAll(t, payloads).firstRetained == t.firstRetained
    ensures |EmitAll(t, payloads).events| == |t.events| + |payloads|
    ensures EmitAll(t, payloads).events[..|t.events|] == t.events
    ensures EmitAll(t, payloads).lastSeq == t.lastSeq + |payloads|
  {
    if payloads != [] {
      EmitAllExtends(t, payloads[..|payloads| - 1]);
    }
  }

  lemma ExtendedLog(log: seq<Event>, t: Turn, u: Turn)
    requires LogOk(log, t) && Extends(t, u)
    ensures var count := u.lastSeq - t.lastSeq;
            0 <= count <= |u.events| && LogOk(log + u.events[|u.events| - count..], u)
  {
    var count := u.lastSeq - t.lastSeq;
    var more := log + u.events[|u.events| - count..];
    if u.events == [] && u.firstRetained == t.lastSeq + 1 && count == 0 {
      assert more == log;
    } else {
      assert u.events == t.events + u.events[|u.events| - count..];
      assert more[t.firstRetained - 1..] == log[t.firstRetained - 1..] + u.events[|u.events| - count..];
    }
  }

  /** Every step extends the turns it finds and starts new ones with one event. */
  ghost predicate TurnsExtend(d: Durable, e: Durable) {
    && (forall id :: id in d.turns ==> id in e.turns && Extends(d.turns[id], e.turns[id]))
    && (forall id :: id in e.turns && id !in d.turns ==>
          var u := e.turns[id];
          u.firstRetained == 1 && u.lastSeq == 1 && |u.events| == 1 && u.events[0].seqNo == 1)
  }

  lemma SameExtends(d: Durable, e: Durable)
    requires e.turns == d.turns
    ensures TurnsExtend(d, e)
  {
  }

  lemma UpdateExtends(l: Ledger, u: Turn)
    requires u.turnId in l.durable.turns && Extends(l.durable.turns[u.turnId], u)
    ensures TurnsExtend(l.durable, WithTurn(l, u).durable)
  {
  }

  lemma ResumeExtends(l: Ledger, k: nat)
    requires LedgerOk(l)
    ensures TurnsExtend(l.durable, ResumeNext(l, k).durable)
  {
    hide LedgerOk, EmitAll, TurnsExtend, TurnShape;
    SameExtends(l.durable, l.durable);
    if k in l.tasks {
      TaskIsOk(l, k);
      var id := l.tasks[k].turnId;
      TurnIsTidy(l, id);
      var t := l.durable.turns[id];
      if l.tasks[k].AtOnce? {
        EmitAllExtends(t, SCRIPT);
        EmitAllKeepsId(t, SCRIPT);
        UpdateExtends(l.(tasks := l.tasks - {k}), EmitAll(t, SCRIPT));
        SameExtends(l.durable, l.(tasks := l.tasks - {k}).durable);
      } else {
        EmitExtends(t, SCRIPT[l.tasks[k].next]);
        UpdateExtends(l, Emit(t, SCRIPT[l.tasks[k].next]));
        SameExtends(l.durable, l.(tasks := l.tasks - {k}).durable);
      }
    }
  }

  lemma EmitExtends(t: Turn, payload: Payload)
    ensures Extends(t, Emit(t, payload)) && Emit(t, payload).turnId == t.turnId
  {
  }

  lemma FoundExtends(l: Ledger, step: Step)
    requires LedgerOk(l) && (step.Interrupt? || step.Prune?)
    ensures TurnsExtend(l.durable, Next(l, step).durable)
  {
    hide LedgerOk, TurnsExtend, Find, TurnShape;
    SameExtends(l.durable, l.durable);
    var found := Find(l, step.connection, step.runtime, step.target);
    if found.Some? {
      FoundTurn(l, step.connection, step.runtime, step.target);
      if step.Interrupt? {
        UpdateExtends(l, Append(found.value.(status := Interrupted), StatusIs(Interrupted)));
      } else {
        UpdateExtends(l, found.value.(firstRetained := found.value.lastSeq + 1, events := []));
      }
    }
  }

  lemma CreateExtends(l: Ledger, p: Prompt)
    requires LedgerOk(l) && Submittable(l, p)
    ensures TurnsExtend(l.durable, Create(l, p).durable)
  {
    hide LedgerOk, Submittable, PromptKey, TurnName, MessageName;
    NewTurnIsNew(l, p);
  }

  lemma NextExtends(l: Ledger, step: Step)
    requires LedgerOk(l) && Possible(step)
    ensures TurnsExtend(l.durable, Next(l, step).durable)
  {
    hide LedgerOk, Create, ResumeNext, InterruptNext, PruneNext, Canonical, Key, TurnsExtend, Submittable;
    match step
    case Submit(p) =>
      if Submittable(l, p) { CreateExtends(l, p); }
      SameExtends(l.durable, l.(durable := l.durable.(attempts := l.durable.attempts + 1)).durable);
      SameExtends(l.durable, l.durable);
    case Resume(k) => ResumeExtends(l, k);
    case Interrupt(_, _, _) => FoundExtends(l, step);
    case Prune(_, _, _) => FoundExtends(l, step);
    case _ => SameExtends(l.durable, Next(l, step).durable);
  }

  lemma StepLogs(d: Durable, e: Durable, log: seq<Event>, id: string)
    requires TurnsExtend(d, e) && if id in d.turns then LogOk(log, d.turns[id]) else log == []
    ensures if id in e.turns then LogOk(log + Appended(d, e, id), e.turns[id]) else log + Appended(d, e, id) == []
  {
    if id in d.turns {
      ExtendedLog(log, d.turns[id], e.turns[id]);
    } else if id in e.turns {
      assert e.turns[id].events[0..] == e.turns[id].events;
    }
  }

  lemma {:induction false} LogIsKept(profile: string, steps: seq<Step>, id: string)
    requires Run(steps)
    ensures LogsOk(After(New(profile), steps), Log(New(profile), steps, id), id)
  {
    if steps != [] {
      hide LedgerOk, Next, LogOk, TurnsExtend, Appended;
      var front := steps[..|steps| - 1];
      LogIsKept(profile, front, id);
      HistoryKeeps(profile, front);
      NextExtends(After(New(profile), front), steps[|steps| - 1]);
      StepLogs(After(New(profile), front).durable, After(New(profile), steps).durable, Log(New(profile), front, id), id);
    }
  }

  /** What was logged stays logged. */
  lemma {:induction false} LogOnlyGrows(start: Ledger, steps: seq<Step>, cut: nat, id: string)
    requires cut <= |steps|
    ensures Log(start, steps[..cut], id) <= Log(start, steps, id)
  {
    if cut == |steps| {
      assert steps[..cut] == steps;
    } else {
      var front := steps[..|steps| - 1];
      assert front[..cut] == steps[..cut];
      LogOnlyGrows(start, front, cut, id);
    }
  }

  // ---- Pages ----

  lemma NewerIsRestOfLog(log: seq<Event>, t: Turn, after: nat)
    requires LogOk(log, t) && t.firstRetained - 1 <= after <= t.lastSeq
    ensures EventsAfter(t.events, after) == log[after..]
  {
    EventsAfterIs(t.events, t.firstRetained, after);
    hide EventsAfter;
    assert t.events[after + 1 - t.firstRetained..] == log[after..];
  }

  lemma PageOfRest(log: seq<Event>, t: Turn, after: nat)
    requires |log| == t.lastSeq && t.firstRetained - 1 <= after <= t.lastSeq && EventsAfter(t.events, after) == log[after..]
    requires forall k :: 0 <= k < |log| ==> log[k].seqNo == k + 1
    ensures var r := Reconcile(t, after);
            && r.Page? && after <= r.nextAfter <= t.lastSeq && r.events == log[after..r.nextAfter]
            && (r.hasMore <==> r.nextAfter < t.lastSeq)
            && (after < t.lastSeq ==> after < r.nextAfter)
  {
    hide EventsAfter;
    var count := if t.lastSeq - after < PAGE then t.lastSeq - after else PAGE;
    assert log[after..][..count] == log[after..after + count];
  }

  /** A page is the piece of the log after the position, up to its own next position, and a position before
      what is retained never gets a page. */
  lemma PageIsPieceOfLog(log: seq<Event>, t: Turn, after: nat)
    requires LogOk(log, t) && after <= t.lastSeq
    ensures Reconcile(t, after).Page? <==> after + 1 >= t.firstRetained
    ensures Reconcile(t, after).Page? ==>
              var r := Reconcile(t, after);
              && after <= r.nextAfter <= t.lastSeq && r.events == log[after..r.nextAfter]
              && (r.hasMore <==> r.nextAfter < t.lastSeq)
              && (after < t.lastSeq ==> after < r.nextAfter)
    ensures Reconcile(t, after).Snapshot? ==> Reconcile(t, after) == Snapshot(t.status, t.text, t.lastSeq) && Terminal(t.status) && t.text != ""
  {
    if after + 1 >= t.firstRetained {
      NewerIsRestOfLog(log, t, after);
      PageOfRest(log, t, after);
    }
  }

  /** Paging through a turn that stands still. */
  function Follow(t: Turn, after: nat, fuel: nat): seq<Event>
    decreases fuel
  {
    var r := Reconcile(t, after);
    if !r.Page? then []
    else if !r.hasMore || fuel == 0 || r.nextAfter < 0 then r.events
    else r.events + Follow(t, r.nextAfter, fuel - 1)
  }

  /** It ends within as many pages as there are events left, and yields exactly the rest of the log. */
  lemma {:induction false} FollowYieldsTheRest(log: seq<Event>, t: Turn, after: nat, fuel: nat)
    requires LogOk(log, t) && t.firstRetained - 1 <= after <= t.lastSeq && t.lastSeq - after <= fuel
    ensures Follow(t, after, fuel) == log[after..]
    decreases fuel
  {
    PageIsPieceOfLog(log, t, after);
    hide LogOk, Reconcile;
    var r := Reconcile(t, after);
    if r.hasMore {
      FollowYieldsTheRest(log, t, r.nextAfter, fuel - 1);
      assert log[after..] == log[after..r.nextAfter] + log[r.nextAfter..];
    } else {
      assert log[after..r.nextAfter] == log[after..];
    }
  }

  lemma LengthOfLog(log: seq<Event>, t: Turn)
    requires LogOk(log, t)
    ensures |log| == t.lastSeq
  {
  }

  lemma ReplayIsComplete(profile: string, steps: seq<Step>, id: string, after: nat)
    requires Run(steps) && id in After(New(profile), steps).durable.turns
    ensures var t := After(New(profile), steps).durable.turns[id];
            var log := Log(New(profile), steps, id);
            && |log| == t.lastSeq
            && (t.firstRetained - 1 <= after <= t.lastSeq ==> Follow(t, after, t.lastSeq - after) == log[after..])
            && (after < t.firstRetained - 1 ==>
                  Reconcile(t, after) == if Terminal(t.status) && t.text != "" then Snapshot(t.status, t.text, t.lastSeq) else Pruned)
  {
    hide After, Log, Follow, LogOk, EventsAfter;
    LogIsKept(profile, steps, id);
    LengthOfLog(Log(New(profile), steps, id), After(New(profile), steps).durable.turns[id]);
    var t := After(New(profile), steps).durable.turns[id];
    if t.firstRetained - 1 <= after <= t.lastSeq {
      FollowYieldsTheRest(Log(New(profile), steps, id), t, after, t.lastSeq - after);
    }
  }

  // ---- Reading while things happen ----

  /** A client asks again and again, each time from where the last page ended; the k-th request finds the
      ledger after the first `cuts[k]` steps. A snapshot or an error ends the reading. */
  function Read(start: Ledger, steps: seq<Step>, cuts: seq<nat>, id: string, after: nat): (seq<Event>, int) {
    if cuts == [] then ([], after)
    else
      var (seen, at) := Read(start, steps, cuts[..|cuts| - 1], id, after);
      var cut := cuts[|cuts| - 1];
      if cut > |steps| || at < 0 || id !in After(start, steps[..cut]).durable.turns then (seen, at)
      else
        var r := Reconcile(After(start, steps[..cut]).durable.turns[id], at);
        if r.Page? then (seen + r.events, r.nextAfter) else (seen, at)
  }

  ghost predicate InOrder(steps: seq<Step>, cuts: seq<nat>) {
    && (forall k :: 0 <= k < |cuts| ==> cuts[k] <= |steps|)
    && forall j, k :: 0 <= j < k < |cuts| ==> cuts[j] <= cuts[k]
  }

  lemma Slices(log: seq<Event>, more: seq<Event>, a: int, b: int, c: int)
    requires log <= more && 0 <= a <= b <= c <= |log|
    ensures more[a..b] + log[b..c] == more[a..c]
  {
    assert more[..|log|] == log;
    assert log[b..c] == more[b..c];
  }

  lemma LogAtCut(profile: string, steps: seq<Step>, cut: nat, id: string)
    requires Run(steps) && cut <= |steps|
    ensures var l := After(New(profile), steps[..cut]);
            var log := Log(New(profile), steps[..cut], id);
            && LogsOk(l, log, id) && |log| == LastSeq(l.durable, id)
            && log <= Log(New(profile), steps, id)
  {
    hide After, Log;
    assert forall k :: 0 <= k < cut ==> steps[..cut][k] == steps[k];
    LogIsKept(profile, steps[..cut], id);
    LogOnlyGrows(New(profile), steps, cut, id);
  }

  lemma LaterCut(profile: string, steps: seq<Step>, cut: nat, later: nat, id: string)
    requires Run(steps) && cut <= later <= |steps|
    ensures LastSeq(After(New(profile), steps[..cut]).durable, id) <= LastSeq(After(New(profile), steps[..later]).durable, id)
  {
    hide After, Log, LastSeq;
    assert forall k :: 0 <= k < later ==> steps[..later][k] == steps[k];
    assert steps[..later][..cut] == steps[..cut];
    LogAtCut(profile, steps[..later], cut, id);
    LogAtCut(profile, steps, later, id);
  }

  /** What was read from `after` to `at`: that piece of the log, or nothing while `at` lies beyond its end. */
  ghost predicate Piece(log: seq<Event>, seen: seq<Event>, after: nat, at: int) {
    after <= at && if at <= |log| then seen == log[after..at] else at == after && seen == []
  }

  /** A position beyond the end gets an empty page that ends where it starts. */
  lemma BeyondTheEnd(log: seq<Event>, t: Turn, after: nat)
    requires LogOk(log, t) && after > t.lastSeq
    ensures Reconcile(t, after) == Page([], false, after)
  {
    NoneAfter(t.events, after);
  }

  lemma {:induction false} NoneAfter(events: seq<Event>, after: int)
    requires forall k :: 0 <= k < |events| ==> events[k].seqNo <= after
    ensures EventsAfter(events, after) == []
  {
    if events != [] {
      NoneAfter(events[..|events| - 1], after);
    }
  }

  lemma {:induction false} ReadingSoFar(profile: string, steps: seq<Step>, cuts: seq<nat>, id: string, after: nat)
    requires Run(steps) && InOrder(steps, cuts)
    ensures var log := Log(New(profile), steps, id);
            var (seen, at) := Read(New(profile), steps, cuts, id, after);
            && Piece(log, seen, after, at)
            && (at > after ==> cuts != [] && at <= LastSeq(After(New(profile), steps[..cuts[|cuts| - 1]]).durable, id))
  {
    hide New, After, Log, LogOk, Reconcile, Run, LastSeq;
    if cuts != [] {
      var start := New(profile);
      var earlier, cut := cuts[..|cuts| - 1], cuts[|cuts| - 1];
      ReadingSoFar(profile, steps, earlier, id, after);
      if earlier != [] {
        LaterCut(profile, steps, earlier[|earlier| - 1], cut, id);
      }
      LogAtCut(profile, steps, cut, id);
      OneMoreRead(start, steps, cuts, id, after);
    }
  }

  lemma OneMoreRead(start: Ledger, steps: seq<Step>, cuts: seq<nat>, id: string, after: nat)
    requires cuts != [] && InOrder(steps, cuts)
    requires var l := After(start, steps[..cuts[|cuts| - 1]]);
             var log := Log(start, steps[..cuts[|cuts| - 1]], id);
             var (seen, at) := Read(start, steps, cuts[..|cuts| - 1], id, after);
             && LogsOk(l, log, id) && log <= Log(start, steps, id) && |log| == LastSeq(l.durable, id)
             && Piece(Log(start, steps, id), seen, after, at) && (at > after ==> at <= |log|)
    ensures var (seen, at) := Read(start, steps, cuts, id, after);
            && Piece(Log(start, steps, id), seen, after, at)
            && (at > after ==> at <= LastSeq(After(start, steps[..cuts[|cuts| - 1]]).durable, id))
  {
    hide After, Log, LogOk, Reconcile;
    var d := After(start, steps[..cuts[|cuts| - 1]]).durable;
    var log := Log(start, steps[..cuts[|cuts| - 1]], id);
    var (seen, at) := Read(start, steps, cuts[..|cuts| - 1], id, after);
    if id in d.turns {
      if at > |log| {
        BeyondTheEnd(log, d.turns[id], at);
      } else {
        PageIsPieceOfLog(log, d.turns[id], at);
        var r := Reconcile(d.turns[id], at);
        if r.Page? {
          Slices(log, Log(start, steps, id), after, at, r.nextAfter);
        }
      }
    }
  }

  /** Whatever is appended, pruned, crashed or reloaded between the requests: what a client has read is one
      contiguous piece of the log, from where it started to where it is, in order and once each. A start beyond
      the end reads nothing until the log has grown past it, and then goes on from there. */
  lemma {:induction false} ReadingIsContiguous(profile: string, steps: seq<Step>, cuts: seq<nat>, id: string, after: nat)
    requires Run(steps) && InOrder(steps, cuts)
    ensures var log := Log(New(profile), steps, id);
            var (seen, at) := Read(New(profile), steps, cuts, id, after);
            && after <= at
            && (at <= |log| ==> seen == log[after..at])
            && (at > |log| ==> at == after && seen == [])
  {
    ReadingSoFar(profile, steps, cuts, id, after);
    hide Log, Read, After;
  }
}
