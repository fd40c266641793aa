/** What holds over whole histories of the ledger: reloads are always accepted, a client's turn is executed
    once, nothing a client has read is ever contradicted, and when a turn that is over stays over. */
module LedgerHistory {
  import opened LedgerModel
  import opened LedgerRuns

  /** A new ledger of a server with this profile. */
  function New(profile: string): Ledger {
    Started(profile, EmptyDurable())
  }

  lemma HistoryKeeps(profile: string, steps: seq<Step>)
    requires Run(steps)
    ensures LedgerOk(After(New(profile), steps)) && After(New(profile), steps).profile == profile
  {
    EmptyIsSound(profile);
    StartedIsOk(profile, EmptyDurable());
    RunKeeps(New(profile), steps);
  }

  /** Wherever a crash strikes, what is on disk passes the validator that the next process runs. */
  lemma {:induction false} ReloadsAreAccepted(profile: string, steps: seq<Step>)
    requires Run(steps)
    ensures Acceptable(profile, After(New(profile), steps).durable)
  {
    HistoryKeeps(profile, steps);
    SoundIsAcceptable(After(New(profile), steps));
  }

  lemma SoundIsAcceptable(l: Ledger)
    requires LedgerOk(l)
    ensures Acceptable(l.profile, l.durable)
  {
  }

  // ---- The validator asks for less than the handlers keep ----

  /** One step further, exactly: a ledger the validator accepts stays acceptable when a turn is created if
      and only if the next turn name is unused, although nothing it checks says so. */
  lemma CreatingNeedsAnUnusedName(l: Ledger, p: Prompt)
    requires Acceptable(l.profile, l.durable) && RuntimesOk(l) && Submittable(l, p) && IsDigest(p.digest) && IsDigest(p.manifest)
    requires PromptKey(l, p) !in l.durable.byClient
    ensures Acceptable(l.profile, Create(l, p).durable) <==> TurnName(l.durable.turnCounter + 1) !in l.durable.turns
  {
    hide TurnShape, StoredOnce, IsStored, BindingOk, ClientKey, IndexOk, TurnName, PromptKey, NewTurn, Submittable, IsDigest;
    NewTurnShape(l, p);
    if NewTurn(l, p).turnId in l.durable.turns {
      OverwritingMiscounts(l.durable.turns, NewTurn(l, p));
    } else {
      IndexAdds(l.durable.turns, l.durable.byClient, NewTurn(l, p));
    }
  }

  lemma OverwritingMiscounts(turns: map<string, Turn>, t: Turn)
    requires t.turnId in turns
    ensures |turns[t.turnId := t]| == |turns|
  {
    assert turns[t.turnId := t].Keys == turns.Keys;
  }

  /** Such ledgers exist: one whose only turn bears a number its counter has not reached. */
  lemma AcceptableButDoomed(profile: string, mobile: string, client: string, digest: string) returns (d: Durable)
    requires Canonical(mobile) && Canonical(client) && IsDigest(digest)
    ensures Acceptable(profile, d) && TurnName(d.turnCounter + 1) in d.turns
  {
    var t := Turn(TurnName(2), StoredName(1), profile, client, digest, digest, Accepted, 0, 1, [], MessageName(2), "", 2, 1);
    var b := Binding(profile, mobile, StoredName(1), 1);
    d := Durable(1, 1, 1, 1, 1, map[Key(profile, mobile) := b], map[TurnName(2) := t], map[ClientKey(t) := TurnName(2)]);
    assert Key(profile, mobile) in d.bindings && d.bindings[Key(profile, mobile)].stored == t.stored;
    hide TurnName, Key, Canonical, IsDigest, Decimal;
  }

  /** Appending to a turn keeps it acceptable exactly when the turn has events or has none to retain. */
  lemma AppendingNeedsTidiness(profile: string, t: Turn, payload: Payload)
    requires TurnShape(profile, t.turnId, t)
    ensures TurnShape(profile, t.turnId, Append(t, payload)) <==> t.events != [] || t.firstRetained == t.lastSeq + 1
  {
    if t.events == [] {
      assert Append(t, payload).events[0].seqNo == t.lastSeq + 1;
    }
  }

  /** A turn that the validator accepts and whose replay never gets anywhere: the client is told there is
      more after the position it already asked for. */
  lemma AcceptableReplayCanStall(profile: string, t: Turn, after: nat)
    requires TurnShape(profile, t.turnId, t)
    ensures (Reconcile(t, after).Page? && Reconcile(t, after).hasMore && Reconcile(t, after).nextAfter == after)
            <==> t.events == [] && t.firstRetained - 1 <= after < t.lastSeq
  {
    if Reconcile(t, after).Page? && t.events != [] {
      EventsAfterIs(t.events, t.firstRetained, after);
    }
  }

  /** Such a ledger exists: its only turn says that it logged one event and retains from there, but has none. */
  lemma {:induction false} AcceptableButStalled(profile: string, mobile: string, client: string, digest: string) returns (d: Durable, t: Turn)
    requires Canonical(mobile) && Canonical(client) && IsDigest(digest)
    ensures Acceptable(profile, d) && TurnName(1) in d.turns && d.turns[TurnName(1)] == t
    ensures Reconcile(t, 0) == Page([], true, 0)
  {
    t := Turn(TurnName(1), StoredName(1), profile, client, digest, digest, Accepted, 1, 1, [], MessageName(1), "", 1, 1);
    var b := Binding(profile, mobile, StoredName(1), 1);
    d := Durable(1, 1, 1, 1, 1, map[Key(profile, mobile) := b], map[TurnName(1) := t], map[ClientKey(t) := TurnName(1)]);
    assert Key(profile, mobile) in d.bindings && d.bindings[Key(profile, mobile)].stored == t.stored;
    hide TurnName, Key, Canonical, IsDigest, Decimal;
  }

  /** In a gap-free list that starts at `first`, the events after a position are a suffix. */
  lemma {:induction false} EventsAfterIs(events: seq<Event>, first: int, after: int)
    requires forall k :: 0 <= k < |events| ==> events[k].seqNo == first + k
    requires first <= after + 1
    ensures EventsAfter(events, after) == if after + 1 - first <= |events| then events[after + 1 - first..] else []
  {
    if events != [] {
      var front := events[..|events| - 1];
      EventsAfterIs(front, first, after);
      var last := events[|events| - 1];
      if last.seqNo > after {
        assert events[after + 1 - first..] == front[after + 1 - first..] + [last];
      }
    }
  }

  // ---- Exactly-once intent ----

  /** Bindings keep their session, turns their identity and intent, and positions only grow. */
  ghost predicate DurableLater(d: Durable, e: Durable) {
    && (forall k :: k in d.bindings ==> k in e.bindings && e.bindings[k].stored == d.bindings[k].stored)
    && (forall id :: id in d.turns ==> id in e.turns && TurnLater(d.turns[id], e.turns[id]))
    && (forall k :: k in d.byClient ==> k in e.byClient && e.byClient[k] == d.byClient[k])
  }

  ghost predicate TurnLater(t: Turn, u: Turn) {
    u.digest == t.digest && u.stored == t.stored && u.client == t.client && u.turnId == t.turnId && t.lastSeq <= u.lastSeq
  }

  lemma LaterTransitive(d: Durable, e: Durable, f: Durable)
    requires DurableLater(d, e) && DurableLater(e, f)
    ensures DurableLater(d, f)
  {
  }

  lemma {:induction false} EmitAllLater(t: Turn, payloads: seq<Payload>)
    ensures TurnLater(t, EmitAll(t, payloads))
  {
    if payloads != [] {
      EmitAllLater(t, payloads[..|payloads| - 1]);
    }
  }

  lemma UpdateLater(l: Ledger, u: Turn)
    requires u.turnId in l.durable.turns && TurnLater(l.durable.turns[u.turnId], u)
    ensures DurableLater(l.durable, WithTurn(l, u).durable)
  {
  }

  lemma ResumeLater(l: Ledger, k: nat)
    requires LedgerOk(l)
    ensures DurableLater(l.durable, ResumeNext(l, k).durable)
  {
    hide LedgerOk, EmitAll, DurableLater;
    NothingLater(l.durable);
    if k in l.tasks {
      TaskIsOk(l, k);
      var id := l.tasks[k].turnId;
      TurnIsTidy(l, id);
      EmitAllLater(l.durable.turns[id], SCRIPT);
      if l.tasks[k].AtOnce? {
        UpdateLater(l.(tasks := l.tasks - {k}), EmitAll(l.durable.turns[id], SCRIPT));
      } else {
        UpdateLater(l, Emit(l.durable.turns[id], SCRIPT[l.tasks[k].next]));
      }
    }
  }

  lemma NothingLater(d: Durable)
    ensures DurableLater(d, d)
  {
  }

  lemma FoundLater(l: Ledger, step: Step)
    requires LedgerOk(l) && (step.Interrupt? || step.Prune?)
    ensures DurableLater(l.durable, Next(l, step).durable)
  {
    hide LedgerOk, DurableLater, Find;
    NothingLater(l.durable);
    var found := Find(l, step.connection, step.runtime, step.target);
    if found.Some? {
      FoundTurn(l, step.connection, step.runtime, step.target);
      if step.Interrupt? {
        UpdateLater(l, Append(found.value.(status := Interrupted), StatusIs(Interrupted)));
      } else {
        UpdateLater(l, found.value.(firstRetained := found.value.lastSeq + 1, events := []));
      }
    }
  }

  lemma SubmitLater(l: Ledger, p: Prompt)
    requires LedgerOk(l)
    ensures DurableLater(l.durable, SubmitNext(l, p).durable)
  {
    hide Sound, CountsFit, RuntimesOk, TasksOk, PromptKey, Submittable, NewTurn;
    if Submittable(l, p) {
      if PromptKey(l, p) in l.durable.byClient {
        IndexedTurn(l, PromptKey(l, p));
      } else {
        NewTurnIsNew(l, p);
      }
    }
  }

  lemma NewTurnIsNew(l: Ledger, p: Prompt)
    requires LedgerOk(l) && Submittable(l, p)
    ensures NewTurn(l, p).turnId !in l.durable.turns
  {
    CountersAreOk(l);
    NamesAreFit(l);
    hide LedgerOk, NamesFit, CountersOk;
  }

  lemma NamesAreFit(l: Ledger)
    requires LedgerOk(l)
    ensures forall n: nat {:trigger TurnName(n)} :: n > l.durable.turnCounter ==> TurnName(n) !in l.durable.turns
  {
  }

  lemma NextLater(l: Ledger, step: Step)
    requires LedgerOk(l) && Possible(step)
    ensures DurableLater(l.durable, Next(l, step).durable)
  {
    hide LedgerOk, SubmitNext, ResumeNext, InterruptNext, PruneNext, Canonical, Key;
    match step
    case Submit(prompt) => SubmitLater(l, prompt);
    case Resume(k) => ResumeLater(l, k);
    case Interrupt(_, _, _) => FoundLater(l, step);
    case Prune(_, _, _) => FoundLater(l, step);
    case _ =>
  }

  lemma {:induction false} RunLater(start: Ledger, steps: seq<Step>)
    requires LedgerOk(start) && Run(steps)
    ensures DurableLater(start.durable, After(start, steps).durable)
  {
    if steps != [] {
      hide LedgerOk, Next, DurableLater;
      NothingLater(start.durable);
      RunLater(start, steps[..|steps| - 1]);
      RunKeeps(start, steps[..|steps| - 1]);
      NextLater(After(start, steps[..|steps| - 1]), steps[|steps| - 1]);
      LaterTransitive(start.durable, After(start, steps[..|steps| - 1]).durable, After(start, steps).durable);
    } else {
      NothingLater(start.durable);
    }
  }

  function MobileOf(l: Ledger, p: Prompt): string
    requires Submittable(l, p)
  {
    Scoped(l, p.connection, p.runtime).value.mobile
  }

  /** Once a submission has been acknowledged with a turn, every later submission of the same client turn
      from the same mobile session, over any reconnects, crashes and reloads, is answered with that same
      turn if the intent is the same and refused if it is not, and changes nothing but the attempt counter. */
  lemma IntentIsExecutedOnce(start: Ledger, p: Prompt, steps: seq<Step>, again: Prompt)
    requires LedgerOk(start) && IsDigest(p.digest) && IsDigest(p.manifest) && Run(steps)
    requires SubmitAck(start, p).Ack? && again.client == p.client
    requires var l := After(SubmitNext(start, p), steps); Submittable(l, again) && MobileOf(l, again) == MobileOf(start, p)
    ensures var l := After(SubmitNext(start, p), steps);
            && SubmitAck(l, again) == (if again.digest == p.digest then Ack(SubmitAck(start, p).turnId, false) else Conflict)
            && SubmitNext(l, again) == l.(durable := l.durable.(attempts := l.durable.attempts + 1))
  {
    hide LedgerOk, After, SubmitNext, SubmitAck, DurableLater, Submittable, PromptKey, MobileOf, IsDigest, Run, Key;
    var first := SubmitNext(start, p);
    var l := After(first, steps);
    SubmitKeeps(start, p);
    SubmitIndexes(start, p);
    RunKeeps(first, steps);
    RunLater(first, steps);
    RuntimeOfMobile(start, p);
    RuntimeOfMobile(l, again);
    StepKeepsProfile(start, Submit(p));
    SameKey(start, first, l, p, again);
    IndexStays(first.durable, l.durable, PromptKey(start, p));
    AckOfIndexed(l, again);
  }

  lemma IndexStays(d: Durable, e: Durable, key: string)
    requires DurableLater(d, e) && key in d.byClient && d.byClient[key] in d.turns
    ensures key in e.byClient && e.byClient[key] == d.byClient[key] && e.byClient[key] in e.turns
    ensures e.turns[e.byClient[key]].digest == d.turns[d.byClient[key]].digest
  {
  }

  lemma SubmitIndexes(l: Ledger, p: Prompt)
    requires LedgerOk(l) && SubmitAck(l, p).Ack?
    ensures var m := SubmitNext(l, p);
            var id := SubmitAck(l, p).turnId;
            && Submittable(l, p) && PromptKey(l, p) in m.durable.byClient && m.durable.byClient[PromptKey(l, p)] == id
            && id in m.durable.turns && m.durable.turns[id].digest == p.digest && m.durable.bindings == l.durable.bindings
  {
    hide LedgerOk, PromptKey, CountersOk, TurnName, MessageName, Submittable, Scoped;
    CountersAreOk(l);
  }

  lemma RuntimeOfMobile(l: Ledger, p: Prompt)
    requires LedgerOk(l) && Submittable(l, p)
    ensures Key(l.profile, MobileOf(l, p)) in l.durable.bindings
    ensures PromptKey(l, p) == Key(l.durable.bindings[Key(l.profile, MobileOf(l, p))].stored, p.client)
  {
    hide Sound, CountsFit, TasksOk, Key;
  }

  lemma SameKey(start: Ledger, first: Ledger, l: Ledger, p: Prompt, again: Prompt)
    requires Submittable(start, p) && Submittable(l, again) && MobileOf(l, again) == MobileOf(start, p) && again.client == p.client
    requires l.profile == start.profile && first.durable.bindings == start.durable.bindings && DurableLater(first.durable, l.durable)
    requires Key(start.profile, MobileOf(start, p)) in start.durable.bindings && Key(l.profile, MobileOf(l, again)) in l.durable.bindings
    requires PromptKey(start, p) == Key(start.durable.bindings[Key(start.profile, MobileOf(start, p))].stored, p.client)
    requires PromptKey(l, again) == Key(l.durable.bindings[Key(l.profile, MobileOf(l, again))].stored, again.client)
    ensures PromptKey(l, again) == PromptKey(start, p)
  {
    hide Submittable, Key, PromptKey, MobileOf;
  }

  lemma AckOfIndexed(l: Ledger, p: Prompt)
    requires LedgerOk(l) && Submittable(l, p) && PromptKey(l, p) in l.durable.byClient
    ensures var id := l.durable.byClient[PromptKey(l, p)];
            && id in l.durable.turns
            && SubmitAck(l, p) == (if l.durable.turns[id].digest == p.digest then Ack(id, false) else Conflict)
            && SubmitNext(l, p) == l.(durable := l.durable.(attempts := l.durable.attempts + 1))
  {
    hide LedgerOk, PromptKey, Submittable, TurnName, ClientKey;
    IndexedTurn(l, PromptKey(l, p));
  }

  ghost predicate OnePerClient(turns: map<string, Turn>) {
    forall i, j :: i in turns && j in turns && turns[i].stored == turns[j].stored && turns[i].client == turns[j].client ==> i == j
  }

  /** As many executions as turns, at most as many turns as submissions, and one turn per session and client. */
  lemma {:induction false} ExecutionsAreTurns(profile: string, steps: seq<Step>)
    requires Run(steps)
    ensures var d := After(New(profile), steps).durable;
            && d.executions == |d.turns| <= d.attempts
            && OnePerClient(d.turns)
  {
    HistoryKeeps(profile, steps);
    OneTurnPerClient(After(New(profile), steps));
    hide After;
  }

  lemma OneTurnPerClient(l: Ledger)
    requires LedgerOk(l)
    ensures OnePerClient(l.durable.turns)
  {
    hide CountsFit, RuntimesOk, TasksOk, NamesFit, Tidy, TurnShape, BindingOk, StoredOnce, IsStored;
    forall i, j | i in l.durable.turns && j in l.durable.turns && l.durable.turns[i].stored == l.durable.turns[j].stored
                  && l.durable.turns[i].client == l.durable.turns[j].client
      ensures i == j
    {
      assert ClientKey(l.durable.turns[i]) == ClientKey(l.durable.turns[j]);
    }
  }
}
