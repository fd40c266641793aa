/** The ledger as the object it is: handlers change the durable part in memory and save it before they wait;
    a new process validates what it finds on disk. */
module LedgerStore {
  import opened Basics
  import opened LedgerModel
  import opened LedgerRuns

  // ---- The validator ----

  lemma IndexIsUnique(turns: map<string, Turn>, a: map<string, string>, b: map<string, string>)
    requires IndexOk(turns, a) && IndexOk(turns, b)
    ensures a == b
  {
    hide ClientKey;
    assert forall k :: k in a ==> k in b && b[k] == a[k];
    assert forall k :: k in b ==> k in a && a[k] == b[k];
  }

  /** The events of a turn, checked one after the other. */
  method ValidateEvents(t: Turn) returns (ok: bool)
    ensures ok <==> EventsOk(t)
  {
    var previous := t.firstRetained - 1;
    var k := 0;
    while k < |t.events|
      invariant 0 <= k <= |t.events|
      invariant previous == t.firstRetained - 1 + k
      invariant forall j :: 0 <= j < k ==>
                  t.events[j].turnId == t.turnId && t.events[j].messageId == t.messageId && t.events[j].seqNo == t.firstRetained + j
    {
      var e := t.events[k];
      if e.turnId != t.turnId || e.messageId != t.messageId || e.seqNo != previous + 1 { return false; }
      previous := e.seqNo;
      k := k + 1;
    }
    ok := t.events == [] || previous == t.lastSeq;
  }

  ghost predicate StoredFrom(bindings: map<string, Binding>, done: set<string>, stored: set<string>) {
    && (forall k :: k in done ==> k in bindings && bindings[k].stored in stored)
    && (forall s :: s in stored ==> exists k :: k in done && k in bindings && bindings[k].stored == s)
    && (forall j, k :: j in done && k in done && j in bindings && k in bindings && bindings[j].stored == bindings[k].stored ==> j == k)
  }

  lemma StoredGrows(bindings: map<string, Binding>, done: set<string>, stored: set<string>, k: string)
    requires StoredFrom(bindings, done, stored) && k in bindings && k !in done
    ensures bindings[k].stored in stored ==> !StoredOnce(bindings)
    ensures bindings[k].stored !in stored ==> StoredFrom(bindings, done + {k}, stored + {bindings[k].stored})
  {
  }

  lemma NothingStored(bindings: map<string, Binding>)
    ensures StoredFrom(bindings, {}, {})
  {
  }

  lemma AllStored(bindings: map<string, Binding>, stored: set<string>)
    requires StoredFrom(bindings, bindings.Keys, stored)
    ensures StoredOnce(bindings) && forall s :: s in stored <==> IsStored(bindings, s)
  {
  }

  method ValidateBindings(profile: string, bindings: map<string, Binding>) returns (ok: bool, stored: set<string>)
    ensures ok <==> (forall k :: k in bindings ==> BindingOk(profile, k, bindings[k])) && StoredOnce(bindings)
    ensures ok ==> forall s :: s in stored <==> IsStored(bindings, s)
  {
    hide BindingOk, StoredFrom, StoredOnce, IsStored;
    stored := {};
    NothingStored(bindings);
    var left := bindings.Keys;
    ghost var done: set<string> := {};
    while left != {}
      invariant left <= bindings.Keys && done == bindings.Keys - left
      invariant forall k :: k in done ==> BindingOk(profile, k, bindings[k])
      invariant StoredFrom(bindings, done, stored)
      decreases |left|
    {
      var k :| k in left;
      var b := bindings[k];
      StoredGrows(bindings, done, stored, k);
      if !BindingOk(profile, k, b) || b.stored in stored { return false, stored; }
      left := left - {k};
      done := done + {k};
      stored := stored + {b.stored};
    }
    assert done == bindings.Keys;
    AllStored(bindings, stored);
    ok := true;
  }

  ghost predicate IndexFrom(turns: map<string, Turn>, done: set<string>, expected: map<string, string>) {
    && (forall id :: id in done ==> id in turns && ClientKey(turns[id]) in expected && expected[ClientKey(turns[id])] == id)
    && (forall k :: k in expected ==> expected[k] in done && expected[k] in turns && ClientKey(turns[expected[k]]) == k)
  }

  lemma NoIndexFor(turns: map<string, Turn>, byClient: map<string, string>, done: set<string>, expected: map<string, string>, id: string)
    requires IndexFrom(turns, done, expected) && id in turns && id !in done && ClientKey(turns[id]) in expected
    ensures !IndexOk(turns, byClient)
  {
    hide ClientKey;
  }

  lemma NothingIndexed(turns: map<string, Turn>)
    ensures IndexFrom(turns, {}, map[])
  {
  }

  lemma IndexGrows(turns: map<string, Turn>, done: set<string>, expected: map<string, string>, id: string)
    requires IndexFrom(turns, done, expected) && id in turns && id !in done && ClientKey(turns[id]) !in expected
    ensures IndexFrom(turns, done + {id}, expected[ClientKey(turns[id]) := id])
  {
    hide ClientKey;
  }

  method ValidateTurn(profile: string, id: string, t: Turn) returns (ok: bool)
    ensures ok <==> TurnShape(profile, id, t)
    ensures ok ==> t.executions == 1
  {
    hide Canonical, IsDigest, EventsOk;
    if t.turnId != id || t.profile != profile || !Canonical(t.client) { return false; }
    if t.lastSeq < 0 || t.firstRetained <= 0 || t.firstRetained > t.lastSeq + 1 || t.executions != 1 { return false; }
    if !IsDigest(t.digest) || !IsDigest(t.manifest) { return false; }
    ok := ValidateEvents(t);
  }

  ghost predicate ShapedIn(profile: string, d: Durable, ids: set<string>) {
    forall id :: id in ids ==> id in d.turns && TurnShape(profile, id, d.turns[id]) && IsStored(d.bindings, d.turns[id].stored)
  }

  method ValidateTurns(profile: string, d: Durable, stored: set<string>) returns (ok: bool)
    requires forall s :: s in stored <==> IsStored(d.bindings, s)
    ensures ok <==> ShapedIn(profile, d, d.turns.Keys) && IndexOk(d.turns, d.byClient) && d.executions == |d.turns|
  {
    hide IsStored, ClientKey, IndexOk, TurnShape, IndexFrom;
    NothingIndexed(d.turns);
    var expected: map<string, string> := map[];
    var total := 0;
    var left := d.turns.Keys;
    ghost var done: set<string> := {};
    while left != {}
      invariant left <= d.turns.Keys && done == d.turns.Keys - left
      invariant ShapedIn(profile, d, done) && IndexFrom(d.turns, done, expected) && total == |done|
      decreases |left|
    {
      var id :| id in left;
      var t := d.turns[id];
      if t.stored !in stored { return false; }
      var shapeOk := ValidateTurn(profile, id, t);
      if !shapeOk { return false; }
      if ClientKey(t) in expected {
        NoIndexFor(d.turns, d.byClient, done, expected, id);
        return false;
      }
      IndexGrows(d.turns, done, expected, id);
      expected := expected[ClientKey(t) := id];
      total := total + t.executions;
      left := left - {id};
      done := done + {id};
    }
    assert done == d.turns.Keys;
    AllIndexed(d.turns, expected);
    if IndexOk(d.turns, d.byClient) {
      IndexIsUnique(d.turns, d.byClient, expected);
    }
    ok := d.byClient == expected && d.executions == total;
  }

  lemma AllIndexed(turns: map<string, Turn>, expected: map<string, string>)
    requires IndexFrom(turns, turns.Keys, expected)
    ensures IndexOk(turns, expected)
  {
  }

  /** The checks in the order in which they are made; together they are exactly `Acceptable`. */
  method Validate(profile: string, d: Durable) returns (ok: bool)
    ensures ok <==> Acceptable(profile, d)
  {
    hide BindingOk, StoredOnce, TurnShape, IsStored, IndexOk;
    if d.bindingCounter < 0 || d.turnCounter < 0 || d.attempts < 0 || d.executions < 0 || d.generation < 0 { return false; }
    var bindingsOk, stored := ValidateBindings(profile, d.bindings);
    if !bindingsOk { return false; }
    var turnsOk := ValidateTurns(profile, d, stored);
    if !turnsOk { return false; }
    ok := d.bindingCounter >= |d.bindings| && d.turnCounter >= |d.turns|;
  }

  // ---- The ledger ----

  class TurnRecoveryLedger {
    const profile: string
    var durable: Durable
    var disk: Durable
    var runtimeCounter: nat
    var runtimes: map<string, Runtime>
    var connections: map<string, string>
    var tasks: map<nat, Task>
    var nextTask: nat

    ghost function View(): Ledger
      reads this
    {
      Ledger(profile, durable, runtimeCounter, runtimes, connections, tasks, nextTask)
    }

    /** Between stretches of handlers memory and disk agree. */
    ghost predicate Valid()
      reads this
    {
      disk == durable && LedgerOk(View())
    }

    /** A process on a ledger that the validator has accepted. */
    constructor (profile: string, found: Durable)
      requires Sound(profile, found) && CountsFit(found)
      ensures Valid() && View() == Started(profile, found)
    {
      hide LedgerOk, Sound, CountsFit;
      StartedIsOk(profile, found);
      this.profile := profile;
      durable := found.(generation := found.generation + 1);
      runtimeCounter, runtimes, connections, tasks, nextTask := 0, map[], map[], map[], 0;
      disk := found.(generation := found.generation + 1);
    }

    method Save()
      modifies this`disk
      ensures disk == durable
    {
      disk := durable;
    }

    method SessionOpen(mobile: string, connection: string, wellFormed: bool) returns (runtime: Option<string>)
      requires Valid()
      modifies this`durable, this`disk, this`runtimeCounter, this`runtimes, this`connections
      ensures Valid() && View() == Next(old(View()), Open(mobile, connection, wellFormed))
      ensures runtime.Some? <==> wellFormed && Canonical(mobile)
      ensures runtime.Some? ==>
                Scoped(View(), connection, runtime.value) ==
                Some(Runtime(durable.bindings[Key(profile, mobile)].stored, profile, mobile, durable.bindings[Key(profile, mobile)].version))
    {
      hide LedgerOk, Canonical, Key, StoredName, RuntimeName;
      NextKeeps(View(), Open(mobile, connection, wellFormed));
      CountersAreOk(View());
      BindingOf(mobile);
      if !wellFormed || !Canonical(mobile) { return None; }
      var key := Key(profile, mobile);
      if key !in durable.bindings {
        durable := durable.(bindingCounter := durable.bindingCounter + 1);
        durable := durable.(bindings := durable.bindings[key := Binding(profile, mobile, StoredName(durable.bindingCounter), 0)]);
      }
      var binding := durable.bindings[key];
      binding := binding.(version := binding.version + 1);
      durable := durable.(bindings := durable.bindings[key := binding]);
      runtimeCounter := runtimeCounter + 1;
      var name := RuntimeName(Nat(durable.generation), runtimeCounter);
      runtimes := runtimes[name := Runtime(binding.stored, binding.profile, binding.mobile, binding.version)];
      connections := connections[connection := name];
      Save();
      assert View() == OpenNext(old(View()), mobile, connection);
      runtime := Some(name);
    }

    /** The binding under a session's key is that session's. */
    lemma BindingOf(mobile: string)
      requires Valid()
      ensures Key(profile, mobile) in durable.bindings ==>
                durable.bindings[Key(profile, mobile)].profile == profile
                && (Canonical(mobile) ==> durable.bindings[Key(profile, mobile)].mobile == mobile)
    {
      BindingsAreOk(View());
      hide LedgerOk, Canonical;
      if Key(profile, mobile) in durable.bindings {
        KeyInjective(profile, mobile, profile, durable.bindings[Key(profile, mobile)].mobile);
      }
    }

    method PromptSubmit(p: Prompt) returns (ack: Ack)
      requires Valid() && IsDigest(p.digest) && IsDigest(p.manifest)
      modifies this`durable, this`disk, this`tasks, this`nextTask
      ensures Valid() && View() == Next(old(View()), Submit(p))
      ensures ack == SubmitAck(old(View()), p)
    {
      hide LedgerOk, Canonical, Key, TurnName, MessageName, IsDigest, CountersOk;
      NextKeeps(View(), Submit(p));
      if !(p.connection in connections && connections[p.connection] == p.runtime && p.runtime in runtimes) { return Invalid; }
      if !Canonical(p.client) || !p.wellFormed { return Invalid; }
      var runtime := runtimes[p.runtime];
      var key := Key(runtime.stored, p.client);
      durable := durable.(attempts := durable.attempts + 1);
      if key in durable.byClient {
        IndexedTurn(old(View()), key);
        var existing := durable.byClient[key];
        Save();
        return if durable.turns[existing].digest != p.digest then Conflict else Ack(existing, false);
      }
      durable := durable.(turnCounter := durable.turnCounter + 1);
      durable := durable.(executions := durable.executions + 1);
      var counter := Nat(durable.turnCounter);
      var turn := Turn(TurnName(counter), runtime.stored, runtime.profile, p.client, p.digest, p.manifest, Accepted, 0, 1, [],
                       MessageName(counter), "", counter, 1);
      turn := Append(turn, StatusIs(Accepted));
      assert turn == NewTurn(old(View()), p);
      durable := durable.(turns := durable.turns[turn.turnId := turn]);
      durable := durable.(byClient := durable.byClient[key := turn.turnId]);
      Save();
      tasks := tasks[nextTask := if p.atOnce then AtOnce(turn.turnId) else Stepwise(turn.turnId, 0)];
      nextTask := nextTask + 1;
      ack := Ack(turn.turnId, true);
    }

    /** One stretch of a handler that finishes a turn: everything up to its next wait. */
    method ResumeHandler(k: nat)
      requires Valid()
      modifies this`durable, this`disk, this`tasks
      ensures Valid() && View() == Next(old(View()), Resume(k))
    {
      hide LedgerOk, Emit;
      NextKeeps(View(), Resume(k));
      if k !in tasks || tasks[k].turnId !in durable.turns { return; }
      var task := tasks[k];
      var turn := durable.turns[task.turnId];
      TurnIsTidy(old(View()), task.turnId);
      if task.AtOnce? {
        tasks := tasks - {k};
        if Terminal(turn.status) { return; }
        var i := 0;
        while i < |SCRIPT|
          invariant 0 <= i <= |SCRIPT|
          invariant turn == EmitAll(durable.turns[task.turnId], SCRIPT[..i])
        {
          turn := Emit(turn, SCRIPT[i]);
          i := i + 1;
          assert SCRIPT[..i][..i - 1] == SCRIPT[..i - 1];
        }
        assert SCRIPT[..i] == SCRIPT;
        EmitAllKeepsId(durable.turns[task.turnId], SCRIPT);
        durable := durable.(turns := durable.turns[turn.turnId := turn]);
        Save();
      } else if (task.next == 0 && Terminal(turn.status)) || task.next >= |SCRIPT| {
        tasks := tasks - {k};
      } else {
        EmitKeepsTurn(turn, SCRIPT[task.next]);
        turn := Emit(turn, SCRIPT[task.next]);
        durable := durable.(turns := durable.turns[turn.turnId := turn]);
        Save();
        tasks := if task.next + 1 == |SCRIPT| then tasks - {k} else tasks[k := Stepwise(task.turnId, task.next + 1)];
      }
    }

    lemma EmitKeepsTurn(t: Turn, payload: Payload)
      ensures Emit(t, payload).turnId == t.turnId
    {
    }

    method InterruptTurn(connection: string, runtime: string, target: Target) returns (status: Option<Status>)
      requires Valid()
      modifies this`durable, this`disk
      ensures Valid() && View() == Next(old(View()), Interrupt(connection, runtime, target))
      ensures status.Some? <==> Find(old(View()), connection, runtime, target).Some?
      ensures status.Some? ==>
                Terminal(status.value) && Find(View(), connection, runtime, target).Some?
                && Find(View(), connection, runtime, target).value.status == status.value
    {
      hide LedgerOk;
      NextKeeps(View(), Interrupt(connection, runtime, target));
      var found := FindTurn(connection, runtime, target);
      if found.None? { return None; }
      FoundTurn(View(), connection, runtime, target);
      var turn := found.value;
      if !Terminal(turn.status) {
        turn := Append(turn.(status := Interrupted), StatusIs(Interrupted));
        durable := durable.(turns := durable.turns[turn.turnId := turn]);
        Save();
      }
      FindAgain(old(View()), View(), connection, runtime, target, turn);
      status := Some(turn.status);
    }

    lemma FindAgain(l: Ledger, m: Ledger, connection: string, runtime: string, target: Target, u: Turn)
      requires LedgerOk(l) && Find(l, connection, runtime, target).Some?
      requires var t := Find(l, connection, runtime, target).value;
               u.turnId == t.turnId && u.stored == t.stored && u.profile == t.profile && m == WithTurn(l, u)
      ensures Find(m, connection, runtime, target) == Some(u)
    {
      FoundTurn(l, connection, runtime, target);
      FoundUnderItsId(l, connection, runtime, target);
      hide LedgerOk, Canonical, Key;
    }

    lemma FoundUnderItsId(l: Ledger, connection: string, runtime: string, target: Target)
      requires LedgerOk(l) && Find(l, connection, runtime, target).Some?
      ensures TargetId(l, Scoped(l, connection, runtime).value, target) == Some(Find(l, connection, runtime, target).value.turnId)
    {
      hide CountsFit, RuntimesOk, TasksOk, NamesFit, Tidy, Canonical, Key;
    }

    method FindTurn(connection: string, runtime: string, target: Target) returns (turn: Option<Turn>)
      ensures turn == Find(View(), connection, runtime, target)
    {
      if !(connection in connections && connections[connection] == runtime && runtime in runtimes) { return None; }
      var r := runtimes[runtime];
      var id: string;
      match target {
        case TurnId(named) => id := named;
        case ClientTurn(client) =>
          if !Canonical(client) || Key(r.stored, client) !in durable.byClient { return None; }
          id := durable.byClient[Key(r.stored, client)];
      }
      if id !in durable.turns { return None; }
      var t := durable.turns[id];
      if t.stored != r.stored || t.profile != r.profile { return None; }
      turn := Some(t);
    }

    method PruneTurn(connection: string, runtime: string, target: Target) returns (earliest: Option<int>)
      requires Valid()
      modifies this`durable, this`disk
      ensures Valid() && View() == Next(old(View()), Prune(connection, runtime, target))
      ensures earliest.Some? <==> Find(old(View()), connection, runtime, target).Some?
    {
      hide LedgerOk;
      NextKeeps(View(), Prune(connection, runtime, target));
      var found := FindTurn(connection, runtime, target);
      if found.None? { return None; }
      FoundTurn(View(), connection, runtime, target);
      var turn := found.value;
      turn := turn.(firstRetained := turn.lastSeq + 1);
      turn := turn.(events := []);
      durable := durable.(turns := durable.turns[turn.turnId := turn]);
      Save();
      earliest := Some(turn.firstRetained);
    }

    method ReconcileTurn(connection: string, runtime: string, target: Target, after: nat) returns (replay: Option<Replay>)
      ensures replay.None? <==> Find(View(), connection, runtime, target).None?
      ensures replay.Some? ==> replay.value == Reconcile(Find(View(), connection, runtime, target).value, after)
    {
      var found := FindTurn(connection, runtime, target);
      if found.None? { return None; }
      var turn := found.value;
      if after < turn.firstRetained - 1 {
        if !Terminal(turn.status) || turn.text == "" { return Some(Pruned); }
        return Some(Snapshot(turn.status, turn.text, turn.lastSeq));
      }
      var newer: seq<Event> := [];
      var i := 0;
      while i < |turn.events|
        invariant 0 <= i <= |turn.events|
        invariant newer == EventsAfter(turn.events[..i], after)
      {
        if turn.events[i].seqNo > after {
          newer := newer + [turn.events[i]];
        }
        i := i + 1;
        assert turn.events[..i][..i - 1] == turn.events[..i - 1];
      }
      assert turn.events[..i] == turn.events;
      var events := if |newer| < PAGE then newer else newer[..PAGE];
      assert events == newer[..if |newer| < PAGE then |newer| else PAGE];
      var next := if events == [] then after else events[|events| - 1].seqNo;
      replay := Some(Page(events, next < turn.lastSeq, next));
    }

    method DetachConnection(connection: string)
      requires Valid()
      modifies this`connections
      ensures Valid() && View() == Next(old(View()), Detach(connection))
    {
      hide LedgerOk;
      NextKeeps(View(), Detach(connection));
      connections := connections - {connection};
    }

    method RestartRuntimes()
      requires Valid()
      modifies this`runtimes, this`connections
      ensures Valid() && View() == Next(old(View()), Restart)
    {
      hide LedgerOk;
      NextKeeps(View(), Restart);
      runtimes := map[];
      connections := map[];
    }
  }

  /** The process is gone; a new one finds what is on disk, validates it and starts. The validator never
      turns away what the old process left. */
  method Reload(previous: TurnRecoveryLedger) returns (next: TurnRecoveryLedger)
    requires previous.Valid()
    ensures fresh(next) && next.Valid() && next.View() == Next(previous.View(), Crash)
  {
    hide Acceptable, NamesFit, Tidy, RuntimesOk, TasksOk, CountsFit;
    var ok := Validate(previous.profile, previous.disk);
    assert ok;
    next := new TurnRecoveryLedger(previous.profile, previous.disk);
  }
}
