/** What every run of the ledger keeps, crashes and reloads included. */
module LedgerRuns {
  import opened LedgerModel

  // ---- Names are distinct ----

  lemma {:induction false} DecimalInjective(m: nat, n: nat)
    requires Decimal(m) == Decimal(n)
    ensures m == n
  {
    DecimalNotEmpty(m / 10);
    DecimalNotEmpty(n / 10);
    if m >= 10 && n >= 10 {
      var a, b := Decimal(m), Decimal(n);
      assert a[..|a| - 1] == Decimal(m / 10) && b[..|b| - 1] == Decimal(n / 10);
      DecimalInjective(m / 10, n / 10);
      assert a[|a| - 1] == Digit(m % 10) && b[|b| - 1] == Digit(n % 10);
    }
  }

  lemma DecimalNotEmpty(n: nat)
    ensures |Decimal(n)| >= 1
  {
  }

  lemma NamesInjective(m: nat, n: nat)
    ensures TurnName(m) == TurnName(n) ==> m == n
    ensures StoredName(m) == StoredName(n) ==> m == n
  {
    if TurnName(m) == TurnName(n) {
      assert TurnName(m)[14..] == Decimal(m) && TurnName(n)[14..] == Decimal(n);
      DecimalInjective(m, n);
    }
    if StoredName(m) == StoredName(n) {
      assert StoredName(m)[16..] == Decimal(m) && StoredName(n)[16..] == Decimal(n);
      DecimalInjective(m, n);
    }
  }

  /** A key determines its parts, because a canonical UUID has a fixed length. */
  lemma KeyInjective(a: string, b: string, c: string, d: string)
    requires Key(a, b) == Key(c, d) && |b| == |d|
    ensures a == c && b == d
  {
    var k := Key(a, b);
    assert |a| == |c|;
    assert a == k[..|a|] && c == k[..|c|];
    assert b == k[|a| + 1..] && d == k[|c| + 1..];
  }

  // ---- The invariant ----

  /** No name that a counter has yet to give out is in use. */
  ghost predicate NamesFit(d: Durable) {
    && (forall n: nat {:trigger TurnName(n)} :: n > d.turnCounter ==> TurnName(n) !in d.turns)
    && (forall n: nat {:trigger StoredName(n)} :: n > d.bindingCounter ==> !IsStored(d.bindings, StoredName(n)))
  }

  /** A turn without events has none to retain. */
  ghost predicate Tidy(d: Durable) {
    forall id :: id in d.turns && d.turns[id].events == [] ==> d.turns[id].firstRetained == d.turns[id].lastSeq + 1
  }

  ghost predicate Sound(profile: string, d: Durable) {
    Acceptable(profile, d) && NamesFit(d) && Tidy(d)
  }

  /** Exactly one execution per turn, and no more turns than submissions. */
  ghost predicate CountsFit(d: Durable) {
    d.executions == |d.turns| <= d.attempts
  }

  ghost predicate RuntimesOk(l: Ledger) {
    forall r :: r in l.runtimes ==>
      && l.runtimes[r].profile == l.profile && Canonical(l.runtimes[r].mobile)
      && Key(l.profile, l.runtimes[r].mobile) in l.durable.bindings
      && l.durable.bindings[Key(l.profile, l.runtimes[r].mobile)].stored == l.runtimes[r].stored
  }

  /** A waiting handler belongs to a turn, no turn has two, and how far it is agrees with the turn's status. */
  ghost predicate TaskOk(l: Ledger, k: nat)
    requires k in l.tasks
  {
    var task := l.tasks[k];
    && k < l.nextTask && task.turnId in l.durable.turns
    && var status := l.durable.turns[task.turnId].status;
       match task
       case AtOnce(_) => status == Accepted || status == Interrupted
       case Stepwise(_, next) =>
         next < |SCRIPT| && (status == Interrupted || status == if next == 0 then Accepted else Running)
  }

  ghost predicate TasksOk(l: Ledger) {
    && (forall k :: k in l.tasks ==> TaskOk(l, k))
    && (forall j, k :: j in l.tasks && k in l.tasks && l.tasks[j].turnId == l.tasks[k].turnId ==> j == k)
  }

  ghost predicate LedgerOk(l: Ledger) {
    Sound(l.profile, l.durable) && CountsFit(l.durable) && RuntimesOk(l) && TasksOk(l)
  }

  // ---- One turn changes ----

  /** The turn keeps its identity and its log stays gap-free. */
  ghost predicate Grows(profile: string, t: Turn, u: Turn) {
    && u.turnId == t.turnId && u.stored == t.stored && u.client == t.client
    && TurnShape(profile, u.turnId, u)
    && (u.events == [] ==> u.firstRetained == u.lastSeq + 1)
  }

  lemma AppendGrows(profile: string, t: Turn, payload: Payload)
    requires TurnShape(profile, t.turnId, t) && (t.events == [] ==> t.firstRetained == t.lastSeq + 1)
    ensures Grows(profile, t, Append(t, payload)) && Grows(profile, t, Emit(t, payload))
  {
  }

  lemma {:induction false} EmitAllGrows(profile: string, t: Turn, payloads: seq<Payload>)
    requires TurnShape(profile, t.turnId, t) && (t.events == [] ==> t.firstRetained == t.lastSeq + 1)
    ensures Grows(profile, t, EmitAll(t, payloads))
  {
    if payloads != [] {
      EmitAllGrows(profile, t, payloads[..|payloads| - 1]);
      AppendGrows(profile, EmitAll(t, payloads[..|payloads| - 1]), payloads[|payloads| - 1]);
    }
  }

  lemma UpdateKeeps(profile: string, d: Durable, u: Turn)
    requires Sound(profile, d) && u.turnId in d.turns && Grows(profile, d.turns[u.turnId], u)
    ensures Sound(profile, d.(turns := d.turns[u.turnId := u]))
    ensures |d.turns[u.turnId := u]| == |d.turns|
  {
    hide TurnShape, IsStored, StoredOnce, BindingOk;
    var turns := d.turns[u.turnId := u];
    assert turns.Keys == d.turns.Keys;
    assert |turns.Keys| == |turns|;
  }

  // ---- Open ----

  lemma OpenKeepsSound(l: Ledger, mobile: string, connection: string)
    requires Sound(l.profile, l.durable)
    ensures Sound(l.profile, OpenNext(l, mobile, connection).durable)
  {
    assert l.durable.bindingCounter >= 0;
    hide Sound, Canonical, Key, StoredName;
    if Canonical(mobile) {
      var d := l.durable;
      var key := Key(l.profile, mobile);
      if key in d.bindings {
        Rebind(l.profile, d, key);
      } else {
        BindNew(l.profile, d, key, mobile);
      }
    }
  }

  lemma SameStored(bindings: map<string, Binding>, more: map<string, Binding>, key: string)
    requires StoredOnce(bindings) && key in bindings && key in more && more == bindings[key := more[key]]
    requires more[key].stored == bindings[key].stored
    ensures StoredOnce(more) && |more| == |bindings|
    ensures forall s :: IsStored(more, s) <==> IsStored(bindings, s)
  {
    assert more.Keys == bindings.Keys && |more.Keys| == |more|;
    forall s | IsStored(bindings, s)
      ensures IsStored(more, s)
    {
      var k :| k in bindings && bindings[k].stored == s;
      assert k in more && more[k].stored == s;
    }
  }

  lemma Rebind(profile: string, d: Durable, key: string)
    requires Sound(profile, d) && key in d.bindings
    ensures Sound(profile, d.(bindings := d.bindings[key := d.bindings[key].(version := d.bindings[key].version + 1)]))
  {
    hide TurnShape, IndexOk, Canonical, Key, TurnName, StoredName, IsStored, StoredOnce;
    SameStored(d.bindings, d.bindings[key := d.bindings[key].(version := d.bindings[key].version + 1)], key);
  }

  lemma BindNew(profile: string, d: Durable, key: string, mobile: string)
    requires Sound(profile, d) && key == Key(profile, mobile) && key !in d.bindings && Canonical(mobile)
    ensures Sound(profile, d.(bindingCounter := d.bindingCounter + 1,
                              bindings := d.bindings[key := Binding(profile, mobile, StoredName(d.bindingCounter + 1), 1)]))
  {
    hide TurnShape, IndexOk, Canonical, TurnName, Key, StoredOnce, IsStored, Decimal;
    var name := StoredName(d.bindingCounter + 1);
    var bindings := d.bindings[key := Binding(profile, mobile, name, 1)];
    assert !IsStored(d.bindings, name);
    NewBindings(d.bindings, bindings, key, name);
    forall n: nat | n > d.bindingCounter + 1
      ensures !IsStored(bindings, StoredName(n))
    {
      NamesInjective(n, d.bindingCounter + 1);
    }
  }

  lemma NewBindings(bindings: map<string, Binding>, more: map<string, Binding>, key: string, name: string)
    requires StoredOnce(bindings) && key !in bindings && !IsStored(bindings, name)
    requires key in more && more == bindings[key := more[key]] && more[key].stored == name
    ensures StoredOnce(more) && |more| == |bindings| + 1
    ensures forall s :: IsStored(more, s) <==> IsStored(bindings, s) || s == name
  {
    assert more.Keys == bindings.Keys + {key};
    forall s | IsStored(bindings, s)
      ensures IsStored(more, s)
    {
      var k :| k in bindings && bindings[k].stored == s;
      assert k in more && more[k].stored == s;
    }
  }

  lemma OpenKeepsRuntimes(l: Ledger, mobile: string, connection: string)
    requires RuntimesOk(l) && forall k :: k in l.durable.bindings ==> BindingOk(l.profile, k, l.durable.bindings[k])
    ensures RuntimesOk(OpenNext(l, mobile, connection))
  {
    hide Canonical, Decimal;
    if Canonical(mobile) && Key(l.profile, mobile) in l.durable.bindings {
      KeyInjective(l.profile, mobile, l.profile, l.durable.bindings[Key(l.profile, mobile)].mobile);
    }
  }

  lemma CountersAreOk(l: Ledger)
    requires LedgerOk(l)
    ensures CountersOk(l.durable)
  {
  }

  lemma BindingsAreOk(l: Ledger)
    requires LedgerOk(l)
    ensures forall k :: k in l.durable.bindings ==> BindingOk(l.profile, k, l.durable.bindings[k])
  {
  }

  lemma OpenKeeps(l: Ledger, mobile: string, connection: string)
    requires LedgerOk(l)
    ensures LedgerOk(OpenNext(l, mobile, connection))
  {
    hide Acceptable, NamesFit, Tidy, RuntimesOk, TasksOk, Canonical, Key, RuntimeName, StoredName;
    OpenKeepsSound(l, mobile, connection);
    BindingsAreOk(l);
    OpenKeepsRuntimes(l, mobile, connection);
    TasksDependOnTurns(l, OpenNext(l, mobile, connection));
  }

  lemma TasksDependOnTurns(l: Ledger, m: Ledger)
    requires TasksOk(l) && m.tasks == l.tasks && m.nextTask == l.nextTask && m.durable.turns == l.durable.turns
    ensures TasksOk(m)
  {
  }

  // ---- Submit ----

  lemma RuntimeIsBound(l: Ledger, p: Prompt)
    requires RuntimesOk(l) && Submittable(l, p)
    ensures var r := Scoped(l, p.connection, p.runtime).value; r.profile == l.profile && IsStored(l.durable.bindings, r.stored)
  {
  }

  lemma NewTurnShape(l: Ledger, p: Prompt)
    requires CountersOk(l.durable) && RuntimesOk(l) && Submittable(l, p) && IsDigest(p.digest) && IsDigest(p.manifest)
    ensures TurnShape(l.profile, NewTurn(l, p).turnId, NewTurn(l, p))
    ensures NewTurn(l, p).turnId == TurnName(l.durable.turnCounter + 1) && NewTurn(l, p).events != []
    ensures ClientKey(NewTurn(l, p)) == PromptKey(l, p)
    ensures IsStored(l.durable.bindings, NewTurn(l, p).stored)
  {
    RuntimeIsBound(l, p);
    hide RuntimesOk, IsStored, Decimal;
  }

  lemma CreateKeepsSound(l: Ledger, p: Prompt)
    requires LedgerOk(l) && Submittable(l, p) && IsDigest(p.digest) && IsDigest(p.manifest)
    requires PromptKey(l, p) !in l.durable.byClient
    ensures Sound(l.profile, Create(l, p).durable)
    ensures NewTurn(l, p).turnId !in l.durable.turns && |Create(l, p).durable.turns| == |l.durable.turns| + 1
  {
    hide Sound, RuntimesOk, TurnShape, IsStored, TasksOk, CountsFit, PromptKey, ClientKey, Submittable, IsDigest, NewTurn, TurnName, CountersOk;
    CountersAreOk(l);
    NewTurnShape(l, p);
    var t := NewTurn(l, p);
    AddTurn(l.profile, l.durable, t);
    assert Create(l, p).durable.turns == l.durable.turns[t.turnId := t];
    assert Create(l, p).durable.byClient == l.durable.byClient[ClientKey(t) := t.turnId];
  }

  lemma IndexAdds(turns: map<string, Turn>, byClient: map<string, string>, t: Turn)
    requires IndexOk(turns, byClient) && t.turnId !in turns && ClientKey(t) !in byClient
    ensures IndexOk(turns[t.turnId := t], byClient[ClientKey(t) := t.turnId])
    ensures |turns[t.turnId := t]| == |turns| + 1
  {
    hide ClientKey;
    assert turns[t.turnId := t].Keys == turns.Keys + {t.turnId};
  }

  lemma TurnNamesFit(d: Durable, t: Turn)
    requires CountersOk(d) && NamesFit(d) && t.turnId == TurnName(d.turnCounter + 1)
    ensures t.turnId !in d.turns
    ensures forall n: nat {:trigger TurnName(n)} :: n > d.turnCounter + 1 ==> TurnName(n) !in d.turns[t.turnId := t]
  {
    forall n: nat {:trigger TurnName(n)} | n > d.turnCounter + 1
      ensures TurnName(n) !in d.turns[t.turnId := t]
    {
      NamesInjective(n, d.turnCounter + 1);
    }
  }

  lemma AddTurn(profile: string, d: Durable, t: Turn)
    requires Sound(profile, d) && TurnShape(profile, t.turnId, t) && t.events != []
    requires t.turnId == TurnName(d.turnCounter + 1) && IsStored(d.bindings, t.stored) && ClientKey(t) !in d.byClient
    ensures Sound(profile, d.(attempts := d.attempts + 1, turnCounter := d.turnCounter + 1, executions := d.executions + 1,
                              turns := d.turns[t.turnId := t], byClient := d.byClient[ClientKey(t) := t.turnId]))
    ensures t.turnId !in d.turns && |d.turns[t.turnId := t]| == |d.turns| + 1
  {
    hide TurnShape, StoredOnce, IsStored, BindingOk, ClientKey, StoredName, TurnName, IndexOk;
    TurnNamesFit(d, t);
    IndexAdds(d.turns, d.byClient, t);
  }

  lemma AttemptKeeps(l: Ledger)
    requires LedgerOk(l)
    ensures LedgerOk(l.(durable := l.durable.(attempts := l.durable.attempts + 1)))
  {
    hide TasksOk, TurnShape, StoredOnce, IsStored, BindingOk, IndexOk, StoredName, TurnName, Canonical, Key;
    TasksDependOnTurns(l, l.(durable := l.durable.(attempts := l.durable.attempts + 1)));
  }

  lemma CreateKeeps(l: Ledger, p: Prompt)
    requires LedgerOk(l) && Submittable(l, p) && IsDigest(p.digest) && IsDigest(p.manifest)
    requires PromptKey(l, p) !in l.durable.byClient
    ensures LedgerOk(Create(l, p))
  {
    CreateKeepsSound(l, p);
    CreateKeepsTasks(l, p);
    hide Sound, TasksOk, Canonical, Key, PromptKey;
  }

  lemma IndexedTurn(l: Ledger, key: string)
    requires LedgerOk(l) && key in l.durable.byClient
    ensures l.durable.byClient[key] in l.durable.turns && ClientKey(l.durable.turns[l.durable.byClient[key]]) == key
  {
  }

  lemma SubmitKeeps(l: Ledger, p: Prompt)
    requires LedgerOk(l) && IsDigest(p.digest) && IsDigest(p.manifest)
    ensures LedgerOk(SubmitNext(l, p))
  {
    hide Submittable, LedgerOk, PromptKey, Create;
    if Submittable(l, p) {
      if PromptKey(l, p) in l.durable.byClient {
        IndexedTurn(l, PromptKey(l, p));
        AttemptKeeps(l);
      } else {
        CreateKeeps(l, p);
      }
    }
  }

  lemma CreateKeepsTasks(l: Ledger, p: Prompt)
    requires LedgerOk(l) && Submittable(l, p) && NewTurn(l, p).turnId !in l.durable.turns
    ensures TasksOk(Create(l, p))
  {
    hide Sound, RuntimesOk, TurnName, PromptKey, Key;
  }

  // ---- Waiting handlers, interrupts and prunes ----

  lemma UpdateKeepsLedger(l: Ledger, u: Turn)
    requires LedgerOk(l) && u.turnId in l.durable.turns && Grows(l.profile, l.durable.turns[u.turnId], u)
    requires TasksOk(WithTurn(l, u))
    ensures LedgerOk(WithTurn(l, u))
  {
    hide TasksOk, Sound;
    UpdateKeeps(l.profile, l.durable, u);
  }

  lemma FewerTasks(l: Ledger, k: nat)
    requires LedgerOk(l)
    ensures LedgerOk(l.(tasks := l.tasks - {k}))
  {
    hide Sound;
  }

  lemma TurnIsTidy(l: Ledger, id: string)
    requires LedgerOk(l) && id in l.durable.turns
    ensures var t := l.durable.turns[id];
            t.turnId == id && TurnShape(l.profile, id, t) && (t.events == [] ==> t.firstRetained == t.lastSeq + 1)
  {
  }

  lemma {:induction false} EmitAllKeepsId(t: Turn, payloads: seq<Payload>)
    ensures EmitAll(t, payloads).turnId == t.turnId
  {
    if payloads != [] {
      EmitAllKeepsId(t, payloads[..|payloads| - 1]);
    }
  }

  lemma EmitStatus(t: Turn)
    ensures EmitAll(t, SCRIPT).status == Completed && EmitAll(t, SCRIPT).turnId == t.turnId
    ensures forall k :: 0 <= k < |SCRIPT| ==>
      Emit(t, SCRIPT[k]).status == if k == 0 then Running else if k == 5 then Completed else t.status
  {
    EmitAllKeepsId(t, SCRIPT);
  }

  /** A turn that no handler waits on may take any status. */
  lemma FreeTurn(l: Ledger, k: nat, u: Turn)
    requires TasksOk(l) && k in l.tasks && u.turnId == l.tasks[k].turnId
    ensures TasksOk(WithTurn(l.(tasks := l.tasks - {k}), u))
  {
  }

  lemma FinishKeeps(l: Ledger, k: nat)
    requires LedgerOk(l) && k in l.tasks && l.tasks[k].AtOnce?
    ensures LedgerOk(ResumeNext(l, k))
  {
    hide Sound, TurnShape, EmitAll, TaskOk;
    assert TaskOk(l, k);
    var id := l.tasks[k].turnId;
    TaskTurnExists(l, k);
    var t := l.durable.turns[id];
    TurnIsTidy(l, id);
    FewerTasks(l, k);
    if !Terminal(t.status) {
      EmitAllGrows(l.profile, t, SCRIPT);
      EmitStatus(t);
      var u := EmitAll(t, SCRIPT);
      FreeTurn(l, k, u);
      SoundWithTurn(l, l.tasks - {k}, u);
    }
  }

  lemma TaskTurnExists(l: Ledger, k: nat)
    requires TasksOk(l) && k in l.tasks
    ensures l.tasks[k].turnId in l.durable.turns
  {
  }

  lemma TaskIsOk(l: Ledger, k: nat)
    requires LedgerOk(l) && k in l.tasks
    ensures TaskOk(l, k)
  {
  }

  lemma StepKeeps(l: Ledger, k: nat)
    requires LedgerOk(l) && k in l.tasks && l.tasks[k].Stepwise?
    ensures LedgerOk(ResumeNext(l, k))
  {
    hide LedgerOk, TurnShape, Emit;
    TaskIsOk(l, k);
    var id, next := l.tasks[k].turnId, l.tasks[k].next;
    var t := l.durable.turns[id];
    TurnIsTidy(l, id);
    FewerTasks(l, k);
    if next > 0 || !Terminal(t.status) {
      AppendGrows(l.profile, t, SCRIPT[next]);
      EmitStatus(t);
      var u := Emit(t, SCRIPT[next]);
      var on := if next + 1 == |SCRIPT| then l.tasks - {k} else l.tasks[k := Stepwise(id, next + 1)];
      StepKeepsTasks(l, k, u);
      SoundWithTurn(l, on, u);
    }
  }

  lemma StepKeepsTasks(l: Ledger, k: nat, u: Turn)
    requires LedgerOk(l) && k in l.tasks && l.tasks[k].Stepwise? && u.turnId == l.tasks[k].turnId
    requires var next := l.tasks[k].next;
             u.status == if next == 0 then Running else if next == 5 then Completed else l.durable.turns[u.turnId].status
    ensures var next := l.tasks[k].next;
            var on := if next + 1 == |SCRIPT| then l.tasks - {k} else l.tasks[k := Stepwise(u.turnId, next + 1)];
            TasksOk(WithTurn(l.(tasks := on), u))
  {
    hide Sound, RuntimesOk, CountsFit;
  }

  lemma SoundWithTurn(l: Ledger, on: map<nat, Task>, u: Turn)
    requires LedgerOk(l) && u.turnId in l.durable.turns && Grows(l.profile, l.durable.turns[u.turnId], u)
    requires TasksOk(WithTurn(l.(tasks := on), u))
    ensures LedgerOk(WithTurn(l.(tasks := on), u))
  {
    hide TasksOk, Sound;
    UpdateKeeps(l.profile, l.durable, u);
  }

  lemma FoundTurn(l: Ledger, connection: string, runtime: string, target: Target)
    requires LedgerOk(l) && Find(l, connection, runtime, target).Some?
    ensures var t := Find(l, connection, runtime, target).value;
            && t.turnId in l.durable.turns && l.durable.turns[t.turnId] == t
            && TurnShape(l.profile, t.turnId, t) && (t.events == [] ==> t.firstRetained == t.lastSeq + 1)
  {
  }

  lemma InterruptGrows(profile: string, t: Turn)
    requires TurnShape(profile, t.turnId, t) && (t.events == [] ==> t.firstRetained == t.lastSeq + 1)
    ensures Grows(profile, t, Append(t.(status := Interrupted), StatusIs(Interrupted)))
    ensures Grows(profile, t, t.(firstRetained := t.lastSeq + 1, events := []))
  {
  }

  /** Handlers put up with an interrupt. */
  lemma HandlersStay(l: Ledger, u: Turn)
    requires TasksOk(l) && u.turnId in l.durable.turns
    requires u.status == l.durable.turns[u.turnId].status || u.status == Interrupted
    ensures TasksOk(WithTurn(l, u))
  {
  }

  lemma InterruptKeeps(l: Ledger, connection: string, runtime: string, target: Target)
    requires LedgerOk(l)
    ensures LedgerOk(InterruptNext(l, connection, runtime, target))
  {
    hide Sound, Find, TurnShape, TasksOk;
    var found := Find(l, connection, runtime, target);
    if found.Some? && !Terminal(found.value.status) {
      FoundTurn(l, connection, runtime, target);
      var t := found.value;
      InterruptGrows(l.profile, t);
      var u := Append(t.(status := Interrupted), StatusIs(Interrupted));
      HandlersStay(l, u);
      UpdateKeepsLedger(l, u);
    }
  }

  lemma PruneKeeps(l: Ledger, connection: string, runtime: string, target: Target)
    requires LedgerOk(l)
    ensures LedgerOk(PruneNext(l, connection, runtime, target))
  {
    hide Sound, Find, TurnShape, TasksOk;
    var found := Find(l, connection, runtime, target);
    if found.Some? {
      FoundTurn(l, connection, runtime, target);
      var t := found.value;
      InterruptGrows(l.profile, t);
      var u := t.(firstRetained := t.lastSeq + 1, events := []);
      HandlersStay(l, u);
      UpdateKeepsLedger(l, u);
    }
  }

  lemma StartedIsOk(profile: string, d: Durable)
    requires Sound(profile, d) && CountsFit(d)
    ensures LedgerOk(Started(profile, d))
  {
    hide TurnShape, IsStored, StoredOnce, BindingOk, IndexOk, StoredName, TurnName;
  }

  // ---- Runs ----

  lemma NextKeeps(l: Ledger, step: Step)
    requires LedgerOk(l) && Possible(step)
    ensures LedgerOk(Next(l, step)) && Next(l, step).profile == l.profile
  {
    hide LedgerOk, OpenNext, SubmitNext, ResumeNext, InterruptNext, PruneNext;
    match step
    case Open(mobile, connection, _) => OpenKeeps(l, mobile, connection); StepKeepsProfile(l, step);
    case Submit(prompt) => SubmitKeeps(l, prompt); StepKeepsProfile(l, step);
    case Resume(k) => ResumeKeeps(l, k); StepKeepsProfile(l, step);
    case Abandon(k) => FewerTasks(l, k);
    case Interrupt(connection, runtime, target) => InterruptKeeps(l, connection, runtime, target); StepKeepsProfile(l, step);
    case Prune(connection, runtime, target) => PruneKeeps(l, connection, runtime, target); StepKeepsProfile(l, step);
    case Detach(connection) => ForgetKeeps(l, l.runtimes, l.connections - {connection});
    case Restart => ForgetKeeps(l, map[], map[]);
    case Crash => CrashKeeps(l);
  }

  lemma StepKeepsProfile(l: Ledger, step: Step)
    ensures Next(l, step).profile == l.profile
  {
    hide Canonical, Key, Submittable, NewTurn, Find;
  }

  lemma ResumeKeeps(l: Ledger, k: nat)
    requires LedgerOk(l)
    ensures LedgerOk(ResumeNext(l, k))
  {
    if k in l.tasks {
      if l.tasks[k].AtOnce? {
        FinishKeeps(l, k);
      } else {
        StepKeeps(l, k);
      }
    }
  }

  lemma ForgetKeeps(l: Ledger, runtimes: map<string, Runtime>, connections: map<string, string>)
    requires LedgerOk(l) && forall r :: r in runtimes ==> r in l.runtimes && runtimes[r] == l.runtimes[r]
    ensures LedgerOk(l.(runtimes := runtimes, connections := connections))
  {
    hide Sound, CountsFit;
  }

  lemma CrashKeeps(l: Ledger)
    requires LedgerOk(l)
    ensures LedgerOk(Started(l.profile, l.durable))
  {
    hide Sound, CountsFit, RuntimesOk, TasksOk;
    StartedIsOk(l.profile, l.durable);
  }

  lemma {:induction false} RunKeeps(start: Ledger, steps: seq<Step>)
    requires LedgerOk(start) && Run(steps)
    ensures LedgerOk(After(start, steps)) && After(start, steps).profile == start.profile
  {
    if steps != [] {
      hide LedgerOk, Next;
      RunKeeps(start, steps[..|steps| - 1]);
      NextKeeps(After(start, steps[..|steps| - 1]), steps[|steps| - 1]);
    }
  }

  lemma EmptyIsSound(profile: string)
    ensures Sound(profile, EmptyDurable()) && CountsFit(EmptyDurable())
  {
  }
}
