/** Runs of several engines over one microphone: who may capture, who is called back, and what a stopped
    session may still say. */
module VoiceHistory {
  import opened Basics
  import opened Voice
  import opened VoiceRuns

  datatype World = World(engines: seq<Engine>, lease: Option<Token>)

  /** An engine appears, or one of them gets a call. */
  datatype Act = Appear | On(engine: nat, call: Call)

  function At(w: World, i: nat): Machine
    requires i < |w.engines|
  {
    Machine(w.engines[i], i, w.lease)
  }

  function Step(w: World, act: Act): World {
    match act
    case Appear => w.(engines := w.engines + [NewEngine()])
    case On(i, call) =>
      if i >= |w.engines| then w
      else
        var n := Next(At(w, i), call);
        World(w.engines[i := n.engine], n.lease)
  }

  ghost predicate Allowed(w: World, act: Act) {
    act.On? && act.engine < |w.engines| ==> Possible(w.engines[act.engine], act.call)
  }

  function After(w: World, acts: seq<Act>): World {
    if acts == [] then w else Step(After(w, acts[..|acts| - 1]), acts[|acts| - 1])
  }

  ghost predicate Run(w: World, acts: seq<Act>) {
    forall k :: 0 <= k < |acts| ==> Allowed(After(w, acts[..k]), acts[k])
  }

  function Start(): World {
    World([], None)
  }

  ghost predicate EngineOk(w: World, i: nat)
    requires i < |w.engines|
  {
    MachineOk(At(w, i)) && HiddenOk(w.engines[i])
  }

  ghost predicate WorldOk(w: World) {
    && (forall i :: 0 <= i < |w.engines| ==> EngineOk(w, i))
    && (w.lease.Some? ==> w.lease.value.engine < |w.engines|)
  }

  lemma NewEngineIsOk(me: nat, lease: Option<Token>)
    requires lease.Some? ==> lease.value.engine != me
    ensures MachineOk(Machine(NewEngine(), me, lease)) && HiddenOk(NewEngine())
  {
  }

  /** Another engine's step leaves this one in order. */
  lemma OthersStayOk(m: Machine, n: Machine, other: Machine)
    requires LeaseStep(m, n) && n.me == m.me && LeaseOk(m) && other.me != m.me && other.lease == m.lease && MachineOk(other)
    ensures MachineOk(other.(lease := n.lease))
  {
    hide LogOk, CaptureOk, Answered;
  }

  lemma StepKeeps(w: World, act: Act)
    requires WorldOk(w) && Allowed(w, act)
    ensures WorldOk(Step(w, act))
  {
    hide MachineOk, HiddenOk, Next, NewEngine, LeaseStep, LeaseOk;
    var v := Step(w, act);
    match act
    case Appear =>
      NewEngineIsOk(|w.engines|, w.lease);
      forall i | 0 <= i < |v.engines|
        ensures EngineOk(v, i)
      {
        assert i < |w.engines| ==> EngineOk(w, i) && At(v, i) == At(w, i);
      }
    case On(i, call) =>
      if i < |w.engines| {
        assert EngineOk(w, i);
        NextKeeps(At(w, i), call);
        var n := Next(At(w, i), call);
        OwnerExists(w, i, n);
        MachineLease(At(w, i));
        forall j | 0 <= j < |v.engines|
          ensures EngineOk(v, j)
        {
          if j == i {
            assert At(v, i) == n;
          } else {
            assert EngineOk(w, j);
            OthersStayOk(At(w, i), n, At(w, j));
            assert At(v, j) == At(w, j).(lease := n.lease);
          }
        }
      }
  }

  lemma MachineLease(m: Machine)
    requires MachineOk(m)
    ensures LeaseOk(m)
  {
  }

  lemma OwnerExists(w: World, i: nat, n: Machine)
    requires WorldOk(w) && i < |w.engines| && LeaseStep(At(w, i), n) && n.me == i
    ensures n.lease.Some? ==> n.lease.value.engine < |w.engines|
  {
    hide EngineOk;
  }

  lemma {:induction false} RunKeeps(w: World, acts: seq<Act>)
    requires WorldOk(w) && Run(w, acts)
    ensures WorldOk(After(w, acts))
  {
    if acts != [] {
      hide WorldOk, Step, Allowed;
      var front := acts[..|acts| - 1];
      assert forall k :: 0 <= k < |front| ==> front[k] == acts[k] && front[..k] == acts[..k];
      RunKeeps(w, front);
      assert acts[..|acts| - 1] == front;
      StepKeeps(After(w, front), acts[|acts| - 1]);
    }
  }

  lemma HistoryKeeps(acts: seq<Act>)
    requires Run(Start(), acts)
    ensures WorldOk(After(Start(), acts))
  {
    hide After, Run, EngineOk;
    RunKeeps(Start(), acts);
  }

  // ---- One owner ----

  /** Across any engines there is at most one capture, and an engine has one exactly when it holds the lease. */
  lemma OneCapture(acts: seq<Act>, i: nat, j: nat)
    requires Run(Start(), acts) && i < |After(Start(), acts).engines| && j < |After(Start(), acts).engines|
    ensures var w := After(Start(), acts);
            && (w.engines[i].capture.Some? && w.engines[j].capture.Some? ==> i == j)
            && (w.engines[i].capture.Some? <==> w.lease.Some? && w.lease.value.engine == i)
            && (w.engines[i].capture.Some? ==> w.lease == Some(Token(i, w.engines[i].capture.value.number)))
  {
    HistoryKeeps(acts);
    OneCaptureIn(After(Start(), acts), i, j);
  }

  lemma OneCaptureIn(w: World, i: nat, j: nat)
    requires WorldOk(w) && i < |w.engines| && j < |w.engines|
    ensures w.engines[i].capture.Some? && w.engines[j].capture.Some? ==> i == j
    ensures w.engines[i].capture.Some? <==> w.lease.Some? && w.lease.value.engine == i
    ensures w.engines[i].capture.Some? ==> w.lease == Some(Token(i, w.engines[i].capture.value.number))
  {
    hide LogOk, Answered, CaptureOk, HiddenOk;
    assert EngineOk(w, i) && EngineOk(w, j);
  }

  /** Every completion is called back once: it has been, or the present capture owes it, and never both.
      With no capture none is owed. */
  lemma CompletionsAreCalledOnce(acts: seq<Act>, i: nat, callback: nat)
    requires Run(Start(), acts) && i < |After(Start(), acts).engines| && callback < After(Start(), acts).engines[i].issued
    ensures var e := After(Start(), acts).engines[i];
            && Fired(e.answers)[callback] + Owed(e.capture)[callback] == 1
            && (e.capture.None? ==> Fired(e.answers)[callback] == 1)
  {
    HistoryKeeps(acts);
    CalledOnce(After(Start(), acts), i, callback);
  }

  lemma CalledOnce(w: World, i: nat, callback: nat)
    requires WorldOk(w) && i < |w.engines| && callback < w.engines[i].issued
    ensures Fired(w.engines[i].answers)[callback] + Owed(w.engines[i].capture)[callback] == 1
    ensures w.engines[i].capture.None? ==> Fired(w.engines[i].answers)[callback] == 1
  {
    hide LogOk, CaptureOk, HiddenOk, LeaseOk;
    assert EngineOk(w, i);
    BelowCounts(w.engines[i].issued, callback);
    assert (Fired(w.engines[i].answers) + Owed(w.engines[i].capture))[callback] == Below(w.engines[i].issued)[callback];
  }

  /** While an engine is in the background or closed, any capture it still has was told to cancel. */
  lemma HiddenCapturesAreCancelled(acts: seq<Act>, i: nat)
    requires Run(Start(), acts) && i < |After(Start(), acts).engines|
    ensures var e := After(Start(), acts).engines[i];
            (!e.foreground || e.closed) && e.capture.Some? ==> e.capture.value.told
  {
    HistoryKeeps(acts);
    assert EngineOk(After(Start(), acts), i);
    hide After, MachineOk;
  }

  /** A session's events carry the numbers one, two, three and so on, and its `stopped` comes at most once. */
  lemma {:induction false} EventsAreNumbered(acts: seq<Act>, i: nat, k: nat)
    requires Run(Start(), acts) && i < |After(Start(), acts).engines| && k < |After(Start(), acts).engines[i].emitted|
    ensures var log := After(Start(), acts).engines[i].emitted;
            && log[k].number == CountFor(log[..k], log[k].key) + 1
            && forall key :: StopsFor(log, key) <= 1
  {
    HistoryKeeps(acts);
    assert EngineOk(After(Start(), acts), i);
    hide After;
  }
}
