/** What a stop means: the session is silent but for one `stopped`, nothing of its generation or older starts
    again, and which captures it reaches. */
module VoiceStop {
  import opened Basics
  import opened Voice
  import opened VoiceRuns
  import opened VoiceHistory

  /** Revocations and marks only grow, and a revoked session adds nothing to the log but `stopped`. */
  ghost predicate Later(e: Engine, f: Engine) {
    && RevokedStay(e, f)
    && (forall o :: Through(e.revokedThrough, o) <= Through(f.revokedThrough, o))
    && e.emitted <= f.emitted
    && forall i :: |e.emitted| <= i < |f.emitted| && IsRevoked(e, f.emitted[i].key) ==> f.emitted[i].what.Stopped?
  }

  lemma LaterTransitive(e: Engine, f: Engine, g: Engine)
    requires Later(e, f) && Later(f, g)
    ensures Later(e, g)
  {
    forall i | |e.emitted| <= i < |g.emitted| && IsRevoked(e, g.emitted[i].key)
      ensures g.emitted[i].what.Stopped?
    {
      if i < |f.emitted| {
        assert g.emitted[i] == f.emitted[i];
      }
    }
  }

  lemma SilentIsLater(e: Engine, f: Engine)
    requires f.emitted == e.emitted && f.revokedThrough == e.revokedThrough && RevokedStay(e, f)
    ensures Later(e, f)
  {
  }

  lemma EmitIsLater(e: Engine, key: SessionKey, op: string, what: What)
    requires what.Stopped? || !IsRevoked(e, key)
    ensures Later(e, Emit(e, key, op, what))
  {
  }

  lemma EmitStoppedIsLater(e: Engine, key: SessionKey, reason: string)
    ensures Later(e, EmitStopped(e, key, reason))
  {
  }

  lemma RevokeIsLater(e: Engine, key: SessionKey)
    ensures Later(e, Revoke(e, key))
    ensures Through(Revoke(e, key).revokedThrough, key.owner) >= key.generation
  {
  }

  lemma ReplyAllIsLater(e: Engine, callbacks: seq<nat>)
    ensures Later(e, ReplyAll(e, callbacks))
  {
    ReplyAllFires(e, callbacks);
    hide ReplyAll, Fired;
    SilentIsLater(e, ReplyAll(e, callbacks));
  }

  /** Only one session says anything on the way. */
  ghost predicate OnlyFor(e: Engine, f: Engine, key: SessionKey) {
    && RevokedStay(e, f)
    && (forall o :: Through(e.revokedThrough, o) <= Through(f.revokedThrough, o))
    && e.emitted <= f.emitted
    && forall i :: |e.emitted| <= i < |f.emitted| ==> f.emitted[i].key == key
  }

  lemma OnlyForTransitive(e: Engine, f: Engine, g: Engine, key: SessionKey)
    requires OnlyFor(e, f, key) && OnlyFor(f, g, key)
    ensures OnlyFor(e, g, key)
  {
    forall i | |e.emitted| <= i < |g.emitted|
      ensures g.emitted[i].key == key
    {
      if i < |f.emitted| {
        assert g.emitted[i] == f.emitted[i];
      }
    }
  }

  lemma EmitIsOnlyFor(e: Engine, key: SessionKey, op: string, what: What)
    ensures OnlyFor(e, Emit(e, key, op, what), key) && OnlyFor(e, Revoke(e, key), key) && OnlyFor(e, e, key)
  {
  }

  lemma FailIsOnlyFor(e: Engine, c: Capture, failure: Code)
    ensures OnlyFor(e, Fail(e, c, failure), c.key)
  {
    hide OnlyFor, Emit, Revoke;
    EmitIsOnlyFor(e, c.key, c.op, FatalError(failure));
    EmitIsOnlyFor(Revoke(e, c.key), c.key, c.op, FatalError(failure));
    OnlyForTransitive(e, Revoke(e, c.key), Fail(e, c, failure), c.key);
  }

  /** A capture that may still speak has a session that is not revoked, so its report is in order. */
  lemma ReportIsLater(e: Engine, c: Capture, ending: Ending)
    requires !SessionOf(e, c.key).revoked
    ensures Later(e, Report(e, c, ending))
  {
    ReportIsOnlyFor(e, c, ending);
    hide Report;
  }

  lemma ReportIsOnlyFor(e: Engine, c: Capture, ending: Ending)
    ensures OnlyFor(e, Report(e, c, ending), c.key)
  {
    hide OnlyFor, Emit, Fail;
    EmitIsOnlyFor(e, c.key, c.op, WakeDetected);
    match ending
    case WakeEnding(detected, failure) =>
      if failure.Some? { FailIsOnlyFor(e, c, failure.value); }
    case SpeechEnding(reason, failure) =>
      var told := Emit(e, c.key, c.op, RecognitionEnded(reason));
      EmitIsOnlyFor(e, c.key, c.op, RecognitionEnded(reason));
      if failure.Some? {
        FailIsOnlyFor(told, c, failure.value);
        OnlyForTransitive(e, told, Fail(told, c, failure.value), c.key);
      }
  }

  lemma EndedIsLater(m: Machine, ending: Ending)
    requires m.engine.capture.Some?
    ensures Later(m.engine, Ended(m, ending).engine)
  {
    hide Later, Report, Settle;
    var c := m.engine.capture.value;
    var deliver := Eligible(m.engine, c.number);
    var e := AcknowledgeStart(Release(m, c).engine, c, if deliver then ending.failure else Some(StaleOwner));
    SilentIsLater(m.engine, e);
    SilentIsLater(e, e);
    if deliver {
      ReportIsLater(e, c, ending);
    }
    var f := if deliver then Report(e, c, ending) else e;
    SettleIsLater(f, c);
    LaterTransitive(m.engine, e, f);
    LaterTransitive(m.engine, f, Settle(f, c));
  }

  lemma SettleIsLater(e: Engine, c: Capture)
    ensures Later(e, Settle(e, c))
  {
    hide Later, EmitStopped, ReplyAll;
    SilentIsLater(e, e);
    var f := if c.stopReason.Some? then EmitStopped(e, c.key, c.stopReason.value) else e;
    if c.stopReason.Some? {
      EmitStoppedIsLater(e, c.key, c.stopReason.value);
    }
    ReplyAllIsLater(f, c.waiters);
    LaterTransitive(e, f, ReplyAll(f, c.waiters));
  }

  lemma ClaimIsLater(m: Machine, key: SessionKey, op: string, kind: Kind, permitted: bool, available: bool)
    ensures Later(m.engine, Claim(m, key, op, kind, permitted, available).engine)
  {
    hide IsStale;
    SilentIsLater(m.engine, Claim(m, key, op, kind, permitted, available).engine);
  }

  lemma StopIsLater(m: Machine, key: SessionKey, reason: string)
    ensures Later(m.engine, StopNext(m, key, reason).engine)
    ensures IsRevoked(StopNext(m, key, reason).engine, key)
    ensures Through(StopNext(m, key, reason).engine.revokedThrough, key.owner) >= key.generation
  {
    hide Revoke, EmitStopped, Ended;
    var e := Revoke(Issue(m.engine), key);
    SilentIsLater(m.engine, Issue(m.engine));
    RevokeIsLater(Issue(m.engine), key);
    RevokeRevokes(Issue(m.engine), key);
    LaterTransitive(m.engine, Issue(m.engine), e);
    EmitStoppedIsLater(e, key, reason);
    var n := StopNext(m, key, reason);
    if key.generation < Through(e.latest, key.owner) {
      SilentIsLater(e, n.engine);
    } else if e.capture.None? || e.capture.value.key != key {
      var f := EmitStopped(e, key, reason);
      SilentIsLater(f, n.engine);
      LaterTransitive(e, f, n.engine);
    } else {
      AskedIsLater(m, e, key, reason);
    }
    LaterTransitive(m.engine, e, n.engine);
  }

  lemma RevokeRevokes(e: Engine, key: SessionKey)
    ensures IsRevoked(Revoke(e, key), key)
  {
  }

  lemma AskedIsLater(m: Machine, e: Engine, key: SessionKey, reason: string)
    requires e == Revoke(Issue(m.engine), key) && e.capture.Some? && e.capture.value.key == key
    requires key.generation >= Through(e.latest, key.owner)
    ensures Later(e, StopNext(m, key, reason).engine)
  {
    hide Revoke, EmitStopped, Ended, Later;
    var c := e.capture.value;
    var told := c.(revoked := true, stopReason := if c.stopReason.None? then Some(reason) else c.stopReason,
                   waiters := c.waiters + [m.engine.issued], told := true);
    var asked := m.(engine := e.(capture := Some(told)));
    SilentIsLater(e, asked.engine);
    if c.kind == Speech {
      EndedIsLater(asked, SpeechEnding("canceled", None));
      LaterTransitive(e, asked.engine, StopNext(m, key, reason).engine);
    }
  }

  lemma {:induction false} StopAllIsLater(m: Machine, order: seq<SessionKey>, reason: string)
    ensures Later(m.engine, StopAll(m, order, reason).engine)
  {
    hide Later, StopNext;
    SilentIsLater(m.engine, m.engine);
    if order != [] {
      var front := StopAll(m, order[..|order| - 1], reason);
      StopAllIsLater(m, order[..|order| - 1], reason);
      StopIsLater(front, order[|order| - 1], reason);
      LaterTransitive(m.engine, front.engine, StopAll(m, order, reason).engine);
    }
  }

  lemma AwaitIsLater(m: Machine, key: SessionKey, op: string, ending: Option<Ending>)
    ensures Later(m.engine, Await(m, key, op, ending).engine)
  {
    hide Later, Ended, IsStale;
    var e := Issue(m.engine);
    if IsStale(e, key) || !Addresses(e, key, op) || ending.None? {
      SilentIsLater(m.engine, Await(m, key, op, ending).engine);
    } else {
      var c := e.capture.value;
      var waiting := m.(engine := e.(capture := Some(c.(waiters := c.waiters + [m.engine.issued], told := true))));
      SilentIsLater(m.engine, waiting.engine);
      EndedIsLater(waiting, ending.value);
      LaterTransitive(m.engine, waiting.engine, Await(m, key, op, ending).engine);
    }
  }

  lemma SpeaksIsLater(m: Machine, what: What, answered: bool)
    requires m.engine.capture.Some? && Eligible(m.engine, m.engine.capture.value.number)
    ensures var c := m.engine.capture.value;
            var f := Emit(m.engine, c.key, c.op, what);
            Later(m.engine, if answered then StartAnswered(f, None) else f)
  {
    var c := m.engine.capture.value;
    var f := Emit(m.engine, c.key, c.op, what);
    EmitIsLater(m.engine, c.key, c.op, what);
    SilentIsLater(f, StartAnswered(f, None));
    LaterTransitive(m.engine, f, StartAnswered(f, None));
  }

  lemma HideIsLater(m: Machine, foreground: bool, closed: bool, order: seq<SessionKey>, reason: string)
    ensures var f := m.(engine := m.engine.(foreground := foreground, closed := closed));
            Later(m.engine, f.engine) && Later(m.engine, StopAll(f, order, reason).engine)
  {
    hide Later, StopAll;
    var f := m.(engine := m.engine.(foreground := foreground, closed := closed));
    SilentIsLater(m.engine, f.engine);
    StopAllIsLater(f, order, reason);
    LaterTransitive(m.engine, f.engine, StopAll(f, order, reason).engine);
  }

  lemma NextIsLater(m: Machine, call: Call)
    ensures Later(m.engine, Next(m, call).engine)
  {
    hide Later, Claim, StopNext, StopAll, Await, Ended, Emit, StartAnswered, Eligible;
    SilentIsLater(m.engine, m.engine);
    match call
    case SetForeground(visible, order) => HideIsLater(m, visible && !m.engine.closed, m.engine.closed, order, "background");
    case Close(order) => HideIsLater(m, false, true, order, "nativeDetached");
    case ArmWake(key, op, permitted) => ClaimIsLater(m, key, op, Wake, permitted, true);
    case RecognizeOnce(key, op, permitted, available) => ClaimIsLater(m, key, op, Speech, permitted, available);
    case WakeIsArmed(number) =>
      EligibleHolds(m.engine, number);
      if Eligible(m.engine, number) { SpeaksIsLater(m, WakeArmed, true); }
    case RecognitionStarted(number) =>
      if Holds(m.engine, number) { AnsweredIsLater(m.engine); }
    case Says(number, event) =>
      EligibleHolds(m.engine, number);
      if Eligible(m.engine, number) { SpeaksIsLater(m, Said(event), false); }
    case Ends(number, ending) =>
      if Holds(m.engine, number) { EndedIsLater(m, ending); }
    case FinishRecognition(key, op) => AwaitIsLater(m, key, op, None);
    case CancelRecognition(key, op, reason, failure) => AwaitIsLater(m, key, op, Some(SpeechEnding(reason, failure)));
    case Stop(key, reason) => StopIsLater(m, key, reason);
  }

  lemma EligibleHolds(e: Engine, number: nat)
    ensures Eligible(e, number) ==> Holds(e, number)
  {
  }

  lemma AnsweredIsLater(e: Engine)
    requires e.capture.Some?
    ensures Later(e, StartAnswered(e, None))
  {
    SilentIsLater(e, StartAnswered(e, None));
  }

  lemma {:induction false} RunIsLater(w: World, acts: seq<Act>, i: nat)
    requires i < |w.engines|
    ensures i < |After(w, acts).engines| && Later(w.engines[i], After(w, acts).engines[i])
  {
    hide Later, Next;
    if acts == [] {
      SilentIsLater(w.engines[i], w.engines[i]);
    } else {
      var before := After(w, acts[..|acts| - 1]);
      RunIsLater(w, acts[..|acts| - 1], i);
      var act := acts[|acts| - 1];
      if act.On? && act.engine == i {
        NextIsLater(At(before, i), act.call);
        LaterTransitive(w.engines[i], before.engines[i], After(w, acts).engines[i]);
      }
    }
  }

  // ---- After a stop ----

  /** After `stop(key)`, whatever happens: everything the session still says is `stopped`, and with what it
      said before that comes to at most one. */
  lemma StoppedSessionsAreSilent(acts: seq<Act>, i: nat, key: SessionKey, reason: string, more: seq<Act>)
    requires Run(Start(), acts + [On(i, Stop(key, reason))] + more) && i < |After(Start(), acts).engines|
    ensures var w := Step(After(Start(), acts), On(i, Stop(key, reason)));
            var v := After(w, more);
            && i < |w.engines| && i < |v.engines|
            && w.engines[i].emitted <= v.engines[i].emitted
            && (forall k :: |w.engines[i].emitted| <= k < |v.engines[i].emitted| && v.engines[i].emitted[k].key == key ==>
                  v.engines[i].emitted[k].what.Stopped?)
            && StopsFor(v.engines[i].emitted, key) <= 1
  {
    hide After, Run, WorldOk, Later, StopNext;
    var w := Step(After(Start(), acts), On(i, Stop(key, reason)));
    AfterParts(Start(), acts, On(i, Stop(key, reason)), more);
    HistoryKeeps(acts + [On(i, Stop(key, reason))] + more);
    StopIsLater(At(After(Start(), acts), i), key, reason);
    RunIsLater(w, more, i);
    LaterIsSilent(w.engines[i], After(w, more).engines[i], key);
    AtMostOneStop(After(w, more), i, key);
  }

  lemma LaterIsSilent(e: Engine, f: Engine, key: SessionKey)
    requires Later(e, f) && IsRevoked(e, key)
    ensures e.emitted <= f.emitted
    ensures forall k :: |e.emitted| <= k < |f.emitted| && f.emitted[k].key == key ==> f.emitted[k].what.Stopped?
  {
  }

  lemma AtMostOneStop(w: World, i: nat, key: SessionKey)
    requires WorldOk(w) && i < |w.engines|
    ensures StopsFor(w.engines[i].emitted, key) <= 1
  {
    assert EngineOk(w, i);
  }

  lemma {:induction false} AfterParts(w: World, acts: seq<Act>, act: Act, more: seq<Act>)
    ensures After(w, acts + [act] + more) == After(Step(After(w, acts), act), more)
  {
    hide Step;
    if more == [] {
      assert acts + [act] + more == acts + [act] && (acts + [act])[..|acts|] == acts;
    } else {
      assert (acts + [act] + more)[..|acts| + |more|] == acts + [act] + more[..|more| - 1];
      AfterParts(w, acts, act, more[..|more| - 1]);
    }
  }

  /** Once an owner's generation is revoked, no capture of that generation or an older one starts again: the
      request is answered at once with a failure and takes nothing. */
  lemma NoStartAfterStop(w: World, i: nat, key: SessionKey, more: seq<Act>, again: SessionKey, op: string, kind: Kind,
                         permitted: bool, available: bool)
    requires i < |w.engines| && Through(w.engines[i].revokedThrough, key.owner) >= key.generation
    requires again.owner == key.owner && again.generation <= key.generation
    ensures i < |After(w, more).engines|
    ensures var m := At(After(w, more), i);
            var n := Claim(m, again, op, kind, permitted, available);
            && n.engine.capture == m.engine.capture && n.lease == m.lease
            && n.engine.answers == m.engine.answers
                 + [Answer(m.engine.issued, Some(if m.engine.foreground && !m.engine.closed then StaleOwner else NotForeground))]
  {
    RunIsLater(w, more, i);
    hide After;
  }

  /** Exactly what one stop reaches. A capture of that very session is told to cancel: a wake capture is then held
      until its thread ends, a speech capture ends within the call. Any other capture is left as it is. But every
      capture of the same owner up to that generation is silenced, so stopping a later generation leaves an
      older capture running, silent and not cancelled. */
  lemma StopReaches(m: Machine, key: SessionKey, reason: string)
    requires MachineOk(m) && m.engine.capture.Some?
    ensures var c := m.engine.capture.value;
            var n := StopNext(m, key, reason);
            && (if c.key != key then n.engine.capture == m.engine.capture && n.lease == m.lease
                else if c.kind == Wake then Holds(n.engine, c.number) && n.engine.capture.value.told && n.lease == m.lease
                else n.engine.capture.None? && n.lease.None?)
            && (Eligible(m.engine, c.number) ==>
                  (Eligible(n.engine, c.number) <==> !(c.key.owner == key.owner && c.key.generation <= key.generation)))
  {
    hide LogOk, Answered, EmitStopped, Settle, Report;
    var e := Revoke(Issue(m.engine), key);
    EmitSpeaks(e, key, "", WakeArmed, reason);
    StoppedKeepsMarks(e, key, reason);
    StoppedKeepsCapture(e, key, reason);
    if m.engine.capture.value.key == key && m.engine.capture.value.kind == Speech {
      StopEndsSpeech(m, key, reason);
    }
  }

  lemma StoppedKeepsMarks(e: Engine, key: SessionKey, reason: string)
    ensures EmitStopped(e, key, reason).revokedThrough == e.revokedThrough
    ensures forall k :: SessionOf(EmitStopped(e, key, reason), k).revoked == SessionOf(e, k).revoked
  {
  }

  lemma StoppedKeepsCapture(e: Engine, key: SessionKey, reason: string)
    ensures EmitStopped(e, key, reason).capture == e.capture && EmitStopped(e, key, reason).foreground == e.foreground
    ensures EmitStopped(e, key, reason).closed == e.closed
  {
  }

  lemma EndedReleases(m: Machine, ending: Ending)
    requires m.engine.capture.Some? && LeaseOk(m)
    ensures Ended(m, ending).engine.capture.None? && Ended(m, ending).lease.None?
  {
    hide ReplyAll, Fired, Eligible, Emit, EmitStopped, Revoke;
    var c := m.engine.capture.value;
    var deliver := Eligible(m.engine, c.number);
    var acknowledged := AcknowledgeStart(Release(m, c).engine, c, if deliver then ending.failure else Some(StaleOwner));
    var reported := if deliver then Report(acknowledged, c, ending) else acknowledged;
    ReportKeepsCapture(acknowledged, c, ending);
    SettleKeepsCapture(reported, c);
    hide Report, Settle;
  }

  lemma ReportKeepsCapture(e: Engine, c: Capture, ending: Ending)
    ensures Report(e, c, ending).capture == e.capture
  {
  }

  lemma SettleKeepsCapture(e: Engine, c: Capture)
    ensures Settle(e, c).capture == e.capture
  {
    hide ReplyAll, Fired;
    var stopped := if c.stopReason.Some? then EmitStopped(e, c.key, c.stopReason.value) else e;
    ReplyAllFires(stopped, c.waiters);
  }

  lemma StopEndsSpeech(m: Machine, key: SessionKey, reason: string)
    requires MachineOk(m) && m.engine.capture.Some? && m.engine.capture.value.key == key && m.engine.capture.value.kind == Speech
    ensures StopNext(m, key, reason).engine.capture.None? && StopNext(m, key, reason).lease.None?
  {
    hide LogOk, Answered, Ended;
    var c, e := m.engine.capture.value, Revoke(Issue(m.engine), key);
    var told := c.(revoked := true, stopReason := if c.stopReason.None? then Some(reason) else c.stopReason,
                   waiters := c.waiters + [m.engine.issued], told := true);
    EndedReleases(m.(engine := e.(capture := Some(told))), SpeechEnding("canceled", None));
  }

  // ---- An older capture that a stop does not reach ----

  function Starts(kind: Kind, key: SessionKey): Call {
    if kind == Wake then ArmWake(key, "operation", true) else RecognizeOnce(key, "operation", true, true)
  }

  /** An engine appears, becomes visible and starts to capture for one generation; then the next one is stopped. */
  function StopOfTheNext(kind: Kind): seq<Act> {
    [Appear, On(0, SetForeground(true, [])), On(0, Starts(kind, SessionKey("owner", 1))), On(0, Stop(SessionKey("owner", 2), "replaced"))]
  }

  lemma FourActs(acts: seq<Act>)
    requires |acts| == 4
    ensures After(Start(), acts[..3]) == Step(Step(Step(Start(), acts[0]), acts[1]), acts[2])
    ensures After(Start(), acts) == Step(After(Start(), acts[..3]), acts[3])
    ensures (forall k :: 0 <= k < 4 ==> Allowed(After(Start(), acts[..k]), acts[k])) ==> Run(Start(), acts)
    ensures After(Start(), acts[..0]) == Start() && After(Start(), acts[..1]) == Step(Start(), acts[0])
    ensures After(Start(), acts[..2]) == Step(Step(Start(), acts[0]), acts[1])
  {
    hide Step;
    assert acts[..1][..0] == [] && acts[..2][..1] == acts[..1] && acts[..3][..2] == acts[..2];
    assert After(Start(), acts[..1]) == Step(Start(), acts[0]);
    assert After(Start(), acts[..2]) == Step(After(Start(), acts[..1]), acts[1]);
  }

  /** Reachable for captures of either kind: the capture could speak before the stop of the next generation; after
      it the capture still runs and holds the microphone, was not told to cancel, and may never speak. */
  lemma OlderCaptureIsLeftRunning(kind: Kind)
    ensures Run(Start(), StopOfTheNext(kind))
    ensures var before, after := After(Start(), StopOfTheNext(kind)[..3]), After(Start(), StopOfTheNext(kind));
            && |before.engines| == |after.engines| == 1
            && Eligible(before.engines[0], 0)
            && Holds(after.engines[0], 0) && after.lease == Some(Token(0, 0))
            && !after.engines[0].capture.value.told && !Eligible(after.engines[0], 0)
  {
    hide After, Run, StopNext, Allowed;
    var acts := StopOfTheNext(kind);
    FourActs(acts);
    var visible := World([NewEngine().(foreground := true)], None);
    assert Step(Step(Start(), acts[0]), acts[1]) == visible;
    assert Lists(NewEngine(), []);
    FirstFourAllowed(kind);
    var m := At(Step(visible, acts[2]), 0);
    ClaimedByFirst(kind);
    PassedOver(m, SessionKey("owner", 2), "replaced");
  }

  lemma FirstFourAllowed(kind: Kind)
    ensures var acts := StopOfTheNext(kind);
            forall w: World, k :: 0 <= k < 4 && (k == 1 ==> w == World([NewEngine()], None)) ==> Allowed(w, acts[k])
  {
    assert Lists(NewEngine(), []);
  }

  /** The machine while the first generation captures. */
  lemma ClaimedByFirst(kind: Kind)
    ensures var visible := Machine(NewEngine().(foreground := true), 0, None);
            var m := Next(visible, Starts(kind, SessionKey("owner", 1)));
            var c := Capture(0, SessionKey("owner", 1), "operation", kind, Some(0), false, [], None, false);
            m.engine.capture == Some(c) && m.lease == Some(Token(0, 0)) && Eligible(m.engine, 0) && m.me == 0
            && Through(m.engine.latest, "owner") == 1
  {
  }

  lemma PassedOver(m: Machine, key: SessionKey, reason: string)
    requires m.engine.capture.Some? && m.engine.capture.value.key.owner == key.owner && m.engine.capture.value.key.generation < key.generation
    requires Through(m.engine.latest, key.owner) < key.generation
    ensures var n := StopNext(m, key, reason);
            n.engine.capture == m.engine.capture && n.lease == m.lease && !Eligible(n.engine, m.engine.capture.value.number)
  {
    hide EmitStopped;
    var e := Revoke(Issue(m.engine), key);
    StoppedKeepsMarks(e, key, reason);
    StoppedKeepsCapture(e, key, reason);
  }
}
