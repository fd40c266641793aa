/** What holds over any run of any number of voice engines. */
module VoiceRuns {
  import opened Basics
  import opened Voice

  // ---- Completions ----

  function Below(n: nat): multiset<nat> {
    if n == 0 then multiset{} else Below(n - 1) + multiset{n - 1}
  }

  lemma {:induction false} BelowCounts(n: nat, k: nat)
    ensures Below(n)[k] == if k < n then 1 else 0
  {
    if n > 0 {
      BelowCounts(n - 1, k);
    }
  }

  /** The completions called back, with multiplicity. */
  function Fired(answers: seq<Answer>): multiset<nat> {
    if answers == [] then multiset{} else Fired(answers[..|answers| - 1]) + multiset{answers[|answers| - 1].callback}
  }

  /** The completions a capture still owes. */
  function Owed(capture: Option<Capture>): multiset<nat> {
    if capture.None? then multiset{}
    else (if capture.value.start.Some? then multiset{capture.value.start.value} else multiset{}) + multiset(capture.value.waiters)
  }

  /** Every completion handed out was called back once or is owed once. */
  ghost predicate Answered(e: Engine, owed: multiset<nat>) {
    Fired(e.answers) + owed == Below(e.issued)
  }

  lemma ReplyFires(e: Engine, callback: nat, failure: Option<Code>)
    ensures Fired(Reply(e, callback, failure).answers) == Fired(e.answers) + multiset{callback}
  {
    var r := Reply(e, callback, failure).answers;
    assert r[..|r| - 1] == e.answers;
  }

  lemma Snoc(s: seq<nat>)
    requires s != []
    ensures multiset(s) == multiset(s[..|s| - 1]) + multiset{s[|s| - 1]}
  {
    assert s == s[..|s| - 1] + [s[|s| - 1]];
  }

  lemma {:induction false} ReplyAllFires(e: Engine, callbacks: seq<nat>)
    ensures var r := ReplyAll(e, callbacks);
            && Fired(r.answers) == Fired(e.answers) + multiset(callbacks)
            && r == e.(answers := r.answers)
  {
    hide Fired;
    if callbacks != [] {
      ReplyAllFires(e, callbacks[..|callbacks| - 1]);
      ReplyFires(ReplyAll(e, callbacks[..|callbacks| - 1]), callbacks[|callbacks| - 1], None);
      Snoc(callbacks);
    }
  }

  // ---- Events ----

  function CountFor(emitted: seq<Emitted>, key: SessionKey): nat {
    if emitted == [] then 0
    else CountFor(emitted[..|emitted| - 1], key) + if emitted[|emitted| - 1].key == key then 1 else 0
  }

  function StopsFor(emitted: seq<Emitted>, key: SessionKey): nat {
    if emitted == [] then 0
    else
      StopsFor(emitted[..|emitted| - 1], key)
      + if emitted[|emitted| - 1].key == key && emitted[|emitted| - 1].what.Stopped? then 1 else 0
  }

  /** The events of a session are numbered from one, and its `stopped` came once if it came. */
  ghost predicate LogOk(e: Engine) {
    && (forall k :: SessionOf(e, k).seqNo == CountFor(e.emitted, k))
    && (forall k :: StopsFor(e.emitted, k) == if SessionOf(e, k).stopped then 1 else 0)
    && (forall i :: 0 <= i < |e.emitted| ==> e.emitted[i].number == CountFor(e.emitted[..i], e.emitted[i].key) + 1)
  }

  lemma EmitLogs(e: Engine, key: SessionKey, op: string, what: What)
    requires LogOk(e) && !what.Stopped?
    ensures LogOk(Emit(e, key, op, what))
  {
    var f := Emit(e, key, op, what);
    assert f.emitted[..|f.emitted| - 1] == e.emitted;
    assert forall i :: 0 <= i < |e.emitted| ==> f.emitted[..i] == e.emitted[..i];
  }

  lemma EmitStoppedLogs(e: Engine, key: SessionKey, reason: string)
    requires LogOk(e)
    ensures LogOk(EmitStopped(e, key, reason))
  {
    var f := EmitStopped(e, key, reason);
    if !SessionOf(e, key).stopped {
      assert f.emitted[..|f.emitted| - 1] == e.emitted;
      assert forall i :: 0 <= i < |e.emitted| ==> f.emitted[..i] == e.emitted[..i];
    }
  }

  lemma SameLogs(e: Engine, f: Engine)
    requires LogOk(e) && f.emitted == e.emitted
    requires forall k :: SessionOf(f, k).seqNo == SessionOf(e, k).seqNo && SessionOf(f, k).stopped == SessionOf(e, k).stopped
    ensures LogOk(f)
  {
  }

  // ---- The invariant of one engine and the lease ----

  ghost predicate CaptureOk(e: Engine) {
    e.capture.Some? ==>
      var c := e.capture.value;
      && c.number < e.nextCapture
      && c.key in e.sessions
      && c.key.owner in e.latest && e.latest[c.key.owner] == c.key.generation
      && (e.sessions[c.key].revoked ==> c.told)
  }

  ghost predicate Owns(m: Machine) {
    m.lease.Some? && m.lease.value.engine == m.me
  }

  /** An engine has a capture exactly when that capture holds the lease. */
  ghost predicate LeaseOk(m: Machine) {
    if m.engine.capture.Some? then m.lease == Some(Token(m.me, m.engine.capture.value.number)) else !Owns(m)
  }

  ghost predicate HiddenOk(e: Engine) {
    && (e.closed ==> !e.foreground)
    && (!e.foreground && e.capture.Some? ==> e.capture.value.told)
  }

  /** No capture comes up, and one that was told to cancel stays told. */
  predicate NoneNew(c: Option<Capture>, d: Option<Capture>) {
    d.Some? ==> c.Some? && d.value.number == c.value.number && d.value.key == c.value.key && (c.value.told ==> d.value.told)
  }

  predicate IsRevoked(e: Engine, key: SessionKey) {
    key in e.sessions && e.sessions[key].revoked
  }

  predicate RevokedStay(e: Engine, f: Engine) {
    forall k :: k in e.sessions && IsRevoked(e, k) ==> IsRevoked(f, k)
  }

  predicate AllRevoked(e: Engine, order: seq<SessionKey>) {
    forall k :: k in order ==> IsRevoked(e, k)
  }

  /** An engine takes the lease only when it is free and gives up only its own. */
  ghost predicate LeaseStep(m: Machine, n: Machine) {
    n.lease == m.lease || ((m.lease.None? || Owns(m)) && (n.lease.None? || Owns(n)))
  }

  /** What stopping sessions leaves alone. */
  ghost predicate Stopping(m: Machine, n: Machine) {
    && n.me == m.me && n.engine.foreground == m.engine.foreground && n.engine.closed == m.engine.closed
    && RevokedStay(m.engine, n.engine) && LeaseStep(m, n) && NoneNew(m.engine.capture, n.engine.capture)
  }

  lemma StoppingTransitive(m: Machine, n: Machine, o: Machine)
    requires Stopping(m, n) && Stopping(n, o)
    ensures Stopping(m, o)
  {
  }

  lemma OneMoreRevoked(m: Machine, n: Machine, order: seq<SessionKey>)
    requires order != [] && Stopping(m, n) && AllRevoked(m.engine, order[..|order| - 1]) && IsRevoked(n.engine, order[|order| - 1])
    ensures AllRevoked(n.engine, order)
  {
    hide LeaseStep, NoneNew;
    assert order == order[..|order| - 1] + [order[|order| - 1]];
  }

  ghost predicate MachineOk(m: Machine) {
    CaptureOk(m.engine) && LeaseOk(m) && LogOk(m.engine) && Answered(m.engine, Owed(m.engine.capture))
  }

  // ---- Pieces ----

  /** Only sessions, marks and events may differ; sessions stay, revocation stays. */
  predicate Quiet(e: Engine, f: Engine) {
    && f.answers == e.answers && f.issued == e.issued && f.capture == e.capture && f.latest == e.latest
    && f.nextCapture == e.nextCapture && f.foreground == e.foreground && f.closed == e.closed
    && e.sessions.Keys <= f.sessions.Keys
    && (forall k :: k in e.sessions && e.sessions[k].revoked ==> f.sessions[k].revoked)
  }

  /** `Quiet`, and no session was revoked on the way. */
  predicate Spoke(e: Engine, f: Engine) {
    Quiet(e, f) && forall k :: k in e.sessions ==> f.sessions[k].revoked == e.sessions[k].revoked
  }

  lemma EmitSpeaks(e: Engine, key: SessionKey, op: string, what: What, reason: string)
    ensures Spoke(e, Emit(e, key, op, what)) && Spoke(e, EmitStopped(e, key, reason))
  {
  }

  lemma RevokeKeeps(e: Engine, key: SessionKey)
    requires LogOk(e)
    ensures LogOk(Revoke(e, key)) && Quiet(e, Revoke(e, key))
    ensures key in Revoke(e, key).sessions && Revoke(e, key).sessions[key].revoked
    ensures forall k :: k in e.sessions && k != key ==> Revoke(e, key).sessions[k] == e.sessions[k]
  {
    SameLogs(e, Revoke(e, key));
  }

  lemma FailKeeps(e: Engine, c: Capture, failure: Code)
    requires LogOk(e)
    ensures LogOk(Fail(e, c, failure)) && Quiet(e, Fail(e, c, failure))
  {
    RevokeKeeps(e, c.key);
    EmitLogs(Revoke(e, c.key), c.key, c.op, FatalError(failure));
    hide LogOk, Revoke;
  }

  lemma ReportKeeps(e: Engine, c: Capture, ending: Ending)
    requires LogOk(e)
    ensures LogOk(Report(e, c, ending)) && Quiet(e, Report(e, c, ending))
  {
    hide LogOk, Fail, Emit, Quiet;
    QuietSelf(e);
    match ending
    case WakeEnding(detected, failure) =>
      if failure.Some? {
        FailKeeps(e, c, failure.value);
      } else {
        EmitLogs(e, c.key, c.op, WakeDetected);
        EmitQuiet(e, c.key, c.op, WakeDetected);
      }
    case SpeechEnding(reason, failure) =>
      EmitLogs(e, c.key, c.op, RecognitionEnded(reason));
      EmitQuiet(e, c.key, c.op, RecognitionEnded(reason));
      var told := Emit(e, c.key, c.op, RecognitionEnded(reason));
      if failure.Some? {
        FailKeeps(told, c, failure.value);
        QuietTransitive(e, told, Fail(told, c, failure.value));
      }
  }

  lemma EmitQuiet(e: Engine, key: SessionKey, op: string, what: What)
    ensures Quiet(e, Emit(e, key, op, what))
  {
    EmitSpeaks(e, key, op, what, "");
  }

  lemma QuietSelf(e: Engine)
    ensures Quiet(e, e)
  {
  }

  lemma QuietTransitive(e: Engine, f: Engine, g: Engine)
    requires Quiet(e, f) && Quiet(f, g)
    ensures Quiet(e, g)
  {
  }

  /** What the settling of a capture leaves: its waiters called back. */
  lemma SettleKeeps(e: Engine, c: Capture, owed: multiset<nat>)
    requires LogOk(e) && Answered(e, owed + multiset(c.waiters))
    ensures var f := Settle(e, c);
            && LogOk(f) && Answered(f, owed) && f.capture == e.capture && f.latest == e.latest && f.nextCapture == e.nextCapture
            && f.foreground == e.foreground && f.closed == e.closed && f.issued == e.issued
            && e.sessions.Keys <= f.sessions.Keys
            && forall k :: k in e.sessions ==> f.sessions[k].revoked == e.sessions[k].revoked
  {
    hide EmitStopped, ReplyAll, LogOk, Fired, Below;
    var stopped := if c.stopReason.Some? then EmitStopped(e, c.key, c.stopReason.value) else e;
    if c.stopReason.Some? {
      EmitStoppedLogs(e, c.key, c.stopReason.value);
      EmitSpeaks(e, c.key, "", WakeArmed, c.stopReason.value);
    }
    ReplyAllFires(stopped, c.waiters);
    SameLogs(stopped, ReplyAll(stopped, c.waiters));
  }

  // ---- Calls ----

  lemma AcknowledgeKeeps(e: Engine, c: Capture, failure: Option<Code>, waiters: multiset<nat>)
    requires LogOk(e)
    requires Answered(e, (if c.start.Some? then multiset{c.start.value} else multiset{}) + waiters)
    ensures var f := AcknowledgeStart(e, c, failure);
            LogOk(f) && Answered(f, waiters) && f == e.(answers := f.answers)
  {
    if c.start.Some? {
      ReplyFires(e, c.start.value, failure);
      SameLogs(e, Reply(e, c.start.value, failure));
    }
  }

  /** Whatever the outcome, the end of a capture releases the lease and calls back all that it owed. */
  lemma EndedKeeps(m: Machine, ending: Ending)
    requires m.engine.capture.Some? && LeaseOk(m) && LogOk(m.engine) && Answered(m.engine, Owed(m.engine.capture))
    ensures var n := Ended(m, ending);
            && MachineOk(n) && n.engine.capture.None? && n.lease.None? && n.me == m.me && LeaseStep(m, n)
            && Answered(n.engine, multiset{}) && n.engine.issued == m.engine.issued
            && n.engine.foreground == m.engine.foreground && n.engine.closed == m.engine.closed
            && m.engine.sessions.Keys <= n.engine.sessions.Keys
            && forall k :: k in m.engine.sessions && m.engine.sessions[k].revoked ==> n.engine.sessions[k].revoked
  {
    hide LogOk, Report, Settle, Eligible, Fired;
    var c := m.engine.capture.value;
    var deliver := Eligible(m.engine, c.number);
    var released := Release(m, c);
    SameLogs(m.engine, released.engine);
    var failure := if deliver then ending.failure else Some(StaleOwner);
    AcknowledgeKeeps(released.engine, c, failure, multiset(c.waiters));
    var acknowledged := AcknowledgeStart(released.engine, c, failure);
    ReportKeeps(acknowledged, c, ending);
    var reported := if deliver then Report(acknowledged, c, ending) else acknowledged;
    assert multiset{} + multiset(c.waiters) == multiset(c.waiters);
    SettleKeeps(reported, c, multiset{});
  }

  lemma IssueOwes(e: Engine, owed: multiset<nat>)
    requires Answered(e, owed)
    ensures Answered(Issue(e), owed + multiset{e.issued})
  {
  }

  lemma ReplyPays(e: Engine, callback: nat, failure: Option<Code>, owed: multiset<nat>)
    requires Answered(e, owed + multiset{callback}) && LogOk(e)
    ensures Answered(Reply(e, callback, failure), owed) && LogOk(Reply(e, callback, failure))
  {
    ReplyFires(e, callback, failure);
    SameLogs(e, Reply(e, callback, failure));
  }

  lemma ClaimKeeps(m: Machine, key: SessionKey, op: string, kind: Kind, permitted: bool, available: bool)
    requires MachineOk(m)
    ensures var n := Claim(m, key, op, kind, permitted, available);
            && MachineOk(n) && n.me == m.me && n.engine.foreground == m.engine.foreground && n.engine.closed == m.engine.closed
            && LeaseStep(m, n)
            && ((n.engine.capture == m.engine.capture && n.lease == m.lease) || (n.engine.foreground && !n.engine.closed && m.lease.None?))
  {
    hide LogOk, Answered, Owed;
    var callback := m.engine.issued;
    var owed := Owed(m.engine.capture);
    var e := Issue(m.engine);
    IssueOwes(m.engine, owed);
    SameLogs(m.engine, e);
    var refusal := Refusal(e, key, kind, permitted, available);
    if refusal.Some? {
      ReplyPays(e, callback, refusal, owed);
    } else {
      var s := SessionOf(e, key);
      SameLogs(e, Put(e, key, s));
      SameAnswers(e, Put(e, key, s), owed + multiset{callback});
      var noted := Put(e, key, s.(used := s.used + {op}));
      SameLogs(e, noted);
      SameAnswers(e, noted, owed + multiset{callback});
      if op in s.used {
        ReplyPays(Put(e, key, s), callback, Some(StaleOwner), owed);
      } else if m.lease.Some? {
        ReplyPays(noted, callback, Some(AudioBusy), owed);
      } else {
        NothingOwed();
        assert multiset{} + multiset{callback} == multiset{callback};
        ClaimedKeeps(m, noted, key, op, kind, callback);
      }
    }
  }

  lemma NothingOwed()
    ensures Owed(None) == multiset{}
  {
  }

  lemma ClaimedKeeps(m: Machine, noted: Engine, key: SessionKey, op: string, kind: Kind, callback: nat)
    requires LogOk(noted) && Answered(noted, multiset{callback}) && key in noted.sessions && !noted.sessions[key].revoked
    ensures var c := Capture(noted.nextCapture, key, op, kind, Some(callback), false, [], None, false);
            MachineOk(m.(engine := noted.(latest := noted.latest[key.owner := key.generation], capture := Some(c), nextCapture := noted.nextCapture + 1),
                         lease := Some(Token(m.me, c.number))))
  {
    var c := Capture(noted.nextCapture, key, op, kind, Some(callback), false, [], None, false);
    var e := noted.(latest := noted.latest[key.owner := key.generation], capture := Some(c), nextCapture := noted.nextCapture + 1);
    SameLogs(noted, e);
    hide LogOk, Fired, Below;
    assert Owed(Some(c)) == multiset{callback};
  }

  /** Stopping a session revokes it for good and tells a capture of its own to cancel. */
  lemma StopKeeps(m: Machine, key: SessionKey, reason: string)
    requires MachineOk(m)
    ensures var n := StopNext(m, key, reason);
            MachineOk(n) && Stopping(m, n) && IsRevoked(n.engine, key)
  {
    hide LogOk, Fired, Below, Revoke, EmitStopped, Answered, Owed, Ended;
    var callback := m.engine.issued;
    var owed := Owed(m.engine.capture);
    IssueOwes(m.engine, owed);
    SameLogs(m.engine, Issue(m.engine));
    RevokeKeeps(Issue(m.engine), key);
    var e := Revoke(Issue(m.engine), key);
    SameAnswers(Issue(m.engine), e, owed + multiset{callback});
    if key.generation < Through(e.latest, key.owner) {
      ReplyPays(e, callback, Some(StaleOwner), owed);
    } else if e.capture.None? || e.capture.value.key != key {
      EmitStoppedLogs(e, key, reason);
      EmitSpeaks(e, key, "", WakeArmed, reason);
      SameAnswers(e, EmitStopped(e, key, reason), owed + multiset{callback});
      ReplyPays(EmitStopped(e, key, reason), callback, None, owed);
    } else {
      StopsOwn(m, key, reason);
    }
  }

  lemma StopsOwn(m: Machine, key: SessionKey, reason: string)
    requires MachineOk(m) && m.engine.capture.Some? && m.engine.capture.value.key == key
    ensures var n := StopNext(m, key, reason);
            MachineOk(n) && Stopping(m, n) && IsRevoked(n.engine, key)
  {
    hide LogOk, Fired, Below, Revoke, Answered, Owed, Ended;
    var callback := m.engine.issued;
    IssueOwes(m.engine, Owed(m.engine.capture));
    SameLogs(m.engine, Issue(m.engine));
    RevokeKeeps(Issue(m.engine), key);
    var e := Revoke(Issue(m.engine), key);
    var c := e.capture.value;
    var told := c.(revoked := true, stopReason := if c.stopReason.None? then Some(reason) else c.stopReason,
                   waiters := c.waiters + [callback], told := true);
    WaiterIsOwed(c, told, callback);
    SameAnswers(Issue(m.engine), e, Owed(m.engine.capture) + multiset{callback});
    var asked := m.(engine := e.(capture := Some(told)));
    SameAnswers(e, asked.engine, Owed(Some(told)));
    SameLogs(e, asked.engine);
    if c.kind == Speech {
      EndedKeeps(asked, SpeechEnding("canceled", None));
    }
  }

  lemma SameAnswers(e: Engine, f: Engine, owed: multiset<nat>)
    requires Answered(e, owed) && f.answers == e.answers && f.issued == e.issued
    ensures Answered(f, owed)
  {
  }

  lemma WaiterIsOwed(c: Capture, d: Capture, callback: nat)
    requires d.start == c.start && d.waiters == c.waiters + [callback]
    ensures Owed(Some(d)) == Owed(Some(c)) + multiset{callback}
  {
  }

  lemma {:induction false} StopAllKeeps(m: Machine, order: seq<SessionKey>, reason: string)
    requires MachineOk(m)
    ensures var n := StopAll(m, order, reason);
            MachineOk(n) && Stopping(m, n) && AllRevoked(n.engine, order)
  {
    if order != [] {
      hide MachineOk, StopNext, IsRevoked, Stopping, AllRevoked;
      var front := StopAll(m, order[..|order| - 1], reason);
      StopAllKeeps(m, order[..|order| - 1], reason);
      StopKeeps(front, order[|order| - 1], reason);
      StoppingTransitive(m, front, StopAll(m, order, reason));
      OneMoreRevoked(front, StopAll(m, order, reason), order);
    }
  }

  lemma AwaitKeeps(m: Machine, key: SessionKey, op: string, ending: Option<Ending>)
    requires MachineOk(m)
    ensures var n := Await(m, key, op, ending);
            && MachineOk(n) && n.me == m.me && n.engine.foreground == m.engine.foreground && n.engine.closed == m.engine.closed
            && LeaseStep(m, n) && NoneNew(m.engine.capture, n.engine.capture)
  {
    hide LogOk, Fired, Below, IsStale, Ended, Answered, Owed;
    var callback := m.engine.issued;
    var owed := Owed(m.engine.capture);
    var e := Issue(m.engine);
    IssueOwes(m.engine, owed);
    SameLogs(m.engine, e);
    if IsStale(e, key) {
      ReplyPays(e, callback, Some(StaleOwner), owed);
    } else if !Addresses(e, key, op) {
      ReplyPays(e, callback, None, owed);
    } else {
      var c := e.capture.value;
      var waiter := c.(waiters := c.waiters + [callback], told := c.told || ending.Some?);
      var waiting := m.(engine := e.(capture := Some(waiter)));
      WaiterIsOwed(c, waiter, callback);
      SameAnswers(e, waiting.engine, Owed(Some(waiter)));
      SameLogs(e, waiting.engine);
      if ending.Some? {
        EndedKeeps(waiting, ending.value);
      }
    }
  }

  lemma StartAnsweredKeeps(m: Machine, failure: Option<Code>)
    requires MachineOk(m) && m.engine.capture.Some?
    ensures MachineOk(m.(engine := StartAnswered(m.engine, failure)))
  {
    hide LogOk, Fired;
    var c := m.engine.capture.value;
    AcknowledgeKeeps(m.engine, c, failure, multiset(c.waiters));
    var f := StartAnswered(m.engine, failure);
    SameLogs(AcknowledgeStart(m.engine, c, failure), f);
    assert Owed(f.capture) == multiset(c.waiters);
  }

  lemma EmitKeeps(m: Machine, key: SessionKey, op: string, what: What)
    requires MachineOk(m) && !what.Stopped?
    ensures MachineOk(m.(engine := Emit(m.engine, key, op, what)))
  {
    EmitLogs(m.engine, key, op, what);
    EmitSpeaks(m.engine, key, op, what, "");
    hide LogOk, Fired, Owed, Emit;
  }

  /** All sessions revoked means that a capture of theirs was told to cancel. */
  lemma AllRevokedIsHidden(m: Machine, n: Machine, order: seq<SessionKey>)
    requires MachineOk(n) && Lists(m.engine, order) && CaptureOk(m.engine) && NoneNew(m.engine.capture, n.engine.capture)
    requires AllRevoked(n.engine, order) && RevokedStay(m.engine, n.engine)
    ensures n.engine.capture.Some? ==> n.engine.capture.value.told
  {
    hide LogOk, Answered, LeaseOk;
  }

  lemma VisibilityKeeps(m: Machine, foreground: bool, closed: bool)
    requires MachineOk(m)
    ensures MachineOk(m.(engine := m.engine.(foreground := foreground, closed := closed)))
  {
    SameLogs(m.engine, m.engine.(foreground := foreground, closed := closed));
    hide LogOk, Fired;
  }

  lemma HideKeeps(m: Machine, order: seq<SessionKey>, closed: bool, reason: string)
    requires MachineOk(m) && Lists(m.engine, order)
    ensures var n := StopAll(m.(engine := m.engine.(foreground := false, closed := closed)), order, reason);
            MachineOk(n) && HiddenOk(n.engine) && n.me == m.me && LeaseStep(m, n)
  {
    hide LogOk, Answered, StopAll;
    VisibilityKeeps(m, false, closed);
    var f := m.(engine := m.engine.(foreground := false, closed := closed));
    StopAllKeeps(f, order, reason);
    AllRevokedIsHidden(f, StopAll(f, order, reason), order);
  }

  /** Every call keeps an engine in order: at the end of each, a hidden engine has told its capture to cancel. */
  lemma NextKeeps(m: Machine, call: Call)
    requires MachineOk(m) && HiddenOk(m.engine) && Possible(m.engine, call)
    ensures var n := Next(m, call); MachineOk(n) && HiddenOk(n.engine) && n.me == m.me && LeaseStep(m, n)
  {
    hide MachineOk, Claim, StopNext, StopAll, Await, Ended, Emit, Lists;
    match call
    case SetForeground(visible, order) =>
      VisibilityKeeps(m, visible && !m.engine.closed, m.engine.closed);
      HideKeeps(m, order, m.engine.closed, "background");
    case Close(order) => HideKeeps(m, order, true, "nativeDetached");
    case ArmWake(key, op, permitted) => ClaimKeeps(m, key, op, Wake, permitted, true);
    case RecognizeOnce(key, op, permitted, available) => ClaimKeeps(m, key, op, Speech, permitted, available);
    case WakeIsArmed(number) =>
      if Eligible(m.engine, number) {
        var c := m.engine.capture.value;
        EmitKeeps(m, c.key, c.op, WakeArmed);
        EmitSpeaks(m.engine, c.key, c.op, WakeArmed, "");
        StartAnsweredKeeps(m.(engine := Emit(m.engine, c.key, c.op, WakeArmed)), None);
      }
    case RecognitionStarted(number) =>
      if Holds(m.engine, number) { StartAnsweredKeeps(m, None); }
    case Says(number, event) =>
      if Eligible(m.engine, number) {
        var c := m.engine.capture.value;
        EmitKeeps(m, c.key, c.op, Said(event));
        EmitSpeaks(m.engine, c.key, c.op, Said(event), "");
      }
    case Ends(number, ending) =>
      if Holds(m.engine, number) { EndsKeeps(m, ending); }
    case FinishRecognition(key, op) => AwaitKeeps(m, key, op, None);
    case CancelRecognition(key, op, reason, failure) => AwaitKeeps(m, key, op, Some(SpeechEnding(reason, failure)));
    case Stop(key, reason) => StopKeeps(m, key, reason);
  }

  lemma EndsKeeps(m: Machine, ending: Ending)
    requires MachineOk(m) && m.engine.capture.Some?
    ensures var n := Ended(m, ending);
            && MachineOk(n) && n.engine.capture.None? && n.me == m.me && LeaseStep(m, n)
            && n.engine.foreground == m.engine.foreground && n.engine.closed == m.engine.closed
  {
    hide LogOk, Answered, Ended;
    EndedKeeps(m, ending);
  }
}
