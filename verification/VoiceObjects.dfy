/** The voice engine and the lease as the objects they are. The calls to completions and to the event sink
    are recorded in `answers` and `emitted`. */
module VoiceObjects {
  import opened Basics
  import opened Voice
  import opened VoiceRuns

  /** One cell for the whole process, changed by compare-and-set. */
  class NativeVoiceLease {
    var owner: Option<Token>

    constructor ()
      ensures owner == None
    {
      owner := None;
    }

    method Acquire(token: Token) returns (ok: bool)
      modifies this
      ensures ok == old(owner).None? && owner == if ok then Some(token) else old(owner)
    {
      ok := owner.None?;
      if ok { owner := Some(token); }
    }

    /** Releasing a lease that someone else holds would be an error. */
    method Release(token: Token)
      requires owner == Some(token)
      modifies this
      ensures owner == None
    {
      owner := None;
    }
  }

  class HandsFreeVoiceEngine {
    const me: nat
    const lease: NativeVoiceLease
    var sessions: map<SessionKey, Session>
    var latest: map<string, int>
    var revokedThrough: map<string, int>
    var capture: Option<Capture>
    var foreground: bool
    var closed: bool
    var nextCapture: nat
    var issued: nat
    var workerShut: bool
    ghost var answers: seq<Answer>
    ghost var emitted: seq<Emitted>

    ghost function Self(): Engine
      reads this
    {
      Engine(sessions, latest, revokedThrough, capture, foreground, closed, nextCapture, issued, answers, emitted)
    }

    ghost function View(): Machine
      reads this, lease
    {
      Machine(Self(), me, lease.owner)
    }

    ghost predicate Valid()
      reads this, lease
    {
      MachineOk(View())
    }

    /** The thread that joins captures is shut down when the engine is closed and holds none, and not before. */
    predicate WorkerOk()
      reads this
    {
      workerShut <==> closed && capture.None?
    }

    constructor (me: nat, lease: NativeVoiceLease)
      requires lease.owner.Some? ==> lease.owner.value.engine != me
      ensures this.lease == lease && this.me == me && Self() == NewEngine() && WorkerOk()
    {
      this.me := me;
      this.lease := lease;
      sessions, latest, revokedThrough, capture := map[], map[], map[], None;
      foreground, closed, nextCapture, issued, workerShut := false, false, 0, 0, false;
      answers, emitted := [], [];
    }

    // ---- Helpers ----

    method CallBack(callback: nat, failure: Option<Code>)
      modifies this`answers
      ensures Self() == Reply(old(Self()), callback, failure)
    {
      answers := answers + [Answer(callback, failure)];
    }

    method GetOrPut(key: SessionKey) returns (s: Session)
      modifies this`sessions
      ensures s == SessionOf(old(Self()), key) && Self() == Put(old(Self()), key, s)
    {
      if key !in sessions { sessions := sessions[key := Session(0, false, false, {})]; }
      s := sessions[key];
      assert sessions == old(sessions)[key := s];
    }

    method EmitEvent(key: SessionKey, op: string, what: What)
      modifies this`sessions, this`emitted
      ensures Self() == Emit(old(Self()), key, op, what)
    {
      var s := GetOrPut(key);
      sessions := sessions[key := s.(seqNo := s.seqNo + 1)];
      emitted := emitted + [Emitted(key, s.seqNo + 1, op, what)];
      assert sessions == old(sessions)[key := s.(seqNo := s.seqNo + 1)];
    }

    method MarkStopped(key: SessionKey, reason: string)
      requires key in sessions
      modifies this`sessions, this`emitted
      ensures Self() == EmitStopped(old(Self()), key, reason)
    {
      if sessions[key].stopped { return; }
      sessions := sessions[key := sessions[key].(stopped := true)];
      EmitEvent(key, "session", Stopped(reason));
    }

    method RevokeSession(key: SessionKey)
      modifies this`sessions, this`revokedThrough
      ensures Self() == Revoke(old(Self()), key) && key in sessions
    {
      var mark := if key.owner in revokedThrough then revokedThrough[key.owner] else -1;
      revokedThrough := revokedThrough[key.owner := if mark < key.generation then key.generation else mark];
      var s := GetOrPut(key);
      sessions := sessions[key := s.(revoked := true)];
      assert sessions == old(sessions)[key := s.(revoked := true)];
    }

    predicate Stale(key: SessionKey)
      reads this
    {
      || key.generation <= (if key.owner in revokedThrough then revokedThrough[key.owner] else -1)
      || key.generation < (if key.owner in latest then latest[key.owner] else -1)
      || (key in sessions && sessions[key].revoked)
    }

    lemma StaleIsStale()
      ensures forall key :: Stale(key) <==> IsStale(Self(), key)
    {
    }

    predicate MayStillSpeak(number: nat)
      reads this
    {
      && capture.Some? && capture.value.number == number && !capture.value.revoked
      && foreground && !closed && !Stale(capture.value.key)
    }

    lemma MayStillSpeakIsEligible(number: nat)
      ensures MayStillSpeak(number) <==> Eligible(Self(), number)
    {
    }

    method SettleCapture(c: Capture)
      requires c.key in sessions
      modifies this`sessions, this`emitted, this`answers
      ensures Self() == Settle(old(Self()), c)
    {
      hide Emit, EmitStopped;
      if c.stopReason.Some? { MarkStopped(c.key, c.stopReason.value); }
      ghost var stopped := Self();
      var i := 0;
      while i < |c.waiters|
        invariant 0 <= i <= |c.waiters|
        invariant Self() == ReplyAll(stopped, c.waiters[..i])
      {
        CallBack(c.waiters[i], None);
        i := i + 1;
        assert c.waiters[..i][..i - 1] == c.waiters[..i - 1];
      }
      assert c.waiters[..i] == c.waiters;
    }

    method FailCapture(c: Capture, failure: Code)
      modifies this`sessions, this`emitted, this`revokedThrough
      ensures Self() == Fail(old(Self()), c, failure)
    {
      RevokeSession(c.key);
      EmitEvent(c.key, c.op, FatalError(failure));
    }

    method ReportEnding(c: Capture, ending: Ending)
      modifies this`sessions, this`emitted, this`revokedThrough
      ensures Self() == Report(old(Self()), c, ending)
    {
      hide Emit, Fail;
      match ending {
        case WakeEnding(detected, failure) =>
          if failure.Some? {
            FailCapture(c, failure.value);
          } else if detected {
            EmitEvent(c.key, c.op, WakeDetected);
          }
        case SpeechEnding(reason, failure) =>
          EmitEvent(c.key, c.op, RecognitionEnded(reason));
          if failure.Some? { FailCapture(c, failure.value); }
      }
    }

    /** The native side reports that it is done. */
    method CaptureEnded(ending: Ending)
      requires capture.Some? && capture.value.key in sessions && lease.owner == Some(Token(me, capture.value.number))
      modifies this, lease
      ensures View() == Ended(old(View()), ending)
      ensures capture.None? && lease.owner.None?
      ensures closed == old(closed) && workerShut == (old(workerShut) || closed)
    {
      hide Report, Settle, Eligible;
      var c := capture.value;
      MayStillSpeakIsEligible(c.number);
      var deliver := MayStillSpeak(c.number);
      capture := None;
      lease.Release(Token(me, c.number));
      if closed { workerShut := true; }
      if c.start.Some? { CallBack(c.start.value, if deliver then ending.failure else Some(StaleOwner)); }
      if deliver { ReportEnding(c, ending); }
      SessionsStay(old(View()), ending);
      SettleCapture(c);
    }

    /** The session of a capture is still in the table when the capture settles. */
    lemma SessionsStay(m: Machine, ending: Ending)
      requires m.engine.capture.Some? && m.engine.capture.value.key in m.engine.sessions
      ensures var c := m.engine.capture.value;
              var e := AcknowledgeStart(Release(m, c).engine, c, if Eligible(m.engine, c.number) then ending.failure else Some(StaleOwner));
              c.key in (if Eligible(m.engine, c.number) then Report(e, c, ending) else e).sessions
    {
    }

    /** A stop shuts the worker only where it ends the capture of a closed engine. */
    predicate StopLeavesWorker(was: Option<Capture>, shut: bool)
      reads this
    {
      && (was.None? ==> capture.None?)
      && (workerShut <==> shut || (closed && was.Some? && capture.None?))
    }

    // ---- Calls ----

    /** What already speaks against a claim, most telling first. */
    method FirstRefusal(key: SessionKey, kind: Kind, permitted: bool, available: bool) returns (refusal: Option<Code>)
      ensures refusal == Refusal(Self(), key, kind, permitted, available)
      ensures refusal.None? ==> capture.None? && !closed
    {
      hide Stale, IsStale;
      StaleIsStale();
      refusal :=
        if closed || !foreground then Some(NotForeground)
        else if Stale(key) then Some(StaleOwner)
        else if !permitted then Some(PermissionDenied)
        else if capture.Some? then Some(AudioBusy)
        else if kind == Speech && !available then Some(RecognizerUnavailable)
        else None;
    }

    /** An operation of a session is used once. */
    method UseOperation(key: SessionKey, op: string) returns (unused: bool)
      modifies this`sessions
      ensures var s := SessionOf(old(Self()), key);
              unused == (op !in s.used) && Self() == Put(old(Self()), key, if unused then s.(used := s.used + {op}) else s)
    {
      var s := GetOrPut(key);
      unused := op !in s.used;
      if unused {
        sessions := sessions[key := s.(used := s.used + {op})];
        assert sessions == old(sessions)[key := s.(used := s.used + {op})];
      }
    }

    method ClaimCapture(key: SessionKey, op: string, kind: Kind, permitted: bool, available: bool) returns (owned: Option<nat>)
      requires Valid()
      modifies this, lease
      ensures Valid() && View() == Claim(old(View()), key, op, kind, permitted, available)
      ensures old(WorkerOk()) ==> WorkerOk()
      ensures owned.Some? <==> old(capture).None? && capture.Some?
      ensures owned.Some? ==> Holds(Self(), owned.value)
    {
      hide MachineOk, IsStale, Refusal;
      ClaimKeeps(View(), key, op, kind, permitted, available);
      var callback := issued;
      issued := issued + 1;
      var refusal := FirstRefusal(key, kind, permitted, available);
      if refusal.Some? {
        CallBack(callback, refusal);
        return None;
      }
      var unused := UseOperation(key, op);
      if !unused {
        CallBack(callback, Some(StaleOwner));
        return None;
      }
      var ok := lease.Acquire(Token(me, nextCapture));
      if !ok {
        CallBack(callback, Some(AudioBusy));
        return None;
      }
      latest := latest[key.owner := key.generation];
      capture := Some(Capture(nextCapture, key, op, kind, Some(callback), false, [], None, false));
      owned := Some(nextCapture);
      nextCapture := nextCapture + 1;
    }

    method StopSession(key: SessionKey, reason: string)
      requires Valid()
      modifies this, lease
      ensures Valid() && View() == StopNext(old(View()), key, reason)
      ensures closed == old(closed) && foreground == old(foreground) && StopLeavesWorker(old(capture), old(workerShut))
    {
      hide MachineOk, Revoke, EmitStopped, Ended;
      StopKeeps(View(), key, reason);
      OwnedIsLeased();
      var callback := issued;
      issued := issued + 1;
      RevokeSession(key);
      RevokeKeepsCapture(old(Self()), key);
      if key.generation < (if key.owner in latest then latest[key.owner] else -1) {
        CallBack(callback, Some(StaleOwner));
        return;
      }
      if capture.None? || capture.value.key != key {
        MarkStopped(key, reason);
        CallBack(callback, None);
        return;
      }
      var c := capture.value;
      capture := Some(c.(revoked := true, stopReason := if c.stopReason.None? then Some(reason) else c.stopReason,
                         waiters := c.waiters + [callback], told := true));
      if c.kind == Speech { CaptureEnded(SpeechEnding("canceled", None)); }
    }

    lemma RevokeKeepsCapture(e: Engine, key: SessionKey)
      ensures Revoke(Issue(e), key).capture == e.capture && Revoke(Issue(e), key).latest == e.latest
    {
    }

    lemma OwnedIsLeased()
      requires Valid()
      ensures capture.Some? ==> capture.value.key in sessions && lease.owner == Some(Token(me, capture.value.number))
    {
    }

    /** Stop every session that is not revoked, in some order. */
    method RevokeAll(reason: string) returns (ghost order: seq<SessionKey>)
      requires Valid()
      modifies this, lease
      ensures Lists(old(Self()), order) && Valid() && View() == StopAll(old(View()), order, reason)
      ensures closed == old(closed) && foreground == old(foreground) && StopLeavesWorker(old(capture), old(workerShut))
    {
      hide MachineOk, StopNext;
      var keys := LiveSessions();
      order := keys;
      var i := 0;
      while i < |keys|
        invariant 0 <= i <= |keys|
        invariant Valid() && View() == StopAll(old(View()), keys[..i], reason)
        invariant closed == old(closed) && foreground == old(foreground) && StopLeavesWorker(old(capture), old(workerShut))
      {
        StopSession(keys[i], reason);
        i := i + 1;
        assert keys[..i][..i - 1] == keys[..i - 1];
      }
      assert keys[..i] == keys;
    }

    method LiveSessions() returns (keys: seq<SessionKey>)
      ensures Lists(Self(), keys)
    {
      keys := [];
      var left := sessions.Keys;
      while left != {}
        invariant left <= sessions.Keys
        invariant forall k :: k in keys <==> k in sessions && k !in left && !sessions[k].revoked
        invariant forall i, j :: 0 <= i < j < |keys| ==> keys[i] != keys[j]
        decreases |left|
      {
        var k :| k in left;
        if !sessions[k].revoked { keys := keys + [k]; }
        left := left - {k};
      }
    }

    method ChangeForeground(visible: bool) returns (ghost order: seq<SessionKey>)
      requires Valid() && HiddenOk(Self())
      modifies this, lease
      ensures Possible(old(Self()), SetForeground(visible, order))
      ensures View() == Next(old(View()), SetForeground(visible, order)) && Valid() && HiddenOk(Self())
      ensures old(WorkerOk()) ==> WorkerOk()
      ensures capture.Some? && !foreground ==> capture.value.told
    {
      hide MachineOk, StopAll;
      var keys := LiveSessions();
      order := keys;
      NextKeeps(View(), SetForeground(visible, order));
      VisibilityKeeps(View(), visible && !closed, closed);
      foreground := visible && !closed;
      if !foreground { order := RevokeAll("background"); NextKeeps(old(View()), SetForeground(visible, order)); }
    }

    method CloseEngine() returns (ghost order: seq<SessionKey>)
      requires Valid() && HiddenOk(Self())
      modifies this, lease
      ensures Possible(old(Self()), Close(order))
      ensures View() == Next(old(View()), Close(order)) && Valid() && HiddenOk(Self())
      ensures closed && (capture.Some? ==> capture.value.told) && (old(WorkerOk()) ==> WorkerOk())
    {
      hide MachineOk, StopAll;
      var keys := LiveSessions();
      order := keys;
      if closed { return; }
      VisibilityKeeps(View(), false, true);
      closed := true;
      foreground := false;
      order := RevokeAll("nativeDetached");
      if capture.None? { workerShut := true; }
      NextKeeps(old(View()), Close(order));
    }

    /** `ending` is how a cancelled recognizer ends within the call; finishing one does not end it yet. */
    method AwaitRecognition(key: SessionKey, op: string, ending: Option<Ending>)
      requires Valid()
      modifies this, lease
      ensures Valid() && View() == Await(old(View()), key, op, ending)
      ensures old(WorkerOk()) ==> WorkerOk()
    {
      hide MachineOk, Ended, Stale, IsStale;
      AwaitKeeps(View(), key, op, ending);
      OwnedIsLeased();
      var callback := issued;
      issued := issued + 1;
      StaleIsStale();
      if Stale(key) {
        CallBack(callback, Some(StaleOwner));
        return;
      }
      if capture.None? || capture.value.key != key || capture.value.op != op || capture.value.kind != Speech {
        CallBack(callback, None);
        return;
      }
      var c := capture.value;
      capture := Some(c.(waiters := c.waiters + [callback], told := c.told || ending.Some?));
      if ending.Some? { CaptureEnded(ending.value); }
    }

    method OnWakeArmed(number: nat)
      requires Valid() && HiddenOk(Self())
      modifies this
      ensures Valid() && View() == Next(old(View()), WakeIsArmed(number))
      ensures old(WorkerOk()) ==> WorkerOk()
    {
      hide MachineOk, Emit, Eligible;
      NextKeeps(View(), WakeIsArmed(number));
      OwnedIsLeased();
      MayStillSpeakIsEligible(number);
      if !MayStillSpeak(number) { return; }
      var c := capture.value;
      EmitEvent(c.key, c.op, WakeArmed);
      EmitSpeaks(old(Self()), c.key, c.op, WakeArmed, "");
      if c.start.Some? { CallBack(c.start.value, None); }
      capture := Some(c.(start := None));
    }

    method OnRecognitionStarted(number: nat)
      requires Valid()
      modifies this
      ensures View() == Next(old(View()), RecognitionStarted(number))
      ensures old(WorkerOk()) ==> WorkerOk()
    {
      if capture.None? || capture.value.number != number { return; }
      var c := capture.value;
      if c.start.Some? { CallBack(c.start.value, None); }
      capture := Some(c.(start := None));
    }

    method OnRecognizerEvent(number: nat, event: string)
      requires Valid()
      modifies this
      ensures View() == Next(old(View()), Says(number, event))
      ensures old(WorkerOk()) ==> WorkerOk()
    {
      hide MachineOk, Emit, Eligible;
      OwnedIsLeased();
      MayStillSpeakIsEligible(number);
      if MayStillSpeak(number) { EmitEvent(capture.value.key, capture.value.op, Said(event)); }
    }

    method OnCaptureEnded(number: nat, ending: Ending)
      requires Valid()
      modifies this, lease
      ensures Valid() && View() == Next(old(View()), Ends(number, ending))
      ensures old(WorkerOk()) ==> WorkerOk()
      ensures old(Holds(Self(), number)) ==> capture.None? && lease.owner.None?
    {
      hide MachineOk, Ended;
      OwnedIsLeased();
      if capture.None? || capture.value.number != number { return; }
      EndsKeeps(View(), ending);
      CaptureEnded(ending);
    }
  }
}
