/** Native voice capture: engines that share one microphone lease, sessions fenced by generations, and
    completions that are answered once. */
module Voice {
  import opened Basics

  datatype SessionKey = SessionKey(owner: string, generation: int)

  datatype Code = NotForeground | StaleOwner | PermissionDenied | AudioBusy | RecognizerUnavailable | OtherFailure(code: string)

  /** A completion called back, with its failure if any. */
  datatype Answer = Answer(callback: nat, failure: Option<Code>)

  datatype What = WakeArmed | WakeDetected | Said(event: string) | RecognitionEnded(reason: string) | FatalError(code: Code) | Stopped(reason: string)

  datatype Emitted = Emitted(key: SessionKey, number: nat, op: string, what: What)

  datatype Session = Session(seqNo: nat, revoked: bool, stopped: bool, used: set<string>)

  datatype Kind = Wake | Speech

  /** `told` records that the native side was told to cancel. */
  datatype Capture = Capture(
    number: nat,
    key: SessionKey,
    op: string,
    kind: Kind,
    start: Option<nat>,
    revoked: bool,
    waiters: seq<nat>,
    stopReason: Option<string>,
    told: bool)

  datatype Engine = Engine(
    sessions: map<SessionKey, Session>,
    latest: map<string, int>,
    revokedThrough: map<string, int>,
    capture: Option<Capture>,
    foreground: bool,
    closed: bool,
    nextCapture: nat,
    issued: nat,
    answers: seq<Answer>,
    emitted: seq<Emitted>)

  /** The capture that holds the process-wide lease. */
  datatype Token = Token(engine: nat, capture: nat)

  /** One engine, its number, and the lease it shares with the others. */
  datatype Machine = Machine(engine: Engine, me: nat, lease: Option<Token>)

  function NewEngine(): Engine {
    Engine(map[], map[], map[], None, false, false, 0, 0, [], [])
  }

  // ---- Reading ----

  function Through(marks: map<string, int>, owner: string): int {
    if owner in marks then marks[owner] else -1
  }

  function SessionOf(e: Engine, key: SessionKey): Session {
    if key in e.sessions then e.sessions[key] else Session(0, false, false, {})
  }

  predicate IsStale(e: Engine, key: SessionKey) {
    key.generation <= Through(e.revokedThrough, key.owner) || key.generation < Through(e.latest, key.owner) || SessionOf(e, key).revoked
  }

  predicate Holds(e: Engine, number: nat) {
    e.capture.Some? && e.capture.value.number == number
  }

  /** The capture may still speak for its session. */
  predicate Eligible(e: Engine, number: nat) {
    && Holds(e, number) && !e.capture.value.revoked && !SessionOf(e, e.capture.value.key).revoked
    && e.foreground && !e.closed && !IsStale(e, e.capture.value.key)
  }

  // ---- Small steps ----

  function Reply(e: Engine, callback: nat, failure: Option<Code>): Engine {
    e.(answers := e.answers + [Answer(callback, failure)])
  }

  function ReplyAll(e: Engine, callbacks: seq<nat>): Engine {
    if callbacks == [] then e
    else Reply(ReplyAll(e, callbacks[..|callbacks| - 1]), callbacks[|callbacks| - 1], None)
  }

  function Put(e: Engine, key: SessionKey, s: Session): Engine {
    e.(sessions := e.sessions[key := s])
  }

  function Emit(e: Engine, key: SessionKey, op: string, what: What): Engine {
    var s := SessionOf(e, key);
    Put(e, key, s.(seqNo := s.seqNo + 1)).(emitted := e.emitted + [Emitted(key, s.seqNo + 1, op, what)])
  }

  function EmitStopped(e: Engine, key: SessionKey, reason: string): Engine {
    var s := SessionOf(e, key);
    if s.stopped then e else Emit(Put(e, key, s.(stopped := true)), key, "session", Stopped(reason))
  }

  function Revoke(e: Engine, key: SessionKey): Engine {
    var mark := if Through(e.revokedThrough, key.owner) < key.generation then key.generation else Through(e.revokedThrough, key.owner);
    Put(e.(revokedThrough := e.revokedThrough[key.owner := mark]), key, SessionOf(e, key).(revoked := true))
  }

  function Fail(e: Engine, c: Capture, failure: Code): Engine {
    Emit(Revoke(e, c.key), c.key, c.op, FatalError(failure))
  }

  function AcknowledgeStart(e: Engine, c: Capture, failure: Option<Code>): Engine {
    if c.start.None? then e else Reply(e, c.start.value, failure)
  }

  /** Release is a compare-and-set; it would fail if another capture held the lease. */
  function Release(m: Machine, c: Capture): Machine {
    m.(engine := m.engine.(capture := None), lease := if m.lease == Some(Token(m.me, c.number)) then None else m.lease)
  }

  function Settle(e: Engine, c: Capture): Engine {
    ReplyAll(if c.stopReason.Some? then EmitStopped(e, c.key, c.stopReason.value) else e, c.waiters)
  }

  /** What the end of a capture is worth to its session. */
  datatype Ending = WakeEnding(detected: bool, failure: Option<Code>) | SpeechEnding(reason: string, failure: Option<Code>)

  function Report(e: Engine, c: Capture, ending: Ending): Engine {
    match ending
    case WakeEnding(detected, failure) =>
      if failure.Some? then Fail(e, c, failure.value)
      else if detected then Emit(e, c.key, c.op, WakeDetected) else e
    case SpeechEnding(reason, failure) =>
      var told := Emit(e, c.key, c.op, RecognitionEnded(reason));
      if failure.Some? then Fail(told, c, failure.value) else told
  }

  /** The native side is done: the lease goes first, then the start's completion, the session's events and
      the waiters. */
  function Ended(m: Machine, ending: Ending): Machine
    requires m.engine.capture.Some?
  {
    var c := m.engine.capture.value;
    var deliver := Eligible(m.engine, c.number);
    var released := Release(m, c);
    var acknowledged := AcknowledgeStart(released.engine, c, if deliver then ending.failure else Some(StaleOwner));
    released.(engine := Settle(if deliver then Report(acknowledged, c, ending) else acknowledged, c))
  }

  // ---- Calls ----

  function Issue(e: Engine): Engine {
    e.(issued := e.issued + 1)
  }

  function Refusal(e: Engine, key: SessionKey, kind: Kind, permitted: bool, available: bool): Option<Code> {
    if e.closed || !e.foreground then Some(NotForeground)
    else if IsStale(e, key) then Some(StaleOwner)
    else if !permitted then Some(PermissionDenied)
    else if e.capture.Some? then Some(AudioBusy)
    else if kind == Speech && !available then Some(RecognizerUnavailable)
    else None
  }

  function Claim(m: Machine, key: SessionKey, op: string, kind: Kind, permitted: bool, available: bool): Machine {
    var callback := m.engine.issued;
    var e := Issue(m.engine);
    var refusal := Refusal(e, key, kind, permitted, available);
    if refusal.Some? then m.(engine := Reply(e, callback, refusal))
    else
      var s := SessionOf(e, key);
      if op in s.used then m.(engine := Reply(Put(e, key, s), callback, Some(StaleOwner)))
      else
        var noted := Put(e, key, s.(used := s.used + {op}));
        if m.lease.Some? then m.(engine := Reply(noted, callback, Some(AudioBusy)))
        else
          var c := Capture(noted.nextCapture, key, op, kind, Some(callback), false, [], None, false);
          m.(engine := noted.(latest := noted.latest[key.owner := key.generation], capture := Some(c), nextCapture := noted.nextCapture + 1),
             lease := Some(Token(m.me, c.number)))
  }

  /** Revoke a session; cancelling a speech capture ends it within the call. */
  function StopNext(m: Machine, key: SessionKey, reason: string): Machine {
    var callback := m.engine.issued;
    var e := Revoke(Issue(m.engine), key);
    if key.generation < Through(e.latest, key.owner) then m.(engine := Reply(e, callback, Some(StaleOwner)))
    else if e.capture.None? || e.capture.value.key != key then m.(engine := Reply(EmitStopped(e, key, reason), callback, None))
    else
      var c := e.capture.value;
      var told := c.(revoked := true, stopReason := if c.stopReason.None? then Some(reason) else c.stopReason,
                     waiters := c.waiters + [callback], told := true);
      var asked := m.(engine := e.(capture := Some(told)));
      if c.kind == Wake then asked else Ended(asked, SpeechEnding("canceled", None))
  }

  /** Sessions are stopped one after the other, in the table's order. */
  function StopAll(m: Machine, order: seq<SessionKey>, reason: string): Machine {
    if order == [] then m else StopNext(StopAll(m, order[..|order| - 1], reason), order[|order| - 1], reason)
  }

  ghost predicate Lists(e: Engine, order: seq<SessionKey>) {
    && (forall k :: k in order <==> k in e.sessions && !e.sessions[k].revoked)
    && forall i, j :: 0 <= i < j < |order| ==> order[i] != order[j]
  }

  predicate Addresses(e: Engine, key: SessionKey, op: string) {
    e.capture.Some? && e.capture.value.key == key && e.capture.value.op == op && e.capture.value.kind == Speech
  }

  /** Ask the running recognition to finish or to cancel, and wait for it. */
  function Await(m: Machine, key: SessionKey, op: string, ending: Option<Ending>): Machine {
    var callback := m.engine.issued;
    var e := Issue(m.engine);
    if IsStale(e, key) then m.(engine := Reply(e, callback, Some(StaleOwner)))
    else if !Addresses(e, key, op) then m.(engine := Reply(e, callback, None))
    else
      var c := e.capture.value;
      var waiting := m.(engine := e.(capture := Some(c.(waiters := c.waiters + [callback], told := c.told || ending.Some?))));
      if ending.None? then waiting else Ended(waiting, ending.value)
  }

  datatype Call =
    | SetForeground(visible: bool, order: seq<SessionKey>)
    | Close(order: seq<SessionKey>)
    | ArmWake(key: SessionKey, op: string, permitted: bool)
    | RecognizeOnce(key: SessionKey, op: string, permitted: bool, available: bool)
    | WakeIsArmed(number: nat)
    | RecognitionStarted(number: nat)
    | Says(number: nat, event: string)
    | Ends(number: nat, ending: Ending)
    | FinishRecognition(key: SessionKey, op: string)
    | CancelRecognition(key: SessionKey, op: string, reason: string, failure: Option<Code>)
    | Stop(key: SessionKey, reason: string)

  function StartAnswered(e: Engine, failure: Option<Code>): Engine
    requires e.capture.Some?
  {
    var c := e.capture.value;
    AcknowledgeStart(e, c, failure).(capture := Some(c.(start := None)))
  }

  function Next(m: Machine, call: Call): Machine {
    var e := m.engine;
    match call
    case SetForeground(visible, order) =>
      var f := m.(engine := e.(foreground := visible && !e.closed));
      if f.engine.foreground then f else StopAll(f, order, "background")
    case Close(order) => if e.closed then m else StopAll(m.(engine := e.(closed := true, foreground := false)), order, "nativeDetached")
    case ArmWake(key, op, permitted) => Claim(m, key, op, Wake, permitted, true)
    case RecognizeOnce(key, op, permitted, available) => Claim(m, key, op, Speech, permitted, available)
    case WakeIsArmed(number) =>
      if !Eligible(e, number) then m
      else m.(engine := StartAnswered(Emit(e, e.capture.value.key, e.capture.value.op, WakeArmed), None))
    case RecognitionStarted(number) => if !Holds(e, number) then m else m.(engine := StartAnswered(e, None))
    case Says(number, event) =>
      if !Eligible(e, number) then m else m.(engine := Emit(e, e.capture.value.key, e.capture.value.op, Said(event)))
    case Ends(number, ending) => if !Holds(e, number) then m else Ended(m, ending)
    case FinishRecognition(key, op) => Await(m, key, op, None)
    case CancelRecognition(key, op, reason, failure) => Await(m, key, op, Some(SpeechEnding(reason, failure)))
    case Stop(key, reason) => StopNext(m, key, reason)
  }

  /** The loops over sessions visit those that are not revoked. */
  ghost predicate Possible(e: Engine, call: Call) {
    match call
    case SetForeground(_, order) => Lists(e, order)
    case Close(order) => Lists(e, order)
    case _ => true
  }
}
