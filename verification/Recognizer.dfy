/** One utterance of the platform's speech recognizer: four timers, callbacks in any order, and a single
    way out. */
module Recognizer {
  import opened Basics

  const READINESS_MS: int := 5000
  const FINAL_GRACE_MS: int := 2000

  datatype Purpose = Manual | HandsFreeInitial | HandsFreeFollowup

  datatype Request = Request(purpose: Purpose, listenForMs: int, pauseForMs: int, noSpeechTimeoutMs: Option<int>) {
    /** What the constructor of a request insists on. */
    predicate Valid() {
      && 1 <= listenForMs <= (if purpose == Manual then 60000 else 30000)
      && 0 <= pauseForMs <= 60000
      && (noSpeechTimeoutMs.Some? ==> 0 <= noSpeechTimeoutMs.value <= 30000)
      && (purpose == HandsFreeFollowup <==> noSpeechTimeoutMs.Some?)
    }
  }

  datatype Reason = Deadline | Failed | Canceled | NoSpeech | Empty | Final

  datatype Failure =
    | PermissionDenied | RecognizerUnavailable | RecognizerAudio | RecognizerDeadline | RecognizerNetwork | RecognizerBusy

  datatype Outcome = Outcome(reason: Reason, hadNativeFinal: bool, failure: Option<Failure>)

  datatype Event = RecognitionReady | SpeechStarted | SpeechResult(text: string, isFinal: bool)

  /** A timer is present with its deadline while it is pending. The last four fields record what the
      recognizer has done to the outside. */
  datatype State = State(
    held: bool,
    ending: bool,
    ready: bool,
    speechBegan: bool,
    finishing: bool,
    readiness: Option<int>,
    noSpeech: Option<int>,
    utterance: Option<int>,
    finalGrace: Option<int>,
    created: nat,
    destroyed: nat,
    events: seq<Event>,
    outcomes: seq<Outcome>)

  function Inert(): State {
    State(false, false, false, false, false, None, None, None, None, 0, 0, [], [])
  }

  /** How the platform misbehaves during one call. */
  datatype Quirks = Quirks(factoryFails: bool, listenFails: bool, security: bool, stopFails: bool, cancelFails: bool, destroyFails: bool)

  datatype Call =
    | Start
    | Finish
    | Cancel
    | Ready
    | BeginningOfSpeech
    | EndOfSpeech
    | Partial(text: string)
    | Results(text: string, blank: bool)
    | ErrorNoMatch
    | ErrorSpeechTimeout
    | ErrorOther(failure: Failure)
    | ReadinessFires
    | NoSpeechFires
    | UtteranceFires
    | FinalGraceFires

  /** The error codes that the platform reports and the recognizer tells apart. */
  datatype PlatformError =
    | NoMatch | SpeechTimeout | InsufficientPermissions | Network | NetworkTimeout | Server | ServerDisconnected
    | Busy | LanguageNotSupported | LanguageUnavailable | Unlisted(code: int)

  function FailureOf(error: PlatformError): Failure {
    match error
    case InsufficientPermissions => PermissionDenied
    case Network | NetworkTimeout | Server | ServerDisconnected => RecognizerNetwork
    case Busy => RecognizerBusy
    case LanguageNotSupported | LanguageUnavailable => RecognizerUnavailable
    case _ => RecognizerAudio
  }

  /** Hearing nothing that fits, and hearing nothing in time, are no failures. */
  function ErrorCall(error: PlatformError): Call {
    match error
    case NoMatch => ErrorNoMatch
    case SpeechTimeout => ErrorSpeechTimeout
    case _ => ErrorOther(FailureOf(error))
  }

  // ---- Steps ----

  function CancelCaptureTimers(s: State): State {
    s.(readiness := None, noSpeech := None, utterance := None)
  }

  function StartFinalGrace(s: State, now: int): State {
    if s.finalGrace.Some? then s else s.(finalGrace := Some(now + FINAL_GRACE_MS))
  }

  /** The only exit. */
  function Complete(s: State, reason: Reason, nativeFinal: bool, failure: Option<Failure>, cancel: bool, q: Quirks): State {
    if s.ending then s
    else
      var broken := s.held && ((cancel && q.cancelFails) || q.destroyFails);
      var terminal := if broken then Some(RecognizerAudio) else failure;
      CancelCaptureTimers(s).(
        ending := true, finalGrace := None, held := false, destroyed := if s.held then s.destroyed + 1 else s.destroyed,
        outcomes := s.outcomes + [Outcome(if terminal.Some? && failure.None? then Failed else reason, nativeFinal, terminal)])
  }

  function Deadlined(s: State, q: Quirks): State {
    Complete(s, Deadline, false, Some(RecognizerDeadline), true, q)
  }

  function StartNext(s: State, now: int, q: Quirks): State {
    var failure := if q.security then PermissionDenied else RecognizerUnavailable;
    if q.factoryFails then Complete(s, Failed, false, Some(failure), true, q)
    else
      var listening := s.(held := true, created := s.created + 1, readiness := Some(now + READINESS_MS));
      if q.listenFails then Complete(listening, Failed, false, Some(failure), true, q) else listening
  }

  function FinishNext(s: State, now: int, q: Quirks): State {
    if s.ending || s.finishing then s
    else
      var f := StartFinalGrace(CancelCaptureTimers(s.(finishing := true)), now);
      if q.stopFails && s.held then Complete(f, Failed, false, Some(RecognizerAudio), true, q) else f
  }

  function ReadyNext(s: State, request: Request, now: int): State {
    if s.ending || s.finishing || s.ready then s
    else
      var r := s.(ready := true, readiness := None, events := s.events + [RecognitionReady]);
      if s.speechBegan then r
      else r.(utterance := Some(now + request.listenForMs),
              noSpeech := if request.noSpeechTimeoutMs.Some? then Some(now + request.noSpeechTimeoutMs.value) else s.noSpeech)
  }

  function BeginningNext(s: State, request: Request, now: int): State {
    if s.ending || s.finishing || s.speechBegan then s
    else CancelCaptureTimers(s).(speechBegan := true, utterance := Some(now + request.listenForMs), events := s.events + [SpeechStarted])
  }

  function EndOfSpeechNext(s: State, now: int): State {
    if s.ending then s else StartFinalGrace(CancelCaptureTimers(s.(finishing := true)), now)
  }

  function ResultsNext(s: State, text: string, blank: bool, q: Quirks): State {
    if s.ending then s
    else Complete(s.(events := s.events + [SpeechResult(text, true)]), if blank then Empty else Final, true, None, false, q)
  }

  function Next(s: State, request: Request, call: Call, now: int, q: Quirks): State {
    match call
    case Start => StartNext(s, now, q)
    case Finish => FinishNext(s, now, q)
    case Cancel => Complete(s, Canceled, false, None, true, q)
    case Ready => ReadyNext(s, request, now)
    case BeginningOfSpeech => BeginningNext(s, request, now)
    case EndOfSpeech => EndOfSpeechNext(s, now)
    case Partial(text) => if s.ending then s else s.(events := s.events + [SpeechResult(text, false)])
    case Results(text, blank) => ResultsNext(s, text, blank, q)
    case ErrorNoMatch => Complete(s, Empty, false, None, false, q)
    case ErrorSpeechTimeout => Complete(s, NoSpeech, false, None, false, q)
    case ErrorOther(failure) => Complete(s, Failed, false, Some(failure), false, q)
    case ReadinessFires => Deadlined(s, q)
    case NoSpeechFires => Complete(s, NoSpeech, false, None, true, q)
    case UtteranceFires => FinishNext(s, now, q)
    case FinalGraceFires => Deadlined(s, q)
  }

  /** Started once, and a timer fires only while it is pending and not before its deadline. */
  predicate Possible(s: State, call: Call, now: int) {
    match call
    case Start => !s.held && !s.ending
    case ReadinessFires => s.readiness.Some? && s.readiness.value <= now
    case NoSpeechFires => s.noSpeech.Some? && s.noSpeech.value <= now
    case UtteranceFires => s.utterance.Some? && s.utterance.value <= now
    case FinalGraceFires => s.finalGrace.Some? && s.finalGrace.value <= now
    case _ => true
  }

  datatype Step = Step(call: Call, now: int, quirks: Quirks)

  function After(request: Request, steps: seq<Step>): State {
    if steps == [] then Inert()
    else
      var last := steps[|steps| - 1];
      Next(After(request, steps[..|steps| - 1]), request, last.call, last.now, last.quirks)
  }

  /** Any callbacks in any order after a start, in the order of the clock. */
  predicate Run(request: Request, steps: seq<Step>) {
    && steps != [] && steps[0].call == Start
    && (forall k :: 0 < k < |steps| ==> steps[k].call != Start && steps[k - 1].now <= steps[k].now)
    && forall k :: 0 <= k < |steps| ==> Possible(After(request, steps[..k]), steps[k].call, steps[k].now)
  }

  predicate NotPast(timer: Option<int>, now: int) {
    timer.Some? ==> now <= timer.value
  }

  predicate NonePast(s: State, now: int) {
    NotPast(s.readiness, now) && NotPast(s.noSpeech, now) && NotPast(s.utterance, now) && NotPast(s.finalGrace, now)
  }

  /** Timers fire on time: nothing happens while a pending timer is overdue. */
  predicate OnTime(request: Request, steps: seq<Step>) {
    forall k :: 0 <= k < |steps| ==> NonePast(After(request, steps[..k]), steps[k].now)
  }

  // ---- One exit ----

  ghost predicate ExitOk(s: State) {
    && |s.outcomes| == (if s.ending then 1 else 0)
    && s.created <= 1 && s.destroyed == (if s.held then 0 else s.created)
    && (s.held ==> s.created == 1)
    && (s.ending ==> !s.held && s.readiness.None? && s.noSpeech.None? && s.utterance.None? && s.finalGrace.None?)
    && (forall k :: 0 <= k < |s.events| && s.events[k].SpeechResult? && s.events[k].isFinal ==> k == |s.events| - 1 && s.ending)
    && (s.ending ==> OutcomeOk(s.outcomes[0], s.events))
  }

  predicate HasFinal(events: seq<Event>) {
    events != [] && events[|events| - 1].SpeechResult? && events[|events| - 1].isFinal
  }

  /** A failure comes with the reasons that mean one, and a native final with the final result. */
  predicate OutcomeOk(o: Outcome, events: seq<Event>) {
    && (o.failure.Some? <==> o.reason == Deadline || o.reason == Failed)
    && (o.hadNativeFinal <==> HasFinal(events))
  }

  ghost predicate Started(s: State) {
    s.ending || s.held
  }

  lemma ResultsExit(s: State, text: string, blank: bool, q: Quirks)
    requires ExitOk(s)
    ensures ExitOk(ResultsNext(s, text, blank, q)) && (Started(s) ==> Started(ResultsNext(s, text, blank, q)))
  {
  }

  lemma CompleteExits(s: State, reason: Reason, failure: Option<Failure>, cancel: bool, q: Quirks)
    requires ExitOk(s) && (failure.Some? <==> reason == Deadline || reason == Failed)
    ensures ExitOk(Complete(s, reason, false, failure, cancel, q)) && Started(Complete(s, reason, false, failure, cancel, q))
  {
  }

  lemma FinishExits(s: State, now: int, q: Quirks)
    requires ExitOk(s)
    ensures ExitOk(FinishNext(s, now, q)) && (Started(s) ==> Started(FinishNext(s, now, q)))
  {
  }

  lemma NextKeepsExit(s: State, request: Request, call: Call, now: int, q: Quirks)
    requires ExitOk(s) && Possible(s, call, now) && (call.Start? ==> s.created == 0)
    ensures ExitOk(Next(s, request, call, now, q))
    ensures Started(s) || call.Start? ==> Started(Next(s, request, call, now, q))
  {
    hide Complete, ResultsNext, FinishNext;
    match call
    case Start =>
      var failure := Some(if q.security then PermissionDenied else RecognizerUnavailable);
      CompleteExits(s, Failed, failure, true, q);
      CompleteExits(s.(held := true, created := s.created + 1, readiness := Some(now + READINESS_MS)), Failed, failure, true, q);
    case Finish => FinishExits(s, now, q);
    case Cancel => CompleteExits(s, Canceled, None, true, q);
    case Results(text, blank) => ResultsExit(s, text, blank, q);
    case ErrorNoMatch => CompleteExits(s, Empty, None, false, q);
    case ErrorSpeechTimeout => CompleteExits(s, NoSpeech, None, false, q);
    case ErrorOther(failure) => CompleteExits(s, Failed, Some(failure), false, q);
    case ReadinessFires => CompleteExits(s, Deadline, Some(RecognizerDeadline), true, q);
    case NoSpeechFires => CompleteExits(s, NoSpeech, None, true, q);
    case UtteranceFires => FinishExits(s, now, q);
    case FinalGraceFires => CompleteExits(s, Deadline, Some(RecognizerDeadline), true, q);
    case _ =>
  }

  lemma {:induction false} RunKeepsExit(request: Request, steps: seq<Step>)
    requires Run(request, steps)
    ensures ExitOk(After(request, steps)) && Started(After(request, steps))
  {
    hide Next, Possible, ExitOk, Started;
    var front, last := steps[..|steps| - 1], steps[|steps| - 1];
    if front == [] {
      InertIsOk();
    } else {
      assert forall k :: 0 <= k < |front| ==> front[k] == steps[k] && front[..k] == steps[..k];
      RunKeepsExit(request, front);
    }
    assert Possible(After(request, front), last.call, last.now);
    NextKeepsExit(After(request, front), request, last.call, last.now, last.quirks);
  }

  lemma InertIsOk()
    ensures ExitOk(Inert()) && Inert().created == 0
  {
  }

  /** Over any callbacks: the outcome is reported once, when the recognizer ends; a platform recognizer that
      was created is destroyed once by then; at most one result is final, the last event of all; and the
      outcome says so, and carries a failure exactly when it is a deadline or an error. */
  lemma {:induction false} EndsOnce(request: Request, steps: seq<Step>)
    requires Run(request, steps)
    ensures var s := After(request, steps);
            && |s.outcomes| == (if s.ending then 1 else 0)
            && (s.ending ==> s.destroyed == s.created <= 1 && !s.held && OutcomeOk(s.outcomes[0], s.events))
            && (!s.ending ==> s.created == 1 && s.destroyed == 0)
            && forall k :: 0 <= k < |s.events| && s.events[k].SpeechResult? && s.events[k].isFinal ==> k == |s.events| - 1 && s.ending
  {
    RunKeepsExit(request, steps);
    hide After, Run;
  }

  /** After the end, nothing: no event, no second outcome, no timer, whatever the platform still calls. */
  lemma NothingAfterTheEnd(s: State, request: Request, call: Call, now: int, q: Quirks)
    requires ExitOk(s) && s.ending && Possible(s, call, now)
    ensures Next(s, request, call, now, q) == s
  {
  }

  // ---- The deadline ----

  /** How long the recognizer waits for speech once it is ready. */
  function SilenceMs(request: Request): int {
    if request.noSpeechTimeoutMs.Some? && request.noSpeechTimeoutMs.value < request.listenForMs
    then request.noSpeechTimeoutMs.value else request.listenForMs
  }

  /** The longest an utterance can take. */
  function LongestMs(request: Request): int {
    READINESS_MS + SilenceMs(request) + request.listenForMs + FINAL_GRACE_MS
  }

  /** While the recognizer is not ended a timer is pending, and its deadline is bounded from the start. */
  ghost predicate Paced(s: State, request: Request, start: int) {
    && (s.held && !s.ending)
    && (if s.finishing then
          s.finalGrace.Some? && s.finalGrace.value <= start + LongestMs(request)
        else if s.speechBegan then
          s.utterance.Some? && s.utterance.value <= start + LongestMs(request) - FINAL_GRACE_MS
        else if s.ready then
          && s.utterance.Some? && s.utterance.value <= start + READINESS_MS + request.listenForMs
          && (request.noSpeechTimeoutMs.Some? ==>
                s.noSpeech.Some? && s.noSpeech.value <= start + READINESS_MS + request.noSpeechTimeoutMs.value)
        else s.readiness == Some(start + READINESS_MS))
    && (s.finishing ==> s.readiness.None? && s.utterance.None? && s.noSpeech.None?)
    && (!s.finishing ==> s.finalGrace.None?)
  }

  lemma StepIsPaced(s: State, request: Request, start: int, call: Call, now: int, q: Quirks)
    requires request.Valid() && Paced(s, request, start) && Possible(s, call, now) && !call.Start? && NonePast(s, now)
    ensures var t := Next(s, request, call, now, q); t.ending || Paced(t, request, start)
  {
  }

  lemma {:induction false} RunIsPaced(request: Request, steps: seq<Step>)
    requires request.Valid() && Run(request, steps) && OnTime(request, steps)
    ensures After(request, steps).ending || Paced(After(request, steps), request, steps[0].now)
  {
    hide Next, Possible, Paced, NonePast;
    var front, last := steps[..|steps| - 1], steps[|steps| - 1];
    if front == [] {
      StartIsPaced(request, last);
    } else {
      assert forall k :: 0 <= k < |front| ==> front[k] == steps[k] && front[..k] == steps[..k];
      assert OnTime(request, front);
      RunIsPaced(request, front);
      RunKeepsExit(request, front);
      if After(request, front).ending {
        EndedStays(After(request, front), request, last);
      } else {
        StepIsPaced(After(request, front), request, steps[0].now, last.call, last.now, last.quirks);
      }
    }
  }

  lemma StartIsPaced(request: Request, step: Step)
    requires step.call == Start
    ensures var s := Next(Inert(), request, step.call, step.now, step.quirks); s.ending || Paced(s, request, step.now)
  {
  }

  lemma EndedStays(s: State, request: Request, step: Step)
    requires ExitOk(s) && s.ending && Possible(s, step.call, step.now)
    ensures Next(s, request, step.call, step.now, step.quirks).ending
  {
  }

  predicate TimerPending(s: State) {
    s.readiness.Some? || s.noSpeech.Some? || s.utterance.Some? || s.finalGrace.Some?
  }

  /** For every sequence of callbacks: a recognizer that has not ended has a pending timer. */
  lemma {:induction false} TimerIsPending(request: Request, steps: seq<Step>)
    requires Run(request, steps)
    ensures After(request, steps).ending || Awake(After(request, steps))
  {
    hide Next, Possible, Awake;
    var front, last := steps[..|steps| - 1], steps[|steps| - 1];
    if front == [] {
      StartsAwake(request, last);
    } else {
      assert forall k :: 0 <= k < |front| ==> front[k] == steps[k] && front[..k] == steps[..k];
      TimerIsPending(request, front);
      RunKeepsExit(request, front);
      assert Possible(After(request, front), last.call, last.now);
      if After(request, front).ending {
        EndedStays(After(request, front), request, last);
      } else {
        StaysAwake(After(request, front), request, last);
      }
    }
  }

  /** The phase that the recognizer is in has its timer. */
  ghost predicate Awake(s: State) {
    && TimerPending(s)
    && if s.finishing then s.finalGrace.Some?
       else if s.speechBegan || s.ready then s.utterance.Some? else s.readiness.Some?
  }

  lemma StaysAwake(s: State, request: Request, step: Step)
    requires !step.call.Start? && Awake(s) && !s.ending
    ensures var t := Next(s, request, step.call, step.now, step.quirks); t.ending || Awake(t)
  {
    hide Complete;
    CompleteEnds();
    match step.call
    case Ready =>
    case BeginningOfSpeech =>
    case EndOfSpeech =>
    case _ =>
  }

  lemma CompleteEnds()
    ensures forall s, reason, nativeFinal, failure, cancel, q :: Complete(s, reason, nativeFinal, failure, cancel, q).ending
  {
  }

  lemma StartsAwake(request: Request, step: Step)
    requires step.call.Start?
    ensures var t := Next(Inert(), request, step.call, step.now, step.quirks); t.ending || Awake(t)
  {
  }

  /** With timers on time the recognizer ends within the readiness wait, the wait for speech, one listening
      period and the final grace, so within two listening periods and seven seconds. */
  lemma {:induction false} EndsByTheDeadline(request: Request, steps: seq<Step>, now: int)
    requires request.Valid() && Run(request, steps) && OnTime(request, steps)
    requires NonePast(After(request, steps), now)
    requires now > steps[0].now + LongestMs(request)
    ensures After(request, steps).ending && LongestMs(request) <= 5000 + 2 * request.listenForMs + 2000
  {
    RunIsPaced(request, steps);
    hide After, Run, OnTime;
  }

  const FINE: Quirks := Quirks(false, false, false, false, false, false)

  /** The bound is reached: ready at the last moment, speech at the last moment, and no result. */
  function SlowRun(request: Request): seq<Step> {
    var speech := READINESS_MS + SilenceMs(request);
    [Step(Start, 0, FINE), Step(Ready, READINESS_MS, FINE), Step(BeginningOfSpeech, speech, FINE),
     Step(UtteranceFires, speech + request.listenForMs, FINE), Step(FinalGraceFires, LongestMs(request), FINE)]
  }

  /** The states of that run, one after each step. */
  function SlowState(request: Request, k: nat): State
    requires 1 <= k <= 4
  {
    var speech := READINESS_MS + SilenceMs(request);
    var s1 := Inert().(held := true, created := 1, readiness := Some(READINESS_MS));
    var s2 := ReadyNext(s1, request, READINESS_MS);
    var s3 := s2.(speechBegan := true, noSpeech := None, utterance := Some(speech + request.listenForMs), events := [RecognitionReady, SpeechStarted]);
    var s4 := s3.(finishing := true, utterance := None, finalGrace := Some(LongestMs(request)));
    [s1, s2, s3, s4][k - 1]
  }

  lemma SlowSteps(request: Request)
    requires request.Valid()
    ensures var steps := SlowRun(request);
            && Next(Inert(), request, steps[0].call, steps[0].now, FINE) == SlowState(request, 1)
            && (forall k :: 1 <= k <= 3 ==> Next(SlowState(request, k), request, steps[k].call, steps[k].now, FINE) == SlowState(request, k + 1))
            && Next(SlowState(request, 4), request, steps[4].call, steps[4].now, FINE).ending
            && Possible(Inert(), steps[0].call, steps[0].now) && NonePast(Inert(), steps[0].now)
            && forall k :: 1 <= k <= 4 ==> Possible(SlowState(request, k), steps[k].call, steps[k].now) && NonePast(SlowState(request, k), steps[k].now)
  {
  }

  lemma DeadlineIsTight(request: Request)
    requires request.Valid()
    ensures Run(request, SlowRun(request)) && OnTime(request, SlowRun(request))
    ensures !After(request, SlowRun(request)[..4]).ending && After(request, SlowRun(request)).ending
  {
    SlowSteps(request);
    assert !SlowState(request, 4).ending;
    var steps := SlowRun(request);
    hide Next, Possible, NonePast, SlowState, SilenceMs, LongestMs;
    assert steps[..4][..3] == steps[..3] && steps[..3][..2] == steps[..2] && steps[..2][..1] == steps[..1] && steps[..1][..0] == [];
    assert steps[..0] == [] && steps[..5] == steps;
    assert After(request, steps[..1]) == SlowState(request, 1);
    assert After(request, steps[..2]) == SlowState(request, 2);
    assert After(request, steps[..3]) == SlowState(request, 3);
    assert After(request, steps[..4]) == SlowState(request, 4);
  }

  // ---- The object ----

  /** All calls arrive on the main looper, one at a time; `now` is its clock. */
  class JoinableSpeechRecognizer {
    const request: Request
    var held: bool
    var ending: bool
    var ready: bool
    var speechBegan: bool
    var finishing: bool
    var readiness: Option<int>
    var noSpeech: Option<int>
    var utterance: Option<int>
    var finalGrace: Option<int>
    ghost var created: nat
    ghost var destroyed: nat
    ghost var events: seq<Event>
    ghost var outcomes: seq<Outcome>

    ghost function View(): State
      reads this
    {
      State(held, ending, ready, speechBegan, finishing, readiness, noSpeech, utterance, finalGrace, created, destroyed, events, outcomes)
    }

    constructor (request: Request)
      requires request.Valid()
      ensures View() == Inert() && this.request == request
    {
      this.request := request;
      held, ending, ready, speechBegan, finishing := false, false, false, false, false;
      readiness, noSpeech, utterance, finalGrace := None, None, None, None;
      created, destroyed, events, outcomes := 0, 0, [], [];
    }

    method CancelTimers()
      modifies this`readiness, this`noSpeech, this`utterance
      ensures View() == CancelCaptureTimers(old(View()))
    {
      readiness := None;
      noSpeech := None;
      utterance := None;
    }

    method End(reason: Reason, nativeFinal: bool, failure: Option<Failure>, cancel: bool, q: Quirks)
      modifies this
      ensures View() == Complete(old(View()), reason, nativeFinal, failure, cancel, q)
      ensures ending
    {
      if ending { return; }
      ending := true;
      CancelTimers();
      finalGrace := None;
      var owned := held;
      held := false;
      var terminal := failure;
      if owned {
        if cancel && q.cancelFails { terminal := Some(RecognizerAudio); }
        if q.destroyFails { terminal := Some(RecognizerAudio); }
        destroyed := destroyed + 1;
      }
      outcomes := outcomes + [Outcome(if terminal.Some? && failure.None? then Failed else reason, nativeFinal, terminal)];
    }

    method StartListening(now: int, q: Quirks)
      requires !held && !ending
      modifies this
      ensures View() == Next(old(View()), request, Start, now, q)
    {
      var failure := if q.security then PermissionDenied else RecognizerUnavailable;
      if q.factoryFails {
        End(Failed, false, Some(failure), true, q);
        return;
      }
      held := true;
      created := created + 1;
      readiness := Some(now + READINESS_MS);
      if q.listenFails { End(Failed, false, Some(failure), true, q); }
    }

    method BeginFinalGrace(now: int)
      modifies this`finalGrace
      ensures View() == StartFinalGrace(old(View()), now)
    {
      if finalGrace.Some? { return; }
      finalGrace := Some(now + FINAL_GRACE_MS);
    }

    method FinishUtterance(now: int, q: Quirks)
      modifies this
      ensures View() == Next(old(View()), request, Finish, now, q)
      ensures old(ending) || finishing
    {
      if ending || finishing { return; }
      finishing := true;
      CancelTimers();
      BeginFinalGrace(now);
      if held && q.stopFails { End(Failed, false, Some(RecognizerAudio), true, q); }
    }

    method CancelUtterance(now: int, q: Quirks)
      modifies this
      ensures View() == Next(old(View()), request, Cancel, now, q)
    {
      End(Canceled, false, None, true, q);
    }

    method OnReadyForSpeech(now: int, q: Quirks)
      modifies this
      ensures View() == Next(old(View()), request, Ready, now, q)
    {
      if ending || finishing || ready { return; }
      ready := true;
      readiness := None;
      if !speechBegan {
        utterance := Some(now + request.listenForMs);
        if request.noSpeechTimeoutMs.Some? { noSpeech := Some(now + request.noSpeechTimeoutMs.value); }
      }
      events := events + [RecognitionReady];
    }

    method OnBeginningOfSpeech(now: int, q: Quirks)
      modifies this
      ensures View() == Next(old(View()), request, BeginningOfSpeech, now, q)
    {
      if ending || finishing || speechBegan { return; }
      speechBegan := true;
      CancelTimers();
      utterance := Some(now + request.listenForMs);
      events := events + [SpeechStarted];
    }

    method OnEndOfSpeech(now: int, q: Quirks)
      modifies this
      ensures View() == Next(old(View()), request, EndOfSpeech, now, q)
    {
      if ending { return; }
      finishing := true;
      CancelTimers();
      BeginFinalGrace(now);
    }

    method OnPartialResults(text: string, now: int, q: Quirks)
      modifies this
      ensures View() == Next(old(View()), request, Partial(text), now, q)
    {
      if ending { return; }
      events := events + [SpeechResult(text, false)];
    }

    method OnResults(text: string, blank: bool, now: int, q: Quirks)
      modifies this
      ensures View() == Next(old(View()), request, Results(text, blank), now, q)
    {
      if ending { return; }
      events := events + [SpeechResult(text, true)];
      End(if blank then Empty else Final, true, None, false, q);
    }

    method OnError(error: PlatformError, now: int, q: Quirks)
      modifies this
      ensures View() == Next(old(View()), request, ErrorCall(error), now, q)
    {
      if ending { return; }
      if error == NoMatch {
        End(Empty, false, None, false, q);
      } else if error == SpeechTimeout {
        End(NoSpeech, false, None, false, q);
      } else {
        End(Failed, false, Some(FailureOf(error)), false, q);
      }
    }

    /** What each timer was set up to do. */
    method Fire(call: Call, now: int, q: Quirks)
      requires (call.ReadinessFires? && readiness.Some?) || (call.NoSpeechFires? && noSpeech.Some?)
               || (call.UtteranceFires? && utterance.Some?) || (call.FinalGraceFires? && finalGrace.Some?)
      modifies this
      ensures View() == Next(old(View()), request, call, now, q)
    {
      match call {
        case NoSpeechFires => End(NoSpeech, false, None, true, q);
        case UtteranceFires => FinishUtterance(now, q);
        case ReadinessFires => End(Deadline, false, Some(RecognizerDeadline), true, q);
        case FinalGraceFires => End(Deadline, false, Some(RecognizerDeadline), true, q);
      }
    }
  }
}
