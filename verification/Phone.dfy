/** The phone's sealed registration state and what each native command or callback makes of it. */
module Phone {
  import opened Basics
  import opened PushTypes

  /** A push body after decryption; a field that is missing or has another type is `None`. */
  datatype RawHint = RawHint(
    schema: Option<int>,
    eventId: Option<string>,
    kind: Option<string>,
    generation: Option<int>,
    nonce: Option<string>,
    expires: Option<int>,
    challenge: Option<string>)

  datatype HeldChallenge = HeldChallenge(eventId: string, generation: int, nonce: string, expires: int, challenge: string)

  datatype Tap = Tap(eventId: string, authority: Authority, generation: int, connection: string, expires: int)

  /** What a caller names to prove that it speaks of the present registration. */
  datatype Authority = Authority(installation: string, nonce: string, revision: int)

  datatype Revocation = Revocation(installation: string, connection: string, account: Principal)

  /** What the user agreed to. `account` is the login that the connection's binding identifies. */
  datatype Consent = Consent(connection: string, account: Principal, mode: Mode, sessions: seq<string>, master: bool, kinds: seq<string>)

  datatype State = State(
    enabled: bool,
    active: bool,
    fenced: bool,
    installation: string,
    nonce: string,
    revision: int,
    generation: int,
    consent: Consent,
    endpoint: Option<string>,
    keys: Option<string>,
    registering: bool,
    confirming: bool,
    pendingUntil: Option<int>,
    challenges: seq<HeldChallenge>,
    seen: seq<string>,
    issued: seq<Tap>,
    tap: Option<Tap>,
    revocations: seq<Revocation>,
    error: bool)
  {
    function Present(): Authority {
      Authority(installation, nonce, revision)
    }
  }

  const PUSH_KINDS: set<string> := {"turn_done", "turn_error", "input", "input_resolved"}

  // ---- Policy ----

  /** Unlike the server, the phone does not notice a session named twice. */
  predicate ValidSessions(sessions: seq<string>) {
    1 <= |sessions| <= 128 && forall i :: 0 <= i < |sessions| ==> Identifier(sessions[i])
  }

  predicate ValidScope(s: State) {
    if s.consent.mode == Authorized then s.consent.sessions == [] else ValidSessions(s.consent.sessions)
  }

  predicate Current(s: State, a: Authority) {
    ValidScope(s) && s.fenced && s.enabled && s.Present() == a
  }

  predicate WellFormed(h: RawHint, now: int) {
    && h.schema == Some(1) && h.generation.Some? && h.expires.Some? && h.eventId.Some? && h.kind.Some? && h.nonce.Some?
    && 1 <= |h.eventId.value| <= 256
    && h.expires.value > now && h.generation.value > 0
    && (h.kind.value == "challenge" || h.kind.value in PUSH_KINDS)
  }

  predicate ValidHint(s: State, h: RawHint, instance: string, decrypted: bool, now: int) {
    && ValidScope(s) && s.fenced && decrypted && s.enabled && instance == s.installation
    && WellFormed(h, now) && h.nonce.value == s.nonce
    && if h.kind.value == "challenge" then
         && !s.active && h.challenge.Some? && h.challenge.value != ""
         && (s.generation == 0 || h.generation.value == s.generation)
       else s.active && h.generation.value == s.generation
  }

  predicate ValidTap(s: State, tap: Tap, now: int) {
    Current(s, tap.authority) && s.active && s.consent.master && tap.generation == s.generation && tap.expires > now
  }

  // ---- Shared steps ----

  function Last<T>(s: seq<T>, count: nat): seq<T> {
    if |s| <= count then s else s[|s| - count..]
  }

  /** A new nonce and revision: nothing issued, held or under way under the old ones survives. */
  function Invalidate(s: State, nonce: string): Option<State> {
    if !(0 <= s.revision < MAX_REVISION) then None
    else Some(s.(fenced := true, active := false, generation := 0, nonce := nonce, revision := s.revision + 1,
                 registering := false, confirming := false, pendingUntil := None,
                 challenges := [], tap := None, issued := [], seen := []))
  }

  // ---- Commands; `None` where the command fails and leaves the state alone ----

  function Enable(s: State, consent: Consent, installation: string, nonce: string): Option<State> {
    if s.enabled || !(if consent.mode == Authorized then consent.sessions == [] else ValidSessions(consent.sessions)) then None
    else Some(State(true, false, true, installation, nonce, 1, 0, consent, None, None, false, false, None, [], [], [], None,
                    s.revocations, false))
  }

  function Disable(s: State): State {
    var recorded := if s.enabled && s.installation != ""
                    then s.revocations + [Revocation(s.installation, s.consent.connection, s.consent.account)]
                    else s.revocations;
    s.(revocations := recorded, enabled := false, active := false, nonce := "", generation := 0, revision := s.revision + 1,
       endpoint := None, keys := None, challenges := [], tap := None, issued := [], seen := [],
       registering := false, confirming := false, pendingUntil := None)
  }

  /** Opening a state sealed before registrations were fenced. */
  function UpgradeConsent(s: State, nonce: string): Option<State> {
    if s.enabled && !s.fenced then Invalidate(s, nonce) else Some(s)
  }

  function SetPreferences(s: State, master: bool, kinds: seq<string>): State {
    s.(consent := s.consent.(master := master, kinds := kinds))
  }

  function Without(revocations: seq<Revocation>, installation: string): seq<Revocation> {
    if revocations == [] then []
    else
      var front := Without(revocations[..|revocations| - 1], installation);
      if revocations[|revocations| - 1].installation == installation then front else front + [revocations[|revocations| - 1]]
  }

  function ForgetRevocation(s: State, installation: string): State {
    s.(revocations := Without(s.revocations, installation))
  }

  /** The common test of the three commands that move a registration forward. */
  predicate Awaiting(s: State, a: Authority, generation: int) {
    Current(s, a) && s.generation == generation && !s.active && s.endpoint.Some? && s.keys.Some?
  }

  function Recover(s: State, a: Authority, generation: int, nonce: string): Option<State> {
    if !Awaiting(s, a, generation) then None else Invalidate(s, nonce)
  }

  function BeginRegistration(s: State, a: Authority, generation: int, now: int): Option<State> {
    if !Awaiting(s, a, generation) || s.generation != 0 || s.registering then None
    else Some(s.(registering := true, pendingUntil := Some(now + 300)))
  }

  function BeginConfirmation(s: State, a: Authority, generation: int): Option<State> {
    if !Awaiting(s, a, generation) || s.generation <= 0 || s.confirming then None
    else Some(s.(confirming := true))
  }

  function TakeGeneration(s: State, a: Authority, generation: int): Option<State> {
    if !Current(s, a) || generation <= 0 || s.generation != 0 || !s.registering then None
    else Some(s.(generation := generation, registering := false))
  }

  function Activate(s: State, a: Authority, generation: int): Option<State> {
    if !Current(s, a) || generation <= 0 || s.generation != generation || !s.confirming then None
    else Some(s.(active := true, challenges := [], confirming := false, pendingUntil := None))
  }

  /** The distributor's answer; the same endpoint again changes nothing. */
  function NewEndpoint(s: State, instance: string, url: string, keys: Option<string>, nonce: string): Option<State> {
    if !s.enabled || instance != s.installation || keys.None? then Some(s)
    else if s.endpoint.Some? && s.endpoint.value == url && s.keys == keys then Some(s)
    else
      var fenced := Invalidate(s.(endpoint := Some(url), keys := keys), nonce);
      if fenced.None? then None else Some(fenced.value.(error := false))
  }

  function Failure(s: State, instance: string, nonce: string): Option<State> {
    if !s.enabled || instance != s.installation then Some(s)
    else
      var fenced := Invalidate(s, nonce);
      if fenced.None? then None else Some(fenced.value.(error := true, endpoint := None, keys := None))
  }

  function Unexpired(held: seq<HeldChallenge>, eventId: string, now: int): seq<HeldChallenge> {
    if held == [] then []
    else
      var front := Unexpired(held[..|held| - 1], eventId, now);
      var last := held[|held| - 1];
      if last.expires > now && last.eventId != eventId then front + [last] else front
  }

  predicate Notifies(s: State, h: RawHint, instance: string, decrypted: bool, permitted: bool, now: int) {
    && ValidHint(s, h, instance, decrypted, now) && h.kind.value != "challenge"
    && s.consent.master && permitted && h.kind.value in s.consent.kinds && h.eventId.value !in s.seen
  }

  function TapFor(s: State, h: RawHint): Tap
    requires h.eventId.Some? && h.expires.Some?
  {
    Tap(h.eventId.value, s.Present(), s.generation, s.consent.connection, h.expires.value)
  }

  /** A decrypted push body arrives: a challenge is held, an event is remembered before it is shown. */
  function Receive(s: State, h: RawHint, instance: string, decrypted: bool, permitted: bool, now: int): State {
    if !ValidHint(s, h, instance, decrypted, now) then s
    else if h.kind.value == "challenge" then
      var held := HeldChallenge(h.eventId.value, h.generation.value, h.nonce.value, h.expires.value, h.challenge.value);
      s.(challenges := Last(Unexpired(s.challenges, held.eventId, now) + [held], 16))
    else if Notifies(s, h, instance, decrypted, permitted, now) then
      s.(issued := Last(s.issued + [TapFor(s, h)], 256), seen := Last(s.seen + [h.eventId.value], 256))
    else s
  }

  function CaptureTap(s: State, tap: Tap, now: int): State {
    if ValidTap(s, tap, now) && tap in s.issued then s.(tap := Some(tap)) else s
  }

  function TakeTap(s: State): State {
    s.(tap := None)
  }

  function TapTaken(s: State, now: int): Option<Tap> {
    if s.tap.Some? && ValidTap(s, s.tap.value, now) then s.tap else None
  }

  function NewState(): State {
    State(false, false, false, "", "", 0, 0, Consent("", Principal("", ""), Explicit, [], false, []), None, None, false, false,
          None, [], [], [], None, [], false)
  }

  // ---- Facts about single commands ----

  lemma {:induction false} WithoutForgets(revocations: seq<Revocation>, installation: string)
    ensures forall r :: r in Without(revocations, installation) <==> r in revocations && r.installation != installation
  {
    if revocations != [] {
      var last := revocations[|revocations| - 1];
      WithoutForgets(revocations[..|revocations| - 1], installation);
      assert revocations == revocations[..|revocations| - 1] + [last];
    }
  }

  lemma {:induction false} UnexpiredKeeps(held: seq<HeldChallenge>, eventId: string, now: int)
    ensures forall c :: c in Unexpired(held, eventId, now) <==> c in held && c.expires > now && c.eventId != eventId
  {
    if held != [] {
      UnexpiredKeeps(held[..|held| - 1], eventId, now);
      assert held == held[..|held| - 1] + [held[|held| - 1]];
    }
  }

  /** An event that is still remembered is shown once: the same hint again changes nothing. */
  lemma ShownOnce(s: State, h: RawHint, instance: string, decrypted: bool, permitted: bool, now: int, later: int, permitted': bool)
    requires Notifies(s, h, instance, decrypted, permitted, now)
    ensures var shown := Receive(s, h, instance, decrypted, permitted, now);
            && !Notifies(shown, h, instance, decrypted, permitted', later)
            && Receive(shown, h, instance, decrypted, permitted', later) == shown
            && (exists tap :: tap in shown.issued && tap.eventId == h.eventId.value && tap.authority == s.Present())
  {
    var shown := Receive(s, h, instance, decrypted, permitted, now);
    assert shown.seen[|shown.seen| - 1] == h.eventId.value;
    assert shown.issued[|shown.issued| - 1] == TapFor(s, h);
    assert TapFor(s, h) in shown.issued;
  }

  ghost predicate NoOther(held: seq<HeldChallenge>, c: HeldChallenge, now: int) {
    forall i :: 0 <= i < |held| - 1 ==> held[i].eventId != c.eventId && held[i].expires > now
  }

  /** A valid challenge is held: it is the newest of at most sixteen, no other of its event is kept and none
      that expired, and nothing else about the registration changes. */
  lemma ChallengeIsHeld(s: State, h: RawHint, instance: string, decrypted: bool, permitted: bool, now: int)
    requires ValidHint(s, h, instance, decrypted, now) && h.kind.value == "challenge"
    ensures var t := Receive(s, h, instance, decrypted, permitted, now);
            && 1 <= |t.challenges| <= 16
            && var c := t.challenges[|t.challenges| - 1];
               && c.eventId == h.eventId.value && c.challenge == h.challenge.value && c.expires == h.expires.value
               && c.nonce == s.nonce && c.generation == h.generation.value
               && NoOther(t.challenges, c, now)
               && t == s.(challenges := t.challenges)
  {
    UnexpiredKeeps(s.challenges, h.eventId.value, now);
    hide Unexpired;
    var kept := Unexpired(s.challenges, h.eventId.value, now);
    var t := Receive(s, h, instance, decrypted, permitted, now);
    forall i | 0 <= i < |t.challenges| - 1
      ensures t.challenges[i] in kept
    {
      assert |kept| + 1 <= 16 ==> t.challenges[i] == kept[i];
      assert |kept| + 1 > 16 ==> t.challenges[i] == kept[|kept| + 1 - 16 + i];
    }
  }

  /** A tap that is handed out was captured for the present active registration, and is handed out once. */
  lemma TapOpensOnce(s: State, now: int, later: int)
    ensures TapTaken(TakeTap(s), later).None?
    ensures TapTaken(s, now).Some? ==>
              s.active && TapTaken(s, now).value.authority == s.Present() && TapTaken(s, now).value.generation == s.generation
              && TapTaken(s, now).value.expires > now
  {
  }
}
