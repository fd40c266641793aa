/** Rows and policies of the mobile-push server. SHA-256 digests are injective, so a row keeps the
    value itself; a UUID is the next unused number of its kind. */
module PushTypes {
  import opened Basics

  const MAX_REVISION: int := 9007199254740991

  type Installation = string

  datatype Principal = Principal(provider: string, userId: string)

  datatype Kind = Challenge | TurnDone | TurnError | Input | InputResolved

  datatype Status = Pending | Active | Revoked | UpgradeRequired

  datatype Mode = Explicit | Authorized

  /** One to 200 ASCII letters, digits or `_ . : @ -`. */
  predicate Identifier(s: string) {
    1 <= |s| <= 200 && forall i :: 0 <= i < |s| ==> IdentifierChar(s[i])
  }

  predicate IdentifierChar(c: char) {
    'A' <= c <= 'Z' || 'a' <= c <= 'z' || '0' <= c <= '9' || c in "_.:@-"
  }

  datatype Policy = Policy(
    enabled: bool,
    grants: map<Principal, set<string>>,
    ownerGrants: set<Principal>,
    ttl: nat,
    challengeTtl: nat,
    maxEvents: nat,
    maxRegistrations: nat,
    maxAttempts: nat)
  {
    predicate Allowed(p: Principal, sessionId: string) {
      p in ownerGrants || (p in grants && sessionId in grants[p])
    }

    predicate Admitted(p: Principal) {
      p in ownerGrants || p in grants
    }
  }

  /** A subscription's selection; it narrows what the policy allows and never adds to it. */
  datatype SessionScope = SessionScope(mode: Mode, sessions: seq<string>) {

    static predicate ValidSessions(sessions: seq<string>) {
      && 1 <= |sessions| <= 128
      && (forall i :: 0 <= i < |sessions| ==> Identifier(sessions[i]))
      && forall i, j :: 0 <= i < j < |sessions| ==> sessions[i] != sessions[j]
    }

    /** The scope a request asks for; `None` where the request is refused with 422. */
    static function FromBody(mode: Mode, sessionIds: Option<seq<string>>): Option<SessionScope> {
      match mode
      case Authorized => if sessionIds.Some? then None else Some(SessionScope(Authorized, []))
      case Explicit =>
        if sessionIds.Some? && ValidSessions(sessionIds.value) then Some(SessionScope(Explicit, sessionIds.value)) else None
    }

    /** The scope read back from a row, failing closed on a corrupt one. */
    static function FromRegistration(stored: SessionScope): Option<SessionScope> {
      if stored.mode == Authorized && stored.sessions == [] then Some(stored)
      else FromBody(stored.mode, Some(stored.sessions))
    }

    predicate Allows(p: Principal, sessionId: string, policy: Policy) {
      && policy.enabled
      && policy.Admitted(p)
      && Identifier(sessionId)
      && policy.Allowed(p, sessionId)
      && (mode == Authorized || sessionId in sessions)
    }

    predicate Ready(p: Principal, policy: Policy, durable: set<string>) {
      && policy.enabled
      && policy.Admitted(p)
      && forall i :: 0 <= i < |sessions| ==> Allows(p, sessions[i], policy) && sessions[i] in durable
    }
  }

  /** What `FromBody` accepts is read back unchanged, and nothing else is read back at all. */
  lemma ScopeReloads(stored: SessionScope)
    ensures SessionScope.FromRegistration(stored).Some? <==>
            exists mode, ids :: SessionScope.FromBody(mode, ids) == Some(stored)
    ensures SessionScope.FromRegistration(stored).Some? ==> SessionScope.FromRegistration(stored) == Some(stored)
  {
    if SessionScope.FromRegistration(stored).Some? {
      var ids := if stored.mode == Authorized then None else Some(stored.sessions);
      assert SessionScope.FromBody(stored.mode, ids) == Some(stored);
    }
  }

  datatype Registration = Registration(
    owner: Principal,
    generation: nat,
    status: Status,
    nonce: string,
    endpoint: string,
    keys: string,
    kinds: set<Kind>,
    scope: SessionScope,
    challenge: Option<string>,
    challengeExpires: int,
    revision: nat)

  datatype Body = Body(
    revision: int,
    nonce: string,
    endpoint: string,
    keys: string,
    kinds: set<Kind>,
    mode: Mode,
    sessionIds: Option<seq<string>>)

  /** What a lifecycle observer reports: a finished turn, an input request or its resolution. */
  datatype Hook = Hook(kind: Kind, sessionId: string, reference: string) {
    predicate Valid() {
      kind != Challenge && Identifier(sessionId) && Identifier(reference)
    }

    predicate HasRequest() {
      kind == Input || kind == InputResolved
    }

    predicate EndsTurn() {
      kind == TurnDone || kind == TurnError
    }
  }

  /** The deduplication text of an event, read back: it names the challenge or the hook. */
  datatype Source = ChallengeFor(installation: Installation, generation: nat) | FromHook(hook: Hook)

  /** The unique key of the events table. */
  datatype EventKey = EventKey(owner: Principal, source: Source)

  datatype Event = Event(key: EventKey, createdAt: int, expiresAt: int, cancelled: bool) {
    function Kind(): Kind {
      if key.source.ChallengeFor? then Challenge else key.source.hook.kind
    }

    predicate InputFor(sessionId: string, request: Option<string>) {
      && key.source.FromHook? && key.source.hook.kind == Input
      && key.source.hook.sessionId == sessionId
      && (request.Some? ==> key.source.hook.reference == request.value)
    }

    predicate ChallengeOf(i: Installation) {
      key.source.ChallengeFor? && key.source.installation == i
    }
  }

  /** The encrypted push body. */
  datatype Hint = Hint(eventId: nat, kind: Kind, generation: nat, nonce: string, expires: int, challenge: Option<string>)

  /** The unique key of the outbox; an event id is its cursor, as both are unique and never reused. */
  datatype JobKey = JobKey(event: nat, installation: Installation, generation: nat)

  datatype Job = Job(
    id: nat,
    payload: Option<Hint>,
    attempts: nat,
    nextAt: int,
    lease: Option<nat>,
    leaseUntil: int,
    done: bool)

  datatype AttentionKey = AttentionKey(sessionId: string, request: string)

  datatype Attention = Attention(row: nat, resolved: bool, expiresAt: int)
}
