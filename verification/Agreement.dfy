/** The phone and the push server joined by a network that loses, repeats and reorders requests and
    answers. Other clients, observers and senders act on the server at any moment; push messages of any
    content reach the phone at any moment. */
module Agreement {
  import opened Basics
  import opened PushTypes
  import opened PushModel
  import opened PushInvariant
  import opened PushRuns
  import opened PushConfluence
  import P = Phone

  datatype PutRequest = PutRequest(i: Installation, account: Principal, body: Body)

  /** The server accepted the request and answered with the generation. */
  datatype Acceptance = Acceptance(request: PutRequest, generation: nat)

  /** A proof sent for a generation; the relay keeps beside it the authority it speaks for. */
  datatype ConfirmRequest = ConfirmRequest(authority: P.Authority, account: Principal, generation: nat, proof: string)

  datatype World = World(
    phone: P.State,
    db: Db,
    mine: map<Installation, Principal>,
    drawn: set<string>,
    puts: set<PutRequest>,
    accepted: set<Acceptance>,
    confirms: set<ConfirmRequest>,
    confirmed: set<ConfirmRequest>,
    deletes: set<P.Revocation>,
    deleted: set<P.Revocation>)

  datatype Move =
    | Enable(consent: P.Consent, installation: Installation, nonce: string)
    | Disable
    | UpgradeConsent(nonce: string)
    | SetPreferences(master: bool, kinds: seq<string>)
    | Recover(a: P.Authority, generation: int, nonce: string)
    | NewEndpoint(instance: string, url: string, keys: Option<string>, nonce: string)
    | Failure(instance: string, nonce: string)
    | Receive(hint: P.RawHint, instance: string, decrypted: bool, permitted: bool, now: int)
    | CaptureTap(tap: P.Tap, now: int)
    | TakeTap
    | SendPut(a: P.Authority, generation: int, now: int)
    | PutArrives(put: PutRequest, policy: Policy, now: int, challenge: string)
    | PutAnswered(acceptance: Acceptance)
    | SendConfirm(a: P.Authority, generation: int, proof: string)
    | ConfirmArrives(confirm: ConfirmRequest, policy: Policy, durable: set<string>, now: int)
    | ConfirmAnswered(confirm: ConfirmRequest)
    | SendDelete(revocation: P.Revocation)
    | DeleteArrives(revocation: P.Revocation, caller: Option<Policy>)
    | DeleteAnswered(revocation: P.Revocation)
    | Elsewhere(op: Op)

  const ALL_KINDS: set<Kind> := {TurnDone, TurnError, Input, InputResolved}

  function Sessions(mode: Mode, sessions: seq<string>): Option<seq<string>> {
    if mode == Authorized then None else Some(sessions)
  }

  /** The request that the relay makes of the sealed state. */
  function PutOf(s: P.State): PutRequest
    requires s.endpoint.Some? && s.keys.Some?
  {
    PutRequest(s.installation, s.consent.account,
               Body(s.revision, s.nonce, s.endpoint.value, s.keys.value, ALL_KINDS, s.consent.mode, Sessions(s.consent.mode, s.consent.sessions)))
  }

  // ---- Moves ----

  predicate FreshNonce(w: World, nonce: string) {
    nonce !in w.drawn && nonce != ""
  }

  ghost predicate FreshInstallation(w: World, i: Installation) {
    i !in w.mine && i != "" && i !in w.db.registrations && forall n :: (i, n) !in w.db.nonces
  }

  /** The rest of the server: it cannot name the phone's installations, except to revoke a row it sees. */
  predicate OthersMay(w: World, op: Op) {
    match op
    case PutOp(_, i, _, _, _, _) => i !in w.mine
    case ConfirmOp(_, i, _, _, _, _, _) => i !in w.mine
    case RevokeOp(_, i, _) => i !in w.mine || i in w.db.registrations
    case _ => true
  }

  /** A request is delivered any number of times once it was sent, and an answer once it was given. */
  ghost predicate Possible(w: World, move: Move) {
    match move
    case Enable(_, installation, nonce) => FreshNonce(w, nonce) && FreshInstallation(w, installation)
    case UpgradeConsent(nonce) => FreshNonce(w, nonce)
    case Recover(_, _, nonce) => FreshNonce(w, nonce)
    case NewEndpoint(_, _, _, nonce) => FreshNonce(w, nonce)
    case Failure(_, nonce) => FreshNonce(w, nonce)
    case PutArrives(put, _, _, _) => put in w.puts
    case PutAnswered(acceptance) => acceptance in w.accepted
    case ConfirmArrives(confirm, _, _, _) => confirm in w.confirms
    case ConfirmAnswered(confirm) => confirm in w.confirmed
    case SendDelete(revocation) => revocation in w.phone.revocations
    case DeleteArrives(revocation, _) => revocation in w.deletes
    case DeleteAnswered(revocation) => revocation in w.deleted
    case Elsewhere(op) => OthersMay(w, op)
    case _ => true
  }

  function Or(s: Option<P.State>, otherwise: P.State): P.State {
    if s.Some? then s.value else otherwise
  }

  function EnableNext(w: World, consent: P.Consent, installation: Installation, nonce: string): World {
    var s := P.Enable(w.phone, consent, installation, nonce);
    if s.None? then w
    else w.(phone := s.value, mine := w.mine[installation := consent.account], drawn := w.drawn + {nonce})
  }

  function SendPutNext(w: World, a: P.Authority, generation: int, now: int): World {
    var s := P.BeginRegistration(w.phone, a, generation, now);
    if s.None? then w else w.(phone := s.value, puts := w.puts + {PutOf(s.value)})
  }

  function PutArrivesNext(w: World, put: PutRequest, policy: Policy, now: int, challenge: string): World {
    var (db, reply) := Put(w.db, put.account, put.i, put.body, policy, now, challenge);
    w.(db := db, accepted := if reply.Accepted? then w.accepted + {Acceptance(put, reply.generation)} else w.accepted)
  }

  function AuthorityOf(put: PutRequest): P.Authority {
    P.Authority(put.i, put.body.nonce, put.body.revision)
  }

  function SendConfirmNext(w: World, a: P.Authority, generation: int, proof: string): World {
    var s := P.BeginConfirmation(w.phone, a, generation);
    if s.None? then w
    else w.(phone := s.value, confirms := w.confirms + {ConfirmRequest(a, s.value.consent.account, s.value.generation, proof)})
  }

  function ConfirmArrivesNext(w: World, c: ConfirmRequest, policy: Policy, durable: set<string>, now: int): World {
    var (db, reply) := Confirm(w.db, c.account, c.authority.installation, c.generation, c.proof, policy, durable, now);
    w.(db := db, confirmed := if reply.Accepted? then w.confirmed + {c} else w.confirmed)
  }

  function DeleteArrivesNext(w: World, r: P.Revocation, caller: Option<Policy>): World {
    var (db, reply) := Revoke(w.db, r.account, r.installation, caller);
    w.(db := db, deleted := if reply.Accepted? then w.deleted + {r} else w.deleted)
  }

  /** A phone step that drew a nonce; where the step fails the nonce is simply lost. */
  function Drew(w: World, s: Option<P.State>, nonce: string): World {
    w.(phone := Or(s, w.phone), drawn := w.drawn + {nonce})
  }

  function Next(w: World, move: Move): World {
    match move
    case Enable(consent, installation, nonce) => EnableNext(w, consent, installation, nonce)
    case Disable => w.(phone := P.Disable(w.phone))
    case UpgradeConsent(nonce) => Drew(w, P.UpgradeConsent(w.phone, nonce), nonce)
    case SetPreferences(master, kinds) => w.(phone := P.SetPreferences(w.phone, master, kinds))
    case Recover(a, generation, nonce) => Drew(w, P.Recover(w.phone, a, generation, nonce), nonce)
    case NewEndpoint(instance, url, keys, nonce) => Drew(w, P.NewEndpoint(w.phone, instance, url, keys, nonce), nonce)
    case Failure(instance, nonce) => Drew(w, P.Failure(w.phone, instance, nonce), nonce)
    case Receive(hint, instance, decrypted, permitted, now) => w.(phone := P.Receive(w.phone, hint, instance, decrypted, permitted, now))
    case CaptureTap(tap, now) => w.(phone := P.CaptureTap(w.phone, tap, now))
    case TakeTap => w.(phone := P.TakeTap(w.phone))
    case SendPut(a, generation, now) => SendPutNext(w, a, generation, now)
    case PutArrives(put, policy, now, challenge) => PutArrivesNext(w, put, policy, now, challenge)
    case PutAnswered(acceptance) =>
      w.(phone := Or(P.TakeGeneration(w.phone, AuthorityOf(acceptance.request), acceptance.generation), w.phone))
    case SendConfirm(a, generation, proof) => SendConfirmNext(w, a, generation, proof)
    case ConfirmArrives(confirm, policy, durable, now) => ConfirmArrivesNext(w, confirm, policy, durable, now)
    case ConfirmAnswered(confirm) => w.(phone := Or(P.Activate(w.phone, confirm.authority, confirm.generation), w.phone))
    case SendDelete(revocation) => w.(deletes := w.deletes + {revocation})
    case DeleteArrives(revocation, caller) => DeleteArrivesNext(w, revocation, caller)
    case DeleteAnswered(revocation) => w.(phone := P.ForgetRevocation(w.phone, revocation.installation))
    case Elsewhere(op) => w.(db := Apply(w.db, op))
  }

  /** Every move of the run was possible when it was made. */
  ghost predicate Run(start: World, moves: seq<Move>) {
    moves == [] || (Run(start, moves[..|moves| - 1]) && Possible(Play(start, moves[..|moves| - 1]), moves[|moves| - 1]))
  }

  function Play(w: World, moves: seq<Move>): World {
    if moves == [] then w else Next(Play(w, moves[..|moves| - 1]), moves[|moves| - 1])
  }

  // ---- The invariant ----

  ghost predicate Registered(s: P.State) {
    s.enabled && s.fenced
  }

  ghost predicate PhoneOk(s: P.State, mine: map<Installation, Principal>, drawn: set<string>) {
    && s.revision >= 0
    && (s.enabled ==> s.installation in mine && mine[s.installation] == s.consent.account && s.installation != "")
    && (!s.enabled ==> !s.active)
    && (Registered(s) ==>
          && s.nonce in drawn && s.nonce != "" && 1 <= s.revision <= MAX_REVISION && s.generation >= 0
          && (s.registering ==> s.generation == 0)
          && (s.active ==> s.generation > 0)
          && (s.registering || s.generation > 0 ==> s.endpoint.Some? && s.keys.Some? && P.ValidScope(s)))
  }

  /** What the phone holds belongs to its present nonce. */
  ghost predicate HeldOk(s: P.State) {
    && (forall c :: c in s.challenges ==> c.nonce == s.nonce)
    && (forall t :: t in s.issued ==> t.authority == s.Present())
    && (s.tap.Some? ==> s.tap.value.authority == s.Present())
  }

  ghost predicate Asked(s: P.State) {
    Registered(s) && (s.registering || s.generation > 0) && s.endpoint.Some? && s.keys.Some?
  }

  /** One request was ever sent for a nonce, and an older request has a smaller revision. */
  ghost predicate PutOk(s: P.State, mine: map<Installation, Principal>, drawn: set<string>, m: PutRequest) {
    && m.i in mine && m.account == mine[m.i] && m.body.nonce in drawn && m.body.revision >= 1
    && (m.i == s.installation && !(Registered(s) && m.body.nonce == s.nonce) ==> m.body.revision < s.revision)
    && (m.i == s.installation && Registered(s) && m.body.nonce == s.nonce ==> Asked(s) && m == PutOf(s))
  }

  ghost predicate OnePerNonce(puts: set<PutRequest>) {
    forall m, n :: m in puts && n in puts && m.i == n.i && m.body.nonce == n.body.nonce ==> m == n
  }

  ghost predicate PutsOk(s: P.State, mine: map<Installation, Principal>, drawn: set<string>, puts: set<PutRequest>) {
    && (forall m :: m in puts ==> PutOk(s, mine, drawn, m))
    && OnePerNonce(puts)
    && (Asked(s) ==> PutOf(s) in puts)
  }

  ghost predicate AcceptanceOk(puts: set<PutRequest>, db: Db, a: Acceptance) {
    && a.request in puts && a.generation >= 1
    && a.request.i in db.registrations
    && a.generation <= db.registrations[a.request.i].generation
    && a.request.body.revision <= db.registrations[a.request.i].revision
    && (a.request.i, a.request.body.nonce) in db.nonces
  }

  ghost predicate AcceptedOk(puts: set<PutRequest>, accepted: set<Acceptance>, db: Db) {
    && (forall a :: a in accepted ==> AcceptanceOk(puts, db, a))
    && (forall a, b :: a in accepted && b in accepted && a.request == b.request ==> a == b)
  }

  /** The request that a row holds, read back from it. */
  function RequestIn(i: Installation, row: Registration): PutRequest {
    PutRequest(i, row.owner, Body(row.revision, row.nonce, row.endpoint, row.keys, row.kinds, row.scope.mode, Sessions(row.scope.mode, row.scope.sessions)))
  }

  ghost predicate Retired(row: Registration) {
    row.status == Revoked || (row.status == UpgradeRequired && row.revision == 0)
  }

  ghost predicate RevisionAsked(accepted: set<Acceptance>, i: Installation, revision: nat) {
    revision == 0 || exists a :: a in accepted && a.request.i == i && a.request.body.revision == revision
  }

  ghost predicate RowsFrom(mine: map<Installation, Principal>, accepted: set<Acceptance>, db: Db) {
    forall i :: i in mine && i in db.registrations ==>
      && db.registrations[i].owner == mine[i]
      && RevisionAsked(accepted, i, db.registrations[i].revision)
      && (Retired(db.registrations[i]) || Acceptance(RequestIn(i, db.registrations[i]), db.registrations[i].generation) in accepted)
  }

  /** A confirmed generation is active or over. */
  ghost predicate ConfirmationOk(db: Db, c: ConfirmRequest) {
    var i := c.authority.installation;
    && i in db.registrations && c.generation <= db.registrations[i].generation
    && (c.generation == db.registrations[i].generation ==> db.registrations[i].status == Active)
  }

  ghost predicate ConfirmedOk(mine: map<Installation, Principal>, confirms: set<ConfirmRequest>, confirmed: set<ConfirmRequest>, db: Db) {
    && (forall c :: c in confirms ==> c.authority.installation in mine)
    && (forall c :: c in confirmed ==> c in confirms && ConfirmationOk(db, c))
  }

  ghost predicate GoneAtServer(db: Db, i: Installation) {
    i in db.registrations && db.registrations[i].status == Revoked
  }

  ghost predicate Remembered(revocations: seq<P.Revocation>, i: Installation) {
    exists r :: r in revocations && r.installation == i
  }

  /** No installation is forgotten before the server has revoked it. */
  ghost predicate NoneForgotten(s: P.State, mine: map<Installation, Principal>, db: Db) {
    forall i :: i in mine ==> (s.enabled && s.installation == i) || Remembered(s.revocations, i) || GoneAtServer(db, i)
  }

  ghost predicate Knows(mine: map<Installation, Principal>, r: P.Revocation) {
    r.installation in mine && r.account == mine[r.installation]
  }

  ghost predicate DeletesOk(s: P.State, mine: map<Installation, Principal>, deletes: set<P.Revocation>, deleted: set<P.Revocation>, db: Db) {
    && (forall r :: r in s.revocations ==> Knows(mine, r))
    && (forall r :: r in deletes ==> Knows(mine, r))
    && (forall r :: r in deleted ==> GoneAtServer(db, r.installation))
    && NoneForgotten(s, mine, db)
  }

  ghost predicate ConfirmedFor(confirmed: set<ConfirmRequest>, a: P.Authority, generation: int) {
    exists c :: c in confirmed && c.authority == a && c.generation == generation
  }

  /** What the phone believes about its generation was said by the server. */
  ghost predicate BeliefOk(s: P.State, accepted: set<Acceptance>, confirmed: set<ConfirmRequest>) {
    && (Asked(s) && s.generation > 0 ==> Acceptance(PutOf(s), s.generation) in accepted)
    && (Registered(s) && s.active ==> ConfirmedFor(confirmed, s.Present(), s.generation))
  }

  /** The phone's half: its state against everything sent and answered. */
  ghost predicate SideOk(w: World) {
    && PhoneOk(w.phone, w.mine, w.drawn)
    && (w.phone.fenced ==> HeldOk(w.phone))
    && PutsOk(w.phone, w.mine, w.drawn, w.puts)
    && BeliefOk(w.phone, w.accepted, w.confirmed)
  }

  /** The server's half: its rows against everything accepted and confirmed. */
  ghost predicate ServerOk(w: World) {
    && StoreOk(w.db)
    && AcceptedOk(w.puts, w.accepted, w.db)
    && RowsFrom(w.mine, w.accepted, w.db)
    && ConfirmedOk(w.mine, w.confirms, w.confirmed, w.db)
  }

  ghost predicate WorldOk(w: World) {
    SideOk(w) && ServerOk(w) && DeletesOk(w.phone, w.mine, w.deletes, w.deleted, w.db)
  }

  /** Nothing is under way; an installation from before fencing is still to be upgraded on both sides. */
  ghost predicate Start(w: World) {
    && StoreOk(w.db) && PhoneOk(w.phone, w.mine, w.drawn) && !Registered(w.phone) && (w.phone.fenced ==> HeldOk(w.phone))
    && w.puts == {} && w.accepted == {} && w.confirms == {} && w.confirmed == {} && w.deletes == {} && w.deleted == {}
    && DeletesOk(w.phone, w.mine, {}, {}, w.db)
    && forall i :: i in w.mine && i in w.db.registrations ==>
         w.db.registrations[i].owner == w.mine[i] && Retired(w.db.registrations[i]) && w.db.registrations[i].revision == 0
  }

  lemma StartIsOk(w: World)
    requires Start(w)
    ensures WorldOk(w)
  {
    hide StoreOk, HeldOk, PhoneOk;
  }

  // ---- Phone steps that stay within a registration ----

  /** Same registration, same progress; what is held may change. */
  predicate SameRegistration(s: P.State, t: P.State) {
    && t.enabled == s.enabled && t.active == s.active && t.fenced == s.fenced && t.Present() == s.Present()
    && t.generation == s.generation && t.registering == s.registering
    && t.endpoint == s.endpoint && t.keys == s.keys
    && t.consent.account == s.consent.account && t.consent.mode == s.consent.mode && t.consent.sessions == s.consent.sessions
    && t.revocations == s.revocations
  }

  lemma QuietKeeps(w: World, t: P.State)
    requires WorldOk(w) && SameRegistration(w.phone, t) && (t.fenced ==> HeldOk(t))
    ensures WorldOk(w.(phone := t))
  {
    hide StoreOk, HeldOk, AcceptedOk, RowsFrom, ConfirmedOk, GoneAtServer, ConfirmedFor, Remembered;
  }

  // ---- Phone steps that change the registration ----

  /** A new nonce and the next revision for the same installation, with nothing done under it yet. */
  predicate Rotated(s: P.State, t: P.State, nonce: string) {
    && s.enabled && t.enabled && t.fenced && !t.active && t.generation == 0 && !t.registering
    && t.installation == s.installation && t.nonce == nonce && t.revision == s.revision + 1 && t.revision <= MAX_REVISION
    && t.consent == s.consent && t.revocations == s.revocations
    && t.challenges == [] && t.issued == [] && t.tap.None?
  }

  lemma RotateKeeps(w: World, t: P.State, nonce: string)
    requires WorldOk(w) && FreshNonce(w, nonce) && Rotated(w.phone, t, nonce)
    ensures WorldOk(w.(phone := t, drawn := w.drawn + {nonce}))
  {
    hide StoreOk, AcceptedOk, RowsFrom, ConfirmedOk, GoneAtServer, ConfirmedFor, Remembered, OnePerNonce;
  }

  lemma LostKeeps(w: World, nonce: string)
    requires WorldOk(w)
    ensures WorldOk(w.(drawn := w.drawn + {nonce}))
  {
    hide StoreOk, AcceptedOk, RowsFrom, ConfirmedOk, DeletesOk, ConfirmedFor, OnePerNonce, HeldOk;
  }

  lemma DisableKeeps(w: World)
    requires WorldOk(w)
    ensures WorldOk(w.(phone := P.Disable(w.phone)))
  {
    hide StoreOk, AcceptedOk, RowsFrom, ConfirmedOk, ConfirmedFor, OnePerNonce, DeletesOk;
    DisableRecords(w);
  }

  lemma DisableRecords(w: World)
    requires PhoneOk(w.phone, w.mine, w.drawn) && DeletesOk(w.phone, w.mine, w.deletes, w.deleted, w.db)
    ensures DeletesOk(P.Disable(w.phone), w.mine, w.deletes, w.deleted, w.db)
  {
    hide GoneAtServer;
    var t := P.Disable(w.phone);
    forall i | i in w.mine
      ensures Remembered(t.revocations, i) || GoneAtServer(w.db, i)
    {
      if w.phone.enabled && w.phone.installation == i {
        assert t.revocations[|w.phone.revocations|].installation == i;
      } else if Remembered(w.phone.revocations, i) {
        var r :| r in w.phone.revocations && r.installation == i;
        assert r in t.revocations;
      }
    }
  }

  lemma EnableKeeps(w: World, consent: P.Consent, installation: Installation, nonce: string)
    requires WorldOk(w) && FreshNonce(w, nonce) && FreshInstallation(w, installation)
    ensures WorldOk(EnableNext(w, consent, installation, nonce))
  {
    hide StoreOk, AcceptedOk, ConfirmedFor, OnePerNonce, ConfirmationOk, GoneAtServer, Remembered, Retired;
  }

  // ---- Requests leave and answers arrive ----

  lemma SendPutKeeps(w: World, a: P.Authority, generation: int, now: int)
    requires WorldOk(w)
    ensures WorldOk(SendPutNext(w, a, generation, now))
  {
    hide StoreOk, RowsFrom, ConfirmedOk, DeletesOk, ConfirmedFor;
    DeletesDependOnPhone(w, SendPutNext(w, a, generation, now));
  }

  lemma DeletesDependOnPhone(w: World, v: World)
    requires DeletesOk(w.phone, w.mine, w.deletes, w.deleted, w.db)
    requires v.mine == w.mine && v.deletes == w.deletes && v.deleted == w.deleted && v.db == w.db
    requires v.phone.enabled == w.phone.enabled && v.phone.installation == w.phone.installation && v.phone.revocations == w.phone.revocations
    ensures DeletesOk(v.phone, v.mine, v.deletes, v.deleted, v.db)
  {
  }

  lemma PutAnsweredKeeps(w: World, acceptance: Acceptance)
    requires WorldOk(w) && acceptance in w.accepted
    ensures WorldOk(Next(w, PutAnswered(acceptance)))
  {
    hide StoreOk, RowsFrom, ConfirmedOk, DeletesOk, ConfirmedFor, OnePerNonce;
    DeletesDependOnPhone(w, Next(w, PutAnswered(acceptance)));
  }

  lemma SendConfirmKeeps(w: World, a: P.Authority, generation: int, proof: string)
    requires WorldOk(w)
    ensures WorldOk(SendConfirmNext(w, a, generation, proof))
  {
    hide StoreOk, RowsFrom, AcceptedOk, DeletesOk, ConfirmedFor, ConfirmationOk, OnePerNonce;
    DeletesDependOnPhone(w, SendConfirmNext(w, a, generation, proof));
  }

  lemma ConfirmAnsweredKeeps(w: World, c: ConfirmRequest)
    requires WorldOk(w) && c in w.confirmed
    ensures WorldOk(Next(w, ConfirmAnswered(c)))
  {
    hide StoreOk, RowsFrom, AcceptedOk, DeletesOk, ConfirmationOk, OnePerNonce;
    DeletesDependOnPhone(w, Next(w, ConfirmAnswered(c)));
  }

  lemma SendDeleteKeeps(w: World, r: P.Revocation)
    requires WorldOk(w) && r in w.phone.revocations
    ensures WorldOk(w.(deletes := w.deletes + {r}))
  {
    hide StoreOk, PhoneOk, HeldOk, PutsOk, BeliefOk, RowsFrom, AcceptedOk, ConfirmedOk, NoneForgotten;
  }

  lemma DeleteAnsweredKeeps(w: World, r: P.Revocation)
    requires WorldOk(w) && r in w.deleted
    ensures WorldOk(w.(phone := P.ForgetRevocation(w.phone, r.installation)))
  {
    hide StoreOk, RowsFrom, AcceptedOk, ConfirmedOk, GoneAtServer, ConfirmedFor, OnePerNonce;
    P.WithoutForgets(w.phone.revocations, r.installation);
    ForgetLeavesOthers(w, r);
  }

  lemma ForgetLeavesOthers(w: World, r: P.Revocation)
    requires NoneForgotten(w.phone, w.mine, w.db) && GoneAtServer(w.db, r.installation)
    ensures NoneForgotten(P.ForgetRevocation(w.phone, r.installation), w.mine, w.db)
  {
    P.WithoutForgets(w.phone.revocations, r.installation);
    hide GoneAtServer, P.Without;
    var left := P.Without(w.phone.revocations, r.installation);
    forall i | i in w.mine && i != r.installation && Remembered(w.phone.revocations, i)
      ensures Remembered(left, i)
    {
      var k :| k in w.phone.revocations && k.installation == i;
      assert k in left;
    }
  }

  // ---- Phone moves together ----

  lemma DrewKeeps(w: World, s: Option<P.State>, nonce: string)
    requires WorldOk(w) && FreshNonce(w, nonce)
    requires s.Some? ==> s.value == w.phone || Rotated(w.phone, s.value, nonce)
    ensures WorldOk(Drew(w, s, nonce))
  {
    hide WorldOk;
    LostKeeps(w, nonce);
    if s.Some? && s.value != w.phone {
      RotateKeeps(w, s.value, nonce);
    }
  }

  lemma ReceiveHolds(s: P.State, h: P.RawHint, instance: string, decrypted: bool, permitted: bool, now: int)
    requires s.fenced ==> HeldOk(s)
    ensures var t := P.Receive(s, h, instance, decrypted, permitted, now);
            SameRegistration(s, t) && (t.fenced ==> HeldOk(t))
  {
    if P.ValidHint(s, h, instance, decrypted, now) {
      P.UnexpiredKeeps(s.challenges, h.eventId.value, now);
      hide P.Unexpired;
    }
  }

  lemma NewEndpointRotates(s: P.State, instance: string, url: string, keys: Option<string>, nonce: string)
    ensures var t := P.NewEndpoint(s, instance, url, keys, nonce);
            t.Some? ==> t.value == s || Rotated(s, t.value, nonce)
  {
  }

  lemma OthersRotate(s: P.State, a: P.Authority, generation: int, instance: string, nonce: string)
    ensures P.UpgradeConsent(s, nonce).Some? ==> P.UpgradeConsent(s, nonce).value == s || Rotated(s, P.UpgradeConsent(s, nonce).value, nonce)
    ensures P.Recover(s, a, generation, nonce).Some? ==> Rotated(s, P.Recover(s, a, generation, nonce).value, nonce)
    ensures P.Failure(s, instance, nonce).Some? ==>
              P.Failure(s, instance, nonce).value == s || Rotated(s, P.Failure(s, instance, nonce).value, nonce)
  {
  }

  lemma PhoneMoveKeeps(w: World, move: Move)
    requires WorldOk(w) && Possible(w, move)
    requires move.Enable? || move.Disable? || move.UpgradeConsent? || move.SetPreferences? || move.Recover? || move.NewEndpoint?
             || move.Failure? || move.Receive? || move.CaptureTap? || move.TakeTap?
    ensures WorldOk(Next(w, move))
  {
    assert w.phone.fenced ==> HeldOk(w.phone);
    hide WorldOk, EnableNext, Drew, Rotated, P.Enable, P.Disable, P.Receive, P.NewEndpoint, P.UpgradeConsent, P.Recover, P.Failure;
    match move
    case Enable(consent, installation, nonce) => EnableKeeps(w, consent, installation, nonce);
    case Disable => DisableKeeps(w);
    case UpgradeConsent(nonce) =>
      OthersRotate(w.phone, w.phone.Present(), 0, "", nonce);
      DrewKeeps(w, P.UpgradeConsent(w.phone, nonce), nonce);
    case SetPreferences(master, kinds) => QuietKeeps(w, P.SetPreferences(w.phone, master, kinds));
    case Recover(a, generation, nonce) =>
      OthersRotate(w.phone, a, generation, "", nonce);
      DrewKeeps(w, P.Recover(w.phone, a, generation, nonce), nonce);
    case NewEndpoint(instance, url, keys, nonce) =>
      NewEndpointRotates(w.phone, instance, url, keys, nonce);
      DrewKeeps(w, P.NewEndpoint(w.phone, instance, url, keys, nonce), nonce);
    case Failure(instance, nonce) =>
      OthersRotate(w.phone, w.phone.Present(), 0, instance, nonce);
      DrewKeeps(w, P.Failure(w.phone, instance, nonce), nonce);
    case Receive(hint, instance, decrypted, permitted, now) =>
      ReceiveHolds(w.phone, hint, instance, decrypted, permitted, now);
      QuietKeeps(w, P.Receive(w.phone, hint, instance, decrypted, permitted, now));
    case CaptureTap(tap, now) => QuietKeeps(w, P.CaptureTap(w.phone, tap, now));
    case TakeTap => QuietKeeps(w, P.TakeTap(w.phone));
  }

  // ---- Requests arrive ----

  /** A server step leaves the phone's half alone and only adds to what was accepted and confirmed. */
  predicate ServerStep(w: World, v: World) {
    && v.phone == w.phone && v.mine == w.mine && v.drawn == w.drawn && v.puts == w.puts && v.confirms == w.confirms && v.deletes == w.deletes
    && w.accepted <= v.accepted && w.confirmed <= v.confirmed
  }

  lemma ServerStepKeepsSide(w: World, v: World)
    requires SideOk(w) && ServerStep(w, v)
    ensures SideOk(v)
  {
    hide PhoneOk, HeldOk, PutsOk;
  }

  lemma GoneStays(w: World, v: World)
    requires DeletesOk(w.phone, w.mine, w.deletes, w.deleted, w.db) && ServerStep(w, v) && v.deleted == w.deleted && Later(w.db, v.db)
    ensures DeletesOk(v.phone, v.mine, v.deletes, v.deleted, v.db)
  {
    hide Remembered, Knows;
    assert forall i :: GoneAtServer(w.db, i) ==> GoneAtServer(v.db, i);
  }

  lemma AcceptedStays(puts: set<PutRequest>, accepted: set<Acceptance>, db: Db, db': Db)
    requires AcceptedOk(puts, accepted, db) && Later(db, db')
    ensures AcceptedOk(puts, accepted, db')
  {
  }

  lemma ConfirmedStays(mine: map<Installation, Principal>, confirms: set<ConfirmRequest>, confirmed: set<ConfirmRequest>, db: Db, db': Db)
    requires ConfirmedOk(mine, confirms, confirmed, db) && Later(db, db')
    ensures ConfirmedOk(mine, confirms, confirmed, db')
  {
  }

  /** Whoever acts, a row of the phone keeps its request or ends revoked. */
  lemma RowsStay(mine: map<Installation, Principal>, accepted: set<Acceptance>, db: Db, db': Db)
    requires RowsFrom(mine, accepted, db) && Later(db, db')
    requires forall i :: i in mine && i in db'.registrations ==> i in db.registrations && KeepsContent(db, db', i)
    ensures RowsFrom(mine, accepted, db')
  {
  }

  lemma OnlyPutsAndRevokesAdd(db: Db, op: Op, i: Installation)
    requires StoreOk(db) && i !in db.registrations && !PutOn(op, i) && !(op.RevokeOp? && op.i == i)
    ensures i !in Apply(db, op).registrations
  {
    OtherKeepsContent(db, op, i);
    hide StoreOk, KeepsContent, Put, Record, Deliver, Reopen;
    match op
    case PutOp(p, j, body, policy, now, challenge) => PutWrites(db, p, j, body, policy, now, challenge);
    case RecordOp(order, hook, targets, policy, now, expires) => RecordLeavesRows(db, order, hook, targets, policy, now, expires);
    case DeliverOp(k, token, policy, durable, stopping, code, now) => DeliverRegistersNobody(db, k, token, policy, durable, stopping, code, now, i);
    case ReopenOp => ReopenAgainChangesNothing(db);
    case _ =>
  }

  lemma DeliverRegistersNobody(db: Db, k: JobKey, token: nat, policy: Policy, durable: set<string>, stopping: bool, code: int, now: int, i: Installation)
    requires i !in db.registrations
    ensures i !in Deliver(db, k, token, policy, durable, stopping, code, now).registrations
  {
  }

  lemma ElsewhereKeeps(w: World, op: Op)
    requires WorldOk(w) && OthersMay(w, op)
    ensures WorldOk(w.(db := Apply(w.db, op)))
  {
    hide StoreOk, Apply, SideOk, AcceptedOk, RowsFrom, ConfirmedOk, DeletesOk, Later, KeepsContent;
    var v := w.(db := Apply(w.db, op));
    ApplyKeeps(w.db, op);
    ApplyLater(w.db, op);
    ServerStepKeepsSide(w, v);
    GoneStays(w, v);
    AcceptedStays(w.puts, w.accepted, w.db, v.db);
    ConfirmedStays(w.mine, w.confirms, w.confirmed, w.db, v.db);
    forall i | i in w.mine && i in v.db.registrations
      ensures i in w.db.registrations && KeepsContent(w.db, v.db, i)
    {
      OtherKeepsContent(w.db, op, i);
      if i !in w.db.registrations {
        OnlyPutsAndRevokesAdd(w.db, op, i);
      }
    }
    RowsStay(w.mine, w.accepted, w.db, v.db);
  }

  lemma ConfirmArrivesKeeps(w: World, c: ConfirmRequest, policy: Policy, durable: set<string>, now: int)
    requires WorldOk(w) && c in w.confirms
    ensures WorldOk(ConfirmArrivesNext(w, c, policy, durable, now))
  {
    hide StoreOk, SideOk, AcceptedOk, RowsFrom, DeletesOk, Later, KeepsContent, Confirm, ConfirmedOk;
    var i := c.authority.installation;
    var op := ConfirmOp(c.account, i, c.generation, c.proof, policy, durable, now);
    var db := Apply(w.db, op);
    var v := ConfirmArrivesNext(w, c, policy, durable, now);
    ApplyKeeps(w.db, op);
    ApplyLater(w.db, op);
    ServerStepKeepsSide(w, v);
    GoneStays(w, v);
    AcceptedStays(w.puts, w.accepted, w.db, v.db);
    ConfirmedStays(w.mine, w.confirms, w.confirmed, w.db, v.db);
    ConfirmAdds(w, c, policy, durable, now);
    forall j | j in w.mine && j in v.db.registrations
      ensures j in w.db.registrations && KeepsContent(w.db, v.db, j)
    {
      OtherKeepsContent(w.db, op, j);
      if j !in w.db.registrations {
        OnlyPutsAndRevokesAdd(w.db, op, j);
      }
    }
    RowsStay(w.mine, w.accepted, w.db, v.db);
  }

  lemma ConfirmAdds(w: World, c: ConfirmRequest, policy: Policy, durable: set<string>, now: int)
    requires ConfirmedOk(w.mine, w.confirms, w.confirmed, ConfirmArrivesNext(w, c, policy, durable, now).db) && c in w.confirms
    ensures var v := ConfirmArrivesNext(w, c, policy, durable, now); ConfirmedOk(v.mine, v.confirms, v.confirmed, v.db)
  {
  }

  lemma DeleteArrivesKeeps(w: World, r: P.Revocation, caller: Option<Policy>)
    requires WorldOk(w) && r in w.deletes
    ensures WorldOk(DeleteArrivesNext(w, r, caller))
  {
    assert Knows(w.mine, r);
    hide StoreOk, SideOk, AcceptedOk, RowsFrom, ConfirmedOk, DeletesOk, Later, KeepsContent, Revoke, GoneAtServer;
    var op := RevokeOp(r.account, r.installation, caller);
    var v := DeleteArrivesNext(w, r, caller);
    ApplyKeeps(w.db, op);
    ApplyLater(w.db, op);
    ServerStepKeepsSide(w, v);
    GoneStays(w, v.(deleted := w.deleted));
    DeleteAdds(w, r, caller);
    AcceptedStays(w.puts, w.accepted, w.db, v.db);
    ConfirmedStays(w.mine, w.confirms, w.confirmed, w.db, v.db);
    RevokeRowsFrom(w, r, caller);
  }

  lemma DeleteAdds(w: World, r: P.Revocation, caller: Option<Policy>)
    requires DeletesOk(w.phone, w.mine, w.deletes, w.deleted, DeleteArrivesNext(w, r, caller).db)
    ensures var v := DeleteArrivesNext(w, r, caller); DeletesOk(v.phone, v.mine, v.deletes, v.deleted, v.db)
  {
    hide NoneForgotten, Revoke;
    if Revoke(w.db, r.account, r.installation, caller).1.Accepted? {
      RevokeRevokes(w.db, r.account, r.installation, caller);
    }
  }

  lemma RevokeRowsFrom(w: World, r: P.Revocation, caller: Option<Policy>)
    requires RowsFrom(w.mine, w.accepted, w.db) && Knows(w.mine, r)
    ensures RowsFrom(w.mine, w.accepted, Revoke(w.db, r.account, r.installation, caller).0)
  {
  }

  lemma RequestIsStored(put: PutRequest, generation: nat, challenge: string, expires: int)
    requires PutScope(put.body).Some? && put.body.revision >= 0
    ensures RequestIn(put.i, PendingRow(put.account, generation, put.body, PutScope(put.body).value, challenge, expires)) == put
  {
  }

  lemma StoredRow(mine: map<Installation, Principal>, accepted: set<Acceptance>, db: Db, db': Db, put: PutRequest, row: Registration)
    requires RowsFrom(mine, accepted, db) && put.i in mine && put.account == mine[put.i]
    requires db'.registrations == db.registrations[put.i := row] && RequestIn(put.i, row) == put
    ensures RowsFrom(mine, accepted + {Acceptance(put, row.generation)}, db')
  {
    var all := accepted + {Acceptance(put, row.generation)};
    assert Acceptance(put, row.generation) in all && RevisionAsked(all, put.i, row.revision);
    assert forall i, r :: RevisionAsked(accepted, i, r) ==> RevisionAsked(all, i, r);
    hide RevisionAsked, Retired;
  }

  lemma StoredAcceptance(puts: set<PutRequest>, accepted: set<Acceptance>, db: Db, a: Acceptance)
    requires AcceptedOk(puts, accepted, db) && AcceptanceOk(puts, db, a)
    requires forall b :: b in accepted ==> b.request != a.request
    ensures AcceptedOk(puts, accepted + {a}, db)
  {
  }

  lemma PutAcceptedOnce(w: World, put: PutRequest, policy: Policy, now: int, challenge: string)
    requires WorldOk(w) && put in w.puts
    requires Later(w.db, Put(w.db, put.account, put.i, put.body, policy, now, challenge).0)
    ensures var v := PutArrivesNext(w, put, policy, now, challenge);
            AcceptedOk(v.puts, v.accepted, v.db) && RowsFrom(v.mine, v.accepted, v.db)
  {
    assert PutOk(w.phone, w.mine, w.drawn, put);
    hide StoreOk, SideOk, ConfirmedOk, DeletesOk, Put, AcceptedOk, RowsFrom, Later, PutRefusal, RequestIn;
    var v := PutArrivesNext(w, put, policy, now, challenge);
    AcceptedStays(w.puts, w.accepted, w.db, v.db);
    PutWrites(w.db, put.account, put.i, put.body, policy, now, challenge);
    var reply := Put(w.db, put.account, put.i, put.body, policy, now, challenge).1;
    if reply.Accepted? {
      NewAcceptance(w, put, policy, now, challenge);
      RequestIsStored(put, NextGeneration(w.db, put.i), challenge, now + policy.challengeTtl);
      StoredRow(w.mine, w.accepted, w.db, v.db, put, v.db.registrations[put.i]);
      StoredAcceptance(w.puts, w.accepted, v.db, Acceptance(put, reply.generation));
    }
  }

  lemma NewAcceptance(w: World, put: PutRequest, policy: Policy, now: int, challenge: string)
    requires AcceptedOk(w.puts, w.accepted, w.db) && put in w.puts && Put(w.db, put.account, put.i, put.body, policy, now, challenge).1.Accepted?
    ensures PutRefusal(w.db, put.account, put.i, put.body, policy).None?
    ensures Put(w.db, put.account, put.i, put.body, policy, now, challenge).1.generation == NextGeneration(w.db, put.i)
    ensures forall a :: a in w.accepted ==> a.request != put
  {
  }

  lemma PutArrivesKeeps(w: World, put: PutRequest, policy: Policy, now: int, challenge: string)
    requires WorldOk(w) && put in w.puts
    ensures WorldOk(PutArrivesNext(w, put, policy, now, challenge))
  {
    hide StoreOk, SideOk, AcceptedOk, RowsFrom, ConfirmedOk, DeletesOk, Later, Put;
    var op := PutOp(put.account, put.i, put.body, policy, now, challenge);
    var v := PutArrivesNext(w, put, policy, now, challenge);
    ApplyKeeps(w.db, op);
    ApplyLater(w.db, op);
    ServerStepKeepsSide(w, v);
    GoneStays(w, v);
    ConfirmedStays(w.mine, w.confirms, w.confirmed, w.db, v.db);
    PutAcceptedOnce(w, put, policy, now, challenge);
  }

  lemma NextKeeps(w: World, move: Move)
    requires WorldOk(w) && Possible(w, move)
    ensures WorldOk(Next(w, move))
  {
    if move.SendPut? || move.PutArrives? || move.PutAnswered? || move.SendConfirm? || move.ConfirmArrives? || move.ConfirmAnswered?
       || move.SendDelete? || move.DeleteArrives? || move.DeleteAnswered? || move.Elsewhere? {
      hide WorldOk, Put, Confirm, Revoke, Apply;
      match move
      case SendPut(a, generation, now) => SendPutKeeps(w, a, generation, now);
      case PutArrives(put, policy, now, challenge) => PutArrivesKeeps(w, put, policy, now, challenge);
      case PutAnswered(acceptance) => PutAnsweredKeeps(w, acceptance);
      case SendConfirm(a, generation, proof) => SendConfirmKeeps(w, a, generation, proof);
      case ConfirmArrives(confirm, policy, durable, now) => ConfirmArrivesKeeps(w, confirm, policy, durable, now);
      case ConfirmAnswered(confirm) => ConfirmAnsweredKeeps(w, confirm);
      case SendDelete(revocation) => SendDeleteKeeps(w, revocation);
      case DeleteArrives(revocation, caller) => DeleteArrivesKeeps(w, revocation, caller);
      case DeleteAnswered(revocation) => DeleteAnsweredKeeps(w, revocation);
      case Elsewhere(op) => ElsewhereKeeps(w, op);
    } else {
      PhoneMoveKeeps(w, move);
    }
  }

  lemma {:induction false} PlayKeeps(start: World, moves: seq<Move>)
    requires WorldOk(start) && Run(start, moves)
    ensures WorldOk(Play(start, moves))
  {
    if moves != [] {
      hide WorldOk, Next, Possible;
      PlayKeeps(start, moves[..|moves| - 1]);
      NextKeeps(Play(start, moves[..|moves| - 1]), moves[|moves| - 1]);
    }
  }

  // ---- Agreement ----

  /** However the network behaves: a phone that is active at a generation was given that generation for the
      request it sent under its present nonce, the server confirmed it, and the server's row is either
      active at exactly that generation with exactly that request, or revoked. */
  lemma {:induction false} ActiveMeansConfirmed(start: World, moves: seq<Move>)
    requires Start(start) && Run(start, moves)
    requires var s := Play(start, moves).phone; Registered(s) && s.active
    ensures var w := Play(start, moves);
            var s := w.phone;
            && s.endpoint.Some? && s.keys.Some? && s.generation > 0
            && Acceptance(PutOf(s), s.generation) in w.accepted
            && ConfirmedFor(w.confirmed, s.Present(), s.generation)
            && s.installation in w.db.registrations
            && var row := w.db.registrations[s.installation];
               row.status == Revoked
               || (row.status == Active && row.generation == s.generation && RequestIn(s.installation, row) == PutOf(s))
  {
    StartIsOk(start);
    PlayKeeps(start, moves);
    RowOfActive(Play(start, moves));
  }

  lemma RowOfActive(w: World)
    requires WorldOk(w) && Registered(w.phone) && w.phone.active
    ensures var s := w.phone;
            && s.endpoint.Some? && s.keys.Some? && s.generation > 0
            && Acceptance(PutOf(s), s.generation) in w.accepted
            && ConfirmedFor(w.confirmed, s.Present(), s.generation)
            && s.installation in w.db.registrations
            && var row := w.db.registrations[s.installation];
               row.status == Revoked
               || (row.status == Active && row.generation == s.generation && RequestIn(s.installation, row) == PutOf(s))
  {
    hide StoreOk, DeletesOk, OnePerNonce, HeldOk;
    var s := w.phone;
    var a := Acceptance(PutOf(s), s.generation);
    var row := w.db.registrations[s.installation];
    assert AcceptanceOk(w.puts, w.db, a);
    if row.status != Revoked {
      var b := Acceptance(RequestIn(s.installation, row), row.generation);
      assert AcceptanceOk(w.puts, w.db, b);
      assert PutOk(s, w.mine, w.drawn, b.request);
    }
  }

  /** The server never holds a revision that the phone has not reached. */
  lemma {:induction false} ServerIsNeverAhead(start: World, moves: seq<Move>)
    requires Start(start) && Run(start, moves)
    requires var w := Play(start, moves); w.phone.enabled && w.phone.installation in w.db.registrations
    ensures var w := Play(start, moves); w.db.registrations[w.phone.installation].revision <= w.phone.revision
  {
    StartIsOk(start);
    PlayKeeps(start, moves);
    RowIsNeverAhead(Play(start, moves));
  }

  lemma RowIsNeverAhead(w: World)
    requires WorldOk(w) && w.phone.enabled && w.phone.installation in w.db.registrations
    ensures w.db.registrations[w.phone.installation].revision <= w.phone.revision
  {
    hide StoreOk, DeletesOk, OnePerNonce, HeldOk, ConfirmedOk, BeliefOk;
    var i := w.phone.installation;
    assert RevisionAsked(w.accepted, i, w.db.registrations[i].revision);
    if w.db.registrations[i].revision > 0 {
      var a :| a in w.accepted && a.request.i == i && a.request.body.revision == w.db.registrations[i].revision;
      assert AcceptanceOk(w.puts, w.db, a) && PutOk(w.phone, w.mine, w.drawn, a.request);
    }
  }

  // ---- First arrivals ----

  predicate NamesTwice(sessions: seq<string>) {
    exists i, j :: 0 <= i < j < |sessions| && sessions[i] == sessions[j]
  }

  /** The server's answer to a request whose nonce it has not seen. */
  ghost predicate FirstAnswer(w: World, m: PutRequest, policy: Policy, refusal: Option<int>) {
    if m.body.mode == Explicit && NamesTwice(w.phone.consent.sessions) then refusal == Some(422)
    else if GoneAtServer(w.db, m.i) then refusal == Some(409)
    else if m.i !in w.db.registrations && |w.db.registrations| >= policy.maxRegistrations then refusal == Some(429)
    else refusal == None
  }

  /** The first arrival of the phone's present request, in particular the one after a recovery, is refused
      exactly when the row was revoked, when there is no row and the table is full, or when the user's
      selection names a session twice: the phone alone does not notice that. */
  lemma {:induction false} FirstArrival(start: World, moves: seq<Move>, policy: Policy)
    requires Start(start) && Run(start, moves)
    requires var w := Play(start, moves); Asked(w.phone) && (w.phone.installation, w.phone.nonce) !in w.db.nonces
    ensures var w := Play(start, moves);
            var m := PutOf(w.phone);
            FirstAnswer(w, m, policy, PutRefusal(w.db, m.account, m.i, m.body, policy))
  {
    StartIsOk(start);
    PlayKeeps(start, moves);
    FirstArrivalAt(Play(start, moves), policy);
  }

  lemma FirstArrivalAt(w: World, policy: Policy)
    requires WorldOk(w) && Asked(w.phone) && (w.phone.installation, w.phone.nonce) !in w.db.nonces
    ensures var m := PutOf(w.phone); FirstAnswer(w, m, policy, PutRefusal(w.db, m.account, m.i, m.body, policy))
  {
    var m := PutOf(w.phone);
    ScopeOfPhone(w.phone);
    if m.i in w.db.registrations && w.db.registrations[m.i].status != Revoked {
      OlderRow(w);
    }
    hide WorldOk, PutScope, P.ValidScope;
    assert PhoneOk(w.phone, w.mine, w.drawn) && RowsFrom(w.mine, w.accepted, w.db) by { OwnRow(w); }
  }

  lemma OwnRow(w: World)
    requires WorldOk(w)
    ensures PhoneOk(w.phone, w.mine, w.drawn) && RowsFrom(w.mine, w.accepted, w.db)
  {
  }

  lemma ScopeOfPhone(s: P.State)
    requires P.ValidScope(s) && s.endpoint.Some? && s.keys.Some?
    ensures PutScope(PutOf(s).body).None? <==> s.consent.mode == Explicit && NamesTwice(s.consent.sessions)
  {
  }

  /** A row that has not seen the present nonce holds an older request. */
  lemma OlderRow(w: World)
    requires WorldOk(w) && Asked(w.phone) && (w.phone.installation, w.phone.nonce) !in w.db.nonces
    requires w.phone.installation in w.db.registrations && w.db.registrations[w.phone.installation].status != Revoked
    ensures var row := w.db.registrations[w.phone.installation];
            row.revision < w.phone.revision && row.nonce != w.phone.nonce && row.owner == w.phone.consent.account
  {
    hide DeletesOk, OnePerNonce, HeldOk, ConfirmedOk, BeliefOk, IndexOk, ChallengesOk, JobsOk, LeasesOk;
    var i := w.phone.installation;
    var row := w.db.registrations[i];
    assert RowOk(w.db, i);
    if !Retired(row) {
      var a := Acceptance(RequestIn(i, row), row.generation);
      assert AcceptanceOk(w.puts, w.db, a) && PutOk(w.phone, w.mine, w.drawn, a.request);
    }
  }

  // ---- Old nonces ----

  /** Drawn once and no longer present. */
  ghost predicate Spent(w: World, nonce: string) {
    nonce in w.drawn && !(Registered(w.phone) && w.phone.nonce == nonce)
  }

  predicate KeepsNonce(s: P.State, t: P.State) {
    t.enabled == s.enabled && t.fenced == s.fenced && t.nonce == s.nonce
  }

  lemma QuietStates(s: P.State, move: Move)
    ensures move.Receive? ==> KeepsNonce(s, P.Receive(s, move.hint, move.instance, move.decrypted, move.permitted, move.now))
    ensures move.NewEndpoint? ==>
      var t := P.NewEndpoint(s, move.instance, move.url, move.keys, move.nonce); t.Some? ==> KeepsNonce(s, t.value) || t.value.nonce == move.nonce
    ensures move.Failure? ==>
      var t := P.Failure(s, move.instance, move.nonce); t.Some? ==> KeepsNonce(s, t.value) || t.value.nonce == move.nonce
  {
  }

  lemma SpentStaysSpent(w: World, move: Move, nonce: string)
    requires Possible(w, move) && Spent(w, nonce)
    ensures Spent(Next(w, move), nonce)
  {
    QuietStates(w.phone, move);
    hide P.Receive, P.NewEndpoint, P.Failure, Put, Confirm, Revoke, Apply, P.Without, P.ValidScope, FreshInstallation, OthersMay, P.ValidSessions;
  }

  lemma {:induction false} SpentForGood(start: World, moves: seq<Move>, more: seq<Move>, nonce: string)
    requires Run(start, moves + more) && Spent(Play(start, moves), nonce)
    ensures Spent(Play(start, moves + more), nonce)
  {
    hide Next, Possible, Spent;
    if more == [] {
      assert moves + more == moves;
    } else {
      var front := more[..|more| - 1];
      assert (moves + more)[..|moves + more| - 1] == moves + front;
      SpentForGood(start, moves, front, nonce);
      SpentStaysSpent(Play(start, moves + front), more[|more| - 1], nonce);
    }
  }

  /** After an invalidation or a withdrawal of consent, no push under the old nonce is ever accepted again
      and nothing accepted under it is ever opened, however late it arrives. */
  lemma OldNonceIsDead(start: World, moves: seq<Move>, more: seq<Move>, nonce: string,
                       hint: P.RawHint, instance: string, decrypted: bool, permitted: bool, tap: P.Tap, now: int)
    requires Start(start) && Run(start, moves + more)
    requires nonce in Play(start, moves).drawn && !(Registered(Play(start, moves).phone) && Play(start, moves).phone.nonce == nonce)
    requires hint.nonce == Some(nonce) && tap.authority.nonce == nonce
    ensures var s := Play(start, moves + more).phone;
            && P.Receive(s, hint, instance, decrypted, permitted, now) == s
            && !P.Notifies(s, hint, instance, decrypted, permitted, now)
            && P.CaptureTap(s, tap, now) == s
            && P.TapTaken(s, now) != Some(tap)
            && (s.fenced ==> tap !in s.issued || !s.enabled)
            && (Registered(s) ==> forall c :: c in s.challenges ==> c.nonce != nonce)
  {
    StartIsOk(start);
    PlayKeeps(start, moves + more);
    assert Spent(Play(start, moves), nonce);
    SpentForGood(start, moves, more, nonce);
    HeldIsPresent(Play(start, moves + more), nonce);
    hide Run, Play, WorldOk;
  }

  lemma HeldIsPresent(w: World, nonce: string)
    requires WorldOk(w) && Spent(w, nonce)
    ensures w.phone.fenced ==> HeldOk(w.phone)
    ensures Registered(w.phone) ==> w.phone.nonce != nonce
  {
  }

  // ---- Withdrawn consent reaches the server ----

  /** An installation leaves the phone's record only after the server has revoked it, and then nothing is
      queued for it. */
  lemma {:induction false} ForgottenIsSilent(start: World, moves: seq<Move>, i: Installation)
    requires Start(start) && Run(start, moves)
    requires var w := Play(start, moves);
             i in w.mine && !(w.phone.enabled && w.phone.installation == i) && !Remembered(w.phone.revocations, i)
    ensures var w := Play(start, moves);
            GoneAtServer(w.db, i) && forall k :: k in w.db.outbox ==> k.installation != i
  {
    StartIsOk(start);
    PlayKeeps(start, moves);
    GoneIsSilent(Play(start, moves), i);
  }

  lemma GoneIsSilent(w: World, i: Installation)
    requires WorldOk(w) && i in w.mine && !(w.phone.enabled && w.phone.installation == i) && !Remembered(w.phone.revocations, i)
    ensures GoneAtServer(w.db, i) && forall k :: k in w.db.outbox ==> k.installation != i
  {
    hide SideOk, AcceptedOk, RowsFrom, ConfirmedOk, IndexOk, ChallengesOk, LeasesOk, RowsOk;
    assert forall k :: k in w.db.outbox ==> JobOk(w.db, k);
  }

  // ---- The theorems are not empty ----

  lemma OneMore(start: World, moves: seq<Move>, move: Move) returns (all: seq<Move>)
    requires Run(start, moves) && Possible(Play(start, moves), move)
    ensures all == moves + [move] && Run(start, all) && Play(start, all) == Next(Play(start, moves), move)
  {
    all := moves + [move];
    assert all[..|all| - 1] == moves;
  }

  function NewWorld(): World {
    World(P.NewState(), EmptyDb(), map[], {}, {}, {}, {}, {}, {}, {})
  }

  /** The state of a phone that is enabled at `i`, has an endpoint and sent its first request. */
  function AskingState(consent: P.Consent, i: Installation, nonce: string, endpoint: string, keys: string): P.State {
    P.State(true, false, true, i, nonce, 2, 0, consent, Some(endpoint), Some(keys), true, false, Some(300), [], [], [], None, [], false)
  }

  lemma AskingIsReachable(consent: P.Consent, i: Installation, nonce: string, renewed: string, endpoint: string, keys: string)
    returns (moves: seq<Move>)
    requires P.Enable(P.NewState(), consent, i, nonce).Some? && i != "" && nonce != "" && renewed != "" && nonce != renewed
    ensures Run(NewWorld(), moves)
    ensures var s := AskingState(consent, i, renewed, endpoint, keys);
            Play(NewWorld(), moves) == NewWorld().(phone := s, mine := map[i := consent.account], drawn := {nonce, renewed}, puts := {PutOf(s)})
  {
    moves := OneMore(NewWorld(), [], Enable(consent, i, nonce));
    moves := OneMore(NewWorld(), moves, NewEndpoint(i, endpoint, Some(keys), renewed));
    moves := OneMore(NewWorld(), moves, SendPut(P.Authority(i, renewed, 2), 0, 0));
  }

  /** The row that the first request of `AskingState` leaves. */
  function FirstRow(s: P.State, challenge: string, policy: Policy): Registration
    requires s.revision >= 0 && s.endpoint.Some? && s.keys.Some?
  {
    PendingRow(s.consent.account, 1, PutOf(s).body, SessionScope(Authorized, []), challenge, policy.challengeTtl)
  }

  lemma PutGetsThrough(w: World, policy: Policy, challenge: string)
    requires w.phone.consent.mode == Authorized && policy.maxRegistrations > 0 && w.db == EmptyDb()
    requires Asked(w.phone) && PutOf(w.phone) in w.puts && 1 <= w.phone.revision <= MAX_REVISION
    ensures var move := PutArrives(PutOf(w.phone), policy, 0, challenge);
            var v := Next(w, move);
            && Possible(w, move) && v.phone == w.phone && Acceptance(PutOf(w.phone), 1) in v.accepted
            && w.phone.installation in v.db.registrations
            && v.db.registrations[w.phone.installation] == FirstRow(w.phone, challenge, policy)
  {
    hide Put;
    var put := PutOf(w.phone);
    FirstPut(put, policy, challenge);
  }

  lemma FirstPut(put: PutRequest, policy: Policy, challenge: string)
    requires put.body.mode == Authorized && put.body.sessionIds.None? && policy.maxRegistrations > 0 && 1 <= put.body.revision <= MAX_REVISION
    ensures var (db, reply) := Put(EmptyDb(), put.account, put.i, put.body, policy, 0, challenge);
            && reply == Accepted(1) && put.i in db.registrations
            && db.registrations[put.i] ==
                 PendingRow(put.account, 1, put.body, SessionScope(Authorized, []), challenge, policy.challengeTtl)
  {
    PutWrites(EmptyDb(), put.account, put.i, put.body, policy, 0, challenge);
    hide QueueChallenge, Prune, WriteRegistration;
  }

  lemma AnswerGetsThrough(w: World)
    requires Asked(w.phone) && w.phone.registering && w.phone.generation == 0 && P.ValidScope(w.phone)
    requires Acceptance(PutOf(w.phone), 1) in w.accepted
    ensures var move := PutAnswered(Acceptance(PutOf(w.phone), 1));
            Possible(w, move) && Next(w, move) == w.(phone := w.phone.(generation := 1, registering := false))
  {
  }

  lemma ProofGetsThrough(w: World, policy: Policy, challenge: string)
    requires Asked(w.phone) && w.phone.generation == 1 && !w.phone.active && !w.phone.confirming && P.ValidScope(w.phone)
    ensures var move := SendConfirm(w.phone.Present(), 1, challenge);
            Possible(w, move) && Next(w, move) == w.(phone := w.phone.(confirming := true),
                                confirms := w.confirms + {ConfirmRequest(w.phone.Present(), w.phone.consent.account, 1, challenge)})
  {
  }

  lemma ConfirmGetsThrough(w: World, c: ConfirmRequest, s: P.State, policy: Policy)
    requires c in w.confirms && c.generation == 1
    requires s.consent.mode == Authorized && s.revision >= 0 && s.endpoint.Some? && s.keys.Some? && s.consent.account == c.account
    requires policy.enabled && c.account in policy.ownerGrants && policy.challengeTtl > 0
    requires c.authority.installation in w.db.registrations
    requires w.db.registrations[c.authority.installation] == FirstRow(s, c.proof, policy)
    ensures var move := ConfirmArrives(c, policy, {}, 0);
            Possible(w, move) && Next(w, move).phone == w.phone && c in Next(w, move).confirmed
  {
  }

  lemma ConfirmationGetsThrough(w: World, c: ConfirmRequest)
    requires c in w.confirmed && Registered(w.phone) && w.phone.confirming && w.phone.generation == c.generation > 0
    requires P.ValidScope(w.phone) && c.authority == w.phone.Present()
    ensures var move := ConfirmAnswered(c);
            Possible(w, move) && Registered(Next(w, move).phone) && Next(w, move).phone.active
  {
  }

  /** A first request is under way. */
  ghost predicate Asking(w: World, consent: P.Consent) {
    var s := w.phone;
    && Asked(s) && s.registering && s.generation == 0 && !s.active && !s.confirming && P.ValidScope(s) && s.consent == consent
    && 1 <= s.revision <= MAX_REVISION && PutOf(s) in w.puts && w.db == EmptyDb()
  }

  lemma Completes(start: World, asked: seq<Move>, consent: P.Consent, policy: Policy, challenge: string) returns (moves: seq<Move>)
    requires Run(start, asked) && Asking(Play(start, asked), consent) && consent.mode == Authorized
    requires policy.enabled && consent.account in policy.ownerGrants && policy.challengeTtl > 0 && policy.maxRegistrations > 0
    ensures Run(start, moves) && Registered(Play(start, moves).phone) && Play(start, moves).phone.active
  {
    hide Play, Run, Next, PutOf, FirstRow, Possible, EmptyDb, P.ValidSessions;
    var s := Play(start, asked).phone;
    PutGetsThrough(Play(start, asked), policy, challenge);
    moves := OneMore(start, asked, PutArrives(PutOf(s), policy, 0, challenge));
    AnswerGetsThrough(Play(start, moves));
    moves := OneMore(start, moves, PutAnswered(Acceptance(PutOf(s), 1)));
    var confirm := ConfirmRequest(s.Present(), consent.account, 1, challenge);
    ProofGetsThrough(Play(start, moves), policy, challenge);
    moves := OneMore(start, moves, SendConfirm(s.Present(), 1, challenge));
    ConfirmGetsThrough(Play(start, moves), confirm, s, policy);
    moves := OneMore(start, moves, ConfirmArrives(confirm, policy, {}, 0));
    ConfirmationGetsThrough(Play(start, moves), confirm);
    moves := OneMore(start, moves, ConfirmAnswered(confirm));
  }

  /** A phone that enables, registers and confirms over a kind network does become active. */
  lemma ActiveIsReachable(consent: P.Consent, policy: Policy, i: Installation, nonce: string, renewed: string, challenge: string)
    returns (moves: seq<Move>)
    requires consent.mode == Authorized && consent.sessions == []
    requires policy.enabled && consent.account in policy.ownerGrants && policy.challengeTtl > 0 && policy.maxRegistrations > 0
    requires i != "" && nonce != "" && renewed != "" && nonce != renewed
    ensures Start(NewWorld()) && Run(NewWorld(), moves)
    ensures Registered(Play(NewWorld(), moves).phone) && Play(NewWorld(), moves).phone.active
  {
    hide Play, Run, Next;
    var asked := AskingIsReachable(consent, i, nonce, renewed, "endpoint", "keys");
    moves := Completes(NewWorld(), asked, consent, policy, challenge);
  }

  // ---- A first arrival that is refused for a repeated session ----

  function Repeating(account: Principal): P.Consent {
    P.Consent("connection", account, Explicit, ["session", "session"], true, [])
  }

  lemma RepeatingIsAccepted(account: Principal, i: Installation, nonce: string)
    ensures P.Enable(P.NewState(), Repeating(account), i, nonce).Some? && NamesTwice(Repeating(account).sessions)
  {
    var sessions := Repeating(account).sessions;
    assert Identifier("session");
    assert sessions[0] == sessions[1];
  }

  /** The phone takes a selection that names a session twice and asks for it; the server, under any policy,
      refuses that first request with 422 and stores nothing. */
  lemma {:induction false} RepeatedSessionIsRefused(account: Principal, policy: Policy, challenge: string) returns (moves: seq<Move>)
    ensures Start(NewWorld()) && Run(NewWorld(), moves)
    ensures var w := Play(NewWorld(), moves);
            && Asked(w.phone) && w.phone.consent == Repeating(account) && PutOf(w.phone) in w.puts
            && var m := PutOf(w.phone);
               && FirstAnswer(w, m, policy, Some(422))
               && Put(w.db, m.account, m.i, m.body, policy, 0, challenge) == (w.db, Refused(422))
  {
    hide Run, Play, P.ValidSessions, SessionScope.ValidSessions;
    RepeatingIsAccepted(account, "installation", "first");
    moves := AskingIsReachable(Repeating(account), "installation", "first", "second", "endpoint", "keys");
    var s := AskingState(Repeating(account), "installation", "second", "endpoint", "keys");
    RefusedScope(s);
  }

  lemma RefusedScope(s: P.State)
    requires s.endpoint.Some? && s.keys.Some? && s.consent.mode == Explicit && NamesTwice(s.consent.sessions)
    ensures PutScope(PutOf(s).body).None?
  {
  }
}
