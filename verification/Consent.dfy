/** The native authority's gates: one-use consent tickets, account-change gates, and the account storage
    of engines that died while it was still running. */
module Consent {
  import opened Basics
  import opened PushTypes
  import P = Phone

  /** One Flutter engine; the authority outlives it. */
  class EngineOwner {
    var attached: bool
    var storageOperations: nat
    var metadataOperations: nat

    constructor ()
      ensures attached && storageOperations == 0 && metadataOperations == 0
    {
      attached, storageOperations, metadataOperations := true, 0, 0;
    }
  }

  datatype Owner = Owner(attached: bool, storage: nat, metadata: nat)

  datatype Fence = Fence(owner: EngineOwner, token: string)

  datatype Change = Change(owner: EngineOwner, connections: set<string>)

  datatype Operation = Operation(owner: EngineOwner, metadata: bool)

  /** Everything the authority holds. `operations` are the storage calls that have not completed. */
  datatype Native = Native(
    phone: P.State,
    owners: map<EngineOwner, Owner>,
    storageOwners: set<EngineOwner>,
    fences: map<string, Fence>,
    changes: map<string, Change>,
    operations: map<nat, Operation>,
    nextOperation: nat,
    drawn: set<string>)

  datatype Command =
    | Attach(owner: EngineOwner)
    | Detach(owner: EngineOwner)
    | BeginStorage(owner: EngineOwner, metadata: bool)
    | Complete(number: nat)
    | Ticket(owner: EngineOwner, connection: string, token: string)
    | BeginChange(owner: EngineOwner, mutation: string, connections: set<string>)
    | EndChange(owner: EngineOwner, mutation: string)
    | ConnectionChanged(owner: EngineOwner, connection: string)
    | Enable(owner: EngineOwner, grant: Grant)
    | Disable(owner: EngineOwner, only: Option<string>)
    | MetadataWrite(rowChanged: bool)
    | OnPhone(next: P.State)

  /** An enable request and what the platform answers to it: whether the saved account is the one named,
      whether notifications are permitted and whether the distributor can be selected. */
  datatype Grant = Grant(
    consent: P.Consent,
    token: string,
    savedMatches: bool,
    permitted: bool,
    selectable: bool,
    installation: string,
    nonce: string)

  datatype Outcome = Refused | Consumed | Enabled(phone: P.State)

  // ---- Tests ----

  predicate Attached(n: Native, owner: EngineOwner) {
    owner in n.owners && n.owners[owner].attached
  }

  predicate Draining(n: Native) {
    exists o :: o in n.storageOwners && !Attached(n, o)
  }

  predicate StorageReady(n: Native) {
    forall o :: o in n.storageOwners && o in n.owners ==> n.owners[o].attached && n.owners[o].metadata == 0
  }

  predicate ChangePending(n: Native, connection: string) {
    exists m :: m in n.changes && connection in n.changes[m].connections
  }

  predicate Holds(n: Native, owner: EngineOwner, connection: string, token: string) {
    connection in n.fences && n.fences[connection] == Fence(owner, token)
  }

  // ---- Steps ----

  function Release(n: Native, owner: EngineOwner): Native
    requires owner in n.owners
  {
    if n.owners[owner].attached || n.owners[owner].storage > 0 then n
    else n.(changes := map m | m in n.changes && n.changes[m].owner != owner :: n.changes[m],
            storageOwners := n.storageOwners - {owner})
  }

  function DetachNext(n: Native, owner: EngineOwner): Native {
    if owner !in n.owners then n
    else Release(n.(owners := n.owners[owner := n.owners[owner].(attached := false)],
                    fences := map c | c in n.fences && n.fences[c].owner != owner :: n.fences[c]),
                 owner)
  }

  function BeginStorageNext(n: Native, owner: EngineOwner, metadata: bool): Native {
    if !Attached(n, owner) || Draining(n) then n
    else
      var o := n.owners[owner];
      n.(owners := n.owners[owner := Owner(true, o.storage + 1, if metadata then o.metadata + 1 else o.metadata)],
         storageOwners := n.storageOwners + {owner},
         operations := n.operations[n.nextOperation := Operation(owner, metadata)],
         nextOperation := n.nextOperation + 1)
  }

  /** A completion takes effect once, however often it is reported. */
  function CompleteNext(n: Native, number: nat): Native {
    if number !in n.operations || n.operations[number].owner !in n.owners then n
    else
      var op := n.operations[number];
      var o := n.owners[op.owner];
      if o.storage == 0 || (op.metadata && o.metadata == 0) then n
      else
        var left := Owner(o.attached, o.storage - 1, if op.metadata then o.metadata - 1 else o.metadata);
        Release(n.(owners := n.owners[op.owner := left],
                   storageOwners := if left.storage == 0 then n.storageOwners - {op.owner} else n.storageOwners,
                   operations := n.operations - {number}),
                op.owner)
  }

  function TicketNext(n: Native, owner: EngineOwner, connection: string, token: string): Native {
    if !Attached(n, owner) || !StorageReady(n) || ChangePending(n, connection) then n
    else if connection in n.fences && n.fences[connection].owner == owner then n
    else n.(fences := n.fences[connection := Fence(owner, token)], drawn := n.drawn + {token})
  }

  predicate MayBegin(n: Native, owner: EngineOwner, mutation: string, connections: set<string>) {
    && Attached(n, owner) && mutation != "" && "" !in connections && !Draining(n)
    && (mutation in n.changes ==> n.changes[mutation] == Change(owner, connections))
  }

  /** Withdraw consent if it concerns one of the connections. */
  function DisableIn(s: P.State, connections: set<string>): P.State {
    if s.enabled && s.consent.connection in connections then P.Disable(s) else s
  }

  function BeginChangeNext(n: Native, owner: EngineOwner, mutation: string, connections: set<string>): Native {
    if !MayBegin(n, owner, mutation, connections) then n
    else n.(changes := n.changes[mutation := Change(owner, connections)], fences := n.fences - connections,
            phone := DisableIn(n.phone, connections))
  }

  function EndChangeNext(n: Native, owner: EngineOwner, mutation: string): Native {
    if !Attached(n, owner) || (mutation in n.changes && n.changes[mutation].owner != owner) || n.owners[owner].storage > 0 then n
    else n.(changes := n.changes - {mutation})
  }

  function ConnectionChangedNext(n: Native, owner: EngineOwner, connection: string): Native {
    if !Attached(n, owner) then n
    else n.(fences := n.fences - {connection}, phone := DisableIn(n.phone, {connection}))
  }

  function Admit(n: Native, owner: EngineOwner, g: Grant): Outcome {
    var enabled := P.Enable(n.phone, g.consent, g.installation, g.nonce);
    if !Attached(n, owner) || enabled.None? || !StorageReady(n) || ChangePending(n, g.consent.connection)
       || !Holds(n, owner, g.consent.connection, g.token) || !g.savedMatches then Refused
    else if !g.permitted || !g.selectable then Consumed
    else Enabled(enabled.value)
  }

  function EnableNext(n: Native, owner: EngineOwner, g: Grant): Native {
    match Admit(n, owner, g)
    case Refused => n
    case Consumed => n.(fences := n.fences - {g.consent.connection})
    case Enabled(s) => n.(fences := n.fences - {g.consent.connection}, phone := s)
  }

  function DisableNext(n: Native, owner: EngineOwner, connection: Option<string>): Native {
    if !Attached(n, owner) then n
    else n.(fences := if connection.None? then map[] else n.fences - {connection.value}, phone := P.Disable(n.phone))
  }

  function MetadataWriteNext(n: Native, rowChanged: bool): Native {
    n.(fences := map[], phone := if n.phone.enabled && rowChanged then P.Disable(n.phone) else n.phone)
  }

  function Next(n: Native, c: Command): Native {
    match c
    case Attach(owner) => if owner in n.owners then n else n.(owners := n.owners[owner := Owner(true, 0, 0)])
    case Detach(owner) => DetachNext(n, owner)
    case BeginStorage(owner, metadata) => BeginStorageNext(n, owner, metadata)
    case Complete(number) => CompleteNext(n, number)
    case Ticket(owner, connection, token) => TicketNext(n, owner, connection, token)
    case BeginChange(owner, mutation, connections) => BeginChangeNext(n, owner, mutation, connections)
    case EndChange(owner, mutation) => EndChangeNext(n, owner, mutation)
    case ConnectionChanged(owner, connection) => ConnectionChangedNext(n, owner, connection)
    case Enable(owner, grant) => EnableNext(n, owner, grant)
    case Disable(owner, connection) => DisableNext(n, owner, connection)
    case MetadataWrite(rowChanged) => MetadataWriteNext(n, rowChanged)
    case OnPhone(next) => n.(phone := next)
  }

  /** A ticket's token is a fresh UUID; the phone's other commands neither grant nor withdraw consent. */
  predicate Possible(n: Native, c: Command) {
    match c
    case Ticket(_, _, token) => token !in n.drawn
    case OnPhone(next) => next.enabled == n.phone.enabled && next.consent.connection == n.phone.consent.connection
    case _ => true
  }

  function After(n: Native, cs: seq<Command>): Native {
    if cs == [] then n else Next(After(n, cs[..|cs| - 1]), cs[|cs| - 1])
  }

  predicate Run(n: Native, cs: seq<Command>) {
    forall k :: 0 <= k < |cs| ==> Possible(After(n, cs[..k]), cs[k])
  }

  // ---- Draining ----

  function Outstanding(n: Native, owner: EngineOwner): set<nat> {
    set k | k in n.operations && n.operations[k].owner == owner
  }

  function OutstandingMetadata(n: Native, owner: EngineOwner): set<nat> {
    set k | k in n.operations && n.operations[k].owner == owner && n.operations[k].metadata
  }

  /** The counters count what is outstanding, and the owners listed are exactly those with something outstanding. */
  ghost predicate CountsOk(n: Native) {
    && (forall k :: k in n.operations ==> k < n.nextOperation && n.operations[k].owner in n.owners)
    && (forall o :: o in n.owners ==> n.owners[o].storage == |Outstanding(n, o)| && n.owners[o].metadata == |OutstandingMetadata(n, o)|)
    && (forall o :: o in n.storageOwners ==> o in n.owners && n.owners[o].storage > 0)
    && (forall o :: o in n.owners && n.owners[o].storage > 0 ==> o in n.storageOwners)
  }

  /** A dead engine holds no ticket, and gates only while its storage is draining. */
  ghost predicate GatesOk(n: Native) {
    && (forall c :: c in n.fences ==> Attached(n, n.fences[c].owner))
    && (forall m :: m in n.changes ==> n.changes[m].owner in n.owners
                                       && (n.owners[n.changes[m].owner].attached || n.owners[n.changes[m].owner].storage > 0))
  }

  ghost predicate NativeOk(n: Native) {
    CountsOk(n) && GatesOk(n)
  }

  lemma CountStep(n: Native, v: Native, owner: EngineOwner)
    requires v.operations == n.operations
    ensures Outstanding(v, owner) == Outstanding(n, owner) && OutstandingMetadata(v, owner) == OutstandingMetadata(n, owner)
  {
  }

  lemma SameCounts(n: Native, v: Native)
    requires CountsOk(n) && v.operations == n.operations && v.nextOperation == n.nextOperation && v.storageOwners == n.storageOwners
    requires v.owners.Keys == n.owners.Keys
    requires forall o :: o in n.owners ==> v.owners[o].storage == n.owners[o].storage && v.owners[o].metadata == n.owners[o].metadata
    ensures CountsOk(v)
  {
    forall o | o in v.owners
      ensures v.owners[o].storage == |Outstanding(v, o)| && v.owners[o].metadata == |OutstandingMetadata(v, o)|
    {
      CountStep(n, v, o);
    }
  }

  lemma OneMoreOperation(n: Native, v: Native, k: nat, owner: EngineOwner, metadata: bool, o: EngineOwner)
    requires k !in n.operations && v.operations == n.operations[k := Operation(owner, metadata)]
    ensures |Outstanding(v, o)| == |Outstanding(n, o)| + if o == owner then 1 else 0
    ensures |OutstandingMetadata(v, o)| == |OutstandingMetadata(n, o)| + if o == owner && metadata then 1 else 0
  {
    if o == owner {
      assert Outstanding(v, o) == Outstanding(n, o) + {k};
    } else {
      assert Outstanding(v, o) == Outstanding(n, o);
    }
    if o == owner && metadata {
      assert OutstandingMetadata(v, o) == OutstandingMetadata(n, o) + {k};
    } else {
      assert OutstandingMetadata(v, o) == OutstandingMetadata(n, o);
    }
  }

  lemma BeginCounts(n: Native, owner: EngineOwner, metadata: bool)
    requires CountsOk(n)
    ensures CountsOk(BeginStorageNext(n, owner, metadata))
  {
    var v := BeginStorageNext(n, owner, metadata);
    hide Outstanding, OutstandingMetadata, Draining;
    if v.nextOperation != n.nextOperation {
      forall o | o in v.owners
        ensures v.owners[o].storage == |Outstanding(v, o)| && v.owners[o].metadata == |OutstandingMetadata(v, o)|
      {
        OneMoreOperation(n, v, n.nextOperation, owner, metadata, o);
      }
    }
  }

  lemma OneLessOperation(n: Native, v: Native, k: nat, o: EngineOwner)
    requires k in n.operations && v.operations == n.operations - {k}
    ensures var op := n.operations[k];
            && |Outstanding(v, o)| == |Outstanding(n, o)| - (if o == op.owner then 1 else 0)
            && |OutstandingMetadata(v, o)| == |OutstandingMetadata(n, o)| - (if o == op.owner && op.metadata then 1 else 0)
  {
    assert Outstanding(v, o) == Outstanding(n, o) - {k};
    assert OutstandingMetadata(v, o) == OutstandingMetadata(n, o) - {k};
    assert (k in Outstanding(n, o)) == (o == n.operations[k].owner);
    assert (k in OutstandingMetadata(n, o)) == (o == n.operations[k].owner && n.operations[k].metadata);
  }

  /** The two tests that keep the counters from going below zero never fail. */
  lemma OutstandingIsCounted(n: Native, k: nat)
    requires CountsOk(n) && k in n.operations
    ensures var op := n.operations[k]; n.owners[op.owner].storage > 0 && (op.metadata ==> n.owners[op.owner].metadata > 0)
  {
    var op := n.operations[k];
    assert k in Outstanding(n, op.owner);
    assert op.metadata ==> k in OutstandingMetadata(n, op.owner);
  }

  lemma CompleteCounts(n: Native, number: nat)
    requires CountsOk(n)
    ensures CountsOk(CompleteNext(n, number))
    ensures number in n.operations ==>
      CompleteNext(n, number).owners[n.operations[number].owner].storage == n.owners[n.operations[number].owner].storage - 1
  {
    hide Outstanding, OutstandingMetadata;
    if number in n.operations {
      var v := CompleteNext(n, number);
      OutstandingIsCounted(n, number);
      forall o | o in v.owners
        ensures v.owners[o].storage == |Outstanding(v, o)| && v.owners[o].metadata == |OutstandingMetadata(v, o)|
      {
        OneLessOperation(n, v, number, o);
      }
    }
  }

  lemma AttachCounts(n: Native, owner: EngineOwner)
    requires CountsOk(n)
    ensures CountsOk(Next(n, Attach(owner)))
  {
    var v := Next(n, Attach(owner));
    forall o | o in v.owners
      ensures v.owners[o].storage == |Outstanding(v, o)| && v.owners[o].metadata == |OutstandingMetadata(v, o)|
    {
      CountStep(n, v, o);
      assert o !in n.owners ==> Outstanding(n, o) == {} && OutstandingMetadata(n, o) == {};
    }
  }

  lemma DetachCounts(n: Native, owner: EngineOwner)
    requires CountsOk(n)
    ensures CountsOk(DetachNext(n, owner))
  {
    SameCounts(n, DetachNext(n, owner));
  }

  lemma NextKeeps(n: Native, c: Command)
    requires NativeOk(n)
    ensures NativeOk(Next(n, c))
  {
    NextCounts(n, c);
    NextGates(n, c);
  }

  lemma NextCounts(n: Native, c: Command)
    requires CountsOk(n)
    ensures CountsOk(Next(n, c))
  {
    hide CountsOk;
    match c
    case BeginStorage(owner, metadata) => BeginCounts(n, owner, metadata);
    case Complete(number) => CompleteCounts(n, number);
    case Attach(owner) => AttachCounts(n, owner);
    case Detach(owner) => DetachCounts(n, owner);
    case _ => SameCounts(n, Next(n, c));
  }

  lemma NextGates(n: Native, c: Command)
    requires NativeOk(n)
    ensures GatesOk(Next(n, c))
  {
    hide CountsOk, P.Disable, P.Enable, StorageReady, ChangePending, Draining;
    if c.Detach? || c.Complete? || c.BeginStorage? {
      OwnerGates(n, c);
    }
  }

  lemma OwnerGates(n: Native, c: Command)
    requires GatesOk(n) && (c.Detach? || c.Complete? || c.BeginStorage?)
    ensures GatesOk(Next(n, c))
  {
    hide Draining;
  }

  lemma {:induction false} RunKeeps(n: Native, cs: seq<Command>)
    requires NativeOk(n)
    ensures NativeOk(After(n, cs))
  {
    hide NativeOk, Next;
    if cs != [] {
      RunKeeps(n, cs[..|cs| - 1]);
      NextKeeps(After(n, cs[..|cs| - 1]), cs[|cs| - 1]);
    }
  }

  /** Whatever engines come and go: an owner is listed exactly while it has outstanding storage, a dead
      engine holds no ticket, and it keeps its account-change gates only while its storage drains. */
  lemma {:induction false} OrphansDrain(start: Native, cs: seq<Command>, o: EngineOwner)
    requires NativeOk(start) && o in After(start, cs).owners
    ensures var n := After(start, cs);
            && n.owners[o].storage == |Outstanding(n, o)|
            && (o in n.storageOwners <==> Outstanding(n, o) != {})
            && (!n.owners[o].attached ==>
                  && (forall c :: c in n.fences ==> n.fences[c].owner != o)
                  && (Outstanding(n, o) == {} ==> forall m :: m in n.changes ==> n.changes[m].owner != o))
  {
    RunKeeps(start, cs);
    hide After;
  }

  lemma GateStep(n: Native, c: Command, m: string)
    requires m in n.changes && n.changes[m].owner in n.owners
    requires !n.owners[n.changes[m].owner].attached && n.owners[n.changes[m].owner].storage > 0
    ensures var v := Next(n, c);
            var o := n.changes[m].owner;
            && o in v.owners
            && if v.owners[o].storage == 0 then m !in v.changes || v.changes[m].owner != o
               else m in v.changes && v.changes[m] == n.changes[m]
  {
    hide P.Disable, P.Enable, StorageReady, ChangePending, Draining;
  }

  lemma CountedIsOutstanding(n: Native, o: EngineOwner)
    requires CountsOk(n) && o in n.owners
    ensures n.owners[o].storage == 0 <==> Outstanding(n, o) == {}
  {
    hide Outstanding, OutstandingMetadata;
  }

  /** A dead engine's account-change gate survives every step but the completion of its last operation,
      and that one lifts it. */
  lemma GateOutlivesItsEngine(n: Native, c: Command, m: string)
    requires NativeOk(n) && m in n.changes && !n.owners[n.changes[m].owner].attached
    ensures var v := Next(n, c);
            var o := n.changes[m].owner;
            if Outstanding(v, o) == {} then m !in v.changes || v.changes[m].owner != o
            else m in v.changes && v.changes[m] == n.changes[m]
  {
    hide CountsOk, Next, Outstanding;
    NextCounts(n, c);
    GateStep(n, c, m);
    CountedIsOutstanding(Next(n, c), n.changes[m].owner);
  }

  /** While an abandoned storage call is outstanding, no ticket is issued, no account change begins, no
      further storage starts and consent is not granted. */
  lemma NothingStartsWhileDraining(n: Native, o: EngineOwner, k: nat)
    requires NativeOk(n) && k in n.operations && n.operations[k].owner == o && !n.owners[o].attached
    ensures forall owner, connection, token :: TicketNext(n, owner, connection, token) == n
    ensures forall owner, mutation, connections :: BeginChangeNext(n, owner, mutation, connections) == n
    ensures forall owner, metadata :: BeginStorageNext(n, owner, metadata) == n
    ensures forall owner, grant :: Admit(n, owner, grant) == Refused
  {
    OutstandingIsCounted(n, k);
    assert o in n.storageOwners && !Attached(n, o);
    assert Draining(n) && !StorageReady(n);
    hide P.Enable, P.Disable, Outstanding, OutstandingMetadata, NativeOk, ChangePending, Draining, StorageReady;
  }

  // ---- Tickets ----

  /** Steps after which a ticket of `owner` for `connection` must not be honoured. */
  predicate Kills(n: Native, c: Command, owner: EngineOwner, connection: string) {
    match c
    case BeginChange(other, mutation, connections) => connection in connections && MayBegin(n, other, mutation, connections)
    case MetadataWrite(_) => true
    case ConnectionChanged(other, changed) => changed == connection && Attached(n, other)
    case Disable(other, only) => Attached(n, other) && (only == None || only == Some(connection))
    case Detach(other) => other == owner
    case Enable(other, grant) => grant.consent.connection == connection && Admit(n, other, grant) != Refused
    case Ticket(other, asked, token) => asked == connection && other != owner && TicketNext(n, other, asked, token) != n
    case _ => false
  }

  /** The ticket was issued to this engine for this connection, and nothing since should have killed it. */
  ghost predicate IssuedAndAlive(start: Native, cs: seq<Command>, owner: EngineOwner, connection: string, token: string) {
    exists j :: IssuedAt(start, cs, j, owner, connection, token)
  }

  ghost predicate IssuedAt(start: Native, cs: seq<Command>, j: int, owner: EngineOwner, connection: string, token: string) {
    && 0 <= j < |cs| && cs[j] == Ticket(owner, connection, token)
    && !Holds(After(start, cs[..j]), owner, connection, token)
    && Holds(After(start, cs[..j + 1]), owner, connection, token)
    && forall k :: j < k < |cs| ==> !Kills(After(start, cs[..k]), cs[k], owner, connection)
  }

  lemma TicketStep(n: Native, c: Command, owner: EngineOwner, connection: string, token: string)
    requires GatesOk(n) && Holds(Next(n, c), owner, connection, token)
    ensures if Holds(n, owner, connection, token) then !Kills(n, c, owner, connection)
            else c == Ticket(owner, connection, token)
  {
    hide P.Enable, P.Disable, StorageReady, ChangePending, Draining;
  }

  lemma {:induction false} HeldTicketsAreAlive(start: Native, cs: seq<Command>, owner: EngineOwner, connection: string, token: string)
    requires NativeOk(start) && start.fences == map[] && Holds(After(start, cs), owner, connection, token)
    ensures IssuedAndAlive(start, cs, owner, connection, token)
  {
    hide Next, Kills, Holds, CountsOk;
    if cs == [] {
      assert false by { NoTicketAtFirst(start, owner, connection, token); }
    } else {
      var front, c := cs[..|cs| - 1], cs[|cs| - 1];
      assert cs == front + [c];
      RunKeeps(start, front);
      var n := After(start, front);
      TicketStep(n, c, owner, connection, token);
      assert forall k :: 0 <= k < |cs| ==> cs[..k] == front[..k];
      if Holds(n, owner, connection, token) {
        HeldTicketsAreAlive(start, front, owner, connection, token);
        var j :| IssuedAt(start, front, j, owner, connection, token);
        assert cs[..j + 1] == front[..j + 1];
        assert IssuedAt(start, cs, j, owner, connection, token);
      } else {
        assert cs[..|front| + 1] == cs;
        assert IssuedAt(start, cs, |front|, owner, connection, token);
      }
    }
  }

  lemma NoTicketAtFirst(start: Native, owner: EngineOwner, connection: string, token: string)
    requires start.fences == map[]
    ensures !Holds(start, owner, connection, token)
  {
  }

  /** Consent is granted only on a ticket that was issued to that same engine for that connection and that
      no account change, metadata write, withdrawal, other grant or engine loss has touched since. */
  lemma ConsentIsFresh(start: Native, cs: seq<Command>, owner: EngineOwner, grant: Grant)
    requires NativeOk(start) && start.fences == map[]
    requires Admit(After(start, cs), owner, grant).Enabled?
    ensures IssuedAndAlive(start, cs, owner, grant.consent.connection, grant.token)
    ensures grant.savedMatches && grant.permitted && !After(start, cs).phone.enabled
    ensures !ChangePending(After(start, cs), grant.consent.connection) && !Draining(After(start, cs))
  {
    RunKeeps(start, cs);
    HeldTicketsAreAlive(start, cs, owner, grant.consent.connection, grant.token);
    hide After, IssuedAndAlive, ChangePending;
  }

  // ---- One grant per ticket ----

  ghost predicate DrawnOk(n: Native) {
    && (forall c :: c in n.fences ==> n.fences[c].token in n.drawn)
    && (forall c, d :: c in n.fences && d in n.fences && n.fences[c].token == n.fences[d].token ==> c == d)
  }

  /** The token was drawn and no ticket carries it any more. */
  predicate SpentToken(n: Native, token: string) {
    token in n.drawn && forall c :: c in n.fences ==> n.fences[c].token != token
  }

  lemma DrawnStays(n: Native, c: Command)
    requires DrawnOk(n) && Possible(n, c)
    ensures DrawnOk(Next(n, c))
    ensures forall token :: SpentToken(n, token) ==> SpentToken(Next(n, c), token)
  {
    hide P.Enable, P.Disable, StorageReady, ChangePending, Draining, Attached;
  }

  lemma GrantSpends(n: Native, owner: EngineOwner, grant: Grant)
    requires DrawnOk(n) && Admit(n, owner, grant) != Refused
    ensures SpentToken(EnableNext(n, owner, grant), grant.token)
  {
    hide P.Enable, StorageReady, ChangePending, Attached;
  }

  lemma {:induction false} DrawnOverRun(start: Native, cs: seq<Command>)
    requires DrawnOk(start) && Run(start, cs)
    ensures DrawnOk(After(start, cs))
  {
    if cs != [] {
      hide DrawnOk, Next, Possible;
      var front := cs[..|cs| - 1];
      assert forall k :: 0 <= k < |front| ==> cs[..k] == front[..k];
      DrawnOverRun(start, front);
      DrawnStays(After(start, front), cs[|cs| - 1]);
    }
  }

  lemma {:induction false} SpentOverRun(start: Native, cs: seq<Command>, j: nat, token: string)
    requires DrawnOk(start) && Run(start, cs) && j <= |cs| && SpentToken(After(start, cs[..j]), token)
    ensures SpentToken(After(start, cs), token)
  {
    hide DrawnOk, Next, Possible, SpentToken;
    if j == |cs| {
      assert cs[..j] == cs;
    } else {
      var front := cs[..|cs| - 1];
      assert forall k :: 0 <= k <= |front| ==> cs[..k] == front[..k];
      SpentOverRun(start, front, j, token);
      DrawnOverRun(start, front);
      DrawnStays(After(start, front), cs[|cs| - 1]);
    }
  }

  lemma RunPrefix(start: Native, cs: seq<Command>, k: nat)
    requires Run(start, cs) && k <= |cs|
    ensures Run(start, cs[..k])
  {
    hide Possible, After;
    assert forall m :: 0 <= m < k ==> cs[..k][..m] == cs[..m];
  }

  lemma {:induction false} GrantSpendsOverRun(start: Native, cs: seq<Command>, j: nat)
    requires DrawnOk(start) && Run(start, cs) && j < |cs|
    requires cs[j].Enable? && Admit(After(start, cs[..j]), cs[j].owner, cs[j].grant).Enabled?
    ensures SpentToken(After(start, cs), cs[j].grant.token)
  {
    hide Admit, Next, Possible, Run, DrawnOk, SpentToken;
    RunPrefix(start, cs, j);
    DrawnOverRun(start, cs[..j]);
    GrantSpends(After(start, cs[..j]), cs[j].owner, cs[j].grant);
    GrantApplies(After(start, cs[..j]), cs[j]);
    assert cs[..j + 1][..j] == cs[..j];
    SpentOverRun(start, cs, j + 1, cs[j].grant.token);
  }

  /** A ticket admits at most one grant over any run. */
  lemma {:induction false} OneGrantPerTicket(start: Native, cs: seq<Command>, j: nat, k: nat)
    requires NativeOk(start) && start.fences == map[] && Run(start, cs) && j < k < |cs|
    requires cs[j].Enable? && Admit(After(start, cs[..j]), cs[j].owner, cs[j].grant).Enabled?
    requires cs[k].Enable? && Admit(After(start, cs[..k]), cs[k].owner, cs[k].grant).Enabled?
    ensures cs[j].grant.token != cs[k].grant.token
  {
    assert DrawnOk(start);
    hide Admit, After, Run, SpentToken, DrawnOk, NativeOk;
    RunPrefix(start, cs, k);
    assert cs[..k][..j] == cs[..j];
    GrantSpendsOverRun(start, cs[..k], j);
    AdmitNeedsTicket(After(start, cs[..k]), cs[k].owner, cs[k].grant);
  }

  lemma GrantApplies(n: Native, c: Command)
    requires c.Enable?
    ensures Next(n, c) == EnableNext(n, c.owner, c.grant)
  {
  }

  lemma AdmitNeedsTicket(n: Native, owner: EngineOwner, grant: Grant)
    requires Admit(n, owner, grant) != Refused
    ensures !SpentToken(n, grant.token)
  {
  }
}
