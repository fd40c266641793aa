/** The phone's native authority as the object it is: one process-wide singleton whose synchronized methods
    update the sealed state, the ticket and gate maps and the counters of the engines they are given. */
module Bridge {
  import opened Basics
  import opened PushTypes
  import opened Consent
  import P = Phone

  /** What `BeginStorage` hands out; reporting it is idempotent. */
  class Completion {
    const number: nat
    const owner: EngineOwner
    const metadata: bool
    var completed: bool

    constructor (number: nat, owner: EngineOwner, metadata: bool)
      ensures this.number == number && this.owner == owner && this.metadata == metadata && !completed
    {
      this.number, this.owner, this.metadata, this.completed := number, owner, metadata, false;
    }
  }

  class MobilePushBridge {
    var phone: P.State
    var storageOwners: set<EngineOwner>
    var fences: map<string, Fence>
    var changes: map<string, Change>
    ghost var engines: set<EngineOwner>
    ghost var operations: map<nat, Operation>
    ghost var drawn: set<string>
    var nextOperation: nat

    ghost function Counters(): map<EngineOwner, Owner>
      reads this, engines
    {
      map o | o in engines :: Owner(o.attached, o.storageOperations, o.metadataOperations)
    }

    ghost function View(): Native
      reads this, engines
    {
      Native(phone, Counters(), storageOwners, fences, changes, operations, nextOperation, drawn)
    }

    ghost predicate Valid()
      reads this, engines
    {
      NativeOk(View())
    }

    constructor ()
      ensures Valid() && View() == Native(P.NewState(), map[], {}, map[], map[], map[], 0, {})
      ensures engines == {}
    {
      phone, storageOwners, fences, changes := P.NewState(), {}, map[], map[];
      engines, operations, drawn, nextOperation := {}, map[], {}, 0;
    }

    // ---- Engines and their storage ----

    method AttachEngine() returns (owner: EngineOwner)
      requires Valid()
      modifies this`engines
      ensures Valid() && fresh(owner) && engines == old(engines) + {owner}
      ensures View() == Next(old(View()), Attach(owner))
    {
      hide NativeOk, P.NewState;
      owner := new EngineOwner();
      engines := engines + {owner};
      assert Counters() == old(View()).owners[owner := Owner(true, 0, 0)];
      NextKeeps(old(View()), Attach(owner));
    }

    method ReleaseOrphan(owner: EngineOwner)
      requires owner in engines
      modifies this`changes, this`storageOwners
      ensures View() == Release(old(View()), owner)
    {
      if !owner.attached && owner.storageOperations == 0 {
        changes := map m | m in changes && changes[m].owner != owner :: changes[m];
        storageOwners := storageOwners - {owner};
      }
    }

    method DetachEngine(owner: EngineOwner)
      requires Valid() && owner in engines
      modifies this`fences, this`changes, this`storageOwners, owner`attached
      ensures Valid() && View() == Next(old(View()), Detach(owner))
    {
      hide NativeOk;
      owner.attached := false;
      fences := map c | c in fences && fences[c].owner != owner :: fences[c];
      ghost var counters := old(View()).owners;
      assert Counters() == counters[owner := counters[owner].(attached := false)];
      ReleaseOrphan(owner);
      NextKeeps(old(View()), Detach(owner));
    }

    method BeginStorage(owner: EngineOwner, metadata: bool) returns (done: Option<Completion>)
      requires Valid() && owner in engines
      modifies this`storageOwners, this`operations, this`nextOperation, owner`storageOperations, owner`metadataOperations
      ensures Valid() && View() == Next(old(View()), Consent.BeginStorage(owner, metadata))
      ensures done.None? <==> !old(owner.attached) || Draining(old(View()))
      ensures done.Some? ==>
                fresh(done.value) && !done.value.completed && done.value.owner == owner && done.value.metadata == metadata
                && done.value.number in operations && operations[done.value.number] == Operation(owner, metadata)
    {
      hide NativeOk, Draining, Abandoned;
      NextKeeps(View(), Consent.BeginStorage(owner, metadata));
      ReadyIsReady();
      if !owner.attached || Abandoned() { return None; }
      owner.storageOperations := owner.storageOperations + 1;
      if metadata {
        owner.metadataOperations := owner.metadataOperations + 1;
      }
      storageOwners := storageOwners + {owner};
      var completion := new Completion(nextOperation, owner, metadata);
      operations := operations[nextOperation := Operation(owner, metadata)];
      nextOperation := nextOperation + 1;
      ghost var o := old(View()).owners[owner];
      assert Counters() == old(View()).owners[owner := Owner(true, o.storage + 1, if metadata then o.metadata + 1 else o.metadata)];
      done := Some(completion);
    }

    /** A completion not yet reported is outstanding. */
    ghost predicate Tracks(c: Completion)
      reads this, c
    {
      && c.owner in engines
      && (c.completed <==> c.number !in operations)
      && (c.number in operations ==> operations[c.number] == Operation(c.owner, c.metadata))
    }

    method Complete(c: Completion)
      requires Valid() && Tracks(c)
      modifies this`changes, this`storageOwners, this`operations, c`completed, c.owner`storageOperations, c.owner`metadataOperations
      ensures Valid() && Tracks(c) && c.completed
      ensures View() == Next(old(View()), Consent.Complete(c.number))
    {
      hide NativeOk;
      NextKeeps(View(), Consent.Complete(c.number));
      if !c.completed {
        var owner := c.owner;
        CompletionIsCounted(c);
        c.completed := true;
        owner.storageOperations := owner.storageOperations - 1;
        if c.metadata {
          owner.metadataOperations := owner.metadataOperations - 1;
        }
        if owner.storageOperations == 0 {
          storageOwners := storageOwners - {owner};
        }
        operations := operations - {c.number};
        ghost var o := old(View()).owners[owner];
        assert Counters() == old(View()).owners[owner := Owner(o.attached, o.storage - 1, if c.metadata then o.metadata - 1 else o.metadata)];
        ReleaseOrphan(owner);
      }
    }

    lemma CompletionIsCounted(c: Completion)
      requires Valid() && Tracks(c) && !c.completed
      ensures c.owner.storageOperations > 0 && (c.metadata ==> c.owner.metadataOperations > 0)
    {
      OutstandingIsCounted(View(), c.number);
    }

    predicate Ready()
      reads this, storageOwners
    {
      forall o :: o in storageOwners ==> o.attached && o.metadataOperations == 0
    }

    predicate Abandoned()
      reads this, storageOwners
    {
      exists o :: o in storageOwners && !o.attached
    }

    predicate Gated(connection: string)
      reads this
    {
      exists m :: m in changes && connection in changes[m].connections
    }

    lemma ReadyIsReady()
      requires Valid()
      ensures Ready() <==> StorageReady(View())
      ensures Abandoned() <==> Draining(View())
      ensures forall connection :: Gated(connection) <==> ChangePending(View(), connection)
    {
    }

    // ---- Consent ----

    /** The ticket of this engine for the connection, drawing `token` if it has none. */
    method ConnectionFence(owner: EngineOwner, connection: string, token: string) returns (ticket: Option<string>)
      requires Valid() && owner in engines && token !in drawn
      modifies this`fences, this`drawn
      ensures Valid() && View() == Next(old(View()), Ticket(owner, connection, token))
      ensures ticket.Some? <==> owner.attached && StorageReady(old(View())) && !ChangePending(old(View()), connection)
      ensures ticket.Some? ==> Holds(View(), owner, connection, ticket.value)
    {
      hide NativeOk;
      ReadyIsReady();
      NextKeeps(View(), Ticket(owner, connection, token));
      if !owner.attached || !Ready() || Gated(connection) {
        return None;
      }
      if !(connection in fences && fences[connection].owner == owner) {
        fences := fences[connection := Fence(owner, token)];
        drawn := drawn + {token};
      }
      assert Counters() == old(Counters());
      ticket := Some(fences[connection].token);
    }

    method BeginConnectionChange(owner: EngineOwner, mutation: string, connections: set<string>) returns (ok: bool)
      requires Valid() && owner in engines
      modifies this`fences, this`changes, this`phone
      ensures Valid() && View() == Next(old(View()), BeginChange(owner, mutation, connections))
      ensures ok == MayBegin(old(View()), owner, mutation, connections)
      ensures ok ==> !(phone.enabled && phone.consent.connection in connections) && forall c :: c in connections ==> c !in fences
    {
      hide NativeOk;
      NextKeeps(View(), BeginChange(owner, mutation, connections));
      ok := owner.attached && mutation != "" && "" !in connections;
      if !ok { return; }
      ReadyIsReady();
      if Abandoned() { return false; }
      if mutation in changes && changes[mutation] != Change(owner, connections) { return false; }
      changes := changes[mutation := Change(owner, connections)];
      fences := fences - connections;
      if phone.enabled && phone.consent.connection in connections {
        phone := P.Disable(phone);
      }
      assert Counters() == old(Counters());
    }

    method EndConnectionChange(owner: EngineOwner, mutation: string) returns (ok: bool)
      requires Valid() && owner in engines
      modifies this`changes
      ensures Valid() && View() == Next(old(View()), EndChange(owner, mutation))
      ensures ok ==> mutation !in changes
      ensures !ok ==> changes == old(changes)
    {
      hide NativeOk;
      NextKeeps(View(), EndChange(owner, mutation));
      if !owner.attached || (mutation in changes && changes[mutation].owner != owner) || owner.storageOperations != 0 {
        return false;
      }
      changes := changes - {mutation};
      assert Counters() == old(Counters());
      ok := true;
    }

    method ConnectionIsChanged(owner: EngineOwner, connection: string) returns (ok: bool)
      requires Valid() && owner in engines
      modifies this`fences, this`phone
      ensures Valid() && View() == Next(old(View()), ConnectionChanged(owner, connection))
      ensures ok == owner.attached
    {
      hide NativeOk, P.Disable;
      NextKeeps(View(), ConnectionChanged(owner, connection));
      if !owner.attached { return false; }
      fences := fences - {connection};
      if phone.enabled && phone.consent.connection == connection {
        phone := P.Disable(phone);
      }
      assert Counters() == old(Counters());
      ok := true;
    }

    method EnablePush(owner: EngineOwner, grant: Grant) returns (outcome: Outcome)
      requires Valid() && owner in engines
      modifies this`fences, this`phone
      ensures Valid() && View() == Next(old(View()), Enable(owner, grant))
      ensures outcome == Admit(old(View()), owner, grant)
    {
      hide NativeOk, P.ValidSessions;
      ReadyIsReady();
      NextKeeps(View(), Enable(owner, grant));
      var connection := grant.consent.connection;
      if !owner.attached || phone.enabled { return Refused; }
      var next := P.Enable(phone, grant.consent, grant.installation, grant.nonce);
      if next.None? { return Refused; }
      if !Ready() || Gated(connection) || !(connection in fences && fences[connection] == Fence(owner, grant.token)) {
        return Refused;
      }
      if !grant.savedMatches { return Refused; }
      fences := fences - {connection};
      assert Counters() == old(Counters());
      if !grant.permitted || !grant.selectable { return Consumed; }
      phone := next.value;
      assert Counters() == old(Counters());
      outcome := Enabled(phone);
    }

    method DisablePush(owner: EngineOwner, only: Option<string>) returns (ok: bool)
      requires Valid() && owner in engines
      modifies this`fences, this`phone
      ensures Valid() && View() == Next(old(View()), Disable(owner, only))
      ensures ok == owner.attached && (ok ==> !phone.enabled && phone.nonce == "")
    {
      hide NativeOk;
      NextKeeps(View(), Disable(owner, only));
      if !owner.attached { return false; }
      fences := if only.None? then map[] else fences - {only.value};
      phone := P.Disable(phone);
      assert Counters() == old(Counters());
      ok := true;
    }

    /** Called before saved connections are rewritten; `rowChanged` says whether the enabled one differs. */
    method BeforeMetadataWrite(rowChanged: bool)
      requires Valid()
      modifies this`fences, this`phone
      ensures Valid() && View() == Next(old(View()), MetadataWrite(rowChanged))
    {
      hide NativeOk, P.Disable;
      NextKeeps(View(), MetadataWrite(rowChanged));
      fences := map[];
      if phone.enabled && rowChanged {
        phone := P.Disable(phone);
      }
      assert Counters() == old(Counters());
    }

    // ---- The registration ----

    /** A command that reaches only the sealed state leaves every gate as it was. */
    twostate lemma OnlyPhone()
      requires old(Valid()) && engines == old(engines) && (forall o :: o in engines ==> unchanged(o))
      requires storageOwners == old(storageOwners) && fences == old(fences) && changes == old(changes)
      requires operations == old(operations) && drawn == old(drawn) && nextOperation == old(nextOperation)
      ensures Valid()
    {
      hide NativeOk;
      assert Counters() == old(Counters());
      NextKeeps(old(View()), OnPhone(phone));
    }

    /** Opening a state sealed before registrations were fenced gives it a new authority. */
    method Snapshot(nonce: string) returns (ok: bool)
      requires Valid()
      modifies this`phone
      ensures Valid()
      ensures var next := P.UpgradeConsent(old(phone), nonce);
              ok == next.Some? && phone == if ok then next.value else old(phone)
    {
      hide NativeOk;
      ok := true;
      if phone.enabled && !phone.fenced {
        var fenced := P.Invalidate(phone, nonce);
        if fenced.None? { return false; }
        phone := fenced.value;
        OnlyPhone();
      }
    }

    method RecoverRegistration(a: P.Authority, generation: int, nonce: string) returns (ok: bool)
      requires Valid()
      modifies this`phone
      ensures Valid()
      ensures var next := P.Recover(old(phone), a, generation, nonce);
              ok == next.Some? && phone == if ok then next.value else old(phone)
    {
      hide NativeOk;
      if !P.Awaiting(phone, a, generation) { return false; }
      var fenced := P.Invalidate(phone, nonce);
      if fenced.None? { return false; }
      phone := fenced.value;
      OnlyPhone();
      ok := true;
    }

    method BeginRegistration(a: P.Authority, generation: int, now: int) returns (ok: bool)
      requires Valid()
      modifies this`phone
      ensures Valid()
      ensures var next := P.BeginRegistration(old(phone), a, generation, now);
              ok == next.Some? && phone == if ok then next.value else old(phone)
    {
      hide NativeOk;
      if !P.Awaiting(phone, a, generation) || phone.generation != 0 || phone.registering { return false; }
      phone := phone.(registering := true);
      phone := phone.(pendingUntil := Some(now + 300));
      OnlyPhone();
      ok := true;
    }

    method TakeGeneration(a: P.Authority, generation: int) returns (ok: bool)
      requires Valid()
      modifies this`phone
      ensures Valid()
      ensures var next := P.TakeGeneration(old(phone), a, generation);
              ok == next.Some? && phone == if ok then next.value else old(phone)
    {
      hide NativeOk;
      if !P.Current(phone, a) || generation <= 0 { return false; }
      if phone.generation != 0 || !phone.registering { return false; }
      phone := phone.(generation := generation);
      phone := phone.(registering := false);
      OnlyPhone();
      ok := true;
    }

    method BeginConfirmation(a: P.Authority, generation: int) returns (ok: bool)
      requires Valid()
      modifies this`phone
      ensures Valid()
      ensures var next := P.BeginConfirmation(old(phone), a, generation);
              ok == next.Some? && phone == if ok then next.value else old(phone)
    {
      hide NativeOk;
      if !P.Awaiting(phone, a, generation) || phone.generation <= 0 || phone.confirming { return false; }
      phone := phone.(confirming := true);
      OnlyPhone();
      ok := true;
    }

    method Activate(a: P.Authority, generation: int) returns (ok: bool)
      requires Valid()
      modifies this`phone
      ensures Valid()
      ensures var next := P.Activate(old(phone), a, generation);
              ok == next.Some? && phone == if ok then next.value else old(phone)
    {
      hide NativeOk;
      if !P.Current(phone, a) || generation <= 0 { return false; }
      if phone.generation != generation || !phone.confirming { return false; }
      phone := phone.(active := true);
      phone := phone.(challenges := [], confirming := false, pendingUntil := None);
      OnlyPhone();
      ok := true;
    }

    method NewEndpoint(instance: string, url: string, keys: Option<string>, nonce: string) returns (ok: bool)
      requires Valid()
      modifies this`phone
      ensures Valid()
      ensures var next := P.NewEndpoint(old(phone), instance, url, keys, nonce);
              ok == next.Some? && phone == if ok then next.value else old(phone)
    {
      hide NativeOk;
      if !phone.enabled || instance != phone.installation || keys.None? { return true; }
      if phone.endpoint == Some(url) && phone.keys == keys { return true; }
      var fenced := P.Invalidate(phone.(endpoint := Some(url), keys := keys), nonce);
      if fenced.None? { return false; }
      phone := fenced.value.(error := false);
      OnlyPhone();
      ok := true;
    }

    method PushFailed(instance: string, nonce: string) returns (ok: bool)
      requires Valid()
      modifies this`phone
      ensures Valid()
      ensures var next := P.Failure(old(phone), instance, nonce);
              ok == next.Some? && phone == if ok then next.value else old(phone)
    {
      hide NativeOk;
      if !phone.enabled || instance != phone.installation { return true; }
      var fenced := P.Invalidate(phone, nonce);
      if fenced.None? { return false; }
      phone := fenced.value.(error := true, endpoint := None, keys := None);
      OnlyPhone();
      ok := true;
    }

    method AckRevoked(installation: string)
      requires Valid()
      modifies this`phone
      ensures Valid() && phone == P.ForgetRevocation(old(phone), installation)
    {
      hide NativeOk;
      var remaining: seq<P.Revocation> := [];
      var revokes := phone.revocations;
      var i := 0;
      while i < |revokes|
        invariant 0 <= i <= |revokes|
        invariant remaining == P.Without(revokes[..i], installation)
      {
        if revokes[i].installation != installation {
          remaining := remaining + [revokes[i]];
        }
        i := i + 1;
        assert revokes[..i][..i - 1] == revokes[..i - 1];
      }
      assert revokes[..i] == revokes;
      phone := phone.(revocations := remaining);
      OnlyPhone();
    }

    // ---- Pushes and taps ----

    method KeepUnexpired(eventId: string, now: int) returns (kept: seq<P.HeldChallenge>)
      ensures kept == P.Unexpired(phone.challenges, eventId, now)
    {
      kept := [];
      var queue := phone.challenges;
      var i := 0;
      while i < |queue|
        invariant 0 <= i <= |queue|
        invariant kept == P.Unexpired(queue[..i], eventId, now)
      {
        if queue[i].expires > now && queue[i].eventId != eventId {
          kept := kept + [queue[i]];
        }
        i := i + 1;
        assert queue[..i][..i - 1] == queue[..i - 1];
      }
      assert queue[..i] == queue;
    }

    /** `shown` says whether a notification is posted. */
    method ReceivePush(h: P.RawHint, instance: string, decrypted: bool, permitted: bool, now: int) returns (shown: bool)
      requires Valid()
      modifies this`phone
      ensures Valid() && phone == P.Receive(old(phone), h, instance, decrypted, permitted, now)
      ensures shown == P.Notifies(old(phone), h, instance, decrypted, permitted, now)
    {
      hide NativeOk;
      shown := false;
      if !P.ValidHint(phone, h, instance, decrypted, now) { return; }
      if h.kind.value == "challenge" {
        var kept := KeepUnexpired(h.eventId.value, now);
        var clean := P.HeldChallenge(h.eventId.value, h.generation.value, h.nonce.value, h.expires.value, h.challenge.value);
        phone := phone.(challenges := P.Last(kept + [clean], 16));
        OnlyPhone();
        return;
      }
      if !phone.consent.master || !permitted || h.kind.value !in phone.consent.kinds { return; }
      if h.eventId.value in phone.seen { return; }
      var tap := P.TapFor(phone, h);
      phone := phone.(issued := P.Last(phone.issued + [tap], 256));
      phone := phone.(seen := P.Last(phone.seen + [h.eventId.value], 256));
      OnlyPhone();
      shown := true;
    }

    method CaptureTap(tap: P.Tap, now: int)
      requires Valid()
      modifies this`phone
      ensures Valid() && phone == P.CaptureTap(old(phone), tap, now)
    {
      hide NativeOk;
      if !P.ValidTap(phone, tap, now) || tap !in phone.issued { return; }
      phone := phone.(tap := Some(tap));
      OnlyPhone();
    }

    method TakeTap(now: int) returns (tap: Option<P.Tap>)
      requires Valid()
      modifies this`phone
      ensures Valid() && phone == P.TakeTap(old(phone))
      ensures tap == P.TapTaken(old(phone), now)
    {
      hide NativeOk;
      tap := phone.tap;
      phone := phone.(tap := None);
      OnlyPhone();
      if tap.Some? && !P.ValidTap(phone, tap.value, now) { tap := None; }
    }
  }
}
