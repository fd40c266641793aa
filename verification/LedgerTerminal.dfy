/** When a turn that is over stays over. Between the waits of the handler that finishes a turn an interrupt
    can slip in, and that handler later overwrites it. */
module LedgerTerminal {
  import opened Basics
  import opened LedgerModel
  import opened LedgerRuns
  import opened LedgerHistory

  /** A handler has begun to finish the turn and is waiting. */
  ghost predicate UnderWay(l: Ledger, id: string) {
    exists k :: k in l.tasks && l.tasks[k].turnId == id && l.tasks[k].Stepwise? && l.tasks[k].next > 0
  }

  predicate Finishes(l: Ledger, step: Step, id: string) {
    step.Resume? && step.task in l.tasks && l.tasks[step.task] == Stepwise(id, |SCRIPT| - 1)
  }

  ghost predicate Over(l: Ledger, id: string, status: Status) {
    id in l.durable.turns && l.durable.turns[id].status == status && Terminal(status)
  }

  lemma ResumeOver(l: Ledger, k: nat, id: string, status: Status)
    requires LedgerOk(l) && Over(l, id, status)
    ensures id in ResumeNext(l, k).durable.turns
    ensures var v := ResumeNext(l, k); v.durable.turns[id].status == if Finishes(l, Resume(k), id) then Completed else status
    ensures Finishes(l, Resume(k), id) ==> status == Interrupted
    ensures !UnderWay(l, id) ==> !UnderWay(ResumeNext(l, k), id)
  {
    hide LedgerOk, EmitAll, TurnShape;
    if k in l.tasks {
      TaskIsOk(l, k);
      var t := l.durable.turns[l.tasks[k].turnId];
      TurnIsTidy(l, l.tasks[k].turnId);
      EmitStatus(t);
    }
  }

  lemma FoundOver(l: Ledger, step: Step, id: string, status: Status)
    requires LedgerOk(l) && Over(l, id, status) && (step.Interrupt? || step.Prune?)
    ensures Over(Next(l, step), id, status) && Next(l, step).tasks == l.tasks
  {
    hide LedgerOk, Find, TurnShape;
    var found := Find(l, step.connection, step.runtime, step.target);
    if found.Some? {
      FoundTurn(l, step.connection, step.runtime, step.target);
    }
  }

  lemma SubmitOver(l: Ledger, p: Prompt, id: string, status: Status)
    requires LedgerOk(l) && Over(l, id, status)
    ensures Over(SubmitNext(l, p), id, status)
    ensures !UnderWay(l, id) ==> !UnderWay(SubmitNext(l, p), id)
  {
    hide LedgerOk, PromptKey, Submittable, TurnName, MessageName;
    if Submittable(l, p) {
      NewTurnIsNew(l, p);
    }
  }

  /** A status that is terminal changes at exactly one kind of step: the last stretch of a handler that was
      under way when the turn was interrupted, which makes it completed. */
  lemma TerminalChangesExactly(l: Ledger, step: Step, id: string, status: Status)
    requires LedgerOk(l) && Possible(step) && Over(l, id, status)
    ensures id in Next(l, step).durable.turns
    ensures Next(l, step).durable.turns[id].status != status <==> Finishes(l, step, id)
    ensures Finishes(l, step, id) ==> status == Interrupted && Next(l, step).durable.turns[id].status == Completed
    ensures !UnderWay(l, id) ==> !UnderWay(Next(l, step), id)
  {
    hide LedgerOk, SubmitNext, ResumeNext, InterruptNext, PruneNext, Canonical, Key;
    match step
    case Submit(p) => SubmitOver(l, p, id, status);
    case Resume(k) => ResumeOver(l, k, id, status);
    case Interrupt(_, _, _) => FoundOver(l, step, id, status);
    case Prune(_, _, _) => FoundOver(l, step, id, status);
    case _ =>
  }

  lemma {:induction false} StaysOver(l: Ledger, steps: seq<Step>, id: string, status: Status)
    requires LedgerOk(l) && Run(steps) && Over(l, id, status) && !UnderWay(l, id)
    ensures Over(After(l, steps), id, status) && !UnderWay(After(l, steps), id)
  {
    if steps != [] {
      hide LedgerOk, Next, UnderWay;
      var front := steps[..|steps| - 1];
      StaysOver(l, front, id, status);
      RunKeeps(l, front);
      TerminalChangesExactly(After(l, front), steps[|steps| - 1], id, status);
      NotUnderWay(After(l, front), steps[|steps| - 1], id);
    }
  }

  lemma NotUnderWay(l: Ledger, step: Step, id: string)
    requires !UnderWay(l, id)
    ensures !Finishes(l, step, id)
  {
  }

  /** Let the handler go on to its end. */
  lemma {:induction false} OverwrittenBy(l: Ledger, k: nat, id: string) returns (steps: seq<Step>)
    requires LedgerOk(l) && k in l.tasks && l.tasks[k].Stepwise? && l.tasks[k].turnId == id && l.tasks[k].next > 0
    ensures Run(steps) && id in After(l, steps).durable.turns && After(l, steps).durable.turns[id].status == Completed
    decreases |SCRIPT| - l.tasks[k].next
  {
    hide LedgerOk, Emit;
    TaskIsOk(l, k);
    var next := l.tasks[k].next;
    EmitStatus(l.durable.turns[id]);
    TurnIsTidy(l, id);
    EmitKeepsId(l.durable.turns[id], SCRIPT[next]);
    NextKeeps(l, Resume(k));
    if next == |SCRIPT| - 1 {
      steps := [Resume(k)];
      assert steps[..0] == [];
    } else {
      var rest := OverwrittenBy(ResumeNext(l, k), k, id);
      steps := [Resume(k)] + rest;
      AfterFirst(l, Resume(k), rest);
    }
  }

  lemma EmitKeepsId(t: Turn, payload: Payload)
    ensures Emit(t, payload).turnId == t.turnId
  {
  }

  lemma {:induction false} AfterFirst(l: Ledger, step: Step, rest: seq<Step>)
    ensures After(l, [step] + rest) == After(Next(l, step), rest)
  {
    hide Next;
    if rest == [] {
      assert [step] + rest == [step] && [step][..0] == [];
    } else {
      assert ([step] + rest)[..|rest|] == [step] + rest[..|rest| - 1];
      AfterFirst(l, step, rest[..|rest| - 1]);
    }
  }

  /** A turn that is over stays as it is over every continuation if and only if no handler is under way on it. */
  lemma OverForGood(l: Ledger, id: string, status: Status)
    requires LedgerOk(l) && Over(l, id, status)
    ensures (forall steps :: Run(steps) ==> Over(After(l, steps), id, status)) <==> !UnderWay(l, id)
  {
    hide LedgerOk;
    if UnderWay(l, id) {
      var k :| k in l.tasks && l.tasks[k].turnId == id && l.tasks[k].Stepwise? && l.tasks[k].next > 0;
      TaskIsOk(l, k);
      var steps := OverwrittenBy(l, k, id);
      assert Run(steps) && !Over(After(l, steps), id, status);
    } else {
      forall steps | Run(steps)
        ensures Over(After(l, steps), id, status)
      {
        StaysOver(l, steps, id, status);
      }
    }
  }

  lemma FirstStretch(profile: string, mobile: string, client: string, digest: string) returns (steps: seq<Step>)
    requires Canonical(mobile) && Canonical(client) && IsDigest(digest)
    ensures Run(steps)
    ensures var l := After(New(profile), steps);
            && l.tasks == map[0 := Stepwise(TurnName(1), 0)] && TurnName(1) in l.durable.turns
            && var t := l.durable.turns[TurnName(1)];
               t.status == Accepted && t.turnId == TurnName(1) && Find(l, "c", RuntimeName(1, 1), TurnId(TurnName(1))) == Some(t)
  {
    hide Canonical, IsDigest, Key, TurnName, RuntimeName, MessageName, StoredName;
    var open, submit := Open(mobile, "c", true), Submit(Prompt("c", RuntimeName(1, 1), client, digest, digest, true, false));
    steps := [open, submit];
    assert steps[..1] == [open] && [open][..0] == [];
    assert After(New(profile), [open]) == OpenNext(New(profile), mobile, "c");
  }

  lemma SecondStretch(profile: string, mobile: string, client: string, digest: string) returns (steps: seq<Step>)
    requires Canonical(mobile) && Canonical(client) && IsDigest(digest)
    ensures Run(steps)
    ensures var l := After(New(profile), steps);
            && l.tasks == map[0 := Stepwise(TurnName(1), 1)] && TurnName(1) in l.durable.turns
            && var t := l.durable.turns[TurnName(1)];
               t.status == Running && t.turnId == TurnName(1) && Find(l, "c", RuntimeName(1, 1), TurnId(TurnName(1))) == Some(t)
  {
    hide Canonical, IsDigest, Key, TurnName, RuntimeName, New;
    var front := FirstStretch(profile, mobile, client, digest);
    steps := front + [Resume(0)];
    assert steps[..|front|] == front;
    assert After(New(profile), steps) == ResumeNext(After(New(profile), front), 0);
    hide After;
  }

  /** It does happen: a turn reported as interrupted while its handler is under way. */
  lemma InterruptIsOverwritten(profile: string, mobile: string, client: string, digest: string) returns (steps: seq<Step>)
    requires Canonical(mobile) && Canonical(client) && IsDigest(digest)
    ensures Run(steps) && Over(After(New(profile), steps), TurnName(1), Interrupted) && UnderWay(After(New(profile), steps), TurnName(1))
  {
    var running := SecondStretch(profile, mobile, client, digest);
    hide TurnName, RuntimeName, Find, New;
    var interrupt := Interrupt("c", RuntimeName(1, 1), TurnId(TurnName(1)));
    steps := running + [interrupt];
    assert steps[..|steps| - 1] == running;
    assert 0 in After(New(profile), steps).tasks;
  }
}
