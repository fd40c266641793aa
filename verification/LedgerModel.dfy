/** The turn-recovery ledger: what is durable, what a process holds beside it, and the handlers, cut at
    the points where they wait and other handlers run. */
module LedgerModel {
  import opened Basics

  // ---- Names ----

  function Digit(n: nat): char
    requires n < 10
  {
    "0123456789"[n]
  }

  function Decimal(n: nat): string {
    if n < 10 then [Digit(n)] else Decimal(n / 10) + [Digit(n % 10)]
  }

  function TurnName(n: nat): string {
    "turn-recovery-" + Decimal(n)
  }

  function MessageName(n: nat): string {
    "message-recovery-" + Decimal(n)
  }

  function StoredName(n: nat): string {
    "stored-recovery-" + Decimal(n)
  }

  function RuntimeName(generation: nat, n: nat): string {
    "runtime-recovery-" + Decimal(generation) + "-" + Decimal(n)
  }

  /** The key of a pair: the parts around a unit separator. */
  function Key(a: string, b: string): string {
    a + "\U{1F}" + b
  }

  predicate Hex(c: char) {
    '0' <= c <= '9' || 'a' <= c <= 'f'
  }

  predicate IsDigest(s: string) {
    |s| == 64 && forall i :: 0 <= i < |s| ==> Hex(s[i])
  }

  /** A lower-case UUID in its canonical form, and not the nil one. */
  predicate Canonical(s: string) {
    && |s| == 36
    && (forall i :: 0 <= i < |s| ==> if i in {8, 13, 18, 23} then s[i] == '-' else Hex(s[i]))
    && exists i :: 0 <= i < |s| && s[i] != '-' && s[i] != '0'
  }

  // ---- The durable ledger ----

  datatype Status = Accepted | Running | WaitingInput | Completed | Failed | Interrupted

  predicate Terminal(s: Status) {
    s == Completed || s == Failed || s == Interrupted
  }

  datatype Payload = StatusIs(status: Status) | MessageStart | Delta(text: string) | MessageComplete(text: string)

  datatype Event = Event(turnId: string, seqNo: int, messageId: string, payload: Payload)

  datatype Binding = Binding(profile: string, mobile: string, stored: string, version: int)

  datatype Turn = Turn(
    turnId: string,
    stored: string,
    profile: string,
    client: string,
    digest: string,
    manifest: string,
    status: Status,
    lastSeq: int,
    firstRetained: int,
    events: seq<Event>,
    messageId: string,
    text: string,
    finalRef: int,
    executions: int)

  datatype Durable = Durable(
    bindingCounter: int,
    turnCounter: int,
    attempts: int,
    executions: int,
    generation: int,
    bindings: map<string, Binding>,
    turns: map<string, Turn>,
    byClient: map<string, string>)

  function EmptyDurable(): Durable {
    Durable(0, 0, 0, 0, 0, map[], map[], map[])
  }

  // ---- What a reload accepts ----

  predicate CountersOk(d: Durable) {
    d.bindingCounter >= 0 && d.turnCounter >= 0 && d.attempts >= 0 && d.executions >= 0 && d.generation >= 0
  }

  predicate BindingOk(profile: string, key: string, b: Binding) {
    b.profile == profile && Canonical(b.mobile) && b.stored != "" && b.version > 0 && key == Key(profile, b.mobile)
  }

  predicate StoredOnce(bindings: map<string, Binding>) {
    forall j, k :: j in bindings && k in bindings && bindings[j].stored == bindings[k].stored ==> j == k
  }

  predicate IsStored(bindings: map<string, Binding>, stored: string) {
    exists k :: k in bindings && bindings[k].stored == stored
  }

  predicate EventsOk(t: Turn) {
    && (forall k :: 0 <= k < |t.events| ==>
          t.events[k].turnId == t.turnId && t.events[k].messageId == t.messageId && t.events[k].seqNo == t.firstRetained + k)
    && (t.events != [] ==> t.firstRetained + |t.events| - 1 == t.lastSeq)
  }

  predicate TurnShape(profile: string, id: string, t: Turn) {
    && t.turnId == id && t.profile == profile && Canonical(t.client)
    && t.lastSeq >= 0 && 0 < t.firstRetained <= t.lastSeq + 1 && t.executions == 1
    && IsDigest(t.digest) && IsDigest(t.manifest)
    && EventsOk(t)
  }

  function ClientKey(t: Turn): string {
    Key(t.stored, t.client)
  }

  /** The index lists every turn under its own key, and nothing else. */
  predicate IndexOk(turns: map<string, Turn>, byClient: map<string, string>) {
    && (forall id :: id in turns ==> ClientKey(turns[id]) in byClient && byClient[ClientKey(turns[id])] == id)
    && (forall k :: k in byClient ==> byClient[k] in turns && ClientKey(turns[byClient[k]]) == k)
  }

  predicate Acceptable(profile: string, d: Durable) {
    && CountersOk(d)
    && (forall k :: k in d.bindings ==> BindingOk(profile, k, d.bindings[k]))
    && StoredOnce(d.bindings)
    && (forall id :: id in d.turns ==> TurnShape(profile, id, d.turns[id]) && IsStored(d.bindings, d.turns[id].stored))
    && IndexOk(d.turns, d.byClient)
    && d.executions == |d.turns|
    && d.bindingCounter >= |d.bindings| && d.turnCounter >= |d.turns|
  }

  // ---- The process ----

  datatype Runtime = Runtime(stored: string, profile: string, mobile: string, version: int)

  /** A handler waiting to go on with a turn it created: `next` counts the events it has appended. */
  datatype Task = Stepwise(turnId: string, next: nat) | AtOnce(turnId: string)

  datatype Ledger = Ledger(
    profile: string,
    durable: Durable,
    runtimeCounter: nat,
    runtimes: map<string, Runtime>,
    connections: map<string, string>,
    tasks: map<nat, Task>,
    nextTask: nat)

  /** Starting a process on what is on disk. */
  function Started(profile: string, disk: Durable): Ledger {
    Ledger(profile, disk.(generation := disk.generation + 1), 0, map[], map[], map[], 0)
  }

  function Append(t: Turn, payload: Payload): Turn {
    t.(lastSeq := t.lastSeq + 1, events := t.events + [Event(t.turnId, t.lastSeq + 1, t.messageId, payload)])
  }

  function WithTurn(l: Ledger, t: Turn): Ledger {
    l.(durable := l.durable.(turns := l.durable.turns[t.turnId := t]))
  }

  // ---- Handlers ----

  function OpenNext(l: Ledger, mobile: string, connection: string): Ledger {
    if !Canonical(mobile) then l
    else
      var d := l.durable;
      var key := Key(l.profile, mobile);
      var counter := if key in d.bindings then d.bindingCounter else d.bindingCounter + 1;
      var b := if key in d.bindings then d.bindings[key] else Binding(l.profile, mobile, StoredName(Nat(counter)), 0);
      var bound := b.(version := b.version + 1);
      var runtime := RuntimeName(Nat(d.generation), l.runtimeCounter + 1);
      l.(durable := d.(bindingCounter := counter, bindings := d.bindings[key := bound]),
         runtimeCounter := l.runtimeCounter + 1,
         runtimes := l.runtimes[runtime := Runtime(bound.stored, bound.profile, bound.mobile, bound.version)],
         connections := l.connections[connection := runtime])
  }

  function Nat(n: int): nat {
    if n >= 0 then n else 0
  }

  /** The runtime a connection may name: the one it opened last. */
  function Scoped(l: Ledger, connection: string, runtime: string): Option<Runtime> {
    if connection in l.connections && l.connections[connection] == runtime && runtime in l.runtimes
    then Some(l.runtimes[runtime]) else None
  }

  datatype Ack = Ack(turnId: string, created: bool) | Conflict | Invalid

  /** A submission with the digests of its text and attachments; `wellFormed` stands for its schema and size
      limits, `atOnce` for a fault that makes the handler finish the turn in one stretch. */
  datatype Prompt = Prompt(connection: string, runtime: string, client: string, digest: string, manifest: string, wellFormed: bool, atOnce: bool)

  predicate Submittable(l: Ledger, p: Prompt) {
    Scoped(l, p.connection, p.runtime).Some? && Canonical(p.client) && p.wellFormed
  }

  function PromptKey(l: Ledger, p: Prompt): string
    requires Submittable(l, p)
  {
    Key(Scoped(l, p.connection, p.runtime).value.stored, p.client)
  }

  function SubmitAck(l: Ledger, p: Prompt): Ack {
    if !Submittable(l, p) then Invalid
    else if PromptKey(l, p) in l.durable.byClient && l.durable.byClient[PromptKey(l, p)] in l.durable.turns then
      var id := l.durable.byClient[PromptKey(l, p)];
      if l.durable.turns[id].digest == p.digest then Ack(id, false) else Conflict
    else Ack(TurnName(Nat(l.durable.turnCounter + 1)), true)
  }

  function NewTurn(l: Ledger, p: Prompt): Turn
    requires Submittable(l, p)
  {
    var counter := Nat(l.durable.turnCounter + 1);
    var r := Scoped(l, p.connection, p.runtime).value;
    Append(Turn(TurnName(counter), r.stored, r.profile, p.client, p.digest, p.manifest, Accepted, 0, 1, [],
                MessageName(counter), "", counter, 1),
           StatusIs(Accepted))
  }

  function Create(l: Ledger, p: Prompt): Ledger
    requires Submittable(l, p)
  {
    var d := l.durable;
    var t := NewTurn(l, p);
    l.(durable := d.(attempts := d.attempts + 1, turnCounter := d.turnCounter + 1, executions := d.executions + 1,
                     turns := d.turns[t.turnId := t], byClient := d.byClient[PromptKey(l, p) := t.turnId]),
       tasks := l.tasks[l.nextTask := if p.atOnce then AtOnce(t.turnId) else Stepwise(t.turnId, 0)],
       nextTask := l.nextTask + 1)
  }

  function SubmitNext(l: Ledger, p: Prompt): Ledger {
    var ack := SubmitAck(l, p);
    if ack == Invalid then l
    else if ack.Ack? && ack.created then Create(l, p)
    else l.(durable := l.durable.(attempts := l.durable.attempts + 1))
  }

  const WHOLE_TEXT: string := "Durable recovery completed."

  /** The events that finish a turn, in order. */
  const SCRIPT: seq<Payload> := [StatusIs(Running), MessageStart, Delta("Durable "), Delta("recovery "), Delta("completed."),
                                 MessageComplete(WHOLE_TEXT)]

  function Emit(t: Turn, payload: Payload): Turn {
    var appended := Append(t, payload);
    match payload
    case StatusIs(status) => appended.(status := status)
    case MessageComplete(text) => appended.(text := text, status := Completed)
    case _ => appended
  }

  function EmitAll(t: Turn, payloads: seq<Payload>): Turn {
    if payloads == [] then t else Emit(EmitAll(t, payloads[..|payloads| - 1]), payloads[|payloads| - 1])
  }

  /** One stretch of a waiting handler. Only the first tests whether the turn is over already. */
  function ResumeNext(l: Ledger, k: nat): Ledger {
    if k !in l.tasks || l.tasks[k].turnId !in l.durable.turns then l
    else
      var t := l.durable.turns[l.tasks[k].turnId];
      match l.tasks[k]
      case AtOnce(_) =>
        var done := l.(tasks := l.tasks - {k});
        if Terminal(t.status) then done else WithTurn(done, EmitAll(t, SCRIPT))
      case Stepwise(id, next) =>
        if (next == 0 && Terminal(t.status)) || next >= |SCRIPT| then l.(tasks := l.tasks - {k})
        else
          var on := if next + 1 == |SCRIPT| then l.tasks - {k} else l.tasks[k := Stepwise(id, next + 1)];
          WithTurn(l.(tasks := on), Emit(t, SCRIPT[next]))
  }

  /** How a request names a turn: by the ledger's id, or by the client's own. */
  datatype Target = TurnId(id: string) | ClientTurn(client: string)

  function TargetId(l: Ledger, r: Runtime, target: Target): Option<string> {
    match target
    case TurnId(id) => Some(id)
    case ClientTurn(client) =>
      if Canonical(client) && Key(r.stored, client) in l.durable.byClient then Some(l.durable.byClient[Key(r.stored, client)]) else None
  }

  /** The turn a request means, if it belongs to the session of the request's runtime. */
  function Find(l: Ledger, connection: string, runtime: string, target: Target): Option<Turn> {
    var r := Scoped(l, connection, runtime);
    if r.None? then None
    else
      var id := TargetId(l, r.value, target);
      if id.None? || id.value !in l.durable.turns then None
      else
        var t := l.durable.turns[id.value];
        if t.stored == r.value.stored && t.profile == r.value.profile then Some(t) else None
  }

  function InterruptNext(l: Ledger, connection: string, runtime: string, target: Target): Ledger {
    var t := Find(l, connection, runtime, target);
    if t.None? || Terminal(t.value.status) then l
    else WithTurn(l, Append(t.value.(status := Interrupted), StatusIs(Interrupted)))
  }

  function PruneNext(l: Ledger, connection: string, runtime: string, target: Target): Ledger {
    var t := Find(l, connection, runtime, target);
    if t.None? then l else WithTurn(l, t.value.(firstRetained := t.value.lastSeq + 1, events := []))
  }

  datatype Step =
    | Open(mobile: string, connection: string, wellFormed: bool)
    | Submit(prompt: Prompt)
    | Resume(task: nat)
    | Abandon(task: nat)
    | Interrupt(connection: string, runtime: string, target: Target)
    | Prune(connection: string, runtime: string, target: Target)
    | Detach(connection: string)
    | Restart
    | Crash

  predicate Possible(step: Step) {
    step.Submit? ==> IsDigest(step.prompt.digest) && IsDigest(step.prompt.manifest)
  }

  /** Every handler saves before it waits, so what a crash leaves on disk is the ledger between two steps. */
  function Next(l: Ledger, step: Step): Ledger {
    match step
    case Open(mobile, connection, wellFormed) => if wellFormed then OpenNext(l, mobile, connection) else l
    case Submit(prompt) => SubmitNext(l, prompt)
    case Resume(task) => ResumeNext(l, task)
    case Abandon(task) => l.(tasks := l.tasks - {task})
    case Interrupt(connection, runtime, target) => InterruptNext(l, connection, runtime, target)
    case Prune(connection, runtime, target) => PruneNext(l, connection, runtime, target)
    case Detach(connection) => l.(connections := l.connections - {connection})
    case Restart => l.(runtimes := map[], connections := map[])
    case Crash => Started(l.profile, l.durable)
  }

  function After(l: Ledger, steps: seq<Step>): Ledger {
    if steps == [] then l else Next(After(l, steps[..|steps| - 1]), steps[|steps| - 1])
  }

  predicate Run(steps: seq<Step>) {
    forall k :: 0 <= k < |steps| ==> Possible(steps[k])
  }

  // ---- Replay ----

  const PAGE: nat := 2

  datatype Replay =
    | Page(events: seq<Event>, hasMore: bool, nextAfter: int)
    | Snapshot(status: Status, text: string, lastSeq: int)
    | Pruned

  function EventsAfter(events: seq<Event>, after: int): seq<Event> {
    if events == [] then []
    else
      var front := EventsAfter(events[..|events| - 1], after);
      if events[|events| - 1].seqNo > after then front + [events[|events| - 1]] else front
  }

  function Reconcile(t: Turn, after: nat): Replay {
    if after < t.firstRetained - 1 then
      if !Terminal(t.status) || t.text == "" then Pruned else Snapshot(t.status, t.text, t.lastSeq)
    else
      var newer := EventsAfter(t.events, after);
      var events := newer[..if |newer| < PAGE then |newer| else PAGE];
      var next := if events == [] then after else events[|events| - 1].seqNo;
      Page(events, next < t.lastSeq, next)
  }
}
