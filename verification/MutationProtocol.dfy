/**
 * The mutation-authorization path as a step machine: clients (browser_executor/client.py), one relay per native port
 * (browser_executor/native_messaging.py), and the extension's worker (extension/service-worker.js), with FIFO channels,
 * timers, cancellation, port loss and local confirmation. Every step is taken in any enabled order.
 */
module MutationProtocol {
  import opened Common

  type JobId = nat
  type Port = nat

  datatype Mode = Manual | Plan | Automatic

  /** What is fixed about one job: its host process, its capability, and whether it holds a protected operation. */
  datatype Spec = Spec(port: Port, mutation: bool, protectedOperation: bool)

  datatype Line = JobLine(job: JobId) | AuthLine(job: JobId, authorized: bool)
  datatype Note = BeforeNote(job: JobId) | ResultNote(job: JobId) | ErrorNote

  datatype ClientPhase = Idle | Waiting | InCallback | Closed
  datatype Handler = NotAccepted | Serving(seen: Option<JobId>, replied: bool) | Ended
  datatype Task = NoTask | Validating | MatchingGrant | ReadingPlatform | Running | Settled

  /** How a pending boundary came to be granted. */
  datatype Decision = Undecided | ByMode(mode: Mode) | ByUser

  /** The client end of one job's connection. */
  datatype Client = Client(
    phase: ClientPhase, authorized: bool, callbacks: nat, returned: bool, toRelay: seq<Line>, fromRelay: seq<Note>)

  /**
   * The worker's job object. `verdict` is an answered boundary whose caller has not resumed yet; `checking` is the
   * await on the exact target between reading the answer and the start.
   */
  datatype Worker = Worker(
    task: Task, cancelled: bool, requested: bool, boundary: bool, verdict: Option<bool>, deciding: bool,
    externalAuthorized: bool, checking: bool, started: bool, decision: Decision)

  /** Everything that belongs to one job, on all three sides. */
  datatype Party = Party(client: Client, handler: Handler, worker: Worker)

  datatype Relay = Relay(slot: Option<JobId>, toExtension: seq<Line>, fromExtension: seq<Note>)

  datatype State = State(
    parties: map<JobId, Party>,
    relays: map<Port, Relay>,
    nativePort: Option<Port>,
    activeJob: Option<JobId>,
    mode: Mode)

  type Config = map<JobId, Spec>

  const NEW_PARTY := Party(
    Client(Idle, false, 0, false, [], []), NotAccepted,
    Worker(NoTask, false, false, false, None, false, false, false, false, Undecided))

  ghost predicate WellTyped(c: Config, s: State) {
    s.parties.Keys == c.Keys && (forall j | j in c :: c[j].port in s.relays) &&
    (s.activeJob.Some? ==> s.activeJob.value in c)
  }

  ghost predicate Init(c: Config, s: State) {
    WellTyped(c, s) && (forall j | j in c :: s.parties[j] == NEW_PARTY) &&
    (forall r | r in s.relays :: s.relays[r] == Relay(None, [], [])) && s.activeJob.None?
  }

  /** What one job's agent side can do next: the client first, then its relay connection. */
  datatype AgentAct = Begin | Receive | CallbackEnds(normally: bool) | GiveUp | Accept | Forward | HangUp

  /** What can happen next to one job inside the worker. */
  datatype WorkerAct =
    | Advance | Refuse | RequestMutation | BoundaryTimer | Decide(stateRead: bool) | UserAnswer(approved: bool)
    | Resume(inTime: bool) | TargetRead(exact: bool) | EndJob

  datatype Step =
    | AtAgent(j: JobId, agentAct: AgentAct)
    | AtWorker(j: JobId, workerAct: WorkerAct)
    | Deliver(r: Port) | WorkerReceive(r: Port)
    | Cancel | PortLost(r: Port) | PortConnected(r: Port) | SetMode(m: Mode)

  // ----- state updates

  function With(s: State, j: JobId, p: Party): State {
    s.(parties := s.parties[j := p])
  }

  function WithClient(s: State, j: JobId, client: Client): State
    requires j in s.parties
  {
    With(s, j, s.parties[j].(client := client))
  }

  function WithHandler(s: State, j: JobId, handler: Handler): State
    requires j in s.parties
  {
    With(s, j, s.parties[j].(handler := handler))
  }

  function WithWorker(s: State, j: JobId, worker: Worker): State
    requires j in s.parties
  {
    With(s, j, s.parties[j].(worker := worker))
  }

  function WithTask(s: State, j: JobId, task: Task): State
    requires j in s.parties
  {
    WithWorker(s, j, s.parties[j].worker.(task := task))
  }

  function WithRelay(s: State, r: Port, relay: Relay): State {
    s.(relays := s.relays[r := relay])
  }

  predicate ActiveKnown(c: Config, s: State) {
    s.activeJob.Some? ==> s.activeJob.value in c && s.activeJob.value in s.parties
  }

  // ----- the client

  /** The client's loop body on the next message: only its own first boundary runs the callback. */
  function Received(spec: Spec, j: JobId, p: Client): Client
    requires p.fromRelay != []
  {
    var note := p.fromRelay[0];
    var q := p.(fromRelay := p.fromRelay[1..]);
    if note.BeforeNote? && spec.mutation && note.job == j && !p.authorized
    then q.(phase := InCallback, callbacks := p.callbacks + 1)
    else q.(phase := Closed)
  }

  function CallbackEnded(j: JobId, p: Client, normally: bool): Client {
    if normally
    then p.(phase := Waiting, authorized := true, returned := true, toRelay := p.toRelay + [AuthLine(j, true)])
    else p.(phase := Closed, toRelay := p.toRelay + [AuthLine(j, false)])
  }

  // ----- the relay

  function Accepted(s: State, j: JobId, port: Port): State
    requires j in s.parties && port in s.relays
  {
    if s.relays[port].slot.Some? then
      var p := s.parties[j].client;
      With(s, j, s.parties[j].(handler := Ended, client := p.(fromRelay := p.fromRelay + [ErrorNote])))
    else WithRelay(WithHandler(s, j, Serving(None, false)), port, s.relays[port].(slot := Some(j)))
  }

  function HungUp(s: State, j: JobId, port: Port): State
    requires j in s.parties && port in s.relays
  {
    var relay := s.relays[port];
    WithRelay(WithHandler(s, j, Ended), port, if relay.slot == Some(j) then relay.(slot := None) else relay)
  }

  /** What the connection may still send after `line`; `None` ends it: first its job, then one reply for that job. */
  function Admitted(handler: Handler, line: Line): Option<Handler>
    requires handler.Serving?
  {
    if handler.seen.None? && line.JobLine? then Some(Serving(Some(line.job), false))
    else if handler.seen == Some(line.job) && line.AuthLine? && !handler.replied then Some(handler.(replied := true))
    else None
  }

  function Forwarded(s: State, j: JobId, port: Port): State
    requires j in s.parties && port in s.relays && s.parties[j].handler.Serving? && s.parties[j].client.toRelay != []
  {
    var line := s.parties[j].client.toRelay[0];
    var t := Taken(s, j);
    var admitted := Admitted(s.parties[j].handler, line);
    if admitted.Some? then Enqueued(WithHandler(t, j, admitted.value), port, line)
    else HungUp(t, j, port)
  }

  function Taken(s: State, j: JobId): State
    requires j in s.parties && s.parties[j].client.toRelay != []
  {
    var p := s.parties[j].client;
    WithClient(s, j, p.(toRelay := p.toRelay[1..]))
  }

  function Enqueued(s: State, port: Port, line: Line): State
    requires port in s.relays
  {
    var relay := s.relays[port];
    WithRelay(s, port, relay.(toExtension := relay.toExtension + [line]))
  }

  /** Whatever the extension writes goes to the connection that holds the slot, if any. */
  function Delivered(s: State, r: Port): State
    requires r in s.relays && s.relays[r].fromExtension != []
  {
    var relay := s.relays[r];
    var t := WithRelay(s, r, relay.(fromExtension := relay.fromExtension[1..]));
    if relay.slot.Some? && relay.slot.value in s.parties then
      var p := s.parties[relay.slot.value].client;
      WithClient(t, relay.slot.value, p.(fromRelay := p.fromRelay + [relay.fromExtension[0]]))
    else t
  }

  // ----- the worker

  function FinishBoundary(w: Worker, authorized: bool, decision: Decision): Worker {
    if !w.boundary then w
    else w.(boundary := false, verdict := Some(authorized), decision := if authorized then decision else w.decision)
  }

  function Denied(s: State, j: JobId): State
    requires j in s.parties
  {
    WithWorker(s, j, FinishBoundary(s.parties[j].worker, false, Undecided))
  }

  function CancelActive(c: Config, s: State, port: Option<Port>): State
    requires ActiveKnown(c, s)
  {
    if s.activeJob.None? || (port.Some? && c[s.activeJob.value].port != port.value) then s
    else Cancelled(s, s.activeJob.value)
  }

  function Cancelled(s: State, j: JobId): State
    requires j in s.parties
  {
    WithWorker(s, j, FinishBoundary(s.parties[j].worker.(cancelled := true), false, Undecided))
  }

  /** Only the current native port carries messages; a send through any other throws. */
  function SendNote(s: State, port: Port, note: Note): Option<State>
    requires port in s.relays
  {
    if s.nativePort != Some(port) then None
    else
      var relay := s.relays[port];
      Some(WithRelay(s, port, relay.(fromExtension := relay.fromExtension + [note])))
  }

  /** A send that throws out of `handleNativeMessage` cancels the active job of that port. */
  function SendOrCancel(c: Config, s: State, port: Port, note: Note): State
    requires port in s.relays && ActiveKnown(c, s)
  {
    var sent := SendNote(s, port, note);
    if sent.Some? then sent.value else CancelActive(c, s, Some(port))
  }

  function HandleAuthorization(c: Config, s: State, line: Line, port: Port): State
    requires line.AuthLine? && ActiveKnown(c, s)
  {
    var j := line.job;
    if s.activeJob != Some(j) || c[j].port != port || !s.parties[j].worker.boundary then CancelActive(c, s, Some(port))
    else if !line.authorized then Denied(s, j)
    else WithWorker(s, j, s.parties[j].worker.(deciding := true))
  }

  /** The active-job test is here; the assignment is in `Advanced`, several awaits later. */
  function WorkerReceived(c: Config, s: State, r: Port): State
    requires r in s.relays && s.relays[r].toExtension != [] && ActiveKnown(c, s)
    requires var line := s.relays[r].toExtension[0]; line.JobLine? ==> line.job in s.parties
  {
    var relay := s.relays[r];
    var t := WithRelay(s, r, relay.(toExtension := relay.toExtension[1..]));
    match relay.toExtension[0]
    case AuthLine(_, _) => HandleAuthorization(c, t, relay.toExtension[0], r)
    case JobLine(j) =>
      if s.activeJob.Some? then SendOrCancel(c, WithTask(t, j, Settled), r, ResultNote(j))
      else WithTask(t, j, Validating)
  }

  function PortGone(c: Config, s: State, r: Port): State
    requires ActiveKnown(c, s)
  {
    var t := CancelActive(c, s, Some(r));
    if t.nativePort == Some(r) then t.(nativePort := None) else t
  }

  predicate Pending(w: Worker) {
    w.task == Validating || w.task == MatchingGrant || w.task == ReadingPlatform
  }

  function Advanced(s: State, j: JobId): State
    requires j in s.parties && Pending(s.parties[j].worker)
  {
    match s.parties[j].worker.task
    case Validating => WithTask(s, j, MatchingGrant)
    case MatchingGrant => WithTask(s, j, ReadingPlatform)
    case ReadingPlatform => WithTask(s, j, Running).(activeJob := Some(j))
  }

  function Requested(s: State, j: JobId, port: Port): State
    requires j in s.parties && port in s.relays
  {
    var w := s.parties[j].worker.(requested := true);
    if w.cancelled || w.boundary then WithWorker(s, j, w.(verdict := Some(false)))
    else
      var pending := WithWorker(s, j, w.(boundary := true));
      var sent := SendNote(pending, port, BeforeNote(j));
      if sent.Some? then sent.value else Denied(pending, j)
  }

  /** The authorization state has been read (or reading it failed). */
  function Decided(spec: Spec, w: Worker, mode: Mode, stateRead: bool): Worker {
    var q := w.(deciding := false);
    if !stateRead then FinishBoundary(q, false, Undecided)
    else if mode == Manual || spec.protectedOperation then q.(externalAuthorized := true)
    else FinishBoundary(q, true, ByMode(mode))
  }

  /** `beforeMutation` after its first await: deadline and cancellation, then the answer. */
  function Resumed(w: Worker, inTime: bool): Worker
    requires w.verdict.Some?
  {
    w.(verdict := None, checking := !w.cancelled && inTime && w.verdict.value)
  }

  /** After its second one: the exact target was seen or not; cancellation is not read again. */
  function Looked(w: Worker, exact: bool): Worker {
    w.(checking := false, started := w.started || exact)
  }

  function JobEnded(s: State, j: JobId, port: Port): State
    requires j in s.parties && port in s.relays
  {
    var t := WithTask(s, j, Settled);
    var u := if t.activeJob == Some(j) then t.(activeJob := None) else t;
    var sent := SendNote(u, port, ResultNote(j));
    if sent.Some? then sent.value else u
  }

  // ----- steps

  predicate AgentEnabled(p: Party, act: AgentAct) {
    match act
    case Begin => p.client.phase == Idle
    case Receive => p.client.phase == Waiting && p.client.fromRelay != []
    case CallbackEnds(_) => p.client.phase == InCallback
    case GiveUp => p.client.phase == Waiting
    case Accept => p.client.phase != Idle && p.handler == NotAccepted
    case Forward => p.handler.Serving? && p.client.toRelay != []
    case HangUp => p.handler.Serving?
  }

  function AgentApply(c: Config, s: State, j: JobId, act: AgentAct): State
    requires j in c && j in s.parties && c[j].port in s.relays && AgentEnabled(s.parties[j], act)
  {
    match act
    case Begin => WithClient(s, j, s.parties[j].client.(phase := Waiting, toRelay := [JobLine(j)]))
    case Receive => WithClient(s, j, Received(c[j], j, s.parties[j].client))
    case CallbackEnds(normally) => WithClient(s, j, CallbackEnded(j, s.parties[j].client, normally))
    case GiveUp => WithClient(s, j, s.parties[j].client.(phase := Closed))
    case Accept => Accepted(s, j, c[j].port)
    case Forward => Forwarded(s, j, c[j].port)
    case HangUp => HungUp(s, j, c[j].port)
  }

  predicate WorkerEnabled(spec: Spec, w: Worker, active: bool, act: WorkerAct) {
    match act
    case Advance => Pending(w)
    case Refuse => Pending(w)
    case RequestMutation => w.task == Running && spec.mutation && !w.requested
    case BoundaryTimer => w.boundary
    case Decide(_) => w.deciding
    case UserAnswer(_) => active && w.boundary && w.externalAuthorized
    case Resume(_) => w.task == Running && w.verdict.Some?
    case TargetRead(_) => w.task == Running && w.checking
    case EndJob => w.task == Running && !w.boundary && w.verdict.None? && !w.checking
  }

  function WorkerApply(c: Config, s: State, j: JobId, act: WorkerAct): State
    requires j in c && j in s.parties && c[j].port in s.relays && ActiveKnown(c, s)
    requires WorkerEnabled(c[j], s.parties[j].worker, s.activeJob == Some(j), act)
  {
    match act
    case Advance => Advanced(s, j)
    case Refuse => SendOrCancel(c, WithTask(s, j, Settled), c[j].port, ResultNote(j))
    case RequestMutation => Requested(s, j, c[j].port)
    case BoundaryTimer => Denied(s, j)
    case Decide(stateRead) => WithWorker(s, j, Decided(c[j], s.parties[j].worker, s.mode, stateRead))
    case UserAnswer(approved) => WithWorker(s, j, FinishBoundary(s.parties[j].worker, approved, ByUser))
    case Resume(inTime) => WithWorker(s, j, Resumed(s.parties[j].worker, inTime))
    case TargetRead(exact) => WithWorker(s, j, Looked(s.parties[j].worker, exact))
    case EndJob => JobEnded(s, j, c[j].port)
  }

  /** A job message the worker has not seen before: job ids are fresh. */
  predicate FreshJob(s: State, line: Line) {
    line.JobLine? ==> line.job in s.parties && s.parties[line.job].worker.task == NoTask
  }

  predicate Enabled(c: Config, s: State, e: Step) {
    ActiveKnown(c, s) &&
    match e
    case AtAgent(j, act) => j in c && j in s.parties && c[j].port in s.relays && AgentEnabled(s.parties[j], act)
    case AtWorker(j, act) =>
      j in c && j in s.parties && c[j].port in s.relays &&
      WorkerEnabled(c[j], s.parties[j].worker, s.activeJob == Some(j), act)
    case Deliver(r) => r in s.relays && s.relays[r].fromExtension != []
    case WorkerReceive(r) =>
      r in s.relays && s.relays[r].toExtension != [] && FreshJob(s, s.relays[r].toExtension[0])
    case PortLost(r) => r in s.relays
    case PortConnected(r) => r in s.relays && s.nativePort.None?
    case _ => true
  }

  function Apply(c: Config, s: State, e: Step): State
    requires Enabled(c, s, e)
  {
    match e
    case AtAgent(j, act) => AgentApply(c, s, j, act)
    case AtWorker(j, act) => WorkerApply(c, s, j, act)
    case Deliver(r) => Delivered(s, r)
    case WorkerReceive(r) => WorkerReceived(c, s, r)
    case Cancel => CancelActive(c, s, None)
    case PortLost(r) => PortGone(c, s, r)
    case PortConnected(r) => s.(nativePort := Some(r))
    case SetMode(m) => s.(mode := m)
  }

  // ----- the invariant

  /** The boundary was granted by the job's own client and, where required, by the local user. */
  predicate Granted(spec: Spec, p: Party) {
    p.client.callbacks == 1 && p.client.returned && Confirmed(spec, p.worker.decision)
  }

  predicate Confirmed(spec: Spec, d: Decision) {
    d.ByUser? || (d.ByMode? && d.mode != Manual && !spec.protectedOperation)
  }

  predicate ClientOk(spec: Spec, j: JobId, p: Client, requested: bool) {
    p.callbacks <= 1 && (p.returned ==> p.callbacks == 1) && p.authorized == p.returned &&
    (p.phase == Idle ==> p.callbacks == 0) && (p.phase == Waiting && !p.authorized ==> p.callbacks == 0) &&
    (p.phase == InCallback ==> p.callbacks == 1 && !p.returned) &&
    (p.callbacks == 1 ==> requested && spec.mutation) &&
    forall l | l in p.toRelay :: LineOk(j, l, p.returned)
  }

  predicate LineOk(j: JobId, l: Line, returned: bool) {
    l.job == j && (l.AuthLine? && l.authorized ==> returned)
  }

  predicate WorkerOk(spec: Spec, w: Worker, returned: bool) {
    (w.deciding || w.externalAuthorized ==> returned) &&
    (w.boundary ==> w.requested && w.verdict.None? && !w.checking && !w.started) &&
    (w.verdict.Some? ==> w.requested && !w.checking && !w.started) &&
    (w.verdict == Some(true) ==> returned && Confirmed(spec, w.decision)) &&
    (w.checking ==> w.requested && !w.started && returned && Confirmed(spec, w.decision)) &&
    (w.started ==> w.requested && returned && Confirmed(spec, w.decision))
  }

  predicate PartyOk(spec: Spec, j: JobId, p: Party) {
    ClientOk(spec, j, p.client, p.worker.requested) && WorkerOk(spec, p.worker, p.client.returned)
  }

  predicate NotesTrue(s: State, notes: seq<Note>) {
    forall n | n in notes && n.BeforeNote? :: n.job in s.parties && s.parties[n.job].worker.requested
  }

  predicate LinesTrue(s: State, lines: seq<Line>) {
    forall l | l in lines && l.AuthLine? && l.authorized :: l.job in s.parties && s.parties[l.job].client.returned
  }

  /** One job: its own fields agree, and the boundary messages queued for its client are from jobs that asked. */
  predicate PartyAt(c: Config, s: State, j: JobId)
    requires j in c
  {
    j in s.parties && PartyOk(c[j], j, s.parties[j]) && NotesTrue(s, s.parties[j].client.fromRelay)
  }

  predicate RelayAt(s: State, r: Port)
    requires r in s.relays
  {
    NotesTrue(s, s.relays[r].fromExtension) && LinesTrue(s, s.relays[r].toExtension)
  }

  ghost predicate Inv(c: Config, s: State) {
    WellTyped(c, s) && (forall j | j in c :: PartyAt(c, s, j)) && (forall r | r in s.relays :: RelayAt(s, r))
  }

  predicate Grows(p: Party, q: Party) {
    (p.client.returned ==> q.client.returned) && (p.worker.requested ==> q.worker.requested)
  }

  ghost predicate AllGrow(s: State, t: State) {
    forall k | k in s.parties :: k in t.parties && Grows(s.parties[k], t.parties[k])
  }

  lemma QueuesGrow(s: State, t: State, notes: seq<Note>, lines: seq<Line>)
    requires AllGrow(s, t)
    ensures NotesTrue(s, notes) ==> NotesTrue(t, notes)
    ensures LinesTrue(s, lines) ==> LinesTrue(t, lines)
  {
  }

  lemma PartyChange(c: Config, s: State, j: JobId, q: Party)
    requires Inv(c, s) && j in c && PartyOk(c[j], j, q) && Grows(s.parties[j], q)
    requires NotesTrue(s, q.client.fromRelay)
    ensures Inv(c, With(s, j, q))
  {
    var t := With(s, j, q);
    assert AllGrow(s, t);
    forall k | k in c
      ensures PartyAt(c, t, k)
    {
      assert PartyAt(c, s, k);
      QueuesGrow(s, t, t.parties[k].client.fromRelay, []);
    }
    forall r | r in t.relays
      ensures RelayAt(t, r)
    {
      assert RelayAt(s, r);
      QueuesGrow(s, t, s.relays[r].fromExtension, s.relays[r].toExtension);
    }
  }

  lemma ClientChange(c: Config, s: State, j: JobId, q: Client)
    requires Inv(c, s) && j in c && ClientOk(c[j], j, q, s.parties[j].worker.requested)
    requires (s.parties[j].client.returned ==> q.returned) && NotesTrue(s, q.fromRelay)
    ensures Inv(c, WithClient(s, j, q))
  {
    assert PartyAt(c, s, j);
    PartyChange(c, s, j, s.parties[j].(client := q));
  }

  lemma WorkerChange(c: Config, s: State, j: JobId, w: Worker)
    requires Inv(c, s) && j in c && WorkerOk(c[j], w, s.parties[j].client.returned)
    requires s.parties[j].worker.requested ==> w.requested
    ensures Inv(c, WithWorker(s, j, w))
  {
    assert PartyAt(c, s, j);
    PartyChange(c, s, j, s.parties[j].(worker := w));
  }

  lemma TaskChange(c: Config, s: State, j: JobId, task: Task)
    requires Inv(c, s) && j in c
    ensures Inv(c, WithTask(s, j, task))
  {
    assert PartyAt(c, s, j);
    WorkerChange(c, s, j, s.parties[j].worker.(task := task));
  }

  lemma HandlerChange(c: Config, s: State, j: JobId, handler: Handler)
    requires Inv(c, s) && j in c
    ensures Inv(c, WithHandler(s, j, handler))
  {
    assert PartyAt(c, s, j);
    PartyChange(c, s, j, s.parties[j].(handler := handler));
  }

  lemma RelayChange(c: Config, s: State, r: Port, relay: Relay)
    requires Inv(c, s) && r in s.relays && NotesTrue(s, relay.fromExtension) && LinesTrue(s, relay.toExtension)
    ensures Inv(c, WithRelay(s, r, relay))
  {
    SameParties(c, s, WithRelay(s, r, relay));
    forall q | q in s.relays && q != r
      ensures RelayAt(WithRelay(s, r, relay), q)
    {
      assert RelayAt(s, q);
    }
  }

  lemma SameParties(c: Config, s: State, t: State)
    requires Inv(c, s) && t.parties == s.parties
    ensures forall j | j in c :: PartyAt(c, t, j)
    ensures forall r | r in s.relays && r in t.relays && t.relays[r] == s.relays[r] :: RelayAt(t, r)
  {
    forall j | j in c
      ensures PartyAt(c, t, j)
    {
      assert PartyAt(c, s, j);
    }
    forall r | r in s.relays && r in t.relays && t.relays[r] == s.relays[r]
      ensures RelayAt(t, r)
    {
      assert RelayAt(s, r);
    }
  }

  /** Changing only the native port, the active job or the mode. */
  lemma SameQueues(c: Config, s: State, t: State)
    requires Inv(c, s) && t.parties == s.parties && t.relays == s.relays && WellTyped(c, t)
    ensures Inv(c, t)
  {
    SameParties(c, s, t);
  }

  lemma WorkerFacts(c: Config, s: State, j: JobId)
    requires Inv(c, s) && j in c
    ensures j in s.parties && WorkerOk(c[j], s.parties[j].worker, s.parties[j].client.returned)
  {
    assert PartyAt(c, s, j);
  }

  lemma FinishedOk(spec: Spec, w: Worker, returned: bool)
    requires WorkerOk(spec, w, returned)
    ensures WorkerOk(spec, FinishBoundary(w, false, Undecided), returned)
    ensures WorkerOk(spec, FinishBoundary(w.(cancelled := true), false, Undecided), returned)
  {
  }

  lemma CancelledKeeps(c: Config, s: State, j: JobId)
    requires Inv(c, s) && j in c
    ensures Inv(c, Cancelled(s, j))
  {
    WorkerFacts(c, s, j);
    FinishedOk(c[j], s.parties[j].worker, s.parties[j].client.returned);
    WorkerChange(c, s, j, FinishBoundary(s.parties[j].worker.(cancelled := true), false, Undecided));
  }

  lemma CancelKeeps(c: Config, s: State, port: Option<Port>)
    requires Inv(c, s)
    ensures Inv(c, CancelActive(c, s, port))
  {
    if s.activeJob.Some? {
      CancelledKeeps(c, s, s.activeJob.value);
    }
  }

  lemma DeniedKeeps(c: Config, s: State, j: JobId)
    requires Inv(c, s) && j in c
    ensures Inv(c, Denied(s, j))
  {
    WorkerFacts(c, s, j);
    FinishedOk(c[j], s.parties[j].worker, s.parties[j].client.returned);
    WorkerChange(c, s, j, FinishBoundary(s.parties[j].worker, false, Undecided));
  }

  lemma SendKeeps(c: Config, s: State, port: Port, note: Note)
    requires Inv(c, s) && port in s.relays
    requires note.BeforeNote? ==> note.job in c && s.parties[note.job].worker.requested
    ensures SendNote(s, port, note).Some? ==> Inv(c, SendNote(s, port, note).value)
  {
    var relay := s.relays[port];
    assert RelayAt(s, port);
    RelayChange(c, s, port, relay.(fromExtension := relay.fromExtension + [note]));
  }

  lemma SendOrCancelKeeps(c: Config, s: State, port: Port, note: Note)
    requires Inv(c, s) && port in s.relays && !note.BeforeNote?
    ensures Inv(c, SendOrCancel(c, s, port, note))
  {
    SendKeeps(c, s, port, note);
    CancelKeeps(c, s, Some(port));
  }

  // ----- every step keeps it

  lemma BeginKeeps(c: Config, s: State, j: JobId)
    requires Inv(c, s) && j in c && s.parties[j].client.phase == Idle
    ensures Inv(c, WithClient(s, j, s.parties[j].client.(phase := Waiting, toRelay := [JobLine(j)])))
  {
    assert PartyAt(c, s, j);
    ClientChange(c, s, j, s.parties[j].client.(phase := Waiting, toRelay := [JobLine(j)]));
  }

  lemma ReceiveKeeps(c: Config, s: State, j: JobId)
    requires Inv(c, s) && j in c && AgentEnabled(s.parties[j], Receive)
    ensures Inv(c, WithClient(s, j, Received(c[j], j, s.parties[j].client)))
  {
    assert PartyAt(c, s, j);
    assert s.parties[j].client.fromRelay[0] in s.parties[j].client.fromRelay;
    ClientChange(c, s, j, Received(c[j], j, s.parties[j].client));
  }

  lemma CallbackKeeps(c: Config, s: State, j: JobId, normally: bool)
    requires Inv(c, s) && j in c && s.parties[j].client.phase == InCallback
    ensures Inv(c, WithClient(s, j, CallbackEnded(j, s.parties[j].client, normally)))
  {
    assert PartyAt(c, s, j);
    var p := s.parties[j].client;
    var q := CallbackEnded(j, p, normally);
    forall l | l in q.toRelay
      ensures LineOk(j, l, q.returned)
    {
      assert l in p.toRelay ==> LineOk(j, l, p.returned);
    }
    ClientChange(c, s, j, q);
  }

  lemma GiveUpKeeps(c: Config, s: State, j: JobId)
    requires Inv(c, s) && j in c && s.parties[j].client.phase == Waiting
    ensures Inv(c, WithClient(s, j, s.parties[j].client.(phase := Closed)))
  {
    assert PartyAt(c, s, j);
    ClientChange(c, s, j, s.parties[j].client.(phase := Closed));
  }

  lemma HangUpKeeps(c: Config, s: State, j: JobId, port: Port)
    requires Inv(c, s) && j in c && port in s.relays
    ensures Inv(c, HungUp(s, j, port))
  {
    HandlerChange(c, s, j, Ended);
    var t := WithHandler(s, j, Ended);
    assert RelayAt(t, port);
    var relay := t.relays[port];
    RelayChange(c, t, port, if relay.slot == Some(j) then relay.(slot := None) else relay);
  }

  lemma AcceptKeeps(c: Config, s: State, j: JobId, port: Port)
    requires Inv(c, s) && j in c && port in s.relays
    ensures Inv(c, Accepted(s, j, port))
  {
    assert PartyAt(c, s, j);
    if s.relays[port].slot.Some? {
      var p := s.parties[j].client;
      PartyChange(c, s, j, s.parties[j].(handler := Ended, client := p.(fromRelay := p.fromRelay + [ErrorNote])));
    } else {
      HandlerChange(c, s, j, Serving(None, false));
      var t := WithHandler(s, j, Serving(None, false));
      assert RelayAt(t, port);
      RelayChange(c, t, port, t.relays[port].(slot := Some(j)));
    }
  }

  lemma ForwardKeeps(c: Config, s: State, j: JobId, port: Port)
    requires Inv(c, s) && j in c && port in s.relays
    requires s.parties[j].handler.Serving? && s.parties[j].client.toRelay != []
    ensures Inv(c, Forwarded(s, j, port))
  {
    var line := s.parties[j].client.toRelay[0];
    TakenKeeps(c, s, j);
    var t := Taken(s, j);
    var admitted := Admitted(s.parties[j].handler, line);
    if admitted.Some? {
      HandlerChange(c, t, j, admitted.value);
      EnqueueKeeps(c, WithHandler(t, j, admitted.value), port, line);
    } else {
      HangUpKeeps(c, t, j, port);
    }
  }

  /** A line leaves the client's queue; if it says "authorized", the callback has returned. */
  lemma TakenKeeps(c: Config, s: State, j: JobId)
    requires Inv(c, s) && j in c && s.parties[j].client.toRelay != []
    ensures Inv(c, Taken(s, j))
    ensures forall handler :: LinesTrue(WithHandler(Taken(s, j), j, handler), [s.parties[j].client.toRelay[0]])
  {
    assert PartyAt(c, s, j);
    var p := s.parties[j].client;
    assert p.toRelay[0] in p.toRelay && LineOk(j, p.toRelay[0], p.returned);
    ClientChange(c, s, j, p.(toRelay := p.toRelay[1..]));
  }

  lemma EnqueueKeeps(c: Config, s: State, port: Port, line: Line)
    requires Inv(c, s) && port in s.relays && LinesTrue(s, [line])
    ensures Inv(c, Enqueued(s, port, line))
  {
    var relay := s.relays[port];
    assert RelayAt(s, port);
    assert line in [line];
    RelayChange(c, s, port, relay.(toExtension := relay.toExtension + [line]));
  }

  lemma DeliverKeeps(c: Config, s: State, r: Port)
    requires Inv(c, s) && r in s.relays && s.relays[r].fromExtension != []
    ensures Inv(c, Delivered(s, r))
  {
    var relay := s.relays[r];
    assert RelayAt(s, r);
    var rest := relay.(fromExtension := relay.fromExtension[1..]);
    RelayChange(c, s, r, rest);
    var t := WithRelay(s, r, rest);
    if relay.slot.Some? && relay.slot.value in s.parties {
      var k := relay.slot.value;
      assert PartyAt(c, t, k);
      var p := t.parties[k].client;
      assert relay.fromExtension[0] in relay.fromExtension;
      ClientChange(c, t, k, p.(fromRelay := p.fromRelay + [relay.fromExtension[0]]));
    }
  }

  lemma AuthorizationKeeps(c: Config, s: State, line: Line, port: Port)
    requires Inv(c, s) && line.AuthLine? && LinesTrue(s, [line])
    ensures Inv(c, HandleAuthorization(c, s, line, port))
  {
    var j := line.job;
    CancelKeeps(c, s, Some(port));
    if s.activeJob == Some(j) {
      DeniedKeeps(c, s, j);
      assert line in [line] && PartyAt(c, s, j);
      if line.authorized {
        WorkerChange(c, s, j, s.parties[j].worker.(deciding := true));
      }
    }
  }

  lemma WorkerReceiveKeeps(c: Config, s: State, r: Port)
    requires Inv(c, s) && r in s.relays && s.relays[r].toExtension != []
    requires var line := s.relays[r].toExtension[0]; line.JobLine? ==> line.job in s.parties
    ensures Inv(c, WorkerReceived(c, s, r))
  {
    var relay := s.relays[r];
    var line := relay.toExtension[0];
    assert RelayAt(s, r) && line in relay.toExtension;
    var rest := relay.(toExtension := relay.toExtension[1..]);
    RelayChange(c, s, r, rest);
    var t := WithRelay(s, r, rest);
    match line {
      case AuthLine(_, _) =>
        AuthorizationKeeps(c, t, line, r);
      case JobLine(j) =>
        TaskChange(c, t, j, Validating);
        TaskChange(c, t, j, Settled);
        SendOrCancelKeeps(c, WithTask(t, j, Settled), r, ResultNote(j));
    }
  }

  lemma AdvanceKeeps(c: Config, s: State, j: JobId)
    requires Inv(c, s) && j in c && Pending(s.parties[j].worker)
    ensures Inv(c, Advanced(s, j))
  {
    match s.parties[j].worker.task
    case Validating => TaskChange(c, s, j, MatchingGrant);
    case MatchingGrant => TaskChange(c, s, j, ReadingPlatform);
    case ReadingPlatform =>
      TaskChange(c, s, j, Running);
      SameQueues(c, WithTask(s, j, Running), Advanced(s, j));
  }

  lemma RequestKeeps(c: Config, s: State, j: JobId, port: Port)
    requires Inv(c, s) && j in c && port in s.relays && !s.parties[j].worker.requested
    ensures Inv(c, Requested(s, j, port))
  {
    assert PartyAt(c, s, j);
    var w := s.parties[j].worker.(requested := true);
    if w.cancelled {
      WorkerChange(c, s, j, w.(verdict := Some(false)));
    } else {
      WorkerChange(c, s, j, w.(boundary := true));
      var pending := WithWorker(s, j, w.(boundary := true));
      SendKeeps(c, pending, port, BeforeNote(j));
      DeniedKeeps(c, pending, j);
    }
  }

  lemma DecideKeeps(c: Config, s: State, j: JobId, stateRead: bool)
    requires Inv(c, s) && j in c && s.parties[j].worker.deciding
    ensures Inv(c, WithWorker(s, j, Decided(c[j], s.parties[j].worker, s.mode, stateRead)))
  {
    assert PartyAt(c, s, j);
    WorkerChange(c, s, j, Decided(c[j], s.parties[j].worker, s.mode, stateRead));
  }

  lemma AnswerKeeps(c: Config, s: State, j: JobId, approved: bool)
    requires Inv(c, s) && j in c && s.parties[j].worker.externalAuthorized
    ensures Inv(c, WithWorker(s, j, FinishBoundary(s.parties[j].worker, approved, ByUser)))
  {
    assert PartyAt(c, s, j);
    WorkerChange(c, s, j, FinishBoundary(s.parties[j].worker, approved, ByUser));
  }

  lemma ResumeKeeps(c: Config, s: State, j: JobId, inTime: bool)
    requires Inv(c, s) && j in c && s.parties[j].worker.verdict.Some?
    ensures Inv(c, WithWorker(s, j, Resumed(s.parties[j].worker, inTime)))
  {
    WorkerFacts(c, s, j);
    WorkerChange(c, s, j, Resumed(s.parties[j].worker, inTime));
  }

  lemma LookKeeps(c: Config, s: State, j: JobId, exact: bool)
    requires Inv(c, s) && j in c && s.parties[j].worker.checking
    ensures Inv(c, WithWorker(s, j, Looked(s.parties[j].worker, exact)))
  {
    WorkerFacts(c, s, j);
    WorkerChange(c, s, j, Looked(s.parties[j].worker, exact));
  }

  lemma EndKeeps(c: Config, s: State, j: JobId, port: Port)
    requires Inv(c, s) && j in c && port in s.relays
    ensures Inv(c, JobEnded(s, j, port))
  {
    TaskChange(c, s, j, Settled);
    var t := WithTask(s, j, Settled);
    var u := if t.activeJob == Some(j) then t.(activeJob := None) else t;
    SameQueues(c, t, u);
    SendKeeps(c, u, port, ResultNote(j));
  }

  lemma AgentKeeps(c: Config, s: State, j: JobId, act: AgentAct)
    requires Inv(c, s) && j in c && AgentEnabled(s.parties[j], act)
    ensures Inv(c, AgentApply(c, s, j, act))
  {
    match act
    case Begin => BeginKeeps(c, s, j);
    case Receive => ReceiveKeeps(c, s, j);
    case CallbackEnds(normally) => CallbackKeeps(c, s, j, normally);
    case GiveUp => GiveUpKeeps(c, s, j);
    case Accept => AcceptKeeps(c, s, j, c[j].port);
    case Forward => ForwardKeeps(c, s, j, c[j].port);
    case HangUp => HangUpKeeps(c, s, j, c[j].port);
  }

  lemma WorkerKeeps(c: Config, s: State, j: JobId, act: WorkerAct)
    requires Inv(c, s) && j in c && WorkerEnabled(c[j], s.parties[j].worker, s.activeJob == Some(j), act)
    ensures Inv(c, WorkerApply(c, s, j, act))
  {
    match act
    case Advance => AdvanceKeeps(c, s, j);
    case Refuse =>
      TaskChange(c, s, j, Settled);
      SendOrCancelKeeps(c, WithTask(s, j, Settled), c[j].port, ResultNote(j));
    case RequestMutation => RequestKeeps(c, s, j, c[j].port);
    case BoundaryTimer => DeniedKeeps(c, s, j);
    case Decide(stateRead) => DecideKeeps(c, s, j, stateRead);
    case UserAnswer(approved) => AnswerKeeps(c, s, j, approved);
    case Resume(inTime) => ResumeKeeps(c, s, j, inTime);
    case TargetRead(exact) => LookKeeps(c, s, j, exact);
    case EndJob => EndKeeps(c, s, j, c[j].port);
  }

  /** Every step of every party keeps the invariant. */
  lemma StepKeeps(c: Config, s: State, e: Step)
    requires Inv(c, s) && Enabled(c, s, e)
    ensures Inv(c, Apply(c, s, e))
  {
    match e
    case AtAgent(j, act) => AgentKeeps(c, s, j, act);
    case AtWorker(j, act) => WorkerKeeps(c, s, j, act);
    case Deliver(r) => DeliverKeeps(c, s, r);
    case WorkerReceive(r) => WorkerReceiveKeeps(c, s, r);
    case Cancel => CancelKeeps(c, s, None);
    case PortLost(r) =>
      CancelKeeps(c, s, Some(r));
      SameQueues(c, CancelActive(c, s, Some(r)), PortGone(c, s, r));
    case PortConnected(_) => SameQueues(c, s, Apply(c, s, e));
    case SetMode(_) => SameQueues(c, s, Apply(c, s, e));
  }

  // ----- what only certain steps change

  /** No job came closer to its mutation: callbacks, answers, target checks and starts are as they were. */
  ghost predicate Still(s: State, t: State) {
    t.parties.Keys == s.parties.Keys && forall k | k in s.parties :: Same(s.parties[k], t.parties[k])
  }

  predicate Same(p: Party, q: Party) {
    q.client.callbacks == p.client.callbacks && q.client.returned == p.client.returned &&
    q.worker.checking == p.worker.checking && q.worker.started == p.worker.started &&
    (q.worker.verdict == Some(true) ==> p.worker.verdict == Some(true))
  }

  lemma CancelStill(c: Config, s: State, port: Option<Port>)
    requires ActiveKnown(c, s)
    ensures Still(s, CancelActive(c, s, port))
  {
  }

  lemma SendOrCancelStill(c: Config, s: State, t: State, port: Port, note: Note)
    requires port in t.relays && ActiveKnown(c, t) && Still(s, t)
    ensures Still(s, SendOrCancel(c, t, port, note))
  {
    CancelStill(c, t, Some(port));
  }

  /** A worker record changed without bringing its job closer. */
  lemma WorkerStays(s: State, t: State, j: JobId, w: Worker)
    requires j in t.parties && Still(s, t) && Same(t.parties[j], t.parties[j].(worker := w))
    ensures Still(s, WithWorker(t, j, w))
  {
  }

  lemma AuthorizationStill(c: Config, s: State, line: Line, port: Port)
    requires line.AuthLine? && ActiveKnown(c, s)
    ensures Still(s, HandleAuthorization(c, s, line, port))
  {
    CancelStill(c, s, Some(port));
    if line.job in s.parties {
      var w := s.parties[line.job].worker;
      WorkerStays(s, s, line.job, FinishBoundary(w, false, Undecided));
      WorkerStays(s, s, line.job, w.(deciding := true));
    }
  }

  lemma WorkerReceiveStill(c: Config, s: State, r: Port)
    requires r in s.relays && s.relays[r].toExtension != [] && ActiveKnown(c, s)
    requires var line := s.relays[r].toExtension[0]; line.JobLine? ==> line.job in s.parties
    ensures Still(s, WorkerReceived(c, s, r))
  {
    var relay := s.relays[r];
    var t := WithRelay(s, r, relay.(toExtension := relay.toExtension[1..]));
    match relay.toExtension[0] {
      case AuthLine(_, _) =>
        AuthorizationStill(c, t, relay.toExtension[0], r);
      case JobLine(j) =>
        WorkerStays(s, t, j, t.parties[j].worker.(task := Validating));
        WorkerStays(s, t, j, t.parties[j].worker.(task := Settled));
        SendOrCancelStill(c, s, WithTask(t, j, Settled), r, ResultNote(j));
    }
  }

  lemma ForwardStill(s: State, j: JobId, port: Port)
    requires j in s.parties && port in s.relays && s.parties[j].handler.Serving? && s.parties[j].client.toRelay != []
    ensures Still(s, Forwarded(s, j, port))
  {
  }

  lemma RequestStill(s: State, j: JobId, port: Port)
    requires j in s.parties && port in s.relays
    ensures Still(s, Requested(s, j, port))
  {
  }

  lemma AgentStill(c: Config, s: State, j: JobId, act: AgentAct)
    requires j in c && j in s.parties && c[j].port in s.relays && AgentEnabled(s.parties[j], act)
    requires act != Receive && !act.CallbackEnds?
    ensures Still(s, AgentApply(c, s, j, act))
  {
    if act == Forward {
      ForwardStill(s, j, c[j].port);
    }
  }

  lemma AdvanceStill(s: State, j: JobId)
    requires j in s.parties && Pending(s.parties[j].worker)
    ensures Still(s, Advanced(s, j))
  {
    var w := s.parties[j].worker;
    WorkerStays(s, s, j, w.(task := MatchingGrant));
    WorkerStays(s, s, j, w.(task := ReadingPlatform));
    WorkerStays(s, s, j, w.(task := Running));
  }

  lemma RefuseStill(c: Config, s: State, j: JobId, port: Port)
    requires j in s.parties && port in s.relays && ActiveKnown(c, s)
    ensures Still(s, SendOrCancel(c, WithTask(s, j, Settled), port, ResultNote(j)))
  {
    WorkerStays(s, s, j, s.parties[j].worker.(task := Settled));
    SendOrCancelStill(c, s, WithTask(s, j, Settled), port, ResultNote(j));
  }

  lemma DeniedStill(s: State, j: JobId)
    requires j in s.parties
    ensures Still(s, Denied(s, j))
  {
    WorkerStays(s, s, j, FinishBoundary(s.parties[j].worker, false, Undecided));
  }

  lemma EndStill(s: State, j: JobId, port: Port)
    requires j in s.parties && port in s.relays
    ensures Still(s, JobEnded(s, j, port))
  {
    WorkerStays(s, s, j, s.parties[j].worker.(task := Settled));
  }

  lemma WorkerStill(c: Config, s: State, j: JobId, act: WorkerAct)
    requires j in c && j in s.parties && c[j].port in s.relays && ActiveKnown(c, s)
    requires WorkerEnabled(c[j], s.parties[j].worker, s.activeJob == Some(j), act) && !Deciding(act)
    ensures Still(s, WorkerApply(c, s, j, act))
  {
    match act
    case Advance => AdvanceStill(s, j);
    case Refuse => RefuseStill(c, s, j, c[j].port);
    case RequestMutation => RequestStill(s, j, c[j].port);
    case BoundaryTimer => DeniedStill(s, j);
    case EndJob => EndStill(s, j, c[j].port);
  }

  /** The worker's steps that read or give an answer, or look at the target. */
  predicate Deciding(act: WorkerAct) {
    act.Decide? || act.UserAnswer? || act.Resume? || act.TargetRead?
  }

  predicate Moving(e: Step) {
    (e.AtAgent? && (e.agentAct == Receive || e.agentAct.CallbackEnds?)) || (e.AtWorker? && Deciding(e.workerAct))
  }

  /** Only a few steps bring a job closer to its mutation. */
  lemma StepIsStill(c: Config, s: State, e: Step)
    requires Enabled(c, s, e) && !Moving(e)
    ensures Still(s, Apply(c, s, e))
  {
    match e
    case AtAgent(j, act) => AgentStill(c, s, j, act);
    case AtWorker(j, act) => WorkerStill(c, s, j, act);
    case WorkerReceive(r) => WorkerReceiveStill(c, s, r);
    case Cancel => CancelStill(c, s, None);
    case PortLost(r) => CancelStill(c, s, Some(r));
    case _ =>
  }

  /** And those bring only their own job closer. */
  lemma OthersStill(c: Config, s: State, e: Step, j: JobId)
    requires Enabled(c, s, e) && j in s.parties && (Moving(e) ==> e.j != j)
    ensures j in Apply(c, s, e).parties && Same(s.parties[j], Apply(c, s, e).parties[j])
  {
    if !Moving(e) {
      StepIsStill(c, s, e);
    }
  }

  /**
   * The answer comes from the local user, or from a mode that needs none and a program without protected operations.
   */
  predicate Grants(c: Config, s: State, e: Step, j: JobId)
    requires j in c
  {
    e == AtWorker(j, UserAnswer(true)) ||
    (e == AtWorker(j, Decide(true)) && s.mode != Manual && !c[j].protectedOperation)
  }

  function Moved(spec: Spec, w: Worker, mode: Mode, act: WorkerAct): Worker
    requires Deciding(act) && (act.Resume? ==> w.verdict.Some?)
  {
    match act
    case Decide(stateRead) => Decided(spec, w, mode, stateRead)
    case UserAnswer(approved) => FinishBoundary(w, approved, ByUser)
    case Resume(inTime) => Resumed(w, inTime)
    case TargetRead(exact) => Looked(w, exact)
  }

  /** Its own moving step changes only the job's client, or only its worker record. */
  lemma OwnMove(c: Config, s: State, e: Step, j: JobId)
    requires Enabled(c, s, e) && Moving(e) && e.j == j
    ensures j in s.parties && j in Apply(c, s, e).parties
    ensures e.AtAgent? ==> Apply(c, s, e).parties[j].worker == s.parties[j].worker
    ensures e.AtWorker? ==> Apply(c, s, e).parties[j].client == s.parties[j].client
    ensures e.AtWorker? ==>
              Apply(c, s, e).parties[j].worker == Moved(c[j], s.parties[j].worker, s.mode, e.workerAct)
  {
  }

  lemma GrantMoves(spec: Spec, w: Worker, active: bool, mode: Mode, act: WorkerAct)
    requires Deciding(act) && WorkerEnabled(spec, w, active, act)
    requires w.verdict != Some(true) && Moved(spec, w, mode, act).verdict == Some(true)
    ensures w.boundary && (w.deciding || w.externalAuthorized)
    ensures act == UserAnswer(true) || (act == Decide(true) && mode != Manual && !spec.protectedOperation)
  {
  }

  lemma OnlyReturnReturns(c: Config, s: State, e: Step, j: JobId)
    requires Enabled(c, s, e) && j in s.parties && !s.parties[j].client.returned
    requires j in Apply(c, s, e).parties && Apply(c, s, e).parties[j].client.returned
    ensures e == AtAgent(j, CallbackEnds(true))
  {
    if Moving(e) ==> e.j != j {
      OthersStill(c, s, e, j);
    }
  }

  lemma OnlyGrantGrants(c: Config, s: State, e: Step, j: JobId)
    requires Inv(c, s) && Enabled(c, s, e) && j in c && s.parties[j].worker.verdict != Some(true)
    requires j in Apply(c, s, e).parties && Apply(c, s, e).parties[j].worker.verdict == Some(true)
    ensures Grants(c, s, e, j) && s.parties[j].client.returned && s.parties[j].worker.boundary
  {
    WorkerFacts(c, s, j);
    if Moving(e) ==> e.j != j {
      OthersStill(c, s, e, j);
    } else {
      OwnMove(c, s, e, j);
      if e.AtWorker? {
        GrantMoves(c[j], s.parties[j].worker, s.activeJob == Some(j), s.mode, e.workerAct);
      }
    }
  }

  lemma OnlyAnswerIsChecked(c: Config, s: State, e: Step, j: JobId)
    requires Enabled(c, s, e) && j in s.parties && !s.parties[j].worker.checking
    requires j in Apply(c, s, e).parties && Apply(c, s, e).parties[j].worker.checking
    ensures e == AtWorker(j, Resume(true)) && s.parties[j].worker.verdict == Some(true)
    ensures !s.parties[j].worker.cancelled
  {
    if Moving(e) ==> e.j != j {
      OthersStill(c, s, e, j);
    } else {
      OwnMove(c, s, e, j);
    }
  }

  lemma StartMoves(c: Config, s: State, e: Step, j: JobId)
    requires Enabled(c, s, e) && j in s.parties && !s.parties[j].worker.started
    requires j in Apply(c, s, e).parties && Apply(c, s, e).parties[j].worker.started
    ensures e == AtWorker(j, TargetRead(true)) && s.parties[j].worker.checking
  {
    if Moving(e) ==> e.j != j {
      OthersStill(c, s, e, j);
    } else {
      OwnMove(c, s, e, j);
    }
  }

  /** A mutation starts only when the target is seen after a granted, uncancelled answer was read. */
  lemma OnlyTargetStarts(c: Config, s: State, e: Step, j: JobId)
    requires Inv(c, s) && Enabled(c, s, e) && j in c && !s.parties[j].worker.started
    requires j in Apply(c, s, e).parties && Apply(c, s, e).parties[j].worker.started
    ensures e == AtWorker(j, TargetRead(true)) && s.parties[j].worker.checking && Granted(c[j], s.parties[j])
  {
    StartMoves(c, s, e, j);
    CheckingGranted(c, s, j);
  }

  lemma CheckingGranted(c: Config, s: State, j: JobId)
    requires Inv(c, s) && j in c
    ensures s.parties[j].worker.checking ==> Granted(c[j], s.parties[j])
  {
    assert PartyAt(c, s, j);
  }

  /** A callback runs only when its client reads its own boundary message, after its own job asked for it. */
  lemma OnlyOwnBoundaryRunsCallback(c: Config, s: State, e: Step, j: JobId)
    requires Inv(c, s) && Enabled(c, s, e) && j in c && j in Apply(c, s, e).parties
    requires Apply(c, s, e).parties[j].client.callbacks != s.parties[j].client.callbacks
    ensures e == AtAgent(j, Receive) && s.parties[j].client.fromRelay[0] == BeforeNote(j)
    ensures s.parties[j].worker.requested && c[j].mutation
    ensures s.parties[j].client.callbacks == 0 && Apply(c, s, e).parties[j].client.callbacks == 1
  {
    assert PartyAt(c, s, j);
    if Moving(e) ==> e.j != j {
      OthersStill(c, s, e, j);
    } else if e == AtAgent(j, Receive) {
      assert s.parties[j].client.fromRelay[0] in s.parties[j].client.fromRelay;
    }
  }

  // ----- cancellation

  /** An authorization that is not for the active job of this port, or finds no boundary open. */
  predicate Misdirected(c: Config, s: State, line: Line, port: Port)
    requires ActiveKnown(c, s)
  {
    s.activeJob != Some(line.job) || c[line.job].port != port || !s.parties[line.job].worker.boundary
  }

  /** The call of `cancelActiveJob` that a step makes, if any: for every port, or for one. */
  predicate CallsCancel(c: Config, s: State, e: Step, port: Option<Port>)
    requires Enabled(c, s, e)
  {
    match e
    case Cancel => port.None?
    case PortLost(r) => port == Some(r)
    case AtWorker(k, Refuse) => s.nativePort != Some(c[k].port) && port == Some(c[k].port)
    case WorkerReceive(r) =>
      var line := s.relays[r].toExtension[0];
      port == Some(r) &&
      if line.JobLine? then s.activeJob.Some? && s.nativePort != Some(r) else Misdirected(c, s, line, r)
    case _ => false
  }

  /** The step cancels job `j`: it is active, and the call is for its port or for all. */
  predicate Cancels(c: Config, s: State, e: Step, j: JobId)
    requires Enabled(c, s, e)
  {
    s.activeJob == Some(j) && (CallsCancel(c, s, e, None) || CallsCancel(c, s, e, Some(c[j].port)))
  }

  predicate CancelledIn(s: State, j: JobId) {
    j in s.parties && s.parties[j].worker.cancelled
  }

  lemma CancelActiveIff(c: Config, s: State, port: Option<Port>, j: JobId)
    requires ActiveKnown(c, s) && j in s.parties
    ensures CancelledIn(CancelActive(c, s, port), j) <==>
            CancelledIn(s, j) || (s.activeJob == Some(j) && (port.None? || c[j].port == port.value))
  {
  }

  lemma WorkerReceiveCancels(c: Config, s: State, r: Port, j: JobId)
    requires Enabled(c, s, WorkerReceive(r)) && j in s.parties
    ensures CancelledIn(WorkerReceived(c, s, r), j) <==> CancelledIn(s, j) || Cancels(c, s, WorkerReceive(r), j)
  {
    var relay := s.relays[r];
    var line := relay.toExtension[0];
    var t := WithRelay(s, r, relay.(toExtension := relay.toExtension[1..]));
    match line {
      case AuthLine(_, _) =>
        CancelActiveIff(c, t, Some(r), j);
      case JobLine(k) =>
        CancelActiveIff(c, WithTask(t, k, Settled), Some(r), j);
    }
  }

  lemma RequestCancelsNothing(s: State, k: JobId, port: Port, j: JobId)
    requires k in s.parties && port in s.relays && j in s.parties
    ensures CancelledIn(Requested(s, k, port), j) <==> CancelledIn(s, j)
  {
  }

  lemma WorkerActCancels(c: Config, s: State, k: JobId, act: WorkerAct, j: JobId)
    requires Enabled(c, s, AtWorker(k, act)) && j in s.parties
    ensures CancelledIn(WorkerApply(c, s, k, act), j) <==> CancelledIn(s, j) || Cancels(c, s, AtWorker(k, act), j)
  {
    if act == Refuse {
      CancelActiveIff(c, WithTask(s, k, Settled), Some(c[k].port), j);
    } else if act == RequestMutation {
      RequestCancelsNothing(s, k, c[k].port, j);
    } else {
      QuietActCancels(c, s, k, act, j);
    }
  }

  lemma QuietActCancels(c: Config, s: State, k: JobId, act: WorkerAct, j: JobId)
    requires Enabled(c, s, AtWorker(k, act)) && j in s.parties && act != Refuse && act != RequestMutation
    ensures CancelledIn(WorkerApply(c, s, k, act), j) <==> CancelledIn(s, j)
  {
    if Deciding(act) {
      DecidingCancelsNothing(c[k], s.parties[k].worker, s.mode, act);
      OwnMove(c, s, AtWorker(k, act), k);
      assert k != j ==> OthersAlike(s, WorkerApply(c, s, k, act), k);
    } else {
      OutcomeCancelsNothing(c, s, k, act, j);
    }
  }

  lemma DecidingCancelsNothing(spec: Spec, w: Worker, mode: Mode, act: WorkerAct)
    requires Deciding(act) && (act.Resume? ==> w.verdict.Some?)
    ensures Moved(spec, w, mode, act).cancelled == w.cancelled
  {
    match act
    case Decide(stateRead) => assert Decided(spec, w, mode, stateRead).cancelled == w.cancelled;
    case UserAnswer(approved) => assert FinishBoundary(w, approved, ByUser).cancelled == w.cancelled;
    case Resume(inTime) => assert Resumed(w, inTime).cancelled == w.cancelled;
    case TargetRead(exact) => assert Looked(w, exact).cancelled == w.cancelled;
  }

  predicate OthersAlike(s: State, t: State, k: JobId) {
    forall i | i in s.parties && i != k :: i in t.parties && t.parties[i] == s.parties[i]
  }

  lemma FlagStays(s: State, k: JobId, w: Worker, j: JobId)
    requires k in s.parties && w.cancelled == s.parties[k].worker.cancelled
    ensures CancelledIn(WithWorker(s, k, w), j) <==> CancelledIn(s, j)
  {
  }

  lemma OutcomeCancelsNothing(c: Config, s: State, k: JobId, act: WorkerAct, j: JobId)
    requires Enabled(c, s, AtWorker(k, act)) && j in s.parties
    requires act == Advance || act == BoundaryTimer || act == EndJob
    ensures CancelledIn(WorkerApply(c, s, k, act), j) <==> CancelledIn(s, j)
  {
    var w := s.parties[k].worker;
    match act
    case Advance =>
      FlagStays(s, k, w.(task := MatchingGrant), j);
      FlagStays(s, k, w.(task := ReadingPlatform), j);
      FlagStays(s, k, w.(task := Running), j);
    case BoundaryTimer => FlagStays(s, k, FinishBoundary(w, false, Undecided), j);
    case EndJob => FlagStays(s, k, w.(task := Settled), j);
  }

  /** The agent's side never writes a worker record. */
  ghost predicate SameWorkers(s: State, t: State) {
    t.parties.Keys == s.parties.Keys && forall k | k in s.parties :: t.parties[k].worker == s.parties[k].worker
  }

  lemma ForwardSameWorkers(s: State, j: JobId, port: Port)
    requires j in s.parties && port in s.relays && s.parties[j].handler.Serving? && s.parties[j].client.toRelay != []
    ensures SameWorkers(s, Forwarded(s, j, port))
  {
  }

  lemma AgentSameWorkers(c: Config, s: State, j: JobId, act: AgentAct)
    requires Enabled(c, s, AtAgent(j, act))
    ensures SameWorkers(s, AgentApply(c, s, j, act))
  {
    if act == Forward {
      ForwardSameWorkers(s, j, c[j].port);
    }
  }

  /** A job is cancelled after a step iff it was before, or the step cancels it. */
  lemma CancelsIff(c: Config, s: State, e: Step, j: JobId)
    requires Enabled(c, s, e) && j in s.parties
    ensures CancelledIn(Apply(c, s, e), j) <==> CancelledIn(s, j) || Cancels(c, s, e, j)
  {
    match e
    case AtAgent(k, act) => AgentSameWorkers(c, s, k, act);
    case AtWorker(k, act) => WorkerActCancels(c, s, k, act, j);
    case WorkerReceive(r) => WorkerReceiveCancels(c, s, r, j);
    case Cancel => CancelActiveIff(c, s, None, j);
    case PortLost(r) => CancelActiveIff(c, s, Some(r), j);
    case _ =>
  }

  // ----- what every step does to an open boundary

  /** The line this step takes out of the extension's queue is job `j`'s refusal, and it is not misdirected. */
  predicate Declines(c: Config, s: State, e: Step, j: JobId)
    requires Enabled(c, s, e)
  {
    e.WorkerReceive? && s.relays[e.r].toExtension[0] == AuthLine(j, false) &&
    !Misdirected(c, s, s.relays[e.r].toExtension[0], e.r)
  }

  /**
   * What a step answers an open boundary of job `j` with, if it answers it: the local user's own word, a grant by the
   * mode, and false for a cancellation, the agent's refusal, the timer and an authorization state that was not read.
   */
  function Answer(c: Config, s: State, e: Step, j: JobId): Option<bool>
    requires Enabled(c, s, e) && j in c
  {
    if Cancels(c, s, e, j) || Declines(c, s, e, j) then Some(false)
    else match e
      case AtWorker(k, UserAnswer(approved)) => if k == j then Some(approved) else None
      case AtWorker(k, BoundaryTimer) => if k == j then Some(false) else None
      case AtWorker(k, Decide(stateRead)) =>
        if k != j then None
        else if !stateRead then Some(false)
        else if Grants(c, s, e, j) then Some(true)
        else None
      case _ => None
  }

  /** The boundary of job `j` is open and nothing has answered it. */
  predicate Waits(s: State, j: JobId) {
    j in s.parties && s.parties[j].worker.boundary && s.parties[j].worker.verdict.None?
  }

  /** An open boundary after a step: answered by exactly the steps that answer it, and open after any other. */
  predicate BoundaryAfter(s: State, j: JobId, answer: Option<bool>) {
    if answer.None? then Waits(s, j)
    else j in s.parties && !s.parties[j].worker.boundary && s.parties[j].worker.verdict == answer
  }

  predicate AnswersWaiting(c: Config, s: State, e: Step, j: JobId)
    requires Enabled(c, s, e) && j in c
  {
    BoundaryAfter(Apply(c, s, e), j, Answer(c, s, e, j))
  }

  lemma CancelAnswers(c: Config, s: State, port: Option<Port>, j: JobId)
    requires ActiveKnown(c, s) && Waits(s, j)
    ensures BoundaryAfter(CancelActive(c, s, port), j,
                          if s.activeJob == Some(j) && (port.None? || c[j].port == port.value) then Some(false)
                          else None)
  {
  }

  lemma ReceiveAnswers(c: Config, s: State, r: Port, j: JobId)
    requires Enabled(c, s, WorkerReceive(r)) && j in c && Waits(s, j)
    ensures AnswersWaiting(c, s, WorkerReceive(r), j)
  {
    var relay := s.relays[r];
    var line := relay.toExtension[0];
    var t := WithRelay(s, r, relay.(toExtension := relay.toExtension[1..]));
    match line {
      case AuthLine(_, _) => CancelAnswers(c, t, Some(r), j);
      case JobLine(k) => CancelAnswers(c, WithTask(t, k, Settled), Some(r), j);
    }
  }

  /** A job's own step that reads or gives an answer. */
  lemma OwnAnswer(c: Config, s: State, j: JobId, act: WorkerAct)
    requires Enabled(c, s, AtWorker(j, act)) && Deciding(act) && Waits(s, j)
    requires !s.parties[j].worker.checking
    ensures AnswersWaiting(c, s, AtWorker(j, act), j)
  {
    match act
    case Decide(stateRead) =>
      if stateRead && !Grants(c, s, AtWorker(j, act), j) {
        assert Decided(c[j], s.parties[j].worker, s.mode, true).boundary;
      }
    case UserAnswer(approved) =>
    case Resume(_) => assert false;
    case TargetRead(_) => assert false;
  }

  lemma OthersAnswerNothing(c: Config, s: State, k: JobId, act: WorkerAct, j: JobId)
    requires Enabled(c, s, AtWorker(k, act)) && j in c && Deciding(act) && k != j && Waits(s, j)
    ensures AnswersWaiting(c, s, AtWorker(k, act), j)
  {
    OwnMove(c, s, AtWorker(k, act), k);
    assert OthersAlike(s, WorkerApply(c, s, k, act), k);
  }

  lemma RequestAnswersNothing(s: State, k: JobId, port: Port, j: JobId)
    requires k in s.parties && port in s.relays && k != j && Waits(s, j)
    ensures Waits(Requested(s, k, port), j)
  {
  }

  /** The worker's other steps, apart from a request and a refusal: only the timer answers. */
  lemma QuietAnswer(c: Config, s: State, k: JobId, act: WorkerAct, j: JobId)
    requires Enabled(c, s, AtWorker(k, act)) && j in c && Waits(s, j)
    requires act == Advance || act == BoundaryTimer || act == EndJob
    ensures AnswersWaiting(c, s, AtWorker(k, act), j)
  {
    match act
    case Advance =>
      match s.parties[k].worker.task {
        case Validating =>
        case MatchingGrant =>
        case ReadingPlatform =>
      }
    case BoundaryTimer =>
    case EndJob =>
  }

  lemma WorkerAnswers(c: Config, s: State, k: JobId, act: WorkerAct, j: JobId)
    requires Enabled(c, s, AtWorker(k, act)) && j in c && Waits(s, j)
    requires s.parties[j].worker.requested && !s.parties[j].worker.checking
    ensures AnswersWaiting(c, s, AtWorker(k, act), j)
  {
    if act == Refuse {
      CancelAnswers(c, WithTask(s, k, Settled), Some(c[k].port), j);
    } else if act == RequestMutation {
      RequestAnswersNothing(s, k, c[k].port, j);
    } else if !Deciding(act) {
      QuietAnswer(c, s, k, act, j);
    } else if k == j {
      OwnAnswer(c, s, j, act);
    } else {
      OthersAnswerNothing(c, s, k, act, j);
    }
  }

  lemma StepAnswers(c: Config, s: State, e: Step, j: JobId)
    requires Enabled(c, s, e) && j in c && Waits(s, j)
    requires s.parties[j].worker.requested && !s.parties[j].worker.checking
    ensures AnswersWaiting(c, s, e, j)
  {
    match e
    case AtAgent(k, act) => AgentSameWorkers(c, s, k, act);
    case AtWorker(k, act) => WorkerAnswers(c, s, k, act, j);
    case WorkerReceive(r) => ReceiveAnswers(c, s, r, j);
    case Cancel => CancelAnswers(c, s, None, j);
    case PortLost(r) => CancelAnswers(c, s, Some(r), j);
    case _ =>
  }

  /**
   * Every step answers an open boundary exactly as `Answer` says: the local user's approval grants it, in any mode and
   * with any operations, and their refusal denies it.
   */
  lemma BoundaryAnswered(c: Config, s: State, e: Step, j: JobId)
    requires Inv(c, s) && Enabled(c, s, e) && j in c && Waits(s, j)
    ensures BoundaryAfter(Apply(c, s, e), j, Answer(c, s, e, j))
  {
    WorkerFacts(c, s, j);
    StepAnswers(c, s, e, j);
  }

  // ----- the active job

  lemma CancelKeepsActive(c: Config, s: State, port: Option<Port>)
    requires ActiveKnown(c, s)
    ensures CancelActive(c, s, port).activeJob == s.activeJob
  {
  }

  /** A job becomes the active one with its last await before it runs, and stops being so only with its own end. */
  lemma ActiveIff(c: Config, s: State, e: Step, j: JobId)
    requires Enabled(c, s, e) && j in c
    ensures var becomes := e == AtWorker(j, Advance) && s.parties[j].worker.task == ReadingPlatform;
            var displaced := e.AtWorker? && e.workerAct == Advance && e.j != j &&
                             s.parties[e.j].worker.task == ReadingPlatform;
            Apply(c, s, e).activeJob == Some(j) <==>
            becomes || (s.activeJob == Some(j) && !displaced && e != AtWorker(j, EndJob))
  {
    match e
    case AtWorker(k, Advance) => assert Apply(c, s, e) == Advanced(s, k);
    case AtWorker(k, Refuse) => CancelKeepsActive(c, WithTask(s, k, Settled), Some(c[k].port));
    case AtWorker(k, EndJob) => assert Apply(c, s, e) == JobEnded(s, k, c[k].port);
    case WorkerReceive(r) =>
      var relay := s.relays[r];
      var t := WithRelay(s, r, relay.(toExtension := relay.toExtension[1..]));
      CancelKeepsActive(c, t, Some(r));
    case _ =>
  }

  // ----- the native port, the relay's connections

  /** The current port is the one connected last, until it is lost. */
  lemma NativePortIff(c: Config, s: State, e: Step, r: Port)
    requires Enabled(c, s, e)
    ensures Apply(c, s, e).nativePort == Some(r) <==>
            e == PortConnected(r) || (s.nativePort == Some(r) && e != PortLost(r))
  {
    match e
    case AtWorker(k, Advance) => assert Apply(c, s, e) == Advanced(s, k);
    case AtWorker(k, EndJob) => assert Apply(c, s, e) == JobEnded(s, k, c[k].port);
    case _ =>
  }

  /** Losing the port of the active job, current or not, is always possible and cancels it. */
  lemma PortLossCancels(c: Config, s: State, j: JobId)
    requires Inv(c, s) && j in c && s.activeJob == Some(j)
    ensures Enabled(c, s, PortLost(c[j].port)) && CancelledIn(Apply(c, s, PortLost(c[j].port)), j)
  {
    assert PartyAt(c, s, j);
    CancelsIff(c, s, PortLost(c[j].port), j);
  }

  /** A connection may still send its job, and then one answer for that very job. */
  lemma AdmittedIff(h: Handler, line: Line)
    requires h.Serving?
    ensures Admitted(h, line).Some? <==>
            (line.JobLine? && h.seen == None) || (line.AuthLine? && h.seen == Some(line.job) && !h.replied)
    ensures Admitted(h, line).Some? ==> Admitted(h, line).value == Serving(Some(line.job), line.AuthLine?)
  {
  }

  /** A connection is accepted once; it keeps its job and its answer, and once ended it stays ended. */
  predicate HandlerGoesOn(before: Handler, now: Handler) {
    match before
    case NotAccepted => now.NotAccepted? || now.Ended? || now == Serving(None, false)
    case Ended => now.Ended?
    case Serving(seen, replied) =>
      now.Ended? || (now.Serving? && (seen.Some? ==> now.seen == seen && (replied ==> now.replied)))
  }

  /** The worker never writes a handler. */
  predicate SameHandler(s: State, t: State, j: JobId) {
    j in s.parties && j in t.parties && t.parties[j].handler == s.parties[j].handler
  }

  lemma CancelSameHandler(c: Config, s: State, port: Option<Port>, j: JobId)
    requires ActiveKnown(c, s) && j in s.parties
    ensures SameHandler(s, CancelActive(c, s, port), j)
  {
  }

  lemma ReceiveSameHandler(c: Config, s: State, r: Port, j: JobId)
    requires Enabled(c, s, WorkerReceive(r)) && j in s.parties
    ensures SameHandler(s, WorkerReceived(c, s, r), j)
  {
    var relay := s.relays[r];
    var t := WithRelay(s, r, relay.(toExtension := relay.toExtension[1..]));
    match relay.toExtension[0]
    case AuthLine(_, _) => CancelSameHandler(c, t, Some(r), j);
    case JobLine(k) => CancelSameHandler(c, WithTask(t, k, Settled), Some(r), j);
  }

  lemma WorkerSameHandler(c: Config, s: State, k: JobId, act: WorkerAct, j: JobId)
    requires Enabled(c, s, AtWorker(k, act)) && j in s.parties
    ensures SameHandler(s, WorkerApply(c, s, k, act), j)
  {
    match act
    case Advance =>
      match s.parties[k].worker.task {
        case Validating =>
        case MatchingGrant =>
        case ReadingPlatform =>
      }
    case Refuse => CancelSameHandler(c, WithTask(s, k, Settled), Some(c[k].port), j);
    case _ =>
  }

  lemma AgentHandlersGoOn(c: Config, s: State, k: JobId, act: AgentAct, j: JobId)
    requires Enabled(c, s, AtAgent(k, act)) && j in s.parties
    ensures var t := AgentApply(c, s, k, act);
            j in t.parties && HandlerGoesOn(s.parties[j].handler, t.parties[j].handler)
  {
    if act == Forward && k == j {
      AdmittedIff(s.parties[j].handler, s.parties[j].client.toRelay[0]);
    }
  }

  lemma HandlersGoOn(c: Config, s: State, e: Step, j: JobId)
    requires Enabled(c, s, e) && j in s.parties
    ensures j in Apply(c, s, e).parties && HandlerGoesOn(s.parties[j].handler, Apply(c, s, e).parties[j].handler)
  {
    match e
    case AtAgent(k, act) => AgentHandlersGoOn(c, s, k, act, j);
    case AtWorker(k, act) => WorkerSameHandler(c, s, k, act, j);
    case WorkerReceive(r) => ReceiveSameHandler(c, s, r, j);
    case Cancel => CancelSameHandler(c, s, None, j);
    case PortLost(r) => CancelSameHandler(c, s, Some(r), j);
    case _ =>
  }

  // ----- runs

  /** `states` is a run of the protocol: every state follows from the one before by an enabled step. */
  ghost predicate IsRun(c: Config, states: seq<State>, steps: seq<Step>) {
    IsPath(c, states, steps) && Init(c, states[0])
  }

  ghost predicate IsPath(c: Config, states: seq<State>, steps: seq<Step>) {
    |states| == |steps| + 1 && forall i | 0 <= i < |steps| :: StepAt(c, states, steps, i)
  }

  ghost predicate StepAt(c: Config, states: seq<State>, steps: seq<Step>, i: nat)
    requires i < |steps| && |states| == |steps| + 1
  {
    Enabled(c, states[i], steps[i]) && states[i + 1] == Apply(c, states[i], steps[i])
  }

  lemma {:induction false} RunInvariant(c: Config, states: seq<State>, steps: seq<Step>, i: nat)
    requires IsRun(c, states, steps) && i < |states|
    ensures Inv(c, states[i])
    decreases i
  {
    if i > 0 {
      RunInvariant(c, states, steps, i - 1);
      assert StepAt(c, states, steps, i - 1);
      StepKeeps(c, states[i - 1], steps[i - 1]);
    } else {
      forall j | j in c
        ensures PartyAt(c, states[0], j)
      {
        assert states[0].parties[j] == NEW_PARTY;
      }
    }
  }

  /** Reading a run backwards: what a state shows was brought about by an earlier step. */
  lemma {:induction false} ReturnStep(c: Config, states: seq<State>, steps: seq<Step>, i: nat, j: JobId)
    returns (m: nat)
    requires IsRun(c, states, steps) && i < |states| && j in c && j in states[i].parties
    requires states[i].parties[j].client.returned
    ensures m < i && steps[m] == AtAgent(j, CallbackEnds(true))
    decreases i
  {
    FreshParty(c, states, steps, j);
    m := i - 1;
    RunInvariant(c, states, steps, m);
    assert StepAt(c, states, steps, m);
    if states[m].parties[j].client.returned {
      m := ReturnStep(c, states, steps, m, j);
    } else {
      OnlyReturnReturns(c, states[m], steps[m], j);
    }
  }

  lemma {:induction false} GrantStep(c: Config, states: seq<State>, steps: seq<Step>, i: nat, j: JobId) returns (l: nat)
    requires IsRun(c, states, steps) && i < |states| && j in c && j in states[i].parties
    requires states[i].parties[j].worker.verdict == Some(true)
    ensures l < i && Grants(c, states[l], steps[l], j)
    ensures j in states[l].parties && states[l].parties[j].client.returned
    decreases i
  {
    FreshParty(c, states, steps, j);
    l := i - 1;
    RunInvariant(c, states, steps, l);
    assert StepAt(c, states, steps, l);
    if states[l].parties[j].worker.verdict == Some(true) {
      l := GrantStep(c, states, steps, l, j);
    } else {
      OnlyGrantGrants(c, states[l], steps[l], j);
    }
  }

  /** The answer was read, granted and uncancelled, and since then the worker has been waiting for the target. */
  ghost predicate AnsweredAt(c: Config, states: seq<State>, steps: seq<Step>, a: nat, i: nat, j: JobId)
    requires |states| == |steps| + 1 && i <= |steps|
  {
    a < i && steps[a] == AtWorker(j, Resume(true)) && j in states[a].parties &&
    states[a].parties[j].worker.verdict == Some(true) && !states[a].parties[j].worker.cancelled
  }

  lemma {:induction false} AnswerStep(c: Config, states: seq<State>, steps: seq<Step>, i: nat, j: JobId)
    returns (a: nat)
    requires IsRun(c, states, steps) && i < |states| && j in c && j in states[i].parties
    requires states[i].parties[j].worker.checking
    ensures AnsweredAt(c, states, steps, a, i, j)
    decreases i
  {
    FreshParty(c, states, steps, j);
    a := i - 1;
    RunInvariant(c, states, steps, a);
    assert StepAt(c, states, steps, a);
    if states[a].parties[j].worker.checking {
      a := AnswerStep(c, states, steps, a, j);
    } else {
      OnlyAnswerIsChecked(c, states[a], steps[a], j);
    }
  }

  lemma FreshParty(c: Config, states: seq<State>, steps: seq<Step>, j: JobId)
    requires IsRun(c, states, steps) && j in c
    ensures j in states[0].parties && states[0].parties[j] == NEW_PARTY
  {
  }

  /** At step `k` the mutation begins. */
  ghost predicate StartsAt(c: Config, states: seq<State>, steps: seq<Step>, k: nat, j: JobId)
    requires |states| == |steps| + 1 && k < |steps| && j in c
  {
    j in states[k].parties && j in states[k + 1].parties && steps[k] == AtWorker(j, TargetRead(true)) &&
    !states[k].parties[j].worker.started && states[k + 1].parties[j].worker.started &&
    states[k].parties[j].worker.checking && Granted(c[j], states[k].parties[j])
  }

  lemma {:induction false} FirstStart(c: Config, states: seq<State>, steps: seq<Step>, i: nat, j: JobId)
    returns (k: nat)
    requires IsRun(c, states, steps) && i < |states| && j in c && j in states[i].parties
    requires states[i].parties[j].worker.started
    ensures k < i && StartsAt(c, states, steps, k, j)
    decreases i
  {
    FreshParty(c, states, steps, j);
    k := i - 1;
    RunInvariant(c, states, steps, k);
    if states[k].parties[j].worker.started {
      k := FirstStart(c, states, steps, k, j);
    } else {
      StartStep(c, states, steps, k, j);
    }
  }

  lemma StartStep(c: Config, states: seq<State>, steps: seq<Step>, k: nat, j: JobId)
    requires |states| == |steps| + 1 && k < |steps| && StepAt(c, states, steps, k) && Inv(c, states[k]) && j in c
    requires j in states[k + 1].parties && states[k + 1].parties[j].worker.started
    requires !states[k].parties[j].worker.started
    ensures StartsAt(c, states, steps, k, j)
  {
    OnlyTargetStarts(c, states[k], steps[k], j);
  }

  /** The four steps that lead to a mutation, in order: callback returned, granted, answer read, target seen. */
  ghost predicate Authorized(c: Config, states: seq<State>, steps: seq<Step>, m: nat, l: nat, a: nat, k: nat, j: JobId)
    requires |states| == |steps| + 1 && k < |steps| && j in c
  {
    m < l < a < k && steps[m] == AtAgent(j, CallbackEnds(true)) && Grants(c, states[l], steps[l], j) &&
    AnsweredAt(c, states, steps, a, k, j) && StartsAt(c, states, steps, k, j)
  }

  /**
   * In every interleaving, a mutation of job j has begun only after, in this order, j's own client returned normally
   * from its only callback, the local user (or a mode that needs none, for an unprotected program) granted j, j read
   * that answer while it was not cancelled, and the exact target was seen.
   */
  lemma MutationAuthorized(c: Config, states: seq<State>, steps: seq<Step>, i: nat, j: JobId)
      returns (m: nat, l: nat, a: nat, k: nat)
    requires IsRun(c, states, steps) && i < |states| && j in c && j in states[i].parties
    requires states[i].parties[j].worker.started
    ensures c[j].mutation && states[i].parties[j].client.callbacks == 1
    ensures k < i && Authorized(c, states, steps, m, l, a, k, j)
  {
    RunInvariant(c, states, steps, i);
    assert PartyAt(c, states[i], j);
    k := FirstStart(c, states, steps, i, j);
    a := AnswerStep(c, states, steps, k, j);
    l := GrantStep(c, states, steps, a, j);
    m := ReturnStep(c, states, steps, l, j);
  }

  // ----- cancelled between the answer and the start

  /** Some step strictly between the answer and position `i` cancels the job. */
  ghost predicate CancelledBetween(c: Config, states: seq<State>, steps: seq<Step>, a: nat, i: nat, j: JobId)
    requires IsPath(c, states, steps) && i <= |steps|
  {
    exists n | a < n < i :: CancelsAt(c, states, steps, n, j)
  }

  ghost predicate CancelsAt(c: Config, states: seq<State>, steps: seq<Step>, n: nat, j: JobId)
    requires IsPath(c, states, steps) && n < |steps|
  {
    StepAt(c, states, steps, n) && Cancels(c, states[n], steps[n], j)
  }

  lemma {:induction false} CancelledIff(c: Config, states: seq<State>, steps: seq<Step>, a: nat, i: nat, j: JobId)
    requires IsPath(c, states, steps) && a < i <= |steps| && j in c
    requires steps[a] == AtWorker(j, Resume(true)) && j in states[a].parties && !states[a].parties[j].worker.cancelled
    ensures j in states[i].parties
    ensures CancelledIn(states[i], j) <==> CancelledBetween(c, states, steps, a, i, j)
    decreases i
  {
    assert StepAt(c, states, steps, i - 1);
    if i == a + 1 {
      CancelsIff(c, states[a], steps[a], j);
    } else {
      CancelledIff(c, states, steps, a, i - 1, j);
      CancelsIff(c, states[i - 1], steps[i - 1], j);
      assert CancelsAt(c, states, steps, i - 1, j) <==> Cancels(c, states[i - 1], steps[i - 1], j);
    }
    PartiesStay(c, states[i - 1], steps[i - 1], j);
  }

  lemma PartiesStay(c: Config, s: State, e: Step, j: JobId)
    requires Enabled(c, s, e) && j in s.parties
    ensures j in Apply(c, s, e).parties
  {
    if Moving(e) ==> e.j != j {
      OthersStill(c, s, e, j);
    }
  }

  /**
   * A job whose mutation begins was not cancelled when its answer was read; it is cancelled when the mutation begins
   * exactly if a step in between cancelled it, because nothing looks again after the target check.
   */
  lemma StartsCancelledIff(c: Config, states: seq<State>, steps: seq<Step>, k: nat, j: JobId) returns (a: nat)
    requires IsRun(c, states, steps) && k < |steps| && j in c && StartsAt(c, states, steps, k, j)
    ensures AnsweredAt(c, states, steps, a, k, j)
    ensures CancelledIn(states[k], j) <==> CancelledBetween(c, states, steps, a, k, j)
  {
    a := AnswerStep(c, states, steps, k, j);
    CancelledIff(c, states, steps, a, k, j);
  }

  // ----- two jobs at once

  predicate Busy(p: Party) {
    Pending(p.worker) || p.worker.task == Running
  }

  ghost predicate OtherBusy(s: State, j: JobId) {
    exists k | k in s.parties && k != j :: Busy(s.parties[k])
  }

  ghost predicate TwoBusy(s: State) {
    exists j | j in s.parties :: Busy(s.parties[j]) && OtherBusy(s, j)
  }

  /** The active-job test lets a job in while another one is already past it. */
  ghost predicate LetsSecondIn(s: State, e: Step) {
    e.WorkerReceive? && e.r in s.relays && s.relays[e.r].toExtension != [] && s.relays[e.r].toExtension[0].JobLine? &&
    s.activeJob.None? && OtherBusy(s, s.relays[e.r].toExtension[0].job)
  }

  /** Except for the job of a job message that is let in, no job becomes busy. */
  ghost predicate NoneBusier(s: State, t: State, but: Option<JobId>) {
    t.parties.Keys == s.parties.Keys &&
    forall k | k in s.parties && Some(k) != but && Busy(t.parties[k]) :: Busy(s.parties[k])
  }

  function LetIn(s: State, e: Step): Option<JobId> {
    if e.WorkerReceive? && e.r in s.relays && s.relays[e.r].toExtension != [] &&
       s.relays[e.r].toExtension[0].JobLine? && s.activeJob.None?
    then Some(s.relays[e.r].toExtension[0].job) else None
  }

  lemma CancelNoneBusier(c: Config, s: State, t: State, port: Option<Port>)
    requires ActiveKnown(c, t) && NoneBusier(s, t, None)
    ensures NoneBusier(s, CancelActive(c, t, port), None)
  {
  }

  lemma WorkerReceiveBusier(c: Config, s: State, r: Port)
    requires Enabled(c, s, WorkerReceive(r))
    ensures NoneBusier(s, WorkerReceived(c, s, r), LetIn(s, WorkerReceive(r)))
  {
    var relay := s.relays[r];
    var t := WithRelay(s, r, relay.(toExtension := relay.toExtension[1..]));
    match relay.toExtension[0] {
      case AuthLine(_, _) =>
        CancelNoneBusier(c, s, t, Some(r));
      case JobLine(j) =>
        if s.activeJob.Some? {
          CancelNoneBusier(c, s, WithTask(t, j, Settled), Some(r));
        }
    }
  }

  lemma WorkerNoBusier(s: State, t: State, j: JobId, w: Worker)
    requires NoneBusier(s, t, None) && j in s.parties && (Pending(w) || w.task == Running ==> Busy(s.parties[j]))
    ensures NoneBusier(s, WithWorker(t, j, w), None)
  {
  }

  lemma AdvanceNoBusier(s: State, j: JobId)
    requires j in s.parties && Pending(s.parties[j].worker)
    ensures NoneBusier(s, Advanced(s, j), None)
  {
    var w := s.parties[j].worker;
    WorkerNoBusier(s, s, j, w.(task := MatchingGrant));
    WorkerNoBusier(s, s, j, w.(task := ReadingPlatform));
    WorkerNoBusier(s, s, j, w.(task := Running));
  }

  lemma RequestNoBusier(s: State, j: JobId, port: Port)
    requires j in s.parties && port in s.relays
    ensures NoneBusier(s, Requested(s, j, port), None)
  {
    var w := s.parties[j].worker.(requested := true);
    var pending := WithWorker(s, j, w.(boundary := true));
    WorkerNoBusier(s, s, j, w.(verdict := Some(false)));
    WorkerNoBusier(s, s, j, w.(boundary := true));
    WorkerNoBusier(s, pending, j, FinishBoundary(w.(boundary := true), false, Undecided));
  }

  lemma SettleNoBusier(c: Config, s: State, j: JobId, port: Port)
    requires j in s.parties && port in s.relays && ActiveKnown(c, s)
    ensures NoneBusier(s, SendOrCancel(c, WithTask(s, j, Settled), port, ResultNote(j)), None)
    ensures NoneBusier(s, JobEnded(s, j, port), None)
  {
    WorkerNoBusier(s, s, j, s.parties[j].worker.(task := Settled));
    CancelNoneBusier(c, s, WithTask(s, j, Settled), Some(port));
  }

  lemma DecidingNoBusier(c: Config, s: State, j: JobId, act: WorkerAct)
    requires Enabled(c, s, AtWorker(j, act)) && Deciding(act)
    ensures NoneBusier(s, WorkerApply(c, s, j, act), None)
  {
    var w := s.parties[j].worker;
    match act
    case Decide(stateRead) => WorkerNoBusier(s, s, j, Decided(c[j], w, s.mode, stateRead));
    case UserAnswer(approved) => WorkerNoBusier(s, s, j, FinishBoundary(w, approved, ByUser));
    case Resume(inTime) => WorkerNoBusier(s, s, j, Resumed(w, inTime));
    case TargetRead(exact) => WorkerNoBusier(s, s, j, Looked(w, exact));
  }

  lemma WorkerActBusier(c: Config, s: State, j: JobId, act: WorkerAct)
    requires Enabled(c, s, AtWorker(j, act))
    ensures NoneBusier(s, WorkerApply(c, s, j, act), None)
  {
    match act
    case Advance => AdvanceNoBusier(s, j);
    case Refuse => SettleNoBusier(c, s, j, c[j].port);
    case RequestMutation => RequestNoBusier(s, j, c[j].port);
    case BoundaryTimer => WorkerNoBusier(s, s, j, FinishBoundary(s.parties[j].worker, false, Undecided));
    case EndJob => SettleNoBusier(c, s, j, c[j].port);
    case _ => DecidingNoBusier(c, s, j, act);
  }

  lemma StepBusier(c: Config, s: State, e: Step)
    requires Enabled(c, s, e)
    ensures NoneBusier(s, Apply(c, s, e), LetIn(s, e))
  {
    match e
    case AtAgent(j, act) => AgentSameWorkers(c, s, j, act);
    case AtWorker(j, act) => WorkerActBusier(c, s, j, act);
    case WorkerReceive(r) => WorkerReceiveBusier(c, s, r);
    case Cancel => CancelNoneBusier(c, s, s, None);
    case PortLost(r) => CancelNoneBusier(c, s, s, Some(r));
    case _ =>
  }

  lemma BothBusy(s: State, a: JobId, b: JobId)
    requires a in s.parties && b in s.parties && a != b && Busy(s.parties[a]) && Busy(s.parties[b])
    ensures TwoBusy(s)
  {
    assert OtherBusy(s, a);
  }

  /** A step leads to two busy jobs only from two busy jobs, or by letting a second one in. */
  lemma TwoBusyStep(c: Config, s: State, e: Step)
    requires Enabled(c, s, e) && TwoBusy(Apply(c, s, e))
    ensures TwoBusy(s) || LetsSecondIn(s, e)
  {
    var t := Apply(c, s, e);
    StepBusier(c, s, e);
    var a :| a in t.parties && Busy(t.parties[a]) && OtherBusy(t, a);
    var b :| b in t.parties && b != a && Busy(t.parties[b]);
    var but := LetIn(s, e);
    if but != Some(a) && but != Some(b) {
      BothBusy(s, a, b);
    } else {
      var other := if but == Some(a) then b else a;
      assert other in s.parties && Busy(s.parties[other]);
    }
  }

  lemma SecondLetIn(c: Config, s: State, e: Step)
    requires Enabled(c, s, e) && LetsSecondIn(s, e)
    ensures TwoBusy(Apply(c, s, e))
  {
    var j := s.relays[e.r].toExtension[0].job;
    var t := Apply(c, s, e);
    var k :| k in s.parties && k != j && Busy(s.parties[k]);
    assert Busy(t.parties[j]) && Busy(t.parties[k]);
    assert OtherBusy(t, j);
  }

  lemma NoneBusyAtFirst(c: Config, s: State)
    requires Init(c, s)
    ensures !TwoBusy(s)
  {
    forall j | j in s.parties
      ensures !Busy(s.parties[j])
    {
      assert s.parties[j] == NEW_PARTY;
    }
  }

  lemma {:induction false} SecondStep(c: Config, states: seq<State>, steps: seq<Step>, i: nat) returns (k: nat)
    requires IsRun(c, states, steps) && i < |states| && TwoBusy(states[i])
    ensures k < i && LetsSecondIn(states[k], steps[k])
    decreases i
  {
    NoneBusyAtFirst(c, states[0]);
    k := i - 1;
    assert StepAt(c, states, steps, k);
    TwoBusyStep(c, states[k], steps[k]);
    if TwoBusy(states[k]) {
      k := SecondStep(c, states, steps, k);
    }
  }

  /**
   * A run ever has two jobs past the active-job test at once exactly if, at some step, a job message meets that test
   * while no job is active yet and another one is already past it.
   */
  lemma TwoJobsIff(c: Config, states: seq<State>, steps: seq<Step>)
    requires IsRun(c, states, steps)
    ensures (exists i | 0 <= i < |states| :: TwoBusy(states[i])) <==>
            (exists k | 0 <= k < |steps| :: LetsSecondIn(states[k], steps[k]))
  {
    if i :| 0 <= i < |states| && TwoBusy(states[i]) {
      var k := SecondStep(c, states, steps, i);
    }
    if k :| 0 <= k < |steps| && LetsSecondIn(states[k], steps[k]) {
      assert StepAt(c, states, steps, k);
      SecondLetIn(c, states[k], steps[k]);
      assert TwoBusy(states[k + 1]);
    }
  }

  // ----- what is not an invariant

  lemma PathConcat(c: Config, a: seq<State>, x: seq<Step>, b: seq<State>, y: seq<Step>)
    requires IsPath(c, a, x) && IsPath(c, b, y) && a[|x|] == b[0]
    ensures IsPath(c, a[..|x|] + b, x + y)
  {
    var states, steps := a[..|x|] + b, x + y;
    forall i | 0 <= i < |steps|
      ensures StepAt(c, states, steps, i)
    {
      if i < |x| {
        assert StepAt(c, a, x, i);
      } else {
        assert StepAt(c, b, y, i - |x|);
        assert states[i] == b[i - |x|] && states[i + 1] == b[i - |x| + 1];
      }
    }
  }

  ghost predicate Leads(c: Config, s: State, e: Step, t: State) {
    Enabled(c, s, e) && t == Apply(c, s, e)
  }

  lemma Extended(c: Config, states: seq<State>, steps: seq<Step>, e: Step, t: State)
    requires IsPath(c, states, steps) && Leads(c, states[|steps|], e, t)
    ensures IsPath(c, states + [t], steps + [e]) && (states + [t])[0] == states[0] && (states + [t])[|steps| + 1] == t
  {
    var all, more := states + [t], steps + [e];
    forall i | 0 <= i < |more|
      ensures StepAt(c, all, more, i)
    {
      assert i < |steps| ==> StepAt(c, states, steps, i);
    }
  }

  lemma JobSubmitted(c: Config, s: State, j: JobId) returns (s1: State, s2: State, s3: State)
    requires j in c && j in s.parties && s.parties[j] == NEW_PARTY && c[j].port in s.relays
    requires s.relays[c[j].port] == Relay(None, [], []) && s.activeJob.None?
    ensures Leads(c, s, AtAgent(j, Begin), s1) && Leads(c, s1, AtAgent(j, Accept), s2)
    ensures Leads(c, s2, AtAgent(j, Forward), s3)
    ensures s3 == With(s, j, Submitted(j)).(relays := s.relays[c[j].port := Relay(Some(j), [JobLine(j)], [])])
  {
    s1 := Apply(c, s, AtAgent(j, Begin));
    s2 := Apply(c, s1, AtAgent(j, Accept));
    s3 := Apply(c, s2, AtAgent(j, Forward));
    assert [JobLine(j)][1..] == [] && [] + [JobLine(j)] == [JobLine(j)];
    assert s3.relays[c[j].port] == Relay(Some(j), [JobLine(j)], []) && s3.parties[j] == Submitted(j);
    assert s3.parties == With(s, j, Submitted(j)).parties;
    assert s3.relays == s.relays[c[j].port := Relay(Some(j), [JobLine(j)], [])];
  }

  function Submitted(j: JobId): Party {
    NEW_PARTY.(client := NEW_PARTY.client.(phase := Waiting), handler := Serving(Some(j), false))
  }

  function Arrived(): Party {
    NEW_PARTY.(client := NEW_PARTY.client.(phase := Waiting), handler := Ended,
               worker := NEW_PARTY.worker.(task := Validating))
  }

  /** An agent that sends its job and hangs up leaves the relay free and the job being validated. */
  lemma JobArrives(c: Config, s: State, j: JobId) returns (states: seq<State>, steps: seq<Step>)
    requires j in c && j in s.parties && s.parties[j] == NEW_PARTY && c[j].port in s.relays
    requires s.relays[c[j].port] == Relay(None, [], []) && s.activeJob.None?
    ensures IsPath(c, states, steps) && states[0] == s && states[|steps|] == With(s, j, Arrived())
  {
    var r := c[j].port;
    var s1, s2, s3 := JobSubmitted(c, s, j);
    var s4, s5 := JobTaken(c, s, s3, j);
    steps := [AtAgent(j, Begin), AtAgent(j, Accept), AtAgent(j, Forward), WorkerReceive(r), AtAgent(j, HangUp)];
    states := [s, s1, s2, s3, s4, s5];
  }

  lemma JobTaken(c: Config, s: State, s3: State, j: JobId) returns (s4: State, s5: State)
    requires j in c && j in s.parties && c[j].port in s.relays
    requires s.relays[c[j].port] == Relay(None, [], []) && s.activeJob.None?
    requires s3 == With(s, j, Submitted(j)).(relays := s.relays[c[j].port := Relay(Some(j), [JobLine(j)], [])])
    ensures Leads(c, s3, WorkerReceive(c[j].port), s4) && Leads(c, s4, AtAgent(j, HangUp), s5)
    ensures s5 == With(s, j, Arrived())
  {
    var r := c[j].port;
    s4 := Apply(c, s3, WorkerReceive(r));
    s5 := Apply(c, s4, AtAgent(j, HangUp));
    assert s5.parties[j] == Arrived();
    assert s5.relays[r] == s.relays[r] && s5.relays == s.relays;
    assert s5.parties == With(s, j, Arrived()).parties;
  }

  lemma JobAdvances(c: Config, s: State, j: JobId) returns (states: seq<State>, steps: seq<Step>)
    requires j in c && j in s.parties && s.parties[j].worker.task == Validating && c[j].port in s.relays
    requires ActiveKnown(c, s)
    ensures IsPath(c, states, steps) && states[0] == s
    ensures states[|steps|] == WithTask(s, j, Running).(activeJob := Some(j))
  {
    var e := AtWorker(j, Advance);
    var s1 := OneAdvance(c, s, j);
    var s2 := OneAdvance(c, s1, j);
    var s3 := OneAdvance(c, s2, j);
    Extended(c, [s], [], e, s1);
    Extended(c, [s] + [s1], [] + [e], e, s2);
    Extended(c, [s] + [s1] + [s2], [] + [e] + [e], e, s3);
    states, steps := [s] + [s1] + [s2] + [s3], [] + [e] + [e] + [e];
    TaskTwice(s, j, MatchingGrant, ReadingPlatform);
    TaskTwice(s, j, ReadingPlatform, Running);
  }

  lemma TaskTwice(s: State, j: JobId, first: Task, second: Task)
    requires j in s.parties
    ensures WithTask(WithTask(s, j, first), j, second) == WithTask(s, j, second)
  {
    var p := s.parties[j];
    var q, z := p.(worker := p.worker.(task := first)), p.(worker := p.worker.(task := second));
    assert s.parties[j := q][j := z] == s.parties[j := z];
  }

  lemma OneAdvance(c: Config, s: State, j: JobId) returns (t: State)
    requires j in c && j in s.parties && Pending(s.parties[j].worker) && c[j].port in s.relays && ActiveKnown(c, s)
    ensures Leads(c, s, AtWorker(j, Advance), t) && t == Advanced(s, j) && ActiveKnown(c, t)
  {
    t := Advanced(s, j);
  }

  /**
   * "At most one job runs in the worker" fails: two agents in turn on one relay are both past the test before either
   * is active.
   */
  lemma TwoJobsCanRunAtOnce(c: Config, s: State, a: JobId, b: JobId) returns (states: seq<State>, steps: seq<Step>)
    requires Init(c, s) && a in c && b in c && a != b && c[a].port == c[b].port
    ensures IsRun(c, states, steps) && states[0] == s
    ensures a in states[|steps|].parties && states[|steps|].parties[a].worker.task == Running
    ensures b in states[|steps|].parties && states[|steps|].parties[b].worker.task == Running
  {
    states, steps := JobArrives(c, s, a);
    var states1, steps1 := JobArrives(c, states[|steps|], b);
    PathConcat(c, states, steps, states1, steps1);
    states, steps := states[..|steps|] + states1, steps + steps1;
    var states2, steps2 := JobAdvances(c, states[|steps|], a);
    PathConcat(c, states, steps, states2, steps2);
    states, steps := states[..|steps|] + states2, steps + steps2;
    var states3, steps3 := JobAdvances(c, states[|steps|], b);
    PathConcat(c, states, steps, states3, steps3);
    states, steps := states[..|steps|] + states3, steps + steps3;
  }
}
