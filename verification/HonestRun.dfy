/** The authorization path is not only safe: an honest job gets through it, step by step, to its mutation. */
module HonestRun {
  import opened Common
  import opened MutationProtocol

  /** The state `s` with one party, its relay and the active job replaced. */
  function At(s: State, j: JobId, p: Party, r: Port, relay: Relay, active: Option<JobId>): State {
    s.(parties := s.parties[j := p], relays := s.relays[r := relay], activeJob := active)
  }

  lemma AtParty(s: State, j: JobId, p: Party, r: Port, relay: Relay, active: Option<JobId>, q: Party)
    ensures With(At(s, j, p, r, relay, active), j, q) == At(s, j, q, r, relay, active)
  {
    assert s.parties[j := p][j := q] == s.parties[j := q];
  }

  lemma AtRelay(s: State, j: JobId, p: Party, r: Port, relay: Relay, active: Option<JobId>, next: Relay)
    ensures WithRelay(At(s, j, p, r, relay, active), r, next) == At(s, j, p, r, next, active)
  {
    assert s.relays[r := relay][r := next] == s.relays[r := next];
  }

  /** The job is a mutation on a relay whose port is the current one. */
  ghost predicate Ready(c: Config, s: State, j: JobId) {
    j in c && j in s.parties && c[j].port in s.relays && c[j].mutation && s.nativePort == Some(c[j].port)
  }

  /** The boundary waits for the local user once the agent has agreed. */
  predicate NeedsUser(c: Config, s: State, j: JobId)
    requires j in c
  {
    s.mode == Manual || c[j].protectedOperation
  }

  function Holding(j: JobId, toExtension: seq<Line>, fromExtension: seq<Note>): Relay {
    Relay(Some(j), toExtension, fromExtension)
  }

  function Working(j: JobId, task: Task): Party {
    Submitted(j).(worker := NEW_PARTY.worker.(task := task))
  }

  function Asking(j: JobId): Worker {
    NEW_PARTY.worker.(task := Running, requested := true, boundary := true)
  }

  /** The boundary message has reached the client. */
  function Asked(j: JobId): Party {
    Party(Client(Waiting, false, 0, false, [], [BeforeNote(j)]), Serving(Some(j), false), Asking(j))
  }

  lemma TakesJob(c: Config, s: State, j: JobId) returns (t: State)
    requires Ready(c, s, j) && s.activeJob.None?
    ensures var from := At(s, j, Submitted(j), c[j].port, Holding(j, [JobLine(j)], []), None);
            t == At(s, j, Working(j, Validating), c[j].port, Holding(j, [], []), None) &&
            Leads(c, from, WorkerReceive(c[j].port), t)
  {
    var r := c[j].port;
    var from := At(s, j, Submitted(j), r, Holding(j, [JobLine(j)], []), None);
    t := At(s, j, Working(j, Validating), r, Holding(j, [], []), None);
    AtRelay(s, j, Submitted(j), r, Holding(j, [JobLine(j)], []), None, Holding(j, [], []));
    AtParty(s, j, Submitted(j), r, Holding(j, [], []), None, Working(j, Validating));
    assert [JobLine(j)][1..] == [];
  }

  lemma GoesOn(c: Config, s: State, j: JobId, task: Task) returns (t: State)
    requires Ready(c, s, j) && (task == Validating || task == MatchingGrant || task == ReadingPlatform)
    ensures var from := At(s, j, Working(j, task), c[j].port, Holding(j, [], []), None);
            Leads(c, from, AtWorker(j, Advance), t) &&
            t == match task
                 case Validating => At(s, j, Working(j, MatchingGrant), c[j].port, Holding(j, [], []), None)
                 case MatchingGrant => At(s, j, Working(j, ReadingPlatform), c[j].port, Holding(j, [], []), None)
                 case _ => At(s, j, Working(j, Running), c[j].port, Holding(j, [], []), Some(j))
  {
    var r := c[j].port;
    var from := At(s, j, Working(j, task), r, Holding(j, [], []), None);
    t := Apply(c, from, AtWorker(j, Advance));
    AtParty(s, j, Working(j, task), r, Holding(j, [], []), None, t.parties[j]);
  }

  lemma AsksClient(c: Config, s: State, j: JobId) returns (t: State, u: State)
    requires Ready(c, s, j)
    ensures var from := At(s, j, Working(j, Running), c[j].port, Holding(j, [], []), Some(j));
            Leads(c, from, AtWorker(j, RequestMutation), t) && Leads(c, t, Deliver(c[j].port), u)
    ensures u == At(s, j, Asked(j),
                    c[j].port, Holding(j, [], []), Some(j))
  {
    var r, p := c[j].port, Working(j, Running);
    var q := p.(worker := Asking(j));
    var asked := q.(client := q.client.(fromRelay := [BeforeNote(j)]));
    AtParty(s, j, p, r, Holding(j, [], []), Some(j), q);
    AtRelay(s, j, q, r, Holding(j, [], []), Some(j), Holding(j, [], [BeforeNote(j)]));
    t := At(s, j, q, r, Holding(j, [], [BeforeNote(j)]), Some(j));
    assert [] + [BeforeNote(j)] == [BeforeNote(j)] && [BeforeNote(j)][1..] == [];
    AtRelay(s, j, q, r, Holding(j, [], [BeforeNote(j)]), Some(j), Holding(j, [], []));
    AtParty(s, j, q, r, Holding(j, [], []), Some(j), asked);
    u := At(s, j, asked, r, Holding(j, [], []), Some(j));
  }

  /** The client after its callback ended in one way or the other, and said so. */
  function Answered(agreed: bool, toRelay: seq<Line>): Client {
    Client(if agreed then Waiting else Closed, agreed, 1, agreed, toRelay, [])
  }

  /** The worker when that answer has arrived. */
  function Told(j: JobId, agreed: bool): Worker {
    if agreed then Asking(j).(deciding := true) else Asking(j).(boundary := false, verdict := Some(false))
  }

  lemma ClientAnswers(c: Config, s: State, j: JobId, agreed: bool) returns (t: State, u: State)
    requires Ready(c, s, j)
    ensures var from := At(s, j, Asked(j),
                           c[j].port, Holding(j, [], []), Some(j));
            Leads(c, from, AtAgent(j, Receive), t) && Leads(c, t, AtAgent(j, CallbackEnds(agreed)), u)
    ensures u == At(s, j, Party(Answered(agreed, [AuthLine(j, agreed)]), Serving(Some(j), false), Asking(j)),
                    c[j].port, Holding(j, [], []), Some(j))
  {
    var r := c[j].port;
    var asked := Asked(j);
    var calling := asked.(client := Client(InCallback, false, 1, false, [], []));
    var answered := asked.(client := Answered(agreed, [AuthLine(j, agreed)]));
    assert [BeforeNote(j)][1..] == [] && [] + [AuthLine(j, agreed)] == [AuthLine(j, agreed)];
    AtParty(s, j, asked, r, Holding(j, [], []), Some(j), calling);
    AtParty(s, j, calling, r, Holding(j, [], []), Some(j), answered);
    t := At(s, j, calling, r, Holding(j, [], []), Some(j));
    u := At(s, j, answered, r, Holding(j, [], []), Some(j));
  }

  lemma AnswerArrives(c: Config, s: State, j: JobId, agreed: bool) returns (t: State, u: State)
    requires Ready(c, s, j)
    ensures var answered := Party(Answered(agreed, [AuthLine(j, agreed)]), Serving(Some(j), false), Asking(j));
            var from := At(s, j, answered, c[j].port, Holding(j, [], []), Some(j));
            Leads(c, from, AtAgent(j, Forward), t) && Leads(c, t, WorkerReceive(c[j].port), u)
    ensures u == At(s, j, Party(Answered(agreed, []), Serving(Some(j), true), Told(j, agreed)),
                    c[j].port, Holding(j, [], []), Some(j))
  {
    var r := c[j].port;
    var line := AuthLine(j, agreed);
    var answered := Party(Answered(agreed, [line]), Serving(Some(j), false), Asking(j));
    var taken := answered.(client := Answered(agreed, []));
    var sent := taken.(handler := Serving(Some(j), true));
    var told := sent.(worker := Told(j, agreed));
    assert [line][1..] == [] && [] + [line] == [line];
    AtParty(s, j, answered, r, Holding(j, [], []), Some(j), taken);
    AtParty(s, j, taken, r, Holding(j, [], []), Some(j), sent);
    AtRelay(s, j, sent, r, Holding(j, [], []), Some(j), Holding(j, [line], []));
    t := At(s, j, sent, r, Holding(j, [line], []), Some(j));
    AtRelay(s, j, sent, r, Holding(j, [line], []), Some(j), Holding(j, [], []));
    AtParty(s, j, sent, r, Holding(j, [], []), Some(j), told);
    u := At(s, j, told, r, Holding(j, [], []), Some(j));
  }

  /** How the boundary is granted: by the local user where one is needed, and otherwise by the mode. */
  function Grant(c: Config, s: State, j: JobId): Decision
    requires j in c
  {
    if NeedsUser(c, s, j) then ByUser else ByMode(s.mode)
  }

  /** The worker once the boundary was granted and the answer read: it waits for the exact target. */
  function Checking(c: Config, s: State, j: JobId, cancelled: bool): Worker
    requires j in c
  {
    Asking(j).(
    boundary := false, externalAuthorized := NeedsUser(c, s, j), decision := Grant(c, s, j), checking := true,
    cancelled := cancelled)
  }

  /** The boundary granted, its caller not resumed yet. */
  function Answerable(c: Config, s: State, j: JobId): Worker
    requires j in c
  {
    Checking(c, s, j, false).(checking := false, verdict := Some(true))
  }

  /** The boundary still open: the agent has agreed and the local user is asked. */
  function Confirming(j: JobId): Worker {
    Asking(j).(externalAuthorized := true)
  }

  /** The job once its agent has agreed, with that worker. */
  function Agreed(j: JobId, worker: Worker): Party {
    Party(Answered(true, []), Serving(Some(j), true), worker)
  }

  lemma StateRead(c: Config, s: State, j: JobId) returns (t: State)
    requires Ready(c, s, j)
    ensures var from := At(s, j, Agreed(j, Told(j, true)), c[j].port, Holding(j, [], []), Some(j));
            Leads(c, from, AtWorker(j, Decide(true)), t)
    ensures t == At(s, j, Agreed(j, if NeedsUser(c, s, j) then Confirming(j) else Answerable(c, s, j)),
                    c[j].port, Holding(j, [], []), Some(j))
  {
    t := At(s, j, Agreed(j, if NeedsUser(c, s, j) then Confirming(j) else Answerable(c, s, j)),
            c[j].port, Holding(j, [], []), Some(j));
    AtParty(s, j, Agreed(j, Told(j, true)), c[j].port, Holding(j, [], []), Some(j), t.parties[j]);
  }

  lemma UserApproves(c: Config, s: State, j: JobId) returns (t: State)
    requires Ready(c, s, j) && NeedsUser(c, s, j)
    ensures var from := At(s, j, Agreed(j, Confirming(j)), c[j].port, Holding(j, [], []), Some(j));
            Leads(c, from, AtWorker(j, UserAnswer(true)), t)
    ensures t == At(s, j, Agreed(j, Answerable(c, s, j)), c[j].port, Holding(j, [], []), Some(j))
  {
    t := At(s, j, Agreed(j, Answerable(c, s, j)), c[j].port, Holding(j, [], []), Some(j));
    AtParty(s, j, Agreed(j, Confirming(j)), c[j].port, Holding(j, [], []), Some(j), t.parties[j]);
  }

  lemma AnswerRead(c: Config, s: State, j: JobId) returns (t: State)
    requires Ready(c, s, j)
    ensures var from := At(s, j, Agreed(j, Answerable(c, s, j)), c[j].port, Holding(j, [], []), Some(j));
            Leads(c, from, AtWorker(j, Resume(true)), t)
    ensures t == At(s, j, Agreed(j, Checking(c, s, j, false)), c[j].port, Holding(j, [], []), Some(j))
  {
    t := At(s, j, Agreed(j, Checking(c, s, j, false)), c[j].port, Holding(j, [], []), Some(j));
    AtParty(s, j, Agreed(j, Answerable(c, s, j)), c[j].port, Holding(j, [], []), Some(j), t.parties[j]);
  }

  /** The worker once the mutation has begun. */
  function Begun(c: Config, s: State, j: JobId, cancelled: bool): Worker
    requires j in c
  {
    Checking(c, s, j, cancelled).(checking := false, started := true)
  }

  lemma MutationBegins(c: Config, s: State, j: JobId, cancelled: bool) returns (t: State)
    requires Ready(c, s, j)
    ensures var from := At(s, j, Agreed(j, Checking(c, s, j, cancelled)), c[j].port, Holding(j, [], []), Some(j));
            Leads(c, from, AtWorker(j, TargetRead(true)), t)
    ensures t == At(s, j, Agreed(j, Begun(c, s, j, cancelled)), c[j].port, Holding(j, [], []), Some(j))
  {
    t := At(s, j, Agreed(j, Begun(c, s, j, cancelled)), c[j].port, Holding(j, [], []), Some(j));
    AtParty(s, j, Agreed(j, Checking(c, s, j, cancelled)), c[j].port, Holding(j, [], []), Some(j), t.parties[j]);
  }

  /** The job after its end, with what its client has been sent. */
  function Over(c: Config, s: State, j: JobId, phase: ClientPhase, fromRelay: seq<Note>): Party
    requires j in c
  {
    Party(Answered(true, []).(phase := phase, fromRelay := fromRelay), Serving(Some(j), true),
          Begun(c, s, j, false).(task := Settled))
  }

  lemma ResultSent(c: Config, s: State, j: JobId) returns (t: State, u: State)
    requires Ready(c, s, j)
    ensures var from := At(s, j, Agreed(j, Begun(c, s, j, false)), c[j].port, Holding(j, [], []), Some(j));
            Leads(c, from, AtWorker(j, EndJob), t) && Leads(c, t, Deliver(c[j].port), u)
    ensures u == At(s, j, Over(c, s, j, Waiting, [ResultNote(j)]), c[j].port, Holding(j, [], []), None)
  {
    var r, note := c[j].port, ResultNote(j);
    var begun, over := Agreed(j, Begun(c, s, j, false)), Over(c, s, j, Waiting, []);
    t := At(s, j, over, r, Holding(j, [], [note]), None);
    u := At(s, j, Over(c, s, j, Waiting, [note]), r, Holding(j, [], []), None);
    assert [] + [note] == [note] && [note][1..] == [];
    AtParty(s, j, begun, r, Holding(j, [], []), Some(j), over);
    AtRelay(s, j, over, r, Holding(j, [], []), None, Holding(j, [], [note]));
    AtRelay(s, j, over, r, Holding(j, [], [note]), None, Holding(j, [], []));
    AtParty(s, j, over, r, Holding(j, [], []), None, u.parties[j]);
  }

  lemma ResultRead(c: Config, s: State, j: JobId) returns (t: State)
    requires Ready(c, s, j)
    ensures var from := At(s, j, Over(c, s, j, Waiting, [ResultNote(j)]), c[j].port, Holding(j, [], []), None);
            Leads(c, from, AtAgent(j, Receive), t)
    ensures t == At(s, j, Over(c, s, j, Closed, []), c[j].port, Holding(j, [], []), None)
  {
    t := At(s, j, Over(c, s, j, Closed, []), c[j].port, Holding(j, [], []), None);
    assert [ResultNote(j)][1..] == [];
    AtParty(s, j, Over(c, s, j, Waiting, [ResultNote(j)]), c[j].port, Holding(j, [], []), None, t.parties[j]);
  }

  lemma CancelArrives(c: Config, s: State, j: JobId) returns (t: State)
    requires Ready(c, s, j)
    ensures var from := At(s, j, Agreed(j, Checking(c, s, j, false)), c[j].port, Holding(j, [], []), Some(j));
            Leads(c, from, Cancel, t)
    ensures t == At(s, j, Agreed(j, Checking(c, s, j, true)), c[j].port, Holding(j, [], []), Some(j))
  {
    t := At(s, j, Agreed(j, Checking(c, s, j, true)), c[j].port, Holding(j, [], []), Some(j));
    AtParty(s, j, Agreed(j, Checking(c, s, j, false)), c[j].port, Holding(j, [], []), Some(j), t.parties[j]);
  }

  /** The job runs in the worker. */
  lemma JobRuns(c: Config, s: State, j: JobId) returns (states: seq<State>, steps: seq<Step>)
    requires Init(c, s) && Ready(c, s, j)
    ensures IsPath(c, states, steps) && states[0] == s
    ensures states[|steps|] == At(s, j, Working(j, Running), c[j].port, Holding(j, [], []), Some(j))
  {
    var s1, s2, s3 := JobSubmitted(c, s, j);
    assert s3 == At(s, j, Submitted(j), c[j].port, Holding(j, [JobLine(j)], []), None);
    var s4 := TakesJob(c, s, j);
    states, steps := [s], [];
    Extended(c, states, steps, AtAgent(j, Begin), s1);
    states, steps := states + [s1], steps + [AtAgent(j, Begin)];
    Extended(c, states, steps, AtAgent(j, Accept), s2);
    states, steps := states + [s2], steps + [AtAgent(j, Accept)];
    Extended(c, states, steps, AtAgent(j, Forward), s3);
    states, steps := states + [s3], steps + [AtAgent(j, Forward)];
    Extended(c, states, steps, WorkerReceive(c[j].port), s4);
    states, steps := JobPasses(c, s, j, states + [s4], steps + [WorkerReceive(c[j].port)]);
  }

  /** The three awaits between the active-job test and its assignment. */
  lemma JobPasses(c: Config, s: State, j: JobId, before: seq<State>, done: seq<Step>)
    returns (states: seq<State>, steps: seq<Step>)
    requires Ready(c, s, j) && IsPath(c, before, done)
    requires before[|done|] == At(s, j, Working(j, Validating), c[j].port, Holding(j, [], []), None)
    ensures IsPath(c, states, steps) && states[0] == before[0]
    ensures states[|steps|] == At(s, j, Working(j, Running), c[j].port, Holding(j, [], []), Some(j))
  {
    var e := AtWorker(j, Advance);
    var s5 := GoesOn(c, s, j, Validating);
    var s6 := GoesOn(c, s, j, MatchingGrant);
    var s7 := GoesOn(c, s, j, ReadingPlatform);
    Extended(c, before, done, e, s5);
    states, steps := before + [s5], done + [e];
    Extended(c, states, steps, e, s6);
    states, steps := states + [s6], steps + [e];
    Extended(c, states, steps, e, s7);
    states, steps := states + [s7], steps + [e];
  }

  /** Two more steps of a run. */
  lemma TwoMore(c: Config, before: seq<State>, done: seq<Step>, e: Step, t: State, f: Step, u: State)
    returns (states: seq<State>, steps: seq<Step>)
    requires IsPath(c, before, done) && Leads(c, before[|done|], e, t) && Leads(c, t, f, u)
    ensures IsPath(c, states, steps) && states[0] == before[0] && states[|steps|] == u
    ensures steps == done + [e] + [f]
  {
    Extended(c, before, done, e, t);
    Extended(c, before + [t], done + [e], f, u);
    states, steps := before + [t] + [u], done + [e] + [f];
  }

  /** The client has answered the boundary, and the answer has arrived. */
  lemma AnswerTold(c: Config, s: State, j: JobId, agreed: bool) returns (states: seq<State>, steps: seq<Step>)
    requires Init(c, s) && Ready(c, s, j)
    ensures IsPath(c, states, steps) && states[0] == s
    ensures states[|steps|] == At(s, j, Party(Answered(agreed, []), Serving(Some(j), true), Told(j, agreed)),
                                  c[j].port, Holding(j, [], []), Some(j))
    ensures AtAgent(j, CallbackEnds(agreed)) in steps
  {
    states, steps := JobRuns(c, s, j);
    var t, u := AsksClient(c, s, j);
    states, steps := TwoMore(c, states, steps, AtWorker(j, RequestMutation), t, Deliver(c[j].port), u);
    t, u := ClientAnswers(c, s, j, agreed);
    states, steps := TwoMore(c, states, steps, AtAgent(j, Receive), t, AtAgent(j, CallbackEnds(agreed)), u);
    t, u := AnswerArrives(c, s, j, agreed);
    states, steps := TwoMore(c, states, steps, AtAgent(j, Forward), t, WorkerReceive(c[j].port), u);
  }

  /** The boundary has been granted: by the local user wherever one is needed. */
  lemma JobGranted(c: Config, s: State, j: JobId) returns (states: seq<State>, steps: seq<Step>)
    requires Init(c, s) && Ready(c, s, j)
    ensures IsPath(c, states, steps) && states[0] == s
    ensures states[|steps|] == At(s, j, Agreed(j, Answerable(c, s, j)), c[j].port, Holding(j, [], []), Some(j))
    ensures NeedsUser(c, s, j) ==> AtWorker(j, UserAnswer(true)) in steps
  {
    states, steps := AnswerTold(c, s, j, true);
    var t := StateRead(c, s, j);
    Extended(c, states, steps, AtWorker(j, Decide(true)), t);
    states, steps := states + [t], steps + [AtWorker(j, Decide(true))];
    if NeedsUser(c, s, j) {
      var u := UserApproves(c, s, j);
      Extended(c, states, steps, AtWorker(j, UserAnswer(true)), u);
      states, steps := states + [u], steps + [AtWorker(j, UserAnswer(true))];
    }
  }

  /** The job's answer has been read; it waits for the exact target. */
  lemma JobWaitsForTarget(c: Config, s: State, j: JobId) returns (states: seq<State>, steps: seq<Step>)
    requires Init(c, s) && Ready(c, s, j)
    ensures IsPath(c, states, steps) && states[0] == s
    ensures states[|steps|] == At(s, j, Agreed(j, Checking(c, s, j, false)), c[j].port, Holding(j, [], []), Some(j))
    ensures NeedsUser(c, s, j) ==> AtWorker(j, UserAnswer(true)) in steps
  {
    states, steps := JobGranted(c, s, j);
    var t := AnswerRead(c, s, j);
    Extended(c, states, steps, AtWorker(j, Resume(true)), t);
    states, steps := states + [t], steps + [AtWorker(j, Resume(true))];
  }

  lemma JobBegins(c: Config, s: State, j: JobId) returns (states: seq<State>, steps: seq<Step>)
    requires Init(c, s) && Ready(c, s, j)
    ensures IsPath(c, states, steps) && states[0] == s
    ensures states[|steps|] == At(s, j, Agreed(j, Begun(c, s, j, false)), c[j].port, Holding(j, [], []), Some(j))
    ensures NeedsUser(c, s, j) ==> AtWorker(j, UserAnswer(true)) in steps
  {
    states, steps := JobWaitsForTarget(c, s, j);
    var t := MutationBegins(c, s, j, false);
    Extended(c, states, steps, AtWorker(j, TargetRead(true)), t);
    states, steps := states + [t], steps + [AtWorker(j, TargetRead(true))];
  }

  /**
   * From any initial state in which the job is ready, whatever its mode and operations, some run begins its mutation
   * uncancelled: with the local user's approval wherever one is needed.
   */
  lemma HonestJobStarts(c: Config, s: State, j: JobId) returns (states: seq<State>, steps: seq<Step>)
    requires Init(c, s) && Ready(c, s, j)
    ensures IsRun(c, states, steps) && states[0] == s
    ensures j in states[|steps|].parties && states[|steps|].parties[j].worker.started
    ensures !states[|steps|].parties[j].worker.cancelled
    ensures NeedsUser(c, s, j) ==> AtWorker(j, UserAnswer(true)) in steps
  {
    states, steps := JobBegins(c, s, j);
  }

  /** And goes on to its end: the result reaches the client, and the worker has no active job any more. */
  lemma HonestJobEnds(c: Config, s: State, j: JobId) returns (states: seq<State>, steps: seq<Step>)
    requires Init(c, s) && Ready(c, s, j)
    ensures IsRun(c, states, steps) && states[0] == s
    ensures var t := states[|steps|];
            j in t.parties && t.parties[j].worker.started && t.parties[j].worker.task == Settled &&
            t.parties[j].client.phase == Closed && t.parties[j].client.authorized && t.activeJob.None?
  {
    states, steps := JobBegins(c, s, j);
    var t, u := ResultSent(c, s, j);
    states, steps := TwoMore(c, states, steps, AtWorker(j, EndJob), t, Deliver(c[j].port), u);
    t := ResultRead(c, s, j);
    Extended(c, states, steps, AtAgent(j, Receive), t);
    states, steps := states + [t], steps + [AtAgent(j, Receive)];
  }

  /** The same where no port is connected at first. */
  lemma ConnectedJobEnds(c: Config, s: State, j: JobId) returns (states: seq<State>, steps: seq<Step>)
    requires Init(c, s) && s.nativePort.None? && j in c && c[j].mutation
    ensures IsRun(c, states, steps) && states[0] == s
    ensures var t := states[|steps|];
            j in t.parties && t.parties[j].worker.started && t.parties[j].client.phase == Closed && t.activeJob.None?
  {
    var r := c[j].port;
    var connected := s.(nativePort := Some(r));
    Extended(c, [s], [], PortConnected(r), connected);
    assert [s] + [connected] == [s, connected] && [] + [PortConnected(r)] == [PortConnected(r)];
    var more, rest := HonestJobEnds(c, connected, j);
    PathConcat(c, [s, connected], [PortConnected(r)], more, rest);
    assert [s, connected][..1] == [s];
    states, steps := [s] + more, [PortConnected(r)] + rest;
  }

  /** And some run ends with its boundary denied because the agent's callback failed. */
  lemma DeclinedJobDenied(c: Config, s: State, j: JobId) returns (states: seq<State>, steps: seq<Step>)
    requires Init(c, s) && Ready(c, s, j)
    ensures IsRun(c, states, steps) && states[0] == s && AtAgent(j, CallbackEnds(false)) in steps
    ensures j in states[|steps|].parties && states[|steps|].parties[j].worker.verdict == Some(false)
    ensures !states[|steps|].parties[j].client.authorized
  {
    states, steps := AnswerTold(c, s, j, false);
  }

  /** "A cancelled job does not start" fails: the same run, with the cancellation while the target is being read. */
  lemma CancelledJobStarts(c: Config, s: State, j: JobId) returns (states: seq<State>, steps: seq<Step>, k: nat)
    requires Init(c, s) && Ready(c, s, j)
    ensures IsRun(c, states, steps) && states[0] == s
    ensures k < |steps| && StartsAt(c, states, steps, k, j) && CancelledIn(states[k], j)
  {
    states, steps := JobWaitsForTarget(c, s, j);
    var t := CancelArrives(c, s, j);
    var u := MutationBegins(c, s, j, true);
    k := |steps| + 1;
    Extended(c, states, steps, Cancel, t);
    states, steps := states + [t], steps + [Cancel];
    Extended(c, states, steps, AtWorker(j, TargetRead(true)), u);
    states, steps := states + [u], steps + [AtWorker(j, TargetRead(true))];
    RunInvariant(c, states, steps, k);
    StartStep(c, states, steps, k, j);
  }
}
