/**
 * The boundary's answer and the client's check of the result: what the worker counts as granted, the client does too.
 */
module EndToEnd {
  import opened Common
  import opened Program
  import opened MutationProtocol
  import RunLaws
  import Validation = Program
  import Results

  /** By position `i` of the run, job `j` has read a granted answer to its boundary. */
  ghost predicate GrantRead(states: seq<State>, steps: seq<Step>, i: nat, j: JobId)
    requires |states| == |steps| + 1 && i <= |steps|
  {
    exists a | 0 <= a < i :: ReadsGrant(states[a], steps[a], j)
  }

  predicate ReadsGrant(s: State, e: Step, j: JobId) {
    e.AtWorker? && e.j == j && e.workerAct.Resume? && j in s.parties && s.parties[j].worker.verdict == Some(true)
  }

  lemma ReturnedStays(c: Config, s: State, e: Step, j: JobId)
    requires Enabled(c, s, e) && j in s.parties && s.parties[j].client.returned
    ensures j in Apply(c, s, e).parties && Apply(c, s, e).parties[j].client.returned
  {
    if Moving(e) ==> e.j != j {
      OthersStill(c, s, e, j);
    } else {
      OwnMove(c, s, e, j);
    }
  }

  lemma {:induction false} ReturnedSince(c: Config, states: seq<State>, steps: seq<Step>, a: nat, i: nat, j: JobId)
    requires IsPath(c, states, steps) && a <= i <= |steps|
    requires j in states[a].parties && states[a].parties[j].client.returned
    ensures j in states[i].parties && states[i].parties[j].client.returned
    decreases i
  {
    if a < i {
      ReturnedSince(c, states, steps, a, i - 1, j);
      assert StepAt(c, states, steps, i - 1);
      ReturnedStays(c, states[i - 1], steps[i - 1], j);
    }
  }

  /** From the moment the worker reads a granted answer, the job's client counts itself authorized. */
  lemma GrantReachedClient(c: Config, states: seq<State>, steps: seq<Step>, i: nat, j: JobId)
    requires IsRun(c, states, steps) && i <= |steps| && j in c && GrantRead(states, steps, i, j)
    ensures j in states[i].parties && states[i].parties[j].client.authorized
  {
    var a :| 0 <= a < i && ReadsGrant(states[a], steps[a], j);
    RunInvariant(c, states, steps, a);
    assert PartyAt(c, states[a], j);
    ReturnedSince(c, states, steps, a, i, j);
    RunInvariant(c, states, steps, i);
    assert PartyAt(c, states[i], j);
  }

  /**
   * In every run and at any time, the job's client accepts every result message that is honest about what the worker
   * has read: it never takes a success for an unauthorized one.
   */
  lemma ResultAccepted(c: Config, states: seq<State>, steps: seq<Step>, i: nat, j: JobId,
                       m: Results.Reply, jobId: string, p: Program)
    requires IsRun(c, states, steps) && i <= |steps| && j in c
    requires Results.Honest(m, jobId, p, GrantRead(states, steps, i, j))
    ensures j in states[i].parties
    ensures Results.ValidateResult(m, jobId, p, states[i].parties[j].client.authorized).Ok?
  {
    RunInvariant(c, states, steps, i);
    assert PartyAt(c, states[i], j);
    if GrantRead(states, steps, i, j) {
      GrantReachedClient(c, states, steps, i, j);
    }
  }

  // ----- the client's own check, whatever the message says

  lemma CallbackReturns(c: Config, s: State, j: JobId)
    requires Enabled(c, s, AtAgent(j, CallbackEnds(true)))
    ensures var t := Apply(c, s, AtAgent(j, CallbackEnds(true))); j in t.parties && t.parties[j].client.returned
  {
  }

  lemma ReturnedAfter(c: Config, states: seq<State>, steps: seq<Step>, m: nat, i: nat, j: JobId)
    requires IsPath(c, states, steps) && m < i <= |steps| && steps[m] == AtAgent(j, CallbackEnds(true))
    ensures j in states[i].parties && states[i].parties[j].client.returned
  {
    assert StepAt(c, states, steps, m);
    CallbackReturns(c, states[m], j);
    ReturnedSince(c, states, steps, m + 1, i, j);
  }

  lemma AuthorizedMeansReturned(c: Config, states: seq<State>, steps: seq<Step>, i: nat, j: JobId)
    requires IsRun(c, states, steps) && i <= |steps| && j in c
    ensures j in states[i].parties && states[i].parties[j].client.authorized == states[i].parties[j].client.returned
  {
    RunInvariant(c, states, steps, i);
    assert PartyAt(c, states[i], j);
  }

  /** The client counts itself authorized exactly from the moment its callback returned normally. */
  lemma AuthorizedIff(c: Config, states: seq<State>, steps: seq<Step>, i: nat, j: JobId)
    requires IsRun(c, states, steps) && i <= |steps| && j in c && j in states[i].parties
    ensures states[i].parties[j].client.authorized <==>
            exists m | 0 <= m < i :: steps[m] == AtAgent(j, CallbackEnds(true))
  {
    AuthorizedMeansReturned(c, states, steps, i, j);
    if states[i].parties[j].client.authorized {
      var m := ReturnStep(c, states, steps, i, j);
    }
    if m :| 0 <= m < i && steps[m] == AtAgent(j, CallbackEnds(true)) {
      ReturnedAfter(c, states, steps, m, i, j);
    }
  }

  /**
   * Whatever a message says and whoever sent it: when the client of job `j` accepts it as the success of a mutation
   * program, its callback had returned normally earlier in the run.
   */
  lemma AcceptedSuccessWasAuthorized(c: Config, states: seq<State>, steps: seq<Step>, i: nat, j: JobId,
                                     m: Results.Reply, jobId: string, p: Program)
    requires IsRun(c, states, steps) && i <= |steps| && j in c && j in states[i].parties
    requires m.ok && p.capability == Mutation
    requires Results.ValidateResult(m, jobId, p, states[i].parties[j].client.authorized).Ok?
    ensures exists k | 0 <= k < i :: steps[k] == AtAgent(j, CallbackEnds(true))
  {
    Results.AcceptedMessageIff(m, jobId, p, states[i].parties[j].client.authorized);
    AuthorizedIff(c, states, steps, i, j);
  }

  // ----- the job's program

  predicate Protected(op: Op) {
    op in {SetPrivateFiles, HandleDialog, TriggerCredentialBroker}
  }

  /** `hasProtectedOperation`: the search goes into the branches of choices only. */
  predicate HasProtected(actions: seq<Action>)
    decreases actions
  {
    actions != [] && (ProtectedAction(actions[0]) || HasProtected(actions[1..]))
  }

  predicate ProtectedAction(a: Action)
    decreases a
  {
    Protected(a.op) || (a.op == FirstSuccess && a.branches.Present? && ProtectedBranches(a.branches.list))
  }

  predicate ProtectedBranches(list: seq<Branch>)
    decreases list
  {
    list != [] && (HasProtected(list[0].body) || ProtectedBranches(list[1..]))
  }

  ghost predicate SomeProtected(flat: seq<Action>) {
    exists a :: a in flat && Protected(a.op)
  }

  lemma SomeProtectedConcat(a: seq<Action>, b: seq<Action>)
    ensures SomeProtected(a + b) <==> SomeProtected(a) || SomeProtected(b)
  {
    forall x
      ensures x in a + b <==> x in a || x in b
    {
    }
  }

  /** In a program whose branches are where they belong, the search finds every protected operation at any depth. */
  lemma {:induction false} HasProtectedIff(actions: seq<Action>)
    requires BranchesWellPlaced(Flat(actions))
    ensures HasProtected(actions) <==> SomeProtected(Flat(actions))
    decreases actions, 1
  {
    if actions != [] {
      var head, rest := FlatAction(actions[0]), Flat(actions[1..]);
      assert forall x | x in head :: x in Flat(actions);
      assert forall x | x in rest :: x in Flat(actions);
      ProtectedActionIff(actions[0]);
      HasProtectedIff(actions[1..]);
      SomeProtectedConcat(head, rest);
    }
  }

  lemma {:induction false} ProtectedActionIff(a: Action)
    requires BranchesWellPlaced(FlatAction(a))
    ensures ProtectedAction(a) <==> SomeProtected(FlatAction(a))
    decreases a, 0
  {
    assert FlatAction(a)[0] == a && a in FlatAction(a);
    SomeProtectedOne(a);
    if a.branches.Present? {
      assert forall x | x in FlatBranches(a.branches.list) :: x in FlatAction(a);
      ProtectedBranchesIff(a.branches.list);
      SomeProtectedConcat([a], FlatBranches(a.branches.list));
    }
  }

  lemma SomeProtectedOne(a: Action)
    ensures SomeProtected([a]) <==> Protected(a.op)
  {
    assert a in [a];
  }

  lemma {:induction false} ProtectedBranchesIff(list: seq<Branch>)
    requires BranchesWellPlaced(FlatBranches(list))
    ensures ProtectedBranches(list) <==> SomeProtected(FlatBranches(list))
    decreases list, 0
  {
    if list != [] {
      var head, rest := Flat(list[0].body), FlatBranches(list[1..]);
      assert forall x | x in head :: x in FlatBranches(list);
      assert forall x | x in rest :: x in FlatBranches(list);
      HasProtectedIff(list[0].body);
      ProtectedBranchesIff(list[1..]);
      SomeProtectedConcat(head, rest);
    }
  }

  /** What the protocol knows about the job of a program. */
  function SpecOf(port: Port, p: Program): Spec {
    Spec(port, p.capability == Mutation, HasProtected(p.actions))
  }

  /** By position `i` the callback returned, then the boundary was granted in a way that the program allows. */
  ghost predicate AuthorizedFor(p: Program, states: seq<State>, steps: seq<Step>, m: nat, l: nat, i: nat, j: JobId)
    requires |states| == |steps| + 1 && i <= |steps|
  {
    m < l < i && steps[m] == AtAgent(j, CallbackEnds(true)) &&
    (steps[l] == AtWorker(j, UserAnswer(true)) ||
     (steps[l] == AtWorker(j, Decide(true)) && states[l].mode != Manual && !SomeProtected(Flat(p.actions))))
  }

  /**
   * A success that is honest about what the worker has read, for an accepted mutation program, was authorized: earlier
   * in the run the client's callback returned normally, and then the local user approved, or a mode that needs no
   * approval granted a program without any protected operation.
   */
  lemma SuccessWasAuthorized(c: Config, states: seq<State>, steps: seq<Step>, i: nat, j: JobId,
                             m: Results.Reply, jobId: string, p: Program)
      returns (returned: nat, granted: nat)
    requires IsRun(c, states, steps) && i <= |steps| && j in c && c[j] == SpecOf(c[j].port, p)
    requires Validation.Accepted(p) && p.capability == Mutation
    requires m.ok && Results.Honest(m, jobId, p, GrantRead(states, steps, i, j))
    ensures AuthorizedFor(p, states, steps, returned, granted, i, j)
  {
    var a :| 0 <= a < i && ReadsGrant(states[a], steps[a], j);
    granted := GrantStep(c, states, steps, a, j);
    returned := ReturnStep(c, states, steps, granted, j);
    RunLaws.AcceptedFlat(p);
    HasProtectedIff(p.actions);
  }
}
