/** Programs that static acceptance certainly admits: the rules are strict, not empty (extension/protocol.mjs). */
module LinearPrograms {
  import opened Common
  import opened Program
  import opened Acceptance

  /** An action with no say in the life cycle: any page operation without a URL, branches or private result. */
  predicate Plain(a: Action) {
    a.branches.Absent? && !a.op.Unsupported? && !a.op.FirstSuccess? && !Extracts(a.op) && !a.op.StopCapture? &&
    !(a.op in {OpenOrFocusExactUrl, AttachDebugger, DetachDebugger, BeforeMutation, NavigateSameOrigin,
               CreateSameOriginTab, NavigateHistory})
  }

  function Leaf(op: Op): Action {
    Action(op, None, None, 0, Absent)
  }

  /** Open, attach, work, cross the boundary, work, detach. */
  function Linear(before: seq<Action>, after: seq<Action>): seq<Action> {
    [Leaf(OpenOrFocusExactUrl), Leaf(AttachDebugger)] + before + [Leaf(BeforeMutation)] + after + [Leaf(DetachDebugger)]
  }

  function LinearProgram(target: Target, limits: Limits, before: seq<Action>, after: seq<Action>): Program {
    Program(Mutation, target, limits, Linear(before, after), [], [])
  }

  predicate AllLeaves(actions: seq<Action>) {
    forall a | a in actions :: a.branches.Absent? && !a.op.FirstSuccess? && !a.op.Unsupported?
  }

  lemma {:induction false} LeavesFlat(actions: seq<Action>, depth: nat)
    requires AllLeaves(actions)
    ensures Flat(actions) == actions && FlattenList(actions, depth) == Ok(actions)
    decreases |actions|
  {
    if actions != [] {
      assert actions[0] in actions;
      assert forall a | a in actions[1..] :: a in actions;
      LeavesFlat(actions[1..], depth);
      HeadAndTail(actions);
    }
  }

  lemma AbsentFlat(actions: seq<Action>, op: Op)
    requires AllLeaves(actions) && forall a | a in actions :: a.op != op
    ensures Nowhere(actions, op)
  {
    LeavesFlat(actions, 0);
    CountZero(actions, op);
  }

  lemma OnlyAt(top: seq<Action>, op: Op, k: nat)
    requires AllLeaves(top) && k < |top| && top[k].op == op
    requires forall i | 0 <= i < |top| && i != k :: top[i].op != op
    ensures Only(top, op, k)
  {
    AbsentFlat(top[..k], op);
    AbsentFlat(top[k + 1..], op);
  }

  /** Where each action of a linear program stands. */
  lemma LinearAt(before: seq<Action>, after: seq<Action>, i: nat)
    requires i < |Linear(before, after)|
    ensures var top := Linear(before, after);
            if i == 0 then top[i] == Leaf(OpenOrFocusExactUrl)
            else if i == 1 then top[i] == Leaf(AttachDebugger)
            else if i < 2 + |before| then top[i] in before
            else if i == 2 + |before| then top[i] == Leaf(BeforeMutation)
            else if i < |top| - 1 then top[i] in after
            else top[i] == Leaf(DetachDebugger)
  {
  }

  /** What stands at position `i` of a linear list with its boundary at `b`. */
  predicate InPlace(top: seq<Action>, b: nat, i: nat)
    requires i < |top|
  {
    var op := top[i].op;
    top[i].branches.Absent? && !op.FirstSuccess? && !op.Unsupported? && !Extracts(op) && !op.StopCapture? &&
    (op == OpenOrFocusExactUrl <==> i == 0) && (op == AttachDebugger <==> i == 1) &&
    (op == BeforeMutation <==> i == b) &&
    (op == DetachDebugger <==> i == |top| - 1) &&
    !(op in {NavigateSameOrigin, CreateSameOriginTab, NavigateHistory})
  }

  ghost predicate LinearShape(top: seq<Action>, b: nat) {
    1 < b < |top| - 1 && forall i: nat | i < |top| :: InPlace(top, b, i)
  }

  lemma LinearHasShape(before: seq<Action>, after: seq<Action>)
    requires forall a | a in before + after :: Plain(a)
    ensures LinearShape(Linear(before, after), 2 + |before|)
  {
    var top, b := Linear(before, after), 2 + |before|;
    forall i: nat | i < |top|
      ensures InPlace(top, b, i)
    {
      LinearAt(before, after, i);
      assert forall a | a in before || a in after :: a in before + after;
    }
  }

  lemma ShapeLeaves(top: seq<Action>, b: nat)
    requires LinearShape(top, b)
    ensures AllLeaves(top) && forall a | a in top :: !Extracts(a.op) && !a.op.StartCapture? && !a.op.StopCapture?
  {
    forall a | a in top
      ensures a.branches.Absent? && !a.op.FirstSuccess? && !a.op.Unsupported? && !Extracts(a.op) && !a.op.StopCapture?
    {
      var i :| 0 <= i < |top| && top[i] == a;
      assert InPlace(top, b, i);
    }
  }

  lemma ShapeOnly(top: seq<Action>, b: nat, op: Op, k: nat)
    requires LinearShape(top, b) && k < |top|
    requires (op == OpenOrFocusExactUrl && k == 0) || (op == AttachDebugger && k == 1) ||
             (op == BeforeMutation && k == b) || (op == DetachDebugger && k == |top| - 1)
    ensures Only(top, op, k)
  {
    ShapeLeaves(top, b);
    forall i | 0 <= i < |top|
      ensures top[i].op == op <==> i == k
    {
      assert InPlace(top, b, i);
    }
    OnlyAt(top, op, k);
  }

  lemma ShapeLifecycle(top: seq<Action>, b: nat)
    requires LinearShape(top, b)
    ensures LifecycleShape(top, 1, |top| - 1)
  {
    ShapeOnly(top, b, OpenOrFocusExactUrl, 0);
    ShapeOnly(top, b, AttachDebugger, 1);
    ShapeOnly(top, b, DetachDebugger, |top| - 1);
  }

  lemma ShapeBoundary(top: seq<Action>, b: nat)
    requires LinearShape(top, b)
    ensures BoundaryShape(top, b)
  {
    ShapeOnly(top, b, BeforeMutation, b);
    ShapeLeaves(top, b);
    CountZero(top[b + 1..], FirstSuccess);
  }

  lemma ShapeCaptures(top: seq<Action>, b: nat, kind: CaptureKind)
    requires LinearShape(top, b)
    ensures CapturePaired(top, kind)
  {
    ShapeLeaves(top, b);
    AbsentFlat(top, StartCapture(kind));
    AbsentFlat(top, StopCapture(kind));
  }

  lemma ShapeValid(p: Program, b: nat)
    requires LinearShape(p.actions, b) && p.privateFields == []
    ensures AllValid(p.actions, p) && FieldsMatch(p.actions, p)
  {
    forall a | a in p.actions
      ensures ValidAction(a, p) && !Extracts(a.op)
    {
      var i :| 0 <= i < |p.actions| && p.actions[i] == a;
      assert InPlace(p.actions, b, i);
    }
  }

  lemma ShapeLawful(p: Program, b: nat)
    requires LinearShape(p.actions, b) && p.privateFields == [] && p.capability == Mutation
    requires |p.actions| <= p.limits.maxActions
    ensures Lawful(p) && Flatten(p.actions, 0).Ok?
  {
    ShapeLeaves(p.actions, b);
    LeavesFlat(p.actions, 0);
    ShapeValid(p, b);
    ShapeLifecycle(p.actions, b);
    ShapeBoundary(p.actions, b);
    ShapeCaptures(p.actions, b, LogCapture);
    ShapeCaptures(p.actions, b, RequestCapture);
    ShapeCaptures(p.actions, b, ConsoleCapture);
    ShapeCaptures(p.actions, b, DownloadCapture);
  }

  /** Every linear program of plain actions with a valid target and room in its limits is accepted. */
  lemma LinearAccepted(target: Target, limits: Limits, before: seq<Action>, after: seq<Action>)
    requires ValidTarget(target) && PolicyUrl(target.url, target, true)
    requires 1000 <= limits.timeoutMs <= 300000 && limits.maxActions <= 200 && 1 <= limits.maxRepeat <= 20
    requires (forall a | a in before + after :: Plain(a)) && |before| + |after| + 4 <= limits.maxActions
    ensures Accepted(LinearProgram(target, limits, before, after))
  {
    var p := LinearProgram(target, limits, before, after);
    LinearHasShape(before, after);
    LinearDeclared(target, limits, before, after);
    ShapeAccepted(p, 2 + |before|);
  }

  lemma LinearDeclared(target: Target, limits: Limits, before: seq<Action>, after: seq<Action>)
    requires ValidTarget(target) && PolicyUrl(target.url, target, true)
    requires 1000 <= limits.timeoutMs <= 300000 && 1 <= limits.maxActions <= 200 && 1 <= limits.maxRepeat <= 20
    ensures ValidDeclarations(LinearProgram(target, limits, before, after))
    ensures |Linear(before, after)| == |before| + |after| + 4
  {
  }

  lemma ShapeAccepted(p: Program, b: nat)
    requires LinearShape(p.actions, b) && p.privateFields == [] && p.capability == Mutation
    requires |p.actions| <= p.limits.maxActions && ValidDeclarations(p)
    ensures Accepted(p)
  {
    ShapeLawful(p, b);
    LawfulAccepted(p);
  }

  lemma LawfulAccepted(p: Program)
    requires Flatten(p.actions, 0).Ok? && Lawful(p) && ValidDeclarations(p) && p.capability == Mutation
    ensures Accepted(p)
  {
    AcceptedComplete(p);
  }
}
