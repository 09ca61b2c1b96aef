/**
 * What each action needs of the session it starts in, and what a success leaves (extension/executor.mjs). A program
 * whose actions all fit, one after the other, can only fail for a cause outside the executor.
 */
module Fitting {
  import opened Common
  import opened Program
  import opened Acceptance
  import opened LinearPrograms

  /** Whether a tab is open, one was shared, the debugger is attached, captures run, and the mutation has begun. */
  datatype Stage = Stage(open: bool, shared: bool, attached: bool, captures: set<CaptureKind>, begun: bool)

  /** A tab was shared, and nothing has happened yet. */
  const FIRST := Stage(false, true, false, {}, false)

  /** The program's capability, and which optional interfaces the browser has. */
  datatype Setting = Setting(mutation: bool, debuggerEvents: bool, downloadEvents: bool)

  /** A handler that is started here does not fail on its own account. */
  predicate FitsLeaf(op: Op, setting: Setting, q: Stage) {
    match op
    case OpenOrFocusExactUrl => !q.open && q.shared
    case NavigateSameOrigin => q.attached
    case NavigateHistory => q.attached
    case ReloadExactTarget => q.attached
    case CreateSameOriginTab => !q.attached
    case CloseTargetTab => !q.attached
    case AttachDebugger => q.open && !q.attached
    case DetachDebugger => q.attached
    case BeforeMutation => setting.mutation && q.open && !q.begun
    case StartCapture(kind) =>
      kind !in q.captures &&
      if kind == DownloadCapture then setting.downloadEvents else q.attached && setting.debuggerEvents
    case StopCapture(kind) => kind in q.captures && (kind == DownloadCapture || q.attached)
    case WaitDuration => true
    case AssertExactTarget => q.open
    case Unsupported(_) => false
    case FirstSuccess => false
    case _ => q.attached
  }

  /** The session after that handler succeeded. */
  function AfterLeaf(op: Op, q: Stage): Stage {
    match op
    case OpenOrFocusExactUrl => q.(open := true)
    case CreateSameOriginTab => q.(open := true, shared := true)
    case CloseTargetTab => q.(open := false)
    case AttachDebugger => q.(attached := true)
    case DetachDebugger => q.(attached := false)
    case BeforeMutation => q.(begun := true)
    case StartCapture(kind) => q.(captures := q.captures + {kind})
    case StopCapture(kind) => q.(captures := q.captures - {kind})
    case _ => q
  }

  /** A choice fits if its first branch does: no other is tried then. */
  predicate FitsOne(a: Action, setting: Setting, q: Stage)
    decreases a, 0
  {
    if a.op.FirstSuccess? then
      a.branches.Present? && a.branches.list != [] && FitsAll(a.branches.list[0].body, setting, q)
    else FitsLeaf(a.op, setting, q)
  }

  function AfterOne(a: Action, q: Stage): Stage
    decreases a, 0
  {
    if a.op.FirstSuccess? then
      if a.branches.Present? && a.branches.list != [] then AfterAll(a.branches.list[0].body, q) else q
    else AfterLeaf(a.op, q)
  }

  predicate FitsAll(actions: seq<Action>, setting: Setting, q: Stage)
    decreases actions, 1
  {
    actions == [] ||
    (FitsOne(actions[0], setting, q) && FitsAll(actions[1..], setting, AfterOne(actions[0], q)))
  }

  function AfterAll(actions: seq<Action>, q: Stage): Stage
    decreases actions, 1
  {
    if actions == [] then q else AfterAll(actions[1..], AfterOne(actions[0], q))
  }

  /** The actions from `i` on fit where the first `i` have led, and lead where all of them lead. */
  ghost predicate OnCourse(actions: seq<Action>, i: nat, setting: Setting, first: Stage, q: Stage) {
    i <= |actions| &&
    (FitsAll(actions, setting, first) ==>
       FitsAll(actions[i..], setting, q) && AfterAll(actions[i..], q) == AfterAll(actions, first))
  }

  lemma OnCourseAtFirst(actions: seq<Action>, setting: Setting, q: Stage)
    ensures OnCourse(actions, 0, setting, q, q)
  {
    assert actions[0..] == actions;
  }

  lemma OnCourseNext(actions: seq<Action>, i: nat, setting: Setting, first: Stage, q: Stage, next: Stage)
    requires OnCourse(actions, i, setting, first, q) && i < |actions|
    requires FitsAll(actions, setting, first) ==> next == AfterOne(actions[i], q)
    ensures FitsAll(actions, setting, first) ==> FitsOne(actions[i], setting, q)
    ensures OnCourse(actions, i + 1, setting, first, next)
  {
    var rest := actions[i..];
    assert rest[0] == actions[i] && rest[1..] == actions[i + 1..];
  }

  lemma OnCourseAtLast(actions: seq<Action>, setting: Setting, first: Stage, q: Stage)
    requires OnCourse(actions, |actions|, setting, first, q)
    ensures FitsAll(actions, setting, first) ==> q == AfterAll(actions, first)
  {
    assert actions[|actions|..] == [];
  }

  // ----- linear programs

  lemma {:induction false} AttachedPlainFits(actions: seq<Action>, setting: Setting, q: Stage)
    requires q.open && q.attached && forall a | a in actions :: Plain(a) && a.op != CloseTargetTab
    ensures FitsAll(actions, setting, q) && AfterAll(actions, q) == q
    decreases |actions|
  {
    if actions != [] {
      assert actions[0] in actions;
      assert FitsOne(actions[0], setting, q) && AfterOne(actions[0], q) == q;
      AttachedPlainFits(actions[1..], setting, q);
    }
  }

  lemma {:induction false} FitsConcat(a: seq<Action>, b: seq<Action>, setting: Setting, q: Stage)
    ensures FitsAll(a + b, setting, q) <==> FitsAll(a, setting, q) && FitsAll(b, setting, AfterAll(a, q))
    ensures AfterAll(a + b, q) == AfterAll(b, AfterAll(a, q))
    decreases |a|
  {
    if a == [] {
      assert a + b == b;
    } else {
      assert (a + b)[1..] == a[1..] + b;
      FitsConcat(a[1..], b, setting, AfterOne(a[0], q));
    }
  }

  lemma OneFits(op: Op, setting: Setting, q: Stage)
    requires !op.FirstSuccess?
    ensures FitsAll([Leaf(op)], setting, q) <==> FitsLeaf(op, setting, q)
    ensures AfterAll([Leaf(op)], q) == AfterLeaf(op, q)
  {
    assert [Leaf(op)][1..] == [];
  }

  lemma OpensAndAttaches(setting: Setting)
    ensures var start := [Leaf(OpenOrFocusExactUrl), Leaf(AttachDebugger)];
            FitsAll(start, setting, FIRST) && AfterAll(start, FIRST) == FIRST.(open := true, attached := true)
  {
    OneFits(OpenOrFocusExactUrl, setting, FIRST);
    OneFits(AttachDebugger, setting, FIRST.(open := true));
    FitsConcat([Leaf(OpenOrFocusExactUrl)], [Leaf(AttachDebugger)], setting, FIRST);
    assert [Leaf(OpenOrFocusExactUrl)] + [Leaf(AttachDebugger)] == [Leaf(OpenOrFocusExactUrl), Leaf(AttachDebugger)];
  }

  /** Every linear program that does not close its tab fits. */
  lemma LinearFits(before: seq<Action>, after: seq<Action>, setting: Setting)
    requires setting.mutation && forall a | a in before + after :: Plain(a) && a.op != CloseTargetTab
    ensures FitsAll(Linear(before, after), setting, FIRST)
  {
    assert forall a | a in before || a in after :: a in before + after;
    var start, boundary, stop := [Leaf(OpenOrFocusExactUrl), Leaf(AttachDebugger)], [Leaf(BeforeMutation)],
      [Leaf(DetachDebugger)];
    var ready := FIRST.(open := true, attached := true);
    var begun := ready.(begun := true);
    OpensAndAttaches(setting);
    AttachedPlainFits(before, setting, ready);
    OneFits(BeforeMutation, setting, ready);
    AttachedPlainFits(after, setting, begun);
    OneFits(DetachDebugger, setting, begun);
    FitsConcat(start, before, setting, FIRST);
    FitsConcat(start + before, boundary, setting, FIRST);
    FitsConcat(start + before + boundary, after, setting, FIRST);
    FitsConcat(start + before + boundary + after, stop, setting, FIRST);
  }

  lemma ClosingWhileAttached(setting: Setting, rest: seq<Action>)
    ensures var start := [Leaf(OpenOrFocusExactUrl), Leaf(AttachDebugger)];
            !FitsAll(start + ([Leaf(CloseTargetTab)] + rest), setting, FIRST)
  {
    var start := [Leaf(OpenOrFocusExactUrl), Leaf(AttachDebugger)];
    OpensAndAttaches(setting);
    FitsConcat(start, [Leaf(CloseTargetTab)] + rest, setting, FIRST);
    assert ([Leaf(CloseTargetTab)] + rest)[0] == Leaf(CloseTargetTab);
  }

  /** Acceptance alone is not enough: a program may be accepted and yet close its tab while the debugger is attached. */
  lemma AcceptedNeedNotFit(target: Target, limits: Limits, setting: Setting) returns (p: Program)
    requires ValidTarget(target) && PolicyUrl(target.url, target, true)
    requires 1000 <= limits.timeoutMs <= 300000 && 5 <= limits.maxActions <= 200 && 1 <= limits.maxRepeat <= 20
    ensures Accepted(p) && p.capability == Mutation && !FitsAll(p.actions, setting, FIRST)
  {
    var close := [Leaf(CloseTargetTab)];
    p := LinearProgram(target, limits, close, []);
    assert close + [] == close && Plain(Leaf(CloseTargetTab));
    LinearAccepted(target, limits, close, []);
    var rest := [Leaf(BeforeMutation)] + [] + [Leaf(DetachDebugger)];
    ClosingWhileAttached(setting, rest);
    LinearRegrouped(close, []);
  }

  lemma LinearRegrouped(before: seq<Action>, after: seq<Action>)
    ensures Linear(before, after) ==
            [Leaf(OpenOrFocusExactUrl), Leaf(AttachDebugger)] +
            (before + ([Leaf(BeforeMutation)] + after + [Leaf(DetachDebugger)]))
  {
  }
}
