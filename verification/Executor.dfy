/**
 * The interpreter of accepted programs (extension/executor.mjs) against an adversarial browser.
 *
 * Every await is a turn of the event loop: the clock may read any later time, the job may be cancelled, child frames
 * come and go, and the browser's answer is arbitrary. `Valid` is required and ensured around every such turn.
 */
module Executor {
  import opened Common
  import opened Program
  import opened Acceptance
  import opened ExecutorModel
  import opened Fitting
  import opened RunLaws
  import opened Waits

  /** Operations that change the session, the boundary, the captures or the private results. */
  predicate HasEffect(op: Op) {
    op.AttachDebugger? || op.DetachDebugger? || op.BeforeMutation? || op.StartCapture? || op.StopCapture? ||
    WritesPrivateResult(op)
  }

  lemma QuietEffect(a: Action, s: Snap, o: Outcome)
    requires !HasEffect(a.op)
    ensures LeafEffect(a, s, s, o)
  {
  }

  lemma SessionEffect(a: Action, s: Snap, t: Snap, o: Outcome)
    requires a.op.AttachDebugger? || (a.op.DetachDebugger? && (t.attached ==> s.attached) && (o.Done? ==> !t.attached))
    requires t == s.(attached := t.attached)
    ensures LeafEffect(a, s, t, o)
  {
  }

  lemma BoundaryEffect(a: Action, s: Snap, t: Snap, o: Outcome)
    requires a.op.BeforeMutation?
    requires t == s.(granted := t.granted, mutationStarted := t.mutationStarted, startedAt := t.startedAt)
    requires o.Done? ==> t.mutationStarted && t.startedAt == |t.counted| && t.granted
    requires o.Failed? ==> t.mutationStarted == s.mutationStarted && t.startedAt == s.startedAt
    ensures LeafEffect(a, s, t, o)
  {
  }

  lemma WriteEffect(a: Action, s: Snap, t: Snap, o: Outcome, before: seq<Slot>, after: seq<Slot>)
    requires WritesPrivateResult(a.op) && a.field.Some? && Wrote(before, after, a.field.value, o)
    requires s.fields == Fields(before) && t == s.(fields := Fields(after))
    ensures LeafEffect(a, s, t, o)
  {
  }

  lemma StartEffect(a: Action, s: Snap, t: Snap, o: Outcome)
    requires a.op.StartCapture? && a.field.Some?
    requires t == s.(captures := if o.Done? then s.captures[a.op.kind := a.field.value] else s.captures)
    ensures LeafEffect(a, s, t, o)
  {
  }

  lemma StopEffect(a: Action, s: Snap, t: Snap, o: Outcome, before: seq<Slot>, after: seq<Slot>)
    requires a.op.StopCapture? && CaptureStopped(a.op.kind, false, s.captures, t.captures, before, after, o)
    requires s.fields == Fields(before) && t == s.(captures := t.captures, fields := Fields(after))
    ensures LeafEffect(a, s, t, o)
  {
  }

  lemma NoCaptures(captures: map<CaptureKind, string>)
    requires LogCapture !in captures && RequestCapture !in captures && ConsoleCapture !in captures &&
             DownloadCapture !in captures
    ensures captures == map[] && captures.Keys == {}
  {
    forall kind: CaptureKind
      ensures kind !in captures
    {
      match kind
      case LogCapture =>
      case RequestCapture =>
      case ConsoleCapture =>
      case DownloadCapture =>
    }
  }

  /** An action that was counted but whose handler did not run. */
  lemma CountedStep(a: Action, s: Snap, o: Outcome)
    requires o.Failed?
    ensures ActionStep(a, s, s.(counted := s.counted + [a]), o)
  {
    var t := s.(counted := s.counted + [a]);
    assert t.counted[|s.counted|..] == [a];
    assert FlatAction(a)[0] == a;
    assert [a][1..] == [];
  }

  lemma LeafEffectStep(a: Action, s: Snap, m: Snap, t: Snap, o: Outcome)
    requires a.branches.Absent? && m == s.(counted := s.counted + [a]) && LeafEffect(a, m, t, o)
    requires Finishes(a, s.completed, Ended(a, t, o).completed, o)
    ensures ActionStep(a, s, Ended(a, t, o), o)
  {
    var u := Ended(a, t, o);
    assert u.counted[|s.counted|..] == [a] == FlatAction(a);
    assert [a][1..] == [];
    forall kind | CaptureFree([a], kind)
      ensures SameCapture(s, u, kind)
    {
      assert a.op != StartCapture(kind) && a.op != StopCapture(kind);
      assert SameCapture(m, t, kind) ==> SameCapture(s, t, kind);
      if a.op.StartCapture? || a.op.StopCapture? {
        assert a.op == StartCapture(a.op.kind) || a.op == StopCapture(a.op.kind);
      }
    }
  }

  /** A choice that is done completed all actions of one of its branches. */
  ghost predicate BranchesFinish(list: seq<Branch>, before: seq<Action>, after: seq<Action>, o: Outcome) {
    Adds(before, after) && (o.Done? ==> RanThrough(list, after[|before|..]))
  }

  /** What the handler of an action may do before the action is completed. */
  ghost predicate HandlerEffect(a: Action, s: Snap, t: Snap, o: Outcome) {
    if a.branches.Present? then
      a.op.FirstSuccess? && Within(FlatBranches(a.branches.list), s, t, Keeps(o)) &&
      BranchesFinish(a.branches.list, s.completed, t.completed, o)
    else LeafEffect(a, s, t, o)
  }

  /** A successful action is completed once its handler is done. */
  function Ended(a: Action, t: Snap, o: Outcome): Snap {
    if o.Done? then t.(completed := t.completed + [a]) else t
  }

  lemma FinishedBranches(a: Action, before: seq<Action>, mid: seq<Action>, o: Outcome)
    requires a.branches.Present? && BranchesFinish(a.branches.list, before, mid, o)
    ensures Finishes(a, before, if o.Done? then mid + [a] else mid, o)
  {
    if o.Done? {
      RanThroughMore(a.branches.list, before, mid[|before|..]);
      assert mid == before + mid[|before|..];
      OneMoreCompleted(mid, a);
      AddsOn(before, mid, mid + [a]);
      assert (mid + [a])[|before|..|mid|] == mid[|before|..];
    }
  }

  lemma HandledStep(a: Action, s: Snap, m: Snap, t: Snap, o: Outcome)
    requires m == s.(counted := s.counted + [a]) && HandlerEffect(a, m, t, o)
    ensures ActionStep(a, s, Ended(a, t, o), o)
  {
    if a.branches.Present? {
      FinishedBranches(a, s.completed, t.completed, o);
      BranchesStep(a, s, m, t, o);
    } else {
      OneMoreCompleted(s.completed, a);
      LeafEffectStep(a, s, m, t, o);
    }
  }

  lemma OwnStep(a: Action, s: Snap, m: Snap)
    requires m == s.(counted := s.counted + [a])
    ensures Within([a], s, m, true)
  {
    assert m.counted[|s.counted|..] == [a];
    SubseqOne(a);
    forall kind
      ensures SameCapture(s, m, kind)
    {
    }
  }

  lemma BranchesStep(a: Action, s: Snap, m: Snap, t: Snap, o: Outcome)
    requires a.op.FirstSuccess? && a.branches.Present? && m == s.(counted := s.counted + [a])
    requires Within(FlatBranches(a.branches.list), m, t, Keeps(o))
    requires Finishes(a, s.completed, Ended(a, t, o).completed, o)
    ensures ActionStep(a, s, Ended(a, t, o), o)
  {
    ChoiceWithin(a, s, m, t, o);
    SameButCompleted(FlatAction(a), s, t, Ended(a, t, o), Keeps(o));
    ChoiceStep(a, s, Ended(a, t, o), o);
  }

  lemma ChoiceWithin(a: Action, s: Snap, m: Snap, t: Snap, o: Outcome)
    requires a.branches.Present? && m == s.(counted := s.counted + [a])
    requires Within(FlatBranches(a.branches.list), m, t, Keeps(o))
    ensures Within(FlatAction(a), s, t, Keeps(o)) && |s.counted| < |t.counted| && t.counted[|s.counted|] == a
  {
    OwnStep(a, s, m);
    WithinCompose([a], FlatBranches(a.branches.list), s, m, t, Keeps(o));
  }

  lemma ChoiceStep(a: Action, s: Snap, u: Snap, o: Outcome)
    requires a.op.FirstSuccess? && a.branches.Present? && Within(FlatAction(a), s, u, Keeps(o))
    requires |s.counted| < |u.counted| && u.counted[|s.counted|] == a && Finishes(a, s.completed, u.completed, o)
    ensures ActionStep(a, s, u, o)
  {
  }

  lemma SameButCompleted(flat: seq<Action>, s: Snap, t: Snap, u: Snap, keeps: bool)
    requires Within(flat, s, t, keeps) && u == t.(completed := u.completed)
    ensures Within(flat, s, u, keeps)
  {
    forall kind | CaptureFree(flat, kind)
      ensures SameCapture(s, u, kind)
    {
      assert SameCapture(s, t, kind);
    }
  }

  lemma {:induction false} FlatBranchesConcat(xs: seq<Branch>, ys: seq<Branch>)
    ensures FlatBranches(xs + ys) == FlatBranches(xs) + FlatBranches(ys)
    decreases |xs|
  {
    if xs == [] {
      assert xs + ys == ys;
    } else {
      assert (xs + ys)[1..] == xs[1..] + ys;
      FlatBranchesConcat(xs[1..], ys);
    }
  }

  lemma BranchesSnoc(list: seq<Branch>, i: nat)
    requires i < |list|
    ensures FlatBranches(list[..i + 1]) == FlatBranches(list[..i]) + Flat(list[i].body)
  {
    assert list[..i + 1] == list[..i] + [list[i]];
    FlatBranchesConcat(list[..i], [list[i]]);
    var one := [list[i]];
    assert one[1..] == [] && FlatBranches(one) == Flat(one[0].body) + [];
  }

  lemma BranchesCut(list: seq<Branch>, i: nat)
    requires i <= |list|
    ensures FlatBranches(list) == FlatBranches(list[..i]) + FlatBranches(list[i..])
  {
    assert list == list[..i] + list[i..];
    FlatBranchesConcat(list[..i], list[i..]);
  }

  lemma BranchInside(list: seq<Branch>, i: nat, s: Snap, m: Snap)
    requires i < |list| && Within(FlatBranches(list[..i]), s, m, true)
    ensures forall x | x in Flat(list[i].body) :: x in FlatBranches(list)
    ensures |m.counted| + |Flat(list[i].body)| <= |s.counted| + |FlatBranches(list)|
  {
    BranchesSnoc(list, i);
    BranchesCut(list, i + 1);
    SubseqLength(m.counted[|s.counted|..], FlatBranches(list[..i]));
  }

  lemma BranchRan(list: seq<Branch>, i: nat, s: Snap, m: Snap, snaps: seq<Snap>, t: Snap, o: Outcome)
    requires i < |list| && Within(FlatBranches(list[..i]), s, m, true)
    requires ListRun(list[i].body, snaps, t, o) && snaps[0] == m
    ensures Within(FlatBranches(list[..i + 1]), s, t, Keeps(o))
    ensures Within(FlatBranches(list), s, t, Keeps(o))
  {
    RunWithin(list[i].body, snaps, t, o);
    BranchesSnoc(list, i);
    WithinCompose(FlatBranches(list[..i]), Flat(list[i].body), s, m, t, Keeps(o));
    BranchesCut(list, i + 1);
    WithinWiden(FlatBranches(list[..i + 1]), FlatBranches(list[i + 1..]), s, t, Keeps(o));
  }

  lemma WithinAs(flat: seq<Action>, s: Snap, t: Snap, o: Outcome, r: Outcome)
    requires Within(flat, s, t, Keeps(o)) && (Keeps(r) ==> Keeps(o))
    ensures Within(flat, s, t, Keeps(r))
  {
  }

  /** Cleanup keeps the guarantee, and a clean success leaves exactly the declared private results. */
  lemma GuaranteeAfterCleanup(p: Program, s: Snap, t: Snap, o: Outcome)
    requires FieldsMatch(Flat(p.actions), p) && RunGuarantee(p, s, o) && t == s.(attached := false, captures := map[])
    requires forall f | f in t.fields :: f in p.privateFields
    ensures RunGuarantee(p, t, o)
    ensures o.Done? && ExtractionsTopLevel(p) ==> t.fields == set f | f in p.privateFields
  {
    SameGuarantee(p, s, t, o);
    if o.Done? && ExtractionsTopLevel(p) {
      ExactlyDeclared(p, t);
    }
  }

  lemma SameGuarantee(p: Program, s: Snap, t: Snap, o: Outcome)
    requires RunGuarantee(p, s, o) && t == s.(attached := false, captures := map[])
    ensures RunGuarantee(p, t, o)
  {
    if b :| ContiguousAfter(p.actions, b, s, o) {
      assert ContiguousAfter(p.actions, b, t, o);
    }
  }

  /** After `k` actions no more were counted than their flattening holds. */
  lemma ChainCounts(actions: seq<Action>, snaps: seq<Snap>, k: nat)
    requires Chain(actions, snaps) && k < |snaps|
    ensures |snaps[k].counted| <= |snaps[0].counted| + |Flat(actions[..k])|
  {
    ChainWithin(actions, snaps, 0, k);
    assert actions[0..k] == actions[..k];
    SubseqLength(snaps[k].counted[|snaps[0].counted|..], Flat(actions[..k]));
  }

  lemma ListHalts(actions: seq<Action>, snaps: seq<Snap>, o: Outcome)
    requires Chain(actions, snaps) && |snaps| <= |actions| && o.Failed?
    ensures ListRun(actions, snaps, snaps[|snaps| - 1], o)
  {
  }

  lemma ListStep(actions: seq<Action>, snaps: seq<Snap>, t: Snap, o: Outcome)
    requires Chain(actions, snaps) && |snaps| <= |actions|
    requires ActionStep(actions[|snaps| - 1], snaps[|snaps| - 1], t, o)
    ensures o.Done? ==> Chain(actions, snaps + [t])
    ensures o.Failed? ==> ListRun(actions, snaps, t, o)
  {
    if o.Done? {
      ChainSnoc(actions, snaps, t);
    }
  }

  /** What the next action may rely on: it is well placed and valid, and the budget covers it. */
  lemma NextAction(actions: seq<Action>, i: nat, p: Program)
    requires i < |actions| && BranchesWellPlaced(Flat(actions)) && AllValid(Flat(actions), p)
    ensures BranchesWellPlaced(FlatAction(actions[i])) && AllValid(FlatAction(actions[i]), p)
    ensures |Flat(actions[..i])| + |FlatAction(actions[i])| <= |Flat(actions)|
  {
    TopMembersInFlat(actions, i);
    FlatSnoc(actions, i);
    FlatCut(actions, i + 1);
  }

  /** The closures passed to `waitFor`. */
  datatype WaitOperation = TabShows(url: Url) | ExactTarget | PageCondition | DownloadsFinished

  /** The listeners that belong to an attached session and to the given running captures. */
  predicate Belongs(l: Listener, session: bool, running: map<CaptureKind, string>) {
    match l
    case TargetEvents => session
    case CaptureEvents(kind) => kind != DownloadCapture && kind in running
    case _ => DownloadCapture in running
  }

  function ListenersOf(kind: CaptureKind): set<Listener> {
    if kind == DownloadCapture then {DownloadCreated, DownloadChanged} else {CaptureEvents(kind)}
  }

  lemma CapturesStart(attached: bool, session: bool, listeners: set<Listener>, captures: map<CaptureKind, string>,
                      declared: seq<string>, kind: CaptureKind, field: string)
    requires CapturesValid(attached, session, listeners, captures, declared) && kind !in captures && field in declared
    ensures CapturesValid(attached, session, listeners + ListenersOf(kind), captures[kind := field], declared)
    ensures captures[kind := field] - {kind} == captures
  {
  }

  lemma CapturesStop(attached: bool, session: bool, listeners: set<Listener>, captures: map<CaptureKind, string>,
                     declared: seq<string>, kind: CaptureKind)
    requires CapturesValid(attached, session, listeners, captures, declared)
    ensures CapturesValid(attached, session, listeners - ListenersOf(kind), captures - {kind}, declared)
  {
  }

  /** The fields agree with the history, and the history is guarded. */
  ghost predicate SessionValid(p: Program, deadline: int, attached: bool, tabId: Option<TabId>, expectedUrl: Url,
                               checked: bool, begun: bool, trace: History) {
    Guarded(p.target, deadline, trace) && attached == AttachedAt(trace).Some? &&
    (attached ==> tabId == AttachedAt(trace)) && AimedAt(trace, p.target.url) == Some(expectedUrl) &&
    InTarget(expectedUrl, p.target) && (checked ==> tabId.Some? && CheckedTab(trace) == tabId) && begun == Began(trace)
  }

  /** Private results are declared and fit the byte budget. */
  ghost predicate ResultsValid(results: seq<Slot>, declared: seq<string>) {
    DistinctFields(results) && EncodedBytes(results) <= MAX_PRIVATE_RESULTS_BYTES &&
    forall f | f in Fields(results) :: f in declared
  }

  /** Registered listeners are exactly those of the attached session and of the running captures. */
  ghost predicate CapturesValid(attached: bool, session: bool, listeners: set<Listener>,
                                captures: map<CaptureKind, string>, declared: seq<string>) {
    (session ==> attached) && (forall l :: l in listeners <==> Belongs(l, session, captures)) &&
    forall kind | kind in captures :: captures[kind] in declared
  }

  /** Success writes exactly `field`; a failure that branches recover from loses nothing. */
  ghost predicate Wrote(before: seq<Slot>, after: seq<Slot>, field: string, r: Outcome) {
    (r.Done? ==> Fields(after) == Fields(before) + {field}) && (Keeps(r) ==> Fields(before) <= Fields(after))
  }

  /** Success ends the capture, and unless it is cleanup delivers its private result. */
  ghost predicate CaptureStopped(kind: CaptureKind, bestEffort: bool,
                                 before: map<CaptureKind, string>, after: map<CaptureKind, string>,
                                 resultsBefore: seq<Slot>, resultsAfter: seq<Slot>, r: Outcome) {
    (after == before || after == before - {kind}) && (r.Done? ==> kind !in after) &&
    (if bestEffort then r.Done? && resultsAfter == resultsBefore
     else r.Done? ==> kind in before && Fields(resultsAfter) == Fields(resultsBefore) + {before[kind]}) &&
    (Keeps(r) ==> Fields(resultsBefore) <= Fields(resultsAfter))
  }

  /** A wait for the exact target ended with it. */
  ghost predicate SettledOn(trace: History, tabId: Option<TabId>, url: Url) {
    trace.Then? && trace.event == Evaluated(Done) && JustChecked(trace.before, tabId, url)
  }

  /** A wait ended with the tab showing the URL, completely loaded. */
  ghost predicate JustLoaded(trace: History, url: Url) {
    trace.Then? && trace.event == Evaluated(Done) && trace.before.Then? && trace.before.event.Seen? &&
    trace.before.event.view.url == url && trace.before.event.view.complete
  }

  /** The clock was read twice, with time left the second time, and one evaluation ended with `o`. */
  ghost predicate OneLook(base: History, trace: History, o: Outcome) {
    trace.Then? && trace.event == Evaluated(o) && trace.before.Then? && trace.before.event == Evaluating &&
    trace.before.before.Then? && trace.before.before.event.Clock? && trace.before.before.before.Then? &&
    trace.before.before.before.event.Clock? && trace.before.before.before.before == base
  }

  /** A branch that ended with `o`: rethrown unless recoverable, and then the target check decides. */
  predicate Settles(o: Outcome, r: Outcome, settled: bool) {
    if o.Failed? && RecoverableBranch(o.code)
    then settled == r.Failed? && (r.Failed? ==> r.code in {TargetTabMissing, TargetTabLost, TargetFocusDrift})
    else settled && r == o
  }

  /**
   * One branch that was tried: its run, its outcome, and, if the next one may be tried, the history up to the target
   * check that passed.
   */
  datatype Try = Try(
    snaps: seq<Snap>, end: Snap, outcome: Outcome, passed: bool, after: History, tab: Option<TabId>, url: Url)

  /** The branch was run to its outcome; it was given up only for a recoverable failure and a passing check. */
  ghost predicate Tried(branch: Branch, start: Snap, y: Try) {
    ListRun(branch.body, y.snaps, y.end, y.outcome) && y.snaps[0] == start &&
    (y.passed ==>
       y.outcome.Failed? && RecoverableBranch(y.outcome.code) && JustChecked(y.after, y.tab, y.url))
  }

  /** The branches tried so far, the latest outermost. */
  datatype Tries = NoTries | AndThen(before: Tries, last: Try)

  function TryCount(tries: Tries): nat {
    if tries.NoTries? then 0 else TryCount(tries.before) + 1
  }

  function LeftAt(tries: Tries, s: Snap): Snap {
    if tries.NoTries? then s else tries.last.end
  }

  /** The last branch that was tried is the one whose turn it was, from where the one before left off. */
  ghost predicate InTurn(list: seq<Branch>, s: Snap, tries: Tries)
    requires tries.AndThen?
  {
    TryCount(tries.before) < |list| &&
    Tried(list[TryCount(tries.before)], LeftAt(tries.before, s), tries.last)
  }

  /** Every branch that was tried was given up, in order. */
  ghost predicate GivenUp(list: seq<Branch>, s: Snap, tries: Tries) {
    tries.NoTries? || (GivenUp(list, s, tries.before) && InTurn(list, s, tries) && tries.last.passed)
  }

  /**
   * How a choice ends: with the first branch that was not given up, rethrowing its failure unless a target check
   * failed instead; or, if every branch was given up, with its own failure.
   */
  ghost predicate Decides(list: seq<Branch>, s: Snap, tries: Tries, r: Outcome) {
    if tries.AndThen? && !tries.last.passed
    then GivenUp(list, s, tries.before) && InTurn(list, s, tries) && Settles(tries.last.outcome, r, true)
    else GivenUp(list, s, tries) && TryCount(tries) == |list| && r == Failed(AllBranchesFailed)
  }

  /** Up to branch `i` only actions of the branches ran. */
  ghost predicate BranchWithin(list: seq<Branch>, i: nat, s: Snap, t: Snap, r: Outcome, settled: bool)
    requires i < |list|
  {
    if settled then Within(FlatBranches(list), s, t, Keeps(r)) else Within(FlatBranches(list[..i + 1]), s, t, true)
  }

  lemma BranchSettled(list: seq<Branch>, i: nat, s: Snap, t: Snap, o: Outcome, r: Outcome, settled: bool)
    requires i < |list| && Settles(o, r, settled)
    requires Within(FlatBranches(list), s, t, Keeps(o)) && Within(FlatBranches(list[..i + 1]), s, t, Keeps(o))
    ensures BranchWithin(list, i, s, t, r, settled)
  {
    if settled {
      WithinAs(FlatBranches(list), s, t, o, r);
    } else {
      WithinAs(FlatBranches(list[..i + 1]), s, t, o, Done);
    }
  }

  /** A choice that began at `s` has given up its first `i` branches and is at `t`. */
  ghost predicate Choosing(list: seq<Branch>, i: nat, s: Snap, tries: Tries, t: Snap) {
    i <= |list| && TryCount(tries) == i && Within(FlatBranches(list[..i]), s, t, true) &&
    GivenUp(list, s, tries) && LeftAt(tries, s) == t && Adds(s.completed, t.completed)
  }

  lemma NextTried(list: seq<Branch>, i: nat, s: Snap, tries: Tries, y: Try, start: Snap, r: Outcome, settled: bool)
    requires i < |list| && Choosing(list, i, s, tries, start) && Tried(list[i], start, y)
    requires y.passed == !settled && Settles(y.outcome, r, settled)
    ensures settled ==> Decides(list, s, AndThen(tries, y), r)
    ensures !settled ==> GivenUp(list, s, AndThen(tries, y))
    ensures settled ==> BranchesFinish(list, s.completed, y.end.completed, r)
    ensures Adds(s.completed, y.end.completed)
  {
    RanThroughBy(list, i, s.completed, y);
  }

  /** It ended, with `r` and in the state `t`: only its branches' actions ran, those of one of them all if done. */
  ghost predicate Chosen(list: seq<Branch>, s: Snap, tries: Tries, r: Outcome, t: Snap) {
    Decides(list, s, tries, r) && Within(FlatBranches(list), s, t, Keeps(r)) &&
    BranchesFinish(list, s.completed, t.completed, r)
  }

  /** The codes a list of actions may end with; within its budget the limit is not exceeded. */
  predicate EndsWell(p: Program, r: Outcome, budget: int) {
    (r.Failed? ==> PageCode(r.code) || r.code == ActionLimitExceeded) &&
    (budget <= p.limits.maxActions ==> r != Failed(ActionLimitExceeded))
  }

  /** The branch that ran through completed all its actions. */
  lemma RanThroughBy(list: seq<Branch>, i: nat, before: seq<Action>, y: Try)
    requires i < |list| && ListRun(list[i].body, y.snaps, y.end, y.outcome)
    requires Adds(before, y.snaps[0].completed)
    ensures BranchesFinish(list, before, y.end.completed, y.outcome)
  {
    RunFinishes(list[i].body, y.snaps, y.end, y.outcome);
    AddsOn(before, y.snaps[0].completed, y.end.completed);
    if y.outcome.Done? {
      var mid, done := y.snaps[0].completed, y.end.completed;
      assert RanThrough(list, done[|mid|..]);
      RanThroughMore(list, mid[|before|..], done[|mid|..]);
      assert done[|before|..] == mid[|before|..] + done[|mid|..];
    }
  }

  /** An open target was checked right after the action started, or nothing else of the action happened. */
  ghost predicate Entered(base: History, trace: History, action: Action, tabId: Option<TabId>, url: Url, r: Outcome) {
    Grew(Then(base, Start(action)), trace) &&
    (tabId.Some? && action.op != OpenOrFocusExactUrl ==>
       (r.Failed? && trace == Then(base, Start(action))) ||
       exists checked :: JustChecked(checked, tabId, url) && checked.before == Then(base, Start(action)) &&
                         Grew(checked, trace))
  }

  lemma EnteredBy(base: History, entered: History, trace: History, action: Action, tabId: Option<TabId>, url: Url,
                  r: Outcome)
    requires Grew(entered, trace)
    requires if tabId.Some? && action.op != OpenOrFocusExactUrl
             then (r.Failed? && trace == entered == Then(base, Start(action))) ||
                  (JustChecked(entered, tabId, url) && entered.before == Then(base, Start(action)))
             else entered == Then(base, Start(action))
    ensures Entered(base, trace, action, tabId, url, r)
  {
    GrewFurther(Then(base, Start(action)), entered, trace);
  }

  predicate IsTabAction(op: Op) {
    op in {OpenOrFocusExactUrl, NavigateSameOrigin, CreateSameOriginTab, NavigateHistory, CloseTargetTab,
           ReloadExactTarget, AssertExactTarget}
  }

  /** The target tab stays what it is and shows something else, or the same once more. */
  predicate IsNavigation(op: Op) {
    op in {NavigateSameOrigin, NavigateHistory, ReloadExactTarget}
  }

  /** The target of an executor: the open tab, the shared one, what it should show, and how it came about. */
  datatype TargetView = TargetView(
    tabId: Option<TabId>, targetTabId: Option<TabId>, expectedUrl: Url, attached: bool, createdTab: bool,
    closingTarget: bool)

  /** What the last events and the target are once a tab action has succeeded. */
  ghost predicate TabActionDone(a: Action, v: TargetView, trace: History) {
    match a.op
    case OpenOrFocusExactUrl => v.tabId == v.targetTabId && SettledOn(trace, v.tabId, v.expectedUrl)
    case NavigateSameOrigin => a.url == Some(v.expectedUrl) && JustLoaded(trace, v.expectedUrl)
    case NavigateHistory => a.url == Some(v.expectedUrl) && JustLoaded(trace, v.expectedUrl)
    case CreateSameOriginTab =>
      a.url == Some(v.expectedUrl) && v.createdTab && v.tabId == v.targetTabId &&
      JustChecked(trace, v.tabId, v.expectedUrl)
    case CloseTargetTab => v.closingTarget && v.tabId.None? && !v.attached
    case ReloadExactTarget => v.attached && JustLoaded(trace, v.expectedUrl)
    case AssertExactTarget => JustChecked(trace, v.tabId, v.expectedUrl)
    case _ => true
  }

  /** What one handler may change, given that its action was counted before it ran. */
  ghost predicate LeafEffect(a: Action, s: Snap, t: Snap, o: Outcome) {
    t.counted == s.counted && t.completed == s.completed &&
    (a.op != AttachDebugger ==> t.attached ==> s.attached) &&
    (a.op != BeforeMutation ==> SameBoundary(s, t)) &&
    (!a.op.StartCapture? && !a.op.StopCapture? ==> t.captures == s.captures) &&
    (a.op.StartCapture? || a.op.StopCapture? ==> forall kind | kind != a.op.kind :: SameCapture(s, t, kind)) &&
    (Keeps(o) ==> s.fields <= t.fields) &&
    (a.op == DetachDebugger && o.Done? ==> !t.attached) &&
    (a.op == BeforeMutation ==>
       if o.Done? then t.mutationStarted && t.startedAt == |t.counted| && t.granted
       else t.mutationStarted == s.mutationStarted && t.startedAt == s.startedAt) &&
    (o.Done? && WritesPrivateResult(a.op) ==> a.field.Some? && a.field.value in t.fields) &&
    (o.Done? && a.op.StartCapture? ==>
       a.field.Some? && a.op.kind in t.captures && t.captures[a.op.kind] == a.field.value) &&
    (o.Done? && a.op.StopCapture? ==> a.op.kind in s.captures && s.captures[a.op.kind] in t.fields)
  }

  lemma StartLeads(op: Op, setting: Setting, q: Stage, t: Stage, before: map<CaptureKind, string>,
                   after: map<CaptureKind, string>, field: string, r: Outcome, smooth: bool)
    requires op.StartCapture? && q.captures == before.Keys && t == q.(captures := after.Keys)
    requires after == if r.Done? then before[op.kind := field] else before
    requires smooth ==>
               r.Done? || op.kind in before ||
               (if op.kind == DownloadCapture then !setting.downloadEvents else !q.attached || !setting.debuggerEvents)
    ensures r.Done? ==> t == AfterLeaf(op, q)
    ensures smooth ==> r.Done? || !FitsLeaf(op, setting, q)
  {
  }

  lemma StopLeads(op: Op, setting: Setting, q: Stage, t: Stage, before: map<CaptureKind, string>,
                  after: map<CaptureKind, string>, r: Outcome, smooth: bool)
    requires op.StopCapture? && q.captures == before.Keys && t == q.(captures := after.Keys)
    requires (after == before || after == before - {op.kind}) && (r.Done? ==> op.kind !in after)
    requires smooth ==> r.Done? || op.kind !in before || (op.kind != DownloadCapture && !q.attached)
    ensures r.Done? ==> t == AfterLeaf(op, q)
    ensures smooth ==> r.Done? || !FitsLeaf(op, setting, q)
  {
  }

  /** The last thing that happened is this command. */
  predicate LastSent(trace: History, cdp: CdpMethod) {
    trace.Then? && trace.event.Sent? && trace.event.cdp == cdp
  }

  /** The history with these commands sent to the tab, one after the other. */
  ghost function SentAll(base: History, methods: seq<CdpMethod>, tab: TabId, cleanup: bool): History {
    if methods == [] then base
    else Then(SentAll(base, methods[..|methods| - 1], tab, cleanup), Sent(methods[|methods| - 1], tab, cleanup))
  }

  lemma SentOneMore(base: History, methods: seq<CdpMethod>, i: nat, tab: TabId, cleanup: bool)
    requires i < |methods|
    ensures SentAll(base, methods[..i + 1], tab, cleanup) ==
            Then(SentAll(base, methods[..i], tab, cleanup), Sent(methods[i], tab, cleanup))
  {
    assert methods[..i + 1][..i] == methods[..i];
  }

  lemma {:induction false} SentConcat(base: History, a: seq<CdpMethod>, b: seq<CdpMethod>, tab: TabId, cleanup: bool)
    ensures SentAll(base, a + b, tab, cleanup) == SentAll(SentAll(base, a, tab, cleanup), b, tab, cleanup)
    decreases |b|
  {
    if b == [] {
      assert a + b == a;
    } else {
      SentConcat(base, a, b[..|b| - 1], tab, cleanup);
      assert (a + b)[..|a + b| - 1] == a + b[..|b| - 1];
    }
  }

  function DomainsEnabled(base: History, tab: TabId, cleanup: bool): History {
    Then(Then(Then(base, Sent(DomEnable, tab, cleanup)), Sent(AccessibilityEnable, tab, cleanup)),
         Sent(PageEnable, tab, cleanup))
  }

  /** The debugger was attached and its three domains enabled, and then child frames were asked for, given events. */
  ghost predicate SessionBegun(base: History, trace: History, tab: TabId, cleanup: bool, events: bool) {
    var enabled := DomainsEnabled(Then(base, Attached(tab)), tab, cleanup);
    trace == if events then Then(enabled, Sent(TargetSetAutoAttach, tab, cleanup)) else enabled
  }

  /** The domains were disabled, first those of the child frames, and then the debugger was let go. */
  ghost predicate SessionClosed(
      base: History, trace: History, children: nat, tab: TabId, cleanup: bool, bestEffort: bool)
  {
    trace.Then? && trace.event.Released? && (bestEffort || trace.event.confirmed) &&
    trace.before == SentAll(base, seq(children, _ => AccessibilityDisable) +
                                  [AccessibilityDisable, DomDisable, PageDisable], tab, cleanup)
  }

  lemma ClosedBy(base: History, mid: History, trace: History, tab: TabId, cleanup: bool, bestEffort: bool)
    requires mid == SentAll(base, [AccessibilityDisable, DomDisable, PageDisable], tab, cleanup)
    requires trace.Then? && trace.before == mid && trace.event.Released? && (bestEffort || trace.event.confirmed)
    ensures SessionClosed(base, trace, 0, tab, cleanup, bestEffort)
  {
    var rest := [AccessibilityDisable, DomDisable, PageDisable];
    assert seq(0, _ => AccessibilityDisable) + rest == rest;
  }

  lemma ChildrenFirst(base: History, mid: History, trace: History, children: nat, tab: TabId, cleanup: bool,
                      bestEffort: bool)
    requires mid == SentAll(base, seq(children, _ => AccessibilityDisable), tab, cleanup)
    ensures SessionClosed(mid, trace, 0, tab, cleanup, bestEffort) ==>
              SessionClosed(base, trace, children, tab, cleanup, bestEffort)
  {
    var first, rest := seq(children, _ => AccessibilityDisable), [AccessibilityDisable, DomDisable, PageDisable];
    SentConcat(base, first, rest, tab, cleanup);
    assert seq(0, _ => AccessibilityDisable) + rest == rest;
  }

  /** While nothing goes wrong outside, what fits succeeds and leads where it should, unless the budget is used up. */
  ghost predicate Through(fits: bool, want: Stage, got: Stage, r: Outcome, smooth: bool) {
    smooth && fits ==> r == Failed(ActionLimitExceeded) || (r.Done? && got == want)
  }

  /** A choice without a branch left fails, and nothing else was to be expected of it. */
  lemma NoBranchLeft(p: Program, list: seq<Branch>, s: Snap, tries: Tries, t: Snap, fits: bool, want: Stage, got: Stage,
                     smooth: bool)
    requires Choosing(list, |list|, s, tries, t) && !(smooth && fits)
    ensures Chosen(list, s, tries, Failed(AllBranchesFailed), t)
    ensures EndsWell(p, Failed(AllBranchesFailed), |s.counted| + |FlatBranches(list)|)
    ensures Through(fits, want, got, Failed(AllBranchesFailed), smooth)
  {
    assert list[..|list|] == list;
    WithinAs(FlatBranches(list), s, t, Done, Failed(AllBranchesFailed));
  }

  /** If `fits`, the actions fit here and lead to `want`. */
  ghost predicate Foreseen(actions: seq<Action>, setting: Setting, q: Stage, fits: bool, want: Stage) {
    fits ==> FitsAll(actions, setting, q) && want == AfterAll(actions, q)
  }

  ghost predicate ForeseenOne(a: Action, setting: Setting, q: Stage, fits: bool, want: Stage) {
    fits ==> FitsOne(a, setting, q) && want == AfterOne(a, q)
  }

  /** The same of a choice between these branches: of the first one. */
  ghost predicate ForeseenChoice(list: seq<Branch>, setting: Setting, q: Stage, fits: bool, want: Stage) {
    fits ==> list != [] && Foreseen(list[0].body, setting, q, true, want)
  }

  lemma SettlesThrough(
      fits: bool, want: Stage, got: Stage, o: Outcome, r: Outcome, settled: bool, was: bool, smooth: bool)
    requires Through(fits, want, got, o, was) && Settles(o, r, settled) && (smooth ==> was)
    ensures Through(fits, want, got, r, smooth) && (smooth && fits ==> settled)
  {
  }

  class BrowserExecutor {
    const program: Program
    const hasDebuggerEvents: bool
    const hasDownloadEvents: bool

    var targetTabId: Option<TabId>
    var tabId: Option<TabId>
    var expectedUrl: Url
    var attached: bool
    var actionCount: nat
    var mutationStarted: bool
    var captures: map<CaptureKind, string>  // the four capture fields; a missing kind is null
    var privateResults: seq<Slot>
    var createdTab: bool
    var closingTarget: bool
    var targetListener: bool
    var listeners: set<Listener>            // registered with the browser
    var deadline: int
    var granted: bool                       // what requestMutation() answered last
    var cleaning: bool                      // in the `finally` block of `run`
    var trace: History                      // all that has happened; the time that may be read next follows from it

    ghost var counted: seq<Action>
    ghost var completed: seq<Action>
    ghost var startedAt: nat
    ghost var checked: bool                 // the current action's check passed on the target
    ghost var smooth: bool                  // no answer, of the browser, the clock or the user, went against the run

    ghost predicate Valid()
      reads this
    {
      actionCount == |counted| && Started(trace) == counted &&
      SessionValid(program, deadline, attached, tabId, expectedUrl, checked, mutationStarted, trace) &&
      ResultsValid(privateResults, program.privateFields) &&
      CapturesValid(attached, targetListener, listeners, captures, program.privateFields)
    }

    ghost function View(): Snap
      reads this
    {
      Snap(counted, completed, attached, mutationStarted, startedAt, granted, captures, Fields(privateResults))
    }

    ghost function Target(): TargetView
      reads this
    {
      TargetView(tabId, targetTabId, expectedUrl, attached, createdTab, closingTarget)
    }

    /** What of the state decides whether an action can succeed. */
    ghost function Now(): Stage
      reads this
    {
      Stage(tabId.Some?, targetTabId.Some?, attached, captures.Keys, mutationStarted)
    }

    ghost function Here(): Setting {
      Setting(program.capability == Mutation, hasDebuggerEvents, hasDownloadEvents)
    }

    /** What is waited for cannot be seen without a tab, or without the debugger. */
    ghost predicate Wanting(operation: WaitOperation)
      reads this
    {
      (operation.ExactTarget? && tabId.None?) || (operation.PageCondition? && !attached)
    }

    constructor (program: Program, targetTabId: Option<TabId>, hasDebuggerEvents: bool, hasDownloadEvents: bool)
      requires PolicyUrl(program.target.url, program.target, true)
      ensures Valid() && View() == FRESH && listeners == {} && trace == NoEvents && !checked && !cleaning
      ensures this.program == program && smooth && Now() == FIRST.(shared := targetTabId.Some?)
      ensures this.hasDebuggerEvents == hasDebuggerEvents && this.hasDownloadEvents == hasDownloadEvents
    {
      smooth := true;
      this.program := program;
      this.hasDebuggerEvents, this.hasDownloadEvents := hasDebuggerEvents, hasDownloadEvents;
      this.targetTabId, tabId := targetTabId, None;
      expectedUrl := program.target.url.value;
      attached, actionCount, mutationStarted, captures, privateResults := false, 0, false, map[], [];
      createdTab, closingTarget, targetListener, listeners := false, false, false, {};
      deadline := 0;
      trace, counted, completed, startedAt, granted, checked, cleaning := NoEvents, [], [], 0, false, false, false;
    }

    /** Append an event that no field depends on. */
    method Record(e: Event)
      requires Valid() && Guards(program.target, deadline, trace, e)
      requires !e.Start? && !e.Aimed? && !e.Attached? && !e.Released? && !e.MutationBegan?
      modifies `trace
      ensures Valid() && trace == Then(old(trace), e)
    {
      trace := Then(trace, e);
    }

    /** Whether an answer that was just given, by the browser, the clock or the user, is as the run needs it. */
    ghost method Note(obliging: bool)
      requires Valid()
      modifies `smooth
      ensures Valid() && smooth == (old(smooth) && obliging)
    {
      smooth := smooth && obliging;
    }

    // ----- checks and waiting

    /** `Date.now()`. */
    method ReadClock() returns (now: int)
      requires Valid()
      modifies `trace
      ensures Valid() && now >= Earliest(old(trace)) && trace == Then(old(trace), Clock(now))
    {
      now :| now >= Earliest(trace);
      Record(Clock(now));
    }

    method Sleep(delay: int)
      requires Valid()
      modifies `trace
      ensures Valid() && trace == Then(old(trace), Slept(delay))
    {
      Record(Slept(delay));
    }

    /** `isCancelled()` may answer either way. */
    method CheckDeadline() returns (r: Outcome)
      requires Valid()
      modifies `trace, `smooth
      ensures Valid()
      ensures (r == Failed(JobCancelled) && trace == old(trace)) ||
              (trace.Then? && trace.before == old(trace) && trace.event.Clock? &&
               trace.event.now >= Earliest(old(trace)) &&
               r == if trace.event.now >= deadline then Failed(JobTimeout) else Done)
      ensures smooth ==> old(smooth) && r.Done?
    {
      var cancelled: bool := *;
      Note(!cancelled);
      if cancelled {
        return Failed(JobCancelled);
      }
      var now := ReadClock();
      Note(now < deadline);
      return if now >= deadline then Failed(JobTimeout) else Done;
    }

    /** The live tab shows the expected URL, is active, and its window is focused; the history keeps what it showed. */
    method AssertExactTarget() returns (r: Outcome)
      requires Valid()
      modifies `trace, `smooth
      ensures Valid()
      ensures r.Done? ==> JustChecked(trace, tabId, expectedUrl) && trace.before == old(trace)
      ensures r.Failed? ==> trace == old(trace) && r.code in {TargetTabMissing, TargetTabLost, TargetFocusDrift}
      ensures Grew(old(trace), trace)
      ensures smooth ==> old(smooth) && (r.Done? || tabId.None?)
    {
      if tabId.None? {
        return Failed(TargetTabMissing);
      }
      var view: Option<TabView> :| true;
      Note(view.Some? && Shows(view.value, expectedUrl));
      if view.None? {
        return Failed(TargetTabLost);
      }
      if view.value.url != expectedUrl || !view.value.active || !view.value.windowFocused {
        return Failed(TargetFocusDrift);
      }
      Record(CheckPassed(tabId.value, view.value));
      return Done;
    }

    method Command(cdp: CdpMethod) returns (r: Outcome)
      requires Valid() && (attached ==> cleaning || checked)
      modifies `trace, `smooth
      ensures Valid()
      ensures r.Failed? ==> r.code in {CdpMethodBlocked, CdpCommandFailed}
      ensures r.Done? ==> attached
      ensures if attached && Allowed(cdp) then trace == Then(old(trace), Sent(cdp, tabId.value, cleaning))
              else trace == old(trace) && r == Failed(CdpMethodBlocked)
      ensures Grew(old(trace), trace)
      ensures smooth ==> old(smooth) && (r.Done? || !attached || !Allowed(cdp))
    {
      if !attached || !Allowed(cdp) {
        return Failed(CdpMethodBlocked);
      }
      Record(Sent(cdp, tabId.value, cleaning));
      var succeeded: bool := *;
      Note(succeeded);
      return if succeeded then Done else Failed(CdpCommandFailed);
    }

    /** Reading the page: any commands, with any answers, ending in any code such a handler has. */
    method UsePage() returns (r: Outcome)
      requires Valid() && (attached ==> cleaning || checked)
      modifies `trace, `smooth
      ensures Valid() && PageEvents(old(trace), trace) && Grew(old(trace), trace)
      ensures r.Failed? ==> PageCode(r.code)
      ensures smooth ==> old(smooth) && (r.Done? || !attached)
    {
      ghost var was := trace;
      r := PageSteps();
      PageGrew(was, trace);
      var fails: bool := *;
      Note(!fails);
      if r.Done? && fails {
        var code: Code :| PageCode(code);
        r := Failed(code);
      }
    }

    method PageSteps() returns (r: Outcome)
      requires Valid() && (attached ==> cleaning || checked)
      modifies `trace, `smooth
      ensures Valid() && PageEvents(old(trace), trace)
      ensures r.Failed? ==> PageCode(r.code)
      ensures smooth ==> old(smooth) && (r.Done? || !attached)
    {
      var steps: nat :| true;
      while steps > 0
        invariant Valid() && PageEvents(old(trace), trace) && (smooth ==> old(smooth))
      {
        steps := steps - 1;
        if * {  // a command; its caller may swallow the failure
          var cdp: CdpMethod := *;
          Note(Allowed(cdp));
          var sent := Command(cdp);
          var rethrow: bool := *;
          if sent.Failed? && rethrow {
            return sent;
          }
        } else {
          r := AssertExactTarget();
          if r.Failed? {
            return;
          }
        }
      }
      return Done;
    }

    /** The operation that is waited for, between its two events. */
    method Evaluate(operation: WaitOperation) returns (r: Outcome)
      requires Valid() && (operation.PageCondition? && attached ==> cleaning || checked)
      modifies `trace, `smooth
      ensures Valid() && trace.Then? && trace.event == Evaluated(r)
      ensures PageEvents(Then(old(trace), Evaluating), trace.before)
      ensures r.Failed? ==> PageCode(r.code)
      ensures r.Done? && operation.ExactTarget? ==> SettledOn(trace, tabId, expectedUrl)
      ensures r.Done? && operation.TabShows? ==> JustLoaded(trace, operation.url)
      ensures operation.DownloadsFinished? ==>
                trace.before == Then(old(trace), Evaluating) && r in {Done, Failed(DownloadNotComplete)}
      ensures smooth ==> old(smooth) && (r.Done? || Wanting(operation))
    {
      Record(Evaluating);
      match operation {
        case TabShows(url) => r := ReadTab(url);
        case ExactTarget => r := AssertExactTarget();
        case PageCondition => r := UsePage();
        case DownloadsFinished =>
          var finished: bool := *;
          Note(finished);
          r := if finished then Done else Failed(DownloadNotComplete);
      }
      Record(Evaluated(r));
    }

    /** The closure of `waitForTab`. */
    method ReadTab(url: Url) returns (r: Outcome)
      requires Valid()
      modifies `trace, `smooth
      ensures Valid() && PageEvents(old(trace), trace)
      ensures r.Done? ==> trace.Then? && trace.event.Seen? && trace.event.view.url == url && trace.event.view.complete
      ensures r.Failed? ==> PageCode(r.code)
      ensures smooth ==> old(smooth) && r.Done?
    {
      var view: Option<TabView> :| true;
      Note(view.Some? && view.value.url == url && view.value.complete);
      if view.None? {
        return Failed(TargetTabLost);
      }
      Record(Seen(view.value));
      return if view.value.url != url || !view.value.complete then Failed(TargetNotReady) else Done;
    }

    /** What a wait of this executor is about. */
    ghost predicate Waits(w: Wait, base: History, timeoutMs: int, maximumAttempts: int)
      reads this
    {
      w == Planned(base, w.began, tabId, expectedUrl, deadline, timeoutMs, maximumAttempts) && w.began >= Earliest(base)
    }

    /**
     * The bounded retry loop: what it adds to the history is a whole wait. It never falls out of its loop, and looks
     * at downloads only once.
     */
    method WaitFor(operation: WaitOperation, timeoutMs: int, maximumAttempts: int)
        returns (r: Outcome, ghost w: Wait)
      requires Valid() && (operation.PageCondition? && attached ==> cleaning || checked)
      modifies `trace, `smooth
      ensures Valid() && Grew(old(trace), trace)
      ensures Waits(w, old(trace), timeoutMs, maximumAttempts) && Waited(w, trace, r)
      ensures r != Failed(WaitExhausted) && (r.Failed? ==> PageCode(r.code))
      ensures r.Done? && operation.ExactTarget? ==> SettledOn(trace, tabId, expectedUrl)
      ensures r.Done? && operation.TabShows? ==> JustLoaded(trace, operation.url)
      ensures operation.DownloadsFinished? ==>
                OneLook(old(trace), trace, r) || r in {Failed(JobCancelled), Failed(JobTimeout)}
      ensures smooth ==> old(smooth) && (r.Done? || Wanting(operation))
    {
      var now := ReadClock();
      var stop := Min(deadline, now + timeoutMs);
      var attempts := Max(1, Min(maximumAttempts, 20));
      var delay := if attempts > 1 then Max(20, timeoutMs / attempts) else timeoutMs;
      w := Planned(old(trace), now, tabId, expectedUrl, deadline, timeoutMs, maximumAttempts);
      WaitBegins(w);
      var attempt := 0;
      r := Done;
      while attempt < attempts
        invariant 0 <= attempt < attempts && Valid()
        invariant Underway(w, trace, attempt) && AtHead(w, trace)
        invariant operation.DownloadsFinished? ==> attempt == 0 && trace == w.start
        invariant smooth ==> old(smooth) && (attempt == 0 || Wanting(operation))
      {
        var again: bool;
        r, again := WaitRound(operation, stop, delay, attempt, attempts, w);
        if !again {
          break;
        }
        attempt := attempt + 1;
      }
      if attempt >= attempts {
        r := Failed(WaitExhausted);
      }
      WaitGrew(w, old(trace), trace, Evaluations(w.start, trace));
    }

    /** One round: the deadline, the operation, and after a retryable failure with time left a sleep and a check. */
    method WaitRound(operation: WaitOperation, stop: int, delay: int, attempt: nat, attempts: nat, ghost w: Wait)
        returns (r: Outcome, again: bool)
      requires Valid() && (operation.PageCondition? && attached ==> cleaning || checked)
      requires Underway(w, trace, attempt) && AtHead(w, trace) && attempt < attempts
      requires w.tab == tabId && w.url == expectedUrl && w.deadline == deadline
      requires w.stop == stop && w.delay == delay && w.attempts == attempts && (attempts > 1 ==> delay > 0)
      requires w.start.Then? && w.start.event.Clock?
      modifies `trace, `smooth
      ensures Valid()
      ensures again ==> attempt + 1 < attempts && Underway(w, trace, attempt + 1) && AtHead(w, trace)
      ensures !again ==> Waited(w, trace, r) && (r.Failed? ==> PageCode(r.code))
      ensures !again && r.Done? && operation.ExactTarget? ==> SettledOn(trace, tabId, expectedUrl)
      ensures !again && r.Done? && operation.TabShows? ==> JustLoaded(trace, operation.url)
      ensures operation.DownloadsFinished? ==> !again
      ensures operation.DownloadsFinished? && old(trace) == w.start ==>
                OneLook(w.start.before, trace, r) || r in {Failed(JobCancelled), Failed(JobTimeout)}
      ensures smooth ==> old(smooth) && ((!again && r.Done?) || Wanting(operation))
    {
      r := CheckDeadline();
      if r.Failed? {
        WaitCut(w, old(trace), attempt, trace, r);
        return r, false;
      }
      r := EvaluateRound(operation, attempt, w, old(trace));
      if r.Done? || !RetryableWait(r.code) || attempt + 1 >= attempts {
        return r, false;
      }
      r, again := SleepAndCheck(r, stop, delay, attempt, w);
    }

    /** The operation of a round, the deadline having been checked. */
    method EvaluateRound(operation: WaitOperation, attempt: nat, ghost w: Wait, ghost head: History)
        returns (r: Outcome)
      requires Valid() && (operation.PageCondition? && attached ==> cleaning || checked)
      requires Underway(w, head, attempt) && AtHead(w, head) && w.deadline == deadline
      requires InTime(trace, deadline) && trace.before == head && trace.event.now >= Earliest(head)
      modifies `trace, `smooth
      ensures Valid() && trace.Then? && trace.event == Evaluated(r) && Underway(w, trace, attempt + 1)
      ensures r.Failed? ==> PageCode(r.code)
      ensures r.Done? && operation.ExactTarget? ==> SettledOn(trace, tabId, expectedUrl)
      ensures r.Done? && operation.TabShows? ==> JustLoaded(trace, operation.url)
      ensures operation.DownloadsFinished? ==>
                trace.before == Then(old(trace), Evaluating) && r in {Done, Failed(DownloadNotComplete)}
      ensures smooth ==> old(smooth) && (r.Done? || Wanting(operation))
    {
      ghost var now := trace.event.now;
      r := Evaluate(operation);
      WaitEvaluates(w, head, attempt, now, trace.before, r);
    }

    /** After a retryable failure: rethrow it for want of time, or sleep and check the target. */
    method SleepAndCheck(o: Outcome, stop: int, delay: int, attempt: nat, ghost w: Wait)
        returns (r: Outcome, again: bool)
      requires Valid() && Retryable(o) && trace.Then? && trace.event == Evaluated(o) && delay > 0
      requires Underway(w, trace, attempt + 1) && attempt + 1 < w.attempts
      requires w.tab == tabId && w.url == expectedUrl && w.stop == stop && w.delay == delay
      modifies `trace, `smooth
      ensures Valid()
      ensures again ==> Underway(w, trace, attempt + 1) && AtHead(w, trace)
      ensures !again ==> r.Failed? && PageCode(r.code) && Waited(w, trace, r)
      ensures smooth ==> old(smooth)
    {
      ghost var evaluated := trace;
      var read := ReadClock();
      WaitReads(w, evaluated, attempt + 1, read);
      if read + delay > stop {
        return o, false;
      }
      Sleep(delay);
      WaitSleeps(w, evaluated, attempt + 1, read);
      r := CheckAfterSleep(attempt, w);
      again := r.Done?;
    }

    method CheckAfterSleep(attempt: nat, ghost w: Wait) returns (r: Outcome)
      requires Valid() && Underway(w, trace, attempt + 1) && attempt + 1 < w.attempts
      requires trace.Then? && trace.event.Slept? && w.tab == tabId && w.url == expectedUrl
      modifies `trace, `smooth
      ensures Valid()
      ensures r.Done? ==> Underway(w, trace, attempt + 1) && AtHead(w, trace)
      ensures r.Failed? ==> PageCode(r.code) && Waited(w, trace, r)
      ensures smooth ==> old(smooth)
    {
      ghost var slept := trace;
      r := AssertExactTarget();
      if r.Done? {
        WaitChecks(w, slept, attempt + 1, trace);
      }
    }

    // ----- target and navigation handlers

    method WaitForTab(url: Url) returns (r: Outcome)
      requires Valid()
      modifies `trace, `smooth
      ensures Valid() && Grew(old(trace), trace)
      ensures r.Done? ==> JustLoaded(trace, url)
      ensures r.Failed? ==> PageCode(r.code)
      ensures smooth ==> old(smooth) && r.Done?
    {
      ghost var w;
      r, w := WaitFor(TabShows(url), Min(30000, program.limits.timeoutMs), program.limits.maxRepeat);
    }

    method OpenOrFocus() returns (r: Outcome)
      requires Valid()
      modifies `trace, `tabId, `checked, `smooth
      ensures Valid() && Grew(old(trace), trace)
      ensures old(tabId.Some?) ==> r == Failed(TargetAlreadyOpened) && tabId == old(tabId) && trace == old(trace)
      ensures tabId == old(tabId) || tabId == targetTabId
      ensures r.Done? ==> tabId == targetTabId && SettledOn(trace, tabId, expectedUrl)
      ensures r.Failed? ==> PageCode(r.code)
      ensures r.Done? ==> tabId.Some?
      ensures smooth ==> old(smooth) && (r.Done? || old(tabId.Some?) || targetTabId.None?)
    {
      if tabId.Some? {
        return Failed(TargetAlreadyOpened);
      }
      if targetTabId.None? {
        return Failed(CollaborationTargetMissing);
      }
      var tab: Option<TabView> :| true;
      Note(tab.Some? && (tab.value.url == expectedUrl || tab.value.pendingUrl == Some(expectedUrl)));
      if tab.None? {
        return Failed(CollaborationTargetLost);
      }
      if tab.value.url != expectedUrl && tab.value.pendingUrl != Some(expectedUrl) {
        return Failed(CollaborationTargetDrift);
      }
      var focused: bool := *;
      var activated: bool := *;
      tabId, checked, smooth := targetTabId, false, smooth && focused && activated;
      if !focused || !activated {
        return Failed(CollaborationTargetLost);
      }
      r := WaitUntilExact();
    }

    /** The tab loads, then it becomes the exact target. */
    method WaitUntilExact() returns (r: Outcome)
      requires Valid()
      modifies `trace, `smooth
      ensures Valid() && Grew(old(trace), trace)
      ensures r.Done? ==> SettledOn(trace, tabId, expectedUrl)
      ensures r.Failed? ==> PageCode(r.code)
      ensures smooth ==> old(smooth) && (r.Done? || tabId.None?)
    {
      ghost var was := trace;
      r := WaitForTab(expectedUrl);
      if r.Failed? {
        return if r.code == InternalError then Failed(CollaborationTargetLost) else r;
      }
      ghost var w, loaded;
      loaded := trace;
      r, w := WaitFor(ExactTarget, Min(1000, program.limits.timeoutMs), 10);
      GrewFurther(was, loaded, trace);
    }

    /** Both navigations set the expected URL first and restore the prior one when anything fails. */
    method NavigateTo(url: Url, failure: Code) returns (r: Outcome)
      requires Valid() && InTarget(url, program.target) && PageCode(failure)
      modifies `trace, `expectedUrl, `smooth
      ensures Valid() && Grew(old(trace), trace)
      ensures expectedUrl == if r.Done? then url else old(expectedUrl)
      ensures r.Done? ==> JustLoaded(trace, url)
      ensures r.Failed? ==> PageCode(r.code)
      ensures smooth ==> old(smooth) && (r.Done? || !attached)
    {
      if !attached {
        return Failed(DebuggerNotAttached);
      }
      var prior := expectedUrl;
      Aim(url);
      ghost var aimed := trace;
      r := RequestNavigation(url, failure);
      GrewFurther(old(trace), aimed, trace);
      if r.Failed? {
        r := Failed(if r.code == InternalError then failure else r.code);
        Aim(prior);
      }
    }

    /** The browser takes the request or throws; then the tab has to load the URL. */
    method RequestNavigation(url: Url, failure: Code) returns (r: Outcome)
      requires Valid() && PageCode(failure)
      modifies `trace, `smooth
      ensures Valid() && Grew(old(trace), trace)
      ensures r.Done? ==> JustLoaded(trace, url)
      ensures r.Failed? ==> PageCode(r.code)
      ensures smooth ==> old(smooth) && r.Done?
    {
      var requested: bool := *;
      Note(requested);
      if !requested {
        return Failed(failure);
      }
      r := WaitForTab(url);
    }

    method Aim(url: Url)
      requires Valid() && InTarget(url, program.target)
      modifies `trace, `expectedUrl
      ensures Valid() && expectedUrl == url && trace == Then(old(trace), Aimed(url))
    {
      trace := Then(trace, Aimed(url));
      expectedUrl := url;
    }

    method CreateSameOriginTab(url: Url) returns (r: Outcome)
      requires Valid() && InTarget(url, program.target)
      modifies `trace, `tabId, `targetTabId, `expectedUrl, `createdTab, `checked, `smooth
      ensures Valid() && attached == old(attached) && Grew(old(trace), trace)
      ensures old(attached) ==> r == Failed(DebuggerStateInvalid) && tabId == old(tabId)
      ensures createdTab == old(createdTab) ==> tabId == old(tabId) || old(createdTab)
      ensures r.Done? ==> createdTab && targetTabId == tabId && expectedUrl == url && JustChecked(trace, tabId, url)
      ensures r.Failed? ==> PageCode(r.code)
      ensures r.Done? ==> tabId.Some?
      ensures smooth ==> old(smooth) && (r.Done? || attached)
    {
      if attached {
        return Failed(DebuggerStateInvalid);
      }
      var created;
      r, created := MakeTab();
      if r.Failed? {
        return;
      }
      AdoptTab(created, url);
      r := LoadAndCheck();
      GrewFurther(old(trace), Then(old(trace), Aimed(url)), trace);
    }

    /** The new tab is the target from now on, and `url` what it should show. */
    method AdoptTab(created: Option<TabId>, url: Url)
      requires Valid() && !attached && InTarget(url, program.target)
      modifies `trace, `tabId, `targetTabId, `expectedUrl, `createdTab, `checked
      ensures Valid() && tabId == created && targetTabId == created && createdTab && expectedUrl == url
      ensures trace == Then(old(trace), Aimed(url))
    {
      tabId, targetTabId, createdTab, checked := created, created, true, false;
      Aim(url);
    }

    /** The shared tab is looked up, the new one made next to it; either may throw, and the new one may have no id. */
    method MakeTab() returns (r: Outcome, created: Option<TabId>)
      requires Valid()
      modifies `smooth
      ensures Valid()
      ensures r.Done? ==> created.Some?
      ensures r.Failed? ==> PageCode(r.code)
      ensures smooth ==> old(smooth) && r.Done?
    {
      var anchor: Option<TabView> :| true;
      var answered: bool := *;
      created :| true;
      r := if anchor.None? || !answered then Failed(InternalError)
           else if created.None? then Failed(TabCreateFailed)
           else Done;
      Note(anchor.Some? && answered && created.Some?);
    }

    method LoadAndCheck() returns (r: Outcome)
      requires Valid()
      modifies `trace, `smooth
      ensures Valid() && Grew(old(trace), trace)
      ensures r.Done? ==> JustChecked(trace, tabId, expectedUrl)
      ensures r.Failed? ==> PageCode(r.code)
      ensures smooth ==> old(smooth) && (r.Done? || tabId.None?)
    {
      r := WaitForTab(expectedUrl);
      if r.Done? {
        ghost var loaded := trace;
        r := AssertExactTarget();
        GrewFurther(old(trace), loaded, trace);
      }
    }

    method CloseTargetTab() returns (r: Outcome)
      requires Valid()
      modifies `tabId, `closingTarget, `checked, `smooth
      ensures Valid()
      ensures old(attached) ==> r == Failed(DebuggerStateInvalid)
      ensures r.Done? ==> !attached && closingTarget && tabId.None?
      ensures r.Failed? ==> tabId == old(tabId) && checked == old(checked) && PageCode(r.code)
      ensures smooth ==> old(smooth) && (r.Done? || attached)
    {
      if attached {
        return Failed(DebuggerStateInvalid);
      }
      var removed: bool := *;
      closingTarget, smooth := true, smooth && removed;
      if !removed {
        return Failed(TabCloseFailed);
      }
      tabId, checked := None, false;
      return Done;
    }

    method Reload() returns (r: Outcome)
      requires Valid() && (attached ==> cleaning || checked)
      modifies `trace, `smooth
      ensures Valid() && Grew(old(trace), trace)
      ensures r.Done? ==> attached && JustLoaded(trace, expectedUrl)
      ensures r.Failed? ==> PageCode(r.code)
      ensures smooth ==> old(smooth) && (r.Done? || !attached)
      ensures r.Done? ==> tabId.Some? && Grew(Then(old(trace), Sent(PageReload, tabId.value, cleaning)), trace)
    {
      if !attached {
        return Failed(DebuggerNotAttached);
      }
      r := Command(PageReload);
      if r.Done? {
        ghost var sent := trace;
        r := WaitForTab(expectedUrl);
        GrewFurther(old(trace), sent, trace);
      }
    }

    // ----- the debugger session

    method AttachDebugger() returns (r: Outcome)
      requires Valid() && (tabId.Some? ==> checked)
      modifies `trace, `attached, `targetListener, `listeners, `smooth
      ensures Valid() && Grew(old(trace), trace)
      ensures r.Done? ==> attached
      ensures r.Failed? && !old(attached) ==> !attached
      ensures r.Failed? ==> PageCode(r.code)
      ensures smooth ==> old(smooth) && (r.Done? || old(attached) || tabId.None?)
      ensures r.Failed? ==> r.code != InternalError
    {
      if attached || tabId.None? {
        return Failed(DebuggerStateInvalid);
      }
      r := OpenSession();
      if r.Failed? {
        ghost var tried := trace;
        if attached {
          var ignored := DetachDebugger(true);
        }
        GrewFurther(old(trace), tried, trace);
        if r.code == InternalError {
          return Failed(DebuggerAttachFailed);
        }
      }
    }

    /** The body of the try block; an InternalError is the browser refusing to attach. */
    method OpenSession() returns (r: Outcome)
      requires Valid() && tabId.Some? && !attached && checked
      modifies `trace, `attached, `targetListener, `listeners, `smooth
      ensures Valid() && (r.Done? ==> attached) && (r.Failed? ==> PageCode(r.code)) && Grew(old(trace), trace)
      ensures smooth ==> old(smooth) && r.Done?
      ensures r.Done? ==> SessionBegun(old(trace), trace, tabId.value, cleaning, hasDebuggerEvents)
    {
      var accepted: bool := *;
      Note(accepted);
      if !accepted {
        return Failed(InternalError);
      }
      r := BeginSession();
    }

    /** The debugger is attached; its domains are enabled, and child frames announced where the browser has events. */
    method BeginSession() returns (r: Outcome)
      requires Valid() && tabId.Some? && !attached && checked
      modifies `trace, `attached, `targetListener, `listeners, `smooth
      ensures Valid() && (r.Done? ==> attached) && (r.Failed? ==> PageCode(r.code)) && Grew(old(trace), trace)
      ensures smooth ==> old(smooth) && r.Done?
      ensures r.Done? ==> SessionBegun(old(trace), trace, tabId.value, cleaning, hasDebuggerEvents)
      ensures r.Done? ==> targetListener == (hasDebuggerEvents || old(targetListener))
    {
      trace := Then(trace, Attached(tabId.value));
      attached := true;
      r := EnableDomains();
      ghost var enabled := trace;
      GrewFurther(old(trace), Then(old(trace), Attached(tabId.value)), trace);
      if r.Done? {
        r := ListenForFrames();
        GrewFurther(old(trace), enabled, trace);
      }
    }

    /** Child frames are announced where the browser has debugger events. */
    method ListenForFrames() returns (r: Outcome)
      requires Valid() && attached && (cleaning || checked)
      modifies `trace, `targetListener, `listeners, `smooth
      ensures Valid() && (r.Failed? ==> PageCode(r.code)) && Grew(old(trace), trace)
      ensures smooth ==> old(smooth) && r.Done?
      ensures r.Done? ==>
                targetListener == (hasDebuggerEvents || old(targetListener)) &&
                trace == if hasDebuggerEvents then Then(old(trace), Sent(TargetSetAutoAttach, tabId.value, cleaning))
                         else old(trace)
    {
      r := Done;
      if hasDebuggerEvents {
        targetListener, listeners := true, listeners + {TargetEvents};
        r := Command(TargetSetAutoAttach);
      }
    }

    method EnableDomains() returns (r: Outcome)
      requires Valid() && (attached ==> cleaning || checked)
      modifies `trace, `smooth
      ensures Valid() && (r.Failed? ==> PageCode(r.code)) && Grew(old(trace), trace)
      ensures smooth ==> old(smooth) && (r.Done? || !attached)
      ensures r.Done? ==> attached && trace == DomainsEnabled(old(trace), tabId.value, cleaning)
    {
      r := Command(DomEnable);
      if r.Done? {
        ghost var so := trace;
        r := EnableReading();
        GrewFurther(old(trace), so, trace);
      }
    }

    method EnableReading() returns (r: Outcome)
      requires Valid() && (attached ==> cleaning || checked)
      modifies `trace, `smooth
      ensures Valid() && (r.Failed? ==> PageCode(r.code)) && Grew(old(trace), trace)
      ensures smooth ==> old(smooth) && (r.Done? || !attached)
      ensures r.Done? ==>
                attached &&
                trace == Then(Then(old(trace), Sent(AccessibilityEnable, tabId.value, cleaning)),
                              Sent(PageEnable, tabId.value, cleaning))
    {
      r := Command(AccessibilityEnable);
      if r.Done? {
        ghost var so := trace;
        r := Command(PageEnable);
        GrewFurther(old(trace), so, trace);
      }
    }

    method DetachDebugger(bestEffort: bool) returns (r: Outcome)
      requires Valid() && (attached ==> cleaning || checked)
      modifies `trace, `attached, `targetListener, `listeners, `smooth
      ensures Valid() && (attached ==> old(attached)) && Grew(old(trace), trace)
      ensures if bestEffort then r.Done? && !attached else (r.Done? ==> !attached) && (r.Failed? ==> PageCode(r.code))
      ensures smooth ==> old(smooth) && (r.Done? || !old(attached))
      ensures r.Done? && old(attached) ==>
                exists children ::
                  SessionClosed(old(trace), trace, children, old(tabId.value), cleaning, bestEffort)
      ensures !bestEffort && r.Done? ==> trace.Then? && trace.event == Released(true)
    {
      if !attached {
        return if bestEffort then Done else Failed(DebuggerNotAttached);
      }
      var sessions: nat :| true;  // attached child frames
      r := DisableDomains(seq(sessions, _ => AccessibilityDisable), bestEffort);
      if r.Done? {
        ghost var disabled := trace;
        r := CloseSession(bestEffort);
        GrewFurther(old(trace), disabled, trace);
        ChildrenFirst(old(trace), disabled, trace, sessions, tabId.value, cleaning, bestEffort);
      }
    }

    method CloseSession(bestEffort: bool) returns (r: Outcome)
      requires Valid() && attached && (cleaning || checked)
      modifies `trace, `attached, `targetListener, `listeners, `smooth
      ensures Valid() && Grew(old(trace), trace)
      ensures if bestEffort then r.Done? && !attached else (r.Done? ==> !attached) && (r.Failed? ==> PageCode(r.code))
      ensures smooth ==> old(smooth) && r.Done?
      ensures r.Done? ==> SessionClosed(old(trace), trace, 0, old(tabId.value), cleaning, bestEffort)
    {
      StopListening();
      r := CloseQuietly(bestEffort);
    }

    method CloseQuietly(bestEffort: bool) returns (r: Outcome)
      requires Valid() && !targetListener && attached && (cleaning || checked)
      modifies `trace, `attached, `smooth
      ensures Valid() && Grew(old(trace), trace)
      ensures if bestEffort then r.Done? && !attached else (r.Done? ==> !attached) && (r.Failed? ==> PageCode(r.code))
      ensures smooth ==> old(smooth) && r.Done?
      ensures r.Done? ==> SessionClosed(old(trace), trace, 0, old(tabId.value), cleaning, bestEffort)
    {
      r := DisableDomains([AccessibilityDisable, DomDisable, PageDisable], bestEffort);
      if r.Done? {
        ghost var disabled := trace;
        r := Release(bestEffort);
        GrewFurther(old(trace), disabled, trace);
        if r.Done? {
          ClosedBy(old(trace), disabled, trace, tabId.value, cleaning, bestEffort);
        }
      }
    }

    method StopListening()
      requires Valid()
      modifies `targetListener, `listeners
      ensures Valid() && !targetListener
    {
      if targetListener {
        targetListener, listeners := false, listeners - {TargetEvents};
      }
    }

    method Release(bestEffort: bool) returns (r: Outcome)
      requires Valid() && attached && !targetListener
      modifies `trace, `attached, `smooth
      ensures Valid() && !attached && Grew(old(trace), trace)
      ensures r == Done || (!bestEffort && r == Failed(DebuggerDetachFailed))
      ensures smooth ==> old(smooth) && r.Done?
      ensures trace.Then? && trace.before == old(trace) && trace.event.Released?
      ensures r.Done? && !bestEffort ==> trace.event.confirmed
    {
      var detached: bool := *;
      trace, attached, smooth := Then(trace, Released(detached)), false, smooth && detached;
      r := if detached || bestEffort then Done else Failed(DebuggerDetachFailed);
    }

    method DisableDomains(methods: seq<CdpMethod>, bestEffort: bool) returns (r: Outcome)
      requires Valid() && (attached ==> cleaning || checked) && forall m | m in methods :: Allowed(m)
      modifies `trace, `smooth
      ensures Valid() && Grew(old(trace), trace)
      ensures bestEffort ==> r.Done?
      ensures r.Failed? ==> r.code == DebuggerDisableFailed
      ensures smooth ==> old(smooth) && (r.Done? || !attached)
      ensures r.Done? && attached ==> trace == SentAll(old(trace), methods, tabId.value, cleaning)
    {
      for i := 0 to |methods|
        invariant Valid() && Grew(old(trace), trace) && (smooth ==> old(smooth))
        invariant attached ==> trace == SentAll(old(trace), methods[..i], tabId.value, cleaning)
      {
        ghost var so := trace;
        var disabled := Command(methods[i]);
        GrewFurther(old(trace), so, trace);
        if attached {
          SentOneMore(old(trace), methods, i, tabId.value, cleaning);
        }
        if disabled.Failed? && !bestEffort {
          return Failed(DebuggerDisableFailed);
        }
      }
      assert methods[..|methods|] == methods;
      return Done;
    }

    // ----- private results and captures

    /** Write one private result; when the encoded map is then too large, the member is deleted and the action fails. */
    method Store(field: string, bytes: nat) returns (r: Outcome)
      requires Valid() && field in program.privateFields
      modifies `privateResults, `smooth
      ensures Valid()
      ensures r == if EncodedBytes(Put(old(privateResults), field, bytes)) <= MAX_PRIVATE_RESULTS_BYTES
                   then Done else Failed(PrivateResultTooLarge)
      ensures r.Done? ==> Fields(privateResults) == Fields(old(privateResults)) + {field}
      ensures r.Failed? ==> Fields(privateResults) == Fields(old(privateResults)) - {field}
      ensures smooth ==> old(smooth) && r.Done?
    {
      PutFields(privateResults, field, bytes);
      PutThenDelete(privateResults, field, bytes);
      privateResults := Put(privateResults, field, bytes);
      smooth := smooth && EncodedBytes(privateResults) <= 524288;
      if EncodedBytes(privateResults) > MAX_PRIVATE_RESULTS_BYTES {
        privateResults := Delete(privateResults, field);
        return Failed(PrivateResultTooLarge);
      }
      return Done;
    }

    method ExtractPrivate(field: string) returns (r: Outcome)
      requires Valid() && (attached ==> cleaning || checked) && field in program.privateFields
      modifies `trace, `privateResults, `smooth
      ensures Grew(old(trace), trace)
      ensures Valid() && (r.Failed? ==> PageCode(r.code))
      ensures Wrote(old(privateResults), privateResults, field, r)
      ensures smooth ==> old(smooth) && (r.Done? || !attached)
    {
      r := UsePage();
      if r.Done? {
        var bytes: nat :| true;
        r := Store(field, bytes);
      }
    }

    /** Metrics are disabled again whatever happened; a failing disable replaces the outcome but keeps the result. */
    method CapturePerformance(field: string) returns (r: Outcome)
      requires Valid() && (attached ==> cleaning || checked) && field in program.privateFields
      modifies `trace, `privateResults, `smooth
      ensures Grew(old(trace), trace)
      ensures Valid() && (r.Failed? ==> PageCode(r.code))
      ensures Wrote(old(privateResults), privateResults, field, r)
      ensures smooth ==> old(smooth) && (r.Done? || !attached)
      ensures r.Done? ==> LastSent(trace, PerformanceDisable)
    {
      r := Command(PerformanceEnable);
      if r.Done? {
        ghost var enabled := trace;
        r := MeasurePerformance(field);
        GrewFurther(old(trace), enabled, trace);
      }
    }

    /** The try and finally blocks. */
    method MeasurePerformance(field: string) returns (r: Outcome)
      requires Valid() && (attached ==> cleaning || checked) && field in program.privateFields
      modifies `trace, `privateResults, `smooth
      ensures Grew(old(trace), trace)
      ensures Valid() && (r.Failed? ==> PageCode(r.code))
      ensures Wrote(old(privateResults), privateResults, field, r)
      ensures smooth ==> old(smooth) && (r.Done? || !attached)
      ensures attached ==> LastSent(trace, PerformanceDisable)
    {
      r := StoreMetrics(field);
      ghost var stored := trace;
      r := DisableMetrics(r);
      GrewFurther(old(trace), stored, trace);
    }

    method DisableMetrics(o: Outcome) returns (r: Outcome)
      requires Valid() && (attached ==> cleaning || checked) && (o.Failed? ==> PageCode(o.code))
      modifies `trace, `smooth
      ensures Valid() && (r.Failed? ==> PageCode(r.code)) && Grew(old(trace), trace)
      ensures r == o || !Keeps(r)
      ensures smooth ==> old(smooth) && (r == o || !attached)
      ensures attached ==> trace == Then(old(trace), Sent(PerformanceDisable, tabId.value, cleaning))
    {
      r := Command(PerformanceDisable);
      if r.Done? {
        r := o;
      }
    }

    method StoreMetrics(field: string) returns (r: Outcome)
      requires Valid() && (attached ==> cleaning || checked) && field in program.privateFields
      modifies `trace, `privateResults, `smooth
      ensures Grew(old(trace), trace)
      ensures Valid() && (r.Failed? ==> PageCode(r.code))
      ensures Wrote(old(privateResults), privateResults, field, r)
      ensures smooth ==> old(smooth) && (r.Done? || !attached)
    {
      r := Command(PerformanceGetMetrics);
      if r.Done? {
        var bytes: nat :| true;
        r := Store(field, bytes);
      }
    }

    method StartDownloadCapture(field: string) returns (r: Outcome)
      requires Valid() && field in program.privateFields
      modifies `captures, `listeners
      ensures Valid() && (r.Failed? ==> PageCode(r.code))
      ensures captures == if r.Done? then old(captures)[DownloadCapture := field] else old(captures)
      ensures r.Done? <==> DownloadCapture !in old(captures) && hasDownloadEvents
    {
      if DownloadCapture in captures || !hasDownloadEvents {
        return Failed(CaptureStateInvalid(DownloadCapture));
      }
      CapturesStart(attached, targetListener, listeners, captures, program.privateFields, DownloadCapture, field);
      captures := captures[DownloadCapture := field];
      listeners := listeners + {DownloadCreated, DownloadChanged};
      return Done;
    }

    /** Log, request and console captures differ only in the protocol domain they enable. */
    method StartEventCapture(kind: CaptureKind, field: string) returns (r: Outcome)
      requires Valid() && (attached ==> cleaning || checked)
      requires kind != DownloadCapture && field in program.privateFields
      modifies `trace, `captures, `listeners, `smooth
      ensures Grew(old(trace), trace)
      ensures Valid() && (r.Failed? ==> PageCode(r.code))
      ensures captures == if r.Done? then old(captures)[kind := field] else old(captures)
      ensures smooth ==> old(smooth) && (r.Done? || !attached || kind in old(captures) || !hasDebuggerEvents)
      ensures r.Done? ==> tabId.Some? && trace == Then(old(trace), Sent(EnableMethod(kind), tabId.value, cleaning))
    {
      if !attached || kind in captures || !hasDebuggerEvents {
        return Failed(CaptureStateInvalid(kind));
      }
      RegisterCapture(kind, field);
      r := Command(EnableMethod(kind));
      if r.Failed? {
        DropCapture(kind);
      }
    }

    method RegisterCapture(kind: CaptureKind, field: string)
      requires Valid() && kind != DownloadCapture && kind !in captures && field in program.privateFields
      modifies `captures, `listeners
      ensures Valid() && captures == old(captures)[kind := field] && captures - {kind} == old(captures)
    {
      CapturesStart(attached, targetListener, listeners, captures, program.privateFields, kind, field);
      captures := captures[kind := field];
      listeners := listeners + {CaptureEvents(kind)};
    }

    method DropCapture(kind: CaptureKind)
      requires Valid() && kind != DownloadCapture
      modifies `captures, `listeners
      ensures Valid() && captures == old(captures) - {kind}
    {
      CapturesStop(attached, targetListener, listeners, captures, program.privateFields, kind);
      captures := captures - {kind};
      listeners := listeners - {CaptureEvents(kind)};
    }

    /**
     * A download that is not finished is not waited for: only a first look that finds all of them finished succeeds.
     */
    method StopDownloadCapture(bestEffort: bool, timeoutMs: int) returns (r: Outcome)
      requires Valid()
      modifies `trace, `captures, `listeners, `privateResults, `smooth
      ensures Valid() && (r.Failed? ==> PageCode(r.code)) && Grew(old(trace), trace)
      ensures CaptureStopped(DownloadCapture, bestEffort, old(captures), captures,
                             old(privateResults), privateResults, r)
      ensures !bestEffort && r.Done? ==> OneLook(old(trace), trace, Done)
      ensures !bestEffort && DownloadCapture in old(captures) &&
              OneLook(old(trace), trace, Failed(DownloadNotComplete)) ==>
                r == Failed(DownloadNotComplete) && captures == old(captures)
      ensures bestEffort ==> trace == old(trace)
      ensures smooth ==> old(smooth) && (r.Done? || DownloadCapture !in old(captures))
    {
      if DownloadCapture !in captures {
        return if bestEffort then Done else Failed(CaptureStateInvalid(DownloadCapture));
      }
      var field := captures[DownloadCapture];
      r := Done;
      if !bestEffort {
        r := AwaitDownloads(timeoutMs);
      }
      if r.Done? {
        DropDownloads();
        if !bestEffort {
          var bytes: nat :| true;
          r := Store(field, bytes);
          }
      }
    }

    method AwaitDownloads(timeoutMs: int) returns (r: Outcome)
      requires Valid()
      modifies `trace, `smooth
      ensures Valid() && (r.Failed? ==> PageCode(r.code)) && Grew(old(trace), trace)
      ensures OneLook(old(trace), trace, r) || r in {Failed(JobCancelled), Failed(JobTimeout)}
      ensures forall o :: OneLook(old(trace), trace, o) ==> o == r
      ensures smooth ==> old(smooth) && r.Done?
    {
      ghost var w;
      r, w := WaitFor(DownloadsFinished, timeoutMs, program.limits.maxRepeat);
    }

    method DropDownloads()
      requires Valid()
      modifies `captures, `listeners
      ensures Valid() && captures == old(captures) - {DownloadCapture}
    {
      CapturesStop(attached, targetListener, listeners, captures, program.privateFields, DownloadCapture);
      captures := captures - {DownloadCapture};
      listeners := listeners - {DownloadCreated, DownloadChanged};
    }

    method StopEventCapture(kind: CaptureKind, bestEffort: bool) returns (r: Outcome)
      requires Valid() && (attached ==> cleaning || checked) && kind != DownloadCapture
      modifies `trace, `captures, `listeners, `privateResults, `smooth
      ensures Grew(old(trace), trace)
      ensures Valid() && (r.Failed? ==> PageCode(r.code))
      ensures CaptureStopped(kind, bestEffort, old(captures), captures, old(privateResults), privateResults, r)
      ensures captures == old(captures) - {kind}
      ensures smooth ==> old(smooth) && (r.Done? || !attached || kind !in old(captures))
    {
      if kind !in captures {
        return if bestEffort then Done else Failed(CaptureStateInvalid(kind));
      }
      var field := captures[kind];
      var disabled := EndEventCapture(kind);
      r := Done;
      if !bestEffort {
        r := DeliverEvents(kind, field, disabled);
      }
    }

    /** The result of a capture that has ended: what disabling its domain said, then what it collected. */
    method DeliverEvents(kind: CaptureKind, field: string, disabled: Outcome) returns (r: Outcome)
      requires Valid() && field in program.privateFields
      modifies `privateResults, `smooth
      ensures Valid() && (r.Failed? ==> PageCode(r.code))
      ensures r.Done? ==> Fields(privateResults) == Fields(old(privateResults)) + {field}
      ensures Keeps(r) ==> Fields(old(privateResults)) <= Fields(privateResults)
      ensures smooth ==> old(smooth) && (r.Done? || disabled.Failed?)
    {
      if disabled.Failed? {
        return Failed(CaptureCleanupFailed(kind));
      }
      var malformed: bool := *;  // the capture saw an event it could not represent
      Note(!malformed);
      if malformed {
        return Failed(PrivateEventInvalid(kind));
      }
      var bytes: nat :| true;
      r := Store(field, bytes);
    }

    /** The capture is dropped and its listener removed before its domain is disabled, so a failure cannot leak them. */
    method EndEventCapture(kind: CaptureKind) returns (disabled: Outcome)
      requires Valid() && (attached ==> cleaning || checked) && kind in captures && kind != DownloadCapture
      modifies `trace, `captures, `listeners, `smooth
      ensures Grew(old(trace), trace)
      ensures Valid() && captures == old(captures) - {kind}
      ensures smooth ==> old(smooth) && (disabled.Done? || !attached)
      ensures attached ==> trace == Then(old(trace), Sent(DisableMethod(kind), tabId.value, cleaning))
    {
      DropCapture(kind);
      disabled := Command(DisableMethod(kind));
    }

    method RequestMutation() returns (authorized: bool)
      requires Valid()
      modifies `trace, `granted, `smooth
      ensures Valid() && granted == authorized && trace == Then(old(trace), BoundaryAnswered(authorized))
      ensures smooth ==> old(smooth) && authorized
    {
      authorized := *;
      granted, smooth := authorized, smooth && authorized;
      Record(BoundaryAnswered(authorized));
    }

    /** The governed boundary: only a grant, an uncancelled job and an undrifted target let the mutation begin. */
    method CrossBoundary() returns (r: Outcome)
      requires Valid()
      modifies `trace, `granted, `mutationStarted, `startedAt, `smooth
      ensures Valid() && Grew(old(trace), trace)
      ensures r.Done? ==> mutationStarted && granted && startedAt == |counted| && !old(mutationStarted)
      ensures r.Done? ==>
                trace.Then? && trace.event == MutationBegan && JustChecked(trace.before, tabId, expectedUrl) &&
                InTime(trace.before.before, deadline) &&
                trace.before.before.before == Then(old(trace), BoundaryAnswered(true))
      ensures r.Failed? ==> mutationStarted == old(mutationStarted) && startedAt == old(startedAt) && PageCode(r.code)
      ensures smooth ==>
                old(smooth) && (r.Done? || program.capability != Mutation || old(mutationStarted) || tabId.None?)
    {
      if program.capability != Mutation || mutationStarted {
        return Failed(MutationStateInvalid);
      }
      var authorized := RequestMutation();
      ghost var asked := trace;
      r := CheckGrant(authorized);
      GrewFurther(old(trace), asked, trace);
      if r.Done? {
        BeginMutation();
      }
    }

    /** The deadline, the grant, the target. */
    method CheckGrant(authorized: bool) returns (r: Outcome)
      requires Valid()
      modifies `trace, `smooth
      ensures Valid() && (r.Failed? ==> PageCode(r.code)) && Grew(old(trace), trace)
      ensures r.Done? ==>
                authorized && JustChecked(trace, tabId, expectedUrl) && InTime(trace.before, deadline) &&
                trace.before.before == old(trace)
      ensures smooth ==> old(smooth) && (r.Done? || !authorized || tabId.None?)
    {
      r := CheckDeadline();
      if r.Failed? {
        return;
      }
      if !authorized {
        return Failed(MutationDenied);
      }
      r := AssertExactTarget();
    }

    method BeginMutation()
      requires Valid() && !mutationStarted && granted && MayBegin(trace, deadline)
      modifies `trace, `mutationStarted, `startedAt
      ensures Valid() && mutationStarted && startedAt == |counted| && trace == Then(old(trace), MutationBegan)
    {
      mutationStarted := true;
      startedAt := |counted|;
      trace := Then(trace, MutationBegan);
    }

    // ----- running actions

    method RunNavigation(action: Action) returns (r: Outcome)
      requires Valid() && ValidAction(action, program) && IsNavigation(action.op) && (attached ==> checked)
      modifies `trace, `expectedUrl, `smooth
      ensures r.Done? ==> TabActionDone(action, Target(), trace)
      ensures Grew(old(trace), trace)
      ensures Valid() && (r.Failed? ==> PageCode(r.code))
      ensures smooth ==> old(smooth) && (r.Done? || !FitsLeaf(action.op, Here(), old(Now())))
      ensures r.Done? ==> Now() == AfterLeaf(action.op, old(Now()))
    {
      match action.op
      case NavigateSameOrigin => r := NavigateTo(action.url.value, NavigationFailed);
      case NavigateHistory => r := NavigateTo(action.url.value, HistoryNavigationFailed);
      case ReloadExactTarget => r := Reload();
    }

    method RunTargetAction(action: Action) returns (r: Outcome)
      requires Valid() && ValidAction(action, program) && IsTabAction(action.op) && !IsNavigation(action.op)
      modifies `trace, `tabId, `targetTabId, `expectedUrl, `createdTab, `closingTarget, `checked, `smooth
      ensures r.Done? ==> TabActionDone(action, Target(), trace)
      ensures Grew(old(trace), trace)
      ensures Valid() && (r.Failed? ==> PageCode(r.code))
      ensures smooth ==> old(smooth) && (r.Done? || !FitsLeaf(action.op, Here(), old(Now())))
      ensures r.Done? ==> Now() == AfterLeaf(action.op, old(Now()))
    {
      match action.op
      case OpenOrFocusExactUrl => r := OpenOrFocus();
      case CreateSameOriginTab => r := CreateSameOriginTab(action.url.value);
      case CloseTargetTab => r := CloseTargetTab();
      case AssertExactTarget => r := AssertExactTarget();
    }

    method RunTabAction(action: Action) returns (r: Outcome)
      requires Valid() && ValidAction(action, program) && IsTabAction(action.op)
      requires action.op != OpenOrFocusExactUrl && attached ==> checked
      modifies `trace, `tabId, `targetTabId, `expectedUrl, `createdTab, `closingTarget, `checked, `smooth
      ensures r.Done? ==> TabActionDone(action, Target(), trace)
      ensures Grew(old(trace), trace)
      ensures Valid() && (r.Failed? ==> PageCode(r.code))
      ensures smooth ==> old(smooth) && (r.Done? || !FitsLeaf(action.op, Here(), old(Now())))
      ensures r.Done? ==> Now() == AfterLeaf(action.op, old(Now()))
    {
      if IsNavigation(action.op) {
        r := RunNavigation(action);
      } else {
        r := RunTargetAction(action);
      }
    }

    method RunPageAction(action: Action) returns (r: Outcome)
      requires Valid() && (attached ==> checked)
      requires !IsTabAction(action.op) && !HasEffect(action.op) && !action.op.Unsupported? && !action.op.FirstSuccess?
      modifies `trace, `smooth
      ensures Grew(old(trace), trace)
      ensures Valid() && (r.Failed? ==> PageCode(r.code))
      ensures smooth ==> old(smooth) && (r.Done? || !FitsLeaf(action.op, Here(), old(Now())))
      ensures r.Done? ==> Now() == AfterLeaf(action.op, old(Now()))
    {
      if action.op.WaitAx? || action.op.WaitDom? || action.op.WaitAxPrivateValue? {
        ghost var w;
        r, w := WaitFor(PageCondition, action.timeoutMs, program.limits.maxRepeat);
      } else if action.op.WaitDuration? {
        r := Done;
      } else {
        r := UsePage();
      }
    }

    method StartCaptureOf(kind: CaptureKind, field: string) returns (r: Outcome)
      requires Valid() && (attached ==> checked) && field in program.privateFields
      modifies `trace, `captures, `listeners, `smooth
      ensures Valid() && (r.Failed? ==> PageCode(r.code)) && Grew(old(trace), trace)
      ensures captures == if r.Done? then old(captures)[kind := field] else old(captures)
      ensures smooth ==>
                old(smooth) &&
                (r.Done? || kind in old(captures) ||
                 (if kind == DownloadCapture then !hasDownloadEvents else !attached || !hasDebuggerEvents))
    {
      if kind == DownloadCapture {
        r := StartDownloadCapture(field);
      } else {
        r := StartEventCapture(kind, field);
      }
    }

    method RunStartCapture(action: Action) returns (r: Outcome)
      requires Valid() && ValidAction(action, program) && action.op.StartCapture?
      requires attached ==> checked
      modifies `trace, `captures, `listeners, `smooth
      ensures Grew(old(trace), trace)
      ensures Valid() && (r.Failed? ==> PageCode(r.code))
      ensures LeafEffect(action, old(View()), View(), r)
      ensures smooth ==> old(smooth) && (r.Done? || !FitsLeaf(action.op, Here(), old(Now())))
      ensures r.Done? ==> Now() == AfterLeaf(action.op, old(Now()))
    {
      ghost var s, q, before := View(), Now(), captures;
      r := StartCaptureOf(action.op.kind, action.field.value);
      StartEffect(action, s, View(), r);
      StartLeads(action.op, Here(), q, Now(), before, captures, action.field.value, r, smooth);
    }

    method StopCaptureOf(kind: CaptureKind, timeoutMs: int) returns (r: Outcome)
      requires Valid() && (attached ==> checked)
      modifies `trace, `captures, `listeners, `privateResults, `smooth
      ensures Valid() && (r.Failed? ==> PageCode(r.code)) && Grew(old(trace), trace)
      ensures CaptureStopped(kind, false, old(captures), captures, old(privateResults), privateResults, r)
      ensures smooth ==> old(smooth) && (r.Done? || kind !in old(captures) || (kind != DownloadCapture && !attached))
    {
      if kind == DownloadCapture {
        r := StopDownloadCapture(false, timeoutMs);
      } else {
        r := StopEventCapture(kind, false);
      }
    }

    method RunStopCapture(action: Action) returns (r: Outcome)
      requires Valid() && action.op.StopCapture? && (attached ==> checked)
      modifies `trace, `captures, `listeners, `privateResults, `smooth
      ensures Grew(old(trace), trace)
      ensures Valid() && (r.Failed? ==> PageCode(r.code))
      ensures LeafEffect(action, old(View()), View(), r)
      ensures smooth ==> old(smooth) && (r.Done? || !FitsLeaf(action.op, Here(), old(Now())))
      ensures r.Done? ==> Now() == AfterLeaf(action.op, old(Now()))
    {
      ghost var s, q, before, running := View(), Now(), privateResults, captures;
      r := StopCaptureOf(action.op.kind, action.timeoutMs);
      StopEffect(action, s, View(), r, before, privateResults);
      StopLeads(action.op, Here(), q, Now(), running, captures, r, smooth);
    }

    method WriteResult(op: Op, field: string) returns (r: Outcome)
      requires Valid() && field in program.privateFields && WritesPrivateResult(op) && (attached ==> checked)
      modifies `trace, `privateResults, `smooth
      ensures Valid() && (r.Failed? ==> PageCode(r.code)) && Grew(old(trace), trace)
      ensures Wrote(old(privateResults), privateResults, field, r)
      ensures smooth ==> old(smooth) && (r.Done? || !FitsLeaf(op, Here(), old(Now())))
      ensures r.Done? && op == CapturePerformancePrivate ==> LastSent(trace, PerformanceDisable)
    {
      if op == CapturePerformancePrivate {
        r := CapturePerformance(field);
      } else {
        r := ExtractPrivate(field);
      }
    }

    method RunResultAction(action: Action) returns (r: Outcome)
      requires Valid() && ValidAction(action, program) && WritesPrivateResult(action.op)
      requires attached ==> checked
      modifies `trace, `privateResults, `smooth
      ensures Grew(old(trace), trace)
      ensures Valid() && (r.Failed? ==> PageCode(r.code))
      ensures LeafEffect(action, old(View()), View(), r)
      ensures smooth ==> old(smooth) && (r.Done? || !FitsLeaf(action.op, Here(), old(Now())))
      ensures r.Done? ==> Now() == AfterLeaf(action.op, old(Now()))
    {
      ghost var s, before := View(), privateResults;
      r := WriteResult(action.op, action.field.value);
      WriteEffect(action, s, View(), r, before, privateResults);
    }

    method RunBoundary(action: Action) returns (r: Outcome)
      requires Valid() && action.op.BeforeMutation?
      modifies `trace, `granted, `mutationStarted, `startedAt, `smooth
      ensures Valid() && (r.Failed? ==> PageCode(r.code)) && Grew(old(trace), trace)
      ensures LeafEffect(action, old(View()), View(), r)
      ensures smooth ==> old(smooth) && (r.Done? || !FitsLeaf(action.op, Here(), old(Now())))
      ensures r.Done? ==> Now() == AfterLeaf(action.op, old(Now()))
    {
      ghost var s := View();
      r := CrossBoundary();
      BoundaryEffect(action, s, View(), r);
    }

    method RunAttach(action: Action) returns (r: Outcome)
      requires Valid() && action.op.AttachDebugger? && (tabId.Some? ==> checked)
      modifies `trace, `attached, `targetListener, `listeners, `smooth
      ensures Valid() && (r.Failed? ==> PageCode(r.code)) && Grew(old(trace), trace)
      ensures LeafEffect(action, old(View()), View(), r)
      ensures smooth ==> old(smooth) && (r.Done? || !FitsLeaf(action.op, Here(), old(Now())))
      ensures r.Done? ==> Now() == AfterLeaf(action.op, old(Now()))
    {
      ghost var s := View();
      r := AttachDebugger();
      SessionEffect(action, s, View(), r);
    }

    method RunDetach(action: Action) returns (r: Outcome)
      requires Valid() && action.op.DetachDebugger? && (tabId.Some? ==> checked)
      modifies `trace, `attached, `targetListener, `listeners, `smooth
      ensures Valid() && (r.Failed? ==> PageCode(r.code)) && Grew(old(trace), trace)
      ensures LeafEffect(action, old(View()), View(), r)
      ensures smooth ==> old(smooth) && (r.Done? || !FitsLeaf(action.op, Here(), old(Now())))
      ensures r.Done? ==> Now() == AfterLeaf(action.op, old(Now()))
      ensures r.Done? ==> trace.Then? && trace.event == Released(true)
    {
      ghost var s := View();
      r := DetachDebugger(false);
      SessionEffect(action, s, View(), r);
    }

    method RunSessionAction(action: Action) returns (r: Outcome)
      requires Valid() && (action.op.AttachDebugger? || action.op.DetachDebugger? || action.op.BeforeMutation?)
      requires tabId.Some? ==> checked
      modifies `trace, `attached, `targetListener, `listeners, `granted, `mutationStarted, `startedAt, `smooth
      ensures Grew(old(trace), trace)
      ensures Valid() && (r.Failed? ==> PageCode(r.code))
      ensures LeafEffect(action, old(View()), View(), r)
      ensures smooth ==> old(smooth) && (r.Done? || !FitsLeaf(action.op, Here(), old(Now())))
      ensures r.Done? ==> Now() == AfterLeaf(action.op, old(Now()))
    {
      if action.op.BeforeMutation? {
        r := RunBoundary(action);
      } else if action.op.AttachDebugger? {
        r := RunAttach(action);
      } else {
        r := RunDetach(action);
      }
    }

    /** One handler, with the effect its operation is allowed to have. */
    method RunLeaf(action: Action) returns (r: Outcome)
      requires Valid() && ValidAction(action, program) && !action.op.FirstSuccess?
      requires action.op != OpenOrFocusExactUrl && tabId.Some? ==> checked
      modifies `trace, `tabId, `targetTabId, `expectedUrl, `createdTab, `closingTarget, `checked, `attached,
               `targetListener, `listeners, `captures, `privateResults, `granted, `mutationStarted, `startedAt, `smooth
      ensures r.Done? ==> TabActionDone(action, Target(), trace)
      ensures Grew(old(trace), trace)
      ensures Valid() && (r.Failed? ==> PageCode(r.code) || action.op.Unsupported?)
      ensures LeafEffect(action, old(View()), View(), r)
      ensures smooth ==> old(smooth) && (r.Done? || !FitsLeaf(action.op, Here(), old(Now())))
      ensures r.Done? ==> Now() == AfterLeaf(action.op, old(Now()))
    {
      if HasEffect(action.op) {
        r := RunEffect(action);
      } else {
        r := RunQuiet(action);
      }
    }

    method RunQuiet(action: Action) returns (r: Outcome)
      requires Valid() && ValidAction(action, program) && !HasEffect(action.op) && !action.op.FirstSuccess?
      requires action.op != OpenOrFocusExactUrl && tabId.Some? ==> checked
      modifies `trace, `tabId, `targetTabId, `expectedUrl, `createdTab, `closingTarget, `checked, `smooth
      ensures Valid() && (r.Failed? ==> PageCode(r.code) || action.op.Unsupported?) && Grew(old(trace), trace)
      ensures LeafEffect(action, old(View()), View(), r)
      ensures r.Done? ==> TabActionDone(action, Target(), trace)
      ensures smooth ==> old(smooth) && (r.Done? || !FitsLeaf(action.op, Here(), old(Now())))
      ensures r.Done? ==> Now() == AfterLeaf(action.op, old(Now()))
    {
      ghost var s := View();
      r := RunQuietAction(action);
      QuietEffect(action, s, r);
    }

    method RunEffect(action: Action) returns (r: Outcome)
      requires Valid() && ValidAction(action, program) && HasEffect(action.op)
      requires tabId.Some? ==> checked
      modifies `trace, `attached, `targetListener, `listeners, `captures, `privateResults, `granted,
               `mutationStarted, `startedAt, `smooth
      ensures Valid() && (r.Failed? ==> PageCode(r.code)) && Grew(old(trace), trace)
      ensures LeafEffect(action, old(View()), View(), r)
      ensures smooth ==> old(smooth) && (r.Done? || !FitsLeaf(action.op, Here(), old(Now())))
      ensures r.Done? ==> Now() == AfterLeaf(action.op, old(Now()))
    {
      if action.op.StartCapture? {
        r := RunStartCapture(action);
      } else if action.op.StopCapture? {
        r := RunStopCapture(action);
      } else if WritesPrivateResult(action.op) {
        r := RunResultAction(action);
      } else {
        r := RunSessionAction(action);
      }
    }

    method RunQuietAction(action: Action) returns (r: Outcome)
      requires Valid() && ValidAction(action, program) && !HasEffect(action.op) && !action.op.FirstSuccess?
      requires action.op != OpenOrFocusExactUrl && tabId.Some? ==> checked
      modifies `trace, `tabId, `targetTabId, `expectedUrl, `createdTab, `closingTarget, `checked, `smooth
      ensures r.Done? ==> TabActionDone(action, Target(), trace)
      ensures Grew(old(trace), trace)
      ensures Valid() && (r.Failed? ==> PageCode(r.code) || action.op.Unsupported?)
      ensures smooth ==> old(smooth) && (r.Done? || !FitsLeaf(action.op, Here(), old(Now())))
      ensures r.Done? ==> Now() == AfterLeaf(action.op, old(Now()))
    {
      if IsTabAction(action.op) {
        r := RunTabAction(action);
      } else if action.op.Unsupported? {
        r := Failed(UnsupportedActionCode);
      } else {
        r := RunPageAction(action);
      }
    }

    /** Count the action against the budget, then check that the tab still is the exact target. */
    method EnterAction(action: Action) returns (r: Outcome)
      requires Valid() && InTime(trace, deadline)
      modifies `actionCount, `counted, `trace, `checked, `smooth
      ensures Valid() && counted == old(counted) + [action]
      ensures r.Failed? ==> trace == Then(old(trace), Start(action)) && ActionStep(action, old(View()), View(), r)
      ensures r.Done? ==>
                if tabId.Some? && action.op != OpenOrFocusExactUrl
                then checked && JustChecked(trace, tabId, expectedUrl) &&
                     trace.before == Then(old(trace), Start(action))
                else trace == Then(old(trace), Start(action))
      ensures |counted| <= program.limits.maxActions ==> r != Failed(ActionLimitExceeded)
      ensures r.Failed? ==> PageCode(r.code) || r.code == ActionLimitExceeded
      ensures smooth ==> old(smooth) && (r.Done? || r.code == ActionLimitExceeded)
    {
      ghost var s := View();
      CountAction(action);
      r := CheckEntered(action);
      if r.Failed? {
        CountedStep(action, s, r);
      }
    }

    /** The budget, then the target. */
    method CheckEntered(action: Action) returns (r: Outcome)
      requires Valid() && JustStarted(trace) && !checked
      modifies `trace, `checked, `smooth
      ensures Valid() && (r.Failed? ==> trace == old(trace))
      ensures r.Done? ==>
                if tabId.Some? && action.op != OpenOrFocusExactUrl
                then checked && JustChecked(trace, tabId, expectedUrl) && trace.before == old(trace)
                else trace == old(trace)
      ensures |counted| <= program.limits.maxActions ==> r != Failed(ActionLimitExceeded)
      ensures r.Failed? ==> PageCode(r.code) || r.code == ActionLimitExceeded
      ensures smooth ==> old(smooth) && (r.Done? || r.code == ActionLimitExceeded)
    {
      if actionCount > program.limits.maxActions {
        return Failed(ActionLimitExceeded);
      }
      r := Done;
      if tabId.Some? && action.op != OpenOrFocusExactUrl {
        r := CheckTarget();
      }
    }

    method CountAction(action: Action)
      requires Valid() && InTime(trace, deadline)
      modifies `actionCount, `counted, `trace, `checked
      ensures Valid() && counted == old(counted) + [action] && trace == Then(old(trace), Start(action)) && !checked
      ensures View() == old(View()).(counted := old(counted) + [action])
    {
      actionCount := actionCount + 1;
      counted, trace, checked := counted + [action], Then(trace, Start(action)), false;
    }

    /** The check at the start of an action; from here on its commands are guarded. */
    method CheckTarget() returns (r: Outcome)
      requires Valid() && JustStarted(trace) && !checked
      modifies `trace, `checked, `smooth
      ensures Valid() && checked == r.Done? && (r.Failed? ==> PageCode(r.code) && trace == old(trace))
      ensures r.Done? ==> JustChecked(trace, tabId, expectedUrl) && trace.before == old(trace)
      ensures smooth ==> old(smooth) && (r.Done? || tabId.None?)
    {
      r := AssertExactTarget();
      checked := r.Done?;
    }

    /** Count one action, check its target, and run its handler. */
    method RunOne(action: Action, ghost fits: bool, ghost want: Stage) returns (r: Outcome)
      requires Valid() && !cleaning && InTime(trace, deadline)
      requires BranchesWellPlaced(FlatAction(action)) && AllValid(FlatAction(action), program)
      requires ForeseenOne(action, Here(), Now(), fits, want)
      modifies this
      ensures r.Done? ==> TabActionDone(action, Target(), trace)
      ensures Valid() && !cleaning && deadline == old(deadline)
      ensures ActionStep(action, old(View()), View(), r)
      ensures Entered(old(trace), trace, action, old(tabId), old(expectedUrl), r)
      ensures EndsWell(program, r, |old(counted)| + |FlatAction(action)|)
      ensures smooth ==> old(smooth)
      ensures Through(fits, want, Now(), r, smooth)
      decreases action, 1
    {
      ghost var s, base := View(), trace;
      r := EnterAction(action);
      ghost var entered, tab, url := trace, tabId, expectedUrl;
      if r.Done? {
        r := Perform(action, s, fits, want);
      }
      EnteredBy(base, entered, trace, action, tab, url, r);
    }

    /** The handler of a counted action; if it succeeds the action is completed. */
    method Perform(action: Action, ghost s: Snap, ghost fits: bool, ghost want: Stage) returns (r: Outcome)
      requires Valid() && !cleaning && View() == s.(counted := s.counted + [action])
      requires BranchesWellPlaced(FlatAction(action)) && AllValid(FlatAction(action), program)
      requires action.op != OpenOrFocusExactUrl && tabId.Some? ==> checked
      requires ForeseenOne(action, Here(), Now(), fits, want)
      modifies this
      ensures r.Done? ==> TabActionDone(action, Target(), trace)
      ensures Valid() && !cleaning && deadline == old(deadline) && Grew(old(trace), trace)
      ensures ActionStep(action, s, View(), r)
      ensures EndsWell(program, r, |s.counted| + |FlatAction(action)|)
      ensures smooth ==> old(smooth)
      ensures Through(fits, want, Now(), r, smooth)
      decreases action, 0, 1
    {
      ghost var m := View();
      r := Handle(action, fits, want);
      ghost var t := View();
      Complete(action, r);
      HandledStep(action, s, m, t, r);
    }

    ghost method Complete(action: Action, r: Outcome)
      requires Valid()
      modifies `completed
      ensures Valid() && View() == Ended(action, old(View()), r)
    {
      if r.Done? {
        completed := completed + [action];
      }
    }

    method Handle(action: Action, ghost fits: bool, ghost want: Stage) returns (r: Outcome)
      requires Valid() && !cleaning
      requires BranchesWellPlaced(FlatAction(action)) && AllValid(FlatAction(action), program)
      requires action.op != OpenOrFocusExactUrl && tabId.Some? ==> checked
      requires ForeseenOne(action, Here(), Now(), fits, want)
      modifies this
      ensures r.Done? ==> TabActionDone(action, Target(), trace)
      ensures Valid() && !cleaning && deadline == old(deadline) && Grew(old(trace), trace)
      ensures HandlerEffect(action, old(View()), View(), r)
      ensures EndsWell(program, r, |old(counted)| + |FlatAction(action)| - 1)
      ensures smooth ==> old(smooth)
      ensures Through(fits, want, Now(), r, smooth)
      decreases action, 0, 0, 1
    {
      assert FlatAction(action)[0] == action;
      if action.op.FirstSuccess? {
        r := HandleChoice(action, fits, want);
      } else {
        r := RunLeaf(action);
      }
    }

    method HandleChoice(action: Action, ghost fits: bool, ghost want: Stage) returns (r: Outcome)
      requires Valid() && !cleaning && action.op.FirstSuccess?
      requires BranchesWellPlaced(FlatAction(action)) && AllValid(FlatAction(action), program)
      requires ForeseenOne(action, Here(), Now(), fits, want)
      modifies this
      ensures Valid() && !cleaning && deadline == old(deadline) && Grew(old(trace), trace)
      ensures HandlerEffect(action, old(View()), View(), r)
      ensures EndsWell(program, r, |old(counted)| + |FlatAction(action)| - 1)
      ensures smooth ==> old(smooth)
      ensures Through(fits, want, Now(), r, smooth)
      decreases action, 0, 0, 0
    {
      assert FlatAction(action)[0] == action;
      assert FlatAction(action)[1..] == FlatBranches(action.branches.list);
      ghost var tries;
      r, tries := RunBranches(action.branches.list, fits, want);
    }

    method RunActions(actions: seq<Action>) returns (r: Outcome, ghost snaps: seq<Snap>)
      requires Valid() && !cleaning
      requires BranchesWellPlaced(Flat(actions)) && AllValid(Flat(actions), program)
      modifies this
      ensures Valid() && !cleaning && deadline == old(deadline) && Grew(old(trace), trace)
      ensures ListRun(actions, snaps, View(), r) && snaps[0] == old(View())
      ensures EndsWell(program, r, |old(counted)| + |Flat(actions)|)
      ensures smooth ==> old(smooth)
      ensures Through(FitsAll(actions, Here(), old(Now())), AfterAll(actions, old(Now())), Now(), r, smooth)
      decreases actions, 2
    {
      ghost var first := Now();
      OnCourseAtFirst(actions, Here(), first);
      snaps := [View()];
      r := Done;
      var i := 0;
      while i < |actions|
        invariant 0 <= i <= |actions| && r.Done?
        invariant Valid() && !cleaning && deadline == old(deadline)
        invariant Grew(old(trace), trace) && (smooth ==> old(smooth))
        invariant smooth ==> OnCourse(actions, i, Here(), first, Now())
        invariant Chain(actions, snaps) && |snaps| == i + 1 && snaps[0] == old(View()) && snaps[i] == View()
      {
        ghost var so, q := trace, Now();
        ghost var fits, want := FitsOne(actions[i], Here(), q), AfterOne(actions[i], q);
        r, snaps := RunNext(actions, i, snaps, fits, want);
        GrewFurther(old(trace), so, trace);
        if r.Failed? {
          return;
        }
        if smooth {
          OnCourseNext(actions, i, Here(), first, q, Now());
        }
        i := i + 1;
      }
      if smooth {
        OnCourseAtLast(actions, Here(), first, Now());
      }
    }

    /** One round of the loop: cancellation and deadline, then the action. */
    method RunNext(actions: seq<Action>, i: nat, ghost snaps: seq<Snap>, ghost fits: bool, ghost want: Stage)
        returns (r: Outcome, ghost more: seq<Snap>)
      requires Valid() && !cleaning && i < |actions|
      requires BranchesWellPlaced(Flat(actions)) && AllValid(Flat(actions), program)
      requires Chain(actions, snaps) && |snaps| == i + 1 && snaps[i] == View()
      requires ForeseenOne(actions[i], Here(), Now(), fits, want)
      modifies this
      ensures Valid() && !cleaning && deadline == old(deadline) && Grew(old(trace), trace)
      ensures r.Done? ==> Chain(actions, more) && more == snaps + [View()]
      ensures r.Failed? ==> ListRun(actions, more, View(), r) && more == snaps
      ensures EndsWell(program, r, |snaps[0].counted| + |Flat(actions)|)
      ensures smooth ==> old(smooth)
      ensures Through(fits, want, Now(), r, smooth)
      decreases actions, 1
    {
      r := CheckDeadline();
      if r.Done? {
        ghost var read := trace;
        r, more := RunAt(actions, i, snaps, fits, want);
        GrewFurther(old(trace), read, trace);
      } else {
        ListHalts(actions, snaps, r);
        more := snaps;
      }
    }

    /** The loop body after the deadline check. */
    method RunAt(actions: seq<Action>, i: nat, ghost snaps: seq<Snap>, ghost fits: bool, ghost want: Stage)
        returns (r: Outcome, ghost more: seq<Snap>)
      requires Valid() && !cleaning && i < |actions| && InTime(trace, deadline)
      requires BranchesWellPlaced(Flat(actions)) && AllValid(Flat(actions), program)
      requires Chain(actions, snaps) && |snaps| == i + 1 && snaps[i] == View()
      requires ForeseenOne(actions[i], Here(), Now(), fits, want)
      modifies this
      ensures Valid() && !cleaning && deadline == old(deadline) && Grew(old(trace), trace)
      ensures r.Done? ==> Chain(actions, more) && more == snaps + [View()]
      ensures r.Failed? ==> ListRun(actions, more, View(), r) && more == snaps
      ensures EndsWell(program, r, |snaps[0].counted| + |Flat(actions)|)
      ensures smooth ==> old(smooth)
      ensures Through(fits, want, Now(), r, smooth)
      decreases actions, 0
    {
      NextAction(actions, i, program);
      ChainCounts(actions, snaps, i);
      r := RunOne(actions[i], fits, want);
      GrewFurther(old(trace), Then(old(trace), Start(actions[i])), trace);
      ListStep(actions, snaps, View(), r);
      more := if r.Done? then snaps + [View()] else snaps;
    }

    /** `first_success`: the first branch that runs through wins; only recoverable failures move on to the next. */
    method RunBranches(list: seq<Branch>, ghost fits: bool, ghost want: Stage)
        returns (r: Outcome, ghost tries: Tries)
      requires Valid() && !cleaning
      requires BranchesWellPlaced(FlatBranches(list)) && AllValid(FlatBranches(list), program)
      requires ForeseenChoice(list, Here(), Now(), fits, want)
      modifies this
      ensures Valid() && !cleaning && deadline == old(deadline) && Grew(old(trace), trace)
      ensures Chosen(list, old(View()), tries, r, View())
      ensures EndsWell(program, r, |old(counted)| + |FlatBranches(list)|)
      ensures smooth ==> old(smooth)
      ensures Through(fits, want, Now(), r, smooth)
      decreases list, 3
    {
      ghost var s, base := View(), trace;
      WithinSame(s, true);
      r, tries := TryAll(list, s, base, fits, want);
    }

    /** The loop of a choice that began at `s`. */
    method TryAll(list: seq<Branch>, ghost s: Snap, ghost base: History, ghost fits: bool, ghost want: Stage)
        returns (r: Outcome, ghost tries: Tries)
      requires Valid() && !cleaning && View() == s && trace == base && Within([], s, s, true)
      requires BranchesWellPlaced(FlatBranches(list)) && AllValid(FlatBranches(list), program)
      requires ForeseenChoice(list, Here(), Now(), fits, want)
      modifies this
      ensures Valid() && !cleaning && deadline == old(deadline) && Grew(base, trace)
      ensures Chosen(list, s, tries, r, View()) && EndsWell(program, r, |s.counted| + |FlatBranches(list)|)
      ensures smooth ==> old(smooth)
      ensures Through(fits, want, Now(), r, smooth)
      decreases list, 2
    {
      tries := NoTries;
      var i := 0;
      while i < |list|
        invariant 0 <= i <= |list| && Choosing(list, i, s, tries, View())
        invariant Valid() && !cleaning && deadline == old(deadline) && Grew(base, trace)
        invariant smooth ==> old(smooth)
        invariant if i == 0 then ForeseenChoice(list, Here(), Now(), fits, want) else !(smooth && fits)
      {
        var settled;
        r, settled, tries := TryNext(list, i, s, base, tries, fits && i == 0, want);
        if settled {
          return;
        }
        i := i + 1;
      }
      NoBranchLeft(program, list, s, tries, View(), fits, want, Now(), smooth);
      return Failed(AllBranchesFailed), tries;
    }

    /** One round of the loop. */
    method TryNext(list: seq<Branch>, i: nat, ghost s: Snap, ghost base: History, ghost tries: Tries,
                   ghost fits: bool, ghost want: Stage)
        returns (r: Outcome, settled: bool, ghost more: Tries)
      requires Valid() && !cleaning && i < |list|
      requires BranchesWellPlaced(FlatBranches(list)) && AllValid(FlatBranches(list), program)
      requires Choosing(list, i, s, tries, View()) && Grew(base, trace)
      requires Foreseen(list[i].body, Here(), Now(), fits, want)
      modifies this
      ensures Valid() && !cleaning && deadline == old(deadline) && Grew(base, trace)
      ensures if settled then Chosen(list, s, more, r, View()) else Choosing(list, i + 1, s, more, View())
      ensures EndsWell(program, r, |s.counted| + |FlatBranches(list)|)
      ensures smooth ==> old(smooth)
      ensures Through(fits, want, Now(), r, smooth)
      ensures smooth && fits ==> settled
      decreases list, 1
    {
      ghost var so, start, y;
      so, start := trace, View();
      r, settled, y := TryBranch(list, i, s, fits, want);
      GrewFurther(base, so, trace);
      more := AndThen(tries, y);
      NextTried(list, i, s, tries, y, start, r, settled);
    }

    /**
     * One branch, run to its outcome; it settles the choice unless it failed recoverably and the target was just seen
     * to be exact.
     */
    method TryBranch(list: seq<Branch>, i: nat, ghost s: Snap, ghost fits: bool, ghost want: Stage)
        returns (r: Outcome, settled: bool, ghost y: Try)
      requires Valid() && !cleaning && i < |list|
      requires BranchesWellPlaced(FlatBranches(list)) && AllValid(FlatBranches(list), program)
      requires Within(FlatBranches(list[..i]), s, View(), true)
      requires Foreseen(list[i].body, Here(), Now(), fits, want)
      modifies this
      ensures Valid() && !cleaning && deadline == old(deadline) && Grew(old(trace), trace)
      ensures Tried(list[i], old(View()), y) && y.end == View() && y.passed == !settled
      ensures y.after == trace && y.tab == tabId && y.url == expectedUrl
      ensures Settles(y.outcome, r, settled)
      ensures BranchWithin(list, i, s, View(), r, settled)
      ensures EndsWell(program, r, |s.counted| + |FlatBranches(list)|)
      ensures smooth ==> old(smooth)
      ensures Through(fits, want, Now(), r, smooth)
      ensures smooth && fits ==> settled
      decreases list, 0
    {
      ghost var start := View();
      var ended;
      ghost var snaps;
      ended, snaps := RunBranch(list, i, s);
      ghost var so, q, was := trace, Now(), smooth;
      r, settled, y := SettleBranch(list, i, s, start, ended, snaps);
      GrewFurther(old(trace), so, trace);
      SettlesThrough(fits, want, q, ended, r, settled, was, smooth);
    }

    /** The branch has run to `ended`; what becomes of the choice. */
    method SettleBranch(
        list: seq<Branch>, i: nat, ghost s: Snap, ghost start: Snap, ended: Outcome, ghost snaps: seq<Snap>)
        returns (r: Outcome, settled: bool, ghost y: Try)
      requires Valid() && i < |list| && ListRun(list[i].body, snaps, View(), ended) && snaps[0] == start
      requires Within(FlatBranches(list), s, View(), Keeps(ended))
      requires Within(FlatBranches(list[..i + 1]), s, View(), Keeps(ended))
      requires EndsWell(program, ended, |s.counted| + |FlatBranches(list)|)
      modifies `trace, `smooth
      ensures Valid() && Grew(old(trace), trace) && (smooth ==> old(smooth))
      ensures Tried(list[i], start, y) && y.end == View() && y.passed == !settled && y.outcome == ended
      ensures y.after == trace && y.tab == tabId && y.url == expectedUrl
      ensures Settles(ended, r, settled)
      ensures BranchWithin(list, i, s, View(), r, settled)
      ensures EndsWell(program, r, |s.counted| + |FlatBranches(list)|)
    {
      r, settled := Settle(ended);
      y := Try(snaps, View(), ended, !settled, trace, tabId, expectedUrl);
      BranchSettled(list, i, s, View(), ended, r, settled);
    }

    /** The catch clause: rethrow, or check the target and let the next branch try. */
    method Settle(o: Outcome) returns (r: Outcome, settled: bool)
      requires Valid()
      modifies `trace, `smooth
      ensures Valid() && View() == old(View()) && Grew(old(trace), trace)
      ensures Settles(o, r, settled)
      ensures !settled ==> JustChecked(trace, tabId, expectedUrl) && trace.before == old(trace)
      ensures smooth ==> old(smooth)
    {
      r := o;
      settled := o.Done? || !RecoverableBranch(o.code);
      if !settled {
        r := AssertExactTarget();
        settled := r.Failed?;
      }
    }

    method RunBranch(list: seq<Branch>, i: nat, ghost s: Snap) returns (r: Outcome, ghost snaps: seq<Snap>)
      requires Valid() && !cleaning && i < |list|
      requires BranchesWellPlaced(FlatBranches(list)) && AllValid(FlatBranches(list), program)
      requires Within(FlatBranches(list[..i]), s, View(), true)
      modifies this
      ensures Valid() && !cleaning && deadline == old(deadline) && Grew(old(trace), trace)
      ensures ListRun(list[i].body, snaps, View(), r) && snaps[0] == old(View())
      ensures Within(FlatBranches(list), s, View(), Keeps(r))
      ensures Within(FlatBranches(list[..i + 1]), s, View(), Keeps(r))
      ensures EndsWell(program, r, |s.counted| + |FlatBranches(list)|)
      ensures smooth ==> old(smooth)
      ensures Through(FitsAll(list[i].body, Here(), old(Now())), AfterAll(list[i].body, old(Now())), Now(), r, smooth)
      decreases list, 0, 0
    {
      ghost var m := View();
      BranchInside(list, i, s, m);
      r, snaps := RunActions(list[i].body);
      BranchRan(list, i, s, m, snaps, View(), r);
    }

    /** The `finally` block: stop every capture and detach, swallowing every failure. */
    method Cleanup()
      requires Valid()
      modifies `trace, `captures, `listeners, `privateResults, `attached, `targetListener, `cleaning, `smooth
      ensures Valid() && !attached && captures == map[] && listeners == {} && Grew(old(trace), trace)
      ensures privateResults == old(privateResults)
      ensures smooth ==> old(smooth)
    {
      cleaning := true;
      StopCaptures();
      if attached {
        ghost var so := trace;
        var ignored := DetachDebugger(true);
        GrewFurther(old(trace), so, trace);
      }
    }

    method StopCaptures()
      requires Valid() && cleaning
      modifies `trace, `captures, `listeners, `privateResults, `smooth
      ensures Valid() && captures == map[] && captures.Keys == {} && privateResults == old(privateResults)
      ensures Grew(old(trace), trace)
      ensures smooth ==> old(smooth)
    {
      var ignored := StopEventCapture(ConsoleCapture, true);
      ignored := StopDownloadCapture(true, 100);
      ghost var console := trace;
      ignored := StopEventCapture(RequestCapture, true);
      GrewFurther(old(trace), console, trace);
      ghost var request := trace;
      ignored := StopEventCapture(LogCapture, true);
      GrewFurther(old(trace), request, trace);
      NoCaptures(captures);
    }

    /** Everything about the executor once `run` has ended, successfully or not. */
    ghost predicate Finished(r: Outcome)
      reads this
    {
      Valid() && !attached && captures == map[] && listeners == {} &&
      Grew(Then(NoEvents, Clock(deadline - program.limits.timeoutMs)), trace) && RunGuarantee(program, View(), r) &&
      (r.Done? && ExtractionsTopLevel(program) ==> Fields(privateResults) == set f | f in program.privateFields) &&
      (r.Failed? ==> PageCode(r.code))
    }

    /** The try block of `run`; the leaked-debugger check never fires. */
    method RunProgram() returns (r: Outcome)
      requires Valid() && View() == FRESH && !cleaning && Governed(program)
      modifies this
      ensures Valid() && !cleaning && RunGuarantee(program, View(), r) && (r.Failed? ==> PageCode(r.code))
      ensures Grew(old(trace), trace) && deadline == old(deadline)
      ensures smooth && FitsAll(program.actions, Here(), old(Now())) ==> r.Done?
    {
      ghost var snaps;
      r, snaps := RunActions(program.actions);
      if r.Done? && attached {
        r := Failed(DebuggerLeftAttached);
      }
    }

    /** `Date.now() + timeout_ms`, before anything else happens. */
    method SetDeadline()
      requires Valid() && trace == NoEvents
      modifies `trace, `deadline
      ensures Valid() && trace == Then(NoEvents, Clock(deadline - program.limits.timeoutMs))
    {
      var now := ReadClock();
      deadline := now + program.limits.timeoutMs;
    }

    /** The program, then cleanup on every path. */
    method RunGoverned() returns (r: Outcome)
      requires Valid() && View() == FRESH && !cleaning && Governed(program) && trace == NoEvents
      modifies this
      ensures Finished(r)
      ensures smooth && FitsAll(program.actions, Here(), old(Now())) ==> r.Done?
    {
      SetDeadline();
      r := RunUntil();
    }

    method RunUntil() returns (r: Outcome)
      requires Valid() && View() == FRESH && !cleaning && Governed(program)
      requires trace == Then(NoEvents, Clock(deadline - program.limits.timeoutMs))
      modifies this
      ensures Finished(r)
      ensures smooth && FitsAll(program.actions, Here(), old(Now())) ==> r.Done?
    {
      r := RunProgram();
      ghost var t, done := View(), trace;
      Cleanup();
      GrewFurther(old(trace), done, trace);
      GuaranteeAfterCleanup(program, t, View(), r);
    }

    /** `run`, on any program the static rules accept, by a new executor. */
    method Run() returns (r: Outcome)
      requires Valid() && View() == FRESH && !cleaning && Accepted(program) && trace == NoEvents
      modifies this
      ensures Finished(r)
      ensures smooth && FitsAll(program.actions, Here(), old(Now())) ==> r.Done?
    {
      AcceptedIsGoverned(program);
      r := RunGoverned();
    }
  }
}
