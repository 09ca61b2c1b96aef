/** What a chain of action steps implies for an accepted program, whatever the browser answered. */
module RunLaws {
  import opened Common
  import opened Program
  import opened Acceptance
  import opened ExecutorModel

  /**
   * The part of the executor's state that acceptance constrains. `counted` lists the actions in the order they were
   * begun, `completed` those that succeeded in the order they ended.
   */
  datatype Snap = Snap(
    counted: seq<Action>,
    completed: seq<Action>,
    attached: bool,
    mutationStarted: bool,
    startedAt: nat,
    granted: bool,
    captures: map<CaptureKind, string>,
    fields: set<string>)

  predicate SameCapture(s: Snap, t: Snap, kind: CaptureKind) {
    (kind in s.captures) == (kind in t.captures) && (kind in s.captures ==> s.captures[kind] == t.captures[kind])
  }

  predicate SameBoundary(s: Snap, t: Snap) {
    t.mutationStarted == s.mutationStarted && t.startedAt == s.startedAt && t.granted == s.granted
  }

  predicate CaptureFree(flat: seq<Action>, kind: CaptureKind) {
    Count(flat, StartCapture(kind)) == 0 && Count(flat, StopCapture(kind)) == 0
  }

  /** Failures after which already written private results are still there. */
  predicate Keeps(o: Outcome) {
    o.Done? || RecoverableBranch(o.code)
  }

  /** From `s` to `t` only actions of `flat` were counted, in order, and what `flat` never touches is unchanged. */
  ghost predicate Within(flat: seq<Action>, s: Snap, t: Snap, keeps: bool) {
    s.counted <= t.counted && Subseq(t.counted[|s.counted|..], flat) &&
    (Count(flat, AttachDebugger) == 0 ==> t.attached ==> s.attached) &&
    (Count(flat, BeforeMutation) == 0 ==> SameBoundary(s, t)) &&
    (forall kind | CaptureFree(flat, kind) :: SameCapture(s, t, kind)) &&
    (keeps ==> s.fields <= t.fields)
  }

  lemma WithinCompose(f: seq<Action>, g: seq<Action>, s: Snap, m: Snap, t: Snap, keeps: bool)
    requires Within(f, s, m, true) && Within(g, m, t, keeps)
    ensures Within(f + g, s, t, keeps)
  {
    var d, e := m.counted[|s.counted|..], t.counted[|m.counted|..];
    SubseqConcat(d, f, e, g);
    assert t.counted[|s.counted|..] == d + e;
    CountConcat(f, g, AttachDebugger);
    CountConcat(f, g, BeforeMutation);
    forall kind | CaptureFree(f + g, kind)
      ensures SameCapture(s, t, kind)
    {
      CountConcat(f, g, StartCapture(kind));
      CountConcat(f, g, StopCapture(kind));
      assert CaptureFree(f, kind) && CaptureFree(g, kind);
    }
  }

  lemma WithinSame(s: Snap, keeps: bool)
    ensures Within([], s, s, keeps)
  {
  }

  lemma WithinWiden(f: seq<Action>, g: seq<Action>, s: Snap, t: Snap, keeps: bool)
    requires Within(f, s, t, keeps)
    ensures Within(f + g, s, t, keeps)
  {
    SubseqWiden(t.counted[|s.counted|..], f, g);
    CountConcat(f, g, AttachDebugger);
    CountConcat(f, g, BeforeMutation);
    forall kind | CaptureFree(f + g, kind)
      ensures SameCapture(s, t, kind)
    {
      CountConcat(f, g, StartCapture(kind));
      CountConcat(f, g, StopCapture(kind));
      assert CaptureFree(f, kind);
    }
  }

  /** Every action of some branch is among `done`, in order. */
  ghost predicate RanThrough(list: seq<Branch>, done: seq<Action>) {
    exists i | 0 <= i < |list| :: Subseq(list[i].body, done)
  }

  /** Before a choice ended well, some branch of it ran through. */
  ghost predicate ChoicesHold(completed: seq<Action>) {
    forall k | 0 <= k < |completed| && completed[k].branches.Present? ::
      RanThrough(completed[k].branches.list, completed[..k])
  }

  ghost predicate Adds(before: seq<Action>, after: seq<Action>) {
    before <= after && (ChoicesHold(before) ==> ChoicesHold(after))
  }

  /** An action that succeeds is the last to be completed, a choice after all actions of one of its branches. */
  ghost predicate Finishes(a: Action, before: seq<Action>, after: seq<Action>, o: Outcome) {
    Adds(before, after) && (a.branches.Absent? ==> after == before + if o.Done? then [a] else []) &&
    (o.Done? ==>
       |before| < |after| && after[|after| - 1] == a &&
       (a.branches.Present? ==> RanThrough(a.branches.list, after[|before|..|after| - 1])))
  }

  lemma AddsOn(a: seq<Action>, b: seq<Action>, c: seq<Action>)
    requires Adds(a, b) && Adds(b, c)
    ensures Adds(a, c)
  {
  }

  lemma RanThroughMore(list: seq<Branch>, before: seq<Action>, done: seq<Action>)
    requires RanThrough(list, done)
    ensures RanThrough(list, before + done)
  {
    var i :| 0 <= i < |list| && Subseq(list[i].body, done);
    SubseqConcat([], before, list[i].body, done);
    assert [] + list[i].body == list[i].body;
  }

  /** One more completed action, which is a leaf or a choice one of whose branches ran through. */
  lemma OneMoreCompleted(completed: seq<Action>, a: Action)
    requires a.branches.Present? ==> RanThrough(a.branches.list, completed)
    ensures Adds(completed, completed + [a])
  {
    var after := completed + [a];
    if ChoicesHold(completed) {
      forall k | 0 <= k < |after| && after[k].branches.Present?
        ensures RanThrough(after[k].branches.list, after[..k])
      {
        if k < |completed| {
          assert after[..k] == completed[..k];
        } else {
          assert after[..k] == completed;
        }
      }
    }
  }

  /** What one counted action may do, by operation. */
  ghost predicate ActionStep(a: Action, s: Snap, t: Snap, o: Outcome) {
    Within(FlatAction(a), s, t, Keeps(o)) && Finishes(a, s.completed, t.completed, o) &&
    |s.counted| < |t.counted| && t.counted[|s.counted|] == a &&
    (a.branches.Absent? ==> t.counted == s.counted + [a]) &&
    (a.op == DetachDebugger && o.Done? ==> !t.attached) &&
    (a.op == BeforeMutation ==>
       (if o.Done? then t.mutationStarted && t.startedAt == |t.counted| && t.granted
        else t.mutationStarted == s.mutationStarted && t.startedAt == s.startedAt)) &&
    (o.Done? && WritesPrivateResult(a.op) ==> a.field.Some? && a.field.value in t.fields) &&
    (o.Done? && a.op.StartCapture? ==>
       a.field.Some? && a.op.kind in t.captures && t.captures[a.op.kind] == a.field.value) &&
    (o.Done? && a.op.StopCapture? ==> a.op.kind in s.captures && s.captures[a.op.kind] in t.fields)
  }

  ghost predicate Link(actions: seq<Action>, snaps: seq<Snap>, i: nat)
    requires i < |snaps| - 1 <= |actions|
  {
    ActionStep(actions[i], snaps[i], snaps[i + 1], Done)
  }

  /** `snaps[i]` is the state after the first `i` actions succeeded. */
  ghost predicate Chain(actions: seq<Action>, snaps: seq<Snap>) {
    1 <= |snaps| <= |actions| + 1 && forall i: nat | i < |snaps| - 1 :: Link(actions, snaps, i)
  }

  /** A run of the list: all actions succeed, or the first failure ends it. */
  ghost predicate ListRun(actions: seq<Action>, snaps: seq<Snap>, t: Snap, o: Outcome) {
    Chain(actions, snaps) &&
    var n := |snaps| - 1;
    if o.Done? then n == |actions| && t == snaps[n]
    else n < |actions| && (t == snaps[n] || ActionStep(actions[n], snaps[n], t, o))
  }

  lemma ChainSnoc(actions: seq<Action>, snaps: seq<Snap>, t: Snap)
    requires Chain(actions, snaps) && |snaps| <= |actions|
    requires ActionStep(actions[|snaps| - 1], snaps[|snaps| - 1], t, Done)
    ensures Chain(actions, snaps + [t])
  {
    var all := snaps + [t];
    forall i: nat | i < |all| - 1
      ensures Link(actions, all, i)
    {
      if i < |snaps| - 1 {
        assert Link(actions, snaps, i);
      }
    }
  }

  lemma LinkWithin(actions: seq<Action>, snaps: seq<Snap>, k: nat)
    requires Chain(actions, snaps) && k < |snaps| - 1
    ensures Within(FlatAction(actions[k]), snaps[k], snaps[k + 1], true)
  {
    assert Link(actions, snaps, k);
  }

  lemma {:induction false} ChainWithin(actions: seq<Action>, snaps: seq<Snap>, i: nat, k: nat)
    requires Chain(actions, snaps) && i <= k < |snaps|
    ensures Within(Flat(actions[i..k]), snaps[i], snaps[k], true)
    decreases k
  {
    if i < k {
      ChainWithin(actions, snaps, i, k - 1);
      LinkWithin(actions, snaps, k - 1);
      assert actions[i..k] == actions[i..k - 1] + [actions[k - 1]];
      FlatConcat(actions[i..k - 1], [actions[k - 1]]);
      FlatSingleton(actions[k - 1]);
      WithinCompose(Flat(actions[i..k - 1]), FlatAction(actions[k - 1]), snaps[i], snaps[k - 1], snaps[k], true);
    } else {
      assert actions[i..k] == [];
    }
  }

  /** Counted actions are a subsequence of the flattened program, whatever failed. */
  lemma RunWithin(actions: seq<Action>, snaps: seq<Snap>, t: Snap, o: Outcome)
    requires ListRun(actions, snaps, t, o)
    ensures Within(Flat(actions), snaps[0], t, Keeps(o))
  {
    var n := |snaps| - 1;
    ChainWithin(actions, snaps, 0, n);
    assert actions[0..n] == actions[..n];
    if o.Done? {
      assert actions[..n] == actions;
    } else {
      FlatCut(actions, n + 1);
      FlatSnoc(actions, n);
      if t == snaps[n] {
        FlatCut(actions, n);
        assert Within(Flat(actions[..n]), snaps[0], t, Keeps(o));
        WithinWiden(Flat(actions[..n]), Flat(actions[n..]), snaps[0], t, Keeps(o));
      } else {
        WithinCompose(Flat(actions[..n]), FlatAction(actions[n]), snaps[0], snaps[n], t, Keeps(o));
        WithinWiden(Flat(actions[..n + 1]), Flat(actions[n + 1..]), snaps[0], t, Keeps(o));
      }
    }
  }

  lemma {:induction false} ChainFinishes(actions: seq<Action>, snaps: seq<Snap>, k: nat)
    requires Chain(actions, snaps) && k < |snaps|
    ensures Adds(snaps[0].completed, snaps[k].completed)
    ensures Subseq(actions[..k], snaps[k].completed[|snaps[0].completed|..])
    decreases k
  {
    if k > 0 {
      ChainFinishes(actions, snaps, k - 1);
      assert Link(actions, snaps, k - 1);
      AddsOn(snaps[0].completed, snaps[k - 1].completed, snaps[k].completed);
      OneMoreInOrder(actions, k - 1, snaps[0].completed, snaps[k - 1].completed, snaps[k].completed);
    }
  }

  lemma OneMoreInOrder(actions: seq<Action>, k: nat, base: seq<Action>, before: seq<Action>, after: seq<Action>)
    requires k < |actions| && base <= before && Finishes(actions[k], before, after, Done)
    requires Subseq(actions[..k], before[|base|..])
    ensures Subseq(actions[..k + 1], after[|base|..])
  {
    var n := |after| - 1;
    var more := after[|before|..n];
    SubseqWiden(actions[..k], before[|base|..], more);
    SubseqOne(actions[k]);
    SubseqConcat(actions[..k], before[|base|..] + more, [actions[k]], [actions[k]]);
    assert before == base + before[|base|..] && after == before + more + [actions[k]];
    assert after == base + (before[|base|..] + more + [actions[k]]);
    assert after[|base|..] == before[|base|..] + more + [actions[k]];
    TakeOneMore(actions, k);
  }

  /** A successful run completed all actions of the list, in order; any run completes choices only by their branches. */
  lemma RunFinishes(actions: seq<Action>, snaps: seq<Snap>, t: Snap, o: Outcome)
    requires ListRun(actions, snaps, t, o)
    ensures Adds(snaps[0].completed, t.completed)
    ensures o.Done? ==> Subseq(actions, t.completed[|snaps[0].completed|..])
  {
    var n := |snaps| - 1;
    ChainFinishes(actions, snaps, n);
    if o.Done? {
      assert actions[..n] == actions;
    } else {
      AddsOn(snaps[0].completed, snaps[n].completed, t.completed);
    }
  }

  /** Without branches the counted actions are the list itself, up to the point reached. */
  lemma {:induction false} ChainLeaves(actions: seq<Action>, snaps: seq<Snap>, i: nat, k: nat)
    requires Chain(actions, snaps) && i <= k < |snaps|
    requires forall j | i <= j < k :: actions[j].branches.Absent?
    ensures snaps[k].counted == snaps[i].counted + actions[i..k]
    decreases k
  {
    if i < k {
      ChainLeaves(actions, snaps, i, k - 1);
      assert Link(actions, snaps, k - 1);
      assert actions[i..k] == actions[i..k - 1] + [actions[k - 1]];
    }
  }

  const FRESH := Snap([], [], false, false, 0, false, map[], {})

  /** The action budget is never exceeded, and open, attach, detach and the boundary are each attempted at most once. */
  lemma CountedWithinBudget(p: Program, snaps: seq<Snap>, t: Snap, o: Outcome)
    requires Lawful(p) && ListRun(p.actions, snaps, t, o) && snaps[0] == FRESH
    ensures Subseq(t.counted, Flat(p.actions))
    ensures |t.counted| <= p.limits.maxActions
    ensures Count(t.counted, OpenOrFocusExactUrl) <= 1 && Count(t.counted, AttachDebugger) <= 1 &&
            Count(t.counted, DetachDebugger) <= 1 && Count(t.counted, BeforeMutation) <= 1
  {
    RunWithin(p.actions, snaps, t, o);
    assert t.counted[0..] == t.counted;
    SubseqLength(t.counted, Flat(p.actions));
    SubseqCount(t.counted, Flat(p.actions), OpenOrFocusExactUrl);
    SubseqCount(t.counted, Flat(p.actions), AttachDebugger);
    SubseqCount(t.counted, Flat(p.actions), DetachDebugger);
    SubseqCount(t.counted, Flat(p.actions), BeforeMutation);
    LifecycleMeaning(p.actions);
    BoundaryMeaning(p.actions);
  }

  /** When every action succeeded, the debugger was detached by the program itself. */
  lemma DetachedWhenDone(top: seq<Action>, snaps: seq<Snap>, t: Snap, a: nat, d: nat)
    requires LifecycleShape(top, a, d) && ListRun(top, snaps, t, Done)
    ensures !t.attached
  {
    AbsentInSuffix(top, AttachDebugger, a, d);
    DetachedAfter(top, snaps, d);
  }

  lemma DetachedAfter(top: seq<Action>, snaps: seq<Snap>, d: nat)
    requires Chain(top, snaps) && |snaps| == |top| + 1 && d < |top| && top[d].op == DetachDebugger
    requires Count(Flat(top[d + 1..]), AttachDebugger) == 0
    ensures !snaps[|top|].attached
  {
    assert Link(top, snaps, d);
    NeverReattached(top, snaps, d + 1);
  }

  lemma NeverReattached(top: seq<Action>, snaps: seq<Snap>, k: nat)
    requires Chain(top, snaps) && |snaps| == |top| + 1 && k <= |top| && Count(Flat(top[k..]), AttachDebugger) == 0
    ensures snaps[|top|].attached ==> snaps[k].attached
  {
    ChainWithin(top, snaps, k, |top|);
    assert top[k..|top|] == top[k..];
  }

  lemma AbsentInSuffix(top: seq<Action>, op: Op, a: nat, d: nat)
    requires Only(top, op, a) && a <= d < |top|
    ensures Count(Flat(top[d + 1..]), op) == 0
  {
    var rest := top[a + 1..];
    FlatCut(rest, d - a);
    assert rest[d - a..] == top[d + 1..];
    CountConcat(Flat(rest[..d - a]), Flat(rest[d - a..]), op);
  }

  /**
   * The counted actions since the boundary are a contiguous run of the actions that follow it; all of them on success.
   */
  ghost predicate ContiguousAfter(top: seq<Action>, b: nat, t: Snap, o: Outcome) {
    BoundaryShape(top, b) && t.granted && t.startedAt <= |t.counted| &&
    t.counted[t.startedAt..] <= top[b + 1..] &&
    (o.Done? ==> t.counted[t.startedAt..] == top[b + 1..])
  }

  /** A program without a boundary never begins a mutation. */
  lemma NoBoundaryNoMutation(top: seq<Action>, snaps: seq<Snap>, t: Snap, o: Outcome)
    requires Nowhere(top, BeforeMutation) && ListRun(top, snaps, t, o) && snaps[0] == FRESH
    ensures !t.mutationStarted
  {
    RunWithin(top, snaps, t, o);
  }

  /** A mutation begins only with the grant, is reached by every successful run, and what follows it is linear. */
  lemma BoundaryRun(top: seq<Action>, snaps: seq<Snap>, t: Snap, o: Outcome, b: nat)
    requires ListRun(top, snaps, t, o) && BranchesWellPlaced(Flat(top)) && BoundaryShape(top, b)
    requires !snaps[0].mutationStarted
    ensures o.Done? ==> t.mutationStarted
    ensures t.mutationStarted ==> ContiguousAfter(top, b, t, o)
  {
    var n := |snaps| - 1;
    if b < n {
      SuffixAfter(top, snaps, b, n);
      if t != snaps[n] {
        SuffixLeaf(top, b, n);
        BoundaryAbsentAfter(top, b, n);
        LeafStep(top[n], snaps[n], t, o);
        LastAfter(top, snaps[n], t, b, n);
      } else {
        assert top[b + 1..n] <= top[b + 1..];
      }
    } else {
      UntouchedBefore(top, snaps, b, n);
      if t != snaps[n] && n < b {
        BoundaryAbsentBefore(top, b, n);
      }
    }
  }

  lemma LeafStep(a: Action, s: Snap, t: Snap, o: Outcome)
    requires ActionStep(a, s, t, o) && a.branches.Absent?
    ensures t.counted == s.counted + [a]
    ensures Count(FlatAction(a), BeforeMutation) == 0 ==> SameBoundary(s, t)
  {
  }

  lemma LastAfter(top: seq<Action>, s: Snap, t: Snap, b: nat, n: nat)
    requires b < n < |top|
    requires s.startedAt <= |s.counted| && s.counted[s.startedAt..] == top[b + 1..n]
    requires t.counted == s.counted + [top[n]] && t.startedAt == s.startedAt
    ensures t.counted[t.startedAt..] <= top[b + 1..]
  {
    assert t.counted[t.startedAt..] == s.counted[s.startedAt..] + [top[n]];
    assert top[b + 1..n] + [top[n]] == top[b + 1..][..n - b];
  }

  lemma BoundaryAbsentBefore(top: seq<Action>, b: nat, k: nat)
    requires BoundaryShape(top, b) && k < b
    ensures Count(FlatAction(top[k]), BeforeMutation) == 0
  {
    assert top[..b] == top[..k] + ([top[k]] + top[k + 1..b]);
    FlatConcat(top[..k], [top[k]] + top[k + 1..b]);
    FlatConcat([top[k]], top[k + 1..b]);
    FlatSingleton(top[k]);
    CountConcat(Flat(top[..k]), FlatAction(top[k]) + Flat(top[k + 1..b]), BeforeMutation);
    CountConcat(FlatAction(top[k]), Flat(top[k + 1..b]), BeforeMutation);
  }

  lemma BoundaryAbsentAfter(top: seq<Action>, b: nat, k: nat)
    requires BoundaryShape(top, b) && b < k < |top|
    ensures Count(FlatAction(top[k]), BeforeMutation) == 0
  {
    var rest := top[b + 1..];
    CountAround(rest, BeforeMutation, k - b - 1);
  }

  lemma SuffixLeaf(top: seq<Action>, b: nat, k: nat)
    requires BranchesWellPlaced(Flat(top)) && BoundaryShape(top, b) && b < k < |top|
    ensures top[k].branches.Absent?
  {
    CountZero(top[b + 1..], FirstSuccess);
    assert top[b + 1..][k - b - 1] in top[b + 1..];
    TopMembersInFlat(top, k);
  }

  lemma UntouchedBefore(top: seq<Action>, snaps: seq<Snap>, b: nat, k: nat)
    requires Chain(top, snaps) && BoundaryShape(top, b) && k <= b && k < |snaps|
    ensures SameBoundary(snaps[0], snaps[k])
  {
    ChainWithin(top, snaps, 0, k);
    assert top[0..k] == top[..k];
    assert top[..b] == top[..k] + top[k..b];
    FlatConcat(top[..k], top[k..b]);
    CountConcat(Flat(top[..k]), Flat(top[k..b]), BeforeMutation);
  }

  lemma SuffixAfter(top: seq<Action>, snaps: seq<Snap>, b: nat, n: nat)
    requires Chain(top, snaps) && BoundaryShape(top, b) && b < n < |snaps| && BranchesWellPlaced(Flat(top))
    ensures snaps[n].mutationStarted && snaps[n].granted && snaps[n].startedAt <= |snaps[n].counted|
    ensures snaps[n].counted[snaps[n].startedAt..] == top[b + 1..n]
  {
    assert Link(top, snaps, b);
    ChainWithin(top, snaps, b + 1, n);
    assert top[b + 1..] == top[b + 1..n] + top[n..];
    FlatConcat(top[b + 1..n], top[n..]);
    CountConcat(Flat(top[b + 1..n]), Flat(top[n..]), BeforeMutation);
    forall j | b + 1 <= j < n
      ensures top[j].branches.Absent?
    {
      SuffixLeaf(top, b, j);
    }
    ChainLeaves(top, snaps, b + 1, n);
  }

  /** A successful run wrote the private result of every top-level extraction action. */
  lemma WrittenAt(top: seq<Action>, snaps: seq<Snap>, k: nat)
    requires Chain(top, snaps) && |snaps| == |top| + 1 && k < |top| && WritesPrivateResult(top[k].op)
    ensures top[k].field.Some? && top[k].field.value in snaps[|top|].fields
  {
    assert Link(top, snaps, k);
    ChainWithin(top, snaps, k + 1, |top|);
  }

  /** A successful run also wrote the private result of every capture it started. */
  lemma CapturedAt(top: seq<Action>, snaps: seq<Snap>, kind: CaptureKind, i: nat, j: nat)
    requires Chain(top, snaps) && |snaps| == |top| + 1 && CaptureShape(top, kind, i, j)
    ensures top[i].field.Some? && top[i].field.value in snaps[|top|].fields
  {
    StillCapturing(top, snaps, kind, i, j);
    StartLink(top, snaps, i, kind);
    StopLink(top, snaps, j, kind);
    FieldsLast(top, snaps, j + 1);
  }

  lemma StartLink(top: seq<Action>, snaps: seq<Snap>, i: nat, kind: CaptureKind)
    requires Chain(top, snaps) && i < |snaps| - 1 && top[i].op == StartCapture(kind)
    ensures top[i].field.Some? && kind in snaps[i + 1].captures && snaps[i + 1].captures[kind] == top[i].field.value
  {
    assert Link(top, snaps, i);
  }

  lemma StopLink(top: seq<Action>, snaps: seq<Snap>, j: nat, kind: CaptureKind)
    requires Chain(top, snaps) && j < |snaps| - 1 && top[j].op == StopCapture(kind)
    ensures kind in snaps[j].captures && snaps[j].captures[kind] in snaps[j + 1].fields
  {
    assert Link(top, snaps, j);
  }

  lemma StillCapturing(top: seq<Action>, snaps: seq<Snap>, kind: CaptureKind, i: nat, j: nat)
    requires Chain(top, snaps) && |snaps| == |top| + 1 && CaptureShape(top, kind, i, j)
    ensures SameCapture(snaps[i + 1], snaps[j], kind)
  {
    BetweenFree(top, kind, i, j);
    ChainWithin(top, snaps, i + 1, j);
  }

  lemma FieldsLast(top: seq<Action>, snaps: seq<Snap>, k: nat)
    requires Chain(top, snaps) && |snaps| == |top| + 1 && k <= |top|
    ensures snaps[k].fields <= snaps[|top|].fields
  {
    ChainWithin(top, snaps, k, |top|);
  }

  lemma BetweenFree(top: seq<Action>, kind: CaptureKind, i: nat, j: nat)
    requires CaptureShape(top, kind, i, j)
    ensures CaptureFree(Flat(top[i + 1..j]), kind)
  {
    AbsentInSlice(top[i + 1..], StartCapture(kind), j - i - 1);
    assert top[i + 1..][..j - i - 1] == top[i + 1..j];
    var before := top[..j];
    FlatCut(before, i + 1);
    assert before[i + 1..] == top[i + 1..j];
    CountConcat(Flat(before[..i + 1]), Flat(before[i + 1..]), StopCapture(kind));
  }

  lemma AbsentInSlice(rest: seq<Action>, op: Op, k: nat)
    requires k <= |rest| && Count(Flat(rest), op) == 0
    ensures Count(Flat(rest[..k]), op) == 0
  {
    FlatCut(rest, k);
    CountConcat(Flat(rest[..k]), Flat(rest[k..]), op);
  }

  lemma CapturedWhenDone(top: seq<Action>, snaps: seq<Snap>, kind: CaptureKind, k: nat)
    requires Chain(top, snaps) && |snaps| == |top| + 1 && CapturePaired(top, kind)
    requires k < |top| && top[k].op == StartCapture(kind)
    ensures top[k].field.Some? && top[k].field.value in snaps[|top|].fields
  {
    TopMembersInFlat(top, k);
    CountZero(Flat(top), StartCapture(kind));
    var i, j :| CaptureShape(top, kind, i, j);
    OnlyUnique(top, StartCapture(kind), i, k);
    CapturedAt(top, snaps, kind, i, j);
  }

  ghost predicate TopExtractionsWritten(top: seq<Action>, t: Snap) {
    forall k | 0 <= k < |top| && Extracts(top[k].op) :: top[k].field.Some? && top[k].field.value in t.fields
  }

  /** Every extraction action of the program is at top level. */
  ghost predicate ExtractionsTopLevel(p: Program) {
    forall a | a in Flat(p.actions) && Extracts(a.op) :: a in p.actions
  }

  lemma PairedAt(top: seq<Action>, kind: CaptureKind)
    requires CapturePaired(top, LogCapture) && CapturePaired(top, RequestCapture) &&
             CapturePaired(top, ConsoleCapture) && CapturePaired(top, DownloadCapture)
    ensures CapturePaired(top, kind)
  {
    match kind
    case LogCapture =>
    case RequestCapture =>
    case ConsoleCapture =>
    case DownloadCapture =>
  }

  lemma TopWritten(top: seq<Action>, snaps: seq<Snap>, k: nat)
    requires Chain(top, snaps) && |snaps| == |top| + 1 && k < |top| && Extracts(top[k].op)
    requires top[k].op.StartCapture? ==> CapturePaired(top, top[k].op.kind)
    ensures top[k].field.Some? && top[k].field.value in snaps[|top|].fields
  {
    if WritesPrivateResult(top[k].op) {
      WrittenAt(top, snaps, k);
    } else {
      CapturedWhenDone(top, snaps, top[k].op.kind, k);
    }
  }

  lemma TopWrittenWhenDone(top: seq<Action>, snaps: seq<Snap>, t: Snap)
    requires ListRun(top, snaps, t, Done)
    requires CapturePaired(top, LogCapture) && CapturePaired(top, RequestCapture) &&
             CapturePaired(top, ConsoleCapture) && CapturePaired(top, DownloadCapture)
    ensures TopExtractionsWritten(top, t)
  {
    forall k | 0 <= k < |top| && Extracts(top[k].op)
      ensures top[k].field.Some? && top[k].field.value in t.fields
    {
      if top[k].op.StartCapture? {
        PairedAt(top, top[k].op.kind);
      }
      TopWritten(top, snaps, k);
    }
  }

  /** With all extractions at top level, a successful run leaves exactly the declared private results. */
  lemma ExactlyDeclared(p: Program, t: Snap)
    requires FieldsMatch(Flat(p.actions), p) && ExtractionsTopLevel(p) && TopExtractionsWritten(p.actions, t)
    requires forall f | f in t.fields :: f in p.privateFields
    ensures t.fields == set f | f in p.privateFields
  {
    forall f | f in p.privateFields
      ensures f in t.fields
    {
      assert f in ExtractedFields(Flat(p.actions));
    }
  }

  /** What every run of an accepted program guarantees, whatever the browser did. */
  ghost predicate RunGuarantee(p: Program, t: Snap, o: Outcome) {
    Subseq(t.counted, Flat(p.actions)) && |t.counted| <= p.limits.maxActions &&
    Count(t.counted, OpenOrFocusExactUrl) <= 1 && Count(t.counted, AttachDebugger) <= 1 &&
    Count(t.counted, DetachDebugger) <= 1 && Count(t.counted, BeforeMutation) <= 1 &&
    (o.Done? ==> !t.attached && TopExtractionsWritten(p.actions, t)) &&
    ChoicesHold(t.completed) && (o.Done? ==> Subseq(p.actions, t.completed)) &&
    (t.mutationStarted ==> p.capability == Mutation && exists b :: ContiguousAfter(p.actions, b, t, o)) &&
    (p.capability == Mutation && o.Done? ==> t.mutationStarted)
  }

  lemma AcceptedFlat(p: Program)
    requires Accepted(p)
    ensures BranchesWellPlaced(Flat(p.actions)) && AllValid(Flat(p.actions), p) &&
            |Flat(p.actions)| <= p.limits.maxActions && FieldsMatch(Flat(p.actions), p)
  {
    AcceptedIff(p);
  }

  /** Static acceptance implies the run guarantee. */
  lemma AcceptedRun(p: Program, snaps: seq<Snap>, t: Snap, o: Outcome)
    requires Accepted(p) && ListRun(p.actions, snaps, t, o) && snaps[0] == FRESH
    ensures RunGuarantee(p, t, o)
  {
    AcceptedIff(p);
    LawfulRun(p, snaps, t, o);
  }

  lemma LawfulRun(p: Program, snaps: seq<Snap>, t: Snap, o: Outcome)
    requires Lawful(p) && ListRun(p.actions, snaps, t, o) && snaps[0] == FRESH
    ensures RunGuarantee(p, t, o)
  {
    CountedWithinBudget(p, snaps, t, o);
    MutationWithinBoundary(p, snaps, t, o);
    CompletedByBranches(p, snaps, t, o);
    if o.Done? {
      TopWrittenWhenDone(p.actions, snaps, t);
      var a, d :| LifecycleShape(p.actions, a, d);
      DetachedWhenDone(p.actions, snaps, t, a, d);
    }
  }

  /** Every choice that succeeded did so by a branch, and a successful program completed all its actions. */
  lemma CompletedByBranches(p: Program, snaps: seq<Snap>, t: Snap, o: Outcome)
    requires ListRun(p.actions, snaps, t, o) && snaps[0] == FRESH
    ensures ChoicesHold(t.completed) && (o.Done? ==> Subseq(p.actions, t.completed))
  {
    RunFinishes(p.actions, snaps, t, o);
    assert t.completed[0..] == t.completed;
  }

  lemma MutationWithinBoundary(p: Program, snaps: seq<Snap>, t: Snap, o: Outcome)
    requires Lawful(p) && ListRun(p.actions, snaps, t, o) && snaps[0] == FRESH
    ensures t.mutationStarted ==> p.capability == Mutation && exists b :: ContiguousAfter(p.actions, b, t, o)
    ensures p.capability == Mutation && o.Done? ==> t.mutationStarted
  {
    if p.capability == Mutation {
      var b :| BoundaryShape(p.actions, b);
      BoundaryRun(p.actions, snaps, t, o, b);
    } else {
      NoBoundaryNoMutation(p.actions, snaps, t, o);
    }
  }

  /** The consequence of acceptance that execution relies on. */
  ghost predicate Governed(p: Program) {
    BranchesWellPlaced(Flat(p.actions)) && AllValid(Flat(p.actions), p) && FieldsMatch(Flat(p.actions), p) &&
    |Flat(p.actions)| <= p.limits.maxActions &&
    forall snaps, t, o | snaps != [] && snaps[0] == FRESH && ListRun(p.actions, snaps, t, o) :: RunGuarantee(p, t, o)
  }

  lemma AcceptedIsGoverned(p: Program)
    requires Accepted(p)
    ensures Governed(p)
  {
    AcceptedFlat(p);
    forall snaps, t, o | snaps != [] && snaps[0] == FRESH && ListRun(p.actions, snaps, t, o)
      ensures RunGuarantee(p, t, o)
    {
      AcceptedRun(p, snaps, t, o);
    }
  }
}
