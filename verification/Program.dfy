/** The typed action-program language and its static acceptance rules (extension/protocol.mjs). */
module Program {
  import opened Common

  /** A URL after parsing; equal raw text means equal components. */
  datatype Url = Url(raw: string, scheme: string, origin: string, credentials: bool, path: string, fragment: string)

  datatype CaptureKind = LogCapture | RequestCapture | ConsoleCapture | DownloadCapture

  datatype Op =
    | OpenOrFocusExactUrl | NavigateSameOrigin | CreateSameOriginTab | NavigateHistory
    | CloseTargetTab | ReloadExactTarget | AssertExactTarget
    | AttachDebugger | DetachDebugger | BeforeMutation | FirstSuccess
    | WaitAx | WaitDom | WaitAxPrivateValue | WaitDuration
    | AssertAx | AssertAxPrivateValue | AssertAxPrivateSha256
    | ClickAx | ClickDom | FocusAx | HoverAx | ScrollAxIntoView | DragAx | SelectAxOption
    | DispatchKeyChord | InsertPrivateText | ScrollViewport | SetPrivateFiles | HandleDialog
    | TriggerCredentialBroker
    | ExtractAx | ExtractAxCollection | CollectAxByScrolling | ExtractAxGeometry
    | CaptureViewportPrivate | CaptureRegionPrivate | CaptureFullPagePrivate
    | CapturePerformancePrivate
    | StartCapture(kind: CaptureKind) | StopCapture(kind: CaptureKind)
    | Unsupported(name: string)

  datatype Branches = Absent | Present(list: seq<Branch>)
  datatype Branch = Branch(body: seq<Action>)

  /**
   * `url` stands for `url` or `expected_url`, `field` for `private_result`; `None` is a missing or malformed member.
   */
  datatype Action = Action(op: Op, url: Option<Url>, field: Option<string>, timeoutMs: int, branches: Branches)

  datatype Capability = Read | Mutation | OtherCapability
  datatype PublicField = StatusField | ActionCountField | MutationStartedField | PrivateResultCountField | UnsafeField
  datatype Target = Target(url: Option<Url>, origin: string, pathPrefixes: seq<string>)
  datatype Limits = Limits(timeoutMs: int, maxActions: int, maxRepeat: int)

  datatype Program = Program(
    capability: Capability,
    target: Target,
    limits: Limits,
    actions: seq<Action>,
    publicFields: seq<PublicField>,
    privateFields: seq<string>)

  datatype Rejection =
    | TargetInvalid | UrlOutsidePolicy | LimitsInvalid | ResultDeclarationInvalid
    | NestedTooDeeply | UnsupportedAction | InvalidBranches | EmptyBranch | UnexpectedBranches
    | TooLarge | ActionInvalid | LifecycleInvalid | ReadRequestsMutation | BoundaryRequired
    | CapabilityInvalid | BranchesAfterBoundary | CaptureLifecycleInvalid(kind: CaptureKind)
    | PrivateResultsMismatch

  const MAX_DEPTH := 4
  const MAX_BRANCHES := 4

  predicate MutationOnly(op: Op) {
    op in {InsertPrivateText, BeforeMutation, DragAx, SelectAxOption, SetPrivateFiles, HandleDialog,
           TriggerCredentialBroker, CreateSameOriginTab, NavigateHistory, CloseTargetTab}
  }

  /** Operations that write a private result when they succeed, captures when they stop. */
  predicate Extracts(op: Op) {
    op.StartCapture? || WritesPrivateResult(op)
  }

  predicate WritesPrivateResult(op: Op) {
    op in {ExtractAx, ExtractAxCollection, CollectAxByScrolling, ExtractAxGeometry, CaptureViewportPrivate,
           CaptureRegionPrivate, CaptureFullPagePrivate, CapturePerformancePrivate}
  }

  // ----- flattening

  function Flatten(actions: seq<Action>, depth: nat): Result<seq<Action>, Rejection>
    decreases actions, 1
  {
    if depth > MAX_DEPTH then Err(NestedTooDeeply) else FlattenList(actions, depth)
  }

  function FlattenList(actions: seq<Action>, depth: nat): Result<seq<Action>, Rejection>
    decreases actions, 0
  {
    if actions == [] then Ok([])
    else
      var head :- FlattenAction(actions[0], depth);
      var tail :- FlattenList(actions[1..], depth);
      Ok(head + tail)
  }

  function FlattenAction(action: Action, depth: nat): Result<seq<Action>, Rejection>
    decreases action
  {
    if action.op.Unsupported? then Err(UnsupportedAction)
    else if action.op == FirstSuccess then
      match action.branches
      case Absent => Err(InvalidBranches)
      case Present(list) =>
        if !(1 <= |list| <= MAX_BRANCHES) then Err(InvalidBranches)
        else
          var nested :- FlattenBranches(list, depth);
          Ok([action] + nested)
    else if action.branches.Present? then Err(UnexpectedBranches)
    else Ok([action])
  }

  function FlattenBranches(list: seq<Branch>, depth: nat): Result<seq<Action>, Rejection>
    decreases list
  {
    if list == [] then Ok([])
    else if list[0].body == [] then Err(EmptyBranch)
    else
      var head :- Flatten(list[0].body, depth + 1);
      var tail :- FlattenBranches(list[1..], depth);
      Ok(head + tail)
  }

  /** The array-pushing loop of the source computes `Flatten`, including which error comes first. */
  method FlattenActions(actions: seq<Action>, depth: nat) returns (r: Result<seq<Action>, Rejection>)
    ensures r == Flatten(actions, depth)
    decreases MAX_DEPTH + 1 - depth, 1
  {
    if depth > MAX_DEPTH {
      return Err(NestedTooDeeply);
    }
    var flat := [];
    var i := 0;
    assert actions[0..] == actions;
    PrependedNothing(FlattenList(actions, depth));
    while i < |actions|
      invariant 0 <= i <= |actions|
      invariant FlattenList(actions, depth) == Prepended(flat, FlattenList(actions[i..], depth))
    {
      var action := actions[i];
      assert actions[i..][0] == action && actions[i..][1..] == actions[i + 1..];
      if action.op.Unsupported? {
        return Err(UnsupportedAction);
      }
      ghost var before := flat;
      flat := flat + [action];
      if action.op == FirstSuccess {
        if action.branches.Absent? || !(1 <= |action.branches.list| <= MAX_BRANCHES) {
          return Err(InvalidBranches);
        }
        var all := PushBranches(flat, action.branches.list, depth);
        if all.Err? {
          return all;
        }
        flat := all.value;
        Regroup(before, [action], FlattenBranches(action.branches.list, depth).value);
      } else if action.branches.Present? {
        return Err(UnexpectedBranches);
      }
      PrependedTwice(before, FlattenAction(action, depth).value, FlattenList(actions[i + 1..], depth));
      i := i + 1;
    }
    assert actions[i..] == [] && flat + [] == flat;
    return Ok(flat);
  }

  /** The inner loop, over the branches of one choice. */
  method PushBranches(before: seq<Action>, list: seq<Branch>, depth: nat) returns (r: Result<seq<Action>, Rejection>)
    requires depth <= MAX_DEPTH
    ensures r == Prepended(before, FlattenBranches(list, depth))
    decreases MAX_DEPTH + 1 - depth, 0
  {
    var flat := before;
    var j := 0;
    assert list[0..] == list;
    while j < |list|
      invariant 0 <= j <= |list|
      invariant Prepended(before, FlattenBranches(list, depth)) == Prepended(flat, FlattenBranches(list[j..], depth))
    {
      assert list[j..][0] == list[j] && list[j..][1..] == list[j + 1..];
      if list[j].body == [] {
        return Err(EmptyBranch);
      }
      var nested := FlattenActions(list[j].body, depth + 1);
      if nested.Err? {
        return nested;
      }
      PrependedTwice(flat, nested.value, FlattenBranches(list[j + 1..], depth));
      flat := flat + nested.value;
      j := j + 1;
    }
    assert list[j..] == [] && flat + [] == flat;
    return Ok(flat);
  }

  function Prepended(front: seq<Action>, rest: Result<seq<Action>, Rejection>): Result<seq<Action>, Rejection> {
    match rest
    case Ok(tail) => Ok(front + tail)
    case Err(e) => Err(e)
  }

  lemma PrependedNothing(rest: Result<seq<Action>, Rejection>)
    ensures Prepended([], rest) == rest
  {
    if rest.Ok? {
      assert [] + rest.value == rest.value;
    }
  }

  lemma PrependedTwice(a: seq<Action>, b: seq<Action>, rest: Result<seq<Action>, Rejection>)
    ensures Prepended(a, Prepended(b, rest)) == Prepended(a + b, rest)
  {
    if rest.Ok? {
      assert a + (b + rest.value) == (a + b) + rest.value;
    }
  }

  /** Every action of the program in source order, parents before their branches. */
  function Flat(actions: seq<Action>): seq<Action>
    decreases actions
  {
    if actions == [] then [] else FlatAction(actions[0]) + Flat(actions[1..])
  }

  function FlatAction(action: Action): seq<Action>
    decreases action
  {
    match action.branches
    case Absent => [action]
    case Present(list) => [action] + FlatBranches(list)
  }

  function FlatBranches(list: seq<Branch>): seq<Action>
    decreases list
  {
    if list == [] then [] else Flat(list[0].body) + FlatBranches(list[1..])
  }

  lemma {:induction false} FlattenIsFlat(actions: seq<Action>, depth: nat)
    requires FlattenList(actions, depth).Ok?
    ensures FlattenList(actions, depth).value == Flat(actions)
    decreases actions
  {
    if actions != [] {
      FlattenActionIsFlat(actions[0], depth);
      FlattenIsFlat(actions[1..], depth);
    }
  }

  lemma {:induction false} FlattenActionIsFlat(action: Action, depth: nat)
    requires FlattenAction(action, depth).Ok?
    ensures FlattenAction(action, depth).value == FlatAction(action)
    ensures (action.op == FirstSuccess) == action.branches.Present?
    decreases action
  {
    if action.op == FirstSuccess {
      FlattenBranchesIsFlat(action.branches.list, depth);
    }
  }

  lemma {:induction false} FlattenBranchesIsFlat(list: seq<Branch>, depth: nat)
    requires FlattenBranches(list, depth).Ok?
    ensures FlattenBranches(list, depth).value == FlatBranches(list)
    decreases list
  {
    if list != [] {
      FlattenIsFlat(list[0].body, depth + 1);
      FlattenBranchesIsFlat(list[1..], depth);
    }
  }

  lemma {:induction false} FlatConcat(xs: seq<Action>, ys: seq<Action>)
    ensures Flat(xs + ys) == Flat(xs) + Flat(ys)
    decreases |xs|
  {
    if xs == [] {
      assert xs + ys == ys;
    } else {
      assert (xs + ys)[1..] == xs[1..] + ys;
      FlatConcat(xs[1..], ys);
    }
  }

  lemma FlatSingleton(action: Action)
    ensures Flat([action]) == FlatAction(action)
  {
    assert [action][1..] == [];
  }

  lemma FlatCut(actions: seq<Action>, k: nat)
    requires k <= |actions|
    ensures Flat(actions) == Flat(actions[..k]) + Flat(actions[k..])
  {
    assert actions == actions[..k] + actions[k..];
    FlatConcat(actions[..k], actions[k..]);
  }

  lemma FlatSnoc(actions: seq<Action>, k: nat)
    requires k < |actions|
    ensures Flat(actions[..k + 1]) == Flat(actions[..k]) + FlatAction(actions[k])
  {
    assert actions[..k + 1] == actions[..k] + [actions[k]];
    FlatConcat(actions[..k], [actions[k]]);
    FlatSingleton(actions[k]);
  }

  /** Every operation is supported and first_success alone has branches, at every depth. */
  predicate BranchesWellPlaced(flat: seq<Action>) {
    forall a | a in flat :: a.op.FirstSuccess? == a.branches.Present? && !a.op.Unsupported?
  }

  // ----- counting operations

  function Count(actions: seq<Action>, op: Op): nat {
    if actions == [] then 0 else (if actions[0].op == op then 1 else 0) + Count(actions[1..], op)
  }

  function IndexOf(actions: seq<Action>, op: Op): int {
    if actions == [] then -1
    else if actions[0].op == op then 0
    else
      var rest := IndexOf(actions[1..], op);
      if rest < 0 then -1 else rest + 1
  }

  lemma {:induction false} CountConcat(xs: seq<Action>, ys: seq<Action>, op: Op)
    ensures Count(xs + ys, op) == Count(xs, op) + Count(ys, op)
    decreases |xs|
  {
    if xs == [] {
      assert xs + ys == ys;
    } else {
      assert (xs + ys)[1..] == xs[1..] + ys;
      CountConcat(xs[1..], ys, op);
    }
  }

  lemma {:induction false} CountZero(actions: seq<Action>, op: Op)
    ensures Count(actions, op) == 0 <==> forall a | a in actions :: a.op != op
    decreases |actions|
  {
    if actions != [] {
      CountZero(actions[1..], op);
      assert forall a :: a in actions <==> a == actions[0] || a in actions[1..];
    }
  }

  lemma {:induction false} SubseqCount(a: seq<Action>, b: seq<Action>, op: Op)
    requires Subseq(a, b)
    ensures Count(a, op) <= Count(b, op)
    decreases |b|
  {
    if a != [] {
      if a[0] == b[0] && Subseq(a[1..], b[1..]) {
        SubseqCount(a[1..], b[1..], op);
      } else {
        SubseqCount(a, b[1..], op);
      }
    }
  }

  lemma {:induction false} IndexOfMeaning(actions: seq<Action>, op: Op)
    ensures
      var i := IndexOf(actions, op);
      if i < 0 then Count(actions, op) == 0
      else i < |actions| && actions[i].op == op && Count(actions[..i], op) == 0
    decreases |actions|
  {
    if actions != [] && actions[0].op != op {
      IndexOfMeaning(actions[1..], op);
      var i := IndexOf(actions[1..], op);
      if i >= 0 {
        assert actions[..i + 1] == [actions[0]] + actions[1..][..i];
      }
    } else if actions != [] {
      assert actions[..0] == [];
    }
  }

  lemma IndexOfUnique(actions: seq<Action>, op: Op, i: nat)
    requires i < |actions| && actions[i].op == op && Count(actions[..i], op) == 0
    ensures IndexOf(actions, op) == i
  {
    IndexOfMeaning(actions, op);
    var j := IndexOf(actions, op);
    if j < 0 {
      CountZero(actions, op);
    } else if j < i {
      CountZeroAt(actions, i, op, j);
    } else if i < j {
      CountZeroAt(actions, j, op, i);
    }
  }

  lemma CountZeroAt(actions: seq<Action>, n: nat, op: Op, k: nat)
    requires k < n <= |actions| && Count(actions[..n], op) == 0
    ensures actions[k].op != op
  {
    CountZero(actions[..n], op);
    assert actions[..n][k] in actions[..n];
  }

  // ----- URL policy

  predicate PathMatchesPrefix(path: string, prefix: string) {
    path == prefix || (if EndsWithSlash(prefix) then prefix <= path else prefix + "/" <= path)
  }

  predicate EndsWithSlash(text: string) {
    text != "" && text[|text| - 1] == '/'
  }

  /** The part of the policy that the initial URL and every later URL share. */
  predicate InTarget(url: Url, target: Target) {
    url.scheme == "https" && !url.credentials && url.origin == target.origin &&
    exists k | 0 <= k < |target.pathPrefixes| :: PathMatchesPrefix(url.path, target.pathPrefixes[k])
  }

  predicate PolicyUrl(url: Option<Url>, target: Target, initial: bool) {
    url.Some? && |url.value.raw| <= 16384 && InTarget(url.value, target) && (url.value.fragment == "" || initial)
  }

  /** A match never escapes the directory the prefix names: what follows the prefix starts a new path segment. */
  lemma PathMatchesPrefixMeaning(path: string, prefix: string)
    ensures PathMatchesPrefix(path, prefix) <==>
              prefix <= path &&
              (|path| == |prefix| || EndsWithSlash(prefix) || path[|prefix|] == '/')
  {
    if prefix <= path && |path| > |prefix| && path[|prefix|] == '/' {
      assert path[..|prefix| + 1] == prefix + "/";
    }
    if prefix + "/" <= path {
      assert path[|prefix|] == (prefix + "/")[|prefix|];
      assert path[..|prefix|] == prefix;
    }
  }

  // ----- acceptance

  predicate ValidTarget(target: Target) {
    1 <= |target.pathPrefixes| <= 8 && Unique(target.pathPrefixes) &&
    forall prefix | prefix in target.pathPrefixes ::
      "/" <= prefix && '?' !in prefix && '#' !in prefix && |prefix| <= 2048
  }

  predicate Unique(items: seq<string>) {
    forall i, j | 0 <= i < j < |items| :: items[i] != items[j]
  }

  predicate ValidLimits(p: Program) {
    1000 <= p.limits.timeoutMs <= 300000 && 1 <= p.limits.maxActions <= 200 && 1 <= p.limits.maxRepeat <= 20 &&
    p.actions != []
  }

  predicate ValidResultDeclaration(p: Program) {
    UnsafeField !in p.publicFields &&
    (forall i, j | 0 <= i < j < |p.publicFields| :: p.publicFields[i] != p.publicFields[j]) &&
    |p.privateFields| <= 32 && Unique(p.privateFields)
  }

  predicate ValidAction(action: Action, p: Program) {
    (action.op in {NavigateSameOrigin, CreateSameOriginTab, NavigateHistory} ==>
       PolicyUrl(action.url, p.target, false)) &&
    (Extracts(action.op) ==> action.field.Some? && action.field.value in p.privateFields)
  }

  predicate ValidLifecycle(top: seq<Action>, flat: seq<Action>)
    requires top != []
  {
    top[0].op == OpenOrFocusExactUrl &&
    top[|top| - 1].op in {DetachDebugger, CloseTargetTab} &&
    Count(top, OpenOrFocusExactUrl) == 1 && Count(top, AttachDebugger) == 1 && Count(top, DetachDebugger) == 1 &&
    Count(flat, OpenOrFocusExactUrl) == 1 && Count(flat, AttachDebugger) == 1 && Count(flat, DetachDebugger) == 1 &&
    IndexOf(flat, AttachDebugger) < IndexOf(flat, DetachDebugger) &&
    (top[|top| - 1].op == CloseTargetTab ==> |top| >= 2 && top[|top| - 2].op == DetachDebugger)
  }

  predicate ValidCapture(top: seq<Action>, flat: seq<Action>, kind: CaptureKind) {
    var starts := Count(flat, StartCapture(kind));
    var stops := Count(flat, StopCapture(kind));
    starts == stops && starts <= 1 &&
    Count(top, StartCapture(kind)) == starts && Count(top, StopCapture(kind)) == stops &&
    (starts == 1 ==> IndexOf(flat, StartCapture(kind)) < IndexOf(flat, StopCapture(kind)))
  }

  predicate AllValid(flat: seq<Action>, p: Program) {
    forall a | a in flat :: ValidAction(a, p)
  }

  predicate ReadOnly(flat: seq<Action>) {
    forall a | a in flat :: !MutationOnly(a.op)
  }

  /** The declared private fields are exactly the fields some extraction action names. */
  predicate FieldsMatch(flat: seq<Action>, p: Program) {
    ExtractedFields(flat) == set f | f in p.privateFields
  }

  function ExtractedFields(flat: seq<Action>): set<string> {
    set a | a in flat && Extracts(a.op) && a.field.Some? :: a.field.value
  }

  /** `validateProgram`, in its own order, returning the flattened actions it checked. */
  function Validate(p: Program): Result<seq<Action>, Rejection> {
    if !ValidTarget(p.target) then Err(TargetInvalid)
    else if !PolicyUrl(p.target.url, p.target, true) then Err(UrlOutsidePolicy)
    else if !ValidLimits(p) then Err(LimitsInvalid)
    else if !ValidResultDeclaration(p) then Err(ResultDeclarationInvalid)
    else
      var flat :- Flatten(p.actions, 0);
      ValidateStructure(p, flat)
  }

  function ValidateStructure(p: Program, flat: seq<Action>): Result<seq<Action>, Rejection>
    requires p.actions != []
  {
    if |flat| > p.limits.maxActions then Err(TooLarge)
    else if !AllValid(flat, p) then Err(ActionInvalid)
    else if !ValidLifecycle(p.actions, flat) then Err(LifecycleInvalid)
    else if p.capability == Read && !ReadOnly(flat) then Err(ReadRequestsMutation)
    else if p.capability == Mutation && (Count(flat, BeforeMutation) != 1 || Count(p.actions, BeforeMutation) != 1)
      then Err(BoundaryRequired)
    else if p.capability == OtherCapability then Err(CapabilityInvalid)
    else if p.capability == Mutation && Count(AfterBoundary(p.actions), FirstSuccess) > 0
      then Err(BranchesAfterBoundary)
    else if !ValidCapture(p.actions, flat, LogCapture) then Err(CaptureLifecycleInvalid(LogCapture))
    else if !ValidCapture(p.actions, flat, RequestCapture) then Err(CaptureLifecycleInvalid(RequestCapture))
    else if !ValidCapture(p.actions, flat, ConsoleCapture) then Err(CaptureLifecycleInvalid(ConsoleCapture))
    else if !ValidCapture(p.actions, flat, DownloadCapture) then Err(CaptureLifecycleInvalid(DownloadCapture))
    else if !FieldsMatch(flat, p) then Err(PrivateResultsMismatch)
    else Ok(flat)
  }

  function AfterBoundary(top: seq<Action>): seq<Action> {
    var b := IndexOf(top, BeforeMutation);
    IndexOfMeaning(top, BeforeMutation);
    top[b + 1..]
  }

  predicate Accepted(p: Program) {
    Validate(p).Ok?
  }
}
