/** What static acceptance means in terms of top-level positions: the shape every run relies on. */
module Acceptance {
  import opened Common
  import opened Program

  /** `top[k]` is the only occurrence of `op`, at any nesting depth. */
  ghost predicate Only(top: seq<Action>, op: Op, k: nat) {
    k < |top| && top[k].op == op && Count(Flat(top[..k]), op) == 0 && Count(Flat(top[k + 1..]), op) == 0
  }

  /** `op` occurs nowhere, at any nesting depth. */
  ghost predicate Nowhere(top: seq<Action>, op: Op) {
    Count(Flat(top), op) == 0
  }

  lemma {:induction false} TopCountWithinFlat(top: seq<Action>, op: Op)
    ensures Count(top, op) <= Count(Flat(top), op)
    decreases |top|
  {
    if top != [] {
      TopCountWithinFlat(top[1..], op);
      CountConcat(FlatAction(top[0]), Flat(top[1..]), op);
      assert FlatAction(top[0])[0] == top[0];
    }
  }

  lemma {:induction false} TopMembersInFlat(top: seq<Action>, k: nat)
    requires k < |top|
    ensures top[k] in Flat(top)
    ensures forall x | x in FlatAction(top[k]) :: x in Flat(top)
  {
    FlatCut(top, k + 1);
    FlatSnoc(top, k);
    assert FlatAction(top[k])[0] == top[k];
  }

  lemma WellPlacedLeaf(top: seq<Action>, k: nat)
    requires k < |top| && BranchesWellPlaced(Flat(top)) && !top[k].op.FirstSuccess?
    ensures FlatAction(top[k]) == [top[k]]
  {
    TopMembersInFlat(top, k);
  }

  lemma CountAround(top: seq<Action>, op: Op, k: nat)
    requires k < |top|
    ensures Count(Flat(top), op)
         == Count(Flat(top[..k]), op) + Count(FlatAction(top[k]), op) + Count(Flat(top[k + 1..]), op)
  {
    FlatCut(top, k + 1);
    FlatSnoc(top, k);
    CountConcat(Flat(top[..k + 1]), Flat(top[k + 1..]), op);
    CountConcat(Flat(top[..k]), FlatAction(top[k]), op);
  }

  lemma OnlySound(top: seq<Action>, op: Op)
    requires BranchesWellPlaced(Flat(top)) && !op.FirstSuccess?
    requires Count(Flat(top), op) == 1 && Count(top, op) == 1
    ensures IndexOf(top, op) >= 0 && Only(top, op, IndexOf(top, op))
  {
    IndexOfMeaning(top, op);
    var k := IndexOf(top, op);
    WellPlacedLeaf(top, k);
    CountAround(top, op, k);
  }

  lemma OnlyComplete(top: seq<Action>, op: Op, k: nat)
    requires BranchesWellPlaced(Flat(top)) && !op.FirstSuccess? && Only(top, op, k)
    ensures Count(Flat(top), op) == 1 && Count(top, op) == 1
  {
    WellPlacedLeaf(top, k);
    CountAround(top, op, k);
    TopCountWithinFlat(top, op);
    CountZero(top, op);
    assert top[k] in top;
  }

  lemma OnlyIff(top: seq<Action>, op: Op)
    requires BranchesWellPlaced(Flat(top)) && !op.FirstSuccess?
    ensures Count(Flat(top), op) == 1 && Count(top, op) == 1 <==> exists k :: Only(top, op, k)
  {
    if Count(Flat(top), op) == 1 && Count(top, op) == 1 {
      OnlySound(top, op);
    }
    if k :| Only(top, op, k) {
      OnlyComplete(top, op, k);
    }
  }

  lemma OnlyUnique(top: seq<Action>, op: Op, i: nat, j: nat)
    requires Only(top, op, i) && j < |top| && top[j].op == op
    ensures i == j
  {
    if j < i {
      TopMembersInFlat(top[..i], j);
      CountZero(Flat(top[..i]), op);
    } else if i < j {
      TopMembersInFlat(top[i + 1..], j - i - 1);
      CountZero(Flat(top[i + 1..]), op);
    }
  }

  lemma {:induction false} FlatLengthGrows(top: seq<Action>, i: nat, j: nat)
    requires i <= j <= |top|
    ensures |Flat(top[..i])| + (j - i) <= |Flat(top[..j])|
    decreases j
  {
    if i < j {
      FlatLengthGrows(top, i, j - 1);
      FlatSnoc(top, j - 1);
    }
  }

  lemma FlatIndex(top: seq<Action>, op: Op, k: nat)
    requires Only(top, op, k) && BranchesWellPlaced(Flat(top)) && !op.FirstSuccess?
    ensures IndexOf(Flat(top), op) == |Flat(top[..k])|
  {
    WellPlacedLeaf(top, k);
    FlatCut(top, k + 1);
    FlatSnoc(top, k);
    var n := |Flat(top[..k])|;
    assert Flat(top)[..n] == Flat(top[..k]) && Flat(top)[n] == top[k];
    IndexOfUnique(Flat(top), op, n);
  }

  /** Order in the flattened list is order at top level. */
  lemma OrderIff(top: seq<Action>, x: Op, i: nat, y: Op, j: nat)
    requires BranchesWellPlaced(Flat(top)) && !x.FirstSuccess? && !y.FirstSuccess? && x != y
    requires Only(top, x, i) && Only(top, y, j)
    ensures IndexOf(Flat(top), x) < IndexOf(Flat(top), y) <==> i < j
  {
    FlatIndex(top, x, i);
    FlatIndex(top, y, j);
    if i < j {
      FlatLengthGrows(top, i, j);
    } else {
      FlatLengthGrows(top, j, i);
    }
  }

  ghost predicate LifecycleShape(top: seq<Action>, a: nat, d: nat) {
    Only(top, OpenOrFocusExactUrl, 0) && Only(top, AttachDebugger, a) && Only(top, DetachDebugger, d) && a < d &&
    (d == |top| - 1 || (d == |top| - 2 && top[|top| - 1].op == CloseTargetTab))
  }

  lemma LifecycleSound(top: seq<Action>)
    requires top != [] && BranchesWellPlaced(Flat(top)) && ValidLifecycle(top, Flat(top))
    ensures exists a, d :: LifecycleShape(top, a, d)
  {
    OnlyIff(top, OpenOrFocusExactUrl);
    OnlyIff(top, AttachDebugger);
    OnlyIff(top, DetachDebugger);
    var o :| Only(top, OpenOrFocusExactUrl, o);
    var a :| Only(top, AttachDebugger, a);
    var d :| Only(top, DetachDebugger, d);
    OnlyUnique(top, OpenOrFocusExactUrl, o, 0);
    OrderIff(top, AttachDebugger, a, DetachDebugger, d);
    OnlyUnique(top, DetachDebugger, d, if top[|top| - 1].op == DetachDebugger then |top| - 1 else |top| - 2);
    assert LifecycleShape(top, a, d);
  }

  lemma LifecycleEnds(top: seq<Action>, a: nat, d: nat)
    requires LifecycleShape(top, a, d)
    ensures |top| >= 2 && top[0].op == OpenOrFocusExactUrl
    ensures top[|top| - 1].op == DetachDebugger ||
            (top[|top| - 1].op == CloseTargetTab && top[|top| - 2].op == DetachDebugger)
  {
  }

  lemma LifecycleCounts(top: seq<Action>, a: nat, d: nat)
    requires BranchesWellPlaced(Flat(top)) && LifecycleShape(top, a, d)
    ensures Count(Flat(top), OpenOrFocusExactUrl) == 1 && Count(top, OpenOrFocusExactUrl) == 1
    ensures Count(Flat(top), AttachDebugger) == 1 && Count(top, AttachDebugger) == 1
    ensures Count(Flat(top), DetachDebugger) == 1 && Count(top, DetachDebugger) == 1
    ensures IndexOf(Flat(top), AttachDebugger) < IndexOf(Flat(top), DetachDebugger)
  {
    OnlyComplete(top, OpenOrFocusExactUrl, 0);
    OnlyComplete(top, AttachDebugger, a);
    OnlyComplete(top, DetachDebugger, d);
    OrderIff(top, AttachDebugger, a, DetachDebugger, d);
  }

  lemma LifecycleComplete(top: seq<Action>, a: nat, d: nat)
    requires top != [] && BranchesWellPlaced(Flat(top)) && LifecycleShape(top, a, d)
    ensures ValidLifecycle(top, Flat(top))
  {
    LifecycleEnds(top, a, d);
    LifecycleCounts(top, a, d);
  }

  /** The counting and indexing rules accept exactly: open first, attach once, detach later and last but for a close. */
  lemma LifecycleMeaning(top: seq<Action>)
    requires top != [] && BranchesWellPlaced(Flat(top))
    ensures ValidLifecycle(top, Flat(top)) <==> exists a, d :: LifecycleShape(top, a, d)
  {
    if ValidLifecycle(top, Flat(top)) {
      LifecycleSound(top);
    }
    if a, d :| LifecycleShape(top, a, d) {
      LifecycleComplete(top, a, d);
    }
  }

  ghost predicate CaptureShape(top: seq<Action>, kind: CaptureKind, i: nat, j: nat) {
    Only(top, StartCapture(kind), i) && Only(top, StopCapture(kind), j) && i < j
  }

  ghost predicate CapturePaired(top: seq<Action>, kind: CaptureKind) {
    (Nowhere(top, StartCapture(kind)) && Nowhere(top, StopCapture(kind))) ||
    exists i, j :: CaptureShape(top, kind, i, j)
  }

  lemma CaptureMeaning(top: seq<Action>, kind: CaptureKind)
    requires BranchesWellPlaced(Flat(top))
    ensures ValidCapture(top, Flat(top), kind) <==> CapturePaired(top, kind)
  {
    var start, stop := StartCapture(kind), StopCapture(kind);
    OnlyIff(top, start);
    OnlyIff(top, stop);
    TopCountWithinFlat(top, start);
    TopCountWithinFlat(top, stop);
    if i, j :| Only(top, start, i) && Only(top, stop, j) {
      OrderIff(top, start, i, stop, j);
      forall x, y | CaptureShape(top, kind, x, y)
        ensures x == i && y == j
      {
        OnlyUnique(top, start, i, x);
        OnlyUnique(top, stop, j, y);
      }
      assert i < j ==> CaptureShape(top, kind, i, j);
    }
  }

  /** Everything acceptance says about structure, by position. */
  ghost predicate Lawful(p: Program) {
    var top, flat := p.actions, Flat(p.actions);
    top != [] && BranchesWellPlaced(flat) && |flat| <= p.limits.maxActions &&
    AllValid(flat, p) &&
    (exists a, d :: LifecycleShape(top, a, d)) &&
    CapturePaired(top, LogCapture) && CapturePaired(top, RequestCapture) &&
    CapturePaired(top, ConsoleCapture) && CapturePaired(top, DownloadCapture) &&
    (if p.capability == Mutation
     then exists b :: BoundaryShape(top, b)
     else Nowhere(top, BeforeMutation)) &&
    FieldsMatch(flat, p)
  }

  lemma FlattenedSupported(actions: seq<Action>, depth: nat)
    requires FlattenList(actions, depth).Ok?
    ensures BranchesWellPlaced(Flat(actions))
    decreases actions
  {
    if actions != [] {
      FlattenedActionSupported(actions[0], depth);
      FlattenedSupported(actions[1..], depth);
    }
  }

  lemma FlattenedActionSupported(action: Action, depth: nat)
    requires FlattenAction(action, depth).Ok?
    ensures BranchesWellPlaced(FlatAction(action))
    decreases action
  {
    if action.op == FirstSuccess {
      FlattenedBranchesSupported(action.branches.list, depth);
    }
  }

  lemma FlattenedBranchesSupported(list: seq<Branch>, depth: nat)
    requires FlattenBranches(list, depth).Ok?
    ensures BranchesWellPlaced(FlatBranches(list))
    decreases list
  {
    if list != [] {
      FlattenedSupported(list[0].body, depth + 1);
      FlattenedBranchesSupported(list[1..], depth);
    }
  }

  ghost predicate BoundaryShape(top: seq<Action>, b: nat) {
    Only(top, BeforeMutation, b) && Count(top[b + 1..], FirstSuccess) == 0
  }

  lemma BoundaryMeaning(top: seq<Action>)
    requires BranchesWellPlaced(Flat(top))
    ensures (Count(Flat(top), BeforeMutation) == 1 && Count(top, BeforeMutation) == 1 &&
             Count(AfterBoundary(top), FirstSuccess) == 0) <==> (exists b :: BoundaryShape(top, b))
  {
    IndexOfMeaning(top, BeforeMutation);
    if Count(Flat(top), BeforeMutation) == 1 && Count(top, BeforeMutation) == 1 {
      OnlySound(top, BeforeMutation);
      var k := IndexOf(top, BeforeMutation);
      forall b | BoundaryShape(top, b)
        ensures b == k
      {
        OnlyUnique(top, BeforeMutation, b, k);
      }
      assert Count(AfterBoundary(top), FirstSuccess) == 0 ==> BoundaryShape(top, k);
    }
    if b :| BoundaryShape(top, b) {
      OnlyComplete(top, BeforeMutation, b);
    }
  }

  lemma StructureSound(p: Program)
    requires p.actions != [] && BranchesWellPlaced(Flat(p.actions)) && ValidateStructure(p, Flat(p.actions)).Ok?
    ensures Lawful(p) && (p.capability == Read ==> ReadOnly(Flat(p.actions))) && p.capability != OtherCapability
    ensures ValidateStructure(p, Flat(p.actions)).value == Flat(p.actions)
  {
    LifecycleMeaning(p.actions);
    CaptureMeaning(p.actions, LogCapture);
    CaptureMeaning(p.actions, RequestCapture);
    CaptureMeaning(p.actions, ConsoleCapture);
    CaptureMeaning(p.actions, DownloadCapture);
    BoundaryMeaning(p.actions);
    CountZero(Flat(p.actions), BeforeMutation);
  }

  lemma StructureComplete(p: Program)
    requires p.capability != OtherCapability
    requires Lawful(p) && (p.capability == Read ==> ReadOnly(Flat(p.actions)))
    ensures ValidateStructure(p, Flat(p.actions)).Ok?
  {
    assert PartsHold(p) by {
      LifecycleMeaning(p.actions);
      CaptureMeaning(p.actions, LogCapture);
      CaptureMeaning(p.actions, RequestCapture);
      CaptureMeaning(p.actions, ConsoleCapture);
      CaptureMeaning(p.actions, DownloadCapture);
      BoundaryMeaning(p.actions);
    }
    PartsSuffice(p);
  }

  ghost predicate PartsHold(p: Program)
    requires p.actions != []
  {
    var flat := Flat(p.actions);
    ValidLifecycle(p.actions, flat) &&
    ValidCapture(p.actions, flat, LogCapture) && ValidCapture(p.actions, flat, RequestCapture) &&
    ValidCapture(p.actions, flat, ConsoleCapture) && ValidCapture(p.actions, flat, DownloadCapture) &&
    (p.capability == Mutation ==> (Count(flat, BeforeMutation) == 1 && Count(p.actions, BeforeMutation) == 1 &&
       Count(AfterBoundary(p.actions), FirstSuccess) == 0)) &&
    |flat| <= p.limits.maxActions && AllValid(flat, p) && FieldsMatch(flat, p) &&
    (p.capability == Read ==> ReadOnly(flat))
  }

  lemma PartsSuffice(p: Program)
    requires p.actions != [] && p.capability != OtherCapability && PartsHold(p)
    ensures ValidateStructure(p, Flat(p.actions)).Ok?
  {
  }

  /** The checks of `validateProgram` that are not about structure. */
  predicate ValidDeclarations(p: Program) {
    ValidTarget(p.target) && PolicyUrl(p.target.url, p.target, true) && ValidLimits(p) &&
    ValidResultDeclaration(p) && p.capability != OtherCapability
  }

  /** Validation is the declarations, then flattening, then the structure of the flattened program. */
  lemma ValidateParts(p: Program)
    ensures p.actions == [] ==> !ValidLimits(p)
    ensures Accepted(p) <==>
              ValidTarget(p.target) && PolicyUrl(p.target.url, p.target, true) && ValidLimits(p) &&
              ValidResultDeclaration(p) && Flatten(p.actions, 0).Ok? &&
              ValidateStructure(p, Flatten(p.actions, 0).value).Ok?
    ensures Accepted(p) ==> Validate(p) == ValidateStructure(p, Flatten(p.actions, 0).value)
  {
  }

  /** The static rules, said by position instead of by counting. */
  ghost predicate LawfulProgram(p: Program) {
    Flatten(p.actions, 0).Ok? && ValidDeclarations(p) && Lawful(p) &&
    (p.capability == Read ==> ReadOnly(Flat(p.actions)))
  }

  lemma AcceptedSound(p: Program)
    requires Accepted(p)
    ensures LawfulProgram(p) && Validate(p).value == Flat(p.actions)
  {
    ValidateParts(p);
    FlattenIsFlat(p.actions, 0);
    FlattenedSupported(p.actions, 0);
    StructureSound(p);
  }

  lemma AcceptedComplete(p: Program)
    requires LawfulProgram(p)
    ensures Accepted(p)
  {
    FlattenIsFlat(p.actions, 0);
    StructureComplete(p);
    ValidateParts(p);
  }

  /** Acceptance is the structural shape plus the bounds on nesting, target, limits, and result declaration. */
  lemma AcceptedIff(p: Program)
    ensures Accepted(p) <==> LawfulProgram(p)
    ensures Accepted(p) ==> Validate(p).value == Flat(p.actions)
  {
    if Accepted(p) {
      AcceptedSound(p);
    }
    if LawfulProgram(p) {
      AcceptedComplete(p);
    }
  }

  // ----- the rules one by one, in other words

  /** `path` is the prefix, or goes on after a slash that ends the prefix or follows it. */
  ghost predicate Under(path: string, prefix: string) {
    path == prefix ||
    exists rest :: Continues(path, prefix, rest)
  }

  predicate Continues(path: string, prefix: string, rest: string) {
    path == prefix + rest && rest != "" && ((prefix != "" && prefix[|prefix| - 1] == '/') || rest[0] == '/')
  }

  lemma UnderIff(path: string, prefix: string)
    ensures PathMatchesPrefix(path, prefix) <==> Under(path, prefix)
  {
    PathMatchesPrefixMeaning(path, prefix);
    if PathMatchesPrefix(path, prefix) && path != prefix {
      assert path == prefix + path[|prefix|..];
      assert Continues(path, prefix, path[|prefix|..]);
    }
    if rest :| Continues(path, prefix, rest) {
      assert prefix <= path && path[|prefix|] == rest[0];
    }
  }

  /** What a program may visit: https, no credentials, the target's origin, and under one of its prefixes. */
  lemma InTargetIff(url: Url, target: Target)
    ensures InTarget(url, target) <==>
            url.scheme == "https" && url.credentials == false && url.origin == target.origin &&
            exists prefix | prefix in target.pathPrefixes :: Under(url.path, prefix)
  {
    forall k | 0 <= k < |target.pathPrefixes|
      ensures PathMatchesPrefix(url.path, target.pathPrefixes[k]) <==> Under(url.path, target.pathPrefixes[k])
      ensures target.pathPrefixes[k] in target.pathPrefixes
    {
      UnderIff(url.path, target.pathPrefixes[k]);
    }
  }

  /** A URL that a program names is at most 16384 characters long and in the target; only the first has a fragment. */
  lemma PolicyUrlIff(url: Option<Url>, target: Target, initial: bool)
    ensures PolicyUrl(url, target, initial) <==>
            url.Some? && !(|url.value.raw| > 16384) && InTarget(url.value, target) &&
            (!initial ==> |url.value.fragment| == 0)
  {
  }

  ghost predicate NoTwoAlike<T>(items: seq<T>) {
    forall i, j | 0 <= i < |items| && 0 <= j < |items| && items[i] == items[j] :: i == j
  }

  /** The declared parts: the target, its URL, the limits and the result fields. */
  lemma DeclarationsIff(p: Program)
    ensures ValidDeclarations(p) <==>
            1 <= |p.target.pathPrefixes| <= 8 && NoTwoAlike(p.target.pathPrefixes) &&
            (forall prefix | prefix in p.target.pathPrefixes ::
               1 <= |prefix| <= 2048 && prefix[0] == '/' && '?' !in prefix && '#' !in prefix) &&
            PolicyUrl(p.target.url, p.target, true) &&
            1000 <= p.limits.timeoutMs <= 300000 && 1 <= p.limits.maxActions <= 200 &&
            1 <= p.limits.maxRepeat <= 20 && |p.actions| >= 1 &&
            NoTwoAlike(p.publicFields) && UnsafeField !in p.publicFields &&
            NoTwoAlike(p.privateFields) && |p.privateFields| <= 32 && p.capability in {Read, Mutation}
  {
    UniqueIff(p.target.pathPrefixes);
    UniqueIff(p.privateFields);
  }

  lemma UniqueIff(items: seq<string>)
    ensures Unique(items) <==> NoTwoAlike(items)
  {
  }

  predicate GoesElsewhere(op: Op) {
    op.NavigateSameOrigin? || op.CreateSameOriginTab? || op.NavigateHistory?
  }

  /** The operations that name a private result. */
  predicate NamesResult(op: Op) {
    match op
    case StartCapture(_) => true
    case ExtractAx => true
    case ExtractAxCollection => true
    case CollectAxByScrolling => true
    case ExtractAxGeometry => true
    case CaptureViewportPrivate => true
    case CaptureRegionPrivate => true
    case CaptureFullPagePrivate => true
    case CapturePerformancePrivate => true
    case _ => false
  }

  /** The operations a read-only program may not hold. */
  predicate Changes(op: Op) {
    match op
    case InsertPrivateText => true
    case BeforeMutation => true
    case DragAx => true
    case SelectAxOption => true
    case SetPrivateFiles => true
    case HandleDialog => true
    case TriggerCredentialBroker => true
    case CreateSameOriginTab => true
    case NavigateHistory => true
    case CloseTargetTab => true
    case _ => false
  }

  /** What acceptance asks of each action, at any depth, and of all of them together. */
  lemma ActionsIff(flat: seq<Action>, p: Program)
    ensures AllValid(flat, p) <==>
            forall a | a in flat ::
              (GoesElsewhere(a.op) ==> PolicyUrl(a.url, p.target, false)) &&
              (NamesResult(a.op) ==> a.field.Some? && a.field.value in p.privateFields)
    ensures ReadOnly(flat) <==> forall a | a in flat :: !Changes(a.op)
    ensures FieldsMatch(flat, p) <==>
            forall f :: f in p.privateFields <==> exists a :: a in flat && NamesResult(a.op) && a.field == Some(f)
  {
    assert forall op: Op :: Extracts(op) <==> NamesResult(op);
    assert forall op: Op :: MutationOnly(op) <==> Changes(op);
    forall f
      ensures f in ExtractedFields(flat) <==> exists a :: a in flat && NamesResult(a.op) && a.field == Some(f)
    {
    }
    if FieldsMatch(flat, p) {
      forall f
        ensures f in p.privateFields <==> f in ExtractedFields(flat)
      {
        assert f in (set g | g in p.privateFields) <==> f in p.privateFields;
      }
    }
  }

  /** A read-only program that is accepted holds no changing operation, in no branch either. */
  lemma AcceptedReadChangesNothing(p: Program, a: Action)
    requires Accepted(p) && p.capability == Read && a in Flat(p.actions)
    ensures !Changes(a.op)
  {
    AcceptedIff(p);
    ActionsIff(Flat(p.actions), p);
  }

  // ----- what can be flattened

  /** How deep choices are nested. */
  function Nesting(actions: seq<Action>): nat
    decreases actions, 1
  {
    if actions == [] then 0 else Max(NestingOne(actions[0]), Nesting(actions[1..]))
  }

  function NestingOne(a: Action): nat
    decreases a, 0
  {
    match a.branches
    case Absent => 0
    case Present(list) => 1 + NestingBranches(list)
  }

  function NestingBranches(list: seq<Branch>): nat
    decreases list, 0
  {
    if list == [] then 0 else Max(Nesting(list[0].body), NestingBranches(list[1..]))
  }

  /** The action is supported, and it has one to four branches, none of them empty, exactly if it is a choice. */
  predicate WellBranched(a: Action) {
    !a.op.Unsupported? &&
    if a.op.FirstSuccess? then
      a.branches.Present? && 1 <= |a.branches.list| <= 4 &&
      forall i | 0 <= i < |a.branches.list| :: |a.branches.list[i].body| >= 1
    else a.branches.Absent?
  }

  ghost predicate AllWellBranched(flat: seq<Action>) {
    forall a | a in flat :: WellBranched(a)
  }

  lemma WellBranchedConcat(a: seq<Action>, b: seq<Action>)
    ensures AllWellBranched(a + b) <==> AllWellBranched(a) && AllWellBranched(b)
  {
    forall x
      ensures x in a + b <==> x in a || x in b
    {
    }
  }

  /** A program can be flattened exactly if its choices are well formed and nested at most four deep. */
  lemma {:induction false} FlattenIff(actions: seq<Action>, depth: nat)
    ensures Flatten(actions, depth).Ok? <==>
            depth + Nesting(actions) <= 4 && AllWellBranched(Flat(actions))
    decreases actions, 1
  {
    if depth <= 4 {
      FlattenListIff(actions, depth);
    }
  }

  lemma {:induction false} FlattenListIff(actions: seq<Action>, depth: nat)
    requires depth <= 4
    ensures FlattenList(actions, depth).Ok? <==> depth + Nesting(actions) <= 4 && AllWellBranched(Flat(actions))
    decreases actions, 0
  {
    if actions != [] {
      FlattenActionIff(actions[0], depth);
      FlattenListIff(actions[1..], depth);
      WellBranchedConcat(FlatAction(actions[0]), Flat(actions[1..]));
    }
  }

  lemma {:induction false} FlattenActionIff(a: Action, depth: nat)
    requires depth <= 4
    ensures FlattenAction(a, depth).Ok? <==> depth + NestingOne(a) <= 4 && AllWellBranched(FlatAction(a))
    decreases a, 0
  {
    OneWellBranched(a);
    if a.branches.Present? {
      var list := a.branches.list;
      FlattenBranchesIff(list, depth);
      WellBranchedConcat([a], FlatBranches(list));
    }
  }

  lemma OneWellBranched(a: Action)
    ensures AllWellBranched([a]) <==> WellBranched(a)
  {
    assert a in [a];
  }

  ghost predicate NoneEmpty(list: seq<Branch>) {
    forall i | 0 <= i < |list| :: |list[i].body| >= 1
  }

  lemma {:induction false} FlattenBranchesIff(list: seq<Branch>, depth: nat)
    requires depth <= 4
    ensures FlattenBranches(list, depth).Ok? <==>
            NoneEmpty(list) && AllWellBranched(FlatBranches(list)) &&
            (list != [] ==> depth + 1 + NestingBranches(list) <= 4)
    decreases list, 0
  {
    if list != [] {
      FlattenIff(list[0].body, depth + 1);
      FlattenBranchesIff(list[1..], depth);
      WellBranchedConcat(Flat(list[0].body), FlatBranches(list[1..]));
      assert NoneEmpty(list) <==> |list[0].body| >= 1 && NoneEmpty(list[1..]) by {
        if |list[0].body| >= 1 && NoneEmpty(list[1..]) {
          forall i | 0 <= i < |list|
            ensures |list[i].body| >= 1
          {
            assert i > 0 ==> list[i] == list[1..][i - 1];
          }
        }
        if NoneEmpty(list) {
          forall i | 0 <= i < |list[1..]|
            ensures |list[1..][i].body| >= 1
          {
            assert list[1..][i] == list[i + 1];
          }
        }
      }
    }
  }
}
