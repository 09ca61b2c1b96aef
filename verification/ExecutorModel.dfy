/**
 * Values the executor manipulates: error codes, page commands, its event history, private results
 * (extension/executor.mjs).
 */
module ExecutorModel {
  import opened Common
  import opened Program

  type TabId = nat
  type Session = string

  datatype Code =
    | JobCancelled | JobTimeout | ActionLimitExceeded | UnsupportedActionCode | WaitExhausted
    | TargetAlreadyOpened | CollaborationTargetMissing | CollaborationTargetDrift | CollaborationTargetLost
    | TargetTabMissing | TargetTabLost | TargetFocusDrift | TargetNotReady
    | DebuggerNotAttached | DebuggerStateInvalid | DebuggerAttachFailed | DebuggerDisableFailed
    | DebuggerDetachFailed | DebuggerLeftAttached | CdpMethodBlocked | CdpCommandFailed
    | NavigationFailed | HistoryNavigationFailed | TabCreateFailed | TabCloseFailed
    | AllBranchesFailed | MutationStateInvalid | MutationDenied
    | CaptureStateInvalid(kind: CaptureKind) | CaptureCleanupFailed(kind: CaptureKind)
    | PrivateEventInvalid(kind: CaptureKind) | DownloadNotComplete
    | PrivateResultTooLarge | PrivateResultInvalid | PrivateValueMismatch | PrivateSlotMissing
    | PrivateHashInvalid | PrivateSnapshotMismatch | PrivateFilesInvalid
    | ElementNotFound | ElementStateMismatch | ElementAmbiguous | ElementNotVisible
    | ElementHasNoDomNode | ElementScrollFailed | DomLocatorInvalid | InvalidKeyChord
    | ScreenshotInvalid | ScreenshotTooLarge | FullPageTooLarge
    | CreatedTabGrantFailed
    | InternalError  // anything thrown that is not an ExecutionError

  datatype Outcome = Done | Failed(code: Code)

  predicate RetryableWait(code: Code) {
    code in {ElementNotFound, ElementStateMismatch, ElementAmbiguous, TargetNotReady, TargetFocusDrift,
             PrivateValueMismatch}
  }

  predicate RecoverableBranch(code: Code) {
    code in {ElementNotFound, ElementStateMismatch, ElementAmbiguous, ElementNotVisible, ElementHasNoDomNode,
             ElementScrollFailed}
  }

  /** Codes a page-reading or input handler can end with on its own account. */
  predicate PageCode(code: Code) {
    !(code in {ActionLimitExceeded, WaitExhausted, DebuggerLeftAttached, UnsupportedActionCode})
  }

  /** The allowlisted protocol methods, and every other one. */
  datatype CdpMethod =
    | AccessibilityDisable | AccessibilityEnable | AccessibilityGetFullAXTree | DomDisable | DomEnable | DomFocus
    | DomGetBoxModel | DomGetDocument | DomQuerySelector | DomScrollIntoViewIfNeeded | DomSetFileInputFiles
    | InputDispatchKeyEvent | InputDispatchMouseEvent | InputInsertText | PageDisable | PageEnable
    | PageCaptureScreenshot | PageGetLayoutMetrics | PageReload | PageHandleJavaScriptDialog | LogDisable | LogEnable
    | PerformanceDisable | PerformanceEnable | PerformanceGetMetrics | NetworkDisable | NetworkEnable | RuntimeDisable
    | RuntimeEnable | TargetSetAutoAttach
    | Unlisted(name: string)

  predicate Allowed(m: CdpMethod) {
    !m.Unlisted?
  }

  function EnableMethod(kind: CaptureKind): CdpMethod {
    match kind
    case LogCapture => LogEnable
    case RequestCapture => NetworkEnable
    case _ => RuntimeEnable
  }

  function DisableMethod(kind: CaptureKind): CdpMethod {
    match kind
    case LogCapture => LogDisable
    case RequestCapture => NetworkDisable
    case _ => RuntimeDisable
  }

  datatype Listener = TargetEvents | CaptureEvents(kind: CaptureKind) | DownloadCreated | DownloadChanged

  /** What the browser reports about one tab. */
  datatype TabView = TabView(url: Url, pendingUrl: Option<Url>, complete: bool, active: bool, windowFocused: bool)

  // ----- event history

  /**
   * What happened, in order: the clock was read, an action started, another URL became the expected one, the target
   * check passed on what the tab showed, the debugger came and went, a command was sent, a tab was seen to be ready,
   * an operation that is waited for was evaluated, a sleep, the boundary was answered, the mutation began.
   */
  datatype Event =
    | Clock(now: int)
    | Start(action: Action)
    | Aimed(url: Url)
    | CheckPassed(tab: TabId, view: TabView)
    | Attached(tab: TabId)
    | Released(confirmed: bool)
    | Sent(cdp: CdpMethod, to: TabId, cleanup: bool)
    | Seen(view: TabView)
    | Evaluating
    | Evaluated(outcome: Outcome)
    | Slept(delay: int)
    | BoundaryAnswered(authorized: bool)
    | MutationBegan

  /** The events so far, the latest outermost. */
  datatype History = NoEvents | Then(before: History, event: Event)

  function Events(h: History): seq<Event> {
    match h
    case NoEvents => []
    case Then(before, event) => Events(before) + [event]
  }

  /** Nothing of `base` was forgotten or rewritten. */
  ghost predicate Grew(base: History, h: History) {
    h == base || (h.Then? && Grew(base, h.before))
  }

  lemma {:induction false} GrewFurther(a: History, b: History, c: History)
    requires Grew(a, b) && Grew(b, c)
    ensures Grew(a, c)
    decreases c
  {
    if c != b {
      GrewFurther(a, b, c.before);
    }
  }

  predicate JustStarted(h: History) {
    h.Then? && h.event.Start?
  }

  /** The actions begun in `h`, in order. */
  function Started(h: History): seq<Action> {
    match h
    case NoEvents => []
    case Then(before, event) => if event.Start? then Started(before) + [event.action] else Started(before)
  }

  /** The tab the debugger is attached to after `h`. */
  function AttachedAt(h: History): Option<TabId> {
    match h
    case NoEvents => None
    case Then(before, event) =>
      if event.Released? then None else if event.Attached? then Some(event.tab) else AttachedAt(before)
  }

  /** The URL the target is expected to show after `h`: the program's own one, until a navigation sets another. */
  function AimedAt(h: History, first: Option<Url>): Option<Url> {
    match h
    case NoEvents => first
    case Then(before, event) => if event.Aimed? then Some(event.url) else AimedAt(before, first)
  }

  /** The tab whose check passed right at the start of the current action. */
  function CheckedTab(h: History): Option<TabId> {
    match h
    case NoEvents => None
    case Then(before, event) =>
      if event.Start? then None
      else if JustStarted(before) then if event.CheckPassed? then Some(event.tab) else None
      else CheckedTab(before)
  }

  predicate Began(h: History) {
    h.Then? && (h.event.MutationBegan? || Began(h.before))
  }

  /** No time that may be read after `h` is earlier: clocks do not run backwards, and a sleep lasts as long as asked. */
  function Earliest(h: History): int {
    match h
    case NoEvents => 0
    case Then(before, event) =>
      if event.Clock? then event.now else if event.Slept? then Earliest(before) + event.delay else Earliest(before)
  }

  predicate Shows(view: TabView, url: Url) {
    view.url == url && view.active && view.windowFocused
  }

  /** The last thing that happened is a look at the clock before the deadline. */
  predicate InTime(h: History, deadline: int) {
    h.Then? && h.event.Clock? && h.event.now < deadline
  }

  /** The last things that happened: the boundary was granted, the deadline was not over, and the target was exact. */
  predicate MayBegin(h: History, deadline: int) {
    h.Then? && h.event.CheckPassed? && InTime(h.before, deadline) &&
    h.before.before.Then? && h.before.before.event == BoundaryAnswered(true) && !Began(h)
  }

  predicate Guards(target: Target, deadline: int, before: History, e: Event) {
    match e
    case Start(_) => InTime(before, deadline)
    case Aimed(url) => InTarget(url, target)
    case CheckPassed(_, view) =>
      InTarget(view.url, target) && AimedAt(before, target.url) == Some(view.url) && Shows(view, view.url)
    case Sent(cdp, to, cleanup) =>
      Allowed(cdp) && AttachedAt(before) == Some(to) && (cleanup || CheckedTab(before) == Some(to))
    case MutationBegan => MayBegin(before, deadline)
    case _ => true
  }

  /**
   * Each command is allowed, goes to the attached tab, and outside cleanup to the one its own action checked; a check
   * passes only on the URL then expected, which is one of the target's; no action starts after the deadline; and a
   * mutation begins once, right after its grant, a deadline check and a target check.
   */
  predicate Guarded(target: Target, deadline: int, h: History) {
    match h
    case NoEvents => true
    case Then(before, event) => Guarded(target, deadline, before) && Guards(target, deadline, before, event)
  }

  /** The first `n` events. */
  function Upto(h: History, n: nat): History
    requires n <= |Events(h)|
  {
    if n == |Events(h)| then h else Upto(h.before, n)
  }

  lemma {:induction false} UptoEvents(h: History, n: nat)
    requires n <= |Events(h)|
    ensures Events(Upto(h, n)) == Events(h)[..n]
    decreases h
  {
    if n < |Events(h)| {
      UptoEvents(h.before, n);
      assert Events(h)[..n] == Events(h.before)[..n];
    } else {
      assert Events(h)[..n] == Events(h);
    }
  }

  /** A guarded history is guarded at every position. */
  lemma {:induction false} GuardedAt(target: Target, deadline: int, h: History, i: nat)
    requires Guarded(target, deadline, h) && i < |Events(h)|
    ensures Guarded(target, deadline, Upto(h, i)) && Guards(target, deadline, Upto(h, i), Events(h)[i])
    decreases h
  {
    if i < |Events(h.before)| {
      GuardedAt(target, deadline, h.before, i);
      assert Upto(h, i) == Upto(h.before, i) && Events(h)[i] == Events(h.before)[i];
    } else {
      assert Upto(h, i) == h.before;
    }
  }

  /** The tab shows, active and focused, the URL that is expected after the first `n` events, one of the target's. */
  ghost predicate ShowsTarget(target: Target, h: History, n: nat, view: TabView)
    requires n <= |Events(h)|
  {
    AimedAt(Upto(h, n), target.url) == Some(view.url) && InTarget(view.url, target) && Shows(view, view.url)
  }

  /** An action starts at `s`, its check passes right after on `tab`, and no other action starts up to `i`. */
  ghost predicate ActionCheckedAt(target: Target, h: History, s: int, i: int, tab: TabId) {
    var events := Events(h);
    0 <= s && s + 1 < i < |events| && events[s].Start? && events[s + 1].CheckPassed? && events[s + 1].tab == tab &&
    ShowsTarget(target, h, s + 1, events[s + 1].view) &&
    forall k | s < k <= i :: !events[k].Start?
  }

  /**
   * The guarded history read by position: every page command belongs to an action whose target check passed first, on
   * the very tab that the command goes to, and saw the URL expected there.
   */
  lemma GuardedCommand(target: Target, deadline: int, h: History, i: nat)
    requires Guarded(target, deadline, h) && i < |Events(h)| && Events(h)[i].Sent? && !Events(h)[i].cleanup
    ensures Allowed(Events(h)[i].cdp) && AttachedAt(Upto(h, i)) == Some(Events(h)[i].to)
    ensures exists s :: ActionCheckedAt(target, h, s, i, Events(h)[i].to)
  {
    var events := Events(h);
    GuardedAt(target, deadline, h, i);
    UptoEvents(h, i);
    var s := CheckedTabAt(Upto(h, i));
    assert events[s] == events[..i][s] && events[s + 1] == events[..i][s + 1];
    GuardedAt(target, deadline, h, s + 1);
    assert forall k | s < k < i :: events[k] == events[..i][k];
    assert ActionCheckedAt(target, h, s, i, events[i].to);
  }

  lemma {:induction false} CheckedTabAt(h: History) returns (s: nat)
    requires CheckedTab(h).Some?
    ensures var events := Events(h);
            s + 1 < |events| && events[s].Start? && events[s + 1].CheckPassed? &&
            events[s + 1].tab == CheckedTab(h).value && forall k | s < k < |events| :: !events[k].Start?
    decreases h
  {
    var events, before := Events(h), Events(h.before);
    assert forall k | 0 <= k < |before| :: events[k] == before[k];
    if JustStarted(h.before) {
      s := |before| - 1;
      assert before[s] == h.before.event;
    } else {
      s := CheckedTabAt(h.before);
    }
  }

  lemma UptoEvent(h: History, n: nat)
    requires 0 < n <= |Events(h)|
    ensures Upto(h, n).Then? && Upto(h, n).event == Events(h)[n - 1] && Upto(h, n).before == Upto(h, n - 1)
    decreases h
  {
    if n < |Events(h)| {
      UptoEvent(h.before, n);
    }
  }

  /** No action starts after the deadline: the clock was read right before, and there was time left. */
  lemma GuardedStart(target: Target, deadline: int, h: History, i: nat)
    requires Guarded(target, deadline, h) && i < |Events(h)| && Events(h)[i].Start?
    ensures i > 0 && Events(h)[i - 1].Clock? && Events(h)[i - 1].now < deadline
  {
    GuardedAt(target, deadline, h, i);
    UptoEvents(h, i);
    UptoEvent(h, i);
  }

  /** A mutation begins right after a grant, a deadline check and a target check, and only once. */
  lemma GuardedMutation(target: Target, deadline: int, h: History, i: nat)
    requires Guarded(target, deadline, h) && i < |Events(h)| && Events(h)[i].MutationBegan?
    ensures i >= 3 && Events(h)[i - 3] == BoundaryAnswered(true)
    ensures Events(h)[i - 2].Clock? && Events(h)[i - 2].now < deadline
    ensures Events(h)[i - 1].CheckPassed? && ShowsTarget(target, h, i - 1, Events(h)[i - 1].view)
    ensures forall k | 0 <= k < i :: !Events(h)[k].MutationBegan?
  {
    GuardedAt(target, deadline, h, i);
    var before := Upto(h, i);
    UptoEvents(h, i);
    NotBegun(before);
    assert |Events(before)| == i && |Events(before)| == |Events(before.before.before)| + 2;
    assert |Events(before.before.before)| >= 1;
    UptoEvent(h, i);
    UptoEvent(h, i - 1);
    UptoEvent(h, i - 2);
    GuardedAt(target, deadline, h, i - 1);
    forall k | 0 <= k < i
      ensures !Events(h)[k].MutationBegan?
    {
      assert Events(h)[k] == Events(before)[k];
    }
  }

  lemma {:induction false} NotBegun(h: History)
    requires !Began(h)
    ensures forall k | 0 <= k < |Events(h)| :: !Events(h)[k].MutationBegan?
    decreases h
  {
    if h.Then? {
      NotBegun(h.before);
    }
  }

  /** The last thing that happened is that the tab was seen to show the URL, active and focused. */
  ghost predicate JustChecked(h: History, tab: Option<TabId>, url: Url) {
    h.Then? && tab.Some? && h.event.CheckPassed? && h.event.tab == tab.value && Shows(h.event.view, url)
  }

  /** Only commands and looks at the tab since `base`. */
  ghost predicate PageEvents(base: History, h: History) {
    h == base || (h.Then? && (h.event.Sent? || h.event.CheckPassed? || h.event.Seen?) && PageEvents(base, h.before))
  }

  lemma {:induction false} PageGrew(base: History, h: History)
    requires PageEvents(base, h)
    ensures Grew(base, h)
    decreases h
  {
    if h != base {
      PageGrew(base, h.before);
    }
  }

  // ----- private results

  /** One member of `privateResults`: its name and the encoded size of its value, in insertion order. */
  datatype Slot = Slot(field: string, bytes: nat)

  const MAX_PRIVATE_RESULTS_BYTES := 524288

  function Fields(slots: seq<Slot>): set<string> {
    set s | s in slots :: s.field
  }

  /** Bytes of `JSON.stringify(privateResults)`: braces, commas, and `"field":value` per member. */
  function EncodedBytes(slots: seq<Slot>): nat {
    2 + MemberBytes(slots) + if slots == [] then 0 else |slots| - 1
  }

  function MemberBytes(slots: seq<Slot>): nat {
    if slots == [] then 0 else |slots[0].field| + 3 + slots[0].bytes + MemberBytes(slots[1..])
  }

  function Put(slots: seq<Slot>, field: string, bytes: nat): seq<Slot> {
    if slots == [] then [Slot(field, bytes)]
    else if slots[0].field == field then [Slot(field, bytes)] + slots[1..]
    else [slots[0]] + Put(slots[1..], field, bytes)
  }

  function Delete(slots: seq<Slot>, field: string): seq<Slot> {
    if slots == [] then []
    else if slots[0].field == field then slots[1..]
    else [slots[0]] + Delete(slots[1..], field)
  }

  ghost predicate DistinctFields(slots: seq<Slot>) {
    slots == [] || (slots[0].field !in Fields(slots[1..]) && DistinctFields(slots[1..]))
  }

  lemma {:induction false} PutFields(slots: seq<Slot>, field: string, bytes: nat)
    requires DistinctFields(slots)
    ensures Fields(Put(slots, field, bytes)) == Fields(slots) + {field}
    ensures DistinctFields(Put(slots, field, bytes))
    decreases |slots|
  {
    var r := Put(slots, field, bytes);
    if slots == [] {
      assert r[1..] == [];
    } else {
      FieldsCons(slots);
      FieldsCons(r);
      if slots[0].field != field {
        PutFields(slots[1..], field, bytes);
        assert r[1..] == Put(slots[1..], field, bytes);
      } else {
        assert r[1..] == slots[1..];
      }
    }
  }

  lemma FieldsCons(slots: seq<Slot>)
    requires slots != []
    ensures Fields(slots) == {slots[0].field} + Fields(slots[1..])
  {
    assert slots == [slots[0]] + slots[1..];
  }

  /** Writing a field and deleting it again leaves the other fields, and never more bytes than before. */
  lemma {:induction false} PutThenDelete(slots: seq<Slot>, field: string, bytes: nat)
    requires DistinctFields(slots)
    ensures
      var r := Delete(Put(slots, field, bytes), field);
      DistinctFields(r) && Fields(r) == Fields(slots) - {field} && EncodedBytes(r) <= EncodedBytes(slots) &&
      MemberBytes(r) <= MemberBytes(slots) && |r| <= |slots|
    decreases |slots|
  {
    if slots != [] {
      FieldsCons(slots);
      var put := Put(slots, field, bytes);
      if slots[0].field == field {
        assert put[0].field == field && put[1..] == slots[1..];
      } else {
        PutThenDelete(slots[1..], field, bytes);
        var rest := Delete(Put(slots[1..], field, bytes), field);
        assert put[0] == slots[0] && put[1..] == Put(slots[1..], field, bytes);
        var r := Delete(put, field);
        assert r == [slots[0]] + rest && r[1..] == rest;
        FieldsCons(r);
      }
    } else {
      assert Put(slots, field, bytes)[1..] == [];
    }
  }
}
