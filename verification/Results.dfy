/**
 * The result message of one job: how `executeJob` builds it (extension/service-worker.js) and how the client checks it
 * (browser_executor/client.py).
 */
module Results {
  import opened Common
  import opened Program
  import opened ExecutorModel
  import opened Fitting
  import opened RunLaws
  import opened Executor

  // ----- error codes as text

  function KindText(kind: CaptureKind): string {
    match kind
    case LogCapture => "log"
    case RequestCapture => "request"
    case ConsoleCapture => "console"
    case DownloadCapture => "download"
  }

  function CodeText(code: Code): string {
    match code
    case JobCancelled => "job-cancelled"
    case JobTimeout => "job-timeout"
    case ActionLimitExceeded => "action-limit-exceeded"
    case UnsupportedActionCode => "unsupported-action"
    case WaitExhausted => "wait-exhausted"
    case TargetAlreadyOpened => "target-already-opened"
    case CollaborationTargetMissing => "collaboration-target-missing"
    case CollaborationTargetDrift => "collaboration-target-drift"
    case CollaborationTargetLost => "collaboration-target-lost"
    case TargetTabMissing => "target-tab-missing"
    case TargetTabLost => "target-tab-lost"
    case TargetFocusDrift => "target-focus-drift"
    case TargetNotReady => "target-not-ready"
    case DebuggerNotAttached => "debugger-not-attached"
    case DebuggerStateInvalid => "debugger-state-invalid"
    case DebuggerAttachFailed => "debugger-attach-failed"
    case DebuggerDisableFailed => "debugger-disable-failed"
    case DebuggerDetachFailed => "debugger-detach-failed"
    case DebuggerLeftAttached => "debugger-left-attached"
    case CdpMethodBlocked => "cdp-method-blocked"
    case CdpCommandFailed => "cdp-command-failed"
    case NavigationFailed => "navigation-failed"
    case HistoryNavigationFailed => "history-navigation-failed"
    case TabCreateFailed => "tab-create-failed"
    case TabCloseFailed => "tab-close-failed"
    case AllBranchesFailed => "all-branches-failed"
    case MutationStateInvalid => "mutation-state-invalid"
    case MutationDenied => "mutation-denied"
    case CaptureStateInvalid(kind) => KindText(kind) + "-capture-state-invalid"
    case CaptureCleanupFailed(kind) => KindText(kind) + "-capture-cleanup-failed"
    case PrivateEventInvalid(kind) => "private-" + KindText(kind) + "-invalid"
    case DownloadNotComplete => "download-not-complete"
    case PrivateResultTooLarge => "private-result-too-large"
    case PrivateResultInvalid => "private-result-invalid"
    case PrivateValueMismatch => "private-value-mismatch"
    case PrivateSlotMissing => "private-slot-missing"
    case PrivateHashInvalid => "private-hash-invalid"
    case PrivateSnapshotMismatch => "private-snapshot-mismatch"
    case PrivateFilesInvalid => "private-files-invalid"
    case ElementNotFound => "element-not-found"
    case ElementStateMismatch => "element-state-mismatch"
    case ElementAmbiguous => "element-ambiguous"
    case ElementNotVisible => "element-not-visible"
    case ElementHasNoDomNode => "element-has-no-dom-node"
    case ElementScrollFailed => "element-scroll-failed"
    case DomLocatorInvalid => "dom-locator-invalid"
    case InvalidKeyChord => "invalid-key-chord"
    case ScreenshotInvalid => "screenshot-invalid"
    case ScreenshotTooLarge => "screenshot-too-large"
    case FullPageTooLarge => "full-page-too-large"
    case CreatedTabGrantFailed => "created-tab-grant-failed"
    case InternalError => "internal-error"
  }

  predicate CodeEnd(c: char) {
    'a' <= c <= 'z' || '0' <= c <= '9'
  }

  predicate CodeChar(c: char) {
    CodeEnd(c) || c == '-'
  }

  predicate CodeChars(s: string) {
    forall i | 0 <= i < |s| :: CodeChar(s[i])
  }

  /** `^[a-z0-9](?:[a-z0-9-]{0,62}[a-z0-9])?$`: one to 64 such characters, no hyphen at either end. */
  predicate GenericCode(s: string) {
    1 <= |s| <= 64 && CodeEnd(s[0]) && CodeEnd(s[|s| - 1]) && CodeChars(s)
  }

  /** `safeErrorCode`: whatever is not a generic code is reported as an internal error. */
  function SafeErrorCode(code: Code): (text: string)
    ensures GenericCode(text)
    ensures GenericCode(CodeText(code)) ==> text == CodeText(code)
  {
    if GenericCode(CodeText(code)) then CodeText(code) else "internal-error"
  }

  /** The codes of the lower-case letters and the digits in ASCII. */
  predicate LetterOrDigit(c: char) {
    97 <= c as int < 123 || 48 <= c as int < 58
  }

  /** A single letter or digit, or at most 62 letters, digits and hyphens between two. */
  ghost predicate CodeParts(s: string, first: string, inner: string, last: string) {
    s == first + inner + last && |first| == 1 && LetterOrDigit(first[0]) &&
    ((inner == [] && last == []) ||
     (|inner| <= 62 && (forall i | 0 <= i < |inner| :: inner[i] == '-' || LetterOrDigit(inner[i])) &&
      |last| == 1 && LetterOrDigit(last[0])))
  }

  /** The pattern, part by part. */
  lemma GenericCodeIff(s: string)
    ensures GenericCode(s) <==> exists first, inner, last :: CodeParts(s, first, inner, last)
  {
    if GenericCode(s) {
      if |s| == 1 {
        assert s == s + [] + [];
        assert CodeParts(s, s, [], []);
      } else {
        var n := |s| - 1;
        assert s == s[..1] + s[1..n] + s[n..];
        assert CodeParts(s, s[..1], s[1..n], s[n..]);
      }
    }
    if first, inner, last :| CodeParts(s, first, inner, last) {
      forall i | 0 <= i < |s|
        ensures CodeChar(s[i])
      {
        assert 0 < i < |s| - 1 ==> s[i] == inner[i - 1];
      }
    }
  }

  // ----- the message

  datatype PublicValue = StatusIs(ok: bool) | Number(n: int) | Flag(flag: bool)

  /** A `result` message; `priv` maps a private field to the size of its encoded value. */
  datatype Reply = Reply(
    jobId: string, ok: bool, pub: map<PublicField, PublicValue>, priv: map<string, nat>, error: Option<string>)

  /** `filterFields`: the declared fields that the value has. */
  function FilterFields<K(==), V>(value: map<K, V>, fields: seq<K>): map<K, V> {
    map f | f in fields && f in value :: value[f]
  }

  function PublicFields(
      ok: bool, actionCount: nat, mutationStarted: bool, privateCount: nat): map<PublicField, PublicValue>
  {
    map[StatusField := StatusIs(ok), ActionCountField := Number(actionCount),
        MutationStartedField := Flag(mutationStarted), PrivateResultCountField := Number(privateCount)]
  }

  function SlotMap(slots: seq<Slot>): map<string, nat> {
    if slots == [] then map[] else SlotMap(slots[1..])[slots[0].field := slots[0].bytes]
  }

  lemma {:induction false} SlotMapFields(slots: seq<Slot>)
    requires DistinctFields(slots)
    ensures SlotMap(slots).Keys == Fields(slots) && |SlotMap(slots)| == |slots|
    decreases |slots|
  {
    if slots != [] {
      SlotMapFields(slots[1..]);
      FieldsCons(slots);
    }
  }

  function Refusal(jobId: string, code: string): Reply {
    Reply(jobId, false, map[], map[], Some(code))
  }

  function OkReply(jobId: string, p: Program, actionCount: nat, mutationStarted: bool, slots: seq<Slot>): Reply {
    Reply(jobId, true,
          FilterFields(PublicFields(true, actionCount, mutationStarted, |slots|), p.publicFields),
          FilterFields(SlotMap(slots), p.privateFields), None)
  }

  function ErrorReply(jobId: string, p: Program, actionCount: nat, mutationStarted: bool, error: string): Reply {
    Reply(jobId, false, FilterFields(PublicFields(false, actionCount, mutationStarted, 0), p.publicFields), map[],
          Some(error))
  }

  // ----- the client's check

  datatype Complaint =
    | AnotherJob | UndeclaredPublicField | UndeclaredPrivateField | Unauthorized | ErrorWithSuccess | NonGenericError
    | StatusMismatch | ActionCountInvalid | MutationStateInvalidField | PrivateCountInvalid

  /** `_validate_result`, in the order of its tests. */
  function ValidateResult(m: Reply, jobId: string, p: Program, authorized: bool): Result<(), Complaint> {
    if m.jobId != jobId then Err(AnotherJob)
    else if !(m.pub.Keys <= set f | f in p.publicFields) then Err(UndeclaredPublicField)
    else if !(m.priv.Keys <= set f | f in p.privateFields) then Err(UndeclaredPrivateField)
    else if m.ok && p.capability == Mutation && !authorized then Err(Unauthorized)
    else if m.ok && m.error.Some? then Err(ErrorWithSuccess)
    else if !m.ok && (m.error.None? || !GenericCode(m.error.value)) then Err(NonGenericError)
    else if StatusField in m.pub && m.pub[StatusField] != StatusIs(m.ok) then Err(StatusMismatch)
    else if ActionCountField in m.pub &&
            !(m.pub[ActionCountField].Number? && 0 <= m.pub[ActionCountField].n <= p.limits.maxActions)
      then Err(ActionCountInvalid)
    else if MutationStartedField in m.pub && !m.pub[MutationStartedField].Flag? then Err(MutationStateInvalidField)
    else if PrivateResultCountField in m.pub && m.pub[PrivateResultCountField] != Number(|m.priv|)
      then Err(PrivateCountInvalid)
    else Ok(())
  }

  /** What a message of a finished job must be like: the fields it may carry, and what they must agree with. */
  predicate FieldsAgree(m: Reply, p: Program) {
    (forall f | f in m.pub :: f in p.publicFields) && (forall f | f in m.priv :: f in p.privateFields) &&
    (StatusField in m.pub ==> m.pub[StatusField] == StatusIs(m.ok)) &&
    (ActionCountField in m.pub ==>
       m.pub[ActionCountField].Number? && 0 <= m.pub[ActionCountField].n <= p.limits.maxActions) &&
    (MutationStartedField in m.pub ==> m.pub[MutationStartedField].Flag?) &&
    (PrivateResultCountField in m.pub ==> m.pub[PrivateResultCountField] == Number(|m.priv|))
  }

  /**
   * The client accepts exactly the messages for its own job that carry an error if and only if they are no success, a
   * generic one, whose fields are declared and agree, and that are no mutation success it never authorized.
   */
  lemma AcceptedMessageIff(m: Reply, jobId: string, p: Program, authorized: bool)
    ensures ValidateResult(m, jobId, p, authorized).Ok? <==>
            m.jobId == jobId && FieldsAgree(m, p) && (m.ok <==> m.error.None?) &&
            (m.error.Some? ==> GenericCode(m.error.value)) && !(m.ok && p.capability == Mutation && !authorized)
  {
    assert m.pub.Keys <= (set f | f in p.publicFields) <==> forall f | f in m.pub :: f in p.publicFields;
    assert m.priv.Keys <= (set f | f in p.privateFields) <==> forall f | f in m.priv :: f in p.privateFields;
  }

  lemma RefusalAccepted(jobId: string, p: Program, code: string, authorized: bool)
    requires GenericCode(code)
    ensures ValidateResult(Refusal(jobId, code), jobId, p, authorized).Ok?
  {
  }

  lemma ErrorReplyAccepted(
      jobId: string, p: Program, actionCount: nat, mutationStarted: bool, error: string, authorized: bool)
    requires actionCount <= p.limits.maxActions && GenericCode(error)
    ensures ValidateResult(ErrorReply(jobId, p, actionCount, mutationStarted, error), jobId, p, authorized).Ok?
  {
    var none: map<string, nat> := map[];
    assert |none| == 0;
  }

  /** The private fields are declared and distinct, so filtering drops none and the count stays right. */
  lemma FilteredSlots(slots: seq<Slot>, declared: seq<string>)
    requires DistinctFields(slots) && forall f | f in Fields(slots) :: f in declared
    ensures FilterFields(SlotMap(slots), declared) == SlotMap(slots) && |SlotMap(slots)| == |slots|
    ensures SlotMap(slots).Keys == Fields(slots)
  {
    SlotMapFields(slots);
    assert FilterFields(SlotMap(slots), declared).Keys == SlotMap(slots).Keys;
  }

  lemma OkReplyAccepted(
      jobId: string, p: Program, actionCount: nat, mutationStarted: bool, slots: seq<Slot>, authorized: bool)
    requires actionCount <= p.limits.maxActions && ResultsValid(slots, p.privateFields)
    requires p.capability == Mutation ==> authorized
    ensures ValidateResult(OkReply(jobId, p, actionCount, mutationStarted, slots), jobId, p, authorized).Ok?
    ensures OkReply(jobId, p, actionCount, mutationStarted, slots).priv.Keys == Fields(slots)
  {
    FilteredSlots(slots, p.privateFields);
  }

  // ----- executeJob

  /** A client that counts itself authorized whenever it granted the boundary accepts the message. */
  ghost predicate Acceptable(m: Reply, jobId: string, p: Program, granted: bool) {
    forall authorized: bool | granted ==> authorized :: ValidateResult(m, jobId, p, authorized).Ok?
  }

  /** Accepted by the client; a success has been granted and carries the declared results, a failure carries none. */
  ghost predicate Honest(m: Reply, jobId: string, p: Program, granted: bool) {
    Acceptable(m, jobId, p, granted) &&
    (m.ok ==>
       m.error.None? && (p.capability == Mutation ==> granted) &&
       (ExtractionsTopLevel(p) ==> m.priv.Keys == set f | f in p.privateFields)) &&
    (!m.ok ==> m.priv == map[] && m.error.Some?)
  }

  /** What is left of a finished run for its result message. */
  datatype Run = Run(
    outcome: Outcome, actionCount: nat, mutationStarted: bool, results: seq<Slot>, createdTab: bool,
    closingTarget: bool)

  ghost predicate RunFacts(p: Program, run: Run, granted: bool) {
    run.actionCount <= p.limits.maxActions && ResultsValid(run.results, p.privateFields) &&
    (run.outcome.Done? ==>
       (p.capability == Mutation ==> granted && run.mutationStarted) &&
       (ExtractionsTopLevel(p) ==> Fields(run.results) == set f | f in p.privateFields))
  }

  /** A state that the executor's guarantee allows at the end, and what is left of it. */
  ghost predicate LeftOf(p: Program, t: Snap, run: Run, granted: bool) {
    RunGuarantee(p, t, run.outcome) && |t.counted| == run.actionCount && t.mutationStarted == run.mutationStarted &&
    t.granted == granted && t.fields == Fields(run.results)
  }

  ghost predicate Recorded(p: Program, run: Run, granted: bool) {
    RunFacts(p, run, granted) && exists t :: LeftOf(p, t, run, granted)
  }

  // ----- what happens around a run

  /**
   * Whether another job is active, the message is well shaped, a grant matches and the platform answers; which event
   * interfaces the browser has; whether the job is then cancelled, its created tab still lives and can be connected,
   * and the workspace can be read; and which of the two messages can be sent.
   */
  datatype Around = Around(
    jobActive: bool, exactShape: bool, matched: bool, platformKnown: bool, debuggerEvents: bool, downloadEvents: bool,
    cancelled: bool, tabLives: bool, connected: bool, workspaceRead: bool, okSent: bool, errorSent: bool)

  predicate Runs(p: Program, around: Around) {
    !around.jobActive && around.exactShape && Accepted(p) && around.matched && around.platformKnown
  }

  /** Each action of the program fits the session the ones before it leave. */
  predicate FitsIn(p: Program, around: Around) {
    FitsAll(p.actions, Setting(p.capability == Mutation, around.debuggerEvents, around.downloadEvents), FIRST)
  }

  /** The run is done, the job was not cancelled, and what has to follow the run went well. */
  predicate Succeeds(run: Run, around: Around) {
    run.outcome.Done? && !around.cancelled && (run.createdTab ==> around.tabLives && around.connected) &&
    (run.closingTarget ==> around.workspaceRead)
  }

  /** What a failure reports: the run's own code, or what kept a finished run from succeeding. */
  predicate FailsWith(code: Code, run: Run, around: Around) {
    if run.outcome.Failed? then code == run.outcome.code
    else if around.cancelled then code == JobCancelled
    else if run.createdTab && around.tabLives && !around.connected then code == CreatedTabGrantFailed
    else code == InternalError
  }

  /** Every public field that was asked for, with what the run left. */
  ghost predicate PublicTells(m: Reply, p: Program, run: Run) {
    (forall f :: f in m.pub <==> f in p.publicFields && f != UnsafeField) &&
    (StatusField in m.pub ==> m.pub[StatusField] == StatusIs(m.ok)) &&
    (ActionCountField in m.pub ==> m.pub[ActionCountField] == Number(run.actionCount)) &&
    (MutationStartedField in m.pub ==> m.pub[MutationStartedField] == Flag(run.mutationStarted)) &&
    (PrivateResultCountField in m.pub ==> m.pub[PrivateResultCountField] == Number(if m.ok then |run.results| else 0))
  }

  /** The message reports this run: its public fields, and each private result or the error. */
  ghost predicate Reports(m: Reply, p: Program, run: Run, around: Around) {
    m.ok == (Succeeds(run, around) && around.okSent) && PublicTells(m, p, run) &&
    if m.ok then m.error.None? && Holds(m.priv, run.results)
    else m.priv == map[] && exists code | FailsWith(code, run, around) :: m.error == Some(SafeErrorCode(code))
  }

  /** Each result under its field, and nothing else. */
  ghost predicate Holds(priv: map<string, nat>, slots: seq<Slot>) {
    priv.Keys == Fields(slots) &&
    forall i | 0 <= i < |slots| :: slots[i].field in priv && priv[slots[i].field] == slots[i].bytes
  }

  lemma {:induction false} SlotMapHolds(slots: seq<Slot>)
    requires DistinctFields(slots)
    ensures Holds(SlotMap(slots), slots)
    decreases |slots|
  {
    SlotMapFields(slots);
    if slots != [] {
      SlotMapHolds(slots[1..]);
      forall i | 0 < i < |slots|
        ensures slots[i].field in SlotMap(slots) && SlotMap(slots)[slots[i].field] == slots[i].bytes
      {
        assert slots[i] == slots[1..][i - 1] && slots[i].field != slots[0].field;
      }
    }
  }

  lemma OkReports(jobId: string, p: Program, run: Run, around: Around)
    requires ResultsValid(run.results, p.privateFields) && Succeeds(run, around) && around.okSent
    ensures Reports(OkReply(jobId, p, run.actionCount, run.mutationStarted, run.results), p, run, around)
  {
    FilteredSlots(run.results, p.privateFields);
    SlotMapHolds(run.results);
  }

  lemma ErrorReports(jobId: string, p: Program, run: Run, code: Code, error: string, around: Around)
    requires !(Succeeds(run, around) && around.okSent) && FailsWith(code, run, around) && error == SafeErrorCode(code)
    ensures Reports(ErrorReply(jobId, p, run.actionCount, run.mutationStarted, error), p, run, around)
  {
  }

  lemma OkIsHonest(jobId: string, p: Program, run: Run, granted: bool)
    requires RunFacts(p, run, granted) && run.outcome.Done?
    ensures Honest(OkReply(jobId, p, run.actionCount, run.mutationStarted, run.results), jobId, p, granted)
  {
    var m := OkReply(jobId, p, run.actionCount, run.mutationStarted, run.results);
    forall authorized: bool | granted ==> authorized
      ensures ValidateResult(m, jobId, p, authorized).Ok?
    {
      OkReplyAccepted(jobId, p, run.actionCount, run.mutationStarted, run.results, authorized);
    }
    FilteredSlots(run.results, p.privateFields);
  }

  lemma ErrorIsHonest(jobId: string, p: Program, run: Run, error: string, granted: bool)
    requires RunFacts(p, run, granted) && GenericCode(error)
    ensures Honest(ErrorReply(jobId, p, run.actionCount, run.mutationStarted, error), jobId, p, granted)
  {
    var m := ErrorReply(jobId, p, run.actionCount, run.mutationStarted, error);
    forall authorized: bool
      ensures ValidateResult(m, jobId, p, authorized).Ok?
    {
      ErrorReplyAccepted(jobId, p, run.actionCount, run.mutationStarted, error, authorized);
    }
  }

  lemma RefusalIsHonest(jobId: string, p: Program, code: string)
    requires GenericCode(code)
    ensures Honest(Refusal(jobId, code), jobId, p, false)
  {
    forall authorized: bool
      ensures ValidateResult(Refusal(jobId, code), jobId, p, authorized).Ok?
    {
      RefusalAccepted(jobId, p, code, authorized);
    }
  }

  /** Why a job is turned away before it runs. */
  datatype Refused = JobAlreadyActive | InvalidProgram | CollaborationRequired | ExecutorUnavailable

  function RefusedText(r: Refused): string {
    match r
    case JobAlreadyActive => "job-already-active"
    case InvalidProgram => "invalid-program"
    case CollaborationRequired => "collaboration-required"
    case ExecutorUnavailable => "executor-unavailable"
  }

  lemma RefusedGeneric(r: Refused)
    ensures GenericCode(RefusedText(r))
  {
  }

  /** Why a job that does not run is turned away, in the order of the tests. */
  function Reason(p: Program, around: Around): Refused
    requires !Runs(p, around)
  {
    if around.jobActive then JobAlreadyActive
    else if !around.exactShape || !Accepted(p) then InvalidProgram
    else if !around.matched then CollaborationRequired
    else ExecutorUnavailable
  }

  /**
   * `executeJob` up to its cleanup: a job that may not run is refused, and any other runs, whatever the browser does
   * meanwhile, and has its run reported. `None` is a message that could not be sent; `smooth` says that nothing went
   * against the run.
   */
  method ExecuteJob(jobId: string, p: Program, around: Around)
    returns (reply: Option<Reply>, granted: bool, run: Option<Run>, ghost smooth: bool)
    ensures reply.Some? ==> Honest(reply.value, jobId, p, granted)
    ensures run.Some? <==> Runs(p, around)
    ensures run.None? ==> !granted && reply.Some? == around.errorSent
    ensures run.None? && reply.Some? ==> reply.value == Refusal(jobId, RefusedText(Reason(p, around)))
    ensures run.Some? ==>
              Recorded(p, run.value, granted) &&
              (reply.None? <==> !around.errorSent && !(Succeeds(run.value, around) && around.okSent)) &&
              (reply.Some? ==> Reports(reply.value, p, run.value, around)) &&
              (smooth && FitsIn(p, around) ==> run.value.outcome.Done?)
  {
    granted, run, smooth := false, None, true;
    if around.jobActive {
      reply := Refuse(jobId, p, JobAlreadyActive, around.errorSent);
    } else if !around.exactShape || !Accepted(p) {
      reply := Refuse(jobId, p, InvalidProgram, around.errorSent);
    } else if !around.matched {
      reply := Refuse(jobId, p, CollaborationRequired, around.errorSent);
    } else if !around.platformKnown {
      reply := Refuse(jobId, p, ExecutorUnavailable, around.errorSent);
    } else {
      var finished: Run;
      reply, granted, finished, smooth := RunJob(jobId, p, around);
      run := Some(finished);
    }
  }

  method Refuse(jobId: string, p: Program, why: Refused, sent: bool) returns (reply: Option<Reply>)
    ensures reply == if sent then Some(Refusal(jobId, RefusedText(why))) else None
    ensures reply.Some? ==> Honest(reply.value, jobId, p, false)
  {
    RefusedGeneric(why);
    RefusalIsHonest(jobId, p, RefusedText(why));
    reply := if sent then Some(Refusal(jobId, RefusedText(why))) else None;
  }

  /** A message that cannot be sent as a success is tried once more as a failure. */
  method RunJob(jobId: string, p: Program, around: Around)
    returns (reply: Option<Reply>, granted: bool, run: Run, ghost smooth: bool)
    requires Accepted(p)
    ensures Recorded(p, run, granted) && (smooth && FitsIn(p, around) ==> run.outcome.Done?)
    ensures reply.None? <==> !around.errorSent && !(Succeeds(run, around) && around.okSent)
    ensures reply.Some? ==> Honest(reply.value, jobId, p, granted) && Reports(reply.value, p, run, around)
  {
    run, granted, smooth := RunToEnd(p, around);
    var failure := AfterRun(run, around);
    if failure.None? && around.okSent {
      OkIsHonest(jobId, p, run, granted);
      OkReports(jobId, p, run, around);
      return Some(OkReply(jobId, p, run.actionCount, run.mutationStarted, run.results)), granted, run, smooth;
    }
    var code := if failure.Some? then failure.value else InternalError;
    var error := SafeErrorCode(code);
    ErrorIsHonest(jobId, p, run, error, granted);
    ErrorReports(jobId, p, run, code, error, around);
    reply := if around.errorSent then Some(ErrorReply(jobId, p, run.actionCount, run.mutationStarted, error)) else None;
  }

  /** A new executor, run on the program. */
  method RunToEnd(p: Program, around: Around) returns (run: Run, granted: bool, ghost smooth: bool)
    requires Accepted(p)
    ensures Recorded(p, run, granted) && (smooth && FitsIn(p, around) ==> run.outcome.Done?)
  {
    var tab: nat :| true;
    var executor := new BrowserExecutor(p, Some(tab), around.debuggerEvents, around.downloadEvents);
    var outcome := executor.Run();
    granted, smooth := executor.granted, executor.smooth;
    GrantedWhenDone(p, executor.View(), outcome);
    run := Run(outcome, executor.actionCount, executor.mutationStarted, executor.privateResults,
               executor.createdTab && executor.tabId.Some?, executor.closingTarget);
    assert LeftOf(p, executor.View(), run, granted);
  }

  /** Between the run and the result: cancellation, sharing a created tab, re-checking the workspace after a close. */
  method AfterRun(run: Run, around: Around) returns (failure: Option<Code>)
    ensures failure.None? <==> Succeeds(run, around)
    ensures failure.Some? ==> FailsWith(failure.value, run, around)
  {
    if run.outcome.Failed? {
      return Some(run.outcome.code);
    }
    if around.cancelled {
      return Some(JobCancelled);
    }
    if run.createdTab && !around.tabLives {
      return Some(InternalError);
    }
    if run.createdTab && !around.connected {
      return Some(CreatedTabGrantFailed);
    }
    return if run.closingTarget && !around.workspaceRead then Some(InternalError) else None;
  }

  lemma GrantedWhenDone(p: Program, t: Snap, o: Outcome)
    requires RunGuarantee(p, t, o)
    ensures o.Done? && p.capability == Mutation ==> t.mutationStarted && t.granted
    ensures |t.counted| <= p.limits.maxActions
  {
    if o.Done? && p.capability == Mutation {
      var b :| ContiguousAfter(p.actions, b, t, o);
    }
  }
}
