/** The bounded retry loop of the executor, read off its event history (extension/executor.mjs). */
module Waits {
  import opened Common
  import opened Program
  import opened ExecutorModel

  /** A wait: where and when it began, the tab and URL it is about, and its limits. */
  datatype Wait = Wait(
    start: History, began: int, tab: Option<TabId>, url: Url, deadline: int, stop: int, attempts: int, delay: int)

  /** The wait that begins when the clock is read after `before`. */
  function Planned(before: History, now: int, tab: Option<TabId>, url: Url, deadline: int, timeoutMs: int,
                   maximumAttempts: int): Wait {
    var attempts := Max(1, Min(maximumAttempts, 20));
    Wait(Then(before, Clock(now)), now, tab, url, deadline, Min(deadline, now + timeoutMs), attempts,
         if attempts > 1 then Max(20, timeoutMs / attempts) else timeoutMs)
  }

  /** A round begins at the start, or after a sleep and a passing target check. */
  ghost predicate AtHead(w: Wait, h: History) {
    h == w.start || (JustChecked(h, w.tab, w.url) && h.before.Then? && h.before.event.Slept?)
  }

  /** Before an evaluation the deadline has been checked. */
  ghost predicate MayEvaluate(w: Wait, h: History) {
    InTime(h, w.deadline) && AtHead(w, h.before)
  }

  predicate Retryable(o: Outcome) {
    o.Failed? && RetryableWait(o.code)
  }

  /** Before a sleep there was a retryable failure, and a look at the clock that leaves the time for it. */
  ghost predicate MaySleep(w: Wait, h: History, delay: int) {
    h.Then? && h.event.Clock? && 0 < delay == w.delay && h.event.now + delay <= w.stop &&
    h.before.Then? && h.before.event.Evaluated? && Retryable(h.before.event.outcome)
  }

  /** `h` is the start of the wait and its rounds so far. */
  ghost predicate Rounds(w: Wait, h: History) {
    h == w.start ||
    (h.Then? && Rounds(w, h.before) && (h.event.Evaluating? ==> MayEvaluate(w, h.before)) &&
     (h.event.Slept? ==> MaySleep(w, h.before, h.event.delay)))
  }

  function Evaluations(start: History, h: History): nat {
    if h == start || h.NoEvents? then 0 else Evaluations(start, h.before) + if h.event.Evaluating? then 1 else 0
  }

  function SleptFor(start: History, h: History): int {
    if h == start || h.NoEvents? then 0 else SleptFor(start, h.before) + if h.event.Slept? then h.event.delay else 0
  }

  function Size(h: History): nat {
    if h.NoEvents? then 0 else 1 + Size(h.before)
  }

  /** After `n` evaluations, and no more sleep than time has passed since the beginning or is left in all. */
  ghost predicate Underway(w: Wait, h: History, n: nat) {
    Rounds(w, h) && Evaluations(w.start, h) == n && Size(w.start) <= Size(h) &&
    0 <= SleptFor(w.start, h) <= Earliest(h) - w.began && SleptFor(w.start, h) <= Max(0, w.stop - w.began)
  }

  lemma WaitBegins(w: Wait)
    requires w.start.Then? && w.start.event == Clock(w.began)
    ensures Underway(w, w.start, 0)
  {
  }

  lemma WaitReads(w: Wait, h: History, n: nat, now: int)
    requires Underway(w, h, n) && Earliest(h) <= now
    ensures Underway(w, Then(h, Clock(now)), n)
  {
  }

  lemma {:induction false} WaitPage(w: Wait, base: History, h: History, n: nat)
    requires Underway(w, base, n) && PageEvents(base, h)
    ensures Underway(w, h, n)
    decreases h
  {
    if h != base {
      WaitPage(w, base, h.before, n);
    }
  }

  /** A round: the deadline check, the operation, its outcome. */
  lemma WaitEvaluates(w: Wait, h: History, n: nat, now: int, mid: History, o: Outcome)
    requires Underway(w, h, n) && AtHead(w, h) && Earliest(h) <= now < w.deadline
    requires PageEvents(Then(Then(h, Clock(now)), Evaluating), mid)
    ensures Underway(w, Then(mid, Evaluated(o)), n + 1)
  {
    WaitReads(w, h, n, now);
    var read := Then(h, Clock(now));
    assert MayEvaluate(w, read);
    assert Underway(w, Then(read, Evaluating), n + 1);
    WaitPage(w, Then(read, Evaluating), mid, n + 1);
  }

  lemma WaitSleeps(w: Wait, h: History, n: nat, read: int)
    requires Underway(w, h, n) && h.Then? && h.event.Evaluated? && Retryable(h.event.outcome)
    requires Earliest(h) <= read && 0 < w.delay && read + w.delay <= w.stop
    ensures Underway(w, Then(Then(h, Clock(read)), Slept(w.delay)), n)
  {
    WaitReads(w, h, n, read);
    assert MaySleep(w, Then(h, Clock(read)), w.delay);
  }

  lemma WaitChecks(w: Wait, h: History, n: nat, checked: History)
    requires Underway(w, h, n) && h.Then? && h.event.Slept?
    requires JustChecked(checked, w.tab, w.url) && checked.before == h
    ensures Underway(w, checked, n) && AtHead(w, checked)
  {
  }

  /** Why the wait ended with `r` after `n` evaluations. */
  ghost predicate Ends(w: Wait, h: History, n: nat, r: Outcome) {
    h.Then? &&
    ((h.event == Evaluated(r) && (!Retryable(r) || n >= w.attempts)) ||
     (h.event.Clock? && h.before.Then? && h.before.event == Evaluated(r) && h.event.now + w.delay > w.stop) ||
     (r == Failed(JobCancelled) && AtHead(w, h)) ||
     (r == Failed(JobTimeout) && h.event.Clock? && h.event.now >= w.deadline && AtHead(w, h.before)) ||
     (h.event.Slept? && r in {Failed(TargetTabMissing), Failed(TargetTabLost), Failed(TargetFocusDrift)}))
  }

  /** Cancelled or out of time before an evaluation. */
  lemma WaitCut(w: Wait, head: History, n: nat, h: History, r: Outcome)
    requires Underway(w, head, n) && AtHead(w, head) && n <= w.attempts && w.start.Then?
    requires (r == Failed(JobCancelled) && h == head) ||
             (r == Failed(JobTimeout) && h.Then? && h.before == head && h.event.Clock? &&
              h.event.now >= Max(Earliest(head), w.deadline))
    ensures Waited(w, h, r)
  {
    if h != head {
      WaitReads(w, head, n, h.event.now);
    }
  }

  /**
   * A whole wait: every evaluation after the first comes after a sleep and a passing target check, every sleep ends by
   * the stop time, there are no more evaluations than attempts, and it ends for a reason.
   */
  ghost predicate Waited(w: Wait, h: History, r: Outcome) {
    var n := Evaluations(w.start, h);
    Underway(w, h, n) && n <= w.attempts && Ends(w, h, n, r)
  }

  lemma {:induction false} RoundsGrew(w: Wait, h: History)
    requires Rounds(w, h)
    ensures Grew(w.start, h)
    decreases h
  {
    if h != w.start {
      RoundsGrew(w, h.before);
    }
  }

  lemma WaitGrew(w: Wait, base: History, h: History, n: nat)
    requires Underway(w, h, n) && w.start.Then? && w.start.before == base
    ensures Grew(base, h)
  {
    RoundsGrew(w, h);
    GrewFurther(base, w.start, h);
  }

  // ----- by position

  lemma {:induction false} EventsGrew(base: History, h: History)
    requires Grew(base, h)
    ensures Events(base) <= Events(h) && Upto(h, |Events(base)|) == base
    decreases h
  {
    if h != base {
      EventsGrew(base, h.before);
    }
  }

  lemma {:induction false} RoundsAt(w: Wait, h: History, i: nat)
    requires Rounds(w, h) && |Events(w.start)| <= i < |Events(h)|
    ensures Events(h)[i].Evaluating? ==> MayEvaluate(w, Upto(h, i))
    ensures Events(h)[i].Slept? ==> MaySleep(w, Upto(h, i), Events(h)[i].delay)
    decreases h
  {
    if i < |Events(h.before)| {
      RoundsAt(w, h.before, i);
      assert Upto(h, i) == Upto(h.before, i) && Events(h)[i] == Events(h.before)[i];
    } else {
      assert Upto(h, i) == h.before;
    }
  }

  /** A sleep at position `i` follows a retryable failure and ends by the stop time. */
  lemma SleepEndsInTime(w: Wait, h: History, i: nat)
    requires Rounds(w, h) && |Events(w.start)| <= i < |Events(h)| && Events(h)[i].Slept?
    ensures i >= 2 && Events(h)[i - 2].Evaluated? && Retryable(Events(h)[i - 2].outcome)
    ensures Events(h)[i - 1].Clock? && Events(h)[i - 1].now + Events(h)[i].delay <= w.stop
  {
    RoundsAt(w, h, i);
    UptoEvents(h, i);
    assert |Events(Upto(h, i).before)| >= 1;
    UptoEvent(h, i);
    UptoEvent(h, i - 1);
  }

  /**
   * Between two evaluations there is a passing target check, right after a sleep and right before the deadline check.
   */
  lemma CheckedBetween(w: Wait, h: History, i: nat, k: nat)
    requires Rounds(w, h) && |Events(w.start)| <= i < k < |Events(h)|
    requires Events(h)[i].Evaluating? && Events(h)[k].Evaluating?
    ensures i < k - 3 && Events(h)[k - 1].Clock? && Events(h)[k - 1].now < w.deadline && Events(h)[k - 3].Slept?
    ensures Events(h)[k - 2].CheckPassed? && Some(Events(h)[k - 2].tab) == w.tab && Shows(Events(h)[k - 2].view, w.url)
  {
    RoundsGrew(w, h);
    EventsGrew(w.start, h);
    RoundsAt(w, h, k);
    UptoEvents(h, k);
    UptoEvent(h, k);
    assert Upto(h, k - 1) == w.start ==> |Events(w.start)| == k - 1 by {
      UptoEvents(h, k - 1);
    }
    UptoEvents(h, k - 1);
    assert |Events(Upto(h, k - 1).before)| >= 1;
    UptoEvent(h, k - 1);
    UptoEvent(h, k - 2);
  }
}
