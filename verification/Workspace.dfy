/** The grant workspace of the extension's worker: share, rotate, evict, revoke, match (extension/service-worker.js). */
module Workspace {
  import opened Common
  import opened Program

  type GrantId = nat
  type TabId = nat
  type WindowId = nat

  const MAX_COLLABORATIONS := 16
  const MAX_URL_CHARS := 16384

  /** What Chrome reports about a live tab; `url` is absent without permission to read it. */
  datatype Tab = Tab(id: TabId, window: WindowId, url: Option<Url>)

  datatype Grant = Grant(id: GrantId, tab: TabId, window: WindowId, url: Url, origin: string)

  datatype State = State(selected: Option<GrantId>, grants: seq<Grant>)

  const EMPTY := State(None, [])

  predicate SafeUrl(url: Url) {
    url.scheme == "https" && !url.credentials && |url.raw| <= MAX_URL_CHARS
  }

  function TargetFromTab(tab: Option<Tab>): Option<Url> {
    if tab.Some? && tab.value.url.Some? && SafeUrl(tab.value.url.value) then tab.value.url else None
  }

  predicate GrantOk(g: Grant) {
    SafeUrl(g.url) && g.url.origin == g.origin
  }

  predicate Apart(g: Grant, h: Grant) {
    g.id != h.id && g.tab != h.tab
  }

  predicate AllApart(s: seq<Grant>) {
    forall i, k | 0 <= i < k < |s| :: Apart(s[i], s[k])
  }

  predicate DistinctUrls(s: seq<Grant>) {
    forall i, k | 0 <= i < k < |s| :: s[i].url != s[k].url
  }

  predicate HasId(s: seq<Grant>, id: GrantId) {
    exists i | 0 <= i < |s| :: s[i].id == id
  }

  predicate SelectedIn(w: State) {
    w.selected.Some? ==> HasId(w.grants, w.selected.value)
  }

  /** `validateWorkspace`: anything else in storage counts as no workspace. */
  function ValidWorkspace(stored: Option<State>): Option<State> {
    if stored.Some? && |stored.value.grants| <= MAX_COLLABORATIONS && AllApart(stored.value.grants) &&
       DistinctUrls(stored.value.grants) && SelectedIn(stored.value) &&
       (forall i | 0 <= i < |stored.value.grants| :: GrantOk(stored.value.grants[i]))
    then stored else None
  }

  /** The stored workspace, or none. */
  function Usable(stored: Option<State>): State {
    if ValidWorkspace(stored).Some? then stored.value else EMPTY
  }

  /** Every workspace the worker stores; distinct URLs are not part of it. */
  predicate WellFormed(w: State) {
    |w.grants| <= MAX_COLLABORATIONS && AllApart(w.grants) && SelectedIn(w) && (w.selected.None? <==> w.grants == []) &&
    forall i | 0 <= i < |w.grants| :: GrantOk(w.grants[i])
  }

  // ----- checking the grants against the live tabs

  /** One grant against what `tabs.get` returned: dropped, kept, or rotated to a unused id. */
  function CheckOne(g: Grant, tab: Option<Tab>, unused: GrantId): Option<Grant> {
    var target := TargetFromTab(tab);
    if target.None? || tab.value.window != g.window || target.value.origin != g.origin then None
    else if target.value == g.url then Some(g)
    else Some(g.(id := unused, url := target.value))
  }

  /** The first `k` grants checked in order, and the next unused id. */
  function CheckUpTo(grants: seq<Grant>, tabs: seq<Option<Tab>>, k: nat, unused: GrantId): (seq<Grant>, GrantId)
    requires k <= |grants| && k <= |tabs|
  {
    if k == 0 then ([], unused)
    else
      var (kept, next) := CheckUpTo(grants, tabs, k - 1, unused);
      var one := CheckOne(grants[k - 1], tabs[k - 1], next);
      if one.None? then (kept, next)
      else (kept + [one.value], if one.value == grants[k - 1] then next else next + 1)
  }

  function LastId(s: seq<Grant>): Option<GrantId> {
    if s == [] then None else Some(s[|s| - 1].id)
  }

  function Reselected(selected: Option<GrantId>, grants: seq<Grant>): State {
    State(if selected.Some? && HasId(grants, selected.value) then selected else LastId(grants), grants)
  }

  lemma ReselectedFormed(selected: Option<GrantId>, grants: seq<Grant>)
    requires |grants| <= MAX_COLLABORATIONS && AllApart(grants)
    requires forall i | 0 <= i < |grants| :: GrantOk(grants[i])
    ensures WellFormed(Reselected(selected, grants))
  {
    if grants != [] {
      assert grants[|grants| - 1].id == LastId(grants).value;
    }
  }

  /** A checked grant is the original one or, exactly when the URL changed, a rotation of it with a new id. */
  predicate FromOriginal(g: Grant, original: Grant, tab: Option<Tab>, unused: GrantId) {
    g.tab == original.tab && g.window == original.window && g.origin == original.origin &&
    (g == original || (g.url != original.url && unused <= g.id)) &&
    TargetFromTab(tab) == Some(g.url) && tab.value.window == g.window && GrantOk(g)
  }

  /** Each checked grant comes from one of the first `k`, and so is apart from anything they are all apart from. */
  lemma {:induction false} CheckMembers(grants: seq<Grant>, tabs: seq<Option<Tab>>, k: nat, unused: GrantId, i: nat)
    returns (j: nat)
    requires k <= |grants| && k <= |tabs| && i < |CheckUpTo(grants, tabs, k, unused).0|
    requires forall n | 0 <= n < |grants| :: grants[n].id < unused && GrantOk(grants[n])
    ensures j < k && FromOriginal(CheckUpTo(grants, tabs, k, unused).0[i], grants[j], tabs[j], unused)
    ensures CheckUpTo(grants, tabs, k, unused).0[i].id < CheckUpTo(grants, tabs, k, unused).1
    decreases k
  {
    CheckFresh(grants, tabs, k - 1, unused);
    var (kept, _) := CheckUpTo(grants, tabs, k - 1, unused);
    if i < |kept| {
      j := CheckMembers(grants, tabs, k - 1, unused, i);
    } else {
      j := k - 1;
    }
  }

  lemma {:induction false} CheckFresh(grants: seq<Grant>, tabs: seq<Option<Tab>>, k: nat, unused: GrantId)
    requires k <= |grants| && k <= |tabs|
    ensures unused <= CheckUpTo(grants, tabs, k, unused).1 && |CheckUpTo(grants, tabs, k, unused).0| <= k
    decreases k
  {
    if k > 0 {
      CheckFresh(grants, tabs, k - 1, unused);
    }
  }

  lemma {:induction false} CheckApart(grants: seq<Grant>, tabs: seq<Option<Tab>>, k: nat, unused: GrantId)
    requires k <= |grants| && k <= |tabs| && AllApart(grants)
    requires forall n | 0 <= n < |grants| :: grants[n].id < unused && GrantOk(grants[n])
    ensures AllApart(CheckUpTo(grants, tabs, k, unused).0)
    decreases k
  {
    if k > 0 {
      CheckApart(grants, tabs, k - 1, unused);
      CheckFresh(grants, tabs, k - 1, unused);
      var (kept, next) := CheckUpTo(grants, tabs, k - 1, unused);
      var one := CheckOne(grants[k - 1], tabs[k - 1], next);
      if one.Some? {
        forall i | 0 <= i < |kept|
          ensures Apart(kept[i], one.value)
        {
          var j := CheckMembers(grants, tabs, k - 1, unused, i);
          assert Apart(grants[j], grants[k - 1]);
        }
      }
    }
  }

  function Checked(original: State, tabs: seq<Option<Tab>>, unused: GrantId): State
    requires |tabs| == |original.grants|
  {
    Reselected(original.selected, CheckUpTo(original.grants, tabs, |tabs|, unused).0)
  }

  // ----- sharing and revoking

  function Keep(s: seq<Grant>, keep: Grant -> bool): seq<Grant> {
    if s == [] then []
    else
      var last := s[|s| - 1];
      Keep(s[..|s| - 1], keep) + if keep(last) then [last] else []
  }

  lemma {:induction false} KeepMembers(s: seq<Grant>, keep: Grant -> bool)
    ensures forall g :: g in Keep(s, keep) <==> g in s && keep(g)
    ensures |Keep(s, keep)| <= |s|
    decreases |s|
  {
    if s != [] {
      var front := s[..|s| - 1];
      KeepMembers(front, keep);
      assert s == front + [s[|s| - 1]];
    }
  }

  lemma {:induction false} KeepApart(s: seq<Grant>, keep: Grant -> bool)
    requires AllApart(s)
    ensures AllApart(Keep(s, keep))
    decreases |s|
  {
    if s != [] {
      var front, last := s[..|s| - 1], s[|s| - 1];
      KeepApart(front, keep);
      KeepMembers(front, keep);
      forall i | 0 <= i < |Keep(front, keep)|
        ensures Apart(Keep(front, keep)[i], last)
      {
        assert Keep(front, keep)[i] in Keep(front, keep);
        assert Keep(front, keep)[i] in front;
      }
    }
  }

  /**
   * Sharing a tab that has no grant for its URL: its other grants and those of the URL go, then the oldest if needed.
   */
  function Shared(w: State, tab: TabId, window: WindowId, url: Url, unused: GrantId): State {
    var others := Keep(w.grants, (g: Grant) => g.tab != tab && g.url != url);
    var room := if |others| >= MAX_COLLABORATIONS then others[1..] else others;
    State(Some(unused), room + [Grant(unused, tab, window, url, url.origin)])
  }

  lemma SharedFormed(w: State, tab: TabId, window: WindowId, url: Url, unused: GrantId)
    requires WellFormed(w) && SafeUrl(url) && forall i | 0 <= i < |w.grants| :: w.grants[i].id < unused
    ensures WellFormed(Shared(w, tab, window, url, unused))
    ensures forall g | g in Shared(w, tab, window, url, unused).grants :: g in w.grants || g.id == unused
  {
    var keep := (g: Grant) => g.tab != tab && g.url != url;
    var others := Keep(w.grants, keep);
    KeepMembers(w.grants, keep);
    KeepApart(w.grants, keep);
    var room := if |others| >= MAX_COLLABORATIONS then others[1..] else others;
    forall i | 0 <= i < |room|
      ensures room[i].id < unused && room[i].tab != tab && GrantOk(room[i]) && room[i] in w.grants
    {
      assert room[i] in others;
    }
    OneMoreGrant(room, Grant(unused, tab, window, url, url.origin));
  }

  lemma OneMoreGrant(room: seq<Grant>, g: Grant)
    requires |room| < MAX_COLLABORATIONS && AllApart(room) && GrantOk(g)
    requires forall i | 0 <= i < |room| :: GrantOk(room[i]) && Apart(room[i], g)
    ensures WellFormed(State(Some(g.id), room + [g]))
  {
    assert (room + [g])[|room|] == g;
  }

  /** Nothing the new grant touches, and sixteen grants already. */
  predicate Evicts(w: State, tab: TabId, url: Url) {
    |w.grants| == MAX_COLLABORATIONS && forall g | g in w.grants :: g.tab != tab && g.url != url
  }

  /** A grant survives a share of another tab and URL, unless it is the oldest of a full workspace. */
  lemma SharedKeeps(w: State, tab: TabId, window: WindowId, url: Url, unused: GrantId, g: Grant)
    requires WellFormed(w) && AllBelow(w, unused) && g in w.grants
    ensures g in Shared(w, tab, window, url, unused).grants <==>
            g.tab != tab && g.url != url && !(Evicts(w, tab, url) && g == w.grants[0])
  {
    var keep := (h: Grant) => h.tab != tab && h.url != url;
    var others := Keep(w.grants, keep);
    KeepMembers(w.grants, keep);
    if |others| == MAX_COLLABORATIONS {
      KeepAll(w.grants, keep);
      forall i | 0 < i < |others|
        ensures others[i] != others[0]
      {
        assert Apart(others[0], others[i]);
      }
    }
    assert g in others <==> g.tab != tab && g.url != url;
    assert Evicts(w, tab, url) ==> |others| == MAX_COLLABORATIONS by {
      if Evicts(w, tab, url) {
        KeepsEverything(w.grants, keep);
      }
    }
  }

  lemma {:induction false} KeepAll(s: seq<Grant>, keep: Grant -> bool)
    requires |Keep(s, keep)| == |s|
    ensures Keep(s, keep) == s && forall g | g in s :: keep(g)
    decreases |s|
  {
    if s != [] {
      var front := s[..|s| - 1];
      KeepMembers(front, keep);
      KeepAll(front, keep);
      assert s == front + [s[|s| - 1]];
    }
  }

  lemma {:induction false} KeepsEverything(s: seq<Grant>, keep: Grant -> bool)
    requires forall g | g in s :: keep(g)
    ensures Keep(s, keep) == s
    decreases |s|
  {
    if s != [] {
      KeepsEverything(s[..|s| - 1], keep);
      assert s == s[..|s| - 1] + [s[|s| - 1]];
    }
  }

  lemma {:induction false} KeepOrder(s: seq<Grant>, keep: Grant -> bool)
    ensures Subseq(Keep(s, keep), s)
    decreases |s|
  {
    if s != [] {
      var front, last := s[..|s| - 1], s[|s| - 1];
      KeepOrder(front, keep);
      assert s == front + [last];
      if keep(last) {
        SubseqOne(last);
        SubseqConcat(Keep(front, keep), front, [last], [last]);
      } else {
        SubseqWiden(Keep(front, keep), front, [last]);
        assert Keep(s, keep) == Keep(front, keep);
      }
    }
  }

  /** The new grant comes last and is selected; the survivors keep their order. */
  lemma SharedOrder(w: State, tab: TabId, window: WindowId, url: Url, unused: GrantId)
    ensures var t := Shared(w, tab, window, url, unused);
            t.grants != [] && t.grants[|t.grants| - 1] == Grant(unused, tab, window, url, url.origin) &&
            t.selected == Some(unused) && Subseq(t.grants[..|t.grants| - 1], w.grants)
  {
    var keep := (g: Grant) => g.tab != tab && g.url != url;
    var others := Keep(w.grants, keep);
    KeepOrder(w.grants, keep);
    if |others| >= MAX_COLLABORATIONS {
      SubseqTail(others, w.grants);
    }
    var room := if |others| >= MAX_COLLABORATIONS then others[1..] else others;
    var t := Shared(w, tab, window, url, unused);
    assert t.grants[..|t.grants| - 1] == room;
  }

  lemma {:induction false} SubseqTail(a: seq<Grant>, b: seq<Grant>)
    requires a != [] && Subseq(a, b)
    ensures Subseq(a[1..], b)
    decreases |b|
  {
    if !(a[0] == b[0] && Subseq(a[1..], b[1..])) {
      SubseqTail(a, b[1..]);
    }
  }

  /** With distinct URLs before, sharing a tab leaves distinct URLs, so the next check accepts the workspace. */
  lemma SharedDistinctUrls(w: State, tab: TabId, window: WindowId, url: Url, unused: GrantId)
    requires DistinctUrls(w.grants)
    ensures DistinctUrls(Shared(w, tab, window, url, unused).grants)
  {
    var keep := (g: Grant) => g.tab != tab && g.url != url;
    KeepMembers(w.grants, keep);
    KeepUrls(w.grants, keep);
    var others := Keep(w.grants, keep);
    forall i | 0 <= i < |others|
      ensures others[i].url != url
    {
      assert others[i] in others;
    }
  }

  lemma {:induction false} KeepUrls(s: seq<Grant>, keep: Grant -> bool)
    requires DistinctUrls(s)
    ensures DistinctUrls(Keep(s, keep))
    decreases |s|
  {
    if s != [] {
      var front, last := s[..|s| - 1], s[|s| - 1];
      KeepUrls(front, keep);
      KeepMembers(front, keep);
      forall i | 0 <= i < |Keep(front, keep)|
        ensures Keep(front, keep)[i].url != last.url
      {
        assert Keep(front, keep)[i] in Keep(front, keep);
        assert Keep(front, keep)[i] in front;
      }
    }
  }

  /** `collaborationId || selected`, or everything. */
  predicate Revokes(w: State, id: Option<GrantId>, all: bool, g: Grant) {
    all || Some(g.id) == if id.Some? then id else w.selected
  }

  function Revoked(w: State, id: Option<GrantId>, all: bool): State {
    var rest := Keep(w.grants, (g: Grant) => !Revokes(w, id, all, g));
    Reselected(w.selected, rest)
  }

  lemma RevokedFormed(w: State, id: Option<GrantId>, all: bool)
    requires WellFormed(w)
    ensures WellFormed(Revoked(w, id, all))
    ensures forall g :: g in Revoked(w, id, all).grants <==> g in w.grants && !Revokes(w, id, all, g)
  {
    var keep := (g: Grant) => !Revokes(w, id, all, g);
    KeepMembers(w.grants, keep);
    KeepApart(w.grants, keep);
    forall i | 0 <= i < |Keep(w.grants, keep)|
      ensures GrantOk(Keep(w.grants, keep)[i])
    {
      assert Keep(w.grants, keep)[i] in w.grants;
    }
    ReselectedFormed(w.selected, Keep(w.grants, keep));
  }

  /** Revoking changes the workspace's grants exactly if one of them is revoked. */
  lemma RevokedSome(w: State, id: Option<GrantId>, all: bool)
    ensures Revoked(w, id, all).grants != w.grants <==> exists g :: g in w.grants && Revokes(w, id, all, g)
  {
    var keep := (g: Grant) => !Revokes(w, id, all, g);
    if Keep(w.grants, keep) == w.grants {
      KeepAll(w.grants, keep);
      assert forall g | g in w.grants :: keep(g);
    } else if forall g | g in w.grants :: keep(g) {
      KeepsEverything(w.grants, keep);
    }
  }

  // ----- the whole history

  ghost predicate Live(w: State, id: GrantId) {
    HasId(w.grants, id)
  }

  /** One id never names two different grants. */
  ghost predicate NamesOneGrant(history: seq<State>) {
    forall i, k, g, h | 0 <= i < |history| && 0 <= k < |history| && g in history[i].grants && h in history[k].grants &&
                        g.id == h.id :: g == h
  }

  /** An id that has left the workspace does not come back. */
  ghost predicate NeverReturns(history: seq<State>) {
    forall i, k, m, id | 0 <= i < k < m < |history| && Live(history[i], id) && Live(history[m], id) ::
      Live(history[k], id)
  }

  ghost predicate AllBelow(w: State, unused: GrantId) {
    forall g | g in w.grants :: g.id < unused
  }

  /** Every stored workspace is well formed, ids name one grant each, and none comes back. */
  ghost predicate Lawful(history: seq<State>, unused: GrantId) {
    (forall i | 0 <= i < |history| :: WellFormed(history[i]) && AllBelow(history[i], unused)) &&
    NamesOneGrant(history) && NeverReturns(history)
  }

  ghost function Latest(history: seq<State>): State {
    if history == [] then EMPTY else history[|history| - 1]
  }

  /** A workspace made from the latest one: old grants unchanged, or ids never used before. */
  ghost predicate Follows(w: State, latest: State, unused: GrantId, next: GrantId) {
    WellFormed(w) && unused <= next && forall g | g in w.grants :: g in latest.grants || unused <= g.id < next
  }

  lemma LawfulSnoc(history: seq<State>, w: State, unused: GrantId, next: GrantId)
    requires Lawful(history, unused) && Follows(w, Latest(history), unused, next)
    ensures Lawful(history + [w], next)
  {
    var longer := history + [w];
    var n := |history|;
    forall i | 0 <= i < |longer|
      ensures WellFormed(longer[i]) && AllBelow(longer[i], next)
    {
      if i < n {
        assert AllBelow(history[i], unused);
      } else if n > 0 {
        assert AllBelow(history[n - 1], unused);
      }
    }
    NamesSnoc(history, w, unused, next);
    forall i, k, m, id | 0 <= i < k < m < |longer| && Live(longer[i], id) && Live(longer[m], id)
      ensures Live(longer[k], id)
    {
      ReturnsSnoc(history, w, unused, next, i, k, m, id);
    }
  }

  lemma NamesSnoc(history: seq<State>, w: State, unused: GrantId, next: GrantId)
    requires Lawful(history, unused) && Follows(w, Latest(history), unused, next)
    ensures NamesOneGrant(history + [w])
  {
    var longer := history + [w];
    var n := |history|;
    forall i, k, g, h | 0 <= i < |longer| && 0 <= k < |longer| && g in longer[i].grants && h in longer[k].grants &&
                        g.id == h.id
      ensures g == h
    {
      if i == n && k == n {
        SameIdSameGrant(w, g, h);
      } else if i < n && k == n {
        OldIdOldGrant(history, w, unused, next, i, g, h);
      } else if i == n && k < n {
        OldIdOldGrant(history, w, unused, next, k, h, g);
      }
    }
  }

  lemma SameIdSameGrant(w: State, g: Grant, h: Grant)
    requires AllApart(w.grants) && g in w.grants && h in w.grants && g.id == h.id
    ensures g == h
  {
    var i :| 0 <= i < |w.grants| && w.grants[i] == g;
    var k :| 0 <= k < |w.grants| && w.grants[k] == h;
    var lo, hi := Min(i, k), Max(i, k);
    var a, b := w.grants[lo], w.grants[hi];
    assert lo < hi ==> Apart(a, b);
  }

  lemma OldIdOldGrant(history: seq<State>, w: State, unused: GrantId, next: GrantId, i: nat, g: Grant, h: Grant)
    requires Lawful(history, unused) && Follows(w, Latest(history), unused, next)
    requires i < |history| && g in history[i].grants && h in w.grants && g.id == h.id
    ensures g == h && h in Latest(history).grants
  {
    assert AllBelow(history[i], unused);
    assert h in Latest(history).grants;
    assert Latest(history) == history[|history| - 1];
  }

  lemma StillLatest(history: seq<State>, w: State, unused: GrantId, next: GrantId, i: nat, id: GrantId)
    requires Lawful(history, unused) && Follows(w, Latest(history), unused, next)
    requires i < |history| && Live(history[i], id) && Live(w, id)
    ensures Live(history[|history| - 1], id)
  {
    var a :| 0 <= a < |history[i].grants| && history[i].grants[a].id == id;
    var b :| 0 <= b < |w.grants| && w.grants[b].id == id;
    OldIdOldGrant(history, w, unused, next, i, history[i].grants[a], w.grants[b]);
    var last := history[|history| - 1];
    var d :| 0 <= d < |last.grants| && last.grants[d] == w.grants[b];
  }

  lemma ReturnsSnoc(
      history: seq<State>, w: State, unused: GrantId, next: GrantId, i: nat, k: nat, m: nat, id: GrantId)
    requires Lawful(history, unused) && Follows(w, Latest(history), unused, next)
    requires i < k < m <= |history|
    requires Live((history + [w])[i], id) && Live((history + [w])[m], id)
    ensures Live((history + [w])[k], id)
  {
    var last := |history| - 1;
    assert Live(history[i], id);
    if m == |history| {
      StillLatest(history, w, unused, next, i, id);
      assert k < last ==> Live(history[k], id);
    } else {
      assert Live(history[m], id);
      assert Live(history[k], id);
    }
  }

  // ----- the worker

  datatype ShareResult = Connected | MissingTab | UnsupportedTab | GrantRequired

  /** The clicked tab as it is shared: what Chrome said when asked again, if it was and answered. */
  function Reread(clicked: Tab, again: Option<Tab>): Tab {
    if TargetFromTab(Some(clicked)).None? && again.Some? then again.value else clicked
  }

  function Answer(tab: Tab): ShareResult {
    if TargetFromTab(Some(tab)).Some? then Connected
    else if tab.url.Some? then UnsupportedTab
    else GrantRequired
  }

  /** A user or program request; the tab a click carries is what Chrome handed to the listener. */
  datatype Request =
    | Check
    | Share(clicked: Option<Tab>)
    | Revoke(id: Option<GrantId>, all: bool)
    | Match(target: GrantId, url: Url, origin: string)

  /** The loop over the grants, with what Chrome answers for each of their tabs. */
  method CheckTabs(grants: seq<Grant>, unused: GrantId)
    returns (kept: seq<Grant>, next: GrantId, tabs: seq<Option<Tab>>)
    ensures |tabs| == |grants| && (kept, next) == CheckUpTo(grants, tabs, |grants|, unused)
  {
    kept, next, tabs := [], unused, [];
    var i := 0;
    while i < |grants|
      invariant i <= |grants| && |tabs| == i
      invariant (kept, next) == CheckUpTo(grants, tabs, i, unused)
    {
      var tab: Option<Tab> :| true;
      var one := CheckOne(grants[i], tab, next);
      CheckPrefix(grants, tabs, tab, i, unused);
      if one.Some? {
        kept := kept + [one.value];
        next := if one.value == grants[i] then next else next + 1;
      }
      tabs := tabs + [tab];
      i := i + 1;
    }
  }

  predicate IsShared(g: Grant, tab: TabId, url: Url) {
    g.tab == tab && g.url == url
  }

  method FindShared(grants: seq<Grant>, tab: TabId, url: Url) returns (r: Option<Grant>)
    ensures r.Some? ==> r.value in grants && IsShared(r.value, tab, url)
    ensures r.None? ==> forall g | g in grants :: !IsShared(g, tab, url)
  {
    var i := 0;
    while i < |grants|
      invariant i <= |grants|
      invariant forall k | 0 <= k < i :: !IsShared(grants[k], tab, url)
    {
      if grants[i].tab == tab && grants[i].url == url {
        return Some(grants[i]);
      }
      i := i + 1;
    }
    return None;
  }

  method FindId(grants: seq<Grant>, id: GrantId) returns (r: Option<Grant>)
    ensures r.Some? ==> r.value in grants && r.value.id == id
    ensures r.None? ==> forall g | g in grants :: g.id != id
  {
    var i := 0;
    while i < |grants|
      invariant i <= |grants|
      invariant forall k | 0 <= k < i :: grants[k].id != id
    {
      if grants[i].id == id {
        return Some(grants[i]);
      }
      i := i + 1;
    }
    return None;
  }

  /** The checked workspace with an existing grant selected, or with a new one for the shared tab. */
  ghost predicate ShareOf(next: State, w: State, tab: TabId, window: WindowId, url: Url, unused: GrantId, g: Grant) {
    g in next.grants && next.selected == Some(g.id) && IsShared(g, tab, url) &&
    if g in w.grants then next.grants == w.grants
    else (forall h | h in w.grants :: !IsShared(h, tab, url)) && next == Shared(w, tab, window, url, unused)
  }

  class WorkspaceStore {
    var stored: Option<State>
    var unused: GrantId
    ghost var history: seq<State>

    constructor ()
      ensures Valid() && stored.None? && history == []
    {
      stored, unused, history := None, 0, [];
    }

    ghost predicate Valid()
      reads this
    {
      Lawful(history, unused) && stored == if history == [] then None else Some(Latest(history))
    }

    method Persist(w: State)
      modifies this`stored, this`history
      ensures stored == Some(w) && history == old(history) + [w]
    {
      stored := Some(w);
      history := history + [w];
    }

    /**
     * Reads the stored workspace, asks Chrome for each tab, and stores the outcome if it differs. What it returns is
     * `Checked` of the valid stored workspace, or of the empty one, under the answers it got.
     */
    method CheckedWorkspaceUnlocked() returns (checked: State, tabs: seq<Option<Tab>>)
      requires Valid()
      modifies this
      ensures Valid() && stored == Some(checked) && history != [] && WellFormed(checked)
      ensures |tabs| == |Usable(old(stored)).grants| && checked == Checked(Usable(old(stored)), tabs, old(unused))
      ensures history == old(history) || history == old(history) + [checked]
      ensures WellFormed(Usable(old(stored))) && AllBelow(Usable(old(stored)), old(unused)) && old(unused) <= unused
      ensures unused == CheckUpTo(Usable(old(stored)).grants, tabs, |tabs|, old(unused)).1
    {
      var valid := ValidWorkspace(stored);
      var workspace := if valid.Some? then valid.value else EMPTY;
      var kept, next;
      kept, next, tabs := CheckTabs(workspace.grants, unused);
      checked := Reselected(workspace.selected, kept);
      CheckedLawful(history, workspace, tabs, unused);
      if valid.None? || checked != workspace {
        Persist(checked);
      }
      unused := next;
    }

    /** Shares the clicked tab, asking Chrome again when the click carries no usable URL. */
    method StartCollaboration(clicked: Option<Tab>)
        returns (r: ShareResult, ghost again: Option<Tab>, ghost checked: State, ghost tabs: seq<Option<Tab>>)
      requires Valid()
      modifies this
      ensures Valid() && old(history) <= history
      ensures r != Connected ==> stored == old(stored) && history == old(history)
      ensures r == if clicked.None? then MissingTab else Answer(Reread(clicked.value, again))
      ensures again.Some? ==> clicked.Some? && again.value.id == clicked.value.id
      ensures r == Connected ==>
                |tabs| == |Usable(old(stored)).grants| && checked == Checked(Usable(old(stored)), tabs, old(unused)) &&
                stored.Some? && SharesTab(stored.value, checked, Reread(clicked.value, again))
    {
      again, checked, tabs := None, EMPTY, [];
      if clicked.None? {
        r := MissingTab;
        return;
      }
      var exact := clicked.value;
      if TargetFromTab(clicked).None? {
        var found: Option<Tab> :| found.Some? ==> found.value.id == exact.id;
        again := found;
        exact := if found.Some? then found.value else exact;
      }
      var target := TargetFromTab(Some(exact));
      if target.None? {
        r := if exact.url.Some? then UnsupportedTab else GrantRequired;
        return;
      }
      r := Connected;
      ghost var g;
      checked, g, tabs := ShareTarget(exact.id, exact.window, target.value);
    }

    method ShareTarget(tab: TabId, window: WindowId, url: Url)
        returns (ghost checked: State, ghost g: Grant, ghost tabs: seq<Option<Tab>>)
      requires Valid() && SafeUrl(url)
      modifies this
      ensures Valid() && old(history) <= history && WellFormed(checked)
      ensures |tabs| == |Usable(old(stored)).grants| && checked == Checked(Usable(old(stored)), tabs, old(unused))
      ensures stored.Some? && ShareOf(stored.value, checked, tab, window, url, g.id, g)
    {
      var workspace, answers := CheckedWorkspaceUnlocked();
      checked, tabs := workspace, answers;
      g := ShareInto(workspace, tab, window, url);
    }

    method ShareInto(checked: State, tab: TabId, window: WindowId, url: Url) returns (g: Grant)
      requires Valid() && SafeUrl(url) && history != [] && stored == Some(checked)
      modifies this
      ensures Valid() && stored.Some? && ShareOf(stored.value, checked, tab, window, url, g.id, g)
      ensures old(history) <= history
    {
      var existing := FindShared(checked.grants, tab, url);
      if existing.Some? {
        g := existing.value;
        SelectKeeps(history, checked, tab, window, url, unused, g);
        Persist(checked.(selected := Some(g.id)));
      } else {
        g := Grant(unused, tab, window, url, url.origin);
        ShareKeeps(history, checked, tab, window, url, unused);
        Persist(Shared(checked, tab, window, url, unused));
        unused := unused + 1;
      }
    }

    /** Removes the named or the selected grant, or all of them, from the checked workspace. */
    method RevokeCollaboration(id: Option<GrantId>, all: bool)
      returns (removed: bool, ghost checked: State, ghost tabs: seq<Option<Tab>>)
      requires Valid()
      modifies this
      ensures Valid() && old(history) <= history
      ensures |tabs| == |Usable(old(stored)).grants| && checked == Checked(Usable(old(stored)), tabs, old(unused))
      ensures stored == Some(Revoked(checked, id, all))
      ensures removed <==> exists g :: g in checked.grants && Revokes(checked, id, all, g)
      ensures id.Some? ==> !HasId(stored.value.grants, id.value)
      ensures all ==> stored == Some(EMPTY)
    {
      var workspace, answers := CheckedWorkspaceUnlocked();
      checked, tabs := workspace, answers;
      removed := Discard(workspace, id, all);
    }

    method Discard(checked: State, id: Option<GrantId>, all: bool) returns (removed: bool)
      requires Valid() && stored == Some(checked) && history != []
      modifies this`stored, this`history
      ensures Valid() && old(history) <= history && stored == Some(Revoked(checked, id, all))
      ensures removed <==> exists g :: g in checked.grants && Revokes(checked, id, all, g)
      ensures id.Some? ==> !HasId(stored.value.grants, id.value)
      ensures all ==> stored == Some(EMPTY)
    {
      var next := Revoked(checked, id, all);
      removed := next.grants != checked.grants;
      RevokedSome(checked, id, all);
      RevokeKeeps(history, checked, id, all, unused);
      Persist(next);
    }

    /** A program is matched only to a grant whose own tab has just shown exactly the program's URL. */
    method CollaborationForProgram(target: GrantId, url: Url, origin: string)
      returns (r: Option<Grant>, tabs: seq<Option<Tab>>)
      requires Valid()
      modifies this
      ensures Valid() && stored.Some?
      ensures r.Some? ==>
                r.value in stored.value.grants && r.value.id == target && r.value.url == url &&
                r.value.origin == origin && exists j :: ShowsGrant(old(stored), tabs, j, r.value)
      ensures r.None? ==> forall g | g in stored.value.grants :: g.id != target || g.url != url || g.origin != origin
      ensures old(history) <= history
    {
      var workspace: State;
      ghost var original, before := Usable(stored), unused;
      workspace, tabs := CheckedWorkspaceUnlocked();
      r := FindId(workspace.grants, target);
      if r.Some? {
        OneOfId(workspace, r.value);
        ShownGrant(original, tabs, before, r.value);
        if !Matches(r.value, target, url, origin) {
          r := None;
        }
      }
    }

    /** Any sequence of requests, whatever Chrome answers, leaves a lawful history. */
    method Serve(requests: seq<Request>)
      requires Valid()
      modifies this
      ensures Valid() && Lawful(history, unused) && old(history) <= history
    {
      var i := 0;
      while i < |requests|
        invariant Valid() && old(history) <= history
      {
        match requests[i] {
          case Check =>
            var _, _ := CheckedWorkspaceUnlocked();
          case Share(clicked) =>
            var _, _, _, _ := StartCollaboration(clicked);
          case Revoke(id, all) =>
            var _, _, _ := RevokeCollaboration(id, all);
          case Match(target, url, origin) =>
            var _, _ := CollaborationForProgram(target, url, origin);
        }
        i := i + 1;
      }
    }
  }

  predicate Matches(g: Grant, target: GrantId, url: Url, origin: string) {
    g.id == target && g.url == url && g.origin == origin
  }

  /** The tab's URL is shared: one of the grants for it is selected, made anew unless the checked workspace had it. */
  ghost predicate SharesTab(w: State, checked: State, tab: Tab) {
    TargetFromTab(Some(tab)).Some? &&
    exists g: Grant :: ShareOf(w, checked, tab.id, tab.window, TargetFromTab(Some(tab)).value, g.id, g)
  }

  /** The `j`-th answer is about the grant's own tab and window and shows exactly its URL. */
  ghost predicate ShowsGrant(stored: Option<State>, tabs: seq<Option<Tab>>, j: nat, g: Grant) {
    stored.Some? && j < |stored.value.grants| && j < |tabs| && stored.value.grants[j].tab == g.tab &&
    tabs[j].Some? && tabs[j].value.window == g.window && tabs[j].value.url == Some(g.url)
  }

  lemma ShownGrant(original: State, tabs: seq<Option<Tab>>, unused: GrantId, g: Grant)
    requires WellFormed(original) && AllBelow(original, unused) && |tabs| == |original.grants|
    requires g in Checked(original, tabs, unused).grants
    ensures exists j :: ShowsGrant(Some(original), tabs, j, g)
    ensures original.grants != []
  {
    AllBelowAt(original, unused);
    var kept := CheckUpTo(original.grants, tabs, |tabs|, unused).0;
    var i :| 0 <= i < |kept| && kept[i] == g;
    var j := CheckMembers(original.grants, tabs, |tabs|, unused, i);
    assert ShowsGrant(Some(original), tabs, j, g);
  }

  lemma {:induction false} CheckPrefix(grants: seq<Grant>, tabs: seq<Option<Tab>>, tab: Option<Tab>, k: nat,
      unused: GrantId)
    requires k <= |grants| && k <= |tabs|
    ensures CheckUpTo(grants, tabs + [tab], k, unused) == CheckUpTo(grants, tabs, k, unused)
    decreases k
  {
    if k > 0 {
      CheckPrefix(grants, tabs, tab, k - 1, unused);
    }
  }

  lemma CheckedFollows(original: State, tabs: seq<Option<Tab>>, unused: GrantId, latest: State)
    requires WellFormed(original) && AllBelow(original, unused) && |tabs| == |original.grants|
    requires original == latest || original == EMPTY
    ensures Follows(Checked(original, tabs, unused), latest, unused,
                    CheckUpTo(original.grants, tabs, |tabs|, unused).1)
  {
    var (kept, next) := CheckUpTo(original.grants, tabs, |tabs|, unused);
    AllBelowAt(original, unused);
    CheckApart(original.grants, tabs, |tabs|, unused);
    CheckFresh(original.grants, tabs, |tabs|, unused);
    forall i | 0 <= i < |kept|
      ensures GrantOk(kept[i]) && (kept[i] in original.grants || unused <= kept[i].id < next)
    {
      var j := CheckMembers(original.grants, tabs, |tabs|, unused, i);
      assert original.grants[j] in original.grants;
    }
    ReselectedFormed(original.selected, kept);
  }

  lemma AllBelowAt(w: State, unused: GrantId)
    requires AllBelow(w, unused)
    ensures forall i | 0 <= i < |w.grants| :: w.grants[i].id < unused
  {
    forall i | 0 <= i < |w.grants|
      ensures w.grants[i].id < unused
    {
      assert w.grants[i] in w.grants;
    }
  }

  /** Storing the checked workspace, or leaving an equal one stored, keeps the history lawful. */
  lemma CheckedLawful(history: seq<State>, original: State, tabs: seq<Option<Tab>>, unused: GrantId)
    requires Lawful(history, unused) && |tabs| == |original.grants|
    requires original == EMPTY || (history != [] && original == Latest(history))
    ensures var next := CheckUpTo(original.grants, tabs, |tabs|, unused).1;
            var checked := Checked(original, tabs, unused);
            Lawful(history + [checked], next) && Lawful(history, next) && unused <= next && WellFormed(checked) &&
            AllBelow(checked, next) && WellFormed(original) && AllBelow(original, unused)
  {
    var next := CheckUpTo(original.grants, tabs, |tabs|, unused).1;
    var checked := Checked(original, tabs, unused);
    assert WellFormed(original) && AllBelow(original, unused) by {
      if history != [] {
        assert WellFormed(history[|history| - 1]) && AllBelow(history[|history| - 1], unused);
      }
    }
    CheckedFollows(original, tabs, unused, Latest(history));
    LawfulSnoc(history, checked, unused, next);
    assert (history + [checked])[|history|] == checked;
    LawfulLater(history, unused, next);
  }

  lemma SelectKeeps(
      history: seq<State>, w: State, tab: TabId, window: WindowId, url: Url, unused: GrantId, g: Grant)
    requires Lawful(history, unused) && history != [] && w == Latest(history) && g in w.grants && IsShared(g, tab, url)
    ensures Lawful(history + [w.(selected := Some(g.id))], unused)
    ensures ShareOf(w.(selected := Some(g.id)), w, tab, window, url, g.id, g)
  {
    assert WellFormed(history[|history| - 1]);
    var i :| 0 <= i < |w.grants| && w.grants[i] == g;
    LawfulSnoc(history, w.(selected := Some(g.id)), unused, unused);
  }

  lemma ShareKeeps(history: seq<State>, w: State, tab: TabId, window: WindowId, url: Url, unused: GrantId)
    requires Lawful(history, unused) && history != [] && w == Latest(history) && SafeUrl(url)
    requires forall h | h in w.grants :: !IsShared(h, tab, url)
    ensures var next := Shared(w, tab, window, url, unused);
            Lawful(history + [next], unused + 1) &&
            ShareOf(next, w, tab, window, url, unused, Grant(unused, tab, window, url, url.origin))
  {
    assert WellFormed(history[|history| - 1]) && AllBelow(history[|history| - 1], unused);
    AllBelowAt(w, unused);
    SharedFormed(w, tab, window, url, unused);
    var next := Shared(w, tab, window, url, unused);
    assert next.grants[|next.grants| - 1] == Grant(unused, tab, window, url, url.origin);
    LawfulSnoc(history, next, unused, unused + 1);
  }

  lemma RevokeKeeps(history: seq<State>, w: State, id: Option<GrantId>, all: bool, unused: GrantId)
    requires Lawful(history, unused) && history != [] && w == Latest(history)
    ensures Lawful(history + [Revoked(w, id, all)], unused)
    ensures id.Some? ==> !HasId(Revoked(w, id, all).grants, id.value)
    ensures all ==> Revoked(w, id, all) == EMPTY
  {
    assert WellFormed(history[|history| - 1]);
    RevokedFormed(w, id, all);
    RevokedGone(w, id, all);
    LawfulSnoc(history, Revoked(w, id, all), unused, unused);
  }

  lemma LawfulLater(history: seq<State>, unused: GrantId, next: GrantId)
    requires Lawful(history, unused) && unused <= next
    ensures Lawful(history, next)
  {
    forall i | 0 <= i < |history|
      ensures AllBelow(history[i], next)
    {
      assert AllBelow(history[i], unused);
    }
  }

  lemma RevokedGone(w: State, id: Option<GrantId>, all: bool)
    requires WellFormed(w)
    ensures id.Some? ==> !HasId(Revoked(w, id, all).grants, id.value)
    ensures all ==> Revoked(w, id, all) == EMPTY
  {
    RevokedFormed(w, id, all);
    var next := Revoked(w, id, all);
    forall i | 0 <= i < |next.grants|
      ensures !all && (id.Some? ==> next.grants[i].id != id.value)
    {
      assert next.grants[i] in next.grants;
    }
  }

  lemma OneOfId(w: State, g: Grant)
    requires AllApart(w.grants) && g in w.grants
    ensures forall h | h in w.grants && h.id == g.id :: h == g
  {
    forall h | h in w.grants && h.id == g.id
      ensures h == g
    {
      SameIdSameGrant(w, g, h);
    }
  }

  // ----- what a check and a revocation leave

  /** Stored data counts as a workspace exactly if it is one of at most 16 safe grants that differ in everything. */
  lemma ValidWorkspaceIff(w: State)
    ensures ValidWorkspace(Some(w)).Some? <==>
            |w.grants| <= 16 &&
            (forall g | g in w.grants :: SafeUrl(g.url) && g.url.origin == g.origin) &&
            (forall i, k | 0 <= i < |w.grants| && 0 <= k < |w.grants| && i != k ::
               w.grants[i].id != w.grants[k].id && w.grants[i].tab != w.grants[k].tab &&
               w.grants[i].url != w.grants[k].url) &&
            (w.selected.Some? ==> exists g | g in w.grants :: g.id == w.selected.value)
  {
    SelectionKept(w.selected, w.grants);
    if ValidWorkspace(Some(w)).Some? {
      forall i, k | 0 <= i < |w.grants| && 0 <= k < |w.grants| && i != k
        ensures w.grants[i].id != w.grants[k].id && w.grants[i].tab != w.grants[k].tab &&
                w.grants[i].url != w.grants[k].url
      {
        assert Apart(w.grants[Min(i, k)], w.grants[Max(i, k)]);
        assert w.grants[Min(i, k)].url != w.grants[Max(i, k)].url;
      }
    }
  }

  /** The answer to a share: which tabs can be connected, and what is said of the others. */
  lemma AnswerMeans(tab: Tab)
    ensures Answer(tab) == if ShowsSafe(tab) then Connected else if tab.url.Some? then UnsupportedTab else GrantRequired
    ensures Answer(tab) == Connected <==> TargetFromTab(Some(tab)) == tab.url && tab.url.Some?
  {
  }

  /** The tab still lives in the grant's window and shows a safe URL of its origin. */
  predicate Survives(g: Grant, tab: Option<Tab>) {
    tab.Some? && ShowsSafe(tab.value) && tab.value.window == g.window && tab.value.url.value.origin == g.origin
  }

  /** Chrome gave the URL; it is https, without credentials and at most 16384 characters long. */
  predicate ShowsSafe(tab: Tab) {
    tab.url.Some? && tab.url.value.scheme == "https" && !tab.url.value.credentials && |tab.url.value.raw| <= 16384
  }

  /** The tab still lives in the grant's window and shows exactly its URL. */
  predicate StillShows(g: Grant, tab: Option<Tab>) {
    tab.Some? && tab.value.url == Some(g.url) && tab.value.window == g.window
  }

  function Survivors(grants: seq<Grant>, tabs: seq<Option<Tab>>, k: nat): nat
    requires k <= |grants| && k <= |tabs|
  {
    if k == 0 then 0 else Survivors(grants, tabs, k - 1) + if Survives(grants[k - 1], tabs[k - 1]) then 1 else 0
  }

  /**
   * A check leaves one grant for each survivor, in order: the grant itself if its tab still shows its URL, and
   * otherwise one with another URL and another id for the same tab.
   */
  lemma {:induction false} CheckedSurvivor(
      grants: seq<Grant>, tabs: seq<Option<Tab>>, k: nat, unused: GrantId, i: nat)
    requires i < k <= |grants| && k <= |tabs| && Survives(grants[i], tabs[i])
    requires grants[i].id < unused
    ensures var kept, p := CheckUpTo(grants, tabs, k, unused).0, Survivors(grants, tabs, i);
            |kept| == Survivors(grants, tabs, k) && p < |kept| && kept[p].tab == grants[i].tab &&
            Some(kept[p].url) == tabs[i].value.url &&
            if StillShows(grants[i], tabs[i]) then kept[p] == grants[i] else kept[p].id >= unused
    decreases k
  {
    CheckedCount(grants, tabs, k, unused);
    CheckedCount(grants, tabs, k - 1, unused);
    if i == k - 1 {
      CheckFresh(grants, tabs, i, unused);
    } else {
      CheckedSurvivor(grants, tabs, k - 1, unused, i);
    }
  }

  lemma {:induction false} CheckedCount(grants: seq<Grant>, tabs: seq<Option<Tab>>, k: nat, unused: GrantId)
    requires k <= |grants| && k <= |tabs|
    ensures |CheckUpTo(grants, tabs, k, unused).0| == Survivors(grants, tabs, k)
    decreases k
  {
    if k > 0 {
      CheckedCount(grants, tabs, k - 1, unused);
    }
  }

  /** A check keeps the selection whenever that grant is still there, and otherwise selects the last one. */
  lemma CheckedSelection(w: State, tabs: seq<Option<Tab>>, unused: GrantId)
    requires |tabs| == |w.grants|
    ensures var t := Checked(w, tabs, unused);
            if exists g | g in t.grants :: Some(g.id) == w.selected then t.selected == w.selected
            else if t.grants == [] then t.selected == None
            else t.selected == Some(t.grants[|t.grants| - 1].id)
  {
    SelectionKept(w.selected, Checked(w, tabs, unused).grants);
  }

  lemma SelectionKept(selected: Option<GrantId>, grants: seq<Grant>)
    ensures selected.Some? && HasId(grants, selected.value) <==> exists g | g in grants :: Some(g.id) == selected
  {
    if selected.Some? && HasId(grants, selected.value) {
      var i :| 0 <= i < |grants| && grants[i].id == selected.value;
      assert grants[i] in grants;
    }
  }

  /** That is so exactly when the selected grant's tab still shows its URL. */
  lemma SelectionKeptIff(w: State, tabs: seq<Option<Tab>>, unused: GrantId, i: nat)
    requires WellFormed(w) && AllBelow(w, unused) && |tabs| == |w.grants|
    requires i < |w.grants| && w.selected == Some(w.grants[i].id)
    ensures Checked(w, tabs, unused).selected == w.selected <==> StillShows(w.grants[i], tabs[i])
  {
    var t := Checked(w, tabs, unused);
    AllBelowAt(w, unused);
    CheckedSelection(w, tabs, unused);
    if StillShows(w.grants[i], tabs[i]) {
      CheckedSurvivor(w.grants, tabs, |tabs|, unused, i);
      assert w.grants[i] in t.grants;
    } else if t.selected == w.selected {
      var p :| 0 <= p < |t.grants| && t.grants[p].id == w.grants[i].id;
      var j := CheckMembers(w.grants, tabs, |tabs|, unused, p);
    }
  }

  lemma {:induction false} NothingChanged(grants: seq<Grant>, tabs: seq<Option<Tab>>, k: nat, unused: GrantId)
    requires k <= |grants| && k <= |tabs|
    requires forall i | 0 <= i < k :: GrantOk(grants[i]) && StillShows(grants[i], tabs[i])
    ensures CheckUpTo(grants, tabs, k, unused) == (grants[..k], unused)
    decreases k
  {
    if k > 0 {
      NothingChanged(grants, tabs, k - 1, unused);
      TakeOneMore(grants, k - 1);
    }
  }

  /** A workspace whose tabs all still show its URLs is its own check: grants, order, ids and selection. */
  lemma CheckedIsItself(w: State, tabs: seq<Option<Tab>>, unused: GrantId)
    requires WellFormed(w) && |tabs| == |w.grants|
    requires forall i | 0 <= i < |tabs| :: StillShows(w.grants[i], tabs[i])
    ensures Checked(w, tabs, unused) == w
  {
    NothingChanged(w.grants, tabs, |tabs|, unused);
    assert w.grants[..|tabs|] == w.grants;
  }

  /**
   * A revocation removes everything, or the named grant, or without a name the selected one; it keeps the selection
   * whenever that grant is still there, and otherwise selects the last one.
   */
  lemma RevokedExactly(w: State, id: Option<GrantId>, all: bool)
    requires WellFormed(w)
    ensures var t := Revoked(w, id, all);
            (forall g :: g in t.grants <==>
               g in w.grants && !all && (if id.Some? then g.id != id.value else Some(g.id) != w.selected)) &&
            Subseq(t.grants, w.grants) &&
            if exists g | g in t.grants :: Some(g.id) == w.selected then t.selected == w.selected
            else if t.grants == [] then t.selected == None
            else t.selected == Some(t.grants[|t.grants| - 1].id)
  {
    RevokedFormed(w, id, all);
    KeepOrder(w.grants, (g: Grant) => !Revokes(w, id, all, g));
    SelectionKept(w.selected, Revoked(w, id, all).grants);
  }

  // ----- URLs need not stay distinct

  /** Only its URLs can make a stored workspace unusable. */
  lemma UsableIfDistinct(w: State)
    requires WellFormed(w)
    ensures Usable(Some(w)) == if DistinctUrls(w.grants) then w else EMPTY
  {
  }

  /** What the check leaves of the `i`-th grant. */
  function KeptAt(grants: seq<Grant>, tabs: seq<Option<Tab>>, i: nat, unused: GrantId): Option<Grant>
    requires i < |grants| && i < |tabs|
  {
    CheckOne(grants[i], tabs[i], CheckUpTo(grants, tabs, i, unused).1)
  }

  /** The `i`-th grant survives the check, and what is left of it is not removed afterwards. */
  predicate Stays(grants: seq<Grant>, tabs: seq<Option<Tab>>, i: nat, unused: GrantId, keep: Grant -> bool)
    requires i < |grants| && i < |tabs|
  {
    KeptAt(grants, tabs, i, unused).Some? && keep(KeptAt(grants, tabs, i, unused).value)
  }

  predicate StaysAt(grants: seq<Grant>, tabs: seq<Option<Tab>>, i: nat, unused: GrantId, keep: Grant -> bool, url: Url)
    requires i < |grants| && i < |tabs|
  {
    Stays(grants, tabs, i, unused, keep) && TargetFromTab(tabs[i]) == Some(url)
  }

  /** One of the first `k` grants stays, and its tab shows `url`. */
  ghost predicate Shown(
      grants: seq<Grant>, tabs: seq<Option<Tab>>, k: nat, unused: GrantId, keep: Grant -> bool, url: Url)
    requires k <= |grants| && k <= |tabs|
  {
    exists i | 0 <= i < k :: StaysAt(grants, tabs, i, unused, keep, url)
  }

  /** Two of the first `k` grants stay, and their tabs show the same URL. */
  ghost predicate Collide(grants: seq<Grant>, tabs: seq<Option<Tab>>, k: nat, unused: GrantId, keep: Grant -> bool)
    requires k <= |grants| && k <= |tabs|
  {
    exists i, url | 0 <= i < k :: StaysAt(grants, tabs, i, unused, keep, url) &&
                                  Shown(grants, tabs, i, unused, keep, url)
  }

  ghost predicate HasUrl(s: seq<Grant>, url: Url) {
    exists i | 0 <= i < |s| :: s[i].url == url
  }

  lemma HasUrlSnoc(s: seq<Grant>, g: Grant, url: Url)
    ensures HasUrl(s + [g], url) <==> HasUrl(s, url) || g.url == url
  {
    if HasUrl(s, url) {
      var i :| 0 <= i < |s| && s[i].url == url;
      assert (s + [g])[i].url == url;
    }
    if g.url == url {
      assert (s + [g])[|s|].url == url;
    }
  }

  lemma DistinctSnoc(s: seq<Grant>, g: Grant)
    ensures DistinctUrls(s + [g]) <==> DistinctUrls(s) && !HasUrl(s, g.url)
  {
    var longer := s + [g];
    if DistinctUrls(longer) {
      forall i | 0 <= i < |s|
        ensures s[i].url != g.url
      {
        assert longer[i].url != longer[|s|].url;
      }
      forall i, k | 0 <= i < k < |s|
        ensures s[i].url != s[k].url
      {
        assert longer[i].url != longer[k].url;
      }
    }
  }

  lemma KeepSnoc(s: seq<Grant>, g: Grant, keep: Grant -> bool)
    ensures Keep(s + [g], keep) == Keep(s, keep) + if keep(g) then [g] else []
  {
    assert (s + [g])[..|s|] == s;
  }

  /** What the check leaves of the `k`-th grant, if it stays. */
  function LeftOf(grants: seq<Grant>, tabs: seq<Option<Tab>>, k: nat, unused: GrantId, keep: Grant -> bool): seq<Grant>
    requires k < |grants| && k < |tabs|
  {
    if Stays(grants, tabs, k, unused, keep) then [KeptAt(grants, tabs, k, unused).value] else []
  }

  /** And of the first `k`. */
  function Left(grants: seq<Grant>, tabs: seq<Option<Tab>>, k: nat, unused: GrantId, keep: Grant -> bool): seq<Grant>
    requires k <= |grants| && k <= |tabs|
  {
    if k == 0 then [] else Left(grants, tabs, k - 1, unused, keep) + LeftOf(grants, tabs, k - 1, unused, keep)
  }

  ghost predicate LeftIs(grants: seq<Grant>, tabs: seq<Option<Tab>>, k: nat, unused: GrantId, keep: Grant -> bool)
    requires k <= |grants| && k <= |tabs|
  {
    Keep(CheckUpTo(grants, tabs, k, unused).0, keep) == Left(grants, tabs, k, unused, keep)
  }

  lemma LeftStep(grants: seq<Grant>, tabs: seq<Option<Tab>>, k: nat, unused: GrantId, keep: Grant -> bool)
    requires k < |grants| && k < |tabs| && LeftIs(grants, tabs, k, unused, keep)
    ensures LeftIs(grants, tabs, k + 1, unused, keep)
  {
    var one := KeptAt(grants, tabs, k, unused);
    if one.Some? {
      KeepSnoc(CheckUpTo(grants, tabs, k, unused).0, one.value, keep);
    }
  }

  lemma LeftIsKept(grants: seq<Grant>, tabs: seq<Option<Tab>>, k: nat, unused: GrantId, keep: Grant -> bool)
    requires k <= |grants| && k <= |tabs|
    ensures Keep(CheckUpTo(grants, tabs, k, unused).0, keep) == Left(grants, tabs, k, unused, keep)
  {
    var j: nat := 0;
    assert LeftIs(grants, tabs, j, unused, keep);
    while j < k
      invariant j <= k && LeftIs(grants, tabs, j, unused, keep)
    {
      LeftStep(grants, tabs, j, unused, keep);
      j := j + 1;
    }
  }

  lemma LeftOfShows(
      grants: seq<Grant>, tabs: seq<Option<Tab>>, k: nat, unused: GrantId, keep: Grant -> bool, url: Url)
    requires k < |grants| && k < |tabs|
    ensures StaysAt(grants, tabs, k, unused, keep, url) <==>
            LeftOf(grants, tabs, k, unused, keep) != [] && LeftOf(grants, tabs, k, unused, keep)[0].url == url
  {
    if KeptAt(grants, tabs, k, unused).Some? {
      KeptShows(grants, tabs, k, unused);
    }
  }

  lemma UrlsStep(before: seq<Grant>, more: seq<Grant>, url: Url)
    requires |more| <= 1
    ensures HasUrl(before + more, url) <==> HasUrl(before, url) || (more != [] && more[0].url == url)
    ensures DistinctUrls(before + more) <==> DistinctUrls(before) && (more != [] ==> !HasUrl(before, more[0].url))
  {
    if more == [] {
      assert before + more == before;
    } else {
      assert more == [more[0]];
      HasUrlSnoc(before, more[0], url);
      DistinctSnoc(before, more[0]);
    }
  }

  lemma KeptShows(grants: seq<Grant>, tabs: seq<Option<Tab>>, i: nat, unused: GrantId)
    requires i < |grants| && i < |tabs| && KeptAt(grants, tabs, i, unused).Some?
    ensures TargetFromTab(tabs[i]) == Some(KeptAt(grants, tabs, i, unused).value.url)
  {
  }

  ghost predicate UrlsIff(
      grants: seq<Grant>, tabs: seq<Option<Tab>>, k: nat, unused: GrantId, keep: Grant -> bool, url: Url)
    requires k <= |grants| && k <= |tabs|
  {
    HasUrl(Left(grants, tabs, k, unused, keep), url) <==> Shown(grants, tabs, k, unused, keep, url)
  }

  lemma UrlsIffStep(grants: seq<Grant>, tabs: seq<Option<Tab>>, k: nat, unused: GrantId, keep: Grant -> bool, url: Url)
    requires k < |grants| && k < |tabs| && UrlsIff(grants, tabs, k, unused, keep, url)
    ensures UrlsIff(grants, tabs, k + 1, unused, keep, url)
  {
    LeftOfShows(grants, tabs, k, unused, keep, url);
    UrlsStep(Left(grants, tabs, k, unused, keep), LeftOf(grants, tabs, k, unused, keep), url);
    ShownSnoc(grants, tabs, k, unused, keep, url);
  }

  lemma CheckedUrls(grants: seq<Grant>, tabs: seq<Option<Tab>>, k: nat, unused: GrantId, keep: Grant -> bool, url: Url)
    requires k <= |grants| && k <= |tabs|
    ensures HasUrl(Left(grants, tabs, k, unused, keep), url) <==> Shown(grants, tabs, k, unused, keep, url)
  {
    var j: nat := 0;
    assert UrlsIff(grants, tabs, j, unused, keep, url);
    while j < k
      invariant j <= k && UrlsIff(grants, tabs, j, unused, keep, url)
    {
      UrlsIffStep(grants, tabs, j, unused, keep, url);
      j := j + 1;
    }
  }

  lemma ShownSnoc(grants: seq<Grant>, tabs: seq<Option<Tab>>, k: nat, unused: GrantId, keep: Grant -> bool, url: Url)
    requires k < |grants| && k < |tabs|
    ensures Shown(grants, tabs, k + 1, unused, keep, url) <==>
            Shown(grants, tabs, k, unused, keep, url) || StaysAt(grants, tabs, k, unused, keep, url)
  {
    if Shown(grants, tabs, k, unused, keep, url) {
      var i :| 0 <= i < k && StaysAt(grants, tabs, i, unused, keep, url);
      assert StaysAt(grants, tabs, i, unused, keep, url);
    }
  }

  lemma CollideSnoc(grants: seq<Grant>, tabs: seq<Option<Tab>>, k: nat, unused: GrantId, keep: Grant -> bool)
    requires k < |grants| && k < |tabs|
    ensures Collide(grants, tabs, k + 1, unused, keep) <==>
            Collide(grants, tabs, k, unused, keep) ||
            (LeftOf(grants, tabs, k, unused, keep) != [] &&
             Shown(grants, tabs, k, unused, keep, LeftOf(grants, tabs, k, unused, keep)[0].url))
  {
    if Collide(grants, tabs, k, unused, keep) {
      var i, url :| 0 <= i < k && StaysAt(grants, tabs, i, unused, keep, url) &&
                    Shown(grants, tabs, i, unused, keep, url);
      assert 0 <= i < k + 1 && StaysAt(grants, tabs, i, unused, keep, url);
    }
    forall url | StaysAt(grants, tabs, k, unused, keep, url)
      ensures LeftOf(grants, tabs, k, unused, keep) != [] && LeftOf(grants, tabs, k, unused, keep)[0].url == url
    {
      LeftOfShows(grants, tabs, k, unused, keep, url);
    }
    if LeftOf(grants, tabs, k, unused, keep) != [] {
      LeftOfShows(grants, tabs, k, unused, keep, LeftOf(grants, tabs, k, unused, keep)[0].url);
    }
  }

  /** The URLs of what is left are distinct exactly when no two grants collide. */
  ghost predicate DistinctIff(grants: seq<Grant>, tabs: seq<Option<Tab>>, k: nat, unused: GrantId, keep: Grant -> bool)
    requires k <= |grants| && k <= |tabs|
  {
    DistinctUrls(Left(grants, tabs, k, unused, keep)) <==> !Collide(grants, tabs, k, unused, keep)
  }

  lemma DistinctStep(grants: seq<Grant>, tabs: seq<Option<Tab>>, k: nat, unused: GrantId, keep: Grant -> bool)
    requires k < |grants| && k < |tabs| && DistinctIff(grants, tabs, k, unused, keep)
    ensures DistinctIff(grants, tabs, k + 1, unused, keep)
  {
    var before, more := Left(grants, tabs, k, unused, keep), LeftOf(grants, tabs, k, unused, keep);
    CollideSnoc(grants, tabs, k, unused, keep);
    if more == [] {
      assert before + more == before;
    } else {
      UrlsStep(before, more, more[0].url);
      CheckedUrls(grants, tabs, k, unused, keep, more[0].url);
    }
  }

  lemma DistinctUpTo(grants: seq<Grant>, tabs: seq<Option<Tab>>, k: nat, unused: GrantId, keep: Grant -> bool)
    requires k <= |grants| && k <= |tabs|
    ensures DistinctIff(grants, tabs, k, unused, keep)
  {
    var j: nat := 0;
    while j < k
      invariant j <= k && DistinctIff(grants, tabs, j, unused, keep)
    {
      DistinctStep(grants, tabs, j, unused, keep);
      j := j + 1;
    }
  }

  /**
   * Of the grants that a check leaves and that are kept afterwards, no two have the same URL exactly when no two of
   * them have tabs that show the same one.
   */
  lemma CheckedDistinctIff(grants: seq<Grant>, tabs: seq<Option<Tab>>, k: nat, unused: GrantId, keep: Grant -> bool)
    requires k <= |grants| && k <= |tabs|
    ensures DistinctUrls(Left(grants, tabs, k, unused, keep)) <==> !Collide(grants, tabs, k, unused, keep)
  {
    DistinctUpTo(grants, tabs, k, unused, keep);
  }

  /** Nothing is removed after the check. */
  function All(): Grant -> bool {
    (g: Grant) => true
  }

  /** What a revocation leaves. */
  function Unrevoked(w: State, id: Option<GrantId>, all: bool): Grant -> bool {
    (g: Grant) => !Revokes(w, id, all, g)
  }

  /** What sharing a tab leaves of the other grants. */
  function Remaining(w: State, tab: TabId, url: Url): Grant -> bool {
    (g: Grant) => g.tab != tab && g.url != url && !(Evicts(w, tab, url) && w.grants != [] && g == w.grants[0])
  }

  /**
   * After a check that stores its outcome, the next check starts from it unless two surviving grants showed the same
   * URL; then it starts from an empty workspace, whatever the tabs show by then.
   */
  lemma NextCheckIff(original: State, tabs: seq<Option<Tab>>, unused: GrantId)
    requires WellFormed(original) && AllBelow(original, unused) && |tabs| == |original.grants|
    ensures var checked := Checked(original, tabs, unused);
            Usable(Some(checked)) == if Collide(original.grants, tabs, |tabs|, unused, All()) then EMPTY else checked
  {
    var checked := Checked(original, tabs, unused);
    CheckedFollows(original, tabs, unused, original);
    CheckedDistinctIff(original.grants, tabs, |tabs|, unused, All());
    LeftIsKept(original.grants, tabs, |tabs|, unused, All());
    KeepsEverything(checked.grants, All());
    UsableIfDistinct(checked);
  }

  /** The same when an existing grant was selected afterwards. */
  lemma NextCheckAfterSelectIff(original: State, tabs: seq<Option<Tab>>, unused: GrantId, g: Grant)
    requires WellFormed(original) && AllBelow(original, unused) && |tabs| == |original.grants|
    requires g in Checked(original, tabs, unused).grants
    ensures var next := Checked(original, tabs, unused).(selected := Some(g.id));
            Usable(Some(next)) == if Collide(original.grants, tabs, |tabs|, unused, All()) then EMPTY else next
  {
    var checked := Checked(original, tabs, unused);
    NextCheckIff(original, tabs, unused);
    CheckedFollows(original, tabs, unused, original);
    var i :| 0 <= i < |checked.grants| && checked.grants[i] == g;
    assert WellFormed(checked.(selected := Some(g.id)));
    UsableIfDistinct(checked);
    UsableIfDistinct(checked.(selected := Some(g.id)));
  }

  /** After a revocation only the grants that it leaves can collide. */
  lemma NextCheckAfterRevokeIff(
      original: State, tabs: seq<Option<Tab>>, unused: GrantId, id: Option<GrantId>, all: bool)
    requires WellFormed(original) && AllBelow(original, unused) && |tabs| == |original.grants|
    ensures var checked := Checked(original, tabs, unused);
            var next := Revoked(checked, id, all);
            Usable(Some(next)) ==
              if Collide(original.grants, tabs, |tabs|, unused, Unrevoked(checked, id, all)) then EMPTY else next
  {
    var checked := Checked(original, tabs, unused);
    CheckedFollows(original, tabs, unused, original);
    RevokedFormed(checked, id, all);
    RevokedKeeps(checked, id, all);
    CheckedDistinctIff(original.grants, tabs, |tabs|, unused, Unrevoked(checked, id, all));
    LeftIsKept(original.grants, tabs, |tabs|, unused, Unrevoked(checked, id, all));
    UsableIfDistinct(Revoked(checked, id, all));
  }

  lemma RevokedKeeps(w: State, id: Option<GrantId>, all: bool)
    ensures Revoked(w, id, all).grants == Keep(w.grants, Unrevoked(w, id, all))
  {
    KeepAlike(w.grants, (g: Grant) => !Revokes(w, id, all, g), Unrevoked(w, id, all));
  }

  lemma {:induction false} KeepAlike(s: seq<Grant>, keep: Grant -> bool, other: Grant -> bool)
    requires forall g | g in s :: keep(g) == other(g)
    ensures Keep(s, keep) == Keep(s, other)
    decreases |s|
  {
    if s != [] {
      KeepAlike(s[..|s| - 1], keep, other);
    }
  }

  /** After a share only the grants that make room for nothing and are not replaced can collide. */
  lemma NextCheckAfterShareIff(original: State, tabs: seq<Option<Tab>>, unused: GrantId,
                               tab: TabId, window: WindowId, url: Url, given: GrantId)
    requires WellFormed(original) && AllBelow(original, unused) && |tabs| == |original.grants| && SafeUrl(url)
    requires CheckUpTo(original.grants, tabs, |tabs|, unused).1 <= given
    ensures var checked := Checked(original, tabs, unused);
            var next := Shared(checked, tab, window, url, given);
            Usable(Some(next)) ==
              if Collide(original.grants, tabs, |tabs|, unused, Remaining(checked, tab, url)) then EMPTY else next
  {
    var checked := Checked(original, tabs, unused);
    CheckedFollows(original, tabs, unused, original);
    CheckedBelow(original, tabs, unused, given);
    SharedFormed(checked, tab, window, url, given);
    SharedRoom(checked, tab, window, url, given);
    CheckedDistinctIff(original.grants, tabs, |tabs|, unused, Remaining(checked, tab, url));
    LeftIsKept(original.grants, tabs, |tabs|, unused, Remaining(checked, tab, url));
    UsableIfDistinct(Shared(checked, tab, window, url, given));
  }

  lemma CheckedBelow(original: State, tabs: seq<Option<Tab>>, unused: GrantId, next: GrantId)
    requires AllBelow(original, unused) && |tabs| == |original.grants|
    requires Follows(Checked(original, tabs, unused), original, unused,
                     CheckUpTo(original.grants, tabs, |tabs|, unused).1)
    requires CheckUpTo(original.grants, tabs, |tabs|, unused).1 <= next
    ensures forall i | 0 <= i < |Checked(original, tabs, unused).grants| ::
              Checked(original, tabs, unused).grants[i].id < next
  {
    var checked := Checked(original, tabs, unused);
    forall i | 0 <= i < |checked.grants|
      ensures checked.grants[i].id < next
    {
      assert checked.grants[i] in checked.grants;
    }
  }

  /** The other grants after a share, and that none of them has its URL. */
  lemma SharedRoom(w: State, tab: TabId, window: WindowId, url: Url, given: GrantId)
    requires WellFormed(w)
    ensures var next := Shared(w, tab, window, url, given);
            DistinctUrls(next.grants) <==> DistinctUrls(Keep(w.grants, Remaining(w, tab, url)))
  {
    var keep := (g: Grant) => g.tab != tab && g.url != url;
    var others := Keep(w.grants, keep);
    var room := if |others| >= MAX_COLLABORATIONS then others[1..] else others;
    KeepMembers(w.grants, keep);
    RoomKeeps(w, tab, url, keep, others, room);
    forall i | 0 <= i < |room|
      ensures room[i].url != url
    {
      assert room[i] in others;
    }
    DistinctSnoc(room, Grant(given, tab, window, url, url.origin));
  }

  lemma RoomKeeps(w: State, tab: TabId, url: Url, keep: Grant -> bool, others: seq<Grant>, room: seq<Grant>)
    requires WellFormed(w) && others == Keep(w.grants, keep) && (forall g :: keep(g) <==> g.tab != tab && g.url != url)
    requires room == if |others| >= MAX_COLLABORATIONS then others[1..] else others
    ensures room == Keep(w.grants, Remaining(w, tab, url))
  {
    KeepMembers(w.grants, keep);
    if |others| >= MAX_COLLABORATIONS {
      KeepAll(w.grants, keep);
      KeepAllButFirst(w.grants, Remaining(w, tab, url));
    } else {
      if Evicts(w, tab, url) {
        KeepsEverything(w.grants, keep);
      }
      KeepAlike(w.grants, keep, Remaining(w, tab, url));
    }
  }

  lemma KeepDropsFirst(first: Grant, rest: seq<Grant>, keep: Grant -> bool)
    requires !keep(first) && forall g | g in rest :: keep(g)
    ensures Keep([first] + rest, keep) == rest
  {
    KeepSnoc([], first, keep);
    assert [first] + rest[..0] == [] + [first];
    for n := 0 to |rest|
      invariant Keep([first] + rest[..n], keep) == rest[..n]
    {
      TakeOneMore(rest, n);
      Regroup([first], rest[..n], [rest[n]]);
      KeepSnoc([first] + rest[..n], rest[n], keep);
    }
    assert rest[..|rest|] == rest;
  }

  lemma KeepAllButFirst(s: seq<Grant>, keep: Grant -> bool)
    requires s != [] && AllApart(s) && forall g | g in s :: keep(g) <==> g != s[0]
    ensures Keep(s, keep) == s[1..]
  {
    forall g | g in s[1..]
      ensures keep(g)
    {
      var i :| 0 < i < |s| && s[i] == g;
      assert Apart(s[0], s[i]);
    }
    HeadAndTail(s);
    KeepDropsFirst(s[0], s[1..], keep);
  }

  /** It does happen: two tabs of one origin that navigate to one URL. */
  lemma RotationCanCollide(a: Url, b: Url, c: Url)
    requires SafeUrl(a) && SafeUrl(b) && SafeUrl(c) && a != b && a.origin == b.origin == c.origin
    ensures
      var w := State(Some(1), [Grant(0, 10, 1, a, a.origin), Grant(1, 11, 1, b, b.origin)]);
      var tabs := [Some(Tab(10, 1, Some(c))), Some(Tab(11, 1, Some(c)))];
      Usable(Some(w)) == w && Checked(w, tabs, 2) != EMPTY && Usable(Some(Checked(w, tabs, 2))) == EMPTY
  {
    var w := State(Some(1), [Grant(0, 10, 1, a, a.origin), Grant(1, 11, 1, b, b.origin)]);
    var tabs := [Some(Tab(10, 1, Some(c))), Some(Tab(11, 1, Some(c)))];
    assert w.grants[1].id == 1;
    assert StaysAt(w.grants, tabs, 0, 2, All(), c) && StaysAt(w.grants, tabs, 1, 2, All(), c);
    assert Shown(w.grants, tabs, 1, 2, All(), c);
    NextCheckIff(w, tabs, 2);
    assert Shown(w.grants, tabs, 2, 2, All(), c);
    ShownIsLeft(w, tabs, 2, c);
  }

  lemma ShownIsLeft(original: State, tabs: seq<Option<Tab>>, unused: GrantId, url: Url)
    requires |tabs| == |original.grants| && Shown(original.grants, tabs, |tabs|, unused, All(), url)
    ensures Checked(original, tabs, unused) != EMPTY
  {
    CheckedUrls(original.grants, tabs, |tabs|, unused, All(), url);
    LeftIsKept(original.grants, tabs, |tabs|, unused, All());
    KeepMembers(CheckUpTo(original.grants, tabs, |tabs|, unused).0, All());
  }
}
