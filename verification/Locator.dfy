/** Semantic locators over the accessibility forest (extension/executor.mjs). */
module Locator {
  import opened Common
  import Capture = RequestCapture

  const MAX_NAME_BYTES := 4096

  type Session = string

  /** A node is named by its frame session and its id in that session. */
  datatype Key = Key(session: Option<Session>, id: string)

  datatype Property = Absent | Flag(flag: bool) | Word(text: string)

  /** `role` and `name` as text, empty when missing. */
  datatype Node = Node(
    session: Option<Session>, id: string, parentId: Option<string>, ignored: bool,
    role: string, name: string, checked: Property, focused: Property)

  datatype Within = Anywhere | Inside(locator: Locator)
  datatype Locator = Locator(
    role: Option<string>, roles: Option<seq<string>>, name: Option<string>,
    nameContains: Option<string>, nameContainsAny: Option<seq<string>>, nameMatches: Option<string>,
    checked: Option<bool>, focused: Option<bool>, within: Within, withinNameContainsAny: Option<seq<string>>,
    ordinal: Option<nat>, unique: bool)

  /** Lower-casing and regular expressions, which this model does not look into. */
  datatype Text = Text(lower: string -> string, test: (string, string) -> bool)

  function KeyOf(n: Node): Key {
    Key(n.session, n.id)
  }

  predicate Includes(hay: string, needle: string) {
    exists i | 0 <= i <= |hay| - |needle| :: OccursAt(hay, needle, i)
  }

  predicate OccursAt(hay: string, needle: string, i: nat)
    requires i + |needle| <= |hay|
  {
    hay[i..i + |needle|] == needle
  }

  predicate NameIncludes(t: Text, name: string, part: string) {
    Includes(t.lower(name), t.lower(part))
  }

  predicate NameIncludesAny(t: Text, name: string, parts: seq<string>) {
    exists i | 0 <= i < |parts| :: NameIncludes(t, name, parts[i])
  }

  /** `nodeMatches`: every condition the locator states about the node itself. */
  predicate NodeMatches(t: Text, n: Node, l: Locator) {
    (l.role.Some? ==> n.role == l.role.value) &&
    (l.roles.Some? ==> n.role in l.roles.value) &&
    (l.name.Some? ==> n.name == l.name.value) &&
    (l.nameContains.Some? ==> NameIncludes(t, n.name, l.nameContains.value)) &&
    (l.nameContainsAny.Some? ==> NameIncludesAny(t, n.name, l.nameContainsAny.value)) &&
    (l.nameMatches.Some? ==> Capture.Utf8Bytes(n.name) <= MAX_NAME_BYTES && t.test(l.nameMatches.value, n.name)) &&
    (l.checked.Some? ==> n.checked == Flag(l.checked.value)) &&
    (l.focused.Some? ==> n.focused == Flag(l.focused.value))
  }

  ghost predicate Around(hay: string, a: string, needle: string, b: string) {
    hay == a + needle + b
  }

  /** Some text before it and some after it make `hay` of `needle`. */
  ghost predicate Contains(hay: string, needle: string) {
    exists a, b :: Around(hay, a, needle, b)
  }

  lemma IncludesIff(hay: string, needle: string)
    ensures Includes(hay, needle) <==> Contains(hay, needle)
  {
    if Includes(hay, needle) {
      var i :| 0 <= i <= |hay| - |needle| && OccursAt(hay, needle, i);
      assert Around(hay, hay[..i], needle, hay[i + |needle|..]);
    }
    if a, b :| Around(hay, a, needle, b) {
      assert OccursAt(hay, needle, |a|);
    }
  }

  /** The conditions one by one: those on the name's parts ignore case as `lower` does, the others compare exactly. */
  lemma NodeMatchesIff(t: Text, n: Node, l: Locator)
    ensures NodeMatches(t, n, l) <==>
            (l.role == None || l.role == Some(n.role)) && (l.name == None || l.name == Some(n.name)) &&
            (l.roles.Some? ==> exists i | 0 <= i < |l.roles.value| :: l.roles.value[i] == n.role) &&
            (l.nameContains.Some? ==> Contains(t.lower(n.name), t.lower(l.nameContains.value))) &&
            (l.nameContainsAny.Some? ==> ContainsOneOf(t, n.name, l.nameContainsAny.value)) &&
            (l.nameMatches.Some? ==> t.test(l.nameMatches.value, n.name) && Capture.Utf8Bytes(n.name) <= 4096) &&
            (l.checked.Some? ==> n.checked.Flag? && n.checked.flag == l.checked.value) &&
            (l.focused.Some? ==> n.focused.Flag? && n.focused.flag == l.focused.value)
  {
    if l.nameContains.Some? {
      IncludesIff(t.lower(n.name), t.lower(l.nameContains.value));
    }
    if l.nameContainsAny.Some? {
      ContainsOneOfIff(t, n.name, l.nameContainsAny.value);
    }
  }

  ghost predicate ContainsOneOf(t: Text, name: string, parts: seq<string>) {
    exists part | part in parts :: Contains(t.lower(name), t.lower(part))
  }

  lemma ContainsOneOfIff(t: Text, name: string, parts: seq<string>)
    ensures NameIncludesAny(t, name, parts) <==> ContainsOneOf(t, name, parts)
  {
    if NameIncludesAny(t, name, parts) {
      var i :| 0 <= i < |parts| && NameIncludes(t, name, parts[i]);
      IncludesIff(t.lower(name), t.lower(parts[i]));
      assert parts[i] in parts;
    }
    if part :| part in parts && Contains(t.lower(name), t.lower(part)) {
      var i :| 0 <= i < |parts| && parts[i] == part;
      IncludesIff(t.lower(name), t.lower(part));
      assert NameIncludes(t, name, parts[i]);
    }
  }

  // ----- the forest

  function ParentKey(n: Node): Option<Key> {
    if n.parentId.Some? then Some(Key(n.session, n.parentId.value)) else None
  }

  function Parent(byId: map<Key, Node>, n: Node): Option<Node> {
    if ParentKey(n).Some? && ParentKey(n).value in byId then Some(byId[ParentKey(n).value]) else None
  }

  ghost predicate Named(byId: map<Key, Node>) {
    forall k | k in byId :: KeyOf(byId[k]) == k
  }

  /** `rank` witnesses that no node is its own ancestor. */
  ghost predicate Acyclic(byId: map<Key, Node>, rank: map<Key, nat>) {
    byId.Keys <= rank.Keys && Named(byId) &&
    forall k | k in byId && Parent(byId, byId[k]).Some? :: rank[KeyOf(Parent(byId, byId[k]).value)] < rank[k]
  }

  /** `path` leads from the parent of `n` upwards. */
  ghost predicate Climbs(byId: map<Key, Node>, n: Node, path: seq<Node>) {
    path != [] && Parent(byId, n) == Some(path[0]) &&
    forall i | 0 <= i < |path| - 1 :: Parent(byId, path[i]) == Some(path[i + 1])
  }

  ghost predicate ProperAncestor(byId: map<Key, Node>, a: Node, n: Node) {
    exists path :: Climbs(byId, n, path) && path[|path| - 1] == a
  }

  /** What a locator means: conditions on the node, and on some proper ancestor if it states any. */
  ghost predicate Meets(t: Text, byId: map<Key, Node>, n: Node, l: Locator)
    decreases l, 1
  {
    NodeMatches(t, n, l) &&
    ((l.within.Anywhere? && l.withinNameContainsAny.None?) ||
     exists a :: ProperAncestor(byId, a, n) && Encloses(t, byId, a, l))
  }

  /** The ancestor meets `within`, or its name contains one of the alternatives. */
  ghost predicate Encloses(t: Text, byId: map<Key, Node>, a: Node, l: Locator)
    decreases l, 0
  {
    (l.within.Inside? && Meets(t, byId, a, l.within.locator)) ||
    (l.withinNameContainsAny.Some? && NameIncludesAny(t, a.name, l.withinNameContainsAny.value))
  }

  lemma ClimbFurther(byId: map<Key, Node>, n: Node, path: seq<Node>, next: Node)
    requires Climbs(byId, n, path) && Parent(byId, path[|path| - 1]) == Some(next)
    ensures Climbs(byId, n, path + [next])
  {
  }

  /** Two climbs from one node run along each other. */
  lemma {:induction false} ClimbsAgree(byId: map<Key, Node>, n: Node, p: seq<Node>, q: seq<Node>, i: nat)
    requires Climbs(byId, n, p) && Climbs(byId, n, q) && i < |p| && i < |q|
    ensures p[i] == q[i]
    decreases i
  {
    if i > 0 {
      ClimbsAgree(byId, n, p, q, i - 1);
    }
  }

  lemma ClimbGoesOn(byId: map<Key, Node>, n: Node, p: seq<Node>, q: seq<Node>, i: nat)
    requires Climbs(byId, n, p) && Climbs(byId, n, q) && i < |p| && i + 1 < |q|
    ensures Parent(byId, p[i]) == Some(q[i + 1])
  {
    ClimbsAgree(byId, n, p, q, i);
    assert Parent(byId, q[i]) == Some(q[i + 1]);
  }

  /** Once a climb has reached a root, it has passed every proper ancestor. */
  lemma AllAncestorsPassed(byId: map<Key, Node>, n: Node, path: seq<Node>, a: Node)
    requires ProperAncestor(byId, a, n)
    requires (path == [] && Parent(byId, n).None?) ||
             (Climbs(byId, n, path) && Parent(byId, path[|path| - 1]).None?)
    ensures a in path
  {
    var other :| Climbs(byId, n, other) && other[|other| - 1] == a;
    if path != [] {
      if |other| > |path| {
        ClimbGoesOn(byId, n, path, other, |path| - 1);
      } else {
        ClimbsAgree(byId, n, path, other, |other| - 1);
      }
    }
  }

  // ----- evaluation

  /** `ancestorMatches`: the walk up the tree finds an enclosing ancestor if there is one. */
  method AncestorMatches(t: Text, n: Node, l: Locator, byId: map<Key, Node>, ghost rank: map<Key, nat>)
    returns (r: bool)
    requires Acyclic(byId, rank)
    ensures r == ((l.within.Anywhere? && l.withinNameContainsAny.None?) ||
                  exists a :: ProperAncestor(byId, a, n) && Encloses(t, byId, a, l))
    decreases l, 0
  {
    var parent := Parent(byId, n);
    ghost var path: seq<Node> := [];
    while parent.Some?
      invariant parent == Parent(byId, if path == [] then n else path[|path| - 1])
      invariant path == [] || Climbs(byId, n, path)
      invariant forall i | 0 <= i < |path| :: !Encloses(t, byId, path[i], l)
      decreases if parent.Some? then rank[KeyOf(parent.value)] + 1 else 0
    {
      ghost var before := path;
      path := path + [parent.value];
      assert Climbs(byId, n, path) by {
        if before != [] {
          ClimbFurther(byId, n, before, parent.value);
        }
      }
      assert ProperAncestor(byId, parent.value, n);
      if l.within.Inside? {
        var inside := NodeMatchesTree(t, parent.value, l.within.locator, byId, rank);
        if inside {
          assert Encloses(t, byId, parent.value, l);
          return true;
        }
      }
      if l.withinNameContainsAny.Some? && NameIncludesAny(t, parent.value.name, l.withinNameContainsAny.value) {
        assert Encloses(t, byId, parent.value, l);
        return true;
      }
      parent := Parent(byId, parent.value);
    }
    forall a | ProperAncestor(byId, a, n)
      ensures !Encloses(t, byId, a, l)
    {
      AllAncestorsPassed(byId, n, path, a);
    }
    return l.within.Anywhere? && l.withinNameContainsAny.None?;
  }

  method NodeMatchesTree(t: Text, n: Node, l: Locator, byId: map<Key, Node>, ghost rank: map<Key, nat>)
    returns (r: bool)
    requires Acyclic(byId, rank)
    ensures r == Meets(t, byId, n, l)
    decreases l, 1
  {
    r := NodeMatches(t, n, l);
    if r {
      r := AncestorMatches(t, n, l, byId, rank);
    }
  }

  // ----- the tree and the search

  ghost predicate DistinctKeys(nodes: seq<Node>) {
    forall i, k | 0 <= i < k < |nodes| :: KeyOf(nodes[i]) != KeyOf(nodes[k])
  }

  /** The map holds exactly the given nodes under their keys. */
  ghost predicate Indexes(byId: map<Key, Node>, nodes: seq<Node>) {
    Named(byId) && forall n :: n in nodes <==> KeyOf(n) in byId && byId[KeyOf(n)] == n
  }

  /** The nodes of one frame that are not ignored, under its session. */
  function Shown(nodes: seq<Node>, session: Option<Session>): seq<Node> {
    if nodes == [] then []
    else (if nodes[0].ignored then [] else [nodes[0].(session := session)]) + Shown(nodes[1..], session)
  }

  /** The main frame's nodes, then those of each child session that still answers. */
  function Gathered(main: seq<Node>, children: seq<(Session, Option<seq<Node>>)>): seq<Node> {
    if children == [] then Shown(main, None)
    else
      var last := children[|children| - 1];
      Gathered(main, children[..|children| - 1]) + if last.1.Some? then Shown(last.1.value, Some(last.0)) else []
  }

  /** `axTree`: the nodes in order, and the map by session and id. */
  method AxTree(main: seq<Node>, children: seq<(Session, Option<seq<Node>>)>)
    returns (nodes: seq<Node>, byId: map<Key, Node>)
    ensures nodes == Gathered(main, children)
    ensures DistinctKeys(nodes) ==> Indexes(byId, nodes)
  {
    nodes := Shown(main, None);
    assert children[..0] == [];
    var i := 0;
    while i < |children|
      invariant i <= |children| && nodes == Gathered(main, children[..i])
    {
      assert children[..i + 1][..i] == children[..i];
      if children[i].1.Some? {
        nodes := nodes + Shown(children[i].1.value, Some(children[i].0));
      }
      i := i + 1;
    }
    assert children[..i] == children;
    byId := map[];
    var k := 0;
    while k < |nodes|
      invariant k <= |nodes|
      invariant DistinctKeys(nodes) ==> Indexes(byId, nodes[..k])
    {
      if DistinctKeys(nodes) {
        IndexOneMore(nodes, k, byId);
      }
      byId := byId[KeyOf(nodes[k]) := nodes[k]];
      k := k + 1;
    }
    assert nodes[..k] == nodes;
  }

  lemma IndexOneMore(nodes: seq<Node>, k: nat, byId: map<Key, Node>)
    requires k < |nodes| && DistinctKeys(nodes) && Indexes(byId, nodes[..k])
    ensures Indexes(byId[KeyOf(nodes[k]) := nodes[k]], nodes[..k + 1])
  {
    var more := byId[KeyOf(nodes[k]) := nodes[k]];
    assert nodes[..k + 1] == nodes[..k] + [nodes[k]];
    forall n
      ensures n in nodes[..k + 1] <==> KeyOf(n) in more && more[KeyOf(n)] == n
    {
      if n in nodes[..k] {
        var i :| 0 <= i < k && nodes[i] == n;
        assert KeyOf(nodes[i]) != KeyOf(nodes[k]);
      }
    }
  }

  /** The nodes that meet the locator, in tree order. */
  ghost function Meeting(t: Text, byId: map<Key, Node>, nodes: seq<Node>, l: Locator): seq<Node> {
    if nodes == [] then []
    else
      var last := nodes[|nodes| - 1];
      Meeting(t, byId, nodes[..|nodes| - 1], l) + if Meets(t, byId, last, l) then [last] else []
  }

  lemma {:induction false} MeetingIsExactly(t: Text, byId: map<Key, Node>, nodes: seq<Node>, l: Locator)
    ensures Subseq(Meeting(t, byId, nodes, l), nodes)
    ensures forall n :: n in Meeting(t, byId, nodes, l) <==> n in nodes && Meets(t, byId, n, l)
    decreases |nodes|
  {
    if nodes != [] {
      var front, last := nodes[..|nodes| - 1], nodes[|nodes| - 1];
      MeetingIsExactly(t, byId, front, l);
      var kept := Meeting(t, byId, front, l);
      assert nodes == front + [last];
      if Meets(t, byId, last, l) {
        SubseqOne(last);
        SubseqConcat(kept, front, [last], [last]);
      } else {
        SubseqWiden(kept, front, [last]);
        assert kept + [] == kept;
      }
    }
  }

  datatype FindError = ElementNotFound | ElementAmbiguous

  /** `findAX` on a gathered tree: exactly the nodes that meet the locator, in order, or the one its ordinal names. */
  method FindAx(
      t: Text, nodes: seq<Node>, byId: map<Key, Node>, l: Locator, requireSingle: bool, ghost rank: map<Key, nat>)
    returns (r: Result<seq<Node>, FindError>)
    requires Acyclic(byId, rank)
    ensures var meeting, k := Meeting(t, byId, nodes, l), l.ordinal;
            (r == Err(ElementNotFound) <==> if k.Some? then k.value >= |meeting| else meeting == []) &&
            (r == Err(ElementAmbiguous) <==> k.None? && (requireSingle || l.unique) && |meeting| >= 2) &&
            (r.Ok? ==> r.value == if k.Some? then [meeting[k.value]] else meeting)
  {
    var matches: seq<Node> := [];
    var i := 0;
    assert nodes[..0] == [];
    while i < |nodes|
      invariant i <= |nodes| && matches == Meeting(t, byId, nodes[..i], l)
    {
      assert nodes[..i + 1][..i] == nodes[..i];
      var meets := NodeMatchesTree(t, nodes[i], l, byId, rank);
      if meets {
        matches := matches + [nodes[i]];
      }
      i := i + 1;
    }
    assert nodes[..i] == nodes;
    if l.ordinal.Some? {
      matches := if l.ordinal.value < |matches| then [matches[l.ordinal.value]] else [];
    }
    if matches == [] {
      return Err(ElementNotFound);
    }
    if (requireSingle || l.unique) && |matches| != 1 {
      return Err(ElementAmbiguous);
    }
    return Ok(matches);
  }

  // ----- frames

  /** No ancestor, and so no witness for `within`, belongs to another frame session. */
  lemma {:induction false} ClimbStaysInSession(byId: map<Key, Node>, n: Node, path: seq<Node>, i: nat)
    requires Named(byId) && Climbs(byId, n, path) && i < |path|
    ensures path[i].session == n.session
    decreases i
  {
    if i > 0 {
      ClimbStaysInSession(byId, n, path, i - 1);
      assert Parent(byId, path[i - 1]) == Some(path[i]);
    }
  }

  lemma AncestorsStayInSession(byId: map<Key, Node>, a: Node, n: Node)
    requires Named(byId) && ProperAncestor(byId, a, n)
    ensures a.session == n.session
  {
    var path :| Climbs(byId, n, path) && path[|path| - 1] == a;
    ClimbStaysInSession(byId, n, path, |path| - 1);
  }

  // ----- ignored nodes

  /** Chrome answered `raw` for the frame of this session; `None` is the main frame. */
  ghost predicate FrameIs(
      main: seq<Node>, children: seq<(Session, Option<seq<Node>>)>, session: Option<Session>, raw: seq<Node>)
  {
    (session.None? && raw == main) ||
    (session.Some? && exists i | 0 <= i < |children| :: children[i] == (session.value, Some(raw)))
  }

  /** Every child session is listed once. */
  ghost predicate OneFrameEach(children: seq<(Session, Option<seq<Node>>)>) {
    forall i, k | 0 <= i < k < |children| :: children[i].0 != children[k].0
  }

  /** A frame names each of its nodes once. */
  ghost predicate OneNodeEach(raw: seq<Node>) {
    forall p, q | p in raw && q in raw && p.id == q.id :: p == q
  }

  /** A listed node as it is gathered. */
  function Under(session: Option<Session>, q: Node): Node {
    q.(session := session)
  }

  lemma {:induction false} ShownFrom(raw: seq<Node>, session: Option<Session>, n: Node)
    requires n in Shown(raw, session)
    ensures n.session == session && exists q :: q in raw && !q.ignored && n == Under(session, q)
    decreases |raw|
  {
    if !raw[0].ignored && n == Under(session, raw[0]) {
      assert raw[0] in raw;
    } else {
      ShownFrom(raw[1..], session, n);
      var q :| q in raw[1..] && !q.ignored && n == Under(session, q);
      assert q in raw;
    }
  }

  lemma {:induction false} ShownHas(raw: seq<Node>, session: Option<Session>, q: Node)
    requires q in raw && !q.ignored
    ensures Under(session, q) in Shown(raw, session)
    decreases |raw|
  {
    if q != raw[0] {
      assert q in raw[1..];
      ShownHas(raw[1..], session, q);
    }
  }

  lemma {:induction false} GatheredFrom(main: seq<Node>, children: seq<(Session, Option<seq<Node>>)>, n: Node)
    returns (raw: seq<Node>)
    requires n in Gathered(main, children)
    ensures FrameIs(main, children, n.session, raw)
    ensures exists q :: q in raw && !q.ignored && n == Under(n.session, q)
    decreases |children|
  {
    if children == [] {
      raw := main;
      ShownFrom(main, None, n);
    } else {
      var front, last := children[..|children| - 1], children[|children| - 1];
      if n in Gathered(main, front) {
        raw := GatheredFrom(main, front, n);
        if n.session.Some? {
          var i :| 0 <= i < |front| && front[i] == (n.session.value, Some(raw));
          assert children[i] == front[i];
        }
      } else {
        raw := last.1.value;
        ShownFrom(raw, Some(last.0), n);
        assert children[|children| - 1] == (n.session.value, Some(raw));
      }
    }
  }

  lemma {:induction false} GatheredHas(
      main: seq<Node>, children: seq<(Session, Option<seq<Node>>)>, session: Option<Session>, raw: seq<Node>, q: Node)
    requires FrameIs(main, children, session, raw) && q in raw && !q.ignored
    ensures Under(session, q) in Gathered(main, children)
    decreases |children|
  {
    if children == [] {
      ShownHas(main, None, q);
    } else {
      var n := |children| - 1;
      var front, last := children[..n], children[n];
      if session.Some? && last == (session.value, Some(raw)) {
        ShownHas(raw, session, q);
      } else {
        if session.Some? {
          var i :| 0 <= i < |children| && children[i] == (session.value, Some(raw));
          assert front[i] == children[i];
        }
        GatheredHas(main, front, session, raw, q);
      }
    }
  }

  /** The map was built from Chrome's answers, `raw` being the one for this session. */
  ghost predicate Listing(main: seq<Node>, children: seq<(Session, Option<seq<Node>>)>, byId: map<Key, Node>,
                          session: Option<Session>, raw: seq<Node>) {
    Indexes(byId, Gathered(main, children)) && OneFrameEach(children) && FrameIs(main, children, session, raw) &&
    OneNodeEach(raw)
  }

  /** A gathered node of the session is a listed one that is not ignored. */
  lemma GatheredIsListed(main: seq<Node>, children: seq<(Session, Option<seq<Node>>)>, byId: map<Key, Node>,
                         session: Option<Session>, raw: seq<Node>, m: Node)
    requires Listing(main, children, byId, session, raw) && m in Gathered(main, children) && m.session == session
    ensures exists p :: p in raw && !p.ignored && m == Under(session, p)
  {
    var other := GatheredFrom(main, children, m);
    if session.Some? {
      var i :| 0 <= i < |children| && children[i] == (session.value, Some(raw));
      var k :| 0 <= k < |children| && children[k] == (session.value, Some(other));
      var lo, hi := children[Min(i, k)], children[Max(i, k)];
      assert i != k ==> lo.0 != hi.0;
    }
  }

  /** `p` is listed as the parent of `q`, and it is not ignored. */
  predicate ShownParent(raw: seq<Node>, q: Node, p: Node) {
    p in raw && !p.ignored && q.parentId == Some(p.id)
  }

  lemma ParentIff(main: seq<Node>, children: seq<(Session, Option<seq<Node>>)>, byId: map<Key, Node>,
                  session: Option<Session>, raw: seq<Node>, q: Node, m: Node)
    requires Listing(main, children, byId, session, raw)
    ensures Parent(byId, Under(session, q)) == Some(m) <==> exists p :: ShownParent(raw, q, p) && m == Under(session, p)
  {
    if Parent(byId, Under(session, q)) == Some(m) {
      assert KeyOf(m) == Key(session, q.parentId.value);
      assert m in Gathered(main, children);
      GatheredIsListed(main, children, byId, session, raw, m);
      var p :| p in raw && !p.ignored && m == Under(session, p);
      assert ShownParent(raw, q, p);
    }
    if p :| ShownParent(raw, q, p) && m == Under(session, p) {
      GatheredHas(main, children, session, raw, p);
      assert KeyOf(m) == Key(session, p.id);
    }
  }

  /** In Chrome's listing `path` leads from the parent of `q` upwards, and no node on it is ignored. */
  ghost predicate ShownPath(raw: seq<Node>, q: Node, path: seq<Node>) {
    path != [] && ShownParent(raw, q, path[0]) &&
    forall i | 0 <= i < |path| - 1 :: ShownParent(raw, path[i], path[i + 1])
  }

  ghost predicate ShownAncestor(raw: seq<Node>, q: Node, p: Node) {
    exists path :: ShownPath(raw, q, path) && path[|path| - 1] == p
  }

  /** A climb over gathered nodes is a path of listed ones. */
  lemma {:induction false} ListedPath(
      main: seq<Node>, children: seq<(Session, Option<seq<Node>>)>, byId: map<Key, Node>, session: Option<Session>,
      raw: seq<Node>, q: Node, climb: seq<Node>)
    returns (path: seq<Node>)
    requires Listing(main, children, byId, session, raw) && Climbs(byId, Under(session, q), climb)
    ensures ShownPath(raw, q, path) && Under(session, path[|path| - 1]) == climb[|climb| - 1]
    decreases |climb|
  {
    var n := |climb| - 1;
    if n == 0 {
      ParentIff(main, children, byId, session, raw, q, climb[0]);
      var p :| ShownParent(raw, q, p) && climb[0] == Under(session, p);
      path := [p];
    } else {
      var before := ListedPath(main, children, byId, session, raw, q, climb[..n]);
      var last := before[|before| - 1];
      assert Parent(byId, climb[n - 1]) == Some(climb[n]);
      ParentIff(main, children, byId, session, raw, last, climb[n]);
      var p :| ShownParent(raw, last, p) && climb[n] == Under(session, p);
      path := before + [p];
    }
  }

  /** And the other way round. */
  lemma {:induction false} GatheredClimb(
      main: seq<Node>, children: seq<(Session, Option<seq<Node>>)>, byId: map<Key, Node>, session: Option<Session>,
      raw: seq<Node>, q: Node, path: seq<Node>)
    returns (climb: seq<Node>)
    requires Listing(main, children, byId, session, raw) && ShownPath(raw, q, path)
    ensures Climbs(byId, Under(session, q), climb) && climb[|climb| - 1] == Under(session, path[|path| - 1])
    decreases |path|
  {
    var n := |path| - 1;
    if n == 0 {
      ParentIff(main, children, byId, session, raw, q, Under(session, path[0]));
      climb := [Under(session, path[0])];
    } else {
      var before := GatheredClimb(main, children, byId, session, raw, q, path[..n]);
      assert ShownParent(raw, path[n - 1], path[n]);
      ParentIff(main, children, byId, session, raw, path[n - 1], Under(session, path[n]));
      ClimbFurther(byId, Under(session, q), before, Under(session, path[n]));
      climb := before + [Under(session, path[n])];
    }
  }

  /**
   * A node has exactly those ancestors that a path of parents in Chrome's listing leads to without an ignored node on
   * it: an ignored parent, or one further up, cuts the chain.
   */
  lemma AncestorIff(main: seq<Node>, children: seq<(Session, Option<seq<Node>>)>, byId: map<Key, Node>,
                    session: Option<Session>, raw: seq<Node>, q: Node, a: Node)
    requires Listing(main, children, byId, session, raw)
    ensures ProperAncestor(byId, a, Under(session, q)) <==>
            exists p :: ShownAncestor(raw, q, p) && a == Under(session, p)
  {
    if ProperAncestor(byId, a, Under(session, q)) {
      var climb :| Climbs(byId, Under(session, q), climb) && climb[|climb| - 1] == a;
      var path := ListedPath(main, children, byId, session, raw, q, climb);
      assert ShownAncestor(raw, q, path[|path| - 1]);
    }
    if p :| ShownAncestor(raw, q, p) && a == Under(session, p) {
      var path :| ShownPath(raw, q, path) && path[|path| - 1] == p;
      var climb := GatheredClimb(main, children, byId, session, raw, q, path);
    }
  }

  /** So what a locator asks of an ancestor is asked of the listed ones up to the first ignored one. */
  lemma MeetsIff(t: Text, main: seq<Node>, children: seq<(Session, Option<seq<Node>>)>, byId: map<Key, Node>,
                 session: Option<Session>, raw: seq<Node>, q: Node, l: Locator)
    requires Listing(main, children, byId, session, raw)
    ensures Meets(t, byId, Under(session, q), l) <==>
            NodeMatches(t, Under(session, q), l) &&
            ((l.within.Anywhere? && l.withinNameContainsAny.None?) ||
             exists p :: ShownAncestor(raw, q, p) && Encloses(t, byId, Under(session, p), l))
  {
    var n := Under(session, q);
    if a :| ProperAncestor(byId, a, n) && Encloses(t, byId, a, l) {
      AncestorIff(main, children, byId, session, raw, q, a);
      var p :| ShownAncestor(raw, q, p) && a == Under(session, p);
      assert Encloses(t, byId, Under(session, p), l);
    }
    if p :| ShownAncestor(raw, q, p) && Encloses(t, byId, Under(session, p), l) {
      AncestorIff(main, children, byId, session, raw, q, Under(session, p));
    }
  }

  /** In particular a node whose own parent is ignored has no ancestors, and meets no locator that asks for one. */
  lemma IgnoredParentHidesAncestors(
      t: Text, main: seq<Node>, children: seq<(Session, Option<seq<Node>>)>, byId: map<Key, Node>,
      session: Option<Session>, raw: seq<Node>, p: Node, q: Node, l: Locator)
    requires Listing(main, children, byId, session, raw) && p in raw && p.ignored && q.parentId == Some(p.id)
    ensures forall a :: !ProperAncestor(byId, a, Under(session, q))
    ensures Meets(t, byId, Under(session, q), l) <==>
            NodeMatches(t, Under(session, q), l) && l.within.Anywhere? && l.withinNameContainsAny.None?
  {
    forall a
      ensures !ProperAncestor(byId, a, Under(session, q))
    {
      AncestorIff(main, children, byId, session, raw, q, a);
    }
  }

  /** `within` nests: a locator inside a locator inside a locator asks for a chain of proper ancestors. */
  lemma NestedWithinIsChain(t: Text, byId: map<Key, Node>, n: Node, outer: Locator, middle: Locator, l: Locator)
    requires l.within == Inside(middle) && l.withinNameContainsAny.None?
    requires middle.within == Inside(outer) && middle.withinNameContainsAny.None?
    requires outer.within.Anywhere? && outer.withinNameContainsAny.None?
    ensures Meets(t, byId, n, l) <==>
            NodeMatches(t, n, l) &&
            exists a, b :: ProperAncestor(byId, a, n) && NodeMatches(t, a, middle) &&
                           ProperAncestor(byId, b, a) && NodeMatches(t, b, outer)
  {
    forall a
      ensures Encloses(t, byId, a, l) <==> Meets(t, byId, a, middle)
    {
    }
    forall b
      ensures Encloses(t, byId, b, middle) <==> NodeMatches(t, b, outer)
    {
    }
  }
}
