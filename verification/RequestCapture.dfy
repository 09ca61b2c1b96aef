/**
 * The private request capture: entries, their index by request id, and roll-back of what does not fit
 * (extension/executor.mjs).
 */
module RequestCapture {
  import opened Common
  import opened CanonicalJson
  import ExecutorModel

  const MAX_REQUEST_ID_BYTES := 512
  const MAX_TYPE_BYTES := 64
  const MAX_MIME_BYTES := 1024

  datatype Row = Row(
    verb: string, url: string, resourceType: string, timestamp: Json, status: Option<int>, mimeType: Option<string>,
    fromDiskCache: bool, failed: bool, errorText: Option<string>, canceled: bool)

  // ----- sizes

  /** Bytes of `text` in UTF-8. */
  function Utf8Bytes(text: string): nat {
    if text == [] then 0 else CharBytes(text[0]) + Utf8Bytes(text[1..])
  }

  function CharBytes(c: char): nat {
    if c as int < 0x80 then 1 else if c as int < 0x800 then 2 else if c as int < 0x1_0000 then 3 else 4
  }

  /** UTF-8 (section 3 of RFC 3629): the first 128 characters take a byte, and no character takes more than four. */
  lemma CharBytesMeaning(c: char)
    ensures 1 <= CharBytes(c) <= 4
    ensures CharBytes(c) <= 1 <==> c as int <= 0x7F
    ensures CharBytes(c) <= 2 <==> c as int <= 0x7FF
    ensures CharBytes(c) <= 3 <==> c as int <= 0xFFFF
  {
  }

  function TextOrNull(text: Option<string>): Json {
    if text.Some? then Str(text.value) else Null
  }

  function RowJson(r: Row): Json {
    Obj(Member("method", Str(r.verb), Member("url", Str(r.url), Member("resource_type", Str(r.resourceType),
        Member("timestamp", r.timestamp, Member("status", if r.status.Some? then Int(r.status.value) else Null,
        Member("mime_type", TextOrNull(r.mimeType), Member("from_disk_cache", Bool(r.fromDiskCache),
        Member("failed", Bool(r.failed), Member("error_text", TextOrNull(r.errorText),
        Member("canceled", Bool(r.canceled), NoMembers)))))))))))
  }

  function RowsJson(rows: seq<Row>): Items {
    if rows == [] then NoItems else Item(RowJson(rows[0]), RowsJson(rows[1..]))
  }

  /** The value that ends up in the private results. */
  function CaptureJson(entries: seq<Row>, truncated: bool): Json {
    Obj(Member("entries", Arr(RowsJson(entries)), Member("truncated", Bool(truncated), NoMembers)))
  }

  function CaptureBytes(entries: seq<Row>, truncated: bool): nat {
    Utf8Bytes(Print(CaptureJson(entries, truncated)))
  }

  predicate Fits(entries: seq<Row>, truncated: bool) {
    CaptureBytes(entries, truncated) <= ExecutorModel.MAX_PRIVATE_RESULTS_BYTES
  }

  lemma {:induction false} Utf8Concat(a: string, b: string)
    ensures Utf8Bytes(a + b) == Utf8Bytes(a) + Utf8Bytes(b)
    decreases |a|
  {
    if a == [] {
      assert a + b == b;
    } else {
      Utf8Concat(a[1..], b);
      assert (a + b)[1..] == a[1..] + b;
    }
  }

  /** All of the encoding but the flag, the entries' part first. */
  function FixedBytes(entries: seq<Row>): nat {
    Utf8Bytes(PrintString("entries")) + Utf8Bytes(Print(Arr(RowsJson(entries)))) +
    Utf8Bytes(PrintString("truncated")) + 5
  }

  lemma CaptureBytesSplit(entries: seq<Row>, truncated: bool)
    ensures CaptureBytes(entries, truncated) == FixedBytes(entries) + if truncated then 4 else 5
  {
    TwoMembersBytes("entries", Arr(RowsJson(entries)), "truncated", Bool(truncated));
    FlagBytes(truncated);
  }

  lemma FlagBytes(flag: bool)
    ensures Utf8Bytes(Print(Bool(flag))) == if flag then 4 else 5
  {
    Ascii(Print(Bool(flag)));
  }

  lemma TwoMembersBytes(key: string, value: Json, key': string, value': Json)
    ensures Utf8Bytes(Print(Obj(Member(key, value, Member(key', value', NoMembers))))) ==
            Utf8Bytes(PrintString(key)) + Utf8Bytes(Print(value)) +
            Utf8Bytes(PrintString(key')) + Utf8Bytes(Print(value')) + 5
  {
    var last := Member(key', value', NoMembers);
    MembersBytes(key', value', NoMembers);
    MemberBytes(key, value);
    Utf8Concat(PrintString(key) + ":" + Print(value), PrintMembers(last));
    Utf8Concat("{", PrintObj(Member(key, value, last)));
    Ascii("{");
    Ascii("}");
  }

  lemma MemberBytes(key: string, value: Json)
    ensures Utf8Bytes(PrintString(key) + ":" + Print(value)) ==
            Utf8Bytes(PrintString(key)) + 1 + Utf8Bytes(Print(value))
  {
    Utf8Concat(PrintString(key), ":");
    Utf8Concat(PrintString(key) + ":", Print(value));
    Ascii(":");
  }

  lemma MembersBytes(key: string, value: Json, rest: Members)
    ensures Utf8Bytes(PrintMembers(Member(key, value, rest))) ==
            2 + Utf8Bytes(PrintString(key)) + Utf8Bytes(Print(value)) + Utf8Bytes(PrintMembers(rest))
  {
    var front := "," + PrintString(key);
    Utf8Concat(",", PrintString(key));
    Utf8Concat(front, ":");
    Utf8Concat(front + ":", Print(value));
    Utf8Concat(front + ":" + Print(value), PrintMembers(rest));
    Ascii(",");
    Ascii(":");
  }

  /** Turning the truncation flag on makes the encoding one byte shorter, so it never breaks the bound. */
  lemma FlagShortens(entries: seq<Row>)
    ensures CaptureBytes(entries, true) + 1 == CaptureBytes(entries, false)
  {
    CaptureBytesSplit(entries, true);
    CaptureBytesSplit(entries, false);
  }

  lemma {:induction false} Ascii(s: string)
    requires forall i | 0 <= i < |s| :: s[i] as int < 0x80
    ensures Utf8Bytes(s) == |s|
    decreases |s|
  {
    if s != [] {
      Ascii(s[1..]);
    }
  }

  lemma {:induction false} EscapedBytes(s: string)
    ensures Utf8Bytes(EscapeAll(s)) <= 24 * |s|
    decreases |s|
  {
    if s != [] {
      EscapedBytes(s[1..]);
      Utf8Concat(Escape(s[0]), EscapeAll(s[1..]));
      AtMostFour(Escape(s[0]));
    }
  }

  lemma {:induction false} AtMostFour(s: string)
    ensures Utf8Bytes(s) <= 4 * |s|
    decreases |s|
  {
    if s != [] {
      AtMostFour(s[1..]);
    }
  }

  lemma StringBytes(s: string)
    ensures Utf8Bytes(PrintString(s)) <= 24 * |s| + 2
  {
    EscapedBytes(s);
    Utf8Concat("\"", EscapeAll(s));
    Utf8Concat("\"" + EscapeAll(s), "\"");
    Ascii("\"");
  }

  lemma EmptyFits()
    ensures Fits([], false)
  {
    StringBytes("entries");
    StringBytes("truncated");
    AtMostFour(Print(Arr(NoItems)));
    CaptureBytesSplit([], false);
  }

  // ----- events

  /** A URL string as `new URL` reads it; `href` is it without credentials, query and fragment. */
  datatype RawUrl = NotAUrl | Parsed(http: bool, href: string)

  /** `timestamp` is absent when the value is refused. */
  datatype Request = Request(url: RawUrl, verb: Option<string>, resourceType: Option<string>, timestamp: Option<Json>)
  datatype Response = Response(status: Option<int>, mimeType: Option<string>, fromDiskCache: Option<bool>)
  datatype CanceledFlag = Missing | NotBool | Given(flag: bool)

  datatype Detail =
    | WillBeSent(request: Request)
    | ResponseReceived(response: Option<Response>)
    | LoadingFailed(errorText: Option<string>, canceled: CanceledFlag)

  /** An event of the attached tab carries a detail; anything else is `Other`. */
  datatype Event = Network(id: Option<string>, detail: Detail) | Other

  datatype Bounds = Bounds(maxEntries: nat, maxUrlBytes: nat)

  datatype State = State(entries: seq<Row>, byRequestId: map<string, nat>, truncated: bool, failed: bool)

  const START := State([], map[], false, false)

  predicate ValidVerb(verb: string) {
    1 <= |verb| <= 32 && forall i | 0 <= i < |verb| :: 'A' <= verb[i] <= 'Z'
  }

  /** A captured URL, `None` when it is left out of the capture. */
  function PrivateUrl(url: RawUrl, maxUrlBytes: nat): Option<string>
    requires url.Parsed?
  {
    if !url.http || Utf8Bytes(url.href) > maxUrlBytes then None else Some(url.href)
  }

  predicate ValidRequest(r: Request) {
    r.verb.Some? && ValidVerb(r.verb.value) && r.resourceType.Some? && Utf8Bytes(r.resourceType.value) <= MAX_TYPE_BYTES
  }

  function NewRow(r: Request, url: string): Row
    requires ValidRequest(r) && r.timestamp.Some?
  {
    Row(r.verb.value, url, r.resourceType.value, r.timestamp.value, None, None, false, false, None, false)
  }

  /** The row after a response or a failure; `None` for a malformed event. */
  function Updated(row: Row, detail: Detail, maxUrlBytes: nat): Option<Row>
    requires !detail.WillBeSent?
  {
    match detail
    case ResponseReceived(response) =>
      if response.None? || response.value.status.None? || !(0 <= response.value.status.value <= 999) ||
         response.value.mimeType.None? || Utf8Bytes(response.value.mimeType.value) > MAX_MIME_BYTES ||
         response.value.fromDiskCache.None? then None
      else Some(row.(status := response.value.status, mimeType := response.value.mimeType,
                     fromDiskCache := response.value.fromDiskCache.value))
    case LoadingFailed(errorText, canceled) =>
      if errorText.None? || Utf8Bytes(errorText.value) > maxUrlBytes || canceled.NotBool? then None
      else Some(row.(failed := true, errorText := errorText, canceled := canceled == Given(true)))
  }

  predicate ValidId(id: Option<string>) {
    id.Some? && id.value != [] && Utf8Bytes(id.value) <= MAX_REQUEST_ID_BYTES
  }

  // ----- the handler

  /** One capture; the method body follows the event handler branch by branch. */
  class Capture {
    const bounds: Bounds
    var entries: seq<Row>
    var byRequestId: map<string, nat>
    var truncated: bool
    var failed: bool

    constructor (bounds: Bounds)
      ensures this.bounds == bounds && View() == START
    {
      this.bounds := bounds;
      entries, byRequestId, truncated, failed := [], map[], false, false;
    }

    ghost function View(): State
      reads this
    {
      State(entries, byRequestId, truncated, failed)
    }

    /** `handleRequestEvent` turns the capture's state into `Handled` of it. */
    method HandleRequestEvent(e: Event)
      requires Indexed(byRequestId, |entries|)
      modifies this
      ensures View() == Handled(bounds, old(View()), e)
    {
      if e.Other? {
        return;
      }
      if !ValidId(e.id) {
        failed := true;
        return;
      }
      if e.detail.WillBeSent? {
        HandleSent(e.id.value, e.detail.request);
      } else if e.id.value in byRequestId {
        HandleUpdate(byRequestId[e.id.value], e.detail);
      }
    }

    method HandleSent(id: string, request: Request)
      modifies this
      ensures View() == Sent(bounds, old(View()), id, request)
    {
      if request.url.NotAUrl? {
        failed := true;
        return;
      }
      var url := PrivateUrl(request.url, bounds.maxUrlBytes);
      if url.None? {
        truncated := true;
        return;
      }
      if !ValidRequest(request) {
        failed := true;
        return;
      }
      if |entries| >= bounds.maxEntries {
        truncated := true;
        return;
      }
      if request.timestamp.None? {
        failed := true;
        return;
      }
      entries := entries + [NewRow(request, url.value)];
      if !Fits(entries, truncated) {
        entries := entries[..|entries| - 1];
        truncated := true;
        return;
      }
      byRequestId := byRequestId[id := |entries| - 1];
    }

    method HandleUpdate(index: nat, detail: Detail)
      requires index < |entries| && !detail.WillBeSent?
      modifies this
      ensures View() == Revised(bounds, old(View()), index, detail)
    {
      var prior := entries[index];
      var row := Updated(prior, detail, bounds.maxUrlBytes);
      if row.None? {
        failed := true;
        return;
      }
      ghost var before := entries;
      entries := entries[index := row.value];
      if !Fits(entries, truncated) {
        entries := entries[index := prior];
        assert entries == before;
        truncated := true;
      }
    }

    /** The listener called with one event after the other. */
    method HandleAll(events: seq<Event>)
      requires View() == START
      modifies this
      ensures View() == Run(bounds, events)
    {
      var i := 0;
      assert events[..0] == [];
      while i < |events|
        invariant i <= |events| && View() == Run(bounds, events[..i])
      {
        RunLawful(bounds, events[..i]);
        HandleRequestEvent(events[i]);
        assert events[..i + 1][..i] == events[..i];
        i := i + 1;
      }
      assert events[..i] == events;
    }
  }

  predicate Indexed(index: map<string, nat>, size: nat) {
    forall id | id in index :: index[id] < size
  }

  function Sent(b: Bounds, s: State, id: string, r: Request): State {
    if r.url.NotAUrl? then s.(failed := true)
    else if PrivateUrl(r.url, b.maxUrlBytes).None? then s.(truncated := true)
    else if !ValidRequest(r) then s.(failed := true)
    else if |s.entries| >= b.maxEntries then s.(truncated := true)
    else if r.timestamp.None? then s.(failed := true)
    else
      var longer := s.entries + [NewRow(r, PrivateUrl(r.url, b.maxUrlBytes).value)];
      if !Fits(longer, s.truncated) then s.(truncated := true)
      else s.(entries := longer, byRequestId := s.byRequestId[id := |s.entries|])
  }

  function Revised(b: Bounds, s: State, index: nat, detail: Detail): State
    requires index < |s.entries| && !detail.WillBeSent?
  {
    var row := Updated(s.entries[index], detail, b.maxUrlBytes);
    if row.None? then s.(failed := true)
    else if !Fits(s.entries[index := row.value], s.truncated) then s.(truncated := true)
    else s.(entries := s.entries[index := row.value])
  }

  function Handled(b: Bounds, s: State, e: Event): State
    requires Indexed(s.byRequestId, |s.entries|)
  {
    if e.Other? then s
    else if !ValidId(e.id) then s.(failed := true)
    else if e.detail.WillBeSent? then Sent(b, s, e.id.value, e.detail.request)
    else if e.id.value in s.byRequestId then Revised(b, s, s.byRequestId[e.id.value], e.detail)
    else s
  }

  function Run(b: Bounds, events: seq<Event>): (s: State)
    ensures Indexed(s.byRequestId, |s.entries|)
  {
    if events == [] then START else Handled(b, Run(b, events[..|events| - 1]), events[|events| - 1])
  }

  // ----- what every run keeps

  /** `ids[i]` is the request id of row `i`; the index of an id is its latest row, and only rows are indexed. */
  ghost predicate LatestIndexed(index: map<string, nat>, ids: seq<string>) {
    (forall id | id in index :: index[id] < |ids| && ids[index[id]] == id) &&
    forall i | 0 <= i < |ids| :: ids[i] in index && i <= index[ids[i]]
  }

  ghost predicate Lawful(b: Bounds, s: State, ids: seq<string>) {
    |s.entries| <= b.maxEntries && CaptureBytes(s.entries, s.truncated) <= 524288 && |ids| == |s.entries| &&
    LatestIndexed(s.byRequestId, ids)
  }

  /** The ids of the retained rows. */
  ghost function Ids(b: Bounds, events: seq<Event>): seq<string> {
    if events == [] then []
    else
      var before, e := Run(b, events[..|events| - 1]), events[|events| - 1];
      Ids(b, events[..|events| - 1]) +
      if |Handled(b, before, e).entries| > |before.entries| && e.Network? && e.id.Some? then [e.id.value] else []
  }

  lemma SentLawful(b: Bounds, s: State, id: string, r: Request, ids: seq<string>)
    requires Lawful(b, s, ids)
    ensures var t := Sent(b, s, id, r);
            |s.entries| <= |t.entries| && Lawful(b, t, if |t.entries| > |s.entries| then ids + [id] else ids)
  {
    FlagShortens(s.entries);
  }

  lemma RevisedLawful(b: Bounds, s: State, index: nat, detail: Detail, ids: seq<string>)
    requires Lawful(b, s, ids) && index < |s.entries| && !detail.WillBeSent?
    ensures Lawful(b, Revised(b, s, index, detail), ids) && |Revised(b, s, index, detail).entries| == |s.entries|
  {
    FlagShortens(s.entries);
  }

  lemma HandledLawful(b: Bounds, s: State, e: Event, ids: seq<string>)
    requires Lawful(b, s, ids)
    ensures var t := Handled(b, s, e);
            Lawful(b, t, ids + if |t.entries| > |s.entries| && e.Network? && e.id.Some? then [e.id.value] else [])
  {
    assert ids + [] == ids;
    if e.Network? && ValidId(e.id) {
      if e.detail.WillBeSent? {
        SentLawful(b, s, e.id.value, e.detail.request, ids);
      } else if e.id.value in s.byRequestId {
        RevisedLawful(b, s, s.byRequestId[e.id.value], e.detail, ids);
      }
    }
  }

  /** For any events: entries and encoding within bounds, and every id's index is its latest retained row. */
  lemma {:induction false} RunLawful(b: Bounds, events: seq<Event>)
    ensures Lawful(b, Run(b, events), Ids(b, events))
    decreases |events|
  {
    if events == [] {
      EmptyFits();
    } else {
      RunLawful(b, events[..|events| - 1]);
      HandledLawful(b, Run(b, events[..|events| - 1]), events[|events| - 1], Ids(b, events[..|events| - 1]));
    }
  }

  /** The rows are those of the same requests, in the same places; a failed one stays failed. */
  predicate RowsStay(before: seq<Row>, now: seq<Row>) {
    |before| <= |now| && forall i | 0 <= i < |before| :: SameRequest(before[i], now[i])
  }

  predicate SameRequest(a: Row, b: Row) {
    a.verb == b.verb && a.url == b.url && a.resourceType == b.resourceType && a.timestamp == b.timestamp &&
    (a.failed ==> b.failed)
  }

  /** Nothing noted or retained is taken back. */
  predicate Sticks(s: State, t: State) {
    (s.truncated ==> t.truncated) && (s.failed ==> t.failed) && RowsStay(s.entries, t.entries)
  }

  lemma SticksOn(s: State, t: State, u: State)
    requires Sticks(s, t) && Sticks(t, u)
    ensures Sticks(s, u)
  {
    forall i | 0 <= i < |s.entries|
      ensures SameRequest(s.entries[i], u.entries[i])
    {
      assert SameRequest(s.entries[i], t.entries[i]) && SameRequest(t.entries[i], u.entries[i]);
    }
  }

  /** Both flags stay on, and every retained row stays where it is and goes on describing the same request. */
  lemma {:induction false} FlagsSticky(b: Bounds, events: seq<Event>, more: seq<Event>)
    ensures Sticks(Run(b, events), Run(b, events + more))
    decreases |more|
  {
    if more == [] {
      assert events + more == events;
    } else {
      var front := more[..|more| - 1];
      FlagsSticky(b, events, front);
      RunSnoc(b, events + front, more[|more| - 1]);
      assert events + more == events + front + [more[|more| - 1]];
      SticksOn(Run(b, events), Run(b, events + front), Run(b, events + more));
    }
  }

  lemma RunSnoc(b: Bounds, events: seq<Event>, e: Event)
    ensures Run(b, events + [e]) == Handled(b, Run(b, events), e)
    ensures Sticks(Run(b, events), Run(b, events + [e]))
  {
    assert (events + [e])[..|events|] == events;
    HandledSticky(b, Run(b, events), e);
  }

  lemma HandledSticky(b: Bounds, s: State, e: Event)
    requires Indexed(s.byRequestId, |s.entries|)
    ensures Sticks(s, Handled(b, s, e))
  {
    if e.Network? && ValidId(e.id) {
      if e.detail.WillBeSent? {
        SentSticky(b, s, e.id.value, e.detail.request);
      } else if e.id.value in s.byRequestId {
        RevisedSticky(b, s, s.byRequestId[e.id.value], e.detail);
      }
    }
  }

  lemma SentSticky(b: Bounds, s: State, id: string, r: Request)
    ensures Sticks(s, Sent(b, s, id, r))
  {
  }

  lemma RevisedSticky(b: Bounds, s: State, i: nat, detail: Detail)
    requires i < |s.entries| && !detail.WillBeSent?
    ensures Sticks(s, Revised(b, s, i, detail))
  {
  }

  // ----- the unbounded meaning

  datatype Table = Table(rows: seq<Row>, latest: map<string, nat>)

  /**
   * The plain reading of an event: a request appends a row, a response or failure fills in the latest row of its id.
   */
  function Plain(t: Table, e: Event): Table {
    if e.Other? || e.id.None? then t
    else if e.detail.WillBeSent? then
      var r := e.detail.request;
      if r.url.Parsed? && ValidRequest(r) && r.timestamp.Some?
      then
        var row := Row(r.verb.value, r.url.href, r.resourceType.value, r.timestamp.value, None, None, false, false,
                       None, false);
        Table(t.rows + [row], t.latest[e.id.value := |t.rows|])
      else t
    else if e.id.value in t.latest && t.latest[e.id.value] < |t.rows| then
      var i := t.latest[e.id.value];
      t.(rows := t.rows[i := Filled(t.rows[i], e.detail)])
    else t
  }

  function Filled(row: Row, detail: Detail): Row
    requires !detail.WillBeSent?
  {
    match detail
    case ResponseReceived(Some(Response(status, mimeType, Some(cached)))) =>
      row.(status := status, mimeType := mimeType, fromDiskCache := cached)
    case LoadingFailed(errorText, canceled) =>
      row.(failed := true, errorText := errorText, canceled := canceled.Given? && canceled.flag)
    case _ => row
  }

  function PlainRun(events: seq<Event>): Table {
    if events == [] then Table([], map[]) else Plain(PlainRun(events[..|events| - 1]), events[|events| - 1])
  }

  /** A capture with neither flag set holds exactly the plain reading of all its events. */
  lemma {:induction false} CleanCaptureIsPlain(b: Bounds, events: seq<Event>)
    ensures var s := Run(b, events);
            !s.truncated && !s.failed ==> PlainRun(events) == Table(s.entries, s.byRequestId)
    decreases |events|
  {
    if events != [] {
      var front := events[..|events| - 1];
      CleanCaptureIsPlain(b, front);
      assert events == front + [events[|events| - 1]];
      FlagsSticky(b, front, [events[|events| - 1]]);
      if !Run(b, events).truncated && !Run(b, events).failed {
        CleanStep(b, Run(b, front), events[|events| - 1]);
      }
    }
  }

  lemma CleanStep(b: Bounds, s: State, e: Event)
    requires Indexed(s.byRequestId, |s.entries|) && !s.truncated && !s.failed
    requires !Handled(b, s, e).truncated && !Handled(b, s, e).failed
    ensures var t := Handled(b, s, e); Plain(Table(s.entries, s.byRequestId), e) == Table(t.entries, t.byRequestId)
  {
  }

  // ----- when neither flag is set

  /** Its method is one to 32 capital letters, its type at most 64 bytes. */
  predicate Typed(r: Request) {
    r.verb.Some? && 1 <= |r.verb.value| <= 32 &&
    (forall i | 0 <= i < |r.verb.value| :: 'A' <= r.verb.value[i] <= 'Z') &&
    r.resourceType.Some? && Utf8Bytes(r.resourceType.value) <= 64
  }

  /** A request that is shown whole: an http or https URL within the bound, a method, a type and a time. */
  predicate Showable(b: Bounds, r: Request) {
    r.url.Parsed? && r.url.http && Utf8Bytes(r.url.href) <= b.maxUrlBytes && Typed(r) && r.timestamp.Some?
  }

  /** A response or a failure that can be filled in. */
  predicate Fillable(b: Bounds, detail: Detail) {
    match detail
    case WillBeSent(_) => false
    case ResponseReceived(None) => false
    case ResponseReceived(Some(r)) =>
      r.status.Some? && 0 <= r.status.value <= 999 && r.mimeType.Some? && Utf8Bytes(r.mimeType.value) <= 1024 &&
      r.fromDiskCache.Some?
    case LoadingFailed(errorText, canceled) =>
      errorText.Some? && Utf8Bytes(errorText.value) <= b.maxUrlBytes && !canceled.NotBool?
  }

  /** The rows, encoded without the flag, take at most 524288 bytes. */
  predicate Holdable(rows: seq<Row>) {
    CaptureBytes(rows, false) <= 524288
  }

  /** The event is well formed, and what it makes of the plain table stays within the limits. */
  predicate Welcome(b: Bounds, t: Table, e: Event) {
    e.Other? ||
    (e.id.Some? && 1 <= |e.id.value| && Utf8Bytes(e.id.value) <= 512 &&
     if e.detail.WillBeSent?
     then Showable(b, e.detail.request) && |t.rows| < b.maxEntries && Holdable(Plain(t, e).rows)
     else e.id.value in t.latest ==> Fillable(b, e.detail) && Holdable(Plain(t, e).rows))
  }

  /** There is no room for it, or its URL is not one that is captured; what is malformed is a failure instead. */
  predicate LeftOut(b: Bounds, t: Table, e: Event) {
    e.Network? && e.id.Some? && 1 <= |e.id.value| && Utf8Bytes(e.id.value) <= 512 &&
    if e.detail.WillBeSent? then
      var r := e.detail.request;
      r.url.Parsed? &&
      (!r.url.http || Utf8Bytes(r.url.href) > b.maxUrlBytes ||
       (Typed(r) && (|t.rows| >= b.maxEntries || (r.timestamp.Some? && !Holdable(Plain(t, e).rows)))))
    else e.id.value in t.latest && Fillable(b, e.detail) && !Holdable(Plain(t, e).rows)
  }

  /** Which of the two flags an unwelcome event sets. */
  lemma LeftOutIff(b: Bounds, s: State, e: Event)
    requires Indexed(s.byRequestId, |s.entries|) && !s.truncated && !s.failed
    ensures Handled(b, s, e).truncated <==> LeftOut(b, Table(s.entries, s.byRequestId), e)
    ensures !(Handled(b, s, e).truncated && Handled(b, s, e).failed)
  {
    if e.Network? && ValidId(e.id) {
      if e.detail.WillBeSent? {
        var r := e.detail.request;
        assert ValidRequest(r) <==> Typed(r);
      } else if e.id.value in s.byRequestId {
        FillableIff(b, s, s.byRequestId[e.id.value], e.detail);
      }
    }
  }

  lemma WelcomeStep(b: Bounds, s: State, e: Event)
    requires Indexed(s.byRequestId, |s.entries|) && !s.truncated && !s.failed
    ensures !Handled(b, s, e).truncated && !Handled(b, s, e).failed <==>
            Welcome(b, Table(s.entries, s.byRequestId), e)
  {
    if e.Network? && ValidId(e.id) {
      if e.detail.WillBeSent? {
        ShowableIff(b, s, e.id.value, e.detail.request);
      } else if e.id.value in s.byRequestId {
        FillableIff(b, s, s.byRequestId[e.id.value], e.detail);
      }
    }
  }

  lemma ShowableIff(b: Bounds, s: State, id: string, r: Request)
    requires !s.truncated && !s.failed
    ensures !Sent(b, s, id, r).truncated && !Sent(b, s, id, r).failed <==>
            Showable(b, r) && |s.entries| < b.maxEntries &&
            Fits(Plain(Table(s.entries, s.byRequestId), Network(Some(id), WillBeSent(r))).rows, false)
  {
    assert Showable(b, r) <==>
           r.url.Parsed? && PrivateUrl(r.url, b.maxUrlBytes).Some? && ValidRequest(r) && r.timestamp.Some?;
  }

  lemma FillableIff(b: Bounds, s: State, index: nat, detail: Detail)
    requires index < |s.entries| && !detail.WillBeSent? && !s.truncated && !s.failed
    ensures !Revised(b, s, index, detail).truncated && !Revised(b, s, index, detail).failed <==>
            Fillable(b, detail) && Fits(s.entries[index := Filled(s.entries[index], detail)], false)
  {
    var row := Updated(s.entries[index], detail, b.maxUrlBytes);
    assert row.Some? <==> Fillable(b, detail);
    assert row.Some? ==> row.value == Filled(s.entries[index], detail);
  }

  /** Neither flag is set exactly when every event is well formed and fits in its turn. */
  lemma {:induction false} CleanIff(b: Bounds, events: seq<Event>)
    ensures !Run(b, events).truncated && !Run(b, events).failed <==>
            forall i | 0 <= i < |events| :: Welcome(b, PlainRun(events[..i]), events[i])
    decreases |events|
  {
    if events != [] {
      var n := |events| - 1;
      var front := events[..n];
      CleanIff(b, front);
      CleanCaptureIsPlain(b, front);
      assert events == front + [events[n]];
      FlagsSticky(b, front, [events[n]]);
      assert forall i | 0 <= i < n :: front[..i] == events[..i];
      if !Run(b, front).truncated && !Run(b, front).failed {
        WelcomeStep(b, Run(b, front), events[n]);
      }
    }
  }
}
