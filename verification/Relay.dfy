/**
 * The native relay between local agents and the extension (browser_executor/native_messaging.py). Handler threads are
 * interleaved at every socket read and every line; a write to the extension holds the output lock and is one step.
 */
module Relay {
  import opened Common
  import opened LineFraming

  type Conn = nat

  datatype Kind = CollaborationQuery | CollaborationListQuery | Job | MutationAuthorized | OtherKind

  /**
   * A decoded object; `exactQuery` says that its only members are `protocol` and `type`, `encodedBytes` is its size
   * when written again.
   */
  datatype Message = Message(
    protocolOk: bool, kind: Kind, exactQuery: bool, jobId: Option<string>, authorized: Option<bool>, body: Bytes,
    encodedBytes: nat)

  /** What the lines in question decode to; a line that is not here is not UTF-8, not JSON or not an object. */
  type Decoder = map<Bytes, Message>

  function Decode(decoder: Decoder, line: Bytes): Option<Message> {
    if line in decoder then Some(decoder[line]) else None
  }

  predicate ValidJobId(id: Option<string>) {
    id.Some? && |id.value| == 36 && forall i | 0 <= i < |id.value| :: HexDigit(id.value[i])
  }

  predicate HexDigit(ch: char) {
    '0' <= ch <= '9' || 'a' <= ch <= 'f'
  }

  predicate IsQuery(m: Message) {
    m.kind == CollaborationQuery || m.kind == CollaborationListQuery
  }

  /** A job id: 36 lower-case hexadecimal digits. */
  predicate GoodId(id: Option<string>) {
    id.Some? && |id.value| == 36 && forall i | 0 <= i < 36 :: id.value[i] in "0123456789abcdef"
  }

  lemma ValidJobIdIff(id: Option<string>)
    ensures ValidJobId(id) <==> GoodId(id)
  {
    if id.Some? && |id.value| == 36 {
      forall i | 0 <= i < 36
        ensures HexDigit(id.value[i]) <==> id.value[i] in "0123456789abcdef"
      {
        HexDigitIff(id.value[i]);
      }
    }
  }

  lemma HexDigitIff(ch: char)
    ensures HexDigit(ch) <==> ch in "0123456789abcdef"
  {
    if HexDigit(ch) {
      var digits := "0123456789abcdef";
      assert digits[if ch <= '9' then ch as int - '0' as int else ch as int - 'a' as int + 10] == ch;
    }
  }

  predicate IsJob(m: Message) {
    m.kind == Job && GoodId(m.jobId)
  }

  predicate IsReply(m: Message) {
    m.kind == MutationAuthorized && m.authorized.Some? && GoodId(m.jobId)
  }

  /** What one connection has done so far. */
  datatype Turn = Turn(job: Option<string>, replied: bool)

  const OPENING := Turn(None, false)

  /** The handler's decision on one line: relay it and go on, or end the connection. */
  datatype Verdict = Relayed(next: Turn) | Answered | Rejected

  function Judge(turn: Turn, decoded: Option<Message>): Verdict {
    if decoded.None? || !decoded.value.protocolOk then Rejected
    else
      var m := decoded.value;
      if turn.job.None? && IsQuery(m) then if m.exactQuery then Answered else Rejected
      else if turn.job.None? then
        if m.kind != Job || !ValidJobId(m.jobId) then Rejected else Relayed(turn.(job := m.jobId))
      else if m.kind != MutationAuthorized || m.jobId != turn.job || turn.replied || m.authorized.None? then Rejected
      else Relayed(turn.(replied := true))
  }

  /**
   * A query of its exact shape is answered before any job; a job is relayed first, and then one reply that names it;
   * everything else is rejected.
   */
  lemma JudgeIff(turn: Turn, m: Message)
    ensures Judge(turn, None) == Rejected
    ensures Judge(turn, Some(m)).Answered? <==>
            m.protocolOk && turn.job.None? && m.exactQuery &&
            (m.kind == CollaborationQuery || m.kind == CollaborationListQuery)
    ensures Judge(turn, Some(m)).Relayed? <==>
            m.protocolOk &&
            if turn.job.None? then IsJob(m)
            else m.kind == MutationAuthorized && m.jobId == turn.job && m.authorized.Some? && !turn.replied
    ensures Judge(turn, Some(m)).Relayed? ==>
            Judge(turn, Some(m)).next == Turn(m.jobId, turn.job.Some? || turn.replied)
  {
    ValidJobIdIff(m.jobId);
  }

  /** The messages of `lines` that a handler relays before it stops, if nothing else stops it. */
  function Admit(decoder: Decoder, turn: Turn, lines: seq<Bytes>): seq<Message>
    decreases |lines|
  {
    if lines == [] || !Passes(decoder, turn, lines[0]) then []
    else [Decode(decoder, lines[0]).value] + Admit(decoder, Judge(turn, Decode(decoder, lines[0])).next, lines[1..])
  }

  /** The line is relayed and the handler goes on. */
  predicate Passes(decoder: Decoder, turn: Turn, line: Bytes) {
    Judge(turn, Decode(decoder, line)).Relayed? && Decode(decoder, line).value.encodedBytes <= MAX_MESSAGE_BYTES
  }

  /** Where the handler stands after `lines`, unless one of them made it stop. */
  function After(decoder: Decoder, turn: Turn, lines: seq<Bytes>): Option<Turn>
    decreases |lines|
  {
    if lines == [] then Some(turn)
    else if !Passes(decoder, turn, lines[0]) then None
    else After(decoder, Judge(turn, Decode(decoder, lines[0])).next, lines[1..])
  }

  /** What follows the lines `a` is admitted from where they left the handler. */
  function AdmitRest(decoder: Decoder, mid: Option<Turn>, b: seq<Bytes>): seq<Message> {
    if mid.Some? then Admit(decoder, mid.value, b) else []
  }

  lemma {:induction false} AdmitConcat(decoder: Decoder, turn: Turn, a: seq<Bytes>, b: seq<Bytes>)
    ensures
      var mid := After(decoder, turn, a);
      Admit(decoder, turn, a + b) == Admit(decoder, turn, a) + AdmitRest(decoder, mid, b) &&
      After(decoder, turn, a + b) == if mid.Some? then After(decoder, mid.value, b) else None
    decreases |a|
  {
    if a == [] {
      assert a + b == b;
    } else if Passes(decoder, turn, a[0]) {
      var next := Judge(turn, Decode(decoder, a[0])).next;
      assert (a + b)[1..] == a[1..] + b;
      AdmitConcat(decoder, next, a[1..], b);
      Regroup([Decode(decoder, a[0]).value], Admit(decoder, next, a[1..]),
              AdmitRest(decoder, After(decoder, next, a[1..]), b));
    }
  }

  lemma AdmitOne(decoder: Decoder, turn: Turn, line: Bytes)
    requires Passes(decoder, turn, line)
    ensures Admit(decoder, turn, [line]) == [Decode(decoder, line).value]
    ensures After(decoder, turn, [line]) == Some(Judge(turn, Decode(decoder, line)).next)
  {
    var one, next := [line], Judge(turn, Decode(decoder, line)).next;
    assert one[0] == line && one[1..] == [];
    assert Admit(decoder, next, []) == [] && After(decoder, next, []) == Some(next);
  }

  /** One connection's share of the traffic: nothing, a job, or a job and one reply for that same job. */
  predicate BlockShape(items: seq<Message>) {
    |items| <= 2 && (|items| >= 1 ==> IsJob(items[0])) &&
    (|items| == 2 ==> IsReply(items[1]) && items[1].jobId == items[0].jobId)
  }

  lemma AdmitShape(decoder: Decoder, lines: seq<Bytes>, n: nat)
    requires n <= |Admit(decoder, OPENING, lines)|
    ensures BlockShape(Admit(decoder, OPENING, lines)[..n])
  {
    if lines != [] && Passes(decoder, OPENING, lines[0]) {
      var asked := Judge(OPENING, Decode(decoder, lines[0])).next;
      var rest := lines[1..];
      ValidJobIdIff(Decode(decoder, lines[0]).value.jobId);
      if rest != [] && Passes(decoder, asked, rest[0]) {
        NothingAfterReply(decoder, Judge(asked, Decode(decoder, rest[0])).next, rest[1..]);
      }
    }
  }

  lemma NothingAfterReply(decoder: Decoder, turn: Turn, lines: seq<Bytes>)
    requires turn.job.Some? && turn.replied
    ensures Admit(decoder, turn, lines) == []
  {
  }

  /** A job and a reply to it, each of which the relay passes on. */
  predicate HonestPair(decoder: Decoder, job: Bytes, reply: Bytes) {
    Decode(decoder, job).Some? && Decode(decoder, job).value.protocolOk && IsJob(Decode(decoder, job).value) &&
    Decode(decoder, reply).Some? && Decode(decoder, reply).value.protocolOk && IsReply(Decode(decoder, reply).value) &&
    Decode(decoder, reply).value.jobId == Decode(decoder, job).value.jobId &&
    Decode(decoder, job).value.encodedBytes <= MAX_MESSAGE_BYTES &&
    Decode(decoder, reply).value.encodedBytes <= MAX_MESSAGE_BYTES
  }

  /** An agent that sends its job and later one reply has both admitted, whatever it sends afterwards. */
  lemma HonestAgentRelayed(decoder: Decoder, job: Bytes, reply: Bytes, more: seq<Bytes>)
    requires HonestPair(decoder, job, reply)
    ensures Admit(decoder, OPENING, [job, reply] + more) == [Decode(decoder, job).value, Decode(decoder, reply).value]
  {
    var asked := Turn(Decode(decoder, job).value.jobId, false);
    var done := asked.(replied := true);
    ValidJobIdIff(Decode(decoder, job).value.jobId);
    assert [job, reply] + more == [job] + ([reply] + more);
    AdmitConcat(decoder, OPENING, [job], [reply] + more);
    AdmitConcat(decoder, asked, [reply], more);
    NothingAfterReply(decoder, done, more);
  }

  // ----- the relay

  datatype Handler = Reading(buffer: Bytes, turn: Turn) | Ended

  datatype Output = Notice | FromAgent(conn: Conn, message: Message)

  /** A relayed message and the connection it came from. */
  datatype Item = Item(conn: Conn, message: Message)

  /** What of one connection was relayed. */
  datatype Block = Block(conn: Conn, items: seq<Message>)

  function AgentTraffic(sent: seq<Output>): seq<Item> {
    if sent == [] then []
    else AgentTraffic(sent[..|sent| - 1]) + AgentPart(sent[|sent| - 1])
  }

  function AgentPart(o: Output): seq<Item> {
    if o.FromAgent? then [Item(o.conn, o.message)] else []
  }

  function Traffic(blocks: seq<Block>): seq<Item> {
    if blocks == [] then [] else Traffic(blocks[..|blocks| - 1]) + Tagged(blocks[|blocks| - 1])
  }

  function Tagged(b: Block): seq<Item> {
    seq(|b.items|, i requires 0 <= i < |b.items| => Item(b.conn, b.items[i]))
  }

  /** The messages of one connection, in order. */
  function From(traffic: seq<Item>, c: Conn): seq<Message> {
    if traffic == [] then []
    else From(traffic[..|traffic| - 1], c) + FromPart(traffic[|traffic| - 1], c)
  }

  function FromPart(item: Item, c: Conn): seq<Message> {
    if item.conn == c then [item.message] else []
  }

  lemma AgentTrafficSnoc(sent: seq<Output>, o: Output)
    ensures AgentTraffic(sent + [o]) == AgentTraffic(sent) + AgentPart(o)
  {
    assert (sent + [o])[..|sent|] == sent;
  }

  lemma TrafficSnoc(blocks: seq<Block>, last: Block)
    ensures Traffic(blocks + [last]) == Traffic(blocks) + Tagged(last)
  {
    assert (blocks + [last])[..|blocks|] == blocks;
  }

  /** The order of the threads: who connects, what a socket read returns or raises, when a line is handled. */
  datatype Event =
    | Connect(conn: Conn)
    | Receive(conn: Conn, chunk: Bytes)
    | HandleLine(conn: Conn, writable: bool)
    | SocketFails(conn: Conn)
    | WriteNotice

  /** All bytes that the relay read from connection `c`. */
  function Received(trace: seq<Event>, c: Conn): Bytes {
    if trace == [] then []
    else Received(trace[..|trace| - 1], c) + ChunkOf(trace[|trace| - 1], c)
  }

  function ChunkOf(e: Event, c: Conn): Bytes {
    if e.Receive? && e.conn == c then e.chunk else []
  }

  lemma ReceivedSnoc(trace: seq<Event>, e: Event, c: Conn)
    ensures Received(trace + [e], c) == Received(trace, c) + ChunkOf(e, c)
  {
    assert (trace + [e])[..|trace|] == trace;
  }

  // ----- the relay as a value, event by event

  /** `handlers` holds the local variables of each handler thread. */
  datatype View = View(agent: Option<Conn>, handlers: map<Conn, Handler>, sent: seq<Output>)

  predicate Enabled(hs: map<Conn, Handler>, e: Event) {
    match e
    case Connect(c) => c !in hs
    case Receive(c, _) => c in hs && hs[c].Reading? && NEWLINE !in hs[c].buffer
    case HandleLine(c, _) => c in hs && hs[c].Reading? && NEWLINE in hs[c].buffer
    case SocketFails(c) => c in hs && hs[c].Reading?
    case WriteNotice => true
  }

  function Ending(v: View, c: Conn): View {
    View(if v.agent == Some(c) then None else v.agent, v.handlers[c := Ended], v.sent)
  }

  predicate EndsReading(h: Handler, chunk: Bytes)
    requires h.Reading?
  {
    chunk == [] || |h.buffer + chunk| > MAX_MESSAGE_BYTES
  }

  /** The handler after its next line, which passes. */
  function NextHandler(decoder: Decoder, h: Handler): Handler
    requires h.Reading? && NEWLINE in h.buffer && Passes(decoder, h.turn, FirstLine(h.buffer))
  {
    Reading(AfterLine(h.buffer), Judge(h.turn, Decode(decoder, FirstLine(h.buffer))).next)
  }

  function StepOf(decoder: Decoder, v: View, e: Event): View
    requires Enabled(v.handlers, e)
  {
    match e
    case Connect(c) =>
      if v.agent.Some? then v.(handlers := v.handlers[c := Ended])
      else v.(agent := Some(c), handlers := v.handlers[c := Reading([], OPENING)])
    case Receive(c, chunk) =>
      var h := v.handlers[c];
      if EndsReading(h, chunk) then Ending(v, c)
      else v.(handlers := v.handlers[c := h.(buffer := h.buffer + chunk)])
    case HandleLine(c, writable) =>
      var h := v.handlers[c];
      var line := FirstLine(h.buffer);
      if Passes(decoder, h.turn, line) && writable
      then View(v.agent, v.handlers[c := NextHandler(decoder, h)],
                v.sent + [FromAgent(c, Decode(decoder, line).value)])
      else Ending(v, c)
    case SocketFails(c) => Ending(v, c)
    case WriteNotice => v.(sent := v.sent + [Notice])
  }

  /** The relay after those of the events that can happen when their turn comes. */
  function Steps(decoder: Decoder, v: View, events: seq<Event>): View {
    if events == [] then v
    else
      var w := Steps(decoder, v, events[..|events| - 1]);
      var e := events[|events| - 1];
      if Enabled(w.handlers, e) then StepOf(decoder, w, e) else w
  }

  /** Those events. */
  function Happened(decoder: Decoder, v: View, events: seq<Event>): seq<Event> {
    if events == [] then []
    else
      var front := events[..|events| - 1];
      var e := events[|events| - 1];
      Happened(decoder, v, front) + if Enabled(Steps(decoder, v, front).handlers, e) then [e] else []
  }

  lemma StepsSnoc(decoder: Decoder, v: View, events: seq<Event>, e: Event)
    ensures var w := Steps(decoder, v, events);
            Steps(decoder, v, events + [e]) == (if Enabled(w.handlers, e) then StepOf(decoder, w, e) else w) &&
            Happened(decoder, v, events + [e]) ==
              Happened(decoder, v, events) + if Enabled(w.handlers, e) then [e] else []
  {
    assert (events + [e])[..|events|] == events;
  }

  /** `v` and `trace` are what `v0` and `trace0` became under `events`. */
  ghost predicate Followed(
      decoder: Decoder, v0: View, trace0: seq<Event>, events: seq<Event>, v: View, trace: seq<Event>)
  {
    v == Steps(decoder, v0, events) && trace == trace0 + Happened(decoder, v0, events) && v0.sent <= v.sent
  }

  lemma FollowedAtFirst(decoder: Decoder, v: View, trace: seq<Event>)
    ensures Followed(decoder, v, trace, [], v, trace)
  {
  }

  lemma FollowedSkip(decoder: Decoder, v0: View, trace0: seq<Event>, events: seq<Event>, v: View, trace: seq<Event>,
                     e: Event)
    requires Followed(decoder, v0, trace0, events, v, trace) && !Enabled(v.handlers, e)
    ensures Followed(decoder, v0, trace0, events + [e], v, trace)
  {
    StepsSnoc(decoder, v0, events, e);
  }

  lemma FollowedStep(decoder: Decoder, v0: View, trace0: seq<Event>, events: seq<Event>, v: View, trace: seq<Event>,
                     e: Event, v': View)
    requires Followed(decoder, v0, trace0, events, v, trace) && Enabled(v.handlers, e)
    requires v' == StepOf(decoder, v, e) && v.sent <= v'.sent
    ensures Followed(decoder, v0, trace0, events + [e], v', trace + [e])
  {
    StepsSnoc(decoder, v0, events, e);
    Regroup(trace0, Happened(decoder, v0, events), [e]);
  }

  // ----- the invariant

  /** The blocks of ended connections, the current one's, its lines that were relayed, and all events so far. */
  datatype Ledger = Ledger(closed: seq<Block>, current: Block, handled: seq<Bytes>, trace: seq<Event>)

  /** What was relayed of one connection is a prefix of what its bytes may have relayed. */
  ghost predicate BlockOk(decoder: Decoder, trace: seq<Event>, b: Block) {
    b.items <= Admit(decoder, OPENING, Lines(Received(trace, b.conn)))
  }

  ghost predicate Served(decoder: Decoder, trace: seq<Event>, hs: map<Conn, Handler>, blocks: seq<Block>) {
    (forall i | 0 <= i < |blocks| :: BlockOk(decoder, trace, blocks[i]) && blocks[i].conn in hs) &&
    OwnConnections(blocks)
  }

  ghost predicate OwnConnections(blocks: seq<Block>) {
    forall i, k | 0 <= i < k < |blocks| :: blocks[i].conn != blocks[k].conn
  }

  ghost predicate Apart(blocks: seq<Block>, c: Conn) {
    forall i | 0 <= i < |blocks| :: blocks[i].conn != c
  }

  /** The current agent has had `lines` handled, each of them relayed, and the rest is in its buffer. */
  ghost predicate InTurn(decoder: Decoder, received: Bytes, items: seq<Message>, lines: seq<Bytes>, h: Handler) {
    h.Reading? && Lines(received) == lines + Lines(h.buffer) && Rest(received) == Rest(h.buffer) &&
    After(decoder, OPENING, lines) == Some(h.turn) && items == Admit(decoder, OPENING, lines)
  }

  /** Only the slot's holder reads, and it is in turn. */
  ghost predicate Serving(decoder: Decoder, holder: Option<Conn>, hs: map<Conn, Handler>, l: Ledger) {
    (forall c | c in hs && hs[c].Reading? :: holder == Some(c)) &&
    (holder.Some? ==>
       holder.value in hs && l.current.conn == holder.value && Apart(l.closed, holder.value) &&
       InTurn(decoder, Received(l.trace, holder.value), l.current.items, l.handled, hs[holder.value]))
  }

  ghost predicate Accounted(holder: Option<Conn>, out: seq<Output>, l: Ledger) {
    AgentTraffic(out) == Traffic(l.closed) + if holder.Some? then Tagged(l.current) else []
  }

  /** Nothing has been read from a connection that was never made. */
  ghost predicate Heard(hs: map<Conn, Handler>, trace: seq<Event>) {
    forall c | c !in hs :: Received(trace, c) == []
  }

  ghost predicate Consistent(decoder: Decoder, v: View, l: Ledger) {
    Accounted(v.agent, v.sent, l) && Served(decoder, l.trace, v.handlers, l.closed) &&
    Serving(decoder, v.agent, v.handlers, l) && Heard(v.handlers, l.trace)
  }

  lemma AdmitGrows(decoder: Decoder, a: Bytes, b: Bytes)
    ensures Admit(decoder, OPENING, Lines(a)) <= Admit(decoder, OPENING, Lines(a + b))
  {
    LinesAppend(a, b);
    AdmitConcat(decoder, OPENING, Lines(a), Lines(Rest(a) + b));
  }

  lemma ServedGrows(
      decoder: Decoder, trace: seq<Event>, hs: map<Conn, Handler>, blocks: seq<Block>, e: Event,
      hs': map<Conn, Handler>)
    requires Served(decoder, trace, hs, blocks) && hs.Keys <= hs'.Keys
    ensures Served(decoder, trace + [e], hs', blocks)
  {
    forall i | 0 <= i < |blocks|
      ensures BlockOk(decoder, trace + [e], blocks[i]) && blocks[i].conn in hs'
    {
      var c := blocks[i].conn;
      assert BlockOk(decoder, trace, blocks[i]);
      ReceivedSnoc(trace, e, c);
      AdmitGrows(decoder, Received(trace, c), ChunkOf(e, c));
    }
  }

  lemma HeardGrows(hs: map<Conn, Handler>, trace: seq<Event>, e: Event, hs': map<Conn, Handler>)
    requires Heard(hs, trace) && hs.Keys <= hs'.Keys && (e.Receive? ==> e.conn in hs')
    ensures Heard(hs', trace + [e])
  {
    forall c | c !in hs'
      ensures Received(trace + [e], c) == []
    {
      ReceivedSnoc(trace, e, c);
    }
  }

  /** The current agent makes a step of its own. */
  lemma Stepped(decoder: Decoder, v: View, l: Ledger, e: Event, c: Conn, h': Handler, out': seq<Output>, l': Ledger)
    requires Consistent(decoder, v, l) && v.agent == Some(c) && (e.Receive? ==> e.conn == c)
    requires Accounted(Some(c), out', l') && l'.closed == l.closed && l'.current.conn == c && l'.trace == l.trace + [e]
    requires InTurn(decoder, Received(l'.trace, c), l'.current.items, l'.handled, h')
    ensures Consistent(decoder, View(Some(c), v.handlers[c := h'], out'), l')
  {
    ServedGrows(decoder, l.trace, v.handlers, l.closed, e, v.handlers[c := h']);
    HeardGrows(v.handlers, l.trace, e, v.handlers[c := h']);
  }

  lemma ReceivedQuiet(trace: seq<Event>, e: Event, c: Conn)
    requires ChunkOf(e, c) == []
    ensures Received(trace + [e], c) == Received(trace, c)
  {
    ReceivedSnoc(trace, e, c);
  }

  lemma ServingStays(
      decoder: Decoder, holder: Option<Conn>, hs: map<Conn, Handler>, l: Ledger, e: Event, hs': map<Conn, Handler>)
    requires Serving(decoder, holder, hs, l) && !e.Receive? && hs.Keys <= hs'.Keys
    requires forall c | c in hs' && hs'[c].Reading? :: c in hs && hs'[c] == hs[c]
    requires holder.Some? ==> hs'[holder.value] == hs[holder.value]
    ensures Serving(decoder, holder, hs', l.(trace := l.trace + [e]))
  {
    if holder.Some? {
      ReceivedQuiet(l.trace, e, holder.value);
    }
  }

  /** An event that the current agent, if any, takes no part in. */
  lemma Elsewhere(decoder: Decoder, v: View, l: Ledger, e: Event, hs': map<Conn, Handler>, out': seq<Output>)
    requires Consistent(decoder, v, l) && !e.Receive? && v.handlers.Keys <= hs'.Keys
    requires forall c | c in hs' && hs'[c].Reading? :: c in v.handlers && hs'[c] == v.handlers[c]
    requires v.agent.Some? && v.agent.value in v.handlers ==> hs'[v.agent.value] == v.handlers[v.agent.value]
    requires Accounted(v.agent, out', l)
    ensures Consistent(decoder, View(v.agent, hs', out'), l.(trace := l.trace + [e]))
  {
    ServingStays(decoder, v.agent, v.handlers, l, e, hs');
    ServedGrows(decoder, l.trace, v.handlers, l.closed, e, hs');
    HeardGrows(v.handlers, l.trace, e, hs');
  }

  lemma NotifyKeeps(decoder: Decoder, v: View, l: Ledger)
    requires Consistent(decoder, v, l)
    ensures Consistent(decoder, v.(sent := v.sent + [Notice]), l.(trace := l.trace + [WriteNotice]))
  {
    AgentTrafficSnoc(v.sent, Notice);
    Elsewhere(decoder, v, l, WriteNotice, v.handlers, v.sent + [Notice]);
  }

  /** Whoever reads holds the slot. */
  lemma ReaderHolds(decoder: Decoder, v: View, l: Ledger, c: Conn)
    requires Consistent(decoder, v, l) && c in v.handlers && v.handlers[c].Reading?
    ensures v.agent == Some(c) && l.current.conn == c && Accounted(Some(c), v.sent, l)
    ensures InTurn(decoder, Received(l.trace, c), l.current.items, l.handled, v.handlers[c])
  {
  }

  lemma NobodyInTurn(decoder: Decoder)
    ensures InTurn(decoder, [], [], [], Reading([], OPENING))
  {
  }

  lemma RefusalKeeps(decoder: Decoder, v: View, l: Ledger, c: Conn)
    requires Consistent(decoder, v, l) && c !in v.handlers && v.agent.Some?
    ensures Consistent(decoder, v.(handlers := v.handlers[c := Ended]), l.(trace := l.trace + [Connect(c)]))
  {
    Elsewhere(decoder, v, l, Connect(c), v.handlers[c := Ended], v.sent);
  }

  lemma NewcomerApart(decoder: Decoder, trace: seq<Event>, hs: map<Conn, Handler>, blocks: seq<Block>, c: Conn)
    requires Served(decoder, trace, hs, blocks) && Heard(hs, trace) && c !in hs
    ensures Apart(blocks, c) && Received(trace + [Connect(c)], c) == []
  {
    ReceivedQuiet(trace, Connect(c), c);
  }

  lemma NewcomerServing(decoder: Decoder, hs: map<Conn, Handler>, blocks: seq<Block>, trace: seq<Event>, c: Conn)
    requires (forall d | d in hs :: !hs[d].Reading?) && Apart(blocks, c) && Received(trace, c) == []
    ensures Serving(decoder, Some(c), hs[c := Reading([], OPENING)], Ledger(blocks, Block(c, []), [], trace))
  {
    NobodyInTurn(decoder);
  }

  lemma AcceptKeeps(decoder: Decoder, v: View, l: Ledger, c: Conn)
    requires Consistent(decoder, v, l) && c !in v.handlers && v.agent.None?
    ensures Consistent(decoder, View(Some(c), v.handlers[c := Reading([], OPENING)], v.sent),
                       Ledger(l.closed, Block(c, []), [], l.trace + [Connect(c)]))
  {
    var hs' := v.handlers[c := Reading([], OPENING)];
    NewcomerApart(decoder, l.trace, v.handlers, l.closed, c);
    NewcomerServing(decoder, v.handlers, l.closed, l.trace + [Connect(c)], c);
    ServedGrows(decoder, l.trace, v.handlers, l.closed, Connect(c), hs');
    HeardGrows(v.handlers, l.trace, Connect(c), hs');
    assert Tagged(Block(c, [])) == [];
  }

  lemma OneMoreMessage(c: Conn, out: seq<Output>, l: Ledger, m: Message, l': Ledger)
    requires Accounted(Some(c), out, l) && l.current.conn == c && l'.closed == l.closed
    requires l'.current == l.current.(items := l.current.items + [m])
    ensures Accounted(Some(c), out + [FromAgent(c, m)], l')
  {
    AgentTrafficSnoc(out, FromAgent(c, m));
    TaggedSnoc(l.current, m);
    Regroup(Traffic(l.closed), Tagged(l.current), [Item(c, m)]);
  }

  lemma GrowKeepsTurn(
      decoder: Decoder, received: Bytes, items: seq<Message>, lines: seq<Bytes>, h: Handler, chunk: Bytes)
    requires InTurn(decoder, received, items, lines, h) && NEWLINE !in h.buffer
    ensures InTurn(decoder, received + chunk, items, lines, h.(buffer := h.buffer + chunk))
  {
    LinesAppend(received, chunk);
    assert lines + [] == lines;
  }

  lemma HandledKeepsTurn(decoder: Decoder, received: Bytes, items: seq<Message>, lines: seq<Bytes>, h: Handler)
    requires InTurn(decoder, received, items, lines, h) && NEWLINE in h.buffer
    requires Passes(decoder, h.turn, FirstLine(h.buffer))
    ensures var line := FirstLine(h.buffer);
            InTurn(decoder, received, items + [Decode(decoder, line).value], lines + [line], NextHandler(decoder, h))
  {
    var line := FirstLine(h.buffer);
    AdmitConcat(decoder, OPENING, lines, [line]);
    AdmitOne(decoder, h.turn, line);
    Regroup(lines, [line], Lines(AfterLine(h.buffer)));
  }

  lemma ReceiveKeeps(decoder: Decoder, v: View, l: Ledger, c: Conn, chunk: Bytes)
    requires Consistent(decoder, v, l) && Enabled(v.handlers, Receive(c, chunk))
    ensures Consistent(decoder, v.(handlers := v.handlers[c := v.handlers[c].(buffer := v.handlers[c].buffer + chunk)]),
                       l.(trace := l.trace + [Receive(c, chunk)]))
  {
    var h := v.handlers[c];
    ReceivedSnoc(l.trace, Receive(c, chunk), c);
    GrowKeepsTurn(decoder, Received(l.trace, c), l.current.items, l.handled, h, chunk);
    Stepped(decoder, v, l, Receive(c, chunk), c, h.(buffer := h.buffer + chunk), v.sent,
            l.(trace := l.trace + [Receive(c, chunk)]));
  }

  /** The ledger after the current agent's next line was relayed. */
  ghost function NextLedger(l: Ledger, line: Bytes, m: Message, e: Event): Ledger {
    Ledger(l.closed, l.current.(items := l.current.items + [m]), l.handled + [line], l.trace + [e])
  }

  lemma RelayKeepsTurn(decoder: Decoder, l: Ledger, c: Conn, h: Handler, e: Event)
    requires InTurn(decoder, Received(l.trace, c), l.current.items, l.handled, h) && NEWLINE in h.buffer && !e.Receive?
    requires Passes(decoder, h.turn, FirstLine(h.buffer))
    ensures var line := FirstLine(h.buffer);
            var m := Decode(decoder, line).value;
            InTurn(decoder, Received(l.trace + [e], c), l.current.items + [m], l.handled + [line],
                   NextHandler(decoder, h))
  {
    ReceivedQuiet(l.trace, e, c);
    HandledKeepsTurn(decoder, Received(l.trace, c), l.current.items, l.handled, h);
  }

  lemma RelayKeeps(decoder: Decoder, v: View, l: Ledger, c: Conn, e: Event)
    requires Consistent(decoder, v, l) && e.HandleLine? && e.conn == c && Enabled(v.handlers, e)
    requires Passes(decoder, v.handlers[c].turn, FirstLine(v.handlers[c].buffer))
    ensures var h := v.handlers[c];
            var line := FirstLine(h.buffer);
            var m := Decode(decoder, line).value;
            Consistent(decoder, View(v.agent, v.handlers[c := NextHandler(decoder, h)], v.sent + [FromAgent(c, m)]),
                       NextLedger(l, line, m, e))
  {
    var h := v.handlers[c];
    var line := FirstLine(h.buffer);
    var m := Decode(decoder, line).value;
    ReaderHolds(decoder, v, l, c);
    RelayKeepsTurn(decoder, l, c, h, e);
    OneMoreMessage(c, v.sent, l, m, NextLedger(l, line, m, e));
    Stepped(decoder, v, l, e, c, NextHandler(decoder, h), v.sent + [FromAgent(c, m)], NextLedger(l, line, m, e));
  }

  lemma CurrentIsOk(decoder: Decoder, trace: seq<Event>, b: Block, lines: seq<Bytes>, h: Handler)
    requires InTurn(decoder, Received(trace, b.conn), b.items, lines, h)
    ensures BlockOk(decoder, trace, b)
  {
    AdmitConcat(decoder, OPENING, lines, Lines(h.buffer));
  }

  lemma OneMoreBlock(decoder: Decoder, trace: seq<Event>, hs: map<Conn, Handler>, blocks: seq<Block>, b: Block)
    requires Served(decoder, trace, hs, blocks) && BlockOk(decoder, trace, b) && b.conn in hs && Apart(blocks, b.conn)
    ensures Served(decoder, trace, hs, blocks + [b]) && Traffic(blocks + [b]) == Traffic(blocks) + Tagged(b)
  {
    TrafficSnoc(blocks, b);
    OwnSnoc(blocks, b);
    var more := blocks + [b];
    forall i | 0 <= i < |more|
      ensures BlockOk(decoder, trace, more[i]) && more[i].conn in hs
    {
      assert more[i] == if i < |blocks| then blocks[i] else b;
    }
  }

  lemma OwnSnoc(blocks: seq<Block>, b: Block)
    requires OwnConnections(blocks) && Apart(blocks, b.conn)
    ensures OwnConnections(blocks + [b])
  {
  }

  lemma CloseKeeps(decoder: Decoder, v: View, l: Ledger, c: Conn, e: Event)
    requires Consistent(decoder, v, l) && c in v.handlers && v.handlers[c].Reading? && (e.Receive? ==> e.conn == c)
    ensures v.agent == Some(c)
    ensures Consistent(decoder, Ending(v, c), l.(closed := l.closed + [l.current], trace := l.trace + [e]))
  {
    CurrentIsOk(decoder, l.trace, l.current, l.handled, v.handlers[c]);
    OneMoreBlock(decoder, l.trace, v.handlers, l.closed, l.current);
    ServedGrows(decoder, l.trace, v.handlers, l.closed + [l.current], e, v.handlers[c := Ended]);
    HeardGrows(v.handlers, l.trace, e, v.handlers[c := Ended]);
  }

  // ----- what the extension sees

  ghost predicate Splits(blocks: seq<Block>, traffic: seq<Item>) {
    Traffic(blocks) == traffic && (forall i | 0 <= i < |blocks| :: BlockShape(blocks[i].items)) &&
    OwnConnections(blocks)
  }

  /** The traffic falls into blocks "job j" or "job j, one reply for j", each sent by a connection of its own. */
  ghost predicate Blockwise(traffic: seq<Item>) {
    exists blocks :: Splits(blocks, traffic)
  }

  /** Of each connection's bytes, a prefix of what they may have relayed was relayed, in order. */
  ghost predicate InOrder(decoder: Decoder, trace: seq<Event>, traffic: seq<Item>) {
    forall c :: From(traffic, c) <= Admit(decoder, OPENING, Lines(Received(trace, c)))
  }

  lemma {:induction false} FromConcat(a: seq<Item>, b: seq<Item>, c: Conn)
    ensures From(a + b, c) == From(a, c) + From(b, c)
    decreases |b|
  {
    if b == [] {
      assert a + b == a;
    } else {
      var front, last := b[..|b| - 1], b[|b| - 1];
      assert (a + b)[..|a + b| - 1] == a + front && (a + b)[|a + b| - 1] == last;
      FromConcat(a, front, c);
      Regroup(From(a, c), From(front, c), FromPart(last, c));
    }
  }

  lemma TaggedSnoc(b: Block, m: Message)
    ensures Tagged(b.(items := b.items + [m])) == Tagged(b) + [Item(b.conn, m)]
  {
  }

  lemma {:induction false} FromTagged(b: Block, c: Conn)
    ensures From(Tagged(b), c) == if c == b.conn then b.items else []
    decreases |b.items|
  {
    if b.items != [] {
      var n := |b.items| - 1;
      var front := b.(items := b.items[..n]);
      FromTagged(front, c);
      TakeOneMore(b.items, n);
      TaggedSnoc(front, b.items[n]);
      assert b.items[..n + 1] == b.items;
      FromConcat(Tagged(front), [Item(b.conn, b.items[n])], c);
      FromSingle(Item(b.conn, b.items[n]), c);
    }
  }

  lemma FromSingle(item: Item, c: Conn)
    ensures From([item], c) == FromPart(item, c)
  {
    assert [item][..0] == [];
  }

  lemma {:induction false} FromApart(blocks: seq<Block>, c: Conn)
    requires Apart(blocks, c)
    ensures From(Traffic(blocks), c) == []
    decreases |blocks|
  {
    if blocks != [] {
      var front, last := blocks[..|blocks| - 1], blocks[|blocks| - 1];
      FromApart(front, c);
      FromSnoc(front, last, c);
    }
  }

  lemma FromSnoc(front: seq<Block>, last: Block, c: Conn)
    ensures From(Traffic(front) + Tagged(last), c) ==
            From(Traffic(front), c) + if c == last.conn then last.items else []
  {
    FromConcat(Traffic(front), Tagged(last), c);
    FromTagged(last, c);
  }

  ghost predicate HasBlock(blocks: seq<Block>, b: Block) {
    exists i | 0 <= i < |blocks| :: blocks[i] == b
  }

  /** A connection's messages are those of its one block, if it has one. */
  lemma {:induction false} FromOwnBlock(blocks: seq<Block>, c: Conn)
    requires OwnConnections(blocks)
    ensures From(Traffic(blocks), c) == [] || HasBlock(blocks, Block(c, From(Traffic(blocks), c)))
    decreases |blocks|
  {
    if blocks != [] {
      var n := |blocks| - 1;
      var front, last := blocks[..n], blocks[n];
      FromSnoc(front, last, c);
      if c == last.conn {
        FromApart(front, c);
        assert blocks[n] == Block(c, last.items);
      } else {
        FromOwnBlock(front, c);
        if HasBlock(front, Block(c, From(Traffic(front), c))) {
          var i :| 0 <= i < n && front[i] == Block(c, From(Traffic(front), c));
          assert blocks[i] == front[i];
        }
      }
    }
  }

  lemma ServedInOrder(decoder: Decoder, trace: seq<Event>, hs: map<Conn, Handler>, blocks: seq<Block>)
    requires Served(decoder, trace, hs, blocks)
    ensures InOrder(decoder, trace, Traffic(blocks))
  {
    forall c: Conn
      ensures From(Traffic(blocks), c) <= Admit(decoder, OPENING, Lines(Received(trace, c)))
    {
      FromOwnBlock(blocks, c);
    }
  }

  lemma ServedTraffic(decoder: Decoder, trace: seq<Event>, hs: map<Conn, Handler>, blocks: seq<Block>)
    requires Served(decoder, trace, hs, blocks)
    ensures Blockwise(Traffic(blocks)) && InOrder(decoder, trace, Traffic(blocks))
  {
    forall i | 0 <= i < |blocks|
      ensures BlockShape(blocks[i].items)
    {
      ShapedBlock(decoder, trace, blocks[i]);
    }
    assert Splits(blocks, Traffic(blocks));
    ServedInOrder(decoder, trace, hs, blocks);
  }

  lemma ShapedBlock(decoder: Decoder, trace: seq<Event>, b: Block)
    requires BlockOk(decoder, trace, b)
    ensures BlockShape(b.items)
  {
    var lines := Lines(Received(trace, b.conn));
    AdmitShape(decoder, lines, |b.items|);
    PrefixIsTake(b.items, Admit(decoder, OPENING, lines));
  }

  /** All blocks: the closed ones and the current one's. */
  lemma AllBlocks(decoder: Decoder, v: View, l: Ledger) returns (blocks: seq<Block>)
    requires Consistent(decoder, v, l)
    ensures Served(decoder, l.trace, v.handlers, blocks) && Traffic(blocks) == AgentTraffic(v.sent)
  {
    blocks := l.closed;
    if v.agent.Some? {
      CurrentIsOk(decoder, l.trace, l.current, l.handled, v.handlers[v.agent.value]);
      OneMoreBlock(decoder, l.trace, v.handlers, l.closed, l.current);
      blocks := l.closed + [l.current];
    }
  }

  lemma ConsistentTraffic(decoder: Decoder, v: View, l: Ledger)
    requires Consistent(decoder, v, l)
    ensures Blockwise(AgentTraffic(v.sent)) && InOrder(decoder, l.trace, AgentTraffic(v.sent))
  {
    var blocks := AllBlocks(decoder, v, l);
    ServedTraffic(decoder, l.trace, v.handlers, blocks);
  }

  /** Of a connection whose handler waits for more bytes, everything that may be relayed has been. */
  ghost predicate UpToDate(decoder: Decoder, v: View, trace: seq<Event>) {
    forall c | c in v.handlers && v.handlers[c].Reading? && NEWLINE !in v.handlers[c].buffer ::
      From(AgentTraffic(v.sent), c) == Admit(decoder, OPENING, Lines(Received(trace, c)))
  }

  lemma ReaderIsUpToDate(decoder: Decoder, v: View, l: Ledger, c: Conn)
    requires Consistent(decoder, v, l) && c in v.handlers && v.handlers[c].Reading?
    requires NEWLINE !in v.handlers[c].buffer
    ensures From(AgentTraffic(v.sent), c) == Admit(decoder, OPENING, Lines(Received(l.trace, c)))
  {
    ReaderHolds(decoder, v, l, c);
    assert Apart(l.closed, c);
    FromSnoc(l.closed, l.current, c);
    FromApart(l.closed, c);
    assert l.handled + [] == l.handled;
  }

  lemma ReadersAreUpToDate(decoder: Decoder, v: View, l: Ledger)
    requires Consistent(decoder, v, l)
    ensures UpToDate(decoder, v, l.trace)
  {
    forall c | c in v.handlers && v.handlers[c].Reading? && NEWLINE !in v.handlers[c].buffer
      ensures From(AgentTraffic(v.sent), c) == Admit(decoder, OPENING, Lines(Received(l.trace, c)))
    {
      ReaderIsUpToDate(decoder, v, l, c);
    }
  }

  // ----- an honest agent is served, however its bytes are cut and whoever else is there

  const QUIET := View(None, map[], [])

  /** How many lines of connection `c` were handled. */
  function LinesHandled(trace: seq<Event>, c: Conn): nat {
    if trace == [] then 0 else LinesHandled(trace[..|trace| - 1], c) + HandledPart(trace[|trace| - 1], c)
  }

  function HandledPart(e: Event, c: Conn): nat {
    if e.HandleLine? && e.conn == c then 1 else 0
  }

  lemma LinesHandledSnoc(trace: seq<Event>, e: Event, c: Conn)
    ensures LinesHandled(trace + [e], c) == LinesHandled(trace, c) + HandledPart(e, c)
  {
    assert (trace + [e])[..|trace|] == trace;
  }

  /**
   * Nothing breaks connection `c`: its socket does not fail, a read of it returns something and leaves at most 1048576
   * bytes after the last newline and this chunk, and the extension can be written to. `received` is what it sent
   * before.
   */
  predicate Unbroken(e: Event, received: Bytes, c: Conn) {
    match e
    case Receive(d, chunk) => d == c ==> chunk != [] && |Rest(received) + chunk| <= 1048576
    case HandleLine(d, writable) => d == c ==> writable
    case SocketFails(d) => d != c
    case _ => true
  }

  ghost predicate AllUnbroken(decoder: Decoder, v: View, events: seq<Event>, c: Conn) {
    forall i | 0 <= i < |events| && Enabled(Steps(decoder, v, events[..i]).handlers, events[i]) ::
      Unbroken(events[i], Received(Happened(decoder, v, events[..i]), c), c)
  }

  /** The two messages of an honest agent. */
  function PairOf(decoder: Decoder, job: Bytes, reply: Bytes): seq<Message>
    requires HonestPair(decoder, job, reply)
  {
    [Decode(decoder, job).value, Decode(decoder, reply).value]
  }

  /** Connection `c` holds the slot and reads, and the first `n` of its two lines have been relayed. */
  ghost predicate InService(
      decoder: Decoder, c: Conn, received: Bytes, n: nat, v: View, job: Bytes, reply: Bytes)
  {
    HonestPair(decoder, job, reply) && n <= 2 && v.agent == Some(c) && c in v.handlers &&
    InTurn(decoder, received, PairOf(decoder, job, reply)[..n], [job, reply][..n], v.handlers[c]) &&
    From(AgentTraffic(v.sent), c) == PairOf(decoder, job, reply)[..n]
  }

  lemma FromMore(sent: seq<Output>, o: Output, c: Conn)
    ensures From(AgentTraffic(sent + [o]), c) ==
            From(AgentTraffic(sent), c) + if o.FromAgent? && o.conn == c then [o.message] else []
  {
    AgentTrafficSnoc(sent, o);
    FromConcat(AgentTraffic(sent), AgentPart(o), c);
    if o.FromAgent? {
      FromSingle(Item(o.conn, o.message), c);
    }
  }

  /** What a step writes of connection `c`. */
  lemma StepWrites(decoder: Decoder, v: View, e: Event, c: Conn)
    requires Enabled(v.handlers, e) && (e.HandleLine? ==> e.conn != c)
    ensures From(AgentTraffic(StepOf(decoder, v, e).sent), c) == From(AgentTraffic(v.sent), c)
  {
    match e
    case HandleLine(d, _) =>
      var decoded := Decode(decoder, FirstLine(v.handlers[d].buffer));
      if decoded.Some? {
        FromMore(v.sent, FromAgent(d, decoded.value), c);
      }
    case WriteNotice => FromMore(v.sent, Notice, c);
    case _ => assert StepOf(decoder, v, e).sent == v.sent;
  }

  /** What happens to others does not touch the connection that holds the slot. */
  lemma OthersLeaveAlone(decoder: Decoder, v: View, e: Event, c: Conn)
    requires Enabled(v.handlers, e) && v.agent == Some(c) && c in v.handlers && (e.WriteNotice? || e.conn != c)
    ensures var w := StepOf(decoder, v, e);
            w.agent == Some(c) && c in w.handlers && w.handlers[c] == v.handlers[c]
  {
    match e
    case Connect(d) => assert StepOf(decoder, v, e).handlers == v.handlers[d := Ended];
    case Receive(d, _) => assert StepOf(decoder, v, e).handlers[c] == v.handlers[c];
    case HandleLine(d, _) => assert StepOf(decoder, v, e).handlers[c] == v.handlers[c];
    case SocketFails(d) => assert StepOf(decoder, v, e) == Ending(v, d);
    case WriteNotice =>
  }

  lemma StaysInService(
      decoder: Decoder, c: Conn, received: Bytes, n: nat, v: View, w: View, job: Bytes, reply: Bytes)
    requires InService(decoder, c, received, n, v, job, reply)
    requires w.agent == Some(c) && c in w.handlers && w.handlers[c] == v.handlers[c]
    requires From(AgentTraffic(w.sent), c) == From(AgentTraffic(v.sent), c)
    ensures InService(decoder, c, received, n, w, job, reply)
  {
  }

  /** Both lines of the pair pass, one after the other. */
  lemma PairPasses(decoder: Decoder, job: Bytes, reply: Bytes)
    requires HonestPair(decoder, job, reply)
    ensures Passes(decoder, OPENING, job)
    ensures var asked := After(decoder, OPENING, [job]); asked.Some? && Passes(decoder, asked.value, reply)
  {
    ValidJobIdIff(Decode(decoder, job).value.jobId);
    AdmitOne(decoder, OPENING, job);
  }

  /** After `n` of the pair the next line passes. */
  lemma NextPasses(decoder: Decoder, job: Bytes, reply: Bytes, n: nat, turn: Turn)
    requires HonestPair(decoder, job, reply) && n < 2 && After(decoder, OPENING, [job, reply][..n]) == Some(turn)
    ensures Passes(decoder, turn, [job, reply][n])
  {
    PairPasses(decoder, job, reply);
    if n == 1 {
      assert [job, reply][..1] == [job];
    }
  }

  lemma NextLine(received: Bytes, lines: seq<Bytes>, buffer: Bytes, all: seq<Bytes>)
    requires Lines(received) == lines + Lines(buffer) && Lines(received) <= all && NEWLINE in buffer
    ensures |lines| < |all| && FirstLine(buffer) == all[|lines|]
  {
    assert Lines(received)[|lines|] == Lines(buffer)[0];
  }

  lemma OwnLine(decoder: Decoder, c: Conn, received: Bytes, n: nat, v: View, job: Bytes, reply: Bytes)
    requires InService(decoder, c, received, n, v, job, reply) && NEWLINE in v.handlers[c].buffer
    requires Lines(received) <= [job, reply]
    ensures InService(decoder, c, received, n + 1, StepOf(decoder, v, HandleLine(c, true)), job, reply)
  {
    var pair, h := PairOf(decoder, job, reply), v.handlers[c];
    NextLine(received, [job, reply][..n], h.buffer, [job, reply]);
    NextPasses(decoder, job, reply, n, h.turn);
    HandledKeepsTurn(decoder, received, pair[..n], [job, reply][..n], h);
    TakeOneMore(pair, n);
    TakeOneMore([job, reply], n);
    FromMore(v.sent, FromAgent(c, pair[n]), c);
  }

  lemma OwnChunk(decoder: Decoder, c: Conn, received: Bytes, n: nat, v: View, job: Bytes, reply: Bytes, chunk: Bytes)
    requires InService(decoder, c, received, n, v, job, reply) && NEWLINE !in v.handlers[c].buffer
    requires chunk != [] && |Rest(received) + chunk| <= 1048576
    ensures InService(decoder, c, received + chunk, n, StepOf(decoder, v, Receive(c, chunk)), job, reply)
  {
    GrowKeepsTurn(decoder, received, PairOf(decoder, job, reply)[..n], [job, reply][..n], v.handlers[c], chunk);
  }

  lemma TakenElsewhere(
      decoder: Decoder, c: Conn, received: Bytes, n: nat, v: View, job: Bytes, reply: Bytes, e: Event, next: View)
    requires InService(decoder, c, received, n, v, job, reply) && (e.WriteNotice? || e.conn != c)
    requires Enabled(v.handlers, e) && next == StepOf(decoder, v, e)
    ensures InService(decoder, c, received, n, next, job, reply)
  {
    OthersLeaveAlone(decoder, v, e, c);
    StepWrites(decoder, v, e, c);
    StaysInService(decoder, c, received, n, v, next, job, reply);
  }

  /** What had been read before the last event is the beginning of what has been read. */
  lemma LinesGrow(decoder: Decoder, v: View, events: seq<Event>, c: Conn)
    requires events != []
    ensures var front := events[..|events| - 1];
            Lines(Received(Happened(decoder, v, front), c)) <= Lines(Received(Happened(decoder, v, events), c))
  {
    var front, e := events[..|events| - 1], events[|events| - 1];
    var trace := Happened(decoder, v, front);
    if Enabled(Steps(decoder, v, front).handlers, e) {
      ReceivedSnoc(trace, e, c);
      LinesAppend(Received(trace, c), ChunkOf(e, c));
    } else {
      assert Happened(decoder, v, events) == trace;
    }
  }

  lemma StrangerStep(decoder: Decoder, v: View, e: Event, c: Conn)
    requires Enabled(v.handlers, e) && c !in StepOf(decoder, v, e).handlers
    ensures c !in v.handlers
    ensures From(AgentTraffic(StepOf(decoder, v, e).sent), c) == From(AgentTraffic(v.sent), c)
  {
    assert v.handlers.Keys <= StepOf(decoder, v, e).handlers.Keys;
    StepWrites(decoder, v, e, c);
  }

  /** Nothing has been relayed under the name of a connection that was never made. */
  lemma {:induction false} NothingFromStrangers(decoder: Decoder, events: seq<Event>, c: Conn)
    requires c !in Steps(decoder, QUIET, events).handlers
    ensures From(AgentTraffic(Steps(decoder, QUIET, events).sent), c) == []
    decreases |events|
  {
    if events != [] {
      var front, e := events[..|events| - 1], events[|events| - 1];
      var v := Steps(decoder, QUIET, front);
      if Enabled(v.handlers, e) {
        StrangerStep(decoder, v, e, c);
      }
      NothingFromStrangers(decoder, front, c);
    }
  }

  lemma ServiceBegins(decoder: Decoder, before: seq<Event>, c: Conn, job: Bytes, reply: Bytes)
    requires Steps(decoder, QUIET, before).agent.None? && c !in Steps(decoder, QUIET, before).handlers
    requires HonestPair(decoder, job, reply)
    ensures InService(decoder, c, [], 0, Steps(decoder, QUIET, before + [Connect(c)]), job, reply)
  {
    StepsSnoc(decoder, QUIET, before, Connect(c));
    NothingFromStrangers(decoder, before, c);
    NobodyInTurn(decoder);
    assert PairOf(decoder, job, reply)[..0] == [] && [job, reply][..0] == [];
  }

  lemma ServiceTakes(
      decoder: Decoder, c: Conn, trace: seq<Event>, w: View, job: Bytes, reply: Bytes, e: Event, next: View)
    requires InService(decoder, c, Received(trace, c), LinesHandled(trace, c), w, job, reply)
    requires Enabled(w.handlers, e) && Unbroken(e, Received(trace, c), c) && next == StepOf(decoder, w, e)
    requires Lines(Received(trace, c)) <= [job, reply]
    ensures InService(decoder, c, Received(trace + [e], c), LinesHandled(trace + [e], c), next, job, reply)
  {
    var received, n := Received(trace, c), LinesHandled(trace, c);
    LinesHandledSnoc(trace, e, c);
    if e.WriteNotice? || e.conn != c {
      ReceivedQuiet(trace, e, c);
      TakenElsewhere(decoder, c, received, n, w, job, reply, e, next);
    } else if e.Receive? {
      ReceivedSnoc(trace, e, c);
      OwnChunk(decoder, c, received, n, w, job, reply, e.chunk);
    } else {
      ReceivedQuiet(trace, e, c);
      assert e == HandleLine(c, true);
      OwnLine(decoder, c, received, n, w, job, reply);
    }
  }

  lemma UnbrokenFront(decoder: Decoder, v: View, events: seq<Event>, c: Conn)
    requires events != [] && AllUnbroken(decoder, v, events, c)
    ensures var front, e := events[..|events| - 1], events[|events| - 1];
            AllUnbroken(decoder, v, front, c) &&
            (Enabled(Steps(decoder, v, front).handlers, e) ==>
               Unbroken(e, Received(Happened(decoder, v, front), c), c))
  {
    var front := events[..|events| - 1];
    forall i | 0 <= i < |front| && Enabled(Steps(decoder, v, front[..i]).handlers, front[i])
      ensures Unbroken(front[i], Received(Happened(decoder, v, front[..i]), c), c)
    {
      assert front[..i] == events[..i];
    }
  }

  /** A run of unbroken events, each in its turn or not at all. */
  lemma {:induction false} ServiceGoesOn(
      decoder: Decoder, v: View, events: seq<Event>, c: Conn, job: Bytes, reply: Bytes)
    requires InService(decoder, c, [], 0, v, job, reply) && AllUnbroken(decoder, v, events, c)
    requires Lines(Received(Happened(decoder, v, events), c)) <= [job, reply]
    ensures var trace := Happened(decoder, v, events);
            InService(decoder, c, Received(trace, c), LinesHandled(trace, c), Steps(decoder, v, events), job, reply)
    decreases |events|
  {
    if events != [] {
      var front, e := events[..|events| - 1], events[|events| - 1];
      UnbrokenFront(decoder, v, events, c);
      LinesGrow(decoder, v, events, c);
      ServiceGoesOn(decoder, v, front, c, job, reply);
      var w, trace := Steps(decoder, v, front), Happened(decoder, v, front);
      if Enabled(w.handlers, e) {
        ServiceTakes(decoder, c, trace, w, job, reply, e, Steps(decoder, v, events));
      } else {
        assert trace + [] == trace;
      }
    }
  }

  /** Where an agent in service stands. */
  lemma ServiceMeans(decoder: Decoder, c: Conn, received: Bytes, n: nat, v: View, job: Bytes, reply: Bytes)
    requires InService(decoder, c, received, n, v, job, reply)
    ensures v.handlers[c].Reading? && n <= |Lines(received)|
    ensures n == |Lines(received)| <==> NEWLINE !in v.handlers[c].buffer
  {
  }

  /**
   * An agent that connects while the slot is free, after any events, and then sends at most a job and its reply is
   * still reading whatever else happens, holds the slot, and has had exactly its handled lines relayed, in order: all
   * of them once none is left to handle. Its bytes may have been cut in any way, as long as nothing broke the
   * connection and what follows the last newline never passed 1048576 bytes.
   */
  lemma HonestAgentServed(
      decoder: Decoder, before: seq<Event>, after: seq<Event>, c: Conn, job: Bytes, reply: Bytes)
    requires Steps(decoder, QUIET, before).agent.None? && c !in Steps(decoder, QUIET, before).handlers
    requires HonestPair(decoder, job, reply)
    requires AllUnbroken(decoder, Steps(decoder, QUIET, before + [Connect(c)]), after, c)
    requires var trace := Happened(decoder, Steps(decoder, QUIET, before + [Connect(c)]), after);
             Lines(Received(trace, c)) <= [job, reply]
    ensures var v := Steps(decoder, QUIET, before + [Connect(c)]);
            var w, trace := Steps(decoder, v, after), Happened(decoder, v, after);
            var n := LinesHandled(trace, c);
            w.agent == Some(c) && c in w.handlers && w.handlers[c].Reading? && n <= |Lines(Received(trace, c))| &&
            From(AgentTraffic(w.sent), c) == PairOf(decoder, job, reply)[..n] &&
            (n == |Lines(Received(trace, c))| <==> !Enabled(w.handlers, HandleLine(c, true)))
  {
    var v := Steps(decoder, QUIET, before + [Connect(c)]);
    ServiceBegins(decoder, before, c, job, reply);
    ServiceGoesOn(decoder, v, after, c, job, reply);
    var trace := Happened(decoder, v, after);
    ServiceMeans(decoder, c, Received(trace, c), LinesHandled(trace, c), Steps(decoder, v, after), job, reply);
  }

  /** Nobody sent anything in this traffic under the name `c`. */
  ghost predicate Silent(traffic: seq<Item>, c: Conn) {
    forall k | 0 <= k < |traffic| :: traffic[k].conn != c
  }

  /** The reply at position `i` follows its own job, from the connection that sent the job. */
  predicate RepliesToLast(traffic: seq<Item>, i: nat)
    requires i < |traffic|
  {
    i > 0 && IsReply(traffic[i].message) && IsJob(traffic[i - 1].message) &&
    traffic[i].message.jobId == traffic[i - 1].message.jobId && traffic[i].conn == traffic[i - 1].conn
  }

  /** At each position there is a job from a connection not heard before, or a reply of the last one to its own job. */
  ghost predicate InPlace(traffic: seq<Item>, i: nat)
    requires i < |traffic|
  {
    (IsJob(traffic[i].message) && Silent(traffic[..i], traffic[i].conn)) || RepliesToLast(traffic, i)
  }

  /** Falling into blocks and every message being in its place say the same. */
  lemma BlockwiseIff(traffic: seq<Item>)
    ensures Blockwise(traffic) <==> forall i | 0 <= i < |traffic| :: InPlace(traffic, i)
  {
    if Blockwise(traffic) {
      var blocks :| Splits(blocks, traffic);
      BlocksInPlace(blocks);
    }
    if forall i | 0 <= i < |traffic| :: InPlace(traffic, i) {
      var blocks := Cut(traffic);
      assert Splits(blocks, traffic);
    }
  }

  lemma {:induction false} ApartSilent(blocks: seq<Block>, c: Conn)
    requires Apart(blocks, c)
    ensures Silent(Traffic(blocks), c)
    decreases |blocks|
  {
    if blocks != [] {
      ApartSilent(blocks[..|blocks| - 1], c);
    }
  }

  lemma {:induction false} BlocksInPlace(blocks: seq<Block>)
    requires OwnConnections(blocks) && forall i | 0 <= i < |blocks| :: BlockShape(blocks[i].items)
    ensures forall i | 0 <= i < |Traffic(blocks)| :: InPlace(Traffic(blocks), i)
    decreases |blocks|
  {
    if blocks != [] {
      var front, last := blocks[..|blocks| - 1], blocks[|blocks| - 1];
      BlocksInPlace(front);
      ApartSilent(front, last.conn);
      var before, traffic := Traffic(front), Traffic(blocks);
      assert traffic[..|before|] == before;
      forall i | 0 <= i < |traffic|
        ensures InPlace(traffic, i)
      {
        if i < |before| {
          assert InPlace(before, i) && traffic[..i] == before[..i];
        }
      }
    }
  }

  lemma TailInPlace(traffic: seq<Item>, k: nat)
    requires k <= |traffic| && forall i | 0 <= i < |traffic| :: InPlace(traffic, i)
    ensures forall i | 0 <= i < k :: InPlace(traffic[..k], i)
  {
    forall i | 0 <= i < k
      ensures InPlace(traffic[..k], i)
    {
      assert InPlace(traffic, i) && traffic[..k][..i] == traffic[..i];
    }
  }

  /** A last job, or a last job and its reply. */
  function LastBlock(traffic: seq<Item>, k: nat): Block
    requires k < |traffic|
  {
    Block(traffic[k].conn, seq(|traffic| - k, i requires 0 <= i < |traffic| - k => traffic[k + i].message))
  }

  lemma CutOff(start: seq<Block>, traffic: seq<Item>, k: nat)
    requires k < |traffic| && Splits(start, traffic[..k]) && Apart(start, traffic[k].conn)
    requires BlockShape(LastBlock(traffic, k).items)
    requires forall i | k <= i < |traffic| :: traffic[i].conn == traffic[k].conn
    ensures Splits(start + [LastBlock(traffic, k)], traffic)
  {
    var last := LastBlock(traffic, k);
    assert Tagged(last) == traffic[k..] && traffic == traffic[..k] + traffic[k..];
    TrafficSnoc(start, last);
    OwnSnoc(start, last);
  }

  /** Block by block from the end. */
  lemma {:induction false} Cut(traffic: seq<Item>) returns (blocks: seq<Block>)
    requires forall i | 0 <= i < |traffic| :: InPlace(traffic, i)
    ensures Splits(blocks, traffic) && forall c | Silent(traffic, c) :: Apart(blocks, c)
    decreases |traffic|
  {
    if traffic == [] {
      blocks := [];
    } else {
      var n := |traffic| - 1;
      var k := if RepliesToLast(traffic, n) then n - 1 else n;
      assert InPlace(traffic, n) && InPlace(traffic, k);
      TailInPlace(traffic, k);
      var start := Cut(traffic[..k]);
      CutOff(start, traffic, k);
      blocks := start + [LastBlock(traffic, k)];
      forall c | Silent(traffic, c)
        ensures Apart(blocks, c)
      {
        assert Silent(traffic[..k], c) && traffic[k].conn != c;
      }
    }
  }

  // ----- notices

  function Notices(sent: seq<Output>): nat {
    if sent == [] then 0 else Notices(sent[..|sent| - 1]) + if sent[|sent| - 1].Notice? then 1 else 0
  }

  function NoticeWrites(events: seq<Event>): nat {
    if events == [] then 0
    else NoticeWrites(events[..|events| - 1]) + if events[|events| - 1].WriteNotice? then 1 else 0
  }

  lemma NoticesSnoc(sent: seq<Output>, o: Output)
    ensures Notices(sent + [o]) == Notices(sent) + if o.Notice? then 1 else 0
  {
    assert (sent + [o])[..|sent|] == sent;
  }

  lemma StepNotices(decoder: Decoder, v: View, e: Event)
    requires Enabled(v.handlers, e)
    ensures Notices(StepOf(decoder, v, e).sent) == Notices(v.sent) + if e.WriteNotice? then 1 else 0
  {
    match e
    case HandleLine(c, _) =>
      var decoded := Decode(decoder, FirstLine(v.handlers[c].buffer));
      if decoded.Some? {
        NoticesSnoc(v.sent, FromAgent(c, decoded.value));
      }
    case WriteNotice => NoticesSnoc(v.sent, Notice);
    case _ => assert StepOf(decoder, v, e).sent == v.sent;
  }

  /** Every notice of the relay is written, whatever the agents do, and no other. */
  lemma {:induction false} NoticesWritten(decoder: Decoder, v: View, events: seq<Event>)
    ensures Notices(Steps(decoder, v, events).sent) == Notices(v.sent) + NoticeWrites(events)
    decreases |events|
  {
    if events != [] {
      var front, e := events[..|events| - 1], events[|events| - 1];
      NoticesWritten(decoder, v, front);
      var w := Steps(decoder, v, front);
      if Enabled(w.handlers, e) {
        StepNotices(decoder, w, e);
      }
    }
  }

  // ----- the class

  /** The relay of one native port; `handlers` holds the local variables of each handler thread. */
  class NativeRelay {
    const decoder: Decoder
    var agent: Option<Conn>
    var handlers: map<Conn, Handler>
    var sent: seq<Output>
    ghost var ledger: Ledger

    constructor (decoder: Decoder)
      ensures Valid() && sent == [] && handlers == map[] && agent == None && ledger.trace == []
      ensures this.decoder == decoder
    {
      this.decoder := decoder;
      agent, handlers, sent, ledger := None, map[], [], Ledger([], Block(0, []), [], []);
    }

    ghost function Now(): View
      reads this
    {
      View(agent, handlers, sent)
    }

    ghost predicate Valid()
      reads this
    {
      Consistent(decoder, Now(), ledger)
    }

    /** A second agent is refused while the slot is held. */
    method Accept(c: Conn)
      requires Valid() && c !in handlers
      modifies this
      ensures Valid() && sent == old(sent) && ledger.trace == old(ledger.trace) + [Connect(c)]
      ensures agent == if old(agent).Some? then old(agent) else Some(c)
      ensures handlers == old(handlers)[c := if old(agent).Some? then Ended else Reading([], OPENING)]
    {
      if agent.Some? {
        RefusalKeeps(decoder, Now(), ledger, c);
        ledger := ledger.(trace := ledger.trace + [Connect(c)]);
        handlers := handlers[c := Ended];
        return;
      }
      AcceptKeeps(decoder, Now(), ledger, c);
      ledger := Ledger(ledger.closed, Block(c, []), [], ledger.trace + [Connect(c)]);
      agent := Some(c);
      handlers := handlers[c := Reading([], OPENING)];
    }

    /** The `finally` of a handler that the event `e` ends: the slot is free again. */
    method Close(c: Conn, ghost e: Event)
      requires Valid() && c in handlers && handlers[c].Reading? && (e.Receive? ==> e.conn == c)
      modifies this`agent, this`handlers, this`ledger
      ensures Valid() && old(agent) == Some(c) && agent.None? && handlers == old(handlers)[c := Ended]
      ensures ledger.trace == old(ledger.trace) + [e]
    {
      CloseKeeps(decoder, Now(), ledger, c, e);
      Release(c, ledger.(closed := ledger.closed + [ledger.current], trace := ledger.trace + [e]));
    }

    method Release(c: Conn, ghost next: Ledger)
      requires agent == Some(c) && Consistent(decoder, Ending(Now(), c), next)
      modifies this`agent, this`handlers, this`ledger
      ensures Valid() && agent.None? && handlers == old(handlers)[c := Ended] && ledger == next
    {
      ghost var after := Ending(Now(), c);
      ledger := next;
      if agent == Some(c) {
        agent := None;
      }
      handlers := handlers[c := Ended];
      assert Now() == after;
    }

    /** An empty read, or one that makes the buffer longer than 1048576 bytes, ends the handler; no other does. */
    method ReceiveChunk(c: Conn, chunk: Bytes)
      requires Valid() && Enabled(handlers, Receive(c, chunk))
      modifies this`agent, this`handlers, this`ledger
      ensures Valid() && ledger.trace == old(ledger.trace) + [Receive(c, chunk)]
      ensures var h := old(handlers)[c];
              var ends := chunk == [] || |h.buffer + chunk| > 1048576;
              agent == (if ends then None else old(agent)) &&
              handlers == old(handlers)[c := if ends then Ended else h.(buffer := h.buffer + chunk)]
    {
      if EndsReading(handlers[c], chunk) {
        Close(c, Receive(c, chunk));
      } else {
        ReceiveKeeps(decoder, Now(), ledger, c, chunk);
        ledger := ledger.(trace := ledger.trace + [Receive(c, chunk)]);
        handlers := handlers[c := handlers[c].(buffer := handlers[c].buffer + chunk)];
      }
    }

    /** One line: decoded, judged, and relayed to the extension if the connection may still send it. */
    method Handle(c: Conn, writable: bool)
      requires Valid() && Enabled(handlers, HandleLine(c, writable))
      modifies this
      ensures Valid() && ledger.trace == old(ledger.trace) + [HandleLine(c, writable)]
      ensures var h := old(handlers)[c];
              var line := FirstLine(h.buffer);
              if Passes(decoder, h.turn, line) && writable
              then sent == old(sent) + [FromAgent(c, Decode(decoder, line).value)] && agent == old(agent) &&
                   handlers == old(handlers)[c := NextHandler(decoder, h)]
              else sent == old(sent) && agent.None? && handlers == old(handlers)[c := Ended]
    {
      var line := FirstLine(handlers[c].buffer);
      if Passes(decoder, handlers[c].turn, line) && writable {
        RelayKeeps(decoder, Now(), ledger, c, HandleLine(c, writable));
        RelayLine(c, line, Decode(decoder, line).value, NextHandler(decoder, handlers[c]), HandleLine(c, writable));
      } else {
        Close(c, HandleLine(c, writable));
      }
    }

    /** `_write_extension` of a line that passed. */
    method RelayLine(c: Conn, line: Bytes, m: Message, next: Handler, ghost e: Event)
      requires Valid() && Consistent(decoder, View(agent, handlers[c := next], sent + [FromAgent(c, m)]),
                                     NextLedger(ledger, line, m, e))
      modifies this`sent, this`handlers, this`ledger
      ensures Valid() && sent == old(sent) + [FromAgent(c, m)] && handlers == old(handlers)[c := next]
      ensures ledger.trace == old(ledger.trace) + [e]
    {
      ghost var after := View(agent, handlers[c := next], sent + [FromAgent(c, m)]);
      ledger := NextLedger(ledger, line, m, e);
      sent := sent + [FromAgent(c, m)];
      handlers := handlers[c := next];
      assert Now() == after;
    }

    /** `_write_extension` from another thread: the relay's own notices. */
    method Notify()
      requires Valid()
      modifies this`sent, this`ledger
      ensures Valid() && sent == old(sent) + [Notice] && ledger.trace == old(ledger.trace) + [WriteNotice]
    {
      NotifyKeeps(decoder, Now(), ledger);
      ledger := ledger.(trace := ledger.trace + [WriteNotice]);
      sent := sent + [Notice];
    }

    method Take(e: Event)
      requires Valid() && Enabled(handlers, e)
      modifies this
      ensures Valid() && Now() == StepOf(decoder, old(Now()), e) && ledger.trace == old(ledger.trace) + [e]
      ensures old(sent) <= sent
    {
      match e {
        case Connect(c) => Accept(c);
        case WriteNotice => Notify();
        case _ => TakeFromReader(e);
      }
    }

    /** What happens to a handler that reads. */
    method TakeFromReader(e: Event)
      requires Valid() && Enabled(handlers, e) && !e.Connect? && !e.WriteNotice?
      modifies this
      ensures Valid() && Now() == StepOf(decoder, old(Now()), e) && ledger.trace == old(ledger.trace) + [e]
      ensures old(sent) <= sent
    {
      ReaderHolds(decoder, Now(), ledger, e.conn);
      match e {
        case Receive(c, chunk) => ReceiveChunk(c, chunk);
        case HandleLine(c, writable) => Handle(c, writable);
        case SocketFails(c) => Close(c, e);
      }
    }

    /**
     * Any interleaving of any number of agents sending any bytes: of each connection's bytes a prefix of what they may
     * have relayed is relayed, and the traffic is a concatenation of blocks, each from a connection of its own.
     */
    method Serve(events: seq<Event>)
      requires Valid()
      modifies this
      ensures Valid() && Now() == Steps(decoder, old(Now()), events) && old(sent) <= sent
      ensures ledger.trace == old(ledger.trace) + Happened(decoder, old(Now()), events)
      ensures Blockwise(AgentTraffic(sent)) && InOrder(decoder, ledger.trace, AgentTraffic(sent))
      ensures UpToDate(decoder, Now(), ledger.trace)
    {
      ghost var v0, trace0 := Now(), ledger.trace;
      FollowedAtFirst(decoder, v0, trace0);
      ServeAll(events, v0, trace0);
      ConsistentTraffic(decoder, Now(), ledger);
      ReadersAreUpToDate(decoder, Now(), ledger);
    }

    method ServeAll(events: seq<Event>, ghost v0: View, ghost trace0: seq<Event>)
      requires Valid() && Followed(decoder, v0, trace0, [], Now(), ledger.trace)
      modifies this
      ensures Valid() && Followed(decoder, v0, trace0, events, Now(), ledger.trace)
    {
      for i := 0 to |events|
        invariant Valid() && Followed(decoder, v0, trace0, events[..i], Now(), ledger.trace)
      {
        TakeOneMore(events, i);
        Attempt(events[i], v0, trace0, events[..i]);
      }
      assert events[..|events|] == events;
    }

    /** An event whose turn has come, if it can happen then. */
    method Attempt(e: Event, ghost v0: View, ghost trace0: seq<Event>, ghost done: seq<Event>)
      requires Valid() && Followed(decoder, v0, trace0, done, Now(), ledger.trace)
      modifies this
      ensures Valid() && Followed(decoder, v0, trace0, done + [e], Now(), ledger.trace)
    {
      ghost var v, trace := Now(), ledger.trace;
      if Enabled(handlers, e) {
        Take(e);
        FollowedStep(decoder, v0, trace0, done, v, trace, e, Now());
      } else {
        FollowedSkip(decoder, v0, trace0, done, v, trace, e);
      }
    }
  }
}
