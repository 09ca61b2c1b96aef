/**
 * Newline-terminated messages over the agent socket (browser_executor/client.py,
 * browser_executor/native_messaging.py).
 */
module LineFraming {
  import opened Common

  newtype Byte = b: int | 0 <= b < 256
  type Bytes = seq<Byte>

  const NEWLINE: Byte := 10
  const MAX_MESSAGE_BYTES := 1048576
  const CHUNK_BYTES := 65536

  // ----- lines

  /** Everything before the first newline; the whole of `s` without one. */
  function FirstLine(s: Bytes): (line: Bytes)
    ensures line <= s && NEWLINE !in line
    ensures NEWLINE in s ==> |line| < |s| && s[|line|] == NEWLINE
  {
    if s == [] || s[0] == NEWLINE then [] else [s[0]] + FirstLine(s[1..])
  }

  function AfterLine(s: Bytes): Bytes
    requires NEWLINE in s
  {
    s[|FirstLine(s)| + 1..]
  }

  /** The complete lines of a stream, and what is left after the last newline. */
  function Lines(s: Bytes): seq<Bytes>
    decreases |s|
  {
    if NEWLINE in s then [FirstLine(s)] + Lines(AfterLine(s)) else []
  }

  function Rest(s: Bytes): Bytes
    decreases |s|
  {
    if NEWLINE in s then Rest(AfterLine(s)) else s
  }

  function Framed(lines: seq<Bytes>): Bytes {
    if lines == [] then [] else lines[0] + [NEWLINE] + Framed(lines[1..])
  }

  lemma {:induction false} FirstLineUnique(line: Bytes, tail: Bytes)
    requires NEWLINE !in line
    ensures NEWLINE in line + [NEWLINE] + tail
    ensures FirstLine(line + [NEWLINE] + tail) == line && AfterLine(line + [NEWLINE] + tail) == tail
    decreases |line|
  {
    if line == [] {
      assert line + [NEWLINE] + tail == [NEWLINE] + tail;
    } else {
      FirstLineUnique(line[1..], tail);
      var s := line + [NEWLINE] + tail;
      assert s[1..] == line[1..] + [NEWLINE] + tail;
      assert s[|line| + 1..] == tail && line == [line[0]] + line[1..];
    }
  }

  lemma LinesCons(line: Bytes, tail: Bytes)
    requires NEWLINE !in line
    ensures Lines(line + [NEWLINE] + tail) == [line] + Lines(tail) && Rest(line + [NEWLINE] + tail) == Rest(tail)
  {
    FirstLineUnique(line, tail);
    assert (line + [NEWLINE] + tail)[|line|] == NEWLINE;
  }

  lemma FirstSplit(s: Bytes)
    requires NEWLINE in s
    ensures FirstLine(s) + [NEWLINE] + AfterLine(s) == s
  {
    CutAt(s, |FirstLine(s)|);
    PrefixIsTake(FirstLine(s), s);
  }

  lemma FramedCons(line: Bytes, lines: seq<Bytes>)
    ensures Framed([line] + lines) == line + [NEWLINE] + Framed(lines)
  {
    assert ([line] + lines)[1..] == lines;
  }

  /** Cutting a stream into lines loses nothing, and lines without newlines come back as they were. */
  lemma {:induction false} LinesInverse(s: Bytes)
    ensures Framed(Lines(s)) + Rest(s) == s && NEWLINE !in Rest(s)
    decreases |s|
  {
    if NEWLINE in s {
      var line, after := FirstLine(s), AfterLine(s);
      LinesInverse(after);
      FirstSplit(s);
      FramedCons(line, Lines(after));
      Regroup(line + [NEWLINE], Framed(Lines(after)), Rest(after));
    }
  }

  lemma {:induction false} LinesOfFramed(lines: seq<Bytes>, tail: Bytes)
    requires forall i | 0 <= i < |lines| :: NEWLINE !in lines[i]
    ensures Lines(Framed(lines) + tail) == lines + Lines(tail) && Rest(Framed(lines) + tail) == Rest(tail)
    decreases |lines|
  {
    if lines == [] {
      assert Framed(lines) + tail == tail;
    } else {
      var rest := Framed(lines[1..]) + tail;
      LinesOfFramed(lines[1..], tail);
      LinesCons(lines[0], rest);
      Regroup(lines[0] + [NEWLINE], Framed(lines[1..]), tail);
      Regroup([lines[0]], lines[1..], Lines(tail));
      HeadAndTail(lines);
    }
  }

  /** Reading can stop after any byte and resume with what was left over. */
  lemma LinesAppend(a: Bytes, b: Bytes)
    ensures Lines(a + b) == Lines(a) + Lines(Rest(a) + b) && Rest(a + b) == Rest(Rest(a) + b)
  {
    LinesInverse(a);
    LinesClean(a);
    var lines, rest := Lines(a), Rest(a);
    assert a + b == Framed(lines) + (rest + b);
    LinesOfFramed(lines, rest + b);
  }

  lemma {:induction false} LinesClean(s: Bytes)
    ensures forall i | 0 <= i < |Lines(s)| :: NEWLINE !in Lines(s)[i]
    decreases |s|
  {
    if NEWLINE in s {
      LinesClean(AfterLine(s));
    }
  }

  // ----- the client's receiver

  datatype ReceiveError = Disconnected | TooLarge

  /** `_send_line`: the size limit is on the payload alone. */
  function SendLine(payload: Bytes): Result<Bytes, ReceiveError> {
    if |payload| > MAX_MESSAGE_BYTES then Err(TooLarge) else Ok(payload + [NEWLINE])
  }

  function Joined(chunks: seq<Bytes>): Bytes {
    if chunks == [] then [] else chunks[0] + Joined(chunks[1..])
  }

  /** What a socket may return for the stream `s`: non-empty pieces of at most 64 KiB. */
  ghost predicate Chunking(s: Bytes, chunks: seq<Bytes>) {
    Joined(chunks) == s && forall i | 0 <= i < |chunks| :: 1 <= |chunks[i]| <= CHUNK_BYTES
  }

  /** The chunks left unread, and the buffer that then holds a line. */
  datatype Receipt = Receipt(unread: seq<Bytes>, buffer: Result<Bytes, ReceiveError>)

  function Receive(buffer: Bytes, chunks: seq<Bytes>): (r: Receipt)
    ensures r.buffer.Ok? ==> NEWLINE in r.buffer.value
    decreases |chunks|
  {
    if NEWLINE in buffer then Receipt(chunks, Ok(buffer))
    else if chunks == [] then Receipt([], Err(Disconnected))
    else if |buffer + chunks[0]| > MAX_MESSAGE_BYTES then Receipt(chunks[1..], Err(TooLarge))
    else Receive(buffer + chunks[0], chunks[1..])
  }

  /** The receiving end of one connection: its buffer, and the chunks the socket will still return. */
  class LineReceiver {
    var buffer: Bytes
    var chunks: seq<Bytes>

    constructor (chunks: seq<Bytes>)
      ensures buffer == [] && this.chunks == chunks
    {
      buffer := [];
      this.chunks := chunks;
    }

    /** `_receive_line`: the result and the leftovers are exactly what the unread bytes and their chunking determine. */
    method ReceiveLine() returns (r: Result<Bytes, ReceiveError>)
      modifies this
      ensures var receipt := Receive(old(buffer), old(chunks));
              chunks == receipt.unread &&
              (if receipt.buffer.Ok?
               then r == Ok(FirstLine(receipt.buffer.value)) && buffer == AfterLine(receipt.buffer.value)
               else r == Err(receipt.buffer.error))
    {
      while NEWLINE !in buffer
        invariant Receive(old(buffer), old(chunks)) == Receive(buffer, chunks)
        decreases |chunks|
      {
        if chunks == [] {
          return Err(Disconnected);
        }
        var grown := buffer + chunks[0];
        if |grown| > MAX_MESSAGE_BYTES {
          buffer, chunks := grown, chunks[1..];
          return Err(TooLarge);
        }
        buffer, chunks := grown, chunks[1..];
      }
      var whole := buffer;
      r := Ok(FirstLine(whole));
      buffer := AfterLine(whole);
    }

    /** Receiving line after line from a stream within the limit yields its lines, however it was cut into chunks. */
    method ReceiveAll() returns (lines: seq<Bytes>)
      requires |buffer + Joined(chunks)| <= MAX_MESSAGE_BYTES
      modifies this
      ensures lines == Lines(old(buffer + Joined(chunks)))
    {
      lines := [];
      ghost var stream := buffer + Joined(chunks);
      while true
        invariant |buffer + Joined(chunks)| <= MAX_MESSAGE_BYTES
        invariant Lines(stream) == lines + Lines(buffer + Joined(chunks))
        decreases |buffer + Joined(chunks)|
      {
        ReceiveMeaning(buffer, chunks);
        ghost var unread := buffer + Joined(chunks);
        var r := ReceiveLine();
        if r.Err? {
          return;
        }
        OneMoreLine(stream, lines, unread, r.value, buffer + Joined(chunks));
        lines := lines + [r.value];
      }
    }
  }

  /** A received line is the first one of the bytes sent, and the leftovers are the rest; an error names its cause. */
  lemma {:induction false} ReceiveMeaning(buffer: Bytes, chunks: seq<Bytes>)
    ensures
      var receipt, s := Receive(buffer, chunks), buffer + Joined(chunks);
      match receipt.buffer
      case Ok(whole) =>
        s == FirstLine(whole) + [NEWLINE] + (AfterLine(whole) + Joined(receipt.unread)) && NEWLINE !in FirstLine(whole)
      case Err(Disconnected) => Lines(s) == []
      case Err(TooLarge) => |s| > MAX_MESSAGE_BYTES
    decreases |chunks|
  {
    if NEWLINE in buffer {
      assert buffer == FirstLine(buffer) + [NEWLINE] + AfterLine(buffer);
      Regroup(FirstLine(buffer) + [NEWLINE], AfterLine(buffer), Joined(chunks));
    } else if chunks != [] {
      Regroup(buffer, chunks[0], Joined(chunks[1..]));
      ReceiveMeaning(buffer + chunks[0], chunks[1..]);
    } else {
      assert buffer + Joined(chunks) == buffer;
    }
  }

  lemma OneMoreLine(stream: Bytes, lines: seq<Bytes>, left: Bytes, line: Bytes, rest: Bytes)
    requires Lines(stream) == lines + Lines(left) && left == line + [NEWLINE] + rest && NEWLINE !in line
    ensures Lines(stream) == (lines + [line]) + Lines(rest) && |rest| < |left|
  {
    LinesCons(line, rest);
    Regroup(lines, [line], Lines(rest));
  }

  // ----- when a line survives every chunking

  predicate Accepts(chunks: seq<Bytes>) {
    Receive([], chunks).buffer.Ok?
  }

  ghost predicate AlwaysReceived(s: Bytes) {
    forall chunks | Chunking(s, chunks) :: Accepts(chunks)
  }

  lemma NotYet(buffer: Bytes, more: Bytes)
    requires NEWLINE !in buffer && NEWLINE in buffer + more
    ensures |buffer| <= |FirstLine(buffer + more)|
  {
    var n := |FirstLine(buffer + more)|;
    if n < |buffer| {
      assert false;
    }
  }

  lemma {:induction false} SmallNeverTooLarge(buffer: Bytes, chunks: seq<Bytes>, n: nat)
    requires forall i | 0 <= i < |chunks| :: 1 <= |chunks[i]| <= CHUNK_BYTES
    requires var s := buffer + Joined(chunks);
             NEWLINE in s && |FirstLine(s)| == n && Min(|s|, n + CHUNK_BYTES) <= MAX_MESSAGE_BYTES
    ensures Receive(buffer, chunks).buffer.Ok?
    decreases |chunks|
  {
    var s := buffer + Joined(chunks);
    if NEWLINE !in buffer {
      NotYet(buffer, Joined(chunks));
      assert chunks != [];
      assert buffer + chunks[0] + Joined(chunks[1..]) == s;
      assert |buffer + chunks[0]| <= Min(|s|, n + CHUNK_BYTES);
      SmallNeverTooLarge(buffer + chunks[0], chunks[1..], n);
    }
  }

  /** `s` cut into full chunks and one shorter last one. */
  function Pieces(s: Bytes): (chunks: seq<Bytes>)
    ensures Chunking(s, chunks)
    decreases |s|
  {
    if s == [] then []
    else if |s| <= CHUNK_BYTES then
      assert Joined([s]) == s + Joined([]);
      [s]
    else
      var tail := Pieces(s[CHUNK_BYTES..]);
      var chunks := [s[..CHUNK_BYTES]] + tail;
      assert chunks[1..] == tail;
      chunks
  }

  lemma {:induction false} JoinedConcat(a: seq<Bytes>, b: seq<Bytes>)
    ensures Joined(a + b) == Joined(a) + Joined(b)
    decreases |a|
  {
    if a == [] {
      assert a + b == b;
    } else {
      JoinedConcat(a[1..], b);
      assert (a + b)[1..] == a[1..] + b;
    }
  }

  /** Once the newline-free `front` has been buffered, one more chunk that crosses the limit is refused. */
  lemma {:induction false} Overflows(buffer: Bytes, front: seq<Bytes>, next: Bytes, tail: seq<Bytes>)
    requires NEWLINE !in buffer + Joined(front) && |buffer + Joined(front)| + |next| > MAX_MESSAGE_BYTES
    ensures !Receive(buffer, front + [next] + tail).buffer.Ok?
    decreases |front|
  {
    var chunks := front + [next] + tail;
    if front == [] {
      assert chunks[0] == next && buffer + Joined(front) == buffer;
    } else {
      assert chunks[0] == front[0] && chunks[1..] == front[1..] + [next] + tail;
      assert buffer + Joined(front) == buffer + front[0] + Joined(front[1..]);
      Overflows(buffer + front[0], front[1..], next, tail);
    }
  }

  /**
   * A line arrives under every chunking exactly when the line plus one whole chunk, or everything sent so far,
   * stays within the limit: the length test looks at the buffer, not at the line.
   */
  lemma AlwaysReceivedIff(s: Bytes)
    requires NEWLINE in s
    ensures AlwaysReceived(s) <==> Min(|s|, |FirstLine(s)| + CHUNK_BYTES) <= MAX_MESSAGE_BYTES
  {
    var n := |FirstLine(s)|;
    if Min(|s|, n + CHUNK_BYTES) <= MAX_MESSAGE_BYTES {
      forall chunks | Chunking(s, chunks)
        ensures Accepts(chunks)
      {
        assert [] + Joined(chunks) == s;
        SmallNeverTooLarge([], chunks, n);
      }
    } else {
      var chunks := OverflowingChunking(s, n);
    }
  }

  /** The first `n` bytes in pieces, one chunk across the limit, then the rest. */
  lemma OverflowingChunking(s: Bytes, n: nat) returns (chunks: seq<Bytes>)
    requires n < |s| && NEWLINE !in s[..n] && Min(|s|, n + CHUNK_BYTES) > MAX_MESSAGE_BYTES
    ensures Chunking(s, chunks) && !Accepts(chunks)
  {
    var k := Min(|s|, n + CHUNK_BYTES);
    var a, next, b := s[..n], s[n..k], s[k..];
    var front, tail := Pieces(a), Pieces(b);
    chunks := front + [next] + tail;
    JoinedConcat(front + [next], tail);
    JoinedConcat(front, [next]);
    assert Joined([next]) == next + Joined([]) == next;
    assert s == a + next + b;
    assert [] + Joined(front) == a;
    Overflows([], front, next, tail);
  }

  /**
   * The sender counts the payload, the receiver the newline too: a payload of up to 1048576 bytes is sent, and then,
   * sent alone, received under every chunking if it leaves one byte, and under none if it has exactly the limit.
   */
  lemma SentPayloadReceived(payload: Bytes, chunks: seq<Bytes>)
    requires NEWLINE !in payload
    ensures SendLine(payload) == if |payload| <= 1048576 then Ok(payload + [NEWLINE]) else Err(TooLarge)
    ensures |payload| <= 1048576 && Chunking(payload + [NEWLINE], chunks) ==>
              (Accepts(chunks) <==> |payload| + 1 <= 1048576)
  {
    if |payload| <= 1048576 && Chunking(payload + [NEWLINE], chunks) {
      var s := SendLine(payload).value;
      FirstLineUnique(payload, []);
      assert payload + [NEWLINE] + [] == s;
      assert [] + Joined(chunks) == s;
      if |payload| + 1 <= MAX_MESSAGE_BYTES {
        SmallNeverTooLarge([], chunks, |payload|);
      } else {
        NeverFits([], chunks);
      }
    }
  }

  /** A stream whose only newline comes after the limit is refused however it is cut. */
  lemma {:induction false} NeverFits(buffer: Bytes, chunks: seq<Bytes>)
    requires NEWLINE !in buffer
    requires var s := buffer + Joined(chunks); |s| > MAX_MESSAGE_BYTES && NEWLINE !in s[..|s| - 1]
    ensures !Receive(buffer, chunks).buffer.Ok?
    decreases |chunks|
  {
    if chunks != [] && |buffer + chunks[0]| <= MAX_MESSAGE_BYTES {
      var s := buffer + Joined(chunks);
      var grown := buffer + chunks[0];
      assert grown + Joined(chunks[1..]) == s;
      assert NEWLINE !in grown by {
        assert grown <= s[..|s| - 1];
      }
      NeverFits(grown, chunks[1..]);
    }
  }
}
