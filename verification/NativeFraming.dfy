/** Length-prefixed native messages (browser_executor/native_messaging.py). */
module NativeFraming {
  import opened Common
  import opened LineFraming

  /** `struct.pack("=I", n)`: four bytes, in the order of the host. */
  function Header(n: nat, little: bool): (h: Bytes)
    requires n < 0x1_0000_0000
    ensures |h| == 4
  {
    var q1 := n / 256;
    var q2 := q1 / 256;
    var b0, b1, b2, b3 := (n % 256) as Byte, (q1 % 256) as Byte, (q2 % 256) as Byte, (q2 / 256) as Byte;
    if little then [b0, b1, b2, b3] else [b3, b2, b1, b0]
  }

  function HeaderValue(h: Bytes, little: bool): nat
    requires |h| == 4
  {
    if little then FourBytes(h[0] as nat, h[1] as nat, h[2] as nat, h[3] as nat)
    else FourBytes(h[3] as nat, h[2] as nat, h[1] as nat, h[0] as nat)
  }

  function FourBytes(b0: nat, b1: nat, b2: nat, b3: nat): nat {
    b0 + 256 * b1 + 65536 * b2 + 16777216 * b3
  }

  lemma HeaderRoundTrip(n: nat, little: bool)
    requires n < 0x1_0000_0000
    ensures HeaderValue(Header(n, little), little) == n
  {
    var q1 := n / 256;
    var q2 := q1 / 256;
    assert n == n % 256 + 256 * q1 && q1 == q1 % 256 + 256 * q2 && q2 == q2 % 256 + 256 * (q2 / 256);
  }

  /** The header determines the length and the length the header. */
  lemma HeaderInjective(h: Bytes, little: bool)
    requires |h| == 4
    ensures HeaderValue(h, little) < 0x1_0000_0000 && Header(HeaderValue(h, little), little) == h
  {
    var n := HeaderValue(h, little);
    var g := if little then h else [h[3], h[2], h[1], h[0]];
    var a, b, c, d := g[0] as int, g[1] as int, g[2] as int, g[3] as int;
    var q1 := b + 256 * (c + 256 * d);
    var q2 := c + 256 * d;
    assert n / 256 == q1 && n % 256 == a;
    assert q1 / 256 == q2 && q1 % 256 == b && q2 / 256 == d && q2 % 256 == c;
  }

  datatype FrameError = HeaderTruncated | SizeInvalid | PayloadTruncated

  predicate Sendable(payload: Bytes) {
    1 <= |payload| <= MAX_MESSAGE_BYTES
  }

  function Frame(payload: Bytes, little: bool): Bytes
    requires Sendable(payload)
  {
    Header(|payload|, little) + payload
  }

  function Frames(payloads: seq<Bytes>, little: bool): Bytes
    requires forall i | 0 <= i < |payloads| :: Sendable(payloads[i])
  {
    if payloads == [] then [] else Frame(payloads[0], little) + Frames(payloads[1..], little)
  }

  /** A native input stream and how far it has been read. */
  class NativeInput {
    const bytes: Bytes
    const little: bool
    var position: nat

    constructor (bytes: Bytes, little: bool)
      ensures this.bytes == bytes && this.little == little && position == 0
    {
      this.bytes := bytes;
      this.little := little;
      position := 0;
    }

    ghost function Remaining(): Bytes
      requires position <= |bytes|
      reads this
    {
      bytes[position..]
    }

    /** `stream.read(n)`: up to `n` bytes, fewer only at the end. */
    method Read(n: nat) returns (b: Bytes)
      requires position <= |bytes|
      modifies this`position
      ensures position <= |bytes| && position == old(position) + |b| && old(Remaining()) == b + Remaining()
      ensures |b| == Min(n, |old(Remaining())|)
    {
      var end := Min(position + n, |bytes|);
      b := bytes[position..end];
      assert bytes[position..] == bytes[position..end] + bytes[end..];
      position := end;
    }

    /**
     * `read_native_message` up to the payload bytes: a whole message, the end of the stream, or an error that names
     * what is missing. `None` is the end of the stream.
     */
    method ReadMessage() returns (r: Result<Option<Bytes>, FrameError>)
      requires position <= |bytes|
      modifies this`position
      ensures position <= |bytes|
      ensures r == Parsed(old(Remaining()), little)
      ensures r.Ok? && r.value.Some? ==> old(Remaining()) == Frame(r.value.value, little) + Remaining()
    {
      var header := Read(4);
      if header == [] {
        return Ok(None);
      }
      if |header| != 4 {
        return Err(HeaderTruncated);
      }
      assert old(Remaining())[..4] == header && old(Remaining())[4..] == Remaining();
      var length := HeaderValue(header, little);
      if length <= 0 || length > MAX_MESSAGE_BYTES {
        return Err(SizeInvalid);
      }
      HeaderInjective(header, little);
      ghost var body := Remaining();
      var payload := Read(length);
      if |payload| != length {
        return Err(PayloadTruncated);
      }
      assert payload == body[..length];
      Regroup(header, payload, Remaining());
      return Ok(Some(payload));
    }
  }

  /** What the unread bytes `s` say about the next message. */
  function Parsed(s: Bytes, little: bool): (r: Result<Option<Bytes>, FrameError>)
    ensures r.Ok? && r.value.Some? ==> Sendable(r.value.value)
  {
    if s == [] then Ok(None)
    else if |s| < 4 then Err(HeaderTruncated)
    else
      var length := HeaderValue(s[..4], little);
      if length <= 0 || length > MAX_MESSAGE_BYTES then Err(SizeInvalid)
      else if |s| < 4 + length then Err(PayloadTruncated)
      else Ok(Some(s[4..][..length]))
  }

  /** A whole frame parses to its payload, a frame cut short to an error, never to another payload. */
  lemma ParsedFrame(p: Bytes, tail: Bytes, k: nat, little: bool)
    requires Sendable(p) && k <= |Frame(p, little) + tail|
    ensures var r := Parsed((Frame(p, little) + tail)[..k], little);
            if k == 0 then r == Ok(None)
            else if k < 4 then r == Err(HeaderTruncated)
            else if k < 4 + |p| then r == Err(PayloadTruncated)
            else r == Ok(Some(p))
  {
    var s := (Frame(p, little) + tail)[..k];
    if k >= 4 {
      assert s[..4] == Header(|p|, little);
      HeaderRoundTrip(|p|, little);
      if k >= 4 + |p| {
        assert s[4..][..|p|] == p;
      }
    }
  }

  lemma FrameUnique(p: Bytes, s: Bytes, q: Bytes, t: Bytes, little: bool)
    requires Sendable(p) && Sendable(q) && Frame(p, little) + s == Frame(q, little) + t
    ensures p == q && s == t
  {
    Regroup(Header(|p|, little), p, s);
    Regroup(Header(|q|, little), q, t);
    SameSplit(Header(|p|, little), p + s, Header(|q|, little), q + t);
    HeaderRoundTrip(|p|, little);
    HeaderRoundTrip(|q|, little);
    SameSplit(p, s, q, t);
  }

  /** How many of the frames lie wholly within the first `cut` bytes. */
  function Whole(payloads: seq<Bytes>, cut: nat): (n: nat)
    ensures n <= |payloads|
  {
    if payloads == [] || cut < 4 + |payloads[0]| then 0 else 1 + Whole(payloads[1..], cut - 4 - |payloads[0]|)
  }

  function FrameBytes(payloads: seq<Bytes>): nat {
    if payloads == [] then 0 else 4 + |payloads[0]| + FrameBytes(payloads[1..])
  }

  /** `left` more bytes of the frames of `rest` are still unread. */
  ghost predicate CutTo(s: Bytes, rest: seq<Bytes>, left: nat, little: bool) {
    (forall i | 0 <= i < |rest| :: Sendable(rest[i])) &&
    left <= |Frames(rest, little)| && s == Frames(rest, little)[..left]
  }

  /** Reading one message off a cut stream. */
  lemma CutStep(s: Bytes, rest: seq<Bytes>, left: nat, little: bool)
    requires CutTo(s, rest, left, little)
    ensures Parsed(s, little) == Ok(None) <==> left == 0
    ensures Parsed(s, little) != Err(SizeInvalid)
    ensures left > 0 ==>
              rest != [] && (Parsed(s, little).Ok? <==> 4 + |rest[0]| <= left) &&
              (Parsed(s, little).Ok? ==> Parsed(s, little) == Ok(Some(rest[0])))
    ensures forall tail | left > 0 && Parsed(s, little).Ok? && s == Frame(rest[0], little) + tail ::
              CutTo(tail, rest[1..], left - 4 - |rest[0]|, little)
  {
    if left > 0 {
      ParsedFrame(rest[0], Frames(rest[1..], little), left, little);
      forall tail | Parsed(s, little).Ok? && s == Frame(rest[0], little) + tail
        ensures CutTo(tail, rest[1..], left - 4 - |rest[0]|, little)
      {
        CutTail(rest, left, tail, little);
      }
    }
  }

  lemma CutTail(rest: seq<Bytes>, left: nat, tail: Bytes, little: bool)
    requires rest != [] && Sendable(rest[0]) && CutTo(Frame(rest[0], little) + tail, rest, left, little)
    requires 4 + |rest[0]| <= left
    ensures CutTo(tail, rest[1..], left - 4 - |rest[0]|, little)
  {
    var frame, more := Frame(rest[0], little), Frames(rest[1..], little);
    assert (frame + more)[..left] == frame + more[..left - |frame|];
    SameSplit(frame, tail, frame, more[..left - |frame|]);
  }

  /** `messages` have been read, and `left` more bytes `s` of the cut stream have not. */
  ghost predicate ReadSoFar(
      payloads: seq<Bytes>, cut: nat, little: bool, messages: seq<Bytes>, s: Bytes, left: nat)
  {
    messages <= payloads && CutTo(s, payloads[|messages|..], left, little) &&
    Whole(payloads, cut) == |messages| + Whole(payloads[|messages|..], left) && FrameBytes(messages) + left == cut
  }

  lemma ReadNothing(payloads: seq<Bytes>, cut: nat, little: bool)
    requires (forall i | 0 <= i < |payloads| :: Sendable(payloads[i])) && cut <= |Frames(payloads, little)|
    ensures ReadSoFar(payloads, cut, little, [], Frames(payloads, little)[..cut], cut)
  {
    assert payloads[0..] == payloads;
  }

  lemma ReadOneMore(
      payloads: seq<Bytes>, cut: nat, little: bool, messages: seq<Bytes>, s: Bytes, left: nat, p: Bytes, tail: Bytes)
    requires ReadSoFar(payloads, cut, little, messages, s, left)
    requires Parsed(s, little) == Ok(Some(p)) && s == Frame(p, little) + tail
    ensures 4 + |p| <= left && ReadSoFar(payloads, cut, little, messages + [p], tail, left - 4 - |p|)
  {
    var rest := payloads[|messages|..];
    CutStep(s, rest, left, little);
    assert rest[1..] == payloads[|messages| + 1..];
    FrameBytesSnoc(messages, p);
  }

  /** Nothing more is read at the end of the stream or after an error, and nothing more is there to be read whole. */
  lemma ReadAll(payloads: seq<Bytes>, cut: nat, little: bool, messages: seq<Bytes>, s: Bytes, left: nat)
    requires ReadSoFar(payloads, cut, little, messages, s, left)
    requires Parsed(s, little).Err? || Parsed(s, little).value.None?
    ensures messages == payloads[..Whole(payloads, cut)] && Parsed(s, little) != Err(SizeInvalid)
    ensures Parsed(s, little).Ok? <==> FrameBytes(messages) == cut
  {
    CutStep(s, payloads[|messages|..], left, little);
    PrefixIsTake(messages, payloads);
  }

  /**
   * Reading a stream of frames that was cut anywhere yields exactly the messages wholly before the cut, unaltered,
   * and ends without an error exactly when the cut falls between two messages.
   */
  method ReadCutStream(payloads: seq<Bytes>, cut: nat, little: bool)
    returns (messages: seq<Bytes>, error: Option<FrameError>)
    requires forall i | 0 <= i < |payloads| :: Sendable(payloads[i])
    requires cut <= |Frames(payloads, little)|
    ensures messages == payloads[..Whole(payloads, cut)]
    ensures error.None? <==> FrameBytes(messages) == cut
    ensures error != Some(SizeInvalid)
  {
    var input := new NativeInput(Frames(payloads, little)[..cut], little);
    messages, error := [], None;
    var left: nat := cut;
    ReadNothing(payloads, cut, little);
    while true
      invariant input.little == little && input.position <= |input.bytes|
      invariant ReadSoFar(payloads, cut, little, messages, input.Remaining(), left)
      decreases left
    {
      ghost var s := input.Remaining();
      var r := input.ReadMessage();
      if r.Err? || r.value.None? {
        ReadAll(payloads, cut, little, messages, s, left);
        error := if r.Err? then Some(r.error) else None;
        return;
      }
      ReadOneMore(payloads, cut, little, messages, s, left, r.value.value, input.Remaining());
      messages := messages + [r.value.value];
      left := left - 4 - |r.value.value|;
    }
  }

  lemma {:induction false} FrameBytesSnoc(payloads: seq<Bytes>, last: Bytes)
    ensures FrameBytes(payloads + [last]) == FrameBytes(payloads) + 4 + |last|
    decreases |payloads|
  {
    if payloads == [] {
      assert (payloads + [last])[1..] == [];
    } else {
      FrameBytesSnoc(payloads[1..], last);
      assert (payloads + [last])[1..] == payloads[1..] + [last];
    }
  }
}
