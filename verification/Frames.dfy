/** The framed wire format: a canonical, self-delimiting encoding read through arbitrary chunks. */
module Frames {
  import opened Fabric

  type byte = b: int | 0 <= b < 0x100
  type u32 = n: int | 0 <= n < 0x1_0000_0000

  const MAGIC: u32 := 0x5246_3100
  const VERSION: int := 1
  const MAX_FRAME: nat := 0x100_0000
  const HEADER: nat := 12

  datatype MessageType = Request | Reply | Heartbeat | HeartbeatAck

  datatype Message = Message(kind: MessageType, payload: seq<byte>)

  function Code(k: MessageType): (b: byte) {
    match k
    case Request => 1
    case Reply => 2
    case Heartbeat => 3
    case HeartbeatAck => 4
  }

  function FromCode(b: byte): (k: Option<MessageType>)
    ensures forall m: MessageType :: Code(m) == b <==> k == Some(m)
  {
    if b == 1 then Some(Request)
    else if b == 2 then Some(Reply)
    else if b == 3 then Some(Heartbeat)
    else if b == 4 then Some(HeartbeatAck)
    else None
  }

  /** The checksum of header and payload. Nothing below depends on which function it is. */
  type Sum = (seq<byte>, seq<byte>) -> u32

  // ------------------------------------------------------------------
  // The format
  // ------------------------------------------------------------------

  function Be4(n: u32): (s: seq<byte>)
    ensures |s| == 4
  {
    var q := n / 0x100;
    var p := q / 0x100;
    [p / 0x100, p % 0x100, q % 0x100, n % 0x100]
  }

  function FromBe4(s: seq<byte>): (n: u32)
    requires |s| == 4
  {
    var high: int := s[0] as int * 0x100 + s[1] as int;
    var low: int := s[2] as int * 0x100 + s[3] as int;
    high * 0x1_0000 + low
  }

  lemma BeRoundTrip(n: u32)
    ensures FromBe4(Be4(n)) == n
  {
  }

  lemma BeCanonical(s: seq<byte>)
    requires |s| == 4
    ensures Be4(FromBe4(s)) == s
  {
    var n := FromBe4(s) as int;
    var q := s[0] as int * 0x1_0000 + s[1] as int * 0x100 + s[2] as int;
    assert n == q * 0x100 + s[3] as int && n / 0x100 == q;
    assert q / 0x100 == s[0] as int * 0x100 + s[1] as int;
  }

  /** The length field keeps the low 32 bits. */
  function LengthField(m: Message): (n: u32) {
    |m.payload| % 0x1_0000_0000
  }

  function Header(m: Message): (h: seq<byte>)
    ensures |h| == HEADER
  {
    Be4(MAGIC) + [0, VERSION] + [Code(m.kind), 0] + Be4(LengthField(m))
  }

  function Encode(sum: Sum, m: Message): (frame: seq<byte>)
    ensures |frame| == HEADER + 4 + |m.payload|
  {
    Header(m) + Be4(sum(Header(m), m.payload)) + m.payload
  }

  predicate Sendable(m: Message) {
    |m.payload| <= MAX_FRAME
  }

  /** What a frame at the start of `s` fixes of `s`, byte by byte: magic, version, kind, and length and
      checksum with the high byte first. */
  lemma Fields(sum: Sum, m: Message, s: seq<byte>)
    requires Sendable(m) && Encode(sum, m) <= s
    ensures |s| >= 16 + |m.payload|
    ensures s[..8] == [0x52, 0x46, 0x31, 0x00, 0x00, 0x01,
                       (match m.kind case Request => 1 case Reply => 2 case Heartbeat => 3 case HeartbeatAck => 4), 0x00]
    ensures s[8] as int * 0x100_0000 + s[9] as int * 0x1_0000 + s[10] as int * 0x100 + s[11] as int == |m.payload|
    ensures s[12] as int * 0x100_0000 + s[13] as int * 0x1_0000 + s[14] as int * 0x100 + s[15] as int == sum(s[..12], m.payload)
    ensures s[16..16 + |m.payload|] == m.payload
  {
    HeaderFields(m);
    FrameFields(sum, m, s);
    BytesOf(s[8..12]);
    BytesOf(s[12..16]);
    assert s[..8] == s[..12][..8];
  }

  lemma HeaderFields(m: Message)
    ensures Header(m)[..8] == [0x52, 0x46, 0x31, 0x00, 0x00, 0x01,
                               (match m.kind case Request => 1 case Reply => 2 case Heartbeat => 3 case HeartbeatAck => 4), 0x00]
  {
    assert Be4(MAGIC) == [0x52, 0x46, 0x31, 0x00];
  }

  lemma FrameFields(sum: Sum, m: Message, s: seq<byte>)
    requires Sendable(m) && Encode(sum, m) <= s
    ensures |s| >= 16 + |m.payload| && s[..12] == Header(m)
    ensures s[4] == 0 && s[5] == VERSION && s[6] == Code(m.kind) && s[7] == 0 && s[..4] == Be4(MAGIC)
    ensures FromBe4(s[8..12]) == |m.payload| && FromBe4(s[12..16]) == sum(s[..12], m.payload)
    ensures s[12..16] == Be4(sum(s[..12], m.payload)) && s[16..16 + |m.payload|] == m.payload
  {
    var e := Encode(sum, m);
    assert forall i :: 0 <= i < |e| ==> s[i] == e[i];
    assert s[8..12] == Be4(LengthField(m));
    BeRoundTrip(LengthField(m));
    assert s[..12] == Header(m);
    BeRoundTrip(sum(s[..12], m.payload));
  }

  lemma BytesOf(s: seq<byte>)
    requires |s| == 4
    ensures FromBe4(s) == s[0] as int * 0x100_0000 + s[1] as int * 0x1_0000 + s[2] as int * 0x100 + s[3] as int
  {
  }

  lemma ReadsHeader(m: Message, h: seq<byte>)
    requires Sendable(m) && |h| == HEADER
    requires FromBe4(h[..4]) == MAGIC && h[4] == 0 && h[5] == VERSION && h[6] == Code(m.kind) && h[7] == 0
    requires FromBe4(h[8..12]) == |m.payload|
    ensures h == Header(m)
  {
    BeCanonical(h[..4]);
    BeCanonical(h[8..12]);
    assert h == h[..4] + [h[4], h[5]] + [h[6], h[7]] + h[8..12];
  }

  /** A frame at the start of `s`, read back from its fields. */
  lemma Reads(sum: Sum, m: Message, s: seq<byte>)
    requires Sendable(m) && |s| >= HEADER + 4 + |m.payload|
    requires s[..12] == Header(m) && s[16..16 + |m.payload|] == m.payload
    requires FromBe4(s[12..16]) == sum(s[..12], m.payload)
    ensures Encode(sum, m) <= s
  {
    BeCanonical(s[12..16]);
    assert s[..16 + |m.payload|] == s[..12] + s[12..16] + s[16..16 + |m.payload|];
  }

  /** Two frames cannot start the same bytes. */
  lemma Unambiguous(sum: Sum, m: Message, n: Message, s: seq<byte>)
    requires Sendable(m) && Sendable(n) && Encode(sum, m) <= s && Encode(sum, n) <= s
    ensures m == n
  {
    FrameFields(sum, m, s);
    FrameFields(sum, n, s);
    assert FromCode(s[6]) == Some(m.kind) && FromCode(s[6]) == Some(n.kind);
  }

  /** Appends the fields of a frame. Whatever is written after it, the only message a reader can take
      from the result is `m`; beyond the limit it is no message's frame. */
  method EncodeFrame(sum: Sum, m: Message) returns (buf: seq<byte>)
    ensures buf == Encode(sum, m)
    ensures Sendable(m) ==> forall tail, n :: Sendable(n) && Encode(sum, n) <= buf + tail ==> n == m
    ensures !Sendable(m) ==> forall n :: Sendable(n) ==> Encode(sum, n) != buf
  {
    buf := [];
    buf := buf + Be4(MAGIC);
    buf := buf + [0, VERSION];
    buf := buf + [Code(m.kind)];
    buf := buf + [0];
    buf := buf + Be4(|m.payload| % 0x1_0000_0000);
    assert buf == Header(m);
    var crc := sum(buf, m.payload);
    buf := buf + Be4(crc);
    buf := buf + m.payload;
    if Sendable(m) { OnlyReading(sum, m); }
  }

  lemma OnlyReading(sum: Sum, m: Message)
    requires Sendable(m)
    ensures forall tail, n :: Sendable(n) && Encode(sum, n) <= Encode(sum, m) + tail ==> n == m
  {
    forall tail, n | Sendable(n) && Encode(sum, n) <= Encode(sum, m) + tail ensures n == m {
      Unambiguous(sum, m, n, Encode(sum, m) + tail);
    }
  }

  // ------------------------------------------------------------------
  // Reading
  // ------------------------------------------------------------------

  /** A connection: each read yields some of what is left, and nothing only at the end. */
  class Reader {
    var rest: seq<byte>

    constructor (bytes: seq<byte>)
      ensures rest == bytes
    {
      rest := bytes;
    }

    method Read(most: nat) returns (chunk: seq<byte>)
      requires most > 0
      modifies this
      ensures old(rest) == chunk + rest && |chunk| <= most
      ensures chunk == [] <==> old(rest) == []
    {
      if rest == [] { return []; }
      var n :| 1 <= n <= most && n <= |rest|;
      chunk := rest[..n];
      rest := rest[n..];
    }

    /** Reads until `n` bytes have come or the stream ends. */
    method Fill(n: nat) returns (got: seq<byte>)
      modifies this
      ensures old(rest) == got + rest && |got| <= n
      ensures |got| < n ==> rest == []
    {
      got := [];
      while |got| < n
        invariant old(rest) == got + rest && |got| <= n
        decreases n - |got|
      {
        var chunk := Read(n - |got|);
        if chunk == [] { return; }
        got := got + chunk;
      }
    }
  }

  ghost predicate StartsFrame(sum: Sum, s: seq<byte>) {
    exists m :: Sendable(m) && Encode(sum, m) <= s
  }

  /** What a header announces, unless it is refused. */
  function Announced(h: seq<byte>): (start: Option<(MessageType, nat)>)
    requires |h| == HEADER
  {
    if FromBe4(h[..4]) != MAGIC || h[4] != 0 || h[5] != VERSION || FromCode(h[6]).None? || h[7] != 0 || FromBe4(h[8..12]) > MAX_FRAME then None
    else Some((FromCode(h[6]).value, FromBe4(h[8..12])))
  }

  lemma AnnouncedFrame(sum: Sum, m: Message, s: seq<byte>)
    requires Sendable(m) && Encode(sum, m) <= s
    ensures |s| >= HEADER && Announced(s[..12]) == Some((m.kind, |m.payload|))
  {
    FrameFields(sum, m, s);
    BeRoundTrip(MAGIC);
    assert s[..12][..4] == s[..4] && s[..12][8..12] == s[8..12];
    assert FromCode(s[6]) == Some(m.kind);
  }

  lemma NoFrame(sum: Sum, s: seq<byte>)
    requires |s| < HEADER || Announced(s[..12]).None?
             || (var n := Announced(s[..12]).value.1;
                 |s| < HEADER + 4 + n || FromBe4(s[12..16]) != sum(s[..12], s[16..16 + n]))
    ensures !StartsFrame(sum, s)
  {
    if StartsFrame(sum, s) {
      var m :| Sendable(m) && Encode(sum, m) <= s;
      AnnouncedFrame(sum, m, s);
      FrameFields(sum, m, s);
    }
  }

  /** Reads one frame, however the reader cuts it up: the end of the stream, or exactly the bytes of
      one encoded message, or an error exactly when what is left starts with no frame. */
  method Decode(sum: Sum, reader: Reader) returns (res: Result<Option<Message>>)
    modifies reader
    ensures res == Ok(None) <==> old(reader.rest) == []
    ensures res == Ok(None) ==> reader.rest == []
    ensures res.Ok? && res.value.Some? ==> Sendable(res.value.value) && old(reader.rest) == Encode(sum, res.value.value) + reader.rest
    ensures res.Err? <==> old(reader.rest) != [] && !StartsFrame(sum, old(reader.rest))
  {
    ghost var s := reader.rest;
    var header := reader.Fill(HEADER);
    if |header| < HEADER {
      NoFrame(sum, s);
      return if header == [] then Ok(None) else Err(RecoveryFailure);
    }
    assert header == s[..12];
    var start := Announced(header);
    if start.None? {
      NoFrame(sum, s);
      return Err(RecoveryFailure);
    }
    var (kind, length) := start.value;
    var crc := reader.Fill(4);
    if |crc| < 4 {
      NoFrame(sum, s);
      return Err(RecoveryFailure);
    }
    var payload := reader.Fill(length);
    if |payload| < length {
      NoFrame(sum, s);
      return Err(RecoveryFailure);
    }
    Cut(s, header, crc, payload, reader.rest);
    if FromBe4(crc) != sum(header, payload) {
      NoFrame(sum, s);
      return Err(RecoveryFailure);
    }
    var m := Message(kind, payload);
    ReadsHeader(m, header);
    Reads(sum, m, s);
    return Ok(Some(m));
  }

  lemma Cut(s: seq<byte>, header: seq<byte>, crc: seq<byte>, payload: seq<byte>, rest: seq<byte>)
    requires |header| == HEADER && |crc| == 4 && s == header + (crc + (payload + rest))
    ensures s[..12] == header && s[12..16] == crc && s[16..16 + |payload|] == payload && rest == s[16 + |payload|..]
  {
  }

  /** The bytes after the header that a reader takes for the payload: as many as the length field,
      which keeps the low 32 bits only, says. */
  function ReadPayload(m: Message): (payload: seq<byte>) {
    m.payload[..LengthField(m)]
  }

  /** Whatever follows, an encoded frame is accepted exactly when its length field is within the limit
      and the checksum of the payload a reader takes is that of the payload written. */
  lemma AcceptedIff(sum: Sum, m: Message, tail: seq<byte>)
    ensures StartsFrame(sum, Encode(sum, m) + tail)
            <==> |m.payload| % 0x1_0000_0000 <= 0x100_0000 && sum(Header(m), ReadPayload(m)) == sum(Header(m), m.payload)
  {
    if LengthField(m) <= MAX_FRAME && sum(Header(m), ReadPayload(m)) == sum(Header(m), m.payload) {
      Accepted(sum, m, tail);
    } else {
      Refused(sum, m, tail);
    }
  }

  /** What a reader takes has the header that was sent. */
  lemma SameHeader(m: Message)
    ensures Header(Message(m.kind, ReadPayload(m))) == Header(m) && |ReadPayload(m)| == LengthField(m)
  {
  }

  lemma Accepted(sum: Sum, m: Message, tail: seq<byte>)
    requires LengthField(m) <= MAX_FRAME && sum(Header(m), ReadPayload(m)) == sum(Header(m), m.payload)
    ensures StartsFrame(sum, Encode(sum, m) + tail)
  {
    FrameStart(sum, m, Encode(sum, m) + tail);
    SameHeader(m);
    ReadsStart(sum, m, Encode(sum, m) + tail);
  }

  lemma ReadsStart(sum: Sum, m: Message, s: seq<byte>)
    requires |s| >= HEADER + 4 + |ReadPayload(m)| && |ReadPayload(m)| <= MAX_FRAME
    requires s[..12] == Header(m) == Header(Message(m.kind, ReadPayload(m))) && s[16..16 + |ReadPayload(m)|] == ReadPayload(m)
    requires FromBe4(s[12..16]) == sum(Header(m), ReadPayload(m))
    ensures StartsFrame(sum, s)
  {
    Reads(sum, Message(m.kind, ReadPayload(m)), s);
  }

  lemma Refused(sum: Sum, m: Message, tail: seq<byte>)
    requires LengthField(m) > MAX_FRAME || sum(Header(m), ReadPayload(m)) != sum(Header(m), m.payload)
    ensures !StartsFrame(sum, Encode(sum, m) + tail)
  {
    var s := Encode(sum, m) + tail;
    FrameStart(sum, m, s);
    NoFrame(sum, s);
  }

  lemma FrameStart(sum: Sum, m: Message, s: seq<byte>)
    requires Encode(sum, m) <= s
    ensures s[..12] == Header(m) && FromBe4(s[12..16]) == sum(Header(m), m.payload)
    ensures s[16..16 + LengthField(m)] == ReadPayload(m)
    ensures Announced(s[..12]) == if LengthField(m) <= MAX_FRAME then Some((m.kind, LengthField(m) as nat)) else None
  {
    var e := Encode(sum, m);
    assert forall i :: 0 <= i < |e| ==> s[i] == e[i];
    assert s[..12] == Header(m);
    assert s[12..16] == Be4(sum(Header(m), m.payload));
    BeRoundTrip(sum(Header(m), m.payload));
    var h := Header(m);
    assert h[..4] == Be4(MAGIC) && h[8..12] == Be4(LengthField(m));
    BeRoundTrip(MAGIC);
    BeRoundTrip(LengthField(m));
  }

  /** What a reader makes of a frame with a payload of 4 GiB or more is never the message written. */
  lemma TruncatedDiffers(sum: Sum, m: Message, n: Message, tail: seq<byte>)
    requires Sendable(n) && Encode(sum, n) <= Encode(sum, m) + tail
    ensures n == Message(m.kind, ReadPayload(m))
    ensures n == m <==> Sendable(m)
  {
    var s := Encode(sum, m) + tail;
    FrameStart(sum, m, s);
    AnnouncedFrame(sum, n, s);
    FrameFields(sum, n, s);
  }

  function Stream(sum: Sum, ms: seq<Message>): (bytes: seq<byte>) {
    if ms == [] then [] else Encode(sum, ms[0]) + Stream(sum, ms[1..])
  }

  ghost predicate AllSendable(ms: seq<Message>) {
    forall m <- ms :: Sendable(m)
  }

  lemma StreamSnoc(sum: Sum, ms: seq<Message>, m: Message)
    ensures Stream(sum, ms + [m]) == Stream(sum, ms) + Encode(sum, m)
  {
    if ms == [] {
      assert ms + [m] == [m];
    } else {
      assert (ms + [m])[1..] == ms[1..] + [m];
      StreamSnoc(sum, ms[1..], m);
    }
  }

  /** A stream is decoded in one way only: messages read off its front are the ones written. */
  lemma {:induction false} StreamFront(sum: Sum, got: seq<Message>, tail: seq<byte>, sent: seq<Message>)
    requires AllSendable(got) && AllSendable(sent) && Stream(sum, got) + tail == Stream(sum, sent)
    ensures got <= sent && tail == Stream(sum, sent[|got|..])
    decreases |got|
  {
    if got != [] {
      var frame := Encode(sum, got[0]);
      assert Stream(sum, sent) == frame + (Stream(sum, got[1..]) + tail);
      assert frame <= Stream(sum, sent) && Sendable(got[0]) && Sendable(sent[0]);
      assert Encode(sum, sent[0]) <= Stream(sum, sent);
      Unambiguous(sum, got[0], sent[0], Stream(sum, sent));
      assert Stream(sum, sent[1..]) == Stream(sum, sent)[|frame|..] == Stream(sum, got[1..]) + tail;
      StreamFront(sum, got[1..], tail, sent[1..]);
      assert got == [got[0]] + got[1..] && sent == [sent[0]] + sent[1..];
    }
  }

  lemma StreamDecides(sum: Sum, got: seq<Message>, tail: seq<byte>, sent: seq<Message>)
    requires AllSendable(got) && AllSendable(sent) && Stream(sum, got) + tail == Stream(sum, sent)
    ensures tail == [] ==> got == sent
    ensures tail != [] ==> StartsFrame(sum, tail)
  {
    StreamFront(sum, got, tail, sent);
    var left := sent[|got|..];
    if left != [] { assert Sendable(left[0]) && Encode(sum, left[0]) <= tail; }
  }

  lemma TailDecides(sum: Sum, got: seq<Message>, tail: seq<byte>, s: seq<byte>)
    requires Received(sum, s, got, tail)
    ensures tail == [] ==> s == Stream(sum, got)
    ensures tail == [] ==> forall sent :: AllSendable(sent) && s == Stream(sum, sent) ==> got == sent
    ensures tail != [] && !StartsFrame(sum, tail) ==> forall sent :: AllSendable(sent) ==> s != Stream(sum, sent)
  {
    forall sent | AllSendable(sent) && s == Stream(sum, sent)
      ensures tail == [] ==> got == sent
      ensures tail != [] ==> StartsFrame(sum, tail)
    {
      StreamDecides(sum, got, tail, sent);
    }
  }

  /** Reads a connection to its end. It returns the messages whose frames were written, in order,
      and refuses exactly the byte streams that are no such concatenation. */
  method ReceiveAll(sum: Sum, reader: Reader) returns (res: Result<seq<Message>>)
    modifies reader
    ensures res.Ok? ==> AllSendable(res.value) && old(reader.rest) == Stream(sum, res.value) && reader.rest == []
    ensures forall sent :: AllSendable(sent) && old(reader.rest) == Stream(sum, sent) ==> res == Ok(sent)
  {
    var got: seq<Message> := [];
    ghost var s := reader.rest;
    while true
      invariant Received(sum, s, got, reader.rest)
      decreases |reader.rest|
    {
      ghost var tail := reader.rest;
      TailDecides(sum, got, tail, s);
      var next := Decode(sum, reader);
      if next.Err? { return Err(next.error); }
      if next.value.None? { return Ok(got); }
      ReceivedMore(sum, s, got, tail, next.value.value, reader.rest);
      got := got + [next.value.value];
    }
  }

  /** `got` has been read off the front of `s`, and `tail` is left. */
  ghost predicate Received(sum: Sum, s: seq<byte>, got: seq<Message>, tail: seq<byte>) {
    AllSendable(got) && s == Stream(sum, got) + tail
  }

  lemma ReceivedMore(sum: Sum, s: seq<byte>, got: seq<Message>, tail: seq<byte>, m: Message, rest: seq<byte>)
    requires Received(sum, s, got, tail) && tail == Encode(sum, m) + rest && Sendable(m)
    ensures Received(sum, s, got + [m], rest) && |rest| < |tail|
  {
    StreamSnoc(sum, got, m);
  }

  /** Cutting a frame short anywhere but at its boundary leaves no frame. */
  lemma CutShort(sum: Sum, m: Message, p: seq<byte>)
    requires Sendable(m) && p <= Encode(sum, m) && p != Encode(sum, m)
    ensures !StartsFrame(sum, p)
  {
    if StartsFrame(sum, p) {
      var n :| Sendable(n) && Encode(sum, n) <= p;
      Unambiguous(sum, m, n, Encode(sum, m));
    }
  }
}
