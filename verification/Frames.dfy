/** Length-prefixed IPC frames: the two encoders and the stream reader. A body is the JSON text of an envelope. */
module Frames {

  type Byte = b: int | 0 <= b < 256

  type Bytes = seq<Byte>

  const U32: int := 0x1_0000_0000
  const MAX_BODY: int := 5 * 1024 * 1024

  function LowByte(n: int): Byte {
    n % 0x100
  }

  function ToBigEndian(n: int): (bytes: Bytes)
    requires 0 <= n < U32
    ensures |bytes| == 4
  {
    [LowByte(n / 0x100_0000), LowByte(n / 0x1_0000), LowByte(n / 0x100), LowByte(n)]
  }

  function FromBigEndian(bytes: Bytes): (n: int)
    requires |bytes| == 4
    ensures 0 <= n < U32
  {
    var b0: int, b1: int, b2: int, b3: int := bytes[0], bytes[1], bytes[2], bytes[3];
    b0 * 0x100_0000 + b1 * 0x1_0000 + b2 * 0x100 + b3
  }

  lemma BigEndianRoundTrip(n: int)
    requires 0 <= n < U32
    ensures FromBigEndian(ToBigEndian(n)) == n
  {
    assert n / 0x100 == n / 0x1_0000 * 0x100 + LowByte(n / 0x100);
    assert n / 0x1_0000 == n / 0x100_0000 * 0x100 + LowByte(n / 0x1_0000);
    assert n / 0x100_0000 == LowByte(n / 0x100_0000);
  }

  /** Most significant byte first: prefixes compare byte by byte as their lengths do. */
  lemma PrefixesCompareAsNumbers(m: int, n: int)
    requires 0 <= m < n < U32
    ensures exists k :: 0 <= k < 4 && ToBigEndian(m)[..k] == ToBigEndian(n)[..k] && ToBigEndian(m)[k] < ToBigEndian(n)[k]
  {
    var a, b := ToBigEndian(m), ToBigEndian(n);
    BigEndianRoundTrip(m);
    BigEndianRoundTrip(n);
    var k := if a[0] != b[0] then 0 else if a[1] != b[1] then 1 else if a[2] != b[2] then 2 else 3;
    FirstDifference(a, b, k);
  }

  lemma FirstDifference(a: Bytes, b: Bytes, k: nat)
    requires |a| == |b| == 4 && FromBigEndian(a) < FromBigEndian(b)
    requires k == if a[0] != b[0] then 0 else if a[1] != b[1] then 1 else if a[2] != b[2] then 2 else 3
    ensures a[..k] == b[..k] && a[k] < b[k]
  {
  }

  /** The length prefix is cut to 32 bits. */
  function Encoded(body: Bytes): Bytes {
    ToBigEndian(|body| % U32) + body
  }

  method EncodeFrame(body: Bytes) returns (frame: Bytes)
    ensures frame == Encoded(body)
  {
    var len := |body| % U32;
    frame := [];
    frame := frame + ToBigEndian(len);
    frame := frame + body;
  }

  /** The frame of a broadcast event, built by code of its own in the same layout. */
  method PushFrame(raw: Bytes) returns (frame: Bytes)
    ensures frame == Encoded(raw)
  {
    var len := |raw| % U32;
    frame := ToBigEndian(len);
    frame := frame + raw;
  }

  function EncodeAll(bodies: seq<Bytes>): Bytes {
    if bodies == [] then [] else Encoded(bodies[0]) + EncodeAll(bodies[1..])
  }

  /** Why reading stopped: the stream ended with these bytes unread, or a frame was too large. */
  datatype End = EndOfStream(leftover: Bytes) | TooLarge

  datatype Reading = Reading(bodies: seq<Bytes>, end: End)

  /** Whether a whole frame of acceptable size is at the front of the stream. */
  predicate HasFrame(stream: Bytes) {
    |stream| >= 4 && FromBigEndian(stream[..4]) <= MAX_BODY && |stream| - 4 >= FromBigEndian(stream[..4])
  }

  predicate HasLargeFrame(stream: Bytes) {
    |stream| >= 4 && FromBigEndian(stream[..4]) > MAX_BODY
  }

  function FirstBody(stream: Bytes): Bytes
    requires HasFrame(stream)
  {
    stream[4..4 + FromBigEndian(stream[..4])]
  }

  function AfterFirst(stream: Bytes): Bytes
    requires HasFrame(stream)
  {
    stream[4 + FromBigEndian(stream[..4])..]
  }

  function Read(stream: Bytes): Reading
    decreases |stream|
  {
    if HasFrame(stream) then
      var rest := Read(AfterFirst(stream));
      Reading([FirstBody(stream)] + rest.bodies, rest.end)
    else
      Reading([], if HasLargeFrame(stream) then TooLarge else EndOfStream(stream))
  }

  /** The reader loop, on a stream that is not cancelled inside a frame. */
  method ReadFrames(stream: Bytes) returns (bodies: seq<Bytes>, end: End)
    ensures Reading(bodies, end) == Read(stream)
  {
    hide Read, FromBigEndian;
    bodies := [];
    var unread := stream;
    while true
      invariant bodies + Read(unread).bodies == Read(stream).bodies
      invariant Read(unread).end == Read(stream).end
      decreases |unread|
    {
      ReadStep(bodies, unread);
      if |unread| < 4 { return bodies, EndOfStream(unread); }
      var len := FromBigEndian(unread[..4]);
      if len > MAX_BODY { return bodies, TooLarge; }
      if |unread| - 4 < len { return bodies, EndOfStream(unread); }
      bodies := bodies + [unread[4..4 + len]];
      unread := unread[4 + len..];
    }
  }

  lemma ReadStep(bodies: seq<Bytes>, unread: Bytes)
    ensures if HasFrame(unread) then
      && bodies + Read(unread).bodies == bodies + [FirstBody(unread)] + Read(AfterFirst(unread)).bodies
      && Read(unread).end == Read(AfterFirst(unread)).end
    else
      && bodies + Read(unread).bodies == bodies
      && Read(unread).end == if HasLargeFrame(unread) then TooLarge else EndOfStream(unread)
  {
    hide FirstBody, AfterFirst, HasFrame, HasLargeFrame;
    if HasFrame(unread) {
      var rest := Read(AfterFirst(unread)).bodies;
      assert bodies + ([FirstBody(unread)] + rest) == bodies + [FirstBody(unread)] + rest;
    }
  }

  /** Why reading stops: a length over 5 MiB stops it at once, even before any of that body has come; otherwise
      less than a whole frame is left over. */
  lemma {:induction false} WhyReadingStops(stream: Bytes)
    ensures Read(stream) == Reading([], TooLarge) <==> |stream| >= 4 && FromBigEndian(stream[..4]) > 5_242_880
    ensures Read(stream).end.EndOfStream? ==>
      var left := Read(stream).end.leftover;
      |left| < 4 || |left| < 4 + FromBigEndian(left[..4]) <= 4 + 5_242_880
    decreases |stream|
  {
    hide FromBigEndian;
    if HasFrame(stream) { WhyReadingStops(AfterFirst(stream)); }
  }

  // ----- Round trip -------------------------------------------------------------------------

  lemma FirstFrame(body: Bytes, rest: Bytes)
    requires |body| <= MAX_BODY
    ensures HasFrame(Encoded(body) + rest)
    ensures FirstBody(Encoded(body) + rest) == body && AfterFirst(Encoded(body) + rest) == rest
  {
    hide ToBigEndian, FromBigEndian;
    BigEndianRoundTrip(|body|);
    assert (Encoded(body) + rest)[..4] == ToBigEndian(|body|);
  }

  predicate AllSmall(bodies: seq<Bytes>) {
    forall b :: b in bodies ==> |b| <= MAX_BODY
  }

  lemma Associative<T>(a: seq<T>, b: seq<T>, c: seq<T>)
    ensures a + b + c == a + (b + c)
  {
  }

  /** Small bodies are read back in order, and reading goes on with whatever follows them. */
  lemma {:induction false} SmallBodiesAreRead(bodies: seq<Bytes>, rest: Bytes)
    requires AllSmall(bodies)
    ensures Read(EncodeAll(bodies) + rest) == Reading(bodies + Read(rest).bodies, Read(rest).end)
  {
    hide Encoded, FirstBody, AfterFirst, HasFrame, HasLargeFrame;
    if bodies == [] {
      assert EncodeAll(bodies) + rest == rest;
      assert bodies + Read(rest).bodies == Read(rest).bodies;
    } else {
      var tail := EncodeAll(bodies[1..]) + rest;
      assert AllSmall(bodies[1..]);
      SmallBodiesAreRead(bodies[1..], rest);
      FirstFrame(bodies[0], tail);
      Associative(Encoded(bodies[0]), EncodeAll(bodies[1..]), rest);
      Associative([bodies[0]], bodies[1..], Read(rest).bodies);
      assert [bodies[0]] + bodies[1..] == bodies;
    }
  }

  /** A body over 5 MiB is not read back: its frame is refused, or its cut length is a shorter body's. */
  lemma LargeBodyIsNotRead(body: Bytes, rest: Bytes)
    requires |body| > MAX_BODY
    ensures var r := Read(Encoded(body) + rest);
      r.bodies == [] || r.bodies[0] != body
    ensures |body| < U32 ==> Read(Encoded(body) + rest) == Reading([], TooLarge)
  {
    hide ToBigEndian, FromBigEndian;
    var stream := Encoded(body) + rest;
    BigEndianRoundTrip(|body| % U32);
    assert stream[..4] == ToBigEndian(|body| % U32);
    if HasFrame(stream) {
      assert |FirstBody(stream)| == |body| % U32 <= MAX_BODY;
    }
  }

  /** Reading the concatenation of encoded frames gives back exactly their bodies with nothing
      left over, if and only if every body is at most 5 MiB. */
  lemma {:induction false} FramesRoundTrip(bodies: seq<Bytes>)
    ensures Read(EncodeAll(bodies)) == Reading(bodies, EndOfStream([])) <==> AllSmall(bodies)
  {
    if AllSmall(bodies) {
      SmallBodiesAreRead(bodies, []);
      assert EncodeAll(bodies) + [] == EncodeAll(bodies);
      assert bodies + [] == bodies;
    } else {
      LargeBodiesAreNotRead(bodies);
    }
  }

  lemma {:induction false} LargeBodiesAreNotRead(bodies: seq<Bytes>)
    requires !AllSmall(bodies)
    ensures Read(EncodeAll(bodies)).bodies != bodies
  {
    hide Encoded, FirstBody, AfterFirst, HasFrame;
    var tail := EncodeAll(bodies[1..]);
    if |bodies[0]| > MAX_BODY {
      LargeBodyIsNotRead(bodies[0], tail);
    } else {
      var large :| large in bodies && |large| > MAX_BODY;
      assert large in bodies[1..];
      LargeBodiesAreNotRead(bodies[1..]);
      FirstFrame(bodies[0], tail);
      assert Read(EncodeAll(bodies)).bodies[1..] == Read(tail).bodies;
    }
  }

  /** Different sequences of small bodies never share a byte stream. */
  lemma StreamsAreUnambiguous(bodies: seq<Bytes>, others: seq<Bytes>)
    requires AllSmall(bodies) && AllSmall(others) && EncodeAll(bodies) == EncodeAll(others)
    ensures bodies == others
  {
    FramesRoundTrip(bodies);
    FramesRoundTrip(others);
  }

  /** Everything before a frame that is too large is still delivered; nothing after it is. */
  lemma ReadingStopsAtTooLarge(bodies: seq<Bytes>, large: Bytes, rest: Bytes)
    requires AllSmall(bodies) && MAX_BODY < |large| < U32
    ensures Read(EncodeAll(bodies) + (Encoded(large) + rest)) == Reading(bodies, TooLarge)
  {
    SmallBodiesAreRead(bodies, Encoded(large) + rest);
    LargeBodyIsNotRead(large, rest);
    assert bodies + [] == bodies;
  }

  /** A frame is four bytes, the highest first, that give the length of the body, and then the body; bodies
      up to 5242880 bytes count as small. */
  lemma Layout(body: Bytes)
    requires |body| < 0x1_0000_0000
    ensures var frame := Encoded(body); var b0: int, b1: int, b2: int, b3: int := frame[0], frame[1], frame[2], frame[3];
      && |frame| == 4 + |body| && frame[4..] == body
      && b0 * 16_777_216 + b1 * 65_536 + b2 * 256 + b3 == |body|
    ensures AllSmall([body]) <==> |body| <= 5_242_880
  {
    hide ToBigEndian;
    BigEndianRoundTrip(|body|);
    assert Encoded(body)[..4] == ToBigEndian(|body|);
    assert Encoded(body)[4..] == body;
    assert body in [body];
  }
}
