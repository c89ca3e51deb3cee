/** Length-prefixed framing of the notify channel (src/common/notify-protocol.ts). */
module FrameParser {
  type Byte = b: int | 0 <= b < 256
  type Bytes = seq<Byte>

  const HEADER_SIZE := 4
  const LIMIT := 0x1_0000_0000

  /** The four header bytes of a uint32, most significant first. The source's
      `setUint32` keeps the low 32 bits of what it is given. */
  function Header(n: nat): (h: Bytes)
    ensures |h| == HEADER_SIZE
  {
    [n / 0x100_0000 % 256, n / 0x1_0000 % 256, n / 0x100 % 256, n % 256]
  }

  function PayloadLength(h: Bytes): nat
    requires |h| >= HEADER_SIZE
  {
    (h[0] as int) * 0x100_0000 + (h[1] as int) * 0x1_0000 + (h[2] as int) * 0x100 + h[3]
  }

  lemma HeaderRoundTrip(n: nat)
    ensures PayloadLength(Header(n)) == n % LIMIT
  {
    var a, b, c := n / 0x100, n / 0x1_0000, n / 0x100_0000;
    assert n == 0x100 * a + n % 0x100;
    assert b == a / 0x100 && a == 0x100 * b + a % 0x100;
    assert c == b / 0x100 && b == 0x100 * c + b % 0x100;
    assert c == 0x100 * (c / 0x100) + c % 0x100;
    assert n == LIMIT * (c / 0x100) + PayloadLength(Header(n));
  }

  function Encode(payload: Bytes): Bytes {
    Header(|payload|) + payload
  }

  /** The payloads of all complete frames of a stream, and what is left over. */
  datatype Parsed = Parsed(frames: seq<Bytes>, rest: Bytes)

  function Parse(stream: Bytes): Parsed
    decreases |stream|
  {
    if |stream| < HEADER_SIZE then Parsed([], stream) else
    var total := HEADER_SIZE + PayloadLength(stream);
    if |stream| < total then Parsed([], stream) else
    var tail := Parse(stream[total..]);
    Parsed([stream[HEADER_SIZE..total]] + tail.frames, tail.rest)
  }

  /** The length of the first frame, when its header is there. */
  function FrameSize(stream: Bytes): nat
    requires |stream| >= HEADER_SIZE
  {
    HEADER_SIZE + PayloadLength(stream)
  }

  predicate HasFrame(stream: Bytes) { |stream| >= HEADER_SIZE && |stream| >= FrameSize(stream) }

  lemma ParseFrame(stream: Bytes)
    requires HasFrame(stream)
    ensures var tail := Parse(stream[FrameSize(stream)..]);
      Parse(stream) == Parsed([stream[HEADER_SIZE..FrameSize(stream)]] + tail.frames, tail.rest)
  {
  }

  lemma ParseNoFrame(stream: Bytes)
    requires !HasFrame(stream)
    ensures Parse(stream) == Parsed([], stream)
  {
  }

  /** `emitted` so far, `buffer` still to parse. */
  ghost predicate Midway(stream: Bytes, emitted: seq<Bytes>, buffer: Bytes) {
    Parse(stream) == Parsed(emitted + Parse(buffer).frames, Parse(buffer).rest)
  }

  lemma EmitFrame(stream: Bytes, emitted: seq<Bytes>, buffer: Bytes)
    requires HasFrame(buffer) && Midway(stream, emitted, buffer)
    ensures Midway(stream, emitted + [buffer[HEADER_SIZE..FrameSize(buffer)]], buffer[FrameSize(buffer)..])
  {
    ParseFrame(buffer);
    var payload, tail := buffer[HEADER_SIZE..FrameSize(buffer)], Parse(buffer[FrameSize(buffer)..]);
    assert emitted + ([payload] + tail.frames) == emitted + [payload] + tail.frames;
  }

  lemma StartMidway(stream: Bytes)
    ensures Midway(stream, [], stream)
  {
    assert [] + Parse(stream).frames == Parse(stream).frames;
  }

  lemma LeaveRest(stream: Bytes, emitted: seq<Bytes>, buffer: Bytes)
    requires !HasFrame(buffer) && Midway(stream, emitted, buffer)
    ensures Parse(stream) == Parsed(emitted, buffer)
  {
    ParseNoFrame(buffer);
    assert emitted + [] == emitted;
  }

  /** Bytes that arrive later never change what was already emitted. */
  lemma {:induction false} ParseAppend(a: Bytes, b: Bytes)
    ensures var first := Parse(a);
      var second := Parse(first.rest + b);
      Parse(a + b) == Parsed(first.frames + second.frames, second.rest)
    decreases |a|
  {
    if HasFrame(a) {
      var total := FrameSize(a);
      assert FrameSize(a + b) == total && HasFrame(a + b);
      assert (a + b)[total..] == a[total..] + b;
      assert (a + b)[HEADER_SIZE..total] == a[HEADER_SIZE..total];
      ParseFrame(a);
      ParseFrame(a + b);
      ParseAppend(a[total..], b);
      AppendFrames([a[HEADER_SIZE..total]], Parse(a[total..]).frames, Parse(Parse(a).rest + b).frames);
    } else {
      ParseNoFrame(a);
      assert [] + Parse(a + b).frames == Parse(a + b).frames;
    }
  }

  lemma AppendFrames(a: seq<Bytes>, b: seq<Bytes>, c: seq<Bytes>)
    ensures a + (b + c) == a + b + c
  {
  }

  function Concat(chunks: seq<Bytes>): Bytes {
    if chunks == [] then [] else chunks[0] + Concat(chunks[1..])
  }

  /** Everything emitted, and the leftover, when the chunks are pushed one by one. */
  function Feed(buffer: Bytes, chunks: seq<Bytes>): Parsed
    decreases |chunks|
  {
    if chunks == [] then Parsed([], buffer) else
    var first := Parse(buffer + chunks[0]);
    var later := Feed(first.rest, chunks[1..]);
    Parsed(first.frames + later.frames, later.rest)
  }

  /** A leftover holds no complete frame. */
  lemma {:induction false} RestIsIncomplete(stream: Bytes)
    ensures Parse(Parse(stream).rest) == Parsed([], Parse(stream).rest)
    decreases |stream|
  {
    if HasFrame(stream) {
      ParseFrame(stream);
      RestIsIncomplete(stream[FrameSize(stream)..]);
    }
  }

  lemma PushThenRest(buffer: Bytes, chunk: Bytes, later: Bytes)
    ensures var first := Parse(buffer + chunk);
      var second := Parse(first.rest + later);
      Parse(buffer + (chunk + later)) == Parsed(first.frames + second.frames, second.rest)
  {
    ParseAppend(buffer + chunk, later);
    assert buffer + (chunk + later) == buffer + chunk + later;
  }

  lemma {:induction false} FeedIsParse(buffer: Bytes, chunks: seq<Bytes>)
    requires Parse(buffer) == Parsed([], buffer)
    ensures Feed(buffer, chunks) == Parse(buffer + Concat(chunks))
    decreases |chunks|
  {
    if chunks == [] {
      assert buffer + [] == buffer;
    } else {
      var first := Parse(buffer + chunks[0]);
      RestIsIncomplete(buffer + chunks[0]);
      FeedIsParse(first.rest, chunks[1..]);
      PushThenRest(buffer, chunks[0], Concat(chunks[1..]));
    }
  }

  /** However a stream is cut into chunks, the payloads emitted and the bytes
      left over depend only on the stream. */
  lemma ChunkingInvariant(chunks: seq<Bytes>, others: seq<Bytes>)
    requires Concat(chunks) == Concat(others)
    ensures Feed([], chunks) == Feed([], others) == Parse(Concat(chunks))
  {
    FeedIsParse([], chunks);
    FeedIsParse([], others);
    assert [] + Concat(chunks) == Concat(chunks);
  }

  function EncodeAll(payloads: seq<Bytes>): Bytes {
    if payloads == [] then [] else Encode(payloads[0]) + EncodeAll(payloads[1..])
  }

  lemma ParseOneFrame(payload: Bytes, tail: Bytes)
    requires |payload| < LIMIT
    ensures Parse(Encode(payload) + tail) == Parsed([payload] + Parse(tail).frames, Parse(tail).rest)
  {
    var stream := Encode(payload) + tail;
    HeaderRoundTrip(|payload|);
    assert stream[..HEADER_SIZE] == Header(|payload|);
    assert PayloadLength(stream) == PayloadLength(stream[..HEADER_SIZE]) == |payload|;
    assert stream[HEADER_SIZE..HEADER_SIZE + |payload|] == payload;
    assert stream[HEADER_SIZE + |payload|..] == tail;
  }

  /** Parsing concatenated frames gives back exactly the payloads. */
  lemma {:induction false} RoundTrip(payloads: seq<Bytes>)
    requires forall p :: p in payloads ==> |p| < LIMIT
    ensures Parse(EncodeAll(payloads)) == Parsed(payloads, [])
    decreases |payloads|
  {
    if payloads != [] {
      RoundTrip(payloads[1..]);
      ParseOneFrame(payloads[0], EncodeAll(payloads[1..]));
      assert [payloads[0]] + payloads[1..] == payloads;
    }
  }

  /** Together: frames pushed in any chunks come out as their payloads. */
  lemma FramesSurviveAnyChunking(payloads: seq<Bytes>, chunks: seq<Bytes>)
    requires forall p :: p in payloads ==> |p| < LIMIT
    requires Concat(chunks) == EncodeAll(payloads)
    ensures Feed([], chunks) == Parsed(payloads, [])
  {
    ChunkingInvariant(chunks, chunks);
    RoundTrip(payloads);
  }

  /** One frame comes back as itself iff its length fits the header. */
  lemma RoundTripIffFits(payload: Bytes)
    ensures Parse(Encode(payload)) == Parsed([payload], []) <==> |payload| < LIMIT
  {
    assert Encode(payload) + [] == Encode(payload);
    if |payload| < LIMIT {
      ParseOneFrame(payload, []);
    } else {
      HeaderRoundTrip(|payload|);
      assert Encode(payload)[..HEADER_SIZE] == Header(|payload|);
      assert PayloadLength(Encode(payload)) == PayloadLength(Encode(payload)[..HEADER_SIZE]) < |payload|;
      assert |Parse(Encode(payload)).frames[0]| < |payload|;
    }
  }

  method EncodeRawFrame(payload: Bytes) returns (frame: array<Byte>)
    ensures frame[..] == Encode(payload)
  {
    var n := |payload|;
    frame := new Byte[HEADER_SIZE + n](_ => 0);
    frame[0], frame[1], frame[2], frame[3] := n / 0x100_0000 % 256, n / 0x1_0000 % 256, n / 0x100 % 256, n % 256;
    var i := 0;
    while i < n
      invariant 0 <= i <= n
      invariant frame[..HEADER_SIZE] == Header(n)
      invariant frame[HEADER_SIZE..HEADER_SIZE + i] == payload[..i]
    {
      frame[HEADER_SIZE + i] := payload[i];
      i := i + 1;
    }
  }

  /** The streaming parser: keeps what is not yet a whole frame between chunks. */
  class Parser {
    var buffer: Bytes

    constructor ()
      ensures buffer == []
    {
      buffer := [];
    }

    /** The payloads are those passed to onFrame, in order. */
    method Push(data: Bytes) returns (payloads: seq<Bytes>)
      modifies this
      ensures Parsed(payloads, buffer) == Parse(old(buffer) + data)
    {
      if |buffer| == 0 {
        buffer := data;
      } else {
        buffer := buffer + data;
      }
      ghost var stream := buffer;
      assert stream == old(buffer) + data;
      payloads := [];
      StartMidway(stream);
      while |buffer| >= HEADER_SIZE
        invariant Midway(stream, payloads, buffer)
        decreases |buffer|
      {
        var total := HEADER_SIZE + PayloadLength(buffer);
        if |buffer| < total { break; }
        EmitFrame(stream, payloads, buffer);
        var payload := buffer[HEADER_SIZE..total];
        buffer := buffer[total..];
        payloads := payloads + [payload];
      }
      LeaveRest(stream, payloads, buffer);
    }
  }
}
