/**
 rtnetlink messages as bytes (section 2.3.2 of RFC 3549), and the walk over the messages of a datagram.
 Fields are little-endian.
 */
module Netlink {
  import opened ControlRecord

  type Half = n: int | 0 <= n < 0x1_0000

  datatype Message = Message(kind: Half, flags: Half, number: Word, port: Word, payload: seq<Byte>)

  const HEADER: nat := 16
  const NLMSG_ERROR: Half := 2
  const NLMSG_DONE: Half := 3
  const RTM_NEWLINK: Half := 16
  const RTM_GETLINK: Half := 18
  const NLM_F_REQUEST: Half := 1
  const NLM_F_ACK: Half := 4
  const NLM_F_DUMP: Half := 0x300

  function Length(m: Message): nat {
    HEADER + |m.payload|
  }

  /** The length has to fit its 32-bit field. */
  predicate Sendable(m: Message) {
    Length(m) < 0x1_0000_0000
  }

  /** NLMSG_ALIGN. */
  function Align(n: nat): (r: nat)
    ensures n <= r < n + 4
  {
    (n + 3) / 4 * 4
  }

  // ----- bytes ---------------------------------------------------------------------------------

  function EncodeHalf(n: Half): (s: seq<Byte>)
    ensures |s| == 2
  {
    [n % 256, n / 256]
  }

  function HalfAt(s: seq<Byte>, at: nat): Half
    requires at + 2 <= |s|
  {
    var b0: int, b1: int := s[at], s[at + 1];
    b0 + 256 * b1
  }

  function WordAt(s: seq<Byte>, at: nat): Word
    requires at + 4 <= |s|
  {
    DecodeWord(s[at..at + 4])
  }

  function EncodeHeader(m: Message): (s: seq<Byte>)
    requires Sendable(m)
    ensures |s| == HEADER
  {
    EncodeWord(Length(m)) + EncodeHalf(m.kind) + EncodeHalf(m.flags) + EncodeWord(m.number) + EncodeWord(m.port)
  }

  function EncodeMessage(m: Message): (s: seq<Byte>)
    requires Sendable(m)
    ensures |s| == Length(m)
  {
    EncodeHeader(m) + m.payload
  }

  // ----- the walk ------------------------------------------------------------------------------

  /** valid_netlink_message: a whole header and the length it announces have been received. */
  predicate ValidAt(data: seq<Byte>) {
    |data| >= HEADER && HEADER <= WordAt(data, 0) <= |data|
  }

  function FirstMessage(data: seq<Byte>): Message
    requires ValidAt(data)
  {
    Message(HalfAt(data, 4), HalfAt(data, 6), WordAt(data, 8), WordAt(data, 12), data[HEADER..WordAt(data, 0)])
  }

  /** What is left after `n` bytes and their padding; the padding of the last message may be missing. */
  function After(data: seq<Byte>, n: nat): seq<Byte> {
    if Align(n) <= |data| then data[Align(n)..] else []
  }

  /** The messages a datagram is read as. */
  function Parse(data: seq<Byte>): seq<Message>
    decreases |data|
  {
    if !ValidAt(data) then [] else [FirstMessage(data)] + Parse(After(data, WordAt(data, 0)))
  }

  /** Bytes that are these messages, each padded with any bytes, followed by `rest`. */
  ghost predicate Carries(data: seq<Byte>, ms: seq<Message>, rest: seq<Byte>)
    decreases |ms|
  {
    if ms == [] then data == rest
    else Sendable(ms[0]) && EncodeMessage(ms[0]) <= data && Carries(After(data, Length(ms[0])), ms[1..], rest)
  }

  /** Where the walk stops. */
  function Leftover(data: seq<Byte>): (rest: seq<Byte>)
    decreases |data|
    ensures !ValidAt(rest)
  {
    if !ValidAt(data) then data else Leftover(After(data, WordAt(data, 0)))
  }

  lemma HalfRoundTrip(n: Half)
    ensures HalfAt(EncodeHalf(n), 0) == n
  {}

  lemma HeaderFields(m: Message)
    requires Sendable(m)
    ensures var s := EncodeHeader(m);
            && WordAt(s, 0) == Length(m) && HalfAt(s, 4) == m.kind && HalfAt(s, 6) == m.flags
            && WordAt(s, 8) == m.number && WordAt(s, 12) == m.port
  {
    var s := EncodeHeader(m);
    assert s[0..4] == EncodeWord(Length(m)) && s[8..12] == EncodeWord(m.number) && s[12..16] == EncodeWord(m.port);
    assert s[4..6] == EncodeHalf(m.kind) && s[6..8] == EncodeHalf(m.flags);
    assert s[4] == EncodeHalf(m.kind)[0] && s[5] == EncodeHalf(m.kind)[1];
    assert s[6] == EncodeHalf(m.flags)[0] && s[7] == EncodeHalf(m.flags)[1];
    WordRoundTrip(Length(m));
    WordRoundTrip(m.number);
    WordRoundTrip(m.port);
    HalfRoundTrip(m.kind);
    HalfRoundTrip(m.flags);
  }

  lemma SameFields(s: seq<Byte>, data: seq<Byte>)
    requires |s| == HEADER && s <= data
    ensures WordAt(s, 0) == WordAt(data, 0) && HalfAt(s, 4) == HalfAt(data, 4) && HalfAt(s, 6) == HalfAt(data, 6)
    ensures WordAt(s, 8) == WordAt(data, 8) && WordAt(s, 12) == WordAt(data, 12)
  {
    assert s[0..4] == data[0..4] && s[8..12] == data[8..12] && s[12..16] == data[12..16];
  }

  /** A message at the front of the received bytes reads back as itself. */
  lemma MessageReadsBack(data: seq<Byte>, m: Message)
    requires Sendable(m) && EncodeMessage(m) <= data
    ensures ValidAt(data) && WordAt(data, 0) == Length(m) && FirstMessage(data) == m
  {
    assert EncodeHeader(m) <= EncodeMessage(m) <= data;
    HeaderFields(m);
    SameFields(EncodeHeader(m), data);
    assert data[HEADER..Length(m)] == EncodeMessage(m)[HEADER..] == m.payload;
  }

  lemma WordReadsBack(s: seq<Byte>)
    requires |s| == 4
    ensures EncodeWord(DecodeWord(s)) == s
  {
    var b0: int, b1: int, b2: int, b3: int := s[0], s[1], s[2], s[3];
    var n: int := DecodeWord(s);
    assert n == b0 + 256 * (b1 + 256 * (b2 + 256 * b3));
    assert n / 256 == b1 + 256 * (b2 + 256 * b3);
    assert n / 256 / 256 == b2 + 256 * b3 && n / 0x1_0000 == n / 256 / 256;
    assert n / 0x1_0000 / 256 == b3 && n / 0x100_0000 == n / 0x1_0000 / 256;
  }

  lemma HalfReadsBack(s: seq<Byte>, at: nat)
    requires at + 2 <= |s|
    ensures EncodeHalf(HalfAt(s, at)) == s[at..at + 2]
  {}

  /** Every valid message is the encoding of what it is read as. */
  lemma ReadsBackAsSent(data: seq<Byte>)
    requires ValidAt(data)
    ensures Sendable(FirstMessage(data)) && Length(FirstMessage(data)) == WordAt(data, 0)
    ensures EncodeMessage(FirstMessage(data)) == data[..WordAt(data, 0)]
  {
    var m := FirstMessage(data);
    WordReadsBack(data[0..4]);
    HalfReadsBack(data, 4);
    HalfReadsBack(data, 6);
    WordReadsBack(data[8..8 + 4]);
    WordReadsBack(data[12..12 + 4]);
    assert EncodeHeader(m) == data[0..4] + data[4..4 + 2] + data[6..6 + 2] + data[8..8 + 4] + data[12..12 + 4];
    assert EncodeHeader(m) == data[..HEADER];
  }

  /** The walk recovers exactly the messages a datagram carries, whatever the padding holds ... */
  lemma {:induction false} CarriedIsParsed(data: seq<Byte>, ms: seq<Message>, rest: seq<Byte>)
    requires Carries(data, ms, rest) && !ValidAt(rest)
    ensures Parse(data) == ms && Leftover(data) == rest
    decreases |ms|
  {
    if ms != [] {
      MessageReadsBack(data, ms[0]);
      CarriedIsParsed(After(data, Length(ms[0])), ms[1..], rest);
      assert ms == [ms[0]] + ms[1..];
    }
  }

  /** ... and invents none: the bytes up to where it stops are the messages it yields. */
  lemma {:induction false} ParsedIsCarried(data: seq<Byte>)
    ensures Carries(data, Parse(data), Leftover(data))
    decreases |data|
  {
    if ValidAt(data) {
      var n := WordAt(data, 0);
      ReadsBackAsSent(data);
      ParsedIsCarried(After(data, n));
      assert Parse(data)[1..] == Parse(After(data, n));
    }
  }

  // ----- reading a receive buffer ---------------------------------------------------------------

  /** A 32-bit field of the first `received` bytes of a buffer. */
  function LoadWord(buffer: array<Byte>, received: nat, at: nat): (w: Word)
    requires at + 4 <= received <= buffer.Length
    reads buffer
    ensures w == WordAt(buffer[..received], at)
  {
    assert buffer[..received][at..at + 4] == buffer[at..at + 4];
    DecodeWord(buffer[at..at + 4])
  }

  function LoadHalf(buffer: array<Byte>, received: nat, at: nat): (h: Half)
    requires at + 2 <= received <= buffer.Length
    reads buffer
    ensures h == HalfAt(buffer[..received], at)
  {
    var b0: int, b1: int := buffer[at], buffer[at + 1];
    b0 + 256 * b1
  }

  /** The received bytes from a cursor on; a cursor past the end has overshot the last padding. */
  function From(data: seq<Byte>, at: nat): seq<Byte> {
    if at <= |data| then data[at..] else []
  }

  /** The header fields read at a cursor are those of the message there. */
  lemma CursorFields(data: seq<Byte>, at: nat)
    requires at + HEADER <= |data|
    ensures WordAt(data, at) == WordAt(From(data, at), 0)
    ensures HalfAt(data, at + 4) == HalfAt(From(data, at), 4) && HalfAt(data, at + 6) == HalfAt(From(data, at), 6)
    ensures WordAt(data, at + 8) == WordAt(From(data, at), 8) && WordAt(data, at + 12) == WordAt(From(data, at), 12)
  {
    var s := From(data, at);
    assert data[at..at + 4] == s[0..4];
    assert data[at + 8..at + 8 + 4] == s[8..8 + 4] && data[at + 12..at + 12 + 4] == s[12..12 + 4];
  }

  /** Advancing the cursor by the aligned length is the same as dropping the message. */
  lemma CursorAdvances(data: seq<Byte>, at: nat, n: nat)
    requires at <= |data|
    ensures From(data, at + Align(n)) == After(From(data, at), n)
  {}

  lemma PayloadWord(data: seq<Byte>, at: nat, k: nat)
    requires at <= |data| && ValidAt(From(data, at)) && HEADER + k + 4 <= WordAt(From(data, at), 0)
    ensures WordAt(data, at + HEADER + k) == WordAt(FirstMessage(From(data, at)).payload, k)
  {
    var s := From(data, at);
    var p := FirstMessage(s).payload;
    assert p[k..k + 4] == s[HEADER + k..HEADER + k + 4] == data[at + HEADER + k..at + HEADER + k + 4];
  }

  /** valid_netlink_message at a cursor with `remaining` bytes to go. */
  function ValidMessage(buffer: array<Byte>, received: nat, at: nat, remaining: int): (ok: bool)
    requires received <= buffer.Length && at + remaining == received
    reads buffer
    ensures ok <==> ValidAt(From(buffer[..received], at))
  {
    assert remaining >= HEADER ==> WordAt(buffer[..received], at) == WordAt(From(buffer[..received], at), 0) by {
      if remaining >= HEADER { CursorFields(buffer[..received], at); }
    }
    remaining >= HEADER && HEADER <= LoadWord(buffer, received, at) <= remaining
  }

  /** A word of the payload of the message at a cursor. */
  function LoadPayload(buffer: array<Byte>, received: nat, at: nat, k: nat): (w: Word)
    requires at <= received <= buffer.Length && ValidAt(From(buffer[..received], at))
    requires HEADER + k + 4 <= WordAt(From(buffer[..received], at), 0)
    reads buffer
    ensures w == WordAt(FirstMessage(From(buffer[..received], at)).payload, k)
  {
    PayloadWord(buffer[..received], at, k);
    LoadWord(buffer, received, at + HEADER + k)
  }

  function LoadLength(buffer: array<Byte>, received: nat, at: nat): (w: Word)
    requires at <= received <= buffer.Length && ValidAt(From(buffer[..received], at))
    reads buffer
    ensures w == WordAt(From(buffer[..received], at), 0) == Length(FirstMessage(From(buffer[..received], at)))
  {
    CursorFields(buffer[..received], at);
    LoadWord(buffer, received, at)
  }

  function LoadKind(buffer: array<Byte>, received: nat, at: nat): (h: Half)
    requires at <= received <= buffer.Length && ValidAt(From(buffer[..received], at))
    reads buffer
    ensures h == FirstMessage(From(buffer[..received], at)).kind
  {
    CursorFields(buffer[..received], at);
    LoadHalf(buffer, received, at + 4)
  }

  function LoadNumber(buffer: array<Byte>, received: nat, at: nat): (w: Word)
    requires at <= received <= buffer.Length && ValidAt(From(buffer[..received], at))
    reads buffer
    ensures w == FirstMessage(From(buffer[..received], at)).number
  {
    CursorFields(buffer[..received], at);
    LoadWord(buffer, received, at + 8)
  }

  /** The message at a cursor and the messages after it. */
  lemma ParseAtCursor(data: seq<Byte>, at: nat)
    requires ValidAt(From(data, at))
    ensures Parse(From(data, at)) ==
            [FirstMessage(From(data, at))] + Parse(From(data, at + Align(WordAt(From(data, at), 0))))
  {
    var s := From(data, at);
    var n := WordAt(s, 0);
    assert Parse(s) == [FirstMessage(s)] + Parse(After(s, n));
    CursorAdvances(data, at, n);
  }
}
