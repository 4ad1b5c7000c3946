/**
 The fixed-size record a child writes on the control pipe when a setup stage or
 the final execveat fails, and the byte encoding it travels in (three 32-bit
 fields, little-endian, in declaration order).
 */
module ControlRecord {
  type Byte = b: int | 0 <= b < 256
  type Word = n: int | 0 <= n < 0x1_0000_0000
  type SignedWord = n: int | -0x8000_0000 <= n < 0x8000_0000

  datatype Stage =
    | ProcessGroup
    | StandardStreams
    | MountIsolation
    | NetworkIsolation
    | WorkingDirectory
    | CapabilityDrop
    | Containment
    | ResourceLimits
    | Execute

  datatype Record = Record(stage: Stage, value: SignedWord, detail: Word)

  const RECORD_SIZE: nat := 12

  const STAGES: seq<Stage> := [
    ProcessGroup, StandardStreams, MountIsolation, NetworkIsolation, WorkingDirectory,
    CapabilityDrop, Containment, ResourceLimits, Execute
  ]

  function StageCode(stage: Stage): Word {
    match stage
    case ProcessGroup => 0
    case StandardStreams => 1
    case MountIsolation => 2
    case NetworkIsolation => 3
    case WorkingDirectory => 4
    case CapabilityDrop => 5
    case Containment => 6
    case ResourceLimits => 7
    case Execute => 8
  }

  function EncodeWord(n: Word): (s: seq<Byte>)
    ensures |s| == 4
  {
    [n % 256, n / 256 % 256, n / 0x1_0000 % 256, n / 0x100_0000]
  }

  function DecodeWord(s: seq<Byte>): Word
    requires |s| == 4
  {
    var b0: int, b1: int, b2: int, b3: int := s[0], s[1], s[2], s[3];
    b0 + 256 * b1 + 0x1_0000 * b2 + 0x100_0000 * b3
  }

  /** Two's complement view of a signed 32-bit field. */
  function Unsigned(n: SignedWord): Word {
    if n < 0 then n + 0x1_0000_0000 else n
  }

  function Signed(n: Word): SignedWord {
    if n < 0x8000_0000 then n else n - 0x1_0000_0000
  }

  function Encode(r: Record): (s: seq<Byte>)
    ensures |s| == RECORD_SIZE
  {
    EncodeWord(StageCode(r.stage)) + EncodeWord(Unsigned(r.value)) + EncodeWord(r.detail)
  }

  datatype Decoded = Decoded(code: Word, value: SignedWord, detail: Word)

  /** The memcpy back into the record: every 12-byte buffer decodes to some field values. */
  function Decode(s: seq<Byte>): Decoded
    requires |s| == RECORD_SIZE
  {
    Decoded(DecodeWord(s[..4]), Signed(DecodeWord(s[4..8])), DecodeWord(s[8..]))
  }

  lemma WordRoundTrip(n: Word)
    ensures DecodeWord(EncodeWord(n)) == n
  {
    assert n / 256 / 256 == n / 0x1_0000;
    assert n / 0x1_0000 / 256 == n / 0x100_0000;
  }

  /** A complete buffer gives back exactly the stage, errno and detail that were reported. */
  lemma RecordRoundTrip(r: Record)
    ensures Decode(Encode(r)) == Decoded(StageCode(r.stage), r.value, r.detail)
  {
    var s := Encode(r);
    assert s[..4] == EncodeWord(StageCode(r.stage));
    assert s[4..8] == EncodeWord(Unsigned(r.value));
    assert s[8..] == EncodeWord(r.detail);
    WordRoundTrip(StageCode(r.stage));
    WordRoundTrip(Unsigned(r.value));
    WordRoundTrip(r.detail);
  }

  lemma EncodeInjective(a: Record, b: Record)
    requires Encode(a) == Encode(b)
    ensures a == b
  {
    RecordRoundTrip(a);
    RecordRoundTrip(b);
    assert STAGES[StageCode(a.stage)] == a.stage && STAGES[StageCode(b.stage)] == b.stage;
  }

  /** Result of one write(2) on the control pipe: some bytes, EINTR, or a hard error. */
  datatype WriteResult = Wrote(n: nat) | WriteInterrupted | WriteBroken

  /** Whether a schedule of write results lets `left` bytes through before a hard error. */
  predicate Delivers(writes: seq<WriteResult>, left: nat) {
    if left == 0 then true
    else if writes == [] then false
    else match writes[0]
      case Wrote(n) => n > 0 && Delivers(writes[1..], if n < left then left - n else 0)
      case WriteInterrupted => Delivers(writes[1..], left)
      case WriteBroken => false
  }

  /** The writing loop of report_child_error: what reaches the pipe is always a prefix of the
      record, and it is the whole record exactly when the schedule delivers all twelve bytes. */
  method ReportChildError(r: Record, writes: seq<WriteResult>) returns (sent: seq<Byte>)
    ensures sent <= Encode(r)
    ensures sent == Encode(r) <==> Delivers(writes, RECORD_SIZE)
  {
    var bytes := Encode(r);
    var offset, i := 0, 0;
    while offset < RECORD_SIZE && i < |writes|
      invariant 0 <= offset <= RECORD_SIZE && i <= |writes|
      invariant Delivers(writes, RECORD_SIZE) == Delivers(writes[i..], RECORD_SIZE - offset)
      decreases |writes| - i
    {
      assert writes[i..][1..] == writes[i + 1..];
      match writes[i] {
        case Wrote(n) =>
          if n == 0 { break; }
          offset := offset + if n < RECORD_SIZE - offset then n else RECORD_SIZE - offset;
        case WriteInterrupted =>
        case WriteBroken => break;
      }
      i := i + 1;
    }
    sent := bytes[..offset];
    assert sent == bytes <==> offset == RECORD_SIZE;
  }
}
