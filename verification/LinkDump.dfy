/**
 The receive loop of inspect_links over any sequence of receive results, and what a dump of links
 deserves however it is cut into datagrams.
 */
module LinkDump {
  import opened ControlRecord
  import opened Netlink

  const EIO := 5
  const DUMP: Word := 1
  const DUMP_BUFFER: nat := 16384
  const LINK_SIZE: nat := 16
  const ERROR_SIZE: nat := 20
  const MODULUS: nat := 0x1_0000_0000

  // ----- links ---------------------------------------------------------------------------------

  datatype Link = Link(index: SignedWord, flags: Word)

  predicate IsLoopback(l: Link) {
    l.flags / 8 % 2 == 1
  }

  predicate IsUp(l: Link) {
    l.flags % 2 == 1
  }

  /** link_snapshot: both counters wrap at 32 bits. */
  datatype Snapshot = Snapshot(count: Word, loopbacks: Word, index: SignedWord, flags: Word)

  const EMPTY := Snapshot(0, 0, 0, 0)

  function Add(s: Snapshot, l: Link): Snapshot {
    var t := s.(count := (s.count + 1) % MODULUS);
    if IsLoopback(l) then Snapshot(t.count, (s.loopbacks + 1) % MODULUS, l.index, l.flags) else t
  }

  /** An RTM_NEWLINK message long enough to hold an ifinfomsg. */
  predicate IsLink(m: Message) {
    m.kind == RTM_NEWLINK && |m.payload| >= LINK_SIZE
  }

  function LinkOf(m: Message): Link
    requires IsLink(m)
  {
    Link(Signed(WordAt(m.payload, 4)), WordAt(m.payload, 8))
  }

  /** The code an NLMSG_ERROR carries, if it is long enough to carry one. */
  predicate HasCode(m: Message) {
    |m.payload| >= ERROR_SIZE
  }

  function Code(m: Message): SignedWord
    requires HasCode(m)
  {
    Signed(WordAt(m.payload, 0))
  }

  function Errno(code: SignedWord): int {
    var n: int := code;
    -n
  }

  /** The errno a dump ends with on an error message. */
  function DumpError(m: Message): int {
    if !HasCode(m) || Code(m) == 0 then EIO else Errno(Code(m))
  }

  datatype Verdict = Continue(snapshot: Snapshot) | Finished(snapshot: Snapshot) | Broken(errno: int)

  /** One message of the dump. */
  function Step(s: Snapshot, m: Message): Verdict {
    if m.number != DUMP then Continue(s)
    else if m.kind == NLMSG_DONE then Finished(s)
    else if m.kind == NLMSG_ERROR then Broken(DumpError(m))
    else if IsLink(m) then Continue(Add(s, LinkOf(m)))
    else Continue(s)
  }

  function Fold(s: Snapshot, ms: seq<Message>): Verdict
    decreases |ms|
  {
    if ms == [] then Continue(s)
    else
      match Step(s, ms[0])
      case Continue(t) => Fold(t, ms[1..])
      case Finished(t) => Finished(t)
      case Broken(e) => Broken(e)
  }

  // ----- the walk over one datagram -------------------------------------------------------------

  /** The message under the cursor, read field by field out of the buffer. */
  function ReadStep(buffer: array<Byte>, received: nat, at: nat, s: Snapshot): (v: Verdict)
    requires at <= received <= buffer.Length && ValidAt(From(buffer[..received], at))
    reads buffer
    ensures v == Step(s, FirstMessage(From(buffer[..received], at)))
  {
    var kind, length := LoadKind(buffer, received, at), LoadLength(buffer, received, at);
    if LoadNumber(buffer, received, at) != DUMP then Continue(s)
    else if kind == NLMSG_DONE then Finished(s)
    else if kind == NLMSG_ERROR then
      if length < HEADER + ERROR_SIZE then Broken(EIO)
      else
        var code := Signed(LoadPayload(buffer, received, at, 0));
        Broken(if code == 0 then EIO else Errno(code))
    else if kind != RTM_NEWLINK || length < HEADER + LINK_SIZE then Continue(s)
    else Continue(Add(s, Link(Signed(LoadPayload(buffer, received, at, 4)), LoadPayload(buffer, received, at, 8))))
  }

  lemma FoldFirst(s: Snapshot, m: Message, v: Verdict, all: seq<Message>, rest: seq<Message>)
    requires all == [m] + rest && v == Step(s, m)
    ensures Fold(s, all) == if v.Continue? then Fold(v.snapshot, rest) else v
  {
    assert all[1..] == rest;
  }

  /** What the messages from a cursor on amount to. */
  ghost function Outlook(data: seq<Byte>, at: nat, s: Snapshot): Verdict {
    Fold(s, Parse(From(data, at)))
  }

  lemma OutlookKept(data: seq<Byte>, at: nat, s: Snapshot, v: Verdict, next: nat)
    requires ValidAt(From(data, at))
    requires v == Step(s, FirstMessage(From(data, at))) && next == at + Align(WordAt(From(data, at), 0))
    ensures Outlook(data, at, s) == if v.Continue? then Outlook(data, next, v.snapshot) else v
  {
    ParseAtCursor(data, at);
    FoldFirst(s, FirstMessage(From(data, at)), v, Parse(From(data, at)), Parse(From(data, next)));
  }

  /** One pass of the loop: the message under the cursor, and where the cursor goes next. */
  method WalkOne(buffer: array<Byte>, received: nat, at: nat, s: Snapshot, ghost data: seq<Byte>)
    returns (v: Verdict, next: nat)
    requires at <= received <= buffer.Length && buffer[..received] == data && ValidAt(From(data, at))
    ensures next > at
    ensures Outlook(data, at, s) == if v.Continue? then Outlook(data, next, v.snapshot) else v
  {
    v := ReadStep(buffer, received, at, s);
    next := at + Align(LoadLength(buffer, received, at));
    OutlookKept(data, at, s, v, next);
  }

  /** The for loop of inspect_links: for every content of the buffer it ends, reads received bytes only and
      folds the parsed messages. */
  method WalkLinks(buffer: array<Byte>, received: nat, s0: Snapshot) returns (v: Verdict)
    requires received <= buffer.Length
    ensures v == Fold(s0, Parse(buffer[..received]))
  {
    ghost var data := buffer[..received];
    var at: nat, remaining: int, s := 0, received, s0;
    while ValidMessage(buffer, received, at, remaining)
      invariant at + remaining == received && data == buffer[..received]
      invariant Outlook(data, at, s) == Outlook(data, 0, s0)
      decreases remaining
    {
      var step, next := WalkOne(buffer, received, at, s, data);
      if !step.Continue? {
        OutlookAtStart(data, s0);
        return step;
      }
      s, at, remaining := step.snapshot, next, remaining - (next - at);
    }
    OutlookAtStart(data, s0);
    OutlookAtEnd(data, at, s);
    return Continue(s);
  }

  lemma OutlookAtStart(data: seq<Byte>, s: Snapshot)
    ensures Outlook(data, 0, s) == Fold(s, Parse(data))
  {
    assert From(data, 0) == data;
  }

  lemma OutlookAtEnd(data: seq<Byte>, at: nat, s: Snapshot)
    requires !ValidAt(From(data, at))
    ensures Outlook(data, at, s) == Continue(s)
  {}

  // ----- receiving -----------------------------------------------------------------------------

  /** What recv did. */
  datatype Receipt = Interrupted | Failed(errno: int) | Closed | Datagram(bytes: seq<Byte>)

  /** A datagram longer than the buffer is cut off. */
  function Cut(bytes: seq<Byte>, size: nat): seq<Byte> {
    if |bytes| <= size then bytes else bytes[..size]
  }

  method Recv(buffer: array<Byte>, bytes: seq<Byte>) returns (received: nat)
    modifies buffer
    ensures received <= buffer.Length && buffer[..received] == Cut(bytes, buffer.Length)
    ensures buffer[received..] == old(buffer[received..])
  {
    received := 0;
    while received < buffer.Length && received < |bytes|
      invariant received <= buffer.Length && received <= |bytes|
      invariant buffer[..received] == bytes[..received]
      invariant buffer[received..] == old(buffer[received..])
    {
      buffer[received] := bytes[received];
      received := received + 1;
    }
  }

  /** `Blocked`: recv has not returned again. */
  datatype Inspection = Listed(snapshot: Snapshot) | Broke(errno: int) | Blocked

  /** What the loop makes of one receive result; an empty datagram is the same as a closed socket. */
  datatype Batch = Again | Stop(errno: int) | Batch(messages: seq<Message>)

  function Read(r: Receipt, size: nat): Batch {
    match r
    case Interrupted => Again
    case Failed(e) => Stop(e)
    case Closed => Stop(EIO)
    case Datagram(bytes) => if Cut(bytes, size) == [] then Stop(EIO) else Batch(Parse(Cut(bytes, size)))
  }

  function ReadAll(q: seq<Receipt>, size: nat): (b: seq<Batch>)
    ensures |b| == |q|
  {
    if q == [] then [] else [Read(q[0], size)] + ReadAll(q[1..], size)
  }

  function Digest(s: Snapshot, b: Batch): Verdict {
    match b
    case Again => Continue(s)
    case Stop(e) => Broken(e)
    case Batch(ms) => Fold(s, ms)
  }

  /** The receive loop, and how many results it leaves unread. */
  function Inspect(s: Snapshot, b: seq<Batch>): (Inspection, nat)
    decreases |b|
  {
    if b == [] then (Blocked, 0)
    else
      match Digest(s, b[0])
      case Continue(t) => Inspect(t, b[1..])
      case Finished(t) => (Listed(t), |b| - 1)
      case Broken(e) => (Broke(e), |b| - 1)
  }

  /** One receive result, walked if it is a datagram. */
  method Take(buffer: array<Byte>, r: Receipt, s: Snapshot) returns (v: Verdict)
    modifies buffer
    ensures v == Digest(s, Read(r, buffer.Length))
  {
    match r
    case Interrupted => return Continue(s);
    case Failed(e) => return Broken(e);
    case Closed => return Broken(EIO);
    case Datagram(bytes) =>
      var received := Recv(buffer, bytes);
      if received == 0 {
        return Broken(EIO);
      }
      v := WalkLinks(buffer, received, s);
  }

  /** inspect_links after its request went out. */
  method InspectLinks(q: seq<Receipt>) returns (r: Inspection, rest: seq<Receipt>)
    ensures |rest| <= |q| && rest == q[|q| - |rest|..]
    ensures (r, |rest|) == Inspect(EMPTY, ReadAll(q, DUMP_BUFFER))
  {
    var buffer := new Byte[DUMP_BUFFER](_ => 0);
    var s := EMPTY;
    rest := q;
    while rest != []
      invariant |rest| <= |q| && rest == q[|q| - |rest|..]
      invariant Inspect(EMPTY, ReadAll(q, DUMP_BUFFER)) == Inspect(s, ReadAll(rest, DUMP_BUFFER))
      decreases |rest|
    {
      var v := Take(buffer, rest[0], s);
      InspectFirst(s, rest, v);
      rest := rest[1..];
      match v
      case Continue(t) => s := t;
      case Finished(t) => return Listed(t), rest;
      case Broken(e) => return Broke(e), rest;
    }
    return Blocked, rest;
  }

  lemma InspectFirst(s: Snapshot, q: seq<Receipt>, v: Verdict)
    requires q != [] && v == Digest(s, Read(q[0], DUMP_BUFFER))
    ensures Inspect(s, ReadAll(q, DUMP_BUFFER)) ==
            match v
            case Continue(t) => Inspect(t, ReadAll(q[1..], DUMP_BUFFER))
            case Finished(t) => (Listed(t), |q| - 1)
            case Broken(e) => (Broke(e), |q| - 1)
  {
    var b := ReadAll(q, DUMP_BUFFER);
    assert b[0] == Read(q[0], DUMP_BUFFER) && b[1..] == ReadAll(q[1..], DUMP_BUFFER);
  }

  // ----- what a dump reports, without any datagram ------------------------------------------------

  /** A message that ends the dump. */
  predicate Ends(m: Message) {
    m.number == DUMP && (m.kind == NLMSG_DONE || m.kind == NLMSG_ERROR)
  }

  /** The links listed before the dump ends. */
  function Reported(ms: seq<Message>): seq<Link>
    decreases |ms|
  {
    if ms == [] || Ends(ms[0]) then []
    else (if ms[0].number == DUMP && IsLink(ms[0]) then [LinkOf(ms[0])] else []) + Reported(ms[1..])
  }

  /** How it ends. */
  function Ending(ms: seq<Message>): seq<Message>
    decreases |ms|
  {
    if ms == [] then [] else if Ends(ms[0]) then [ms[0]] else Ending(ms[1..])
  }

  function Loopbacks(ls: seq<Link>): seq<Link> {
    if ls == [] then []
    else
      var init := Loopbacks(ls[..|ls| - 1]);
      if IsLoopback(ls[|ls| - 1]) then init + [ls[|ls| - 1]] else init
  }

  /** The counts, and the last loopback link. */
  function Summary(ls: seq<Link>): Snapshot {
    var lo := Loopbacks(ls);
    if lo == [] then Snapshot(|ls| % MODULUS, 0, 0, 0)
    else Snapshot(|ls| % MODULUS, |lo| % MODULUS, lo[|lo| - 1].index, lo[|lo| - 1].flags)
  }

  lemma SummaryAdds(ls: seq<Link>, l: Link)
    ensures Add(Summary(ls), l) == Summary(ls + [l])
  {
    assert (ls + [l])[..|ls|] == ls;
  }

  /** The verdict a dump deserves, given what its links add up to. */
  function Deserved(ms: seq<Message>, s: Snapshot): Verdict {
    var end := Ending(ms);
    if end == [] then Continue(s)
    else if end[0].kind == NLMSG_DONE then Finished(s)
    else Broken(DumpError(end[0]))
  }

  function AddAll(s: Snapshot, ls: seq<Link>): Snapshot
    decreases |ls|
  {
    if ls == [] then s else AddAll(Add(s, ls[0]), ls[1..])
  }

  lemma {:induction false} AddsUp(before: seq<Link>, ls: seq<Link>)
    ensures AddAll(Summary(before), ls) == Summary(before + ls)
    decreases |ls|
  {
    if ls == [] {
      assert before + ls == before;
    } else {
      SummaryAdds(before, ls[0]);
      AddsUp(before + [ls[0]], ls[1..]);
      assert before + [ls[0]] + ls[1..] == before + ls;
    }
  }

  lemma {:induction false} FoldAddsReported(s: Snapshot, ms: seq<Message>)
    ensures Fold(s, ms) == Deserved(ms, AddAll(s, Reported(ms)))
    decreases |ms|
  {
    if ms != [] && !Ends(ms[0]) {
      if ms[0].number == DUMP && IsLink(ms[0]) {
        FoldAddsReported(Add(s, LinkOf(ms[0])), ms[1..]);
        assert Reported(ms)[1..] == Reported(ms[1..]);
      } else {
        FoldAddsReported(s, ms[1..]);
        assert Reported(ms) == Reported(ms[1..]);
      }
    }
  }

  lemma FoldIsSummary(ms: seq<Message>)
    ensures Fold(EMPTY, ms) == Deserved(ms, Summary(Reported(ms)))
  {
    FoldAddsReported(EMPTY, ms);
    AddsUp([], Reported(ms));
    assert [] + Reported(ms) == Reported(ms);
  }

  lemma {:induction false} FoldAppend(s: Snapshot, a: seq<Message>, b: seq<Message>)
    ensures Fold(s, a + b) ==
            match Fold(s, a)
            case Continue(t) => Fold(t, b)
            case Finished(t) => Finished(t)
            case Broken(e) => Broken(e)
    decreases |a|
  {
    if a == [] {
      assert a + b == b;
    } else {
      assert (a + b)[0] == a[0] && (a + b)[1..] == a[1..] + b;
      match Step(s, a[0])
      case Continue(t) => FoldAppend(t, a[1..], b);
      case _ =>
    }
  }

  /** Everything that is read before receiving fails. */
  function Messages(b: seq<Batch>): seq<Message>
    decreases |b|
  {
    if b == [] || b[0].Stop? then []
    else (if b[0].Batch? then b[0].messages else []) + Messages(b[1..])
  }

  /** How receiving ends if none of the messages ends the dump. */
  function Trouble(b: seq<Batch>): (r: Inspection)
    ensures !r.Listed?
    decreases |b|
  {
    if b == [] then Blocked else if b[0].Stop? then Broke(b[0].errno) else Trouble(b[1..])
  }

  /** What the messages decide, they decide however they were cut into datagrams. */
  lemma {:induction false} InspectIsFold(s: Snapshot, b: seq<Batch>)
    ensures Inspect(s, b).0 ==
            match Fold(s, Messages(b))
            case Finished(t) => Listed(t)
            case Broken(e) => Broke(e)
            case Continue(_) => Trouble(b)
    decreases |b|
  {
    if b != [] && !b[0].Stop? {
      if b[0].Batch? {
        FoldAppend(s, b[0].messages, Messages(b[1..]));
        if Fold(s, b[0].messages).Continue? { InspectIsFold(Fold(s, b[0].messages).snapshot, b[1..]); }
      } else {
        assert Messages(b) == Messages(b[1..]);
        InspectIsFold(s, b[1..]);
      }
    }
  }

  /** A snapshot that was obtained is the summary of the links that were reported. */
  lemma ListedIsReported(b: seq<Batch>)
    requires Inspect(EMPTY, b).0.Listed?
    ensures Inspect(EMPTY, b).0.snapshot == Summary(Reported(Messages(b)))
    ensures Ending(Messages(b)) != [] && Ending(Messages(b))[0].kind == NLMSG_DONE
  {
    InspectIsFold(EMPTY, b);
    FoldIsSummary(Messages(b));
  }

  /** The queue is some splitting of `ms` into datagrams, with interruptions between them. */
  ghost predicate Splits(q: seq<Receipt>, ms: seq<Message>)
    decreases |q|
  {
    if q == [] then ms == []
    else if q[0].Interrupted? then Splits(q[1..], ms)
    else q[0].Datagram? && exists k :: 0 <= k <= |ms| && IsDatagramOf(q[0].bytes, ms[..k]) && Splits(q[1..], ms[k..])
  }

  ghost predicate IsDatagramOf(bytes: seq<Byte>, part: seq<Message>) {
    0 < |bytes| <= DUMP_BUFFER && Carries(bytes, part, [])
  }

  lemma DatagramMessages(bytes: seq<Byte>, part: seq<Message>)
    requires IsDatagramOf(bytes, part)
    ensures Read(Datagram(bytes), DUMP_BUFFER) == Batch(part)
  {
    CarriedIsParsed(bytes, part, []);
  }

  lemma PutFirst(part: seq<Message>, b: seq<Batch>)
    ensures Messages([Batch(part)] + b) == part + Messages(b) && Trouble([Batch(part)] + b) == Trouble(b)
    ensures Messages([Again] + b) == Messages(b) && Trouble([Again] + b) == Trouble(b)
  {
    assert ([Batch(part)] + b)[1..] == b && ([Again] + b)[1..] == b;
  }

  lemma {:induction false} SplitMessages(q: seq<Receipt>, ms: seq<Message>)
    requires Splits(q, ms)
    ensures Messages(ReadAll(q, DUMP_BUFFER)) == ms && Trouble(ReadAll(q, DUMP_BUFFER)) == Blocked
    decreases |q|
  {
    if q != [] {
      if q[0].Datagram? {
        var k :| 0 <= k <= |ms| && IsDatagramOf(q[0].bytes, ms[..k]) && Splits(q[1..], ms[k..]);
        SplitMessages(q[1..], ms[k..]);
        DatagramMessages(q[0].bytes, ms[..k]);
        PutFirst(ms[..k], ReadAll(q[1..], DUMP_BUFFER));
        assert ms[..k] + ms[k..] == ms;
      } else {
        SplitMessages(q[1..], ms);
        PutFirst([], ReadAll(q[1..], DUMP_BUFFER));
      }
    }
  }

  /** For every splitting of a dump the inspection is what the dump deserves. */
  lemma SplitDoesNotMatter(q: seq<Receipt>, ms: seq<Message>)
    requires Splits(q, ms)
    ensures Inspect(EMPTY, ReadAll(q, DUMP_BUFFER)).0 ==
            match Deserved(ms, Summary(Reported(ms)))
            case Continue(_) => Blocked
            case Finished(s) => Listed(s)
            case Broken(e) => Broke(e)
  {
    SplitMessages(q, ms);
    InspectIsFold(EMPTY, ReadAll(q, DUMP_BUFFER));
    FoldIsSummary(ms);
  }

  // ----- how a dump ends, by the fields of its messages ---------------------------------------------

  /** Message `i` is the first one that ends the dump. */
  ghost predicate FirstEnd(ms: seq<Message>, i: nat) {
    && i < |ms| && ms[i].number == 1 && (ms[i].kind == 2 || ms[i].kind == 3)
    && forall j :: 0 <= j < i ==> !(ms[j].number == 1 && (ms[j].kind == 2 || ms[j].kind == 3))
  }

  lemma {:induction false} EndingIs(ms: seq<Message>, i: nat)
    requires FirstEnd(ms, i)
    ensures Ending(ms) == [ms[i]]
    decreases |ms|
  {
    if i > 0 {
      assert FirstEnd(ms[1..], i - 1);
      EndingIs(ms[1..], i - 1);
    }
  }

  lemma {:induction false} EndingExists(ms: seq<Message>)
    requires Ending(ms) != []
    ensures exists i: nat :: FirstEnd(ms, i)
    decreases |ms|
  {
    if Ends(ms[0]) {
      assert FirstEnd(ms, 0);
    } else {
      EndingExists(ms[1..]);
      var i: nat :| FirstEnd(ms[1..], i);
      assert FirstEnd(ms, i + 1) by {
        assert ms[i + 1] == ms[1..][i];
        assert forall j :: 0 < j < i + 1 ==> ms[j] == ms[1..][j - 1];
      }
    }
  }

  /** A dump is complete if and only if its first end is NLMSG_DONE; it breaks off with `e` if and only if its first end
      is an error message that is too short or carries code 0, and `e` is EIO, or carries another code, and `e` is
      its negation. */
  lemma DumpEndsExactly(ms: seq<Message>, e: int)
    ensures Fold(EMPTY, ms).Finished? <==> exists i: nat :: FirstEnd(ms, i) && ms[i].kind == 3
    ensures Fold(EMPTY, ms) == Broken(e) <==>
            exists i: nat :: FirstEnd(ms, i) && ms[i].kind == 2 &&
              if |ms[i].payload| < 20 || Signed(WordAt(ms[i].payload, 0)) == 0 then e == 5
              else e + Signed(WordAt(ms[i].payload, 0)) == 0
  {
    FoldIsSummary(ms);
    if Ending(ms) != [] {
      EndingExists(ms);
      var i: nat :| FirstEnd(ms, i);
      EndingIs(ms, i);
    }
    forall i: nat | FirstEnd(ms, i) ensures Ending(ms) == [ms[i]] {
      EndingIs(ms, i);
    }
  }

  lemma Eighth(f: int, q: int, r: int)
    requires f == 8 * q + r && 0 <= r < 8
    ensures f / 8 == q
  {}

  lemma Parity(f: int, q: int, r: int)
    requires f == 2 * q + r && 0 <= r < 2
    ensures f % 2 == r
  {}

  /** The flag bits: IFF_LOOPBACK is the fourth from below, IFF_UP the lowest. */
  lemma FlagBits(l: Link, high: nat, loopback: nat, mid: nat, up: nat)
    requires l.flags == 16 * high + 8 * loopback + 2 * mid + up && loopback < 2 && mid < 4 && up < 2
    ensures IsLoopback(l) <==> loopback == 1
    ensures IsUp(l) <==> up == 1
  {
    var f: int := l.flags;
    Eighth(f, 2 * high + loopback, 2 * mid + up);
    Parity(f / 8, high, loopback);
    Parity(f, 8 * high + 4 * loopback + mid, up);
  }
}
