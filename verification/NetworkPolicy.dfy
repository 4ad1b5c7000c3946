/**
 Acknowledgements (section 2.3.2.2 of RFC 3549), the link change, and the policy check of
 setup_network_policy.
 */
module NetworkPolicy {
  import opened ControlRecord
  import opened Netlink
  import opened LinkDump

  const ENODEV := 19
  const CHANGE: Word := 2
  const ACK_BUFFER: nat := 8192
  const IFF_UP: Word := 1

  // ----- acknowledgements ----------------------------------------------------------------------

  datatype Ack = Waiting | Acked | Denied(errno: int)

  /** What one message says about the change request. */
  function AckStep(m: Message): Ack {
    if m.number != CHANGE || m.kind != NLMSG_ERROR then Waiting
    else if !HasCode(m) then Denied(EIO)
    else if Code(m) == 0 then Acked
    else Denied(Errno(Code(m)))
  }

  function FirstAck(ms: seq<Message>): Ack {
    if ms == [] then Waiting
    else if AckStep(ms[0]) != Waiting then AckStep(ms[0])
    else FirstAck(ms[1..])
  }

  function ReadAck(buffer: array<Byte>, received: nat, at: nat): (a: Ack)
    requires at <= received <= buffer.Length && ValidAt(From(buffer[..received], at))
    reads buffer
    ensures a == AckStep(FirstMessage(From(buffer[..received], at)))
  {
    if LoadNumber(buffer, received, at) != CHANGE then Waiting
    else if LoadKind(buffer, received, at) != NLMSG_ERROR then Waiting
    else if LoadLength(buffer, received, at) < HEADER + ERROR_SIZE then Denied(EIO)
    else
      var code := Signed(LoadPayload(buffer, received, at, 0));
      if code == 0 then Acked else Denied(Errno(code))
  }

  /** The first answer from a cursor on. */
  ghost function AckFrom(data: seq<Byte>, at: nat): Ack {
    FirstAck(Parse(From(data, at)))
  }

  lemma AckFirst(m: Message, all: seq<Message>, rest: seq<Message>)
    requires all == [m] + rest
    ensures FirstAck(all) == if AckStep(m) != Waiting then AckStep(m) else FirstAck(rest)
  {
    assert all[1..] == rest;
  }

  lemma AckKept(data: seq<Byte>, at: nat, a: Ack, next: nat)
    requires ValidAt(From(data, at))
    requires a == AckStep(FirstMessage(From(data, at))) && next == at + Align(WordAt(From(data, at), 0))
    ensures AckFrom(data, at) == if a != Waiting then a else AckFrom(data, next)
  {
    ParseAtCursor(data, at);
    AckFirst(FirstMessage(From(data, at)), Parse(From(data, at)), Parse(From(data, next)));
  }

  lemma AckAtStart(data: seq<Byte>)
    ensures AckFrom(data, 0) == FirstAck(Parse(data))
  {
    assert From(data, 0) == data;
  }

  lemma AckAtEnd(data: seq<Byte>, at: nat)
    requires !ValidAt(From(data, at))
    ensures AckFrom(data, at) == Waiting
  {}

  method AckOne(buffer: array<Byte>, received: nat, at: nat, ghost data: seq<Byte>) returns (a: Ack, next: nat)
    requires at <= received <= buffer.Length && buffer[..received] == data && ValidAt(From(data, at))
    ensures next > at
    ensures AckFrom(data, at) == if a != Waiting then a else AckFrom(data, next)
  {
    a := ReadAck(buffer, received, at);
    next := at + Align(LoadLength(buffer, received, at));
    AckKept(data, at, a, next);
  }

  /** The for loop of receive_ack. */
  method WalkAcks(buffer: array<Byte>, received: nat) returns (a: Ack)
    requires received <= buffer.Length
    ensures a == FirstAck(Parse(buffer[..received]))
  {
    ghost var data := buffer[..received];
    AckAtStart(data);
    var at: nat, remaining: int := 0, received;
    while ValidMessage(buffer, received, at, remaining)
      invariant at + remaining == received && data == buffer[..received]
      invariant AckFrom(data, at) == AckFrom(data, 0)
      decreases remaining
    {
      var step, next := AckOne(buffer, received, at, data);
      if step != Waiting {
        return step;
      }
      at, remaining := next, remaining - (next - at);
    }
    AckAtEnd(data, at);
    return Waiting;
  }

  function AckIn(b: Batch): Ack {
    match b
    case Again => Waiting
    case Stop(e) => Denied(e)
    case Batch(ms) => FirstAck(ms)
  }

  /** The receive loop, and how many results it leaves unread. */
  function Await(b: seq<Batch>): (Ack, nat) {
    if b == [] then (Waiting, 0)
    else if AckIn(b[0]) != Waiting then (AckIn(b[0]), |b| - 1)
    else Await(b[1..])
  }

  method TakeAck(buffer: array<Byte>, r: Receipt) returns (a: Ack)
    modifies buffer
    ensures a == AckIn(Read(r, buffer.Length))
  {
    match r
    case Interrupted => return Waiting;
    case Failed(e) => return Denied(e);
    case Closed => return Denied(EIO);
    case Datagram(bytes) =>
      var received := Recv(buffer, bytes);
      if received == 0 {
        return Denied(EIO);
      }
      a := WalkAcks(buffer, received);
  }

  lemma AwaitFirst(q: seq<Receipt>, a: Ack)
    requires q != [] && a == AckIn(Read(q[0], ACK_BUFFER))
    ensures Await(ReadAll(q, ACK_BUFFER)) == if a != Waiting then (a, |q| - 1) else Await(ReadAll(q[1..], ACK_BUFFER))
  {
    var b := ReadAll(q, ACK_BUFFER);
    assert b[0] == Read(q[0], ACK_BUFFER) && b[1..] == ReadAll(q[1..], ACK_BUFFER);
  }

  method ReceiveAck(q: seq<Receipt>) returns (a: Ack, rest: seq<Receipt>)
    ensures |rest| <= |q| && rest == q[|q| - |rest|..]
    ensures (a, |rest|) == Await(ReadAll(q, ACK_BUFFER))
  {
    var buffer := new Byte[ACK_BUFFER](_ => 0);
    rest := q;
    while rest != []
      invariant |rest| <= |q| && rest == q[|q| - |rest|..]
      invariant Await(ReadAll(q, ACK_BUFFER)) == Await(ReadAll(rest, ACK_BUFFER))
      decreases |rest|
    {
      a := TakeAck(buffer, rest[0]);
      AwaitFirst(rest, a);
      rest := rest[1..];
      if a != Waiting {
        return;
      }
    }
    return Waiting, rest;
  }

  lemma {:induction false} FirstAckAppend(x: seq<Message>, y: seq<Message>)
    ensures FirstAck(x + y) == if FirstAck(x) != Waiting then FirstAck(x) else FirstAck(y)
    decreases |x|
  {
    if x == [] {
      assert x + y == y;
    } else {
      AckFirst(x[0], x + y, x[1..] + y);
      FirstAckAppend(x[1..], y);
    }
  }

  /** The answer is the first one among the messages, however they were cut into datagrams. */
  lemma {:induction false} AwaitIsFirst(b: seq<Batch>)
    ensures Await(b).0 ==
            if FirstAck(Messages(b)) != Waiting then FirstAck(Messages(b))
            else if Trouble(b).Broke? then Denied(Trouble(b).errno)
            else Waiting
    decreases |b|
  {
    if b != [] && !b[0].Stop? {
      AwaitIsFirst(b[1..]);
      if b[0].Batch? {
        FirstAckAppend(b[0].messages, Messages(b[1..]));
      } else {
        assert Messages(b) == Messages(b[1..]);
      }
    }
  }

  /** Message `i` is the first error message with the sequence number of the change. */
  ghost predicate FirstForChange(ms: seq<Message>, i: nat) {
    && i < |ms| && ms[i].number == 2 && ms[i].kind == 2
    && forall j :: 0 <= j < i ==> !(ms[j].number == 2 && ms[j].kind == 2)
  }

  lemma {:induction false} FirstAckIs(ms: seq<Message>, i: nat)
    requires FirstForChange(ms, i)
    ensures FirstAck(ms) == AckStep(ms[i])
    decreases |ms|
  {
    if i > 0 {
      assert FirstForChange(ms[1..], i - 1);
      FirstAckIs(ms[1..], i - 1);
    }
  }

  lemma {:induction false} FirstAckExists(ms: seq<Message>)
    requires FirstAck(ms) != Waiting
    ensures exists i: nat :: FirstForChange(ms, i)
    decreases |ms|
  {
    if AckStep(ms[0]) != Waiting {
      assert FirstForChange(ms, 0);
    } else {
      FirstAckExists(ms[1..]);
      var i: nat :| FirstForChange(ms[1..], i);
      assert FirstForChange(ms, i + 1) by {
        assert ms[i + 1] == ms[1..][i];
        assert forall j :: 0 < j < i + 1 ==> ms[j] == ms[1..][j - 1];
      }
    }
  }

  /** The change is acknowledged if and only if the first error message for it is long enough to carry a code and the
      code, its first word, is 0 ... */
  lemma AckedExactly(ms: seq<Message>)
    ensures FirstAck(ms) == Acked <==>
            exists i: nat :: FirstForChange(ms, i) && |ms[i].payload| >= 20 && Signed(WordAt(ms[i].payload, 0)) == 0
  {
    if FirstAck(ms) == Acked {
      FirstAckExists(ms);
      var i: nat :| FirstForChange(ms, i);
      FirstAckIs(ms, i);
    }
    forall i: nat | FirstForChange(ms, i) ensures FirstAck(ms) == AckStep(ms[i]) {
      FirstAckIs(ms, i);
    }
  }

  /** ... and denied with `e` if and only if that message is too short and `e` is EIO, or its code is not 0 and `e` is
      its negation. */
  lemma DeniedExactly(ms: seq<Message>, e: int)
    ensures FirstAck(ms) == Denied(e) <==>
            exists i: nat :: FirstForChange(ms, i) &&
              if |ms[i].payload| < 20 then e == 5
              else Signed(WordAt(ms[i].payload, 0)) != 0 && e + Signed(WordAt(ms[i].payload, 0)) == 0
  {
    if FirstAck(ms) == Denied(e) {
      FirstAckExists(ms);
      var i: nat :| FirstForChange(ms, i);
      FirstAckIs(ms, i);
    }
    forall i: nat | FirstForChange(ms, i) ensures FirstAck(ms) == AckStep(ms[i]) {
      FirstAckIs(ms, i);
    }
  }

  // ----- requests ------------------------------------------------------------------------------

  /** An ifinfomsg with no family, padding or device type. */
  function LinkPayload(index: SignedWord, flags: Word, change: Word): (s: seq<Byte>)
    ensures |s| == LINK_SIZE
  {
    EncodeWord(0) + EncodeWord(Unsigned(index)) + EncodeWord(flags) + EncodeWord(change)
  }

  const DUMP_REQUEST := Message(RTM_GETLINK, NLM_F_REQUEST + NLM_F_DUMP, DUMP, 0, LinkPayload(0, 0, 0))

  function ChangeRequest(index: SignedWord, up: bool): Message {
    Message(RTM_NEWLINK, NLM_F_REQUEST + NLM_F_ACK, CHANGE, 0, LinkPayload(index, if up then IFF_UP else 0, IFF_UP))
  }

  lemma PayloadFields(index: SignedWord, flags: Word, change: Word)
    ensures var p := LinkPayload(index, flags, change);
            Signed(WordAt(p, 4)) == index && WordAt(p, 8) == flags && WordAt(p, 12) == change
  {
    var p := LinkPayload(index, flags, change);
    assert p[4..4 + 4] == EncodeWord(Unsigned(index));
    assert p[8..8 + 4] == EncodeWord(flags) && p[12..12 + 4] == EncodeWord(change);
    WordRoundTrip(Unsigned(index));
    WordRoundTrip(flags);
    WordRoundTrip(change);
  }

  /** The bytes of a change request read back as one link message that sets exactly the up flag, to the
      wanted value, of exactly the wanted link. */
  lemma ChangeRequestReadsBack(index: SignedWord, up: bool)
    ensures var m := ChangeRequest(index, up);
            && Sendable(m) && Parse(EncodeMessage(m)) == [m] && Leftover(EncodeMessage(m)) == []
            && IsLink(m) && LinkOf(m).index == index
            && (IsUp(LinkOf(m)) <==> up) && WordAt(m.payload, 12) == IFF_UP
  {
    var m := ChangeRequest(index, up);
    PayloadFields(index, if up then IFF_UP else 0, IFF_UP);
    assert After(EncodeMessage(m), Length(m)) == [];
    assert [m][1..] == [];
    CarriedIsParsed(EncodeMessage(m), [m], []);
  }

  lemma DumpHeaderBytes()
    ensures EncodeHeader(DUMP_REQUEST) == [32, 0, 0, 0, 18, 0, 1, 3, 1, 0, 0, 0, 0, 0, 0, 0]
  {
    assert EncodeWord(32) == [32, 0, 0, 0] && EncodeHalf(18) == [18, 0] && EncodeHalf(0x301) == [1, 3];
    assert EncodeWord(1) == [1, 0, 0, 0] && EncodeWord(0) == [0, 0, 0, 0];
  }

  lemma ChangeHeaderBytes(index: SignedWord, up: bool)
    ensures EncodeHeader(ChangeRequest(index, up)) == [32, 0, 0, 0, 16, 0, 5, 0, 2, 0, 0, 0, 0, 0, 0, 0]
  {
    assert EncodeWord(32) == [32, 0, 0, 0] && EncodeHalf(16) == [16, 0] && EncodeHalf(5) == [5, 0];
    assert EncodeWord(2) == [2, 0, 0, 0] && EncodeWord(0) == [0, 0, 0, 0];
  }

  /** The requests byte by byte: the header of a dump request, that of a change request, and what a change request says
      of link 0x04030201. */
  lemma RequestBytes(up: bool)
    ensures EncodeMessage(DUMP_REQUEST)[..16] == [32, 0, 0, 0, 18, 0, 1, 3, 1, 0, 0, 0, 0, 0, 0, 0]
    ensures EncodeMessage(ChangeRequest(0x0403_0201, up))[..16] == [32, 0, 0, 0, 16, 0, 5, 0, 2, 0, 0, 0, 0, 0, 0, 0]
    ensures EncodeMessage(ChangeRequest(0x0403_0201, up))[16..] ==
            [0, 0, 0, 0, 1, 2, 3, 4] + [if up then 1 else 0, 0, 0, 0, 1, 0, 0, 0]
  {
    DumpHeaderBytes();
    ChangeHeaderBytes(0x0403_0201, up);
    PayloadBytes(up);
    var m := ChangeRequest(0x0403_0201, up);
    assert EncodeMessage(m)[16..] == m.payload && EncodeMessage(m)[..16] == EncodeHeader(m);
    assert EncodeMessage(DUMP_REQUEST)[..16] == EncodeHeader(DUMP_REQUEST);
  }

  lemma PayloadBytes(up: bool)
    ensures LinkPayload(0x0403_0201, if up then IFF_UP else 0, IFF_UP) ==
            [0, 0, 0, 0, 1, 2, 3, 4] + [if up then 1 else 0, 0, 0, 0, 1, 0, 0, 0]
  {
    assert EncodeWord(0x0403_0201) == [1, 2, 3, 4] && EncodeWord(0) == [0, 0, 0, 0] && EncodeWord(1) == [1, 0, 0, 0];
  }

  // ----- sending -------------------------------------------------------------------------------

  /** What sendto did. */
  datatype Sent = SentAll | SentPart | SendInterrupted | SendFailed(errno: int)

  datatype Sending = Delivered | Undelivered(errno: int) | SendBlocked

  function Send(q: seq<Sent>): (Sending, seq<Sent>) {
    if q == [] then (SendBlocked, [])
    else
      match q[0]
      case SentAll => (Delivered, q[1..])
      case SentPart => (Undelivered(EIO), q[1..])
      case SendInterrupted => Send(q[1..])
      case SendFailed(e) => (Undelivered(e), q[1..])
  }

  /** Attempt `k` is the first one that was not interrupted. */
  predicate FirstAnswer(q: seq<Sent>, k: nat) {
    k < |q| && q[k] != SendInterrupted && forall i :: 0 <= i < k ==> q[i] == SendInterrupted
  }

  /** What the answer to one attempt means for the request. */
  function Meaning(sent: Sent): Sending {
    match sent
    case SentAll => Delivered
    case SentPart => Undelivered(EIO)
    case SendInterrupted => SendBlocked
    case SendFailed(e) => Undelivered(e)
  }

  /** What a caller learns from sending: the meaning of the first attempt that was not interrupted, after
      which nothing more is tried; there is no answer exactly while every attempt is interrupted. */
  ghost predicate SentAs(q: seq<Sent>, r: Sending, rest: seq<Sent>) {
    && (r == SendBlocked <==> forall i :: 0 <= i < |q| ==> q[i] == SendInterrupted)
    && (r == SendBlocked ==> rest == [])
    && forall k: nat :: FirstAnswer(q, k) ==> r == Meaning(q[k]) && rest == q[k + 1..]
  }

  lemma {:induction false} SendMeans(q: seq<Sent>)
    ensures SentAs(q, Send(q).0, Send(q).1)
    decreases |q|
  {
    if q != [] && q[0] == SendInterrupted {
      var t := q[1..];
      SendMeans(t);
      assert forall i :: 0 <= i < |t| ==> t[i] == q[i + 1];
      if i :| 0 <= i < |q| && q[i] != SendInterrupted { assert t[i - 1] != SendInterrupted; }
      forall k: nat | FirstAnswer(q, k) ensures FirstAnswer(t, k - 1) && t[k..] == q[k + 1..] {
        assert t[k - 1] == q[k];
      }
    }
  }

  /** send_netlink retries interruptions only. */
  method SendNetlink(q: seq<Sent>) returns (r: Sending, rest: seq<Sent>)
    ensures SentAs(q, r, rest)
    ensures (r, rest) == Send(q)
  {
    SendMeans(q);
    rest := q;
    while rest != []
      invariant Send(q) == Send(rest)
      decreases |rest|
    {
      var sent := rest[0];
      rest := rest[1..];
      match sent
      case SentAll => return Delivered, rest;
      case SentPart => return Undelivered(EIO), rest;
      case SendInterrupted =>
      case SendFailed(e) => return Undelivered(e), rest;
    }
    return SendBlocked, rest;
  }

  // ----- the policy ----------------------------------------------------------------------------

  datatype Policy = Allowed | DeniedNetwork | LoopbackOnly

  /** What the route socket still has to do. */
  datatype Route = Route(sends: seq<Sent>, receipts: seq<Receipt>)

  function Unread(q: seq<Receipt>, n: nat): seq<Receipt> {
    if n <= |q| then q[|q| - n..] else q
  }

  /** A dump request and its answer. */
  function Dump(io: Route): (Inspection, Route) {
    var (sent, sends) := Send(io.sends);
    match sent
    case Undelivered(e) => (Broke(e), Route(sends, io.receipts))
    case SendBlocked => (Blocked, Route(sends, io.receipts))
    case Delivered =>
      var (r, n) := Inspect(EMPTY, ReadAll(io.receipts, DUMP_BUFFER));
      (r, Route(sends, Unread(io.receipts, n)))
  }

  /** A change request and its answer. */
  function Change(io: Route): (Ack, Route) {
    var (sent, sends) := Send(io.sends);
    match sent
    case Undelivered(e) => (Denied(e), Route(sends, io.receipts))
    case SendBlocked => (Waiting, Route(sends, io.receipts))
    case Delivered =>
      var (a, n) := Await(ReadAll(io.receipts, ACK_BUFFER));
      (a, Route(sends, Unread(io.receipts, n)))
  }

  /** One link, a loopback, with an index. */
  predicate Single(s: Snapshot) {
    s.count == 1 && s.loopbacks == 1 && s.index > 0
  }

  predicate SnapshotMatches(s: Snapshot, policy: Policy) {
    Single(s) && (if policy == LoopbackOnly then s.flags % 2 == 1 else s.flags % 2 == 0)
  }

  /** The links are one loopback link in the state the policy asks for. */
  ghost predicate OnlyLoopback(links: seq<Link>, policy: Policy) {
    exists l :: links == [l] && IsLoopback(l) && l.index > 0 && (IsUp(l) <==> policy == LoopbackOnly)
  }

  lemma {:induction false} LoopbacksFewer(ls: seq<Link>)
    ensures |Loopbacks(ls)| <= |ls|
    decreases |ls|
  {
    if ls != [] { LoopbacksFewer(ls[..|ls| - 1]); }
  }

  /** A count the 32-bit counters cannot mistake for one: not more links than they hold, or more, but not
      one above a multiple of that. */
  predicate Countable(n: nat) {
    n <= MODULUS || n % MODULUS != 1
  }

  /** Of a countable list of links, the snapshot test accepts exactly the views of one loopback link in the
      right state. */
  lemma MatchesExactly(ls: seq<Link>, policy: Policy)
    requires Countable(|ls|)
    ensures SnapshotMatches(Summary(ls), policy) <==> OnlyLoopback(ls, policy)
  {
    LoopbacksFewer(ls);
    if |ls| == 1 {
      assert ls == [ls[0]] && ls[..0] == [];
      assert Loopbacks(ls) == if IsLoopback(ls[0]) then [ls[0]] else [];
    }
  }

  lemma {:induction false} AllLoopbacks(l: Link, n: nat)
    requires IsLoopback(l)
    ensures Loopbacks(seq(n, _ => l)) == seq(n, _ => l)
  {
    if n > 0 {
      assert seq(n, _ => l)[..n - 1] == seq(n - 1, _ => l);
      AllLoopbacks(l, n - 1);
      assert seq(n - 1, _ => l) + [l] == seq(n, _ => l);
    }
  }

  /** A loopback link in the state the policy asks for. */
  function Wanted(policy: Policy): (l: Link)
    ensures IsLoopback(l) && l.index > 0 && (IsUp(l) <==> policy == LoopbackOnly)
  {
    Link(1, if policy == LoopbackOnly then 9 else 8)
  }

  /** For every other number of links there are that many which are taken for one. */
  lemma WrapIsMistaken(n: nat, policy: Policy)
    requires !Countable(n)
    ensures var ls := seq(n, _ => Wanted(policy));
            |ls| == n && SnapshotMatches(Summary(ls), policy) && !OnlyLoopback(ls, policy)
  {
    AllLoopbacks(Wanted(policy), n);
  }

  /** The test means what it should for every list of `n` links. */
  ghost predicate TestIsRight(n: nat, policy: Policy) {
    forall ls: seq<Link> :: |ls| == n ==> (SnapshotMatches(Summary(ls), policy) <==> OnlyLoopback(ls, policy))
  }

  /** Exactly for which numbers of links the snapshot test can be trusted, whatever the policy. */
  lemma TestIsRightIff(n: nat, policy: Policy)
    ensures TestIsRight(n, policy) <==> Countable(n)
  {
    if Countable(n) {
      forall ls: seq<Link> | |ls| == n ensures SnapshotMatches(Summary(ls), policy) <==> OnlyLoopback(ls, policy) {
        MatchesExactly(ls, policy);
      }
    } else {
      WrapIsMistaken(n, policy);
    }
  }

  datatype Grant = Granted | Refused(errno: int)

  datatype Env = Env(unshare: Grant, socket: Grant, io: Route)

  datatype Stage = NamespaceStage | InspectionStage | ConfigurationStage | ValidationStage

  /** `Stuck`: some call has not returned. */
  datatype Outcome = Established | SetupFailed(stage: Stage, errno: int) | Stuck

  function First(env: Env): (Inspection, Route) {
    Dump(env.io)
  }

  function Answer(env: Env): (Ack, Route) {
    Change(First(env).1)
  }

  function Second(env: Env): (Inspection, Route) {
    Dump(Answer(env).1)
  }

  predicate FirstIsSingle(env: Env) {
    env.unshare == Granted && env.socket == Granted && First(env).0.Listed? && Single(First(env).0.snapshot)
  }

  /** Everything the set-up needs: its own namespace, one loopback link, a granted change, and a second
      look that shows the policy. */
  predicate Ready(policy: Policy, env: Env) {
    && FirstIsSingle(env)
    && Answer(env).0 == Acked
    && Second(env).0.Listed? && SnapshotMatches(Second(env).0.snapshot, policy)
  }

  /** The failure is the first thing that went wrong. */
  predicate Explains(policy: Policy, env: Env, stage: Stage, errno: int) {
    match stage
    case NamespaceStage => env.unshare == Refused(errno)
    case InspectionStage =>
      && env.unshare == Granted
      && (|| env.socket == Refused(errno)
          || (env.socket == Granted && First(env).0 == Broke(errno))
          || (FirstIsSingle(env) && Answer(env).0 == Acked && Second(env).0 == Broke(errno)))
    case ConfigurationStage => FirstIsSingle(env) && Answer(env).0 == Denied(errno)
    case ValidationStage =>
      && env.unshare == Granted && env.socket == Granted && First(env).0.Listed?
      && if Single(First(env).0.snapshot)
         then
           && Answer(env).0 == Acked && errno == EIO
           && Second(env).0.Listed? && !SnapshotMatches(Second(env).0.snapshot, policy)
         else errno == ENODEV
  }

  /** Some call that the set-up comes to does not return. */
  predicate Hangs(env: Env) {
    && env.unshare == Granted && env.socket == Granted
    && (|| First(env).0.Blocked?
        || (&& FirstIsSingle(env)
            && (Answer(env).0.Waiting? || (Answer(env).0 == Acked && Second(env).0.Blocked?))))
  }

  /** How many requests the set-up comes to. */
  function Issued(env: Env): nat {
    if env.unshare.Refused? || env.socket.Refused? then 0
    else if !FirstIsSingle(env) then 1
    else if Answer(env).0 != Acked then 2
    else 3
  }

  lemma Dumped(io: Route, sends: seq<Sent>, r: Inspection, rest: seq<Receipt>)
    requires Send(io.sends) == (Delivered, sends)
    requires |rest| <= |io.receipts| && rest == io.receipts[|io.receipts| - |rest|..]
    requires (r, |rest|) == Inspect(EMPTY, ReadAll(io.receipts, DUMP_BUFFER))
    ensures Dump(io) == (r, Route(sends, rest))
  {}

  lemma Changed(io: Route, sends: seq<Sent>, a: Ack, rest: seq<Receipt>)
    requires Send(io.sends) == (Delivered, sends)
    requires |rest| <= |io.receipts| && rest == io.receipts[|io.receipts| - |rest|..]
    requires (a, |rest|) == Await(ReadAll(io.receipts, ACK_BUFFER))
    ensures Change(io) == (a, Route(sends, rest))
  {}

  method DumpLinks(io: Route) returns (r: Inspection, next: Route)
    ensures (r, next) == Dump(io)
  {
    var sent, sends := SendNetlink(io.sends);
    match sent
    case Undelivered(e) => return Broke(e), Route(sends, io.receipts);
    case SendBlocked => return Blocked, Route(sends, io.receipts);
    case Delivered =>
      var rest;
      r, rest := InspectLinks(io.receipts);
      next := Route(sends, rest);
      Dumped(io, sends, r, rest);
  }

  method SetLinkUp(io: Route) returns (a: Ack, next: Route)
    ensures (a, next) == Change(io)
  {
    var sent, sends := SendNetlink(io.sends);
    match sent
    case Undelivered(e) => return Denied(e), Route(sends, io.receipts);
    case SendBlocked => return Waiting, Route(sends, io.receipts);
    case Delivered =>
      var rest;
      a, rest := ReceiveAck(io.receipts);
      next := Route(sends, rest);
      Changed(io, sends, a, rest);
  }

  /** setup_network_policy: success exactly when everything needed held, no verdict exactly while a call it comes to
      does not return, else a failure that names the first thing that went wrong, and the requests issued. */
  method SetupNetworkPolicy(policy: Policy, env: Env) returns (r: Outcome, requests: seq<Message>)
    ensures r.Established? <==> policy == Allowed || Ready(policy, env)
    ensures r.SetupFailed? ==> policy != Allowed && Explains(policy, env, r.stage, r.errno)
    ensures r.Stuck? <==> policy != Allowed && Hangs(env)
    ensures policy == Allowed ==> requests == []
    ensures policy != Allowed ==> |requests| == Issued(env)
    ensures policy != Allowed && FirstIsSingle(env) ==>
              var change := ChangeRequest(First(env).0.snapshot.index, policy == LoopbackOnly);
              requests <= [DUMP_REQUEST, change, DUMP_REQUEST]
    ensures policy != Allowed && r.Established? ==>
              var change := ChangeRequest(First(env).0.snapshot.index, policy == LoopbackOnly);
              requests == [DUMP_REQUEST, change, DUMP_REQUEST]
  {
    requests := [];
    if policy == Allowed {
      return Established, requests;
    }
    if env.unshare.Refused? {
      return SetupFailed(NamespaceStage, env.unshare.errno), requests;
    }
    if env.socket.Refused? {
      return SetupFailed(InspectionStage, env.socket.errno), requests;
    }
    requests := [DUMP_REQUEST];
    var initial, io := DumpLinks(env.io);
    if initial.Blocked? {
      return Stuck, requests;
    }
    if initial.Broke? {
      return SetupFailed(InspectionStage, initial.errno), requests;
    }
    if initial.snapshot.count != 1 || initial.snapshot.loopbacks != 1 || initial.snapshot.index <= 0 {
      return SetupFailed(ValidationStage, ENODEV), requests;
    }
    requests := requests + [ChangeRequest(initial.snapshot.index, policy == LoopbackOnly)];
    var a;
    a, io := SetLinkUp(io);
    if a.Waiting? {
      return Stuck, requests;
    }
    if a.Denied? {
      return SetupFailed(ConfigurationStage, a.errno), requests;
    }
    requests := requests + [DUMP_REQUEST];
    var established;
    established, io := DumpLinks(io);
    if established.Blocked? {
      return Stuck, requests;
    }
    if established.Broke? {
      return SetupFailed(InspectionStage, established.errno), requests;
    }
    if !SnapshotMatches(established.snapshot, policy) {
      return SetupFailed(ValidationStage, EIO), requests;
    }
    return Established, requests;
  }

  /** What success means for a restricted policy: after the change was acknowledged, a complete dump lists
      one link, a loopback, up exactly for the loopback-only policy. */
  lemma EstablishedMeans(policy: Policy, env: Env)
    requires Ready(policy, env)
    ensures var io := Answer(env).1;
            var ms := Messages(ReadAll(io.receipts, DUMP_BUFFER));
            && Ending(ms) != [] && Ending(ms)[0].kind == NLMSG_DONE
            && (Countable(|Reported(ms)|) ==> OnlyLoopback(Reported(ms), policy))
  {
    var io := Answer(env).1;
    var b := ReadAll(io.receipts, DUMP_BUFFER);
    assert Second(env).0 == Inspect(EMPTY, b).0;
    ListedIsReported(b);
    if Countable(|Reported(Messages(b))|) { MatchesExactly(Reported(Messages(b)), policy); }
  }

  /** What else success needs: a namespace and a socket of its own, three requests that went out whole, a first complete
      dump of one loopback link, and the acknowledgement of the change. */
  lemma EstablishedNeeds(policy: Policy, env: Env)
    requires Ready(policy, env)
    ensures env.unshare == Granted && env.socket == Granted
    ensures Send(env.io.sends).0 == Delivered && Send(First(env).1.sends).0 == Delivered
    ensures Send(Answer(env).1.sends).0 == Delivered
    ensures var ms := Messages(ReadAll(env.io.receipts, DUMP_BUFFER));
            && Ending(ms) != [] && Ending(ms)[0].kind == NLMSG_DONE
            && (Countable(|Reported(ms)|) ==> exists l :: Reported(ms) == [l] && IsLoopback(l) && l.index > 0)
    ensures FirstAck(Messages(ReadAll(First(env).1.receipts, ACK_BUFFER))) == Acked
  {
    var b := ReadAll(env.io.receipts, DUMP_BUFFER);
    assert First(env).0 == Inspect(EMPTY, b).0;
    ListedIsReported(b);
    if Countable(|Reported(Messages(b))|) { SingleExactly(Reported(Messages(b))); }
    AwaitIsFirst(ReadAll(First(env).1.receipts, ACK_BUFFER));
  }

  lemma SingleExactly(ls: seq<Link>)
    requires Countable(|ls|)
    ensures Single(Summary(ls)) <==> exists l :: ls == [l] && IsLoopback(l) && l.index > 0
  {
    LoopbacksFewer(ls);
    if |ls| == 1 {
      assert ls == [ls[0]] && ls[..0] == [];
      assert Loopbacks(ls) == if IsLoopback(ls[0]) then [ls[0]] else [];
    }
  }
}
