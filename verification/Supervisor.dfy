/**
 The supervisor loop of execute_backend.

 The loop's local variables are the record `Sup`.  Each block of the loop body is a function of the
 whole state and of what the system calls in that block return; `Iterate` runs the blocks in source
 order and lets the world interfere between any two of them.  A run chains `Iterate` over any
 sequence of observations (`IsRun`), so a statement about every run is a statement about every
 interleaving of supervisor, child, descendants, clock and token.

 Times are milliseconds on an unbounded clock.
 */
module Supervisor {
  import opened Options
  import opened ControlRecord
  import opened Child

  datatype Deadline = Never | At(time: int)

  datatype Config = Config(
    controlled: bool,                // whether a cancellation token was supplied
    isolated: bool,
    grace: nat)                      // sealed grace period

  /** A captured stream: read end still open, and the bytes read so far. */
  datatype Capture = Capture(open: bool, text: seq<Byte>)

  datatype Gate = Gate(readyOpen: bool, startOpen: bool, readySeen: bool, released: bool)

  /** `bytes` is control_bytes[..control_size]; `confirmed` is exec_confirmed.  `broken`, which nothing
      reads, remembers that a hard error ended the pipe. */
  datatype ControlEnd = ControlEnd(open: bool, bytes: seq<Byte>, confirmed: bool, broken: bool)

  datatype Exit = Exit(exited: bool, reaped: bool, information: Option<Termination>)

  datatype Cancel = Cancel(observed: bool, beforeStart: bool, attempted: bool, delivered: bool, deadline: Deadline)

  /** `forced` is forced_signal_sent. */
  datatype Cleanup = Cleanup(started: bool, complete: bool, failed: bool, forced: bool, deadline: Deadline)

  /** The local variables of the loop. */
  datatype Sup = Sup(
    output: Capture,
    error: Capture,
    captureFailed: bool,
    control: ControlEnd,
    gate: Gate,
    exit: Exit,
    cancel: Cancel,
    cleanup: Cleanup)

  datatype What = ExitSeen | CancelSeen | Released | CancelTerm | CleanupTerm | Kill | Scan(clean: bool) | Reap

  /** Something the supervisor did, with the state it did it in. */
  datatype Event = Event(what: What, sup: Sup, world: World)

  /** Counters and record of the run that no decision depends on. */
  datatype History = History(
    gaveUp: bool,                    // cleanup was abandoned at its final deadline
    flips: nat,                      // how often `forced` changed
    moves: nat,                      // how often the cleanup deadline changed after cleanup started
    now: int)                        // the clock reading the last iteration based its decisions on

  datatype State = State(sup: Sup, w: World, past: History, log: seq<Event>)

  /** What one pass over the process group reported. */
  datatype Signals = Signals(complete: bool, leader: bool)

  /** A pass in which every call succeeded. */
  const FINE := Signals(true, true)

  /** One read(2) on a pipe, after some interference. */
  datatype Attempt = Attempt(steps: seq<Step>, how: How)
  datatype How = Interrupted | Ask(n: nat) | Broken

  /** Everything one loop iteration observes. */
  datatype Obs = Obs(
    before: seq<seq<Step>>,          // interference before each block; missing entries mean none
    waitFails: bool,
    token: bool,
    tokenAgain: bool,
    startWrite: bool,
    cancelSignals: Signals,
    graceSignals: Signals,
    cleanupSignals: Signals,
    repeatSignals: Signals,
    lastSignals: Signals,
    scanWorks: bool,
    groupGone: bool,                 // answer of the numeric cleanup of an uncontrolled run
    outputReads: seq<Attempt>,
    errorReads: seq<Attempt>,
    controlReads: seq<Attempt>,
    readyReads: seq<Attempt>)

  predicate Passed(d: Deadline, now: int) {
    d.At? && now >= d.time
  }

  function Initial(cfg: Config): State {
    State(
      Sup(Capture(true, []), Capture(true, []), false,
          ControlEnd(true, [], false, false),
          Gate(true, true, false, false),
          Exit(false, false, None),
          Cancel(false, false, false, false, Never),
          Cleanup(false, false, false, false, Never)),
      Forked(cfg.isolated), History(false, 0, 0, 0), [])
  }

  /** The while condition, negated. */
  predicate Finished(s: State) {
    && s.sup.exit.reaped
    && !s.sup.output.open && !s.sup.error.open
    && !s.sup.control.open && !s.sup.gate.readyOpen
  }

  function Note(s: State, what: What): State {
    s.(log := s.log + [Event(what, s.sup, s.w)])
  }

  function Env(s: State, steps: seq<Step>): State {
    s.(w := Interfere(s.w, steps))
  }

  // ----- blocks of the loop body ---------------------------------------------------------------

  function ObserveExit(s: State, fails: bool): State {
    if s.sup.exit.exited || fails || !s.w.child.Gone? then s
    else
      Note(s, ExitSeen).(sup := s.sup.(exit := s.sup.exit.(exited := true, information := Some(s.w.child.how))))
  }

  function ObserveCancellation(cfg: Config, s: State, token: bool): State {
    if !cfg.controlled || s.sup.cancel.observed || s.sup.exit.exited || !token then s
    else
      var before := !s.sup.gate.released;
      var cancel := s.sup.cancel.(observed := true, beforeStart := before);
      var t := Note(s, CancelSeen).(sup := s.sup.(cancel := cancel));
      if before then CloseStart(t) else t
  }

  function CloseStart(s: State): State {
    s.(sup := s.sup.(gate := s.sup.gate.(startOpen := false)),
       w := s.w.(start := s.w.start.(open := false)))
  }

  /** write_start succeeds only while the write end is ours and the child still holds the read end;
      either way the descriptor is closed. */
  function WriteStart(s: State, works: bool): State {
    if works && s.sup.gate.startOpen && !s.w.child.Gone? then
      Note(s, Released).(
        sup := s.sup.(gate := s.sup.gate.(startOpen := false, released := true)),
        w := s.w.(start := Pipe(s.w.start.sent + [1], s.w.start.taken, false)))
    else CloseStart(s)
  }

  function ReleaseGate(cfg: Config, s: State, token: bool, meanwhile: seq<Step>, works: bool): State {
    if s.sup.gate.readySeen && !s.sup.gate.released && !s.sup.cancel.observed then
      var t := ObserveCancellation(cfg, s, token);
      if t.sup.cancel.observed then t else WriteStart(Env(t, meanwhile), works)
    else s
  }

  /** One pass of signal_process_group_members: only its verdict changes supervisor state. */
  function SignalGroup(s: State, what: What, r: Signals): State {
    var failed := s.sup.cleanup.failed || !r.complete;
    Note(s, what).(sup := s.sup.(cleanup := s.sup.cleanup.(failed := failed)))
  }

  /** Cancellation waits while the gate is released and exec is unconfirmed. */
  predicate MaySendCancellation(s: State) {
    s.sup.cancel.observed && !s.sup.cancel.attempted && !(s.sup.gate.released && !s.sup.control.confirmed)
  }

  function SendCancellation(cfg: Config, s: State, r: Signals, meanwhile: seq<Step>): State {
    if !MaySendCancellation(s) then s
    else
      var t := Env(SignalGroup(s, CancelTerm, r), meanwhile);
      var cancel := t.sup.cancel.(
        attempted := true,
        delivered := r.leader && !s.w.reaped,
        deadline := At(t.w.clock + cfg.grace));
      t.(sup := t.sup.(cancel := cancel))
  }

  /** Sends SIGKILL for the first time and gives the group one more second. */
  function Force(s: State, now: int, r: Signals): State {
    var t := SignalGroup(s, Kill, r);
    t.(sup := t.sup.(cleanup := t.sup.cleanup.(forced := true, deadline := At(now + 1000))),
       past := t.past.(flips := t.past.flips + 1,
                       moves := if t.sup.cleanup.started then t.past.moves + 1 else t.past.moves))
  }

  function ForceAfterGrace(s: State, now: int, r: Signals): State {
    if s.sup.cancel.attempted && !s.sup.cleanup.forced
       && Passed(s.sup.cancel.deadline, now) && !s.sup.cleanup.complete
    then Force(s, now, r)
    else s
  }

  function SetCleanup(s: State, cleanup: Cleanup): State {
    s.(sup := s.sup.(cleanup := cleanup))
  }

  function StartCleanup(cfg: Config, s: State, now: int, r: Signals): State {
    if s.sup.exit.exited && cfg.controlled && !s.sup.cleanup.started then
      if !s.sup.cancel.attempted then
        var t := SignalGroup(s, CleanupTerm, r);
        SetCleanup(t, t.sup.cleanup.(started := true, deadline := At(now + 200)))
      else if !s.sup.cleanup.forced then
        SetCleanup(s, s.sup.cleanup.(started := true, deadline := s.sup.cancel.deadline))
      else SetCleanup(s, s.sup.cleanup.(started := true))
    else s
  }

  predicate CleaningUp(cfg: Config, s: State) {
    s.sup.exit.exited && cfg.controlled && s.sup.cleanup.started && !s.sup.cleanup.complete
  }

  function RepeatKill(cfg: Config, s: State, r: Signals): State {
    if CleaningUp(cfg, s) && s.sup.cleanup.forced then SignalGroup(s, Kill, r) else s
  }

  /** Members are still there: past the deadline, kill them; past the second one, give up. */
  function Escalate(s: State, now: int, r: Signals): State {
    if !Passed(s.sup.cleanup.deadline, now) then s
    else if !s.sup.cleanup.forced then Force(s, now, r)
    else
      var t := SignalGroup(s, Kill, r);
      SetCleanup(t, t.sup.cleanup.(failed := true, complete := true)).(past := t.past.(gaveUp := true))
  }

  /** The scan is one snapshot of the group; it can also fail outright. */
  function ScanGroup(cfg: Config, s: State, now: int, works: bool, r: Signals): State {
    if !CleaningUp(cfg, s) then s
    else
      var clean := works && s.w.members == {};
      var t := Note(s, Scan(clean));
      if clean then SetCleanup(t, t.sup.cleanup.(complete := true)) else Escalate(t, now, r)
  }

  function ReapChild(cfg: Config, s: State, groupGone: bool): State {
    if !s.sup.exit.exited || s.sup.exit.reaped then s
    else if cfg.controlled && !s.sup.cleanup.complete then s
    else
      var t := Note(s, Reap).(
        sup := s.sup.(exit := s.sup.exit.(reaped := true)),
        w := s.w.(reaped := true));
      if cfg.controlled then t
      else SetCleanup(t, t.sup.cleanup.(complete := groupGone, failed := !groupGone))
  }

  // ----- draining the pipes --------------------------------------------------------------------

  datatype Got = Data(bytes: seq<Byte>, p: Pipe) | Eof | Again

  function Min(a: nat, b: nat): nat {
    if a < b then a else b
  }

  /** read(2) into a buffer of `cap` bytes; the kernel returns any non-empty amount it has. */
  function ReadPipe(p: Pipe, held: bool, cap: nat, n: nat): (g: Got)
    ensures g.Data? ==> 0 < |g.bytes| <= cap && g.p == p.(taken := p.taken + |g.bytes|)
    ensures g.Data? ==> g.p.taken <= |p.sent| && g.bytes == p.sent[p.taken..g.p.taken]
    ensures cap > 0 ==> (g.Data? <==> p.taken < |p.sent|)
    ensures cap > 0 ==> (g.Again? <==> p.taken >= |p.sent| && held)
  {
    if cap == 0 then Eof
    else if p.taken < |p.sent| then
      var most := Min(|p.sent| - p.taken, cap);
      var k := if n == 0 then 1 else Min(n, most);
      Data(p.sent[p.taken..p.taken + k], p.(taken := p.taken + k))
    else if held then Again
    else Eof
  }

  const STREAM_BUFFER: nat := 16384

  /** The four pipes the loop drains. */
  datatype Port = Captured(which: Stream) | ControlPort | ReadyPort

  predicate IsOpen(s: State, port: Port) {
    match port
    case Captured(Output) => s.sup.output.open
    case Captured(Error) => s.sup.error.open
    case ControlPort => s.sup.control.open
    case ReadyPort => s.sup.gate.readyOpen
  }

  function PipeAt(w: World, port: Port): Pipe {
    match port
    case Captured(which) => PipeOf(w, which)
    case ControlPort => w.control
    case ReadyPort => w.ready
  }

  predicate HeldAt(w: World, port: Port) {
    match port
    case Captured(which) => Held(w, which)
    case ControlPort => w.control.open
    case ReadyPort => w.ready.open
  }

  /** Size of the buffer the next read is given. */
  function Capacity(s: State, port: Port): nat {
    match port
    case Captured(_) => STREAM_BUFFER
    case ControlPort => if |s.sup.control.bytes| < RECORD_SIZE then RECORD_SIZE - |s.sup.control.bytes| else 0
    case ReadyPort => 1
  }

  /** Bytes arrived. */
  function Accept(s: State, port: Port, bytes: seq<Byte>, p: Pipe): State {
    match port
    case Captured(Output) =>
      s.(w := s.w.(output := p), sup := s.sup.(output := Capture(true, s.sup.output.text + bytes)))
    case Captured(Error) =>
      s.(w := s.w.(error := p), sup := s.sup.(error := Capture(true, s.sup.error.text + bytes)))
    case ControlPort =>
      var all := s.sup.control.bytes + bytes;
      s.(w := s.w.(control := p),
         sup := s.sup.(control := s.sup.control.(bytes := all, open := |all| != RECORD_SIZE)))
    case ReadyPort =>
      s.(w := s.w.(ready := p),
         sup := s.sup.(gate := s.sup.gate.(readySeen := s.sup.gate.readySeen || 1 in bytes)))
  }

  /** read returned 0: the read end is closed, and on the control pipe this may confirm exec. */
  function AtEof(s: State, port: Port): State {
    match port
    case Captured(Output) => s.(sup := s.sup.(output := s.sup.output.(open := false)))
    case Captured(Error) => s.(sup := s.sup.(error := s.sup.error.(open := false)))
    case ControlPort =>
      var c := s.sup.control;
      var confirmed := c.confirmed || (c.bytes == [] && s.sup.gate.released);
      s.(sup := s.sup.(control := c.(open := false, confirmed := confirmed)))
    case ReadyPort => s.(sup := s.sup.(gate := s.sup.gate.(readyOpen := false)))
  }

  /** read failed hard: the read end is closed, and a captured stream is lost. */
  function AtError(s: State, port: Port): State {
    match port
    case Captured(Output) =>
      s.(sup := s.sup.(output := s.sup.output.(open := false), captureFailed := true))
    case Captured(Error) =>
      s.(sup := s.sup.(error := s.sup.error.(open := false), captureFailed := true))
    case ControlPort => s.(sup := s.sup.(control := s.sup.control.(open := false, broken := true)))
    case ReadyPort => s.(sup := s.sup.(gate := s.sup.gate.(readyOpen := false)))
  }

  /** What the next read of up to `n` bytes finds. */
  function Look(s: State, port: Port, n: nat): Got {
    ReadPipe(PipeAt(s.w, port), HeldAt(s.w, port), Capacity(s, port), n)
  }

  function Unread(p: Pipe): nat {
    if p.taken < |p.sent| then |p.sent| - p.taken else 0
  }

  /** One of the read loops: it reads until EOF, EAGAIN, a hard error, or a full control record.
      Reads beyond the listed attempts are undisturbed and ask for a full buffer. */
  function DrainPort(s: State, port: Port, tries: seq<Attempt>): State
    decreases |tries|, Unread(PipeAt(s.w, port))
  {
    if !IsOpen(s, port) then s
    else if tries == [] then
      match Look(s, port, Capacity(s, port))
      case Data(bytes, p) => DrainPort(Accept(s, port, bytes, p), port, [])
      case Eof => AtEof(s, port)
      case Again => s
    else
      var e := Env(s, tries[0].steps);
      match tries[0].how
      case Interrupted => DrainPort(e, port, tries[1..])
      case Broken => AtError(e, port)
      case Ask(n) =>
        match Look(e, port, n)
        case Data(bytes, p) => DrainPort(Accept(e, port, bytes, p), port, tries[1..])
        case Eof => AtEof(e, port)
        case Again => e
  }

  // ----- one iteration, and runs ---------------------------------------------------------------

  /** Interference slot `i` of an iteration. */
  function Slot(o: Obs, i: nat): seq<Step> {
    if i < |o.before| then o.before[i] else []
  }

  /** The state right after an iteration has looked for the exit. */
  function LookForExit(s: State, o: Obs): State {
    ObserveExit(Env(s, Slot(o, 0)), o.waitFails)
  }

  /** Loop body up to the point where send_cancellation_signal decides. */
  function BeforeTerm(cfg: Config, s: State, o: Obs): State {
    var a := LookForExit(s, o);
    var b := ObserveCancellation(cfg, Env(a, Slot(o, 1)), o.token);
    var c := ReleaseGate(cfg, Env(b, Slot(o, 2)), o.tokenAgain, Slot(o, 3), o.startWrite);
    Env(c, Slot(o, 4))
  }

  /** Loop body up to and including send_cancellation_signal. */
  function PassGate(cfg: Config, s: State, o: Obs): State {
    SendCancellation(cfg, BeforeTerm(cfg, s, o), o.cancelSignals, Slot(o, 5))
  }

  function ReadClock(s: State): State {
    s.(past := s.past.(now := s.w.clock))
  }

  /** From the clock reading up to the reaping of the leader. */
  function CleanUp(cfg: Config, s: State, o: Obs): State {
    var a := ReadClock(Env(s, Slot(o, 6)));
    var now := a.past.now;
    var b := ForceAfterGrace(Env(a, Slot(o, 7)), now, o.graceSignals);
    var c := StartCleanup(cfg, Env(b, Slot(o, 8)), now, o.cleanupSignals);
    var d := RepeatKill(cfg, Env(c, Slot(o, 9)), o.repeatSignals);
    var e := ScanGroup(cfg, Env(d, Slot(o, 10)), now, o.scanWorks, o.lastSignals);
    ReapChild(cfg, Env(e, Slot(o, 11)), o.groupGone)
  }

  /** poll and the four drains. */
  function Drain(s: State, o: Obs): State {
    var a := DrainPort(Env(s, Slot(o, 12)), Captured(Output), o.outputReads);
    var b := DrainPort(a, Captured(Error), o.errorReads);
    var c := DrainPort(b, ControlPort, o.controlReads);
    DrainPort(c, ReadyPort, o.readyReads)
  }

  function Iterate(cfg: Config, s: State, o: Obs): State {
    if Finished(s) then s else Drain(CleanUp(cfg, PassGate(cfg, s, o), o), o)
  }

  /** Iteration `i` of a run leads from its i-th state to the next one. */
  ghost predicate Linked(cfg: Config, run: seq<State>, obs: seq<Obs>, i: nat)
    requires i < |obs| && i + 1 < |run|
  {
    run[i + 1] == Iterate(cfg, run[i], obs[i])
  }

  /** `run` lists the states of a run at its iteration boundaries, `obs` what each iteration observed. */
  ghost predicate IsRun(cfg: Config, run: seq<State>, obs: seq<Obs>) {
    && |run| == |obs| + 1
    && run[0] == Initial(cfg)
    && forall i :: 0 <= i < |obs| ==> Linked(cfg, run, obs, i)
  }
}
