/**
 From single blocks to whole iterations and runs.
 */
module SupervisorRuns {
  import opened ControlRecord
  import opened Child
  import opened Supervisor
  import opened SupervisorInvariant

  lemma ProgressTransitive(cfg: Config, a: State, b: State, c: State)
    requires Progress(cfg, a, b) && Progress(cfg, b, c)
    ensures Progress(cfg, a, c)
  {}

  // ----- the read loops ------------------------------------------------------------------------

  /** `p` holds of the bytes at the front of a pipe and of the pipe once they are taken. */
  predicate TakesFront(q: Pipe, bytes: seq<Byte>, p: Pipe) {
    p == q.(taken := q.taken + |bytes|) && p.taken <= |q.sent| && bytes == q.sent[q.taken..p.taken]
  }

  lemma AcceptStreamState(cfg: Config, s: State, which: Stream, bytes: seq<Byte>, p: Pipe)
    requires StateInv(cfg, s) && IsOpen(s, Captured(which)) && TakesFront(PipeOf(s.w, which), bytes, p)
    ensures StateInv(cfg, Accept(s, Captured(which), bytes, p))
  {
    var q := PipeOf(s.w, which);
    assert q.sent[..q.taken] + bytes == q.sent[..p.taken];
  }

  lemma AcceptStreamKeeps(cfg: Config, s: State, which: Stream, bytes: seq<Byte>, p: Pipe)
    requires Inv(cfg, s) && IsOpen(s, Captured(which)) && TakesFront(PipeOf(s.w, which), bytes, p)
    ensures var t := Accept(s, Captured(which), bytes, p); Inv(cfg, t) && Progress(cfg, s, t)
  {
    AcceptStreamState(cfg, s, which, bytes, p);
    AcceptStreamProgress(cfg, s, which, bytes, p);
  }

  lemma AcceptStreamProgress(cfg: Config, s: State, which: Stream, bytes: seq<Byte>, p: Pipe)
    requires TakesFront(PipeOf(s.w, which), bytes, p)
    ensures Progress(cfg, s, Accept(s, Captured(which), bytes, p))
  {}

  lemma AcceptControlKeeps(cfg: Config, s: State, bytes: seq<Byte>, p: Pipe)
    requires Inv(cfg, s) && s.sup.control.open && |bytes| <= Capacity(s, ControlPort)
    requires TakesFront(s.w.control, bytes, p)
    ensures var t := Accept(s, ControlPort, bytes, p); Inv(cfg, t) && Progress(cfg, s, t)
  {
    var q := s.w.control;
    assert q.sent[..q.taken] + bytes == q.sent[..p.taken];
  }

  lemma AcceptReadyState(cfg: Config, s: State, bytes: seq<Byte>, p: Pipe)
    requires StateInv(cfg, s) && TakesFront(s.w.ready, bytes, p)
    ensures StateInv(cfg, Accept(s, ReadyPort, bytes, p))
  {
    if bytes != [] {
      assert bytes[0] == s.w.ready.sent[s.w.ready.taken];
      assert s.w.ready.sent == [1] && bytes[0] == 1;
    }
  }

  lemma AcceptReadyProgress(cfg: Config, s: State, bytes: seq<Byte>, p: Pipe)
    requires TakesFront(s.w.ready, bytes, p)
    ensures Progress(cfg, s, Accept(s, ReadyPort, bytes, p))
  {}

  lemma AcceptReadyKeeps(cfg: Config, s: State, bytes: seq<Byte>, p: Pipe)
    requires Inv(cfg, s) && s.sup.gate.readyOpen && TakesFront(s.w.ready, bytes, p)
    ensures var t := Accept(s, ReadyPort, bytes, p); Inv(cfg, t) && Progress(cfg, s, t)
  {
    AcceptReadyState(cfg, s, bytes, p);
    AcceptReadyProgress(cfg, s, bytes, p);
  }

  lemma LoseStreamKeeps(cfg: Config, s: State, which: Stream)
    requires Inv(cfg, s) && IsOpen(s, Captured(which))
    ensures var t := AtError(s, Captured(which)); Inv(cfg, t) && Progress(cfg, s, t)
  {}

  lemma EndStreamKeeps(cfg: Config, s: State, which: Stream, n: nat)
    requires Inv(cfg, s) && IsOpen(s, Captured(which)) && Look(s, Captured(which), n).Eof?
    ensures var t := AtEof(s, Captured(which)); Inv(cfg, t) && Progress(cfg, s, t)
  {}

  lemma EndControlState(cfg: Config, s: State, n: nat)
    requires StateInv(cfg, s) && s.sup.control.open
    ensures StateInv(cfg, AtError(s, ControlPort))
    ensures Look(s, ControlPort, n).Eof? ==> StateInv(cfg, AtEof(s, ControlPort))
  {}

  lemma EndControlKeeps(cfg: Config, s: State, n: nat)
    requires Inv(cfg, s) && s.sup.control.open
    ensures var t := AtError(s, ControlPort); Inv(cfg, t) && Progress(cfg, s, t)
    ensures var t := AtEof(s, ControlPort);
            Look(s, ControlPort, n).Eof? ==> Inv(cfg, t) && Progress(cfg, s, t)
  {
    EndControlState(cfg, s, n);
  }

  lemma EndReadyKeeps(cfg: Config, s: State)
    requires Inv(cfg, s)
    ensures AtEof(s, ReadyPort) == AtError(s, ReadyPort)
    ensures var t := AtEof(s, ReadyPort); Inv(cfg, t) && Progress(cfg, s, t)
  {}

  /** `P` survives interference and every outcome of a read. */
  ghost predicate ClosedUnderReads(P: State -> bool) {
    && (forall s, steps :: P(s) ==> P(Env(s, steps)))
    && (forall s, port, n :: P(s) && IsOpen(s, port) && Look(s, port, n).Data? ==>
          P(Accept(s, port, Look(s, port, n).bytes, Look(s, port, n).p)))
    && (forall s, port, n :: P(s) && IsOpen(s, port) && Look(s, port, n).Eof? ==> P(AtEof(s, port)))
    && (forall s, port :: P(s) && IsOpen(s, port) ==> P(AtError(s, port)))
  }

  /** Induction over a read loop. */
  lemma {:induction false} DrainPortInduction(P: State -> bool, s: State, port: Port, tries: seq<Attempt>)
    requires ClosedUnderReads(P) && P(s)
    ensures P(DrainPort(s, port, tries))
    decreases |tries|, Unread(PipeAt(s.w, port))
  {
    if IsOpen(s, port) {
      if tries == [] {
        var g := Look(s, port, Capacity(s, port));
        if g.Data? { DrainPortInduction(P, Accept(s, port, g.bytes, g.p), port, []); }
      } else {
        var e := Env(s, tries[0].steps);
        match tries[0].how {
          case Interrupted => DrainPortInduction(P, e, port, tries[1..]);
          case Broken =>
            if IsOpen(e, port) {}
          case Ask(n) =>
            var g := Look(e, port, n);
            if g.Data? { DrainPortInduction(P, Accept(e, port, g.bytes, g.p), port, tries[1..]); }
        }
      }
    }
  }

  ghost predicate Reached(cfg: Config, a: State, b: State) {
    Inv(cfg, b) && Progress(cfg, a, b)
  }

  lemma AcceptReached(cfg: Config, a: State, s: State, port: Port, n: nat)
    requires Reached(cfg, a, s) && IsOpen(s, port) && Look(s, port, n).Data?
    ensures Reached(cfg, a, Accept(s, port, Look(s, port, n).bytes, Look(s, port, n).p))
  {
    var g := Look(s, port, n);
    match port {
      case Captured(which) => AcceptStreamKeeps(cfg, s, which, g.bytes, g.p);
      case ControlPort => AcceptControlKeeps(cfg, s, g.bytes, g.p);
      case ReadyPort => AcceptReadyKeeps(cfg, s, g.bytes, g.p);
    }
    ProgressTransitive(cfg, a, s, Accept(s, port, g.bytes, g.p));
  }

  lemma EndReached(cfg: Config, a: State, s: State, port: Port, n: nat)
    requires Reached(cfg, a, s) && IsOpen(s, port)
    ensures Reached(cfg, a, AtError(s, port))
    ensures Look(s, port, n).Eof? ==> Reached(cfg, a, AtEof(s, port))
  {
    match port {
      case Captured(which) =>
        LoseStreamKeeps(cfg, s, which);
        if Look(s, port, n).Eof? { EndStreamKeeps(cfg, s, which, n); }
      case ControlPort => EndControlKeeps(cfg, s, n);
      case ReadyPort => EndReadyKeeps(cfg, s);
    }
    ProgressTransitive(cfg, a, s, AtError(s, port));
    if Look(s, port, n).Eof? { ProgressTransitive(cfg, a, s, AtEof(s, port)); }
  }

  lemma EnvReached(cfg: Config, a: State, s: State, steps: seq<Step>)
    requires Reached(cfg, a, s)
    ensures Reached(cfg, a, Env(s, steps))
  {
    EnvKeeps(cfg, s, steps);
    ProgressTransitive(cfg, a, s, Env(s, steps));
  }

  lemma DrainPortReached(cfg: Config, a: State, s: State, port: Port, tries: seq<Attempt>)
    requires Reached(cfg, a, s)
    ensures Reached(cfg, a, DrainPort(s, port, tries))
  {
    var P := (t: State) => Reached(cfg, a, t);
    forall t, steps | P(t) ensures P(Env(t, steps)) {
      EnvReached(cfg, a, t, steps);
    }
    forall t, port, n | P(t) && IsOpen(t, port) && Look(t, port, n).Data?
      ensures P(Accept(t, port, Look(t, port, n).bytes, Look(t, port, n).p))
    {
      AcceptReached(cfg, a, t, port, n);
    }
    forall t, port, n | P(t) && IsOpen(t, port) && Look(t, port, n).Eof? ensures P(AtEof(t, port)) {
      EndReached(cfg, a, t, port, n);
    }
    forall t, port | P(t) && IsOpen(t, port) ensures P(AtError(t, port)) {
      EndReached(cfg, a, t, port, 0);
    }
    DrainPortInduction(P, s, port, tries);
  }

  lemma DrainReached(cfg: Config, a: State, s: State, o: Obs)
    requires Reached(cfg, a, s)
    ensures Reached(cfg, a, Drain(s, o))
  {
    var e := Env(s, Slot(o, 12));
    EnvReached(cfg, a, s, Slot(o, 12));
    var b := DrainPort(e, Captured(Output), o.outputReads);
    DrainPortReached(cfg, a, e, Captured(Output), o.outputReads);
    var c := DrainPort(b, Captured(Error), o.errorReads);
    DrainPortReached(cfg, a, b, Captured(Error), o.errorReads);
    var d := DrainPort(c, ControlPort, o.controlReads);
    DrainPortReached(cfg, a, c, ControlPort, o.controlReads);
    DrainPortReached(cfg, a, d, ReadyPort, o.readyReads);
  }

  // ----- a quiet world drains to the end -------------------------------------------------------

  /** Nobody is left who could write to any of the pipes. */
  predicate Quiet(w: World) {
    w.child.Gone? && w.members == {} && !w.control.open && !w.ready.open
  }

  lemma {:induction false} QuietStays(w: World, steps: seq<Step>)
    requires Quiet(w)
    ensures Quiet(Interfere(w, steps))
    decreases |steps|
  {
    if steps != [] {
      ApplyWhenEmpty(w, steps[0]);
      QuietStays(Apply(w, steps[0]), steps[1..]);
    }
  }

  /** A port that is closed stays closed while any port is drained. */
  lemma {:induction false} ClosedStaysClosed(s: State, port: Port, tries: seq<Attempt>, other: Port)
    requires !IsOpen(s, other)
    ensures !IsOpen(DrainPort(s, port, tries), other)
  {
    var P := (t: State) => !IsOpen(t, other);
    DrainPortInduction(P, s, port, tries);
  }

  lemma {:induction false} QuietDrains(s: State, port: Port, tries: seq<Attempt>)
    requires Quiet(s.w)
    ensures var t := DrainPort(s, port, tries); Quiet(t.w) && !IsOpen(t, port)
    decreases |tries|, Unread(PipeAt(s.w, port))
  {
    if IsOpen(s, port) {
      if tries == [] {
        var g := Look(s, port, Capacity(s, port));
        if g.Data? { QuietDrains(Accept(s, port, g.bytes, g.p), port, []); }
      } else {
        var e := Env(s, tries[0].steps);
        QuietStays(s.w, tries[0].steps);
        match tries[0].how {
          case Interrupted => QuietDrains(e, port, tries[1..]);
          case Broken =>
          case Ask(n) =>
            var g := Look(e, port, n);
            if g.Data? { QuietDrains(Accept(e, port, g.bytes, g.p), port, tries[1..]); }
        }
      }
    }
  }

  lemma QuietIterationEnds(s: State, o: Obs)
    requires Quiet(s.w)
    ensures var t := Drain(s, o);
            !t.sup.output.open && !t.sup.error.open && !t.sup.control.open && !t.sup.gate.readyOpen
  {
    var out, err := Captured(Output), Captured(Error);
    var e := Env(s, Slot(o, 12));
    QuietStays(s.w, Slot(o, 12));
    var b := DrainPort(e, out, o.outputReads);
    QuietDrains(e, out, o.outputReads);
    var c := DrainPort(b, err, o.errorReads);
    QuietDrains(b, err, o.errorReads);
    ClosedStaysClosed(b, err, o.errorReads, out);
    var d := DrainPort(c, ControlPort, o.controlReads);
    QuietDrains(c, ControlPort, o.controlReads);
    ClosedStaysClosed(c, ControlPort, o.controlReads, out);
    ClosedStaysClosed(c, ControlPort, o.controlReads, err);
    var t := DrainPort(d, ReadyPort, o.readyReads);
    QuietDrains(d, ReadyPort, o.readyReads);
    ClosedStaysClosed(d, ReadyPort, o.readyReads, out);
    ClosedStaysClosed(d, ReadyPort, o.readyReads, err);
    ClosedStaysClosed(d, ReadyPort, o.readyReads, ControlPort);
    assert !IsOpen(t, out) && !IsOpen(t, err) && !IsOpen(t, ControlPort) && !IsOpen(t, ReadyPort);
  }

  // ----- one iteration -------------------------------------------------------------------------

  /** Between iterations of a controlled run a reaped leader means the loop is over, unless cleanup
      was given up. */
  ghost predicate Settled(cfg: Config, s: State) {
    cfg.controlled && s.sup.exit.reaped && !s.past.gaveUp ==> Finished(s)
  }

  lemma ObserveExitReached(cfg: Config, a: State, s: State, fails: bool)
    requires Reached(cfg, a, s)
    ensures Reached(cfg, a, ObserveExit(s, fails))
  {
    ObserveExitKeeps(cfg, s, fails);
    ProgressTransitive(cfg, a, s, ObserveExit(s, fails));
  }

  lemma ObserveCancellationReached(cfg: Config, a: State, s: State, token: bool)
    requires Reached(cfg, a, s)
    ensures Reached(cfg, a, ObserveCancellation(cfg, s, token))
  {
    ObserveCancellationKeeps(cfg, s, token);
    ProgressTransitive(cfg, a, s, ObserveCancellation(cfg, s, token));
  }

  lemma ReleaseGateReached(cfg: Config, a: State, s: State, token: bool, meanwhile: seq<Step>, works: bool)
    requires Reached(cfg, a, s)
    ensures Reached(cfg, a, ReleaseGate(cfg, s, token, meanwhile, works))
  {
    ReleaseGateKeeps(cfg, s, token, meanwhile, works);
    ProgressTransitive(cfg, a, s, ReleaseGate(cfg, s, token, meanwhile, works));
  }

  lemma SendCancellationReached(cfg: Config, a: State, s: State, r: Signals, meanwhile: seq<Step>)
    requires Reached(cfg, a, s)
    requires s.sup.exit.reaped && cfg.controlled ==> s.past.gaveUp
    ensures Reached(cfg, a, SendCancellation(cfg, s, r, meanwhile))
  {
    SendCancellationKeeps(cfg, s, r, meanwhile);
    ProgressTransitive(cfg, a, s, SendCancellation(cfg, s, r, meanwhile));
  }

  lemma ForceAfterGraceReached(cfg: Config, a: State, s: State, now: int, r: Signals)
    requires Reached(cfg, a, s)
    requires now <= a.w.clock
    ensures Reached(cfg, a, ForceAfterGrace(s, now, r))
  {
    ForceAfterGraceKeeps(cfg, s, now, r);
    ProgressTransitive(cfg, a, s, ForceAfterGrace(s, now, r));
  }

  lemma StartCleanupReached(cfg: Config, a: State, s: State, now: int, r: Signals)
    requires Reached(cfg, a, s)
    ensures Reached(cfg, a, StartCleanup(cfg, s, now, r))
  {
    StartCleanupKeeps(cfg, s, now, r);
    ProgressTransitive(cfg, a, s, StartCleanup(cfg, s, now, r));
  }

  lemma RepeatKillReached(cfg: Config, a: State, s: State, r: Signals)
    requires Reached(cfg, a, s)
    ensures Reached(cfg, a, RepeatKill(cfg, s, r))
  {
    RepeatKillKeeps(cfg, s, r);
    ProgressTransitive(cfg, a, s, RepeatKill(cfg, s, r));
  }

  lemma ScanGroupReached(cfg: Config, a: State, s: State, now: int, works: bool, r: Signals)
    requires Reached(cfg, a, s)
    requires now <= a.w.clock
    ensures Reached(cfg, a, ScanGroup(cfg, s, now, works, r))
  {
    ScanGroupKeeps(cfg, s, now, works, r);
    ProgressTransitive(cfg, a, s, ScanGroup(cfg, s, now, works, r));
  }

  lemma ReapChildReached(cfg: Config, a: State, s: State, groupGone: bool)
    requires Reached(cfg, a, s)
    ensures Reached(cfg, a, ReapChild(cfg, s, groupGone))
  {
    ReapChildKeeps(cfg, s, groupGone);
    ProgressTransitive(cfg, a, s, ReapChild(cfg, s, groupGone));
  }

  lemma LookReached(cfg: Config, s: State, o: Obs)
    requires Inv(cfg, s)
    ensures Reached(cfg, s, LookForExit(s, o))
  {
    EnvReached(cfg, s, s, Slot(o, 0));
    ObserveExitReached(cfg, s, Env(s, Slot(o, 0)), o.waitFails);
  }

  /** From the look for the exit to the decision about the cancellation signal. */
  lemma DecisionReached(cfg: Config, a: State, s: State, o: Obs)
    requires Reached(cfg, a, LookForExit(s, o))
    ensures Reached(cfg, a, BeforeTerm(cfg, s, o))
  {
    var s1 := LookForExit(s, o);
    var s2 := Env(s1, Slot(o, 1));
    EnvReached(cfg, a, s1, Slot(o, 1));
    var s3 := ObserveCancellation(cfg, s2, o.token);
    ObserveCancellationReached(cfg, a, s2, o.token);
    var s4 := Env(s3, Slot(o, 2));
    EnvReached(cfg, a, s3, Slot(o, 2));
    var s5 := ReleaseGate(cfg, s4, o.tokenAgain, Slot(o, 3), o.startWrite);
    ReleaseGateReached(cfg, a, s4, o.tokenAgain, Slot(o, 3), o.startWrite);
    EnvReached(cfg, a, s5, Slot(o, 4));
  }

  lemma BeforeTermReached(cfg: Config, s: State, o: Obs)
    requires Inv(cfg, s)
    ensures Reached(cfg, s, BeforeTerm(cfg, s, o))
  {
    LookReached(cfg, s, o);
    DecisionReached(cfg, s, s, o);
  }

  /** What the blocks before the cancellation signal leave alone: cleanup, the control pipe, reaping, the
      attempt itself and, once the exit is seen, cancellation. */
  predicate LeftAlone(s: State, t: State) {
    && t.past == s.past
    && t.sup.exit.reaped == s.sup.exit.reaped
    && t.sup.cleanup == s.sup.cleanup
    && t.sup.control == s.sup.control
    && t.sup.cancel.attempted == s.sup.cancel.attempted && t.sup.cancel.deadline == s.sup.cancel.deadline
    && (s.sup.exit.exited ==> t.sup.exit == s.sup.exit && t.sup.cancel == s.sup.cancel)
  }

  lemma ExitBlockLeaves(s: State, fails: bool)
    ensures LeftAlone(s, ObserveExit(s, fails))
  {}

  lemma CancelBlockLeaves(cfg: Config, s: State, token: bool)
    ensures LeftAlone(s, ObserveCancellation(cfg, s, token))
  {}

  lemma GateBlockLeaves(cfg: Config, s: State, token: bool, meanwhile: seq<Step>, works: bool)
    ensures LeftAlone(s, ReleaseGate(cfg, s, token, meanwhile, works))
  {}

  lemma EnvLeaves(s: State, steps: seq<Step>)
    ensures LeftAlone(s, Env(s, steps))
  {}

  lemma BeforeTermLeaves(cfg: Config, s: State, o: Obs)
    ensures LeftAlone(s, LookForExit(s, o)) && LeftAlone(LookForExit(s, o), BeforeTerm(cfg, s, o))
    ensures LeftAlone(s, BeforeTerm(cfg, s, o))
  {
    var s0 := Env(s, Slot(o, 0));
    var s1 := LookForExit(s, o);
    EnvLeaves(s, Slot(o, 0));
    ExitBlockLeaves(s0, o.waitFails);
    var s2 := Env(s1, Slot(o, 1));
    var s3 := ObserveCancellation(cfg, s2, o.token);
    EnvLeaves(s1, Slot(o, 1));
    CancelBlockLeaves(cfg, s2, o.token);
    var s4 := Env(s3, Slot(o, 2));
    var s5 := ReleaseGate(cfg, s4, o.tokenAgain, Slot(o, 3), o.startWrite);
    EnvLeaves(s3, Slot(o, 2));
    GateBlockLeaves(cfg, s4, o.tokenAgain, Slot(o, 3), o.startWrite);
    EnvLeaves(s5, Slot(o, 4));
  }

  lemma PassGateReached(cfg: Config, s: State, o: Obs)
    requires Inv(cfg, s)
    requires cfg.controlled && s.sup.exit.reaped ==> s.past.gaveUp
    ensures Reached(cfg, s, PassGate(cfg, s, o))
  {
    BeforeTermReached(cfg, s, o);
    BeforeTermLeaves(cfg, s, o);
    SendCancellationReached(cfg, s, BeforeTerm(cfg, s, o), o.cancelSignals, Slot(o, 5));
  }

  lemma ReadClockKeeps(cfg: Config, s: State)
    requires Inv(cfg, s)
    ensures var t := ReadClock(s); Inv(cfg, t) && Progress(cfg, s, t)
  {}

  lemma CleanUpReached(cfg: Config, s: State, o: Obs)
    requires Inv(cfg, s)
    ensures Reached(cfg, s, CleanUp(cfg, s, o))
    ensures Env(s, Slot(o, 6)).w.clock <= CleanUp(cfg, s, o).w.clock
  {
    var a := ReadClock(Env(s, Slot(o, 6)));
    EnvKeeps(cfg, s, Slot(o, 6));
    ReadClockKeeps(cfg, Env(s, Slot(o, 6)));
    ProgressTransitive(cfg, s, Env(s, Slot(o, 6)), a);
    var now := a.past.now;
    var s1 := Env(a, Slot(o, 7));
    EnvReached(cfg, a, a, Slot(o, 7));
    var s2 := ForceAfterGrace(s1, now, o.graceSignals);
    ForceAfterGraceReached(cfg, a, s1, now, o.graceSignals);
    var s3 := Env(s2, Slot(o, 8));
    EnvReached(cfg, a, s2, Slot(o, 8));
    var s4 := StartCleanup(cfg, s3, now, o.cleanupSignals);
    StartCleanupReached(cfg, a, s3, now, o.cleanupSignals);
    var s5 := Env(s4, Slot(o, 9));
    EnvReached(cfg, a, s4, Slot(o, 9));
    var s6 := RepeatKill(cfg, s5, o.repeatSignals);
    RepeatKillReached(cfg, a, s5, o.repeatSignals);
    CleanUpTail(cfg, a, s6, now, o);
    ProgressTransitive(cfg, s, a, CleanUp(cfg, s, o));
  }

  lemma CleanUpTail(cfg: Config, a: State, s: State, now: int, o: Obs)
    requires Reached(cfg, a, s) && now == a.w.clock
    ensures var e := ScanGroup(cfg, Env(s, Slot(o, 10)), now, o.scanWorks, o.lastSignals);
            Reached(cfg, a, ReapChild(cfg, Env(e, Slot(o, 11)), o.groupGone))
  {
    var s7 := Env(s, Slot(o, 10));
    EnvReached(cfg, a, s, Slot(o, 10));
    var s8 := ScanGroup(cfg, s7, now, o.scanWorks, o.lastSignals);
    ScanGroupReached(cfg, a, s7, now, o.scanWorks, o.lastSignals);
    var s9 := Env(s8, Slot(o, 11));
    EnvReached(cfg, a, s8, Slot(o, 11));
    ReapChildReached(cfg, a, s9, o.groupGone);
  }

  /** When the leader has been reaped and cleanup was not given up, the rest of the iteration reads
      every pipe to its end. */
  lemma ReapedDrains(cfg: Config, s: State, o: Obs)
    requires Inv(cfg, s) && cfg.controlled && s.sup.exit.reaped && !s.past.gaveUp
    ensures Finished(Drain(s, o))
  {
    QuietIterationEnds(s, o);
    DrainOnlyReads(s, o);
  }

  lemma {:induction false} DrainKeepsPast(s: State, port: Port, tries: seq<Attempt>)
    ensures var t := DrainPort(s, port, tries);
            t.past == s.past && t.sup.exit == s.sup.exit && t.sup.cleanup == s.sup.cleanup
            && t.sup.cancel == s.sup.cancel && t.log == s.log
            && t.sup.gate.released == s.sup.gate.released
    decreases |tries|, Unread(PipeAt(s.w, port))
  {
    if IsOpen(s, port) {
      if tries == [] {
        var g := Look(s, port, Capacity(s, port));
        if g.Data? { DrainKeepsPast(Accept(s, port, g.bytes, g.p), port, []); }
      } else {
        var e := Env(s, tries[0].steps);
        match tries[0].how {
          case Interrupted => DrainKeepsPast(e, port, tries[1..]);
          case Broken =>
          case Ask(n) =>
            var g := Look(e, port, n);
            if g.Data? { DrainKeepsPast(Accept(e, port, g.bytes, g.p), port, tries[1..]); }
        }
      }
    }
  }

  lemma DrainOnlyReads(s: State, o: Obs)
    ensures var t := Drain(s, o);
            t.past == s.past && t.sup.exit == s.sup.exit && t.sup.cleanup == s.sup.cleanup
            && t.sup.cancel == s.sup.cancel && t.log == s.log
            && t.sup.gate.released == s.sup.gate.released
  {
    var e := Env(s, Slot(o, 12));
    var b := DrainPort(e, Captured(Output), o.outputReads);
    DrainKeepsPast(e, Captured(Output), o.outputReads);
    var c := DrainPort(b, Captured(Error), o.errorReads);
    DrainKeepsPast(b, Captured(Error), o.errorReads);
    var d := DrainPort(c, ControlPort, o.controlReads);
    DrainKeepsPast(c, ControlPort, o.controlReads);
    DrainKeepsPast(d, ReadyPort, o.readyReads);
  }

  lemma IterateKeeps(cfg: Config, s: State, o: Obs)
    requires Inv(cfg, s) && Settled(cfg, s)
    ensures var t := Iterate(cfg, s, o); Reached(cfg, s, t) && Settled(cfg, t)
  {
    if !Finished(s) {
      var a := PassGate(cfg, s, o);
      PassGateReached(cfg, s, o);
      var b := CleanUp(cfg, a, o);
      CleanUpReached(cfg, a, o);
      ProgressTransitive(cfg, s, a, b);
      DrainReached(cfg, s, b, o);
      DrainOnlyReads(b, o);
      if cfg.controlled && b.sup.exit.reaped && !b.past.gaveUp { ReapedDrains(cfg, b, o); }
    }
  }

  // ----- runs ----------------------------------------------------------------------------------

  /** `t` is at an iteration boundary that is reached from `a`. */
  ghost predicate Ahead(cfg: Config, a: State, t: State) {
    Reached(cfg, a, t) && Settled(cfg, t)
  }

  lemma AheadOfItself(cfg: Config, s: State)
    requires Inv(cfg, s) && Settled(cfg, s)
    ensures Ahead(cfg, s, s)
  {}

  lemma AheadStep(cfg: Config, a: State, s: State, o: Obs)
    requires Ahead(cfg, a, s)
    ensures Ahead(cfg, a, Iterate(cfg, s, o))
  {
    IterateKeeps(cfg, s, o);
    ProgressTransitive(cfg, a, s, Iterate(cfg, s, o));
  }

  /** Induction over the iterations of a run. */
  lemma {:induction false} RunInduction(cfg: Config, P: State -> bool, run: seq<State>, obs: seq<Obs>, i: nat, j: nat)
    requires IsRun(cfg, run, obs) && i <= j < |run| && P(run[i])
    requires forall s, o :: P(s) ==> P(Iterate(cfg, s, o))
    ensures P(run[j])
    decreases j
  {
    if i < j {
      RunInduction(cfg, P, run, obs, i, j - 1);
      assert Linked(cfg, run, obs, j - 1);
    }
  }

  lemma RunStaysAhead(cfg: Config, run: seq<State>, obs: seq<Obs>, a: State, i: nat, j: nat)
    requires IsRun(cfg, run, obs) && i <= j < |run| && Ahead(cfg, a, run[i])
    ensures Ahead(cfg, a, run[j])
  {
    var P := (t: State) => Ahead(cfg, a, t);
    forall s, o | P(s) ensures P(Iterate(cfg, s, o)) {
      AheadStep(cfg, a, s, o);
    }
    RunInduction(cfg, P, run, obs, i, j);
  }

  /** Every boundary state of every run satisfies the invariant. */
  lemma RunInv(cfg: Config, run: seq<State>, obs: seq<Obs>, i: nat)
    requires IsRun(cfg, run, obs) && i < |run|
    ensures Inv(cfg, run[i]) && Settled(cfg, run[i]) && run[i].w.plan == SetupStages(cfg.isolated)
  {
    InitialInv(cfg);
    AheadOfItself(cfg, Initial(cfg));
    RunStaysAhead(cfg, run, obs, Initial(cfg), 0, i);
  }

  /** Any later state of a run is reached from any earlier one. */
  lemma RunProgress(cfg: Config, run: seq<State>, obs: seq<Obs>, i: nat, j: nat)
    requires IsRun(cfg, run, obs) && i <= j < |run|
    ensures Inv(cfg, run[i]) && Ahead(cfg, run[i], run[j])
  {
    RunInv(cfg, run, obs, i);
    AheadOfItself(cfg, run[i]);
    RunStaysAhead(cfg, run, obs, run[i], i, j);
  }

  lemma ExtendRun(cfg: Config, run: seq<State>, obs: seq<Obs>, next: State, o: Obs)
    requires IsRun(cfg, run, obs) && next == Iterate(cfg, run[|obs|], o)
    ensures IsRun(cfg, run + [next], obs + [o])
  {
    var longer, all := run + [next], obs + [o];
    forall i | 0 <= i < |all| ensures Linked(cfg, longer, all, i) {
      if i < |obs| {
        assert Linked(cfg, run, obs, i);
        assert longer[i] == run[i] && longer[i + 1] == run[i + 1] && all[i] == obs[i];
      }
    }
  }
}
