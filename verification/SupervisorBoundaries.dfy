/**
 What holds between iterations, beyond the invariant that holds everywhere: an exit that has been seen has
 decided the control pipe and started cleanup, deadlines are bounded by the clock reading, and no SIGKILL
 has preceded the cancellation SIGTERM.
 */
module SupervisorBoundaries {
  import opened Child
  import opened Supervisor
  import opened SupervisorInvariant
  import opened SupervisorRuns

  // ----- a seen exit decides the control pipe -----------------------------------------------------

  /** The leader is dead and its control descriptor closed. */
  predicate Silenced(w: World) {
    w.child.Gone? && !w.control.open
  }

  lemma {:induction false} SilencedStays(w: World, steps: seq<Step>)
    requires Silenced(w)
    ensures Silenced(Interfere(w, steps))
    decreases |steps|
  {
    if steps != [] { SilencedStays(Apply(w, steps[0]), steps[1..]); }
  }

  lemma SilencedThroughDrain(s: State, port: Port, tries: seq<Attempt>)
    requires Silenced(s.w)
    ensures Silenced(DrainPort(s, port, tries).w)
  {
    var P := (t: State) => Silenced(t.w);
    forall t, steps | P(t) ensures P(Env(t, steps)) {
      SilencedStays(t.w, steps);
    }
    DrainPortInduction(P, s, port, tries);
  }

  /** With the leader dead, reading the control pipe comes to its end. */
  lemma {:induction false} ControlDrains(s: State, tries: seq<Attempt>)
    requires Silenced(s.w)
    ensures !IsOpen(DrainPort(s, ControlPort, tries), ControlPort)
    decreases |tries|, Unread(s.w.control)
  {
    if IsOpen(s, ControlPort) {
      if tries == [] {
        var g := Look(s, ControlPort, Capacity(s, ControlPort));
        if g.Data? { ControlDrains(Accept(s, ControlPort, g.bytes, g.p), []); }
      } else {
        var e := Env(s, tries[0].steps);
        SilencedStays(s.w, tries[0].steps);
        match tries[0].how {
          case Interrupted => ControlDrains(e, tries[1..]);
          case Broken =>
          case Ask(n) =>
            var g := Look(e, ControlPort, n);
            if g.Data? { ControlDrains(Accept(e, ControlPort, g.bytes, g.p), tries[1..]); }
        }
      }
    }
  }

  lemma DrainDecides(s: State, o: Obs)
    requires Silenced(s.w)
    ensures !Drain(s, o).sup.control.open
  {
    var e := Env(s, Slot(o, 12));
    SilencedStays(s.w, Slot(o, 12));
    var b := DrainPort(e, Captured(Output), o.outputReads);
    SilencedThroughDrain(e, Captured(Output), o.outputReads);
    var c := DrainPort(b, Captured(Error), o.errorReads);
    SilencedThroughDrain(b, Captured(Error), o.errorReads);
    var d := DrainPort(c, ControlPort, o.controlReads);
    ControlDrains(c, o.controlReads);
    ClosedStaysClosed(d, ReadyPort, o.readyReads, ControlPort);
    assert !IsOpen(Drain(s, o), ControlPort);
  }

  /** A control pipe that is decided stays as it is. */
  lemma DecidedThroughDrain(s: State, port: Port, tries: seq<Attempt>)
    requires !s.sup.control.open
    ensures var t := DrainPort(s, port, tries);
            t.sup.control == s.sup.control && t.sup.gate.released == s.sup.gate.released
  {
    var P := (t: State) => t.sup.control == s.sup.control && t.sup.gate.released == s.sup.gate.released;
    DrainPortInduction(P, s, port, tries);
  }

  lemma DrainLeavesDecided(s: State, o: Obs)
    requires !s.sup.control.open
    ensures var t := Drain(s, o);
            t.sup.control == s.sup.control && t.sup.gate.released == s.sup.gate.released
  {
    var e := Env(s, Slot(o, 12));
    var b := DrainPort(e, Captured(Output), o.outputReads);
    DecidedThroughDrain(e, Captured(Output), o.outputReads);
    var c := DrainPort(b, Captured(Error), o.errorReads);
    DecidedThroughDrain(b, Captured(Error), o.errorReads);
    var d := DrainPort(c, ControlPort, o.controlReads);
    DecidedThroughDrain(c, ControlPort, o.controlReads);
    DecidedThroughDrain(d, ReadyPort, o.readyReads);
  }

  // ----- what the blocks after the SIGTERM leave alone ---------------------------------------------

  /** No cancellation SIGTERM among the events `b` has beyond `a`. */
  ghost predicate Termless(a: seq<Event>, b: seq<Event>) {
    a <= b && forall q :: |a| <= q < |b| ==> b[q].what != CancelTerm
  }

  lemma TermlessTransitive(a: seq<Event>, b: seq<Event>, c: seq<Event>)
    requires Termless(a, b) && Termless(b, c)
    ensures Termless(a, c)
  {}

  /** Cancellation, control pipe, gate and exit as before, and no SIGTERM of cancellation. */
  ghost predicate Untouched(s: State, t: State) {
    && t.sup.cancel == s.sup.cancel
    && t.sup.control == s.sup.control
    && t.sup.gate == s.sup.gate
    && t.sup.exit.exited == s.sup.exit.exited
    && Termless(s.log, t.log)
  }

  lemma UntouchedTransitive(a: State, b: State, c: State)
    requires Untouched(a, b) && Untouched(b, c)
    ensures Untouched(a, c)
  {
    TermlessTransitive(a.log, b.log, c.log);
  }

  lemma KillBlocksUntouched(cfg: Config, s: State, now: int, r: Signals)
    ensures Untouched(s, ForceAfterGrace(s, now, r)) && Untouched(s, RepeatKill(cfg, s, r))
  {}

  lemma StartBlockUntouched(cfg: Config, s: State, now: int, r: Signals)
    ensures Untouched(s, StartCleanup(cfg, s, now, r))
  {}

  lemma ScanBlockUntouched(cfg: Config, s: State, now: int, works: bool, r: Signals)
    ensures Untouched(s, ScanGroup(cfg, s, now, works, r))
  {}

  lemma ReapBlockUntouched(cfg: Config, s: State, groupGone: bool)
    ensures Untouched(s, ReapChild(cfg, s, groupGone))
  {}

  lemma CleanUpUntouched(cfg: Config, s: State, o: Obs)
    ensures Untouched(s, CleanUp(cfg, s, o))
  {
    var a := ReadClock(Env(s, Slot(o, 6)));
    var now := a.past.now;
    var s1 := Env(a, Slot(o, 7));
    var s2 := ForceAfterGrace(s1, now, o.graceSignals);
    KillBlocksUntouched(cfg, s1, now, o.graceSignals);
    UntouchedTransitive(s, s1, s2);
    var s3 := Env(s2, Slot(o, 8));
    var s4 := StartCleanup(cfg, s3, now, o.cleanupSignals);
    StartBlockUntouched(cfg, s3, now, o.cleanupSignals);
    UntouchedTransitive(s, s3, s4);
    var s5 := Env(s4, Slot(o, 9));
    var s6 := RepeatKill(cfg, s5, o.repeatSignals);
    KillBlocksUntouched(cfg, s5, now, o.repeatSignals);
    UntouchedTransitive(s, s5, s6);
    var s7 := Env(s6, Slot(o, 10));
    var s8 := ScanGroup(cfg, s7, now, o.scanWorks, o.lastSignals);
    ScanBlockUntouched(cfg, s7, now, o.scanWorks, o.lastSignals);
    UntouchedTransitive(s, s7, s8);
    var s9 := Env(s8, Slot(o, 11));
    ReapBlockUntouched(cfg, s9, o.groupGone);
    UntouchedTransitive(s, s9, ReapChild(cfg, s9, o.groupGone));
  }

  lemma ExitBlockTermless(s: State, fails: bool)
    ensures Termless(s.log, ObserveExit(s, fails).log)
  {}

  lemma CancelBlockTermless(cfg: Config, s: State, token: bool)
    ensures Termless(s.log, ObserveCancellation(cfg, s, token).log)
  {}

  lemma GateBlockTermless(cfg: Config, s: State, token: bool, meanwhile: seq<Step>, works: bool)
    ensures Termless(s.log, ReleaseGate(cfg, s, token, meanwhile, works).log)
  {}

  lemma BeforeTermTermless(cfg: Config, s: State, o: Obs)
    ensures Termless(s.log, BeforeTerm(cfg, s, o).log)
  {
    var s0 := Env(s, Slot(o, 0));
    var s1 := ObserveExit(s0, o.waitFails);
    ExitBlockTermless(s0, o.waitFails);
    var s2 := Env(s1, Slot(o, 1));
    var s3 := ObserveCancellation(cfg, s2, o.token);
    CancelBlockTermless(cfg, s2, o.token);
    TermlessTransitive(s.log, s1.log, s3.log);
    var s4 := Env(s3, Slot(o, 2));
    GateBlockTermless(cfg, s4, o.tokenAgain, Slot(o, 3), o.startWrite);
    TermlessTransitive(s.log, s3.log, ReleaseGate(cfg, s4, o.tokenAgain, Slot(o, 3), o.startWrite).log);
  }

  // ----- nothing is signalled or scanned after reaping -----------------------------------------------

  /** The events `b` has beyond `a` hold no signal and no scan after the leader was reaped. */
  ghost predicate LeavesDeadAlone(a: seq<Event>, b: seq<Event>) {
    && a <= b
    && forall q :: |a| <= q < |b| && (IsSignal(b[q].what) || b[q].what.Scan?) ==> !b[q].sup.exit.reaped
  }

  lemma LeavesDeadAloneTransitive(a: seq<Event>, b: seq<Event>, c: seq<Event>)
    requires LeavesDeadAlone(a, b) && LeavesDeadAlone(b, c)
    ensures LeavesDeadAlone(a, c)
  {}

  /** A controlled run reaps only what it has cleaned up, and only a controlled run cancels. */
  predicate ReapsLast(cfg: Config, u: Sup) {
    && (cfg.controlled && u.exit.reaped ==> u.cleanup.complete && u.cleanup.started)
    && (u.cancel.attempted ==> cfg.controlled)
  }

  /** A block of cleanup that keeps this up. */
  ghost predicate Decent(cfg: Config, s: State, t: State) {
    ReapsLast(cfg, t.sup) && LeavesDeadAlone(s.log, t.log)
  }

  lemma KillBlocksDecent(cfg: Config, s: State, now: int, r: Signals)
    requires ReapsLast(cfg, s.sup)
    ensures Decent(cfg, s, ForceAfterGrace(s, now, r)) && Decent(cfg, s, RepeatKill(cfg, s, r))
  {}

  lemma StartBlockDecent(cfg: Config, s: State, now: int, r: Signals)
    requires ReapsLast(cfg, s.sup)
    ensures Decent(cfg, s, StartCleanup(cfg, s, now, r))
  {}

  lemma ScanBlockDecent(cfg: Config, s: State, now: int, works: bool, r: Signals)
    requires ReapsLast(cfg, s.sup)
    ensures Decent(cfg, s, ScanGroup(cfg, s, now, works, r))
  {}

  lemma ReapBlockDecent(cfg: Config, s: State, groupGone: bool)
    ensures LeavesDeadAlone(s.log, ReapChild(cfg, s, groupGone).log)
  {}

  lemma CleanUpDecent(cfg: Config, s: State, o: Obs)
    requires ReapsLast(cfg, s.sup)
    ensures LeavesDeadAlone(s.log, CleanUp(cfg, s, o).log)
  {
    var a := ReadClock(Env(s, Slot(o, 6)));
    var now := a.past.now;
    var s1 := Env(a, Slot(o, 7));
    KillBlocksDecent(cfg, s1, now, o.graceSignals);
    var s2 := Env(ForceAfterGrace(s1, now, o.graceSignals), Slot(o, 8));
    StartBlockDecent(cfg, s2, now, o.cleanupSignals);
    var s3 := Env(StartCleanup(cfg, s2, now, o.cleanupSignals), Slot(o, 9));
    LeavesDeadAloneTransitive(s.log, s2.log, s3.log);
    KillBlocksDecent(cfg, s3, now, o.repeatSignals);
    var s4 := Env(RepeatKill(cfg, s3, o.repeatSignals), Slot(o, 10));
    LeavesDeadAloneTransitive(s.log, s3.log, s4.log);
    ScanBlockDecent(cfg, s4, now, o.scanWorks, o.lastSignals);
    var s5 := Env(ScanGroup(cfg, s4, now, o.scanWorks, o.lastSignals), Slot(o, 11));
    LeavesDeadAloneTransitive(s.log, s4.log, s5.log);
    ReapBlockDecent(cfg, s5, o.groupGone);
    LeavesDeadAloneTransitive(s.log, s5.log, ReapChild(cfg, s5, o.groupGone).log);
  }

  lemma ExitBlockDecent(s: State, fails: bool)
    ensures LeavesDeadAlone(s.log, ObserveExit(s, fails).log)
  {}

  lemma CancelBlockDecent(cfg: Config, s: State, token: bool)
    ensures LeavesDeadAlone(s.log, ObserveCancellation(cfg, s, token).log)
  {}

  lemma GateBlockDecent(cfg: Config, s: State, token: bool, meanwhile: seq<Step>, works: bool)
    ensures LeavesDeadAlone(s.log, ReleaseGate(cfg, s, token, meanwhile, works).log)
  {}

  lemma BeforeTermDecent(cfg: Config, s: State, o: Obs)
    ensures LeavesDeadAlone(s.log, BeforeTerm(cfg, s, o).log)
  {
    var s0 := Env(s, Slot(o, 0));
    var s1 := ObserveExit(s0, o.waitFails);
    ExitBlockDecent(s0, o.waitFails);
    var s2 := Env(s1, Slot(o, 1));
    var s3 := ObserveCancellation(cfg, s2, o.token);
    CancelBlockDecent(cfg, s2, o.token);
    LeavesDeadAloneTransitive(s.log, s1.log, s3.log);
    var s4 := Env(s3, Slot(o, 2));
    GateBlockDecent(cfg, s4, o.tokenAgain, Slot(o, 3), o.startWrite);
    LeavesDeadAloneTransitive(s.log, s3.log, ReleaseGate(cfg, s4, o.tokenAgain, Slot(o, 3), o.startWrite).log);
  }

  // ----- cleanup starts with the exit --------------------------------------------------------------

  lemma BlocksStarted(cfg: Config, s: State, now: int, o: Obs)
    ensures cfg.controlled && s.sup.exit.exited ==> StartCleanup(cfg, s, now, o.cleanupSignals).sup.cleanup.started
    ensures s.sup.cleanup.started ==> RepeatKill(cfg, s, o.repeatSignals).sup.cleanup.started
    ensures s.sup.cleanup.started ==> ScanGroup(cfg, s, now, o.scanWorks, o.lastSignals).sup.cleanup.started
    ensures s.sup.cleanup.started ==> ReapChild(cfg, s, o.groupGone).sup.cleanup.started
  {}

  lemma CleanUpStarts(cfg: Config, s: State, o: Obs)
    requires cfg.controlled && s.sup.exit.exited
    ensures CleanUp(cfg, s, o).sup.cleanup.started
  {
    var a := ReadClock(Env(s, Slot(o, 6)));
    var now := a.past.now;
    var s1 := Env(a, Slot(o, 7));
    KillBlocksUntouched(cfg, s1, now, o.graceSignals);
    var s2 := Env(ForceAfterGrace(s1, now, o.graceSignals), Slot(o, 8));
    BlocksStarted(cfg, s2, now, o);
    var s3 := Env(StartCleanup(cfg, s2, now, o.cleanupSignals), Slot(o, 9));
    BlocksStarted(cfg, s3, now, o);
    var s4 := Env(RepeatKill(cfg, s3, o.repeatSignals), Slot(o, 10));
    BlocksStarted(cfg, s4, now, o);
    var s5 := Env(ScanGroup(cfg, s4, now, o.scanWorks, o.lastSignals), Slot(o, 11));
    BlocksStarted(cfg, s5, now, o);
  }

  /** Forced signalling without a cancellation SIGTERM needs cleanup that had started an iteration earlier:
      the deadline cleanup starts with is not reached at once. */
  lemma ForcedByOldCleanup(cfg: Config, s: State, o: Obs)
    requires !s.sup.cleanup.forced && !s.sup.cancel.attempted && CleanUp(cfg, s, o).sup.cleanup.forced
    ensures s.sup.cleanup.started
  {}

  // ----- deadlines and the clock -------------------------------------------------------------------

  function Longest(cfg: Config): nat {
    if cfg.grace < 1000 then 1000 else cfg.grace
  }

  predicate NoLaterThan(d: Deadline, time: int) {
    d.At? && d.time <= time
  }

  /** Every deadline in force is bounded by the clock reading it was set after. */
  predicate Timed(cfg: Config, u: Sup, now: int) {
    && (u.cancel.attempted ==> NoLaterThan(u.cancel.deadline, now + cfg.grace))
    && (u.cleanup.started ==> NoLaterThan(u.cleanup.deadline, now + Longest(cfg)))
    && (u.cleanup.forced ==> NoLaterThan(u.cleanup.deadline, now + 1000))
  }

  lemma BlocksTimed(cfg: Config, s: State, now: int, o: Obs)
    requires Timed(cfg, s.sup, now)
    ensures Timed(cfg, ForceAfterGrace(s, now, o.graceSignals).sup, now)
    ensures Timed(cfg, StartCleanup(cfg, s, now, o.cleanupSignals).sup, now)
    ensures Timed(cfg, RepeatKill(cfg, s, o.repeatSignals).sup, now)
    ensures Timed(cfg, ScanGroup(cfg, s, now, o.scanWorks, o.lastSignals).sup, now)
    ensures Timed(cfg, ReapChild(cfg, s, o.groupGone).sup, now)
  {}

  lemma CleanUpTimed(cfg: Config, s: State, o: Obs)
    requires Inv(cfg, s) && Timed(cfg, s.sup, s.w.clock)
    ensures var t := CleanUp(cfg, s, o); Timed(cfg, t.sup, t.past.now) && s.w.clock <= t.past.now
  {
    var a := ReadClock(Env(s, Slot(o, 6)));
    var now := a.past.now;
    InterfereFacts(s.w, Slot(o, 6));
    var s1 := Env(a, Slot(o, 7));
    BlocksTimed(cfg, s1, now, o);
    var s2 := Env(ForceAfterGrace(s1, now, o.graceSignals), Slot(o, 8));
    BlocksTimed(cfg, s2, now, o);
    var s3 := Env(StartCleanup(cfg, s2, now, o.cleanupSignals), Slot(o, 9));
    BlocksTimed(cfg, s3, now, o);
    var s4 := Env(RepeatKill(cfg, s3, o.repeatSignals), Slot(o, 10));
    BlocksTimed(cfg, s4, now, o);
    var s5 := Env(ScanGroup(cfg, s4, now, o.scanWorks, o.lastSignals), Slot(o, 11));
    BlocksTimed(cfg, s5, now, o);
    CleanUpKeepsReading(cfg, s, o);
  }

  lemma CleanUpKeepsReading(cfg: Config, s: State, o: Obs)
    ensures CleanUp(cfg, s, o).past.now == Env(s, Slot(o, 6)).w.clock
  {}

  lemma PassGateTimed(cfg: Config, s: State, o: Obs)
    requires Inv(cfg, s) && Timed(cfg, s.sup, s.w.clock)
    ensures var t := PassGate(cfg, s, o); Timed(cfg, t.sup, t.w.clock)
  {
    BeforeTermReached(cfg, s, o);
    BeforeTermLeaves(cfg, s, o);
    TermTimed(cfg, BeforeTerm(cfg, s, o), o.cancelSignals, Slot(o, 5));
  }

  lemma TermTimed(cfg: Config, s: State, r: Signals, meanwhile: seq<Step>)
    requires WorldInv(s.w) && Timed(cfg, s.sup, s.w.clock)
    ensures var t := SendCancellation(cfg, s, r, meanwhile); Timed(cfg, t.sup, t.w.clock)
  {
    InterfereFacts(s.w, meanwhile);
  }

  // ----- all of it between iterations ---------------------------------------------------------------

  /** Every cancellation SIGTERM in the log was sent before any SIGKILL. */
  ghost predicate TermsFirst(log: seq<Event>) {
    forall q :: 0 <= q < |log| && log[q].what == CancelTerm ==>
      !log[q].sup.cleanup.forced && forall p :: 0 <= p < q ==> log[p].what != Kill
  }

  ghost predicate Boundary(cfg: Config, s: State) {
    && Inv(cfg, s) && Settled(cfg, s)
    && (s.sup.exit.exited ==> !s.sup.control.open)
    && (cfg.controlled && s.sup.exit.exited ==> s.sup.cleanup.started)
    && (s.sup.cleanup.forced ==> !MaySendCancellation(s))
    && TermsFirst(s.log)
    && LeavesDeadAlone([], s.log)
    && Timed(cfg, s.sup, s.past.now) && s.past.now <= s.w.clock
  }

  /** Once SIGKILL has been sent, the decision about the cancellation SIGTERM is negative for good. */
  lemma ForcedNeverSends(cfg: Config, s: State, o: Obs)
    requires Boundary(cfg, s) && s.sup.cleanup.forced
    ensures !MaySendCancellation(BeforeTerm(cfg, s, o))
  {
    BeforeTermReached(cfg, s, o);
    BeforeTermLeaves(cfg, s, o);
  }

  lemma TermSentFirst(cfg: Config, s: State, o: Obs)
    requires Boundary(cfg, s) && MaySendCancellation(BeforeTerm(cfg, s, o))
    ensures var z := BeforeTerm(cfg, s, o); !z.sup.cleanup.forced && forall k :: k in z.log ==> k.what != Kill
  {
    BeforeTermReached(cfg, s, o);
    BeforeTermLeaves(cfg, s, o);
    if s.sup.cleanup.forced { ForcedNeverSends(cfg, s, o); }
  }

  lemma TermsStayFirst(cfg: Config, s: State, o: Obs)
    requires Boundary(cfg, s)
    ensures TermsFirst(PassGate(cfg, s, o).log)
  {
    var z := BeforeTerm(cfg, s, o);
    BeforeTermTermless(cfg, s, o);
    TermlessStaysFirst(s.log, z.log);
    if MaySendCancellation(z) {
      TermSentFirst(cfg, s, o);
      TermAppended(z.log, Event(CancelTerm, z.sup, z.w));
    }
  }

  lemma TermAppended(log: seq<Event>, e: Event)
    requires TermsFirst(log) && !e.sup.cleanup.forced
    requires forall k :: k in log ==> k.what != Kill
    ensures TermsFirst(log + [e])
  {}

  lemma TermlessStaysFirst(a: seq<Event>, b: seq<Event>)
    requires TermsFirst(a) && Termless(a, b)
    ensures TermsFirst(b)
  {}

  /** The three parts of an iteration. */
  lemma IterationParts(cfg: Config, s: State, o: Obs)
    requires Boundary(cfg, s) && !Finished(s)
    ensures var a := PassGate(cfg, s, o);
            var b := CleanUp(cfg, a, o);
            && Inv(cfg, a) && Inv(cfg, b)
            && Untouched(a, b)
            && (s.sup.cancel.attempted ==> a.sup.cancel.attempted)
  {
    PassGateReached(cfg, s, o);
    CleanUpReached(cfg, PassGate(cfg, s, o), o);
    CleanUpUntouched(cfg, PassGate(cfg, s, o), o);
  }

  lemma IterateDecides(cfg: Config, s: State, o: Obs)
    requires Boundary(cfg, s) && !Finished(s)
    ensures var t := Iterate(cfg, s, o);
            t.sup.exit.exited ==> !t.sup.control.open && (cfg.controlled ==> t.sup.cleanup.started)
  {
    var a := PassGate(cfg, s, o);
    var b := CleanUp(cfg, a, o);
    IterationParts(cfg, s, o);
    DrainOnlyReads(b, o);
    if b.sup.exit.exited {
      DrainDecides(b, o);
      if cfg.controlled { CleanUpStarts(cfg, a, o); }
    }
  }

  /** After the decision of an iteration there is nothing left to send. */
  lemma PassGateDecides(cfg: Config, s: State, o: Obs)
    ensures !MaySendCancellation(PassGate(cfg, s, o))
    ensures var a := PassGate(cfg, s, o);
            a.sup.control == s.sup.control && a.sup.cleanup.started == s.sup.cleanup.started
            && a.sup.cleanup.forced == s.sup.cleanup.forced
  {
    BeforeTermLeaves(cfg, s, o);
  }

  lemma IterateNeverSendsLate(cfg: Config, s: State, o: Obs)
    requires Boundary(cfg, s) && !Finished(s)
    ensures var t := Iterate(cfg, s, o); t.sup.cleanup.forced ==> !MaySendCancellation(t)
  {
    var a := PassGate(cfg, s, o);
    var b := CleanUp(cfg, a, o);
    IterationParts(cfg, s, o);
    PassGateDecides(cfg, s, o);
    DrainOnlyReads(b, o);
    if b.sup.cleanup.forced && !b.sup.cancel.attempted {
      if !a.sup.cleanup.forced { ForcedByOldCleanup(cfg, a, o); }
      DrainLeavesDecided(b, o);
    }
  }

  lemma DrainTimed(cfg: Config, s: State, o: Obs)
    requires Inv(cfg, s) && Timed(cfg, s.sup, s.past.now) && s.past.now <= s.w.clock
    ensures var t := Drain(s, o); Timed(cfg, t.sup, t.past.now) && s.past.now == t.past.now <= t.w.clock
  {
    DrainOnlyReads(s, o);
    DrainReached(cfg, s, s, o);
  }

  lemma IterateTimed(cfg: Config, s: State, o: Obs)
    requires Boundary(cfg, s) && !Finished(s)
    ensures var t := Iterate(cfg, s, o); Timed(cfg, t.sup, t.past.now) && s.past.now <= t.past.now <= t.w.clock
  {
    var a := PassGate(cfg, s, o);
    PassGateReached(cfg, s, o);
    PassGateTimed(cfg, s, o);
    BodyTimed(cfg, a, o);
  }

  lemma BodyTimed(cfg: Config, a: State, o: Obs)
    requires Inv(cfg, a) && Timed(cfg, a.sup, a.w.clock)
    ensures var t := Drain(CleanUp(cfg, a, o), o);
            Timed(cfg, t.sup, t.past.now) && a.w.clock <= t.past.now <= t.w.clock
  {
    CleanUpTimed(cfg, a, o);
    CleanUpReads(cfg, a, o);
    CleanUpReached(cfg, a, o);
    DrainTimed(cfg, CleanUp(cfg, a, o), o);
  }

  lemma CleanUpReads(cfg: Config, s: State, o: Obs)
    requires Inv(cfg, s)
    ensures CleanUp(cfg, s, o).past.now <= CleanUp(cfg, s, o).w.clock
  {
    CleanUpKeepsReading(cfg, s, o);
    CleanUpReached(cfg, s, o);
  }

  /** A leader that is reaped while the loop goes on was given up on after SIGKILL, so there is nothing to send. */
  lemma PassGateDecent(cfg: Config, s: State, o: Obs)
    requires Boundary(cfg, s) && !Finished(s)
    ensures LeavesDeadAlone(s.log, PassGate(cfg, s, o).log)
  {
    var z := BeforeTerm(cfg, s, o);
    BeforeTermDecent(cfg, s, o);
    if MaySendCancellation(z) {
      BeforeTermReached(cfg, s, o);
      BeforeTermLeaves(cfg, s, o);
      if s.sup.exit.reaped { ForcedNeverSends(cfg, s, o); }
      assert LeavesDeadAlone(z.log, z.log + [Event(CancelTerm, z.sup, z.w)]);
      LeavesDeadAloneTransitive(s.log, z.log, PassGate(cfg, s, o).log);
    }
  }

  lemma IterateDecent(cfg: Config, s: State, o: Obs)
    requires Boundary(cfg, s) && !Finished(s)
    ensures LeavesDeadAlone([], Iterate(cfg, s, o).log)
  {
    var a := PassGate(cfg, s, o);
    PassGateDecent(cfg, s, o);
    IterationParts(cfg, s, o);
    CleanUpDecent(cfg, a, o);
    LeavesDeadAloneTransitive([], s.log, a.log);
    LeavesDeadAloneTransitive([], a.log, CleanUp(cfg, a, o).log);
    DrainOnlyReads(CleanUp(cfg, a, o), o);
  }

  lemma IterateKeepsBoundary(cfg: Config, s: State, o: Obs)
    requires Boundary(cfg, s)
    ensures Boundary(cfg, Iterate(cfg, s, o))
  {
    if !Finished(s) {
      IterateKeeps(cfg, s, o);
      IterateDecides(cfg, s, o);
      IterateNeverSendsLate(cfg, s, o);
      IterateTimed(cfg, s, o);
      IterateDecent(cfg, s, o);
      var a := PassGate(cfg, s, o);
      TermsStayFirst(cfg, s, o);
      CleanUpUntouched(cfg, a, o);
      TermlessStaysFirst(a.log, CleanUp(cfg, a, o).log);
      DrainOnlyReads(CleanUp(cfg, a, o), o);
    }
  }

  lemma InitialBoundary(cfg: Config)
    ensures Boundary(cfg, Initial(cfg))
  {
    InitialInv(cfg);
  }

  /** Between any two iterations of every run. */
  lemma RunBoundary(cfg: Config, run: seq<State>, obs: seq<Obs>, i: nat)
    requires IsRun(cfg, run, obs) && i < |run|
    ensures Boundary(cfg, run[i])
  {
    InitialBoundary(cfg);
    var P := (t: State) => Boundary(cfg, t);
    forall s, o | P(s) ensures P(Iterate(cfg, s, o)) {
      IterateKeepsBoundary(cfg, s, o);
    }
    RunInduction(cfg, P, run, obs, 0, i);
  }
}
