/**
 Exactly what one iteration of the supervisor loop does, in terms of the states before and after it, what its
 system calls returned, and the log: which acts, in which order, and which changes.
 */
module Iterations {
  import opened Child
  import opened Supervisor
  import opened SupervisorInvariant
  import opened SupervisorRuns
  import opened SupervisorBoundaries

  // ----- acts ----------------------------------------------------------------------------------------

  /** What the logged events did, in order. */
  function Whats(log: seq<Event>): seq<What> {
    seq(|log|, i requires 0 <= i < |log| => log[i].what)
  }

  lemma WhatsSnoc(log: seq<Event>, e: Event)
    ensures Whats(log + [e]) == Whats(log) + [e.what]
  {}

  /** An act that happens or not. */
  function If(c: bool, what: What): seq<What> {
    if c then [what] else []
  }

  // ----- the blocks up to the decision about the SIGTERM -----------------------------------------------

  ghost predicate ExitDone(s: State, fails: bool, t: State) {
    && t.sup == s.sup.(exit := t.sup.exit) && t.w == s.w && t.past == s.past
    && (t.sup.exit.exited <==> s.sup.exit.exited || (s.w.child.Gone? && !fails))
    && Whats(t.log) == Whats(s.log) + If(t.sup.exit.exited && !s.sup.exit.exited, ExitSeen)
  }

  lemma ExitBlock(s: State, fails: bool)
    ensures ExitDone(s, fails, ObserveExit(s, fails))
  {
    WhatsSnoc(s.log, Event(ExitSeen, s.sup, s.w));
  }

  ghost predicate TokenDone(cfg: Config, s: State, token: bool, t: State) {
    && t.sup.exit == s.sup.exit && t.sup.gate.readySeen == s.sup.gate.readySeen
    && t.sup.gate.released == s.sup.gate.released
    && (t.sup.cancel.observed <==> s.sup.cancel.observed || (cfg.controlled && !s.sup.exit.exited && token))
    && (t.sup.cancel.beforeStart <==>
          || s.sup.cancel.beforeStart
          || (t.sup.cancel.observed && !s.sup.cancel.observed && !s.sup.gate.released))
    && (t.sup.cancel.observed == s.sup.cancel.observed ==> t == s)
    && Whats(t.log) == Whats(s.log) + If(t.sup.cancel.observed && !s.sup.cancel.observed, CancelSeen)
  }

  lemma TokenBlock(cfg: Config, s: State, token: bool)
    requires s.sup.cancel.beforeStart ==> s.sup.cancel.observed
    ensures TokenDone(cfg, s, token, ObserveCancellation(cfg, s, token))
  {
    WhatsSnoc(s.log, Event(CancelSeen, s.sup, s.w));
  }

  lemma WriteBlock(s: State, works: bool)
    requires !s.sup.gate.released
    ensures var t := WriteStart(s, works);
            && t.sup.exit == s.sup.exit && t.sup.cancel == s.sup.cancel
            && (t.sup.gate.released <==> works && s.sup.gate.startOpen && !s.w.child.Gone?)
            && Whats(t.log) == Whats(s.log) + If(t.sup.gate.released, Released)
  {
    WhatsSnoc(s.log, Event(Released, s.sup, s.w));
  }

  /** The gate may be opened in this iteration, but for the second look at the token. */
  predicate ReadyToRelease(s: State) {
    s.sup.gate.readySeen && !s.sup.gate.released && !s.sup.cancel.observed
  }

  ghost predicate ReleaseDone(cfg: Config, s: State, token: bool, meanwhile: seq<Step>, works: bool, t: State) {
    && t.sup.exit == s.sup.exit
    && (t.sup.cancel.observed <==>
          s.sup.cancel.observed || (cfg.controlled && !s.sup.exit.exited && ReadyToRelease(s) && token))
    && (t.sup.cancel.beforeStart <==>
          s.sup.cancel.beforeStart || (t.sup.cancel.observed && !s.sup.cancel.observed))
    && (t.sup.gate.released <==>
          || s.sup.gate.released
          || (&& ReadyToRelease(s) && !t.sup.cancel.observed && works && s.sup.gate.startOpen
              && !Interfere(s.w, meanwhile).child.Gone?))
    && Whats(t.log) == Whats(s.log)
                       + If(t.sup.cancel.observed && !s.sup.cancel.observed, CancelSeen)
                       + If(t.sup.gate.released && !s.sup.gate.released, Released)
  }

  lemma GateBlock(cfg: Config, s: State, token: bool, meanwhile: seq<Step>, works: bool)
    requires s.sup.cancel.beforeStart ==> s.sup.cancel.observed
    ensures ReleaseDone(cfg, s, token, meanwhile, works, ReleaseGate(cfg, s, token, meanwhile, works))
  {
    if ReadyToRelease(s) {
      TokenBlock(cfg, s, token);
      var t := ObserveCancellation(cfg, s, token);
      if !t.sup.cancel.observed { WriteBlock(Env(t, meanwhile), works); }
    }
  }

  /** The world when the start byte is written, if it is. */
  function AtWrite(s: State, o: Obs): World {
    Interfere(Interfere(Interfere(Interfere(s.w, Slot(o, 0)), Slot(o, 1)), Slot(o, 2)), Slot(o, 3))
  }

  /** What an iteration has seen and done when it decides about the SIGTERM. */
  ghost predicate GateDone(cfg: Config, s: State, o: Obs, u: Sup) {
    && (u.exit.exited <==> s.sup.exit.exited || (Interfere(s.w, Slot(o, 0)).child.Gone? && !o.waitFails))
    && (u.cancel.observed <==>
          || s.sup.cancel.observed
          || (&& cfg.controlled && !u.exit.exited
              && (o.token || (s.sup.gate.readySeen && !s.sup.gate.released && o.tokenAgain))))
    && (u.cancel.beforeStart <==>
          || s.sup.cancel.beforeStart
          || (u.cancel.observed && !s.sup.cancel.observed && !s.sup.gate.released))
    && (u.gate.released <==>
          || s.sup.gate.released
          || (&& s.sup.gate.readySeen && !u.cancel.observed && s.sup.gate.startOpen && o.startWrite
              && !AtWrite(s, o).child.Gone?))
  }

  function GateActs(s: Sup, u: Sup): seq<What> {
    If(u.exit.exited && !s.exit.exited, ExitSeen)
    + If(u.cancel.observed && !s.cancel.observed, CancelSeen)
    + If(u.gate.released && !s.gate.released, Released)
  }

  /** `t` is `s` after some interference. */
  ghost predicate Moved(s: State, steps: seq<Step>, t: State) {
    t.sup == s.sup && t.log == s.log && t.past == s.past && t.w == Interfere(s.w, steps)
  }

  /** The blocks put together, whatever they are. */
  lemma GateTogether(
    cfg: Config, s: State, o: Obs, s0: State, s1: State, s2: State, s3: State, s4: State, s5: State)
    requires s.sup.cancel.beforeStart ==> s.sup.cancel.observed
    requires Moved(s, Slot(o, 0), s0) && ExitDone(s0, o.waitFails, s1)
    requires Moved(s1, Slot(o, 1), s2) && TokenDone(cfg, s2, o.token, s3)
    requires Moved(s3, Slot(o, 2), s4) && ReleaseDone(cfg, s4, o.tokenAgain, Slot(o, 3), o.startWrite, s5)
    ensures GateDone(cfg, s, o, s5.sup) && Whats(s5.log) == Whats(s.log) + GateActs(s.sup, s5.sup)
  {}

  /** The states between the blocks. */
  lemma FrontStates(cfg: Config, s: State, o: Obs) returns (s1: State, s2: State, s3: State)
    requires s.sup.cancel.beforeStart ==> s.sup.cancel.observed
    ensures ExitDone(Env(s, Slot(o, 0)), o.waitFails, s1)
    ensures Moved(s1, Slot(o, 1), s2) && TokenDone(cfg, s2, o.token, s3)
    ensures BeforeTerm(cfg, s, o) ==
            Env(ReleaseGate(cfg, Env(s3, Slot(o, 2)), o.tokenAgain, Slot(o, 3), o.startWrite), Slot(o, 4))
    ensures s3.sup.cancel.beforeStart ==> s3.sup.cancel.observed
  {
    ExitBlock(Env(s, Slot(o, 0)), o.waitFails);
    s1 := LookForExit(s, o);
    s2 := Env(s1, Slot(o, 1));
    TokenBlock(cfg, s2, o.token);
    s3 := ObserveCancellation(cfg, s2, o.token);
  }

  lemma GateExactly(cfg: Config, s: State, o: Obs)
    requires s.sup.cancel.beforeStart ==> s.sup.cancel.observed
    ensures var z := BeforeTerm(cfg, s, o);
            GateDone(cfg, s, o, z.sup) && Whats(z.log) == Whats(s.log) + GateActs(s.sup, z.sup)
  {
    var s1, s2, s3 := FrontStates(cfg, s, o);
    var s4 := Env(s3, Slot(o, 2));
    GateBlock(cfg, s4, o.tokenAgain, Slot(o, 3), o.startWrite);
    var s5 := ReleaseGate(cfg, s4, o.tokenAgain, Slot(o, 3), o.startWrite);
    GateTogether(cfg, s, o, Env(s, Slot(o, 0)), s1, s2, s3, s4, s5);
  }

  // ----- the cancellation SIGTERM ----------------------------------------------------------------------

  ghost predicate TermDone(cfg: Config, s: State, r: Signals, t: State) {
    && t.sup.exit == s.sup.exit && t.sup.control == s.sup.control && t.sup.gate == s.sup.gate
    && t.sup.cancel.observed == s.sup.cancel.observed && t.sup.cancel.beforeStart == s.sup.cancel.beforeStart
    && (t.sup.cancel.attempted <==>
          || s.sup.cancel.attempted
          || (s.sup.cancel.observed && (s.sup.cancel.beforeStart || s.sup.control.confirmed)))
    && (var now := t.sup.cancel.attempted && !s.sup.cancel.attempted;
        && t.sup.cleanup == s.sup.cleanup.(failed := s.sup.cleanup.failed || (now && !r.complete))
        && (!now ==> t.sup.cancel == s.sup.cancel)
        && (now ==>
              && t.sup.cancel.delivered == (r.leader && !s.w.reaped)
              && t.sup.cancel.deadline == At(t.w.clock + cfg.grace) && s.w.clock <= t.w.clock)
        && Whats(t.log) == Whats(s.log) + If(now, CancelTerm))
  }

  lemma TermBlock(cfg: Config, s: State, r: Signals, meanwhile: seq<Step>)
    requires Inv(cfg, s)
    ensures TermDone(cfg, s, r, SendCancellation(cfg, s, r, meanwhile))
  {
    InterfereFacts(s.w, meanwhile);
    WhatsSnoc(s.log, Event(CancelTerm, s.sup, s.w));
  }

  // ----- cleanup ---------------------------------------------------------------------------------------

  ghost predicate ForceDone(s: State, now: int, r: Signals, t: State) {
    var u, v := s.sup.cleanup, t.sup.cleanup;
    var acts := s.sup.cancel.attempted && !u.forced && Passed(s.sup.cancel.deadline, now) && !u.complete;
    && t.w == s.w && t.sup == s.sup.(cleanup := v) && t.past.gaveUp == s.past.gaveUp
    && v == (if acts then u.(failed := u.failed || !r.complete, forced := true, deadline := At(now + 1000)) else u)
    && Whats(t.log) == Whats(s.log) + If(acts, Kill)
  }

  lemma ForceBlock(s: State, now: int, r: Signals)
    ensures ForceDone(s, now, r, ForceAfterGrace(s, now, r))
  {
    WhatsSnoc(s.log, Event(Kill, s.sup, s.w));
  }

  ghost predicate StartDone(cfg: Config, s: State, now: int, r: Signals, t: State) {
    var u, v := s.sup.cleanup, t.sup.cleanup;
    var acts := cfg.controlled && s.sup.exit.exited && !u.started;
    var terms := acts && !s.sup.cancel.attempted;
    && t.w == s.w && t.sup == s.sup.(cleanup := v) && t.past.gaveUp == s.past.gaveUp
    && v.started == (u.started || acts) && v.complete == u.complete && v.forced == u.forced
    && v.failed == (u.failed || (terms && !r.complete))
    && v.deadline == (if !acts then u.deadline
                      else if terms then At(now + 200)
                      else if u.forced then u.deadline
                      else s.sup.cancel.deadline)
    && Whats(t.log) == Whats(s.log) + If(terms, CleanupTerm)
  }

  lemma StartBlock(cfg: Config, s: State, now: int, r: Signals)
    ensures StartDone(cfg, s, now, r, StartCleanup(cfg, s, now, r))
  {
    WhatsSnoc(s.log, Event(CleanupTerm, s.sup, s.w));
  }

  ghost predicate RepeatDone(cfg: Config, s: State, r: Signals, t: State) {
    var u := s.sup.cleanup;
    var acts := CleaningUp(cfg, s) && u.forced;
    && t.w == s.w && t.past.gaveUp == s.past.gaveUp
    && t.sup == s.sup.(cleanup := u.(failed := u.failed || (acts && !r.complete)))
    && Whats(t.log) == Whats(s.log) + If(acts, Kill)
  }

  lemma RepeatBlock(cfg: Config, s: State, r: Signals)
    ensures RepeatDone(cfg, s, r, RepeatKill(cfg, s, r))
  {
    WhatsSnoc(s.log, Event(Kill, s.sup, s.w));
  }

  ghost predicate ScanDone(cfg: Config, s: State, now: int, works: bool, r: Signals, clean: bool, t: State) {
    var u, v := s.sup.cleanup, t.sup.cleanup;
    var acts := CleaningUp(cfg, s);
    var late := acts && !clean && Passed(u.deadline, now);
    && t.w == s.w && t.sup == s.sup.(cleanup := v)
    && (clean <==> works && s.w.members == {})
    && v.started == u.started
    && v.forced == (u.forced || late)
    && v.complete == (u.complete || (acts && clean) || (late && u.forced))
    && v.failed == (u.failed || (late && (!r.complete || u.forced)))
    && v.deadline == (if late && !u.forced then At(now + 1000) else u.deadline)
    && t.past.gaveUp == (s.past.gaveUp || (late && u.forced))
    && Whats(t.log) == Whats(s.log) + If(acts, Scan(clean)) + If(late, Kill)
  }

  lemma ScanBlock(cfg: Config, s: State, now: int, works: bool, r: Signals)
    ensures ScanDone(cfg, s, now, works, r, works && s.w.members == {}, ScanGroup(cfg, s, now, works, r))
  {
    if CleaningUp(cfg, s) {
      var clean := works && s.w.members == {};
      WhatsSnoc(s.log, Event(Scan(clean), s.sup, s.w));
      var t := Note(s, Scan(clean));
      WhatsSnoc(t.log, Event(Kill, t.sup, t.w));
    }
  }

  ghost predicate ReapDone(cfg: Config, s: State, groupGone: bool, t: State) {
    var u, v := s.sup.cleanup, t.sup.cleanup;
    var acts := s.sup.exit.exited && !s.sup.exit.reaped && (cfg.controlled ==> u.complete);
    && t.sup == s.sup.(cleanup := v, exit := s.sup.exit.(reaped := s.sup.exit.reaped || acts))
    && t.past.gaveUp == s.past.gaveUp
    && v == (if acts && !cfg.controlled then u.(complete := groupGone, failed := !groupGone) else u)
    && Whats(t.log) == Whats(s.log) + If(acts, Reap)
  }

  lemma ReapBlock(cfg: Config, s: State, groupGone: bool)
    ensures ReapDone(cfg, s, groupGone, ReapChild(cfg, s, groupGone))
  {
    WhatsSnoc(s.log, Event(Reap, s.sup, s.w));
  }

  /** The acts of cleanup that happen, from the variables before it and the clock reading. */
  datatype Duties = Duties(grace: bool, start: bool, scans: bool, late: bool)

  /** `grace`: the grace period of the SIGTERM is over and SIGKILL has not been sent.  `start`: cleanup begins.
      `scans`: the group is scanned.  `late`: the deadline cleanup had before has been reached. */
  function DutiesOf(cfg: Config, u: Sup, now: int): Duties {
    var grace := u.cancel.attempted && !u.cleanup.forced && !u.cleanup.complete && Passed(u.cancel.deadline, now);
    Duties(
      grace,
      cfg.controlled && u.exit.exited && !u.cleanup.started,
      cfg.controlled && u.exit.exited && !u.cleanup.complete,
      !grace && (u.cleanup.started || u.cleanup.forced) && Passed(u.cleanup.deadline, now))
  }

  function SweepActs(d: Duties, u: Sup, clean: bool, reaps: bool): seq<What> {
    If(d.grace, Kill)
    + If(d.start && !u.cancel.attempted, CleanupTerm)
    + If(d.scans && (u.cleanup.forced || d.grace), Kill)
    + If(d.scans, Scan(clean))
    + If(d.scans && !clean && d.late, Kill)
    + If(reaps, Reap)
  }

  /** What cleanup changes. */
  ghost predicate Swept(
    cfg: Config, d: Duties, u: Sup, gaveUp: bool, now: int, o: Obs, clean: bool, v: Sup, gaveUpNow: bool)
  {
    var over := d.scans && !clean && d.late;
    && v.cancel == u.cancel && v.exit.exited == u.exit.exited && v.exit.information == u.exit.information
    && v.cleanup.started == (u.cleanup.started || d.start)
    && v.cleanup.forced == (u.cleanup.forced || d.grace || over)
    && v.exit.reaped == (u.exit.reaped || (u.exit.exited && (cfg.controlled ==> v.cleanup.complete)))
    && gaveUpNow == (gaveUp || (over && u.cleanup.forced))
    && (cfg.controlled ==>
          && v.cleanup.complete == (u.cleanup.complete || (d.scans && clean) || (over && u.cleanup.forced))
          && v.cleanup.failed ==
             (|| u.cleanup.failed
              || (d.grace && !o.graceSignals.complete)
              || (d.start && !u.cancel.attempted && !o.cleanupSignals.complete)
              || (d.scans && (u.cleanup.forced || d.grace) && !o.repeatSignals.complete)
              || (over && (!o.lastSignals.complete || u.cleanup.forced))))
    && (!cfg.controlled && v.exit.reaped && !u.exit.reaped ==>
          v.cleanup.complete == o.groupGone && v.cleanup.failed == !o.groupGone)
    && v.cleanup.deadline ==
       (if d.grace || (over && !u.cleanup.forced) then At(now + 1000)
        else if d.start && !u.cancel.attempted then At(now + 200)
        else if d.start && !u.cleanup.forced then u.cancel.deadline
        else u.cleanup.deadline)
  }

  /** What the invariant says about the variables cleanup starts from. */
  predicate Sane(cfg: Config, u: Sup) {
    && (u.cleanup.forced ==> u.cancel.attempted || u.cleanup.started)
    && (u.cancel.attempted ==> cfg.controlled)
    && (u.cleanup.started ==> cfg.controlled && u.exit.exited)
  }

  /** After the first two blocks of cleanup. */
  ghost predicate HalfSwept(d: Duties, u: Sup, now: int, o: Obs, v: Sup) {
    && v == u.(cleanup := v.cleanup)
    && v.cleanup.started == (u.cleanup.started || d.start)
    && v.cleanup.forced == (u.cleanup.forced || d.grace)
    && v.cleanup.complete == u.cleanup.complete
    && v.cleanup.failed ==
       (|| u.cleanup.failed
        || (d.grace && !o.graceSignals.complete)
        || (d.start && !u.cancel.attempted && !o.cleanupSignals.complete))
    && v.cleanup.deadline ==
       (if d.grace then At(now + 1000)
        else if d.start && !u.cancel.attempted then At(now + 200)
        else if d.start && !u.cleanup.forced then u.cancel.deadline
        else u.cleanup.deadline)
  }

  lemma FirstHalf(cfg: Config, o: Obs, now: int, a: State, s1: State, b: State, s2: State, c: State)
    requires Sane(cfg, a.sup)
    requires Moved(a, Slot(o, 7), s1) && ForceDone(s1, now, o.graceSignals, b)
    requires Moved(b, Slot(o, 8), s2) && StartDone(cfg, s2, now, o.cleanupSignals, c)
    ensures var u := DutiesOf(cfg, a.sup, now);
            && HalfSwept(u, a.sup, now, o, c.sup) && c.past.gaveUp == a.past.gaveUp
            && Whats(c.log) == Whats(a.log) + If(u.grace, Kill) + If(u.start && !a.sup.cancel.attempted, CleanupTerm)
  {}

  /** When cleanup is late after its first half, it was late before: a deadline set now is not reached now. */
  lemma LateIsOld(cfg: Config, u: Sup, now: int, o: Obs, v: Sup)
    requires Sane(cfg, u) && HalfSwept(DutiesOf(cfg, u, now), u, now, o, v) && DutiesOf(cfg, u, now).scans
    ensures v.cleanup.started && (Passed(v.cleanup.deadline, now) <==> DutiesOf(cfg, u, now).late)
  {}

  lemma SecondHalf(
    cfg: Config, d: Duties, u: Sup, now: int, o: Obs, clean: bool,
    c: State, s3: State, r: State, s4: State, e: State, s5: State, z: State)
    requires HalfSwept(d, u, now, o, c.sup) && d.scans == (cfg.controlled && u.exit.exited && !u.cleanup.complete)
    requires d.scans ==> c.sup.cleanup.started && (Passed(c.sup.cleanup.deadline, now) <==> d.late)
    requires Moved(c, Slot(o, 9), s3) && RepeatDone(cfg, s3, o.repeatSignals, r)
    requires Moved(r, Slot(o, 10), s4) && ScanDone(cfg, s4, now, o.scanWorks, o.lastSignals, clean, e)
    requires Moved(e, Slot(o, 11), s5) && ReapDone(cfg, s5, o.groupGone, z)
    ensures Swept(cfg, d, u, c.past.gaveUp, now, o, clean, z.sup, z.past.gaveUp)
  {
    assert e.sup.exit == u.exit && e.sup.cancel == u.cancel;
    assert CleaningUp(cfg, s3) == d.scans && CleaningUp(cfg, s4) == d.scans;
  }

  lemma SecondActs(
    cfg: Config, d: Duties, u: Sup, now: int, o: Obs, clean: bool,
    c: State, s3: State, r: State, s4: State, e: State, s5: State, z: State)
    requires HalfSwept(d, u, now, o, c.sup) && d.scans == (cfg.controlled && u.exit.exited && !u.cleanup.complete)
    requires d.scans ==> c.sup.cleanup.started && (Passed(c.sup.cleanup.deadline, now) <==> d.late)
    requires Moved(c, Slot(o, 9), s3) && RepeatDone(cfg, s3, o.repeatSignals, r)
    requires Moved(r, Slot(o, 10), s4) && ScanDone(cfg, s4, now, o.scanWorks, o.lastSignals, clean, e)
    requires Moved(e, Slot(o, 11), s5) && ReapDone(cfg, s5, o.groupGone, z)
    ensures Whats(z.log) == Whats(c.log)
                            + If(d.scans && (u.cleanup.forced || d.grace), Kill)
                            + If(d.scans, Scan(clean))
                            + If(d.scans && !clean && d.late, Kill)
                            + If(z.sup.exit.reaped && !u.exit.reaped, Reap)
  {
    assert CleaningUp(cfg, s3) == d.scans && CleaningUp(cfg, s4) == d.scans;
  }

  /** The state in which cleanup reads the clock. */
  function AtReading(s: State, o: Obs): State {
    ReadClock(Env(s, Slot(o, 6)))
  }

  /** The last three blocks of cleanup. */
  function SweepTail(cfg: Config, c: State, now: int, o: Obs): State {
    var d := RepeatKill(cfg, Env(c, Slot(o, 9)), o.repeatSignals);
    var e := ScanGroup(cfg, Env(d, Slot(o, 10)), now, o.scanWorks, o.lastSignals);
    ReapChild(cfg, Env(e, Slot(o, 11)), o.groupGone)
  }

  lemma FrontSweep(cfg: Config, s: State, o: Obs) returns (c: State)
    requires Sane(cfg, s.sup)
    ensures var now := AtReading(s, o).past.now;
            var u := DutiesOf(cfg, s.sup, now);
            && HalfSwept(u, s.sup, now, o, c.sup) && c.past.gaveUp == s.past.gaveUp
            && Whats(c.log) == Whats(s.log) + If(u.grace, Kill) + If(u.start && !s.sup.cancel.attempted, CleanupTerm)
    ensures CleanUp(cfg, s, o) == SweepTail(cfg, c, AtReading(s, o).past.now, o)
  {
    var a := AtReading(s, o);
    var now := a.past.now;
    var s1 := Env(a, Slot(o, 7));
    ForceBlock(s1, now, o.graceSignals);
    var b := ForceAfterGrace(s1, now, o.graceSignals);
    var s2 := Env(b, Slot(o, 8));
    StartBlock(cfg, s2, now, o.cleanupSignals);
    c := StartCleanup(cfg, s2, now, o.cleanupSignals);
    FirstHalf(cfg, o, now, a, s1, b, s2, c);
  }

  lemma TailStates(cfg: Config, now: int, o: Obs, c: State)
    returns (clean: bool, s3: State, d: State, s4: State, e: State, s5: State, z: State)
    ensures Moved(c, Slot(o, 9), s3) && RepeatDone(cfg, s3, o.repeatSignals, d)
    ensures Moved(d, Slot(o, 10), s4) && ScanDone(cfg, s4, now, o.scanWorks, o.lastSignals, clean, e)
    ensures Moved(e, Slot(o, 11), s5) && ReapDone(cfg, s5, o.groupGone, z)
    ensures z == SweepTail(cfg, c, now, o)
  {
    s3 := Env(c, Slot(o, 9));
    RepeatBlock(cfg, s3, o.repeatSignals);
    d := RepeatKill(cfg, s3, o.repeatSignals);
    s4 := Env(d, Slot(o, 10));
    clean := o.scanWorks && s4.w.members == {};
    ScanBlock(cfg, s4, now, o.scanWorks, o.lastSignals);
    e := ScanGroup(cfg, s4, now, o.scanWorks, o.lastSignals);
    s5 := Env(e, Slot(o, 11));
    ReapBlock(cfg, s5, o.groupGone);
    z := ReapChild(cfg, s5, o.groupGone);
  }

  lemma BackSweep(cfg: Config, u: Duties, v: Sup, now: int, o: Obs, c: State) returns (clean: bool, z: State)
    requires HalfSwept(u, v, now, o, c.sup) && u.scans == (cfg.controlled && v.exit.exited && !v.cleanup.complete)
    requires u.scans ==> c.sup.cleanup.started && (Passed(c.sup.cleanup.deadline, now) <==> u.late)
    ensures z == SweepTail(cfg, c, now, o)
    ensures Swept(cfg, u, v, c.past.gaveUp, now, o, clean, z.sup, z.past.gaveUp)
    ensures Whats(z.log) == Whats(c.log)
                            + If(u.scans && (v.cleanup.forced || u.grace), Kill)
                            + If(u.scans, Scan(clean))
                            + If(u.scans && !clean && u.late, Kill)
                            + If(z.sup.exit.reaped && !v.exit.reaped, Reap)
  {
    var s3, d, s4, e, s5;
    clean, s3, d, s4, e, s5, z := TailStates(cfg, now, o, c);
    SecondHalf(cfg, u, v, now, o, clean, c, s3, d, s4, e, s5, z);
    SecondActs(cfg, u, v, now, o, clean, c, s3, d, s4, e, s5, z);
  }

  lemma Regroup3<T>(x: seq<T>, a: seq<T>, b: seq<T>)
    ensures x + a + b == x + (a + b)
  {}

  lemma Regroup7<T>(x: seq<T>, a: seq<T>, b: seq<T>, c: seq<T>, d: seq<T>, e: seq<T>, f: seq<T>)
    ensures x + a + b + c + d + e + f == x + (a + b + c + d + e + f)
  {
    Regroup3(x, a, b);
    Regroup3(x, a + b, c);
    Regroup3(x, a + b + c, d);
    Regroup3(x, a + b + c + d, e);
    Regroup3(x, a + b + c + d + e, f);
  }

  /** The two lists of acts make one. */
  lemma ActsTogether(u: Duties, v: Sup, clean: bool, reaps: bool, before: seq<What>, half: seq<What>, after: seq<What>)
    requires half == before + If(u.grace, Kill) + If(u.start && !v.cancel.attempted, CleanupTerm)
    requires after == half
                      + If(u.scans && (v.cleanup.forced || u.grace), Kill)
                      + If(u.scans, Scan(clean))
                      + If(u.scans && !clean && u.late, Kill)
                      + If(reaps, Reap)
    ensures after == before + SweepActs(u, v, clean, reaps)
  {
    Regroup7(before, If(u.grace, Kill), If(u.start && !v.cancel.attempted, CleanupTerm),
             If(u.scans && (v.cleanup.forced || u.grace), Kill), If(u.scans, Scan(clean)),
             If(u.scans && !clean && u.late, Kill), If(reaps, Reap));
  }

  lemma SweepRest(cfg: Config, u: Duties, s: Sup, gaveUp: bool, before: seq<What>, now: int, o: Obs, c: State)
    returns (clean: bool, z: State)
    requires Sane(cfg, s) && u == DutiesOf(cfg, s, now) && HalfSwept(u, s, now, o, c.sup) && c.past.gaveUp == gaveUp
    requires Whats(c.log) == before + If(u.grace, Kill) + If(u.start && !s.cancel.attempted, CleanupTerm)
    ensures z == SweepTail(cfg, c, now, o)
    ensures Swept(cfg, u, s, gaveUp, now, o, clean, z.sup, z.past.gaveUp)
    ensures Whats(z.log) == before + SweepActs(u, s, clean, z.sup.exit.reaped && !s.exit.reaped)
  {
    if u.scans { LateIsOld(cfg, s, now, o, c.sup); }
    clean, z := BackSweep(cfg, u, s, now, o, c);
    ActsTogether(u, s, clean, z.sup.exit.reaped && !s.exit.reaped, before, Whats(c.log), Whats(z.log));
  }

  /** Everything cleanup does in an iteration. */
  lemma CleanUpExactly(cfg: Config, s: State, o: Obs) returns (clean: bool, b: State)
    requires Sane(cfg, s.sup)
    ensures b == CleanUp(cfg, s, o)
    ensures var now := AtReading(s, o).past.now;
            var u := DutiesOf(cfg, s.sup, now);
            && Swept(cfg, u, s.sup, s.past.gaveUp, now, o, clean, b.sup, b.past.gaveUp)
            && Whats(b.log) == Whats(s.log) + SweepActs(u, s.sup, clean, b.sup.exit.reaped && !s.sup.exit.reaped)
  {
    var now := AtReading(s, o).past.now;
    var c := FrontSweep(cfg, s, o);
    clean, b := SweepRest(cfg, DutiesOf(cfg, s.sup, now), s.sup, s.past.gaveUp, Whats(s.log), now, o, c);
  }

  // ----- a scan says what it finds ---------------------------------------------------------------------

  /** Every scan among the new events found the group as the world had it, unless it failed. */
  ghost predicate HonestScans(a: seq<Event>, b: seq<Event>, works: bool) {
    && a <= b
    && forall q :: |a| <= q < |b| && b[q].what.Scan? ==> (b[q].what.clean <==> works && b[q].world.members == {})
  }

  lemma HonestTransitive(a: seq<Event>, b: seq<Event>, c: seq<Event>, works: bool)
    requires HonestScans(a, b, works) && HonestScans(b, c, works)
    ensures HonestScans(a, c, works)
  {}

  lemma SignalBlocksHonest(cfg: Config, s: State, now: int, o: Obs)
    ensures HonestScans(s.log, ForceAfterGrace(s, now, o.graceSignals).log, o.scanWorks)
    ensures HonestScans(s.log, StartCleanup(cfg, s, now, o.cleanupSignals).log, o.scanWorks)
    ensures HonestScans(s.log, RepeatKill(cfg, s, o.repeatSignals).log, o.scanWorks)
  {}

  lemma EndBlocksHonest(cfg: Config, s: State, now: int, o: Obs)
    ensures HonestScans(s.log, ScanGroup(cfg, s, now, o.scanWorks, o.lastSignals).log, o.scanWorks)
    ensures HonestScans(s.log, ReapChild(cfg, s, o.groupGone).log, o.scanWorks)
  {}

  lemma CleanUpHonest(cfg: Config, s: State, o: Obs)
    ensures HonestScans(s.log, CleanUp(cfg, s, o).log, o.scanWorks)
  {
    var a := AtReading(s, o);
    var now := a.past.now;
    var s1 := Env(a, Slot(o, 7));
    SignalBlocksHonest(cfg, s1, now, o);
    var s2 := Env(ForceAfterGrace(s1, now, o.graceSignals), Slot(o, 8));
    SignalBlocksHonest(cfg, s2, now, o);
    var s3 := Env(StartCleanup(cfg, s2, now, o.cleanupSignals), Slot(o, 9));
    HonestTransitive(s.log, s2.log, s3.log, o.scanWorks);
    SignalBlocksHonest(cfg, s3, now, o);
    var s4 := Env(RepeatKill(cfg, s3, o.repeatSignals), Slot(o, 10));
    HonestTransitive(s.log, s3.log, s4.log, o.scanWorks);
    EndBlocksHonest(cfg, s4, now, o);
    var s5 := Env(ScanGroup(cfg, s4, now, o.scanWorks, o.lastSignals), Slot(o, 11));
    HonestTransitive(s.log, s4.log, s5.log, o.scanWorks);
    EndBlocksHonest(cfg, s5, now, o);
    HonestTransitive(s.log, s5.log, ReapChild(cfg, s5, o.groupGone).log, o.scanWorks);
  }

  // ----- the whole iteration ---------------------------------------------------------------------------

  /** The SIGTERM of cancellation is attempted in this iteration. */
  predicate TermNow(s: Sup, t: Sup) {
    t.cancel.attempted && !s.cancel.attempted
  }

  /** The variables as cleanup finds them, from those before and after the iteration. */
  function Midway(s: Sup, t: Sup, o: Obs): Sup {
    s.(cancel := t.cancel,
       exit := s.exit.(exited := t.exit.exited, information := t.exit.information),
       cleanup := s.cleanup.(failed := s.cleanup.failed || (TermNow(s, t) && !o.cancelSignals.complete)))
  }

  /** When the SIGTERM is attempted, and what is recorded of it. */
  ghost predicate Termed(cfg: Config, s: State, o: Obs, t: State) {
    && (t.sup.cancel.attempted <==>
          || s.sup.cancel.attempted
          || (t.sup.cancel.observed && (t.sup.cancel.beforeStart || s.sup.control.confirmed)))
    && (TermNow(s.sup, t.sup) ==>
          && (t.sup.cancel.delivered <==> o.cancelSignals.leader)
          && t.sup.cancel.deadline.At?
          && s.w.clock + cfg.grace <= t.sup.cancel.deadline.time <= t.past.now + cfg.grace)
    && (!TermNow(s.sup, t.sup) ==>
          t.sup.cancel.delivered == s.sup.cancel.delivered && t.sup.cancel.deadline == s.sup.cancel.deadline)
  }

  /** All acts of an iteration, in order. */
  function IterationActs(cfg: Config, s: Sup, t: Sup, now: int, o: Obs, clean: bool): seq<What> {
    var m := Midway(s, t, o);
    GateActs(s, t) + If(TermNow(s, t), CancelTerm)
    + SweepActs(DutiesOf(cfg, m, now), m, clean, t.exit.reaped && !s.exit.reaped)
  }

  /** Exactly what an iteration does. */
  ghost predicate Iterated(cfg: Config, s: State, o: Obs, clean: bool, t: State) {
    var m, now := Midway(s.sup, t.sup, o), t.past.now;
    && GateDone(cfg, s, o, t.sup)
    && Termed(cfg, s, o, t)
    && Swept(cfg, DutiesOf(cfg, m, now), m, s.past.gaveUp, now, o, clean, t.sup, t.past.gaveUp)
    && Whats(t.log) == Whats(s.log) + IterationActs(cfg, s.sup, t.sup, now, o, clean)
  }

  lemma SendsOnlyUnreaped(cfg: Config, s: State, o: Obs)
    requires Boundary(cfg, s) && !Finished(s) && MaySendCancellation(BeforeTerm(cfg, s, o))
    ensures !BeforeTerm(cfg, s, o).w.reaped
  {
    BeforeTermReached(cfg, s, o);
    BeforeTermLeaves(cfg, s, o);
    if s.sup.exit.reaped { ForcedNeverSends(cfg, s, o); }
  }

  /** Up to the SIGTERM. */
  ghost predicate GatePassed(cfg: Config, s: State, o: Obs, a: State) {
    && Sane(cfg, a.sup) && a.past == s.past && s.w.clock <= a.w.clock
    && a.sup.exit.reaped == s.sup.exit.reaped
    && GateDone(cfg, s, o, a.sup)
    && a.sup.cleanup == s.sup.cleanup.(
         failed := s.sup.cleanup.failed || (TermNow(s.sup, a.sup) && !o.cancelSignals.complete))
    && (a.sup.cancel.attempted <==>
          || s.sup.cancel.attempted
          || (a.sup.cancel.observed && (a.sup.cancel.beforeStart || s.sup.control.confirmed)))
    && (TermNow(s.sup, a.sup) ==>
          && (a.sup.cancel.delivered <==> o.cancelSignals.leader)
          && a.sup.cancel.deadline == At(a.w.clock + cfg.grace))
    && (!TermNow(s.sup, a.sup) ==>
          a.sup.cancel.delivered == s.sup.cancel.delivered && a.sup.cancel.deadline == s.sup.cancel.deadline)
    && Whats(a.log) == Whats(s.log) + GateActs(s.sup, a.sup) + If(TermNow(s.sup, a.sup), CancelTerm)
  }

  /** What is known of the state in which the SIGTERM is decided. */
  ghost predicate Decided(cfg: Config, s: State, o: Obs, z: State) {
    && GateDone(cfg, s, o, z.sup) && Whats(z.log) == Whats(s.log) + GateActs(s.sup, z.sup)
    && LeftAlone(s, z) && s.w.clock <= z.w.clock
    && z.sup.cancel.delivered == s.sup.cancel.delivered
    && (MaySendCancellation(z) ==> !z.w.reaped)
  }

  lemma BlocksKeepDelivered(cfg: Config, s: State, o: Obs)
    ensures BeforeTerm(cfg, s, o).sup.cancel.delivered == s.sup.cancel.delivered
  {}

  lemma DecisionExactly(cfg: Config, s: State, o: Obs)
    requires Boundary(cfg, s) && !Finished(s)
    ensures Decided(cfg, s, o, BeforeTerm(cfg, s, o))
  {
    GateExactly(cfg, s, o);
    BeforeTermLeaves(cfg, s, o);
    BeforeTermReached(cfg, s, o);
    BlocksKeepDelivered(cfg, s, o);
    if MaySendCancellation(BeforeTerm(cfg, s, o)) { SendsOnlyUnreaped(cfg, s, o); }
  }

  lemma InvIsSane(cfg: Config, s: State)
    requires Inv(cfg, s)
    ensures Sane(cfg, s.sup)
  {}

  lemma TermTogether(cfg: Config, s: State, o: Obs, z: State, a: State)
    requires Decided(cfg, s, o, z) && TermDone(cfg, z, o.cancelSignals, a) && Sane(cfg, a.sup) && a.past == z.past
    requires z.w.clock <= a.w.clock
    requires MaySendCancellation(z) <==> TermNow(z.sup, a.sup)
    ensures GatePassed(cfg, s, o, a)
  {}

  lemma PassGateExactly(cfg: Config, s: State, o: Obs)
    requires Boundary(cfg, s) && !Finished(s)
    ensures GatePassed(cfg, s, o, PassGate(cfg, s, o))
  {
    var z := BeforeTerm(cfg, s, o);
    DecisionExactly(cfg, s, o);
    BeforeTermReached(cfg, s, o);
    TermBlock(cfg, z, o.cancelSignals, Slot(o, 5));
    PassGateReached(cfg, s, o);
    InvIsSane(cfg, PassGate(cfg, s, o));
    InterfereFacts(z.w, Slot(o, 5));
    TermTogether(cfg, s, o, z, PassGate(cfg, s, o));
  }

  /** `t` agrees with `b` on all an iteration is judged by: reading the pipes changes none of it. */
  ghost predicate OnlyRead(b: State, t: State) {
    && t.past == b.past && t.log == b.log && t.sup.exit == b.sup.exit && t.sup.cleanup == b.sup.cleanup
    && t.sup.cancel == b.sup.cancel && t.sup.gate.released == b.sup.gate.released
  }

  lemma SweptAlike(cfg: Config, u: Sup, m: Sup, gaveUp: bool, now: int, o: Obs, clean: bool, v: Sup, w: Sup, gone: bool)
    requires Swept(cfg, DutiesOf(cfg, u, now), u, gaveUp, now, o, clean, v, gone)
    requires m.cancel == u.cancel && m.exit == u.exit && m.cleanup == u.cleanup
    requires w.cancel == v.cancel && w.exit == v.exit && w.cleanup == v.cleanup
    ensures Swept(cfg, DutiesOf(cfg, m, now), m, gaveUp, now, o, clean, w, gone)
  {}

  lemma StateTogether(cfg: Config, s: State, o: Obs, clean: bool, a: State, b: State, t: State)
    requires GatePassed(cfg, s, o, a) && OnlyRead(b, t) && b.sup.gate == a.sup.gate && a.w.clock <= b.past.now
    requires Swept(cfg, DutiesOf(cfg, a.sup, b.past.now), a.sup, a.past.gaveUp, b.past.now, o, clean,
                   b.sup, b.past.gaveUp)
    ensures GateDone(cfg, s, o, t.sup) && Termed(cfg, s, o, t)
    ensures var m := Midway(s.sup, t.sup, o);
            m.cancel == a.sup.cancel && m.exit == a.sup.exit && m.cleanup == a.sup.cleanup
  {}

  lemma IterationTogether(cfg: Config, s: State, o: Obs, clean: bool, a: State, b: State, t: State)
    requires GatePassed(cfg, s, o, a) && OnlyRead(b, t) && b.sup.gate == a.sup.gate && a.w.clock <= b.past.now
    requires var u := DutiesOf(cfg, a.sup, b.past.now);
             && Swept(cfg, u, a.sup, a.past.gaveUp, b.past.now, o, clean, b.sup, b.past.gaveUp)
             && Whats(b.log) == Whats(a.log) + SweepActs(u, a.sup, clean, b.sup.exit.reaped && !a.sup.exit.reaped)
    ensures Iterated(cfg, s, o, clean, t)
  {
    StateTogether(cfg, s, o, clean, a, b, t);
    SweptAlike(cfg, a.sup, Midway(s.sup, t.sup, o), a.past.gaveUp, b.past.now, o, clean, b.sup, t.sup, b.past.gaveUp);
    LogTogether(cfg, s, o, clean, a, b, t);
  }

  lemma LogTogether(cfg: Config, s: State, o: Obs, clean: bool, a: State, b: State, t: State)
    requires GatePassed(cfg, s, o, a) && OnlyRead(b, t) && b.sup.gate == a.sup.gate
    requires b.sup.cancel == a.sup.cancel && b.sup.exit.exited == a.sup.exit.exited
    requires var m := Midway(s.sup, t.sup, o);
             m.cancel == a.sup.cancel && m.exit == a.sup.exit && m.cleanup == a.sup.cleanup
    requires Whats(b.log) ==
             Whats(a.log)
             + SweepActs(DutiesOf(cfg, a.sup, b.past.now), a.sup, clean, b.sup.exit.reaped && !a.sup.exit.reaped)
    ensures Whats(t.log) == Whats(s.log) + IterationActs(cfg, s.sup, t.sup, t.past.now, o, clean)
  {
    var m := Midway(s.sup, t.sup, o);
    var sweep := SweepActs(DutiesOf(cfg, m, t.past.now), m, clean, t.sup.exit.reaped && !s.sup.exit.reaped);
    Regroup3(Whats(s.log), GateActs(s.sup, t.sup), If(TermNow(s.sup, t.sup), CancelTerm));
    Regroup3(Whats(s.log), GateActs(s.sup, t.sup) + If(TermNow(s.sup, t.sup), CancelTerm), sweep);
  }

  lemma IterateExactly(cfg: Config, s: State, o: Obs) returns (clean: bool)
    requires Boundary(cfg, s) && !Finished(s)
    ensures Iterated(cfg, s, o, clean, Iterate(cfg, s, o))
    ensures HonestScans(s.log, Iterate(cfg, s, o).log, o.scanWorks)
  {
    var a := PassGate(cfg, s, o);
    PassGateExactly(cfg, s, o);
    var b;
    clean, b := CleanUpExactly(cfg, a, o);
    ReadingIsLater(cfg, s, a, o);
    CleanUpUntouched(cfg, a, o);
    DrainOnlyReads(b, o);
    IterationTogether(cfg, s, o, clean, a, b, Drain(b, o));
    GateHonest(cfg, s, o);
    CleanUpHonest(cfg, a, o);
    HonestTransitive(s.log, a.log, b.log, o.scanWorks);
  }

  lemma ReadingIsLater(cfg: Config, s: State, a: State, o: Obs)
    requires Boundary(cfg, s) && !Finished(s) && a == PassGate(cfg, s, o)
    ensures CleanUp(cfg, a, o).past.now == AtReading(a, o).past.now && a.w.clock <= AtReading(a, o).past.now
  {
    PassGateReached(cfg, s, o);
    CleanUpKeepsReading(cfg, a, o);
    InterfereFacts(a.w, Slot(o, 6));
  }

  lemma ExitHonest(s: State, fails: bool, works: bool)
    ensures HonestScans(s.log, ObserveExit(s, fails).log, works)
  {}

  lemma TokenHonest(cfg: Config, s: State, token: bool, works: bool)
    ensures HonestScans(s.log, ObserveCancellation(cfg, s, token).log, works)
  {}

  lemma ReleaseHonest(cfg: Config, s: State, token: bool, meanwhile: seq<Step>, writes: bool, works: bool)
    ensures HonestScans(s.log, ReleaseGate(cfg, s, token, meanwhile, writes).log, works)
  {}

  lemma TermHonest(cfg: Config, s: State, r: Signals, meanwhile: seq<Step>, works: bool)
    ensures HonestScans(s.log, SendCancellation(cfg, s, r, meanwhile).log, works)
  {}

  /** Nothing is scanned before cleanup. */
  lemma GateHonest(cfg: Config, s: State, o: Obs)
    ensures HonestScans(s.log, PassGate(cfg, s, o).log, o.scanWorks)
  {
    var works := o.scanWorks;
    ExitHonest(Env(s, Slot(o, 0)), o.waitFails, works);
    var s1 := LookForExit(s, o);
    var s2 := Env(s1, Slot(o, 1));
    TokenHonest(cfg, s2, o.token, works);
    var s3 := ObserveCancellation(cfg, s2, o.token);
    HonestTransitive(s.log, s1.log, s3.log, works);
    var s4 := Env(s3, Slot(o, 2));
    ReleaseHonest(cfg, s4, o.tokenAgain, Slot(o, 3), o.startWrite, works);
    var z := BeforeTerm(cfg, s, o);
    HonestTransitive(s.log, s3.log, z.log, works);
    TermHonest(cfg, z, o.cancelSignals, Slot(o, 5), works);
    HonestTransitive(s.log, z.log, PassGate(cfg, s, o).log, works);
  }

  // ----- of runs -----------------------------------------------------------------------------------------

  /** Of every iteration of every run: exactly which acts it adds to the log, in which order, and exactly what it
      changes, from the state before it, what its calls returned and the clock reading. */
  lemma IterationExactly(cfg: Config, run: seq<State>, obs: seq<Obs>, i: nat) returns (clean: bool)
    requires IsRun(cfg, run, obs) && i < |obs| && !Finished(run[i])
    ensures Iterated(cfg, run[i], obs[i], clean, run[i + 1])
    ensures HonestScans(run[i].log, run[i + 1].log, obs[i].scanWorks)
  {
    RunBoundary(cfg, run, obs, i);
    assert Linked(cfg, run, obs, i);
    clean := IterateExactly(cfg, run[i], obs[i]);
  }

  /** The iteration from `s` to `t` did this. */
  ghost predicate Did(s: State, t: State, what: What) {
    exists q :: |s.log| <= q < |t.log| && t.log[q].what == what
  }

  lemma DidIsAct(s: State, t: State, acts: seq<What>, what: What)
    requires Whats(t.log) == Whats(s.log) + acts
    ensures Did(s, t, what) <==> what in acts
  {
    if Did(s, t, what) {
      var q :| |s.log| <= q < |t.log| && t.log[q].what == what;
      assert Whats(t.log)[q] == acts[q - |s.log|];
    }
    if what in acts {
      var k :| 0 <= k < |acts| && acts[k] == what;
      assert Whats(t.log)[|s.log| + k] == what && |Whats(t.log)| == |t.log|;
    }
  }

  lemma Held(c: bool, what: What, x: What)
    ensures x in If(c, what) <==> c && x == what
  {}

  /** Which acts the lists of possible ones hold. */
  lemma GateActsHeld(s: Sup, t: Sup, x: What)
    ensures x in GateActs(s, t) <==>
            || (x == ExitSeen && t.exit.exited && !s.exit.exited)
            || (x == CancelSeen && t.cancel.observed && !s.cancel.observed)
            || (x == Released && t.gate.released && !s.gate.released)
  {
    Held(t.exit.exited && !s.exit.exited, ExitSeen, x);
    Held(t.cancel.observed && !s.cancel.observed, CancelSeen, x);
    Held(t.gate.released && !s.gate.released, Released, x);
  }

  lemma SweepActsHeld(d: Duties, u: Sup, clean: bool, reaps: bool, x: What)
    ensures x in SweepActs(d, u, clean, reaps) <==>
            || (x == Kill && (d.grace || (d.scans && (u.cleanup.forced || (!clean && d.late)))))
            || (x == CleanupTerm && d.start && !u.cancel.attempted)
            || (x == Scan(clean) && d.scans)
            || (x == Reap && reaps)
  {
    Held(d.grace, Kill, x);
    Held(d.start && !u.cancel.attempted, CleanupTerm, x);
    Held(d.scans && (u.cleanup.forced || d.grace), Kill, x);
    Held(d.scans, Scan(clean), x);
    Held(d.scans && !clean && d.late, Kill, x);
    Held(reaps, Reap, x);
  }

  lemma ActsHeld(cfg: Config, s: Sup, t: Sup, now: int, o: Obs, clean: bool, x: What)
    ensures var m := Midway(s, t, o);
            var d := DutiesOf(cfg, m, now);
            x in IterationActs(cfg, s, t, now, o, clean) <==>
            || x in GateActs(s, t)
            || (x == CancelTerm && TermNow(s, t))
            || x in SweepActs(d, m, clean, t.exit.reaped && !s.exit.reaped)
  {
    Held(TermNow(s, t), CancelTerm, x);
  }

  /** Whether an iteration did something. */
  lemma DidWhat(cfg: Config, s: State, o: Obs, clean: bool, t: State, x: What)
    requires Iterated(cfg, s, o, clean, t)
    ensures var m := Midway(s.sup, t.sup, o);
            var d := DutiesOf(cfg, m, t.past.now);
            Did(s, t, x) <==>
            || (x == ExitSeen && t.sup.exit.exited && !s.sup.exit.exited)
            || (x == CancelSeen && t.sup.cancel.observed && !s.sup.cancel.observed)
            || (x == Released && t.sup.gate.released && !s.sup.gate.released)
            || (x == CancelTerm && TermNow(s.sup, t.sup))
            || (x == Kill && (d.grace || (d.scans && (s.sup.cleanup.forced || (!clean && d.late)))))
            || (x == CleanupTerm && d.start && !t.sup.cancel.attempted)
            || (x == Scan(clean) && d.scans)
            || (x == Reap && t.sup.exit.reaped && !s.sup.exit.reaped)
  {
    var m := Midway(s.sup, t.sup, o);
    DidIsAct(s, t, IterationActs(cfg, s.sup, t.sup, t.past.now, o, clean), x);
    ActsHeld(cfg, s.sup, t.sup, t.past.now, o, clean, x);
    GateActsHeld(s.sup, t.sup, x);
    SweepActsHeld(DutiesOf(cfg, m, t.past.now), m, clean, t.sup.exit.reaped && !s.sup.exit.reaped, x);
  }

  lemma DidExactly(cfg: Config, run: seq<State>, obs: seq<Obs>, i: nat) returns (clean: bool)
    requires IsRun(cfg, run, obs) && i < |obs| && !Finished(run[i])
    ensures Iterated(cfg, run[i], obs[i], clean, run[i + 1])
    ensures var s, t := run[i], run[i + 1];
            var m := Midway(s.sup, t.sup, obs[i]);
            var d := DutiesOf(cfg, m, t.past.now);
            && (Did(s, t, CancelTerm) <==> TermNow(s.sup, t.sup))
            && (Did(s, t, Released) <==> t.sup.gate.released && !s.sup.gate.released)
            && (Did(s, t, CleanupTerm) <==> d.start && !t.sup.cancel.attempted)
            && (Did(s, t, Kill) <==> d.grace || (d.scans && (s.sup.cleanup.forced || (!clean && d.late))))
            && (Did(s, t, Scan(true)) <==> d.scans && clean) && (Did(s, t, Scan(false)) <==> d.scans && !clean)
            && (Did(s, t, Reap) <==> t.sup.exit.reaped && !s.sup.exit.reaped)
  {
    clean := IterationExactly(cfg, run, obs, i);
    var s, t, o := run[i], run[i + 1], obs[i];
    DidWhat(cfg, s, o, clean, t, CancelTerm);
    DidWhat(cfg, s, o, clean, t, Released);
    DidWhat(cfg, s, o, clean, t, CleanupTerm);
    DidWhat(cfg, s, o, clean, t, Kill);
    DidWhat(cfg, s, o, clean, t, Scan(true));
    DidWhat(cfg, s, o, clean, t, Scan(false));
    DidWhat(cfg, s, o, clean, t, Reap);
  }

  /** Cancellation is answered: an iteration sends the SIGTERM exactly if cancellation has been observed by then,
      before start or with exec confirmed, and none was sent before -- whether or not the program still runs.  It is
      observed exactly if the token says so while the exit has not been seen. */
  lemma CancellationIsSent(cfg: Config, run: seq<State>, obs: seq<Obs>, i: nat)
    requires IsRun(cfg, run, obs) && i < |obs| && !Finished(run[i])
    ensures var s, t := run[i], run[i + 1];
            Did(s, t, CancelTerm) <==>
            && !s.sup.cancel.attempted && t.sup.cancel.observed
            && (t.sup.cancel.beforeStart || s.sup.control.confirmed)
    ensures var s, t := run[i], run[i + 1];
            Did(s, t, CancelTerm) ==>
              t.sup.cancel.attempted && (t.sup.cancel.delivered <==> obs[i].cancelSignals.leader)
    ensures var s, t, o := run[i], run[i + 1], obs[i];
            t.sup.cancel.observed <==>
            || s.sup.cancel.observed
            || (&& cfg.controlled && !t.sup.exit.exited
                && (o.token || (s.sup.gate.readySeen && !s.sup.gate.released && o.tokenAgain)))
    ensures var s, t, o := run[i], run[i + 1], obs[i];
            t.sup.exit.exited <==> s.sup.exit.exited || (Interfere(s.w, Slot(o, 0)).child.Gone? && !o.waitFails)
  {
    var clean := DidExactly(cfg, run, obs, i);
  }

  /** A running program that is cancelled is signalled at once. */
  lemma RunningProgramIsSignalled(cfg: Config, run: seq<State>, obs: seq<Obs>, i: nat)
    requires IsRun(cfg, run, obs) && i < |obs| && !Finished(run[i])
    requires cfg.controlled && run[i].sup.control.confirmed && !run[i].sup.cancel.attempted
    requires run[i].sup.cancel.observed || (obs[i].token && !run[i + 1].sup.exit.exited)
    ensures run[i + 1].sup.cancel.attempted && Did(run[i], run[i + 1], CancelTerm)
  {
    CancellationIsSent(cfg, run, obs, i);
  }

  /** SIGKILL follows, exit or no exit: once an iteration reads the clock at or past the end of the grace period,
      forced signalling is on and, if it was not before, SIGKILL has been sent in that iteration. */
  lemma KillAfterGrace(cfg: Config, run: seq<State>, obs: seq<Obs>, i: nat)
    requires IsRun(cfg, run, obs) && i < |obs| && !Finished(run[i])
    requires run[i + 1].sup.cancel.attempted && Passed(run[i + 1].sup.cancel.deadline, run[i + 1].past.now)
    requires !run[i].sup.cleanup.complete
    ensures run[i + 1].sup.cleanup.forced
    ensures !run[i].sup.cleanup.forced ==> Did(run[i], run[i + 1], Kill)
    ensures !run[i].sup.cleanup.forced ==> run[i + 1].sup.cleanup.deadline == At(run[i + 1].past.now + 1000)
  {
    var clean := DidExactly(cfg, run, obs, i);
  }

  /** Exactly when forced signalling is switched on: the grace period is over, or cleanup has reached its deadline and
      the scan still finds somebody. */
  lemma ForcedExactly(cfg: Config, run: seq<State>, obs: seq<Obs>, i: nat)
    requires IsRun(cfg, run, obs) && i < |obs| && !Finished(run[i]) && !run[i].sup.cleanup.complete
    ensures var s, t := run[i], run[i + 1];
            t.sup.cleanup.forced <==>
            || s.sup.cleanup.forced
            || (t.sup.cancel.attempted && Passed(t.sup.cancel.deadline, t.past.now))
            || (s.sup.cleanup.started && Passed(s.sup.cleanup.deadline, t.past.now) && Did(s, t, Scan(false)))
    ensures var s, t := run[i], run[i + 1];
            Did(s, t, Kill) <==>
            || (t.sup.cleanup.forced && !s.sup.cleanup.forced)
            || (t.sup.cleanup.forced && (Did(s, t, Scan(true)) || Did(s, t, Scan(false))))
  {
    var clean := DidExactly(cfg, run, obs, i);
  }

  /** The gate opens, with or without a token: exactly when the child is ready, cancellation has not been observed, and
      the start byte can be written to a living child. */
  lemma ReleasedExactly(cfg: Config, run: seq<State>, obs: seq<Obs>, i: nat)
    requires IsRun(cfg, run, obs) && i < |obs| && !Finished(run[i])
    ensures var s, t, o := run[i], run[i + 1], obs[i];
            t.sup.gate.released <==>
            || s.sup.gate.released
            || (&& s.sup.gate.readySeen && !t.sup.cancel.observed && s.sup.gate.startOpen && o.startWrite
                && !AtWrite(s, o).child.Gone?)
    ensures run[i + 1].sup.gate.released <==> run[i + 1].w.start.sent == [1]
    ensures Did(run[i], run[i + 1], Released) <==> run[i + 1].sup.gate.released && !run[i].sup.gate.released
  {
    var clean := DidExactly(cfg, run, obs, i);
    RunInv(cfg, run, obs, i + 1);
  }

  /** Cleanup starts with the exit and tells the group so unless it was told before; the group is scanned in every
      iteration from then on until cleanup is complete; it is complete when a scan is clean, or given up. */
  lemma CleanupExactly(cfg: Config, run: seq<State>, obs: seq<Obs>, i: nat)
    requires IsRun(cfg, run, obs) && i < |obs| && !Finished(run[i]) && cfg.controlled
    ensures var s, t := run[i], run[i + 1];
            t.sup.cleanup.started <==> s.sup.cleanup.started || t.sup.exit.exited
    ensures var s, t := run[i], run[i + 1];
            Did(s, t, CleanupTerm) <==> t.sup.exit.exited && !s.sup.cleanup.started && !t.sup.cancel.attempted
    ensures var s, t := run[i], run[i + 1];
            Did(s, t, Scan(true)) || Did(s, t, Scan(false)) <==> t.sup.exit.exited && !s.sup.cleanup.complete
    ensures var s, t := run[i], run[i + 1];
            t.sup.cleanup.complete <==>
            || s.sup.cleanup.complete
            || Did(s, t, Scan(true))
            || (Did(s, t, Scan(false)) && s.sup.cleanup.forced && Passed(s.sup.cleanup.deadline, t.past.now))
    ensures HonestScans(run[i].log, run[i + 1].log, obs[i].scanWorks)
  {
    var clean := DidExactly(cfg, run, obs, i);
    var again := IterationExactly(cfg, run, obs, i);
  }

  /** The leader is reaped as soon as its exit is seen and, in a controlled run, cleanup is complete. */
  lemma ReapedExactly(cfg: Config, run: seq<State>, obs: seq<Obs>, i: nat)
    requires IsRun(cfg, run, obs) && i < |obs| && !Finished(run[i])
    ensures var s, t := run[i], run[i + 1];
            t.sup.exit.reaped <==>
            s.sup.exit.reaped || (t.sup.exit.exited && (cfg.controlled ==> t.sup.cleanup.complete))
    ensures Did(run[i], run[i + 1], Reap) <==> run[i + 1].sup.exit.reaped && !run[i].sup.exit.reaped
    ensures !cfg.controlled && Did(run[i], run[i + 1], Reap) ==>
              && (run[i + 1].sup.cleanup.complete <==> obs[i].groupGone)
              && run[i + 1].sup.cleanup.failed == !obs[i].groupGone
  {
    var clean := DidExactly(cfg, run, obs, i);
  }

  /** Some signalling pass of the iteration was incomplete, or cleanup was given up. */
  ghost predicate WentWrong(s: State, o: Obs, t: State) {
    var scanned := Did(s, t, Scan(true)) || Did(s, t, Scan(false));
    var grace := && !s.sup.cleanup.forced && !s.sup.cleanup.complete
                 && t.sup.cancel.attempted && Passed(t.sup.cancel.deadline, t.past.now);
    var late := && !grace && (s.sup.cleanup.started || s.sup.cleanup.forced)
                && Passed(s.sup.cleanup.deadline, t.past.now) && Did(s, t, Scan(false));
    || (Did(s, t, CancelTerm) && !o.cancelSignals.complete)
    || (grace && !o.graceSignals.complete)
    || (Did(s, t, CleanupTerm) && !o.cleanupSignals.complete)
    || (scanned && (s.sup.cleanup.forced || grace) && !o.repeatSignals.complete)
    || (late && (s.sup.cleanup.forced || !o.lastSignals.complete))
  }

  /** A pass that is incomplete is not forgotten. */
  lemma FailedExactly(cfg: Config, run: seq<State>, obs: seq<Obs>, i: nat)
    requires IsRun(cfg, run, obs) && i < |obs| && !Finished(run[i]) && cfg.controlled
    ensures run[i + 1].sup.cleanup.failed <==> run[i].sup.cleanup.failed || WentWrong(run[i], obs[i], run[i + 1])
  {
    var clean := DidExactly(cfg, run, obs, i);
  }

  ghost predicate WrongAt(run: seq<State>, obs: seq<Obs>, k: nat)
    requires k < |obs| && k + 1 < |run|
  {
    !Finished(run[k]) && WentWrong(run[k], obs[k], run[k + 1])
  }

  /** Cleanup of a controlled run counts as failed exactly if something went wrong in one of its iterations. */
  lemma {:induction false} FailedIff(cfg: Config, run: seq<State>, obs: seq<Obs>, i: nat)
    requires IsRun(cfg, run, obs) && i < |run| && cfg.controlled
    ensures run[i].sup.cleanup.failed <==> exists k :: 0 <= k < i && WrongAt(run, obs, k)
  {
    if i > 0 {
      FailedIff(cfg, run, obs, i - 1);
      if Finished(run[i - 1]) {
        assert Linked(cfg, run, obs, i - 1);
        assert !WrongAt(run, obs, i - 1);
      } else {
        FailedExactly(cfg, run, obs, i - 1);
        assert WrongAt(run, obs, i - 1) <==> WentWrong(run[i - 1], obs[i - 1], run[i]);
      }
    }
  }
}
