/**
 When a process that has been seen to exit can still be reported as cancelled: exactly under a guard on
 the state in which its exit is seen.
 */
module LateCancellation {
  import opened Child
  import opened Supervisor
  import opened SupervisorInvariant
  import opened SupervisorRuns
  import opened SupervisorBoundaries
  import opened Outcome
  import opened Evidence

  /** The exit has just been seen, and the run may still end as a cancelled one: cancellation was observed
      between gate and exec and not yet signalled, nothing has been lost that a cancelled result needs, and
      the control pipe has confirmed exec or, empty as it is, is about to. */
  predicate Cancellable(z: State) {
    && InStartWindow(z) && !z.sup.captureFailed && !z.sup.cleanup.failed
    && (z.sup.control.confirmed || (z.sup.control.open && z.w.control.sent == []))
  }

  /** Two iterations that look for the exit in the same state. */
  predicate SameLook(a: Obs, b: Obs) {
    Slot(a, 0) == Slot(b, 0) && a.waitFails == b.waitFails
  }

  predicate EndsCancelled(req: Request, s: State, mountCleaned: bool) {
    Finished(s) && Cancelled(Classify(req, s, mountCleaned))
  }

  /** Some continuation of the run, through the look for the exit that `o` describes, ends in a cancelled result. */
  ghost predicate CanEndCancelled(cfg: Config, req: Request, run: seq<State>, obs: seq<Obs>, o: Obs) {
    exists longer: seq<State>, all: seq<Obs>, mountCleaned: bool ::
      && IsRun(cfg, longer, all) && Continues(run, obs, o, longer, all)
      && EndsCancelled(req, longer[|all|], mountCleaned)
  }

  predicate Continues(run: seq<State>, obs: seq<Obs>, o: Obs, longer: seq<State>, all: seq<Obs>) {
    run <= longer && obs <= all && |obs| < |all| && SameLook(all[|obs|], o)
  }

  // ----- only under the guard ----------------------------------------------------------------------

  /** A cancelled result after a seen exit is one of a started run, from a SIGTERM that was delivered. */
  lemma CancelledMeans(cfg: Config, req: Request, a: State, b: State, mountCleaned: bool)
    requires Inv(cfg, a) && Ahead(cfg, a, b) && a.sup.exit.exited && !a.sup.cancel.beforeStart
    requires Cancelled(Classify(req, b, mountCleaned))
    ensures a.sup.cancel.observed && b.sup.cancel.attempted && b.sup.control.confirmed
    ensures !b.sup.captureFailed && !b.sup.cleanup.failed
  {}

  /** What was lost before stays lost, and what confirmed exec was an empty control pipe. */
  lemma NothingLost(cfg: Config, s: State, b: State)
    requires Inv(cfg, s) && Ahead(cfg, s, b) && cfg.controlled
    requires b.sup.control.confirmed && !b.sup.captureFailed && !b.sup.cleanup.failed
    ensures !s.sup.captureFailed && !s.sup.cleanup.failed && b.w.control.sent == []
  {}

  lemma CancelledOnlyUnderGuard(
    cfg: Config, req: Request, run: seq<State>, obs: seq<Obs>, n: nat, j: nat, mountCleaned: bool)
    requires IsRun(cfg, run, obs) && n < j < |run|
    requires SeesExit(run[n], obs[n]) && !run[n].sup.cancel.attempted
    requires Cancelled(Classify(req, run[j], mountCleaned))
    ensures Cancellable(LookForExit(run[n], obs[n]))
  {
    var s, t, z := run[n], run[n + 1], LookForExit(run[n], obs[n]);
    LookSeen(cfg, run, obs, n);
    RunProgress(cfg, run, obs, n + 1, j);
    CancelledMeans(cfg, req, t, run[j], mountCleaned);
    RunProgress(cfg, run, obs, n, j);
    NothingLost(cfg, s, run[j]);
    LookLeaves(s, obs[n]);
    if !s.sup.control.open { ClosedControlStays(cfg, run, obs, n, j); }
  }

  /** What the iteration that sees the exit keeps of the state in which it sees it. */
  lemma LookSeen(cfg: Config, run: seq<State>, obs: seq<Obs>, n: nat)
    requires IsRun(cfg, run, obs) && n < |obs| && SeesExit(run[n], obs[n]) && !run[n].sup.cancel.attempted
    ensures var s, t, z := run[n], run[n + 1], LookForExit(run[n], obs[n]);
            && t.sup.exit.exited && t.w.child.Gone? && t.w.control.sent == z.w.control.sent
            && !t.sup.cancel.beforeStart
            && (t.sup.cancel.observed ==> InStartWindow(z) && cfg.controlled)
  {
    var s, o := run[n], obs[n];
    RunBoundary(cfg, run, obs, n);
    RunPrompt(cfg, run, obs, n);
    assert Linked(cfg, run, obs, n);
    SeeingIteration(cfg, s, o);
    LookReached(cfg, s, o);
    LookLeaves(s, o);
    AheadFromLook(cfg, s, o);
  }

  // ----- and always under it -----------------------------------------------------------------------

  /** All remaining members of the group may be gone by the next block. */
  lemma {:induction false} ClearMembers(w: World) returns (steps: seq<Step>)
    ensures Interfere(w, steps) == w.(members := {})
    decreases |w.members|
  {
    if w.members == {} {
      steps := [];
    } else {
      var id :| id in w.members;
      var rest := ClearMembers(Apply(w, MemberGone(id)));
      steps := [MemberGone(id)] + rest;
      assert steps[1..] == rest;
    }
  }

  /** An iteration that looks for the exit as `o` does; then the given steps happen and every call succeeds,
      except perhaps the scan. */
  function Smooth(o: Obs, steps: seq<Step>, scan: bool): Obs {
    Obs([Slot(o, 0), steps], o.waitFails, false, false, true, FINE, FINE, FINE, FINE, FINE, scan, true, [], [], [], [])
  }

  lemma SmoothSlots(o: Obs, steps: seq<Step>, scan: bool)
    ensures var r := Smooth(o, steps, scan);
            SameLook(r, o) && Slot(r, 1) == steps && forall k: nat :: 2 <= k ==> Slot(r, k) == []
  {}

  lemma SmoothDecision(cfg: Config, s: State, o: Obs, steps: seq<Step>, scan: bool)
    requires LookForExit(s, o).sup.exit.exited && LookForExit(s, o).sup.gate.released
    ensures BeforeTerm(cfg, s, Smooth(o, steps, scan)) == Env(LookForExit(s, o), steps)
  {
    SmoothSlots(o, steps, scan);
    var z := LookForExit(s, o);
    assert LookForExit(s, Smooth(o, steps, scan)) == z;
  }

  lemma SmoothTerm(cfg: Config, s: State)
    requires MaySendCancellation(s) && !s.w.reaped
    ensures var t := SendCancellation(cfg, s, FINE, []);
            && t.w == s.w && t.past == s.past && t.sup.exit == s.sup.exit && t.sup.control == s.sup.control
            && t.sup.cleanup == s.sup.cleanup && t.sup.captureFailed == s.sup.captureFailed
            && t.sup.cancel.delivered && t.sup.cancel.observed == s.sup.cancel.observed
            && t.sup.cancel.beforeStart == s.sup.cancel.beforeStart
  {
    assert Env(SignalGroup(s, CancelTerm, FINE), []) == SignalGroup(s, CancelTerm, FINE);
  }

  /** What the smooth cleanup of an empty group leads to. */
  predicate Wound(s: State, t: State) {
    && t.sup.cleanup.complete && !t.sup.cleanup.failed && t.sup.exit.reaped
    && t.past.gaveUp == s.past.gaveUp && t.sup.captureFailed == s.sup.captureFailed
  }

  /** The leader is dead, the group empty, and nothing has gone wrong with cleanup so far. */
  predicate AboutToEnd(cfg: Config, s: State) {
    && cfg.controlled && s.sup.exit.exited && !s.sup.exit.reaped && s.w.members == {}
    && !s.sup.cleanup.complete && !s.sup.cleanup.failed
  }

  lemma SmoothStart(cfg: Config, s: State, now: int)
    requires AboutToEnd(cfg, s)
    ensures var t := StartCleanup(cfg, ForceAfterGrace(s, now, FINE), now, FINE);
            && AboutToEnd(cfg, t) && t.sup.cleanup.started
            && t.past.gaveUp == s.past.gaveUp && t.sup.captureFailed == s.sup.captureFailed
  {
    assert AboutToEnd(cfg, ForceAfterGrace(s, now, FINE));
  }

  lemma SmoothEnd(cfg: Config, s: State, now: int)
    requires AboutToEnd(cfg, s) && s.sup.cleanup.started
    ensures Wound(s, ReapChild(cfg, ScanGroup(cfg, RepeatKill(cfg, s, FINE), now, true, FINE), true))
  {
    var d := RepeatKill(cfg, s, FINE);
    assert AboutToEnd(cfg, d) && d.sup.cleanup.started;
    var e := ScanGroup(cfg, d, now, true, FINE);
    assert e.sup.cleanup.complete && !e.sup.cleanup.failed;
  }

  lemma SmoothCleanUp(cfg: Config, s: State, o: Obs, steps: seq<Step>)
    requires AboutToEnd(cfg, s)
    ensures Wound(s, CleanUp(cfg, s, Smooth(o, steps, true)))
  {
    SmoothSlots(o, steps, true);
    var a := ReadClock(s);
    var now := a.past.now;
    SmoothStart(cfg, a, now);
    var c := StartCleanup(cfg, ForceAfterGrace(a, now, FINE), now, FINE);
    SmoothEnd(cfg, c, now);
    CleanUpUnrolled(cfg, s, Smooth(o, steps, true));
  }

  /** Cleanup without interference. */
  lemma CleanUpUnrolled(cfg: Config, s: State, o: Obs)
    requires forall k: nat :: 2 <= k ==> Slot(o, k) == []
    ensures var a := ReadClock(s);
            var now := a.past.now;
            var c := StartCleanup(cfg, ForceAfterGrace(a, now, o.graceSignals), now, o.cleanupSignals);
            var e := ScanGroup(cfg, RepeatKill(cfg, c, o.repeatSignals), now, o.scanWorks, o.lastSignals);
            CleanUp(cfg, s, o) == ReapChild(cfg, e, o.groupGone)
  {
    assert Slot(o, 6) == Slot(o, 7) == Slot(o, 8) == Slot(o, 9) == Slot(o, 10) == Slot(o, 11) == [];
  }

  /** Undisturbed reads lose nothing. */
  lemma {:induction false} SmoothRead(s: State, port: Port)
    ensures DrainPort(s, port, []).sup.captureFailed == s.sup.captureFailed
    decreases Unread(PipeAt(s.w, port))
  {
    if IsOpen(s, port) {
      var g := Look(s, port, Capacity(s, port));
      if g.Data? { SmoothRead(Accept(s, port, g.bytes, g.p), port); }
    }
  }

  lemma SmoothDrain(s: State, o: Obs, steps: seq<Step>, scan: bool)
    ensures Drain(s, Smooth(o, steps, scan)).sup.captureFailed == s.sup.captureFailed
  {
    var e := Env(s, Slot(Smooth(o, steps, scan), 12));
    SmoothRead(e, Captured(Output));
    var b := DrainPort(e, Captured(Output), []);
    SmoothRead(b, Captured(Error));
    var c := DrainPort(b, Captured(Error), []);
    SmoothRead(c, ControlPort);
    SmoothRead(DrainPort(c, ControlPort, []), ReadyPort);
  }

  // ----- the SIGTERM goes out in the iteration at hand ----------------------------------------------

  /** The exit is seen and exec confirmed: the SIGTERM goes out at once. */
  predicate AtOnce(z: State) {
    && z.sup.exit.exited && InStartWindow(z) && z.sup.control.confirmed
    && !z.sup.captureFailed && !z.sup.cleanup.failed && !z.sup.cleanup.complete && !z.sup.exit.reaped
  }

  /** The state after a smooth iteration, as far as the result depends on it. */
  predicate ReadyToReport(z: State, t: State) {
    && Finished(t) && t.sup.control == z.sup.control
    && t.sup.cancel.delivered && t.sup.cancel.observed && !t.sup.cancel.beforeStart
    && t.sup.cleanup.complete && !t.sup.cleanup.failed && !t.sup.captureFailed
  }

  lemma SmoothGate(cfg: Config, s: State, o: Obs, steps: seq<Step>)
    requires Boundary(cfg, s) && !Finished(s) && AtOnce(LookForExit(s, o))
    requires var w := LookForExit(s, o).w; Interfere(w, steps) == w.(members := {})
    ensures var z, a := LookForExit(s, o), PassGate(cfg, s, Smooth(o, steps, true));
            && Inv(cfg, a) && AboutToEnd(cfg, a) && !a.past.gaveUp
            && a.sup.control == z.sup.control && !a.sup.control.open && !a.sup.captureFailed
            && a.sup.cancel.delivered && a.sup.cancel.observed && !a.sup.cancel.beforeStart
  {
    var z := LookForExit(s, o);
    LookReached(cfg, s, o);
    BeforeTermLeaves(cfg, s, o);
    SmoothSlots(o, steps, true);
    SmoothDecision(cfg, s, o, steps, true);
    SmoothTerm(cfg, Env(z, steps));
    PassGateReached(cfg, s, Smooth(o, steps, true));
  }

  lemma SmoothIteration(cfg: Config, s: State, o: Obs, steps: seq<Step>)
    requires Boundary(cfg, s) && !Finished(s) && AtOnce(LookForExit(s, o))
    requires var w := LookForExit(s, o).w; Interfere(w, steps) == w.(members := {})
    ensures ReadyToReport(LookForExit(s, o), Iterate(cfg, s, Smooth(o, steps, true)))
  {
    var r := Smooth(o, steps, true);
    var a := PassGate(cfg, s, r);
    SmoothGate(cfg, s, o, steps);
    SmoothCleanUp(cfg, a, o, steps);
    var b := CleanUp(cfg, a, r);
    CleanUpReached(cfg, a, r);
    CleanUpUntouched(cfg, a, r);
    ReapedDrains(cfg, b, r);
    DrainOnlyReads(b, r);
    SmoothDrain(b, o, steps, true);
    DrainLeavesDecided(b, r);
  }

  lemma ReportsCancelled(cfg: Config, req: Request, z: State, t: State)
    requires Inv(cfg, t) && ReadyToReport(z, t) && z.sup.control.confirmed
    ensures EndsCancelled(req, t, true)
  {}

  /** One more iteration ends the run as a cancelled one. */
  lemma CancelAtOnce(cfg: Config, req: Request, run: seq<State>, obs: seq<Obs>, o: Obs) returns (r: Obs, next: State)
    requires IsRun(cfg, run, obs) && !Finished(run[|obs|]) && AtOnce(LookForExit(run[|obs|], o))
    ensures SameLook(r, o) && IsRun(cfg, run + [next], obs + [r]) && EndsCancelled(req, next, true)
  {
    var s := run[|obs|];
    var z := LookForExit(s, o);
    RunBoundary(cfg, run, obs, |obs|);
    var steps := ClearMembers(z.w);
    r := Smooth(o, steps, true);
    SmoothSlots(o, steps, true);
    SmoothIteration(cfg, s, o, steps);
    next := Iterate(cfg, s, r);
    IterateKeeps(cfg, s, r);
    ReportsCancelled(cfg, req, z, next);
    ExtendRun(cfg, run, obs, next, r);
  }

  // ----- the SIGTERM waits for the control pipe ------------------------------------------------------

  /** Draining a captured stream leaves the control pipe and the gate alone. */
  lemma {:induction false} StreamReadLeaves(s: State, which: Stream)
    ensures var t := DrainPort(s, Captured(which), []);
            t.sup.control == s.sup.control && t.sup.gate == s.sup.gate && t.w.control == s.w.control
    decreases Unread(PipeAt(s.w, Captured(which)))
  {
    if IsOpen(s, Captured(which)) {
      var g := Look(s, Captured(which), Capacity(s, Captured(which)));
      if g.Data? { StreamReadLeaves(Accept(s, Captured(which), g.bytes, g.p), which); }
    }
  }

  /** An open control pipe on which a dead child has written nothing. */
  predicate Unspoken(s: State) {
    && s.sup.control.open && s.sup.control.bytes == [] && s.sup.gate.released
    && s.w.control.sent == [] && !s.w.control.open
  }

  lemma SmoothDrainConfirms(s: State, o: Obs, steps: seq<Step>, scan: bool)
    requires Unspoken(s)
    ensures Drain(s, Smooth(o, steps, scan)).sup.control.confirmed
  {
    SmoothSlots(o, steps, scan);
    assert Env(s, []) == s;
    StreamReadLeaves(s, Output);
    var b := DrainPort(s, Captured(Output), []);
    StreamReadLeaves(b, Error);
    var c := DrainPort(b, Captured(Error), []);
    assert Look(c, ControlPort, Capacity(c, ControlPort)).Eof?;
    var d := DrainPort(c, ControlPort, []);
    assert d == AtEof(c, ControlPort);
    DecidedThroughDrain(d, ReadyPort, []);
  }

  /** The exit is seen, but the control pipe has not been read to its end. */
  predicate NotYet(cfg: Config, z: State) {
    && z.sup.exit.exited && InStartWindow(z) && Unspoken(z) && !z.sup.control.confirmed
    && cfg.controlled && !z.sup.exit.reaped && !z.sup.captureFailed
    && !z.sup.cleanup.started && !z.sup.cleanup.failed && !z.sup.cleanup.complete && !z.sup.cleanup.forced
  }

  /** Cleanup starts, and a scan that fails keeps the loop going. */
  lemma WaitingCleanUp(cfg: Config, z: State, o: Obs)
    requires NotYet(cfg, z)
    ensures var b := CleanUp(cfg, z, Smooth(o, [], false));
            && b.sup.exit == z.sup.exit && b.w == z.w && b.sup.captureFailed == z.sup.captureFailed
            && !b.sup.cleanup.failed && !b.sup.cleanup.complete
  {
    SmoothSlots(o, [], false);
    var a := ReadClock(z);
    var now := a.past.now;
    assert ForceAfterGrace(a, now, FINE) == a;
    var c := StartCleanup(cfg, a, now, FINE);
    assert c.sup.cleanup == Cleanup(true, false, false, false, At(now + 200));
    assert RepeatKill(cfg, c, FINE) == c;
    var e := ScanGroup(cfg, c, now, false, FINE);
    assert e == Note(c, Scan(false));
  }

  lemma WaitingBody(cfg: Config, z: State, o: Obs)
    requires Inv(cfg, z) && NotYet(cfg, z)
    ensures var r := Smooth(o, [], false);
            var t := Drain(CleanUp(cfg, z, r), r);
            AtOnce(t) && !Finished(t)
  {
    var r := Smooth(o, [], false);
    WaitingCleanUp(cfg, z, o);
    var b := CleanUp(cfg, z, r);
    CleanUpUntouched(cfg, z, r);
    CleanUpReached(cfg, z, r);
    SmoothDrainConfirms(b, o, [], false);
    SmoothDrain(b, o, [], false);
    DrainOnlyReads(b, r);
    ReleasedThroughDrain(cfg, b, r);
  }

  lemma ReleasedThroughDrain(cfg: Config, s: State, o: Obs)
    requires Inv(cfg, s) && s.sup.gate.released
    ensures Drain(s, o).sup.gate.released
  {
    DrainReached(cfg, s, s, o);
  }

  lemma WaitingGate(cfg: Config, s: State, o: Obs)
    requires NotYet(cfg, LookForExit(s, o))
    ensures PassGate(cfg, s, Smooth(o, [], false)) == LookForExit(s, o)
  {
    var z := LookForExit(s, o);
    SmoothDecision(cfg, s, o, [], false);
    assert Env(z, []) == z;
  }

  /** One iteration later the SIGTERM can go out. */
  lemma WaitingRun(cfg: Config, run: seq<State>, obs: seq<Obs>, o: Obs) returns (r: Obs, next: State)
    requires IsRun(cfg, run, obs) && !Finished(run[|obs|]) && NotYet(cfg, LookForExit(run[|obs|], o))
    ensures SameLook(r, o) && IsRun(cfg, run + [next], obs + [r]) && AtOnce(next) && !Finished(next)
  {
    var s := run[|obs|];
    r := Smooth(o, [], false);
    next := Iterate(cfg, s, r);
    SmoothSlots(o, [], false);
    RunBoundary(cfg, run, obs, |obs|);
    LookReached(cfg, s, o);
    WaitingGate(cfg, s, o);
    WaitingBody(cfg, LookForExit(s, o), o);
    ExtendRun(cfg, run, obs, next, r);
  }

  // ----- both ways ----------------------------------------------------------------------------------

  /** Before the exit is seen nothing of cleanup has happened in a run that has not cancelled. */
  lemma LookIsFresh(cfg: Config, s: State, o: Obs)
    requires Boundary(cfg, s) && SeesExit(s, o) && !s.sup.cancel.attempted && Cancellable(LookForExit(s, o))
    ensures !Finished(s)
    ensures var z := LookForExit(s, o); if z.sup.control.confirmed then AtOnce(z) else NotYet(cfg, z)
  {
    LookReached(cfg, s, o);
    LookLeaves(s, o);
  }

  lemma Shown(
    cfg: Config, req: Request, run: seq<State>, obs: seq<Obs>, o: Obs, longer: seq<State>, all: seq<Obs>)
    requires IsRun(cfg, longer, all) && Continues(run, obs, o, longer, all) && EndsCancelled(req, longer[|all|], true)
    ensures CanEndCancelled(cfg, req, run, obs, o)
  {}

  /** Under the guard, one or two more iterations end the run as a cancelled one. */
  lemma CancelledUnderGuard(cfg: Config, req: Request, run: seq<State>, obs: seq<Obs>, o: Obs)
    requires IsRun(cfg, run, obs) && SeesExit(run[|obs|], o) && !run[|obs|].sup.cancel.attempted
    requires Cancellable(LookForExit(run[|obs|], o))
    ensures CanEndCancelled(cfg, req, run, obs, o)
  {
    var s := run[|obs|];
    RunBoundary(cfg, run, obs, |obs|);
    LookIsFresh(cfg, s, o);
    if LookForExit(s, o).sup.control.confirmed {
      var r, next := CancelAtOnce(cfg, req, run, obs, o);
      Shown(cfg, req, run, obs, o, run + [next], obs + [r]);
    } else {
      CancelledNext(cfg, req, run, obs, o);
    }
  }

  lemma CancelledNext(cfg: Config, req: Request, run: seq<State>, obs: seq<Obs>, o: Obs)
    requires IsRun(cfg, run, obs) && !Finished(run[|obs|]) && NotYet(cfg, LookForExit(run[|obs|], o))
    ensures CanEndCancelled(cfg, req, run, obs, o)
  {
    var r, t := WaitingRun(cfg, run, obs, o);
    StillSeen(t);
    var r2, next := CancelAtOnce(cfg, req, run + [t], obs + [r], UNDISTURBED);
    Shown(cfg, req, run, obs, o, run + [t] + [next], obs + [r] + [r2]);
  }

  const UNDISTURBED := Obs([], false, false, false, true, FINE, FINE, FINE, FINE, FINE, true, true, [], [], [], [])

  lemma StillSeen(t: State)
    requires t.sup.exit.exited
    ensures LookForExit(t, UNDISTURBED) == t
  {
    assert Slot(UNDISTURBED, 0) == [] && Env(t, []) == t;
  }

  /** DESIGN.md says that a process observed to have completed is never reclassified as cancelled.  Of the
      state in which an iteration sees the exit, no SIGTERM having been attempted, that is so exactly outside
      the guard. */
  lemma LateCancellationIff(cfg: Config, req: Request, run: seq<State>, obs: seq<Obs>, o: Obs)
    requires IsRun(cfg, run, obs) && SeesExit(run[|obs|], o) && !run[|obs|].sup.cancel.attempted
    ensures CanEndCancelled(cfg, req, run, obs, o) <==> Cancellable(LookForExit(run[|obs|], o))
  {
    if Cancellable(LookForExit(run[|obs|], o)) {
      CancelledUnderGuard(cfg, req, run, obs, o);
    }
    if CanEndCancelled(cfg, req, run, obs, o) {
      var longer: seq<State>, all: seq<Obs>, mountCleaned: bool :|
        && IsRun(cfg, longer, all) && Continues(run, obs, o, longer, all)
        && EndsCancelled(req, longer[|all|], mountCleaned);
      LooksAlike(run[|obs|], o, all[|obs|]);
      CancelledOnlyUnderGuard(cfg, req, longer, all, |obs|, |all|, mountCleaned);
    }
  }

  lemma LooksAlike(s: State, a: Obs, b: Obs)
    requires SameLook(a, b)
    ensures LookForExit(s, a) == LookForExit(s, b)
  {}
}
