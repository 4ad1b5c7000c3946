/**
 Concrete runs that show where the code is narrower than its documents: an exit that was already observed is
 still reported as a cancellation, in a later iteration or in the same one; a SIGKILL is sent before the grace
 period of a cancellation SIGTERM is over -- all after a cancellation observed between gate release and exec
 confirmation -- and a child that is killed before exec, or cannot report that exec failed, is reported as
 started.
 */
module WitnessRuns {
  import opened Options
  import opened ControlRecord
  import opened Child
  import opened Supervisor
  import opened SupervisorRuns
  import opened Outcome

  const CFG := Config(true, false, 1000)

  /** An undisturbed iteration. */
  const IDLE := Obs([], false, false, false, true, FINE, FINE, FINE, FINE, FINE, true, true, [], [], [], [])

  const PROGRAM_STEPS: seq<Step> := [ReadsStart, Executes, Exits(0)]

  const SETS_UP := IDLE.(before := [StepsFrom(0)])
  const CANCELS := IDLE.(token := true)
  const EXITS := IDLE.(before := [PROGRAM_STEPS], scanWorks := false)
  const LINGERS := IDLE.(scanWorks := false)
  const WAITS := IDLE.(before := [[Ticks(200)]], scanWorks := false)

  // ----- the states on the way -----------------------------------------------------------------

  const OPEN := Capture(true, [])
  const SHUT := Capture(false, [])
  const NO_CANCEL := Cancel(false, false, false, false, Never)
  const NO_CLEANUP := Cleanup(false, false, false, false, Never)
  const ALIVE := Exit(false, false, None)
  const PLAN := SetupStages(false)

  const READY_WORLD := World(Await, PLAN, PLAN, false, None, FRESH, Pipe([1], 1, false), FRESH, FRESH, FRESH, {},
                             false, 0)
  const READY := Sup(OPEN, OPEN, false, ControlEnd(true, [], false, false), Gate(false, true, true, false),
                     ALIVE, NO_CANCEL, NO_CLEANUP)

  const RELEASED_WORLD := READY_WORLD.(start := Pipe([1], 0, false))
  const RELEASED := READY.(gate := Gate(false, false, true, true))

  const OBSERVED := RELEASED.(cancel := Cancel(true, false, false, false, Never))

  const EXITED_WORLD := World(Gone(Exited(0)), PLAN, PLAN, true, None, Pipe([], 0, false), Pipe([1], 1, false),
                              Pipe([1], 1, false), FRESH, FRESH, {}, false, 0)
  const EXITED := Sup(SHUT, SHUT, false, ControlEnd(false, [], true, false), Gate(false, false, true, true),
                      Exit(true, false, Some(Exited(0))), Cancel(true, false, false, false, Never),
                      Cleanup(true, false, false, false, At(200)))

  predicate Stands(s: State, sup: Sup, w: World) {
    s.sup == sup && s.w == w
  }

  /** The child with `k` setup stages behind it. */
  function SettingUp(k: nat): World
    requires k <= |PLAN|
  {
    Forked(false).(child := Setup(PLAN[k..]), done := PLAN[..k])
  }

  function StepsFrom(k: nat): seq<Step>
    requires k <= |PLAN|
    decreases |PLAN| - k
  {
    if k == |PLAN| then [Announces] else [StageSucceeds] + StepsFrom(k + 1)
  }

  lemma {:induction false} SetupFrom(k: nat)
    requires k <= |PLAN|
    ensures Interfere(SettingUp(k), StepsFrom(k)) == READY_WORLD.(ready := Pipe([1], 0, false))
    decreases |PLAN| - k
  {
    if k == |PLAN| {
      assert PLAN[k..] == [] && PLAN[..k] == PLAN;
      assert [Announces][1..] == [];
    } else {
      assert PLAN[k..][1..] == PLAN[k + 1..] && PLAN[..k] + [PLAN[k]] == PLAN[..k + 1];
      assert StepsFrom(k)[1..] == StepsFrom(k + 1);
      SetupFrom(k + 1);
    }
  }

  lemma SetupReachesAwait()
    ensures Interfere(Forked(false), StepsFrom(0)) == READY_WORLD.(ready := Pipe([1], 0, false))
  {
    assert SettingUp(0) == Forked(false) by { assert PLAN[0..] == PLAN && PLAN[..0] == []; }
    SetupFrom(0);
  }

  lemma ProgramRuns()
    ensures Interfere(RELEASED_WORLD, PROGRAM_STEPS) == EXITED_WORLD
  {
    var w1 := Apply(RELEASED_WORLD, ReadsStart);
    var w2 := Apply(w1, Executes);
    var w3 := Apply(w2, Exits(0));
    assert PROGRAM_STEPS[1..] == [Executes, Exits(0)];
    assert Interfere(w2, [Exits(0)]) == w3;
  }

  /** Reading two pipes that are empty but held, an empty held control pipe, and the ready byte. */
  lemma DrainReadyByte(s: State)
    requires Stands(s, Initial(CFG).sup, READY_WORLD.(ready := Pipe([1], 0, false)))
    ensures Stands(Drain(s, SETS_UP), READY, READY_WORLD)
  {
    assert Env(s, Slot(SETS_UP, 12)) == s;
    assert DrainPort(s, Captured(Output), []) == s;
    assert DrainPort(s, Captured(Error), []) == s;
    assert DrainPort(s, ControlPort, []) == s;
    var g := Look(s, ReadyPort, 1);
    assert g == Data([1], Pipe([1], 1, false));
    var t := Accept(s, ReadyPort, g.bytes, g.p);
    assert DrainPort(t, ReadyPort, []) == AtEof(t, ReadyPort);
  }

  lemma FirstIteration()
    ensures Stands(Iterate(CFG, Initial(CFG), SETS_UP), READY, READY_WORLD)
  {
    SetupReachesAwait();
    var s := Initial(CFG);
    var a := PassGate(CFG, s, SETS_UP);
    assert Stands(a, s.sup, READY_WORLD.(ready := Pipe([1], 0, false)));
    var b := CleanUp(CFG, a, SETS_UP);
    assert Stands(b, s.sup, READY_WORLD.(ready := Pipe([1], 0, false)));
    DrainReadyByte(b);
  }

  lemma SecondIteration(s: State)
    requires Stands(s, READY, READY_WORLD)
    ensures Stands(Iterate(CFG, s, IDLE), RELEASED, RELEASED_WORLD)
  {
    var a := PassGate(CFG, s, IDLE);
    assert Stands(a, RELEASED, RELEASED_WORLD);
    var b := CleanUp(CFG, a, IDLE);
    assert Stands(b, RELEASED, RELEASED_WORLD);
    DrainsNothing(b, IDLE);
  }

  /** While the child waits or runs quietly, a drain finds nothing and no end. */
  lemma DrainsNothing(s: State, o: Obs)
    requires o.before == [] && o.outputReads == o.errorReads == o.controlReads == o.readyReads == []
    requires s.sup.output.open && s.sup.error.open && s.sup.control == ControlEnd(true, [], false, false)
    requires !s.sup.gate.readyOpen && s.w.output == s.w.error == s.w.control == FRESH && !s.w.child.Gone?
    ensures Drain(s, o) == s
  {
    assert Env(s, Slot(o, 12)) == s;
    assert DrainPort(s, Captured(Output), []) == s;
    assert DrainPort(s, Captured(Error), []) == s;
    assert DrainPort(s, ControlPort, []) == s;
  }

  lemma ThirdIteration(s: State)
    requires Stands(s, RELEASED, RELEASED_WORLD)
    ensures Stands(Iterate(CFG, s, CANCELS), OBSERVED, RELEASED_WORLD)
  {
    var a := PassGate(CFG, s, CANCELS);
    assert Stands(a, OBSERVED, RELEASED_WORLD);
    var b := CleanUp(CFG, a, CANCELS);
    assert Stands(b, OBSERVED, RELEASED_WORLD);
    DrainsNothing(b, CANCELS);
  }

  const LEFT := OBSERVED.(exit := Exit(true, false, Some(Exited(0))))

  lemma FourthIteration(s: State)
    requires Stands(s, OBSERVED, RELEASED_WORLD)
    ensures Stands(Iterate(CFG, s, EXITS), EXITED, EXITED_WORLD)
  {
    ProgramRuns();
    var a := PassGate(CFG, s, EXITS);
    assert Stands(a, LEFT, EXITED_WORLD);
    var b := CleanUp(CFG, a, EXITS);
    assert Stands(b, LEFT.(cleanup := Cleanup(true, false, false, false, At(200))), EXITED_WORLD);
    DrainsToEnd(b, EXITS);
  }

  lemma DrainsToEnd(s: State, o: Obs)
    requires |o.before| <= 1 && o.outputReads == o.errorReads == o.controlReads == o.readyReads == []
    requires Stands(s, LEFT.(cleanup := Cleanup(true, false, false, false, At(200))), EXITED_WORLD)
    ensures Stands(Drain(s, o), EXITED, EXITED_WORLD)
  {
    assert Env(s, Slot(o, 12)) == s;
    var a := DrainPort(s, Captured(Output), []);
    assert a == AtEof(s, Captured(Output));
    var b := DrainPort(a, Captured(Error), []);
    assert b == AtEof(a, Captured(Error));
    var c := DrainPort(b, ControlPort, []);
    assert c == AtEof(b, ControlPort);
    assert DrainPort(c, ReadyPort, []) == c;
  }

  /** The cancellation SIGTERM goes out although the exit has been seen. */
  lemma FifthIteration(s: State, o: Obs)
    requires Stands(s, EXITED, EXITED_WORLD) && o.before == [] && o.cancelSignals == FINE
    ensures var a := PassGate(CFG, s, o);
            Stands(a, EXITED.(cancel := Cancel(true, false, true, true, At(1000))), EXITED_WORLD)
            && Event(CancelTerm, EXITED, EXITED_WORLD) in a.log
  {}

  lemma FifthEnds(s: State)
    requires Stands(s, EXITED.(cancel := Cancel(true, false, true, true, At(1000))), EXITED_WORLD)
    ensures var t := Drain(CleanUp(CFG, s, IDLE), IDLE);
            Finished(t) && t.sup.cancel.delivered && t.sup.cleanup == Cleanup(true, true, false, false, At(200))
            && t.sup.control == EXITED.control && t.sup.exit.information == Some(Exited(0))
            && !t.sup.captureFailed && !t.sup.cancel.beforeStart
  {}

  // ----- the runs ------------------------------------------------------------------------------

  /** A run may always go on for one more iteration. */
  lemma Extend(run: seq<State>, obs: seq<Obs>, o: Obs) returns (next: State)
    requires IsRun(CFG, run, obs)
    ensures next == Iterate(CFG, run[|obs|], o) && IsRun(CFG, run + [next], obs + [o])
  {
    next := Iterate(CFG, run[|obs|], o);
    ExtendRun(CFG, run, obs, next, o);
  }

  lemma OneMore(run: seq<State>, obs: seq<Obs>, o: Obs) returns (longer: seq<State>, all: seq<Obs>)
    requires IsRun(CFG, run, obs)
    ensures IsRun(CFG, longer, all) && |all| == |obs| + 1 && run <= longer
    ensures longer[|obs| + 1] == Iterate(CFG, run[|obs|], o)
  {
    var next := Extend(run, obs, o);
    longer, all := run + [next], obs + [o];
  }

  lemma RunToReady() returns (run: seq<State>)
    ensures IsRun(CFG, run, [SETS_UP]) && Stands(run[1], READY, READY_WORLD)
  {
    FirstIteration();
    run := FirstStep(SETS_UP);
  }

  lemma FirstStep(o: Obs) returns (run: seq<State>)
    ensures IsRun(CFG, run, [o]) && run[1] == Iterate(CFG, Initial(CFG), o)
  {
    var next := Extend([Initial(CFG)], [], o);
    run := [Initial(CFG)] + [next];
    assert [] + [o] == [o];
  }

  lemma RunToReleased() returns (run: seq<State>)
    ensures IsRun(CFG, run, [SETS_UP] + [IDLE]) && Stands(run[2], RELEASED, RELEASED_WORLD)
  {
    run := RunToReady();
    SecondIteration(run[1]);
    var next := Extend(run, [SETS_UP], IDLE);
    run := run + [next];
  }

  lemma RunToObserved() returns (run: seq<State>)
    ensures IsRun(CFG, run, [SETS_UP] + [IDLE] + [CANCELS]) && Stands(run[3], OBSERVED, RELEASED_WORLD)
  {
    run := RunToReleased();
    ThirdIteration(run[2]);
    var next := Extend(run, [SETS_UP] + [IDLE], CANCELS);
    run := run + [next];
  }

  const TO_EXIT: seq<Obs> := [SETS_UP] + [IDLE] + [CANCELS] + [EXITS]

  lemma RunToExit() returns (run: seq<State>)
    ensures IsRun(CFG, run, TO_EXIT) && Stands(run[4], EXITED, EXITED_WORLD)
  {
    run := RunToObserved();
    FourthIteration(run[3]);
    var next := Extend(run, [SETS_UP] + [IDLE] + [CANCELS], EXITS);
    run := run + [next];
  }

  /** An exit with status 0 is observed, then the SIGTERM goes to the zombie leader, and the run is
      reported as cancelled. */
  lemma ExitSeenThenCancelled(req: Request)
    ensures exists run: seq<State>, obs: seq<Obs> ::
              && IsRun(CFG, run, obs) && |obs| == 5
              && run[4].sup.exit.information == Some(Exited(0))
              && !run[4].sup.cancel.attempted
              && Finished(run[5])
              && Classify(req, run[5], true).CancelledAfterStart?
  {
    var run := RunToExit();
    var next := Extend(run, TO_EXIT, IDLE);
    FifthIteration(run[4], IDLE);
    FifthEnds(PassGate(CFG, run[4], IDLE));
    ReportedCancelled(req, next);
    assert (run + [next])[4] == run[4] && (run + [next])[5] == next;
  }

  lemma ReportedCancelled(req: Request, s: State)
    requires s.sup.cancel.delivered && !s.sup.cancel.beforeStart && !s.sup.captureFailed
    requires s.sup.cleanup.complete && !s.sup.cleanup.failed
    requires s.sup.control == EXITED.control
    ensures Classify(req, s, true).CancelledAfterStart?
  {}

  const CANCELLED := EXITED.(cancel := Cancel(true, false, true, true, At(1000)))

  lemma FifthLingers(s: State)
    requires Stands(s, EXITED, EXITED_WORLD)
    ensures var t := Iterate(CFG, s, LINGERS);
            Stands(t, CANCELLED, EXITED_WORLD) && Event(CancelTerm, EXITED, EXITED_WORLD) in t.log
  {
    var a := PassGate(CFG, s, LINGERS);
    FifthIteration(s, LINGERS);
    var b := CleanUp(CFG, a, LINGERS);
    assert Stands(b, CANCELLED, EXITED_WORLD);
    DrainOnlyReads(b, LINGERS);
    assert Env(b, Slot(LINGERS, 12)) == b;
    assert Drain(b, LINGERS) == b;
  }

  lemma SixthKills(s: State) returns (k: Event)
    requires Stands(s, CANCELLED, EXITED_WORLD)
    ensures var t := Iterate(CFG, s, WAITS);
            s.log <= t.log && k in t.log && k.what == Kill && k.world.clock == 200
  {
    var a := PassGate(CFG, s, WAITS);
    assert Interfere(EXITED_WORLD, [Ticks(200)]) == EXITED_WORLD.(clock := 200) by {
      assert [Ticks(200)][1..] == [];
    }
    assert Stands(a, CANCELLED, EXITED_WORLD.(clock := 200));
    var b := CleanUp(CFG, a, WAITS);
    k := Event(Kill, CANCELLED, EXITED_WORLD.(clock := 200));
    assert k in b.log;
    DrainOnlyReads(b, WAITS);
  }

  const LATE_TERM := Event(CancelTerm, EXITED, EXITED_WORLD)

  lemma RunToLateTerm() returns (run: seq<State>, obs: seq<Obs>)
    ensures IsRun(CFG, run, obs) && |obs| == 5 && Stands(run[5], CANCELLED, EXITED_WORLD) && LATE_TERM in run[5].log
  {
    run := RunToExit();
    FifthLingers(run[4]);
    var next := Extend(run, TO_EXIT, LINGERS);
    run, obs := run + [next], TO_EXIT + [LINGERS];
  }

  lemma LastIteration(run: seq<State>, obs: seq<Obs>, o: Obs, a: Event, k: Event) returns (longer: seq<State>)
    requires IsRun(CFG, run, obs) && a in run[|obs|].log
    requires var next := Iterate(CFG, run[|obs|], o); run[|obs|].log <= next.log && k in next.log
    ensures IsRun(CFG, longer, obs + [o]) && a in longer[|obs| + 1].log && k in longer[|obs| + 1].log
  {
    var next := Extend(run, obs, o);
    longer := run + [next];
  }

  lemma RunToKill() returns (run: seq<State>, obs: seq<Obs>, k: Event)
    ensures IsRun(CFG, run, obs) && |obs| == 6 && LATE_TERM in run[6].log
    ensures k in run[6].log && k.what == Kill && k.world.clock == 200
  {
    run, obs := RunToLateTerm();
    k := SixthKills(run[5]);
    run := LastIteration(run, obs, WAITS, LATE_TERM, k);
    obs := obs + [WAITS];
  }

  /** The cancellation SIGTERM is sent at time 0 with a grace period of 1000 ms, and SIGKILL follows at
      time 200: cleanup had started before the SIGTERM, with its own 200 ms deadline. */
  lemma KillBeforeGrace()
    ensures exists run: seq<State>, obs: seq<Obs>, a: Event, k: Event ::
              && IsRun(CFG, run, obs) && |obs| == 6
              && a in run[6].log && a.what == CancelTerm && a.sup.cleanup.started
              && k in run[6].log && k.what == Kill
              && k.world.clock < a.world.clock + CFG.grace
  {
    var run, obs, k := RunToKill();
    assert LATE_TERM in run[6].log && LATE_TERM.what == CancelTerm && LATE_TERM.sup.cleanup.started;
  }

  // ----- dead before exec ----------------------------------------------------------------------

  /** The child is dead after the start byte, without having executed. */
  function DeadWorld(how: Termination, reported: Option<Message>): World {
    EXITED_WORLD.(child := Gone(how), execd := false, reported := reported)
  }

  function Dead(how: Termination): Sup {
    RELEASED.(exit := Exit(true, false, Some(how)))
  }

  function Buried(how: Termination): Sup {
    Dead(how).(exit := Exit(true, true, Some(how)), cleanup := Cleanup(true, true, false, false, At(200)))
  }

  function Dies(steps: seq<Step>): Obs {
    IDLE.(before := [steps])
  }

  /** The state a run ends in when the child dies silently before exec, as far as the result depends on it. */
  predicate EndsDead(t: State, how: Termination, reported: Option<Message>) {
    && Finished(t) && t.w == DeadWorld(how, reported).(reaped := true)
    && t.sup.control == ControlEnd(false, [], true, false)
    && t.sup.exit == Buried(how).exit && t.sup.cancel == NO_CANCEL && t.sup.cleanup == Buried(how).cleanup
    && !t.sup.captureFailed
  }

  lemma DrainsAfterDeath(s: State, steps: seq<Step>, how: Termination, reported: Option<Message>)
    requires Stands(s, Buried(how), DeadWorld(how, reported).(reaped := true))
    ensures EndsDead(Drain(s, Dies(steps)), how, reported)
  {
    assert Env(s, Slot(Dies(steps), 12)) == s;
    var a := DrainPort(s, Captured(Output), []);
    assert a == AtEof(s, Captured(Output));
    var b := DrainPort(a, Captured(Error), []);
    assert b == AtEof(a, Captured(Error));
    var c := DrainPort(b, ControlPort, []);
    assert c == AtEof(b, ControlPort);
    assert DrainPort(c, ReadyPort, []) == c;
  }

  lemma DeadIteration(s: State, steps: seq<Step>, how: Termination, reported: Option<Message>)
    requires Stands(s, RELEASED, RELEASED_WORLD)
    requires Interfere(RELEASED_WORLD, steps) == DeadWorld(how, reported)
    ensures EndsDead(Iterate(CFG, s, Dies(steps)), how, reported)
  {
    var o := Dies(steps);
    var a := PassGate(CFG, s, o);
    assert Stands(a, Dead(how), DeadWorld(how, reported));
    var b := CleanUp(CFG, a, o);
    assert Stands(b, Buried(how), DeadWorld(how, reported).(reaped := true));
    DrainsAfterDeath(b, steps, how, reported);
  }

  lemma RunToDeath(steps: seq<Step>, how: Termination, reported: Option<Message>)
    returns (run: seq<State>, obs: seq<Obs>)
    requires Interfere(RELEASED_WORLD, steps) == DeadWorld(how, reported)
    ensures IsRun(CFG, run, obs) && |obs| == 3 && EndsDead(run[3], how, reported)
  {
    run := RunToReleased();
    DeadIteration(run[2], steps, how, reported);
    run, obs := OneMore(run, [SETS_UP] + [IDLE], Dies(steps));
  }

  const KILL_STEPS: seq<Step> := [ReadsStart, Killed(9)]

  lemma ChildKilled()
    ensures Interfere(RELEASED_WORLD, KILL_STEPS) == DeadWorld(Signaled(9), None)
  {
    var w1 := Apply(RELEASED_WORLD, ReadsStart);
    assert KILL_STEPS[1..] == [Killed(9)];
    assert Interfere(w1, [Killed(9)]) == Apply(w1, Killed(9));
  }

  /** A child killed from outside after it read the start byte and before execveat: nothing was executed,
      and the run is reported as a started program that a signal terminated. */
  lemma KilledThenStarted(req: Request)
    ensures exists run: seq<State>, obs: seq<Obs> ::
              && IsRun(CFG, run, obs) && |obs| == 3 && Finished(run[3])
              && !run[3].w.execd && KilledBeforeExec(run[3].w)
              && ReportedAs(Classify(req, run[3], true), Signaled(9), ProgramTerminatedBySignal)
  {
    ChildKilled();
    var run, obs := RunToDeath(KILL_STEPS, Signaled(9), None);
  }

  predicate ReportedAs(r: Result, how: Termination, kind: FailureKind) {
    r.FailedAfterStart? && r.termination == how && r.kind == kind
  }

  const MUTE_STEPS: seq<Step> := [ReadsStart, ExecFails(2), ReportStops]
  const UNREPORTED := Compose(Record(Execute, 2, 0))

  lemma ChildMute()
    ensures Interfere(RELEASED_WORLD, MUTE_STEPS) == DeadWorld(Exited(127), Some(UNREPORTED))
  {
    var w1 := Apply(RELEASED_WORLD, ReadsStart);
    var w2 := Apply(w1, ExecFails(2));
    assert MUTE_STEPS[1..] == [ExecFails(2), ReportStops] && [ExecFails(2), ReportStops][1..] == [ReportStops];
    assert Interfere(w2, [ReportStops]) == Apply(w2, ReportStops);
  }

  /** A child whose execveat fails and that cannot write one byte of its report: nothing was executed, and
      the run is reported as a started program that exited with 127. */
  lemma MuteThenStarted(req: Request)
    ensures exists run: seq<State>, obs: seq<Obs> ::
              && IsRun(CFG, run, obs) && |obs| == 3 && Finished(run[3])
              && !run[3].w.execd && ExecReportLost(run[3].w)
              && ReportedAs(Classify(req, run[3], true), Exited(127), ProgramExitedNonzero)
  {
    ChildMute();
    var run, obs := RunToDeath(MUTE_STEPS, Exited(127), Some(UNREPORTED));
  }

  // ----- seen to exit and cancelled in one iteration ---------------------------------------------

  const START_STEPS: seq<Step> := [ReadsStart, Executes]
  const TWELVE_QUIET: seq<seq<Step>> := [[], [], [], [], [], [], [], [], [], [], [], []]

  /** The token is read, and the program starts before the drain. */
  const CANCELS_AT_START := IDLE.(token := true, before := TWELVE_QUIET + [START_STEPS])
  const ENDS := IDLE.(before := [[Exits(0)]])

  const RUNNING_WORLD := EXITED_WORLD.(child := Running)
  const CONFIRMED := OBSERVED.(control := ControlEnd(false, [], true, false))

  lemma ProgramStarts()
    ensures Interfere(RELEASED_WORLD, START_STEPS) == RUNNING_WORLD
    ensures Interfere(RUNNING_WORLD, [Exits(0)]) == EXITED_WORLD
  {
    var w1 := Apply(RELEASED_WORLD, ReadsStart);
    assert START_STEPS[1..] == [Executes] && [Executes][1..] == [] && [Exits(0)][1..] == [];
    assert Interfere(w1, [Executes]) == Interfere(Apply(w1, Executes), []);
    assert Interfere(RUNNING_WORLD, [Exits(0)]) == Interfere(Apply(RUNNING_WORLD, Exits(0)), []);
  }

  lemma QuietSlots(k: nat)
    requires k < 12
    ensures Slot(CANCELS_AT_START, k) == []
  {}

  lemma DrainConfirms(s: State)
    requires Stands(s, OBSERVED, RELEASED_WORLD)
    ensures Stands(Drain(s, CANCELS_AT_START), CONFIRMED, RUNNING_WORLD)
  {
    ProgramStarts();
    assert Slot(CANCELS_AT_START, 12) == START_STEPS;
    var e := Env(s, START_STEPS);
    assert DrainPort(e, Captured(Output), []) == e;
    assert DrainPort(e, Captured(Error), []) == e;
    var c := DrainPort(e, ControlPort, []);
    assert c == AtEof(e, ControlPort);
    assert DrainPort(c, ReadyPort, []) == c;
  }

  lemma StartingIteration(s: State) returns (o: Obs)
    requires Stands(s, RELEASED, RELEASED_WORLD)
    ensures Stands(Iterate(CFG, s, o), CONFIRMED, RUNNING_WORLD)
  {
    o := CANCELS_AT_START;
    forall k: nat | k < 12 ensures Slot(o, k) == [] {
      QuietSlots(k);
    }
    var a := PassGate(CFG, s, o);
    assert Stands(a, OBSERVED, RELEASED_WORLD);
    var b := CleanUp(CFG, a, o);
    assert Stands(b, OBSERVED, RELEASED_WORLD);
    DrainConfirms(b);
  }

  const SEEN := CONFIRMED.(exit := Exit(true, false, Some(Exited(0))))

  lemma EndingGate(s: State)
    requires Stands(s, CONFIRMED, RUNNING_WORLD)
    ensures var a := PassGate(CFG, s, ENDS);
            && Stands(a, SEEN.(cancel := Cancel(true, false, true, true, At(1000))), EXITED_WORLD)
            && Event(CancelTerm, SEEN, EXITED_WORLD) in a.log
  {
    ProgramStarts();
  }

  /** As far as the result depends on it. */
  predicate EndsDelivered(t: State) {
    && Finished(t) && t.sup.cancel.delivered && !t.sup.cancel.beforeStart && !t.sup.captureFailed
    && t.sup.cleanup.complete && !t.sup.cleanup.failed && t.sup.control == EXITED.control
  }

  lemma EndingBody(s: State)
    requires Stands(s, SEEN.(cancel := Cancel(true, false, true, true, At(1000))), EXITED_WORLD)
    ensures EndsDelivered(Drain(CleanUp(CFG, s, ENDS), ENDS)) && s.log <= Drain(CleanUp(CFG, s, ENDS), ENDS).log
  {
    var b := CleanUp(CFG, s, ENDS);
    assert b.sup.exit.reaped && b.w == EXITED_WORLD.(reaped := true);
    assert Env(b, Slot(ENDS, 12)) == b;
    var c := DrainPort(b, Captured(Output), []);
    assert c == AtEof(b, Captured(Output));
    var d := DrainPort(c, Captured(Error), []);
    assert d == AtEof(c, Captured(Error));
    assert DrainPort(d, ControlPort, []) == d;
    assert DrainPort(d, ReadyPort, []) == d;
  }

  lemma StartingStep(run: seq<State>, obs: seq<Obs>) returns (longer: seq<State>, all: seq<Obs>)
    requires IsRun(CFG, run, obs) && |obs| == 2 && Stands(run[2], RELEASED, RELEASED_WORLD)
    ensures IsRun(CFG, longer, all) && |all| == 3 && Stands(longer[3], CONFIRMED, RUNNING_WORLD)
  {
    var o := StartingIteration(run[2]);
    longer, all := OneMore(run, obs, o);
  }

  lemma EndingStep(run: seq<State>, obs: seq<Obs>) returns (longer: seq<State>, all: seq<Obs>)
    requires IsRun(CFG, run, obs) && |obs| == 3 && Stands(run[3], CONFIRMED, RUNNING_WORLD)
    ensures IsRun(CFG, longer, all) && |all| == 4 && longer[3] == run[3]
    ensures EndsDelivered(longer[4]) && Event(CancelTerm, SEEN, EXITED_WORLD) in longer[4].log
  {
    EndingGate(run[3]);
    EndingBody(PassGate(CFG, run[3], ENDS));
    longer, all := OneMore(run, obs, ENDS);
  }

  /** With every scan and signal succeeding, one iteration sees the exit with status 0 and then sends the
      SIGTERM to the zombie leader, and the run is reported as cancelled. */
  lemma SeenAndCancelledAtOnce(req: Request)
    ensures exists run: seq<State>, obs: seq<Obs>, e: Event ::
              && IsRun(CFG, run, obs) && |obs| == 4 && !run[3].sup.exit.exited
              && e in run[4].log && e.what == CancelTerm && e.sup.exit == Exit(true, false, Some(Exited(0)))
              && Finished(run[4]) && Classify(req, run[4], true).CancelledAfterStart?
  {
    var released := RunToReleased();
    var started, few := StartingStep(released, [SETS_UP] + [IDLE]);
    var run, obs := EndingStep(started, few);
    ReportedCancelled(req, run[4]);
    assert Event(CancelTerm, SEEN, EXITED_WORLD) in run[4].log;
  }
}
