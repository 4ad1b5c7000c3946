/**
 A concrete run without a cancellation token: the gate opens, the program executes, writes, exits with status 0,
 and the run is reported as a success with what it wrote.
 */
module SuccessRun {
  import opened Options
  import opened Child
  import opened Supervisor
  import opened SupervisorRuns
  import opened Outcome
  import opened WitnessRuns

  const FREE := Config(false, false, 0)

  const WRITES: seq<Step> := [ReadsStart, Executes, Writes(Output, [7]), Exits(0)]
  const RUNS := IDLE.(before := [WRITES])

  const DONE_WORLD := EXITED_WORLD.(output := Pipe([7], 0, true))
  const OVER := RELEASED.(
    exit := Exit(true, true, Some(Exited(0))),
    cleanup := Cleanup(false, true, false, false, Never))

  lemma ProgramWrites()
    ensures Interfere(RELEASED_WORLD, WRITES) == DONE_WORLD
  {
    var w1 := Apply(RELEASED_WORLD, ReadsStart);
    var w2 := Apply(w1, Executes);
    var w3 := Apply(w2, Writes(Output, [7]));
    assert WRITES[1..] == [Executes, Writes(Output, [7]), Exits(0)];
    assert WRITES[1..][1..] == [Writes(Output, [7]), Exits(0)] && WRITES[1..][1..][1..] == [Exits(0)];
    assert w3.output.sent == [7];
    assert Interfere(w3, [Exits(0)]) == Apply(w3, Exits(0));
  }

  lemma First() returns (o: Obs)
    ensures Stands(Iterate(FREE, Initial(FREE), o), READY, READY_WORLD)
  {
    o := SETS_UP;
    SetupReachesAwait();
    var s := Initial(FREE);
    var a := PassGate(FREE, s, o);
    assert Stands(a, s.sup, READY_WORLD.(ready := Pipe([1], 0, false)));
    var b := CleanUp(FREE, a, o);
    assert Stands(b, s.sup, READY_WORLD.(ready := Pipe([1], 0, false)));
    DrainReadyByte(b);
  }

  /** Without a token the gate opens just the same. */
  lemma Second(s: State) returns (o: Obs)
    requires Stands(s, READY, READY_WORLD)
    ensures Stands(Iterate(FREE, s, o), RELEASED, RELEASED_WORLD)
  {
    o := IDLE;
    var a := PassGate(FREE, s, o);
    assert Stands(a, RELEASED, RELEASED_WORLD);
    var b := CleanUp(FREE, a, o);
    assert Stands(b, RELEASED, RELEASED_WORLD);
    DrainsNothing(b, o);
  }

  /** All the result depends on. */
  predicate Successful(t: State) {
    && Finished(t) && t.w.execd && t.w.output.sent == [7]
    && t.sup.output.text == [7] && t.sup.error.text == [] && !t.sup.captureFailed
    && t.sup.control == EXITED.control && t.sup.cancel == NO_CANCEL
    && t.sup.cleanup.complete && !t.sup.cleanup.failed && t.sup.exit.information == Some(Exited(0))
  }

  lemma LastDrain(s: State)
    requires Stands(s, OVER, DONE_WORLD.(reaped := true))
    ensures Successful(Drain(s, RUNS))
  {
    assert Env(s, Slot(RUNS, 12)) == s;
    var g := Look(s, Captured(Output), Capacity(s, Captured(Output)));
    assert g == Data([7], Pipe([7], 1, true));
    var a0 := Accept(s, Captured(Output), g.bytes, g.p);
    assert DrainPort(a0, Captured(Output), []) == AtEof(a0, Captured(Output));
    var a := AtEof(a0, Captured(Output));
    assert DrainPort(s, Captured(Output), []) == a;
    var b := AtEof(a, Captured(Error));
    assert DrainPort(a, Captured(Error), []) == b;
    var c := AtEof(b, ControlPort);
    assert DrainPort(b, ControlPort, []) == c;
    assert DrainPort(c, ReadyPort, []) == c;
  }

  lemma Third(s: State) returns (o: Obs)
    requires Stands(s, RELEASED, RELEASED_WORLD)
    ensures Successful(Iterate(FREE, s, o))
  {
    o := RUNS;
    ProgramWrites();
    var a := PassGate(FREE, s, o);
    assert Stands(a, RELEASED.(exit := Exit(true, false, Some(Exited(0)))), DONE_WORLD);
    var b := CleanUp(FREE, a, o);
    assert Stands(b, OVER, DONE_WORLD.(reaped := true));
    LastDrain(b);
  }

  lemma OneMoreFree(run: seq<State>, obs: seq<Obs>, o: Obs) returns (longer: seq<State>, all: seq<Obs>)
    requires IsRun(FREE, run, obs)
    ensures IsRun(FREE, longer, all) && |all| == |obs| + 1 && longer[|obs| + 1] == Iterate(FREE, run[|obs|], o)
  {
    var next := Iterate(FREE, run[|obs|], o);
    ExtendRun(FREE, run, obs, next, o);
    longer, all := run + [next], obs + [o];
  }

  lemma ToReady() returns (run: seq<State>, obs: seq<Obs>)
    ensures IsRun(FREE, run, obs) && |obs| == 1 && Stands(run[1], READY, READY_WORLD)
  {
    var o := First();
    run, obs := OneMoreFree([Initial(FREE)], [], o);
  }

  lemma ToReleased(before: seq<State>, few: seq<Obs>) returns (run: seq<State>, obs: seq<Obs>)
    requires IsRun(FREE, before, few) && |few| == 1 && Stands(before[1], READY, READY_WORLD)
    ensures IsRun(FREE, run, obs) && |obs| == 2 && Stands(run[2], RELEASED, RELEASED_WORLD)
  {
    var o := Second(before[1]);
    run, obs := OneMoreFree(before, few, o);
  }

  lemma ToEnd(before: seq<State>, few: seq<Obs>) returns (run: seq<State>, obs: seq<Obs>)
    requires IsRun(FREE, before, few) && |few| == 2 && Stands(before[2], RELEASED, RELEASED_WORLD)
    ensures IsRun(FREE, run, obs) && |obs| == 3 && Successful(run[3])
  {
    var o := Third(before[2]);
    run, obs := OneMoreFree(before, few, o);
  }

  lemma Reported(req: Request, s: State)
    requires Successful(s)
    ensures var r := Classify(req, s, true);
            && r.Succeeded? && r.established == req.required
            && r.output == (if req.captureOutput then Some([7]) else None)
            && r.error == (if req.captureError then Some([]) else None)
  {}

  /** An uncontrolled run that executes its program and ends in success, with the bytes written and every required
      guarantee. */
  lemma UncontrolledSuccess(req: Request)
    ensures exists run: seq<State>, obs: seq<Obs> ::
              && IsRun(FREE, run, obs) && |obs| == 3 && Finished(run[3]) && run[3].w.execd
              && ReportedSuccess(req, Classify(req, run[3], true))
  {
    var r1, o1 := ToReady();
    var r2, o2 := ToReleased(r1, o1);
    var run, obs := ToEnd(r2, o2);
    Reported(req, run[3]);
  }

  predicate ReportedSuccess(req: Request, r: Result) {
    && r.Succeeded? && r.established == req.required
    && r.output == (if req.captureOutput then Some([7]) else None)
    && r.error == (if req.captureError then Some([]) else None)
  }
}
