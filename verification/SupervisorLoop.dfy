/**
 The loops themselves: the read loops and the supervisor's `while`, with the evidence a finished run
 returns.
 */
module SupervisorLoop {
  import opened Options
  import opened Child
  import opened Supervisor
  import opened SupervisorRuns
  import opened Outcome
  import opened Evidence

  /** A read loop, one read(2) at a time. */
  method DrainLoop(from: State, port: Port, tries: seq<Attempt>) returns (s: State)
    ensures s == DrainPort(from, port, tries)
  {
    s := from;
    var i := 0;
    while IsOpen(s, port)
      invariant i <= |tries|
      invariant DrainPort(s, port, tries[i..]) == DrainPort(from, port, tries)
      decreases |tries| - i, Unread(PipeAt(s.w, port))
    {
      var got;
      if i < |tries| {
        assert tries[i..][0] == tries[i] && tries[i..][1..] == tries[i + 1..];
        var try := tries[i];
        i := i + 1;
        s := Env(s, try.steps);
        if try.how == Interrupted {
          continue;
        }
        if try.how == Broken {
          s := AtError(s, port);
          return;
        }
        got := Look(s, port, try.how.n);
      } else {
        got := Look(s, port, Capacity(s, port));
      }
      match got {
        case Data(bytes, p) =>
          s := Accept(s, port, bytes, p);
        case Eof =>
          s := AtEof(s, port);
          return;
        case Again =>
          return;
      }
    }
  }

  /** One pass through the loop body, block by block. */
  method LoopBody(cfg: Config, from: State, o: Obs) returns (s: State)
    requires !Finished(from)
    ensures s == Iterate(cfg, from, o)
  {
    s := PassGate(cfg, from, o);
    s := CleanUp(cfg, s, o);
    s := Env(s, Slot(o, 12));
    s := DrainLoop(s, Captured(Output), o.outputReads);
    s := DrainLoop(s, Captured(Error), o.errorReads);
    s := DrainLoop(s, ControlPort, o.controlReads);
    s := DrainLoop(s, ReadyPort, o.readyReads);
  }

  /** What a reported result is worth, given the last state of the run it came from. */
  ghost predicate Truthful(cfg: Config, req: Request, s: State, mountCleaned: bool, r: Result) {
    && (Started(r) <==>
          && !s.sup.control.broken
          && (s.w.execd || (KilledBeforeExec(s.w) && s.w.control.sent == []) || ExecReportLost(s.w)))
    && (s.w.execd ==> s.w.done == SetupStages(cfg.isolated))
    && (r.CancelledBeforeStart? ==> !s.w.execd && Verified(s, mountCleaned))
    && (r.Succeeded? || r.CancelledAfterStart? ==>
          && Verified(s, mountCleaned)
          && r.established == req.required
          && r.output == Wanted(req.captureOutput, s.w.output.sent)
          && r.error == Wanted(req.captureError, s.w.error.sent))
    && (r.FailedAfterStart? ==>
          && s.w.child == Gone(r.termination) && r.cleanup == Verified(s, mountCleaned)
          && r.output == Kept(s, req.captureOutput, s.w.output.sent)
          && r.error == Kept(s, req.captureError, s.w.error.sent))
    && (cfg.controlled && Verified(s, mountCleaned) ==> s.w.members == {} && s.w.child.Gone?)
  }

  lemma FinishedIsTruthful(cfg: Config, req: Request, run: seq<State>, obs: seq<Obs>, i: nat, mountCleaned: bool)
    requires IsRun(cfg, run, obs) && i < |run| && Finished(run[i])
    ensures Truthful(cfg, req, run[i], mountCleaned, Classify(req, run[i], mountCleaned))
  {
    var r := Classify(req, run[i], mountCleaned);
    StartEvidence(cfg, req, run, obs, i, mountCleaned);
    RunInv(cfg, run, obs, i);
    if r.Succeeded? || r.CancelledAfterStart? {
      GoodResultsAreBacked(cfg, req, run, obs, i, mountCleaned);
    }
    if r.FailedAfterStart? { FailureExplained(cfg, req, run[i], mountCleaned); }
    if r.CancelledBeforeStart? { CancelledGateStaysShut(cfg, run, obs, i, i); }
    if cfg.controlled && Verified(run[i], mountCleaned) {
      VerifiedWasNotGivenUp(cfg, run[i], mountCleaned);
    }
  }

  /** The supervisor loop over whatever it may observe.  It ends when the leader is reaped and every
      pipe is closed, or when the given observations are used up; its states form a run, and a result is
      reported exactly when the loop has ended by itself. */
  method Supervise(cfg: Config, req: Request, obs: seq<Obs>, mountCleaned: bool)
    returns (run: seq<State>, result: Option<Result>)
    ensures 0 < |run| <= |obs| + 1 && IsRun(cfg, run, obs[..|run| - 1])
    ensures result.Some? <==> Finished(run[|run| - 1])
    ensures result.None? ==> |run| == |obs| + 1
    ensures result.Some? ==> Truthful(cfg, req, run[|run| - 1], mountCleaned, result.value)
  {
    var s := Initial(cfg);
    run := [s];
    var i := 0;
    assert obs[..0] == [];
    while i < |obs| && !Finished(s)
      invariant i <= |obs| && |run| == i + 1 && s == run[i]
      invariant IsRun(cfg, run, obs[..i])
    {
      var next := LoopBody(cfg, s, obs[i]);
      ExtendRun(cfg, run, obs[..i], next, obs[i]);
      assert obs[..i] + [obs[i]] == obs[..i + 1];
      run := run + [next];
      s := next;
      i := i + 1;
    }
    if !Finished(s) {
      return run, None;
    }
    FinishedIsTruthful(cfg, req, run, obs[..i], i, mountCleaned);
    result := Some(Classify(req, s, mountCleaned));
  }
}
