/**
 What a reported result says about the run that produced it.
 */
module Evidence {
  import opened Options
  import opened ControlRecord
  import opened Child
  import opened Supervisor
  import opened SupervisorInvariant
  import opened SupervisorRuns
  import opened SupervisorBoundaries
  import opened Outcome

  // ----- start evidence ------------------------------------------------------------------------

  lemma StartedIffConfirmed(cfg: Config, req: Request, s: State, mountCleaned: bool)
    requires Inv(cfg, s)
    ensures Started(Classify(req, s, mountCleaned)) <==> s.sup.control.confirmed
  {}

  /** A started kind of result is built exactly from a confirmed exec, at every point of every run. */
  lemma StartedExactly(cfg: Config, req: Request, run: seq<State>, obs: seq<Obs>, i: nat, mountCleaned: bool)
    requires IsRun(cfg, run, obs) && i < |run|
    ensures Started(Classify(req, run[i], mountCleaned)) <==> run[i].sup.control.confirmed
  {
    RunInv(cfg, run, obs, i);
    StartedIffConfirmed(cfg, req, run[i], mountCleaned);
  }

  lemma ConfirmedIff(cfg: Config, s: State)
    requires Inv(cfg, s) && !s.sup.control.open
    ensures s.sup.control.confirmed <==>
            && !s.sup.control.broken
            && (s.w.execd || (KilledBeforeExec(s.w) && s.w.control.sent == []) || ExecReportLost(s.w))
  {
    SilentDeathCauses(s.w);
  }

  lemma ExecAfterSetup(cfg: Config, s: State)
    requires Inv(cfg, s) && s.w.execd
    ensures s.w.done == s.w.plan && s.sup.gate.released && !s.sup.cancel.beforeStart
  {}

  /** Start evidence, over every interleaving: a finished run reports a started program exactly when
      the control pipe was not lost to a hard error and the child executed the interpreter, was killed
      between gate and exec before it could report anything, or failed to execute and could not write
      one byte of its report.  Execution only follows all set-up stages and the gate. */
  lemma StartEvidence(cfg: Config, req: Request, run: seq<State>, obs: seq<Obs>, i: nat, mountCleaned: bool)
    requires IsRun(cfg, run, obs) && i < |run|
    requires Finished(run[i])
    ensures var s := run[i];
            Started(Classify(req, s, mountCleaned)) <==>
            && !s.sup.control.broken
            && (s.w.execd || (KilledBeforeExec(s.w) && s.w.control.sent == []) || ExecReportLost(s.w))
    ensures var s := run[i];
            s.w.execd ==> s.w.done == SetupStages(cfg.isolated) && s.sup.gate.released
  {
    RunInv(cfg, run, obs, i);
    var s := run[i];
    StartedIffConfirmed(cfg, req, s, mountCleaned);
    ConfirmedIff(cfg, s);
    if s.w.execd { ExecAfterSetup(cfg, s); }
  }

  /** A child that was let through the gate, is dead and never executed: every run explains it by a kill
      between gate and exec, or by a failed execveat. */
  lemma DeathAfterGateExplained(cfg: Config, run: seq<State>, obs: seq<Obs>, i: nat)
    requires IsRun(cfg, run, obs) && i < |run|
    requires var w := run[i].w; w.child.Gone? && !w.execd && w.start.sent != []
    ensures var w := run[i].w;
            || KilledBeforeExec(w)
            || (w.reported.Some? && w.reported.value.record.stage == Execute && w.child == Gone(Exited(127)))
  {
    RunInv(cfg, run, obs, i);
  }

  /** The other half of start evidence: when nobody kills the child between gate and exec, and a failed
      execveat can be reported at all, a started result means that the interpreter was executed. */
  lemma StartedMeansExecuted(cfg: Config, req: Request, run: seq<State>, obs: seq<Obs>, i: nat, mountCleaned: bool)
    requires IsRun(cfg, run, obs) && i < |run| && Finished(run[i])
    requires !KilledBeforeExec(run[i].w) && !ExecReportLost(run[i].w)
    requires Started(Classify(req, run[i], mountCleaned))
    ensures run[i].w.execd && run[i].w.done == SetupStages(cfg.isolated) && run[i].sup.gate.released
  {
    StartEvidence(cfg, req, run, obs, i, mountCleaned);
  }

  lemma SignalsSpareTheWindow(cfg: Config, s: State, e: Event)
    requires Inv(cfg, s) && e in s.log && IsSignal(e.what)
    ensures cfg.controlled
    ensures e.world.child.Gone? || e.world.execd || e.world.start.sent == []
    ensures !(e.sup.gate.released && !e.sup.control.confirmed && !e.sup.exit.exited)
    ensures !s.w.execd && s.w.start.sent != [] ==> e.world.child.Gone?
  {}

  /** The supervisor signals nobody while the gate is released, exec is unconfirmed and the child has
      not been seen to exit; a child on its way from gate to exec is never its target.  So when a child
      passed the gate and never executed, every signal of the run was sent after its death: the kill
      that took it came from outside. */
  lemma NoSignalBetweenGateAndExec(cfg: Config, run: seq<State>, obs: seq<Obs>, i: nat, e: Event)
    requires IsRun(cfg, run, obs) && i < |run|
    requires e in run[i].log && IsSignal(e.what)
    ensures cfg.controlled
    ensures e.world.child.Gone? || e.world.execd || e.world.start.sent == []
    ensures !(e.sup.gate.released && !e.sup.control.confirmed && !e.sup.exit.exited)
    ensures !run[i].w.execd && run[i].w.start.sent != [] ==> e.world.child.Gone?
  {
    RunInv(cfg, run, obs, i);
    SignalsSpareTheWindow(cfg, run[i], e);
  }

  // ----- the gate ------------------------------------------------------------------------------

  lemma ShutGateStaysShut(cfg: Config, a: State, b: State)
    requires Inv(cfg, a) && Ahead(cfg, a, b)
    requires a.sup.cancel.observed && !a.sup.gate.released
    ensures !b.sup.gate.released && !b.w.execd
  {}

  /** Cancellation seen before the gate is released: whatever follows, it is never released, and the
      interpreter never runs. */
  lemma CancelledGateStaysShut(cfg: Config, run: seq<State>, obs: seq<Obs>, i: nat, j: nat)
    requires IsRun(cfg, run, obs) && i <= j < |run|
    requires run[i].sup.cancel.observed && !run[i].sup.gate.released
    ensures !run[j].sup.gate.released && !run[j].w.execd
  {
    RunProgress(cfg, run, obs, i, j);
    ShutGateStaysShut(cfg, run[i], run[j]);
  }

  lemma ReleaseIsClean(cfg: Config, s: State, e: Event)
    requires Inv(cfg, s) && e in s.log && e.what == Released
    ensures !e.sup.cancel.observed && !e.world.execd && e.world.done == e.world.plan
  {}

  /** Whenever the start byte is written, every set-up stage has succeeded and cancellation is unobserved. */
  lemma ReleasesAreClean(cfg: Config, run: seq<State>, obs: seq<Obs>, i: nat, e: Event)
    requires IsRun(cfg, run, obs) && i < |run| && e in run[i].log && e.what == Released
    ensures !e.sup.cancel.observed && !e.world.execd && e.world.done == e.world.plan
  {
    RunInv(cfg, run, obs, i);
    ReleaseIsClean(cfg, run[i], e);
  }

  // ----- cancellation and natural exit ---------------------------------------------------------

  predicate Cancelled(r: Result) {
    r.CancelledBeforeStart? || r.CancelledAfterStart?
  }

  lemma ExitFirstIsFinal(cfg: Config, req: Request, a: State, b: State, mountCleaned: bool)
    requires Inv(cfg, a) && Ahead(cfg, a, b)
    requires a.sup.exit.exited && !a.sup.cancel.observed
    ensures !Cancelled(Classify(req, b, mountCleaned))
  {}

  /** An exit observed before any cancellation is never reported as a cancellation, whatever the token
      says afterwards. */
  lemma NaturalExitNotCancelled(
    cfg: Config, req: Request, run: seq<State>, obs: seq<Obs>, i: nat, j: nat, mountCleaned: bool)
    requires IsRun(cfg, run, obs) && i <= j < |run|
    requires run[i].sup.exit.exited && !run[i].sup.cancel.observed
    ensures !Cancelled(Classify(req, run[j], mountCleaned))
  {
    RunProgress(cfg, run, obs, i, j);
    ExitFirstIsFinal(cfg, req, run[i], run[j], mountCleaned);
  }

  /** The one way a seen exit still turns into a cancellation. */
  predicate InStartWindow(s: State) {
    s.sup.cancel.observed && !s.sup.cancel.beforeStart && s.sup.gate.released && !s.sup.cancel.attempted
  }

  lemma PassGateAttempts(cfg: Config, s: State, o: Obs)
    requires s.sup.exit.exited && InStartWindow(s)
    ensures PassGate(cfg, s, o).sup.cancel.attempted <==> s.sup.control.confirmed
  {}

  lemma IterateAttempts(cfg: Config, s: State, o: Obs)
    requires s.sup.exit.exited && InStartWindow(s)
    ensures Iterate(cfg, s, o).sup.cancel.attempted <==> s.sup.control.confirmed && !Finished(s)
  {
    if !Finished(s) {
      PassGateAttempts(cfg, s, o);
      CleanUpUntouched(cfg, PassGate(cfg, s, o), o);
      DrainOnlyReads(CleanUp(cfg, PassGate(cfg, s, o), o), o);
    }
  }

  /** Between iterations, a cancellation observed before the gate has already been signalled. */
  predicate Prompt(s: State) {
    s.sup.cancel.beforeStart ==> s.sup.cancel.attempted
  }

  lemma PassGatePrompt(cfg: Config, s: State, o: Obs)
    requires Inv(cfg, s) && Prompt(s)
    requires cfg.controlled && s.sup.exit.reaped ==> s.past.gaveUp
    ensures Prompt(PassGate(cfg, s, o))
  {
    PassGateReached(cfg, s, o);
  }

  lemma IteratePrompt(cfg: Config, s: State, o: Obs)
    requires Inv(cfg, s) && Settled(cfg, s) && Prompt(s)
    ensures Prompt(Iterate(cfg, s, o))
  {
    if !Finished(s) {
      PassGatePrompt(cfg, s, o);
      CleanUpUntouched(cfg, PassGate(cfg, s, o), o);
      DrainOnlyReads(CleanUp(cfg, PassGate(cfg, s, o), o), o);
    }
  }

  ghost predicate PromptInv(cfg: Config, s: State) {
    Inv(cfg, s) && Settled(cfg, s) && Prompt(s)
  }

  lemma PromptStep(cfg: Config, s: State, o: Obs)
    requires PromptInv(cfg, s)
    ensures PromptInv(cfg, Iterate(cfg, s, o))
  {
    IterateKeeps(cfg, s, o);
    IteratePrompt(cfg, s, o);
  }

  lemma RunPrompt(cfg: Config, run: seq<State>, obs: seq<Obs>, i: nat)
    requires IsRun(cfg, run, obs) && i < |run|
    ensures Prompt(run[i])
  {
    InitialInv(cfg);
    var P := (t: State) => PromptInv(cfg, t);
    forall s, o | P(s) ensures P(Iterate(cfg, s, o)) {
      PromptStep(cfg, s, o);
    }
    RunInduction(cfg, P, run, obs, 0, i);
  }

  lemma StillInWindow(cfg: Config, a: State, b: State)
    requires Inv(cfg, a) && Ahead(cfg, a, b) && Prompt(a) && a.sup.exit.exited && !a.sup.cancel.attempted
    ensures b.sup.exit.exited
    ensures !b.sup.cancel.attempted ==> InStartWindow(b) == InStartWindow(a)
    ensures b.sup.cancel.attempted ==> InStartWindow(a)
  {}

  /** One iteration after a seen exit, in the window: it signals exactly when exec is confirmed. */
  lemma SignalStep(cfg: Config, run: seq<State>, obs: seq<Obs>, i: nat, j: nat)
    requires IsRun(cfg, run, obs) && i <= j < |obs|
    requires run[i].sup.exit.exited && !run[i].sup.cancel.attempted
    ensures run[j + 1].sup.cancel.attempted
            <==> || run[j].sup.cancel.attempted
                 || (InStartWindow(run[i]) && run[j].sup.control.confirmed && !Finished(run[j]))
    ensures run[j].sup.cancel.attempted ==> InStartWindow(run[i])
  {
    RunPrompt(cfg, run, obs, i);
    RunProgress(cfg, run, obs, i, j);
    StillInWindow(cfg, run[i], run[j]);
    RunProgress(cfg, run, obs, i, j + 1);
    StillInWindow(cfg, run[i], run[j + 1]);
    SignalStepAfter(cfg, run, obs, j);
  }

  lemma SignalStepAfter(cfg: Config, run: seq<State>, obs: seq<Obs>, j: nat)
    requires IsRun(cfg, run, obs) && j < |obs|
    ensures run[j].sup.cancel.attempted ==> run[j + 1].sup.cancel.attempted
    ensures run[j].sup.exit.exited && InStartWindow(run[j]) ==>
              (run[j + 1].sup.cancel.attempted <==> run[j].sup.control.confirmed && !Finished(run[j]))
  {
    RunProgress(cfg, run, obs, j, j + 1);
    assert Linked(cfg, run, obs, j);
    if run[j].sup.exit.exited && InStartWindow(run[j]) { IterateAttempts(cfg, run[j], obs[j]); }
  }

  lemma IterateFrozen(cfg: Config, s: State, o: Obs)
    requires !s.sup.control.open
    ensures var t := Iterate(cfg, s, o);
            t.sup.control == s.sup.control && (s.sup.exit.exited ==> t.sup.exit.exited)
  {
    if !Finished(s) {
      var a := PassGate(cfg, s, o);
      PassGateDecides(cfg, s, o);
      BeforeTermLeaves(cfg, s, o);
      CleanUpUntouched(cfg, a, o);
      DrainLeavesDecided(CleanUp(cfg, a, o), o);
      DrainOnlyReads(CleanUp(cfg, a, o), o);
    }
  }

  /** Once the exit has been seen, the control pipe is what it is, and a finished loop stays finished. */
  lemma FrozenAfterExit(cfg: Config, run: seq<State>, obs: seq<Obs>, i: nat, j: nat)
    requires IsRun(cfg, run, obs) && i <= j < |run| && run[i].sup.exit.exited
    ensures run[j].sup.control == run[i].sup.control && !run[i].sup.control.open
    ensures Finished(run[i]) ==> run[j] == run[i]
  {
    RunBoundary(cfg, run, obs, i);
    var P := (t: State) => Boundary(cfg, t) && t.sup.exit.exited && t.sup.control == run[i].sup.control;
    forall s, o | P(s) ensures P(Iterate(cfg, s, o)) {
      IterateKeepsBoundary(cfg, s, o);
      IterateFrozen(cfg, s, o);
    }
    RunInduction(cfg, P, run, obs, i, j);
    if Finished(run[i]) { RunInduction(cfg, (t: State) => t == run[i], run, obs, i, j); }
  }

  /** A control pipe that is closed at a boundary never changes again. */
  lemma ClosedControlStays(cfg: Config, run: seq<State>, obs: seq<Obs>, i: nat, j: nat)
    requires IsRun(cfg, run, obs) && i <= j < |run| && !run[i].sup.control.open
    ensures run[j].sup.control == run[i].sup.control
  {
    var P := (t: State) => t.sup.control == run[i].sup.control;
    forall s, o | P(s) ensures P(Iterate(cfg, s, o)) {
      IterateFrozen(cfg, s, o);
    }
    RunInduction(cfg, P, run, obs, i, j);
  }

  /** From a boundary with the exit seen and no SIGTERM attempted, one goes out later exactly if cancellation
      was observed between gate and exec, the control pipe confirmed exec, and the loop is not over. */
  lemma {:induction false} SignalAfterBoundaryIff(cfg: Config, run: seq<State>, obs: seq<Obs>, i: nat, j: nat)
    requires IsRun(cfg, run, obs) && i < j < |run|
    requires run[i].sup.exit.exited && !run[i].sup.cancel.attempted
    ensures run[j].sup.cancel.attempted
            <==> InStartWindow(run[i]) && run[i].sup.control.confirmed && !Finished(run[i])
    decreases j
  {
    FrozenAfterExit(cfg, run, obs, i, j - 1);
    SignalStep(cfg, run, obs, i, j - 1);
    if i + 1 < j { SignalAfterBoundaryIff(cfg, run, obs, i, j - 1); }
  }

  // ----- the iteration that sees the exit ------------------------------------------------------

  /** This iteration is the one that sees the exit. */
  predicate SeesExit(s: State, o: Obs) {
    !s.sup.exit.exited && LookForExit(s, o).sup.exit.exited
  }

  lemma LookLeaves(s: State, o: Obs)
    ensures var z := LookForExit(s, o); z.sup == s.sup.(exit := z.sup.exit) && z.past == s.past
  {}

  /** What is decided when the exit has just been seen, for the rest of that iteration. */
  lemma DecisionAfterLook(cfg: Config, s: State, o: Obs)
    requires Inv(cfg, s) && Prompt(s) && SeesExit(s, o) && !s.sup.cancel.attempted
    ensures var z, d := LookForExit(s, o), BeforeTerm(cfg, s, o);
            && d.sup.exit.exited && d.sup.cancel == z.sup.cancel
            && (MaySendCancellation(d) <==> InStartWindow(z) && z.sup.control.confirmed)
  {
    LookReached(cfg, s, o);
    LookLeaves(s, o);
    DecisionReached(cfg, s, s, o);
    AheadOfLook(cfg, s, o);
    BeforeTermLeaves(cfg, s, o);
  }

  lemma AheadOfLook(cfg: Config, s: State, o: Obs)
    requires Inv(cfg, s)
    ensures Reached(cfg, LookForExit(s, o), BeforeTerm(cfg, s, o))
  {
    LookReached(cfg, s, o);
    DecisionReached(cfg, LookForExit(s, o), s, o);
  }

  lemma SeeingIteration(cfg: Config, s: State, o: Obs)
    requires Boundary(cfg, s) && Prompt(s) && SeesExit(s, o) && !s.sup.cancel.attempted
    ensures var z, t := LookForExit(s, o), Iterate(cfg, s, o);
            && t.sup.exit.exited
            && t.sup.cancel.observed == z.sup.cancel.observed && t.sup.cancel.beforeStart == z.sup.cancel.beforeStart
            && (t.sup.cancel.attempted <==> InStartWindow(z) && z.sup.control.confirmed)
  {
    DecisionAfterLook(cfg, s, o);
    var a := PassGate(cfg, s, o);
    CleanUpUntouched(cfg, a, o);
    DrainOnlyReads(CleanUp(cfg, a, o), o);
  }

  /** Everything after the look of a seeing iteration only goes forward from there. */
  lemma AheadFromLook(cfg: Config, s: State, o: Obs)
    requires Boundary(cfg, s) && SeesExit(s, o)
    ensures Progress(cfg, LookForExit(s, o), Iterate(cfg, s, o))
  {
    var z, d := LookForExit(s, o), BeforeTerm(cfg, s, o);
    AheadOfLook(cfg, s, o);
    BeforeTermLeaves(cfg, s, o);
    SendCancellationReached(cfg, z, d, o.cancelSignals, Slot(o, 5));
    var a := PassGate(cfg, s, o);
    CleanUpReached(cfg, a, o);
    ProgressTransitive(cfg, z, a, CleanUp(cfg, a, o));
    DrainReached(cfg, z, CleanUp(cfg, a, o), o);
  }

  /** A cancellation SIGTERM that was sent although the exit had been seen. */
  ghost predicate HasLateTerm(s: State) {
    exists e :: e in s.log && e.what == CancelTerm && e.sup.exit.exited
  }

  lemma TermLogged(cfg: Config, s: State, o: Obs)
    requires !s.sup.cancel.attempted && Iterate(cfg, s, o).sup.cancel.attempted
    requires BeforeTerm(cfg, s, o).sup.exit.exited
    ensures HasLateTerm(Iterate(cfg, s, o))
  {
    var d := BeforeTerm(cfg, s, o);
    var a := PassGate(cfg, s, o);
    BeforeTermLeaves(cfg, s, o);
    CleanUpUntouched(cfg, a, o);
    DrainOnlyReads(CleanUp(cfg, a, o), o);
    var e := Event(CancelTerm, d.sup, d.w);
    assert a.log[|d.log|] == e;
    assert CleanUp(cfg, a, o).log[|d.log|] == e;
  }

  /** After a seen exit, every SIGTERM of cancellation is a late one. */
  ghost predicate OnlyLateTerms(s: State) {
    s.sup.exit.exited && (s.sup.cancel.attempted ==> HasLateTerm(s))
  }

  lemma LateTermStays(a: State, b: State)
    requires HasLateTerm(a) && a.log <= b.log
    ensures HasLateTerm(b)
  {
    var e :| e in a.log && e.what == CancelTerm && e.sup.exit.exited;
    assert e in b.log;
  }

  lemma LateStep(cfg: Config, s: State, o: Obs)
    requires Boundary(cfg, s) && OnlyLateTerms(s)
    ensures OnlyLateTerms(Iterate(cfg, s, o))
  {
    var t := Iterate(cfg, s, o);
    IterateKeeps(cfg, s, o);
    if s.sup.cancel.attempted {
      LateTermStays(s, t);
    } else if t.sup.cancel.attempted {
      BeforeTermLeaves(cfg, s, o);
      TermLogged(cfg, s, o);
    }
  }

  lemma LateTermsOnly(cfg: Config, run: seq<State>, obs: seq<Obs>, i: nat, j: nat)
    requires IsRun(cfg, run, obs) && i <= j < |run| && OnlyLateTerms(run[i])
    ensures OnlyLateTerms(run[j])
  {
    RunBoundary(cfg, run, obs, i);
    var P := (t: State) => Boundary(cfg, t) && OnlyLateTerms(t);
    forall s, o | P(s) ensures P(Iterate(cfg, s, o)) {
      IterateKeepsBoundary(cfg, s, o);
      LateStep(cfg, s, o);
    }
    RunInduction(cfg, P, run, obs, i, j);
  }

  lemma LateTermAttempts(cfg: Config, s: State)
    requires Boundary(cfg, s) && HasLateTerm(s)
    ensures s.sup.cancel.attempted
  {
    var e :| e in s.log && e.what == CancelTerm && e.sup.exit.exited;
    TermIsUnforced(cfg, s, e);
  }

  /** What the iteration that sees the exit leaves of the state `z` in which it sees it. */
  ghost predicate Follows(z: State, t: State) {
    && OnlyLateTerms(t)
    && (t.sup.cancel.attempted <==> InStartWindow(z) && z.sup.control.confirmed)
    && (!t.sup.cancel.attempted ==> (InStartWindow(t) <==> InStartWindow(z)))
  }

  lemma SeeingFollows(cfg: Config, s: State, o: Obs)
    requires Boundary(cfg, s) && Prompt(s) && SeesExit(s, o) && !s.sup.cancel.attempted
    ensures Follows(LookForExit(s, o), Iterate(cfg, s, o))
  {
    SeeingIteration(cfg, s, o);
    DecisionAfterLook(cfg, s, o);
    if Iterate(cfg, s, o).sup.cancel.attempted {
      TermLogged(cfg, s, o);
    } else {
      WindowAfterLook(cfg, s, o);
    }
  }

  lemma WindowAfterLook(cfg: Config, s: State, o: Obs)
    requires Boundary(cfg, s) && Prompt(s) && SeesExit(s, o) && !s.sup.cancel.attempted
    requires !Iterate(cfg, s, o).sup.cancel.attempted
    ensures InStartWindow(LookForExit(s, o)) <==> InStartWindow(Iterate(cfg, s, o))
  {
    SeeingIteration(cfg, s, o);
    LookReached(cfg, s, o);
    LookLeaves(s, o);
    IterateKeeps(cfg, s, o);
  }

  lemma RunFollows(cfg: Config, run: seq<State>, obs: seq<Obs>, n: nat)
    requires IsRun(cfg, run, obs) && n < |obs| && SeesExit(run[n], obs[n]) && !run[n].sup.cancel.attempted
    ensures Follows(LookForExit(run[n], obs[n]), run[n + 1])
  {
    RunBoundary(cfg, run, obs, n);
    RunPrompt(cfg, run, obs, n);
    assert Linked(cfg, run, obs, n);
    SeeingFollows(cfg, run[n], obs[n]);
  }

  lemma LateIsAttempted(cfg: Config, run: seq<State>, obs: seq<Obs>, i: nat, j: nat)
    requires IsRun(cfg, run, obs) && i <= j < |run| && OnlyLateTerms(run[i])
    ensures HasLateTerm(run[j]) <==> run[j].sup.cancel.attempted
  {
    LateTermsOnly(cfg, run, obs, i, j);
    if HasLateTerm(run[j]) {
      RunBoundary(cfg, run, obs, j);
      LateTermAttempts(cfg, run[j]);
    }
  }

  lemma AttemptedFrom(cfg: Config, run: seq<State>, obs: seq<Obs>, n: nat, j: nat, z: State)
    requires IsRun(cfg, run, obs) && n < j < |run| && Follows(z, run[n + 1])
    ensures run[j].sup.cancel.attempted <==>
            && InStartWindow(z)
            && (z.sup.control.confirmed || (n + 1 < j && run[n + 1].sup.control.confirmed && !Finished(run[n + 1])))
  {
    if run[n + 1].sup.cancel.attempted {
      RunProgress(cfg, run, obs, n + 1, j);
    } else if n + 1 < j {
      SignalAfterBoundaryIff(cfg, run, obs, n + 1, j);
    }
  }

  /** Exactly when the cancellation SIGTERM follows a seen exit, read off the state `z` in which the exit is
      seen, inside its iteration `n`: cancellation was observed between gate and exec, and exec is confirmed
      there -- then the SIGTERM goes out in the same iteration -- or is confirmed when that iteration ends
      without ending the loop. */
  lemma SignalAfterExitIff(cfg: Config, run: seq<State>, obs: seq<Obs>, n: nat, j: nat)
    requires IsRun(cfg, run, obs) && n < j < |run|
    requires SeesExit(run[n], obs[n]) && !run[n].sup.cancel.attempted
    ensures var z := LookForExit(run[n], obs[n]);
            HasLateTerm(run[j]) <==>
            && InStartWindow(z)
            && (z.sup.control.confirmed || (n + 1 < j && run[n + 1].sup.control.confirmed && !Finished(run[n + 1])))
  {
    RunFollows(cfg, run, obs, n);
    LateIsAttempted(cfg, run, obs, n + 1, j);
    AttemptedFrom(cfg, run, obs, n, j, LookForExit(run[n], obs[n]));
  }

  // ----- escalation ----------------------------------------------------------------------------

  /** No SIGKILL of a run precedes its cancellation SIGTERM. */
  lemma NoKillBeforeTerm(cfg: Config, run: seq<State>, obs: seq<Obs>, i: nat, p: nat, q: nat)
    requires IsRun(cfg, run, obs) && i < |run| && p < q < |run[i].log|
    requires run[i].log[q].what == CancelTerm
    ensures run[i].log[p].what != Kill && !run[i].log[q].sup.cleanup.forced
  {
    RunBoundary(cfg, run, obs, i);
  }

  lemma TermIsUnforced(cfg: Config, s: State, a: Event)
    requires Boundary(cfg, s) && a in s.log && a.what == CancelTerm
    ensures !a.sup.cleanup.forced
  {
    var q :| 0 <= q < |s.log| && s.log[q] == a;
  }

  lemma GraceHolds(cfg: Config, s: State, a: Event, k: Event)
    requires Inv(cfg, s) && a in s.log && FirstTerm(a) && k in s.log && k.what == Kill
    ensures k.world.clock >= EarliestKill(cfg, a)
  {}

  /** No SIGKILL of a run, at any of its sites, is earlier than the cancellation SIGTERM allows ... */
  lemma KillsWait(cfg: Config, run: seq<State>, obs: seq<Obs>, i: nat, a: Event, k: Event)
    requires IsRun(cfg, run, obs) && i < |run|
    requires a in run[i].log && a.what == CancelTerm
    requires k in run[i].log && k.what == Kill
    ensures k.world.clock >= EarliestKill(cfg, a)
  {
    RunBoundary(cfg, run, obs, i);
    TermIsUnforced(cfg, run[i], a);
    GraceHolds(cfg, run[i], a, k);
  }

  /** ... so when it goes out before cleanup has started, none is earlier than the sealed grace period
      after it. */
  lemma GracePeriodKept(cfg: Config, run: seq<State>, obs: seq<Obs>, i: nat, a: Event, k: Event)
    requires IsRun(cfg, run, obs) && i < |run|
    requires a in run[i].log && a.what == CancelTerm && !a.sup.cleanup.started
    requires k in run[i].log && k.what == Kill
    ensures k.world.clock >= a.world.clock + cfg.grace
  {
    KillsWait(cfg, run, obs, i, a, k);
  }

  lemma CountsBounded(cfg: Config, s: State)
    requires Inv(cfg, s)
    ensures s.past.flips <= 1 && s.past.moves <= 1 && (s.past.moves == 1 ==> s.sup.cleanup.forced)
  {}

  /** Forced signalling is switched on at most once, and once cleanup has started its deadline moves at
      most once, together with that switch. */
  lemma EscalationHappensOnce(cfg: Config, run: seq<State>, obs: seq<Obs>, i: nat)
    requires IsRun(cfg, run, obs) && i < |run|
    ensures var p := run[i].past; p.flips <= 1 && p.moves <= 1
  {
    RunInv(cfg, run, obs, i);
    CountsBounded(cfg, run[i]);
  }

  // ----- the leader is reaped in time -----------------------------------------------------------

  lemma PassGateLeavesCleanup(cfg: Config, s: State, o: Obs)
    requires CleaningUp(cfg, s)
    ensures var t := PassGate(cfg, s, o);
            CleaningUp(cfg, t) && t.sup.cleanup == s.sup.cleanup.(failed := t.sup.cleanup.failed)
  {
    BeforeTermLeaves(cfg, s, o);
  }

  /** From the clock reading to the scan, past the deadline: either the leader is reaped or the group
      has just been given its last second. */
  lemma CleanUpPastDeadline(cfg: Config, s: State, o: Obs)
    requires CleaningUp(cfg, s) && Passed(s.sup.cleanup.deadline, CleanUp(cfg, s, o).past.now)
    ensures var t := CleanUp(cfg, s, o);
            || t.sup.exit.reaped
            || (!s.sup.cleanup.forced && t.sup.cleanup.forced && t.sup.cleanup.deadline == At(t.past.now + 1000))
  {}

  lemma BodyPastDeadline(cfg: Config, s: State, o: Obs)
    requires CleaningUp(cfg, s) && Passed(s.sup.cleanup.deadline, Drain(CleanUp(cfg, s, o), o).past.now)
    ensures var t := Drain(CleanUp(cfg, s, o), o);
            || t.sup.exit.reaped
            || (!s.sup.cleanup.forced && t.sup.cleanup.forced && t.sup.cleanup.deadline == At(t.past.now + 1000))
  {
    DrainOnlyReads(CleanUp(cfg, s, o), o);
    CleanUpPastDeadline(cfg, s, o);
  }

  /** An iteration from `s` to `t` whose clock reading has reached the deadline. */
  predicate DeadlineReached(cfg: Config, s: State, t: State) {
    CleaningUp(cfg, s) && Passed(s.sup.cleanup.deadline, t.past.now)
  }

  /** It reaps the leader, or sends the first SIGKILL and sets the final deadline. */
  predicate Escalated(s: State, t: State) {
    || t.sup.exit.reaped
    || (!s.sup.cleanup.forced && t.sup.cleanup.forced && t.sup.cleanup.deadline == At(t.past.now + 1000))
  }

  lemma IteratePastDeadline(cfg: Config, s: State, o: Obs, t: State)
    requires t == Iterate(cfg, s, o) && DeadlineReached(cfg, s, t)
    ensures Escalated(s, t)
  {
    if !Finished(s) {
      PassGateLeavesCleanup(cfg, s, o);
      BodyPastDeadline(cfg, PassGate(cfg, s, o), o);
    }
  }

  lemma StillLastSecond(cfg: Config, a: State, b: State)
    requires Inv(cfg, a) && Ahead(cfg, a, b) && CleaningUp(cfg, a)
    requires a.sup.cleanup.forced && !b.sup.exit.reaped
    ensures b.sup.cleanup.forced && b.sup.cleanup.deadline == a.sup.cleanup.deadline
    ensures b.sup.cleanup.started && b.sup.exit.exited
  {}

  /** Between iterations, cleanup that is complete has already reaped the leader. */
  lemma CompleteIsReaped(cfg: Config, run: seq<State>, obs: seq<Obs>, i: nat)
    requires IsRun(cfg, run, obs) && i < |run|
    requires cfg.controlled && run[i].sup.cleanup.complete
    ensures run[i].sup.exit.reaped
  {
    InitialInv(cfg);
    var P := (t: State) => ReapedInv(cfg, t);
    forall s, o | P(s) ensures P(Iterate(cfg, s, o)) {
      ReapedStep(cfg, s, o);
    }
    RunInduction(cfg, P, run, obs, 0, i);
  }

  ghost predicate ReapedInv(cfg: Config, s: State) {
    && Inv(cfg, s) && Settled(cfg, s)
    && (cfg.controlled && s.sup.cleanup.complete ==> s.sup.exit.reaped)
  }

  lemma ReapedStep(cfg: Config, s: State, o: Obs)
    requires ReapedInv(cfg, s)
    ensures ReapedInv(cfg, Iterate(cfg, s, o))
  {
    IterateKeeps(cfg, s, o);
    if cfg.controlled { IterateCompletes(cfg, s, o); }
  }

  lemma IterateCompletes(cfg: Config, s: State, o: Obs)
    requires Inv(cfg, s) && Settled(cfg, s) && cfg.controlled
    requires s.sup.cleanup.complete ==> s.sup.exit.reaped
    ensures var t := Iterate(cfg, s, o); t.sup.cleanup.complete ==> t.sup.exit.reaped
  {
    if !Finished(s) {
      var a := PassGate(cfg, s, o);
      PassGateReached(cfg, s, o);
      CleanUpReached(cfg, a, o);
      CleanUpCompletes(cfg, a, o);
      DrainOnlyReads(CleanUp(cfg, a, o), o);
    }
  }

  lemma CleanUpCompletes(cfg: Config, s: State, o: Obs)
    requires cfg.controlled && Inv(cfg, CleanUp(cfg, s, o))
    ensures var t := CleanUp(cfg, s, o); t.sup.cleanup.complete ==> t.sup.exit.reaped
  {}

  lemma NotReapedStillCleaning(cfg: Config, run: seq<State>, obs: seq<Obs>, i: nat)
    requires IsRun(cfg, run, obs) && i < |run|
    requires run[i].sup.cleanup.started && !run[i].sup.exit.reaped
    ensures CleaningUp(cfg, run[i])
  {
    RunInv(cfg, run, obs, i);
    if run[i].sup.cleanup.complete { CompleteIsReaped(cfg, run, obs, i); }
  }

  /** The group is in its last second: SIGKILL has been sent and the final deadline is `d`. */
  predicate InLastSecond(cfg: Config, s: State, d: Deadline) {
    CleaningUp(cfg, s) && s.sup.cleanup.forced && s.sup.cleanup.deadline == d
  }

  lemma LinkPastDeadline(cfg: Config, run: seq<State>, obs: seq<Obs>, i: nat)
    requires IsRun(cfg, run, obs) && i < |obs| && DeadlineReached(cfg, run[i], run[i + 1])
    ensures Escalated(run[i], run[i + 1])
  {
    assert Linked(cfg, run, obs, i);
    IteratePastDeadline(cfg, run[i], obs[i], run[i + 1]);
  }

  lemma LastSecondStarts(cfg: Config, run: seq<State>, obs: seq<Obs>, i: nat)
    requires IsRun(cfg, run, obs) && i < |obs|
    requires DeadlineReached(cfg, run[i], run[i + 1])
    ensures || run[i + 1].sup.exit.reaped
            || (!run[i].sup.cleanup.forced && InLastSecond(cfg, run[i + 1], At(run[i + 1].past.now + 1000)))
  {
    LinkPastDeadline(cfg, run, obs, i);
    RunProgress(cfg, run, obs, i, i + 1);
    if !run[i + 1].sup.exit.reaped { NotReapedStillCleaning(cfg, run, obs, i + 1); }
  }

  lemma LastSecondContinues(cfg: Config, run: seq<State>, obs: seq<Obs>, i: nat, j: nat, d: Deadline)
    requires IsRun(cfg, run, obs) && i <= j < |run|
    requires InLastSecond(cfg, run[i], d)
    ensures run[j].sup.exit.reaped || InLastSecond(cfg, run[j], d)
  {
    RunProgress(cfg, run, obs, i, j);
    if !run[j].sup.exit.reaped {
      StillLastSecond(cfg, run[i], run[j]);
      NotReapedStillCleaning(cfg, run, obs, j);
    }
  }

  lemma ReapedStays(cfg: Config, run: seq<State>, obs: seq<Obs>, i: nat, j: nat)
    requires IsRun(cfg, run, obs) && i <= j < |run| && run[i].sup.exit.reaped
    ensures run[j].sup.exit.reaped
  {
    RunProgress(cfg, run, obs, i, j);
  }

  /** Bounded escalation.  Once an iteration reads the clock at or past the cleanup deadline, the leader
      is reaped by the end of the first later iteration that reads it a second after that -- and at once
      if SIGKILL had already been sent. */
  lemma LeaderReapedInTime(cfg: Config, run: seq<State>, obs: seq<Obs>, i: nat, j: nat)
    requires IsRun(cfg, run, obs) && i < j < |obs|
    requires DeadlineReached(cfg, run[i], run[i + 1])
    requires run[j + 1].past.now >= run[i + 1].past.now + 1000
    ensures run[i].sup.cleanup.forced ==> run[i + 1].sup.exit.reaped
    ensures run[j + 1].sup.exit.reaped
  {
    var d := At(run[i + 1].past.now + 1000);
    LastSecondStarts(cfg, run, obs, i);
    if run[i + 1].sup.exit.reaped {
      ReapedStays(cfg, run, obs, i + 1, j + 1);
    } else {
      LastSecondContinues(cfg, run, obs, i + 1, j, d);
      if run[j].sup.exit.reaped {
        ReapedStays(cfg, run, obs, j, j + 1);
      } else {
        LastSecondStarts(cfg, run, obs, j);
      }
    }
  }

  /** A seen exit has started cleanup, with a deadline within the grace period or a second, whichever is
      longer, of the clock reading. */
  lemma ExitStartsCleanup(cfg: Config, run: seq<State>, obs: seq<Obs>, i: nat)
    requires IsRun(cfg, run, obs) && i < |run|
    requires cfg.controlled && run[i].sup.exit.exited
    ensures run[i].sup.cleanup.started && NoLaterThan(run[i].sup.cleanup.deadline, run[i].past.now + Longest(cfg))
    ensures run[i].sup.exit.reaped || CleaningUp(cfg, run[i])
  {
    RunBoundary(cfg, run, obs, i);
    if !run[i].sup.exit.reaped { NotReapedStillCleaning(cfg, run, obs, i); }
  }

  /** How much escalation is left: SIGKILL and giving up, giving up, nothing. */
  function EscalationLeft(s: State): nat {
    if s.sup.exit.reaped then 0 else if s.sup.cleanup.forced then 1 else 2
  }

  /** After a seen exit the measure never grows, and every iteration that reads the clock at or past the
      deadline makes it smaller until the leader is reaped. */
  lemma EscalationFalls(cfg: Config, run: seq<State>, obs: seq<Obs>, i: nat)
    requires IsRun(cfg, run, obs) && i < |obs|
    requires cfg.controlled && run[i].sup.exit.exited
    ensures run[i].sup.cleanup.deadline.At?
    ensures EscalationLeft(run[i + 1]) <= EscalationLeft(run[i])
    ensures run[i + 1].past.now >= run[i].sup.cleanup.deadline.time && !run[i].sup.exit.reaped ==>
              EscalationLeft(run[i + 1]) < EscalationLeft(run[i])
  {
    ExitStartsCleanup(cfg, run, obs, i);
    RunProgress(cfg, run, obs, i, i + 1);
    if run[i + 1].past.now >= run[i].sup.cleanup.deadline.time && !run[i].sup.exit.reaped {
      LinkPastDeadline(cfg, run, obs, i);
    }
  }

  lemma LaterReading(cfg: Config, run: seq<State>, obs: seq<Obs>, i: nat)
    requires IsRun(cfg, run, obs) && i < |obs|
    ensures run[i].past.now <= run[i + 1].past.now
  {
    RunBoundary(cfg, run, obs, i);
    assert Linked(cfg, run, obs, i);
    if !Finished(run[i]) { IterateTimed(cfg, run[i], obs[i]); }
  }

  /** A forced cleanup gives the group one second from the reading of the SIGKILL. */
  lemma ForcedEnds(cfg: Config, run: seq<State>, obs: seq<Obs>, j: nat, k: nat)
    requires IsRun(cfg, run, obs) && j <= k < |obs| && cfg.controlled && run[j].sup.exit.exited
    requires run[j].sup.cleanup.forced && run[k + 1].past.now >= run[j].past.now + 1000
    ensures run[k + 1].sup.exit.reaped
  {
    RunBoundary(cfg, run, obs, j);
    ExitStartsCleanup(cfg, run, obs, j);
    if run[j].sup.exit.reaped {
      ReapedStays(cfg, run, obs, j, k + 1);
    } else {
      LastSecondContinues(cfg, run, obs, j, k, run[j].sup.cleanup.deadline);
      if run[k].sup.exit.reaped {
        ReapedStays(cfg, run, obs, k, k + 1);
      } else {
        LinkPastDeadline(cfg, run, obs, k);
      }
    }
  }

  /** Reaping is bounded from the exit: after an iteration that reads the clock at or past the deadline
      cleanup has when the exit is seen, the first one that reads it a second later has reaped the leader. */
  lemma ReapedAfterExit(cfg: Config, run: seq<State>, obs: seq<Obs>, i: nat, j: nat, k: nat)
    requires IsRun(cfg, run, obs) && i <= j < k < |obs|
    requires cfg.controlled && run[i].sup.exit.exited
    requires Passed(run[i].sup.cleanup.deadline, run[j + 1].past.now)
    requires run[k + 1].past.now >= run[j + 1].past.now + 1000
    ensures run[k + 1].sup.exit.reaped
  {
    ExitStartsCleanup(cfg, run, obs, i);
    RunProgress(cfg, run, obs, i, j);
    ExitStartsCleanup(cfg, run, obs, j);
    if run[j].sup.exit.reaped {
      ReapedStays(cfg, run, obs, j, k + 1);
    } else if run[j].sup.cleanup.forced && !run[i].sup.cleanup.forced {
      LaterReading(cfg, run, obs, j);
      ForcedEnds(cfg, run, obs, j, k);
    } else {
      LeaderReapedInTime(cfg, run, obs, j, k);
    }
  }

  /** The same, counted from the clock reading with which the exit is seen. */
  lemma ReapedWithinBound(cfg: Config, run: seq<State>, obs: seq<Obs>, i: nat, j: nat, k: nat)
    requires IsRun(cfg, run, obs) && i <= j < k < |obs|
    requires cfg.controlled && run[i].sup.exit.exited
    requires run[j + 1].past.now >= run[i].past.now + Longest(cfg)
    requires run[k + 1].past.now >= run[j + 1].past.now + 1000
    ensures run[k + 1].sup.exit.reaped
  {
    ExitStartsCleanup(cfg, run, obs, i);
    ReapedAfterExit(cfg, run, obs, i, j, k);
  }

  // ----- cleanup -------------------------------------------------------------------------------

  lemma EmptyStaysEmpty(cfg: Config, a: State, b: State, steps: seq<Step>)
    requires Inv(cfg, a) && Ahead(cfg, a, b)
    requires cfg.controlled && a.sup.cleanup.complete && !a.past.gaveUp
    ensures b.w.members == {} && b.w.child.Gone?
    ensures Interfere(b.w, steps).members == {}
    ensures exists e :: e in a.log && e.what == Scan(true) && e.world.child.Gone? && e.world.members == {}
  {
    InterfereFacts(b.w, steps);
    var e :| e in a.log && e.what == Scan(true);
    assert EventOk(cfg, e);
  }

  /** Cleanup of a controlled run that completed without being given up -- in particular every verified
      one -- is permanent: a scan found the group empty with the leader already dead, and no schedule
      from there on ever puts a process into the group again. */
  lemma VerifiedCleanupIsPermanent(cfg: Config, run: seq<State>, obs: seq<Obs>, i: nat, j: nat, steps: seq<Step>)
    requires IsRun(cfg, run, obs) && i <= j < |run|
    requires cfg.controlled && run[i].sup.cleanup.complete && !run[i].past.gaveUp
    ensures run[j].w.members == {}
    ensures Interfere(run[j].w, steps).members == {}
    ensures exists e :: e in run[i].log && e.what == Scan(true) && e.world.child.Gone? && e.world.members == {}
  {
    RunProgress(cfg, run, obs, i, j);
    EmptyStaysEmpty(cfg, run[i], run[j], steps);
  }

  lemma VerifiedWasNotGivenUp(cfg: Config, s: State, mountCleaned: bool)
    requires Inv(cfg, s) && Verified(s, mountCleaned)
    ensures s.sup.cleanup.complete && !s.past.gaveUp
  {}

  /** What a verified cleanup in the result of a controlled run is worth: nobody but the leader is in the
      group then or ever after. */
  lemma VerifiedMeansGone(
    cfg: Config, run: seq<State>, obs: seq<Obs>, i: nat, j: nat, steps: seq<Step>, mountCleaned: bool)
    requires IsRun(cfg, run, obs) && i <= j < |run|
    requires cfg.controlled && Verified(run[i], mountCleaned)
    ensures run[i].sup.exit.reaped && run[j].w.members == {} && Interfere(run[j].w, steps).members == {}
  {
    RunInv(cfg, run, obs, i);
    VerifiedWasNotGivenUp(cfg, run[i], mountCleaned);
    VerifiedCleanupIsPermanent(cfg, run, obs, i, j, steps);
    CompleteIsReaped(cfg, run, obs, i);
  }

  lemma EventsAroundReap(cfg: Config, s: State, e: Event)
    requires Inv(cfg, s) && e in s.log
    ensures e.what == Reap && cfg.controlled ==> e.sup.cleanup.complete
  {}

  /** The leader is reaped only after cleanup is complete, and from then on the group is neither scanned
      nor signalled again.  Unless cleanup was given up, the reaping iteration drains every pipe to its end
      and leaves the loop. */
  lemma NothingAfterReaping(cfg: Config, run: seq<State>, obs: seq<Obs>, i: nat, e: Event)
    requires IsRun(cfg, run, obs) && i < |run|
    requires e in run[i].log
    ensures IsSignal(e.what) || e.what.Scan? ==> !e.sup.exit.reaped
    ensures e.what == Reap && cfg.controlled ==> e.sup.cleanup.complete
    ensures cfg.controlled && run[i].sup.exit.reaped && !run[i].past.gaveUp ==> Finished(run[i])
  {
    RunBoundary(cfg, run, obs, i);
    EventsAroundReap(cfg, run[i], e);
    var q :| 0 <= q < |run[i].log| && run[i].log[q] == e;
  }

  // ----- captured bytes and the control record -------------------------------------------------

  lemma CaptureWhole(cfg: Config, s: State, steps: seq<Step>)
    requires Inv(cfg, s) && !s.sup.captureFailed
    ensures !s.sup.output.open ==> Interfere(s.w, steps).output.sent == s.w.output.sent == s.sup.output.text
    ensures !s.sup.error.open ==> Interfere(s.w, steps).error.sent == s.w.error.sent == s.sup.error.text
  {
    InterfereFacts(s.w, steps);
  }

  /** For every chunking, interruption and interleaving: a finished run without a capture failure holds
      exactly the bytes written to each stream, and no schedule can add to them any more. */
  lemma CaptureIsComplete(cfg: Config, run: seq<State>, obs: seq<Obs>, i: nat, steps: seq<Step>)
    requires IsRun(cfg, run, obs) && i < |run|
    requires Finished(run[i]) && !run[i].sup.captureFailed
    ensures var s := run[i];
            s.sup.output.text == s.w.output.sent == Interfere(s.w, steps).output.sent
    ensures var s := run[i];
            s.sup.error.text == s.w.error.sent == Interfere(s.w, steps).error.sent
  {
    RunInv(cfg, run, obs, i);
    CaptureWhole(cfg, run[i], steps);
  }

  lemma BufferIsPrefix(cfg: Config, s: State)
    requires Inv(cfg, s) && s.sup.control.bytes != []
    ensures s.w.reported.Some? && s.sup.control.bytes <= Encode(s.w.reported.value.record)
  {}

  function DecodedRecord(r: Record): Decoded {
    Decoded(StageCode(r.stage), r.value, r.detail)
  }

  lemma FullBuffer(cfg: Config, req: Request, s: State, mountCleaned: bool)
    requires Inv(cfg, s) && |s.sup.control.bytes| == RECORD_SIZE
    ensures s.w.reported.Some?
    ensures Decode(s.sup.control.bytes) == DecodedRecord(s.w.reported.value.record)
    ensures Classify(req, s, mountCleaned)
            == FailedBeforeStart(ChildFailureKind(DecodedRecord(s.w.reported.value.record)), [])
  {
    BufferIsPrefix(cfg, s);
    assert s.sup.control.bytes == Encode(s.w.reported.value.record);
    RecordRoundTrip(s.w.reported.value.record);
  }

  /** The control buffer is always a prefix of the one record the child set out to report; a full buffer
      decodes to exactly that stage, errno and detail, and decides the failure kind. */
  lemma ControlRecordIsTheChilds(cfg: Config, req: Request, run: seq<State>, obs: seq<Obs>, i: nat, mountCleaned: bool)
    requires IsRun(cfg, run, obs) && i < |run|
    requires run[i].sup.control.bytes != []
    ensures var s := run[i];
            s.w.reported.Some? && s.sup.control.bytes <= Encode(s.w.reported.value.record)
    ensures var s := run[i];
            |s.sup.control.bytes| == RECORD_SIZE ==>
              && Decode(s.sup.control.bytes) == DecodedRecord(s.w.reported.value.record)
              && Classify(req, s, mountCleaned)
                 == FailedBeforeStart(ChildFailureKind(DecodedRecord(s.w.reported.value.record)), [])
  {
    RunInv(cfg, run, obs, i);
    BufferIsPrefix(cfg, run[i]);
    if |run[i].sup.control.bytes| == RECORD_SIZE { FullBuffer(cfg, req, run[i], mountCleaned); }
  }

  // ----- what success and cancellation promise -------------------------------------------------

  function Wanted(wanted: bool, bytes: seq<Byte>): Option<seq<Byte>> {
    if wanted then Some(bytes) else None
  }

  lemma GoodResult(cfg: Config, req: Request, s: State, mountCleaned: bool)
    requires Inv(cfg, s) && Finished(s)
    requires var r := Classify(req, s, mountCleaned); r.Succeeded? || r.CancelledAfterStart?
    ensures Verified(s, mountCleaned) && !s.past.gaveUp
    ensures var r := Classify(req, s, mountCleaned);
            && r.established == req.required
            && r.output == Wanted(req.captureOutput, s.w.output.sent)
            && r.error == Wanted(req.captureError, s.w.error.sent)
            && (r.Succeeded? ==> s.w.child == Gone(Exited(0)))
            && (r.CancelledAfterStart? ==>
                  s.sup.cancel.observed && s.sup.cancel.delivered && !s.sup.cancel.beforeStart
                  && r.forced == s.sup.cleanup.forced)
  {
    CaptureWhole(cfg, s, []);
  }

  /** A succeeded or cancelled-after-start result has verified cleanup, both captures whole, and all
      required guarantees; success also means the leader exited with status 0. */
  lemma GoodResultsAreBacked(cfg: Config, req: Request, run: seq<State>, obs: seq<Obs>, i: nat, mountCleaned: bool)
    requires IsRun(cfg, run, obs) && i < |run|
    requires Finished(run[i])
    requires var r := Classify(req, run[i], mountCleaned); r.Succeeded? || r.CancelledAfterStart?
    ensures Verified(run[i], mountCleaned) && !run[i].past.gaveUp
    ensures var s := run[i];
            var r := Classify(req, s, mountCleaned);
            && r.established == req.required
            && r.output == Wanted(req.captureOutput, s.w.output.sent)
            && r.error == Wanted(req.captureError, s.w.error.sent)
            && (r.Succeeded? ==> s.w.child == Gone(Exited(0)))
            && (r.CancelledAfterStart? ==>
                  s.sup.cancel.observed && s.sup.cancel.delivered && r.forced == s.sup.cleanup.forced)
  {
    RunInv(cfg, run, obs, i);
    GoodResult(cfg, req, run[i], mountCleaned);
  }

  /** The reason a started run is reported as failed for, in terms of the run. */
  predicate Explained(s: State, verified: bool, termination: Termination, kind: FailureKind) {
    match kind
    case LogCaptureFailed => s.sup.captureFailed
    case CleanupFailed => !s.sup.captureFailed && !verified
    case ProgramExitedNonzero =>
      !s.sup.captureFailed && verified && !s.sup.cancel.delivered && termination.Exited? && termination.code != 0
    case ProgramTerminatedBySignal =>
      !s.sup.captureFailed && verified && !s.sup.cancel.delivered && termination.Signaled?
    case _ => false
  }

  lemma FailureExplained(cfg: Config, req: Request, s: State, mountCleaned: bool)
    requires Inv(cfg, s) && Finished(s) && Classify(req, s, mountCleaned).FailedAfterStart?
    ensures var r, verified := Classify(req, s, mountCleaned), Verified(s, mountCleaned);
            && s.w.child == Gone(r.termination) && r.cleanup == verified
            && Explained(s, verified, r.termination, r.kind)
            && r.established == Established(req, s.sup.captureFailed, verified)
            && r.output == Kept(s, req.captureOutput, s.w.output.sent)
            && r.error == Kept(s, req.captureError, s.w.error.sent)
  {
    if !s.sup.captureFailed { CaptureWhole(cfg, s, []); }
  }

  /** What a result holds of a stream: all of it if it was wanted and no capture failed, else nothing. */
  function Kept(s: State, wanted: bool, bytes: seq<Byte>): Option<seq<Byte>> {
    if s.sup.captureFailed then None else Wanted(wanted, bytes)
  }

  /** A failed started run reports how the program really ended, whether cleanup was verified, the first
      reason that applies, the required guarantees minus exactly those that were not kept, and of each
      stream exactly what was written to it, unless a capture failed. */
  lemma FailuresAreExplained(
    cfg: Config, req: Request, run: seq<State>, obs: seq<Obs>, i: nat, mountCleaned: bool, g: Guarantee)
    requires IsRun(cfg, run, obs) && i < |run| && Finished(run[i])
    requires Classify(req, run[i], mountCleaned).FailedAfterStart?
    ensures var s := run[i];
            var r, verified := Classify(req, s, mountCleaned), Verified(s, mountCleaned);
            && s.w.child == Gone(r.termination) && r.cleanup == verified
            && Explained(s, verified, r.termination, r.kind)
            && (g in r.established <==> g in req.required && !Lost(s.sup.captureFailed, verified, g))
            && r.output == Kept(s, req.captureOutput, s.w.output.sent)
            && r.error == Kept(s, req.captureError, s.w.error.sent)
  {
    RunInv(cfg, run, obs, i);
    FailureExplained(cfg, req, run[i], mountCleaned);
    EstablishedExactly(req, run[i].sup.captureFailed, Verified(run[i], mountCleaned), g);
  }

  /** Without a record from the child, a run that did not start claims nothing and blames isolation exactly
      when its cleanup could not be verified. */
  lemma NotStartedIsExplained(cfg: Config, req: Request, run: seq<State>, obs: seq<Obs>, i: nat, mountCleaned: bool)
    requires IsRun(cfg, run, obs) && i < |run|
    requires Classify(req, run[i], mountCleaned).FailedBeforeStart? && run[i].sup.control.bytes == []
    ensures var r := Classify(req, run[i], mountCleaned);
            && r.established == []
            && (r.kind == IsolationSetupFailed <==> !Verified(run[i], mountCleaned))
            && (r.kind == ProcessStartFailed ==> !run[i].sup.cancel.beforeStart)
  {
    RunInv(cfg, run, obs, i);
    NotStartedReason(cfg, req, run[i], mountCleaned);
  }

  lemma NotStartedReason(cfg: Config, req: Request, s: State, mountCleaned: bool)
    requires Inv(cfg, s)
    requires Classify(req, s, mountCleaned).FailedBeforeStart? && s.sup.control.bytes == []
    ensures var r := Classify(req, s, mountCleaned);
            && r.established == []
            && (r.kind == IsolationSetupFailed <==> !Verified(s, mountCleaned))
            && (r.kind == ProcessStartFailed ==> !s.sup.cancel.beforeStart)
  {}

  /** Verified cleanup, spelled out: complete, no pass incomplete and nothing given up, and the mounts gone as well. */
  predicate CleanEnd(s: State, mountCleaned: bool) {
    s.sup.cleanup.complete && !s.sup.cleanup.failed && mountCleaned
  }

  /** Which result a finished run has earned. */
  ghost predicate Earned(s: State, mountCleaned: bool, r: Result) {
    var good := CleanEnd(s, mountCleaned);
    && (r.Succeeded? <==>
          && Started(r) && !s.sup.captureFailed && good && !s.sup.cancel.delivered && s.w.child == Gone(Exited(0)))
    && (r.CancelledAfterStart? <==> Started(r) && !s.sup.captureFailed && good && s.sup.cancel.delivered)
    && (r.CancelledBeforeStart? <==>
          s.sup.control.bytes == [] && s.sup.cancel.observed && s.sup.cancel.beforeStart && good)
    && (0 < |s.sup.control.bytes| < RECORD_SIZE ==> r == FailedBeforeStart(ProcessStartFailed, []))
  }

  lemma EarnedOf(cfg: Config, req: Request, s: State, mountCleaned: bool)
    requires Inv(cfg, s) && Finished(s)
    ensures Earned(s, mountCleaned, Classify(req, s, mountCleaned))
  {}

  /** Exactly which finished runs are reported as succeeded, cancelled after start and cancelled before start; with
      the started ones known from start evidence, everything else is a failure. */
  lemma ResultsExactly(cfg: Config, req: Request, run: seq<State>, obs: seq<Obs>, i: nat, mountCleaned: bool)
    requires IsRun(cfg, run, obs) && i < |run| && Finished(run[i])
    ensures Earned(run[i], mountCleaned, Classify(req, run[i], mountCleaned))
  {
    RunInv(cfg, run, obs, i);
    EarnedOf(cfg, req, run[i], mountCleaned);
  }

  /** The failure kind a reported record stands for, by the stage that failed. */
  predicate StandsFor(r: Record, kind: FailureKind) {
    match r.stage
    case WorkingDirectory => kind == ResourceAdmissionFailed
    case ResourceLimits => kind == ResourceAdmissionFailed
    case StandardStreams => kind == ProcessStartFailed
    case Execute => kind == (if r.value == 2 then InterpreterUnavailable else ProcessStartFailed)
    case _ => kind == IsolationSetupFailed
  }

  lemma KindStands(r: Record)
    ensures StandsFor(r, ChildFailureKind(DecodedRecord(r)))
  {}

  /** The reported stage is the one after those that were passed. */
  predicate NextStage(stages: seq<Stage>, done: seq<Stage>, stage: Stage) {
    if stage == Execute then done == stages
    else |done| < |stages| && done == stages[..|done|] && stage == stages[|done|]
  }

  lemma StageIsNext(w: World)
    requires WorldInv(w) && w.reported.Some?
    ensures NextStage(w.plan, w.done, w.reported.value.record.stage)
  {}

  /** A child that could report all of its failure: the record names the set-up stage that comes after those it passed,
      or execveat after all of them, and the result is the failure that stage stands for. */
  lemma ReportedStage(cfg: Config, req: Request, run: seq<State>, obs: seq<Obs>, i: nat, mountCleaned: bool)
    requires IsRun(cfg, run, obs) && i < |run| && |run[i].sup.control.bytes| == RECORD_SIZE
    ensures var w, r := run[i].w, Classify(req, run[i], mountCleaned);
            && w.reported.Some? && r.FailedBeforeStart? && r.established == []
            && StandsFor(w.reported.value.record, r.kind)
            && NextStage(SetupStages(cfg.isolated), w.done, w.reported.value.record.stage)
  {
    RunInv(cfg, run, obs, i);
    FullBuffer(cfg, req, run[i], mountCleaned);
    KindStands(run[i].w.reported.value.record);
    StageIsNext(run[i].w);
  }

  /** What "every set-up stage" is: an executed child of an isolated run has its mounts, its network and its dropped
      capabilities behind it, every executed child its session, streams, working directory, limits and, last, the
      filter. */
  lemma ExecutedIsContained(cfg: Config, run: seq<State>, obs: seq<Obs>, i: nat)
    requires IsRun(cfg, run, obs) && i < |run| && run[i].w.execd
    ensures var done := run[i].w.done;
            && (cfg.isolated ==> done == [ProcessGroup, StandardStreams, MountIsolation, NetworkIsolation,
                                          WorkingDirectory, CapabilityDrop, ResourceLimits, Containment])
            && (!cfg.isolated ==>
                  done == [ProcessGroup, StandardStreams, WorkingDirectory, ResourceLimits, Containment])
  {
    RunInv(cfg, run, obs, i);
    ExecAfterSetup(cfg, run[i]);
  }
}
