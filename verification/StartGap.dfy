/**
 The assumption behind start evidence, stated of schedules: nobody kills the child between the start byte and
 execveat.  When no interference of a run does, the child is never found killed there.
 */
module StartGap {
  import opened Child
  import opened Supervisor
  import opened SupervisorInvariant
  import opened SupervisorRuns
  import opened Outcome
  import opened Evidence

  /** No kill among these steps hits a child between gate and exec. */
  ghost predicate Spared(w: World, steps: seq<Step>) {
    forall i :: 0 <= i < |steps| && steps[i].Killed? ==> !InStartGap(Interfere(w, steps[..i]))
  }

  /** The invariant, and a child that was not killed in the gap. */
  ghost predicate Intact(cfg: Config, s: State) {
    Inv(cfg, s) && !KilledBeforeExec(s.w)
  }

  lemma EnvIntact(cfg: Config, s: State, steps: seq<Step>)
    requires Intact(cfg, s) && Spared(s.w, steps)
    ensures Intact(cfg, Env(s, steps))
  {
    EnvKeeps(cfg, s, steps);
    if KilledBeforeExec(Interfere(s.w, steps)) {
      var i := KillAmongSteps(s.w, steps);
      assert false;
    }
  }

  // ----- up to the cancellation signal ---------------------------------------------------------------

  /** Whether release_gate's write of the start byte is reached. */
  predicate Writes(cfg: Config, s: State, token: bool) {
    && s.sup.gate.readySeen && !s.sup.gate.released && !s.sup.cancel.observed
    && !ObserveCancellation(cfg, s, token).sup.cancel.observed
  }

  ghost predicate GateSpared(cfg: Config, s: State, o: Obs) {
    var a := LookForExit(s, o);
    var b := ObserveCancellation(cfg, Env(a, Slot(o, 1)), o.token);
    var b2 := Env(b, Slot(o, 2));
    var c := ReleaseGate(cfg, b2, o.tokenAgain, Slot(o, 3), o.startWrite);
    && Spared(s.w, Slot(o, 0)) && Spared(a.w, Slot(o, 1)) && Spared(b.w, Slot(o, 2))
    && (Writes(cfg, b2, o.tokenAgain) ==> Spared(ObserveCancellation(cfg, b2, o.tokenAgain).w, Slot(o, 3)))
    && Spared(c.w, Slot(o, 4))
    && (MaySendCancellation(BeforeTerm(cfg, s, o)) ==> Spared(BeforeTerm(cfg, s, o).w, Slot(o, 5)))
  }

  lemma LookIntact(cfg: Config, s: State, o: Obs)
    requires Intact(cfg, s) && Spared(s.w, Slot(o, 0))
    ensures Intact(cfg, LookForExit(s, o))
  {
    EnvIntact(cfg, s, Slot(o, 0));
    ObserveExitKeeps(cfg, Env(s, Slot(o, 0)), o.waitFails);
  }

  lemma TokenIntact(cfg: Config, s: State, token: bool)
    requires Intact(cfg, s)
    ensures Intact(cfg, ObserveCancellation(cfg, s, token))
  {
    ObserveCancellationKeeps(cfg, s, token);
  }

  lemma GateIntact(cfg: Config, s: State, token: bool, meanwhile: seq<Step>, works: bool)
    requires Intact(cfg, s)
    requires Writes(cfg, s, token) ==> Spared(ObserveCancellation(cfg, s, token).w, meanwhile)
    ensures Intact(cfg, ReleaseGate(cfg, s, token, meanwhile, works))
  {
    var t := ObserveCancellation(cfg, s, token);
    TokenIntact(cfg, s, token);
    ReleaseGateKeeps(cfg, s, token, meanwhile, works);
    if Writes(cfg, s, token) { EnvIntact(cfg, t, meanwhile); }
  }

  lemma TermIntact(cfg: Config, s: State, r: Signals, meanwhile: seq<Step>)
    requires Intact(cfg, s) && (MaySendCancellation(s) ==> Spared(s.w, meanwhile))
    ensures !KilledBeforeExec(SendCancellation(cfg, s, r, meanwhile).w)
  {
    if MaySendCancellation(s) { EnvIntact(cfg, s, meanwhile); }
  }

  lemma PassGateIntact(cfg: Config, s: State, o: Obs)
    requires Intact(cfg, s) && GateSpared(cfg, s, o)
    ensures !KilledBeforeExec(PassGate(cfg, s, o).w)
  {
    var a := LookForExit(s, o);
    LookIntact(cfg, s, o);
    EnvIntact(cfg, a, Slot(o, 1));
    var b := ObserveCancellation(cfg, Env(a, Slot(o, 1)), o.token);
    TokenIntact(cfg, Env(a, Slot(o, 1)), o.token);
    EnvIntact(cfg, b, Slot(o, 2));
    var b2 := Env(b, Slot(o, 2));
    GateIntact(cfg, b2, o.tokenAgain, Slot(o, 3), o.startWrite);
    EnvIntact(cfg, ReleaseGate(cfg, b2, o.tokenAgain, Slot(o, 3), o.startWrite), Slot(o, 4));
    TermIntact(cfg, BeforeTerm(cfg, s, o), o.cancelSignals, Slot(o, 5));
  }

  // ----- cleanup -------------------------------------------------------------------------------------

  ghost predicate CleanUpSpared(cfg: Config, s: State, o: Obs) {
    var a := ReadClock(Env(s, Slot(o, 6)));
    var now := a.past.now;
    var b := ForceAfterGrace(Env(a, Slot(o, 7)), now, o.graceSignals);
    var c := StartCleanup(cfg, Env(b, Slot(o, 8)), now, o.cleanupSignals);
    var d := RepeatKill(cfg, Env(c, Slot(o, 9)), o.repeatSignals);
    var e := ScanGroup(cfg, Env(d, Slot(o, 10)), now, o.scanWorks, o.lastSignals);
    && Spared(s.w, Slot(o, 6)) && Spared(a.w, Slot(o, 7)) && Spared(b.w, Slot(o, 8))
    && Spared(c.w, Slot(o, 9)) && Spared(d.w, Slot(o, 10)) && Spared(e.w, Slot(o, 11))
  }

  lemma KillBlocksIntact(cfg: Config, s: State, now: int, r: Signals)
    requires Intact(cfg, s) && now <= s.w.clock
    ensures Intact(cfg, ForceAfterGrace(s, now, r)) && Intact(cfg, RepeatKill(cfg, s, r))
    ensures ForceAfterGrace(s, now, r).w == s.w && RepeatKill(cfg, s, r).w == s.w
  {
    ForceAfterGraceKeeps(cfg, s, now, r);
    RepeatKillKeeps(cfg, s, r);
  }

  lemma StartBlockIntact(cfg: Config, s: State, now: int, r: Signals)
    requires Intact(cfg, s)
    ensures Intact(cfg, StartCleanup(cfg, s, now, r)) && StartCleanup(cfg, s, now, r).w == s.w
  {
    StartCleanupKeeps(cfg, s, now, r);
  }

  lemma ScanBlockIntact(cfg: Config, s: State, now: int, works: bool, r: Signals)
    requires Intact(cfg, s) && now <= s.w.clock
    ensures Intact(cfg, ScanGroup(cfg, s, now, works, r)) && ScanGroup(cfg, s, now, works, r).w == s.w
  {
    ScanGroupKeeps(cfg, s, now, works, r);
  }

  lemma ReapBlockIntact(cfg: Config, s: State, groupGone: bool)
    requires Intact(cfg, s)
    ensures !KilledBeforeExec(ReapChild(cfg, s, groupGone).w)
  {}

  lemma EnvIntactLater(cfg: Config, s: State, steps: seq<Step>, now: int)
    requires Intact(cfg, s) && Spared(s.w, steps) && now <= s.w.clock
    ensures Intact(cfg, Env(s, steps)) && now <= Env(s, steps).w.clock
  {
    EnvIntact(cfg, s, steps);
    InterfereFacts(s.w, steps);
  }

  lemma CleanUpIntact(cfg: Config, s: State, o: Obs)
    requires Intact(cfg, s) && CleanUpSpared(cfg, s, o)
    ensures !KilledBeforeExec(CleanUp(cfg, s, o).w)
  {
    EnvIntact(cfg, s, Slot(o, 6));
    var a := ReadClock(Env(s, Slot(o, 6)));
    var now := a.past.now;
    ReadClockKeeps(cfg, Env(s, Slot(o, 6)));
    EnvIntactLater(cfg, a, Slot(o, 7), now);
    KillBlocksIntact(cfg, Env(a, Slot(o, 7)), now, o.graceSignals);
    var b := ForceAfterGrace(Env(a, Slot(o, 7)), now, o.graceSignals);
    EnvIntactLater(cfg, b, Slot(o, 8), now);
    StartBlockIntact(cfg, Env(b, Slot(o, 8)), now, o.cleanupSignals);
    var c := StartCleanup(cfg, Env(b, Slot(o, 8)), now, o.cleanupSignals);
    EnvIntactLater(cfg, c, Slot(o, 9), now);
    KillBlocksIntact(cfg, Env(c, Slot(o, 9)), now, o.repeatSignals);
    var d := RepeatKill(cfg, Env(c, Slot(o, 9)), o.repeatSignals);
    EnvIntactLater(cfg, d, Slot(o, 10), now);
    ScanBlockIntact(cfg, Env(d, Slot(o, 10)), now, o.scanWorks, o.lastSignals);
    var e := ScanGroup(cfg, Env(d, Slot(o, 10)), now, o.scanWorks, o.lastSignals);
    EnvIntact(cfg, e, Slot(o, 11));
    ReapBlockIntact(cfg, Env(e, Slot(o, 11)), o.groupGone);
  }

  // ----- reads -----------------------------------------------------------------------------------------

  ghost predicate DrainSpared(s: State, port: Port, tries: seq<Attempt>)
    decreases |tries|
  {
    if !IsOpen(s, port) || tries == [] then true
    else
      var e := Env(s, tries[0].steps);
      && Spared(s.w, tries[0].steps)
      && match tries[0].how
         case Interrupted => DrainSpared(e, port, tries[1..])
         case Broken => true
         case Ask(n) =>
           match Look(e, port, n)
           case Data(bytes, p) => DrainSpared(Accept(e, port, bytes, p), port, tries[1..])
           case _ => true
  }

  lemma AcceptIntact(cfg: Config, s: State, port: Port, n: nat)
    requires Intact(cfg, s) && IsOpen(s, port) && Look(s, port, n).Data?
    ensures Intact(cfg, Accept(s, port, Look(s, port, n).bytes, Look(s, port, n).p))
  {
    AcceptReached(cfg, s, s, port, n);
  }

  lemma EndIntact(cfg: Config, s: State, port: Port, n: nat)
    requires Intact(cfg, s) && IsOpen(s, port)
    ensures Intact(cfg, AtError(s, port)) && (Look(s, port, n).Eof? ==> Intact(cfg, AtEof(s, port)))
  {
    EndReached(cfg, s, s, port, n);
  }

  /** `P` survives interference that spares the gap, and every outcome of a read. */
  ghost predicate ClosedUnderSparedReads(P: State -> bool) {
    && (forall s, steps :: P(s) && Spared(s.w, steps) ==> P(Env(s, steps)))
    && (forall s, port, n :: P(s) && IsOpen(s, port) && Look(s, port, n).Data? ==>
          P(Accept(s, port, Look(s, port, n).bytes, Look(s, port, n).p)))
    && (forall s, port, n :: P(s) && IsOpen(s, port) && Look(s, port, n).Eof? ==> P(AtEof(s, port)))
    && (forall s, port :: P(s) && IsOpen(s, port) ==> P(AtError(s, port)))
  }

  lemma {:induction false} SparedDrainInduction(P: State -> bool, s: State, port: Port, tries: seq<Attempt>)
    requires ClosedUnderSparedReads(P) && P(s) && DrainSpared(s, port, tries)
    ensures P(DrainPort(s, port, tries))
    decreases |tries|, Unread(PipeAt(s.w, port))
  {
    if IsOpen(s, port) {
      if tries == [] {
        var g := Look(s, port, Capacity(s, port));
        if g.Data? { SparedDrainInduction(P, Accept(s, port, g.bytes, g.p), port, []); }
      } else {
        var e := Env(s, tries[0].steps);
        match tries[0].how {
          case Interrupted => SparedDrainInduction(P, e, port, tries[1..]);
          case Broken =>
            if IsOpen(e, port) {}
          case Ask(n) =>
            var g := Look(e, port, n);
            if g.Data? { SparedDrainInduction(P, Accept(e, port, g.bytes, g.p), port, tries[1..]); }
        }
      }
    }
  }

  lemma OneDrainIntact(cfg: Config, s: State, port: Port, tries: seq<Attempt>)
    requires Intact(cfg, s) && DrainSpared(s, port, tries)
    ensures Intact(cfg, DrainPort(s, port, tries))
  {
    var P := (t: State) => Intact(cfg, t);
    forall t, steps | P(t) && Spared(t.w, steps) ensures P(Env(t, steps)) {
      EnvIntact(cfg, t, steps);
    }
    forall t, port, n | P(t) && IsOpen(t, port) && Look(t, port, n).Data?
      ensures P(Accept(t, port, Look(t, port, n).bytes, Look(t, port, n).p))
    {
      AcceptIntact(cfg, t, port, n);
    }
    forall t, port, n | P(t) && IsOpen(t, port) && Look(t, port, n).Eof? ensures P(AtEof(t, port)) {
      EndIntact(cfg, t, port, n);
    }
    forall t, port | P(t) && IsOpen(t, port) ensures P(AtError(t, port)) {
      EndIntact(cfg, t, port, 0);
    }
    SparedDrainInduction(P, s, port, tries);
  }

  ghost predicate ReadsSpared(s: State, o: Obs) {
    var e := Env(s, Slot(o, 12));
    var b := DrainPort(e, Captured(Output), o.outputReads);
    var c := DrainPort(b, Captured(Error), o.errorReads);
    var d := DrainPort(c, ControlPort, o.controlReads);
    && Spared(s.w, Slot(o, 12))
    && DrainSpared(e, Captured(Output), o.outputReads) && DrainSpared(b, Captured(Error), o.errorReads)
    && DrainSpared(c, ControlPort, o.controlReads) && DrainSpared(d, ReadyPort, o.readyReads)
  }

  lemma DrainIntact(cfg: Config, s: State, o: Obs)
    requires Intact(cfg, s) && ReadsSpared(s, o)
    ensures !KilledBeforeExec(Drain(s, o).w)
  {
    var e := Env(s, Slot(o, 12));
    EnvIntact(cfg, s, Slot(o, 12));
    OneDrainIntact(cfg, e, Captured(Output), o.outputReads);
    var b := DrainPort(e, Captured(Output), o.outputReads);
    OneDrainIntact(cfg, b, Captured(Error), o.errorReads);
    var c := DrainPort(b, Captured(Error), o.errorReads);
    OneDrainIntact(cfg, c, ControlPort, o.controlReads);
    OneDrainIntact(cfg, DrainPort(c, ControlPort, o.controlReads), ReadyPort, o.readyReads);
  }

  // ----- runs ------------------------------------------------------------------------------------------

  /** No interference of this iteration -- before any block, during any read loop -- kills a child in the gap. */
  ghost predicate IterationSpared(cfg: Config, s: State, o: Obs) {
    !Finished(s) ==>
      && GateSpared(cfg, s, o)
      && CleanUpSpared(cfg, PassGate(cfg, s, o), o)
      && ReadsSpared(CleanUp(cfg, PassGate(cfg, s, o), o), o)
  }

  lemma IterateIntact(cfg: Config, s: State, o: Obs)
    requires Intact(cfg, s) && Settled(cfg, s) && IterationSpared(cfg, s, o)
    ensures !KilledBeforeExec(Iterate(cfg, s, o).w)
  {
    if !Finished(s) {
      var a := PassGate(cfg, s, o);
      PassGateIntact(cfg, s, o);
      PassGateReached(cfg, s, o);
      CleanUpIntact(cfg, a, o);
      CleanUpReached(cfg, a, o);
      DrainIntact(cfg, CleanUp(cfg, a, o), o);
    }
  }

  /** The schedule of the first `i` iterations spares the gap. */
  ghost predicate RunSpared(cfg: Config, run: seq<State>, obs: seq<Obs>, i: nat)
    requires i <= |run| && i <= |obs|
  {
    forall k :: 0 <= k < i ==> IterationSpared(cfg, run[k], obs[k])
  }

  /** Induction over iterations of which something is known. */
  lemma {:induction false} GuardedInduction(
    next: (State, Obs) -> State, P: State -> bool, Q: (State, Obs) -> bool, run: seq<State>, obs: seq<Obs>, i: nat)
    requires i < |run| == |obs| + 1 && P(run[0])
    requires forall k :: 0 <= k < i ==> run[k + 1] == next(run[k], obs[k]) && Q(run[k], obs[k])
    requires forall s, o :: P(s) && Q(s, o) ==> P(next(s, o))
    ensures P(run[i])
  {
    if i > 0 {
      GuardedInduction(next, P, Q, run, obs, i - 1);
      assert run[i - 1 + 1] == next(run[i - 1], obs[i - 1]);
    }
  }

  /** A run whose schedule spares the gap never finds the child killed there. */
  lemma NeverKilledInGap(cfg: Config, run: seq<State>, obs: seq<Obs>, i: nat)
    requires IsRun(cfg, run, obs) && i < |run| && RunSpared(cfg, run, obs, i)
    ensures !KilledBeforeExec(run[i].w)
  {
    var next := (t: State, o: Obs) => Iterate(cfg, t, o);
    var P := (t: State) => Intact(cfg, t) && Settled(cfg, t);
    var Q := (t: State, o: Obs) => IterationSpared(cfg, t, o);
    InitialInv(cfg);
    forall s, o | P(s) && Q(s, o) ensures P(next(s, o)) {
      IterateIntact(cfg, s, o);
      IterateKeeps(cfg, s, o);
    }
    forall k | 0 <= k < i ensures run[k + 1] == next(run[k], obs[k]) {
      assert Linked(cfg, run, obs, k);
    }
    GuardedInduction(next, P, Q, run, obs, i);
  }

  /** With no kill between gate and exec anywhere in the schedule, and no lost exec report, a started result
      means that the interpreter was executed after every set-up stage. */
  lemma SparedStartMeansExecuted(
    cfg: Config, req: Request, run: seq<State>, obs: seq<Obs>, i: nat, mountCleaned: bool)
    requires IsRun(cfg, run, obs) && i < |run| && Finished(run[i])
    requires RunSpared(cfg, run, obs, i)
    requires !ExecReportLost(run[i].w) && Started(Classify(req, run[i], mountCleaned))
    ensures run[i].w.execd && run[i].w.done == SetupStages(cfg.isolated)
  {
    NeverKilledInGap(cfg, run, obs, i);
    StartedMeansExecuted(cfg, req, run, obs, i, mountCleaned);
  }
}
