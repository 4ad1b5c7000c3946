/**
 The supervisor's end of the start pipe: when it is closed, and that the start byte is tried once.
 */
module StartEnd {
  import opened Child
  import opened Supervisor
  import opened SupervisorInvariant
  import opened SupervisorRuns
  import opened Iterations

  /** The descriptor and the pipe the child waits on are open or closed as before. */
  predicate SameEnd(s: State, t: State) {
    && t.sup.gate.startOpen == s.sup.gate.startOpen && t.w.start.open == s.w.start.open
    && t.sup.cancel.observed == s.sup.cancel.observed
  }

  lemma {:induction false} InterferenceKeepsStart(w: World, steps: seq<Step>)
    ensures Interfere(w, steps).start.open == w.start.open
    decreases |steps|
  {
    if steps != [] {
      ApplyChildLater(w, steps[0]);
      InterferenceKeepsStart(Apply(w, steps[0]), steps[1..]);
    }
  }

  lemma EnvKeepsEnd(s: State, steps: seq<Step>)
    ensures SameEnd(s, Env(s, steps))
  {
    InterferenceKeepsStart(s.w, steps);
  }

  lemma {:induction false} DrainPortKeepsEnd(s: State, port: Port, tries: seq<Attempt>)
    ensures SameEnd(s, DrainPort(s, port, tries))
    decreases |tries|, Unread(PipeAt(s.w, port))
  {
    if IsOpen(s, port) {
      if tries == [] {
        var g := Look(s, port, Capacity(s, port));
        if g.Data? { DrainPortKeepsEnd(Accept(s, port, g.bytes, g.p), port, []); }
      } else {
        var e := Env(s, tries[0].steps);
        EnvKeepsEnd(s, tries[0].steps);
        match tries[0].how {
          case Interrupted => DrainPortKeepsEnd(e, port, tries[1..]);
          case Broken =>
          case Ask(n) =>
            var g := Look(e, port, n);
            if g.Data? { DrainPortKeepsEnd(Accept(e, port, g.bytes, g.p), port, tries[1..]); }
        }
      }
    }
  }

  lemma DrainKeepsEnd(s: State, o: Obs)
    ensures SameEnd(s, Drain(s, o))
  {
    EnvKeepsEnd(s, Slot(o, 12));
    var a := DrainPort(Env(s, Slot(o, 12)), Captured(Output), o.outputReads);
    DrainPortKeepsEnd(Env(s, Slot(o, 12)), Captured(Output), o.outputReads);
    var b := DrainPort(a, Captured(Error), o.errorReads);
    DrainPortKeepsEnd(a, Captured(Error), o.errorReads);
    DrainPortKeepsEnd(b, ControlPort, o.controlReads);
    DrainPortKeepsEnd(DrainPort(b, ControlPort, o.controlReads), ReadyPort, o.readyReads);
  }

  lemma TermKeepsEnd(cfg: Config, s: State, r: Signals, meanwhile: seq<Step>)
    ensures SameEnd(s, SendCancellation(cfg, s, r, meanwhile))
  {
    InterferenceKeepsStart(s.w, meanwhile);
  }

  lemma EarlyBlocksKeepEnd(cfg: Config, s: State, now: int, r: Signals)
    ensures SameEnd(s, ForceAfterGrace(s, now, r)) && SameEnd(s, StartCleanup(cfg, s, now, r))
    ensures SameEnd(s, RepeatKill(cfg, s, r))
  {}

  lemma LateBlocksKeepEnd(cfg: Config, s: State, now: int, works: bool, r: Signals, groupGone: bool)
    ensures SameEnd(s, ScanGroup(cfg, s, now, works, r)) && SameEnd(s, ReapChild(cfg, s, groupGone))
  {}

  lemma CleanUpKeepsEnd(cfg: Config, s: State, o: Obs)
    ensures SameEnd(s, CleanUp(cfg, s, o))
  {
    EnvKeepsEnd(s, Slot(o, 6));
    var a := ReadClock(Env(s, Slot(o, 6)));
    var now := a.past.now;
    EnvKeepsEnd(a, Slot(o, 7));
    EarlyBlocksKeepEnd(cfg, Env(a, Slot(o, 7)), now, o.graceSignals);
    var b := ForceAfterGrace(Env(a, Slot(o, 7)), now, o.graceSignals);
    EnvKeepsEnd(b, Slot(o, 8));
    EarlyBlocksKeepEnd(cfg, Env(b, Slot(o, 8)), now, o.cleanupSignals);
    var c := StartCleanup(cfg, Env(b, Slot(o, 8)), now, o.cleanupSignals);
    EnvKeepsEnd(c, Slot(o, 9));
    EarlyBlocksKeepEnd(cfg, Env(c, Slot(o, 9)), now, o.repeatSignals);
    var d := RepeatKill(cfg, Env(c, Slot(o, 9)), o.repeatSignals);
    EnvKeepsEnd(d, Slot(o, 10));
    LateBlocksKeepEnd(cfg, Env(d, Slot(o, 10)), now, o.scanWorks, o.lastSignals, o.groupGone);
    var e := ScanGroup(cfg, Env(d, Slot(o, 10)), now, o.scanWorks, o.lastSignals);
    EnvKeepsEnd(e, Slot(o, 11));
    LateBlocksKeepEnd(cfg, Env(e, Slot(o, 11)), now, o.scanWorks, o.lastSignals, o.groupGone);
  }

  /** The start byte was tried in the iteration from `s` to `t`, or cancellation before release was observed. */
  predicate GateDecided(s: State, t: State) {
    && !s.sup.gate.released
    && ((s.sup.gate.readySeen && !t.sup.cancel.observed) || (t.sup.cancel.observed && !s.sup.cancel.observed))
  }

  /** The end was open and is still, unless the gate was decided. */
  predicate EndMoved(s: State, t: State) {
    && (t.sup.gate.startOpen <==> s.sup.gate.startOpen && !GateDecided(s, t))
    && (t.w.start.open <==> s.w.start.open && !GateDecided(s, t))
  }

  /** The token was looked at: cancellation that is observed before release closes the end. */
  predicate Looked(s: State, t: State) {
    var shut := t.sup.cancel.observed && !s.sup.cancel.observed && !s.sup.gate.released;
    && (t.sup.gate.startOpen <==> s.sup.gate.startOpen && !shut)
    && (t.w.start.open <==> s.w.start.open && !shut)
    && t.sup.gate.released == s.sup.gate.released && t.sup.gate.readySeen == s.sup.gate.readySeen
    && (t.sup.cancel.observed == s.sup.cancel.observed ==> t == s)
    && (s.sup.cancel.observed ==> t == s)
  }

  lemma TokenMovesEnd(cfg: Config, s: State, token: bool)
    ensures Looked(s, ObserveCancellation(cfg, s, token))
  {}

  lemma WriteMovesEnd(s: State, works: bool)
    ensures var t := WriteStart(s, works);
            !t.sup.gate.startOpen && !t.w.start.open && t.sup.cancel == s.sup.cancel
  {}

  lemma ReleaseMovesEnd(cfg: Config, s: State, token: bool, meanwhile: seq<Step>, works: bool)
    ensures var t := ReleaseGate(cfg, s, token, meanwhile, works); EndMoved(s, t)
    ensures var t := ReleaseGate(cfg, s, token, meanwhile, works); s.sup.cancel.observed ==> t == s
  {
    TokenMovesEnd(cfg, s, token);
    var t := ObserveCancellation(cfg, s, token);
    WriteMovesEnd(Env(t, meanwhile), works);
  }

  predicate SameGate(s: State, t: State) {
    SameEnd(s, t) && t.sup.gate == s.sup.gate
  }

  /** Both looks at the token and the write, together. */
  lemma EndMovedTogether(s: State, a: State, b: State, c: State, d: State, t: State)
    requires SameGate(s, a) && Looked(a, b) && SameGate(b, c)
    requires EndMoved(c, d) && (c.sup.cancel.observed ==> d == c) && SameGate(d, t)
    ensures EndMoved(s, t)
  {}

  lemma ExitKeepsGate(s: State, o: Obs)
    ensures SameGate(s, Env(LookForExit(s, o), Slot(o, 1)))
  {
    InterferenceKeepsStart(s.w, Slot(o, 0));
    InterferenceKeepsStart(LookForExit(s, o).w, Slot(o, 1));
  }

  lemma BeforeTermMovesEnd(cfg: Config, s: State, o: Obs)
    ensures EndMoved(s, BeforeTerm(cfg, s, o))
  {
    ExitKeepsGate(s, o);
    var a := Env(LookForExit(s, o), Slot(o, 1));
    TokenMovesEnd(cfg, a, o.token);
    var b := ObserveCancellation(cfg, a, o.token);
    EnvKeepsEnd(b, Slot(o, 2));
    var c := Env(b, Slot(o, 2));
    ReleaseMovesEnd(cfg, c, o.tokenAgain, Slot(o, 3), o.startWrite);
    var d := ReleaseGate(cfg, c, o.tokenAgain, Slot(o, 3), o.startWrite);
    EnvKeepsEnd(d, Slot(o, 4));
    EndMovedTogether(s, a, b, c, d, BeforeTerm(cfg, s, o));
  }

  lemma IterationMovesEnd(cfg: Config, s: State, o: Obs)
    requires !Finished(s)
    ensures EndMoved(s, Iterate(cfg, s, o))
  {
    var a := BeforeTerm(cfg, s, o);
    BeforeTermMovesEnd(cfg, s, o);
    TermKeepsEnd(cfg, a, o.cancelSignals, Slot(o, 5));
    var b := PassGate(cfg, s, o);
    CleanUpKeepsEnd(cfg, b, o);
    DrainKeepsEnd(CleanUp(cfg, b, o), o);
  }

  /** The write end is ours exactly while the child can still be waiting for it, and it is closed exactly by the first
      attempt to write the start byte, successful or not, or by cancellation before release. */
  lemma {:induction false} EndClosedExactly(cfg: Config, run: seq<State>, obs: seq<Obs>, i: nat)
    requires IsRun(cfg, run, obs) && i < |run|
    ensures run[i].sup.gate.startOpen == run[i].w.start.open
    ensures i > 0 && !Finished(run[i - 1]) ==> EndMoved(run[i - 1], run[i])
  {
    if i > 0 {
      EndClosedExactly(cfg, run, obs, i - 1);
      assert Linked(cfg, run, obs, i - 1);
      if !Finished(run[i - 1]) { IterationMovesEnd(cfg, run[i - 1], obs[i - 1]); }
    }
  }

  /** A closed end stays closed, and the gate as it is. */
  lemma ClosedEndStays(cfg: Config, run: seq<State>, obs: seq<Obs>, k: nat)
    requires IsRun(cfg, run, obs) && k < |obs| && !run[k].sup.gate.startOpen
    ensures !run[k + 1].sup.gate.startOpen && run[k + 1].sup.gate.released == run[k].sup.gate.released
  {
    EndClosedExactly(cfg, run, obs, k + 1);
    assert Linked(cfg, run, obs, k);
    if !Finished(run[k]) { ReleasedExactly(cfg, run, obs, k); }
  }

  /** So the start byte is tried once: after the iteration that decides the gate, nothing opens it any more. */
  lemma {:induction false} TriedOnce(cfg: Config, run: seq<State>, obs: seq<Obs>, i: nat, j: nat)
    requires IsRun(cfg, run, obs) && i + 1 <= j < |run| && !Finished(run[i]) && GateDecided(run[i], run[i + 1])
    ensures !run[j].sup.gate.startOpen && run[j].sup.gate.released == run[i + 1].sup.gate.released
    decreases j
  {
    if i + 1 < j {
      TriedOnce(cfg, run, obs, i, j - 1);
      ClosedEndStays(cfg, run, obs, j - 1);
    } else {
      EndClosedExactly(cfg, run, obs, i + 1);
    }
  }

  /** Readiness is seen exactly when the child's byte has been read, and the child wrote it after every stage. */
  lemma ReadySeenExactly(cfg: Config, run: seq<State>, obs: seq<Obs>, i: nat)
    requires IsRun(cfg, run, obs) && i < |run|
    ensures run[i].sup.gate.readySeen <==> run[i].w.ready.taken > 0
    ensures run[i].sup.gate.readySeen ==> run[i].w.ready.sent == [1] && run[i].w.done == SetupStages(cfg.isolated)
  {
    RunInv(cfg, run, obs, i);
  }
}
