/**
 Reads that fail hard.  A capture counts as lost, and the control pipe as broken, exactly if one of the read
 loops came to such a read in some iteration; nothing else the supervisor meets has that effect.
 */
module HardReads {
  import opened Child
  import opened Supervisor

  /** The read loop over `port` comes to an attempt that fails hard: all before it were interrupted or found bytes. */
  ghost predicate Meets(s: State, port: Port, tries: seq<Attempt>)
    decreases |tries|
  {
    if !IsOpen(s, port) || tries == [] then false
    else
      var e := Env(s, tries[0].steps);
      match tries[0].how
      case Broken => true
      case Interrupted => Meets(e, port, tries[1..])
      case Ask(n) =>
        var g := Look(e, port, n);
        g.Data? && Meets(Accept(e, port, g.bytes, g.p), port, tries[1..])
  }

  /** A hard error ends the loop and closes the read end; only then is a capture lost or the control pipe broken. */
  lemma {:induction false} DrainBreaksExactly(s: State, port: Port, tries: seq<Attempt>)
    ensures var t := DrainPort(s, port, tries);
            && (t.sup.captureFailed <==> s.sup.captureFailed || (port.Captured? && Meets(s, port, tries)))
            && (t.sup.control.broken <==> s.sup.control.broken || (port.ControlPort? && Meets(s, port, tries)))
            && (Meets(s, port, tries) ==> !IsOpen(t, port))
    decreases |tries|, Unread(PipeAt(s.w, port))
  {
    if IsOpen(s, port) {
      if tries == [] {
        var g := Look(s, port, Capacity(s, port));
        if g.Data? { DrainBreaksExactly(Accept(s, port, g.bytes, g.p), port, []); }
      } else {
        var e := Env(s, tries[0].steps);
        match tries[0].how {
          case Interrupted => DrainBreaksExactly(e, port, tries[1..]);
          case Broken =>
          case Ask(n) =>
            var g := Look(e, port, n);
            if g.Data? { DrainBreaksExactly(Accept(e, port, g.bytes, g.p), port, tries[1..]); }
        }
      }
    }
  }

  /** The state in which an iteration starts to drain the pipes. */
  function BeforeDrain(cfg: Config, s: State, o: Obs): State {
    Env(CleanUp(cfg, PassGate(cfg, s, o), o), Slot(o, 12))
  }

  function BeforeErrorReads(cfg: Config, s: State, o: Obs): State {
    DrainPort(BeforeDrain(cfg, s, o), Captured(Output), o.outputReads)
  }

  function BeforeControlReads(cfg: Config, s: State, o: Obs): State {
    DrainPort(BeforeErrorReads(cfg, s, o), Captured(Error), o.errorReads)
  }

  /** The iteration comes to a hard error while it reads a captured stream. */
  ghost predicate CaptureBreaks(cfg: Config, s: State, o: Obs) {
    && !Finished(s)
    && (|| Meets(BeforeDrain(cfg, s, o), Captured(Output), o.outputReads)
        || Meets(BeforeErrorReads(cfg, s, o), Captured(Error), o.errorReads))
  }

  /** ... or while it reads the control pipe. */
  ghost predicate ControlBreaks(cfg: Config, s: State, o: Obs) {
    !Finished(s) && Meets(BeforeControlReads(cfg, s, o), ControlPort, o.controlReads)
  }

  predicate SameReads(s: State, t: State) {
    t.sup.captureFailed == s.sup.captureFailed && t.sup.control == s.sup.control
  }

  lemma GateOnlyDecides(cfg: Config, s: State, o: Obs)
    ensures SameReads(s, PassGate(cfg, s, o))
  {
    var a := LookForExit(s, o);
    var b := ObserveCancellation(cfg, Env(a, Slot(o, 1)), o.token);
    var c := ReleaseGate(cfg, Env(b, Slot(o, 2)), o.tokenAgain, Slot(o, 3), o.startWrite);
    assert SameReads(s, a) && SameReads(a, b) && SameReads(b, c);
    assert SameReads(c, BeforeTerm(cfg, s, o));
    assert SameReads(BeforeTerm(cfg, s, o), PassGate(cfg, s, o));
  }

  lemma GraceOnlyDecides(s: State, now: int, r: Signals)
    ensures SameReads(s, ForceAfterGrace(s, now, r))
  {}

  lemma StartOnlyDecides(cfg: Config, s: State, now: int, r: Signals)
    ensures SameReads(s, StartCleanup(cfg, s, now, r))
  {}

  lemma RepeatOnlyDecides(cfg: Config, s: State, r: Signals)
    ensures SameReads(s, RepeatKill(cfg, s, r))
  {}

  lemma ScanOnlyDecides(cfg: Config, s: State, now: int, works: bool, r: Signals)
    ensures SameReads(s, ScanGroup(cfg, s, now, works, r))
  {}

  lemma ReapOnlyDecides(cfg: Config, s: State, groupGone: bool)
    ensures SameReads(s, ReapChild(cfg, s, groupGone))
  {}

  lemma CleanUpOnlyDecides(cfg: Config, s: State, o: Obs)
    ensures SameReads(s, CleanUp(cfg, s, o))
  {
    var a := Env(ReadClock(Env(s, Slot(o, 6))), Slot(o, 7));
    var now := a.past.now;
    GraceOnlyDecides(a, now, o.graceSignals);
    var b := Env(ForceAfterGrace(a, now, o.graceSignals), Slot(o, 8));
    StartOnlyDecides(cfg, b, now, o.cleanupSignals);
    var c := Env(StartCleanup(cfg, b, now, o.cleanupSignals), Slot(o, 9));
    RepeatOnlyDecides(cfg, c, o.repeatSignals);
    var d := Env(RepeatKill(cfg, c, o.repeatSignals), Slot(o, 10));
    ScanOnlyDecides(cfg, d, now, o.scanWorks, o.lastSignals);
    ReapOnlyDecides(cfg, Env(ScanGroup(cfg, d, now, o.scanWorks, o.lastSignals), Slot(o, 11)), o.groupGone);
  }

  lemma BlocksOnlyDecide(cfg: Config, s: State, o: Obs)
    ensures SameReads(s, BeforeDrain(cfg, s, o))
  {
    GateOnlyDecides(cfg, s, o);
    CleanUpOnlyDecides(cfg, PassGate(cfg, s, o), o);
  }

  lemma IterationBreaksExactly(cfg: Config, s: State, o: Obs)
    ensures var t := Iterate(cfg, s, o);
            && (t.sup.captureFailed <==> s.sup.captureFailed || CaptureBreaks(cfg, s, o))
            && (t.sup.control.broken <==> s.sup.control.broken || ControlBreaks(cfg, s, o))
  {
    if !Finished(s) {
      BlocksOnlyDecide(cfg, s, o);
      var b, c, d := BeforeDrain(cfg, s, o), BeforeErrorReads(cfg, s, o), BeforeControlReads(cfg, s, o);
      DrainBreaksExactly(b, Captured(Output), o.outputReads);
      DrainBreaksExactly(c, Captured(Error), o.errorReads);
      DrainBreaksExactly(d, ControlPort, o.controlReads);
      DrainBreaksExactly(DrainPort(d, ControlPort, o.controlReads), ReadyPort, o.readyReads);
    }
  }

  /** A flag that is set by its causes and never cleared is set exactly if one of them has occurred. */
  lemma {:induction false} LatchIff(flag: nat -> bool, cause: nat -> bool, i: nat)
    requires !flag(0) && forall k: nat :: k < i ==> (flag(k + 1) <==> flag(k) || cause(k))
    ensures flag(i) <==> exists k: nat :: k < i && cause(k)
  {
    if i > 0 {
      LatchIff(flag, cause, i - 1);
      assert flag(i - 1 + 1) <==> flag(i - 1) || cause(i - 1);
    }
  }

  ghost predicate CaptureBreaksAt(cfg: Config, run: seq<State>, obs: seq<Obs>, k: nat) {
    k < |obs| && k < |run| && CaptureBreaks(cfg, run[k], obs[k])
  }

  ghost predicate ControlBreaksAt(cfg: Config, run: seq<State>, obs: seq<Obs>, k: nat) {
    k < |obs| && k < |run| && ControlBreaks(cfg, run[k], obs[k])
  }

  /** In every run, the captures are lost exactly if some iteration met a hard error on a captured stream. */
  lemma CaptureLostIff(cfg: Config, run: seq<State>, obs: seq<Obs>, i: nat)
    requires IsRun(cfg, run, obs) && i < |run|
    ensures run[i].sup.captureFailed <==> exists k: nat :: k < i && CaptureBreaksAt(cfg, run, obs, k)
  {
    var flag := (k: nat) => k < |run| && run[k].sup.captureFailed;
    var cause := (k: nat) => CaptureBreaksAt(cfg, run, obs, k);
    forall k: nat | k < i ensures flag(k + 1) <==> flag(k) || cause(k) {
      assert Linked(cfg, run, obs, k);
      IterationBreaksExactly(cfg, run[k], obs[k]);
    }
    LatchIff(flag, cause, i);
    assert forall k: nat :: cause(k) == CaptureBreaksAt(cfg, run, obs, k);
  }

  /** ... and the control pipe is broken exactly if some iteration met one there. */
  lemma ControlBrokenIff(cfg: Config, run: seq<State>, obs: seq<Obs>, i: nat)
    requires IsRun(cfg, run, obs) && i < |run|
    ensures run[i].sup.control.broken <==> exists k: nat :: k < i && ControlBreaksAt(cfg, run, obs, k)
  {
    var flag := (k: nat) => k < |run| && run[k].sup.control.broken;
    var cause := (k: nat) => ControlBreaksAt(cfg, run, obs, k);
    forall k: nat | k < i ensures flag(k + 1) <==> flag(k) || cause(k) {
      assert Linked(cfg, run, obs, k);
      IterationBreaksExactly(cfg, run[k], obs[k]);
    }
    LatchIff(flag, cause, i);
    assert forall k: nat :: cause(k) == ControlBreaksAt(cfg, run, obs, k);
  }
}
