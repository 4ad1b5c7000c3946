/**
 When the cancellation SIGTERM is sure of its grace period: exactly when cleanup is not already under
 way with an earlier deadline of its own.
 */
module GracePeriod {
  import opened Child
  import opened Supervisor
  import opened SupervisorInvariant
  import opened SupervisorRuns
  import opened SupervisorBoundaries
  import opened Evidence

  /** The same iteration up to that point, then only the clock moves, and the scan fails. */
  function Rushed(o: Obs, ticks: nat): Obs {
    o.(before := [Slot(o, 0), Slot(o, 1), Slot(o, 2), Slot(o, 3), Slot(o, 4), [], [Ticks(ticks)]], scanWorks := false)
  }

  lemma RushedDecidesAlike(cfg: Config, s: State, o: Obs, ticks: nat)
    ensures BeforeTerm(cfg, s, Rushed(o, ticks)) == BeforeTerm(cfg, s, o)
    ensures PassGate(cfg, s, Rushed(o, ticks)) == SendCancellation(cfg, BeforeTerm(cfg, s, o), o.cancelSignals, [])
  {
    var r := Rushed(o, ticks);
    assert Slot(r, 0) == Slot(o, 0) && Slot(r, 1) == Slot(o, 1) && Slot(r, 2) == Slot(o, 2);
    assert Slot(r, 3) == Slot(o, 3) && Slot(r, 4) == Slot(o, 4) && Slot(r, 5) == [];
  }

  lemma Ticking(s: State, ticks: nat)
    ensures Env(s, [Ticks(ticks)]) == s.(w := s.w.(clock := s.w.clock + ticks)) && Env(s, []) == s
  {
    assert [Ticks(ticks)][1..] == [];
    assert Interfere(s.w, [Ticks(ticks)]) == Interfere(Apply(s.w, Ticks(ticks)), []);
  }

  /** Past its own deadline but within the grace period, cleanup kills at once when the scan fails. */
  lemma RushedKills(cfg: Config, s: State, o: Obs, ticks: nat) returns (k: Event)
    requires CleaningUp(cfg, s) && !s.sup.cleanup.forced && s.sup.cancel.deadline.At? && s.sup.cleanup.deadline.At?
    requires s.sup.cleanup.deadline.time <= s.w.clock + ticks < s.sup.cancel.deadline.time
    ensures k in CleanUp(cfg, s, Rushed(o, ticks)).log && k.what == Kill && k.world.clock == s.w.clock + ticks
    ensures s.log <= CleanUp(cfg, s, Rushed(o, ticks)).log
  {
    var r := Rushed(o, ticks);
    var a := ReadClock(Env(s, [Ticks(ticks)]));
    Ticking(s, ticks);
    Ticking(a, 0);
    assert Slot(r, 6) == [Ticks(ticks)] && Slot(r, 7) == Slot(r, 8) == Slot(r, 9) == Slot(r, 10) == Slot(r, 11) == [];
    assert ForceAfterGrace(a, a.past.now, r.graceSignals) == a;
    assert StartCleanup(cfg, a, a.past.now, r.cleanupSignals) == a;
    assert RepeatKill(cfg, a, r.repeatSignals) == a;
    var e := ScanGroup(cfg, a, a.past.now, false, r.lastSignals);
    Ticking(e, 0);
    assert e == Force(Note(a, Scan(false)), a.past.now, r.lastSignals);
    k := Event(Kill, a.sup, a.w);
    assert e.log[|e.log| - 1] == k;
  }

  lemma SentTerm(cfg: Config, s: State, r: Signals)
    requires MaySendCancellation(s)
    ensures var t := SendCancellation(cfg, s, r, []);
            && t.w == s.w && t.sup.exit == s.sup.exit && t.sup.cancel.deadline == At(s.w.clock + cfg.grace)
            && t.sup.cleanup == s.sup.cleanup.(failed := t.sup.cleanup.failed)
            && Event(CancelTerm, s.sup, s.w) in t.log
  {
    var t := SignalGroup(s, CancelTerm, r);
    assert Env(t, []) == t;
    assert t.log[|t.log| - 1] == Event(CancelTerm, s.sup, s.w);
  }

  /** In every run with the SIGTERM `a`, every SIGKILL leaves it the grace period. */
  ghost predicate GraceKept(cfg: Config, a: Event) {
    forall run: seq<State>, obs: seq<Obs> :: IsRun(cfg, run, obs) && a in run[|obs|].log ==>
      KillsLater(run[|obs|], a.world.clock + cfg.grace)
  }

  ghost predicate KillsLater(s: State, time: int) {
    forall k :: k in s.log && k.what == Kill ==> k.world.clock >= time
  }

  /** The SIGTERM cannot be overtaken: there is no grace period, cleanup has not started, or its own
      deadline is no earlier. */
  predicate GraceIsSafe(cfg: Config, a: Event) {
    || cfg.grace == 0
    || !a.sup.cleanup.started
    || (a.sup.cleanup.deadline.At? && a.sup.cleanup.deadline.time >= a.world.clock + cfg.grace)
  }

  lemma SafeIsKept(cfg: Config, a: Event)
    requires a.what == CancelTerm && GraceIsSafe(cfg, a)
    ensures GraceKept(cfg, a)
  {
    assert EarliestKill(cfg, a) == a.world.clock + cfg.grace;
    forall run: seq<State>, obs: seq<Obs> | IsRun(cfg, run, obs) && a in run[|obs|].log
      ensures KillsLater(run[|obs|], a.world.clock + cfg.grace)
    {
      forall k | k in run[|obs|].log && k.what == Kill ensures k.world.clock >= a.world.clock + cfg.grace {
        KillsWait(cfg, run, obs, |obs|, a, k);
      }
    }
  }

  /** The decision is taken before any SIGKILL, and while cleanup is still under way if it has started. */
  lemma StillCleaning(cfg: Config, run: seq<State>, obs: seq<Obs>, o: Obs)
    requires IsRun(cfg, run, obs) && !Finished(run[|obs|]) && MaySendCancellation(BeforeTerm(cfg, run[|obs|], o))
    ensures var s := BeforeTerm(cfg, run[|obs|], o);
            && !s.sup.cleanup.forced
            && (s.sup.cleanup.started ==> CleaningUp(cfg, s) && s.sup.cleanup.deadline.At?)
  {
    var z := run[|obs|];
    RunBoundary(cfg, run, obs, |obs|);
    BeforeTermReached(cfg, z, o);
    BeforeTermLeaves(cfg, z, o);
    if z.sup.cleanup.forced { ForcedNeverSends(cfg, z, o); }
    if z.sup.cleanup.complete && cfg.controlled { CompleteIsReaped(cfg, run, obs, |obs|); }
  }

  /** An iteration with the same decision that kills within the grace period. */
  lemma CutIteration(cfg: Config, z: State, o: Obs) returns (r: Obs, k: Event)
    requires !Finished(z)
    requires var s := BeforeTerm(cfg, z, o);
             && MaySendCancellation(s) && CleaningUp(cfg, s) && !s.sup.cleanup.forced && s.sup.cleanup.deadline.At?
             && !GraceIsSafe(cfg, Event(CancelTerm, s.sup, s.w))
    ensures var s := BeforeTerm(cfg, z, o);
            var next := Iterate(cfg, z, r);
            && Event(CancelTerm, s.sup, s.w) in next.log
            && k in next.log && k.what == Kill && k.world.clock < s.w.clock + cfg.grace
  {
    var s := BeforeTerm(cfg, z, o);
    var ticks := if s.sup.cleanup.deadline.time <= s.w.clock then 0 else s.sup.cleanup.deadline.time - s.w.clock;
    r := Rushed(o, ticks);
    RushedDecidesAlike(cfg, z, o, ticks);
    SentTerm(cfg, s, o.cancelSignals);
    var t := PassGate(cfg, z, r);
    k := RushedKills(cfg, t, o, ticks);
    DrainOnlyReads(CleanUp(cfg, t, r), r);
  }

  lemma EarlyKillRefutes(cfg: Config, run: seq<State>, obs: seq<Obs>, a: Event, k: Event)
    requires IsRun(cfg, run, obs) && a in run[|obs|].log
    requires k in run[|obs|].log && k.what == Kill && k.world.clock < a.world.clock + cfg.grace
    ensures !GraceKept(cfg, a)
  {
    assert !KillsLater(run[|obs|], a.world.clock + cfg.grace);
  }

  lemma EarlyKillFollows(
    cfg: Config, run: seq<State>, obs: seq<Obs>, r: Obs, next: State, a: Event, k: Event)
    requires IsRun(cfg, run, obs) && next == Iterate(cfg, run[|obs|], r) && a in next.log
    requires k in next.log && k.what == Kill && k.world.clock < a.world.clock + cfg.grace
    ensures !GraceKept(cfg, a)
  {
    ExtendRun(cfg, run, obs, next, r);
    EarlyKillRefutes(cfg, run + [next], obs + [r], a, k);
  }

  /** Otherwise the same decision can be followed by a SIGKILL within the grace period. */
  lemma UnsafeCanBeCut(cfg: Config, run: seq<State>, obs: seq<Obs>, o: Obs)
    requires IsRun(cfg, run, obs) && !Finished(run[|obs|])
    requires var s := BeforeTerm(cfg, run[|obs|], o);
             MaySendCancellation(s) && !GraceIsSafe(cfg, Event(CancelTerm, s.sup, s.w))
    ensures var s := BeforeTerm(cfg, run[|obs|], o); !GraceKept(cfg, Event(CancelTerm, s.sup, s.w))
  {
    StillCleaning(cfg, run, obs, o);
    var r, k := CutIteration(cfg, run[|obs|], o);
    var s := BeforeTerm(cfg, run[|obs|], o);
    EarlyKillFollows(cfg, run, obs, r, Iterate(cfg, run[|obs|], r), Event(CancelTerm, s.sup, s.w), k);
  }

  /** DESIGN.md promises that SIGTERM is never followed by SIGKILL before the grace period has elapsed.  This
      holds of a cancellation SIGTERM in every run exactly under the guard. */
  lemma GraceKeptIff(cfg: Config, run: seq<State>, obs: seq<Obs>, o: Obs)
    requires IsRun(cfg, run, obs) && !Finished(run[|obs|]) && MaySendCancellation(BeforeTerm(cfg, run[|obs|], o))
    ensures var s := BeforeTerm(cfg, run[|obs|], o);
            var a := Event(CancelTerm, s.sup, s.w);
            GraceKept(cfg, a) <==> GraceIsSafe(cfg, a)
  {
    var s := BeforeTerm(cfg, run[|obs|], o);
    var a := Event(CancelTerm, s.sup, s.w);
    if GraceIsSafe(cfg, a) {
      SafeIsKept(cfg, a);
    } else {
      UnsafeCanBeCut(cfg, run, obs, o);
    }
  }
}
