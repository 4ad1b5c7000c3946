/**
 What every block of the supervisor loop keeps, under every interference.
 */
module SupervisorInvariant {
  import opened Options
  import opened ControlRecord
  import opened Child
  import opened Supervisor

  /** Start gate against the child's own position. */
  ghost predicate GateInv(w: World, g: Gate) {
    && WorldInv(w)
    && (g.released <==> w.start.sent != [])
    && (g.startOpen ==> !g.released)
    && (g.readySeen ==> w.ready.sent == [1])
    && (g.readySeen <==> w.ready.taken > 0)
  }

  ghost predicate ExitInv(w: World, x: Exit) {
    && (x.exited ==> w.child.Gone? && x.information == Some(w.child.how))
    && (x.reaped <==> w.reaped)
    && (x.reaped ==> x.exited)
  }

  /** Cancellation is either before the gate, which then stays shut, or after it was released. */
  ghost predicate CancelInv(cfg: Config, c: Cancel, g: Gate, confirmed: bool) {
    && (c.observed ==> cfg.controlled)
    && (c.beforeStart ==> c.observed && !g.released && !g.startOpen)
    && (c.observed && !c.beforeStart ==> g.released)
    && (c.attempted ==> c.observed && c.deadline.At? && (c.beforeStart || confirmed))
    && (c.delivered ==> c.attempted)
  }

  /** The control buffer is a prefix of the child's record, and exec confirmation is exactly a quiet
      end of the control pipe after the gate was released. */
  ghost predicate ControlInv(w: World, c: ControlEnd, released: bool) {
    && w.control.taken <= |w.control.sent|
    && c.bytes == w.control.sent[..w.control.taken]
    && |c.bytes| <= RECORD_SIZE
    && (|c.bytes| == RECORD_SIZE ==> !c.open)
    && (c.broken ==> !c.open && !c.confirmed)
    && (c.confirmed ==>
          && !c.open
          && c.bytes == []
          && released
          && ControlEnded(w)
          && (w.execd || SilentDeath(w)))
    && (!c.open && !c.broken && |c.bytes| < RECORD_SIZE ==>
          && ControlEnded(w)
          && (c.bytes == [] && !c.confirmed ==> w.child.Gone? && !released))
  }

  /** A capture is a prefix of what was written, and all of it once its end was seen. */
  ghost predicate CaptureInv(w: World, which: Stream, c: Capture, failed: bool) {
    var p := PipeOf(w, which);
    && p.taken <= |p.sent|
    && c.text == p.sent[..p.taken]
    && (!c.open && !failed ==> p.taken == |p.sent| && !Held(w, which))
  }

  ghost predicate StreamInv(w: World, output: Capture, error: Capture, failed: bool) {
    && CaptureInv(w, Output, output, failed)
    && CaptureInv(w, Error, error, failed)
  }

  /** Escalation and cleanup of a controlled run. */
  ghost predicate CleanupInv(cfg: Config, k: Cleanup, past: History, x: Exit, attempted: bool, members: set<nat>) {
    && (k.forced ==> (attempted || k.started) && k.deadline.At?)
    && (k.started ==> cfg.controlled && x.exited && k.deadline.At?)
    && past.flips == (if k.forced then 1 else 0)
    && past.moves <= past.flips
    && (past.gaveUp ==> cfg.controlled && k.complete && k.failed && k.forced)
    && (cfg.controlled && k.complete ==> k.started)
    && (cfg.controlled && k.complete && !past.gaveUp ==> members == {})
    && (cfg.controlled && x.reaped ==> k.complete)
  }

  predicate IsSignal(what: What) {
    what == CancelTerm || what == CleanupTerm || what == Kill
  }

  /** What each logged act says about the state it was done in. */
  ghost predicate EventOk(cfg: Config, e: Event) {
    && (IsSignal(e.what) ==>
          && cfg.controlled
          && !(e.sup.gate.released && !e.sup.control.confirmed && !e.sup.exit.exited)
          && (e.world.child.Gone? || e.world.execd || (e.sup.cancel.beforeStart && e.world.start.sent == [])))
    && (e.what == Released ==>
          && !e.sup.cancel.observed
          && !e.sup.gate.released
          && e.world.done == e.world.plan
          && !e.world.execd)
    && (e.what == Reap && cfg.controlled ==> e.sup.cleanup.complete)
    && (e.what == Scan(true) ==> e.sup.exit.exited && e.world.child.Gone? && e.world.members == {})
  }

  ghost predicate LogInv(cfg: Config, s: State) {
    && (forall e :: e in s.log ==> EventOk(cfg, e))
    && (forall e :: e in s.log && (IsSignal(e.what) || e.what.Scan?) && e.sup.exit.reaped ==> s.past.gaveUp)
    && (forall e :: e in s.log && e.what == Kill ==> s.sup.cleanup.forced)
    && (forall e :: e in s.log ==>
          && (e.sup.cancel.beforeStart ==> s.sup.cancel.beforeStart)
          && (e.world.execd ==> s.w.execd))
    && (s.sup.cleanup.complete && cfg.controlled && !s.past.gaveUp ==> exists e :: e in s.log && e.what == Scan(true))
  }

  /** `a` is the cancellation SIGTERM, sent before any SIGKILL. */
  predicate FirstTerm(a: Event) {
    a.what == CancelTerm && !a.sup.cleanup.forced
  }

  /** No SIGKILL of the run can be earlier: the end of the grace period, unless cleanup was already under
      way with an earlier deadline of its own. */
  function EarliestKill(cfg: Config, a: Event): int {
    var full, own := a.world.clock + cfg.grace, a.sup.cleanup.deadline;
    if !a.sup.cleanup.started || own.Never? || own.time >= full then full
    else if own.time <= a.world.clock then a.world.clock
    else own.time
  }

  ghost predicate GraceInv(cfg: Config, s: State) {
    forall a :: a in s.log && FirstTerm(a) ==>
      && s.sup.cancel.attempted
      && s.w.clock >= a.world.clock
      && s.sup.cancel.deadline.At?
      && s.sup.cancel.deadline.time >= EarliestKill(cfg, a)
      && (s.sup.cleanup.started && !s.sup.cleanup.forced ==>
            && s.sup.cleanup.deadline.At?
            && (s.sup.cleanup.deadline.time >= EarliestKill(cfg, a) || a.world.clock >= EarliestKill(cfg, a)))
      && (s.sup.cleanup.forced ==> s.w.clock >= EarliestKill(cfg, a))
      && (forall k :: k in s.log && k.what == Kill ==> k.world.clock >= EarliestKill(cfg, a))
  }

  /** The part of the invariant that does not mention the log. */
  ghost predicate StateInv(cfg: Config, s: State) {
    && GateInv(s.w, s.sup.gate)
    && ExitInv(s.w, s.sup.exit)
    && CancelInv(cfg, s.sup.cancel, s.sup.gate, s.sup.control.confirmed)
    && ControlInv(s.w, s.sup.control, s.sup.gate.released)
    && StreamInv(s.w, s.sup.output, s.sup.error, s.sup.captureFailed)
    && CleanupInv(cfg, s.sup.cleanup, s.past, s.sup.exit, s.sup.cancel.attempted, s.w.members)
  }

  ghost predicate Inv(cfg: Config, s: State) {
    && StateInv(cfg, s)
    && LogInv(cfg, s)
    && GraceInv(cfg, s)
  }

  ghost predicate CancelProgress(a: Sup, b: Sup) {
    && (a.cancel.observed ==> b.cancel.observed && b.cancel.beforeStart == a.cancel.beforeStart)
    && (a.exit.exited && !a.cancel.observed ==> !b.cancel.observed)
    && (a.cancel.attempted ==> b.cancel == a.cancel)
  }

  ghost predicate CleanupProgress(cfg: Config, a: Cleanup, b: Cleanup, p: History, q: History) {
    && (a.forced ==> b.forced)
    && (a.started ==> b.started)
    && (cfg.controlled && a.complete ==> b.complete && q.gaveUp == p.gaveUp)
    && (cfg.controlled && a.failed ==> b.failed)
    && (a.started && (a.forced || !b.forced) ==> b.deadline == a.deadline)
  }

  ghost predicate ExitProgress(a: Exit, b: Exit) {
    && (a.exited ==> b.exited && b.information == a.information)
    && (a.reaped ==> b.reaped)
  }

  ghost predicate WorldProgress(a: World, b: World) {
    && a.clock <= b.clock
    && b.plan == a.plan
    && (a.execd ==> b.execd)
    && (a.child.Gone? ==> b.child == a.child && b.execd == a.execd && b.control.sent == a.control.sent)
    && (a.child.Gone? && a.members == {} ==> b.members == {})
    && (!Held(a, Output) ==> b.output.sent == a.output.sent && !Held(b, Output))
    && (!Held(a, Error) ==> b.error.sent == a.error.sent && !Held(b, Error))
  }

  /** What can never be undone between two points of a run. */
  ghost predicate Progress(cfg: Config, a: State, b: State) {
    && a.log <= b.log
    && WorldProgress(a.w, b.w)
    && (a.sup.gate.released ==> b.sup.gate.released)
    && (a.sup.control.confirmed ==> b.sup.control.confirmed)
    && (a.sup.captureFailed ==> b.sup.captureFailed)
    && ExitProgress(a.sup.exit, b.sup.exit)
    && CancelProgress(a.sup, b.sup)
    && CleanupProgress(cfg, a.sup.cleanup, b.sup.cleanup, a.past, b.past)
  }

  lemma InitialInv(cfg: Config)
    ensures Inv(cfg, Initial(cfg))
  {
    ForkedInv(cfg.isolated);
  }

  lemma EnvKeeps(cfg: Config, s: State, steps: seq<Step>)
    requires Inv(cfg, s)
    ensures Inv(cfg, Env(s, steps)) && Progress(cfg, s, Env(s, steps))
  {
    InterfereFacts(s.w, steps);
  }

  /** The log grows by one act done in state `s`, on the way to state `t`. */
  lemma AppendLog(cfg: Config, s: State, t: State, what: What)
    requires LogInv(cfg, s)
    requires t.log == s.log + [Event(what, s.sup, s.w)] && EventOk(cfg, Event(what, s.sup, s.w))
    requires s.past.gaveUp ==> t.past.gaveUp
    requires s.sup.cleanup.forced || what == Kill ==> t.sup.cleanup.forced
    requires s.sup.cancel.beforeStart ==> t.sup.cancel.beforeStart
    requires s.w.execd ==> t.w.execd
    requires (IsSignal(what) || what.Scan?) && s.sup.exit.reaped ==> t.past.gaveUp
    requires cfg.controlled && t.sup.cleanup.complete && !t.past.gaveUp ==> s.sup.cleanup.complete || what == Scan(true)
    ensures LogInv(cfg, t)
  {
    var e := Event(what, s.sup, s.w);
    assert e in t.log;
    assert forall x :: x in t.log <==> x in s.log || x == e;
  }

  lemma ObserveExitState(cfg: Config, s: State, fails: bool)
    requires StateInv(cfg, s)
    ensures StateInv(cfg, ObserveExit(s, fails))
  {}

  lemma ObserveExitLog(cfg: Config, s: State, fails: bool)
    requires Inv(cfg, s)
    ensures var t := ObserveExit(s, fails); LogInv(cfg, t) && GraceInv(cfg, t)
  {
    if !s.sup.exit.exited && ObserveExit(s, fails).sup.exit.exited {
      AppendLog(cfg, s, ObserveExit(s, fails), ExitSeen);
    }
  }

  lemma ObserveExitKeeps(cfg: Config, s: State, fails: bool)
    requires Inv(cfg, s)
    ensures var t := ObserveExit(s, fails); Inv(cfg, t) && Progress(cfg, s, t)
  {
    ObserveExitState(cfg, s, fails);
    ObserveExitLog(cfg, s, fails);
  }

  lemma ObserveCancellationState(cfg: Config, s: State, token: bool)
    requires StateInv(cfg, s)
    ensures StateInv(cfg, ObserveCancellation(cfg, s, token))
  {}

  lemma ObserveCancellationKeeps(cfg: Config, s: State, token: bool)
    requires Inv(cfg, s)
    ensures var t := ObserveCancellation(cfg, s, token); Inv(cfg, t) && Progress(cfg, s, t)
  {
    var t := ObserveCancellation(cfg, s, token);
    ObserveCancellationState(cfg, s, token);
    if t != s { AppendLog(cfg, s, t, CancelSeen); }
  }

  lemma WriteStartState(cfg: Config, s: State, works: bool)
    requires StateInv(cfg, s) && s.sup.gate.readySeen && !s.sup.gate.released && !s.sup.cancel.observed
    ensures StateInv(cfg, WriteStart(s, works))
  {}

  lemma WriteStartKeeps(cfg: Config, s: State, works: bool)
    requires Inv(cfg, s) && s.sup.gate.readySeen && !s.sup.gate.released && !s.sup.cancel.observed
    ensures var t := WriteStart(s, works); Inv(cfg, t) && Progress(cfg, s, t)
  {
    var t := WriteStart(s, works);
    WriteStartState(cfg, s, works);
    if t.sup.gate.released { AppendLog(cfg, s, t, Released); }
  }

  lemma ReleaseGateKeeps(cfg: Config, s: State, token: bool, meanwhile: seq<Step>, works: bool)
    requires Inv(cfg, s)
    ensures var t := ReleaseGate(cfg, s, token, meanwhile, works); Inv(cfg, t) && Progress(cfg, s, t)
  {
    var t := ObserveCancellation(cfg, s, token);
    ObserveCancellationKeeps(cfg, s, token);
    if s.sup.gate.readySeen && !s.sup.gate.released && !s.sup.cancel.observed && !t.sup.cancel.observed {
      EnvKeeps(cfg, t, meanwhile);
      WriteStartKeeps(cfg, Env(t, meanwhile), works);
    }
  }

  lemma SendCancellationState(cfg: Config, s: State, r: Signals, meanwhile: seq<Step>)
    requires StateInv(cfg, s)
    ensures StateInv(cfg, SendCancellation(cfg, s, r, meanwhile))
  {
    InterfereFacts(s.w, meanwhile);
  }

  lemma SendCancellationLog(cfg: Config, s: State, r: Signals, meanwhile: seq<Step>)
    requires StateInv(cfg, s) && LogInv(cfg, s)
    requires s.sup.exit.reaped && cfg.controlled ==> s.past.gaveUp
    ensures LogInv(cfg, SendCancellation(cfg, s, r, meanwhile))
  {
    if MaySendCancellation(s) {
      InterfereFacts(s.w, meanwhile);
      AppendLog(cfg, s, SendCancellation(cfg, s, r, meanwhile), CancelTerm);
    }
  }

  lemma SendCancellationGrace(cfg: Config, s: State, r: Signals, meanwhile: seq<Step>)
    requires Inv(cfg, s)
    ensures GraceInv(cfg, SendCancellation(cfg, s, r, meanwhile))
  {
    InterfereFacts(s.w, meanwhile);
  }

  lemma SendCancellationProgress(cfg: Config, s: State, r: Signals, meanwhile: seq<Step>)
    requires StateInv(cfg, s)
    ensures Progress(cfg, s, SendCancellation(cfg, s, r, meanwhile))
  {
    InterfereFacts(s.w, meanwhile);
  }

  lemma SendCancellationKeeps(cfg: Config, s: State, r: Signals, meanwhile: seq<Step>)
    requires Inv(cfg, s)
    requires s.sup.exit.reaped && cfg.controlled ==> s.past.gaveUp
    ensures var t := SendCancellation(cfg, s, r, meanwhile); Inv(cfg, t) && Progress(cfg, s, t)
  {
    SendCancellationState(cfg, s, r, meanwhile);
    SendCancellationLog(cfg, s, r, meanwhile);
    SendCancellationGrace(cfg, s, r, meanwhile);
    SendCancellationProgress(cfg, s, r, meanwhile);
  }

  lemma ForceAfterGraceState(cfg: Config, s: State, now: int, r: Signals)
    requires StateInv(cfg, s) && now <= s.w.clock
    ensures StateInv(cfg, ForceAfterGrace(s, now, r))
  {}

  lemma ForceAfterGraceLog(cfg: Config, s: State, now: int, r: Signals)
    requires Inv(cfg, s) && now <= s.w.clock
    ensures var t := ForceAfterGrace(s, now, r); LogInv(cfg, t) && GraceInv(cfg, t)
  {
    if ForceAfterGrace(s, now, r) != s { AppendLog(cfg, s, ForceAfterGrace(s, now, r), Kill); }
  }

  lemma ForceAfterGraceKeeps(cfg: Config, s: State, now: int, r: Signals)
    requires Inv(cfg, s) && now <= s.w.clock
    ensures var t := ForceAfterGrace(s, now, r); Inv(cfg, t) && Progress(cfg, s, t)
  {
    ForceAfterGraceState(cfg, s, now, r);
    ForceAfterGraceLog(cfg, s, now, r);
  }

  lemma StartCleanupState(cfg: Config, s: State, now: int, r: Signals)
    requires StateInv(cfg, s)
    ensures StateInv(cfg, StartCleanup(cfg, s, now, r))
  {}

  lemma StartCleanupLog(cfg: Config, s: State, now: int, r: Signals)
    requires Inv(cfg, s)
    ensures var t := StartCleanup(cfg, s, now, r); LogInv(cfg, t) && GraceInv(cfg, t)
  {
    if s.sup.exit.exited && cfg.controlled && !s.sup.cleanup.started && !s.sup.cancel.attempted {
      AppendLog(cfg, s, StartCleanup(cfg, s, now, r), CleanupTerm);
    }
  }

  lemma StartCleanupKeeps(cfg: Config, s: State, now: int, r: Signals)
    requires Inv(cfg, s)
    ensures var t := StartCleanup(cfg, s, now, r); Inv(cfg, t) && Progress(cfg, s, t)
  {
    StartCleanupState(cfg, s, now, r);
    StartCleanupLog(cfg, s, now, r);
  }

  /** A SIGKILL pass after the first one. */
  lemma KillAgainLog(cfg: Config, s: State, r: Signals)
    requires Inv(cfg, s) && CleaningUp(cfg, s) && s.sup.cleanup.forced
    ensures var t := SignalGroup(s, Kill, r); LogInv(cfg, t) && GraceInv(cfg, t)
  {
    AppendLog(cfg, s, SignalGroup(s, Kill, r), Kill);
  }

  lemma RepeatKillKeeps(cfg: Config, s: State, r: Signals)
    requires Inv(cfg, s)
    ensures var t := RepeatKill(cfg, s, r); Inv(cfg, t) && Progress(cfg, s, t)
  {
    if CleaningUp(cfg, s) && s.sup.cleanup.forced { KillAgainLog(cfg, s, r); }
  }

  lemma EscalateState(cfg: Config, s: State, now: int, r: Signals)
    requires StateInv(cfg, s) && CleaningUp(cfg, s)
    ensures StateInv(cfg, Escalate(s, now, r))
  {}

  lemma EscalateLog(cfg: Config, s: State, now: int, r: Signals)
    requires Inv(cfg, s) && CleaningUp(cfg, s) && now <= s.w.clock
    ensures var t := Escalate(s, now, r); LogInv(cfg, t) && GraceInv(cfg, t)
  {
    if Passed(s.sup.cleanup.deadline, now) { AppendLog(cfg, s, Escalate(s, now, r), Kill); }
  }

  lemma EscalateKeeps(cfg: Config, s: State, now: int, r: Signals)
    requires Inv(cfg, s) && CleaningUp(cfg, s) && now <= s.w.clock
    ensures var t := Escalate(s, now, r); Inv(cfg, t) && Progress(cfg, s, t)
  {
    EscalateState(cfg, s, now, r);
    EscalateLog(cfg, s, now, r);
  }

  function NoteScan(s: State, clean: bool): State {
    var t := Note(s, Scan(clean));
    if clean then SetCleanup(t, t.sup.cleanup.(complete := true)) else t
  }

  lemma NoteScanKeeps(cfg: Config, s: State, clean: bool)
    requires Inv(cfg, s) && CleaningUp(cfg, s)
    requires clean ==> s.w.members == {}
    ensures var t := NoteScan(s, clean); Inv(cfg, t) && Progress(cfg, s, t)
  {
    AppendLog(cfg, s, NoteScan(s, clean), Scan(clean));
  }

  lemma ScanGroupKeeps(cfg: Config, s: State, now: int, works: bool, r: Signals)
    requires Inv(cfg, s) && now <= s.w.clock
    ensures var t := ScanGroup(cfg, s, now, works, r); Inv(cfg, t) && Progress(cfg, s, t)
  {
    if CleaningUp(cfg, s) {
      var clean := works && s.w.members == {};
      NoteScanKeeps(cfg, s, clean);
      if !clean { EscalateKeeps(cfg, Note(s, Scan(clean)), now, r); }
    }
  }

  lemma ReapChildState(cfg: Config, s: State, groupGone: bool)
    requires StateInv(cfg, s)
    ensures StateInv(cfg, ReapChild(cfg, s, groupGone))
  {}

  lemma ReapChildLog(cfg: Config, s: State, groupGone: bool)
    requires Inv(cfg, s)
    ensures LogInv(cfg, ReapChild(cfg, s, groupGone))
  {
    if !s.sup.exit.reaped && ReapChild(cfg, s, groupGone).sup.exit.reaped {
      AppendLog(cfg, s, ReapChild(cfg, s, groupGone), Reap);
    }
  }

  lemma ReapChildGrace(cfg: Config, s: State, groupGone: bool)
    requires Inv(cfg, s)
    ensures GraceInv(cfg, ReapChild(cfg, s, groupGone))
  {}

  lemma ReapChildKeeps(cfg: Config, s: State, groupGone: bool)
    requires Inv(cfg, s)
    ensures var t := ReapChild(cfg, s, groupGone); Inv(cfg, t) && Progress(cfg, s, t)
  {
    ReapChildState(cfg, s, groupGone);
    ReapChildLog(cfg, s, groupGone);
    ReapChildGrace(cfg, s, groupGone);
  }
}
