/**
 The child side of the start gate, together with everything else the supervisor cannot control:
 descendants, pipes and the clock.  A `World` changes only by `Step`s, which may be interleaved
 with the supervisor at any point; a step that is not enabled leaves the world unchanged, so every
 sequence of steps is a schedule.
 */
module Child {
  import opened Options
  import opened ControlRecord

  datatype Termination = Exited(code: nat) | Signaled(signal: nat)

  /** A failure record together with its bytes. */
  datatype Message = Message(record: Record, bytes: seq<Byte>)

  function Compose(r: Record): (m: Message)
    ensures |m.bytes| == RECORD_SIZE && m.record == r
  {
    Message(r, Encode(r))
  }

  /** Where the child is in child_main, or after it. */
  datatype Pc =
    | Setup(todo: seq<Stage>)        // setup stages still ahead; [] means about to announce readiness
    | Await                          // reading the start pipe
    | Launch                         // start byte read, execveat not yet attempted
    | Reporting(message: Message)    // writing a failure record on the control pipe
    | Running                        // the interpreter image
    | Gone(how: Termination)         // a zombie until the supervisor reaps it

  /** A pipe as seen from its read end.  `open` is whether a write end still exists. */
  datatype Pipe = Pipe(sent: seq<Byte>, taken: nat, open: bool)

  const FRESH: Pipe := Pipe([], 0, true)

  datatype Stream = Output | Error

  datatype World = World(
    child: Pc,
    plan: seq<Stage>,                // the setup stages this child has to pass
    done: seq<Stage>,                // those that have succeeded, in order
    execd: bool,                     // whether execveat ever succeeded
    reported: Option<Message>,       // the failure the child set out to report, if any
    control: Pipe,
    ready: Pipe,
    start: Pipe,
    output: Pipe,
    error: Pipe,
    members: set<nat>,               // group members other than the leader, dead or alive, not yet reaped
    reaped: bool,                    // whether the leader has been reaped
    clock: int)

  datatype Step =
    | StageSucceeds
    | StageFails(value: SignedWord, detail: Word)
    | Announces
    | AnnounceFails
    | ReadsStart
    | Executes
    | ExecFails(value: SignedWord)
    | Reports(n: nat)                // one successful write of up to n bytes of the record
    | ReportStops                    // a hard write error ends the report early
    | Killed(signal: nat)            // the leader dies of a signal, whoever sent it
    | Exits(code: nat)
    | Writes(to: Stream, bytes: seq<Byte>)
    | Closes(of: Stream)             // the last remaining holder closes its write end
    | Forks(id: nat)
    | MemberGone(id: nat)            // a member has exited and has been reaped
    | Ticks(d: nat)

  /** The setup stages of child_main, in the order they run. */
  function SetupStages(isolated: bool): seq<Stage> {
    [ProcessGroup, StandardStreams]
    + (if isolated then [MountIsolation, NetworkIsolation] else [])
    + [WorkingDirectory]
    + (if isolated then [CapabilityDrop] else [])
    + [ResourceLimits, Containment]
  }

  function Forked(isolated: bool): World {
    var plan := SetupStages(isolated);
    World(Setup(plan), plan, [], false, None, FRESH, FRESH, FRESH, FRESH, FRESH, {}, false, 0)
  }

  function PipeOf(w: World, which: Stream): Pipe {
    match which case Output => w.output case Error => w.error
  }

  function SetPipe(w: World, which: Stream, p: Pipe): World {
    match which case Output => w.(output := p) case Error => w.(error := p)
  }

  /** Whether some process still holds a write end of a captured stream. */
  predicate Held(w: World, which: Stream) {
    PipeOf(w, which).open && (!w.child.Gone? || w.members != {})
  }

  /** The program or one of its descendants is able to act. */
  predicate Active(w: World) {
    w.child.Running? || w.members != {}
  }

  /** Leaving the process closes the control and ready write ends. */
  function Leave(w: World, how: Termination): World {
    w.(child := Gone(how), control := w.control.(open := false), ready := w.ready.(open := false))
  }

  function Report(w: World, r: Record): World {
    var m := Compose(r);
    w.(child := Reporting(m), reported := Some(m))
  }

  function Apply(w: World, step: Step): World {
    match step
    case StageSucceeds =>
      if w.child.Setup? && w.child.todo != [] then
        w.(child := Setup(w.child.todo[1..]), done := w.done + [w.child.todo[0]])
      else w
    case StageFails(value, detail) =>
      if w.child.Setup? && w.child.todo != [] then Report(w, Record(w.child.todo[0], value, detail)) else w
    case Announces =>
      if w.child == Setup([]) then
        w.(child := Await, ready := Pipe(w.ready.sent + [1], w.ready.taken, false))
      else w
    case AnnounceFails =>
      if w.child == Setup([]) then Leave(w, Exited(125)) else w
    case ReadsStart =>
      if !w.child.Await? then w
      else if w.start.sent != [] then
        if w.start.sent[0] == 1 then w.(child := Launch, start := w.start.(taken := 1))
        else Leave(w, Exited(125))
      else if !w.start.open then Leave(w, Exited(125))
      else w
    case Executes =>
      // The control descriptor is close-on-exec.
      if w.child.Launch? then
        w.(child := Running, execd := true, control := w.control.(open := false))
      else w
    case ExecFails(value) =>
      if w.child.Launch? then Report(w, Record(Execute, value, 0)) else w
    case Reports(n) =>
      if w.child.Reporting? && n > 0 then
        var whole := w.child.message.bytes;
        var at := |w.control.sent|;
        if at + n < |whole| then w.(control := w.control.(sent := whole[..at + n]))
        else Leave(w.(control := w.control.(sent := whole)), ReportExit(w.child.message.record))
      else w
    case ReportStops =>
      if w.child.Reporting? then Leave(w, ReportExit(w.child.message.record)) else w
    case Killed(signal) =>
      if w.child.Gone? then w else Leave(w, Signaled(signal))
    case Exits(code) =>
      if w.child.Running? then Leave(w, Exited(code)) else w
    case Writes(to, bytes) =>
      if Active(w) && Held(w, to) then
        var p := PipeOf(w, to);
        SetPipe(w, to, p.(sent := p.sent + bytes))
      else w
    case Closes(of) =>
      if Active(w) then SetPipe(w, of, PipeOf(w, of).(open := false)) else w
    case Forks(id) =>
      if Active(w) then w.(members := w.members + {id}) else w
    case MemberGone(id) =>
      w.(members := w.members - {id})
    case Ticks(d) =>
      w.(clock := w.clock + d)
  }

  function ReportExit(r: Record): Termination {
    if r.stage == Execute then Exited(127) else Exited(125)
  }

  function Interfere(w: World, steps: seq<Step>): World
    decreases |steps|
  {
    if steps == [] then w else Interfere(Apply(w, steps[0]), steps[1..])
  }

  /** The child died after the start byte was written, without executing and without reporting. */
  predicate SilentDeath(w: World) {
    w.child.Gone? && !w.execd && w.start.sent != [] && w.control.sent == []
  }

  /** The child was killed by a signal after the start byte was written and before it executed. */
  predicate KilledBeforeExec(w: World) {
    w.child.Gone? && w.child.how.Signaled? && !w.execd && w.start.sent != []
  }

  /** execveat failed, and not one byte of the child's report of that got through. */
  predicate ExecReportLost(w: World) {
    && w.reported.Some? && w.reported.value.record.stage == Execute
    && w.control.sent == []
    && w.child == Gone(ReportExit(w.reported.value.record))
  }

  /** The child can no longer write anything on the control pipe. */
  predicate ControlEnded(w: World) {
    !w.control.open && w.control.taken == |w.control.sent|
  }

  /** What every reachable world satisfies, whatever the schedule. */
  ghost predicate ChildInv(w: World) {
    && w.done <= w.plan
    && (w.child.Setup? ==> w.done + w.child.todo == w.plan && w.ready.sent == [])
    && (w.child.Await? || w.child.Launch? || w.execd ==> w.ready.sent == [1])
    && (w.child.Launch? || w.execd ==> w.start.sent != [])
    && (w.child.Running? ==> w.execd)
    && (w.execd ==> w.child.Running? || w.child.Gone?)
    && (w.child.Running? || w.child.Gone? <==> !w.control.open)
    && (w.child.Gone? ==> !w.ready.open)
    && (w.members != {} ==> w.execd)
    && (w.start.sent == [] || w.start.sent == [1])
    && (w.ready.sent == [] || w.ready.sent == [1])
    && (w.ready.sent == [1] ==> w.done == w.plan)
    && (w.reaped ==> w.child.Gone?)
  }

  /** What is on the control pipe is a prefix of the one record the child reports, if any. */
  ghost predicate ReportInv(w: World) {
    && (w.child.Reporting? ==> w.reported == Some(w.child.message) && |w.control.sent| < RECORD_SIZE)
    && (w.reported.None? ==> w.control.sent == [])
    && (w.reported.Some? ==>
          && |w.reported.value.bytes| == RECORD_SIZE
          && w.control.sent <= w.reported.value.bytes
          && !w.execd
          && (w.child.Reporting? || w.child.Gone?))
  }

  /** The bytes of the record are its encoding. */
  ghost predicate EncodedInv(w: World) {
    w.reported.Some? ==> w.reported.value == Compose(w.reported.value.record)
  }

  /** Why a child that was let through the gate can be dead without having executed. */
  ghost predicate DeathInv(w: World) {
    && Execute !in w.plan
    && (w.start.sent != [] ==> w.ready.sent == [1])
    && (w.reported.Some? && w.reported.value.record.stage == Execute ==> w.start.sent != [])
    && (w.reported.Some? && w.ready.sent == [1] ==> w.reported.value.record.stage == Execute)
    && (w.reported.Some? && w.reported.value.record.stage != Execute ==>
          |w.done| < |w.plan| && w.reported.value.record.stage == w.plan[|w.done|])
    && (w.child.Gone? && !w.execd && w.start.sent != [] ==>
          || w.child.how.Signaled?
          || (w.reported.Some? && w.child.how == ReportExit(w.reported.value.record)))
  }

  ghost predicate WorldInv(w: World) {
    ChildInv(w) && ReportInv(w) && EncodedInv(w) && DeathInv(w)
  }

  /** A silent death between gate and exec has one of two causes. */
  lemma SilentDeathCauses(w: World)
    requires WorldInv(w)
    ensures SilentDeath(w) <==> (KilledBeforeExec(w) && w.control.sent == []) || ExecReportLost(w)
  {}

  /** Death by a signal between gate and exec comes of a kill that hits the child there, and of no other step. */
  lemma KillIsTheCause(w: World, step: Step)
    requires WorldInv(w) && !KilledBeforeExec(w)
    ensures KilledBeforeExec(Apply(w, step)) <==> step.Killed? && !w.child.Gone? && !w.execd && w.start.sent != []
  {}

  /** A lost exec report comes of a hard write error, before the first byte of an execveat failure. */
  lemma WriteErrorIsTheCause(w: World, step: Step)
    requires WorldInv(w) && !ExecReportLost(w)
    ensures ExecReportLost(Apply(w, step)) <==>
            && step.ReportStops? && w.child.Reporting? && w.child.message.record.stage == Execute
            && w.control.sent == []
  {}

  lemma ForkedInv(isolated: bool)
    ensures WorldInv(Forked(isolated))
  {}

  lemma ApplyKeepsChildInv(w: World, step: Step)
    requires ChildInv(w)
    ensures ChildInv(Apply(w, step))
  {
    match step
    case StageSucceeds =>
      if w.child.Setup? && w.child.todo != [] {
        assert w.done + [w.child.todo[0]] + w.child.todo[1..] == w.done + w.child.todo;
      }
    case Announces =>
      if w.child == Setup([]) { assert w.done + [] == w.done; }
    case _ =>
  }

  lemma ApplyKeepsReportInv(w: World, step: Step)
    requires ChildInv(w) && ReportInv(w)
    ensures ReportInv(Apply(w, step))
  {}

  lemma ApplyKeepsEncodedInv(w: World, step: Step)
    requires ReportInv(w) && EncodedInv(w)
    ensures EncodedInv(Apply(w, step))
  {}

  lemma ApplyKeepsDeathInv(w: World, step: Step)
    requires ChildInv(w) && ReportInv(w) && DeathInv(w)
    ensures DeathInv(Apply(w, step))
  {
    if w.child.Setup? && w.child.todo != [] { assert w.child.todo[0] == w.plan[|w.done|]; }
  }

  /** How a world may differ from an earlier one when only the environment has acted. */
  ghost predicate Later(a: World, b: World) {
    && LaterChild(a, b)
    && LaterPipes(a, b)
    && LaterStream(a, b, Output)
    && LaterStream(a, b, Error)
    && (a.child.Gone? && a.members == {} ==> b == a.(clock := b.clock))
  }

  ghost predicate LaterChild(a: World, b: World) {
    && a.clock <= b.clock
    && b.plan == a.plan
    && (a.execd ==> b.execd)
    && (a.child.Gone? ==> b.child == a.child && b.execd == a.execd)
    && b.reaped == a.reaped
    && b.start.sent == a.start.sent && b.start.open == a.start.open
  }

  ghost predicate LaterPipes(a: World, b: World) {
    && (a.child.Gone? ==> b.control == a.control && b.ready == a.ready)
    && (!a.control.open ==> b.control == a.control)
    && a.control.sent <= b.control.sent && b.control.taken == a.control.taken
    && a.ready.sent <= b.ready.sent && b.ready.taken == a.ready.taken
  }

  ghost predicate LaterStream(a: World, b: World, which: Stream) {
    && PipeOf(a, which).sent <= PipeOf(b, which).sent
    && PipeOf(b, which).taken == PipeOf(a, which).taken
    && (!Held(a, which) ==> !Held(b, which) && PipeOf(b, which).sent == PipeOf(a, which).sent)
  }

  lemma ApplyStreamLater(w: World, step: Step, which: Stream)
    requires ChildInv(w)
    ensures LaterStream(w, Apply(w, step), which)
  {}

  lemma ApplyChildLater(w: World, step: Step)
    ensures LaterChild(w, Apply(w, step))
  {}

  lemma ApplyPipesLater(w: World, step: Step)
    requires ChildInv(w) && ReportInv(w)
    ensures LaterPipes(w, Apply(w, step))
  {}

  /** With the leader gone and no member left, nothing but the clock can change. */
  lemma ApplyWhenEmpty(w: World, step: Step)
    requires w.child.Gone? && w.members == {}
    ensures var v := Apply(w, step); v == w.(clock := v.clock)
  {
    if step.MemberGone? { assert w.members - {step.id} == {}; }
  }

  lemma ApplyIsLater(w: World, step: Step)
    requires ChildInv(w) && ReportInv(w)
    ensures Later(w, Apply(w, step))
  {
    ApplyChildLater(w, step);
    ApplyPipesLater(w, step);
    ApplyStreamLater(w, step, Output);
    ApplyStreamLater(w, step, Error);
    if w.child.Gone? && w.members == {} { ApplyWhenEmpty(w, step); }
  }

  lemma LaterTransitive(a: World, b: World, c: World)
    requires Later(a, b) && Later(b, c)
    ensures Later(a, c)
  {}

  lemma InterfereFacts(w: World, steps: seq<Step>)
    requires WorldInv(w)
    ensures WorldInv(Interfere(w, steps))
    ensures Later(w, Interfere(w, steps))
    decreases |steps|
  {
    if steps != [] {
      var mid := Apply(w, steps[0]);
      ApplyKeepsChildInv(w, steps[0]);
      ApplyKeepsReportInv(w, steps[0]);
      ApplyKeepsEncodedInv(w, steps[0]);
      ApplyKeepsDeathInv(w, steps[0]);
      ApplyIsLater(w, steps[0]);
      InterfereFacts(mid, steps[1..]);
      LaterTransitive(w, mid, Interfere(w, steps));
    }
  }

  /** The child is alive, has been let through the gate and has not executed yet. */
  predicate InStartGap(w: World) {
    !w.child.Gone? && !w.execd && w.start.sent != []
  }

  /** Over a whole schedule: a child that ends up killed between gate and exec met a kill there. */
  lemma {:induction false} KillAmongSteps(w: World, steps: seq<Step>) returns (i: nat)
    requires WorldInv(w) && !KilledBeforeExec(w) && KilledBeforeExec(Interfere(w, steps))
    ensures i < |steps| && steps[i].Killed? && InStartGap(Interfere(w, steps[..i]))
    decreases |steps|
  {
    var mid := Apply(w, steps[0]);
    KillIsTheCause(w, steps[0]);
    if KilledBeforeExec(mid) {
      i := 0;
    } else {
      InterfereFacts(w, steps[..1]);
      assert steps[..1] == [steps[0]] && [steps[0]][1..] == [];
      assert Interfere(w, [steps[0]]) == Interfere(mid, []) == mid;
      var j := KillAmongSteps(mid, steps[1..]);
      i := j + 1;
      assert steps[..i][1..] == steps[1..][..j];
    }
  }
}
