/**
 Classification of a finished run: which result execute_backend builds from the loop's variables.
 */
module Outcome {
  import opened Options
  import opened ControlRecord
  import opened Child
  import opened Supervisor

  datatype Guarantee =
    | CompleteStdoutCapture
    | CompleteStderrCapture
    | CleanupVerified
    | Cancellation
    | OtherGuarantee(id: nat)

  datatype FailureKind =
    | ResourceAdmissionFailed
    | IsolationSetupFailed
    | ProcessStartFailed
    | InterpreterUnavailable
    | LogCaptureFailed
    | CleanupFailed
    | ProgramExitedNonzero
    | ProgramTerminatedBySignal

  datatype Request = Request(required: seq<Guarantee>, captureOutput: bool, captureError: bool)

  datatype Result =
    | FailedBeforeStart(kind: FailureKind, established: seq<Guarantee>)
    | CancelledBeforeStart(established: seq<Guarantee>)
    | FailedAfterStart(
        termination: Termination,
        output: Option<seq<Byte>>,
        error: Option<seq<Byte>>,
        established: seq<Guarantee>,
        cleanup: bool,
        kind: FailureKind)
    | CancelledAfterStart(
        output: Option<seq<Byte>>,
        error: Option<seq<Byte>>,
        established: seq<Guarantee>,
        forced: bool)
    | Succeeded(output: Option<seq<Byte>>, error: Option<seq<Byte>>, established: seq<Guarantee>)

  predicate Started(r: Result) {
    r.FailedAfterStart? || r.CancelledAfterStart? || r.Succeeded?
  }

  const ENOENT := 2

  function ChildFailureKind(d: Decoded): FailureKind {
    if d.code == StageCode(Stage.WorkingDirectory) || d.code == StageCode(Stage.ResourceLimits) then
      ResourceAdmissionFailed
    else if d.code == StageCode(Stage.MountIsolation) || d.code == StageCode(Stage.NetworkIsolation)
         || d.code == StageCode(Stage.CapabilityDrop) || d.code == StageCode(Stage.Containment)
         || d.code == StageCode(Stage.ProcessGroup) then IsolationSetupFailed
    else if d.code == StageCode(Execute) && d.value == ENOENT then InterpreterUnavailable
    else ProcessStartFailed
  }

  function WithoutGuarantee(input: seq<Guarantee>, removed: Guarantee): seq<Guarantee> {
    if input == [] then []
    else (if input[0] == removed then [] else [input[0]]) + WithoutGuarantee(input[1..], removed)
  }

  function Verified(s: State, mountCleaned: bool): bool {
    s.sup.cleanup.complete && !s.sup.cleanup.failed && mountCleaned
  }

  function Established(req: Request, captureFailed: bool, verified: bool): seq<Guarantee> {
    var a := if captureFailed
             then WithoutGuarantee(WithoutGuarantee(req.required, CompleteStdoutCapture), CompleteStderrCapture)
             else req.required;
    if verified then a else WithoutGuarantee(a, CleanupVerified)
  }

  function Retained(wanted: bool, s: State, c: Capture): Option<seq<Byte>> {
    if wanted && !s.sup.captureFailed then Some(c.text) else None
  }

  function AfterStart(req: Request, s: State, verified: bool): Result {
    var output := Retained(req.captureOutput, s, s.sup.output);
    var error := Retained(req.captureError, s, s.sup.error);
    var established := Established(req, s.sup.captureFailed, verified);
    var how := if s.sup.exit.information.Some? then s.sup.exit.information.value else Signaled(0);
    if s.sup.captureFailed then FailedAfterStart(how, output, error, established, verified, LogCaptureFailed)
    else if !verified then FailedAfterStart(how, output, error, established, false, CleanupFailed)
    else if s.sup.cancel.delivered then CancelledAfterStart(output, error, established, s.sup.cleanup.forced)
    else match how
      case Exited(code) =>
        if code == 0 then Succeeded(output, error, established)
        else FailedAfterStart(how, output, error, established, true, ProgramExitedNonzero)
      case Signaled(_) =>
        FailedAfterStart(how, output, error, established, true, ProgramTerminatedBySignal)
  }

  /** Everything after the loop. */
  function Classify(req: Request, s: State, mountCleaned: bool): Result {
    var verified := Verified(s, mountCleaned);
    if |s.sup.control.bytes| == RECORD_SIZE then
      FailedBeforeStart(ChildFailureKind(Decode(s.sup.control.bytes)), [])
    else if s.sup.control.bytes != [] then FailedBeforeStart(ProcessStartFailed, [])
    else if s.sup.cancel.observed && s.sup.cancel.beforeStart then
      if verified then CancelledBeforeStart([Cancellation]) else FailedBeforeStart(IsolationSetupFailed, [])
    else if !s.sup.control.confirmed then
      FailedBeforeStart(if verified then ProcessStartFailed else IsolationSetupFailed, [])
    else AfterStart(req, s, verified)
  }

  // ----- the guarantees a result claims --------------------------------------------------------

  lemma {:induction false} WithoutKeepsRest(input: seq<Guarantee>, removed: Guarantee, g: Guarantee)
    ensures g in WithoutGuarantee(input, removed) <==> g in input && g != removed
  {
    if input != [] {
      assert input == [input[0]] + input[1..];
      WithoutKeepsRest(input[1..], removed, g);
    }
  }

  /** A filter that changes nothing is the identity: what stays, stays in order. */
  lemma {:induction false} WithoutAbsent(input: seq<Guarantee>, removed: Guarantee)
    requires removed !in input
    ensures WithoutGuarantee(input, removed) == input
  {
    if input != [] { WithoutAbsent(input[1..], removed); }
  }

  /** The guarantees this run could not establish. */
  predicate Lost(captureFailed: bool, verified: bool, g: Guarantee) {
    || (captureFailed && (g == CompleteStdoutCapture || g == CompleteStderrCapture))
    || (!verified && g == CleanupVerified)
  }

  /** Established guarantees are the required ones minus exactly those the run failed to keep. */
  lemma EstablishedExactly(req: Request, captureFailed: bool, verified: bool, g: Guarantee)
    ensures g in Established(req, captureFailed, verified)
            <==> g in req.required && !Lost(captureFailed, verified, g)
  {
    var a := WithoutGuarantee(req.required, CompleteStdoutCapture);
    var b := WithoutGuarantee(a, CompleteStderrCapture);
    WithoutKeepsRest(req.required, CompleteStdoutCapture, g);
    WithoutKeepsRest(a, CompleteStderrCapture, g);
    WithoutKeepsRest(b, CleanupVerified, g);
    WithoutKeepsRest(req.required, CleanupVerified, g);
  }

  /** All of these guarantees are advertised. */
  predicate Advertised(claimed: seq<Guarantee>, profile: set<Guarantee>) {
    forall g :: g in claimed ==> g in profile
  }

  /** What a result claims is part of what the request required, except that a cancellation before start
      claims just the cancellation guarantee. */
  lemma ClaimsOnlyRequired(req: Request, s: State, mountCleaned: bool, g: Guarantee)
    ensures var r := Classify(req, s, mountCleaned);
            g in r.established ==> if r.CancelledBeforeStart? then g == Cancellation else g in req.required
  {
    EstablishedExactly(req, s.sup.captureFailed, Verified(s, mountCleaned), g);
  }

  /** For a supported request, every kind of result stays within the advertised profile; a cancellation before
      start does exactly if the profile advertises cancellation. */
  lemma ClaimsAreAdvertised(req: Request, s: State, mountCleaned: bool, profile: set<Guarantee>)
    requires Advertised(req.required, profile)
    ensures var r := Classify(req, s, mountCleaned);
            Advertised(r.established, profile) <==> (r.CancelledBeforeStart? ==> Cancellation in profile)
  {
    var r := Classify(req, s, mountCleaned);
    forall g | g in r.established ensures if r.CancelledBeforeStart? then g == Cancellation else g in profile {
      ClaimsOnlyRequired(req, s, mountCleaned, g);
    }
    if r.CancelledBeforeStart? { assert Cancellation in r.established; }
  }
}
