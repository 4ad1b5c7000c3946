# libpkgexec-linux: a verified model of what a run's evidence is worth

libpkgexec-linux executes one program under supervision and reports evidence about it: whether the
program started, whether it was cancelled, what it wrote, whether its process group and mounts are gone,
which guarantees were established. This Dafny project models the code that decides whether such a report
is true and proves the claims for every schedule, every answer of the kernel and every input.
`dafny verify dfyconfig.toml` checks all of it.

The four parts, and the files that hold them:

1. **Start gate and supervisor.** `Child` is everything the supervisor cannot control: the child's set-up
   stages, the three pipes, the streams, descendants, outside kills and the clock, changed only by steps
   that may fall between any two actions of the supervisor. `Supervisor` is the loop of
   `execute_backend`: its local variables are one record, every block of the body is a function of the
   state and of what its system calls return, and a run chains iterations over any observations.
   `SupervisorInvariant` and `SupervisorRuns` show what every block, read loop, iteration and run keeps,
   `SupervisorBoundaries` what holds between iterations in addition. `Outcome` is the classification
   after the loop. `Iterations` says exactly what each iteration of a run decides, sends and records,
   `StartEnd` when the start pipe is closed, `HardReads` when a capture is lost. `Evidence` holds the statements about whole runs, `StartGap` the
   assumption behind start evidence as a statement about schedules, `GracePeriod`, `LateCancellation` and
   `WitnessRuns` the places where the documents promise more than the code does, `SuccessRun` an uncontrolled run
   that succeeds, `SupervisorLoop` the loops themselves as methods, `ControlRecord` the failure record as bytes.
2. **Process group and containment.** `ProcessGroup` separates pids from process instances and lets
   processes die and pids be reused between any two system calls of a signalling pass. `SeccompFilter`
   evaluates the BPF program instruction by instruction. `ResourceLimits` and `Containment` join exact
   limits and the filter into an invariant of every later sequence of system calls, and `GroupClosure`
   derives from the filter the rules by which `ProcessGroup` lets members come and go. `GroupMembers` ties
   `ProcessGroup` to the members, scans and signalling passes of the supervisor's model.
3. **Isolated mounts.** `Paths` and `MountAdmission` model the admission loop, `MountTable` path lookup
   through a mount table, `MountRealization` the mount sequence and the view it leaves.
4. **rtnetlink.** `Netlink` is the message format (section 2.3.2 of RFC 3549) and the walk over a
   datagram, `LinkDump` the receive loop of a link dump, `NetworkPolicy` acknowledgements (section
   2.3.2.2 of RFC 3549) and the policy set-up.

Where the code and its documents differ, the model follows the code:

- DESIGN.md:198-199 says that a process already observed to have completed is never reported as
  cancelled. `send_cancellation_signal` does not test `child_exited` (src/backend.cpp:802-803):
  `WitnessRuns.SeenAndCancelledAtOnce` and `WitnessRuns.ExitSeenThenCancelled` are runs in which it is, in
  the iteration that sees the exit and in a later one. `LateCancellation.LateCancellationIff` says exactly
  when: of the state in which an iteration sees the exit, no SIGTERM having been attempted, some
  continuation ends in a cancelled result if and only if cancellation was observed between gate and exec,
  neither capture nor cleanup has failed, and the control pipe has confirmed exec or is open and empty.
- DESIGN.md:208-209 says that cancellation never escalates before the grace period has elapsed.
  `WitnessRuns.KillBeforeGrace` is a run in which it does. `GracePeriod.GraceKeptIff` gives the exact
  guard: the SIGTERM is sure of its grace period if and only if, when it is sent, there is no grace period
  to keep, cleanup has not started, or the deadline cleanup already has is no earlier.
- `exec_confirmed` is end of file on the control pipe after the gate was released. A child killed between
  gate and exec looks the same (`WitnessRuns.KilledThenStarted`), and so does one whose execveat failed and
  that could not write one byte of its report (`WitnessRuns.MuteThenStarted`). `Evidence.StartEvidence`
  names both causes, `Evidence.StartedMeansExecuted` and `StartGap.SparedStartMeansExecuted` prove the claim
  without them, and `Evidence.NoSignalBetweenGateAndExec` shows that such a kill never comes from the
  supervisor.
- The private `/dev` is mounted without a read-only flag (src/mount_isolation.cpp:369-370), so the
  statement that only declared resources can be written excepts it.
- `snapshot_matches` compares 32-bit counters. `NetworkPolicy.TestIsRightIff` says for which numbers of
  links it means what it should: all up to 2^32, and beyond that all but those one above a multiple of
  2^32.

## Model

| member | source | states |
|---|---|---|
| `ControlRecord.RecordRoundTrip` | src/backend.cpp:230-253 | decoding the twelve bytes of a record gives back exactly its stage, errno and detail |
| `ControlRecord.EncodeInjective` | src/backend.cpp:230-253 | two different failure records never have the same bytes |
| `ControlRecord.ReportChildError` | src/backend.cpp:236-253 | for every schedule of partial, interrupted and failing writes, what reaches the pipe is a prefix of the record, and the whole record exactly when the schedule delivers twelve bytes |
| `Child.InterfereFacts` | src/backend.cpp:269-388 | every schedule of the child and its surroundings keeps: stages are passed in order, exec only after all of them, the ready byte and the start byte, a record only from a child that never executes, an empty group stays empty |
| `Supervisor.ReadPipe` | src/backend.cpp:390-412 | one read returns a non-empty next piece of the stream, end of file only when all is read and no writer is left, EAGAIN only when a writer is left |
| `SupervisorInvariant.ObserveExitKeeps` | src/backend.cpp:820-822 | noticing the exit keeps the whole invariant and undoes nothing |
| `SupervisorInvariant.ObserveCancellationKeeps` | src/backend.cpp:789-799 | reading the token keeps the invariant: before release it shuts the gate for good |
| `SupervisorInvariant.ReleaseGateKeeps` | src/backend.cpp:825-834 | the second look at the token and the start byte keep the invariant: released only when ready and not cancelled |
| `SupervisorInvariant.SendCancellationKeeps` | src/backend.cpp:801-816 | the cancellation SIGTERM keeps the invariant, including where signals may fall and the earliest SIGKILL |
| `SupervisorInvariant.ForceAfterGraceKeeps` | src/backend.cpp:838-847 | the SIGKILL at the end of the grace period keeps the invariant |
| `SupervisorInvariant.StartCleanupKeeps` | src/backend.cpp:849-861 | starting cleanup keeps the invariant: one SIGTERM at most, one deadline |
| `SupervisorInvariant.RepeatKillKeeps` | src/backend.cpp:863-870 | the repeated SIGKILL keeps the invariant |
| `SupervisorInvariant.ScanGroupKeeps` | src/backend.cpp:871-892 | scan, first SIGKILL and giving up keep the invariant: complete without giving up means an empty group |
| `SupervisorInvariant.ReapChildKeeps` | src/backend.cpp:895-908 | reaping keeps the invariant: in a controlled run only after cleanup is complete |
| `SupervisorRuns.DrainPortReached` | src/backend.cpp:918-962 | every read loop, with any chunking, interruption and interference, keeps the invariant and undoes nothing |
| `SupervisorRuns.QuietIterationEnds` | src/backend.cpp:910-968 | once the leader and all members are gone, one drain brings all four pipes to end of file |
| `SupervisorRuns.IterateKeeps` | src/backend.cpp:818-968 | a whole iteration keeps the invariant, undoes nothing, and ends with a reaped leader only as the last one unless cleanup was given up |
| `SupervisorRuns.RunInv` | src/backend.cpp:818-968 | every state of every run satisfies the invariant |
| `SupervisorRuns.RunProgress` | src/backend.cpp:818-968 | between any two states of a run nothing observed, sent, released, confirmed or completed is undone |
| `SupervisorBoundaries.RunBoundary` | src/backend.cpp:818-968 | between iterations of every run a seen exit has decided the control pipe and started cleanup, every deadline is bounded by the clock reading, and the SIGTERM of cancellation is never still to come after a SIGKILL |
| `Iterations.IterationExactly` | src/backend.cpp:818-968 | every iteration of every run, with any interference between its blocks, appends exactly these events in this order and leaves exactly this supervisor state: exit, token, gate, SIGTERM, grace period, cleanup, repeated SIGKILL, scan, giving up, reaping, each under its own condition on the state before it |
| `Iterations.CancellationIsSent` | src/backend.cpp:789-835 | an iteration sends the cancellation SIGTERM if and only if none was sent before and cancellation is observed by then, before start or with exec confirmed; it is observed if and only if a token read says so while the exit is unseen; delivered means that the leader took the signal |
| `Iterations.RunningProgramIsSignalled` | src/backend.cpp:801-816 | a running program whose cancellation is observed is signalled in that very iteration |
| `Iterations.KillAfterGrace` | src/backend.cpp:838-847 | exit or no exit, the first iteration that reads the clock at or past the end of the grace period has sent SIGKILL and set a deadline of one second, unless cleanup was already complete |
| `Iterations.ForcedExactly` | src/backend.cpp:838-892 | forced signalling is switched on if and only if the grace period is over or cleanup reached its deadline with somebody left; SIGKILL is sent if and only if it was switched on or a scan follows while it is on |
| `Iterations.ReleasedExactly` | src/backend.cpp:825-834 | with or without a token, the start byte is written if and only if the child is ready, cancellation unobserved, the descriptor open, the write works and the child lives at that moment |
| `StartEnd.EndClosedExactly` | src/backend.cpp:789-834 | the write end of the start pipe is closed exactly by the first attempt to write the start byte, successful or not, or by cancellation before release, and the pipe the child waits on is open exactly while it is |
| `StartEnd.TriedOnce` | src/backend.cpp:825-834 | the start byte is tried once: after the iteration that decides the gate nothing opens it any more |
| `StartEnd.ReadySeenExactly` | src/backend.cpp:945-962 | readiness is seen exactly when the child's ready byte has been read, which was written after every set-up stage |
| `Iterations.CleanupExactly` | src/backend.cpp:849-892 | cleanup of a controlled run starts exactly with the exit, sends its SIGTERM exactly if none was attempted, scans in every iteration until complete, and is complete exactly after a clean scan or when given up a second after SIGKILL |
| `Iterations.ReapedExactly` | src/backend.cpp:895-908 | the leader is reaped if and only if its exit is seen and, in a controlled run, cleanup is complete; an uncontrolled run takes its cleanup verdict from the numeric group |
| `Iterations.FailedExactly` | src/backend.cpp:801-892 | an iteration marks cleanup as failed if and only if one of its signalling passes was incomplete or it gave up |
| `Iterations.FailedIff` | src/backend.cpp:801-892 | cleanup of a controlled run counts as failed if and only if that happened in some iteration |
| `HardReads.CaptureLostIff` | src/backend.cpp:390-412 | the captures count as lost if and only if some iteration came to a hard read error on one of the two captured streams |
| `HardReads.ControlBrokenIff` | src/backend.cpp:921-943 | the control pipe counts as broken if and only if some iteration came to a hard read error on it |
| `SuccessRun.UncontrolledSuccess` | src/backend.cpp:818-1068 | a concrete run without a token whose gate opens, whose program executes and exits with 0, and which is reported as succeeded with the bytes written |
| `Evidence.StartedExactly` | src/backend.cpp:974-1082 | a started kind of result is built if and only if exec was confirmed |
| `Evidence.StartEvidence` | src/backend.cpp:818-968 | over every interleaving: a finished run is reported as started if and only if no hard control error occurred and the child executed, was killed between gate and exec before it wrote anything, or failed to execute and lost its whole report; an executed child passed every set-up stage and the gate was released |
| `Evidence.StartedMeansExecuted` | src/backend.cpp:932-1012 | without a kill between gate and exec and without a lost exec report, a started result means the interpreter was executed, after every set-up stage and the gate |
| `Evidence.ExecutedIsContained` | src/backend.cpp:277-356 | an executed child has passed, in this order, session, streams, with isolation mounts and network, working directory, with isolation capability drop, limits and last the filter |
| `Evidence.DeathAfterGateExplained` | src/backend.cpp:368-388 | in every run a child that passed the gate and is dead without having executed was killed by a signal there, or its execveat failed and it exited with 127 |
| `Child.SilentDeathCauses` | src/backend.cpp:368-388 | a silent death between gate and exec is a kill before any byte was written or a lost exec report, and nothing else |
| `Child.KillIsTheCause` | src/backend.cpp:368-388 | the state of being killed between gate and exec is entered by exactly a kill that hits a living, unexecuted child after the start byte |
| `Child.KillAmongSteps` | src/backend.cpp:368-388 | over a whole schedule, a child that ends up killed between gate and exec met a kill there |
| `Child.WriteErrorIsTheCause` | src/backend.cpp:236-253 | a lost exec report comes of exactly a hard write error before the first byte |
| `WitnessRuns.KilledThenStarted` | src/backend.cpp:932-936 | a concrete run whose child is killed after reading the start byte, executes nothing, and is reported as started and terminated by a signal |
| `WitnessRuns.MuteThenStarted` | src/backend.cpp:932-936 | a concrete run whose child fails to execute and cannot report it, and is reported as started and exited with 127 |
| `StartGap.NeverKilledInGap` | src/backend.cpp:368-388 | if no interference of a run, before any block or during any read loop, kills a living unexecuted child after the start byte, the child is never found killed there |
| `StartGap.SparedStartMeansExecuted` | src/backend.cpp:932-1012 | under that schedule and without a lost exec report, a started result means the interpreter was executed after every set-up stage |
| `Evidence.NoSignalBetweenGateAndExec` | src/backend.cpp:801-861 | no signal of any run is sent while the gate is released, exec unconfirmed and the exit unobserved, none hits a child between start byte and exec, and when a child passed the gate without executing every signal came after its death |
| `Evidence.CancelledGateStaysShut` | src/backend.cpp:789-834 | once cancellation is observed before release, the gate is never released and the program never executes |
| `Evidence.ReleasesAreClean` | src/backend.cpp:825-834 | whenever the start byte is written, cancellation was unobserved, all set-up stages were passed and nothing had executed |
| `Evidence.NaturalExitNotCancelled` | src/backend.cpp:789-799 | if the exit is observed while cancellation is not, no later behaviour of the token makes the run end in a cancelled result |
| `LateCancellation.CancelledOnlyUnderGuard` | src/backend.cpp:801-835 | a run reported cancelled although its exit was seen before any SIGTERM satisfied, in the state in which the exit was seen: cancellation observed between gate and exec, capture and cleanup intact, and exec confirmed or the control pipe open and empty |
| `LateCancellation.CancelledUnderGuard` | src/backend.cpp:801-900 | under that guard some continuation ends in a cancelled result, at once or one iteration later |
| `LateCancellation.LateCancellationIff` | src/backend.cpp:820-1064 | some continuation through the look that sees the exit ends in a cancelled result if and only if the guard holds in the state in which the exit is seen, inside its iteration |
| `Evidence.SignalAfterExitIff` | src/backend.cpp:801-835 | a SIGTERM of cancellation is logged with the exit already seen if and only if, in the state in which the exit is seen, cancellation was observed between gate and exec and exec is confirmed, or is confirmed at the end of that iteration while the loop goes on |
| `Evidence.SignalAfterBoundaryIff` | src/backend.cpp:801-816 | the same from any later boundary at which no SIGTERM has been attempted |
| `Evidence.FrozenAfterExit` | src/backend.cpp:921-943 | once the exit is seen the control pipe is closed and what it said never changes |
| `Evidence.RunPrompt` | src/backend.cpp:789-835 | a cancellation observed before start has its SIGTERM attempted by the end of the iteration |
| `WitnessRuns.ExitSeenThenCancelled` | src/backend.cpp:801-816 | a concrete run that observes a natural exit with status 0, signals in the next iteration, and is reported as cancelled |
| `WitnessRuns.SeenAndCancelledAtOnce` | src/backend.cpp:820-835 | a concrete run in which every scan and signal succeeds and one iteration sees the exit with status 0, sends the SIGTERM and is reported as cancelled |
| `Evidence.NoKillBeforeTerm` | src/backend.cpp:801-892 | in no run does a SIGKILL precede the cancellation SIGTERM |
| `Evidence.KillsWait` | src/backend.cpp:838-892 | no SIGKILL of a run, at any of its four sites, is earlier than the earliest time its cancellation SIGTERM allows |
| `Evidence.GracePeriodKept` | src/backend.cpp:838-892 | if the cancellation SIGTERM is sent before cleanup starts, every SIGKILL comes at or after its time plus the grace period |
| `GracePeriod.GraceKeptIff` | src/backend.cpp:801-892 | a cancellation SIGTERM keeps its grace period in every run that contains it if and only if the grace period is zero, cleanup has not started, or the cleanup deadline already set is no earlier |
| `GracePeriod.UnsafeCanBeCut` | src/backend.cpp:849-892 | outside that guard, the same decision continues to a run whose SIGKILL falls inside the grace period |
| `WitnessRuns.KillBeforeGrace` | src/backend.cpp:849-892 | a concrete run with a SIGKILL 200 ms after the SIGTERM although the grace period is 1000 ms |
| `Evidence.EscalationHappensOnce` | src/backend.cpp:838-892 | forced signalling is switched on at most once and the cleanup deadline moves at most once after cleanup starts |
| `Evidence.ExitStartsCleanup` | src/backend.cpp:849-861 | in a controlled run every boundary with the exit seen has started cleanup, with a deadline no later than the clock reading plus a second or the grace period |
| `Evidence.EscalationFalls` | src/backend.cpp:863-892 | from the exit on, the measure "SIGKILL and giving up, giving up, nothing" never grows, and falls at every iteration that reaches the deadline until the leader is reaped |
| `Evidence.LeaderReapedInTime` | src/backend.cpp:863-900 | once an iteration reads the clock past the cleanup deadline, the leader is reaped by the first iteration that reads it a second later, and at once if SIGKILL was already sent |
| `Evidence.ReapedAfterExit` | src/backend.cpp:849-900 | counted from the exit: after an iteration past the deadline cleanup has then, the first one a second later has reaped the leader, whatever moved the deadline in between |
| `Evidence.ReapedWithinBound` | src/backend.cpp:849-900 | the same from the clock reading of the exit: a second or the grace period, then one more second |
| `Evidence.CompleteIsReaped` | src/backend.cpp:895-900 | at every iteration boundary of a controlled run, complete cleanup means a reaped leader |
| `Evidence.VerifiedCleanupIsPermanent` | src/backend.cpp:863-900 | cleanup completed without giving up rests on a logged clean scan after the leader's exit, and no later state or schedule has any other group member |
| `Evidence.VerifiedMeansGone` | src/backend.cpp:970-972 | verified cleanup in a controlled run means that the leader is reaped and nobody else is in the group then or under any later schedule |
| `Evidence.NothingAfterReaping` | src/backend.cpp:863-968 | no run scans or signals after reaping; a controlled run reaps only after cleanup is complete and, unless cleanup was given up, is over then |
| `Evidence.CaptureIsComplete` | src/backend.cpp:390-412 | a finished run without a capture failure holds exactly the bytes written to each stream, and nothing can be added any more |
| `Evidence.ControlRecordIsTheChilds` | src/backend.cpp:921-989 | the control buffer is always a prefix of the one record the child composed; a full buffer decodes to its stage, errno and detail, and the result is the matching failure kind |
| `Evidence.GoodResultsAreBacked` | src/backend.cpp:970-1083 | succeeded and cancelled-after-start imply verified cleanup, intact capture of exactly the written bytes, established equal to required, exit status 0 for success, a delivered signal and the true forced flag for cancellation |
| `Evidence.FailuresAreExplained` | src/backend.cpp:1014-1082 | a failed started run reports how the leader really ended, whether cleanup was verified, exactly the bytes each captured stream was sent (neither if a capture failed), the first reason that applies, and the required guarantees minus exactly the lost ones |
| `Evidence.NotStartedIsExplained` | src/backend.cpp:991-1012 | without a child record a run that did not start establishes nothing and blames isolation exactly when cleanup was not verified |
| `Evidence.ResultsExactly` | src/backend.cpp:970-1082 | which finished runs are reported as succeeded, as cancelled after start and as cancelled before start, each as an if-and-only-if about exit status, delivered signal, capture, cleanup and mounts |
| `Evidence.ReportedStage` | src/backend.cpp:436-456 | a whole failure record names the set-up stage that comes next after those passed, or execveat after all of them, and the result is the failure kind that stage stands for, stage by stage |
| `Outcome.WithoutKeepsRest` | src/backend.cpp:484-494 | removing a guarantee keeps exactly the others |
| `Outcome.WithoutAbsent` | src/backend.cpp:484-494 | removing an absent guarantee changes nothing, not even the order |
| `Outcome.EstablishedExactly` | src/backend.cpp:1025-1035 | established guarantees are the required ones minus exactly those the run failed to keep |
| `Outcome.ClaimsOnlyRequired` | src/backend.cpp:974-1082 | every kind of result claims only required guarantees, a cancellation before start only cancellation |
| `Outcome.ClaimsAreAdvertised` | src/backend.cpp:594-598 | for a supported request every result stays within the advertised profile, a cancellation before start exactly if the profile advertises cancellation |
| `SupervisorLoop.DrainLoop` | src/backend.cpp:390-412 | the read loop computes the recursive drain for every sequence of read results |
| `SupervisorLoop.LoopBody` | src/backend.cpp:818-968 | one pass through the loop body is one iteration |
| `SupervisorLoop.Supervise` | src/backend.cpp:818-1083 | the loop produces a run, returns a result exactly when it ended by itself, and that result is truthful |
| `SupervisorLoop.FinishedIsTruthful` | src/backend.cpp:970-1083 | every result of a finished run is truthful: start evidence with its two named exceptions, cancellation before start, success, failure, capture of each stream, guarantees and verified cleanup all hold of the world |
| `ProcessGroup.RecheckIsAboutTheOpened` | src/process_control.cpp:331-343 | if the second group read names the group and the opened instance is unreaped, then it is that instance which is a member |
| `ProcessGroup.OnlyMembersAreSignalled` | src/process_control.cpp:314-353 | with any exits, reaps and pid reuse between the four calls of each visit, every instance signalled is an unreaped member of the execution group at that moment |
| `ProcessGroup.CompletePassReachesEveryMember` | src/process_control.cpp:314-353 | a pass that reports itself complete has signalled every listed member that is unreaped at its end |
| `ProcessGroup.CompleteExactly` | src/process_control.cpp:314-353 | a pass is complete if and only if the listing worked, the leader took its signal, and no visit met a member whose pidfd it could not open or signal; failures on other listed processes do not count |
| `ProcessGroup.FailureShows` | src/process_control.cpp:331-347 | a member that stays and whose pidfd cannot be opened or signalled leaves the pass incomplete |
| `ProcessGroup.LeaderSignalledOnce` | src/process_control.cpp:314-353 | the leader gets exactly one signal, the last of the pass, unless that call fails; no entry of the listing leads to more than one |
| `ProcessGroup.SignalLoop` | src/process_control.cpp:314-353 | the loop over the listing computes the pass, signals only members, and reports the leader signalled exactly when its own call succeeded |
| `ProcessGroup.ScanLoop` | src/process_control.cpp:364-377 | a scan finds nothing if and only if no unreaped instance other than the leader is in the group |
| `ProcessGroup.EmptyGroupStaysEmpty` | src/process_control.cpp:355-383 | an empty group with a zombie leader stays empty under every later schedule |
| `SeccompFilter.NamespaceBits` | src/process_control.cpp:162-172 | the 32-bit mask test on the low half of the flags is the disjunction of the eight namespace flags |
| `SeccompFilter.PointerHalves` | src/process_control.cpp:230-240 | a 64-bit pointer is non-null exactly when one of its two loaded halves is |
| `SeccompFilter.HalvesBlock` | src/process_control.cpp:232-242 | the two pointer halves are compared in turn, and the call is answered by the seal unless both are zero |
| `SeccompFilter.LadderEval` | src/process_control.cpp:176-229 | evaluating the compare-and-return pairs gives the answer of the first matching number or falls through to the end of the ladder |
| `SeccompFilter.LookupMeaning` | src/process_control.cpp:176-229 | which numbers the ladder refuses, answers ENOSYS, or answers by the seal |
| `SeccompFilter.FilterRefinesPolicy` | src/process_control.cpp:155-243 | for every architecture, number, argument vector and both modes the program ends in range at a RET with exactly the verdict of the declarative policy |
| `SeccompFilter.FilterIsAccepted` | src/process_control.cpp:155-248 | every load is aligned and in range, every jump lands inside, the last instruction returns |
| `Containment.ContainedForever` | src/process_control.cpp:146-252 | for every sequence of native calls and forks by contained processes all descendants keep the leader's session, group and namespaces, and its limits when sealed |
| `Containment.LimitsStayExact` | src/backend.cpp:345-356 | after limits were set and the filter installed, every later process holds each requested limit as soft and hard value, within the inherited ceiling |
| `GroupClosure.CallFollowsTheRules` | src/process_control.cpp:146-252 | whatever a contained process calls, the kernel either changes no membership or forks a member of the group: nobody leaves it, children are in it |
| `GroupClosure.ClosedForever` | src/process_control.cpp:146-252 | over every trace of calls and deaths of contained processes among arbitrary steps of others, the live members of the group are exactly the contained processes, and nobody who was ever a member leaves it |
| `GroupClosure.StartsTracked` | src/backend.cpp:352-356 | in every kernel in which the leader is the one live member when the filter is installed, it is the one contained process |
| `GroupMembers.ScanMembers` | src/process_control.cpp:355-383 | a scan with timeout zero says "gone" exactly when the listing worked and the supervisor's model has no member |
| `GroupMembers.StepMirrored` | src/process_control.cpp:314-383 | every kernel step changes members and leader as some schedule of the supervisor's model does |
| `GroupMembers.KernelMirrored` | src/process_control.cpp:314-383 | so does every sequence of kernel steps |
| `GroupMembers.PassMirrored` | src/process_control.cpp:314-353 | a signalling pass is such a schedule, and when its verdict is complete every listed member that is still there was signalled |
| `ResourceLimits.Limits.SetupOne` | src/resource_limits.cpp:36-72 | success exactly when every check passes; then soft and hard are the value, it is finite and within the inherited hard limit; other resources are untouched; a value above the ceiling changes nothing |
| `ResourceLimits.VerdictMeans` | src/resource_limits.cpp:36-72 | a setup succeeds if and only if the value is finite and at most a finite ceiling, no call fails and exactly this value was stored; the errno of every other case |
| `ResourceLimits.Limits.SetupResourceLimits` | src/resource_limits.cpp:149-168 | success exactly when each requested setup succeeds on the inherited limits, and then every requested limit is exact and the others unchanged; a failure is that of the first requested limit whose setup fails, with its errno |
| `ResourceLimits.ProbeValue` | src/resource_limits.cpp:74-95 | a probe value is positive, at most the preferred one and strictly below a finite ceiling, and is missing exactly when there is none |
| `Paths.PathContains` | src/mount_isolation.cpp:117-133 | the component loop decides exactly "equal or below" |
| `Paths.SortUniqueAscending` | src/mount_isolation.cpp:736-741 | sort and unique leave strictly ascending names |
| `Paths.SortUniqueElements` | src/mount_isolation.cpp:736-741 | sort and unique keep exactly the same names |
| `Paths.SortUniqueKeepsDistinct` | src/mount_isolation.cpp:736-741 | on distinct names they drop nothing |
| `MountAdmission.NamespacesIncomparable` | src/mount_isolation.cpp:701-709 | namespaces never nest, because each exists in the root and is empty there |
| `MountAdmission.NoBindingAboveNamespace` | src/mount_isolation.cpp:651-656 | no binding is at or above a namespace |
| `MountAdmission.NoPlainBindingBelowNamespace` | src/mount_isolation.cpp:706-731 | no other binding is below a namespace, because its destination exists and nothing exists below an empty directory |
| `MountAdmission.InputBelowOwnNamespace` | src/mount_isolation.cpp:693-724 | the only namespace above an input is its parent |
| `MountAdmission.NamespaceOutsideDev` | src/mount_isolation.cpp:647-650 | no namespace is at, above or below /dev |
| `MountAdmission.DirectIsSound` | src/mount_isolation.cpp:640-741 | what the checks test implies everything the mount sequence relies on |
| `MountAdmission.FindOverlap` | src/mount_isolation.cpp:651-656 | the scan returns the first overlapping path or proves there is none |
| `MountAdmission.FindNamespace` | src/mount_isolation.cpp:711-716 | the search returns a namespace with this path or proves there is none |
| `MountAdmission.CheckLogical` | src/mount_isolation.cpp:641-657 | the role and logical path conditions hold against everything admitted before; a refusal is the first of these checks that fails |
| `MountAdmission.CheckSource` | src/mount_isolation.cpp:659-689 | admitting a source means the host and identity conditions all hold against everything admitted before; a refusal is the first of these checks that fails |
| `MountAdmission.AdmitTarget` | src/mount_isolation.cpp:691-734 | the destination exists, or the input becomes a new child of an empty namespace; namespaces stay consistent |
| `MountAdmission.AdmitOne` | src/mount_isolation.cpp:640-735 | one round of the loop keeps everything established for the bindings before |
| `MountAdmission.AdmitIsolatedResources` | src/mount_isolation.cpp:617-744 | a request is accepted if and only if it is free of every problem, a refusal names the first problem of the first binding that has one, and an accepted admission is sound: bindings and namespaces pairwise non-nested, host paths an antichain with the root, nothing at / or in /dev, children distinct and sorted |
| `MountAdmission.RefusalIsExact` | src/mount_isolation.cpp:617-734 | a request has one reason to be refused at most: the first failing check, in the order they are made, of the first binding that fails one |
| `MountAdmission.CleanMeans` | src/mount_isolation.cpp:617-744 | the accepted requests in terms of the snapshot: the access of every role, forbidden places, sources, destinations, and pairwise incomparable logical and host paths |
| `MountAdmission.RolesDecide` | src/mount_isolation.cpp:135-157 | in an accepted admission source, package and input trees are read-only, the four other roles writable, and inputs alone get a made destination |
| `MountAdmission.AcceptedExample` | src/mount_isolation.cpp:617-744 | a concrete request with an input and a writable workspace that is accepted |
| `MountTable.AttachedResolve` | src/mount_isolation.cpp:286-297 | after attaching at a path, everything at or below it leads into the new mount and everything else where it led before |
| `MountTable.AttachFollows` | src/mount_isolation.cpp:286-297 | a table built by attaching at a list of paths resolves every path by the latest of them at or above it |
| `MountTable.SameResolve` | src/mount_isolation.cpp:214-227 | sealing a mount does not change where any path leads |
| `MountRealization.CloneTrees` | src/mount_isolation.cpp:315-326 | one tree per binding, with the binding's access |
| `MountRealization.MakeChildren` | src/mount_isolation.cpp:397-402 | mkdir never collides: it fails exactly when the kernel refuses, and every child has its directory |
| `MountRealization.MountOneNamespace` | src/mount_isolation.cpp:381-403 | succeeds exactly when the destination is the admitted directory and the kernel grants the mount and every mkdir |
| `MountRealization.MountNamespaces` | src/mount_isolation.cpp:381-403 | all namespaces are mounted in order over the root tree |
| `MountRealization.AttachOne` | src/mount_isolation.cpp:405-429 | succeeds exactly when destination and source are the admitted directories and the kernel grants the attachment |
| `MountRealization.AttachBindings` | src/mount_isolation.cpp:405-429 | all bindings are attached, inputs inside their namespaces, others on the root tree |
| `MountRealization.SealNamespaces` | src/mount_isolation.cpp:430-441 | exactly the namespaces become read-only, the bindings inside them keep their access |
| `MountRealization.CreatePrivateRoot` | src/mount_isolation.cpp:299-447 | succeeds if and only if every call is granted and every directory is the admitted one; a failure names the stage of the first step that went wrong; on success every path shows exactly the declared view |
| `MountRealization.BlameIsExact` | src/mount_isolation.cpp:308-446 | for every kernel and snapshot there is at most one such stage, and none if everything is granted and present |
| `MountRealization.ViewIsDeclared` | src/mount_isolation.cpp:299-447 | the finished mount table shows at every path the declaration with the longest prefix |
| `MountRealization.DeclaredOnce` | src/mount_isolation.cpp:299-447 | the declared view is a function of the path |
| `MountRealization.ViewUnderBinding` | src/mount_isolation.cpp:264-284 | under a binding: its own tree with its own access |
| `MountRealization.ViewUnderDev` | src/mount_isolation.cpp:361-379 | under /dev: the private tmpfs, writable |
| `MountRealization.ViewInNamespace` | src/mount_isolation.cpp:214-227 | in a namespace and under none of its inputs: the sealed tmpfs, read-only |
| `MountRealization.ViewElsewhere` | src/mount_isolation.cpp:308-314 | everywhere else: the read-only root |
| `MountRealization.WritableExactly` | src/mount_isolation.cpp:264-284 | outside /dev a path can be written if and only if it is under a writable binding |
| `MountRealization.OrderDoesNotMatter` | src/mount_isolation.cpp:405-429 | two finished mount tables with the same bindings and namespaces, mounted in any orders, show the same at every path |
| `MountRealization.ReorderedRequest` | src/mount_isolation.cpp:617-744 | a request is accepted or refused whatever the order of its bindings, and its realizations show the same at every path |
| `MountRealization.HostSeenOnce` | src/mount_isolation.cpp:659-671 | no host path under the root or a resource is visible at two logical paths |
| `MountRealization.IsolateRequest` | src/mount_isolation.cpp:746-750 | admission and realization of a request together: realized exactly when the root has /dev and every call is granted, and then outside /dev the writable paths are exactly those under writable requested bindings |
| `Netlink.MessageReadsBack` | src/network_isolation.cpp:66-71 | an encoded message at the front of the bytes is valid and reads back as itself |
| `Netlink.ReadsBackAsSent` | src/network_isolation.cpp:66-71 | every valid message is the encoding of what it is read as |
| `Netlink.CarriedIsParsed` | src/network_isolation.cpp:66-79 | the walk recovers exactly the messages a datagram carries, whatever the padding holds and even if the last padding is missing |
| `Netlink.ParsedIsCarried` | src/network_isolation.cpp:66-79 | the walk invents nothing: the bytes up to where it stops are the messages it yields |
| `Netlink.ValidMessage` | src/network_isolation.cpp:66-71 | the test at a cursor, also one past the end, is validity of the bytes left there |
| `LinkDump.WalkLinks` | src/network_isolation.cpp:186-217 | for every buffer content the loop ends, reads received bytes only and folds the parsed messages |
| `LinkDump.InspectLinks` | src/network_isolation.cpp:172-219 | the receive loop computes the inspection of the batches and leaves the rest of the queue unread |
| `LinkDump.FoldIsSummary` | src/network_isolation.cpp:189-217 | the fold over a dump is the summary of the links reported before it ends, with the verdict of its first end |
| `LinkDump.InspectIsFold` | src/network_isolation.cpp:174-219 | what the messages decide, they decide however they were cut into datagrams |
| `LinkDump.ListedIsReported` | src/network_isolation.cpp:174-219 | a snapshot that was obtained summarizes exactly the links reported before NLMSG_DONE |
| `LinkDump.SplitDoesNotMatter` | src/network_isolation.cpp:174-219 | for every splitting of a dump into datagrams, with interruptions, the result is the one the dump deserves |
| `LinkDump.DumpEndsExactly` | src/network_isolation.cpp:189-204 | a dump is complete if and only if its first end is NLMSG_DONE, and breaks off with an errno if and only if that end is an error message and the errno is EIO for a short or zero one and its negated code otherwise |
| `LinkDump.FlagBits` | src/network_isolation.cpp:212-216 | a link counts as loopback by bit 3 and as up by bit 0 of its flags |
| `NetworkPolicy.WalkAcks` | src/network_isolation.cpp:132-152 | the loop returns the first answer to the change among the received messages |
| `NetworkPolicy.ReceiveAck` | src/network_isolation.cpp:118-154 | the receive loop returns the first answer and leaves the rest unread |
| `NetworkPolicy.AwaitIsFirst` | src/network_isolation.cpp:118-154 | the answer is the first one among the messages, however they were cut into datagrams |
| `NetworkPolicy.AckedExactly` | src/network_isolation.cpp:136-151 | in terms of the message fields: acknowledged if and only if the first NLMSG_ERROR message numbered for the change has at least 20 bytes of payload and the first word is 0 |
| `NetworkPolicy.DeniedExactly` | src/network_isolation.cpp:136-151 | denied with an errno if and only if that first message is too short and the errno is EIO, or its first word is not 0 and the errno is its negation |
| `NetworkPolicy.ChangeRequestReadsBack` | src/network_isolation.cpp:221-238 | the change request reads back as one link message that sets exactly the up flag of exactly the wanted link |
| `NetworkPolicy.RequestBytes` | src/network_isolation.cpp:156-238 | the dump and change requests byte by byte: lengths, types, flags, sequence numbers, index, flags and change mask |
| `NetworkPolicy.SendNetlink` | src/network_isolation.cpp:97-116 | the outcome is that of the first attempt that was not interrupted: all sent is success, a short send is EIO, an error is passed on, nothing is tried afterwards; no outcome exactly while every attempt is interrupted |
| `NetworkPolicy.SendMeans` | src/network_isolation.cpp:97-116 | the recursion the policy set-up is stated with has that meaning |
| `NetworkPolicy.MatchesExactly` | src/network_isolation.cpp:240-251 | for every number of links up to 2^32, or not one above a multiple of it, the snapshot test accepts exactly one loopback link with an index, up if and only if the policy is loopback-only |
| `NetworkPolicy.WrapIsMistaken` | src/network_isolation.cpp:210-216 | for every other number of links and every policy there are that many links which are taken for one |
| `NetworkPolicy.TestIsRightIff` | src/network_isolation.cpp:240-251 | the test is right for all lists of n links if and only if n is at most 2^32 or not one above a multiple of it |
| `NetworkPolicy.SetupNetworkPolicy` | src/network_isolation.cpp:315-356 | success if and only if the policy is allowed or every step held; no verdict if and only if a call it comes to does not return; otherwise a failure that names the first step that went wrong with its errno; the requests issued up to there |
| `NetworkPolicy.EstablishedMeans` | src/network_isolation.cpp:315-356 | denied or loopback-only set-up succeeds only if a complete dump after the acknowledged change lists one loopback link in the required state, unless the dump lists more than 2^32 links and one above a multiple of that |
| `NetworkPolicy.EstablishedNeeds` | src/network_isolation.cpp:315-356 | success also needs an own namespace and socket, three requests sent whole, a complete first dump of one loopback link, and the acknowledgement of the change |

## Left out

- The `libpkgexec` types, result constructors and diagnostics: only the fields the code uses are modelled; logical paths are taken as normalized component sequences without a trailing separator.
- Everything in `execute_backend` before the fork, interpreter inspection and digests, environment construction, and the host-view admission checks: routine or foreign code.
- Capability probes and reports (`src/capability.cpp`, the `probe_` functions): finite combinations of system calls. `ResourceLimits.ProbeValue` takes the inherited limit as a parameter.
- Ownership of the scratch directory (`verify_parent_cleanup`, moves of `isolated_admission` and `owned_fd`): a short sequence of flag updates; its answer is the parameter `mountCleaned`.
- A pidfd that cannot be opened after the fork, and the numeric `kill(-group)` cleanup of uncontrolled runs: the answer of that cleanup is an observation of the iteration (`groupGone`), since reuse of the group id after reaping is not excluded by the code.
- /proc enumeration and parsing: a scan is one snapshot of the group, and reads of a live process's group are honest in `ProcessGroup.CompletePassReachesEveryMember` and `ProcessGroup.ScanLoop`. `ProcessGroup.OnlyMembersAreSignalled` needs neither.
- The sleeping loop of `wait_process_group_members_gone` for a positive timeout: the supervisor only uses timeout zero, one scan.
- Outsiders joining the group: the private session excludes them; that members cannot leave it is `GroupClosure.CallFollowsTheRules`. Write ends of the captured streams are held by group members only.
- `profile.supports` is taken as "every required guarantee is advertised"; its code is not part of this model.
- SIGPIPE is ignored, so a start byte written to a dead child is a failed write; x32 system call numbers, other processes' `prlimit64` and overflow of `chrono` for huge grace periods are not modelled; times are unbounded integers.
- The cancellation token is an observation at each of its two reads and may change its answer.
- The file system does not change between admission and realization except as `Present` allows: identities are checked against one snapshot at realization.
- Mount flags other than read-only (nosuid, nodev, noexec, propagation), tmpfs sizes and modes, the scratch tmpfs below the private root, and symbolic links, which `openat2` refuses.
- Supervisor state is one record passed through functions, and `SupervisorLoop` reassigns it: aliasing of descriptors and strings is not captured.
- `NetworkPolicy.EstablishedMeans`: says nothing of the listed links when a dump lists more than 2^32 of them and one above a multiple of that, because there the counters cannot tell (`NetworkPolicy.TestIsRightIff`).
- Loopback round trip, the request bytes of the dump beyond `DUMP_REQUEST`, and negation of the most negative error code, which is undefined in the source and mathematical here.
