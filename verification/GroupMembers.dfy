/**
 The process group as the supervisor's model sees it: the members `Child` counts are the unreaped instances of
 `ProcessGroup` other than the leader, what kernels do to the one is a schedule of the other, and the scan and
 the signalling pass of the supervisor are those of `ProcessGroup`.
 */
module GroupMembers {
  import opened Options
  import opened P = ProcessGroup
  import C = Child
  import S = Supervisor

  ghost function MembersOf(t: Target, k: Kernel): set<nat> {
    set id | id in k.procs && Unreaped(k, id) && Member(t, k, id) && id != t.leader
  }

  /** The world shows this kernel: its members, and whether the program runs. */
  ghost predicate Mirrors(t: Target, k: Kernel, w: C.World) {
    && w.members == MembersOf(t, k)
    && t.leader in k.procs && (k.procs[t.leader].life == Live <==> w.child.Running?)
  }

  lemma EmptyIsMemberless(t: Target, k: Kernel)
    ensures Empty(t, k) <==> MembersOf(t, k) == {}
  {
    if !Empty(t, k) {
      var id :| Unreaped(k, id) && Member(t, k, id) && id != t.leader;
      assert id in MembersOf(t, k);
    }
  }

  // ----- the scan ------------------------------------------------------------------------------------

  /** wait_process_group_members_gone with timeout zero: the answer on which the supervisor completes cleanup is
      exactly "the listing worked and the world has no member". */
  method ScanMembers(t: Target, k: Kernel, listing: Option<seq<nat>>, ghost w: C.World) returns (gone: bool)
    requires KernelInv(t, k) && Mirrors(t, k, w)
    requires listing.Some? ==> forall id :: Unreaped(k, id) ==> k.procs[id].pid in listing.value
    ensures gone <==> listing.Some? && w.members == {}
  {
    if listing.None? {
      return false;
    }
    var found := ScanLoop(t, k, listing.value);
    EmptyIsMemberless(t, k);
    return !found;
  }

  // ----- kernel steps are schedules --------------------------------------------------------------------

  lemma ForkMembers(t: Target, k: Kernel, parent: nat, child: nat, pid: nat)
    requires KernelInv(t, k) && parent in k.procs && k.procs[parent].life == Live && child !in k.procs && pid !in k.pids
    ensures MembersOf(t, Apply(t, k, Fork(parent, child, pid))) ==
            MembersOf(t, k) + if Member(t, k, parent) then {child} else {}
  {
    var m := Apply(t, k, Fork(parent, child, pid));
    forall id ensures id in MembersOf(t, m) <==> id in MembersOf(t, k) || (Member(t, k, parent) && id == child) {
      if id in k.procs { assert m.procs[id] == k.procs[id]; }
    }
  }

  lemma ReapMembers(t: Target, k: Kernel, id: nat)
    requires KernelInv(t, k)
    ensures var m := Apply(t, k, Reap(id));
            MembersOf(t, m) == if m == k then MembersOf(t, k) else MembersOf(t, k) - {id}
  {
    var m := Apply(t, k, Reap(id));
    if m != k {
      forall x ensures x in MembersOf(t, m) <==> x in MembersOf(t, k) && x != id {}
    }
  }

  lemma OtherMembers(t: Target, k: Kernel, step: Step)
    requires KernelInv(t, k) && (step.Exit? || step.Regroup?)
    ensures MembersOf(t, Apply(t, k, step)) == MembersOf(t, k)
  {
    var m := Apply(t, k, step);
    forall x ensures x in MembersOf(t, m) <==> x in MembersOf(t, k) {}
  }

  /** One schedule step, or none, as a schedule. */
  lemma OneStep(w: C.World, step: C.Step)
    ensures C.Interfere(w, [step]) == C.Apply(w, step)
  {
    assert [step][1..] == [];
  }

  /** Every step of the kernel is one of the schedules `Child` allows: a member forks, a member is gone, the program
      exits, or nothing. */
  lemma StepMirrored(t: Target, k: Kernel, w: C.World, step: Step) returns (steps: seq<C.Step>)
    requires KernelInv(t, k) && Mirrors(t, k, w)
    ensures Mirrors(t, Apply(t, k, step), C.Interfere(w, steps))
  {
    var m := Apply(t, k, step);
    steps := [];
    match step
    case Fork(parent, child, pid) =>
      if m != k && Member(t, k, parent) {
        ForkMembers(t, k, parent, child, pid);
        if parent != t.leader { assert parent in MembersOf(t, k); }
        steps := [C.Forks(child)];
        OneStep(w, C.Forks(child));
      } else if m != k {
        ForkMembers(t, k, parent, child, pid);
      }
    case Exit(id) =>
      OtherMembers(t, k, step);
      if m != k && id == t.leader {
        steps := [C.Exits(0)];
        OneStep(w, C.Exits(0));
      }
    case Reap(id) =>
      ReapMembers(t, k, id);
      if m != k {
        steps := [C.MemberGone(id)];
        OneStep(w, C.MemberGone(id));
      }
    case Regroup(id, group) =>
      OtherMembers(t, k, step);
  }

  lemma {:induction false} InterfereAppend(w: C.World, a: seq<C.Step>, b: seq<C.Step>)
    ensures C.Interfere(w, a + b) == C.Interfere(C.Interfere(w, a), b)
    decreases |a|
  {
    if a == [] {
      assert a + b == b;
    } else {
      assert (a + b)[1..] == a[1..] + b;
      InterfereAppend(C.Apply(w, a[0]), a[1..], b);
    }
  }

  /** ... and so is every sequence of them. */
  lemma {:induction false} KernelMirrored(t: Target, k: Kernel, w: C.World, ks: seq<Step>) returns (steps: seq<C.Step>)
    requires KernelInv(t, k) && Mirrors(t, k, w)
    ensures Mirrors(t, Interfere(t, k, ks), C.Interfere(w, steps))
    decreases |ks|
  {
    if ks == [] {
      steps := [];
    } else {
      var first := StepMirrored(t, k, w, ks[0]);
      ApplyKeeps(t, k, ks[0]);
      var rest := KernelMirrored(t, Apply(t, k, ks[0]), C.Interfere(w, first), ks[1..]);
      steps := first + rest;
      InterfereAppend(w, first, rest);
    }
  }

  // ----- the signalling pass ---------------------------------------------------------------------------

  lemma {:induction false} KernelAppend(t: Target, k: Kernel, a: seq<Step>, b: seq<Step>)
    ensures Interfere(t, k, a + b) == Interfere(t, Interfere(t, k, a), b)
    decreases |a|
  {
    if a == [] {
      assert a + b == b;
    } else {
      assert (a + b)[1..] == a[1..] + b;
      KernelAppend(t, Apply(t, k, a[0]), a[1..], b);
    }
  }

  /** A visit moves the kernel on by the interference it meets, and by nothing else. */
  lemma VisitMoves(t: Target, p: Pass, pid: nat, v: Visit) returns (ks: seq<Step>)
    ensures VisitPid(t, p, pid, v).k == Interfere(t, p.k, ks)
  {
    var k1 := Interfere(t, p.k, v.beforeRead);
    var k2 := Interfere(t, k1, v.beforeOpen);
    var k3 := Interfere(t, k2, v.beforeAgain);
    KernelAppend(t, p.k, v.beforeRead, v.beforeOpen);
    KernelAppend(t, p.k, v.beforeRead + v.beforeOpen, v.beforeAgain);
    KernelAppend(t, p.k, v.beforeRead + v.beforeOpen + v.beforeAgain, v.beforeSend);
    VisitShape(t, p, pid, v);
    var q := VisitPid(t, p, pid, v).k;
    if q == p.k {
      ks := [];
    } else if q == k1 {
      ks := v.beforeRead;
    } else if q == k2 {
      ks := v.beforeRead + v.beforeOpen;
    } else if q == k3 {
      ks := v.beforeRead + v.beforeOpen + v.beforeAgain;
    } else {
      ks := v.beforeRead + v.beforeOpen + v.beforeAgain + v.beforeSend;
    }
  }

  lemma {:induction false} VisitsMove(t: Target, p: Pass, pids: seq<nat>, visits: seq<Visit>) returns (ks: seq<Step>)
    requires |visits| == |pids|
    ensures VisitAll(t, p, pids, visits).k == Interfere(t, p.k, ks)
    decreases |pids|
  {
    if pids == [] {
      ks := [];
    } else {
      var first := VisitMoves(t, p, pids[0], visits[0]);
      var rest := VisitsMove(t, VisitPid(t, p, pids[0], visits[0]), pids[1..], visits[1..]);
      ks := first + rest;
      KernelAppend(t, p.k, first, rest);
    }
  }

  /** What the supervisor is told of a pass. */
  function VerdictOf(p: Pass, leaderFails: bool): S.Signals {
    S.Signals(p.complete, !leaderFails)
  }

  /** A pass of signal_process_group_members, whatever happens during it, is a schedule of the world followed by the
      verdict the supervisor acts on; and when that verdict is "complete", every listed member that is still there
      has been signalled. */
  lemma PassMirrored(
    t: Target, k: Kernel, w: C.World, pids: seq<nat>, visits: seq<Visit>, beforeLeader: seq<Step>, leaderFails: bool)
    returns (steps: seq<C.Step>)
    requires KernelInv(t, k) && Mirrors(t, k, w) && |visits| == |pids|
    requires forall v :: v in visits ==> HonestReads(v)
    ensures var p := SignalMembers(t, k, Some(pids), visits, beforeLeader, leaderFails);
            var end := C.Interfere(w, steps);
            && Mirrors(t, p.k, end)
            && (VerdictOf(p, leaderFails).complete ==>
                  forall id :: id in w.members && id in end.members && k.procs[id].pid in pids ==> IsHit(p, id))
  {
    var p := SignalMembers(t, k, Some(pids), visits, beforeLeader, leaderFails);
    var ks := VisitsMove(t, Pass(k, true, []), pids, visits);
    KernelAppend(t, k, ks, beforeLeader);
    steps := KernelMirrored(t, k, w, ks + beforeLeader);
    if p.complete {
      forall id | id in w.members && id in C.Interfere(w, steps).members && k.procs[id].pid in pids
        ensures IsHit(p, id)
      {
        CompletePassReachesEveryMember(t, k, pids, visits, beforeLeader, leaderFails, id);
      }
    }
  }
}
