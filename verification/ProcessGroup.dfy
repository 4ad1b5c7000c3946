/**
 Signalling and scanning a process group while processes die and their pids are reused.

 A process instance is identified for ever; a pid denotes at most one unreaped instance at a time and
 is free for reuse once that instance is reaped.  A pidfd refers to an instance.  Between any two
 system calls of the supervisor the kernel may take any number of steps.
 */
module ProcessGroup {
  import opened Options

  datatype Life = Live | Zombie | Reaped

  datatype Process = Process(pid: nat, group: nat, life: Life)

  /** Every instance that ever existed, and the instance each pid in use denotes. */
  datatype Kernel = Kernel(procs: map<nat, Process>, pids: map<nat, nat>)

  /** The execution group, its leader's instance and the leader's pid. */
  datatype Target = Target(group: nat, leader: nat, pid: nat)

  datatype Step =
    | Fork(parent: nat, child: nat, pid: nat)
    | Exit(id: nat)
    | Reap(id: nat)
    | Regroup(id: nat, group: nat)

  /** One kernel step.  The group is closed: a member stays one for life (containment denies setsid and
      setpgid), its children are members, and nobody else can join, the group being in a private
      session.  The leader stays unreaped: only the supervisor waits for it. */
  function Apply(t: Target, k: Kernel, step: Step): Kernel {
    var procs := k.procs;
    match step
    case Fork(parent, child, pid) =>
      if parent in procs && procs[parent].life == Live && child !in procs && pid !in k.pids
      then Kernel(procs[child := Process(pid, procs[parent].group, Live)], k.pids[pid := child]) else k
    case Exit(id) =>
      if id in procs && procs[id].life == Live
      then k.(procs := procs[id := procs[id].(life := Zombie)]) else k
    case Reap(id) =>
      if id in procs && id != t.leader && procs[id].life == Zombie
      then Kernel(procs[id := procs[id].(life := Reaped)], k.pids - {procs[id].pid}) else k
    case Regroup(id, group) =>
      if id in procs && procs[id].life == Live && procs[id].group != t.group && group != t.group
      then k.(procs := procs[id := procs[id].(group := group)]) else k
  }

  function Interfere(t: Target, k: Kernel, steps: seq<Step>): Kernel
    decreases |steps|
  {
    if steps == [] then k else Interfere(t, Apply(t, k, steps[0]), steps[1..])
  }

  predicate Unreaped(k: Kernel, id: nat) {
    id in k.procs && k.procs[id].life != Reaped
  }

  predicate Member(t: Target, k: Kernel, id: nat) {
    id in k.procs && k.procs[id].group == t.group
  }

  /** The pid table is exact, and the leader is an unreaped member. */
  ghost predicate KernelInv(t: Target, k: Kernel) {
    && (forall pid :: pid in k.pids ==> Unreaped(k, k.pids[pid]) && k.procs[k.pids[pid]].pid == pid)
    && (forall id :: Unreaped(k, id) ==> k.procs[id].pid in k.pids && k.pids[k.procs[id].pid] == id)
    && Unreaped(k, t.leader) && k.procs[t.leader].pid == t.pid && Member(t, k, t.leader)
  }

  /** How a kernel state may differ from an earlier one. */
  ghost predicate Later(t: Target, a: Kernel, b: Kernel) {
    forall id :: id in a.procs ==>
      && id in b.procs
      && b.procs[id].pid == a.procs[id].pid
      && (Unreaped(b, id) ==> Unreaped(a, id))
      && (b.procs[id].life == Live ==> a.procs[id].life == Live)
      && (Member(t, a, id) <==> Member(t, b, id))
  }

  lemma ApplyKeeps(t: Target, k: Kernel, step: Step)
    requires KernelInv(t, k)
    ensures KernelInv(t, Apply(t, k, step))
  {}

  lemma ApplyLater(t: Target, k: Kernel, step: Step)
    ensures Later(t, k, Apply(t, k, step))
  {}

  lemma LaterTransitive(t: Target, a: Kernel, b: Kernel, c: Kernel)
    requires Later(t, a, b) && Later(t, b, c)
    ensures Later(t, a, c)
  {}

  lemma {:induction false} InterfereFacts(t: Target, k: Kernel, steps: seq<Step>)
    requires KernelInv(t, k)
    ensures KernelInv(t, Interfere(t, k, steps)) && Later(t, k, Interfere(t, k, steps))
    decreases |steps|
  {
    if steps != [] {
      var mid := Apply(t, k, steps[0]);
      ApplyKeeps(t, k, steps[0]);
      ApplyLater(t, k, steps[0]);
      InterfereFacts(t, mid, steps[1..]);
      LaterTransitive(t, k, mid, Interfere(t, k, steps));
    }
  }

  // ----- signalling ----------------------------------------------------------------------------

  /** process_group_of: the group of whatever instance the pid denotes at this moment. */
  function GroupOf(k: Kernel, pid: nat, fails: bool): Option<nat> {
    if fails || pid !in k.pids || k.pids[pid] !in k.procs then None else Some(k.procs[k.pids[pid]].group)
  }

  /** A signal that was accepted for an instance, with the kernel state it was accepted in. */
  datatype Hit = Hit(id: nat, at: Kernel)

  /** What one visit to a listed pid meets: interference before each of its four system calls, and
      which of them fail for a reason other than ESRCH. */
  datatype Visit = Visit(
    beforeRead: seq<Step>, readFails: bool,
    beforeOpen: seq<Step>, openFails: bool,
    beforeAgain: seq<Step>, againFails: bool,
    beforeSend: seq<Step>, sendFails: bool)

  datatype Pass = Pass(k: Kernel, complete: bool, hits: seq<Hit>)

  /** pidfd_send_signal: refused for a reaped instance. */
  function Send(p: Pass, id: nat, fails: bool): Pass {
    if fails then p.(complete := false)
    else if Unreaped(p.k, id) then p.(hits := p.hits + [Hit(id, p.k)])
    else p
  }

  /** One turn of the loop over the listing: read the group, open a pidfd, read the group again, send. */
  function VisitPid(t: Target, p: Pass, pid: nat, v: Visit): Pass {
    if pid == t.pid then p
    else
      var k1 := Interfere(t, p.k, v.beforeRead);
      if GroupOf(k1, pid, v.readFails) != Some(t.group) then p.(k := k1)
      else
        var k2 := Interfere(t, k1, v.beforeOpen);
        if v.openFails then p.(k := k2, complete := false)
        else if pid !in k2.pids then p.(k := k2)
        else
          var id := k2.pids[pid];
          var k3 := Interfere(t, k2, v.beforeAgain);
          if GroupOf(k3, pid, v.againFails) != Some(t.group) then p.(k := k3)
          else Send(p.(k := Interfere(t, k3, v.beforeSend)), id, v.sendFails)
  }

  function VisitAll(t: Target, p: Pass, pids: seq<nat>, visits: seq<Visit>): Pass
    requires |visits| == |pids|
    decreases |pids|
  {
    if pids == [] then p else VisitAll(t, VisitPid(t, p, pids[0], visits[0]), pids[1..], visits[1..])
  }

  /** signal_process_group_members: the listing may fail; the leader is signalled through its own pidfd. */
  function SignalMembers(
    t: Target, k: Kernel, listing: Option<seq<nat>>, visits: seq<Visit>,
    beforeLeader: seq<Step>, leaderFails: bool): Pass
    requires listing.Some? ==> |visits| == |listing.value|
  {
    var p := if listing.None? then Pass(k, false, []) else VisitAll(t, Pass(k, true, []), listing.value, visits);
    Send(p.(k := Interfere(t, p.k, beforeLeader)), t.leader, leaderFails)
  }

  /** Every signal so far went to an instance that was a member when it was sent. */
  ghost predicate OnlyMembers(t: Target, p: Pass) {
    forall h :: h in p.hits ==> Member(t, h.at, h.id) && Unreaped(h.at, h.id)
  }

  /** If the opened instance is unreaped at the second read, the pid still denotes it; so what that read
      says is about this instance, and membership is for life. */
  lemma RecheckIsAboutTheOpened(t: Target, first: Kernel, again: Kernel, send: Kernel, pid: nat)
    requires KernelInv(t, first) && KernelInv(t, again)
    requires Later(t, first, again) && Later(t, again, send)
    requires pid in first.pids && GroupOf(again, pid, false) == Some(t.group)
    requires Unreaped(send, first.pids[pid])
    ensures Member(t, send, first.pids[pid])
  {
    var id := first.pids[pid];
    assert Unreaped(again, id);
    assert again.pids[pid] == id;
  }

  ghost predicate After(t: Target, a: Kernel, k: Kernel) {
    KernelInv(t, k) && Later(t, a, k)
  }

  lemma Onward(t: Target, a: Kernel, k: Kernel, steps: seq<Step>)
    requires After(t, a, k)
    ensures After(t, a, Interfere(t, k, steps))
  {
    InterfereFacts(t, k, steps);
    LaterTransitive(t, a, k, Interfere(t, k, steps));
  }

  lemma SelfLater(t: Target, k: Kernel)
    ensures Later(t, k, k)
  {}

  /** The kernel states a visit can end in. */
  lemma VisitShape(t: Target, p: Pass, pid: nat, v: Visit)
    ensures var q := VisitPid(t, p, pid, v);
            var k1 := Interfere(t, p.k, v.beforeRead);
            var k2 := Interfere(t, k1, v.beforeOpen);
            var k3 := Interfere(t, k2, v.beforeAgain);
            && (q.k == p.k || q.k == k1 || q.k == k2 || q.k == k3 || q.k == Interfere(t, k3, v.beforeSend))
            && p.hits <= q.hits
            && (q.complete ==> p.complete)
  {}

  lemma VisitMovesOn(t: Target, p: Pass, pid: nat, v: Visit)
    requires KernelInv(t, p.k)
    ensures var q := VisitPid(t, p, pid, v);
            After(t, p.k, q.k) && p.hits <= q.hits && (q.complete ==> p.complete)
  {
    SelfLater(t, p.k);
    Onward(t, p.k, p.k, v.beforeRead);
    var k1 := Interfere(t, p.k, v.beforeRead);
    Onward(t, p.k, k1, v.beforeOpen);
    var k2 := Interfere(t, k1, v.beforeOpen);
    Onward(t, p.k, k2, v.beforeAgain);
    var k3 := Interfere(t, k2, v.beforeAgain);
    Onward(t, p.k, k3, v.beforeSend);
    VisitShape(t, p, pid, v);
  }

  lemma VisitHitsMember(t: Target, k2: Kernel, pid: nat, v: Visit)
    requires KernelInv(t, k2) && pid in k2.pids
    requires var k3 := Interfere(t, k2, v.beforeAgain);
             GroupOf(k3, pid, v.againFails) == Some(t.group)
             && Unreaped(Interfere(t, k3, v.beforeSend), k2.pids[pid])
    ensures Member(t, Interfere(t, Interfere(t, k2, v.beforeAgain), v.beforeSend), k2.pids[pid])
  {
    var k3 := Interfere(t, k2, v.beforeAgain);
    InterfereFacts(t, k2, v.beforeAgain);
    InterfereFacts(t, k3, v.beforeSend);
    RecheckIsAboutTheOpened(t, k2, k3, Interfere(t, k3, v.beforeSend), pid);
  }

  lemma VisitKeeps(t: Target, p: Pass, pid: nat, v: Visit)
    requires KernelInv(t, p.k) && OnlyMembers(t, p)
    ensures OnlyMembers(t, VisitPid(t, p, pid, v))
  {
    var k1 := Interfere(t, p.k, v.beforeRead);
    InterfereFacts(t, p.k, v.beforeRead);
    var k2 := Interfere(t, k1, v.beforeOpen);
    InterfereFacts(t, k1, v.beforeOpen);
    var k3 := Interfere(t, k2, v.beforeAgain);
    var k4 := Interfere(t, k3, v.beforeSend);
    if pid in k2.pids && GroupOf(k3, pid, v.againFails) == Some(t.group) && Unreaped(k4, k2.pids[pid]) {
      VisitHitsMember(t, k2, pid, v);
    }
  }

  lemma {:induction false} VisitAllKeeps(t: Target, p: Pass, pids: seq<nat>, visits: seq<Visit>)
    requires |visits| == |pids| && KernelInv(t, p.k) && OnlyMembers(t, p)
    ensures var q := VisitAll(t, p, pids, visits);
            KernelInv(t, q.k) && Later(t, p.k, q.k) && OnlyMembers(t, q) && p.hits <= q.hits
            && (q.complete ==> p.complete)
    decreases |pids|
  {
    if pids == [] {
      SelfLater(t, p.k);
    } else {
      var q := VisitPid(t, p, pids[0], visits[0]);
      VisitMovesOn(t, p, pids[0], visits[0]);
      VisitKeeps(t, p, pids[0], visits[0]);
      VisitAllKeeps(t, q, pids[1..], visits[1..]);
      LaterTransitive(t, p.k, q.k, VisitAll(t, p, pids, visits).k);
    }
  }

  /** Pid-reuse safety: whatever exits, reaps and reuses of pids fall between the four system calls of
      each visit, every instance that is signalled is an unreaped member of the execution group at that
      moment. */
  lemma OnlyMembersAreSignalled(
    t: Target, k: Kernel, listing: Option<seq<nat>>, visits: seq<Visit>,
    beforeLeader: seq<Step>, leaderFails: bool, h: Hit)
    requires KernelInv(t, k) && (listing.Some? ==> |visits| == |listing.value|)
    requires h in SignalMembers(t, k, listing, visits, beforeLeader, leaderFails).hits
    ensures Member(t, h.at, h.id) && Unreaped(h.at, h.id)
  {
    if listing.Some? { VisitAllKeeps(t, Pass(k, true, []), listing.value, visits); }
    var p := if listing.None? then Pass(k, false, []) else VisitAll(t, Pass(k, true, []), listing.value, visits);
    InterfereFacts(t, p.k, beforeLeader);
  }

  // ----- completeness --------------------------------------------------------------------------

  /** Reading a group fails only when the process is gone. */
  predicate HonestReads(v: Visit) {
    !v.readFails && !v.againFails
  }

  predicate IsHit(p: Pass, id: nat) {
    exists h :: h in p.hits && h.id == id
  }

  /** A pid denotes the same instance for as long as that instance is unreaped. */
  lemma PidStays(t: Target, a: Kernel, b: Kernel, id: nat)
    requires KernelInv(t, b) && Later(t, a, b) && id in a.procs && Unreaped(b, id)
    ensures a.procs[id].pid in b.pids && b.pids[a.procs[id].pid] == id
  {}

  /** A member that is unreaped at the end of some interference is what its pid denotes there. */
  lemma StillThere(t: Target, a: Kernel, k: Kernel, id: nat)
    requires After(t, a, k) && Member(t, a, id) && Unreaped(k, id)
    ensures var pid := a.procs[id].pid;
            pid in k.pids && k.pids[pid] == id && GroupOf(k, pid, false) == Some(t.group)
  {
    PidStays(t, a, k, id);
  }

  lemma StaysReaped(t: Target, k: Kernel, steps: seq<Step>, id: nat)
    requires KernelInv(t, k) && id in k.procs && Unreaped(Interfere(t, k, steps), id)
    ensures Unreaped(k, id)
  {
    InterfereFacts(t, k, steps);
  }

  /** Visiting a member that stays unreaped either signals it or leaves the pass incomplete. */
  lemma VisitReaches(t: Target, p: Pass, pid: nat, v: Visit, id: nat)
    requires KernelInv(t, p.k) && HonestReads(v) && pid != t.pid
    requires Member(t, p.k, id) && p.k.procs[id].pid == pid
    requires Unreaped(VisitPid(t, p, pid, v).k, id)
    ensures VisitPid(t, p, pid, v).complete ==> IsHit(VisitPid(t, p, pid, v), id)
  {
    SelfLater(t, p.k);
    var k1 := Interfere(t, p.k, v.beforeRead);
    Onward(t, p.k, p.k, v.beforeRead);
    var k2 := Interfere(t, k1, v.beforeOpen);
    Onward(t, p.k, k1, v.beforeOpen);
    var k3 := Interfere(t, k2, v.beforeAgain);
    Onward(t, p.k, k2, v.beforeAgain);
    var k4 := Interfere(t, k3, v.beforeSend);
    Onward(t, p.k, k3, v.beforeSend);
    if Unreaped(k4, id) { StaysReaped(t, k3, v.beforeSend, id); }
    if Unreaped(k3, id) { StillThere(t, p.k, k3, id); StaysReaped(t, k2, v.beforeAgain, id); }
    if Unreaped(k2, id) { StillThere(t, p.k, k2, id); StaysReaped(t, k1, v.beforeOpen, id); }
    if Unreaped(k1, id) { StillThere(t, p.k, k1, id); }
    assert Hit(id, k4) in p.hits + [Hit(id, k4)];
  }

  lemma {:induction false} VisitAllReaches(t: Target, p: Pass, pids: seq<nat>, visits: seq<Visit>, id: nat)
    requires |visits| == |pids| && KernelInv(t, p.k) && forall v :: v in visits ==> HonestReads(v)
    requires Member(t, p.k, id) && id != t.leader && p.k.procs[id].pid in pids
    requires Unreaped(VisitAll(t, p, pids, visits).k, id)
    ensures var q := VisitAll(t, p, pids, visits); q.complete ==> IsHit(q, id)
    decreases |pids|
  {
    var q := VisitPid(t, p, pids[0], visits[0]);
    VisitMovesOn(t, p, pids[0], visits[0]);
    VisitAllMovesOn(t, q, pids[1..], visits[1..]);
    if p.k.procs[id].pid == pids[0] {
      assert pids[0] != t.pid;
      VisitReaches(t, p, pids[0], visits[0], id);
    } else {
      VisitAllReaches(t, q, pids[1..], visits[1..], id);
    }
  }

  lemma {:induction false} VisitAllMovesOn(t: Target, p: Pass, pids: seq<nat>, visits: seq<Visit>)
    requires |visits| == |pids| && KernelInv(t, p.k)
    ensures var q := VisitAll(t, p, pids, visits);
            KernelInv(t, q.k) && Later(t, p.k, q.k) && p.hits <= q.hits && (q.complete ==> p.complete)
    decreases |pids|
  {
    if pids == [] {
      SelfLater(t, p.k);
    } else {
      var q := VisitPid(t, p, pids[0], visits[0]);
      VisitMovesOn(t, p, pids[0], visits[0]);
      VisitAllMovesOn(t, q, pids[1..], visits[1..]);
      LaterTransitive(t, p.k, q.k, VisitAll(t, p, pids, visits).k);
    }
  }

  /** The other direction: a pass that reports itself complete has signalled every listed member that
      is still unreaped when it ends. */
  lemma CompletePassReachesEveryMember(
    t: Target, k: Kernel, pids: seq<nat>, visits: seq<Visit>, beforeLeader: seq<Step>, leaderFails: bool, id: nat)
    requires KernelInv(t, k) && |visits| == |pids| && forall v :: v in visits ==> HonestReads(v)
    requires Member(t, k, id) && (id == t.leader || k.procs[id].pid in pids)
    requires var q := SignalMembers(t, k, Some(pids), visits, beforeLeader, leaderFails);
             q.complete && Unreaped(q.k, id)
    ensures IsHit(SignalMembers(t, k, Some(pids), visits, beforeLeader, leaderFails), id)
  {
    var p := VisitAll(t, Pass(k, true, []), pids, visits);
    VisitAllMovesOn(t, Pass(k, true, []), pids, visits);
    InterfereFacts(t, p.k, beforeLeader);
    var q := SignalMembers(t, k, Some(pids), visits, beforeLeader, leaderFails);
    assert q.hits == p.hits + [Hit(t.leader, q.k)];
    assert Hit(t.leader, q.k) in q.hits;
    if id != t.leader {
      VisitAllReaches(t, Pass(k, true, []), pids, visits, id);
      var h :| h in p.hits && h.id == id;
      assert h in q.hits;
    }
  }

  // ----- when a pass is complete ---------------------------------------------------------------

  /** A reading of the group of `pid` shows a member. */
  predicate Shows(t: Target, k: Kernel, pid: nat, fails: bool) {
    !fails && pid in k.pids && Member(t, k, k.pids[pid])
  }

  /** A visit that starts in `k` meets a member it cannot open, or one that cannot be signalled once opened. */
  ghost predicate Trouble(t: Target, k: Kernel, pid: nat, v: Visit) {
    var k1 := Interfere(t, k, v.beforeRead);
    var k2 := Interfere(t, k1, v.beforeOpen);
    var k3 := Interfere(t, k2, v.beforeAgain);
    && pid != t.pid && Shows(t, k1, pid, v.readFails)
    && (v.openFails || (v.sendFails && pid in k2.pids && Shows(t, k3, pid, v.againFails)))
  }

  lemma VisitCompleteIff(t: Target, p: Pass, pid: nat, v: Visit)
    ensures VisitPid(t, p, pid, v).complete <==> p.complete && !Trouble(t, p.k, pid, v)
  {}

  /** The kernel when visit `i` of a pass starts. */
  ghost function KernelAt(t: Target, p: Pass, pids: seq<nat>, visits: seq<Visit>, i: nat): Kernel
    requires i <= |pids| == |visits|
  {
    VisitAll(t, p, pids[..i], visits[..i]).k
  }

  lemma {:induction false} VisitsCompleteIff(t: Target, p: Pass, pids: seq<nat>, visits: seq<Visit>)
    requires |visits| == |pids|
    ensures VisitAll(t, p, pids, visits).complete <==>
            p.complete
            && forall i: nat :: i < |pids| ==> !Trouble(t, KernelAt(t, p, pids, visits, i), pids[i], visits[i])
    decreases |pids|
  {
    if pids != [] {
      var q := VisitPid(t, p, pids[0], visits[0]);
      VisitCompleteIff(t, p, pids[0], visits[0]);
      VisitsCompleteIff(t, q, pids[1..], visits[1..]);
      assert KernelAt(t, p, pids, visits, 0) == p.k;
      forall i: nat | i < |pids| - 1
        ensures KernelAt(t, q, pids[1..], visits[1..], i) == KernelAt(t, p, pids, visits, i + 1)
      {
        assert pids[..i + 1][1..] == pids[1..][..i] && visits[..i + 1][1..] == visits[1..][..i];
      }
      TroublesShift(t, p, pids, visits, q);
    }
  }

  lemma TroublesShift(t: Target, p: Pass, pids: seq<nat>, visits: seq<Visit>, q: Pass)
    requires |visits| == |pids| > 0 && KernelAt(t, p, pids, visits, 0) == p.k
    requires forall i: nat :: i < |pids| - 1 ==>
               KernelAt(t, q, pids[1..], visits[1..], i) == KernelAt(t, p, pids, visits, i + 1)
    ensures (forall i: nat :: i < |pids| ==> !Trouble(t, KernelAt(t, p, pids, visits, i), pids[i], visits[i])) <==>
            && !Trouble(t, p.k, pids[0], visits[0])
            && forall i: nat :: i < |pids| - 1 ==>
                 !Trouble(t, KernelAt(t, q, pids[1..], visits[1..], i), pids[1..][i], visits[1..][i])
  {
    if forall i: nat :: i < |pids| - 1 ==>
         !Trouble(t, KernelAt(t, q, pids[1..], visits[1..], i), pids[1..][i], visits[1..][i])
    {
      forall i: nat | 0 < i < |pids| ensures !Trouble(t, KernelAt(t, p, pids, visits, i), pids[i], visits[i]) {
        assert !Trouble(t, KernelAt(t, q, pids[1..], visits[1..], i - 1), pids[1..][i - 1], visits[1..][i - 1]);
      }
    }
  }

  /** When a pass is complete: exactly if the listing worked, the leader took its signal, and no visit met a member it
      could not open or signal.  What fails for any other process on the list is not held against it. */
  lemma CompleteExactly(
    t: Target, k: Kernel, listing: Option<seq<nat>>, visits: seq<Visit>, beforeLeader: seq<Step>, leaderFails: bool)
    requires listing.Some? ==> |visits| == |listing.value|
    ensures SignalMembers(t, k, listing, visits, beforeLeader, leaderFails).complete <==>
            && listing.Some? && !leaderFails
            && forall i: nat :: i < |listing.value| ==>
                 !Trouble(t, KernelAt(t, Pass(k, true, []), listing.value, visits, i), listing.value[i], visits[i])
  {
    if listing.Some? {
      VisitsCompleteIff(t, Pass(k, true, []), listing.value, visits);
    }
  }

  // ----- what a pass sends ---------------------------------------------------------------------

  lemma {:induction false} VisitsSpareLeader(t: Target, p: Pass, pids: seq<nat>, visits: seq<Visit>)
    requires |visits| == |pids| && KernelInv(t, p.k) && !IsHit(p, t.leader)
    ensures !IsHit(VisitAll(t, p, pids, visits), t.leader)
    ensures |VisitAll(t, p, pids, visits).hits| <= |p.hits| + |pids|
    decreases |pids|
  {
    if pids != [] {
      VisitSparesLeader(t, p, pids[0], visits[0]);
      VisitMovesOn(t, p, pids[0], visits[0]);
      VisitsSpareLeader(t, VisitPid(t, p, pids[0], visits[0]), pids[1..], visits[1..]);
    }
  }

  lemma VisitSparesLeader(t: Target, p: Pass, pid: nat, v: Visit)
    requires KernelInv(t, p.k) && !IsHit(p, t.leader)
    ensures !IsHit(VisitPid(t, p, pid, v), t.leader) && |VisitPid(t, p, pid, v).hits| <= |p.hits| + 1
  {
    var k1 := Interfere(t, p.k, v.beforeRead);
    InterfereFacts(t, p.k, v.beforeRead);
    InterfereFacts(t, k1, v.beforeOpen);
    var k2 := Interfere(t, k1, v.beforeOpen);
    assert pid in k2.pids && pid != t.pid ==> k2.pids[pid] != t.leader;
  }

  /** The leader gets one signal, the last of the pass, and gets it unless that very call fails; every other entry of
      the listing leads to at most one. */
  lemma LeaderSignalledOnce(
    t: Target, k: Kernel, listing: Option<seq<nat>>, visits: seq<Visit>, beforeLeader: seq<Step>, leaderFails: bool)
    requires KernelInv(t, k) && (listing.Some? ==> |visits| == |listing.value|)
    ensures var p := SignalMembers(t, k, listing, visits, beforeLeader, leaderFails);
            && (IsHit(p, t.leader) <==> !leaderFails)
            && (forall i :: 0 <= i < |p.hits| && p.hits[i].id == t.leader ==> i == |p.hits| - 1)
            && |p.hits| <= (if listing.Some? then |listing.value| else 0) + (if leaderFails then 0 else 1)
  {
    if listing.Some? { VisitsSpareLeader(t, Pass(k, true, []), listing.value, visits); }
    var p := if listing.None? then Pass(k, false, []) else VisitAll(t, Pass(k, true, []), listing.value, visits);
    LeaderStaysSignallable(t, k, listing, visits, beforeLeader);
    var q := SignalMembers(t, k, listing, visits, beforeLeader, leaderFails);
    if leaderFails {
      assert q.hits == p.hits;
    } else {
      assert q.hits == p.hits + [Hit(t.leader, q.k)];
      assert Hit(t.leader, q.k) in q.hits;
    }
    forall i | 0 <= i < |p.hits| ensures p.hits[i].id != t.leader {
      assert p.hits[i] in p.hits;
    }
  }

  /** A member whose pidfd cannot be opened, or not be signalled while it is there, leaves the pass incomplete. */
  lemma FailureShows(t: Target, p: Pass, pid: nat, v: Visit, id: nat)
    requires KernelInv(t, p.k) && HonestReads(v) && pid != t.pid && (v.openFails || v.sendFails)
    requires Member(t, p.k, id) && p.k.procs[id].pid == pid && Unreaped(VisitPid(t, p, pid, v).k, id)
    ensures !VisitPid(t, p, pid, v).complete
  {
    VisitMeets(t, p, pid, v, id);
  }

  /** A visit to a member that stays unreaped gets as far as its calls let it. */
  lemma VisitMeets(t: Target, p: Pass, pid: nat, v: Visit, id: nat)
    requires KernelInv(t, p.k) && HonestReads(v) && pid != t.pid
    requires Member(t, p.k, id) && p.k.procs[id].pid == pid && Unreaped(VisitPid(t, p, pid, v).k, id)
    ensures v.openFails || v.sendFails ==> !VisitPid(t, p, pid, v).complete
  {
    var k1 := Interfere(t, p.k, v.beforeRead);
    SelfLater(t, p.k);
    Onward(t, p.k, p.k, v.beforeRead);
    var k2 := Interfere(t, k1, v.beforeOpen);
    Onward(t, p.k, k1, v.beforeOpen);
    var k3 := Interfere(t, k2, v.beforeAgain);
    Onward(t, p.k, k2, v.beforeAgain);
    var k4 := Interfere(t, k3, v.beforeSend);
    Onward(t, p.k, k3, v.beforeSend);
    VisitShape(t, p, pid, v);
    if Unreaped(k1, id) { StillThere(t, p.k, k1, id); }
    if Unreaped(k2, id) { StillThere(t, p.k, k2, id); }
    if Unreaped(k3, id) { StillThere(t, p.k, k3, id); }
    if Unreaped(k2, id) { StaysReaped(t, k1, v.beforeOpen, id); }
    if Unreaped(k3, id) { StaysReaped(t, k2, v.beforeAgain, id); }
    if Unreaped(k4, id) { StaysReaped(t, k3, v.beforeSend, id); }
  }

  // ----- the loops -----------------------------------------------------------------------------

  /** The loop of signal_process_group_members. */
  method SignalLoop(
    t: Target, k: Kernel, listing: Option<seq<nat>>, visits: seq<Visit>, beforeLeader: seq<Step>, leaderFails: bool)
    returns (p: Pass, leaderSignalled: bool)
    requires KernelInv(t, k) && (listing.Some? ==> |visits| == |listing.value|)
    ensures p == SignalMembers(t, k, listing, visits, beforeLeader, leaderFails)
    ensures forall h :: h in p.hits ==> Member(t, h.at, h.id) && Unreaped(h.at, h.id)
    ensures leaderSignalled <==> !leaderFails
  {
    p := Pass(k, true, []);
    if listing.None? {
      p := p.(complete := false);
    } else {
      var i := 0;
      while i < |visits|
        invariant i <= |visits|
        invariant VisitAll(t, p, listing.value[i..], visits[i..]) ==
                  VisitAll(t, Pass(k, true, []), listing.value, visits)
      {
        assert listing.value[i..][1..] == listing.value[i + 1..] && visits[i..][1..] == visits[i + 1..];
        p := VisitPid(t, p, listing.value[i], visits[i]);
        i := i + 1;
      }
    }
    LeaderStaysSignallable(t, k, listing, visits, beforeLeader);
    p := p.(k := Interfere(t, p.k, beforeLeader));
    leaderSignalled := !leaderFails && Unreaped(p.k, t.leader);
    p := Send(p, t.leader, leaderFails);
    forall h | h in p.hits ensures Member(t, h.at, h.id) && Unreaped(h.at, h.id) {
      OnlyMembersAreSignalled(t, k, listing, visits, beforeLeader, leaderFails, h);
    }
  }

  lemma LeaderStaysSignallable(t: Target, k: Kernel, listing: Option<seq<nat>>, visits: seq<Visit>, steps: seq<Step>)
    requires KernelInv(t, k) && (listing.Some? ==> |visits| == |listing.value|)
    ensures var p := if listing.None? then Pass(k, false, [])
                     else VisitAll(t, Pass(k, true, []), listing.value, visits);
            Unreaped(Interfere(t, p.k, steps), t.leader)
  {
    if listing.Some? { VisitAllMovesOn(t, Pass(k, true, []), listing.value, visits); }
    var p := if listing.None? then Pass(k, false, []) else VisitAll(t, Pass(k, true, []), listing.value, visits);
    InterfereFacts(t, p.k, steps);
  }

  /** No unreaped instance other than the leader is in the group. */
  ghost predicate Empty(t: Target, k: Kernel) {
    forall id :: Unreaped(k, id) && Member(t, k, id) ==> id == t.leader
  }

  /** One scan of wait_process_group_members_gone over a listing taken from one snapshot. */
  method ScanLoop(t: Target, k: Kernel, pids: seq<nat>) returns (found: bool)
    requires KernelInv(t, k) && forall id :: Unreaped(k, id) ==> k.procs[id].pid in pids
    ensures !found <==> Empty(t, k)
  {
    found := false;
    var i := 0;
    while i < |pids|
      invariant i <= |pids|
      invariant forall j :: 0 <= j < i ==> pids[j] == t.pid || GroupOf(k, pids[j], false) != Some(t.group)
    {
      if pids[i] != t.pid && GroupOf(k, pids[i], false) == Some(t.group) {
        found := true;
        assert Unreaped(k, k.pids[pids[i]]) && Member(t, k, k.pids[pids[i]]);
        return;
      }
      i := i + 1;
    }
    forall id | Unreaped(k, id) && Member(t, k, id) ensures id == t.leader {
      var j :| 0 <= j < |pids| && pids[j] == k.procs[id].pid;
    }
  }

  lemma ApplyKeepsEmpty(t: Target, k: Kernel, step: Step)
    requires KernelInv(t, k) && Empty(t, k) && k.procs[t.leader].life == Zombie
    ensures var m := Apply(t, k, step); Empty(t, m) && m.procs[t.leader].life == Zombie
  {
    ApplyKeeps(t, k, step);
    var m := Apply(t, k, step);
    forall id | Unreaped(m, id) && Member(t, m, id) ensures id == t.leader {
      if id !in k.procs { assert step.Fork? && Member(t, k, step.parent); }
    }
  }

  /** Once a scan finds the group empty and the leader is a zombie, no schedule of forks, exits, reaps
      and pid reuse ever brings another process into it. */
  lemma {:induction false} EmptyGroupStaysEmpty(t: Target, k: Kernel, steps: seq<Step>)
    requires KernelInv(t, k) && Empty(t, k) && k.procs[t.leader].life == Zombie
    ensures Empty(t, Interfere(t, k, steps))
    decreases |steps|
  {
    if steps != [] {
      ApplyKeeps(t, k, steps[0]);
      ApplyKeepsEmpty(t, k, steps[0]);
      EmptyGroupStaysEmpty(t, Apply(t, k, steps[0]), steps[1..]);
    }
  }
}
