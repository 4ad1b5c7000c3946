/**
 Why the execution group is closed: the rules by which `ProcessGroup` lets members come and go follow from
 the filter every contained process carries.
 */
module GroupClosure {
  import opened Containment
  import P = ProcessGroup

  predicate IsLiveMember(t: P.Target, k: P.Kernel, id: nat) {
    P.Member(t, k, id) && k.procs[id].life == P.Live
  }

  /** All of these processes are in the group. */
  predicate InGroup(tree: Tree, group: nat) {
    forall pid :: pid in tree ==> tree[pid].group == group
  }

  /** The contained processes are exactly the live members of the group, under their own pids. */
  ghost predicate Tracks(t: P.Target, k: P.Kernel, tree: Tree) {
    && InGroup(tree, t.group)
    && forall pid :: pid in tree <==> pid in k.pids && IsLiveMember(t, k, k.pids[pid])
  }

  /** In any kernel where the leader is the one live member when the filter is installed, it is the one
      contained process. */
  lemma StartsTracked(t: P.Target, k: P.Kernel, leader: Process)
    requires P.KernelInv(t, k) && leader.group == t.group && k.procs[t.leader].life == P.Live
    requires forall id :: IsLiveMember(t, k, id) ==> id == t.leader
    ensures Tracks(t, k, map[t.pid := leader])
  {}

  // ----- one call ------------------------------------------------------------------------------------

  /** At most one process appears, with the pid the kernel chose, and nobody disappears. */
  lemma CallAddsOne(seal: bool, tree: Tree, c: Call)
    ensures tree.Keys <= Perform(seal, tree, c).Keys <= tree.Keys + {c.choice.child}
    ensures c.caller !in tree ==> Perform(seal, tree, c) == tree
  {}

  lemma AllInGroup(seal: bool, tree: Tree, leader: Process)
    requires Alike(seal, tree, leader)
    ensures InGroup(tree, leader.group)
  {}

  lemma NobodyNew(t: P.Target, k: P.Kernel, tree: Tree, after: Tree)
    requires Tracks(t, k, tree) && after.Keys == tree.Keys && InGroup(after, t.group)
    ensures Tracks(t, k, after)
  {
    assert forall pid :: pid in after <==> pid in tree.Keys;
  }

  lemma OneNew(t: P.Target, k: P.Kernel, tree: Tree, after: Tree, parent: nat, child: nat, id: nat)
    requires P.KernelInv(t, k) && Tracks(t, k, tree) && InGroup(after, t.group) && parent in tree
    requires after.Keys == tree.Keys + {child} && child !in k.pids && id !in k.procs
    ensures Tracks(t, P.Apply(t, k, P.Fork(k.pids[parent], id, child)), after)
  {
    var m := P.Apply(t, k, P.Fork(k.pids[parent], id, child));
    assert IsLiveMember(t, k, k.pids[parent]);
    forall pid ensures pid in after <==> pid in m.pids && IsLiveMember(t, m, m.pids[pid]) {
      assert pid in after <==> pid in tree.Keys || pid == child;
    }
  }

  /** Whatever a contained process calls, the kernel takes no step or forks a member: no member ever leaves the
      group, and its children are members. */
  lemma CallFollowsTheRules(seal: bool, t: P.Target, k: P.Kernel, tree: Tree, c: Call, leader: Process, id: nat)
    requires P.KernelInv(t, k) && Tracks(t, k, tree) && Alike(seal, tree, leader) && leader.group == t.group
    requires c.choice.child !in k.pids && id !in k.procs
    ensures var after := Perform(seal, tree, c);
            if after.Keys == tree.Keys then Tracks(t, k, after)
            else c.caller in tree && Tracks(t, P.Apply(t, k, P.Fork(k.pids[c.caller], id, c.choice.child)), after)
  {
    var after := Perform(seal, tree, c);
    PerformKeeps(seal, tree, c, leader);
    AllInGroup(seal, after, leader);
    CallAddsOne(seal, tree, c);
    if after.Keys == tree.Keys {
      NobodyNew(t, k, tree, after);
    } else {
      assert after.Keys == tree.Keys + {c.choice.child};
      OneNew(t, k, tree, after, c.caller, c.choice.child, id);
    }
  }

  // ----- whole traces ----------------------------------------------------------------------------------

  /** A contained process makes a call, or dies, or somebody else does something. */
  datatype Act =
    | Calls(c: Call, id: nat)        // `id` is the instance a fork creates
    | Dies(pid: nat)
    | Elsewhere(step: P.Step)

  /** A step nobody alive in the group takes. */
  predicate Foreign(t: P.Target, k: P.Kernel, step: P.Step) {
    match step
    case Fork(parent, _, _) => !P.Member(t, k, parent)
    case Exit(id) => !P.Member(t, k, id)
    case _ => true
  }

  datatype Both = Both(k: P.Kernel, tree: Tree)

  /** What an act does to the kernel and to the contained processes.  The kernel gives a fork a pid and an
      instance that are not in use. */
  function Next(seal: bool, t: P.Target, b: Both, act: Act): Both {
    match act
    case Calls(c, id) =>
      if c.caller !in b.k.pids || c.choice.child in b.k.pids || id in b.k.procs then b
      else
        var after := Perform(seal, b.tree, c);
        if after.Keys == b.tree.Keys then b.(tree := after)
        else Both(P.Apply(t, b.k, P.Fork(b.k.pids[c.caller], id, c.choice.child)), after)
    case Dies(pid) =>
      if pid !in b.tree || pid !in b.k.pids then b
      else Both(P.Apply(t, b.k, P.Exit(b.k.pids[pid])), b.tree - {pid})
    case Elsewhere(step) =>
      if Foreign(t, b.k, step) then b.(k := P.Apply(t, b.k, step)) else b
  }

  function Trace(seal: bool, t: P.Target, b: Both, acts: seq<Act>): Both
    decreases |acts|
  {
    if acts == [] then b else Trace(seal, t, Next(seal, t, b, acts[0]), acts[1..])
  }

  /** What every trace keeps. */
  ghost predicate Joined(seal: bool, t: P.Target, b: Both, leader: Process) {
    P.KernelInv(t, b.k) && Tracks(t, b.k, b.tree) && Alike(seal, b.tree, leader)
  }

  lemma DeathTracked(t: P.Target, k: P.Kernel, tree: Tree, pid: nat)
    requires P.KernelInv(t, k) && Tracks(t, k, tree) && pid in tree
    ensures Tracks(t, P.Apply(t, k, P.Exit(k.pids[pid])), tree - {pid})
  {
    var m := P.Apply(t, k, P.Exit(k.pids[pid]));
    forall q ensures q in tree - {pid} <==> q in m.pids && IsLiveMember(t, m, m.pids[q]) {
      if q in k.pids && q != pid { assert k.pids[q] != k.pids[pid]; }
    }
  }

  lemma ForeignTracked(t: P.Target, k: P.Kernel, tree: Tree, step: P.Step)
    requires P.KernelInv(t, k) && Tracks(t, k, tree) && Foreign(t, k, step)
    ensures Tracks(t, P.Apply(t, k, step), tree)
  {
    var m := P.Apply(t, k, step);
    forall q ensures q in tree <==> q in m.pids && IsLiveMember(t, m, m.pids[q]) {
      if q in k.pids && step.Exit? && step.id in k.procs { assert k.procs[k.pids[q]].pid == q; }
    }
  }

  lemma NextJoined(seal: bool, t: P.Target, b: Both, act: Act, leader: Process)
    requires Joined(seal, t, b, leader) && leader.group == t.group
    ensures var n := Next(seal, t, b, act); Joined(seal, t, n, leader) && P.Later(t, b.k, n.k)
  {
    P.SelfLater(t, b.k);
    match act
    case Calls(c, id) =>
      if c.caller in b.k.pids && c.choice.child !in b.k.pids && id !in b.k.procs {
        CallFollowsTheRules(seal, t, b.k, b.tree, c, leader, id);
        PerformKeeps(seal, b.tree, c, leader);
        var step := P.Fork(b.k.pids[c.caller], id, c.choice.child);
        P.ApplyKeeps(t, b.k, step);
        P.ApplyLater(t, b.k, step);
      }
    case Dies(pid) =>
      if pid in b.tree {
        DeathTracked(t, b.k, b.tree, pid);
        P.ApplyKeeps(t, b.k, P.Exit(b.k.pids[pid]));
        P.ApplyLater(t, b.k, P.Exit(b.k.pids[pid]));
      }
    case Elsewhere(step) =>
      if Foreign(t, b.k, step) {
        ForeignTracked(t, b.k, b.tree, step);
        P.ApplyKeeps(t, b.k, step);
        P.ApplyLater(t, b.k, step);
      }
  }

  /** For every trace of calls and deaths of contained processes among arbitrary steps of others: the live members
      of the group are exactly the contained processes, who all keep the leader's group, and whoever was ever a
      member still is one. */
  lemma {:induction false} ClosedForever(seal: bool, t: P.Target, b: Both, acts: seq<Act>, leader: Process)
    requires Joined(seal, t, b, leader) && leader.group == t.group
    ensures var e := Trace(seal, t, b, acts); Joined(seal, t, e, leader) && P.Later(t, b.k, e.k)
    decreases |acts|
  {
    if acts == [] {
      P.SelfLater(t, b.k);
    } else {
      var n := Next(seal, t, b, acts[0]);
      NextJoined(seal, t, b, acts[0], leader);
      ClosedForever(seal, t, n, acts[1..], leader);
      P.LaterTransitive(t, b.k, n.k, Trace(seal, t, b, acts).k);
    }
  }
}
