/**
 Containment over whole runs: every process descending from the leader carries the filter, and every
 system call any of them makes goes through it.
 */
module Containment {
  import opened Options
  import opened SeccompFilter
  import L = ResourceLimits

  /** The attributes containment is about. */
  datatype Process = Process(session: nat, group: nat, namespaces: nat, limits: L.Table)

  /** The contained processes, by pid. */
  type Tree = map<nat, Process>

  const NR_FORK: bv32 := 57
  const NR_VFORK: bv32 := 58

  /** What the kernel picks or the memory arguments say, where the register arguments do not. */
  datatype Choice = Choice(child: nat, number: nat, target: nat, resource: L.Resource, limit: L.Limit)

  datatype Call = Call(caller: nat, data: Data, choice: Choice)

  /** What an admitted native call does to the attributes.  Calls that are not listed leave them alone. */
  function Effect(tree: Tree, c: Call): Tree
    requires c.caller in tree
  {
    var p, nr, x := tree[c.caller], c.data.nr, c.choice;
    if nr == NR_FORK || nr == NR_VFORK then tree[x.child := p]
    else if nr == NR_CLONE then
      tree[x.child := if AsksForNamespace(c.data.a0) then p.(namespaces := x.number) else p]
    else if nr == NR_CLONE3 then tree[x.child := p.(namespaces := x.number)]
    else if nr == NR_SETSID then tree[c.caller := p.(session := c.caller, group := c.caller)]
    else if nr == NR_SETPGID && x.target in tree then tree[x.target := tree[x.target].(group := x.number)]
    else if nr == NR_UNSHARE || nr == NR_SETNS then tree[c.caller := p.(namespaces := x.number)]
    else if nr == NR_SETRLIMIT then tree[c.caller := p.(limits := p.limits[x.resource := x.limit])]
    else if nr == NR_PRLIMIT64 && c.data.a2 != 0 && x.target in tree then
      tree[x.target := tree[x.target].(limits := tree[x.target].limits[x.resource := x.limit])]
    else tree
  }

  /** A call by a contained process: the filter runs first, and only its RET_ALLOW lets the call through. */
  function Perform(seal: bool, tree: Tree, c: Call): Tree {
    if c.caller !in tree then tree
    else if Eval(Filter(seal), 0, 0, c.data) != Some(RET_ALLOW) then tree
    else Effect(tree, c)
  }

  function PerformAll(seal: bool, tree: Tree, calls: seq<Call>): Tree
    decreases |calls|
  {
    if calls == [] then tree else PerformAll(seal, Perform(seal, tree, calls[0]), calls[1..])
  }

  /** Everybody has the leader's session, group and namespaces, and its limits where they are sealed. */
  ghost predicate Alike(seal: bool, tree: Tree, leader: Process) {
    forall pid :: pid in tree ==>
      && tree[pid].session == leader.session
      && tree[pid].group == leader.group
      && tree[pid].namespaces == leader.namespaces
      && (seal ==> tree[pid].limits == leader.limits)
  }

  lemma PerformKeeps(seal: bool, tree: Tree, c: Call, leader: Process)
    requires Alike(seal, tree, leader)
    ensures Alike(seal, Perform(seal, tree, c), leader)
  {
    FilterRefinesPolicy(seal, c.data);
    CodesDiffer(Policy(seal, c.data));
  }

  lemma CodesDiffer(v: Verdict)
    ensures Code(v) == RET_ALLOW <==> v == Allow
  {}

  /** For every sequence of calls by contained processes, and every choice the kernel makes, all
      descendants keep the leader's session, process group and namespaces, and -- when limits were
      requested -- its limits. */
  lemma {:induction false} ContainedForever(seal: bool, tree: Tree, calls: seq<Call>, leader: Process)
    requires Alike(seal, tree, leader)
    ensures Alike(seal, PerformAll(seal, tree, calls), leader)
    decreases |calls|
  {
    if calls != [] {
      PerformKeeps(seal, tree, calls[0], leader);
      ContainedForever(seal, Perform(seal, tree, calls[0]), calls[1..], leader);
    }
  }

  /** Setup and seal together: once the requested limits were realized from the inherited ones and the
      filter was installed (sealing exactly when something was requested), every process of every later
      run holds each requested limit as soft and hard value, within the inherited ceiling. */
  lemma LimitsStayExact(
    q: L.Request, inherited: L.Table, pid: nat, leader: Process, calls: seq<Call>, other: nat, r: L.Resource)
    requires L.Realized(q, inherited, leader.limits)
    requires other in PerformAll(L.Asks(q), map[pid := leader], calls)
    requires L.Requested(q, r).Some?
    ensures var value := L.Requested(q, r).value;
            var t := PerformAll(L.Asks(q), map[pid := leader], calls)[other].limits;
            r in t && t[r] == L.Limit(value, value) && L.Below(value, inherited[r].hard)
  {
    ContainedForever(L.Asks(q), map[pid := leader], calls, leader);
  }
}
