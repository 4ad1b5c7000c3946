/**
 Admission of isolated resources: the loop of admit_isolated_resources over a stable snapshot of the
 root view and the host, and what an accepted admission guarantees.
 */
module MountAdmission {
  import opened Paths

  datatype Role =
    | SourceTree
    | BuildInputTree
    | CheckInputTree
    | PackageTree
    | BuildWorkspace
    | PackageOutputRoot
    | PrivateTemporaryRoot
    | ManagedTargetRoot

  datatype Access = ReadOnly | Writable

  datatype Binding = Binding(role: Role, access: Access, logical: Path, host: Path)

  /** Device and inode of a directory. */
  datatype Identity = Identity(device: nat, inode: nat)

  /** What the file system shows while a request is admitted.  `entries` are all names inside the root
      view, `dirs` those that open as directories without crossing a symbolic link. */
  datatype Snapshot = Snapshot(
    entries: set<Path>,
    dirs: map<Path, Identity>,
    hosts: map<Path, Identity>,
    writable: set<Path>)

  ghost predicate ValidSnapshot(fs: Snapshot) {
    && (forall p :: p in fs.dirs && p != [] ==> p in fs.entries)
    && (forall p :: p in fs.entries && p != [] ==> Parent(p) in fs.dirs)
  }

  predicate IsEmpty(fs: Snapshot, dir: Path) {
    forall p :: p in fs.entries && p != [] ==> Parent(p) != dir
  }

  datatype Admitted = Admitted(
    source: Identity, target: Identity, access: Access, logical: Path, host: Path, synthetic: bool)

  datatype Namespace = Namespace(path: Path, target: Identity, children: seq<string>)

  datatype Admission = Admission(root: Path, bindings: seq<Admitted>, namespaces: seq<Namespace>)

  datatype Refusal =
    | RootIsHostRoot
    | RootMissing
    | WrongAccess
    | ReplacesRoot
    | OccupiesDev
    | LogicalOverlap
    | HostOverlapsRoot
    | HostOverlap
    | SourceMissing
    | SameDirectory
    | SourceNotWritable
    | NoParentNamespace
    | NamespaceMissing
    | NamespaceNotEmpty
    | NamespaceChanged
    | DestinationMissing

  datatype Result<T> = Ok(value: T) | Refused(reason: Refusal)

  const DEV: Path := ["dev"]
  const NOWHERE := Identity(0, 0)

  predicate IsInputRole(role: Role) {
    role == BuildInputTree || role == CheckInputTree
  }

  /** The access validate_role_access demands of a role. */
  predicate RoleAccessOk(role: Role, access: Access) {
    match role
    case SourceTree => access == ReadOnly
    case BuildInputTree => access == ReadOnly
    case CheckInputTree => access == ReadOnly
    case PackageTree => access == ReadOnly
    case _ => access == Writable
  }

  // ----- what the loop establishes directly ----------------------------------------------------

  ghost predicate LogicalOk(bs: seq<Admitted>) {
    && (forall i :: 0 <= i < |bs| ==> bs[i].logical != [] && !(DEV <= bs[i].logical))
    && (forall i, j :: 0 <= i < j < |bs| ==> !Overlap(bs[i].logical, bs[j].logical))
  }

  ghost predicate HostsOk(root: Path, bs: seq<Admitted>) {
    && (forall i :: 0 <= i < |bs| ==> !Overlap(root, bs[i].host))
    && (forall i, j :: 0 <= i < j < |bs| ==> !Overlap(bs[i].host, bs[j].host) && bs[i].source != bs[j].source)
  }

  /** Namespace `n` serves the input binding `b`. */
  predicate Serves(n: Namespace, b: Admitted) {
    b.synthetic && b.logical != [] && n.path == Parent(b.logical) && Last(b.logical) in n.children
  }

  ghost predicate NamespacesOk(fs: Snapshot, bs: seq<Admitted>, ns: seq<Namespace>) {
    && (forall k :: 0 <= k < |ns| ==>
          && ns[k].path != []
          && ns[k].path in fs.dirs && fs.dirs[ns[k].path] == ns[k].target
          && IsEmpty(fs, ns[k].path)
          && Distinct(ns[k].children)
          && ns[k].children != [])
    && (forall k, l :: 0 <= k < l < |ns| ==> ns[k].path != ns[l].path)
    && (forall k, c :: 0 <= k < |ns| && c in ns[k].children ==> HasInput(bs, ns[k].path + [c]))
  }

  /** Some admitted input binding is mounted at `p`. */
  predicate HasInput(bs: seq<Admitted>, p: Path) {
    exists i :: 0 <= i < |bs| && bs[i].synthetic && bs[i].logical == p
  }

  ghost predicate TargetsOk(fs: Snapshot, bs: seq<Admitted>, ns: seq<Namespace>) {
    forall i :: 0 <= i < |bs| ==>
      if bs[i].synthetic then exists k :: 0 <= k < |ns| && Serves(ns[k], bs[i])
      else bs[i].logical in fs.dirs && fs.dirs[bs[i].logical] == bs[i].target
  }

  ghost predicate Direct(fs: Snapshot, root: Path, bs: seq<Admitted>, ns: seq<Namespace>) {
    LogicalOk(bs) && HostsOk(root, bs) && NamespacesOk(fs, bs, ns) && TargetsOk(fs, bs, ns)
  }

  // ----- what follows from the checks together --------------------------------------------------

  /** A directory strictly below another one makes that one non-empty. */
  lemma {:induction false} BelowMeansNotEmpty(fs: Snapshot, above: Path, below: Path)
    requires ValidSnapshot(fs) && below in fs.dirs && above <= below && above != below
    ensures !IsEmpty(fs, above)
    decreases |below|
  {
    assert below != [] && below in fs.entries;
    if Parent(below) != above {
      assert above <= Parent(below);
      BelowMeansNotEmpty(fs, above, Parent(below));
    }
  }

  /** Namespaces are pairwise incomparable: both exist in the root, and both are empty there. */
  lemma NamespacesIncomparable(fs: Snapshot, bs: seq<Admitted>, ns: seq<Namespace>, k: nat, l: nat)
    requires ValidSnapshot(fs) && NamespacesOk(fs, bs, ns) && k < |ns| && l < |ns| && k != l
    ensures !Overlap(ns[k].path, ns[l].path)
  {
    var a, b := ns[k].path, ns[l].path;
    assert a != b by { if k < l {} else { assert ns[l].path != ns[k].path; } }
    if a <= b { BelowMeansNotEmpty(fs, a, b); }
    if b <= a { BelowMeansNotEmpty(fs, b, a); }
  }

  /** A namespace holds an input binding directly below it. */
  lemma NamespaceHasBinding(fs: Snapshot, bs: seq<Admitted>, ns: seq<Namespace>, k: nat) returns (i: nat)
    requires NamespacesOk(fs, bs, ns) && k < |ns|
    ensures i < |bs| && bs[i].synthetic && |bs[i].logical| == |ns[k].path| + 1 && ns[k].path <= bs[i].logical
  {
    var c := ns[k].children[0];
    assert c in ns[k].children;
    assert HasInput(bs, ns[k].path + [c]);
    i :| 0 <= i < |bs| && bs[i].synthetic && bs[i].logical == ns[k].path + [c];
  }

  /** No binding is at or above a namespace. */
  lemma NoBindingAboveNamespace(fs: Snapshot, root: Path, bs: seq<Admitted>, ns: seq<Namespace>, i: nat, k: nat)
    requires Direct(fs, root, bs, ns) && i < |bs| && k < |ns|
    ensures !(bs[i].logical <= ns[k].path)
  {
    if bs[i].logical <= ns[k].path {
      var j := NamespaceHasBinding(fs, bs, ns, k);
      assert bs[i].logical <= bs[j].logical;
      assert i != j;
      assert Overlap(bs[i].logical, bs[j].logical) && Overlap(bs[j].logical, bs[i].logical);
    }
  }

  /** A non-input binding is not below a namespace either: its destination exists, and nothing exists
      below an empty directory. */
  lemma NoPlainBindingBelowNamespace(fs: Snapshot, root: Path, bs: seq<Admitted>, ns: seq<Namespace>, i: nat, k: nat)
    requires ValidSnapshot(fs) && Direct(fs, root, bs, ns) && i < |bs| && k < |ns| && !bs[i].synthetic
    ensures !Overlap(ns[k].path, bs[i].logical)
  {
    NoBindingAboveNamespace(fs, root, bs, ns, i, k);
    if ns[k].path <= bs[i].logical { BelowMeansNotEmpty(fs, ns[k].path, bs[i].logical); }
  }

  /** The only namespace an input binding is below is its own parent. */
  lemma InputBelowOwnNamespace(fs: Snapshot, root: Path, bs: seq<Admitted>, ns: seq<Namespace>, i: nat, k: nat)
    requires ValidSnapshot(fs) && Direct(fs, root, bs, ns) && i < |bs| && k < |ns| && bs[i].synthetic
    requires ns[k].path <= bs[i].logical
    ensures ns[k].path == Parent(bs[i].logical)
  {
    var l :| 0 <= l < |ns| && Serves(ns[l], bs[i]);
    NoBindingAboveNamespace(fs, root, bs, ns, i, k);
    assert ns[k].path <= Parent(bs[i].logical) == ns[l].path;
    if k != l { NamespacesIncomparable(fs, bs, ns, k, l); }
  }

  /** Namespaces are neither the root nor anywhere around /dev. */
  lemma NamespaceOutsideDev(fs: Snapshot, root: Path, bs: seq<Admitted>, ns: seq<Namespace>, k: nat)
    requires Direct(fs, root, bs, ns) && k < |ns|
    ensures !Overlap(ns[k].path, DEV)
  {
    var j := NamespaceHasBinding(fs, bs, ns, k);
  }

  // ----- everything the mount sequence relies on -----------------------------------------------

  ghost predicate BindingOk(a: Admission, i: nat)
    requires i < |a.bindings|
  {
    var b := a.bindings[i];
    && b.logical != [] && !(DEV <= b.logical)
    && !Overlap(a.root, b.host)
    && (b.synthetic ==> exists k :: 0 <= k < |a.namespaces| && Serves(a.namespaces[k], b))
  }

  predicate BindingPair(a: Admission, i: nat, j: nat)
    requires i < |a.bindings| && j < |a.bindings|
  {
    && !Overlap(a.bindings[i].logical, a.bindings[j].logical)
    && !Overlap(a.bindings[i].host, a.bindings[j].host)
    && a.bindings[i].source != a.bindings[j].source
  }

  predicate NamespaceOk(a: Admission, k: nat)
    requires k < |a.namespaces|
  {
    var n := a.namespaces[k];
    n.path != [] && !Overlap(n.path, DEV) && Distinct(n.children)
  }

  predicate NamespacePair(a: Admission, k: nat, l: nat)
    requires k < |a.namespaces| && l < |a.namespaces|
  {
    !Overlap(a.namespaces[k].path, a.namespaces[l].path)
  }

  /** A binding is not at or above a namespace, and below one only as an input directly inside it. */
  predicate MixedPair(a: Admission, i: nat, k: nat)
    requires i < |a.bindings| && k < |a.namespaces|
  {
    var b, n := a.bindings[i], a.namespaces[k];
    && !(b.logical <= n.path)
    && (n.path <= b.logical ==> b.synthetic && n.path == Parent(b.logical))
  }

  ghost predicate Sound(a: Admission) {
    && (forall i :: 0 <= i < |a.bindings| ==> BindingOk(a, i))
    && (forall i, j :: 0 <= i < j < |a.bindings| ==> BindingPair(a, i, j))
    && (forall k :: 0 <= k < |a.namespaces| ==> NamespaceOk(a, k))
    && (forall k, l :: 0 <= k < |a.namespaces| && 0 <= l < |a.namespaces| && k != l ==> NamespacePair(a, k, l))
    && (forall i, k :: 0 <= i < |a.bindings| && 0 <= k < |a.namespaces| ==> MixedPair(a, i, k))
  }

  lemma DirectIsSound(fs: Snapshot, root: Path, bs: seq<Admitted>, ns: seq<Namespace>)
    requires ValidSnapshot(fs) && Direct(fs, root, bs, ns)
    ensures Sound(Admission(root, bs, ns))
  {
    var a := Admission(root, bs, ns);
    forall k | 0 <= k < |ns| ensures NamespaceOk(a, k) {
      NamespaceOutsideDev(fs, root, bs, ns, k);
    }
    forall k, l | 0 <= k < |ns| && 0 <= l < |ns| && k != l ensures NamespacePair(a, k, l) {
      NamespacesIncomparable(fs, bs, ns, k, l);
    }
    forall i, k | 0 <= i < |bs| && 0 <= k < |ns| ensures MixedPair(a, i, k) {
      DirectMixedPair(fs, root, bs, ns, i, k);
    }
  }

  lemma DirectMixedPair(fs: Snapshot, root: Path, bs: seq<Admitted>, ns: seq<Namespace>, i: nat, k: nat)
    requires ValidSnapshot(fs) && Direct(fs, root, bs, ns) && i < |bs| && k < |ns|
    ensures MixedPair(Admission(root, bs, ns), i, k)
  {
    NoBindingAboveNamespace(fs, root, bs, ns, i, k);
    if ns[k].path <= bs[i].logical {
      if bs[i].synthetic {
        InputBelowOwnNamespace(fs, root, bs, ns, i, k);
      } else {
        NoPlainBindingBelowNamespace(fs, root, bs, ns, i, k);
      }
    }
  }

  // ----- the loop ------------------------------------------------------------------------------

  /** Binding `b` of the request passed every check of its own and became `x`. */
  ghost predicate Matches(fs: Snapshot, b: Binding, x: Admitted) {
    && x.logical == b.logical && x.host == b.host && x.access == b.access && x.synthetic == IsInputRole(b.role)
    && RoleAccessOk(b.role, b.access)
    && b.host in fs.hosts && x.source == fs.hosts[b.host]
    && (b.access == Writable ==> b.host in fs.writable)
    && DestinationOk(fs, b)
  }

  /** Where the binding is to appear: an existing directory, or below an existing empty one. */
  predicate DestinationOk(fs: Snapshot, b: Binding) {
    if IsInputRole(b.role) then
      |b.logical| >= 2 && Parent(b.logical) in fs.dirs && IsEmpty(fs, Parent(b.logical))
    else b.logical in fs.dirs
  }

  /** The problem a refusal names really exists in the request. */
  ghost predicate Justified(fs: Snapshot, root: Path, req: seq<Binding>, reason: Refusal) {
    match reason
    case RootIsHostRoot => root == []
    case RootMissing => root !in fs.hosts
    case WrongAccess => exists b :: b in req && !RoleAccessOk(b.role, b.access)
    case ReplacesRoot => exists b :: b in req && b.logical == []
    case OccupiesDev => exists b :: b in req && DEV <= b.logical
    case LogicalOverlap => exists i, j :: 0 <= i < j < |req| && Overlap(req[i].logical, req[j].logical)
    case HostOverlapsRoot => exists b :: b in req && Overlap(root, b.host)
    case HostOverlap => exists i, j :: 0 <= i < j < |req| && Overlap(req[i].host, req[j].host)
    case SourceMissing => exists b :: b in req && b.host !in fs.hosts
    case SameDirectory =>
      exists i, j :: 0 <= i < j < |req| && SameSource(fs, req[i], req[j])
    case SourceNotWritable => exists b :: b in req && b.access == Writable && b.host !in fs.writable
    case NoParentNamespace => exists b :: b in req && IsInputRole(b.role) && |b.logical| < 2
    case NamespaceMissing =>
      exists b :: b in req && IsInputRole(b.role) && b.logical != [] && Parent(b.logical) !in fs.dirs
    case NamespaceNotEmpty =>
      exists b :: b in req && IsInputRole(b.role) && b.logical != [] && !IsEmpty(fs, Parent(b.logical))
    case NamespaceChanged => false
    case DestinationMissing => exists b :: b in req && !IsInputRole(b.role) && b.logical !in fs.dirs
  }

  predicate SameSource(fs: Snapshot, a: Binding, b: Binding) {
    a.host in fs.hosts && b.host in fs.hosts && fs.hosts[a.host] == fs.hosts[b.host]
  }

  /** The request is free of every problem admission looks for. */
  ghost predicate Clean(fs: Snapshot, root: Path, req: seq<Binding>) {
    && root != [] && root in fs.hosts
    && (forall i :: 0 <= i < |req| ==>
          && RoleAccessOk(req[i].role, req[i].access)
          && req[i].logical != [] && !(DEV <= req[i].logical)
          && !Overlap(root, req[i].host)
          && req[i].host in fs.hosts
          && (req[i].access == Writable ==> req[i].host in fs.writable)
          && DestinationOk(fs, req[i]))
    && (forall i, j :: 0 <= i < j < |req| ==>
          && !Overlap(req[i].logical, req[j].logical)
          && !Overlap(req[i].host, req[j].host)
          && !SameSource(fs, req[i], req[j]))
  }

  /** The conditions on one binding, on the snapshot's own terms. */
  ghost predicate Acceptable(fs: Snapshot, root: Path, b: Binding) {
    && (b.role in {SourceTree, BuildInputTree, CheckInputTree, PackageTree} ==> b.access == ReadOnly)
    && (b.role in {BuildWorkspace, PackageOutputRoot, PrivateTemporaryRoot, ManagedTargetRoot} ==> b.access == Writable)
    && b.logical != [] && b.logical[0] != "dev"
    && !(root <= b.host) && !(b.host <= root)
    && b.host in fs.hosts
    && (b.access == Writable ==> b.host in fs.writable)
    && if b.role == BuildInputTree || b.role == CheckInputTree then
         && |b.logical| >= 2 && b.logical[..|b.logical| - 1] in fs.dirs
         && forall p :: p in fs.entries && p != [] ==> p[..|p| - 1] != b.logical[..|b.logical| - 1]
       else b.logical in fs.dirs
  }

  /** The conditions on two of them. */
  predicate Compatible(fs: Snapshot, a: Binding, b: Binding) {
    && !(a.logical <= b.logical) && !(b.logical <= a.logical)
    && !(a.host <= b.host) && !(b.host <= a.host)
    && (a.host in fs.hosts && b.host in fs.hosts ==> fs.hosts[a.host] != fs.hosts[b.host])
  }

  lemma AcceptableIff(fs: Snapshot, root: Path, b: Binding)
    ensures Acceptable(fs, root, b) <==>
            && RoleAccessOk(b.role, b.access) && b.logical != [] && !(DEV <= b.logical) && !Overlap(root, b.host)
            && b.host in fs.hosts && (b.access == Writable ==> b.host in fs.writable) && DestinationOk(fs, b)
  {}

  /** What a clean request is, spelled out: nothing is refused that meets these conditions and nothing accepted that
      does not. */
  lemma CleanMeans(fs: Snapshot, root: Path, req: seq<Binding>)
    ensures Clean(fs, root, req) <==>
            && root != [] && root in fs.hosts
            && (forall i :: 0 <= i < |req| ==> Acceptable(fs, root, req[i]))
            && (forall i, j :: 0 <= i < j < |req| ==> Compatible(fs, req[i], req[j]))
  {
    forall i | 0 <= i < |req| ensures Acceptable(fs, root, req[i]) <==>
      && RoleAccessOk(req[i].role, req[i].access) && req[i].logical != [] && !(DEV <= req[i].logical)
      && !Overlap(root, req[i].host) && req[i].host in fs.hosts
      && (req[i].access == Writable ==> req[i].host in fs.writable) && DestinationOk(fs, req[i])
    {
      AcceptableIff(fs, root, req[i]);
    }
  }

  const SAMPLE := Snapshot(
    {["dev"], ["in"], ["work"]},
    map[[] := Identity(1, 1), ["dev"] := Identity(1, 2), ["in"] := Identity(1, 3), ["work"] := Identity(1, 4)],
    map[["root"] := Identity(1, 1), ["input"] := Identity(2, 1), ["ws"] := Identity(2, 2)],
    {["ws"]})

  const SAMPLE_INPUT := Binding(BuildInputTree, ReadOnly, ["in", "a"], ["input"])
  const SAMPLE_WORKSPACE := Binding(BuildWorkspace, Writable, ["work"], ["ws"])

  lemma NamesDiffer(a: string, b: string, x: Path, y: Path)
    requires a != b
    ensures !([a] + x <= [b] + y)
  {
    assert ([a] + x)[0] == a && ([b] + y)[0] == b;
  }

  lemma SampleIsValid()
    ensures ValidSnapshot(SAMPLE) && forall p :: p in SAMPLE.entries && p != [] ==> p[..|p| - 1] == []
  {}

  lemma InputAcceptable()
    ensures Acceptable(SAMPLE, ["root"], SAMPLE_INPUT)
  {
    assert |"dev"| == 3 && |"in"| == 2 && |"root"| == 4 && |"input"| == 5;
    NamesDiffer("root", "input", [], []);
    NamesDiffer("input", "root", [], []);
    assert ["in", "a"][..1] == ["in"];
    SampleIsValid();
  }

  lemma WorkspaceAcceptable()
    ensures Acceptable(SAMPLE, ["root"], SAMPLE_WORKSPACE)
  {
    assert |"dev"| == 3 && |"work"| == 4 && |"root"| == 4 && |"ws"| == 2;
    NamesDiffer("root", "ws", [], []);
    NamesDiffer("ws", "root", [], []);
  }

  lemma SampleCompatible()
    ensures Compatible(SAMPLE, SAMPLE_INPUT, SAMPLE_WORKSPACE)
  {
    assert |"in"| == 2 && |"work"| == 4 && |"input"| == 5 && |"ws"| == 2;
    NamesDiffer("input", "ws", [], []);
    NamesDiffer("ws", "input", [], []);
    NamesDiffer("in", "work", ["a"], []);
    NamesDiffer("work", "in", [], ["a"]);
    assert ["in"] + ["a"] == ["in", "a"];
  }

  lemma CleanPairOf(fs: Snapshot, root: Path, a: Binding, b: Binding)
    requires root != [] && root in fs.hosts
    requires Acceptable(fs, root, a) && Acceptable(fs, root, b) && Compatible(fs, a, b)
    ensures Clean(fs, root, [a, b])
  {
    CleanMeans(fs, root, [a, b]);
  }

  /** A request that is accepted: an input below an empty directory, and a writable workspace. */
  lemma AcceptedExample()
    ensures ValidSnapshot(SAMPLE) && Clean(SAMPLE, ["root"], [SAMPLE_INPUT, SAMPLE_WORKSPACE])
  {
    SampleIsValid();
    InputAcceptable();
    WorkspaceAcceptable();
    SampleCompatible();
    CleanPairOf(SAMPLE, ["root"], SAMPLE_INPUT, SAMPLE_WORKSPACE);
  }

  /** What was admitted, role by role: inputs, and only inputs, get a made destination; source, package and input trees
      are read-only, the other four roles writable. */
  lemma RolesDecide(fs: Snapshot, root: Path, req: seq<Binding>, a: Admission, i: nat)
    requires Admits(fs, root, req, a) && i < |req|
    ensures a.bindings[i].synthetic <==> req[i].role in {BuildInputTree, CheckInputTree}
    ensures a.bindings[i].access == Writable <==>
            req[i].role in {BuildWorkspace, PackageOutputRoot, PrivateTemporaryRoot, ManagedTargetRoot}
    ensures a.bindings[i].logical == req[i].logical && a.bindings[i].host == req[i].host
  {
    assert Matches(fs, req[i], a.bindings[i]);
  }

  /** What can be wrong with the i-th binding of a request, on the snapshot's own terms. */
  ghost predicate Faulty(fs: Snapshot, root: Path, req: seq<Binding>, i: nat, reason: Refusal)
    requires i < |req|
  {
    var b := req[i];
    var input := b.role == BuildInputTree || b.role == CheckInputTree;
    match reason
    case WrongAccess =>
      (b.access == ReadOnly) != (b.role in {SourceTree, BuildInputTree, CheckInputTree, PackageTree})
    case ReplacesRoot => b.logical == []
    case OccupiesDev => b.logical != [] && b.logical[0] == "dev"
    case LogicalOverlap => exists j :: 0 <= j < i && Overlap(req[j].logical, b.logical)
    case HostOverlapsRoot => root <= b.host || b.host <= root
    case HostOverlap => exists j :: 0 <= j < i && Overlap(req[j].host, b.host)
    case SourceMissing => b.host !in fs.hosts
    case SameDirectory => exists j :: 0 <= j < i && SameSource(fs, req[j], b)
    case SourceNotWritable => b.access == Writable && b.host !in fs.writable
    case NoParentNamespace => input && |b.logical| < 2
    case NamespaceMissing => input && b.logical != [] && Parent(b.logical) !in fs.dirs
    case NamespaceNotEmpty => input && b.logical != [] && !IsEmpty(fs, Parent(b.logical))
    case DestinationMissing => !input && b.logical !in fs.dirs
    case _ => false
  }

  /** The order in which one binding is checked; the other reasons are not about one binding. */
  function Rank(reason: Refusal): nat {
    match reason
    case WrongAccess => 0
    case ReplacesRoot => 1
    case OccupiesDev => 2
    case LogicalOverlap => 3
    case HostOverlapsRoot => 4
    case HostOverlap => 5
    case SourceMissing => 6
    case SameDirectory => 7
    case SourceNotWritable => 8
    case NoParentNamespace => 9
    case NamespaceMissing => 10
    case NamespaceNotEmpty => 11
    case DestinationMissing => 12
    case _ => 13
  }

  /** Binding `i` passes the first `n` checks. */
  ghost predicate Passes(fs: Snapshot, root: Path, req: seq<Binding>, i: nat, n: nat)
    requires i < |req|
  {
    forall e :: Faulty(fs, root, req, i, e) ==> Rank(e) >= n
  }

  /** The first check binding `i` fails is the one for this reason. */
  ghost predicate Fails(fs: Snapshot, root: Path, req: seq<Binding>, i: nat, reason: Refusal)
    requires i < |req|
  {
    Faulty(fs, root, req, i, reason) && Passes(fs, root, req, i, Rank(reason))
  }

  /** Why a request is refused: the first check that fails for the first binding that fails one. */
  ghost predicate RefusedFor(fs: Snapshot, root: Path, req: seq<Binding>, reason: Refusal) {
    if root == [] then reason == RootIsHostRoot
    else if root !in fs.hosts then reason == RootMissing
    else exists i: nat :: i < |req| && Clean(fs, root, req[..i]) && Fails(fs, root, req, i, reason)
  }

  lemma FaultyIsJustified(fs: Snapshot, root: Path, req: seq<Binding>, i: nat, reason: Refusal)
    requires i < |req| && Faulty(fs, root, req, i, reason)
    ensures Justified(fs, root, req, reason)
  {
    assert req[i] in req;
  }

  lemma FaultInLonger(fs: Snapshot, root: Path, req: seq<Binding>, more: seq<Binding>, i: nat, reason: Refusal)
    requires req <= more && i < |req|
    ensures Faulty(fs, root, more, i, reason) <==> Faulty(fs, root, req, i, reason)
  {
    assert forall j :: 0 <= j <= i ==> more[j] == req[j];
  }

  /** Nothing a request is refused for can be found in a clean one. */
  lemma FaultyIsNotClean(fs: Snapshot, root: Path, req: seq<Binding>, i: nat, n: nat, reason: Refusal)
    requires i < n <= |req| && Faulty(fs, root, req, i, reason)
    ensures !Clean(fs, root, req[..n])
  {
    FaultInLonger(fs, root, req[..n], req, i, reason);
    FaultyIsJustified(fs, root, req[..n], i, reason);
    JustifiedIsNotClean(fs, root, req[..n], reason);
  }

  lemma FirstIsOne(fs: Snapshot, root: Path, req: seq<Binding>, i: nat, reason: Refusal, other: Refusal)
    requires i < |req| && Fails(fs, root, req, i, reason) && Fails(fs, root, req, i, other)
    ensures reason == other
  {
    assert Rank(reason) == Rank(other);
  }

  /** The reason of a refusal is a problem of the request. */
  lemma RefusalIsJustified(fs: Snapshot, root: Path, req: seq<Binding>, reason: Refusal)
    requires RefusedFor(fs, root, req, reason)
    ensures Justified(fs, root, req, reason)
  {
    if root != [] && root in fs.hosts {
      var i: nat :| i < |req| && Clean(fs, root, req[..i]) && Fails(fs, root, req, i, reason);
      FaultyIsJustified(fs, root, req, i, reason);
    }
  }

  /** A request is refused for one reason at most. */
  lemma RefusalIsExact(fs: Snapshot, root: Path, req: seq<Binding>, reason: Refusal, other: Refusal)
    requires RefusedFor(fs, root, req, reason) && RefusedFor(fs, root, req, other)
    ensures reason == other
  {
    if root != [] && root in fs.hosts {
      var i: nat :| i < |req| && Clean(fs, root, req[..i]) && Fails(fs, root, req, i, reason);
      var j: nat :| j < |req| && Clean(fs, root, req[..j]) && Fails(fs, root, req, j, other);
      if i < j { FaultyIsNotClean(fs, root, req, i, j, reason); }
      if j < i { FaultyIsNotClean(fs, root, req, j, i, other); }
      FirstIsOne(fs, root, req, i, reason, other);
    }
  }

  /** What an accepted request was turned into. */
  ghost predicate Admits(fs: Snapshot, root: Path, req: seq<Binding>, a: Admission) {
    && Sound(a) && a.root == root
    && Direct(fs, root, a.bindings, a.namespaces)
    && |a.bindings| == |req|
    && forall i :: 0 <= i < |req| ==> Matches(fs, req[i], a.bindings[i])
  }

  lemma JustifiedIsNotClean(fs: Snapshot, root: Path, req: seq<Binding>, reason: Refusal)
    requires Justified(fs, root, req, reason)
    ensures !Clean(fs, root, req)
  {}

  lemma AdmittedIsClean(fs: Snapshot, root: Path, req: seq<Binding>, bs: seq<Admitted>)
    requires root != [] && root in fs.hosts && |bs| == |req|
    requires forall i :: 0 <= i < |req| ==> Matches(fs, req[i], bs[i])
    requires LogicalOk(bs) && HostsOk(root, bs)
    ensures Clean(fs, root, req)
  {
    forall i | 0 <= i < |req| ensures Matches(fs, req[i], bs[i]) && bs[i].logical != [] && !(DEV <= bs[i].logical) {}
  }

  /** The scan of existing paths for one that overlaps `p`. */
  method FindOverlap(paths: seq<Path>, p: Path) returns (at: nat)
    ensures at <= |paths|
    ensures forall i :: 0 <= i < at ==> !Overlap(paths[i], p)
    ensures at < |paths| ==> Overlap(paths[at], p)
  {
    at := 0;
    while at < |paths|
      invariant at <= |paths|
      invariant forall i :: 0 <= i < at ==> !Overlap(paths[i], p)
    {
      var above := PathContains(paths[at], p);
      var below := PathContains(p, paths[at]);
      if above || below {
        return;
      }
      at := at + 1;
    }
  }

  method FindNamespace(ns: seq<Namespace>, path: Path) returns (at: nat)
    ensures at <= |ns|
    ensures at < |ns| ==> ns[at].path == path
    ensures at == |ns| ==> forall k :: 0 <= k < |ns| ==> ns[k].path != path
  {
    at := 0;
    while at < |ns| && ns[at].path != path
      invariant at <= |ns|
      invariant forall k :: 0 <= k < at ==> ns[k].path != path
    {
      at := at + 1;
    }
  }

  /** What the loop has collected so far, with the vectors the source keeps beside it. */
  datatype Progress = Progress(
    bindings: seq<Admitted>, namespaces: seq<Namespace>, logicals: seq<Path>, hosts: seq<Path>, sources: seq<Identity>)

  ghost predicate Collected(fs: Snapshot, root: Path, req: seq<Binding>, g: Progress) {
    && |g.bindings| == |req| == |g.logicals| == |g.hosts| == |g.sources|
    && (forall i :: 0 <= i < |req| ==>
          && Matches(fs, req[i], g.bindings[i])
          && g.logicals[i] == g.bindings[i].logical
          && g.hosts[i] == g.bindings[i].host
          && g.sources[i] == g.bindings[i].source)
    && Direct(fs, root, g.bindings, g.namespaces)
  }

  /** The vectors beside the bindings list what the request says. */
  ghost predicate Listed(fs: Snapshot, req: seq<Binding>, g: Progress) {
    && |g.logicals| == |g.hosts| == |g.sources| == |req|
    && forall i :: 0 <= i < |req| ==>
         && g.logicals[i] == req[i].logical
         && g.hosts[i] == req[i].host
         && req[i].host in fs.hosts && g.sources[i] == fs.hosts[req[i].host]
  }

  lemma CollectedIsListed(fs: Snapshot, root: Path, req: seq<Binding>, g: Progress)
    requires Collected(fs, root, req, g)
    ensures Listed(fs, req, g)
  {
    forall i | 0 <= i < |req| ensures Matches(fs, req[i], g.bindings[i]) {}
  }

  lemma PassedNext(fs: Snapshot, root: Path, req: seq<Binding>, i: nat, reason: Refusal)
    requires i < |req| && Rank(reason) < 13
    requires Passes(fs, root, req, i, Rank(reason)) && !Faulty(fs, root, req, i, reason)
    ensures Passes(fs, root, req, i, Rank(reason) + 1)
  {}

  lemma FailsNow(fs: Snapshot, root: Path, req: seq<Binding>, i: nat, reason: Refusal)
    requires i < |req| && Passes(fs, root, req, i, Rank(reason)) && Faulty(fs, root, req, i, reason)
    ensures Fails(fs, root, req, i, reason)
  {}

  /** The checks of one binding's role and logical path. */
  method CheckLogical(fs: Snapshot, ghost root: Path, req: seq<Binding>, g: Progress, b: Binding)
    returns (problem: Result<Path>)
    requires Listed(fs, req, g)
    ensures problem.Refused? ==> Fails(fs, root, req + [b], |req|, problem.reason)
    ensures problem.Ok? ==> Passes(fs, root, req + [b], |req|, 4)
    ensures problem.Ok? ==>
              && problem.value == b.logical
              && RoleAccessOk(b.role, b.access)
              && b.logical != [] && !(DEV <= b.logical)
              && (forall i :: 0 <= i < |req| ==> !Overlap(req[i].logical, b.logical))
  {
    ghost var all := req + [b];
    assert all[|req|] == b;
    assert forall i :: 0 <= i < |req| ==> all[i] == req[i];
    if !RoleAccessOk(b.role, b.access) {
      FailsNow(fs, root, all, |req|, WrongAccess);
      return Refused(WrongAccess);
    }
    PassedNext(fs, root, all, |req|, WrongAccess);
    if b.logical == [] {
      FailsNow(fs, root, all, |req|, ReplacesRoot);
      return Refused(ReplacesRoot);
    }
    PassedNext(fs, root, all, |req|, ReplacesRoot);
    var inDev := PathContains(DEV, b.logical);
    if inDev {
      FailsNow(fs, root, all, |req|, OccupiesDev);
      return Refused(OccupiesDev);
    }
    PassedNext(fs, root, all, |req|, OccupiesDev);
    var at := FindOverlap(g.logicals, b.logical);
    if at < |g.logicals| {
      assert Overlap(all[at].logical, all[|req|].logical);
      FailsNow(fs, root, all, |req|, LogicalOverlap);
      return Refused(LogicalOverlap);
    }
    PassedNext(fs, root, all, |req|, LogicalOverlap);
    return Ok(b.logical);
  }

  /** The checks of one binding's host path and source directory. */
  method CheckSource(fs: Snapshot, root: Path, req: seq<Binding>, g: Progress, b: Binding)
    returns (problem: Result<Identity>)
    requires Listed(fs, req, g) && Passes(fs, root, req + [b], |req|, 4)
    ensures problem.Refused? ==> Fails(fs, root, req + [b], |req|, problem.reason)
    ensures problem.Ok? ==> Passes(fs, root, req + [b], |req|, 9)
    ensures problem.Ok? ==>
              && !Overlap(root, b.host)
              && (forall i :: 0 <= i < |req| ==> !Overlap(req[i].host, b.host))
              && b.host in fs.hosts && problem.value == fs.hosts[b.host]
              && (forall i :: 0 <= i < |req| ==> !SameSource(fs, req[i], b))
              && (b.access == Writable ==> b.host in fs.writable)
  {
    ghost var all := req + [b];
    assert all[|req|] == b;
    assert forall i :: 0 <= i < |req| ==> all[i] == req[i];
    var at := FindOverlap([root], b.host);
    if at < 1 {
      FailsNow(fs, root, all, |req|, HostOverlapsRoot);
      return Refused(HostOverlapsRoot);
    }
    assert !Overlap([root][0], b.host);
    PassedNext(fs, root, all, |req|, HostOverlapsRoot);
    at := FindOverlap(g.hosts, b.host);
    if at < |g.hosts| {
      assert Overlap(all[at].host, all[|req|].host);
      FailsNow(fs, root, all, |req|, HostOverlap);
      return Refused(HostOverlap);
    }
    PassedNext(fs, root, all, |req|, HostOverlap);
    if b.host !in fs.hosts {
      FailsNow(fs, root, all, |req|, SourceMissing);
      return Refused(SourceMissing);
    }
    PassedNext(fs, root, all, |req|, SourceMissing);
    var source := fs.hosts[b.host];
    if source in g.sources {
      ghost var i :| 0 <= i < |g.sources| && g.sources[i] == source;
      assert SameSource(fs, all[i], all[|req|]);
      FailsNow(fs, root, all, |req|, SameDirectory);
      return Refused(SameDirectory);
    }
    PassedNext(fs, root, all, |req|, SameDirectory);
    if b.access == Writable && b.host !in fs.writable {
      FailsNow(fs, root, all, |req|, SourceNotWritable);
      return Refused(SourceNotWritable);
    }
    PassedNext(fs, root, all, |req|, SourceNotWritable);
    return Ok(source);
  }

  /** Adding one binding keeps logical and host paths apart. */
  lemma ExtendPaths(root: Path, bs: seq<Admitted>, x: Admitted)
    requires LogicalOk(bs) && HostsOk(root, bs)
    requires x.logical != [] && !(DEV <= x.logical) && !Overlap(root, x.host)
    requires forall i :: 0 <= i < |bs| ==>
               !Overlap(bs[i].logical, x.logical) && !Overlap(bs[i].host, x.host) && bs[i].source != x.source
    ensures LogicalOk(bs + [x]) && HostsOk(root, bs + [x])
  {}

  lemma HasInputInLonger(bs: seq<Admitted>, x: Admitted, p: Path)
    requires HasInput(bs, p)
    ensures HasInput(bs + [x], p)
  {
    var i :| 0 <= i < |bs| && bs[i].synthetic && bs[i].logical == p;
    assert (bs + [x])[i] == bs[i];
  }

  lemma ExtendPlain(fs: Snapshot, bs: seq<Admitted>, ns: seq<Namespace>, x: Admitted)
    requires NamespacesOk(fs, bs, ns) && TargetsOk(fs, bs, ns)
    requires !x.synthetic && x.logical in fs.dirs && fs.dirs[x.logical] == x.target
    ensures NamespacesOk(fs, bs + [x], ns) && TargetsOk(fs, bs + [x], ns)
  {
    forall k, c | 0 <= k < |ns| && c in ns[k].children ensures HasInput(bs + [x], ns[k].path + [c]) {
      HasInputInLonger(bs, x, ns[k].path + [c]);
    }
  }

  /** A first input below this parent opens a namespace. */
  lemma ExtendNewNamespace(fs: Snapshot, bs: seq<Admitted>, ns: seq<Namespace>, x: Admitted)
    requires NamespacesOk(fs, bs, ns) && TargetsOk(fs, bs, ns)
    requires x.synthetic && |x.logical| >= 2 && Parent(x.logical) in fs.dirs && IsEmpty(fs, Parent(x.logical))
    requires forall k :: 0 <= k < |ns| ==> ns[k].path != Parent(x.logical)
    ensures var n := Namespace(Parent(x.logical), fs.dirs[Parent(x.logical)], [Last(x.logical)]);
            NamespacesOk(fs, bs + [x], ns + [n]) && TargetsOk(fs, bs + [x], ns + [n])
  {
    var n := Namespace(Parent(x.logical), fs.dirs[Parent(x.logical)], [Last(x.logical)]);
    var more, all := ns + [n], bs + [x];
    forall k, c | 0 <= k < |more| && c in more[k].children ensures HasInput(all, more[k].path + [c]) {
      if k < |ns| {
        HasInputInLonger(bs, x, ns[k].path + [c]);
      } else {
        assert all[|bs|] == x && x.logical == n.path + [c];
      }
    }
    forall i | 0 <= i < |all| && all[i].synthetic ensures exists k :: 0 <= k < |more| && Serves(more[k], all[i]) {
      if i < |bs| {
        var k :| 0 <= k < |ns| && Serves(ns[k], bs[i]);
        assert more[k] == ns[k];
      } else {
        assert Serves(more[|ns|], all[i]);
      }
    }
  }

  function WithChild(ns: seq<Namespace>, at: nat, c: string): seq<Namespace>
    requires at < |ns|
  {
    ns[at := ns[at].(children := ns[at].children + [c])]
  }

  lemma ChildIsNew(fs: Snapshot, bs: seq<Admitted>, ns: seq<Namespace>, p: Path, at: nat)
    requires NamespacesOk(fs, bs, ns) && p != [] && at < |ns| && ns[at].path == Parent(p)
    requires forall i :: 0 <= i < |bs| ==> !Overlap(bs[i].logical, p)
    ensures Last(p) !in ns[at].children
  {
    assert ns[at].path + [Last(p)] == p;
    assert !HasInput(bs, p);
  }

  /** A further input below the same parent adds a child, which cannot be there yet. */
  lemma ExtendOldNamespace(fs: Snapshot, bs: seq<Admitted>, ns: seq<Namespace>, x: Admitted, at: nat)
    requires NamespacesOk(fs, bs, ns)
    requires x.synthetic && |x.logical| >= 2 && at < |ns| && ns[at].path == Parent(x.logical)
    requires forall i :: 0 <= i < |bs| ==> !Overlap(bs[i].logical, x.logical)
    ensures NamespacesOk(fs, bs + [x], WithChild(ns, at, Last(x.logical)))
  {
    var more, all := WithChild(ns, at, Last(x.logical)), bs + [x];
    ChildIsNew(fs, bs, ns, x.logical, at);
    forall k, c | 0 <= k < |more| && c in more[k].children ensures HasInput(all, more[k].path + [c]) {
      if c in ns[k].children {
        HasInputInLonger(bs, x, ns[k].path + [c]);
      } else {
        assert all[|bs|] == x && x.logical == ns[at].path + [c];
      }
    }
  }

  lemma ExtendOldTargets(fs: Snapshot, bs: seq<Admitted>, ns: seq<Namespace>, x: Admitted, at: nat)
    requires TargetsOk(fs, bs, ns)
    requires x.synthetic && |x.logical| >= 2 && at < |ns| && ns[at].path == Parent(x.logical)
    ensures TargetsOk(fs, bs + [x], WithChild(ns, at, Last(x.logical)))
  {
    var more, all := WithChild(ns, at, Last(x.logical)), bs + [x];
    forall i | 0 <= i < |all| && all[i].synthetic ensures exists k :: 0 <= k < |more| && Serves(more[k], all[i]) {
      if i < |bs| {
        var k :| 0 <= k < |ns| && Serves(ns[k], bs[i]);
        assert Serves(more[k], bs[i]);
      } else {
        assert Serves(more[at], all[i]);
      }
    }
  }

  /** The destination of one binding: an existing directory, or a child of an empty namespace. */
  method AdmitTarget(
    fs: Snapshot, ghost root: Path, req: seq<Binding>, g: Progress, b: Binding, source: Identity)
    returns (r: Result<(Admitted, seq<Namespace>)>)
    requires Passes(fs, root, req + [b], |req|, 9)
    requires NamespacesOk(fs, g.bindings, g.namespaces) && TargetsOk(fs, g.bindings, g.namespaces)
    requires b.logical != [] && forall i :: 0 <= i < |g.bindings| ==> !Overlap(g.bindings[i].logical, b.logical)
    ensures r.Refused? ==> Fails(fs, root, req + [b], |req|, r.reason)
    ensures r.Ok? ==>
              && DestinationOk(fs, b)
              && r.value.0 == Admitted(source, r.value.0.target, b.access, b.logical, b.host, IsInputRole(b.role))
              && NamespacesOk(fs, g.bindings + [r.value.0], r.value.1)
              && TargetsOk(fs, g.bindings + [r.value.0], r.value.1)
  {
    ghost var all := req + [b];
    assert all[|req|] == b;
    var ns := g.namespaces;
    if IsInputRole(b.role) {
      if |b.logical| < 2 {
        FailsNow(fs, root, all, |req|, NoParentNamespace);
        return Refused(NoParentNamespace);
      }
      PassedNext(fs, root, all, |req|, NoParentNamespace);
      var parent, child := Parent(b.logical), Last(b.logical);
      if parent !in fs.dirs {
        FailsNow(fs, root, all, |req|, NamespaceMissing);
        return Refused(NamespaceMissing);
      }
      PassedNext(fs, root, all, |req|, NamespaceMissing);
      if !IsEmpty(fs, parent) {
        FailsNow(fs, root, all, |req|, NamespaceNotEmpty);
        return Refused(NamespaceNotEmpty);
      }
      var x := Admitted(source, NOWHERE, b.access, b.logical, b.host, true);
      var at := FindNamespace(ns, parent);
      if at == |ns| {
        ExtendNewNamespace(fs, g.bindings, ns, x);
        ns := ns + [Namespace(parent, fs.dirs[parent], [child])];
      } else {
        if ns[at].target != fs.dirs[parent] {
          return Refused(NamespaceChanged);
        }
        ExtendOldNamespace(fs, g.bindings, ns, x, at);
        ExtendOldTargets(fs, g.bindings, ns, x, at);
        ns := ns[at := ns[at].(children := ns[at].children + [child])];
      }
      return Ok((x, ns));
    }
    PassedNext(fs, root, all, |req|, NoParentNamespace);
    PassedNext(fs, root, all, |req|, NamespaceMissing);
    PassedNext(fs, root, all, |req|, NamespaceNotEmpty);
    if b.logical !in fs.dirs {
      FailsNow(fs, root, all, |req|, DestinationMissing);
      return Refused(DestinationMissing);
    }
    var x := Admitted(source, fs.dirs[b.logical], b.access, b.logical, b.host, false);
    ExtendPlain(fs, g.bindings, ns, x);
    return Ok((x, ns));
  }

  method AdmitOne(fs: Snapshot, root: Path, req: seq<Binding>, g: Progress, b: Binding) returns (r: Result<Progress>)
    requires Collected(fs, root, req, g)
    ensures r.Ok? ==> Collected(fs, root, req + [b], r.value)
    ensures r.Refused? ==> Fails(fs, root, req + [b], |req|, r.reason)
  {
    CollectedIsListed(fs, root, req, g);
    var logical := CheckLogical(fs, root, req, g, b);
    if logical.Refused? {
      return Refused(logical.reason);
    }
    var source := CheckSource(fs, root, req, g, b);
    if source.Refused? {
      return Refused(source.reason);
    }
    var target := AdmitTarget(fs, root, req, g, b, source.value);
    if target.Refused? {
      return Refused(target.reason);
    }
    var x, ns := target.value.0, target.value.1;
    ExtendPaths(root, g.bindings, x);
    return Ok(Progress(
        g.bindings + [x], ns, g.logicals + [logical.value], g.hosts + [b.host], g.sources + [source.value]));
  }

  /** Sorting the children of a namespace and dropping repeats loses none of them. */
  lemma SortedNamespace(n: Namespace)
    requires Distinct(n.children)
    ensures var m := n.(children := SortUnique(n.children));
            && Distinct(m.children) && |m.children| == |n.children|
            && (forall c :: c in m.children <==> c in n.children)
  {
    SortUniqueAscending(n.children);
    AscendingIsDistinct(SortUnique(n.children));
    SortUniqueKeepsDistinct(n.children);
    forall c ensures c in SortUnique(n.children) <==> c in n.children {
      SortUniqueElements(n.children, c);
    }
  }

  function SortedAt(ns: seq<Namespace>, k: nat): seq<Namespace>
    requires k < |ns|
  {
    ns[k := ns[k].(children := SortUnique(ns[k].children))]
  }

  lemma SortOneKeepsNamespaces(fs: Snapshot, bs: seq<Admitted>, ns: seq<Namespace>, k: nat)
    requires NamespacesOk(fs, bs, ns) && k < |ns|
    ensures NamespacesOk(fs, bs, SortedAt(ns, k))
  {
    SortedNamespace(ns[k]);
    var more := SortedAt(ns, k);
    forall l, c | 0 <= l < |more| && c in more[l].children ensures HasInput(bs, more[l].path + [c]) {
      assert c in ns[l].children;
    }
  }

  lemma SortOneKeepsTargets(fs: Snapshot, bs: seq<Admitted>, ns: seq<Namespace>, k: nat)
    requires NamespacesOk(fs, bs, ns) && TargetsOk(fs, bs, ns) && k < |ns|
    ensures TargetsOk(fs, bs, SortedAt(ns, k))
  {
    SortedNamespace(ns[k]);
    var more := SortedAt(ns, k);
    forall i | 0 <= i < |bs| && bs[i].synthetic ensures exists l :: 0 <= l < |more| && Serves(more[l], bs[i]) {
      var l :| 0 <= l < |ns| && Serves(ns[l], bs[i]);
      assert Serves(more[l], bs[i]);
    }
  }

  lemma FailsInLonger(fs: Snapshot, root: Path, req: seq<Binding>, more: seq<Binding>, i: nat, reason: Refusal)
    requires req <= more && i < |req| && Fails(fs, root, req, i, reason)
    ensures Fails(fs, root, more, i, reason)
  {
    forall e ensures Faulty(fs, root, more, i, e) <==> Faulty(fs, root, req, i, e) {
      FaultInLonger(fs, root, req, more, i, e);
    }
  }

  lemma RefusedHere(fs: Snapshot, root: Path, req: seq<Binding>, i: nat, reason: Refusal)
    requires root != [] && root in fs.hosts && i < |req| && Clean(fs, root, req[..i])
    requires Fails(fs, root, req[..i + 1], i, reason)
    ensures RefusedFor(fs, root, req, reason) && Justified(fs, root, req, reason) && !Clean(fs, root, req)
  {
    FailsInLonger(fs, root, req[..i + 1], req, i, reason);
    RefusalIsJustified(fs, root, req, reason);
    JustifiedIsNotClean(fs, root, req, reason);
  }

  /** admit_isolated_resources over a stable snapshot: it accepts exactly the clean requests, names the
      first problem of the first binding that has one otherwise, and what it accepts is sound -- including
      the non-nesting facts no single check tests. */
  method AdmitIsolatedResources(fs: Snapshot, root: Path, req: seq<Binding>) returns (r: Result<Admission>)
    requires ValidSnapshot(fs)
    ensures r.Ok? <==> Clean(fs, root, req)
    ensures r.Refused? ==> Justified(fs, root, req, r.reason) && RefusedFor(fs, root, req, r.reason)
    ensures r.Ok? ==> forall k :: 0 <= k < |r.value.namespaces| ==> Ascending(r.value.namespaces[k].children)
    ensures r.Ok? ==> Admits(fs, root, req, r.value)
  {
    if root == [] {
      return Refused(RootIsHostRoot);
    }
    if root !in fs.hosts {
      return Refused(RootMissing);
    }
    var g := Progress([], [], [], [], []);
    var i := 0;
    while i < |req|
      invariant i <= |req|
      invariant Collected(fs, root, req[..i], g)
    {
      assert req[..i] + [req[i]] == req[..i + 1];
      var next := AdmitOne(fs, root, req[..i], g, req[i]);
      if next.Refused? {
        AdmittedIsClean(fs, root, req[..i], g.bindings);
        RefusedHere(fs, root, req, i, next.reason);
        return Refused(next.reason);
      }
      g := next.value;
      i := i + 1;
    }
    assert req[..i] == req;
    var ns := g.namespaces;
    var k := 0;
    while k < |ns|
      invariant k <= |ns|
      invariant Direct(fs, root, g.bindings, ns)
      invariant forall l :: 0 <= l < k ==> Ascending(ns[l].children)
    {
      SortUniqueAscending(ns[k].children);
      SortOneKeepsNamespaces(fs, g.bindings, ns, k);
      SortOneKeepsTargets(fs, g.bindings, ns, k);
      ns := ns[k := ns[k].(children := SortUnique(ns[k].children))];
      k := k + 1;
    }
    DirectIsSound(fs, root, g.bindings, ns);
    AdmittedIsClean(fs, root, req, g.bindings);
    return Ok(Admission(root, g.bindings, ns));
  }
}
