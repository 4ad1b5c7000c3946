/**
 Realization of an admission: the mount sequence of create_private_root, the view it leaves, and the
 view the admission declares.
 */
module MountRealization {
  import opened Paths
  import opened MountAdmission
  import opened MountTable

  // ----- what an admission declares ------------------------------------------------------------

  datatype Declaration = Declaration(path: Path, tree: Tree, writable: bool)

  function Count(a: Admission): (n: nat)
    ensures n >= 2
  {
    2 + |a.namespaces| + |a.bindings|
  }

  /** The root, the private /dev, the input namespaces and the bindings. */
  function Decl(a: Admission, j: nat): Declaration
    requires j < Count(a)
  {
    if j == 0 then Declaration([], RootTree, false)
    else if j == 1 then Declaration(DEV, DevTree, true)
    else if j < 2 + |a.namespaces| then
      var n := a.namespaces[j - 2];
      Declaration(n.path, NamespaceTree(n.path), false)
    else
      var b := a.bindings[j - 2 - |a.namespaces|];
      Declaration(b.logical, BindingTree(b.host), b.access == Writable)
  }

  predicate Covers(a: Admission, j: nat, p: Path)
    requires j < Count(a)
  {
    Decl(a, j).path <= p
  }

  /** Declaration `j` is the longest one at or above `p`. */
  ghost predicate Longest(a: Admission, j: nat, p: Path) {
    && j < Count(a)
    && Covers(a, j, p)
    && forall l: nat :: l < Count(a) && Covers(a, l, p) ==> |Decl(a, l).path| <= |Decl(a, j).path|
  }

  /** What a process sees at a path: a place in one of the trees, and whether it can be written. */
  datatype View = View(tree: Tree, at: Path, writable: bool)

  function Through(d: Declaration, p: Path): View
    requires d.path <= p
  {
    View(d.tree, p[|d.path|..], d.writable)
  }

  /** The declared view: longest prefix wins.  It does not mention any order. */
  ghost predicate IsView(a: Admission, p: Path, v: View) {
    exists j :: Longest(a, j, p) && v == Through(Decl(a, j), p)
  }

  /** Of two declarations the later one is never at or above the earlier one. */
  lemma SoundOrder(a: Admission, l: nat, j: nat)
    requires Sound(a) && l < j < Count(a)
    ensures !(Decl(a, j).path <= Decl(a, l).path)
  {
    var n := 2 + |a.namespaces|;
    if j >= n {
      assert BindingOk(a, j - n);
      if l >= n {
        assert BindingPair(a, l - n, j - n);
      } else if l >= 2 {
        assert MixedPair(a, j - n, l - 2);
      }
    } else if j >= 2 {
      assert NamespaceOk(a, j - 2);
      if l >= 2 { assert NamespacePair(a, j - 2, l - 2); }
    }
  }

  lemma LatestIsLongest(a: Admission, j: nat, p: Path)
    requires Sound(a) && j < Count(a) && Covers(a, j, p)
    requires forall l: nat :: j < l < Count(a) ==> !Covers(a, l, p)
    ensures Longest(a, j, p)
  {
    forall l: nat | l < Count(a) && Covers(a, l, p) ensures |Decl(a, l).path| <= |Decl(a, j).path| {
      if l < j {
        SoundOrder(a, l, j);
        PrefixesCompare(Decl(a, l).path, Decl(a, j).path, p);
      }
    }
  }

  lemma LongestUnique(a: Admission, j: nat, l: nat, p: Path)
    requires Sound(a) && Longest(a, j, p) && Longest(a, l, p)
    ensures j == l
  {
    PrefixesCompare(Decl(a, l).path, Decl(a, j).path, p);
    if j < l {
      SoundOrder(a, j, l);
    } else if l < j {
      SoundOrder(a, l, j);
    }
  }

  /** The declared view of a sound admission is a function of the path. */
  lemma DeclaredOnce(a: Admission, p: Path, v: View, w: View)
    requires Sound(a) && IsView(a, p, v) && IsView(a, p, w)
    ensures v == w
  {
    var j :| Longest(a, j, p) && v == Through(Decl(a, j), p);
    var l :| Longest(a, l, p) && w == Through(Decl(a, l), p);
    LongestUnique(a, j, l, p);
  }

  lemma OneBindingAbove(a: Admission, i: nat, j: nat, p: Path)
    requires Sound(a) && i < |a.bindings| && j < |a.bindings|
    requires a.bindings[i].logical <= p && a.bindings[j].logical <= p
    ensures i == j
  {
    PrefixesCompare(a.bindings[i].logical, a.bindings[j].logical, p);
    assert i < j ==> BindingPair(a, i, j);
    assert j < i ==> BindingPair(a, j, i);
  }

  /** No two bindings are above the same path, and a binding beats everything else there. */
  lemma BindingWins(a: Admission, i: nat, p: Path)
    requires Sound(a) && i < |a.bindings| && a.bindings[i].logical <= p
    ensures Longest(a, 2 + |a.namespaces| + i, p)
  {
    var n := 2 + |a.namespaces|;
    forall l: nat | n + i < l < Count(a) ensures !Covers(a, l, p) {
      if Covers(a, l, p) { OneBindingAbove(a, i, l - n, p); }
    }
    LatestIsLongest(a, n + i, p);
  }

  ghost predicate UnderBinding(a: Admission, p: Path) {
    exists i :: 0 <= i < |a.bindings| && a.bindings[i].logical <= p
  }

  lemma NamespaceWins(a: Admission, k: nat, p: Path)
    requires Sound(a) && k < |a.namespaces| && a.namespaces[k].path <= p && !UnderBinding(a, p)
    ensures Longest(a, 2 + k, p)
  {
    var n := 2 + |a.namespaces|;
    forall l: nat | 2 + k < l < Count(a) ensures !Covers(a, l, p) {
      if l < n {
        assert NamespacePair(a, k, l - 2);
        if Covers(a, l, p) { PrefixesCompare(a.namespaces[k].path, a.namespaces[l - 2].path, p); }
      }
    }
    LatestIsLongest(a, 2 + k, p);
  }

  lemma DevWins(a: Admission, p: Path)
    requires Sound(a) && DEV <= p
    ensures Longest(a, 1, p)
  {
    forall l: nat | 1 < l < Count(a) ensures !Covers(a, l, p) {
      if l < 2 + |a.namespaces| {
        assert NamespaceOk(a, l - 2);
      } else {
        assert BindingOk(a, l - 2 - |a.namespaces|);
      }
      if Covers(a, l, p) { PrefixesCompare(DEV, Decl(a, l).path, p); }
    }
    LatestIsLongest(a, 1, p);
  }

  /** Whatever declaration is longest gives the view. */
  lemma LongestGivesView(a: Admission, p: Path, v: View, l: nat)
    requires Sound(a) && IsView(a, p, v) && Longest(a, l, p)
    ensures v == Through(Decl(a, l), p)
  {
    var j :| Longest(a, j, p) && v == Through(Decl(a, j), p);
    LongestUnique(a, j, l, p);
  }

  /** Under a binding: its own tree, with its own access. */
  lemma ViewUnderBinding(a: Admission, p: Path, v: View, i: nat)
    requires Sound(a) && IsView(a, p, v) && i < |a.bindings| && a.bindings[i].logical <= p
    ensures var b := a.bindings[i]; v == View(BindingTree(b.host), p[|b.logical|..], b.access == Writable)
  {
    BindingWins(a, i, p);
    LongestGivesView(a, p, v, 2 + |a.namespaces| + i);
  }

  /** Under /dev: the private tmpfs, which is writable. */
  lemma ViewUnderDev(a: Admission, p: Path, v: View)
    requires Sound(a) && IsView(a, p, v) && DEV <= p
    ensures v == View(DevTree, p[1..], true)
  {
    DevWins(a, p);
    LongestGivesView(a, p, v, 1);
  }

  /** In a namespace but under none of its inputs: the sealed tmpfs. */
  lemma ViewInNamespace(a: Admission, p: Path, v: View, k: nat)
    requires Sound(a) && IsView(a, p, v) && !UnderBinding(a, p)
    requires k < |a.namespaces| && a.namespaces[k].path <= p
    ensures var n := a.namespaces[k]; v == View(NamespaceTree(n.path), p[|n.path|..], false)
  {
    NamespaceWins(a, k, p);
    LongestGivesView(a, p, v, 2 + k);
  }

  /** Everywhere else: the read-only root. */
  lemma ViewElsewhere(a: Admission, p: Path, v: View)
    requires IsView(a, p, v) && !UnderBinding(a, p) && !(DEV <= p)
    requires forall k :: 0 <= k < |a.namespaces| ==> !(a.namespaces[k].path <= p)
    ensures v == View(RootTree, p, false)
  {
    var j :| Longest(a, j, p) && v == Through(Decl(a, j), p);
    assert Covers(a, j, p);
  }

  /** Outside /dev exactly the paths under writable bindings can be written. */
  lemma WritableExactly(a: Admission, p: Path, v: View)
    requires Sound(a) && IsView(a, p, v) && !(DEV <= p)
    ensures v.writable <==>
            exists i :: 0 <= i < |a.bindings| && a.bindings[i].access == Writable && a.bindings[i].logical <= p
  {
    if UnderBinding(a, p) {
      forall i | 0 <= i < |a.bindings| && a.bindings[i].logical <= p
        ensures v.writable == (a.bindings[i].access == Writable)
      {
        ViewUnderBinding(a, p, v, i);
      }
    } else if k :| 0 <= k < |a.namespaces| && a.namespaces[k].path <= p {
      ViewInNamespace(a, p, v, k);
    } else {
      ViewElsewhere(a, p, v);
    }
  }

  // ----- the order of declarations does not matter ----------------------------------------------

  /** The same binding, as far as the view is concerned. */
  predicate SameBinding(x: Admitted, y: Admitted) {
    x.logical == y.logical && x.host == y.host && x.access == y.access
  }

  ghost predicate HasBinding(b: Admission, x: Admitted) {
    exists j :: 0 <= j < |b.bindings| && SameBinding(x, b.bindings[j])
  }

  ghost predicate HasNamespace(b: Admission, path: Path) {
    exists l :: 0 <= l < |b.namespaces| && b.namespaces[l].path == path
  }

  /** Every binding and namespace of `a` is one of `b`. */
  ghost predicate Within(a: Admission, b: Admission) {
    && (forall i :: 0 <= i < |a.bindings| ==> HasBinding(b, a.bindings[i]))
    && (forall k :: 0 <= k < |a.namespaces| ==> HasNamespace(b, a.namespaces[k].path))
  }

  lemma Elsewhere(a: Admission, b: Admission, j: nat) returns (l: nat)
    requires Within(a, b) && j < Count(a)
    ensures l < Count(b) && Decl(b, l) == Decl(a, j)
  {
    var n := 2 + |a.namespaces|;
    if j < 2 {
      l := j;
    } else if j < n {
      assert HasNamespace(b, a.namespaces[j - 2].path);
      var k :| 0 <= k < |b.namespaces| && b.namespaces[k].path == a.namespaces[j - 2].path;
      l := 2 + k;
    } else {
      assert HasBinding(b, a.bindings[j - n]);
      var i :| 0 <= i < |b.bindings| && SameBinding(a.bindings[j - n], b.bindings[i]);
      l := 2 + |b.namespaces| + i;
    }
  }

  lemma DeclaredAlike(a: Admission, b: Admission, p: Path, v: View)
    requires Within(a, b) && Within(b, a) && IsView(a, p, v)
    ensures IsView(b, p, v)
  {
    var j :| Longest(a, j, p) && v == Through(Decl(a, j), p);
    var l := Elsewhere(a, b, j);
    forall m: nat | m < Count(b) && Covers(b, m, p) ensures |Decl(b, m).path| <= |Decl(b, l).path| {
      var o := Elsewhere(b, a, m);
      assert Covers(a, o, p);
    }
    assert Longest(b, l, p);
  }

  // ----- no host directory is visible twice -----------------------------------------------------

  datatype HostPlace = Host(path: Path) | PrivateTmpfs

  function HostOf(root: Path, v: View): HostPlace {
    match v.tree
    case RootTree => Host(root + v.at)
    case BindingTree(host) => Host(host + v.at)
    case DevTree => PrivateTmpfs
    case NamespaceTree(_) => PrivateTmpfs
  }

  function Base(a: Admission, j: nat): Path
    requires OnHost(a, j)
  {
    if Decl(a, j).tree.RootTree? then a.root else Decl(a, j).tree.host
  }

  lemma BasesIncomparable(a: Admission, j: nat, l: nat)
    requires Sound(a) && j < l && OnHost(a, j) && OnHost(a, l)
    ensures !Overlap(Base(a, j), Base(a, l))
  {
    var n := 2 + |a.namespaces|;
    assert l >= n && Base(a, l) == a.bindings[l - n].host;
    if j == 0 {
      assert BindingOk(a, l - n);
    } else {
      assert BindingPair(a, j - n, l - n);
    }
  }

  predicate OnHost(a: Admission, j: nat) {
    j < Count(a) && (Decl(a, j).tree.RootTree? || Decl(a, j).tree.BindingTree?)
  }

  lemma SameHostSameTree(a: Admission, j: nat, l: nat, x: Path, y: Path)
    requires Sound(a) && OnHost(a, j) && OnHost(a, l) && Base(a, j) + x == Base(a, l) + y
    ensures j == l && x == y
  {
    ExtensionsDiffer(Base(a, j), Base(a, l), x, y);
    if j < l {
      BasesIncomparable(a, j, l);
    } else if l < j {
      BasesIncomparable(a, l, j);
    }
    assert x == (Base(a, j) + x)[|Base(a, j)|..];
    assert y == (Base(a, l) + y)[|Base(a, l)|..];
  }

  lemma ViewOnHost(a: Admission, p: Path, v: View) returns (j: nat)
    requires IsView(a, p, v) && HostOf(a.root, v).Host?
    ensures OnHost(a, j) && HostOf(a.root, v).path == Base(a, j) + v.at && p == Decl(a, j).path + v.at
  {
    j :| Longest(a, j, p) && v == Through(Decl(a, j), p);
    assert Covers(a, j, p);
  }

  /** A host path under the root or a resource is visible at one logical path at most. */
  lemma HostSeenOnce(a: Admission, p: Path, v: View, q: Path, w: View)
    requires Sound(a) && IsView(a, p, v) && IsView(a, q, w)
    requires HostOf(a.root, v).Host? && HostOf(a.root, v) == HostOf(a.root, w)
    ensures p == q
  {
    var j := ViewOnHost(a, p, v);
    var l := ViewOnHost(a, q, w);
    SameHostSameTree(a, j, l, v.at, w.at);
  }

  // ----- the table after some of the mounts ------------------------------------------------------

  /** Where mounts 1 to n - 1 are attached. */
  function Points(a: Admission, n: nat): (s: seq<Path>)
    requires 1 <= n <= Count(a)
    ensures |s| == n - 1 && forall j :: 0 <= j < n - 1 ==> s[j] == Decl(a, j + 1).path
  {
    seq(n - 1, j requires 0 <= j < n - 1 => Decl(a, j + 1).path)
  }

  /** Mount `j` while the first `sealed` namespaces have been made read-only. */
  function MountOf(a: Admission, j: nat, sealed: nat): Mount
    requires j < Count(a)
  {
    Mount(Decl(a, j).tree, Decl(a, j).writable || 2 + sealed <= j < 2 + |a.namespaces|)
  }

  ghost predicate Building(t: Table, a: Admission, n: nat, sealed: nat) {
    && 1 <= n <= Count(a)
    && |t.mounts| == n
    && Follows(t, Points(a, n))
    && forall j :: 0 <= j < n ==> t.mounts[j] == MountOf(a, j, sealed)
  }

  /** Every declaration is mounted, with its access. */
  ghost predicate Complete(t: Table, a: Admission) {
    Building(t, a, Count(a), |a.namespaces|)
  }

  lemma AttachNext(t: Table, a: Admission, n: nat)
    requires Sound(a) && Building(t, a, n, 0) && n < Count(a)
    ensures Building(Attach(t, Decl(a, n).path, MountOf(a, n, 0)), a, n + 1, 0)
  {
    SoundOrder(a, 0, n);
    AttachFollows(t, Points(a, n), Decl(a, n).path, MountOf(a, n, 0));
    assert Points(a, n + 1) == Points(a, n) + [Decl(a, n).path];
  }

  lemma LatestPoint(a: Admission, n: nat, p: Path) returns (j: nat)
    requires 1 <= n <= Count(a)
    ensures j < n && Covers(a, j, p) && Loc(Points(a, n), p) == Place(j, p[|Decl(a, j).path|..])
    ensures forall l: nat :: j < l < n ==> !Covers(a, l, p)
  {
    var s := Points(a, n);
    LocLatest(s, p);
    j := Loc(s, p).mount;
    forall l: nat | j < l < n ensures !Covers(a, l, p) {
      assert !(s[l - 1] <= p);
    }
  }

  lemma Leads(t: Table, a: Admission, n: nat, sealed: nat, p: Path) returns (j: nat)
    requires Building(t, a, n, sealed)
    ensures j < n && Covers(a, j, p) && Resolve(t, p) == Place(j, p[|Decl(a, j).path|..])
    ensures forall l: nat :: j < l < n ==> !Covers(a, l, p)
  {
    j := LatestPoint(a, n, p);
    assert Resolve(t, p) == Loc(Points(a, n), p);
  }

  /** A mounted declaration is what its own path leads to. */
  lemma OwnPlace(t: Table, a: Admission, n: nat, sealed: nat, j: nat)
    requires Sound(a) && Building(t, a, n, sealed) && j < n
    ensures Resolve(t, Decl(a, j).path) == Place(j, [])
  {
    var l := Leads(t, a, n, sealed, Decl(a, j).path);
    if j < l { SoundOrder(a, j, l); }
    assert Covers(a, j, Decl(a, j).path);
  }

  /** Before its own mount, a namespace leads into the root tree. */
  lemma NamespaceInRoot(t: Table, a: Admission, k: nat)
    requires Sound(a) && k < |a.namespaces| && Building(t, a, 2 + k, 0)
    ensures Resolve(t, a.namespaces[k].path) == Place(0, a.namespaces[k].path)
  {
    var j := Leads(t, a, 2 + k, 0, a.namespaces[k].path);
    NothingAboveNamespace(a, k, j);
  }

  lemma NothingAboveNamespace(a: Admission, k: nat, j: nat)
    requires Sound(a) && k < |a.namespaces| && j < 2 + k && Covers(a, j, a.namespaces[k].path)
    ensures j == 0
  {
    assert NamespaceOk(a, k);
    NamespacesApart(a, k);
  }

  lemma NamespacesApart(a: Admission, k: nat)
    requires Sound(a) && k < |a.namespaces|
    ensures forall l :: 0 <= l < |a.namespaces| && l != k ==> !(a.namespaces[l].path <= a.namespaces[k].path)
  {
    forall l | 0 <= l < |a.namespaces| && l != k ensures !(a.namespaces[l].path <= a.namespaces[k].path) {
      assert NamespacePair(a, l, k);
    }
  }

  /** So does a binding onto an existing directory. */
  lemma BindingInRoot(t: Table, a: Admission, i: nat)
    requires Sound(a) && i < |a.bindings| && !a.bindings[i].synthetic
    requires Building(t, a, 2 + |a.namespaces| + i, 0)
    ensures Resolve(t, a.bindings[i].logical) == Place(0, a.bindings[i].logical)
  {
    var j := Leads(t, a, 2 + |a.namespaces| + i, 0, a.bindings[i].logical);
    OnlyNamespacesAboveBinding(a, i, j);
  }

  /** Above a binding there is the root and, for an input, the namespace that is its parent. */
  lemma OnlyNamespacesAboveBinding(a: Admission, i: nat, j: nat)
    requires Sound(a) && i < |a.bindings| && j < 2 + |a.namespaces| + i && Covers(a, j, a.bindings[i].logical)
    ensures a.bindings[i].logical != []
    ensures || j == 0
            || (&& a.bindings[i].synthetic && 2 <= j < 2 + |a.namespaces|
                && a.namespaces[j - 2].path == Parent(a.bindings[i].logical))
  {
    assert BindingOk(a, i);
    BindingsApart(a, i);
    NamespacesAbove(a, i);
  }

  lemma BindingsApart(a: Admission, i: nat)
    requires Sound(a) && i < |a.bindings|
    ensures forall l :: 0 <= l < i ==> !(a.bindings[l].logical <= a.bindings[i].logical)
  {
    forall l | 0 <= l < i ensures !(a.bindings[l].logical <= a.bindings[i].logical) {
      assert BindingPair(a, l, i);
    }
  }

  lemma NamespacesAbove(a: Admission, i: nat)
    requires Sound(a) && i < |a.bindings|
    ensures a.bindings[i].logical != []
    ensures forall k :: 0 <= k < |a.namespaces| && a.namespaces[k].path <= a.bindings[i].logical ==>
              a.bindings[i].synthetic && a.namespaces[k].path == Parent(a.bindings[i].logical)
  {
    assert BindingOk(a, i);
    forall k | 0 <= k < |a.namespaces| && a.namespaces[k].path <= a.bindings[i].logical
      ensures a.bindings[i].synthetic && a.namespaces[k].path == Parent(a.bindings[i].logical)
    {
      assert MixedPair(a, i, k);
    }
  }

  /** An input binding leads to the directory made for it in its namespace. */
  lemma InputInNamespace(t: Table, a: Admission, i: nat) returns (k: nat)
    requires Sound(a) && i < |a.bindings| && a.bindings[i].synthetic
    requires Building(t, a, 2 + |a.namespaces| + i, 0)
    ensures k < |a.namespaces| && Serves(a.namespaces[k], a.bindings[i])
    ensures Resolve(t, a.bindings[i].logical) == Place(2 + k, [Last(a.bindings[i].logical)])
  {
    var p := a.bindings[i].logical;
    k := NamespaceOf(a, i);
    var j := Leads(t, a, 2 + |a.namespaces| + i, 0, p);
    OnlyNamespacesAboveBinding(a, i, j);
    assert Covers(a, 2 + k, p);
    SamePathSameNamespace(a, k, j - 2);
    assert p[|Parent(p)|..] == [Last(p)];
  }

  lemma SamePathSameNamespace(a: Admission, k: nat, l: nat)
    requires Sound(a) && k < |a.namespaces| && l < |a.namespaces| && a.namespaces[k].path == a.namespaces[l].path
    ensures k == l
  {
    NamespacesApart(a, k);
  }

  lemma NamespaceOf(a: Admission, i: nat) returns (k: nat)
    requires Sound(a) && i < |a.bindings| && a.bindings[i].synthetic
    ensures k < |a.namespaces| && Serves(a.namespaces[k], a.bindings[i])
  {
    assert BindingOk(a, i);
    k :| 0 <= k < |a.namespaces| && Serves(a.namespaces[k], a.bindings[i]);
  }

  function Seen(t: Table, p: Path): View {
    var pl := Resolve(t, p);
    if pl.mount < |t.mounts| then View(t.mounts[pl.mount].tree, pl.at, t.mounts[pl.mount].writable)
    else View(RootTree, p, false)
  }

  /** The finished mount table shows, at every path, exactly the declared view. */
  lemma ViewIsDeclared(t: Table, a: Admission, p: Path)
    requires Sound(a) && Complete(t, a)
    ensures IsView(a, p, Seen(t, p))
  {
    var j := Leads(t, a, Count(a), |a.namespaces|, p);
    LatestIsLongest(a, j, p);
    assert Seen(t, p) == Through(Decl(a, j), p);
  }

  /** The order in which bindings and namespaces are mounted does not matter: two finished mount tables with
      the same ones show the same at every path. */
  lemma OrderDoesNotMatter(t: Table, a: Admission, u: Table, b: Admission, p: Path)
    requires Sound(a) && Complete(t, a) && Sound(b) && Complete(u, b)
    requires Within(a, b) && Within(b, a)
    ensures Seen(t, p) == Seen(u, p)
  {
    ViewIsDeclared(t, a, p);
    ViewIsDeclared(u, b, p);
    DeclaredAlike(a, b, p, Seen(t, p));
    DeclaredOnce(b, p, Seen(t, p), Seen(u, p));
  }

  // ----- reordered requests -----------------------------------------------------------------------

  lemma NamespaceOfRequest(fs: Snapshot, root: Path, req: seq<Binding>, a: Admission, k: nat) returns (i: nat)
    requires Admits(fs, root, req, a) && k < |a.namespaces|
    ensures i < |req| && IsInputRole(req[i].role)
    ensures req[i].logical != [] && Parent(req[i].logical) == a.namespaces[k].path
  {
    i := NamespaceHasBinding(fs, a.bindings, a.namespaces, k);
    assert Matches(fs, req[i], a.bindings[i]);
  }

  lemma RequestedNamespace(fs: Snapshot, root: Path, req: seq<Binding>, a: Admission, i: nat) returns (k: nat)
    requires Admits(fs, root, req, a) && i < |req| && IsInputRole(req[i].role)
    ensures req[i].logical != [] && k < |a.namespaces| && a.namespaces[k].path == Parent(req[i].logical)
  {
    assert Matches(fs, req[i], a.bindings[i]);
    k := NamespaceOf(a, i);
  }

  /** Admissions of requests for the same bindings hold the same bindings and namespaces. */
  lemma AdmittedWithin(fs: Snapshot, root: Path, req: seq<Binding>, a: Admission, other: seq<Binding>, b: Admission)
    requires Admits(fs, root, req, a) && Admits(fs, root, other, b) && forall x :: x in req ==> x in other
    ensures Within(a, b)
  {
    forall i | 0 <= i < |a.bindings| ensures HasBinding(b, a.bindings[i]) {
      assert Matches(fs, req[i], a.bindings[i]);
      assert req[i] in other;
      var j :| 0 <= j < |other| && other[j] == req[i];
      assert Matches(fs, other[j], b.bindings[j]);
    }
    forall k | 0 <= k < |a.namespaces| ensures HasNamespace(b, a.namespaces[k].path) {
      var i := NamespaceOfRequest(fs, root, req, a, k);
      assert req[i] in other;
      var j :| 0 <= j < |other| && other[j] == req[i];
      var l := RequestedNamespace(fs, root, other, b, j);
    }
  }

  /** Two occurrences in a multiset are two places in the sequence. */
  lemma {:induction false} TwoPlaces<T>(s: seq<T>, x: T, y: T) returns (i: nat, j: nat)
    requires x in s && y in s && (x == y ==> multiset(s)[x] >= 2)
    ensures i < |s| && j < |s| && i != j && s[i] == x && s[j] == y
    decreases |s|
  {
    i :| 0 <= i < |s| && s[i] == x;
    if x != y {
      j :| 0 <= j < |s| && s[j] == y;
    } else {
      var rest := s[..i] + s[i + 1..];
      assert s == s[..i] + [s[i]] + s[i + 1..];
      assert multiset(s) == multiset(rest) + multiset{x};
      assert x in rest;
      var k :| 0 <= k < |rest| && rest[k] == x;
      j := if k < i then k else k + 1;
    }
  }

  lemma ReorderedClean(fs: Snapshot, root: Path, req: seq<Binding>, other: seq<Binding>)
    requires multiset(req) == multiset(other) && Clean(fs, root, req)
    ensures Clean(fs, root, other)
  {
    forall i | 0 <= i < |other| ensures other[i] in req {
      assert other[i] in multiset(other);
    }
    forall i, j | 0 <= i < j < |other|
      ensures !Overlap(other[i].logical, other[j].logical)
      ensures !Overlap(other[i].host, other[j].host) && !SameSource(fs, other[i], other[j])
    {
      PairInMultiset(other, i, j);
      assert other[i] in multiset(req) && other[j] in multiset(req);
      var k, l := TwoPlaces(req, other[i], other[j]);
      CleanPair(fs, root, req, k, l);
    }
  }

  lemma PairInMultiset<T>(s: seq<T>, i: nat, j: nat)
    requires i < j < |s|
    ensures s[i] == s[j] ==> multiset(s)[s[i]] >= 2
  {
    var head, tail := s[..j], s[j..];
    assert s == head + tail && head[i] == s[i] && tail[0] == s[j];
    assert s[i] in multiset(head) && s[j] in multiset(tail);
  }

  lemma CleanPair(fs: Snapshot, root: Path, req: seq<Binding>, k: nat, l: nat)
    requires Clean(fs, root, req) && k < |req| && l < |req| && k != l
    ensures !Overlap(req[k].logical, req[l].logical)
    ensures !Overlap(req[k].host, req[l].host) && !SameSource(fs, req[k], req[l])
  {
    if l < k { assert !Overlap(req[l].logical, req[k].logical) && !SameSource(fs, req[l], req[k]); }
  }

  /** A request is accepted or refused whatever the order of its bindings, and once realized shows the same at
      every path. */
  lemma ReorderedRequest(
    fs: Snapshot, root: Path, req: seq<Binding>, a: Admission, t: Table,
    other: seq<Binding>, b: Admission, u: Table, p: Path)
    requires multiset(req) == multiset(other)
    ensures Clean(fs, root, req) <==> Clean(fs, root, other)
    ensures Admits(fs, root, req, a) && Complete(t, a) && Admits(fs, root, other, b) && Complete(u, b) ==>
              Seen(t, p) == Seen(u, p)
  {
    if Clean(fs, root, req) { ReorderedClean(fs, root, req, other); }
    if Clean(fs, root, other) { ReorderedClean(fs, root, other, req); }
    if Admits(fs, root, req, a) && Complete(t, a) && Admits(fs, root, other, b) && Complete(u, b) {
      forall x ensures x in req <==> x in other {
        assert x in multiset(req) <==> x in multiset(other);
      }
      AdmittedWithin(fs, root, req, a, other, b);
      AdmittedWithin(fs, root, other, b, req, a);
      OrderDoesNotMatter(t, a, u, b, p);
    }
  }

  // ----- system calls ----------------------------------------------------------------------------

  datatype Stage =
    | MountNamespaceStage
    | PropagationStage
    | ScratchStage
    | RootStage
    | ResourceStage
    | InputStage
    | DeviceStage
    | EntryStage

  /** The calls of the sequence that the kernel may refuse. */
  datatype Call =
    | CloneRoot
    | CloneBinding(i: nat)
    | Unshare
    | MakePrivate
    | MountScratch
    | AttachRoot
    | MountDev
    | MakeNull
    | MountTmpfs(k: nat)
    | MakeChild(k: nat, j: nat)
    | AttachBinding(i: nat)
    | SealNamespace(k: nat)
    | EnterRoot

  type Kernel = Call -> bool

  predicate Makes(a: Admission, c: Call) {
    match c
    case CloneBinding(i) => i < |a.bindings|
    case AttachBinding(i) => i < |a.bindings|
    case MountTmpfs(k) => k < |a.namespaces|
    case SealNamespace(k) => k < |a.namespaces|
    case MakeChild(k, j) => k < |a.namespaces| && j < |a.namespaces[k].children|
    case _ => true
  }

  function StageOf(c: Call): Stage {
    match c
    case CloneRoot => RootStage
    case AttachRoot => RootStage
    case CloneBinding(_) => ResourceStage
    case AttachBinding(_) => ResourceStage
    case Unshare => MountNamespaceStage
    case MakePrivate => PropagationStage
    case MountScratch => ScratchStage
    case MountDev => DeviceStage
    case MakeNull => DeviceStage
    case MountTmpfs(_) => InputStage
    case MakeChild(_, _) => InputStage
    case SealNamespace(_) => InputStage
    case EnterRoot => EntryStage
  }

  predicate NamespacePresent(fs: Snapshot, n: Namespace) {
    n.path in fs.dirs && fs.dirs[n.path] == n.target
  }

  predicate BindingPresent(fs: Snapshot, b: Admitted) {
    && (b.synthetic || (b.logical in fs.dirs && fs.dirs[b.logical] == b.target))
    && b.host in fs.hosts && fs.hosts[b.host] == b.source
  }

  /** The directories that were admitted are still the ones found. */
  ghost predicate Present(fs: Snapshot, a: Admission) {
    && DEV in fs.dirs
    && (forall k :: 0 <= k < |a.namespaces| ==> NamespacePresent(fs, a.namespaces[k]))
    && (forall i :: 0 <= i < |a.bindings| ==> BindingPresent(fs, a.bindings[i]))
  }

  ghost predicate AllGranted(a: Admission, kernel: Kernel) {
    forall c :: Makes(a, c) ==> kernel(c)
  }

  /** Something of this stage really went wrong. */
  ghost predicate Blames(fs: Snapshot, a: Admission, kernel: Kernel, stage: Stage) {
    || (exists c :: Makes(a, c) && !kernel(c) && StageOf(c) == stage)
    || (stage == DeviceStage && DEV !in fs.dirs)
    || (stage == InputStage && exists k :: 0 <= k < |a.namespaces| && !NamespacePresent(fs, a.namespaces[k]))
    || (stage == ResourceStage && exists i :: 0 <= i < |a.bindings| && !BindingPresent(fs, a.bindings[i]))
  }

  /** Which stage a failure of each step of the sequence blames, in the order of the steps. */
  const BLAMED: seq<Stage> := [
    RootStage, ResourceStage, MountNamespaceStage, PropagationStage, ScratchStage, RootStage, DeviceStage, InputStage,
    ResourceStage, InputStage, EntryStage]

  /** Step `n` of the sequence meets no obstacle. */
  ghost predicate StepWorks(fs: Snapshot, a: Admission, kernel: Kernel, n: nat) {
    match n
    case 0 => kernel(CloneRoot)
    case 1 => forall i :: 0 <= i < |a.bindings| ==> kernel(CloneBinding(i))
    case 2 => kernel(Unshare)
    case 3 => kernel(MakePrivate)
    case 4 => kernel(MountScratch)
    case 5 => kernel(AttachRoot)
    case 6 => DEV in fs.dirs && kernel(MountDev) && kernel(MakeNull)
    case 7 => forall k :: 0 <= k < |a.namespaces| ==> NamespaceMounted(fs, a, k, kernel)
    case 8 => forall i :: 0 <= i < |a.bindings| ==> BindingMounted(fs, a, i, kernel)
    case 9 => forall k :: 0 <= k < |a.namespaces| ==> kernel(SealNamespace(k))
    case 10 => kernel(EnterRoot)
    case _ => true
  }

  ghost predicate FailsFirst(fs: Snapshot, a: Admission, kernel: Kernel, n: nat) {
    n < |BLAMED| && !StepWorks(fs, a, kernel, n) && forall m: nat :: m < n ==> StepWorks(fs, a, kernel, m)
  }

  /** The stage is that of the first step that meets an obstacle. */
  ghost predicate BlamesFirst(fs: Snapshot, a: Admission, kernel: Kernel, stage: Stage) {
    exists n: nat :: FailsFirst(fs, a, kernel, n) && stage == BLAMED[n]
  }

  /** There is at most one such stage, and one exactly if not everything works. */
  lemma BlameIsExact(fs: Snapshot, a: Admission, kernel: Kernel, stage: Stage, other: Stage)
    ensures BlamesFirst(fs, a, kernel, stage) && BlamesFirst(fs, a, kernel, other) ==> stage == other
    ensures BlamesFirst(fs, a, kernel, stage) ==> !(Present(fs, a) && AllGranted(a, kernel))
  {
    if BlamesFirst(fs, a, kernel, stage) && BlamesFirst(fs, a, kernel, other) {
      var n: nat :| FailsFirst(fs, a, kernel, n) && stage == BLAMED[n];
      var m: nat :| FailsFirst(fs, a, kernel, m) && other == BLAMED[m];
      assert n == m;
    }
    if BlamesFirst(fs, a, kernel, stage) && Present(fs, a) && AllGranted(a, kernel) {
      var n: nat :| FailsFirst(fs, a, kernel, n) && stage == BLAMED[n];
      EverythingWorks(fs, a, kernel, n);
      assert false;
    }
  }

  lemma EverythingWorks(fs: Snapshot, a: Admission, kernel: Kernel, n: nat)
    requires Present(fs, a) && AllGranted(a, kernel)
    ensures StepWorks(fs, a, kernel, n)
  {
    assert forall c :: Makes(a, c) ==> kernel(c);
    assert Makes(a, CloneRoot) && Makes(a, Unshare) && Makes(a, MakePrivate) && Makes(a, MountScratch);
    assert Makes(a, AttachRoot) && Makes(a, MountDev) && Makes(a, MakeNull) && Makes(a, EnterRoot);
    forall i | 0 <= i < |a.bindings|
      ensures kernel(CloneBinding(i)) && BindingMounted(fs, a, i, kernel)
    {
      assert Makes(a, CloneBinding(i)) && Makes(a, AttachBinding(i));
    }
    forall k | 0 <= k < |a.namespaces|
      ensures kernel(SealNamespace(k)) && NamespaceMounted(fs, a, k, kernel)
    {
      assert Makes(a, SealNamespace(k)) && Makes(a, MountTmpfs(k));
      forall j | 0 <= j < |a.namespaces[k].children| ensures kernel(MakeChild(k, j)) {
        assert Makes(a, MakeChild(k, j));
      }
    }
  }

  /** An admission that was accepted over this snapshot finds its directories again. */
  lemma AdmittedIsPresent(fs: Snapshot, req: seq<Binding>, a: Admission)
    requires Direct(fs, a.root, a.bindings, a.namespaces) && |a.bindings| == |req| && DEV in fs.dirs
    requires forall i :: 0 <= i < |req| ==> Matches(fs, req[i], a.bindings[i])
    ensures Present(fs, a)
  {
    forall i | 0 <= i < |a.bindings| ensures BindingPresent(fs, a.bindings[i]) {
      assert Matches(fs, req[i], a.bindings[i]);
    }
  }

  datatype Realization = Realized(table: Table) | Failed(stage: Stage)

  /** A place that opens as a directory. */
  predicate Opens(t: Table, fs: Snapshot, pl: Place) {
    && pl.mount < |t.mounts|
    && match t.mounts[pl.mount].tree
       case RootTree => pl.at in fs.dirs
       case BindingTree(host) => host + pl.at in fs.hosts
       case _ => pl.at == [] || pl in t.made
  }

  /** ... and is the directory recorded at admission; a private tmpfs never is. */
  predicate SameInode(t: Table, fs: Snapshot, pl: Place, id: Identity) {
    && pl.mount < |t.mounts|
    && match t.mounts[pl.mount].tree
       case RootTree => pl.at in fs.dirs && fs.dirs[pl.at] == id
       case BindingTree(host) => host + pl.at in fs.hosts && fs.hosts[host + pl.at] == id
       case _ => false
  }

  /** Every child of the first `k` namespaces has its directory, and nothing else was made. */
  ghost predicate ChildrenMade(t: Table, a: Admission, k: nat) {
    && k <= |a.namespaces|
    && (forall pl :: pl in t.made ==> pl.mount < 2 + k)
    && (forall l, j :: 0 <= l < k && 0 <= j < |a.namespaces[l].children| ==>
          Place(2 + l, [a.namespaces[l].children[j]]) in t.made)
  }

  /** One detached tree per binding, with the binding's access. */
  predicate Cloned(a: Admission, trees: seq<Mount>) {
    |trees| == |a.bindings| && forall i :: 0 <= i < |trees| ==> trees[i] == MountOf(a, 2 + |a.namespaces| + i, 0)
  }

  /** Clones every resource tree and gives it its access. */
  method CloneTrees(a: Admission, kernel: Kernel) returns (ok: bool, trees: seq<Mount>)
    ensures ok <==> forall i :: 0 <= i < |a.bindings| ==> kernel(CloneBinding(i))
    ensures ok ==> Cloned(a, trees)
  {
    trees := [];
    var i := 0;
    while i < |a.bindings|
      invariant i <= |a.bindings| && |trees| == i
      invariant forall l :: 0 <= l < i ==>
                  kernel(CloneBinding(l)) && trees[l] == MountOf(a, 2 + |a.namespaces| + l, 0)
    {
      if !kernel(CloneBinding(i)) {
        return false, trees;
      }
      trees := trees + [Mount(BindingTree(a.bindings[i].host), a.bindings[i].access == Writable)];
      i := i + 1;
    }
    return true, trees;
  }

  lemma AttachKeepsChildren(t: Table, a: Admission, k: nat, p: Path, m: Mount)
    requires ChildrenMade(t, a, k)
    ensures ChildrenMade(Attach(t, p, m), a, k)
  {}

  /** Makes one directory per child of namespace `k`; because the children are distinct, mkdir is refused
      only by the kernel, never for a name that is already there. */
  method MakeChildren(t: Table, a: Admission, k: nat, kernel: Kernel) returns (ok: bool, u: Table)
    requires Sound(a) && k < |a.namespaces| && Building(t, a, 3 + k, 0) && ChildrenMade(t, a, k)
    ensures ok <==> forall j :: 0 <= j < |a.namespaces[k].children| ==> kernel(MakeChild(k, j))
    ensures ok ==> Building(u, a, 3 + k, 0) && ChildrenMade(u, a, k + 1)
  {
    u := t;
    var children := a.namespaces[k].children;
    assert NamespaceOk(a, k);
    var j := 0;
    while j < |children|
      invariant j <= |children|
      invariant u.mounts == t.mounts && u.on == t.on && t.made <= u.made
      invariant forall pl :: pl in u.made ==>
                  pl in t.made || (exists l :: 0 <= l < j && pl == Place(2 + k, [children[l]]))
      invariant forall l :: 0 <= l < j ==> kernel(MakeChild(k, l)) && Place(2 + k, [children[l]]) in u.made
    {
      SameFollows(t, u, Points(a, 3 + k));
      OwnPlace(u, a, 3 + k, 0, 2 + k);
      var dir := Resolve(u, a.namespaces[k].path);
      var entry := Place(dir.mount, dir.at + [children[j]]);
      assert entry == Place(2 + k, [children[j]]);
      assert entry !in u.made;
      if !kernel(MakeChild(k, j)) || entry in u.made || !u.mounts[dir.mount].writable {
        return false, u;
      }
      u := u.(made := u.made + {entry});
      j := j + 1;
    }
    SameFollows(t, u, Points(a, 3 + k));
    return true, u;
  }

  predicate NamespaceFound(t: Table, fs: Snapshot, n: Namespace) {
    var pl := Resolve(t, n.path);
    Opens(t, fs, pl) && SameInode(t, fs, pl, n.target)
  }

  /** What opening the place of namespace `k` finds. */
  lemma NamespaceDestination(t: Table, a: Admission, fs: Snapshot, k: nat)
    requires Sound(a) && k < |a.namespaces| && Building(t, a, 2 + k, 0)
    ensures NamespaceFound(t, fs, a.namespaces[k]) <==> NamespacePresent(fs, a.namespaces[k])
  {
    NamespaceInRoot(t, a, k);
  }

  /** Mounts a private tmpfs over one namespace and makes its children. */
  method MountOneNamespace(t: Table, a: Admission, fs: Snapshot, k: nat, kernel: Kernel) returns (ok: bool, u: Table)
    requires Sound(a) && k < |a.namespaces| && Building(t, a, 2 + k, 0) && ChildrenMade(t, a, k)
    ensures ok <==> NamespaceMounted(fs, a, k, kernel)
    ensures ok ==> Building(u, a, 3 + k, 0) && ChildrenMade(u, a, k + 1)
  {
    var n := a.namespaces[k];
    NamespaceDestination(t, a, fs, k);
    u := t;
    if !NamespaceFound(t, fs, n) || !kernel(MountTmpfs(k)) {
      return false, u;
    }
    AttachNext(t, a, 2 + k);
    u := Attach(t, n.path, Mount(NamespaceTree(n.path), true));
    AttachKeepsChildren(t, a, k, n.path, Mount(NamespaceTree(n.path), true));
    ok, u := MakeChildren(u, a, k, kernel);
  }

  method MountNamespaces(t0: Table, a: Admission, fs: Snapshot, kernel: Kernel) returns (ok: bool, t: Table)
    requires Sound(a) && Building(t0, a, 2, 0) && t0.made == {}
    ensures ok <==> forall k :: 0 <= k < |a.namespaces| ==> NamespaceMounted(fs, a, k, kernel)
    ensures ok ==> Building(t, a, 2 + |a.namespaces|, 0) && ChildrenMade(t, a, |a.namespaces|)
  {
    t := t0;
    var k := 0;
    while k < |a.namespaces|
      invariant k <= |a.namespaces|
      invariant Building(t, a, 2 + k, 0) && ChildrenMade(t, a, k)
      invariant forall l :: 0 <= l < k ==> NamespaceMounted(fs, a, l, kernel)
    {
      ok, t := MountOneNamespace(t, a, fs, k, kernel);
      if !ok {
        return;
      }
      k := k + 1;
    }
    return true, t;
  }

  ghost predicate NamespaceMounted(fs: Snapshot, a: Admission, k: nat, kernel: Kernel)
    requires k < |a.namespaces|
  {
    && NamespacePresent(fs, a.namespaces[k])
    && kernel(MountTmpfs(k))
    && forall j :: 0 <= j < |a.namespaces[k].children| ==> kernel(MakeChild(k, j))
  }

  ghost predicate BindingMounted(fs: Snapshot, a: Admission, i: nat, kernel: Kernel)
    requires i < |a.bindings|
  {
    BindingPresent(fs, a.bindings[i]) && kernel(AttachBinding(i))
  }

  /** What opening the destination of binding `i` finds. */
  lemma BindingDestination(t: Table, a: Admission, fs: Snapshot, i: nat)
    requires Sound(a) && i < |a.bindings| && Attaching(t, a, i)
    ensures DestinationFound(t, fs, a.bindings[i]) <==>
            || a.bindings[i].synthetic
            || (a.bindings[i].logical in fs.dirs && fs.dirs[a.bindings[i].logical] == a.bindings[i].target)
  {
    if a.bindings[i].synthetic {
      var k := InputInNamespace(t, a, i);
      ChildMade(t, a, k, Last(a.bindings[i].logical));
    } else {
      BindingInRoot(t, a, i);
    }
  }

  lemma ChildMade(t: Table, a: Admission, k: nat, c: string)
    requires ChildrenMade(t, a, |a.namespaces|) && k < |a.namespaces| && c in a.namespaces[k].children
    ensures Place(2 + k, [c]) in t.made
  {
    var j :| 0 <= j < |a.namespaces[k].children| && a.namespaces[k].children[j] == c;
    assert Place(2 + k, [a.namespaces[k].children[j]]) in t.made;
  }

  predicate DestinationFound(t: Table, fs: Snapshot, b: Admitted) {
    var pl := Resolve(t, b.logical);
    Opens(t, fs, pl) && (b.synthetic || SameInode(t, fs, pl, b.target))
  }

  lemma BindingVisible(t: Table, a: Admission, fs: Snapshot, i: nat)
    requires Sound(a) && i < |a.bindings| && Attaching(t, a, i + 1)
    ensures var pl := Resolve(t, a.bindings[i].logical);
            Opens(t, fs, pl) && SameInode(t, fs, pl, a.bindings[i].source) <==>
            a.bindings[i].host in fs.hosts && fs.hosts[a.bindings[i].host] == a.bindings[i].source
  {
    OwnPlace(t, a, 2 + |a.namespaces| + (i + 1), 0, 2 + |a.namespaces| + i);
    assert a.bindings[i].host + [] == a.bindings[i].host;
  }

  /** The first `i` bindings are attached. */
  ghost predicate Attaching(t: Table, a: Admission, i: nat) {
    Building(t, a, 2 + |a.namespaces| + i, 0) && ChildrenMade(t, a, |a.namespaces|)
  }

  lemma AttachingNext(t: Table, a: Admission, trees: seq<Mount>, i: nat)
    requires Sound(a) && i < |a.bindings| && Attaching(t, a, i) && Cloned(a, trees)
    ensures Attaching(Attach(t, a.bindings[i].logical, trees[i]), a, i + 1)
  {
    AttachNext(t, a, 2 + |a.namespaces| + i);
    AttachKeepsChildren(t, a, |a.namespaces|, a.bindings[i].logical, trees[i]);
  }

  /** Attaches one resource tree at its destination and looks at it through the view. */
  method AttachOne(t: Table, a: Admission, fs: Snapshot, trees: seq<Mount>, i: nat, kernel: Kernel)
    returns (ok: bool, u: Table)
    requires Sound(a) && i < |a.bindings| && Attaching(t, a, i)
    requires Cloned(a, trees)
    ensures ok <==> BindingMounted(fs, a, i, kernel)
    ensures ok ==> Attaching(u, a, i + 1)
  {
    var b := a.bindings[i];
    BindingDestination(t, a, fs, i);
    u := t;
    if !DestinationFound(t, fs, b) || !kernel(AttachBinding(i)) {
      return false, u;
    }
    AttachingNext(t, a, trees, i);
    u := Attach(t, b.logical, trees[i]);
    BindingVisible(u, a, fs, i);
    var visible := Resolve(u, b.logical);
    return Opens(u, fs, visible) && SameInode(u, fs, visible, b.source), u;
  }

  method AttachBindings(t0: Table, a: Admission, fs: Snapshot, trees: seq<Mount>, kernel: Kernel)
    returns (ok: bool, t: Table)
    requires Sound(a) && Attaching(t0, a, 0)
    requires Cloned(a, trees)
    ensures ok <==> forall i :: 0 <= i < |a.bindings| ==> BindingMounted(fs, a, i, kernel)
    ensures ok ==> Attaching(t, a, |a.bindings|)
  {
    t := t0;
    var i := 0;
    while i < |a.bindings|
      invariant i <= |a.bindings|
      invariant Attaching(t, a, i)
      invariant forall l :: 0 <= l < i ==> BindingMounted(fs, a, l, kernel)
    {
      ok, t := AttachOne(t, a, fs, trees, i, kernel);
      if !ok {
        return;
      }
      i := i + 1;
    }
    return true, t;
  }

  lemma SealNext(t: Table, a: Admission, k: nat)
    requires Sound(a) && k < |a.namespaces| && Building(t, a, Count(a), k)
    ensures Building(Seal(t, a.namespaces[k].path), a, Count(a), k + 1)
    ensures Opens(t, Snapshot({}, map[], map[], {}), Resolve(t, a.namespaces[k].path))
  {
    OwnPlace(t, a, Count(a), k, 2 + k);
    SameFollows(t, Seal(t, a.namespaces[k].path), Points(a, Count(a)));
  }

  /** Makes every namespace read-only once the bindings inside it are attached. */
  method SealNamespaces(t0: Table, a: Admission, kernel: Kernel) returns (ok: bool, t: Table)
    requires Sound(a) && Building(t0, a, Count(a), 0)
    ensures ok <==> forall k :: 0 <= k < |a.namespaces| ==> kernel(SealNamespace(k))
    ensures ok ==> Complete(t, a)
  {
    t := t0;
    var k := 0;
    while k < |a.namespaces|
      invariant k <= |a.namespaces|
      invariant Building(t, a, Count(a), k)
      invariant forall l :: 0 <= l < k ==> kernel(SealNamespace(l))
    {
      if !kernel(SealNamespace(k)) {
        return false, t;
      }
      SealNext(t, a, k);
      t := Seal(t, a.namespaces[k].path);
      k := k + 1;
    }
    return true, t;
  }

  /** The calls before anything is mounted, in order; the first refused one, if any. */
  method Prepare(a: Admission, ghost fs: Snapshot, kernel: Kernel) returns (ok: bool, stage: Stage, trees: seq<Mount>)
    ensures ok <==> Prepared(a, kernel)
    ensures !ok ==> exists c :: Makes(a, c) && !kernel(c) && StageOf(c) == stage
    ensures !ok ==> BlamesFirst(fs, a, kernel, stage)
    ensures ok ==> Cloned(a, trees)
  {
    if !kernel(CloneRoot) {
      assert Makes(a, CloneRoot);
      assert FailsFirst(fs, a, kernel, 0) && BLAMED[0] == RootStage;
      return false, RootStage, [];
    }
    ok, trees := CloneTrees(a, kernel);
    if !ok {
      var i :| 0 <= i < |a.bindings| && !kernel(CloneBinding(i));
      assert Makes(a, CloneBinding(i));
      assert FailsFirst(fs, a, kernel, 1) && BLAMED[1] == ResourceStage;
      return false, ResourceStage, trees;
    }
    if !kernel(Unshare) {
      assert Makes(a, Unshare);
      assert FailsFirst(fs, a, kernel, 2) && BLAMED[2] == MountNamespaceStage;
      return false, MountNamespaceStage, trees;
    }
    if !kernel(MakePrivate) {
      assert Makes(a, MakePrivate);
      assert FailsFirst(fs, a, kernel, 3) && BLAMED[3] == PropagationStage;
      return false, PropagationStage, trees;
    }
    if !kernel(MountScratch) {
      assert Makes(a, MountScratch);
      assert FailsFirst(fs, a, kernel, 4) && BLAMED[4] == ScratchStage;
      return false, ScratchStage, trees;
    }
    if !kernel(AttachRoot) {
      assert Makes(a, AttachRoot);
      assert FailsFirst(fs, a, kernel, 5) && BLAMED[5] == RootStage;
      return false, RootStage, trees;
    }
    return true, RootStage, trees;
  }

  ghost predicate Prepared(a: Admission, kernel: Kernel) {
    && kernel(CloneRoot) && kernel(Unshare) && kernel(MakePrivate) && kernel(MountScratch) && kernel(AttachRoot)
    && forall i :: 0 <= i < |a.bindings| ==> kernel(CloneBinding(i))
  }

  /** The private /dev over the attached root. */
  method MountDevice(a: Admission, fs: Snapshot, kernel: Kernel) returns (ok: bool, t: Table)
    requires Sound(a)
    ensures ok <==> DEV in fs.dirs && kernel(MountDev) && kernel(MakeNull)
    ensures ok ==> Building(t, a, 2, 0) && t.made == {}
  {
    t := Table([Mount(RootTree, false)], map[], {});
    StartsAtRoot(t, a);
    if !Opens(t, fs, Resolve(t, DEV)) || !kernel(MountDev) || !kernel(MakeNull) {
      return false, t;
    }
    AttachNext(t, a, 1);
    return true, Attach(t, DEV, Mount(DevTree, true));
  }

  /** The mounts, in order: /dev, namespaces, bindings, seals. */
  method MountAll(a: Admission, fs: Snapshot, trees: seq<Mount>, kernel: Kernel)
    returns (ok: bool, stage: Stage, t: Table)
    requires Sound(a) && Prepared(a, kernel)
    requires Cloned(a, trees)
    ensures ok <==> MountsPossible(fs, a, kernel)
    ensures !ok ==> Blames(fs, a, kernel, stage) && BlamesFirst(fs, a, kernel, stage)
    ensures ok ==> Complete(t, a)
  {
    ok, t := MountDevice(a, fs, kernel);
    if !ok {
      assert Makes(a, MountDev) && Makes(a, MakeNull);
      assert FailsFirst(fs, a, kernel, 6) && BLAMED[6] == DeviceStage;
      return false, DeviceStage, t;
    }
    ok, t := MountNamespaces(t, a, fs, kernel);
    if !ok {
      NamespacesBlamed(fs, a, kernel);
      assert FailsFirst(fs, a, kernel, 7) && BLAMED[7] == InputStage;
      return false, InputStage, t;
    }
    ok, t := AttachBindings(t, a, fs, trees, kernel);
    if !ok {
      BindingsBlamed(fs, a, kernel);
      assert FailsFirst(fs, a, kernel, 8) && BLAMED[8] == ResourceStage;
      return false, ResourceStage, t;
    }
    ok, t := SealNamespaces(t, a, kernel);
    if !ok {
      var k :| 0 <= k < |a.namespaces| && !kernel(SealNamespace(k));
      assert Makes(a, SealNamespace(k));
      assert FailsFirst(fs, a, kernel, 9) && BLAMED[9] == InputStage;
    }
    return ok, InputStage, t;
  }

  ghost predicate MountsPossible(fs: Snapshot, a: Admission, kernel: Kernel) {
    && DEV in fs.dirs && kernel(MountDev) && kernel(MakeNull)
    && (forall k :: 0 <= k < |a.namespaces| ==> NamespaceMounted(fs, a, k, kernel))
    && (forall i :: 0 <= i < |a.bindings| ==> BindingMounted(fs, a, i, kernel))
    && (forall k :: 0 <= k < |a.namespaces| ==> kernel(SealNamespace(k)))
  }

  lemma NamespacesBlamed(fs: Snapshot, a: Admission, kernel: Kernel)
    requires exists k :: 0 <= k < |a.namespaces| && !NamespaceMounted(fs, a, k, kernel)
    ensures Blames(fs, a, kernel, InputStage)
  {
    var k :| 0 <= k < |a.namespaces| && !NamespaceMounted(fs, a, k, kernel);
    if !kernel(MountTmpfs(k)) {
      assert Makes(a, MountTmpfs(k));
    } else if j :| 0 <= j < |a.namespaces[k].children| && !kernel(MakeChild(k, j)) {
      assert Makes(a, MakeChild(k, j));
    }
  }

  lemma BindingsBlamed(fs: Snapshot, a: Admission, kernel: Kernel)
    requires exists i :: 0 <= i < |a.bindings| && !BindingMounted(fs, a, i, kernel)
    ensures Blames(fs, a, kernel, ResourceStage)
  {
    var i :| 0 <= i < |a.bindings| && !BindingMounted(fs, a, i, kernel);
    assert Makes(a, AttachBinding(i));
  }

  /** create_private_root: it succeeds exactly when every call is granted and every directory is the one
      that was admitted, blames the stage of the first step that went wrong otherwise, and on success every
      path shows exactly what was declared for it. */
  method CreatePrivateRoot(a: Admission, fs: Snapshot, kernel: Kernel) returns (r: Realization)
    requires Sound(a)
    ensures r.Realized? <==> Present(fs, a) && AllGranted(a, kernel)
    ensures r.Failed? ==> Blames(fs, a, kernel, r.stage) && BlamesFirst(fs, a, kernel, r.stage)
    ensures r.Realized? ==> Complete(r.table, a) && forall p :: IsView(a, p, Seen(r.table, p))
  {
    var ok, stage, trees := Prepare(a, fs, kernel);
    var t;
    if ok {
      ok, stage, t := MountAll(a, fs, trees, kernel);
    }
    if !ok {
      BlamedIsRefused(fs, a, kernel, stage);
      return Failed(stage);
    }
    if !kernel(EnterRoot) {
      assert Makes(a, EnterRoot);
      assert FailsFirst(fs, a, kernel, 10) && BLAMED[10] == EntryStage;
      return Failed(EntryStage);
    }
    AllWereGranted(fs, a, kernel);
    forall p ensures IsView(a, p, Seen(t, p)) {
      ViewIsDeclared(t, a, p);
    }
    return Realized(t);
  }

  /** A requested binding of this access is at or above the path. */
  ghost predicate RequestedAt(req: seq<Binding>, access: Access, p: Path) {
    exists i :: 0 <= i < |req| && req[i].access == access && req[i].logical <= p
  }

  /** In terms of the request: outside /dev the writable paths are those under writable requested bindings. */
  lemma WritableAsRequested(fs: Snapshot, req: seq<Binding>, a: Admission, p: Path, v: View)
    requires Sound(a) && IsView(a, p, v) && !(DEV <= p) && |a.bindings| == |req|
    requires forall i :: 0 <= i < |req| ==> Matches(fs, req[i], a.bindings[i])
    ensures v.writable <==> RequestedAt(req, Writable, p)
  {
    WritableExactly(a, p, v);
    if v.writable {
      var i :| 0 <= i < |a.bindings| && a.bindings[i].access == Writable && a.bindings[i].logical <= p;
      assert Matches(fs, req[i], a.bindings[i]);
    }
    if RequestedAt(req, Writable, p) {
      var i :| 0 <= i < |req| && req[i].access == Writable && req[i].logical <= p;
      assert Matches(fs, req[i], a.bindings[i]);
    }
  }

  /** Admission and realization of a request over one snapshot. */
  method IsolateRequest(fs: Snapshot, root: Path, req: seq<Binding>, kernel: Kernel)
    returns (admitted: Result<Admission>, r: Realization)
    requires ValidSnapshot(fs)
    ensures admitted.Ok? <==> Clean(fs, root, req)
    ensures admitted.Ok? ==> Admits(fs, root, req, admitted.value)
    ensures admitted.Ok? && r.Realized? ==> Complete(r.table, admitted.value)
    ensures admitted.Ok? ==> (r.Realized? <==> DEV in fs.dirs && AllGranted(admitted.value, kernel))
    ensures admitted.Ok? && r.Realized? ==>
              forall p :: !(DEV <= p) ==> (Seen(r.table, p).writable <==> RequestedAt(req, Writable, p))
  {
    admitted := AdmitIsolatedResources(fs, root, req);
    if admitted.Refused? {
      return admitted, Failed(RootStage);
    }
    var a := admitted.value;
    r := CreatePrivateRoot(a, fs, kernel);
    if DEV in fs.dirs { AdmittedIsPresent(fs, req, a); }
    if r.Realized? {
      forall p | !(DEV <= p) ensures Seen(r.table, p).writable <==> RequestedAt(req, Writable, p) {
        WritableAsRequested(fs, req, a, p, Seen(r.table, p));
      }
    }
  }

  lemma BlamedIsRefused(fs: Snapshot, a: Admission, kernel: Kernel, stage: Stage)
    requires Blames(fs, a, kernel, stage)
    ensures !(Present(fs, a) && AllGranted(a, kernel))
  {}

  lemma StartsAtRoot(t: Table, a: Admission)
    requires t == Table([Mount(RootTree, false)], map[], {})
    ensures Building(t, a, 1, 0) && Resolve(t, DEV) == Place(0, DEV)
  {
    forall p ensures Resolve(t, p) == Place(0, p) {
      StartsPlain(t, p);
    }
    assert Points(a, 1) == [];
  }

  lemma {:induction false} StartsPlain(t: Table, p: Path)
    requires t.on == map[]
    ensures Resolve(t, p) == Place(0, p)
  {
    assert Cross(t, Place(0, p)) == Place(0, p);
    if p != [] {
      StartsPlain(t, Parent(p));
      assert Parent(p) + [Last(p)] == p;
    }
  }

  lemma AllWereGranted(fs: Snapshot, a: Admission, kernel: Kernel)
    requires Prepared(a, kernel) && MountsPossible(fs, a, kernel) && kernel(EnterRoot)
    ensures Present(fs, a) && AllGranted(a, kernel)
  {
    forall k | 0 <= k < |a.namespaces| ensures NamespacePresent(fs, a.namespaces[k]) {
      assert NamespaceMounted(fs, a, k, kernel);
    }
    forall i | 0 <= i < |a.bindings| ensures BindingPresent(fs, a.bindings[i]) {
      assert BindingMounted(fs, a, i, kernel);
    }
    forall c | Makes(a, c) ensures kernel(c) {
      match c
      case MakeChild(k, j) => assert NamespaceMounted(fs, a, k, kernel);
      case MountTmpfs(k) => assert NamespaceMounted(fs, a, k, kernel);
      case AttachBinding(i) => assert BindingMounted(fs, a, i, kernel);
      case _ =>
    }
  }
}
