/**
 Path resolution through a mount table, and what mounting one more tree does to it.
 */
module MountTable {
  import opened Paths

  datatype Tree =
    | RootTree
    | DevTree
    | NamespaceTree(path: Path)
    | BindingTree(host: Path)

  datatype Mount = Mount(tree: Tree, writable: bool)

  /** A place inside one mount. */
  datatype Place = Place(mount: nat, at: Path)

  /** Mounts by number, 0 being the root; which mount covers which place; directories made in tmpfs mounts. */
  datatype Table = Table(mounts: seq<Mount>, on: map<Place, nat>, made: set<Place>)

  ghost predicate Valid(t: Table) {
    && 0 < |t.mounts|
    && forall pl :: pl in t.on ==> pl.mount < t.on[pl] < |t.mounts|
  }

  /** Steps from a covered place to the mount on top of it, and so on. */
  function Cross(t: Table, pl: Place): Place
    decreases |t.mounts| - pl.mount
  {
    if pl in t.on && pl.mount < t.on[pl] < |t.mounts| then Cross(t, Place(t.on[pl], [])) else pl
  }

  /** Component-wise lookup from the root of the view. */
  function Resolve(t: Table, p: Path): Place {
    if p == [] then Cross(t, Place(0, []))
    else
      var dir := Resolve(t, Parent(p));
      Cross(t, Place(dir.mount, dir.at + [Last(p)]))
  }

  /** Attaches a tree at whatever place the path denotes now. */
  function Attach(t: Table, p: Path, m: Mount): Table {
    Table(t.mounts + [m], t.on[Resolve(t, p) := |t.mounts|], t.made)
  }

  // ----- the latest mount over a prefix wins ---------------------------------------------------

  /** Mounts 1, 2, ... were attached at these paths, in this order: where `p` leads. */
  function Loc(points: seq<Path>, p: Path): Place
    decreases |points|
  {
    if points == [] then Place(0, p)
    else
      var last := points[|points| - 1];
      if last <= p then Place(|points|, p[|last|..]) else Loc(points[..|points| - 1], p)
  }

  /** The path that leads to a place. */
  function PathTo(points: seq<Path>, pl: Place): Path {
    if 0 < pl.mount <= |points| then points[pl.mount - 1] + pl.at else pl.at
  }

  lemma {:induction false} LocLeadsBack(points: seq<Path>, p: Path)
    ensures Loc(points, p).mount <= |points| && PathTo(points, Loc(points, p)) == p
    decreases |points|
  {
    if points != [] {
      var last := points[|points| - 1];
      if last <= p {
        assert last + p[|last|..] == p;
      } else {
        LocLeadsBack(points[..|points| - 1], p);
      }
    }
  }

  /** The table was built by attaching at `points`. */
  ghost predicate Follows(t: Table, points: seq<Path>) {
    && Valid(t)
    && |t.mounts| == |points| + 1
    && forall p :: Resolve(t, p) == Loc(points, p)
  }

  lemma {:induction false} CrossEnds(t: Table, pl: Place)
    requires Valid(t) && pl.mount < |t.mounts|
    ensures Cross(t, pl) !in t.on && Cross(t, pl).mount < |t.mounts|
    decreases |t.mounts| - pl.mount
  {
    if pl in t.on { CrossEnds(t, Place(t.on[pl], [])); }
  }

  lemma {:induction false} AttachedCross(t: Table, end: Place, m: Mount, pl: Place)
    requires Valid(t) && end !in t.on && end.mount < |t.mounts| && pl.mount < |t.mounts|
    ensures var u := Table(t.mounts + [m], t.on[end := |t.mounts|], t.made);
            Cross(u, pl) == if Cross(t, pl) == end then Place(|t.mounts|, []) else Cross(t, pl)
    decreases |t.mounts| - pl.mount
  {
    var u := Table(t.mounts + [m], t.on[end := |t.mounts|], t.made);
    assert Place(|t.mounts|, []) !in u.on;
    if pl in t.on { AttachedCross(t, end, m, Place(t.on[pl], [])); }
  }

  lemma ResolveEnds(t: Table, p: Path)
    requires Valid(t)
    ensures Resolve(t, p) !in t.on && Resolve(t, p).mount < |t.mounts|
  {
    if p == [] {
      CrossEnds(t, Place(0, []));
    } else {
      ResolveEnds(t, Parent(p));
      var dir := Resolve(t, Parent(p));
      CrossEnds(t, Place(dir.mount, dir.at + [Last(p)]));
    }
  }

  lemma LocSnoc(points: seq<Path>, q: Path, p: Path)
    ensures Loc(points + [q], p) == if q <= p then Place(|points| + 1, p[|q|..]) else Loc(points, p)
  {
    assert (points + [q])[..|points|] == points;
  }

  /** One more component, where the directory above leads where it led before. */
  lemma AttachedStep(t: Table, q: Path, m: Mount, p: Path)
    requires Valid(t) && p != [] && Resolve(Attach(t, q, m), Parent(p)) == Resolve(t, Parent(p))
    ensures Resolve(Attach(t, q, m), p) ==
            if Resolve(t, p) == Resolve(t, q) then Place(|t.mounts|, []) else Resolve(t, p)
  {
    var r := Resolve(t, Parent(p));
    ResolveEnds(t, q);
    ResolveEnds(t, Parent(p));
    AttachedCross(t, Resolve(t, q), m, Place(r.mount, r.at + [Last(p)]));
  }

  /** One more component inside the new mount, which nothing covers yet. */
  lemma AttachedInside(t: Table, q: Path, m: Mount, p: Path)
    requires Valid(t) && q <= p && q != p
    requires Resolve(Attach(t, q, m), Parent(p)) == Place(|t.mounts|, Parent(p)[|q|..])
    ensures Resolve(Attach(t, q, m), p) == Place(|t.mounts|, p[|q|..])
  {
    assert p[|q|..] == Parent(p)[|q|..] + [Last(p)];
    ResolveEnds(t, q);
    assert Place(|t.mounts|, p[|q|..]) !in Attach(t, q, m).on;
  }

  /** After attaching at `q`, everything at or below `q` leads into the new mount and everything else
      leads where it led before, provided no other path denoted the place of `q`. */
  lemma {:induction false} AttachedResolve(t: Table, q: Path, m: Mount, p: Path)
    requires Valid(t) && q != [] && forall x :: Resolve(t, x) == Resolve(t, q) ==> x == q
    ensures Resolve(Attach(t, q, m), p) == if q <= p then Place(|t.mounts|, p[|q|..]) else Resolve(t, p)
  {
    if p == [] {
      ResolveEnds(t, q);
      AttachedCross(t, Resolve(t, q), m, Place(0, []));
      assert Resolve(t, p) == Cross(t, Place(0, []));
    } else {
      AttachedResolve(t, q, m, Parent(p));
      if q <= Parent(p) {
        AttachedInside(t, q, m, p);
      } else {
        AttachedStep(t, q, m, p);
        assert q <= p ==> q == p;
      }
    }
  }

  lemma AttachFollows(t: Table, points: seq<Path>, q: Path, m: Mount)
    requires Follows(t, points) && q != []
    ensures Follows(Attach(t, q, m), points + [q])
  {
    ResolveEnds(t, q);
    forall x | Resolve(t, x) == Resolve(t, q) ensures x == q {
      LocLeadsBack(points, x);
      LocLeadsBack(points, q);
    }
    forall p ensures Resolve(Attach(t, q, m), p) == Loc(points + [q], p) {
      AttachedResolve(t, q, m, p);
      LocSnoc(points, q, p);
    }
  }

  /** The last point at or above a path decides where it leads. */
  lemma {:induction false} LocLatest(points: seq<Path>, p: Path)
    ensures var n := Loc(points, p).mount;
            && n <= |points|
            && (n == 0 ==> Loc(points, p).at == p)
            && (n > 0 ==> points[n - 1] <= p && Loc(points, p).at == p[|points[n - 1]|..])
            && (forall j :: n <= j < |points| ==> !(points[j] <= p))
    decreases |points|
  {
    if points != [] && !(points[|points| - 1] <= p) { LocLatest(points[..|points| - 1], p); }
  }

  // ----- other operations ----------------------------------------------------------------------

  /** Makes the mount a path leads into read-only. */
  function Seal(t: Table, p: Path): Table {
    var n := Resolve(t, p).mount;
    if n < |t.mounts| then t.(mounts := t.mounts[n := t.mounts[n].(writable := false)]) else t
  }

  lemma {:induction false} SameCross(t: Table, u: Table, pl: Place)
    requires |t.mounts| == |u.mounts| && t.on == u.on
    ensures Cross(t, pl) == Cross(u, pl)
    decreases |t.mounts| - pl.mount
  {
    if pl in t.on && pl.mount < t.on[pl] < |t.mounts| { SameCross(t, u, Place(t.on[pl], [])); }
  }

  /** Lookup depends on what is mounted where, not on the mounts' contents or access. */
  lemma {:induction false} SameResolve(t: Table, u: Table, p: Path)
    requires |t.mounts| == |u.mounts| && t.on == u.on
    ensures Resolve(t, p) == Resolve(u, p)
  {
    if p == [] {
      SameCross(t, u, Place(0, []));
    } else {
      SameResolve(t, u, Parent(p));
      var dir := Resolve(t, Parent(p));
      SameCross(t, u, Place(dir.mount, dir.at + [Last(p)]));
    }
  }

  lemma SameFollows(t: Table, u: Table, points: seq<Path>)
    requires |t.mounts| == |u.mounts| && t.on == u.on && Follows(t, points)
    ensures Follows(u, points)
  {
    forall p ensures Resolve(u, p) == Loc(points, p) {
      SameResolve(t, u, p);
    }
  }
}
