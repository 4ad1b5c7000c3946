/**
 Normalized absolute paths as sequences of components, without a trailing separator.
 */
module Paths {
  type Path = seq<string>

  /** One of two paths is at or above the other. */
  predicate Overlap(a: Path, b: Path) {
    a <= b || b <= a
  }

  /** path_contains: the component-by-component loop decides exactly "equal or below". */
  method PathContains(parent: Path, child: Path) returns (r: bool)
    ensures r <==> parent <= child
  {
    if parent == child {
      return true;
    }
    var p, c := 0, 0;
    while p != |parent|
      invariant 0 <= p == c <= |parent| && c <= |child|
      invariant parent[..p] == child[..c]
      decreases |parent| - p
    {
      if c == |child| || parent[p] != child[c] {
        return false;
      }
      assert parent[..p + 1] == parent[..p] + [parent[p]];
      assert child[..c + 1] == child[..c] + [child[c]];
      p, c := p + 1, c + 1;
    }
    assert parent == parent[..p];
    return c != |child|;
  }

  /** Two prefixes of one path are comparable. */
  lemma PrefixesCompare(a: Path, b: Path, p: Path)
    requires a <= p && b <= p
    ensures Overlap(a, b)
  {
    if |a| <= |b| {
      assert a == p[..|a|] == b[..|a|];
    } else {
      assert b == p[..|b|] == a[..|b|];
    }
  }

  /** Below two incomparable paths there is nothing in common. */
  lemma ExtensionsDiffer(a: Path, b: Path, x: Path, y: Path)
    requires a + x == b + y
    ensures Overlap(a, b)
  {
    assert a <= a + x && b <= b + y;
    PrefixesCompare(a, b, a + x);
  }

  function Parent(p: Path): Path
    requires p != []
  {
    p[..|p| - 1]
  }

  function Last(p: Path): string
    requires p != []
  {
    p[|p| - 1]
  }

  // ----- ordered names -------------------------------------------------------------------------

  /** Lexicographic order on names. */
  predicate Less(a: string, b: string) {
    if b == [] then false
    else if a == [] then true
    else a[0] < b[0] || (a[0] == b[0] && Less(a[1..], b[1..]))
  }

  lemma {:induction false} LessTransitive(a: string, b: string, c: string)
    requires Less(a, b) && Less(b, c)
    ensures Less(a, c)
    decreases |a|
  {
    if a != [] && b != [] && c != [] && a[0] == b[0] == c[0] { LessTransitive(a[1..], b[1..], c[1..]); }
  }

  lemma {:induction false} LessTotal(a: string, b: string)
    ensures a == b || Less(a, b) || Less(b, a)
    decreases |a|
  {
    if a != [] && b != [] && a[0] == b[0] {
      LessTotal(a[1..], b[1..]);
      assert a == [a[0]] + a[1..] && b == [b[0]] + b[1..];
    }
  }

  lemma {:induction false} LessIrreflexive(a: string)
    ensures !Less(a, a)
    decreases |a|
  {
    if a != [] { LessIrreflexive(a[1..]); }
  }

  predicate Ascending(s: seq<string>) {
    forall i, j :: 0 <= i < j < |s| ==> Less(s[i], s[j])
  }

  /** Insertion into an ascending sequence; a name that is already there is not repeated. */
  function Insert(s: seq<string>, c: string): seq<string> {
    if s == [] then [c]
    else if c == s[0] then s
    else if Less(c, s[0]) then [c] + s
    else [s[0]] + Insert(s[1..], c)
  }

  lemma {:induction false} InsertElements(s: seq<string>, c: string, x: string)
    ensures x in Insert(s, c) <==> x in s || x == c
  {
    if s != [] {
      assert s == [s[0]] + s[1..];
      InsertElements(s[1..], c, x);
    }
  }

  lemma {:induction false} InsertAscending(s: seq<string>, c: string)
    requires Ascending(s)
    ensures Ascending(Insert(s, c))
  {
    if s == [] || c == s[0] {
    } else if Less(c, s[0]) {
      forall j | 0 <= j < |s| ensures Less(c, s[j]) {
        if j > 0 { LessTransitive(c, s[0], s[j]); }
      }
    } else {
      LessTotal(c, s[0]);
      InsertAscending(s[1..], c);
      var t := Insert(s[1..], c);
      forall j | 0 <= j < |t| ensures Less(s[0], t[j]) {
        InsertElements(s[1..], c, t[j]);
        assert t[j] in t;
        if t[j] != c {
          var i :| 0 <= i < |s[1..]| && s[1..][i] == t[j];
          assert s[1..][i] == s[i + 1];
        }
      }
    }
  }

  /** std::sort followed by erasing what std::unique moved to the end. */
  function SortUnique(names: seq<string>): seq<string> {
    if names == [] then [] else Insert(SortUnique(names[1..]), names[0])
  }

  lemma {:induction false} SortUniqueAscending(names: seq<string>)
    ensures Ascending(SortUnique(names))
  {
    if names != [] {
      SortUniqueAscending(names[1..]);
      InsertAscending(SortUnique(names[1..]), names[0]);
    }
  }

  lemma {:induction false} SortUniqueElements(names: seq<string>, x: string)
    ensures x in SortUnique(names) <==> x in names
  {
    if names != [] {
      assert names == [names[0]] + names[1..];
      SortUniqueElements(names[1..], x);
      InsertElements(SortUnique(names[1..]), names[0], x);
    }
  }

  predicate Distinct<T(==)>(s: seq<T>) {
    forall i, j :: 0 <= i < j < |s| ==> s[i] != s[j]
  }

  lemma AscendingIsDistinct(s: seq<string>)
    requires Ascending(s)
    ensures Distinct(s)
  {
    forall i, j | 0 <= i < j < |s| ensures s[i] != s[j] {
      LessIrreflexive(s[i]);
    }
  }

  lemma {:induction false} InsertNew(s: seq<string>, c: string)
    requires c !in s
    ensures |Insert(s, c)| == |s| + 1
  {
    if s != [] && !Less(c, s[0]) { InsertNew(s[1..], c); }
  }

  /** Sorting distinct names drops none of them. */
  lemma {:induction false} SortUniqueKeepsDistinct(names: seq<string>)
    requires Distinct(names)
    ensures |SortUnique(names)| == |names|
  {
    if names != [] {
      SortUniqueKeepsDistinct(names[1..]);
      SortUniqueElements(names[1..], names[0]);
      InsertNew(SortUnique(names[1..]), names[0]);
    }
  }
}
