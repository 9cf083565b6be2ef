/** Relative paths as package files and bundle entries carry them, and the order they are listed in. */
module PackagePaths {
  import opened TextOrder
  import opened Splitting

  const MAX_PATH_CHARS: nat := 512
  const MAX_PART_CHARS: nat := 255

  /** Parsing a path drops empty and "." components. */
  function Kept(parts: seq<string>): seq<string> {
    if parts == [] then []
    else if parts[0] == "" || parts[0] == "." then Kept(parts[1..])
    else [parts[0]] + Kept(parts[1..])
  }

  function Parts(s: string): seq<string> {
    Kept(Split(s))
  }

  function Join(parts: seq<string>): string {
    if parts == [] then "" else if |parts| == 1 then parts[0] else parts[0] + "/" + Join(parts[1..])
  }

  function Normalized(s: string): string {
    Join(Parts(s))
  }

  predicate Absolute(s: string) {
    s != "" && s[0] == '/'
  }

  predicate StaysInside(s: string) {
    !Absolute(s) && Parts(s) != [] && ".." !in Parts(s)
  }

  /** A relative path in the form `as_posix` gives it. */
  predicate Normal(s: string) {
    StaysInside(s) && Normalized(s) == s
  }

  predicate TooLong(s: string) {
    |s| > MAX_PATH_CHARS || exists part :: part in Parts(s) && |part| > MAX_PART_CHARS
  }

  /** `p` lies in the directory `d`. */
  predicate Under(d: string, p: string) {
    d + "/" <= p
  }

  lemma UnderHasSeparator(d: string, p: string)
    ensures Under(d, p) ==> '/' in p
  {
    if Under(d, p) { assert p[|d|] == (d + "/")[|d|]; }
  }

  // ------------------------------------------------------------- normalization

  predicate Clean(part: string) {
    part != "" && part != "." && '/' !in part
  }

  lemma {:induction false} PartsAreClean(s: string)
    ensures forall part :: part in Split(s) ==> '/' !in part
    ensures forall part :: part in Parts(s) ==> Clean(part)
  {
    if s != "" { PartsAreClean(s[1..]); }
    KeptAreClean(Split(s));
  }

  lemma {:induction false} KeptAreClean(parts: seq<string>)
    requires forall part :: part in parts ==> '/' !in part
    ensures forall part :: part in Kept(parts) ==> Clean(part)
  {
    if parts != [] { KeptAreClean(parts[1..]); }
  }

  lemma {:induction false} KeepsClean(parts: seq<string>)
    requires forall part :: part in parts ==> Clean(part)
    ensures Kept(parts) == parts
  {
    if parts != [] {
      assert Clean(parts[0]) && parts == [parts[0]] + parts[1..];
      KeepsClean(parts[1..]);
    }
  }

  lemma {:induction false} SplitOfJoin(parts: seq<string>)
    requires parts != [] && forall part :: part in parts ==> Clean(part)
    ensures Split(Join(parts)) == parts && !Absolute(Join(parts))
  {
    assert Clean(parts[0]) && parts[0][0] in parts[0];
    SplitAfter(parts[0], Join(parts[1..]));
    if |parts| > 1 {
      SplitOfJoin(parts[1..]);
      assert parts == [parts[0]] + parts[1..];
    }
    assert Join(parts)[0] == parts[0][0];
  }

  /** A path that stays inside is normal after normalization: it names the same components. */
  lemma NormalizedIsNormal(s: string)
    requires StaysInside(s)
    ensures Normal(Normalized(s)) && Parts(Normalized(s)) == Parts(s)
  {
    PartsAreClean(s);
    SplitOfJoin(Parts(s));
    KeepsClean(Parts(s));
  }

  lemma {:induction false} SplitUses(s: string, c: char)
    requires c !in s
    ensures forall part :: part in Split(s) ==> c !in part
  {
    if s != "" { SplitUses(s[1..], c); }
  }

  lemma {:induction false} JoinUses(parts: seq<string>, c: char)
    requires c != '/' && forall part :: part in parts ==> c !in part
    ensures c !in Join(parts)
  {
    if parts != [] {
      assert parts[0] in parts;
      JoinUses(parts[1..], c);
    }
  }

  lemma {:induction false} KeptAmong(parts: seq<string>)
    ensures forall part :: part in Kept(parts) ==> part in parts
  {
    if parts != [] { KeptAmong(parts[1..]); }
  }

  /** Normalization brings in no character but separators. */
  lemma NormalizedUses(s: string, c: char)
    requires c != '/' && c !in s
    ensures c !in Normalized(s)
  {
    SplitUses(s, c);
    KeptAmong(Split(s));
    JoinUses(Parts(s), c);
  }

  lemma {:induction false} JoinEnds(parts: seq<string>)
    requires parts != [] && forall part :: part in parts ==> Clean(part)
    ensures Join(parts) != "" && Join(parts)[|Join(parts)| - 1] != '/'
  {
    if |parts| == 1 {
      assert Clean(parts[0]) && parts[0][|parts[0]| - 1] in parts[0];
    } else {
      JoinEnds(parts[1..]);
    }
  }

  /** A normal path never names a directory entry. */
  lemma NormalEnds(p: string)
    requires Normal(p)
    ensures p != "" && p[|p| - 1] != '/'
  {
    PartsAreClean(p);
    JoinEnds(Parts(p));
  }

  /** A text without separators is a path of one component. */
  lemma OneComponent(p: string)
    requires Clean(p) && p != ".."
    ensures Normal(p) && Parts(p) == [p]
  {
    SplitAfter(p, "");
    KeepsClean([p]);
    assert p[0] in p;
  }

  // ------------------------------------------------------------------- listing

  predicate PathLeq(p: string, q: string) {
    PartsLeq(Parts(p), Parts(q))
  }

  ghost predicate AllNormal(s: set<string>) {
    forall p :: p in s ==> Normal(p)
  }

  ghost predicate Sorted(q: seq<string>) {
    forall i, j :: 0 <= i < j < |q| ==> PathLeq(q[i], q[j]) && q[i] != q[j]
  }

  lemma SamePath(p: string, q: string)
    requires Normal(p) && Normal(q) && PathLeq(p, q) && PathLeq(q, p)
    ensures p == q
  {
    PartsAntisymmetric(Parts(p), Parts(q));
  }

  ghost predicate Least(s: set<string>, m: string) {
    m in s && forall x :: x in s ==> PathLeq(m, x)
  }

  lemma {:induction false} LeastExists(s: set<string>)
    requires s != {}
    ensures exists m :: Least(s, m)
  {
    var x :| x in s;
    PartsTotal(Parts(x), Parts(x));
    var t := s - {x};
    assert s == t + {x};
    if t == {} {
      assert Least(s, x);
    } else {
      LeastExists(t);
      var m :| Least(t, m);
      PartsTotal(Parts(x), Parts(m));
      if PathLeq(x, m) {
        forall y | y in s ensures PathLeq(x, y) {
          if y != x { assert y in t && PathLeq(m, y); PartsTransitive(Parts(x), Parts(m), Parts(y)); }
        }
        assert Least(s, x);
      } else {
        assert Least(s, m);
      }
    }
  }

  /** The paths of a set, in the order `sorted` gives them. */
  ghost function Listing(s: set<string>): seq<string>
    decreases |s|
  {
    if s == {} then []
    else
      LeastExists(s);
      var m :| Least(s, m);
      [m] + Listing(s - {m})
  }

  lemma SortedAfter(m: string, rest: seq<string>)
    requires Sorted(rest) && forall x :: x in rest ==> PathLeq(m, x) && x != m
    ensures Sorted([m] + rest)
  {
  }

  lemma {:induction false} ListingIsSorted(s: set<string>)
    ensures Sorted(Listing(s)) && |Listing(s)| == |s|
    ensures forall x :: x in Listing(s) <==> x in s
    decreases |s|
  {
    if s != {} {
      LeastExists(s);
      var m := Listing(s)[0];
      var rest := Listing(s - {m});
      assert Least(s, m) && Listing(s) == [m] + rest;
      ListingIsSorted(s - {m});
      SortedAfter(m, rest);
    }
  }

  /** A listing holds each path of the set once. */
  lemma ListingLists(s: set<string>)
    ensures |Listing(s)| == |s| && forall x :: x in Listing(s) <==> x in s
    ensures forall i, j :: 0 <= i < j < |Listing(s)| ==> Listing(s)[i] != Listing(s)[j]
  {
    ListingIsSorted(s);
  }

  /** There is only one way to list a set in order. */
  lemma {:induction false} SortedIsListing(q: seq<string>, s: set<string>)
    requires Sorted(q) && AllNormal(s) && forall x :: x in q <==> x in s
    ensures q == Listing(s)
    decreases |q|
  {
    if q == [] {
      assert s == {};
    } else {
      assert q[0] in s;
      LeastExists(s);
      var m := Listing(s)[0];
      var i :| 0 <= i < |q| && q[i] == m;
      if i > 0 {
        assert PathLeq(q[0], m) && PathLeq(m, q[0]);
        SamePath(q[0], m);
      }
      forall x ensures x in q[1..] <==> x in s - {m} {
        if x in s && x != m { var k :| 0 <= k < |q| && q[k] == x; assert q[1..][k - 1] == x; }
      }
      SortedIsListing(q[1..], s - {m});
    }
  }

  function Inserted(x: string, q: seq<string>): seq<string> {
    if q == [] || PathLeq(x, q[0]) then [x] + q else [q[0]] + Inserted(x, q[1..])
  }

  lemma {:induction false} InsertedIsSorted(x: string, q: seq<string>)
    requires Sorted(q) && x !in q
    ensures Sorted(Inserted(x, q)) && forall y :: y in Inserted(x, q) <==> y == x || y in q
  {
    if q != [] {
      PartsTotal(Parts(x), Parts(q[0]));
      if PathLeq(x, q[0]) {
        forall i | 0 <= i < |q| ensures PathLeq(x, q[i]) {
          if i > 0 { PartsTransitive(Parts(x), Parts(q[0]), Parts(q[i])); }
        }
      } else {
        InsertedIsSorted(x, q[1..]);
        assert q == [q[0]] + q[1..];
        SortedAfter(q[0], Inserted(x, q[1..]));
      }
    }
  }

  method SortPaths(names: set<string>) returns (sorted: seq<string>)
    requires AllNormal(names)
    ensures sorted == Listing(names)
  {
    sorted := [];
    var left := names;
    while left != {}
      invariant left <= names && Sorted(sorted)
      invariant forall x :: x in sorted <==> x in names - left
    {
      var x :| x in left;
      InsertedIsSorted(x, sorted);
      sorted := Inserted(x, sorted);
      left := left - {x};
    }
    SortedIsListing(sorted, names);
  }
}
