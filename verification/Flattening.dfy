/** Sequences put end to end. */
module Flattening {
  function Flat<T>(parts: seq<seq<T>>): seq<T> {
    if parts == [] then [] else parts[0] + Flat(parts[1..])
  }

  lemma {:induction false} FlatConcat<T>(a: seq<seq<T>>, b: seq<seq<T>>)
    ensures Flat(a + b) == Flat(a) + Flat(b)
    decreases |a|
  {
    if a == [] {
      assert a + b == b;
    } else {
      assert (a + b)[0] == a[0] && (a + b)[1..] == a[1..] + b;
      FlatConcat(a[1..], b);
    }
  }

  lemma FlatNext<T>(parts: seq<seq<T>>, part: seq<T>)
    ensures Flat(parts + [part]) == Flat(parts) + part
  {
    FlatConcat(parts, [part]);
    assert Flat([part]) == part + Flat([part][1..]);
  }

  /** Taking one more part adds it at the end. */
  lemma FlatTo<T>(parts: seq<seq<T>>, i: nat)
    requires i < |parts|
    ensures Flat(parts[..i + 1]) == Flat(parts[..i]) + parts[i]
  {
    FlatNext(parts[..i], parts[i]);
    assert parts[..i + 1] == parts[..i] + [parts[i]];
  }

  lemma FlatAround<T>(parts: seq<seq<T>>, i: nat)
    requires i < |parts|
    ensures Flat(parts) == Flat(parts[..i]) + parts[i] + Flat(parts[i + 1..])
  {
    assert parts == parts[..i + 1] + parts[i + 1..];
    FlatConcat(parts[..i + 1], parts[i + 1..]);
    FlatTo(parts, i);
  }

  lemma FlatPrepend<T>(part: seq<T>, parts: seq<seq<T>>)
    ensures Flat([part] + parts) == part + Flat(parts)
  {
    assert ([part] + parts)[1..] == parts;
  }

  /** Which part the k-th element belongs to. */
  lemma {:induction false} Locate<T>(parts: seq<seq<T>>, k: nat) returns (i: nat, c: nat)
    requires k < |Flat(parts)|
    ensures i < |parts| && c < |parts[i]| && k == |Flat(parts[..i])| + c
    ensures Flat(parts)[k] == parts[i][c] && Flat(parts)[k + 1..] == parts[i][c + 1..] + Flat(parts[i + 1..])
  {
    if k < |parts[0]| {
      i, c := 0, k;
    } else {
      i, c := Locate(parts[1..], k - |parts[0]|);
      assert parts[..i + 1] == [parts[0]] + parts[1..][..i];
      i := i + 1;
    }
    FlatAround(parts, i);
  }

  /** When every part of one sequence is at most as long as its counterpart, only equal parts give equal wholes. */
  lemma {:induction false} EqualWholesHaveEqualParts<T>(a: seq<seq<T>>, b: seq<seq<T>>)
    requires |a| == |b| && (forall i :: 0 <= i < |a| ==> |a[i]| <= |b[i]|) && Flat(a) == Flat(b)
    ensures a == b
  {
    if a != [] {
      FlatIsShorter(a[1..], b[1..]);
      assert |a[0]| == |b[0]| && a[0] == Flat(a)[..|a[0]|] == b[0];
      assert Flat(a[1..]) == Flat(a)[|a[0]|..] == Flat(b[1..]);
      EqualWholesHaveEqualParts(a[1..], b[1..]);
      assert a == [a[0]] + a[1..] && b == [b[0]] + b[1..];
    }
  }

  lemma {:induction false} FlatIsShorter<T>(a: seq<seq<T>>, b: seq<seq<T>>)
    requires |a| == |b| && forall i :: 0 <= i < |a| ==> |a[i]| <= |b[i]|
    ensures |Flat(a)| <= |Flat(b)|
  {
    if a != [] { FlatIsShorter(a[1..], b[1..]); }
  }
}
