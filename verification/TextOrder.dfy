/** How texts and paths are ordered when they are sorted. */
module TextOrder {
  /** Code-point order. */
  predicate LexLeq(a: string, b: string)
    decreases |a|
  {
    a == [] || (b != [] && (a[0] < b[0] || (a[0] == b[0] && LexLeq(a[1..], b[1..]))))
  }

  lemma {:induction false} LexTotal(a: string, b: string)
    ensures LexLeq(a, b) || LexLeq(b, a)
    decreases |a|
  {
    if a != [] && b != [] { LexTotal(a[1..], b[1..]); }
  }

  lemma {:induction false} LexTransitive(a: string, b: string, c: string)
    requires LexLeq(a, b) && LexLeq(b, c)
    ensures LexLeq(a, c)
    decreases |a|
  {
    if a != [] && a[0] == b[0] && b[0] == c[0] { LexTransitive(a[1..], b[1..], c[1..]); }
  }

  lemma {:induction false} LexAntisymmetric(a: string, b: string)
    requires LexLeq(a, b) && LexLeq(b, a)
    ensures a == b
    decreases |a|
  {
    if a != [] { LexAntisymmetric(a[1..], b[1..]); }
  }

  /** Component by component. */
  predicate PartsLeq(a: seq<string>, b: seq<string>)
    decreases |a|
  {
    a == [] || (b != [] && if a[0] == b[0] then PartsLeq(a[1..], b[1..]) else LexLeq(a[0], b[0]))
  }

  lemma {:induction false} PartsTotal(a: seq<string>, b: seq<string>)
    ensures PartsLeq(a, b) || PartsLeq(b, a)
    decreases |a|
  {
    if a != [] && b != [] {
      LexTotal(a[0], b[0]);
      PartsTotal(a[1..], b[1..]);
    }
  }

  lemma {:induction false} PartsTransitive(a: seq<string>, b: seq<string>, c: seq<string>)
    requires PartsLeq(a, b) && PartsLeq(b, c)
    ensures PartsLeq(a, c)
    decreases |a|
  {
    if a != [] {
      if a[0] == b[0] && b[0] == c[0] {
        PartsTransitive(a[1..], b[1..], c[1..]);
      } else if a[0] == c[0] {
        LexAntisymmetric(a[0], b[0]);
      } else if a[0] != b[0] && b[0] != c[0] {
        LexTransitive(a[0], b[0], c[0]);
      }
    }
  }

  lemma {:induction false} PartsAntisymmetric(a: seq<string>, b: seq<string>)
    requires PartsLeq(a, b) && PartsLeq(b, a)
    ensures a == b
    decreases |a|
  {
    if a != [] {
      if a[0] == b[0] { PartsAntisymmetric(a[1..], b[1..]); } else { LexAntisymmetric(a[0], b[0]); }
    }
  }
}
