/**
 * A total order on strings, used to fix the order in which the keys of a
 * document mapping are visited.  Python dictionaries iterate in insertion
 * order, which a Dafny `map` does not record; the model visits keys in
 * lexicographic order instead (see README, "Left out").
 */
module Order {

  /** Lexicographic order on strings, by code point. */
  predicate Le(a: string, b: string)
    decreases |a|
  {
    |a| == 0 || (|b| > 0 && (a[0] < b[0] || (a[0] == b[0] && Le(a[1..], b[1..]))))
  }

  lemma LeTotal(a: string, b: string)
    ensures Le(a, b) || Le(b, a)
    decreases |a|
  {
    if |a| > 0 && |b| > 0 && a[0] == b[0] {
      LeTotal(a[1..], b[1..]);
    }
  }

  lemma LeAntisymmetric(a: string, b: string)
    requires Le(a, b) && Le(b, a)
    ensures a == b
    decreases |a|
  {
    if |a| > 0 && |b| > 0 {
      LeAntisymmetric(a[1..], b[1..]);
      assert a == [a[0]] + a[1..] && b == [b[0]] + b[1..];
    }
  }

  lemma LeTransitive(a: string, b: string, c: string)
    requires Le(a, b) && Le(b, c)
    ensures Le(a, c)
    decreases |a|
  {
    if |a| > 0 && |b| > 0 && |c| > 0 && a[0] == b[0] && b[0] == c[0] {
      LeTransitive(a[1..], b[1..], c[1..]);
    }
  }

  predicate IsLeast(k: string, s: set<string>) {
    k in s && forall y :: y in s ==> Le(k, y)
  }

  lemma LeastExists(s: set<string>)
    requires s != {}
    ensures exists k :: IsLeast(k, s)
    decreases |s|
  {
    var x :| x in s;
    if s != {x} {
      LeastExists(s - {x});
      var k :| IsLeast(k, s - {x});
      LeTotal(x, k);
      if Le(x, k) {
        forall y | y in s ensures Le(x, y) {
          if y != x { LeTransitive(x, k, y); } else { LeTotal(x, x); }
        }
        assert IsLeast(x, s);
      } else {
        assert IsLeast(k, s);
      }
    } else {
      LeTotal(x, x);
      assert IsLeast(x, s);
    }
  }

  lemma LeastUnique(s: set<string>)
    ensures forall a, b :: IsLeast(a, s) && IsLeast(b, s) ==> a == b
  {
    forall a, b | IsLeast(a, s) && IsLeast(b, s) ensures a == b {
      LeAntisymmetric(a, b);
    }
  }

  /** The least key of a non-empty set of strings. */
  function Least(s: set<string>): (k: string)
    requires s != {}
    ensures k in s && forall y :: y in s ==> Le(k, y)
  {
    LeastExists(s);
    LeastUnique(s);
    var k :| IsLeast(k, s);
    k
  }

  /** The elements of `s` in ascending order, each exactly once. */
  function Sorted(s: set<string>): (r: seq<string>)
    ensures |r| == |s|
    ensures forall k :: k in r <==> k in s
    ensures forall i, j :: 0 <= i < j < |r| ==> r[i] != r[j]
    decreases |s|
  {
    if s == {} then []
    else
      var k := Least(s);
      var rest := Sorted(s - {k});
      [k] + rest
  }
}
