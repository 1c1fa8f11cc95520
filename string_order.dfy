/**
 * A strict lexicographic order on strings and the sorted enumeration of a
 * finite set of strings it induces. The serialiser uses it to write the keys
 * of a JSON object in a fixed order, so that rendering a dictionary is a
 * function of the dictionary alone.
 */
module StringOrder {

  /** `a` comes strictly before `b` in lexicographic (code-point) order. */
  predicate Below(a: string, b: string)
    decreases |a|
  {
    if a == [] then b != []
    else b != [] && (a[0] < b[0] || (a[0] == b[0] && Below(a[1..], b[1..])))
  }

  lemma {:induction false} BelowIrreflexive(a: string)
    ensures !Below(a, a)
    decreases |a|
  {
    if a != [] { BelowIrreflexive(a[1..]); }
  }

  lemma {:induction false} BelowTransitive(a: string, b: string, c: string)
    requires Below(a, b) && Below(b, c)
    ensures Below(a, c)
    decreases |a|
  {
    if a != [] && a[0] == b[0] && b[0] == c[0] {
      BelowTransitive(a[1..], b[1..], c[1..]);
    }
  }

  lemma {:induction false} BelowTotal(a: string, b: string)
    requires a != b
    ensures Below(a, b) || Below(b, a)
    decreases |a|
  {
    if a != [] && b != [] && a[0] == b[0] {
      assert a == [a[0]] + a[1..] && b == [b[0]] + b[1..];
      BelowTotal(a[1..], b[1..]);
    }
  }

  lemma {:induction false} BelowAsymmetric(a: string, b: string)
    requires Below(a, b)
    ensures !Below(b, a)
  {
    if Below(b, a) {
      BelowTransitive(a, b, a);
      BelowIrreflexive(a);
    }
  }

  /** `k` is the least element of `s`. */
  predicate IsLeast(k: string, s: set<string>) {
    k in s && forall x :: x in s && x != k ==> Below(k, x)
  }

  lemma {:induction false} LeastExists(s: set<string>)
    requires s != {}
    ensures exists k :: IsLeast(k, s)
    decreases s
  {
    var y :| y in s;
    if s != {y} {
      LeastExists(s - {y});
      var k :| IsLeast(k, s - {y});
      if Below(k, y) {
        assert IsLeast(k, s);
      } else {
        forall x | x in s && x != y ensures Below(y, x) {
          if x != k {
            BelowTotal(k, y);
            BelowTransitive(y, k, x);
          } else {
            BelowTotal(k, y);
          }
        }
        assert IsLeast(y, s);
      }
    } else {
      assert IsLeast(y, s);
    }
  }

  lemma LeastUnique(s: set<string>)
    ensures forall k1, k2 :: IsLeast(k1, s) && IsLeast(k2, s) ==> k1 == k2
  {
    forall k1, k2 | IsLeast(k1, s) && IsLeast(k2, s) ensures k1 == k2 {
      if k1 != k2 {
        BelowAsymmetric(k1, k2);
      }
    }
  }

  /** Strictly increasing, hence without duplicates. */
  predicate StrictlySorted(r: seq<string>) {
    forall i, j :: 0 <= i < j < |r| ==> Below(r[i], r[j])
  }

  /** The elements of `s` in increasing order. */
  function SortedKeys(s: set<string>): (r: seq<string>)
    ensures forall k :: k in r <==> k in s
    ensures |r| == |s|
    ensures StrictlySorted(r)
    decreases s
  {
    if s == {} then []
    else
      LeastExists(s);
      LeastUnique(s);
      var k :| IsLeast(k, s);
      var rest := SortedKeys(s - {k});
      assert |s - {k}| == |s| - 1;
      [k] + rest
  }
}
