/**
 * Python's `sorted` on the crop keys of the rule table. Python orders `str`
 * values lexicographically by code point, a proper prefix coming first.
 */
module StringOrder {

  /** `a <= b` on Python strings. */
  predicate LessEq(a: string, b: string)
    decreases |a|
  {
    if a == [] then true
    else if b == [] then false
    else if a[0] != b[0] then a[0] < b[0]
    else LessEq(a[1..], b[1..])
  }

  /** `a < b` on Python strings. */
  predicate Less(a: string, b: string) {
    LessEq(a, b) && a != b
  }

  lemma {:induction false} LessEqReflexive(a: string)
    ensures LessEq(a, a)
    decreases |a|
  {
    if a != [] { LessEqReflexive(a[1..]); }
  }

  lemma {:induction false} LessEqAntisymmetric(a: string, b: string)
    requires LessEq(a, b) && LessEq(b, a)
    ensures a == b
    decreases |a|
  {
    if a != [] {
      LessEqAntisymmetric(a[1..], b[1..]);
      assert a == [a[0]] + a[1..] && b == [b[0]] + b[1..];
    }
  }

  lemma {:induction false} LessEqTransitive(a: string, b: string, c: string)
    requires LessEq(a, b) && LessEq(b, c)
    ensures LessEq(a, c)
    decreases |a|
  {
    if a != [] && a[0] == b[0] && b[0] == c[0] {
      LessEqTransitive(a[1..], b[1..], c[1..]);
    }
  }

  lemma {:induction false} LessEqTotal(a: string, b: string)
    ensures LessEq(a, b) || LessEq(b, a)
    decreases |a|
  {
    if a != [] && b != [] && a[0] == b[0] {
      LessEqTotal(a[1..], b[1..]);
    }
  }

  /** `m` is the smallest string of `s`. */
  predicate IsLeast(m: string, s: set<string>) {
    m in s && forall x :: x in s ==> LessEq(m, x)
  }

  /** Every non-empty finite set of strings has a smallest element. */
  lemma {:induction false} LeastExists(s: set<string>)
    requires s != {}
    ensures exists m :: IsLeast(m, s)
    decreases s
  {
    var x :| x in s;
    LessEqReflexive(x);
    if s == {x} {
      assert IsLeast(x, s);
    } else {
      LeastExists(s - {x});
      var m :| IsLeast(m, s - {x});
      LessEqTotal(m, x);
      if LessEq(m, x) {
        assert IsLeast(m, s);
      } else {
        forall y | y in s ensures LessEq(x, y) {
          if y != x { LessEqTransitive(x, m, y); }
        }
        assert IsLeast(x, s);
      }
    }
  }

  /** There is at most one smallest element. */
  lemma LeastUnique(s: set<string>)
    ensures forall m, m' :: IsLeast(m, s) && IsLeast(m', s) ==> m == m'
  {
    forall m, m' | IsLeast(m, s) && IsLeast(m', s) ensures m == m' {
      LessEqAntisymmetric(m, m');
    }
  }

  /** Strictly ascending: sorted and free of duplicates. */
  predicate StrictlyAscending(r: seq<string>) {
    forall i, j :: 0 <= i < j < |r| ==> Less(r[i], r[j])
  }

  /** `r` lists exactly the strings of `s`, each once, in ascending order. */
  ghost predicate ListsInOrder(r: seq<string>, s: set<string>) {
    && StrictlyAscending(r)
    && |r| == |s|
    && (forall x :: x in s <==> x in r)
  }

  /** `sorted(s)` for a set of distinct keys. */
  function SortedKeys(s: set<string>): (r: seq<string>)
    ensures ListsInOrder(r, s)
    decreases s
  {
    if s == {} then []
    else
      LeastExists(s);
      LeastUnique(s);
      var m :| IsLeast(m, s);
      var rest := SortedKeys(s - {m});
      assert forall j :: 0 <= j < |rest| ==> Less(m, rest[j]) by {
        forall j | 0 <= j < |rest| ensures Less(m, rest[j]) {
          assert rest[j] in s - {m};
        }
      }
      [m] + rest
  }

  /** Two strictly ascending listings of the same strings are the same listing. */
  lemma {:induction false} ListingUnique(a: seq<string>, b: seq<string>)
    requires StrictlyAscending(a) && StrictlyAscending(b)
    requires |a| == |b| && forall x :: x in a <==> x in b
    ensures a == b
    decreases |a|
  {
    if a != [] {
      assert a[0] in b;
      assert b != [] && b[0] in a;
      // Each head is at most every element of its own listing, hence of the other.
      var i :| 0 <= i < |a| && a[i] == b[0];
      var j :| 0 <= j < |b| && b[j] == a[0];
      if i != 0 && j != 0 {
        assert Less(a[0], a[i]) && Less(b[0], b[j]);
        LessEqAntisymmetric(a[0], b[0]);
      }
      assert a[0] == b[0];
      forall x ensures x in a[1..] <==> x in b[1..] {
        if x in a[1..] {
          var k :| 1 <= k < |a| && a[k] == x;
          assert Less(a[0], a[k]);
          assert a[k] in a && x in b;
          var l :| 0 <= l < |b| && b[l] == x;
          assert l != 0 && b[1..][l - 1] == x;
        }
        if x in b[1..] {
          var k :| 1 <= k < |b| && b[k] == x;
          assert Less(b[0], b[k]);
          assert b[k] in b && x in a;
          var l :| 0 <= l < |a| && a[l] == x;
          assert l != 0 && a[1..][l - 1] == x;
        }
      }
      ListingUnique(a[1..], b[1..]);
      assert a == [a[0]] + a[1..] && b == [b[0]] + b[1..];
    }
  }

  /** The ascending listing of a set is unique, so `SortedKeys` is the only one. */
  lemma SortedKeysUnique(r: seq<string>, s: set<string>)
    requires ListsInOrder(r, s)
    ensures r == SortedKeys(s)
  {
    ListingUnique(r, SortedKeys(s));
  }
}
