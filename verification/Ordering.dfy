/** Python's order on strings, and the duplicate-free ascending list of a set of keys. */
module Ordering {

  predicate Less(a: string, b: string) {
    b != [] && (a == [] || a[0] < b[0] || (a[0] == b[0] && Less(a[1..], b[1..])))
  }

  lemma Irreflexive(a: string)
    ensures !Less(a, a)
  {}

  lemma {:induction false} Total(a: string, b: string)
    ensures a == b || Less(a, b) || Less(b, a)
  {
    if a != [] && b != [] && a[0] == b[0] {
      Total(a[1..], b[1..]);
      assert a == [a[0]] + a[1..] && b == [b[0]] + b[1..];
    }
  }

  lemma {:induction false} Transitive(a: string, b: string, c: string)
    requires Less(a, b) && Less(b, c)
    ensures Less(a, c)
  {
    if a != [] && a[0] == b[0] == c[0] {
      Transitive(a[1..], b[1..], c[1..]);
    }
  }

  predicate IsLeast(m: string, ks: set<string>) {
    m in ks && forall k | k in ks :: k == m || Less(m, k)
  }

  lemma {:induction false} LeastExists(ks: set<string>)
    requires ks != {}
    ensures exists m :: IsLeast(m, ks)
  {
    var x :| x in ks;
    if ks == {x} {
      assert IsLeast(x, ks);
    } else {
      LeastExists(ks - {x});
      var m :| IsLeast(m, ks - {x});
      Total(m, x);
      if Less(m, x) {
        assert IsLeast(m, ks);
      } else {
        forall k | k in ks && k != x && k != m ensures Less(x, k) { Transitive(x, m, k); }
        assert IsLeast(x, ks);
      }
    }
  }

  lemma LeastUnique(m: string, n: string, ks: set<string>)
    requires IsLeast(m, ks) && IsLeast(n, ks)
    ensures m == n
  {
    if m != n {
      Transitive(m, n, m);
      Irreflexive(m);
    }
  }

  function Least(ks: set<string>): (m: string)
    requires ks != {}
    ensures IsLeast(m, ks)
  {
    LeastExists(ks);
    assert forall m, n | IsLeast(m, ks) && IsLeast(n, ks) :: m == n by {
      forall m, n | IsLeast(m, ks) && IsLeast(n, ks) ensures m == n { LeastUnique(m, n, ks); }
    }
    var m :| IsLeast(m, ks);
    m
  }

  predicate Ascending(r: seq<string>) {
    forall i, j | 0 <= i < j < |r| :: Less(r[i], r[j])
  }

  function SortedKeys(ks: set<string>): (r: seq<string>)
    ensures Ascending(r)
    ensures forall k :: k in r <==> k in ks
    ensures |r| == |ks|
  {
    if ks == {} then [] else
    var m := Least(ks);
    var rest := SortedKeys(ks - {m});
    assert forall j | 0 <= j < |rest| :: Less(m, rest[j]) by {
      forall j | 0 <= j < |rest| ensures Less(m, rest[j]) { assert rest[j] in ks - {m}; }
    }
    [m] + rest
  }

  lemma AscendingDistinct(r: seq<string>)
    requires Ascending(r)
    ensures forall i, j | 0 <= i < j < |r| :: r[i] != r[j]
  {
    forall i, j | 0 <= i < j < |r| ensures r[i] != r[j] { Irreflexive(r[i]); }
  }
}
