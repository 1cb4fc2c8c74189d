/**
 * Orderings the backup tool borrows from JavaScript: string comparison with
 * `<`, sorting distinct strings in descending order (what `Array.prototype.sort`
 * does with the comparator `(a, b) => (a < b ? 1 : -1)` on distinct keys), and
 * de-duplication in first-occurrence order (what `new Set(xs)` keeps).
 */
module Order {

  /** `a < b` on strings: lexicographic, a proper prefix comes first. */
  predicate Below(a: string, b: string) {
    if a == [] then b != []
    else if b == [] then false
    else if a[0] != b[0] then a[0] < b[0]
    else Below(a[1..], b[1..])
  }

  lemma {:induction false} BelowIrreflexive(a: string)
    ensures !Below(a, a)
  {
    if a != [] {
      BelowIrreflexive(a[1..]);
    }
  }

  lemma {:induction false} BelowAsymmetric(a: string, b: string)
    requires Below(a, b)
    ensures !Below(b, a)
  {
    if a != [] && b != [] && a[0] == b[0] {
      BelowAsymmetric(a[1..], b[1..]);
    }
  }

  lemma {:induction false} BelowTransitive(a: string, b: string, c: string)
    requires Below(a, b) && Below(b, c)
    ensures Below(a, c)
  {
    if a != [] && b != [] && c != [] && a[0] == b[0] && b[0] == c[0] {
      BelowTransitive(a[1..], b[1..], c[1..]);
    }
  }

  lemma {:induction false} BelowTotal(a: string, b: string)
    requires a != b
    ensures Below(a, b) || Below(b, a)
  {
    if a != [] && b != [] && a[0] == b[0] {
      assert a == [a[0]] + a[1..] && b == [b[0]] + b[1..];
      BelowTotal(a[1..], b[1..]);
    }
  }

  predicate Distinct<T(==)>(s: seq<T>) {
    forall i, j :: 0 <= i < j < |s| ==> s[i] != s[j]
  }

  /** Strictly decreasing in string order. */
  predicate Descending(s: seq<string>) {
    forall i, j :: 0 <= i < j < |s| ==> Below(s[j], s[i])
  }

  function InsertDescending(x: string, s: seq<string>): (r: seq<string>)
    ensures multiset(r) == multiset(s) + multiset{x}
    ensures Descending(s) && x !in s ==> Descending(r)
  {
    if s == [] then [x]
    else if Below(s[0], x) then
      var r := [x] + s;
      assert Descending(s) ==> Descending(r) by {
        if Descending(s) {
          forall j | 1 <= j < |r| ensures Below(r[j], r[0]) {
            if j > 1 { BelowTransitive(s[j - 1], s[0], x); }
          }
        }
      }
      r
    else
      var t := InsertDescending(x, s[1..]);
      var r := [s[0]] + t;
      assert s == [s[0]] + s[1..];
      assert Descending(s) && x !in s ==> Descending(r) by {
        if Descending(s) && x !in s {
          BelowTotal(s[0], x);
          forall j | 1 <= j < |r| ensures Below(r[j], r[0]) {
            assert r[j] in multiset(t);
            assert r[j] == x || r[j] in s[1..];
          }
        }
      }
      r
  }

  /** The distinct strings of `s`, greatest first. */
  function SortDescending(s: seq<string>): (r: seq<string>)
    ensures multiset(r) == multiset(s)
    ensures Distinct(s) ==> Descending(r)
  {
    if s == [] then []
    else
      var t := SortDescending(s[1..]);
      assert s == [s[0]] + s[1..];
      assert Distinct(s) ==> s[0] !in multiset(t);
      InsertDescending(s[0], t)
  }

  /** `Array.from(new Set(s))`: each element once, where it first occurs. */
  function Dedup<T(==)>(s: seq<T>): (r: seq<T>)
    ensures forall i :: 0 <= i < |r| ==> r[i] in s
    ensures forall i :: 0 <= i < |s| ==> s[i] in r
    ensures Distinct(r)
  {
    if s == [] then []
    else
      var d := Dedup(s[..|s| - 1]);
      assert s == s[..|s| - 1] + [s[|s| - 1]];
      if s[|s| - 1] in d then d else d + [s[|s| - 1]]
  }

  /** Index of the first occurrence of `x` in `s`. */
  function FirstIndex<T(==)>(s: seq<T>, x: T): (i: nat)
    requires x in s
    ensures i < |s| && s[i] == x && x !in s[..i]
  {
    if s[0] == x then 0
    else
      assert x in s[1..];
      var i := FirstIndex(s[1..], x);
      assert s[..i + 1] == [s[0]] + s[1..][..i];
      i + 1
  }

  lemma {:induction false} FirstIndexAtMost<T>(s: seq<T>, x: T, m: nat)
    requires m < |s| && s[m] == x
    ensures FirstIndex(s, x) <= m
  {
    if s[0] != x {
      FirstIndexAtMost(s[1..], x, m - 1);
    }
  }

  lemma FirstIndexOfPrefix<T>(s: seq<T>, k: nat, x: T)
    requires k <= |s| && x in s[..k]
    ensures FirstIndex(s, x) == FirstIndex(s[..k], x)
  {
    var i := FirstIndex(s[..k], x);
    FirstIndexAtMost(s, x, i);
    var j := FirstIndex(s, x);
    FirstIndexAtMost(s[..k], x, j);
  }

  /** De-duplication keeps the first-occurrence order of the input. */
  lemma {:induction false} DedupOrder<T>(s: seq<T>)
    ensures forall i, j :: 0 <= i < j < |Dedup(s)| ==> FirstIndex(s, Dedup(s)[i]) < FirstIndex(s, Dedup(s)[j])
  {
    if s != [] {
      var p := s[..|s| - 1];
      var d := Dedup(p);
      DedupOrder(p);
      forall x | x in d ensures FirstIndex(s, x) == FirstIndex(p, x) {
        assert s[..|s| - 1] == p;
        FirstIndexOfPrefix(s, |s| - 1, x);
      }
      var last := s[|s| - 1];
      if last !in d {
        assert last !in p;
        assert FirstIndex(s, last) == |s| - 1;
      }
    }
  }

  /** De-duplication keeps the first element in front. */
  lemma {:induction false} DedupHead<T>(s: seq<T>)
    requires s != []
    ensures Dedup(s) != [] && Dedup(s)[0] == s[0]
  {
    DedupOrder(s);
    var r := Dedup(s);
    assert s[0] in r;
    var k :| 0 <= k < |r| && r[k] == s[0];
    assert FirstIndex(s, r[0]) <= FirstIndex(s, r[k]) == 0;
    assert s[FirstIndex(s, r[0])] == r[0];
  }

  /** Without duplicates there is nothing to drop. */
  lemma {:induction false} DedupDistinct<T>(s: seq<T>)
    requires Distinct(s)
    ensures Dedup(s) == s
  {
    if s != [] {
      var p := s[..|s| - 1];
      DedupDistinct(p);
      assert s == p + [s[|s| - 1]];
      assert s[|s| - 1] !in p;
    }
  }

  /** Without duplicates every element occurs once. */
  lemma {:induction false} DistinctOnce<T>(s: seq<T>, x: T)
    requires Distinct(s)
    ensures multiset(s)[x] <= 1
  {
    if s != [] {
      var p := s[..|s| - 1];
      assert s == p + [s[|s| - 1]];
      DistinctOnce(p, x);
      if s[|s| - 1] == x {
        assert x !in p;
      }
    }
  }

  /** A permutation of a sequence without duplicates has none. */
  lemma DistinctPermutation<T>(a: seq<T>, b: seq<T>)
    requires Distinct(a) && multiset(a) == multiset(b)
    ensures Distinct(b)
  {
    forall i, j | 0 <= i < j < |b| ensures b[i] != b[j] {
      if b[i] == b[j] {
        var x := b[i];
        assert b == b[..j] + b[j..];
        assert x in b[..j];
        assert x in b[j..];
        assert multiset(b)[x] == multiset(b[..j])[x] + multiset(b[j..])[x];
        DistinctOnce(a, x);
        assert false;
      }
    }
  }

  /** A common prefix does not change the order. */
  lemma {:induction false} BelowCommonPrefix(p: string, a: string, b: string)
    ensures Below(p + a, p + b) == Below(a, b)
  {
    if p == [] {
      assert p + a == a && p + b == b;
    } else {
      assert (p + a)[0] == p[0] == (p + b)[0];
      assert (p + a)[1..] == p[1..] + a;
      assert (p + b)[1..] == p[1..] + b;
      BelowCommonPrefix(p[1..], a, b);
    }
  }
}
