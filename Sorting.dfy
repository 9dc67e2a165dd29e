/** Python's `sorted(xs, key=..., reverse=...)` and `list.sort`: an
    insertion sort over a strict order `lt` ("must come before"), with its
    promises proved — the result is in order, is a permutation of the input,
    and, ordered by a key, keeps elements of equal key in their input order
    (stability) — and Python's lexicographic order on `str`. */
module Sorting {

  import Seqs

  /** `lt` is a strict order: irreflexive and transitive (so asymmetric). */
  ghost predicate StrictOrder<T(!new)>(lt: (T, T) -> bool) {
    (forall a :: !lt(a, a))
    && (forall a, b, c :: lt(a, b) && lt(b, c) ==> lt(a, c))
  }

  /** No element is placed after one it must come before. */
  predicate Sorted<T>(s: seq<T>, lt: (T, T) -> bool) {
    forall i, j :: 0 <= i < j < |s| ==> !lt(s[j], s[i])
  }

  /** Puts `x` after every element it need not precede: equal elements keep
      their order, which makes the sort stable. */
  function Insert<T>(x: T, s: seq<T>, lt: (T, T) -> bool): (r: seq<T>)
    ensures multiset(r) == multiset(s) + multiset{x}
    ensures |r| == |s| + 1
    decreases |s|
  {
    if s == [] then [x]
    else if lt(x, s[0]) then [x] + s
    else
      var rest := Insert(x, s[1..], lt);
      assert s == [s[0]] + s[1..];
      [s[0]] + rest
  }

  function Sort<T>(s: seq<T>, lt: (T, T) -> bool): (r: seq<T>)
    ensures multiset(r) == multiset(s)
    ensures |r| == |s|
    decreases |s|
  {
    if s == [] then []
    else
      assert s == s[..|s| - 1] + [s[|s| - 1]];
      Insert(s[|s| - 1], Sort(s[..|s| - 1], lt), lt)
  }

  lemma {:induction false} InsertSorted<T(!new)>(x: T, s: seq<T>, lt: (T, T) -> bool)
    requires StrictOrder(lt) && Sorted(s, lt)
    ensures Sorted(Insert(x, s, lt), lt)
    decreases |s|
  {
    if s != [] && !lt(x, s[0]) {
      InsertSorted(x, s[1..], lt);
      var rest := Insert(x, s[1..], lt);
      var r := [s[0]] + rest;
      assert multiset(rest) == multiset(s[1..]) + multiset{x};
      forall j | 1 <= j < |r| ensures !lt(r[j], s[0]) {
        assert r[j] == rest[j - 1];
        assert rest[j - 1] in multiset(rest);
        if rest[j - 1] != x {
          assert rest[j - 1] in multiset(s[1..]);
          var k :| 0 <= k < |s[1..]| && s[1..][k] == rest[j - 1];
          assert s[k + 1] == rest[j - 1];
        }
      }
    } else if s != [] {
      var r := [x] + s;
      forall i, j | 0 <= i < j < |r| ensures !lt(r[j], r[i]) {
        if i == 0 {
          assert r[j] == s[j - 1];
          if j - 1 > 0 {
            assert !lt(s[j - 1], s[0]);
          }
        }
      }
    }
  }

  lemma {:induction false} SortSorted<T(!new)>(s: seq<T>, lt: (T, T) -> bool)
    requires StrictOrder(lt)
    ensures Sorted(Sort(s, lt), lt)
    decreases |s|
  {
    if s != [] {
      SortSorted(s[..|s| - 1], lt);
      InsertSorted(s[|s| - 1], Sort(s[..|s| - 1], lt), lt);
    }
  }

  /** Sorting keeps exactly the elements of the input. */
  lemma SortMembers<T>(s: seq<T>, lt: (T, T) -> bool, x: T)
    ensures x in Sort(s, lt) <==> x in s
  {
    assert x in multiset(Sort(s, lt)) <==> x in multiset(s);
  }

  // --------------------------------------------------- orders used here

  /** Descending by a real key, as `sort(key=k, reverse=True)`. */
  function ByKeyDesc<T>(key: T -> real): (lt: (T, T) -> bool)
  {
    (a, b) => key(a) > key(b)
  }

  lemma ByKeyDescStrict<T(!new)>(key: T -> real)
    ensures StrictOrder(ByKeyDesc(key))
  {
  }

  /** The elements whose key is `v`. */
  function KeyIs<T>(key: T -> real, v: real): T -> bool {
    (e: T) => key(e) == v
  }

  /** Inserting into a list in descending key order puts `x` after every
      element with the same key. */
  lemma {:induction false} InsertStable<T>(x: T, s: seq<T>, key: T -> real, v: real)
    requires Sorted(s, ByKeyDesc(key))
    ensures Seqs.Filter(Insert(x, s, ByKeyDesc(key)), KeyIs(key, v)) == Seqs.Filter(s + [x], KeyIs(key, v))
    decreases |s|
  {
    var p := KeyIs(key, v);
    Seqs.FilterSnoc(s, x, p);
    if s != [] {
      assert s == [s[0]] + s[1..];
      if ByKeyDesc(key)(x, s[0]) {
        // every element of `s` has a key at most s[0]'s, below x's, so
        // none has x's key
        forall e | e in s
          ensures key(e) < key(x)
        {
          var i :| 0 <= i < |s| && s[i] == e;
          if i > 0 {
            assert !ByKeyDesc(key)(s[i], s[0]);
          }
        }
        if key(x) == v {
          Seqs.FilterNone(s, p);
        }
      } else {
        InsertStable(x, s[1..], key, v);
        Seqs.FilterSnoc(s[1..], x, p);
      }
    }
  }

  /** The sort is stable: the elements sharing a key keep their order. */
  lemma {:induction false} SortStable<T(!new)>(s: seq<T>, key: T -> real, v: real)
    ensures Seqs.Filter(Sort(s, ByKeyDesc(key)), KeyIs(key, v)) == Seqs.Filter(s, KeyIs(key, v))
    decreases |s|
  {
    if s != [] {
      var init := s[..|s| - 1];
      var last := s[|s| - 1];
      SortStable(init, key, v);
      ByKeyDescStrict(key);
      SortSorted(init, ByKeyDesc(key));
      InsertStable(last, Sort(init, ByKeyDesc(key)), key, v);
      Seqs.FilterSnoc(Sort(init, ByKeyDesc(key)), last, KeyIs(key, v));
      Seqs.FilterSnoc(init, last, KeyIs(key, v));
      assert s == init + [last];
    }
  }

  /** Python's `str` comparison `a < b`: code point by code point, a proper
      prefix first. */
  predicate StrLt(a: string, b: string)
    decreases |a|
  {
    if a == [] then b != []
    else if b == [] then false
    else a[0] < b[0] || (a[0] == b[0] && StrLt(a[1..], b[1..]))
  }

  lemma {:induction false} StrLtIrreflexive(a: string)
    ensures !StrLt(a, a)
    decreases |a|
  {
    if a != [] {
      StrLtIrreflexive(a[1..]);
    }
  }

  lemma {:induction false} StrLtTransitive(a: string, b: string, c: string)
    requires StrLt(a, b) && StrLt(b, c)
    ensures StrLt(a, c)
    decreases |a|
  {
    if a != [] && a[0] == b[0] && b[0] == c[0] {
      StrLtTransitive(a[1..], b[1..], c[1..]);
    }
  }

  /** Two different strings are always ordered one way or the other. */
  lemma {:induction false} StrLtTotal(a: string, b: string)
    requires a != b
    ensures StrLt(a, b) || StrLt(b, a)
    decreases |a|
  {
    if a != [] && b != [] && a[0] == b[0] {
      assert a == [a[0]] + a[1..] && b == [b[0]] + b[1..];
      StrLtTotal(a[1..], b[1..]);
    }
  }

  function Ascending(): (lt: (string, string) -> bool)
  {
    (a, b) => StrLt(a, b)
  }

  /** Descending string order, as `sort(key=str, reverse=True)`. */
  function Descending(): (lt: (string, string) -> bool)
  {
    (a, b) => StrLt(b, a)
  }

  lemma AscendingStrict()
    ensures StrictOrder(Ascending())
  {
    forall a ensures !StrLt(a, a) { StrLtIrreflexive(a); }
    forall a, b, c | StrLt(a, b) && StrLt(b, c) ensures StrLt(a, c) {
      StrLtTransitive(a, b, c);
    }
  }

  lemma DescendingStrict()
    ensures StrictOrder(Descending())
  {
    forall a ensures !StrLt(a, a) { StrLtIrreflexive(a); }
    forall a, b, c | StrLt(b, a) && StrLt(c, b) ensures StrLt(c, a) {
      StrLtTransitive(c, b, a);
    }
  }

  /** `sorted(set(xs))` for strings: the distinct elements, strictly
      ascending. */
  function SortedDistinct(xs: seq<string>): (r: seq<string>)
    ensures forall i, j :: 0 <= i < j < |r| ==> StrLt(r[i], r[j])
    ensures forall x :: x in r <==> x in xs
    ensures |r| <= |xs|
  {
    var d := Seqs.Dedup(xs);
    var r := Sort(d, Ascending());
    AscendingStrict();
    SortSorted(d, Ascending());
    assert multiset(r) == multiset(d);
    forall i, j | 0 <= i < j < |r| ensures StrLt(r[i], r[j]) {
      assert !StrLt(r[j], r[i]);
      DistinctAfterPermutation(d, r, i, j);
      StrLtTotal(r[i], r[j]);
    }
    forall x ensures x in r <==> x in xs {
      assert x in r <==> x in multiset(d);
    }
    r
  }

  lemma DistinctAfterPermutation<T>(d: seq<T>, r: seq<T>, i: nat, j: nat)
    requires Seqs.Distinct(d) && multiset(r) == multiset(d)
    requires i < j < |r|
    ensures r[i] != r[j]
  {
    if r[i] == r[j] {
      var m := multiset(r[..i + 1]) + multiset(r[i + 1..]);
      assert r == r[..i + 1] + r[i + 1..];
      assert r[i] in r[..i + 1];
      assert r[j] == r[i + 1..][j - i - 1];
      assert multiset(r)[r[i]] >= 2;
      DistinctCount(d, r[i]);
    }
  }

  lemma {:induction false} DistinctCount<T>(d: seq<T>, x: T)
    requires Seqs.Distinct(d)
    ensures multiset(d)[x] <= 1
    decreases |d|
  {
    if d != [] {
      assert d == [d[0]] + d[1..];
      DistinctCount(d[1..], x);
      if d[0] == x {
        assert x !in d[1..];
      }
    }
  }
}
