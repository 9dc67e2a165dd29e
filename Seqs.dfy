/** Small list facts shared by the analysers: membership counts, removal of
    repeats in first-occurrence order (what `dict.fromkeys`, a "seen" set or
    an insertion-ordered dict gives), and prefixes of at most `n` elements
    (Python's `xs[:n]`). */
module Seqs {

  import opened Wrappers

  /** How many times `x` occurs in `s`. */
  function Count<T(==)>(s: seq<T>, x: T): (n: nat)
    ensures n <= |s|
    ensures n > 0 <==> x in s
  {
    if s == [] then 0 else (if s[0] == x then 1 else 0) + Count(s[1..], x)
  }

  lemma {:induction false} CountAppend<T>(a: seq<T>, b: seq<T>, x: T)
    ensures Count(a + b, x) == Count(a, x) + Count(b, x)
    decreases |a|
  {
    if a == [] {
      assert a + b == b;
    } else {
      assert (a + b)[1..] == a[1..] + b;
      CountAppend(a[1..], b, x);
    }
  }

  predicate Distinct<T(==)>(s: seq<T>) {
    forall i, j :: 0 <= i < j < |s| ==> s[i] != s[j]
  }

  /** `s` without repeats, each element kept at its first occurrence. */
  function Dedup<T(==)>(s: seq<T>): (r: seq<T>)
    ensures Distinct(r)
    ensures forall i :: 0 <= i < |r| ==> r[i] in s
    ensures forall i :: 0 <= i < |s| ==> s[i] in r
    ensures |r| <= |s|
  {
    var r := DedupAfter([], s);
    assert [] + r == r;
    r
  }

  /** Appends to `seen` the elements of `s` not seen yet, in order. */
  function DedupAfter<T(==)>(seen: seq<T>, s: seq<T>): (r: seq<T>)
    requires Distinct(seen)
    ensures Distinct(seen + r)
    ensures forall i :: 0 <= i < |r| ==> r[i] in s && r[i] !in seen
    ensures forall i :: 0 <= i < |s| ==> s[i] in seen || s[i] in r
    ensures |r| <= |s|
    decreases |s|
  {
    if s == [] then []
    else if s[0] in seen then DedupAfter(seen, s[1..])
    else
      var rest := DedupAfter(seen + [s[0]], s[1..]);
      assert seen + [s[0]] + rest == seen + ([s[0]] + rest);
      [s[0]] + rest
  }

  /** `s[:n]`. */
  function Take<T>(s: seq<T>, n: nat): (r: seq<T>)
    ensures |r| == if |s| <= n then |s| else n
    ensures r == s[..|r|]
  {
    if |s| <= n then s else s[..n]
  }

  /** The elements of `s` satisfying `p`, in order: a list comprehension with
      a condition. */
  function Filter<T>(s: seq<T>, p: T -> bool): (r: seq<T>)
    ensures |r| <= |s|
    ensures forall i :: 0 <= i < |r| ==> r[i] in s && p(r[i])
    ensures forall i :: 0 <= i < |s| ==> p(s[i]) ==> s[i] in r
    decreases |s|
  {
    if s == [] then []
    else if p(s[0]) then [s[0]] + Filter(s[1..], p)
    else Filter(s[1..], p)
  }

  lemma {:induction false} FilterAppend<T>(a: seq<T>, b: seq<T>, p: T -> bool)
    ensures Filter(a + b, p) == Filter(a, p) + Filter(b, p)
    decreases |a|
  {
    if a == [] {
      assert a + b == b;
    } else {
      assert (a + b)[1..] == a[1..] + b;
      FilterAppend(a[1..], b, p);
    }
  }

  /** Membership in a filtered list. */
  lemma FilterMember<T>(s: seq<T>, p: T -> bool, x: T)
    ensures x in Filter(s, p) <==> x in s && p(x)
  {
    if x in s && p(x) {
      var i :| 0 <= i < |s| && s[i] == x;
    }
  }

  /** Filtering a list without repeats leaves a list without repeats. */
  lemma {:induction false} FilterDistinct<T>(s: seq<T>, p: T -> bool)
    requires Distinct(s)
    ensures Distinct(Filter(s, p))
    decreases |s|
  {
    if s != [] {
      FilterDistinct(s[1..], p);
      FilterMember(s[1..], p, s[0]);
      assert s[0] !in s[1..] by {
        forall j | 0 <= j < |s[1..]| ensures s[1..][j] != s[0] {
          assert s[1..][j] == s[j + 1];
        }
      }
    }
  }

  /** A filter keeps nothing exactly when no element passes, and keeps
      everything exactly when every element passes. */
  lemma {:induction false} FilterLength<T>(s: seq<T>, p: T -> bool)
    ensures |Filter(s, p)| == 0 <==> forall i :: 0 <= i < |s| ==> !p(s[i])
    ensures |Filter(s, p)| == |s| <==> forall i :: 0 <= i < |s| ==> p(s[i])
    decreases |s|
  {
    if s != [] {
      FilterLength(s[1..], p);
      assert forall i :: 1 <= i < |s| ==> s[i] == s[1..][i - 1];
      if !p(s[0]) {
        assert |Filter(s, p)| == |Filter(s[1..], p)| <= |s[1..]|;
      }
    }
  }

  /** Pointwise more passing elements means a longer filter. */
  lemma {:induction false} FilterLengthMonotone<T>(a: seq<T>, b: seq<T>, p: T -> bool)
    requires |a| == |b|
    requires forall i :: 0 <= i < |a| ==> p(a[i]) ==> p(b[i])
    ensures |Filter(a, p)| <= |Filter(b, p)|
    decreases |a|
  {
    if a != [] {
      assert forall i :: 1 <= i < |a| ==> a[i] == a[1..][i - 1] && b[i] == b[1..][i - 1];
      FilterLengthMonotone(a[1..], b[1..], p);
    }
  }

  /** A filter that keeps every element changes nothing. */
  lemma {:induction false} FilterAll<T>(s: seq<T>, p: T -> bool)
    requires forall i :: 0 <= i < |s| ==> p(s[i])
    ensures Filter(s, p) == s
    decreases |s|
  {
    if s != [] {
      FilterAll(s[1..], p);
    }
  }

  /** A filter that keeps no element leaves nothing. */
  lemma {:induction false} FilterNone<T>(s: seq<T>, p: T -> bool)
    requires forall i :: 0 <= i < |s| ==> !p(s[i])
    ensures Filter(s, p) == []
    decreases |s|
  {
    if s != [] {
      FilterNone(s[1..], p);
    }
  }

  /** Filtering a list grown by one. */
  lemma FilterSnoc<T>(s: seq<T>, x: T, p: T -> bool)
    ensures Filter(s + [x], p) == Filter(s, p) + (if p(x) then [x] else [])
  {
    FilterAppend(s, [x], p);
    assert Filter([x], p) == if p(x) then [x] else [];
  }

  /** Filtering one more element of `s`, by position. */
  lemma FilterStep<T>(s: seq<T>, i: nat, p: T -> bool)
    requires i < |s|
    ensures Filter(s[..i + 1], p) == Filter(s[..i], p) + (if p(s[i]) then [s[i]] else [])
  {
    assert s[..i + 1] == s[..i] + [s[i]];
    FilterSnoc(s[..i], s[i], p);
  }

  /** Removing repeats from a list grown by one element: the element is
      appended when it is new. This is how an insertion-ordered dict grows. */
  lemma DedupSnoc<T>(s: seq<T>, x: T)
    ensures Dedup(s + [x]) == if x in s then Dedup(s) else Dedup(s) + [x]
  {
    DedupAfterSnoc([], s, x);
  }

  lemma {:induction false} DedupAfterSnoc<T>(seen: seq<T>, s: seq<T>, x: T)
    requires Distinct(seen)
    ensures DedupAfter(seen, s + [x])
            == if x in seen || x in s then DedupAfter(seen, s) else DedupAfter(seen, s) + [x]
    decreases |s|
  {
    if s == [] {
      assert [] + [x] == [x];
      assert ([x])[1..] == [];
      if x !in seen {
        assert Distinct(seen + [x]) by {
          assert forall i, j :: 0 <= i < j < |seen + [x]| ==> (seen + [x])[i] != (seen + [x])[j] by {
            forall i, j | 0 <= i < j < |seen + [x]| ensures (seen + [x])[i] != (seen + [x])[j] {
              if j < |seen| {} else { assert (seen + [x])[i] == seen[i]; }
            }
          }
        }
      }
    } else {
      assert (s + [x])[0] == s[0];
      assert (s + [x])[1..] == s[1..] + [x];
      if s[0] in seen {
        DedupAfterSnoc(seen, s[1..], x);
      } else {
        DedupAfterSnoc(seen + [s[0]], s[1..], x);
      }
    }
  }

  lemma DedupFilterStart<T>(before: seq<T>, s: seq<T>, p: T -> bool)
    ensures Dedup(before + Filter(s[..0], p)) == Dedup(before)
  {
    assert before + Filter(s[..0], p) == before;
  }

  /** One step of adding the kept elements of `s` to a set collected in
      order: the element is added when it is kept and new. */
  lemma DedupFilterStep<T>(before: seq<T>, s: seq<T>, j: nat, p: T -> bool)
    requires j < |s|
    ensures var d := Dedup(before + Filter(s[..j], p));
            Dedup(before + Filter(s[..j + 1], p)) == if p(s[j]) && s[j] !in d then d + [s[j]] else d
  {
    var x := s[j];
    assert s[..j + 1] == s[..j] + [x];
    FilterSnoc(s[..j], x, p);
    var got := before + Filter(s[..j], p);
    if p(x) {
      assert before + Filter(s[..j + 1], p) == got + [x];
      DedupSnoc(got, x);
    } else {
      assert before + Filter(s[..j + 1], p) == got;
    }
  }

  /** Splitting a list by a test and by its negation loses nothing and
      invents nothing. */
  lemma {:induction false} FilterPartition<T>(s: seq<T>, p: T -> bool, q: T -> bool)
    requires forall x :: q(x) == !p(x)
    ensures multiset(Filter(s, p)) + multiset(Filter(s, q)) == multiset(s)
    ensures |Filter(s, p)| + |Filter(s, q)| == |s|
    decreases |s|
  {
    if s != [] {
      FilterPartition(s[1..], p, q);
      assert s == [s[0]] + s[1..];
    }
  }

  /** Two filters can be applied in either order. */
  lemma {:induction false} FilterCommute<T>(s: seq<T>, p: T -> bool, q: T -> bool)
    ensures Filter(Filter(s, p), q) == Filter(Filter(s, q), p)
    decreases |s|
  {
    if s != [] {
      FilterCommute(s[1..], p, q);
      var x, t := s[0], s[1..];
      if p(x) {
        assert ([x] + Filter(t, p))[0] == x && ([x] + Filter(t, p))[1..] == Filter(t, p);
      }
      if q(x) {
        assert ([x] + Filter(t, q))[0] == x && ([x] + Filter(t, q))[1..] == Filter(t, q);
      }
    }
  }

  /** `[f(x) for x in s]`. */
  function Map<A, B>(s: seq<A>, f: A -> B): (r: seq<B>)
    ensures |r| == |s|
  {
    seq(|s|, i requires 0 <= i < |s| => f(s[i]))
  }

  /** The largest `f(x)` over `s`, or 0 for an empty `s`. */
  function MaxOf<T>(s: seq<T>, f: T -> nat): (m: nat)
    ensures forall i :: 0 <= i < |s| ==> f(s[i]) <= m
    ensures m == 0 || exists i :: 0 <= i < |s| && f(s[i]) == m
    decreases |s|
  {
    if s == [] then 0
    else
      var rest := MaxOf(s[1..], f);
      assert forall i :: 1 <= i < |s| ==> s[i] == s[1..][i - 1];
      if f(s[0]) > rest then f(s[0]) else rest
  }

  lemma MapAppend<A, B>(a: seq<A>, b: seq<A>, f: A -> B)
    ensures Map(a + b, f) == Map(a, f) + Map(b, f)
  {
    assert forall i :: 0 <= i < |a| ==> (a + b)[i] == a[i];
    assert forall i :: |a| <= i < |a| + |b| ==> (a + b)[i] == b[i - |a|];
  }

  /** The image of a member is a member of the image. */
  lemma MapMember<A, B>(s: seq<A>, f: A -> B, x: A)
    requires x in s
    ensures f(x) in Map(s, f)
  {
    var i :| 0 <= i < |s| && s[i] == x;
    assert Map(s, f)[i] == f(x);
  }

  lemma MapSnoc<A, B>(s: seq<A>, x: A, f: A -> B)
    ensures Map(s + [x], f) == Map(s, f) + [f(x)]
  {
    assert forall i :: 0 <= i < |s| ==> (s + [x])[i] == s[i];
  }

  /** The images of the kept elements are exactly the images of elements
      that are kept. */
  lemma MapFilterMember<A, B>(s: seq<A>, keep: A -> bool, f: A -> B, y: B)
    ensures y in Map(Filter(s, keep), f) <==> exists x :: x in s && keep(x) && f(x) == y
  {
    var kept := Filter(s, keep);
    if y in Map(kept, f) {
      var i :| 0 <= i < |kept| && Map(kept, f)[i] == y;
      assert kept[i] in s && keep(kept[i]) && f(kept[i]) == y;
    }
    if exists x :: x in s && keep(x) && f(x) == y {
      var x :| x in s && keep(x) && f(x) == y;
      FilterMember(s, keep, x);
      var i :| 0 <= i < |kept| && kept[i] == x;
      assert Map(kept, f)[i] == y;
    }
  }

  /** The first index from `from` on whose element satisfies `p`, or `|s|`
      when there is none: a `for` loop that breaks at the first hit. */
  function FirstFrom<T>(s: seq<T>, from: nat, p: T -> bool): (k: nat)
    requires from <= |s|
    ensures from <= k <= |s|
    ensures forall j :: from <= j < k ==> !p(s[j])
    ensures k < |s| ==> p(s[k])
    decreases |s| - from
  {
    if from == |s| then from
    else if p(s[from]) then from
    else FirstFrom(s, from + 1, p)
  }

  /** The first hit is determined by being a hit with no hit before it. */
  lemma {:induction false} FirstFromUnique<T>(s: seq<T>, from: nat, p: T -> bool, k: nat)
    requires from <= k <= |s|
    requires forall j :: from <= j < k ==> !p(s[j])
    requires k < |s| ==> p(s[k])
    ensures FirstFrom(s, from, p) == k
    decreases |s| - from
  {
    if from < k {
      FirstFromUnique(s, from + 1, p, k);
    }
  }

  /** The first element satisfying `p`, if any. */
  function First<T>(s: seq<T>, p: T -> bool): (r: Option<T>)
    ensures r.None? <==> forall j :: 0 <= j < |s| ==> !p(s[j])
    ensures r.Some? ==> FirstFrom(s, 0, p) < |s| && r.value == s[FirstFrom(s, 0, p)] && p(r.value)
  {
    var k := FirstFrom(s, 0, p);
    if k == |s| then None else Some(s[k])
  }

  /** The first element among the first `n` satisfying `p`: none exactly
      when no element before `n` satisfies it. */
  lemma FirstTake<T>(s: seq<T>, n: nat, p: T -> bool)
    ensures First(Take(s, n), p).None? <==> forall j :: 0 <= j < n && j < |s| ==> !p(s[j])
  {
    var t := Take(s, n);
    assert forall j :: 0 <= j < |t| ==> t[j] == s[j];
  }

  /** The element found among the first `n` is the first hit there. */
  lemma FirstTakeSome<T>(s: seq<T>, n: nat, p: T -> bool)
    ensures First(Take(s, n), p).Some? ==>
              exists k :: 0 <= k < n && k < |s| && p(s[k]) && First(Take(s, n), p).value == s[k]
                && forall j :: 0 <= j < k ==> !p(s[j])
  {
    var t := Take(s, n);
    var k := FirstFrom(t, 0, p);
    if k < |t| {
      assert t[k] == s[k];
      assert forall j :: 0 <= j < k ==> t[j] == s[j];
    }
  }

  /** `for k in range(from, len(s)): if p(s[k]): break`, leaving `k` at the
      first hit or at `len(s)`. */
  method FindFirst<T>(s: seq<T>, from: nat, p: T -> bool) returns (k: nat)
    requires from <= |s|
    ensures k == FirstFrom(s, from, p)
  {
    k := from;
    while k < |s|
      invariant from <= k <= |s|
      invariant forall j :: from <= j < k ==> !p(s[j])
    {
      if p(s[k]) {
        break;
      }
      k := k + 1;
    }
    FirstFromUnique(s, from, p, k);
  }

  /** Mapping the kept elements of a list grown by one. */
  lemma MapFilterSnoc<A, B>(s: seq<A>, x: A, keep: A -> bool, f: A -> B)
    ensures Map(Filter(s + [x], keep), f) == Map(Filter(s, keep), f) + (if keep(x) then [f(x)] else [])
  {
    FilterAppend(s, [x], keep);
    assert Filter([x], keep) == if keep(x) then [x] else [];
    if keep(x) {
      MapSnoc(Filter(s, keep), x, f);
    } else {
      assert Filter(s, keep) + [] == Filter(s, keep);
    }
  }

  /** The images of the kept elements, one more element of `s` on, by
      position. */
  lemma MapFilterStep<A, B>(s: seq<A>, i: nat, keep: A -> bool, f: A -> B)
    requires i < |s|
    ensures Map(Filter(s[..i + 1], keep), f) == Map(Filter(s[..i], keep), f) + (if keep(s[i]) then [f(s[i])] else [])
  {
    assert s[..i + 1] == s[..i] + [s[i]];
    MapFilterSnoc(s[..i], s[i], keep, f);
  }
}
