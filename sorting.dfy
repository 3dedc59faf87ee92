/** The library sorts the sources call (`sort.Slice`, `sort.Strings`, JavaScript
    `Array.prototype.sort`), modelled once: an insertion sort on sequences whose
    result is ordered by the caller's `less` and is a permutation of its input.
    Go's `sort.Slice` is not stable, so among elements neither of which is less
    than the other the model fixes one of the orders Go may produce. */
module Sorting {

  /** No element is less than an element before it. */
  predicate SortedBy<T>(s: seq<T>, less: (T, T) -> bool) {
    forall i, j :: 0 <= i < j < |s| ==> !less(s[j], s[i])
  }

  /** `less` is a strict weak order on the elements of `s`, as `sort.Slice` requires. */
  predicate StrictWeakOn<T>(s: seq<T>, less: (T, T) -> bool) {
    (forall i :: 0 <= i < |s| ==> !less(s[i], s[i]))
    && (forall i, j, k :: 0 <= i < |s| && 0 <= j < |s| && 0 <= k < |s| ==>
          less(s[i], s[k]) ==> less(s[i], s[j]) || less(s[j], s[k]))
    && (forall i, j, k :: 0 <= i < |s| && 0 <= j < |s| && 0 <= k < |s| ==>
          less(s[i], s[j]) && less(s[j], s[k]) ==> less(s[i], s[k]))
  }

  lemma StrictWeakSub<T>(s: seq<T>, t: seq<T>, less: (T, T) -> bool)
    requires StrictWeakOn(s, less)
    requires multiset(t) <= multiset(s)
    ensures StrictWeakOn(t, less)
  {
    forall x | x in t ensures x in s {
      assert x in multiset(t);
    }
    forall i, j, k | 0 <= i < |t| && 0 <= j < |t| && 0 <= k < |t|
      ensures less(t[i], t[k]) ==> less(t[i], t[j]) || less(t[j], t[k])
      ensures less(t[i], t[j]) && less(t[j], t[k]) ==> less(t[i], t[k])
    {
      assert t[i] in s && t[j] in s && t[k] in s;
      var i', j', k' :| 0 <= i' < |s| && 0 <= j' < |s| && 0 <= k' < |s|
        && s[i'] == t[i] && s[j'] == t[j] && s[k'] == t[k];
    }
    forall i | 0 <= i < |t| ensures !less(t[i], t[i]) {
      assert t[i] in s;
      var i' :| 0 <= i' < |s| && s[i'] == t[i];
    }
  }

  lemma InsertFrontSorted<T>(x: T, s: seq<T>, less: (T, T) -> bool)
    requires StrictWeakOn([x] + s, less)
    requires SortedBy(s, less)
    requires |s| > 0 && !less(s[0], x)
    ensures SortedBy([x] + s, less)
  {
    var xs := [x] + s;
    forall i, j | 0 <= i < j < |xs| ensures !less(xs[j], xs[i]) {
      if i == 0 {
        assert xs[j] == s[j - 1] && xs[1] == s[0];
        if j > 1 {
          assert !less(s[j - 1], s[0]);
        }
      } else {
        assert xs[i] == s[i - 1] && xs[j] == s[j - 1];
      }
    }
  }

  lemma InsertLaterSorted<T>(x: T, s: seq<T>, t: seq<T>, less: (T, T) -> bool)
    requires StrictWeakOn([x] + s, less)
    requires SortedBy(s, less) && SortedBy(t, less)
    requires |s| > 0 && less(s[0], x)
    requires multiset(t) == multiset(s[1..]) + multiset{x}
    ensures SortedBy([s[0]] + t, less)
  {
    var xs := [x] + s;
    assert xs[0] == x && xs[1] == s[0];
    assert !less(x, s[0]);
    var r := [s[0]] + t;
    forall i, j | 0 <= i < j < |r| ensures !less(r[j], r[i]) {
      if i == 0 {
        var y := t[j - 1];
        assert y in multiset(t);
        if y != x {
          assert y in multiset(s[1..]);
          var m :| 0 <= m < |s[1..]| && s[1..][m] == y;
          assert s[m + 1] == y;
        }
      } else {
        assert r[i] == t[i - 1] && r[j] == t[j - 1];
      }
    }
  }

  /** Places `x` before the first element that is not less than it. */
  function Insert<T>(x: T, s: seq<T>, less: (T, T) -> bool): (r: seq<T>)
    requires StrictWeakOn([x] + s, less)
    requires SortedBy(s, less)
    ensures multiset(r) == multiset(s) + multiset{x}
    ensures SortedBy(r, less)
  {
    if |s| == 0 then [x]
    else if !less(s[0], x) then
      InsertFrontSorted(x, s, less);
      [x] + s
    else
      assert s == [s[0]] + s[1..];
      assert multiset([x] + s[1..]) <= multiset([x] + s);
      StrictWeakSub([x] + s, [x] + s[1..], less);
      var t := Insert(x, s[1..], less);
      InsertLaterSorted(x, s, t, less);
      [s[0]] + t
  }

  /** The order `sort.Slice(s, less)` leaves `s` in (one of them, when `less` has ties). */
  function SortBy<T>(s: seq<T>, less: (T, T) -> bool): (r: seq<T>)
    requires StrictWeakOn(s, less)
    ensures multiset(r) == multiset(s)
    ensures |r| == |s|
    ensures SortedBy(r, less)
  {
    if |s| == 0 then []
    else
      TailStrictWeak(s, less);
      var t := SortBy(s[1..], less);
      ConsStrictWeak(s, t, less);
      Insert(s[0], t, less)
  }

  lemma TailStrictWeak<T>(s: seq<T>, less: (T, T) -> bool)
    requires StrictWeakOn(s, less) && |s| > 0
    ensures StrictWeakOn(s[1..], less)
  {
    TailMultiset(s);
    StrictWeakSub(s, s[1..], less);
  }

  /** Putting the head back in front of a permutation of the tail. */
  lemma ConsStrictWeak<T>(s: seq<T>, t: seq<T>, less: (T, T) -> bool)
    requires StrictWeakOn(s, less) && |s| > 0
    requires multiset(t) == multiset(s[1..])
    ensures multiset([s[0]] + t) == multiset(s)
    ensures StrictWeakOn([s[0]] + t, less)
  {
    TailMultiset(s);
    StrictWeakSub(s, [s[0]] + t, less);
  }

  /** Any two distinct elements of `s` are ordered one way or the other. */
  ghost predicate TotalOn<T>(s: seq<T>, less: (T, T) -> bool) {
    forall i, j :: 0 <= i < |s| && 0 <= j < |s| ==> s[i] == s[j] || less(s[i], s[j]) || less(s[j], s[i])
  }

  lemma SortedHeadsEqual<T>(s: seq<T>, t: seq<T>, less: (T, T) -> bool)
    requires SortedBy(s, less) && SortedBy(t, less)
    requires multiset(s) == multiset(t) && |s| > 0
    requires TotalOn(s, less)
    ensures |t| > 0 && s[0] == t[0]
  {
    assert s[0] in multiset(t);
    var m :| 0 <= m < |t| && t[m] == s[0];
    assert t[0] in multiset(s);
    var n :| 0 <= n < |s| && s[n] == t[0];
  }

  /** Sorting a sequence whose elements are pairwise comparable (the order is total on
      them) gives the one sorted permutation. */
  lemma {:induction false} SortedUnique<T>(s: seq<T>, t: seq<T>, less: (T, T) -> bool)
    requires SortedBy(s, less) && SortedBy(t, less)
    requires multiset(s) == multiset(t)
    requires TotalOn(s, less)
    ensures s == t
    decreases |s|
  {
    if |s| == 0 {
      assert |t| == |multiset(t)| == 0;
    } else {
      SortedHeadsEqual(s, t, less);
      TailMultiset(s);
      TailMultiset(t);
      assert TotalOn(s[1..], less) by {
        forall i, j | 0 <= i < |s[1..]| && 0 <= j < |s[1..]|
          ensures s[1..][i] == s[1..][j] || less(s[1..][i], s[1..][j]) || less(s[1..][j], s[1..][i])
        {
          assert s[1..][i] == s[i + 1] && s[1..][j] == s[j + 1];
        }
      }
      SortedUnique(s[1..], t[1..], less);
      assert s == [s[0]] + s[1..] && t == [t[0]] + t[1..];
    }
  }

  lemma TailMultiset<T>(s: seq<T>)
    requires |s| > 0
    ensures multiset(s[1..]) == multiset(s) - multiset{s[0]}
  {
    assert s == [s[0]] + s[1..];
  }

  // ---------------------------------------------------------------- strings

  /** Byte-wise (here code-point-wise) order of Go's `<` on strings, used by `sort.Strings`. */
  predicate LexLess(a: string, b: string) {
    if |a| == 0 then |b| > 0
    else if |b| == 0 then false
    else if a[0] == b[0] then LexLess(a[1..], b[1..])
    else a[0] < b[0]
  }

  lemma {:induction false} LexIrreflexive(a: string)
    ensures !LexLess(a, a)
  {
    if |a| > 0 {
      LexIrreflexive(a[1..]);
    }
  }

  lemma {:induction false} LexTransitive(a: string, b: string, c: string)
    requires LexLess(a, b) && LexLess(b, c)
    ensures LexLess(a, c)
  {
    if |a| > 0 && |b| > 0 && |c| > 0 && a[0] == b[0] && b[0] == c[0] {
      LexTransitive(a[1..], b[1..], c[1..]);
    }
  }

  lemma {:induction false} LexTotal(a: string, b: string)
    ensures a == b || LexLess(a, b) || LexLess(b, a)
  {
    if |a| > 0 && |b| > 0 && a[0] == b[0] {
      LexTotal(a[1..], b[1..]);
      if a[1..] == b[1..] {
        assert a == [a[0]] + a[1..] && b == [b[0]] + b[1..];
      }
    }
  }

  lemma LexNegTransitive(a: string, b: string, c: string)
    requires LexLess(a, c)
    ensures LexLess(a, b) || LexLess(b, c)
  {
    LexTotal(a, b);
    LexTotal(b, c);
    if LexLess(b, a) && LexLess(c, b) {
      LexTransitive(c, b, a);
      LexTransitive(a, c, a);
      LexIrreflexive(a);
    }
  }

  /** String order is a strict weak (indeed total) order, so `sort.Strings` may use it. */
  lemma LexStrictWeak(s: seq<string>)
    ensures StrictWeakOn(s, LexLess)
  {
    forall i | 0 <= i < |s| ensures !LexLess(s[i], s[i]) {
      LexIrreflexive(s[i]);
    }
    forall i, j, k | 0 <= i < |s| && 0 <= j < |s| && 0 <= k < |s|
      ensures LexLess(s[i], s[k]) ==> LexLess(s[i], s[j]) || LexLess(s[j], s[k])
      ensures LexLess(s[i], s[j]) && LexLess(s[j], s[k]) ==> LexLess(s[i], s[k])
    {
      if LexLess(s[i], s[k]) {
        LexNegTransitive(s[i], s[j], s[k]);
      }
      if LexLess(s[i], s[j]) && LexLess(s[j], s[k]) {
        LexTransitive(s[i], s[j], s[k]);
      }
    }
  }

  /** Sorting strings by `sort.Strings` is determined: any sorted permutation is it. */
  lemma SortStringsUnique(s: seq<string>, t: seq<string>)
    requires SortedBy(t, LexLess) && multiset(t) == multiset(s)
    ensures StrictWeakOn(s, LexLess)
    ensures t == SortBy(s, LexLess)
  {
    LexStrictWeak(s);
    var r := SortBy(s, LexLess);
    forall i, j | 0 <= i < |r| && 0 <= j < |r| ensures r[i] == r[j] || LexLess(r[i], r[j]) || LexLess(r[j], r[i]) {
      LexTotal(r[i], r[j]);
    }
    SortedUnique(r, t, LexLess);
  }
}
