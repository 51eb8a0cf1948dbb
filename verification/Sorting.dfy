/** Sorting, and the order of strings. */
module Sorting {
  import opened Lists

  /** A strict order in which any two elements that are not the same are comparable through any
      third one. */
  ghost predicate WeakOrder<T(!new)>(less: (T, T) -> bool) {
    && (forall a, b :: less(a, b) ==> !less(b, a))
    && (forall a, b, c :: less(a, c) ==> less(a, b) || less(b, c))
  }

  predicate Sorted<T>(s: seq<T>, less: (T, T) -> bool) { forall i, j | 0 <= i < j < |s| :: !less(s[j], s[i]) }

  function Insert<T>(s: seq<T>, x: T, less: (T, T) -> bool): seq<T> {
    if s == [] || less(x, s[0]) then [x] + s else [s[0]] + Insert(s[1..], x, less)
  }

  /** Equal elements stay in their order. */
  function Sort<T>(s: seq<T>, less: (T, T) -> bool): seq<T> {
    if s == [] then [] else Insert(Sort(s[..|s| - 1], less), s[|s| - 1], less)
  }

  lemma {:induction false} InsertPermutes<T>(s: seq<T>, x: T, less: (T, T) -> bool)
    ensures multiset(Insert(s, x, less)) == multiset(s) + multiset{x}
  {
    if s != [] && !less(x, s[0]) {
      InsertPermutes(s[1..], x, less);
      assert s == [s[0]] + s[1..];
    }
  }

  lemma SortedBehind<T>(x: T, s: seq<T>, less: (T, T) -> bool)
    requires Sorted(s, less) && forall k | 0 <= k < |s| :: !less(s[k], x)
    ensures Sorted([x] + s, less)
  {
  }

  lemma {:induction false} InsertKeeps<T(!new)>(s: seq<T>, x: T, less: (T, T) -> bool)
    requires WeakOrder(less) && Sorted(s, less)
    ensures Sorted(Insert(s, x, less), less)
  {
    if s == [] || less(x, s[0]) {
      forall k | 0 <= k < |s| ensures !less(s[k], x) {
        assert k > 0 ==> !less(s[k], s[0]);
      }
      SortedBehind(x, s, less);
    } else {
      var first, rest := s[0], s[1..];
      InsertKeeps(rest, x, less);
      InsertPermutes(rest, x, less);
      var all := Insert(rest, x, less);
      forall k | 0 <= k < |all| ensures !less(all[k], first) {
        assert all[k] in multiset(all);
        assert all[k] == x || all[k] in rest;
      }
      SortedBehind(first, all, less);
    }
  }

  lemma {:induction false} SortSorts<T(!new)>(s: seq<T>, less: (T, T) -> bool)
    requires WeakOrder(less)
    ensures Sorted(Sort(s, less), less) && multiset(Sort(s, less)) == multiset(s)
  {
    if s != [] {
      SortSorts(s[..|s| - 1], less);
      InsertKeeps(Sort(s[..|s| - 1], less), s[|s| - 1], less);
      InsertPermutes(Sort(s[..|s| - 1], less), s[|s| - 1], less);
      MultisetOfLast(s);
    }
  }

  // ---------------------------------------------------------------------------------------
  // Equal elements
  // ---------------------------------------------------------------------------------------

  predicate Same<T>(a: T, b: T, less: (T, T) -> bool) { !less(a, b) && !less(b, a) }

  /** The elements that are neither before nor after x, in their order. */
  function Pick<T>(s: seq<T>, x: T, less: (T, T) -> bool): seq<T> {
    if s == [] then [] else (if Same(s[0], x, less) then [s[0]] else []) + Pick(s[1..], x, less)
  }

  lemma {:induction false} PickConcat<T>(a: seq<T>, b: seq<T>, x: T, less: (T, T) -> bool)
    ensures Pick(a + b, x, less) == Pick(a, x, less) + Pick(b, x, less)
  {
    if a == [] {
      assert a + b == b;
    } else {
      PickConcat(a[1..], b, x, less);
      assert (a + b)[1..] == a[1..] + b;
    }
  }

  lemma {:induction false} PickNone<T>(s: seq<T>, x: T, less: (T, T) -> bool)
    requires forall k | 0 <= k < |s| :: !Same(s[k], x, less)
    ensures Pick(s, x, less) == []
  {
    if s != [] { PickNone(s[1..], x, less); }
  }

  lemma PickOne<T>(x: T, y: T, less: (T, T) -> bool)
    ensures Pick([x], y, less) == if Same(x, y, less) then [x] else []
  {
    assert [x][1..] == [];
  }

  /** What follows an element that x is before is not the same as x. */
  lemma NoneBehind<T(!new)>(s: seq<T>, x: T, y: T, less: (T, T) -> bool)
    requires WeakOrder(less) && Sorted(s, less) && s != [] && less(x, s[0]) && Same(x, y, less)
    ensures Pick(s, y, less) == []
  {
    forall k | 0 <= k < |s| ensures !Same(s[k], y, less) {
      assert k > 0 ==> !less(s[k], s[0]);
      assert less(x, s[k]);
    }
    PickNone(s, y, less);
  }

  lemma {:induction false} InsertPicks<T(!new)>(s: seq<T>, x: T, y: T, less: (T, T) -> bool)
    requires WeakOrder(less) && Sorted(s, less)
    ensures Pick(Insert(s, x, less), y, less) == Pick(s, y, less) + Pick([x], y, less)
  {
    PickOne(x, y, less);
    if s == [] {
    } else if less(x, s[0]) {
      PickConcat([x], s, y, less);
      if Same(x, y, less) { NoneBehind(s, x, y, less); }
    } else {
      InsertPicks(s[1..], x, y, less);
      PickConcat([s[0]], Insert(s[1..], x, less), y, less);
      PickConcat([s[0]], s[1..], y, less);
      assert s == [s[0]] + s[1..];
    }
  }

  lemma {:induction false} SortIsStable<T(!new)>(s: seq<T>, y: T, less: (T, T) -> bool)
    requires WeakOrder(less)
    ensures Pick(Sort(s, less), y, less) == Pick(s, y, less)
  {
    if s != [] {
      var before, last := s[..|s| - 1], s[|s| - 1];
      SortIsStable(before, y, less);
      SortSorts(before, less);
      InsertPicks(Sort(before, less), last, y, less);
      PickConcat(before, [last], y, less);
      assert s == before + [last];
    }
  }

  /** Elements of s that are the same and differ stand in t as they do in s. */
  ghost predicate Stable<T>(s: seq<T>, t: seq<T>, less: (T, T) -> bool) {
    forall i, j | 0 <= i < |s| && 0 <= j < |s| && Same(s[i], s[j], less) && s[i] != s[j] ::
      Pick(s, s[i], less) == Pick(t, s[i], less)
  }

  /** Then there is one sorted arrangement. */
  lemma {:induction false} SortedIsUnique<T(!new)>(s: seq<T>, t: seq<T>, less: (T, T) -> bool)
    requires WeakOrder(less) && Stable(s, t, less)
    requires Sorted(s, less) && Sorted(t, less) && multiset(s) == multiset(t)
    ensures s == t
    decreases |s|
  {
    if s != [] && t != [] {
      SameHead(s, t, less);
      SameTail(s, t);
      StableTail(s, t, less);
      SortedIsUnique(s[1..], t[1..], less);
      assert s == [s[0]] + s[1..] && t == [t[0]] + t[1..];
    } else {
      assert |multiset(s)| == |s| && |multiset(t)| == |t|;
    }
  }

  lemma SameHead<T(!new)>(s: seq<T>, t: seq<T>, less: (T, T) -> bool)
    requires WeakOrder(less) && s != [] && t != [] && Stable(s, t, less)
    requires Sorted(s, less) && Sorted(t, less) && multiset(s) == multiset(t)
    ensures s[0] == t[0]
  {
    assert s[0] in multiset(t) && t[0] in multiset(s);
    var k :| 0 <= k < |t| && t[k] == s[0];
    var j :| 0 <= j < |s| && s[j] == t[0];
    assert j > 0 ==> !less(s[j], s[0]);
    assert k > 0 ==> !less(t[k], t[0]);
    assert Same(s[0], s[j], less);
    PickHead(s, s[0], less);
    PickHead(t, s[0], less);
  }

  lemma PickHead<T>(s: seq<T>, x: T, less: (T, T) -> bool)
    requires s != [] && Same(s[0], x, less)
    ensures Pick(s, x, less) != [] && Pick(s, x, less)[0] == s[0]
  {
  }

  lemma StableTail<T>(s: seq<T>, t: seq<T>, less: (T, T) -> bool)
    requires s != [] && t != [] && s[0] == t[0] && Stable(s, t, less)
    ensures Stable(s[1..], t[1..], less)
  {
    var u := s[1..];
    forall i, j | 0 <= i < |u| && 0 <= j < |u| && Same(u[i], u[j], less) && u[i] != u[j]
      ensures Pick(u, u[i], less) == Pick(t[1..], u[i], less)
    {
      assert u[i] == s[i + 1] && u[j] == s[j + 1];
      var head := if Same(s[0], u[i], less) then [s[0]] else [];
      assert head + Pick(u, u[i], less) == head + Pick(t[1..], u[i], less);
      assert (head + Pick(u, u[i], less))[|head|..] == Pick(u, u[i], less);
      assert (head + Pick(t[1..], u[i], less))[|head|..] == Pick(t[1..], u[i], less);
    }
  }

  lemma SameTail<T>(s: seq<T>, t: seq<T>)
    requires s != [] && t != [] && s[0] == t[0] && multiset(s) == multiset(t)
    ensures multiset(s[1..]) == multiset(t[1..])
  {
    assert s == [s[0]] + s[1..] && t == [t[0]] + t[1..];
    assert multiset(s[1..]) == multiset(s) - multiset{s[0]};
    assert multiset(t[1..]) == multiset(t) - multiset{t[0]};
  }

  /** The order of strings, by their bytes. */
  predicate Less(a: string, b: string) {
    b != [] && (a == [] || a[0] < b[0] || (a[0] == b[0] && Less(a[1..], b[1..])))
  }

  lemma {:induction false} LessIsAsymmetric(a: string, b: string)
    ensures !(Less(a, b) && Less(b, a))
    ensures !Less(a, b) && !Less(b, a) ==> a == b
  {
    if a != [] && b != [] {
      LessIsAsymmetric(a[1..], b[1..]);
      assert a == [a[0]] + a[1..] && b == [b[0]] + b[1..];
    }
  }

  lemma {:induction false} LessSplits(a: string, b: string, c: string)
    requires Less(a, c)
    ensures Less(a, b) || Less(b, c)
  {
    if a != [] && b != [] && a[0] == c[0] == b[0] {
      LessSplits(a[1..], b[1..], c[1..]);
    }
  }

  /** One string is below another exactly when it is a proper prefix of it, or smaller at the first
      place where they differ. */
  lemma {:induction false} LessExactly(a: string, b: string)
    ensures Less(a, b) <==> exists k: nat :: SmallerAt(a, b, k)
  {
    if a != [] && b != [] && a[0] == b[0] {
      LessExactly(a[1..], b[1..]);
      if k: nat :| SmallerAt(a[1..], b[1..], k) {
        assert a == [a[0]] + a[1..] && b == [b[0]] + b[1..];
        assert a[..k + 1] == [a[0]] + a[1..][..k] && b[..k + 1] == [b[0]] + b[1..][..k];
        assert SmallerAt(a, b, k + 1);
      }
      if k: nat :| SmallerAt(a, b, k) {
        assert k > 0;
        assert a[1..][..k - 1] == a[..k][1..] && b[1..][..k - 1] == b[..k][1..];
        assert SmallerAt(a[1..], b[1..], k - 1);
      }
    } else {
      if Less(a, b) { assert SmallerAt(a, b, 0); }
      if k: nat :| SmallerAt(a, b, k) {
        if k > 0 { SameFirst(a, b, k); }
      }
    }
  }

  lemma SameFirst(a: string, b: string, k: nat)
    requires SmallerAt(a, b, k) && k > 0
    ensures a != [] && b != [] && a[0] == b[0]
  {
    assert a[..k][0] == b[..k][0];
  }

  predicate SmallerAt(a: string, b: string, k: nat) {
    k <= |a| && k < |b| && a[..k] == b[..k] && (k == |a| || a[k] < b[k])
  }

  lemma LessIsWeakOrder()
    ensures WeakOrder(Less) && WeakOrder((a, b) => Less(b, a))
  {
    forall a, b | Less(a, b) ensures !Less(b, a) { LessIsAsymmetric(a, b); }
    forall a, b, c | Less(a, c) ensures Less(a, b) || Less(b, c) { LessSplits(a, b, c); }
  }
}
