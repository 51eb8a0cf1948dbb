/** Searching lists, and lists without repetitions. */
module Lists {
  predicate Distinct<T(==)>(s: seq<T>) { forall i, j | 0 <= i < j < |s| :: s[i] != s[j] }

  function Elements<T>(s: seq<T>): set<T> { set x | x in s }

  lemma {:induction false} SizeOfDistinct<T>(s: seq<T>)
    requires Distinct(s)
    ensures |Elements(s)| == |s|
  {
    if s != [] {
      var before, last := s[..|s| - 1], s[|s| - 1];
      SizeOfDistinct(before);
      assert s == before + [last];
      assert Elements(s) == Elements(before) + {last} && last !in before;
    }
  }

  lemma {:induction false} NoRepeats<T>(t: seq<T>)
    ensures |Elements(t)| <= |t|
    ensures |Elements(t)| == |t| ==> Distinct(t)
  {
    if t != [] {
      var before, last := t[..|t| - 1], t[|t| - 1];
      NoRepeats(before);
      assert t == before + [last];
      assert Elements(t) == Elements(before) + {last};
    }
  }

  lemma SameElements<T>(s: seq<T>, t: seq<T>)
    requires multiset(s) == multiset(t)
    ensures Elements(t) == Elements(s) && |s| == |t|
  {
    forall x ensures x in t <==> x in s {
      assert x in multiset(t) <==> x in multiset(s);
    }
    assert |s| == |multiset(s)| == |multiset(t)| == |t|;
  }

  lemma DistinctMultiset<T>(s: seq<T>, t: seq<T>)
    requires Distinct(s) && multiset(s) == multiset(t)
    ensures Distinct(t) && Elements(t) == Elements(s)
  {
    SameElements(s, t);
    SizeOfDistinct(s);
    NoRepeats(t);
  }

  lemma {:induction false} Subset<T>(a: set<T>, b: set<T>)
    requires a <= b
    ensures |a| <= |b|
    decreases |a|
  {
    if a != {} {
      var x :| x in a;
      Subset(a - {x}, b - {x});
    }
  }

  /** The first occurrence of an element; negative when there is none. */
  function IndexOf<T(==)>(s: seq<T>, x: T): (i: int)
    ensures i < 0 ==> x !in s
    ensures 0 <= i ==> i < |s| && s[i] == x && x !in s[..i]
  {
    if s == [] then -1
    else if s[0] == x then 0
    else
      var i := IndexOf(s[1..], x);
      if i < 0 then (assert s == [s[0]] + s[1..]; -1) else (assert s[..i + 1] == [s[0]] + s[1..][..i]; i + 1)
  }

  lemma {:induction false} IndexAt<T>(a: seq<T>, x: T, b: seq<T>)
    requires x !in a
    ensures IndexOf(a + [x] + b, x) == |a|
  {
    if a != [] {
      IndexAt(a[1..], x, b);
      assert (a + [x] + b)[1..] == a[1..] + [x] + b;
    }
  }

  // ---------------------------------------------------------------------------------------
  // Taking lists apart
  // ---------------------------------------------------------------------------------------

  lemma Around<T>(s: seq<T>, i: nat)
    requires i < |s|
    ensures s == s[..i] + [s[i]] + s[i + 1..]
  {
  }

  lemma AroundPrefix<T>(s: seq<T>, i: nat, k: nat)
    requires i < k <= |s|
    ensures s[..k] == s[..i] + [s[i]] + s[i + 1..][..k - i - 1]
  {
  }

  lemma OneMore<T>(s: seq<T>, i: nat)
    requires i < |s|
    ensures s[..i + 1] == s[..i] + [s[i]] && s[..i + 1][..i] == s[..i]
  {
  }

  lemma Regroup<T>(a: seq<T>, b: seq<T>, c: seq<T>, d: seq<T>)
    ensures a + b + c + d == a + (b + c + d) == a + b + (c + d)
  {
  }

  lemma MultisetOfLast<T>(s: seq<T>)
    requires s != []
    ensures multiset(s) == multiset(s[..|s| - 1]) + multiset{s[|s| - 1]}
  {
    assert s == s[..|s| - 1] + [s[|s| - 1]];
  }
}
