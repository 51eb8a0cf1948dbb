/**
 Artifact retention: after a build publishes, only the newest build directories of its preview
 are kept, by the order of their names, and always its own.
 */
module Retention {
  import opened ByteStrings
  import opened Lists
  import opened Sorting

  /** The other directories that sort above one. */
  ghost function Newer(dirs: set<string>, keep: string, name: string): set<string> {
    set o | o in dirs && o != keep && Less(name, o)
  }

  /** What pruning leaves: the build's own directory, the first limit - 1 others, and whatever
      could not be removed. A limit below one keeps everything. */
  ghost function Left(dirs: set<string>, keep: string, limit: int, stuck: set<string>): set<string> {
    if limit < 1 then dirs
    else set d | d in dirs && (d == keep || |Newer(dirs, keep, d)| < limit - 1 || d in stuck)
  }

  function Others(entries: seq<string>, keep: string): seq<string> {
    if entries == [] then []
    else Others(entries[..|entries| - 1], keep)
         + if entries[|entries| - 1] != keep then [entries[|entries| - 1]] else []
  }

  lemma {:induction false} OthersAreOthers(entries: seq<string>, keep: string)
    ensures Elements(Others(entries, keep)) == Elements(entries) - {keep}
    ensures Distinct(entries) ==> Distinct(Others(entries, keep))
  {
    if entries != [] {
      var before, last := entries[..|entries| - 1], entries[|entries| - 1];
      OthersAreOthers(before, keep);
      assert entries == before + [last];
      forall x ensures x in Others(entries, keep) <==> x in entries && x != keep {
        assert x in Elements(Others(before, keep)) <==> x in Elements(before) - {keep};
      }
      if Distinct(entries) {
        assert forall i | 0 <= i < |before| :: entries[i] != last;
        assert last !in Elements(Others(before, keep)) by { assert last !in before; }
      }
    }
  }

  /** The names newest first, and what stands before each of them. */
  lemma Ranked(dirs: set<string>, keep: string, names: seq<string>, k: nat)
    requires Distinct(names) && Elements(names) == dirs - {keep}
    requires Sorted(names, (a, b) => Less(b, a)) && k < |names|
    ensures Newer(dirs, keep, names[k]) == Elements(names[..k]) && |Newer(dirs, keep, names[k])| == k
  {
    forall o ensures o in Newer(dirs, keep, names[k]) <==> o in names[..k] {
      if o in dirs - {keep} {
        assert o in names;
        var j :| 0 <= j < |names| && names[j] == o;
        LessIsAsymmetric(o, names[k]);
        assert o in names[..k] <==> j < k;
      }
    }
    SizeOfDistinct(names[..k]);
  }

  /** The other directories, newest first. */
  function NewestFirst(entries: seq<string>, keep: string): seq<string> {
    Sort(Others(entries, keep), (a, b) => Less(b, a))
  }

  lemma NewestFirstIsRanked(entries: seq<string>, keep: string)
    requires Distinct(entries)
    ensures var names, dirs := NewestFirst(entries, keep), Elements(entries);
            && Distinct(names) && Elements(names) == dirs - {keep}
            && forall k: nat {:trigger names[k]} | k < |names| :: |Newer(dirs, keep, names[k])| == k
  {
    var others, names := Others(entries, keep), NewestFirst(entries, keep);
    OthersAreOthers(entries, keep);
    LessIsWeakOrder();
    SortSorts(others, (a, b) => Less(b, a));
    DistinctMultiset(others, names);
    forall k: nat | k < |names| ensures |Newer(Elements(entries), keep, names[k])| == k {
      Ranked(Elements(entries), keep, names, k);
    }
  }

  /** Those of the first n names that are removed. */
  ghost function Removed(names: seq<string>, n: nat, limit: int, stuck: set<string>): set<string>
    requires n <= |names|
  {
    if n == 0 then {}
    else Removed(names, n - 1, limit, stuck)
         + if n - 1 >= limit - 1 && names[n - 1] !in stuck then {names[n - 1]} else {}
  }

  lemma {:induction false} RemovedAre(names: seq<string>, n: nat, limit: int, stuck: set<string>)
    requires n <= |names|
    ensures forall x :: x in Removed(names, n, limit, stuck) <==>
      x !in stuck && exists k: nat {:trigger names[k]} :: limit - 1 <= k < n && names[k] == x
  {
    if n > 0 { RemovedAre(names, n - 1, limit, stuck); }
  }

  method Prune(entries: seq<string>, keep: string, limit: int, stuck: set<string>) returns (left: set<string>)
    requires Distinct(entries)
    ensures left == Left(Elements(entries), keep, limit, stuck)
  {
    left := set x | x in entries;
    if limit < 1 { return; }
    var names := NewestFirst(entries, keep);
    ghost var dirs := Elements(entries);
    for i := 0 to |names|
      invariant left == dirs - Removed(names, i, limit, stuck)
    {
      if i >= limit - 1 && names[i] !in stuck {
        left := left - {names[i]};
      }
    }
    NewestFirstIsRanked(entries, keep);
    VictimsAreTheOldest(dirs, keep, limit, stuck, names);
  }

  lemma VictimsAreTheOldest(dirs: set<string>, keep: string, limit: int, stuck: set<string>, names: seq<string>)
    requires limit >= 1 && Elements(names) == dirs - {keep} && Distinct(names)
    requires forall k: nat {:trigger names[k]} | k < |names| :: |Newer(dirs, keep, names[k])| == k
    ensures dirs - Removed(names, |names|, limit, stuck) == Left(dirs, keep, limit, stuck)
  {
    var removed := Removed(names, |names|, limit, stuck);
    RemovedAre(names, |names|, limit, stuck);
    forall d | d in dirs ensures d in removed <==> d !in Left(dirs, keep, limit, stuck) {
      if d != keep {
        assert d in Elements(names);
        var k: nat :| k < |names| && names[k] == d;
        assert |Newer(dirs, keep, names[k])| == k;
      } else {
        assert d !in Elements(names);
      }
    }
  }

  // ---------------------------------------------------------------------------------------
  // What is left
  // ---------------------------------------------------------------------------------------

  lemma NewerIsNested(dirs: set<string>, keep: string, a: string, b: string)
    requires a != keep && a in dirs && Less(b, a)
    ensures |Newer(dirs, keep, a)| < |Newer(dirs, keep, b)|
  {
    forall o | o in Newer(dirs, keep, a) ensures o in Newer(dirs, keep, b) {
      LessSplits(a, b, o);
      LessIsAsymmetric(a, b);
    }
    LessIsAsymmetric(a, a);
    assert Newer(dirs, keep, a) + {a} <= Newer(dirs, keep, b);
    Subset(Newer(dirs, keep, a) + {a}, Newer(dirs, keep, b));
  }

  /** Nothing that was removed sorts above an other directory that was kept. */
  lemma SurvivorsAreNewest(dirs: set<string>, keep: string, limit: int, survivor: string, removed: string)
    requires limit >= 1 && survivor in Left(dirs, keep, limit, {}) && survivor != keep
    requires removed in dirs - Left(dirs, keep, limit, {})
    ensures Less(removed, survivor)
  {
    if Less(survivor, removed) {
      NewerIsNested(dirs, keep, removed, survivor);
    }
    LessIsAsymmetric(survivor, removed);
  }

  /** With n others, the last in order has n - 1 above it. */
  lemma {:induction false} SomeoneHasRank(dirs: set<string>, keep: string, some: set<string>)
    returns (lowest: string)
    requires some != {} && some <= dirs - {keep}
    ensures lowest in some && |Newer(dirs, keep, lowest)| >= |some| - 1
    ensures forall o | o in some && o != lowest :: Less(lowest, o)
    decreases |some|
  {
    var x :| x in some;
    if some == {x} {
      lowest := x;
    } else {
      var y := SomeoneHasRank(dirs, keep, some - {x});
      LessIsAsymmetric(x, y);
      lowest := if Less(x, y) then x else y;
      forall o | o in some && o != lowest ensures Less(lowest, o) {
        if lowest == x && o != y { LessSplits(y, x, o); LessIsAsymmetric(x, y); Trans(x, y, o); }
      }
    }
    assert some - {lowest} <= Newer(dirs, keep, lowest);
    Subset(some - {lowest}, Newer(dirs, keep, lowest));
  }

  lemma Trans(x: string, y: string, z: string)
    requires Less(x, y) && Less(y, z)
    ensures Less(x, z)
  {
    LessSplits(x, z, y);
    LessIsAsymmetric(y, z);
  }

  /** When everything that should go can be removed, at most `limit` directories are left,
      counting the build's own. */
  lemma AtMostLimitAreLeft(dirs: set<string>, keep: string, limit: int)
    requires limit >= 1 && keep in dirs
    ensures keep in Left(dirs, keep, limit, {}) && |Left(dirs, keep, limit, {})| <= limit
  {
    var left := Left(dirs, keep, limit, {});
    var others := left - {keep};
    if others != {} {
      var lowest := SomeoneHasRank(dirs, keep, others);
      assert lowest in left;
    }
  }

  /** And never fewer than there could be: pruning removes no directory it need not. */
  lemma AsManyAsAllowedAreLeft(dirs: set<string>, keep: string, limit: int)
    requires limit >= 1 && keep in dirs
    ensures |Left(dirs, keep, limit, {})| == if limit < |dirs| then limit else |dirs|
  {
    AtMostLimitAreLeft(dirs, keep, limit);
    var others, left := dirs - {keep}, Left(dirs, keep, limit, {});
    var n := if limit - 1 < |others| then limit - 1 else |others|;
    TopOfUpperSet(dirs, keep, others, n);
    var top := Highest(dirs, keep, others, n);
    Subset(top + {keep}, left);
    Subset(left, dirs);
  }

  /** A directory that cannot be removed stays, and saves no other; without a limit all stay. */
  lemma StuckOnesOnlyStay(dirs: set<string>, keep: string, limit: int, stuck: set<string>)
    ensures limit >= 1 ==> Left(dirs, keep, limit, stuck) == Left(dirs, keep, limit, {}) + dirs * stuck
    ensures limit < 1 ==> Left(dirs, keep, limit, stuck) == dirs
  {
  }

  // ---------------------------------------------------------------------------------------
  // Pruning again and again
  // ---------------------------------------------------------------------------------------

  /** Of a set in which nothing is missing above any element, as many are among the n highest as
      there are, up to n. */
  lemma {:induction false} TopOfUpperSet(dirs: set<string>, keep: string, upper: set<string>, n: nat)
    requires upper <= dirs - {keep} && |upper| >= n
    requires forall x, y | x in upper && y in dirs && y != keep && Less(x, y) :: y in upper
    ensures |Highest(dirs, keep, upper, n)| >= n
    decreases |upper|
  {
    if |upper| == n {
      forall x | x in upper ensures |Newer(dirs, keep, x)| < n { NewerThanMember(dirs, keep, upper, x); }
      assert Highest(dirs, keep, upper, n) == upper;
    } else {
      var lowest := SomeoneHasRank(dirs, keep, upper);
      var rest := upper - {lowest};
      forall x, y | x in rest && y in dirs && y != keep && Less(x, y) ensures y in rest {
        LessIsAsymmetric(x, lowest);
      }
      TopOfUpperSet(dirs, keep, rest, n);
      Subset(Highest(dirs, keep, rest, n), Highest(dirs, keep, upper, n));
    }
  }

  lemma NewerThanMember(dirs: set<string>, keep: string, upper: set<string>, x: string)
    requires x in upper
    requires forall y | y in dirs && y != keep && Less(x, y) :: y in upper
    ensures |Newer(dirs, keep, x)| < |upper|
  {
    LessIsAsymmetric(x, x);
    assert Newer(dirs, keep, x) <= upper - {x};
    Subset(Newer(dirs, keep, x), upper - {x});
  }

  ghost function Above(dirs: set<string>, d: string): set<string> { set x | x in dirs && Less(d, x) }

  ghost function Highest(dirs: set<string>, keep: string, upper: set<string>, n: nat): set<string> {
    set x | x in upper && |Newer(dirs, keep, x)| < n
  }

  /** If fewer than n of those left sort above d, then nothing above d was removed. */
  lemma NothingAboveWasLost(dirs: set<string>, a: string, n: nat, d: string, o: string)
    requires a in dirs && o in dirs && o != a && Less(d, o)
    requires |Above(Left(dirs, a, n + 1, {}), d)| < n
    ensures |Newer(dirs, a, o)| < n
  {
    var upper := Newer(dirs, a, o);
    if |upper| >= n {
      forall x, y | x in upper && y in dirs && y != a && Less(x, y) ensures y in upper { Trans(o, x, y); }
      TopOfUpperSet(dirs, a, upper, n);
      HighestAreLeft(dirs, a, n, d, o);
    }
  }

  lemma HighestAreLeft(dirs: set<string>, a: string, n: nat, d: string, o: string)
    requires Less(d, o)
    ensures |Highest(dirs, a, Newer(dirs, a, o), n)| <= |Above(Left(dirs, a, n + 1, {}), d)|
  {
    var top, above := Highest(dirs, a, Newer(dirs, a, o), n), Above(Left(dirs, a, n + 1, {}), d);
    forall x | x in top ensures x in above { Trans(d, o, x); }
    Subset(top, above);
  }

  /** Pruning after one build and again after the next leaves what pruning once after the next
      would have left. */
  lemma PruningTwiceIsPruningOnce(dirs: set<string>, a: string, b: string, limit: int)
    requires limit >= 1 && a in dirs && b !in dirs
    ensures Left(Left(dirs, a, limit, {}) + {b}, b, limit, {}) == Left(dirs + {b}, b, limit, {})
  {
    var kept := Left(dirs, a, limit, {});
    forall d | d in dirs
      ensures d in Left(kept + {b}, b, limit, {}) <==> d in Left(dirs + {b}, b, limit, {})
    {
      OthersAbove(kept, b, d);
      OthersAbove(dirs, b, d);
      SameRank(dirs, a, limit, d);
    }
  }

  lemma OthersAbove(dirs: set<string>, b: string, d: string)
    requires b !in dirs
    ensures Newer(dirs + {b}, b, d) == Above(dirs, d)
  {
  }

  lemma SameRank(dirs: set<string>, a: string, limit: int, d: string)
    requires limit >= 1 && a in dirs && d in dirs
    ensures var kept := Left(dirs, a, limit, {});
            (d in kept && |Above(kept, d)| < limit - 1) <==> |Above(dirs, d)| < limit - 1
  {
    var kept := Left(dirs, a, limit, {});
    assert Above(kept, d) <= Above(dirs, d) && Newer(dirs, a, d) <= Above(dirs, d);
    Subset(Above(kept, d), Above(dirs, d));
    Subset(Newer(dirs, a, d), Above(dirs, d));
    if |Above(kept, d)| < limit - 1 { NothingAboveIsMissing(dirs, a, limit, d); }
  }

  lemma NothingAboveIsMissing(dirs: set<string>, a: string, limit: int, d: string)
    requires limit >= 1 && a in dirs && |Above(Left(dirs, a, limit, {}), d)| < limit - 1
    ensures Above(Left(dirs, a, limit, {}), d) == Above(dirs, d)
  {
    forall o | o in Above(dirs, d) ensures o in Left(dirs, a, limit, {}) {
      if o != a { NothingAboveWasLost(dirs, a, limit - 1, d, o); }
    }
  }

  /** What is on disk after each of these builds has installed its directory and pruned. */
  ghost function AfterBuilds(builds: seq<string>, limit: int): set<string> {
    if builds == [] then {}
    else
      var n := |builds| - 1;
      Left(AfterBuilds(builds[..n], limit) + {builds[n]}, builds[n], limit, {})
  }

  /** Over any run of builds, in whatever order their names sort: what is left is the last build,
      whose directory the row names, and the limit - 1 highest of all the others there ever were.
      Nothing that was pruned on the way would be kept at the end, and nothing else was. */
  lemma {:induction false} LeftOverRunExactly(builds: seq<string>, limit: int)
    requires limit >= 1 && builds != [] && Distinct(builds)
    ensures AfterBuilds(builds, limit) == Left(Elements(builds), builds[|builds| - 1], limit, {})
  {
    var n := |builds| - 1;
    var before, b := builds[..n], builds[n];
    assert builds == before + [b] && Elements(builds) == Elements(before) + {b};
    if n > 0 {
      LeftOverRunExactly(before, limit);
      assert before[n - 1] in Elements(before);
      PruningTwiceIsPruningOnce(Elements(before), before[n - 1], b, limit);
    } else {
      assert AfterBuilds(before, limit) == {} && Elements(before) == {};
    }
  }

  // ---------------------------------------------------------------------------------------
  // Builds that fail, and directories that stay
  // ---------------------------------------------------------------------------------------

  /** One preview's directories on disk, and the one its row names. */
  datatype State = State(dirs: set<string>, recorded: Option<string>)

  /** How a build ends: recorded and pruned; installed but not recorded, and then withdrawn with
      its row, if that can be deleted; or without installing anything. */
  datatype Outcome =
    | Recorded(build: string, limit: int, stuck: set<string>)
    | SaveFailed(build: string, rowDeleted: bool)
    | Failed

  ghost function Next(s: State, e: Outcome): State {
    match e
    case Recorded(build, limit, stuck) => State(Left(s.dirs + {build}, build, limit, stuck), Some(build))
    case SaveFailed(build, rowDeleted) => State(s.dirs + {build}, if rowDeleted then None else s.recorded)
    case Failed => s
  }

  ghost function After(s: State, run: seq<Outcome>): State {
    if run == [] then s else Next(After(s, run[..|run| - 1]), run[|run| - 1])
  }

  lemma {:induction false} RecordedIsNeverPruned(s: State, run: seq<Outcome>)
    requires s.recorded.Some? ==> s.recorded.value in s.dirs
    ensures var t := After(s, run); t.recorded.Some? ==> t.recorded.value in t.dirs
  {
    if run != [] { RecordedIsNeverPruned(s, run[..|run| - 1]); }
  }

  /** The row still names what it named. */
  predicate LeavesTheRow(e: Outcome) { e.Failed? || (e.SaveFailed? && !e.rowDeleted) }

  /** From the k-th end on the row names that build. */
  predicate Names(run: seq<Outcome>, k: nat, build: string) {
    k < |run| && run[k].Recorded? && run[k].build == build && forall m | k < m < |run| :: LeavesTheRow(run[m])
  }

  /** The row names the last build that was recorded, unless a failed save deleted it since. */
  lemma {:induction false} NamedExactly(s: State, run: seq<Outcome>, build: string)
    ensures After(s, run).recorded == Some(build) <==>
      (exists k: nat :: Names(run, k, build))
      || (s.recorded == Some(build) && forall m | 0 <= m < |run| :: LeavesTheRow(run[m]))
  {
    if run != [] {
      var n := |run| - 1;
      var before := run[..n];
      NamedExactly(s, before, build);
      if k: nat :| Names(before, k, build) {
        if LeavesTheRow(run[n]) { assert Names(run, k, build); }
      }
      if k: nat :| Names(run, k, build) {
        if k < n { assert Names(before, k, build); }
      }
      if run[n].Recorded? && run[n].build == build { assert Names(run, n, build); }
    }
  }

  /** What a build installed is on disk until some later build prunes, recorded or not. */
  lemma {:induction false} InstalledUntilPruned(s: State, run: seq<Outcome>, k: nat)
    requires k < |run| && !run[k].Failed? && forall m | k < m < |run| :: !run[m].Recorded?
    ensures run[k].build in After(s, run).dirs
  {
    var n := |run| - 1;
    if k < n { InstalledUntilPruned(s, run[..n], k); }
  }

  /** Builds may also fail, or not be recorded, and directories may refuse to go: whatever happened
      before, the directory the row names is there, and the next build to be recorded that can
      remove what it should brings the directories within the limit again. */
  lemma StuckDirectoriesAreCaughtUp(s: State, run: seq<Outcome>, build: string, limit: int)
    requires limit >= 1 && (s.recorded.Some? ==> s.recorded.value in s.dirs)
    ensures var t := After(s, run); t.recorded.Some? ==> t.recorded.value in t.dirs
    ensures var t := After(s, run + [Recorded(build, limit, {})]);
            t.recorded == Some(build) && build in t.dirs && |t.dirs| <= limit
  {
    RecordedIsNeverPruned(s, run);
    assert (run + [Recorded(build, limit, {})])[..|run|] == run;
    AtMostLimitAreLeft(After(s, run).dirs + {build}, build, limit);
  }
}
