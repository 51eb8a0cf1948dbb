/**
 Startup recovery and the hourly sweep: which publications are restored, which remote shares are
 kept, and what the progress bar counts.

 Whether artifacts are on disk, and what the database answers, are inputs.
 */
module Recovery {
  import opened ByteStrings
  import opened Lists
  import opened Keys

  /** A preview's row: is it ready, does it name an artifact directory, is that on disk? */
  datatype Row = Row(id: string, ready: bool, named: bool, onDisk: bool)

  /** A build's row: does it carry a share's URL, and are its artifacts on disk? */
  datatype Build = Build(id: string, shared: bool, onDisk: bool)

  /** What listing a preview's builds answers; None when the read fails. */
  type Reads = string -> Option<seq<Build>>

  predicate Eligible(r: Row) { r.ready && r.named && r.onDisk }

  predicate Restorable(b: Build) { b.shared && b.onDisk }

  function RestorableOf(builds: seq<Build>): seq<Build> {
    if builds == [] then []
    else
      var last := builds[|builds| - 1];
      RestorableOf(builds[..|builds| - 1]) + if Restorable(last) then [last] else []
  }

  lemma {:induction false} RestorableOfKeeps(builds: seq<Build>, b: Build)
    ensures b in RestorableOf(builds) <==> b in builds && Restorable(b)
  {
    if builds != [] {
      RestorableOfKeeps(builds[..|builds| - 1], b);
      assert builds == builds[..|builds| - 1] + [builds[|builds| - 1]];
    }
  }

  /** The build shares of a preview that a restore will try to publish. */
  function Shares(enabled: bool, read: Option<seq<Build>>): seq<Build> {
    if !enabled || read.None? then [] else RestorableOf(read.value)
  }

  // ---------------------------------------------------------------------------------------
  // What recovery computes
  // ---------------------------------------------------------------------------------------

  function EligibleOf(rows: seq<Row>): seq<Row> {
    if rows == [] then []
    else
      var last := rows[|rows| - 1];
      EligibleOf(rows[..|rows| - 1]) + if Eligible(last) then [last] else []
  }

  /** Round trips: one for each eligible preview and one for each of its build shares. */
  function Total(eligible: seq<Row>, enabled: bool, db: Reads): nat {
    if eligible == [] then 0
    else
      var n := |eligible| - 1;
      Total(eligible[..n], enabled, db) + 1 + |Shares(enabled, db(eligible[n].id))|
  }

  function KeysOf(id: string, shares: seq<Build>): set<string> {
    {Key(id, "")} + set b | b in shares :: Key(id, b.id)
  }

  /** The keys that reaping spares. */
  function Keep(eligible: seq<Row>, enabled: bool, db: Reads): set<string> {
    if eligible == [] then {}
    else
      var n := |eligible| - 1;
      Keep(eligible[..n], enabled, db) + KeysOf(eligible[n].id, Shares(enabled, db(eligible[n].id)))
  }

  /** Rows that are ready but whose artifacts are gone are dropped, the others kept in order. */
  method SelectEligible(rows: seq<Row>) returns (eligible: seq<Row>, dropped: set<string>)
    ensures eligible == EligibleOf(rows)
    ensures forall r :: r in eligible <==> r in rows && r.ready && r.named && r.onDisk
    ensures forall id :: id in dropped <==> exists r :: r in rows && r.id == id && r.ready && r.named && !r.onDisk
  {
    eligible, dropped := [], {};
    for i := 0 to |rows|
      invariant eligible == EligibleOf(rows[..i])
      invariant forall r :: r in eligible <==> r in rows[..i] && r.ready && r.named && r.onDisk
      invariant forall id ::
        id in dropped <==> exists r :: r in rows[..i] && r.id == id && r.ready && r.named && !r.onDisk
    {
      var r := rows[i];
      assert rows[..i + 1][..i] == rows[..i] && rows[..i + 1] == rows[..i] + [r];
      if r.ready && r.named {
        if !r.onDisk {
          dropped := dropped + {r.id};
        } else {
          eligible := eligible + [r];
        }
      }
    }
    assert rows[..|rows|] == rows;
  }

  /** The denominator of the progress bar and the keep-set, in one pass. */
  method CountAndKeep(eligible: seq<Row>, enabled: bool, db: Reads) returns (keep: set<string>, total: nat)
    ensures keep == Keep(eligible, enabled, db) && total == Total(eligible, enabled, db)
  {
    keep, total := {}, |eligible|;
    for i := 0 to |eligible|
      invariant keep == Keep(eligible[..i], enabled, db)
      invariant total == Total(eligible[..i], enabled, db) + (|eligible| - i)
    {
      var p := eligible[i];
      var shares := Shares(enabled, db(p.id));
      var keys := KeepShares(p.id, shares);
      keep := keep + keys;
      total := total + |shares|;
      OneMore(eligible, i);
    }
    assert eligible[..|eligible|] == eligible;
  }

  method KeepShares(id: string, shares: seq<Build>) returns (keys: set<string>)
    ensures keys == KeysOf(id, shares)
  {
    keys := {Key(id, "")};
    for j := 0 to |shares|
      invariant keys == KeysOf(id, shares[..j])
    {
      OneMore(shares, j);
      keys := keys + {Key(id, shares[j].id)};
    }
    assert shares[..|shares|] == shares;
  }

  // ---------------------------------------------------------------------------------------
  // Reaping
  // ---------------------------------------------------------------------------------------

  /** What is left of the shares an account holds, once a reap with this keep-set succeeds. */
  function Reaped(held: set<string>, keep: set<string>): set<string> { held * keep }

  method CountOrphans(adoptable: set<string>, keep: set<string>) returns (n: nat)
    ensures n == |adoptable| - |Reaped(adoptable, keep)|
    ensures n == |set key | key in adoptable && key !in keep|
  {
    n := 0;
    var todo := adoptable;
    ghost var orphans: set<string> := {};
    while todo != {}
      invariant todo <= adoptable && n == |orphans|
      invariant orphans == set key | key in adoptable && key !in todo && key !in keep
      decreases |todo|
    {
      var key :| key in todo;
      if key !in keep {
        orphans := orphans + {key};
        n := n + 1;
      }
      todo := todo - {key};
    }
    assert adoptable == orphans + Reaped(adoptable, keep);
    assert orphans == set key | key in adoptable && key !in keep;
  }

  // ---------------------------------------------------------------------------------------
  // What is attempted
  // ---------------------------------------------------------------------------------------

  /** Which previews came back; the shares of the builds of the others are not attempted. */
  type Served = string -> bool

  function Attempted(eligible: seq<Row>, enabled: bool, db: Reads, served: Served): set<string> {
    if eligible == [] then {}
    else
      var n := |eligible| - 1;
      Attempted(eligible[..n], enabled, db, served)
        + KeysOf(eligible[n].id, if served(eligible[n].id) then Shares(enabled, db(eligible[n].id)) else [])
  }

  /** How often the bar is bumped: once per preview, and once per build share attempted. */
  function Rounds(eligible: seq<Row>, enabled: bool, db: Reads, served: Served): nat {
    if eligible == [] then 0
    else
      var n := |eligible| - 1;
      Rounds(eligible[..n], enabled, db, served) + 1
        + if served(eligible[n].id) then |Shares(enabled, db(eligible[n].id))| else 0
  }

  /** The restore of one preview's build shares: it tries those on disk, and forgets the URL of
      those that are not, or of all when build shares are off. */
  method RestoreBuildShares(id: string, enabled: bool, read: Option<seq<Build>>)
    returns (tried: seq<Build>, forgotten: set<string>)
    ensures tried == Shares(enabled, read)
    ensures forall b :: b in tried <==> enabled && read.Some? && b in read.value && b.shared && b.onDisk
    ensures forall b :: b in forgotten <==>
      read.Some? && exists r :: r in read.value && r.id == b && r.shared && (!enabled || !r.onDisk)
  {
    tried, forgotten := [], {};
    if read.None? { return; }
    var builds := read.value;
    for i := 0 to |builds|
      invariant tried == if enabled then RestorableOf(builds[..i]) else []
      invariant forall b :: b in tried <==> enabled && b in builds[..i] && b.shared && b.onDisk
      invariant forall b :: b in forgotten <==>
        exists r :: r in builds[..i] && r.id == b && r.shared && (!enabled || !r.onDisk)
    {
      var r := builds[i];
      assert builds[..i + 1][..i] == builds[..i] && builds[..i + 1] == builds[..i] + [r];
      if r.shared {
        if !enabled || !r.onDisk {
          forgotten := forgotten + {r.id};
        } else {
          tried := tried + [r];
        }
      }
    }
    assert builds[..|builds|] == builds;
  }

  // ---------------------------------------------------------------------------------------
  // The keep-set and the restore agree
  // ---------------------------------------------------------------------------------------

  predicate DistinctRows(rows: seq<Row>) { forall i, j | 0 <= i < j < |rows| :: rows[i].id != rows[j].id }

  predicate DistinctBuilds(builds: seq<Build>) { forall i, j | 0 <= i < j < |builds| :: builds[i].id != builds[j].id }

  predicate NamedBuilds(builds: seq<Build>) { forall i | 0 <= i < |builds| :: builds[i].id != "" }

  /** What the database guarantees of what it lists. */
  predicate RowsOk(rows: seq<Row>, db: Reads) {
    && DistinctRows(rows)
    && (forall r | r in rows :: IsPreviewId(r.id))
    && (forall r | r in rows && db(r.id).Some? ::
          DistinctBuilds(db(r.id).value) && NamedBuilds(db(r.id).value))
  }

  lemma {:induction false} RestorableStayDistinct(builds: seq<Build>)
    requires DistinctBuilds(builds)
    ensures DistinctBuilds(RestorableOf(builds))
  {
    if builds != [] {
      var before, last := builds[..|builds| - 1], builds[|builds| - 1];
      RestorableStayDistinct(before);
      forall b | b in RestorableOf(before) ensures b.id != last.id {
        RestorableOfKeeps(before, b);
      }
    }
  }

  lemma {:induction false} BuildKeysCount(id: string, shares: seq<Build>)
    requires IsPreviewId(id) && DistinctBuilds(shares)
    ensures |set b | b in shares :: Key(id, b.id)| == |shares|
  {
    if shares != [] {
      var before, last := shares[..|shares| - 1], shares[|shares| - 1];
      BuildKeysCount(id, before);
      var keys := set b | b in before :: Key(id, b.id);
      assert shares == before + [last];
      assert (set b | b in shares :: Key(id, b.id)) == keys + {Key(id, last.id)};
      if Key(id, last.id) in keys {
        var b :| b in before && Key(id, b.id) == Key(id, last.id);
        KeyIsInjective(id, b.id, id, last.id);
      }
    }
  }

  lemma KeysOfCount(id: string, shares: seq<Build>)
    requires IsPreviewId(id) && DistinctBuilds(shares) && NamedBuilds(shares)
    ensures |KeysOf(id, shares)| == 1 + |shares|
  {
    BuildKeysCount(id, shares);
    forall b | b in shares ensures Key(id, b.id) != Key(id, "") {
      if Key(id, b.id) == Key(id, "") { KeyIsInjective(id, b.id, id, ""); }
    }
  }

  lemma SharesOk(rows: seq<Row>, db: Reads, enabled: bool, r: Row)
    requires RowsOk(rows, db) && r in rows
    ensures DistinctBuilds(Shares(enabled, db(r.id))) && NamedBuilds(Shares(enabled, db(r.id)))
  {
    if enabled && db(r.id).Some? {
      var builds := db(r.id).value;
      RestorableStayDistinct(builds);
      forall b | b in RestorableOf(builds) ensures b.id != "" { RestorableOfKeeps(builds, b); }
    }
  }

  lemma {:induction false} KeepSpeaksOfRows(eligible: seq<Row>, enabled: bool, db: Reads, key: string)
    requires key in Keep(eligible, enabled, db) && forall r | r in eligible :: IsPreviewId(r.id)
    ensures exists r :: r in eligible && PreviewOfKey(key) == r.id
  {
    var n := |eligible| - 1;
    if key in Keep(eligible[..n], enabled, db) {
      KeepSpeaksOfRows(eligible[..n], enabled, db, key);
    } else {
      var r := eligible[n];
      KeyReadsBack(r.id, "");
      forall b | b in Shares(enabled, db(r.id)) ensures PreviewOfKey(Key(r.id, b.id)) == r.id {
        KeyReadsBack(r.id, b.id);
      }
      assert r in eligible && PreviewOfKey(key) == r.id;
    }
  }

  /** The bar's total is the number of publications kept: no key is counted twice. */
  lemma {:induction false} TotalCountsTheKeepSet(eligible: seq<Row>, enabled: bool, db: Reads)
    requires RowsOk(eligible, db)
    ensures Total(eligible, enabled, db) == |Keep(eligible, enabled, db)|
  {
    if eligible != [] {
      var n := |eligible| - 1;
      var before, last := eligible[..n], eligible[n];
      var shares := Shares(enabled, db(last.id));
      assert eligible == before + [last];
      assert RowsOk(before, db);
      TotalCountsTheKeepSet(before, enabled, db);
      SharesOk(eligible, db, enabled, last);
      KeysOfCount(last.id, shares);
      forall key | key in KeysOf(last.id, shares) ensures key !in Keep(before, enabled, db) {
        OwnKeys(last.id, shares, key);
        if key in Keep(before, enabled, db) { KeepSpeaksOfRows(before, enabled, db, key); }
      }
      assert Keep(before, enabled, db) !! KeysOf(last.id, shares);
    }
  }

  lemma OwnKeys(id: string, shares: seq<Build>, key: string)
    requires IsPreviewId(id) && key in KeysOf(id, shares)
    ensures PreviewOfKey(key) == id
  {
    KeyReadsBack(id, "");
    forall b | b in shares ensures PreviewOfKey(Key(id, b.id)) == id { KeyReadsBack(id, b.id); }
  }

  lemma {:induction false} KeepHas(eligible: seq<Row>, enabled: bool, db: Reads, key: string)
    ensures key in Keep(eligible, enabled, db) <==>
      exists r :: r in eligible && key in KeysOf(r.id, Shares(enabled, db(r.id)))
  {
    if eligible != [] {
      var n := |eligible| - 1;
      var before, last := eligible[..n], eligible[n];
      assert eligible == before + [last];
      KeepHas(before, enabled, db, key);
      if key in Keep(eligible, enabled, db) && key !in Keep(before, enabled, db) { assert last in eligible; }
    }
  }

  lemma {:induction false} EligibleOfKeeps(rows: seq<Row>, r: Row)
    ensures r in EligibleOf(rows) <==> r in rows && r.ready && r.named && r.onDisk
  {
    if rows != [] {
      EligibleOfKeeps(rows[..|rows| - 1], r);
      assert rows == rows[..|rows| - 1] + [rows[|rows| - 1]];
    }
  }

  /** What the reap at startup spares: the previews recorded as ready whose artifacts are there,
      and, if build shares are on, those of their builds that have a URL and artifacts. */
  lemma KeptExactly(rows: seq<Row>, enabled: bool, db: Reads, p: string, build: string)
    requires RowsOk(rows, db) && IsPreviewId(p)
    ensures Key(p, build) in Keep(EligibleOf(rows), enabled, db) <==>
      && (exists r :: r in rows && r.id == p && r.ready && r.named && r.onDisk)
      && (build == "" || (enabled && db(p).Some? && exists b :: b in db(p).value && b.id == build && b.shared && b.onDisk))
  {
    var eligible := EligibleOf(rows);
    KeepHas(eligible, enabled, db, Key(p, build));
    if Key(p, build) in Keep(eligible, enabled, db) {
      var r :| r in eligible && Key(p, build) in KeysOf(r.id, Shares(enabled, db(r.id)));
      EligibleOfKeeps(rows, r);
      OwnKeys(r.id, Shares(enabled, db(r.id)), Key(p, build));
      KeyReadsBack(p, build);
      KeyOfShare(enabled, db, p, build);
    }
    if r :| r in rows && r.id == p && r.ready && r.named && r.onDisk {
      EligibleOfKeeps(rows, r);
      KeyOfShare(enabled, db, p, build);
    }
  }

  lemma KeyOfShare(enabled: bool, db: Reads, p: string, build: string)
    requires IsPreviewId(p)
    ensures Key(p, build) in KeysOf(p, Shares(enabled, db(p))) <==>
      build == "" || (enabled && db(p).Some? && exists b :: b in db(p).value && b.id == build && b.shared && b.onDisk)
  {
    var shares := Shares(enabled, db(p));
    if enabled && db(p).Some? {
      forall b ensures b in shares <==> b in db(p).value && b.shared && b.onDisk { RestorableOfKeeps(db(p).value, b); }
    }
    if Key(p, build) in KeysOf(p, shares) && build != "" {
      if Key(p, build) == Key(p, "") { KeyIsInjective(p, build, p, ""); }
      var b :| b in shares && Key(p, b.id) == Key(p, build);
      KeyIsInjective(p, b.id, p, build);
    }
  }

  /** The builds of some shares. */
  function Ids(shares: seq<Build>): set<string> { set b | b in shares :: b.id }

  lemma KeyAmong(id: string, shares: seq<Build>, build: string)
    requires IsPreviewId(id) && build != ""
    ensures Key(id, build) in KeysOf(id, shares) <==> build in Ids(shares)
  {
    if Key(id, build) in KeysOf(id, shares) {
      if Key(id, build) == Key(id, "") { KeyIsInjective(id, build, id, ""); }
      var b :| b in shares && Key(id, b.id) == Key(id, build);
      KeyIsInjective(id, b.id, id, build);
    }
  }

  /** One keep-set is inside another exactly when it is so preview by preview. */
  lemma KeepIncludesExactly(eligible: seq<Row>, enabled: bool, a: Reads, b: Reads)
    requires RowsOk(eligible, a) && RowsOk(eligible, b)
    ensures Keep(eligible, enabled, a) <= Keep(eligible, enabled, b) <==>
      forall r | r in eligible :: Ids(Shares(enabled, a(r.id))) <= Ids(Shares(enabled, b(r.id)))
  {
    if forall r | r in eligible :: Ids(Shares(enabled, a(r.id))) <= Ids(Shares(enabled, b(r.id))) {
      forall key | key in Keep(eligible, enabled, a) ensures key in Keep(eligible, enabled, b) {
        InsideIfBuildsAre(eligible, enabled, a, b, key);
      }
    }
    if Keep(eligible, enabled, a) <= Keep(eligible, enabled, b) {
      forall r, id | r in eligible && id in Ids(Shares(enabled, a(r.id))) ensures id in Ids(Shares(enabled, b(r.id))) {
        BuildsAreIfInside(eligible, enabled, a, b, r, id);
      }
    }
  }

  lemma InsideIfBuildsAre(eligible: seq<Row>, enabled: bool, a: Reads, b: Reads, key: string)
    requires RowsOk(eligible, a) && key in Keep(eligible, enabled, a)
    requires forall r | r in eligible :: Ids(Shares(enabled, a(r.id))) <= Ids(Shares(enabled, b(r.id)))
    ensures key in Keep(eligible, enabled, b)
  {
    KeepHas(eligible, enabled, a, key);
    KeepHas(eligible, enabled, b, key);
    var r :| r in eligible && key in KeysOf(r.id, Shares(enabled, a(r.id)));
    if key != Key(r.id, "") {
      var x :| x in Shares(enabled, a(r.id)) && key == Key(r.id, x.id);
      assert x.id in Ids(Shares(enabled, a(r.id)));
    }
  }

  lemma BuildsAreIfInside(eligible: seq<Row>, enabled: bool, a: Reads, b: Reads, r: Row, id: string)
    requires RowsOk(eligible, a) && RowsOk(eligible, b) && r in eligible && id in Ids(Shares(enabled, a(r.id)))
    requires Keep(eligible, enabled, a) <= Keep(eligible, enabled, b)
    ensures id in Ids(Shares(enabled, b(r.id)))
  {
    SharesOk(eligible, a, enabled, r);
    KeyAmong(r.id, Shares(enabled, a(r.id)), id);
    KeepHas(eligible, enabled, a, Key(r.id, id));
    KeepHas(eligible, enabled, b, Key(r.id, id));
    var q :| q in eligible && Key(r.id, id) in KeysOf(q.id, Shares(enabled, b(q.id)));
    OwnKeys(q.id, Shares(enabled, b(q.id)), Key(r.id, id));
    KeyReadsBack(r.id, id);
    KeyAmong(r.id, Shares(enabled, b(r.id)), id);
  }

  /** A read whose answer is used only for the previews that came back. */
  function Reached(db: Reads, served: Served): Reads { id => if served(id) then db(id) else None }

  /** What is tried is a keep-set too, of those previews. */
  lemma {:induction false} AttemptedIsAKeepSet(eligible: seq<Row>, enabled: bool, db: Reads, served: Served)
    ensures Attempted(eligible, enabled, db, served) == Keep(eligible, enabled, Reached(db, served))
    ensures Rounds(eligible, enabled, db, served) == Total(eligible, enabled, Reached(db, served))
  {
    if eligible != [] { AttemptedIsAKeepSet(eligible[..|eligible| - 1], enabled, db, served); }
  }

  lemma ReachedIsOk(eligible: seq<Row>, db: Reads, served: Served)
    requires RowsOk(eligible, db)
    ensures RowsOk(eligible, Reached(db, served))
  {
    forall r | r in eligible && Reached(db, served)(r.id).Some?
      ensures DistinctBuilds(Reached(db, served)(r.id).value) && NamedBuilds(Reached(db, served)(r.id).value)
    {
      assert served(r.id) && db(r.id).Some?;
    }
  }

  /** The builds are read once for the keep-set and again for the restore. Every publication the
      restore tries was spared by the reap exactly when no preview that came back has a build to
      restore that the first reading did not show. */
  lemma RestoreStaysInsideKeepExactly(eligible: seq<Row>, enabled: bool, first: Reads, second: Reads, served: Served)
    requires RowsOk(eligible, first) && RowsOk(eligible, second)
    ensures Attempted(eligible, enabled, second, served) <= Keep(eligible, enabled, first) <==>
      forall r | r in eligible && served(r.id) :: Ids(Shares(enabled, second(r.id))) <= Ids(Shares(enabled, first(r.id)))
  {
    ReachedIsOk(eligible, second, served);
    AttemptedIsAKeepSet(eligible, enabled, second, served);
    KeepIncludesExactly(eligible, enabled, Reached(second, served), first);
    assert forall r | r in eligible && served(r.id) :: Reached(second, served)(r.id) == second(r.id);
    assert forall r | r in eligible && !served(r.id) :: Ids(Shares(enabled, Reached(second, served)(r.id))) == {};
  }

  /** The bar counts publications, on both sides: its total those the first reading kept, its
      progress those the second had it try. So it passes the total exactly when more are tried
      than were kept. */
  lemma BarCountsPublications(eligible: seq<Row>, enabled: bool, first: Reads, second: Reads, served: Served)
    requires RowsOk(eligible, first) && RowsOk(eligible, second)
    ensures Total(eligible, enabled, first) == |Keep(eligible, enabled, first)|
    ensures Rounds(eligible, enabled, second, served) == |Attempted(eligible, enabled, second, served)|
  {
    TotalCountsTheKeepSet(eligible, enabled, first);
    ReachedIsOk(eligible, second, served);
    AttemptedIsAKeepSet(eligible, enabled, second, served);
    TotalCountsTheKeepSet(eligible, enabled, Reached(second, served));
  }

  /** The builds of a preview whose shares are tried: none, if it did not come back itself. */
  function TriedIds(enabled: bool, db: Reads, served: Served, id: string): set<string> {
    if served(id) then Ids(Shares(enabled, db(id))) else {}
  }

  lemma KeptIsTriedExactly(eligible: seq<Row>, enabled: bool, first: Reads, second: Reads, served: Served)
    requires RowsOk(eligible, first) && RowsOk(eligible, second)
    ensures Keep(eligible, enabled, first) <= Attempted(eligible, enabled, second, served) <==>
      forall r | r in eligible :: Ids(Shares(enabled, first(r.id))) <= TriedIds(enabled, second, served, r.id)
  {
    ReachedIsOk(eligible, second, served);
    AttemptedIsAKeepSet(eligible, enabled, second, served);
    KeepIncludesExactly(eligible, enabled, first, Reached(second, served));
    assert forall r | r in eligible ::
      Ids(Shares(enabled, Reached(second, served)(r.id))) == TriedIds(enabled, second, served, r.id);
  }

  /** When the restore stays inside what was kept, the bar does not pass its total, and it reaches
      it exactly when every preview with build shares counted came back, and each of them was
      still there to try. */
  lemma BarReachesItsTotalExactly(eligible: seq<Row>, enabled: bool, first: Reads, second: Reads, served: Served)
    requires RowsOk(eligible, first) && RowsOk(eligible, second)
    requires forall r | r in eligible && served(r.id) :: Ids(Shares(enabled, second(r.id))) <= Ids(Shares(enabled, first(r.id)))
    ensures Rounds(eligible, enabled, second, served) <= Total(eligible, enabled, first)
    ensures Rounds(eligible, enabled, second, served) == Total(eligible, enabled, first) <==>
      forall r | r in eligible :: Ids(Shares(enabled, first(r.id))) <= TriedIds(enabled, second, served, r.id)
  {
    RestoreStaysInsideKeepExactly(eligible, enabled, first, second, served);
    KeptIsTriedExactly(eligible, enabled, first, second, served);
    BarCountsPublications(eligible, enabled, first, second, served);
    SizesCompare(Attempted(eligible, enabled, second, served), Keep(eligible, enabled, first));
  }

  lemma SizesCompare<T>(a: set<T>, b: set<T>)
    requires a <= b
    ensures |a| <= |b| && (|a| == |b| <==> b <= a)
  {
    assert b == a + (b - a);
  }

  /** The case that goes wrong: the first read of a preview's builds fails, which counts as none,
      and the second does not. */
  lemma ReadsMustAgree(r: Row, b: Build) returns (first: Reads, second: Reads)
    requires Eligible(r) && Restorable(b) && IsPreviewId(r.id) && b.id != ""
    ensures Key(r.id, b.id) in Attempted([r], true, second, _ => true)
    ensures Key(r.id, b.id) !in Keep([r], true, first)
    ensures Rounds([r], true, second, _ => true) > Total([r], true, first)
  {
    first, second := _ => None, _ => Some([b]);
    assert RestorableOf([b]) == [b];
    assert [r][..0] == [];
    assert b in Shares(true, second(r.id));
    if Key(r.id, b.id) == Key(r.id, "") { KeyIsInjective(r.id, b.id, r.id, ""); }
  }

  // ---------------------------------------------------------------------------------------
  // Bumps from many goroutines
  // ---------------------------------------------------------------------------------------

  /** Counting is atomic and so is showing, but a bump does one after the other: `late` holds
      what was counted and is not shown yet. */
  datatype Bar = Bar(counted: nat, late: set<nat>, shown: nat)

  datatype Tick = Count | Show(n: nat)

  function Bump(s: Bar, t: Tick): Bar {
    match t
    case Count => Bar(s.counted + 1, s.late + {s.counted + 1}, s.shown)
    case Show(n) => if n in s.late then Bar(s.counted, s.late - {n}, n) else s
  }

  function BarAfter(ticks: seq<Tick>): Bar {
    if ticks == [] then Bar(0, {}, 0) else Bump(BarAfter(ticks[..|ticks| - 1]), ticks[|ticks| - 1])
  }

  function Counts(ticks: seq<Tick>): nat {
    if ticks == [] then 0 else Counts(ticks[..|ticks| - 1]) + if ticks[|ticks| - 1].Count? then 1 else 0
  }

  /** However the bumps interleave, the number shown is never more than the round trips done. */
  lemma {:induction false} ShownIsDone(ticks: seq<Tick>)
    ensures BarAfter(ticks).counted == Counts(ticks)
    ensures BarAfter(ticks).shown <= Counts(ticks) && forall n | n in BarAfter(ticks).late :: n <= Counts(ticks)
  {
    if ticks != [] { ShownIsDone(ticks[..|ticks| - 1]); }
  }

  /** The k-th tick shows a number that was waiting to be shown. */
  predicate Shows(ticks: seq<Tick>, k: nat)
    requires k < |ticks|
  {
    ticks[k].Show? && ticks[k].n in BarAfter(ticks[..k]).late
  }

  /** It is the last to do so. */
  ghost predicate ShowsLast(ticks: seq<Tick>, k: nat) {
    k < |ticks| && Shows(ticks, k) && forall j | k < j < |ticks| :: !Shows(ticks, j)
  }

  lemma PrefixShows(ticks: seq<Tick>, n: nat, k: nat)
    requires k < n <= |ticks|
    ensures Shows(ticks[..n], k) <==> Shows(ticks, k)
  {
    assert ticks[..n][..k] == ticks[..k];
  }

  /** What stands on the bar is what was shown last. */
  lemma {:induction false} LastShownStands(ticks: seq<Tick>)
    ensures forall k: nat | ShowsLast(ticks, k) :: BarAfter(ticks).shown == ticks[k].n
    ensures (forall k: nat | k < |ticks| :: !Shows(ticks, k)) ==> BarAfter(ticks).shown == 0
    decreases |ticks|
  {
    if ticks != [] {
      var n := |ticks| - 1;
      LastShownStands(ticks[..n]);
      forall k: nat | k < n ensures Shows(ticks[..n], k) <==> Shows(ticks, k) { PrefixShows(ticks, n, k); }
      forall k: nat | ShowsLast(ticks, k) ensures BarAfter(ticks).shown == ticks[k].n {
        if k < n {
          assert !Shows(ticks, n) && ShowsLast(ticks[..n], k);
        }
      }
      if forall k: nat | k < |ticks| :: !Shows(ticks, k) {
        assert !Shows(ticks, n);
        assert forall k: nat | k < n :: !Shows(ticks[..n], k);
      }
    }
  }

  /** Once every bump was shown the bar stands at the round trips done exactly when the last number
      shown is the largest one. */
  lemma BarEndsFullExactly(ticks: seq<Tick>, k: nat)
    requires BarAfter(ticks).late == {} && ShowsLast(ticks, k)
    ensures BarAfter(ticks).shown == Counts(ticks) <==>
      forall j: nat | j < |ticks| && Shows(ticks, j) :: ticks[j].n <= ticks[k].n
  {
    ShownIsDone(ticks);
    LastShownStands(ticks);
    forall j: nat | j < |ticks| && Shows(ticks, j) ensures ticks[j].n <= Counts(ticks) {
      ShownIsDone(ticks[..j]);
      CountsGrow(ticks, j);
    }
    if Counts(ticks) > 0 { var j := CountedIsShown(ticks, Counts(ticks)); }
  }

  lemma {:induction false} CountsGrow(ticks: seq<Tick>, j: nat)
    requires j <= |ticks|
    ensures Counts(ticks[..j]) <= Counts(ticks)
    decreases |ticks|
  {
    if j < |ticks| {
      var n := |ticks| - 1;
      CountsGrow(ticks[..n], j);
      assert ticks[..n][..j] == ticks[..j];
    } else {
      assert ticks[..j] == ticks;
    }
  }

  /** Every number counted is waiting, or was shown. */
  lemma {:induction false} CountedIsShown(ticks: seq<Tick>, n: nat) returns (j: nat)
    requires 0 < n <= Counts(ticks) && n !in BarAfter(ticks).late
    ensures j < |ticks| && Shows(ticks, j) && ticks[j].n == n
    decreases |ticks|
  {
    var last := |ticks| - 1;
    ShownIsDone(ticks[..last]);
    if Shows(ticks, last) && ticks[last].n == n {
      j := last;
    } else {
      j := CountedIsShown(ticks[..last], n);
      PrefixShows(ticks, last, j);
    }
  }

  /** So it may end short of them. */
  lemma BarMayEndShort() returns (ticks: seq<Tick>)
    ensures var s := BarAfter(ticks); Counts(ticks) == 2 && s.late == {} && s.shown == 1
  {
    var one := [Count];
    var two := one + [Count];
    var three := two + [Show(2)];
    ticks := three + [Show(1)];
    OneTick([], Count);
    assert [] + [Count] == one;
    OneTick(one, Count);
    OneTick(two, Show(2));
    OneTick(three, Show(1));
    assert BarAfter(two).late - {2} == {1};
  }

  lemma OneTick(ticks: seq<Tick>, t: Tick)
    ensures BarAfter(ticks + [t]) == Bump(BarAfter(ticks), t)
    ensures Counts(ticks + [t]) == Counts(ticks) + if t.Count? then 1 else 0
  {
    assert (ticks + [t])[..|ticks|] == ticks;
  }

  // ---------------------------------------------------------------------------------------
  // One preview's restore
  // ---------------------------------------------------------------------------------------

  /** A preview's row afterwards. */
  datatype After = Ready(url: string) | Failed | Gone

  /** What the calls a restore makes answer. */
  datatype Answers = Answers(usable: bool, published: Option<string>, saves: bool, deletes: bool, fails: bool)

  datatype Restored = Restored(live: Option<string>, row: After, served: bool)

  /** Recovery of a preview recorded as ready at `url`. */
  function Restore(url: string, a: Answers): Restored {
    if !a.usable then
      Restored(None, if a.deletes then Gone else Ready(url), false)
    else
      match a.published
      case None => Restored(None, if a.fails then Failed else Ready(url), false)
      case Some(at) =>
        if at == url then Restored(Some(at), Ready(url), true)
        else if a.saves then Restored(Some(at), Ready(at), true)
        else Restored(Some(at), if a.fails then Failed else Ready(url), false)
  }

  /** The restore says that a preview is served, so that its builds are tried as well, exactly when it
      is both live and recorded with the URL it is live at. */
  lemma ServedExactly(url: string, a: Answers)
    ensures var r := Restore(url, a); r.served <==> r.live.Some? && r.row == Ready(r.live.value)
    ensures Restore(url, a).served <==> a.usable && a.published.Some? && (a.published.value == url || a.saves)
  {
  }

  // ---------------------------------------------------------------------------------------
  // The hourly sweep
  // ---------------------------------------------------------------------------------------

  predicate Recorded(read: Option<seq<Build>>, build: string) {
    read.Some? && exists b :: b in read.value && b.shared && b.id == build
  }

  /** What the sweep spares: the recorded previews and their builds with a URL, and nothing else,
      so a share whose row is written after the listing goes. It does not reap when it could not
      read some preview's builds. */
  method SweepKeep(previews: seq<string>, db: Reads) returns (keep: Option<set<string>>)
    requires forall p | p in previews :: IsPreviewId(p)
    ensures keep.None? <==> exists p :: p in previews && db(p).None?
    ensures keep.Some? ==> forall p, b | IsPreviewId(p) ::
      Key(p, b) in keep.value <==> p in previews && (b == "" || Recorded(db(p), b))
  {
    var all: set<string> := {};
    for i := 0 to |previews|
      invariant forall p | p in previews[..i] :: db(p).Some?
      invariant all == set p, b | p in previews[..i] && b in RecordedIds(db(p)) + {""} :: Key(p, b)
    {
      var p := previews[i];
      all := all + {Key(p, "")};
      if db(p).None? { return None; }
      var ids := SharedIds(db(p).value);
      all := all + set b | b in ids :: Key(p, b);
      assert previews[..i + 1] == previews[..i] + [p];
    }
    assert previews[..|previews|] == previews;
    SweepKeepsExactly(previews, db, all);
    return Some(all);
  }

  function RecordedIds(read: Option<seq<Build>>): set<string> {
    if read.None? then {} else set b | b in read.value && b.shared :: b.id
  }

  method SharedIds(builds: seq<Build>) returns (ids: set<string>)
    ensures ids == set b | b in builds && b.shared :: b.id
  {
    ids := {};
    for i := 0 to |builds|
      invariant ids == set b | b in builds[..i] && b.shared :: b.id
    {
      assert builds[..i + 1] == builds[..i] + [builds[i]];
      if builds[i].shared { ids := ids + {builds[i].id}; }
    }
    assert builds[..|builds|] == builds;
  }

  lemma SweepKeepsExactly(previews: seq<string>, db: Reads, all: set<string>)
    requires forall p | p in previews :: IsPreviewId(p)
    requires all == set p, b | p in previews && b in RecordedIds(db(p)) + {""} :: Key(p, b)
    ensures forall p, b | IsPreviewId(p) ::
      Key(p, b) in all <==> p in previews && (b == "" || Recorded(db(p), b))
  {
    forall p, b | IsPreviewId(p)
      ensures Key(p, b) in all <==> p in previews && (b == "" || Recorded(db(p), b))
    {
      assert b in RecordedIds(db(p)) <==> Recorded(db(p), b);
      if Key(p, b) in all {
        var q, c :| q in previews && c in RecordedIds(db(q)) + {""} && Key(q, c) == Key(p, b);
        KeyIsInjective(q, c, p, b);
      }
    }
  }
}
