/**
 The share audit: what an exposer's account holds, compared with what the database records.
 */
module ShareAudit {
  import opened ByteStrings
  import opened Lists
  import opened Sorting
  import opened Keys

  /** A share on the account. */
  datatype Held = Held(handle: string, origin: string)

  /** A publication the database claims exists. */
  datatype Claim = Claim(key: string, pr: string, url: string, published: bool)

  /** Problems come first. */
  datatype State = Orphan | Missing | Ok | Never

  datatype Row = Row(state: State, key: string, pr: string, share: string, url: string)

  datatype Tally = Tally(held: nat, matched: nat, orphaned: nat, missing: nat, unpublished: nat)

  type Account = map<string, Held>

  function TrimSlashes(s: string): string {
    if s != "" && s[|s| - 1] == '/' then TrimSlashes(s[..|s| - 1]) else s
  }

  /** The address of a share's root. */
  function RootOf(origin: string): string { TrimSlashes(origin) + "/" }

  function RowOf(held: Account, c: Claim): Row {
    if c.key in held then
      Row(Ok, c.key, c.pr, held[c.key].handle, if c.url == "" then RootOf(held[c.key].origin) else c.url)
    else if !c.published then Row(Never, c.key, c.pr, "", "")
    else Row(Missing, c.key, c.pr, "", c.url)
  }

  function OrphanRow(held: Account, key: string): Row
    requires key in held
  {
    Row(Orphan, key, "", held[key].handle, RootOf(held[key].origin))
  }

  function RowsOf(held: Account, claims: seq<Claim>): (rows: seq<Row>)
    ensures |rows| == |claims| && forall i | 0 <= i < |rows| :: rows[i] == RowOf(held, claims[i])
  {
    seq(|claims|, i requires 0 <= i < |claims| => RowOf(held, claims[i]))
  }

  function KeysOf(claims: seq<Claim>): (keys: seq<string>)
    ensures |keys| == |claims| && forall i | 0 <= i < |keys| :: keys[i] == claims[i].key
  {
    seq(|claims|, i requires 0 <= i < |claims| => claims[i].key)
  }

  function RowKeys(rows: seq<Row>): (keys: seq<string>)
    ensures |keys| == |rows| && forall i | 0 <= i < |keys| :: keys[i] == rows[i].key
  {
    seq(|rows|, i requires 0 <= i < |rows| => rows[i].key)
  }

  function Orphans(held: Account, claims: seq<Claim>): set<string> { held.Keys - Elements(KeysOf(claims)) }

  function OrphanRows(held: Account, keys: set<string>): set<Row>
    requires keys <= held.Keys
  {
    set key | key in keys :: OrphanRow(held, key)
  }

  function Rank(s: State): nat {
    match s case Orphan => 0 case Missing => 1 case Ok => 2 case Never => 3
  }

  /** The order of the report. */
  predicate RowLess(a: Row, b: Row) {
    Rank(a.state) < Rank(b.state) || (Rank(a.state) == Rank(b.state) && Less(a.key, b.key))
  }

  function Count(rows: seq<Row>, s: State): nat {
    if rows == [] then 0 else Count(rows[..|rows| - 1], s) + if rows[|rows| - 1].state == s then 1 else 0
  }

  /** The rows a report consists of, in its order; rows of claims that the order does not tell
      apart stand as the claims do. */
  ghost predicate IsReport(held: Account, claims: seq<Claim>, rows: seq<Row>) {
    && Sorted(rows, RowLess)
    && (forall r: Row {:trigger Pick(rows, r, RowLess)} | !r.state.Orphan? ::
          Pick(rows, r, RowLess) == Pick(RowsOf(held, claims), r, RowLess))
    && multiset(rows) == multiset(RowsOf(held, claims)) + multiset(OrphanRows(held, Orphans(held, claims)))
  }

  /** The account is a map, so its orphans are found in no particular order. */
  method Audit(held: Account, claims: seq<Claim>) returns (rows: seq<Row>, tally: Tally)
    ensures IsReport(held, claims, rows)
    ensures var found := RowsOf(held, claims);
            tally == Tally(|held|, Count(found, Ok), |Orphans(held, claims)|, Count(found, Missing), Count(found, Never))
  {
    var claimed;
    rows, claimed, tally := AuditClaims(held, claims);
    rows, tally := AuditOrphans(held, claims, claimed, rows, tally);
    RowLessIsWeakOrder();
    SortSorts(rows, RowLess);
    forall r: Row | !r.state.Orphan?
      ensures Pick(Sort(rows, RowLess), r, RowLess) == Pick(RowsOf(held, claims), r, RowLess)
    {
      SortIsStable(rows, r, RowLess);
      OnlyClaimsPicked(RowsOf(held, claims), rows, r);
    }
    rows := Sort(rows, RowLess);
  }

  /** The rows found first, and orphans behind them. */
  predicate OrphansBehind(found: seq<Row>, rows: seq<Row>) {
    |found| <= |rows| && rows[..|found|] == found && forall k | |found| <= k < |rows| :: rows[k].state.Orphan?
  }

  lemma OneMoreBehind(found: seq<Row>, rows: seq<Row>, row: Row)
    requires OrphansBehind(found, rows) && row.state.Orphan?
    ensures OrphansBehind(found, rows + [row])
  {
    assert (rows + [row])[..|found|] == rows[..|found|];
  }

  /** Orphans come after the rows of claims, and are told apart from them. */
  lemma OnlyClaimsPicked(found: seq<Row>, rows: seq<Row>, r: Row)
    requires OrphansBehind(found, rows) && !r.state.Orphan?
    ensures Pick(rows, r, RowLess) == Pick(found, r, RowLess)
  {
    var orphans := rows[|found|..];
    assert rows == found + orphans;
    PickConcat(found, orphans, r, RowLess);
    PickNone(orphans, r, RowLess);
  }

  lemma OneMoreClaim(held: Account, claims: seq<Claim>, i: nat)
    requires i < |claims|
    ensures var rows, row := RowsOf(held, claims[..i]), RowOf(held, claims[i]);
            && RowsOf(held, claims[..i + 1]) == rows + [row]
            && forall s :: Count(rows + [row], s) == Count(rows, s) + if row.state == s then 1 else 0
    ensures KeysOf(claims[..i + 1]) == KeysOf(claims[..i]) + [claims[i].key]
    ensures Elements(KeysOf(claims[..i + 1])) == Elements(KeysOf(claims[..i])) + {claims[i].key}
  {
    var rows, row := RowsOf(held, claims[..i]), RowOf(held, claims[i]);
    assert (rows + [row])[..|rows|] == rows;
    assert KeysOf(claims[..i + 1]) == KeysOf(claims[..i]) + [claims[i].key];
  }

  /** One more row of a claim. */
  function Tallied(t: Tally, s: State): Tally {
    match s
    case Ok => t.(matched := t.matched + 1)
    case Missing => t.(missing := t.missing + 1)
    case Never => t.(unpublished := t.unpublished + 1)
    case Orphan => t
  }

  /** The counts over the rows of claims. */
  function TallyOf(held: nat, rows: seq<Row>): Tally {
    Tally(held, Count(rows, Ok), 0, Count(rows, Missing), Count(rows, Never))
  }

  method AuditOne(held: Account, c: Claim, before: Tally) returns (row: Row, after: Tally)
    ensures row == RowOf(held, c) && after == Tallied(before, row.state)
  {
    if c.key in held {
      after := before.(matched := before.matched + 1);
      var url := c.url;
      if url == "" { url := RootOf(held[c.key].origin); }
      row := Row(Ok, c.key, c.pr, held[c.key].handle, url);
    } else if !c.published {
      after := before.(unpublished := before.unpublished + 1);
      row := Row(Never, c.key, c.pr, "", "");
    } else {
      after := before.(missing := before.missing + 1);
      row := Row(Missing, c.key, c.pr, "", c.url);
    }
  }

  ghost predicate AuditedTo(held: Account, claims: seq<Claim>, i: nat, rows: seq<Row>, claimed: set<string>, tally: Tally)
    requires i <= |claims|
  {
    rows == RowsOf(held, claims[..i]) && claimed == Elements(KeysOf(claims[..i])) && tally == TallyOf(|held|, rows)
  }

  lemma AuditStep(held: Account, claims: seq<Claim>, i: nat, rows: seq<Row>, claimed: set<string>, tally: Tally)
    requires i < |claims| && AuditedTo(held, claims, i, rows, claimed, tally)
    ensures var row := RowOf(held, claims[i]);
            AuditedTo(held, claims, i + 1, rows + [row], claimed + {claims[i].key}, Tallied(tally, row.state))
  {
    OneMoreClaim(held, claims, i);
  }

  method AuditClaims(held: Account, claims: seq<Claim>) returns (rows: seq<Row>, claimed: set<string>, tally: Tally)
    ensures rows == RowsOf(held, claims) && claimed == Elements(KeysOf(claims))
    ensures tally == TallyOf(|held|, rows)
  {
    rows, claimed, tally := [], {}, Tally(|held|, 0, 0, 0, 0);
    for i := 0 to |claims|
      invariant AuditedTo(held, claims, i, rows, claimed, tally)
    {
      AuditStep(held, claims, i, rows, claimed, tally);
      claimed := claimed + {claims[i].key};
      var row;
      row, tally := AuditOne(held, claims[i], tally);
      rows := rows + [row];
    }
    assert claims[..|claims|] == claims;
  }

  method AuditOrphans(held: Account, claims: seq<Claim>, claimed: set<string>, found: seq<Row>, tally: Tally)
    returns (rows: seq<Row>, full: Tally)
    requires claimed == Elements(KeysOf(claims)) && tally.orphaned == 0
    ensures multiset(rows) == multiset(found) + multiset(OrphanRows(held, Orphans(held, claims)))
    ensures OrphansBehind(found, rows)
    ensures full == tally.(orphaned := |Orphans(held, claims)|)
  {
    rows, full := found, tally;
    var todo := held.Keys;
    ghost var done: set<string> := {};
    while todo != {}
      invariant todo <= held.Keys && done <= held.Keys && todo !! done
      invariant Appended(held, found, done, rows)
      invariant OrphansBehind(found, rows)
      invariant forall key | key in held && key !in todo :: key in done <==> key !in claimed
      invariant full == tally.(orphaned := |done|)
      decreases |todo|
    {
      var key :| key in todo;
      todo := todo - {key};
      if key !in claimed {
        OrphanAppended(held, found, done, rows, key);
        OneMoreBehind(found, rows, OrphanRow(held, key));
        rows := rows + [OrphanRow(held, key)];
        full := full.(orphaned := full.orphaned + 1);
        done := done + {key};
      }
    }
    assert done == Orphans(held, claims);
  }

  ghost predicate Appended(held: Account, found: seq<Row>, done: set<string>, rows: seq<Row>)
    requires done <= held.Keys
  {
    multiset(rows) == multiset(found) + multiset(OrphanRows(held, done))
  }

  lemma OrphanAppended(held: Account, found: seq<Row>, done: set<string>, rows: seq<Row>, key: string)
    requires done <= held.Keys && key in held && key !in done && Appended(held, found, done, rows)
    ensures Appended(held, found, done + {key}, rows + [OrphanRow(held, key)])
  {
    OneMoreOrphan(held, done, key);
  }

  lemma OneMoreOrphan(held: Account, done: set<string>, key: string)
    requires key in held && key !in done && done <= held.Keys
    ensures OrphanRow(held, key) !in OrphanRows(held, done)
    ensures OrphanRows(held, done + {key}) == OrphanRows(held, done) + {OrphanRow(held, key)}
    ensures multiset(OrphanRows(held, done + {key}))
         == multiset(OrphanRows(held, done)) + multiset{OrphanRow(held, key)}
  {
    var before, row := OrphanRows(held, done), OrphanRow(held, key);
    assert row !in before;
    assert OrphanRows(held, done + {key}) == before + {row};
  }

  lemma RowLessIsWeakOrder()
    ensures WeakOrder(RowLess)
  {
    forall a: Row, b: Row | RowLess(a, b) ensures !RowLess(b, a) { LessIsAsymmetric(a.key, b.key); }
    forall a: Row, b: Row, c: Row | RowLess(a, c) ensures RowLess(a, b) || RowLess(b, c) {
      if Less(a.key, c.key) { LessSplits(a.key, b.key, c.key); }
    }
  }

  // ---------------------------------------------------------------------------------------
  // The report
  // ---------------------------------------------------------------------------------------

  lemma ReportRows(held: Account, claims: seq<Claim>, rows: seq<Row>, row: Row)
    requires IsReport(held, claims, rows)
    ensures row in rows <==> row in RowsOf(held, claims) || row in OrphanRows(held, Orphans(held, claims))
  {
    assert row in multiset(rows) <==> row in multiset(RowsOf(held, claims)) || row in multiset(OrphanRows(held, Orphans(held, claims)));
  }

  lemma {:induction false} OrphanRowsCount(held: Account, keys: set<string>)
    requires keys <= held.Keys
    ensures |OrphanRows(held, keys)| == |keys|
    decreases |keys|
  {
    if keys != {} {
      var key :| key in keys;
      OrphanRowsCount(held, keys - {key});
      OneMoreOrphan(held, keys - {key}, key);
      assert keys == keys - {key} + {key};
    }
  }

  /** What a report says of a claim: whether the share is held, and if not whether there should be
      one; which share it is, and the URL on record, or the root of the share when there is none. */
  lemma ClaimIsReported(held: Account, claims: seq<Claim>, rows: seq<Row>, c: Claim) returns (row: Row)
    requires IsReport(held, claims, rows) && c in claims
    ensures row in rows && row.key == c.key && row.pr == c.pr && !row.state.Orphan?
    ensures row.state.Ok? <==> c.key in held
    ensures row.state.Missing? <==> c.key !in held && c.published
    ensures row.share == if c.key in held then held[c.key].handle else ""
    ensures row.url == if row.state.Never? then "" else if row.state.Ok? && c.url == "" then RootOf(held[c.key].origin) else c.url
  {
    var i :| 0 <= i < |claims| && claims[i] == c;
    row := RowOf(held, c);
    assert RowsOf(held, claims)[i] == row;
    ReportRows(held, claims, rows, row);
  }

  /** And every other row is of a share that nobody claims. */
  lemma RowIsExplained(held: Account, claims: seq<Claim>, rows: seq<Row>, row: Row)
    requires IsReport(held, claims, rows) && row in rows
    ensures row.state.Orphan? ==>
      && row.key in held && row.key !in KeysOf(claims) && row.pr == ""
      && row.share == held[row.key].handle && row.url == RootOf(held[row.key].origin)
    ensures !row.state.Orphan? ==> exists c :: c in claims && c.key == row.key && c.pr == row.pr
  {
    ReportRows(held, claims, rows, row);
    if row in RowsOf(held, claims) {
      var i :| 0 <= i < |claims| && RowsOf(held, claims)[i] == row;
      assert claims[i] in claims && claims[i].key == row.key && claims[i].pr == row.pr;
    }
  }

  /** Problems come first: shares nobody claims, then missing ones, then those in order, then what was
      never published; and each of these by key. */
  lemma ProblemsComeFirst(held: Account, claims: seq<Claim>, rows: seq<Row>, i: nat, j: nat)
    requires IsReport(held, claims, rows) && i < j < |rows|
    ensures rows[i].state != rows[j].state ==>
      rows[i].state.Orphan? || rows[j].state.Never? || (rows[i].state.Missing? && rows[j].state.Ok?)
    ensures rows[i].state == rows[j].state ==> !Less(rows[j].key, rows[i].key)
  {
    assert !RowLess(rows[j], rows[i]);
  }

  /** The root of a share is its origin with one slash at the end. */
  lemma {:induction false} RootEndsInOneSlash(origin: string) returns (base: string, n: nat)
    ensures n <= |origin| && base == origin[..|origin| - n] && RootOf(origin) == base + "/"
    ensures base == "" || base[|base| - 1] != '/'
    ensures forall k | |origin| - n <= k < |origin| :: origin[k] == '/'
  {
    if origin != "" && origin[|origin| - 1] == '/' {
      base, n := RootEndsInOneSlash(origin[..|origin| - 1]);
      n := n + 1;
    } else {
      base, n := origin, 0;
    }
  }

  lemma ReportSize(held: Account, claims: seq<Claim>, rows: seq<Row>)
    requires IsReport(held, claims, rows)
    ensures |rows| == |claims| + |Orphans(held, claims)|
  {
    OrphanRowsCount(held, Orphans(held, claims));
    var found, orphans := RowsOf(held, claims), OrphanRows(held, Orphans(held, claims));
    assert |multiset(rows)| == |multiset(found)| + |multiset(orphans)|;
  }

  lemma ReportCovers(held: Account, claims: seq<Claim>, rows: seq<Row>, key: string)
    requires IsReport(held, claims, rows)
    ensures key in RowKeys(rows) <==> key in held || key in KeysOf(claims)
  {
    if key in RowKeys(rows) {
      var i :| 0 <= i < |rows| && RowKeys(rows)[i] == key;
      ReportRows(held, claims, rows, rows[i]);
      if rows[i] in RowsOf(held, claims) {
        var j :| 0 <= j < |claims| && RowsOf(held, claims)[j] == rows[i];
        assert KeysOf(claims)[j] == key;
      }
    } else if key in KeysOf(claims) {
      var i :| 0 <= i < |claims| && KeysOf(claims)[i] == key;
      assert RowsOf(held, claims)[i] in RowsOf(held, claims);
      ReportRows(held, claims, rows, RowsOf(held, claims)[i]);
      HasKey(rows, RowsOf(held, claims)[i]);
    } else if key in held {
      ReportRows(held, claims, rows, OrphanRow(held, key));
      HasKey(rows, OrphanRow(held, key));
    }
  }

  lemma ReportKeys(held: Account, claims: seq<Claim>, rows: seq<Row>)
    requires IsReport(held, claims, rows)
    ensures Elements(RowKeys(rows)) == held.Keys + Elements(KeysOf(claims))
  {
    forall key ensures key in RowKeys(rows) <==> key in held || key in KeysOf(claims) {
      ReportCovers(held, claims, rows, key);
    }
  }

  lemma EitherSide(held: Account, claims: seq<Claim>)
    requires Distinct(KeysOf(claims))
    ensures |held.Keys + Elements(KeysOf(claims))| == |claims| + |Orphans(held, claims)|
  {
    SizeOfDistinct(KeysOf(claims));
    assert held.Keys + Elements(KeysOf(claims)) == Elements(KeysOf(claims)) + Orphans(held, claims);
  }

  /** When no publication is recorded twice, every key of either side has exactly one row. */
  lemma EveryKeyHasOneRow(held: Account, claims: seq<Claim>, rows: seq<Row>)
    requires Distinct(KeysOf(claims)) && IsReport(held, claims, rows)
    ensures Distinct(RowKeys(rows))
    ensures Elements(RowKeys(rows)) == held.Keys + Elements(KeysOf(claims))
    ensures |rows| == |claims| + |Orphans(held, claims)|
  {
    ReportSize(held, claims, rows);
    ReportKeys(held, claims, rows);
    EitherSide(held, claims);
    NoRepeats(RowKeys(rows));
  }

  lemma HasKey(rows: seq<Row>, row: Row)
    requires row in rows
    ensures row.key in RowKeys(rows)
  {
    var i :| 0 <= i < |rows| && rows[i] == row;
    assert RowKeys(rows)[i] == row.key;
  }

  /** Whatever is recorded, there is one report: its rows do not depend on the order in which the
      account's map was gone through. */
  lemma ReportIsUnique(held: Account, claims: seq<Claim>, rows: seq<Row>, others: seq<Row>)
    requires IsReport(held, claims, rows) && IsReport(held, claims, others)
    ensures rows == others
  {
    RowLessIsWeakOrder();
    forall i, j | 0 <= i < |rows| && 0 <= j < |rows| && Same(rows[i], rows[j], RowLess) && rows[i] != rows[j]
      ensures Pick(rows, rows[i], RowLess) == Pick(others, rows[i], RowLess)
    {
      LessIsAsymmetric(rows[i].key, rows[j].key);
      if rows[i].state.Orphan? { OrphanIsItsRow(held, claims, rows, i); OrphanIsItsRow(held, claims, rows, j); }
    }
    SortedIsUnique(rows, others, RowLess);
  }

  lemma OrphanIsItsRow(held: Account, claims: seq<Claim>, rows: seq<Row>, i: nat)
    requires IsReport(held, claims, rows) && i < |rows| && rows[i].state.Orphan?
    ensures rows[i].key in held && rows[i] == OrphanRow(held, rows[i].key)
  {
    ReportRows(held, claims, rows, rows[i]);
  }

  // ---------------------------------------------------------------------------------------
  // The tally
  // ---------------------------------------------------------------------------------------

  /** Every recorded publication is matched, missing, or was never published. */
  lemma {:induction false} RecordedIsPartitioned(held: Account, claims: seq<Claim>)
    ensures var found := RowsOf(held, claims);
            |claims| == Count(found, Ok) + Count(found, Missing) + Count(found, Never)
  {
    if claims != [] {
      RecordedIsPartitioned(held, claims[..|claims| - 1]);
      assert RowsOf(held, claims)[..|claims| - 1] == RowsOf(held, claims[..|claims| - 1]);
    }
  }

  function Matched(held: Account, claims: seq<Claim>): set<string> { held.Keys * Elements(KeysOf(claims)) }

  lemma MatchedGrows(held: Account, claims: seq<Claim>, i: nat)
    requires i < |claims|
    ensures Matched(held, claims[..i + 1])
         == Matched(held, claims[..i]) + if claims[i].key in held then {claims[i].key} else {}
    ensures Distinct(KeysOf(claims)) ==> claims[i].key !in Matched(held, claims[..i])
  {
    OneMoreClaim(held, claims, i);
    var keys := KeysOf(claims[..i]);
    assert Elements(keys + [claims[i].key]) == Elements(keys) + {claims[i].key};
    if Distinct(KeysOf(claims)) {
      assert keys == KeysOf(claims)[..i] && claims[i].key == KeysOf(claims)[i];
    }
  }

  /** Two claims name one share that is held. */
  predicate TwiceClaimed(held: Account, claims: seq<Claim>, i: nat, j: nat) {
    i < j < |claims| && claims[i].key == claims[j].key && claims[j].key in held
  }

  lemma MatchedBefore(held: Account, claims: seq<Claim>, j: nat)
    requires j < |claims| && claims[j].key in held
    ensures claims[j].key in Matched(held, claims[..j]) <==> exists i: nat :: TwiceClaimed(held, claims, i, j)
  {
    var keys := KeysOf(claims[..j]);
    if claims[j].key in keys {
      var i :| 0 <= i < |keys| && keys[i] == claims[j].key;
      assert TwiceClaimed(held, claims, i, j);
    }
    if i: nat :| TwiceClaimed(held, claims, i, j) {
      assert keys[i] == claims[j].key;
    }
  }

  ghost predicate NeverTwice(held: Account, claims: seq<Claim>, n: nat) {
    forall i: nat, j: nat | j < n :: !TwiceClaimed(held, claims, i, j)
  }

  lemma OneMoreNeverTwice(held: Account, claims: seq<Claim>, j: nat)
    requires j < |claims|
    ensures NeverTwice(held, claims, j + 1) <==>
      NeverTwice(held, claims, j) && !(claims[j].key in held && claims[j].key in Matched(held, claims[..j]))
  {
    if claims[j].key in held { MatchedBefore(held, claims, j); }
  }

  lemma OneMoreMatched(held: Account, claims: seq<Claim>, j: nat)
    requires j < |claims|
    ensures |Matched(held, claims[..j + 1])| == |Matched(held, claims[..j])| +
              if claims[j].key in held && claims[j].key !in Matched(held, claims[..j]) then 1 else 0
  {
    MatchedGrows(held, claims, j);
    OneMoreElement(Matched(held, claims[..j]), claims[j].key);
  }

  lemma OneMoreElement<T>(s: set<T>, x: T)
    ensures |s + {x}| == |s| + if x in s then 0 else 1
  {
    if x in s { assert s + {x} == s; }
  }

  lemma OneMoreCounted(held: Account, claims: seq<Claim>, j: nat)
    requires j < |claims|
    ensures Count(RowsOf(held, claims[..j + 1]), Ok) == Count(RowsOf(held, claims[..j]), Ok) +
              if claims[j].key in held then 1 else 0
  {
    OneMoreClaim(held, claims, j);
  }

  /** Claims up to n are counted as matched at least once per share, and more often exactly when two
      of them name one. */
  lemma {:induction false} MatchedExactly(held: Account, claims: seq<Claim>, n: nat)
    requires n <= |claims|
    ensures |Matched(held, claims[..n])| <= Count(RowsOf(held, claims[..n]), Ok)
    ensures |Matched(held, claims[..n])| == Count(RowsOf(held, claims[..n]), Ok) <==> NeverTwice(held, claims, n)
  {
    if n > 0 {
      MatchedExactly(held, claims, n - 1);
      OneMoreMatched(held, claims, n - 1);
      OneMoreCounted(held, claims, n - 1);
      OneMoreNeverTwice(held, claims, n - 1);
    }
  }

  lemma DistinctNeverTwice(held: Account, claims: seq<Claim>)
    requires Distinct(KeysOf(claims))
    ensures forall i: nat, j: nat :: !TwiceClaimed(held, claims, i, j)
  {
    forall i: nat, j: nat ensures !TwiceClaimed(held, claims, i, j) {
      if i < j < |claims| { assert KeysOf(claims)[i] != KeysOf(claims)[j]; }
    }
  }

  /** Every share the account holds is matched or orphaned, and the counts say so exactly when no
      share that is held is claimed twice; otherwise they come to more. */
  lemma HeldIsPartitionedExactly(held: Account, claims: seq<Claim>)
    ensures |held| <= Count(RowsOf(held, claims), Ok) + |Orphans(held, claims)|
    ensures |held| == Count(RowsOf(held, claims), Ok) + |Orphans(held, claims)| <==>
              forall i: nat, j: nat :: !TwiceClaimed(held, claims, i, j)
  {
    MatchedExactly(held, claims, |claims|);
    assert claims[..|claims|] == claims;
    assert held.Keys == Matched(held, claims) + Orphans(held, claims);
    assert |held| == |held.Keys|;
  }

  /** The database's own claims add up. */
  lemma DistinctClaimsAddUp(held: Account, claims: seq<Claim>)
    requires Distinct(KeysOf(claims))
    ensures |held| == Count(RowsOf(held, claims), Ok) + |Orphans(held, claims)|
  {
    DistinctNeverTwice(held, claims);
    HeldIsPartitionedExactly(held, claims);
  }

  lemma DoubleClaimCountsTwice() returns (held: Account, claims: seq<Claim>)
    ensures |held| == 1 && Count(RowsOf(held, claims), Ok) == 2
  {
    held := map["p" := Held("t", "o")];
    var c := Claim("p", "", "", true);
    claims := [c, c];
    var row := RowOf(held, c);
    assert RowsOf(held, claims) == [row, row] && [row, row][..1] == [row] && [row][..0] == [];
    assert Count([row], Ok) == 1;
  }

  // ---------------------------------------------------------------------------------------
  // What the database records
  // ---------------------------------------------------------------------------------------

  /** The row of a preview, or of a build, which has an empty id in the former. */
  datatype Record = Record(id: string, pr: string, url: string, name: string)

  /** A preview's builds, or None when they cannot be read. */
  type Builds = string -> Option<seq<Record>>

  function BuildClaims(preview: string, builds: seq<Record>): seq<Claim> {
    if builds == [] then []
    else
      var b := builds[|builds| - 1];
      BuildClaims(preview, builds[..|builds| - 1])
        + if b.name == "" then [] else [Claim(Key(preview, b.id), b.pr, b.url, true)]
  }

  function PreviewClaims(p: Record, builds: seq<Record>): seq<Claim> {
    [Claim(Key(p.id, ""), p.pr, p.url, p.name != "")] + BuildClaims(p.id, builds)
  }

  function AllClaims(previews: seq<Record>, db: Builds): seq<Claim> {
    if previews == [] then []
    else
      var p := previews[|previews| - 1];
      AllClaims(previews[..|previews| - 1], db) + match db(p.id) case None => [] case Some(b) => PreviewClaims(p, b)
  }

  method RecordedShares(previews: seq<Record>, db: Builds) returns (claims: Option<seq<Claim>>)
    ensures claims.None? <==> exists p :: p in previews && db(p.id).None?
    ensures claims.Some? ==> claims.value == AllClaims(previews, db)
  {
    var all: seq<Claim> := [];
    for i := 0 to |previews|
      invariant all == AllClaims(previews[..i], db)
      invariant forall p | p in previews[..i] :: db(p.id).Some?
    {
      var p := previews[i];
      OneMore(previews, i);
      if db(p.id).None? { return None; }
      var own := SharesOfPreview(p, db(p.id).value);
      all := all + own;
    }
    assert previews[..|previews|] == previews;
    return Some(all);
  }

  method SharesOfPreview(p: Record, builds: seq<Record>) returns (own: seq<Claim>)
    ensures own == PreviewClaims(p, builds)
  {
    own := [Claim(Key(p.id, ""), p.pr, p.url, p.name != "")];
    for j := 0 to |builds|
      invariant own == PreviewClaims(p, builds[..j])
    {
      var b := builds[j];
      OneMore(builds, j);
      if b.name != "" { own := own + [Claim(Key(p.id, b.id), b.pr, b.url, true)]; }
    }
    assert builds[..|builds|] == builds;
  }

  /** What a preview's row claims, and what the row of one of its builds claims. */
  predicate ClaimedBy(c: Claim, p: Record, read: Option<seq<Record>>) {
    && read.Some?
    && (c == Claim(Key(p.id, ""), p.pr, p.url, p.name != "")
        || exists b :: b in read.value && b.name != "" && c == Claim(Key(p.id, b.id), b.pr, b.url, true))
  }

  lemma {:induction false} BuildClaimsExactly(preview: string, builds: seq<Record>, c: Claim)
    ensures c in BuildClaims(preview, builds) <==>
      exists b :: b in builds && b.name != "" && c == Claim(Key(preview, b.id), b.pr, b.url, true)
  {
    if builds != [] {
      BuildClaimsExactly(preview, builds[..|builds| - 1], c);
      assert builds == builds[..|builds| - 1] + [builds[|builds| - 1]];
    }
  }

  /** The claims are one for every preview, published or not, and one for every build that has a
      name, and nothing else. */
  lemma {:induction false} ClaimsExactly(previews: seq<Record>, db: Builds, c: Claim)
    ensures c in AllClaims(previews, db) <==> exists p :: p in previews && ClaimedBy(c, p, db(p.id))
  {
    if previews != [] {
      var before, p := previews[..|previews| - 1], previews[|previews| - 1];
      assert previews == before + [p];
      ClaimsExactly(before, db, c);
      if db(p.id).Some? { BuildClaimsExactly(p.id, db(p.id).value, c); }
    }
  }

  function Ids(records: seq<Record>): (ids: seq<string>)
    ensures |ids| == |records| && forall i | 0 <= i < |ids| :: ids[i] == records[i].id
  {
    seq(|records|, i requires 0 <= i < |records| => records[i].id)
  }

  predicate BuildIdsOk(builds: seq<Record>) { Distinct(Ids(builds)) && "" !in Ids(builds) }

  lemma {:induction false} BuildClaimsAreOfBuilds(preview: string, builds: seq<Record>, c: Claim)
    requires c in BuildClaims(preview, builds)
    ensures exists i :: 0 <= i < |builds| && c.key == Key(preview, builds[i].id)
  {
    var n := |builds| - 1;
    if c in BuildClaims(preview, builds[..n]) {
      BuildClaimsAreOfBuilds(preview, builds[..n], c);
      var i :| 0 <= i < n && c.key == Key(preview, builds[..n][i].id);
      assert c.key == Key(preview, builds[i].id);
    } else {
      assert c.key == Key(preview, builds[n].id);
    }
  }

  lemma {:induction false} BuildClaimsDistinct(preview: string, builds: seq<Record>)
    requires IsPreviewId(preview) && BuildIdsOk(builds)
    ensures Distinct(KeysOf(BuildClaims(preview, builds)))
  {
    if builds != [] {
      var before, last := builds[..|builds| - 1], builds[|builds| - 1];
      assert Ids(before) == Ids(builds)[..|before|];
      BuildClaimsDistinct(preview, before);
      forall c | c in BuildClaims(preview, before) ensures c.key != Key(preview, last.id) {
        BuildClaimsAreOfBuilds(preview, before, c);
        var i :| 0 <= i < |before| && c.key == Key(preview, before[i].id);
        assert Ids(builds)[i] != Ids(builds)[|before|];
        if c.key == Key(preview, last.id) { KeyIsInjective(preview, before[i].id, preview, last.id); }
      }
    }
  }

  lemma PreviewClaimsDistinct(p: Record, builds: seq<Record>)
    requires IsPreviewId(p.id) && BuildIdsOk(builds)
    ensures Distinct(KeysOf(PreviewClaims(p, builds)))
    ensures forall c | c in PreviewClaims(p, builds) :: PreviewOfKey(c.key) == p.id
  {
    BuildClaimsDistinct(p.id, builds);
    KeyReadsBack(p.id, "");
    forall c | c in BuildClaims(p.id, builds)
      ensures c.key != Key(p.id, "") && PreviewOfKey(c.key) == p.id
    {
      BuildClaimsAreOfBuilds(p.id, builds, c);
      var i :| 0 <= i < |builds| && c.key == Key(p.id, builds[i].id);
      assert Ids(builds)[i] != "";
      KeyReadsBack(p.id, builds[i].id);
    }
  }

  lemma DistinctConcat(a: seq<Claim>, b: seq<Claim>)
    requires Distinct(KeysOf(a)) && Distinct(KeysOf(b))
    requires forall c, d | c in a && d in b :: c.key != d.key
    ensures Distinct(KeysOf(a + b))
  {
    assert KeysOf(a + b) == KeysOf(a) + KeysOf(b);
    forall i, j | 0 <= i < |a| && 0 <= j < |b| ensures KeysOf(a)[i] != KeysOf(b)[j] {
      assert a[i] in a && b[j] in b;
    }
  }

  /** The database's claims never name a publication twice, because no two keys coincide; so the
      audit's counts add up. */
  lemma {:induction false} ClaimsAreDistinct(previews: seq<Record>, db: Builds)
    requires Distinct(Ids(previews))
    requires forall p | p in previews :: IsPreviewId(p.id) && db(p.id).Some? && BuildIdsOk(db(p.id).value)
    ensures Distinct(KeysOf(AllClaims(previews, db)))
    ensures forall c | c in AllClaims(previews, db) :: PreviewOfKey(c.key) in Ids(previews)
  {
    if previews != [] {
      var before, p := previews[..|previews| - 1], previews[|previews| - 1];
      assert Ids(before) == Ids(previews)[..|before|];
      assert previews == before + [p];
      ClaimsAreDistinct(before, db);
      PreviewClaimsDistinct(p, db(p.id).value);
      assert Ids(previews)[|before|] == p.id && p.id !in Ids(before);
      DistinctConcat(AllClaims(before, db), PreviewClaims(p, db(p.id).value));
    }
  }
}
