/**
 The sweep on the local exposer, which has no controller and takes no snapshot: its reap drops, under
 its lock, every mount whose key was not kept.
 */
module LocalSweep {
  datatype Listing = NotListed | Listed(keys: set<string>)

  /** `mounted` names the mount serving each key; mounts are numbered as they come. */
  datatype State = State(mounted: map<string, nat>, mounts: nat, recorded: set<string>, rows: Listing)

  datatype Step =
    | Mount(key: string)
    | Unmount(key: string, mount: nat)   // a publication closed, perhaps long after it was replaced
    | SaveRow(key: string)
    | DropRow(key: string)
    | ListRows
    | ListFails
    | Reap

  const START := State(map[], 0, {}, NotListed)

  function Apply(s: State, step: Step): State {
    match step
    case Mount(key) => s.(mounted := s.mounted[key := s.mounts], mounts := s.mounts + 1)
    case Unmount(key, mount) =>
      if key in s.mounted && s.mounted[key] == mount then s.(mounted := s.mounted - {key}) else s
    case SaveRow(key) => s.(recorded := s.recorded + {key})
    case DropRow(key) => s.(recorded := s.recorded - {key})
    case ListRows => s.(rows := Listed(s.recorded))
    case ListFails => s.(rows := NotListed)
    case Reap =>
      if s.rows.Listed?
      then s.(mounted := map key | key in s.mounted && key in s.rows.keys :: s.mounted[key], rows := NotListed)
      else s
  }

  /** The state after the first n steps of any interleaving. */
  function After(steps: seq<Step>, n: nat): State
    requires n <= |steps|
  {
    if n == 0 then START else Apply(After(steps, n - 1), steps[n - 1])
  }

  /** Step k is the reap of the sweep that listed the rows at step a. */
  predicate ReapsListing(steps: seq<Step>, a: nat, k: nat) {
    a < k < |steps| && steps[a].ListRows? && steps[k].Reap?
    && forall m | a < m < k :: !steps[m].ListRows? && !steps[m].ListFails? && !steps[m].Reap?
  }

  /** The rows at hand are those of the latest listing. */
  lemma {:induction false} WhenListed(steps: seq<Step>, n: nat) returns (a: nat)
    requires n <= |steps| && After(steps, n).rows.Listed?
    ensures a < n && steps[a].ListRows? && After(steps, n).rows.keys == After(steps, a).recorded
    ensures forall m | a < m < n :: !steps[m].ListRows? && !steps[m].ListFails? && !steps[m].Reap?
  {
    if steps[n - 1].ListRows? {
      a := n - 1;
    } else {
      a := WhenListed(steps, n - 1);
    }
  }

  lemma {:induction false} RowsAtHand(steps: seq<Step>, a: nat, n: nat)
    requires a < n <= |steps| && steps[a].ListRows?
    requires forall m | a < m < n :: !steps[m].ListRows? && !steps[m].ListFails? && !steps[m].Reap?
    ensures After(steps, n).rows == Listed(After(steps, a).recorded)
  {
    if a + 1 < n { RowsAtHand(steps, a, n - 1); }
  }

  /** Step k is a reap whose sweep found no row of the key. */
  ghost predicate Drops(steps: seq<Step>, k: nat, key: string) {
    exists a: nat :: ReapsListing(steps, a, k) && key !in After(steps, a).recorded
  }

  lemma DropsExactly(steps: seq<Step>, k: nat, key: string)
    requires k < |steps|
    ensures Drops(steps, k, key)
            <==> steps[k].Reap? && After(steps, k).rows.Listed? && key !in After(steps, k).rows.keys
  {
    if Drops(steps, k, key) {
      var a: nat :| ReapsListing(steps, a, k) && key !in After(steps, a).recorded;
      RowsAtHand(steps, a, k);
    }
    if steps[k].Reap? && After(steps, k).rows.Listed? {
      var a := WhenListed(steps, k);
      assert ReapsListing(steps, a, k);
    }
  }

  /** A publication mounted after i steps, and neither closed nor replaced in the steps up to n, is
      gone after those exactly if one of them was a reap that found no row of its key: however early
      the rows were listed, and whatever was recorded since. */
  lemma {:induction false} DroppedExactly(steps: seq<Step>, i: nat, n: nat, key: string)
    requires i <= n <= |steps| && key in After(steps, i).mounted
    requires forall k | i <= k < n :: steps[k] != Mount(key) && steps[k] != Unmount(key, After(steps, i).mounted[key])
    ensures key !in After(steps, n).mounted <==> exists k | i <= k < n :: Drops(steps, k, key)
    ensures key in After(steps, n).mounted ==> After(steps, n).mounted[key] == After(steps, i).mounted[key]
  {
    if i < n {
      DroppedExactly(steps, i, n - 1, key);
      DropsExactly(steps, n - 1, key);
    }
  }

  /** Closing a publication takes its own mount away, at once, and never the one that replaced it. */
  lemma ClosedIsGone(steps: seq<Step>, n: nat, key: string, mount: nat, other: string)
    requires n < |steps| && steps[n] == Unmount(key, mount)
    ensures var before, after := After(steps, n).mounted, After(steps, n + 1).mounted;
            && (other in after <==> other in before && !(other == key && before[other] == mount))
            && (other in after ==> after[other] == before[other])
  {
  }

  /** A key has a row exactly if one was saved and not deleted since. */
  lemma {:induction false} RecordedExactly(steps: seq<Step>, n: nat, key: string)
    requires n <= |steps|
    ensures key in After(steps, n).recorded <==>
              exists k | 0 <= k < n :: steps[k] == SaveRow(key) && forall m | k < m < n :: steps[m] != DropRow(key)
  {
    if n > 0 {
      RecordedExactly(steps, n - 1, key);
      if key in After(steps, n - 1).recorded && steps[n - 1] != DropRow(key) {
        var k :| 0 <= k < n - 1 && steps[k] == SaveRow(key) && forall m | k < m < n - 1 :: steps[m] != DropRow(key);
        assert forall m | k < m < n :: steps[m] != DropRow(key);
      }
    }
  }

  /** It does happen: mounted and recorded between the listing and the reap. */
  lemma FreshMountMayBeDropped(key: string) returns (steps: seq<Step>)
    ensures var s := After(steps, |steps|);
            s.mounted == map[] && s.mounts == 1 && s.recorded == {key}
    ensures forall step | step in steps :: !step.Unmount? && !step.DropRow?
  {
    steps := [ListRows, Mount(key), SaveRow(key), Reap];
    assert After(steps, 1) == State(map[], 0, {}, Listed({}));
    assert After(steps, 3) == State(map[key := 0], 1, {key}, Listed({}));
  }
}
