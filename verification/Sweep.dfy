/**
 The hourly sweep and the exposer's own reap.

 The daemon lists its rows, and hands the exposer the keys to keep. An exposer with shares on a
 controller then lists those, takes a snapshot of the ones this process serves, and deletes what is
 listed, not in the snapshot and not kept, one by one. Publishing goes on meanwhile: a share is
 created first, and enters the served set later.
 */
module Sweep {
  import opened Keys
  import P = Protocol
  import A = Agreement

  /** Created: on the controller, and not served by this process, or not yet. */
  datatype Phase = Created | Serving | Withdrawn

  datatype Share = Share(key: string, held: bool, phase: Phase)

  datatype Stage =
    | Idle
    | RowsListed(keep: set<string>)
    | SharesListed(keep: set<string>, listed: set<nat>)
    | Reaping(keep: set<string>, listed: set<nat>, served: set<nat>, doomed: set<nat>)

  /** `recorded` are the keys the rows name; `deleted` and `left` are what became of the shares the
      latest reap meant to delete. */
  datatype State = State(
    shares: seq<Share>,
    recorded: set<string>,
    stage: Stage,
    deleted: set<nat>,
    left: set<nat>)

  function Held(s: State): set<nat> { set t: nat | t < |s.shares| && s.shares[t].held }

  function Served(s: State): set<nat> { set t: nat | t < |s.shares| && s.shares[t].phase == Serving }

  function Doomed(s: State, keep: set<string>, listed: set<nat>, served: set<nat>): set<nat> {
    set t | t in listed && t < |s.shares| && t !in served && s.shares[t].key !in keep
  }

  datatype Step =
    | Create(key: string)     // Publish: the controller has the share
    | Serve(t: nat)           // Publish, or Adopt: it enters the served set
    | Withdraw(t: nat)        // it leaves the served set, or its publish failed
    | Remove(t: nat)          // and is deleted on the controller
    | SaveRow(key: string)
    | DropRow(key: string)
    | ListRows
    | ListShares
    | ListFails
    | Snapshot
    | Delete(t: nat)
    | GiveUp(t: nat)          // a deletion that failed

  predicate Enabled(s: State, step: Step) {
    match step
    case Serve(t) => t < |s.shares| && s.shares[t].phase == Created
    case Withdraw(t) => t < |s.shares| && s.shares[t].phase != Withdrawn
    case Remove(t) => t < |s.shares| && s.shares[t].phase == Withdrawn
    case ListRows => s.stage.Idle? || (s.stage.Reaping? && s.stage.doomed == {})
    case ListShares => s.stage.RowsListed?
    case ListFails => s.stage.RowsListed?
    case Snapshot => s.stage.SharesListed?
    case Delete(t) => s.stage.Reaping? && t in s.stage.doomed
    case GiveUp(t) => s.stage.Reaping? && t in s.stage.doomed
    case _ => true
  }

  function Apply(s: State, step: Step): State
    requires Enabled(s, step)
  {
    match step
    case Create(key) => s.(shares := s.shares + [Share(key, true, Created)])
    case Serve(t) => s.(shares := s.shares[t := s.shares[t].(phase := Serving)])
    case Withdraw(t) => s.(shares := s.shares[t := s.shares[t].(phase := Withdrawn)])
    case Remove(t) => s.(shares := s.shares[t := s.shares[t].(held := false)])
    case SaveRow(key) => s.(recorded := s.recorded + {key})
    case DropRow(key) => s.(recorded := s.recorded - {key})
    case ListRows => s.(stage := RowsListed(s.recorded))
    case ListShares => s.(stage := SharesListed(s.stage.keep, Held(s)))
    case ListFails => s.(stage := Idle)
    case Snapshot =>
      s.(stage := Reaping(s.stage.keep, s.stage.listed, Served(s), Doomed(s, s.stage.keep, s.stage.listed, Served(s))),
         deleted := {}, left := {})
    case Delete(t) =>
      s.(shares := if t < |s.shares| then s.shares[t := s.shares[t].(held := false)] else s.shares,
         stage := s.stage.(doomed := s.stage.doomed - {t}), deleted := s.deleted + {t})
    case GiveUp(t) => s.(stage := s.stage.(doomed := s.stage.doomed - {t}), left := s.left + {t})
  }

  ghost predicate Moves(run: seq<State>, i: nat)
    requires i + 1 < |run|
  {
    exists step :: Enabled(run[i], step) && run[i + 1] == Apply(run[i], step)
  }

  /** Any interleaving, from any state in which no sweep is under way. */
  ghost predicate IsRun(run: seq<State>) {
    |run| > 0 && run[0].stage.Idle?
    && forall i: nat {:trigger Moves(run, i)} | i + 1 < |run| :: Moves(run, i)
  }

  // ---------------------------------------------------------------------------------------
  // One sweep
  // ---------------------------------------------------------------------------------------

  /** The sweep that is reaping in state j listed the rows in state a and the shares in state b, and
      took its snapshot in state c. */
  ghost predicate IsSweep(run: seq<State>, a: nat, b: nat, c: nat, j: nat) {
    && a < b < c < j < |run|
    && (forall k | a < k <= b :: run[k].stage == RowsListed(run[a].recorded))
    && (forall k | b < k <= c :: run[k].stage == SharesListed(run[a].recorded, Held(run[b])))
    && (forall k | c < k <= j :: run[k].stage.Reaping? && run[k].stage.keep == run[a].recorded
                                 && run[k].stage.listed == Held(run[b]) && run[k].stage.served == Served(run[c]))
    && run[c + 1].shares == run[c].shares && run[c + 1].deleted == {} && run[c + 1].left == {}
    && run[c + 1].stage.doomed == Doomed(run[c], run[a].recorded, Held(run[b]), Served(run[c]))
  }

  lemma {:induction false} WhenRowsListed(run: seq<State>, j: nat) returns (a: nat)
    requires IsRun(run) && j < |run| && run[j].stage.RowsListed?
    ensures a < j && forall k | a < k <= j :: run[k].stage == RowsListed(run[a].recorded)
  {
    assert Moves(run, j - 1);
    var step :| Enabled(run[j - 1], step) && run[j] == Apply(run[j - 1], step);
    if step.ListRows? {
      a := j - 1;
    } else {
      a := WhenRowsListed(run, j - 1);
    }
  }

  lemma {:induction false} WhenSharesListed(run: seq<State>, j: nat) returns (a: nat, b: nat)
    requires IsRun(run) && j < |run| && run[j].stage.SharesListed?
    ensures a < b < j
    ensures forall k | a < k <= b :: run[k].stage == RowsListed(run[a].recorded)
    ensures forall k | b < k <= j :: run[k].stage == SharesListed(run[a].recorded, Held(run[b]))
  {
    assert Moves(run, j - 1);
    var step :| Enabled(run[j - 1], step) && run[j] == Apply(run[j - 1], step);
    if step.ListShares? {
      b := j - 1;
      a := WhenRowsListed(run, b);
    } else {
      a, b := WhenSharesListed(run, j - 1);
    }
  }

  /** Every reap under way belongs to a sweep. */
  lemma {:induction false} ReapsBelongToSweeps(run: seq<State>, j: nat) returns (a: nat, b: nat, c: nat)
    requires IsRun(run) && j < |run| && run[j].stage.Reaping?
    ensures IsSweep(run, a, b, c, j)
  {
    assert Moves(run, j - 1);
    var step :| Enabled(run[j - 1], step) && run[j] == Apply(run[j - 1], step);
    if step.Snapshot? {
      c := j - 1;
      a, b := WhenSharesListed(run, c);
    } else {
      a, b, c := ReapsBelongToSweeps(run, j - 1);
    }
  }

  // ---------------------------------------------------------------------------------------
  // What goes
  // ---------------------------------------------------------------------------------------

  /** A share keeps its key; it is created, then served, then withdrawn; and what was given back
      does not return. */
  lemma {:induction false} SharesAge(run: seq<State>, i: nat, j: nat, t: nat)
    requires IsRun(run) && i <= j < |run| && t < |run[i].shares|
    ensures t < |run[j].shares| && run[j].shares[t].key == run[i].shares[t].key
    ensures run[i].shares[t].phase == Withdrawn ==> run[j].shares[t].phase == Withdrawn
    ensures run[i].shares[t].phase == Serving ==> run[j].shares[t].phase != Created
    ensures run[j].shares[t].held ==> run[i].shares[t].held
  {
    if i < j {
      SharesAge(run, i, j - 1, t);
      assert Moves(run, j - 1);
    }
  }

  /** What a reap was to delete is deleted, left, or still to be deleted. */
  lemma {:induction false} DoomedAreDealtWith(run: seq<State>, a: nat, b: nat, c: nat, j: nat)
    requires IsRun(run) && IsSweep(run, a, b, c, j)
    ensures run[j].deleted + run[j].left + run[j].stage.doomed == Doomed(run[c], run[a].recorded, Held(run[b]), Served(run[c]))
    ensures run[j].deleted !! run[j].left && run[j].deleted !! run[j].stage.doomed && run[j].left !! run[j].stage.doomed
  {
    if j > c + 1 {
      assert IsSweep(run, a, b, c, j - 1);
      DoomedAreDealtWith(run, a, b, c, j - 1);
      assert Moves(run, j - 1);
      var step :| Enabled(run[j - 1], step) && run[j] == Apply(run[j - 1], step);
      if step.Delete? || step.GiveUp? { assert run[j - 1].stage.doomed == run[j].stage.doomed + {step.t}; }
    }
  }

  /** When a sweep is through, it has deleted a share exactly if that was on the controller when the
      shares were listed, was not served when the snapshot was taken, had no row when the rows were
      listed, and its deletion did not fail. */
  lemma ReapedExactly(run: seq<State>, a: nat, b: nat, c: nat, j: nat, t: nat)
    requires IsRun(run) && IsSweep(run, a, b, c, j) && run[j].stage.doomed == {} && t < |run[j].shares|
    ensures t in run[j].deleted <==>
      && t !in run[j].left && t < |run[b].shares| <= |run[c].shares| && run[b].shares[t].held
      && run[c].shares[t].phase != Serving && run[j].shares[t].key !in run[a].recorded
  {
    DoomedAreDealtWith(run, a, b, c, j);
    Longer(run, b, c);
    if t < |run[b].shares| {
      SharesAge(run, c, j, t);
      assert t in Held(run[b]) <==> run[b].shares[t].held;
      assert t in Served(run[c]) <==> run[c].shares[t].phase == Serving;
    }
  }

  lemma {:induction false} Longer(run: seq<State>, i: nat, j: nat)
    requires IsRun(run) && i <= j < |run|
    ensures |run[i].shares| <= |run[j].shares|
  {
    if i < j {
      Longer(run, i, j - 1);
      assert Moves(run, j - 1);
    }
  }

  /** A share that was not withdrawn, and was there when the shares were listed or came later, is on
      the controller still unless the sweep deleted it. */
  lemma {:induction false} HeldUnlessDeleted(run: seq<State>, a: nat, b: nat, c: nat, j: nat, k: nat, t: nat)
    requires IsRun(run) && IsSweep(run, a, b, c, j) && b <= k <= j
    requires t < |run[k].shares| && run[k].shares[t].phase != Withdrawn
    requires t < |run[b].shares| ==> run[b].shares[t].held
    ensures !run[k].shares[t].held <==> k > c && t in run[k].deleted
  {
    if k == b {
    } else if t < |run[k - 1].shares| {
      SharesAge(run, k - 1, k, t);
      HeldUnlessDeleted(run, a, b, c, j, k - 1, t);
      HeldStep(run, a, b, c, j, k, t);
    } else {
      assert Moves(run, k - 1);
      NewIsNotListed(run, a, b, c, j, k, t);
    }
  }

  lemma HeldStep(run: seq<State>, a: nat, b: nat, c: nat, j: nat, k: nat, t: nat)
    requires IsRun(run) && IsSweep(run, a, b, c, j) && b < k <= j && t < |run[k - 1].shares|
    requires t < |run[k].shares| && run[k].shares[t].phase != Withdrawn
    requires !run[k - 1].shares[t].held <==> k - 1 > c && t in run[k - 1].deleted
    ensures !run[k].shares[t].held <==> k > c && t in run[k].deleted
  {
    assert Moves(run, k - 1);
    var step :| Enabled(run[k - 1], step) && run[k] == Apply(run[k - 1], step);
    assert run[k - 1].stage.Reaping? <==> k - 1 > c;
  }

  lemma NewIsNotListed(run: seq<State>, a: nat, b: nat, c: nat, j: nat, k: nat, t: nat)
    requires IsRun(run) && IsSweep(run, a, b, c, j) && b < k <= j
    requires |run[k - 1].shares| <= t < |run[k].shares|
    ensures k > c ==> t !in run[k].deleted
    ensures run[k].shares[t].held
  {
    assert Moves(run, k - 1);
    Longer(run, b, k - 1);
    if k > c + 1 {
      assert IsSweep(run, a, b, c, k);
      DoomedAreDealtWith(run, a, b, c, k);
    }
  }

  /** Until the shares are listed nothing is deleted. */
  lemma {:induction false} UntouchedUntil(run: seq<State>, a: nat, b: nat, c: nat, j: nat, k: nat, t: nat)
    requires IsRun(run) && IsSweep(run, a, b, c, j) && a <= k <= b
    requires t < |run[a].shares| ==> run[a].shares[t].held
    requires t < |run[k].shares| && run[k].shares[t].phase != Withdrawn
    ensures run[k].shares[t].held
  {
    if k > a {
      assert Moves(run, k - 1);
      var step :| Enabled(run[k - 1], step) && run[k] == Apply(run[k - 1], step);
      if t < |run[k - 1].shares| {
        SharesAge(run, k - 1, k, t);
        UntouchedUntil(run, a, b, c, j, k - 1, t);
        if k - 1 == a { DeletingIsOver(run, a, b, c, j, step); }
      }
    }
  }

  /** A publication under way or being served when the sweep is through, whose share was there when
      the rows were listed or came later, has lost that exactly if it was created before the shares
      were listed, entered the served set after the snapshot, or has yet to, and had no row when the
      rows were listed. */
  lemma LostExactly(run: seq<State>, a: nat, b: nat, c: nat, j: nat, t: nat)
    requires IsRun(run) && IsSweep(run, a, b, c, j) && run[j].stage.doomed == {}
    requires t < |run[j].shares| && run[j].shares[t].phase != Withdrawn
    requires t < |run[a].shares| ==> run[a].shares[t].held
    ensures !run[j].shares[t].held <==>
      && t !in run[j].left && t < |run[b].shares| <= |run[c].shares|
      && run[c].shares[t].phase == Created && run[j].shares[t].key !in run[a].recorded
  {
    Longer(run, b, c);
    if t < |run[b].shares| {
      SharesAge(run, b, j, t);
      UntouchedUntil(run, a, b, c, j, b, t);
      SharesAge(run, c, j, t);
    }
    HeldUnlessDeleted(run, a, b, c, j, j, t);
    ReapedExactly(run, a, b, c, j, t);
  }

  /** So what was served when the rows were listed, and has not been withdrawn since, keeps its share,
      whether or not it has a row. */
  lemma ServedKeepTheirShares(run: seq<State>, a: nat, b: nat, c: nat, j: nat, t: nat)
    requires IsRun(run) && IsSweep(run, a, b, c, j) && run[j].stage.doomed == {}
    requires t < |run[a].shares| && run[a].shares[t].phase == Serving && run[a].shares[t].held
    requires t < |run[j].shares| && run[j].shares[t].phase != Withdrawn
    ensures run[j].shares[t].held
  {
    SharesAge(run, a, c, t);
    LostExactly(run, a, b, c, j, t);
  }

  /** Rows are listed when no deletion is pending. */
  lemma DeletingIsOver(run: seq<State>, a: nat, b: nat, c: nat, j: nat, step: Step)
    requires IsRun(run) && IsSweep(run, a, b, c, j)
    requires Enabled(run[a], step) && run[a + 1] == Apply(run[a], step)
    ensures !step.Delete?
  {
    assert run[a + 1].stage == RowsListed(run[a].recorded);
  }

  /** In every disciplined run of the daemon: a preview that was live, with no commit phase in
      progress, when the sweep listed the rows, keeps its share through the reap, be that served
      already, adopted or created later, or left by an earlier process, unless it is withdrawn. */
  lemma SweepSparesTheRecorded(d: P.Discipline, daemon: seq<P.State>, i: nat, p: string,
                               run: seq<State>, a: nat, b: nat, c: nat, j: nat, t: nat)
    requires d.ownSection && d.quietTail && d.atomicRecord && P.IsRun(d, daemon) && i < |daemon|
    requires p in daemon[i].maps.live && P.Calm(daemon[i], p)
    requires p in A.Astray(daemon[0]) ==> 0 <= daemon[i].maps.live[p].build
    requires IsRun(run) && IsSweep(run, a, b, c, j) && run[j].stage.doomed == {}
    requires forall q | q in daemon[i].rows :: Key(q, "") in run[a].recorded
    requires t < |run[j].shares| && run[j].shares[t].phase != Withdrawn && run[j].shares[t].key == Key(p, "")
    requires t < |run[a].shares| ==> run[a].shares[t].held
    ensures run[j].shares[t].held
  {
    A.LiveIsRecorded(d, daemon, i, p);
    LostExactly(run, a, b, c, j, t);
  }

  /** The next listing of rows waits until everything the sweep meant to delete is dealt with. */
  lemma NextSweepWaits(run: seq<State>, a: nat, b: nat, c: nat, j: nat)
    requires IsRun(run) && IsSweep(run, a, b, c, j) && j + 1 < |run| && !run[j + 1].stage.Reaping?
    ensures run[j].deleted + run[j].left == Doomed(run[c], run[a].recorded, Held(run[b]), Served(run[c]))
  {
    DoomedAreDealtWith(run, a, b, c, j);
    assert Moves(run, j);
  }

  // ---------------------------------------------------------------------------------------
  // What else happens to shares and rows
  // ---------------------------------------------------------------------------------------

  /** Step k of the run may have been this one. */
  predicate Happens(run: seq<State>, k: nat, step: Step)
    requires k + 1 < |run|
  {
    Enabled(run[k], step) && run[k + 1] == Apply(run[k], step)
  }

  /** A sweep whose listing of shares fails deletes nothing. */
  lemma FailedListingEndsTheSweep(run: seq<State>, a: nat, b: nat, c: nat, j: nat, k: nat)
    requires IsRun(run) && IsSweep(run, a, b, c, j) && a < k <= c
    ensures !Happens(run, k, ListFails)
  {
  }

  /** The share is given back by its publication, or deleted by the reap. */
  ghost predicate TakenAway(run: seq<State>, i: nat, j: nat, t: nat)
    requires j < |run|
  {
    exists k: nat :: i <= k < j && (Happens(run, k, Remove(t)) || Happens(run, k, Delete(t)))
  }

  /** A share that is held is gone later exactly if it was taken away in between. */
  lemma {:induction false} GoneExactly(run: seq<State>, i: nat, j: nat, t: nat)
    requires IsRun(run) && i <= j < |run| && t < |run[i].shares| && run[i].shares[t].held
    ensures t < |run[j].shares| && (!run[j].shares[t].held <==> TakenAway(run, i, j, t))
  {
    SharesAge(run, i, j, t);
    if i < j {
      GoneExactly(run, i, j - 1, t);
      SharesAge(run, j - 1, j, t);
      assert Moves(run, j - 1);
      if run[j - 1].shares[t].held { TakenInStep(run, j - 1, t); }
      if TakenAway(run, i, j - 1, t) {
        var k: nat :| i <= k < j - 1 && (Happens(run, k, Remove(t)) || Happens(run, k, Delete(t)));
      }
    }
  }

  lemma TakenInStep(run: seq<State>, k: nat, t: nat)
    requires IsRun(run) && k + 1 < |run| && t < |run[k].shares| && t < |run[k + 1].shares| && run[k].shares[t].held
    ensures !run[k + 1].shares[t].held <==> Happens(run, k, Remove(t)) || Happens(run, k, Delete(t))
  {
    assert Moves(run, k);
    var step :| Enabled(run[k], step) && run[k + 1] == Apply(run[k], step);
    if !run[k + 1].shares[t].held { assert step == Remove(t) || step == Delete(t); }
  }

  /** It leaves the served set between. */
  ghost predicate WithdrawnBetween(run: seq<State>, i: nat, j: nat, t: nat)
    requires j < |run|
  {
    exists k: nat :: i <= k < j && Happens(run, k, Withdraw(t))
  }

  lemma {:induction false} WithdrawnExactly(run: seq<State>, i: nat, j: nat, t: nat)
    requires IsRun(run) && i <= j < |run| && t < |run[i].shares| && run[i].shares[t].phase != Withdrawn
    ensures t < |run[j].shares| && (run[j].shares[t].phase == Withdrawn <==> WithdrawnBetween(run, i, j, t))
  {
    SharesAge(run, i, j, t);
    if i < j {
      WithdrawnExactly(run, i, j - 1, t);
      SharesAge(run, j - 1, j, t);
      assert Moves(run, j - 1);
      var step :| Enabled(run[j - 1], step) && run[j] == Apply(run[j - 1], step);
      if run[j - 1].shares[t].phase != Withdrawn && run[j].shares[t].phase == Withdrawn {
        assert Happens(run, j - 1, Withdraw(t));
      }
      if WithdrawnBetween(run, i, j - 1, t) {
        var k: nat :| i <= k < j - 1 && Happens(run, k, Withdraw(t));
      }
    }
  }

  /** A key that is recorded now was recorded before or has been saved since, and saving and deleting
      its row are all that matters. */
  lemma RowsFollowSteps(run: seq<State>, k: nat, key: string)
    requires IsRun(run) && k + 1 < |run|
    ensures Happens(run, k, SaveRow(key)) ==> key in run[k + 1].recorded
    ensures Happens(run, k, DropRow(key)) ==> key !in run[k + 1].recorded
    ensures key in run[k + 1].recorded && key !in run[k].recorded ==> Happens(run, k, SaveRow(key))
    ensures key !in run[k + 1].recorded && key in run[k].recorded ==> Happens(run, k, DropRow(key))
  {
    assert Moves(run, k);
    var step :| Enabled(run[k], step) && run[k + 1] == Apply(run[k], step);
    if key in run[k + 1].recorded && key !in run[k].recorded { assert step == SaveRow(key); }
    if key !in run[k + 1].recorded && key in run[k].recorded { assert step == DropRow(key); }
  }

  // ---------------------------------------------------------------------------------------
  // A loss
  // ---------------------------------------------------------------------------------------

  lemma Extend(run: seq<State>, step: Step) returns (longer: seq<State>)
    requires IsRun(run) && Enabled(run[|run| - 1], step)
    ensures IsRun(longer) && longer[|longer| - 1] == Apply(run[|run| - 1], step)
  {
    longer := run + [Apply(run[|run| - 1], step)];
    forall i: nat | i + 1 < |longer| ensures Moves(longer, i) {
      if i + 1 < |run| {
        assert Moves(run, i);
        assert longer[i] == run[i] && longer[i + 1] == run[i + 1];
      } else {
        assert longer[i] == run[|run| - 1];
      }
    }
  }

  const START := State([], {}, Idle, {}, {})

  lemma CreatedBeforeTheListing(key: string) returns (run: seq<State>)
    ensures IsRun(run)
    ensures run[|run| - 1] == State([Share(key, true, Created)], {}, Reaping({}, {0}, {}, {0}), {}, {})
  {
    run := [START];
    run := Extend(run, ListRows);
    run := Extend(run, Create(key));
    run := Extend(run, ListShares);
    var s := run[|run| - 1];
    assert s.stage.listed == {0};
    run := Extend(run, Snapshot);
    assert Served(s) == {};
    assert Doomed(s, {}, {0}, {}) == {0};
  }

  /** It does happen: a preview published while a sweep is under way is served and recorded, and has
      no share. */
  lemma FreshShareMayBeReaped(key: string) returns (run: seq<State>)
    ensures IsRun(run)
    ensures var s := run[|run| - 1];
            && s.shares == [Share(key, false, Serving)] && key in s.recorded
            && s.stage.Reaping? && s.stage.doomed == {} && s.deleted == {0}
  {
    run := CreatedBeforeTheListing(key);
    run := Extend(run, Serve(0));
    run := Extend(run, SaveRow(key));
    run := Extend(run, Delete(0));
  }
}
