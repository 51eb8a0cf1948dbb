/**
 The rows of builds that failed or were skipped.

 They are written outside the commit phase: the rows are listed, then one is saved, under no lock
 and whether or not the build is still registered. So they follow no order. They would, if they
 were written as the commit phase writes: by the registered build, while nobody is inside it.
 */
module RecordOrder {
  import opened Protocol
  import opened PublishOrder

  // ---------------------------------------------------------------------------------------
  // Which rows are replaced
  // ---------------------------------------------------------------------------------------

  /** A row that a skip may replace. */
  predicate GivesWay(r: Row) { r.state != RowReady && r.url == "" }

  /** The row of p became one of a failure or a skip. */
  predicate Overwritten(s: State, s': State, p: PreviewId) {
    p in s.rows && p in s'.rows && s'.rows[p] != s.rows[p] && s'.rows[p].state != RowReady
  }

  /** The step saves the outcome of a build of p whose listing found no row in its way. */
  predicate Records(s: State, step: Step, p: PreviewId) {
    step.BuildDoes? && step.act == SaveRecord(true) && At(s, step.b) && PreviewOf(s, step.b) == p
    && PcOf(s, step.b).Recording? && !PcOf(s, step.b).blocked
  }

  function RecordOf(s: State, b: BuildId): Row
    requires At(s, b) && PcOf(s, b).Recording?
  {
    Row(if PcOf(s, b).end == Failed then RowFailed else RowSkipped, "", b)
  }

  /** Whatever step a run takes: a row is overwritten by a failure or a skip exactly when that
      outcome is saved, was not blocked when the rows were listed, and is not what the row says
      already. If that listing still held, the outcome was a skip and the row gave way. */
  lemma RecordOverwritesExactly(d: Discipline, s: State, step: Step, p: PreviewId)
    requires Allowed(d, s, step) && p in s.rows
    ensures Overwritten(s, Apply(s, step), p) <==> Records(s, step, p) && s.rows[p] != RecordOf(s, step.b)
    ensures d.atomicRecord && Overwritten(s, Apply(s, step), p) ==> PcOf(s, step.b).end == Skipped && GivesWay(s.rows[p])
  {
    if step.BuildDoes? {
      ActOverwritesExactly(s, step.b, step.act, p);
    } else if step.TeardownDoes? {
      TearDownOverwritesNothing(s, step.t, step.tact, p);
    }
  }

  lemma TearDownOverwritesNothing(s: State, t: TeardownId, act: TeardownAct, p: PreviewId)
    requires Tearing(s, t) && CanTear(s, t, act)
    ensures !Overwritten(s, DoTear(s, t, act), p)
  {}

  lemma ActOverwritesExactly(s: State, b: BuildId, act: Act, p: PreviewId)
    requires At(s, b) && CanAct(s, b, act) && p in s.rows
    ensures Overwritten(s, DoAct(s, b, act), p) <==> Records(s, BuildDoes(b, act), p) && s.rows[p] != RecordOf(s, b)
  {
    if !act.SaveRow? && !act.SaveRecord? && !act.DeleteRow? {
      RowsUntouched(s, b, act);
    }
  }

  predicate BeforeCommit(act: Act) {
    act.RegisterBuild? || act.EndEarly? || act.FetchLock? || act.Acquire? || act.Check?
  }

  lemma RowsUntouched(s: State, b: BuildId, act: Act)
    requires At(s, b) && CanAct(s, b, act) && !act.SaveRow? && !act.SaveRecord? && !act.DeleteRow?
    ensures DoAct(s, b, act).rows == s.rows
  {
    if BeforeCommit(act) { RowsUntouchedBefore(s, b, act); }
    else if act.Prune? || act.Release? || act.Settle? || act.Finish? || act.CancelContext? { RowsUntouchedAfter(s, b, act); }
  }

  lemma RowsUntouchedBefore(s: State, b: BuildId, act: Act)
    requires At(s, b) && CanAct(s, b, act) && BeforeCommit(act)
    ensures DoAct(s, b, act).rows == s.rows
  {}

  lemma RowsUntouchedAfter(s: State, b: BuildId, act: Act)
    requires At(s, b) && CanAct(s, b, act)
    requires act.Prune? || act.Release? || act.Settle? || act.Finish? || act.CancelContext?
    ensures DoAct(s, b, act).rows == s.rows
  {}

  /** So over any stretch of a run with unbroken listings, a row that is ready or has a URL is
      followed by ready rows only, for as long as there is a row. */
  lemma {:induction false} ReadyRowsStayReady(d: Discipline, run: seq<State>, i: nat, j: nat, p: PreviewId)
    requires d.atomicRecord && IsRun(d, run) && i <= j < |run|
    requires forall k | i <= k <= j :: p in run[k].rows
    requires run[i].rows[p].state == RowReady
    ensures run[j].rows[p].state == RowReady
  {
    if i < j {
      ReadyRowsStayReady(d, run, i, j - 1, p);
      assert Moves(d, run, j - 1);
      var step :| Allowed(d, run[j - 1], step) && run[j] == Apply(run[j - 1], step);
      RecordOverwritesExactly(d, run[j - 1], step, p);
    }
  }

  /** Listing and saving at once, the condition can be read off the rows beforehand: a row is
      replaced exactly when the build was skipped and the row gives way. */
  lemma RecordedAtOnceReplacesExactly(s: State, b: BuildId)
    requires At(s, b) && PcOf(s, b).Returned? && (PcOf(s, b).out == Failed || PcOf(s, b).out == Skipped)
    requires b !in s.cancelled || s.stopping
    requires PreviewOf(s, b) in s.rows && s.rows[PreviewOf(s, b)].dir != b
    ensures var p, listed := PreviewOf(s, b), DoSettle(s, b);
            var rows := DoSaveRecord(listed, b, true).rows;
            p in rows && (rows[p] != s.rows[p] <==> PcOf(s, b).out == Skipped && GivesWay(s.rows[p]))
  {
    var listed := DoSettle(s, b);
    assert PcOf(listed, b) == Recording(PcOf(s, b).out, Blocks(s, PreviewOf(s, b), PcOf(s, b).out));
  }

  // ---------------------------------------------------------------------------------------
  // When rows follow registration
  // ---------------------------------------------------------------------------------------

  /** Whoever recorded an outcome is older than whoever is inside the commit phase. */
  predicate RecordOk(s: State, e: Effect, b: BuildId)
    requires At(s, b)
  {
    e.kind == RecordedOutcome && PastCheck(PcOf(s, b)) && PreviewOf(s, b) == e.preview && e.build != b ==>
      e.reg < s.builds[b].reg
  }

  ghost predicate RecordsOk(s: State) {
    forall i, b {:trigger RecordOk(s, s.effects[i], b)} | 0 <= i < |s.effects| && At(s, b) :: RecordOk(s, s.effects[i], b)
  }

  ghost predicate AllOrdered(es: seq<Effect>) {
    forall i, j {:trigger es[i], es[j]} | 0 <= i < j < |es| :: es[i].preview == es[j].preview ==> Before(es[i], es[j])
  }

  /** Build b did not enter the commit phase. */
  predicate StaysOut(s: State, s': State, b: BuildId) {
    At(s', b) && PastCheck(PcOf(s', b)) ==>
      At(s, b) && PastCheck(PcOf(s, b)) && s.builds[b].preview == s'.builds[b].preview && s.builds[b].reg == s'.builds[b].reg
  }

  /** Nobody enters the commit phase, and nothing is put in place. */
  lemma QuietKeepsOrder(s: State, s': State)
    requires RecordsOk(s) && s'.effects == s.effects
    requires forall b {:trigger StaysOut(s, s', b)} :: StaysOut(s, s', b)
    ensures RecordsOk(s')
  {
    forall i, b | 0 <= i < |s'.effects| && At(s', b) ensures RecordOk(s', s'.effects[i], b) {
      assert StaysOut(s, s', b);
      if At(s, b) { assert RecordOk(s, s.effects[i], b); }
    }
  }

  /** The build that passes its check is registered, so it is newer than whoever recorded. */
  lemma CheckKeepsOrder(s: State, b: BuildId)
    requires Inv(s) && RecordsOk(s) && At(s, b) && PcOf(s, b).Locked? && IsCurrent(s.maps, PreviewOf(s, b), b)
    ensures RecordsOk(DoCheck(s, b, false))
  {
    var s' := DoCheck(s, b, false);
    forall i, c | 0 <= i < |s'.effects| && At(s', c) ensures RecordOk(s', s'.effects[i], c) {
      var e := s.effects[i];
      assert RecordOk(s, e, c) && EffectOk(s, e);
      if c == b { assert NewestOk(s, b, e.build); }
    }
  }

  lemma CommitKeepsOrder(s: State, s': State, b: BuildId, e: Effect)
    requires Inv(s) && Inv(s') && RecordsOk(s) && AllOrdered(s.effects) && At(s, b) && PastCheck(PcOf(s, b))
    requires s'.effects == s.effects + [e] && e.build == b && e.preview == PreviewOf(s, b) && InCommit(e.kind)
    requires OnlyActed(s, s', b) && e.reg == s.builds[b].reg == s'.builds[b].reg && PastCheck(PcOf(s', b))
    ensures RecordsOk(s') && AllOrdered(s'.effects)
  {
    forall i, c | 0 <= i < |s'.effects| && At(s', c) ensures RecordOk(s', s'.effects[i], c) {
      if i < |s.effects| { assert RecordOk(s, s.effects[i], c); }
    }
    forall i | 0 <= i < |s.effects| && s.effects[i].preview == e.preview ensures Before(s.effects[i], e) {
      assert RecordOk(s, s.effects[i], b) && EffectOk(s, s.effects[i]);
      assert s'.effects[i] == s.effects[i] && s'.effects[|s.effects|] == e;
    }
  }

  lemma RecordKeepsOrder(s: State, b: BuildId)
    requires Inv(s) && RecordsOk(s) && AllOrdered(s.effects) && At(s, b) && PcOf(s, b).Recording? && !PcOf(s, b).blocked
    requires IsCurrent(s.maps, PreviewOf(s, b), b) && Calm(s, PreviewOf(s, b))
    ensures RecordsOk(DoSaveRecord(s, b, true)) && AllOrdered(DoSaveRecord(s, b, true).effects)
  {
    var s' := DoSaveRecord(s, b, true);
    var e := s'.effects[|s.effects|];
    forall i, c | 0 <= i < |s'.effects| && At(s', c) ensures RecordOk(s', s'.effects[i], c) {
      assert c != b ==> s'.builds[c] == s.builds[c];
      if i < |s.effects| { assert RecordOk(s, s.effects[i], c); } else { assert At(s, c); }
    }
    forall i | 0 <= i < |s.effects| && s.effects[i].preview == e.preview ensures Before(s.effects[i], e) {
      assert EffectOk(s, s.effects[i]) && NewestOk(s, b, s.effects[i].build);
    }
  }

  /** An act that adds no effect lets nobody into the commit phase, the check apart. */
  lemma QuietAct(s: State, b: BuildId, act: Act)
    requires Inv(s) && RecordsOk(s) && At(s, b) && CanAct(s, b, act)
    requires act.EndEarly? || act.FetchLock? || act.Acquire? || act.CancelContext? || act.RegisterBuild?
             || (act.Check? && (act.sawCancel || !IsCurrent(s.maps, PreviewOf(s, b), b)))
    ensures RecordsOk(DoAct(s, b, act)) && DoAct(s, b, act).effects == s.effects
  {
    var s' := DoAct(s, b, act);
    forall c ensures StaysOut(s, s', c) { assert At(s, c) && c != b ==> s'.builds[c] == s.builds[c]; }
    QuietKeepsOrder(s, s');
  }

  lemma QuietExit(s: State, b: BuildId, act: Act)
    requires Inv(s) && RecordsOk(s) && At(s, b) && CanAct(s, b, act)
    requires act == PlaceArtifacts(false) || act.NoShare? || act == SaveRow(false) || act.Withdraw?
             || act.DeleteRow? || act.Prune?
    ensures RecordsOk(DoAct(s, b, act)) && DoAct(s, b, act).effects == s.effects
  {
    var s' := DoAct(s, b, act);
    forall c ensures StaysOut(s, s', c) { assert At(s, c) && c != b ==> s'.builds[c] == s.builds[c]; }
    QuietKeepsOrder(s, s');
  }

  lemma QuietEnd(s: State, b: BuildId, act: Act)
    requires Inv(s) && RecordsOk(s) && At(s, b) && CanAct(s, b, act)
    requires act.Release? || act.Settle? || act.Finish? || (act.SaveRecord? && (!act.ok || PcOf(s, b).blocked))
    ensures RecordsOk(DoAct(s, b, act)) && DoAct(s, b, act).effects == s.effects
  {
    var s' := DoAct(s, b, act);
    forall c ensures StaysOut(s, s', c) { assert At(s, c) && c != b ==> s'.builds[c] == s.builds[c]; }
    QuietKeepsOrder(s, s');
  }

  lemma CommitAct(s: State, b: BuildId, act: Act)
    requires Inv(s) && RecordsOk(s) && AllOrdered(s.effects) && At(s, b) && CanAct(s, b, act)
    requires act == PlaceArtifacts(true) || act.TakeShare? || act.GoLive? || act == SaveRow(true)
    ensures RecordsOk(DoAct(s, b, act)) && AllOrdered(DoAct(s, b, act).effects)
  {
    ActKeeps(s, b, act);
    var kind := if act.PlaceArtifacts? then PutArtifacts else if act.TakeShare? then TookShare
                else if act.GoLive? then WentLive else WroteRow;
    CommitKeepsOrder(s, DoAct(s, b, act), b, Effect(kind, PreviewOf(s, b), b, s.builds[b].reg));
  }

  lemma ActKeepsOrder(d: Discipline, s: State, b: BuildId, act: Act)
    requires d.guardedRecord && Inv(s) && RecordsOk(s) && AllOrdered(s.effects) && Allowed(d, s, BuildDoes(b, act))
    ensures RecordsOk(DoAct(s, b, act)) && AllOrdered(DoAct(s, b, act).effects)
  {
    match act
    case Check(sawCancel) =>
      if sawCancel || !IsCurrent(s.maps, PreviewOf(s, b), b) { QuietAct(s, b, act); } else { CheckKeepsOrder(s, b); }
    case EndEarly(_) | FetchLock | Acquire | CancelContext | RegisterBuild => QuietAct(s, b, act);
    case PlaceArtifacts(ok) => if ok { CommitAct(s, b, act); } else { QuietExit(s, b, act); }
    case SaveRow(ok) => if ok { CommitAct(s, b, act); } else { QuietExit(s, b, act); }
    case TakeShare(_) | GoLive => CommitAct(s, b, act);
    case NoShare | Withdraw | DeleteRow(_) | Prune(_) => QuietExit(s, b, act);
    case Release | Settle | Finish => QuietEnd(s, b, act);
    case SaveRecord(ok) => if ok && !PcOf(s, b).blocked { RecordKeepsOrder(s, b); } else { QuietEnd(s, b, act); }
  }

  lemma StepKeepsOrder(d: Discipline, s: State, step: Step)
    requires d.guardedRecord && Inv(s) && RecordsOk(s) && AllOrdered(s.effects) && Allowed(d, s, step)
    ensures RecordsOk(Apply(s, step)) && AllOrdered(Apply(s, step).effects)
  {
    if step.BuildDoes? {
      ActKeepsOrder(d, s, step.b, step.act);
    } else if step.TeardownDoes? {
      TearKeepsBuilds(s, step.t, step.tact);
      SameBuildsKeepOrder(s, Apply(s, step));
    } else if step.Claim? {
      var s' := DoClaim(s, step.p);
      forall c ensures StaysOut(s, s', c) { assert At(s, c) ==> s'.builds[c] == s.builds[c]; }
      QuietKeepsOrder(s, s');
    } else {
      SameBuildsKeepOrder(s, Apply(s, step));
    }
  }

  lemma SameBuildsKeepOrder(s: State, s': State)
    requires RecordsOk(s) && s'.builds == s.builds && s'.effects == s.effects
    ensures RecordsOk(s')
  {
    forall c ensures StaysOut(s, s', c) {}
    QuietKeepsOrder(s, s');
  }

  lemma TearKeepsBuilds(s: State, t: TeardownId, act: TeardownAct)
    requires Tearing(s, t) && CanTear(s, t, act)
    ensures DoTear(s, t, act).builds == s.builds && DoTear(s, t, act).effects == s.effects
  {}

  lemma {:induction false} RunKeepsOrder(d: Discipline, run: seq<State>, i: nat)
    requires d.ownSection && d.guardedRecord && IsRun(d, run) && i < |run|
    ensures Inv(run[i]) && RecordsOk(run[i]) && AllOrdered(run[i].effects)
  {
    RunKeeps(d, run, i);
    if i > 0 {
      RunKeepsOrder(d, run, i - 1);
      assert Moves(d, run, i - 1);
      var step :| Allowed(d, run[i - 1], step) && run[i] == Apply(run[i - 1], step);
      StepKeepsOrder(d, run[i - 1], step);
    }
  }

  /** If outcomes were recorded as the commit phase writes, everything a preview's builds put in
      place, all rows included, would come in registration order. */
  lemma GuardedRowsFollowRegistration(d: Discipline, run: seq<State>, i: nat, j: nat, k: nat)
    requires d.ownSection && d.guardedRecord && IsRun(d, run) && i < |run|
    requires j < k < |run[i].effects| && run[i].effects[j].preview == run[i].effects[k].preview
    ensures Before(run[i].effects[j], run[i].effects[k])
  {
    RunKeepsOrder(d, run, i);
  }
}
