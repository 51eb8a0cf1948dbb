/**
 What a build that did not end ready leaves behind: at most a row that says so. This needs no
 hypothesis on the interleaving.
 */
module Failures {
  import opened Protocol

  /** On its way from going live to having a row. */
  predicate GoingLive(pc: BuildPc) { pc.Installed? || pc.Unrecorded? }

  /** Ended like that, and has had the chance to record it. */
  predicate EndedAs(pc: BuildPc, out: Outcome) { (pc.Finishing? || pc.Done?) && pc.out == out }

  /** The build saved its ready row. One that was cancelled after that still ends superseded. */
  predicate Wrote(s: State, b: BuildId) { exists i :: 0 <= i < |s.effects| && s.effects[i].kind == WroteRow && s.effects[i].build == b }

  /** Where a build that did can be. */
  predicate AfterRow(pc: BuildPc) {
    || pc.Recorded?
    || ((pc.Leaving? || pc.Returned?) && pc.out == Ready)
    || EndedAs(pc, Ready) || EndedAs(pc, Superseded)
  }

  predicate WroteOk(s: State, b: BuildId) { Wrote(s, b) ==> At(s, b) && AfterRow(PcOf(s, b)) }

  /** What is live was put there by a build that is about to have its row, or has it. */
  predicate LiveOwned(s: State, p: PreviewId) {
    p in s.maps.live && 0 <= s.maps.live[p].build ==>
      var b := s.maps.live[p].build;
      At(s, b) && PreviewOf(s, b) == p && (GoingLive(PcOf(s, b)) || Wrote(s, b))
  }

  /** A row says of its build how that ended. */
  predicate RowOwned(s: State, p: PreviewId) {
    p in s.rows && 0 <= s.rows[p].dir ==>
      var r := s.rows[p];
      && At(s, r.dir) && PreviewOf(s, r.dir) == p
      && match r.state
         case RowReady => Wrote(s, r.dir)
         case RowFailed => EndedAs(PcOf(s, r.dir), Failed) && r.url == ""
         case RowSkipped => EndedAs(PcOf(s, r.dir), Skipped) && r.url == ""
  }

  ghost predicate Owned(s: State) {
    && (forall p {:trigger LiveOwned(s, p)} :: LiveOwned(s, p))
    && (forall p {:trigger RowOwned(s, p)} :: RowOwned(s, p))
    && (forall b {:trigger WroteOk(s, b)} :: WroteOk(s, b))
  }

  lemma WroteStays(s: State, s': State)
    requires s.effects <= s'.effects
    ensures forall b :: Wrote(s, b) ==> Wrote(s', b)
  {
    forall b | Wrote(s, b) ensures Wrote(s', b) {
      var i :| 0 <= i < |s.effects| && s.effects[i].kind == WroteRow && s.effects[i].build == b;
      assert s'.effects[i] == s.effects[i];
    }
  }

  lemma NoneWrote(s: State, s': State)
    requires s'.effects == s.effects || (|s'.effects| == |s.effects| + 1 && s.effects <= s'.effects
                                         && s'.effects[|s.effects|].kind != WroteRow)
    ensures forall b :: Wrote(s', b) <==> Wrote(s, b)
  {
    WroteStays(s, s');
    forall b | Wrote(s', b) ensures Wrote(s, b) {
      var i :| 0 <= i < |s'.effects| && s'.effects[i].kind == WroteRow && s'.effects[i].build == b;
      assert s.effects[i] == s'.effects[i];
    }
  }

  /** The build's end, if it has one, stays. */
  predicate KeepsEnd(s: State, s': State, b: BuildId)
    requires At(s, b) && At(s', b)
  {
    var pc, pc' := PcOf(s, b), PcOf(s', b);
    && (GoingLive(pc) ==> GoingLive(pc'))
    && (AfterRow(pc) ==> AfterRow(pc'))
    && (forall out :: EndedAs(pc, out) ==> EndedAs(pc', out))
  }

  /** No ready row was saved by this. */
  predicate WritesNone(s: State, s': State) {
    s'.effects == s.effects || (|s'.effects| == |s.effects| + 1 && s.effects <= s'.effects
                                && s'.effects[|s.effects|].kind != WroteRow)
  }

  lemma QuietKeepsOwned(s: State, s': State, b: BuildId)
    requires Owned(s) && OnlyActed(s, s', b) && KeepsEnd(s, s', b) && WritesNone(s, s')
    requires s'.maps.live == s.maps.live && s'.rows == s.rows
    ensures Owned(s')
  {
    NoneWrote(s, s');
    forall p ensures LiveOwned(s', p) && RowOwned(s', p) { assert LiveOwned(s, p) && RowOwned(s, p); }
    forall c ensures WroteOk(s', c) { assert WroteOk(s, c); }
  }

  lemma RegisteringKeepsOwned(s: State, b: BuildId, act: Act)
    requires Owned(s) && At(s, b) && CanAct(s, b, act)
    requires act.RegisterBuild? || act.EndEarly? || act.CancelContext?
    ensures Owned(DoAct(s, b, act))
  {
    QuietKeepsOwned(s, DoAct(s, b, act), b);
  }

  lemma EnteringKeepsOwned(s: State, b: BuildId, act: Act)
    requires Owned(s) && At(s, b) && CanAct(s, b, act)
    requires act.FetchLock? || act.Acquire?
    ensures Owned(DoAct(s, b, act))
  {
    QuietKeepsOwned(s, DoAct(s, b, act), b);
  }

  lemma CheckKeepsOwned(s: State, b: BuildId, sawCancel: bool)
    requires Owned(s) && At(s, b) && PcOf(s, b).Locked?
    ensures Owned(DoCheck(s, b, sawCancel))
  {
    QuietKeepsOwned(s, DoCheck(s, b, sawCancel), b);
  }

  lemma PlacingKeepsOwned(s: State, b: BuildId, act: Act)
    requires Owned(s) && At(s, b) && CanAct(s, b, act)
    requires act.TakeShare? || act.NoShare?
    ensures Owned(DoAct(s, b, act))
  {
    QuietKeepsOwned(s, DoAct(s, b, act), b);
  }

  lemma PlaceKeepsOwned(s: State, b: BuildId, ok: bool)
    requires Owned(s) && At(s, b) && PcOf(s, b).Committing?
    ensures Owned(DoPlaceArtifacts(s, b, ok))
  {
    QuietKeepsOwned(s, DoPlaceArtifacts(s, b, ok), b);
  }

  lemma EndingKeepsOwned(s: State, b: BuildId, act: Act)
    requires Owned(s) && At(s, b) && CanAct(s, b, act)
    requires act.Prune? || act.Release? || act.Settle? || act.Finish?
    ensures Owned(DoAct(s, b, act))
  {
    QuietKeepsOwned(s, DoAct(s, b, act), b);
  }

  lemma GoLiveKeepsOwned(s: State, b: BuildId)
    requires Owned(s) && At(s, b) && PcOf(s, b).Shared?
    ensures Owned(DoGoLive(s, b))
  {
    var s' := DoGoLive(s, b);
    NoneWrote(s, s');
    forall p ensures LiveOwned(s', p) && RowOwned(s', p) { assert LiveOwned(s, p) && RowOwned(s, p); }
    forall c ensures WroteOk(s', c) { assert WroteOk(s, c); }
  }

  lemma SaveRowKeepsOwned(s: State, b: BuildId, ok: bool)
    requires Owned(s) && At(s, b) && PcOf(s, b).Installed?
    ensures Owned(DoSaveRow(s, b, ok))
  {
    var s' := DoSaveRow(s, b, ok);
    if !ok {
      QuietKeepsOwned(s, s', b);
    } else {
      OneWrote(s, s', b);
      forall p ensures LiveOwned(s', p) && RowOwned(s', p) { assert LiveOwned(s, p) && RowOwned(s, p); }
      forall c ensures WroteOk(s', c) { assert WroteOk(s, c); }
    }
  }

  lemma OneWrote(s: State, s': State, b: BuildId)
    requires |s'.effects| == |s.effects| + 1 && s.effects <= s'.effects
    requires s'.effects[|s.effects|].kind == WroteRow && s'.effects[|s.effects|].build == b
    ensures forall c :: Wrote(s', c) <==> Wrote(s, c) || c == b
  {
    WroteStays(s, s');
    forall c | Wrote(s', c) ensures Wrote(s, c) || c == b {
      var i :| 0 <= i < |s'.effects| && s'.effects[i].kind == WroteRow && s'.effects[i].build == c;
      if i < |s.effects| { assert s.effects[i] == s'.effects[i]; }
    }
  }

  /** Withdrawing takes out whatever is live for the preview. */
  lemma WithdrawKeepsOwned(s: State, b: BuildId)
    requires Owned(s) && At(s, b) && PcOf(s, b).Unrecorded?
    ensures Owned(DoWithdraw(s, b))
  {
    var s' := DoWithdraw(s, b);
    NoneWrote(s, s');
    forall p ensures LiveOwned(s', p) && RowOwned(s', p) { assert LiveOwned(s, p) && RowOwned(s, p); }
    forall c ensures WroteOk(s', c) { assert WroteOk(s, c); }
  }

  lemma DeleteRowKeepsOwned(s: State, b: BuildId, ok: bool)
    requires Owned(s) && At(s, b) && PcOf(s, b).Withdrawn?
    ensures Owned(DoDeleteRow(s, b, ok))
  {
    var s' := DoDeleteRow(s, b, ok);
    NoneWrote(s, s');
    forall p ensures LiveOwned(s', p) && RowOwned(s', p) { assert LiveOwned(s, p) && RowOwned(s, p); }
    forall c ensures WroteOk(s', c) { assert WroteOk(s, c); }
  }

  lemma RecordKeepsOwned(s: State, b: BuildId, ok: bool)
    requires Owned(s) && At(s, b) && PcOf(s, b).Recording?
    ensures Owned(DoSaveRecord(s, b, ok))
  {
    var s' := DoSaveRecord(s, b, ok);
    NoneWrote(s, s');
    forall p ensures LiveOwned(s', p) && RowOwned(s', p) { assert LiveOwned(s, p) && RowOwned(s, p); }
    forall c ensures WroteOk(s', c) { assert WroteOk(s, c); }
  }

  lemma ActKeepsOwned(s: State, b: BuildId, act: Act)
    requires Owned(s) && At(s, b) && CanAct(s, b, act)
    ensures Owned(DoAct(s, b, act))
  {
    match act
    case PlaceArtifacts(ok) => PlaceKeepsOwned(s, b, ok);
    case TakeShare(_) | NoShare => PlacingKeepsOwned(s, b, act);
    case GoLive => GoLiveKeepsOwned(s, b);
    case SaveRow(ok) => SaveRowKeepsOwned(s, b, ok);
    case Withdraw => WithdrawKeepsOwned(s, b);
    case DeleteRow(ok) => DeleteRowKeepsOwned(s, b, ok);
    case SaveRecord(ok) => RecordKeepsOwned(s, b, ok);
    case Prune(_) | Release | Settle | Finish => EndingKeepsOwned(s, b, act);
    case FetchLock | Acquire => EnteringKeepsOwned(s, b, act);
    case Check(sawCancel) => CheckKeepsOwned(s, b, sawCancel);
    case RegisterBuild | EndEarly(_) | CancelContext => RegisteringKeepsOwned(s, b, act);
  }

  lemma TearKeepsOwned(s: State, t: TeardownId, act: TeardownAct)
    requires Owned(s) && Tearing(s, t) && CanTear(s, t, act)
    ensures Owned(DoTear(s, t, act))
  {
    var s' := DoTear(s, t, act);
    NoneWrote(s, s');
    forall p ensures LiveOwned(s', p) && RowOwned(s', p) { assert LiveOwned(s, p) && RowOwned(s, p); }
    forall c ensures WroteOk(s', c) { assert WroteOk(s, c); }
  }

  lemma StepKeepsOwned(s: State, step: Step)
    requires Owned(s) && Enabled(s, step)
    ensures Owned(Apply(s, step))
  {
    if step.BuildDoes? {
      ActKeepsOwned(s, step.b, step.act);
    } else if step.TeardownDoes? {
      TearKeepsOwned(s, step.t, step.tact);
    } else {
      OtherKeepsOwned(s, step);
    }
  }

  lemma OtherKeepsOwned(s: State, step: Step)
    requires Owned(s) && Enabled(s, step) && !step.BuildDoes? && !step.TeardownDoes?
    ensures Owned(Apply(s, step))
  {
    var s' := Apply(s, step);
    NoneWrote(s, s');
    forall p ensures LiveOwned(s', p) && RowOwned(s', p) { assert LiveOwned(s, p) && RowOwned(s, p); }
    forall c ensures WroteOk(s', c) { assert WroteOk(s, c); }
  }

  lemma {:induction false} RunKeepsOwned(d: Discipline, run: seq<State>, i: nat)
    requires IsRun(d, run) && i < |run|
    ensures Owned(run[i])
  {
    if i == 0 {
      forall p ensures LiveOwned(run[0], p) && RowOwned(run[0], p) {}
      forall b ensures WroteOk(run[0], b) {}
    } else {
      RunKeepsOwned(d, run, i - 1);
      assert Moves(d, run, i - 1);
      var step :| Allowed(d, run[i - 1], step) && run[i] == Apply(run[i - 1], step);
      StepKeepsOwned(run[i - 1], step);
    }
  }

  /** Its row could not be saved, or its pipeline ended without getting that far. */
  predicate GaveUp(pc: BuildPc) {
    pc.Withdrawn? || pc.Recording?
    || ((pc.Leaving? || pc.Returned? || pc.Finishing? || pc.Done?) && (pc.out == Failed || pc.out == Skipped))
  }

  /** In every run, under no hypothesis: from the moment a build has given up, be it that its row could
      not be saved, nothing live is its doing; and if a row names it, that row says failed or
      skipped, as the build ended, carries no URL, and was written when the build was through. */
  lemma WhoGaveUpLeavesItsRowAtMost(d: Discipline, run: seq<State>, i: nat, b: BuildId)
    requires IsRun(d, run) && i < |run| && At(run[i], b) && GaveUp(PcOf(run[i], b))
    ensures forall p | p in run[i].maps.live :: run[i].maps.live[p].build != b
    ensures forall q | q in run[i].rows && run[i].rows[q].dir == b ::
      var r, pc := run[i].rows[q], PcOf(run[i], b);
      && q == PreviewOf(run[i], b) && r.url == ""
      && ((r.state == RowFailed && EndedAs(pc, Failed)) || (r.state == RowSkipped && EndedAs(pc, Skipped)))
  {
    RunKeepsOwned(d, run, i);
    var s := run[i];
    assert WroteOk(s, b);
    forall p | p in s.maps.live ensures s.maps.live[p].build != b { assert LiveOwned(s, p); }
    forall q | q in s.rows && s.rows[q].dir == b
      ensures var r, pc := s.rows[q], PcOf(s, b);
        && q == PreviewOf(s, b) && r.url == ""
        && ((r.state == RowFailed && EndedAs(pc, Failed)) || (r.state == RowSkipped && EndedAs(pc, Skipped)))
    {
      assert RowOwned(s, q);
    }
  }
}
