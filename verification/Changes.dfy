/**
 Which steps change what a preview leaves outside the process: its row, its artifact directories and
 its publication. Each is told step by step, so whatever is not named here changes nothing.
 */
module Changes {
  import opened Protocol

  // ---------------------------------------------------------------------------------------
  // Artifact directories
  // ---------------------------------------------------------------------------------------

  /** Build b of p acts so. */
  predicate Acts(s: State, step: Step, p: PreviewId, b: BuildId, act: Act) {
    step == BuildDoes(b, act) && At(s, b) && PreviewOf(s, b) == p
  }

  predicate Tears(s: State, step: Step, p: PreviewId, act: TeardownAct) {
    step.TeardownDoes? && step.tact == act && Tearing(s, step.t) && s.teardowns[step.t].preview == p
  }

  /** A build of the preview prunes the directory, or could not fill it, or a teardown removes all. */
  predicate Removes(s: State, step: Step, p: PreviewId, dir: BuildId) {
    || Acts(s, step, p, dir, PlaceArtifacts(false))
    || Tears(s, step, p, TRemove)
    || (step.BuildDoes? && step.act.Prune? && dir in step.act.victims && At(s, step.b) && PreviewOf(s, step.b) == p)
  }

  /** A directory is on disk after a step exactly if the step installed it, or it was there and the
      step did not remove it. */
  lemma DirectoriesChangeExactly(s: State, step: Step, p: PreviewId, dir: BuildId)
    requires Enabled(s, step)
    ensures (p, dir) in Apply(s, step).artifacts <==>
              Acts(s, step, p, dir, PlaceArtifacts(true)) || ((p, dir) in s.artifacts && !Removes(s, step, p, dir))
  {
    match step
    case BuildDoes(b, act) =>
      if act.PlaceArtifacts? || act.Prune? { BuildsChangeDirectories(s, b, act, p, dir); } else { OtherActsKeepFiles(s, b, act); }
    case TeardownDoes(t, act) => TearsChange(s, t, act, p, dir);
    case _ =>
  }

  lemma BuildsChangeDirectories(s: State, b: BuildId, act: Act, p: PreviewId, dir: BuildId)
    requires At(s, b) && CanAct(s, b, act) && (act.PlaceArtifacts? || act.Prune?)
    ensures var step := BuildDoes(b, act);
            (p, dir) in DoAct(s, b, act).artifacts <==>
              Acts(s, step, p, dir, PlaceArtifacts(true)) || ((p, dir) in s.artifacts && !Removes(s, step, p, dir))
  {
  }

  lemma OtherActsKeepFiles(s: State, b: BuildId, act: Act)
    requires At(s, b) && CanAct(s, b, act) && !act.PlaceArtifacts? && !act.Prune?
    ensures DoAct(s, b, act).artifacts == s.artifacts
  {
    if act.SaveRow? { SavingKeepsTheRest(s, b, act.ok); }
    else if act.SaveRecord? { RecordingKeepsTheRest(s, b, act.ok); }
  }

  lemma TearsChange(s: State, t: TeardownId, act: TeardownAct, p: PreviewId, dir: BuildId)
    requires Tearing(s, t) && CanTear(s, t, act)
    ensures var step := TeardownDoes(t, act);
            && ((p, dir) in DoTear(s, t, act).artifacts <==> (p, dir) in s.artifacts && !Tears(s, step, p, TRemove))
            && (p in DoTear(s, t, act).rows <==> p in s.rows && !Tears(s, step, p, TDeleteRow))
            && (p in DoTear(s, t, act).rows ==> DoTear(s, t, act).rows[p] == s.rows[p])
            && (p in DoTear(s, t, act).maps.live <==> p in s.maps.live && !Tears(s, step, p, TSection))
            && (p in DoTear(s, t, act).maps.live ==> DoTear(s, t, act).maps.live[p] == s.maps.live[p])
  {
  }

  // ---------------------------------------------------------------------------------------
  // Rows
  // ---------------------------------------------------------------------------------------

  /** The step saves a row of p: a build that went live, or one that failed or was skipped and was not
      blocked when the rows were listed. */
  predicate Saves(s: State, step: Step, p: PreviewId) {
    && step.BuildDoes? && At(s, step.b) && PreviewOf(s, step.b) == p && CanAct(s, step.b, step.act)
    && (step.act == SaveRow(true) || (step.act == SaveRecord(true) && !PcOf(s, step.b).blocked))
  }

  /** The row it saves. */
  function SavedRow(s: State, step: Step, p: PreviewId): Row
    requires Saves(s, step, p)
  {
    if step.act.SaveRow? then Row(RowReady, PcOf(s, step.b).url, step.b)
    else Row(if PcOf(s, step.b).end == Skipped then RowSkipped else RowFailed, "", step.b)
  }

  predicate Deletes(s: State, step: Step, p: PreviewId) {
    Tears(s, step, p, TDeleteRow)
    || (step.BuildDoes? && step.act == DeleteRow(true) && At(s, step.b) && PreviewOf(s, step.b) == p)
  }

  /** There is a row after a step exactly if the step saved it, or there was one and the step did not
      delete it; and it is the row saved, or the one that was there. */
  lemma RowsChangeExactly(s: State, step: Step, p: PreviewId)
    requires Enabled(s, step)
    ensures RowFollows(s, step, p, Apply(s, step).rows)
  {
    match step
    case BuildDoes(b, act) => ActsChangeRows(s, b, act, p);
    case TeardownDoes(t, act) => TearsChange(s, t, act, p, 0);
    case _ =>
  }

  predicate RowFollows(s: State, step: Step, p: PreviewId, rows: map<PreviewId, Row>) {
    && (p in rows <==> Saves(s, step, p) || (p in s.rows && !Deletes(s, step, p)))
    && (p in rows ==> rows[p] == if Saves(s, step, p) then SavedRow(s, step, p) else s.rows[p])
  }

  lemma ActsChangeRows(s: State, b: BuildId, act: Act, p: PreviewId)
    requires At(s, b) && CanAct(s, b, act)
    ensures RowFollows(s, BuildDoes(b, act), p, DoAct(s, b, act).rows)
  {
    if act.SaveRow? { SavingChangesRows(s, b, act.ok, p); }
    else if act.SaveRecord? { RecordingChangesRows(s, b, act.ok, p); }
    else if act.DeleteRow? { DeletingChangesRows(s, b, act.ok, p); }
    else { OtherActsKeepRows(s, b, act); }
  }

  lemma SavingChangesRows(s: State, b: BuildId, ok: bool, p: PreviewId)
    requires At(s, b) && PcOf(s, b).Installed?
    ensures RowFollows(s, BuildDoes(b, SaveRow(ok)), p, DoAct(s, b, SaveRow(ok)).rows)
  {
  }

  lemma RecordingChangesRows(s: State, b: BuildId, ok: bool, p: PreviewId)
    requires At(s, b) && PcOf(s, b).Recording?
    ensures RowFollows(s, BuildDoes(b, SaveRecord(ok)), p, DoAct(s, b, SaveRecord(ok)).rows)
  {
  }

  lemma DeletingChangesRows(s: State, b: BuildId, ok: bool, p: PreviewId)
    requires At(s, b) && PcOf(s, b).Withdrawn?
    ensures RowFollows(s, BuildDoes(b, DeleteRow(ok)), p, DoAct(s, b, DeleteRow(ok)).rows)
  {
  }

  lemma OtherActsKeepRows(s: State, b: BuildId, act: Act)
    requires At(s, b) && CanAct(s, b, act) && !act.SaveRow? && !act.SaveRecord? && !act.DeleteRow?
    ensures DoAct(s, b, act).rows == s.rows
  {
    if act.PlaceArtifacts? { PlacingKeepsRows(s, b, act.ok); }
  }

  lemma PlacingKeepsRows(s: State, b: BuildId, ok: bool)
    requires At(s, b) && PcOf(s, b).Committing?
    ensures DoPlaceArtifacts(s, b, ok).rows == s.rows && DoPlaceArtifacts(s, b, ok).maps == s.maps
  {
  }

  // ---------------------------------------------------------------------------------------
  // Publications
  // ---------------------------------------------------------------------------------------

  /** A build of p withdraws what is live, its row not having been saved, or a teardown's section does. */
  predicate Unpublishes(s: State, step: Step, p: PreviewId) {
    Tears(s, step, p, TSection)
    || (step.BuildDoes? && step.act == Withdraw && At(s, step.b) && PreviewOf(s, step.b) == p)
  }

  predicate Publishes(s: State, step: Step, p: PreviewId) {
    step.BuildDoes? && step.act == GoLive && At(s, step.b) && PreviewOf(s, step.b) == p && PcOf(s, step.b).Shared?
  }

  /** A preview is live after a step exactly if the step published it, or it was and the step did not
      unpublish it; and it is live at the URL of the build that published it, or as it was. */
  lemma PublicationsChangeExactly(s: State, step: Step, p: PreviewId)
    requires Enabled(s, step)
    ensures p in Apply(s, step).maps.live <==> Publishes(s, step, p) || (p in s.maps.live && !Unpublishes(s, step, p))
    ensures p in Apply(s, step).maps.live ==>
              Apply(s, step).maps.live[p] ==
                if Publishes(s, step, p) then Publication(PcOf(s, step.b).url, step.b) else s.maps.live[p]
  {
    match step
    case BuildDoes(b, act) => if !act.GoLive? && !act.Withdraw? { OtherActsKeepLive(s, b, act); }
    case TeardownDoes(t, act) => TearsChange(s, t, act, p, 0);
    case _ =>
  }

  predicate Early(act: Act) {
    act.RegisterBuild? || act.EndEarly? || act.FetchLock? || act.Acquire? || act.CancelContext? || act.Settle?
  }

  lemma OtherActsKeepLive(s: State, b: BuildId, act: Act)
    requires At(s, b) && CanAct(s, b, act) && !act.GoLive? && !act.Withdraw?
    ensures DoAct(s, b, act).maps.live == s.maps.live
  {
    if act.PlaceArtifacts? { PlacingKeepsRows(s, b, act.ok); }
    else if act.SaveRow? { SavingKeepsTheRest(s, b, act.ok); }
    else if act.SaveRecord? { RecordingKeepsTheRest(s, b, act.ok); }
    else if act.Check? { CheckKeepsLive(s, b, act.sawCancel); }
    else if Early(act) { EarlyActsKeepLive(s, b, act); }
    else { LateActsKeepLive(s, b, act); }
  }

  lemma SavingKeepsTheRest(s: State, b: BuildId, ok: bool)
    requires At(s, b) && PcOf(s, b).Installed?
    ensures DoSaveRow(s, b, ok).maps.live == s.maps.live && DoSaveRow(s, b, ok).artifacts == s.artifacts
  {
  }

  lemma RecordingKeepsTheRest(s: State, b: BuildId, ok: bool)
    requires At(s, b) && PcOf(s, b).Recording?
    ensures DoSaveRecord(s, b, ok).maps.live == s.maps.live && DoSaveRecord(s, b, ok).artifacts == s.artifacts
  {
  }

  lemma EarlyActsKeepLive(s: State, b: BuildId, act: Act)
    requires At(s, b) && CanAct(s, b, act) && Early(act)
    ensures DoAct(s, b, act).maps.live == s.maps.live
  {
  }

  lemma CheckKeepsLive(s: State, b: BuildId, sawCancel: bool)
    requires At(s, b) && PcOf(s, b).Locked?
    ensures DoCheck(s, b, sawCancel).maps.live == s.maps.live
  {
  }

  lemma LateActsKeepLive(s: State, b: BuildId, act: Act)
    requires At(s, b) && CanAct(s, b, act) && !Early(act) && !act.Check? && !act.PlaceArtifacts?
    requires !act.SaveRow? && !act.SaveRecord? && !act.GoLive? && !act.Withdraw?
    ensures DoAct(s, b, act).maps.live == s.maps.live
  {
  }
}
