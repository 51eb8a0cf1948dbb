/**
 What stopping work stops. A job taken out of the queue is never built, a build taken out of
 `running` puts nothing in place, and, when its context was cancelled in the same section, leaves
 no row either. Nothing here is said through the functions that carry the steps out.
 */
module Withdrawals {
  import opened Protocol
  import opened PublishOrder

  // ---------------------------------------------------------------------------------------
  // The queued job
  // ---------------------------------------------------------------------------------------

  /** The step takes the queued job of p away: the cancel button, or a teardown past its section. */
  predicate Dequeues(s: State, step: Step, p: PreviewId) {
    || step == CancelQueued(p)
    || (step.TeardownDoes? && step.tact.TDequeue? && Tearing(s, step.t) && s.teardowns[step.t].preview == p)
  }

  /** Then no worker can claim it, and any worker can claim what it could of other previews. */
  lemma DequeuedIsNotClaimed(s: State, step: Step, p: PreviewId, q: PreviewId)
    requires Enabled(s, step) && Dequeues(s, step, p)
    ensures Enabled(Apply(s, step), Claim(q)) <==> q != p && Enabled(s, Claim(q))
  {
  }

  /** In step k push n of p is delivered. */
  ghost predicate Delivered(run: seq<State>, k: nat, p: PreviewId, n: Push)
    requires k + 1 < |run|
  {
    exists h :: Enabled(run[k], Enqueue(h, p)) && run[k + 1] == Apply(run[k], Enqueue(h, p)) && run[k].nextPush == n
  }

  /** Between states i and j. */
  ghost predicate DeliveredSince(run: seq<State>, i: nat, j: nat, p: PreviewId, n: Push)
    requires j < |run|
  {
    exists k: nat :: i <= k < j && Delivered(run, k, p, n)
  }

  /** Every job and every new build comes from a delivery of its own push. */
  lemma {:induction false} WorkIsDelivered(d: Discipline, run: seq<State>, i: nat, j: nat, p: PreviewId)
    requires Follows(d, run) && i <= j < |run| && p !in run[i].jobs
    ensures |run[i].builds| <= |run[j].builds|
    ensures p in run[j].jobs ==> DeliveredSince(run, i, j, p, run[j].jobs[p])
    ensures forall b | At(run[j], b) && !At(run[i], b) && PreviewOf(run[j], b) == p ::
              DeliveredSince(run, i, j, p, run[j].builds[b].push)
  {
    if i < j {
      WorkIsDelivered(d, run, i, j - 1, p);
      assert Moves(d, run, j - 1);
      var step :| Allowed(d, run[j - 1], step) && run[j] == Apply(run[j - 1], step);
      var s, s' := run[j - 1], run[j];
      WorkStays(s, step, p);
      if p in s'.jobs {
        if p in s.jobs && s'.jobs[p] == s.jobs[p] { SinceLater(run, i, j - 1, p, s.jobs[p]); }
        else { assert Delivered(run, j - 1, p, s.nextPush); }
      }
      forall b | At(s', b) && !At(run[i], b) && PreviewOf(s', b) == p
        ensures DeliveredSince(run, i, j, p, s'.builds[b].push)
      {
        if At(s, b) { assert SameWork(s, s', b); } else { assert ClaimedNow(s, step, s'.builds[b]); }
        SinceLater(run, i, j - 1, p, s'.builds[b].push);
      }
    }
  }

  /** Jobs are added by deliveries, builds by claims of a job that was there. */
  lemma WorkStays(s: State, step: Step, p: PreviewId)
    requires Enabled(s, step)
    ensures |s.builds| <= |Apply(s, step).builds|
    ensures forall b | At(s, b) :: SameWork(s, Apply(s, step), b)
    ensures forall b | At(Apply(s, step), b) && !At(s, b) :: ClaimedNow(s, step, Apply(s, step).builds[b])
    ensures p in Apply(s, step).jobs ==> QueuedBy(s, step, p, Apply(s, step).jobs[p])
  {
    match step
    case TeardownDoes(t, act) => TearStays(s, t, act, p);
    case _ =>
  }

  predicate SameWork(s: State, s': State, b: BuildId)
    requires At(s, b)
  {
    At(s', b) && PreviewOf(s', b) == PreviewOf(s, b) && s'.builds[b].push == s.builds[b].push
  }

  predicate ClaimedNow(s: State, step: Step, x: Build) {
    step.Claim? && x.preview == step.p && step.p in s.jobs && x.push == s.jobs[step.p]
  }

  predicate QueuedBy(s: State, step: Step, p: PreviewId, n: Push) {
    (step.Enqueue? && step.p == p && n == s.nextPush) || (p in s.jobs && n == s.jobs[p])
  }

  lemma TearStays(s: State, t: TeardownId, act: TeardownAct, p: PreviewId)
    requires Tearing(s, t) && CanTear(s, t, act)
    ensures DoTear(s, t, act).builds == s.builds && DoTear(s, t, act).nextPush == s.nextPush
    ensures p in DoTear(s, t, act).jobs ==> p in s.jobs && DoTear(s, t, act).jobs[p] == s.jobs[p]
  {
  }

  lemma SinceLater(run: seq<State>, i: nat, j: nat, p: PreviewId, n: Push)
    requires j + 1 < |run| && DeliveredSince(run, i, j, p, n)
    ensures DeliveredSince(run, i, j + 1, p, n)
  {
    var k: nat :| i <= k < j && Delivered(run, k, p, n);
  }

  /** So after a dequeue a preview is built again only for pushes delivered after it. */
  lemma OnlyLaterPushesAreBuilt(d: Discipline, run: seq<State>, i: nat, j: nat, step: Step, p: PreviewId, b: BuildId)
    requires Follows(d, run) && i < j < |run|
    requires Enabled(run[i], step) && run[i + 1] == Apply(run[i], step) && Dequeues(run[i], step, p)
    requires At(run[j], b) && !At(run[i], b) && PreviewOf(run[j], b) == p
    ensures DeliveredSince(run, i + 1, j, p, run[j].builds[b].push)
    ensures run[j].builds[b].push >= run[i].nextPush
  {
    DequeuedIsNotClaimed(run[i], step, p, p);
    assert !Enabled(run[i + 1], Claim(p));
    WorkStays(run[i], step, p);
    WorkIsDelivered(d, run, i + 1, j, p);
    var k: nat :| i + 1 <= k < j && Delivered(run, k, p, run[j].builds[b].push);
    PushesGrow(d, run, i, k);
  }

  lemma {:induction false} PushesGrow(d: Discipline, run: seq<State>, i: nat, j: nat)
    requires Follows(d, run) && i <= j < |run|
    ensures run[i].nextPush <= run[j].nextPush
  {
    if i < j {
      PushesGrow(d, run, i, j - 1);
      assert Moves(d, run, j - 1);
      var step :| Allowed(d, run[j - 1], step) && run[j] == Apply(run[j - 1], step);
      NextPushGrows(run[j - 1], step);
    }
  }

  lemma NextPushGrows(s: State, step: Step)
    requires Enabled(s, step)
    ensures s.nextPush <= Apply(s, step).nextPush
  {
    match step
    case BuildDoes(b, act) => assert OnlyActed(s, DoAct(s, b, act), b);
    case TeardownDoes(t, act) => TearStays(s, t, act, "");
    case _ =>
  }

  // ---------------------------------------------------------------------------------------
  // The registered build
  // ---------------------------------------------------------------------------------------

  /** The step takes the registered build of p away: a newer delivery, the cancel button, or a
      teardown's section. */
  predicate TakesAway(s: State, step: Step, p: PreviewId) {
    match step
    case Clear(h) => h in s.handlers && s.handlers[h] == p
    case CancelRunning(q) => q == p
    case TeardownDoes(t, TSection) => Tearing(s, t) && s.teardowns[t].preview == p
    case _ => false
  }

  /** A build of p that was registered by then, and not past its check, puts nothing in place, be it
      running for p or replaced already. */
  lemma TakenAwayCommitsNothing(d: Discipline, run: seq<State>, i: nat, j: nat, step: Step, b: BuildId, k: nat)
    requires d.ownSection && IsRun(d, run) && i < j < |run|
    requires Enabled(run[i], step) && run[i + 1] == Apply(run[i], step)
    requires At(run[i], b) && TakesAway(run[i], step, PreviewOf(run[i], b))
    requires !PcOf(run[i], b).Claimed? && !run[i].builds[b].passed
    requires k < |run[j].effects|
    ensures !IsCurrent(run[i + 1].maps, PreviewOf(run[i], b), b)
    ensures run[j].effects[k].build == b ==> run[j].effects[k].kind == RecordedOutcome
  {
    TakenAwayIsStale(run[i], step, b);
    StaleBuildsCommitNothing(d, run, i + 1, j, b, k);
  }

  lemma TakenAwayIsStale(s: State, step: Step, b: BuildId)
    requires Enabled(s, step) && At(s, b) && TakesAway(s, step, PreviewOf(s, b))
    requires !PcOf(s, b).Claimed? && !s.builds[b].passed
    ensures Stale(Apply(s, step), b)
  {
  }

  /** Its outcome is not settled yet, or it was settled that its result is discarded. */
  predicate Discarded(pc: BuildPc) {
    match pc
    case Claimed | Recording(_, _) => false
    case Finishing(out) => out == Superseded
    case Done(out) => out == Superseded
    case _ => true
  }

  /** Cancelled, and its result is or will be discarded. */
  predicate Cancelled(s: State, b: BuildId) {
    At(s, b) && b in s.cancelled && Discarded(PcOf(s, b))
  }

  /** Unless the daemon is stopping, such a build records nothing and ends superseded, even if it
      was past its check when it was cancelled. */
  lemma {:induction false} CancelledStaysCancelled(d: Discipline, run: seq<State>, i: nat, j: nat, b: BuildId)
    requires Follows(d, run) && i <= j < |run| && Cancelled(run[i], b) && !run[j].stopping
    ensures Cancelled(run[j], b)
    ensures forall e | e in run[j].effects && e !in run[i].effects :: e.build == b ==> e.kind != RecordedOutcome
  {
    if i < j {
      assert Moves(d, run, j - 1);
      var step :| Allowed(d, run[j - 1], step) && run[j] == Apply(run[j - 1], step);
      NeverRestarts(run[j - 1], step);
      CancelledStaysCancelled(d, run, i, j - 1, b);
      StepStaysCancelled(run[j - 1], step, b);
    }
  }

  lemma NeverRestarts(s: State, step: Step)
    requires Enabled(s, step) && !Apply(s, step).stopping
    ensures !s.stopping
  {
    match step
    case BuildDoes(b, act) => ActNeverRestarts(s, b, act);
    case TeardownDoes(t, act) => TearNeverRestarts(s, t, act);
    case _ =>
  }

  lemma ActNeverRestarts(s: State, b: BuildId, act: Act)
    requires At(s, b) && CanAct(s, b, act)
    ensures DoAct(s, b, act).stopping == s.stopping
  {
    assert OnlyActed(s, DoAct(s, b, act), b);
  }

  lemma TearNeverRestarts(s: State, t: TeardownId, act: TeardownAct)
    requires Tearing(s, t) && CanTear(s, t, act)
    ensures DoTear(s, t, act).stopping == s.stopping
  {
  }

  /** Nothing is recorded for b. */
  predicate RecordsNothing(s: State, s': State, b: BuildId) {
    forall e | e in s'.effects && e !in s.effects :: e.build == b ==> e.kind != RecordedOutcome
  }

  lemma StepStaysCancelled(s: State, step: Step, b: BuildId)
    requires Enabled(s, step) && Cancelled(s, b) && !s.stopping
    ensures Cancelled(Apply(s, step), b) && RecordsNothing(s, Apply(s, step), b)
  {
    match step
    case BuildDoes(c, act) =>
      if Brief(act) { BriefStaysCancelled(s, c, act, b); }
      else if act.PlaceArtifacts? { PlacingStaysCancelled(s, c, act.ok, b); }
      else if act.SaveRow? { SavingStaysCancelled(s, c, act.ok, b); }
      else if act.SaveRecord? { RecordingStaysCancelled(s, c, act.ok, b); }
      else if Moving(act) { MovingStaysCancelled(s, c, act, b); }
      else { EndingStaysCancelled(s, c, act, b); }
    case TeardownDoes(t, act) => TearStaysCancelled(s, t, act, b);
    case _ =>
  }

  predicate Brief(act: Act) { act.RegisterBuild? || act.EndEarly? || act.FetchLock? || act.Acquire? }

  predicate Moving(act: Act) { act.TakeShare? || act.NoShare? || act.GoLive? || act.Check? }

  lemma BriefStaysCancelled(s: State, c: BuildId, act: Act, b: BuildId)
    requires At(s, c) && CanAct(s, c, act) && Brief(act) && Cancelled(s, b) && !s.stopping
    ensures Cancelled(DoAct(s, c, act), b) && RecordsNothing(s, DoAct(s, c, act), b)
  {
  }

  lemma MovingStaysCancelled(s: State, c: BuildId, act: Act, b: BuildId)
    requires At(s, c) && CanAct(s, c, act) && Moving(act) && Cancelled(s, b) && !s.stopping
    ensures Cancelled(DoAct(s, c, act), b) && RecordsNothing(s, DoAct(s, c, act), b)
  {
  }

  lemma PlacingStaysCancelled(s: State, c: BuildId, ok: bool, b: BuildId)
    requires At(s, c) && PcOf(s, c).Committing? && Cancelled(s, b) && !s.stopping
    ensures Cancelled(DoAct(s, c, PlaceArtifacts(ok)), b) && RecordsNothing(s, DoAct(s, c, PlaceArtifacts(ok)), b)
  {
  }

  lemma SavingStaysCancelled(s: State, c: BuildId, ok: bool, b: BuildId)
    requires At(s, c) && PcOf(s, c).Installed? && Cancelled(s, b) && !s.stopping
    ensures Cancelled(DoAct(s, c, SaveRow(ok)), b) && RecordsNothing(s, DoAct(s, c, SaveRow(ok)), b)
  {
  }

  lemma RecordingStaysCancelled(s: State, c: BuildId, ok: bool, b: BuildId)
    requires At(s, c) && PcOf(s, c).Recording? && Cancelled(s, b) && !s.stopping
    ensures Cancelled(DoAct(s, c, SaveRecord(ok)), b) && RecordsNothing(s, DoAct(s, c, SaveRecord(ok)), b)
  {
  }

  lemma EndingStaysCancelled(s: State, c: BuildId, act: Act, b: BuildId)
    requires At(s, c) && CanAct(s, c, act) && Cancelled(s, b) && !s.stopping
    requires !Brief(act) && !Moving(act) && !act.PlaceArtifacts? && !act.SaveRow? && !act.SaveRecord?
    ensures Cancelled(DoAct(s, c, act), b) && RecordsNothing(s, DoAct(s, c, act), b)
  {
  }

  lemma TearStaysCancelled(s: State, t: TeardownId, act: TeardownAct, b: BuildId)
    requires Tearing(s, t) && CanTear(s, t, act) && Cancelled(s, b)
    ensures Cancelled(DoTear(s, t, act), b) && RecordsNothing(s, DoTear(s, t, act), b)
  {
  }

  /** The registered build that a newer delivery or a teardown takes away leaves no failure and no
      skip behind and ends superseded, unless its pipeline had been settled by then or the daemon is
      stopping. */
  lemma ReplacedRecordsNothing(d: Discipline, run: seq<State>, i: nat, j: nat, step: Step, b: BuildId)
    requires Follows(d, run) && i < j < |run| && !run[j].stopping
    requires Enabled(run[i], step) && run[i + 1] == Apply(run[i], step) && !step.CancelRunning?
    requires At(run[i], b) && TakesAway(run[i], step, PreviewOf(run[i], b))
    requires IsCurrent(run[i].maps, PreviewOf(run[i], b), b) && Discarded(PcOf(run[i], b))
    ensures At(run[j], b) && !PcOf(run[j], b).Recording?
    ensures PcOf(run[j], b).Done? ==> PcOf(run[j], b).out == Superseded
    ensures forall e | e in run[j].effects && e !in run[i].effects :: e.build == b ==> e.kind != RecordedOutcome
  {
    TakenAwayIsCancelled(run[i], step, b);
    CancelledStaysCancelled(d, run, i + 1, j, b);
  }

  lemma TakenAwayIsCancelled(s: State, step: Step, b: BuildId)
    requires Enabled(s, step) && !step.CancelRunning? && At(s, b) && TakesAway(s, step, PreviewOf(s, b))
    requires IsCurrent(s.maps, PreviewOf(s, b), b) && Discarded(PcOf(s, b))
    ensures Cancelled(Apply(s, step), b) && Apply(s, step).effects == s.effects
  {
  }
}
