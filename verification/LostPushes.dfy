/**
 How a push is lost. No hypothesis on the interleaving is made here: in any run at all, the newest
 push of a preview stops being accounted for at three steps and no others.
 */
module LostPushes {
  import opened Protocol
  import opened NoLostPush
  import opened Withdrawals

  // ---------------------------------------------------------------------------------------
  // What every run keeps
  // ---------------------------------------------------------------------------------------

  /** The registered build of a preview is one of its builds, registered and not done. */
  predicate RunOk(s: State, p: PreviewId) {
    p in s.maps.running ==>
      var b := s.maps.running[p];
      At(s, b) && PreviewOf(s, b) == p && !PcOf(s, b).Claimed? && !PcOf(s, b).Done?
  }

  /** The newest push of a preview is in the queue, or was claimed by the build that is named. */
  predicate NewestKnown(s: State, p: PreviewId) {
    p in s.newest ==>
      match s.newest[p]
      case Unclaimed(n) => p in s.jobs && s.jobs[p] == n
      case ClaimedBy(n, b) => At(s, b) && PreviewOf(s, b) == p && s.builds[b].push == n
  }

  /** No two builds have one push, and none has the one that is queued. */
  predicate OwnPush(s: State, b: BuildId, c: BuildId)
    requires At(s, b) && At(s, c)
  {
    b != c && PreviewOf(s, b) == PreviewOf(s, c) ==> s.builds[b].push != s.builds[c].push
  }

  ghost predicate QueuedOk(s: State, p: PreviewId) {
    p in s.jobs ==> s.jobs[p] < s.nextPush && forall b | At(s, b) :: PreviewOf(s, b) == p ==> s.builds[b].push != s.jobs[p]
  }

  ghost predicate Known(s: State) {
    && (forall p {:trigger RunOk(s, p)} :: RunOk(s, p))
    && (forall p {:trigger NewestKnown(s, p)} :: NewestKnown(s, p))
    && (forall p {:trigger QueuedOk(s, p)} :: QueuedOk(s, p))
    && (forall b, c {:trigger OwnPush(s, b, c)} | At(s, b) && At(s, c) :: OwnPush(s, b, c))
    && (forall b {:trigger s.builds[b]} | At(s, b) :: s.builds[b].push < s.nextPush)
  }

  /** Build b moved, and was registered by nobody, or by itself, or is done and gone. */
  predicate EntryOk(s: State, s': State, b: BuildId, p: PreviewId) {
    p in s'.maps.running && s'.maps.running[p] == b ==>
      At(s, b) && At(s', b) && p == PreviewOf(s, b) && !PcOf(s', b).Claimed? && !PcOf(s', b).Done?
  }

  lemma ActKeepsKnown(s: State, s': State, b: BuildId)
    requires Known(s) && OnlyActed(s, s', b)
    requires forall p {:trigger EntryOk(s, s', b, p)} :: EntryOk(s, s', b, p)
    ensures Known(s')
  {
    forall p ensures RunOk(s', p) {
      assert RunOk(s, p) && EntryOk(s, s', b, p);
      if p in s'.maps.running && s'.maps.running[p] != b {
        assert IsCurrent(s'.maps, p, s'.maps.running[p]);
      }
    }
    forall p ensures NewestKnown(s', p) { assert NewestKnown(s, p); }
    forall p ensures QueuedOk(s', p) { assert QueuedOk(s, p); }
    forall c, e | At(s', c) && At(s', e) ensures OwnPush(s', c, e) { assert OwnPush(s, c, e); }
  }

  predicate IsEarly(act: Act) { act.EndEarly? || act.FetchLock? || act.Acquire? || act.CancelContext? }

  predicate IsPlacing(act: Act) { act.PlaceArtifacts? || act.TakeShare? || act.NoShare? || act.GoLive? }

  predicate IsSaving(act: Act) { act.SaveRow? || act.Withdraw? || act.DeleteRow? || act.Prune? }

  predicate IsEnding(act: Act) { act.Release? || act.Settle? || act.SaveRecord? }

  /** The act changes no entry of `running`, and its build is registered still and not done, or is
      where it was. */
  predicate StaysIn(s: State, s': State, b: BuildId)
    requires At(s, b) && At(s', b)
  {
    && s'.maps.running == s.maps.running
    && (PcOf(s', b) == PcOf(s, b) || (!PcOf(s', b).Claimed? && !PcOf(s', b).Done?))
  }

  lemma EarlyStaysIn(s: State, b: BuildId, act: Act)
    requires At(s, b) && CanAct(s, b, act) && IsEarly(act)
    ensures StaysIn(s, DoAct(s, b, act), b)
  {}

  lemma PlacingStaysIn(s: State, b: BuildId, act: Act)
    requires At(s, b) && CanAct(s, b, act) && IsPlacing(act)
    ensures StaysIn(s, DoAct(s, b, act), b)
  {
    if act.PlaceArtifacts? { PlaceStaysIn(s, b, act.ok); }
  }

  lemma PlaceStaysIn(s: State, b: BuildId, ok: bool)
    requires At(s, b) && PcOf(s, b).Committing?
    ensures StaysIn(s, DoPlaceArtifacts(s, b, ok), b)
  {}

  lemma SavingStaysIn(s: State, b: BuildId, act: Act)
    requires At(s, b) && CanAct(s, b, act) && IsSaving(act)
    ensures StaysIn(s, DoAct(s, b, act), b)
  {
    if act.SaveRow? { SaveRowStaysIn(s, b, act.ok); }
  }

  lemma SaveRowStaysIn(s: State, b: BuildId, ok: bool)
    requires At(s, b) && PcOf(s, b).Installed?
    ensures StaysIn(s, DoSaveRow(s, b, ok), b)
  {}

  lemma EndingStaysIn(s: State, b: BuildId, act: Act)
    requires At(s, b) && CanAct(s, b, act) && IsEnding(act)
    ensures StaysIn(s, DoAct(s, b, act), b)
  {
    if act.SaveRecord? { RecordStaysIn(s, b, act.ok); }
  }

  lemma RecordStaysIn(s: State, b: BuildId, ok: bool)
    requires At(s, b) && PcOf(s, b).Recording?
    ensures StaysIn(s, DoSaveRecord(s, b, ok), b)
  {}

  lemma CheckStaysIn(s: State, b: BuildId, sawCancel: bool)
    requires At(s, b) && PcOf(s, b).Locked?
    ensures StaysIn(s, DoCheck(s, b, sawCancel), b)
  {}

  lemma OthersStayIn(s: State, b: BuildId, act: Act)
    requires At(s, b) && CanAct(s, b, act) && !act.RegisterBuild? && !act.Finish?
    ensures StaysIn(s, DoAct(s, b, act), b)
  {
    if IsEarly(act) { EarlyStaysIn(s, b, act); }
    else if act.Check? { CheckStaysIn(s, b, act.sawCancel); }
    else if IsPlacing(act) { PlacingStaysIn(s, b, act); }
    else if IsSaving(act) { SavingStaysIn(s, b, act); }
    else { EndingStaysIn(s, b, act); }
  }

  lemma DoActKeepsKnown(s: State, b: BuildId, act: Act)
    requires Known(s) && At(s, b) && CanAct(s, b, act)
    ensures Known(DoAct(s, b, act))
  {
    if act.RegisterBuild? {
      RegisterKeepsKnown(s, b);
    } else if act.Finish? {
      FinishKeepsKnown(s, b);
    } else {
      OthersStayIn(s, b, act);
      var s' := DoAct(s, b, act);
      forall p ensures EntryOk(s, s', b, p) { assert RunOk(s, p); }
      ActKeepsKnown(s, s', b);
    }
  }

  lemma RegisterKeepsKnown(s: State, b: BuildId)
    requires Known(s) && At(s, b) && PcOf(s, b).Claimed?
    ensures Known(DoRegister(s, b))
  {
    var s' := DoRegister(s, b);
    forall p ensures EntryOk(s, s', b, p) { assert RunOk(s, p); }
    ActKeepsKnown(s, s', b);
  }

  lemma FinishKeepsKnown(s: State, b: BuildId)
    requires Known(s) && At(s, b) && PcOf(s, b).Finishing?
    ensures Known(DoFinish(s, b))
  {
    var s' := DoFinish(s, b);
    forall p ensures EntryOk(s, s', b, p) { assert RunOk(s, p); }
    ActKeepsKnown(s, s', b);
  }

  /** Steps that leave the builds alone: entries of `running` may go. */
  lemma SameBuildsKeepKnown(s: State, s': State)
    requires Known(s) && s'.builds == s.builds && s'.nextPush >= s.nextPush
    requires forall p | p in s'.maps.running :: p in s.maps.running && s'.maps.running[p] == s.maps.running[p]
    requires forall p {:trigger NewestKnown(s', p)} :: NewestKnown(s', p)
    requires forall p {:trigger QueuedOk(s', p)} :: QueuedOk(s', p)
    ensures Known(s')
  {
    forall p ensures RunOk(s', p) { assert RunOk(s, p); }
    forall c, e | At(s', c) && At(s', e) ensures OwnPush(s', c, e) { assert OwnPush(s, c, e); }
  }

  lemma EnqueueKeepsKnown(s: State, h: HandlerId, p: PreviewId)
    requires Known(s)
    ensures Known(DoEnqueue(s, h, p))
  {
    var s' := DoEnqueue(s, h, p);
    forall q ensures NewestKnown(s', q) { assert NewestKnown(s, q); }
    forall q ensures QueuedOk(s', q) { assert QueuedOk(s, q); }
    SameBuildsKeepKnown(s, s');
  }

  lemma ClaimKeepsKnown(s: State, p: PreviewId)
    requires Known(s) && p in s.jobs
    ensures Known(DoClaim(s, p))
  {
    var s' := DoClaim(s, p);
    assert QueuedOk(s, p);
    forall q ensures RunOk(s', q) { assert RunOk(s, q); }
    forall q ensures NewestKnown(s', q) { assert NewestKnown(s, q); }
    forall q ensures QueuedOk(s', q) { assert QueuedOk(s, q); }
    forall c, e | At(s', c) && At(s', e) ensures OwnPush(s', c, e) {
      if At(s, c) && At(s, e) { assert OwnPush(s, c, e); }
    }
  }

  lemma DequeueKeepsKnown(s: State, p: PreviewId)
    requires Known(s)
    ensures Known(DoDequeue(s, p))
  {
    var s' := DoDequeue(s, p);
    forall q ensures NewestKnown(s', q) { assert NewestKnown(s, q); }
    forall q ensures QueuedOk(s', q) { assert QueuedOk(s, q); }
    SameBuildsKeepKnown(s, s');
  }

  /** Steps that touch neither the builds nor the queue, and of what is newest forget at most. */
  lemma ForgettingKeepsKnown(s: State, s': State)
    requires Known(s) && s'.builds == s.builds && s'.jobs == s.jobs && s'.nextPush == s.nextPush
    requires forall p | p in s'.maps.running :: p in s.maps.running && s'.maps.running[p] == s.maps.running[p]
    requires forall p | p in s'.newest :: p in s.newest && s'.newest[p] == s.newest[p]
    ensures Known(s')
  {
    forall q ensures NewestKnown(s', q) { assert NewestKnown(s, q); }
    forall q ensures QueuedOk(s', q) { assert QueuedOk(s, q); }
    SameBuildsKeepKnown(s, s');
  }

  lemma TearKeepsKnown(s: State, t: TeardownId, act: TeardownAct)
    requires Known(s) && Tearing(s, t) && CanTear(s, t, act)
    ensures Known(DoTear(s, t, act))
  {
    if act.TDequeue? { DequeueKeepsKnown(s, s.teardowns[t].preview); } else { ForgettingKeepsKnown(s, DoTear(s, t, act)); }
  }

  lemma StepKeepsKnown(s: State, step: Step)
    requires Known(s) && Enabled(s, step)
    ensures Known(Apply(s, step))
  {
    match step
    case BuildDoes(b, act) => DoActKeepsKnown(s, b, act);
    case Enqueue(h, p) => EnqueueKeepsKnown(s, h, p);
    case Claim(p) => ClaimKeepsKnown(s, p);
    case CancelQueued(p) => DequeueKeepsKnown(s, p);
    case TeardownDoes(t, act) => TearKeepsKnown(s, t, act);
    case _ => ForgettingKeepsKnown(s, Apply(s, step));
  }

  lemma {:induction false} RunKeepsKnown(d: Discipline, run: seq<State>, i: nat)
    requires IsRun(d, run) && i < |run|
    ensures Known(run[i])
  {
    if i == 0 {
      forall p ensures RunOk(run[0], p) && NewestKnown(run[0], p) && QueuedOk(run[0], p) {}
    } else {
      RunKeepsKnown(d, run, i - 1);
      assert Moves(d, run, i - 1);
      var step :| Allowed(d, run[i - 1], step) && run[i] == Apply(run[i - 1], step);
      StepKeepsKnown(run[i - 1], step);
    }
  }

  // ---------------------------------------------------------------------------------------
  // Where a push is lost
  // ---------------------------------------------------------------------------------------

  /** Its build is about to register, is the registered one, or finished with an outcome of its own. */
  predicate BuildAccounts(s: State, p: PreviewId, b: BuildId) {
    At(s, b) && (PcOf(s, b).Claimed? || IsCurrent(s.maps, p, b) || (PcOf(s, b).Done? && PcOf(s, b).out != Superseded))
  }

  /** For the newest push of a preview that is all there is to it, once it is claimed. */
  lemma AccountedByItsBuild(s: State, p: PreviewId)
    requires Known(s) && p in s.newest
    ensures s.newest[p].Unclaimed? ==> Accounted(s, p, s.newest[p].push)
    ensures s.newest[p].ClaimedBy? ==> (Accounted(s, p, s.newest[p].push) <==> BuildAccounts(s, p, s.newest[p].b))
  {
    assert NewestKnown(s, p) && QueuedOk(s, p);
    if s.newest[p].ClaimedBy? {
      var b := s.newest[p].b;
      forall c | At(s, c) && PreviewOf(s, c) == p && s.builds[c].push == s.newest[p].push ensures c == b {
        assert OwnPush(s, b, c);
      }
    }
  }

  /** A step takes the registered build b of p away: a delivery clears it, another build registers
      over it, or it finishes itself, superseded. */
  predicate Displaces(s: State, step: Step, p: PreviewId, b: BuildId) {
    && IsCurrent(s.maps, p, b)
    && match step
       case Clear(h) => h in s.handlers && s.handlers[h] == p
       case BuildDoes(c, RegisterBuild) => At(s, c) && c != b && PreviewOf(s, c) == p
       case BuildDoes(c, Finish) => c == b && At(s, c) && PcOf(s, c) == Finishing(Superseded)
       case _ => false
  }

  lemma OthersDisplaceExactly(s: State, c: BuildId, act: Act, p: PreviewId, b: BuildId)
    requires Known(s) && At(s, c) && CanAct(s, c, act) && c != b && BuildAccounts(s, p, b) && PreviewOf(s, b) == p
    ensures !BuildAccounts(DoAct(s, c, act), p, b) <==> Displaces(s, BuildDoes(c, act), p, b)
  {
    assert RunOk(s, p);
    var s' := DoAct(s, c, act);
    assert s'.builds[b] == s.builds[b];
    if !act.RegisterBuild? && !act.Finish? { OthersStayIn(s, c, act); }
  }

  lemma OwnDisplacesExactly(s: State, b: BuildId, act: Act, p: PreviewId)
    requires Known(s) && At(s, b) && CanAct(s, b, act) && BuildAccounts(s, p, b) && PreviewOf(s, b) == p
    ensures !BuildAccounts(DoAct(s, b, act), p, b) <==> Displaces(s, BuildDoes(b, act), p, b)
  {
    assert RunOk(s, p);
    if !act.RegisterBuild? && !act.Finish? { OthersStayIn(s, b, act); }
  }

  lemma OtherStepsDisplaceExactly(s: State, step: Step, p: PreviewId, b: BuildId)
    requires Known(s) && Enabled(s, step) && !step.BuildDoes? && BuildAccounts(s, p, b) && PreviewOf(s, b) == p
    requires p in s.newest && p in Apply(s, step).newest && s.newest[p].ClaimedBy? && s.newest[p].b == b
    requires Apply(s, step).newest[p] == s.newest[p]
    ensures !BuildAccounts(Apply(s, step), p, b) <==> Displaces(s, step, p, b)
  {
    assert RunOk(s, p);
    if step.TeardownDoes? { TearDisplacesNothing(s, step.t, step.tact, p, b); }
  }

  lemma TearDisplacesNothing(s: State, t: TeardownId, act: TeardownAct, p: PreviewId, b: BuildId)
    requires Tearing(s, t) && CanTear(s, t, act) && BuildAccounts(s, p, b)
    requires p in DoTear(s, t, act).newest
    ensures BuildAccounts(DoTear(s, t, act), p, b)
  {}

  /** In any run, under no hypothesis at all: from one state to the next the newest push of a preview,
      as long as it is the newest, stops being accounted for exactly when a delivery clears the
      build that claimed it, another build registers over that build, or that build finishes,
      superseded, while it is registered. */
  lemma PushIsLostExactly(d: Discipline, run: seq<State>, i: nat, step: Step, p: PreviewId)
    requires IsRun(d, run) && i < |run| && Enabled(run[i], step)
    requires p in run[i].newest && p in Apply(run[i], step).newest
    requires Apply(run[i], step).newest[p].push == run[i].newest[p].push
    requires Accounted(run[i], p, run[i].newest[p].push)
    ensures !Accounted(Apply(run[i], step), p, run[i].newest[p].push) <==>
      run[i].newest[p].ClaimedBy? && Displaces(run[i], step, p, run[i].newest[p].b)
  {
    var s, s' := run[i], Apply(run[i], step);
    RunKeepsKnown(d, run, i);
    StepKeepsKnown(s, step);
    assert NewestKnown(s, p) && NewestKnown(s', p);
    AccountedByItsBuild(s, p);
    AccountedByItsBuild(s', p);
    NewestStays(s, step, p);
    if s.newest[p].ClaimedBy? {
      var b := s.newest[p].b;
      if step.BuildDoes? && step.b == b { OwnDisplacesExactly(s, b, step.act, p); }
      else if step.BuildDoes? { OthersDisplaceExactly(s, step.b, step.act, p, b); }
      else { OtherStepsDisplaceExactly(s, step, p, b); }
    }
  }

  /** A push that stays the newest stays with the build that claimed it; only a claim moves it. */
  lemma NewestStays(s: State, step: Step, p: PreviewId)
    requires Known(s) && Enabled(s, step) && p in s.newest && p in Apply(s, step).newest
    requires Apply(s, step).newest[p].push == s.newest[p].push
    ensures s.newest[p].ClaimedBy? ==> Apply(s, step).newest[p] == s.newest[p]
    ensures s.newest[p].Unclaimed? && Apply(s, step).newest[p].ClaimedBy? ==>
      BuildAccounts(Apply(s, step), p, Apply(s, step).newest[p].b)
  {
    assert NewestKnown(s, p) && QueuedOk(s, p);
    match step
    case BuildDoes(b, act) => ActsForgetNothing(s, b, act);
    case TeardownDoes(t, act) => TearForgets(s, t, act, p);
    case _ =>
  }

  lemma TearForgets(s: State, t: TeardownId, act: TeardownAct, p: PreviewId)
    requires Tearing(s, t) && CanTear(s, t, act) && p in s.newest && p in DoTear(s, t, act).newest
    ensures DoTear(s, t, act).newest[p] == s.newest[p]
  {}

  /** The push n of p is withdrawn: its queued job is taken out, its running build is cancelled, or its
      preview is torn down. */
  predicate WithdrawsPush(s: State, step: Step, p: PreviewId, n: Push) {
    || (Dequeues(s, step, p) && p in s.jobs && s.jobs[p] == n)
    || (step == CancelRunning(p) && p in s.maps.running && At(s, s.maps.running[p]) && s.builds[s.maps.running[p]].push == n)
    || (TakesAway(s, step, p) && step.TeardownDoes?)
  }

  /** In any run the newest push of a preview is the newest until another one is delivered, or until it
      is withdrawn, and by nothing else. */
  lemma NewestUntilWithdrawnExactly(d: Discipline, run: seq<State>, i: nat, step: Step, p: PreviewId)
    requires IsRun(d, run) && i < |run| && Enabled(run[i], step) && p in run[i].newest
    ensures p !in Apply(run[i], step).newest <==> WithdrawsPush(run[i], step, p, run[i].newest[p].push)
    ensures p in Apply(run[i], step).newest ==>
      Apply(run[i], step).newest[p].push == if step.Enqueue? && step.p == p then run[i].nextPush else run[i].newest[p].push
  {
    var s := run[i];
    RunKeepsKnown(d, run, i);
    assert NewestKnown(s, p) && QueuedOk(s, p) && RunOk(s, p);
    if s.newest[p].ClaimedBy? && p in s.maps.running { assert OwnPush(s, s.newest[p].b, s.maps.running[p]); }
    match step
    case BuildDoes(b, act) => ActsForgetNothing(s, b, act);
    case TeardownDoes(t, act) => TearForgetsExactly(s, t, act, p);
    case _ =>
  }

  lemma ActsForgetNothing(s: State, b: BuildId, act: Act)
    requires At(s, b) && CanAct(s, b, act)
    ensures DoAct(s, b, act).newest == s.newest
  {
    assert OnlyActed(s, DoAct(s, b, act), b);
  }

  lemma TearForgetsExactly(s: State, t: TeardownId, act: TeardownAct, p: PreviewId)
    requires Tearing(s, t) && CanTear(s, t, act) && p in s.newest && NewestKnown(s, p) && QueuedOk(s, p)
    ensures p !in DoTear(s, t, act).newest <==> WithdrawsPush(s, TeardownDoes(t, act), p, s.newest[p].push)
    ensures p in DoTear(s, t, act).newest ==> DoTear(s, t, act).newest[p] == s.newest[p]
  {
  }
}
