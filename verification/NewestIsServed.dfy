/**
 What the commit lock, the queue and the rows achieve together: two pushes in quick
 succession end with the second one published, never the first.
 */
module NewestIsServed {
  import opened Protocol
  import opened PublishOrder
  import opened Agreement
  import opened NoLostPush

  /** Published, and nothing left to go wrong. */
  predicate EndsReady(pc: BuildPc) {
    pc.Recorded? || ((pc.Leaving? || pc.Returned? || pc.Finishing? || pc.Done?) && pc.out == Ready)
  }

  predicate ServedBy(s: State, p: PreviewId, b: BuildId) {
    p in s.maps.live && s.maps.live[p].build == b
  }

  /** If the newest push built and published, it is what is live. */
  predicate Served(s: State, p: PreviewId) {
    p in s.newest && s.newest[p].ClaimedBy? && At(s, s.newest[p].b) && EndsReady(PcOf(s, s.newest[p].b)) ==>
      s.builds[s.newest[p].b].passed && ServedBy(s, p, s.newest[p].b)
  }

  ghost predicate AllServed(s: State) { forall p {:trigger Served(s, p)} :: Served(s, p) }

  /** All three invariants of the full discipline. */
  ghost predicate Good(x: set<PreviewId>, s: State) { Inv(s) && Agree(x, s) && Kept(s) }

  lemma MoveServed(s: State, s': State, b: BuildId)
    requires Kept(s) && AllServed(s) && OnlyActed(s, s', b) && s'.maps.live == s.maps.live
    requires s.builds[b].passed ==> s'.builds[b].passed
    requires EndsReady(PcOf(s', b)) && !EndsReady(PcOf(s, b)) ==>
               s'.builds[b].passed && ServedBy(s, PreviewOf(s, b), b)
    ensures AllServed(s')
  {
    forall p ensures Served(s', p) { assert Served(s, p) && Tracked(s, p); }
  }

  lemma EarlyServed(x: set<PreviewId>, s: State, b: BuildId, act: Act)
    requires Good(x, s) && AllServed(s) && At(s, b) && CanAct(s, b, act)
    requires act.RegisterBuild? || act.EndEarly? || act.FetchLock? || act.Acquire? || act.Check?
    ensures AllServed(DoAct(s, b, act))
  {
    assert BuildOk(s, b);
    MoveServed(s, DoAct(s, b, act), b);
  }

  lemma PlaceServed(x: set<PreviewId>, s: State, b: BuildId, ok: bool)
    requires Good(x, s) && AllServed(s) && At(s, b) && PcOf(s, b).Committing?
    ensures AllServed(DoPlaceArtifacts(s, b, ok))
  {
    MoveServed(s, DoPlaceArtifacts(s, b, ok), b);
  }

  lemma ShareServed(x: set<PreviewId>, s: State, b: BuildId, act: Act)
    requires Good(x, s) && AllServed(s) && At(s, b) && CanAct(s, b, act)
    requires act.TakeShare? || act.NoShare?
    ensures AllServed(DoAct(s, b, act))
  {
    MoveServed(s, DoAct(s, b, act), b);
  }

  lemma RowServed(x: set<PreviewId>, s: State, b: BuildId, act: Act)
    requires Good(x, s) && AllServed(s) && At(s, b) && CanAct(s, b, act)
    requires act.SaveRow? || act.DeleteRow?
    ensures AllServed(DoAct(s, b, act))
  {
    assert BuildOk(s, b) && CommitOk(s, b);
    MoveServed(s, DoAct(s, b, act), b);
  }

  lemma LateServed(x: set<PreviewId>, s: State, b: BuildId, act: Act)
    requires Good(x, s) && AllServed(s) && At(s, b) && CanAct(s, b, act)
    requires act.SaveRecord? || act.Finish? || act.CancelContext?
    ensures AllServed(DoAct(s, b, act))
  {
    MoveServed(s, DoAct(s, b, act), b);
  }

  lemma LeavingServed(x: set<PreviewId>, s: State, b: BuildId, act: Act)
    requires Good(x, s) && AllServed(s) && At(s, b) && CanAct(s, b, act)
    requires act.Prune? || act.Release? || act.Settle?
    ensures AllServed(DoAct(s, b, act))
  {
    MoveServed(s, DoAct(s, b, act), b);
  }

  /** Whoever goes live after the newest push was published would have to be newer. */
  lemma GoLiveServed(x: set<PreviewId>, s: State, b: BuildId)
    requires Good(x, s) && AllServed(s) && At(s, b) && PcOf(s, b).Shared?
    ensures AllServed(DoGoLive(s, b))
  {
    forall p ensures Served(DoGoLive(s, b), p) {
      assert Served(s, p) && Tracked(s, p) && TopOk(s, p, b);
      if p in s.newest && s.newest[p].ClaimedBy? {
        var c := s.newest[p].b;
        assert NewestOk(s, b, c) && PushOrderOk(s, b, c) && BuildOk(s, c);
      }
    }
  }

  lemma WithdrawServed(x: set<PreviewId>, s: State, b: BuildId)
    requires Good(x, s) && AllServed(s) && At(s, b) && PcOf(s, b).Unrecorded?
    ensures AllServed(DoWithdraw(s, b))
  {
    assert CommitOk(s, b);
    forall p ensures Served(DoWithdraw(s, b), p) { assert Served(s, p) && Tracked(s, p); }
  }

  lemma TearServed(s: State, t: TeardownId, act: TeardownAct)
    requires AllServed(s) && Tearing(s, t) && CanTear(s, t, act)
    ensures AllServed(DoTear(s, t, act))
  {
    forall p ensures Served(DoTear(s, t, act), p) { assert Served(s, p); }
  }

  lemma OtherServed(x: set<PreviewId>, s: State, step: Step)
    requires Good(x, s) && AllServed(s) && Enabled(s, step) && !step.BuildDoes? && !step.TeardownDoes?
    ensures AllServed(Apply(s, step))
  {
    forall p ensures Served(Apply(s, step), p) { assert Served(s, p) && Tracked(s, p); }
  }

  lemma StepServed(x: set<PreviewId>, s: State, step: Step)
    requires Good(x, s) && AllServed(s) && Enabled(s, step)
    ensures AllServed(Apply(s, step))
  {
    match step
    case BuildDoes(b, act) =>
      match act {
        case RegisterBuild | EndEarly(_) | FetchLock | Acquire | Check(_) => EarlyServed(x, s, b, act);
        case GoLive => GoLiveServed(x, s, b);
        case Withdraw => WithdrawServed(x, s, b);
        case PlaceArtifacts(ok) => PlaceServed(x, s, b, ok);
        case TakeShare(_) | NoShare => ShareServed(x, s, b, act);
        case SaveRow(_) | DeleteRow(_) => RowServed(x, s, b, act);
        case Prune(_) | Release | Settle => LeavingServed(x, s, b, act);
        case _ => LateServed(x, s, b, act);
      }
    case TeardownDoes(t, act) => TearServed(s, t, act);
    case _ => OtherServed(x, s, step);
  }

  lemma {:induction false} RunServed(run: seq<State>, i: nat)
    requires IsRun(FULL, run) && i < |run|
    ensures Good(Astray(run[0]), run[i]) && AllServed(run[i])
  {
    RunAgrees(FULL, run, i);
    RunKept(FULL, run, i);
    if i == 0 {
      forall p ensures Served(run[0], p) {}
    } else {
      RunServed(run, i - 1);
      assert Moves(FULL, run, i - 1);
      var step :| Allowed(FULL, run[i - 1], step) && run[i] == Apply(run[i - 1], step);
      StepServed(Astray(run[0]), run[i - 1], step);
    }
  }

  /** In every run of the full discipline, once the build of the newest push has finished
      with a preview, that build is what is live, with its row and its artifacts. Older
      pushes of the preview can be anywhere in the protocol at that moment. */
  lemma TheNewestPushIsServed(run: seq<State>, i: nat, p: PreviewId, b: BuildId)
    requires IsRun(FULL, run) && i < |run| && p in run[i].newest
    requires At(run[i], b) && PreviewOf(run[i], b) == p && PcOf(run[i], b) == Done(Ready)
    requires run[i].builds[b].push == run[i].newest[p].push
    ensures ServedBy(run[i], p, b) && Matches(run[i], p)
  {
    RunServed(run, i);
    var r := run[i];
    assert Served(r, p) && LiveOk(Astray(run[0]), r, p) && Tracked(r, p) && PushOk(r, b);
    if r.newest[p].ClaimedBy? {
      var c := r.newest[p].b;
      assert PushOrderOk(r, c, b) && PushOrderOk(r, b, c) && NewestOk(r, b, c);
    }
  }
}
