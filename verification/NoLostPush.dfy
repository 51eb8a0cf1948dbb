/**
 No push is lost: the newest push of a preview that nobody cancelled or tore down is always
 queued, claimed, running, or finished by its own build with its own outcome.

 This needs two windows the code leaves open to stay shut: nothing is claimed between a
 delivery's enqueue and its clearing of `running`, and nothing is claimed between a claim and
 its registration. Then registration order is push order as well, and with the publish-order
 and agreement invariants the newest push that built is the one that is served.
 */
module NoLostPush {
  import opened Protocol
  import opened PublishOrder

  /** The outcome a build's pipeline has settled on, if it has. */
  predicate EndsSuperseded(pc: BuildPc) {
    (pc.Leaving? || pc.Returned? || pc.Finishing? || pc.Done?) && pc.out == Superseded
  }

  predicate QueueOk(s: State, p: PreviewId) { p in s.jobs ==> s.jobs[p] < s.nextPush }

  predicate PushOk(s: State, b: BuildId)
    requires At(s, b)
  {
    var x := s.builds[b];
    && x.push < s.nextPush
    && (x.preview in s.jobs ==> x.push < s.jobs[x.preview])
    && (!x.pc.Claimed? ==> x.reg < s.nextReg)
    && (EndsSuperseded(x.pc) ==> !IsCurrent(s.maps, x.preview, b))
  }

  predicate CurrentOk(s: State, p: PreviewId, b: BuildId) {
    IsCurrent(s.maps, p, b) ==> At(s, b) && PreviewOf(s, b) == p && !PcOf(s, b).Claimed? && !PcOf(s, b).Done?
  }

  predicate CancelOk(s: State, b: BuildId) {
    b in s.cancelled ==> At(s, b) && !PcOf(s, b).Claimed? && !IsCurrent(s.maps, PreviewOf(s, b), b)
  }

  /** Builds of a preview are claimed, and so registered, in push order. */
  predicate PushOrderOk(s: State, b: BuildId, c: BuildId)
    requires At(s, b) && At(s, c)
  {
    var x, y := s.builds[b], s.builds[c];
    b != c && x.preview == y.preview ==>
      && !(x.pc.Claimed? && y.pc.Claimed?)
      && (!y.pc.Claimed? && (x.pc.Claimed? || y.reg < x.reg) ==> y.push < x.push)
  }

  /** Where the newest push is. */
  predicate Tracked(s: State, p: PreviewId) {
    p in s.newest ==>
      match s.newest[p]
      case Unclaimed(n) => p in s.jobs && s.jobs[p] == n
      case ClaimedBy(n, b) =>
        && p !in s.jobs && At(s, b) && PreviewOf(s, b) == p && s.builds[b].push == n
        && (PcOf(s, b).Claimed? || IsCurrent(s.maps, p, b) || (PcOf(s, b).Done? && PcOf(s, b).out != Superseded))
  }

  predicate TopOk(s: State, p: PreviewId, b: BuildId)
    requires At(s, b)
  {
    p in s.newest && PreviewOf(s, b) == p ==> s.builds[b].push <= s.newest[p].push
  }

  predicate PendingOk(s: State, h: HandlerId) {
    h in s.handlers && s.handlers[h] in s.newest ==> s.newest[s.handlers[h]].Unclaimed?
  }

  ghost predicate Kept(s: State) {
    && !s.stopping
    && (forall p {:trigger QueueOk(s, p)} :: QueueOk(s, p))
    && (forall b {:trigger PushOk(s, b)} | At(s, b) :: PushOk(s, b))
    && (forall p, b {:trigger CurrentOk(s, p, b)} :: CurrentOk(s, p, b))
    && (forall b {:trigger CancelOk(s, b)} :: CancelOk(s, b))
    && (forall b, c {:trigger PushOrderOk(s, b, c)} | At(s, b) && At(s, c) :: PushOrderOk(s, b, c))
    && (forall p {:trigger Tracked(s, p)} :: Tracked(s, p))
    && (forall p, b {:trigger TopOk(s, p, b)} | At(s, b) :: TopOk(s, p, b))
    && (forall h {:trigger PendingOk(s, h)} :: PendingOk(s, h))
  }

  // ---------------------------------------------------------------------------------------
  // Acts of a build
  // ---------------------------------------------------------------------------------------

  /** The queue side of the invariant does not look at what an act changes. */
  lemma QueueSide(s: State, s': State, b: BuildId)
    requires Kept(s) && OnlyActed(s, s', b)
    ensures forall p :: QueueOk(s', p)
    ensures forall p, c | At(s', c) :: TopOk(s', p, c)
    ensures forall h :: PendingOk(s', h)
  {
    forall p ensures QueueOk(s', p) { assert QueueOk(s, p); }
    forall p, c | At(s', c) ensures TopOk(s', p, c) { assert TopOk(s, p, c); }
    forall h ensures PendingOk(s', h) { assert PendingOk(s, h); }
  }

  /** A registered build moves on: the registry does not change, nor who is cancelled. */
  lemma MoveKept(s: State, s': State, b: BuildId)
    requires Kept(s) && OnlyActed(s, s', b)
    requires s'.maps.running == s.maps.running && s'.cancelled == s.cancelled && s'.nextReg == s.nextReg
    requires !PcOf(s, b).Claimed? && !PcOf(s', b).Claimed? && s'.builds[b].reg == s.builds[b].reg
    requires !PcOf(s, b).Done? && !PcOf(s', b).Done?
    requires EndsSuperseded(PcOf(s', b)) ==> EndsSuperseded(PcOf(s, b)) || !IsCurrent(s.maps, PreviewOf(s, b), b)
    ensures Kept(s')
  {
    QueueSide(s, s', b);
    forall c | At(s', c) ensures PushOk(s', c) { assert PushOk(s, c); }
    forall p, c ensures CurrentOk(s', p, c) { assert CurrentOk(s, p, c); }
    forall c ensures CancelOk(s', c) { assert CancelOk(s, c); }
    forall c, e | At(s', c) && At(s', e) ensures PushOrderOk(s', c, e) { assert PushOrderOk(s, c, e); }
    forall p ensures Tracked(s', p) { assert Tracked(s, p); }
  }

  lemma EarlyActKept(s: State, b: BuildId, act: Act)
    requires Kept(s) && At(s, b) && CanAct(s, b, act)
    requires act.EndEarly? || act.FetchLock? || act.Acquire? || act.Check?
    ensures Kept(DoAct(s, b, act))
  {
    assert CancelOk(s, b) && PushOk(s, b);
    MoveKept(s, DoAct(s, b, act), b);
  }

  lemma PlaceKept(s: State, b: BuildId, ok: bool)
    requires Kept(s) && At(s, b) && PcOf(s, b).Committing?
    ensures Kept(DoPlaceArtifacts(s, b, ok))
  {
    MoveKept(s, DoPlaceArtifacts(s, b, ok), b);
  }

  lemma PublishKept(s: State, b: BuildId, act: Act)
    requires Kept(s) && At(s, b) && CanAct(s, b, act)
    requires act.TakeShare? || act.NoShare? || act.GoLive?
    ensures Kept(DoAct(s, b, act))
  {
    MoveKept(s, DoAct(s, b, act), b);
  }

  lemma SaveRowKept(s: State, b: BuildId, ok: bool)
    requires Kept(s) && At(s, b) && PcOf(s, b).Installed?
    ensures Kept(DoSaveRow(s, b, ok))
  {
    MoveKept(s, DoSaveRow(s, b, ok), b);
  }

  lemma LateActKept(s: State, b: BuildId, act: Act)
    requires Kept(s) && At(s, b) && CanAct(s, b, act)
    requires act.Release? || act.Settle?
    ensures Kept(DoAct(s, b, act))
  {
    assert CancelOk(s, b) && PushOk(s, b);
    MoveKept(s, DoAct(s, b, act), b);
  }

  lemma RecordKept(s: State, b: BuildId, ok: bool)
    requires Kept(s) && At(s, b) && PcOf(s, b).Recording?
    ensures Kept(DoSaveRecord(s, b, ok))
  {
    assert CancelOk(s, b) && PushOk(s, b);
    MoveKept(s, DoSaveRecord(s, b, ok), b);
  }

  lemma LeavingKept(s: State, b: BuildId, act: Act)
    requires Kept(s) && At(s, b) && CanAct(s, b, act)
    requires act.Withdraw? || act.DeleteRow? || act.Prune?
    ensures Kept(DoAct(s, b, act))
  {
    assert CancelOk(s, b) && PushOk(s, b);
    MoveKept(s, DoAct(s, b, act), b);
  }

  /** Registering overwrites nothing that matters: whatever was registered is older. */
  lemma RegisterKept(s: State, b: BuildId)
    requires Kept(s) && At(s, b) && PcOf(s, b).Claimed?
    ensures Kept(DoRegister(s, b))
  {
    var s' := DoRegister(s, b);
    QueueSide(s, s', b);
    forall c | At(s', c) ensures PushOk(s', c) { assert PushOk(s, c); }
    forall p, c ensures CurrentOk(s', p, c) { assert CurrentOk(s, p, c); }
    forall c ensures CancelOk(s', c) { assert CancelOk(s, c); }
    forall c, e | At(s', c) && At(s', e) ensures PushOrderOk(s', c, e) {
      assert PushOrderOk(s, c, e) && PushOrderOk(s, e, c) && PushOk(s, c) && PushOk(s, e);
    }
    forall p ensures Tracked(s', p) {
      assert Tracked(s, p) && TopOk(s, p, b);
      if p in s.newest && s.newest[p].ClaimedBy? { assert PushOrderOk(s, b, s.newest[p].b); }
    }
  }

  /** A build leaves `running`: if it was still registered it was not superseded. */
  lemma FinishKept(s: State, b: BuildId)
    requires Kept(s) && At(s, b) && PcOf(s, b).Finishing?
    ensures Kept(DoFinish(s, b))
  {
    var s' := DoFinish(s, b);
    assert PushOk(s, b);
    QueueSide(s, s', b);
    forall c | At(s', c) ensures PushOk(s', c) { assert PushOk(s, c); }
    forall p, c ensures CurrentOk(s', p, c) { assert CurrentOk(s, p, c); }
    forall c ensures CancelOk(s', c) { assert CancelOk(s, c); }
    forall c, e | At(s', c) && At(s', e) ensures PushOrderOk(s', c, e) { assert PushOrderOk(s, c, e); }
    forall p ensures Tracked(s', p) { assert Tracked(s, p); }
  }

  lemma CancelContextKept(s: State, b: BuildId)
    requires Kept(s) && At(s, b) && CanAct(s, b, CancelContext)
    ensures Kept(DoAct(s, b, CancelContext))
  {
    var s' := DoAct(s, b, CancelContext);
    QueueSide(s, s', b);
    forall c | At(s', c) ensures PushOk(s', c) { assert PushOk(s, c); }
    forall p, c ensures CurrentOk(s', p, c) { assert CurrentOk(s, p, c); }
    forall c ensures CancelOk(s', c) { assert CancelOk(s, c); }
    forall c, e | At(s', c) && At(s', e) ensures PushOrderOk(s', c, e) { assert PushOrderOk(s, c, e); }
    forall p ensures Tracked(s', p) { assert Tracked(s, p); }
  }

  // ---------------------------------------------------------------------------------------
  // Deliveries, cancellations and teardowns
  // ---------------------------------------------------------------------------------------

  lemma EnqueueKept(s: State, h: HandlerId, p: PreviewId)
    requires Kept(s) && h !in s.handlers
    ensures Kept(DoEnqueue(s, h, p))
  {
    var s' := DoEnqueue(s, h, p);
    forall q ensures QueueOk(s', q) { assert QueueOk(s, q); }
    forall c | At(s', c) ensures PushOk(s', c) { assert PushOk(s, c); }
    forall q, c ensures CurrentOk(s', q, c) { assert CurrentOk(s, q, c); }
    forall c ensures CancelOk(s', c) { assert CancelOk(s, c); }
    forall c, e | At(s', c) && At(s', e) ensures PushOrderOk(s', c, e) { assert PushOrderOk(s, c, e); }
    forall q ensures Tracked(s', q) { assert Tracked(s, q); }
    forall q, c | At(s', c) ensures TopOk(s', q, c) { assert TopOk(s, q, c) && PushOk(s, c); }
    forall k ensures PendingOk(s', k) { assert PendingOk(s, k); }
  }

  lemma ClaimKept(s: State, p: PreviewId)
    requires Kept(s) && p in s.jobs
    requires forall h | h in s.handlers :: s.handlers[h] != p
    requires forall b | At(s, b) :: s.builds[b].preview == p ==> !s.builds[b].pc.Claimed?
    ensures Kept(DoClaim(s, p))
  {
    var s' := DoClaim(s, p);
    assert QueueOk(s, p);
    assert Tracked(s, p);
    forall q ensures QueueOk(s', q) { assert QueueOk(s, q); }
    forall c | At(s', c) ensures PushOk(s', c) { if At(s, c) { assert PushOk(s, c); } else { assert CurrentOk(s, p, c); } }
    forall q, c ensures CurrentOk(s', q, c) { assert CurrentOk(s, q, c); }
    forall c ensures CancelOk(s', c) { assert CancelOk(s, c); }
    forall c, e | At(s', c) && At(s', e) ensures PushOrderOk(s', c, e) {
      if At(s, c) && At(s, e) { assert PushOrderOk(s, c, e); }
      if At(s, c) { assert PushOk(s, c); }
      if At(s, e) { assert PushOk(s, e); }
    }
    forall q ensures Tracked(s', q) { assert Tracked(s, q); }
    forall q, c | At(s', c) ensures TopOk(s', q, c) { if At(s, c) { assert TopOk(s, q, c); } }
    forall k ensures PendingOk(s', k) { assert PendingOk(s, k); }
  }

  /** Clearing `running` behind a newer push: the newest push is still in the queue. */
  lemma ClearKept(s: State, h: HandlerId)
    requires Kept(s) && h in s.handlers
    ensures Kept(DoClear(s, h))
  {
    var s' := DoClear(s, h);
    assert PendingOk(s, h);
    forall q ensures QueueOk(s', q) { assert QueueOk(s, q); }
    forall c | At(s', c) ensures PushOk(s', c) { assert PushOk(s, c); }
    forall q, c ensures CurrentOk(s', q, c) { assert CurrentOk(s, q, c); }
    forall c ensures CancelOk(s', c) { assert CancelOk(s, c) && CurrentOk(s, s.handlers[h], c); }
    forall c, e | At(s', c) && At(s', e) ensures PushOrderOk(s', c, e) { assert PushOrderOk(s, c, e); }
    forall q ensures Tracked(s', q) { assert Tracked(s, q); }
    forall q, c | At(s', c) ensures TopOk(s', q, c) { assert TopOk(s, q, c); }
    forall k ensures PendingOk(s', k) { assert PendingOk(s, k); }
  }

  lemma CancelRunningKept(s: State, p: PreviewId)
    requires Kept(s) && p in s.maps.running
    ensures Kept(DoCancelRunning(s, p))
  {
    var s' := DoCancelRunning(s, p);
    forall q ensures QueueOk(s', q) { assert QueueOk(s, q); }
    forall c | At(s', c) ensures PushOk(s', c) { assert PushOk(s, c); }
    forall q, c ensures CurrentOk(s', q, c) { assert CurrentOk(s, q, c); }
    forall c ensures CancelOk(s', c) { assert CancelOk(s, c); }
    forall c, e | At(s', c) && At(s', e) ensures PushOrderOk(s', c, e) { assert PushOrderOk(s, c, e); }
    forall q ensures Tracked(s', q) { assert Tracked(s, q); }
    forall q, c | At(s', c) ensures TopOk(s', q, c) { assert TopOk(s, q, c); }
    forall k ensures PendingOk(s', k) { assert PendingOk(s, k); }
  }

  lemma DequeueKept(s: State, p: PreviewId)
    requires Kept(s)
    ensures Kept(DoDequeue(s, p))
  {
    var s' := DoDequeue(s, p);
    forall q ensures QueueOk(s', q) { assert QueueOk(s, q); }
    forall c | At(s', c) ensures PushOk(s', c) { assert PushOk(s, c); }
    forall q, c ensures CurrentOk(s', q, c) { assert CurrentOk(s, q, c); }
    forall c ensures CancelOk(s', c) { assert CancelOk(s, c); }
    forall c, e | At(s', c) && At(s', e) ensures PushOrderOk(s', c, e) { assert PushOrderOk(s, c, e); }
    forall q ensures Tracked(s', q) { assert Tracked(s, q); }
    forall q, c | At(s', c) ensures TopOk(s', q, c) { assert TopOk(s, q, c); }
    forall k ensures PendingOk(s', k) { assert PendingOk(s, k); }
  }

  lemma SectionKept(s: State, t: TeardownId)
    requires Kept(s) && Tearing(s, t) && s.teardowns[t].pc.TLocked?
    ensures Kept(DoTeardownSection(s, t))
  {
    var s' := DoTeardownSection(s, t);
    forall q ensures QueueOk(s', q) { assert QueueOk(s, q); }
    forall c | At(s', c) ensures PushOk(s', c) { assert PushOk(s, c); }
    forall q, c ensures CurrentOk(s', q, c) { assert CurrentOk(s, q, c); }
    forall c ensures CancelOk(s', c) { assert CancelOk(s, c) && CurrentOk(s, s.teardowns[t].preview, c); }
    forall c, e | At(s', c) && At(s', e) ensures PushOrderOk(s', c, e) { assert PushOrderOk(s, c, e); }
    forall q ensures Tracked(s', q) { assert Tracked(s, q); }
    forall q, c | At(s', c) ensures TopOk(s', q, c) { assert TopOk(s, q, c); }
    forall k ensures PendingOk(s', k) { assert PendingOk(s, k); }
  }

  /** Steps on what the invariant does not read. */
  lemma UnreadKept(s: State, s': State)
    requires Kept(s)
    requires s'.builds == s.builds && s'.jobs == s.jobs && s'.handlers == s.handlers && s'.newest == s.newest
    requires s'.maps.running == s.maps.running && s'.cancelled == s.cancelled && s'.nextReg == s.nextReg
    requires s'.nextPush == s.nextPush && s'.stopping == s.stopping
    ensures Kept(s')
  {
    forall q ensures QueueOk(s', q) { assert QueueOk(s, q); }
    forall c | At(s', c) ensures PushOk(s', c) { assert PushOk(s, c); }
    forall q, c ensures CurrentOk(s', q, c) { assert CurrentOk(s, q, c); }
    forall c ensures CancelOk(s', c) { assert CancelOk(s, c); }
    forall c, e | At(s', c) && At(s', e) ensures PushOrderOk(s', c, e) { assert PushOrderOk(s, c, e); }
    forall q ensures Tracked(s', q) { assert Tracked(s, q); }
    forall q, c | At(s', c) ensures TopOk(s', q, c) { assert TopOk(s, q, c); }
    forall k ensures PendingOk(s', k) { assert PendingOk(s, k); }
  }

  lemma ActKept(s: State, b: BuildId, act: Act)
    requires Kept(s) && At(s, b) && CanAct(s, b, act)
    ensures Kept(DoAct(s, b, act))
  {
    match act
    case RegisterBuild => RegisterKept(s, b);
    case EndEarly(_) | FetchLock | Acquire | Check(_) => EarlyActKept(s, b, act);
    case PlaceArtifacts(ok) => PlaceKept(s, b, ok);
    case TakeShare(_) | NoShare | GoLive => PublishKept(s, b, act);
    case SaveRow(ok) => SaveRowKept(s, b, ok);
    case Finish => FinishKept(s, b);
    case CancelContext => CancelContextKept(s, b);
    case Withdraw | DeleteRow(_) | Prune(_) => LeavingKept(s, b, act);
    case Release | Settle => LateActKept(s, b, act);
    case SaveRecord(ok) => RecordKept(s, b, ok);
  }

  lemma TearKept(s: State, t: TeardownId, act: TeardownAct)
    requires Kept(s) && Tearing(s, t) && CanTear(s, t, act)
    ensures Kept(DoTear(s, t, act))
  {
    match act
    case TSection => SectionKept(s, t);
    case TDequeue => DequeueKept(s, s.teardowns[t].preview);
    case _ => UnreadKept(s, DoTear(s, t, act));
  }

  lemma StepKept(d: Discipline, s: State, step: Step)
    requires d.atomicEnqueue && d.atomicClaim && d.noShutdown && Kept(s) && Allowed(d, s, step)
    ensures Kept(Apply(s, step))
  {
    match step
    case Enqueue(h, p) => EnqueueKept(s, h, p);
    case Clear(h) => ClearKept(s, h);
    case Claim(p) => ClaimKept(s, p);
    case BuildDoes(b, act) => ActKept(s, b, act);
    case TeardownFetch(p) => UnreadKept(s, Apply(s, step));
    case TeardownDoes(t, act) => TearKept(s, t, act);
    case CancelRunning(p) => CancelRunningKept(s, p);
    case CancelQueued(p) => DequeueKept(s, p);
  }

  lemma InitKept(s: State)
    requires Init(s)
    ensures Kept(s)
  {
    forall p ensures QueueOk(s, p) && Tracked(s, p) {}
    forall p, b ensures CurrentOk(s, p, b) {}
    forall b ensures CancelOk(s, b) {}
    forall h ensures PendingOk(s, h) {}
  }

  lemma {:induction false} RunKept(d: Discipline, run: seq<State>, i: nat)
    requires d.atomicEnqueue && d.atomicClaim && d.noShutdown && IsRun(d, run) && i < |run|
    ensures Kept(run[i])
  {
    if i == 0 {
      InitKept(run[0]);
    } else {
      RunKept(d, run, i - 1);
      assert Moves(d, run, i - 1);
      var step :| Allowed(d, run[i - 1], step) && run[i] == Apply(run[i - 1], step);
      StepKept(d, run[i - 1], step);
    }
  }

  // ---------------------------------------------------------------------------------------
  // Main results
  // ---------------------------------------------------------------------------------------

  /** b is the build of p's push n, and n is queued, about to register, running as the
      current build, or finished with an outcome of its own. */
  ghost predicate Accounted(s: State, p: PreviewId, n: Push) {
    || (p in s.jobs && s.jobs[p] == n)
    || exists b | At(s, b) ::
         && PreviewOf(s, b) == p && s.builds[b].push == n
         && (PcOf(s, b).Claimed? || IsCurrent(s.maps, p, b) || (PcOf(s, b).Done? && PcOf(s, b).out != Superseded))
  }

  /** In every run that keeps the two windows shut, the newest push of a preview that was not
      cancelled or torn down is accounted for. Teardowns may overlap, and rows may race. */
  lemma NewestPushIsNotLost(d: Discipline, run: seq<State>, i: nat, p: PreviewId)
    requires d.atomicEnqueue && d.atomicClaim && d.noShutdown && IsRun(d, run) && i < |run|
    requires p in run[i].newest
    ensures Accounted(run[i], p, run[i].newest[p].push)
  {
    RunKept(d, run, i);
    assert Tracked(run[i], p);
  }

  /** In the same runs builds of one preview register in the order of their pushes. */
  lemma RegistrationFollowsPushes(d: Discipline, run: seq<State>, i: nat, b: BuildId, c: BuildId)
    requires d.atomicEnqueue && d.atomicClaim && d.noShutdown && IsRun(d, run) && i < |run|
    requires At(run[i], b) && At(run[i], c) && PreviewOf(run[i], b) == PreviewOf(run[i], c)
    requires !PcOf(run[i], b).Claimed? && !PcOf(run[i], c).Claimed?
    ensures run[i].builds[b].reg < run[i].builds[c].reg ==> run[i].builds[b].push < run[i].builds[c].push
  {
    RunKept(d, run, i);
    assert PushOrderOk(run[i], c, b);
  }
}
