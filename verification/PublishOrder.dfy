/**
 Publish order: an older build never replaces a newer one.

 Cancellation alone does not give this, because a build that has passed the check of the
 commit phase can no longer be stopped. What gives it is the commit mutex, as long as the
 mutex a build holds past the check is the one in the map. A teardown deletes a mutex from the
 map, so that fact needs it to be the one the teardown holds.
 */
module PublishOrder {
  import opened Protocol

  predicate Holds(pc: BuildPc) { pc.Locked? || PastCheck(pc) || pc.Leaving? }

  predicate THolds(pc: TeardownPc) { pc.TLocked? || pc.TTail? }

  /** Not yet through the check. */
  predicate Early(pc: BuildPc) { pc.Claimed? || pc.Registered? || pc.Waiting? || pc.Locked? }

  /** How many lasting effects a build can have had by pc. */
  function Progress(pc: BuildPc): nat {
    match pc
    case Claimed | Registered | Waiting(_) | Locked(_) | Committing(_) => 0
    case Stored(_) => 1
    case Shared(_, _) => 2
    case Installed(_, _) => 3
    case Finishing(_) | Done(_) => 5
    case _ => 4
  }

  function Rank(k: Kind): nat {
    match k
    case PutArtifacts => 1
    case TookShare => 2
    case WentLive => 3
    case WroteRow => 4
    case RecordedOutcome => 5
  }

  /** Done inside the commit phase. */
  predicate InCommit(k: Kind) { k != RecordedOutcome }

  // ---------------------------------------------------------------------------------------
  // The invariant
  // ---------------------------------------------------------------------------------------

  predicate Owns(s: State, p: PreviewId, m: Mutex) {
    p in s.maps.commit && s.maps.commit[p] == m
  }

  /** A build holds the mutex it says it holds. Past the check that mutex is the one in the
      map, and so is the one a registered build has fetched on its way there. */
  predicate BuildOk(s: State, b: BuildId)
    requires At(s, b)
  {
    var x := s.builds[b];
    && (Holds(x.pc) ==> x.pc.m in s.held && s.held[x.pc.m] == ByBuild(b))
    && (PastCheck(x.pc) ==> x.passed && Owns(s, x.preview, x.pc.m))
    && ((x.pc.Waiting? || x.pc.Locked?) && IsCurrent(s.maps, x.preview, b) ==> Owns(s, x.preview, x.pc.m))
    && (x.passed ==> !Early(x.pc))
    && (!x.pc.Claimed? ==> x.reg < s.nextReg)
  }

  /** A teardown holds the mutex it says it holds. */
  predicate TeardownOk(s: State, t: TeardownId)
    requires Tearing(s, t)
  {
    var x := s.teardowns[t];
    THolds(x.pc) ==> x.pc.m in s.held && s.held[x.pc.m] == ByTeardown(t)
  }

  /** The registered build of a preview is registered, unfinished and newest. */
  predicate RunningOk(s: State, p: PreviewId, b: BuildId)
    requires At(s, b)
  {
    IsCurrent(s.maps, p, b) ==> s.builds[b].preview == p && !s.builds[b].pc.Claimed? && !s.builds[b].pc.Done?
  }

  predicate NewestOk(s: State, b: BuildId, c: BuildId)
    requires At(s, b) && At(s, c)
  {
    var x, y := s.builds[b], s.builds[c];
    !x.pc.Claimed? && !y.pc.Claimed? && b != c ==>
      && x.reg != y.reg
      && (IsCurrent(s.maps, y.preview, b) ==> y.reg < x.reg)
      && (PastCheck(x.pc) && y.passed && x.preview == y.preview ==> y.reg < x.reg)
  }

  predicate EffectOk(s: State, e: Effect) {
    && At(s, e.build)
    && s.builds[e.build].preview == e.preview
    && s.builds[e.build].reg == e.reg
    && !s.builds[e.build].pc.Claimed?
    && (InCommit(e.kind) ==> s.builds[e.build].passed)
    && Rank(e.kind) <= Progress(s.builds[e.build].pc)
  }

  /** e comes strictly before f: an older build, or an earlier effect of the same build. */
  predicate Before(e: Effect, f: Effect) {
    e.reg < f.reg || (e.build == f.build && e.reg == f.reg && Rank(e.kind) < Rank(f.kind))
  }

  ghost predicate Ordered(es: seq<Effect>) {
    forall i, j {:trigger es[i], es[j]} | 0 <= i < j < |es| ::
      es[i].preview == es[j].preview && InCommit(es[i].kind) && InCommit(es[j].kind) ==> Before(es[i], es[j])
  }

  ghost predicate BuildsOk(s: State) { forall b {:trigger BuildOk(s, b)} | At(s, b) :: BuildOk(s, b) }
  ghost predicate TeardownsOk(s: State) { forall t {:trigger TeardownOk(s, t)} | Tearing(s, t) :: TeardownOk(s, t) }
  ghost predicate AllRunning(s: State) {
    && (forall p | p in s.maps.running :: At(s, s.maps.running[p]))
    && (forall p, b {:trigger RunningOk(s, p, b)} | At(s, b) :: RunningOk(s, p, b))
  }
  ghost predicate AllNewest(s: State) {
    forall b, c {:trigger NewestOk(s, b, c)} | At(s, b) && At(s, c) :: NewestOk(s, b, c)
  }
  ghost predicate EffectsOk(s: State) {
    (forall i {:trigger s.effects[i]} | 0 <= i < |s.effects| :: EffectOk(s, s.effects[i])) && Ordered(s.effects)
  }

  ghost predicate Inv(s: State) {
    BuildsOk(s) && TeardownsOk(s) && AllRunning(s) && AllNewest(s) && EffectsOk(s)
  }

  // ---------------------------------------------------------------------------------------
  // Steps that move one build
  // ---------------------------------------------------------------------------------------

  /** Build b moved and nothing else of what the invariant reads got worse: other holdings
      and entries stay, entries of `running` may only go. */
  ghost predicate OneMoved(s: State, s': State, b: BuildId) {
    && At(s, b) && |s'.builds| == |s.builds|
    && (forall c {:trigger s'.builds[c]} | At(s, c) && c != b :: s'.builds[c] == s.builds[c])
    && s'.builds[b].preview == s.builds[b].preview
    && s'.teardowns == s.teardowns
    && s'.nextReg == s.nextReg
    && (forall p | p in s'.maps.running :: p in s.maps.running && s'.maps.running[p] == s.maps.running[p])
    && (forall p | p in s.maps.commit :: p in s'.maps.commit && s'.maps.commit[p] == s.maps.commit[p])
    && (forall m | m in s.held && s.held[m] != ByBuild(b) :: m in s'.held && s'.held[m] == s.held[m])
  }

  /** The move leaves the build's registration alone and does not enter the commit phase. */
  predicate Plain(x: Build, y: Build) {
    && x.reg == y.reg && x.passed == y.passed
    && (PastCheck(y.pc) ==> PastCheck(x.pc))
    && (x.pc.Claimed? <==> y.pc.Claimed?)
    && Progress(x.pc) <= Progress(y.pc)
  }

  lemma MoveKeeps(s: State, s': State, b: BuildId)
    requires Inv(s) && OneMoved(s, s', b) && Plain(s.builds[b], s'.builds[b])
    requires s'.effects == s.effects
    requires BuildOk(s', b)
    requires s'.builds[b].pc.Done? ==> !IsCurrent(s'.maps, s.builds[b].preview, b)
    ensures Inv(s')
  {
    forall c | At(s', c) ensures BuildOk(s', c) { assert BuildOk(s, c); }
    forall t | Tearing(s', t) ensures TeardownOk(s', t) { assert TeardownOk(s, t); }
    forall p, c | At(s', c) ensures RunningOk(s', p, c) { assert RunningOk(s, p, c); }
    forall c, e | At(s', c) && At(s', e) ensures NewestOk(s', c, e) { assert NewestOk(s, c, e); }
    forall i | 0 <= i < |s'.effects| ensures EffectOk(s', s'.effects[i]) { assert EffectOk(s, s.effects[i]); }
  }

  lemma PlainEarly(s: State, b: BuildId, act: Act)
    requires Inv(s) && At(s, b) && CanAct(s, b, act)
    requires act.EndEarly? || act.FetchLock? || act.Acquire?
    ensures Inv(DoAct(s, b, act))
  {
    assert BuildOk(s, b);
    MoveKeeps(s, DoAct(s, b, act), b);
  }

  lemma PlainCommit(s: State, b: BuildId, act: Act)
    requires Inv(s) && At(s, b) && CanAct(s, b, act)
    requires act == PlaceArtifacts(false) || act.NoShare? || act == SaveRow(false)
    ensures Inv(DoAct(s, b, act))
  {
    assert BuildOk(s, b);
    MoveKeeps(s, DoAct(s, b, act), b);
  }

  lemma PlainLeaving(s: State, b: BuildId, act: Act)
    requires Inv(s) && At(s, b) && CanAct(s, b, act)
    requires act.Withdraw? || act.DeleteRow? || act.Prune?
    ensures Inv(DoAct(s, b, act))
  {
    assert BuildOk(s, b);
    MoveKeeps(s, DoAct(s, b, act), b);
  }

  lemma PlainReturn(s: State, b: BuildId, act: Act)
    requires Inv(s) && At(s, b) && CanAct(s, b, act)
    requires act.Release? || act.Settle?
    ensures Inv(DoAct(s, b, act))
  {
    assert BuildOk(s, b);
    MoveKeeps(s, DoAct(s, b, act), b);
  }

  lemma PlainLate(s: State, b: BuildId, act: Act)
    requires Inv(s) && At(s, b) && CanAct(s, b, act)
    requires act.Finish? || (act.SaveRecord? && (!act.ok || PcOf(s, b).blocked))
    ensures Inv(DoAct(s, b, act))
  {
    assert BuildOk(s, b);
    MoveKeeps(s, DoAct(s, b, act), b);
  }

  // ---------------------------------------------------------------------------------------
  // Lasting effects: the new one comes after every earlier one of its preview
  // ---------------------------------------------------------------------------------------

  lemma EffectKeeps(s: State, s': State, b: BuildId, e: Effect)
    requires Inv(s) && OneMoved(s, s', b) && Plain(s.builds[b], s'.builds[b])
    requires PastCheck(s.builds[b].pc) && BuildOk(s', b) && PastCheck(s'.builds[b].pc) && InCommit(e.kind)
    requires e == Effect(e.kind, s.builds[b].preview, b, s.builds[b].reg)
    requires Progress(s.builds[b].pc) < Rank(e.kind) <= Progress(s'.builds[b].pc)
    requires s'.effects == s.effects + [e]
    ensures Inv(s')
  {
    assert BuildOk(s, b);
    MoveKeeps(s, s'.(effects := s.effects), b) by { assert BuildOk(s'.(effects := s.effects), b); }
    forall i | 0 <= i < |s.effects|
      ensures s.effects[i].preview == e.preview && InCommit(s.effects[i].kind) ==> Before(s.effects[i], e)
    {
      assert EffectOk(s, s.effects[i]);
      assert NewestOk(s, b, s.effects[i].build);
    }
    SameView(s'.(effects := s.effects), s');
  }

  /** Recording an outcome adds an effect too, in no order with those of commit phases. */
  lemma RecordKeeps(s: State, b: BuildId)
    requires Inv(s) && At(s, b) && PcOf(s, b).Recording? && !PcOf(s, b).blocked
    ensures Inv(DoSaveRecord(s, b, true))
  {
    var s' := DoSaveRecord(s, b, true);
    assert BuildOk(s, b);
    MoveKeeps(s, s'.(effects := s.effects), b) by { assert BuildOk(s'.(effects := s.effects), b); }
    SameView(s'.(effects := s.effects), s');
  }

  /** Everything the invariant reads of the builds, the teardowns and the maps is the same. */
  lemma SameView(s: State, s': State)
    requires BuildsOk(s) && TeardownsOk(s) && AllRunning(s) && AllNewest(s)
    requires s'.builds == s.builds && s'.teardowns == s.teardowns && s'.held == s.held
    requires s'.maps.running == s.maps.running && s'.maps.commit == s.maps.commit && s'.nextReg == s.nextReg
    ensures BuildsOk(s') && TeardownsOk(s') && AllRunning(s') && AllNewest(s')
  {
    forall c | At(s', c) ensures BuildOk(s', c) { assert BuildOk(s, c); }
    forall t | Tearing(s', t) ensures TeardownOk(s', t) { assert TeardownOk(s, t); }
    forall p, c | At(s', c) ensures RunningOk(s', p, c) { assert RunningOk(s, p, c); }
    forall c, e | At(s', c) && At(s', e) ensures NewestOk(s', c, e) { assert NewestOk(s, c, e); }
  }

  lemma SameEffects(s: State, s': State)
    requires EffectsOk(s) && s'.builds == s.builds && s'.effects == s.effects
    ensures EffectsOk(s')
  {
    forall i | 0 <= i < |s'.effects| ensures EffectOk(s', s'.effects[i]) { assert EffectOk(s, s.effects[i]); }
  }

  lemma EffectActs(s: State, b: BuildId, act: Act)
    requires Inv(s) && At(s, b) && CanAct(s, b, act)
    requires act == PlaceArtifacts(true) || act.TakeShare?
    ensures Inv(DoAct(s, b, act))
  {
    assert BuildOk(s, b);
    var kind := if act.TakeShare? then TookShare else PutArtifacts;
    EffectKeeps(s, DoAct(s, b, act), b, Effect(kind, s.builds[b].preview, b, s.builds[b].reg));
  }

  lemma LastEffectActs(s: State, b: BuildId, act: Act)
    requires Inv(s) && At(s, b) && CanAct(s, b, act)
    requires act.GoLive? || act == SaveRow(true)
    ensures Inv(DoAct(s, b, act))
  {
    assert BuildOk(s, b);
    var kind := if act.GoLive? then WentLive else WroteRow;
    EffectKeeps(s, DoAct(s, b, act), b, Effect(kind, s.builds[b].preview, b, s.builds[b].reg));
  }

  // ---------------------------------------------------------------------------------------
  // The check and registration
  // ---------------------------------------------------------------------------------------

  /** Nobody else of the preview is past the check: they would hold the same mutex. */
  lemma CheckAlone(s: State, b: BuildId, c: BuildId)
    requires Inv(s) && At(s, b) && At(s, c) && b != c
    requires PcOf(s, b).Locked? && IsCurrent(s.maps, PreviewOf(s, b), b)
    requires PreviewOf(s, b) == PreviewOf(s, c)
    ensures !PastCheck(PcOf(s, c))
  {
    assert BuildOk(s, b) && BuildOk(s, c);
  }

  lemma CheckDeclines(s: State, b: BuildId, sawCancel: bool)
    requires Inv(s) && At(s, b) && PcOf(s, b).Locked?
    requires sawCancel || !IsCurrent(s.maps, PreviewOf(s, b), b)
    ensures Inv(DoCheck(s, b, sawCancel))
  {
    assert BuildOk(s, b);
    MoveKeeps(s, DoCheck(s, b, sawCancel), b);
  }

  lemma CheckPasses(s: State, b: BuildId)
    requires Inv(s) && At(s, b) && PcOf(s, b).Locked? && IsCurrent(s.maps, PreviewOf(s, b), b)
    ensures Inv(DoCheck(s, b, false))
  {
    var s' := DoCheck(s, b, false);
    assert BuildOk(s, b);
    forall c | At(s', c) ensures BuildOk(s', c) { assert BuildOk(s, c); }
    forall t | Tearing(s', t) ensures TeardownOk(s', t) { assert TeardownOk(s, t); }
    forall p, c | At(s', c) ensures RunningOk(s', p, c) { assert RunningOk(s, p, c); }
    forall c, e | At(s', c) && At(s', e) ensures NewestOk(s', c, e) {
      assert NewestOk(s, c, e);
      if e == b && c != b && PreviewOf(s, c) == PreviewOf(s, b) { CheckAlone(s, b, c); }
    }
    forall i | 0 <= i < |s'.effects| ensures EffectOk(s', s'.effects[i]) { assert EffectOk(s, s.effects[i]); }
  }

  lemma RegisterKeeps(s: State, b: BuildId)
    requires Inv(s) && At(s, b) && PcOf(s, b).Claimed?
    ensures Inv(DoRegister(s, b))
  {
    var s' := DoRegister(s, b);
    assert BuildOk(s, b);
    forall c | At(s', c) ensures BuildOk(s', c) { assert BuildOk(s, c); }
    forall t | Tearing(s', t) ensures TeardownOk(s', t) { assert TeardownOk(s, t); }
    forall p, c | At(s', c) ensures RunningOk(s', p, c) { assert RunningOk(s, p, c); }
    forall c, e | At(s', c) && At(s', e) ensures NewestOk(s', c, e) {
      assert NewestOk(s, c, e) && BuildOk(s, c) && BuildOk(s, e) && RunningOk(s, PreviewOf(s, e), c);
    }
    forall i | 0 <= i < |s'.effects| ensures EffectOk(s', s'.effects[i]) { assert EffectOk(s, s.effects[i]); }
  }

  lemma ClaimKeeps(s: State, p: PreviewId)
    requires Inv(s) && p in s.jobs
    ensures Inv(DoClaim(s, p))
  {
    var s' := DoClaim(s, p);
    forall c | At(s', c) ensures BuildOk(s', c) { if At(s, c) { assert BuildOk(s, c); } }
    forall t | Tearing(s', t) ensures TeardownOk(s', t) { assert TeardownOk(s, t); }
    forall q, c | At(s', c) ensures RunningOk(s', q, c) { if At(s, c) { assert RunningOk(s, q, c); } }
    forall c, e | At(s', c) && At(s', e) ensures NewestOk(s', c, e) {
      if At(s, c) && At(s, e) { assert NewestOk(s, c, e); }
    }
    forall i | 0 <= i < |s'.effects| ensures EffectOk(s', s'.effects[i]) { assert EffectOk(s, s.effects[i]); }
  }

  /** Clearing the entry of a preview, by a newer push or by the cancel button. */
  lemma AbandonKeeps(s: State, s': State, p: PreviewId)
    requires Inv(s)
    requires s'.builds == s.builds && s'.teardowns == s.teardowns && s'.held == s.held
    requires s'.maps == Abandon(s.maps, p) && s'.nextReg == s.nextReg && s'.effects == s.effects
    ensures Inv(s')
  {
    forall c | At(s', c) ensures BuildOk(s', c) { assert BuildOk(s, c); }
    forall t | Tearing(s', t) ensures TeardownOk(s', t) { assert TeardownOk(s, t); }
    forall q, c | At(s', c) ensures RunningOk(s', q, c) { assert RunningOk(s, q, c); }
    forall c, e | At(s', c) && At(s', e) ensures NewestOk(s', c, e) { assert NewestOk(s, c, e); }
    SameEffects(s, s');
  }

  // ---------------------------------------------------------------------------------------
  // Teardowns
  // ---------------------------------------------------------------------------------------

  lemma FetchKeeps(s: State, p: PreviewId)
    requires Inv(s)
    ensures Inv(DoTeardownFetch(s, p))
  {
    var s' := DoTeardownFetch(s, p);
    forall c | At(s', c) ensures BuildOk(s', c) { assert BuildOk(s, c); }
    forall t | Tearing(s', t) ensures TeardownOk(s', t) { if Tearing(s, t) { assert TeardownOk(s, t); } }
    forall q, c | At(s', c) ensures RunningOk(s', q, c) { assert RunningOk(s, q, c); }
    forall c, e | At(s', c) && At(s', e) ensures NewestOk(s', c, e) { assert NewestOk(s, c, e); }
    SameEffects(s, s');
  }

  /** A teardown takes or gives back its mutex. */
  lemma TeardownMoveKeeps(s: State, t: TeardownId, act: TeardownAct)
    requires Inv(s) && Tearing(s, t) && CanTear(s, t, act) && (act.TAcquire? || act.TRelease?)
    ensures Inv(DoTear(s, t, act))
  {
    var s' := DoTear(s, t, act);
    assert TeardownOk(s, t);
    forall c | At(s', c) ensures BuildOk(s', c) { assert BuildOk(s, c); }
    forall u | Tearing(s', u) ensures TeardownOk(s', u) { assert TeardownOk(s, u); }
    forall q, c | At(s', c) ensures RunningOk(s', q, c) { assert RunningOk(s, q, c); }
    forall c, e | At(s', c) && At(s', e) ensures NewestOk(s', c, e) { assert NewestOk(s, c, e); }
    SameEffects(s, s');
  }

  /** The section deletes the mutex the teardown itself holds, so no build past the check
      loses the one it holds. */
  lemma SectionKeeps(s: State, t: TeardownId)
    requires Inv(s) && Tearing(s, t) && s.teardowns[t].pc.TLocked? && SectionOwns(s, t)
    ensures Inv(DoTeardownSection(s, t))
  {
    var s' := DoTeardownSection(s, t);
    assert TeardownOk(s, t);
    forall c | At(s', c) ensures BuildOk(s', c) { assert BuildOk(s, c); }
    forall u | Tearing(s', u) ensures TeardownOk(s', u) { assert TeardownOk(s, u); }
    forall q, c | At(s', c) ensures RunningOk(s', q, c) { assert RunningOk(s, q, c); }
    forall c, e | At(s', c) && At(s', e) ensures NewestOk(s', c, e) { assert NewestOk(s, c, e); }
    SameEffects(s, s');
  }

  // ---------------------------------------------------------------------------------------
  // Every step, every run
  // ---------------------------------------------------------------------------------------

  lemma ActKeeps(s: State, b: BuildId, act: Act)
    requires Inv(s) && At(s, b) && CanAct(s, b, act)
    ensures Inv(DoAct(s, b, act))
  {
    match act
    case RegisterBuild => RegisterKeeps(s, b);
    case Check(sawCancel) =>
      if sawCancel || !IsCurrent(s.maps, PreviewOf(s, b), b) { CheckDeclines(s, b, sawCancel); }
      else { CheckPasses(s, b); }
    case EndEarly(_) | FetchLock | Acquire => PlainEarly(s, b, act);
    case Release | Settle => PlainReturn(s, b, act);
    case Finish => PlainLate(s, b, act);
    case SaveRecord(ok) => if ok && !PcOf(s, b).blocked { RecordKeeps(s, b); } else { PlainLate(s, b, act); }
    case CancelContext => SameView(s, DoAct(s, b, act)); SameEffects(s, DoAct(s, b, act));
    case TakeShare(_) => EffectActs(s, b, act);
    case GoLive => LastEffectActs(s, b, act);
    case Withdraw | DeleteRow(_) | Prune(_) => PlainLeaving(s, b, act);
    case PlaceArtifacts(ok) => if ok { EffectActs(s, b, act); } else { PlainCommit(s, b, act); }
    case SaveRow(ok) => if ok { LastEffectActs(s, b, act); } else { PlainCommit(s, b, act); }
    case NoShare => PlainCommit(s, b, act);
  }

  lemma TearKeeps(s: State, t: TeardownId, act: TeardownAct)
    requires Inv(s) && Tearing(s, t) && CanTear(s, t, act) && (act.TSection? ==> SectionOwns(s, t))
    ensures Inv(DoTear(s, t, act))
  {
    match act
    case TSection => SectionKeeps(s, t);
    case TAcquire | TRelease => TeardownMoveKeeps(s, t, act);
    case _ => SameView(s, DoTear(s, t, act)); SameEffects(s, DoTear(s, t, act));
  }

  lemma StepKeeps(d: Discipline, s: State, step: Step)
    requires d.ownSection && Inv(s) && Allowed(d, s, step)
    ensures Inv(Apply(s, step))
  {
    match step
    case Clear(h) => AbandonKeeps(s, Apply(s, step), s.handlers[h]);
    case CancelRunning(p) => AbandonKeeps(s, Apply(s, step), p);
    case Claim(p) => ClaimKeeps(s, p);
    case BuildDoes(b, act) => ActKeeps(s, b, act);
    case TeardownFetch(p) => FetchKeeps(s, p);
    case TeardownDoes(t, act) => TearKeeps(s, t, act);
    case _ => SameView(s, Apply(s, step)); SameEffects(s, Apply(s, step));
  }

  lemma {:induction false} RunKeeps(d: Discipline, run: seq<State>, i: nat)
    requires d.ownSection && IsRun(d, run) && i < |run|
    ensures Inv(run[i])
  {
    if i > 0 {
      RunKeeps(d, run, i - 1);
      assert Moves(d, run, i - 1);
      var step :| Allowed(d, run[i - 1], step) && run[i] == Apply(run[i - 1], step);
      StepKeeps(d, run[i - 1], step);
    }
  }

  /** In every run in which no section deletes a mutex its teardown does not hold, at most one build of a preview is inside the commit phase, it holds exactly
      the mutex in the map, and it is newer than every other build that ever got there. */
  lemma CommitPhasesAreDisjoint(d: Discipline, run: seq<State>, i: nat, b: BuildId, c: BuildId)
    requires d.ownSection && IsRun(d, run) && i < |run|
    requires At(run[i], b) && At(run[i], c) && b != c && PreviewOf(run[i], b) == PreviewOf(run[i], c)
    requires PastCheck(PcOf(run[i], b))
    ensures !PastCheck(PcOf(run[i], c))
    ensures Owns(run[i], PreviewOf(run[i], b), PcOf(run[i], b).m)
    ensures run[i].builds[c].passed ==> run[i].builds[c].reg < run[i].builds[b].reg
  {
    RunKeeps(d, run, i);
    assert BuildOk(run[i], b) && BuildOk(run[i], c) && NewestOk(run[i], b, c);
  }

  /** Under the same hypothesis what the commit phases of a preview put in place (artifact
      directories, shares, live publications, ready rows) comes in strictly increasing
      registration order, and that of one build in the order of the commit phase. */
  lemma CommitsFollowRegistration(d: Discipline, run: seq<State>, i: nat, j: nat, k: nat)
    requires d.ownSection && IsRun(d, run) && i < |run|
    requires j < k < |run[i].effects| && run[i].effects[j].preview == run[i].effects[k].preview
    requires InCommit(run[i].effects[j].kind) && InCommit(run[i].effects[k].kind)
    ensures Before(run[i].effects[j], run[i].effects[k])
    ensures run[i].effects[j].kind == run[i].effects[k].kind ==> run[i].effects[j].reg < run[i].effects[k].reg
  {
    RunKeeps(d, run, i);
  }

  /** A build that is registered no longer, and has not passed its check. */
  predicate Stale(s: State, b: BuildId) {
    At(s, b) && !PcOf(s, b).Claimed? && !IsCurrent(s.maps, PreviewOf(s, b), b) && !s.builds[b].passed
  }

  lemma OthersActStale(s: State, c: BuildId, act: Act, b: BuildId)
    requires At(s, c) && CanAct(s, c, act) && Stale(s, b) && c != b
    ensures Stale(DoAct(s, c, act), b)
  {
    var s' := DoAct(s, c, act);
    assert s'.builds[b] == s.builds[b];
    assert !IsCurrent(s'.maps, PreviewOf(s, b), b);
  }

  lemma OwnActStale(s: State, act: Act, b: BuildId)
    requires Inv(s) && At(s, b) && CanAct(s, b, act) && Stale(s, b)
    ensures Stale(DoAct(s, b, act), b)
  {
    assert BuildOk(s, b);
  }

  lemma TearStale(s: State, t: TeardownId, act: TeardownAct, b: BuildId)
    requires Tearing(s, t) && CanTear(s, t, act) && Stale(s, b)
    ensures Stale(DoTear(s, t, act), b)
  {}

  lemma StepStaysStale(d: Discipline, s: State, step: Step, b: BuildId)
    requires Inv(s) && Allowed(d, s, step) && Stale(s, b)
    ensures Stale(Apply(s, step), b)
  {
    match step
    case BuildDoes(c, act) => if c == b { OwnActStale(s, act, b); } else { OthersActStale(s, c, act, b); }
    case TeardownDoes(t, act) => TearStale(s, t, act, b);
    case _ =>
  }

  /** Once cleared from `running` before its check, a build never gets any further in the commit
      phase: nothing in the trace is its doing except, at most, that its failure or its skip is
      recorded. */
  lemma StaleBuildsCommitNothing(d: Discipline, run: seq<State>, i: nat, j: nat, b: BuildId, k: nat)
    requires d.ownSection && IsRun(d, run) && i <= j < |run| && Stale(run[i], b)
    requires k < |run[j].effects|
    ensures Stale(run[j], b)
    ensures run[j].effects[k].build == b ==> run[j].effects[k].kind == RecordedOutcome
  {
    StaysStale(d, run, i, j, b);
    RunKeeps(d, run, j);
    assert EffectOk(run[j], run[j].effects[k]);
  }

  /** Said of the state and not of the trace: whatever such a build does next, publications and
      artifact directories stay as they are, and so do the rows, unless it records its outcome. */
  lemma StaleBuildsChangeNoPublication(d: Discipline, run: seq<State>, i: nat, j: nat, b: BuildId, act: Act)
    requires d.ownSection && IsRun(d, run) && i <= j < |run| && Stale(run[i], b) && At(run[j], b) && CanAct(run[j], b, act)
    ensures var s, s' := run[j], DoAct(run[j], b, act);
            && s'.maps.live == s.maps.live && s'.artifacts == s.artifacts
            && (s'.rows != s.rows ==> act == SaveRecord(true) && !PcOf(s, b).blocked)
  {
    StaysStale(d, run, i, j, b);
    RunKeeps(d, run, j);
    assert BuildOk(run[j], b);
  }

  lemma {:induction false} StaysStale(d: Discipline, run: seq<State>, i: nat, j: nat, b: BuildId)
    requires d.ownSection && IsRun(d, run) && i <= j < |run| && Stale(run[i], b)
    ensures At(run[j], b) && Stale(run[j], b)
  {
    if i < j {
      StaysStale(d, run, i, j - 1, b);
      RunKeeps(d, run, j - 1);
      assert Moves(d, run, j - 1);
      var step :| Allowed(d, run[j - 1], step) && run[j] == Apply(run[j - 1], step);
      StepStaysStale(d, run[j - 1], step, b);
    }
  }
}
