/**
 Live/row agreement: what is served is what is recorded.

 While no commit phase and no teardown of a preview is in progress, a live publication has a
 ready row carrying its URL, and the artifact directory that row names exists. So a restart
 would serve the same thing again, and nothing is served that the next reap would remove.
 */
module Agreement {
  import opened Protocol
  import opened PublishOrder

  /** Has been the entry of `live`, or is past the point where it could become it. */
  predicate Late(pc: BuildPc) {
    pc.Installed? || pc.Unrecorded? || pc.Recorded? || pc.Leaving? || pc.Returned? || pc.Recording?
    || pc.Finishing? || pc.Done?
  }

  /** Between going live and having its row, which is the one window of disagreement. */
  predicate InBetween(pc: BuildPc) { pc.Installed? || pc.Unrecorded? }

  /** The previews whose publication recovery left unrecorded. */
  function Astray(s: State): set<PreviewId> { set p | p in s.maps.live && !Matches(s, p) }

  /** What is live for p is recorded, or about to be. A publication recovery left unrecorded is
      excepted, until the preview is published again. */
  predicate LiveOk(x: set<PreviewId>, s: State, p: PreviewId) {
    p in s.maps.live && (p in x ==> 0 <= s.maps.live[p].build) ==>
      var pub := s.maps.live[p];
      && (p, pub.build) in s.artifacts
      && (0 <= pub.build ==> At(s, pub.build) && PreviewOf(s, pub.build) == p && Late(PcOf(s, pub.build)))
      && (Matches(s, p) || (At(s, pub.build) && InBetween(PcOf(s, pub.build))))
  }

  predicate CommitOk(s: State, b: BuildId)
    requires At(s, b)
  {
    var p, pc := PreviewOf(s, b), PcOf(s, b);
    && (pc.Stored? || pc.Shared? || InBetween(pc) || pc.Recorded? ==> (p, b) in s.artifacts)
    && (pc.Installed? ==> p in s.maps.live && s.maps.live[p] == Publication(pc.url, b))
    && (pc.Unrecorded? || pc.Recorded? ==> p in s.maps.live && s.maps.live[p].build == b)
    && (pc.Withdrawn? ==> p !in s.maps.live)
  }

  /** While a teardown cleans up, its preview has no publication, no registered build and no
      build past the check. */
  predicate TailOk(s: State, t: TeardownId)
    requires Tearing(s, t)
  {
    var p := s.teardowns[t].preview;
    s.teardowns[t].pc.TTail? ==> p !in s.maps.live && p !in s.maps.running
  }

  predicate TailQuiet(s: State, t: TeardownId, b: BuildId)
    requires Tearing(s, t) && At(s, b)
  {
    s.teardowns[t].pc.TTail? && PreviewOf(s, b) == s.teardowns[t].preview ==> !PastCheck(PcOf(s, b))
  }

  ghost predicate Agree(x: set<PreviewId>, s: State) {
    && (forall p {:trigger LiveOk(x, s, p)} :: LiveOk(x, s, p))
    && (forall b {:trigger CommitOk(s, b)} | At(s, b) :: CommitOk(s, b))
    && (forall t {:trigger TailOk(s, t)} | Tearing(s, t) :: TailOk(s, t))
    && (forall t, b {:trigger TailQuiet(s, t, b)} | Tearing(s, t) && At(s, b) :: TailQuiet(s, t, b))
  }

  lemma OneInside(s: State, b: BuildId, c: BuildId)
    requires BuildsOk(s) && At(s, b) && At(s, c) && b != c
    requires PreviewOf(s, b) == PreviewOf(s, c) && PastCheck(PcOf(s, b))
    ensures !PastCheck(PcOf(s, c))
  {
    assert BuildOk(s, b) && BuildOk(s, c);
  }

  // ---------------------------------------------------------------------------------------
  // Acts of a build
  // ---------------------------------------------------------------------------------------

  /** Publications, rows and artifacts are as they were; entries of `running` may only go. */
  ghost predicate Untouched(s: State, s': State) {
    && s'.maps.live == s.maps.live && s'.rows == s.rows && s'.artifacts == s.artifacts
    && (forall p | p in s'.maps.running :: p in s.maps.running)
  }

  /** A build moves without changing anything served or recorded. */
  lemma QuietMove(x: set<PreviewId>, s: State, s': State, b: BuildId)
    requires Agree(x, s) && OnlyActed(s, s', b) && Untouched(s, s')
    requires CommitOk(s', b) && (PastCheck(PcOf(s', b)) ==> PastCheck(PcOf(s, b)))
    requires Late(PcOf(s, b)) ==> Late(PcOf(s', b))
    requires InBetween(PcOf(s, b)) ==> InBetween(PcOf(s', b))
    ensures Agree(x, s')
  {
    forall p ensures LiveOk(x, s', p) { assert LiveOk(x, s, p); }
    forall c | At(s', c) ensures CommitOk(s', c) { assert CommitOk(s, c); }
    forall t | Tearing(s', t) ensures TailOk(s', t) { assert TailOk(s, t); }
    forall t, c | Tearing(s', t) && At(s', c) ensures TailQuiet(s', t, c) { assert TailQuiet(s, t, c); }
  }

  lemma QuietEarly(x: set<PreviewId>, s: State, b: BuildId, act: Act)
    requires Agree(x, s) && At(s, b) && CanAct(s, b, act)
    requires act.EndEarly? || act.FetchLock? || act.Acquire? || act.CancelContext?
             || (act.Check? && (act.sawCancel || !IsCurrent(s.maps, PreviewOf(s, b), b)))
    ensures Agree(x, DoAct(s, b, act))
  {
    assert CommitOk(s, b);
    QuietMove(x, s, DoAct(s, b, act), b);
  }

  lemma QuietLate(x: set<PreviewId>, s: State, b: BuildId, act: Act)
    requires Agree(x, s) && At(s, b) && CanAct(s, b, act)
    requires act.TakeShare? || act.NoShare? || act == SaveRow(false) || act.Release? || act.Settle? || act.Finish?
    ensures Agree(x, DoAct(s, b, act))
  {
    assert CommitOk(s, b);
    QuietMove(x, s, DoAct(s, b, act), b);
  }

  lemma RegisterAgrees(x: set<PreviewId>, s: State, b: BuildId)
    requires Agree(x, s) && At(s, b) && PcOf(s, b).Claimed?
    requires forall t | Tearing(s, t) :: s.teardowns[t].preview == PreviewOf(s, b) ==> !s.teardowns[t].pc.TTail?
    ensures Agree(x, DoRegister(s, b))
  {
    var s' := DoRegister(s, b);
    forall p ensures LiveOk(x, s', p) { assert LiveOk(x, s, p); }
    forall c | At(s', c) ensures CommitOk(s', c) { assert CommitOk(s, c); }
    forall t | Tearing(s', t) ensures TailOk(s', t) { assert TailOk(s, t); }
    forall t, c | Tearing(s', t) && At(s', c) ensures TailQuiet(s', t, c) { assert TailQuiet(s, t, c); }
  }

  lemma CheckAgrees(x: set<PreviewId>, s: State, b: BuildId)
    requires Agree(x, s) && At(s, b) && PcOf(s, b).Locked? && IsCurrent(s.maps, PreviewOf(s, b), b)
    ensures Agree(x, DoCheck(s, b, false))
  {
    var s' := DoCheck(s, b, false);
    forall p ensures LiveOk(x, s', p) { assert LiveOk(x, s, p); }
    forall c | At(s', c) ensures CommitOk(s', c) { assert CommitOk(s, c); }
    forall t | Tearing(s', t) ensures TailOk(s', t) { assert TailOk(s, t); }
    forall t, c | Tearing(s', t) && At(s', c) ensures TailQuiet(s', t, c) {
      assert TailQuiet(s, t, c) && TailOk(s, t);
    }
  }

  lemma PlaceAgrees(x: set<PreviewId>, s: State, b: BuildId, ok: bool)
    requires Agree(x, s) && At(s, b) && PcOf(s, b).Committing?
    ensures Agree(x, DoPlaceArtifacts(s, b, ok))
  {
    var s' := DoPlaceArtifacts(s, b, ok);
    forall p ensures LiveOk(x, s', p) { assert LiveOk(x, s, p); }
    forall c | At(s', c) ensures CommitOk(s', c) { assert CommitOk(s, c); }
    forall t | Tearing(s', t) ensures TailOk(s', t) { assert TailOk(s, t); }
    forall t, c | Tearing(s', t) && At(s', c) ensures TailQuiet(s', t, c) { assert TailQuiet(s, t, c); }
  }

  /** Going live replaces an entry no other build past the check is relying on. */
  lemma GoLiveAgrees(x: set<PreviewId>, s: State, b: BuildId)
    requires BuildsOk(s) && Agree(x, s) && At(s, b) && PcOf(s, b).Shared?
    ensures Agree(x, DoGoLive(s, b))
  {
    var s' := DoGoLive(s, b);
    assert CommitOk(s, b);
    forall p ensures LiveOk(x, s', p) { assert LiveOk(x, s, p); }
    forall c | At(s', c) ensures CommitOk(s', c) {
      assert CommitOk(s, c);
      if c != b && PreviewOf(s, c) == PreviewOf(s, b) { OneInside(s, b, c); }
    }
    forall t | Tearing(s', t) ensures TailOk(s', t) { assert TailOk(s, t) && TailQuiet(s, t, b); }
    forall t, c | Tearing(s', t) && At(s', c) ensures TailQuiet(s', t, c) { assert TailQuiet(s, t, c); }
  }

  lemma SaveRowAgrees(x: set<PreviewId>, s: State, b: BuildId)
    requires BuildsOk(s) && Agree(x, s) && At(s, b) && PcOf(s, b).Installed?
    ensures Agree(x, DoSaveRow(s, b, true))
  {
    var s' := DoSaveRow(s, b, true);
    assert CommitOk(s, b);
    forall p ensures LiveOk(x, s', p) { assert LiveOk(x, s, p); }
    forall c | At(s', c) ensures CommitOk(s', c) { assert CommitOk(s, c); }
    forall t | Tearing(s', t) ensures TailOk(s', t) { assert TailOk(s, t); }
    forall t, c | Tearing(s', t) && At(s', c) ensures TailQuiet(s', t, c) { assert TailQuiet(s, t, c); }
  }

  lemma WithdrawAgrees(x: set<PreviewId>, s: State, b: BuildId)
    requires BuildsOk(s) && Agree(x, s) && At(s, b) && PcOf(s, b).Unrecorded?
    ensures Agree(x, DoWithdraw(s, b))
  {
    var s' := DoWithdraw(s, b);
    assert CommitOk(s, b);
    forall p ensures LiveOk(x, s', p) { assert LiveOk(x, s, p); }
    forall c | At(s', c) ensures CommitOk(s', c) {
      assert CommitOk(s, c);
      if c != b && PreviewOf(s, c) == PreviewOf(s, b) { OneInside(s, b, c); }
    }
    forall t | Tearing(s', t) ensures TailOk(s', t) { assert TailOk(s, t); }
    forall t, c | Tearing(s', t) && At(s', c) ensures TailQuiet(s', t, c) { assert TailQuiet(s, t, c); }
  }

  lemma DeleteRowAgrees(x: set<PreviewId>, s: State, b: BuildId, ok: bool)
    requires Agree(x, s) && At(s, b) && PcOf(s, b).Withdrawn?
    ensures Agree(x, DoDeleteRow(s, b, ok))
  {
    var s' := DoDeleteRow(s, b, ok);
    assert CommitOk(s, b);
    forall p ensures LiveOk(x, s', p) { assert LiveOk(x, s, p); }
    forall c | At(s', c) ensures CommitOk(s', c) { assert CommitOk(s, c); }
    forall t | Tearing(s', t) ensures TailOk(s', t) { assert TailOk(s, t); }
    forall t, c | Tearing(s', t) && At(s', c) ensures TailQuiet(s', t, c) { assert TailQuiet(s, t, c); }
  }

  /** Retention spares the directory the row names: it is the build's own. */
  lemma PruneAgrees(x: set<PreviewId>, s: State, b: BuildId, victims: set<BuildId>)
    requires BuildsOk(s) && Agree(x, s) && At(s, b) && PcOf(s, b).Recorded? && b !in victims
    ensures Agree(x, DoPrune(s, b, victims))
  {
    var s' := DoPrune(s, b, victims);
    assert CommitOk(s, b);
    forall p ensures LiveOk(x, s', p) { assert LiveOk(x, s, p); }
    forall c | At(s', c) ensures CommitOk(s', c) {
      assert CommitOk(s, c);
      if c != b && PreviewOf(s, c) == PreviewOf(s, b) { OneInside(s, b, c); }
    }
    forall t | Tearing(s', t) ensures TailOk(s', t) { assert TailOk(s, t); }
    forall t, c | Tearing(s', t) && At(s', c) ensures TailQuiet(s', t, c) { assert TailQuiet(s, t, c); }
  }

  /** Recording a failure or a skip never replaces the row of a live publication. */
  lemma RecordAgrees(x: set<PreviewId>, s: State, b: BuildId, ok: bool)
    requires Agree(x, s) && At(s, b) && PcOf(s, b).Recording?
    requires PcOf(s, b).blocked || !Blocks(s, PreviewOf(s, b), PcOf(s, b).end)
    ensures Agree(x, DoSaveRecord(s, b, ok))
  {
    var s' := DoSaveRecord(s, b, ok);
    forall p ensures LiveOk(x, s', p) { assert LiveOk(x, s, p); }
    forall c | At(s', c) ensures CommitOk(s', c) { assert CommitOk(s, c); }
    forall t | Tearing(s', t) ensures TailOk(s', t) { assert TailOk(s, t); }
    forall t, c | Tearing(s', t) && At(s', c) ensures TailQuiet(s', t, c) { assert TailQuiet(s, t, c); }
  }

  // ---------------------------------------------------------------------------------------
  // Teardowns, deliveries and cancellations
  // ---------------------------------------------------------------------------------------

  /** The section takes the publication away when no build past the check relies on it: such
      a build would hold the mutex the teardown holds. */
  lemma SectionAgrees(x: set<PreviewId>, s: State, t: TeardownId)
    requires BuildsOk(s) && TeardownsOk(s) && Agree(x, s) && Tearing(s, t) && s.teardowns[t].pc.TLocked? && SectionOwns(s, t)
    ensures Agree(x, DoTeardownSection(s, t))
  {
    var s' := DoTeardownSection(s, t);
    NobodyInside(s, t);
    forall p ensures LiveOk(x, s', p) { assert LiveOk(x, s, p); }
    forall c | At(s', c) ensures CommitOk(s', c) { assert CommitOk(s, c); }
    forall u | Tearing(s', u) ensures TailOk(s', u) { assert TailOk(s, u); }
    forall u, c | Tearing(s', u) && At(s', c) ensures TailQuiet(s', u, c) {
      assert TailQuiet(s, u, c) && PcOf(s', c) == PcOf(s, c) && PreviewOf(s', c) == PreviewOf(s, c);
      if u == t && PreviewOf(s, c) == s.teardowns[t].preview { assert !PastCheck(PcOf(s, c)); }
    }
  }

  lemma NobodyInside(s: State, t: TeardownId)
    requires BuildsOk(s) && TeardownsOk(s) && Tearing(s, t) && s.teardowns[t].pc.TLocked? && SectionOwns(s, t)
    ensures forall c | At(s, c) && PreviewOf(s, c) == s.teardowns[t].preview :: !PastCheck(PcOf(s, c))
  {
    assert TeardownOk(s, t);
    forall c | At(s, c) && PreviewOf(s, c) == s.teardowns[t].preview ensures !PastCheck(PcOf(s, c)) {
      assert BuildOk(s, c);
    }
  }

  lemma CleanUpAgrees(x: set<PreviewId>, s: State, t: TeardownId, act: TeardownAct)
    requires Agree(x, s) && Tearing(s, t) && CanTear(s, t, act) && !act.TSection?
    ensures Agree(x, DoTear(s, t, act))
  {
    var s' := DoTear(s, t, act);
    assert TailOk(s, t);
    forall p ensures LiveOk(x, s', p) { assert LiveOk(x, s, p); }
    forall c | At(s', c) ensures CommitOk(s', c) { assert CommitOk(s, c) && TailQuiet(s, t, c); }
    forall u | Tearing(s', u) ensures TailOk(s', u) { assert TailOk(s, u); }
    forall u, c | Tearing(s', u) && At(s', c) ensures TailQuiet(s', u, c) { assert TailQuiet(s, u, c); }
  }

  /** Steps that add a build or a teardown, or clear entries of `running`. */
  lemma OtherAgrees(x: set<PreviewId>, s: State, step: Step)
    requires Agree(x, s) && Enabled(s, step) && !step.BuildDoes? && !step.TeardownDoes?
    ensures Agree(x, Apply(s, step))
  {
    var s' := Apply(s, step);
    forall p ensures LiveOk(x, s', p) { assert LiveOk(x, s, p); }
    forall c | At(s', c) ensures CommitOk(s', c) { if At(s, c) { assert CommitOk(s, c); } }
    forall t | Tearing(s', t) ensures TailOk(s', t) { if Tearing(s, t) { assert TailOk(s, t); } }
    forall t, c | Tearing(s', t) && At(s', c) ensures TailQuiet(s', t, c) {
      if Tearing(s, t) && At(s, c) { assert TailQuiet(s, t, c); }
    }
  }

  lemma ActAgrees(x: set<PreviewId>, d: Discipline, s: State, b: BuildId, act: Act)
    requires d.quietTail && d.atomicRecord && BuildsOk(s) && Agree(x, s) && Allowed(d, s, BuildDoes(b, act))
    ensures Agree(x, DoAct(s, b, act))
  {
    match act
    case RegisterBuild => RegisterAgrees(x, s, b);
    case Check(sawCancel) =>
      if sawCancel || !IsCurrent(s.maps, PreviewOf(s, b), b) { QuietEarly(x, s, b, act); } else { CheckAgrees(x, s, b); }
    case EndEarly(_) | FetchLock | Acquire | CancelContext => QuietEarly(x, s, b, act);
    case TakeShare(_) | NoShare | Release | Settle | Finish => QuietLate(x, s, b, act);
    case PlaceArtifacts(ok) => PlaceAgrees(x, s, b, ok);
    case GoLive => GoLiveAgrees(x, s, b);
    case SaveRow(ok) => if ok { SaveRowAgrees(x, s, b); } else { QuietLate(x, s, b, act); }
    case Withdraw => WithdrawAgrees(x, s, b);
    case DeleteRow(ok) => DeleteRowAgrees(x, s, b, ok);
    case Prune(victims) => PruneAgrees(x, s, b, victims);
    case SaveRecord(ok) => RecordAgrees(x, s, b, ok);
  }

  lemma StepAgrees(x: set<PreviewId>, d: Discipline, s: State, step: Step)
    requires d.ownSection && d.quietTail && d.atomicRecord
    requires BuildsOk(s) && TeardownsOk(s) && Agree(x, s) && Allowed(d, s, step)
    ensures Agree(x, Apply(s, step))
  {
    match step
    case BuildDoes(b, act) => ActAgrees(x, d, s, b, act);
    case TeardownDoes(t, act) => if act.TSection? { SectionAgrees(x, s, t); } else { CleanUpAgrees(x, s, t, act); }
    case _ => OtherAgrees(x, s, step);
  }

  lemma {:induction false} RunAgrees(d: Discipline, run: seq<State>, i: nat)
    requires d.ownSection && d.quietTail && d.atomicRecord && IsRun(d, run) && i < |run|
    ensures Inv(run[i]) && Agree(Astray(run[0]), run[i])
  {
    RunKeeps(d, run, i);
    if i == 0 {
      forall p ensures LiveOk(Astray(run[0]), run[0], p) {}
    } else {
      RunAgrees(d, run, i - 1);
      assert Moves(d, run, i - 1);
      var step :| Allowed(d, run[i - 1], step) && run[i] == Apply(run[i - 1], step);
      StepAgrees(Astray(run[0]), d, run[i - 1], step);
    }
  }

  // ---------------------------------------------------------------------------------------
  // Main results
  // ---------------------------------------------------------------------------------------

  /** In every disciplined run, whenever no commit phase of p is in progress, whatever is live for
      p is recorded: a ready row with its URL, whose artifact directory exists. Only a publication
      that recovery had left unrecorded may still be so. */
  lemma LiveIsRecorded(d: Discipline, run: seq<State>, i: nat, p: PreviewId)
    requires d.ownSection && d.quietTail && d.atomicRecord && IsRun(d, run) && i < |run|
    requires Calm(run[i], p) && p in run[i].maps.live
    requires p in Astray(run[0]) ==> 0 <= run[i].maps.live[p].build
    ensures Matches(run[i], p)
  {
    RunAgrees(d, run, i);
    assert LiveOk(Astray(run[0]), run[i], p);
  }

  /** A save that fails ends with neither a publication nor a row, when the row can be deleted. */
  lemma FailedSaveLeavesNothing(d: Discipline, run: seq<State>, i: nat, b: BuildId)
    requires d.ownSection && d.quietTail && d.atomicRecord && IsRun(d, run) && i < |run|
    requires At(run[i], b) && PcOf(run[i], b).Withdrawn?
    ensures PreviewOf(run[i], b) !in DoDeleteRow(run[i], b, true).maps.live
    ensures PreviewOf(run[i], b) !in DoDeleteRow(run[i], b, true).rows
  {
    RunAgrees(d, run, i);
    assert CommitOk(run[i], b);
  }

  /** From a teardown's section until it returns nothing of the preview is live, registered
      or inside a commit phase. */
  lemma TeardownLeavesNothingLive(d: Discipline, run: seq<State>, i: nat, t: TeardownId)
    requires d.ownSection && d.quietTail && d.atomicRecord && IsRun(d, run) && i < |run|
    requires Tearing(run[i], t) && run[i].teardowns[t].pc.TTail?
    ensures run[i].teardowns[t].preview !in run[i].maps.live
    ensures run[i].teardowns[t].preview !in run[i].maps.running
    ensures Calm(run[i], run[i].teardowns[t].preview)
  {
    RunAgrees(d, run, i);
    assert TailOk(run[i], t);
    forall b | At(run[i], b) ensures TailQuiet(run[i], t, b) {}
  }
}
