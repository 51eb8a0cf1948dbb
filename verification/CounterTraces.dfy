/**
 What each hypothesis is for. Every main lemma here drops exactly one hypothesis of the full
 discipline and gives a run of the code, step by step as coded, in which a result fails.
 */
module CounterTraces {
  import opened Protocol
  import opened PublishOrder
  import opened Agreement
  import opened NoLostPush
  import opened NewestIsServed

  /** A daemon with nothing published and nothing queued. */
  const START: State := State(Maps(map[], map[], map[], 0), map[], [], [], map[], map[], {}, false, map[], {}, 0, 0, map[], [])

  function Last(run: seq<State>): State requires |run| > 0 { run[|run| - 1] }

  lemma Extend(d: Discipline, run: seq<State>, step: Step) returns (longer: seq<State>)
    requires Follows(d, run) && Allowed(d, Last(run), step)
    ensures Follows(d, longer) && longer[0] == run[0] && Last(longer) == Apply(Last(run), step)
    ensures run <= longer
  {
    longer := run + [Apply(Last(run), step)];
    forall i: nat | i + 1 < |longer| ensures Moves(d, longer, i) {
      if i + 1 < |run| {
        assert Moves(d, run, i);
        assert longer[i] == run[i] && longer[i + 1] == run[i + 1];
      } else {
        assert longer[i] == Last(run);
      }
    }
  }

  // ---------------------------------------------------------------------------------------
  // Stretches of a run
  // ---------------------------------------------------------------------------------------

  /** No delivery under way and nothing queued or claimed for p. */
  ghost predicate Idle(s: State, p: PreviewId) {
    && (forall h :: h !in s.handlers) && p !in s.jobs
    && (forall b | At(s, b) :: s.builds[b].preview == p ==> !s.builds[b].pc.Claimed?)
  }

  /** A push is delivered and claimed: a new build, not registered yet. */
  ghost function Delivered(s: State, p: PreviewId): (n: State)
    requires forall h :: h !in s.handlers
    ensures n.builds == s.builds + [Build(p, s.nextPush, Claimed, 0, false)]
    ensures n.teardowns == s.teardowns && n.held == s.held && n.nextReg == s.nextReg && n.nextPush == s.nextPush + 1
    ensures n.maps == Abandon(s.maps, p)
    ensures (forall h :: h !in n.handlers) && p !in n.jobs
    ensures p in n.newest && n.newest[p] == ClaimedBy(s.nextPush, |s.builds|)
    ensures n.stopping == s.stopping && n.rows == s.rows && n.artifacts == s.artifacts && n.effects == s.effects
    ensures n.cancelled == CancelledWith(s, p)
  {
    DoClaim(DoClear(DoEnqueue(s, 0, p), 0), p)
  }

  lemma Deliver(d: Discipline, run: seq<State>, p: PreviewId) returns (longer: seq<State>)
    requires Follows(d, run) && (forall h :: h !in Last(run).handlers)
    requires d.atomicClaim ==> Idle(Last(run), p)
    ensures Follows(d, longer) && longer[0] == run[0] && Last(longer) == Delivered(Last(run), p)
  {
    longer := Extend(d, run, Enqueue(0, p));
    longer := Extend(d, longer, Clear(0));
    longer := Extend(d, longer, Claim(p));
  }

  /** A claimed build registers and fetches its mutex. */
  ghost function Waited(s: State, b: BuildId): (n: State)
    requires At(s, b) && PcOf(s, b).Claimed?
    ensures var p, m := PreviewOf(s, b), LockOf(s.maps, PreviewOf(s, b));
            && n.builds == s.builds[b := Build(p, s.builds[b].push, Waiting(m), s.nextReg, s.builds[b].passed)]
            && n.maps == WithLock(Register(s.maps, p, b), p)
    ensures n.held == s.held && n.teardowns == s.teardowns && n.nextReg == s.nextReg + 1 && n.nextPush == s.nextPush
    ensures n.handlers == s.handlers && n.jobs == s.jobs && n.newest == s.newest && n.stopping == s.stopping
    ensures n.rows == s.rows && n.artifacts == s.artifacts && n.effects == s.effects
    ensures n.cancelled == s.cancelled
  {
    DoFetchLock(DoRegister(s, b), b)
  }

  /** No teardown of p is past its section, so a build may register. */
  ghost predicate Quiet(s: State, p: PreviewId) {
    forall t | Tearing(s, t) :: s.teardowns[t].preview == p ==> !s.teardowns[t].pc.TTail?
  }

  lemma Wait(d: Discipline, run: seq<State>, b: BuildId) returns (longer: seq<State>)
    requires Follows(d, run) && At(Last(run), b) && PcOf(Last(run), b).Claimed?
    requires d.quietTail ==> Quiet(Last(run), PreviewOf(Last(run), b))
    ensures Follows(d, longer) && longer[0] == run[0] && Last(longer) == Waited(Last(run), b)
  {
    longer := Extend(d, run, BuildDoes(b, RegisterBuild));
    longer := Extend(d, longer, BuildDoes(b, FetchLock));
  }

  /** It gets the mutex and goes through the check. */
  ghost function Entered(s: State, b: BuildId): (n: State)
    requires At(s, b) && PcOf(s, b).Waiting?
    ensures var pc := if IsCurrent(s.maps, PreviewOf(s, b), b) then Committing(PcOf(s, b).m)
                      else Leaving(PcOf(s, b).m, Superseded);
            n.builds == s.builds[b := s.builds[b].(pc := pc, passed := s.builds[b].passed || pc.Committing?)]
    ensures n.held == s.held[PcOf(s, b).m := ByBuild(b)]
    ensures n.maps == s.maps && n.teardowns == s.teardowns && n.nextReg == s.nextReg && n.nextPush == s.nextPush
    ensures n.handlers == s.handlers && n.jobs == s.jobs && n.newest == s.newest && n.stopping == s.stopping
    ensures n.rows == s.rows && n.artifacts == s.artifacts && n.effects == s.effects
    ensures n.cancelled == s.cancelled
  {
    DoCheck(DoAcquire(s, b), b, false)
  }

  lemma Enter(d: Discipline, run: seq<State>, b: BuildId) returns (longer: seq<State>)
    requires Follows(d, run) && At(Last(run), b) && PcOf(Last(run), b).Waiting?
    requires PcOf(Last(run), b).m !in Last(run).held
    ensures Follows(d, longer) && longer[0] == run[0] && Last(longer) == Entered(Last(run), b)
  {
    longer := Extend(d, run, BuildDoes(b, Acquire));
    longer := Extend(d, longer, BuildDoes(b, Check(false)));
  }

  /** It puts its artifacts in place and takes the public name. */
  ghost function SharedAs(s: State, b: BuildId, url: string): (n: State)
    requires At(s, b) && PcOf(s, b).Committing?
    ensures n.builds == s.builds[b := s.builds[b].(pc := Shared(PcOf(s, b).m, url))]
    ensures n.maps == s.maps && n.held == s.held && n.teardowns == s.teardowns && n.nextReg == s.nextReg
    ensures n.handlers == s.handlers && n.jobs == s.jobs && n.newest == s.newest && n.stopping == s.stopping
    ensures n.nextPush == s.nextPush && n.rows == s.rows && n.artifacts == s.artifacts + {(PreviewOf(s, b), b)}
    ensures n.cancelled == s.cancelled
  {
    DoTakeShare(DoPlaceArtifacts(s, b, true), b, url)
  }

  lemma Share(d: Discipline, run: seq<State>, b: BuildId, url: string) returns (longer: seq<State>)
    requires Follows(d, run) && At(Last(run), b) && PcOf(Last(run), b).Committing?
    ensures Follows(d, longer) && longer[0] == run[0] && Last(longer) == SharedAs(Last(run), b, url)
  {
    longer := Extend(d, run, BuildDoes(b, PlaceArtifacts(true)));
    longer := Extend(d, longer, BuildDoes(b, TakeShare(url)));
  }

  /** It goes live, saves its row, prunes nothing and leaves its commit phase. */
  ghost function PublishedAs(s: State, b: BuildId): (n: State)
    requires At(s, b) && PcOf(s, b).Shared?
    ensures var p, pc := PreviewOf(s, b), PcOf(s, b);
            && n.builds == s.builds[b := s.builds[b].(pc := Returned(Ready))]
            && n.maps == PutLive(s.maps, p, Publication(pc.url, b))
            && n.held == s.held - {pc.m}
            && n.rows == s.rows[p := Row(RowReady, pc.url, b)]
    ensures n.teardowns == s.teardowns && n.artifacts == s.artifacts && n.nextReg == s.nextReg
    ensures n.handlers == s.handlers && n.jobs == s.jobs && n.newest == s.newest && n.stopping == s.stopping
    ensures n.nextPush == s.nextPush
    ensures n.cancelled == s.cancelled
  {
    DoRelease(DoPrune(DoSaveRow(DoGoLive(s, b), b, true), b, {}), b)
  }

  lemma Publish(d: Discipline, run: seq<State>, b: BuildId) returns (longer: seq<State>)
    requires Follows(d, run) && At(Last(run), b) && PcOf(Last(run), b).Shared?
    ensures Follows(d, longer) && longer[0] == run[0] && Last(longer) == PublishedAs(Last(run), b)
  {
    longer := Extend(d, run, BuildDoes(b, GoLive));
    longer := Extend(d, longer, BuildDoes(b, SaveRow(true)));
    longer := Extend(d, longer, BuildDoes(b, Prune({})));
    longer := Extend(d, longer, BuildDoes(b, Release));
  }

  /** A teardown fetches the mutex, takes it and runs its section. */
  ghost function SectionOf(s: State, t: TeardownId): (n: State)
    requires Tearing(s, t) && s.teardowns[t].pc.TWaiting?
    ensures n.teardowns == s.teardowns[t := s.teardowns[t].(pc := TTail(s.teardowns[t].pc.m))]
    ensures n.maps == TearDown(s.maps, s.teardowns[t].preview)
    ensures n.held == s.held[s.teardowns[t].pc.m := ByTeardown(t)]
    ensures n.builds == s.builds && n.nextReg == s.nextReg && n.nextPush == s.nextPush
    ensures n.handlers == s.handlers && n.jobs == s.jobs && n.stopping == s.stopping
    ensures n.rows == s.rows && n.artifacts == s.artifacts && n.effects == s.effects
    ensures n.newest == s.newest - {s.teardowns[t].preview}
  {
    DoTeardownSection(DoTeardownAcquire(s, t), t)
  }

  lemma RunSection(d: Discipline, run: seq<State>, t: TeardownId) returns (longer: seq<State>)
    requires Follows(d, run) && Tearing(Last(run), t) && Last(run).teardowns[t].pc.TWaiting?
    requires Last(run).teardowns[t].pc.m !in Last(run).held
    requires d.ownSection ==> var p := Last(run).teardowns[t].preview;
               p in Last(run).maps.commit ==> Last(run).maps.commit[p] == Last(run).teardowns[t].pc.m
    ensures Follows(d, longer) && longer[0] == run[0] && Last(longer) == SectionOf(Last(run), t)
  {
    longer := Extend(d, run, TeardownDoes(t, TAcquire));
    longer := Extend(d, longer, TeardownDoes(t, TSection));
  }

  // ---------------------------------------------------------------------------------------
  // Overlapping teardowns
  // ---------------------------------------------------------------------------------------

  /** Two teardowns of p have fetched the same mutex; the first has finished. */
  lemma TwoTeardowns(d: Discipline, p: PreviewId) returns (run: seq<State>)
    requires !d.ownSection
    ensures Follows(d, run) && run[0] == START
    ensures var s := Last(run);
            && s.teardowns == [Teardown(p, TDone), Teardown(p, TWaiting(0))]
            && s.builds == [] && s.maps == Maps(map[], map[], map[], 1) && s.held == map[]
            && s.nextReg == 0 && s.nextPush == 0 && s.jobs == map[] && s.handlers == map[] && !s.stopping
  {
    run := [START];
    run := Extend(d, run, TeardownFetch(p));
    run := Extend(d, run, TeardownFetch(p));
    run := RunSection(d, run, 0);
    run := Extend(d, run, TeardownDoes(0, TRelease));
    assert Last(run).maps.commit == map[] && Last(run).held == map[];
  }

  /** Nothing is queued, claimed or being delivered, and the daemon is not stopping. */
  ghost predicate AtRest(s: State, p: PreviewId) {
    p !in s.jobs && (forall h :: h !in s.handlers) && !s.stopping
  }

  /** A build waits on a fresh mutex while the second teardown still waits on the old one. */
  lemma FreshMutex(d: Discipline, p: PreviewId) returns (run: seq<State>)
    requires !d.ownSection
    ensures Follows(d, run) && run[0] == START
    ensures var s := Last(run);
            && AtRest(s, p) && s.teardowns == [Teardown(p, TDone), Teardown(p, TWaiting(0))]
            && s.builds == [Build(p, 0, Waiting(1), 0, false)] && s.held == map[]
            && IsCurrent(s.maps, p, 0) && Owns(s, p, 1) && s.maps.nextMutex == 2
            && s.nextReg == 1 && s.nextPush == 1
  {
    run := TwoTeardowns(d, p);
    run := Deliver(d, run, p);
    run := Wait(d, run, 0);
  }

  /** It gets past its check. */
  lemma PastTheCheck(d: Discipline, p: PreviewId) returns (run: seq<State>)
    requires !d.ownSection
    ensures Follows(d, run) && run[0] == START
    ensures var s := Last(run);
            && AtRest(s, p) && s.teardowns == [Teardown(p, TDone), Teardown(p, TWaiting(0))]
            && s.builds == [Build(p, 0, Shared(1, "old"), 0, true)] && s.held == map[1 := ByBuild(0)]
            && s.maps.nextMutex == 2 && s.nextReg == 1 && s.nextPush == 1
  {
    run := FreshMutex(d, p);
    run := Enter(d, run, 0);
    run := Share(d, run, 0, "old");
  }

  /** The second teardown then deletes the mutex this build holds, while holding another. */
  lemma MutexIsDropped(d: Discipline, p: PreviewId) returns (run: seq<State>)
    requires !d.ownSection
    ensures Follows(d, run) && run[0] == START
    ensures var s := Last(run);
            && AtRest(s, p) && s.teardowns == [Teardown(p, TDone), Teardown(p, TDone)]
            && s.builds == [Build(p, 0, Shared(1, "old"), 0, true)] && s.held == map[1 := ByBuild(0)]
            && p !in s.maps.commit && s.maps.nextMutex == 2 && s.nextReg == 1 && s.nextPush == 1
  {
    run := PastTheCheck(d, p);
    run := RunSection(d, run, 1);
    run := Extend(d, run, TeardownDoes(1, TRelease));
    assert Last(run).held == map[1 := ByBuild(0)];
  }

  /** So a newer build gets a mutex of its own and waits on that. */
  lemma NewerGetsItsOwn(d: Discipline, p: PreviewId) returns (run: seq<State>)
    requires !d.ownSection
    ensures Follows(d, run) && run[0] == START
    ensures var s := Last(run);
            && s.builds == [Build(p, 0, Shared(1, "old"), 0, true), Build(p, 1, Waiting(2), 1, false)]
            && s.held == map[1 := ByBuild(0)] && IsCurrent(s.maps, p, 1)
            && p in s.newest && s.newest[p].push == 1
  {
    run := MutexIsDropped(d, p);
    run := Deliver(d, run, p);
    run := Wait(d, run, 1);
  }

  /** Both are past their checks at once. */
  lemma BothPastTheCheck(d: Discipline, p: PreviewId) returns (run: seq<State>)
    requires !d.ownSection
    ensures Follows(d, run) && run[0] == START
    ensures var s := Last(run);
            && s.builds == [Build(p, 0, Shared(1, "old"), 0, true), Build(p, 1, Shared(2, "new"), 1, true)]
            && p in s.newest && s.newest[p].push == 1
  {
    run := NewerGetsItsOwn(d, p);
    run := Enter(d, run, 1);
    run := Share(d, run, 1, "new");
  }

  /** Without ownSection: the newer build publishes first and the older one replaces it. */
  lemma OlderReplacesNewer(p: PreviewId) returns (run: seq<State>)
    ensures IsRun(FULL.(ownSection := false), run)
    ensures var s := Last(run);
            && At(s, 0) && At(s, 1) && s.builds[0].reg < s.builds[1].reg
            && PcOf(s, 1) == Returned(Ready) && p in s.newest && s.newest[p].push == s.builds[1].push
            && ServedBy(s, p, 0)
  {
    var d := FULL.(ownSection := false);
    run := BothPastTheCheck(d, p);
    run := Publish(d, run, 1);
    run := Extend(d, run, BuildDoes(0, GoLive));
  }

  // ---------------------------------------------------------------------------------------
  // A build that registers while a teardown cleans up
  // ---------------------------------------------------------------------------------------

  lemma LateBuildWaits(d: Discipline, p: PreviewId) returns (run: seq<State>)
    requires !d.quietTail
    ensures Follows(d, run) && run[0] == START
    ensures var s := Last(run);
            && s.teardowns == [Teardown(p, TTail(0))] && s.held == map[0 := ByTeardown(0)]
            && s.builds == [Build(p, 0, Waiting(1), 0, false)] && IsCurrent(s.maps, p, 0)
  {
    run := [START];
    run := Extend(d, run, TeardownFetch(p));
    run := RunSection(d, run, 0);
    run := Deliver(d, run, p);
    run := Wait(d, run, 0);
  }

  lemma LateBuildShares(d: Discipline, p: PreviewId) returns (run: seq<State>)
    requires !d.quietTail
    ensures Follows(d, run) && run[0] == START
    ensures var s := Last(run);
            && s.teardowns == [Teardown(p, TTail(0))]
            && s.builds == [Build(p, 0, Shared(1, "late"), 0, true)]
  {
    run := LateBuildWaits(d, p);
    run := Enter(d, run, 0);
    run := Share(d, run, 0, "late");
  }

  /** Without quietTail: a build registered after the section gets a fresh mutex, publishes
      before the teardown returns, and then loses its row and its files to it. */
  lemma TeardownTakesARecordedPreview(p: PreviewId) returns (run: seq<State>)
    ensures IsRun(FULL.(quietTail := false), run)
    ensures var s := Last(run);
            && p in s.maps.live && Calm(s, p)
            && p !in s.rows && (p, s.maps.live[p].build) !in s.artifacts && !Matches(s, p)
  {
    var d := FULL.(quietTail := false);
    run := LateBuildShares(d, p);
    run := Publish(d, run, 0);
    run := Extend(d, run, TeardownDoes(0, TRemove));
    run := Extend(d, run, TeardownDoes(0, TDeleteRow));
  }

  // ---------------------------------------------------------------------------------------
  // A failure recorded over a preview that went live in between
  // ---------------------------------------------------------------------------------------

  lemma BuildRegisters(d: Discipline, p: PreviewId) returns (run: seq<State>)
    ensures Follows(d, run) && run[0] == START
    ensures var s := Last(run);
            && AtRest(s, p) && s.builds == [Build(p, 0, Registered, 0, false)]
            && s.rows == map[] && s.teardowns == [] && s.held == map[] && p !in s.maps.commit && s.maps.nextMutex == 0
            && IsCurrent(s.maps, p, 0) && s.cancelled == {} && s.effects == []
            && s.nextReg == 1 && s.nextPush == 1 && p in s.newest && s.newest[p].push == 0
  {
    run := [START];
    run := Deliver(d, run, p);
    assert Last(run).cancelled == {};
    run := Extend(d, run, BuildDoes(0, RegisterBuild));
  }

  lemma FailureListsNoRow(d: Discipline, p: PreviewId) returns (run: seq<State>)
    ensures Follows(d, run) && run[0] == START
    ensures var s := Last(run);
            && AtRest(s, p) && s.builds == [Build(p, 0, Recording(Failed, false), 0, false)]
            && s.held == map[] && p !in s.maps.commit && s.maps.nextMutex == 0 && s.teardowns == []
            && s.nextReg == 1 && s.nextPush == 1
  {
    run := BuildRegisters(d, p);
    run := Extend(d, run, BuildDoes(0, EndEarly(Failed)));
    run := Extend(d, run, BuildDoes(0, Settle));
  }

  lemma AnotherBuildWaits(d: Discipline, p: PreviewId) returns (run: seq<State>)
    ensures Follows(d, run) && run[0] == START
    ensures var s := Last(run);
            && s.builds == [Build(p, 0, Recording(Failed, false), 0, false), Build(p, 1, Waiting(0), 1, false)]
            && s.held == map[] && IsCurrent(s.maps, p, 1)
  {
    run := FailureListsNoRow(d, p);
    run := Deliver(d, run, p);
    run := Wait(d, run, 1);
  }

  lemma AnotherBuildShares(d: Discipline, p: PreviewId) returns (run: seq<State>)
    ensures Follows(d, run) && run[0] == START
    ensures var s := Last(run);
            s.builds == [Build(p, 0, Recording(Failed, false), 0, false), Build(p, 1, Shared(0, "new"), 1, true)]
  {
    run := AnotherBuildWaits(d, p);
    run := Enter(d, run, 1);
    run := Share(d, run, 1, "new");
  }

  lemma AnotherBuildIsReady(d: Discipline, p: PreviewId) returns (run: seq<State>)
    ensures Follows(d, run) && run[0] == START
    ensures var s := Last(run);
            && s.builds == [Build(p, 0, Recording(Failed, false), 0, false), Build(p, 1, Returned(Ready), 1, true)]
            && p in s.maps.live && p in s.rows && s.rows[p].state == RowReady
  {
    run := AnotherBuildShares(d, p);
    run := Publish(d, run, 1);
  }

  /** Without atomicRecord: the row of a live publication is overwritten as failed. */
  lemma FailureOverwritesReady(p: PreviewId) returns (run: seq<State>)
    ensures IsRun(FULL.(atomicRecord := false), run)
    ensures var s := Last(run);
            && p in s.maps.live && Calm(s, p)
            && p in s.rows && s.rows[p].state == RowFailed && s.rows[p].url == "" && !Matches(s, p)
  {
    var d := FULL.(atomicRecord := false);
    run := AnotherBuildIsReady(d, p);
    run := Extend(d, run, BuildDoes(0, SaveRecord(true)));
  }

  // ---------------------------------------------------------------------------------------
  // Lost pushes
  // ---------------------------------------------------------------------------------------

  /** A superseded build leaves without a trace. */
  lemma Leave(d: Discipline, run: seq<State>, b: BuildId) returns (longer: seq<State>)
    requires Follows(d, run) && At(Last(run), b)
    requires PcOf(Last(run), b).Leaving? && PcOf(Last(run), b).out == Superseded
    ensures Follows(d, longer) && longer[0] == run[0]
    ensures Last(longer).builds == Last(run).builds[b := Last(run).builds[b].(pc := Done(Superseded))]
    ensures Last(longer).jobs == Last(run).jobs && Last(longer).newest == Last(run).newest
    ensures Last(longer).maps == Deregister(Last(run).maps, PreviewOf(Last(run), b), b)
  {
    longer := Extend(d, run, BuildDoes(b, Release));
    longer := Extend(d, longer, BuildDoes(b, Settle));
    longer := Extend(d, longer, BuildDoes(b, Finish));
  }

  lemma ClearedByItsOwnDelivery(d: Discipline, p: PreviewId) returns (run: seq<State>)
    requires !d.atomicEnqueue
    ensures Follows(d, run) && run[0] == START
    ensures var s := Last(run);
            && s.builds == [Build(p, 0, Registered, 0, false)] && p !in s.jobs && p !in s.maps.running
            && s.held == map[] && p in s.newest && s.newest[p].push == 0
  {
    run := [START];
    run := Extend(d, run, Enqueue(0, p));
    run := Extend(d, run, Claim(p));
    run := Extend(d, run, BuildDoes(0, RegisterBuild));
    run := Extend(d, run, Clear(0));
  }

  /** Without atomicEnqueue: a worker claims and registers the new push before its delivery
      clears `running`, so the delivery clears the very build it asked for. */
  lemma ReplacementIsCleared(p: PreviewId) returns (run: seq<State>)
    ensures IsRun(FULL.(atomicEnqueue := false), run)
    ensures p in Last(run).newest && !Accounted(Last(run), p, Last(run).newest[p].push)
  {
    var d := FULL.(atomicEnqueue := false);
    run := ClearedByItsOwnDelivery(d, p);
    run := Extend(d, run, BuildDoes(0, FetchLock));
    run := Enter(d, run, 0);
    run := Leave(d, run, 0);
  }

  lemma OlderRegistersLast(d: Discipline, p: PreviewId) returns (run: seq<State>)
    requires !d.atomicClaim
    ensures Follows(d, run) && run[0] == START
    ensures var s := Last(run);
            && s.builds == [Build(p, 0, Waiting(0), 1, false), Build(p, 1, Waiting(0), 0, false)]
            && p !in s.jobs && IsCurrent(s.maps, p, 0) && s.held == map[]
            && p in s.newest && s.newest[p].push == 1
  {
    run := [START];
    run := Deliver(d, run, p);
    run := Deliver(d, run, p);
    run := Wait(d, run, 1);
    run := Wait(d, run, 0);
  }

  /** Without atomicClaim: two workers claim two pushes and register in the other order, so
      the newer push is discarded and the older one keeps the preview. */
  lemma OlderClaimWins(p: PreviewId) returns (run: seq<State>)
    ensures IsRun(FULL.(atomicClaim := false), run)
    ensures p in Last(run).newest && !Accounted(Last(run), p, Last(run).newest[p].push)
    ensures At(Last(run), 0) && PcOf(Last(run), 0).Waiting? && IsCurrent(Last(run).maps, p, 0)
  {
    var d := FULL.(atomicClaim := false);
    run := OlderRegistersLast(d, p);
    run := Enter(d, run, 1);
    run := Leave(d, run, 1);
  }

  lemma StoppedBeforeItsCheck(d: Discipline, p: PreviewId) returns (run: seq<State>)
    requires !d.noShutdown
    ensures Follows(d, run) && run[0] == START
    ensures var s := Last(run);
            && s.builds == [Build(p, 0, Leaving(0, Superseded), 0, false)]
            && p !in s.jobs && IsCurrent(s.maps, p, 0) && p in s.newest && s.newest[p].push == 0
  {
    run := BuildRegisters(d, p);
    run := Extend(d, run, BuildDoes(0, FetchLock));
    run := Extend(d, run, BuildDoes(0, Acquire));
    run := Extend(d, run, Shutdown);
    run := Extend(d, run, BuildDoes(0, Check(true)));
  }

  /** Without noShutdown: a build stopped at its check is discarded, and its push with it. */
  lemma ShutdownLosesThePush(p: PreviewId) returns (run: seq<State>)
    ensures IsRun(FULL.(noShutdown := false), run)
    ensures p in Last(run).newest && !Accounted(Last(run), p, Last(run).newest[p].push)
  {
    var d := FULL.(noShutdown := false);
    run := StoppedBeforeItsCheck(d, p);
    run := Leave(d, run, 0);
  }
}
