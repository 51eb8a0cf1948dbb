/**
 What becomes of rows that are written outside the commit phase. Each trace is a run of the full
 discipline: none of its hypotheses concerns these writes.
 */
module RecordTraces {
  import opened Protocol
  import opened PublishOrder
  import opened CounterTraces

  /** A registered build ends early, and the rows are listed. */
  ghost function Listed(s: State, b: BuildId, end: Recordable): (n: State)
    requires At(s, b) && PcOf(s, b).Registered? && b !in s.cancelled
    ensures n.builds == s.builds[b := s.builds[b].(pc := Recording(end, Blocks(s, PreviewOf(s, b), end)))]
    ensures n.maps == s.maps && n.teardowns == s.teardowns && n.held == s.held && n.cancelled == s.cancelled
    ensures n.nextReg == s.nextReg && n.nextPush == s.nextPush && n.effects == s.effects && n.rows == s.rows
    ensures n.handlers == s.handlers && n.jobs == s.jobs && n.newest == s.newest && n.stopping == s.stopping
  {
    DoSettle(Moved(s, b, Returned(end)), b)
  }

  lemma List(d: Discipline, run: seq<State>, b: BuildId, end: Recordable) returns (longer: seq<State>)
    requires Follows(d, run) && At(Last(run), b) && PcOf(Last(run), b).Registered? && b !in Last(run).cancelled
    ensures Follows(d, longer) && longer[0] == run[0] && Last(longer) == Listed(Last(run), b, end)
  {
    longer := Extend(d, run, BuildDoes(b, EndEarly(end)));
    longer := Extend(d, longer, BuildDoes(b, Settle));
  }

  /** Its outcome is recorded. */
  lemma Record(d: Discipline, run: seq<State>, b: BuildId) returns (longer: seq<State>)
    requires Follows(d, run) && At(Last(run), b) && PcOf(Last(run), b).Recording? && !PcOf(Last(run), b).blocked
    requires !Blocks(Last(run), PreviewOf(Last(run), b), PcOf(Last(run), b).end) && !d.guardedRecord
    ensures Follows(d, longer) && longer[0] == run[0] && Last(longer) == DoSaveRecord(Last(run), b, true)
  {
    longer := Extend(d, run, BuildDoes(b, SaveRecord(true)));
  }

  lemma Registered(d: Discipline, run: seq<State>, p: PreviewId, b: BuildId) returns (longer: seq<State>)
    requires Follows(d, run) && At(Last(run), b) && PcOf(Last(run), b).Claimed? && Last(run).teardowns == []
    ensures Follows(d, longer) && longer[0] == run[0] && Last(longer) == DoRegister(Last(run), b)
  {
    longer := Extend(d, run, BuildDoes(b, RegisterBuild));
  }

  // ---------------------------------------------------------------------------------------
  // A cleared build records
  // ---------------------------------------------------------------------------------------

  /** A build has listed the rows, finding none, and is about to record how it ended. */
  lemma EndIsListed(d: Discipline, p: PreviewId, end: Recordable) returns (run: seq<State>)
    ensures Follows(d, run) && run[0] == START
    ensures var s := Last(run);
            && s.builds == [Build(p, 0, Recording(end, false), 0, false)] && AtRest(s, p)
            && s.rows == map[] && s.teardowns == [] && s.nextReg == 1 && s.nextPush == 1 && s.effects == []
            && s.cancelled == {} && IsCurrent(s.maps, p, 0) && s.held == map[] && p !in s.maps.commit && s.maps.nextMutex == 0
  {
    run := BuildRegisters(d, p);
    run := List(d, run, 0, end);
  }

  /** A newer build is registered meanwhile, and lists the rows too. */
  lemma NewerEndIsListed(d: Discipline, p: PreviewId) returns (run: seq<State>)
    ensures Follows(d, run) && run[0] == START
    ensures var s := Last(run);
            && s.builds == [Build(p, 0, Recording(Skipped, false), 0, false), Build(p, 1, Recording(Failed, false), 1, false)]
            && s.rows == map[] && s.effects == [] && IsCurrent(s.maps, p, 1)
  {
    run := EndIsListed(d, p, Skipped);
    run := Deliver(d, run, p);
    run := Registered(d, run, p, 1);
    run := List(d, run, 1, Failed);
  }

  lemma NewerIsDone(p: PreviewId) returns (run: seq<State>)
    ensures Follows(FULL, run) && run[0] == START
    ensures var s := Last(run);
            && s.builds == [Build(p, 0, Recording(Skipped, false), 0, false), Build(p, 1, Done(Failed), 1, false)]
            && s.rows == map[p := Row(RowFailed, "", 1)] && p !in s.maps.running
            && s.effects == [Effect(RecordedOutcome, p, 1, 1)]
  {
    run := NewerEndIsListed(FULL, p);
    run := Record(FULL, run, 1);
    run := Extend(FULL, run, BuildDoes(1, Finish));
  }

  /** A build that was skipped is cleared by a newer push before it has recorded that. The newer
      build fails, records it, and is done. Then the older one may replace the newer one's row: a
      cleared build does something that lasts, and rows are not in registration order. */
  lemma StaleBuildReplacesNewerRow(p: PreviewId) returns (run: seq<State>)
    ensures IsRun(FULL, run) && Allowed(FULL, Last(run), BuildDoes(0, SaveRecord(true)))
    ensures var s, s' := Last(run), Apply(Last(run), BuildDoes(0, SaveRecord(true)));
            && Stale(s, 0) && s.rows == map[p := Row(RowFailed, "", 1)]
            && s'.rows == map[p := Row(RowSkipped, "", 0)]
            && s'.effects == [Effect(RecordedOutcome, p, 1, 1), Effect(RecordedOutcome, p, 0, 0)]
  {
    run := NewerIsDone(p);
  }

  // ---------------------------------------------------------------------------------------
  // A registered build records while another is inside the commit phase
  // ---------------------------------------------------------------------------------------

  lemma OlderIsInside(p: PreviewId) returns (run: seq<State>)
    ensures Follows(FULL, run) && run[0] == START
    ensures var s := Last(run);
            && s.builds == [Build(p, 0, Committing(0), 0, true)] && AtRest(s, p)
            && s.rows == map[] && s.teardowns == [] && s.nextReg == 1 && s.nextPush == 1
            && IsCurrent(s.maps, p, 0) && s.cancelled == {}
  {
    run := BuildRegisters(FULL, p);
    run := Extend(FULL, run, BuildDoes(0, FetchLock));
    run := Enter(FULL, run, 0);
  }

  lemma OlderIsLive(p: PreviewId) returns (run: seq<State>)
    ensures Follows(FULL, run) && run[0] == START
    ensures var s := Last(run);
            && s.builds == [Build(p, 0, Installed(0, "old"), 0, true)] && AtRest(s, p)
            && s.rows == map[] && s.teardowns == [] && s.nextReg == 1 && s.nextPush == 1
            && IsCurrent(s.maps, p, 0) && s.cancelled == {}
  {
    run := OlderIsInside(p);
    run := Share(FULL, run, 0, "old");
    run := Extend(FULL, run, BuildDoes(0, GoLive));
  }

  lemma NewerListsMeanwhile(p: PreviewId) returns (run: seq<State>)
    ensures Follows(FULL, run) && run[0] == START
    ensures var s := Last(run);
            && s.builds == [Build(p, 0, Installed(0, "old"), 0, true), Build(p, 1, Recording(Failed, false), 1, false)]
            && s.rows == map[] && IsCurrent(s.maps, p, 1)
  {
    run := OlderIsLive(p);
    run := Deliver(FULL, run, p);
    run := Registered(FULL, run, p, 1);
    run := List(FULL, run, 1, Failed);
  }

  /** Being registered is not enough either: the newer build fails and records that while the older
      one is between going live and saving its row, and then the older one's row replaces it. */
  lemma OlderCommitReplacesNewerRecord(p: PreviewId) returns (run: seq<State>)
    ensures IsRun(FULL, run) && IsCurrent(Last(run).maps, p, 1)
    ensures Last(run).rows == map[p := Row(RowFailed, "", 1)] && Allowed(FULL, Last(run), BuildDoes(0, SaveRow(true)))
    ensures Apply(Last(run), BuildDoes(0, SaveRow(true))).rows == map[p := Row(RowReady, "old", 0)]
  {
    run := NewerListsMeanwhile(p);
    run := Record(FULL, run, 1);
  }

  // ---------------------------------------------------------------------------------------
  // A preview that is gone gets a row
  // ---------------------------------------------------------------------------------------

  lemma TornDownMeanwhile(p: PreviewId) returns (run: seq<State>)
    ensures Follows(FULL, run) && run[0] == START
    ensures var s := Last(run);
            && s.builds == [Build(p, 0, Recording(Failed, false), 0, false)] && s.rows == map[]
            && s.teardowns == [Teardown(p, TTail(0))] && p !in s.newest && p !in s.maps.live
  {
    run := EndIsListed(FULL, p, Failed);
    run := Extend(FULL, run, TeardownFetch(p));
    run := RunSection(FULL, run, 0);
  }

  lemma TornDownCompletely(p: PreviewId) returns (run: seq<State>)
    ensures Follows(FULL, run) && run[0] == START
    ensures var s := Last(run);
            && s.builds == [Build(p, 0, Recording(Failed, false), 0, false)] && s.rows == map[]
            && s.teardowns == [Teardown(p, TDone)] && p !in s.newest && p !in s.maps.live
  {
    run := TornDownMeanwhile(p);
    run := Extend(FULL, run, TeardownDoes(0, TDeleteRow));
    run := Extend(FULL, run, TeardownDoes(0, TRelease));
  }

  /** A build that had listed the rows records its failure after a teardown of the preview has
      returned: the preview has a row again, and nothing else. */
  lemma TornDownPreviewIsRecorded(p: PreviewId) returns (run: seq<State>)
    ensures IsRun(FULL, run)
    ensures var s := Last(run);
            && s.teardowns == [Teardown(p, TDone)] && p !in s.newest && p !in s.maps.live
            && s.rows == map[p := Row(RowFailed, "", 0)]
  {
    run := TornDownCompletely(p);
    run := Record(FULL, run, 0);
  }
}
