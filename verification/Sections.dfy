/**
 The mutex a teardown deletes. Its section deletes whatever mutex the map names; publish order rests
 on that being the one the teardown holds. Without overlapping teardowns it always is; and when it
 is not, and a build past its check holds the one deleted, a second build can get past its check.
 */
module Sections {
  import opened Protocol
  import opened PublishOrder
  import opened CounterTraces

  /** No hypothesis at all. */
  const NONE := Discipline(false, false, false, false, false, false, false)

  predicate BeforeSection(pc: TeardownPc) { pc.TWaiting? || pc.TLocked? }

  // ---------------------------------------------------------------------------------------
  // Without overlap
  // ---------------------------------------------------------------------------------------

  /** No two teardowns of one preview are before their sections. */
  ghost predicate NoOverlap(s: State) {
    forall t, u | Tearing(s, t) && Tearing(s, u) && t != u && BeforeSection(s.teardowns[t].pc) && BeforeSection(s.teardowns[u].pc) ::
      s.teardowns[t].preview != s.teardowns[u].preview
  }

  /** Until its section, the mutex a teardown fetched is the one the map names. */
  predicate FetchedOwns(s: State, t: TeardownId)
    requires Tearing(s, t)
  {
    BeforeSection(s.teardowns[t].pc) ==> Owns(s, s.teardowns[t].preview, s.teardowns[t].pc.m)
  }

  /** In any run in which teardowns of one preview never overlap before their sections, every
      section deletes the mutex its teardown holds: that is all `ownSection` asks for. */
  lemma {:induction false} WithoutOverlapSectionsOwn(d: Discipline, run: seq<State>, i: nat, t: TeardownId)
    requires IsRun(d, run) && i < |run| && (forall k: nat | k <= i :: NoOverlap(run[k]))
    requires Tearing(run[i], t)
    ensures FetchedOwns(run[i], t)
    ensures run[i].teardowns[t].pc.TLocked? ==> SectionOwns(run[i], t)
  {
    if i > 0 {
      assert Moves(d, run, i - 1);
      var step :| Allowed(d, run[i - 1], step) && run[i] == Apply(run[i - 1], step);
      if Tearing(run[i - 1], t) { WithoutOverlapSectionsOwn(d, run, i - 1, t); }
      StepKeepsFetched(run[i - 1], step, t);
    }
  }

  lemma StepKeepsFetched(s: State, step: Step, t: TeardownId)
    requires Enabled(s, step) && NoOverlap(s) && NoOverlap(Apply(s, step)) && Tearing(Apply(s, step), t)
    requires Tearing(s, t) ==> FetchedOwns(s, t)
    ensures FetchedOwns(Apply(s, step), t)
  {
    match step
    case BuildDoes(b, act) => ActKeepsMutexes(s, b, act);
    case TeardownDoes(u, act) => TearKeepsFetched(s, u, act, t);
    case _ =>
  }

  lemma TearKeepsFetched(s: State, u: TeardownId, act: TeardownAct, t: TeardownId)
    requires Tearing(s, u) && CanTear(s, u, act) && NoOverlap(s) && Tearing(s, t) && FetchedOwns(s, t)
    ensures FetchedOwns(DoTear(s, u, act), t)
  {}

  // ---------------------------------------------------------------------------------------
  // Mutexes are fresh
  // ---------------------------------------------------------------------------------------

  /** The mutex a build has fetched. */
  function MutexOf(pc: BuildPc): int {
    match pc
    case Waiting(m) => m case Locked(m) => m case Committing(m) => m case Stored(m) => m
    case Shared(m, _) => m case Installed(m, _) => m case Unrecorded(m) => m case Withdrawn(m) => m
    case Recorded(m) => m case Leaving(m, _) => m
    case _ => -1
  }

  /** What an act of b does to mutexes: it creates one, or keeps the map; b has the one it had, the
      one it fetched, or none; and what is held was held, or is what b had fetched. */
  predicate MutexesKept(s: State, s': State, b: BuildId)
    requires At(s, b) && At(s', b)
  {
    && s'.teardowns == s.teardowns && s.maps.nextMutex <= s'.maps.nextMutex
    && (forall p | p in s.maps.commit :: p in s'.maps.commit && s'.maps.commit[p] == s.maps.commit[p])
    && (forall p | p in s'.maps.commit && p !in s.maps.commit :: s'.maps.commit[p] < s'.maps.nextMutex)
    && (MutexOf(PcOf(s', b)) == MutexOf(PcOf(s, b)) || MutexOf(PcOf(s', b)) == -1
        || (PcOf(s, b).Registered? && PreviewOf(s, b) in s'.maps.commit && MutexOf(PcOf(s', b)) == s'.maps.commit[PreviewOf(s, b)]))
    && (forall m | m in s'.held :: m in s.held || m == MutexOf(PcOf(s, b)))
  }

  predicate Beginning(act: Act) {
    act.RegisterBuild? || act.EndEarly? || act.FetchLock? || act.Acquire? || act.CancelContext?
  }

  predicate Placing(act: Act) { act.TakeShare? || act.NoShare? || act.GoLive? }

  predicate Removing(act: Act) { act.Withdraw? || act.DeleteRow? || act.Prune? }

  lemma ActKeepsMutexes(s: State, b: BuildId, act: Act)
    requires At(s, b) && CanAct(s, b, act)
    ensures MutexesKept(s, DoAct(s, b, act), b)
  {
    if Beginning(act) { BeginningKeepsMutexes(s, b, act); }
    else if act.Check? { CheckKeepsMutexes(s, b, act.sawCancel); }
    else if act.PlaceArtifacts? { PlaceKeepsMutexes(s, b, act.ok); }
    else if Placing(act) { PlacingKeepsMutexes(s, b, act); }
    else if act.SaveRow? { SaveKeepsMutexes(s, b, act.ok); }
    else if Removing(act) { RemovingKeepsMutexes(s, b, act); }
    else if act.SaveRecord? { RecordKeepsMutexes(s, b, act.ok); }
    else { EndKeepsMutexes(s, b, act); }
  }

  lemma BeginningKeepsMutexes(s: State, b: BuildId, act: Act)
    requires At(s, b) && CanAct(s, b, act) && Beginning(act)
    ensures MutexesKept(s, DoAct(s, b, act), b)
  {}

  lemma CheckKeepsMutexes(s: State, b: BuildId, sawCancel: bool)
    requires At(s, b) && PcOf(s, b).Locked?
    ensures MutexesKept(s, DoCheck(s, b, sawCancel), b)
  {}

  lemma PlaceKeepsMutexes(s: State, b: BuildId, ok: bool)
    requires At(s, b) && PcOf(s, b).Committing?
    ensures MutexesKept(s, DoPlaceArtifacts(s, b, ok), b)
  {}

  lemma PlacingKeepsMutexes(s: State, b: BuildId, act: Act)
    requires At(s, b) && CanAct(s, b, act) && Placing(act)
    ensures MutexesKept(s, DoAct(s, b, act), b)
  {}

  lemma SaveKeepsMutexes(s: State, b: BuildId, ok: bool)
    requires At(s, b) && PcOf(s, b).Installed?
    ensures MutexesKept(s, DoSaveRow(s, b, ok), b)
  {}

  lemma RemovingKeepsMutexes(s: State, b: BuildId, act: Act)
    requires At(s, b) && CanAct(s, b, act) && Removing(act)
    ensures MutexesKept(s, DoAct(s, b, act), b)
  {}

  lemma RecordKeepsMutexes(s: State, b: BuildId, ok: bool)
    requires At(s, b) && PcOf(s, b).Recording?
    ensures MutexesKept(s, DoSaveRecord(s, b, ok), b)
  {}

  lemma EndKeepsMutexes(s: State, b: BuildId, act: Act)
    requires At(s, b) && CanAct(s, b, act) && (act.Release? || act.Settle? || act.Finish?)
    ensures MutexesKept(s, DoAct(s, b, act), b)
  {}

  predicate FreshBuild(s: State, b: BuildId)
    requires At(s, b)
  {
    MutexOf(PcOf(s, b)) < s.maps.nextMutex
  }

  predicate FreshTeardown(s: State, t: TeardownId)
    requires Tearing(s, t)
  {
    !s.teardowns[t].pc.TDone? ==> s.teardowns[t].pc.m < s.maps.nextMutex
  }

  /** Every mutex there is was created before the next one. */
  ghost predicate Fresh(s: State) {
    && (forall b {:trigger FreshBuild(s, b)} | At(s, b) :: FreshBuild(s, b))
    && (forall t {:trigger FreshTeardown(s, t)} | Tearing(s, t) :: FreshTeardown(s, t))
    && (forall p | p in s.maps.commit :: s.maps.commit[p] < s.maps.nextMutex)
    && (forall m | m in s.held :: m < s.maps.nextMutex)
  }

  lemma StepKeepsFresh(s: State, step: Step)
    requires Fresh(s) && Enabled(s, step)
    ensures Fresh(Apply(s, step))
  {
    var s' := Apply(s, step);
    if step.BuildDoes? {
      ActKeepsMutexes(s, step.b, step.act);
      ActKeepsFresh(s, s', step.b);
    } else if step.TeardownDoes? {
      TearKeepsFresh(s, step.t, step.tact);
    } else {
      forall b | At(s', b) ensures FreshBuild(s', b) { if At(s, b) { assert FreshBuild(s, b); } }
      forall t | Tearing(s', t) ensures FreshTeardown(s', t) { if Tearing(s, t) { assert FreshTeardown(s, t); } }
    }
  }

  lemma ActKeepsFresh(s: State, s': State, b: BuildId)
    requires Fresh(s) && OnlyActed(s, s', b) && MutexesKept(s, s', b)
    ensures Fresh(s')
  {
    assert FreshBuild(s, b);
    forall c | At(s', c) ensures FreshBuild(s', c) { assert FreshBuild(s, c); }
    forall t | Tearing(s', t) ensures FreshTeardown(s', t) { assert FreshTeardown(s, t); }
  }

  lemma TearKeepsFresh(s: State, t: TeardownId, act: TeardownAct)
    requires Fresh(s) && Tearing(s, t) && CanTear(s, t, act)
    ensures Fresh(DoTear(s, t, act))
  {
    var s' := DoTear(s, t, act);
    assert FreshTeardown(s, t);
    forall b | At(s', b) ensures FreshBuild(s', b) { assert FreshBuild(s, b); }
    forall u | Tearing(s', u) ensures FreshTeardown(s', u) { assert FreshTeardown(s, u); }
  }

  lemma {:induction false} RunKeepsFresh(d: Discipline, run: seq<State>, i: nat)
    requires IsRun(d, run) && i < |run|
    ensures Fresh(run[i])
  {
    if i > 0 {
      RunKeepsFresh(d, run, i - 1);
      assert Moves(d, run, i - 1);
      var step :| Allowed(d, run[i - 1], step) && run[i] == Apply(run[i - 1], step);
      StepKeepsFresh(run[i - 1], step);
    }
  }

  // ---------------------------------------------------------------------------------------
  // Two builds past the check
  // ---------------------------------------------------------------------------------------

  lemma FreshHandler(handlers: map<HandlerId, PreviewId>) returns (h: HandlerId)
    ensures h !in handlers
  {
    h := Beyond(handlers.Keys);
  }

  lemma {:induction false} Beyond(s: set<nat>) returns (n: nat)
    ensures forall x | x in s :: x < n
    decreases |s|
  {
    if s == {} {
      n := 0;
    } else {
      var x :| x in s;
      var m := Beyond(s - {x});
      n := if x < m then m else x + 1;
      assert forall y | y in s :: y == x || y in s - {x};
    }
  }

  /** A push is delivered, claimed and registered, whatever else is going on. */
  lemma PushRegisters(run: seq<State>, p: PreviewId) returns (longer: seq<State>)
    requires Follows(NONE, run) && |run| > 0
    ensures Follows(NONE, longer) && run <= longer
    ensures var s, n := Last(run), Last(longer);
            && |n.builds| == |s.builds| + 1 && (forall b | At(s, b) :: n.builds[b] == s.builds[b])
            && PreviewOf(n, |s.builds|) == p && PcOf(n, |s.builds|) == Registered && IsCurrent(n.maps, p, |s.builds|)
            && n.maps.commit == s.maps.commit && n.maps.nextMutex == s.maps.nextMutex && n.held == s.held
  {
    var s := Last(run);
    var h := FreshHandler(s.handlers);
    longer := Extend(NONE, run, Enqueue(h, p));
    longer := Extend(NONE, longer, Clear(h));
    longer := Extend(NONE, longer, Claim(p));
    longer := Extend(NONE, longer, BuildDoes(|s.builds|, RegisterBuild));
  }

  /** The registered build of a preview without a mutex creates and takes one. */
  lemma RegisteredLocks(run: seq<State>, c: BuildId) returns (longer: seq<State>)
    requires Follows(NONE, run) && At(Last(run), c) && PcOf(Last(run), c).Registered?
    requires PreviewOf(Last(run), c) !in Last(run).maps.commit && Last(run).maps.nextMutex !in Last(run).held
    ensures Follows(NONE, longer) && run <= longer && |Last(longer).builds| == |Last(run).builds|
    ensures forall b | At(Last(run), b) && b != c :: Last(longer).builds[b] == Last(run).builds[b]
    ensures PcOf(Last(longer), c).Locked? && PreviewOf(Last(longer), c) == PreviewOf(Last(run), c)
    ensures Last(longer).maps.running == Last(run).maps.running
  {
    longer := Extend(NONE, run, BuildDoes(c, FetchLock));
    assert PcOf(Last(longer), c).Waiting? && Last(longer).held == Last(run).held;
    longer := Extend(NONE, longer, BuildDoes(c, Acquire));
  }

  /** And gets past its check. */
  lemma RegisteredPasses(run: seq<State>, c: BuildId) returns (longer: seq<State>)
    requires Follows(NONE, run) && At(Last(run), c) && PcOf(Last(run), c).Registered?
    requires IsCurrent(Last(run).maps, PreviewOf(Last(run), c), c)
    requires PreviewOf(Last(run), c) !in Last(run).maps.commit && Last(run).maps.nextMutex !in Last(run).held
    ensures Follows(NONE, longer) && run <= longer && |Last(longer).builds| == |Last(run).builds|
    ensures forall b | At(Last(run), b) && b != c :: Last(longer).builds[b] == Last(run).builds[b]
    ensures PcOf(Last(longer), c).Committing? && PreviewOf(Last(longer), c) == PreviewOf(Last(run), c)
  {
    longer := RegisteredLocks(run, c);
    longer := Extend(NONE, longer, BuildDoes(c, Check(false)));
  }

  /** From any reachable state in which a section is about to delete a mutex its teardown does not
      hold, while a build past its check relies on that one, there is a continuation with two
      builds of the preview past their checks at once. */
  lemma DeletedMutexLetsTwoIn(run: seq<State>, t: TeardownId, b: BuildId) returns (longer: seq<State>, c: BuildId)
    requires IsRun(NONE, run) && Tearing(Last(run), t) && Last(run).teardowns[t].pc.TLocked? && !SectionOwns(Last(run), t)
    requires At(Last(run), b) && PreviewOf(Last(run), b) == Last(run).teardowns[t].preview && PastCheck(PcOf(Last(run), b))
    ensures IsRun(NONE, longer) && run <= longer
    ensures At(Last(longer), b) && At(Last(longer), c) && b != c && PreviewOf(Last(longer), b) == PreviewOf(Last(longer), c)
    ensures PastCheck(PcOf(Last(longer), b)) && PastCheck(PcOf(Last(longer), c))
  {
    var p := Last(run).teardowns[t].preview;
    longer := Extend(NONE, run, TeardownDoes(t, TSection));
    c := |Last(longer).builds|;
    longer := PushRegisters(longer, p);
    RunKeepsFresh(NONE, longer, |longer| - 1);
    longer := RegisteredPasses(longer, c);
  }
}
