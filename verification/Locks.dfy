/**
 The commit mutexes themselves: in every run, under no hypothesis, each is held by whoever its
 holder's place in the protocol says, and by nobody else, so none stays locked behind.
 */
module Locks {
  import opened Protocol
  import opened PublishOrder

  /** h is between taking mutex m and giving it back. */
  predicate Inside(s: State, m: Mutex, h: Holder) {
    match h
    case ByBuild(b) => At(s, b) && Holds(PcOf(s, b)) && PcOf(s, b).m == m
    case ByTeardown(t) => Tearing(s, t) && THolds(s.teardowns[t].pc) && s.teardowns[t].pc.m == m
  }

  predicate HeldBy(s: State, m: Mutex, h: Holder) { m in s.held && s.held[m] == h }

  predicate LockOk(s: State, m: Mutex, h: Holder) { HeldBy(s, m, h) <==> Inside(s, m, h) }

  ghost predicate LocksOk(s: State) { forall m, h {:trigger LockOk(s, m, h)} :: LockOk(s, m, h) }

  /** Acts that neither take nor give back a mutex leave everyone where they were. */
  predicate SameInside(s: State, s': State, b: BuildId)
    requires At(s, b) && At(s', b)
  {
    && s'.held == s.held
    && (Holds(PcOf(s', b)) <==> Holds(PcOf(s, b)))
    && (Holds(PcOf(s, b)) && Holds(PcOf(s', b)) ==> PcOf(s', b).m == PcOf(s, b).m)
  }

  predicate Outside(act: Act) {
    act.RegisterBuild? || act.EndEarly? || act.FetchLock? || act.Settle? || act.Finish? || act.CancelContext?
  }

  predicate Deciding(act: Act) { act.Check? || act.NoShare? || act.TakeShare? || act.GoLive? }

  predicate Undoing(act: Act) { act.Withdraw? || act.DeleteRow? || act.Prune? }

  lemma OutsideStays(s: State, b: BuildId, act: Act)
    requires At(s, b) && CanAct(s, b, act) && Outside(act)
    ensures SameInside(s, DoAct(s, b, act), b)
  {
  }

  lemma DecidingStays(s: State, b: BuildId, act: Act)
    requires At(s, b) && CanAct(s, b, act) && Deciding(act)
    ensures SameInside(s, DoAct(s, b, act), b)
  {
  }

  lemma UndoingStays(s: State, b: BuildId, act: Act)
    requires At(s, b) && CanAct(s, b, act) && Undoing(act)
    ensures SameInside(s, DoAct(s, b, act), b)
  {
  }

  lemma PlacingStays(s: State, b: BuildId, ok: bool)
    requires At(s, b) && PcOf(s, b).Committing?
    ensures SameInside(s, DoAct(s, b, PlaceArtifacts(ok)), b)
  {
  }

  lemma SavingStays(s: State, b: BuildId, ok: bool)
    requires At(s, b) && PcOf(s, b).Installed?
    ensures SameInside(s, DoAct(s, b, SaveRow(ok)), b)
  {
  }

  lemma RecordingStays(s: State, b: BuildId, ok: bool)
    requires At(s, b) && PcOf(s, b).Recording?
    ensures SameInside(s, DoAct(s, b, SaveRecord(ok)), b)
  {
  }

  lemma MostActsStay(s: State, b: BuildId, act: Act)
    requires At(s, b) && CanAct(s, b, act) && !act.Acquire? && !act.Release?
    ensures SameInside(s, DoAct(s, b, act), b)
  {
    if Outside(act) { OutsideStays(s, b, act); }
    else if Deciding(act) { DecidingStays(s, b, act); }
    else if Undoing(act) { UndoingStays(s, b, act); }
    else if act.PlaceArtifacts? { PlacingStays(s, b, act.ok); }
    else if act.SaveRow? { SavingStays(s, b, act.ok); }
    else { RecordingStays(s, b, act.ok); }
  }

  lemma ActKeepsLocks(s: State, b: BuildId, act: Act)
    requires LocksOk(s) && At(s, b) && CanAct(s, b, act)
    ensures LocksOk(DoAct(s, b, act))
  {
    var s' := DoAct(s, b, act);
    if !act.Acquire? && !act.Release? { MostActsStay(s, b, act); }
    forall m, h ensures LockOk(s', m, h) {
      assert LockOk(s, m, h);
      if act.Acquire? || act.Release? { HolderMoves(s, b, act, m, h); }
    }
  }

  /** Taking a free mutex, or giving back one's own. */
  lemma HolderMoves(s: State, b: BuildId, act: Act, m: Mutex, h: Holder)
    requires LocksOk(s) && At(s, b) && CanAct(s, b, act) && (act.Acquire? || act.Release?)
    ensures LockOk(DoAct(s, b, act), m, h)
  {
    assert LockOk(s, m, h) && LockOk(s, PcOf(s, b).m, ByBuild(b)) && LockOk(s, PcOf(s, b).m, h);
  }

  lemma TearKeepsLocks(s: State, t: TeardownId, act: TeardownAct)
    requires LocksOk(s) && Tearing(s, t) && CanTear(s, t, act)
    ensures LocksOk(DoTear(s, t, act))
  {
    var m' := s.teardowns[t].pc.m;
    forall m, h ensures LockOk(DoTear(s, t, act), m, h) {
      assert LockOk(s, m, h) && LockOk(s, m', ByTeardown(t)) && LockOk(s, m', h);
    }
  }

  lemma StepKeepsLocks(s: State, step: Step)
    requires LocksOk(s) && Enabled(s, step)
    ensures LocksOk(Apply(s, step))
  {
    match step
    case BuildDoes(b, act) => ActKeepsLocks(s, b, act);
    case TeardownDoes(t, act) => TearKeepsLocks(s, t, act);
    case _ => forall m, h ensures LockOk(Apply(s, step), m, h) { assert LockOk(s, m, h); }
  }

  lemma {:induction false} RunKeepsLocks(d: Discipline, run: seq<State>, i: nat)
    requires IsRun(d, run) && i < |run|
    ensures LocksOk(run[i])
  {
    if i > 0 {
      RunKeepsLocks(d, run, i - 1);
      assert Moves(d, run, i - 1);
      var step :| Allowed(d, run[i - 1], step) && run[i] == Apply(run[i - 1], step);
      StepKeepsLocks(run[i - 1], step);
    }
  }

  /** In every run a mutex is held by exactly the build or teardown that is between taking it and
      giving it back, and there is at most one. */
  lemma HeldExactly(d: Discipline, run: seq<State>, i: nat, m: Mutex, h: Holder)
    requires IsRun(d, run) && i < |run|
    ensures HeldBy(run[i], m, h) <==> Inside(run[i], m, h)
    ensures forall g :: Inside(run[i], m, g) && Inside(run[i], m, h) ==> g == h
  {
    RunKeepsLocks(d, run, i);
    assert LockOk(run[i], m, h);
    forall g | Inside(run[i], m, g) && Inside(run[i], m, h) ensures g == h { assert LockOk(run[i], m, g); }
  }

  /** So whoever waits for a mutex can take it as soon as, and only when, nobody is inside. */
  lemma WaiterProceedsExactly(d: Discipline, run: seq<State>, i: nat, h: Holder)
    requires IsRun(d, run) && i < |run| && Waits(run[i], h)
    ensures Enabled(run[i], Taking(h)) <==> forall g :: !Inside(run[i], Wanted(run[i], h), g)
  {
    RunKeepsLocks(d, run, i);
    var s, m := run[i], Wanted(run[i], h);
    if m in s.held { assert LockOk(s, m, s.held[m]); }
    forall g | Inside(s, m, g) ensures m in s.held { assert LockOk(s, m, g); }
  }

  predicate Waits(s: State, h: Holder) {
    match h
    case ByBuild(b) => At(s, b) && PcOf(s, b).Waiting?
    case ByTeardown(t) => Tearing(s, t) && s.teardowns[t].pc.TWaiting?
  }

  function Wanted(s: State, h: Holder): Mutex
    requires Waits(s, h)
  {
    match h case ByBuild(b) => PcOf(s, b).m case ByTeardown(t) => s.teardowns[t].pc.m
  }

  function Taking(h: Holder): Step {
    match h case ByBuild(b) => BuildDoes(b, Acquire) case ByTeardown(t) => TeardownDoes(t, TAcquire)
  }
}
