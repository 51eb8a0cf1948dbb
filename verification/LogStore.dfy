/**
 Which log writer is a preview's live one, and who still has to close the others.

 Begin creates a writer, swaps it in under the store's lock and closes the one it displaced
 after releasing it; Finish unregisters a writer under the lock, if it is still registered, and
 closes it afterwards; Remove does both under the lock. Any number of these may interleave.
 */
module LogStore {
  type Preview = string

  /** How far the Begin that made a writer has come. */
  datatype Phase = Created | Swapped(displaced: int) | Returned

  datatype LogWriter = LogWriter(preview: Preview, phase: Phase, open: bool)

  datatype Finish = Finish(writer: nat, unregistered: bool)

  /** A displaced writer of NONE: there was no writer to displace. */
  const NONE := -1

  datatype Store = Store(live: map<Preview, nat>, writers: seq<LogWriter>, finishes: seq<Finish>)

  const Empty := Store(map[], [], [])

  datatype Act =
    | Create(preview: Preview)        // Begin: the file is made
    | Swap(writer: nat)               // Begin: registered, under the lock
    | CloseDisplaced(writer: nat)     // Begin: the displaced writer is closed, and Begin returns
    | CallFinish(writer: nat)
    | Unregister(finish: nat)         // Finish: under the lock
    | CloseOwn(finish: nat)           // Finish: close, and return
    | Remove(preview: Preview)        // all of it under the lock

  function LiveOf(live: map<Preview, nat>, p: Preview): int { if p in live then live[p] else NONE }

  // ---------------------------------------------------------------------------------------
  // What each section under the lock does to the map
  // ---------------------------------------------------------------------------------------

  function SwapIn(live: map<Preview, nat>, p: Preview, w: nat): map<Preview, nat> { live[p := w] }

  function Leave(live: map<Preview, nat>, p: Preview, w: nat): map<Preview, nat> {
    if LiveOf(live, p) == w then live - {p} else live
  }

  /** The store's map, as the methods change it. */
  class Registry {
    var live: map<Preview, nat>

    constructor ()
      ensures live == map[]
    {
      live := map[];
    }

    method Begin(p: Preview, w: nat) returns (displaced: int)
      modifies this
      ensures live == SwapIn(old(live), p, w) && displaced == LiveOf(old(live), p)
    {
      displaced := LiveOf(live, p);
      live := live[p := w];
    }

    method Finish(p: Preview, w: nat)
      modifies this
      ensures live == Leave(old(live), p, w)
      ensures forall q | q in old(live) && old(live)[q] != w :: q in live && live[q] == old(live)[q]
    {
      if p in live && live[p] == w { live := live - {p}; }
    }

    method Remove(p: Preview) returns (displaced: int)
      modifies this
      ensures live == old(live) - {p} && displaced == LiveOf(old(live), p)
    {
      displaced := LiveOf(live, p);
      live := live - {p};
    }
  }

  // ---------------------------------------------------------------------------------------
  // Steps
  // ---------------------------------------------------------------------------------------

  function Shut(writers: seq<LogWriter>, w: int): (r: seq<LogWriter>)
    ensures |r| == |writers|
    ensures forall v | 0 <= v < |r| :: r[v] == if v == w then writers[v].(open := false) else writers[v]
  {
    if 0 <= w < |writers| then writers[w := writers[w].(open := false)] else writers
  }

  predicate Enabled(s: Store, a: Act) {
    match a
    case Create(_) => true
    case Swap(w) => w < |s.writers| && s.writers[w].phase == Created
    case CloseDisplaced(w) => w < |s.writers| && s.writers[w].phase.Swapped?
    case CallFinish(w) => w < |s.writers| && s.writers[w].phase == Returned
    case Unregister(f) => f < |s.finishes| && !s.finishes[f].unregistered && s.finishes[f].writer < |s.writers|
    case CloseOwn(f) => f < |s.finishes| && s.finishes[f].unregistered
    case Remove(_) => true
  }

  function Apply(s: Store, a: Act): Store
    requires Enabled(s, a)
  {
    match a
    case Create(p) => s.(writers := s.writers + [LogWriter(p, Created, true)])
    case Swap(w) =>
      var p := s.writers[w].preview;
      s.(live := SwapIn(s.live, p, w), writers := s.writers[w := s.writers[w].(phase := Swapped(LiveOf(s.live, p)))])
    case CloseDisplaced(w) =>
      s.(writers := Shut(s.writers[w := s.writers[w].(phase := Returned)], s.writers[w].phase.displaced))
    case CallFinish(w) => s.(finishes := s.finishes + [Finish(w, false)])
    case Unregister(f) =>
      var w := s.finishes[f].writer;
      s.(live := Leave(s.live, s.writers[w].preview, w), finishes := s.finishes[f := Finish(w, true)])
    case CloseOwn(f) => s.(writers := Shut(s.writers, s.finishes[f].writer))
    case Remove(p) => s.(live := s.live - {p}, writers := Shut(s.writers, LiveOf(s.live, p)))
  }

  /** The store after a sequence of steps; one that is not enabled changes nothing. */
  function After(acts: seq<Act>): Store {
    if acts == [] then Empty
    else
      var s := After(acts[..|acts| - 1]);
      if Enabled(s, acts[|acts| - 1]) then Apply(s, acts[|acts| - 1]) else s
  }

  // ---------------------------------------------------------------------------------------
  // The invariant
  // ---------------------------------------------------------------------------------------

  /** Somebody who has not finished still has to close writer w. */
  ghost predicate Owed(s: Store, w: nat) {
    || OwedBySelf(s, w)
    || (exists v: nat :: OwedByBegin(s, v, w))
    || (exists f: nat :: OwedByFinish(s, f, w))
  }

  /** Its own Begin has not registered it yet. */
  predicate OwedBySelf(s: Store, w: nat) { w < |s.writers| && s.writers[w].phase == Created }

  predicate OwedByBegin(s: Store, v: nat, w: nat) { v < |s.writers| && s.writers[v].phase == Swapped(w) }

  predicate OwedByFinish(s: Store, f: nat, w: nat) { f < |s.finishes| && s.finishes[f] == Finish(w, true) }

  predicate IsLive(s: Store, w: nat) { w < |s.writers| && LiveOf(s.live, s.writers[w].preview) == w }

  ghost predicate WriterOk(s: Store, w: nat)
    requires w < |s.writers|
  {
    && (s.writers[w].open ==> IsLive(s, w) || Owed(s, w))
    && (s.writers[w].phase == Created ==> s.writers[w].open && !IsLive(s, w))
    && (s.writers[w].phase.Swapped? && s.writers[w].phase.displaced != NONE ==>
          Retired(s, s.writers[w].phase.displaced))
  }

  /** Once registered, no longer registered: it will never be registered again. */
  predicate Retired(s: Store, w: int) { 0 <= w < |s.writers| && s.writers[w].phase != Created && !IsLive(s, w) }

  predicate LiveOk(s: Store, p: Preview)
    requires p in s.live
  {
    var w := s.live[p];
    w < |s.writers| && s.writers[w].preview == p && s.writers[w].open && s.writers[w].phase != Created
  }

  predicate FinishOk(s: Store, f: nat)
    requires f < |s.finishes|
  {
    var w := s.finishes[f].writer;
    w < |s.writers| && s.writers[w].phase == Returned && (s.finishes[f].unregistered ==> !IsLive(s, w))
  }

  ghost predicate Inv(s: Store) {
    && (forall w: nat {:trigger WriterOk(s, w)} | w < |s.writers| :: WriterOk(s, w))
    && (forall p {:trigger LiveOk(s, p)} | p in s.live :: LiveOk(s, p))
    && (forall f: nat {:trigger FinishOk(s, f)} | f < |s.finishes| :: FinishOk(s, f))
  }

  lemma LiveKept(s: Store, a: Act, p: Preview)
    requires Inv(s) && Enabled(s, a) && p in Apply(s, a).live
    ensures LiveOk(Apply(s, a), p)
  {
    if p in s.live { assert LiveOk(s, p); }
    match a {
      case Swap(w) => assert WriterOk(s, w);
      case CloseDisplaced(w) => assert WriterOk(s, w);
      case CloseOwn(f) => assert FinishOk(s, f);
      case Remove(q) => if q in s.live { assert LiveOk(s, q); }
      case _ =>
    }
  }

  /** A retired writer stays retired, whatever happens. */
  lemma RetiredForGood(s: Store, a: Act, w: nat)
    requires Inv(s) && Enabled(s, a) && Retired(s, w)
    ensures Retired(Apply(s, a), w)
  {
  }

  lemma FinishKept(s: Store, a: Act, f: nat)
    requires Inv(s) && Enabled(s, a) && f < |Apply(s, a).finishes|
    ensures FinishOk(Apply(s, a), f)
  {
    if f < |s.finishes| {
      assert FinishOk(s, f);
      if s.finishes[f].unregistered { RetiredForGood(s, a, s.finishes[f].writer); }
    }
  }

  /** Whoever owes a close keeps owing it, until the step that does it. */
  lemma DebtKept(s: Store, a: Act, w: nat)
    requires Inv(s) && Enabled(s, a) && w < |s.writers| && Owed(s, w) && Apply(s, a).writers[w].open
    ensures IsLive(Apply(s, a), w) || Owed(Apply(s, a), w)
  {
    var t := Apply(s, a);
    if OwedBySelf(s, w) {
      assert IsLive(t, w) || OwedBySelf(t, w);
    } else if v: nat :| OwedByBegin(s, v, w) {
      assert OwedByBegin(t, v, w);
    } else {
      var f: nat :| OwedByFinish(s, f, w);
      assert OwedByFinish(t, f, w);
    }
  }

  /** A writer that stops being registered becomes somebody's to close, or is closed. */
  lemma LeavingIsOwed(s: Store, a: Act, w: nat)
    requires Inv(s) && Enabled(s, a) && w < |s.writers| && IsLive(s, w) && Apply(s, a).writers[w].open
    ensures IsLive(Apply(s, a), w) || Owed(Apply(s, a), w)
  {
    var t := Apply(s, a);
    match a {
      case Swap(v) => assert IsLive(t, w) || OwedByBegin(t, v, w);
      case Unregister(f) => assert IsLive(t, w) || OwedByFinish(t, f, w);
      case _ => assert IsLive(t, w);
    }
  }

  lemma WriterKept(s: Store, a: Act, w: nat)
    requires Inv(s) && Enabled(s, a) && w < |Apply(s, a).writers|
    ensures WriterOk(Apply(s, a), w)
  {
    var t := Apply(s, a);
    if w < |s.writers| {
      assert WriterOk(s, w);
      if t.writers[w].open {
        if IsLive(s, w) { LeavingIsOwed(s, a, w); } else { DebtKept(s, a, w); }
      }
      PhaseKept(s, a, w);
    } else {
      assert OwedBySelf(t, w);
      assert !IsLive(t, w) by {
        if a.preview in s.live { assert LiveOk(s, a.preview); }
      }
    }
  }

  lemma PhaseKept(s: Store, a: Act, w: nat)
    requires Inv(s) && Enabled(s, a) && w < |s.writers|
    ensures var t := Apply(s, a);
            && (t.writers[w].phase == Created ==> t.writers[w].open && !IsLive(t, w))
            && (t.writers[w].phase.Swapped? && t.writers[w].phase.displaced != NONE ==>
                  Retired(t, t.writers[w].phase.displaced))
  {
    var t := Apply(s, a);
    assert WriterOk(s, w);
    var p := s.writers[w].preview;
    if p in s.live { assert LiveOk(s, p); }
    if s.writers[w].phase.Swapped? && s.writers[w].phase.displaced != NONE {
      RetiredForGood(s, a, s.writers[w].phase.displaced);
    }
    match a {
      case CloseDisplaced(v) => assert WriterOk(s, v);
      case CloseOwn(f) => assert FinishOk(s, f);
      case Remove(q) => if q in s.live { assert LiveOk(s, q); }
      case _ =>
    }
  }

  lemma StepKeeps(s: Store, a: Act)
    requires Inv(s) && Enabled(s, a)
    ensures Inv(Apply(s, a))
  {
    var t := Apply(s, a);
    forall w: nat | w < |t.writers| ensures WriterOk(t, w) { WriterKept(s, a, w); }
    forall p | p in t.live ensures LiveOk(t, p) { LiveKept(s, a, p); }
    forall f: nat | f < |t.finishes| ensures FinishOk(t, f) { FinishKept(s, a, f); }
  }

  lemma {:induction false} RunKeeps(acts: seq<Act>)
    ensures Inv(After(acts))
  {
    if acts != [] {
      var before := acts[..|acts| - 1];
      RunKeeps(before);
      if Enabled(After(before), acts[|acts| - 1]) { StepKeeps(After(before), acts[|acts| - 1]); }
    }
  }

  // ---------------------------------------------------------------------------------------
  // Results
  // ---------------------------------------------------------------------------------------

  /** In every run no open writer is forgotten: it is the registered writer of its preview, or a
      Begin or Finish that has not returned still has to register or close it. And a registered
      writer is always open, so whoever finds it can tail it. */
  lemma NoWriterIsForgotten(acts: seq<Act>)
    ensures var s := After(acts);
            && (forall w: nat | w < |s.writers| && s.writers[w].open :: IsLive(s, w) || Owed(s, w))
            && (forall p | p in s.live :: s.live[p] < |s.writers| && s.writers[s.live[p]].open && s.writers[s.live[p]].preview == p)
  {
    RunKeeps(acts);
    var s := After(acts);
    forall w: nat | w < |s.writers| && s.writers[w].open ensures IsLive(s, w) || Owed(s, w) {
      assert WriterOk(s, w);
    }
    forall p | p in s.live ensures LiveOk(s, p) { }
  }

  /** Nothing a Begin or a Finish has still to do. */
  ghost predicate Settled(s: Store) {
    && (forall w: nat | w < |s.writers| :: s.writers[w].phase == Returned)
    && (forall f: nat, w: nat :: OwedByFinish(s, f, w) && w < |s.writers| ==> !s.writers[w].open)
  }

  /** Once every Begin and Finish under way has returned, a preview has at most one open writer. */
  lemma SettledMeansOneWriterEach(acts: seq<Act>, v: nat, w: nat)
    requires var s := After(acts); Settled(s) && v < |s.writers| && w < |s.writers|
    requires var s := After(acts); s.writers[v].open && s.writers[w].open && s.writers[v].preview == s.writers[w].preview
    ensures v == w && IsLive(After(acts), w)
  {
    NoWriterIsForgotten(acts);
    var s := After(acts);
    assert !OwedBySelf(s, v) && !OwedBySelf(s, w);
    assert forall u: nat :: !OwedByBegin(s, u, v) && !OwedByBegin(s, u, w);
  }

  /** A writer that was displaced, finished or removed is never registered again; in particular
      its own late Finish leaves whichever writer is registered by then in place. */
  lemma LateFinishSparesTheSuccessor(acts: seq<Act>, f: nat)
    requires var s := After(acts); Enabled(s, Unregister(f)) && Retired(s, s.finishes[f].writer)
    ensures After(acts + [Unregister(f)]).live == After(acts).live
  {
    assert (acts + [Unregister(f)])[..|acts|] == acts;
  }

  lemma {:induction false} NeverRegisteredAgain(acts: seq<Act>, more: seq<Act>, w: nat)
    requires Retired(After(acts), w)
    ensures Retired(After(acts + more), w)
    decreases |more|
  {
    if more == [] {
      assert acts + more == acts;
    } else {
      var all := acts + more;
      var before := more[..|more| - 1];
      NeverRegisteredAgain(acts, before, w);
      assert all[..|all| - 1] == acts + before;
      RunKeeps(acts + before);
      if Enabled(After(acts + before), all[|all| - 1]) { RetiredForGood(After(acts + before), all[|all| - 1], w); }
    }
  }

  // ---------------------------------------------------------------------------------------
  // Each operation on its own
  // ---------------------------------------------------------------------------------------

  lemma Then(acts: seq<Act>, a: Act)
    ensures After(acts + [a]) == if Enabled(After(acts), a) then Apply(After(acts), a) else After(acts)
  {
    assert (acts + [a])[..|acts|] == acts;
  }

  /** Other previews have the writers they had. */
  ghost predicate OthersStay(s: Store, t: Store, p: Preview) {
    forall q | q != p :: (q in t.live <==> q in s.live) && (q in t.live ==> t.live[q] == s.live[q])
  }

  /** Of the writers there were, exactly this one, if any, was closed. */
  predicate OnlyShuts(s: Store, t: Store, w: int) {
    |s.writers| <= |t.writers|
    && forall v | 0 <= v < |s.writers| ::
         t.writers[v].preview == s.writers[v].preview && (t.writers[v].open <==> s.writers[v].open && v != w)
  }

  /** From any reachable store a Begin that runs undisturbed leaves its new writer open and registered,
      and has closed the one it displaced. */
  lemma BeginAlone(acts: seq<Act>, p: Preview)
    ensures var s := After(acts);
            var w := |s.writers|;
            var t := After(acts + [Create(p)] + [Swap(w)] + [CloseDisplaced(w)]);
            && |t.writers| == w + 1 && t.writers[w] == LogWriter(p, Returned, true) && IsLive(t, w)
            && OthersStay(s, t, p) && OnlyShuts(s, t, if p in s.live then s.live[p] else NONE)
  {
    var s := After(acts);
    var w := |s.writers|;
    RunKeeps(acts);
    if p in s.live { assert LiveOk(s, p); }
    Then(acts, Create(p));
    Then(acts + [Create(p)], Swap(w));
    Then(acts + [Create(p)] + [Swap(w)], CloseDisplaced(w));
  }

  /** A Finish that runs undisturbed closes its writer, and takes it out if it is the registered one. */
  lemma FinishAlone(acts: seq<Act>, w: nat)
    requires var s := After(acts); w < |s.writers| && s.writers[w].phase == Returned
    ensures var s := After(acts);
            var f, p := |s.finishes|, s.writers[w].preview;
            var t := After(acts + [CallFinish(w)] + [Unregister(f)] + [CloseOwn(f)]);
            && (p in t.live <==> p in s.live && s.live[p] != w) && (p in t.live ==> t.live[p] == s.live[p])
            && OthersStay(s, t, p) && OnlyShuts(s, t, w)
  {
    var f := |After(acts).finishes|;
    RunKeeps(acts);
    FinishRuns(After(acts), w);
    Then(acts, CallFinish(w));
    Then(acts + [CallFinish(w)], Unregister(f));
    Then(acts + [CallFinish(w)] + [Unregister(f)], CloseOwn(f));
  }

  lemma FinishRuns(s: Store, w: nat)
    requires Inv(s) && w < |s.writers| && s.writers[w].phase == Returned
    ensures var f, p := |s.finishes|, s.writers[w].preview;
            var called := Apply(s, CallFinish(w));
            && Enabled(called, Unregister(f)) && Enabled(Apply(called, Unregister(f)), CloseOwn(f))
            && var t := Apply(Apply(called, Unregister(f)), CloseOwn(f));
               && (p in t.live <==> p in s.live && s.live[p] != w) && (p in t.live ==> t.live[p] == s.live[p])
               && OthersStay(s, t, p) && OnlyShuts(s, t, w)
  {
  }

  /** Removing a preview takes its writer out and closes it at once. */
  lemma RemoveAlone(acts: seq<Act>, p: Preview)
    ensures var s, t := After(acts), After(acts + [Remove(p)]);
            && p !in t.live && OthersStay(s, t, p) && OnlyShuts(s, t, if p in s.live then s.live[p] else NONE)
  {
    RunKeeps(acts);
    Then(acts, Remove(p));
  }
}
