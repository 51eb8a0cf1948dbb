/**
 The life of a report, from the daemon's guard to the platform.

 `report` drops what a commit has already moved past, then hands the rest to the coalescer.
 The guard and the coalescer are under different locks, so a report is accepted in one step
 and sent in a later one.
 */
module Reports {
  import P = Publisher

  type PreviewId = P.PreviewId

  datatype ReportState = Queued | Building | Ready | Failed | Skipped | Unrecognised

  /** How far along its life a state is; what is not recognised counts as terminal. */
  function Rank(s: ReportState): nat {
    match s
    case Queued => 1
    case Building => 2
    case Ready | Failed | Skipped => 3
    case Unrecognised => 4
  }

  datatype Report = Report(preview: PreviewId, state: ReportState, commit: string)
  datatype Mark = Mark(commit: string, rank: nat)

  predicate IsStale(marks: map<PreviewId, Mark>, r: Report) {
    r.preview in marks && marks[r.preview].commit == r.commit && Rank(r.state) < marks[r.preview].rank
  }

  function Marked(marks: map<PreviewId, Mark>, r: Report): map<PreviewId, Mark> {
    if IsStale(marks, r) then marks else marks[r.preview := Mark(r.commit, Rank(r.state))]
  }

  /** An accepted report and how often its preview had been torn down by then. */
  datatype Accepted = Accepted(report: Report, life: nat)

  /** `sent[k]` is the accepted report behind the coalescer's k-th send. */
  datatype State = State(
    marks: map<PreviewId, Mark>,
    lives: map<PreviewId, nat>,
    last: map<PreviewId, nat>,
    accepted: seq<Accepted>,
    sent: seq<nat>,
    queue: P.Queue)

  const START := State(map[], map[], map[], [], [], P.EMPTY)

  function LifeOf(s: State, p: PreviewId): nat { if p in s.lives then s.lives[p] else 0 }

  datatype Step =
    | Submit(r: Report)                // staleReport
    | Teardown(p: PreviewId)           // forgets the mark
    | SendAccepted(i: nat, now: int)   // publisher.send
    | Coalesce(step: P.Step)           // a timer, Close, or a call to publish

  predicate Enabled(s: State, step: Step) {
    match step
    case SendAccepted(i, _) => i < |s.accepted| && i !in s.sent
    case Coalesce(step) => !step.Send? && P.Enabled(s.queue, step)
    case _ => true
  }

  function Apply(s: State, debounce: int, step: Step): State
    requires Enabled(s, step)
  {
    match step
    case Submit(r) =>
      if IsStale(s.marks, r) then s.(marks := Marked(s.marks, r))
      else s.(marks := Marked(s.marks, r), last := s.last[r.preview := |s.accepted|],
              accepted := s.accepted + [Accepted(r, LifeOf(s, r.preview))])
    case Teardown(p) =>
      s.(marks := s.marks - {p}, last := s.last - {p}, lives := s.lives[p := LifeOf(s, p) + 1])
    case SendAccepted(i, now) =>
      s.(sent := s.sent + [i], queue := P.DoSend(s.queue, s.accepted[i].report.preview, now, debounce))
    case Coalesce(step) => s.(queue := P.Apply(s.queue, debounce, step))
  }

  /** Sends of one preview follow acceptance: nothing accepted earlier is still to be sent. */
  predicate InOrder(s: State, step: Step) {
    step.SendAccepted? ==>
      forall j | 0 <= j < step.i && step.i < |s.accepted| ::
        s.accepted[j].report.preview == s.accepted[step.i].report.preview ==> j in s.sent
  }

  ghost predicate Moves(ordered: bool, debounce: int, run: seq<State>, i: nat)
    requires i + 1 < |run|
  {
    exists step :: Enabled(run[i], step) && (ordered ==> InOrder(run[i], step)) && run[i + 1] == Apply(run[i], debounce, step)
  }

  ghost predicate IsRun(ordered: bool, debounce: int, run: seq<State>) {
    |run| > 0 && run[0] == START
    && forall i: nat {:trigger Moves(ordered, debounce, run, i)} | i + 1 < |run| :: Moves(ordered, debounce, run, i)
  }

  // ---------------------------------------------------------------------------------------
  // The invariant
  // ---------------------------------------------------------------------------------------

  /** The mark of a preview is its newest accepted report since the last teardown. */
  predicate MarkOk(s: State, p: PreviewId) {
    && (p in s.marks <==> p in s.last)
    && (p in s.last ==>
          var l := s.last[p];
          && l < |s.accepted| && s.accepted[l].report.preview == p && s.accepted[l].life == LifeOf(s, p)
          && s.marks[p] == Mark(s.accepted[l].report.commit, Rank(s.accepted[l].report.state)))
  }

  predicate LastOk(s: State, p: PreviewId, j: nat)
    requires j < |s.accepted|
  {
    s.accepted[j].report.preview == p ==>
      && s.accepted[j].life <= LifeOf(s, p)
      && (p in s.last && s.last[p] < |s.accepted| ==> j <= s.last[p])
      && (p !in s.last ==> s.accepted[j].life < LifeOf(s, p))
  }

  /** Between a and b the preview reported on nothing but a's commit, in one life. */
  predicate OneCommit(s: State, a: nat, b: nat)
    requires a <= b < |s.accepted|
  {
    && s.accepted[a].report.preview == s.accepted[b].report.preview && s.accepted[a].life == s.accepted[b].life
    && forall c | a <= c <= b && s.accepted[c].report.preview == s.accepted[a].report.preview ::
         s.accepted[c].report.commit == s.accepted[a].report.commit
  }

  predicate RankOk(s: State, a: nat, b: nat)
    requires a <= b < |s.accepted|
  {
    OneCommit(s, a, b) ==> Rank(s.accepted[a].report.state) <= Rank(s.accepted[b].report.state)
  }

  predicate SentOk(s: State, k: nat)
    requires k < |s.sent|
  {
    s.sent[k] < |s.accepted| && k < |s.queue.sends| && s.queue.sends[k] == s.accepted[s.sent[k]].report.preview
  }

  ghost predicate Inv(s: State) {
    && (forall p {:trigger MarkOk(s, p)} :: MarkOk(s, p))
    && (forall p, j: nat {:trigger LastOk(s, p, j)} | j < |s.accepted| :: LastOk(s, p, j))
    && (forall a: nat, b: nat {:trigger RankOk(s, a, b)} | a <= b < |s.accepted| :: RankOk(s, a, b))
    && |s.sent| == |s.queue.sends| && (forall k: nat {:trigger SentOk(s, k)} | k < |s.sent| :: SentOk(s, k))
    && P.Inv(s.queue)
  }

  /** What follows a report of the same commit in the same life is the mark it was compared with. */
  lemma SubmitKeeps(s: State, debounce: int, r: Report)
    requires Inv(s)
    ensures Inv(Apply(s, debounce, Submit(r)))
  {
    var s', n, p := Apply(s, debounce, Submit(r)), |s.accepted|, r.preview;
    if !IsStale(s.marks, r) {
      assert MarkOk(s, p);
      forall q ensures MarkOk(s', q) { assert MarkOk(s, q); }
      forall q, j: nat | j < |s'.accepted| ensures LastOk(s', q, j) { if j < n { assert LastOk(s, q, j); } }
      forall a: nat, b: nat | a <= b < |s'.accepted| ensures RankOk(s', a, b) {
        if b < n {
          assert RankOk(s, a, b);
          if OneCommit(s', a, b) {
            forall c | a <= c <= b && s.accepted[c].report.preview == s.accepted[a].report.preview
              ensures s.accepted[c].report.commit == s.accepted[a].report.commit
            {
              assert s'.accepted[c] == s.accepted[c];
            }
          }
        } else if a < n && OneCommit(s', a, n) {
          assert LastOk(s, p, a);
          LastIsComparable(s, s', r, a);
        }
      }
      forall k: nat | k < |s'.sent| ensures SentOk(s', k) { assert SentOk(s, k); }
    }
  }

  lemma LastIsComparable(s: State, s': State, r: Report, a: nat)
    requires Inv(s) && !IsStale(s.marks, r) && a < |s.accepted|
    requires s'.accepted == s.accepted + [Accepted(r, LifeOf(s, r.preview))] && OneCommit(s', a, |s.accepted|)
    ensures Rank(s.accepted[a].report.state) <= Rank(r.state)
  {
    var p := r.preview;
    assert MarkOk(s, p) && LastOk(s, p, a);
    var l := s.last[p];
    assert s'.accepted[l] == s.accepted[l];
    assert OneCommit(s, a, l) by {
      forall c | a <= c <= l && s.accepted[c].report.preview == p
        ensures s.accepted[c].report.commit == s.accepted[a].report.commit
      {
        assert s'.accepted[c] == s.accepted[c];
      }
    }
    assert RankOk(s, a, l);
  }

  lemma StepKeeps(s: State, debounce: int, step: Step)
    requires Inv(s) && Enabled(s, step)
    ensures Inv(Apply(s, debounce, step))
  {
    var s' := Apply(s, debounce, step);
    if step.Submit? {
      SubmitKeeps(s, debounce, step.r);
    } else {
      forall p ensures MarkOk(s', p) { assert MarkOk(s, p); }
      forall p, j: nat | j < |s'.accepted| ensures LastOk(s', p, j) { assert LastOk(s, p, j); }
      forall a: nat, b: nat | a <= b < |s'.accepted| ensures RankOk(s', a, b) {
        assert RankOk(s, a, b) && OneCommit(s, a, b) == OneCommit(s', a, b);
      }
      forall k: nat | k < |s'.sent| ensures SentOk(s', k) { if k < |s.sent| { assert SentOk(s, k); } }
      match step
      case SendAccepted(i, now) => P.SendKeeps(s.queue, s.accepted[i].report.preview, now, debounce);
      case Coalesce(c) => P.StepKeeps(s.queue, debounce, c);
      case Teardown(_) =>
    }
  }

  lemma {:induction false} RunKeeps(ordered: bool, debounce: int, run: seq<State>, i: nat)
    requires IsRun(ordered, debounce, run) && i < |run|
    ensures Inv(run[i])
  {
    if i == 0 {
      P.NothingYet();
      forall p ensures MarkOk(START, p) {}
    } else {
      RunKeeps(ordered, debounce, run, i - 1);
      assert Moves(ordered, debounce, run, i - 1);
      var step :| Enabled(run[i - 1], step) && (ordered ==> InOrder(run[i - 1], step))
                  && run[i] == Apply(run[i - 1], debounce, step);
      StepKeeps(run[i - 1], debounce, step);
    }
  }

  // ---------------------------------------------------------------------------------------
  // Sends in acceptance order
  // ---------------------------------------------------------------------------------------

  /** What was accepted before a sent report of its preview has been sent before it. */
  predicate ClosedOk(s: State, k: nat, j: nat)
    requires k < |s.sent| && j < |s.accepted|
  {
    s.sent[k] < |s.accepted| && j < s.sent[k] && s.accepted[j].report.preview == s.accepted[s.sent[k]].report.preview
    ==> j in s.sent
  }

  predicate OrderOk(s: State, k: nat, l: nat)
    requires k < |s.sent| && l < |s.sent|
  {
    k < l && s.sent[k] < |s.accepted| && s.sent[l] < |s.accepted|
    && s.accepted[s.sent[k]].report.preview == s.accepted[s.sent[l]].report.preview
    ==> s.sent[k] < s.sent[l]
  }

  ghost predicate Ordered(s: State) {
    && (forall k: nat, j: nat {:trigger ClosedOk(s, k, j)} | k < |s.sent| && j < |s.accepted| :: ClosedOk(s, k, j))
    && (forall k: nat, l: nat {:trigger OrderOk(s, k, l)} | k < |s.sent| && l < |s.sent| :: OrderOk(s, k, l))
  }

  lemma StepStaysOrdered(s: State, debounce: int, step: Step)
    requires Inv(s) && Ordered(s) && Enabled(s, step) && InOrder(s, step)
    ensures Ordered(Apply(s, debounce, step))
  {
    var s' := Apply(s, debounce, step);
    forall k: nat, j: nat | k < |s'.sent| && j < |s'.accepted| ensures ClosedOk(s', k, j) {
      if k < |s.sent| {
        assert SentOk(s, k);
        if j < |s.accepted| { assert ClosedOk(s, k, j); }
      }
    }
    forall k: nat, l: nat | k < |s'.sent| && l < |s'.sent| ensures OrderOk(s', k, l) {
      if k < |s.sent| {
        assert SentOk(s, k);
        if l < |s.sent| { assert OrderOk(s, k, l) && SentOk(s, l); } else { assert ClosedOk(s, k, step.i); }
      }
    }
  }

  lemma {:induction false} RunStaysOrdered(debounce: int, run: seq<State>, i: nat)
    requires IsRun(true, debounce, run) && i < |run|
    ensures Ordered(run[i])
  {
    if i > 0 {
      RunStaysOrdered(debounce, run, i - 1);
      RunKeeps(true, debounce, run, i - 1);
      assert Moves(true, debounce, run, i - 1);
      var step :| Enabled(run[i - 1], step) && InOrder(run[i - 1], step) && run[i] == Apply(run[i - 1], debounce, step);
      StepStaysOrdered(run[i - 1], debounce, step);
    }
  }

  // ---------------------------------------------------------------------------------------
  // Main results
  // ---------------------------------------------------------------------------------------

  /** Between teardowns, the reports accepted for an unbroken run of one commit never go back
      to an earlier state, in whatever order they were made. */
  lemma AcceptedRanksDoNotDrop(ordered: bool, debounce: int, run: seq<State>, i: nat, a: nat, b: nat)
    requires IsRun(ordered, debounce, run) && i < |run|
    requires a <= b < |run[i].accepted| && OneCommit(run[i], a, b)
    ensures Rank(run[i].accepted[a].report.state) <= Rank(run[i].accepted[b].report.state)
  {
    RunKeeps(ordered, debounce, run, i);
    assert RankOk(run[i], a, b);
  }

  /** l is the newest report accepted for p in its current life. */
  predicate NewestInLife(s: State, p: PreviewId, l: nat) {
    && l < |s.accepted| && s.accepted[l].report.preview == p && s.accepted[l].life == LifeOf(s, p)
    && forall j | l < j < |s.accepted| :: s.accepted[j].report.preview != p
  }

  /** A report is dropped exactly when the newest report accepted in this life is of the same
      commit and further along. */
  lemma DroppedExactlyWhenPassed(ordered: bool, debounce: int, run: seq<State>, i: nat, r: Report)
    requires IsRun(ordered, debounce, run) && i < |run|
    ensures IsStale(run[i].marks, r) <==>
            exists l: nat :: NewestInLife(run[i], r.preview, l)
              && run[i].accepted[l].report.commit == r.commit && Rank(r.state) < Rank(run[i].accepted[l].report.state)
  {
    RunKeeps(ordered, debounce, run, i);
    var s, p := run[i], r.preview;
    assert MarkOk(s, p);
    forall j: nat | j < |s.accepted| ensures LastOk(s, p, j) {}
    if p in s.last {
      assert NewestInLife(s, p, s.last[p]) by {
        forall j | s.last[p] < j < |s.accepted| ensures s.accepted[j].report.preview != p { assert LastOk(s, p, j); }
      }
      forall l: nat | NewestInLife(s, p, l) ensures l == s.last[p] { assert LastOk(s, p, l); }
    } else {
      forall l: nat ensures !NewestInLife(s, p, l) { if l < |s.accepted| { assert LastOk(s, p, l); } }
    }
  }

  /** The life of a build on one commit: queued, then building, then one of ready, failed and
      skipped; what is not recognised comes after all of them. */
  predicate GoesBack(from: ReportState, to: ReportState) {
    match to
    case Queued => !from.Queued?
    case Building => !from.Queued? && !from.Building?
    case Ready | Failed | Skipped => from.Unrecognised?
    case Unrecognised => false
  }

  /** In those terms: a report is dropped exactly when it goes back behind the newest one accepted
      for its commit in this life. */
  lemma DroppedExactlyWhenItGoesBack(ordered: bool, debounce: int, run: seq<State>, i: nat, r: Report)
    requires IsRun(ordered, debounce, run) && i < |run|
    ensures Apply(run[i], debounce, Submit(r)).accepted == run[i].accepted <==>
            exists l: nat :: NewestInLife(run[i], r.preview, l)
              && run[i].accepted[l].report.commit == r.commit && GoesBack(run[i].accepted[l].report.state, r.state)
    ensures Apply(run[i], debounce, Submit(r)).accepted != run[i].accepted ==>
            Apply(run[i], debounce, Submit(r)).accepted == run[i].accepted + [Accepted(r, LifeOf(run[i], r.preview))]
  {
    DroppedExactlyWhenPassed(ordered, debounce, run, i, r);
    var s := run[i];
    if IsStale(s.marks, r) {
      var l: nat :| NewestInLife(s, r.preview, l)
        && s.accepted[l].report.commit == r.commit && Rank(r.state) < Rank(s.accepted[l].report.state);
      assert GoesBack(s.accepted[l].report.state, r.state);
    } else {
      assert |Apply(s, debounce, Submit(r)).accepted| == |s.accepted| + 1;
    }
  }

  /** And what is accepted for one commit in one life never goes back. */
  lemma AcceptedNeverGoesBack(ordered: bool, debounce: int, run: seq<State>, i: nat, a: nat, b: nat)
    requires IsRun(ordered, debounce, run) && i < |run|
    requires a <= b < |run[i].accepted| && OneCommit(run[i], a, b)
    ensures !GoesBack(run[i].accepted[a].report.state, run[i].accepted[b].report.state)
  {
    AcceptedRanksDoNotDrop(ordered, debounce, run, i, a, b);
  }

  predicate IsFinal(s: ReportState) { s.Ready? || s.Failed? || s.Skipped? }

  /** The ordinary life of a commit passes the guard, from any state in which nothing was reported on
      it, be it in the first life of its preview or after a teardown. */
  lemma LifecycleIsAccepted(s: State, debounce: int, p: PreviewId, c: string, end: ReportState)
    requires IsFinal(end) && !(p in s.marks && s.marks[p].commit == c)
    ensures var q, b, e := Report(p, Queued, c), Report(p, Building, c), Report(p, end, c);
            var t := Apply(Apply(Apply(s, debounce, Submit(q)), debounce, Submit(b)), debounce, Submit(e));
            t.accepted == s.accepted + [Accepted(q, LifeOf(s, p)), Accepted(b, LifeOf(s, p)), Accepted(e, LifeOf(s, p))]
  {
  }

  /** A teardown starts a new life: whatever was reported before, the first report passes. */
  lemma TeardownStartsAfresh(s: State, debounce: int, r: Report)
    ensures var t := Apply(Apply(s, debounce, Teardown(r.preview)), debounce, Submit(r));
            t.accepted == s.accepted + [Accepted(r, LifeOf(s, r.preview) + 1)]
  {
  }

  /** With sends in acceptance order, what is taken for the platform is a subsequence of what
      was accepted, so the comment never goes back while it stays on one commit. */
  lemma HandedOverInAcceptedOrder(debounce: int, run: seq<State>, i: nat, x: nat, y: nat)
    requires IsRun(true, debounce, run) && i < |run| && x < y < |run[i].queue.taken|
    ensures var s := run[i];
            && s.queue.taken[x] < |s.sent| && s.queue.taken[y] < |s.sent|
            && s.sent[s.queue.taken[x]] < |s.accepted| && s.sent[s.queue.taken[y]] < |s.accepted|
            && var a, b := s.sent[s.queue.taken[x]], s.sent[s.queue.taken[y]];
               s.accepted[a].report.preview == s.accepted[b].report.preview ==>
                 a < b && (OneCommit(s, a, b) ==> !GoesBack(s.accepted[a].report.state, s.accepted[b].report.state))
  {
    RunKeeps(true, debounce, run, i);
    RunStaysOrdered(debounce, run, i);
    var s := run[i];
    assert P.TakenOk(s.queue, x, y);
    var k, l := s.queue.taken[x], s.queue.taken[y];
    assert SentOk(s, k) && SentOk(s, l) && OrderOk(s, k, l);
    if k < l && s.sent[k] < s.sent[l] { assert RankOk(s, s.sent[k], s.sent[l]); }
  }

  /** And once the coalescer is closed with nothing in flight, the last report accepted for a
      preview was handed over, if it was sent at all. */
  lemma LastAcceptedIsHandedOver(debounce: int, run: seq<State>, i: nat, k: nat)
    requires IsRun(true, debounce, run) && i < |run| && k < |run[i].sent|
    requires run[i].queue.stopped && P.InFlight(run[i].queue) == {}
    requires run[i].sent[k] < |run[i].accepted|
    requires forall j | run[i].sent[k] < j < |run[i].accepted| ::
               run[i].accepted[j].report.preview != run[i].accepted[run[i].sent[k]].report.preview
    ensures P.Times(run[i].queue.published, k) == 1
  {
    RunKeeps(true, debounce, run, i);
    RunStaysOrdered(debounce, run, i);
    var s := run[i];
    var q := s.queue;
    assert SentOk(s, k) && P.Placed(q, k) && P.ReplacedOk(q, k) && P.PendingOk(q, q.sends[k]);
    forall l | k < l < |q.sends| ensures q.sends[l] != q.sends[k] {
      assert SentOk(s, l) && OrderOk(s, k, l);
    }
    P.DistinctOnce(q.published, k);
  }

  // ---------------------------------------------------------------------------------------
  // What the platform ends on
  // ---------------------------------------------------------------------------------------

  /** Among the reports of its preview, send k is the last in this list. */
  ghost predicate EndsOn(q: P.Queue, ids: seq<P.SendId>, k: P.SendId)
    requires k < |q.sends|
  {
    exists x :: 0 <= x < |ids| && ids[x] == k
      && forall y | x < y < |ids| :: ids[y] < |q.sends| && q.sends[ids[y]] != q.sends[k]
  }

  /** Reports of one preview stand in the list in the order they were sent. */
  ghost predicate InSendOrder(q: P.Queue, ids: seq<P.SendId>) {
    && (forall x | 0 <= x < |ids| :: ids[x] < |q.sends|)
    && (forall x, y | 0 <= x < y < |ids| :: q.sends[ids[x]] == q.sends[ids[y]] ==> ids[x] < ids[y])
  }

  lemma {:induction false} LastSend(q: P.Queue, k: P.SendId, n: nat) returns (l: P.SendId)
    requires k < n <= |q.sends|
    ensures k <= l < n && q.sends[l] == q.sends[k] && forall j | l < j < n :: q.sends[j] != q.sends[k]
  {
    if n == k + 1 {
      l := k;
    } else if q.sends[n - 1] == q.sends[k] {
      l := n - 1;
    } else {
      l := LastSend(q, k, n - 1);
    }
  }

  /** A list in send order that has the last send of every preview ends on exactly that. */
  lemma EndsOnLastExactly(q: P.Queue, ids: seq<P.SendId>, k: P.SendId)
    requires InSendOrder(q, ids) && k < |q.sends|
    requires forall l | 0 <= l < |q.sends| && P.LastOf(q, l) :: l in ids
    ensures EndsOn(q, ids, k) <==> P.LastOf(q, k)
  {
    if P.LastOf(q, k) {
      var x :| 0 <= x < |ids| && ids[x] == k;
    }
    if EndsOn(q, ids, k) {
      var l := LastSend(q, k, |q.sends|);
      var x := WhereEnds(q, ids, k);
      var y := WhereIs(ids, l);
      assert y <= x && (y < x ==> l < k);
    }
  }

  lemma WhereEnds(q: P.Queue, ids: seq<P.SendId>, k: P.SendId) returns (x: nat)
    requires k < |q.sends| && EndsOn(q, ids, k)
    ensures x < |ids| && ids[x] == k && forall y | x < y < |ids| :: ids[y] < |q.sends| && q.sends[ids[y]] != q.sends[k]
  {
    x :| 0 <= x < |ids| && ids[x] == k
         && forall y | x < y < |ids| :: ids[y] < |q.sends| && q.sends[ids[y]] != q.sends[k];
  }

  lemma WhereIs(ids: seq<P.SendId>, l: P.SendId) returns (y: nat)
    requires l in ids
    ensures y < |ids| && ids[y] == l
  {
    y :| 0 <= y < |ids| && ids[y] == l;
  }

  /** In every run, whether or not sends followed acceptance: once the coalescer is closed with
      nothing in flight, the report of a preview that was handed over last is the one that was sent
      last; and if the calls landed in order, it is what the platform is left with. */
  lemma PlatformEndsOnTheLastSent(ordered: bool, debounce: int, run: seq<State>, i: nat, k: nat)
    requires IsRun(ordered, debounce, run) && i < |run| && k < |run[i].queue.sends|
    requires run[i].queue.stopped && P.InFlight(run[i].queue) == {}
    ensures EndsOn(run[i].queue, run[i].queue.taken, k) <==> P.LastOf(run[i].queue, k)
    ensures P.Serial(run[i].queue) ==> (EndsOn(run[i].queue, run[i].queue.published, k) <==> P.LastOf(run[i].queue, k))
  {
    RunKeeps(ordered, debounce, run, i);
    var q := run[i].queue;
    LastsAreHandedOver(q);
    TakenIsInSendOrder(q);
    EndsOnLastExactly(q, q.taken, k);
    if P.Serial(q) {
      PublishedIsInSendOrder(q);
      EndsOnLastExactly(q, q.published, k);
    }
  }

  lemma LastsAreHandedOver(q: P.Queue)
    requires P.Inv(q) && q.stopped && P.InFlight(q) == {}
    ensures forall l | 0 <= l < |q.sends| && P.LastOf(q, l) :: l in q.taken && l in q.published
  {
    forall l | 0 <= l < |q.sends| && P.LastOf(q, l) ensures l in q.taken && l in q.published {
      assert P.Placed(q, l) && P.ReplacedOk(q, l);
    }
  }

  lemma TakenIsInSendOrder(q: P.Queue)
    requires P.Inv(q)
    ensures InSendOrder(q, q.taken)
  {
    forall x | 0 <= x < |q.taken| ensures q.taken[x] < |q.sends| { assert P.TakenOk(q, x, x); }
    forall x, y | 0 <= x < y < |q.taken| && q.sends[q.taken[x]] == q.sends[q.taken[y]]
      ensures q.taken[x] < q.taken[y]
    {
      assert P.TakenOk(q, x, y);
    }
  }

  lemma PublishedIsInSendOrder(q: P.Queue)
    requires P.Serial(q)
    ensures InSendOrder(q, q.published)
  {
    forall x | 0 <= x < |q.published| ensures q.published[x] < |q.sends| { assert P.LandedOk(q, x, x); }
    forall x, y | 0 <= x < y < |q.published| && q.sends[q.published[x]] == q.sends[q.published[y]]
      ensures q.published[x] < q.published[y]
    {
      assert P.LandedOk(q, x, y);
    }
  }

  /** Send k of a preview, and another one of it that came later and carried an older report. */
  predicate OlderAfter(s: State, k: nat, l: nat) {
    k < l < |s.sent| && l < |s.queue.sends| && s.queue.sends[l] == s.queue.sends[k] && s.sent[l] < s.sent[k]
  }

  /** Of the reports of its preview that were sent, send k carried the newest. */
  predicate NewestSent(s: State, k: nat)
    requires k < |s.sent| && k < |s.queue.sends|
  {
    forall l | 0 <= l < |s.sent| && l < |s.queue.sends| :: s.queue.sends[l] == s.queue.sends[k] ==> s.sent[l] <= s.sent[k]
  }

  /** So the platform ends on the newest report of a preview that was accepted and sent exactly when
      no older one was sent after it. */
  lemma NewestIsFinalExactly(ordered: bool, debounce: int, run: seq<State>, i: nat, k: nat)
    requires IsRun(ordered, debounce, run) && i < |run| && k < |run[i].sent| && k < |run[i].queue.sends|
    requires run[i].queue.stopped && P.InFlight(run[i].queue) == {} && NewestSent(run[i], k)
    ensures EndsOn(run[i].queue, run[i].queue.taken, k) <==> forall l :: !OlderAfter(run[i], k, l)
  {
    RunKeeps(ordered, debounce, run, i);
    SentOnce(ordered, debounce, run, i);
    PlatformEndsOnTheLastSent(ordered, debounce, run, i, k);
    var s := run[i];
    forall l | k < l < |s.sent| && s.queue.sends[l] == s.queue.sends[k] ensures OlderAfter(s, k, l) {}
  }

  /** No accepted report is sent twice. */
  lemma {:induction false} SentOnce(ordered: bool, debounce: int, run: seq<State>, i: nat)
    requires IsRun(ordered, debounce, run) && i < |run|
    ensures forall k, l | 0 <= k < l < |run[i].sent| :: run[i].sent[k] != run[i].sent[l]
  {
    if i > 0 {
      SentOnce(ordered, debounce, run, i - 1);
      assert Moves(ordered, debounce, run, i - 1);
      var step :| Enabled(run[i - 1], step) && (ordered ==> InOrder(run[i - 1], step))
                  && run[i] == Apply(run[i - 1], debounce, step);
      forall k, l | 0 <= k < l < |run[i].sent| ensures run[i].sent[k] != run[i].sent[l] {
        if l == |run[i - 1].sent| { assert run[i].sent[k] in run[i - 1].sent; }
      }
    }
  }

  lemma Extend(debounce: int, run: seq<State>, step: Step) returns (longer: seq<State>)
    requires IsRun(false, debounce, run) && Enabled(run[|run| - 1], step)
    ensures IsRun(false, debounce, longer) && longer[|longer| - 1] == Apply(run[|run| - 1], debounce, step)
  {
    longer := run + [Apply(run[|run| - 1], debounce, step)];
    forall i: nat | i + 1 < |longer| ensures Moves(false, debounce, longer, i) {
      if i + 1 < |run| {
        assert Moves(false, debounce, run, i);
        assert longer[i] == run[i] && longer[i + 1] == run[i + 1];
      } else {
        assert longer[i] == run[|run| - 1];
      }
    }
  }

  lemma SentInTheOtherOrder(p: PreviewId, debounce: int) returns (run: seq<State>)
    ensures IsRun(false, debounce, run)
    ensures var s := run[|run| - 1];
            && s.accepted == [Accepted(Report(p, Building, "c"), 0), Accepted(Report(p, Ready, "c"), 0)]
            && s.sent == [1, 0] && s.queue.replaced == {0} && !s.queue.stopped
            && s.queue.pending == map[p := P.Pending(1, debounce, 0)] && s.queue.published == []
            && s.queue.counted == {} && s.queue.closing == []
  {
    run := [START];
    run := Extend(debounce, run, Submit(Report(p, Building, "c")));
    run := Extend(debounce, run, Submit(Report(p, Ready, "c")));
    run := Extend(debounce, run, SendAccepted(1, 0));
    run := Extend(debounce, run, SendAccepted(0, 0));
  }

  /** The guard and the send are not under one lock. When two accepted reports are sent in the
      other order, the platform is left saying "building" for a build that is ready. */
  lemma ReadyIsOvertakenByBuilding(p: PreviewId, debounce: int) returns (run: seq<State>)
    ensures IsRun(false, debounce, run)
    ensures var s := run[|run| - 1];
            && s.queue.stopped && P.InFlight(s.queue) == {} && s.queue.published == [1]
            && s.sent == [1, 0] && s.accepted == [Accepted(Report(p, Building, "c"), 0), Accepted(Report(p, Ready, "c"), 0)]
  {
    run := SentInTheOtherOrder(p, debounce);
    var taken := P.Entries(run[|run| - 1].queue, [p]);
    assert taken == [1];
    run := Extend(debounce, run, Coalesce(P.Stop([p])));
    run := Extend(debounce, run, Coalesce(P.Publish(1)));
  }
}
