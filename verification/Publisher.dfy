/**
 The report coalescer: a debounced, last-write-wins queue in front of the platform.

 `send`, a timer's `flush` and `Close` each have one critical section; the calls to `publish`
 happen outside the lock, on timer goroutines, on the goroutines of late senders, or in
 `Close`'s own loop. Reports are identified by their place in the history of sends.
 */
module Publisher {
  type PreviewId = string
  type SendId = nat

  /** `opener` is the send that found nothing waiting, and set the timer. */
  datatype Pending = Pending(id: SendId, deadline: int, opener: SendId)

  /** `times` are when the sends came. `counted` are the calls the wait group counts, `closing` those
      that Close's own loop has still to make, in its order. */
  datatype Queue = Queue(
    pending: map<PreviewId, Pending>,
    stopped: bool,
    sends: seq<PreviewId>,
    times: seq<int>,
    taken: seq<SendId>,
    counted: set<SendId>,
    closing: seq<SendId>,
    published: seq<SendId>,
    replaced: set<SendId>)

  const EMPTY := Queue(map[], false, [], [], [], {}, [], [], {})

  // ---------------------------------------------------------------------------------------
  // The critical sections and the calls to publish
  // ---------------------------------------------------------------------------------------

  function DoSend(q: Queue, p: PreviewId, now: int, debounce: int): Queue {
    var id, sends, times := |q.sends|, q.sends + [p], q.times + [now];
    if q.stopped then
      q.(sends := sends, times := times, taken := q.taken + [id], counted := q.counted + {id})
    else if p in q.pending then
      q.(sends := sends, times := times, replaced := q.replaced + {q.pending[p].id},
         pending := q.pending[p := q.pending[p].(id := id)])
    else
      q.(sends := sends, times := times, pending := q.pending[p := Pending(id, now + debounce, id)])
  }

  function DoFlush(q: Queue, p: PreviewId): Queue {
    if p !in q.pending then q
    else q.(pending := q.pending - {p}, taken := q.taken + [q.pending[p].id], counted := q.counted + {q.pending[p].id})
  }

  /** order lists the previews that were pending, each once, however the map is iterated. */
  predicate Lists(q: Queue, order: seq<PreviewId>) {
    && (forall i | 0 <= i < |order| :: order[i] in q.pending)
    && (forall p | p in q.pending :: p in order)
    && (forall i, j | 0 <= i < j < |order| :: order[i] != order[j])
  }

  function Entries(q: Queue, order: seq<PreviewId>): (ids: seq<SendId>)
    requires forall i | 0 <= i < |order| :: order[i] in q.pending
    ensures |ids| == |order|
    ensures forall i | 0 <= i < |ids| :: ids[i] == q.pending[order[i]].id
  {
    seq(|order|, i requires 0 <= i < |order| => q.pending[order[i]].id)
  }

  function DoStop(q: Queue, order: seq<PreviewId>): Queue
    requires Lists(q, order)
  {
    q.(stopped := true, pending := map[], taken := q.taken + Entries(q, order),
       closing := q.closing + Entries(q, order))
  }

  function DoPublish(q: Queue, id: SendId): Queue {
    q.(published := q.published + [id], counted := q.counted - {id},
       closing := if IsNext(q, id) then q.closing[1..] else q.closing)
  }

  /** The call that Close's loop makes next. */
  predicate IsNext(q: Queue, id: SendId) { q.closing != [] && q.closing[0] == id }

  function InFlight(q: Queue): set<SendId> { q.counted + set id | id in q.closing }

  // ---------------------------------------------------------------------------------------
  // Runs
  // ---------------------------------------------------------------------------------------

  datatype Step =
    | Send(p: PreviewId, now: int)
    | Flush(p: PreviewId)
    | Stop(order: seq<PreviewId>)
    | Publish(id: SendId)

  predicate Enabled(q: Queue, step: Step) {
    match step
    case Stop(order) => !q.stopped && Lists(q, order)
    case Publish(id) => id in q.counted || IsNext(q, id)
    case _ => true
  }

  function Apply(q: Queue, debounce: int, step: Step): Queue
    requires Enabled(q, step)
  {
    match step
    case Send(p, now) => DoSend(q, p, now, debounce)
    case Flush(p) => DoFlush(q, p)
    case Stop(order) => DoStop(q, order)
    case Publish(id) => DoPublish(q, id)
  }

  ghost predicate Moves(debounce: int, run: seq<Queue>, i: nat)
    requires i + 1 < |run|
  {
    exists step :: Enabled(run[i], step) && run[i + 1] == Apply(run[i], debounce, step)
  }

  /** Any interleaving of senders, timers, closers and platform calls. A flush may come at
      any time: a timer that fired and found the lock taken flushes after Close. */
  ghost predicate IsRun(debounce: int, run: seq<Queue>) {
    |run| > 0 && run[0] == EMPTY
    && forall i: nat {:trigger Moves(debounce, run, i)} | i + 1 < |run| :: Moves(debounce, run, i)
  }

  // ---------------------------------------------------------------------------------------
  // The invariant
  // ---------------------------------------------------------------------------------------

  predicate IsPending(q: Queue, id: SendId)
    requires id < |q.sends|
  {
    q.sends[id] in q.pending && q.pending[q.sends[id]].id == id
  }

  /** A send is in exactly one place: waiting, replaced, with a caller, or published. */
  predicate Placed(q: Queue, id: SendId)
    requires id < |q.sends|
  {
    && (IsPending(q, id) || id in q.replaced || id in InFlight(q) || id in q.published)
    && (IsPending(q, id) ==> id !in q.replaced && id !in q.taken)
    && (id in q.replaced ==> id !in q.taken)
    && (id in q.counted ==> id !in q.closing)
    && (id in InFlight(q) ==> id !in q.published)
    && (id in InFlight(q) || id in q.published <==> id in q.taken)
  }

  /** Only the newest send of a preview waits; only an overtaken one is replaced. */
  predicate PendingOk(q: Queue, p: PreviewId) {
    p in q.pending ==>
      && q.pending[p].id < |q.sends| && q.sends[q.pending[p].id] == p
      && forall j | q.pending[p].id < j < |q.sends| :: q.sends[j] != p
  }

  predicate ReplacedOk(q: Queue, id: SendId) {
    id in q.replaced ==> id < |q.sends| && exists j :: id < j < |q.sends| && q.sends[j] == q.sends[id]
  }

  predicate Known(q: Queue, id: SendId) {
    id in q.published || id in q.taken || id in InFlight(q) ==> id < |q.sends|
  }

  /** Places in `taken` follow the order of sends, preview by preview. */
  predicate TakenOk(q: Queue, a: nat, b: nat)
    requires a < |q.taken| && b < |q.taken|
  {
    q.taken[a] < |q.sends| && q.taken[b] < |q.sends|
    && (a < b && q.sends[q.taken[a]] == q.sends[q.taken[b]] ==> q.taken[a] < q.taken[b])
  }

  /** Close's loop has at most one entry of a preview. */
  predicate ClosingOk(q: Queue, a: nat, b: nat)
    requires a < |q.closing| && b < |q.closing|
  {
    q.closing[a] < |q.sends| && q.closing[b] < |q.sends|
    && (a != b ==> q.sends[q.closing[a]] != q.sends[q.closing[b]])
  }

  ghost predicate Inv(q: Queue) {
    && (q.stopped ==> q.pending == map[]) && (!q.stopped ==> q.closing == [])
    && (forall a: nat, b: nat {:trigger ClosingOk(q, a, b)} | a < |q.closing| && b < |q.closing| :: ClosingOk(q, a, b))
    && (forall id: nat {:trigger Placed(q, id)} | id < |q.sends| :: Placed(q, id))
    && (forall p {:trigger PendingOk(q, p)} :: PendingOk(q, p))
    && (forall id: nat {:trigger ReplacedOk(q, id)} :: ReplacedOk(q, id))
    && (forall a: nat, b: nat {:trigger TakenOk(q, a, b)} | a < |q.taken| && b < |q.taken| :: TakenOk(q, a, b))
    && (forall i, j | 0 <= i < j < |q.published| :: q.published[i] != q.published[j])
    && (forall id: nat {:trigger Known(q, id)} :: Known(q, id))
  }

  lemma SendKeeps(q: Queue, p: PreviewId, now: int, debounce: int)
    requires Inv(q)
    ensures Inv(DoSend(q, p, now, debounce))
  {
    var q', n := DoSend(q, p, now, debounce), |q.sends|;
    assert PendingOk(q, p) && Known(q, n) && ReplacedOk(q, n);
    if p in q.pending { assert Placed(q, q.pending[p].id); }
    forall id: nat ensures Known(q', id) { assert Known(q, id); }
    forall id: nat | id < |q'.sends| ensures Placed(q', id) {
      if id < n { assert Placed(q, id) && PendingOk(q, q.sends[id]); }
    }
    forall r ensures PendingOk(q', r) { assert PendingOk(q, r); }
    forall id: nat ensures ReplacedOk(q', id) {
      assert ReplacedOk(q, id) && q'.sends[n] == p;
      if id in q.replaced {
        var j :| id < j < n && q.sends[j] == q.sends[id];
        assert q'.sends[j] == q'.sends[id];
      }
    }
    forall a: nat, b: nat | a < |q'.closing| && b < |q'.closing| ensures ClosingOk(q', a, b) { assert ClosingOk(q, a, b); }
    forall a: nat, b: nat | a < |q'.taken| && b < |q'.taken| ensures TakenOk(q', a, b) {
      if a < |q.taken| && b < |q.taken| { assert TakenOk(q, a, b); }
      if a < |q.taken| { assert TakenOk(q, a, a); }
      if b < |q.taken| { assert TakenOk(q, b, b); }
    }
  }

  lemma FlushKeeps(q: Queue, p: PreviewId)
    requires Inv(q)
    ensures Inv(DoFlush(q, p))
  {
    var q' := DoFlush(q, p);
    assert PendingOk(q, p);
    if p in q.pending {
      var e := q.pending[p].id;
      assert Placed(q, e);
      forall id: nat ensures Known(q', id) { assert Known(q, id); }
      forall id: nat | id < |q'.sends| ensures Placed(q', id) { assert Placed(q, id); }
      forall r ensures PendingOk(q', r) { assert PendingOk(q, r); }
      forall id: nat ensures ReplacedOk(q', id) { assert ReplacedOk(q, id); }
      forall a: nat, b: nat | a < |q'.taken| && b < |q'.taken| ensures TakenOk(q', a, b) {
        if a < |q.taken| && b < |q.taken| { assert TakenOk(q, a, b); }
        if a < |q.taken| { assert TakenOk(q, a, a) && q.taken[a] in q.taken; }
        if b < |q.taken| { assert TakenOk(q, b, b) && q.taken[b] in q.taken; }
      }
    }
  }

  /** What Close takes is what was waiting, one entry for each preview. */
  lemma WhatStopTakes(q: Queue, order: seq<PreviewId>)
    requires Inv(q) && Lists(q, order)
    ensures forall i | 0 <= i < |order| ::
              var id := Entries(q, order)[i]; id < |q.sends| && q.sends[id] == order[i] && IsPending(q, id)
    ensures forall id: nat | id < |q.sends| :: id in Entries(q, order) <==> IsPending(q, id)
  {
    var ids := Entries(q, order);
    forall i | 0 <= i < |order| ensures ids[i] < |q.sends| && q.sends[ids[i]] == order[i] && IsPending(q, ids[i]) {
      assert PendingOk(q, order[i]);
    }
    forall id: nat | id < |q.sends| && IsPending(q, id) ensures id in ids {
      var i :| 0 <= i < |order| && order[i] == q.sends[id];
      assert ids[i] == id;
    }
  }

  lemma StopPlaces(q: Queue, order: seq<PreviewId>, id: SendId)
    requires Inv(q) && !q.stopped && Lists(q, order) && id < |q.sends|
    ensures Placed(DoStop(q, order), id)
  {
    var q', ids := DoStop(q, order), Entries(q, order);
    WhatStopTakes(q, order);
    assert Placed(q, id) && Known(q, id);
    assert id in q'.taken <==> id in q.taken || id in ids;
    assert q'.closing == ids;
  }

  lemma StopKnows(q: Queue, order: seq<PreviewId>, id: SendId)
    requires Inv(q) && !q.stopped && Lists(q, order)
    ensures Known(DoStop(q, order), id)
  {
    var ids := Entries(q, order);
    WhatStopTakes(q, order);
    assert Known(q, id);
    if id in ids { var i :| 0 <= i < |order| && ids[i] == id; }
  }

  lemma StopCloses(q: Queue, order: seq<PreviewId>, a: nat, b: nat)
    requires Inv(q) && !q.stopped && Lists(q, order)
    requires a < |DoStop(q, order).closing| && b < |DoStop(q, order).closing|
    ensures ClosingOk(DoStop(q, order), a, b)
  {
    WhatStopTakes(q, order);
    assert DoStop(q, order).closing == Entries(q, order);
  }

  lemma StopTakes(q: Queue, order: seq<PreviewId>, a: nat, b: nat)
    requires Inv(q) && !q.stopped && Lists(q, order)
    requires a < |DoStop(q, order).taken| && b < |DoStop(q, order).taken|
    ensures TakenOk(DoStop(q, order), a, b)
  {
    WhatStopTakes(q, order);
    if a < |q.taken| { assert TakenOk(q, a, a) && q.taken[a] in q.taken && Placed(q, q.taken[a]); }
    if b < |q.taken| { assert TakenOk(q, b, b) && q.taken[b] in q.taken && Placed(q, q.taken[b]); }
    if a < |q.taken| && b < |q.taken| { assert TakenOk(q, a, b); }
    if |q.taken| <= b { assert PendingOk(q, order[b - |q.taken|]); }
  }

  /** Close takes exactly the newest send of every preview that still had one waiting. */
  lemma StopKeeps(q: Queue, order: seq<PreviewId>)
    requires Inv(q) && !q.stopped && Lists(q, order)
    ensures Inv(DoStop(q, order))
  {
    var q' := DoStop(q, order);
    forall a: nat, b: nat | a < |q'.closing| && b < |q'.closing| ensures ClosingOk(q', a, b) { StopCloses(q, order, a, b); }
    forall id: nat ensures Known(q', id) { StopKnows(q, order, id); }
    forall id: nat | id < |q'.sends| ensures Placed(q', id) { StopPlaces(q, order, id); }
    forall r ensures PendingOk(q', r) {}
    forall id: nat ensures ReplacedOk(q', id) { assert ReplacedOk(q, id); }
    forall a: nat, b: nat | a < |q'.taken| && b < |q'.taken| ensures TakenOk(q', a, b) { StopTakes(q, order, a, b); }
  }

  /** A call that is made leaves the set in flight, and the others stay. */
  lemma OneLess(q: Queue, id: SendId)
    requires Inv(q) && Enabled(q, Publish(id))
    ensures var q' := DoPublish(q, id);
            && id in InFlight(q) && InFlight(q') == InFlight(q) - {id}
            && (forall x | x in q'.closing :: x in q.closing)
            && (forall a: nat, b: nat | a < |q'.closing| && b < |q'.closing| :: ClosingOk(q', a, b))
  {
    var q' := DoPublish(q, id);
    assert Known(q, id) && Placed(q, id);
    if IsNext(q, id) {
      assert q.closing == [id] + q'.closing;
      forall k | 0 <= k < |q'.closing| ensures q'.closing[k] != id { assert ClosingOk(q, 0, k + 1); }
      forall a: nat, b: nat | a < |q'.closing| && b < |q'.closing| ensures ClosingOk(q', a, b) { assert ClosingOk(q, a + 1, b + 1); }
    } else {
      forall a: nat, b: nat | a < |q'.closing| && b < |q'.closing| ensures ClosingOk(q', a, b) { assert ClosingOk(q, a, b); }
    }
  }

  lemma PublishKeeps(q: Queue, id: SendId)
    requires Inv(q) && Enabled(q, Publish(id))
    ensures Inv(DoPublish(q, id))
  {
    var q' := DoPublish(q, id);
    OneLess(q, id);
    assert Known(q, id) && Placed(q, id);
    forall x: nat ensures Known(q', x) { assert Known(q, x); }
    forall x: nat | x < |q'.sends| ensures Placed(q', x) { assert Placed(q, x); }
    forall r ensures PendingOk(q', r) { assert PendingOk(q, r); }
    forall x: nat ensures ReplacedOk(q', x) { assert ReplacedOk(q, x); }
    forall a: nat, b: nat | a < |q'.taken| && b < |q'.taken| ensures TakenOk(q', a, b) { assert TakenOk(q, a, b); }
  }

  lemma StepKeeps(q: Queue, debounce: int, step: Step)
    requires Inv(q) && Enabled(q, step)
    ensures Inv(Apply(q, debounce, step))
  {
    match step
    case Send(p, now) => SendKeeps(q, p, now, debounce);
    case Flush(p) => FlushKeeps(q, p);
    case Stop(order) => StopKeeps(q, order);
    case Publish(id) => PublishKeeps(q, id);
  }

  lemma {:induction false} RunKeeps(debounce: int, run: seq<Queue>, i: nat)
    requires IsRun(debounce, run) && i < |run|
    ensures Inv(run[i])
  {
    if i == 0 {
      NothingYet();
    } else {
      RunKeeps(debounce, run, i - 1);
      assert Moves(debounce, run, i - 1);
      var step :| Enabled(run[i - 1], step) && run[i] == Apply(run[i - 1], debounce, step);
      StepKeeps(run[i - 1], debounce, step);
    }
  }

  // ---------------------------------------------------------------------------------------
  // Main results
  // ---------------------------------------------------------------------------------------

  /** How often id was handed to publish. */
  function Times(ids: seq<SendId>, id: SendId): nat { multiset(ids)[id] }

  /** p sends nothing after id. */
  predicate LastOf(q: Queue, id: SendId)
    requires id < |q.sends|
  {
    forall j | id < j < |q.sends| :: q.sends[j] != q.sends[id]
  }

  lemma {:induction false} DistinctOnce(ids: seq<SendId>, id: SendId)
    requires forall i, j | 0 <= i < j < |ids| :: ids[i] != ids[j]
    ensures Times(ids, id) == if id in ids then 1 else 0
  {
    if ids != [] {
      var k := |ids| - 1;
      assert ids == ids[..k] + [ids[k]];
      DistinctOnce(ids[..k], id);
    }
  }

  /** Conservation: at every moment of every run, a send is either waiting, or overtaken by a
      later send of its preview and never handed over, or taken and handed over at most once. */
  lemma EverySendIsKept(debounce: int, run: seq<Queue>, i: nat, id: SendId)
    requires IsRun(debounce, run) && i < |run| && id < |run[i].sends|
    ensures var q := run[i];
            || (IsPending(q, id) && LastOf(q, id) && Times(q.published, id) == 0)
            || (id in q.replaced && !LastOf(q, id) && Times(q.published, id) == 0)
            || (id in InFlight(q) && Times(q.published, id) == 0)
            || (id !in InFlight(q) && id !in q.replaced && Times(q.published, id) == 1)
  {
    RunKeeps(debounce, run, i);
    var q := run[i];
    assert Placed(q, id) && PendingOk(q, q.sends[id]) && ReplacedOk(q, id);
    DistinctOnce(q.published, id);
  }

  /** Sends of one preview are taken from the queue in the order they were sent. */
  lemma TakenInSendOrder(debounce: int, run: seq<Queue>, i: nat, a: nat, b: nat)
    requires IsRun(debounce, run) && i < |run| && a < b < |run[i].taken|
    ensures run[i].taken[a] < |run[i].sends| && run[i].taken[b] < |run[i].sends|
    ensures run[i].sends[run[i].taken[a]] == run[i].sends[run[i].taken[b]] ==> run[i].taken[a] < run[i].taken[b]
  {
    RunKeeps(debounce, run, i);
    assert TakenOk(run[i], a, b);
  }

  /** A flush hands over what its preview had waiting, and nothing else: that is taken then for the
      first time, somebody has it to publish, and nothing of the preview waits any more. */
  lemma FlushHandsOver(debounce: int, run: seq<Queue>, i: nat, p: PreviewId)
    requires IsRun(debounce, run) && i < |run|
    ensures var q, r := run[i], Apply(run[i], debounce, Flush(p));
            && (forall o :: o in r.pending <==> o in q.pending && o != p)
            && (forall o | o in r.pending :: r.pending[o] == q.pending[o])
            && (p in q.pending ==>
                  var id := q.pending[p].id;
                  && id !in q.taken && r.taken == q.taken + [id]
                  && id !in InFlight(q) && InFlight(r) == InFlight(q) + {id})
            && (p !in q.pending ==> r == q)
  {
    RunKeeps(debounce, run, i);
    var q := run[i];
    assert PendingOk(q, p);
    if p in q.pending { assert Placed(q, q.pending[p].id); }
  }

  /** What was taken is never waiting again, so no later flush and no Close takes it a second time. */
  lemma {:induction false} TakenForGood(debounce: int, run: seq<Queue>, i: nat, j: nat, id: SendId)
    requires IsRun(debounce, run) && i <= j < |run| && id in run[i].taken
    ensures id in run[j].taken && id < |run[j].sends| && !IsPending(run[j], id)
    ensures Times(run[j].taken, id) == 1
  {
    RunKeeps(debounce, run, j);
    TakenStays(debounce, run, i, j, id);
    assert Known(run[j], id) && Placed(run[j], id);
    TakenAreDistinct(run[j]);
    DistinctOnce(run[j].taken, id);
  }

  lemma {:induction false} TakenStays(debounce: int, run: seq<Queue>, i: nat, j: nat, id: SendId)
    requires IsRun(debounce, run) && i <= j < |run| && id in run[i].taken
    ensures id in run[j].taken
  {
    if i < j {
      TakenStays(debounce, run, i, j - 1, id);
      assert Moves(debounce, run, j - 1);
    }
  }

  lemma TakenAreDistinct(q: Queue)
    requires Inv(q)
    ensures forall x, y | 0 <= x < y < |q.taken| :: q.taken[x] != q.taken[y]
  {
    forall x, y | 0 <= x < y < |q.taken| ensures q.taken[x] != q.taken[y] { assert TakenOk(q, x, y); }
  }

  /** Once stopped with nobody left in flight, nothing waits, every send was handed over
      exactly once or overtaken, and the last send of every preview was handed over. This
      covers timers that fired while Close held the lock, and late senders. */
  lemma NothingIsLostAfterClose(debounce: int, run: seq<Queue>, i: nat, id: SendId)
    requires IsRun(debounce, run) && i < |run| && run[i].stopped && InFlight(run[i]) == {}
    requires id < |run[i].sends|
    ensures run[i].pending == map[]
    ensures Times(run[i].published, id) == if id in run[i].replaced then 0 else 1
    ensures LastOf(run[i], id) ==> Times(run[i].published, id) == 1
  {
    RunKeeps(debounce, run, i);
    EverySendIsKept(debounce, run, i, id);
  }

  // ---------------------------------------------------------------------------------------
  // What the coalescer is not: an ordering of the calls themselves
  // ---------------------------------------------------------------------------------------

  lemma Extend(debounce: int, run: seq<Queue>, step: Step) returns (longer: seq<Queue>)
    requires IsRun(debounce, run) && Enabled(run[|run| - 1], step)
    ensures IsRun(debounce, longer) && longer[|longer| - 1] == Apply(run[|run| - 1], debounce, step)
    ensures run <= longer && |longer| == |run| + 1
  {
    longer := run + [Apply(run[|run| - 1], debounce, step)];
    forall i: nat | i + 1 < |longer| ensures Moves(debounce, longer, i) {
      if i + 1 < |run| {
        assert Moves(debounce, run, i);
        assert longer[i] == run[i] && longer[i + 1] == run[i + 1];
      } else {
        assert longer[i] == run[|run| - 1];
      }
    }
  }

  /** Two reports of one preview can be in flight at once, and the older call can then be the
      one that lands last: only the taking is ordered, not the publishing. */
  lemma CallsMayLandOutOfOrder(p: PreviewId, debounce: int) returns (run: seq<Queue>)
    ensures IsRun(debounce, run)
    ensures run[|run| - 1].sends == [p, p] && run[|run| - 1].published == [1, 0]
  {
    run := [EMPTY];
    run := Extend(debounce, run, Send(p, 0));
    run := Extend(debounce, run, Flush(p));
    run := Extend(debounce, run, Send(p, 0));
    run := Extend(debounce, run, Flush(p));
    run := Extend(debounce, run, Publish(1));
    run := Extend(debounce, run, Publish(0));
  }

  /** From any reachable queue with two reports of one preview in flight, the newer call may land
      first, even though Close makes its own calls in turn: before and between the two are only
      calls for other previews. With `SerialCallsLandInOrder`: the calls of a preview are ordered as
      long as there are never two, and from the moment there are two they need not be. */
  lemma TwoInFlightMayLandEitherWay(debounce: int, run: seq<Queue>, a: SendId, b: SendId)
    returns (longer: seq<Queue>, before: seq<SendId>, between: seq<SendId>)
    requires IsRun(debounce, run)
    requires var q := run[|run| - 1];
             a < b < |q.sends| && q.sends[a] == q.sends[b] && a in InFlight(q) && b in InFlight(q)
    ensures IsRun(debounce, longer) && run <= longer
    ensures var q, r := run[|run| - 1], longer[|longer| - 1];
            && r.sends == q.sends && r.published == q.published + before + [b] + between + [a]
            && forall id | id in before + between :: id < |q.sends| && q.sends[id] != q.sends[a]
  {
    longer, before := WorkTowards(debounce, run, b);
    RunKeeps(debounce, longer, |longer| - 1);
    OneLess(longer[|longer| - 1], b);
    assert a !in before && (a in run[|run| - 1].closing ==> a in before + longer[|longer| - 1].closing);
    longer := Extend(debounce, longer, Publish(b));
    longer, between := WorkTowards(debounce, longer, a);
    longer := Extend(debounce, longer, Publish(a));
  }

  /** Close's loop comes to a call that is in flight, if that is one of its own, through those of
      other previews. */
  lemma WorkTowards(debounce: int, run: seq<Queue>, id: SendId) returns (longer: seq<Queue>, done: seq<SendId>)
    requires IsRun(debounce, run) && id in InFlight(run[|run| - 1])
    ensures id < |run[|run| - 1].sends| && IsRun(debounce, longer) && run <= longer
    ensures var q, r := run[|run| - 1], longer[|longer| - 1];
            && Enabled(r, Publish(id)) && r.sends == q.sends && r.published == q.published + done
            && r.counted == q.counted && done + r.closing == q.closing
            && (id in q.counted ==> done == [])
            && forall x | x in done :: x < |q.sends| && q.sends[x] != q.sends[id]
    decreases |run[|run| - 1].closing|
  {
    var q := run[|run| - 1];
    RunKeeps(debounce, run, |run| - 1);
    assert Known(q, id);
    longer, done := run, [];
    if id !in q.counted && !IsNext(q, id) {
      var head := q.closing[0];
      HeadFirst(q, id);
      longer := Extend(debounce, run, Publish(head));
      longer, done := WorkTowards(debounce, longer, id);
      done := [head] + done;
    }
  }

  lemma HeadFirst(q: Queue, id: SendId)
    requires Inv(q) && id < |q.sends| && id in q.closing && !IsNext(q, id)
    ensures var head, r := q.closing[0], DoPublish(q, q.closing[0]);
            && head < |q.sends| && q.sends[head] != q.sends[id] && Enabled(q, Publish(head))
            && r.counted == q.counted && id in r.closing && q.closing == [head] + r.closing
  {
    var head := q.closing[0];
    var k :| 0 <= k < |q.closing| && q.closing[k] == id;
    assert ClosingOk(q, 0, k) && Placed(q, head);
    assert q.closing == [head] + q.closing[1..] && q.closing[1..][k - 1] == id;
  }

  /** A second Close waits only for the calls the wait group counts. When it returns, every send was
      handed over or overtaken exactly when the first Close has got through its own entries. */
  lemma SecondCloseReturnsLateEnoughExactly(debounce: int, run: seq<Queue>, i: nat)
    requires IsRun(debounce, run) && i < |run| && run[i].stopped && run[i].counted == {}
    ensures var q := run[i];
            (forall id | 0 <= id < |q.sends| :: Times(q.published, id) == if id in q.replaced then 0 else 1)
              <==> q.closing == []
  {
    RunKeeps(debounce, run, i);
    var q := run[i];
    if q.closing == [] {
      forall id | 0 <= id < |q.sends| ensures Times(q.published, id) == if id in q.replaced then 0 else 1 {
        NothingIsLostAfterClose(debounce, run, i, id);
      }
    } else {
      var id := q.closing[0];
      assert Known(q, id);
      EverySendIsKept(debounce, run, i, id);
      assert Placed(q, id);
    }
  }

  /** And it may return before: the only report there is has not been handed over. */
  lemma SecondCloseMayReturnEarly(p: PreviewId, debounce: int) returns (run: seq<Queue>)
    ensures IsRun(debounce, run)
    ensures var q := run[|run| - 1];
            q.stopped && q.counted == {} && q.sends == [p] && LastOf(q, 0) && q.published == []
  {
    run := [EMPTY];
    run := Extend(debounce, run, Send(p, 0));
    run := Extend(debounce, run, Stop([p]));
  }

  // ---------------------------------------------------------------------------------------
  // Delay
  // ---------------------------------------------------------------------------------------

  /** The deadline of what waits is the debounce after the send that opened its window; everything
      sent since is overtaken, except the newest, which is what waits. */
  predicate WindowOk(q: Queue, debounce: int, p: PreviewId) {
    p in q.pending ==>
      var e := q.pending[p];
      && |q.times| == |q.sends| && e.opener <= e.id < |q.sends| && q.sends[e.opener] == p
      && e.deadline == q.times[e.opener] + debounce
      && (forall k | e.opener <= k < e.id && q.sends[k] == p :: k in q.replaced)
  }

  ghost predicate WindowsOk(q: Queue, debounce: int) {
    |q.times| == |q.sends| && forall p {:trigger WindowOk(q, debounce, p)} :: WindowOk(q, debounce, p)
  }

  /** In every run the deadline of a waiting report was set by the first send of its window and has
      not moved since, however often the report was replaced. */
  lemma {:induction false} DeadlinesAreSetByTheFirst(debounce: int, run: seq<Queue>, i: nat)
    requires IsRun(debounce, run) && i < |run|
    ensures WindowsOk(run[i], debounce)
  {
    if i > 0 {
      DeadlinesAreSetByTheFirst(debounce, run, i - 1);
      RunKeeps(debounce, run, i - 1);
      assert Moves(debounce, run, i - 1);
      var step :| Enabled(run[i - 1], step) && run[i] == Apply(run[i - 1], debounce, step);
      StepKeepsWindows(run[i - 1], debounce, step);
    }
  }

  lemma StepKeepsWindows(q: Queue, debounce: int, step: Step)
    requires Inv(q) && WindowsOk(q, debounce) && Enabled(q, step)
    ensures WindowsOk(Apply(q, debounce, step), debounce)
  {
    forall p ensures WindowOk(Apply(q, debounce, step), debounce, p) {
      assert WindowOk(q, debounce, p) && PendingOk(q, p);
    }
  }

  /** No timer is late: nothing waits past its deadline. */
  predicate Timely(q: Queue, now: int) { forall p | p in q.pending :: now <= q.pending[p].deadline }

  /** While timers are on time and the clock does not go back, no report waits longer than the
      debounce: by then it was taken, or overtaken by a later one. */
  lemma NothingWaitsPastTheDebounce(debounce: int, run: seq<Queue>, i: nat, id: SendId, now: int)
    requires IsRun(debounce, run) && i < |run| && id < |run[i].sends| && |run[i].times| == |run[i].sends|
    requires forall j, k | 0 <= j < k < |run[i].times| :: run[i].times[j] <= run[i].times[k]
    requires Timely(run[i], now) && now > run[i].times[id] + debounce
    ensures id in run[i].taken || id in run[i].replaced
  {
    var q := run[i];
    RunKeeps(debounce, run, i);
    DeadlinesAreSetByTheFirst(debounce, run, i);
    assert Placed(q, id) && WindowOk(q, debounce, q.sends[id]);
  }

  /** Nothing of the preview is in flight when the step takes one of its reports. */
  predicate OneAtATime(q: Queue, step: Step) {
    forall id | id in InFlight(q) && id < |q.sends| ::
      match step
      case Send(p, _) => q.stopped ==> q.sends[id] != p
      case Flush(p) => q.sends[id] != p
      case Stop(order) => q.sends[id] !in order
      case Publish(_) => true
  }

  ghost predicate SerialMoves(debounce: int, run: seq<Queue>, i: nat)
    requires i + 1 < |run|
  {
    exists step :: Enabled(run[i], step) && OneAtATime(run[i], step) && run[i + 1] == Apply(run[i], debounce, step)
  }

  /** Calls for one preview land in the order of its sends so far. */
  predicate LandedOk(q: Queue, a: nat, b: nat)
    requires a < |q.published| && b < |q.published|
  {
    q.published[a] < |q.sends| && q.published[b] < |q.sends|
    && (a < b && q.sends[q.published[a]] == q.sends[q.published[b]] ==> q.published[a] < q.published[b])
  }

  /** What is in flight is alone for its preview and newer than what landed. */
  predicate FlyingOk(q: Queue, id: SendId, x: SendId)
    requires id < |q.sends| && x < |q.sends|
  {
    id in InFlight(q) && id != x && q.sends[x] == q.sends[id] ==>
      x !in InFlight(q) && (x in q.published ==> x < id)
  }

  ghost predicate Serial(q: Queue) {
    && (forall a: nat, b: nat {:trigger LandedOk(q, a, b)} | a < |q.published| && b < |q.published| :: LandedOk(q, a, b))
    && (forall id: nat, x: nat {:trigger FlyingOk(q, id, x)} | id < |q.sends| && x < |q.sends| :: FlyingOk(q, id, x))
  }

  lemma SerialSend(q: Queue, p: PreviewId, now: int, debounce: int)
    requires Inv(q) && Serial(q) && OneAtATime(q, Send(p, now))
    ensures Serial(DoSend(q, p, now, debounce))
  {
    var q', n := DoSend(q, p, now, debounce), |q.sends|;
    assert Known(q, n);
    forall a: nat, b: nat | a < |q'.published| && b < |q'.published| ensures LandedOk(q', a, b) { assert LandedOk(q, a, b); }
    forall id: nat, x: nat | id < |q'.sends| && x < |q'.sends| ensures FlyingOk(q', id, x) {
      if id < n && x < n { assert FlyingOk(q, id, x); }
    }
  }

  lemma SerialFlush(q: Queue, p: PreviewId)
    requires Inv(q) && Serial(q) && OneAtATime(q, Flush(p))
    ensures Serial(DoFlush(q, p))
  {
    var q' := DoFlush(q, p);
    assert PendingOk(q, p);
    if p in q.pending { assert Placed(q, q.pending[p].id); }
    forall a: nat, b: nat | a < |q'.published| && b < |q'.published| ensures LandedOk(q', a, b) { assert LandedOk(q, a, b); }
    forall id: nat, x: nat | id < |q'.sends| && x < |q'.sends| ensures FlyingOk(q', id, x) {
      assert FlyingOk(q, id, x) && FlyingOk(q, x, id);
    }
  }

  lemma SerialStop(q: Queue, order: seq<PreviewId>)
    requires Inv(q) && Serial(q) && !q.stopped && Lists(q, order) && OneAtATime(q, Stop(order))
    ensures Serial(DoStop(q, order))
  {
    var q', ids := DoStop(q, order), Entries(q, order);
    WhatStopTakes(q, order);
    forall a: nat, b: nat | a < |q'.published| && b < |q'.published| ensures LandedOk(q', a, b) { assert LandedOk(q, a, b); }
    forall id: nat, x: nat | id < |q'.sends| && x < |q'.sends| ensures FlyingOk(q', id, x) {
      assert FlyingOk(q, id, x) && FlyingOk(q, x, id) && PendingOk(q, q.sends[id]);
      assert id in q'.closing <==> id in q.closing || id in ids;
      assert x in q'.closing <==> x in q.closing || x in ids;
    }
  }

  lemma SerialPublish(q: Queue, id: SendId)
    requires Inv(q) && Serial(q) && Enabled(q, Publish(id))
    ensures Serial(DoPublish(q, id))
  {
    var q' := DoPublish(q, id);
    OneLess(q, id);
    assert Known(q, id) && Placed(q, id);
    forall a: nat, b: nat | a < |q'.published| && b < |q'.published| ensures LandedOk(q', a, b) {
      if a < |q.published| && b < |q.published| { assert LandedOk(q, a, b); }
      if a < |q.published| { assert LandedOk(q, a, a) && q.published[a] in q.published && FlyingOk(q, id, q.published[a]); }
      if b < |q.published| { assert LandedOk(q, b, b); }
    }
    forall y: nat, x: nat | y < |q'.sends| && x < |q'.sends| ensures FlyingOk(q', y, x) {
      assert FlyingOk(q, y, x) && FlyingOk(q, id, y);
    }
  }

  lemma SerialStep(q: Queue, debounce: int, step: Step)
    requires Inv(q) && Serial(q) && Enabled(q, step) && OneAtATime(q, step)
    ensures Serial(Apply(q, debounce, step))
  {
    match step
    case Send(p, now) => SerialSend(q, p, now, debounce);
    case Flush(p) => SerialFlush(q, p);
    case Stop(order) => SerialStop(q, order);
    case Publish(id) => SerialPublish(q, id);
  }

  /** When a preview never has two reports in flight, its calls land in the order they were
      sent, so the last one to land is the last one that was not overtaken. */
  lemma {:induction false} SerialCallsLandInOrder(debounce: int, run: seq<Queue>, i: nat)
    requires IsRun(debounce, run) && i < |run|
    requires forall j: nat {:trigger SerialMoves(debounce, run, j)} | j < i :: SerialMoves(debounce, run, j)
    ensures Serial(run[i])
  {
    if i > 0 {
      SerialCallsLandInOrder(debounce, run, i - 1);
      RunKeeps(debounce, run, i - 1);
      assert SerialMoves(debounce, run, i - 1);
      var step :| Enabled(run[i - 1], step) && OneAtATime(run[i - 1], step)
                  && run[i] == Apply(run[i - 1], debounce, step);
      SerialStep(run[i - 1], debounce, step);
    }
  }

  // ---------------------------------------------------------------------------------------
  // The coalescer itself
  // ---------------------------------------------------------------------------------------

  lemma NothingYet()
    ensures Inv(EMPTY)
  {
    forall p ensures PendingOk(EMPTY, p) {}
  }

  lemma ClosedOnce(q: Queue, order: seq<PreviewId>)
    requires Inv(q) && Lists(q, order)
    ensures forall x | 0 <= x < |order| :: Entries(q, order)[x] !in q.taken
  {
    WhatStopTakes(q, order);
    forall x | 0 <= x < |order| ensures Entries(q, order)[x] !in q.taken { assert Placed(q, Entries(q, order)[x]); }
  }

  /** order lists, each once, exactly the entries of all that are no longer left. */
  ghost predicate Drained(all: map<PreviewId, Pending>, left: map<PreviewId, Pending>, order: seq<PreviewId>) {
    && (forall p | p in left :: p in all && left[p] == all[p])
    && (forall p | p in all :: p in left <==> p !in order)
    && (forall i | 0 <= i < |order| :: order[i] in all)
    && (forall i, j | 0 <= i < j < |order| :: order[i] != order[j])
  }

  class Coalescer {
    const debounce: int
    var pending: map<PreviewId, Pending>
    var stopped: bool

    // Who has been promised a call, and what was sent and called so far.
    ghost var sends: seq<PreviewId>
    ghost var times: seq<int>
    ghost var taken: seq<SendId>
    ghost var counted: set<SendId>
    ghost var closing: seq<SendId>
    ghost var published: seq<SendId>
    ghost var replaced: set<SendId>

    ghost function State(): Queue
      reads this
    {
      Queue(pending, stopped, sends, times, taken, counted, closing, published, replaced)
    }

    /** What every run of the queue keeps. */
    ghost predicate Valid()
      reads this
    {
      Inv(State())
    }

    constructor (debounce: int)
      ensures Valid() && State() == EMPTY && this.debounce == debounce
    {
      this.debounce := debounce;
      pending, stopped := map[], false;
      sends, times, taken, counted, closing, published, replaced := [], [], [], {}, [], [], {};
      new;
      NothingYet();
    }

    /** The critical section of send; `through` says the report is to be written at once. */
    method Send(p: PreviewId, id: SendId, now: int) returns (through: bool)
      requires Valid() && id == |sends|
      modifies this
      ensures Valid() && State() == DoSend(old(State()), p, now, debounce)
      ensures through == old(stopped)
      ensures taken == old(taken) + if through then [id] else []
    {
      SendKeeps(State(), p, now, debounce);
      sends, times := sends + [p], times + [now];
      through := stopped;
      if stopped {
        taken, counted := taken + [id], counted + {id};
        return;
      }
      if p in pending {
        replaced := replaced + {pending[p].id};
        pending := pending[p := pending[p].(id := id)];
        return;
      }
      pending := pending[p := Pending(id, now + debounce, id)];
    }

    /** The critical section of flush: what it has to publish, if anything is waiting. */
    method Flush(p: PreviewId) returns (found: bool, id: SendId)
      requires Valid()
      modifies this
      ensures Valid() && State() == DoFlush(old(State()), p)
      ensures found == (p in old(pending)) && (found ==> id == old(pending)[p].id)
      ensures found ==> id !in old(taken) && id in counted && p !in pending
      ensures taken == old(taken) + if found then [id] else []
    {
      FlushKeeps(State(), p);
      assert PendingOk(State(), p);
      if p in pending { assert Placed(State(), pending[p].id); }
      found, id := p in pending, 0;
      if found {
        id := pending[p].id;
        pending := pending - {p};
        taken, counted := taken + [id], counted + {id};
      }
    }

    /** Stop's loop: empties the map entry by entry, in whatever order it iterates. */
    method Drain() returns (entries: seq<SendId>, ghost order: seq<PreviewId>)
      modifies `pending
      ensures pending == map[] && Drained(old(pending), map[], order)
      ensures |entries| == |order| && forall i | 0 <= i < |order| :: entries[i] == old(pending)[order[i]].id
    {
      entries, order := [], [];
      var keys := pending.Keys;
      while keys != {}
        invariant keys == pending.Keys
        invariant Drained(old(pending), pending, order)
        invariant |entries| == |order| && forall i | 0 <= i < |order| :: entries[i] == old(pending)[order[i]].id
        decreases |keys|
      {
        var p :| p in keys;
        entries, order := entries + [pending[p].id], order + [p];
        pending, keys := pending - {p}, keys - {p};
      }
      assert pending == map[];
    }

    /** The critical section of Close: what its loop then has to publish. */
    method Close() returns (entries: seq<SendId>, ghost order: seq<PreviewId>)
      requires Valid()
      modifies this
      ensures Valid() && pending == map[] && taken == old(taken) + entries
      ensures forall x | 0 <= x < |entries| :: entries[x] !in old(taken)
      ensures old(stopped) ==> entries == [] && State() == old(State())
      ensures !old(stopped) ==>
        Lists(old(State()), order) && entries == Entries(old(State()), order) && State() == DoStop(old(State()), order)
    {
      if stopped {
        return [], [];
      }
      ghost var q := State();
      stopped := true;
      entries, order := Drain();
      assert entries == Entries(q, order);
      taken := taken + entries;
      closing := closing + entries;
      StopKeeps(q, order);
      ClosedOnce(q, order);
    }
  }
}
