/**
 The activity feed: a ring of recent events, and its refilling from the build history.
 */
module EventRing {
  const SIZE := 200

  datatype Event = Event(at: int, kind: string, preview: string, message: string)

  /** The last n of a list, newest first. */
  function LastReversed<T>(s: seq<T>, n: nat): (r: seq<T>)
    requires n <= |s|
    ensures |r| == n && forall i | 0 <= i < n :: r[i] == s[|s| - 1 - i]
  {
    seq(n, i requires 0 <= i < n => s[|s| - 1 - i])
  }

  function Min(a: int, b: int): int { if a < b then a else b }

  class EventLog {
    const buf: array<Event>
    var next: nat
    var full: bool
    /** Every event added so far. */
    ghost var added: seq<Event>

    /** The slot of the k-th event from the end is known, however often the ring has turned. */
    ghost predicate Valid()
      reads this, buf
    {
      && buf.Length == SIZE && next < SIZE
      && next == |added| % SIZE
      && (full <==> |added| >= SIZE)
      && forall k | Max(0, |added| - SIZE) <= k < |added| :: buf[k % SIZE] == added[k]
    }

    constructor ()
      ensures Valid() && fresh(buf) && added == []
    {
      buf := new Event[SIZE](_ => Event(0, "", "", ""));
      next, full, added := 0, false, [];
    }

    /** An event without a time is given the current one. */
    method Add(e: Event, now: int)
      requires Valid()
      modifies this, buf
      ensures Valid() && added == old(added) + [Stamped(e, now)]
    {
      var stamped := if e.at == 0 then e.(at := now) else e;
      buf[next] := stamped;
      ghost var was := added;
      next := (next + 1) % buf.Length;
      if next == 0 { full := true; }
      added := added + [stamped];
      Turned(|was|);
      forall k | Max(0, |added| - SIZE) <= k < |was| ensures buf[k % SIZE] == added[k] {
        Apart(k, |was|);
      }
    }

    /** The newest n events, or as many as there are, newest first. */
    method Recent(n: int) returns (out: seq<Event>)
      requires Valid() && n >= 0
      ensures out == LastReversed(added, Min(n, Min(SIZE, |added|)))
    {
      var size := if full then buf.Length else next;
      Filled(|added|);
      var count := Min(n, size);
      out := [];
      var i := 0;
      while i < count
        invariant 0 <= i <= count && count == Min(n, Min(SIZE, |added|))
        invariant out == LastReversed(added, i)
      {
        var idx := (next - 1 - i + buf.Length) % buf.Length;
        Slot(|added|, i);
        out := out + [buf[idx]];
        i := i + 1;
      }
    }

    /** History comes newest first and is added oldest first. */
    method Backfill(builds: seq<Build>, now: int)
      requires Valid()
      modifies this, buf
      ensures Valid() && added == old(added) + Reversed(EventsOf(builds, now))
    {
      var i := |builds|;
      ghost var events := EventsOf(builds, now);
      while i > 0
        invariant 0 <= i <= |builds| && Valid()
        invariant added == old(added) + Reversed(events[i..])
      {
        i := i - 1;
        OneOlder(events, i);
        Add(EventOf(builds[i]), now);
      }
      assert events[0..] == events;
    }
  }

  datatype Build = Build(preview: string, state: string, reason: string, started: int, finished: int)

  function Stamped(e: Event, now: int): Event { if e.at == 0 then e.(at := now) else e }

  function EventOf(b: Build): Event {
    Event(if b.finished == 0 then b.started else b.finished, b.state, b.preview,
          if b.reason == "" then b.state else b.state + " \U{2014} " + b.reason)
  }

  /** An event of a build: its preview, its state, when it ended, or else started, or else now; and
      the reason behind a dash, when there is one. */
  predicate Tells(e: Event, b: Build, now: int) {
    && e.preview == b.preview && e.kind == b.state
    && (b.finished != 0 ==> e.at == b.finished) && (b.finished == 0 && b.started != 0 ==> e.at == b.started)
    && (b.finished == 0 && b.started == 0 ==> e.at == now)
    && (b.reason == "" ==> e.message == b.state) && (b.reason != "" ==> e.message == b.state + " \U{2014} " + b.reason)
  }

  function Reversed<T>(s: seq<T>): (r: seq<T>)
    ensures |r| == |s| && forall i | 0 <= i < |s| :: r[i] == s[|s| - 1 - i]
  {
    seq(|s|, i requires 0 <= i < |s| => s[|s| - 1 - i])
  }

  /** The events of a history, in its order. */
  function EventsOf(builds: seq<Build>, now: int): (r: seq<Event>)
    ensures |r| == |builds| && forall i | 0 <= i < |r| :: r[i] == Stamped(EventOf(builds[i]), now)
    ensures forall i | 0 <= i < |r| :: Tells(r[i], builds[i], now)
  {
    seq(|builds|, i requires 0 <= i < |builds| => Stamped(EventOf(builds[i]), now))
  }

  function Max(a: int, b: int): int { if a < b then b else a }

  lemma OneOlder<T>(s: seq<T>, i: nat)
    requires i < |s|
    ensures Reversed(s[i..]) == Reversed(s[i + 1..]) + [s[i]]
  {
  }

  // ---------------------------------------------------------------------------------------
  // Slots
  // ---------------------------------------------------------------------------------------

  /** The next slot. */
  lemma Turned(n: nat)
    ensures (n + 1) % SIZE == (n % SIZE + 1) % SIZE
    ensures (n + 1) % SIZE == 0 ==> n + 1 >= SIZE
    ensures n + 1 == SIZE ==> (n + 1) % SIZE == 0
  {
  }

  /** Fewer than a whole turn apart, two events have different slots. */
  lemma Apart(k: nat, n: nat)
    requires n - SIZE < k < n
    ensures k % SIZE != n % SIZE
  {
  }

  lemma Filled(n: nat)
    ensures n < SIZE ==> n % SIZE == n
  {
  }

  /** Walking back from the next slot. */
  lemma Slot(n: nat, i: nat)
    requires i < SIZE && i < n
    ensures (n % SIZE - 1 - i + SIZE) % SIZE == (n - 1 - i) % SIZE
  {
    var m := n % SIZE - 1 - i + SIZE;
    assert n == n / SIZE * SIZE + n % SIZE;
    SameSlot(m, n / SIZE - 1);
  }

  lemma {:induction false} SameSlot(m: nat, turns: int)
    requires m + turns * SIZE >= 0
    ensures (m + turns * SIZE) % SIZE == m % SIZE
    decreases if turns < 0 then -turns else turns
  {
    if turns > 0 {
      SameSlot(m, turns - 1);
    } else if turns < 0 {
      SameSlot(m, turns + 1);
    }
  }

  // ---------------------------------------------------------------------------------------
  // After a restart
  // ---------------------------------------------------------------------------------------

  /** Reversing twice: what is shown of a feed that holds nothing but a history. */
  lemma ShownAsListed(events: seq<Event>, n: nat)
    requires n <= |events|
    ensures LastReversed(Reversed(events), n) == events[..n]
  {
  }

  /** A new feed, filled from the history, shows it again as it was listed, newest first, as far as
      the ring goes. */
  method Restart(builds: seq<Build>, now: int, n: int) returns (out: seq<Event>)
    requires n >= 0
    ensures out == EventsOf(builds, now)[..Min(n, Min(SIZE, |builds|))]
    ensures |out| == Min(n, Min(200, |builds|)) && forall i | 0 <= i < |out| :: Tells(out[i], builds[i], now)
  {
    var feed := new EventLog();
    feed.Backfill(builds, now);
    assert feed.added == Reversed(EventsOf(builds, now));
    out := feed.Recent(n);
    ShownAsListed(EventsOf(builds, now), Min(n, Min(SIZE, |builds|)));
  }
}
