/**
 What a subscriber to the build log is shown, over every run.
 */
module LogTail {
  import opened ByteStrings
  import opened LineCutter
  import opened LineReader
  import opened BuildLog
  import opened LogHistory

  /** How many lines of the replay went onto the channel: what fitted, oldest first. */
  function Replayed(c: Chan): nat { Min(c.capacity, c.offered) }

  /** The line of the history at which a tail starts. */
  function Start(c: Chan): int { c.joined - c.offered }

  /** The line of the history that the k-th thing put on a channel is: first the replay, then
      what was emitted since it attached. */
  function Position(c: Chan, k: nat): int {
    if k < Replayed(c) then Start(c) + k else c.joined + (k - Replayed(c))
  }

  /** That line as the channel carries it: the file reader strips one trailing carriage return. */
  predicate HeardAt(history: seq<Bytes>, c: Chan, k: nat)
    requires k < |c.put|
  {
    && 0 <= Position(c, k) < |history|
    && c.put[k] == if k < Replayed(c) then DropCR(history[Position(c, k)]) else history[Position(c, k)]
  }

  ghost predicate Heard(history: seq<Bytes>, c: Chan) {
    forall k: nat {:trigger HeardAt(history, c, k)} | k < |c.put| :: HeardAt(history, c, k)
  }

  /** While a channel is open it has carried everything up to the end of the history. What it
      carried is as described when the disk held until it attached. */
  ghost predicate ChanOk(held: bool, history: seq<Bytes>, registered: bool, c: Chan) {
    && (c.open <==> registered) && c.capacity > 0
    && c.got <= |c.put| <= c.got + c.capacity
    && Replayed(c) <= |c.put| && c.joined <= |history|
    && (c.open ==> Position(c, |c.put|) == |history|)
    && (held ==> c.offered <= c.joined && Heard(history, c))
  }

  ghost predicate ChanAtOk(w: World, o: Out, i: nat)
    requires i < |o.chans|
  {
    ChanOk(DiskHeld(w, o.chans[i].joined), History(w, o.segs), i in o.subs, o.chans[i])
  }

  ghost predicate ChansOk(w: World, o: Out) {
    && Wf(o) && o.lines == |o.segs|
    && forall i: nat {:trigger ChanAtOk(w, o, i)} | i < |o.chans| :: ChanAtOk(w, o, i)
  }

  lemma HeardGrows(history: seq<Bytes>, c: Chan, line: Bytes)
    requires Heard(history, c)
    ensures Heard(history + [line], c)
  {
    forall k: nat | k < |c.put| ensures HeardAt(history + [line], c, k) {
      assert HeardAt(history, c, k);
    }
  }

  lemma HeardOneMore(history: seq<Bytes>, c: Chan, line: Bytes)
    requires Heard(history, c) && Replayed(c) <= |c.put| && Position(c, |c.put|) == |history|
    ensures Heard(history + [line], c.(put := c.put + [line]))
  {
    var d := c.(put := c.put + [line]);
    forall k: nat | k < |d.put| ensures HeardAt(history + [line], d, k) {
      if k < |c.put| { assert HeardAt(history, c, k); }
    }
  }

  lemma OfferKeepsChan(held: bool, history: seq<Bytes>, c: Chan, line: Bytes)
    requires ChanOk(held, history, true, c)
    ensures ChanOk(held, history + [line], c.HasRoom(), Offer(c, line))
  {
    if held {
      HeardGrows(history, c, line);
      HeardOneMore(history, c, line);
      if !c.HasRoom() { HeardCares(history + [line], c, c.(open := false)); }
    }
  }

  lemma EmitKeepsChan(w: World, o: Out, seg: Segment, i: nat)
    requires Wf(o) && o.lines == |o.segs| && i < |o.chans| && ChanAtOk(w, o, i)
    ensures ChanAtOk(w, Emit(w, o, seg), i)
  {
    var c, line := o.chans[i], Dressed(w, o.lines, seg.text);
    HistoryGrows(w, o.segs, seg);
    if i in o.subs {
      OfferKeepsChan(DiskHeld(w, c.joined), History(w, o.segs), c, line);
    } else if DiskHeld(w, c.joined) {
      HeardGrows(History(w, o.segs), c, line);
    }
  }

  /** Only what was put on a channel, and when it attached, matters to what it carried. */
  lemma HeardCares(history: seq<Bytes>, c: Chan, d: Chan)
    requires Heard(history, c) && d == c.(got := d.got, open := d.open)
    ensures Heard(history, d)
  {
    forall k: nat | k < |d.put| ensures HeardAt(history, d, k) {
      assert HeardAt(history, c, k);
    }
  }

  lemma {:induction false} EmitAllKeepsChans(w: World, o: Out, segs: seq<Segment>)
    requires ChansOk(w, o)
    ensures ChansOk(w, EmitAll(w, o, segs))
    decreases |segs|
  {
    if segs != [] {
      EmitKeepsChans(w, o, segs[0]);
      EmitAllKeepsChans(w, Emit(w, o, segs[0]), segs[1..]);
    }
  }

  lemma EmitKeepsChans(w: World, o: Out, seg: Segment)
    requires ChansOk(w, o)
    ensures ChansOk(w, Emit(w, o, seg))
  {
    forall i: nat | i < |o.chans| ensures ChanAtOk(w, Emit(w, o, seg), i) {
      assert ChanAtOk(w, o, i);
      EmitKeepsChan(w, o, seg, i);
    }
  }

  /** What the file read gives a new subscriber: its whole backlog, or nothing when the file does
      not open or some line does not fit the reader. */
  lemma SubscribeOffers(w: World, o: Out, backlog: int, opens: bool)
    requires FileOk(w, o) && DiskHeld(w, o.lines) && PlainLines(History(w, o.segs))
    ensures var history := History(w, o.segs);
            Replay(o, backlog, opens) ==
              if backlog > 0 && opens && AllFit(history) then DropCRs(LastN(history, backlog)) else []
  {
    if backlog > 0 {
      var history := History(w, o.segs);
      StoredReadsBack(history);
      if AllFit(history) {
        TailReadsBack(history, backlog);
      }
    }
  }

  lemma ReplayIsHeard(history: seq<Bytes>, n: nat, c: Chan)
    requires c.joined == |history| && c.offered == Min(n, |history|)
    requires c.put == DropCRs(LastN(history, n))[..Replayed(c)]
    ensures Heard(history, c)
  {
    var lines := LastN(history, n);
    assert |lines| == c.offered && lines == history[Start(c)..];
    forall k: nat | k < |c.put| ensures HeardAt(history, c, k) {
      assert c.put[k] == DropCR(lines[k]) && lines[k] == history[Start(c) + k];
    }
  }

  lemma NewChanOk(w: World, l: Log, buffer: int, backlog: int, opens: bool)
    requires Sane(w) && FileOk(w, l.out) && Accounted(l)
    ensures var c := NewChan(l, buffer, backlog, opens);
            ChanOk(DiskHeld(w, c.joined), History(w, l.out.segs), !l.closed, c)
  {
    var history := History(w, l.out.segs);
    var c := NewChan(l, buffer, backlog, opens);
    if DiskHeld(w, l.out.lines) {
      HistoryIsPlain(w, l.out.segs);
      SubscribeOffers(w, l.out, backlog, opens);
      if backlog > 0 && opens && AllFit(history) { ReplayIsHeard(history, backlog, c); }
    }
  }

  lemma SubscribeKeepsChans(w: World, l: Log, buffer: int, backlog: int, opens: bool)
    requires Sane(w) && ChansOk(w, l.out) && FileOk(w, l.out) && Accounted(l)
    ensures ChansOk(w, DoSubscribe(l, buffer, backlog, opens).out)
  {
    NewChanOk(w, l, buffer, backlog, opens);
    var r := DoSubscribe(l, buffer, backlog, opens).out;
    forall i: nat | i < |r.chans| ensures ChanAtOk(w, r, i) {
      if i < |l.out.chans| { assert ChanAtOk(w, l.out, i); }
    }
  }

  lemma HangUpKeepsChans(w: World, o: Out)
    requires ChansOk(w, o)
    ensures ChansOk(w, o.(chans := HangUp(o.chans, o.subs), subs := {}, fileOpen := false))
  {
    var r := o.(chans := HangUp(o.chans, o.subs), subs := {}, fileOpen := false);
    forall i: nat | i < |r.chans| ensures ChanAtOk(w, r, i) {
      assert ChanAtOk(w, o, i);
      if DiskHeld(w, o.chans[i].joined) { HeardCares(History(w, o.segs), o.chans[i], r.chans[i]); }
    }
  }

  lemma CloseKeepsChans(w: World, l: Log)
    requires ChansOk(w, l.out)
    ensures ChansOk(w, DoClose(w, l).out)
  {
    if !l.closed {
      if l.partial != [] {
        EmitKeepsChans(w, l.out, Segment(l.partial, false));
      }
      HangUpKeepsChans(w, FlushPartial(w, l));
    }
  }

  lemma CancelKeepsChans(w: World, o: Out, c: nat)
    requires ChansOk(w, o)
    ensures ChansOk(w, DoCancel(o, c))
  {
    var r := DoCancel(o, c);
    forall i: nat | i < |r.chans| ensures ChanAtOk(w, r, i) {
      assert ChanAtOk(w, o, i);
      if DiskHeld(w, o.chans[i].joined) { HeardCares(History(w, o.segs), o.chans[i], r.chans[i]); }
    }
  }

  lemma ReceiveKeepsChans(w: World, o: Out, c: nat)
    requires ChansOk(w, o)
    ensures ChansOk(w, DoReceive(o, c))
  {
    var r := DoReceive(o, c);
    forall i: nat | i < |r.chans| ensures ChanAtOk(w, r, i) {
      assert ChanAtOk(w, o, i);
      if DiskHeld(w, o.chans[i].joined) { HeardCares(History(w, o.segs), o.chans[i], r.chans[i]); }
    }
  }

  lemma {:induction false} RunKeepsChans(w: World, ops: seq<Op>)
    requires Sane(w)
    ensures ChansOk(w, After(w, ops).out)
    decreases |ops|
  {
    if ops != [] {
      var before := ops[..|ops| - 1];
      RunKeepsChans(w, before);
      EveryByteIsAccountedFor(w, before);
      FileHoldsTheHistory(w, before);
      StepKeepsChans(w, After(w, before), ops[|ops| - 1]);
    }
  }

  lemma StepKeepsChans(w: World, l: Log, op: Op)
    requires Sane(w) && ChansOk(w, l.out) && FileOk(w, l.out) && Accounted(l)
    ensures ChansOk(w, Apply(w, l, op).out)
  {
    match op {
      case Write(p) => if !l.closed { EmitAllKeepsChans(w, l.out, Cut(l.partial + p)); }
      case Subscribe(buffer, backlog, opens) => SubscribeKeepsChans(w, l, buffer, backlog, opens);
      case Cancel(c) => CancelKeepsChans(w, l.out, c);
      case Receive(c) => ReceiveKeepsChans(w, l.out, c);
      case Close => CloseKeepsChans(w, l);
    }
  }

  // ---------------------------------------------------------------------------------------
  // The tail
  // ---------------------------------------------------------------------------------------

  /** At every moment of every run, what was put on a channel is the lines of the history that
      `Position` names, in order: its replay first, then every line emitted after it attached;
      and it reaches the end of the history for as long as the channel is open. So a subscriber
      that is dropped has been given a prefix of what followed, and then a close. */
  lemma TailIsTheHistory(w: World, ops: seq<Op>, i: nat)
    requires Sane(w) && i < |After(w, ops).out.chans| && DiskHeld(w, After(w, ops).out.chans[i].joined)
    ensures var o := After(w, ops).out;
            var history, c := History(w, o.segs), o.chans[i];
            && Heard(history, c) && 0 <= Start(c)
            && (c.open ==> Position(c, |c.put|) == |history|)
  {
    RunKeepsChans(w, ops);
    assert ChanAtOk(w, After(w, ops).out, i);
  }

  /** The lines a channel has carried so far follow one another in the history. */
  ghost predicate Consecutive(c: Chan) { forall k: nat, l: nat | k + 1 == l < |c.put| :: Position(c, l) == Position(c, k) + 1 }

  /** They run on from the start of the replay without the part of that which did not fit. */
  ghost predicate LacksNewestOfReplay(c: Chan) {
    forall k: nat | k < |c.put| ::
      Position(c, k) == Start(c) + k + if k < c.capacity then 0 else Max(0, c.offered - c.capacity)
  }

  /** The last of them is the last line emitted. */
  predicate ReachesEnd(history: seq<Bytes>, c: Chan) { c.put != [] ==> Position(c, |c.put| - 1) == |history| - 1 }

  /** Its positions are those of the lines it carried, if the disk held until it attached. */
  ghost predicate Carried(w: World, o: Out, i: nat)
    requires i < |o.chans|
  {
    DiskHeld(w, o.chans[i].joined) ==> Heard(History(w, o.segs), o.chans[i]) && 0 <= Start(o.chans[i])
  }

  /** In every run, what a channel has carried has a hole exactly when not all it was offered fitted
      when it attached and it has been given a later line since; then the lines missing are the
      newest of the replay, as many as did not fit. */
  lemma HoleExactly(w: World, ops: seq<Op>, i: nat)
    requires Sane(w) && i < |After(w, ops).out.chans|
    ensures Carried(w, After(w, ops).out, i)
    ensures var c := After(w, ops).out.chans[i];
            LacksNewestOfReplay(c) && (Consecutive(c) <==> c.offered <= c.capacity || |c.put| <= c.capacity)
  {
    CarriedHere(w, ops, i);
    HoleInReplay(After(w, ops).out.chans[i]);
  }

  lemma CarriedHere(w: World, ops: seq<Op>, i: nat)
    requires Sane(w) && i < |After(w, ops).out.chans|
    ensures Carried(w, After(w, ops).out, i)
    ensures var c := After(w, ops).out.chans[i]; Replayed(c) <= |c.put| && c.capacity > 0
  {
    RunKeepsChans(w, ops);
    assert ChanAtOk(w, After(w, ops).out, i);
  }

  lemma HoleInReplay(c: Chan)
    requires Replayed(c) <= |c.put| && c.capacity > 0
    ensures Consecutive(c) <==> c.offered <= c.capacity || |c.put| <= c.capacity
    ensures LacksNewestOfReplay(c)
  {
    if c.offered > c.capacity && |c.put| > c.capacity {
      assert Position(c, c.capacity - 1 + 1) != Position(c, c.capacity - 1) + 1;
    }
  }

  /** While a tail is open, it is a contiguous piece of the history that reaches its end exactly
      when all it was offered fitted. */
  lemma OpenTailIsGapFreeExactly(w: World, ops: seq<Op>, i: nat)
    requires Sane(w) && i < |After(w, ops).out.chans| && After(w, ops).out.chans[i].open
    ensures Carried(w, After(w, ops).out, i)
    ensures var o := After(w, ops).out;
            o.chans[i].offered <= o.chans[i].capacity <==>
              Consecutive(o.chans[i]) && ReachesEnd(History(w, o.segs), o.chans[i])
  {
    RunKeepsChans(w, ops);
    assert ChanAtOk(w, After(w, ops).out, i);
    HoleExactly(w, ops, i);
  }

  /** What that condition comes to when a subscriber attaches: all it is offered fits exactly when
      the lines of its backlog that exist fit its buffer, or when it is offered none of them. */
  lemma AttachingDecides(w: World, ops: seq<Op>, buffer: int, backlog: int, opens: bool)
    requires Sane(w) && DiskHeld(w, After(w, ops).out.lines)
    ensures var l := After(w, ops);
            var history, c := History(w, l.out.segs), NewChan(l, buffer, backlog, opens);
            var offers := backlog > 0 && opens && AllFit(history);
            && c.joined == |history| && c.capacity == (if buffer < 1 then 256 else buffer)
            && (c.offered <= c.capacity <==> !offers || Min(backlog, |history|) <= c.capacity)
            && (offers ==> Start(c) == |history| - Min(backlog, |history|))
            && (!offers ==> Start(c) == |history| && c.put == [])
  {
    EveryByteIsAccountedFor(w, ops);
    FileHoldsTheHistory(w, ops);
    HistoryIsPlain(w, After(w, ops).out.segs);
    SubscribeOffers(w, After(w, ops).out, backlog, opens);
  }

  /** Once its channel is closed a subscriber is sent nothing more, whatever happens next. */
  lemma ClosedIsFinal(w: World, ops: seq<Op>, op: Op, i: nat)
    requires Sane(w) && i < |After(w, ops).out.chans| && !After(w, ops).out.chans[i].open
    ensures i < |Apply(w, After(w, ops), op).out.chans|
    ensures var c := Apply(w, After(w, ops), op).out.chans[i];
            !c.open && c.put == After(w, ops).out.chans[i].put
  {
    RunKeepsChans(w, ops);
    var l := After(w, ops);
    assert ChanAtOk(w, l.out, i);
    match op {
      case Write(p) => if !l.closed { QuietForOthers(w, l.out, Cut(l.partial + p), i); }
      case Close => if !l.closed && l.partial != [] { QuietForOthers(w, l.out, [Segment(l.partial, false)], i); }
      case _ =>
    }
  }

  lemma {:induction false} QuietForOthers(w: World, o: Out, segs: seq<Segment>, i: nat)
    requires Wf(o) && i < |o.chans| && i !in o.subs
    ensures |EmitAll(w, o, segs).chans| == |o.chans| && EmitAll(w, o, segs).chans[i] == o.chans[i]
    ensures segs != [] ==> i !in Emit(w, o, segs[0]).subs && Emit(w, o, segs[0]).chans[i] == o.chans[i]
    decreases |segs|
  {
    if segs != [] {
      QuietForOthers(w, Emit(w, o, segs[0]), segs[1..], i);
    }
  }

  /** Of the lines emitted one after the other, a channel takes what it has room for; one more
      finds it full and closes it. */
  lemma {:induction false} RoomRunsOut(w: World, o: Out, segs: seq<Segment>, i: nat)
    requires Wf(o) && i in o.subs && o.chans[i].open && |o.chans[i].put| - o.chans[i].got <= o.chans[i].capacity
    ensures |EmitAll(w, o, segs).chans| == |o.chans|
    ensures EmitAll(w, o, segs).chans[i].open <==> |o.chans[i].put| - o.chans[i].got + |segs| <= o.chans[i].capacity
    decreases |segs|
  {
    if segs != [] {
      var next := Emit(w, o, segs[0]);
      if o.chans[i].HasRoom() {
        RoomRunsOut(w, next, segs[1..], i);
      } else {
        QuietForOthers(w, next, segs[1..], i);
      }
    }
  }

  /** The lines an operation emits. */
  function LinesOf(l: Log, op: Op): nat {
    if op.Write? && !l.closed then |Cut(l.partial + op.p)| else 0
  }

  /** In every run, an open channel is closed by exactly three things: its own Cancel, Close, and a
      line that finds it full, which a write emits when its lines are more than there is room for. */
  lemma ClosedExactlyBy(w: World, ops: seq<Op>, op: Op, i: nat)
    requires Sane(w) && i < |After(w, ops).out.chans| && After(w, ops).out.chans[i].open
    ensures var l, c := After(w, ops), After(w, ops).out.chans[i];
            var after := After(w, ops + [op]).out.chans;
            && i < |after|
            && (!after[i].open <==> op == Cancel(i) || op.Close? || |c.put| - c.got + LinesOf(l, op) > c.capacity)
  {
    RunKeepsChans(w, ops);
    AfterOne(w, ops, op);
    var l := After(w, ops);
    assert ChanAtOk(w, l.out, i);
    match op {
      case Write(p) => if !l.closed { RoomRunsOut(w, l.out, Cut(l.partial + p), i); }
      case Close => CloseEndsOpenTail(w, ops, i);
      case _ =>
    }
  }

  lemma CloseEndsOpenTail(w: World, ops: seq<Op>, i: nat)
    requires Sane(w) && i < |After(w, ops).out.chans|
    ensures i < |After(w, ops + [Op.Close]).out.chans| && !After(w, ops + [Op.Close]).out.chans[i].open
  {
    AfterOne(w, ops, Op.Close);
    CloseEndsEveryTail(w, ops + [Op.Close]);
  }

  /** A channel handed out is open exactly if the log is. */
  lemma AttachedOpenExactly(w: World, ops: seq<Op>, op: Op)
    requires |After(w, ops + [op]).out.chans| > |After(w, ops).out.chans|
    ensures var n := |After(w, ops).out.chans|;
            && op.Subscribe? && |After(w, ops + [op]).out.chans| == n + 1
            && (After(w, ops + [op]).out.chans[n].open <==> !After(w, ops).closed)
  {
    AfterOne(w, ops, op);
    if !op.Subscribe? { OnlySubscribeAddsAChannel(w, After(w, ops), op); }
  }

  lemma OnlySubscribeAddsAChannel(w: World, l: Log, op: Op)
    requires Wf(l.out) && !op.Subscribe?
    ensures |Apply(w, l, op).out.chans| == |l.out.chans|
  {
    if op.Write? && !l.closed { SameNumber(w, l.out, Cut(l.partial + op.p)); }
  }

  lemma {:induction false} SameNumber(w: World, o: Out, segs: seq<Segment>)
    requires Wf(o)
    ensures |EmitAll(w, o, segs).chans| == |o.chans|
    decreases |segs|
  {
    if segs != [] { SameNumber(w, Emit(w, o, segs[0]), segs[1..]); }
  }

  lemma {:induction false} CloseEndsEveryTail(w: World, ops: seq<Op>)
    requires Sane(w) && After(w, ops).closed
    ensures After(w, ops).out.subs == {} && forall i | 0 <= i < |After(w, ops).out.chans| :: !After(w, ops).out.chans[i].open
    decreases |ops|
  {
    if ops != [] {
      var before := ops[..|ops| - 1];
      if After(w, before).closed { CloseEndsEveryTail(w, before); }
    }
    RunKeepsChans(w, ops);
    forall i | 0 <= i < |After(w, ops).out.chans| ensures !After(w, ops).out.chans[i].open {
      assert ChanAtOk(w, After(w, ops).out, i);
    }
  }

  // ---------------------------------------------------------------------------------------
  // A hole
  // ---------------------------------------------------------------------------------------

  /** Two lines, then a tail asking for both with room for one, then a third line. */
  function HoleOps(): seq<Op> { TwoOps() + [Subscribe(1, 2, true)] + [Receive(0)] + [Line(67)] }

  function TwoOps(): seq<Op> { [Line(65), Line(66)] }

  function Line(b: Byte): Op { Write([b, NEWLINE]) }

  lemma OneLine(w: World, l: Log, b: Byte)
    requires Wf(l.out) && !l.closed && l.partial == [] && b != NEWLINE
    ensures DoWrite(w, l, [b, NEWLINE]) == Log([], false, l.written + [b, NEWLINE], Emit(w, l.out, Segment([b], true)))
  {
    assert [] + [b, NEWLINE] == [b] + [NEWLINE] + [];
    SplitAtNewline([b], []);
    var o := Emit(w, l.out, Segment([b], true));
    assert EmitAll(w, l.out, [Segment([b], true)]) == EmitAll(w, o, []);
  }

  lemma AfterOne(w: World, ops: seq<Op>, op: Op)
    ensures After(w, ops + [op]) == Apply(w, After(w, ops), op)
  {
    assert (ops + [op])[..|ops|] == ops;
  }

  lemma TwoLines(w: World, l: Log)
    requires l == After(w, [Line(65), Line(66)])
    ensures l.out.segs == [Segment([65], true), Segment([66], true)] && l.out.lines == 2
    ensures l.partial == [] && !l.closed && l.out.chans == [] && l.out.subs == {}
  {
    AfterOne(w, [], Line(65));
    AfterOne(w, [Line(65)], Line(66));
    assert [] + [Line(65)] == [Line(65)];
    OneLine(w, Fresh, 65);
    OneLine(w, After(w, [Line(65)]), 66);
  }

  lemma ShortReplay(w: World, l: Log)
    requires Sane(w) && DiskHeld(w, 2) && NeverLengthens(w) && l == After(w, [Line(65), Line(66)])
    ensures NewChan(l, 1, 2, true) == Chan(1, [DropCR(Dressed(w, 0, [65]))], 0, true, 2, 2)
  {
    TwoLines(w, l);
    SafeWritesReadBack(w, [Line(65), Line(66)], 2);
    var history := History(w, l.out.segs);
    assert DropCRs(LastN(history, 2))[..1] == [DropCR(history[0])];
  }

  lemma SubscribeThenReceive(l: Log, c: Chan)
    requires Wf(l.out) && l.out.chans == [] && l.out.subs == {} && !l.closed
    requires c == NewChan(l, 1, 2, true) && |c.put| == 1 && c.got == 0
    ensures var r := DoReceive(DoSubscribe(l, 1, 2, true).out, 0);
            r == l.out.(chans := [c.(got := 1)], subs := {0})
  {
    assert DoSubscribe(l, 1, 2, true).out.chans == [c];
  }

  lemma ThirdLine(w: World, l: Log, c: Chan)
    requires Wf(l.out) && !l.closed && l.partial == [] && l.out.lines == 2
    requires l.out.subs == {0} && l.out.chans == [c] && c.open && c.put != [] && c.got == |c.put| && c.capacity > 0
    ensures DoWrite(w, l, [67, NEWLINE]).out.chans == [c.(put := c.put + [Dressed(w, 2, [67])])]
  {
    OneLine(w, l, 67);
  }

  lemma AfterThree(w: World, ops: seq<Op>, a: Op, b: Op, c: Op)
    ensures After(w, ops + [a] + [b] + [c]) == Apply(w, Apply(w, Apply(w, After(w, ops), a), b), c)
  {
    AfterOne(w, ops, a);
    AfterOne(w, ops + [a], b);
    AfterOne(w, ops + [a] + [b], c);
  }

  /** The tail is given the first line and the third: the newest line of the replay is what a
      short buffer costs, though the code means to give up the oldest. */
  lemma ShortBufferLosesTheNewestReplay(w: World)
    requires Sane(w) && DiskHeld(w, 2) && NeverLengthens(w)
    ensures var o := After(w, HoleOps()).out;
            && |o.chans| == 1 && o.chans[0].open
            && o.chans[0].put == [DropCR(Dressed(w, 0, [65])), Dressed(w, 2, [67])]
  {
    var l2 := After(w, TwoOps());
    TwoLines(w, l2);
    ShortReplay(w, l2);
    var c := NewChan(l2, 1, 2, true);
    SubscribeThenReceive(l2, c);
    AfterThree(w, TwoOps(), Subscribe(1, 2, true), Receive(0), Line(67));
    var l4 := l2.(out := DoReceive(DoSubscribe(l2, 1, 2, true).out, 0));
    ThirdLine(w, l4, c.(got := 1));
  }
}
