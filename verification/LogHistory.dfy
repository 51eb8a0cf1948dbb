/**
 What every run of the build log keeps: the bytes written, the segments emitted and the file.
 */
module LogHistory {
  import opened ByteStrings
  import opened LineCutter
  import opened LineReader
  import opened BuildLog

  datatype Op =
    | Write(p: Bytes)
    | Subscribe(buffer: int, backlog: int, opens: bool)
    | Cancel(c: nat)
    | Receive(c: nat)
    | Close

  function Apply(w: World, l: Log, op: Op): (r: Log)
    requires Wf(l.out)
    ensures Wf(r.out)
    ensures op.Write? || op.Close? || r == l.(out := l.out.(subs := r.out.subs, chans := r.out.chans))
  {
    match op
    case Write(p) => DoWrite(w, l, p)
    case Subscribe(buffer, backlog, opens) => DoSubscribe(l, buffer, backlog, opens)
    case Cancel(c) => l.(out := DoCancel(l.out, c))
    case Receive(c) => l.(out := DoReceive(l.out, c))
    case Close => DoClose(w, l)
  }

  /** The log after any sequence of operations; each holds the writer's lock throughout. */
  function After(w: World, ops: seq<Op>): (r: Log)
    ensures Wf(r.out)
  {
    if ops == [] then Fresh else Apply(w, After(w, ops[..|ops| - 1]), ops[|ops| - 1])
  }

  /** Every line emitted so far, as it was stored and sent: its stamp and its scrubbed text. */
  function History(w: World, segs: seq<Segment>): (r: seq<Bytes>)
    ensures |r| == |segs|
    ensures forall k | 0 <= k < |r| :: r[k] == w.stamp(k) + w.scrub(segs[k].text)
  {
    seq(|segs|, k requires 0 <= k < |segs| => Dressed(w, k, segs[k].text))
  }

  lemma HistoryGrows(w: World, segs: seq<Segment>, seg: Segment)
    ensures History(w, segs + [seg]) == History(w, segs) + [Dressed(w, |segs|, seg.text)]
  {
  }

  lemma AppendTwice<T>(a: seq<T>, b: seq<T>)
    requires b != []
    ensures a + [b[0]] + b[1..] == a + b
  {
  }

  lemma {:induction false} EmitAllAppends(w: World, o: Out, segs: seq<Segment>)
    requires Wf(o)
    ensures EmitAll(w, o, segs).segs == o.segs + segs && EmitAll(w, o, segs).lines == o.lines + |segs|
    decreases |segs|
  {
    if segs == [] {
      assert o.segs + segs == o.segs;
    } else {
      var after := Emit(w, o, segs[0]);
      assert after.segs == o.segs + [segs[0]] && after.lines == o.lines + 1;
      EmitAllAppends(w, after, segs[1..]);
      AppendTwice(o.segs, segs);
    }
  }

  // ---------------------------------------------------------------------------------------
  // Conservation
  // ---------------------------------------------------------------------------------------

  /** The segments and what is held back are exactly the bytes accepted. */
  ghost predicate Accounted(l: Log) {
    && l.out.lines == |l.out.segs|
    && Joined(l.out.segs) + l.partial == l.written
    && NoNewline(l.partial) && |l.partial| < SPLIT
    && (l.closed ==> l.partial == [])
    && (forall k | 0 <= k < |l.out.segs| :: NoNewline(l.out.segs[k].text))
  }

  lemma WriteAccounts(w: World, l: Log, p: Bytes)
    requires Wf(l.out) && Accounted(l)
    ensures Accounted(DoWrite(w, l, p))
  {
    if !l.closed {
      var cuts, rest := Cut(l.partial + p), Rest(l.partial + p);
      EmitAllAppends(w, l.out, cuts);
      CutIsWellCut(l.partial + p);
      CutConserves(l.partial + p);
      JoinedConcat(l.out.segs, cuts);
      Regroup(Joined(l.out.segs), Joined(cuts), rest, l.partial, p);
    }
  }

  lemma Regroup(segs: Bytes, cuts: Bytes, rest: Bytes, partial: Bytes, p: Bytes)
    requires cuts + rest == partial + p
    ensures segs + cuts + rest == segs + partial + p
  {
    assert segs + cuts + rest == segs + (cuts + rest);
    assert segs + partial + p == segs + (partial + p);
  }

  lemma CloseAccounts(w: World, l: Log)
    requires Wf(l.out) && Accounted(l)
    ensures Accounted(DoClose(w, l))
  {
    if !l.closed && l.partial != [] {
      var last := Segment(l.partial, false);
      JoinedConcat(l.out.segs, [last]);
      JoinedUnended(l.partial, [], []);
      assert [last] + [] == [last];
      assert Joined([last]) == l.partial;
    }
  }

  lemma StepAccounts(w: World, l: Log, op: Op)
    requires Wf(l.out) && Accounted(l)
    ensures Accounted(Apply(w, l, op))
  {
    if op.Write? {
      WriteAccounts(w, l, op.p);
    } else if op.Close? {
      CloseAccounts(w, l);
    }
  }

  /** Whatever is done with the log, nothing that was written is lost, added or reordered. */
  lemma {:induction false} EveryByteIsAccountedFor(w: World, ops: seq<Op>)
    ensures Accounted(After(w, ops))
    decreases |ops|
  {
    if ops != [] {
      EveryByteIsAccountedFor(w, ops[..|ops| - 1]);
      StepAccounts(w, After(w, ops[..|ops| - 1]), ops[|ops| - 1]);
    } else {
      assert Joined([]) + [] == [];
    }
  }

  /** No line of a text, finished or not, ever reached the length at which it is broken. */
  ghost predicate ShortLines(s: Bytes) { forall k | 0 <= k <= |s| :: |AfterLast(s[..k])| < SPLIT }

  /** While every line stays short, what has been emitted depends on the bytes alone and not on
      how they were divided into writes. */
  lemma {:induction false} DivisionDoesNotMatter(w: World, ops: seq<Op>)
    ensures var l := After(w, ops);
            !l.closed && ShortLines(l.written) ==> l.out.segs == Cut(l.written) && l.partial == Rest(l.written)
    decreases |ops|
  {
    var l := After(w, ops);
    if ops == [] || l.closed || !ShortLines(l.written) {
    } else {
      var before := After(w, ops[..|ops| - 1]);
      DivisionDoesNotMatter(w, ops[..|ops| - 1]);
      match ops[|ops| - 1] {
        case Write(p) => ShortWrite(w, before, p);
        case _ =>
      }
    }
  }

  lemma ShortWrite(w: World, l: Log, p: Bytes)
    requires Wf(l.out) && !l.closed
    requires ShortLines(l.written) ==> l.out.segs == Cut(l.written) && l.partial == Rest(l.written)
    requires ShortLines(l.written + p)
    ensures DoWrite(w, l, p).out.segs == Cut(l.written + p) && DoWrite(w, l, p).partial == Rest(l.written + p)
  {
    var s := l.written;
    assert ShortLines(s) && |AfterLast(s)| < SPLIT by {
      assert (s + p)[..|s|] == s;
      assert forall k | 0 <= k <= |s| :: (s + p)[..k] == s[..k];
    }
    ComposesExactly(s, p);
    EmitAllAppends(w, l.out, Cut(l.partial + p));
  }

  // ---------------------------------------------------------------------------------------
  // The file
  // ---------------------------------------------------------------------------------------

  /** None of the first n lines failed to be stored. */
  ghost predicate DiskHeld(w: World, n: nat) { forall k: nat | k < n :: w.disk(k) < 0 }

  predicate IsPrefix(a: Bytes, b: Bytes) { |a| <= |b| && a == b[..|a|] }

  /** The file holds the history as long as the disk holds, and a prefix of it afterwards. */
  ghost predicate FileOk(w: World, o: Out) {
    var stored := Stored(History(w, o.segs));
    && o.lines == |o.segs|
    && IsPrefix(o.file, stored)
    && (DiskHeld(w, o.lines) ==> o.file == stored && o.bytes == |stored|)
    && (o.writeErr <==> !DiskHeld(w, o.lines))
  }

  lemma PrefixGrows(a: Bytes, b: Bytes, c: Bytes)
    requires IsPrefix(a, b)
    ensures IsPrefix(a, b + c)
  {
    assert (b + c)[..|a|] == b[..|a|];
  }

  lemma EmitKeepsFile(w: World, o: Out, seg: Segment)
    requires Wf(o) && FileOk(w, o) && (o.fileOpen <==> !o.writeErr)
    ensures FileOk(w, Emit(w, o, seg)) && (Emit(w, o, seg).fileOpen <==> !Emit(w, o, seg).writeErr)
  {
    var line := Dressed(w, o.lines, seg.text);
    var stored := Stored(History(w, o.segs));
    HistoryGrows(w, o.segs, seg);
    StoredOne(History(w, o.segs), line);
    assert DiskHeld(w, o.lines + 1) <==> DiskHeld(w, o.lines) && w.disk(o.lines) < 0;
    if o.fileOpen && w.disk(o.lines) >= 0 {
      var kept := Min(w.disk(o.lines), |line|);
      assert (stored + (line + [NEWLINE]))[..|stored| + kept] == stored + (line + [NEWLINE])[..kept];
    } else if !o.fileOpen {
      PrefixGrows(o.file, stored, line + [NEWLINE]);
    }
  }

  lemma {:induction false} EmitAllKeepsFile(w: World, o: Out, segs: seq<Segment>)
    requires Wf(o) && FileOk(w, o) && (o.fileOpen <==> !o.writeErr)
    ensures FileOk(w, EmitAll(w, o, segs))
    ensures EmitAll(w, o, segs).fileOpen <==> !EmitAll(w, o, segs).writeErr
    decreases |segs|
  {
    if segs != [] {
      EmitKeepsFile(w, o, segs[0]);
      EmitAllKeepsFile(w, Emit(w, o, segs[0]), segs[1..]);
    }
  }

  /** In every run the file is a prefix of the history, and all of it unless a write failed;
      the failure is remembered, and it is what stops the file from growing. */
  lemma {:induction false} FileHoldsTheHistory(w: World, ops: seq<Op>)
    ensures FileOk(w, After(w, ops).out)
    ensures !After(w, ops).closed ==> (After(w, ops).out.fileOpen <==> !After(w, ops).out.writeErr)
    ensures After(w, ops).closed ==> !After(w, ops).out.fileOpen
    decreases |ops|
  {
    if ops != [] {
      FileHoldsTheHistory(w, ops[..|ops| - 1]);
      var l := After(w, ops[..|ops| - 1]);
      match ops[|ops| - 1] {
        case Write(p) => if !l.closed { EmitAllKeepsFile(w, l.out, Cut(l.partial + p)); }
        case Close => if !l.closed && l.partial != [] { EmitKeepsFile(w, l.out, Segment(l.partial, false)); }
        case _ =>
      }
    }
  }

  /** The file after line k could not be stored: the lines before it, and of its own bytes those that got
      there; nothing follows. */
  ghost predicate CutOff(w: World, o: Out, k: nat)
    requires w.disk(k) >= 0
  {
    && k < |o.segs| && !o.fileOpen
    && o.file == Stored(History(w, o.segs)[..k]) + History(w, o.segs)[k][..Min(w.disk(k), |History(w, o.segs)[k]|)]
  }

  lemma EmitCutsOff(w: World, o: Out, seg: Segment, k: nat)
    requires Wf(o) && FileOk(w, o) && w.disk(k) >= 0 && DiskHeld(w, k)
    requires if k < o.lines then CutOff(w, o, k) else o.fileOpen
    ensures if k < o.lines + 1 then CutOff(w, Emit(w, o, seg), k) else Emit(w, o, seg).fileOpen
  {
    HistoryGrows(w, o.segs, seg);
    var before, after := History(w, o.segs), History(w, o.segs + [seg]);
    if k == o.lines {
      var line := after[k];
      assert after[..k] == before;
      assert (line + [NEWLINE])[..Min(w.disk(k), |line|)] == line[..Min(w.disk(k), |line|)];
    } else if k < o.lines {
      assert after[..k] == before[..k];
    }
  }

  lemma {:induction false} EmitAllCutsOff(w: World, o: Out, segs: seq<Segment>, k: nat)
    requires Wf(o) && FileOk(w, o) && w.disk(k) >= 0 && DiskHeld(w, k) && (o.fileOpen <==> !o.writeErr)
    requires if k < o.lines then CutOff(w, o, k) else o.fileOpen
    ensures if k < o.lines + |segs| then CutOff(w, EmitAll(w, o, segs), k) else EmitAll(w, o, segs).fileOpen
    decreases |segs|
  {
    if segs != [] {
      EmitKeepsFile(w, o, segs[0]);
      EmitCutsOff(w, o, segs[0], k);
      EmitAllCutsOff(w, Emit(w, o, segs[0]), segs[1..], k);
    }
  }

  /** In every run with a line k that is the first that could not be stored, the file is the lines before
      it and the part of it that got there. */
  lemma {:induction false} FileStopsAtTheFailure(w: World, ops: seq<Op>, k: nat)
    requires w.disk(k) >= 0 && DiskHeld(w, k)
    ensures k < After(w, ops).out.lines ==> CutOff(w, After(w, ops).out, k)
    decreases |ops|
  {
    if ops != [] {
      var before := ops[..|ops| - 1];
      FileStopsAtTheFailure(w, before, k);
      FileHoldsTheHistory(w, before);
      StepCutsOff(w, After(w, before), ops[|ops| - 1], k);
    }
  }

  lemma StepCutsOff(w: World, l: Log, op: Op, k: nat)
    requires Wf(l.out) && FileOk(w, l.out) && w.disk(k) >= 0 && DiskHeld(w, k)
    requires k < l.out.lines ==> CutOff(w, l.out, k)
    requires !l.closed ==> (l.out.fileOpen <==> !l.out.writeErr)
    ensures k < Apply(w, l, op).out.lines ==> CutOff(w, Apply(w, l, op).out, k)
  {
    match op
    case Write(p) =>
      if !l.closed {
        EmitAllAppends(w, l.out, Cut(l.partial + p));
        EmitAllCutsOff(w, l.out, Cut(l.partial + p), k);
      }
    case Close => if !l.closed && l.partial != [] { EmitCutsOff(w, l.out, Segment(l.partial, false), k); }
    case _ =>
  }

  lemma HistoryIsPlain(w: World, segs: seq<Segment>)
    requires Sane(w) && forall k | 0 <= k < |segs| :: NoNewline(segs[k].text)
    ensures PlainLines(History(w, segs))
  {
    forall k | 0 <= k < |segs| ensures NoNewline(History(w, segs)[k]) {
      assert NoNewline(w.scrub(segs[k].text)) && NoNewline(w.stamp(k));
    }
  }

  // ---------------------------------------------------------------------------------------
  // What the scrubber hides
  // ---------------------------------------------------------------------------------------

  /** The scrubber makes the same of the segments, one by one. */
  ghost predicate SameScrubbed(w: World, a: seq<Segment>, b: seq<Segment>) {
    |a| == |b| && forall k | 0 <= k < |a| :: w.scrub(a[k].text) == w.scrub(b[k].text)
  }

  /** Everything that leaves the writer: the file, the channels, the counters. */
  predicate LooksLike(a: Out, b: Out) { a == b.(segs := a.segs) }

  lemma EmitLooksLike(w: World, a: Out, b: Out, x: Segment, y: Segment)
    requires Wf(a) && LooksLike(a, b) && w.scrub(x.text) == w.scrub(y.text)
    ensures LooksLike(Emit(w, a, x), Emit(w, b, y))
  {
  }

  lemma {:induction false} EmitAllLooksLike(w: World, a: Out, b: Out, xs: seq<Segment>, ys: seq<Segment>)
    requires Wf(a) && LooksLike(a, b) && SameScrubbed(w, xs, ys)
    ensures LooksLike(EmitAll(w, a, xs), EmitAll(w, b, ys))
    decreases |xs|
  {
    if xs != [] {
      EmitLooksLike(w, a, b, xs[0], ys[0]);
      EmitAllLooksLike(w, Emit(w, a, xs[0]), Emit(w, b, ys[0]), xs[1..], ys[1..]);
    }
  }

  /** The same operations, except for what is written. */
  predicate SameShape(a: seq<Op>, b: seq<Op>) {
    |a| == |b| && forall i | 0 <= i < |a| :: a[i] == b[i] || (a[i].Write? && b[i].Write?)
  }

  /** After each operation the scrubber makes the same of what was emitted. */
  ghost predicate SameAllAlong(w: World, a: seq<Op>, b: seq<Op>) {
    && |a| == |b| && SameScrubbed(w, After(w, a).out.segs, After(w, b).out.segs)
    && (a != [] ==> SameAllAlong(w, a[..|a| - 1], b[..|b| - 1]))
  }

  lemma SuffixSame(w: World, a: seq<Segment>, b: seq<Segment>, xs: seq<Segment>, ys: seq<Segment>)
    requires SameScrubbed(w, a, b) && SameScrubbed(w, a + xs, b + ys)
    ensures SameScrubbed(w, xs, ys)
  {
    forall k | 0 <= k < |xs| ensures w.scrub(xs[k].text) == w.scrub(ys[k].text) {
      assert (a + xs)[|a| + k] == xs[k] && (b + ys)[|b| + k] == ys[k];
    }
  }

  /** Two logs of one shape. */
  predicate Alike(a: Log, b: Log) { a.closed == b.closed && LooksLike(a.out, b.out) }

  lemma WriteLooksLike(w: World, a: Log, b: Log, p: Bytes, q: Bytes)
    requires Wf(a.out) && Alike(a, b) && SameScrubbed(w, a.out.segs, b.out.segs)
    requires SameScrubbed(w, DoWrite(w, a, p).out.segs, DoWrite(w, b, q).out.segs)
    ensures Alike(DoWrite(w, a, p), DoWrite(w, b, q))
  {
    if !a.closed {
      var xs, ys := Cut(a.partial + p), Cut(b.partial + q);
      EmitAllAppends(w, a.out, xs);
      EmitAllAppends(w, b.out, ys);
      SuffixSame(w, a.out.segs, b.out.segs, xs, ys);
      EmitAllLooksLike(w, a.out, b.out, xs, ys);
    }
  }

  lemma CloseLooksLike(w: World, a: Log, b: Log)
    requires Wf(a.out) && Alike(a, b) && SameScrubbed(w, a.out.segs, b.out.segs)
    requires SameScrubbed(w, DoClose(w, a).out.segs, DoClose(w, b).out.segs)
    ensures Alike(DoClose(w, a), DoClose(w, b))
  {
    if !a.closed && a.partial != [] && b.partial != [] {
      SuffixSame(w, a.out.segs, b.out.segs, [Segment(a.partial, false)], [Segment(b.partial, false)]);
      assert w.scrub([Segment(a.partial, false)][0].text) == w.scrub([Segment(b.partial, false)][0].text);
      EmitLooksLike(w, a.out, b.out, Segment(a.partial, false), Segment(b.partial, false));
    }
  }

  lemma OthersLookAlike(w: World, a: Log, b: Log, op: Op)
    requires Wf(a.out) && Alike(a, b) && !op.Write? && !op.Close?
    ensures Alike(Apply(w, a, op), Apply(w, b, op))
  {
  }

  lemma StepLooksAlike(w: World, a: Log, b: Log, x: Op, y: Op)
    requires Wf(a.out) && Alike(a, b) && (x == y || (x.Write? && y.Write?))
    requires SameScrubbed(w, a.out.segs, b.out.segs)
    requires SameScrubbed(w, Apply(w, a, x).out.segs, Apply(w, b, y).out.segs)
    ensures Alike(Apply(w, a, x), Apply(w, b, y))
  {
    if x.Write? { WriteLooksLike(w, a, b, x.p, y.p); }
    else if x.Close? { CloseLooksLike(w, a, b); }
    else { OthersLookAlike(w, a, b, x); }
  }

  /** What the scrubber hides stays hidden: over two runs that differ in the bytes written only, and
      of whose lines the scrubber makes the same, the file, every channel and every counter are the
      same. Whatever tells the two apart is nowhere outside the writer. */
  lemma {:induction false} OnlyScrubbedTextLeaves(w: World, a: seq<Op>, b: seq<Op>)
    requires SameShape(a, b) && SameAllAlong(w, a, b)
    ensures Alike(After(w, a), After(w, b))
    decreases |a|
  {
    if a != [] {
      var n := |a| - 1;
      OnlyScrubbedTextLeaves(w, a[..n], b[..n]);
      StepLooksAlike(w, After(w, a[..n]), After(w, b[..n]), a[n], b[n]);
    }
  }

  // ---------------------------------------------------------------------------------------
  // What a reader can read back
  // ---------------------------------------------------------------------------------------

  /** The longest write that cannot produce a line the reader rejects. */
  const SAFE_WRITE := READ_BUFFER - MAX_LINE + 1

  predicate WritesWithin(ops: seq<Op>, n: nat) { forall i | 0 <= i < |ops| && ops[i].Write? :: |ops[i].p| <= n }

  ghost predicate NeverLengthens(w: World) { forall s: Bytes :: |w.scrub(s)| <= |s| }

  ghost predicate SegsWithin(segs: seq<Segment>, n: int) { forall k | 0 <= k < |segs| :: |segs[k].text| <= n }

  lemma {:induction false} SegmentsStayWithin(w: World, ops: seq<Op>, n: nat)
    requires WritesWithin(ops, n) && n >= 2
    ensures SegsWithin(After(w, ops).out.segs, SPLIT + n - 2)
    decreases |ops|
  {
    if ops != [] {
      var before := ops[..|ops| - 1];
      SegmentsStayWithin(w, before, n);
      EveryByteIsAccountedFor(w, before);
      var l := After(w, before);
      match ops[|ops| - 1] {
        case Write(p) =>
          if !l.closed {
            EmitAllAppends(w, l.out, Cut(l.partial + p));
            forall k | 0 <= k < |Cut(l.partial + p)| ensures |Cut(l.partial + p)[k].text| <= SPLIT + n - 2 {
              SegmentsAreBounded(l.partial, p, k);
            }
          }
        case _ =>
      }
    }
  }

  /** With a scrubber that never lengthens a line, writes of at most SAFE_WRITE bytes keep the
      whole file readable: a reader asking for n lines gets the last n of the history. */
  lemma SafeWritesReadBack(w: World, ops: seq<Op>, n: nat)
    requires Sane(w) && NeverLengthens(w) && WritesWithin(ops, SAFE_WRITE)
    requires DiskHeld(w, After(w, ops).out.lines)
    ensures TailOf(After(w, ops).out.file, n) == Some(DropCRs(LastN(History(w, After(w, ops).out.segs), n)))
  {
    var segs := After(w, ops).out.segs;
    FileHoldsTheHistory(w, ops);
    EveryByteIsAccountedFor(w, ops);
    SegmentsStayWithin(w, ops, SAFE_WRITE);
    HistoryIsPlain(w, segs);
    forall k | 0 <= k < |segs| ensures Fits(History(w, segs)[k]) {
      assert |w.scrub(segs[k].text)| <= |segs[k].text| && |w.stamp(k)| == STAMP_WIDTH;
    }
    TailReadsBack(History(w, segs), n);
  }

  function Zeros(n: nat): (r: Bytes)
    ensures |r| == n && NoNewline(r)
  {
    seq(n, _ => 0)
  }

  /** Writing n bytes one at a time. */
  function Drip(n: nat): (r: seq<Op>)
    ensures |r| == n && WritesWithin(r, 1)
  {
    seq(n, _ => Write([0]))
  }

  lemma {:induction false} DripFills(w: World, n: nat)
    requires n < SPLIT
    ensures After(w, Drip(n)) == Fresh.(partial := Zeros(n), written := Zeros(n))
  {
    if n > 0 {
      DripFills(w, n - 1);
      assert Drip(n)[..n - 1] == Drip(n - 1) && Drip(n)[n - 1] == Write([0]);
      assert Zeros(n - 1) + [0] == Zeros(n);
      HeldBack(w, Fresh.(partial := Zeros(n - 1), written := Zeros(n - 1)), [0]);
    }
  }

  /** A write that leaves the line short and unfinished emits nothing. */
  lemma HeldBack(w: World, l: Log, p: Bytes)
    requires Wf(l.out) && !l.closed && NoNewline(l.partial + p) && |l.partial + p| < SPLIT
    ensures DoWrite(w, l, p) == l.(partial := l.partial + p, written := l.written + p)
  {
    assert IndexOfNewline(l.partial + p) < 0;
  }

  /** One byte more is too many, whatever the clock says: there is a run with no write
      longer than that after which a reader gets nothing at all of the log. */
  lemma LongerWritesMayNotReadBack(w: World, n: nat) returns (ops: seq<Op>)
    requires Sane(w) && w.scrub(Zeros(SPLIT + SAFE_WRITE - 1)) == Zeros(SPLIT + SAFE_WRITE - 1)
    requires w.disk(0) < 0
    ensures WritesWithin(ops, SAFE_WRITE + 1)
    ensures |After(w, ops).out.file| > 0 && TailOf(After(w, ops).out.file, n) == None
  {
    var p := Zeros(SAFE_WRITE) + [NEWLINE];
    ops := Drip(SPLIT - 1) + [Write(p)];
    assert ops[..SPLIT - 1] == Drip(SPLIT - 1);
    DripFills(w, SPLIT - 1);
    var line := Zeros(SPLIT - 1 + SAFE_WRITE);
    var partial := Zeros(SPLIT - 1);
    assert p[..|p| - 1] == Zeros(SAFE_WRITE) && partial + Zeros(SAFE_WRITE) == line;
    BoundIsTight(partial, p);
    EmitOnly(w, Fresh.(partial := partial, written := partial), p, line);
    var stored := [Dressed(w, 0, line)];
    assert |w.stamp(0)| == STAMP_WIDTH && NoNewline(w.stamp(0));
    assert !Fits(stored[0]);
    StoredReadsBack(stored);
  }

  lemma EmitOnly(w: World, l: Log, p: Bytes, line: Bytes)
    requires Wf(l.out) && !l.closed && l.out == Fresh.out && w.disk(0) < 0
    requires Cut(l.partial + p) == [Segment(line, true)]
    ensures DoWrite(w, l, p).out.file == Stored([Dressed(w, 0, line)])
  {
    StoredOne([], Dressed(w, 0, line));
    assert [] + [Dressed(w, 0, line)] == [Dressed(w, 0, line)];
    var o := Emit(w, l.out, Segment(line, true));
    assert EmitAll(w, l.out, [Segment(line, true)]) == EmitAll(w, o, []);
  }
}
