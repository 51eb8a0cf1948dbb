/**
 How the build log cuts its input into lines.

 A complete line is emitted when its newline arrives. What is left over is held, but once it
 reaches `SPLIT` bytes it is flushed in chunks of exactly that size.
 */
module LineCutter {
  import opened ByteStrings
  import opened Lists

  const NEWLINE: Byte := 10

  /** What a reader may be given as one line, less the width of a timestamp. */
  const MAX_LINE := 65536
  const STAMP_WIDTH := 13
  const SPLIT := MAX_LINE - STAMP_WIDTH

  /** The reader's own cap. */
  const READ_BUFFER := MAX_LINE + 4096

  /** A piece of output handed on, and whether a newline was consumed after it. */
  datatype Segment = Segment(text: Bytes, ended: bool)

  predicate NoNewline(s: Bytes) { NEWLINE !in s }

  function IndexOfNewline(s: Bytes): (i: int)
    ensures i < 0 ==> NoNewline(s)
    ensures 0 <= i ==> i < |s| && s[i] == NEWLINE && NoNewline(s[..i])
  {
    IndexOf(s, NEWLINE)
  }

  /** The chunks of a buffer without a newline, and what is left of it. */
  function Chunks(s: Bytes): seq<Segment>
    decreases |s|
  {
    if |s| < SPLIT then [] else [Segment(s[..SPLIT], false)] + Chunks(s[SPLIT..])
  }

  function ChunkRest(s: Bytes): Bytes
    decreases |s|
  {
    if |s| < SPLIT then s else ChunkRest(s[SPLIT..])
  }

  function Cut(s: Bytes): seq<Segment>
    decreases |s|
  {
    var i := IndexOfNewline(s);
    if i < 0 then Chunks(s) else [Segment(s[..i], true)] + Cut(s[i + 1..])
  }

  function Rest(s: Bytes): Bytes
    decreases |s|
  {
    var i := IndexOfNewline(s);
    if i < 0 then ChunkRest(s) else Rest(s[i + 1..])
  }

  /** The bytes after the last newline. */
  function AfterLast(s: Bytes): Bytes
    decreases |s|
  {
    var i := IndexOfNewline(s);
    if i < 0 then s else AfterLast(s[i + 1..])
  }

  /** The bytes a list of segments stands for. */
  function Joined(segs: seq<Segment>): Bytes {
    if segs == [] then []
    else segs[0].text + (if segs[0].ended then [NEWLINE] else []) + Joined(segs[1..])
  }

  lemma {:induction false} JoinedConcat(a: seq<Segment>, b: seq<Segment>)
    ensures Joined(a + b) == Joined(a) + Joined(b)
  {
    if a == [] {
      assert a + b == b;
    } else {
      assert (a + b)[1..] == a[1..] + b;
      JoinedConcat(a[1..], b);
    }
  }

  // ---------------------------------------------------------------------------------------
  // What a cut is, said without saying how it is computed
  // ---------------------------------------------------------------------------------------

  /** Lines contain no newline; an unterminated piece is a full chunk and nothing terminated
      follows it; what is left is an unfinished line shorter than a chunk. */
  ghost predicate WellCut(segs: seq<Segment>, rest: Bytes) {
    && (forall i | 0 <= i < |segs| :: NoNewline(segs[i].text) && (segs[i].ended || |segs[i].text| == SPLIT))
    && (forall i, j | 0 <= i < j < |segs| :: segs[j].ended ==> segs[i].ended)
    && NoNewline(rest) && |rest| < SPLIT
  }

  lemma {:induction false} ChunksRejoin(s: Bytes)
    ensures Joined(Chunks(s)) + ChunkRest(s) == s
    decreases |s|
  {
    if |s| >= SPLIT {
      var first, rest := s[..SPLIT], s[SPLIT..];
      ChunksRejoin(rest);
      JoinedUnended(first, Chunks(rest), ChunkRest(rest));
      assert s == first + rest;
    }
  }

  lemma WellCutChunk(chunk: Bytes, segs: seq<Segment>, rest: Bytes)
    requires NoNewline(chunk) && |chunk| == SPLIT && WellCut(segs, rest) && NoneEnded(segs)
    ensures WellCut([Segment(chunk, false)] + segs, rest) && NoneEnded([Segment(chunk, false)] + segs)
  {
  }

  predicate NoneEnded(segs: seq<Segment>) { forall i | 0 <= i < |segs| :: !segs[i].ended }

  lemma {:induction false} ChunksAreWellCut(s: Bytes)
    requires NoNewline(s)
    ensures WellCut(Chunks(s), ChunkRest(s)) && NoneEnded(Chunks(s))
    decreases |s|
  {
    if |s| >= SPLIT {
      ChunksAreWellCut(s[SPLIT..]);
      WellCutChunk(s[..SPLIT], Chunks(s[SPLIT..]), ChunkRest(s[SPLIT..]));
    }
  }

  lemma SplitAtNewline(a: Bytes, x: Bytes)
    requires NoNewline(a)
    ensures Cut(a + [NEWLINE] + x) == [Segment(a, true)] + Cut(x)
    ensures Rest(a + [NEWLINE] + x) == Rest(x)
    ensures AfterLast(a + [NEWLINE] + x) == AfterLast(x)
  {
    var s := a + [NEWLINE] + x;
    IndexAt(a, NEWLINE, x);
    assert s[..|a|] == a && s[|a| + 1..] == x;
  }

  /** A buffer with a newline: its first line and everything after it. */
  lemma FirstLine(s: Bytes) returns (line: Bytes, tail: Bytes)
    requires IndexOfNewline(s) >= 0
    ensures s == line + [NEWLINE] + tail && NoNewline(line) && |tail| < |s|
    ensures Cut(s) == [Segment(line, true)] + Cut(tail) && Rest(s) == Rest(tail)
    ensures AfterLast(s) == AfterLast(tail)
  {
    var i := IndexOfNewline(s);
    line, tail := s[..i], s[i + 1..];
    assert s == line + [NEWLINE] + tail;
  }

  lemma JoinedEnded(line: Bytes, segs: seq<Segment>, rest: Bytes)
    ensures Joined([Segment(line, true)] + segs) + rest == line + [NEWLINE] + (Joined(segs) + rest)
  {
    var all := [Segment(line, true)] + segs;
    assert all[1..] == segs;
    assert Joined(all) == line + [NEWLINE] + Joined(segs);
  }

  lemma JoinedUnended(chunk: Bytes, segs: seq<Segment>, rest: Bytes)
    ensures Joined([Segment(chunk, false)] + segs) + rest == chunk + (Joined(segs) + rest)
  {
    var all := [Segment(chunk, false)] + segs;
    assert all[1..] == segs;
    assert Joined(all) == chunk + [] + Joined(segs);
  }

  /** Conservation: joining the segments and what is left gives back the input. */
  lemma {:induction false} CutConserves(s: Bytes)
    ensures Joined(Cut(s)) + Rest(s) == s
    decreases |s|
  {
    if IndexOfNewline(s) < 0 {
      ChunksRejoin(s);
    } else {
      var line, tail := FirstLine(s);
      CutConserves(tail);
      JoinedEnded(line, Cut(tail), Rest(tail));
    }
  }

  lemma WellCutBehind(line: Bytes, segs: seq<Segment>, rest: Bytes)
    requires NoNewline(line) && WellCut(segs, rest)
    ensures WellCut([Segment(line, true)] + segs, rest)
  {
  }

  lemma {:induction false} CutIsWellCut(s: Bytes)
    ensures WellCut(Cut(s), Rest(s))
    decreases |s|
  {
    if IndexOfNewline(s) < 0 {
      ChunksAreWellCut(s);
    } else {
      var line, tail := FirstLine(s);
      CutIsWellCut(tail);
      WellCutBehind(line, Cut(tail), Rest(tail));
    }
  }

  lemma {:induction false} UnendedHasNoNewline(segs: seq<Segment>, rest: Bytes)
    requires WellCut(segs, rest) && (segs == [] || !segs[0].ended)
    ensures NoNewline(Joined(segs) + rest)
    ensures segs == [] ==> |Joined(segs) + rest| < SPLIT
    ensures segs != [] ==> |Joined(segs) + rest| >= SPLIT
  {
    if segs != [] {
      assert WellCut(segs[1..], rest) && (segs[1..] == [] || !segs[1..][0].ended);
      UnendedHasNoNewline(segs[1..], rest);
      assert Joined(segs) + rest == segs[0].text + (Joined(segs[1..]) + rest);
    }
  }

  lemma CutUnended(chunk: Bytes, tail: Bytes)
    requires NoNewline(chunk) && NoNewline(tail) && |chunk| == SPLIT
    ensures Cut(chunk + tail) == [Segment(chunk, false)] + Cut(tail) && Rest(chunk + tail) == Rest(tail)
  {
    var s := chunk + tail;
    assert IndexOfNewline(s) < 0 && IndexOfNewline(tail) < 0;
    assert s[..SPLIT] == chunk && s[SPLIT..] == tail;
  }

  /** And there is only one way to cut given bytes. */
  lemma {:induction false} CutIsTheOnlyCut(segs: seq<Segment>, rest: Bytes)
    requires WellCut(segs, rest)
    ensures segs == Cut(Joined(segs) + rest) && rest == Rest(Joined(segs) + rest)
  {
    if segs == [] {
      assert Joined(segs) + rest == rest;
    } else {
      var first, others := segs[0], segs[1..];
      assert WellCut(others, rest) && segs == [first] + others;
      CutIsTheOnlyCut(others, rest);
      if first.ended {
        JoinedEnded(first.text, others, rest);
        SplitAtNewline(first.text, Joined(others) + rest);
      } else {
        UnendedHasNoNewline(others, rest);
        JoinedUnended(first.text, others, rest);
        CutUnended(first.text, Joined(others) + rest);
      }
    }
  }

  // ---------------------------------------------------------------------------------------
  // Composition
  // ---------------------------------------------------------------------------------------

  /** Writing a and then b emits what writing a + b emits. */
  predicate Composes(a: Bytes, b: Bytes) {
    Cut(a) + Cut(Rest(a) + b) == Cut(a + b) && Rest(Rest(a) + b) == Rest(a + b)
  }

  lemma {:induction false} ChunksCompose(a: Bytes, b: Bytes)
    requires NoNewline(a) && NoNewline(b)
    ensures Chunks(a) + Chunks(ChunkRest(a) + b) == Chunks(a + b)
    ensures ChunkRest(ChunkRest(a) + b) == ChunkRest(a + b)
    decreases |a|
  {
    if |a| >= SPLIT {
      ChunksCompose(a[SPLIT..], b);
      assert (a + b)[..SPLIT] == a[..SPLIT] && (a + b)[SPLIT..] == a[SPLIT..] + b;
    }
  }

  lemma ComposesBehindNewline(line: Bytes, t: Bytes, b: Bytes)
    requires NoNewline(line)
    ensures Composes(line + [NEWLINE] + t, b) <==> Composes(t, b)
  {
    var a := line + [NEWLINE] + t;
    var rest := Rest(t);
    SplitAtNewline(line, t);
    assert Rest(a) == rest;
    CutBehindNewline(line, t, b);
    SameFirst(Segment(line, true), Cut(t), Cut(rest + b), Cut(t + b));
  }

  lemma CutBehindNewline(line: Bytes, t: Bytes, b: Bytes)
    requires NoNewline(line)
    ensures Cut(line + [NEWLINE] + t + b) == [Segment(line, true)] + Cut(t + b)
    ensures Rest(line + [NEWLINE] + t + b) == Rest(t + b)
  {
    SplitAtNewline(line, t + b);
    assert line + [NEWLINE] + t + b == line + [NEWLINE] + (t + b);
  }

  lemma SameFirst(x: Segment, u: seq<Segment>, v: seq<Segment>, w: seq<Segment>)
    ensures [x] + u + v == [x] + w <==> u + v == w
  {
    assert [x] + u + v == [x] + (u + v);
    assert ([x] + (u + v))[1..] == u + v && ([x] + w)[1..] == w;
  }

  lemma ComposesWithoutNewline(a: Bytes, b: Bytes)
    requires NoNewline(a)
    ensures Composes(a, b) <==> |a| < SPLIT || NoNewline(b)
  {
    if |a| < SPLIT {
      ShortComposes(a, b);
    } else if NoNewline(b) {
      LongComposes(a, b);
    } else {
      FinishedTooLate(a, b);
    }
  }

  lemma ShortComposes(a: Bytes, b: Bytes)
    requires NoNewline(a) && |a| < SPLIT
    ensures Composes(a, b)
  {
    assert Cut(a) == [] && Rest(a) == a;
    assert [] + Cut(a + b) == Cut(a + b);
  }

  lemma LongComposes(a: Bytes, b: Bytes)
    requires NoNewline(a) && NoNewline(b)
    ensures Composes(a, b)
  {
    ChunksAreWellCut(a);
    ChunksCompose(a, b);
    NoLines(a);
    NoLines(a + b);
    NoLines(ChunkRest(a) + b);
  }

  lemma NoLines(s: Bytes)
    requires NoNewline(s)
    ensures Cut(s) == Chunks(s) && Rest(s) == ChunkRest(s)
  {
    assert IndexOfNewline(s) < 0;
  }

  /** The first thing emitted is a chunk in one case, and the whole line in the other. */
  lemma FinishedTooLate(a: Bytes, b: Bytes)
    requires NoNewline(a) && |a| >= SPLIT && !NoNewline(b)
    ensures !Composes(a, b)
  {
    NoLines(a);
    assert Chunks(a)[0] == Segment(a[..SPLIT], false);
    assert (Cut(a) + Cut(Rest(a) + b))[0] == Chunks(a)[0];
    assert (a + b)[|a| + IndexOfNewline(b)] == NEWLINE;
    assert Cut(a + b)[0].ended;
  }

  /** Splitting one write in two leaves the lines emitted unchanged exactly when the
      unfinished line in between has not been chunked yet, or the second write does not
      finish it. */
  lemma {:induction false} ComposesExactly(a: Bytes, b: Bytes)
    ensures Composes(a, b) <==> |AfterLast(a)| < SPLIT || NoNewline(b)
    decreases |a|
  {
    if IndexOfNewline(a) >= 0 {
      var line, tail := FirstLine(a);
      ComposesBehindNewline(line, tail, b);
      ComposesExactly(tail, b);
    } else {
      ComposesWithoutNewline(a, b);
    }
  }

  // ---------------------------------------------------------------------------------------
  // Length
  // ---------------------------------------------------------------------------------------

  function Max(a: int, b: int): int { if a < b then b else a }

  lemma {:induction false} SegmentWithin(s: Bytes, k: nat)
    requires k < |Cut(s)|
    ensures |Cut(s)[k].text| <= if Cut(s)[k].ended then |s| - 1 else SPLIT
    decreases |s|
  {
    var i := IndexOfNewline(s);
    if i < 0 {
      ChunksAreWellCut(s);
    } else if k > 0 {
      SegmentWithin(s[i + 1..], k - 1);
    }
  }

  /** A segment emitted while writing p over a held partial line is at most
      max(SPLIT, SPLIT + |p| - 2) bytes: a terminated line is emitted whole, however long. */
  lemma SegmentsAreBounded(partial: Bytes, p: Bytes, k: nat)
    requires |partial| < SPLIT && k < |Cut(partial + p)|
    ensures |Cut(partial + p)[k].text| <= Max(SPLIT, SPLIT + |p| - 2)
  {
    SegmentWithin(partial + p, k);
  }

  /** The bound is met, for writes of every length. */
  lemma BoundIsTight(partial: Bytes, p: Bytes)
    requires NoNewline(partial) && |partial| == SPLIT - 1
    requires |p| > 0 && NoNewline(p[..|p| - 1]) && p[|p| - 1] == NEWLINE
    ensures Cut(partial + p) == [Segment(partial + p[..|p| - 1], true)]
    ensures |Cut(partial + p)[0].text| == SPLIT + |p| - 2
  {
    var line := partial + p[..|p| - 1];
    assert partial + p == line + [NEWLINE] + [];
    SplitAtNewline(line, []);
  }
}
