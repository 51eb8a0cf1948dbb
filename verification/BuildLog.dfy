/**
 The build log's writer: it cuts output into lines, scrubs and stamps each, appends it to the
 file, and fans it out to whoever is tailing.

 The value type `Log` and the functions on it say what each operation does to the whole state;
 class `Writer` does the same in place.
 */
module BuildLog {
  import opened ByteStrings
  import opened LineCutter
  import opened LineReader

  /** What the writer calls on: the scrubber, the clock's reading for the n-th line (rendered),
      and the disk: negative when the n-th line is stored, otherwise how many of its bytes get
      there before the write fails. */
  datatype World = World(scrub: Bytes -> Bytes, stamp: nat -> Bytes, disk: nat -> int)

  /** Scrubbing adds no newline to a line that has none, and a stamp is a fixed-width prefix. */
  ghost predicate Sane(w: World) {
    && (forall s :: NoNewline(s) ==> NoNewline(w.scrub(s)))
    && (forall n :: NoNewline(w.stamp(n)) && |w.stamp(n)| == STAMP_WIDTH)
  }

  /** The n-th line, as it is stored and sent. */
  function Dressed(w: World, n: nat, text: Bytes): Bytes { w.stamp(n) + w.scrub(text) }

  /** A subscriber's channel: its capacity, everything ever put on it, how much of that was
      received, and whether it is open. `joined` is how many lines had been emitted when it
      attached, and `offered` how many of them the file read gave back. */
  datatype Chan = Chan(capacity: nat, put: seq<Bytes>, got: nat, open: bool, joined: nat, offered: nat)
  {
    predicate HasRoom() { |put| - got < capacity }
  }

  /** What has gone out: the file, the counters, the subscribers, and every segment emitted. */
  datatype Out = Out(
    file: Bytes,
    fileOpen: bool,
    lines: nat,
    bytes: nat,
    writeErr: bool,
    subs: set<nat>,
    chans: seq<Chan>,
    segs: seq<Segment>)

  /** The whole log; `written` is every byte accepted so far. */
  datatype Log = Log(partial: Bytes, closed: bool, written: Bytes, out: Out)

  const Fresh := Log([], false, [], Out([], true, 0, 0, false, {}, [], []))

  /** Every subscriber has a channel. */
  predicate Wf(o: Out) { forall c | c in o.subs :: c < |o.chans| }

  // ---------------------------------------------------------------------------------------
  // The operations
  // ---------------------------------------------------------------------------------------

  /** Put a line on a channel, or close it if it has no room: a subscriber that cannot keep up
      is dropped. */
  function Offer(c: Chan, line: Bytes): Chan {
    if c.HasRoom() then c.(put := c.put + [line]) else c.(open := false)
  }

  function OfferAll(chans: seq<Chan>, subs: set<nat>, line: Bytes): (r: seq<Chan>)
    ensures |r| == |chans|
    ensures forall i | 0 <= i < |r| :: r[i] == if i in subs then Offer(chans[i], line) else chans[i]
  {
    seq(|chans|, i requires 0 <= i < |chans| => if i in subs then Offer(chans[i], line) else chans[i])
  }

  function KeepUp(chans: seq<Chan>, subs: set<nat>): set<nat>
    requires forall c | c in subs :: c < |chans|
  {
    set c | c in subs && chans[c].HasRoom()
  }

  /** The file, after the next line was written to it. */
  function Store(w: World, o: Out, line: Bytes): (r: Out)
    ensures r == o.(file := r.file, fileOpen := r.fileOpen, bytes := r.bytes, writeErr := r.writeErr)
  {
    if !o.fileOpen then o
    else if w.disk(o.lines) < 0 then
      o.(file := o.file + (line + [NEWLINE]), bytes := o.bytes + |line| + 1)
    else
      o.(file := o.file + (line + [NEWLINE])[..Min(w.disk(o.lines), |line|)], fileOpen := false, writeErr := true)
  }

  function Emit(w: World, o: Out, seg: Segment): (r: Out)
    requires Wf(o)
    ensures Wf(r) && r.lines == o.lines + 1 && r.segs == o.segs + [seg]
  {
    var line := Dressed(w, o.lines, seg.text);
    Store(w, o, line).(
      lines := o.lines + 1,
      subs := KeepUp(o.chans, o.subs),
      chans := OfferAll(o.chans, o.subs, line),
      segs := o.segs + [seg])
  }

  function EmitAll(w: World, o: Out, segs: seq<Segment>): (r: Out)
    requires Wf(o)
    ensures Wf(r)
    decreases |segs|
  {
    if segs == [] then o else EmitAll(w, Emit(w, o, segs[0]), segs[1..])
  }

  /** Write consumes every byte; after Close it does nothing with them. */
  function DoWrite(w: World, l: Log, p: Bytes): (r: Log)
    requires Wf(l.out)
    ensures Wf(r.out)
  {
    if l.closed then l
    else Log(Rest(l.partial + p), false, l.written + p, EmitAll(w, l.out, Cut(l.partial + p)))
  }

  /** What a subscriber is shown first: nothing, if the file cannot be opened or read. */
  function Replay(o: Out, backlog: int, opens: bool): seq<Bytes> {
    if backlog <= 0 || !opens then []
    else match TailOf(o.file, backlog) case None => [] case Some(lines) => lines
  }

  function Capacity(buffer: int): nat { if buffer < 1 then 256 else buffer }

  /** The channel a subscriber gets: as much of the replay, from its oldest line on, as fits. */
  function NewChan(l: Log, buffer: int, backlog: int, opens: bool): Chan {
    var lines := Replay(l.out, backlog, opens);
    Chan(Capacity(buffer), lines[..Min(Capacity(buffer), |lines|)], 0, !l.closed, l.out.lines, |lines|)
  }

  function DoSubscribe(l: Log, buffer: int, backlog: int, opens: bool): (r: Log)
    requires Wf(l.out)
    ensures Wf(r.out)
  {
    l.(out := l.out.(
      chans := l.out.chans + [NewChan(l, buffer, backlog, opens)],
      subs := if l.closed then l.out.subs else l.out.subs + {|l.out.chans|}))
  }

  function DoCancel(o: Out, c: nat): (r: Out)
    requires Wf(o)
    ensures Wf(r)
  {
    if c in o.subs then o.(subs := o.subs - {c}, chans := o.chans[c := o.chans[c].(open := false)]) else o
  }

  /** A reader takes the next line off its channel. */
  function DoReceive(o: Out, c: nat): (r: Out)
    requires Wf(o)
    ensures Wf(r)
  {
    if c < |o.chans| && o.chans[c].got < |o.chans[c].put|
    then o.(chans := o.chans[c := o.chans[c].(got := o.chans[c].got + 1)]) else o
  }

  function HangUp(chans: seq<Chan>, subs: set<nat>): (r: seq<Chan>)
    ensures |r| == |chans|
    ensures forall i | 0 <= i < |r| :: r[i] == if i in subs then chans[i].(open := false) else chans[i]
  {
    seq(|chans|, i requires 0 <= i < |chans| => if i in subs then chans[i].(open := false) else chans[i])
  }

  function FlushPartial(w: World, l: Log): (r: Out)
    requires Wf(l.out)
    ensures Wf(r)
  {
    if l.partial == [] then l.out else Emit(w, l.out, Segment(l.partial, false))
  }

  /** Close emits what is left as a last line, ends every tail, and releases the file. */
  function DoClose(w: World, l: Log): (r: Log)
    requires Wf(l.out)
    ensures Wf(r.out)
  {
    if l.closed then l
    else
      var o := FlushPartial(w, l);
      Log([], true, l.written, o.(chans := HangUp(o.chans, o.subs), subs := {}, fileOpen := false))
  }

  /** The next line of a buffer is emitted first, and so is the next chunk of one without lines. */
  lemma EmitNextLine(w: World, o: Out, s: Bytes, i: nat)
    requires Wf(o) && i == IndexOfNewline(s)
    ensures EmitAll(w, o, Cut(s)) == EmitAll(w, Emit(w, o, Segment(s[..i], true)), Cut(s[i + 1..]))
    ensures Rest(s) == Rest(s[i + 1..])
  {
  }

  lemma EmitNextChunk(w: World, o: Out, s: Bytes)
    requires Wf(o) && |s| >= SPLIT
    ensures EmitAll(w, o, Chunks(s)) == EmitAll(w, Emit(w, o, Segment(s[..SPLIT], false)), Chunks(s[SPLIT..]))
    ensures ChunkRest(s) == ChunkRest(s[SPLIT..])
  {
  }

  datatype CloseResult = Closed | WriteFailed | CloseFailed

  /** Lines are put on a new channel, nobody receiving yet; those that find it full are let go. */
  method Fill(capacity: nat, found: seq<Bytes>) returns (put: seq<Bytes>)
    ensures put == found[..Min(capacity, |found|)]
  {
    put := [];
    for k := 0 to |found|
      invariant put == found[..Min(capacity, k)]
    {
      if |put| < capacity { put := put + [found[k]]; }
    }
  }

  // ---------------------------------------------------------------------------------------
  // The writer
  // ---------------------------------------------------------------------------------------

  class Writer {
    const world: World
    var partial: Bytes
    var file: Bytes
    var fileOpen: bool
    var lines: nat
    var bytes: nat
    var closed: bool
    var writeErr: bool
    var subs: set<nat>
    var chans: seq<Chan>
    ghost var written: Bytes
    ghost var segs: seq<Segment>

    ghost function Sent(): Out
      reads this
    {
      Out(file, fileOpen, lines, bytes, writeErr, subs, chans, segs)
    }

    ghost function View(): Log
      reads this
    {
      Log(partial, closed, written, Sent())
    }

    ghost predicate Valid()
      reads this
    {
      Wf(Sent())
    }

    /** The file is created empty, or truncated. */
    constructor (w: World)
      ensures Valid() && View() == Fresh && world == w
    {
      world := w;
      partial, file, fileOpen, lines, bytes := [], [], true, 0, 0;
      closed, writeErr, subs, chans := false, false, {}, [];
      written, segs := [], [];
    }

    method Append(line: Bytes)
      requires Valid()
      modifies this`file, this`fileOpen, this`bytes, this`writeErr
      ensures Sent() == Store(world, old(Sent()), line)
    {
      if fileOpen {
        var kept := world.disk(lines);
        if kept < 0 {
          file := file + (line + [NEWLINE]);
          bytes := bytes + |line| + 1;
        } else {
          file := file + (line + [NEWLINE])[..Min(kept, |line|)];
          writeErr := true;
          fileOpen := false;
        }
      }
    }

    /** The subscribers are visited in no particular order. */
    method FanOut(line: Bytes)
      requires Valid()
      modifies this`subs, this`chans
      ensures subs == KeepUp(old(chans), old(subs)) && chans == OfferAll(old(chans), old(subs), line)
    {
      var todo := subs;
      while todo != {}
        invariant todo <= old(subs) && |chans| == |old(chans)|
        invariant subs == set c | c in old(subs) && (c in todo || old(chans)[c].HasRoom())
        invariant forall i | 0 <= i < |chans| ::
          chans[i] == if i in old(subs) && i !in todo then Offer(old(chans)[i], line) else old(chans)[i]
        decreases |todo|
      {
        var c :| c in todo;
        if chans[c].HasRoom() {
          chans := chans[c := chans[c].(put := chans[c].put + [line])];
        } else {
          chans := chans[c := chans[c].(open := false)];
          subs := subs - {c};
        }
        todo := todo - {c};
      }
    }

    method EmitLine(seg: Segment)
      requires Valid()
      modifies this`file, this`fileOpen, this`bytes, this`writeErr, this`lines, this`subs, this`chans, this`segs
      ensures Valid() && Sent() == Emit(world, old(Sent()), seg)
    {
      var line := world.stamp(lines) + world.scrub(seg.text);
      Append(line);
      lines := lines + 1;
      FanOut(line);
      segs := segs + [seg];
    }

    method Write(p: Bytes) returns (n: nat)
      requires Valid()
      modifies this
      ensures n == |p|
      ensures Valid() && View() == DoWrite(world, old(View()), p)
    {
      if closed { return |p|; }
      partial := partial + p;
      written := written + p;
      EmitLines();
      FlushChunks();
      return |p|;
    }

    method EmitLines()
      requires Valid()
      modifies this`partial, this`file, this`fileOpen, this`bytes, this`writeErr, this`lines, this`subs, this`chans, this`segs
      ensures Valid() && NoNewline(partial)
      ensures Rest(partial) == Rest(old(partial))
      ensures EmitAll(world, Sent(), Cut(partial)) == EmitAll(world, old(Sent()), Cut(old(partial)))
    {
      var i := IndexOfNewline(partial);
      ghost var rest, all := Rest(partial), EmitAll(world, Sent(), Cut(partial));
      while i >= 0
        invariant Valid() && i == IndexOfNewline(partial)
        invariant Rest(partial) == rest && EmitAll(world, Sent(), Cut(partial)) == all
        decreases |partial|
      {
        ReleaseLine(i);
        i := IndexOfNewline(partial);
      }
    }

    /** One line less to emit. */
    method ReleaseLine(i: nat)
      requires Valid() && i == IndexOfNewline(partial)
      modifies this`partial, this`file, this`fileOpen, this`bytes, this`writeErr, this`lines, this`subs, this`chans, this`segs
      ensures Valid() && |partial| < |old(partial)| && Rest(partial) == Rest(old(partial))
      ensures EmitAll(world, Sent(), Cut(partial)) == EmitAll(world, old(Sent()), Cut(old(partial)))
    {
      EmitNextLine(world, Sent(), partial, i);
      Release(i, i + 1, true);
    }

    /** The first bytes held back are emitted, and let go with what ends them. */
    method Release(length: nat, width: nat, ended: bool)
      requires Valid() && length <= width <= |partial|
      modifies this`partial, this`file, this`fileOpen, this`bytes, this`writeErr, this`lines, this`subs, this`chans, this`segs
      ensures Valid()
      ensures partial == old(partial)[width..]
      ensures Sent() == Emit(world, old(Sent()), Segment(old(partial)[..length], ended))
    {
      var text := partial[..length];
      partial := partial[width..];
      EmitLine(Segment(text, ended));
    }

    method FlushChunks()
      requires Valid() && NoNewline(partial)
      modifies this`partial, this`file, this`fileOpen, this`bytes, this`writeErr, this`lines, this`subs, this`chans, this`segs
      ensures Valid()
      ensures Sent() == EmitAll(world, old(Sent()), Cut(old(partial))) && partial == Rest(old(partial))
    {
      assert Cut(partial) == Chunks(partial) && Rest(partial) == ChunkRest(partial);
      ghost var rest, all := ChunkRest(partial), EmitAll(world, Sent(), Chunks(partial));
      while |partial| >= SPLIT
        invariant Valid()
        invariant ChunkRest(partial) == rest && EmitAll(world, Sent(), Chunks(partial)) == all
        decreases |partial|
      {
        EmitNextChunk(world, Sent(), partial);
        Release(SPLIT, SPLIT, false);
      }
    }

    method Subscribe(buffer: int, backlog: int, opens: bool) returns (id: nat)
      requires Valid()
      modifies this`subs, this`chans
      ensures Valid() && View() == DoSubscribe(old(View()), buffer, backlog, opens)
      ensures id == |old(chans)|
    {
      var found: seq<Bytes> := [];
      if backlog > 0 && opens {
        var read := Tail(file, backlog);
        if read.Some? { found := read.value; }
      }
      var put := Fill(Capacity(buffer), found);
      id := |chans|;
      chans := chans + [Chan(Capacity(buffer), put, 0, !closed, lines, |found|)];
      if !closed { subs := subs + {id}; }
    }

    /** The cancel function handed out with channel c; calling it again does nothing. */
    method Cancel(c: nat)
      requires Valid()
      modifies this`subs, this`chans
      ensures Valid() && Sent() == DoCancel(old(Sent()), c)
    {
      if c in subs {
        subs := subs - {c};
        chans := chans[c := chans[c].(open := false)];
      }
    }

    method CloseSubs()
      requires Valid()
      modifies this`subs, this`chans
      ensures subs == {} && chans == HangUp(old(chans), old(subs))
    {
      while subs != {}
        invariant subs <= old(subs) && |chans| == |old(chans)|
        invariant forall i | 0 <= i < |chans| ::
          chans[i] == if i in old(subs) && i !in subs then old(chans)[i].(open := false) else old(chans)[i]
        decreases |subs|
      {
        var c :| c in subs;
        chans := chans[c := chans[c].(open := false)];
        subs := subs - {c};
      }
    }

    method FlushRest()
      requires Valid()
      modifies this`partial, this`file, this`fileOpen, this`bytes, this`writeErr, this`lines, this`subs, this`chans, this`segs
      ensures Valid() && partial == []
      ensures Sent() == FlushPartial(world, old(View()))
    {
      if |partial| > 0 {
        EmitLine(Segment(partial, false));
        partial := [];
      }
    }

    /** A second Close does nothing and reports no error. */
    method Close(releaseFails: bool) returns (r: CloseResult)
      requires Valid()
      modifies this
      ensures Valid() && View() == DoClose(world, old(View()))
      ensures old(closed) ==> r == CloseResult.Closed
      ensures !old(closed) ==> (r == WriteFailed <==> writeErr)
      ensures !old(closed) && !writeErr && old(fileOpen) ==> (r == CloseFailed <==> releaseFails)
    {
      if closed { return CloseResult.Closed; }
      closed := true;
      FlushRest();
      CloseSubs();
      r := ReleaseFile(releaseFails);
    }

    /** A failure to write that was met earlier is the one reported. */
    method ReleaseFile(releaseFails: bool) returns (r: CloseResult)
      modifies this`fileOpen
      ensures !fileOpen
      ensures r == if writeErr then WriteFailed
                   else if old(fileOpen) && releaseFails then CloseFailed else CloseResult.Closed
    {
      if !fileOpen { return if writeErr then WriteFailed else CloseResult.Closed; }
      fileOpen := false;
      if writeErr { return WriteFailed; }
      return if releaseFails then CloseFailed else CloseResult.Closed;
    }
  }
}
