/**
 Server-sent events: what the daemon writes, and what a browser makes of it.

 The interpreter follows sections 9.2.5 and 9.2.6 of the WHATWG HTML standard: lines end at CR,
 LF or CRLF, an empty line dispatches, and an event still unfinished when the stream ends is
 discarded.
 */
module EventStream {
  import opened Lists
  import opened Strings

  const CR: char := '\r'
  const LF: char := '\n'

  predicate Plain(s: string) { CR !in s && LF !in s }

  // ---------------------------------------------------------------------------------------
  // The standard's interpreter
  // ---------------------------------------------------------------------------------------

  datatype Event = Event(name: string, data: string, id: string)

  datatype Parser = Parser(data: string, event: string, id: string)

  const Idle := Parser("", "", "")

  /** The first line terminator. */
  function LineEnd(s: string): (i: int)
    ensures i < 0 ==> Plain(s)
    ensures 0 <= i ==> i < |s| && Plain(s[..i]) && (s[i] == CR || s[i] == LF)
  {
    if s == [] then -1
    else if s[0] == CR || s[0] == LF then 0
    else
      var i := LineEnd(s[1..]);
      if i < 0 then (assert s == [s[0]] + s[1..]; -1) else (assert s[..i + 1] == [s[0]] + s[1..][..i]; i + 1)
  }

  function Field(p: Parser, name: string, value: string): Parser {
    if name == "event" then p.(event := value)
    else if name == "data" then p.(data := p.data + value + [LF])
    else if name == "id" then (if '\0' in value then p else p.(id := value))
    else p
  }

  /** What a line that is not empty does to the parser. */
  function Feed(p: Parser, line: string): Parser
    requires line != []
  {
    var colon := IndexOf(line, ':');
    if colon == 0 then p
    else if colon < 0 then Field(p, line, "")
    else
      var value := line[colon + 1..];
      Field(p, line[..colon], if value != [] && value[0] == ' ' then value[1..] else value)
  }

  /** The event an empty line dispatches; none when there is no data. */
  function Dispatched(p: Parser): seq<Event> {
    if p.data == "" then []
    else [Event(if p.event == "" then "message" else p.event,
                if p.data[|p.data| - 1] == LF then p.data[..|p.data| - 1] else p.data,
                p.id)]
  }

  /** Events dispatched while reading s. */
  function Interpret(p: Parser, s: string): seq<Event>
    decreases |s|
  {
    var e := LineEnd(s);
    if e < 0 then []
    else
      var rest := s[e + (if s[e] == CR && e + 1 < |s| && s[e + 1] == LF then 2 else 1)..];
      if e == 0 then Dispatched(p) + Interpret(Parser("", "", p.id), rest)
      else Interpret(Feed(p, s[..e]), rest)
  }

  const BYTE_ORDER_MARK: char := '\U{FEFF}'

  /** What a browser dispatches for a whole stream. */
  function Parse(stream: string): seq<Event> {
    Interpret(Idle, if stream != [] && stream[0] == BYTE_ORDER_MARK then stream[1..] else stream)
  }

  // ---------------------------------------------------------------------------------------
  // What the daemon writes
  // ---------------------------------------------------------------------------------------

  function Split(s: string): (parts: seq<string>)
    ensures |parts| > 0
    decreases |s|
  {
    var i := IndexOf(s, LF);
    if i < 0 then [s] else [s[..i]] + Split(s[i + 1..])
  }

  function DataFields(parts: seq<string>): string {
    if parts == [] then "" else "data: " + parts[0] + [LF] + DataFields(parts[1..])
  }

  /** The text with every kind of line terminator turned into LF, in one pass. */
  function Normalized(s: string): string
    decreases |s|
  {
    if s == [] then []
    else if s[0] == CR then [LF] + Normalized(if |s| > 1 && s[1] == LF then s[2..] else s[1..])
    else [s[0]] + Normalized(s[1..])
  }

  /** The frames of a stream: a log line, a named event carrying encoded data, a heartbeat. */
  datatype Frame = Line(text: string) | Named(name: string, payload: string) | Ping

  /** An event's name and its payload are on one line each: JSON escapes control characters. */
  predicate FrameOk(f: Frame) { f.Named? ==> Plain(f.name) && Plain(f.payload) }

  function Rendered(f: Frame): string {
    match f
    case Line(text) =>
      "event: line\n" + DataFields(Split(ReplaceAll(ReplaceAll(text, "\r\n", "\n"), "\r", "\n"))) + "\n"
    case Named(name, payload) => "event: " + name + "\n" + "data: " + payload + "\n" + "\n"
    case Ping => ": ping\n\n"
  }

  function RenderedAll(frames: seq<Frame>): string {
    if frames == [] then "" else Rendered(frames[0]) + RenderedAll(frames[1..])
  }

  /** What each frame is meant to say. */
  function Meaning(f: Frame): seq<Event> {
    match f
    case Line(text) => [Event("line", Normalized(text), "")]
    case Named(name, payload) => [Event(if name == "" then "message" else name, payload, "")]
    case Ping => []
  }

  function MeaningAll(frames: seq<Frame>): seq<Event> {
    if frames == [] then [] else Meaning(frames[0]) + MeaningAll(frames[1..])
  }

  // ---------------------------------------------------------------------------------------
  // Two replacements make one normalization
  // ---------------------------------------------------------------------------------------

  lemma {:induction false} CrAlone(s: string)
    ensures |ReplaceAll(s, "\r\n", "\n")| <= |s|
    ensures ReplaceAll(ReplaceAll(s, "\r\n", "\n"), "\r", "\n") == Normalized(s)
    decreases |s|
  {
    if |s| >= 2 {
      if s[..2] == "\r\n" {
        CrAlone(s[2..]);
        Prefixed(LF, ReplaceAll(s[2..], "\r\n", "\n"));
      } else {
        CrAlone(s[1..]);
        Prefixed(s[0], ReplaceAll(s[1..], "\r\n", "\n"));
        assert s[0] == CR ==> s[1] != LF;
      }
    } else if |s| == 1 {
      Prefixed(s[0], "");
      assert s == [s[0]] + "";
    }
  }

  lemma Prefixed(c: char, s: string)
    ensures ReplaceAll([c] + s, "\r", "\n") == [if c == CR then LF else c] + ReplaceAll(s, "\r", "\n")
  {
    assert ([c] + s)[..1] == [c] && ([c] + s)[1..] == s;
  }

  lemma {:induction false} NormalizedHasNoCR(s: string)
    ensures CR !in Normalized(s)
    decreases |s|
  {
    if s != [] {
      NormalizedHasNoCR(s[1..]);
      if |s| > 1 { NormalizedHasNoCR(s[2..]); }
    }
  }

  predicate AllPlain(parts: seq<string>) { forall i | 0 <= i < |parts| :: Plain(parts[i]) }

  /** Parts joined again, each followed by LF: one LF more than the text. */
  function Terminated(parts: seq<string>): string {
    if parts == [] then "" else parts[0] + [LF] + Terminated(parts[1..])
  }

  lemma AllPlainBehind(first: string, parts: seq<string>)
    requires Plain(first) && AllPlain(parts)
    ensures AllPlain([first] + parts) && Terminated([first] + parts) == first + [LF] + Terminated(parts)
  {
    assert ([first] + parts)[1..] == parts;
  }

  lemma {:induction false} SplitParts(s: string)
    requires CR !in s
    ensures AllPlain(Split(s)) && Terminated(Split(s)) == s + [LF]
    decreases |s|
  {
    var i := IndexOf(s, LF);
    if i >= 0 {
      var first, rest := s[..i], s[i + 1..];
      SplitParts(rest);
      Around(s, i);
      AllPlainBehind(first, Split(rest));
      Regroup(first, [LF], rest, [LF]);
    } else {
      assert Terminated([s]) == s + [LF] + [];
    }
  }

  // ---------------------------------------------------------------------------------------
  // Reading back
  // ---------------------------------------------------------------------------------------

  lemma {:induction false} LineEndAt(line: string, rest: string)
    requires Plain(line)
    ensures LineEnd(line + [LF] + rest) == |line|
  {
    if line != [] {
      LineEndAt(line[1..], rest);
      assert (line + [LF] + rest)[1..] == line[1..] + [LF] + rest;
    }
  }

  lemma ReadLine(p: Parser, line: string, rest: string)
    requires Plain(line) && line != []
    ensures Interpret(p, line + [LF] + rest) == Interpret(Feed(p, line), rest)
  {
    LineEndAt(line, rest);
    var s := line + [LF] + rest;
    assert s[..|line|] == line && s[|line| + 1..] == rest;
  }

  lemma ReadBlank(p: Parser, rest: string)
    ensures Interpret(p, [LF] + rest) == Dispatched(p) + Interpret(Parser("", "", p.id), rest)
  {
    assert ([LF] + rest)[1..] == rest;
  }

  lemma FeedField(p: Parser, name: string, value: string)
    requires ':' !in name && name != []
    ensures Feed(p, name + ": " + value) == Field(p, name, value)
  {
    var line := name + ": " + value;
    assert line == name + ":" + (" " + value);
    IndexAt(name, ':', " " + value);
    assert line[..|name|] == name && line[|name| + 1..] == " " + value;
    assert (" " + value)[1..] == value;
  }

  lemma ReadField(p: Parser, name: string, value: string, rest: string)
    requires ':' !in name && name != [] && Plain(name) && Plain(value)
    ensures Interpret(p, name + ": " + value + [LF] + rest) == Interpret(Field(p, name, value), rest)
  {
    var line := name + ": " + value;
    assert Plain(line);
    ReadLine(p, line, rest);
    FeedField(p, name, value);
  }

  lemma {:induction false} ReadData(p: Parser, parts: seq<string>, rest: string)
    requires AllPlain(parts)
    ensures Interpret(p, DataFields(parts) + rest) == Interpret(p.(data := p.data + Terminated(parts)), rest)
    decreases |parts|
  {
    if parts == [] {
      assert DataFields(parts) + rest == rest && p.data + Terminated(parts) == p.data;
    } else {
      FirstField(p, parts, rest);
      var q := Field(p, "data", parts[0]);
      ReadData(q, parts[1..], rest);
      Regroup(p.data, parts[0], [LF], Terminated(parts[1..]));
    }
  }

  lemma FirstField(p: Parser, parts: seq<string>, rest: string)
    requires AllPlain(parts) && parts != []
    ensures Interpret(p, DataFields(parts) + rest)
         == Interpret(Field(p, "data", parts[0]), DataFields(parts[1..]) + rest)
  {
    var more := DataFields(parts[1..]);
    assert "data" + ": " + parts[0] == "data: " + parts[0];
    assert DataFields(parts) + rest == "data" + ": " + parts[0] + [LF] + (more + rest);
    ReadField(p, "data", parts[0], more + rest);
  }

  lemma ReadEvent(name: string, parts: seq<string>, data: string, rest: string)
    requires Plain(name) && AllPlain(parts) && Terminated(parts) == data + [LF]
    ensures Interpret(Idle, "event: " + name + [LF] + (DataFields(parts) + ([LF] + rest)))
         == [Event(if name == "" then "message" else name, data, "")] + Interpret(Idle, rest)
  {
    assert "event" + ": " + name == "event: " + name;
    ReadField(Idle, "event", name, DataFields(parts) + ([LF] + rest));
    var p := Idle.(event := name);
    ReadData(p, parts, [LF] + rest);
    ReadEnd(name, data, rest);
    assert p.data + Terminated(parts) == data + [LF];
  }

  lemma ReadEnd(name: string, data: string, rest: string)
    ensures Interpret(Parser(data + [LF], name, ""), [LF] + rest)
         == [Event(if name == "" then "message" else name, data, "")] + Interpret(Idle, rest)
  {
    var q := Parser(data + [LF], name, "");
    ReadBlank(q, rest);
    assert q.data[..|q.data| - 1] == data;
  }

  lemma ReadFrame(f: Frame, rest: string)
    requires FrameOk(f)
    ensures Interpret(Idle, Rendered(f) + rest) == Meaning(f) + Interpret(Idle, rest)
  {
    match f {
      case Line(text) => ReadLineFrame(text, rest);
      case Named(name, payload) =>
        assert Terminated([payload]) == payload + [LF] + [];
        NamedFrame(name, payload, rest);
        ReadEvent(name, [payload], payload, rest);
      case Ping => ReadPing(rest);
    }
  }

  lemma ReadLineFrame(text: string, rest: string)
    ensures Interpret(Idle, Rendered(Line(text)) + rest) == Meaning(Line(text)) + Interpret(Idle, rest)
  {
    CrAlone(text);
    NormalizedHasNoCR(text);
    var parts := Split(Normalized(text));
    SplitParts(Normalized(text));
    LineShape(DataFields(parts), rest);
    ReadEvent("line", parts, Normalized(text), rest);
  }

  lemma LineShape(fields: string, rest: string)
    ensures "event: line\n" + fields + "\n" + rest == "event: " + "line" + [LF] + (fields + ([LF] + rest))
  {
    assert "event: line\n" == "event: " + "line" + [LF];
  }

  lemma ReadPing(rest: string)
    ensures Interpret(Idle, ": ping\n\n" + rest) == Interpret(Idle, rest)
  {
    assert ": ping\n\n" + rest == ": ping" + [LF] + ([LF] + rest);
    ReadLine(Idle, ": ping", [LF] + rest);
    ReadBlank(Idle, rest);
  }

  lemma NamedFrame(name: string, payload: string, rest: string)
    ensures Rendered(Named(name, payload)) + rest
         == "event: " + name + [LF] + (DataFields([payload]) + ([LF] + rest))
  {
    assert DataFields([payload]) == "data: " + payload + [LF] + [];
  }

  lemma {:induction false} ReadFrames(frames: seq<Frame>)
    requires forall i | 0 <= i < |frames| :: FrameOk(frames[i])
    ensures Interpret(Idle, RenderedAll(frames)) == MeaningAll(frames)
  {
    if frames != [] {
      ReadFrame(frames[0], RenderedAll(frames[1..]));
      ReadFrames(frames[1..]);
    }
  }

  /** A browser reading any sequence of frames dispatches exactly the events they stand for: one
      named "line" per log line, whose data is the text with its line terminators normalized,
      one per named event, and none for a heartbeat. Nothing in a text can end its frame. */
  lemma StreamReadsBack(frames: seq<Frame>)
    requires forall i | 0 <= i < |frames| :: FrameOk(frames[i])
    ensures Parse(RenderedAll(frames)) == MeaningAll(frames)
  {
    ReadFrames(frames);
    if frames != [] {
      assert RenderedAll(frames)[0] == Rendered(frames[0])[0];
    }
  }

  // ---------------------------------------------------------------------------------------
  // A stream that breaks off
  // ---------------------------------------------------------------------------------------

  predicate IsPrefix(a: seq<Event>, b: seq<Event>) { |a| <= |b| && a == b[..|a|] }

  lemma PlainDispatchesNothing(p: Parser, s: string)
    requires Plain(s)
    ensures Interpret(p, s) == []
  {
    assert LineEnd(s) < 0;
  }

  /** Reading a line, empty or not, and then the rest. */
  lemma ReadAnyLine(p: Parser, line: string, rest: string)
    requires Plain(line)
    ensures Interpret(p, line + [LF] + rest) ==
      if line == "" then Dispatched(p) + Interpret(Parser("", "", p.id), rest) else Interpret(Feed(p, line), rest)
  {
    if line == "" {
      assert line + [LF] + rest == [LF] + rest;
      ReadBlank(p, rest);
    } else {
      ReadLine(p, line, rest);
    }
  }

  lemma PrefixBehind(d: seq<Event>, a: seq<Event>, b: seq<Event>)
    requires IsPrefix(a, b)
    ensures IsPrefix(d + a, d + b)
  {
    assert (d + b)[..|d + a|] == d + b[..|a|];
  }

  lemma CutAfterLine(p: Parser, line: string, rest: string, j: nat)
    requires Plain(line) && j <= |rest|
    requires var q := if line == "" then Parser("", "", p.id) else Feed(p, line);
             IsPrefix(Interpret(q, rest[..j]), Interpret(q, rest))
    ensures IsPrefix(Interpret(p, line + [LF] + rest[..j]), Interpret(p, line + [LF] + rest))
  {
    ReadAnyLine(p, line, rest);
    ReadAnyLine(p, line, rest[..j]);
    if line == "" {
      var q := Parser("", "", p.id);
      PrefixBehind(Dispatched(p), Interpret(q, rest[..j]), Interpret(q, rest));
    }
  }

  lemma CutInLine(p: Parser, s: string, k: nat)
    requires CR !in s && k <= |s| && (IndexOf(s, LF) < 0 || k <= IndexOf(s, LF))
    ensures Interpret(p, s[..k]) == []
  {
    var e := IndexOf(s, LF);
    assert e >= 0 ==> s[..k] == s[..e][..k];
    PlainDispatchesNothing(p, s[..k]);
  }

  lemma {:induction false} CutDispatchesAPrefix(p: Parser, s: string, k: nat)
    requires CR !in s && k <= |s|
    ensures IsPrefix(Interpret(p, s[..k]), Interpret(p, s))
    decreases |s|
  {
    var e := IndexOf(s, LF);
    if e < 0 || k <= e {
      CutInLine(p, s, k);
    } else {
      var line, rest := s[..e], s[e + 1..];
      CutDispatchesAPrefix(if line == "" then Parser("", "", p.id) else Feed(p, line), rest, k - e - 1);
      CutAfterLine(p, line, rest, k - e - 1);
      Around(s, e);
      AroundPrefix(s, e, k);
    }
  }

  lemma RenderedHasNoCR(f: Frame)
    requires FrameOk(f)
    ensures CR !in Rendered(f)
  {
    if f.Line? {
      CrAlone(f.text);
      NormalizedHasNoCR(f.text);
      SplitParts(Normalized(f.text));
      FieldsHaveNoCR(Split(Normalized(f.text)));
    }
  }

  lemma {:induction false} FieldsHaveNoCR(parts: seq<string>)
    requires AllPlain(parts)
    ensures CR !in DataFields(parts)
  {
    if parts != [] { FieldsHaveNoCR(parts[1..]); }
  }

  lemma {:induction false} StreamHasNoCR(frames: seq<Frame>)
    requires forall i | 0 <= i < |frames| :: FrameOk(frames[i])
    ensures CR !in RenderedAll(frames)
  {
    if frames != [] {
      RenderedHasNoCR(frames[0]);
      StreamHasNoCR(frames[1..]);
    }
  }

  /** A stream that breaks off anywhere dispatches the first of its events, whole, and no part of
      the next. */
  lemma BrokenStreamDispatchesAPrefix(frames: seq<Frame>, k: nat)
    requires forall i | 0 <= i < |frames| :: FrameOk(frames[i])
    requires k <= |RenderedAll(frames)|
    ensures IsPrefix(Parse(RenderedAll(frames)[..k]), MeaningAll(frames))
  {
    var s := RenderedAll(frames);
    StreamHasNoCR(frames);
    CutDispatchesAPrefix(Idle, s, k);
    ReadFrames(frames);
    if k > 0 {
      assert s[..k][0] == Rendered(frames[0])[0];
    }
  }

  // ---------------------------------------------------------------------------------------
  // The writer
  // ---------------------------------------------------------------------------------------

  lemma LineReadsBack(text: string)
    ensures Parse(Rendered(Line(text))) == [Event("line", Normalized(text), "")]
  {
    var r := Rendered(Line(text));
    assert r[0] == 'e';
    ReadLineFrame(text, "");
    assert r + "" == r;
    assert Interpret(Idle, "") == [];
    assert Meaning(Line(text)) + [] == Meaning(Line(text));
  }

  /** What is sent for one log line: on its own it reads back as that line. */
  method FrameLine(text: string) returns (b: string)
    ensures Parse(b) == [Event("line", Normalized(text), "")]
    ensures b == Rendered(Line(text))
  {
    var t := ReplaceAll(text, "\r\n", "\n");
    t := ReplaceAll(t, "\r", "\n");
    var fields := FrameParts(Split(t));
    b := "event: line\n" + fields + "\n";
    LineReadsBack(text);
  }

  method FrameParts(parts: seq<string>) returns (b: string)
    ensures b == DataFields(parts)
  {
    b := "";
    var i := 0;
    while i < |parts|
      invariant 0 <= i <= |parts|
      invariant b + DataFields(parts[i..]) == DataFields(parts)
    {
      Regroup(b, "data: " + parts[i], [LF], DataFields(parts[i + 1..]));
      b := b + ("data: " + parts[i]);
      b := b + [LF];
      i := i + 1;
    }
  }

  // ---------------------------------------------------------------------------------------
  // The interpreter itself
  // ---------------------------------------------------------------------------------------

  /** What follows the terminator at e. */
  function Behind(s: string, e: nat): string
    requires e < |s|
  {
    if s[e] == CR && e + 1 < |s| && s[e + 1] == LF then s[e + 2..] else s[e + 1..]
  }

  lemma {:induction false} NormalizedPlain(s: string)
    requires Plain(s)
    ensures Normalized(s) == s
  {
    if s != [] {
      NormalizedPlain(s[1..]);
      assert s == [s[0]] + s[1..];
    }
  }

  lemma {:induction false} NormalizedByLine(s: string)
    requires LineEnd(s) >= 0
    ensures Normalized(s) == s[..LineEnd(s)] + [LF] + Normalized(Behind(s, LineEnd(s)))
    decreases |s|
  {
    var e := LineEnd(s);
    if e == 0 {
      assert s[..0] + [LF] == [LF];
    } else {
      NormalizedByLine(s[1..]);
      assert Behind(s[1..], e - 1) == Behind(s, e);
      assert s[..e] == [s[0]] + s[1..][..e - 1];
    }
  }

  /** Whichever of CR, LF and CRLF ends its lines, a stream says the same. */
  lemma {:induction false} TerminatorsDoNotMatter(p: Parser, s: string)
    ensures Interpret(p, Normalized(s)) == Interpret(p, s)
    decreases |s|
  {
    var e := LineEnd(s);
    if e < 0 {
      NormalizedPlain(s);
    } else {
      var rest := Behind(s, e);
      NormalizedByLine(s);
      ReadAnyLine(p, s[..e], Normalized(rest));
      TerminatorsDoNotMatter(if e == 0 then Parser("", "", p.id) else Feed(p, s[..e]), rest);
    }
  }

  /** What lines of each kind do, as section 9.2.6 says: a comment, an id, an id that may not be set, a
      field nobody knows, a field without a value, and one without a space in front of its value. */
  lemma LinesAre(p: Parser, value: string)
    ensures Feed(p, ":" + value) == p
    ensures Feed(p, "id: " + value) == if '\0' in value then p else p.(id := value)
    ensures Feed(p, "retry: " + value) == p
    ensures Feed(p, "data") == p.(data := p.data + "\n")
    ensures value == "" || value[0] != ' ' ==> Feed(p, "data:" + value) == p.(data := p.data + value + "\n")
  {
    CommentIs(p, value);
    IdIs(p, value);
    RetryIs(p, value);
    BareDataIs(p);
    if value == "" || value[0] != ' ' { DataWithoutSpace(p, value); }
  }

  lemma CommentIs(p: Parser, text: string)
    ensures Feed(p, ":" + text) == p
  {
    assert IndexOf(":" + text, ':') == 0;
  }

  lemma IdIs(p: Parser, value: string)
    ensures Feed(p, "id: " + value) == if '\0' in value then p else p.(id := value)
  {
    FeedField(p, "id", value);
    assert "id" + ": " + value == "id: " + value;
  }

  lemma RetryIs(p: Parser, value: string)
    ensures Feed(p, "retry: " + value) == p
  {
    FeedField(p, "retry", value);
    assert "retry" + ": " + value == "retry: " + value;
  }

  lemma BareDataIs(p: Parser)
    ensures Feed(p, "data") == p.(data := p.data + "\n")
  {
    assert ':' !in "data";
    assert p.data + "" + [LF] == p.data + "\n";
  }

  lemma DataWithoutSpace(p: Parser, value: string)
    requires value == "" || value[0] != ' '
    ensures Feed(p, "data:" + value) == p.(data := p.data + value + "\n")
  {
    var line := "data:" + value;
    assert line == "data" + [':'] + value;
    IndexAt("data", ':', value);
    assert line[..4] == "data" && line[5..] == value;
  }

  /** A mark at the start of a stream is skipped. */
  lemma MarkIsSkipped(s: string)
    requires s == "" || s[0] != '\U{FEFF}'
    ensures Parse("\U{FEFF}" + s) == Parse(s)
  {
    assert ("\U{FEFF}" + s)[1..] == s;
  }
}
