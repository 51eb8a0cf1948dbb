/**
 How a stored log is read back: split into lines, each without its newline and without one
 trailing carriage return, keeping the last n. A line that does not fit the reader's buffer
 together with its newline makes the whole read fail.
 */
module LineReader {
  import opened ByteStrings
  import opened Lists
  import opened LineCutter

  const CARRIAGE_RETURN: Byte := 13

  function DropCR(line: Bytes): Bytes {
    if line != [] && line[|line| - 1] == CARRIAGE_RETURN then line[..|line| - 1] else line
  }

  /** A reader drops one carriage return at the end of a line, and nothing else. */
  lemma OneReturnIsDropped(line: Bytes)
    ensures DropCR(line + [13]) == line
    ensures line == [] || line[|line| - 1] != 13 ==> DropCR(line) == line
  {
    assert (line + [13])[..|line|] == line;
  }

  function DropCRs(lines: seq<Bytes>): (r: seq<Bytes>)
    ensures |r| == |lines|
    ensures forall i | 0 <= i < |lines| :: r[i] == DropCR(lines[i])
  {
    seq(|lines|, i requires 0 <= i < |lines| => DropCR(lines[i]))
  }

  predicate Fits(line: Bytes) { |line| < READ_BUFFER }

  /** Every line of a file, or None when one is too long for the reader. */
  function Scan(content: Bytes): Option<seq<Bytes>>
    decreases |content|
  {
    if content == [] then Some([])
    else
      var i := IndexOfNewline(content);
      if i < 0 then
        if Fits(content) then Some([DropCR(content)]) else None
      else if !Fits(content[..i]) then None
      else
        match Scan(content[i + 1..])
        case None => None
        case Some(lines) => Some([DropCR(content[..i])] + lines)
  }

  function LastN<T>(s: seq<T>, n: nat): (r: seq<T>)
    ensures |r| == Min(n, |s|) && r == s[|s| - |r|..]
  {
    if |s| <= n then s else s[|s| - n..]
  }

  function Min(a: int, b: int): int { if a < b then a else b }

  /** What the reader gives for the last n lines. */
  function TailOf(content: Bytes, n: nat): Option<seq<Bytes>> {
    match Scan(content)
    case None => None
    case Some(lines) => Some(LastN(lines, n))
  }

  function Prepend(lines: seq<Bytes>, rest: Option<seq<Bytes>>): Option<seq<Bytes>> {
    match rest
    case None => None
    case Some(more) => Some(lines + more)
  }

  /** One round of the scanner: the next line and what is behind it. */
  method NextLine(content: Bytes) returns (line: Option<Bytes>, rest: Bytes)
    requires content != []
    ensures line.Some? ==> |rest| < |content| && Scan(content) == Prepend([line.value], Scan(rest))
    ensures line.None? ==> Scan(content) == None
  {
    var i := IndexOfNewline(content);
    var text, width := content, |content|;
    if i >= 0 { text, width := content[..i], i + 1; }
    rest := content[width..];
    assert i < 0 ==> text == content && rest == [] && Scan(rest) == Some([]);
    assert i >= 0 ==> text == content[..i] && rest == content[i + 1..];
    assert [DropCR(text)] + [] == [DropCR(text)];
    if Fits(text) { line := Some(DropCR(text)); } else { line := None; }
  }

  /** The reader keeps a window of n lines while it scans; it needs n to be at least one. */
  method Tail(content: Bytes, n: nat) returns (r: Option<seq<Bytes>>)
    requires n > 0
    ensures r == TailOf(content, n)
  {
    var ring: seq<Bytes>, rest := [], content;
    ghost var seen: seq<Bytes> := [];
    assert Scan(rest).Some? ==> seen + Scan(rest).value == Scan(rest).value;
    while rest != []
      invariant Scan(content) == Prepend(seen, Scan(rest))
      invariant ring == LastN(seen, n)
      decreases |rest|
    {
      var line, after := NextLine(rest);
      if line.None? { return None; }
      PrependTwice(seen, line.value, Scan(after));
      SlideWindow(seen, line.value, n);
      if |ring| == n { ring := ring[1..]; }
      ring := ring + [line.value];
      seen := seen + [line.value];
      rest := after;
    }
    assert seen + [] == seen;
    return Some(ring);
  }

  lemma SlideWindow<T>(seen: seq<T>, x: T, n: nat)
    requires n > 0
    ensures LastN(seen + [x], n) == (if |LastN(seen, n)| == n then LastN(seen, n)[1..] else LastN(seen, n)) + [x]
  {
  }

  lemma PrependTwice(a: seq<Bytes>, x: Bytes, rest: Option<seq<Bytes>>)
    ensures Prepend(a, Prepend([x], rest)) == Prepend(a + [x], rest)
  {
    if rest.Some? {
      assert a + ([x] + rest.value) == a + [x] + rest.value;
    }
  }

  // ---------------------------------------------------------------------------------------
  // Reading back what was stored
  // ---------------------------------------------------------------------------------------

  /** A file of complete lines. */
  function Stored(lines: seq<Bytes>): Bytes {
    if lines == [] then [] else lines[0] + [NEWLINE] + Stored(lines[1..])
  }

  predicate AllFit(lines: seq<Bytes>) { forall i | 0 <= i < |lines| :: Fits(lines[i]) }

  predicate PlainLines(lines: seq<Bytes>) { forall i | 0 <= i < |lines| :: NoNewline(lines[i]) }

  lemma ScanBehindNewline(line: Bytes, rest: Bytes)
    requires NoNewline(line)
    ensures Scan(line + [NEWLINE] + rest) == if Fits(line) then Prepend([DropCR(line)], Scan(rest)) else None
  {
    IndexAt(line, NEWLINE, rest);
    var s := line + [NEWLINE] + rest;
    assert s[..|line|] == line && s[|line| + 1..] == rest;
  }

  lemma FirstAndRest(lines: seq<Bytes>)
    requires lines != []
    ensures AllFit(lines) <==> Fits(lines[0]) && AllFit(lines[1..])
    ensures PlainLines(lines) ==> NoNewline(lines[0]) && PlainLines(lines[1..])
  {
    assert forall i | 0 < i < |lines| :: lines[i] == lines[1..][i - 1];
  }

  lemma DropFirstAndRest(lines: seq<Bytes>)
    requires lines != []
    ensures DropCRs(lines) == [DropCR(lines[0])] + DropCRs(lines[1..])
  {
  }

  /** The file reads back as its lines, each without one trailing carriage return, exactly
      when every one of them fits the reader. */
  lemma {:induction false} StoredReadsBack(lines: seq<Bytes>)
    requires PlainLines(lines)
    ensures Scan(Stored(lines)) == if AllFit(lines) then Some(DropCRs(lines)) else None
  {
    if lines == [] {
      assert DropCRs(lines) == [];
    } else {
      FirstAndRest(lines);
      DropFirstAndRest(lines);
      StoredReadsBack(lines[1..]);
      ScanBehindNewline(lines[0], Stored(lines[1..]));
    }
  }

  lemma TailReadsBack(lines: seq<Bytes>, n: nat)
    requires PlainLines(lines) && AllFit(lines)
    ensures TailOf(Stored(lines), n) == Some(DropCRs(LastN(lines, n)))
  {
    StoredReadsBack(lines);
    assert LastN(DropCRs(lines), n) == DropCRs(LastN(lines, n));
  }

  lemma {:induction false} StoredConcat(a: seq<Bytes>, b: seq<Bytes>)
    ensures Stored(a + b) == Stored(a) + Stored(b)
  {
    if a == [] {
      assert a + b == b;
    } else {
      assert (a + b)[1..] == a[1..] + b;
      StoredConcat(a[1..], b);
    }
  }

  lemma StoredOne(lines: seq<Bytes>, line: Bytes)
    ensures Stored(lines + [line]) == Stored(lines) + (line + [NEWLINE])
  {
    StoredConcat(lines, [line]);
    assert Stored([line]) == line + [NEWLINE] + [];
  }

  /** A file that ends inside a line reads back with what there is of that as its last line. */
  lemma {:induction false} CutFileReadsBack(lines: seq<Bytes>, text: Bytes)
    requires PlainLines(lines) && NoNewline(text) && text != []
    ensures Scan(Stored(lines) + text) ==
              if AllFit(lines) && Fits(text) then Some(DropCRs(lines) + [DropCR(text)]) else None
    decreases |lines|
  {
    if lines == [] {
      assert Stored(lines) + text == text && DropCRs(lines) == [];
      assert IndexOfNewline(text) < 0;
      assert [] + [DropCR(text)] == [DropCR(text)];
    } else {
      var rest := Stored(lines[1..]) + text;
      FirstAndRest(lines);
      DropFirstAndRest(lines);
      CutFileReadsBack(lines[1..], text);
      ScanBehindNewline(lines[0], rest);
      Regrouped(lines[0] + [NEWLINE], Stored(lines[1..]), text);
      Regrouped([DropCR(lines[0])], DropCRs(lines[1..]), [DropCR(text)]);
    }
  }

  lemma Regrouped<T>(a: seq<T>, b: seq<T>, c: seq<T>)
    ensures (a + b) + c == a + (b + c)
  {
  }
}
