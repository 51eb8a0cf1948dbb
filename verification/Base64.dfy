/**
 The unpadded URL-safe base64 of section 5 of RFC 4648, as Go's decoder reads it: line breaks
 are skipped, and bits of the last symbol beyond the last byte are ignored.
 */
module Base64 {
  import opened ByteStrings

  type Sextet = v: int | 0 <= v < 64

  function Symbol(v: Sextet): Byte {
    if v < 26 then 'A' as int + v
    else if v < 52 then 'a' as int + (v - 26)
    else if v < 62 then '0' as int + (v - 52)
    else if v == 62 then '-' as int else '_' as int
  }

  /** The value of a symbol; negative for a byte that is not one. */
  function Value(b: Byte): (v: int)
    ensures v < 64
  {
    if 'A' as int <= b <= 'Z' as int then b - 'A' as int
    else if 'a' as int <= b <= 'z' as int then b - 'a' as int + 26
    else if '0' as int <= b <= '9' as int then b - '0' as int + 52
    else if b == '-' as int then 62
    else if b == '_' as int then 63
    else -1
  }

  /** The groups of six bits two neighbouring bytes share, and the bytes two groups share. */
  function High(a: Byte): Sextet { a / 4 }
  function Upper(a: Byte, b: Byte): Sextet { a % 4 * 16 + b / 16 }
  function Lower(b: Byte, c: Byte): Sextet { b % 16 * 4 + c / 64 }
  function Low(c: Byte): Sextet { c % 64 }

  function First(w: Sextet, x: Sextet): Byte { (w as int) * 4 + (x as int) / 16 }
  function Second(x: Sextet, y: Sextet): Byte { (x as int) % 16 * 16 + (y as int) / 4 }
  function Third(y: Sextet, z: Sextet): Byte { (y as int) % 4 * 64 + (z as int) }

  /** Three bytes are four groups of six bits; a shorter last group is padded with zero bits. */
  function Pack(s: Bytes): seq<Sextet>
    decreases |s|
  {
    if s == [] then []
    else if |s| == 1 then [High(s[0]), Upper(s[0], 0)]
    else if |s| == 2 then [High(s[0]), Upper(s[0], s[1]), Lower(s[1], 0)]
    else [High(s[0]), Upper(s[0], s[1]), Lower(s[1], s[2]), Low(s[2])] + Pack(s[3..])
  }

  function Unpack(v: seq<Sextet>): Option<Bytes>
    decreases |v|
  {
    if v == [] then Some([])
    else if |v| == 1 then None
    else if |v| == 2 then Some([First(v[0], v[1])])
    else if |v| == 3 then Some([First(v[0], v[1]), Second(v[1], v[2])])
    else
      match Unpack(v[4..])
      case None => None
      case Some(rest) => Some([First(v[0], v[1]), Second(v[1], v[2]), Third(v[2], v[3])] + rest)
  }

  function Spell(v: seq<Sextet>): (s: Bytes)
    ensures |s| == |v| && forall i | 0 <= i < |s| :: s[i] == Symbol(v[i])
  {
    seq(|v|, i requires 0 <= i < |v| => Symbol(v[i]))
  }

  predicate IsLineBreak(b: Byte) { b == 10 || b == 13 }

  function ReadSymbols(s: Bytes): Option<seq<Sextet>> {
    if s == [] then Some([])
    else
      match ReadSymbols(s[1..])
      case None => None
      case Some(rest) =>
        if IsLineBreak(s[0]) then Some(rest)
        else if Value(s[0]) < 0 then None
        else Some([Value(s[0])] + rest)
  }

  function Encode(s: Bytes): Bytes { Spell(Pack(s)) }

  function Decode(s: Bytes): Option<Bytes> {
    match ReadSymbols(s)
    case None => None
    case Some(v) => Unpack(v)
  }

  // ---------------------------------------------------------------------------------------
  // Round trip
  // ---------------------------------------------------------------------------------------

  lemma SymbolValue(v: Sextet)
    ensures Value(Symbol(v)) == v && !IsLineBreak(Symbol(v))
  {
  }

  lemma {:induction false} ReadSpelled(v: seq<Sextet>)
    ensures ReadSymbols(Spell(v)) == Some(v)
  {
    if v != [] {
      ReadSpelled(v[1..]);
      SymbolValue(v[0]);
      assert Spell(v)[1..] == Spell(v[1..]) && Spell(v)[0] == Symbol(v[0]);
      assert v == [v[0]] + v[1..];
    }
  }

  lemma GroupsJoin(a: Byte, b: Byte, c: Byte)
    ensures First(High(a), Upper(a, b)) == a
    ensures Second(Upper(a, b), Lower(b, c)) == b
    ensures Third(Lower(b, c), Low(c)) == c
  {
    assert Upper(a, b) / 16 == a % 4 && Upper(a, b) % 16 == b / 16;
    assert Lower(b, c) / 4 == b % 16 && Lower(b, c) % 4 == c / 64;
  }

  lemma UnpackTwo(w: Sextet, x: Sextet)
    ensures Unpack([w, x]) == Some([First(w, x)])
  {
  }

  lemma UnpackThree(w: Sextet, x: Sextet, y: Sextet)
    ensures Unpack([w, x, y]) == Some([First(w, x), Second(x, y)])
  {
  }

  lemma UnpackFour(w: Sextet, x: Sextet, y: Sextet, z: Sextet, rest: seq<Sextet>)
    requires Unpack(rest).Some?
    ensures Unpack([w, x, y, z] + rest) == Some([First(w, x), Second(x, y), Third(y, z)] + Unpack(rest).value)
  {
    assert ([w, x, y, z] + rest)[4..] == rest;
  }

  lemma UnpackGroup(a: Byte, b: Byte, c: Byte, rest: seq<Sextet>)
    requires Unpack(rest).Some?
    ensures Unpack([High(a), Upper(a, b), Lower(b, c), Low(c)] + rest) == Some([a, b, c] + Unpack(rest).value)
  {
    GroupsJoin(a, b, c);
    UnpackFour(High(a), Upper(a, b), Lower(b, c), Low(c), rest);
  }

  lemma FirstThree(s: Bytes)
    requires |s| > 2
    ensures s == [s[0], s[1], s[2]] + s[3..]
  {
  }

  lemma {:induction false} UnpackPacked(s: Bytes)
    ensures Unpack(Pack(s)) == Some(s)
    decreases |s|
  {
    if |s| > 2 {
      UnpackPacked(s[3..]);
      UnpackGroup(s[0], s[1], s[2], Pack(s[3..]));
      FirstThree(s);
    } else if |s| == 2 {
      var a, b := s[0], s[1];
      assert s == [a, b];
      GroupsJoin(a, b, 0);
      UnpackThree(High(a), Upper(a, b), Lower(b, 0));
    } else if |s| == 1 {
      var a := s[0];
      assert s == [a];
      GroupsJoin(a, 0, 0);
      UnpackTwo(High(a), Upper(a, 0));
    }
  }

  /** Decoding gives back whatever was encoded. */
  lemma RoundTrip(s: Bytes)
    ensures Decode(Encode(s)) == Some(s)
  {
    ReadSpelled(Pack(s));
    UnpackPacked(s);
  }

  /** Nothing but the alphabet is ever written. */
  lemma EncodeUsesTheAlphabet(s: Bytes, b: Byte)
    requires Value(b) < 0
    ensures b !in Encode(s)
  {
    forall i | 0 <= i < |Encode(s)| ensures Encode(s)[i] != b {
      SymbolValue(Pack(s)[i]);
    }
  }

  /** No two byte strings encode alike. */
  lemma EncodeIsInjective(s: Bytes, t: Bytes)
    requires Encode(s) == Encode(t)
    ensures s == t
  {
    RoundTrip(s);
    RoundTrip(t);
  }

  // ---------------------------------------------------------------------------------------
  // What else is decoded
  // ---------------------------------------------------------------------------------------

  /** The text without its line breaks. */
  function Unbroken(s: Bytes): Bytes {
    if s == [] then [] else (if s[0] == 0x0A || s[0] == 0x0D then [] else [s[0]]) + Unbroken(s[1..])
  }

  lemma {:induction false} ReadUnbroken(s: Bytes)
    ensures ReadSymbols(s) == ReadSymbols(Unbroken(s))
  {
    if s != [] {
      ReadUnbroken(s[1..]);
      var rest := Unbroken(s[1..]);
      assert ([s[0]] + rest)[1..] == rest && [] + rest == rest;
    }
  }

  lemma {:induction false} ReadExactly(s: Bytes)
    requires 0x0A !in s && 0x0D !in s
    ensures ReadSymbols(s).Some? <==> forall b | b in s :: Value(b) >= 0
    ensures ReadSymbols(s).Some? ==> |ReadSymbols(s).value| == |s|
  {
    if s != [] {
      ReadExactly(s[1..]);
      assert s == [s[0]] + s[1..];
    }
  }

  lemma {:induction false} UnpackExactly(v: seq<Sextet>)
    ensures Unpack(v).Some? <==> |v| % 4 != 1
    decreases |v|
  {
    if |v| > 3 { UnpackExactly(v[4..]); }
  }

  lemma {:induction false} UnbrokenHasNoBreaks(s: Bytes)
    ensures 0x0A !in Unbroken(s) && 0x0D !in Unbroken(s)
  {
    if s != [] { UnbrokenHasNoBreaks(s[1..]); }
  }

  /** Line breaks make no difference; without them a text decodes exactly when it is of the alphabet
      and no last symbol stands alone. */
  lemma DecodesExactly(s: Bytes)
    ensures Decode(s) == Decode(Unbroken(s))
    ensures Decode(s).Some? <==> (forall b | b in Unbroken(s) :: Value(b) >= 0) && |Unbroken(s)| % 4 != 1
  {
    ReadUnbroken(s);
    UnbrokenHasNoBreaks(s);
    ReadExactly(Unbroken(s));
    if ReadSymbols(s).Some? { UnpackExactly(ReadSymbols(s).value); }
  }

  function Ascii(s: string): Bytes
    requires forall i | 0 <= i < |s| :: s[i] < '\U{0080}'
  {
    seq(|s|, i requires 0 <= i < |s| => s[i] as int)
  }

  /** Test vectors of section 10 of RFC 4648, without their padding, and the two symbols of section 5. */
  lemma KnownEncodings()
    ensures Encode(Ascii("f")) == Ascii("Zg") && Encode(Ascii("fo")) == Ascii("Zm8")
    ensures Encode(Ascii("foob")) == Ascii("Zm9vYg")
    ensures Encode([0xFB, 0xFF]) == Ascii("-_8")
  {
    assert Ascii("foob") == [102, 111, 111, 98] && Ascii("foob")[3..] == [98];
    assert Pack([98]) == [24, 32];
    assert Pack(Ascii("foob")) == [25, 38, 61, 47] + [24, 32];
    assert Encode(Ascii("f")) == [90, 103];
    assert Encode(Ascii("fo")) == [90, 109, 56];
    assert Encode(Ascii("foob")) == [90, 109, 57, 118, 89, 103];
    assert Pack([0xFB, 0xFF]) == [62, 63, 60];
    assert Encode([0xFB, 0xFF]) == [45, 95, 56];
  }
}
