/**
 Decimal integers: printed as Go's %d does, and read as strconv.ParseInt(s, 10, 64) does.
 */
module Decimal {
  import opened ByteStrings

  const MIN_INT64 := -0x8000_0000_0000_0000
  const MAX_INT64 := 0x7fff_ffff_ffff_ffff

  predicate InInt64(n: int) { MIN_INT64 <= n <= MAX_INT64 }

  const MINUS: Byte := '-' as int
  const PLUS: Byte := '+' as int
  const ZERO: Byte := '0' as int

  predicate IsDigit(b: Byte) { ZERO <= b <= ZERO + 9 }

  function Digits(n: nat): (s: Bytes)
    ensures s != [] && forall i | 0 <= i < |s| :: IsDigit(s[i])
    ensures s[0] == ZERO ==> n == 0
  {
    if n < 10 then [ZERO + n] else Digits(n / 10) + [ZERO + n % 10]
  }

  function Print(n: int): (s: Bytes)
    ensures s != [] && (s[0] == MINUS || IsDigit(s[0])) && forall i | 0 < i < |s| :: IsDigit(s[i])
    ensures s[0] == MINUS <==> n < 0
  {
    if n < 0 then [MINUS] + Digits(-n) else Digits(n)
  }

  function ReadDigits(s: Bytes): Option<nat> {
    if s == [] then Some(0)
    else
      var last := s[|s| - 1];
      match ReadDigits(s[..|s| - 1])
      case None => None
      case Some(n) => if IsDigit(last) then Some(n * 10 + (last - ZERO)) else None
  }

  /** An optional sign, at least one digit, nothing else, and a value that fits. */
  function Parse(s: Bytes): Option<int> {
    var signed := s != [] && (s[0] == MINUS || s[0] == PLUS);
    var digits := if signed then s[1..] else s;
    if digits == [] then None
    else
      match ReadDigits(digits)
      case None => None
      case Some(n) =>
        var value: int := if signed && s[0] == MINUS then -(n as int) else n as int;
        if InInt64(value) then Some(value) else None
  }

  lemma {:induction false} ReadPrinted(n: nat)
    ensures ReadDigits(Digits(n)) == Some(n)
  {
    if n < 10 {
      assert [ZERO + n][..0] == [];
    } else {
      ReadPrinted(n / 10);
      assert Digits(n)[..|Digits(n)| - 1] == Digits(n / 10);
    }
  }

  lemma RoundTrip(n: int)
    ensures Parse(Print(n)) == if InInt64(n) then Some(n) else None
  {
    if n < 0 {
      ReadPrinted(-n);
      assert Print(n)[1..] == Digits(-n);
    } else {
      ReadPrinted(n);
    }
  }

  // ---------------------------------------------------------------------------------------
  // What else is parsed
  // ---------------------------------------------------------------------------------------

  function Zeros(k: nat): (s: Bytes)
    ensures |s| == k && forall i | 0 <= i < k :: s[i] == ZERO
  {
    seq(k, _ => ZERO)
  }

  /** The digits of n, behind any zeros. */
  predicate Spells(s: Bytes, n: nat, k: nat) { s == Zeros(k) + Digits(n) }

  lemma {:induction false} ReadZeros(k: nat, n: nat)
    ensures ReadDigits(Zeros(k) + Digits(n)) == Some(n)
    decreases k, n
  {
    var s := Zeros(k) + Digits(n);
    if n >= 10 {
      ReadZeros(k, n / 10);
      assert s[..|s| - 1] == Zeros(k) + Digits(n / 10);
    } else {
      assert s[..|s| - 1] == Zeros(k);
      ReadOnlyZeros(k);
    }
  }

  lemma {:induction false} ReadOnlyZeros(k: nat)
    ensures ReadDigits(Zeros(k)) == Some(0)
  {
    if k > 0 {
      ReadOnlyZeros(k - 1);
      assert Zeros(k)[..k - 1] == Zeros(k - 1);
    }
  }

  lemma {:induction false} ReadSpells(s: Bytes, n: nat) returns (k: nat)
    requires s != [] && ReadDigits(s) == Some(n)
    ensures Spells(s, n, k)
  {
    var before, last := s[..|s| - 1], s[|s| - 1];
    assert s == before + [last];
    if before == [] {
      k := 0;
      assert Digits(n) == [last];
    } else {
      var m := ReadDigits(before).value;
      k := ReadSpells(before, m);
      if m == 0 {
        assert before == Zeros(k) + [ZERO] == Zeros(k + 1);
        k := k + 1;
        assert Digits(n) == [last];
      } else {
        assert Digits(n) == Digits(m) + [last];
      }
    }
  }

  /** The sign in front of a number of this sign; a plus is allowed, and zero may have either. */
  predicate SignOf(sign: Bytes, n: int) {
    (sign == [] && n >= 0) || (sign == [PLUS] && n >= 0) || (sign == [MINUS] && n <= 0)
  }

  predicate Denotes(s: Bytes, n: int, sign: Bytes, k: nat) {
    SignOf(sign, n) && s == sign + (Zeros(k) + Digits(if n < 0 then -n else n))
  }

  /** A text parses to n exactly when it is an optional sign, any zeros and the digits of n, and n is a
      signed integer of 64 bits. */
  lemma ParsesExactly(s: Bytes, n: int)
    ensures Parse(s) == Some(n) <==>
      -9223372036854775808 <= n <= 9223372036854775807 && exists sign, k: nat :: Denotes(s, n, sign, k)
  {
    if Parse(s) == Some(n) {
      var signed := s[0] == MINUS || s[0] == PLUS;
      var digits := if signed then s[1..] else s;
      var k := ReadSpells(digits, if n < 0 then -n else n);
      var sign := if signed then [s[0]] else [];
      assert s == sign + digits;
      assert Denotes(s, n, sign, k);
    }
    if sign, k: nat :| Denotes(s, n, sign, k) {
      ReadZeros(k, if n < 0 then -n else n);
      DigitsBehind(s, n, sign, k);
    }
  }

  lemma DigitsBehind(s: Bytes, n: int, sign: Bytes, k: nat)
    requires Denotes(s, n, sign, k)
    ensures s != [] && ((s[0] == MINUS || s[0] == PLUS) <==> sign != [])
    ensures s[|sign|..] == Zeros(k) + Digits(if n < 0 then -n else n)
  {
    var digits := Zeros(k) + Digits(if n < 0 then -n else n);
    assert IsDigit(digits[0]);
    assert sign == [] ==> s == digits;
  }
}
