/**
 The two signed tokens: the state parameter of a login, and the session cookie.

 The message authentication code is any function of the signed bytes. Times are nanoseconds
 since 1970; an expiry is written in whole seconds, rounded down.
 */
module Tokens {
  import opened ByteStrings
  import opened Lists
  import B = Base64
  import D = Decimal

  type Mac = Bytes -> Bytes

  const SECOND := 1_000_000_000
  const STATE_TTL := 600 * SECOND
  const SESSION_TTL := 12 * 3600 * SECOND

  const DOT: Byte := '.' as int
  const COLON: Byte := ':' as int

  /** The expiry written for a token issued at t, in seconds. */
  function ExpiryOf(t: int, ttl: int): int { (t + ttl) / SECOND }

  /** A reader at `now` still accepts an expiry of e seconds. */
  predicate Alive(now: int, e: int) { now < e * SECOND }

  // ---------------------------------------------------------------------------------------
  // Cutting
  // ---------------------------------------------------------------------------------------

  datatype Halves = Halves(before: Bytes, after: Bytes)

  /** The text around the first separator. */
  function Cut(s: Bytes, sep: Byte): (r: Option<Halves>)
    ensures r.None? <==> sep !in s
    ensures r.Some? ==> sep !in r.value.before && s == r.value.before + [sep] + r.value.after
  {
    var i := IndexOf(s, sep);
    if i < 0 then None else Some(Halves(s[..i], s[i + 1..]))
  }

  lemma CutAt(a: Bytes, sep: Byte, b: Bytes)
    requires sep !in a
    ensures Cut(a + [sep] + b, sep) == Some(Halves(a, b))
  {
    IndexAt(a, sep, b);
    var s := a + [sep] + b;
    assert s[..|a|] == a && s[|a| + 1..] == b;
  }

  // ---------------------------------------------------------------------------------------
  // The login state
  // ---------------------------------------------------------------------------------------

  /** What is signed: the expiry, a nonce, and where to go afterwards. */
  function StateBody(next: Bytes, nonce: Bytes, t: int): Bytes {
    D.Print(ExpiryOf(t, STATE_TTL)) + [COLON] + (B.Encode(nonce) + [COLON] + next)
  }

  function SignState(mac: Mac, next: Bytes, nonce: Bytes, t: int): Bytes {
    var body := StateBody(next, nonce, t);
    B.Encode(body) + [DOT] + B.Encode(mac(body))
  }

  /** The third of three fields, if the first is an expiry not yet reached. */
  function OpenState(body: Bytes, now: int): Option<Bytes> {
    match Cut(body, COLON)
    case None => None
    case Some(first) =>
      match Cut(first.after, COLON)
      case None => None
      case Some(second) =>
        match D.Parse(first.before)
        case None => None
        case Some(e) => if Alive(now, e) then Some(second.after) else None
  }

  function VerifyState(mac: Mac, state: Bytes, now: int): Option<Bytes> {
    match Cut(state, DOT)
    case None => None
    case Some(halves) =>
      match B.Decode(halves.before)
      case None => None
      case Some(body) => if halves.after == B.Encode(mac(body)) then OpenState(body, now) else None
  }

  lemma PrintedHasNo(n: int, b: Byte)
    requires b == COLON || b == DOT
    ensures b !in D.Print(n)
  {
  }

  lemma OpenSigned(next: Bytes, nonce: Bytes, t: int, now: int)
    requires D.InInt64(ExpiryOf(t, STATE_TTL))
    ensures OpenState(StateBody(next, nonce, t), now)
         == if Alive(now, ExpiryOf(t, STATE_TTL)) then Some(next) else None
  {
    var e := ExpiryOf(t, STATE_TTL);
    PrintedHasNo(e, COLON);
    CutAt(D.Print(e), COLON, B.Encode(nonce) + [COLON] + next);
    B.EncodeUsesTheAlphabet(nonce, COLON);
    CutAt(B.Encode(nonce), COLON, next);
    D.RoundTrip(e);
  }

  /** A state gives back where its caller wanted to go, whatever bytes that is made of, for as
      long as the written expiry is not reached; from then on it gives nothing. */
  lemma StateRoundTrip(mac: Mac, next: Bytes, nonce: Bytes, t: int, now: int)
    requires D.InInt64(ExpiryOf(t, STATE_TTL))
    ensures VerifyState(mac, SignState(mac, next, nonce, t), now)
         == if now < ExpiryOf(t, STATE_TTL) * SECOND then Some(next) else None
  {
    var body := StateBody(next, nonce, t);
    B.EncodeUsesTheAlphabet(body, DOT);
    CutAt(B.Encode(body), DOT, B.Encode(mac(body)));
    B.RoundTrip(body);
    OpenSigned(next, nonce, t, now);
  }

  /** A state of these parts is signed, and good at `now` for going to `next`. */
  predicate IsState(mac: Mac, state: Bytes, now: int, next: Bytes, encoded: Bytes, expiry: Bytes, nonce: Bytes) {
    var body := expiry + [COLON] + (nonce + [COLON] + next);
    && state == encoded + [DOT] + B.Encode(mac(body)) && DOT !in encoded
    && B.Decode(encoded) == Some(body)
    && COLON !in expiry && COLON !in nonce
    && D.Parse(expiry).Some? && now < D.Parse(expiry).value * SECOND
  }

  /** A state is accepted, and what it gives back, exactly when it is the encoding of a body, a dot and
      the signature of that body, and the body is an expiry not yet reached, a nonce and the target. */
  lemma StateAcceptedExactly(mac: Mac, state: Bytes, now: int, next: Bytes)
    ensures VerifyState(mac, state, now) == Some(next) <==>
              exists encoded, expiry, nonce :: IsState(mac, state, now, next, encoded, expiry, nonce)
  {
    if VerifyState(mac, state, now) == Some(next) {
      var halves := Cut(state, DOT).value;
      var first := Cut(B.Decode(halves.before).value, COLON).value;
      var second := Cut(first.after, COLON).value;
      assert first.before + [COLON] + first.after == first.before + [COLON] + (second.before + [COLON] + second.after);
      assert IsState(mac, state, now, next, halves.before, first.before, second.before);
    }
    if encoded, expiry, nonce :| IsState(mac, state, now, next, encoded, expiry, nonce) {
      CutAt(encoded, DOT, B.Encode(mac(expiry + [COLON] + (nonce + [COLON] + next))));
      CutAt(expiry, COLON, nonce + [COLON] + next);
      CutAt(nonce, COLON, next);
    }
  }

  /** So with a code that never collides, an accepted state carrying the signature of an issued one
      leads where that does, and before that expires. */
  lemma SignatureFixesTheTarget(mac: Mac, next: Bytes, nonce: Bytes, t: int, state: Bytes, now: int)
    requires Injective(mac)
    requires VerifyState(mac, state, now).Some?
    requires SignatureOf(state) == SignatureOf(SignState(mac, next, nonce, t))
    ensures VerifyState(mac, state, now) == Some(next) && now < ExpiryOf(t, STATE_TTL) * SECOND
  {
    SignatureOfState(mac, next, nonce, t);
    var body := StateBody(next, nonce, t);
    var halves := Cut(state, DOT).value;
    B.EncodeIsInjective(mac(B.Decode(halves.before).value), mac(body));
    OpenedFits(next, nonce, t, now);
    OpenSigned(next, nonce, t, now);
  }

  lemma SignatureOfState(mac: Mac, next: Bytes, nonce: Bytes, t: int)
    ensures SignatureOf(SignState(mac, next, nonce, t)) == B.Encode(mac(StateBody(next, nonce, t)))
  {
    var body := StateBody(next, nonce, t);
    B.EncodeUsesTheAlphabet(body, DOT);
    CutAt(B.Encode(body), DOT, B.Encode(mac(body)));
  }

  lemma OpenedFits(next: Bytes, nonce: Bytes, t: int, now: int)
    requires OpenState(StateBody(next, nonce, t), now).Some?
    ensures D.InInt64(ExpiryOf(t, STATE_TTL))
  {
    var e := ExpiryOf(t, STATE_TTL);
    PrintedHasNo(e, COLON);
    CutAt(D.Print(e), COLON, B.Encode(nonce) + [COLON] + next);
    D.RoundTrip(e);
  }

  /** A state issued at any moment of the clock's range lives for ten minutes, less at most a
      second. */
  lemma StateLivesTenMinutes(mac: Mac, next: Bytes, nonce: Bytes, t: int, now: int)
    requires D.InInt64(t)
    ensures now <= t + 599_000_000_000 ==> VerifyState(mac, SignState(mac, next, nonce, t), now) == Some(next)
    ensures now >= t + 600_000_000_000 ==> VerifyState(mac, SignState(mac, next, nonce, t), now) == None
  {
    StateRoundTrip(mac, next, nonce, t, now);
    LifetimeIsNearlyTheTtl(t, STATE_TTL, now);
  }

  /** The written expiry is less than a second short of the lifetime. */
  lemma LifetimeIsNearlyTheTtl(t: int, ttl: int, now: int)
    ensures now <= t + ttl - SECOND ==> Alive(now, ExpiryOf(t, ttl))
    ensures now >= t + ttl ==> !Alive(now, ExpiryOf(t, ttl))
    ensures t % SECOND == 0 && ttl % SECOND == 0 ==> (Alive(now, ExpiryOf(t, ttl)) <==> now < t + ttl)
  {
  }

  // ---------------------------------------------------------------------------------------
  // The session
  // ---------------------------------------------------------------------------------------

  datatype Role = Nobody | Viewer | Admin

  function NameOf(r: Role): Bytes {
    match r case Nobody => [] case Viewer => B.Ascii("viewer") case Admin => B.Ascii("admin")
  }

  function RoleNamed(name: Bytes): Role {
    if name == NameOf(Admin) then Admin else if name == NameOf(Viewer) then Viewer else Nobody
  }

  function SessionBody(role: Role, t: int): Bytes { D.Print(ExpiryOf(t, SESSION_TTL)) + [COLON] + NameOf(role) }

  function Issue(mac: Mac, role: Role, t: int): Bytes {
    var body := SessionBody(role, t);
    body + [DOT] + B.Encode(mac(body))
  }

  function OpenSession(body: Bytes, now: int): Role {
    match Cut(body, COLON)
    case None => Nobody
    case Some(halves) =>
      match D.Parse(halves.before)
      case None => Nobody
      case Some(e) => if Alive(now, e) then RoleNamed(halves.after) else Nobody
  }

  function RoleOf(mac: Mac, token: Bytes, now: int): Role {
    match Cut(token, DOT)
    case None => Nobody
    case Some(halves) =>
      if halves.after == B.Encode(mac(halves.before)) then OpenSession(halves.before, now) else Nobody
  }

  lemma NamesTell(r: Role)
    ensures RoleNamed(NameOf(r)) == r && DOT !in NameOf(r)
  {
    assert |NameOf(Viewer)| == 6 && |NameOf(Admin)| == 5;
  }

  lemma OpenIssued(role: Role, t: int, now: int)
    requires D.InInt64(ExpiryOf(t, SESSION_TTL))
    ensures OpenSession(SessionBody(role, t), now)
         == if Alive(now, ExpiryOf(t, SESSION_TTL)) then role else Nobody
  {
    var e := ExpiryOf(t, SESSION_TTL);
    PrintedHasNo(e, COLON);
    CutAt(D.Print(e), COLON, NameOf(role));
    D.RoundTrip(e);
    NamesTell(role);
  }

  /** A session gives back the role it was issued for until its written expiry, and no role
      afterwards. */
  lemma SessionRoundTrip(mac: Mac, role: Role, t: int, now: int)
    requires D.InInt64(ExpiryOf(t, SESSION_TTL))
    ensures RoleOf(mac, Issue(mac, role, t), now)
         == if now < ExpiryOf(t, SESSION_TTL) * SECOND then role else Nobody
  {
    var body := SessionBody(role, t);
    PrintedHasNo(ExpiryOf(t, SESSION_TTL), DOT);
    NamesTell(role);
    CutAt(body, DOT, B.Encode(mac(body)));
    OpenIssued(role, t, now);
  }

  /** A session of these parts is signed, and good at `now` for this role. */
  predicate IsSession(mac: Mac, token: Bytes, now: int, role: Role, expiry: Bytes) {
    var body := expiry + [COLON] + NameOf(role);
    && token == body + [DOT] + B.Encode(mac(body)) && DOT !in expiry && COLON !in expiry
    && D.Parse(expiry).Some? && now < D.Parse(expiry).value * SECOND
  }

  /** A token gives a role exactly when it is an expiry not yet reached, the name of that role, and
      the signature of the two. */
  lemma SessionAcceptedExactly(mac: Mac, token: Bytes, now: int, role: Role)
    requires role != Nobody
    ensures RoleOf(mac, token, now) == role <==> exists expiry :: IsSession(mac, token, now, role, expiry)
  {
    NamesTell(role);
    if RoleOf(mac, token, now) == role {
      var halves := Cut(token, DOT).value;
      var parts := Cut(halves.before, COLON).value;
      assert DOT !in parts.before by { assert forall b | b in parts.before :: b in halves.before; }
      assert IsSession(mac, token, now, role, parts.before);
    }
    if expiry :| IsSession(mac, token, now, role, expiry) {
      var body := expiry + [COLON] + NameOf(role);
      CutAt(body, DOT, B.Encode(mac(body)));
      CutAt(expiry, COLON, NameOf(role));
    }
  }

  /** A session issued at any moment of the clock's range lives for twelve hours, less at most
      a second. */
  lemma SessionLivesTwelveHours(mac: Mac, role: Role, t: int, now: int)
    requires D.InInt64(t)
    ensures now <= t + 43_199_000_000_000 ==> RoleOf(mac, Issue(mac, role, t), now) == role
    ensures now >= t + 43_200_000_000_000 ==> RoleOf(mac, Issue(mac, role, t), now) == Nobody
  {
    SessionRoundTrip(mac, role, t, now);
    LifetimeIsNearlyTheTtl(t, SESSION_TTL, now);
  }

  // ---------------------------------------------------------------------------------------
  // What a signature covers
  // ---------------------------------------------------------------------------------------

  ghost predicate Injective(mac: Mac) { forall x, y :: mac(x) == mac(y) ==> x == y }

  /** The part of a token after its first dot. */
  function SignatureOf(token: Bytes): Bytes {
    match Cut(token, DOT) case None => [] case Some(halves) => halves.after
  }

  /** With a code that never collides, the signature fixes the whole of a session: an accepted
      token carrying the signature of an issued one is that token, so neither its role nor its
      expiry was altered. */
  lemma SignatureFixesTheSession(mac: Mac, role: Role, t: int, token: Bytes, now: int)
    requires Injective(mac)
    requires RoleOf(mac, token, now) != Nobody
    requires SignatureOf(token) == SignatureOf(Issue(mac, role, t))
    ensures token == Issue(mac, role, t)
  {
    var body := SessionBody(role, t);
    PrintedHasNo(ExpiryOf(t, SESSION_TTL), DOT);
    NamesTell(role);
    CutAt(body, DOT, B.Encode(mac(body)));
    var halves := Cut(token, DOT).value;
    B.EncodeIsInjective(mac(halves.before), mac(body));
  }
}
