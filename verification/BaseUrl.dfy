/**
 The two normalizers of a base URL: the one for configuration, which refuses what is not a path,
 and the one for project settings, which corrects it.
 */
module BaseUrl {
  import opened Lists
  import opened Strings

  const DOUBLE := "//"

  /** The characters Go's TrimSpace removes. */
  predicate IsSpace(c: char) {
    || '\t' <= c <= '\r' || c == ' ' || c == '\U{0085}' || c == '\U{00A0}' || c == '\U{1680}'
    || '\U{2000}' <= c <= '\U{200A}' || c == '\U{2028}' || c == '\U{2029}' || c == '\U{202F}'
    || c == '\U{205F}' || c == '\U{3000}'
  }

  function TrimLeft(s: string): string { if s != "" && IsSpace(s[0]) then TrimLeft(s[1..]) else s }

  function TrimRight(s: string): string {
    if s != "" && IsSpace(s[|s| - 1]) then TrimRight(s[..|s| - 1]) else s
  }

  function Trim(s: string): string { TrimRight(TrimLeft(s)) }

  predicate Leads(s: string) { s != "" && s[0] == '/' }

  predicate Trails(s: string) { s != "" && s[|s| - 1] == '/' }

  /** A slash at either end. */
  function Slashed(s: string): string {
    var t := if Leads(s) then s else "/" + s;
    if Trails(t) then t else t + "/"
  }

  /** Every run of slashes made one. */
  function Squeezed(s: string): string {
    if |s| < 2 then s
    else if s[0] == '/' && s[1] == '/' then Squeezed(s[1..])
    else [s[0]] + Squeezed(s[1..])
  }

  /** The only form that works: slashes at both ends and nowhere two in a row. */
  predicate Canonical(s: string) { Leads(s) && Trails(s) && !Contains(s, DOUBLE) }

  // ---------------------------------------------------------------------------------------
  // The normalizers
  // ---------------------------------------------------------------------------------------

  datatype Refusal = NotAPath | HasDots

  datatype Result = Accepted(url: string) | Refused(why: Refusal)

  /** Repeats one replacement of doubled slashes until none is left. */
  method Collapse(raw: string) returns (s: string)
    ensures s == Squeezed(raw) && !Contains(s, DOUBLE)
  {
    s := raw;
    while Contains(s, DOUBLE)
      invariant Squeezed(s) == Squeezed(raw)
      decreases |s|
    {
      ReplacingShortens(s);
      ReplacingKeepsSqueezed(s);
      s := ReplaceAll(s, DOUBLE, "/");
    }
    NothingToSqueeze(s);
  }

  function ConfigForm(raw: string): Result {
    var s := Trim(raw);
    if s == "" then Accepted("/")
    else if Contains(s, "://") then Refused(NotAPath)
    else if Contains(s, "..") then Refused(HasDots)
    else Accepted(Squeezed(Slashed(s)))
  }

  method NormalizeConfig(raw: string) returns (r: Result)
    ensures r == ConfigForm(raw)
    ensures r.Accepted? ==> Canonical(r.url)
  {
    var s := Trim(raw);
    if s == "" { return Accepted("/"); }
    if Contains(s, "://") { return Refused(NotAPath); }
    if Contains(s, "..") { return Refused(HasDots); }
    if !Leads(s) { s := "/" + s; }
    if !Trails(s) { s := s + "/"; }
    SqueezedIsCanonical(s);
    s := Collapse(s);
    return Accepted(s);
  }

  /** The path of a pasted address, and anything else as it is. */
  function PathPart(s: string): string {
    var i := Find(s, "://");
    if i < 0 then s
    else
      var rest := s[i + 3..];
      var slash := IndexOf(rest, '/');
      if slash >= 0 then rest[slash..] else "/"
  }

  function ProjectForm(raw: string): string {
    var s := Trim(raw);
    if s == "" then "" else Slashed(Squeezed(PathPart(s)))
  }

  method PathOf(s: string) returns (path: string)
    ensures path == PathPart(s)
  {
    path := s;
    var i := Find(s, "://");
    if i >= 0 {
      var rest := s[i + 3..];
      var slash := IndexOf(rest, '/');
      if slash >= 0 { path := rest[slash..]; } else { path := "/"; }
    }
  }

  method NormalizeProject(raw: string) returns (s: string)
    ensures s == ProjectForm(raw)
    ensures s == "" <==> Trim(raw) == ""
    ensures s != "" ==> Canonical(s)
  {
    s := Trim(raw);
    if s == "" { return; }
    s := PathOf(s);
    SlashedSqueezed(s);
    SqueezedIsCanonical(Slashed(s));
    s := Collapse(s);
    if !Leads(s) { s := "/" + s; }
    if !Trails(s) { s := s + "/"; }
  }

  // ---------------------------------------------------------------------------------------
  // Squeezing
  // ---------------------------------------------------------------------------------------

  lemma {:induction false} ReplacingShortens(s: string)
    ensures |ReplaceAll(s, DOUBLE, "/")| <= |s|
    ensures Contains(s, DOUBLE) ==> |ReplaceAll(s, DOUBLE, "/")| < |s|
    decreases |s|
  {
    if |s| >= 2 {
      if s[..2] == DOUBLE { ReplacingShortens(s[2..]); } else { ReplacingShortens(s[1..]); }
    } else if s != [] {
      assert !HasPrefix(s[1..], DOUBLE);
    }
  }

  lemma SqueezedBehind(c: char, s: string)
    ensures Squeezed([c] + s) == if c == '/' && Leads(s) then Squeezed(s) else [c] + Squeezed(s)
  {
    assert ([c] + s)[1..] == s;
  }

  lemma {:induction false} ReplacingKeepsSqueezed(s: string)
    ensures Squeezed(ReplaceAll(s, DOUBLE, "/")) == Squeezed(s)
    ensures Leads(ReplaceAll(s, DOUBLE, "/")) <==> Leads(s)
    decreases |s|
  {
    if |s| >= 2 {
      if s[..2] == DOUBLE {
        var rest := s[2..];
        ReplacingKeepsSqueezed(rest);
        assert s == ['/'] + (['/'] + rest);
        SqueezedBehind('/', ['/'] + rest);
        SqueezedBehind('/', rest);
        SqueezedBehind('/', ReplaceAll(rest, DOUBLE, "/"));
      } else {
        var rest := s[1..];
        ReplacingKeepsSqueezed(rest);
        assert s == [s[0]] + rest;
        SqueezedBehind(s[0], rest);
        SqueezedBehind(s[0], ReplaceAll(rest, DOUBLE, "/"));
      }
    }
  }

  lemma NoDoubleAt(s: string, k: nat)
    requires !Contains(s, DOUBLE) && k + 1 < |s|
    ensures !(s[k] == '/' && s[k + 1] == '/')
  {
    assert !HasPrefix(s[k..], DOUBLE);
    assert s[k..][..2] == [s[k], s[k + 1]];
  }

  lemma NoDoubleBehind(c: char, s: string)
    ensures !Contains([c] + s, DOUBLE) <==> !Contains(s, DOUBLE) && !(c == '/' && Leads(s))
  {
    var t := [c] + s;
    assert t[1..] == s;
    if |s| >= 1 { assert t[..2] == [c, s[0]]; }
  }

  lemma {:induction false} NothingToSqueeze(s: string)
    ensures !Contains(s, DOUBLE) ==> Squeezed(s) == s
    ensures !Contains(Squeezed(s), DOUBLE)
    ensures (Leads(Squeezed(s)) <==> Leads(s)) && (Squeezed(s) == "" <==> s == "")
  {
    if s != [] {
      var rest := s[1..];
      NothingToSqueeze(rest);
      assert s == [s[0]] + rest;
      SqueezedBehind(s[0], rest);
      NoDoubleBehind(s[0], rest);
      NoDoubleBehind(s[0], Squeezed(rest));
    }
  }

  /** A slash added at the end is kept unless there is one. */
  predicate EndsWell(s: string) {
    && Squeezed(s + "/") == (if Trails(s) then Squeezed(s) else Squeezed(s) + "/")
    && (Trails(Squeezed(s)) <==> Trails(s))
  }

  lemma LastOf(c: char, s: string)
    requires s != ""
    ensures (Trails([c] + s) <==> Trails(s)) && (Leads(s + "/") <==> Leads(s))
  {
  }

  lemma EndsWellBehind(c: char, s: string)
    requires s != "" && EndsWell(s)
    ensures EndsWell([c] + s)
  {
    LastOf(c, s);
    AddedBehind(c, s);
    SqueezedBehind(c, s);
    NothingToSqueeze(s);
    if !(c == '/' && Leads(s)) {
      LastOf(c, Squeezed(s));
      Behind(c, Squeezed(s));
    }
  }

  lemma Behind(c: char, s: string)
    ensures [c] + s + "/" == [c] + (s + "/")
  {
  }

  lemma AddedBehind(c: char, s: string)
    requires s != ""
    ensures Squeezed([c] + s + "/") == if c == '/' && Leads(s) then Squeezed(s + "/") else [c] + Squeezed(s + "/")
  {
    Behind(c, s);
    LastOf(c, s);
    SqueezedBehind(c, s + "/");
  }

  lemma {:induction false} SqueezedBefore(s: string)
    ensures EndsWell(s)
  {
    if |s| > 1 {
      SqueezedBefore(s[1..]);
      EndsWellBehind(s[0], s[1..]);
      assert s == [s[0]] + s[1..];
    } else if |s| == 1 {
      assert s + "/" == [s[0]] + "/";
      SqueezedBehind(s[0], "/");
    } else {
      assert s + "/" == "/";
    }
  }

  /** Adding the slashes and squeezing may be done in either order. */
  lemma SlashedSqueezed(s: string)
    requires s != ""
    ensures Slashed(Squeezed(s)) == Squeezed(Slashed(s))
  {
    var t := if Leads(s) then s else "/" + s;
    NothingToSqueeze(s);
    SqueezedBehind('/', s);
    SqueezedBefore(t);
  }

  lemma SqueezedIsCanonical(s: string)
    requires Leads(s) && Trails(s)
    ensures Canonical(Squeezed(s))
  {
    NothingToSqueeze(s);
    SqueezedBefore(s);
  }

  // ---------------------------------------------------------------------------------------
  // Idempotence
  // ---------------------------------------------------------------------------------------

  lemma CanonicalHasNoScheme(s: string)
    requires !Contains(s, DOUBLE)
    ensures !Contains(s, "://")
  {
    var i := Find(s, "://");
    if i >= 0 {
      assert s[i..][..3] == "://";
      assert s[i + 1] == s[i..][1] == '/' && s[i + 2] == s[i..][2] == '/';
      NoDoubleAt(s, i + 1);
    }
  }

  lemma CanonicalIsFixed(s: string)
    requires Canonical(s)
    ensures Trim(s) == s && Slashed(s) == s && Squeezed(s) == s
    ensures !Contains(s, "://") && PathPart(s) == s
  {
    NothingToSqueeze(s);
    CanonicalHasNoScheme(s);
  }

  lemma {:induction false} DotsStayApart(s: string)
    requires !Contains(s, "..")
    ensures !Contains(Squeezed(s), "..") && (s != "" ==> Squeezed(s) != "" && Squeezed(s)[0] == s[0])
  {
    if s != [] {
      var rest := s[1..];
      assert s == [s[0]] + rest;
      DotsBehind(s[0], rest);
      DotsStayApart(rest);
      SqueezedBehind(s[0], rest);
      DotsBehind(s[0], Squeezed(rest));
    }
  }

  lemma DotsBehind(c: char, s: string)
    ensures !Contains([c] + s, "..") <==> !Contains(s, "..") && !(c == '.' && s != "" && s[0] == '.')
  {
    var t := [c] + s;
    assert t[1..] == s;
    if |s| >= 1 { assert t[..2] == [c, s[0]]; }
  }

  lemma {:induction false} DotsBefore(s: string)
    requires !Contains(s, "..")
    ensures !Contains(s + "/", "..")
  {
    if s == [] {
      DotsBehind('/', "");
      assert s + "/" == ['/'] + "" && !Contains("", "..");
    } else {
      var rest := s[1..];
      assert s == [s[0]] + rest && s + "/" == [s[0]] + (rest + "/");
      DotsBehind(s[0], rest);
      DotsBefore(rest);
      DotsBehind(s[0], rest + "/");
    }
  }

  /** Normalizing what was normalized changes nothing. */
  lemma ConfigIsIdempotent(raw: string)
    requires ConfigForm(raw).Accepted?
    ensures Canonical(ConfigForm(raw).url) && ConfigForm(ConfigForm(raw).url) == ConfigForm(raw)
  {
    var s := Trim(raw);
    if s == "" {
      assert "/" == ['/'] + "" && !Contains("", DOUBLE) && !Contains("", "..");
      NoDoubleBehind('/', "");
      DotsBehind('/', "");
      CanonicalIsFixed("/");
    } else {
      var t := if Leads(s) then s else "/" + s;
      DotsBehind('/', s);
      DotsBefore(t);
      SqueezedIsCanonical(Slashed(s));
      DotsStayApart(Slashed(s));
      CanonicalIsFixed(Squeezed(Slashed(s)));
    }
  }

  lemma ProjectIsIdempotent(raw: string)
    ensures ProjectForm(ProjectForm(raw)) == ProjectForm(raw)
    ensures ProjectForm(raw) == "" || Canonical(ProjectForm(raw))
  {
    if Trim(raw) != "" {
      var path := PathPart(Trim(raw));
      SlashedSqueezed(path);
      SqueezedIsCanonical(Slashed(path));
      CanonicalIsFixed(ProjectForm(raw));
    }
  }

  /** They agree exactly on what is neither blank nor refused, although one collapses before it
      adds slashes and the other after. */
  lemma NormalizersAgreeExactly(raw: string)
    ensures ConfigForm(raw) == Accepted(ProjectForm(raw)) <==>
      Trim(raw) != "" && !Contains(Trim(raw), "://") && !Contains(Trim(raw), "..")
  {
    var s := Trim(raw);
    if s != "" && !Contains(s, "://") {
      SlashedSqueezed(s);
    }
  }

  // ---------------------------------------------------------------------------------------
  // What is kept
  // ---------------------------------------------------------------------------------------

  /** What stands between slashes, without the empty pieces. */
  function Segments(s: string): seq<string>
    decreases |s|
  {
    if s == "" then []
    else if s[0] == '/' then Segments(s[1..])
    else [s[..Run(s)]] + Segments(s[Run(s)..])
  }

  /** How far the first piece goes. */
  function Run(s: string): (n: nat)
    ensures n <= |s| && (n < |s| ==> s[n] == '/') && forall k | 0 <= k < n :: s[k] != '/'
    ensures s != "" && s[0] != '/' ==> n > 0
  {
    if s == "" || s[0] == '/' then 0 else 1 + Run(s[1..])
  }

  /** Each piece behind one slash, and one at the end. */
  function Rebuilt(segments: seq<string>): string {
    if segments == [] then "/" else "/" + segments[0] + Rebuilt(segments[1..])
  }

  lemma RunWithin(t: string, rest: string)
    requires t != "" && Run(t) == |t| && (rest == "" || rest[0] == '/')
    ensures Run(t + rest) == |t|
  {
    forall k | 0 <= k < |t| ensures (t + rest)[k] != '/' { assert (t + rest)[k] == t[k]; }
    assert rest != "" ==> (t + rest)[|t|] == '/';
  }

  /** A piece in front of a slash is the first one. */
  lemma SegmentsBehindPiece(t: string, rest: string)
    requires t != "" && Run(t) == |t| && (rest == "" || rest[0] == '/')
    ensures Segments(t + rest) == [t] + Segments(rest)
  {
    RunWithin(t, rest);
    assert (t + rest)[0] == t[0] && (t + rest)[..|t|] == t && (t + rest)[|t|..] == rest;
  }

  lemma PieceIn(s: string)
    requires s != "" && s[0] != '/'
    ensures var n := Run(s); n > 0 && s == s[..n] + s[n..] && s[..n] != "" && Run(s[..n]) == n
  {
    var n := Run(s);
    forall k | 0 <= k < n ensures s[..n][k] != '/' { assert s[..n][k] == s[k]; }
  }

  lemma {:induction false} TrailingSlash(s: string)
    ensures Segments(s + "/") == Segments(s)
    decreases |s|
  {
    if s == "" {
      assert s + "/" == "/" && "/"[1..] == "";
    } else if s[0] == '/' {
      TrailingSlash(s[1..]);
      assert (s + "/")[1..] == s[1..] + "/";
    } else {
      var n := Run(s);
      PieceIn(s);
      TrailingSlash(s[n..]);
      assert s + "/" == s[..n] + (s[n..] + "/");
      SegmentsBehindPiece(s[..n], s[n..] + "/");
    }
  }

  /** Adding slashes at the ends adds no piece. */
  lemma SlashedKeepsSegments(s: string)
    ensures Segments(Slashed(s)) == Segments(s)
  {
    assert ("/" + s)[1..] == s;
    TrailingSlash(s);
    TrailingSlash("/" + s);
  }

  /** A squeezed string starts with the piece the string does. */
  lemma {:induction false} SqueezedPiece(t: string, rest: string)
    requires Run(t) == |t| && (rest == "" || rest[0] == '/')
    ensures Squeezed(t + rest) == t + Squeezed(rest)
  {
    if t == "" {
      assert t + rest == rest && t + Squeezed(rest) == Squeezed(rest);
    } else {
      var u := t[1..];
      assert t == [t[0]] + u && t + rest == [t[0]] + (u + rest);
      SqueezedPiece(u, rest);
      SqueezedBehind(t[0], u + rest);
      assert [t[0]] + (u + Squeezed(rest)) == t + Squeezed(rest);
    }
  }

  lemma {:induction false} SqueezedKeepsSegments(s: string)
    ensures Segments(Squeezed(s)) == Segments(s)
    decreases |s|
  {
    if s == "" {
    } else if s[0] == '/' {
      SqueezedKeepsSegments(s[1..]);
      assert s == ['/'] + s[1..];
      SqueezedBehind('/', s[1..]);
      assert (['/'] + Squeezed(s[1..]))[1..] == Squeezed(s[1..]);
    } else {
      var n := Run(s);
      PieceIn(s);
      SqueezedPiece(s[..n], s[n..]);
      SqueezedKeepsSegments(s[n..]);
      NothingToSqueeze(s[n..]);
      SegmentsBehindPiece(s[..n], Squeezed(s[n..]));
    }
  }

  /** There is one canonical form of given pieces. */
  lemma {:induction false} CanonicalIsRebuilt(s: string)
    requires Canonical(s)
    ensures s == Rebuilt(Segments(s))
    decreases |s|
  {
    var rest := s[1..];
    assert s == ['/'] + rest;
    if rest == "" {
      assert Segments(s) == Segments("");
    } else {
      var n := Run(rest);
      BehindFirstPiece(s);
      CanonicalIsRebuilt(rest[n..]);
      SegmentsOfRest(s);
      Rejoined(rest[..n], rest[n..]);
    }
  }

  lemma Rejoined(piece: string, tail: string)
    ensures ['/'] + (piece + tail) == "/" + piece + tail
  {
  }

  lemma SegmentsOfRest(s: string)
    requires |s| > 1 && s[0] == '/' && s[1] != '/'
    ensures Segments(s) == [s[1..][..Run(s[1..])]] + Segments(s[1..][Run(s[1..])..])
  {
    assert s[1..][0] == s[1];
  }

  /** Behind the slash a canonical string starts with, there is a piece, and then another one. */
  lemma BehindFirstPiece(s: string)
    requires Canonical(s) && |s| > 1
    ensures s[1] != '/'
    ensures var rest := s[1..];
            0 < Run(rest) < |rest| && Canonical(rest[Run(rest)..]) && rest == rest[..Run(rest)] + rest[Run(rest)..]
  {
    NoDoubleAt(s, 0);
    var rest := s[1..];
    var n := Run(rest);
    assert rest[|rest| - 1] == '/';
    assert rest[n..] == s[n + 1..];
    NoDoubleInSuffix(s, n + 1);
  }

  lemma NoDoubleInSuffix(s: string, k: nat)
    requires !Contains(s, DOUBLE) && k <= |s|
    ensures !Contains(s[k..], DOUBLE)
  {
    var t := s[k..];
    forall i | 0 <= i <= |t| ensures !HasPrefix(t[i..], DOUBLE) { assert t[i..] == s[k + i..]; }
  }

  /** Whatever is accepted comes out as its own pieces, in their order, each behind one slash and
      one at the end; so nothing but slashes and the space around is added or dropped. */
  lemma ConfigKeepsThePieces(raw: string)
    requires ConfigForm(raw).Accepted?
    ensures ConfigForm(raw).url == Rebuilt(Segments(Trim(raw)))
  {
    var s := Trim(raw);
    if s != "" {
      SqueezedIsCanonical(Slashed(s));
      SlashedKeepsSegments(s);
      SqueezedKeepsSegments(Slashed(s));
      CanonicalIsRebuilt(Squeezed(Slashed(s)));
    }
  }

  /** So does the other normalizer, of the path of what it is given. */
  lemma ProjectKeepsThePieces(raw: string)
    requires Trim(raw) != ""
    ensures ProjectForm(raw) == Rebuilt(Segments(PathPart(Trim(raw))))
  {
    var path := PathPart(Trim(raw));
    SlashedSqueezed(path);
    SqueezedIsCanonical(Slashed(path));
    SlashedKeepsSegments(path);
    SqueezedKeepsSegments(Slashed(path));
    CanonicalIsRebuilt(Squeezed(Slashed(path)));
  }

  /** The path of an address is what follows its host, and of anything else it is all of it. */
  lemma PathPartExactly(scheme: string, host: string, path: string)
    requires !Contains(scheme + ":/", "://") && '/' !in host && (path == "" || path[0] == '/')
    ensures PathPart(scheme + "://" + host + path) == if path == "" then "/" else path
    ensures !Contains(path, "://") ==> PathPart(path) == path
  {
    var s := scheme + "://" + host + path;
    BehindScheme(scheme, host, path);
    FirstAt(scheme, s);
    PathOfRest(host, path);
  }

  lemma BehindScheme(scheme: string, host: string, path: string)
    ensures var s := scheme + "://" + host + path;
            s[..|scheme|] == scheme && s[|scheme|..][..3] == "://" && s[|scheme| + 3..] == host + path
  {
    var s := scheme + "://" + host + path;
    assert s[|scheme|..] == "://" + (host + path);
    assert s[|scheme|..][3..] == host + path;
  }

  lemma PathOfRest(host: string, path: string)
    requires '/' !in host && (path == "" || path[0] == '/')
    ensures var slash := IndexOf(host + path, '/');
            if path == "" then slash < 0 else slash == |host| && (host + path)[slash..] == path
  {
    if path == "" {
      assert host + path == host;
    } else {
      assert host + path == host + ['/'] + path[1..];
      IndexAt(host, '/', path[1..]);
    }
  }

  lemma FirstAt(scheme: string, s: string)
    requires !Contains(scheme + ":/", "://") && |scheme| + 3 <= |s| && s[..|scheme|] == scheme
    requires s[|scheme|..][..3] == "://"
    ensures Find(s, "://") == |scheme|
  {
    var n := |scheme|;
    assert HasPrefix(s[n..], "://");
    assert s[..n + 2] == scheme + ":/" by { assert s[n..][0] == ':' && s[n..][1] == '/'; }
    forall i | 0 <= i < n ensures !HasPrefix(s[i..], "://") {
      assert (scheme + ":/")[i..][..3] == s[..n + 2][i..][..3] == s[i..][..3];
    }
  }

  /** Space is what Unicode gives the property White_Space. */
  lemma SpacesAre(c: char)
    ensures IsSpace(c) <==>
      || c in "\t\n\U{000B}\U{000C}\r \U{0085}\U{00A0}\U{1680}\U{2028}\U{2029}\U{202F}\U{205F}\U{3000}"
      || c in "\U{2000}\U{2001}\U{2002}\U{2003}\U{2004}\U{2005}\U{2006}\U{2007}\U{2008}\U{2009}\U{200A}"
  {
  }

  /** Trimming takes away exactly the space at both ends. */
  lemma TrimmedExactly(s: string) returns (left: string, right: string)
    ensures s == left + Trim(s) + right
    ensures forall c | c in left + right :: IsSpace(c)
    ensures Trim(s) != "" ==> !IsSpace(Trim(s)[0]) && !IsSpace(Trim(s)[|Trim(s)| - 1])
  {
    left := TrimmedLeft(s);
    right := TrimmedRight(TrimLeft(s));
  }

  lemma {:induction false} TrimmedLeft(s: string) returns (left: string)
    ensures s == left + TrimLeft(s) && forall c | c in left :: IsSpace(c)
    ensures TrimLeft(s) != "" ==> !IsSpace(TrimLeft(s)[0])
  {
    if s != "" && IsSpace(s[0]) {
      left := TrimmedLeft(s[1..]);
      left := [s[0]] + left;
      assert s == [s[0]] + s[1..];
    } else {
      left := "";
    }
  }

  lemma {:induction false} TrimmedRight(s: string) returns (right: string)
    ensures s == TrimRight(s) + right && forall c | c in right :: IsSpace(c)
    ensures TrimRight(s) != "" ==> !IsSpace(TrimRight(s)[|TrimRight(s)| - 1]) && TrimRight(s)[0] == s[0]
  {
    if s != "" && IsSpace(s[|s| - 1]) {
      right := TrimmedRight(s[..|s| - 1]);
      right := right + [s[|s| - 1]];
      assert s == s[..|s| - 1] + [s[|s| - 1]];
    } else {
      right := "";
    }
  }
}
