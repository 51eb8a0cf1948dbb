/**
 The keys publications are known by: a preview's own share has the preview's id, and the share
 of one of its builds has "<preview>/<build>".
 */
module Keys {
  import opened Lists
  import opened Strings

  /** A preview id is the hex of a hash: it has no slash. */
  predicate IsPreviewId(id: string) { '/' !in id }

  /** An empty build id stands for the preview's own share. */
  function Key(preview: string, build: string): string {
    if build == "" then preview else preview + "/" + build
  }

  function PreviewOfKey(key: string): string {
    var i := IndexOf(key, '/');
    if i >= 0 then key[..i] else key
  }

  function BuildOfKey(key: string): string {
    var i := IndexOf(key, '/');
    if i >= 0 then key[i + 1..] else ""
  }

  /** Does the publication under `key` keep a new one from taking the same name? */
  predicate Collides(key: string, preview: string, build: string) {
    key != Key(preview, build) && PreviewOfKey(key) != preview
  }

  /** A key says which preview and which build it belongs to. */
  lemma KeyReadsBack(preview: string, build: string)
    requires IsPreviewId(preview)
    ensures PreviewOfKey(Key(preview, build)) == preview && BuildOfKey(Key(preview, build)) == build
  {
    if build != "" {
      IndexAt(preview, '/', build);
      var key := preview + "/" + build;
      assert key[..|preview|] == preview && key[|preview| + 1..] == build;
    }
  }

  lemma KeyIsInjective(p: string, b: string, q: string, c: string)
    requires IsPreviewId(p) && IsPreviewId(q) && Key(p, b) == Key(q, c)
    ensures p == q && b == c
  {
    KeyReadsBack(p, b);
    KeyReadsBack(q, c);
  }

  /** It needs ids without a slash. */
  lemma SlashesConfuseKeys()
    ensures Key("a", "b") == Key("a/b", "") && !IsPreviewId("a/b")
  {
  }

  /** Publications of one preview never collide, and those of different previews always do. */
  lemma CollidesAcrossPreviewsOnly(p: string, b: string, q: string, c: string)
    requires IsPreviewId(p) && IsPreviewId(q)
    ensures Collides(Key(p, b), q, c) <==> p != q
  {
    KeyReadsBack(p, b);
    KeyReadsBack(q, c);
  }

  /** And none collides with itself, whatever its ids are made of. */
  lemma OwnKeyNeverCollides(p: string, b: string)
    ensures !Collides(Key(p, b), p, b)
  {
  }

  /** The keys that start with a preview's id and a slash are those of its builds. */
  lemma BuildKeysOfPreview(p: string, q: string, c: string)
    requires IsPreviewId(p) && IsPreviewId(q)
    ensures HasPrefix(Key(q, c), p + "/") <==> p == q && c != ""
  {
    var key := Key(q, c);
    if HasPrefix(key, p + "/") {
      PrefixNames(key, p);
      KeyReadsBack(q, c);
    }
    if p == q && c != "" {
      assert key[..|p| + 1] == p + "/";
    }
  }

  lemma PrefixNames(key: string, p: string)
    requires IsPreviewId(p) && HasPrefix(key, p + "/")
    ensures PreviewOfKey(key) == p && BuildOfKey(key) == key[|p| + 1..] && '/' in key
  {
    var rest := key[|p| + 1..];
    assert key == p + "/" + rest;
    IndexAt(p, '/', rest);
    assert key[..|p|] == p;
  }

  /** A live publication; withdrawing it is done once, however often Close is called. */
  class Publication {
    var armed: bool
    ghost var withdrawals: nat

    ghost predicate Valid()
      reads this
    {
      withdrawals == if armed then 0 else 1
    }

    constructor ()
      ensures Valid() && armed
    {
      armed := true;
      withdrawals := 0;
    }

    /** Reports the outcome of the withdrawal to the call that made it, success to the others. */
    method Close(fails: bool) returns (ok: bool)
      requires Valid()
      modifies this
      ensures Valid() && !armed && withdrawals == 1
      ensures ok <==> !old(armed) || !fails
    {
      if !armed { return true; }
      armed := false;
      withdrawals := withdrawals + 1;
      return !fails;
    }
  }
}
