/**
 The daemon's shared maps and the critical sections of the mutex that guards them, one method
 each. The protocol's steps are stated on values; these methods do the same in place.
 */
module Daemon {
  import opened ByteStrings
  import opened Strings
  import K = Keys
  import P = Protocol
  import R = Reports

  class Maps {
    var running: map<string, P.BuildId>
    var live: map<string, P.Publication>
    /** The shares of single builds, by key. */
    var liveBuilds: map<string, P.Publication>
    var commit: map<string, P.Mutex>
    var nextMutex: P.Mutex
    var reported: map<string, R.Mark>

    /** What the protocol speaks of. */
    ghost function View(): P.Maps
      reads this
    {
      P.Maps(running, live, commit, nextMutex)
    }

    /** Every build share is kept under the key of a build of some preview. */
    ghost predicate Valid()
      reads this
    {
      forall key | key in liveBuilds :: IsBuildKey(key)
    }

    constructor ()
      ensures Valid() && View() == P.Maps(map[], map[], map[], 0) && reported == map[] && liveBuilds == map[]
    {
      running, live, liveBuilds, commit, nextMutex, reported := map[], map[], map[], map[], 0, map[];
    }

    method CommitLock(p: string) returns (m: P.Mutex)
      modifies this`commit, this`nextMutex
      ensures View() == P.WithLock(old(View()), p) && m == P.LockOf(old(View()), p)
    {
      if p !in commit {
        commit := commit[p := nextMutex];
        nextMutex := nextMutex + 1;
      }
      m := commit[p];
    }

    method IsCurrent(p: string, b: P.BuildId) returns (yes: bool)
      ensures yes <==> P.IsCurrent(View(), p, b)
    {
      yes := p in running && running[p] == b;
    }

    /** A push, or the cancel button, abandons whatever is running; the caller cancels it. */
    method Abandon(p: string) returns (b: Option<P.BuildId>)
      modifies this`running
      ensures View() == P.Abandon(old(View()), p)
      ensures b == if p in old(running) then Some(old(running)[p]) else None
    {
      b := None;
      if p in running {
        b := Some(running[p]);
        running := running - {p};
      }
    }

    method Register(p: string, b: P.BuildId)
      modifies this`running
      ensures View() == P.Register(old(View()), p, b)
    {
      running := running[p := b];
    }

    /** Only the build's own entry goes. */
    method Deregister(p: string, b: P.BuildId)
      modifies this`running
      ensures View() == P.Deregister(old(View()), p, b)
    {
      if p in running && running[p] == b { running := running - {p}; }
    }

    method Install(p: string, pub: P.Publication) returns (replaced: Option<P.Publication>)
      modifies this`live
      ensures View() == P.PutLive(old(View()), p, pub)
      ensures replaced == if p in old(live) then Some(old(live)[p]) else None
    {
      replaced := if p in live then Some(live[p]) else None;
      live := live[p := pub];
    }

    method Unpublish(p: string) returns (pub: Option<P.Publication>)
      modifies this`live
      ensures View() == P.DropLive(old(View()), p)
      ensures pub == if p in old(live) then Some(old(live)[p]) else None
    {
      pub := if p in live then Some(live[p]) else None;
      live := live - {p};
    }

    method PutBuildShare(p: string, build: string, pub: P.Publication) returns (replaced: Option<P.Publication>)
      requires Valid() && K.IsPreviewId(p) && build != ""
      modifies this`liveBuilds
      ensures Valid() && liveBuilds == old(liveBuilds)[K.Key(p, build) := pub]
      ensures replaced == if K.Key(p, build) in old(liveBuilds) then Some(old(liveBuilds)[K.Key(p, build)]) else None
    {
      var key := K.Key(p, build);
      assert IsBuildKeyOf(p, build, key);
      replaced := if key in liveBuilds then Some(liveBuilds[key]) else None;
      liveBuilds := liveBuilds[key := pub];
    }

    /** Everything a teardown takes out of the maps at once: what it hands back is what has to be
        cancelled and withdrawn afterwards. Of the build shares, those of this preview go and no
        other. */
    method TearDown(p: string) returns (b: Option<P.BuildId>, pub: Option<P.Publication>, shares: map<string, P.Publication>)
      requires Valid() && K.IsPreviewId(p)
      modifies this
      ensures Valid() && View() == P.TearDown(old(View()), p)
      ensures b == if p in old(running) then Some(old(running)[p]) else None
      ensures pub == if p in old(live) then Some(old(live)[p]) else None
      ensures liveBuilds == old(liveBuilds) - SharesOf(old(liveBuilds), p)
      ensures shares == Only(old(liveBuilds), SharesOf(old(liveBuilds), p))
      ensures forall key | key in old(liveBuilds) :: HandedBack(key, old(liveBuilds)[key], p, liveBuilds, shares)
      ensures liveBuilds.Keys + shares.Keys == old(liveBuilds).Keys
      ensures reported == old(reported) - {p}
    {
      PrefixTellsThePreview(p, liveBuilds);
      b := Abandon(p);
      pub := Unpublish(p);
      shares := TakeBuildShares(p);
      commit := commit - {p};
      reported := reported - {p};
    }

    method TakeBuildShares(p: string) returns (shares: map<string, P.Publication>)
      requires Valid() && K.IsPreviewId(p)
      modifies this`liveBuilds
      ensures Valid()
      ensures liveBuilds == old(liveBuilds) - SharesOf(old(liveBuilds), p)
      ensures shares == Only(old(liveBuilds), SharesOf(old(liveBuilds), p))
    {
      PrefixTellsThePreview(p, liveBuilds);
      shares := TakePrefixed(p + "/");
    }

    method TakePrefixed(prefix: string) returns (shares: map<string, P.Publication>)
      modifies this`liveBuilds
      ensures liveBuilds == old(liveBuilds) - Prefixed(old(liveBuilds), prefix)
      ensures shares == Only(old(liveBuilds), Prefixed(old(liveBuilds), prefix))
    {
      shares := map[];
      var todo := liveBuilds.Keys;
      ghost var all, taken: set<string> := liveBuilds, {};
      ghost var mine := Prefixed(all, prefix);
      while todo != {}
        invariant todo <= all.Keys && taken == mine - todo
        invariant liveBuilds == all - taken && shares == Only(all, taken)
        decreases |todo|
      {
        var key :| key in todo;
        Visit(mine, todo, key);
        if HasPrefix(key, prefix) {
          TakeOne(all, taken, key);
          shares := shares[key := liveBuilds[key]];
          liveBuilds := liveBuilds - {key};
          taken := taken + {key};
        }
        todo := todo - {key};
      }
      assert taken == mine;
    }

    /** Says whether a report is late, and remembers it if it is not. */
    method StaleReport(r: R.Report) returns (stale: bool)
      modifies this`reported
      ensures stale == R.IsStale(old(reported), r) && reported == R.Marked(old(reported), r)
    {
      var rank := R.Rank(r.state);
      if r.preview in reported && reported[r.preview].commit == r.commit && rank < reported[r.preview].rank {
        return true;
      }
      reported := reported[r.preview := R.Mark(r.commit, rank)];
      return false;
    }
  }

  /** A build share is either handed back or kept, by whether its key starts with the preview's id and a
      slash. */
  predicate HandedBack(key: string, pub: P.Publication, p: string, kept: map<string, P.Publication>, shares: map<string, P.Publication>) {
    if HasPrefix(key, p + "/") then key !in kept && key in shares && shares[key] == pub
    else key !in shares && key in kept && kept[key] == pub
  }

  /** The keys of one preview's build shares. */
  function SharesOf(liveBuilds: map<string, P.Publication>, p: string): set<string> {
    set key | key in liveBuilds && K.PreviewOfKey(key) == p
  }

  function Prefixed(liveBuilds: map<string, P.Publication>, prefix: string): set<string> {
    set key | key in liveBuilds && HasPrefix(key, prefix)
  }

  function Only(m: map<string, P.Publication>, keys: set<string>): map<string, P.Publication> {
    m - (m.Keys - keys)
  }

  lemma Visit<T>(mine: set<T>, todo: set<T>, key: T)
    requires key in todo
    ensures mine - (todo - {key}) == if key in mine then (mine - todo) + {key} else mine - todo
  {
  }

  lemma TakeOne(m: map<string, P.Publication>, taken: set<string>, key: string)
    requires key in m && key !in taken
    ensures m - taken - {key} == m - (taken + {key})
    ensures Only(m, taken)[key := m[key]] == Only(m, taken + {key})
    ensures key in m - taken && (m - taken)[key] == m[key]
  {
  }

  predicate IsBuildKeyOf(p: string, build: string, key: string) {
    K.IsPreviewId(p) && build != "" && key == K.Key(p, build)
  }

  ghost predicate IsBuildKey(key: string) { exists p, build :: IsBuildKeyOf(p, build, key) }

  /** A build share's key starts with a preview's id and a slash exactly when it is one of that
      preview's. */
  lemma PrefixTellsThePreview(p: string, liveBuilds: map<string, P.Publication>)
    requires K.IsPreviewId(p) && forall key | key in liveBuilds :: IsBuildKey(key)
    ensures Prefixed(liveBuilds, p + "/") == SharesOf(liveBuilds, p)
  {
    forall key | key in liveBuilds ensures HasPrefix(key, p + "/") <==> K.PreviewOfKey(key) == p {
      var q, build :| IsBuildKeyOf(q, build, key);
      K.BuildKeysOfPreview(p, q, build);
      K.KeyReadsBack(q, build);
    }
  }
}
