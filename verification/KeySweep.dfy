/** Deleting every Redis key under a pattern except a kept set, by repeated SCAN iterations. */
module KeySweep {
  class KeySpace {
    var keys: set<string>

    constructor (keys: set<string>)
      ensures this.keys == keys
    {
      this.keys := keys;
    }
  }

  /** One whole SCAN iteration: which keys its calls visit, call by call, in any order and with any
      repeats.  A call returns those that exist at that moment and match. */
  type Iteration = seq<seq<string>>

  function Visited(calls: Iteration): set<string> {
    set i, k | 0 <= i < |calls| && k in calls[i] :: k
  }

  /** SCAN's guarantee: every key that is there for the whole iteration is visited. */
  predicate Covers(calls: Iteration, keys: set<string>) {
    calls != [] && keys <= Visited(calls)
  }

  /** The keys of one call's answer that are not kept, in order and with repeats. */
  function Obsolete(visited: seq<string>, keys: set<string>, matching: set<string>, keep: set<string>): seq<string> {
    if visited == [] then []
    else
      (if visited[0] in keys && visited[0] in matching && visited[0] !in keep then [visited[0]] else [])
        + Obsolete(visited[1..], keys, matching, keep)
  }

  function AfterCall(visited: seq<string>, keys: set<string>, matching: set<string>, keep: set<string>): set<string> {
    keys - (set k | k in Obsolete(visited, keys, matching, keep))
  }

  function AfterPass(calls: Iteration, keys: set<string>, matching: set<string>, keep: set<string>): set<string> {
    if calls == [] then keys else AfterPass(calls[1..], AfterCall(calls[0], keys, matching, keep), matching, keep)
  }

  function Removable(keys: set<string>, matching: set<string>, keep: set<string>): set<string> {
    (keys * matching) - keep
  }

  lemma {:induction false} ObsoleteIs(visited: seq<string>, keys: set<string>, matching: set<string>,
                                      keep: set<string>, k: string)
    ensures k in Obsolete(visited, keys, matching, keep) <==> k in visited && k in Removable(keys, matching, keep)
  {
    if visited == [] {
    } else {
      ObsoleteIs(visited[1..], keys, matching, keep, k);
      assert k in visited <==> k == visited[0] || k in visited[1..];
    }
  }

  /** A pass removes exactly the removable keys it visits. */
  lemma {:induction false} PassRemoves(calls: Iteration, keys: set<string>, matching: set<string>, keep: set<string>, k: string)
    ensures k in AfterPass(calls, keys, matching, keep) <==>
              k in keys && !(k in Visited(calls) && k in Removable(keys, matching, keep))
    decreases |calls|
  {
    if calls == [] {
    } else {
      ObsoleteIs(calls[0], keys, matching, keep, k);
      PassRemoves(calls[1..], AfterCall(calls[0], keys, matching, keep), matching, keep, k);
      if k in Visited(calls) {
        var i :| 0 <= i < |calls| && k in calls[i];
        assert i > 0 ==> calls[1..][i - 1] == calls[i];
      }
      if k in Visited(calls[1..]) {
        var i :| 0 <= i < |calls[1..]| && k in calls[1..][i];
        assert calls[i + 1] == calls[1..][i];
      }
    }
  }

  /** One covering pass suffices: the second one only confirms it. */
  lemma CoveringPassRemovesAll(calls: Iteration, keys: set<string>, matching: set<string>, keep: set<string>)
    requires Covers(calls, keys)
    ensures AfterPass(calls, keys, matching, keep) == keys - Removable(keys, matching, keep)
  {
    forall k
      ensures k in AfterPass(calls, keys, matching, keep) <==> k in keys - Removable(keys, matching, keep)
    {
      PassRemoves(calls, keys, matching, keep, k);
    }
  }

  /** Only removable keys are gone. */
  predicate Between(keys: set<string>, before: set<string>, matching: set<string>, keep: set<string>) {
    before - Removable(before, matching, keep) <= keys <= before
  }

  lemma CallStaysBetween(visited: seq<string>, keys: set<string>, matching: set<string>, keep: set<string>)
    ensures Between(AfterCall(visited, keys, matching, keep), keys, matching, keep)
    ensures AfterCall(visited, keys, matching, keep) == keys <==> Obsolete(visited, keys, matching, keep) == []
  {
    var obsolete := Obsolete(visited, keys, matching, keep);
    forall k | k in obsolete
      ensures k in Removable(keys, matching, keep)
    {
      ObsoleteIs(visited, keys, matching, keep, k);
    }
    if obsolete != [] {
      assert obsolete[0] in obsolete;
    }
  }

  /** One SCAN iteration: delete what each call returns, and count it. */
  method SweepOnce(db: KeySpace, calls: Iteration, matching: set<string>, keep: set<string>, fails: nat -> bool)
    returns (ok: bool, deleted: nat)
    modifies db
    ensures ok ==> db.keys == AfterPass(calls, old(db.keys), matching, keep)
    ensures ok ==> (deleted == 0 <==> db.keys == old(db.keys))
    ensures !ok ==> exists k :: 0 <= k < 2 * |calls| && fails(k)
    ensures Between(db.keys, old(db.keys), matching, keep)
  {
    deleted := 0;
    for cursor := 0 to |calls|
      invariant AfterPass(calls[cursor..], db.keys, matching, keep) == AfterPass(calls, old(db.keys), matching, keep)
      invariant deleted == 0 <==> db.keys == old(db.keys)
      invariant Between(db.keys, old(db.keys), matching, keep)
    {
      if fails(2 * cursor) {
        return false, deleted;
      }
      var obsolete := Obsolete(calls[cursor], db.keys, matching, keep);
      CallStaysBetween(calls[cursor], db.keys, matching, keep);
      assert calls[cursor..][1..] == calls[cursor + 1..];
      assert AfterCall(calls[cursor], db.keys, matching, keep) == db.keys - (set k | k in obsolete);
      if |obsolete| > 0 {
        if fails(2 * cursor + 1) {
          return false, deleted;
        }
        db.keys := db.keys - (set k | k in obsolete);
        deleted := deleted + |obsolete|;
      }
    }
    assert calls[|calls|..] == [];
    return true, deleted;
  }

  /** A Redis call of one of the first two iterations fails. */
  predicate SomeCallFails(scan: nat -> Iteration, fails: nat -> nat -> bool) {
    exists p: nat, k: nat | p < 2 && k < 2 * |scan(p)| :: fails(p)(k)
  }

  /** Sweep until an iteration deletes nothing: at most two iterations, and then no matching key
      outside `keep` is left.  It gives up only when a call fails, and then it leaves only removable
      keys missing. */
  method DeleteExcept(db: KeySpace, matching: set<string>, keep: set<string>,
                      scan: nat -> Iteration, fails: nat -> nat -> bool)
    returns (ok: bool, passes: nat)
    requires forall p :: Covers(scan(p), db.keys)
    modifies db
    ensures ok ==> db.keys == old(db.keys) - Removable(old(db.keys), matching, keep) && 1 <= passes <= 2
    ensures !ok ==> SomeCallFails(scan, fails)
    ensures Between(db.keys, old(db.keys), matching, keep)
  {
    passes := 0;
    while true
      invariant passes <= 1
      invariant passes == 0 ==> db.keys == old(db.keys)
      invariant passes == 1 ==> db.keys == old(db.keys) - Removable(old(db.keys), matching, keep)
      decreases 1 - passes
    {
      assert Covers(scan(passes), db.keys);
      CoveringPassRemovesAll(scan(passes), db.keys, matching, keep);
      var swept, deleted := SweepOnce(db, scan(passes), matching, keep, fails(passes));
      if !swept {
        return false, passes;
      }
      passes := passes + 1;
      if deleted == 0 {
        return true, passes;
      }
    }
  }
}
