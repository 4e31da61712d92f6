/** Where the purchase experiment's promises stop: two short runs from the initial state. */
module PurchaseWitnesses {
  import opened Common
  import opened PurchaseModel
  import opened PurchaseTheorems

  const FINE := Choice(NoFault, "", false)

  ghost predicate Reachable(w: World) {
    exists acts :: Run(Fresh(), acts) == w
  }

  lemma {:induction false} RunAppend(w: World, acts: seq<Action>, a: Action)
    ensures Run(w, acts + [a]) == Step(Run(w, acts), a)
    decreases acts
  {
    if acts == [] {
      assert acts + [a] == [a];
      assert Run(Step(w, a), []) == Step(w, a);
    } else {
      assert (acts + [a])[1..] == acts[1..] + [a];
      RunAppend(Step(w, acts[0]), acts[1..], a);
    }
  }

  lemma OneMore(w: World, a: Action) returns (v: World)
    requires Reachable(w)
    ensures v == Step(w, a) && Reachable(v)
  {
    var acts :| Run(Fresh(), acts) == w;
    RunAppend(Fresh(), acts, a);
    v := Step(w, a);
  }

  predicate At(w: World, pid: nat, r: Request, at: BuyPc) {
    pid in w.agents && w.agents[pid] == Buyer(r, at)
  }

  /** The first purchase of a still unknown request runs up to its commit. */
  lemma AboutToCommit(w: World, pid: nat, r: Request) returns (v: World)
    requires Reachable(w) && w.s == Fresh().s && At(w, pid, r, TakeStock)
    requires r.strategy == SyncInvalidate && 0 < r.quantity <= BASELINE
    ensures Reachable(v) && At(v, pid, r, Commit) && v.s == Fresh().s.(lock := Some(pid))
    ensures v.agents - {pid} == w.agents - {pid}
  {
    v := OneMore(w, Turn(pid, FINE));
    assert At(v, pid, r, InsertOrder) && v.s == Fresh().s.(lock := Some(pid));
    v := OneMore(v, Turn(pid, FINE));
  }

  /** It commits and deletes the cached DTO. */
  lemma Completes(w: World, pid: nat, r: Request) returns (v: World)
    requires Reachable(w) && w.s == Fresh().s && At(w, pid, r, TakeStock)
    requires r.strategy == SyncInvalidate && 0 < r.quantity <= BASELINE
    ensures Reachable(v) && At(v, pid, r, Answered(Committed, true))
    ensures v.s.db == Db(BASELINE - r.quantity, map[r.id := Order(r.batch, r.quantity, r.strategy)], map[])
    ensures v.s.writers == [Nobody, Sync(pid)] && |v.s.stocks| == 2 && v.s.cache == None && v.s.lock == None
    ensures v.agents - {pid} == w.agents - {pid}
  {
    v := AboutToCommit(w, pid, r);
    v := OneMore(v, Turn(pid, FINE));
    assert At(v, pid, r, Deleting(Committed, 1));
    v := OneMore(v, Turn(pid, FINE));
  }

  lemma Begins(w: World, pid: nat, r: Request) returns (v: World)
    requires Reachable(w) && w.s == Fresh().s && pid !in w.agents
    requires r.batch != "" && r.id != "" && 0 < r.quantity
    ensures Reachable(v) && v.s == w.s && v.agents == w.agents[pid := Buyer(r, TakeStock)]
  {
    v := OneMore(w, Spawn(pid, Buyer(r, Validate)));
    assert v.agents[pid] == Buyer(r, Validate);
    v := OneMore(v, Turn(pid, FINE));
    assert v.agents[pid] == Buyer(r, FindOrder) && v.s == w.s;
    v := OneMore(v, Turn(pid, FINE));
    assert v.agents == w.agents[pid := Buyer(r, TakeStock)];
  }

  /** A fill that read MySQL before a commit and writes Redis after that commit's DEL leaves the
      cache stale although nobody owes a deletion any more, until the entry expires. */
  lemma StraddlingFillStaysStale() returns (w: World, later: World)
    ensures Reachable(w) && w.s.cache == Some(Entry(0, true)) && Version(w.s) == 1
    ensures !Outstanding(w, 1)
    ensures Reachable(later) && later == Step(w, ExpireCache) && later.s.cache == None
  {
    var r := Request("b", "r", 1, SyncInvalidate);
    assert Run(Fresh(), []) == Fresh();
    w := OneMore(Fresh(), Spawn(7, Filler(FillRead)));
    assert w.agents == map[7 := Filler(FillRead)];
    w := OneMore(w, Turn(7, FINE));
    assert w.agents[7] == Filler(FillSet(0)) && w.s == Fresh().s;
    w := Begins(w, 0, r);
    var v := Completes(w, 0, r);
    assert v.agents[7] == Filler(FillSet(0)) by {
      assert 7 in w.agents - {0};
      assert 7 in v.agents - {0};
    }
    w := OneMore(v, Turn(7, FINE));
    assert w.agents[0] == Buyer(r, Answered(Committed, true));
    later := OneMore(w, ExpireCache);
  }

  /** A concurrent duplicate may hear "sold out" although its own order was just committed: its
      snapshot missed the order, and the stock it then tried to take was already gone. */
  lemma DuplicateMayHearSoldOut() returns (w: World)
    ensures Reachable(w)
    ensures
      var r := Request("b", "r", BASELINE, SyncInvalidate);
      At(w, 1, r, Answered(SoldOut, false)) && r.id in w.s.db.orders && SameOrder(w.s.db.orders[r.id], r)
  {
    var r := Request("b", "r", BASELINE, SyncInvalidate);
    assert Run(Fresh(), []) == Fresh();
    w := Begins(Fresh(), 0, r);
    w := Begins(w, 1, r);
    var v := Completes(w, 0, r);
    assert v.agents[1] == Buyer(r, TakeStock) by {
      assert 1 in w.agents - {0};
      assert 1 in v.agents - {0};
    }
    w := OneMore(v, Turn(1, FINE));
  }
}
