/** A crowd of N distinct unit purchases against a stock of S: exactly min(N, S) succeed, while cache
    fills, publishers, consumers and earlier buyers go on with their work and anybody may crash. */
module PurchaseCrowd {
  import opened Common
  import opened PurchaseModel
  import opened PurchaseSafety
  import opened PurchaseTheorems

  // ---------------------------------------------------------------- the crowd and the others

  predicate DistinctIds(crowd: map<nat, Request>) {
    forall i, j :: i in crowd && j in crowd && i != j ==> crowd[i].id != crowd[j].id
  }

  /** The crowd: who buys what.  Unit purchases under distinct, unused request ids. */
  predicate IsCrowd(crowd: map<nat, Request>, w: World) {
    && (forall pid :: pid in crowd ==> crowd[pid].quantity == 1 && crowd[pid].id !in w.s.db.orders)
    && DistinctIds(crowd)
  }

  /** Somebody who will not write stock any more: no purchase before its commit and no reset before
      its transaction. */
  predicate Bystander(a: Agent) {
    && (a.Buyer? ==> a.buy.Deleting? || a.buy.Answered?)
    && (a.Resetter? ==> a.reset != ResetRows)
  }

  /** Nobody but the crowd starts to buy, and nobody starts a reset. */
  predicate Admitted(w: World, a: Action, crowd: map<nat, Request>) {
    a.Spawn? && Step(w, a) != w ==>
      if a.pid in crowd then a.agent == Buyer(crowd[a.pid], Validate) else !a.agent.Buyer? && !a.agent.Resetter?
  }

  predicate OnlyTheCrowdBuys(w: World, acts: seq<Action>, crowd: map<nat, Request>)
    decreases acts
  {
    acts == [] || (Admitted(w, acts[0], crowd) && OnlyTheCrowdBuys(Step(w, acts[0]), acts[1..], crowd))
  }

  predicate Won(a: Agent) {
    a.Buyer? && (a.buy.Deleting? || a.buy.Answered?) && a.buy.outcome == Committed
  }

  predicate Lost(a: Agent) {
    a.Buyer? && a.buy.Answered? && a.buy.outcome == SoldOut
  }

  /** The buyer may have committed without anybody hearing so. */
  predicate Unsure(a: Agent) {
    a == Crashed || (a.Buyer? && a.buy == Answered(Failed, false))
  }

  /** A buyer whose request id was unused never takes a branch of the duplicate. */
  predicate FirstOfItsId(a: Agent) {
    a.Buyer? ==>
      && a.buy != ReadOrder && a.buy != ReadOutbox
      && (a.buy.Deleting? ==> a.buy.outcome == Committed)
      && (a.buy.Answered? ==> a.buy.outcome == Committed || a.buy.outcome == SoldOut || a.buy.outcome == Failed)
  }

  // ---------------------------------------------------------------- invariant

  ghost predicate Bought(w: World, crowd: map<nat, Request>, id: string) {
    exists pid :: pid in crowd && pid in w.agents && crowd[pid].id == id && (Won(w.agents[pid]) || Unsure(w.agents[pid]))
  }

  predicate MemberOk(w: World, pid: nat, r: Request)
    requires pid in w.agents
  {
    var a := w.agents[pid];
    && (a == Crashed || (a.Buyer? && a.request == r))
    && FirstOfItsId(a)
    && (Won(a) ==> r.id in w.s.db.orders)
    && (Lost(a) ==> w.s.db.stock <= 0)
  }

  /** The orders are those of the start and those of the crowd, and each new one took one unit. */
  ghost predicate CrowdOk(start: Db, w: World, crowd: map<nat, Request>) {
    && (forall pid :: pid in w.agents ==> if pid in crowd then MemberOk(w, pid, crowd[pid]) else Bystander(w.agents[pid]))
    && start.orders.Keys <= w.s.db.orders.Keys
    && (forall id :: id in w.s.db.orders && id !in start.orders ==> Bought(w, crowd, id))
    && w.s.db.stock + |w.s.db.orders.Keys| == start.stock + |start.orders.Keys|
  }

  // ---------------------------------------------------------------- one step

  lemma BystanderMoves(s: Shared, pid: nat, a: Agent, c: Choice)
    requires Bystander(a)
    ensures
      var (t, b) := AgentStep(s, pid, a, c);
      t.db.orders == s.db.orders && t.db.stock == s.db.stock && Bystander(b)
  {
  }

  /** One statement of a crowd member whose id is still unused unless it won or failed. */
  predicate MemberMoved(s: Shared, a: Agent, t: Shared, b: Agent)
    requires a.Buyer?
  {
    && b.Buyer? && b.request == a.request && FirstOfItsId(b)
    && (Won(a) || Unsure(a) ==> Won(b) || Unsure(b))
    && (Won(b) ==> a.request.id in t.db.orders)
    && (Lost(b) ==> t.db.stock <= 0)
    && if t.db.orders.Keys == s.db.orders.Keys then t.db.stock == s.db.stock
       else
         && t.db.orders.Keys == s.db.orders.Keys + {a.request.id} && a.request.id !in s.db.orders
         && t.db.stock == s.db.stock - 1 && (Won(b) || Unsure(b))
  }

  lemma MemberMoves(s: Shared, pid: nat, r: Request, at: BuyPc, c: Choice)
    requires SharedOk(s) && BuyerOk(s, pid, r, at) && r.quantity == 1
    requires FirstOfItsId(Buyer(r, at))
    requires r.id in s.db.orders ==> Won(Buyer(r, at)) || Unsure(Buyer(r, at))
    requires Won(Buyer(r, at)) ==> r.id in s.db.orders
    requires Lost(Buyer(r, at)) ==> s.db.stock <= 0
    ensures
      var (t, b) := BuyStep(s, pid, r, at, c);
      MemberMoved(s, Buyer(r, at), t, b)
  {
    var (t, b) := BuyStep(s, pid, r, at, c);
    if at.Commit? {
    } else {
      assert t.db == s.db;
    }
  }

  /** A purchase of this member is the sole one under its id. */
  lemma UsedByItself(start: Db, w: World, crowd: map<nat, Request>, pid: nat)
    requires CrowdOk(start, w, crowd) && pid in crowd && pid in w.agents
    requires crowd[pid].id !in start.orders
    requires DistinctIds(crowd)
    ensures crowd[pid].id in w.s.db.orders ==> Won(w.agents[pid]) || Unsure(w.agents[pid])
  {
    if crowd[pid].id in w.s.db.orders {
      assert Bought(w, crowd, crowd[pid].id);
    }
  }

  /** The purchase of another id stays bought when one agent moves on. */
  lemma StaysBought(w: World, v: World, crowd: map<nat, Request>, pid: nat, id: string)
    requires Bought(w, crowd, id) && pid in w.agents && pid in v.agents
    requires v.agents == w.agents[pid := v.agents[pid]]
    requires Won(w.agents[pid]) || Unsure(w.agents[pid]) ==> Won(v.agents[pid]) || Unsure(v.agents[pid])
    ensures Bought(v, crowd, id)
  {
    var buyer :| buyer in crowd && buyer in w.agents && crowd[buyer].id == id
                 && (Won(w.agents[buyer]) || Unsure(w.agents[buyer]));
    assert buyer in v.agents && (Won(v.agents[buyer]) || Unsure(v.agents[buyer]));
  }

  lemma MemberTurn(start: Db, w: World, crowd: map<nat, Request>, pid: nat, t: Shared, b: Agent)
    requires CrowdOk(start, w, crowd) && pid in crowd && pid in w.agents && w.agents[pid].Buyer?
    requires MemberMoved(w.s, w.agents[pid], t, b)
    ensures CrowdOk(start, World(t, w.agents[pid := b]), crowd)
  {
    var v := World(t, w.agents[pid := b]);
    assert MemberOk(w, pid, crowd[pid]);
    forall i | i in v.agents
      ensures if i in crowd then MemberOk(v, i, crowd[i]) else Bystander(v.agents[i])
    {
      if i != pid && i in crowd {
        assert MemberOk(w, i, crowd[i]);
      }
    }
    forall id | id in t.db.orders && id !in start.orders
      ensures Bought(v, crowd, id)
    {
      if id in w.s.db.orders {
        StaysBought(w, v, crowd, pid, id);
      } else {
        assert id == crowd[pid].id && v.agents[pid] == b;
      }
    }
  }

  lemma TurnKeepsCrowd(start: Db, w: World, crowd: map<nat, Request>, pid: nat, c: Choice)
    requires Good(w) && CrowdOk(start, w, crowd) && pid in w.agents
    requires IsCrowd(crowd, World(w.s.(db := start), w.agents))
    ensures CrowdOk(start, Step(w, Turn(pid, c)), crowd)
  {
    var a := w.agents[pid];
    if pid in crowd && a.Buyer? {
      assert AgentOk(w.s, pid, a) && MemberOk(w, pid, crowd[pid]);
      UsedByItself(start, w, crowd, pid);
      MemberMoves(w.s, pid, a.request, a.buy, c);
      var (t, b) := BuyStep(w.s, pid, a.request, a.buy, c);
      MemberTurn(start, w, crowd, pid, t, b);
    } else {
      var v := Step(w, Turn(pid, c));
      assert pid in crowd ==> MemberOk(w, pid, crowd[pid]);
      BystanderMoves(w.s, pid, a, c);
      OrdersUntouched(start, w, v, crowd, pid);
    }
  }

  /** An agent moved on without touching stock or orders. */
  lemma OrdersUntouched(start: Db, w: World, v: World, crowd: map<nat, Request>, pid: nat)
    requires CrowdOk(start, w, crowd) && pid in w.agents && pid in v.agents
    requires v.agents == w.agents[pid := v.agents[pid]]
    requires v.s.db.orders == w.s.db.orders && v.s.db.stock == w.s.db.stock
    requires if pid in crowd then v.agents[pid] == Crashed else Bystander(v.agents[pid])
    ensures CrowdOk(start, v, crowd)
  {
    forall i | i in v.agents
      ensures if i in crowd then MemberOk(v, i, crowd[i]) else Bystander(v.agents[i])
    {
      if i != pid && i in crowd {
        assert MemberOk(w, i, crowd[i]);
      }
    }
    forall id | id in v.s.db.orders && id !in start.orders
      ensures Bought(v, crowd, id)
    {
      var buyer :| buyer in crowd && buyer in w.agents && crowd[buyer].id == id
                   && (Won(w.agents[buyer]) || Unsure(w.agents[buyer]));
      assert buyer in v.agents && (Won(v.agents[buyer]) || Unsure(v.agents[buyer]));
    }
  }

  lemma SpawnKeepsCrowd(start: Db, w: World, crowd: map<nat, Request>, pid: nat, agent: Agent)
    requires CrowdOk(start, w, crowd) && Admitted(w, Spawn(pid, agent), crowd)
    ensures CrowdOk(start, Step(w, Spawn(pid, agent)), crowd)
  {
    var v := Step(w, Spawn(pid, agent));
    if v != w {
      forall i | i in v.agents
        ensures if i in crowd then MemberOk(v, i, crowd[i]) else Bystander(v.agents[i])
      {
        if i != pid && i in crowd {
          assert MemberOk(w, i, crowd[i]);
        }
      }
      forall id | id in v.s.db.orders && id !in start.orders
        ensures Bought(v, crowd, id)
      {
        var buyer :| buyer in crowd && buyer in w.agents && crowd[buyer].id == id
                     && (Won(w.agents[buyer]) || Unsure(w.agents[buyer]));
        assert v.agents[buyer] == w.agents[buyer];
      }
    }
  }

  lemma SharedChangeKeepsCrowd(start: Db, w: World, v: World, crowd: map<nat, Request>)
    requires CrowdOk(start, w, crowd) && v.agents == w.agents
    requires v.s.db.orders == w.s.db.orders && v.s.db.stock == w.s.db.stock
    ensures CrowdOk(start, v, crowd)
  {
    forall i | i in v.agents && i in crowd
      ensures MemberOk(v, i, crowd[i])
    {
      assert MemberOk(w, i, crowd[i]);
    }
    forall id | id in v.s.db.orders && id !in start.orders
      ensures Bought(v, crowd, id)
    {
      assert Bought(w, crowd, id);
    }
  }

  lemma StepKeepsCrowd(start: Db, w: World, crowd: map<nat, Request>, a: Action)
    requires Good(w) && CrowdOk(start, w, crowd) && Admitted(w, a, crowd)
    requires IsCrowd(crowd, World(w.s.(db := start), w.agents))
    ensures CrowdOk(start, Step(w, a), crowd)
  {
    var v := Step(w, a);
    match a {
      case Turn(pid, c) =>
        if pid in w.agents {
          TurnKeepsCrowd(start, w, crowd, pid, c);
        }
      case Crash(pid) =>
        if pid in w.agents {
          OrdersUntouched(start, w, v, crowd, pid);
        }
      case Spawn(pid, agent) => SpawnKeepsCrowd(start, w, crowd, pid, agent);
      case ExpireCache => SharedChangeKeepsCrowd(start, w, v, crowd);
      case RecoverOutbox => SharedChangeKeepsCrowd(start, w, v, crowd);
    }
  }

  lemma {:induction false} RunKeepsCrowd(start: Db, w: World, crowd: map<nat, Request>, acts: seq<Action>)
    requires Good(w) && CrowdOk(start, w, crowd) && OnlyTheCrowdBuys(w, acts, crowd)
    requires IsCrowd(crowd, World(w.s.(db := start), w.agents))
    ensures CrowdOk(start, Run(w, acts), crowd)
    decreases acts
  {
    if acts == [] {
    } else {
      StepKeepsCrowd(start, w, crowd, acts[0]);
      StepIsGood(w, acts[0]);
      RunKeepsCrowd(start, Step(w, acts[0]), crowd, acts[1..]);
    }
  }

  // ---------------------------------------------------------------- counting

  function Winners(w: World, crowd: map<nat, Request>): set<nat> {
    set pid | pid in crowd && pid in w.agents && Won(w.agents[pid])
  }

  ghost predicate WonBy(crowd: map<nat, Request>, winners: set<nat>, id: string) {
    exists pid :: pid in winners && pid in crowd && crowd[pid].id == id
  }

  /** One winner per order: an injective image has the same size. */
  lemma {:induction false} OneOrderPerWinner(crowd: map<nat, Request>, winners: set<nat>, ids: set<string>)
    requires winners <= crowd.Keys && DistinctIds(crowd)
    requires forall pid :: pid in winners ==> crowd[pid].id in ids
    requires forall id :: id in ids ==> WonBy(crowd, winners, id)
    ensures |winners| == |ids|
    decreases |winners|
  {
    if pid :| pid in winners {
      var id := crowd[pid].id;
      forall other | other in ids - {id}
        ensures WonBy(crowd, winners - {pid}, other)
      {
        assert WonBy(crowd, winners, other);
        var p :| p in winners && p in crowd && crowd[p].id == other;
        assert p in winners - {pid};
      }
      OneOrderPerWinner(crowd, winners - {pid}, ids - {id});
    } else {
      assert winners == {};
      assert forall id :: !WonBy(crowd, winners, id);
      assert ids == {};
    }
  }

  /** Everybody in the crowd was served, and nobody heard an error. */
  predicate AllAnswered(w: World, crowd: map<nat, Request>) {
    forall pid :: pid in crowd ==>
      pid in w.agents && w.agents[pid].Buyer? && w.agents[pid].buy.Answered? && w.agents[pid].buy.outcome != Failed
  }

  lemma WinnerOrdered(start: Db, w: World, crowd: map<nat, Request>, pid: nat)
    requires CrowdOk(start, w, crowd) && pid in Winners(w, crowd)
    ensures crowd[pid].id in w.s.db.orders
  {
    assert MemberOk(w, pid, crowd[pid]);
  }

  lemma OrderHasWinner(start: Db, w: World, crowd: map<nat, Request>, id: string)
    requires CrowdOk(start, w, crowd) && AllAnswered(w, crowd)
    requires id in w.s.db.orders && id !in start.orders
    ensures WonBy(crowd, Winners(w, crowd), id)
  {
    assert Bought(w, crowd, id);
    var pid :| pid in crowd && pid in w.agents && crowd[pid].id == id && (Won(w.agents[pid]) || Unsure(w.agents[pid]));
    assert pid in Winners(w, crowd);
  }

  lemma SizeOfGrowth<T>(before: set<T>, after: set<T>)
    requires before <= after
    ensures |after - before| == |after| - |before|
  {
    assert after == before + (after - before);
  }

  /** Then the winners are as many as the new orders. */
  lemma WinnersAreOrders(start: Db, w: World, crowd: map<nat, Request>)
    requires CrowdOk(start, w, crowd) && AllAnswered(w, crowd) && DistinctIds(crowd)
    requires forall pid :: pid in crowd ==> crowd[pid].id !in start.orders
    ensures |Winners(w, crowd)| == start.stock - w.s.db.stock
  {
    var added := w.s.db.orders.Keys - start.orders.Keys;
    forall pid | pid in Winners(w, crowd)
      ensures crowd[pid].id in added
    {
      WinnerOrdered(start, w, crowd, pid);
    }
    forall id | id in added
      ensures WonBy(crowd, Winners(w, crowd), id)
    {
      OrderHasWinner(start, w, crowd, id);
    }
    OneOrderPerWinner(crowd, Winners(w, crowd), added);
    SizeOfGrowth(start.orders.Keys, w.s.db.orders.Keys);
  }

  /** Whoever did not win heard that the stock is gone. */
  lemma LosersSawNoStock(start: Db, w: World, crowd: map<nat, Request>)
    requires CrowdOk(start, w, crowd) && AllAnswered(w, crowd)
    ensures w.s.db.stock <= 0 || Winners(w, crowd) == crowd.Keys
    ensures |Winners(w, crowd)| <= |crowd|
  {
    SizeOfGrowth(Winners(w, crowd), crowd.Keys);
    assert |crowd| == |crowd.Keys|;
    if pid :| pid in crowd && pid !in Winners(w, crowd) {
      assert MemberOk(w, pid, crowd[pid]);
    } else {
      assert Winners(w, crowd) == crowd.Keys;
    }
  }

  /** From any reachable moment at which nobody else is about to buy or reset: N distinct unit
      purchases, all answered without an error, succeed exactly min(N, stock) times, whatever the
      interleaving of their statements with each other, with publishers, consumers, cache fills,
      recoveries, crashes and the late cache work of earlier buyers.  Nobody hears "duplicate". */
  lemma ExactlyMinSucceed(w: World, crowd: map<nat, Request>, acts: seq<Action>)
    requires Good(w) && IsCrowd(crowd, w) && OnlyTheCrowdBuys(w, acts, crowd)
    requires forall pid :: pid in w.agents ==> pid !in crowd && Bystander(w.agents[pid])
    requires AllAnswered(Run(w, acts), crowd)
    ensures
      |Winners(Run(w, acts), crowd)| == if |crowd| < w.s.db.stock then |crowd| else w.s.db.stock
    ensures
      forall pid :: pid in crowd ==> Won(Run(w, acts).agents[pid]) || Lost(Run(w, acts).agents[pid])
  {
    var v := Run(w, acts);
    RunIsGood(w, acts);
    RunKeepsCrowd(w.s.db, w, crowd, acts);
    forall pid | pid in crowd
      ensures Won(v.agents[pid]) || Lost(v.agents[pid])
    {
      assert MemberOk(v, pid, crowd[pid]);
    }
    WinnersAreOrders(w.s.db, v, crowd);
    LosersSawNoStock(w.s.db, v, crowd);
    assert |crowd| == |crowd.Keys|;
  }
}
