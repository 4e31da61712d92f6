/** Purchases over every run: conservation and idempotence, the outbox life cycle, the invalidation
    debt of the cached DTO, and how many of N competing unit purchases succeed. */
module PurchaseTheorems {
  import opened Common
  import opened PurchaseModel
  import opened PurchaseSafety

  // ---------------------------------------------------------------- reachable worlds

  /** No two publishers hold a claim on the same event. */
  predicate ClaimsDiffer(w: World) {
    forall i, j :: i in w.agents && j in w.agents && i != j && HoldsClaim(w.agents[i]) && HoldsClaim(w.agents[j]) ==>
      w.agents[i].work.event != w.agents[j].work.event
  }

  ghost predicate Good(w: World) {
    && SharedOk(w.s)
    && (forall pid :: pid in w.agents ==> AgentOk(w.s, pid, w.agents[pid]))
    && (forall k :: 0 <= k < |w.s.writers| ==>
          match w.s.writers[k] {
            case Sync(pid) => pid in w.agents
            case ByReset(pid) => pid in w.agents
            case _ => true
          })
    && ClaimsDiffer(w)
  }

  lemma FreshIsGood()
    ensures Good(Fresh())
  {
  }

  /** Everybody else's knowledge survives a step of `pid`. */
  lemma OthersSurvive(s: Shared, t: Shared, pid: nat, a: Agent, j: nat, b: Agent)
    requires SharedOk(s) && SharedOk(t) && AgentOk(s, j, b) && j != pid
    requires Evolves(s, t, pid) && ClaimsKept(s, t, a)
    requires HoldsClaim(a) && HoldsClaim(b) ==> a.work.event != b.work.event
    ensures AgentOk(t, j, b)
  {
    if b.Buyer? && b.buy.Answered? && b.buy.invalidated {
      forall k | 0 <= k < |t.writers| && t.writers[k] == Sync(j)
        ensures k <= t.barrier
      {
        assert k < |s.writers| && s.writers[k] == t.writers[k];
      }
    } else if b.Resetter? {
      forall k | 0 <= k < |t.writers| && t.writers[k] == ByReset(j)
        ensures k < |s.writers| && s.writers[k] == t.writers[k]
      {
      }
    }
  }

  lemma TurnIsGood(w: World, pid: nat, c: Choice)
    requires Good(w) && pid in w.agents
    ensures Good(Step(w, Turn(pid, c)))
  {
    var a := w.agents[pid];
    var (t, b) := AgentStep(w.s, pid, a, c);
    var v := Step(w, Turn(pid, c));
    AgentKeeps(w.s, pid, a, c);
    forall j | j in v.agents
      ensures AgentOk(t, j, v.agents[j])
    {
      if j != pid {
        OthersSurvive(w.s, t, pid, a, j, w.agents[j]);
      }
    }
    NewClaimIsFree(w, pid, c);
  }

  lemma NewClaimIsFree(w: World, pid: nat, c: Choice)
    requires Good(w) && pid in w.agents
    ensures ClaimsDiffer(Step(w, Turn(pid, c)))
  {
    var a := w.agents[pid];
    var b := AgentStep(w.s, pid, a, c).1;
    if HoldsClaim(b) {
      assert a.Worker?;
      forall j | j in w.agents && j != pid && HoldsClaim(w.agents[j])
        ensures w.agents[j].work.event != b.work.event
      {
        assert AgentOk(w.s, j, w.agents[j]);
      }
    }
  }

  lemma CrashIsGood(w: World, pid: nat)
    requires Good(w)
    ensures Good(Step(w, Crash(pid)))
  {
    var v := Step(w, Crash(pid));
    if pid in w.agents {
      if w.s.lock == Some(pid) {
        LockKeeps(w.s, None, pid);
      }
      forall j | j in v.agents
        ensures AgentOk(v.s, j, v.agents[j])
      {
        if j != pid {
          OthersSurvive(w.s, v.s, pid, Crashed, j, w.agents[j]);
        }
      }
    }
  }

  lemma RecoveredIsOk(s: Shared)
    requires SharedOk(s)
    ensures SharedOk(s.(db := s.db.(outbox := Recovered(s.db.outbox))))
  {
    var t := s.(db := s.db.(outbox := Recovered(s.db.outbox)));
    assert t.db.outbox.Keys == s.db.outbox.Keys;
    forall e | e in t.db.outbox
      ensures EventOk(t, e)
    {
      assert EventOk(s, e);
    }
  }

  lemma RecoverIsGood(w: World)
    requires Good(w)
    ensures Good(Step(w, RecoverOutbox))
  {
    var v := Step(w, RecoverOutbox);
    if v != w {
      RecoveredIsOk(w.s);
      forall j | j in v.agents
        ensures AgentOk(v.s, j, v.agents[j])
      {
        assert AgentOk(w.s, j, w.agents[j]) && !HoldsClaim(w.agents[j]);
      }
    }
  }

  lemma ExpireIsGood(w: World)
    requires Good(w)
    ensures Good(Step(w, ExpireCache))
  {
    var v := Step(w, ExpireCache);
    forall e | e in v.s.db.outbox
      ensures EventOk(v.s, e)
    {
      assert EventOk(w.s, e);
    }
    forall j | j in v.agents
      ensures AgentOk(v.s, j, v.agents[j])
    {
      assert AgentOk(w.s, j, w.agents[j]);
    }
  }

  lemma SpawnIsGood(w: World, pid: nat, agent: Agent)
    requires Good(w)
    ensures Good(Step(w, Spawn(pid, agent)))
  {
  }

  lemma StepIsGood(w: World, a: Action)
    requires Good(w)
    ensures Good(Step(w, a))
  {
    match a {
      case Spawn(pid, agent) => SpawnIsGood(w, pid, agent);
      case Turn(pid, c) =>
        if pid in w.agents {
          TurnIsGood(w, pid, c);
        }
      case Crash(pid) => CrashIsGood(w, pid);
      case ExpireCache => ExpireIsGood(w);
      case RecoverOutbox => RecoverIsGood(w);
    }
  }

  lemma {:induction false} RunIsGood(w: World, acts: seq<Action>)
    requires Good(w)
    ensures Good(Run(w, acts))
    decreases acts
  {
    if acts == [] {
    } else {
      StepIsGood(w, acts[0]);
      RunIsGood(Step(w, acts[0]), acts[1..]);
    }
  }

  // ---------------------------------------------------------------- conservation and idempotence

  /** Whatever interleaves, crashes or rolls back: stock is never negative, stock plus everything
      ordered is the baseline, every asynchronous order has its one outbox row, and every open
      outbox row its asynchronous order. */
  lemma PurchasesConserve(w: World, acts: seq<Action>)
    requires Good(w)
    ensures
      var db := Run(w, acts).s.db;
      && 0 <= db.stock && db.stock + Sum(db.orders) == 100
      && OutboxMatches(db)
  {
    RunIsGood(w, acts);
  }

  predicate IsReset(w: World, a: Action) {
    a.Turn? && a.pid in w.agents && w.agents[a.pid] == Resetter(ResetRows)
  }

  /** No step of the run is a reset transaction. */
  predicate Unreset(w: World, acts: seq<Action>)
    decreases acts
  {
    acts == [] || (!IsReset(w, acts[0]) && Unreset(Step(w, acts[0]), acts[1..]))
  }

  /** Nothing was ordered, or one order came in under a new request id and took its quantity. */
  ghost predicate TookOnce(before: Db, after: Db) {
    || (after.orders == before.orders && after.stock == before.stock)
    || (exists id, o :: id !in before.orders && after.orders == before.orders[id := o]
                        && after.stock == before.stock - o.quantity)
  }

  lemma BuyerTakesOnce(s: Shared, pid: nat, r: Request, at: BuyPc, c: Choice)
    requires BuyerOk(s, pid, r, at)
    ensures TookOnce(s.db, BuyStep(s, pid, r, at, c).0.db)
  {
    var db := BuyStep(s, pid, r, at, c).0.db;
    if at.Commit? && c.fault != LostBefore {
      assert r.id !in s.db.orders && db.orders == s.db.orders[r.id := Order(r.batch, r.quantity, r.strategy)];
    } else {
      assert db == s.db;
    }
  }

  lemma StepTakesOnce(w: World, a: Action)
    requires Good(w) && !IsReset(w, a)
    ensures TookOnce(w.s.db, Step(w, a).s.db)
  {
    if a.Turn? && a.pid in w.agents {
      var agent := w.agents[a.pid];
      assert AgentOk(w.s, a.pid, agent);
      if agent.Buyer? {
        BuyerTakesOnce(w.s, a.pid, agent.request, agent.buy, a.choice);
      } else if agent.Resetter? {
        assert ResetStep(w.s, a.pid, agent.reset, a.choice).0.db == w.s.db;
      }
    }
  }

  /** Between resets an order, once committed, never changes and is never paid for again: the stock
      taken since is exactly the quantities of the orders added since. */
  lemma {:induction false} OrdersAreFinal(w: World, acts: seq<Action>)
    requires Good(w) && Unreset(w, acts)
    ensures
      var v := Run(w, acts);
      && (forall id :: id in w.s.db.orders ==> id in v.s.db.orders && v.s.db.orders[id] == w.s.db.orders[id])
      && w.s.db.stock - v.s.db.stock == Sum(v.s.db.orders) - Sum(w.s.db.orders) >= 0
    decreases acts
  {
    if acts == [] {
    } else {
      StepTakesOnce(w, acts[0]);
      StepIsGood(w, acts[0]);
      OrdersAreFinal(Step(w, acts[0]), acts[1..]);
    }
  }

  // ---------------------------------------------------------------- outbox life cycle

  /** Completed and cancelled events stay as they are, and no event ever disappears. */
  lemma StepKeepsFinal(w: World, a: Action, e: string)
    requires Good(w) && e in w.s.db.outbox
    ensures e in Step(w, a).s.db.outbox
    ensures Final(w.s.db.outbox[e].status) ==> Step(w, a).s.db.outbox[e].status == w.s.db.outbox[e].status
    ensures Step(w, a).s.db.outbox[e].version == w.s.db.outbox[e].version
  {
    if a.Turn? && a.pid in w.agents {
      AgentKeeps(w.s, a.pid, w.agents[a.pid], a.choice);
    }
  }

  lemma {:induction false} FinalIsAbsorbing(w: World, acts: seq<Action>, e: string)
    requires Good(w) && e in w.s.db.outbox && Final(w.s.db.outbox[e].status)
    ensures e in Run(w, acts).s.db.outbox
    ensures Run(w, acts).s.db.outbox[e].status == w.s.db.outbox[e].status
    decreases acts
  {
    if acts == [] {
    } else {
      StepKeepsFinal(w, acts[0], e);
      StepIsGood(w, acts[0]);
      FinalIsAbsorbing(Step(w, acts[0]), acts[1..], e);
    }
  }

  /** A completed event's DTO was deleted after its purchase had committed, and at any time at most
      one publisher holds a given event, which is then not up for claiming. */
  lemma OutboxLifeCycle(w: World, acts: seq<Action>, e: string, i: nat, j: nat)
    requires Good(w)
    ensures
      var v := Run(w, acts);
      && (e in v.s.db.outbox && v.s.db.outbox[e].status == Completed ==>
            && 0 <= v.s.db.outbox[e].version < |v.s.writers| && v.s.writers[v.s.db.outbox[e].version] == Async(e)
            && v.s.db.outbox[e].version <= v.s.deleted)
      && (i in v.agents && Claims(v.agents[i], e) ==>
            && e in v.s.db.outbox && !Claimable(v.s.db.outbox[e].status)
            && (j in v.agents && Claims(v.agents[j], e) ==> i == j))
  {
    RunIsGood(w, acts);
    var v := Run(w, acts);
    if e in v.s.db.outbox {
      assert EventOk(v.s, e);
    }
    if i in v.agents {
      assert AgentOk(v.s, i, v.agents[i]);
    }
  }

  /** When the publisher starts, every unfinished event becomes publishable again, and only those; one
      whose sending or deletion nobody confirmed is noted as one more retry, the rest stand. */
  lemma RecoveryRequeues(w: World, acts: seq<Action>, e: string)
    requires Good(w)
    requires
      var v := Run(w, acts);
      e in v.s.db.outbox && !exists pid :: pid in v.agents && HoldsClaim(v.agents[pid])
    ensures
      var v := Run(w, acts);
      var before, after := v.s.db.outbox[e], Step(v, RecoverOutbox).s.db.outbox;
      && e in after && (Claimable(after[e].status) <==> !Final(before.status))
      && (after[e] != before <==> before.status == Publishing || before.status == Published)
      && (after[e] != before ==> after[e] == before.(status := Retry, retries := before.retries + 1))
  {
    var v := Run(w, acts);
    assert Step(v, RecoverOutbox).s.db.outbox == Recovered(v.s.db.outbox);
  }

  // ---------------------------------------------------------------- invalidation debt

  /** The writer of stock version `k` still owes the deletion of what was cached before. */
  predicate Outstanding(w: World, k: nat) {
    k < |w.s.writers| &&
    match w.s.writers[k]
    case Nobody => false
    case Async(request) => !HasStatus(w.s, request, Completed)
    case Sync(pid) =>
      pid in w.agents && !(w.agents[pid].Buyer? && w.agents[pid].buy.Answered? && w.agents[pid].buy.invalidated)
    case ByReset(pid) => pid in w.agents && w.agents[pid] != Resetter(ResetDone(true))
  }

  lemma SettledIsBehindBarrier(w: World, k: nat)
    requires Good(w) && 0 < k < |w.s.writers| && !Outstanding(w, k)
    ensures k <= w.s.barrier || w.s.writers[k] == Nobody
  {
    match w.s.writers[k] {
      case Nobody =>
      case Async(request) => assert EventOk(w.s, request);
      case Sync(pid) => assert AgentOk(w.s, pid, w.agents[pid]);
      case ByReset(pid) => assert AgentOk(w.s, pid, w.agents[pid]);
    }
  }

  predicate Authored(w: World) {
    forall k :: 0 < k < |w.s.writers| ==> w.s.writers[k] != Nobody
  }

  lemma {:induction false} RunIsAuthored(w: World, acts: seq<Action>)
    requires Good(w) && Authored(w)
    ensures Authored(Run(w, acts))
    decreases acts
  {
    if acts == [] {
    } else {
      var a := acts[0];
      if a.Turn? && a.pid in w.agents {
        AgentKeeps(w.s, a.pid, w.agents[a.pid], a.choice);
      }
      StepIsGood(w, a);
      RunIsAuthored(Step(w, a), acts[1..]);
    }
  }

  /** Whenever the cached DTO is older than MySQL and was not set by a fill that straddled a commit,
      every commit it misses is still owed its deletion: an outbox event not yet completed, a
      synchronous buyer not past its DEL (or failed), or a reset not past its prewarm (or failed). */
  lemma StaleCacheIsOwed(w: World, acts: seq<Action>, k: nat)
    requires Good(w) && Authored(w)
    requires
      var s := Run(w, acts).s;
      && s.cache.Some? && !s.cache.value.straddled
      && s.cache.value.version < k <= Version(s)
    ensures Outstanding(Run(w, acts), k)
  {
    RunIsGood(w, acts);
    RunIsAuthored(w, acts);
    if !Outstanding(Run(w, acts), k) {
      SettledIsBehindBarrier(Run(w, acts), k);
    }
  }

  /** With every debt of the latest commit paid, the cache is absent, straddled, or shows exactly
      the stock in MySQL. */
  lemma PaidCacheIsCurrent(w: World, acts: seq<Action>)
    requires Good(w) && Authored(w)
    requires Version(Run(w, acts).s) >= 0 && !Outstanding(Run(w, acts), Version(Run(w, acts).s))
    ensures
      var s := Run(w, acts).s;
      s.cache.None? || s.cache.value.straddled
      || (s.cache.value.version < |s.stocks| && s.stocks[s.cache.value.version] == s.db.stock)
  {
    RunIsGood(w, acts);
    var s := Run(w, acts).s;
    if s.cache.Some? && !s.cache.value.straddled && s.cache.value.version < Version(s) {
      StaleCacheIsOwed(w, acts, Version(s));
    }
  }
}
