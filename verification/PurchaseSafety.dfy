/** What every statement of every purchase agent keeps, and what follows for whole runs:
    conservation, idempotence, one outbox row per asynchronous order, and the outbox life cycle. */
module PurchaseSafety {
  import opened Common
  import opened PurchaseModel

  // ---------------------------------------------------------------- invariants

  ghost function Sum(orders: map<string, Order>): int {
    if orders == map[] then 0
    else
      var id :| id in orders;
      orders[id].quantity + Sum(orders - {id})
  }

  /** Money in the books: stock plus everything sold is the baseline. */
  ghost predicate Conserved(db: Db) {
    && db.stock >= 0
    && (forall id :: id in db.orders ==> db.orders[id].quantity > 0)
    && db.stock + Sum(db.orders) == BASELINE
  }

  /** Every asynchronous order has its outbox row, and every open outbox row its order. */
  predicate OutboxMatches(db: Db) {
    && (forall id :: id in db.orders && db.orders[id].strategy == OutboxInvalidate ==> id in db.outbox)
    && (forall id :: id in db.outbox && !Final(db.outbox[id].status) ==>
          id in db.orders && db.orders[id].strategy == OutboxInvalidate)
  }

  /** The history describes the present, and a completed event's version has been deleted. */
  predicate HistoryOk(s: Shared) {
    && |s.stocks| == |s.writers| > 0
    && s.stocks[Version(s)] == s.db.stock
    && s.deleted <= s.barrier <= Version(s)
    && (s.cache.Some? ==> s.cache.value.version <= Version(s) && (!s.cache.value.straddled ==> s.barrier <= s.cache.value.version))
    && (forall e :: e in s.db.outbox ==> EventOk(s, e))
    && (forall k :: 0 <= k < |s.writers| && s.writers[k].Async? ==>
          s.writers[k].request in s.db.outbox && s.db.outbox[s.writers[k].request].version == k)
  }

  predicate EventOk(s: Shared, e: string)
    requires e in s.db.outbox && |s.stocks| == |s.writers|
  {
    var event := s.db.outbox[e];
    && event.version < |s.writers|
    && s.writers[event.version] == Async(e)
    && (event.status == Completed ==> event.version <= s.deleted)
    && (event.status == EventStatus.Cancelled ==> event.version < Version(s))
  }

  ghost predicate SharedOk(s: Shared) {
    Conserved(s.db) && OutboxMatches(s.db) && HistoryOk(s)
  }

  /** Points of a buyer's transaction at which it owns the row lock. */
  predicate InTransaction(a: Agent) {
    a.Buyer? && (a.buy == InsertOrder || a.buy == InsertOutbox || a.buy == Commit)
  }

  predicate BuyerOk(s: Shared, pid: nat, r: Request, at: BuyPc) {
    && (at != Validate && at != Answered(Failed, false) ==> r.quantity > 0)
    && (at == InsertOrder || at == InsertOutbox || at == Commit ==> s.lock == Some(pid) && s.db.stock >= r.quantity)
    && (at == InsertOutbox || at == Commit ==> r.id !in s.db.orders)
    && (at == InsertOutbox ==> r.strategy == OutboxInvalidate)
    && (at == Commit && r.strategy == OutboxInvalidate ==> r.id !in s.db.outbox)
    && (at.Deleting? ==> at.outcome == Committed || at.outcome == Duplicate)
    && (at.Answered? && at.invalidated ==>
          forall k :: 0 <= k < |s.writers| && s.writers[k] == Sync(pid) ==> k <= s.barrier)
  }

  predicate ResetterOk(s: Shared, pid: nat, at: ResetPc) {
    && (at.PrewarmSet? ==>
          at.version <= Version(s) && forall k :: 0 <= k < |s.writers| && s.writers[k] == ByReset(pid) ==> k <= at.version)
    && (at == ResetDone(true) ==>
          forall k :: 0 <= k < |s.writers| && s.writers[k] == ByReset(pid) ==> k <= s.barrier)
  }

  predicate ConsumerOk(s: Shared, at: ConsumePc) {
    && (at.DeleteCache? ==> at.event in s.db.outbox)
    && (at.MarkInvalidated? ==> at.event in s.db.outbox && s.db.outbox[at.event].version <= s.deleted)
  }

  predicate WorkerOk(s: Shared, at: WorkPc) {
    at != Idle ==>
      at.event in s.db.outbox && Engaged(s.db.outbox[at.event].status)
  }

  predicate AgentOk(s: Shared, pid: nat, a: Agent) {
    match a
    case Buyer(r, at) => BuyerOk(s, pid, r, at)
    case Worker(at) => WorkerOk(s, at)
    case Consumer(at) => ConsumerOk(s, at)
    case Resetter(at) => ResetterOk(s, pid, at)
    case Filler(at) => at.FillSet? ==> at.version <= Version(s)
    case Crashed => true
  }

  predicate Engaged(s: EventStatus) {
    s == Publishing || Final(s)
  }

  /** A step of agent `a` never puts an event up for claiming that somebody else has claimed. */
  predicate ClaimsKept(s: Shared, t: Shared, a: Agent) {
    forall e :: e in s.db.outbox && e in t.db.outbox && Engaged(s.db.outbox[e].status) && !Claims(a, e) ==>
      Engaged(t.db.outbox[e].status)
  }

  /** What one step of `pid` may do to everybody else. */
  predicate Evolves(s: Shared, t: Shared, pid: nat) {
    && (s.lock.Some? && s.lock.value != pid ==>
          && t.lock == s.lock && t.db.stock == s.db.stock && t.db.orders == s.db.orders
          && t.db.outbox.Keys == s.db.outbox.Keys)
    && s.stocks <= t.stocks && s.writers <= t.writers && s.deleted <= t.deleted && s.barrier <= t.barrier
    && (forall k :: |s.writers| <= k < |t.writers| ==>
          t.writers[k] == Sync(pid) || t.writers[k] == ByReset(pid) || t.writers[k].Async?)
    && (forall e :: e in s.db.outbox ==> e in t.db.outbox && t.db.outbox[e].version == s.db.outbox[e].version)
    && (forall e :: e in s.db.outbox && Final(s.db.outbox[e].status) ==> t.db.outbox[e].status == s.db.outbox[e].status)
  }

  ghost predicate StepOk(s: Shared, pid: nat, a: Agent, t: Shared, b: Agent) {
    SharedOk(t) && Evolves(s, t, pid) && ClaimsKept(s, t, a) && AgentOk(t, pid, b)
  }

  // ---------------------------------------------------------------- one step

  lemma {:induction false} SumSplit(orders: map<string, Order>, id: string)
    requires id in orders
    ensures Sum(orders) == orders[id].quantity + Sum(orders - {id})
    decreases |orders|
  {
    var first :| first in orders && Sum(orders) == orders[first].quantity + Sum(orders - {first});
    if first != id {
      SumSplit(orders - {first}, id);
      SumSplit(orders - {id}, first);
      assert orders - {first} - {id} == orders - {id} - {first};
    }
  }

  lemma SumAdds(orders: map<string, Order>, id: string, o: Order)
    requires id !in orders
    ensures Sum(orders[id := o]) == Sum(orders) + o.quantity
  {
    SumSplit(orders[id := o], id);
    assert orders[id := o] - {id} == orders;
  }

  lemma CommitKeeps(s: Shared, pid: nat, r: Request)
    requires SharedOk(s) && BuyerOk(s, pid, r, Commit)
    ensures SharedOk(CommitPurchase(s, pid, r)) && Evolves(s, CommitPurchase(s, pid, r), pid)
  {
    SumAdds(s.db.orders, r.id, Order(r.batch, r.quantity, r.strategy));
    var t := CommitPurchase(s, pid, r);
    forall e | e in t.db.outbox
      ensures EventOk(t, e)
    {
      if e != r.id || r.strategy == SyncInvalidate {
        assert EventOk(s, e);
      }
    }
  }

  lemma CacheDeleted(s: Shared, pid: nat)
    requires SharedOk(s)
    ensures SharedOk(DelCache(s)) && Evolves(s, DelCache(s), pid) && DelCache(s).deleted == DelCache(s).barrier == Version(s)
  {
    forall e | e in s.db.outbox
      ensures EventOk(DelCache(s), e)
    {
      assert EventOk(s, e);
    }
  }

  lemma CacheSet(s: Shared, version: nat, pid: nat)
    requires SharedOk(s) && version <= Version(s)
    ensures SharedOk(SetCache(s, version)) && Evolves(s, SetCache(s, version), pid) && version <= SetCache(s, version).barrier
  {
    forall e | e in s.db.outbox
      ensures EventOk(SetCache(s, version), e)
    {
      assert EventOk(s, e);
    }
  }

  /** Taking and dropping the row lock changes nothing that was committed. */
  lemma LockKeeps(s: Shared, lock: Option<nat>, pid: nat)
    requires SharedOk(s) && (s.lock.Some? ==> s.lock.value == pid)
    ensures SharedOk(s.(lock := lock)) && Evolves(s, s.(lock := lock), pid)
  {
    var t := s.(lock := lock);
    forall e | e in t.db.outbox
      ensures EventOk(t, e)
    {
      assert EventOk(s, e);
    }
  }

  /** A step that only moves its own agent. */
  lemma QuietKeeps(s: Shared, pid: nat, a: Agent, b: Agent)
    requires SharedOk(s) && AgentOk(s, pid, b)
    ensures StepOk(s, pid, a, s, b)
  {
  }

  lemma CommitStepKeeps(s: Shared, pid: nat, r: Request, c: Choice)
    requires SharedOk(s) && BuyerOk(s, pid, r, Commit)
    ensures
      var (t, b) := BuyStep(s, pid, r, Commit, c);
      StepOk(s, pid, Buyer(r, Commit), t, b)
  {
    if c.fault == LostBefore {
      LockKeeps(s, None, pid);
    } else {
      CommitKeeps(s, pid, r);
    }
  }

  lemma DeleteStepKeeps(s: Shared, pid: nat, r: Request, outcome: Outcome, attempt: nat, c: Choice)
    requires SharedOk(s) && BuyerOk(s, pid, r, Deleting(outcome, attempt))
    ensures
      var (t, b) := BuyStep(s, pid, r, Deleting(outcome, attempt), c);
      StepOk(s, pid, Buyer(r, Deleting(outcome, attempt)), t, b)
  {
    if c.fault == LostBefore {
      QuietKeeps(s, pid, Buyer(r, Deleting(outcome, attempt)), BuyStep(s, pid, r, Deleting(outcome, attempt), c).1);
    } else {
      CacheDeleted(s, pid);
    }
  }

  lemma LockStepKeeps(s: Shared, pid: nat, r: Request, at: BuyPc, c: Choice)
    requires SharedOk(s) && BuyerOk(s, pid, r, at)
    requires at.TakeStock? || at.InsertOrder? || at.InsertOutbox?
    ensures
      var (t, b) := BuyStep(s, pid, r, at, c);
      StepOk(s, pid, Buyer(r, at), t, b)
  {
    var (t, b) := BuyStep(s, pid, r, at, c);
    if t == s {
      QuietKeeps(s, pid, Buyer(r, at), b);
    } else {
      LockKeeps(s, t.lock, pid);
      assert t == s.(lock := t.lock);
    }
  }

  lemma BuyKeeps(s: Shared, pid: nat, r: Request, at: BuyPc, c: Choice)
    requires SharedOk(s) && BuyerOk(s, pid, r, at)
    ensures
      var (t, b) := BuyStep(s, pid, r, at, c);
      StepOk(s, pid, Buyer(r, at), t, b)
  {
    if at.Commit? {
      CommitStepKeeps(s, pid, r, c);
    } else if at.Deleting? {
      DeleteStepKeeps(s, pid, r, at.outcome, at.attempt, c);
    } else if at.TakeStock? || at.InsertOrder? || at.InsertOutbox? {
      LockStepKeeps(s, pid, r, at, c);
    } else {
      assert BuyStep(s, pid, r, at, c).0 == s;
      QuietKeeps(s, pid, Buyer(r, at), BuyStep(s, pid, r, at, c).1);
    }
  }

  /** Changing the status of one open event, short of cancelling it. */
  lemma StatusKeeps(s: Shared, event: string, status: EventStatus, failures: nat, pid: nat)
    requires SharedOk(s) && IsOpen(s, event) && status != EventStatus.Cancelled
    requires status == Completed ==> s.db.outbox[event].version <= s.deleted
    ensures
      var t := SetStatus(s, event, status, failures);
      SharedOk(t) && Evolves(s, t, pid)
  {
    var t := SetStatus(s, event, status, failures);
    forall e | e in t.db.outbox
      ensures EventOk(t, e)
    {
      assert EventOk(s, e);
    }
  }

  lemma ClaimKeeps(s: Shared, pid: nat, c: Choice)
    requires SharedOk(s)
    ensures
      var (t, b) := WorkStep(s, Idle, c);
      StepOk(s, pid, Worker(Idle), t, b)
  {
    if c.event in s.db.outbox && Claimable(s.db.outbox[c.event].status) {
      StatusKeeps(s, c.event, Publishing, 0, pid);
    }
  }

  lemma WorkKeeps(s: Shared, pid: nat, at: WorkPc, c: Choice)
    requires SharedOk(s) && WorkerOk(s, at) && at != Idle
    ensures
      var (t, b) := WorkStep(s, at, c);
      StepOk(s, pid, Worker(at), t, b)
  {
    var (t, b) := WorkStep(s, at, c);
    if at.Sending? {
      assert t.db == s.db && t == s.(sent := t.sent);
      assert HistoryOk(t) by {
        assert forall e :: e in t.db.outbox ==> EventOk(s, e) && EventOk(t, e);
      }
    } else if t == s {
      QuietKeeps(s, pid, Worker(at), b);
    } else if at.MarkPublished? {
      StatusKeeps(s, at.event, Published, 0, pid);
    } else {
      StatusKeeps(s, at.event, Retry, 1, pid);
    }
  }

  lemma ConsumeKeeps(s: Shared, pid: nat, at: ConsumePc, c: Choice)
    requires SharedOk(s) && ConsumerOk(s, at)
    ensures
      var (t, b) := ConsumeStep(s, at, c);
      StepOk(s, pid, Consumer(at), t, b)
  {
    var (t, b) := ConsumeStep(s, at, c);
    if t == s {
      assert at.DeleteCache? ==> EventOk(s, at.event);
      QuietKeeps(s, pid, Consumer(at), b);
    } else if at.DeleteCache? {
      CacheDeleted(s, pid);
      assert EventOk(s, at.event);
    } else if at.NoteFailure? {
      assert EventOk(s, at.event);
      StatusKeeps(s, at.event, s.db.outbox[at.event].status, 1, pid);
    } else {
      StatusKeeps(s, at.event, Completed, 0, pid);
    }
  }

  /** The reset transaction: full stock, no orders, every open event cancelled. */
  function AfterReset(s: Shared, pid: nat): Shared {
    WriteStock(s, Db(BASELINE, map[], CancelOpen(s.db.outbox)), ByReset(pid))
  }

  lemma ResetRowsKeeps(s: Shared, pid: nat)
    requires SharedOk(s) && s.lock.None?
    ensures SharedOk(AfterReset(s, pid)) && Evolves(s, AfterReset(s, pid), pid)
  {
    var t := AfterReset(s, pid);
    forall e | e in t.db.outbox
      ensures EventOk(t, e)
    {
      assert EventOk(s, e);
    }
    assert HistoryOk(t) by {
      assert t.db.outbox.Keys == s.db.outbox.Keys;
      forall k | 0 <= k < |t.writers| && t.writers[k].Async?
        ensures t.writers[k].request in t.db.outbox && t.db.outbox[t.writers[k].request].version == k
      {
        assert k < |s.writers| && s.writers[k] == t.writers[k];
      }
    }
  }

  lemma ResetKeeps(s: Shared, pid: nat, at: ResetPc, c: Choice)
    requires SharedOk(s) && ResetterOk(s, pid, at)
    ensures
      var (t, b) := ResetStep(s, pid, at, c);
      StepOk(s, pid, Resetter(at), t, b)
  {
    if at.ResetRows? && s.lock.None? && c.fault != LostBefore {
      ResetRowsKeeps(s, pid);
    } else if at.PrewarmSet? && c.fault != LostBefore {
      CacheSet(s, at.version, pid);
    }
  }

  lemma FillKeeps(s: Shared, pid: nat, at: FillPc, c: Choice)
    requires SharedOk(s) && AgentOk(s, pid, Filler(at))
    ensures
      var (t, b) := FillStep(s, at, c);
      StepOk(s, pid, Filler(at), t, b)
  {
    if at.FillSet? && c.fault != LostBefore {
      CacheSet(s, at.version, pid);
    }
  }

  lemma AgentKeeps(s: Shared, pid: nat, a: Agent, c: Choice)
    requires SharedOk(s) && AgentOk(s, pid, a)
    ensures
      var (t, b) := AgentStep(s, pid, a, c);
      StepOk(s, pid, a, t, b)
  {
    match a {
      case Buyer(r, at) => BuyKeeps(s, pid, r, at, c);
      case Worker(at) =>
        if at == Idle {
          ClaimKeeps(s, pid, c);
        } else {
          WorkKeeps(s, pid, at, c);
        }
      case Consumer(at) => ConsumeKeeps(s, pid, at, c);
      case Resetter(at) => ResetKeeps(s, pid, at, c);
      case Filler(at) => FillKeeps(s, pid, at, c);
      case Crashed =>
    }
  }
}
