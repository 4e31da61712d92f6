/** The purchase experiment as interleaved statements: buyers run one MySQL transaction each and
    then, in the synchronous scheme, delete the cached DTO; in the outbox scheme a publisher and an
    at-least-once consumer delete it later.  Cache fills, resets, expiry and crashes run in between.
    There is one material row; its lock is what orders the transactions. */
module PurchaseModel {
  import opened Common

  // ---------------------------------------------------------------- MySQL and Redis

  datatype Strategy = SyncInvalidate | OutboxInvalidate

  datatype Request = Request(batch: string, id: string, quantity: int, strategy: Strategy)

  datatype Order = Order(batch: string, quantity: int, strategy: Strategy)

  datatype EventStatus = Pending | Publishing | Retry | Published | Completed | Cancelled

  /** One outbox row; `version` is history: which stock version its transaction wrote. */
  datatype Event = Event(status: EventStatus, retries: nat, version: nat)

  /** Committed MySQL state; orders and events are unique per request id. */
  datatype Db = Db(stock: int, orders: map<string, Order>, outbox: map<string, Event>)

  /** The cached DTO: which stock version it shows, and whether its fill read MySQL before a commit
      and wrote Redis after it. */
  datatype Entry = Entry(version: nat, straddled: bool)

  /** History: who wrote each stock version. */
  datatype Writer = Nobody | Async(request: string) | Sync(pid: nat) | ByReset(pid: nat)

  /** History: `stocks` and `writers` record every committed stock version, `deleted` the version that
      was current at the latest DEL of the DTO, and `barrier` the newest version below which no
      un-straddled entry can still be cached. */
  datatype Shared = Shared(
    db: Db,
    lock: Option<nat>,
    sent: set<string>,
    cache: Option<Entry>,
    stocks: seq<int>,
    writers: seq<Writer>,
    deleted: nat,
    barrier: nat)

  const BASELINE := 100
  const ATTEMPTS := 3

  predicate Final(s: EventStatus) {
    s == Completed || s == EventStatus.Cancelled
  }

  predicate Claimable(s: EventStatus) {
    s == Pending || s == Retry
  }

  function Version(s: Shared): int {
    |s.stocks| - 1
  }

  // ---------------------------------------------------------------- agents

  datatype Outcome = Committed | Duplicate | SoldOut | Conflict | Failed

  datatype BuyPc =
    | Validate | FindOrder | TakeStock | InsertOrder | InsertOutbox | Commit
    | ReadOrder | ReadOutbox | Deleting(outcome: Outcome, attempt: nat) | Answered(outcome: Outcome, invalidated: bool)

  datatype WorkPc = Idle | Sending(event: string) | MarkPublished(event: string) | MarkFailed(event: string)

  datatype ConsumePc =
    | Waiting
    | ReadEvent(event: string)
    | DeleteCache(event: string)
    | NoteFailure(event: string)
    | MarkInvalidated(event: string)

  datatype ResetPc = ResetRows | PrewarmRead | PrewarmSet(version: nat) | ResetDone(ok: bool)

  datatype FillPc = FillRead | FillSet(version: nat) | FillDone

  datatype Agent =
    | Buyer(request: Request, buy: BuyPc)
    | Worker(work: WorkPc)
    | Consumer(consume: ConsumePc)
    | Resetter(reset: ResetPc)
    | Filler(fill: FillPc)
    | Crashed

  /** `event` picks the outbox row to claim or the message to receive; `stop` is a cancelled
      request context between two DEL attempts. */
  datatype Choice = Choice(fault: Fault, event: string, stop: bool)

  function DelCache(s: Shared): Shared {
    if Version(s) < 0 then s else s.(cache := None, deleted := Version(s), barrier := Version(s))
  }

  function SetCache(s: Shared, version: nat): Shared {
    s.(cache := Some(Entry(version, version < Version(s))), barrier := if version > s.barrier then version else s.barrier)
  }

  function WriteStock(s: Shared, db: Db, writer: Writer): Shared {
    s.(db := db, stocks := s.stocks + [db.stock], writers := s.writers + [writer], lock := None)
  }

  predicate SameOrder(o: Order, r: Request) {
    o == Order(r.batch, r.quantity, r.strategy)
  }

  /** After a positive transaction result only the synchronous scheme goes on to the cache. */
  function AfterResult(r: Request, outcome: Outcome): Agent {
    Buyer(r, if r.strategy == SyncInvalidate then Deleting(outcome, 1) else Answered(outcome, false))
  }

  function Fails(r: Request): Agent {
    Buyer(r, Answered(Failed, false))
  }

  /** The committed effects of the whole transaction; until then its row lock hides them. */
  function CommitPurchase(s: Shared, pid: nat, r: Request): Shared {
    var orders := s.db.orders[r.id := Order(r.batch, r.quantity, r.strategy)];
    var outbox := if r.strategy == OutboxInvalidate then s.db.outbox[r.id := Event(Pending, 0, |s.stocks|)] else s.db.outbox;
    WriteStock(s, Db(s.db.stock - r.quantity, orders, outbox), if r.strategy == OutboxInvalidate then Async(r.id) else Sync(pid))
  }

  /** CommitMaterialPurchase statement by statement, then the synchronous DEL loop. */
  function BuyStep(s: Shared, pid: nat, r: Request, at: BuyPc, c: Choice): (Shared, Agent) {
    match at
    case Validate =>
      (s, if r.batch == "" || r.id == "" || r.quantity <= 0 then Fails(r) else Buyer(r, FindOrder))
    case FindOrder =>
      if c.fault != NoFault then (s, Fails(r))
      else if r.id !in s.db.orders then (s, Buyer(r, TakeStock))
      else if !SameOrder(s.db.orders[r.id], r) then (s, Buyer(r, Answered(Conflict, false)))
      else if r.strategy == OutboxInvalidate && r.id !in s.db.outbox then (s, Fails(r))
      else (s, AfterResult(r, Duplicate))
    case TakeStock =>
      if s.lock.Some? then (s, Buyer(r, TakeStock))
      else if c.fault != NoFault then (s, Fails(r))
      else if s.db.stock >= r.quantity then (s.(lock := Some(pid)), Buyer(r, InsertOrder))
      else (s, Buyer(r, Answered(SoldOut, false)))
    case InsertOrder =>
      if c.fault != NoFault then (s.(lock := None), Fails(r))
      else if r.id in s.db.orders then (s.(lock := None), Buyer(r, ReadOrder))
      else (s, Buyer(r, if r.strategy == OutboxInvalidate then InsertOutbox else Commit))
    case InsertOutbox =>
      if c.fault != NoFault || r.id in s.db.outbox then (s.(lock := None), Fails(r))
      else (s, Buyer(r, Commit))
    case Commit =>
      if c.fault == LostBefore then (s.(lock := None), Fails(r))
      else (CommitPurchase(s, pid, r), if c.fault == LostAfter then Fails(r) else AfterResult(r, Committed))
    case ReadOrder =>
      if c.fault != NoFault || r.id !in s.db.orders then (s, Fails(r))
      else if !SameOrder(s.db.orders[r.id], r) then (s, Buyer(r, Answered(Conflict, false)))
      else if r.strategy == OutboxInvalidate then (s, Buyer(r, ReadOutbox))
      else (s, AfterResult(r, Duplicate))
    case ReadOutbox =>
      (s, if c.fault != NoFault || r.id !in s.db.outbox then Fails(r) else AfterResult(r, Duplicate))
    case Deleting(outcome, attempt) =>
      var deleted := if c.fault == LostBefore then s else DelCache(s);
      if c.fault == NoFault then (deleted, Buyer(r, Answered(outcome, true)))
      else if attempt >= ATTEMPTS || c.stop then (deleted, Buyer(r, Answered(outcome, false)))
      else (deleted, Buyer(r, Deleting(outcome, attempt + 1)))
    case Answered(_, _) => (s, Buyer(r, at))
  }

  function SetStatus(s: Shared, event: string, status: EventStatus, failures: nat): Shared
    requires event in s.db.outbox
  {
    var e := s.db.outbox[event];
    s.(db := s.db.(outbox := s.db.outbox[event := e.(status := status, retries := e.retries + failures)]))
  }

  predicate HasStatus(s: Shared, event: string, status: EventStatus) {
    event in s.db.outbox && s.db.outbox[event].status == status
  }

  predicate IsOpen(s: Shared, event: string) {
    event in s.db.outbox && !Final(s.db.outbox[event].status)
  }

  /** publishAvailableOutbox: claim, send, write back. */
  function WorkStep(s: Shared, at: WorkPc, c: Choice): (Shared, Agent) {
    match at
    case Idle =>
      if c.fault == LostBefore || c.event !in s.db.outbox || !Claimable(s.db.outbox[c.event].status) then (s, Worker(Idle))
      else (SetStatus(s, c.event, Publishing, 0), Worker(if c.fault == LostAfter then Idle else Sending(c.event)))
    case Sending(event) =>
      (if c.fault == LostBefore then s else s.(sent := s.sent + {event}),
       Worker(if c.fault == NoFault then MarkPublished(event) else MarkFailed(event)))
    case MarkPublished(event) =>
      (if c.fault != LostBefore && HasStatus(s, event, Publishing) then SetStatus(s, event, Published, 0) else s, Worker(Idle))
    case MarkFailed(event) =>
      (if c.fault != LostBefore && HasStatus(s, event, Publishing) then SetStatus(s, event, Retry, 1) else s, Worker(Idle))
  }

  /** ConsumeCacheInvalidation; an error leaves the message with the broker, which may deliver any
      message again at any time. */
  function ConsumeStep(s: Shared, at: ConsumePc, c: Choice): (Shared, Agent) {
    match at
    case Waiting => (s, Consumer(if c.event in s.sent then ReadEvent(c.event) else Waiting))
    case ReadEvent(event) =>
      (s, Consumer(if c.fault != NoFault || !IsOpen(s, event) then Waiting else DeleteCache(event)))
    case DeleteCache(event) =>
      (if c.fault == LostBefore then s else DelCache(s),
       Consumer(if c.fault == NoFault then MarkInvalidated(event) else NoteFailure(event)))
    case NoteFailure(event) =>
      (if c.fault != LostBefore && IsOpen(s, event) then SetStatus(s, event, s.db.outbox[event].status, 1) else s, Consumer(Waiting))
    case MarkInvalidated(event) =>
      (if c.fault != LostBefore && IsOpen(s, event) then SetStatus(s, event, Completed, 0) else s, Consumer(Waiting))
  }

  function CancelOpen(outbox: map<string, Event>): map<string, Event> {
    map e | e in outbox :: if Final(outbox[e].status) then outbox[e] else outbox[e].(status := EventStatus.Cancelled)
  }

  /** Reset: one transaction under the row lock, then rebuild and prewarm the DTO. */
  function ResetStep(s: Shared, pid: nat, at: ResetPc, c: Choice): (Shared, Agent) {
    match at
    case ResetRows =>
      if s.lock.Some? then (s, Resetter(at))
      else if c.fault == LostBefore then (s, Resetter(ResetDone(false)))
      else
        (WriteStock(s, Db(BASELINE, map[], CancelOpen(s.db.outbox)), ByReset(pid)),
         Resetter(if c.fault == LostAfter then ResetDone(false) else PrewarmRead))
    case PrewarmRead =>
      (s, Resetter(if c.fault != NoFault || Version(s) < 0 then ResetDone(false) else PrewarmSet(Version(s))))
    case PrewarmSet(version) =>
      (if c.fault == LostBefore then s else SetCache(s, version), Resetter(ResetDone(c.fault == NoFault)))
    case ResetDone(_) => (s, Resetter(at))
  }

  /** Any cache fill: read MySQL, later write Redis. */
  function FillStep(s: Shared, at: FillPc, c: Choice): (Shared, Agent) {
    match at
    case FillRead => (s, Filler(if c.fault != NoFault || Version(s) < 0 then FillDone else FillSet(Version(s))))
    case FillSet(version) => (if c.fault == LostBefore then s else SetCache(s, version), Filler(FillDone))
    case FillDone => (s, Filler(at))
  }

  function AgentStep(s: Shared, pid: nat, a: Agent, c: Choice): (Shared, Agent) {
    match a
    case Buyer(r, at) => BuyStep(s, pid, r, at, c)
    case Worker(at) => WorkStep(s, at, c)
    case Consumer(at) => ConsumeStep(s, at, c)
    case Resetter(at) => ResetStep(s, pid, at, c)
    case Filler(at) => FillStep(s, at, c)
    case Crashed => (s, a)
  }

  // ---------------------------------------------------------------- runs

  datatype World = World(s: Shared, agents: map<nat, Agent>)

  datatype Action =
    | Spawn(pid: nat, agent: Agent)
    | Turn(pid: nat, choice: Choice)
    | Crash(pid: nat)
    | ExpireCache
    | RecoverOutbox

  /** First statement of each kind of agent. */
  predicate IsStart(a: Agent) {
    match a
    case Buyer(_, at) => at == Validate
    case Worker(at) => at == Idle
    case Consumer(at) => at == Waiting
    case Resetter(at) => at == ResetRows
    case Filler(at) => at == FillRead
    case Crashed => false
  }

  predicate HoldsClaim(a: Agent) {
    a.Worker? && a.work != Idle
  }

  predicate Claims(a: Agent, event: string) {
    HoldsClaim(a) && a.work.event == event
  }

  function Recovered(outbox: map<string, Event>): map<string, Event> {
    map e | e in outbox ::
      if outbox[e].status == Publishing || outbox[e].status == Published
      then outbox[e].(status := Retry, retries := outbox[e].retries + 1)
      else outbox[e]
  }

  /** Recovery runs when the one publisher process starts, so no claim is in flight. */
  function Step(w: World, a: Action): World {
    match a
    case Spawn(pid, agent) =>
      if pid in w.agents || !IsStart(agent) then w else w.(agents := w.agents[pid := agent])
    case Turn(pid, c) =>
      if pid !in w.agents then w
      else
        var (s, agent) := AgentStep(w.s, pid, w.agents[pid], c);
        World(s, w.agents[pid := agent])
    case Crash(pid) =>
      if pid !in w.agents then w
      else World(if w.s.lock == Some(pid) then w.s.(lock := None) else w.s, w.agents[pid := Crashed])
    case ExpireCache => w.(s := w.s.(cache := None))
    case RecoverOutbox =>
      if exists pid :: pid in w.agents && HoldsClaim(w.agents[pid]) then w
      else w.(s := w.s.(db := w.s.db.(outbox := Recovered(w.s.db.outbox))))
  }

  function Run(w: World, acts: seq<Action>): World
    decreases acts
  {
    if acts == [] then w else Run(Step(w, acts[0]), acts[1..])
  }

  function Fresh(): World {
    World(Shared(Db(BASELINE, map[], map[]), None, {}, None, [BASELINE], [Nobody], 0, 0), map[])
  }
}
