/** The multi-step order programs over two stores that share no transaction: Redis (stock and
    admissions) and the MySQL ledger, plus the message broker.  Each store call is one atomic
    step; between two steps of one program any other program may run. */
module OrderPrograms {
  import opened Common
  import opened AdmissionScripts

  // ---------------------------------------------------------------- stores

  datatype Mode = RedisMode | MySQLMode

  /** One ledger row; `key` is the auto-increment primary key.  Every insert writes count 1. */
  datatype Row = Row(key: nat, id: Identity, gift: int, status: Status, mode: Mode, released: bool)

  datatype Message =
    | CreateOrder(uid: int, gid: int, id: Identity)
    | CancelOrder(uid: int, gid: int, id: Identity)

  /** `ledger` is keyed by user because (activity, user) is unique.  `fate` is history: the last
      state every admission ever had, kept after its Redis key is gone. */
  datatype Stores = Stores(
    redis: Redis,
    ledger: map<int, Row>,
    cacheStock: map<int, int>,
    nextKey: nat,
    sent: set<Message>,
    fate: map<(int, Identity), Admission>)

  /** Lookup by business identity; empty identity only finds a row without order number. */
  function Find(ledger: map<int, Row>, uid: int, id: Identity): Option<Row> {
    if uid !in ledger then None
    else if id == ANONYMOUS then if ledger[uid].id.order != "" then None else Some(ledger[uid])
    else if ledger[uid].id == id then Some(ledger[uid])
    else None
  }

  /** The two unique keys: (activity, user) and the non-null order number. */
  predicate InsertConflicts(ledger: map<int, Row>, uid: int, id: Identity) {
    || uid in ledger
    || (id.order != "" && exists v :: v in ledger && ledger[v].id.order == id.order)
  }

  function Insert(m: Stores, uid: int, gid: int, id: Identity, s: Status, mode: Mode): Stores {
    m.(ledger := m.ledger[uid := Row(m.nextKey, id, gid, s, mode, s == Cancelled)], nextKey := m.nextKey + 1)
  }

  predicate IsRow(m: Stores, uid: int, key: nat) {
    uid in m.ledger && m.ledger[uid].key == key
  }

  /** UPDATE ... SET status = paid WHERE id = key AND status = pending_payment. */
  function PayRow(m: Stores, uid: int, key: nat): Stores {
    if IsRow(m, uid, key) && m.ledger[uid].status == PendingPayment
    then m.(ledger := m.ledger[uid := m.ledger[uid].(status := Paid)])
    else m
  }

  /** Rows that the cancellation UPDATE addresses. */
  predicate Cancellable(m: Stores, uid: int, gid: int, id: Identity) {
    && uid in m.ledger
    && m.ledger[uid].id == id
    && m.ledger[uid].gift == gid
    && (m.ledger[uid].status == StockAcquired || m.ledger[uid].status == PendingPayment)
  }

  function CancelRow(m: Stores, uid: int): Stores
    requires uid in m.ledger
  {
    m.(ledger := m.ledger[uid := m.ledger[uid].(status := Cancelled, released := true)])
  }

  predicate IsPendingMySQL(m: Stores, uid: int, key: nat) {
    IsRow(m, uid, key) && m.ledger[uid].mode == MySQLMode && m.ledger[uid].status == PendingPayment
  }

  /** The MySQL-mode transaction: pending row to cancelled and stock back, or nothing. */
  predicate MySQLCancels(m: Stores, uid: int, key: nat) {
    IsPendingMySQL(m, uid, key) && m.ledger[uid].gift in m.cacheStock
  }

  /** The stock UPDATE would touch no inventory row, so the whole transaction rolls back. */
  predicate MySQLStockMissing(m: Stores, uid: int, key: nat) {
    IsPendingMySQL(m, uid, key) && m.ledger[uid].gift !in m.cacheStock
  }

  function CancelMySQLRow(m: Stores, uid: int, key: nat): Stores
    requires MySQLCancels(m, uid, key)
  {
    var gid := m.ledger[uid].gift;
    CancelRow(m, uid).(cacheStock := m.cacheStock[gid := m.cacheStock[gid] + 1])
  }

  /** Writes a script result back; the history follows the user's admission. */
  function WithRedis(m: Stores, uid: int, r: Redis): Stores {
    if uid in r.admissions
    then m.(redis := r, fate := m.fate[(uid, r.admissions[uid].id) := r.admissions[uid]])
    else m.(redis := r)
  }

  function Send(m: Stores, msg: Message): Stores {
    m.(sent := m.sent + {msg})
  }

  // ---------------------------------------------------------------- programs

  /** Which operation owns the program; the cancel and record routines are shared. */
  datatype Job = DrawJob | PayJob | GiveUpJob | TimeoutJob | CreateJob

  datatype Code =
    | DuplicateParticipation | DrawFailed | MQSendFailed | NotOwned | OrderProcessing | OrderCancelled
    | AlreadyPaid | StateConflict | RollbackFailed | NotExpired | Internal

  datatype Reply = Ok | Fail(code: Code)

  datatype DrawPc = DrawHasOrder | DrawAcquire | DrawLookup | DrawSendCancel | DrawSendCreate | DrawRollback

  datatype PayPc =
    | PayFind | PayBefore | PayDecide(row: Row) | PayClaim(row: Row) | PayReadAdmission
    | PayUpdate(row: Row) | PayReread(row: Row)

  datatype TimeoutPc = TimeoutFind | TimeoutReadAdmission(mysql: bool) | TimeoutRun | TimeoutClock

  datatype CreatePc =
    | CreateReadAdmission | CreateRun(seen: Status) | CreateInsert(seen: Status) | CreateFind(seen: Status)
    | CreatePaidUpdate(row: Row) | CreatePaidReread(row: Row) | CreateMark | CreateReread

  datatype CancelPc =
    | CancelFind | CancelMySQL(row: Row) | CancelMySQLReread(row: Row)
    | CancelRelease(found: Option<Row>) | CancelReadAdmission(found: Option<Row>)

  datatype RecordPc =
    | RecordUpdate(again: bool) | RecordFind(again: bool) | RecordFixReleased(row: Row)
    | RecordInsert | RecordFindDuplicate

  /** Where a program stands: in its own code, in a shared routine, or finished. */
  datatype Pc =
    | InDraw(draw: DrawPc) | InPay(pay: PayPc) | InTimeout(timeout: TimeoutPc) | InCreate(create: CreatePc)
    | InCancel(cancel: CancelPc) | InRecord(record: RecordPc) | Done(reply: Reply)

  datatype Proc = Proc(job: Job, uid: int, gid: int, id: Identity, pc: Pc)

  /** Nondeterminism of one step: the call's fate, a clock or branch outcome, a drawn gift. */
  datatype Choice = Choice(fault: Fault, flag: bool, gift: int)

  function Goto(p: Proc, pc: Pc): Proc {
    p.(pc := pc)
  }

  function Fails(p: Proc, code: Code): Proc {
    p.(pc := Done(Fail(code)))
  }

  /** Draw after its admission checks; the candidate loop is left nondeterministic here. */
  function DrawStep(m: Stores, p: Proc, at: DrawPc, c: Choice): (Stores, Proc) {
    match at
    case DrawHasOrder =>
      if c.fault != NoFault then (m, Fails(p, DrawFailed))
      else if p.uid in m.ledger then (m, Fails(p, DuplicateParticipation))
      else (m, Goto(p, InDraw(DrawAcquire)))
    case DrawAcquire =>
      if c.flag || c.fault == LostBefore then (m, Fails(p, DrawFailed))
      else
        var (r, reply) := Acquire(m.redis, p.uid, c.gift, p.id);
        var m' := if reply == Acquired then WithRedis(m, p.uid, r) else m;
        if c.fault == LostAfter then (m', Fails(p, DrawFailed))
        else match reply {
          case Acquired => (m', p.(gid := c.gift, pc := InDraw(DrawLookup)))
          case Duplicate => (m', Fails(p, DuplicateParticipation))
          case SoldOut => (m', p)
          case StaleRun => (m', Fails(p, DrawFailed))
        }
    case DrawLookup =>
      (m, Goto(p, if c.fault != NoFault then InDraw(DrawRollback) else InDraw(DrawSendCancel)))
    case DrawSendCancel =>
      var m' := if c.fault == LostBefore then m else Send(m, CancelOrder(p.uid, p.gid, p.id));
      (m', Goto(p, if c.fault != NoFault then InDraw(DrawRollback) else InDraw(DrawSendCreate)))
    case DrawSendCreate =>
      var m' := if c.fault == LostBefore then m else Send(m, CreateOrder(p.uid, p.gid, p.id));
      (m', if c.fault != NoFault then Goto(p, InDraw(DrawRollback)) else Goto(p, Done(Ok)))
    case DrawRollback =>
      if c.fault == LostBefore then (m, Fails(p, MQSendFailed))
      else
        var (r, verdict) := Release(m.redis, p.uid, p.gid, p.id);
        var m' := if verdict == Moved then WithRedis(m, p.uid, r) else m;
        (m', if c.fault == NoFault && verdict == Moved then Goto(p, InRecord(RecordUpdate(false))) else Fails(p, MQSendFailed))
  }

  function AdmissionCode(m: Stores, p: Proc): Code {
    if p.uid !in m.redis.admissions || m.redis.admissions[p.uid].gift != p.gid then NotOwned
    else if m.redis.admissions[p.uid].state == Cancelled then OrderCancelled
    else OrderProcessing
  }

  function PayStep(m: Stores, p: Proc, at: PayPc, c: Choice): (Stores, Proc) {
    match at
    case PayFind =>
      if c.fault != NoFault then (m, Fails(p, Internal))
      else match Find(m.ledger, p.uid, p.id) {
        case None => (m, Goto(p, InPay(PayBefore)))
        case Some(row) =>
          if row.gift != p.gid then (m, Fails(p, NotOwned))
          else match row.status {
            case Paid => (m, Goto(p, Done(Ok)))
            case Cancelled => (m, Fails(p, OrderCancelled))
            case StockAcquired => (m, Fails(p, OrderProcessing))
            case PendingPayment => (m, Goto(p, InPay(PayDecide(row))))
          }
      }
    case PayBefore =>
      if c.fault != NoFault then (m, Fails(p, Internal))
      else if !Matches(m.redis, p.uid, p.gid, p.id) then (m, Fails(p, NotOwned))
      else (m, Fails(p, AdmissionCode(m, p)))
    case PayDecide(row) =>
      if c.flag then (m, Goto(p, InCancel(CancelFind)))
      else (m, Goto(p, if row.mode == RedisMode then InPay(PayClaim(row)) else InPay(PayUpdate(row))))
    case PayClaim(row) =>
      if c.fault == LostBefore then (m, Fails(p, Internal))
      else
        var (r, verdict) := Claim(m.redis, p.uid, p.gid, p.id);
        var m' := if verdict == Moved then WithRedis(m, p.uid, r) else m;
        if c.fault == LostAfter then (m', Fails(p, Internal))
        else (m', Goto(p, if verdict == Refused then InPay(PayReadAdmission) else InPay(PayUpdate(row))))
    case PayReadAdmission =>
      if c.fault != NoFault then (m, Fails(p, Internal)) else (m, Fails(p, AdmissionCode(m, p)))
    case PayUpdate(row) =>
      if c.fault == LostBefore then (m, Fails(p, Internal))
      else (PayRow(m, p.uid, row.key), if c.fault == LostAfter then Fails(p, Internal) else Goto(p, InPay(PayReread(row))))
    case PayReread(row) =>
      if c.fault != NoFault || !IsRow(m, p.uid, row.key) then (m, Fails(p, Internal))
      else if m.ledger[p.uid].status == Paid then (m, Goto(p, Done(Ok)))
      else (m, Fails(p, StateConflict))
  }

  /** TimeoutCancel up to the shared cancel routine. */
  function TimeoutStep(m: Stores, p: Proc, at: TimeoutPc, c: Choice): (Stores, Proc) {
    match at
    case TimeoutFind =>
      if p.id != ANONYMOUS then (m, Goto(p, InTimeout(TimeoutReadAdmission(false))))
      else if c.fault != NoFault then (m, Fails(p, Internal))
      else
        var found := Find(m.ledger, p.uid, p.id);
        var mysql := found.Some? && found.value.mode == MySQLMode && found.value.gift == p.gid && c.flag;
        (m, Goto(p, InTimeout(TimeoutReadAdmission(mysql))))
    case TimeoutReadAdmission(mysql) =>
      if mysql then (m, Goto(p, InTimeout(TimeoutRun)))
      else if c.fault != NoFault then (m, Fails(p, Internal))
      else if !Matches(m.redis, p.uid, p.gid, p.id) then (m, Goto(p, Done(Ok)))
      else (m, Goto(p, InTimeout(TimeoutRun)))
    case TimeoutRun =>
      if p.id.order == "" then (m, Goto(p, InTimeout(TimeoutClock)))
      else if c.fault != NoFault then (m, Fails(p, Internal))
      else if m.redis.run != Some(p.id.run) then (m, Goto(p, Done(Ok)))
      else (m, Goto(p, InTimeout(TimeoutClock)))
    case TimeoutClock =>
      if c.flag then (m, Fails(p, NotExpired)) else (m, Goto(p, InCancel(CancelFind)))
  }

  /** CreateRedisPendingOrder. */
  function CreateStep(m: Stores, p: Proc, at: CreatePc, c: Choice): (Stores, Proc) {
    match at
    case CreateReadAdmission =>
      if c.fault != NoFault then (m, Fails(p, Internal))
      else if !Matches(m.redis, p.uid, p.gid, p.id) then (m, Goto(p, Done(Ok)))
      else (m, Goto(p, InCreate(CreateRun(m.redis.admissions[p.uid].state))))
    case CreateRun(seen) =>
      if p.id.order != "" && c.fault != NoFault then (m, Fails(p, Internal))
      else if p.id.order != "" && m.redis.run != Some(p.id.run) then (m, Goto(p, Done(Ok)))
      else (m, Goto(p, if seen == Cancelled then InRecord(RecordUpdate(false)) else InCreate(CreateInsert(seen))))
    case CreateInsert(seen) =>
      if c.fault == LostBefore then (m, Fails(p, Internal))
      else if InsertConflicts(m.ledger, p.uid, p.id) then
        (m, if c.fault == LostAfter then Fails(p, Internal) else Goto(p, InCreate(CreateFind(seen))))
      else
        var m' := Insert(m, p.uid, p.gid, p.id, PendingPayment, RedisMode);
        if c.fault == LostAfter then (m', Fails(p, Internal))
        else (m', Goto(p, if seen == Paid then InCreate(CreatePaidUpdate(m'.ledger[p.uid])) else InCreate(CreateMark)))
    case CreateFind(seen) =>
      if c.fault != NoFault then (m, Fails(p, Internal))
      else match Find(m.ledger, p.uid, p.id) {
        case None => (m, Fails(p, Internal))
        case Some(row) =>
          if row.gift != p.gid || row.mode != RedisMode then (m, Fails(p, Internal))
          else if Terminal(row.status) then (m, Goto(p, Done(Ok)))
          else (m, Goto(p, if seen == Paid then InCreate(CreatePaidUpdate(row)) else InCreate(CreateMark)))
      }
    case CreatePaidUpdate(row) =>
      if c.fault == LostBefore then (m, Fails(p, Internal))
      else
        (PayRow(m, p.uid, row.key),
         if c.fault == LostAfter then Fails(p, Internal) else Goto(p, InCreate(CreatePaidReread(row))))
    case CreatePaidReread(row) =>
      if c.fault != NoFault || !IsRow(m, p.uid, row.key) then (m, Fails(p, Internal))
      else if m.ledger[p.uid].status != Paid then (m, Fails(p, StateConflict))
      else (m, Goto(p, Done(Ok)))
    case CreateMark =>
      if c.fault == LostBefore then (m, Fails(p, Internal))
      else
        var (r, verdict) := MarkPending(m.redis, p.uid, p.gid, p.id);
        var m' := if verdict == Moved then WithRedis(m, p.uid, r) else m;
        if c.fault == LostAfter then (m', Fails(p, Internal))
        else (m', Goto(p, if verdict == Moved then Done(Ok) else InCreate(CreateReread)))
    case CreateReread =>
      if c.fault != NoFault then (m, Fails(p, Internal))
      else if !Matches(m.redis, p.uid, p.gid, p.id) then (m, Fails(p, Internal))
      else if m.redis.admissions[p.uid].state == PendingPayment then (m, Goto(p, Done(Ok)))
      else if m.redis.admissions[p.uid].state == Cancelled then (m, Goto(p, InRecord(RecordUpdate(false))))
      else (m, Fails(p, Internal))
  }

  /** What the outcome of the shared cancel routine means to the operation that called it. */
  function Return(p: Proc, outcome: Reply): Proc {
    match p.job
    case DrawJob => Fails(p, MQSendFailed)
    case PayJob =>
      if outcome == Ok then Fails(p, OrderCancelled)
      else if outcome == Fail(AlreadyPaid) then Goto(p, Done(Ok))
      else Goto(p, Done(outcome))
    case GiveUpJob => Goto(p, Done(outcome))
    case TimeoutJob =>
      if outcome == Fail(AlreadyPaid) || outcome == Fail(OrderCancelled) || outcome == Fail(NotOwned)
      then Goto(p, Done(Ok))
      else Goto(p, Done(outcome))
    case CreateJob => Goto(p, Done(outcome))
  }

  /** cancel: MySQL rows in one transaction; Redis admissions by the release script first. */
  function CancelStep(m: Stores, p: Proc, at: CancelPc, c: Choice): (Stores, Proc) {
    match at
    case CancelFind =>
      if c.fault != NoFault then (m, Return(p, Fail(RollbackFailed)))
      else
        var found := Find(m.ledger, p.uid, p.id);
        if found.Some? && found.value.gift != p.gid then (m, Return(p, Fail(NotOwned)))
        else if found.Some? && found.value.mode == MySQLMode then (m, Goto(p, InCancel(CancelMySQL(found.value))))
        else (m, Goto(p, InCancel(CancelRelease(found))))
    case CancelMySQL(row) =>
      if c.fault == LostBefore || MySQLStockMissing(m, p.uid, row.key) then (m, Return(p, Fail(RollbackFailed)))
      else if !MySQLCancels(m, p.uid, row.key) then
        (m, if c.fault == LostAfter then Return(p, Fail(RollbackFailed)) else Goto(p, InCancel(CancelMySQLReread(row))))
      else
        (CancelMySQLRow(m, p.uid, row.key),
         if c.fault == LostAfter then Return(p, Fail(RollbackFailed)) else Goto(p, InCancel(CancelMySQLReread(row))))
    case CancelMySQLReread(row) =>
      if c.fault != NoFault || !IsRow(m, p.uid, row.key) then (m, Return(p, Fail(RollbackFailed)))
      else match m.ledger[p.uid].status {
        case Paid => (m, Return(p, Fail(AlreadyPaid)))
        case Cancelled => (m, Return(p, Ok))
        case _ => (m, Return(p, Fail(StateConflict)))
      }
    case CancelRelease(found) =>
      if c.fault == LostBefore then (m, Return(p, Fail(RollbackFailed)))
      else
        var (r, verdict) := Release(m.redis, p.uid, p.gid, p.id);
        var m' := if verdict == Moved then WithRedis(m, p.uid, r) else m;
        (m', if c.fault == LostAfter then Return(p, Fail(RollbackFailed)) else Goto(p, InCancel(CancelReadAdmission(found))))
    case CancelReadAdmission(found) =>
      if c.fault != NoFault then (m, Return(p, Fail(RollbackFailed)))
      else if !Matches(m.redis, p.uid, p.gid, p.id) then
        (m, Return(p,
          if found.Some? && found.value.status == Cancelled && found.value.released then Ok
          else if found.Some? && found.value.status == Paid then Fail(AlreadyPaid)
          else if found.Some? then Fail(StateConflict)
          else Fail(NotOwned)))
      else match m.redis.admissions[p.uid].state {
        case Paid => (m, Return(p, Fail(AlreadyPaid)))
        case Cancelled => (m, Goto(p, InRecord(RecordUpdate(false))))
        case _ => (m, Return(p, Fail(StateConflict)))
      }
  }

  /** RecordReleasedRedisCancellation; `again` marks the retry after a duplicate key. */
  function RecordStep(m: Stores, p: Proc, at: RecordPc, c: Choice): (Stores, Proc) {
    match at
    case RecordUpdate(again) =>
      if c.fault == LostBefore then (m, Return(p, Fail(RollbackFailed)))
      else if Cancellable(m, p.uid, p.gid, p.id) then
        (CancelRow(m, p.uid), Return(p, if c.fault == LostAfter then Fail(RollbackFailed) else Ok))
      else (m, if c.fault == LostAfter then Return(p, Fail(RollbackFailed)) else Goto(p, InRecord(RecordFind(again))))
    case RecordFind(again) =>
      if c.fault != NoFault then (m, Return(p, Fail(RollbackFailed)))
      else match Find(m.ledger, p.uid, p.id) {
        case None => (m, Goto(p, InRecord(RecordInsert)))
        case Some(row) =>
          if row.gift != p.gid || row.mode != RedisMode || row.status == Paid then (m, Return(p, Fail(RollbackFailed)))
          else if row.status == Cancelled && !row.released then (m, Goto(p, InRecord(RecordFixReleased(row))))
          else (m, Return(p, Ok))
      }
    case RecordFixReleased(row) =>
      if c.fault == LostBefore then (m, Return(p, Fail(RollbackFailed)))
      else
        (if IsRow(m, p.uid, row.key) && m.ledger[p.uid].status == Cancelled then CancelRow(m, p.uid) else m,
         Return(p, if c.fault == LostAfter then Fail(RollbackFailed) else Ok))
    case RecordInsert =>
      if c.fault == LostBefore then (m, Return(p, Fail(RollbackFailed)))
      else if InsertConflicts(m.ledger, p.uid, p.id) then
        (m, if c.fault == LostAfter then Return(p, Fail(RollbackFailed)) else Goto(p, InRecord(RecordFindDuplicate)))
      else
        (Insert(m, p.uid, p.gid, p.id, Cancelled, RedisMode),
         Return(p, if c.fault == LostAfter then Fail(RollbackFailed) else Ok))
    case RecordFindDuplicate =>
      if c.fault != NoFault then (m, Return(p, Fail(RollbackFailed)))
      else
        var found := Find(m.ledger, p.uid, p.id);
        if found.None? || found.value.gift != p.gid then (m, Return(p, Fail(RollbackFailed)))
        else (m, Goto(p, InRecord(RecordUpdate(true))))
  }

  /** One atomic step of one program; a finished program does not move. */
  function ProcStep(m: Stores, p: Proc, c: Choice): (Stores, Proc) {
    match p.pc
    case InDraw(at) => DrawStep(m, p, at, c)
    case InPay(at) => PayStep(m, p, at, c)
    case InTimeout(at) => TimeoutStep(m, p, at, c)
    case InCreate(at) => CreateStep(m, p, at, c)
    case InCancel(at) => CancelStep(m, p, at, c)
    case InRecord(at) => RecordStep(m, p, at, c)
    case Done(_) => (m, p)
  }
}
