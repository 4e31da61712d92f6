/** What every order operation answers and leaves behind when, from some point on, no call fails and
    nobody else runs: for every store, and from the points that an interleaving may have led to.  The
    answers are read off the row and the admission of the identity, not off the programs. */
module OrderReplies {
  import opened Common
  import opened AdmissionScripts
  import opened OrderPrograms
  import opened OrderRuns

  // ---------------------------------------------------------------- alone

  /** Up to `n` steps of one program with the same outcome for every call. */
  function Alone(m: Stores, p: Proc, c: Choice, n: nat): (Stores, Proc)
    decreases n
  {
    if n == 0 || p.pc.Done? then (m, p)
    else
      var (m', p') := ProcStep(m, p, c);
      Alone(m', p', c, n - 1)
  }

  /** More than any operation needs. */
  const ENOUGH := 16

  /** No call fails; `late` says that the payment deadline has passed. */
  function Calm(late: bool, gift: int): Choice {
    Choice(NoFault, late, gift)
  }

  function Payment(uid: int, gid: int, id: Identity): Proc {
    Proc(PayJob, uid, gid, id, InPay(PayFind))
  }

  function GivingUp(uid: int, gid: int, id: Identity): Proc {
    Proc(GiveUpJob, uid, gid, id, InCancel(CancelFind))
  }

  predicate Has(m: Stores, uid: int, gid: int, id: Identity, s: Status) {
    Addressed(m.redis, uid, gid, id) && m.redis.admissions[uid].state == s
  }

  predicate RowAt(m: Stores, uid: int, gid: int, id: Identity, s: Status) {
    && uid in m.ledger && m.ledger[uid].id == id && m.ledger[uid].gift == gid
    && m.ledger[uid].mode == RedisMode && m.ledger[uid].status == s
  }

  /** Everything about other users, and the MySQL route, is as before. */
  predicate OthersUntouched(m: Stores, n: Stores, uid: int) {
    && n.redis.run == m.redis.run && n.cacheStock == m.cacheStock
    && n.redis.admissions - {uid} == m.redis.admissions - {uid}
    && n.ledger - {uid} == m.ledger - {uid}
  }

  /** An order with a business number, unlike the records from before the upgrade. */
  predicate Numbered(id: Identity) {
    id.order != ""
  }

  /** The admission is not paid, so a cancellation may proceed or has already been decided. */
  predicate Unpaid(m: Stores, uid: int, gid: int, id: Identity) {
    Addressed(m.redis, uid, gid, id) && m.redis.admissions[uid].state != Paid
  }

  /** The release script gives the unit back on the first cancellation only. */
  function Released(m: Stores, uid: int, gid: int, id: Identity): Stores {
    var (r, verdict) := Release(m.redis, uid, gid, id);
    if verdict == Moved then WithRedis(m, uid, r) else m
  }

  // ---------------------------------------------------------------- facts of a store

  /** Rows without an order number carry the empty identity, as in every coherent store. */
  predicate OldRowsAreAnonymous(m: Stores) {
    forall u :: u in m.ledger && m.ledger[u].id.order == "" ==> m.ledger[u].id == ANONYMOUS
  }

  lemma OneStep(m: Stores, p: Proc, c: Choice, k: nat)
    requires k > 0 && !p.pc.Done?
    ensures Alone(m, p, c, k) == Alone(ProcStep(m, p, c).0, ProcStep(m, p, c).1, c, k - 1)
  {
  }

  predicate IsOpen(s: Status) {
    s == StockAcquired || s == PendingPayment
  }

  /** The state of the admission that this identity addresses, if it has one. */
  function AdmissionState(m: Stores, uid: int, gid: int, id: Identity): Option<Status> {
    if Matches(m.redis, uid, gid, id) then Some(m.redis.admissions[uid].state) else None
  }

  // ---------------------------------------------------------------- failing calls

  /** A call that failed without effect leaves every store as it was; one whose reply was lost has had
      its whole effect. */
  predicate FaultsAreHonest(m: Stores, p: Proc, c: Choice) {
    && (c.fault == LostBefore ==> ProcStep(m, p, c).0 == m)
    && (c.fault == LostAfter ==> ProcStep(m, p, c).0 == ProcStep(m, p, c.(fault := NoFault)).0)
  }

  /** Positions at which a program calls a store or the broker. */
  predicate MakesCall(p: Proc) {
    match p.pc
    case InPay(at) => !at.PayDecide?
    case InTimeout(at) =>
      || (at.TimeoutFind? && p.id == ANONYMOUS)
      || at == TimeoutReadAdmission(false)
      || (at.TimeoutRun? && p.id.order != "")
    case InCreate(at) => at.CreateRun? ==> p.id.order != ""
    case Done(_) => false
    case _ => true
  }

  /** Where a failed call leads: a granted Draw rolls back, anything else answers an error. */
  function AfterFailure(p: Proc): Pc {
    match p.pc
    case InDraw(at) =>
      if at == DrawHasOrder || at == DrawAcquire then Done(Fail(DrawFailed))
      else if at == DrawRollback then Done(Fail(MQSendFailed))
      else InDraw(DrawRollback)
    case InCancel(_) => Done(Fail(if p.job == DrawJob then MQSendFailed else RollbackFailed))
    case InRecord(_) => Done(Fail(if p.job == DrawJob then MQSendFailed else RollbackFailed))
    case _ => Done(Fail(Internal))
  }

  /** Whether or not it took effect, a call without reply is never taken for a success. */
  predicate FaultsAreReported(m: Stores, p: Proc, c: Choice) {
    c.fault != NoFault && MakesCall(p) ==> ProcStep(m, p, c).1 == Goto(p, AfterFailure(p))
  }

  lemma FailingCalls(m: Stores, p: Proc, c: Choice)
    ensures FaultsAreHonest(m, p, c) && FaultsAreReported(m, p, c)
  {
    if p.pc.InDraw? {
      FailingDraw(m, p, p.pc.draw, c);
    } else if p.pc.InPay? {
      FailingPay(m, p, p.pc.pay, c);
    } else if p.pc.InTimeout? {
      FailingTimeout(m, p, p.pc.timeout, c);
    } else if p.pc.InCreate? {
      FailingCreate(m, p, p.pc.create, c);
    } else if p.pc.InCancel? {
      FailingCancel(m, p, p.pc.cancel, c);
    } else if p.pc.InRecord? {
      FailingRecord(m, p, p.pc.record, c);
    }
  }

  lemma FailingDraw(m: Stores, p: Proc, at: DrawPc, c: Choice)
    requires p.pc == InDraw(at)
    ensures FaultsAreHonest(m, p, c) && FaultsAreReported(m, p, c)
  {
  }

  lemma FailingPay(m: Stores, p: Proc, at: PayPc, c: Choice)
    requires p.pc == InPay(at)
    ensures FaultsAreHonest(m, p, c) && FaultsAreReported(m, p, c)
  {
  }

  lemma FailingTimeout(m: Stores, p: Proc, at: TimeoutPc, c: Choice)
    requires p.pc == InTimeout(at)
    ensures FaultsAreHonest(m, p, c) && FaultsAreReported(m, p, c)
  {
  }

  lemma FailingCreate(m: Stores, p: Proc, at: CreatePc, c: Choice)
    requires p.pc == InCreate(at)
    ensures FaultsAreHonest(m, p, c) && FaultsAreReported(m, p, c)
  {
  }

  lemma FailingCancel(m: Stores, p: Proc, at: CancelPc, c: Choice)
    requires p.pc == InCancel(at)
    ensures FaultsAreHonest(m, p, c) && FaultsAreReported(m, p, c)
  {
  }

  lemma FailingRecord(m: Stores, p: Proc, at: RecordPc, c: Choice)
    requires p.pc == InRecord(at)
    ensures FaultsAreHonest(m, p, c) && FaultsAreReported(m, p, c)
  {
  }

  // ---------------------------------------------------------------- recording a released cancellation

  function RecordReply(m: Stores, uid: int, gid: int, id: Identity): Reply {
    match Find(m.ledger, uid, id)
    case None => if InsertConflicts(m.ledger, uid, id) then Fail(RollbackFailed) else Ok
    case Some(row) =>
      if row.gift == gid && (IsOpen(row.status) || (row.mode == RedisMode && row.status == Cancelled)) then Ok
      else Fail(RollbackFailed)
  }

  /** A positive answer leaves the identity's row cancelled and released, and changes nothing else; a
      negative one changes nothing. */
  predicate RecordedIn(m: Stores, n: Stores, uid: int, gid: int, id: Identity) {
    if RecordReply(m, uid, gid, id) != Ok then n == m
    else
      && n == m.(ledger := n.ledger, nextKey := n.nextKey) && n.ledger - {uid} == m.ledger - {uid}
      && uid in n.ledger
      && (var row := n.ledger[uid];
          && row.id == id && row.gift == gid && row.status == Cancelled && row.released
          && (if uid in m.ledger then row == m.ledger[uid].(status := Cancelled, released := true) && n.nextKey == m.nextKey
              else row.mode == RedisMode && row.key == m.nextKey && n.nextKey == m.nextKey + 1))
  }

  /** From the lookup on, when the UPDATE found nothing to cancel. */
  lemma RecordFindAnswers(m: Stores, p: Proc, again: bool, c: Choice, k: nat)
    requires c.fault == NoFault && OldRowsAreAnonymous(m) && p.pc == InRecord(RecordFind(again)) && k >= 3
    requires !Cancellable(m, p.uid, p.gid, p.id)
    ensures
      var (n, q) := Alone(m, p, c, k);
      q == Return(p, RecordReply(m, p.uid, p.gid, p.id)) && RecordedIn(m, n, p.uid, p.gid, p.id)
  {
    OneStep(m, p, c, k);
    var found := Find(m.ledger, p.uid, p.id);
    if found.None? {
      OneStep(m, Goto(p, InRecord(RecordInsert)), c, k - 1);
      if InsertConflicts(m.ledger, p.uid, p.id) {
        OneStep(m, Goto(p, InRecord(RecordFindDuplicate)), c, k - 2);
      }
    } else if ProcStep(m, p, c).1.pc == InRecord(RecordFixReleased(found.value)) {
      OneStep(m, Goto(p, InRecord(RecordFixReleased(found.value))), c, k - 1);
    }
  }

  /** From the UPDATE on, at the first attempt or after a duplicate key. */
  lemma RecordAnswers(m: Stores, p: Proc, again: bool, c: Choice, k: nat)
    requires c.fault == NoFault && OldRowsAreAnonymous(m) && p.pc == InRecord(RecordUpdate(again)) && k >= 4
    ensures
      var (n, q) := Alone(m, p, c, k);
      q == Return(p, RecordReply(m, p.uid, p.gid, p.id)) && RecordedIn(m, n, p.uid, p.gid, p.id)
  {
    OneStep(m, p, c, k);
    if !Cancellable(m, p.uid, p.gid, p.id) {
      RecordFindAnswers(m, Goto(p, InRecord(RecordFind(again))), again, c, k - 1);
    }
  }

  /** From the insert on, whoever has inserted a row meanwhile: without one the cancellation is
      inserted; a row of this order and gift is recorded over; any other row is a failure. */
  lemma RecordInsertAnswers(m: Stores, p: Proc, c: Choice, k: nat)
    requires c.fault == NoFault && OldRowsAreAnonymous(m) && p.pc == InRecord(RecordInsert) && k >= 6
    ensures
      var (n, q) := Alone(m, p, c, k);
      var found := Find(m.ledger, p.uid, p.id);
      if InsertConflicts(m.ledger, p.uid, p.id) && (found.None? || found.value.gift != p.gid) then
        q == Return(p, Fail(RollbackFailed)) && n == m
      else q == Return(p, RecordReply(m, p.uid, p.gid, p.id)) && RecordedIn(m, n, p.uid, p.gid, p.id)
  {
    OneStep(m, p, c, k);
    if InsertConflicts(m.ledger, p.uid, p.id) {
      var p1, found := Goto(p, InRecord(RecordFindDuplicate)), Find(m.ledger, p.uid, p.id);
      OneStep(m, p1, c, k - 1);
      if found.Some? && found.value.gift == p.gid {
        RecordAnswers(m, Goto(p, InRecord(RecordUpdate(true))), true, c, k - 2);
      }
    }
  }

  // ---------------------------------------------------------------- the shared cancel routine

  /** In Redis mode the admission decides; without one, what the ledger said when it was looked up. */
  function RedisCancelReply(m: Stores, uid: int, gid: int, id: Identity, found: Option<Row>): Reply {
    match AdmissionState(m, uid, gid, id)
    case Some(s) =>
      if s == Paid then Fail(AlreadyPaid)
      else if s == Cancelled || RunIsCurrent(m.redis, id) then RecordReply(m, uid, gid, id)
      else Fail(StateConflict)
    case None =>
      if found.None? then Fail(NotOwned)
      else if found.value.status == Paid then Fail(AlreadyPaid)
      else if found.value.status == Cancelled && found.value.released then Ok
      else Fail(StateConflict)
  }

  /** The routine goes on to record exactly when the admission is or becomes cancelled. */
  predicate Decides(m: Stores, uid: int, gid: int, id: Identity) {
    var s := AdmissionState(m, uid, gid, id);
    s == Some(Cancelled) || (s.Some? && IsOpen(s.value) && RunIsCurrent(m.redis, id))
  }

  /** One unit back and the admission cancelled on the first cancellation, and the record written. */
  predicate RedisCancelledIn(m: Stores, n: Stores, uid: int, gid: int, id: Identity) {
    if Decides(m, uid, gid, id) then RecordedIn(Released(m, uid, gid, id), n, uid, gid, id) else n == m
  }

  lemma ReleaseAnswers(m: Stores, p: Proc, found: Option<Row>, c: Choice)
    requires c.fault == NoFault && p.pc == InCancel(CancelRelease(found))
    ensures
      var m1, p1 := Released(m, p.uid, p.gid, p.id), Goto(p, InCancel(CancelReadAdmission(found)));
      && ProcStep(m, p, c) == (m1, p1)
      && (if Decides(m, p.uid, p.gid, p.id) then
            && ProcStep(m1, p1, c) == (m1, Goto(p, InRecord(RecordUpdate(false))))
            && RecordReply(m1, p.uid, p.gid, p.id) == RedisCancelReply(m, p.uid, p.gid, p.id, found)
          else m1 == m && ProcStep(m, p1, c) == (m, Return(p, RedisCancelReply(m, p.uid, p.gid, p.id, found))))
  {
  }

  lemma RedisCancelAnswers(m: Stores, p: Proc, found: Option<Row>, c: Choice, k: nat)
    requires c.fault == NoFault && OldRowsAreAnonymous(m) && p.pc == InCancel(CancelRelease(found)) && k >= 6
    ensures
      var (n, q) := Alone(m, p, c, k);
      q == Return(p, RedisCancelReply(m, p.uid, p.gid, p.id, found)) && RedisCancelledIn(m, n, p.uid, p.gid, p.id)
  {
    ReleaseAnswers(m, p, found, c);
    var m1, p1 := Released(m, p.uid, p.gid, p.id), Goto(p, InCancel(CancelReadAdmission(found)));
    OneStep(m, p, c, k);
    OneStep(m1, p1, c, k - 1);
    if Decides(m, p.uid, p.gid, p.id) {
      RecordAnswers(m1, Goto(p, InRecord(RecordUpdate(false))), false, c, k - 2);
    }
  }

  /** In MySQL mode the row decides. */
  function MySQLCancelReply(m: Stores, uid: int, key: nat): Reply {
    if !IsRow(m, uid, key) then Fail(RollbackFailed)
    else match m.ledger[uid].status
      case Paid => Fail(AlreadyPaid)
      case Cancelled => Ok
      case StockAcquired => Fail(StateConflict)
      case PendingPayment =>
        if m.ledger[uid].mode != MySQLMode then Fail(StateConflict)
        else if m.ledger[uid].gift in m.cacheStock then Ok else Fail(RollbackFailed)
  }

  /** A pending row becomes cancelled and released and its unit is back, or nothing changes. */
  predicate MySQLCancelledIn(m: Stores, n: Stores, uid: int, key: nat) {
    if !MySQLCancels(m, uid, key) then n == m
    else
      var row := m.ledger[uid];
      n == m.(ledger := m.ledger[uid := row.(status := Cancelled, released := true)],
              cacheStock := m.cacheStock[row.gift := m.cacheStock[row.gift] + 1])
  }

  lemma MySQLCancelAnswers(m: Stores, p: Proc, row: Row, c: Choice, k: nat)
    requires c.fault == NoFault && p.pc == InCancel(CancelMySQL(row)) && k >= 2
    ensures
      var (n, q) := Alone(m, p, c, k);
      q == Return(p, MySQLCancelReply(m, p.uid, row.key)) && MySQLCancelledIn(m, n, p.uid, row.key)
  {
    OneStep(m, p, c, k);
    if !MySQLStockMissing(m, p.uid, row.key) {
      var m1, p1 := ProcStep(m, p, c).0, Goto(p, InCancel(CancelMySQLReread(row)));
      assert ProcStep(m, p, c).1 == p1;
      OneStep(m1, p1, c, k - 1);
    }
  }

  /** The whole routine, from the row it finds. */
  function CancelReply(m: Stores, uid: int, gid: int, id: Identity): Reply {
    var found := Find(m.ledger, uid, id);
    if found.Some? && found.value.gift != gid then Fail(NotOwned)
    else if found.Some? && found.value.mode == MySQLMode then MySQLCancelReply(m, uid, found.value.key)
    else RedisCancelReply(m, uid, gid, id, found)
  }

  predicate CancelledIn(m: Stores, n: Stores, uid: int, gid: int, id: Identity) {
    var found := Find(m.ledger, uid, id);
    if found.Some? && found.value.gift != gid then n == m
    else if found.Some? && found.value.mode == MySQLMode then MySQLCancelledIn(m, n, uid, found.value.key)
    else RedisCancelledIn(m, n, uid, gid, id)
  }

  lemma CancelAnswers(m: Stores, p: Proc, c: Choice, k: nat)
    requires c.fault == NoFault && OldRowsAreAnonymous(m) && p.pc == InCancel(CancelFind) && k >= 7
    ensures
      var (n, q) := Alone(m, p, c, k);
      q == Return(p, CancelReply(m, p.uid, p.gid, p.id)) && CancelledIn(m, n, p.uid, p.gid, p.id)
  {
    OneStep(m, p, c, k);
    var found := Find(m.ledger, p.uid, p.id);
    if found.Some? && found.value.gift != p.gid {
    } else if found.Some? && found.value.mode == MySQLMode {
      MySQLCancelAnswers(m, Goto(p, InCancel(CancelMySQL(found.value))), found.value, c, k - 1);
    } else {
      RedisCancelAnswers(m, Goto(p, InCancel(CancelRelease(found))), found, c, k - 1);
    }
  }

  // ---------------------------------------------------------------- Pay

  /** Before the ledger has the order, or after the claim was refused. */
  function UnpayableReply(s: Option<Status>): Reply {
    match s
    case None => Fail(NotOwned)
    case Some(Cancelled) => Fail(OrderCancelled)
    case Some(_) => Fail(OrderProcessing)
  }

  /** The user's admission of this gift, whatever its identity. */
  function StateOfGift(m: Stores, uid: int, gid: int): Option<Status> {
    if uid in m.redis.admissions && m.redis.admissions[uid].gift == gid then Some(m.redis.admissions[uid].state) else None
  }

  predicate Payable(m: Stores, uid: int, gid: int, id: Identity, row: Row) {
    || row.mode == MySQLMode
    || (Addressed(m.redis, uid, gid, id)
        && (m.redis.admissions[uid].state == PendingPayment || m.redis.admissions[uid].state == Paid))
  }

  function PayReply(m: Stores, uid: int, gid: int, id: Identity, late: bool): Reply {
    match Find(m.ledger, uid, id)
    case None => UnpayableReply(AdmissionState(m, uid, gid, id))
    case Some(row) =>
      if row.gift != gid then Fail(NotOwned)
      else match row.status {
        case Paid => Ok
        case Cancelled => Fail(OrderCancelled)
        case StockAcquired => Fail(OrderProcessing)
        case PendingPayment =>
          if late then
            match CancelReply(m, uid, gid, id) {
              case Ok => Fail(OrderCancelled)
              case Fail(code) => if code == AlreadyPaid then Ok else Fail(code)
            }
          else if Payable(m, uid, gid, id, row) then Ok
          else UnpayableReply(StateOfGift(m, uid, gid))
      }
  }

  /** A payment in time makes the row paid and, in Redis mode, its admission; nothing else. */
  predicate PaidIn(m: Stores, n: Stores, uid: int, row: Row)
    requires uid in m.ledger
  {
    && n.ledger == m.ledger[uid := m.ledger[uid].(status := Paid)]
    && n.cacheStock == m.cacheStock && n.sent == m.sent && n.nextKey == m.nextKey
    && if row.mode == MySQLMode then n.redis == m.redis && n.fate == m.fate
       else
         && uid in m.redis.admissions
         && n.redis == m.redis.(admissions := m.redis.admissions[uid := m.redis.admissions[uid].(state := Paid)])
  }

  /** What an undisturbed Pay leaves behind. */
  predicate AfterPay(m: Stores, n: Stores, uid: int, gid: int, id: Identity, late: bool) {
    match Find(m.ledger, uid, id)
    case None => n == m
    case Some(row) =>
      if row.gift != gid || row.status != PendingPayment then n == m
      else if late then CancelledIn(m, n, uid, gid, id)
      else if Payable(m, uid, gid, id, row) then uid in m.ledger && PaidIn(m, n, uid, row)
      else n == m
  }

  /** From the ledger update on, whoever has changed the row meanwhile. */
  lemma PayUpdateAnswers(m: Stores, p: Proc, row: Row, c: Choice, k: nat)
    requires c.fault == NoFault && p.pc == InPay(PayUpdate(row)) && k >= 2
    ensures
      var (n, q) := Alone(m, p, c, k);
      && q == Goto(p, Done(
           if !IsRow(m, p.uid, row.key) then Fail(Internal)
           else if m.ledger[p.uid].status == PendingPayment || m.ledger[p.uid].status == Paid then Ok
           else Fail(StateConflict)))
      && n == (if IsRow(m, p.uid, row.key) && m.ledger[p.uid].status == PendingPayment
               then m.(ledger := m.ledger[p.uid := m.ledger[p.uid].(status := Paid)]) else m)
  {
    OneStep(m, p, c, k);
    OneStep(ProcStep(m, p, c).0, Goto(p, InPay(PayReread(row))), c, k - 1);
  }

  predicate CanBePaid(s: Status) {
    s == PendingPayment || s == Paid
  }

  /** From the claim on: a refused claim is explained by the user's admission of this gift, and a
      granted one goes on to the ledger. */
  lemma PayClaimAnswers(m: Stores, p: Proc, row: Row, c: Choice, k: nat)
    requires c.fault == NoFault && p.pc == InPay(PayClaim(row)) && row.mode == RedisMode && k >= 4
    ensures
      var (n, q) := Alone(m, p, c, k);
      if !Payable(m, p.uid, p.gid, p.id, row) then
        q == Goto(p, Done(UnpayableReply(StateOfGift(m, p.uid, p.gid)))) && n == m
      else
        && (q.pc == Done(Ok) <==> (IsRow(m, p.uid, row.key) && CanBePaid(m.ledger[p.uid].status)))
        && (q.pc == Done(Ok) && m.ledger[p.uid].status == PendingPayment ==> PaidIn(m, n, p.uid, row))
        && (q.pc != Done(Ok) ==> n.ledger == m.ledger && n.redis.stock == m.redis.stock)
  {
    OneStep(m, p, c, k);
    var m1 := ProcStep(m, p, c).0;
    if Payable(m, p.uid, p.gid, p.id, row) {
      PayUpdateAnswers(m1, Goto(p, InPay(PayUpdate(row))), row, c, k - 1);
      assert m1.redis.admissions == m.redis.admissions[p.uid := m.redis.admissions[p.uid].(state := Paid)];
    } else {
      OneStep(m, Goto(p, InPay(PayReadAdmission)), c, k - 1);
    }
  }

  lemma PayPendingAnswers(m: Stores, p: Proc, row: Row, c: Choice, k: nat)
    requires c.fault == NoFault && !c.flag && p.pc == InPay(PayDecide(row)) && k >= 5
    requires p.uid in m.ledger && m.ledger[p.uid] == row && row.gift == p.gid && row.status == PendingPayment
    ensures
      var (n, q) := Alone(m, p, c, k);
      if Payable(m, p.uid, p.gid, p.id, row) then q.pc == Done(Ok) && PaidIn(m, n, p.uid, row)
      else q.pc == Done(UnpayableReply(StateOfGift(m, p.uid, p.gid))) && n == m
  {
    OneStep(m, p, c, k);
    if row.mode == MySQLMode {
      PayUpdateAnswers(m, Goto(p, InPay(PayUpdate(row))), row, c, k - 1);
    } else {
      PayClaimAnswers(m, Goto(p, InPay(PayClaim(row))), row, c, k - 1);
    }
  }

  /** Main result for Pay: for every store, the reply and what it leaves behind, in time or late. */
  lemma PayAnswers(m: Stores, uid: int, gid: int, id: Identity, c: Choice)
    requires c.fault == NoFault && OldRowsAreAnonymous(m)
    ensures
      var (n, q) := Alone(m, Payment(uid, gid, id), c, ENOUGH);
      q.pc == Done(PayReply(m, uid, gid, id, c.flag)) && AfterPay(m, n, uid, gid, id, c.flag)
  {
    var p := Payment(uid, gid, id);
    OneStep(m, p, c, ENOUGH);
    match Find(m.ledger, uid, id) {
      case None => OneStep(m, Goto(p, InPay(PayBefore)), c, ENOUGH - 1);
      case Some(row) =>
        if row.gift == gid && row.status == PendingPayment {
          var p1 := Goto(p, InPay(PayDecide(row)));
          if c.flag {
            OneStep(m, p1, c, ENOUGH - 1);
            CancelAnswers(m, Goto(p, InCancel(CancelFind)), c, ENOUGH - 2);
          } else {
            PayPendingAnswers(m, p1, row, c, ENOUGH - 1);
          }
        }
    }
  }

  /** The order can be paid now, or is paid: its row is paid; or it is pending and either in time and
      payable, or late but its admission is paid already. */
  predicate PaidOrPayable(m: Stores, uid: int, gid: int, id: Identity, late: bool) {
    var found := Find(m.ledger, uid, id);
    && found.Some? && found.value.gift == gid
    && (|| found.value.status == Paid
        || (found.value.status == PendingPayment
            && if late then found.value.mode == RedisMode && AdmissionState(m, uid, gid, id) == Some(Paid)
               else Payable(m, uid, gid, id, found.value)))
  }

  /** Pay succeeds exactly for such an order; a paid row is answered with success and nothing changes;
      a cancelled one is refused as cancelled and nothing changes; a pending one past its deadline with
      an unpaid admission of the current run is refused and both sides end cancelled; an order without
      row is processing, cancelled or not owned, as its admission says. */
  lemma PaySucceedsExactlyWhenPaidOrPayable(m: Stores, uid: int, gid: int, id: Identity, c: Choice)
    requires c.fault == NoFault && OldRowsAreAnonymous(m)
    ensures
      var (n, q) := Alone(m, Payment(uid, gid, id), c, ENOUGH);
      var found := Find(m.ledger, uid, id);
      && (q.pc == Done(Ok) <==> PaidOrPayable(m, uid, gid, id, c.flag))
      && (found.Some? && found.value.gift == gid && found.value.status == Paid ==> q.pc == Done(Ok) && n == m)
      && (found.Some? && found.value.gift == gid && found.value.status == Cancelled ==>
            q.pc == Done(Fail(OrderCancelled)) && n == m)
      && (RowAt(m, uid, gid, id, PendingPayment) && c.flag && Unpaid(m, uid, gid, id) ==>
            q.pc == Done(Fail(OrderCancelled)) && Has(n, uid, gid, id, Cancelled) && RowAt(n, uid, gid, id, Cancelled))
      && (found.None? ==> n == m && q.pc == Done(Fail(
            match AdmissionState(m, uid, gid, id) {
              case None => NotOwned
              case Some(s) => if s == Cancelled then OrderCancelled else OrderProcessing
            })))
  {
    PayAnswers(m, uid, gid, id, c);
  }

  // ---------------------------------------------------------------- GiveUp and the timeout message

  /** Main result for GiveUp: for every store, the reply and what it leaves behind. */
  lemma GiveUpAnswers(m: Stores, uid: int, gid: int, id: Identity, c: Choice)
    requires c.fault == NoFault && OldRowsAreAnonymous(m)
    ensures
      var (n, q) := Alone(m, GivingUp(uid, gid, id), c, ENOUGH);
      q.pc == Done(CancelReply(m, uid, gid, id)) && CancelledIn(m, n, uid, gid, id)
  {
    CancelAnswers(m, GivingUp(uid, gid, id), c, ENOUGH);
  }

  /** Main result for the timeout message, after the lookup that recognises an order of the MySQL
      route: strangers and orders of earlier runs are acknowledged and nothing changes, an order within
      its window is refused, and a late one is cancelled; what was paid, cancelled or foreign is
      acknowledged, any other failure is redelivered. */
  lemma TimeoutAnswers(m: Stores, p: Proc, mysql: bool, c: Choice, k: nat)
    requires c.fault == NoFault && OldRowsAreAnonymous(m) && k >= 10
    requires p.job == TimeoutJob && p.pc == InTimeout(TimeoutReadAdmission(mysql))
    ensures
      var (n, q) := Alone(m, p, c, k);
      if (!mysql && !Matches(m.redis, p.uid, p.gid, p.id)) || !RunIsCurrent(m.redis, p.id) then q.pc == Done(Ok) && n == m
      else if c.flag then q.pc == Done(Fail(NotExpired)) && n == m
      else
        var reply := CancelReply(m, p.uid, p.gid, p.id);
        && CancelledIn(m, n, p.uid, p.gid, p.id)
        && q.pc == Done(if reply == Fail(AlreadyPaid) || reply == Fail(NotOwned) then Ok else reply)
  {
    OneStep(m, p, c, k);
    if mysql || Matches(m.redis, p.uid, p.gid, p.id) {
      OneStep(m, Goto(p, InTimeout(TimeoutRun)), c, k - 1);
      if RunIsCurrent(m.redis, p.id) {
        ClockAnswers(m, Goto(p, InTimeout(TimeoutClock)), c, k - 2);
      }
    }
  }

  lemma ClockAnswers(m: Stores, p: Proc, c: Choice, k: nat)
    requires c.fault == NoFault && OldRowsAreAnonymous(m) && k >= 8
    requires p.job == TimeoutJob && p.pc == InTimeout(TimeoutClock)
    ensures
      var (n, q) := Alone(m, p, c, k);
      if c.flag then q.pc == Done(Fail(NotExpired)) && n == m
      else
        var reply := CancelReply(m, p.uid, p.gid, p.id);
        && CancelledIn(m, n, p.uid, p.gid, p.id)
        && q.pc == Done(if reply == Fail(AlreadyPaid) || reply == Fail(NotOwned) then Ok else reply)
  {
    OneStep(m, p, c, k);
    if !c.flag {
      CancelAnswers(m, Goto(p, InCancel(CancelFind)), c, k - 1);
    }
  }

  /** Only an anonymous message over a MySQL-mode row of its gift, whose deadline it names, skips the
      admission. */
  lemma TimeoutLooksUp(m: Stores, uid: int, gid: int, id: Identity, c: Choice)
    requires c.fault == NoFault
    ensures
      var found := Find(m.ledger, uid, id);
      var mysql := id == ANONYMOUS && found.Some? && found.value.mode == MySQLMode && found.value.gift == gid && c.flag;
      var p := Handler(CancelOrder(uid, gid, id));
      ProcStep(m, p, c) == (m, Goto(p, InTimeout(TimeoutReadAdmission(mysql))))
  {
  }

  // ---------------------------------------------------------------- the create message

  /** From the mark script on, whatever has become of the admission meanwhile. */
  lemma MarkAnswers(m: Stores, p: Proc, c: Choice, k: nat)
    requires c.fault == NoFault && OldRowsAreAnonymous(m) && k >= 6
    requires p.job == CreateJob && p.pc == InCreate(CreateMark)
    ensures
      var (n, q) := Alone(m, p, c, k);
      match AdmissionState(m, p.uid, p.gid, p.id)
      case None => q.pc == Done(Fail(Internal)) && n == m
      case Some(StockAcquired) =>
        if RunIsCurrent(m.redis, p.id) then q.pc == Done(Ok) && MarkedIn(m, n, p.uid)
        else q.pc == Done(Fail(Internal)) && n == m
      case Some(PendingPayment) => q.pc == Done(Ok) && n == m
      case Some(Paid) => q.pc == Done(Fail(Internal)) && n == m
      case Some(Cancelled) => q.pc == Done(RecordReply(m, p.uid, p.gid, p.id)) && RecordedIn(m, n, p.uid, p.gid, p.id)
  {
    OneStep(m, p, c, k);
    if !(Addressed(m.redis, p.uid, p.gid, p.id) && m.redis.admissions[p.uid].state == StockAcquired) {
      var p1 := Goto(p, InCreate(CreateReread));
      assert ProcStep(m, p, c) == (m, p1);
      OneStep(m, p1, c, k - 1);
      if AdmissionState(m, p.uid, p.gid, p.id) == Some(Cancelled) {
        RecordAnswers(m, Goto(p, InRecord(RecordUpdate(false))), false, c, k - 2);
      }
    }
  }

  /** The admission is pending now; nothing else changed. */
  predicate MarkedIn(m: Stores, n: Stores, uid: int) {
    && uid in m.redis.admissions
    && n.redis == m.redis.(admissions := m.redis.admissions[uid := m.redis.admissions[uid].(state := PendingPayment)])
    && n == m.(redis := n.redis, fate := n.fate)
  }

  /** From the row on: a paid admission makes a pending row paid, any other admission is marked. */
  lemma CreateWithRowAnswers(m: Stores, p: Proc, row: Row, c: Choice, k: nat)
    requires c.fault == NoFault && k >= 2
    requires p.job == CreateJob && p.pc == InCreate(CreatePaidUpdate(row))
    ensures
      var (n, q) := Alone(m, p, c, k);
      if !IsRow(m, p.uid, row.key) then q.pc == Done(Fail(Internal)) && n == m
      else if m.ledger[p.uid].status == PendingPayment then
        q.pc == Done(Ok) && n == m.(ledger := m.ledger[p.uid := m.ledger[p.uid].(status := Paid)])
      else q.pc == Done(if m.ledger[p.uid].status == Paid then Ok else Fail(StateConflict)) && n == m
  {
    OneStep(m, p, c, k);
    OneStep(ProcStep(m, p, c).0, Goto(p, InCreate(CreatePaidReread(row))), c, k - 1);
  }

  /** The message has nothing to create: no admission under its identity, or another run. */
  predicate NothingToCreate(m: Stores, uid: int, gid: int, id: Identity) {
    AdmissionState(m, uid, gid, id).None? || !RunIsCurrent(m.redis, id)
  }

  function Creating(uid: int, gid: int, id: Identity): Proc {
    Handler(CreateOrder(uid, gid, id))
  }

  lemma CreateReaches(m: Stores, uid: int, gid: int, id: Identity, c: Choice)
    requires c.fault == NoFault
    ensures NothingToCreate(m, uid, gid, id) ==>
      Alone(m, Creating(uid, gid, id), c, ENOUGH) == (m, Goto(Creating(uid, gid, id), Done(Ok)))
    ensures !NothingToCreate(m, uid, gid, id) ==>
      var s := m.redis.admissions[uid].state;
      Alone(m, Creating(uid, gid, id), c, ENOUGH)
        == Alone(m, Goto(Creating(uid, gid, id),
                         if s == Cancelled then InRecord(RecordUpdate(false)) else InCreate(CreateInsert(s))), c, ENOUGH - 2)
  {
    var p := Creating(uid, gid, id);
    OneStep(m, p, c, ENOUGH);
    if Matches(m.redis, uid, gid, id) {
      OneStep(m, Goto(p, InCreate(CreateRun(m.redis.admissions[uid].state))), c, ENOUGH - 1);
    }
  }

  /** Main result for a message that must not create: it is acknowledged and nothing changes; over a
      released admission it records the cancellation instead. */
  lemma LateCreateAnswers(m: Stores, uid: int, gid: int, id: Identity, c: Choice)
    requires c.fault == NoFault && OldRowsAreAnonymous(m)
    ensures
      var (n, q) := Alone(m, Creating(uid, gid, id), c, ENOUGH);
      if NothingToCreate(m, uid, gid, id) then q.pc == Done(Ok) && n == m
      else AdmissionState(m, uid, gid, id) == Some(Cancelled) ==>
        q.pc == Done(RecordReply(m, uid, gid, id)) && RecordedIn(m, n, uid, gid, id)
  {
    CreateReaches(m, uid, gid, id, c);
    if !NothingToCreate(m, uid, gid, id) && m.redis.admissions[uid].state == Cancelled {
      RecordAnswers(m, Goto(Creating(uid, gid, id), InRecord(RecordUpdate(false))), false, c, ENOUGH - 2);
    }
  }

  /** A new pending row of this identity, and nothing else. */
  predicate InsertedIn(m: Stores, n: Stores, uid: int, gid: int, id: Identity, s: Status) {
    && uid !in m.ledger
    && n.ledger == m.ledger[uid := Row(m.nextKey, id, gid, s, RedisMode, false)]
    && n.nextKey == m.nextKey + 1 && n.cacheStock == m.cacheStock && n.sent == m.sent
  }

  /** Main result for the first delivery: the row appears, pending, or paid at once over a paid
      admission, and a merely granted admission becomes pending. */
  lemma FirstCreateAnswers(m: Stores, uid: int, gid: int, id: Identity, c: Choice)
    requires c.fault == NoFault && OldRowsAreAnonymous(m)
    requires !NothingToCreate(m, uid, gid, id) && m.redis.admissions[uid].state != Cancelled
    requires !InsertConflicts(m.ledger, uid, id)
    ensures
      var (n, q) := Alone(m, Creating(uid, gid, id), c, ENOUGH);
      var s := m.redis.admissions[uid].state;
      && q.pc == Done(Ok)
      && InsertedIn(m, n, uid, gid, id, if s == Paid then Paid else PendingPayment)
      && n.redis == if s != StockAcquired then m.redis
                    else m.redis.(admissions := m.redis.admissions[uid := m.redis.admissions[uid].(state := PendingPayment)])
  {
    CreateReaches(m, uid, gid, id, c);
    var p, s := Creating(uid, gid, id), m.redis.admissions[uid].state;
    OneStep(m, Goto(p, InCreate(CreateInsert(s))), c, ENOUGH - 2);
    var m1 := Insert(m, uid, gid, id, PendingPayment, RedisMode);
    if s == Paid {
      CreateWithRowAnswers(m1, Goto(p, InCreate(CreatePaidUpdate(m1.ledger[uid]))), m1.ledger[uid], c, ENOUGH - 3);
    } else {
      assert OldRowsAreAnonymous(m1) || s != Cancelled;
      MarkOpen(m1, Goto(p, InCreate(CreateMark)), c, ENOUGH - 3);
    }
  }

  /** The mark script over an open admission of the current run. */
  lemma MarkOpen(m: Stores, p: Proc, c: Choice, k: nat)
    requires c.fault == NoFault && k >= 2 && p.job == CreateJob && p.pc == InCreate(CreateMark)
    requires Addressed(m.redis, p.uid, p.gid, p.id) && IsOpen(m.redis.admissions[p.uid].state)
    ensures
      var (n, q) := Alone(m, p, c, k);
      q.pc == Done(Ok) && if m.redis.admissions[p.uid].state == StockAcquired then MarkedIn(m, n, p.uid) else n == m
  {
    OneStep(m, p, c, k);
    if m.redis.admissions[p.uid].state == PendingPayment {
      OneStep(m, Goto(p, InCreate(CreateReread)), c, k - 1);
    }
  }

  /** Main result for a redelivery, or any other row in the way: a foreign row is an error; the order's
      own terminal row is acknowledged; its pending row becomes paid over a paid admission and stays
      pending over an open one, which ends pending too. */
  lemma RepeatedCreateAnswers(m: Stores, uid: int, gid: int, id: Identity, c: Choice)
    requires c.fault == NoFault
    requires !NothingToCreate(m, uid, gid, id) && m.redis.admissions[uid].state != Cancelled
    requires InsertConflicts(m.ledger, uid, id)
    ensures
      var (n, q) := Alone(m, Creating(uid, gid, id), c, ENOUGH);
      var s, found := m.redis.admissions[uid].state, Find(m.ledger, uid, id);
      if found.None? || found.value.gift != gid || found.value.mode != RedisMode then q.pc == Done(Fail(Internal)) && n == m
      else if Terminal(found.value.status) then q.pc == Done(Ok) && n == m
      else if s == Paid then
        if found.value.status == PendingPayment
        then q.pc == Done(Ok) && n == m.(ledger := m.ledger[uid := m.ledger[uid].(status := Paid)])
        else q.pc == Done(Fail(StateConflict)) && n == m
      else q.pc == Done(Ok) && if s == StockAcquired then MarkedIn(m, n, uid) else n == m
  {
    CreateReaches(m, uid, gid, id, c);
    var p, s := Creating(uid, gid, id), m.redis.admissions[uid].state;
    OneStep(m, Goto(p, InCreate(CreateInsert(s))), c, ENOUGH - 2);
    OneStep(m, Goto(p, InCreate(CreateFind(s))), c, ENOUGH - 3);
    var found := Find(m.ledger, uid, id);
    if found.Some? && found.value.gift == gid && found.value.mode == RedisMode && !Terminal(found.value.status) {
      if s == Paid {
        CreateWithRowAnswers(m, Goto(p, InCreate(CreatePaidUpdate(found.value))), found.value, c, ENOUGH - 4);
      } else {
        MarkOpen(m, Goto(p, InCreate(CreateMark)), c, ENOUGH - 4);
      }
    }
  }

  // ---------------------------------------------------------------- Draw

  function Drawing(uid: int, id: Identity): Proc {
    Proc(DrawJob, uid, 0, id, InDraw(DrawHasOrder))
  }

  /** One candidate of a Draw: it is taken, or refused for its reason; a sold-out candidate leaves the
      Draw where it was, free to try the next. */
  lemma DrawTriesOne(m: Stores, p: Proc, c: Choice)
    requires c.fault == NoFault && !c.flag && p.pc == InDraw(DrawAcquire)
    ensures
      var (n, q) := ProcStep(m, p, c);
      if !RunIsCurrent(m.redis, p.id) then n == m && q.pc == Done(Fail(DrawFailed))
      else if p.uid in m.redis.admissions then n == m && q.pc == Done(Fail(DuplicateParticipation))
      else if Stock(m.redis, c.gift) <= 0 then n == m && q == p
      else
        && q == p.(gid := c.gift, pc := InDraw(DrawLookup))
        && n.redis.stock == m.redis.stock[c.gift := Stock(m.redis, c.gift) - 1]
        && p.uid in n.redis.admissions && n.redis.admissions[p.uid].gift == c.gift
        && n.redis.admissions[p.uid].state == StockAcquired
        && n.redis.admissions - {p.uid} == m.redis.admissions
        && n == m.(redis := n.redis, fate := n.fate)
  {
    assert m.redis.admissions - {p.uid} == m.redis.admissions || p.uid in m.redis.admissions;
  }

  /** A user with an order in the ledger is refused before anything happens. */
  lemma DrawChecksTheLedger(m: Stores, uid: int, id: Identity, c: Choice)
    requires c.fault == NoFault
    ensures
      var (n, q) := ProcStep(m, Drawing(uid, id), c);
      n == m && q.pc == if uid in m.ledger then Done(Fail(DuplicateParticipation)) else InDraw(DrawAcquire)
  {
  }

  /** The three calls between the grant and the reply. */
  predicate Announces(pc: Pc) {
    pc == InDraw(DrawLookup) || pc == InDraw(DrawSendCancel) || pc == InDraw(DrawSendCreate)
  }

  lemma RollbackAnswers(m: Stores, p: Proc, c: Choice, k: nat)
    requires c.fault == NoFault && OldRowsAreAnonymous(m) && k >= 5
    requires p.job == DrawJob && p.pc == InDraw(DrawRollback)
    ensures
      var (n, q) := Alone(m, p, c, k);
      && q.pc == Done(Fail(MQSendFailed))
      && if Addressed(m.redis, p.uid, p.gid, p.id) && IsOpen(m.redis.admissions[p.uid].state)
         then RecordedIn(Released(m, p.uid, p.gid, p.id), n, p.uid, p.gid, p.id)
         else n == m
  {
    OneStep(m, p, c, k);
    if Release(m.redis, p.uid, p.gid, p.id).1 == Moved {
      var m1 := Released(m, p.uid, p.gid, p.id);
      RecordAnswers(m1, Goto(p, InRecord(RecordUpdate(false))), false, c, k - 1);
    }
  }

  /** If one of the three calls fails and the rest goes well, the unit is back, the admission and a new
      ledger row are cancelled, and the user hears a failure. */
  lemma FailedAnnouncementIsRolledBack(m: Stores, p: Proc, fails: Choice, c: Choice)
    requires c.fault == NoFault && fails.fault != NoFault && OldRowsAreAnonymous(m)
    requires p.job == DrawJob && Announces(p.pc) && Numbered(p.id)
    requires Has(m, p.uid, p.gid, p.id, StockAcquired) && !InsertConflicts(m.ledger, p.uid, p.id)
    ensures
      var (m1, p1) := ProcStep(m, p, fails);
      var (n, q) := Alone(m1, p1, c, ENOUGH);
      && q.pc == Done(Fail(MQSendFailed))
      && Has(n, p.uid, p.gid, p.id, Cancelled) && RowAt(n, p.uid, p.gid, p.id, Cancelled) && n.ledger[p.uid].released
      && n.redis.stock == m.redis.stock[p.gid := Stock(m.redis, p.gid) + 1]
      && n.sent == m.sent + if fails.fault == LostBefore then {} else Announcement(p)
  {
    var (m1, p1) := ProcStep(m, p, fails);
    AnnouncementFails(m, p, fails);
    RollbackAnswers(m1, p1, c, ENOUGH);
    ReleaseRestores(m1, p.uid, p.gid, p.id);
  }

  lemma AnnouncementFails(m: Stores, p: Proc, fails: Choice)
    requires fails.fault != NoFault && Announces(p.pc)
    ensures
      ProcStep(m, p, fails) ==
        (m.(sent := m.sent + if fails.fault == LostBefore then {} else Announcement(p)), Goto(p, InDraw(DrawRollback)))
  {
    assert m.sent + {} == m.sent;
  }

  /** What the call sends, if it arrives. */
  function Announcement(p: Proc): set<Message> {
    if p.pc == InDraw(DrawSendCancel) then {CancelOrder(p.uid, p.gid, p.id)}
    else if p.pc == InDraw(DrawSendCreate) then {CreateOrder(p.uid, p.gid, p.id)}
    else {}
  }

  predicate MayDraw(m: Stores, uid: int, gid: int, id: Identity) {
    && Numbered(id) && RunIsCurrent(m.redis, id) && Stock(m.redis, gid) > 0
    && uid !in m.redis.admissions && !InsertConflicts(m.ledger, uid, id)
  }

  /** The stores after a draw of this gift. */
  function Granted(m: Stores, uid: int, gid: int, id: Identity): Stores {
    Send(Send(WithRedis(m, uid, Acquire(m.redis, uid, gid, id).0), CancelOrder(uid, gid, id)), CreateOrder(uid, gid, id))
  }

  lemma DrawSteps(m: Stores, uid: int, gid: int, id: Identity) returns (n: Stores, q: Proc)
    requires MayDraw(m, uid, gid, id)
    ensures Alone(m, Drawing(uid, id), Calm(false, gid), ENOUGH) == Alone(n, q, Calm(false, gid), 13)
    ensures n == WithRedis(m, uid, Acquire(m.redis, uid, gid, id).0)
    ensures q == Proc(DrawJob, uid, gid, id, InDraw(DrawSendCancel))
  {
    var c, p := Calm(false, gid), Drawing(uid, id);
    var p1 := Goto(p, InDraw(DrawAcquire));
    assert ProcStep(m, p, c) == (m, p1);
    assert Alone(m, p, c, ENOUGH) == Alone(m, p1, c, 15);
    n := WithRedis(m, uid, Acquire(m.redis, uid, gid, id).0);
    var p2 := Proc(DrawJob, uid, gid, id, InDraw(DrawLookup));
    assert ProcStep(m, p1, c) == (n, p2);
    assert Alone(m, p1, c, 15) == Alone(n, p2, c, 14);
    q := Goto(p2, InDraw(DrawSendCancel));
    assert ProcStep(n, p2, c) == (n, q);
  }

  /** A draw takes one unit, grants the admission and sends both messages. */
  lemma DrawAlone(m: Stores, uid: int, gid: int, id: Identity)
    requires MayDraw(m, uid, gid, id)
    ensures
      var (n, q) := Alone(m, Drawing(uid, id), Calm(false, gid), ENOUGH);
      && q == Proc(DrawJob, uid, gid, id, Done(Ok)) && n == Granted(m, uid, gid, id)
      && Has(n, uid, gid, id, StockAcquired) && Stock(n.redis, gid) == Stock(m.redis, gid) - 1
  {
    var c := Calm(false, gid);
    var n, q := DrawSteps(m, uid, gid, id);
    var n1, q1 := Send(n, CancelOrder(uid, gid, id)), Goto(q, InDraw(DrawSendCreate));
    assert ProcStep(n, q, c) == (n1, q1);
    assert Alone(n, q, c, 13) == Alone(n1, q1, c, 12);
    var n2, q2 := Send(n1, CreateOrder(uid, gid, id)), Goto(q, Done(Ok));
    assert ProcStep(n1, q1, c) == (n2, q2);
    assert Alone(n1, q1, c, 12) == Alone(n2, q2, c, 11) == (n2, q2);
  }

  // ---------------------------------------------------------------- a whole life

  /** Both sides cancelled and released; one unit is back on the shelf unless it already was. */
  predicate CancelledAndRestored(m: Stores, n: Stores, uid: int, gid: int, id: Identity) {
    && Has(n, uid, gid, id, Cancelled) && RowAt(n, uid, gid, id, Cancelled) && n.ledger[uid].released
    && n.redis.stock == (if Has(m, uid, gid, id, Cancelled) then m.redis.stock else m.redis.stock[gid := Stock(m.redis, gid) + 1])
    && OthersUntouched(m, n, uid)
  }

  lemma ReleaseRestores(m: Stores, uid: int, gid: int, id: Identity)
    requires Numbered(id) && Unpaid(m, uid, gid, id)
    ensures
      var n := Released(m, uid, gid, id);
      && Has(n, uid, gid, id, Cancelled) && n.ledger == m.ledger && OthersUntouched(m, n, uid)
      && n.redis.stock == (if Has(m, uid, gid, id, Cancelled) then m.redis.stock else m.redis.stock[gid := Stock(m.redis, gid) + 1])
  {
  }

  /** The shared cancel routine over an unpaid order of the current run, granted, pending or already
      released, with or without its row: both sides end cancelled and released, and its unit is back
      once. */
  lemma UnpaidOrderIsCancelledOnce(m: Stores, p: Proc, c: Choice, k: nat)
    requires c.fault == NoFault && OldRowsAreAnonymous(m) && p.pc == InCancel(CancelFind) && k >= 7
    requires Numbered(p.id) && Unpaid(m, p.uid, p.gid, p.id)
    requires RowAt(m, p.uid, p.gid, p.id, PendingPayment) || !InsertConflicts(m.ledger, p.uid, p.id)
    ensures
      var (n, q) := Alone(m, p, c, k);
      q == Return(p, Ok) && CancelledAndRestored(m, n, p.uid, p.gid, p.id)
  {
    CancelAnswers(m, p, c, k);
    ReleaseRestores(m, p.uid, p.gid, p.id);
  }

  lemma AnExpiredOrderIsRestored(m: Stores, uid: int, gid: int, id: Identity, c: Choice)
    requires c.fault == NoFault && !c.flag && OldRowsAreAnonymous(m) && Numbered(id) && RunIsCurrent(m.redis, id)
    requires Has(m, uid, gid, id, PendingPayment) && RowAt(m, uid, gid, id, PendingPayment)
    ensures CancelledAndRestored(m, Alone(m, Handler(CancelOrder(uid, gid, id)), c, ENOUGH).0, uid, gid, id)
  {
    var p := Handler(CancelOrder(uid, gid, id));
    OneStep(m, p, c, ENOUGH);
    TimeoutAnswers(m, Goto(p, InTimeout(TimeoutReadAdmission(false))), false, c, ENOUGH - 1);
    ReleaseRestores(m, uid, gid, id);
  }

  /** Drawn, created and timed out: the shelf is as full as before. */
  lemma ADrawnAndExpiredOrderIsNeutral(m: Stores, uid: int, gid: int, id: Identity)
    requires MayDraw(m, uid, gid, id) && OldRowsAreAnonymous(m)
    ensures
      var calm := Calm(false, gid);
      var drawn := Alone(m, Drawing(uid, id), calm, ENOUGH).0;
      var created := Alone(drawn, Creating(uid, gid, id), calm, ENOUGH).0;
      var ended := Alone(created, Handler(CancelOrder(uid, gid, id)), calm, ENOUGH).0;
      && RowAt(ended, uid, gid, id, Cancelled) && ended.ledger[uid].released
      && forall g :: Stock(ended.redis, g) == Stock(m.redis, g)
  {
    var calm := Calm(false, gid);
    DrawAlone(m, uid, gid, id);
    var drawn := Granted(m, uid, gid, id);
    FirstCreateAnswers(drawn, uid, gid, id, calm);
    var created := Alone(drawn, Creating(uid, gid, id), calm, ENOUGH).0;
    AnExpiredOrderIsRestored(created, uid, gid, id, calm);
  }
}
