/** What every step of every order program keeps: the two stores never hold opposite verdicts on
    one identity.  The proof is by rely and guarantee.  `Coherent` is the invariant of the stores,
    `Evolves` what a step of anybody may change, and `ProcOk` what a program knows at each point;
    everything a program knows is stable under `Evolves`. */
module OrderInvariants {
  import opened Common
  import opened AdmissionScripts
  import opened OrderPrograms

  // ---------------------------------------------------------------- store invariant

  predicate AdmissionRecorded(m: Stores, uid: int)
    requires uid in m.redis.admissions
  {
    var a := m.redis.admissions[uid];
    (uid, a.id) in m.fate && m.fate[(uid, a.id)] == a
  }

  predicate FateOk(m: Stores, k: (int, Identity))
    requires k in m.fate
  {
    && m.fate[k].id == k.1
    && (k.1.order == "" ==> k.1 == ANONYMOUS)
  }

  /** A Redis-mode row never contradicts the verdict of its admission, and a pending row was
      announced by a CREATE_ORDER message.  MySQL-mode rows carry no identity. */
  predicate RowOk(m: Stores, uid: int)
    requires uid in m.ledger
  {
    var row := m.ledger[uid];
    && row.key < m.nextKey
    && row.status != StockAcquired
    && (row.id.order == "" ==> row.id == ANONYMOUS)
    && match row.mode {
         case MySQLMode => row.id == ANONYMOUS
         case RedisMode =>
           && (uid, row.id) in m.fate
           && m.fate[(uid, row.id)].gift == row.gift
           && (Terminal(row.status) ==> m.fate[(uid, row.id)].state == row.status)
           && (row.status == PendingPayment && row.id.order != "" ==> CreateOrder(uid, row.gift, row.id) in m.sent)
       }
  }

  /** CANCEL_ORDER was sent before CREATE_ORDER, and only for an admission that was granted. */
  predicate MessageOk(m: Stores, msg: Message) {
    msg.id.order != "" ==>
      && (msg.uid, msg.id) in m.fate
      && m.fate[(msg.uid, msg.id)].gift == msg.gid
      && CancelOrder(msg.uid, msg.gid, msg.id) in m.sent
  }

  predicate Coherent(m: Stores) {
    && (forall u :: u in m.redis.admissions ==> AdmissionRecorded(m, u))
    && (forall k :: k in m.fate ==> FateOk(m, k))
    && (forall u :: u in m.ledger ==> RowOk(m, u))
    && (forall msg :: msg in m.sent ==> MessageOk(m, msg))
  }

  // ---------------------------------------------------------------- guarantee

  predicate SameRow(a: Row, b: Row) {
    && a.key == b.key && a.id == b.id && a.gift == b.gift && a.mode == b.mode
    && Reaches(a.status, b.status)
    && (a.released ==> b.released)
  }

  predicate FateAdvances(a: Admission, b: Admission) {
    a.gift == b.gift && a.id == b.id && Reaches(a.state, b.state)
  }

  /** What one step may change within one run: verdicts and rows only move forward, nothing known
      is forgotten, and a lapsed admission never comes back. */
  predicate Evolves(m: Stores, n: Stores) {
    && n.redis.run == m.redis.run
    && m.sent <= n.sent
    && m.nextKey <= n.nextKey
    && (forall k :: k in m.fate ==> k in n.fate && FateAdvances(m.fate[k], n.fate[k]))
    && (forall u :: u in n.redis.admissions && (u, n.redis.admissions[u].id) in m.fate ==>
          u in m.redis.admissions && m.redis.admissions[u].id == n.redis.admissions[u].id)
    && (forall u :: u in m.ledger ==> u in n.ledger && SameRow(m.ledger[u], n.ledger[u]))
  }

  /** Only the message consumer may add a pending Redis-mode row. */
  predicate NoNewPending(m: Stores, n: Stores) {
    forall u :: u in n.ledger && u !in m.ledger ==> n.ledger[u].status == Cancelled || n.ledger[u].mode == MySQLMode
  }

  predicate NewFateOnly(m: Stores, n: Stores, key: (int, Identity)) {
    forall k :: k in n.fate ==> k in m.fate || k == key
  }

  predicate Keeps(m: Stores, n: Stores, key: (int, Identity)) {
    Coherent(n) && Evolves(m, n) && NewFateOnly(m, n, key)
  }

  // ---------------------------------------------------------------- what a program knows

  predicate Known(m: Stores, p: Proc) {
    (p.uid, p.id) in m.fate && m.fate[(p.uid, p.id)].gift == p.gid
  }

  predicate FateIs(m: Stores, p: Proc, s: Status) {
    Known(m, p) && m.fate[(p.uid, p.id)].state == s
  }

  /** The program read this row earlier; it is still there, possibly further on. */
  predicate Read(m: Stores, p: Proc, row: Row) {
    p.uid in m.ledger && SameRow(row, m.ledger[p.uid]) && row.id == p.id && row.gift == p.gid
  }

  /** The identity ended in this verdict.  A numbered order is decided by its admission, whose
      history outlives everything; an old record by its row, and a Redis-mode row by its admission. */
  predicate Ended(m: Stores, uid: int, id: Identity, s: Status) {
    if id.order != "" then (uid, id) in m.fate && m.fate[(uid, id)].state == s
    else
      && uid in m.ledger && m.ledger[uid].id == id
      && if m.ledger[uid].mode == MySQLMode then m.ledger[uid].status == s
         else (uid, id) in m.fate && m.fate[(uid, id)].state == s
  }

  predicate RowReleased(m: Stores, uid: int, id: Identity) {
    uid in m.ledger && m.ledger[uid].id == id && m.ledger[uid].status == Cancelled && m.ledger[uid].released
  }

  /** The current run's admission, if this identity still has one, is terminal, and a cancelled
      one is cancelled and released in the ledger too. */
  predicate Settled(m: Stores, uid: int, id: Identity) {
    id.order != "" && m.redis.run == Some(id.run) && uid in m.redis.admissions && m.redis.admissions[uid].id == id ==>
      && Terminal(m.redis.admissions[uid].state)
      && (m.redis.admissions[uid].state == Cancelled ==> RowReleased(m, uid, id))
  }

  predicate JobFits(job: Job, pc: Pc) {
    match pc
    case InDraw(_) => job == DrawJob
    case InPay(_) => job == PayJob
    case InTimeout(_) => job == TimeoutJob
    case InCreate(_) => job == CreateJob
    case InCancel(_) => job == PayJob || job == GiveUpJob || job == TimeoutJob
    case InRecord(_) => true
    case Done(_) => true
  }

  /** What an operation knows from its start: the message that triggered it, or its fresh identity. */
  predicate OriginOk(m: Stores, p: Proc) {
    match p.job
    case DrawJob => p.id.order != ""
    case TimeoutJob => p.id.order != "" ==> CancelOrder(p.uid, p.gid, p.id) in m.sent
    case CreateJob => p.id.order != "" ==> CreateOrder(p.uid, p.gid, p.id) in m.sent
    case _ => true
  }

  predicate DrawFacts(m: Stores, p: Proc, at: DrawPc) {
    match at
    case DrawHasOrder => (p.uid, p.id) !in m.fate
    case DrawAcquire => (p.uid, p.id) !in m.fate
    case DrawSendCreate => Known(m, p) && CancelOrder(p.uid, p.gid, p.id) in m.sent
    case _ => Known(m, p)
  }

  predicate PayFacts(m: Stores, p: Proc, at: PayPc) {
    match at
    case PayDecide(row) => Read(m, p, row)
    case PayClaim(row) => Read(m, p, row) && row.mode == RedisMode
    case PayUpdate(row) => Read(m, p, row) && (row.mode == RedisMode ==> FateIs(m, p, Paid))
    case PayReread(row) =>
      && Read(m, p, row)
      && m.ledger[p.uid].status != PendingPayment
      && (row.mode == RedisMode ==> FateIs(m, p, Paid) && m.ledger[p.uid].status == Paid)
    case _ => true
  }

  predicate CreateFacts(m: Stores, p: Proc, at: CreatePc) {
    match at
    case CreateReadAdmission => true
    case CreateRun(seen) => Known(m, p) && Reaches(seen, m.fate[(p.uid, p.id)].state)
    case CreateInsert(seen) => Known(m, p) && Reaches(seen, m.fate[(p.uid, p.id)].state)
    case CreateFind(seen) => Known(m, p) && Reaches(seen, m.fate[(p.uid, p.id)].state)
    case CreatePaidUpdate(row) => Read(m, p, row) && FateIs(m, p, Paid) && row.mode == RedisMode
    case CreatePaidReread(row) => Read(m, p, row) && FateIs(m, p, Paid) && m.ledger[p.uid].status == Paid
    case CreateMark => Known(m, p)
    case CreateReread => Known(m, p)
  }

  /** Pay only cancels an order whose row it has read. */
  predicate CancelFacts(m: Stores, p: Proc, at: CancelPc) {
    match at
    case CancelFind => p.job == PayJob ==> RowOfIdentity(m, p) && m.ledger[p.uid].gift == p.gid
    case CancelMySQL(row) => Read(m, p, row) && row.mode == MySQLMode
    case CancelMySQLReread(row) => Read(m, p, row) && row.mode == MySQLMode
    case CancelRelease(found) => FoundRow(m, p, found)
    case CancelReadAdmission(found) => FoundRow(m, p, found)
  }

  predicate FoundRow(m: Stores, p: Proc, found: Option<Row>) {
    && (p.job == PayJob ==> found.Some?)
    && (found.Some? ==> Read(m, p, found.value) && found.value.mode == RedisMode)
  }

  predicate RecordFacts(m: Stores, p: Proc, at: RecordPc) {
    && FateIs(m, p, Cancelled)
    && match at {
         case RecordUpdate(again) => again ==> RowOfIdentity(m, p)
         case RecordFind(again) =>
           && (again ==> RowOfIdentity(m, p))
           && (p.job == TimeoutJob && p.id.order != "" && RowOfIdentity(m, p) ==> m.ledger[p.uid].status != PendingPayment)
         case RecordFixReleased(row) => Read(m, p, row) && row.status == Cancelled && row.mode == RedisMode
         case _ => true
       }
  }

  /** What a positive reply certifies. */
  predicate ReplyFacts(m: Stores, p: Proc, reply: Reply) {
    reply == Ok ==>
      match p.job
      case PayJob => Ended(m, p.uid, p.id, Paid)
      case GiveUpJob => Ended(m, p.uid, p.id, Cancelled)
      case TimeoutJob => Settled(m, p.uid, p.id)
      case _ => true
  }

  predicate PointOk(m: Stores, p: Proc) {
    match p.pc
    case InDraw(at) => DrawFacts(m, p, at)
    case InPay(at) => PayFacts(m, p, at)
    case InTimeout(_) => true
    case InCreate(at) => CreateFacts(m, p, at)
    case InCancel(at) => CancelFacts(m, p, at)
    case InRecord(at) => RecordFacts(m, p, at)
    case Done(reply) => ReplyFacts(m, p, reply)
  }

  predicate RowOfIdentity(m: Stores, p: Proc) {
    p.uid in m.ledger && m.ledger[p.uid].id == p.id
  }

  predicate ProcOk(m: Stores, p: Proc) {
    JobFits(p.job, p.pc) && OriginOk(m, p) && PointOk(m, p)
  }

  // ---------------------------------------------------------------- each store update keeps the invariant

  lemma NothingChanges(m: Stores, key: (int, Identity))
    requires Coherent(m)
    ensures Keeps(m, m, key) && NoNewPending(m, m)
  {
  }

  /** A script moved the state of an existing admission along a legal edge. */
  lemma AdmissionMoves(m: Stores, uid: int, r: Redis)
    requires Coherent(m)
    requires uid in m.redis.admissions && uid in r.admissions && r.run == m.redis.run
    requires r.admissions - {uid} == m.redis.admissions - {uid}
    requires FateAdvances(m.redis.admissions[uid], r.admissions[uid])
    requires !Terminal(m.redis.admissions[uid].state)
    ensures Keeps(m, WithRedis(m, uid, r), (uid, r.admissions[uid].id)) && NoNewPending(m, WithRedis(m, uid, r))
  {
    var n := WithRedis(m, uid, r);
    var key := (uid, r.admissions[uid].id);
    assert n.fate[key] == r.admissions[uid];
    forall u | u in n.redis.admissions
      ensures AdmissionRecorded(n, u) && u in m.redis.admissions && m.redis.admissions[u].id == n.redis.admissions[u].id
    {
      if u != uid {
        assert u in r.admissions - {uid};
        assert AdmissionRecorded(m, u);
      }
    }
    assert AdmissionRecorded(m, uid) && FateOk(m, key);
    forall k | k in n.fate
      ensures FateOk(n, k)
    {
      assert k in m.fate && FateOk(m, k);
    }
    forall u | u in n.ledger
      ensures RowOk(n, u)
    {
      assert RowOk(m, u);
    }
    forall msg | msg in n.sent
      ensures MessageOk(n, msg)
    {
      assert MessageOk(m, msg);
    }
  }

  lemma AdmissionGranted(m: Stores, uid: int, gid: int, id: Identity)
    requires Coherent(m)
    requires id.order != "" && (uid, id) !in m.fate
    requires Acquire(m.redis, uid, gid, id).1 == Acquired
    ensures
      var n := WithRedis(m, uid, Acquire(m.redis, uid, gid, id).0);
      && Keeps(m, n, (uid, id)) && NoNewPending(m, n)
      && (uid, id) in n.fate && n.fate[(uid, id)].gift == gid
  {
    var r := Acquire(m.redis, uid, gid, id).0;
    var n := WithRedis(m, uid, r);
    forall u | u in n.redis.admissions
      ensures AdmissionRecorded(n, u)
    {
      if u != uid {
        assert AdmissionRecorded(m, u);
      }
    }
    forall k | k in n.fate
      ensures FateOk(n, k)
    {
      if k != (uid, id) {
        assert FateOk(m, k);
      }
    }
    forall u | u in n.ledger
      ensures RowOk(n, u)
    {
      assert RowOk(m, u);
    }
    forall msg | msg in n.sent
      ensures MessageOk(n, msg)
    {
      assert MessageOk(m, msg);
    }
  }

  /** A row changed to one that the invariant allows, or a fresh one was inserted. */
  lemma RowWritten(m: Stores, n: Stores, uid: int, key: (int, Identity))
    requires Coherent(m)
    requires n.redis == m.redis && n.fate == m.fate && n.sent == m.sent
    requires m.nextKey <= n.nextKey && uid in n.ledger
    requires n.ledger - {uid} == m.ledger - {uid}
    requires uid in m.ledger ==> SameRow(m.ledger[uid], n.ledger[uid])
    requires RowOk(n, uid)
    ensures Keeps(m, n, key)
    ensures uid in m.ledger || n.ledger[uid].status == Cancelled || n.ledger[uid].mode == MySQLMode ==> NoNewPending(m, n)
  {
    forall u | u in n.ledger
      ensures RowOk(n, u) && (u != uid ==> u in m.ledger && n.ledger[u] == m.ledger[u])
    {
      if u != uid {
        assert u in n.ledger - {uid};
        assert RowOk(m, u);
      }
    }
    forall u | u in m.ledger
      ensures u in n.ledger && SameRow(m.ledger[u], n.ledger[u])
    {
      if u != uid {
        assert u in m.ledger - {uid};
      }
    }
    forall u | u in n.redis.admissions
      ensures AdmissionRecorded(n, u)
    {
      assert AdmissionRecorded(m, u);
    }
    forall k | k in n.fate
      ensures FateOk(n, k)
    {
      assert FateOk(m, k);
    }
    forall msg | msg in n.sent
      ensures MessageOk(n, msg)
    {
      assert MessageOk(m, msg);
    }
  }

  lemma MessageSent(m: Stores, msg: Message)
    requires Coherent(m)
    requires MessageOk(Send(m, msg), msg)
    ensures Keeps(m, Send(m, msg), (msg.uid, msg.id)) && NoNewPending(m, Send(m, msg))
  {
    var n := Send(m, msg);
    forall u | u in n.redis.admissions
      ensures AdmissionRecorded(n, u)
    {
      assert AdmissionRecorded(m, u);
    }
    forall k | k in n.fate
      ensures FateOk(n, k)
    {
      assert FateOk(m, k);
    }
    forall u | u in n.ledger
      ensures RowOk(n, u)
    {
      assert RowOk(m, u);
    }
    forall x | x in n.sent
      ensures MessageOk(n, x)
    {
      if x != msg {
        assert MessageOk(m, x);
      }
    }
  }
}
