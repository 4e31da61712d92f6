/** Every step of every program keeps the store invariant, honours the guarantee, and lands the
    program at a point whose facts hold; and those facts survive the steps of everybody else. */
module OrderGuarantees {
  import opened Common
  import opened AdmissionScripts
  import opened OrderPrograms
  import opened OrderInvariants

  function KeyOf(p: Proc): (int, Identity) {
    (p.uid, p.id)
  }

  /** A Draw that has not yet spent its identity. */
  predicate PreAdmission(p: Proc) {
    p.pc == InDraw(DrawHasOrder) || p.pc == InDraw(DrawAcquire)
  }

  /** The combined claim about one step of program `p`. */
  predicate StepOk(m: Stores, p: Proc, n: Stores, q: Proc) {
    && Keeps(m, n, KeyOf(p))
    && ProcOk(n, q)
    && q.job == p.job && q.uid == p.uid && q.id == p.id
    && (p.job != CreateJob ==> NoNewPending(m, n))
    && (KeyOf(p) !in m.fate && KeyOf(p) in n.fate ==>
          p.job == DrawJob && PreAdmission(p) && !PreAdmission(q) && m.redis.run == Some(p.id.run))
    && (PreAdmission(q) ==> PreAdmission(p))
  }

  /** A step that leaves the stores alone only has to establish its new facts. */
  lemma QuietStep(m: Stores, p: Proc, q: Proc)
    requires Coherent(m) && ProcOk(m, q) && (PreAdmission(q) ==> PreAdmission(p))
    requires q.job == p.job && q.uid == p.uid && q.id == p.id
    ensures StepOk(m, p, m, q)
  {
    NothingChanges(m, KeyOf(p));
  }

  lemma DrawKeeps(m: Stores, p: Proc, at: DrawPc, c: Choice)
    requires Coherent(m) && ProcOk(m, p) && p.pc == InDraw(at)
    ensures StepOk(m, p, DrawStep(m, p, at, c).0, DrawStep(m, p, at, c).1)
  {
    match at {
      case DrawHasOrder => QuietStep(m, p, DrawStep(m, p, at, c).1);
      case DrawAcquire => DrawAcquireKeeps(m, p, c);
      case DrawLookup => QuietStep(m, p, DrawStep(m, p, at, c).1);
      case DrawSendCancel => DrawSendKeeps(m, p, at, CancelOrder(p.uid, p.gid, p.id), c);
      case DrawSendCreate => DrawSendKeeps(m, p, at, CreateOrder(p.uid, p.gid, p.id), c);
      case DrawRollback => DrawRollbackKeeps(m, p, c);
    }
  }

  lemma DrawAcquireKeeps(m: Stores, p: Proc, c: Choice)
    requires Coherent(m) && ProcOk(m, p) && p.pc == InDraw(DrawAcquire)
    ensures StepOk(m, p, DrawStep(m, p, DrawAcquire, c).0, DrawStep(m, p, DrawAcquire, c).1)
  {
    if c.flag || c.fault == LostBefore || Acquire(m.redis, p.uid, c.gift, p.id).1 != Acquired {
      QuietStep(m, p, DrawStep(m, p, DrawAcquire, c).1);
    } else {
      AdmissionGranted(m, p.uid, c.gift, p.id);
    }
  }

  lemma DrawSendKeeps(m: Stores, p: Proc, at: DrawPc, msg: Message, c: Choice)
    requires Coherent(m) && ProcOk(m, p) && p.pc == InDraw(at)
    requires
      || (at == DrawSendCancel && msg == CancelOrder(p.uid, p.gid, p.id))
      || (at == DrawSendCreate && msg == CreateOrder(p.uid, p.gid, p.id))
    ensures StepOk(m, p, DrawStep(m, p, at, c).0, DrawStep(m, p, at, c).1)
  {
    NothingChanges(m, KeyOf(p));
    MessageSent(m, msg);
  }

  lemma DrawRollbackKeeps(m: Stores, p: Proc, c: Choice)
    requires Coherent(m) && ProcOk(m, p) && p.pc == InDraw(DrawRollback)
    ensures StepOk(m, p, DrawStep(m, p, DrawRollback, c).0, DrawStep(m, p, DrawRollback, c).1)
  {
    NothingChanges(m, KeyOf(p));
    ReleaseKeeps(m, p);
  }

  /** A first release is recorded as the identity's verdict. */
  lemma ReleaseKeeps(m: Stores, p: Proc)
    requires Coherent(m)
    ensures
      var (r, verdict) := Release(m.redis, p.uid, p.gid, p.id);
      verdict == Moved ==>
        var n := WithRedis(m, p.uid, r);
        Keeps(m, n, KeyOf(p)) && NoNewPending(m, n) && FateIs(n, p, Cancelled) && KeyOf(p) in m.fate
  {
    var (r, verdict) := Release(m.redis, p.uid, p.gid, p.id);
    if verdict == Moved {
      assert AdmissionRecorded(m, p.uid);
      assert r.admissions - {p.uid} == m.redis.admissions - {p.uid};
      AdmissionMoves(m, p.uid, r);
    }
  }

  lemma ReadsRow(m: Stores, p: Proc)
    requires Coherent(m)
    requires Find(m.ledger, p.uid, p.id).Some?
    ensures
      var row := Find(m.ledger, p.uid, p.id).value;
      && row == m.ledger[p.uid] && row.id == p.id && RowOk(m, p.uid)
      && (row.gift == p.gid ==> Read(m, p, row))
      && (row.gift == p.gid && row.mode == RedisMode ==> Known(m, p))
      && (Terminal(row.status) ==> Ended(m, p.uid, p.id, row.status))
  {
    assert RowOk(m, p.uid);
  }

  lemma PayKeeps(m: Stores, p: Proc, at: PayPc, c: Choice)
    requires Coherent(m) && ProcOk(m, p) && p.pc == InPay(at)
    ensures StepOk(m, p, PayStep(m, p, at, c).0, PayStep(m, p, at, c).1)
  {
    match at {
      case PayFind => PayFindKeeps(m, p, c);
      case PayClaim(row) => PayClaimKeeps(m, p, row, c);
      case PayUpdate(row) => PayUpdateKeeps(m, p, row, c);
      case _ => QuietStep(m, p, PayStep(m, p, at, c).1);
    }
  }

  lemma PayFindKeeps(m: Stores, p: Proc, c: Choice)
    requires Coherent(m) && ProcOk(m, p) && p.pc == InPay(PayFind)
    ensures StepOk(m, p, PayStep(m, p, PayFind, c).0, PayStep(m, p, PayFind, c).1)
  {
    if Find(m.ledger, p.uid, p.id).Some? {
      ReadsRow(m, p);
    }
    QuietStep(m, p, PayStep(m, p, PayFind, c).1);
  }

  lemma PayUpdateKeeps(m: Stores, p: Proc, row: Row, c: Choice)
    requires Coherent(m) && ProcOk(m, p) && p.pc == InPay(PayUpdate(row))
    ensures StepOk(m, p, PayStep(m, p, PayUpdate(row), c).0, PayStep(m, p, PayUpdate(row), c).1)
  {
    NothingChanges(m, KeyOf(p));
    PayRowKeeps(m, p, row);
  }

  lemma PayClaimKeeps(m: Stores, p: Proc, row: Row, c: Choice)
    requires Coherent(m) && ProcOk(m, p) && p.pc == InPay(PayClaim(row))
    ensures StepOk(m, p, PayStep(m, p, PayClaim(row), c).0, PayStep(m, p, PayClaim(row), c).1)
  {
    var (r, verdict) := Claim(m.redis, p.uid, p.gid, p.id);
    if verdict != Refused {
      assert AdmissionRecorded(m, p.uid);
    }
    if c.fault == LostBefore || verdict != Moved {
      QuietStep(m, p, PayStep(m, p, PayClaim(row), c).1);
    } else {
      assert r.admissions - {p.uid} == m.redis.admissions - {p.uid};
      AdmissionMoves(m, p.uid, r);
    }
  }

  lemma PayRowKeeps(m: Stores, p: Proc, row: Row)
    requires Coherent(m) && Read(m, p, row)
    requires row.mode == RedisMode ==> FateIs(m, p, Paid)
    ensures
      var n := PayRow(m, p.uid, row.key);
      && Keeps(m, n, KeyOf(p)) && NoNewPending(m, n) && Read(n, p, row)
      && n.ledger[p.uid].status != PendingPayment
      && (row.mode == RedisMode ==> FateIs(n, p, Paid) && n.ledger[p.uid].status == Paid)
  {
    NothingChanges(m, KeyOf(p));
    assert RowOk(m, p.uid);
    var n := PayRow(m, p.uid, row.key);
    if m.ledger[p.uid].status == PendingPayment {
      assert n.ledger - {p.uid} == m.ledger - {p.uid};
      assert RowOk(n, p.uid);
      RowWritten(m, n, p.uid, KeyOf(p));
    }
  }

  lemma TimeoutKeeps(m: Stores, p: Proc, at: TimeoutPc, c: Choice)
    requires Coherent(m) && ProcOk(m, p) && p.pc == InTimeout(at)
    ensures StepOk(m, p, TimeoutStep(m, p, at, c).0, TimeoutStep(m, p, at, c).1)
  {
    NoMatchIsSettled(m, p);
    QuietStep(m, p, TimeoutStep(m, p, at, c).1);
  }

  /** For the message of a granted admission, "does not match" can only mean "gone". */
  lemma NoMatchIsSettled(m: Stores, p: Proc)
    requires Coherent(m)
    requires p.id.order != "" ==> CancelOrder(p.uid, p.gid, p.id) in m.sent
    ensures !Matches(m.redis, p.uid, p.gid, p.id) ==> Settled(m, p.uid, p.id)
    ensures p.id.order != "" ==> Known(m, p)
  {
    if p.id.order != "" {
      assert MessageOk(m, CancelOrder(p.uid, p.gid, p.id));
      if p.uid in m.redis.admissions {
        assert AdmissionRecorded(m, p.uid);
      }
    }
  }

  lemma CreateKeeps(m: Stores, p: Proc, at: CreatePc, c: Choice)
    requires Coherent(m) && ProcOk(m, p) && p.pc == InCreate(at)
    ensures StepOk(m, p, CreateStep(m, p, at, c).0, CreateStep(m, p, at, c).1)
  {
    match at {
      case CreateInsert(seen) => CreateInsertKeeps(m, p, seen, c);
      case CreateFind(seen) => CreateFindKeeps(m, p, seen, c);
      case CreatePaidUpdate(row) => CreatePaidUpdateKeeps(m, p, row, c);
      case CreateMark => CreateMarkKeeps(m, p, c);
      case _ => CreateReadKeeps(m, p, at, c);
    }
  }

  lemma CreateInsertKeeps(m: Stores, p: Proc, seen: Status, c: Choice)
    requires Coherent(m) && ProcOk(m, p) && p.pc == InCreate(CreateInsert(seen))
    ensures StepOk(m, p, CreateStep(m, p, CreateInsert(seen), c).0, CreateStep(m, p, CreateInsert(seen), c).1)
  {
    if c.fault == LostBefore || InsertConflicts(m.ledger, p.uid, p.id) {
      QuietStep(m, p, CreateStep(m, p, CreateInsert(seen), c).1);
    } else {
      PendingRowInserted(m, p);
    }
  }

  lemma CreateReadKeeps(m: Stores, p: Proc, at: CreatePc, c: Choice)
    requires Coherent(m) && ProcOk(m, p) && p.pc == InCreate(at)
    requires at.CreateReadAdmission? || at.CreateRun? || at.CreatePaidReread? || at.CreateReread?
    ensures StepOk(m, p, CreateStep(m, p, at, c).0, CreateStep(m, p, at, c).1)
  {
    if Matches(m.redis, p.uid, p.gid, p.id) {
      assert AdmissionRecorded(m, p.uid);
    }
    QuietStep(m, p, CreateStep(m, p, at, c).1);
  }

  lemma CreateFindKeeps(m: Stores, p: Proc, seen: Status, c: Choice)
    requires Coherent(m) && ProcOk(m, p) && p.pc == InCreate(CreateFind(seen))
    ensures StepOk(m, p, CreateStep(m, p, CreateFind(seen), c).0, CreateStep(m, p, CreateFind(seen), c).1)
  {
    if Find(m.ledger, p.uid, p.id).Some? {
      ReadsRow(m, p);
    }
    QuietStep(m, p, CreateStep(m, p, CreateFind(seen), c).1);
  }

  lemma CreatePaidUpdateKeeps(m: Stores, p: Proc, row: Row, c: Choice)
    requires Coherent(m) && ProcOk(m, p) && p.pc == InCreate(CreatePaidUpdate(row))
    ensures StepOk(m, p, CreateStep(m, p, CreatePaidUpdate(row), c).0, CreateStep(m, p, CreatePaidUpdate(row), c).1)
  {
    NothingChanges(m, KeyOf(p));
    PayRowKeeps(m, p, row);
  }

  lemma CreateMarkKeeps(m: Stores, p: Proc, c: Choice)
    requires Coherent(m) && ProcOk(m, p) && p.pc == InCreate(CreateMark)
    ensures StepOk(m, p, CreateStep(m, p, CreateMark, c).0, CreateStep(m, p, CreateMark, c).1)
  {
    var (r, verdict) := MarkPending(m.redis, p.uid, p.gid, p.id);
    if c.fault == LostBefore || verdict != Moved {
      QuietStep(m, p, CreateStep(m, p, CreateMark, c).1);
    } else {
      assert AdmissionRecorded(m, p.uid);
      assert r.admissions - {p.uid} == m.redis.admissions - {p.uid};
      AdmissionMoves(m, p.uid, r);
    }
  }

  lemma PendingRowInserted(m: Stores, p: Proc)
    requires Coherent(m) && Known(m, p) && p.uid !in m.ledger
    requires p.id.order != "" ==> CreateOrder(p.uid, p.gid, p.id) in m.sent
    ensures
      var n := Insert(m, p.uid, p.gid, p.id, PendingPayment, RedisMode);
      Keeps(m, n, KeyOf(p)) && Known(n, p) && Read(n, p, n.ledger[p.uid]) && n.fate == m.fate
  {
    var n := Insert(m, p.uid, p.gid, p.id, PendingPayment, RedisMode);
    assert FateOk(m, KeyOf(p));
    assert n.ledger - {p.uid} == m.ledger - {p.uid};
    assert RowOk(n, p.uid);
    RowWritten(m, n, p.uid, KeyOf(p));
  }

  lemma CancelKeeps(m: Stores, p: Proc, at: CancelPc, c: Choice)
    requires Coherent(m) && ProcOk(m, p) && p.pc == InCancel(at)
    ensures StepOk(m, p, CancelStep(m, p, at, c).0, CancelStep(m, p, at, c).1)
  {
    match at {
      case CancelFind => CancelFindKeeps(m, p, c);
      case CancelMySQL(row) => CancelMySQLKeeps(m, p, row, c);
      case CancelMySQLReread(row) =>
        assert RowOk(m, p.uid);
        QuietStep(m, p, CancelStep(m, p, at, c).1);
      case CancelRelease(found) => CancelReleaseKeeps(m, p, found, c);
      case CancelReadAdmission(found) => CancelReadAdmissionKeeps(m, p, found, c);
    }
  }

  lemma CancelFindKeeps(m: Stores, p: Proc, c: Choice)
    requires Coherent(m) && ProcOk(m, p) && p.pc == InCancel(CancelFind)
    ensures StepOk(m, p, CancelStep(m, p, CancelFind, c).0, CancelStep(m, p, CancelFind, c).1)
  {
    if p.job == TimeoutJob {
      NoMatchIsSettled(m, p);
    }
    if Find(m.ledger, p.uid, p.id).Some? {
      ReadsRow(m, p);
    }
    QuietStep(m, p, CancelStep(m, p, CancelFind, c).1);
  }

  lemma CancelMySQLKeeps(m: Stores, p: Proc, row: Row, c: Choice)
    requires Coherent(m) && ProcOk(m, p) && p.pc == InCancel(CancelMySQL(row))
    ensures StepOk(m, p, CancelStep(m, p, CancelMySQL(row), c).0, CancelStep(m, p, CancelMySQL(row), c).1)
  {
    NothingChanges(m, KeyOf(p));
    assert RowOk(m, p.uid);
    if MySQLCancels(m, p.uid, row.key) {
      var n := CancelMySQLRow(m, p.uid, row.key);
      assert n.ledger - {p.uid} == m.ledger - {p.uid};
      assert RowOk(n, p.uid);
      RowWritten(m, n, p.uid, KeyOf(p));
    }
  }

  lemma CancelReleaseKeeps(m: Stores, p: Proc, found: Option<Row>, c: Choice)
    requires Coherent(m) && ProcOk(m, p) && p.pc == InCancel(CancelRelease(found))
    ensures StepOk(m, p, CancelStep(m, p, CancelRelease(found), c).0, CancelStep(m, p, CancelRelease(found), c).1)
  {
    var (n, q) := CancelStep(m, p, CancelRelease(found), c);
    assert n.ledger == m.ledger;
    assert ProcOk(n, q);
    if c.fault == LostBefore || Release(m.redis, p.uid, p.gid, p.id).1 != Moved {
      QuietStep(m, p, q);
    } else {
      ReleaseKeeps(m, p);
    }
  }

  /** Whichever operation called the shared routine, its reply is certified by what the routine
      found: a verdict on the identity and, for the timeout consumer, a settled identity. */
  lemma ReturnIsCertified(m: Stores, p: Proc, outcome: Reply)
    requires OriginOk(m, p) && (p.pc.InCancel? || p.pc.InRecord?)
    requires outcome == Ok && p.job == GiveUpJob ==> Ended(m, p.uid, p.id, Cancelled)
    requires outcome == Fail(AlreadyPaid) && p.job == PayJob ==> Ended(m, p.uid, p.id, Paid)
    requires p.job == TimeoutJob
      && (outcome == Ok || outcome == Fail(AlreadyPaid) || outcome == Fail(OrderCancelled) || outcome == Fail(NotOwned))
      ==> Settled(m, p.uid, p.id)
    ensures ProcOk(m, Return(p, outcome))
  {
  }

  lemma CancelReadAdmissionKeeps(m: Stores, p: Proc, found: Option<Row>, c: Choice)
    requires Coherent(m) && ProcOk(m, p) && p.pc == InCancel(CancelReadAdmission(found))
    ensures StepOk(m, p, CancelStep(m, p, CancelReadAdmission(found), c).0, CancelStep(m, p, CancelReadAdmission(found), c).1)
  {
    var q := CancelStep(m, p, CancelReadAdmission(found), c).1;
    if c.fault != NoFault {
      ReturnIsCertified(m, p, Fail(RollbackFailed));
    } else if Matches(m.redis, p.uid, p.gid, p.id) {
      assert AdmissionRecorded(m, p.uid);
      if m.redis.admissions[p.uid].state == Paid {
        ReturnIsCertified(m, p, Fail(AlreadyPaid));
      } else if m.redis.admissions[p.uid].state != Cancelled {
        ReturnIsCertified(m, p, Fail(StateConflict));
      }
    } else {
      if p.job == TimeoutJob {
        NoMatchIsSettled(m, p);
      }
      if found.Some? {
        assert RowOk(m, p.uid);
      }
    }
    QuietStep(m, p, q);
  }

  lemma RecordKeeps(m: Stores, p: Proc, at: RecordPc, c: Choice)
    requires Coherent(m) && ProcOk(m, p) && p.pc == InRecord(at)
    ensures StepOk(m, p, RecordStep(m, p, at, c).0, RecordStep(m, p, at, c).1)
  {
    match at {
      case RecordUpdate(again) => RecordUpdateKeeps(m, p, again, c);
      case RecordFind(again) => RecordFindKeeps(m, p, again, c);
      case RecordFixReleased(row) => RecordFixKeeps(m, p, row, c);
      case RecordInsert => RecordInsertKeeps(m, p, c);
      case RecordFindDuplicate =>
        if Find(m.ledger, p.uid, p.id).Some? {
          ReadsRow(m, p);
        }
        QuietStep(m, p, RecordStep(m, p, at, c).1);
    }
  }

  /** A cancelled verdict together with a released ledger row settles the identity. */
  lemma ReleasedRowSettles(m: Stores, p: Proc)
    requires Coherent(m) && FateIs(m, p, Cancelled)
    requires RowReleased(m, p.uid, p.id)
    ensures Settled(m, p.uid, p.id)
  {
    if p.uid in m.redis.admissions {
      assert AdmissionRecorded(m, p.uid);
    }
  }

  lemma RecordUpdateKeeps(m: Stores, p: Proc, again: bool, c: Choice)
    requires Coherent(m) && ProcOk(m, p) && p.pc == InRecord(RecordUpdate(again))
    ensures StepOk(m, p, RecordStep(m, p, RecordUpdate(again), c).0, RecordStep(m, p, RecordUpdate(again), c).1)
  {
    if c.fault != LostBefore && Cancellable(m, p.uid, p.gid, p.id) {
      RowCancelled(m, p);
      ReleasedRowSettles(CancelRow(m, p.uid), p);
    } else {
      if c.fault != NoFault {
        ReturnIsCertified(m, p, Fail(RollbackFailed));
      } else if p.uid in m.ledger {
        assert RowOk(m, p.uid);
      }
      QuietStep(m, p, RecordStep(m, p, RecordUpdate(again), c).1);
    }
  }

  lemma RecordFindKeeps(m: Stores, p: Proc, again: bool, c: Choice)
    requires Coherent(m) && ProcOk(m, p) && p.pc == InRecord(RecordFind(again))
    ensures StepOk(m, p, RecordStep(m, p, RecordFind(again), c).0, RecordStep(m, p, RecordFind(again), c).1)
  {
    var found := Find(m.ledger, p.uid, p.id);
    if c.fault != NoFault {
      ReturnIsCertified(m, p, Fail(RollbackFailed));
    } else if found.Some? {
      ReadsRow(m, p);
      if found.value.gift != p.gid || found.value.mode != RedisMode || found.value.status == Paid {
        ReturnIsCertified(m, p, Fail(RollbackFailed));
      } else if found.value.status != Cancelled || found.value.released {
        if RowReleased(m, p.uid, p.id) {
          ReleasedRowSettles(m, p);
        }
        ReturnIsCertified(m, p, Ok);
      }
    }
    QuietStep(m, p, RecordStep(m, p, RecordFind(again), c).1);
  }

  lemma RecordFixKeeps(m: Stores, p: Proc, row: Row, c: Choice)
    requires Coherent(m) && ProcOk(m, p) && p.pc == InRecord(RecordFixReleased(row))
    ensures StepOk(m, p, RecordStep(m, p, RecordFixReleased(row), c).0, RecordStep(m, p, RecordFixReleased(row), c).1)
  {
    if c.fault == LostBefore {
      QuietStep(m, p, RecordStep(m, p, RecordFixReleased(row), c).1);
    } else {
      RowCancelled(m, p);
      ReleasedRowSettles(CancelRow(m, p.uid), p);
    }
  }

  lemma RecordInsertKeeps(m: Stores, p: Proc, c: Choice)
    requires Coherent(m) && ProcOk(m, p) && p.pc == InRecord(RecordInsert)
    ensures StepOk(m, p, RecordStep(m, p, RecordInsert, c).0, RecordStep(m, p, RecordInsert, c).1)
  {
    if c.fault == LostBefore || InsertConflicts(m.ledger, p.uid, p.id) {
      QuietStep(m, p, RecordStep(m, p, RecordInsert, c).1);
    } else {
      CancelledRowInserted(m, p);
    }
  }

  lemma CancelledRowInserted(m: Stores, p: Proc)
    requires Coherent(m) && FateIs(m, p, Cancelled) && p.uid !in m.ledger
    ensures
      var n := Insert(m, p.uid, p.gid, p.id, Cancelled, RedisMode);
      && Keeps(m, n, KeyOf(p)) && NoNewPending(m, n) && FateIs(n, p, Cancelled) && n.fate == m.fate
      && Settled(n, p.uid, p.id) && n.sent == m.sent
  {
    var n := Insert(m, p.uid, p.gid, p.id, Cancelled, RedisMode);
    assert FateOk(m, KeyOf(p));
    assert n.ledger - {p.uid} == m.ledger - {p.uid};
    assert RowOk(n, p.uid);
    RowWritten(m, n, p.uid, KeyOf(p));
    ReleasedRowSettles(n, p);
  }

  /** Writing a Redis verdict of cancellation into the ledger row of the same identity. */
  lemma RowCancelled(m: Stores, p: Proc)
    requires Coherent(m) && FateIs(m, p, Cancelled)
    requires RowOfIdentity(m, p) && m.ledger[p.uid].gift == p.gid
    requires m.ledger[p.uid].status != Paid
    ensures
      var n := CancelRow(m, p.uid);
      Keeps(m, n, KeyOf(p)) && NoNewPending(m, n) && RowReleased(n, p.uid, p.id)
  {
    assert RowOk(m, p.uid) && FateOk(m, KeyOf(p));
    var n := CancelRow(m, p.uid);
    assert n.ledger - {p.uid} == m.ledger - {p.uid};
    assert RowOk(n, p.uid);
    RowWritten(m, n, p.uid, KeyOf(p));
  }

  lemma StepKeeps(m: Stores, p: Proc, c: Choice)
    requires Coherent(m) && ProcOk(m, p)
    ensures StepOk(m, p, ProcStep(m, p, c).0, ProcStep(m, p, c).1)
  {
    NothingChanges(m, KeyOf(p));
    if p.pc.InDraw? {
      DrawKeeps(m, p, p.pc.draw, c);
    } else if p.pc.InPay? {
      PayKeeps(m, p, p.pc.pay, c);
    } else if p.pc.InTimeout? {
      TimeoutKeeps(m, p, p.pc.timeout, c);
    } else if p.pc.InCreate? {
      CreateKeeps(m, p, p.pc.create, c);
    } else if p.pc.InCancel? {
      CancelKeeps(m, p, p.pc.cancel, c);
    } else if p.pc.InRecord? {
      RecordKeeps(m, p, p.pc.record, c);
    }
  }

  /** What a program knows survives any step that honours the guarantee, provided the step did not
      spend the program's fresh identity and, for the timeout consumer, added no pending row. */
  lemma FactsAreStable(m: Stores, n: Stores, key: (int, Identity), p: Proc)
    requires Coherent(m) && ProcOk(m, p)
    requires Keeps(m, n, key)
    requires PreAdmission(p) ==> KeyOf(p) !in n.fate
    requires p.job == TimeoutJob ==> NoNewPending(m, n)
    ensures ProcOk(n, p)
  {
    if KeyOf(p) in m.fate {
      assert KeyOf(p) in n.fate && FateAdvances(m.fate[KeyOf(p)], n.fate[KeyOf(p)]);
    }
    if p.uid in m.ledger {
      assert p.uid in n.ledger && SameRow(m.ledger[p.uid], n.ledger[p.uid]);
    }
    if p.uid in n.ledger {
      assert RowOk(n, p.uid);
    }
    if p.job == TimeoutJob && p.pc == Done(Ok) {
      NoMatchIsSettled(m, p);
      SettledIsStable(m, n, key, p.uid, p.id);
    }
  }

  lemma SettledIsStable(m: Stores, n: Stores, key: (int, Identity), uid: int, id: Identity)
    requires Coherent(m) && Keeps(m, n, key)
    requires Settled(m, uid, id) && (id.order != "" ==> (uid, id) in m.fate)
    ensures Settled(n, uid, id)
  {
    if uid in n.redis.admissions && n.redis.admissions[uid].id == id && id.order != "" {
      assert AdmissionRecorded(m, uid) && AdmissionRecorded(n, uid);
      assert FateAdvances(m.fate[(uid, id)], n.fate[(uid, id)]);
      if uid in m.ledger {
        assert SameRow(m.ledger[uid], n.ledger[uid]);
      }
    }
  }
}
