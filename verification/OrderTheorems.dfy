/** What the order protocol promises, over every run: any interleaving of requests, messages,
    redelivery, crashes, lost replies, expiry, resets and recovery, from any good world. */
module OrderTheorems {
  import opened Common
  import opened AdmissionScripts
  import opened OrderPrograms
  import opened OrderInvariants
  import opened OrderGuarantees
  import opened OrderRuns

  // ---------------------------------------------------------------- agreement of the stores

  /** A terminal Redis-mode row has exactly the verdict of its admission, whether the key is still
      there or has expired. */
  predicate StoresAgree(m: Stores, uid: int) {
    uid in m.ledger && m.ledger[uid].mode == RedisMode ==>
      var row := m.ledger[uid];
      && (uid, row.id) in m.fate
      && (Terminal(row.status) ==> m.fate[(uid, row.id)].state == row.status)
      && (uid in m.redis.admissions && m.redis.admissions[uid].id == row.id ==>
            && m.redis.admissions[uid].gift == row.gift
            && (row.status == Cancelled ==> m.redis.admissions[uid].state == Cancelled)
            && (row.status == Paid ==> m.redis.admissions[uid].state == Paid))
  }

  /** For one identity Redis and MySQL never hold opposite verdicts. */
  lemma StoresNeverContradict(w: World, acts: seq<Action>, uid: int)
    requires Good(w)
    ensures StoresAgree(Run(w, acts).m, uid)
  {
    RunIsGood(w, acts);
    var m := Run(w, acts).m;
    if uid in m.ledger && m.ledger[uid].mode == RedisMode {
      assert RowOk(m, uid);
      if uid in m.redis.admissions {
        assert AdmissionRecorded(m, uid);
      }
    }
  }

  /** The admission of the current run is cancelled, but its ledger row is still pending. */
  predicate OwesCancellation(m: Stores, uid: int) {
    && uid in m.ledger && m.ledger[uid].mode == RedisMode && m.ledger[uid].status == PendingPayment
    && uid in m.redis.admissions && m.redis.admissions[uid].id == m.ledger[uid].id
    && m.redis.admissions[uid].state == Cancelled
    && m.ledger[uid].id.order != "" && m.redis.run == Some(m.ledger[uid].id.run)
  }

  predicate CancelIsUnacked(w: World, uid: int)
    requires uid in w.m.ledger
  {
    var cancel := CancelOrder(uid, w.m.ledger[uid].gift, w.m.ledger[uid].id);
    cancel in w.m.sent && cancel in w.unacked
  }

  /** While the ledger still owes a cancellation, the message that will write it is unacked. */
  lemma OwedCancellationIsUnacked(w: World, acts: seq<Action>, uid: int)
    requires Good(w)
    ensures OwesCancellation(Run(w, acts).m, uid) ==> CancelIsUnacked(Run(w, acts), uid)
  {
    RunIsGood(w, acts);
    var v := Run(w, acts);
    if OwesCancellation(v.m, uid) {
      var row := v.m.ledger[uid];
      assert RowOk(v.m, uid);
      assert MessageOk(v.m, CreateOrder(uid, row.gift, row.id));
      assert AckedIsSettled(v, CancelOrder(uid, row.gift, row.id));
    }
  }

  /** Once CANCEL_ORDER is acknowledged its identity is terminal in Redis and, when cancelled,
      cancelled and released in the ledger; and it stays so, however the run goes on. */
  lemma AckedMeansSettled(w: World, acts: seq<Action>, msg: Message)
    requires Good(w)
    ensures msg in Run(w, acts).m.sent ==> AckedIsSettled(Run(w, acts), msg)
  {
    RunIsGood(w, acts);
  }

  // ---------------------------------------------------------------- one verdict per identity, forever

  predicate Resets(a: Action) {
    a.Reset? || a.ResetFails?
  }

  /** History is never rewritten by anybody, and rows only disappear in a reset. */
  predicate Remembers(m: Stores, n: Stores) {
    forall k :: k in m.fate ==> k in n.fate && FateAdvances(m.fate[k], n.fate[k])
  }

  predicate RowsAdvance(m: Stores, n: Stores) {
    forall u :: u in m.ledger ==> u in n.ledger && SameRow(m.ledger[u], n.ledger[u])
  }

  lemma MoveRemembers(w: World, a: Action)
    requires Good(w) && (a.Move? || a.Consume?)
    ensures Remembers(w.m, Step(w, a).m) && RowsAdvance(w.m, Step(w, a).m)
  {
    if a.Move? && a.pid in w.http {
      assert HttpOk(w, a.pid);
      StepKeeps(w.m, w.http[a.pid], a.choice);
    } else if a.Consume? && w.consumer.Some? {
      StepKeeps(w.m, w.consumer.value, a.choice);
    }
  }

  lemma ResetRemembers(w: World, a: Action)
    requires Resets(a)
    ensures Step(w, a).m.fate == w.m.fate
  {
  }

  lemma StepRemembers(w: World, a: Action)
    requires Good(w)
    ensures Remembers(w.m, Step(w, a).m)
    ensures !Resets(a) ==> RowsAdvance(w.m, Step(w, a).m)
  {
    if a.Move? || a.Consume? {
      MoveRemembers(w, a);
    } else if Resets(a) {
      ResetRemembers(w, a);
    } else {
      assert Step(w, a).m.fate == w.m.fate;
    }
  }

  lemma EndedPersists(w: World, a: Action, uid: int, id: Identity, s: Status)
    requires Good(w) && Terminal(s) && Ended(w.m, uid, id, s)
    requires id.order != "" || !Resets(a)
    ensures Ended(Step(w, a).m, uid, id, s)
  {
    StepRemembers(w, a);
    if (uid, id) in w.m.fate {
      assert FateAdvances(w.m.fate[(uid, id)], Step(w, a).m.fate[(uid, id)]);
    }
    if uid in w.m.ledger {
      assert RowOk(w.m, uid);
    }
  }

  lemma {:induction false} EndedForever(w: World, acts: seq<Action>, uid: int, id: Identity, s: Status)
    requires Good(w) && Terminal(s) && Ended(w.m, uid, id, s)
    requires id.order != "" || forall a :: a in acts ==> !Resets(a)
    ensures Ended(Run(w, acts).m, uid, id, s)
    decreases acts
  {
    if acts == [] {
    } else {
      assert acts[0] in acts;
      EndedPersists(w, acts[0], uid, id, s);
      StepIsGood(w, acts[0]);
      EndedForever(Step(w, acts[0]), acts[1..], uid, id, s);
    }
  }

  lemma EndedOnce(m: Stores, uid: int, id: Identity)
    requires Coherent(m)
    ensures !(Ended(m, uid, id, Paid) && Ended(m, uid, id, Cancelled))
  {
    if uid in m.ledger {
      assert RowOk(m, uid);
      if (uid, id) in m.fate {
        assert FateOk(m, (uid, id));
      }
    }
  }

  /** An operation for this identity has returned success. */
  predicate Succeeded(w: World, pid: nat, job: Job, uid: int, id: Identity) {
    && pid in w.http && w.http[pid].job == job && w.http[pid].uid == uid && w.http[pid].id == id
    && w.http[pid].pc == Done(Ok)
  }

  /** Pay and GiveUp never both succeed for one identity, in whichever order and however far
      apart; for records without an order number the promise lasts until the next reset. */
  lemma PayAndGiveUpExclude(w: World, before: seq<Action>, between: seq<Action>,
                            uid: int, id: Identity, first: Job, i: nat, j: nat)
    requires Good(w)
    requires first == PayJob || first == GiveUpJob
    requires id.order != "" || forall a :: a in between ==> !Resets(a)
    requires Succeeded(Run(w, before), i, first, uid, id)
    ensures !Succeeded(Run(Run(w, before), between), j, if first == PayJob then GiveUpJob else PayJob, uid, id)
  {
    var v := Run(w, before);
    RunIsGood(w, before);
    RunIsGood(v, between);
    assert HttpOk(v, i);
    EndedForever(v, between, uid, id, if first == PayJob then Paid else Cancelled);
    var last := Run(v, between);
    EndedOnce(last.m, uid, id);
    if j in last.http {
      assert HttpOk(last, j);
    }
  }

  // ---------------------------------------------------------------- branches that never run

  predicate Running(w: World, p: Proc) {
    || (exists pid :: pid in w.http && w.http[pid] == p)
    || w.consumer == Some(p)
  }

  lemma RunningIsOk(w: World, acts: seq<Action>, p: Proc)
    requires Good(w) && Running(Run(w, acts), p)
    ensures Coherent(Run(w, acts).m) && ProcOk(Run(w, acts).m, p)
  {
    var v := Run(w, acts);
    RunIsGood(w, acts);
    if v.consumer != Some(p) {
      var pid :| pid in v.http && v.http[pid] == p;
      assert HttpOk(v, pid);
    }
  }

  /** After a successful claim, or a paid admission seen by the create handler, the ledger row
      really is paid: neither conflict branch after the re-read is ever taken. */
  lemma ClaimedOrderNeverConflicts(w: World, acts: seq<Action>, p: Proc, c: Choice)
    requires Good(w) && Running(Run(w, acts), p) && c.fault == NoFault
    ensures
      && p.pc.InPay? && p.pc.pay.PayReread? && p.pc.pay.row.mode == RedisMode ==>
        ProcStep(Run(w, acts).m, p, c).1.pc == Done(Ok)
    ensures
      && p.pc.InCreate? && p.pc.create.CreatePaidReread? ==>
        ProcStep(Run(w, acts).m, p, c).1.pc == Done(Ok)
  {
    RunningIsOk(w, acts, p);
  }

  /** The lookup of the cancellation record finds nothing, and then this is the first attempt; or the
      identity's own Redis-mode row, not paid, and succeeds; or, for an old record only, a row of the
      MySQL route, and gives up. */
  predicate RecordsWithoutConflict(m: Stores, p: Proc, c: Choice)
    requires p.pc.InRecord? && p.pc.record.RecordFind?
  {
    var next := ProcStep(m, p, c).1;
    match Find(m.ledger, p.uid, p.id)
    case None => !p.pc.record.again && next.pc == InRecord(RecordInsert)
    case Some(row) =>
      if row.mode == MySQLMode then p.id == ANONYMOUS && next == Return(p, Fail(RollbackFailed))
      else
        && row.gift == p.gid && row.status != Paid
        && next == if row.status == Cancelled && !row.released then Goto(p, InRecord(RecordFixReleased(row))) else Return(p, Ok)
  }

  /** A released cancellation meets no paid Redis-mode row and no other gift, a numbered one meets no
      MySQL-mode row either, and after the retry it always finds the row, so the recursion is at most
      one level deep. */
  lemma CancellationNeverConflicts(w: World, acts: seq<Action>, p: Proc, c: Choice)
    requires Good(w) && Running(Run(w, acts), p) && c.fault == NoFault
    requires p.pc.InRecord? && p.pc.record.RecordFind?
    ensures RecordsWithoutConflict(Run(w, acts).m, p, c)
  {
    var m := Run(w, acts).m;
    RunningIsOk(w, acts, p);
    assert p.uid in m.ledger ==> RowOk(m, p.uid);
    assert FateOk(m, (p.uid, p.id));
  }

  /** What the caller of a cancellation may conclude from success.  The record routine answers
      success for the row it just read; the ledger really is cancelled exactly when that row was
      not pending, which the message consumer's own handler never sees. */
  lemma SuccessMeansReleasedUnlessPending(w: World, acts: seq<Action>, p: Proc, c: Choice)
    requires Good(w) && Running(Run(w, acts), p) && c.fault == NoFault
    requires p.pc.InRecord? && p.pc.record.RecordFind?
    requires Find(Run(w, acts).m.ledger, p.uid, p.id).Some?
    ensures
      var m := Run(w, acts).m;
      var row := Find(m.ledger, p.uid, p.id).value;
      && (ProcStep(m, p, c).1 == Return(p, Ok) ==>
            (RowReleased(ProcStep(m, p, c).0, p.uid, p.id) <==> row.status != PendingPayment))
      && (p.job == TimeoutJob && p.id.order != "" ==> row.status != PendingPayment)
  {
    var m := Run(w, acts).m;
    RunningIsOk(w, acts, p);
    assert RowOk(m, p.uid);
    CancellationNeverConflicts(w, acts, p, c);
  }

  // ---------------------------------------------------------------- refusals are true

  /** GiveUp is told "already paid" only about a paid order; Pay is told "cancelled" only about a
      cancelled one, or, where a refused claim reads the user's admission without its identity, about a
      user whose admission is another order's by now. */
  predicate RefusalIsTrue(m: Stores, p: Proc, n: Stores, q: Proc) {
    && (p.job == GiveUpJob && q.pc == Done(Fail(AlreadyPaid)) ==> Ended(n, p.uid, p.id, Paid))
    && (p.job == PayJob && q.pc == Done(Fail(OrderCancelled)) ==>
          || Ended(n, p.uid, p.id, Cancelled)
          || (p.pc == InPay(PayReadAdmission) && p.uid in m.redis.admissions && m.redis.admissions[p.uid].id != p.id))
  }

  lemma PayRefusesTruly(m: Stores, p: Proc, c: Choice)
    requires Coherent(m) && ProcOk(m, p) && p.pc.InPay? && p.id.order != ""
    ensures RefusalIsTrue(m, p, PayStep(m, p, p.pc.pay, c).0, PayStep(m, p, p.pc.pay, c).1)
  {
    if p.uid in m.ledger {
      assert RowOk(m, p.uid);
    }
    if p.uid in m.redis.admissions {
      assert AdmissionRecorded(m, p.uid);
    }
  }

  lemma CancelRefusesTruly(m: Stores, p: Proc, c: Choice)
    requires Coherent(m) && ProcOk(m, p) && p.pc.InCancel? && p.id.order != ""
    ensures RefusalIsTrue(m, p, CancelStep(m, p, p.pc.cancel, c).0, CancelStep(m, p, p.pc.cancel, c).1)
  {
    if p.uid in m.ledger {
      assert RowOk(m, p.uid);
    }
    if p.uid in m.redis.admissions {
      assert AdmissionRecorded(m, p.uid);
    }
  }

  lemma RecordRefusesTruly(m: Stores, p: Proc, c: Choice)
    requires Coherent(m) && ProcOk(m, p) && p.pc.InRecord? && p.id.order != ""
    ensures RefusalIsTrue(m, p, RecordStep(m, p, p.pc.record, c).0, RecordStep(m, p, p.pc.record, c).1)
  {
    assert RecordStep(m, p, p.pc.record, c).0.fate == m.fate;
  }

  /** Whatever else runs and fails, the refusal of a numbered order is true when it is given ... */
  lemma RefusalsAreTrue(w: World, acts: seq<Action>, p: Proc, c: Choice)
    requires Good(w) && Running(Run(w, acts), p) && p.id.order != "" && !p.pc.Done?
    ensures
      var m := Run(w, acts).m;
      RefusalIsTrue(m, p, ProcStep(m, p, c).0, ProcStep(m, p, c).1)
  {
    RunningIsOk(w, acts, p);
    var m := Run(w, acts).m;
    if p.pc.InPay? {
      PayRefusesTruly(m, p, c);
    } else if p.pc.InCancel? {
      CancelRefusesTruly(m, p, c);
    } else if p.pc.InRecord? {
      RecordRefusesTruly(m, p, c);
    }
  }

  /** ... and stays true, however the run goes on. */
  lemma RefusalsStand(w: World, before: seq<Action>, pid: nat, c: Choice, later: seq<Action>)
    requires Good(w) && pid in Run(w, before).http
    requires
      var p := Run(w, before).http[pid];
      p.job == GiveUpJob && p.id.order != "" && !p.pc.Done?
    ensures
      var v := Run(w, before);
      var after := Step(v, Move(pid, c));
      after.http[pid].pc == Done(Fail(AlreadyPaid)) ==> Ended(Run(after, later).m, v.http[pid].uid, v.http[pid].id, Paid)
  {
    var v := Run(w, before);
    var after := Step(v, Move(pid, c));
    if after.http[pid].pc == Done(Fail(AlreadyPaid)) {
      RefusalsAreTrue(w, before, v.http[pid], c);
      RunIsGood(w, before);
      StepIsGood(v, Move(pid, c));
      EndedForever(after, later, v.http[pid].uid, v.http[pid].id, Paid);
    }
  }

  // ---------------------------------------------------------------- every operation ends

  function RecordRank(at: RecordPc): nat {
    match at
    case RecordFixReleased(_) => 1
    case RecordFind(again) => if again then 2 else 6
    case RecordUpdate(again) => if again then 3 else 7
    case RecordFindDuplicate => 4
    case RecordInsert => 5
  }

  function CancelRank(at: CancelPc): nat {
    match at
    case CancelReadAdmission(_) => 8
    case CancelMySQLReread(_) => 8
    case CancelRelease(_) => 9
    case CancelMySQL(_) => 9
    case CancelFind => 10
  }

  function CreateRank(at: CreatePc): nat {
    match at
    case CreatePaidReread(_) => 1
    case CreatePaidUpdate(_) => 2
    case CreateReread => 8
    case CreateMark => 9
    case CreateFind(_) => 10
    case CreateInsert(_) => 11
    case CreateRun(_) => 12
    case CreateReadAdmission => 13
  }

  function PayRank(at: PayPc): nat {
    match at
    case PayReadAdmission => 1
    case PayReread(_) => 1
    case PayBefore => 1
    case PayUpdate(_) => 2
    case PayClaim(_) => 3
    case PayDecide(_) => 11
    case PayFind => 12
  }

  /** How far a program is from its reply. */
  function Rank(pc: Pc): nat {
    match pc
    case InDraw(at) =>
      (match at
       case DrawRollback => 8
       case DrawSendCreate => 9
       case DrawSendCancel => 10
       case DrawLookup => 11
       case DrawAcquire => 12
       case DrawHasOrder => 13)
    case InPay(at) => PayRank(at)
    case InTimeout(at) =>
      (match at
       case TimeoutClock => 11
       case TimeoutRun => 12
       case TimeoutReadAdmission(_) => 13
       case TimeoutFind => 14)
    case InCreate(at) => CreateRank(at)
    case InCancel(at) => CancelRank(at)
    case InRecord(at) => RecordRank(at)
    case Done(_) => 0
  }

  lemma RecordDescends(m: Stores, p: Proc, at: RecordPc, c: Choice)
    requires p.pc == InRecord(at) && (at == RecordFind(true) ==> RowOfIdentity(m, p) && Coherent(m))
    ensures Rank(RecordStep(m, p, at, c).1.pc) < RecordRank(at)
  {
    if at == RecordFind(true) {
      assert RowOk(m, p.uid);
      assert Find(m.ledger, p.uid, p.id).Some?;
    }
  }

  lemma CancelDescends(m: Stores, p: Proc, at: CancelPc, c: Choice)
    requires p.pc == InCancel(at)
    ensures Rank(CancelStep(m, p, at, c).1.pc) < CancelRank(at)
  {
  }

  lemma CreateDescends(m: Stores, p: Proc, at: CreatePc, c: Choice)
    requires p.pc == InCreate(at)
    ensures Rank(CreateStep(m, p, at, c).1.pc) < CreateRank(at)
  {
  }

  lemma PayDescends(m: Stores, p: Proc, at: PayPc, c: Choice)
    requires p.pc == InPay(at)
    ensures Rank(PayStep(m, p, at, c).1.pc) < PayRank(at)
  {
  }

  lemma StartDescends(m: Stores, p: Proc, c: Choice)
    requires p.pc.InTimeout? || (p.pc.InDraw? && p.pc.draw != DrawAcquire)
    ensures Rank(ProcStep(m, p, c).1.pc) < Rank(p.pc)
  {
    if p.pc.InTimeout? {
      assert Rank(TimeoutStep(m, p, p.pc.timeout, c).1.pc) < Rank(p.pc);
    } else {
      assert Rank(DrawStep(m, p, p.pc.draw, c).1.pc) < Rank(p.pc);
    }
  }

  predicate Descends(m: Stores, p: Proc, c: Choice) {
    Rank(ProcStep(m, p, c).1.pc) < Rank(p.pc)
  }

  /** Whatever else runs and fails, every step of an operation brings it closer to its reply; only a
      Draw that lost a candidate to somebody else stays where it is.  In particular the recursion
      after a duplicate key ends at its second level. */
  lemma EveryStepDescends(w: World, acts: seq<Action>, p: Proc, c: Choice)
    requires Good(w) && Running(Run(w, acts), p) && !p.pc.Done? && p.pc != InDraw(DrawAcquire)
    ensures Descends(Run(w, acts).m, p, c)
  {
    var m := Run(w, acts).m;
    RunningIsOk(w, acts, p);
    if p.pc.InRecord? {
      RecordDescends(m, p, p.pc.record, c);
    } else if p.pc.InCancel? {
      CancelDescends(m, p, p.pc.cancel, c);
    } else if p.pc.InCreate? {
      CreateDescends(m, p, p.pc.create, c);
    } else if p.pc.InPay? {
      PayDescends(m, p, p.pc.pay, c);
    } else {
      StartDescends(m, p, c);
    }
  }
}
