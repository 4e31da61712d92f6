/** Two surprising but real runs, step by step: where the promises of the order protocol stop. */
module OrderWitnesses {
  import opened Common
  import opened AdmissionScripts
  import opened OrderPrograms
  import opened OrderInvariants
  import opened OrderReplies
  import opened OrderRuns
  import opened OrderTheorems

  const FINE := Choice(NoFault, false, 7)
  const LATE := Choice(NoFault, true, 7)
  const LOST := Choice(LostAfter, false, 7)
  const OURS := Identity("o1", "r1")

  /** One unit of gift 7, nobody there yet. */
  function Shop(): World {
    Fresh(map[7 := 1], "r1")
  }

  ghost predicate Reachable(w: World) {
    exists acts :: Run(Shop(), acts) == w
  }

  lemma OneMore(w: World, a: Action) returns (v: World)
    requires Reachable(w)
    ensures v == Step(w, a) && Reachable(v)
  {
    var acts :| Run(Shop(), acts) == w;
    RunAppend(Shop(), acts, a);
    v := Step(w, a);
  }

  predicate Stands(w: World, pid: nat, job: Job, pc: Pc) {
    pid in w.http && w.http[pid] == Proc(job, 1, 7, OURS, pc)
  }

  predicate Handles(w: World, job: Job, pc: Pc) {
    w.consumer == Some(Proc(job, 1, 7, OURS, pc))
  }

  predicate AdmissionIs(m: Stores, s: Status) {
    && m.redis.run == Some("r1")
    && 1 in m.redis.admissions
    && m.redis.admissions[1] == Admission(7, s, OURS)
  }

  predicate RowIs(m: Stores, s: Status) {
    1 in m.ledger && m.ledger[1].id == OURS && m.ledger[1].gift == 7 && m.ledger[1].mode == RedisMode && m.ledger[1].status == s
  }

  /** User 1 took the unit and both messages are with the broker. */
  predicate Announced(w: World) {
    && AdmissionIs(w.m, StockAcquired) && w.m.ledger == map[]
    && CreateOrder(1, 7, OURS) in w.m.sent
    && w.http.Keys == {0} && w.consumer.None?
  }

  lemma DrawTakesStock() returns (w: World)
    ensures Reachable(w) && Stands(w, 0, DrawJob, InDraw(DrawLookup))
    ensures AdmissionIs(w.m, StockAcquired) && w.m.ledger == map[] && w.http.Keys == {0} && w.consumer.None?
  {
    assert Run(Shop(), []) == Shop();
    w := OneMore(Shop(), StartDraw(0, 1, "o1"));
    assert w.http[0] == Proc(DrawJob, 1, 0, OURS, InDraw(DrawHasOrder));
    w := OneMore(w, Move(0, FINE));
    assert w.http[0] == Proc(DrawJob, 1, 0, OURS, InDraw(DrawAcquire));
    assert w.m == Shop().m;
    w := OneMore(w, Move(0, FINE));
  }

  lemma DrawSendsCancel() returns (w: World)
    ensures Reachable(w) && Stands(w, 0, DrawJob, InDraw(DrawSendCreate))
    ensures AdmissionIs(w.m, StockAcquired) && w.m.ledger == map[] && w.http.Keys == {0} && w.consumer.None?
  {
    w := DrawTakesStock();
    w := OneMore(w, Move(0, FINE));
    assert Stands(w, 0, DrawJob, InDraw(DrawSendCancel));
    w := OneMore(w, Move(0, FINE));
  }

  lemma DrawAnnounces() returns (w: World)
    ensures Reachable(w) && Announced(w)
  {
    w := DrawSendsCancel();
    w := OneMore(w, Move(0, FINE));
    assert CreateOrder(1, 7, OURS) in w.m.sent;
  }

  /** The create handler has passed its checks and is about to insert the pending row. */
  lemma CreateAboutToInsert() returns (w: World)
    ensures Reachable(w) && Handles(w, CreateJob, InCreate(CreateInsert(StockAcquired)))
    ensures AdmissionIs(w.m, StockAcquired) && w.m.ledger == map[] && w.http.Keys == {0}
  {
    w := DrawAnnounces();
    w := OneMore(w, Deliver(CreateOrder(1, 7, OURS)));
    assert Handles(w, CreateJob, InCreate(CreateReadAdmission));
    w := OneMore(w, Consume(FINE));
    assert Handles(w, CreateJob, InCreate(CreateRun(StockAcquired)));
    w := OneMore(w, Consume(FINE));
  }

  /** The user gives up in that window. */
  lemma GiveUpStarts() returns (w: World)
    ensures Reachable(w) && Handles(w, CreateJob, InCreate(CreateInsert(StockAcquired)))
    ensures Stands(w, 1, GiveUpJob, InCancel(CancelRelease(None)))
    ensures AdmissionIs(w.m, StockAcquired) && w.m.ledger == map[]
  {
    w := CreateAboutToInsert();
    w := OneMore(w, StartGiveUp(1, 1, 7, OURS));
    assert Stands(w, 1, GiveUpJob, InCancel(CancelFind));
    w := OneMore(w, Move(1, FINE));
  }

  /** Redis has decided, ... */
  lemma GiveUpReleases() returns (w: World)
    ensures Reachable(w) && Handles(w, CreateJob, InCreate(CreateInsert(StockAcquired)))
    ensures Stands(w, 1, GiveUpJob, InCancel(CancelReadAdmission(None)))
    ensures AdmissionIs(w.m, Cancelled) && w.m.ledger == map[]
  {
    w := GiveUpStarts();
    w := OneMore(w, Move(1, FINE));
  }

  lemma GiveUpReadsVerdict() returns (w: World)
    ensures Reachable(w) && Handles(w, CreateJob, InCreate(CreateInsert(StockAcquired)))
    ensures Stands(w, 1, GiveUpJob, InRecord(RecordUpdate(false)))
    ensures AdmissionIs(w.m, Cancelled) && w.m.ledger == map[]
  {
    w := GiveUpReleases();
    w := OneMore(w, Move(1, FINE));
  }

  /** ... and its ledger UPDATE found no row yet. */
  lemma GiveUpFindsNoRow() returns (w: World)
    ensures Reachable(w) && Handles(w, CreateJob, InCreate(CreateInsert(StockAcquired)))
    ensures Stands(w, 1, GiveUpJob, InRecord(RecordFind(false)))
    ensures AdmissionIs(w.m, Cancelled) && w.m.ledger == map[]
  {
    w := GiveUpReadsVerdict();
    w := OneMore(w, Move(1, FINE));
  }

  lemma RowAppearsInBetween() returns (w: World)
    ensures Reachable(w) && Stands(w, 1, GiveUpJob, InRecord(RecordFind(false)))
    ensures AdmissionIs(w.m, Cancelled) && RowIs(w.m, PendingPayment)
  {
    w := GiveUpFindsNoRow();
    w := OneMore(w, Consume(FINE));
  }

  /** GiveUp can answer success while the ledger row is still pending: the create handler inserted
      it between the UPDATE and the lookup.  (The message consumer settles it later.) */
  lemma GiveUpSucceedsOverPendingRow() returns (w: World)
    ensures Reachable(w) && Succeeded(w, 1, GiveUpJob, 1, OURS)
    ensures AdmissionIs(w.m, Cancelled) && RowIs(w.m, PendingPayment)
  {
    w := RowAppearsInBetween();
    w := OneMore(w, Move(1, FINE));
  }

  lemma OrderInserted() returns (w: World)
    ensures Reachable(w) && Handles(w, CreateJob, InCreate(CreateMark))
    ensures AdmissionIs(w.m, StockAcquired) && RowIs(w.m, PendingPayment) && w.http.Keys == {0}
  {
    w := CreateAboutToInsert();
    w := OneMore(w, Consume(FINE));
  }

  /** A finished order: row and admission both pending payment. */
  lemma OrderCreated() returns (w: World)
    ensures Reachable(w) && AdmissionIs(w.m, PendingPayment) && RowIs(w.m, PendingPayment) && w.http.Keys == {0}
  {
    w := OrderInserted();
    w := OneMore(w, Consume(FINE));
  }

  lemma PaymentAboutToClaim() returns (w: World, row: Row)
    ensures Reachable(w) && AdmissionIs(w.m, PendingPayment) && RowIs(w.m, PendingPayment) && 2 !in w.http
    ensures row.mode == RedisMode && Stands(w, 1, PayJob, InPay(PayClaim(row)))
  {
    w := OrderCreated();
    w := OneMore(w, StartPay(1, 1, 7, OURS));
    assert Stands(w, 1, PayJob, InPay(PayFind));
    w := OneMore(w, Move(1, FINE));
    row := w.m.ledger[1];
    assert Stands(w, 1, PayJob, InPay(PayDecide(row)));
    w := OneMore(w, Move(1, FINE));
  }

  /** A first payment claimed the admission and then lost its connection; the next one comes after
      the deadline. */
  lemma ClaimThenCrash() returns (w: World, row: Row)
    ensures Reachable(w) && AdmissionIs(w.m, Paid) && RowIs(w.m, PendingPayment) && row == w.m.ledger[1]
    ensures Stands(w, 2, PayJob, InPay(PayDecide(row)))
  {
    w, row := PaymentAboutToClaim();
    w := OneMore(w, Move(1, LOST));
    assert AdmissionIs(w.m, Paid) && RowIs(w.m, PendingPayment);
    w := OneMore(w, StartPay(2, 1, 7, OURS));
    assert Stands(w, 2, PayJob, InPay(PayFind));
    w := OneMore(w, Move(2, FINE));
    row := w.m.ledger[1];
  }

  lemma LatePaymentCancels() returns (w: World, row: Row)
    ensures Reachable(w) && AdmissionIs(w.m, Paid) && RowIs(w.m, PendingPayment)
    ensures Stands(w, 2, PayJob, InCancel(CancelRelease(Some(row))))
  {
    w, row := ClaimThenCrash();
    w := OneMore(w, Move(2, LATE));
    assert Stands(w, 2, PayJob, InCancel(CancelFind));
    w := OneMore(w, Move(2, FINE));
  }

  lemma LatePaymentReadsVerdict() returns (w: World, row: Row)
    ensures Reachable(w) && AdmissionIs(w.m, Paid) && RowIs(w.m, PendingPayment)
    ensures Stands(w, 2, PayJob, InCancel(CancelReadAdmission(Some(row))))
  {
    w, row := LatePaymentCancels();
    w := OneMore(w, Move(2, FINE));
  }

  /** A payment retried after the deadline answers success on the strength of the admission alone;
      the ledger row is still pending. */
  lemma PaySucceedsOverPendingRow() returns (w: World)
    ensures Reachable(w) && Succeeded(w, 2, PayJob, 1, OURS)
    ensures AdmissionIs(w.m, Paid) && RowIs(w.m, PendingPayment)
  {
    var row;
    w, row := LatePaymentReadsVerdict();
    w := OneMore(w, Move(2, FINE));
  }

  // ---------------------------------------------------------------- a refusal that is about another order

  const OTHER := Identity("o2", "r1")

  /** The admission of the first order has expired while its row is pending; a second draw of the same
      user, begun before that row was written, has taken and given up the same gift. */
  function Superseded(): Stores {
    Stores(
      Redis(map[7 := 1], map[1 := Admission(7, Cancelled, OTHER)], Some("r1")),
      map[1 := Row(1, OURS, 7, PendingPayment, RedisMode, false)], map[7 := 1], 2,
      {CreateOrder(1, 7, OURS), CancelOrder(1, 7, OURS)},
      map[(1, OURS) := Admission(7, PendingPayment, OURS), (1, OTHER) := Admission(7, Cancelled, OTHER)])
  }

  /** In this coherent store Pay of the first order answers "cancelled", although nobody cancelled it. */
  lemma RefusalMayBeAboutAnotherOrder()
    ensures Coherent(Superseded()) && !Ended(Superseded(), 1, OURS, Cancelled)
    ensures Alone(Superseded(), Payment(1, 7, OURS), Calm(false, 7), ENOUGH).1.pc == Done(Fail(OrderCancelled))
  {
    var m := Superseded();
    assert Find(m.ledger, 1, OURS) == Some(m.ledger[1]);
    PayAnswers(m, 1, 7, OURS, Calm(false, 7));
  }
}
