/** One undisturbed delivery of an order message, from the broker to the acknowledgement. */
module OrderDelivery {
  import opened Common
  import opened AdmissionScripts
  import opened OrderPrograms
  import opened OrderInvariants
  import opened OrderRuns
  import opened OrderReplies

  function Consumes(c: Choice, n: nat): seq<Action> {
    seq(n, i => Consume(c))
  }

  /** Delivery, enough steps of the handler, and its acknowledgement if it succeeded; otherwise the
      message goes back to the broker. */
  function Delivery(msg: Message, c: Choice): seq<Action> {
    [Deliver(msg)] + Consumes(c, ENOUGH + 1) + [Ack, Abandon]
  }

  lemma {:induction false} RunConcat(w: World, a: seq<Action>, b: seq<Action>)
    ensures Run(w, a + b) == Run(Run(w, a), b)
    decreases a
  {
    if a == [] {
      assert a + b == b;
    } else {
      assert (a + b)[1..] == a[1..] + b;
      RunConcat(Step(w, a[0]), a[1..], b);
    }
  }

  /** A handler keeps its message. */
  predicate SameMessage(p: Proc, q: Proc) {
    q.job == p.job && q.uid == p.uid && q.gid == p.gid && q.id == p.id && !q.pc.InDraw? && !q.pc.InPay?
  }

  /** It stays the same handler and sends nothing. */
  predicate KeepsMessage(m: Stores, p: Proc, n: Stores, q: Proc) {
    SameMessage(p, q) && n.sent == m.sent
  }

  lemma TimeoutKeepsMessage(m: Stores, p: Proc, at: TimeoutPc, c: Choice)
    requires p.pc == InTimeout(at)
    ensures KeepsMessage(m, p, TimeoutStep(m, p, at, c).0, TimeoutStep(m, p, at, c).1)
  {
  }

  lemma CreateKeepsMessage(m: Stores, p: Proc, at: CreatePc, c: Choice)
    requires p.pc == InCreate(at)
    ensures KeepsMessage(m, p, CreateStep(m, p, at, c).0, CreateStep(m, p, at, c).1)
  {
  }

  lemma CancelKeepsMessage(m: Stores, p: Proc, at: CancelPc, c: Choice)
    requires p.pc == InCancel(at)
    ensures KeepsMessage(m, p, CancelStep(m, p, at, c).0, CancelStep(m, p, at, c).1)
  {
  }

  lemma RecordKeepsMessage(m: Stores, p: Proc, at: RecordPc, c: Choice)
    requires p.pc == InRecord(at)
    ensures KeepsMessage(m, p, RecordStep(m, p, at, c).0, RecordStep(m, p, at, c).1)
  {
  }

  lemma HandlerKeepsMessage(m: Stores, p: Proc, c: Choice)
    requires !p.pc.InDraw? && !p.pc.InPay?
    ensures KeepsMessage(m, p, ProcStep(m, p, c).0, ProcStep(m, p, c).1)
  {
    if p.pc.InTimeout? {
      TimeoutKeepsMessage(m, p, p.pc.timeout, c);
    } else if p.pc.InCreate? {
      CreateKeepsMessage(m, p, p.pc.create, c);
    } else if p.pc.InCancel? {
      CancelKeepsMessage(m, p, p.pc.cancel, c);
    } else if p.pc.InRecord? {
      RecordKeepsMessage(m, p, p.pc.record, c);
    }
  }

  /** The consumer's steps are the handler left alone; the broker's books do not move. */
  lemma {:induction false} ConsumerIsAlone(w: World, c: Choice, n: nat)
    requires w.consumer.Some? && !w.consumer.value.pc.InDraw? && !w.consumer.value.pc.InPay?
    requires w.consumer.value.job == TimeoutJob || w.consumer.value.job == CreateJob
    ensures
      var (m, q) := Alone(w.m, w.consumer.value, c, n);
      Run(w, Consumes(c, n)) == w.(m := m, consumer := Some(q)) && SameMessage(w.consumer.value, q) && m.sent == w.m.sent
    decreases n
  {
    if n > 0 {
      var p, v := w.consumer.value, Step(w, Consume(c));
      assert Consumes(c, n)[0] == Consume(c) && Consumes(c, n)[1..] == Consumes(c, n - 1);
      HandlerKeepsMessage(w.m, p, c);
      assert v.unacked == w.unacked;
      ConsumerIsAlone(v, c, n - 1);
      if p.pc.Done? {
        assert v == w && Alone(w.m, p, c, n) == Alone(w.m, p, c, n - 1);
      }
    }
  }

  /** The handler's end: acknowledged if it succeeded, else back to the broker. */
  lemma AckEnds(v: World, msg: Message)
    requires v.consumer.Some? && MessageOf(v.consumer.value) == msg
    ensures
      Run(v, [Ack, Abandon]) ==
        v.(consumer := None, unacked := if v.consumer.value.pc == Done(Ok) then v.unacked - {msg} else v.unacked)
  {
    assert [Ack, Abandon][1..] == [Abandon] && [Abandon][1..] == [];
    assert Run(v, [Ack, Abandon]) == Step(Step(v, Ack), Abandon);
  }

  /** After an undisturbed delivery the stores are as the handler left them, the consumer is free, and
      the message is acknowledged exactly when the handler succeeded. */
  lemma DeliveryEnds(w: World, msg: Message, c: Choice)
    requires w.consumer.None? && msg in w.m.sent
    ensures
      var (m, q) := Alone(w.m, Handler(msg), c, ENOUGH + 1);
      Run(w, Delivery(msg, c)) ==
        w.(m := m, consumer := None, unacked := if q.pc == Done(Ok) then w.unacked - {msg} else w.unacked)
  {
    var w1 := w.(consumer := Some(Handler(msg)));
    var v := Run(w1, Consumes(c, ENOUGH + 1));
    var q := Alone(w.m, Handler(msg), c, ENOUGH + 1).1;
    ConsumerIsAlone(w1, c, ENOUGH + 1);
    RunConcat(w, [Deliver(msg)] + Consumes(c, ENOUGH + 1), [Ack, Abandon]);
    RunConcat(w, [Deliver(msg)], Consumes(c, ENOUGH + 1));
    assert [Deliver(msg)][1..] == [] && Run(w, [Deliver(msg)]) == w1;
    assert v.consumer == Some(q) && MessageOf(q) == MessageOf(Handler(msg)) == msg;
    AckEnds(v, msg);
  }

  // ---------------------------------------------------------------- what a late CANCEL_ORDER achieves

  /** The identity still has its admission in the current run, unpaid, so the order is to be cancelled. */
  predicate ToBeCancelled(m: Stores, msg: Message) {
    Addressed(m.redis, msg.uid, msg.gid, msg.id) && m.redis.admissions[msg.uid].state != Paid
  }

  /** The ledger has no row of this order, and a unique key keeps one from being written: the user's row
      belongs to another order. */
  predicate RowIsTaken(m: Stores, msg: Message) {
    Find(m.ledger, msg.uid, msg.id).None? && InsertConflicts(m.ledger, msg.uid, msg.id)
  }

  lemma CoherentRowsAreAnonymous(m: Stores)
    requires Coherent(m)
    ensures OldRowsAreAnonymous(m)
  {
    forall u | u in m.ledger && m.ledger[u].id.order == ""
      ensures m.ledger[u].id == ANONYMOUS
    {
      assert RowOk(m, u);
    }
  }

  lemma LateCancelReply(m: Stores, msg: Message)
    requires Coherent(m) && msg.CancelOrder? && msg in m.sent && msg.id.order != ""
    requires Addressed(m.redis, msg.uid, msg.gid, msg.id)
    ensures
      var reply := CancelReply(m, msg.uid, msg.gid, msg.id);
      if !ToBeCancelled(m, msg) then reply == Fail(AlreadyPaid)
      else if RowIsTaken(m, msg) then reply == Fail(RollbackFailed)
      else reply == Ok
  {
    assert AdmissionRecorded(m, msg.uid);
    if msg.uid in m.ledger {
      assert RowOk(m, msg.uid);
    }
  }

  /** Main result: past its deadline, one undisturbed delivery of the CANCEL_ORDER of a numbered order
      settles it for good: it is acknowledged, and an unpaid order of the current run ends cancelled on
      both sides; unless the user's one ledger row belongs to another order, and then, and only then, the
      message stays with the broker. */
  lemma LateCancelIsAcknowledged(w: World, msg: Message, c: Choice)
    requires Good(w) && w.consumer.None? && msg in w.m.sent && msg.CancelOrder? && msg.id.order != ""
    requires c.fault == NoFault && !c.flag
    ensures
      var v := Run(w, Delivery(msg, c));
      && (msg in v.unacked <==> msg in w.unacked && ToBeCancelled(w.m, msg) && RowIsTaken(w.m, msg))
      && (ToBeCancelled(w.m, msg) && !RowIsTaken(w.m, msg) ==> RowReleased(v.m, msg.uid, msg.id))
      && (!ToBeCancelled(w.m, msg) ==> v.m == w.m)
  {
    DeliveryEnds(w, msg, c);
    CoherentRowsAreAnonymous(w.m);
    var p := Handler(msg);
    OneStep(w.m, p, c, ENOUGH + 1);
    TimeoutLooksUp(w.m, msg.uid, msg.gid, msg.id, c);
    TimeoutAnswers(w.m, Goto(p, InTimeout(TimeoutReadAdmission(false))), false, c, ENOUGH);
    if Addressed(w.m.redis, msg.uid, msg.gid, msg.id) {
      LateCancelReply(w.m, msg);
    }
  }
}
