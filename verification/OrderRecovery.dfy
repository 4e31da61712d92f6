/** Recovery in reachable worlds: while nothing has expired and no reset failed half-way, every
    Redis-mode row still has its admission beside it, so what recovery rewrites is the live stock,
    less the rows whose cancellation is still owed, plus the holders that a MySQL-mode row hides. */
module OrderRecovery {
  import opened Common
  import opened AdmissionScripts
  import opened OrderPrograms
  import opened OrderInvariants
  import opened OrderGuarantees
  import opened InventoryRecovery
  import opened OrderRuns
  import opened OrderStock

  predicate AdmissionOf(m: Stores, uid: int, id: Identity) {
    uid in m.redis.admissions && m.redis.admissions[uid].id == id
  }

  /** Nothing expired: every Redis-mode row has its admission. */
  predicate Live(m: Stores) {
    forall u :: u in m.ledger && m.ledger[u].mode == RedisMode ==> AdmissionOf(m, u, m.ledger[u].id)
  }

  /** The program has seen its admission and may write a ledger row of that identity. */
  predicate MayWriteRow(pc: Pc) {
    pc.InRecord? || (pc.InCreate? && (pc.create.CreateRun? || pc.create.CreateInsert?))
  }

  predicate ProcLive(m: Stores, p: Proc) {
    MayWriteRow(p.pc) ==> AdmissionOf(m, p.uid, p.id)
  }

  predicate LiveWorld(w: World) {
    && Live(w.m)
    && (forall pid :: pid in w.http ==> ProcLive(w.m, w.http[pid]))
    && (w.consumer.Some? ==> ProcLive(w.m, w.consumer.value))
  }

  /** Admissions stay where they are and keep their identity; only new ones may appear. */
  predicate AdmissionsStay(m: Stores, n: Stores) {
    forall u :: u in m.redis.admissions ==> AdmissionOf(n, u, m.redis.admissions[u].id)
  }

  lemma ProgramKeepsAdmissions(m: Stores, p: Proc, c: Choice)
    ensures AdmissionsStay(m, ProcStep(m, p, c).0)
  {
    OnlyScriptsTouchRedis(m, p, c);
  }

  /** A new Redis-mode row is one of the stepping program, at a point where its admission is known. */
  predicate RowsStay(m: Stores, n: Stores, p: Proc) {
    forall u :: u in n.ledger && n.ledger[u].mode == RedisMode ==>
      || (u in m.ledger && m.ledger[u].mode == RedisMode && m.ledger[u].id == n.ledger[u].id)
      || (u == p.uid && n.ledger[u].id == p.id && MayWriteRow(p.pc))
  }

  lemma CancelKeepsRows(m: Stores, p: Proc, at: CancelPc, c: Choice)
    requires p.pc == InCancel(at)
    ensures RowsStay(m, CancelStep(m, p, at, c).0, p)
  {
    if !at.CancelMySQL? {
      assert CancelStep(m, p, at, c).0.ledger == m.ledger;
    }
  }

  lemma RecordKeepsRows(m: Stores, p: Proc, at: RecordPc, c: Choice)
    requires p.pc == InRecord(at)
    ensures RowsStay(m, RecordStep(m, p, at, c).0, p)
  {
    if !at.RecordUpdate? && !at.RecordFixReleased? && !at.RecordInsert? {
      assert RecordStep(m, p, at, c).0 == m;
    }
  }

  lemma CreateKeepsRows(m: Stores, p: Proc, at: CreatePc, c: Choice)
    requires p.pc == InCreate(at)
    ensures RowsStay(m, CreateStep(m, p, at, c).0, p)
  {
    if !at.CreateInsert? && !at.CreatePaidUpdate? {
      assert CreateStep(m, p, at, c).0.ledger == m.ledger;
    }
  }

  lemma ProgramKeepsRows(m: Stores, p: Proc, c: Choice)
    ensures RowsStay(m, ProcStep(m, p, c).0, p)
  {
    if p.pc.InRecord? {
      RecordKeepsRows(m, p, p.pc.record, c);
    } else if p.pc.InCancel? {
      CancelKeepsRows(m, p, p.pc.cancel, c);
    } else if p.pc.InCreate? {
      CreateKeepsRows(m, p, p.pc.create, c);
    } else if p.pc.InPay? {
      assert RowsStay(m, PayStep(m, p, p.pc.pay, c).0, p);
    } else if p.pc.InDraw? {
      assert DrawStep(m, p, p.pc.draw, c).0.ledger == m.ledger;
    }
  }

  /** A program only comes to a writing point with its admission in place. */
  lemma WritersHaveAdmissions(m: Stores, p: Proc, c: Choice)
    requires ProcLive(m, p)
    ensures ProcLive(ProcStep(m, p, c).0, ProcStep(m, p, c).1)
  {
    ProgramKeepsAdmissions(m, p, c);
    if p.pc.InDraw? {
      var q := DrawStep(m, p, p.pc.draw, c).1;
      assert MayWriteRow(q.pc) ==> Matches(m.redis, p.uid, p.gid, p.id) && q.uid == p.uid && q.id == p.id;
    } else if p.pc.InCreate? {
      var q := CreateStep(m, p, p.pc.create, c).1;
      assert MayWriteRow(q.pc) ==> q.uid == p.uid && q.id == p.id && (MayWriteRow(p.pc) || Matches(m.redis, p.uid, p.gid, p.id));
    } else if p.pc.InCancel? {
      var q := CancelStep(m, p, p.pc.cancel, c).1;
      assert MayWriteRow(q.pc) ==> q.uid == p.uid && q.id == p.id && Matches(m.redis, p.uid, p.gid, p.id);
    } else if p.pc.InRecord? {
      var q := RecordStep(m, p, p.pc.record, c).1;
      assert q.uid == p.uid && q.id == p.id;
    } else if p.pc.InPay? {
      assert !MayWriteRow(PayStep(m, p, p.pc.pay, c).1.pc);
    } else if p.pc.InTimeout? {
      assert !MayWriteRow(TimeoutStep(m, p, p.pc.timeout, c).1.pc);
    }
  }

  lemma ProgramIsLive(m: Stores, p: Proc, c: Choice)
    requires Live(m) && ProcLive(m, p)
    ensures Live(ProcStep(m, p, c).0) && ProcLive(ProcStep(m, p, c).0, ProcStep(m, p, c).1)
    ensures AdmissionsStay(m, ProcStep(m, p, c).0)
  {
    ProgramKeepsAdmissions(m, p, c);
    ProgramKeepsRows(m, p, c);
    WritersHaveAdmissions(m, p, c);
  }

  lemma MoveIsLive(w: World, a: Action)
    requires LiveWorld(w) && (a.Move? || a.Consume?)
    ensures LiveWorld(Step(w, a))
  {
    if a.Move? && a.pid in w.http {
      ProgramIsLive(w.m, w.http[a.pid], a.choice);
    } else if a.Consume? && w.consumer.Some? {
      ProgramIsLive(w.m, w.consumer.value, a.choice);
    }
  }

  lemma StepIsLive(w: World, a: Action)
    requires LiveWorld(w) && !a.Lapse? && !a.ResetFails?
    ensures LiveWorld(Step(w, a))
  {
    if a.Move? || a.Consume? {
      MoveIsLive(w, a);
    }
  }

  lemma {:induction false} RunIsLive(w: World, acts: seq<Action>)
    requires LiveWorld(w)
    requires forall a :: a in acts ==> !a.Lapse? && !a.ResetFails?
    ensures LiveWorld(Run(w, acts))
    decreases acts
  {
    if acts == [] {
    } else {
      assert acts[0] in acts;
      StepIsLive(w, acts[0]);
      RunIsLive(Step(w, acts[0]), acts[1..]);
    }
  }

  /** All business is stopped, SCAN covers the admissions and repeats none that counts. */
  predicate RecoverableHere(w: World, scan: seq<int>, gid: int) {
    Quiet(w) && Covers(w.m, scan) && gid in w.catalog && Distinct(CountedKeys(w.m, scan, gid))
  }

  /** Recovery leaves the baseline less the holders it sees and the cancellations still owed, cut off
      at zero. */
  predicate RewritesLagging(w: World, scan: seq<int>, gid: int) {
    && gid in w.catalog && |Hidden(w.m, gid)| <= Held(w.m.redis, gid)
    && Stock(Step(w, Recover(scan)).m.redis, gid)
         == Remaining(w.catalog[gid], Held(w.m.redis, gid) - |Hidden(w.m, gid)| + |Lagging(w.m, gid)|)
  }

  lemma LiveRecovery(w: World, scan: seq<int>, gid: int)
    requires Coherent(w.m) && Live(w.m) && RecoverableHere(w, scan, gid)
    ensures RewritesLagging(w, scan, gid)
  {
    forall u | u in Occupying(w.m.ledger, gid)
      ensures AdmissionStillThere(w.m, u)
    {
      assert AdmissionOf(w.m, u, w.m.ledger[u].id);
    }
    HoldersSplitByRow(w.m, gid);
    RecoveryValue(w.m, scan, gid);
  }

  /** In every reachable world with nothing expired, recovery over a SCAN that returns no counted
      key twice writes max(0, count - held + hidden - lag). */
  lemma RecoveryWritesCountMinusHeldMinusLag(w: World, acts: seq<Action>, scan: seq<int>, gid: int)
    requires Good(w) && LiveWorld(w)
    requires forall a :: a in acts ==> !a.Lapse? && !a.ResetFails?
    requires RecoverableHere(Run(w, acts), scan, gid)
    ensures RewritesLagging(Run(w, acts), scan, gid)
  {
    RunIsGood(w, acts);
    RunIsLive(w, acts);
    LiveRecovery(Run(w, acts), scan, gid);
  }

  /** ... and it rewrites exactly the stock that was there if and only if the owed cancellations and the
      hidden holders balance, or the shelf is empty and stays so; in particular with none of either. */
  lemma RecoveryRewritesLiveStock(w: World, acts: seq<Action>, scan: seq<int>, gid: int)
    requires Good(w) && LiveWorld(w) && StockSafe(w) && Balanced(w, gid) && Clean(acts)
    requires RecoverableHere(Run(w, acts), scan, gid)
    ensures RewritesStock(Run(w, acts), scan, gid) <==> LagIsHidden(Run(w, acts), gid)
  {
    RecoveryWritesCountMinusHeldMinusLag(w, acts, scan, gid);
    BooksBalance(w, acts, gid);
    WithoutRecoveryNothingIsMissed(w, acts);
    NeverOversold(w, acts, gid);
    CatalogIsFixed(w, acts);
  }

  predicate LagIsHidden(w: World, gid: int) {
    || |Lagging(w.m, gid)| == |Hidden(w.m, gid)|
    || (Stock(w.m.redis, gid) == 0 && |Hidden(w.m, gid)| <= |Lagging(w.m, gid)|)
  }

  predicate RewritesStock(w: World, scan: seq<int>, gid: int) {
    Stock(Step(w, Recover(scan)).m.redis, gid) == Stock(w.m.redis, gid)
  }

  lemma FreshIsLive(catalog: map<int, nat>, run: string)
    ensures LiveWorld(Fresh(catalog, run))
  {
  }
}
