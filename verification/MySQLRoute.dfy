/** The legacy MySQL route over whole runs: it never oversells, what its books can miss, exactly when,
    and that the cancellation record of the Redis route is what makes them miss a unit. */
module MySQLRoute {
  import opened Common
  import opened AdmissionScripts
  import opened OrderPrograms
  import opened OrderInvariants
  import opened OrderGuarantees
  import opened InventoryRecovery
  import opened OrderRuns
  import opened OrderStock

  /** MySQL-mode rows that hold a unit of the gift. */
  function Taken(ledger: map<int, Row>, gid: int): set<int> {
    set u | u in ledger && Takes(ledger[u], gid)
  }

  predicate Takes(row: Row, gid: int) {
    row.mode == MySQLMode && row.gift == gid && (row.status == PendingPayment || row.status == Paid)
  }

  function TakesUnit(ledger: map<int, Row>, uid: int, gid: int): nat {
    if uid in ledger && Takes(ledger[uid], gid) then 1 else 0
  }

  function CacheStock(m: Stores, gid: int): int {
    if gid in m.cacheStock then m.cacheStock[gid] else 0
  }

  lemma TakenSplit(ledger: map<int, Row>, uid: int, gid: int)
    ensures |Taken(ledger, gid)| == |Taken(ledger - {uid}, gid)| + TakesUnit(ledger, uid, gid)
  {
    if uid in Taken(ledger, gid) {
      assert Taken(ledger, gid) == Taken(ledger - {uid}, gid) + {uid};
    } else {
      assert Taken(ledger, gid) == Taken(ledger - {uid}, gid);
    }
  }

  lemma TakenAfterChange(before: map<int, Row>, after: map<int, Row>, uid: int, gid: int)
    requires before - {uid} == after - {uid}
    ensures |Taken(after, gid)| - TakesUnit(after, uid, gid) == |Taken(before, gid)| - TakesUnit(before, uid, gid)
  {
    TakenSplit(before, uid, gid);
    TakenSplit(after, uid, gid);
  }

  /** MySQL stock on the shelf plus rows that hold a unit. */
  function Books(m: Stores, gid: int): int {
    CacheStock(m, gid) + |Taken(m.ledger, gid)|
  }

  /** The one step that loses a unit: the UPDATE of a Redis cancellation record does not ask for the
      inventory mode, so it can cancel a row of the MySQL route, marks it released, and gives nothing
      back. */
  predicate DropsUnit(m: Stores, p: Proc, c: Choice, gid: int) {
    && p.pc.InRecord? && p.pc.record.RecordUpdate? && c.fault != LostBefore
    && Cancellable(m, p.uid, p.gid, p.id) && Takes(m.ledger[p.uid], gid)
  }

  function Drop(m: Stores, p: Proc, c: Choice, gid: int): nat {
    if DropsUnit(m, p, c, gid) then 1 else 0
  }

  /** What one step leaves of the MySQL books: same gifts, and the stepping user's share moves
      against the stock, except for a dropped unit. */
  predicate MySQLKept(m: Stores, n: Stores, uid: int, gid: int, drop: nat) {
    && n.cacheStock.Keys == m.cacheStock.Keys
    && (forall g :: g in m.cacheStock ==> m.cacheStock[g] <= n.cacheStock[g])
    && n.ledger - {uid} == m.ledger - {uid}
    && CacheStock(n, gid) + TakesUnit(n.ledger, uid, gid) + drop == CacheStock(m, gid) + TakesUnit(m.ledger, uid, gid)
  }

  lemma RecordKeepsMySQL(m: Stores, p: Proc, at: RecordPc, c: Choice, gid: int)
    requires Coherent(m) && ProcOk(m, p) && p.pc == InRecord(at)
    ensures MySQLKept(m, RecordStep(m, p, at, c).0, p.uid, gid, Drop(m, p, c, gid))
  {
    if p.uid in m.ledger {
      assert RowOk(m, p.uid) && FateOk(m, (p.uid, p.id));
    }
  }

  lemma CancelKeepsMySQL(m: Stores, p: Proc, at: CancelPc, c: Choice, gid: int)
    requires Coherent(m) && ProcOk(m, p) && p.pc == InCancel(at)
    ensures MySQLKept(m, CancelStep(m, p, at, c).0, p.uid, gid, 0)
  {
    if at.CancelMySQL? {
      assert CancelStep(m, p, at, c).0
          == if c.fault != LostBefore && MySQLCancels(m, p.uid, at.row.key) then CancelMySQLRow(m, p.uid, at.row.key) else m;
    } else {
      var n := CancelStep(m, p, at, c).0;
      assert n.ledger == m.ledger && n.cacheStock == m.cacheStock;
    }
  }

  lemma CreateKeepsMySQL(m: Stores, p: Proc, at: CreatePc, c: Choice, gid: int)
    requires Coherent(m) && ProcOk(m, p) && p.pc == InCreate(at)
    ensures MySQLKept(m, CreateStep(m, p, at, c).0, p.uid, gid, 0)
  {
    var n := CreateStep(m, p, at, c).0;
    assert n.cacheStock == m.cacheStock;
    if at.CreatePaidUpdate? {
      assert n == m || n == PayRow(m, p.uid, at.row.key);
    } else if at.CreateInsert? {
      assert n == m || (p.uid !in m.ledger && n == Insert(m, p.uid, p.gid, p.id, PendingPayment, RedisMode));
    } else {
      assert n.ledger == m.ledger;
    }
  }

  lemma PayKeepsMySQL(m: Stores, p: Proc, at: PayPc, c: Choice, gid: int)
    requires p.pc == InPay(at)
    ensures MySQLKept(m, PayStep(m, p, at, c).0, p.uid, gid, 0)
  {
    var n := PayStep(m, p, at, c).0;
    if at.PayUpdate? {
      assert n == m || n == PayRow(m, p.uid, at.row.key);
    } else {
      assert n.ledger == m.ledger && n.cacheStock == m.cacheStock;
    }
  }

  lemma ProgramKeepsMySQL(m: Stores, p: Proc, c: Choice, gid: int)
    requires Coherent(m) && ProcOk(m, p)
    ensures MySQLKept(m, ProcStep(m, p, c).0, p.uid, gid, Drop(m, p, c, gid))
  {
    if p.pc.InRecord? {
      RecordKeepsMySQL(m, p, p.pc.record, c, gid);
    } else if p.pc.InCancel? {
      CancelKeepsMySQL(m, p, p.pc.cancel, c, gid);
    } else if p.pc.InPay? {
      PayKeepsMySQL(m, p, p.pc.pay, c, gid);
    } else if p.pc.InCreate? {
      CreateKeepsMySQL(m, p, p.pc.create, c, gid);
    } else if p.pc.InDraw? {
      var n := DrawStep(m, p, p.pc.draw, c).0;
      assert n.ledger == m.ledger && n.cacheStock == m.cacheStock;
    }
  }

  // ---------------------------------------------------------------- whole runs

  /** Units dropped by one action. */
  function Dropped(w: World, a: Action, gid: int): nat {
    match a
    case Move(pid, c) => if pid in w.http then Drop(w.m, w.http[pid], c, gid) else 0
    case Consume(c) => if w.consumer.Some? then Drop(w.m, w.consumer.value, c, gid) else 0
    case _ => 0
  }

  /** Units missing from the books after one action: what was missing before and what it dropped.  A
      reset that got as far as the stock finds everything again; one that only deleted the orders
      loses the units they held. */
  function MissingAfter(w: World, a: Action, gid: int, missing: int): int {
    if (a.Reset? || a.ResetFails?) && Quiet(w) && a.run !in w.runs then
      if a.Reset? then 0
      else match a.progress {
        case Rotated => missing
        case OrdersDeleted => missing + |Taken(w.m.ledger, gid)|
        case _ => 0
      }
    else missing + Dropped(w, a, gid)
  }

  function Missing(w: World, acts: seq<Action>, gid: int, missing: int): int
    decreases acts
  {
    if acts == [] then missing else Missing(Step(w, acts[0]), acts[1..], gid, MissingAfter(w, acts[0], gid, missing))
  }

  lemma ProgramBalancesMySQL(m: Stores, p: Proc, c: Choice, gid: int)
    requires Coherent(m) && ProcOk(m, p)
    ensures Books(ProcStep(m, p, c).0, gid) + Drop(m, p, c, gid) == Books(m, gid)
  {
    ProgramKeepsMySQL(m, p, c, gid);
    TakenAfterChange(m.ledger, ProcStep(m, p, c).0.ledger, p.uid, gid);
  }

  /** Apart from resets every single step moves MySQL stock against its own row, and only the dropping
      step does not. */
  lemma StepBalancesMySQL(w: World, a: Action, gid: int)
    requires Good(w) && !a.Reset? && !a.ResetFails?
    ensures Books(Step(w, a).m, gid) + Dropped(w, a, gid) == Books(w.m, gid)
  {
    if a.Move? && a.pid in w.http {
      assert HttpOk(w, a.pid);
      ProgramBalancesMySQL(w.m, w.http[a.pid], a.choice, gid);
    } else if a.Consume? && w.consumer.Some? {
      ProgramBalancesMySQL(w.m, w.consumer.value, a.choice, gid);
    } else if a.AcquireMySQL? && Step(w, a) != w {
      TakenAfterChange(w.m.ledger, Step(w, a).m.ledger, a.uid, gid);
    }
  }

  lemma ResetAccounts(w: World, a: Action, gid: int, missing: int)
    requires a.Reset? || a.ResetFails?
    requires Books(w.m, gid) + missing == CatalogCount(w.catalog, gid)
    ensures Books(Step(w, a).m, gid) + MissingAfter(w, a, gid, missing) == CatalogCount(w.catalog, gid)
  {
    var v := Step(w, a);
    assert v.m.ledger == w.m.ledger || Taken(v.m.ledger, gid) == {};
  }

  /** Every catalogue gift has its inventory row, and none is negative. */
  predicate Stocked(w: World) {
    w.m.cacheStock.Keys == w.catalog.Keys && forall g :: g in w.m.cacheStock ==> w.m.cacheStock[g] >= 0
  }

  lemma ProgramStaysStocked(m: Stores, p: Proc, c: Choice)
    requires Coherent(m) && ProcOk(m, p)
    ensures
      var n := ProcStep(m, p, c).0;
      n.cacheStock.Keys == m.cacheStock.Keys && forall g :: g in m.cacheStock ==> m.cacheStock[g] <= n.cacheStock[g]
  {
    ProgramKeepsMySQL(m, p, c, 0);
  }

  lemma StepStaysStocked(w: World, a: Action)
    requires Good(w) && Stocked(w)
    ensures Stocked(Step(w, a))
  {
    if a.Move? && a.pid in w.http {
      assert HttpOk(w, a.pid);
      ProgramStaysStocked(w.m, w.http[a.pid], a.choice);
      assert Stocked(Step(w, a));
    } else if a.Consume? && w.consumer.Some? {
      ProgramStaysStocked(w.m, w.consumer.value, a.choice);
      assert Stocked(Step(w, a));
    } else if a.Reset? || a.ResetFails? {
      ResetStaysStocked(w, a);
    }
  }

  lemma ResetStaysStocked(w: World, a: Action)
    requires Stocked(w) && (a.Reset? || a.ResetFails?)
    ensures Stocked(Step(w, a))
  {
  }

  lemma StepAccounts(w: World, a: Action, gid: int, missing: nat)
    requires Good(w) && Books(w.m, gid) + missing == CatalogCount(w.catalog, gid)
    ensures MissingAfter(w, a, gid, missing) >= 0 && Step(w, a).catalog == w.catalog
    ensures Books(Step(w, a).m, gid) + MissingAfter(w, a, gid, missing) == CatalogCount(w.catalog, gid)
  {
    if a.Reset? || a.ResetFails? {
      ResetAccounts(w, a, gid, missing);
    } else {
      StepBalancesMySQL(w, a, gid);
    }
  }

  lemma {:induction false} RunAccounts(w: World, acts: seq<Action>, gid: int, missing: nat)
    requires Good(w) && Books(w.m, gid) + missing == CatalogCount(w.catalog, gid)
    ensures Missing(w, acts, gid, missing) >= 0
    ensures Books(Run(w, acts).m, gid) + Missing(w, acts, gid, missing) == CatalogCount(w.catalog, gid)
    decreases acts
  {
    if acts == [] {
    } else {
      StepAccounts(w, acts[0], gid, missing);
      StepIsGood(w, acts[0]);
      RunAccounts(Step(w, acts[0]), acts[1..], gid, MissingAfter(w, acts[0], gid, missing));
    }
  }

  lemma {:induction false} RunStaysStocked(w: World, acts: seq<Action>)
    requires Good(w) && Stocked(w)
    ensures Stocked(Run(w, acts))
    decreases acts
  {
    if acts == [] {
    } else {
      StepStaysStocked(w, acts[0]);
      StepIsGood(w, acts[0]);
      RunStaysStocked(Step(w, acts[0]), acts[1..]);
    }
  }

  /** The MySQL route never oversells. */
  predicate WithinStock(m: Stores, gid: int, count: nat) {
    0 <= CacheStock(m, gid) && Books(m, gid) <= count
  }

  /** Every run, from books that miss `missing` units: stock is never negative, stock plus pending and
      paid rows stays within the baseline, and it equals the baseline exactly when nothing is missing:
      no cancellation record dropped a unit, and no reset stopped between orders and stock, since the
      last completed restocking. */
  lemma MySQLNeverOversold(w: World, acts: seq<Action>, gid: int, missing: nat)
    requires Good(w) && Stocked(w) && Books(w.m, gid) + missing == CatalogCount(w.catalog, gid)
    ensures WithinStock(Run(w, acts).m, gid, CatalogCount(w.catalog, gid))
    ensures Books(Run(w, acts).m, gid) == CatalogCount(w.catalog, gid) <==> Missing(w, acts, gid, missing) == 0
  {
    RunAccounts(w, acts, gid, missing);
    RunStaysStocked(w, acts);
  }

  /** The cancellation of a pending MySQL-mode order always finds its inventory row, so it can put the
      unit back in the same transaction. */
  lemma StockIsNeverMissing(w: World, acts: seq<Action>, uid: int, key: nat, missing: nat)
    requires Good(w) && Stocked(w) && uid in Run(w, acts).m.ledger
    requires
      var gid := Run(w, acts).m.ledger[uid].gift;
      Books(w.m, gid) + missing == CatalogCount(w.catalog, gid)
    ensures !MySQLStockMissing(Run(w, acts).m, uid, key)
  {
    var m := Run(w, acts).m;
    var gid := m.ledger[uid].gift;
    if IsPendingMySQL(m, uid, key) {
      MySQLNeverOversold(w, acts, gid, missing);
      RunStaysStocked(w, acts);
      CatalogIsFixed(w, acts);
      assert uid in Taken(m.ledger, gid);
    }
  }

  lemma FreshIsStocked(catalog: map<int, nat>, run: string)
    ensures Stocked(Fresh(catalog, run))
    ensures forall g :: Books(Fresh(catalog, run).m, g) == CatalogCount(catalog, g)
  {
    var w := Fresh(catalog, run);
    forall g
      ensures Books(w.m, g) == CatalogCount(catalog, g)
    {
      assert Taken(w.m.ledger, g) == {};
    }
  }

  // ---------------------------------------------------------------- when a unit is dropped

  /** The user has a cancelled old-format admission of the gift, and an unpaid MySQL-mode row of it. */
  predicate DoubleBooked(m: Stores, uid: int, gid: int) {
    && (uid, ANONYMOUS) in m.fate && m.fate[(uid, ANONYMOUS)].state == Cancelled && m.fate[(uid, ANONYMOUS)].gift == gid
    && uid in m.ledger && m.ledger[uid].mode == MySQLMode && m.ledger[uid].gift == gid
    && m.ledger[uid].status == PendingPayment
  }

  /** Only a doubly booked user's unit can be dropped. */
  lemma DropNeedsDoubleBooking(m: Stores, p: Proc, c: Choice, gid: int)
    requires Coherent(m) && ProcOk(m, p) && DropsUnit(m, p, c, gid)
    ensures DoubleBooked(m, p.uid, gid)
  {
    assert RowOk(m, p.uid);
  }

  /** The redelivery of an old create message to its handler, up to the cancellation record. */
  function OldCreate(uid: int, gid: int): seq<Action> {
    var calm := Choice(NoFault, false, 0);
    var create := CreateOrder(uid, gid, ANONYMOUS);
    [SendOld(create), Deliver(create), Consume(calm), Consume(calm), Consume(calm)]
  }

  lemma {:induction false} MissingAppend(w: World, acts: seq<Action>, a: Action, gid: int, missing: int)
    ensures Missing(w, acts + [a], gid, missing) == MissingAfter(Run(w, acts), a, gid, Missing(w, acts, gid, missing))
    decreases acts
  {
    if acts == [] {
      assert acts + [a] == [a] && [a][1..] == [];
    } else {
      assert (acts + [a])[1..] == acts[1..] + [a];
      MissingAppend(Step(w, acts[0]), acts[1..], a, gid, MissingAfter(w, acts[0], gid, missing));
    }
  }

  predicate MetBy(w: World, v: World, uid: int, pc: Pc, gid: int) {
    && v.consumer == Some(Proc(CreateJob, uid, gid, ANONYMOUS, pc))
    && v.m == w.m.(sent := v.m.sent)
  }

  lemma OldCreateIsDelivered(w: World, uid: int, gid: int)
    requires w.consumer.None?
    ensures MetBy(w, Run(w, OldCreate(uid, gid)[..2]), uid, InCreate(CreateReadAdmission), gid)
  {
    var acts := OldCreate(uid, gid);
    assert acts[..1] == [] + [acts[0]] && acts[..2] == acts[..1] + [acts[1]];
    RunAppend(w, [], acts[0]);
    RunAppend(w, acts[..1], acts[1]);
  }

  predicate GaveUpInOldFormat(m: Stores, uid: int, gid: int) {
    uid in m.redis.admissions && m.redis.admissions[uid] == Admission(gid, Cancelled, ANONYMOUS)
  }

  lemma OldCreateReadsAdmission(w: World, uid: int, gid: int)
    requires w.consumer.None? && GaveUpInOldFormat(w.m, uid, gid)
    ensures MetBy(w, Run(w, OldCreate(uid, gid)[..3]), uid, InCreate(CreateRun(Cancelled)), gid)
  {
    var acts := OldCreate(uid, gid);
    OldCreateIsDelivered(w, uid, gid);
    assert acts[..3] == acts[..2] + [acts[2]];
    RunAppend(w, acts[..2], acts[2]);
  }

  /** The handler reads the cancelled admission and goes on to record the cancellation. */
  lemma OldCreateReachesRecord(w: World, uid: int, gid: int)
    requires w.consumer.None? && GaveUpInOldFormat(w.m, uid, gid)
    ensures MetBy(w, Run(w, OldCreate(uid, gid)[..4]), uid, InRecord(RecordUpdate(false)), gid)
  {
    var acts := OldCreate(uid, gid);
    OldCreateReadsAdmission(w, uid, gid);
    assert acts[..4] == acts[..3] + [acts[3]];
    RunAppend(w, acts[..3], acts[3]);
  }

  lemma OldCreateDropsNothingBefore(w: World, uid: int, gid: int, missing: int)
    requires w.consumer.None? && GaveUpInOldFormat(w.m, uid, gid)
    ensures Missing(w, OldCreate(uid, gid)[..4], gid, missing) == missing
  {
    var acts := OldCreate(uid, gid);
    assert acts[..1] == [] + [acts[0]] && acts[..2] == acts[..1] + [acts[1]];
    MissingAppend(w, [], acts[0], gid, missing);
    MissingAppend(w, acts[..1], acts[1], gid, missing);
    OldCreateIsDelivered(w, uid, gid);
    OldCreateReadsAdmission(w, uid, gid);
    assert acts[..3] == acts[..2] + [acts[2]] && acts[..4] == acts[..3] + [acts[3]];
    MissingAppend(w, acts[..2], acts[2], gid, missing);
    MissingAppend(w, acts[..3], acts[3], gid, missing);
  }

  predicate LostUnit(w: World, v: World, uid: int) {
    && uid in v.m.ledger && v.m.ledger[uid].mode == MySQLMode
    && v.m.ledger[uid].status == Cancelled && v.m.ledger[uid].released
    && v.m.cacheStock == w.m.cacheStock
  }

  /** And a doubly booked user with a live admission does lose it: the next old create message marks
      the row cancelled and released, and the unit never returns. */
  lemma DoubleBookingDrops(w: World, uid: int, gid: int, missing: int)
    requires Good(w) && w.consumer.None? && DoubleBooked(w.m, uid, gid) && GaveUpInOldFormat(w.m, uid, gid)
    ensures LostUnit(w, Run(w, OldCreate(uid, gid)), uid)
    ensures Missing(w, OldCreate(uid, gid), gid, missing) == missing + 1
  {
    var acts := OldCreate(uid, gid);
    assert RowOk(w.m, uid);
    OldCreateReachesRecord(w, uid, gid);
    OldCreateDropsNothingBefore(w, uid, gid, missing);
    assert acts == acts[..4] + [acts[4]];
    RunAppend(w, acts[..4], acts[4]);
    MissingAppend(w, acts[..4], acts[4], gid, missing);
    assert Cancellable(Run(w, acts[..4]).m, uid, gid, ANONYMOUS);
  }

  /** Without a doubly booked user nothing is ever dropped. */
  lemma TwinFreeDropsNothing(w: World, a: Action, gid: int)
    requires Good(w) && TwinFree(w.m)
    ensures Dropped(w, a, gid) == 0
  {
    if Dropped(w, a, gid) == 1 {
      var p, c := if a.Move? then w.http[a.pid] else w.consumer.value, a.choice;
      if a.Move? {
        assert HttpOk(w, a.pid);
      }
      DropNeedsDoubleBooking(w.m, p, c, gid);
    }
  }

  /** In particular the books of a shop that never mixed the two routes balance to the unit. */
  lemma {:induction false} BooksBalanceWithoutTwins(w: World, acts: seq<Action>, gid: int)
    requires Good(w) && TwinFree(w.m) && NoTwinPurchase(w.m, acts)
    requires Books(w.m, gid) == CatalogCount(w.catalog, gid)
    requires forall a :: a in acts ==> !a.ResetFails?
    ensures Books(Run(w, acts).m, gid) == CatalogCount(w.catalog, gid)
    decreases acts
  {
    if acts == [] {
    } else {
      var a := acts[0];
      assert a in acts;
      TwinFreeDropsNothing(w, a, gid);
      StepAccounts(w, a, gid, 0);
      StepIsTwinFree(w, a);
      StepIsGood(w, a);
      BooksBalanceWithoutTwins(Step(w, a), acts[1..], gid);
    }
  }

  // ---------------------------------------------------------------- two shops after the upgrade

  /** User 1 gave up gift 7 in the old format and then bought it on the MySQL route, unpaid. */
  function MixedShop(admission: Status, shelf: int): World {
    Upgraded(map[7 := 1], "r1", map[7 := if admission == Cancelled then 1 else 0], map[7 := shelf],
             map[1 := Admission(7, admission, ANONYMOUS)], map[1 := Row(1, ANONYMOUS, 7, PendingPayment, MySQLMode, false)], 2)
  }

  /** The unit of the MySQL route is lost in a shop whose books were exact. */
  lemma MixedShopLosesUnit()
    ensures
      var w := MixedShop(Cancelled, 0);
      var v := Run(w, OldCreate(1, 7));
      && Good(w) && Stocked(w) && Books(w.m, 7) == 1
      && LostUnit(w, v, 1) && Books(v.m, 7) == 0
  {
    var w := MixedShop(Cancelled, 0);
    UpgradedIsGood(w.catalog, "r1", w.m.redis.stock, w.m.cacheStock, w.m.redis.admissions, w.m.ledger, 2);
    assert Taken(w.m.ledger, 7) == {1};
    assert (1, ANONYMOUS) in w.m.fate;
    DoubleBookingDrops(w, 1, 7, 0);
    RunAccounts(w, OldCreate(1, 7), 7, 0);
  }

  lemma MixedShopHoldsOne()
    ensures
      var w := MixedShop(PendingPayment, 0);
      && Good(w) && StockSafe(w) && Held(w.m.redis, 7) == 1
      && Hidden(w.m, 7) == {1} && Surplus(w.m, 7) == {} && Lagging(w.m, 7) == {}
  {
    var w := MixedShop(PendingPayment, 0);
    UpgradedIsGood(w.catalog, "r1", w.m.redis.stock, w.m.cacheStock, w.m.redis.admissions, w.m.ledger, 2);
    assert Holders(w.m.redis.admissions, 7) == {1};
    forall g | g != 7
      ensures Held(w.m.redis, g) == 0
    {
      assert Holders(w.m.redis.admissions, g) == {};
    }
    assert Hidden(w.m, 7) == {1};
  }

  /** In the same shop with the old admission still unpaid, recovery takes the MySQL-mode row for the
      order of that admission, counts nobody, and puts the unit on sale a second time. */
  lemma MixedShopOversellsAfterRecovery()
    ensures
      var w := MixedShop(PendingPayment, 0);
      var v := Step(w, Recover([1]));
      && Good(w) && StockSafe(w) && CatalogCount(w.catalog, 7) == 1
      && Stock(v.m.redis, 7) == 1 && Held(v.m.redis, 7) == 1
  {
    var w := MixedShop(PendingPayment, 0);
    MixedShopHoldsOne();
    RecoveryValue(w.m, [1], 7);
    assert Step(w, Recover([1])).m.redis.admissions == w.m.redis.admissions;
  }
}
