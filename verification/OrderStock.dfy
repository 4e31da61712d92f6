/** Redis stock over whole runs: never oversold, exactly as long as every recovery counts all holders;
    who can be missed; and books that balance to the unit while nothing expires. */
module OrderStock {
  import opened Common
  import opened AdmissionScripts
  import opened OrderPrograms
  import opened OrderInvariants
  import opened OrderGuarantees
  import opened InventoryRecovery
  import opened OrderRuns

  // ---------------------------------------------------------------- programs own Redis through scripts only

  /** The script that a program runs at its next step, if any. */
  function Script(p: Proc, c: Choice): Option<Command> {
    if c.fault == LostBefore then None
    else match p.pc {
      case InDraw(at) =>
        if at == DrawAcquire && !c.flag then Some(DoAcquire(p.uid, c.gift, p.id))
        else if at == DrawRollback then Some(DoRelease(p.uid, p.gid, p.id))
        else None
      case InPay(at) => if at.PayClaim? then Some(DoClaim(p.uid, p.gid, p.id)) else None
      case InTimeout(_) => None
      case InCreate(at) => if at == CreateMark then Some(DoMark(p.uid, p.gid, p.id)) else None
      case InCancel(at) => if at.CancelRelease? then Some(DoRelease(p.uid, p.gid, p.id)) else None
      case InRecord(_) => None
      case Done(_) => None
    }
  }

  function AfterScript(r: Redis, cmd: Option<Command>): Redis {
    match cmd
    case None => r
    case Some(c) => Apply(r, c)
  }

  /** No program writes stock or admissions except through one of the four scripts, so the
      cancellation record in particular never touches stock again. */
  lemma OnlyScriptsTouchRedis(m: Stores, p: Proc, c: Choice)
    ensures ProcStep(m, p, c).0.redis == AfterScript(m.redis, Script(p, c))
  {
    if p.pc.InDraw? {
      assert DrawStep(m, p, p.pc.draw, c).0.redis == AfterScript(m.redis, Script(p, c));
    } else if p.pc.InPay? {
      assert PayStep(m, p, p.pc.pay, c).0.redis == AfterScript(m.redis, Script(p, c));
    } else if p.pc.InCreate? {
      assert CreateStep(m, p, p.pc.create, c).0.redis == AfterScript(m.redis, Script(p, c));
    } else if p.pc.InCancel? {
      assert CancelStep(m, p, p.pc.cancel, c).0.redis == AfterScript(m.redis, Script(p, c));
    } else if p.pc.InRecord? {
      assert RecordStep(m, p, p.pc.record, c).0.redis == m.redis;
    }
  }

  lemma ProgramConserves(m: Stores, p: Proc, c: Choice, gid: int)
    requires StockNonNegative(m.redis)
    ensures var n := ProcStep(m, p, c).0;
      StockNonNegative(n.redis) && Stock(n.redis, gid) + Held(n.redis, gid) == Stock(m.redis, gid) + Held(m.redis, gid)
  {
    OnlyScriptsTouchRedis(m, p, c);
    if Script(p, c).Some? {
      CommandConserves(m.redis, Script(p, c).value, gid);
    }
  }

  // ---------------------------------------------------------------- never oversold

  ghost predicate StockSafe(w: World) {
    && StockNonNegative(w.m.redis)
    && forall g :: Stock(w.m.redis, g) + Held(w.m.redis, g) <= CatalogCount(w.catalog, g)
  }

  /** Everything except expiry, resets and recovery keeps stock plus holders exactly. */
  predicate Rewrites(a: Action) {
    a.Lapse? || a.Reset? || a.ResetFails? || a.Recover?
  }

  lemma StepConserves(w: World, a: Action, gid: int)
    requires StockNonNegative(w.m.redis) && !Rewrites(a)
    ensures var v := Step(w, a);
      && StockNonNegative(v.m.redis)
      && Stock(v.m.redis, gid) + Held(v.m.redis, gid) == Stock(w.m.redis, gid) + Held(w.m.redis, gid)
  {
    if a.Move? && a.pid in w.http {
      ProgramConserves(w.m, w.http[a.pid], a.choice, gid);
    } else if a.Consume? && w.consumer.Some? {
      ProgramConserves(w.m, w.consumer.value, a.choice, gid);
    }
  }

  lemma FewerHolders(before: Redis, after: Redis, gid: int)
    requires forall u :: u in after.admissions ==> u in before.admissions && after.admissions[u] == before.admissions[u]
    ensures Held(after, gid) <= Held(before, gid)
  {
    var some, all := Holders(after.admissions, gid), Holders(before.admissions, gid);
    forall u | u in some
      ensures u in all
    {
    }
    assert all == some + (all - some);
  }

  /** Recovery counts at least as many units as sold as there are holders. */
  predicate CountsHolders(w: World, scan: seq<int>) {
    Quiet(w) && Covers(w.m, scan) ==> forall g :: g in w.catalog ==> Held(w.m.redis, g) <= Sold(w.m, scan, g)
  }

  /** Recovery keeps every gift within the catalogue exactly when it counts all holders. */
  lemma RecoverIsSafe(w: World, scan: seq<int>)
    requires Good(w) && StockSafe(w)
    ensures StockSafe(Step(w, Recover(scan))) <==> CountsHolders(w, scan)
  {
    if Quiet(w) && Covers(w.m, scan) {
      var v := Step(w, Recover(scan));
      forall g
        ensures Held(v.m.redis, g) == Held(w.m.redis, g)
        ensures g in w.catalog ==>
                  (Stock(v.m.redis, g) + Held(v.m.redis, g) <= CatalogCount(v.catalog, g) <==>
                     Held(w.m.redis, g) <= Sold(w.m, scan, g))
        ensures g !in w.catalog ==> Stock(v.m.redis, g) + Held(v.m.redis, g) <= CatalogCount(v.catalog, g)
      {
        assert Stock(w.m.redis, g) + Held(w.m.redis, g) <= CatalogCount(w.catalog, g);
        if g in w.catalog {
          RecoveryNeverOversells(w.m, scan, g, w.catalog[g]);
        }
        assert Holders(v.m.redis.admissions, g) == Holders(w.m.redis.admissions, g);
      }
    }
  }

  /** Dropping stock keys or admissions only lowers the books. */
  lemma LoweredIsSafe(w: World, v: World)
    requires StockSafe(w) && v.catalog == w.catalog
    requires forall u :: u in v.m.redis.admissions ==>
               u in w.m.redis.admissions && v.m.redis.admissions[u] == w.m.redis.admissions[u]
    requires forall g :: g in v.m.redis.stock ==> g in w.m.redis.stock && v.m.redis.stock[g] == w.m.redis.stock[g]
    ensures StockSafe(v)
  {
    forall g
      ensures Stock(v.m.redis, g) + Held(v.m.redis, g) <= CatalogCount(v.catalog, g)
    {
      assert Stock(w.m.redis, g) + Held(w.m.redis, g) <= CatalogCount(w.catalog, g);
      FewerHolders(w.m.redis, v.m.redis, g);
    }
  }

  lemma ResetIsSafe(w: World, a: Action)
    requires StockSafe(w) && (a.Reset? || (a.ResetFails? && a.progress.StockRebuilt?))
    ensures StockSafe(Step(w, a))
  {
    var v := Step(w, a);
    if v != w {
      forall g
        ensures Stock(v.m.redis, g) + Held(v.m.redis, g) <= CatalogCount(v.catalog, g)
      {
        assert Holders(v.m.redis.admissions, g) == {};
      }
    }
  }

  lemma RewriteIsSafe(w: World, a: Action)
    requires Good(w) && StockSafe(w) && Rewrites(a) && (a.Recover? ==> CountsHolders(w, a.scan))
    ensures StockSafe(Step(w, a))
  {
    if a.Reset? || (a.ResetFails? && a.progress.StockRebuilt?) {
      ResetIsSafe(w, a);
    } else if a.Recover? {
      RecoverIsSafe(w, a.scan);
    } else if a.Lapse? {
      LoweredIsSafe(w, Step(w, a));
    } else {
      LoweredIsSafe(w, Step(w, a));
    }
  }

  lemma StepIsSafe(w: World, a: Action)
    requires Good(w) && StockSafe(w) && (a.Recover? ==> CountsHolders(w, a.scan))
    ensures StockSafe(Step(w, a))
  {
    if Rewrites(a) {
      RewriteIsSafe(w, a);
    } else {
      var v := Step(w, a);
      StepConserves(w, a, 0);
      forall g
        ensures Stock(v.m.redis, g) + Held(v.m.redis, g) <= CatalogCount(v.catalog, g)
      {
        StepConserves(w, a, g);
        assert Stock(w.m.redis, g) + Held(w.m.redis, g) <= CatalogCount(w.catalog, g);
      }
    }
  }

  /** The books are safe at every moment of the run. */
  ghost predicate SafeThroughout(w: World, acts: seq<Action>)
    decreases acts
  {
    StockSafe(w) && (acts == [] || SafeThroughout(Step(w, acts[0]), acts[1..]))
  }

  /** Every recovery of the run counts all holders. */
  predicate RecoveriesCountHolders(w: World, acts: seq<Action>)
    decreases acts
  {
    acts == [] ||
    ((acts[0].Recover? ==> CountsHolders(w, acts[0].scan)) && RecoveriesCountHolders(Step(w, acts[0]), acts[1..]))
  }

  /** A run is safe throughout exactly when each of its recoveries counts all holders. */
  lemma {:induction false} SafeExactlyWhenRecoveriesCount(w: World, acts: seq<Action>)
    requires Good(w) && StockSafe(w)
    ensures SafeThroughout(w, acts) <==> RecoveriesCountHolders(w, acts)
    decreases acts
  {
    if acts == [] {
    } else {
      var a := acts[0];
      StepIsGood(w, a);
      if a.Recover? {
        RecoverIsSafe(w, a.scan);
      } else {
        StepIsSafe(w, a);
      }
      if StockSafe(Step(w, a)) {
        SafeExactlyWhenRecoveriesCount(Step(w, a), acts[1..]);
      } else {
        assert !SafeThroughout(Step(w, a), acts[1..]);
      }
    }
  }

  lemma {:induction false} SafeAtTheEnd(w: World, acts: seq<Action>)
    requires SafeThroughout(w, acts)
    ensures StockSafe(Run(w, acts))
    decreases acts
  {
    if acts == [] {
    } else {
      SafeAtTheEnd(Step(w, acts[0]), acts[1..]);
    }
  }

  lemma {:induction false} CatalogIsFixed(w: World, acts: seq<Action>)
    ensures Run(w, acts).catalog == w.catalog
    decreases acts
  {
    if acts == [] {
    } else {
      assert Step(w, acts[0]).catalog == w.catalog;
      CatalogIsFixed(Step(w, acts[0]), acts[1..]);
    }
  }

  predicate WithinCatalog(r: Redis, gid: int, count: nat) {
    0 <= Stock(r, gid) && Stock(r, gid) + Held(r, gid) <= count
  }

  /** Remaining stock plus users holding a unit stays within the catalogue, whatever expires, crashes,
      is redelivered, reset half-way or recovered, as long as recoveries count all holders. */
  lemma NeverOversold(w: World, acts: seq<Action>, gid: int)
    requires Good(w) && StockSafe(w) && RecoveriesCountHolders(w, acts)
    ensures WithinCatalog(Run(w, acts).m.redis, gid, CatalogCount(w.catalog, gid))
  {
    SafeExactlyWhenRecoveriesCount(w, acts);
    SafeAtTheEnd(w, acts);
    CatalogIsFixed(w, acts);
  }

  // ---------------------------------------------------------------- who can be missed

  /** No user has both an old-format admission in history and a MySQL-mode row. */
  predicate TwinFree(m: Stores) {
    forall u :: u in m.ledger && m.ledger[u].mode == MySQLMode ==> (u, ANONYMOUS) !in m.fate
  }

  /** No user with an old-format admission in history takes the MySQL route. */
  predicate NoTwinPurchase(m: Stores, acts: seq<Action>) {
    forall a :: a in acts && a.AcquireMySQL? ==> (a.uid, ANONYMOUS) !in m.fate
  }

  predicate NoMySQLRowAppears(m: Stores, n: Stores) {
    forall u :: u in n.ledger && n.ledger[u].mode == MySQLMode ==> u in m.ledger && m.ledger[u].mode == MySQLMode
  }

  lemma RecordInsertsNoMySQLRow(m: Stores, p: Proc, at: RecordPc, c: Choice)
    ensures NoMySQLRowAppears(m, RecordStep(m, p, at, c).0)
  {
    if !at.RecordUpdate? && !at.RecordFixReleased? && !at.RecordInsert? {
      assert RecordStep(m, p, at, c).0 == m;
    }
  }

  lemma CancelInsertsNoMySQLRow(m: Stores, p: Proc, at: CancelPc, c: Choice)
    ensures NoMySQLRowAppears(m, CancelStep(m, p, at, c).0)
  {
    if !at.CancelMySQL? {
      assert CancelStep(m, p, at, c).0.ledger == m.ledger;
    }
  }

  lemma CreateInsertsNoMySQLRow(m: Stores, p: Proc, at: CreatePc, c: Choice)
    ensures NoMySQLRowAppears(m, CreateStep(m, p, at, c).0)
  {
    if !at.CreateInsert? && !at.CreatePaidUpdate? {
      assert CreateStep(m, p, at, c).0.ledger == m.ledger;
    }
  }

  lemma PayInsertsNoMySQLRow(m: Stores, p: Proc, at: PayPc, c: Choice)
    ensures NoMySQLRowAppears(m, PayStep(m, p, at, c).0)
  {
    if !at.PayUpdate? {
      assert PayStep(m, p, at, c).0.ledger == m.ledger;
    }
  }

  /** Only the MySQL route inserts MySQL-mode rows. */
  lemma ProgramInsertsNoMySQLRow(m: Stores, p: Proc, c: Choice)
    ensures NoMySQLRowAppears(m, ProcStep(m, p, c).0)
  {
    if p.pc.InRecord? {
      RecordInsertsNoMySQLRow(m, p, p.pc.record, c);
    } else if p.pc.InCancel? {
      CancelInsertsNoMySQLRow(m, p, p.pc.cancel, c);
    } else if p.pc.InCreate? {
      CreateInsertsNoMySQLRow(m, p, p.pc.create, c);
    } else if p.pc.InPay? {
      PayInsertsNoMySQLRow(m, p, p.pc.pay, c);
    } else if p.pc.InDraw? {
      assert DrawStep(m, p, p.pc.draw, c).0.ledger == m.ledger;
    }
  }

  /** No new old-format admission appears. */
  ghost predicate NothingOldAppears(m: Stores, n: Stores) {
    forall u :: (u, ANONYMOUS) in n.fate ==> (u, ANONYMOUS) in m.fate
  }

  lemma ProgramAddsNothingOld(m: Stores, p: Proc, c: Choice)
    requires Coherent(m) && ProcOk(m, p)
    ensures NothingOldAppears(m, ProcStep(m, p, c).0)
  {
    StepKeeps(m, p, c);
  }

  lemma MoveAddsNoTwin(w: World, a: Action)
    requires Good(w) && (a.Move? || a.Consume?)
    ensures NothingOldAppears(w.m, Step(w, a).m) && NoMySQLRowAppears(w.m, Step(w, a).m)
  {
    if a.Move? && a.pid in w.http {
      assert HttpOk(w, a.pid);
      ProgramInsertsNoMySQLRow(w.m, w.http[a.pid], a.choice);
      ProgramAddsNothingOld(w.m, w.http[a.pid], a.choice);
    } else if a.Consume? && w.consumer.Some? {
      ProgramInsertsNoMySQLRow(w.m, w.consumer.value, a.choice);
      ProgramAddsNothingOld(w.m, w.consumer.value, a.choice);
    }
  }

  lemma StepIsTwinFree(w: World, a: Action)
    requires Good(w) && TwinFree(w.m)
    requires a.AcquireMySQL? ==> (a.uid, ANONYMOUS) !in w.m.fate
    ensures TwinFree(Step(w, a).m) && NothingOldAppears(w.m, Step(w, a).m)
  {
    if a.Move? || a.Consume? {
      MoveAddsNoTwin(w, a);
    } else {
      assert Step(w, a).m.fate == w.m.fate;
    }
  }

  lemma NobodyIsHidden(m: Stores, gid: int)
    requires Coherent(m) && TwinFree(m)
    ensures Hidden(m, gid) == {}
  {
    forall u | u in m.redis.admissions && u in m.ledger && m.ledger[u].mode == MySQLMode
      ensures m.redis.admissions[u].id != ANONYMOUS
    {
      assert AdmissionRecorded(m, u);
    }
    assert forall u :: u in m.ledger ==> RowOk(m, u);
  }

  /** Without such a user recovery misses nobody. */
  lemma TwinFreeCountsHolders(w: World, scan: seq<int>)
    requires Good(w) && TwinFree(w.m)
    ensures CountsHolders(w, scan)
  {
    if Quiet(w) && Covers(w.m, scan) {
      forall g | g in w.catalog
        ensures Held(w.m.redis, g) <= Sold(w.m, scan, g)
      {
        NobodyIsHidden(w.m, g);
        SoldIsExact(w.m, scan, g);
      }
    }
  }

  lemma {:induction false} TwinFreeRunsCount(w: World, acts: seq<Action>)
    requires Good(w) && TwinFree(w.m) && NoTwinPurchase(w.m, acts)
    ensures RecoveriesCountHolders(w, acts)
    decreases acts
  {
    if acts == [] {
    } else {
      assert acts[0] in acts;
      StepIsTwinFree(w, acts[0]);
      TwinFreeCountsHolders(w, if acts[0].Recover? then acts[0].scan else []);
      StepIsGood(w, acts[0]);
      TwinFreeRunsCount(Step(w, acts[0]), acts[1..]);
    }
  }

  /** So, unless a user of the old format also has a MySQL-mode row, no run ever oversells. */
  lemma NeverOversoldWithoutTwins(w: World, acts: seq<Action>, gid: int)
    requires Good(w) && StockSafe(w) && TwinFree(w.m) && NoTwinPurchase(w.m, acts)
    ensures WithinCatalog(Run(w, acts).m.redis, gid, CatalogCount(w.catalog, gid))
  {
    TwinFreeRunsCount(w, acts);
    NeverOversold(w, acts, gid);
  }

  lemma {:induction false} WithoutRecoveryNothingIsMissed(w: World, acts: seq<Action>)
    requires forall a :: a in acts ==> !a.Recover?
    ensures RecoveriesCountHolders(w, acts)
    decreases acts
  {
    if acts == [] {
    } else {
      assert acts[0] in acts;
      WithoutRecoveryNothingIsMissed(Step(w, acts[0]), acts[1..]);
    }
  }

  lemma FreshIsSafe(catalog: map<int, nat>, run: string)
    ensures StockSafe(Fresh(catalog, run))
    ensures forall g :: Balanced(Fresh(catalog, run), g)
  {
    var w := Fresh(catalog, run);
    forall g
      ensures Balanced(w, g)
    {
      assert Holders(w.m.redis.admissions, g) == {};
    }
    assert forall g :: Balanced(w, g);
  }

  predicate Balanced(w: World, gid: int) {
    Stock(w.m.redis, gid) + Held(w.m.redis, gid) == CatalogCount(w.catalog, gid)
  }

  /** While nothing expires and no reset fails half-way, the books balance to the unit. */
  predicate Clean(acts: seq<Action>) {
    forall a :: a in acts ==> !a.Lapse? && !a.ResetFails? && !a.Recover?
  }

  lemma {:induction false} BooksBalance(w: World, acts: seq<Action>, gid: int)
    requires Good(w) && StockSafe(w) && Balanced(w, gid) && Clean(acts)
    ensures Balanced(Run(w, acts), gid)
    decreases acts
  {
    if acts == [] {
    } else {
      var a := acts[0];
      assert a in acts;
      if a.Reset? {
        if Step(w, a) != w {
          assert Holders(Step(w, a).m.redis.admissions, gid) == {};
        }
      } else {
        StepConserves(w, a, gid);
      }
      StepIsSafe(w, a);
      StepIsGood(w, a);
      BooksBalance(Step(w, a), acts[1..], gid);
    }
  }
}
