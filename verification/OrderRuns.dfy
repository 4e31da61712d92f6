/** Whole runs of the order system: any number of HTTP operations, one message consumer, crashes,
    lost replies, redelivery, reordering, key expiry, experiment resets and offline recovery, in
    any interleaving. */
module OrderRuns {
  import opened Common
  import opened AdmissionScripts
  import opened OrderPrograms
  import opened OrderInvariants
  import opened OrderGuarantees
  import opened InventoryRecovery

  /** `http` holds running operations; `consumer` the one message being handled; `unacked` the
      messages the broker still redelivers; `issued` every order number ever named; `runs` every
      run id ever used; `catalog` the configured stock baseline. */
  datatype World = World(
    m: Stores,
    http: map<nat, Proc>,
    consumer: Option<Proc>,
    unacked: set<Message>,
    issued: set<string>,
    runs: set<string>,
    catalog: map<int, nat>)

  /** How far a reset got before it failed: the run was rotated; then orders, then MySQL stock were
      reset; then some of the Redis keys were deleted; then the stock of some gifts was rebuilt. */
  datatype ResetProgress =
    | Rotated
    | OrdersDeleted
    | CacheStockReset
    | KeysDeleted(stock: set<int>, users: set<int>)
    | StockRebuilt(gifts: set<int>)

  datatype Action =
    | StartDraw(pid: nat, uid: int, order: string)
    | StartPay(pid: nat, uid: int, gid: int, id: Identity)
    | StartGiveUp(pid: nat, uid: int, gid: int, id: Identity)
    | Move(pid: nat, choice: Choice)
    | Leave(pid: nat)
    | Deliver(msg: Message)
    | Consume(choice: Choice)
    | Ack
    | Abandon
    | Lapse(uid: int)
    | AcquireMySQL(uid: int, gid: int)
    | SendOld(msg: Message)
    | Reset(run: string)
    | ResetFails(run: string, progress: ResetProgress)
    | Recover(scan: seq<int>)

  function Handler(msg: Message): Proc {
    match msg
    case CreateOrder(u, g, id) => Proc(CreateJob, u, g, id, InCreate(CreateReadAdmission))
    case CancelOrder(u, g, id) => Proc(TimeoutJob, u, g, id, InTimeout(TimeoutFind))
  }

  function MessageOf(p: Proc): Message {
    if p.job == CreateJob then CreateOrder(p.uid, p.gid, p.id) else CancelOrder(p.uid, p.gid, p.id)
  }

  function Install(w: World, n: Stores): World {
    w.(m := n, unacked := w.unacked + (n.sent - w.m.sent))
  }

  /** Nobody holds the gate: every operation has returned, and so has the handler of a message that
      may still await its acknowledgement. */
  predicate Quiet(w: World) {
    && (forall pid :: pid in w.http ==> w.http[pid].pc.Done?)
    && (w.consumer.Some? ==> w.consumer.value.pc.Done?)
  }

  function InitialStock(catalog: map<int, nat>): map<int, int> {
    map g | g in catalog :: catalog[g]
  }

  /** The reset barrier is exclusive, so a reset is one step; the history stays. */
  function AfterReset(w: World, run: string): Stores {
    w.m.(redis := Redis(InitialStock(w.catalog), map[], Some(run)),
         ledger := map[], cacheStock := InitialStock(w.catalog), nextKey := 1)
  }

  function AfterFailedReset(w: World, run: string, progress: ResetProgress): Stores {
    var rotated := w.m.(redis := w.m.redis.(run := Some(run)));
    match progress
    case Rotated => rotated
    case OrdersDeleted => rotated.(ledger := map[], nextKey := 1)
    case CacheStockReset => rotated.(ledger := map[], nextKey := 1, cacheStock := InitialStock(w.catalog))
    case KeysDeleted(stock, users) =>
      var r := Redis(w.m.redis.stock - stock, w.m.redis.admissions - users, Some(run));
      rotated.(redis := r, ledger := map[], nextKey := 1, cacheStock := InitialStock(w.catalog))
    case StockRebuilt(gifts) =>
      var r := Redis(map g | g in w.catalog && g in gifts :: w.catalog[g], map[], Some(run));
      rotated.(redis := r, ledger := map[], nextKey := 1, cacheStock := InitialStock(w.catalog))
  }

  /** A reset, finished or not; the replies given before it are forgotten. */
  function WithReset(w: World, n: Stores, run: string): World {
    w.(m := n, runs := w.runs + {run}, http := map[])
  }

  function CatalogCount(catalog: map<int, nat>, gid: int): nat {
    if gid in catalog then catalog[gid] else 0
  }

  function RecoveredStock(w: World, scan: seq<int>): map<int, int> {
    map g | g in w.catalog :: Remaining(w.catalog[g], Sold(w.m, scan, g))
  }

  /** One atomic step; an action that is not enabled leaves the world as it is. */
  function Step(w: World, a: Action): World {
    match a
    case StartDraw(pid, uid, order) =>
      if pid in w.http || order == "" || order in w.issued || w.m.redis.run.None? then w
      else
        var p := Proc(DrawJob, uid, 0, Identity(order, w.m.redis.run.value), InDraw(DrawHasOrder));
        w.(http := w.http[pid := p], issued := w.issued + {order})
    case StartPay(pid, uid, gid, id) =>
      if pid in w.http then w
      else w.(http := w.http[pid := Proc(PayJob, uid, gid, id, InPay(PayFind))], issued := w.issued + {id.order})
    case StartGiveUp(pid, uid, gid, id) =>
      if pid in w.http then w
      else w.(http := w.http[pid := Proc(GiveUpJob, uid, gid, id, InCancel(CancelFind))], issued := w.issued + {id.order})
    case Move(pid, c) =>
      if pid !in w.http then w
      else
        var (n, p) := ProcStep(w.m, w.http[pid], c);
        Install(w, n).(http := w.http[pid := p])
    case Leave(pid) => w.(http := w.http - {pid})
    case Deliver(msg) =>
      if w.consumer.Some? || msg !in w.m.sent then w else w.(consumer := Some(Handler(msg)))
    case Consume(c) =>
      if w.consumer.None? then w
      else
        var (n, p) := ProcStep(w.m, w.consumer.value, c);
        Install(w, n).(consumer := Some(p))
    case Ack =>
      if w.consumer.None? || w.consumer.value.pc != Done(Ok) then w
      else w.(consumer := None, unacked := w.unacked - {MessageOf(w.consumer.value)})
    case Abandon => w.(consumer := None)
    case Lapse(uid) => w.(m := w.m.(redis := Expire(w.m.redis, uid)))
    case AcquireMySQL(uid, gid) =>
      if uid in w.m.ledger || gid !in w.m.cacheStock || w.m.cacheStock[gid] <= 0 then w
      else
        var n := Insert(w.m, uid, gid, ANONYMOUS, PendingPayment, MySQLMode);
        w.(m := n.(cacheStock := n.cacheStock[gid := n.cacheStock[gid] - 1]))
    case SendOld(msg) => if msg.id.order != "" then w else Install(w, Send(w.m, msg))
    case Reset(run) => if !Quiet(w) || run in w.runs then w else WithReset(w, AfterReset(w, run), run)
    case ResetFails(run, progress) =>
      if !Quiet(w) || run in w.runs then w else WithReset(w, AfterFailedReset(w, run, progress), run)
    case Recover(scan) =>
      if !Quiet(w) || !Covers(w.m, scan) then w
      else w.(m := w.m.(redis := w.m.redis.(stock := RecoveredStock(w, scan))))
  }

  function Run(w: World, acts: seq<Action>): World
    decreases acts
  {
    if acts == [] then w else Run(Step(w, acts[0]), acts[1..])
  }

  lemma {:induction false} RunAppend(w: World, acts: seq<Action>, a: Action)
    ensures Run(w, acts + [a]) == Step(Run(w, acts), a)
    decreases acts
  {
    if acts == [] {
      assert acts + [a] == [a];
      assert Run(Step(w, a), []) == Step(w, a);
    } else {
      assert (acts + [a])[1..] == acts[1..] + [a];
      RunAppend(Step(w, acts[0]), acts[1..], a);
    }
  }

  // ---------------------------------------------------------------- invariant

  predicate HttpOk(w: World, pid: nat)
    requires pid in w.http
  {
    var p := w.http[pid];
    && ProcOk(w.m, p)
    && (p.job == DrawJob || p.job == PayJob || p.job == GiveUpJob)
    && (p.job == DrawJob ==> p.id.order in w.issued)
  }

  predicate ConsumerOk(w: World) {
    w.consumer.Some? ==>
      && ProcOk(w.m, w.consumer.value)
      && (w.consumer.value.job == TimeoutJob || w.consumer.value.job == CreateJob)
  }

  predicate DrawsDiffer(w: World) {
    forall i, j :: i in w.http && j in w.http && i != j && w.http[i].job == DrawJob && w.http[j].job == DrawJob ==>
      w.http[i].id.order != w.http[j].id.order
  }

  predicate HistoryOk(w: World) {
    && w.m.redis.run.Some? && w.m.redis.run.value in w.runs
    && forall k :: k in w.m.fate ==> k.1.order == "" || (k.1.order in w.issued && k.1.run in w.runs)
  }

  /** An acknowledged CANCEL_ORDER left its identity settled. */
  predicate AckedIsSettled(w: World, msg: Message) {
    msg.CancelOrder? && msg !in w.unacked ==> Settled(w.m, msg.uid, msg.id)
  }

  predicate Good(w: World) {
    && Coherent(w.m)
    && (forall pid :: pid in w.http ==> HttpOk(w, pid))
    && ConsumerOk(w)
    && DrawsDiffer(w)
    && HistoryOk(w)
    && (forall msg :: msg in w.m.sent ==> AckedIsSettled(w, msg))
  }

  function Fresh(catalog: map<int, nat>, run: string): World {
    World(
      Stores(Redis(InitialStock(catalog), map[], Some(run)), map[], InitialStock(catalog), 1, {}, map[]),
      map[], None, {}, {}, {run}, catalog)
  }

  lemma FreshIsGood(catalog: map<int, nat>, run: string)
    ensures Good(Fresh(catalog, run))
  {
  }

  /** What a shop carries into the upgrade: admissions and ledger rows in the old format, which have
      no identity.  Redis-mode rows agree with a live admission of their user; MySQL-mode rows have
      nothing to do with one. */
  predicate CarriedOk(admissions: map<int, Admission>, rows: map<int, Row>, nextKey: nat) {
    && (forall u :: u in admissions ==> admissions[u].id == ANONYMOUS)
    && (forall u :: u in rows ==> rows[u].id == ANONYMOUS && rows[u].key < nextKey && rows[u].status != StockAcquired)
    && (forall u :: u in rows && u in admissions && rows[u].mode == RedisMode ==>
          rows[u].gift == admissions[u].gift && (Terminal(rows[u].status) ==> admissions[u].state == rows[u].status))
  }

  function LastKnown(admissions: map<int, Admission>, rows: map<int, Row>, uid: int): Admission
    requires uid in admissions || uid in rows
  {
    if uid in admissions then admissions[uid] else Admission(rows[uid].gift, rows[uid].status, ANONYMOUS)
  }

  function Upgraded(catalog: map<int, nat>, run: string, stock: map<int, int>, cacheStock: map<int, int>,
                    admissions: map<int, Admission>, rows: map<int, Row>, nextKey: nat): World
  {
    var known := admissions.Keys + set u | u in rows && rows[u].mode == RedisMode;
    var fate := map k | k in (set u | u in known :: (u, ANONYMOUS)) :: LastKnown(admissions, rows, k.0);
    World(
      Stores(Redis(stock, admissions, Some(run)), rows, cacheStock, nextKey, {}, fate),
      map[], None, {}, {}, {run}, catalog)
  }

  lemma UpgradedIsGood(catalog: map<int, nat>, run: string, stock: map<int, int>, cacheStock: map<int, int>,
                       admissions: map<int, Admission>, rows: map<int, Row>, nextKey: nat)
    requires CarriedOk(admissions, rows, nextKey)
    ensures Good(Upgraded(catalog, run, stock, cacheStock, admissions, rows, nextKey))
  {
    var m := Upgraded(catalog, run, stock, cacheStock, admissions, rows, nextKey).m;
    forall u | u in m.redis.admissions
      ensures AdmissionRecorded(m, u)
    {
      assert (u, ANONYMOUS) in m.fate;
    }
    forall u | u in m.ledger
      ensures RowOk(m, u)
    {
      assert m.ledger[u].mode == RedisMode ==> (u, ANONYMOUS) in m.fate;
    }
  }

  // ---------------------------------------------------------------- preservation

  /** Everyone's facts survive a store change that honours the guarantee and spends no fresh
      identity of a running Draw. */
  lemma OthersSurvive(w: World, n: Stores, key: (int, Identity), pid: nat)
    requires Good(w) && pid in w.http
    requires Keeps(w.m, n, key)
    requires PreAdmission(w.http[pid]) ==> KeyOf(w.http[pid]) !in n.fate
    ensures ProcOk(n, w.http[pid])
  {
    assert HttpOk(w, pid);
    FactsAreStable(w.m, n, key, w.http[pid]);
  }

  lemma MessagesStaySettled(w: World, n: Stores, key: (int, Identity), msg: Message)
    requires Good(w) && Keeps(w.m, n, key)
    requires msg in n.sent
    ensures AckedIsSettled(Install(w, n), msg)
  {
    if msg.CancelOrder? && msg !in Install(w, n).unacked {
      assert msg in w.m.sent && AckedIsSettled(w, msg) && MessageOk(w.m, msg);
      SettledIsStable(w.m, n, key, msg.uid, msg.id);
    }
  }

  /** One program stepped from `p` to `q`: the whole world stays good once the slot of that program
      is updated, because the step spent nobody else's identity. */
  lemma HttpAfterMove(w: World, pid: nat, n: Stores, q: Proc, i: nat)
    requires Good(w) && pid in w.http && i in w.http
    requires StepOk(w.m, w.http[pid], n, q)
    ensures
      var v := Install(w, n).(http := w.http[pid := q]);
      HttpOk(v, i) && v.http[i].job == w.http[i].job && v.http[i].id == w.http[i].id
  {
    assert HttpOk(w, i) && HttpOk(w, pid);
    if i != pid {
      OthersSurvive(w, n, KeyOf(w.http[pid]), i);
    }
  }

  lemma MoveIsGood(w: World, pid: nat, c: Choice)
    requires Good(w) && pid in w.http
    ensures Good(Step(w, Move(pid, c)))
  {
    var p := w.http[pid];
    assert HttpOk(w, pid);
    StepKeeps(w.m, p, c);
    MovedIsGood(w, pid, ProcStep(w.m, p, c).0, ProcStep(w.m, p, c).1);
  }

  lemma MovedMessages(w: World, n: Stores, key: (int, Identity), v: World)
    requires Good(w) && Keeps(w.m, n, key)
    requires v.m == n && v.unacked == Install(w, n).unacked
    ensures forall msg :: msg in n.sent ==> AckedIsSettled(v, msg)
  {
    forall msg | msg in n.sent
      ensures AckedIsSettled(v, msg)
    {
      MessagesStaySettled(w, n, key, msg);
    }
  }

  lemma MovedIsGood(w: World, pid: nat, n: Stores, q: Proc)
    requires Good(w) && pid in w.http
    requires StepOk(w.m, w.http[pid], n, q)
    ensures Good(Install(w, n).(http := w.http[pid := q]))
  {
    var v := Install(w, n).(http := w.http[pid := q]);
    assert HttpOk(w, pid);
    forall i | i in v.http
      ensures HttpOk(v, i) && v.http[i].job == w.http[i].job && v.http[i].id == w.http[i].id
    {
      HttpAfterMove(w, pid, n, q, i);
    }
    if w.consumer.Some? {
      FactsAreStable(w.m, n, KeyOf(w.http[pid]), w.consumer.value);
    }
    MovedMessages(w, n, KeyOf(w.http[pid]), v);
    assert HistoryOk(v);
  }

  lemma ConsumeIsGood(w: World, c: Choice)
    requires Good(w) && w.consumer.Some?
    ensures Good(Step(w, Consume(c)))
  {
    var p := w.consumer.value;
    var (n, q) := ProcStep(w.m, p, c);
    var v := Step(w, Consume(c));
    StepKeeps(w.m, p, c);
    forall i | i in v.http
      ensures HttpOk(v, i)
    {
      assert HttpOk(w, i);
      OthersSurvive(w, n, KeyOf(p), i);
    }
    forall msg | msg in n.sent
      ensures AckedIsSettled(v, msg)
    {
      MessagesStaySettled(w, n, KeyOf(p), msg);
    }
  }

  /** A store change made by nobody's program: expiry, the MySQL route, an old-format message. */
  lemma OutsideChangeIsGood(w: World, n: Stores, key: (int, Identity))
    requires Good(w) && Keeps(w.m, n, key) && NoNewPending(w.m, n) && n.fate == w.m.fate
    ensures Good(Install(w, n))
  {
    var v := Install(w, n);
    forall i | i in v.http
      ensures HttpOk(v, i)
    {
      assert HttpOk(w, i);
      OthersSurvive(w, n, key, i);
    }
    if w.consumer.Some? {
      FactsAreStable(w.m, n, key, w.consumer.value);
    }
    forall msg | msg in n.sent
      ensures AckedIsSettled(v, msg)
    {
      MessagesStaySettled(w, n, key, msg);
    }
  }

  lemma LapseKeeps(m: Stores, uid: int)
    requires Coherent(m)
    ensures var n := m.(redis := Expire(m.redis, uid)); Keeps(m, n, (uid, ANONYMOUS)) && NoNewPending(m, n)
  {
    var n := m.(redis := Expire(m.redis, uid));
    forall u | u in n.redis.admissions
      ensures AdmissionRecorded(n, u)
    {
      assert AdmissionRecorded(m, u);
    }
    forall u | u in n.ledger
      ensures RowOk(n, u)
    {
      assert RowOk(m, u);
    }
    forall msg | msg in n.sent
      ensures MessageOk(n, msg)
    {
      assert MessageOk(m, msg);
    }
  }

  lemma AcquireMySQLIsGood(w: World, uid: int, gid: int)
    requires Good(w)
    ensures Good(Step(w, AcquireMySQL(uid, gid)))
  {
    var v := Step(w, AcquireMySQL(uid, gid));
    if v != w {
      assert v.m.ledger - {uid} == w.m.ledger - {uid};
      assert RowOk(v.m, uid);
      RowWritten(w.m, v.m, uid, (uid, ANONYMOUS));
      OutsideChangeIsGood(w, v.m, (uid, ANONYMOUS));
      assert v == Install(w, v.m);
    }
  }

  /** A message handled before the reset may be acknowledged after it: its identity is of an earlier
      run by then. */
  lemma HandledBeforeReset(w: World, n: Stores, p: Proc)
    requires Good(w) && ProcOk(w.m, p) && p.pc.Done? && (p.job == TimeoutJob || p.job == CreateJob)
    requires n.redis.run.Some? && n.redis.run.value !in w.runs && n.sent == w.m.sent
    ensures ProcOk(n, p)
  {
    if p.job == TimeoutJob && p.id.order != "" {
      assert MessageOk(w.m, CancelOrder(p.uid, p.gid, p.id));
      assert (p.uid, p.id) in w.m.fate;
    }
  }

  /** No program runs during a reset, and old identities are never current again. */
  lemma ResetIsGood(w: World, n: Stores, run: string)
    requires Good(w) && Quiet(w) && run !in w.runs
    requires n.redis.run == Some(run) && n.sent == w.m.sent && n.fate == w.m.fate
    requires n.ledger == map[] || (n.ledger == w.m.ledger && n.nextKey == w.m.nextKey)
    requires forall u :: u in n.redis.admissions ==> u in w.m.redis.admissions && n.redis.admissions[u] == w.m.redis.admissions[u]
    ensures Good(WithReset(w, n, run))
  {
    var v := WithReset(w, n, run);
    forall u | u in n.redis.admissions
      ensures AdmissionRecorded(n, u)
    {
      assert AdmissionRecorded(w.m, u);
    }
    forall k | k in n.fate
      ensures FateOk(n, k)
    {
      assert FateOk(w.m, k);
    }
    forall u | u in n.ledger
      ensures RowOk(n, u)
    {
      assert RowOk(w.m, u);
    }
    forall msg | msg in n.sent
      ensures MessageOk(n, msg) && AckedIsSettled(v, msg)
    {
      assert MessageOk(w.m, msg);
    }
    if w.consumer.Some? {
      HandledBeforeReset(w, n, w.consumer.value);
    }
  }

  /** Rewriting stock touches nothing that any invariant or program looks at. */
  lemma StockIsInvisible(w: World, stock: map<int, int>)
    requires Good(w)
    ensures Good(w.(m := w.m.(redis := w.m.redis.(stock := stock))))
  {
    var n := w.m.(redis := w.m.redis.(stock := stock));
    forall u | u in n.redis.admissions
      ensures AdmissionRecorded(n, u)
    {
      assert AdmissionRecorded(w.m, u);
    }
    forall u | u in n.ledger
      ensures RowOk(n, u)
    {
      assert RowOk(w.m, u);
    }
    forall msg | msg in n.sent
      ensures MessageOk(n, msg)
    {
      assert MessageOk(w.m, msg);
    }
    assert Keeps(w.m, n, (0, ANONYMOUS)) && NoNewPending(w.m, n);
    OutsideChangeIsGood(w, n, (0, ANONYMOUS));
    assert Install(w, n) == w.(m := n);
  }

  lemma RecoverIsGood(w: World, scan: seq<int>)
    requires Good(w)
    ensures Good(Step(w, Recover(scan)))
  {
    StockIsInvisible(w, RecoveredStock(w, scan));
  }

  /** A new operation with a free pid, whose facts hold at its first statement. */
  lemma StartIsGood(w: World, pid: nat, p: Proc)
    requires Good(w) && pid !in w.http && ProcOk(w.m, p)
    requires p.job == PayJob || p.job == GiveUpJob || (p.job == DrawJob && p.id.order !in w.issued)
    ensures Good(w.(http := w.http[pid := p], issued := w.issued + {p.id.order}))
  {
    var v := w.(http := w.http[pid := p], issued := w.issued + {p.id.order});
    forall i | i in v.http
      ensures HttpOk(v, i)
    {
      if i != pid {
        assert HttpOk(w, i);
      }
    }
    forall msg | msg in v.m.sent
      ensures AckedIsSettled(v, msg)
    {
      assert AckedIsSettled(w, msg);
    }
  }

  lemma StartDrawIsGood(w: World, pid: nat, uid: int, order: string)
    requires Good(w)
    ensures Good(Step(w, StartDraw(pid, uid, order)))
  {
    if Step(w, StartDraw(pid, uid, order)) != w {
      StartIsGood(w, pid, Proc(DrawJob, uid, 0, Identity(order, w.m.redis.run.value), InDraw(DrawHasOrder)));
    }
  }

  lemma LeaveIsGood(w: World, pid: nat)
    requires Good(w)
    ensures Good(Step(w, Leave(pid)))
  {
    var v := Step(w, Leave(pid));
    forall i | i in v.http
      ensures HttpOk(v, i)
    {
      assert HttpOk(w, i);
    }
    forall msg | msg in v.m.sent
      ensures AckedIsSettled(v, msg)
    {
      assert AckedIsSettled(w, msg);
    }
  }

  /** Delivery, acknowledgement and a crashed handler only move the consumer slot. */
  lemma ConsumerSlotIsGood(w: World, slot: Option<Proc>, unacked: set<Message>)
    requires Good(w)
    requires slot.Some? ==> ProcOk(w.m, slot.value) && (slot.value.job == TimeoutJob || slot.value.job == CreateJob)
    requires forall msg :: msg in w.m.sent && msg in w.unacked && msg !in unacked && msg.CancelOrder? ==>
               Settled(w.m, msg.uid, msg.id)
    ensures Good(w.(consumer := slot, unacked := unacked))
  {
    var v := w.(consumer := slot, unacked := unacked);
    forall i | i in v.http
      ensures HttpOk(v, i)
    {
      assert HttpOk(w, i);
    }
    forall msg | msg in v.m.sent
      ensures AckedIsSettled(v, msg)
    {
      assert AckedIsSettled(w, msg);
    }
  }

  lemma HandlerIsOk(m: Stores, msg: Message)
    requires Coherent(m) && msg in m.sent
    ensures ProcOk(m, Handler(msg))
  {
    assert MessageOk(m, msg);
  }

  lemma DeliveryIsGood(w: World, a: Action)
    requires Good(w) && (a.Deliver? || a.Ack? || a.Abandon?)
    ensures Good(Step(w, a))
  {
    if Step(w, a) != w {
      var v := Step(w, a);
      if a.Deliver? {
        HandlerIsOk(w.m, a.msg);
      }
      ConsumerSlotIsGood(w, v.consumer, v.unacked);
      assert v == w.(consumer := v.consumer, unacked := v.unacked);
    }
  }

  lemma OutsideIsGood(w: World, a: Action)
    requires Good(w) && (a.Lapse? || a.SendOld?)
    ensures Good(Step(w, a))
  {
    if a.Lapse? {
      var n := w.m.(redis := Expire(w.m.redis, a.uid));
      LapseKeeps(w.m, a.uid);
      OutsideChangeIsGood(w, n, (a.uid, ANONYMOUS));
      assert Step(w, a) == Install(w, n);
    } else if a.msg.id.order == "" {
      MessageSent(w.m, a.msg);
      OutsideChangeIsGood(w, Send(w.m, a.msg), (a.msg.uid, a.msg.id));
    }
  }

  lemma FullResetIsGood(w: World, run: string)
    requires Good(w)
    ensures Good(Step(w, Reset(run)))
  {
    if Quiet(w) && run !in w.runs {
      ResetIsGood(w, AfterReset(w, run), run);
    }
  }

  lemma FailedResetIsGood(w: World, run: string, progress: ResetProgress)
    requires Good(w)
    ensures Good(Step(w, ResetFails(run, progress)))
  {
    if Quiet(w) && run !in w.runs {
      ResetIsGood(w, AfterFailedReset(w, run, progress), run);
    }
  }

  lemma StepIsGood(w: World, a: Action)
    requires Good(w)
    ensures Good(Step(w, a))
  {
    match a {
      case StartDraw(pid, uid, order) => StartDrawIsGood(w, pid, uid, order);
      case StartPay(pid, uid, gid, id) =>
        if pid !in w.http {
          StartIsGood(w, pid, Proc(PayJob, uid, gid, id, InPay(PayFind)));
        }
      case StartGiveUp(pid, uid, gid, id) =>
        if pid !in w.http {
          StartIsGood(w, pid, Proc(GiveUpJob, uid, gid, id, InCancel(CancelFind)));
        }
      case Move(pid, c) =>
        if pid in w.http {
          MoveIsGood(w, pid, c);
        }
      case Leave(pid) => LeaveIsGood(w, pid);
      case Deliver(_) => DeliveryIsGood(w, a);
      case Consume(c) =>
        if w.consumer.Some? {
          ConsumeIsGood(w, c);
        }
      case Ack => DeliveryIsGood(w, a);
      case Abandon => DeliveryIsGood(w, a);
      case Lapse(_) => OutsideIsGood(w, a);
      case AcquireMySQL(uid, gid) => AcquireMySQLIsGood(w, uid, gid);
      case SendOld(_) => OutsideIsGood(w, a);
      case Reset(run) => FullResetIsGood(w, run);
      case ResetFails(run, progress) => FailedResetIsGood(w, run, progress);
      case Recover(scan) => RecoverIsGood(w, scan);
    }
  }

  /** Every reachable world is good, whatever the schedule, faults and arguments. */
  lemma {:induction false} RunIsGood(w: World, acts: seq<Action>)
    requires Good(w)
    ensures Good(Run(w, acts))
    decreases acts
  {
    if acts == [] {
    } else {
      StepIsGood(w, acts[0]);
      RunIsGood(Step(w, acts[0]), acts[1..]);
    }
  }
}
