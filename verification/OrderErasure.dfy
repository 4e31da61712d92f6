/** Non-interference of stale traffic.  An identity is stale for a user when neither store holds a
    record of that user under it and no Draw is about to use it: an order of an earlier run, of
    another user, a guessed or superseded one, or the empty identity.  Erasing from any run every
    request and every message with a stale identity leaves both stores exactly as they were. */
module OrderErasure {
  import opened Common
  import opened AdmissionScripts
  import opened OrderPrograms
  import opened OrderInvariants
  import opened OrderGuarantees
  import opened OrderRuns
  import opened InventoryRecovery

  // ---------------------------------------------------------------- stale traffic

  /** Points a program can stand at without having matched anything. */
  predicate Unmatched(pc: Pc) {
    match pc
    case InDraw(_) => false
    case InPay(at) => at == PayFind || at == PayBefore
    case InTimeout(at) => at.TimeoutReadAdmission? ==> !at.mysql
    case InCreate(at) => at == CreateReadAdmission
    case InCancel(at) => at == CancelFind || at == CancelRelease(None) || at == CancelReadAdmission(None)
    case InRecord(_) => false
    case Done(_) => true
  }

  ghost predicate NoRecordUnder(m: Stores, stale: iset<(int, Identity)>) {
    && (forall u :: u in m.redis.admissions ==> (u, m.redis.admissions[u].id) !in stale)
    && (forall u :: u in m.ledger ==> (u, m.ledger[u].id) !in stale)
  }

  ghost predicate IsStale(p: Proc, stale: iset<(int, Identity)>) {
    (p.uid, p.id) in stale
  }

  ghost predicate Harmless(p: Proc, stale: iset<(int, Identity)>) {
    IsStale(p, stale) ==> Unmatched(p.pc)
  }

  ghost predicate StaleWorld(w: World, stale: iset<(int, Identity)>) {
    && NoRecordUnder(w.m, stale)
    && (forall k :: k in stale ==> k.1.order in w.issued || k.1.order == "")
    && (forall pid :: pid in w.http ==> Harmless(w.http[pid], stale))
    && (w.consumer.Some? ==> Harmless(w.consumer.value, stale))
  }

  // ---------------------------------------------------------------- erasure

  /** The action belongs to a request or message with a stale number. */
  ghost predicate Touches(w: World, stale: iset<(int, Identity)>, a: Action) {
    match a
    case StartPay(_, uid, _, id) => (uid, id) in stale
    case StartGiveUp(_, uid, _, id) => (uid, id) in stale
    case Move(pid, _) => pid in w.http && IsStale(w.http[pid], stale)
    case Leave(pid) => pid in w.http && IsStale(w.http[pid], stale)
    case Deliver(msg) => (msg.uid, msg.id) in stale
    case Consume(_) => w.consumer.Some? && IsStale(w.consumer.value, stale)
    case Ack => w.consumer.Some? && IsStale(w.consumer.value, stale)
    case Abandon => w.consumer.Some? && IsStale(w.consumer.value, stale)
    case _ => false
  }

  /** Stale actions and actions that were not enabled anyway are erased. */
  ghost predicate Erased(w: World, stale: iset<(int, Identity)>, a: Action) {
    Touches(w, stale, a) || Step(w, a) == w
  }

  ghost function Erase(w: World, stale: iset<(int, Identity)>, acts: seq<Action>): seq<Action>
    decreases acts
  {
    if acts == [] then []
    else (if Erased(w, stale, acts[0]) then [] else [acts[0]]) + Erase(Step(w, acts[0]), stale, acts[1..])
  }

  ghost function FreshHttp(http: map<nat, Proc>, stale: iset<(int, Identity)>): map<nat, Proc> {
    map pid | pid in http && !IsStale(http[pid], stale) :: http[pid]
  }

  ghost function FreshConsumer(consumer: Option<Proc>, stale: iset<(int, Identity)>): Option<Proc> {
    if consumer.Some? && IsStale(consumer.value, stale) then None else consumer
  }

  /** The same world without its stale requests and without the stale message being handled. */
  ghost function Without(w: World, stale: iset<(int, Identity)>): World {
    w.(http := FreshHttp(w.http, stale), consumer := FreshConsumer(w.consumer, stale))
  }

  /** `e` is what `w` would be had nothing stale ever been processed. */
  ghost predicate Mirrors(w: World, e: World, stale: iset<(int, Identity)>) {
    && e.m == w.m && e.runs == w.runs && e.catalog == w.catalog && e.issued <= w.issued
    && e.http == FreshHttp(w.http, stale)
    && e.consumer == FreshConsumer(w.consumer, stale)
    && forall msg: Message :: (msg.uid, msg.id) !in stale ==> (msg in w.unacked <==> msg in e.unacked)
  }

  // ---------------------------------------------------------------- one step

  /** A stale program finds nothing and changes nothing, at every one of its steps. */
  lemma StaleProgramIsInert(m: Stores, p: Proc, c: Choice, stale: iset<(int, Identity)>)
    requires Coherent(m) && NoRecordUnder(m, stale) && Harmless(p, stale) && IsStale(p, stale)
    ensures ProcStep(m, p, c).0 == m
    ensures Harmless(ProcStep(m, p, c).1, stale) && KeyOf(ProcStep(m, p, c).1) == KeyOf(p)
  {
    assert p.uid in m.ledger ==> RowOk(m, p.uid);
    assert Find(m.ledger, p.uid, p.id).None?;
    assert !Matches(m.redis, p.uid, p.gid, p.id);
    if p.pc.InPay? {
      assert PayStep(m, p, p.pc.pay, c).0 == m;
    } else if p.pc.InTimeout? {
      assert TimeoutStep(m, p, p.pc.timeout, c).0 == m;
    } else if p.pc.InCreate? {
      assert CreateStep(m, p, p.pc.create, c).0 == m;
    } else if p.pc.InCancel? {
      assert CancelStep(m, p, p.pc.cancel, c).0 == m;
    }
  }

  /** Programs write records only under their own number. */
  predicate WritesOwn(m: Stores, n: Stores, p: Proc, q: Proc) {
    && (forall u :: u in n.redis.admissions ==>
          || (u, n.redis.admissions[u].id) == (p.uid, p.id)
          || (u in m.redis.admissions && n.redis.admissions[u].id == m.redis.admissions[u].id))
    && (forall u :: u in n.ledger ==> (u, n.ledger[u].id) == (p.uid, p.id) || (u in m.ledger && n.ledger[u].id == m.ledger[u].id))
    && q.job == p.job && q.uid == p.uid && q.id == p.id && (q.pc.InDraw? ==> p.pc.InDraw?)
  }

  lemma DrawWritesOwn(m: Stores, p: Proc, at: DrawPc, c: Choice)
    requires p.pc == InDraw(at)
    requires p.id.order != ""
    ensures WritesOwn(m, DrawStep(m, p, at, c).0, p, DrawStep(m, p, at, c).1)
  {
  }

  lemma PayWritesOwn(m: Stores, p: Proc, at: PayPc, c: Choice)
    requires p.pc == InPay(at)
    ensures WritesOwn(m, PayStep(m, p, at, c).0, p, PayStep(m, p, at, c).1)
  {
  }

  lemma CreateWritesOwn(m: Stores, p: Proc, at: CreatePc, c: Choice)
    requires p.pc == InCreate(at)
    ensures WritesOwn(m, CreateStep(m, p, at, c).0, p, CreateStep(m, p, at, c).1)
  {
  }

  lemma CancelWritesOwn(m: Stores, p: Proc, at: CancelPc, c: Choice)
    requires p.pc == InCancel(at)
    ensures WritesOwn(m, CancelStep(m, p, at, c).0, p, CancelStep(m, p, at, c).1)
  {
  }

  lemma RecordWritesOwn(m: Stores, p: Proc, at: RecordPc, c: Choice)
    requires p.pc == InRecord(at)
    ensures WritesOwn(m, RecordStep(m, p, at, c).0, p, RecordStep(m, p, at, c).1)
  {
  }

  lemma ProgramWritesOwn(m: Stores, p: Proc, c: Choice)
    requires p.pc.InDraw? ==> p.id.order != ""
    ensures WritesOwn(m, ProcStep(m, p, c).0, p, ProcStep(m, p, c).1)
  {
    if p.pc.InDraw? {
      DrawWritesOwn(m, p, p.pc.draw, c);
    } else if p.pc.InPay? {
      PayWritesOwn(m, p, p.pc.pay, c);
    } else if p.pc.InTimeout? {
      assert TimeoutStep(m, p, p.pc.timeout, c).0 == m;
    } else if p.pc.InCreate? {
      CreateWritesOwn(m, p, p.pc.create, c);
    } else if p.pc.InCancel? {
      CancelWritesOwn(m, p, p.pc.cancel, c);
    } else if p.pc.InRecord? {
      RecordWritesOwn(m, p, p.pc.record, c);
    }
  }

  /** A program step keeps the numbers stale. */
  lemma ProgramStaysHarmless(m: Stores, p: Proc, c: Choice, stale: iset<(int, Identity)>)
    requires Coherent(m) && NoRecordUnder(m, stale) && Harmless(p, stale)
    requires p.pc.InDraw? ==> p.id.order != ""
    ensures NoRecordUnder(ProcStep(m, p, c).0, stale) && Harmless(ProcStep(m, p, c).1, stale)
    ensures KeyOf(ProcStep(m, p, c).1) == KeyOf(p)
    ensures IsStale(p, stale) ==> ProcStep(m, p, c).0 == m
  {
    if IsStale(p, stale) {
      StaleProgramIsInert(m, p, c, stale);
    } else {
      ProgramWritesOwn(m, p, c);
    }
  }

  /** Only the MySQL route writes rows without a number. */
  ghost predicate Allowed(stale: iset<(int, Identity)>, a: Action) {
    a.AcquireMySQL? ==> (a.uid, ANONYMOUS) !in stale
  }

  /** Draws have a number (part of every good world). */
  predicate DrawsAreNumbered(w: World) {
    && (forall pid :: pid in w.http && w.http[pid].pc.InDraw? ==> w.http[pid].id.order != "")
    && (w.consumer.Some? ==> !w.consumer.value.pc.InDraw?)
  }

  lemma GoodDrawsAreNumbered(w: World)
    requires Good(w)
    ensures DrawsAreNumbered(w)
  {
    forall pid | pid in w.http && w.http[pid].pc.InDraw?
      ensures w.http[pid].id.order != ""
    {
      assert HttpOk(w, pid);
    }
  }

  lemma MoveMirrors(w: World, e: World, stale: iset<(int, Identity)>, pid: nat, c: Choice)
    requires Coherent(w.m) && DrawsAreNumbered(w) && StaleWorld(w, stale) && Mirrors(w, e, stale) && pid in w.http
    ensures StaleWorld(Step(w, Move(pid, c)), stale)
    ensures Mirrors(Step(w, Move(pid, c)), if IsStale(w.http[pid], stale) then e else Step(e, Move(pid, c)), stale)
  {
    var (n, q) := ProcStep(w.m, w.http[pid], c);
    ProgramStaysHarmless(w.m, w.http[pid], c, stale);
    assert Step(w, Move(pid, c)) == Install(w, n).(http := w.http[pid := q]);
    if !IsStale(w.http[pid], stale) {
      assert e.http[pid] == w.http[pid];
      assert Step(e, Move(pid, c)) == Install(e, n).(http := e.http[pid := q]);
      assert FreshHttp(w.http[pid := q], stale) == FreshHttp(w.http, stale)[pid := q];
    } else {
      assert FreshHttp(w.http[pid := q], stale) == FreshHttp(w.http, stale);
    }
  }

  lemma ConsumeMirrors(w: World, e: World, stale: iset<(int, Identity)>, c: Choice)
    requires Coherent(w.m) && DrawsAreNumbered(w) && StaleWorld(w, stale) && Mirrors(w, e, stale) && w.consumer.Some?
    ensures StaleWorld(Step(w, Consume(c)), stale)
    ensures Mirrors(Step(w, Consume(c)), if IsStale(w.consumer.value, stale) then e else Step(e, Consume(c)), stale)
  {
    var (n, q) := ProcStep(w.m, w.consumer.value, c);
    ProgramStaysHarmless(w.m, w.consumer.value, c, stale);
    assert Step(w, Consume(c)) == Install(w, n).(consumer := Some(q));
    if !IsStale(w.consumer.value, stale) {
      assert Step(e, Consume(c)) == Install(e, n).(consumer := Some(q));
    }
  }

  lemma StartMirrors(w: World, e: World, stale: iset<(int, Identity)>, pid: nat, p: Proc)
    requires StaleWorld(w, stale) && Mirrors(w, e, stale) && pid !in w.http
    requires Unmatched(p.pc)
    ensures
      var v := w.(http := w.http[pid := p], issued := w.issued + {p.id.order});
      var f := e.(http := e.http[pid := p], issued := e.issued + {p.id.order});
      StaleWorld(v, stale) && Mirrors(v, if IsStale(p, stale) then e else f, stale)
  {
    if IsStale(p, stale) {
      assert FreshHttp(w.http[pid := p], stale) == FreshHttp(w.http, stale);
    } else {
      assert FreshHttp(w.http[pid := p], stale) == FreshHttp(w.http, stale)[pid := p];
    }
  }

  lemma LeaveMirrors(w: World, e: World, stale: iset<(int, Identity)>, pid: nat)
    requires StaleWorld(w, stale) && Mirrors(w, e, stale)
    ensures StaleWorld(Step(w, Leave(pid)), stale)
    ensures Mirrors(Step(w, Leave(pid)), if Erased(w, stale, Leave(pid)) then e else Step(e, Leave(pid)), stale)
  {
    var v := Step(w, Leave(pid));
    if pid in w.http && IsStale(w.http[pid], stale) {
      assert FreshHttp(v.http, stale) == FreshHttp(w.http, stale);
    } else {
      assert FreshHttp(v.http, stale) == FreshHttp(w.http, stale) - {pid};
    }
  }

  lemma RequestMirrors(w: World, e: World, stale: iset<(int, Identity)>, a: Action)
    requires StaleWorld(w, stale) && Mirrors(w, e, stale)
    requires a.StartPay? || a.StartGiveUp?
    ensures StaleWorld(Step(w, a), stale)
    ensures Mirrors(Step(w, a), if Erased(w, stale, a) then e else Step(e, a), stale)
  {
    if a.pid !in w.http {
      if a.StartPay? {
        StartMirrors(w, e, stale, a.pid, Proc(PayJob, a.uid, a.gid, a.id, InPay(PayFind)));
      } else {
        StartMirrors(w, e, stale, a.pid, Proc(GiveUpJob, a.uid, a.gid, a.id, InCancel(CancelFind)));
      }
    }
  }

  lemma MessageMirrors(w: World, e: World, stale: iset<(int, Identity)>, a: Action)
    requires StaleWorld(w, stale) && Mirrors(w, e, stale)
    requires a.Deliver? || a.Ack? || a.Abandon?
    ensures StaleWorld(Step(w, a), stale)
    ensures Mirrors(Step(w, a), if Erased(w, stale, a) then e else Step(e, a), stale)
  {
  }

  lemma DrawStartMirrors(w: World, e: World, stale: iset<(int, Identity)>, a: Action)
    requires StaleWorld(w, stale) && Mirrors(w, e, stale) && a.StartDraw?
    ensures StaleWorld(Step(w, a), stale)
    ensures Mirrors(Step(w, a), if Erased(w, stale, a) then e else Step(e, a), stale)
  {
    var v := Step(w, a);
    if v != w {
      assert (a.uid, Identity(a.order, w.m.redis.run.value)) !in stale;
      assert FreshHttp(v.http, stale) == Step(e, a).http;
    }
  }

  /** Expiry, the MySQL route, resets and recovery do not look at requests at all. */
  lemma OutsideMirrors(w: World, e: World, stale: iset<(int, Identity)>, a: Action)
    requires StaleWorld(w, stale) && Mirrors(w, e, stale) && Allowed(stale, a)
    requires a.Lapse? || a.AcquireMySQL? || a.SendOld?
    ensures StaleWorld(Step(w, a), stale)
    ensures Mirrors(Step(w, a), if Erased(w, stale, a) then e else Step(e, a), stale)
  {
  }

  lemma ResetMirrors(w: World, e: World, stale: iset<(int, Identity)>, n: Stores, run: string)
    requires StaleWorld(w, stale) && Mirrors(w, e, stale) && Quiet(w) && NoRecordUnder(n, stale)
    ensures Quiet(e)
    ensures StaleWorld(WithReset(w, n, run), stale) && Mirrors(WithReset(w, n, run), WithReset(e, n, run), stale)
  {
  }

  lemma BarrierMirrors(w: World, e: World, stale: iset<(int, Identity)>, a: Action)
    requires StaleWorld(w, stale) && Mirrors(w, e, stale)
    requires a.Reset? || a.ResetFails?
    ensures StaleWorld(Step(w, a), stale)
    ensures Mirrors(Step(w, a), if Erased(w, stale, a) then e else Step(e, a), stale)
  {
    if Step(w, a) != w {
      var n := if a.Reset? then AfterReset(w, a.run) else AfterFailedReset(w, a.run, a.progress);
      assert NoRecordUnder(n, stale);
      ResetMirrors(w, e, stale, n, a.run);
      assert n == if a.Reset? then AfterReset(e, a.run) else AfterFailedReset(e, a.run, a.progress);
      assert Step(w, a) == WithReset(w, n, a.run) && Step(e, a) == WithReset(e, n, a.run);
    }
  }

  lemma RecoverMirrors(w: World, e: World, stale: iset<(int, Identity)>, scan: seq<int>)
    requires StaleWorld(w, stale) && Mirrors(w, e, stale)
    ensures StaleWorld(Step(w, Recover(scan)), stale)
    ensures
      Mirrors(Step(w, Recover(scan)), if Erased(w, stale, Recover(scan)) then e else Step(e, Recover(scan)), stale)
  {
    if Step(w, Recover(scan)) != w {
      assert Quiet(e) && RecoveredStock(e, scan) == RecoveredStock(w, scan);
    }
  }

  lemma StepMirrors(w: World, e: World, stale: iset<(int, Identity)>, a: Action)
    requires Coherent(w.m) && DrawsAreNumbered(w) && StaleWorld(w, stale) && Mirrors(w, e, stale) && Allowed(stale, a)
    ensures StaleWorld(Step(w, a), stale)
    ensures Mirrors(Step(w, a), if Erased(w, stale, a) then e else Step(e, a), stale)
  {
    if Step(w, a) == w {
    } else if a.Move? {
      MoveMirrors(w, e, stale, a.pid, a.choice);
    } else if a.Consume? {
      ConsumeMirrors(w, e, stale, a.choice);
    } else if a.StartDraw? {
      DrawStartMirrors(w, e, stale, a);
    } else if a.Lapse? || a.AcquireMySQL? || a.SendOld? {
      OutsideMirrors(w, e, stale, a);
    } else if a.Reset? || a.ResetFails? {
      BarrierMirrors(w, e, stale, a);
    } else if a.Recover? {
      RecoverMirrors(w, e, stale, a.scan);
    } else if a.Deliver? || a.Ack? || a.Abandon? {
      MessageMirrors(w, e, stale, a);
    } else if a.Leave? {
      LeaveMirrors(w, e, stale, a.pid);
    } else {
      RequestMirrors(w, e, stale, a);
    }
  }

  // ---------------------------------------------------------------- whole runs

  lemma {:induction false} RunMirrors(w: World, e: World, stale: iset<(int, Identity)>, acts: seq<Action>)
    requires Good(w) && StaleWorld(w, stale) && Mirrors(w, e, stale)
    requires forall a :: a in acts ==> Allowed(stale, a)
    ensures Run(w, acts).m == Run(e, Erase(w, stale, acts)).m
    decreases acts
  {
    if acts == [] {
    } else {
      var a := acts[0];
      assert a in acts;
      GoodDrawsAreNumbered(w);
      StepMirrors(w, e, stale, a);
      StepIsGood(w, a);
      var rest := Erase(Step(w, a), stale, acts[1..]);
      if Erased(w, stale, a) {
        RunMirrors(Step(w, a), e, stale, acts[1..]);
        assert Erase(w, stale, acts) == rest;
      } else {
        RunMirrors(Step(w, a), Step(e, a), stale, acts[1..]);
        assert ([a] + rest)[1..] == rest;
      }
    }
  }

  /** Main result: whatever stale requests and messages a run contains, both stores, the sent
      messages and every history end exactly as in the run without them. */
  lemma StaleTrafficIsInvisible(w: World, stale: iset<(int, Identity)>, acts: seq<Action>)
    requires Good(w) && StaleWorld(w, stale)
    requires forall a :: a in acts ==> Allowed(stale, a)
    ensures Run(w, acts).m == Run(Without(w, stale), Erase(w, stale, acts)).m
  {
    RunMirrors(w, Without(w, stale), stale, acts);
  }

  /** The user takes the MySQL route in this run, which writes a row under the empty identity. */
  predicate BuysOnMySQL(acts: seq<Action>, uid: int) {
    exists a :: a in acts && a.AcquireMySQL? && a.uid == uid
  }

  /** Every identity ever named that differs from what the stores hold for its user; the empty one
      only for users who take no MySQL route later. */
  ghost function Mismatched(w: World, acts: seq<Action>): iset<(int, Identity)> {
    iset k: (int, Identity) |
      && (k.1.order in w.issued || k.1.order == "")
      && (k.0 in w.m.redis.admissions ==> w.m.redis.admissions[k.0].id != k.1)
      && (k.0 in w.m.ledger ==> w.m.ledger[k.0].id != k.1)
      && !(k.1 == ANONYMOUS && BuysOnMySQL(acts, k.0))
  }

  lemma MismatchedIsStale(w: World, acts: seq<Action>)
    requires Quiet(w)
    ensures StaleWorld(w, Mismatched(w, acts))
    ensures forall a :: a in acts ==> Allowed(Mismatched(w, acts), a)
  {
    forall a | a in acts
      ensures Allowed(Mismatched(w, acts), a)
    {
      assert a.AcquireMySQL? ==> BuysOnMySQL(acts, a.uid);
    }
  }

  /** From any quiet moment on, whatever is done later and by whom, traffic whose identity is not the
      one stored for its user then is invisible. */
  lemma MismatchedTrafficIsInvisible(w: World, before: seq<Action>, acts: seq<Action>)
    requires Good(w) && Quiet(Run(w, before))
    ensures
      var v := Run(w, before);
      var stale := Mismatched(v, acts);
      Run(v, acts).m == Run(Without(v, stale), Erase(v, stale, acts)).m
  {
    var v := Run(w, before);
    RunIsGood(w, before);
    MismatchedIsStale(v, acts);
    StaleTrafficIsInvisible(v, Mismatched(v, acts), acts);
  }

  /** A completed reset makes every identity named so far mismatched, for every user; only the empty
      one can come back to life, for the users who take the MySQL route afterwards. */
  lemma ResetMakesEverythingStale(w: World, run: string, acts: seq<Action>, uid: int, id: Identity)
    requires Quiet(w) && run !in w.runs
    ensures
      (uid, id) in Mismatched(Step(w, Reset(run)), acts) <==>
        (id.order in w.issued || id.order == "") && !(id == ANONYMOUS && BuysOnMySQL(acts, uid))
  {
  }
}
