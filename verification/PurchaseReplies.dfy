/** What buyers, publishers and consumers are told and do: every answer of a purchase is true over every
    run, and undisturbed every agent's round is decided by the rows it finds and the calls that fail. */
module PurchaseReplies {
  import opened Common
  import opened PurchaseModel
  import opened PurchaseSafety
  import opened PurchaseTheorems

  // ---------------------------------------------------------------- answers are true

  /** The order was placed with these parameters. */
  predicate Names(o: Order, r: Request) {
    o.batch == r.batch && o.quantity == r.quantity && o.strategy == r.strategy
  }

  predicate OrderedAs(db: Db, r: Request) {
    r.id in db.orders && Names(db.orders[r.id], r)
  }

  /** What an answer says about the order book, from the moment it is known until the next reset. */
  predicate OutcomeIsTrue(db: Db, r: Request, outcome: Outcome) {
    match outcome
    case Committed => OrderedAs(db, r)
    case Duplicate => OrderedAs(db, r)
    case Conflict => r.id in db.orders && !Names(db.orders[r.id], r)
    case SoldOut => db.stock < r.quantity
    case Failed => true
  }

  /** Every answer, and what a buyer knows that is about to answer "duplicate". */
  predicate AnswerIsTrue(db: Db, a: Agent) {
    a.Buyer? ==>
      && (a.buy.Deleting? || a.buy.Answered? ==> OutcomeIsTrue(db, a.request, a.buy.outcome))
      && (a.buy == ReadOutbox ==> OrderedAs(db, a.request))
  }

  predicate AllTrue(w: World) {
    forall pid :: pid in w.agents ==> AnswerIsTrue(w.s.db, w.agents[pid])
  }

  lemma BuyerAnswersTruly(s: Shared, pid: nat, r: Request, at: BuyPc, c: Choice)
    requires SharedOk(s) && BuyerOk(s, pid, r, at) && AnswerIsTrue(s.db, Buyer(r, at))
    ensures AnswerIsTrue(BuyStep(s, pid, r, at, c).0.db, BuyStep(s, pid, r, at, c).1)
  {
    if at.Commit? {
    } else {
      assert BuyStep(s, pid, r, at, c).0.db == s.db;
    }
  }

  /** An order book that only grew, and stock that only shrank, keep every answer true. */
  lemma AnswersStayTrue(before: Db, after: Db, a: Agent)
    requires AnswerIsTrue(before, a) && after.stock <= before.stock
    requires forall id :: id in before.orders ==> id in after.orders && after.orders[id] == before.orders[id]
    ensures AnswerIsTrue(after, a)
  {
  }

  lemma StepKeepsAnswers(w: World, a: Action)
    requires Good(w) && AllTrue(w) && !IsReset(w, a)
    ensures AllTrue(Step(w, a))
  {
    var v := Step(w, a);
    StepTakesOnce(w, a);
    StepIsGood(w, a);
    forall pid | pid in v.agents
      ensures AnswerIsTrue(v.s.db, v.agents[pid])
    {
      if a.Turn? && a.pid == pid && pid in w.agents && w.agents[pid].Buyer? {
        assert AgentOk(w.s, pid, w.agents[pid]);
        BuyerAnswersTruly(w.s, pid, w.agents[pid].request, w.agents[pid].buy, a.choice);
      } else if pid in w.agents && v.agents[pid] == w.agents[pid] {
        AnswersStayTrue(w.s.db, v.s.db, w.agents[pid]);
      }
    }
  }

  /** Main result: over every run without a reset, under any interleaving, fault and crash, whoever hears
      "committed" or "duplicate" has its order on the books with its own parameters, whoever hears
      "conflict" has reused a request id with other parameters, and whoever hears "sold out" asks for
      more than is left, now and for the rest of the run. */
  lemma {:induction false} AnswersAreTrue(w: World, acts: seq<Action>)
    requires Good(w) && AllTrue(w) && Unreset(w, acts)
    ensures AllTrue(Run(w, acts))
    decreases acts
  {
    if acts == [] {
    } else {
      StepKeepsAnswers(w, acts[0]);
      StepIsGood(w, acts[0]);
      AnswersAreTrue(Step(w, acts[0]), acts[1..]);
    }
  }

  // ---------------------------------------------------------------- one undisturbed purchase

  function Turns(s: Shared, pid: nat, a: Agent, cs: seq<Choice>): (Shared, Agent)
    decreases |cs|
  {
    if cs == [] then (s, a)
    else
      var (t, b) := AgentStep(s, pid, a, cs[0]);
      Turns(t, pid, b, cs[1..])
  }

  predicate Calm(cs: seq<Choice>) {
    forall i :: 0 <= i < |cs| ==> cs[i].fault == NoFault
  }

  predicate IsValid(r: Request) {
    r.batch != "" && r.id != "" && r.quantity > 0
  }

  /** The answer that the rows of MySQL call for. */
  function OutcomeFor(db: Db, r: Request): Outcome {
    var unlogged := r.strategy == OutboxInvalidate && r.id !in db.outbox;
    if !IsValid(r) then Failed
    else if r.id in db.orders then
      if !Names(db.orders[r.id], r) then Conflict else if unlogged then Failed else Duplicate
    else if db.stock < r.quantity then SoldOut
    else if r.strategy == OutboxInvalidate && !unlogged then Failed
    else Committed
  }

  predicate Positive(outcome: Outcome) {
    outcome == Committed || outcome == Duplicate
  }

  /** The order is on the books, its quantity taken, and in the outbox scheme its event pending. */
  predicate CommittedIn(s: Shared, t: Shared, r: Request) {
    && t.db.stock == s.db.stock - r.quantity
    && t.db.orders == s.db.orders[r.id := Order(r.batch, r.quantity, r.strategy)]
    && t.db.outbox == (if r.strategy == OutboxInvalidate then s.db.outbox[r.id := Event(Pending, 0, |s.stocks|)] else s.db.outbox)
    && t.stocks == s.stocks + [t.db.stock]
  }

  /** Only a commit changes MySQL; only a positive answer of the synchronous scheme deletes the DTO. */
  predicate AfterPurchase(s: Shared, t: Shared, r: Request) {
    var outcome := OutcomeFor(s.db, r);
    var deletes := Positive(outcome) && r.strategy == SyncInvalidate;
    && t.lock == s.lock && t.sent == s.sent
    && (if outcome == Committed then CommittedIn(s, t, r) else t.db == s.db && t.stocks == s.stocks)
    && t.cache == (if deletes then None else s.cache)
    && (!deletes ==> t.deleted == s.deleted) && (deletes ==> t.deleted == Version(t))
  }

  lemma AnsweredStays(s: Shared, pid: nat, r: Request, outcome: Outcome, invalidated: bool, cs: seq<Choice>)
    ensures Turns(s, pid, Buyer(r, Answered(outcome, invalidated)), cs) == (s, Buyer(r, Answered(outcome, invalidated)))
    decreases |cs|
  {
  }

  /** The right answer was given, and the right thing left behind. */
  predicate AnswersFor(s: Shared, pid: nat, r: Request, cs: seq<Choice>, at: BuyPc) {
    var (t, b) := Turns(s, pid, Buyer(r, at), cs);
    var outcome := OutcomeFor(s.db, r);
    && b == Buyer(r, Answered(outcome, Positive(outcome) && r.strategy == SyncInvalidate))
    && AfterPurchase(s, t, r)
  }

  lemma KnownIdAnswers(s: Shared, pid: nat, r: Request, cs: seq<Choice>)
    requires Calm(cs) && |cs| >= 3 && |s.stocks| > 0 && IsValid(r) && r.id in s.db.orders
    ensures AnswersFor(s, pid, r, cs, Validate)
    ensures OutcomeFor(s.db, r) == Conflict ==> Turns(s, pid, Buyer(r, Validate), cs).0 == s
  {
    assert cs[1..][1..] == cs[2..] && cs[2..][1..] == cs[3..];
    assert Turns(s, pid, Buyer(r, Validate), cs) == Turns(s, pid, Buyer(r, FindOrder), cs[1..]);
    var (s1, b1) := AgentStep(s, pid, Buyer(r, FindOrder), cs[1]);
    assert Turns(s, pid, Buyer(r, FindOrder), cs[1..]) == Turns(s1, pid, b1, cs[2..]);
    var (s2, b2) := AgentStep(s1, pid, b1, cs[2]);
    assert Turns(s1, pid, b1, cs[2..]) == Turns(s2, pid, b2, cs[3..]);
    AnsweredStays(s2, pid, r, b2.buy.outcome, b2.buy.invalidated, cs[3..]);
  }

  /** Alone, a request id that is on the books is answered "conflict" exactly when some parameter
      differs, and then nothing at all changes. */
  lemma ConflictExactlyWhenDifferent(s: Shared, pid: nat, r: Request, cs: seq<Choice>)
    requires Calm(cs) && |cs| >= 3 && |s.stocks| > 0 && IsValid(r) && r.id in s.db.orders
    ensures
      var (t, b) := Turns(s, pid, Buyer(r, Validate), cs);
      var o := s.db.orders[r.id];
      && (b == Buyer(r, Answered(Conflict, false)) <==>
            o.batch != r.batch || o.quantity != r.quantity || o.strategy != r.strategy)
      && (b == Buyer(r, Answered(Conflict, false)) ==> t == s)
  {
    KnownIdAnswers(s, pid, r, cs);
  }

  /** The transaction up to its commit. */
  lemma TransactionReachesCommit(s: Shared, pid: nat, r: Request, cs: seq<Choice>)
    requires Calm(cs) && |cs| == 7 && s.lock.None? && IsValid(r) && r.id !in s.db.orders && s.db.stock >= r.quantity
    ensures
      Turns(s, pid, Buyer(r, Validate), cs) ==
        if r.strategy == SyncInvalidate then Turns(s.(lock := Some(pid)), pid, Buyer(r, Commit), cs[4..])
        else Turns(s.(lock := Some(pid)), pid, Buyer(r, InsertOutbox), cs[4..])
  {
    assert cs[1..][1..] == cs[2..] && cs[2..][1..] == cs[3..] && cs[3..][1..] == cs[4..];
    assert Turns(s, pid, Buyer(r, Validate), cs) == Turns(s, pid, Buyer(r, FindOrder), cs[1..]);
    assert Turns(s, pid, Buyer(r, FindOrder), cs[1..]) == Turns(s, pid, Buyer(r, TakeStock), cs[2..]);
    var locked := s.(lock := Some(pid));
    assert Turns(s, pid, Buyer(r, TakeStock), cs[2..]) == Turns(locked, pid, Buyer(r, InsertOrder), cs[3..]);
  }

  lemma NewIdAnswers(s: Shared, pid: nat, r: Request, cs: seq<Choice>)
    requires Calm(cs) && |cs| == 7 && s.lock.None? && |s.stocks| > 0 && IsValid(r) && r.id !in s.db.orders
    ensures AnswersFor(s, pid, r, cs, Validate)
  {
    assert cs[1..][1..] == cs[2..] && cs[2..][1..] == cs[3..] && cs[4..][1..] == cs[5..] && cs[5..][1..] == cs[6..];
    if s.db.stock < r.quantity {
      assert Turns(s, pid, Buyer(r, Validate), cs) == Turns(s, pid, Buyer(r, FindOrder), cs[1..]);
      assert Turns(s, pid, Buyer(r, FindOrder), cs[1..]) == Turns(s, pid, Buyer(r, TakeStock), cs[2..]);
      assert Turns(s, pid, Buyer(r, TakeStock), cs[2..]) == Turns(s, pid, Buyer(r, Answered(SoldOut, false)), cs[3..]);
      AnsweredStays(s, pid, r, SoldOut, false, cs[3..]);
    } else {
      TransactionReachesCommit(s, pid, r, cs);
      var locked := s.(lock := Some(pid));
      var done := CommitPurchase(locked, pid, r);
      if r.strategy == SyncInvalidate {
        assert Turns(locked, pid, Buyer(r, Commit), cs[4..]) == Turns(done, pid, Buyer(r, Deleting(Committed, 1)), cs[5..]);
        assert Turns(done, pid, Buyer(r, Deleting(Committed, 1)), cs[5..])
            == Turns(DelCache(done), pid, Buyer(r, Answered(Committed, true)), cs[6..]);
        AnsweredStays(DelCache(done), pid, r, Committed, true, cs[6..]);
      } else if r.id in s.db.outbox {
        assert Turns(locked, pid, Buyer(r, InsertOutbox), cs[4..]) == Turns(s, pid, Fails(r), cs[5..]);
        AnsweredStays(s, pid, r, Failed, false, cs[5..]);
      } else {
        assert Turns(locked, pid, Buyer(r, InsertOutbox), cs[4..]) == Turns(locked, pid, Buyer(r, Commit), cs[5..]);
        assert Turns(locked, pid, Buyer(r, Commit), cs[5..]) == Turns(done, pid, Buyer(r, Answered(Committed, false)), cs[6..]);
        AnsweredStays(done, pid, r, Committed, false, cs[6..]);
      }
    }
  }

  /** Main result for one purchase: for every state of MySQL with the row unlocked, the answer and what
      it leaves behind. */
  lemma PurchaseAnswers(s: Shared, pid: nat, r: Request, cs: seq<Choice>)
    requires Calm(cs) && |cs| == 7 && s.lock.None? && |s.stocks| > 0
    ensures AnswersFor(s, pid, r, cs, Validate)
  {
    if !IsValid(r) {
      assert Turns(s, pid, Buyer(r, Validate), cs) == Turns(s, pid, Fails(r), cs[1..]);
      AnsweredStays(s, pid, r, Failed, false, cs[1..]);
    } else if r.id in s.db.orders {
      KnownIdAnswers(s, pid, r, cs);
    } else {
      NewIdAnswers(s, pid, r, cs);
    }
  }

  /** A purchase that was overtaken by the same request id reads the order it lost to, and answers as if
      it had found it at once. */
  lemma OvertakenAnswers(s: Shared, pid: nat, r: Request, cs: seq<Choice>)
    requires Calm(cs) && |cs| == 3 && |s.stocks| > 0 && IsValid(r) && r.id in s.db.orders
    ensures AnswersFor(s, pid, r, cs, ReadOrder)
  {
    var (s1, b1) := AgentStep(s, pid, Buyer(r, ReadOrder), cs[0]);
    assert Turns(s, pid, Buyer(r, ReadOrder), cs) == Turns(s1, pid, b1, cs[1..]);
    var (s2, b2) := AgentStep(s1, pid, b1, cs[1]);
    assert Turns(s1, pid, b1, cs[1..]) == Turns(s2, pid, b2, cs[1..][1..]);
    assert cs[1..][1..] == [cs[2]];
    assert Turns(s2, pid, b2, [cs[2]]) == AgentStep(s2, pid, b2, cs[2]);
  }

  /** The same when it learns so from the unique key, inside its own transaction: the transaction is
      rolled back and the row is free again. */
  lemma OvertakenInTransaction(s: Shared, pid: nat, r: Request, first: Choice, cs: seq<Choice>)
    requires first.fault == NoFault && Calm(cs) && |cs| == 3 && |s.stocks| > 0 && IsValid(r) && r.id in s.db.orders
    requires s.lock.None?
    ensures
      Turns(s.(lock := Some(pid)), pid, Buyer(r, InsertOrder), [first] + cs) == Turns(s, pid, Buyer(r, ReadOrder), cs)
      && AnswersFor(s, pid, r, cs, ReadOrder)
  {
    OvertakenAnswers(s, pid, r, cs);
    assert ([first] + cs)[1..] == cs;
  }

  /** The synchronous scheme tries its DEL at most three times: it reports the DTO as invalidated
      exactly when one of the attempts that it made was confirmed. */
  lemma ThreeDeletionAttempts(s: Shared, pid: nat, r: Request, outcome: Outcome, a: Choice, b: Choice, c: Choice)
    ensures
      var (t, agent) := Turns(s, pid, Buyer(r, Deleting(outcome, 1)), [a, b, c]);
      && agent == Buyer(r, Answered(outcome,
           a.fault == NoFault || (!a.stop && (b.fault == NoFault || (!b.stop && c.fault == NoFault)))))
      && t.db == s.db
  {
    var (s1, x1) := AgentStep(s, pid, Buyer(r, Deleting(outcome, 1)), a);
    assert [a, b, c][1..] == [b, c] && [b, c][1..] == [c];
    assert Turns(s, pid, Buyer(r, Deleting(outcome, 1)), [a, b, c]) == Turns(s1, pid, x1, [b, c]);
    var (s2, x2) := AgentStep(s1, pid, x1, b);
    assert Turns(s1, pid, x1, [b, c]) == Turns(s2, pid, x2, [c]);
    assert Turns(s2, pid, x2, [c]) == AgentStep(s2, pid, x2, c);
  }

  // ---------------------------------------------------------------- publisher, consumer, fill

  predicate EventIs(s: Shared, event: string, status: EventStatus, retries: nat) {
    event in s.db.outbox && s.db.outbox[event].status == status && s.db.outbox[event].retries == retries
  }

  /** Only this event of the outbox changed, and not its version. */
  predicate OnlyEvent(s: Shared, t: Shared, event: string) {
    && t.db.stock == s.db.stock && t.db.orders == s.db.orders && t.stocks == s.stocks
    && t.db.outbox - {event} == s.db.outbox - {event}
    && event in s.db.outbox && event in t.db.outbox && t.db.outbox[event].version == s.db.outbox[event].version
  }

  /** One round of the publisher over a claimed event, whatever fails: a confirmed send is recorded as
      published; a send that failed, even if it went through, puts the event up for claiming again with
      one more retry; if the write-back is lost it stays with the publisher until the next start. */
  lemma PublisherRound(s: Shared, pid: nat, event: string, claim: Choice, send: Choice, mark: Choice)
    requires event in s.db.outbox && Claimable(s.db.outbox[event].status) && claim.event == event && claim.fault == NoFault
    ensures
      var retries := s.db.outbox[event].retries;
      var (t, b) := Turns(s, pid, Worker(Idle), [claim, send, mark]);
      && b == Worker(Idle) && OnlyEvent(s, t, event) && t.cache == s.cache
      && t.sent == (if send.fault == LostBefore then s.sent else s.sent + {event})
      && if mark.fault == LostBefore then EventIs(t, event, Publishing, retries)
         else if send.fault == NoFault then EventIs(t, event, Published, retries)
         else EventIs(t, event, Retry, retries + 1)
  {
    assert [claim, send, mark][1..] == [send, mark] && [send, mark][1..] == [mark];
    var (s1, x1) := AgentStep(s, pid, Worker(Idle), claim);
    assert Turns(s, pid, Worker(Idle), [claim, send, mark]) == Turns(s1, pid, x1, [send, mark]);
    var (s2, x2) := AgentStep(s1, pid, x1, send);
    assert Turns(s1, pid, x1, [send, mark]) == Turns(s2, pid, x2, [mark]);
    assert Turns(s2, pid, x2, [mark]) == AgentStep(s2, pid, x2, mark);
  }

  /** One round of the consumer over a message: an event that is final or unknown is dropped; an open
      one is completed after a confirmed DEL; a failed DEL leaves its status and counts a retry; the
      message stays with the broker in every case. */
  lemma ConsumerRound(s: Shared, pid: nat, event: string, receive: Choice, look: Choice, del: Choice, mark: Choice)
    requires receive.event == event && event in s.sent && look.fault == NoFault && |s.stocks| > 0
    ensures
      var (t, b) := Turns(s, pid, Consumer(Waiting), [receive, look, del, mark]);
      IsOpen(s, event) ==>
        var e := s.db.outbox[event];
        && b == Consumer(Waiting) && OnlyEvent(s, t, event) && t.sent == s.sent
        && (del.fault != LostBefore ==> t.cache.None? && t.deleted == Version(t))
        && (del.fault == LostBefore ==> t.cache == s.cache && t.deleted == s.deleted)
        && if mark.fault == LostBefore then EventIs(t, event, e.status, e.retries)
           else if del.fault == NoFault then EventIs(t, event, Completed, e.retries)
           else EventIs(t, event, e.status, e.retries + 1)
  {
    assert [receive, look, del, mark][1..] == [look, del, mark] && [look, del, mark][1..] == [del, mark] && [del, mark][1..] == [mark];
    assert Turns(s, pid, Consumer(Waiting), [receive, look, del, mark]) == Turns(s, pid, Consumer(ReadEvent(event)), [look, del, mark]);
    if IsOpen(s, event) {
      assert Turns(s, pid, Consumer(ReadEvent(event)), [look, del, mark]) == Turns(s, pid, Consumer(DeleteCache(event)), [del, mark]);
      var (s1, x1) := AgentStep(s, pid, Consumer(DeleteCache(event)), del);
      assert Turns(s, pid, Consumer(DeleteCache(event)), [del, mark]) == Turns(s1, pid, x1, [mark]);
      assert Turns(s1, pid, x1, [mark]) == AgentStep(s1, pid, x1, mark);
    }
  }

  /** A message about a finished or unknown event is dropped without a DEL. */
  lemma FinishedEventIsDropped(s: Shared, event: string, look: Choice)
    requires !IsOpen(s, event)
    ensures ConsumeStep(s, ReadEvent(event), look) == (s, Consumer(Waiting))
  {
  }

  /** An undisturbed fill leaves a DTO that shows the stock in MySQL. */
  lemma FillIsCurrent(s: Shared, pid: nat, a: Choice, b: Choice)
    requires a.fault == NoFault && b.fault == NoFault && |s.stocks| > 0
    ensures
      var (t, agent) := Turns(s, pid, Filler(FillRead), [a, b]);
      agent == Filler(FillDone) && t.cache == Some(Entry(Version(s), false)) && t.db == s.db
  {
    assert [a, b][1..] == [b];
    assert Turns(s, pid, Filler(FillRead), [a, b]) == Turns(s, pid, Filler(FillSet(Version(s))), [b]);
    assert Turns(s, pid, Filler(FillSet(Version(s))), [b]) == AgentStep(s, pid, Filler(FillSet(Version(s))), b);
  }

  /** The rows after the reset transaction: full stock, no orders, nothing open in the outbox. */
  predicate ResetIn(s: Shared, t: Shared) {
    && t.db.stock == BASELINE && t.db.orders == map[] && t.stocks == s.stocks + [BASELINE] && t.lock.None?
    && t.db.outbox.Keys == s.db.outbox.Keys && (forall e :: e in t.db.outbox ==> Final(t.db.outbox[e].status))
    && (forall e :: e in s.db.outbox && Final(s.db.outbox[e].status) ==> t.db.outbox[e] == s.db.outbox[e])
  }

  /** A whole reset, whatever fails: it reports success exactly when all three calls were confirmed, and
      then the cache shows the new stock; a transaction that did not happen changes nothing. */
  lemma ResetRound(s: Shared, pid: nat, rows: Choice, look: Choice, put: Choice)
    requires s.lock.None?
    ensures
      var (t, b) := Turns(s, pid, Resetter(ResetRows), [rows, look, put]);
      && b == Resetter(ResetDone(rows.fault == NoFault && look.fault == NoFault && put.fault == NoFault))
      && (if rows.fault == LostBefore then t == s else ResetIn(s, t))
      && (b == Resetter(ResetDone(true)) ==> t.cache == Some(Entry(Version(t), false)))
  {
    assert [rows, look, put][1..] == [look, put] && [look, put][1..] == [put];
    var (s1, x1) := AgentStep(s, pid, Resetter(ResetRows), rows);
    assert Turns(s, pid, Resetter(ResetRows), [rows, look, put]) == Turns(s1, pid, x1, [look, put]);
    var (s2, x2) := AgentStep(s1, pid, x1, look);
    assert Turns(s1, pid, x1, [look, put]) == Turns(s2, pid, x2, [put]);
    assert Turns(s2, pid, x2, [put]) == AgentStep(s2, pid, x2, put);
  }

  // ---------------------------------------------------------------- failing statements

  /** A statement that failed without effect changes neither MySQL nor the broker nor the cache, and one
      whose reply was lost has had its whole effect there. */
  predicate FaultsAreHonest(s: Shared, pid: nat, a: Agent, c: Choice) {
    var t, calm := AgentStep(s, pid, a, c).0, AgentStep(s, pid, a, c.(fault := NoFault)).0;
    && (c.fault == LostBefore ==> t.db == s.db && t.sent == s.sent && t.cache == s.cache && t.stocks == s.stocks)
    && (c.fault == LostAfter ==> t.db == calm.db && t.sent == calm.sent && t.cache == calm.cache && t.stocks == calm.stocks)
  }

  /** A purchase answers an error to any failing statement, even to a commit that went through. */
  predicate FaultsAreReported(s: Shared, pid: nat, r: Request, at: BuyPc, c: Choice) {
    c.fault != NoFault && !at.Validate? && !at.Deleting? && !at.Answered? && !(at.TakeStock? && s.lock.Some?) ==>
      AgentStep(s, pid, Buyer(r, at), c).1 == Fails(r)
  }

  lemma FailingStatements(s: Shared, pid: nat, a: Agent, c: Choice)
    requires c.fault == LostAfter ==> !(a.Worker? && a.work == Idle)
    ensures FaultsAreHonest(s, pid, a, c)
    ensures a.Buyer? ==> FaultsAreReported(s, pid, a.request, a.buy, c)
  {
  }

  /** A publisher whose claim went through unheard has claimed the event all the same. */
  lemma LostClaim(s: Shared, c: Choice)
    requires c.fault == LostAfter
    ensures WorkStep(s, Idle, c) == (WorkStep(s, Idle, c.(fault := NoFault)).0, Worker(Idle))
  {
  }

  /** The row lock is held by a transaction in progress, and by nobody else. */
  predicate LockIsHeld(w: World) {
    w.s.lock.Some? ==> w.s.lock.value in w.agents && InTransaction(w.agents[w.s.lock.value])
  }

  lemma StepKeepsLockHeld(w: World, a: Action)
    requires Good(w) && LockIsHeld(w)
    ensures LockIsHeld(Step(w, a))
  {
    if a.Turn? && a.pid in w.agents {
      TurnKeepsLockHeld(w.s, a.pid, w.agents[a.pid], a.choice);
    }
  }

  lemma TurnKeepsLockHeld(s: Shared, pid: nat, a: Agent, c: Choice)
    requires AgentOk(s, pid, a) && (s.lock == Some(pid) ==> InTransaction(a))
    ensures
      var (t, b) := AgentStep(s, pid, a, c);
      || (t.lock == s.lock && (s.lock == Some(pid) ==> InTransaction(b)))
      || t.lock.None?
      || (t.lock == Some(pid) && InTransaction(b))
  {
  }

  /** Over every run, whatever fails or crashes, no lock is left behind: the row is free, or a
      transaction in progress holds it. */
  lemma {:induction false} NoLockIsLeftBehind(w: World, acts: seq<Action>)
    requires Good(w) && LockIsHeld(w)
    ensures LockIsHeld(Run(w, acts))
    decreases acts
  {
    if acts == [] {
    } else {
      StepKeepsLockHeld(w, acts[0]);
      StepIsGood(w, acts[0]);
      NoLockIsLeftBehind(Step(w, acts[0]), acts[1..]);
    }
  }

  // ---------------------------------------------------------------- published means sent

  predicate PublishedWasSent(w: World) {
    && (forall e :: e in w.s.db.outbox && w.s.db.outbox[e].status == Published ==> e in w.s.sent)
    && (forall pid :: pid in w.agents && w.agents[pid].Worker? && w.agents[pid].work.MarkPublished? ==>
          w.agents[pid].work.event in w.s.sent)
  }

  lemma AgentPublishesWhatItSent(s: Shared, pid: nat, a: Agent, c: Choice)
    requires a.Worker? && a.work.MarkPublished? ==> a.work.event in s.sent
    requires forall e :: e in s.db.outbox && s.db.outbox[e].status == Published ==> e in s.sent
    ensures
      var (t, b) := AgentStep(s, pid, a, c);
      && s.sent <= t.sent
      && (b.Worker? && b.work.MarkPublished? ==> b.work.event in t.sent)
      && (forall e :: e in t.db.outbox && t.db.outbox[e].status == Published ==> e in t.sent)
  {
    if a.Buyer? {
      var t := BuyStep(s, pid, a.request, a.buy, c).0;
      assert t.sent == s.sent && (t.db.outbox == s.db.outbox || t == CommitPurchase(s, pid, a.request));
    } else if a.Consumer? {
      assert ConsumeStep(s, a.consume, c).0.sent == s.sent;
    } else if a.Resetter? {
      assert ResetStep(s, pid, a.reset, c).0.sent == s.sent;
    }
  }

  lemma StepPublishesWhatWasSent(w: World, a: Action)
    requires PublishedWasSent(w)
    ensures PublishedWasSent(Step(w, a))
  {
    if a.Turn? && a.pid in w.agents {
      AgentPublishesWhatItSent(w.s, a.pid, w.agents[a.pid], a.choice);
    }
  }

  /** Over every run, whatever crashes or fails, an event recorded as published was sent. */
  lemma {:induction false} PublishedMeansSent(w: World, acts: seq<Action>)
    requires PublishedWasSent(w)
    ensures PublishedWasSent(Run(w, acts))
    decreases acts
  {
    if acts == [] {
    } else {
      StepPublishesWhatWasSent(w, acts[0]);
      PublishedMeansSent(Step(w, acts[0]), acts[1..]);
    }
  }
}
