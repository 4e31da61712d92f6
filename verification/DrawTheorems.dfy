/** What a Draw promises, for every schedule of competing scripts and every failing call: at most one
    unit is taken under its identity, success means that unit and both messages, and exactly two lost
    calls can leave a unit open without success. */
module DrawTheorems {
  import opened Common
  import opened AdmissionScripts
  import opened OrderPrograms
  import opened Draw

  // ---------------------------------------------------------------- the identity's unit

  /** Some admission of this identity is not terminal. */
  predicate OpenUnit(r: Redis, id: Identity) {
    exists u :: u in r.admissions && r.admissions[u].id == id && !Terminal(r.admissions[u].state)
  }

  predicate NoAdmission(r: Redis, id: Identity) {
    forall u :: u in r.admissions ==> r.admissions[u].id != id
  }

  /** Scripts of other requests: they may do anything except take stock under this identity. */
  predicate Foreign(cs: seq<Command>, id: Identity) {
    forall c :: c in cs ==> !(c.DoAcquire? && c.id == id)
  }

  /** Users and gifts of the units granted under the identity, in order. */
  function Grants(r: Redis, cs: seq<Command>, id: Identity): seq<(int, int)>
    decreases cs
  {
    if cs == [] then [] else GrantOf(r, cs[0], id) + Grants(Apply(r, cs[0]), cs[1..], id)
  }

  function GrantOf(r: Redis, c: Command, id: Identity): seq<(int, int)> {
    if c.DoAcquire? && c.id == id && Acquire(r, c.uid, c.gid, c.id).1 == Acquired then [(c.uid, c.gid)] else []
  }

  lemma {:induction false} GrantsAppend(r: Redis, cs: seq<Command>, ds: seq<Command>, id: Identity)
    ensures ApplyAll(r, cs + ds) == ApplyAll(ApplyAll(r, cs), ds)
    ensures Grants(r, cs + ds, id) == Grants(r, cs, id) + Grants(ApplyAll(r, cs), ds, id)
    decreases cs
  {
    if cs == [] {
      assert cs + ds == ds;
    } else {
      assert (cs + ds)[0] == cs[0] && (cs + ds)[1..] == cs[1..] + ds;
      GrantsAppend(Apply(r, cs[0]), cs[1..], ds, id);
    }
  }

  lemma {:induction false} ForeignGrantsNothing(r: Redis, cs: seq<Command>, id: Identity)
    requires Foreign(cs, id)
    ensures Grants(r, cs, id) == []
    decreases cs
  {
    if cs == [] {
    } else {
      assert cs[0] in cs;
      ForeignGrantsNothing(Apply(r, cs[0]), cs[1..], id);
    }
  }

  lemma {:induction false} ForeignOpensNothing(r: Redis, cs: seq<Command>, id: Identity)
    requires Foreign(cs, id) && id.order != "" && !OpenUnit(r, id)
    ensures !OpenUnit(ApplyAll(r, cs), id)
    ensures NoAdmission(r, id) ==> NoAdmission(ApplyAll(r, cs), id)
    decreases cs
  {
    if cs == [] {
    } else {
      var next := Apply(r, cs[0]);
      assert cs[0] in cs;
      forall u | u in next.admissions && next.admissions[u].id == id
        ensures Terminal(next.admissions[u].state) && u in r.admissions && r.admissions[u].id == id
      {
        if u in r.admissions && r.admissions[u].id == id {
          assert Terminal(r.admissions[u].state);
        }
      }
      ForeignOpensNothing(next, cs[1..], id);
    }
  }

  /** Nobody but this user can hold a unit of the identity, and only of this gift. */
  predicate Exclusive(r: Redis, uid: int, gid: int, id: Identity) {
    && RunIsCurrent(r, id)
    && (forall u :: u in r.admissions && r.admissions[u].id == id ==> u == uid && r.admissions[u].gift == gid)
  }

  lemma {:induction false} StaysExclusive(r: Redis, cs: seq<Command>, uid: int, gid: int, id: Identity)
    requires Foreign(cs, id) && id.order != "" && Exclusive(r, uid, gid, id)
    ensures Exclusive(ApplyAll(r, cs), uid, gid, id)
    decreases cs
  {
    if cs == [] {
    } else {
      assert cs[0] in cs;
      StaysExclusive(Apply(r, cs[0]), cs[1..], uid, gid, id);
    }
  }

  // ---------------------------------------------------------------- the promises

  ghost predicate Separate(d: Request) {
    FairPoints(d.env) && d.id.order != "" && forall n :: Foreign(d.env.others(n), d.id)
  }

  /** Nobody else runs a script during the Draw. */
  ghost predicate Alone(env: Env) {
    forall n :: env.others(n) == []
  }

  /** The store is the replay of the trace, and these units were granted under the identity. */
  predicate Replays(r: Redis, p: Progress, id: Identity, grants: seq<(int, int)>) {
    p.redis == ApplyAll(r, p.trace) && Grants(r, p.trace, id) == grants
  }

  /** The two calls whose failure leaves the unit: the acquire script granted it and its reply was
      lost, or the rollback's release script never ran. */
  predicate Owes(o: Outcome, env: Env) {
    var n := |o.end.calls|;
    && n > 0
    && match o.end.calls[n - 1] {
         case TryAcquire(_, granted) => granted && env.fault(n - 1) == LostAfter
         case RollBack => env.fault(n - 1) == LostBefore
         case _ => false
       }
  }

  predicate Messages(o: Outcome, d: Request, gid: int) {
    var both := [CancelOrder(d.uid, gid, d.id), CreateOrder(d.uid, gid, d.id)];
    o.sent <= both && (o.result.Won? ==> o.result == Won(gid) && o.sent == both)
  }

  predicate LastCallWas(o: Outcome, call: Call) {
    |o.end.calls| > 0 && o.end.calls[|o.end.calls| - 1] == call
  }

  /** Everything a Draw promises about its end. */
  ghost predicate Kept(r: Redis, o: Outcome, d: Request) {
    var grants := Grants(r, o.end.trace, d.id);
    && o.end.redis == ApplyAll(r, o.end.trace)
    && (if grants == [] then !o.result.Won? && o.sent == []
        else |grants| == 1 && grants[0].0 == d.uid && Messages(o, d, grants[0].1))
    && (o.result == NoStock ==>
          grants == [] && LastCallWas(o, ReadStock) && forall g :: g in d.registry ==> Stock(o.end.redis, g) <= 0)
    && (OpenUnit(o.end.redis, d.id) ==> o.result.Won? || Owes(o, d.env))
    && (Alone(d.env) && (o.result.Won? || Owes(o, d.env)) ==> OpenUnit(o.end.redis, d.id))
  }

  lemma MeanwhileReplays(r: Redis, p: Progress, d: Request, grants: seq<(int, int)>)
    requires Separate(d) && Replays(r, p, d.id, grants)
    ensures Replays(r, Meanwhile(p, d), d.id, grants)
  {
    var cs := d.env.others(|p.calls|);
    GrantsAppend(r, p.trace, cs, d.id);
    ForeignGrantsNothing(p.redis, cs, d.id);
  }

  lemma RanReplays(r: Redis, p: Progress, c: Command, call: Call, id: Identity, grants: seq<(int, int)>)
    requires Replays(r, p, id, grants)
    ensures Replays(r, Ran(p, c, call), id, grants + GrantOf(p.redis, c, id))
  {
    GrantsAppend(r, p.trace, [c], id);
    assert Grants(p.redis, [c], id) == GrantOf(p.redis, c, id);
  }

  /** The one unit was granted; it is still open unless somebody else ended it. */
  ghost predicate Holding(r: Redis, p: Progress, d: Request, gid: int) {
    && Separate(d) && Replays(r, p, d.id, [(d.uid, gid)]) && Exclusive(p.redis, d.uid, gid, d.id)
    && (Alone(d.env) ==> OpenUnit(p.redis, d.id))
  }

  lemma MeanwhileHolds(r: Redis, p: Progress, d: Request, gid: int)
    requires Holding(r, p, d, gid)
    ensures Holding(r, Meanwhile(p, d), d, gid)
  {
    MeanwhileReplays(r, p, d, [(d.uid, gid)]);
    StaysExclusive(p.redis, d.env.others(|p.calls|), d.uid, gid, d.id);
  }

  /** After the release script, whatever it answered, the identity has no open unit. */
  lemma RolledIsKept(r: Redis, p: Progress, d: Request, gid: int, code: Code, sent: seq<Message>)
    requires Holding(r, p, d, gid) && sent <= [CancelOrder(d.uid, gid, d.id), CreateOrder(d.uid, gid, d.id)]
    ensures Kept(r, Rolled(p, d, gid, code, sent), d)
  {
    MeanwhileHolds(r, p, d, gid);
    var q := Meanwhile(p, d);
    var o := Rolled(p, d, gid, code, sent);
    RanReplays(r, q, DoRelease(d.uid, gid, d.id), RollBack, d.id, [(d.uid, gid)]);
    assert Grants(r, o.end.trace, d.id) == [(d.uid, gid)] && Messages(o, d, gid);
    if FaultOf(q, d) != LostBefore {
      assert !OpenUnit(Release(q.redis, d.uid, gid, d.id).0, d.id);
    }
  }

  lemma CalledHolds(r: Redis, p: Progress, d: Request, gid: int, call: Call)
    requires Holding(r, p, d, gid)
    ensures Holding(r, Called(p, call), d, gid)
  {
  }

  lemma AnnounceOrderIsKept(r: Redis, p: Progress, d: Request, gid: int)
    requires Holding(r, p, d, gid)
    ensures Kept(r, AnnounceOrder(p, d, gid), d)
  {
    MeanwhileHolds(r, p, d, gid);
    var q := Meanwhile(p, d);
    var o := AnnounceOrder(p, d, gid);
    CalledHolds(r, q, d, gid, SendCreate);
    if FaultOf(q, d) != NoFault {
      RolledIsKept(r, Called(q, SendCreate), d, gid, MQSendFailed, o.sent);
    } else {
      assert Grants(r, o.end.trace, d.id) == [(d.uid, gid)] && Messages(o, d, gid);
    }
  }

  lemma AnnounceTimeoutIsKept(r: Redis, p: Progress, d: Request, gid: int)
    requires Holding(r, p, d, gid)
    ensures Kept(r, AnnounceTimeout(p, d, gid), d)
  {
    MeanwhileHolds(r, p, d, gid);
    var q := Meanwhile(p, d);
    CalledHolds(r, q, d, gid, SendCancel);
    if FaultOf(q, d) != NoFault {
      RolledIsKept(r, Called(q, SendCancel), d, gid, MQSendFailed, AnnounceTimeout(p, d, gid).sent);
    } else {
      AnnounceOrderIsKept(r, Called(q, SendCancel), d, gid);
    }
  }

  lemma GrantedIsKept(r: Redis, p: Progress, d: Request, gid: int)
    requires Holding(r, p, d, gid)
    ensures Kept(r, Granted(p, d, gid), d)
  {
    MeanwhileHolds(r, p, d, gid);
    var q := Meanwhile(p, d);
    CalledHolds(r, q, d, gid, LookUp);
    if FaultOf(q, d) != NoFault {
      RolledIsKept(r, Called(q, LookUp), d, gid, DrawFailed, []);
    } else {
      AnnounceTimeoutIsKept(r, Called(q, LookUp), d, gid);
    }
  }

  /** Nothing was granted under the identity yet. */
  ghost predicate Empty(r: Redis, p: Progress, d: Request) {
    && Separate(d) && Replays(r, p, d.id, []) && NoAdmission(p.redis, d.id)
    && forall i :: 0 <= i < |p.calls| ==> p.calls[i] == ReadStock || (p.calls[i].TryAcquire? && !p.calls[i].granted)
  }

  lemma MeanwhileStaysEmpty(r: Redis, p: Progress, d: Request)
    requires Empty(r, p, d)
    ensures Empty(r, Meanwhile(p, d), d)
  {
    MeanwhileReplays(r, p, d, []);
    ForeignOpensNothing(p.redis, d.env.others(|p.calls|), d.id);
  }

  lemma EmptyEndIsKept(r: Redis, p: Progress, d: Request, code: Code)
    requires Empty(r, p, d)
    ensures Kept(r, Outcome(Failure(code), [], p), d)
  {
  }

  /** One try of the acquire script either takes the one unit, or leaves the identity without any. */
  lemma TryKeeps(r: Redis, p: Progress, d: Request, gid: int)
    requires Empty(r, p, d)
    ensures
      var reply := Acquire(p.redis, d.uid, gid, d.id).1;
      var next := Ran(p, DoAcquire(d.uid, gid, d.id), TryAcquire(gid, reply == Acquired));
      if reply == Acquired then Holding(r, next, d, gid) else Empty(r, next, d)
  {
    var reply := Acquire(p.redis, d.uid, gid, d.id).1;
    RanReplays(r, p, DoAcquire(d.uid, gid, d.id), TryAcquire(gid, reply == Acquired), d.id, []);
    if reply == Acquired {
      assert Apply(p.redis, DoAcquire(d.uid, gid, d.id)).admissions[d.uid] == Admission(gid, StockAcquired, d.id);
    }
  }

  lemma LostReplyIsKept(r: Redis, p: Progress, d: Request, gid: int)
    requires Holding(r, p, d, gid)
    requires |p.calls| > 0 && p.calls[|p.calls| - 1] == TryAcquire(gid, true) && d.env.fault(|p.calls| - 1) == LostAfter
    ensures Kept(r, Outcome(Failure(DrawFailed), [], p), d)
  {
    assert Messages(Outcome(Failure(DrawFailed), [], p), d, gid);
  }

  /** Either the promises are kept by a reply, or the Draw goes on with nothing granted. */
  ghost predicate NextIsKept(r: Redis, next: Next, d: Request) {
    if next.Replied? then Kept(r, next.outcome, d) else Empty(r, next.at, d)
  }

  lemma TakenIsKept(r: Redis, q: Progress, d: Request, ids: seq<int>, weights: seq<real>, index: nat)
    requires Empty(r, q, d) && IsPool(ids, weights) && index < |ids|
    ensures NextIsKept(r, Taken(q, d, ids, weights, index), d)
  {
    var gid := ids[index];
    if FaultOf(q, d) == LostBefore {
      EmptyEndIsKept(r, Called(q, TryAcquire(gid, false)), d, DrawFailed);
    } else {
      var reply := Acquire(q.redis, d.uid, gid, d.id).1;
      var after := Ran(q, DoAcquire(d.uid, gid, d.id), TryAcquire(gid, reply == Acquired));
      TryKeeps(r, q, d, gid);
      if reply == Acquired {
        if FaultOf(q, d) == LostAfter {
          LostReplyIsKept(r, after, d, gid);
        } else {
          GrantedIsKept(r, after, d, gid);
        }
      } else if FaultOf(q, d) == LostAfter || reply != SoldOut {
        EmptyEndIsKept(r, after, d,
                       if FaultOf(q, d) == NoFault && reply == Duplicate then DuplicateParticipation else DrawFailed);
      }
    }
  }

  lemma TryOneIsKept(r: Redis, p: Progress, d: Request, ids: seq<int>, weights: seq<real>)
    requires Empty(r, p, d) && IsPool(ids, weights) && ids != []
    ensures NextIsKept(r, TryOne(p, d, ids, weights), d)
  {
    PoolPoint(d.env, |p.calls|, weights);
    MeanwhileStaysEmpty(r, p, d);
    TakenIsKept(r, Meanwhile(p, d), d, ids, weights, FirstReaching(weights, d.env.point(|p.calls|, Total(weights)), 0));
  }

  lemma ReadPoolIsKept(r: Redis, p: Progress, d: Request)
    requires Empty(r, p, d)
    ensures NextIsKept(r, ReadPool(p, d), d)
  {
    var q := Meanwhile(p, d);
    MeanwhileStaysEmpty(r, p, d);
    if FaultOf(q, d) != NoFault {
      EmptyEndIsKept(r, Called(q, ReadStock), d, DrawFailed);
    } else {
      assert forall g :: g in d.registry && Stock(q.redis, g) > 0 ==> g in CandidateIds(q.redis, d.registry);
    }
  }

  lemma {:induction false} PoolIsKept(r: Redis, p: Progress, d: Request, ids: seq<int>, weights: seq<real>, tries: nat)
    requires Empty(r, p, d) && IsPool(ids, weights) && tries > 0
    ensures Kept(r, DrawPool(p, d, ids, weights, tries), d)
    decreases 2 * tries, |ids|
  {
    if ids == [] {
      TryIsKept(r, p, d, tries - 1);
    } else {
      var next := TryOne(p, d, ids, weights);
      TryOneIsKept(r, p, d, ids, weights);
      if next.GoOn? {
        PoolIsKept(r, next.at, d, next.ids, next.weights, tries);
      }
    }
  }

  lemma {:induction false} TryIsKept(r: Redis, p: Progress, d: Request, tries: nat)
    requires Empty(r, p, d)
    ensures Kept(r, DrawTry(p, d, tries), d)
    decreases 2 * tries + 1, 0
  {
    if tries == 0 {
      EmptyEndIsKept(r, p, d, DrawFailed);
    } else {
      var next := ReadPool(p, d);
      ReadPoolIsKept(r, p, d);
      if next.GoOn? {
        PoolIsKept(r, next.at, d, next.ids, next.weights, tries);
      }
    }
  }

  /** Main result: for every schedule of competing scripts and every failing call, at most one unit was
      granted under the identity, and to this user; success is that unit and both messages in order,
      and no message names a unit that was not granted; "no stock" was true of every registered gift
      when it was read; and a unit still open without success means that the last call was the one
      that lost it. */
  lemma DrawKeepsItsPromises(r: Redis, d: Request, tries: nat)
    requires Separate(d) && NoAdmission(r, d.id)
    ensures Kept(r, DrawFrom(r, d, tries), d)
  {
    TryIsKept(r, Progress(r, [], []), d, tries);
  }

  // ---------------------------------------------------------------- when exactly a unit is left open

  ghost predicate NothingFails(env: Env) {
    forall n :: env.fault(n) == NoFault
  }

  /** Nothing fails: then without success no unit is left open, whatever the others do. */
  lemma WithoutFaultsNothingIsOwed(r: Redis, d: Request, tries: nat)
    requires Separate(d) && NoAdmission(r, d.id) && NothingFails(d.env)
    ensures OpenUnit(DrawFrom(r, d, tries).end.redis, d.id) ==> DrawFrom(r, d, tries).result.Won?
  {
    DrawKeepsItsPromises(r, d, tries);
  }

  /** What the first round of an undisturbed Draw finds. */
  function FirstRound(r: Redis, d: Request): AcquireReply {
    if CandidateIds(r, d.registry) == [] then SoldOut
    else if !RunIsCurrent(r, d.id) then StaleRun
    else if d.uid in r.admissions then Duplicate
    else Acquired
  }

  /** The first candidate of an undisturbed Draw. */
  lemma AloneFirstTry(r: Redis, d: Request, tries: nat) returns (gid: int)
    requires FairPoints(d.env) && Alone(d.env) && d.env.fault(0) == NoFault && d.env.fault(1) != LostBefore
    requires tries > 0 && CandidateIds(r, d.registry) != []
    ensures Stock(r, gid) > 0
    ensures
      var (n, reply) := Acquire(r, d.uid, gid, d.id);
      var next := Progress(n, [DoAcquire(d.uid, gid, d.id)], [ReadStock, TryAcquire(gid, reply == Acquired)]);
      DrawFrom(r, d, tries) ==
        if d.env.fault(1) == NoFault && reply == Acquired then Granted(next, d, gid)
        else
          var code := if d.env.fault(1) == NoFault && reply == Duplicate then DuplicateParticipation else DrawFailed;
          Outcome(Failure(code), [], next)
  {
    var start, p := Progress(r, [], []), Progress(r, [], [ReadStock]);
    var ids := CandidateIds(r, d.registry);
    var weights := Weights(r, ids);
    assert Meanwhile(start, d) == start && Meanwhile(p, d) == p;
    assert ReadPool(start, d) == GoOn(p, ids, weights);
    PoolPoint(d.env, 1, weights);
    var index := FirstReaching(weights, d.env.point(1, Total(weights)), 0);
    gid := ids[index];
    assert gid in ids;
    assert TryOne(p, d, ids, weights) == Taken(p, d, ids, weights, index);
    var next := TryOne(p, d, ids, weights);
    assert DrawPool(p, d, ids, weights, tries) == next.outcome && DrawFrom(r, d, tries) == next.outcome;
    assert [] + [DoAcquire(d.uid, gid, d.id)] == [DoAcquire(d.uid, gid, d.id)];
    assert forall granted :: [ReadStock] + [TryAcquire(gid, granted)] == [ReadStock, TryAcquire(gid, granted)];
  }

  /** The lost reply of the acquire script: the caller hears a failure, no message is sent, and the unit
      stays taken. */
  lemma LostAcquireReplyLeavesUnit(r: Redis, d: Request, tries: nat)
    requires FairPoints(d.env) && Alone(d.env) && d.id.order != "" && FirstRound(r, d) == Acquired && tries > 0
    requires d.env.fault(0) == NoFault && d.env.fault(1) == LostAfter
    ensures
      var o := DrawFrom(r, d, tries);
      o.result == Failure(DrawFailed) && o.sent == [] && OpenUnit(o.end.redis, d.id)
  {
    var gid := AloneFirstTry(r, d, tries);
    assert DrawFrom(r, d, tries).end.redis.admissions[d.uid].id == d.id;
  }

  /** Undisturbed and without failures a Draw wins exactly when some registered gift is in stock, the run
      is current and the user is new. */
  lemma AloneWinsExactlyWhenPossible(r: Redis, d: Request, tries: nat)
    requires FairPoints(d.env) && Alone(d.env) && NothingFails(d.env) && tries > 0
    ensures DrawFrom(r, d, tries).result.Won? <==> FirstRound(r, d) == Acquired
    ensures DrawFrom(r, d, tries).result == NoStock <==> FirstRound(r, d) == SoldOut
  {
    if FirstRound(r, d) == SoldOut {
      assert Meanwhile(Progress(r, [], []), d) == Progress(r, [], []);
    } else {
      var _ := AloneFirstTry(r, d, tries);
    }
  }
}
