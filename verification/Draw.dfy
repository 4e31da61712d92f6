/** One Draw from its admission checks to its reply: the weighted lottery, the two retry loops over
    a shrinking candidate pool, the send order of the two messages and the rollback, while any
    other users' scripts run between any two of its store calls.  `DrawGift` works on the shared store;
    `DrawTry` says what it does as a function of the store, the faults and everybody else, and the
    promises are proved about that, call by call and script by script. */
module Draw {
  import opened Common
  import opened AdmissionScripts
  import opened OrderPrograms

  // ---------------------------------------------------------------- the weighted lottery

  function Prefix(weights: seq<real>, n: nat): real
    requires n <= |weights|
  {
    if n == 0 then 0.0 else Prefix(weights, n - 1) + weights[n - 1]
  }

  predicate AllPositive(weights: seq<real>) {
    forall i :: 0 <= i < |weights| ==> weights[i] > 0.0
  }

  lemma {:induction false} PrefixGrows(weights: seq<real>, i: nat, j: nat)
    requires AllPositive(weights) && i <= j <= |weights|
    ensures Prefix(weights, i) <= Prefix(weights, j)
    ensures i < j ==> Prefix(weights, i) < Prefix(weights, j)
    decreases j
  {
    if i < j {
      PrefixGrows(weights, i, j - 1);
    }
  }

  function Total(weights: seq<real>): real {
    Prefix(weights, |weights|)
  }

  /** The drawn point falls into the interval of index `i`. */
  predicate DrawnBy(weights: seq<real>, point: real, i: int) {
    && 0 <= i < |weights|
    && point <= Prefix(weights, i + 1)
    && (i > 0 ==> Prefix(weights, i) < point)
  }

  /** Binary search for the first cumulative weight that reaches the point. */
  method SearchFirst(acc: seq<real>, point: real) returns (low: nat)
    requires acc != [] && point <= acc[|acc| - 1]
    ensures low < |acc| && point <= acc[low] && (low > 0 ==> acc[low - 1] < point)
  {
    var high := |acc| - 1;
    low := 0;
    while low < high
      invariant 0 <= low <= high < |acc|
      invariant low > 0 ==> acc[low - 1] < point
      invariant point <= acc[high]
    {
      var middle := (low + high) / 2;
      if acc[middle] < point {
        low := middle + 1;
      } else {
        high := middle;
      }
    }
  }

  method Cumulate(weights: seq<real>) returns (acc: seq<real>)
    ensures |acc| == |weights| && forall k :: 0 <= k < |acc| ==> acc[k] == Prefix(weights, k + 1)
  {
    acc := [];
    var sum := 0.0;
    for i := 0 to |weights|
      invariant |acc| == i && sum == Prefix(weights, i)
      invariant forall k :: 0 <= k < i ==> acc[k] == Prefix(weights, k + 1)
    {
      sum := sum + weights[i];
      acc := acc + [sum];
    }
  }

  /** The first index, from `low` on, whose cumulative weight reaches the point. */
  function FirstReaching(weights: seq<real>, point: real, low: nat): (index: nat)
    requires low < |weights| && point <= Total(weights) && (low > 0 ==> Prefix(weights, low) < point)
    ensures DrawnBy(weights, point, index)
    decreases |weights| - low
  {
    if low + 1 == |weights| || point <= Prefix(weights, low + 1) then low else FirstReaching(weights, point, low + 1)
  }

  /** Every point belongs to one index only, so a gift's chance is its share of the stock. */
  lemma DrawnByOne(weights: seq<real>, point: real, i: int, j: int)
    requires AllPositive(weights) && DrawnBy(weights, point, i) && DrawnBy(weights, point, j)
    ensures i == j
  {
    if i < j {
      PrefixGrows(weights, i + 1, j);
    } else if j < i {
      PrefixGrows(weights, j + 1, i);
    }
  }

  /** `point` is the random fraction, in [0, 1), of the total weight.  The index is in range, and it is
      the one whose interval of length weight contains the point. */
  method Lottery(weights: seq<real>, point: real) returns (index: int)
    requires AllPositive(weights) && (weights != [] ==> point < Total(weights))
    ensures weights == [] ==> index == -1
    ensures weights != [] ==> DrawnBy(weights, point, index) && index == FirstReaching(weights, point, 0)
  {
    if |weights| == 0 {
      return -1;
    }
    var acc := Cumulate(weights);
    index := SearchFirst(acc, point);
    DrawnByOne(weights, point, index, FirstReaching(weights, point, 0));
  }

  // ---------------------------------------------------------------- candidates

  /** Registered gifts in stock, in the order of the registry. */
  function CandidateIds(r: Redis, registry: seq<int>): (ids: seq<int>)
    ensures forall g :: g in ids <==> g in registry && Stock(r, g) > 0
  {
    if registry == [] then []
    else
      var last := registry[|registry| - 1];
      var ids := CandidateIds(r, registry[..|registry| - 1]);
      if Stock(r, last) > 0 then ids + [last] else ids
  }

  function Weights(r: Redis, ids: seq<int>): seq<real> {
    seq(|ids|, i requires 0 <= i < |ids| => Stock(r, ids[i]) as real)
  }

  /** The candidates of one stock snapshot, all of them, with their stock as weight. */
  method Candidates(store: RedisStore, registry: seq<int>) returns (ids: seq<int>, weights: seq<real>)
    ensures ids == CandidateIds(store.Snapshot(), registry) && weights == Weights(store.Snapshot(), ids)
    ensures forall g :: g in ids <==> g in registry && Stock(store.Snapshot(), g) > 0
    ensures AllPositive(weights)
  {
    ids, weights := [], [];
    for i := 0 to |registry|
      invariant ids == CandidateIds(store.Snapshot(), registry[..i])
      invariant weights == Weights(store.Snapshot(), ids)
    {
      assert registry[..i + 1][..i] == registry[..i];
      var count := Stock(store.Snapshot(), registry[i]);
      if count > 0 {
        ids, weights := ids + [registry[i]], weights + [count as real];
      }
    }
    assert registry[..|registry|] == registry;
    assert forall k :: 0 <= k < |ids| ==> ids[k] in ids;
  }

  // ---------------------------------------------------------------- one Draw, call by call

  datatype Result = Won(gid: int) | NoStock | Failure(code: Code)

  /** Everything outside this Draw, call by call: how the call fares, what others run before it, and
      the random point below a lottery's total weight. */
  datatype Env = Env(fault: nat -> Fault, others: nat -> seq<Command>, point: (nat, real) -> real)

  datatype Request = Request(uid: int, id: Identity, registry: seq<int>, env: Env)

  /** The store, broker and database calls; `granted` is what the acquire script did, heard or not. */
  datatype Call =
    | ReadStock
    | TryAcquire(gid: int, granted: bool)
    | LookUp
    | SendCancel
    | SendCreate
    | RollBack

  /** The shared Redis, every script anybody ran on it since the Draw began, and the calls made. */
  datatype Progress = Progress(redis: Redis, trace: seq<Command>, calls: seq<Call>)

  datatype Outcome = Outcome(result: Result, sent: seq<Message>, end: Progress)

  function FaultOf(p: Progress, d: Request): Fault {
    d.env.fault(|p.calls|)
  }

  /** Others run before the next call. */
  function Meanwhile(p: Progress, d: Request): Progress {
    var cs := d.env.others(|p.calls|);
    p.(redis := ApplyAll(p.redis, cs), trace := p.trace + cs)
  }

  function Called(p: Progress, call: Call): Progress {
    p.(calls := p.calls + [call])
  }

  function Ran(p: Progress, c: Command, call: Call): Progress {
    Progress(Apply(p.redis, c), p.trace + [c], p.calls + [call])
  }

  function RolledBack(p: Progress, d: Request, gid: int): Progress {
    var q := Meanwhile(p, d);
    if FaultOf(q, d) == LostBefore then Called(q, RollBack) else Ran(q, DoRelease(d.uid, gid, d.id), RollBack)
  }

  function Rolled(p: Progress, d: Request, gid: int, code: Code, sent: seq<Message>): Outcome {
    Outcome(Failure(code), sent, RolledBack(p, d, gid))
  }

  function AnnounceOrder(p: Progress, d: Request, gid: int): Outcome {
    var q := Meanwhile(p, d);
    var cancel, create := CancelOrder(d.uid, gid, d.id), CreateOrder(d.uid, gid, d.id);
    var sent := if FaultOf(q, d) == LostBefore then [cancel] else [cancel, create];
    if FaultOf(q, d) != NoFault then Rolled(Called(q, SendCreate), d, gid, MQSendFailed, sent)
    else Outcome(Won(gid), sent, Called(q, SendCreate))
  }

  function AnnounceTimeout(p: Progress, d: Request, gid: int): Outcome {
    var q := Meanwhile(p, d);
    var sent := if FaultOf(q, d) == LostBefore then [] else [CancelOrder(d.uid, gid, d.id)];
    if FaultOf(q, d) != NoFault then Rolled(Called(q, SendCancel), d, gid, MQSendFailed, sent)
    else AnnounceOrder(Called(q, SendCancel), d, gid)
  }

  /** From a granted admission on. */
  function Granted(p: Progress, d: Request, gid: int): Outcome {
    var q := Meanwhile(p, d);
    if FaultOf(q, d) != NoFault then Rolled(Called(q, LookUp), d, gid, DrawFailed, [])
    else AnnounceTimeout(Called(q, LookUp), d, gid)
  }

  ghost predicate FairPoints(env: Env) {
    forall n, total :: total > 0.0 ==> 0.0 <= env.point(n, total) < total
  }

  predicate IsPool(ids: seq<int>, weights: seq<real>) {
    |ids| == |weights| && AllPositive(weights)
  }

  function Drop<T>(s: seq<T>, i: nat): seq<T>
    requires i < |s|
  {
    s[..i] + s[i + 1..]
  }

  lemma PoolPoint(env: Env, call: nat, weights: seq<real>)
    requires FairPoints(env) && AllPositive(weights) && weights != []
    ensures env.point(call, Total(weights)) < Total(weights)
  {
    PrefixGrows(weights, 0, |weights|);
  }

  lemma CandidatesWeigh(r: Redis, registry: seq<int>)
    ensures IsPool(CandidateIds(r, registry), Weights(r, CandidateIds(r, registry)))
  {
    var ids := CandidateIds(r, registry);
    assert forall k :: 0 <= k < |ids| ==> ids[k] in ids;
  }

  /** One round of either loop: the reply, or on with these candidates. */
  datatype Next = Replied(outcome: Outcome) | GoOn(at: Progress, ids: seq<int>, weights: seq<real>)

  /** One candidate: draw it and try to take it. */
  ghost function TryOne(p: Progress, d: Request, ids: seq<int>, weights: seq<real>): (next: Next)
    requires FairPoints(d.env) && IsPool(ids, weights) && ids != []
    ensures next.GoOn? ==> IsPool(next.ids, next.weights) && |next.ids| < |ids|
  {
    PoolPoint(d.env, |p.calls|, weights);
    var index := FirstReaching(weights, d.env.point(|p.calls|, Total(weights)), 0);
    Taken(Meanwhile(p, d), d, ids, weights, index)
  }

  function Taken(q: Progress, d: Request, ids: seq<int>, weights: seq<real>, index: nat): (next: Next)
    requires IsPool(ids, weights) && index < |ids|
    ensures next.GoOn? ==> IsPool(next.ids, next.weights) && |next.ids| < |ids|
  {
    var gid := ids[index];
    if FaultOf(q, d) == LostBefore then Replied(Outcome(Failure(DrawFailed), [], Called(q, TryAcquire(gid, false))))
    else
      var reply := Acquire(q.redis, d.uid, gid, d.id).1;
      var after := Ran(q, DoAcquire(d.uid, gid, d.id), TryAcquire(gid, reply == Acquired));
      if FaultOf(q, d) == LostAfter then Replied(Outcome(Failure(DrawFailed), [], after))
      else match reply {
        case Acquired => Replied(Granted(after, d, gid))
        case Duplicate => Replied(Outcome(Failure(DuplicateParticipation), [], after))
        case SoldOut => GoOn(after, Drop(ids, index), Drop(weights, index))
        case StaleRun => Replied(Outcome(Failure(DrawFailed), [], after))
      }
  }

  /** One stock read. */
  function ReadPool(p: Progress, d: Request): (next: Next)
    ensures next.GoOn? ==> IsPool(next.ids, next.weights)
  {
    var q := Meanwhile(p, d);
    var after := Called(q, ReadStock);
    if FaultOf(q, d) != NoFault then Replied(Outcome(Failure(DrawFailed), [], after))
    else
      var ids := CandidateIds(q.redis, d.registry);
      CandidatesWeigh(q.redis, d.registry);
      if ids == [] then Replied(Outcome(NoStock, [], after)) else GoOn(after, ids, Weights(q.redis, ids))
  }

  /** The inner loop over one snapshot's candidates. */
  ghost function DrawPool(p: Progress, d: Request, ids: seq<int>, weights: seq<real>, tries: nat): Outcome
    requires FairPoints(d.env) && IsPool(ids, weights) && tries > 0
    decreases 2 * tries, |ids|
  {
    if ids == [] then DrawTry(p, d, tries - 1)
    else match TryOne(p, d, ids, weights)
      case Replied(o) => o
      case GoOn(next, rest, chances) => DrawPool(next, d, rest, chances, tries)
  }

  /** The outer loop: read the stock again, at most `tries` times. */
  ghost function DrawTry(p: Progress, d: Request, tries: nat): Outcome
    requires FairPoints(d.env)
    decreases 2 * tries + 1, 0
  {
    if tries == 0 then Outcome(Failure(DrawFailed), [], p)
    else match ReadPool(p, d)
      case Replied(o) => o
      case GoOn(next, ids, weights) => DrawPool(next, d, ids, weights, tries)
  }

  /** What the whole operation does, past the ledger lookup. */
  ghost function DrawFrom(r: Redis, d: Request, tries: nat): Outcome
    requires FairPoints(d.env)
  {
    DrawTry(Progress(r, [], []), d, tries)
  }

  // ---------------------------------------------------------------- the operation itself

  /** Runs other users' scripts on the shared store. */
  method Interleave(store: RedisStore, cs: seq<Command>)
    modifies store
    ensures store.Snapshot() == ApplyAll(old(store.Snapshot()), cs)
  {
    for i := 0 to |cs|
      invariant ApplyAll(store.Snapshot(), cs[i..]) == ApplyAll(old(store.Snapshot()), cs)
    {
      assert cs[i..][0] == cs[i] && cs[i..][1..] == cs[i + 1..];
      match cs[i] {
        case DoAcquire(u, g, id) => var _ := store.RunAcquire(u, g, id);
        case DoMark(u, g, id) => var _ := store.RunMarkPending(u, g, id);
        case DoClaim(u, g, id) => var _ := store.RunClaim(u, g, id);
        case DoRelease(u, g, id) => var _ := store.RunRelease(u, g, id);
        case DoExpire(u) => store.admissions := store.admissions - {u};
      }
    }
    assert cs[|cs|..] == [];
  }

  /** rollbackAdmission: the release script, whose failure is only logged. */
  method Rollback(store: RedisStore, d: Request, gid: int, ghost p: Progress, call: nat)
    requires store.Snapshot() == p.redis && call == |p.calls|
    modifies store
    ensures store.Snapshot() == RolledBack(p, d, gid).redis
  {
    Interleave(store, d.env.others(call));
    if d.env.fault(call) != LostBefore {
      var _ := store.RunRelease(d.uid, gid, d.id);
    }
  }

  /** From a granted admission to the reply: look the gift up, announce the timeout, announce the
      order, and roll back on any failure. */
  method Announce(store: RedisStore, d: Request, gid: int, ghost p: Progress, call: nat)
    returns (result: Result, sent: seq<Message>)
    requires store.Snapshot() == p.redis && call == |p.calls|
    modifies store
    ensures Outcome(result, sent, Granted(p, d, gid).end) == Granted(p, d, gid)
    ensures store.Snapshot() == Granted(p, d, gid).end.redis
  {
    sent := [];
    ghost var q := Meanwhile(p, d);
    Interleave(store, d.env.others(call));
    if d.env.fault(call) != NoFault {
      Rollback(store, d, gid, Called(q, LookUp), call + 1);
      return Failure(DrawFailed), sent;
    }
    q := Meanwhile(Called(q, LookUp), d);
    Interleave(store, d.env.others(call + 1));
    if d.env.fault(call + 1) != LostBefore {
      sent := sent + [CancelOrder(d.uid, gid, d.id)];
    }
    if d.env.fault(call + 1) != NoFault {
      Rollback(store, d, gid, Called(q, SendCancel), call + 2);
      return Failure(MQSendFailed), sent;
    }
    q := Meanwhile(Called(q, SendCancel), d);
    Interleave(store, d.env.others(call + 2));
    if d.env.fault(call + 2) != LostBefore {
      sent := sent + [CreateOrder(d.uid, gid, d.id)];
    }
    if d.env.fault(call + 2) != NoFault {
      Rollback(store, d, gid, Called(q, SendCreate), call + 3);
      return Failure(MQSendFailed), sent;
    }
    return Won(gid), sent;
  }

  /** The inner loop in place; without a reply (`done` is false) the next stock snapshot is due. */
  method DrawFromPool(store: RedisStore, d: Request, pool: seq<int>, chances: seq<real>,
                      ghost p: Progress, first: nat, ghost tries: nat)
    returns (done: bool, result: Result, sent: seq<Message>, ghost q: Progress, call: nat)
    requires FairPoints(d.env) && IsPool(pool, chances) && tries > 0
    requires store.Snapshot() == p.redis && first == |p.calls|
    modifies store
    ensures done ==> Outcome(result, sent, q) == DrawPool(p, d, pool, chances, tries)
    ensures !done ==> DrawTry(q, d, tries - 1) == DrawPool(p, d, pool, chances, tries)
    ensures store.Snapshot() == q.redis && (!done ==> call == |q.calls|)
  {
    var ids, weights := pool, chances;
    done, result, sent, q, call := false, NoStock, [], p, first;
    ghost var goal := DrawPool(p, d, pool, chances, tries);
    while |ids| > 0
      invariant IsPool(ids, weights)
      invariant store.Snapshot() == q.redis && call == |q.calls|
      invariant DrawPool(q, d, ids, weights, tries) == goal
      decreases |ids|
    {
      PoolPoint(d.env, call, weights);
      var index := Lottery(weights, d.env.point(call, Total(weights)));
      var gid := ids[index];
      Interleave(store, d.env.others(call));
      q := Meanwhile(q, d);
      if d.env.fault(call) == LostBefore {
        q := Called(q, TryAcquire(gid, false));
        return true, Failure(DrawFailed), [], q, call;
      }
      var reply := store.RunAcquire(d.uid, gid, d.id);
      q := Ran(q, DoAcquire(d.uid, gid, d.id), TryAcquire(gid, reply == Acquired));
      if d.env.fault(call) == LostAfter {
        return true, Failure(DrawFailed), [], q, call;
      }
      call := call + 1;
      match reply {
        case Acquired =>
          done := true;
          ghost var granted := q;
          result, sent := Announce(store, d, gid, granted, call);
          q := Granted(granted, d, gid).end;
          return;
        case Duplicate => return true, Failure(DuplicateParticipation), [], q, call;
        case SoldOut => ids, weights := Drop(ids, index), Drop(weights, index);
        case StaleRun => return true, Failure(DrawFailed), [], q, call;
      }
    }
  }

  /** One round of the outer loop in place. */
  method DrawOneRound(store: RedisStore, d: Request, ghost p: Progress, first: nat, ghost tries: nat)
    returns (done: bool, result: Result, sent: seq<Message>, ghost q: Progress, call: nat)
    requires FairPoints(d.env) && tries > 0
    requires store.Snapshot() == p.redis && first == |p.calls|
    modifies store
    ensures done ==> Outcome(result, sent, q) == DrawTry(p, d, tries)
    ensures !done ==> DrawTry(q, d, tries - 1) == DrawTry(p, d, tries)
    ensures store.Snapshot() == q.redis && (!done ==> call == |q.calls|)
  {
    Interleave(store, d.env.others(first));
    q := Called(Meanwhile(p, d), ReadStock);
    call := first + 1;
    if d.env.fault(first) != NoFault {
      return true, Failure(DrawFailed), [], q, call;
    }
    var ids, weights := Candidates(store, d.registry);
    if |ids| == 0 {
      return true, NoStock, [], q, call;
    }
    done, result, sent, q, call := DrawFromPool(store, d, ids, weights, q, call, tries);
  }

  /** The outer loop in place. */
  method DrawRounds(store: RedisStore, d: Request, tries: nat) returns (result: Result, sent: seq<Message>)
    requires FairPoints(d.env)
    modifies store
    ensures
      var o := DrawFrom(old(store.Snapshot()), d, tries);
      result == o.result && sent == o.sent && store.Snapshot() == o.end.redis
  {
    var call := 0;
    ghost var p := Progress(store.Snapshot(), [], []);
    ghost var goal := DrawTry(p, d, tries);
    for left := tries downto 0
      invariant store.Snapshot() == p.redis && call == |p.calls|
      invariant DrawTry(p, d, left) == goal
    {
      var done;
      done, result, sent, p, call := DrawOneRound(store, d, p, call, left + 1);
      if done {
        return;
      }
    }
    return Failure(DrawFailed), [];
  }

  const TRIES := 10

  /** The whole operation in place.  `ordered` is what the ledger lookup said, if it could be asked. */
  method DrawGift(store: RedisStore, d: Request, ordered: Option<bool>) returns (result: Result, sent: seq<Message>)
    requires FairPoints(d.env)
    modifies store
    ensures
      if ordered == Some(false) then
        var o := DrawFrom(old(store.Snapshot()), d, TRIES);
        result == o.result && sent == o.sent && store.Snapshot() == o.end.redis
      else
        && result == Failure(if ordered.Some? then DuplicateParticipation else DrawFailed)
        && sent == [] && store.Snapshot() == old(store.Snapshot())
  {
    if ordered.None? {
      return Failure(DrawFailed), [];
    }
    if ordered.value {
      return Failure(DuplicateParticipation), [];
    }
    result, sent := DrawRounds(store, d, TRIES);
  }
}
