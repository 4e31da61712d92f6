/** Why a Draw answers what it answers, for every schedule of competing scripts and every failing call:
    each reply has its reason in what the calls met, a Draw gives up only after it has tried every
    candidate of ten stock snapshots, and so it wins whenever some gift lasts. */
module DrawReasons {
  import opened Common
  import opened AdmissionScripts
  import opened OrderPrograms
  import opened Draw

  // ---------------------------------------------------------------- what each call met

  /** Redis after these calls, replayed from the log and everybody else's scripts. */
  function Now(r: Redis, d: Request, calls: seq<Call>): Redis
    decreases |calls|
  {
    if calls == [] then r
    else
      var last := |calls| - 1;
      var met := ApplyAll(Now(r, d, calls[..last]), d.env.others(last));
      if calls[last].TryAcquire? && d.env.fault(last) != LostBefore
      then Acquire(met, d.uid, calls[last].gid, d.id).0
      else met
  }

  /** Redis as call `i` found it. */
  function Met(r: Redis, d: Request, calls: seq<Call>, i: nat): Redis
    requires i < |calls|
  {
    ApplyAll(Now(r, d, calls[..i]), d.env.others(i))
  }

  lemma MetStays(r: Redis, d: Request, calls: seq<Call>, call: Call, i: nat)
    requires i < |calls|
    ensures Met(r, d, calls + [call], i) == Met(r, d, calls, i)
  {
    assert (calls + [call])[..i] == calls[..i];
  }

  lemma MetLast(r: Redis, d: Request, calls: seq<Call>, call: Call)
    ensures Met(r, d, calls + [call], |calls|) == ApplyAll(Now(r, d, calls), d.env.others(|calls|))
  {
    assert (calls + [call])[..|calls|] == calls;
  }

  function Reads(calls: seq<Call>): nat
    decreases |calls|
  {
    if calls == [] then 0
    else Reads(calls[..|calls| - 1]) + if calls[|calls| - 1] == ReadStock then 1 else 0
  }

  lemma ReadsAppend(calls: seq<Call>, call: Call)
    ensures Reads(calls + [call]) == Reads(calls) + if call == ReadStock then 1 else 0
  {
    assert (calls + [call])[..|calls|] == calls;
  }

  predicate Faultless(d: Request, calls: seq<Call>) {
    forall i :: 0 <= i < |calls| ==> d.env.fault(i) == NoFault
  }

  /** In the round that the read `i` opened, call `j` tried the gift and found it sold out. */
  predicate SoldOutAt(r: Redis, d: Request, calls: seq<Call>, i: nat, j: nat, gid: int)
    requires i < j < |calls|
  {
    && calls[j] == TryAcquire(gid, false) && Stock(Met(r, d, calls, j), gid) <= 0
    && forall k :: i < k < j ==> calls[k] != ReadStock
  }

  predicate FoundSoldOut(r: Redis, d: Request, calls: seq<Call>, i: nat, gid: int) {
    exists j :: i < j < |calls| && SoldOutAt(r, d, calls, i, j, gid)
  }

  predicate InStockAt(r: Redis, d: Request, calls: seq<Call>, i: nat, gid: int)
    requires i < |calls|
  {
    gid in d.registry && Stock(Met(r, d, calls, i), gid) > 0
  }

  /** Every gift that the read `i` saw in stock was tried in its round and had sold out by then. */
  ghost predicate Spent(r: Redis, d: Request, calls: seq<Call>, i: nat)
    requires i < |calls|
  {
    forall gid :: InStockAt(r, d, calls, i, gid) ==> FoundSoldOut(r, d, calls, i, gid)
  }

  ghost predicate AllSpent(r: Redis, d: Request, calls: seq<Call>) {
    forall i :: 0 <= i < |calls| && calls[i] == ReadStock ==> Spent(r, d, calls, i)
  }

  /** A call that reads stock, tries a candidate or looks the gift up has failed. */
  predicate DrawingFailed(d: Request, calls: seq<Call>) {
    exists i :: 0 <= i < |calls| && (calls[i] == ReadStock || calls[i].TryAcquire? || calls[i] == LookUp) && d.env.fault(i) != NoFault
  }

  predicate SendFailed(d: Request, calls: seq<Call>) {
    exists i :: 0 <= i < |calls| && (calls[i] == SendCancel || calls[i] == SendCreate) && d.env.fault(i) != NoFault
  }

  /** The last call was an acquire that met this. */
  predicate LastTry(calls: seq<Call>) {
    |calls| > 0 && calls[|calls| - 1].TryAcquire?
  }

  /** The reason of each reply. */
  ghost predicate HasReason(r: Redis, d: Request, o: Outcome, tries: nat) {
    var calls := o.end.calls;
    var last := |calls| - 1;
    match o.result
    case Won(gid) => Faultless(d, calls) && exists i :: 0 <= i < |calls| && calls[i] == TryAcquire(gid, true)
    case NoStock =>
      && Faultless(d, calls) && |calls| > 0 && calls[last] == ReadStock
      && forall gid :: !InStockAt(r, d, calls, last, gid)
    case Failure(code) =>
      match code {
        case DuplicateParticipation =>
          && Faultless(d, calls) && LastTry(calls)
          && RunIsCurrent(Met(r, d, calls, last), d.id) && d.uid in Met(r, d, calls, last).admissions
        case DrawFailed =>
          || DrawingFailed(d, calls)
          || (LastTry(calls) && !RunIsCurrent(Met(r, d, calls, last), d.id))
          || (Reads(calls) == tries && AllSpent(r, d, calls))
        case MQSendFailed => SendFailed(d, calls)
        case _ => false
      }
  }

  // ---------------------------------------------------------------- extending the log

  lemma SoldOutStays(r: Redis, d: Request, calls: seq<Call>, call: Call, i: nat, gid: int)
    requires FoundSoldOut(r, d, calls, i, gid)
    ensures FoundSoldOut(r, d, calls + [call], i, gid)
  {
    var j :| i < j < |calls| && SoldOutAt(r, d, calls, i, j, gid);
    MetStays(r, d, calls, call, j);
    assert SoldOutAt(r, d, calls + [call], i, j, gid);
  }

  lemma SpentStays(r: Redis, d: Request, calls: seq<Call>, call: Call, i: nat)
    requires i < |calls| && Spent(r, d, calls, i)
    ensures Spent(r, d, calls + [call], i)
  {
    forall gid | InStockAt(r, d, calls + [call], i, gid)
      ensures FoundSoldOut(r, d, calls + [call], i, gid)
    {
      MetStays(r, d, calls, call, i);
      assert InStockAt(r, d, calls, i, gid);
      SoldOutStays(r, d, calls, call, i, gid);
    }
  }

  /** The store is what the log replays to, and nothing has failed. */
  predicate Tracks(r: Redis, d: Request, p: Progress) {
    Now(r, d, p.calls) == p.redis && Faultless(d, p.calls)
  }

  lemma CalledTracks(r: Redis, d: Request, p: Progress, call: Call)
    requires Tracks(r, d, p) && d.env.fault(|p.calls|) == NoFault && !call.TryAcquire?
    ensures Tracks(r, d, Called(Meanwhile(p, d), call))
  {
    assert (p.calls + [call])[..|p.calls|] == p.calls;
  }

  lemma TriedTracks(r: Redis, d: Request, p: Progress, gid: int, granted: bool)
    requires Tracks(r, d, p) && d.env.fault(|p.calls|) == NoFault
    ensures Tracks(r, d, Ran(Meanwhile(p, d), DoAcquire(d.uid, gid, d.id), TryAcquire(gid, granted)))
  {
    assert (p.calls + [TryAcquire(gid, granted)])[..|p.calls|] == p.calls;
  }

  // ---------------------------------------------------------------- from the grant on

  lemma FaultIsThere(d: Request, calls: seq<Call>, i: nat)
    requires i < |calls| && d.env.fault(i) != NoFault
    ensures calls[i] == ReadStock || calls[i].TryAcquire? || calls[i] == LookUp ==> DrawingFailed(d, calls)
    ensures calls[i] == SendCancel || calls[i] == SendCreate ==> SendFailed(d, calls)
  {
  }

  /** The grant is in the log. */
  predicate Taking(r: Redis, d: Request, p: Progress, gid: int) {
    Faultless(d, p.calls) && exists i :: 0 <= i < |p.calls| && p.calls[i] == TryAcquire(gid, true)
  }

  lemma TakingOn(r: Redis, d: Request, p: Progress, gid: int, call: Call)
    requires Taking(r, d, p, gid) && d.env.fault(|p.calls|) == NoFault
    ensures Taking(r, d, Called(Meanwhile(p, d), call), gid)
  {
    var i :| 0 <= i < |p.calls| && p.calls[i] == TryAcquire(gid, true);
    assert Called(Meanwhile(p, d), call).calls[i] == TryAcquire(gid, true);
  }

  lemma OrderHasReason(r: Redis, d: Request, p: Progress, gid: int, tries: nat)
    requires Taking(r, d, p, gid)
    ensures HasReason(r, d, AnnounceOrder(p, d, gid), tries)
  {
    var o := AnnounceOrder(p, d, gid);
    if d.env.fault(|p.calls|) == NoFault {
      TakingOn(r, d, p, gid, SendCreate);
      assert o.end == Called(Meanwhile(p, d), SendCreate);
    } else {
      assert o.end.calls[|p.calls|] == SendCreate;
      FaultIsThere(d, o.end.calls, |p.calls|);
    }
  }

  lemma TimeoutHasReason(r: Redis, d: Request, p: Progress, gid: int, tries: nat)
    requires Taking(r, d, p, gid)
    ensures HasReason(r, d, AnnounceTimeout(p, d, gid), tries)
  {
    var o := AnnounceTimeout(p, d, gid);
    if d.env.fault(|p.calls|) == NoFault {
      TakingOn(r, d, p, gid, SendCancel);
      OrderHasReason(r, d, Called(Meanwhile(p, d), SendCancel), gid, tries);
    } else {
      assert o.end.calls[|p.calls|] == SendCancel;
      FaultIsThere(d, o.end.calls, |p.calls|);
    }
  }

  lemma GrantedHasReason(r: Redis, d: Request, p: Progress, gid: int, tries: nat)
    requires Taking(r, d, p, gid)
    ensures HasReason(r, d, Granted(p, d, gid), tries)
  {
    var o := Granted(p, d, gid);
    if d.env.fault(|p.calls|) == NoFault {
      TakingOn(r, d, p, gid, LookUp);
      TimeoutHasReason(r, d, Called(Meanwhile(p, d), LookUp), gid, tries);
    } else {
      FaultIsThere(d, o.end.calls, |p.calls|);
    }
  }

  // ---------------------------------------------------------------- the two loops

  /** Between two rounds: so many stock reads, all of them spent. */
  ghost predicate BetweenRounds(r: Redis, d: Request, p: Progress, rounds: nat) {
    Tracks(r, d, p) && Reads(p.calls) == rounds && AllSpent(r, d, p.calls)
  }

  /** Inside the round of read `i`: the earlier reads are spent, and what this one saw in stock is still
      a candidate or was found sold out. */
  ghost predicate InRound(r: Redis, d: Request, p: Progress, ids: seq<int>, rounds: nat, i: nat) {
    && Tracks(r, d, p) && Reads(p.calls) == rounds
    && i < |p.calls| && p.calls[i] == ReadStock && (forall k :: i < k < |p.calls| ==> p.calls[k] != ReadStock)
    && (forall k :: 0 <= k < |p.calls| && k != i && p.calls[k] == ReadStock ==> Spent(r, d, p.calls, k))
    && (forall gid :: InStockAt(r, d, p.calls, i, gid) ==> gid in ids || FoundSoldOut(r, d, p.calls, i, gid))
  }

  lemma RoundEnds(r: Redis, d: Request, p: Progress, rounds: nat, i: nat)
    requires InRound(r, d, p, [], rounds, i)
    ensures BetweenRounds(r, d, p, rounds)
  {
    forall k | 0 <= k < |p.calls| && p.calls[k] == ReadStock
      ensures Spent(r, d, p.calls, k)
    {
      if k == i {
        forall gid | InStockAt(r, d, p.calls, i, gid)
          ensures FoundSoldOut(r, d, p.calls, i, gid)
        {
          assert gid in [] || FoundSoldOut(r, d, p.calls, i, gid);
        }
      }
    }
  }

  lemma RoundBegins(r: Redis, d: Request, p: Progress, rounds: nat)
    requires BetweenRounds(r, d, p, rounds) && d.env.fault(|p.calls|) == NoFault
    ensures
      var next := Called(Meanwhile(p, d), ReadStock);
      InRound(r, d, next, CandidateIds(next.redis, d.registry), rounds + 1, |p.calls|)
  {
    var next := Called(Meanwhile(p, d), ReadStock);
    CalledTracks(r, d, p, ReadStock);
    ReadsAppend(p.calls, ReadStock);
    MetLast(r, d, p.calls, ReadStock);
    forall k | 0 <= k < |next.calls| && k != |p.calls| && next.calls[k] == ReadStock
      ensures Spent(r, d, next.calls, k)
    {
      SpentStays(r, d, p.calls, ReadStock, k);
    }
  }

  /** The next candidate was tried and found sold out. */
  lemma RoundGoesOn(r: Redis, d: Request, p: Progress, ids: seq<int>, rounds: nat, i: nat, index: nat)
    requires InRound(r, d, p, ids, rounds, i) && index < |ids| && d.env.fault(|p.calls|) == NoFault
    requires Acquire(Meanwhile(p, d).redis, d.uid, ids[index], d.id).1 == SoldOut
    ensures
      var after := Ran(Meanwhile(p, d), DoAcquire(d.uid, ids[index], d.id), TryAcquire(ids[index], false));
      InRound(r, d, after, Draw.Drop(ids, index), rounds, i)
  {
    var call := TryAcquire(ids[index], false);
    var after := Ran(Meanwhile(p, d), DoAcquire(d.uid, ids[index], d.id), call);
    TriedTracks(r, d, p, ids[index], false);
    ReadsAppend(p.calls, call);
    MetLast(r, d, p.calls, call);
    assert after.calls == p.calls + [call];
    forall k | 0 <= k < |after.calls| && k != i && after.calls[k] == ReadStock
      ensures Spent(r, d, after.calls, k)
    {
      SpentStays(r, d, p.calls, call, k);
    }
    assert SoldOutAt(r, d, after.calls, i, |p.calls|, ids[index]);
    forall gid | InStockAt(r, d, after.calls, i, gid)
      ensures gid in Draw.Drop(ids, index) || FoundSoldOut(r, d, after.calls, i, gid)
    {
      MetStays(r, d, p.calls, call, i);
      assert InStockAt(r, d, p.calls, i, gid);
      if FoundSoldOut(r, d, p.calls, i, gid) {
        SoldOutStays(r, d, p.calls, call, i, gid);
      } else if gid != ids[index] {
        StillThere(ids, index, gid);
      }
    }
  }

  lemma StillThere(ids: seq<int>, index: nat, gid: int)
    requires index < |ids| && gid in ids && gid != ids[index]
    ensures gid in Draw.Drop(ids, index)
  {
    var k :| 0 <= k < |ids| && ids[k] == gid;
    assert Draw.Drop(ids, index)[if k < index then k else k - 1] == gid;
  }

  /** Either a reply with its reason, or the round goes on. */
  ghost predicate NextHasReason(r: Redis, d: Request, next: Next, rounds: nat, i: nat, tries: nat) {
    if next.Replied? then HasReason(r, d, next.outcome, tries) else InRound(r, d, next.at, next.ids, rounds, i)
  }

  lemma FailedTryHasReason(r: Redis, d: Request, o: Outcome, tries: nat)
    requires LastTry(o.end.calls) && d.env.fault(|o.end.calls| - 1) != NoFault && o.result == Failure(DrawFailed)
    ensures HasReason(r, d, o, tries)
  {
    FaultIsThere(d, o.end.calls, |o.end.calls| - 1);
  }

  lemma RefusedTryHasReason(r: Redis, d: Request, p: Progress, gid: int, tries: nat)
    requires Tracks(r, d, p) && d.env.fault(|p.calls|) == NoFault
    ensures
      var after := Ran(Meanwhile(p, d), DoAcquire(d.uid, gid, d.id), TryAcquire(gid, false));
      match Acquire(Meanwhile(p, d).redis, d.uid, gid, d.id).1 {
        case Duplicate => HasReason(r, d, Outcome(Failure(DuplicateParticipation), [], after), tries)
        case StaleRun => HasReason(r, d, Outcome(Failure(DrawFailed), [], after), tries)
        case _ => true
      }
  {
    TriedTracks(r, d, p, gid, false);
    MetLast(r, d, p.calls, TryAcquire(gid, false));
  }

  lemma GrantedTryHasReason(r: Redis, d: Request, p: Progress, gid: int, tries: nat)
    requires Tracks(r, d, p) && d.env.fault(|p.calls|) == NoFault
    ensures
      var after := Ran(Meanwhile(p, d), DoAcquire(d.uid, gid, d.id), TryAcquire(gid, true));
      HasReason(r, d, Granted(after, d, gid), tries)
  {
    var after := Ran(Meanwhile(p, d), DoAcquire(d.uid, gid, d.id), TryAcquire(gid, true));
    TriedTracks(r, d, p, gid, true);
    assert after.calls[|p.calls|] == TryAcquire(gid, true);
    GrantedHasReason(r, d, after, gid, tries);
  }

  lemma TakenHasReason(r: Redis, d: Request, p: Progress, ids: seq<int>, weights: seq<real>, index: nat, rounds: nat, i: nat, tries: nat)
    requires InRound(r, d, p, ids, rounds, i) && IsPool(ids, weights) && index < |ids|
    ensures NextHasReason(r, d, Taken(Meanwhile(p, d), d, ids, weights, index), rounds, i, tries)
  {
    var next := Taken(Meanwhile(p, d), d, ids, weights, index);
    if d.env.fault(|p.calls|) != NoFault {
      FailedTryHasReason(r, d, next.outcome, tries);
    } else {
      match Acquire(Meanwhile(p, d).redis, d.uid, ids[index], d.id).1 {
        case Acquired => GrantedTryHasReason(r, d, p, ids[index], tries);
        case SoldOut => RoundGoesOn(r, d, p, ids, rounds, i, index);
        case _ => RefusedTryHasReason(r, d, p, ids[index], tries);
      }
    }
  }

  lemma TryOneHasReason(r: Redis, d: Request, p: Progress, ids: seq<int>, weights: seq<real>, rounds: nat, i: nat, tries: nat)
    requires FairPoints(d.env) && IsPool(ids, weights) && ids != []
    requires InRound(r, d, p, ids, rounds, i)
    ensures NextHasReason(r, d, TryOne(p, d, ids, weights), rounds, i, tries)
  {
    PoolPoint(d.env, |p.calls|, weights);
    TakenHasReason(r, d, p, ids, weights, FirstReaching(weights, d.env.point(|p.calls|, Total(weights)), 0), rounds, i, tries);
  }

  lemma {:induction false} PoolHasReason(r: Redis, d: Request, p: Progress, ids: seq<int>, weights: seq<real>,
                                         tries: nat, rounds: nat, i: nat)
    requires FairPoints(d.env) && IsPool(ids, weights) && tries > 0
    requires InRound(r, d, p, ids, rounds, i)
    ensures HasReason(r, d, DrawPool(p, d, ids, weights, tries), rounds + tries - 1)
    decreases 2 * tries, |ids|
  {
    if ids == [] {
      RoundEnds(r, d, p, rounds, i);
      TryHasReason(r, d, p, tries - 1, rounds);
    } else {
      var next := TryOne(p, d, ids, weights);
      TryOneHasReason(r, d, p, ids, weights, rounds, i, rounds + tries - 1);
      if next.GoOn? {
        PoolHasReason(r, d, next.at, next.ids, next.weights, tries, rounds, i);
        assert DrawPool(p, d, ids, weights, tries) == DrawPool(next.at, d, next.ids, next.weights, tries);
      } else {
        assert DrawPool(p, d, ids, weights, tries) == next.outcome;
      }
    }
  }

  lemma ReadHasReason(r: Redis, d: Request, p: Progress, rounds: nat, tries: nat)
    requires BetweenRounds(r, d, p, rounds)
    ensures NextHasReason(r, d, ReadPool(p, d), rounds + 1, |p.calls|, tries)
  {
    var next := Called(Meanwhile(p, d), ReadStock);
    if d.env.fault(|p.calls|) != NoFault {
      FaultIsThere(d, next.calls, |p.calls|);
    } else {
      RoundBegins(r, d, p, rounds);
      MetLast(r, d, p.calls, ReadStock);
    }
  }

  lemma {:induction false} TryHasReason(r: Redis, d: Request, p: Progress, tries: nat, rounds: nat)
    requires FairPoints(d.env) && BetweenRounds(r, d, p, rounds)
    ensures HasReason(r, d, DrawTry(p, d, tries), rounds + tries)
    decreases 2 * tries + 1, 0
  {
    if tries == 0 {
    } else {
      var next := ReadPool(p, d);
      ReadHasReason(r, d, p, rounds, rounds + tries);
      if next.GoOn? {
        PoolHasReason(r, d, next.at, next.ids, next.weights, tries, rounds + 1, |p.calls|);
      }
    }
  }

  /** Main result: every reply has its reason.  Success was granted; "no stock" met an empty shelf;
      "duplicate" met an admission of this user in the current run; a send failure is one; and a failed
      Draw met a failing call or a stale run, or has read the stock `tries` times, tried every gift
      that any of the reads saw in stock, and found each of them sold out in that round. */
  lemma EveryReplyHasItsReason(r: Redis, d: Request, tries: nat)
    requires FairPoints(d.env)
    ensures HasReason(r, d, DrawFrom(r, d, tries), tries)
  {
    TryHasReason(r, d, Progress(r, [], []), tries, 0);
  }

  /** The operation itself has ten rounds. */
  lemma GivesUpAfterTenRounds(r: Redis, d: Request)
    requires FairPoints(d.env) && (forall n :: d.env.fault(n) == NoFault)
    requires DrawFrom(r, d, TRIES).result == Failure(DrawFailed)
    ensures
      var calls := DrawFrom(r, d, TRIES).end.calls;
      || (LastTry(calls) && !RunIsCurrent(Met(r, d, calls, |calls| - 1), d.id))
      || (Reads(calls) == 10 && AllSpent(r, d, calls))
  {
    EveryReplyHasItsReason(r, d, TRIES);
  }

  // ---------------------------------------------------------------- perseverance

  /** Up to the grant every call finds the gift in stock, the run current and the user new. */
  predicate GiftLasts(r: Redis, d: Request, calls: seq<Call>, gid: int) {
    && gid in d.registry
    && forall i :: 0 <= i < |calls| && (calls[i] == ReadStock || calls[i].TryAcquire?) ==>
         var met := Met(r, d, calls, i);
         Stock(met, gid) > 0 && RunIsCurrent(met, d.id) && d.uid !in met.admissions
  }

  lemma {:induction false} SomeRead(calls: seq<Call>) returns (i: nat)
    requires Reads(calls) > 0
    ensures i < |calls| && calls[i] == ReadStock
    decreases |calls|
  {
    var last := |calls| - 1;
    if calls[last] == ReadStock {
      i := last;
    } else {
      i := SomeRead(calls[..last]);
    }
  }

  lemma LastingIsNotSpent(r: Redis, d: Request, calls: seq<Call>, gid: int)
    requires GiftLasts(r, d, calls, gid) && Reads(calls) > 0
    ensures !AllSpent(r, d, calls)
  {
    var i := SomeRead(calls);
    assert InStockAt(r, d, calls, i, gid);
    forall j | i < j < |calls|
      ensures !SoldOutAt(r, d, calls, i, j, gid)
    {
      assert calls[j].TryAcquire? ==> Stock(Met(r, d, calls, j), gid) > 0;
    }
    assert !FoundSoldOut(r, d, calls, i, gid) && !Spent(r, d, calls, i);
  }

  /** If nothing fails and one gift lasts, the Draw wins, however many others are snatched away: it
      goes on until it gets one. */
  lemma WinsWhileSomeGiftLasts(r: Redis, d: Request, tries: nat, gid: int)
    requires FairPoints(d.env) && (forall n :: d.env.fault(n) == NoFault) && tries > 0
    requires GiftLasts(r, d, DrawFrom(r, d, tries).end.calls, gid)
    ensures DrawFrom(r, d, tries).result.Won?
  {
    var o := DrawFrom(r, d, tries);
    var calls := o.end.calls;
    EveryReplyHasItsReason(r, d, tries);
    if Reads(calls) > 0 {
      LastingIsNotSpent(r, d, calls, gid);
    }
    if |calls| > 0 && calls[|calls| - 1] == ReadStock {
      assert InStockAt(r, d, calls, |calls| - 1, gid);
    }
  }
}
