/** The four Lua scripts that own Redis stock and admissions, as atomic functions on a
    Redis value, the object that runs them in place, and what every sequence of them keeps. */
module AdmissionScripts {
  import opened Common

  datatype Admission = Admission(gift: int, state: Status, id: Identity)

  /** A missing stock key reads as zero.  `run` is the persistent run key. */
  datatype Redis = Redis(stock: map<int, int>, admissions: map<int, Admission>, run: Option<string>)

  datatype AcquireReply = Acquired | Duplicate | SoldOut | StaleRun

  /** Replies 0, 1 and 2 of the three state scripts. */
  datatype Verdict = Refused | Moved | Already

  function Stock(r: Redis, gid: int): int {
    if gid in r.stock then r.stock[gid] else 0
  }

  /** An identified call only works in the current run. */
  predicate RunIsCurrent(r: Redis, id: Identity) {
    id.order != "" ==> r.run == Some(id.run)
  }

  predicate Matches(r: Redis, uid: int, gid: int, id: Identity) {
    && uid in r.admissions
    && r.admissions[uid].gift == gid
    && r.admissions[uid].id == id
  }

  /** Guard shared by the three state scripts. */
  predicate Addressed(r: Redis, uid: int, gid: int, id: Identity) {
    Matches(r, uid, gid, id) && RunIsCurrent(r, id)
  }

  function SetState(r: Redis, uid: int, s: Status): Redis
    requires uid in r.admissions
  {
    r.(admissions := r.admissions[uid := r.admissions[uid].(state := s)])
  }

  function AddStock(r: Redis, gid: int, n: int): Redis {
    r.(stock := r.stock[gid := Stock(r, gid) + n])
  }

  function Acquire(r: Redis, uid: int, gid: int, id: Identity): (Redis, AcquireReply) {
    if !RunIsCurrent(r, id) then (r, StaleRun)
    else if uid in r.admissions then (r, Duplicate)
    else if Stock(r, gid) <= 0 then (r, SoldOut)
    else
      var written := if id.order != "" then id else ANONYMOUS;
      var taken := AddStock(r, gid, -1);
      (taken.(admissions := taken.admissions[uid := Admission(gid, StockAcquired, written)]), Acquired)
  }

  function MarkPending(r: Redis, uid: int, gid: int, id: Identity): (Redis, Verdict) {
    if !Addressed(r, uid, gid, id) then (r, Refused)
    else if r.admissions[uid].state == PendingPayment then (r, Already)
    else if r.admissions[uid].state != StockAcquired then (r, Refused)
    else (SetState(r, uid, PendingPayment), Moved)
  }

  function Claim(r: Redis, uid: int, gid: int, id: Identity): (Redis, Verdict) {
    if !Addressed(r, uid, gid, id) then (r, Refused)
    else if r.admissions[uid].state == Paid then (r, Already)
    else if r.admissions[uid].state != PendingPayment then (r, Refused)
    else (SetState(r, uid, Paid), Moved)
  }

  function Release(r: Redis, uid: int, gid: int, id: Identity): (Redis, Verdict) {
    if !Addressed(r, uid, gid, id) then (r, Refused)
    else if r.admissions[uid].state == Cancelled then (r, Already)
    else if r.admissions[uid].state == Paid then (r, Refused)
    else (SetState(AddStock(r, gid, 1), uid, Cancelled), Moved)
  }

  /** TTL removal of one admission key; it never touches stock. */
  function Expire(r: Redis, uid: int): Redis {
    r.(admissions := r.admissions - {uid})
  }

  // ---------------------------------------------------------------- runs

  datatype Command =
    | DoAcquire(uid: int, gid: int, id: Identity)
    | DoMark(uid: int, gid: int, id: Identity)
    | DoClaim(uid: int, gid: int, id: Identity)
    | DoRelease(uid: int, gid: int, id: Identity)
    | DoExpire(uid: int)

  function Apply(r: Redis, c: Command): Redis {
    match c
    case DoAcquire(u, g, id) => Acquire(r, u, g, id).0
    case DoMark(u, g, id) => MarkPending(r, u, g, id).0
    case DoClaim(u, g, id) => Claim(r, u, g, id).0
    case DoRelease(u, g, id) => Release(r, u, g, id).0
    case DoExpire(u) => Expire(r, u)
  }

  function ApplyAll(r: Redis, cs: seq<Command>): Redis
    decreases cs
  {
    if cs == [] then r else ApplyAll(Apply(r, cs[0]), cs[1..])
  }

  // ---------------------------------------------------------------- conservation

  /** Users whose admission still occupies a unit of the gift. */
  function Holders(admissions: map<int, Admission>, gid: int): set<int> {
    set u | u in admissions && admissions[u].gift == gid && admissions[u].state != Cancelled
  }

  function Held(r: Redis, gid: int): nat {
    |Holders(r.admissions, gid)|
  }

  predicate StockNonNegative(r: Redis) {
    forall g :: g in r.stock ==> r.stock[g] >= 0
  }

  function Share(admissions: map<int, Admission>, uid: int, gid: int): nat {
    if uid in admissions && admissions[uid].gift == gid && admissions[uid].state != Cancelled then 1 else 0
  }

  lemma HoldersSplit(admissions: map<int, Admission>, uid: int, gid: int)
    ensures |Holders(admissions, gid)| == |Holders(admissions - {uid}, gid)| + Share(admissions, uid, gid)
  {
    var all, rest := Holders(admissions, gid), Holders(admissions - {uid}, gid);
    if uid in all {
      assert all == rest + {uid};
    } else {
      assert all == rest;
    }
  }

  /** Changing one user's admission moves the holder count by that user's own share. */
  lemma HoldersAfterChange(before: map<int, Admission>, after: map<int, Admission>, uid: int, gid: int)
    requires before - {uid} == after - {uid}
    ensures |Holders(after, gid)| - Share(after, uid, gid) == |Holders(before, gid)| - Share(before, uid, gid)
  {
    HoldersSplit(before, uid, gid);
    HoldersSplit(after, uid, gid);
  }

  /** One command: every gift keeps stock plus holders, except that an expiry may drop
      the unit its own admission held; stock never goes negative. */
  lemma CommandConserves(r: Redis, c: Command, gid: int)
    requires StockNonNegative(r)
    ensures StockNonNegative(Apply(r, c))
    ensures Stock(Apply(r, c), gid) + Held(Apply(r, c), gid) + Dropped(r, c, gid)
         == Stock(r, gid) + Held(r, gid)
  {
    var after := Apply(r, c);
    assert r.admissions - {c.uid} == after.admissions - {c.uid};
    HoldersAfterChange(r.admissions, after.admissions, c.uid, gid);
  }

  /** Units that one command removes from the books: an expiry of an occupied unit. */
  function Dropped(r: Redis, c: Command, gid: int): nat {
    if c.DoExpire? then Share(r.admissions, c.uid, gid) else 0
  }

  function TotalDropped(r: Redis, cs: seq<Command>, gid: int): nat
    decreases cs
  {
    if cs == [] then 0 else Dropped(r, cs[0], gid) + TotalDropped(Apply(r, cs[0]), cs[1..], gid)
  }

  /** Over any sequence of scripts and expiries, with arbitrary arguments, nothing is minted:
      stock plus holders plus expired units is constant, and stock stays non-negative. */
  lemma {:induction false} RunConserves(r: Redis, cs: seq<Command>, gid: int)
    requires StockNonNegative(r)
    ensures StockNonNegative(ApplyAll(r, cs))
    ensures Stock(ApplyAll(r, cs), gid) + Held(ApplyAll(r, cs), gid) + TotalDropped(r, cs, gid)
         == Stock(r, gid) + Held(r, gid)
    decreases cs
  {
    if cs == [] {
    } else {
      CommandConserves(r, cs[0], gid);
      RunConserves(Apply(r, cs[0]), cs[1..], gid);
    }
  }

  lemma {:induction false} NoExpiryNoDrop(r: Redis, cs: seq<Command>, gid: int)
    requires forall c :: c in cs ==> !c.DoExpire?
    ensures TotalDropped(r, cs, gid) == 0
    decreases cs
  {
    if cs == [] {
    } else {
      NoExpiryNoDrop(Apply(r, cs[0]), cs[1..], gid);
    }
  }

  /** Without expiry the books balance exactly: the whole baseline is in stock or held. */
  lemma RunConservesExactly(r: Redis, cs: seq<Command>, gid: int)
    requires StockNonNegative(r)
    requires forall c :: c in cs ==> !c.DoExpire?
    ensures Stock(ApplyAll(r, cs), gid) + Held(ApplyAll(r, cs), gid) == Stock(r, gid) + Held(r, gid)
    ensures 0 <= Stock(ApplyAll(r, cs), gid)
  {
    RunConserves(r, cs, gid);
    NoExpiryNoDrop(r, cs, gid);
  }

  // ---------------------------------------------------------------- restored at most once

  function Grants(r: Redis, c: Command, uid: int): nat {
    if c.DoAcquire? && c.uid == uid && Acquire(r, uid, c.gid, c.id).1 == Acquired then 1 else 0
  }

  function Restores(r: Redis, c: Command, uid: int): nat {
    if c.DoRelease? && c.uid == uid && Release(r, uid, c.gid, c.id).1 == Moved then 1 else 0
  }

  function TotalGrants(r: Redis, cs: seq<Command>, uid: int): nat
    decreases cs
  {
    if cs == [] then 0 else Grants(r, cs[0], uid) + TotalGrants(Apply(r, cs[0]), cs[1..], uid)
  }

  function TotalRestores(r: Redis, cs: seq<Command>, uid: int): nat
    decreases cs
  {
    if cs == [] then 0 else Restores(r, cs[0], uid) + TotalRestores(Apply(r, cs[0]), cs[1..], uid)
  }

  function Lapses(r: Redis, c: Command, uid: int): nat {
    if c.DoExpire? && c.uid == uid && Occupied(r, uid) == 1 then 1 else 0
  }

  function TotalLapses(r: Redis, cs: seq<Command>, uid: int): nat
    decreases cs
  {
    if cs == [] then 0 else Lapses(r, cs[0], uid) + TotalLapses(Apply(r, cs[0]), cs[1..], uid)
  }

  function Occupied(r: Redis, uid: int): nat {
    if uid in r.admissions && r.admissions[uid].state != Cancelled then 1 else 0
  }

  lemma CommandMovesUnit(r: Redis, c: Command, uid: int)
    ensures Restores(r, c, uid) + Lapses(r, c, uid) + Occupied(Apply(r, c), uid) == Grants(r, c, uid) + Occupied(r, uid)
  {
    if c.uid != uid {
      assert Apply(r, c).admissions - {c.uid} == r.admissions - {c.uid};
      assert uid in Apply(r, c).admissions <==> uid in r.admissions - {c.uid};
    }
  }

  /** Per user, every granted unit is restored once, lapsed once, or still held: so no
      admission ever restores stock twice. */
  lemma {:induction false} RestoredAtMostOnce(r: Redis, cs: seq<Command>, uid: int)
    ensures TotalRestores(r, cs, uid) + TotalLapses(r, cs, uid) + Occupied(ApplyAll(r, cs), uid)
         == TotalGrants(r, cs, uid) + Occupied(r, uid)
    decreases cs
  {
    if cs == [] {
    } else {
      CommandMovesUnit(r, cs[0], uid);
      RestoredAtMostOnce(Apply(r, cs[0]), cs[1..], uid);
    }
  }

  /** `Reaches` is exactly the chains of legal edges. */
  lemma ReachesIsChainOfEdges(from: Status, to: Status)
    ensures Reaches(from, to) <==> from == to || exists next :: CanTransition(from, next) && Reaches(next, to)
  {
    if from != to && Reaches(from, to) {
      var next := if CanTransition(from, to) then to else PendingPayment;
      assert CanTransition(from, next) && Reaches(next, to);
    }
  }

  /** One script moves an admission along at most one legal edge, and only the addressed one; a new
      admission starts as `stock_acquired`. */
  lemma OneLegalEdge(r: Redis, c: Command, uid: int)
    requires uid in Apply(r, c).admissions
    ensures
      var after := Apply(r, c).admissions[uid];
      if uid in r.admissions then
        || after == r.admissions[uid]
        || (c.uid == uid && CanTransition(r.admissions[uid].state, after.state)
            && after == r.admissions[uid].(state := after.state))
      else c.DoAcquire? && c.uid == uid && after.state == StockAcquired && after.gift == c.gid
  {
    if c.uid != uid {
      assert uid in Apply(r, c).admissions - {c.uid};
      assert Apply(r, c).admissions - {c.uid} == r.admissions - {c.uid};
    }
  }

  /** The state that one of the three state scripts moves an admission to. */
  function Target(c: Command): Status
    requires c.DoMark? || c.DoClaim? || c.DoRelease?
  {
    if c.DoMark? then PendingPayment else if c.DoClaim? then Paid else Cancelled
  }

  function VerdictOf(r: Redis, c: Command): Verdict
    requires c.DoMark? || c.DoClaim? || c.DoRelease?
  {
    match c
    case DoMark(u, g, id) => MarkPending(r, u, g, id).1
    case DoClaim(u, g, id) => Claim(r, u, g, id).1
    case DoRelease(u, g, id) => Release(r, u, g, id).1
  }

  /** Each state script moves the addressed admission exactly when its edge is legal, answers "already"
      exactly when the admission is there, and touches nothing else but the unit that a release gives
      back. */
  lemma ScriptsFollowTheEdges(r: Redis, c: Command)
    requires c.DoMark? || c.DoClaim? || c.DoRelease?
    ensures
      var addressed := Addressed(r, c.uid, c.gid, c.id);
      && (VerdictOf(r, c) == Moved <==> addressed && CanTransition(r.admissions[c.uid].state, Target(c)))
      && (VerdictOf(r, c) == Already <==> addressed && r.admissions[c.uid].state == Target(c))
      && Apply(r, c) ==
           if VerdictOf(r, c) != Moved then r
           else Redis(if c.DoRelease? then r.stock[c.gid := Stock(r, c.gid) + 1] else r.stock,
                      r.admissions[c.uid := Admission(c.gid, Target(c), c.id)], r.run)
  {
  }

  /** The acquire script grants exactly in the current run, to a user without admission, while the
      gift is in stock; it says which of the three failed first, and a refusal changes nothing. */
  lemma AcquireGrantsExactly(r: Redis, uid: int, gid: int, id: Identity)
    ensures
      var (n, reply) := Acquire(r, uid, gid, id);
      && (reply == StaleRun <==> id.order != "" && r.run != Some(id.run))
      && (reply == Duplicate <==> RunIsCurrent(r, id) && uid in r.admissions)
      && (reply == SoldOut <==> RunIsCurrent(r, id) && uid !in r.admissions && Stock(r, gid) <= 0)
      && n == if reply != Acquired then r
              else Redis(r.stock[gid := Stock(r, gid) - 1],
                         r.admissions[uid := Admission(gid, StockAcquired, if id.order == "" then ANONYMOUS else id)], r.run)
  {
  }

  /** Reached through legal edges only, and a terminal admission never moves while it lives. */
  lemma {:induction false} AdmissionOnlyMovesForward(r: Redis, cs: seq<Command>, uid: int)
    requires uid in r.admissions
    requires forall c :: c in cs && c.uid == uid ==> !c.DoExpire?
    ensures uid in ApplyAll(r, cs).admissions
    ensures ApplyAll(r, cs).admissions[uid].gift == r.admissions[uid].gift
    ensures ApplyAll(r, cs).admissions[uid].id == r.admissions[uid].id
    ensures Reaches(r.admissions[uid].state, ApplyAll(r, cs).admissions[uid].state)
    decreases cs
  {
    if cs == [] {
    } else {
      assert cs[0] in cs;
      var next := Apply(r, cs[0]);
      assert uid in next.admissions && Reaches(r.admissions[uid].state, next.admissions[uid].state);
      AdmissionOnlyMovesForward(next, cs[1..], uid);
    }
  }

  // ---------------------------------------------------------------- the store itself

  /** The Redis database that the scripts update in place. */
  class RedisStore {
    var stock: map<int, int>
    var admissions: map<int, Admission>
    var run: Option<string>

    constructor (stock: map<int, int>, admissions: map<int, Admission>, run: Option<string>)
      ensures Snapshot() == Redis(stock, admissions, run)
    {
      this.stock, this.admissions, this.run := stock, admissions, run;
    }

    function Snapshot(): Redis
      reads this
    {
      Redis(stock, admissions, run)
    }

    method RunAcquire(uid: int, gid: int, id: Identity) returns (reply: AcquireReply)
      modifies this
      ensures (Snapshot(), reply) == Acquire(old(Snapshot()), uid, gid, id)
    {
      if id.order != "" && run != Some(id.run) {
        return StaleRun;
      }
      if uid in admissions {
        return Duplicate;
      }
      var left := if gid in stock then stock[gid] else 0;
      if left <= 0 {
        return SoldOut;
      }
      stock := stock[gid := left - 1];
      var written := if id.order != "" then id else ANONYMOUS;
      admissions := admissions[uid := Admission(gid, StockAcquired, written)];
      return Acquired;
    }

    method RunMarkPending(uid: int, gid: int, id: Identity) returns (reply: Verdict)
      modifies this`admissions
      ensures (Snapshot(), reply) == MarkPending(old(Snapshot()), uid, gid, id)
    {
      if uid !in admissions {
        return Refused;
      }
      var current := admissions[uid];
      if current.gift != gid || current.id != id {
        return Refused;
      }
      if id.order != "" && run != Some(id.run) {
        return Refused;
      }
      if current.state == PendingPayment {
        return Already;
      }
      if current.state != StockAcquired {
        return Refused;
      }
      admissions := admissions[uid := current.(state := PendingPayment)];
      return Moved;
    }

    method RunClaim(uid: int, gid: int, id: Identity) returns (reply: Verdict)
      modifies this`admissions
      ensures (Snapshot(), reply) == Claim(old(Snapshot()), uid, gid, id)
    {
      if uid !in admissions {
        return Refused;
      }
      var current := admissions[uid];
      if current.gift != gid || current.id != id {
        return Refused;
      }
      if id.order != "" && run != Some(id.run) {
        return Refused;
      }
      if current.state == Paid {
        return Already;
      }
      if current.state != PendingPayment {
        return Refused;
      }
      admissions := admissions[uid := current.(state := Paid)];
      return Moved;
    }

    method RunRelease(uid: int, gid: int, id: Identity) returns (reply: Verdict)
      modifies this
      ensures (Snapshot(), reply) == Release(old(Snapshot()), uid, gid, id)
    {
      if uid !in admissions {
        return Refused;
      }
      var current := admissions[uid];
      if current.gift != gid || current.id != id {
        return Refused;
      }
      if id.order != "" && run != Some(id.run) {
        return Refused;
      }
      if current.state == Cancelled {
        return Already;
      }
      if current.state != StockAcquired && current.state != PendingPayment {
        return Refused;
      }
      stock := stock[gid := (if gid in stock then stock[gid] else 0) + 1];
      admissions := admissions[uid := current.(state := Cancelled)];
      return Moved;
    }
  }
}
