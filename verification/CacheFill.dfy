/** The double-checked cache fill under a per-key mutex, for any number of readers interleaved with
    deletions, expiry and failing calls.  One world is one cache key: the material DTO itself, or
    the negative entry of the material that does not exist. */
module CacheFill {
  import opened Common

  /** Detail: a failing Redis falls back to MySQL.  Missing: a failing Redis fails the request, and
      the origin confirms that there is no such material. */
  datatype Kind = Detail | Missing

  datatype ReadPc = FirstGet | AwaitLock | SecondGet | ReadOrigin | Fill | ReadDegraded | Replied

  /** The evidence a read leaves behind. */
  datatype Trace = Trace(hit: bool, miss: bool, coalesced: bool, fallback: bool, rebuilt: bool, rebuildFailed: bool, failed: bool)

  datatype Reader = Reader(pc: ReadPc, trace: Trace)

  /** `removals` is history: how often a present entry was deleted or expired. */
  datatype World = World(kind: Kind, present: bool, lock: Option<nat>, removals: nat, readers: map<nat, Reader>)

  const UNTOUCHED := Trace(false, false, false, false, false, false, false)

  datatype Action =
    | Arrive(pid: nat)
    | Proceed(pid: nat, fault: Fault)
    | Remove
    | BlindSet

  function Reply(trace: Trace): Reader {
    Reader(Replied, trace)
  }

  /** One statement of one reader: the entry, the lock, the reader. */
  function ReaderStep(kind: Kind, present: bool, lock: Option<nat>, pid: nat, r: Reader, fault: Fault): (bool, Option<nat>, Reader) {
    var t := r.trace;
    match r.pc
    case FirstGet =>
      if fault != NoFault then
        (present, lock, if kind == Detail then Reader(ReadDegraded, t) else Reply(t.(failed := true)))
      else if present then (present, lock, Reply(t.(hit := true)))
      else (present, lock, Reader(AwaitLock, t.(miss := true)))
    case AwaitLock =>
      if lock.Some? then (present, lock, r) else (present, Some(pid), Reader(SecondGet, t))
    case SecondGet =>
      if fault != NoFault then
        if kind == Detail then (present, lock, Reader(ReadOrigin, t)) else (present, None, Reply(t.(failed := true)))
      else if present then (present, None, Reply(t.(coalesced := true)))
      else (present, lock, Reader(ReadOrigin, t))
    case ReadOrigin =>
      if fault != NoFault then (present, None, Reply(t.(fallback := true, failed := true)))
      else (present, lock, Reader(Fill, t.(fallback := true)))
    case Fill =>
      if fault == NoFault then (true, None, Reply(t.(rebuilt := true)))
      else (present || fault == LostAfter, None, Reply(t.(rebuildFailed := true)))
    case ReadDegraded => (present, lock, Reply(t.(fallback := true, failed := fault != NoFault)))
    case Replied => (present, lock, r)
  }

  /** BlindSet is a write that skips the protocol: a prewarm or the unprotected experiment reader. */
  function Step(w: World, a: Action): World {
    match a
    case Arrive(pid) =>
      if pid in w.readers then w else w.(readers := w.readers[pid := Reader(FirstGet, UNTOUCHED)])
    case Proceed(pid, fault) =>
      if pid !in w.readers then w
      else
        var (present, lock, r) := ReaderStep(w.kind, w.present, w.lock, pid, w.readers[pid], fault);
        w.(present := present, lock := lock, readers := w.readers[pid := r])
    case Remove => if w.present then w.(present := false, removals := w.removals + 1) else w
    case BlindSet => w.(present := true)
  }

  function Run(w: World, acts: seq<Action>): World
    decreases acts
  {
    if acts == [] then w else Run(Step(w, acts[0]), acts[1..])
  }

  function Fresh(kind: Kind, present: bool): World {
    World(kind, present, None, 0, map[])
  }

  // ---------------------------------------------------------------- single flight

  predicate InCriticalSection(r: Reader) {
    r.pc == SecondGet || r.pc == ReadOrigin || r.pc == Fill
  }

  /** The evidence of a reader fits the point it has reached. */
  predicate TraceOk(kind: Kind, r: Reader) {
    match r.pc
    case FirstGet => r.trace == UNTOUCHED
    case AwaitLock => r.trace == UNTOUCHED.(miss := true)
    case SecondGet => r.trace == UNTOUCHED.(miss := true)
    case ReadOrigin => r.trace == UNTOUCHED.(miss := true)
    case Fill => r.trace == UNTOUCHED.(miss := true, fallback := true)
    case ReadDegraded => r.trace == UNTOUCHED && kind == Detail
    case Replied => Accounted(kind, r.trace)
  }

  /** A finished read is exactly one of: a first hit, a coalesced wait, an origin read that rebuilt,
      failed to rebuild or failed itself, a degraded origin read (Detail), a Redis failure (Missing). */
  predicate Accounted(kind: Kind, t: Trace) {
    || t == UNTOUCHED.(hit := true)
    || t == UNTOUCHED.(miss := true, coalesced := true)
    || t == UNTOUCHED.(miss := true, fallback := true, rebuilt := true)
    || t == UNTOUCHED.(miss := true, fallback := true, rebuildFailed := true)
    || t == UNTOUCHED.(miss := true, fallback := true, failed := true)
    || (kind == Detail && (t == UNTOUCHED.(fallback := true) || t == UNTOUCHED.(fallback := true, failed := true)))
    || (kind == Missing && (t == UNTOUCHED.(failed := true) || t == UNTOUCHED.(miss := true, failed := true)))
  }

  predicate Good(w: World) {
    && (forall pid :: pid in w.readers ==> TraceOk(w.kind, w.readers[pid]))
    && (forall pid :: pid in w.readers ==> (InCriticalSection(w.readers[pid]) <==> w.lock == Some(pid)))
    && (w.lock.Some? ==> w.lock.value in w.readers)
  }

  lemma StepIsGood(w: World, a: Action)
    requires Good(w)
    ensures Good(Step(w, a)) && Step(w, a).kind == w.kind
  {
    if a.Proceed? && a.pid in w.readers {
      var v := Step(w, a);
      forall i | i in v.readers
        ensures TraceOk(w.kind, v.readers[i]) && (InCriticalSection(v.readers[i]) <==> v.lock == Some(i))
      {
        assert TraceOk(w.kind, w.readers[i]) && (InCriticalSection(w.readers[i]) <==> w.lock == Some(i));
      }
    }
  }

  lemma {:induction false} RunIsGood(w: World, acts: seq<Action>)
    requires Good(w)
    ensures Good(Run(w, acts)) && Run(w, acts).kind == w.kind
    decreases acts
  {
    if acts == [] {
    } else {
      StepIsGood(w, acts[0]);
      RunIsGood(Step(w, acts[0]), acts[1..]);
    }
  }

  /** At most one reader at a time is between its second check and its write. */
  lemma OneRebuildInFlight(kind: Kind, present: bool, acts: seq<Action>, i: nat, j: nat)
    requires
      var v := Run(Fresh(kind, present), acts);
      i in v.readers && j in v.readers && InCriticalSection(v.readers[i]) && InCriticalSection(v.readers[j])
    ensures i == j
  {
    RunIsGood(Fresh(kind, present), acts);
  }

  // ---------------------------------------------------------------- the counters balance

  function Misses(w: World): set<nat> {
    set pid | pid in w.readers && w.readers[pid].trace.miss
  }

  function Fallbacks(w: World): set<nat> {
    set pid | pid in w.readers && w.readers[pid].trace.fallback
  }

  function CoalescedReads(w: World): set<nat> {
    set pid | pid in w.readers && w.readers[pid].trace.coalesced
  }

  function Rebuilders(w: World): set<nat> {
    set pid | pid in w.readers && w.readers[pid].trace.rebuilt
  }

  /** Missed, but neither answered nor at the origin yet. */
  function Undecided(w: World): set<nat> {
    set pid | pid in w.readers && Waits(w.readers[pid])
  }

  predicate Waits(r: Reader) {
    r.pc == AwaitLock || r.pc == SecondGet || r.pc == ReadOrigin
  }

  /** Reads of a failing Redis: straight to the origin, or given up. */
  function Degraded(w: World): set<nat> {
    set pid | pid in w.readers && w.readers[pid].trace.fallback && !w.readers[pid].trace.miss
  }

  function GivenUp(w: World): set<nat> {
    set pid | pid in w.readers && w.readers[pid].trace.miss && w.readers[pid].trace.failed && !w.readers[pid].trace.fallback
  }

  /** In every reachable world each first miss is one origin read, one coalesced wait, one request
      still under way, or (negative entry only) one that gave up on a failing second check; and each
      further origin read is one degraded request. */
  lemma MissesAreAccountedFor(kind: Kind, present: bool, acts: seq<Action>)
    ensures
      var v := Run(Fresh(kind, present), acts);
      && |Misses(v)| + |Degraded(v)| == |Fallbacks(v)| + |CoalescedReads(v)| + |Undecided(v)| + |GivenUp(v)|
      && (kind == Detail ==> GivenUp(v) == {})
      && (kind == Missing ==> Degraded(v) == {})
  {
    var v := Run(Fresh(kind, present), acts);
    RunIsGood(Fresh(kind, present), acts);
    forall pid | pid in v.readers
      ensures TraceOk(kind, v.readers[pid])
    {
    }
    MissesSplit(v);
  }

  /** The four ways a first miss can stand, and the one way to reach the origin without a miss. */
  lemma MissStandsOneWay(kind: Kind, r: Reader)
    requires TraceOk(kind, r)
    ensures
      var origin, gaveUp := r.trace.fallback && r.trace.miss, r.trace.miss && r.trace.failed && !r.trace.fallback;
      && (r.trace.miss <==> origin || r.trace.coalesced || Waits(r) || gaveUp)
      && !(origin && r.trace.coalesced) && !(origin && Waits(r)) && !(r.trace.coalesced && Waits(r))
      && !(gaveUp && (r.trace.coalesced || Waits(r)))
      && (gaveUp ==> kind == Missing) && (r.trace.fallback && !r.trace.miss ==> kind == Detail)
  {
  }

  /** Origin reads of readers that had missed. */
  function OriginReads(w: World): set<nat> {
    set pid | pid in w.readers && w.readers[pid].trace.fallback && w.readers[pid].trace.miss
  }

  lemma MissesSplit(w: World)
    requires Good(w)
    ensures |Misses(w)| + |Degraded(w)| == |Fallbacks(w)| + |CoalescedReads(w)| + |Undecided(w)| + |GivenUp(w)|
    ensures w.kind == Detail ==> GivenUp(w) == {}
    ensures w.kind == Missing ==> Degraded(w) == {}
  {
    forall pid | pid in w.readers
      ensures pid in Misses(w) <==>
                pid in OriginReads(w) || pid in CoalescedReads(w) || pid in Undecided(w) || pid in GivenUp(w)
      ensures !(pid in OriginReads(w) && (pid in CoalescedReads(w) || pid in Undecided(w) || pid in GivenUp(w)))
      ensures !(pid in CoalescedReads(w) && (pid in Undecided(w) || pid in GivenUp(w)))
      ensures !(pid in Undecided(w) && pid in GivenUp(w))
      ensures w.kind == Detail ==> pid !in GivenUp(w)
      ensures w.kind == Missing ==> pid !in Degraded(w)
    {
      MissStandsOneWay(w.kind, w.readers[pid]);
    }
    FourParts(Misses(w), OriginReads(w), CoalescedReads(w), Undecided(w), GivenUp(w));
    assert Fallbacks(w) == OriginReads(w) + Degraded(w);
    assert OriginReads(w) !! Degraded(w);
  }

  lemma FourParts(all: set<nat>, a: set<nat>, b: set<nat>, c: set<nat>, d: set<nat>)
    requires forall x :: x in all <==> x in a || x in b || x in c || x in d
    requires a !! b && a !! c && a !! d && b !! c && b !! d && c !! d
    ensures |all| == |a| + |b| + |c| + |d|
  {
    assert all == a + b + c + d;
  }

  // ---------------------------------------------------------------- rebuilds are bounded by removals

  /** The run's Redis calls all succeed and nobody writes the key outside the protocol. */
  predicate Protected(w: World, acts: seq<Action>)
    decreases acts
  {
    acts == [] || (ProtectedStep(w, acts[0]) && Protected(Step(w, acts[0]), acts[1..]))
  }

  /** MySQL may still fail. */
  predicate ProtectedStep(w: World, a: Action) {
    && !a.BlindSet?
    && (a.Proceed? && a.fault != NoFault ==>
          a.pid in w.readers && (w.readers[a.pid].pc == ReadOrigin || w.readers[a.pid].pc == ReadDegraded))
  }

  function Bit(b: bool): nat {
    if b then 1 else 0
  }

  /** Past its second check a reader knows that the entry is absent. */
  predicate FillerSeesAbsent(w: World) {
    forall pid :: pid in w.readers && (w.readers[pid].pc == ReadOrigin || w.readers[pid].pc == Fill) ==> !w.present
  }

  predicate Balanced(w: World, initially: bool) {
    |Rebuilders(w)| + Bit(initially) == w.removals + Bit(w.present)
  }

  lemma RebuildersGrow(w: World, pid: nat, fault: Fault)
    requires Good(w) && pid in w.readers
    ensures
      var v := Step(w, Proceed(pid, fault));
      |Rebuilders(v)| == |Rebuilders(w)| + if w.readers[pid].pc == Fill && fault == NoFault then 1 else 0
  {
    var v := Step(w, Proceed(pid, fault));
    assert TraceOk(w.kind, w.readers[pid]);
    if w.readers[pid].pc == Fill && fault == NoFault {
      assert Rebuilders(v) == Rebuilders(w) + {pid};
    } else {
      assert Rebuilders(v) == Rebuilders(w);
    }
  }

  lemma StepBalances(w: World, a: Action, initially: bool)
    requires Good(w) && FillerSeesAbsent(w) && Balanced(w, initially) && ProtectedStep(w, a)
    ensures FillerSeesAbsent(Step(w, a)) && Balanced(Step(w, a), initially)
  {
    var v := Step(w, a);
    if a.Proceed? && a.pid in w.readers {
      RebuildersGrow(w, a.pid, a.fault);
      forall i | i in v.readers && (v.readers[i].pc == ReadOrigin || v.readers[i].pc == Fill)
        ensures !v.present
      {
        assert InCriticalSection(w.readers[a.pid]) <==> w.lock == Some(a.pid);
        assert InCriticalSection(w.readers[i]) <==> w.lock == Some(i);
      }
    } else if a.Arrive? && v != w {
      assert Rebuilders(v) == Rebuilders(w);
    } else {
      assert Rebuilders(v) == Rebuilders(w);
    }
  }

  lemma {:induction false} RunBalances(w: World, acts: seq<Action>, initially: bool)
    requires Good(w) && FillerSeesAbsent(w) && Balanced(w, initially) && Protected(w, acts)
    ensures Balanced(Run(w, acts), initially)
    decreases acts
  {
    if acts == [] {
    } else {
      StepBalances(w, acts[0], initially);
      StepIsGood(w, acts[0]);
      RunBalances(Step(w, acts[0]), acts[1..], initially);
    }
  }

  /** For any number of protected readers and any removals: rebuilds are exactly the removals, plus
      one if the entry has appeared since the start, less one if it has gone; so never more than
      removals + 1, and with no removal the whole first wave shares one rebuild. */
  lemma RebuildsMatchRemovals(kind: Kind, present: bool, acts: seq<Action>)
    requires Protected(Fresh(kind, present), acts)
    ensures
      var v := Run(Fresh(kind, present), acts);
      && |Rebuilders(v)| + Bit(present) == v.removals + Bit(v.present)
      && |Rebuilders(v)| <= v.removals + 1
  {
    assert Rebuilders(Fresh(kind, present)) == {};
    RunBalances(Fresh(kind, present), acts, present);
  }

  // ---------------------------------------------------------------- origin queries without faults

  predicate Faultless(acts: seq<Action>) {
    forall a :: a in acts ==> !a.BlindSet? && (a.Proceed? ==> a.fault == NoFault)
  }

  /** Without faults every origin read either rebuilt the entry or is about to. */
  predicate NothingFailed(w: World) {
    forall pid :: pid in w.readers ==>
      && w.readers[pid].pc != ReadDegraded
      && (w.readers[pid].trace.fallback ==> w.readers[pid].trace.rebuilt || w.readers[pid].pc == Fill)
  }

  lemma FaultlessStep(w: World, a: Action)
    requires Good(w) && NothingFailed(w) && !a.BlindSet? && (a.Proceed? ==> a.fault == NoFault)
    ensures NothingFailed(Step(w, a)) && ProtectedStep(w, a)
  {
    if a.Proceed? && a.pid in w.readers {
      assert TraceOk(w.kind, w.readers[a.pid]);
    }
  }

  lemma {:induction false} FaultlessRun(w: World, acts: seq<Action>, initially: bool)
    requires Good(w) && FillerSeesAbsent(w) && Balanced(w, initially) && NothingFailed(w) && Faultless(acts)
    ensures Good(Run(w, acts)) && FillerSeesAbsent(Run(w, acts)) && Balanced(Run(w, acts), initially)
    ensures NothingFailed(Run(w, acts))
    decreases acts
  {
    if acts == [] {
    } else {
      assert acts[0] in acts;
      FaultlessStep(w, acts[0]);
      StepBalances(w, acts[0], initially);
      StepIsGood(w, acts[0]);
      FaultlessRun(Step(w, acts[0]), acts[1..], initially);
    }
  }

  /** So the origin is asked at most once more than the entry was removed, for the DTO and for the
      negative entry alike. */
  lemma OriginQueriesBounded(kind: Kind, present: bool, acts: seq<Action>)
    requires Faultless(acts)
    ensures |Fallbacks(Run(Fresh(kind, present), acts))| <= Run(Fresh(kind, present), acts).removals + 1
  {
    var v := Run(Fresh(kind, present), acts);
    assert Rebuilders(Fresh(kind, present)) == {};
    FaultlessRun(Fresh(kind, present), acts, present);
    if pid :| pid in v.readers && v.readers[pid].pc == Fill {
      forall other | other in Fallbacks(v)
        ensures other in Rebuilders(v) + {pid}
      {
        assert other != pid && v.readers[other].pc == Fill ==> v.lock == Some(pid) && v.lock == Some(other);
      }
      assert Fallbacks(v) <= Rebuilders(v) + {pid};
      SmallerSet(Fallbacks(v), Rebuilders(v) + {pid});
    } else {
      assert Fallbacks(v) <= Rebuilders(v);
      SmallerSet(Fallbacks(v), Rebuilders(v));
    }
  }

  lemma SmallerSet(a: set<nat>, b: set<nat>)
    requires a <= b
    ensures |a| <= |b|
  {
    assert b == a + (b - a);
  }

  // ---------------------------------------------------------------- the evidence is true

  /** What can happen to one reader in one statement. */
  datatype Cause = FirstHit | FirstMiss | SecondHit | OriginAsked | OriginFailed | EntryWritten | WriteFailed | GaveUp

  /** A statement at this point is that event: a GET that met the entry or its absence, a call to the
      origin, a write. */
  predicate Causes(kind: Kind, present: bool, at: ReadPc, fault: Fault, cause: Cause) {
    match cause
    case FirstHit => at == FirstGet && fault == NoFault && present
    case FirstMiss => at == FirstGet && fault == NoFault && !present
    case SecondHit => at == SecondGet && fault == NoFault && present
    case OriginAsked => at == ReadOrigin || at == ReadDegraded
    case OriginFailed => (at == ReadOrigin || at == ReadDegraded) && fault != NoFault
    case EntryWritten => at == Fill && fault == NoFault
    case WriteFailed => at == Fill && fault != NoFault
    case GaveUp => (at == FirstGet || at == SecondGet) && fault != NoFault && kind == Missing
  }

  predicate Is(w: World, a: Action, pid: nat, cause: Cause) {
    a.Proceed? && a.pid == pid && pid in w.readers && Causes(w.kind, w.present, w.readers[pid].pc, a.fault, cause)
  }

  predicate Happened(w: World, acts: seq<Action>, pid: nat, cause: Cause)
    decreases acts
  {
    acts != [] && (Is(w, acts[0], pid, cause) || Happened(Step(w, acts[0]), acts[1..], pid, cause))
  }

  /** The trace field that reports this event. */
  predicate Says(t: Trace, cause: Cause) {
    match cause
    case FirstHit => t.hit
    case FirstMiss => t.miss
    case SecondHit => t.coalesced
    case OriginAsked => t.fallback
    case OriginFailed => t.failed && t.fallback
    case EntryWritten => t.rebuilt
    case WriteFailed => t.rebuildFailed
    case GaveUp => t.failed && !t.fallback
  }

  predicate Reports(w: World, pid: nat, cause: Cause) {
    pid in w.readers && Says(w.readers[pid].trace, cause)
  }

  lemma ReaderReports(kind: Kind, present: bool, lock: Option<nat>, pid: nat, r: Reader, fault: Fault, cause: Cause)
    requires TraceOk(kind, r)
    ensures
      var after := ReaderStep(kind, present, lock, pid, r, fault).2;
      Says(after.trace, cause) <==> Says(r.trace, cause) || Causes(kind, present, r.pc, fault, cause)
  {
  }

  lemma StepReports(w: World, a: Action, pid: nat, cause: Cause)
    requires Good(w)
    ensures Reports(Step(w, a), pid, cause) <==> Reports(w, pid, cause) || Is(w, a, pid, cause)
  {
    if a.Proceed? && a.pid == pid && pid in w.readers {
      ReaderReports(w.kind, w.present, w.lock, pid, w.readers[pid], a.fault, cause);
    } else if pid in w.readers {
      assert Step(w, a).readers[pid] == w.readers[pid];
    }
  }

  lemma {:induction false} RunReports(w: World, acts: seq<Action>, pid: nat, cause: Cause)
    requires Good(w)
    ensures Reports(Run(w, acts), pid, cause) <==> Reports(w, pid, cause) || Happened(w, acts, pid, cause)
    decreases acts
  {
    if acts == [] {
    } else {
      StepReports(w, acts[0], pid, cause);
      StepIsGood(w, acts[0]);
      RunReports(Step(w, acts[0]), acts[1..], pid, cause);
    }
  }

  /** Over every run, under any faults, removals and outside writes, a reader's evidence is exactly what
      happened to it: it reports a first hit if and only if its first GET met a present entry, a miss
      if and only if it met its absence, and so on for each field. */
  lemma EvidenceIsTrue(kind: Kind, present: bool, acts: seq<Action>, pid: nat, cause: Cause)
    ensures Reports(Run(Fresh(kind, present), acts), pid, cause) <==> Happened(Fresh(kind, present), acts, pid, cause)
  {
    RunReports(Fresh(kind, present), acts, pid, cause);
  }

  /** A read whose first GET met the entry was answered by it at once: no wait, no lock, no origin, and
      it reports nothing but the hit. */
  lemma FirstHitAnswers(kind: Kind, present: bool, acts: seq<Action>, pid: nat)
    requires Happened(Fresh(kind, present), acts, pid, FirstHit)
    ensures
      var v := Run(Fresh(kind, present), acts);
      && pid in v.readers && v.readers[pid] == Reply(UNTOUCHED.(hit := true)) && v.lock != Some(pid)
      && !Happened(Fresh(kind, present), acts, pid, OriginAsked)
  {
    RunIsGood(Fresh(kind, present), acts);
    EvidenceIsTrue(kind, present, acts, pid, FirstHit);
    EvidenceIsTrue(kind, present, acts, pid, OriginAsked);
    assert TraceOk(kind, Run(Fresh(kind, present), acts).readers[pid]);
  }

  /** Redis is not needed for a correct answer: a DTO read fails only if MySQL failed it, and then it
      does. */
  lemma OnlyTheOriginFailsReads(present: bool, acts: seq<Action>, pid: nat)
    ensures
      var v := Run(Fresh(Detail, present), acts);
      pid in v.readers ==> (v.readers[pid].trace.failed <==> Happened(Fresh(Detail, present), acts, pid, OriginFailed))
  {
    RunIsGood(Fresh(Detail, present), acts);
    EvidenceIsTrue(Detail, present, acts, pid, OriginFailed);
    var v := Run(Fresh(Detail, present), acts);
    if pid in v.readers {
      assert TraceOk(Detail, v.readers[pid]);
    }
  }

  /** Everybody was served from the entry, or has not asked yet. */
  predicate AllHits(w: World) {
    && w.present
    && forall pid :: pid in w.readers ==>
         w.readers[pid] == Reader(FirstGet, UNTOUCHED) || w.readers[pid] == Reply(UNTOUCHED.(hit := true))
  }

  predicate Calm(a: Action) {
    a != Remove && (a.Proceed? ==> a.fault == NoFault)
  }

  lemma {:induction false} WarmRun(w: World, acts: seq<Action>)
    requires AllHits(w) && forall a :: a in acts ==> Calm(a)
    ensures AllHits(Run(w, acts))
    decreases acts
  {
    if acts == [] {
    } else {
      assert acts[0] in acts && Calm(acts[0]);
      assert AllHits(Step(w, acts[0]));
      assert forall a :: a in acts[1..] ==> a in acts;
      WarmRun(Step(w, acts[0]), acts[1..]);
    }
  }

  /** While the entry stays and nothing fails, nobody misses, waits or asks the origin. */
  lemma WarmCacheServesEverybody(kind: Kind, acts: seq<Action>)
    requires forall a :: a in acts ==> Calm(a)
    ensures
      var v := Run(Fresh(kind, true), acts);
      Misses(v) == {} && Fallbacks(v) == {} && CoalescedReads(v) == {} && Undecided(v) == {}
  {
    WarmRun(Fresh(kind, true), acts);
  }

  function Rank(at: ReadPc): nat {
    match at
    case FirstGet => 5
    case AwaitLock => 4
    case SecondGet => 3
    case ReadOrigin => 2
    case Fill => 1
    case ReadDegraded => 1
    case Replied => 0
  }

  /** Every statement brings a read closer to its answer, except waiting for a reader that still has
      statements to go. */
  lemma ReadsEnd(kind: Kind, present: bool, acts: seq<Action>, pid: nat, fault: Fault)
    requires
      var v := Run(Fresh(kind, present), acts);
      pid in v.readers && v.readers[pid].pc != Replied
    ensures
      var v := Run(Fresh(kind, present), acts);
      || Rank(Step(v, Proceed(pid, fault)).readers[pid].pc) < Rank(v.readers[pid].pc)
      || (v.readers[pid].pc == AwaitLock && v.lock.Some? && v.lock.value != pid
          && v.lock.value in v.readers && 0 < Rank(v.readers[v.lock.value].pc) < 4)
  {
    RunIsGood(Fresh(kind, present), acts);
    var v := Run(Fresh(kind, present), acts);
    if v.lock.Some? {
      assert InCriticalSection(v.readers[v.lock.value]) <==> v.lock == Some(v.lock.value);
    }
  }

  /** A write reached Redis, from inside the protocol or outside it. */
  predicate Writes(w: World, a: Action) {
    a == BlindSet || (a.Proceed? && a.pid in w.readers && w.readers[a.pid].pc == Fill && a.fault != LostBefore)
  }

  function PresentAfter(w: World, acts: seq<Action>, present: bool): bool
    decreases acts
  {
    if acts == [] then present
    else PresentAfter(Step(w, acts[0]), acts[1..], if acts[0] == Remove then false else present || Writes(w, acts[0]))
  }

  /** The entry is there exactly when a write reached Redis, or it was there at the start, with no
      removal since: a write whose reply was lost counts, a write that was lost does not. */
  lemma {:induction false} EntryFollowsWrites(w: World, acts: seq<Action>)
    ensures Run(w, acts).present == PresentAfter(w, acts, w.present)
    decreases acts
  {
    if acts == [] {
    } else {
      assert Step(w, acts[0]).present == if acts[0] == Remove then false else w.present || Writes(w, acts[0]);
      EntryFollowsWrites(Step(w, acts[0]), acts[1..]);
    }
  }
}
