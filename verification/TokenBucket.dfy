/** The draw endpoint's token bucket, over the reals: the object that refills and spends, and an
    exact characterisation of which requests it lets through. */
module TokenBucket {
  import opened Common

  /** `last` is the time of the latest refill; None is the zero time. */
  datatype Bucket = Bucket(rate: real, burst: real, tokens: real, last: Option<real>)

  function New(qps: int, now: real): Bucket {
    if qps <= 0 then Bucket(0.0, 0.0, 0.0, None)
    else Bucket(qps as real, qps as real, qps as real, Some(now))
  }

  /** A time that does not advance adds nothing and is forgotten. */
  function Refill(b: Bucket, now: real): Bucket {
    if b.last.None? then b.(last := Some(now), tokens := b.burst)
    else if now - b.last.value <= 0.0 then b
    else
      var filled := b.tokens + (now - b.last.value) * b.rate;
      b.(tokens := if filled > b.burst then b.burst else filled, last := Some(now))
  }

  function Allow(b: Bucket, now: real): (Bucket, bool) {
    if b.rate <= 0.0 then (b, true)
    else
      var full := Refill(b, now);
      if full.tokens < 1.0 then (full, false) else (full.(tokens := full.tokens - 1.0), true)
  }

  function Reset(b: Bucket, now: real): Bucket {
    if b.rate <= 0.0 then b else b.(tokens := b.burst, last := Some(now))
  }

  class Limiter {
    var rate: real
    var burst: real
    var tokens: real
    var lastRefill: Option<real>

    constructor (qps: int, now: real)
      ensures State() == New(qps, now)
      ensures qps > 0 ==> rate == qps as real && burst == qps as real && tokens == qps as real && lastRefill == Some(now)
      ensures qps <= 0 ==> rate == 0.0
      ensures fresh(this)
    {
      if qps <= 0 {
        rate, burst, tokens, lastRefill := 0.0, 0.0, 0.0, None;
      } else {
        rate, burst, tokens, lastRefill := qps as real, qps as real, qps as real, Some(now);
      }
    }

    function State(): Bucket
      reads this
    {
      Bucket(rate, burst, tokens, lastRefill)
    }

    method TryAcquire(now: real) returns (allowed: bool)
      modifies this
      ensures (State(), allowed) == Allow(old(State()), now)
    {
      if rate <= 0.0 {
        return true;
      }
      RefillAt(now);
      if tokens < 1.0 {
        return false;
      }
      tokens := tokens - 1.0;
      return true;
    }

    method Restart(now: real)
      modifies this`tokens, this`lastRefill
      ensures State() == Reset(old(State()), now)
    {
      if rate <= 0.0 {
        return;
      }
      tokens := burst;
      lastRefill := Some(now);
    }

    method RefillAt(now: real)
      modifies this`tokens, this`lastRefill
      ensures State() == Refill(old(State()), now)
    {
      if lastRefill.None? {
        lastRefill := Some(now);
        tokens := burst;
        return;
      }
      var elapsed := now - lastRefill.value;
      if elapsed <= 0.0 {
        return;
      }
      tokens := tokens + elapsed * rate;
      if tokens > burst {
        tokens := burst;
      }
      lastRefill := Some(now);
    }
  }

  // ---------------------------------------------------------------- whole runs

  /** The bucket after serving requests at the given observed times, in lock order. */
  function After(b: Bucket, times: seq<real>): Bucket {
    if times == [] then b else Allow(After(b, times[..|times| - 1]), times[|times| - 1]).0
  }

  /** Whether request `n` was let through. */
  predicate Admitted(b: Bucket, times: seq<real>, n: nat)
    requires n < |times|
  {
    Allow(After(b, times[..n]), times[n]).1
  }

  function Max(a: real, b: real): real {
    if a >= b then a else b
  }

  /** The running maximum of the observed times up to request `n`, from the last reset on. */
  function Clock(start: real, times: seq<real>, n: nat): (t: real)
    requires n < |times|
    ensures t >= times[n] && t >= start
  {
    if n == 0 then Max(start, times[0]) else Max(Clock(start, times, n - 1), times[n])
  }

  /** The answers to a whole run of requests. */
  function Answers(b: Bucket, times: seq<real>): (answers: seq<bool>)
    ensures |answers| == |times|
    ensures forall n :: 0 <= n < |times| ==> answers[n] == Admitted(b, times, n)
  {
    seq(|times|, n requires 0 <= n < |times| => Admitted(b, times, n))
  }

  /** How many of the answers j, ..., n - 1 were positive. */
  function Count(answers: seq<bool>, j: nat, n: nat): nat
    requires j <= n <= |answers|
  {
    if j == n then 0 else Count(answers, j, n - 1) + if answers[n - 1] then 1 else 0
  }

  /** A full bucket that has just been built or reset. */
  predicate Full(b: Bucket, start: real) {
    b.rate > 0.0 && b.tokens == b.burst && b.last == Some(start)
  }

  // ---------------------------------------------------------------- one step

  function Cut(filled: real, burst: real): real {
    if filled > burst then burst else filled
  }

  function Spent(yes: bool): real {
    if yes then 1.0 else 0.0
  }

  function Gain(rate: real, elapsed: real): real {
    elapsed * rate
  }

  lemma GainIsMonotone(rate: real, elapsed: real)
    requires rate > 0.0 && elapsed >= 0.0
    ensures Gain(rate, elapsed) >= 0.0
  {
  }

  lemma GainBetween(rate: real, a: real, c: real)
    ensures Gain(rate, c - a) == Gain(rate, c) - Gain(rate, a)
  {
  }

  lemma GainGrows(rate: real, a: real, c: real)
    requires rate > 0.0 && a <= c
    ensures Gain(rate, a) <= Gain(rate, c)
  {
    GainIsMonotone(rate, c - a);
    GainBetween(rate, a, c);
  }

  /** A refill moves the clock to the maximum and adds what the clock gained, up to the burst. */
  lemma RefillMoves(b: Bucket, clock: real, now: real)
    requires b.rate > 0.0 && b.last == Some(clock) && b.tokens <= b.burst
    ensures Refill(b, now).last == Some(Max(clock, now))
    ensures Refill(b, now).tokens == Cut(b.tokens + Gain(b.rate, Max(clock, now) - clock), b.burst)
    ensures Refill(b, now).rate == b.rate && Refill(b, now).burst == b.burst
  {
  }

  /** Tokens that request `n` finds after its refill. */
  function Level(b: Bucket, times: seq<real>, n: nat): real
    requires n < |times|
  {
    Refill(After(b, times[..n]), times[n]).tokens
  }

  /** The bucket before request `n`. */
  lemma {:induction false} StateBefore(b: Bucket, start: real, times: seq<real>, n: nat)
    requires Full(b, start) && n < |times|
    ensures
      var now := After(b, times[..n]);
      && now.rate == b.rate && now.burst == b.burst && now.tokens <= b.burst
      && now.last == Some(if n == 0 then start else Clock(start, times, n - 1))
      && (n == 0 ==> now.tokens == b.burst)
      && (n > 0 ==> now.tokens == Level(b, times, n - 1) - Spent(Admitted(b, times, n - 1)))
    decreases n
  {
    if n == 0 {
      assert times[..0] == [];
    } else {
      StateBefore(b, start, times, n - 1);
      assert times[..n][..n - 1] == times[..n - 1] && times[..n][n - 1] == times[n - 1];
      var before := After(b, times[..n - 1]);
      RefillMoves(before, before.last.value, times[n - 1]);
      assert After(b, times[..n]) == Allow(before, times[n - 1]).0;
    }
  }

  /** The level starts full, falls by what was spent and rises with the clock, up to the burst. */
  lemma LevelMoves(b: Bucket, start: real, times: seq<real>, n: nat)
    requires Full(b, start) && n < |times|
    ensures n == 0 ==> Level(b, times, n) == b.burst
    ensures n > 0 ==>
      Level(b, times, n) == Cut(Level(b, times, n - 1) - Spent(Admitted(b, times, n - 1))
                                + Gain(b.rate, Clock(start, times, n) - Clock(start, times, n - 1)), b.burst)
    ensures Admitted(b, times, n) <==> Level(b, times, n) >= 1.0
  {
    StateBefore(b, start, times, n);
    var before := After(b, times[..n]);
    RefillMoves(before, before.last.value, times[n]);
    if n == 0 {
      GainIsMonotone(b.rate, Max(start, times[0]) - start);
    }
  }

  // ---------------------------------------------------------------- the recurrence solved

  /** A level that starts at the burst, is cut off at the burst, loses one per positive answer and
      follows a cumulative gain. */
  predicate Follows(level: seq<real>, answers: seq<bool>, gain: seq<real>, burst: real) {
    && |level| == |answers| == |gain| > 0
    && level[0] == burst
    && forall n :: 0 < n < |level| ==> level[n] == Cut(level[n - 1] - Spent(answers[n - 1]) + (gain[n] - gain[n - 1]), burst)
  }

  function Room(answers: seq<bool>, gain: seq<real>, burst: real, j: nat, n: nat): real
    requires |answers| == |gain| && j <= n < |gain|
  {
    burst + (gain[n] - gain[j]) - Count(answers, j, n) as real
  }

  /** Such a level is the room left by the tightest window ending here. */
  lemma {:induction false} LevelIsTightestRoom(level: seq<real>, answers: seq<bool>, gain: seq<real>, burst: real, n: nat)
    returns (tight: nat)
    requires Follows(level, answers, gain, burst) && n < |level|
    ensures forall j :: 0 <= j <= n ==> level[n] <= Room(answers, gain, burst, j, n)
    ensures tight <= n && level[n] == Room(answers, gain, burst, tight, n)
    decreases n
  {
    assert Room(answers, gain, burst, n, n) == burst;
    if n == 0 {
      tight := 0;
    } else {
      var before := LevelIsTightestRoom(level, answers, gain, burst, n - 1);
      assert level[n] == Cut(level[n - 1] - Spent(answers[n - 1]) + (gain[n] - gain[n - 1]), burst);
      forall j | 0 <= j < n
        ensures Room(answers, gain, burst, j, n)
             == Room(answers, gain, burst, j, n - 1) - Spent(answers[n - 1]) + (gain[n] - gain[n - 1])
      {
      }
      tight := if level[n] == burst then n else before;
    }
  }

  /** Levels, answers and cumulative gains of a run. */
  function Levels(b: Bucket, times: seq<real>): seq<real> {
    seq(|times|, n requires 0 <= n < |times| => Level(b, times, n))
  }

  function Gains(b: Bucket, start: real, times: seq<real>): seq<real> {
    seq(|times|, n requires 0 <= n < |times| => Gain(b.rate, Clock(start, times, n)))
  }

  lemma StepFollows(b: Bucket, start: real, times: seq<real>, n: nat)
    requires Full(b, start) && 0 < n < |times|
    ensures Level(b, times, n)
         == Cut(Level(b, times, n - 1) - Spent(Admitted(b, times, n - 1))
                + (Gain(b.rate, Clock(start, times, n)) - Gain(b.rate, Clock(start, times, n - 1))), b.burst)
  {
    LevelMoves(b, start, times, n);
    GainBetween(b.rate, Clock(start, times, n - 1), Clock(start, times, n));
  }

  lemma RunFollows(b: Bucket, start: real, times: seq<real>)
    requires Full(b, start) && times != []
    ensures Follows(Levels(b, times), Answers(b, times), Gains(b, start, times), b.burst)
  {
    LevelMoves(b, start, times, 0);
    var level, answers, gain := Levels(b, times), Answers(b, times), Gains(b, start, times);
    forall n | 0 < n < |times|
      ensures level[n] == Cut(level[n - 1] - Spent(answers[n - 1]) + (gain[n] - gain[n - 1]), b.burst)
    {
      StepFollows(b, start, times, n);
    }
  }

  // ---------------------------------------------------------------- what is let through

  /** The window of requests j, ..., n would keep its bound if request n were let through too. */
  predicate Fits(b: Bucket, start: real, times: seq<real>, j: nat, n: nat)
    requires j <= n < |times|
  {
    Count(Answers(b, times), j, n) as real + 1.0 <= b.burst + Gain(b.rate, Clock(start, times, n) - Clock(start, times, j))
  }

  lemma FitsIsRoom(b: Bucket, start: real, times: seq<real>, j: nat, n: nat)
    requires j <= n < |times|
    ensures Fits(b, start, times, j, n) <==> Room(Answers(b, times), Gains(b, start, times), b.burst, j, n) >= 1.0
  {
    GainBetween(b.rate, Clock(start, times, j), Clock(start, times, n));
    assert Gains(b, start, times)[n] == Gain(b.rate, Clock(start, times, n));
    assert Gains(b, start, times)[j] == Gain(b.rate, Clock(start, times, j));
  }

  /** Main result.  Request `n` is let through exactly when every window that ends with it would stay
      within burst + rate * length: no window exceeds its bound, and nothing is refused needlessly. */
  lemma AdmittedExactlyWithinEveryWindow(b: Bucket, start: real, times: seq<real>, n: nat)
    requires Full(b, start) && n < |times|
    ensures Admitted(b, times, n) <==> forall j :: 0 <= j <= n ==> Fits(b, start, times, j, n)
  {
    RunFollows(b, start, times);
    var tight := LevelIsTightestRoom(Levels(b, times), Answers(b, times), Gains(b, start, times), b.burst, n);
    LevelMoves(b, start, times, n);
    forall j | 0 <= j <= n
      ensures Fits(b, start, times, j, n) <==> Room(Answers(b, times), Gains(b, start, times), b.burst, j, n) >= 1.0
    {
      FitsIsRoom(b, start, times, j, n);
    }
  }

  lemma {:induction false} ClockGrows(start: real, times: seq<real>, i: nat, n: nat)
    requires i <= n < |times|
    ensures Clock(start, times, i) <= Clock(start, times, n)
    decreases n
  {
    if i < n {
      ClockGrows(start, times, i, n - 1);
    }
  }

  /** Every window of requests obeys the bound. */
  lemma {:induction false} WindowBound(b: Bucket, start: real, times: seq<real>, i: nat, n: nat)
    requires Full(b, start) && b.burst >= 0.0 && i <= n < |times|
    ensures Count(Answers(b, times), i, n + 1) as real
         <= b.burst + Gain(b.rate, Clock(start, times, n) - Clock(start, times, i))
    decreases n
  {
    if Admitted(b, times, n) {
      AdmittedExactlyWithinEveryWindow(b, start, times, n);
      assert Fits(b, start, times, i, n);
    } else if i < n {
      WindowBound(b, start, times, i, n - 1);
      ClockGrows(start, times, n - 1, n);
      GainGrows(b.rate, Clock(start, times, n - 1) - Clock(start, times, i), Clock(start, times, n) - Clock(start, times, i));
    } else {
      ClockGrows(start, times, i, n);
      GainIsMonotone(b.rate, Clock(start, times, n) - Clock(start, times, i));
    }
  }

  // ---------------------------------------------------------------- where runs start

  lemma {:induction false} ParametersStay(b: Bucket, times: seq<real>)
    ensures After(b, times).rate == b.rate && After(b, times).burst == b.burst
    decreases |times|
  {
    if times == [] {
    } else {
      ParametersStay(b, times[..|times| - 1]);
    }
  }

  /** Construction and Reset both give a full bucket, so the characterisation holds from either. */
  lemma BuiltAndResetAreFull(qps: int, now: real, times: seq<real>, later: real)
    requires qps > 0
    ensures Full(New(qps, now), now) && Full(Reset(After(New(qps, now), times), later), later)
  {
    ParametersStay(New(qps, now), times);
  }

  /** A limiter without a positive QPS lets everything through. */
  lemma {:induction false} DisabledAdmitsAll(qps: int, now: real, times: seq<real>, n: nat)
    requires qps <= 0 && n < |times|
    ensures Admitted(New(qps, now), times, n)
  {
    ParametersStay(New(qps, now), times[..n]);
  }

  // ---------------------------------------------------------------- a whole run on the object

  /** Serves requests at the observed times. */
  method ServeAll(limiter: Limiter, times: seq<real>) returns (answers: seq<bool>)
    modifies limiter
    ensures limiter.State() == After(old(limiter.State()), times)
    ensures answers == Answers(old(limiter.State()), times)
  {
    ghost var b := limiter.State();
    answers := [];
    for i := 0 to |times|
      invariant limiter.State() == After(b, times[..i])
      invariant |answers| == i && forall n :: 0 <= n < i ==> answers[n] == Admitted(b, times, n)
    {
      assert times[..i + 1][..i] == times[..i];
      var allowed := limiter.TryAcquire(times[i]);
      answers := answers + [allowed];
    }
    assert times[..|times|] == times;
  }

  /** On a limiter that was just built or reset: exactly those requests pass that fit into every window
      since, and the object ends in the state of the pure run. */
  method Serve(limiter: Limiter, start: real, times: seq<real>) returns (answers: seq<bool>)
    requires Full(limiter.State(), start)
    modifies limiter
    ensures limiter.State() == After(old(limiter.State()), times)
    ensures |answers| == |times|
    ensures forall n :: 0 <= n < |times| ==>
              (answers[n] <==> forall j :: 0 <= j <= n ==> Fits(old(limiter.State()), start, times, j, n))
  {
    ghost var b := limiter.State();
    answers := ServeAll(limiter, times);
    forall n | 0 <= n < |times|
      ensures answers[n] <==> forall j :: 0 <= j <= n ==> Fits(b, start, times, j, n)
    {
      AdmittedExactlyWithinEveryWindow(b, start, times, n);
    }
  }

  // ---------------------------------------------------------------- in terms of the configured QPS

  /** What a limiter configured for `qps` promises about requests at these times since `start`, when it
      was built or reset: request `n` is let through exactly when no window that ends with it would
      hold more than qps requests plus qps for each second of its length. */
  predicate WithinQps(qps: int, start: real, times: seq<real>, answers: seq<bool>) {
    && |answers| == |times|
    && forall n :: 0 <= n < |times| ==> (answers[n] <==> qps <= 0 || FitsQps(qps, start, times, answers, n))
  }

  predicate FitsQps(qps: int, start: real, times: seq<real>, answers: seq<bool>, n: nat)
    requires |answers| == |times| && n < |times|
  {
    forall j :: 0 <= j <= n ==> WindowHasRoom(qps, start, times, answers, j, n)
  }

  predicate WindowHasRoom(qps: int, start: real, times: seq<real>, answers: seq<bool>, j: nat, n: nat)
    requires |answers| == |times| && j <= n < |times|
  {
    Count(answers, j, n) as real + 1.0 <= qps as real + Gain(qps as real, Clock(start, times, n) - Clock(start, times, j))
  }

  /** The bucket of a limiter built for `qps`, at any later time. */
  predicate BuiltFor(b: Bucket, qps: int) {
    if qps <= 0 then b.rate <= 0.0 else b.rate == qps as real && b.burst == qps as real
  }

  lemma {:induction false} DisabledStays(b: Bucket, times: seq<real>)
    requires b.rate <= 0.0
    ensures After(b, times) == b
    decreases |times|
  {
    if times == [] {
    } else {
      DisabledStays(b, times[..|times| - 1]);
    }
  }

  /** A window gains `qps` requests for each second of its length. */
  lemma GainInSeconds(qps: int, seconds: real)
    ensures Gain(qps as real, seconds) == qps as real * seconds
    ensures Gain(qps as real, seconds + 1.0) == Gain(qps as real, seconds) + qps as real
  {
  }

  lemma FitsIsWindow(b: Bucket, qps: int, start: real, times: seq<real>, j: nat, n: nat)
    requires BuiltFor(b, qps) && qps > 0 && j <= n < |times|
    ensures Fits(b, start, times, j, n) <==> WindowHasRoom(qps, start, times, Answers(b, times), j, n)
  {
  }

  lemma AnswersAreWithinQps(b: Bucket, qps: int, start: real, times: seq<real>)
    requires BuiltFor(b, qps) && (qps > 0 ==> Full(b, start))
    ensures WithinQps(qps, start, times, Answers(b, times))
  {
    var answers := Answers(b, times);
    forall n | 0 <= n < |times|
      ensures answers[n] <==> qps <= 0 || FitsQps(qps, start, times, answers, n)
    {
      if qps <= 0 {
        DisabledStays(b, times[..n]);
      } else {
        AdmittedExactlyWithinEveryWindow(b, start, times, n);
        forall j | 0 <= j <= n
          ensures Fits(b, start, times, j, n) <==> WindowHasRoom(qps, start, times, answers, j, n)
        {
          FitsIsWindow(b, qps, start, times, j, n);
        }
      }
    }
  }

  /** A round of requests that begins with the construction or a reset of the limiter. */
  datatype Round = Round(start: real, times: seq<real>)

  function BucketAfter(qps: int, first: Round, rounds: seq<Round>): Bucket
    decreases |rounds|
  {
    if rounds == [] then After(New(qps, first.start), first.times)
    else
      var last := rounds[|rounds| - 1];
      After(Reset(BucketAfter(qps, first, rounds[..|rounds| - 1]), last.start), last.times)
  }

  lemma {:induction false} BucketStaysBuiltFor(qps: int, first: Round, rounds: seq<Round>)
    ensures BuiltFor(BucketAfter(qps, first, rounds), qps)
    decreases |rounds|
  {
    if rounds == [] {
      ParametersStay(New(qps, first.start), first.times);
    } else {
      var last := rounds[|rounds| - 1];
      BucketStaysBuiltFor(qps, first, rounds[..|rounds| - 1]);
      ParametersStay(Reset(BucketAfter(qps, first, rounds[..|rounds| - 1]), last.start), last.times);
    }
  }

  /** Main result in terms of the configuration alone: the whole life of one limiter object, built for
      `qps` and reset any number of times, keeps the promise in every round. */
  method ServeRounds(qps: int, first: Round, later: seq<Round>) returns (opening: seq<bool>, answers: seq<seq<bool>>)
    ensures WithinQps(qps, first.start, first.times, opening)
    ensures |answers| == |later|
    ensures forall i :: 0 <= i < |later| ==> WithinQps(qps, later[i].start, later[i].times, answers[i])
  {
    var limiter := new Limiter(qps, first.start);
    opening := ServeAll(limiter, first.times);
    AnswersAreWithinQps(New(qps, first.start), qps, first.start, first.times);
    answers := [];
    for i := 0 to |later|
      invariant limiter.State() == BucketAfter(qps, first, later[..i])
      invariant |answers| == i
      invariant forall k :: 0 <= k < i ==> WithinQps(qps, later[k].start, later[k].times, answers[k])
    {
      assert later[..i + 1][..i] == later[..i];
      BucketStaysBuiltFor(qps, first, later[..i]);
      limiter.Restart(later[i].start);
      AnswersAreWithinQps(limiter.State(), qps, later[i].start, later[i].times);
      var round := ServeAll(limiter, later[i].times);
      answers := answers + [round];
    }
  }

  lemma {:induction false} CountSplits(answers: seq<bool>, i: nat, j: nat, n: nat)
    requires i <= j <= n <= |answers|
    ensures Count(answers, i, n) == Count(answers, i, j) + Count(answers, j, n)
    ensures Count(answers, j, n) <= n - j
    decreases n
  {
    if j < n {
      CountSplits(answers, i, j, n - 1);
    }
  }

  predicate AtOnce(times: seq<real>) {
    forall i :: 0 <= i < |times| ==> times[i] == times[0]
  }

  lemma {:induction false} OneInstant(start: real, times: seq<real>, n: nat)
    requires n < |times| && AtOnce(times)
    ensures Clock(start, times, n) == Max(start, times[0])
    decreases n
  {
    if n > 0 {
      OneInstant(start, times, n - 1);
    }
  }

  lemma WindowAtOnce(qps: int, start: real, times: seq<real>, answers: seq<bool>, j: nat, n: nat)
    requires |answers| == |times| && j <= n < |times| && AtOnce(times)
    ensures WindowHasRoom(qps, start, times, answers, j, n) <==> Count(answers, j, n) + 1 <= qps
  {
    OneInstant(start, times, n);
    OneInstant(start, times, j);
    NoTime(qps as real);
  }

  lemma NoTime(rate: real)
    ensures Gain(rate, 0.0) == 0.0
  {
  }

  /** The whole run is the tightest window. */
  lemma FitsAtOnce(qps: int, start: real, times: seq<real>, answers: seq<bool>, n: nat)
    requires |answers| == |times| && n < |times| && AtOnce(times)
    ensures FitsQps(qps, start, times, answers, n) <==> Count(answers, 0, n) + 1 <= qps
  {
    forall j | 0 <= j <= n
      ensures WindowHasRoom(qps, start, times, answers, j, n) <==> Count(answers, j, n) + 1 <= qps
      ensures Count(answers, j, n) <= Count(answers, 0, n)
    {
      WindowAtOnce(qps, start, times, answers, j, n);
      CountSplits(answers, 0, j, n);
    }
  }

  lemma AnswerAtOnce(qps: int, start: real, times: seq<real>, answers: seq<bool>, n: nat)
    requires qps > 0 && WithinQps(qps, start, times, answers) && n < |times| && AtOnce(times)
    ensures answers[n] <==> Count(answers, 0, n) + 1 <= qps
  {
    FitsAtOnce(qps, start, times, answers, n);
  }

  lemma {:induction false} CountAtOnce(qps: int, start: real, times: seq<real>, answers: seq<bool>, n: nat)
    requires qps > 0 && WithinQps(qps, start, times, answers) && n <= |times| && AtOnce(times)
    ensures Count(answers, 0, n) == if n < qps then n else qps
    decreases n
  {
    if n > 0 {
      CountAtOnce(qps, start, times, answers, n - 1);
      AnswerAtOnce(qps, start, times, answers, n - 1);
    }
  }

  /** Of requests at one instant exactly the first `qps` pass. */
  lemma BurstIsQps(qps: int, start: real, times: seq<real>, answers: seq<bool>, n: nat)
    requires qps > 0 && WithinQps(qps, start, times, answers) && n < |times| && AtOnce(times)
    ensures answers[n] <==> n < qps
  {
    CountAtOnce(qps, start, times, answers, n);
    AnswerAtOnce(qps, start, times, answers, n);
  }

  lemma {:induction false} SameCount(a: seq<bool>, b: seq<bool>, j: nat, n: nat)
    requires j <= n <= |a| && |a| == |b| && a[..n] == b[..n]
    ensures Count(a, j, n) == Count(b, j, n)
    decreases n
  {
    if j < n {
      assert a[..n][n - 1] == b[..n][n - 1] && a[..n][..n - 1] == a[..n - 1] && b[..n][..n - 1] == b[..n - 1];
      SameCount(a, b, j, n - 1);
    }
  }

  lemma {:induction false} SamePrefix(qps: int, start: real, times: seq<real>, a: seq<bool>, b: seq<bool>, n: nat)
    requires WithinQps(qps, start, times, a) && WithinQps(qps, start, times, b) && n <= |times|
    ensures a[..n] == b[..n]
    decreases n
  {
    if n > 0 {
      SamePrefix(qps, start, times, a, b, n - 1);
      var last := n - 1;
      forall j | 0 <= j <= last
        ensures WindowHasRoom(qps, start, times, a, j, last) <==> WindowHasRoom(qps, start, times, b, j, last)
      {
        SameCount(a, b, j, last);
      }
      assert FitsQps(qps, start, times, a, last) <==> FitsQps(qps, start, times, b, last);
      assert a[..n] == a[..n - 1] + [a[n - 1]] && b[..n] == b[..n - 1] + [b[n - 1]];
    }
  }

  /** The promise leaves no freedom: QPS, start and times decide every answer. */
  lemma QpsDecidesEveryAnswer(qps: int, start: real, times: seq<real>, a: seq<bool>, b: seq<bool>)
    requires WithinQps(qps, start, times, a) && WithinQps(qps, start, times, b)
    ensures a == b
  {
    SamePrefix(qps, start, times, a, b, |times|);
    assert a[..|times|] == a && b[..|times|] == b;
  }
}
