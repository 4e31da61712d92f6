/** The bounded event log of one load-test task with its live subscribers: what is retained, what a
    subscriber replays, and what its 32-slot channel then delivers. */
module EventLog {
  import opened Common

  datatype Event = Event(id: nat, message: string)

  /** `queue` is the channel buffer and `received` what has been taken from it.  History: `start` is
      the first id this subscriber can hope for, `missed` the first event that met a full channel. */
  datatype Subscription = Subscription(
    replay: seq<Event>, queue: seq<Event>, received: seq<Event>, start: int, missed: Option<nat>)

  datatype Log = Log(events: seq<Event>, next: nat, subscribers: map<nat, Subscription>)

  const RETAINED := 180
  const CAPACITY := 32

  function Trim(events: seq<Event>): seq<Event> {
    if |events| > RETAINED then events[|events| - RETAINED..] else events
  }

  /** A send that never blocks. */
  function Offer(s: Subscription, e: Event): Subscription {
    if |s.queue| < CAPACITY then s.(queue := s.queue + [e])
    else if s.missed.None? then s.(missed := Some(e.id))
    else s
  }

  function OfferAll(subscribers: map<nat, Subscription>, e: Event): map<nat, Subscription> {
    map k | k in subscribers :: Offer(subscribers[k], e)
  }

  function Publish(log: Log, message: string): Log {
    var e := Event(log.next + 1, message);
    Log(Trim(log.events + [e]), log.next + 1, OfferAll(log.subscribers, e))
  }

  function After(events: seq<Event>, last: int): seq<Event> {
    if events == [] then []
    else (if events[0].id > last then [events[0]] else []) + After(events[1..], last)
  }

  lemma AfterFirst(events: seq<Event>, i: nat, last: int, replay: seq<Event>)
    requires i < |events|
    ensures replay + After(events[i..], last)
         == (if events[i].id > last then replay + [events[i]] else replay) + After(events[i + 1..], last)
  {
    assert events[i..][0] == events[i] && events[i..][1..] == events[i + 1..];
  }

  /** The first id after `last` that is still retained, or the next one to come. */
  function FirstWanted(log: Log, last: int): int {
    var oldest := log.next + 1 - |log.events|;
    if last >= log.next then log.next + 1
    else if last + 1 > oldest then last + 1
    else oldest
  }

  function NewSubscription(log: Log, last: int): Subscription {
    Subscription(After(log.events, last), [], [], FirstWanted(log, last), None)
  }

  function Subscribe(log: Log, key: nat, last: int): Log {
    if key in log.subscribers then log
    else log.(subscribers := log.subscribers[key := NewSubscription(log, last)])
  }

  function Receive(log: Log, key: nat): Log {
    if key !in log.subscribers || log.subscribers[key].queue == [] then log
    else
      var s := log.subscribers[key];
      log.(subscribers := log.subscribers[key := s.(queue := s.queue[1..], received := s.received + [s.queue[0]])])
  }

  function Unsubscribe(log: Log, key: nat): Log {
    log.(subscribers := log.subscribers - {key})
  }

  // ---------------------------------------------------------------- the log in place

  class TaskLog {
    var events: seq<Event>
    var next: nat
    var subscribers: map<nat, Subscription>

    constructor ()
      ensures Snapshot() == Log([], 0, map[])
    {
      events, next, subscribers := [], 0, map[];
    }

    function Snapshot(): Log
      reads this
    {
      Log(events, next, subscribers)
    }

    /** Append, keep the newest events, then offer the event to every channel in turn. */
    method PublishEvent(message: string)
      modifies this
      ensures Snapshot() == Publish(old(Snapshot()), message)
    {
      next := next + 1;
      var e := Event(next, message);
      events := events + [e];
      if |events| > RETAINED {
        events := events[|events| - RETAINED..];
      }
      OfferEverywhere(e);
    }

    method OfferEverywhere(e: Event)
      modifies this`subscribers
      ensures subscribers == OfferAll(old(subscribers), e)
    {
      ghost var before := subscribers;
      var pending := subscribers.Keys;
      while pending != {}
        invariant pending <= before.Keys == subscribers.Keys
        invariant forall k :: k in before ==> subscribers[k] == if k in pending then before[k] else Offer(before[k], e)
        decreases |pending|
      {
        var key :| key in pending;
        pending := pending - {key};
        var s := subscribers[key];
        if |s.queue| < CAPACITY {
          subscribers := subscribers[key := s.(queue := s.queue + [e])];
        } else if s.missed.None? {
          subscribers := subscribers[key := s.(missed := Some(e.id))];
        }
      }
    }

    /** Collect the retained events after `last` and open a channel. */
    method SubscribeFrom(key: nat, last: int) returns (replay: seq<Event>)
      requires key !in subscribers
      modifies this`subscribers
      ensures Snapshot() == Subscribe(old(Snapshot()), key, last)
      ensures replay == After(events, last)
    {
      replay := Collect(last);
      subscribers := subscribers[key := Subscription(replay, [], [], FirstWanted(Snapshot(), last), None)];
    }

    /** Take the next event from a channel. */
    method Take(key: nat)
      modifies this`subscribers
      ensures Snapshot() == Receive(old(Snapshot()), key)
    {
      if key in subscribers && subscribers[key].queue != [] {
        var s := subscribers[key];
        subscribers := subscribers[key := s.(queue := s.queue[1..], received := s.received + [s.queue[0]])];
      }
    }

    method Leave(key: nat)
      modifies this`subscribers
      ensures Snapshot() == Unsubscribe(old(Snapshot()), key)
      ensures key !in subscribers
    {
      subscribers := subscribers - {key};
    }

    method Collect(last: int) returns (replay: seq<Event>)
      ensures replay == After(events, last)
    {
      replay := [];
      for i := 0 to |events|
        invariant replay + After(events[i..], last) == After(events, last)
      {
        AfterFirst(events, i, last, replay);
        if events[i].id > last {
          replay := replay + [events[i]];
        }
      }
      assert events[|events|..] == [] && replay + [] == replay;
    }
  }

  // ---------------------------------------------------------------- runs

  datatype Command = DoPublish(message: string) | DoSubscribe(key: nat, last: int) | DoReceive(key: nat) | DoUnsubscribe(key: nat)

  function Apply(log: Log, c: Command): Log {
    match c
    case DoPublish(message) => Publish(log, message)
    case DoSubscribe(key, last) => Subscribe(log, key, last)
    case DoReceive(key) => Receive(log, key)
    case DoUnsubscribe(key) => Unsubscribe(log, key)
  }

  function ApplyAll(log: Log, cs: seq<Command>): Log
    decreases cs
  {
    if cs == [] then log else ApplyAll(Apply(log, cs[0]), cs[1..])
  }

  // ---------------------------------------------------------------- what is retained

  predicate Consecutive(s: seq<Event>, start: int) {
    forall i :: 0 <= i < |s| ==> s[i].id == start + i
  }

  predicate Increasing(s: seq<Event>) {
    forall i, j :: 0 <= i < j < |s| ==> s[i].id < s[j].id
  }

  /** The retained events are the last min(n, 180) of the ids 1, ..., n. */
  predicate Retained(log: Log) {
    && |log.events| == (if log.next < RETAINED then log.next else RETAINED)
    && Consecutive(log.events, log.next + 1 - |log.events|)
  }

  function Seen(s: Subscription): seq<Event> {
    s.replay + s.received + s.queue
  }

  /** Before its first miss a subscriber has every id from its start to the newest, once and in
      order; after it, what it has is still in order without repeats, and complete up to the miss. */
  predicate Faithful(log: Log, s: Subscription) {
    && Increasing(Seen(s))
    && (forall i :: 0 <= i < |Seen(s)| ==> Seen(s)[i].id <= log.next)
    && s.start <= log.next + 1
    && (s.missed.None? ==> Consecutive(Seen(s), s.start) && s.start + |Seen(s)| == log.next + 1)
    && (s.missed.Some? ==>
          && s.start <= s.missed.value <= log.next
          && s.missed.value - s.start <= |Seen(s)|
          && Consecutive(Seen(s)[..s.missed.value - s.start], s.start))
  }

  predicate Good(log: Log) {
    Retained(log) && forall k :: k in log.subscribers ==> Faithful(log, log.subscribers[k])
  }

  lemma {:induction false} AfterIsSuffix(events: seq<Event>, start: int, last: int)
    requires Consecutive(events, start)
    ensures
      var skip := if last < start then 0 else if last - start + 1 > |events| then |events| else last - start + 1;
      After(events, last) == events[skip..]
  {
    if events == [] {
    } else {
      assert Consecutive(events[1..], start + 1);
      AfterIsSuffix(events[1..], start + 1, last);
    }
  }

  lemma OfferIsFaithful(log: Log, next: Log, s: Subscription, e: Event)
    requires Faithful(log, s) && e.id == log.next + 1 == next.next
    ensures Faithful(next, Offer(s, e))
  {
    var t := Offer(s, e);
    if |s.queue| < CAPACITY {
      assert Seen(t) == Seen(s) + [e];
      if s.missed.Some? {
        assert Seen(t)[..s.missed.value - s.start] == Seen(s)[..s.missed.value - s.start];
      }
    } else {
      assert Seen(t) == Seen(s);
      if s.missed.None? {
        assert Seen(s)[..e.id - s.start] == Seen(s);
      }
    }
  }

  lemma PublishIsGood(log: Log, message: string)
    requires Good(log)
    ensures Good(Publish(log, message))
  {
    var v := Publish(log, message);
    forall k | k in v.subscribers
      ensures Faithful(v, v.subscribers[k])
    {
      OfferIsFaithful(log, v, log.subscribers[k], Event(log.next + 1, message));
    }
  }

  lemma NewSubscriptionIsFaithful(log: Log, last: int)
    requires Retained(log)
    ensures Faithful(log, NewSubscription(log, last))
  {
    AfterIsSuffix(log.events, log.next + 1 - |log.events|, last);
    assert Seen(NewSubscription(log, last)) == After(log.events, last);
  }

  lemma SubscribeIsGood(log: Log, key: nat, last: int)
    requires Good(log)
    ensures Good(Subscribe(log, key, last))
  {
    NewSubscriptionIsFaithful(log, last);
    var v := Subscribe(log, key, last);
    forall k | k in v.subscribers
      ensures Faithful(v, v.subscribers[k])
    {
      if k in log.subscribers {
        assert Faithful(log, log.subscribers[k]);
      }
    }
  }

  lemma ReceiveIsGood(log: Log, key: nat)
    requires Good(log)
    ensures Good(Receive(log, key))
  {
    var v := Receive(log, key);
    if v != log {
      assert Seen(v.subscribers[key]) == Seen(log.subscribers[key]);
    }
  }

  lemma {:induction false} RunIsGood(log: Log, cs: seq<Command>)
    requires Good(log)
    ensures Good(ApplyAll(log, cs))
    decreases cs
  {
    if cs == [] {
    } else {
      match cs[0] {
        case DoPublish(message) => PublishIsGood(log, message);
        case DoSubscribe(key, last) => SubscribeIsGood(log, key, last);
        case DoReceive(key) => ReceiveIsGood(log, key);
        case DoUnsubscribe(_) =>
      }
      RunIsGood(Apply(log, cs[0]), cs[1..]);
    }
  }

  // ---------------------------------------------------------------- main results

  function Empty(): Log {
    Log([], 0, map[])
  }

  /** Over any run, the log holds the last min(n, 180) consecutive ids. */
  lemma LastEventsAreRetained(cs: seq<Command>)
    ensures
      var log := ApplyAll(Empty(), cs);
      && |log.events| == (if log.next < 180 then log.next else 180)
      && Consecutive(log.events, log.next + 1 - |log.events|)
  {
    RunIsGood(Empty(), cs);
  }

  /** Replay followed by the channel is gap-free and duplicate-free until the first miss. */
  lemma SubscribersSeeEverything(cs: seq<Command>, key: nat)
    requires key in ApplyAll(Empty(), cs).subscribers
    ensures
      var log := ApplyAll(Empty(), cs);
      var s := log.subscribers[key];
      && Increasing(Seen(s))
      && (s.missed.None? ==> Consecutive(Seen(s), s.start) && s.start + |Seen(s)| == log.next + 1)
      && (s.missed.Some? ==>
            0 <= s.missed.value - s.start <= |Seen(s)| && Consecutive(Seen(s)[..s.missed.value - s.start], s.start))
  {
    RunIsGood(Empty(), cs);
  }

  /** A subscriber misses an event only when it has 32 unread ones, and then the event is lost to it. */
  lemma OnlyFullChannelsMiss(log: Log, message: string, key: nat)
    requires key in log.subscribers
    ensures
      var s, t := log.subscribers[key], Publish(log, message).subscribers[key];
      if |s.queue| < 32 then t == s.(queue := s.queue + [Event(log.next + 1, message)])
      else t == s.(missed := if s.missed.None? then Some(log.next + 1) else s.missed)
  {
  }

  /** Who has left is served nothing more until it comes back. */
  lemma {:induction false} GoneUntilBack(log: Log, key: nat, cs: seq<Command>)
    requires key !in log.subscribers && forall last :: DoSubscribe(key, last) !in cs
    ensures key !in ApplyAll(log, cs).subscribers
    decreases cs
  {
    if cs == [] {
    } else {
      assert cs[0] in cs;
      GoneUntilBack(Apply(log, cs[0]), key, cs[1..]);
    }
  }

  ghost predicate SameButFor(log: Log, other: Log, key: nat) {
    && log.events == other.events && log.next == other.next
    && forall k :: k != key ==>
         && (k in log.subscribers <==> k in other.subscribers)
         && (k in log.subscribers ==> log.subscribers[k] == other.subscribers[k])
  }

  predicate About(c: Command, key: nat) {
    !c.DoPublish? && c.key == key
  }

  /** What happens to the others is the same without it, however slow it reads, whether it has left or
      has never come. */
  lemma {:induction false} SubscribersDoNotInterfere(log: Log, other: Log, key: nat, cs: seq<Command>)
    requires SameButFor(log, other, key)
    ensures SameButFor(ApplyAll(log, cs), ApplyAll(other, Rest(cs, key)), key)
    decreases cs
  {
    if cs == [] {
    } else if About(cs[0], key) {
      SubscribersDoNotInterfere(Apply(log, cs[0]), other, key, cs[1..]);
    } else {
      SubscribersDoNotInterfere(Apply(log, cs[0]), Apply(other, cs[0]), key, cs[1..]);
      assert ([cs[0]] + Rest(cs[1..], key))[1..] == Rest(cs[1..], key);
    }
  }

  /** The commands that are not about this subscriber. */
  function Rest(cs: seq<Command>, key: nat): seq<Command>
    decreases cs
  {
    if cs == [] then []
    else if About(cs[0], key) then Rest(cs[1..], key)
    else [cs[0]] + Rest(cs[1..], key)
  }

  /** The messages published so far; event `id` is the id-th of them. */
  function Messages(cs: seq<Command>): seq<string>
    decreases |cs|
  {
    if cs == [] then []
    else
      var last := cs[|cs| - 1];
      Messages(cs[..|cs| - 1]) + if last.DoPublish? then [last.message] else []
  }

  /** Every event carries the message that was published under its id. */
  predicate Genuine(events: seq<Event>, messages: seq<string>) {
    forall i :: 0 <= i < |events| ==>
      1 <= events[i].id <= |messages| && events[i].message == messages[events[i].id - 1]
  }

  predicate AllGenuine(log: Log, messages: seq<string>) {
    && log.next == |messages| && Genuine(log.events, messages)
    && forall k :: k in log.subscribers ==> Genuine(Seen(log.subscribers[k]), messages)
  }

  lemma {:induction false} AfterIsGenuine(events: seq<Event>, last: int, messages: seq<string>)
    requires Genuine(events, messages)
    ensures Genuine(After(events, last), messages)
  {
    if events == [] {
    } else {
      AfterIsGenuine(events[1..], last, messages);
    }
  }

  lemma PublishIsGenuine(log: Log, message: string, messages: seq<string>)
    requires AllGenuine(log, messages)
    ensures AllGenuine(Publish(log, message), messages + [message])
  {
    var v, e := Publish(log, message), Event(log.next + 1, message);
    assert Genuine(log.events + [e], messages + [message]);
    forall k | k in v.subscribers
      ensures Genuine(Seen(v.subscribers[k]), messages + [message])
    {
      var s := log.subscribers[k];
      assert Seen(Offer(s, e)) == if |s.queue| < CAPACITY then Seen(s) + [e] else Seen(s);
    }
  }

  lemma StepIsGenuine(log: Log, c: Command, messages: seq<string>)
    requires AllGenuine(log, messages)
    ensures AllGenuine(Apply(log, c), messages + if c.DoPublish? then [c.message] else [])
  {
    assert messages + [] == messages;
    match c {
      case DoPublish(message) => PublishIsGenuine(log, message, messages);
      case DoSubscribe(key, last) =>
        AfterIsGenuine(log.events, last, messages);
        assert Seen(NewSubscription(log, last)) == After(log.events, last);
      case DoReceive(key) =>
        if Receive(log, key) != log {
          assert Seen(Receive(log, key).subscribers[key]) == Seen(log.subscribers[key]);
        }
      case DoUnsubscribe(_) =>
    }
  }

  lemma {:induction false} ApplyAppend(log: Log, cs: seq<Command>, c: Command)
    ensures ApplyAll(log, cs + [c]) == Apply(ApplyAll(log, cs), c)
    decreases cs
  {
    if cs == [] {
      assert cs + [c] == [c] && ApplyAll(Apply(log, c), []) == Apply(log, c);
    } else {
      assert (cs + [c])[1..] == cs[1..] + [c];
      ApplyAppend(Apply(log, cs[0]), cs[1..], c);
    }
  }

  /** Over any run, what the log retains and what any subscriber was given are the published messages
      under their ids: with the results above, the newest min(n, 180) of them, and for a subscriber
      all from its start up to its first miss. */
  lemma {:induction false} EventsCarryTheirMessages(cs: seq<Command>)
    ensures AllGenuine(ApplyAll(Empty(), cs), Messages(cs))
    decreases |cs|
  {
    if cs == [] {
    } else {
      var rest, c := cs[..|cs| - 1], cs[|cs| - 1];
      EventsCarryTheirMessages(rest);
      assert cs == rest + [c];
      ApplyAppend(Empty(), rest, c);
      StepIsGenuine(ApplyAll(Empty(), rest), c, Messages(rest));
    }
  }

  /** A subscriber starts at max(last + 1, oldest retained) exactly when `last` has been published
      already; a client that names a later id is served from the next event on. */
  lemma StartIsAsAskedUnlessAhead(log: Log, key: nat, last: int)
    requires Retained(log) && key !in log.subscribers
    ensures
      var oldest := log.next + 1 - |log.events|;
      var start := Subscribe(log, key, last).subscribers[key].start;
      && (start == (if last + 1 > oldest then last + 1 else oldest) <==> last <= log.next)
      && (last > log.next ==> start == log.next + 1)
  {
  }

  /** A whole run on a new log object: it ends in the state of the pure run, so it retains the newest
      events, and every subscriber has everything up to its first miss. */
  method Serve(log: TaskLog, cs: seq<Command>)
    requires log.Snapshot() == Empty()
    modifies log
    ensures log.Snapshot() == ApplyAll(Empty(), cs)
    ensures Retained(log.Snapshot()) && AllGenuine(log.Snapshot(), Messages(cs))
    ensures forall k :: k in log.subscribers ==> Faithful(log.Snapshot(), log.subscribers[k])
  {
    for i := 0 to |cs|
      invariant ApplyAll(log.Snapshot(), cs[i..]) == ApplyAll(Empty(), cs)
    {
      assert cs[i..][0] == cs[i] && cs[i..][1..] == cs[i + 1..];
      match cs[i] {
        case DoPublish(message) => log.PublishEvent(message);
        case DoSubscribe(key, last) =>
          if key !in log.subscribers {
            var _ := log.SubscribeFrom(key, last);
          }
        case DoReceive(key) => log.Take(key);
        case DoUnsubscribe(key) => log.Leave(key);
      }
    }
    assert cs[|cs|..] == [];
    RunIsGood(Empty(), cs);
    EventsCarryTheirMessages(cs);
  }
}
