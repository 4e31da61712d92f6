/** The load-test runner: its task board under one mutex, and the goroutine that drives each task
    from reset to a terminal status, interleaved with requests, cancellation, timeouts and panics. */
module TaskRunner {
  import opened Common

  datatype TaskStatus = Starting | Resetting | Running | Collecting | Completed | Failed | Stopped

  /** Why a load test's context ended, if it has. */
  datatype Context = Live | CancelledByUser | TimedOut

  /** `closes` counts how often the Done channel was closed; a second close would panic. */
  datatype Record = Record(status: TaskStatus, context: Context, closes: nat)

  datatype Board = Board(records: map<string, Record>, order: seq<string>, active: string)

  const MAX_TASKS := 24

  predicate Active(s: TaskStatus) {
    s == Starting || s == Resetting || s == Running || s == Collecting
  }

  predicate IsFinal(s: TaskStatus) {
    s == Completed || s == Failed || s == Stopped
  }

  predicate ValidTransition(current: TaskStatus, next: TaskStatus) {
    if next == Failed || next == Stopped then Active(current)
    else match current
      case Starting => next == Resetting
      case Resetting => next == Running
      case Running => next == Collecting
      case Collecting => next == Completed
      case _ => false
  }

  predicate IsActive(b: Board, id: string) {
    id in b.records && Active(b.records[id].status)
  }

  // ---------------------------------------------------------------- operations under the mutex

  /** Drop the oldest tasks beyond the limit, but stop at an active one. */
  function Prune(b: Board): Board
    decreases |b.order|
  {
    if |b.order| <= MAX_TASKS || IsActive(b, b.order[0]) then b
    else Prune(Board(b.records - {b.order[0]}, b.order[1..], b.active))
  }

  function StartTask(b: Board, id: string): (Board, bool) {
    if IsActive(b, b.active) then (b, false)
    else (Prune(Board(b.records[id := Record(Starting, Live, 0)], b.order + [id], id)), true)
  }

  function SetStatus(b: Board, id: string, next: TaskStatus): Board
    requires id in b.records
  {
    b.(records := b.records[id := b.records[id].(status := next)])
  }

  function Transition(b: Board, id: string, next: TaskStatus): (Board, bool) {
    if id !in b.records || !ValidTransition(b.records[id].status, next) then (b, false)
    else (SetStatus(b, id, next), true)
  }

  /** The wrk2 branch writes the running status without asking the state machine. */
  function ForceRunning(b: Board, id: string): Board {
    if id in b.records then SetStatus(b, id, Running) else b
  }

  /** A failed clean-up of the cache scenario turns success into failure. */
  function FinalStatus(wanted: TaskStatus, cleanupFails: bool): TaskStatus {
    if cleanupFails && wanted == Completed then Failed else wanted
  }

  function Finish(b: Board, id: string, status: TaskStatus): Board {
    if id !in b.records || IsFinal(b.records[id].status) || !ValidTransition(b.records[id].status, status) then b
    else
      var r := b.records[id];
      Board(b.records[id := r.(status := status, closes := r.closes + 1)], b.order, if b.active == id then "" else b.active)
  }

  /** A finished task has dropped its cancel function; the first reason to end a context stands. */
  function EndContext(b: Board, id: string, why: Context): Board {
    if IsActive(b, id) && b.records[id].context == Live
    then b.(records := b.records[id := b.records[id].(context := why)])
    else b
  }

  // ---------------------------------------------------------------- the board in place

  class Runner {
    var records: map<string, Record>
    var order: seq<string>
    var activeID: string

    constructor ()
      ensures Snapshot() == Board(map[], [], "")
    {
      records, order, activeID := map[], [], "";
    }

    function Snapshot(): Board
      reads this
    {
      Board(records, order, activeID)
    }

    method PruneLocked()
      modifies this
      ensures Snapshot() == Prune(old(Snapshot()))
    {
      while |order| > MAX_TASKS
        invariant Prune(Snapshot()) == Prune(old(Snapshot()))
        decreases |order|
      {
        var id := order[0];
        if id in records && Active(records[id].status) {
          return;
        }
        records := records - {id};
        order := order[1..];
      }
    }

    method Start(id: string) returns (started: bool)
      modifies this
      ensures (Snapshot(), started) == StartTask(old(Snapshot()), id)
    {
      if activeID in records && Active(records[activeID].status) {
        return false;
      }
      records := records[id := Record(Starting, Live, 0)];
      order := order + [id];
      activeID := id;
      PruneLocked();
      return true;
    }

    method MoveTo(id: string, next: TaskStatus) returns (moved: bool)
      modifies this`records
      ensures (Snapshot(), moved) == Transition(old(Snapshot()), id, next)
    {
      if id !in records || !ValidTransition(records[id].status, next) {
        return false;
      }
      records := records[id := records[id].(status := next)];
      return true;
    }

    method FinishTask(id: string, wanted: TaskStatus, cleanupFails: bool)
      modifies this
      ensures Snapshot() == Finish(old(Snapshot()), id, FinalStatus(wanted, cleanupFails))
    {
      var status := wanted;
      if cleanupFails {
        if status == Completed {
          status := Failed;
        }
      }
      if id !in records || IsFinal(records[id].status) || !ValidTransition(records[id].status, status) {
        return;
      }
      records := records[id := records[id].(status := status, closes := records[id].closes + 1)];
      if activeID == id {
        activeID := "";
      }
    }

    /** The wrk2 branch writes the running status unchecked. */
    method MarkRunning(id: string)
      modifies this`records
      ensures Snapshot() == ForceRunning(old(Snapshot()), id)
    {
      if id in records {
        records := records[id := records[id].(status := Running)];
      }
    }

    /** A stop request or the deadline ends the context of a load test. */
    method End(id: string, why: Context)
      modifies this`records
      ensures Snapshot() == EndContext(old(Snapshot()), id, why)
    {
      if id in records && Active(records[id].status) && records[id].context == Live {
        records := records[id := records[id].(context := why)];
      }
    }

    /** Rebuild the board from disk: unfinished tasks of a previous process have failed. */
    method LoadState(saved: seq<(string, TaskStatus)>)
      requires Snapshot() == Board(map[], [], "")
      modifies this
      ensures Snapshot() == Prune(Loaded(saved))
    {
      for i := 0 to |saved|
        invariant Snapshot() == Loaded(saved[..i])
      {
        var (id, status) := saved[i];
        if Active(status) {
          status := Failed;
        }
        records := records[id := Record(status, Live, 1)];
        order := order + [id];
        assert saved[..i + 1][..i] == saved[..i];
      }
      assert saved[..|saved|] == saved;
      PruneLocked();
    }
  }

  function Loaded(saved: seq<(string, TaskStatus)>): Board {
    if saved == [] then Board(map[], [], "")
    else
      var b, last := Loaded(saved[..|saved| - 1]), saved[|saved| - 1];
      Board(b.records[last.0 := Record(if Active(last.1) then Failed else last.1, Live, 1)], b.order + [last.0], b.active)
  }

  // ---------------------------------------------------------------- the goroutine of one load test

  datatype Pc =
    | ReadTask | EnterReset | AwaitReset | ReadAgain
    | Launch | MarkRunning | AwaitExit
    | ReadBaseline | EnterBurst | AwaitBurst
    | EnterCollect(burst: bool) | Collect(burst: bool)
    | CleanUp(status: TaskStatus) | Settle(status: TaskStatus)
    | Exited

  /** What the outside did: the awaited call succeeded, failed, the context ended, code panicked, or
      only a progress tick went by. */
  datatype Outcome = Succeeds | Fails | ContextEnds | Panics | Ticks

  datatype Choice = Choice(outcome: Outcome, burst: bool, cleanupFails: bool)

  /** finishContextEnd: a deadline is a failure, a cancellation a stop. */
  function EndStatus(b: Board, id: string): TaskStatus {
    if id in b.records && b.records[id].context == TimedOut then Failed else Stopped
  }

  predicate ContextOver(b: Board, id: string) {
    id in b.records && b.records[id].context != Live
  }

  /** A blocking point of runTask: continue, or leave through the finish routine. */
  function Await(b: Board, id: string, at: Pc, ok: Pc, outcome: Outcome): Pc {
    match outcome
    case Succeeds => ok
    case Fails | Panics => CleanUp(Failed)
    case ContextEnds => if ContextOver(b, id) then CleanUp(EndStatus(b, id)) else at
    case Ticks => at
  }

  function Next(b: Board, id: string, at: Pc, c: Choice): (Board, Pc) {
    if c.outcome == Panics && at != Exited && !at.Settle? then (b, CleanUp(Failed))
    else match at
    case ReadTask => (b, if id in b.records then EnterReset else Exited)
    case EnterReset =>
      var (b', moved) := Transition(b, id, Resetting);
      (b', if moved then AwaitReset else Exited)
    case AwaitReset => (b, Await(b, id, at, ReadAgain, c.outcome))
    case ReadAgain => (b, if id !in b.records then Exited else if c.burst then ReadBaseline else Launch)
    case Launch => (b, Await(b, id, at, MarkRunning, c.outcome))
    case MarkRunning => (ForceRunning(b, id), AwaitExit)
    case AwaitExit => (b, Await(b, id, at, EnterCollect(false), c.outcome))
    case ReadBaseline => (b, if c.outcome == Succeeds then EnterBurst else CleanUp(Failed))
    case EnterBurst =>
      var (b', moved) := Transition(b, id, Running);
      (b', if moved then AwaitBurst else Exited)
    case AwaitBurst => (b, Await(b, id, at, EnterCollect(true), c.outcome))
    case EnterCollect(burst) =>
      var (b', moved) := Transition(b, id, Collecting);
      (b', if moved then Collect(burst) else Exited)
    case Collect(_) => (b, if id !in b.records then Exited else Await(b, id, at, CleanUp(Completed), c.outcome))
    case CleanUp(status) => (b, Settle(FinalStatus(status, c.cleanupFails)))
    case Settle(status) => (Finish(b, id, status), Exited)
    case Exited => (b, at)
  }

  // ---------------------------------------------------------------- runs

  /** `tasks` are the goroutines ever started; `issued` every id ever used, here or on disk. */
  datatype World = World(b: Board, tasks: map<string, Pc>, issued: set<string>)

  datatype Action =
    | StartRequest(id: string)
    | StopRequest(id: string)
    | Timeout(id: string)
    | TaskStep(id: string, choice: Choice)

  function Step(w: World, a: Action): World {
    match a
    case StartRequest(id) =>
      if id in w.issued || id == "" then w
      else
        var (b, started) := StartTask(w.b, id);
        if started then World(b, w.tasks[id := ReadTask], w.issued + {id}) else w
    case StopRequest(id) => w.(b := EndContext(w.b, id, CancelledByUser))
    case Timeout(id) => w.(b := EndContext(w.b, id, TimedOut))
    case TaskStep(id, c) =>
      if id !in w.tasks then w
      else
        var (b, pc) := Next(w.b, id, w.tasks[id], c);
        w.(b := b, tasks := w.tasks[id := pc])
  }

  function Run(w: World, acts: seq<Action>): World
    decreases acts
  {
    if acts == [] then w else Run(Step(w, acts[0]), acts[1..])
  }

  // ---------------------------------------------------------------- invariant

  /** Every listed task has its record, once. */
  predicate Listed(b: Board) {
    && (forall i, j :: 0 <= i < j < |b.order| ==> b.order[i] != b.order[j])
    && (forall id :: id in b.order ==> id in b.records)
    && (forall id :: id in b.records ==> id in b.order)
  }

  predicate BoardOk(b: Board) {
    && Listed(b)
    && |b.order| <= MAX_TASKS
    && (b.active != "" ==> IsActive(b, b.active))
    && (forall id :: id in b.records && Active(b.records[id].status) ==> id == b.active && id != "")
    && (forall id :: id in b.records ==> ClosedOnce(b.records[id]))
  }

  /** Done is open while a load test is active and was closed exactly once when it is not. */
  predicate ClosedOnce(r: Record) {
    r.closes == if IsFinal(r.status) then 1 else 0
  }

  /** Which status a goroutine at this point finds. */
  predicate Fits(status: TaskStatus, pc: Pc) {
    match pc
    case ReadTask => status == Starting
    case EnterReset => status == Starting
    case AwaitReset => status == Resetting
    case ReadAgain => status == Resetting
    case Launch => status == Resetting
    case MarkRunning => status == Resetting
    case AwaitExit => status == Running
    case ReadBaseline => status == Resetting
    case EnterBurst => status == Resetting
    case AwaitBurst => status == Running
    case EnterCollect(_) => status == Running
    case Collect(_) => status == Collecting
    case CleanUp(wanted) => Active(status) && IsFinal(wanted) && (wanted == Completed ==> status == Collecting)
    case Settle(wanted) => Active(status) && IsFinal(wanted) && (wanted == Completed ==> status == Collecting)
    case Exited => false
  }

  /** A goroutine that has not exited owns the active task and finds the status it expects. */
  predicate TaskOk(b: Board, id: string, pc: Pc) {
    pc != Exited ==>
      && id in b.records
      && Fits(b.records[id].status, pc)
      && ((pc.CleanUp? || pc.Settle?) && pc.status == Stopped ==> b.records[id].context == CancelledByUser)
  }

  predicate Good(w: World) {
    && BoardOk(w.b)
    && (forall id :: id in w.tasks ==> TaskOk(w.b, id, w.tasks[id]))
    && (forall id :: id in w.b.records && Active(w.b.records[id].status) ==> id in w.tasks && w.tasks[id] != Exited)
    && w.b.records.Keys <= w.issued && w.tasks.Keys <= w.issued && "" !in w.tasks
  }

  // ---------------------------------------------------------------- pruning and loading

  lemma DropOldest(b: Board)
    requires Listed(b) && b.order != []
    ensures Listed(Board(b.records - {b.order[0]}, b.order[1..], b.active))
  {
    var rest := Board(b.records - {b.order[0]}, b.order[1..], b.active);
    forall id | id in rest.records
      ensures id in rest.order
    {
      var i :| 0 <= i < |b.order| && b.order[i] == id;
      assert rest.order[i - 1] == id;
    }
    forall id | id in rest.order
      ensures id in rest.records
    {
      var i :| 0 <= i < |rest.order| && rest.order[i] == id;
      assert b.order[i + 1] == id && b.order[i + 1] != b.order[0];
    }
  }

  /** Pruning keeps the newest tasks, drops no active one, and stops at the limit because only the
      newest task can be active. */
  lemma {:induction false} PruneKeeps(b: Board)
    requires Listed(b) && b.order != []
    requires forall id :: id in b.records && Active(b.records[id].status) ==> id == b.order[|b.order| - 1]
    ensures
      var p := Prune(b);
      && Listed(p) && p.active == b.active
      && |p.order| == (if |b.order| <= MAX_TASKS then |b.order| else MAX_TASKS)
      && p.order == b.order[|b.order| - |p.order|..]
      && (forall id :: id in p.records ==> id in b.records && p.records[id] == b.records[id])
    decreases |b.order|
  {
    if |b.order| > MAX_TASKS {
      var rest := Board(b.records - {b.order[0]}, b.order[1..], b.active);
      assert b.order[0] != b.order[|b.order| - 1];
      DropOldest(b);
      PruneKeeps(rest);
      assert b.order[1..][|rest.order| - MAX_TASKS..] == b.order[|b.order| - MAX_TASKS..];
    }
  }

  lemma {:induction false} LoadedIsListed(saved: seq<(string, TaskStatus)>)
    requires forall i, j :: 0 <= i < j < |saved| ==> saved[i].0 != saved[j].0
    ensures
      var b := Loaded(saved);
      && Listed(b) && b.active == "" && |b.order| == |saved|
      && (forall i :: 0 <= i < |saved| ==> b.order[i] == saved[i].0)
      && (forall id :: id in b.records ==> b.records[id].closes == 1 && IsFinal(b.records[id].status))
    decreases |saved|
  {
    if saved == [] {
    } else {
      var before := saved[..|saved| - 1];
      LoadedIsListed(before);
      assert forall i :: 0 <= i < |before| ==> before[i] == saved[i];
      var b, prior := Loaded(saved), Loaded(before);
      forall id | id in b.order
        ensures id in b.records
      {
        assert id in prior.order || id == saved[|saved| - 1].0;
      }
      forall id | id in b.records
        ensures id in b.order
      {
        assert id == saved[|saved| - 1].0 || id in prior.order;
      }
    }
  }

  function AfterCrash(status: TaskStatus): TaskStatus {
    if Active(status) then Failed else status
  }

  lemma {:induction false} LoadedKeepsVerdicts(saved: seq<(string, TaskStatus)>, i: nat)
    requires forall i, j :: 0 <= i < j < |saved| ==> saved[i].0 != saved[j].0
    requires i < |saved|
    ensures saved[i].0 in Loaded(saved).records && Loaded(saved).records[saved[i].0].status == AfterCrash(saved[i].1)
    decreases |saved|
  {
    var before := saved[..|saved| - 1];
    if i < |before| {
      LoadedKeepsVerdicts(before, i);
      assert before[i] == saved[i];
    }
  }

  /** Of a board whose tasks have all ended, the newest 24 records stay and the others go. */
  lemma PrunedExactly(b: Board, i: nat)
    requires Listed(b) && i < |b.order| && forall id :: id in b.records ==> IsFinal(b.records[id].status)
    ensures
      var p := Prune(b);
      && (b.order[i] in p.records <==> |b.order| <= 24 + i)
      && (b.order[i] in p.records ==> b.order[i] in b.records && p.records[b.order[i]] == b.records[b.order[i]])
  {
    PruneKeeps(b);
    var p := Prune(b);
    var dropped := |b.order| - |p.order|;
    if i >= dropped {
      assert p.order[i - dropped] == b.order[i];
    } else {
      forall k | 0 <= k < |p.order|
        ensures p.order[k] != b.order[i]
      {
        assert p.order[k] == b.order[k + dropped];
      }
    }
  }

  /** A restart remembers the verdicts of the newest 24 saved tasks, and turns what was running into a failure. */
  lemma RestartKeepsVerdicts(saved: seq<(string, TaskStatus)>, i: nat)
    requires forall i, j :: 0 <= i < j < |saved| ==> saved[i].0 != saved[j].0
    requires i < |saved|
    ensures
      var b := Prune(Loaded(saved));
      && (saved[i].0 in b.records <==> |saved| <= 24 + i)
      && (saved[i].0 in b.records ==> b.records[saved[i].0].status == AfterCrash(saved[i].1))
  {
    LoadedIsListed(saved);
    LoadedKeepsVerdicts(saved, i);
    PrunedExactly(Loaded(saved), i);
  }

  /** A restart leaves no active task: every unfinished one has failed, every Done is closed once,
      and the newest 24 remain. */
  lemma RestartIsGood(saved: seq<(string, TaskStatus)>, issued: set<string>)
    requires forall i, j :: 0 <= i < j < |saved| ==> saved[i].0 != saved[j].0
    requires forall i :: 0 <= i < |saved| ==> saved[i].0 in issued
    ensures Good(World(Prune(Loaded(saved)), map[], issued))
    ensures
      var b := Prune(Loaded(saved));
      && (forall id :: !IsActive(b, id))
      && |b.order| == (if |saved| <= 24 then |saved| else 24)
  {
    LoadedIsListed(saved);
    var b := Loaded(saved);
    if saved != [] {
      PruneKeeps(b);
      RestartedIsGood(b, issued);
    }
  }

  lemma RestartedIsGood(b: Board, issued: set<string>)
    requires Listed(b) && b.active == "" && forall id :: id in b.order ==> id in issued
    requires Listed(Prune(b)) && Prune(b).active == "" && |Prune(b).order| <= MAX_TASKS
    requires forall id :: id in b.records ==> b.records[id].closes == 1 && IsFinal(b.records[id].status)
    requires forall id :: id in Prune(b).records ==> id in b.records && Prune(b).records[id] == b.records[id]
    ensures Good(World(Prune(b), map[], issued))
    ensures forall id :: !IsActive(Prune(b), id)
  {
    forall id | id in Prune(b).records
      ensures id in issued && ClosedOnce(Prune(b).records[id]) && !Active(Prune(b).records[id].status)
    {
      assert id in b.order;
    }
  }

  // ---------------------------------------------------------------- one step

  lemma StartIsGood(w: World, id: string)
    requires Good(w)
    ensures Good(Step(w, StartRequest(id)))
  {
    if id !in w.issued && id != "" && !IsActive(w.b, w.b.active) {
      var b := Board(w.b.records[id := Record(Starting, Live, 0)], w.b.order + [id], id);
      assert b.order[|b.order| - 1] == id;
      forall x | x in b.order
        ensures x in b.records
      {
        assert x in w.b.order || x == id;
      }
      forall x | x in b.records
        ensures x in b.order
      {
        assert x == id || x in w.b.order;
      }
      PruneKeeps(b);
      var p := Prune(b);
      assert p.order[|p.order| - 1] == id;
      StartedIsGood(w, id, p);
    }
  }

  lemma StartedIsGood(w: World, id: string, p: Board)
    requires Good(w) && id !in w.issued && id != "" && !IsActive(w.b, w.b.active)
    requires Listed(p) && |p.order| <= MAX_TASKS && p.active == id && id in p.records
    requires forall x :: x in p.records ==> if x == id then p.records[x] == Record(Starting, Live, 0)
                                            else x in w.b.records && p.records[x] == w.b.records[x]
    ensures Good(World(p, w.tasks[id := ReadTask], w.issued + {id}))
  {
    var v := World(p, w.tasks[id := ReadTask], w.issued + {id});
    forall x | x in w.tasks
      ensures w.tasks[x] == Exited
    {
      assert TaskOk(w.b, x, w.tasks[x]);
    }
  }

  /** What one operation on the record of `id` may change. */
  predicate OnlyRecord(b: Board, c: Board, id: string) {
    && c.order == b.order && c.records.Keys == b.records.Keys
    && (forall x :: x in b.records && x != id ==> c.records[x] == b.records[x])
  }

  lemma ContextIsGood(w: World, id: string, why: Context)
    requires Good(w) && why != Live
    ensures Good(w.(b := EndContext(w.b, id, why)))
  {
    var b := EndContext(w.b, id, why);
    if b != w.b {
      assert OnlyRecord(w.b, b, id) && b.records[id].status == w.b.records[id].status;
      forall x | x in w.tasks
        ensures TaskOk(b, x, w.tasks[x])
      {
        assert TaskOk(w.b, x, w.tasks[x]);
      }
    }
  }

  /** One goroutine step: the record and the program counter stay in line, and it exits exactly by
      settling its load test. */
  lemma NextFits(b: Board, id: string, at: Pc, c: Choice)
    requires TaskOk(b, id, at) && at != Exited && ClosedOnce(b.records[id])
    ensures
      var (d, pc) := Next(b, id, at, c);
      Stepped(b, d, id, at, pc)
  {
    if at.Settle? {
      assert Finish(b, id, at.status).records[id].status == at.status;
    } else if c.outcome == Panics {
      assert Next(b, id, at, c) == (b, CleanUp(Failed));
    } else if at.AwaitReset? || at.Launch? || at.AwaitExit? || at.AwaitBurst? || at.Collect? {
      assert Next(b, id, at, c).0 == b;
    }
  }

  predicate Stepped(b: Board, d: Board, id: string, at: Pc, pc: Pc) {
    && id in b.records && id in d.records
    && OnlyRecord(b, d, id) && TaskOk(d, id, pc) && ClosedOnce(d.records[id])
    && d.records[id].context == b.records[id].context
    && (pc == Exited <==> at.Settle?)
    && (at.Settle? ==>
          d.records[id].status == at.status && IsFinal(at.status) && d.active == if b.active == id then "" else b.active)
    && (!at.Settle? ==> d.active == b.active && Active(d.records[id].status))
  }

  lemma TaskStepIsGood(w: World, id: string, c: Choice)
    requires Good(w) && id in w.tasks
    ensures Good(Step(w, TaskStep(id, c)))
  {
    var at := w.tasks[id];
    if at != Exited {
      assert TaskOk(w.b, id, at);
      NextFits(w.b, id, at, c);
      SteppedIsGood(w, id, Next(w.b, id, at, c).0, Next(w.b, id, at, c).1);
    }
  }

  lemma SteppedIsGood(w: World, id: string, d: Board, pc: Pc)
    requires Good(w) && id in w.tasks && w.tasks[id] != Exited
    requires OnlyRecord(w.b, d, id) && id in d.records && TaskOk(d, id, pc) && ClosedOnce(d.records[id])
    requires pc != Exited ==> d.active == w.b.active && Active(d.records[id].status)
    requires pc == Exited ==> IsFinal(d.records[id].status) && d.active == if w.b.active == id then "" else w.b.active
    ensures Good(w.(b := d, tasks := w.tasks[id := pc]))
  {
    assert TaskOk(w.b, id, w.tasks[id]);
    forall x | x in w.tasks && x != id
      ensures TaskOk(d, x, w.tasks[x])
    {
      assert TaskOk(w.b, x, w.tasks[x]);
    }
    assert w.b.active == id;
  }

  lemma StepIsGood(w: World, a: Action)
    requires Good(w)
    ensures Good(Step(w, a))
  {
    match a {
      case StartRequest(id) => StartIsGood(w, id);
      case StopRequest(id) => ContextIsGood(w, id, CancelledByUser);
      case Timeout(id) => ContextIsGood(w, id, TimedOut);
      case TaskStep(id, c) =>
        if id in w.tasks {
          TaskStepIsGood(w, id, c);
        }
    }
  }

  lemma {:induction false} RunIsGood(w: World, acts: seq<Action>)
    requires Good(w)
    ensures Good(Run(w, acts))
    decreases acts
  {
    if acts == [] {
    } else {
      StepIsGood(w, acts[0]);
      RunIsGood(Step(w, acts[0]), acts[1..]);
    }
  }

  // ---------------------------------------------------------------- main results

  /** At any time at most one task is active, it is the one under `active`, and it is listed; a new
      start succeeds exactly when there is none. */
  lemma OneActiveTask(w: World, acts: seq<Action>, id: string, other: string)
    requires Good(w)
    ensures
      var v := Run(w, acts);
      && (IsActive(v.b, id) <==> id == v.b.active && id != "")
      && (IsActive(v.b, id) && IsActive(v.b, other) ==> id == other)
      && (IsActive(v.b, id) ==> id in v.b.order)
      && |v.b.order| <= 24
      && (StartTask(v.b, other).1 <==> v.b.active == "")
  {
    RunIsGood(w, acts);
    var v := Run(w, acts);
    if v.b.active == "" && "" in v.b.records {
      assert !Active(v.b.records[""].status);
    }
  }

  /** Every way out of runTask, by success, error, cancellation, timeout, failed clean-up or panic,
      has left the load test in a terminal status with Done closed exactly once and the lock free. */
  lemma ExitMeansSettled(w: World, acts: seq<Action>, id: string)
    requires Good(w)
    ensures
      var v := Run(w, acts);
      id in v.tasks ==>
        && (v.tasks[id] == Exited <==> !IsActive(v.b, id))
        && (v.tasks[id] == Exited && id in v.b.records ==>
              IsFinal(v.b.records[id].status) && v.b.records[id].closes == 1 && v.b.active != id)
  {
    RunIsGood(w, acts);
    var v := Run(w, acts);
    if id in v.tasks {
      assert TaskOk(v.b, id, v.tasks[id]);
      if id in v.b.records {
        assert ClosedOnce(v.b.records[id]);
      }
      if v.b.active == id && id != "" {
        assert IsActive(v.b, id);
      }
    }
  }

  lemma StepKeepsFinal(w: World, a: Action, id: string)
    requires Good(w) && id in w.issued && (id in w.b.records ==> IsFinal(w.b.records[id].status))
    ensures
      var v := Step(w, a);
      id in v.issued && (id in v.b.records ==> id in w.b.records && v.b.records[id] == w.b.records[id])
  {
    var v := Step(w, a);
    match a {
      case StartRequest(added) =>
        if v != w {
          StartDropsOrKeeps(w.b, added, id);
        }
      case StopRequest(other) =>
      case Timeout(other) =>
      case TaskStep(other, c) =>
        if other in w.tasks && w.tasks[other] != Exited {
          assert TaskOk(w.b, other, w.tasks[other]);
          NextFits(w.b, other, w.tasks[other], c);
        }
    }
  }

  lemma {:induction false} PruneDropsOrKeeps(b: Board, id: string)
    ensures id in Prune(b).records ==> id in b.records && Prune(b).records[id] == b.records[id]
    decreases |b.order|
  {
    if |b.order| <= MAX_TASKS || IsActive(b, b.order[0]) {
    } else {
      PruneDropsOrKeeps(Board(b.records - {b.order[0]}, b.order[1..], b.active), id);
    }
  }

  lemma StartDropsOrKeeps(b: Board, added: string, id: string)
    requires id != added
    ensures id in StartTask(b, added).0.records ==>
      id in b.records && StartTask(b, added).0.records[id] == b.records[id]
  {
    PruneDropsOrKeeps(Board(b.records[added := Record(Starting, Live, 0)], b.order + [added], added), id);
  }

  /** A finished task never changes again; at most it is forgotten. */
  lemma {:induction false} FinalForever(w: World, acts: seq<Action>, id: string)
    requires Good(w) && id in w.issued && (id in w.b.records ==> IsFinal(w.b.records[id].status))
    ensures
      var v := Run(w, acts);
      id in v.b.records ==> id in w.b.records && v.b.records[id] == w.b.records[id]
    decreases acts
  {
    if acts == [] {
    } else {
      StepKeepsFinal(w, acts[0], id);
      StepIsGood(w, acts[0]);
      FinalForever(Step(w, acts[0]), acts[1..], id);
    }
  }

  /** An active task is never dropped by anybody's step. */
  lemma ActiveIsNeverPruned(w: World, a: Action, id: string)
    requires Good(w) && IsActive(w.b, id)
    ensures id in Step(w, a).b.records
    ensures !(a.TaskStep? && a.id == id) ==> Step(w, a).b.records[id].status == w.b.records[id].status
  {
    match a {
      case StartRequest(added) =>
      case StopRequest(other) =>
      case Timeout(other) =>
      case TaskStep(other, c) =>
        if other in w.tasks && w.tasks[other] != Exited {
          assert TaskOk(w.b, other, w.tasks[other]);
          NextFits(w.b, other, w.tasks[other], c);
        }
    }
  }

  /** A task is reported as stopped only if the user cancelled it. */
  lemma StoppedMeansCancelled(w: World, id: string, c: Choice)
    requires Good(w) && id in w.tasks && w.tasks[id] != Exited
    ensures
      var r := Step(w, TaskStep(id, c)).b.records;
      id in r && (r[id].status == Stopped ==> r[id].context == CancelledByUser)
  {
    assert TaskOk(w.b, id, w.tasks[id]);
    NextFits(w.b, id, w.tasks[id], c);
  }

  // ---------------------------------------------------------------- progress

  function Rank(pc: Pc): nat {
    match pc
    case ReadTask => 11
    case EnterReset => 10
    case AwaitReset => 9
    case ReadAgain => 8
    case Launch => 7
    case ReadBaseline => 7
    case MarkRunning => 6
    case EnterBurst => 6
    case AwaitExit => 5
    case AwaitBurst => 5
    case EnterCollect(_) => 4
    case Collect(_) => 3
    case CleanUp(_) => 2
    case Settle(_) => 1
    case Exited => 0
  }

  predicate Waits(b: Board, id: string, at: Pc, c: Choice) {
    && (at.AwaitReset? || at.Launch? || at.AwaitExit? || at.AwaitBurst? || at.Collect?)
    && (c.outcome == Ticks || (c.outcome == ContextEnds && !ContextOver(b, id)))
  }

  lemma NextIsLower(b: Board, id: string, at: Pc, c: Choice)
    requires at != Exited && !Waits(b, id, at, c) && (c.outcome == Panics ==> !at.CleanUp?)
    ensures Rank(Next(b, id, at, c).1) < Rank(at)
  {
    if at.AwaitReset? || at.Launch? || at.AwaitExit? || at.AwaitBurst? || at.Collect? {
      assert forall ok :: Rank(Await(b, id, at, ok, c.outcome)) <= if Rank(ok) > 2 then Rank(ok) else 2;
    }
  }

  /** Every step that is not a mere wait brings a load test closer to its end; only a panic inside the
      finish routine repeats a clean-up. */
  lemma TaskStepsEnd(w: World, id: string, c: Choice)
    requires Good(w) && id in w.tasks && w.tasks[id] != Exited
    requires !Waits(w.b, id, w.tasks[id], c) && (c.outcome == Panics ==> !w.tasks[id].CleanUp?)
    ensures Rank(Step(w, TaskStep(id, c)).tasks[id]) < Rank(w.tasks[id])
  {
    NextIsLower(w.b, id, w.tasks[id], c);
  }

  // ---------------------------------------------------------------- one load test left alone

  /** `n` steps of one goroutine with the same outcome for everything it waits for. */
  function Drive(b: Board, id: string, pc: Pc, c: Choice, n: nat): (Board, Pc)
    decreases n
  {
    if n == 0 then (b, pc)
    else
      var (d, next) := Next(b, id, pc, c);
      Drive(d, id, next, c, n - 1)
  }

  lemma LastStatusStands(b: Board, id: string, s: TaskStatus, t: TaskStatus)
    requires id in b.records
    ensures SetStatus(SetStatus(b, id, s), id, t) == SetStatus(b, id, t)
  {
    assert SetStatus(SetStatus(b, id, s), id, t).records == SetStatus(b, id, t).records;
  }

  /** The status sequence of an undisturbed load test up to its result collection. */
  lemma DriveToCollect(b: Board, id: string, c: Choice)
    requires id in b.records && b.records[id].status == Starting && c.outcome == Succeeds
    ensures
      Drive(b, id, ReadTask, c, 12) == Drive(SetStatus(b, id, Collecting), id, Collect(c.burst), c, 4)
  {
    var resetting, running := SetStatus(b, id, Resetting), SetStatus(b, id, Running);
    LastStatusStands(b, id, Resetting, Running);
    LastStatusStands(b, id, Running, Collecting);
    assert Drive(b, id, ReadTask, c, 12) == Drive(b, id, EnterReset, c, 11);
    assert Next(b, id, EnterReset, c) == (resetting, AwaitReset);
    assert Drive(b, id, EnterReset, c, 11) == Drive(resetting, id, AwaitReset, c, 10);
    assert Drive(resetting, id, AwaitReset, c, 10) == Drive(resetting, id, ReadAgain, c, 9);
    var first, second, third := if c.burst then ReadBaseline else Launch, if c.burst then EnterBurst else MarkRunning,
                                if c.burst then AwaitBurst else AwaitExit;
    assert Drive(resetting, id, ReadAgain, c, 9) == Drive(resetting, id, first, c, 8);
    assert Drive(resetting, id, first, c, 8) == Drive(resetting, id, second, c, 7);
    assert Next(resetting, id, second, c) == (running, third);
    assert Drive(resetting, id, second, c, 7) == Drive(running, id, third, c, 6);
    assert Drive(running, id, third, c, 6) == Drive(running, id, EnterCollect(c.burst), c, 5);
    assert Next(running, id, EnterCollect(c.burst), c) == (SetStatus(b, id, Collecting), Collect(c.burst));
  }

  /** An undisturbed load test completes and frees the lock, unless its clean-up fails. */
  lemma UndisturbedCompletes(b: Board, id: string, c: Choice)
    requires id in b.records && b.records[id].status == Starting && c.outcome == Succeeds
    ensures
      var (d, pc) := Drive(b, id, ReadTask, c, 12);
      && pc == Exited && id in d.records
      && d.records[id] == b.records[id].(status := if c.cleanupFails then Failed else Completed, closes := b.records[id].closes + 1)
      && d.active == if b.active == id then "" else b.active
  {
    DriveToCollect(b, id, c);
    var e := SetStatus(b, id, Collecting);
    var status := FinalStatus(Completed, c.cleanupFails);
    assert Drive(e, id, Collect(c.burst), c, 4) == Drive(e, id, CleanUp(Completed), c, 3);
    assert Drive(e, id, CleanUp(Completed), c, 3) == Drive(e, id, Settle(status), c, 2);
    var d := Finish(e, id, status);
    assert Drive(e, id, Settle(status), c, 2) == Drive(d, id, Exited, c, 1) == Drive(d, id, Exited, c, 0);
  }

  // ---------------------------------------------------------------- how a load test ends

  /** The points at which a load test waits for an awaited call or for the end of its context. */
  predicate IsWaiting(at: Pc) {
    at.AwaitReset? || at.Launch? || at.AwaitExit? || at.AwaitBurst? || at.Collect?
  }

  /** The verdict a goroutine takes into its finish routine, by the reason for leaving: results
      collected; its context ended by the user; anything else, a deadline, an error or a panic. */
  lemma VerdictHasItsReason(w: World, id: string, c: Choice, verdict: TaskStatus)
    requires Good(w) && id in w.tasks && w.tasks[id] != Exited && !w.tasks[id].CleanUp? && !w.tasks[id].Settle?
    ensures
      var at, why := w.tasks[id], w.b.records[id].context;
      Step(w, TaskStep(id, c)).tasks[id] == CleanUp(verdict) <==>
        match verdict {
          case Completed => at.Collect? && c.outcome == Succeeds
          case Stopped => IsWaiting(at) && c.outcome == ContextEnds && why == CancelledByUser
          case Failed =>
            || c.outcome == Panics
            || (IsWaiting(at) && (c.outcome == Fails || (c.outcome == ContextEnds && why == TimedOut)))
            || (at.ReadBaseline? && c.outcome != Succeeds)
          case _ => false
        }
  {
    assert TaskOk(w.b, id, w.tasks[id]);
    if c.outcome != Panics {
      NextVerdict(w.b, id, w.tasks[id], c);
    }
  }

  lemma NextVerdict(b: Board, id: string, at: Pc, c: Choice)
    requires TaskOk(b, id, at) && at != Exited && !at.CleanUp? && !at.Settle? && c.outcome != Panics
    ensures
      var next := Next(b, id, at, c).1;
      next.CleanUp? ==>
        next.status == if at.ReadBaseline? || c.outcome == Fails then Failed
                       else if c.outcome == Succeeds then Completed else EndStatus(b, id)
    ensures
      Next(b, id, at, c).1.CleanUp? <==>
        || (IsWaiting(at) && (c.outcome == Fails || (c.outcome == ContextEnds && b.records[id].context != Live)))
        || (at.ReadBaseline? && c.outcome != Succeeds)
        || (at.Collect? && c.outcome == Succeeds)
  {
  }

  /** And that verdict is what the record ends with, whatever the clean-up does, except that a failed
      clean-up turns success into failure; Done is closed once more and the lock is free. */
  lemma VerdictIsKept(w: World, id: string, clean: Choice, settle: Choice)
    requires Good(w) && id in w.tasks && w.tasks[id].CleanUp? && clean.outcome != Panics
    ensures
      var v := Step(Step(w, TaskStep(id, clean)), TaskStep(id, settle));
      var verdict := w.tasks[id].status;
      && v.tasks[id] == Exited && id in v.b.records && v.b.active == ""
      && v.b.records[id].status == (if verdict == Completed && clean.cleanupFails then Failed else verdict)
      && v.b.records[id].closes == 1 && v.b.records[id].context == w.b.records[id].context
  {
    assert TaskOk(w.b, id, w.tasks[id]) && ClosedOnce(w.b.records[id]);
    var v := Step(w, TaskStep(id, clean));
    assert v.b == w.b && v.tasks[id] == Settle(FinalStatus(w.tasks[id].status, clean.cleanupFails));
  }

  /** A load test that the user stops while it waits ends as stopped; one that runs into its deadline
      ends as failed. */
  lemma EndedContextDecides(w: World, id: string, ends: Choice, clean: Choice, settle: Choice)
    requires Good(w) && id in w.tasks && IsWaiting(w.tasks[id])
    requires w.b.records[id].context != Live && ends.outcome == ContextEnds && clean.outcome != Panics
    ensures
      var v := Step(Step(Step(w, TaskStep(id, ends)), TaskStep(id, clean)), TaskStep(id, settle));
      && id in v.b.records && v.tasks[id] == Exited
      && v.b.records[id].status == if w.b.records[id].context == CancelledByUser then Stopped else Failed
  {
    assert TaskOk(w.b, id, w.tasks[id]);
    var verdict := if w.b.records[id].context == CancelledByUser then Stopped else Failed;
    VerdictHasItsReason(w, id, ends, verdict);
    TaskStepIsGood(w, id, ends);
    VerdictIsKept(Step(w, TaskStep(id, ends)), id, clean, settle);
  }

  /** Only an active load test can be stopped or time out, and the first reason to end it stands. */
  lemma FirstReasonStands(w: World, a: Action, id: string)
    requires Good(w) && id in w.b.records && id in Step(w, a).b.records
    ensures
      Step(w, a).b.records[id].context ==
        if w.b.records[id].context != Live || !Active(w.b.records[id].status) then w.b.records[id].context
        else if a == StopRequest(id) then CancelledByUser
        else if a == Timeout(id) then TimedOut
        else Live
  {
    match a {
      case StartRequest(added) =>
        if Step(w, a) != w {
          StartDropsOrKeeps(w.b, added, id);
        }
      case StopRequest(_) =>
      case Timeout(_) =>
      case TaskStep(other, c) =>
        if other in w.tasks && w.tasks[other] != Exited {
          assert TaskOk(w.b, other, w.tasks[other]);
          NextFits(w.b, other, w.tasks[other], c);
        }
    }
  }

  // ---------------------------------------------------------------- whole runs on the object

  /** One step of the goroutine of a load test, on the shared runner. */
  method Turn(runner: Runner, id: string, at: Pc, c: Choice) returns (pc: Pc)
    modifies runner
    ensures (runner.Snapshot(), pc) == Next(old(runner.Snapshot()), id, at, c)
  {
    if c.outcome == Panics && at != Exited && !at.Settle? {
      return CleanUp(Failed);
    }
    match at {
      case EnterReset =>
        var moved := runner.MoveTo(id, Resetting);
        pc := if moved then AwaitReset else Exited;
      case EnterBurst =>
        var moved := runner.MoveTo(id, Running);
        pc := if moved then AwaitBurst else Exited;
      case EnterCollect(burst) =>
        var moved := runner.MoveTo(id, Collecting);
        pc := if moved then Collect(burst) else Exited;
      case MarkRunning =>
        runner.MarkRunning(id);
        pc := AwaitExit;
      case Settle(status) =>
        runner.FinishTask(id, status, false);
        pc := Exited;
      case _ =>
        pc := Next(runner.Snapshot(), id, at, c).1;
    }
  }

  /** Requests, stops, timeouts and goroutine steps in any order, on a new runner: it ends in the state
      of the pure run, so its board is in order and at most one load test is active. */
  method Serve(runner: Runner, acts: seq<Action>) returns (tasks: map<string, Pc>, issued: set<string>)
    requires runner.Snapshot() == Board(map[], [], "")
    modifies runner
    ensures World(runner.Snapshot(), tasks, issued) == Run(World(Board(map[], [], ""), map[], {}), acts)
    ensures BoardOk(runner.Snapshot())
  {
    tasks, issued := map[], {};
    ghost var w := World(Board(map[], [], ""), map[], {});
    for i := 0 to |acts|
      invariant Run(World(runner.Snapshot(), tasks, issued), acts[i..]) == Run(w, acts)
    {
      assert acts[i..][0] == acts[i] && acts[i..][1..] == acts[i + 1..];
      match acts[i] {
        case StartRequest(id) =>
          if id !in issued && id != "" {
            var started := runner.Start(id);
            if started {
              tasks, issued := tasks[id := ReadTask], issued + {id};
            }
          }
        case StopRequest(id) => runner.End(id, CancelledByUser);
        case Timeout(id) => runner.End(id, TimedOut);
        case TaskStep(id, c) =>
          if id in tasks {
            var pc := Turn(runner, id, tasks[id], c);
            tasks := tasks[id := pc];
          }
      }
    }
    assert acts[|acts|..] == [];
    RunIsGood(w, acts);
  }
}
