/** `ThreadPool` on top of the blocking queue: worker loops, `AddTask` from any thread (a running task
    included), and `Start`/`Stop`, as interleaved steps. A task is named by its place in the order in
    which `Pop` handed tasks out. */
module ThreadPools {
  import opened BlockingQueues
  import opened Options

  type Task = nat

  datatype Worker =
    | AtTest                 // at `while (running_)`
    | Calling                // about to enter Pop
    | Waiting                // inside Pop's Wait
    | Working(k: nat)        // running the k-th task handed out
    | Exited

  datatype Stage = Idle | Starting | Serving | Clearing | Joining

  datatype Pool = Pool(
    q: Monitor<Task>,
    running: bool,
    workers: map<Thread, Worker>,
    stage: Stage,
    finished: seq<nat>)      // history: the tasks whose call has returned, in that order

  datatype PoolAction =
    | Begin                  // `Start` raises the flag
    | Spawn(w: Thread)       // `Start` creates one more thread, which runs
    | Started                // `Start` returns
    | Test(w: Thread)
    | Take(w: Thread, released: set<Thread>)
    | TakeAgain(w: Thread, released: set<Thread>)
    | Finish(w: Thread)
    | Add(t: Thread, x: Task, released: set<Thread>)
    | AddAgain(t: Thread, released: set<Thread>)
    | Spurious(t: Thread)
    | ClearRunning           // `Stop` clears the flag
    | WakeWorkers            // `Stop` puts the queue into its wake-up mode
    | Joined                 // `Stop` has joined every worker and restores the queue

  /** The step each action makes on the queue, if any. */
  function QueueAction(p: Pool, a: PoolAction): Option<Action<Task>> {
    match a
    case Take(w, released) => Some(PopEnter(w, released))
    case TakeAgain(w, released) => Some(PopResume(w, released))
    case Add(t, x, released) => Some(PushEnter(t, x, released))
    case AddAgain(t, released) => Some(PushResume(t, released))
    case Spurious(t) => Some(if t in p.q.popParked then SpuriousPop(t) else SpuriousPush(t))
    case WakeWorkers => Some(WakeUp)
    case Joined => Some(Restore)
    case _ => None
  }

  predicate Is(p: Pool, w: Thread, state: Worker) {
    w in p.workers && p.workers[w] == state
  }

  predicate CanStep(p: Pool, a: PoolAction) {
    && (match QueueAction(p, a) case Some(qa) => BlockingQueues.Enabled(p.q, qa) case None => true)
    && match a
       case Begin => p.stage.Idle?
       case Spawn(w) => p.stage.Starting? && w !in p.workers && !p.q.Waiting(w)
       case Started => p.stage.Starting?
       case Test(w) => Is(p, w, AtTest)
       case Take(w, _) => Is(p, w, Calling)
       case TakeAgain(w, _) => Is(p, w, Waiting)
       case Finish(w) => w in p.workers && p.workers[w].Working? && !p.q.Waiting(w)
       case Add(t, _, _) => t !in p.workers || p.workers[t].Working?
       case ClearRunning => p.stage.Serving?
       case WakeWorkers => p.stage.Clearing?
       case Joined => p.stage.Joining? && forall w :: w in p.workers ==> p.workers[w].Exited?
       case _ => true
  }

  /** Where a stretch of Pop leaves a worker, `handed` tasks having been handed out by then; the empty
      `Task` a wake-up returns is not called. */
  function AfterPop(result: Result<Task>, handed: nat): Worker {
    match result
    case Parked => Waiting
    case Woken => AtTest
    case Done(_) => Working(if handed > 0 then handed - 1 else 0)
  }

  function Step(p: Pool, a: PoolAction): Pool
    requires CanStep(p, a)
  {
    var q := match QueueAction(p, a) case Some(qa) => BlockingQueues.Apply(p.q, qa) case None => p.q;
    match a
    case Begin => p.(running := true, stage := Starting)
    case Spawn(w) => p.(workers := p.workers[w := AtTest])
    case Started => p.(stage := Serving)
    case Test(w) => p.(workers := p.workers[w := if p.running then Calling else Exited])
    case Take(w, released) => p.(q := q, workers := p.workers[w := AfterPop(PopBody(p.q, w, released).1, |q.popped|)])
    case TakeAgain(w, released) => p.(q := q, workers := p.workers[w := AfterPop(PopBody(p.q, w, released).1, |q.popped|)])
    case Finish(w) => p.(finished := p.finished + [p.workers[w].k], workers := p.workers[w := AtTest])
    case ClearRunning => p.(running := false, stage := Clearing)
    case WakeWorkers => p.(q := q, stage := Joining)
    case Joined => p.(q := q, stage := Idle, workers := map[])
    case _ => p.(q := q)
  }

  /** Pop's waiting threads are exactly the workers inside Pop. */
  ghost predicate Placed(p: Pool) {
    && Disjoint(p.q)
    && (p.running <==> p.stage.Starting? || p.stage.Serving?)
    && (p.q.wakeup <==> p.stage.Joining?)
    && (p.stage.Idle? ==> p.workers == map[])
    && (forall t :: t in p.q.popParked || t in p.q.popWoken ==> Is(p, t, Waiting))
    && (forall w :: w in p.workers && p.q.Waiting(w) ==> p.workers[w].Waiting? || p.workers[w].Working?)
    && (forall w :: Is(p, w, Waiting) ==> w in p.q.popParked || w in p.q.popWoken)
  }

  ghost predicate PoolInv(p: Pool) {
    BlockingQueues.Inv(p.q) && Placed(p) && TasksAccounted(p)
  }

  /** Each task handed out is in exactly one place: finished, or in the hands of one worker. */
  ghost predicate TasksAccounted(p: Pool) {
    && (forall i :: 0 <= i < |p.finished| ==> p.finished[i] < |p.q.popped|)
    && (forall i, j :: 0 <= i < j < |p.finished| ==> p.finished[i] != p.finished[j])
    && (forall w, k: nat :: Is(p, w, Working(k)) ==> k < |p.q.popped| && k !in p.finished)
    && (forall v, w, k: nat :: Is(p, v, Working(k)) && Is(p, w, Working(k)) ==> v == w)
    && (forall k :: 0 <= k < |p.q.popped| ==> k in p.finished || exists w :: Is(p, w, Working(k)))
  }

  function New(maxsize: nat): Pool {
    Pool(Empty(maxsize), false, map[], Idle, [])
  }

  lemma StepKeepsPlaced(p: Pool, a: PoolAction)
    requires Placed(p) && CanStep(p, a) && Disjoint(Step(p, a).q)
    ensures Placed(Step(p, a))
  {
    var p' := Step(p, a);
    match a
    case Take(w, _) =>
    case TakeAgain(w, _) =>
    case Add(t, _, _) =>
    case AddAgain(t, _) =>
    case Spurious(t) =>
    case _ =>
  }

  lemma StepKeepsPoolInv(p: Pool, a: PoolAction)
    requires PoolInv(p) && CanStep(p, a)
    ensures PoolInv(Step(p, a))
  {
    match QueueAction(p, a) {
      case Some(qa) => BlockingQueues.StepKeepsInv(p.q, qa);
      case None =>
    }
    StepKeepsPlaced(p, a);
    StepKeepsTasks(p, a);
  }

  /** No task changes hands. */
  ghost predicate HandsKept(p: Pool, r: Pool) {
    && |r.q.popped| == |p.q.popped| && r.finished == p.finished
    && forall w, k: nat :: Is(r, w, Working(k)) <==> Is(p, w, Working(k))
  }

  /** `w` is handed the next task. */
  ghost predicate HandedTo(p: Pool, r: Pool, w: Thread) {
    && |r.q.popped| == |p.q.popped| + 1 && r.finished == p.finished
    && (forall k: nat :: !Is(p, w, Working(k)))
    && forall v, k: nat :: Is(r, v, Working(k)) <==> if v == w then k == |p.q.popped| else Is(p, v, Working(k))
  }

  /** `w`'s task returns. */
  ghost predicate Returned(p: Pool, r: Pool, w: Thread) {
    && w in p.workers && p.workers[w].Working?
    && |r.q.popped| == |p.q.popped| && r.finished == p.finished + [p.workers[w].k]
    && forall v, k: nat :: Is(r, v, Working(k)) <==> v != w && Is(p, v, Working(k))
  }

  lemma TakeMoves(p: Pool, a: PoolAction)
    requires CanStep(p, a) && (a.Take? || a.TakeAgain?)
    ensures HandsKept(p, Step(p, a)) || HandedTo(p, Step(p, a), a.w)
  {
  }

  lemma StepMoves(p: Pool, a: PoolAction)
    requires CanStep(p, a) && (p.stage.Idle? ==> p.workers == map[])
    ensures match a
            case Take(w, _) => HandsKept(p, Step(p, a)) || HandedTo(p, Step(p, a), w)
            case TakeAgain(w, _) => HandsKept(p, Step(p, a)) || HandedTo(p, Step(p, a), w)
            case Finish(w) => Returned(p, Step(p, a), w)
            case _ => HandsKept(p, Step(p, a))
  {
    if a.Take? || a.TakeAgain? { TakeMoves(p, a); }
  }

  lemma HandingKeepsTasks(p: Pool, r: Pool, w: Thread)
    requires TasksAccounted(p) && HandedTo(p, r, w)
    ensures TasksAccounted(r)
  {
    forall k | 0 <= k < |r.q.popped| ensures k in r.finished || exists v :: Is(r, v, Working(k)) {
      if k == |p.q.popped| {
        assert Is(r, w, Working(k));
      } else if k !in p.finished {
        var v :| Is(p, v, Working(k));
        assert Is(r, v, Working(k));
      }
    }
  }

  lemma ReturnKeepsTasks(p: Pool, r: Pool, w: Thread)
    requires TasksAccounted(p) && Returned(p, r, w)
    ensures TasksAccounted(r)
  {
    var done := p.workers[w].k;
    assert Is(p, w, Working(done)) && r.finished[|p.finished|] == done;
    forall k | 0 <= k < |r.q.popped| ensures k in r.finished || exists v :: Is(r, v, Working(k)) {
      if k !in r.finished {
        assert k !in p.finished;
        var v :| Is(p, v, Working(k));
        assert Is(r, v, Working(k));
      }
    }
  }

  /** Every task handed out stays in one worker's hands until its call returns, and then is finished once. */
  lemma StepKeepsTasks(p: Pool, a: PoolAction)
    requires TasksAccounted(p) && CanStep(p, a) && (p.stage.Idle? ==> p.workers == map[])
    ensures TasksAccounted(Step(p, a))
  {
    StepMoves(p, a);
    var r := Step(p, a);
    hide Step, CanStep;
    if HandsKept(p, r) {
      hide *;
      KeepingKeepsTasks(p, r);
    } else if a.Finish? {
      hide *;
      ReturnKeepsTasks(p, r, a.w);
    } else {
      hide *;
      HandingKeepsTasks(p, r, a.w);
    }
  }

  lemma KeepingKeepsTasks(p: Pool, r: Pool)
    requires TasksAccounted(p) && HandsKept(p, r)
    ensures TasksAccounted(r)
  {
    forall k | 0 <= k < |r.q.popped| ensures k in r.finished || exists v :: Is(r, v, Working(k)) {
      if k !in p.finished {
        var v :| Is(p, v, Working(k));
        assert Is(r, v, Working(k));
      }
    }
  }

  datatype PoolOutcome = PoolStuck | PoolReached(pool: Pool)

  function RunPool(p: Pool, schedule: seq<PoolAction>): PoolOutcome
    decreases |schedule|
  {
    if schedule == [] then PoolReached(p)
    else if CanStep(p, schedule[0]) then RunPool(Step(p, schedule[0]), schedule[1..])
    else PoolStuck
  }

  lemma {:induction false} RunPoolKeepsInv(p: Pool, schedule: seq<PoolAction>)
    requires PoolInv(p)
    ensures match RunPool(p, schedule) case PoolReached(r) => PoolInv(r) case PoolStuck => true
    decreases |schedule|
  {
    if schedule != [] && CanStep(p, schedule[0]) {
      StepKeepsPoolInv(p, schedule[0]);
      RunPoolKeepsInv(Step(p, schedule[0]), schedule[1..]);
    }
  }

  /** Nobody is left inside the pool, and every task handed out has been called. */
  ghost predicate AtRest(p: Pool) {
    && p.workers == map[] && !p.running && !p.q.wakeup && p.q.popParked + p.q.popWoken == {}
    && forall k :: 0 <= k < |p.q.popped| ==> k in p.finished
  }

  lemma IdleIsAtRest(p: Pool)
    requires PoolInv(p) && p.stage.Idle?
    ensures AtRest(p)
  {
  }

  lemma NewIsSound(maxsize: nat)
    ensures PoolInv(New(maxsize))
  {
  }

  /** In every run no task is called twice; and when the pool is idle (in particular once `Stop` has
      returned) no worker is left, and the accepted tasks are those called, each exactly once,
      followed by those still queued. */
  lemma TasksRunOnce(maxsize: nat, schedule: seq<PoolAction>)
    ensures match RunPool(New(maxsize), schedule)
            case PoolReached(p) =>
              && p.q.accepted == p.q.popped + p.q.queue
              && (forall i, j :: 0 <= i < j < |p.finished| ==> p.finished[i] != p.finished[j])
              && (forall k :: k in p.finished ==> k < |p.q.popped|)
              && (p.stage.Idle? ==> AtRest(p))
            case PoolStuck => true
  {
    RunPoolKeepsInv(New(maxsize), schedule);
    match RunPool(New(maxsize), schedule)
    case PoolReached(p) => if p.stage.Idle? { IdleIsAtRest(p); }
    case PoolStuck =>
  }

  /** What a schedule of the pool does to its queue. */
  function QueueActions(p: Pool, schedule: seq<PoolAction>): seq<Action<Task>>
    decreases |schedule|
  {
    if schedule == [] || !CanStep(p, schedule[0]) then []
    else
      (match QueueAction(p, schedule[0]) case Some(qa) => [qa] case None => [])
      + QueueActions(Step(p, schedule[0]), schedule[1..])
  }

  /** The pool uses its queue only through `Push`, `Pop`, `WakeUp` and `Restore`, so all that is true of every run of
      the queue is true of it. */
  lemma {:induction false} PoolRunsItsQueue(p: Pool, schedule: seq<PoolAction>)
    ensures match RunPool(p, schedule)
            case PoolReached(r) => BlockingQueues.Run(p.q, QueueActions(p, schedule)) == Reached(r.q)
            case PoolStuck => true
    decreases |schedule|
  {
    if schedule != [] && CanStep(p, schedule[0]) {
      PoolRunsItsQueue(Step(p, schedule[0]), schedule[1..]);
      var rest := QueueActions(Step(p, schedule[0]), schedule[1..]);
      match QueueAction(p, schedule[0]) {
        case Some(qa) => assert ([qa] + rest)[1..] == rest;
        case None => assert [] + rest == rest;
      }
    }
  }

  function AddCalls(schedule: seq<PoolAction>): nat {
    if schedule == [] then 0 else (if schedule[0].Add? then 1 else 0) + AddCalls(schedule[1..])
  }

  lemma {:induction false} AddsArePushes(p: Pool, schedule: seq<PoolAction>)
    requires RunPool(p, schedule).PoolReached?
    ensures PushCalls(QueueActions(p, schedule)) == AddCalls(schedule)
    ensures WakeWorkers !in schedule ==> Action.WakeUp !in QueueActions(p, schedule)
    decreases |schedule|
  {
    if schedule != [] {
      hide CanStep, Step, QueueAction;
      var next := Step(p, schedule[0]);
      AddsArePushes(next, schedule[1..]);
      AddIsPush(p, schedule[0], QueueActions(next, schedule[1..]));
    }
  }

  lemma AddIsPush(p: Pool, a: PoolAction, rest: seq<Action<Task>>)
    ensures var all := (match QueueAction(p, a) case Some(qa) => [qa] case None => []) + rest;
            && PushCalls(all) == (if a.Add? then 1 else 0) + PushCalls(rest)
            && (a != WakeWorkers && Action.WakeUp !in rest ==> Action.WakeUp !in all)
  {
    match QueueAction(p, a)
    case Some(qa) => assert ([qa] + rest)[1..] == rest;
    case None => assert [] + rest == rest;
  }

  /** No task gets lost: until `Stop` wakes the queue, every `AddTask` called, by anybody and at any time, has had its
      task accepted or is still waiting for room. */
  lemma AddsAreAccounted(p: Pool, schedule: seq<PoolAction>)
    requires PoolInv(p) && !p.q.wakeup && WakeWorkers !in schedule
    ensures match RunPool(p, schedule)
            case PoolReached(r) => Inside(r.q).0 == Inside(p.q).0 + AddCalls(schedule)
            case PoolStuck => true
  {
    if RunPool(p, schedule).PoolReached? {
      PoolRunsItsQueue(p, schedule);
      AddsArePushes(p, schedule);
      CallsAreAccounted(p.q, QueueActions(p, schedule));
    }
  }

  /** `AddTask`, by whomever and in whatever state the pool is, queues that very task behind the others exactly when
      there is room; and a worker's `Pop` hands it the oldest one. */
  lemma AddAndTakeAreExact(p: Pool, a: PoolAction)
    requires PoolInv(p) && CanStep(p, a) && !p.q.wakeup
    ensures a.Add? && (p.q.maxsize == 0 || |p.q.queue| < p.q.maxsize) ==> Step(p, a).q.queue == p.q.queue + [a.x]
    ensures a.Add? && p.q.maxsize != 0 && |p.q.queue| >= p.q.maxsize ==>
              Step(p, a).q.queue == p.q.queue && a.t in Step(p, a).q.pushParked
    ensures (a.Take? || a.TakeAgain?) && p.q.queue != [] ==>
              && p.q.queue == [Step(p, a).q.popped[|p.q.popped|]] + Step(p, a).q.queue
              && Is(Step(p, a), a.w, Working(|p.q.popped|))
  {
    hide Placed, TasksAccounted, BlockingQueues.Inv;
    match a
    case Add(t, x, released) => PushIsExact(p.q, PushEnter(t, x, released));
    case Take(w, released) => if p.q.queue != [] { TakeIsExact(p, a, PopEnter(w, released)); }
    case TakeAgain(w, released) => if p.q.queue != [] { TakeIsExact(p, a, PopResume(w, released)); }
    case _ =>
  }

  lemma TakeIsExact(p: Pool, a: PoolAction, pop: Action<Task>)
    requires BlockingQueues.Inv(p.q) && CanStep(p, a) && !p.q.wakeup && p.q.queue != [] && QueueAction(p, a) == Some(pop)
    requires (a.Take? && pop == PopEnter(a.w, a.released)) || (a.TakeAgain? && pop == PopResume(a.w, a.released))
    ensures p.q.queue == [Step(p, a).q.popped[|p.q.popped|]] + Step(p, a).q.queue && Is(Step(p, a), a.w, Working(|p.q.popped|))
  {
    PopIsExact(p.q, pop);
  }

  /** While the pool serves, no worker has left. */
  predicate AllHere(p: Pool) {
    p.stage.Starting? || p.stage.Serving? ==> forall w :: w in p.workers ==> !p.workers[w].Exited?
  }

  lemma {:induction false} WorkersStay(p: Pool, schedule: seq<PoolAction>)
    requires PoolInv(p) && AllHere(p)
    ensures match RunPool(p, schedule) case PoolReached(r) => AllHere(r) case PoolStuck => true
    decreases |schedule|
  {
    if schedule != [] && CanStep(p, schedule[0]) {
      StepKeepsPoolInv(p, schedule[0]);
      assert AllHere(Step(p, schedule[0]));
      WorkersStay(Step(p, schedule[0]), schedule[1..]);
    }
  }

  /** How many more steps of its own loop a worker takes once `Stop` has cleared `running_` and woken the queue. */
  function StepsLeft(p: Pool, w: Thread): nat {
    if w !in p.workers then 0
    else match p.workers[w]
      case Exited => 0
      case AtTest => 1
      case Calling => 2
      case Waiting => 2
      case Working(_) => 2
  }

  predicate StepOf(a: PoolAction, w: Thread) {
    a == Test(w) || a == Finish(w) || (a.Take? && a.w == w) || (a.TakeAgain? && a.w == w)
  }

  function StepsBy(schedule: seq<PoolAction>, w: Thread): nat {
    if schedule == [] then 0 else (if StepOf(schedule[0], w) then 1 else 0) + StepsBy(schedule[1..], w)
  }

  lemma JoiningStep(p: Pool, a: PoolAction, w: Thread)
    requires PoolInv(p) && p.stage.Joining? && CanStep(p, a) && !a.Joined?
    ensures Step(p, a).stage.Joining?
    ensures StepsLeft(Step(p, a), w) + (if StepOf(a, w) then 1 else 0) == StepsLeft(p, w)
  {
  }

  /** While `Stop` joins, no worker takes more than two further steps of its loop, whatever is pushed meanwhile. */
  lemma {:induction false} JoiningWorkersFinish(p: Pool, schedule: seq<PoolAction>, w: Thread)
    requires PoolInv(p) && p.stage.Joining? && Joined !in schedule
    ensures match RunPool(p, schedule)
            case PoolReached(r) =>
              r.stage.Joining? && PoolInv(r) && StepsBy(schedule, w) + StepsLeft(r, w) == StepsLeft(p, w) <= 2
            case PoolStuck => true
    decreases |schedule|
  {
    if schedule != [] && CanStep(p, schedule[0]) {
      StepKeepsPoolInv(p, schedule[0]);
      JoiningStep(p, schedule[0], w);
      JoiningWorkersFinish(Step(p, schedule[0]), schedule[1..], w);
    }
  }

  /** ... and none of them is ever stuck: each can take a step at once, or its task is inside an `AddTask`
      that can return at once. So every `Join` returns and `Stop` completes. */
  lemma JoiningNeverBlocks(p: Pool)
    requires PoolInv(p) && p.stage.Joining?
    ensures forall w :: w in p.workers && !p.workers[w].Exited? ==>
              exists a :: CanStep(p, a) && (StepOf(a, w) || a == AddAgain(w, {}))
    ensures (forall w :: w in p.workers ==> p.workers[w].Exited?) <==> CanStep(p, Joined)
  {
    forall w | w in p.workers && !p.workers[w].Exited?
      ensures exists a :: CanStep(p, a) && (StepOf(a, w) || a == AddAgain(w, {}))
    {
      var a := match p.workers[w]
        case AtTest => Test(w)
        case Calling => Take(w, {})
        case Waiting => TakeAgain(w, {})
        case _ => if p.q.Waiting(w) then AddAgain(w, {}) else Finish(w);
      assert Is(p, w, p.workers[w]);
      assert CanStep(p, a);
    }
  }

  /** The thread that takes the step, if it is not the pool's controller. */
  function Actor(a: PoolAction): Option<Thread> {
    match a
    case Test(w) => Some(w)
    case Take(w, _) => Some(w)
    case TakeAgain(w, _) => Some(w)
    case Finish(w) => Some(w)
    case Add(t, _, _) => Some(t)
    case AddAgain(t, _) => Some(t)
    case Spurious(t) => Some(t)
    case _ => None
  }

  /** What a run only ever adds to. */
  predicate Grown(p: Pool, r: Pool) {
    p.q.popped <= r.q.popped && p.q.accepted <= r.q.accepted && p.finished <= r.finished
  }

  /** Steps that may come between two steps of the controller: it alone calls `Start` and `Stop`. */
  ghost predicate Between(p: Pool, r: Pool) {
    && Grown(p, r) && r.stage == p.stage && r.workers.Keys == p.workers.Keys
    && (forall w :: Is(p, w, Exited) ==> Is(r, w, Exited))
    && (p.stage.Joining? ==> forall w :: ToGo(r, w) <= ToGo(p, w))
  }

  /** Stretches of code that worker `w` still needs before its `Join` returns. */
  function ToGo(p: Pool, w: Thread): nat {
    2 * StepsLeft(p, w) + if w in p.workers && p.workers[w].Working? && p.q.Waiting(w) then 1 else 0
  }

  lemma OwnStep(p: Pool, a: PoolAction)
    requires PoolInv(p) && CanStep(p, a) && Actor(a).Some?
    ensures PoolInv(Step(p, a)) && Between(p, Step(p, a))
  {
    hide PoolInv, ToGo;
    StepKeepsPoolInv(p, a);
    match QueueAction(p, a) {
      case Some(qa) => StepGrows(p.q, qa);
      case None =>
    }
    if p.stage.Joining? {
      forall w ensures ToGo(Step(p, a), w) <= ToGo(p, w) { NeverSetBack(p, a, w); }
    }
  }

  lemma NeverSetBack(p: Pool, a: PoolAction, w: Thread)
    requires PoolInv(p) && CanStep(p, a) && Actor(a).Some? && p.stage.Joining?
    ensures ToGo(Step(p, a), w) <= ToGo(p, w)
  {
    JoiningStep(p, a, w);
  }

  /** Another thread's step leaves `w` where it is, and outside the queue if it was outside. */
  lemma OthersStep(p: Pool, a: PoolAction, w: Thread)
    requires PoolInv(p) && CanStep(p, a) && Actor(a).Some? && Actor(a) != Some(w) && w in p.workers
    ensures Is(Step(p, a), w, p.workers[w])
    ensures !p.q.Waiting(w) ==> !Step(p, a).q.Waiting(w)
  {
    hide PoolInv;
    match QueueAction(p, a) {
      case Some(qa) => OthersStayOut(p.q, qa, w);
      case None =>
    }
  }

  lemma OthersStayOut(m: Monitor<Task>, a: Action<Task>, w: Thread)
    requires BlockingQueues.Enabled(m, a) && (a.WakeUp? || a.Restore? || a.t != w)
    ensures !m.Waiting(w) ==> !BlockingQueues.Apply(m, a).Waiting(w)
  {
  }

  lemma QueueInv(p: Pool)
    requires PoolInv(p)
    ensures BlockingQueues.Inv(p.q)
  {
  }

  lemma CallerIsOutside(p: Pool, w: Thread)
    requires PoolInv(p) && Is(p, w, Calling)
    ensures !p.q.Waiting(w)
  {
  }

  /** While `Stop` joins, no worker sleeps unsignalled, and a worker outside `Pop` that waits has been
      released. */
  lemma JoiningNeverWaits(p: Pool, w: Thread)
    requires PoolInv(p) && p.stage.Joining? && w in p.workers
    ensures w !in p.q.popParked && w !in p.q.pushParked
    ensures w in p.q.pushWoken ==> p.workers[w].Working?
    ensures w in p.q.popWoken <==> p.workers[w].Waiting?
  {
    assert Is(p, w, p.workers[w]);
  }

  lemma Progress(p: Pool, a: PoolAction, w: Thread)
    requires PoolInv(p) && p.stage.Joining? && CanStep(p, a)
    requires StepOf(a, w) || (a.AddAgain? && a.t == w && w in p.workers)
    ensures PoolInv(Step(p, a)) && Between(p, Step(p, a)) && ToGo(Step(p, a), w) < ToGo(p, w)
  {
    hide TasksAccounted;
    OwnStep(p, a);
    JoiningStep(p, a, w);
    JoiningNeverWaits(p, w);
  }

  lemma BetweenChains(p: Pool, q: Pool, r: Pool)
    requires Between(p, q) && (Between(q, r) || r == q)
    ensures Between(p, r)
  {
  }

  /** How one turn of a worker's loop ended. */
  datatype Turn = Left | Blocked | NoTask | Ran(k: nat)

  /** Worker `w` can take a step of its own, not counting a wait that returns for no reason. */
  ghost predicate CanMove(p: Pool, w: Thread) {
    w in p.workers && exists a :: CanStep(p, a) && Actor(a) == Some(w) && !a.Spurious?
  }

  lemma AwakeCanMove(p: Pool, w: Thread)
    requires PoolInv(p) && w in p.workers && !p.workers[w].Exited? && w !in p.q.popParked && w !in p.q.pushParked
    ensures CanMove(p, w)
  {
    assert Is(p, w, p.workers[w]);
    var a := match p.workers[w]
      case AtTest => Test(w)
      case Calling => Take(w, p.q.pushParked)
      case Waiting => TakeAgain(w, p.q.pushParked)
      case _ => if p.q.Waiting(w) then AddAgain(w, p.q.popParked) else Finish(w);
    assert CanStep(p, a) && Actor(a) == Some(w);
  }

  lemma PushParkedCannotMove(p: Pool, w: Thread)
    requires PoolInv(p) && w in p.q.pushParked
    ensures !CanMove(p, w)
  {
    if w in p.workers {
      forall a | CanStep(p, a) && Actor(a) == Some(w) ensures a.Spurious? {
        assert p.workers[w].Working?;
      }
    }
  }

  /** A running task may add tasks, and only workers take them out, so a pool with a bounded queue can come to
      a standstill with tasks queued. It does so exactly when every worker is asleep in an `AddTask`. */
  lemma ServingProgress(p: Pool)
    requires PoolInv(p) && p.q.queue != [] && forall w :: w in p.workers ==> !p.workers[w].Exited?
    ensures (exists w :: CanMove(p, w)) <==> exists w :: w in p.workers && w !in p.q.pushParked
  {
    if v :| v in p.workers && v !in p.q.pushParked {
      if v in p.q.popParked {
        var w :| w in p.q.popWoken;
        assert Is(p, w, Waiting);
        AwakeCanMove(p, w);
      } else {
        AwakeCanMove(p, v);
      }
    } else {
      forall w ensures !CanMove(p, w) {
        if w in p.workers { PushParkedCannotMove(p, w); }
      }
    }
  }

  /** Without a bound that cannot happen. */
  lemma UnboundedPoolProgresses(p: Pool)
    requires PoolInv(p) && p.q.maxsize == 0 && p.q.queue != [] && p.workers != map[]
    requires forall w :: w in p.workers ==> !p.workers[w].Exited?
    ensures exists w :: CanMove(p, w)
  {
    var w :| w in p.workers;
    ServingProgress(p);
  }

  lemma PoolCons(p: Pool, a: PoolAction, rest: seq<PoolAction>)
    requires CanStep(p, a)
    ensures RunPool(p, [a] + rest) == RunPool(Step(p, a), rest)
  {
    assert ([a] + rest)[1..] == rest;
  }

  lemma {:induction false} PoolJoin(p: Pool, first: seq<PoolAction>, rest: seq<PoolAction>)
    ensures match RunPool(p, first)
            case PoolReached(r) => RunPool(p, first + rest) == RunPool(r, rest)
            case PoolStuck => true
    decreases |first|
  {
    if first == [] {
      assert first + rest == rest;
    } else if CanStep(p, first[0]) {
      PoolJoin(Step(p, first[0]), first[1..], rest);
      assert (first + rest)[1..] == first[1..] + rest;
    }
  }

  /** One worker about to take a task, the queue bounded to one. */
  function OneCalling(): Pool {
    Pool(Empty(1), true, map[0 := Calling], Serving, [])
  }

  lemma OneWorkerStarts()
    ensures RunPool(New(1), [Begin, Spawn(0), Started, Test(0)]) == PoolReached(OneCalling())
  {
    var begun := New(1).(running := true, stage := Starting);
    var spawned := begun.(workers := map[0 := AtTest]);
    assert map[][0 := AtTest] == map[0 := AtTest] && map[0 := AtTest][0 := Calling] == map[0 := Calling];
    PoolCons(spawned.(stage := Serving), Test(0), []);
    PoolCons(spawned, Started, [Test(0)]);
    PoolCons(begun, Spawn(0), [Started, Test(0)]);
    PoolCons(New(1), Begin, [Spawn(0), Started, Test(0)]);
    assert RunPool(OneCalling(), []) == PoolReached(OneCalling());
  }

  /** The same worker running the task it was given. */
  function OneWorking(x: Task): Pool {
    Pool(Empty<Task>(1).(accepted := [x], popped := [x]), true, map[0 := Working(0)], Serving, [])
  }

  lemma OneWorkerTakes(x: Task)
    ensures RunPool(OneCalling(), [Add(1, x, {}), Take(0, {})]) == PoolReached(OneWorking(x))
  {
    var queued := OneCalling().(q := Empty<Task>(1).(queue := [x], accepted := [x]));
    assert [] + [x] == [x] && map[0 := Calling][0 := Working(0)] == map[0 := Working(0)];
    assert Step(OneCalling(), Add(1, x, {})) == queued;
    assert Step(queued, Take(0, {})) == OneWorking(x);
    PoolCons(queued, Take(0, {}), []);
    PoolCons(OneCalling(), Add(1, x, {}), [Take(0, {})]);
    assert RunPool(OneWorking(x), []) == PoolReached(OneWorking(x));
  }

  lemma OneWorkerParks(x: Task)
    ensures match RunPool(OneWorking(x), [Add(0, x, {}), Add(0, x, {})])
            case PoolReached(p) => p.q.queue == [x] && p.q.pushParked == {0} && p.workers == map[0 := Working(0)]
            case PoolStuck => false
  {
    var full := Step(OneWorking(x), Add(0, x, {}));
    assert [] + [x] == [x] && full.q.queue == [x];
    var parked := Step(full, Add(0, x, {}));
    PoolCons(full, Add(0, x, {}), []);
    PoolCons(OneWorking(x), Add(0, x, {}), [Add(0, x, {})]);
    assert RunPool(parked, []) == PoolReached(parked);
  }

  /** Witness: one worker, a bound of one, and a task that adds two. */
  lemma BoundedPoolStalls(x: Task)
    ensures exists schedule :: match RunPool(New(1), schedule)
                               case PoolReached(p) =>
                                 p.q.queue == [x] && 0 in p.workers && forall w :: !CanMove(p, w)
                               case PoolStuck => false
  {
    hide Step, CanStep, RunPool;
    var start, take, park := [Begin, Spawn(0), Started, Test(0)], [Add(1, x, {}), Take(0, {})], [Add(0, x, {}), Add(0, x, {})];
    OneWorkerStarts();
    OneWorkerTakes(x);
    OneWorkerParks(x);
    PoolJoin(New(1), start, take + park);
    PoolJoin(OneCalling(), take, park);
    NewKeepsInv(start + (take + park));
    var p := RunPool(New(1), start + (take + park)).pool;
    forall w ensures !CanMove(p, w) {
      if w in p.workers { PushParkedCannotMove(p, w); }
    }
  }

  lemma NewKeepsInv(schedule: seq<PoolAction>)
    ensures match RunPool(New(1), schedule) case PoolReached(p) => PoolInv(p) case PoolStuck => true
  {
    NewIsSound(1);
    hide PoolInv, RunPool, New;
    RunPoolKeepsInv(New(1), schedule);
  }

  class ThreadPool {
    const queue: BlockingQueue<Task>
    var running: bool
    var threads: set<Thread>
    var workers: map<Thread, Worker>   // where each thread stands in its loop
    var stage: Stage                   // where the controller stands in `Start` and `Stop`
    var finished: seq<nat>

    function View(): Pool
      reads this, queue
    {
      Pool(queue.View(), running, workers, stage, finished)
    }

    ghost predicate Valid()
      reads this, queue
    {
      PoolInv(View()) && threads == workers.Keys
    }

    constructor (maxsize: nat)
      ensures Valid() && View() == New(maxsize) && fresh(queue)
    {
      queue := new BlockingQueue(maxsize);
      running, threads := false, {};
      workers, stage, finished := map[], Idle, [];
    }

    /** Creates the workers one by one, while those created earlier and all other threads run. */
    method Start(threadNum: nat)
      requires Valid() && stage.Idle?
      modifies this, queue
      ensures Valid() && stage.Serving? && |threads| == threadNum && Grown(old(View()), View())
    {
      hide PoolInv;
      BeginStart();
      for i := 0 to threadNum
        invariant Valid() && stage.Starting? && |threads| == i && Grown(old(View()), View())
      {
        SpawnWorker();
        Interfere(None);
      }
      EndStart();
    }

    method BeginStart()
      requires Valid() && stage.Idle?
      modifies this
      ensures Valid() && stage.Starting? && threads == {} && Grown(old(View()), View())
    {
      StepKeepsPoolInv(View(), Begin);
      running, stage := true, Starting;
    }

    /** A thread nobody uses yet becomes a worker. */
    method SpawnWorker()
      requires Valid() && stage.Starting?
      modifies this
      ensures Valid() && stage.Starting? && |threads| == |old(threads)| + 1 && Grown(old(View()), View())
    {
      hide PoolInv;
      var w := UnusedThread();
      StepKeepsPoolInv(View(), Spawn(w));
      threads, workers := threads + {w}, workers[w := AtTest];
    }

    method UnusedThread() returns (w: Thread)
      requires Valid()
      ensures w !in threads && !queue.View().Waiting(w)
    {
      var used := threads + queue.popParked + queue.popWoken + queue.pushParked + queue.pushWoken;
      w := 0;
      var left := used;
      while left != {}
        invariant forall t :: t in used ==> t in left || t < w
      {
        var t :| t in left;
        left := left - {t};
        w := if t < w then w else t + 1;
      }
    }

    method EndStart()
      requires Valid() && stage.Starting?
      modifies this
      ensures Valid() && stage.Serving? && threads == old(threads) && Grown(old(View()), View())
    {
      StepKeepsPoolInv(View(), Started);
      stage := Serving;
    }

    /** The test at the head of a worker's loop. */
    method TestRunning(w: Thread) returns (again: bool, ghost a: PoolAction)
      requires Valid() && Is(View(), w, AtTest)
      modifies this
      ensures Valid() && a == Test(w) && View() == old(Step(View(), a)) && again == running
    {
      hide PoolInv;
      a := Test(w);
      StepKeepsPoolInv(View(), a);
      again := running;
      workers := workers[w := if running then Calling else Exited];
    }

    /** The worker asks for a task: up to where `Pop` blocks or returns. */
    method Take(w: Thread) returns (result: Result<Task>, ghost a: PoolAction)
      requires Valid() && Is(View(), w, Calling)
      modifies this, queue
      ensures a.Take? && a.w == w && old(CanStep(View(), a)) && View() == old(Step(View(), a)) && Valid()
      ensures result.Done? <==> workers[w].Working?
      ensures result.Parked? <==> workers[w].Waiting?
    {
      hide PoolInv, BlockingQueues.InvBut, BlockingQueues.Disjoint;
      QueueInv(View());
      CallerIsOutside(View(), w);
      ghost var before := View();
      var released;
      result, released := queue.Pop(w);
      a := PoolAction.Take(w, released);
      StepKeepsPoolInv(before, a);
      workers := workers[w := AfterPop(result, |queue.popped|)];
    }

    /** ... and once `Wait` has returned. */
    method TakeAgain(w: Thread) returns (result: Result<Task>, ghost a: PoolAction)
      requires Valid() && Is(View(), w, Waiting) && w in queue.popWoken
      modifies this, queue
      ensures a.TakeAgain? && a.w == w && old(CanStep(View(), a)) && View() == old(Step(View(), a)) && Valid()
    {
      hide PoolInv, BlockingQueues.InvBut, BlockingQueues.Disjoint;
      QueueInv(View());
      ghost var before := View();
      var released;
      result, released := queue.PopAgain(w);
      a := PoolAction.TakeAgain(w, released);
      StepKeepsPoolInv(before, a);
      workers := workers[w := AfterPop(result, |queue.popped|)];
    }

    /** The call of a worker's task returns. */
    method Finish(w: Thread) returns (ghost a: PoolAction)
      requires Valid() && w in workers && workers[w].Working? && !queue.View().Waiting(w)
      modifies this
      ensures Valid() && a == PoolAction.Finish(w) && View() == old(Step(View(), a))
    {
      hide PoolInv;
      a := PoolAction.Finish(w);
      StepKeepsPoolInv(View(), a);
      finished, workers := finished + [workers[w].k], workers[w := AtTest];
    }

    method AddTask(t: Thread, x: Task) returns (ghost a: PoolAction)
      requires Valid() && (t in workers ==> workers[t].Working?) && !queue.View().Waiting(t)
      modifies queue
      ensures a.Add? && a.t == t && old(CanStep(View(), a)) && View() == old(Step(View(), a)) && Valid()
    {
      hide PoolInv;
      QueueInv(View());
      ghost var before := View();
      var result, released := queue.Push(t, x);
      a := Add(t, x, released);
      StepKeepsPoolInv(before, a);
    }

    method AddTaskAgain(t: Thread) returns (ghost a: PoolAction)
      requires Valid() && t in queue.pushWoken
      modifies queue
      ensures a.AddAgain? && a.t == t && old(CanStep(View(), a)) && View() == old(Step(View(), a)) && Valid()
    {
      hide PoolInv;
      QueueInv(View());
      ghost var before := View();
      var result, released := queue.PushAgain(t);
      a := AddAgain(t, released);
      StepKeepsPoolInv(before, a);
    }

    /** A waiting thread's turn: its condition variable releases it for no reason, or nothing happens. */
    method Wait(t: Thread) returns (ghost a: Option<PoolAction>)
      requires Valid() && (t in queue.popParked || t in queue.pushParked)
      modifies queue
      ensures Stepped(t, old(View()), a)
    {
      hide PoolInv, BlockingQueues.InvBut, BlockingQueues.Apply;
      QueueInv(View());
      ghost var before := View();
      a := None;
      if * {
        queue.Spurious(t);
        a := Some(PoolAction.Spurious(t));
        StepKeepsPoolInv(before, PoolAction.Spurious(t));
      }
    }

    /** Thread `t` took step `a`, if any. */
    ghost predicate Stepped(t: Thread, before: Pool, a: Option<PoolAction>)
      reads this, queue
    {
      Valid() && match a
                 case None => View() == before
                 case Some(step) => Actor(step) == Some(t) && CanStep(before, step) && View() == Step(before, step)
    }

    /** The next stretch of code of thread `t`, worker or not, wherever it stands. */
    method StepThread(t: Thread, x: Task) returns (ghost a: Option<PoolAction>)
      requires Valid()
      modifies this, queue
      ensures Stepped(t, old(View()), a)
    {
      a := None;
      ghost var step;
      if t in queue.popParked || t in queue.pushParked {
        a := Wait(t);
      } else if t in queue.pushWoken {
        step := AddTaskAgain(t);
        a := Some(step);
      } else if t !in workers {
        step := AddTask(t, x);
        a := Some(step);
      } else {
        a := StepWorker(t, x);
      }
    }

    method StepWorker(t: Thread, x: Task) returns (ghost a: Option<PoolAction>)
      requires Valid() && t in workers && t !in queue.popParked && t !in queue.pushParked && t !in queue.pushWoken
      modifies this, queue
      ensures Stepped(t, old(View()), a)
      ensures a.None? <==> old(workers[t].Exited?)
    {
      a := None;
      ghost var step;
      match workers[t] {
        case AtTest =>
          var again;
          again, step := TestRunning(t);
          a := Some(step);
        case Calling =>
          var result;
          result, step := Take(t);
          a := Some(step);
        case Waiting =>
          var result;
          result, step := TakeAgain(t);
          a := Some(step);
        case Working(_) =>
          if * {
            step := AddTask(t, x);
          } else {
            step := Finish(t);
          }
          a := Some(step);
        case Exited =>
      }
    }

    /** Any number of steps of any threads but `spare`. */
    method Interfere(spare: Option<Thread>)
      requires Valid() && (spare.Some? ==> spare.value in workers)
      modifies this, queue
      ensures Valid() && Between(old(View()), View())
      ensures spare.Some? ==> Is(View(), spare.value, old(workers[spare.value]))
      ensures spare.Some? && !old(queue.View().Waiting(spare.value)) ==> !queue.View().Waiting(spare.value)
    {
      hide PoolInv, Step, CanStep;
      var steps: nat :| true;
      for i := 0 to steps
        invariant Valid() && Between(old(View()), View())
        invariant spare.Some? ==> Is(View(), spare.value, old(workers[spare.value]))
        invariant spare.Some? && !old(queue.View().Waiting(spare.value)) ==> !queue.View().Waiting(spare.value)
      {
        var t: Thread, x: Task := *, *;
        if Some(t) != spare {
          ghost var before := View();
          ghost var a := StepThread(t, x);
          if a.Some? {
            OwnStep(before, a.value);
            if spare.Some? { OthersStep(before, a.value, spare.value); }
          }
          BetweenChains(old(View()), before, View());
        }
      }
    }

    /** The same test, with the other threads running before and after it. */
    method Arrive(w: Thread) returns (again: bool)
      requires Valid() && Is(View(), w, AtTest)
      modifies this, queue
      ensures Valid() && Grown(old(View()), View()) && Is(View(), w, if again then Calling else Exited)
    {
      Interfere(Some(w));
      ghost var a;
      again, a := TestRunning(w);
      Interfere(Some(w));
    }

    method Obtain(w: Thread) returns (turn: Turn)
      requires Valid() && Is(View(), w, Calling)
      modifies this, queue
      ensures Valid() && Grown(old(View()), View())
      ensures match turn
              case Blocked => Is(View(), w, Waiting)
              case NoTask => Is(View(), w, AtTest)
              case Ran(k) =>
                && Is(View(), w, Working(k)) && old(|queue.popped|) <= k < |queue.popped|
                && !queue.View().Waiting(w) && k !in finished
              case Left => false
    {
      var result, _ := Take(w);
      turn := match result
        case Parked => Blocked
        case Woken => NoTask
        case Done(_) => Ran(|queue.popped| - 1);
    }

    /** The call of a task, which may add tasks of its own; `done` unless it is left waiting in `Push`. */
    method CallTask(w: Thread, k: nat) returns (done: bool)
      requires Valid() && Is(View(), w, Working(k)) && !queue.View().Waiting(w)
      modifies this, queue
      ensures Valid() && Grown(old(View()), View())
      ensures if done then Is(View(), w, AtTest) && k in finished else Is(View(), w, Working(k)) && queue.View().Waiting(w)
    {
      hide PoolInv, Step, CanStep;
      Interfere(Some(w));
      var calls: nat :| true;
      for call := 0 to calls
        invariant Valid() && Grown(old(View()), View())
        invariant Is(View(), w, Working(k)) && !queue.View().Waiting(w)
      {
        done := TaskAdds(w, k);
        if !done { return; }
        Interfere(Some(w));
      }
      TaskReturns(w, k);
      done := true;
    }

    method TaskAdds(w: Thread, k: nat) returns (done: bool)
      requires Valid() && Is(View(), w, Working(k)) && !queue.View().Waiting(w)
      modifies this, queue
      ensures Valid() && Grown(old(View()), View())
      ensures Is(View(), w, Working(k)) && done == !queue.View().Waiting(w)
    {
      hide PoolInv, BlockingQueues.InvBut;
      ghost var before := View();
      var x: Task := *;
      ghost var a := AddTask(w, x);
      OwnStep(before, a);
      done := w !in queue.pushParked;
    }

    method TaskReturns(w: Thread, k: nat)
      requires Valid() && Is(View(), w, Working(k)) && !queue.View().Waiting(w)
      modifies this, queue
      ensures Valid() && Grown(old(View()), View()) && Is(View(), w, AtTest) && k in finished
    {
      ghost var a := Finish(w);
      assert finished[|finished| - 1] == k;
    }

    /** One turn of the worker's loop: a task that `Pop` hands out is called once and to its end. */
    method WorkerTurn(w: Thread) returns (turn: Turn)
      requires Valid() && Is(View(), w, AtTest)
      modifies this, queue
      ensures Valid() && Grown(old(View()), View())
      ensures match turn
              case Left => Is(View(), w, Exited)
              case Blocked => w in workers && (workers[w].Waiting? || (workers[w].Working? && queue.View().Waiting(w)))
              case NoTask => Is(View(), w, AtTest)
              case Ran(k) => Is(View(), w, AtTest) && old(|queue.popped|) <= k && k in finished
    {
      hide PoolInv, Step, CanStep;
      var again := Arrive(w);
      if !again { return Left; }
      turn := Obtain(w);
      if turn.Ran? {
        var done := CallTask(w, turn.k);
        if !done { turn := Blocked; }
      }
    }

    /** The next stretch of code of a worker whose task, if it is in one, returns. */
    method StepTowardsExit(w: Thread)
      requires Valid() && stage.Joining? && w in threads && workers[w] != Exited
      modifies this, queue
      ensures Valid() && Between(old(View()), View()) && ToGo(View(), w) < ToGo(old(View()), w)
    {
      hide PoolInv;
      ghost var before, a := View(), Joined;
      JoiningNeverWaits(before, w);
      if w in queue.pushWoken {
        a := AddTaskAgain(w);
      } else {
        match workers[w] {
          case AtTest =>
            var again;
            again, a := TestRunning(w);
          case Calling =>
            var result;
            result, a := Take(w);
          case Waiting =>
            var result;
            result, a := TakeAgain(w);
          case Working(_) =>
            a := Finish(w);
        }
      }
      Progress(before, a, w);
    }

    /** One `Join` in `Stop`: `w` gets a turn after any number of steps of the others, until
        it has left its loop. */
    method Join(w: Thread)
      requires Valid() && stage.Joining? && w in threads
      modifies this, queue
      ensures Valid() && Between(old(View()), View()) && Is(View(), w, Exited)
    {
      hide PoolInv, Step, CanStep;
      Interfere(None);
      while workers[w] != Exited
        invariant Valid() && Between(old(View()), View())
        decreases ToGo(View(), w)
      {
        ghost var before := View();
        StepTowardsExit(w);
        ghost var mid := View();
        Interfere(None);
        BetweenChains(before, mid, View());
        BetweenChains(old(View()), before, View());
      }
    }

    /** The first half of `Stop`: no worker starts another turn, and none stays asleep in `Pop`. */
    method BeginStop()
      requires Valid() && stage.Serving?
      modifies this, queue
      ensures Valid() && stage.Joining? && Grown(old(View()), View())
    {
      hide PoolInv, Step, CanStep;
      ClearFlag();
      Interfere(None);
      WakeWorkers();
    }

    method ClearFlag()
      requires Valid() && stage.Serving?
      modifies this
      ensures Valid() && stage.Clearing? && Grown(old(View()), View())
    {
      StepKeepsPoolInv(View(), ClearRunning);
      running, stage := false, Clearing;
    }

    method WakeWorkers()
      requires Valid() && stage.Clearing?
      modifies this, queue
      ensures Valid() && stage.Joining? && Grown(old(View()), View())
    {
      StepKeepsPoolInv(View(), PoolAction.WakeWorkers);
      queue.WakeUp();
      stage := Joining;
    }

    /** The end of `Stop`: the workers are forgotten and the queue leaves its wake-up mode. */
    method EndStop()
      requires Valid() && CanStep(View(), Joined)
      modifies this, queue
      ensures Valid() && stage.Idle? && threads == {} && Grown(old(View()), View())
    {
      hide TasksAccounted;
      StepKeepsPoolInv(View(), Joined);
      threads, workers := {}, map[];
      queue.Restore();
      stage := Idle;
    }

    /** Waits for every worker in turn. */
    method JoinAll()
      requires Valid() && stage.Joining?
      modifies this, queue
      ensures Valid() && Between(old(View()), View()) && CanStep(View(), Joined)
    {
      hide PoolInv, Step;
      var left := threads;
      while left != {}
        invariant Valid() && Between(old(View()), View()) && left <= threads
        invariant forall w :: w in threads - left ==> Is(View(), w, Exited)
      {
        var w :| w in left;
        ghost var before := View();
        Join(w);
        BetweenChains(old(View()), before, View());
        left := left - {w};
      }
      assert forall w :: w in workers ==> w in threads - left;
    }

    /** Returns with every worker gone, every task handed out called, and the queue usable again. */
    method Stop()
      requires Valid() && stage.Serving?
      modifies this, queue
      ensures Valid() && stage.Idle? && threads == {} && AtRest(View()) && Grown(old(View()), View())
    {
      hide PoolInv, Step, CanStep;
      BeginStop();
      JoinAll();
      EndStop();
      IdleIsAtRest(View());
    }
  }
}
