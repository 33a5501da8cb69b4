/** The reactor's cross-thread hand-off: `QueueInLoop`, the eventfd, and one pass of `Loop`,
    as interleaved atomic steps of the loop thread and of any number of foreign threads.
    A step that touches the functor queue is one critical section of its mutex. */
module EventLoops {

  type Thread = nat
  type Functor = nat

  /** Where the loop thread stands. */
  datatype Phase =
    | Outside                     // `Loop()` is not running
    | Testing                     // at `while (!quit_)`
    | Polling                     // committed to `epoll_wait`
    | Dispatching(wakeReady: bool) // running channel handlers; the eventfd was reported and is not yet read
    | Expiring                    // in `HandleExpired`
    | Measuring                   // `pending_functors_calling_` is set, the size is not yet read
    | Calling(remaining: nat)     // pops still to make in this pass

  datatype State = State(
    phase: Phase,
    calling: bool,                // pending_functors_calling_
    quit: bool,
    counter: nat,                 // the eventfd's counter
    queue: seq<Functor>,
    owing: set<Thread>,           // foreign threads that pushed (or quit) and have yet to write the eventfd
    selfOwing: bool,              // the loop thread is between its own push and its own write
    posted: seq<Functor>,         // history: every functor pushed
    ran: seq<Functor>,            // history: every functor popped and run
    mark: nat)                    // history: |posted| when the size was last read

  /** The test in `QueueInLoop`: does a pusher write the eventfd, given whether it is the loop
      thread and the flag it reads? */
  type Guard = (bool, bool) -> bool

  const CODE_GUARD: Guard := (inLoop: bool, calling: bool) => !inLoop || calling

  const EVENTFD_MAX: nat := 0xffff_ffff_ffff_fffe

  /** A write to a non-blocking eventfd; one that would overflow fails and leaves the counter. */
  function Written(counter: nat): nat {
    if counter < EVENTFD_MAX then counter + 1 else counter
  }

  datatype Action =
    // user code on the loop thread
    | LoopPush(f: Functor)
    | LoopWrite
    | LoopQuit
    // foreign threads
    | ForeignPush(t: Thread, f: Functor)
    | ForeignQuit(t: Thread)
    | ForeignWrite(t: Thread)
    // the loop itself
    | Test
    | PollReturn(reported: bool)
    | ReadEventfd
    | EndHandlers
    | EndTimers
    | TakeSize
    | PopAndRun
    | EndCalls

  /** User callbacks run on the loop thread while handlers, timers or functors run, or before `Loop()`. */
  predicate UserCode(p: Phase) {
    p.Outside? || p.Dispatching? || p.Expiring? || p.Calling?
  }

  predicate Enabled(s: State, a: Action) {
    match a
    case LoopPush(_) => UserCode(s.phase) && !s.selfOwing
    case LoopWrite => s.selfOwing
    case LoopQuit => UserCode(s.phase) && !s.selfOwing
    case ForeignPush(t, _) => t !in s.owing
    case ForeignQuit(t) => t !in s.owing
    case ForeignWrite(t) => t in s.owing
    case Test => s.phase.Testing?
    case PollReturn(reported) => s.phase.Polling? && (reported ==> s.counter > 0)
    case ReadEventfd => s.phase == Dispatching(true) && !s.selfOwing
    case EndHandlers => s.phase == Dispatching(false) && !s.selfOwing
    case EndTimers => s.phase.Expiring? && !s.selfOwing
    case TakeSize => s.phase.Measuring?
    case PopAndRun => s.phase.Calling? && s.phase.remaining > 0 && s.queue != [] && !s.selfOwing
    case EndCalls => s.phase == Calling(0) && !s.selfOwing
  }

  function Apply(g: Guard, s: State, a: Action): State
    requires Enabled(s, a)
  {
    match a
    case LoopPush(f) =>
      s.(queue := s.queue + [f], posted := s.posted + [f], selfOwing := g(true, s.calling))
    case LoopWrite => s.(counter := Written(s.counter), selfOwing := false)
    case LoopQuit => s.(quit := true)
    case ForeignPush(t, f) =>
      s.(queue := s.queue + [f], posted := s.posted + [f],
         owing := if g(false, s.calling) then s.owing + {t} else s.owing)
    case ForeignQuit(t) => s.(quit := true, owing := s.owing + {t})
    case ForeignWrite(t) => s.(counter := Written(s.counter), owing := s.owing - {t})
    case Test => s.(phase := if s.quit then Outside else Polling)
    case PollReturn(reported) => s.(phase := Dispatching(reported))
    case ReadEventfd => s.(counter := 0, phase := Dispatching(false))
    case EndHandlers => s.(phase := Expiring)
    case EndTimers => s.(phase := Measuring, calling := true)
    case TakeSize => s.(phase := Calling(|s.queue|), mark := |s.posted|)
    case PopAndRun =>
      s.(queue := s.queue[1..], ran := s.ran + [s.queue[0]], phase := Calling(s.phase.remaining - 1))
    case EndCalls => s.(phase := Testing, calling := false)
  }

  datatype Outcome = Stuck | Reached(state: State)

  /** Runs a schedule; `Stuck` when some step of it is not enabled. */
  function Run(g: Guard, s: State, schedule: seq<Action>): Outcome
    decreases |schedule|
  {
    if schedule == [] then Reached(s)
    else if Enabled(s, schedule[0]) then Run(g, Apply(g, s, schedule[0]), schedule[1..])
    else Stuck
  }

  /** A state in which `Loop()` has just set its flags; the queue, the counter and the threads
      that owe a write are whatever earlier activity left. */
  predicate AtEntry(s: State) {
    s.phase.Testing? && !s.calling && !s.quit && !s.selfOwing && s.posted == s.ran + s.queue
  }

  /** Somebody has woken the poller, or still will. */
  predicate WakeAssured(s: State) {
    s.counter > 0 || s.owing != {}
  }

  /** No functor (and no request to quit) waits behind an `epoll_wait` that nobody will end. */
  predicate NotStranded(s: State) {
    s.phase.Polling? && (s.queue != [] || s.quit) ==> WakeAssured(s)
  }

  /** The inductive form: once the size is read, anything queued beyond it has a wake-up coming. */
  predicate Inv(s: State) {
    && s.posted == s.ran + s.queue
    && (s.calling <==> s.phase.Measuring? || s.phase.Calling?)
    && (s.selfOwing ==> UserCode(s.phase))
    && match s.phase
       case Testing => s.queue != [] ==> WakeAssured(s)
       case Polling => s.queue != [] || s.quit ==> WakeAssured(s)
       case Calling(r) =>
         && r <= |s.queue|
         && |s.ran| + r == s.mark
         && (|s.queue| > r ==> WakeAssured(s) || s.selfOwing)
       case _ => true
  }

  /** Every foreign push writes, and so does a push made while functors are being called. */
  predicate Sufficient(g: Guard) {
    g(false, false) && g(false, true) && g(true, true)
  }

  lemma StepKeepsInv(g: Guard, s: State, a: Action)
    requires Sufficient(g) && Inv(s) && Enabled(s, a)
    ensures Inv(Apply(g, s, a))
  {
  }

  lemma {:induction false} RunKeepsInv(g: Guard, s: State, schedule: seq<Action>)
    requires Sufficient(g) && Inv(s)
    ensures match Run(g, s, schedule) case Reached(t) => Inv(t) case Stuck => true
    decreases |schedule|
  {
    if schedule != [] && Enabled(s, schedule[0]) {
      StepKeepsInv(g, s, schedule[0]);
      RunKeepsInv(g, Apply(g, s, schedule[0]), schedule[1..]);
    }
  }

  ghost predicate NeverStrands(g: Guard, s: State) {
    forall schedule :: match Run(g, s, schedule) case Reached(t) => NotStranded(t) case Stuck => true
  }

  /** In every interleaving with foreign pushers the running loop strands nothing, exactly when
      nothing queued before `Loop()` was left without a wake-up. */
  lemma NoFunctorStranded(s: State)
    requires AtEntry(s)
    ensures NeverStrands(CODE_GUARD, s) <==> (s.queue != [] ==> WakeAssured(s))
  {
    if s.queue != [] ==> WakeAssured(s) {
      forall schedule ensures match Run(CODE_GUARD, s, schedule) case Reached(t) => NotStranded(t) case Stuck => true {
        RunKeepsInv(CODE_GUARD, s, schedule);
      }
    } else {
      RunCons(CODE_GUARD, s, Test, []);
      assert Run(CODE_GUARD, s, [Test]) == Reached(s.(phase := Polling));
    }
  }

  /** The case the condition shuts out: a functor the loop's own thread queues before `Loop()`. */
  lemma PushBeforeLoopStrands(f: Functor)
    ensures var start := State(Outside, false, false, 0, [], {}, false, [], [], 0);
            var pushed := Apply(CODE_GUARD, start, LoopPush(f));
            AtEntry(pushed.(phase := Testing)) && !NeverStrands(CODE_GUARD, pushed.(phase := Testing))
  {
    var start := State(Outside, false, false, 0, [], {}, false, [], [], 0);
    NoFunctorStranded(Apply(CODE_GUARD, start, LoopPush(f)).(phase := Testing));
  }

  lemma RunCons(g: Guard, s: State, a: Action, rest: seq<Action>)
    requires Enabled(s, a)
    ensures Run(g, s, [a] + rest) == Run(g, Apply(g, s, a), rest)
  {
    assert ([a] + rest)[1..] == rest;
  }

  ghost predicate Reaches(g: Guard, s: State, t: State) {
    exists schedule :: Run(g, s, schedule) == Reached(t)
  }

  lemma ReachesBefore(g: Guard, s: State, a: Action, t: State)
    requires Enabled(s, a) && Reaches(g, Apply(g, s, a), t)
    ensures Reaches(g, s, t)
  {
    var rest :| Run(g, Apply(g, s, a), rest) == Reached(t);
    RunCons(g, s, a, rest);
  }

  ghost predicate Safe(g: Guard) {
    forall s: State :: AtEntry(s) && (s.queue != [] ==> WakeAssured(s)) ==> NeverStrands(g, s)
  }

  const FRESHLY_ENTERED := State(Testing, false, false, 0, [], {}, false, [], [], 0)

  /** A pass with no events and no functors, up to the point where functors would be called. */
  lemma QuietPass(g: Guard, t: State)
    requires Reaches(g, FRESHLY_ENTERED.(phase := Calling(0), calling := true), t)
    ensures Reaches(g, FRESHLY_ENTERED, t)
  {
    ReachesBefore(g, FRESHLY_ENTERED.(phase := Measuring, calling := true), TakeSize, t);
    ReachesBefore(g, FRESHLY_ENTERED.(phase := Expiring), EndTimers, t);
    ReachesBefore(g, FRESHLY_ENTERED.(phase := Dispatching(false)), EndHandlers, t);
    ReachesBefore(g, FRESHLY_ENTERED.(phase := Polling), PollReturn(false), t);
    ReachesBefore(g, FRESHLY_ENTERED, Test, t);
  }

  /** A pass during whose functor phase `push` queues something that earns no wake-up. */
  lemma StrandingPass(g: Guard, push: Action)
    requires push == LoopPush(1) || push == ForeignPush(0, 1)
    requires !g(push.LoopPush?, true)
    ensures !NeverStrands(g, FRESHLY_ENTERED)
  {
    var quiet := FRESHLY_ENTERED.(phase := Calling(0), calling := true);
    var pushed := quiet.(queue := [1], posted := [1]);
    var stranded := pushed.(phase := Polling, calling := false);
    assert Run(g, stranded, []) == Reached(stranded);
    ReachesBefore(g, stranded.(phase := Testing), Test, stranded);
    ReachesBefore(g, pushed, EndCalls, stranded);
    assert quiet.queue + [1] == [1];
    assert Apply(g, quiet, push) == pushed;
    ReachesBefore(g, quiet, push, stranded);
    QuietPass(g, stranded);
  }

  /** The test in `QueueInLoop` is exactly right: a guard is safe if and only if it writes in these
      three cases, and the code's guard writes in no other. */
  lemma GuardIsWeakest(g: Guard)
    ensures Safe(g) <==> Sufficient(g)
    ensures Safe(g) ==> forall inLoop, calling :: CODE_GUARD(inLoop, calling) ==> g(inLoop, calling)
    ensures Safe(CODE_GUARD)
  {
    if Sufficient(g) {
      forall s: State, schedule | AtEntry(s) && (s.queue != [] ==> WakeAssured(s))
        ensures match Run(g, s, schedule) case Reached(t) => NotStranded(t) case Stuck => true
      {
        RunKeepsInv(g, s, schedule);
      }
    } else if !g(true, true) {
      StrandingPass(g, LoopPush(1));
    } else if !g(false, true) {
      StrandingPass(g, ForeignPush(0, 1));
    } else {
      var polling := FRESHLY_ENTERED.(phase := Polling);
      var stranded := polling.(queue := [1], posted := [1]);
      assert polling.queue + [1] == [1];
      assert Run(g, stranded, []) == Reached(stranded);
      ReachesBefore(g, polling, ForeignPush(0, 1), stranded);
      ReachesBefore(g, FRESHLY_ENTERED, Test, stranded);
      assert !NeverStrands(g, FRESHLY_ENTERED);
    }
    forall s: State | AtEntry(s) && (s.queue != [] ==> WakeAssured(s)) ensures NeverStrands(CODE_GUARD, s) {
      NoFunctorStranded(s);
    }
  }

  /** What a pass owes the first `n` functors ever posted. */
  predicate OnTrack(s: State, n: nat) {
    && n <= |s.posted|
    && (s.phase.Calling? ==> n <= s.mark)
    && (s.phase.Testing? || s.phase.Outside? ==> n <= |s.ran|)
  }

  lemma StepStaysOnTrack(s: State, a: Action, n: nat)
    requires Inv(s) && OnTrack(s, n) && Enabled(s, a)
    ensures var t := Apply(CODE_GUARD, s, a); Inv(t) && OnTrack(t, n) && s.posted <= t.posted && s.ran <= t.ran
  {
    StepKeepsInv(CODE_GUARD, s, a);
  }

  lemma {:induction false} RunStaysOnTrack(s: State, schedule: seq<Action>, n: nat)
    requires Inv(s) && OnTrack(s, n)
    ensures match Run(CODE_GUARD, s, schedule)
            case Reached(t) => Inv(t) && OnTrack(t, n) && s.posted <= t.posted && s.ran <= t.ran
            case Stuck => true
    decreases |schedule|
  {
    if schedule != [] && Enabled(s, schedule[0]) {
      var next := Apply(CODE_GUARD, s, schedule[0]);
      hide Inv, OnTrack;
      StepStaysOnTrack(s, schedule[0], n);
      RunStaysOnTrack(next, schedule[1..], n);
    }
  }

  /** Everything posted before the size is read has run, once each and in the order posted, by the
      time the loop next tests `quit_`, however many more functors are queued meanwhile. */
  lemma PostedIsServed(s: State, schedule: seq<Action>)
    requires Inv(s)
    requires s.phase.Polling? || s.phase.Dispatching? || s.phase.Expiring? || s.phase.Measuring?
    ensures match Run(CODE_GUARD, s, schedule)
            case Reached(t) => (t.phase.Testing? || t.phase.Outside? ==> s.posted <= t.ran) && t.ran <= t.posted
            case Stuck => true
  {
    RunStaysOnTrack(s, schedule, |s.posted|);
    match Run(CODE_GUARD, s, schedule)
    case Reached(t) => assert s.posted == t.posted[..|s.posted|];
    case Stuck =>
  }

  /** The functors that a schedule queues, on any thread. */
  function Pushed(schedule: seq<Action>): seq<Functor> {
    if schedule == [] then []
    else
      (match schedule[0]
       case LoopPush(f) => [f]
       case ForeignPush(_, f) => [f]
       case _ => [])
      + Pushed(schedule[1..])
  }

  lemma Regroup(a: seq<Functor>, b: seq<Functor>, c: seq<Functor>)
    ensures (a + b) + c == a + (b + c)
  {
  }

  lemma PushedStep(s: State, a: Action)
    requires Enabled(s, a)
    ensures var t := Apply(CODE_GUARD, s, a);
            t.ran + t.queue == (s.ran + s.queue) + Pushed([a]) && t.posted == s.posted + Pushed([a])
  {
    assert s.queue != [] ==> s.queue == [s.queue[0]] + s.queue[1..];
    assert [a][1..] == [];
  }

  /** Over every schedule: nothing that is queued gets lost, run twice, or run out of order. */
  lemma {:induction false} FunctorsAreConserved(s: State, schedule: seq<Action>)
    ensures match Run(CODE_GUARD, s, schedule)
            case Reached(t) =>
              t.ran + t.queue == (s.ran + s.queue) + Pushed(schedule) && t.posted == s.posted + Pushed(schedule)
            case Stuck => true
    decreases |schedule|
  {
    if schedule != [] && Enabled(s, schedule[0]) {
      var a, rest := schedule[0], schedule[1..];
      PushedStep(s, a);
      FunctorsAreConserved(Apply(CODE_GUARD, s, a), rest);
      assert Pushed(schedule) == Pushed([a]) + Pushed(rest) by { assert [a][1..] == []; }
      hide Apply, Enabled, Pushed;
      Regroup(s.ran + s.queue, Pushed([a]), Pushed(rest));
      Regroup(s.posted, Pushed([a]), Pushed(rest));
    }
  }

  /** How often a schedule passes through each stage of a turn. */
  datatype Stages = Stages(
    tests: nat, polls: nat, reports: nat, drains: nat, handlers: nat, timers: nat, sizes: nat, calls: nat)

  function Counted(a: Action, n: Stages): Stages {
    match a
    case Test => n.(tests := n.tests + 1)
    case PollReturn(reported) => n.(polls := n.polls + 1, reports := n.reports + One(reported))
    case ReadEventfd => n.(drains := n.drains + 1)
    case EndHandlers => n.(handlers := n.handlers + 1)
    case EndTimers => n.(timers := n.timers + 1)
    case TakeSize => n.(sizes := n.sizes + 1)
    case EndCalls => n.(calls := n.calls + 1)
    case _ => n
  }

  function Passed(schedule: seq<Action>): Stages {
    if schedule == [] then Stages(0, 0, 0, 0, 0, 0, 0, 0) else Counted(schedule[0], Passed(schedule[1..]))
  }

  function One(b: bool): nat {
    if b then 1 else 0
  }

  /** From `s` to `t` each stage is followed by the next, and each wake-up reported is read. */
  predicate Whole(s: State, t: State, n: Stages) {
    && n.polls + One(s.phase.Dispatching?) == n.handlers + One(t.phase.Dispatching?)
    && n.reports + One(s.phase == Dispatching(true)) == n.drains + One(t.phase == Dispatching(true))
    && n.handlers + One(s.phase.Expiring?) == n.timers + One(t.phase.Expiring?)
    && n.timers + One(s.phase.Measuring?) == n.sizes + One(t.phase.Measuring?)
    && n.sizes + One(s.phase.Calling?) == n.calls + One(t.phase.Calling?)
    && n.calls + One(s.phase.Testing?) == n.tests + One(t.phase.Testing?)
  }

  lemma WholeStep(s: State, a: Action, t: State, n: Stages)
    requires Enabled(s, a) && Whole(Apply(CODE_GUARD, s, a), t, n)
    ensures Whole(s, t, Counted(a, n))
  {
  }

  /** Over every schedule the loop goes round and round: each poll is followed by the handlers, then the timers,
      then the functors, then the test. */
  lemma {:induction false} TurnsAreWhole(s: State, schedule: seq<Action>)
    ensures match Run(CODE_GUARD, s, schedule) case Reached(t) => Whole(s, t, Passed(schedule)) case Stuck => true
    decreases |schedule|
  {
    if schedule != [] && Enabled(s, schedule[0]) {
      var a, next := schedule[0], Apply(CODE_GUARD, s, schedule[0]);
      TurnsAreWhole(next, schedule[1..]);
      match Run(CODE_GUARD, s, schedule)
      case Reached(t) => WholeStep(s, a, t, Passed(schedule[1..]));
      case Stuck =>
    }
  }

  predicate Quits(a: Action) {
    a.LoopQuit? || a.ForeignQuit?
  }

  /** Somebody, on any thread, asks the loop to quit. */
  predicate Requested(schedule: seq<Action>) {
    exists i :: 0 <= i < |schedule| && Quits(schedule[i])
  }

  lemma RequestedLater(a: Action, rest: seq<Action>)
    ensures Requested([a] + rest) <==> Quits(a) || Requested(rest)
  {
    var all := [a] + rest;
    assert all[0] == a && forall i :: 0 <= i < |rest| ==> all[i + 1] == rest[i];
    if i :| 0 <= i < |all| && Quits(all[i]) {
      assert i > 0 ==> all[i] == rest[i - 1];
    }
  }

  /** The loop is asked to quit exactly by such a step, and is outside only if it was. */
  lemma {:induction false} QuitIsRequested(s: State, schedule: seq<Action>)
    requires s.phase.Outside? ==> s.quit
    ensures match Run(CODE_GUARD, s, schedule)
            case Reached(t) => (t.quit <==> s.quit || Requested(schedule)) && (t.phase.Outside? ==> t.quit)
            case Stuck => true
    decreases |schedule|
  {
    if schedule != [] && Enabled(s, schedule[0]) {
      var a, rest := schedule[0], schedule[1..];
      QuitIsRequested(Apply(CODE_GUARD, s, a), rest);
      RequestedLater(a, rest);
      assert schedule == [a] + rest;
    }
  }

  /** A running loop is outside only after such a request, and leaves exactly at the first test after it. */
  lemma LoopEndsExactlyOnRequest(s: State, schedule: seq<Action>)
    requires AtEntry(s)
    ensures match Run(CODE_GUARD, s, schedule)
            case Reached(t) =>
              && (t.phase.Outside? ==> Requested(schedule))
              && (t.phase.Testing? ==>
                    Enabled(t, Test) && Apply(CODE_GUARD, t, Test).phase == if Requested(schedule) then Outside else Polling)
            case Stuck => true
  {
    QuitIsRequested(s, schedule);
  }

  function Pops(schedule: seq<Action>): nat {
    if schedule == [] then 0 else (if schedule[0].PopAndRun? then 1 else 0) + Pops(schedule[1..])
  }

  lemma {:induction false} CallsCountDown(s: State, schedule: seq<Action>)
    requires Inv(s) && s.phase.Calling? && EndCalls !in schedule
    ensures match Run(CODE_GUARD, s, schedule)
            case Reached(t) =>
              && Inv(t) && t.phase.Calling? && t.mark == s.mark && s.posted <= t.posted
              && t.phase.remaining + Pops(schedule) == s.phase.remaining
            case Stuck => true
    decreases |schedule|
  {
    if schedule != [] && Enabled(s, schedule[0]) {
      StepKeepsInv(CODE_GUARD, s, schedule[0]);
      CallsCountDown(Apply(CODE_GUARD, s, schedule[0]), schedule[1..]);
    }
  }

  /** `CallPendingFunctors` makes exactly as many pops as it measured, runs exactly the functors
      then queued, and `Pop` always finds one, even if every functor queues another. */
  lemma PassRunsTheSnapshot(s: State, calls: seq<Action>)
    requires Inv(s) && s.phase.Measuring? && EndCalls !in calls
    ensures match Run(CODE_GUARD, Apply(CODE_GUARD, s, TakeSize), calls)
            case Reached(t) =>
              && (t.phase.Calling? && (t.phase.remaining > 0 ==> t.queue != []))
              && (Enabled(t, EndCalls) ==> Pops(calls) == |s.queue| && t.ran == s.ran + s.queue)
            case Stuck => true
  {
    var first := Apply(CODE_GUARD, s, TakeSize);
    StepKeepsInv(CODE_GUARD, s, TakeSize);
    CallsCountDown(first, calls);
    match Run(CODE_GUARD, first, calls)
    case Reached(t) => assert t.phase.remaining == 0 ==> t.ran == t.posted[..|t.ran|] == s.posted;
    case Stuck =>
  }

  lemma {:induction false} RunAppend(g: Guard, s: State, schedule: seq<Action>, a: Action)
    ensures match Run(g, s, schedule)
            case Reached(t) => Enabled(t, a) ==> Run(g, s, schedule + [a]) == Reached(Apply(g, t, a))
            case Stuck => true
    decreases |schedule|
  {
    if schedule == [] {
      if Enabled(s, a) {
        RunCons(g, s, a, []);
        assert [a] + [] == schedule + [a];
      }
    } else if Enabled(s, schedule[0]) {
      RunAppend(g, Apply(g, s, schedule[0]), schedule[1..], a);
      assert (schedule + [a])[1..] == schedule[1..] + [a];
    }
  }

  lemma ReachesItself(s: State)
    ensures Reaches(CODE_GUARD, s, s)
  {
    assert Run(CODE_GUARD, s, []) == Reached(s);
  }

  lemma ReachesAfter(s: State, t: State, a: Action)
    requires Reaches(CODE_GUARD, s, t) && Enabled(t, a)
    ensures Reaches(CODE_GUARD, s, Apply(CODE_GUARD, t, a))
  {
    var schedule :| Run(CODE_GUARD, s, schedule) == Reached(t);
    RunAppend(CODE_GUARD, s, schedule, a);
  }

  lemma ReachedIsServed(s: State, t: State)
    requires Inv(s) && s.phase.Polling? && t.phase.Testing? && Reaches(CODE_GUARD, s, t)
    ensures s.posted <= t.ran
  {
    var schedule :| Run(CODE_GUARD, s, schedule) == Reached(t);
    PostedIsServed(s, schedule);
  }

  /** The loop thread's own statements. Between any two of them foreign threads may take steps, and
      user code runs wherever the loop calls back. Every method only lengthens a run of the machine
      above that began in `origin`. */
  class EventLoop {
    var phase: Phase
    var calling: bool
    var quit: bool
    var counter: nat
    var queue: seq<Functor>
    var owing: set<Thread>
    var selfOwing: bool
    var posted: seq<Functor>
    var ran: seq<Functor>
    var mark: nat

    function View(): State
      reads this
    {
      State(phase, calling, quit, counter, queue, owing, selfOwing, posted, ran, mark)
    }

    ghost predicate From(origin: State)
      reads this
    {
      Inv(View()) && Reaches(CODE_GUARD, origin, View())
    }

    ghost method Took(origin: State, before: State, a: Action)
      requires Inv(before) && Reaches(CODE_GUARD, origin, before) && Enabled(before, a)
      requires View() == Apply(CODE_GUARD, before, a)
      ensures From(origin)
    {
      StepKeepsInv(CODE_GUARD, before, a);
      ReachesAfter(origin, before, a);
    }

    /** One step of some foreign thread: it pushes, asks to quit, or writes the eventfd. */
    method ForeignStep(ghost origin: State)
      requires From(origin)
      modifies this
      ensures From(origin)
      ensures phase == old(phase) && calling == old(calling) && selfOwing == old(selfOwing)
      ensures old(queue) <= queue && ran == old(ran) && mark == old(mark)
    {
      ghost var before := View();
      var t: Thread, f: Functor := *, *;
      if
      case t !in owing =>
        queue, posted, owing := queue + [f], posted + [f], owing + {t};
        Took(origin, before, ForeignPush(t, f));
      case t !in owing =>
        quit, owing := true, owing + {t};
        Took(origin, before, ForeignQuit(t));
      case t in owing =>
        counter, owing := Written(counter), owing - {t};
        Took(origin, before, ForeignWrite(t));
    }

    method Interfere(ghost origin: State)
      requires From(origin)
      modifies this
      ensures From(origin)
      ensures phase == old(phase) && calling == old(calling) && selfOwing == old(selfOwing)
      ensures old(queue) <= queue && ran == old(ran) && mark == old(mark)
    {
      var steps: nat :| true;
      for step := 0 to steps
        invariant From(origin)
        invariant phase == old(phase) && calling == old(calling) && selfOwing == old(selfOwing)
        invariant old(queue) <= queue && ran == old(ran) && mark == old(mark)
      {
        ForeignStep(origin);
      }
    }

    /** `QueueInLoop` called on the loop thread. */
    method QueueInLoop(f: Functor, ghost origin: State)
      requires From(origin) && UserCode(phase) && !selfOwing
      modifies this
      ensures From(origin) && !selfOwing
      ensures phase == old(phase) && ran == old(ran) && mark == old(mark)
      ensures old(queue) + [f] <= queue
    {
      ghost var before := View();
      queue, posted, selfOwing := queue + [f], posted + [f], calling;
      Took(origin, before, LoopPush(f));
      Interfere(origin);
      if CODE_GUARD(true, calling) {
        ghost var unwritten := View();
        counter, selfOwing := Written(counter), false;
        Took(origin, unwritten, LoopWrite);
      }
    }

    /** A callback of the user's, free to queue more functors and to quit. */
    method UserCallback(ghost origin: State)
      requires From(origin) && UserCode(phase) && !selfOwing
      modifies this
      ensures From(origin) && !selfOwing
      ensures phase == old(phase) && ran == old(ran) && mark == old(mark) && old(queue) <= queue
    {
      var steps: nat :| true;
      for step := 0 to steps
        invariant From(origin) && !selfOwing
        invariant phase == old(phase) && ran == old(ran) && mark == old(mark) && old(queue) <= queue
      {
        if
        case true =>
          var f: Functor := *;
          QueueInLoop(f, origin);
        case true =>
          ghost var before := View();
          quit := true;
          Took(origin, before, LoopQuit);
        case true =>
          Interfere(origin);
      }
    }

    /** One pop finds a functor, and it runs; its callback may queue more. */
    method PopAndCall(ghost origin: State)
      requires From(origin) && !selfOwing && phase.Calling? && phase.remaining > 0
      modifies this
      ensures From(origin) && !selfOwing && phase == Calling(old(phase).remaining - 1)
      ensures old(queue) != [] && ran == old(ran) + [old(queue)[0]] && old(queue)[1..] <= queue
    {
      Interfere(origin);
      ghost var before := View();
      queue, ran, phase := queue[1..], ran + [queue[0]], Calling(phase.remaining - 1);
      Took(origin, before, PopAndRun);
      UserCallback(origin);
    }

    /** Raises the flag and reads the queue's size, between which others may still queue. */
    method MeasurePending(ghost origin: State) returns (size: nat)
      requires From(origin) && phase.Expiring? && !selfOwing
      modifies this
      ensures From(origin) && phase == Calling(size) && size == |queue| && !selfOwing
      ensures ran == old(ran) && old(queue) <= queue
    {
      ghost var before := View();
      calling, phase := true, Measuring;
      Took(origin, before, EndTimers);
      Interfere(origin);
      before := View();
      size := |queue|;
      phase, mark := Calling(size), |posted|;
      Took(origin, before, TakeSize);
    }

    /** The `for` loop: as many pops as were measured, of the functors then queued. */
    method CallMeasured(size: nat, ghost origin: State)
      requires From(origin) && phase == Calling(size) && size == |queue| && !selfOwing
      modifies this
      ensures From(origin) && phase == Calling(0) && !selfOwing
      ensures ran == old(ran) + old(queue)
    {
      ghost var snapshot, ranBefore := queue, ran;
      for i := 0 to size
        invariant From(origin) && !selfOwing && phase == Calling(size - i)
        invariant ran == ranBefore + snapshot[..i] && snapshot[i..] <= queue
      {
        PopAndCall(origin);
        assert snapshot[..i + 1] == snapshot[..i] + [snapshot[i]];
      }
      assert snapshot[..size] == snapshot;
    }

    /** Runs what was queued when the size is read, whatever the functors and other threads queue. */
    method CallPendingFunctors(ghost origin: State)
      requires From(origin) && phase.Expiring? && !selfOwing
      modifies this
      ensures From(origin) && phase.Testing?
      ensures old(ran) + old(queue) <= ran
    {
      var size := MeasurePending(origin);
      CallMeasured(size, origin);
      Interfere(origin);
      ghost var before := View();
      calling, phase := false, Testing;
      Took(origin, before, EndCalls);
    }

    /** The loop's test: it goes on to poll exactly if nobody has asked it to quit. */
    method TestQuit(ghost origin: State) returns (again: bool)
      requires From(origin) && phase.Testing?
      modifies this
      ensures From(origin) && again == !quit && phase == (if again then Polling else Outside)
    {
      ghost var before := View();
      again := !quit;
      phase := if again then Polling else Outside;
      Took(origin, before, Test);
    }

    /** Poll, and run the handlers of whatever was reported, the eventfd's among them. */
    method PollAndDispatch(ghost origin: State)
      requires From(origin) && phase.Polling? && !selfOwing
      modifies this
      ensures From(origin) && phase == Dispatching(false) && !selfOwing
    {
      Interfere(origin);
      ghost var before := View();
      var reported: bool := *;
      reported := reported && counter > 0;
      phase := Dispatching(reported);
      Took(origin, before, PollReturn(reported));
      UserCallback(origin);
      if reported {
        DrainEventfd(origin);
        UserCallback(origin);
      }
    }

    method DrainEventfd(ghost origin: State)
      requires From(origin) && phase == Dispatching(true) && !selfOwing
      modifies this
      ensures From(origin) && phase == Dispatching(false) && !selfOwing && counter == 0
    {
      ghost var before := View();
      counter, phase := 0, Dispatching(false);
      Took(origin, before, ReadEventfd);
    }

    /** The body of `while (!quit_)`: poll, handlers, timers, functors. Whatever was posted when the
        loop went to poll has run when it next tests `quit_`. */
    method Iterate()
      requires Inv(View()) && phase.Polling?
      modifies this
      ensures Inv(View()) && phase.Testing? && Reaches(CODE_GUARD, old(View()), View())
      ensures old(posted) <= ran
    {
      ghost var origin := View();
      ReachesItself(origin);
      PollAndDispatch(origin);
      ghost var before := View();
      phase := Expiring;
      Took(origin, before, EndHandlers);
      UserCallback(origin);
      CallPendingFunctors(origin);
      ReachedIsServed(origin, View());
    }
  }
}
