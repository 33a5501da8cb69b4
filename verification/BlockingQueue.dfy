/** The bounded queue as a monitor: one mutex, two condition variables with single `Notify`, and the
    WakeUp/Restore mode. A step is one stretch of code that holds the mutex: from entering the method,
    or from returning out of `pthread_cond_wait`, to parking or leaving. */
module BlockingQueues {
  type Thread = nat

  datatype Monitor<!T(==)> = Monitor(
    queue: seq<T>,
    maxsize: nat,                    // 0 means no limit
    wakeup: bool,
    popParked: set<Thread>,          // blocked on not_empty_, not signalled
    popWoken: set<Thread>,           // released from not_empty_, predicate not yet re-tested
    pushParked: set<Thread>,         // blocked on not_full_, not signalled
    pushWoken: set<Thread>,
    holding: map<Thread, T>,         // the argument of each thread inside Push
    accepted: seq<T>,                // history: items whose Push enqueued them
    popped: seq<T>)                  // history: items Pop returned, in order
  {
    predicate MayPop() {
      wakeup || queue != []
    }

    predicate MayPush() {
      wakeup || maxsize == 0 || |queue| < maxsize
    }

    predicate Waiting(t: Thread) {
      t in popParked || t in popWoken || t in pushParked || t in pushWoken
    }
  }

  /** What a stretch of `Pop` or `Push` came to. */
  datatype Result<+T> = Parked | Woken | Done(item: T)

  /** `pthread_cond_signal` releases at least one of the threads blocked, if any are. */
  predicate Signals(released: set<Thread>, parked: set<Thread>) {
    released <= parked && (parked != {} ==> released != {})
  }

  datatype Action<!T(==)> =
    | PopEnter(t: Thread, released: set<Thread>)
    | PopResume(t: Thread, released: set<Thread>)
    | PushEnter(t: Thread, x: T, released: set<Thread>)
    | PushResume(t: Thread, released: set<Thread>)
    | SpuriousPop(t: Thread)
    | SpuriousPush(t: Thread)
    | WakeUp
    | Restore

  /** The loop test of `Condition::Wait(pred)` and, if it passes, the rest of `Pop`. */
  function PopBody<T>(m: Monitor<T>, t: Thread, released: set<Thread>): (Monitor<T>, Result<T>) {
    if !m.MayPop() then (m.(popParked := m.popParked + {t}), Parked)
    else if m.wakeup then (m, Woken)
    else
      (m.(queue := m.queue[1..],
          popped := m.popped + [m.queue[0]],
          pushParked := m.pushParked - released,
          pushWoken := m.pushWoken + released),
       Done(m.queue[0]))
  }

  function PushBody<T>(m: Monitor<T>, t: Thread, x: T, released: set<Thread>): (Monitor<T>, Result<T>) {
    if !m.MayPush() then (m.(pushParked := m.pushParked + {t}, holding := m.holding[t := x]), Parked)
    else if m.wakeup then (m, Woken)
    else
      (m.(queue := m.queue + [x],
          accepted := m.accepted + [x],
          popParked := m.popParked - released,
          popWoken := m.popWoken + released),
       Done(x))
  }

  predicate Enabled<T>(m: Monitor<T>, a: Action<T>) {
    match a
    case PopEnter(t, released) => !m.Waiting(t) && Signals(released, m.pushParked)
    case PopResume(t, released) => t in m.popWoken && Signals(released, m.pushParked)
    case PushEnter(t, x, released) => !m.Waiting(t) && Signals(released, m.popParked)
    case PushResume(t, released) => t in m.pushWoken && t in m.holding && Signals(released, m.popParked)
    case SpuriousPop(t) => t in m.popParked
    case SpuriousPush(t) => t in m.pushParked
    case WakeUp => true
    case Restore => true
  }

  function Apply<T>(m: Monitor<T>, a: Action<T>): Monitor<T>
    requires Enabled(m, a)
  {
    match a
    case PopEnter(t, released) => PopBody(m, t, released).0
    case PopResume(t, released) => PopBody(m.(popWoken := m.popWoken - {t}), t, released).0
    case PushEnter(t, x, released) => PushBody(m, t, x, released).0
    case PushResume(t, released) => PushBody(m.(pushWoken := m.pushWoken - {t}), t, m.holding[t], released).0
    case SpuriousPop(t) => m.(popParked := m.popParked - {t}, popWoken := m.popWoken + {t})
    case SpuriousPush(t) =>
      m.(pushParked := m.pushParked - {t}, pushWoken := m.pushWoken + {t})
    case WakeUp =>
      m.(wakeup := true,
         popParked := {}, popWoken := m.popWoken + m.popParked,
         pushParked := {}, pushWoken := m.pushWoken + m.pushParked)
    case Restore => m.(wakeup := false)
  }

  predicate Disjoint<T>(m: Monitor<T>) {
    && m.popParked !! m.popWoken && m.popParked !! m.pushParked && m.popParked !! m.pushWoken
    && m.popWoken !! m.pushParked && m.popWoken !! m.pushWoken && m.pushParked !! m.pushWoken
  }

  /** The invariant, short of `pops` consumers and `pushes` producers that are running their body. */
  predicate InvBut<T>(m: Monitor<T>, pops: nat, pushes: nat) {
    && m.accepted == m.popped + m.queue
    && (m.maxsize > 0 ==> |m.queue| <= m.maxsize)
    && (m.wakeup ==> m.popParked == {} && m.pushParked == {})
    && (m.popParked != {} ==> pops + |m.popWoken| >= |m.queue|)
    && (m.pushParked != {} ==> m.maxsize > 0 && pushes + |m.pushWoken| + |m.queue| >= m.maxsize)
    && Disjoint(m)
    && m.pushParked + m.pushWoken <= m.holding.Keys
  }

  /** While some consumer sleeps unsignalled, as many consumers are on their way as there are items;
      while some producer does, as many producers are on their way as there are free slots. */
  predicate Inv<T>(m: Monitor<T>) {
    InvBut(m, 0, 0)
  }

  function Empty<T>(maxsize: nat): Monitor<T> {
    Monitor([], maxsize, false, {}, {}, {}, {}, map[], [], [])
  }

  lemma PopBodyKeepsInv<T>(m: Monitor<T>, t: Thread, released: set<Thread>)
    requires InvBut(m, 1, 0) && !m.Waiting(t) && Signals(released, m.pushParked)
    ensures Inv(PopBody(m, t, released).0)
  {
    var m' := PopBody(m, t, released).0;
    if m.MayPop() && !m.wakeup {
      assert m.popped + m.queue == m'.popped + m'.queue;
      assert |m.pushWoken + released| == |m.pushWoken| + |released|;
    }
  }

  lemma PushBodyKeepsInv<T>(m: Monitor<T>, t: Thread, x: T, released: set<Thread>)
    requires InvBut(m, 0, 1) && !m.Waiting(t) && Signals(released, m.popParked)
    ensures Inv(PushBody(m, t, x, released).0)
  {
    var m' := PushBody(m, t, x, released).0;
    if m.MayPush() && !m.wakeup {
      assert m.accepted + [x] == m'.popped + m'.queue;
      assert |m.popWoken + released| == |m.popWoken| + |released|;
    }
  }

  lemma PopResumeKeepsInv<T>(m: Monitor<T>, t: Thread, released: set<Thread>)
    requires Inv(m) && Enabled(m, PopResume(t, released))
    ensures Inv(Apply(m, PopResume(t, released)))
  {
    var leaving := m.(popWoken := m.popWoken - {t});
    assert |m.popWoken| == |leaving.popWoken| + 1;
    PopBodyKeepsInv(leaving, t, released);
  }

  lemma PushResumeKeepsInv<T>(m: Monitor<T>, t: Thread, released: set<Thread>)
    requires Inv(m) && Enabled(m, PushResume(t, released))
    ensures Inv(Apply(m, PushResume(t, released)))
  {
    var leaving := m.(pushWoken := m.pushWoken - {t});
    assert |m.pushWoken| == |leaving.pushWoken| + 1;
    PushBodyKeepsInv(leaving, t, m.holding[t], released);
  }

  lemma SpuriousKeepsInv<T>(m: Monitor<T>, t: Thread)
    requires Inv(m)
    ensures t in m.popParked ==> Inv(Apply(m, SpuriousPop(t)))
    ensures t in m.pushParked ==> Inv(Apply(m, SpuriousPush(t)))
  {
    if t in m.popParked { assert |m.popWoken + {t}| == |m.popWoken| + 1; }
    if t in m.pushParked { assert |m.pushWoken + {t}| == |m.pushWoken| + 1; }
  }

  lemma StepKeepsInv<T>(m: Monitor<T>, a: Action<T>)
    requires Inv(m) && Enabled(m, a)
    ensures Inv(Apply(m, a))
  {
    match a
    case PopEnter(t, released) => PopBodyKeepsInv(m, t, released);
    case PopResume(t, released) => PopResumeKeepsInv(m, t, released);
    case PushEnter(t, x, released) => PushBodyKeepsInv(m, t, x, released);
    case PushResume(t, released) => PushResumeKeepsInv(m, t, released);
    case SpuriousPop(t) => SpuriousKeepsInv(m, t);
    case SpuriousPush(t) => SpuriousKeepsInv(m, t);
    case WakeUp =>
    case Restore =>
  }

  datatype Outcome<!T(==)> = Stuck | Reached(state: Monitor<T>)

  function Run<T>(m: Monitor<T>, schedule: seq<Action<T>>): Outcome<T>
    decreases |schedule|
  {
    if schedule == [] then Reached(m)
    else if Enabled(m, schedule[0]) then Run(Apply(m, schedule[0]), schedule[1..])
    else Stuck
  }

  lemma StepGrows<T>(m: Monitor<T>, a: Action<T>)
    requires Enabled(m, a)
    ensures var m' := Apply(m, a);
            m.popped <= m'.popped && m.accepted <= m'.accepted && m'.maxsize == m.maxsize
  {
  }

  lemma {:induction false} RunKeepsInv<T>(m: Monitor<T>, schedule: seq<Action<T>>)
    requires Inv(m)
    ensures match Run(m, schedule)
            case Reached(r) => Inv(r) && r.maxsize == m.maxsize && m.popped <= r.popped && m.accepted <= r.accepted
            case Stuck => true
    decreases |schedule|
  {
    if schedule != [] && Enabled(m, schedule[0]) {
      StepKeepsInv(m, schedule[0]);
      StepGrows(m, schedule[0]);
      RunKeepsInv(Apply(m, schedule[0]), schedule[1..]);
    }
  }

  /** In every interleaving, with barging, spurious wake-ups and WakeUp/Restore: a sleeper whose
      predicate holds always has a runnable thread of its own kind ahead of it, at least one for each
      item (or free slot); so once nobody is runnable, every sleeper's predicate is false and
      consumers and producers are not asleep together. */
  lemma NoLostWakeup<T>(maxsize: nat, schedule: seq<Action<T>>)
    ensures match Run(Empty<T>(maxsize), schedule)
            case Reached(m) =>
              && (m.popParked != {} ==> !m.wakeup && |m.popWoken| >= |m.queue|)
              && (m.pushParked != {} ==> !m.wakeup && maxsize > 0 && |m.pushWoken| >= maxsize - |m.queue|)
              && (m.popParked != {} && m.MayPop() ==> m.popWoken != {})
              && (m.pushParked != {} && m.MayPush() ==> m.pushWoken != {})
              && (m.popWoken == {} && m.pushWoken == {} ==> m.popParked == {} || m.pushParked == {})
            case Stuck => true
  {
    RunKeepsInv(Empty<T>(maxsize), schedule);
  }

  /** Items come out once each, in the order they went in, and a bound is never exceeded. */
  lemma ItemsAreConserved<T>(maxsize: nat, schedule: seq<Action<T>>)
    ensures match Run(Empty<T>(maxsize), schedule)
            case Reached(m) => m.accepted == m.popped + m.queue && (maxsize > 0 ==> |m.queue| <= maxsize)
            case Stuck => true
  {
    RunKeepsInv(Empty<T>(maxsize), schedule);
  }

  /** A call of `Push`, or its return from a wait, puts its item behind the others exactly when there is room
      (always, without a bound), parks exactly when there is none, and gives up only in wake-up mode. */
  lemma PushIsExact<T>(m: Monitor<T>, a: Action<T>)
    requires Inv(m) && Enabled(m, a) && (a.PushEnter? || a.PushResume?)
    ensures var r := Apply(m, a); var x := if a.PushEnter? then a.x else m.holding[a.t];
            var room := m.maxsize == 0 || |m.queue| < m.maxsize;
            && (m.wakeup ==> r.queue == m.queue && !r.Waiting(a.t))
            && (!m.wakeup && room ==> r.queue == m.queue + [x] && r.accepted == m.accepted + [x] && !r.Waiting(a.t))
            && (!m.wakeup && !room ==> r.queue == m.queue && a.t in r.pushParked && a.t in r.holding && r.holding[a.t] == x)
  {
  }

  /** `Pop` likewise: it takes the oldest item exactly when there is one, and parks exactly when there is none. */
  lemma PopIsExact<T>(m: Monitor<T>, a: Action<T>)
    requires Inv(m) && Enabled(m, a) && (a.PopEnter? || a.PopResume?)
    ensures var r := Apply(m, a);
            && (m.wakeup ==> r.queue == m.queue && !r.Waiting(a.t))
            && (!m.wakeup && m.queue != [] ==> m.queue == [r.popped[|m.popped|]] + r.queue && !r.Waiting(a.t))
            && (!m.wakeup && m.queue == [] ==> r.queue == [] && a.t in r.popParked)
  {
  }

  /** A waiting producer keeps its item until it goes on. */
  lemma WaitingKeepsItem<T>(m: Monitor<T>, a: Action<T>, t: Thread)
    requires Inv(m) && Enabled(m, a) && (t in m.pushParked || t in m.pushWoken) && !(a.PushResume? && a.t == t)
    ensures var r := Apply(m, a); (t in r.pushParked || t in r.pushWoken) && t in r.holding && r.holding[t] == m.holding[t]
  {
  }

  function PushCalls<T>(schedule: seq<Action<T>>): nat {
    if schedule == [] then 0 else (if schedule[0].PushEnter? then 1 else 0) + PushCalls(schedule[1..])
  }

  function PopCalls<T>(schedule: seq<Action<T>>): nat {
    if schedule == [] then 0 else (if schedule[0].PopEnter? then 1 else 0) + PopCalls(schedule[1..])
  }

  function Inside<T>(m: Monitor<T>): (int, int) {
    (|m.accepted| + |m.pushParked| + |m.pushWoken|, |m.popped| + |m.popParked| + |m.popWoken|)
  }

  lemma PushBodyCounts<T>(m: Monitor<T>, t: Thread, x: T, released: set<Thread>)
    requires Disjoint(m) && !m.wakeup && !m.Waiting(t) && released <= m.popParked
    ensures Inside(PushBody(m, t, x, released).0) == (Inside(m).0 + 1, Inside(m).1) && !PushBody(m, t, x, released).0.wakeup
  {
    assert |m.popWoken + released| == |m.popWoken| + |released|;
    assert |m.popParked - released| == |m.popParked| - |released|;
  }

  lemma PopBodyCounts<T>(m: Monitor<T>, t: Thread, released: set<Thread>)
    requires Disjoint(m) && !m.wakeup && !m.Waiting(t) && released <= m.pushParked
    ensures Inside(PopBody(m, t, released).0) == (Inside(m).0, Inside(m).1 + 1) && !PopBody(m, t, released).0.wakeup
  {
    assert |m.pushWoken + released| == |m.pushWoken| + |released|;
    assert |m.pushParked - released| == |m.pushParked| - |released|;
  }

  lemma PushResumeCounts<T>(m: Monitor<T>, t: Thread, released: set<Thread>)
    requires Disjoint(m) && Enabled(m, PushResume(t, released)) && !m.wakeup
    ensures Inside(Apply(m, PushResume(t, released))) == Inside(m) && !Apply(m, PushResume(t, released)).wakeup
  {
    hide Inside, PushBody;
    LeavingCounts(m, t);
    PushBodyCounts(m.(pushWoken := m.pushWoken - {t}), t, m.holding[t], released);
  }

  lemma PopResumeCounts<T>(m: Monitor<T>, t: Thread, released: set<Thread>)
    requires Disjoint(m) && Enabled(m, PopResume(t, released)) && !m.wakeup
    ensures Inside(Apply(m, PopResume(t, released))) == Inside(m) && !Apply(m, PopResume(t, released)).wakeup
  {
    hide Inside, PopBody;
    LeavingCounts(m, t);
    PopBodyCounts(m.(popWoken := m.popWoken - {t}), t, released);
  }

  lemma StepCounts<T>(m: Monitor<T>, a: Action<T>)
    requires Inv(m) && Enabled(m, a) && !m.wakeup && !a.WakeUp?
    ensures !Apply(m, a).wakeup
    ensures Inside(Apply(m, a)) == (Inside(m).0 + (if a.PushEnter? then 1 else 0), Inside(m).1 + (if a.PopEnter? then 1 else 0))
  {
    assert Disjoint(m);
    hide Inv, InvBut, Inside, PushBody, PopBody;
    match a
    case PushEnter(t, x, released) => PushBodyCounts(m, t, x, released);
    case PopEnter(t, released) => PopBodyCounts(m, t, released);
    case PushResume(t, released) => PushResumeCounts(m, t, released);
    case PopResume(t, released) => PopResumeCounts(m, t, released);
    case _ => OtherStepCounts(m, a);
  }

  lemma LeavingCounts<T>(m: Monitor<T>, t: Thread)
    ensures t in m.pushWoken ==> Inside(m.(pushWoken := m.pushWoken - {t})) == (Inside(m).0 - 1, Inside(m).1)
    ensures t in m.popWoken ==> Inside(m.(popWoken := m.popWoken - {t})) == (Inside(m).0, Inside(m).1 - 1)
  {
    assert t in m.pushWoken ==> |m.pushWoken - {t}| == |m.pushWoken| - 1;
    assert t in m.popWoken ==> |m.popWoken - {t}| == |m.popWoken| - 1;
  }

  lemma OtherStepCounts<T>(m: Monitor<T>, a: Action<T>)
    requires Disjoint(m) && Enabled(m, a) && (a.SpuriousPop? || a.SpuriousPush? || a.Restore?)
    ensures Inside(Apply(m, a)) == Inside(m) && (!m.wakeup ==> !Apply(m, a).wakeup)
  {
    if !a.Restore? {
      assert a.SpuriousPop? ==> |m.popParked - {a.t}| == |m.popParked| - 1 && |m.popWoken + {a.t}| == |m.popWoken| + 1;
      assert a.SpuriousPush? ==> |m.pushParked - {a.t}| == |m.pushParked| - 1 && |m.pushWoken + {a.t}| == |m.pushWoken| + 1;
    }
  }

  /** No call gets lost: as long as nobody calls `WakeUp`, the pushes called are those whose item was accepted and
      those still waiting, and the pops called those that returned an item and those still waiting. */
  lemma {:induction false} CallsAreAccounted<T>(m: Monitor<T>, schedule: seq<Action<T>>)
    requires Inv(m) && !m.wakeup && Action.WakeUp !in schedule
    ensures match Run(m, schedule)
            case Reached(r) =>
              !r.wakeup && Inside(r) == (Inside(m).0 + PushCalls(schedule), Inside(m).1 + PopCalls(schedule))
            case Stuck => true
    decreases |schedule|
  {
    if schedule != [] && Enabled(m, schedule[0]) {
      hide Inv, Inside, Apply, Enabled;
      StepKeepsInv(m, schedule[0]);
      StepCounts(m, schedule[0]);
      CallsAreAccounted(Apply(m, schedule[0]), schedule[1..]);
    }
  }

  /** `WakeUp` followed by the woken threads' own steps, in any order, empties both wait sets without
      touching the queue: nobody can be left behind for `Restore`. */
  lemma {:induction false} WokenThreadsLeave<T>(m: Monitor<T>, schedule: seq<Action<T>>)
    requires Inv(m) && m.wakeup
    requires forall a :: a in schedule ==> a.PopResume? || a.PushResume?
    ensures match Run(m, schedule)
            case Reached(r) =>
              && r.queue == m.queue && r.wakeup && r.popParked == {} && r.pushParked == {}
              && |r.popWoken| + |r.pushWoken| + |schedule| == |m.popWoken| + |m.pushWoken|
            case Stuck => true
    decreases |schedule|
  {
    if schedule != [] && Enabled(m, schedule[0]) {
      StepKeepsInv(m, schedule[0]);
      var t := schedule[0].t;
      assert schedule[0].PopResume? ==> |m.popWoken| == |m.popWoken - {t}| + 1;
      assert schedule[0].PushResume? ==> |m.pushWoken| == |m.pushWoken - {t}| + 1;
      WokenThreadsLeave(Apply(m, schedule[0]), schedule[1..]);
    }
  }

  /** The queue object. `t` is the calling thread; a method that parks returns `Parked`, and the same thread
      goes on with `PushAgain` or `PopAgain` when the condition variable releases it. */
  class BlockingQueue<T(==)> {
    var queue: seq<T>
    const maxsize: nat
    var wakeup: bool
    var popParked: set<Thread>
    var popWoken: set<Thread>
    var pushParked: set<Thread>
    var pushWoken: set<Thread>
    var holding: map<Thread, T>
    var accepted: seq<T>
    var popped: seq<T>

    function View(): Monitor<T>
      reads this
    {
      Monitor(queue, maxsize, wakeup, popParked, popWoken, pushParked, pushWoken, holding, accepted, popped)
    }

    constructor (maxsize: nat)
      ensures View() == Empty(maxsize) && Inv(View())
    {
      this.maxsize := maxsize;
      queue, wakeup, holding := [], false, map[];
      popParked, popWoken, pushParked, pushWoken := {}, {}, {}, {};
      accepted, popped := [], [];
    }

    /** The rest of `Push` once the mutex is held; `released` is who `Notify` lets go. */
    method PushLocked(t: Thread, x: T) returns (result: Result<T>, released: set<Thread>)
      modifies this
      ensures Signals(released, old(popParked))
      ensures (View(), result) == old(PushBody(View(), t, x, released))
    {
      assert Signals(popParked, popParked);
      released :| Signals(released, popParked);
      if !(wakeup || maxsize == 0 || |queue| < maxsize) {
        pushParked, holding := pushParked + {t}, holding[t := x];
        return Parked, released;
      }
      if wakeup {
        return Woken, released;
      }
      queue, accepted := queue + [x], accepted + [x];
      popParked, popWoken := popParked - released, popWoken + released;
      result := Done(x);
    }

    /** The rest of `Pop` once the mutex is held. */
    method PopLocked(t: Thread) returns (result: Result<T>, released: set<Thread>)
      modifies this
      ensures Signals(released, old(pushParked))
      ensures (View(), result) == old(PopBody(View(), t, released))
    {
      assert Signals(pushParked, pushParked);
      released :| Signals(released, pushParked);
      if !(wakeup || queue != []) {
        popParked := popParked + {t};
        return Parked, released;
      }
      if wakeup {
        return Woken, released;
      }
      result := Done(queue[0]);
      queue, popped := queue[1..], popped + [queue[0]];
      pushParked, pushWoken := pushParked - released, pushWoken + released;
    }

    method Push(t: Thread, x: T) returns (result: Result<T>, released: set<Thread>)
      requires Inv(View()) && !View().Waiting(t)
      modifies this
      ensures old(Enabled(View(), PushEnter(t, x, released)))
      ensures View() == old(Apply(View(), PushEnter(t, x, released))) && Inv(View())
      ensures match result
              case Done(y) => y == x && queue == old(queue) + [x] && accepted == old(accepted) + [x]
              case Woken => wakeup && queue == old(queue) && accepted == old(accepted)
              case Parked => !wakeup && 0 < maxsize == |queue| && queue == old(queue) && t in pushParked
    {
      result, released := PushLocked(t, x);
      StepKeepsInv(old(View()), PushEnter(t, x, released));
    }

    method PushAgain(t: Thread) returns (result: Result<T>, released: set<Thread>)
      requires Inv(View()) && t in pushWoken
      modifies this
      ensures old(Enabled(View(), PushResume(t, released)))
      ensures View() == old(Apply(View(), PushResume(t, released))) && Inv(View())
      ensures match result
              case Done(x) => x == old(holding[t]) && queue == old(queue) + [x] && accepted == old(accepted) + [x]
              case Woken => wakeup && queue == old(queue) && accepted == old(accepted)
              case Parked => !wakeup && 0 < maxsize == |queue| && queue == old(queue) && t in pushParked
    {
      ghost var before := View();
      pushWoken := pushWoken - {t};
      result, released := PushLocked(t, holding[t]);
      StepKeepsInv(before, PushResume(t, released));
    }

    method Pop(t: Thread) returns (result: Result<T>, released: set<Thread>)
      requires Inv(View()) && !View().Waiting(t)
      modifies this
      ensures old(Enabled(View(), PopEnter(t, released)))
      ensures View() == old(Apply(View(), PopEnter(t, released))) && Inv(View())
      ensures result == old(PopBody(View(), t, released)).1
      ensures match result
              case Done(x) => old(queue) == [x] + queue
              case Woken => wakeup && queue == old(queue)
              case Parked => !wakeup && queue == old(queue) == [] && t in popParked
    {
      result, released := PopLocked(t);
      StepKeepsInv(old(View()), PopEnter(t, released));
    }

    method PopAgain(t: Thread) returns (result: Result<T>, released: set<Thread>)
      requires Inv(View()) && t in popWoken
      modifies this
      ensures old(Enabled(View(), PopResume(t, released)))
      ensures View() == old(Apply(View(), PopResume(t, released))) && Inv(View())
      ensures result == old(PopBody(View(), t, released)).1
      ensures match result
              case Done(x) => old(queue) == [x] + queue
              case Woken => wakeup && queue == old(queue)
              case Parked => !wakeup && queue == old(queue) == [] && t in popParked
    {
      ghost var before := View();
      popWoken := popWoken - {t};
      result, released := PopLocked(t);
      StepKeepsInv(before, PopResume(t, released));
    }

    /** `pthread_cond_wait` returning on its own. */
    method Spurious(t: Thread)
      requires Inv(View()) && (t in popParked || t in pushParked)
      modifies this
      ensures View() == old(Apply(View(), if t in popParked then SpuriousPop(t) else SpuriousPush(t))) && Inv(View())
    {
      SpuriousKeepsInv(View(), t);
      ghost var before := View();
      if t in popParked {
        popParked, popWoken := popParked - {t}, popWoken + {t};
      } else {
        pushParked, pushWoken := pushParked - {t}, pushWoken + {t};
      }
      assert View() == Apply(before, if t in before.popParked then SpuriousPop(t) else SpuriousPush(t));
    }

    method WakeUp()
      requires Inv(View())
      modifies this
      ensures View() == old(Apply(View(), Action.WakeUp)) && Inv(View())
    {
      StepKeepsInv(View(), Action.WakeUp);
      wakeup := true;
      popParked, popWoken := {}, popWoken + popParked;
      pushParked, pushWoken := {}, pushWoken + pushParked;
    }

    method Restore()
      requires Inv(View())
      modifies this
      ensures View() == old(Apply(View(), Action.Restore)) && Inv(View())
    {
      StepKeepsInv(View(), Action.Restore);
      wakeup := false;
    }
  }
}
