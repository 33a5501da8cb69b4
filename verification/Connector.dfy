/** The connector: one outgoing connection attempt at a time, retried with doubling delays. Sockets are
    numbered in the order they are created. Durations are nanoseconds. */
module Connectors {
  import opened Options

  const INIT_RETRY: nat := 100_000_000
  const MAX_RETRY: nat := 30_000_000_000

  type Fd = nat

  datatype State = Disconnected | Connecting | Connected

  /** Functors the connector has queued in its loop, oldest first. */
  datatype Job = StartJob | StopJob | ResetJob

  /** What `connect` and its errno amount to. */
  datatype Attempt = Pending | Retryable | Fatal

  datatype Fate = Closed(fd: Fd) | Handed(fd: Fd)

  datatype Status = Status(
    start: bool,
    state: State,
    channel: Option<Fd>,       // channel_, which stays set until a queued functor resets it
    listening: bool,           // the channel's handlers are installed
    jobs: seq<Job>,
    timers: seq<nat>,          // delays of the retry timers pending
    retryDelay: nat,           // retry_duration_
    created: nat,              // history: sockets created
    fates: seq<Fate>,          // history: what became of sockets, in order
    delays: seq<nat>,          // history: retry delays used since construction or Restart
    faulted: bool)             // history: an assert failed

  const FRESH := Status(false, Disconnected, None, false, [], [], INIT_RETRY, 0, [], [], false)

  function Min(a: nat, b: nat): nat {
    if a < b then a else b
  }

  function AfterRetry(c: Status, fd: Fd): Status {
    var c := c.(fates := c.fates + [Closed(fd)], state := Disconnected);
    if c.start then
      c.(timers := c.timers + [c.retryDelay], delays := c.delays + [c.retryDelay], retryDelay := Min(2 * c.retryDelay, MAX_RETRY))
    else c
  }

  function AfterConnecting(c: Status, fd: Fd): Status {
    c.(state := Connecting, faulted := c.faulted || c.channel.Some?, channel := Some(fd), listening := true)
  }

  function AfterConnect(c: Status, attempt: Attempt): Status {
    var fd := c.created;
    var c := c.(created := fd + 1);
    match attempt
    case Pending => AfterConnecting(c, fd)
    case Retryable => AfterRetry(c, fd)
    case Fatal => c.(fates := c.fates + [Closed(fd)])
  }

  /** `ResetChannel`: the handlers go at once, the channel itself later. */
  function AfterResetChannel(c: Status): Status {
    c.(listening := false, jobs := c.jobs + [ResetJob])
  }

  function AfterHandleWrite(c: Status, established: bool): Status
    requires c.channel.Some?
  {
    var fd := c.channel.value;
    var c := AfterResetChannel(c);
    if !established then AfterRetry(c, fd)
    else c.(state := Connected, fates := c.fates + [if c.start then Handed(fd) else Closed(fd)])
  }

  function AfterHandleError(c: Status): Status
    requires c.channel.Some?
  {
    if c.state.Connecting? then AfterRetry(AfterResetChannel(c), c.channel.value) else c
  }

  function AfterStartInLoop(c: Status, attempt: Attempt): Status {
    var c := c.(faulted := c.faulted || !c.state.Disconnected?);
    if c.start then AfterConnect(c, attempt) else c
  }

  function AfterStopInLoop(c: Status): Status {
    if c.state.Connecting? && c.channel.Some? then
      AfterResetChannel(c.(state := Disconnected, fates := c.fates + [Closed(c.channel.value)]))
    else c
  }

  function AfterStart(c: Status, inLoop: bool, attempt: Attempt): Status {
    var c := c.(start := true);
    if inLoop then AfterStartInLoop(c, attempt) else c.(jobs := c.jobs + [StartJob])
  }

  function AfterStop(c: Status, inLoop: bool): Status {
    var c := c.(start := false);
    if inLoop then AfterStopInLoop(c) else c.(jobs := c.jobs + [StopJob])
  }

  function AfterRestart(c: Status, attempt: Attempt): Status {
    AfterConnect(c.(state := Disconnected, retryDelay := INIT_RETRY, delays := [], start := true), attempt)
  }

  function AfterJob(c: Status, attempt: Attempt): Status
    requires c.jobs != []
  {
    var rest := c.(jobs := c.jobs[1..]);
    match c.jobs[0]
    case StartJob => AfterStartInLoop(rest, attempt)
    case StopJob => AfterStopInLoop(rest)
    case ResetJob => rest.(channel := None)
  }

  /** The retry timer armed first fires. */
  function AfterTimer(c: Status, attempt: Attempt): Status
    requires c.timers != []
  {
    var c := c.(timers := c.timers[1..], faulted := c.faulted || !c.state.Disconnected?);
    if c.start then AfterConnect(c, attempt) else c
  }

  datatype Event =
    | Start(inLoop: bool, attempt: Attempt)
    | Stop(inLoop: bool)
    | Restart(attempt: Attempt)
    | Writable(established: bool)
    | Error
    | RunJob(attempt: Attempt)
    | Timer(attempt: Attempt)

  predicate Enabled(c: Status, e: Event) {
    match e
    case Writable(_) => c.listening && c.channel.Some?
    case Error => c.listening && c.channel.Some?
    case RunJob(_) => c.jobs != []
    case Timer(_) => c.timers != []
    case _ => true
  }

  function Apply(c: Status, e: Event): Status
    requires Enabled(c, e)
  {
    match e
    case Start(inLoop, attempt) => AfterStart(c, inLoop, attempt)
    case Stop(inLoop) => AfterStop(c, inLoop)
    case Restart(attempt) => AfterRestart(c, attempt)
    case Writable(established) => AfterHandleWrite(c, established)
    case Error => AfterHandleError(c)
    case RunJob(attempt) => AfterJob(c, attempt)
    case Timer(attempt) => AfterTimer(c, attempt)
  }

  /** An attempt may begin: the queued reset of the last channel has run and no retry is pending. */
  predicate Ready(c: Status) {
    ResetJob !in c.jobs && c.timers == []
  }

  /** The discipline asked of callers and of the loop: `Start` takes effect only when disconnected with
      nothing pending, `Restart` only outside an attempt, and a retry timer fires after the queued reset. */
  predicate Timely(c: Status, e: Event) {
    match e
    case Start(inLoop, _) => inLoop ==> c.state.Disconnected? && Ready(c)
    case Restart(_) => !c.state.Connecting? && Ready(c)
    case RunJob(_) => c.jobs != [] && c.jobs[0].StartJob? ==> c.state.Disconnected? && (c.start ==> Ready(c))
    case Timer(_) => c.start ==> ResetJob !in c.jobs
    case _ => true
  }

  predicate Distinct(fates: seq<Fate>) {
    forall i, j :: 0 <= i < j < |fates| ==> fates[i].fd != fates[j].fd
  }

  function Resets(jobs: seq<Job>): nat {
    multiset(jobs)[ResetJob]
  }

  /** Every socket created has met one fate, except `held`, the one in hand or being connected. */
  predicate SocketsConserved(c: Status, held: Option<Fd>) {
    && |c.fates| + (if held.Some? then 1 else 0) == c.created
    && Distinct(c.fates)
    && (forall i :: 0 <= i < |c.fates| ==> c.fates[i].fd < c.created && held != Some(c.fates[i].fd))
    && (held.Some? ==> held.value < c.created)
  }

  function Attempted(c: Status): Option<Fd> {
    if c.state.Connecting? then c.channel else None
  }

  /** The delay of the k-th retry. */
  function Backoff(k: nat): nat {
    if k == 0 then INIT_RETRY else Min(2 * Backoff(k - 1), MAX_RETRY)
  }

  predicate BackoffKept(c: Status) {
    && c.retryDelay == Backoff(|c.delays|)
    && (c.timers != [] ==> c.delays != [] && c.timers == [c.delays[|c.delays| - 1]])
    && forall k :: 0 <= k < |c.delays| ==> c.delays[k] == Backoff(k)
  }

  /** The channel, the queued reset and the retry timer fit the state. */
  predicate Shaped(c: Status) {
    && !c.faulted
    && (c.listening <==> c.state.Connecting?)
    && (c.listening ==> c.channel.Some?)
    && Resets(c.jobs) == (if c.channel.Some? && !c.listening then 1 else 0)
    && |c.timers| <= 1
    && (c.timers != [] ==> c.state.Disconnected?)
  }

  predicate Inv(c: Status) {
    Shaped(c) && SocketsConserved(c, Attempted(c)) && BackoffKept(c)
  }

  lemma RetryKeepsInv(c: Status, fd: Fd)
    requires Shaped(c) && SocketsConserved(c, Some(fd)) && BackoffKept(c) && !c.listening && c.timers == []
    ensures Inv(AfterRetry(c, fd))
  {
  }

  lemma ConnectKeepsInv(c: Status, attempt: Attempt)
    requires Inv(c) && c.state.Disconnected? && Ready(c)
    ensures Inv(AfterConnect(c, attempt))
  {
    var fd := c.created;
    var opening := c.(created := fd + 1);
    assert SocketsConserved(opening, Some(fd));
    assert c.channel.None? by { assert Resets(c.jobs) == 0; }
    if attempt.Retryable? { RetryKeepsInv(opening, fd); }
  }

  lemma PoppedJobKeepsCounts(c: Status)
    requires c.jobs != []
    ensures Resets(c.jobs) == Resets(c.jobs[1..]) + (if c.jobs[0].ResetJob? then 1 else 0)
    ensures ResetJob !in c.jobs ==> ResetJob !in c.jobs[1..]
  {
    assert c.jobs == [c.jobs[0]] + c.jobs[1..];
  }

  lemma HandlerKeepsInv(c: Status, e: Event)
    requires Inv(c) && Enabled(c, e) && (e.Writable? || e.Error?)
    ensures Inv(Apply(c, e))
  {
    var fd := c.channel.value;
    var reset := AfterResetChannel(c);
    assert Resets(reset.jobs) == 1;
    if e == Writable(true) {
      assert SocketsConserved(c, Some(fd));
    } else {
      RetryKeepsInv(reset.(state := Disconnected), fd);
    }
  }

  lemma StopKeepsInv(c: Status)
    requires Inv(c)
    ensures Inv(AfterStopInLoop(c))
  {
  }

  lemma PostKeepsInv(c: Status, start: bool, job: Job)
    requires Inv(c) && !job.ResetJob?
    ensures Inv(c.(start := start)) && Inv(c.(start := start, jobs := c.jobs + [job]))
  {
  }

  lemma PopKeepsInv(c: Status)
    requires Inv(c) && c.jobs != []
    ensures !c.jobs[0].ResetJob? ==> Inv(c.(jobs := c.jobs[1..]))
    ensures c.jobs[0].ResetJob? ==> Inv(c.(jobs := c.jobs[1..], channel := None))
  {
    PoppedJobKeepsCounts(c);
  }

  lemma FiredKeepsInv(c: Status)
    requires Inv(c) && c.timers != []
    ensures Inv(c.(timers := c.timers[1..])) && c.timers[1..] == [] && c.state.Disconnected? && !c.faulted
  {
  }

  lemma ResetKeepsInv(c: Status)
    requires Inv(c) && !c.state.Connecting? && Ready(c)
    ensures Inv(c.(state := Disconnected, retryDelay := INIT_RETRY, delays := [], start := true))
  {
  }

  lemma StepKeepsInv(c: Status, e: Event)
    requires Inv(c) && Enabled(c, e) && Timely(c, e)
    ensures Inv(Apply(c, e))
  {
    assert !c.faulted;
    hide Inv, AfterConnect, AfterStopInLoop;
    match e
    case Start(inLoop, attempt) =>
      PostKeepsInv(c, true, StartJob);
      if inLoop { ConnectKeepsInv(c.(start := true), attempt); }
    case Stop(inLoop) =>
      PostKeepsInv(c, false, StopJob);
      if inLoop { StopKeepsInv(c.(start := false)); }
    case Restart(attempt) =>
      ResetKeepsInv(c);
      ConnectKeepsInv(c.(state := Disconnected, retryDelay := INIT_RETRY, delays := [], start := true), attempt);
    case Writable(_) => HandlerKeepsInv(c, e);
    case Error => HandlerKeepsInv(c, e);
    case RunJob(attempt) =>
      PopKeepsInv(c);
      PoppedJobKeepsCounts(c);
      var rest := c.(jobs := c.jobs[1..]);
      match c.jobs[0] {
        case StartJob =>
          assert rest.(faulted := false) == rest;
          if c.start { ConnectKeepsInv(rest, attempt); }
        case StopJob => StopKeepsInv(rest);
        case ResetJob =>
      }
    case Timer(attempt) =>
      FiredKeepsInv(c);
      if c.start { ConnectKeepsInv(c.(timers := []), attempt); }
  }

  /** The step that begins an attempt when the connector is started, if `e` is one. */
  predicate Attempts(c: Status, e: Event, attempt: Attempt) {
    match e
    case Start(inLoop, a) => inLoop && a == attempt
    case Restart(a) => a == attempt
    case RunJob(a) => c.jobs != [] && c.jobs[0].StartJob? && c.start && a == attempt
    case Timer(a) => c.start && a == attempt
    case _ => false
  }

  /** Which asserts fail, for every step in every state the invariant allows. The assert on the state, in the
      functor of `Start`, fails exactly during an attempt and once connected; the assert on the channel
      exactly when an attempt gets under way during another one, or with a reset still queued. */
  lemma FaultsExactly(c: Status, e: Event)
    requires Inv(c) && Enabled(c, e)
    ensures Apply(c, e).faulted <==>
              || (((e.Start? && e.inLoop) || (e.RunJob? && c.jobs[0].StartJob?)) && !c.state.Disconnected?)
              || (Attempts(c, e, Pending) && (c.state.Connecting? || ResetJob in c.jobs))
  {
    ChannelIsSet(c);
  }

  lemma ChannelIsSet(c: Status)
    requires Inv(c)
    ensures c.channel.Some? <==> c.state.Connecting? || ResetJob in c.jobs
  {
    assert Resets(c.jobs) > 0 <==> ResetJob in c.jobs;
  }

  /** No assert has failed, nor would the one in the retry timer that is pending, should it fire next. */
  predicate AssertsHold(c: Status) {
    !c.faulted && (c.timers != [] ==> !AfterTimer(c, Fatal).faulted)
  }

  /** The discipline is exactly what the code's asserts need: for a step whose connection attempt, if it
      makes one, gets under way, they hold if and only if it is timely. And then the whole invariant is kept. */
  lemma TimelyIsExact(c: Status, e: Event)
    requires Inv(c) && Enabled(c, e)
    requires match e
             case Start(_, attempt) => attempt.Pending?
             case Restart(attempt) => attempt.Pending?
             case RunJob(attempt) => attempt.Pending?
             case Timer(attempt) => attempt.Pending?
             case _ => true
    ensures AssertsHold(Apply(c, e)) <==> Timely(c, e)
    ensures Inv(Apply(c, e)) <==> Timely(c, e)
  {
    if Timely(c, e) {
      StepKeepsInv(c, e);
    } else {
      if c.jobs != [] { PoppedJobKeepsCounts(c); }
      ChannelIsSet(c);
    }
  }

  /** What the asserts in front of the handlers ask, for a timely event. */
  lemma TimelyMeetsAsserts(c: Status, e: Event)
    requires Inv(c) && Enabled(c, e) && Timely(c, e)
    ensures match e
            case Start(inLoop, attempt) => inLoop ==> c.state.Disconnected? && c.channel.None?
            case Stop(_) => c.state.Connecting? ==> c.channel.Some?
            case Restart(_) => c.channel.None?
            case Writable(_) => c.channel.Some?
            case Error => c.channel.Some?
            case RunJob(_) => true
            case Timer(_) => c.state.Disconnected? && (c.start ==> c.channel.None?)
  {
    ChannelIsSet(c);
  }

  datatype Outcome = Stuck | Reached(connector: Status)

  /** Runs of timely events only. */
  function Run(c: Status, events: seq<Event>): Outcome
    decreases |events|
  {
    if events == [] then Reached(c)
    else if Enabled(c, events[0]) && Timely(c, events[0]) then Run(Apply(c, events[0]), events[1..])
    else Stuck
  }

  lemma {:induction false} RunKeepsInv(c: Status, events: seq<Event>)
    requires Inv(c)
    ensures match Run(c, events) case Reached(r) => Inv(r) case Stuck => true
    decreases |events|
  {
    if events != [] && Enabled(c, events[0]) && Timely(c, events[0]) {
      StepKeepsInv(c, events[0]);
      RunKeepsInv(Apply(c, events[0]), events[1..]);
    }
  }

  function CountClosed(fates: seq<Fate>): nat {
    if fates == [] then 0 else CountClosed(fates[1..]) + (if fates[0].Closed? then 1 else 0)
  }

  function CountHanded(fates: seq<Fate>): nat {
    if fates == [] then 0 else CountHanded(fates[1..]) + (if fates[0].Handed? then 1 else 0)
  }

  lemma {:induction false} FatesAddUp(fates: seq<Fate>)
    ensures CountClosed(fates) + CountHanded(fates) == |fates|
  {
    if fates != [] {
      FatesAddUp(fates[1..]);
    }
  }

  /** In every timely run no assert fails; each socket is closed or handed over, never both and never
      twice, so that created = closed + handed + (1 while connecting); and at most one of an attempt in
      progress, a pending retry and a connection exists. */
  lemma SocketsAreConserved(events: seq<Event>)
    ensures match Run(FRESH, events)
            case Reached(c) =>
              && !c.faulted
              && c.created == CountClosed(c.fates) + CountHanded(c.fates) + (if c.state.Connecting? then 1 else 0)
              && Distinct(c.fates)
              && (c.timers != [] ==> |c.timers| == 1 && c.state.Disconnected?)
              && (c.state.Connecting? <==> c.listening)
            case Stuck => true
  {
    RunKeepsInv(FRESH, events);
    match Run(FRESH, events)
    case Reached(c) => FatesAddUp(c.fates);
    case Stuck =>
  }

  function Doubled(k: nat): nat {
    if k == 0 then INIT_RETRY else 2 * Doubled(k - 1)
  }

  lemma {:induction false} BackoffIsCappedDoubling(k: nat)
    ensures Backoff(k) == Min(Doubled(k), MAX_RETRY) && Doubled(k) >= INIT_RETRY
  {
    if k > 0 {
      BackoffIsCappedDoubling(k - 1);
    }
  }

  /** In every timely run the k-th retry since construction or `Restart` waits min(100 ms * 2^k, 30 s), and
      the one pending is the last of them. */
  lemma RetryDelays(events: seq<Event>, k: nat)
    ensures match Run(FRESH, events)
            case Reached(c) =>
              && (k < |c.delays| ==> c.delays[k] == Min(Doubled(k), MAX_RETRY))
              && (c.timers != [] ==> c.delays != [] && c.timers == [Min(Doubled(|c.delays| - 1), MAX_RETRY)])
            case Stuck => true
  {
    RunKeepsInv(FRESH, events);
    BackoffIsCappedDoubling(k);
    match Run(FRESH, events)
    case Reached(c) => if c.timers != [] { BackoffIsCappedDoubling(|c.delays| - 1); }
    case Stuck =>
  }

  /** The attempt that `e` makes, if it makes one. */
  function Made(c: Status, e: Event): Option<Attempt> {
    match e
    case Start(inLoop, attempt) => if inLoop then Some(attempt) else None
    case Restart(attempt) => Some(attempt)
    case RunJob(attempt) => if c.jobs != [] && c.jobs[0].StartJob? && c.start then Some(attempt) else None
    case Timer(attempt) => if c.start then Some(attempt) else None
    case _ => None
  }

  /** An attempt fails in a way worth repeating, and the connector has not been stopped. */
  predicate FailsStarted(c: Status, e: Event) {
    Made(c, e) == Some(Retryable) || (c.start && (e == Writable(false) || e.Error?))
  }

  /** The connection is established, and the connector has not been stopped. */
  predicate SucceedsStarted(c: Status, e: Event) {
    c.start && e == Writable(true) && c.channel.Some?
  }

  /** What a run calls for: sockets to hand over, attempts to make, retries to arm; and the timers that fired. */
  datatype Tally = Tally(handed: seq<Fd>, attempts: nat, armed: nat, fired: nat)

  function Tallied(c: Status, events: seq<Event>): Tally
    decreases |events|
  {
    if events == [] || !Enabled(c, events[0]) || !Timely(c, events[0]) then Tally([], 0, 0, 0)
    else
      var e, rest := events[0], Tallied(Apply(c, events[0]), events[1..]);
      Tally((if SucceedsStarted(c, e) then [c.channel.value] else []) + rest.handed,
            (if Made(c, e).Some? then 1 else 0) + rest.attempts,
            (if FailsStarted(c, e) then 1 else 0) + rest.armed,
            (if e.Timer? then 1 else 0) + rest.fired)
  }

  function HandedOver(fates: seq<Fate>): seq<Fd> {
    if fates == [] then []
    else
      HandedOver(fates[..|fates| - 1])
      + (if fates[|fates| - 1].Handed? then [fates[|fates| - 1].fd] else [])
  }

  lemma HandedOverSnoc(fates: seq<Fate>, fate: Fate)
    ensures HandedOver(fates + [fate]) == HandedOver(fates) + (if fate.Handed? then [fate.fd] else [])
  {
    assert (fates + [fate])[..|fates|] == fates;
  }

  lemma AttemptEffects(c: Status, attempt: Attempt)
    requires c.start
    ensures var r := AfterConnect(c, attempt);
            && r.created == c.created + 1
            && |r.timers| == |c.timers| + (if attempt.Retryable? then 1 else 0)
            && HandedOver(r.fates) == HandedOver(c.fates)
  {
    HandedOverSnoc(c.fates, Closed(c.created));
  }

  lemma HandlerEffects(c: Status, e: Event)
    requires Inv(c) && Enabled(c, e) && (e.Writable? || e.Error?)
    ensures var r := Apply(c, e);
            && r.created == c.created
            && |r.timers| == |c.timers| + (if FailsStarted(c, e) then 1 else 0)
            && HandedOver(r.fates) == HandedOver(c.fates) + (if SucceedsStarted(c, e) then [c.channel.value] else [])
  {
    HandedOverSnoc(c.fates, Closed(c.channel.value));
    HandedOverSnoc(c.fates, Handed(c.channel.value));
  }

  lemma StopEffects(c: Status)
    ensures var r := AfterStopInLoop(c);
            && r.created == c.created && r.timers == c.timers && HandedOver(r.fates) == HandedOver(c.fates)
            && (c.state.Connecting? && c.channel.Some? ==>
                  r.state.Disconnected? && !r.listening && r.fates == c.fates + [Closed(c.channel.value)])
  {
    if c.channel.Some? { HandedOverSnoc(c.fates, Closed(c.channel.value)); }
  }

  lemma StepEffects(c: Status, e: Event)
    requires Inv(c) && Enabled(c, e) && Timely(c, e)
    ensures var r := Apply(c, e);
            && r.created == c.created + (if Made(c, e).Some? then 1 else 0)
            && |r.timers| + (if e.Timer? then 1 else 0) == |c.timers| + (if FailsStarted(c, e) then 1 else 0)
            && HandedOver(r.fates) == HandedOver(c.fates) + (if SucceedsStarted(c, e) then [c.channel.value] else [])
  {
    hide Inv, Timely, AfterConnect, AfterStopInLoop, AfterHandleWrite, AfterHandleError, HandedOver;
    assert HandedOver(c.fates) + [] == HandedOver(c.fates);
    match e
    case Start(inLoop, attempt) => AttemptEffects(c.(start := true, faulted := c.faulted || !c.state.Disconnected?), attempt);
    case Stop(inLoop) => StopEffects(c.(start := false));
    case Restart(attempt) =>
      AttemptEffects(c.(state := Disconnected, retryDelay := INIT_RETRY, delays := [], start := true), attempt);
    case Writable(_) => HandlerEffects(c, e);
    case Error => HandlerEffects(c, e);
    case RunJob(attempt) =>
      var rest := c.(jobs := c.jobs[1..]);
      if c.start { AttemptEffects(rest.(faulted := c.faulted || !c.state.Disconnected?), attempt); }
      StopEffects(rest);
    case Timer(attempt) =>
      if c.start { AttemptEffects(c.(timers := c.timers[1..], faulted := c.faulted || !c.state.Disconnected?), attempt); }
  }

  /** `StopInLoop` runs in this step. */
  predicate StopsNow(c: Status, e: Event) {
    e == Event.Stop(true) || (e.RunJob? && c.jobs != [] && c.jobs[0].StopJob?)
  }

  /** The state after a step, as the attempt made or the outcome met decides it. */
  function Becomes(c: Status, e: Event): State {
    if Made(c, e).Some? then (if Made(c, e).value.Pending? then Connecting else Disconnected)
    else if e.Writable? then (if e.established then Connected else Disconnected)
    else if e.Error? || (StopsNow(c, e) && c.state.Connecting?) then Disconnected
    else c.state
  }

  /** The functor a step leaves for the loop. */
  function Posted(c: Status, e: Event): seq<Job> {
    if e.Start? && !e.inLoop then [StartJob]
    else if e.Stop? && !e.inLoop then [StopJob]
    else if e.Writable? || e.Error? || (StopsNow(c, e) && c.state.Connecting?) then [ResetJob]
    else []
  }

  lemma AttemptMoves(c: Status, attempt: Attempt)
    ensures var r := AfterConnect(c, attempt);
            && r.start == c.start && r.jobs == c.jobs
            && r.state == (match attempt case Pending => Connecting case Retryable => Disconnected case Fatal => c.state)
            && r.channel == (if attempt.Pending? then Some(c.created) else c.channel)
  {
  }

  lemma StopMoves(c: Status)
    requires c.state.Connecting? ==> c.channel.Some?
    ensures var r := AfterStopInLoop(c);
            && r.start == c.start && r.channel == c.channel
            && r.state == (if c.state.Connecting? then Disconnected else c.state)
            && r.jobs == c.jobs + (if c.state.Connecting? then [ResetJob] else [])
  {
    assert c.jobs + [] == c.jobs;
  }

  lemma HandlerMoves(c: Status, e: Event)
    requires Inv(c) && Enabled(c, e) && (e.Writable? || e.Error?)
    ensures var r := Apply(c, e);
            r.start == c.start && r.channel == c.channel && r.jobs == c.jobs + [ResetJob] && r.state == Becomes(c, e)
  {
  }

  lemma FitsTheState(c: Status, e: Event)
    requires Inv(c) && Enabled(c, e) && Timely(c, e)
    ensures c.state.Connecting? ==> c.channel.Some?
    ensures Made(c, e).Some? ==> e.Restart? || c.state.Disconnected?
  {
  }

  /** Every timely step: the state, the flag, the channel and the queue after it. The channel stays until the reset
      that the end of its attempt leaves in the queue. */
  lemma StepMoves(c: Status, e: Event)
    requires Inv(c) && Enabled(c, e) && Timely(c, e)
    ensures var r := Apply(c, e);
            && r.state == Becomes(c, e)
            && r.start == (if e.Start? || e.Restart? then true else if e.Stop? then false else c.start)
            && r.channel == (if Made(c, e) == Some(Pending) then Some(c.created)
                             else if e.RunJob? && c.jobs[0].ResetJob? then None
                             else c.channel)
            && (if e.RunJob? then [c.jobs[0]] else []) + r.jobs == c.jobs + Posted(c, e)
  {
    FitsTheState(c, e);
    assert [] + Apply(c, e).jobs == Apply(c, e).jobs && c.jobs + [] == c.jobs;
    if e.Writable? || e.Error? {
      HandlerMoves(c, e);
      hide Inv, Timely, AfterHandleWrite, AfterHandleError;
    } else {
      hide Inv, Timely, AfterConnect, AfterStopInLoop, AfterHandleWrite, AfterHandleError;
      match e
      case Start(inLoop, attempt) => AttemptMoves(c.(start := true, faulted := c.faulted || !c.state.Disconnected?), attempt);
      case Stop(inLoop) => StopMoves(c.(start := false));
      case Restart(attempt) =>
        AttemptMoves(c.(state := Disconnected, retryDelay := INIT_RETRY, delays := [], start := true), attempt);
      case RunJob(attempt) => JobMoves(c, attempt);
      case Timer(attempt) =>
        AttemptMoves(c.(timers := c.timers[1..], faulted := c.faulted || !c.state.Disconnected?), attempt);
    }
  }

  lemma JobMoves(c: Status, attempt: Attempt)
    requires c.jobs != [] && (c.state.Connecting? ==> c.channel.Some?)
    requires c.jobs[0].StartJob? && c.start ==> c.state.Disconnected?
    ensures var e, r := RunJob(attempt), AfterJob(c, attempt);
            && r.state == Becomes(c, e) && r.start == c.start
            && r.channel == (if Made(c, e) == Some(Pending) then Some(c.created) else if c.jobs[0].ResetJob? then None else c.channel)
            && [c.jobs[0]] + r.jobs == c.jobs + Posted(c, e)
  {
    hide AfterConnect, AfterStopInLoop;
    var rest := c.(jobs := c.jobs[1..]);
    assert c.jobs == [c.jobs[0]] + c.jobs[1..];
    match c.jobs[0]
    case StartJob => AttemptMoves(rest.(faulted := c.faulted || !c.state.Disconnected?), attempt);
    case StopJob => StopMoves(rest);
    case ResetJob =>
  }

  /** Over every timely run: the sockets handed over are exactly those whose connection was established while the
      connector was started, in order; as many sockets were created as attempts were due; and every failure
      of a started connector arms one retry, which is pending until it fires. */
  lemma {:induction false} RunIsTallied(c: Status, events: seq<Event>)
    requires Inv(c)
    ensures match Run(c, events)
            case Reached(r) =>
              var t := Tallied(c, events);
              && HandedOver(r.fates) == HandedOver(c.fates) + t.handed
              && r.created == c.created + t.attempts
              && |r.timers| + t.fired == |c.timers| + t.armed
            case Stuck => true
    decreases |events|
  {
    if events == [] {
      assert HandedOver(c.fates) + [] == HandedOver(c.fates);
    } else if Enabled(c, events[0]) && Timely(c, events[0]) {
      var e, next := events[0], Apply(c, events[0]);
      StepKeepsInv(c, e);
      StepEffects(c, e);
      TalliedCons(c, events);
      hide Inv, Apply, HandedOver, Timely, Enabled, Tallied, Made, FailsStarted, SucceedsStarted;
      RunIsTallied(next, events[1..]);
      Regroup(HandedOver(c.fates), Now(c, e), Tallied(next, events[1..]).handed);
    }
  }

  function Now(c: Status, e: Event): seq<Fd> {
    if SucceedsStarted(c, e) then [c.channel.value] else []
  }

  lemma Regroup(a: seq<Fd>, b: seq<Fd>, c: seq<Fd>)
    ensures (a + b) + c == a + (b + c)
  {
  }

  lemma TalliedCons(c: Status, events: seq<Event>)
    requires events != [] && Enabled(c, events[0]) && Timely(c, events[0])
    ensures var e, rest := events[0], Tallied(Apply(c, events[0]), events[1..]);
            Tallied(c, events) == Tally(Now(c, e) + rest.handed,
                                        (if Made(c, e).Some? then 1 else 0) + rest.attempts,
                                        (if FailsStarted(c, e) then 1 else 0) + rest.armed,
                                        (if e.Timer? then 1 else 0) + rest.fired)
  {
  }

  /** Until it is started again, a stopped connector hands nothing over, and once its functor has run no attempt
      of it is left. */
  lemma {:induction false} StoppedHandsNothing(c: Status, events: seq<Event>)
    requires Inv(c) && !c.start && forall e :: e in events ==> !e.Start? && !e.Restart?
    ensures match Run(c, events)
            case Reached(r) =>
              && !r.start && r.created == c.created && HandedOver(r.fates) == HandedOver(c.fates)
              && (StopJob in c.jobs && StopJob !in r.jobs ==> !r.state.Connecting?)
              && (!c.state.Connecting? ==> !r.state.Connecting?)
            case Stuck => true
    decreases |events|
  {
    if events != [] && Enabled(c, events[0]) && Timely(c, events[0]) {
      var e, r := events[0], Apply(c, events[0]);
      StepKeepsInv(c, e);
      StepEffects(c, e);
      StoppedStep(c, e);
      hide Inv, Apply, HandedOver, Timely, Enabled;
      StoppedHandsNothing(r, events[1..]);
    }
  }

  lemma StoppedStep(c: Status, e: Event)
    requires Inv(c) && !c.start && Enabled(c, e) && Timely(c, e) && !e.Start? && !e.Restart?
    ensures var r := Apply(c, e);
            && !r.start && (!c.state.Connecting? ==> !r.state.Connecting?)
            && (StopJob in c.jobs && StopJob !in r.jobs ==> !r.state.Connecting?)
  {
    if c.jobs != [] {
      assert c.jobs == [c.jobs[0]] + c.jobs[1..];
    }
  }

  /** Witness: `Stop` and `Start` in one turn of the loop. The second attempt finds the old channel still
      set, and the queued reset then takes the new one. */
  lemma StopThenStartFaults()
    ensures var stopped := AfterStop(AfterStart(FRESH, true, Pending), true);
            var restarted := AfterStart(stopped, true, Pending);
            && Inv(stopped) && !Timely(stopped, Start(true, Pending)) && restarted.faulted
            && AfterJob(restarted, Pending).channel.None? && AfterJob(restarted, Pending).state.Connecting?
  {
    StepKeepsInv(FRESH, Start(true, Pending));
    StepKeepsInv(AfterStart(FRESH, true, Pending), Stop(true));
  }

  /** Witness: a retry timer that fires in the turn of the loop that armed it, before queued functors run. */
  lemma LateResetFaults()
    ensures var failed := AfterHandleWrite(AfterStart(FRESH, true, Pending), false);
            Inv(failed) && Enabled(failed, Timer(Pending)) && AfterTimer(failed, Pending).faulted
  {
    StepKeepsInv(FRESH, Start(true, Pending));
    StepKeepsInv(AfterStart(FRESH, true, Pending), Writable(false));
  }

  /** The connector object; every method runs on its loop's thread. */
  class Connector {
    var start: bool
    var state: State
    var channel: Option<Fd>
    var listening: bool
    var jobs: seq<Job>
    var timers: seq<nat>
    var retryDelay: nat
    var created: nat
    ghost var fates: seq<Fate>
    ghost var delays: seq<nat>
    ghost var faulted: bool

    ghost function View(): Status
      reads this
    {
      Status(start, state, channel, listening, jobs, timers, retryDelay, created, fates, delays, faulted)
    }

    constructor ()
      ensures View() == FRESH && Inv(View())
    {
      start, state, channel, listening, jobs, timers := false, Disconnected, None, false, [], [];
      retryDelay, created, fates, delays, faulted := INIT_RETRY, 0, [], [], false;
    }

    method Retry(fd: Fd)
      modifies this
      ensures View() == AfterRetry(old(View()), fd)
    {
      fates := fates + [Closed(fd)];
      state := Disconnected;
      if start {
        timers, delays := timers + [retryDelay], delays + [retryDelay];
        retryDelay := retryDelay * 2;
        if retryDelay > MAX_RETRY {
          retryDelay := MAX_RETRY;
        }
      }
    }

    method Connecting(fd: Fd)
      requires channel.None?
      modifies this
      ensures View() == AfterConnecting(old(View()), fd)
    {
      state := State.Connecting;
      channel, listening := Some(fd), true;
    }

    method Connect(attempt: Attempt)
      requires attempt.Pending? ==> channel.None?
      modifies this
      ensures View() == AfterConnect(old(View()), attempt)
    {
      var fd := created;
      created := created + 1;
      match attempt
      case Pending => Connecting(fd);
      case Retryable => Retry(fd);
      case Fatal => fates := fates + [Closed(fd)];
    }

    method ResetChannel() returns (fd: Fd)
      requires channel.Some?
      modifies this
      ensures View() == AfterResetChannel(old(View())) && fd == channel.value
    {
      listening := false;
      fd := channel.value;
      jobs := jobs + [ResetJob];
    }

    method HandleWrite(established: bool)
      requires channel.Some?
      modifies this
      ensures View() == AfterHandleWrite(old(View()), established)
    {
      var fd := ResetChannel();
      if !established {
        Retry(fd);
      } else {
        state := Connected;
        fates := fates + [if start then Handed(fd) else Closed(fd)];
      }
    }

    method HandleError()
      requires channel.Some?
      modifies this
      ensures View() == AfterHandleError(old(View()))
    {
      if state.Connecting? {
        var fd := ResetChannel();
        Retry(fd);
      }
    }

    method StopInLoop()
      requires state.Connecting? ==> channel.Some?
      modifies this
      ensures View() == AfterStopInLoop(old(View()))
    {
      if state.Connecting? {
        state := Disconnected;
        var fd := ResetChannel();
        fates := fates + [Closed(fd)];
      }
    }

    method StartInLoop(attempt: Attempt)
      requires state.Disconnected? && (start && attempt.Pending? ==> channel.None?)
      modifies this
      ensures View() == AfterStartInLoop(old(View()), attempt)
    {
      if start {
        Connect(attempt);
      }
    }

    /** One functor of the connector's. */
    method RunNext(attempt: Attempt)
      requires Inv(View()) && jobs != [] && Timely(View(), RunJob(attempt))
      modifies this
      ensures View() == AfterJob(old(View()), attempt)
    {
      PoppedJobKeepsCounts(View());
      assert Resets(jobs) > 0 <==> ResetJob in jobs;
      var job := jobs[0];
      jobs := jobs[1..];
      match job
      case StartJob => StartInLoop(attempt);
      case StopJob => StopInLoop();
      case ResetJob => channel := None;
    }

    /** One timely event: the asserts in front of each method hold, and the invariant is kept. */
    method Handle(e: Event)
      requires Inv(View()) && Enabled(View(), e) && Timely(View(), e)
      modifies this
      ensures View() == Apply(old(View()), e) && Inv(View())
    {
      hide Inv, Timely;
      ghost var before := View();
      StepKeepsInv(before, e);
      TimelyMeetsAsserts(before, e);
      match e {
        case Start(inLoop, attempt) =>
          start := true;
          if inLoop { StartInLoop(attempt); } else { jobs := jobs + [StartJob]; }
        case Stop(inLoop) =>
          start := false;
          if inLoop { StopInLoop(); } else { jobs := jobs + [StopJob]; }
        case Restart(attempt) =>
          state, retryDelay, delays, start := Disconnected, INIT_RETRY, [], true;
          Connect(attempt);
        case Writable(established) => HandleWrite(established);
        case Error => HandleError();
        case RunJob(attempt) => RunNext(attempt);
        case Timer(attempt) =>
          timers := timers[1..];
          StartInLoop(attempt);
      }
    }
  }
}
