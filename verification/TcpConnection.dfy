/** One connection's output path and close protocol, as its handlers on the I/O loop and the API calls
    of any thread drive it. The kernel's answers, the peer and the order of events are arbitrary. */
module TcpConnections {
  import opened Buffers
  import Channels

  datatype State = Connecting | Connected | Disconnected | Disconnecting

  /** Functors the connection has queued in its loop, oldest first. */
  datatype Job = SendJob(message: seq<Byte>) | ShutdownJob | ForceCloseJob

  /** What `write` on the socket may answer. */
  datatype Answer = Wrote(n: nat) | WouldBlock | PeerGone | OtherError

  datatype Arrival = Data | Eof | ReadError

  datatype Conn = Conn(
    state: State,
    reading: bool,                 // EPOLLIN requested
    writing: bool,                 // EPOLLOUT requested
    open: bool,                    // the channel has not been closed
    output: seq<Byte>,
    jobs: seq<Job>,
    wire: seq<Byte>,               // history: bytes the kernel took
    accepted: seq<seq<Byte>>,      // history: messages SendInLoop took responsibility for
    shuts: nat,                    // history: SHUT_WR calls
    closes: nat,                   // history: close_cb_ calls
    dirty: bool,                   // history: one of those happened with output pending
    faulted: bool)                 // history: an assert failed

  const FRESH := Conn(Connecting, false, false, true, [], [], [], [], 0, 0, false, false)

  function Flatten(messages: seq<seq<Byte>>): seq<Byte> {
    if messages == [] then [] else Flatten(messages[..|messages| - 1]) + messages[|messages| - 1]
  }

  predicate Fits(answer: Answer, len: nat) {
    answer.Wrote? ==> answer.n <= len
  }

  function Buffered(c: Conn, rest: seq<Byte>): Conn {
    if rest == [] then c else c.(output := c.output + rest, writing := true)
  }

  function AfterSendInLoop(c: Conn, message: seq<Byte>, answer: Answer): Conn
    requires Fits(answer, |message|)
  {
    if c.state.Disconnected? then c
    else
      var taken := c.(accepted := c.accepted + [message]);
      if c.writing || c.output != [] then Buffered(taken, message)
      else match answer
        case Wrote(n) => Buffered(taken.(wire := c.wire + message[..n]), message[n..])
        case PeerGone => c
        case _ => Buffered(taken, message)
  }

  function AfterShutdownInLoop(c: Conn): Conn {
    if c.writing then c else c.(shuts := c.shuts + 1, dirty := c.dirty || c.output != [])
  }

  function AfterHandleClose(c: Conn): Conn {
    var c := c.(faulted := c.faulted || c.state.Connecting?, state := Disconnected, reading := false);
    if c.writing then c else c.(closes := c.closes + 1, dirty := c.dirty || c.output != [])
  }

  function AfterHandleWrite(c: Conn, answer: Answer): Conn
    requires Fits(answer, |c.output|)
  {
    if !c.writing || !answer.Wrote? || answer.n == 0 then c
    else
      var c := c.(wire := c.wire + c.output[..answer.n], output := c.output[answer.n..]);
      if c.output != [] then c
      else
        var c := c.(writing := false);
        match c.state
        case Disconnecting => AfterShutdownInLoop(c)
        case Disconnected => AfterHandleClose(c)
        case _ => c
  }

  function AfterHandleRead(c: Conn, arrival: Arrival): Conn {
    if arrival.Eof? then AfterHandleClose(c) else c
  }

  function AfterForceCloseInLoop(c: Conn): Conn {
    if c.state.Connected? || c.state.Disconnecting? then AfterHandleClose(c) else c
  }

  function AfterEstablishConnection(c: Conn): Conn {
    c.(faulted := c.faulted || !c.state.Connecting?, state := Connected, reading := true)
  }

  function AfterDestroyConnection(c: Conn): Conn {
    c.(state := Disconnected, reading := false, writing := false, open := false)
  }

  function AfterSend(c: Conn, message: seq<Byte>, inLoop: bool, answer: Answer): Conn
    requires Fits(answer, |message|)
  {
    if !c.state.Connected? then c
    else if inLoop then AfterSendInLoop(c, message, answer)
    else c.(jobs := c.jobs + [SendJob(message)])
  }

  function AfterShutdown(c: Conn, inLoop: bool): Conn {
    if !c.state.Connected? then c
    else
      var c := c.(state := Disconnecting);
      if inLoop then AfterShutdownInLoop(c) else c.(jobs := c.jobs + [ShutdownJob])
  }

  function AfterForceClose(c: Conn): Conn {
    if c.state.Connected? || c.state.Disconnecting? then
      c.(state := Disconnected, jobs := c.jobs + [ForceCloseJob])
    else c
  }

  function AfterRunJob(c: Conn, answer: Answer): Conn
    requires c.jobs != [] && (c.jobs[0].SendJob? ==> Fits(answer, |c.jobs[0].message|))
  {
    var rest := c.(jobs := c.jobs[1..]);
    match c.jobs[0]
    case SendJob(message) => AfterSendInLoop(rest, message, answer)
    case ShutdownJob => AfterShutdownInLoop(rest)
    case ForceCloseJob => AfterForceCloseInLoop(rest)
  }

  datatype Event =
    | Establish
    | Destroy
    | Readable(arrival: Arrival)
    | Writable(answer: Answer)
    | CallSend(message: seq<Byte>, inLoop: bool, answer: Answer)
    | CallShutdown(inLoop: bool)
    | CallForceClose
    | ForceCloseTimer                  // what ForceCloseAfter scheduled
    | Job(answer: Answer)

  predicate Enabled(c: Conn, e: Event) {
    match e
    case Establish => c.state.Connecting?
    case Destroy => c.open && !c.state.Connecting?
    case Readable(_) => c.open && c.reading
    case Writable(answer) => c.open && Fits(answer, |c.output|)
    case CallSend(message, _, answer) => Fits(answer, |message|)
    case Job(answer) => c.jobs != [] && (c.jobs[0].SendJob? ==> Fits(answer, |c.jobs[0].message|))
    case _ => true
  }

  function Apply(c: Conn, e: Event): Conn
    requires Enabled(c, e)
  {
    match e
    case Establish => AfterEstablishConnection(c)
    case Destroy => AfterDestroyConnection(c)
    case Readable(arrival) => AfterHandleRead(c, arrival)
    case Writable(answer) => AfterHandleWrite(c, answer)
    case CallSend(message, inLoop, answer) => AfterSend(c, message, inLoop, answer)
    case CallShutdown(inLoop) => AfterShutdown(c, inLoop)
    case CallForceClose => AfterForceClose(c)
    case ForceCloseTimer => AfterForceCloseInLoop(c)
    case Job(answer) => AfterRunJob(c, answer)
  }

  predicate Inv(c: Conn) {
    && !c.faulted
    && c.wire + c.output == Flatten(c.accepted)
    && (c.open ==> (c.writing <==> c.output != []))
    && (!c.open ==> c.state.Disconnected? && !c.reading && !c.writing)
    && (c.state.Connecting? ==> !c.reading && c.output == [] && c.jobs == [] && c.shuts == 0)
    && (c.state.Connected? || c.state.Disconnecting? ==> c.reading && c.closes == 0)
    && (c.shuts > 0 ==> !c.state.Connected?)
    && c.closes <= 1
    && (c.closes == 1 ==> c.state.Disconnected? && !c.reading && c.output == [])
    && (c.dirty ==> !c.open && c.output != [])
    && (forall j :: j in c.jobs && j.ForceCloseJob? ==> c.state.Disconnected?)
    && (forall j :: j in c.jobs && j.ShutdownJob? ==> !c.state.Connected?)
  }

  lemma FlattenSnoc(messages: seq<seq<Byte>>, m: seq<Byte>)
    ensures Flatten(messages + [m]) == Flatten(messages) + m
  {
    assert (messages + [m])[..|messages|] == messages;
  }

  lemma SendInLoopKeepsInv(c: Conn, message: seq<Byte>, answer: Answer)
    requires Inv(c) && !c.state.Connecting? && Fits(answer, |message|)
    ensures Inv(AfterSendInLoop(c, message, answer))
  {
    FlattenSnoc(c.accepted, message);
    assert (c.wire + c.output) + message == c.wire + (c.output + message);
    if answer.Wrote? {
      assert message == message[..answer.n] + message[answer.n..];
      assert c.wire + message == (c.wire + message[..answer.n]) + message[answer.n..];
    }
    assert c.output == [] ==> c.wire + c.output == c.wire && c.output + message == message;
    assert message == [] ==> c.output + message == c.output;
  }

  lemma HandleWriteKeepsInv(c: Conn, answer: Answer)
    requires Inv(c) && c.open && Fits(answer, |c.output|)
    ensures Inv(AfterHandleWrite(c, answer))
  {
    if answer.Wrote? {
      assert c.output == c.output[..answer.n] + c.output[answer.n..];
      assert c.wire + c.output == (c.wire + c.output[..answer.n]) + c.output[answer.n..];
    }
  }

  lemma StepKeepsInv(c: Conn, e: Event)
    requires Inv(c) && Enabled(c, e)
    ensures Inv(Apply(c, e))
  {
    match e
    case Writable(answer) => HandleWriteKeepsInv(c, answer);
    case CallSend(message, inLoop, answer) =>
      if c.state.Connected? && inLoop { SendInLoopKeepsInv(c, message, answer); }
    case Job(answer) =>
      var rest := c.(jobs := c.jobs[1..]);
      assert Inv(rest);
      if c.jobs[0].SendJob? { SendInLoopKeepsInv(rest, c.jobs[0].message, answer); }
    case _ =>
  }

  datatype Outcome = Stuck | Reached(conn: Conn)

  function Run(c: Conn, events: seq<Event>): Outcome
    decreases |events|
  {
    if events == [] then Reached(c)
    else if Enabled(c, events[0]) then Run(Apply(c, events[0]), events[1..])
    else Stuck
  }

  lemma {:induction false} RunKeepsInv(c: Conn, events: seq<Event>)
    requires Inv(c)
    ensures match Run(c, events) case Reached(r) => Inv(r) case Stuck => true
    decreases |events|
  {
    if events != [] && Enabled(c, events[0]) {
      StepKeepsInv(c, events[0]);
      RunKeepsInv(Apply(c, events[0]), events[1..]);
    }
  }

  // ---- What is asked of the connection, and what becomes of it ----

  function AnswerTo(e: Event): Answer {
    match e
    case Writable(answer) => answer
    case CallSend(_, _, answer) => answer
    case Job(answer) => answer
    case _ => WouldBlock
  }

  /** The message that comes to `SendInLoop`, if any, before anybody has disconnected. */
  function Reaching(c: Conn, e: Event): seq<seq<Byte>>
    requires Enabled(c, e)
  {
    match e
    case CallSend(message, inLoop, _) => if c.state.Connected? && inLoop then [message] else []
    case Job(_) => if c.jobs[0].SendJob? && !c.state.Disconnected? then [c.jobs[0].message] else []
    case _ => []
  }

  /** ... and is not lost to a reset by the peer, which only a write of the message itself meets. */
  function Taken(c: Conn, e: Event): seq<seq<Byte>>
    requires Enabled(c, e)
  {
    if c.output == [] && AnswerTo(e).PeerGone? then [] else Reaching(c, e)
  }

  /** What `write` is called with: a message may not pass the bytes that wait. */
  function Offered(c: Conn, e: Event): seq<Byte>
    requires Enabled(c, e)
  {
    if e.Writable? then c.output
    else if c.output != [] then []
    else Flatten(Reaching(c, e))
  }

  /** What the kernel takes of it. */
  function Written(c: Conn, e: Event): seq<Byte>
    requires Enabled(c, e)
  {
    match AnswerTo(e)
    case Wrote(n) => if n <= |Offered(c, e)| then Offered(c, e)[..n] else []
    case _ => []
  }

  /** The functor that a call made in another thread, or any `ForceClose`, leaves for the loop. */
  function Posted(c: Conn, e: Event): seq<Job> {
    match e
    case CallSend(message, inLoop, _) => if c.state.Connected? && !inLoop then [SendJob(message)] else []
    case CallShutdown(inLoop) => if c.state.Connected? && !inLoop then [ShutdownJob] else []
    case CallForceClose => if c.state.Connected? || c.state.Disconnecting? then [ForceCloseJob] else []
    case _ => []
  }

  function Ran(c: Conn, e: Event): seq<Job>
    requires Enabled(c, e)
  {
    if e.Job? then [c.jobs[0]] else []
  }

  /** The state as the calls and the peer alone determine it. */
  function Becomes(s: State, e: Event): State {
    match e
    case Establish => Connected
    case Destroy => Disconnected
    case Readable(arrival) => if arrival.Eof? then Disconnected else s
    case CallShutdown(_) => if s.Connected? then Disconnecting else s
    case CallForceClose => if s.Connecting? then s else Disconnected
    case ForceCloseTimer => if s.Connecting? then s else Disconnected
    case _ => s
  }

  lemma OneMessage(message: seq<Byte>)
    ensures Flatten([message]) == message
  {
    FlattenSnoc([], message);
    assert [] + [message] == [message];
  }

  lemma Regroup<T>(a: seq<T>, b: seq<T>, c: seq<T>)
    ensures (a + b) + c == a + (b + c)
  {
  }

  lemma BufferedAppends(c: Conn, rest: seq<Byte>)
    ensures var r := Buffered(c, rest);
            r.output == c.output + rest && r.wire == c.wire && r.accepted == c.accepted && r.jobs == c.jobs && r.state == c.state
  {
    if rest == [] { assert c.output + rest == c.output; }
  }

  /** What `SendInLoop` makes of a message: the kernel gets a part of it only behind all that was pending,
      the buffer keeps the rest, and nothing is lost but to a reset. */
  lemma SendInLoopAccounts(c: Conn, message: seq<Byte>, answer: Answer)
    requires Inv(c) && Fits(answer, |message|) && !c.state.Disconnected?
    ensures var r := AfterSendInLoop(c, message, answer);
            var written := if c.output == [] && answer.Wrote? then message[..answer.n] else [];
            var lost := c.output == [] && answer.PeerGone?;
            && r.wire == c.wire + written
            && written + r.output == c.output + (if lost then [] else message)
            && r.accepted == c.accepted + (if lost then [] else [message])
  {
    var taken := c.(accepted := c.accepted + [message]);
    assert c.writing <==> c.output != [];
    BufferedAppends(taken, message);
    if c.output == [] && answer.Wrote? {
      BufferedAppends(taken.(wire := c.wire + message[..answer.n]), message[answer.n..]);
      assert message == message[..answer.n] + message[answer.n..];
    }
    hide Inv, Buffered;
    assert c.wire + [] == c.wire && c.accepted + [] == c.accepted && c.output + [] == c.output;
  }

  lemma SendAccounts(c: Conn, e: Event)
    requires Inv(c) && Enabled(c, e) && Reaching(c, e) != []
    ensures var r := Apply(c, e);
            && r.wire == c.wire + Written(c, e)
            && Written(c, e) + r.output == c.output + Flatten(Taken(c, e))
            && r.accepted == c.accepted + Taken(c, e)
  {
    var message := Reaching(c, e)[0];
    OneMessage(message);
    var d := if e.Job? then c.(jobs := c.jobs[1..]) else c;
    assert Inv(d) by {
      if e.Job? { assert forall j :: j in c.jobs[1..] ==> j in c.jobs; }
    }
    SendInLoopAccounts(d, message, AnswerTo(e));
    assert Apply(c, e) == AfterSendInLoop(d, message, AnswerTo(e));
    assert Reaching(c, e) == [message];
  }

  /** What is written and kept at every event. */
  lemma BytesAccount(c: Conn, e: Event)
    requires Inv(c) && Enabled(c, e)
    ensures var r := Apply(c, e);
            && r.wire == c.wire + Written(c, e)
            && Written(c, e) + r.output == c.output + Flatten(Taken(c, e))
            && r.accepted == c.accepted + Taken(c, e)
  {
    if Reaching(c, e) != [] {
      SendAccounts(c, e);
    } else if e.Writable? {
      if e.answer.Wrote? { assert c.output == c.output[..e.answer.n] + c.output[e.answer.n..]; }
    } else {
      SilentStep(c, e);
    }
  }

  lemma SilentStep(c: Conn, e: Event)
    requires Inv(c) && Enabled(c, e) && Reaching(c, e) == [] && !e.Writable?
    ensures var r := Apply(c, e); r.wire == c.wire && r.output == c.output && r.accepted == c.accepted
    ensures Written(c, e) == [] && Taken(c, e) == []
  {
    NothingReaches(c, e);
    hide Inv, Flatten, Offered, Reaching, AfterSendInLoop, AfterHandleWrite;
    if e.Job? && c.jobs[0].SendJob? { IgnoredWhenDisconnected(c.(jobs := c.jobs[1..]), c.jobs[0].message, e.answer); }
  }

  lemma NothingReaches(c: Conn, e: Event)
    requires Enabled(c, e) && Reaching(c, e) == [] && !e.Writable?
    ensures Offered(c, e) == []
    ensures e.Job? && c.jobs[0].SendJob? ==> c.state.Disconnected?
    ensures e.CallSend? ==> !c.state.Connected? || !e.inLoop
  {
  }

  lemma IgnoredWhenDisconnected(c: Conn, message: seq<Byte>, answer: Answer)
    requires c.state.Disconnected? && Fits(answer, |message|)
    ensures AfterSendInLoop(c, message, answer) == c
  {
  }

  /** What is queued and run at every event, and the state after it. */
  lemma JobsAccount(c: Conn, e: Event)
    requires Inv(c) && Enabled(c, e)
    ensures var r := Apply(c, e); Ran(c, e) + r.jobs == c.jobs + Posted(c, e) && r.state == Becomes(c.state, e)
  {
    hide AfterSendInLoop, Buffered;
    match e
    case Job(answer) =>
      assert c.jobs[0] in c.jobs && c.jobs == [c.jobs[0]] + c.jobs[1..];
      if c.jobs[0].SendJob? { SendKeepsJobs(c.(jobs := c.jobs[1..]), c.jobs[0].message, answer); }
    case CallSend(message, inLoop, answer) => SendKeepsJobs(c, message, answer);
    case _ =>
  }

  function AllTaken(c: Conn, events: seq<Event>): seq<seq<Byte>>
    requires Run(c, events).Reached?
    decreases |events|
  {
    if events == [] then [] else Taken(c, events[0]) + AllTaken(Apply(c, events[0]), events[1..])
  }

  function AllWritten(c: Conn, events: seq<Event>): seq<Byte>
    requires Run(c, events).Reached?
    decreases |events|
  {
    if events == [] then [] else Written(c, events[0]) + AllWritten(Apply(c, events[0]), events[1..])
  }

  function AllPosted(c: Conn, events: seq<Event>): seq<Job>
    requires Run(c, events).Reached?
    decreases |events|
  {
    if events == [] then [] else Posted(c, events[0]) + AllPosted(Apply(c, events[0]), events[1..])
  }

  function AllRan(c: Conn, events: seq<Event>): seq<Job>
    requires Run(c, events).Reached?
    decreases |events|
  {
    if events == [] then [] else Ran(c, events[0]) + AllRan(Apply(c, events[0]), events[1..])
  }

  lemma {:induction false} FlattenJoin(a: seq<seq<Byte>>, b: seq<seq<Byte>>)
    ensures Flatten(a + b) == Flatten(a) + Flatten(b)
    decreases |b|
  {
    if b == [] {
      assert a + b == a;
    } else {
      var front, last := b[..|b| - 1], b[|b| - 1];
      FlattenJoin(a, front);
      FlattenSnoc(a + front, last);
      FlattenSnoc(front, last);
      hide Flatten;
      assert b == front + [last] && a + b == (a + front) + [last];
      Regroup(Flatten(a), Flatten(front), last);
    }
  }

  /** What comes out of two stretches in a row, first in first out: `out` and `more` of what was held and came in. */
  lemma InOrder<T>(out: seq<T>, mid: seq<T>, held: seq<T>, more: seq<T>, after: seq<T>, in1: seq<T>, in2: seq<T>)
    requires out + mid == held + in1 && more + after == mid + in2
    ensures (out + more) + after == held + (in1 + in2)
  {
    assert (out + more) + after == out + (more + after) == (out + mid) + in2 == held + (in1 + in2);
  }

  lemma {:induction false} BytesOverRun(c: Conn, events: seq<Event>)
    requires Inv(c) && Run(c, events).Reached?
    ensures var r := Run(c, events).conn;
            && r.wire == c.wire + AllWritten(c, events)
            && AllWritten(c, events) + r.output == c.output + Flatten(AllTaken(c, events))
            && r.accepted == c.accepted + AllTaken(c, events)
    decreases |events|
  {
    if events != [] {
      var e, rest := events[0], events[1..];
      var d, r := Apply(c, e), Run(c, events).conn;
      StepKeepsInv(c, e);
      BytesAccount(c, e);
      BytesOverRun(d, rest);
      FlattenJoin(Taken(c, e), AllTaken(d, rest));
      hide Inv, Apply, Enabled, Flatten, Written, Taken;
      Regroup(c.wire, Written(c, e), AllWritten(d, rest));
      Regroup(c.accepted, Taken(c, e), AllTaken(d, rest));
      InOrder(Written(c, e), d.output, c.output, AllWritten(d, rest), r.output, Flatten(Taken(c, e)), Flatten(AllTaken(d, rest)));
    }
  }

  lemma {:induction false} FunctorsOverRun(c: Conn, events: seq<Event>)
    requires Inv(c) && Run(c, events).Reached?
    ensures AllRan(c, events) + Run(c, events).conn.jobs == c.jobs + AllPosted(c, events)
    decreases |events|
  {
    if events != [] {
      var e, rest := events[0], events[1..];
      var d, r := Apply(c, e), Run(c, events).conn;
      StepKeepsInv(c, e);
      JobsAccount(c, e);
      FunctorsOverRun(d, rest);
      hide Inv, Apply, Enabled, Posted, Ran, Becomes;
      InOrder(Ran(c, e), d.jobs, c.jobs, AllRan(d, rest), r.jobs, Posted(c, e), AllPosted(d, rest));
    }
  }

  /** Over every run of sends, partial writes, would-blocks, errors and drains: what the kernel took,
      followed by the output buffer, is every message that reached `SendInLoop` before a disconnect and was
      not lost to a reset, in order; and until the connection is destroyed, writability is requested exactly
      while the buffer is non-empty. */
  lemma StreamIntegrity(events: seq<Event>)
    requires Run(FRESH, events).Reached?
    ensures var c := Run(FRESH, events).conn;
            && AllWritten(FRESH, events) + c.output == Flatten(AllTaken(FRESH, events))
            && c.wire == AllWritten(FRESH, events) && c.accepted == AllTaken(FRESH, events)
            && (c.open ==> (c.writing <==> c.output != []))
  {
    RunKeepsInv(FRESH, events);
    BytesOverRun(FRESH, events);
  }

  /** Over every run: the functors run, followed by those queued, are the ones posted, in order. */
  lemma FunctorsAreConserved(events: seq<Event>)
    requires Run(FRESH, events).Reached?
    ensures AllRan(FRESH, events) + Run(FRESH, events).conn.jobs == AllPosted(FRESH, events)
  {
    FunctorsOverRun(FRESH, events);
  }

  /** The event writes the last of the pending bytes. */
  predicate Drains(c: Conn, e: Event) {
    e.Writable? && c.output != [] && e.answer == Wrote(|c.output|)
  }

  /** When SHUT_WR is issued and `close_cb_` called, on a connection not destroyed: a shutdown or a close is
      carried out at once if nothing is pending, and by the drain otherwise. */
  lemma EndsExactly(c: Conn, e: Event)
    requires Inv(c) && c.open && Enabled(c, e) && !e.Destroy?
    ensures var r := Apply(c, e);
            var asked := (e == CallShutdown(true) && c.state.Connected?) || Ran(c, e) == [ShutdownJob];
            var ended := e == Readable(Eof) || (e.ForceCloseTimer? && (c.state.Connected? || c.state.Disconnecting?));
            && r.shuts == c.shuts + (if (asked && c.output == []) || (Drains(c, e) && c.state.Disconnecting?) then 1 else 0)
            && r.closes == c.closes + (if (ended && c.output == []) || (Drains(c, e) && c.state.Disconnected?) then 1 else 0)
            && (ended || (Drains(c, e) && c.state.Disconnected?) ==> !r.reading)
  {
    if e.Job? { assert c.jobs[0] in c.jobs; }
    if e.Writable? && e.answer.Wrote? {
      assert c.output[e.answer.n..] == [] <==> e.answer.n == |c.output|;
    }
  }

  /** A shutdown is on its way or done: it waits in the queue or for the drain, or SHUT_WR has been issued. */
  predicate ShutdownUnderWay(c: Conn) {
    ShutdownJob in c.jobs || c.shuts > 0 || (c.state.Disconnecting? && c.output != [])
  }

  predicate ShutdownCalled(events: seq<Event>) {
    CallShutdown(true) in events || CallShutdown(false) in events
  }

  lemma UnderWayStep(c: Conn, e: Event)
    requires Inv(c) && Enabled(c, e) && (c.state.Disconnecting? ==> ShutdownUnderWay(c))
    ensures var r := Apply(c, e);
            && (r.state.Disconnecting? ==> ShutdownUnderWay(r))
            && (ShutdownUnderWay(r) ==> ShutdownUnderWay(c) || e.CallShutdown?)
  {
    JobsAccount(c, e);
    if c.open && !e.Destroy? { EndsExactly(c, e); }
    if c.output != [] { OutputStays(c, e); }
    assert (c.open && !e.Destroy?) || Apply(c, e).shuts == c.shuts || Ran(c, e) == [ShutdownJob];
    assert c.state.Disconnecting? ==> c.open;
    hide Inv, Apply;
    assert e.Job? ==> forall j :: j in c.jobs ==> j == c.jobs[0] || j in c.jobs[1..];
  }

  lemma OutputStays(c: Conn, e: Event)
    requires Inv(c) && Enabled(c, e) && c.output != []
    ensures Drains(c, e) || Apply(c, e).output != []
  {
    BytesAccount(c, e);
  }

  lemma {:induction false} UnderWayOverRun(c: Conn, events: seq<Event>)
    requires Inv(c) && (c.state.Disconnecting? ==> ShutdownUnderWay(c))
    ensures match Run(c, events)
            case Reached(r) =>
              && (r.state.Disconnecting? ==> ShutdownUnderWay(r))
              && (ShutdownUnderWay(r) ==> ShutdownUnderWay(c) || ShutdownCalled(events))
            case Stuck => true
    decreases |events|
  {
    if events != [] && Enabled(c, events[0]) {
      StepKeepsInv(c, events[0]);
      UnderWayStep(c, events[0]);
      UnderWayOverRun(Apply(c, events[0]), events[1..]);
    }
  }

  /** Over every run: a connection that the user has shut down has issued SHUT_WR as soon as the request has
      been run and nothing is pending; and SHUT_WR is issued only if the user asked for it. */
  lemma ShutdownIsIssued(events: seq<Event>)
    ensures match Run(FRESH, events)
            case Reached(c) =>
              && (c.state.Disconnecting? && ShutdownJob !in c.jobs && c.output == [] ==> c.shuts > 0)
              && (c.shuts > 0 ==> ShutdownCalled(events))
            case Stuck => true
  {
    UnderWayOverRun(FRESH, events);
  }

  function StateAfter(s: State, events: seq<Event>): State
    decreases |events|
  {
    if events == [] then s else StateAfter(Becomes(s, events[0]), events[1..])
  }

  lemma {:induction false} StateOverRun(c: Conn, events: seq<Event>)
    requires Inv(c)
    ensures match Run(c, events) case Reached(r) => r.state == StateAfter(c.state, events) case Stuck => true
    decreases |events|
  {
    if events != [] && Enabled(c, events[0]) {
      StepKeepsInv(c, events[0]);
      JobsAccount(c, events[0]);
      hide Inv, Apply, Becomes;
      StateOverRun(Apply(c, events[0]), events[1..]);
    }
  }

  /** The calls and the peer alone decide a connection's state; writes, drains and queued functors never do. */
  lemma StateFollowsTheCalls(events: seq<Event>)
    ensures match Run(FRESH, events) case Reached(c) => c.state == StateAfter(Connecting, events) case Stuck => true
  {
    StateOverRun(FRESH, events);
  }

  /** Over every run: no assert of the connection fails, `close_cb_` is called at most once, and while the
      connection is not destroyed neither it nor SHUT_WR is ever issued with output pending. */
  lemma GracefulClose(events: seq<Event>)
    ensures match Run(FRESH, events)
            case Reached(c) =>
              && !c.faulted && c.closes <= 1 && (c.open ==> !c.dirty)
              && (c.closes == 1 ==> c.output == [] && !c.reading && c.state.Disconnected?)
            case Stuck => true
  {
    RunKeepsInv(FRESH, events);
  }

  /** A state in which the user or the peer has already ended the connection. */
  predicate Ended(c: Conn) {
    Inv(c) && c.state.Disconnected? && c.open
  }

  lemma EndedStep(c: Conn, e: Event)
    requires Ended(c) && Enabled(c, e) && !e.Destroy?
    ensures var c' := Apply(c, e);
            && Ended(c') && c'.accepted == c.accepted && c.wire <= c'.wire && c'.shuts >= c.shuts
            && (c.output == [] ==> c'.output == [])
            && (c.output != [] && c.closes == 0 ==> (c'.closes == 1 <==> c'.output == []))
            && (c.output == [] && e != Readable(Eof) ==> c'.closes == c.closes)
            && c'.closes >= c.closes
  {
    StepKeepsInv(c, e);
  }

  /** A close that finds output pending waits: whatever happens next, `close_cb_` has been called exactly
      when the drain is complete, and the drain delivers every accepted byte. */
  lemma {:induction false} CloseWaitsForDrain(c: Conn, events: seq<Event>)
    requires Ended(c) && c.output != [] && Destroy !in events
    ensures match Run(c, events)
            case Reached(r) =>
              && Ended(r) && r.accepted == c.accepted
              && (r.closes == 1 <==> r.output == [])
              && (r.closes == 1 ==> r.wire == Flatten(c.accepted))
            case Stuck => true
    decreases |events|
  {
    if events != [] && Enabled(c, events[0]) {
      EndedStep(c, events[0]);
      var next := Apply(c, events[0]);
      if next.output != [] {
        CloseWaitsForDrain(next, events[1..]);
      } else {
        DrainedStaysClosed(next, events[1..]);
      }
    }
  }

  lemma {:induction false} DrainedStaysClosed(c: Conn, events: seq<Event>)
    requires Ended(c) && c.output == [] && Destroy !in events
    ensures match Run(c, events)
            case Reached(r) =>
              && Ended(r) && r.accepted == c.accepted && r.output == [] && c.closes <= r.closes <= 1
              && (Readable(Eof) !in events ==> r.closes == c.closes)
              && r.wire == Flatten(c.accepted)
            case Stuck => true
    decreases |events|
  {
    if events != [] && Enabled(c, events[0]) {
      EndedStep(c, events[0]);
      DrainedStaysClosed(Apply(c, events[0]), events[1..]);
    }
    assert c.wire + [] == c.wire;
  }

  /** The handlers a connection installs on its channel. */
  const HANDLERS: set<Channels.Handler> := {Channels.OnError, Channels.OnRead, Channels.OnWrite}

  /** What the handlers called do; the error handler only logs. */
  function Dispatched(calls: seq<Channels.Handler>, arrival: Arrival, answer: Answer): seq<Event> {
    if calls == [] then []
    else
      (match calls[0]
       case OnError => []
       case OnRead => [Readable(arrival)]
       case OnWrite => [Writable(answer)])
      + Dispatched(calls[1..], arrival, answer)
  }

  lemma {:induction false} DispatchedJoin(a: seq<Channels.Handler>, b: seq<Channels.Handler>, arrival: Arrival, answer: Answer)
    ensures Dispatched(a + b, arrival, answer) == Dispatched(a, arrival, answer) + Dispatched(b, arrival, answer)
  {
    if a == [] {
      assert a + b == b;
    } else {
      assert (a + b)[1..] == a[1..] + b;
      DispatchedJoin(a[1..], b, arrival, answer);
    }
  }

  lemma OneDispatched(h: Channels.Handler, revents: bv32, arrival: Arrival, answer: Answer)
    ensures Dispatched(Channels.Offered(h, revents, HANDLERS), arrival, answer)
         == if !Channels.Reports(revents, h) || h.OnError? then []
            else if h.OnRead? then [Readable(arrival)] else [Writable(answer)]
  {
    hide Channels.Reports;
    assert h in HANDLERS;
    assert [h][1..] == [];
  }

  /** The order of dispatch makes a connection read before it writes. */
  lemma ReadsBeforeWriting(revents: bv32, arrival: Arrival, answer: Answer)
    ensures Dispatched(Channels.Due(revents, HANDLERS), arrival, answer)
         == (if Channels.Reports(revents, Channels.OnRead) then [Readable(arrival)] else [])
            + (if Channels.Reports(revents, Channels.OnWrite) then [Writable(answer)] else [])
  {
    hide Channels.Reports, Channels.Offered, Dispatched;
    var e := Channels.Offered(Channels.OnError, revents, HANDLERS);
    var r := Channels.Offered(Channels.OnRead, revents, HANDLERS);
    var w := Channels.Offered(Channels.OnWrite, revents, HANDLERS);
    DispatchedJoin(e + r, w, arrival, answer);
    DispatchedJoin(e, r, arrival, answer);
    OneDispatched(Channels.OnError, revents, arrival, answer);
    OneDispatched(Channels.OnRead, revents, arrival, answer);
    OneDispatched(Channels.OnWrite, revents, arrival, answer);
    assert [] + Dispatched(r, arrival, answer) == Dispatched(r, arrival, answer);
  }

  /** One dispatch, whatever epoll reports as long as it is readable only while reading is enabled, is a run of
      the handlers' events; and if it finds the peer gone, the close is passed on within it exactly when
      nothing is left to write. */
  lemma OneDispatch(c: Conn, revents: bv32, arrival: Arrival, answer: Answer)
    requires Inv(c) && c.open && Fits(answer, |c.output|)
    requires Channels.Reports(revents, Channels.OnRead) ==> c.reading
    ensures match Run(c, Dispatched(Channels.Due(revents, HANDLERS), arrival, answer))
            case Reached(r) =>
              && Inv(r)
              && (Channels.Reports(revents, Channels.OnRead) && arrival.Eof? ==> (r.closes == 1 <==> r.output == []))
            case Stuck => false
  {
    hide Channels.Reports, Channels.Due, Dispatched;
    ReadsBeforeWriting(revents, arrival, answer);
    var readable, writable := Channels.Reports(revents, Channels.OnRead), Channels.Reports(revents, Channels.OnWrite);
    var read := if readable then Apply(c, Readable(arrival)) else c;
    if readable { StepKeepsInv(c, Readable(arrival)); }
    var tail := if writable then [Writable(answer)] else [];
    if readable {
      RunCons(c, Readable(arrival), tail);
      if arrival.Eof? && writable { EndedStep(read, Writable(answer)); }
    } else {
      assert [] + tail == tail;
    }
    if writable {
      RunCons(read, Writable(answer), []);
      assert [Writable(answer)] + [] == tail;
      HandleWriteKeepsInv(read, answer);
    }
  }

  /** `ForceClose` sets the state before its functor runs, so the functor does nothing: until the peer
      closes, `close_cb_` is called exactly when output was pending at the call and has since drained. */
  lemma ForceCloseOnlyDrains(c: Conn, events: seq<Event>)
    requires Inv(c) && (c.state.Connected? || c.state.Disconnecting?)
    requires Destroy !in events && Readable(Eof) !in events
    ensures match Run(AfterForceClose(c), events)
            case Reached(r) => r.closes == 1 <==> c.output != [] && r.output == []
            case Stuck => true
  {
    var ended := AfterForceClose(c);
    StepKeepsInv(c, CallForceClose);
    if c.output != [] {
      CloseWaitsForDrain(ended, events);
    } else {
      DrainedStaysClosed(ended, events);
    }
  }

  /** The same request made by `ForceCloseAfter` does close: at once when nothing is pending. */
  lemma ForceCloseTimerCloses(c: Conn)
    requires Inv(c) && (c.state.Connected? || c.state.Disconnecting?)
    ensures var r := Apply(c, ForceCloseTimer);
            Inv(r) && r.state.Disconnected? && !r.reading && (r.closes == 1 <==> c.output == [])
  {
    StepKeepsInv(c, ForceCloseTimer);
  }

  /** Witness: an idle connection force-closed by its user is still open and reading. */
  lemma ForceCloseLeavesIdleConnectionOpen()
    ensures match Run(FRESH, [Establish, CallForceClose, Job(WouldBlock)])
            case Reached(r) => r.open && r.reading && r.closes == 0 && r.jobs == []
            case Stuck => false
  {
    var events := [Establish, CallForceClose, Job(WouldBlock)];
    assert events[1..] == [CallForceClose, Job(WouldBlock)] && events[1..][1..] == [Job(WouldBlock)];
    assert Run(FRESH, events) == Run(AfterForceClose(AfterEstablishConnection(FRESH)), [Job(WouldBlock)]);
  }

  /** A queued send that has bytes to write. */
  predicate Carries(job: Job) {
    job.SendJob? && job.message != []
  }

  predicate BytesQueued(c: Conn) {
    exists job :: job in c.jobs && Carries(job)
  }

  lemma EmptySendAddsNothing(c: Conn, answer: Answer)
    requires Fits(answer, 0)
    ensures Flatten(AfterSendInLoop(c, [], answer).accepted) == Flatten(c.accepted)
  {
    hide Flatten;
    FlattenSnoc(c.accepted, []);
    assert Flatten(c.accepted) + [] == Flatten(c.accepted);
    var r := AfterSendInLoop(c, [], answer);
    assert r.accepted == c.accepted || r.accepted == c.accepted + [[]];
  }

  /** Once SHUT_WR has been issued with no other thread's bytes still queued, no byte is accepted any more. */
  lemma {:induction false} NoLateBytes(c: Conn, events: seq<Event>)
    requires Inv(c) && c.shuts > 0 && (c.state.Disconnected? || !BytesQueued(c))
    ensures match Run(c, events)
            case Reached(r) => Flatten(r.accepted) == Flatten(c.accepted) && (r.state.Disconnected? || !BytesQueued(r))
            case Stuck => true
    decreases |events|
  {
    if events != [] && Enabled(c, events[0]) {
      StepKeepsInv(c, events[0]);
      NoLateStep(c, events[0]);
      NoLateBytes(Apply(c, events[0]), events[1..]);
    }
  }

  lemma NoLateStep(c: Conn, e: Event)
    requires Inv(c) && c.shuts > 0 && (c.state.Disconnected? || !BytesQueued(c)) && Enabled(c, e)
    ensures var r := Apply(c, e);
            r.shuts > 0 && Flatten(r.accepted) == Flatten(c.accepted) && (r.state.Disconnected? || !BytesQueued(r))
  {
    EndingIsFinal(c, e);
    assert e.Job? ==> forall job :: job in c.jobs[1..] ==> job in c.jobs;
    if e.Job? && c.jobs[0].SendJob? && !c.state.Disconnected? {
      assert c.jobs[0] in c.jobs;
      EmptySendAddsNothing(c.(jobs := c.jobs[1..]), e.answer);
    }
    hide Flatten, Inv;
  }

  lemma RunCons(c: Conn, e: Event, rest: seq<Event>)
    requires Enabled(c, e)
    ensures Run(c, [e] + rest) == Run(Apply(c, e), rest)
  {
    assert ([e] + rest)[1..] == rest;
  }

  /** `SendInLoop` is about to write a message with bytes in it. */
  predicate AboutToWrite(c: Conn) {
    c.jobs != [] && Carries(c.jobs[0]) && !c.state.Disconnected?
  }

  /** What is queued in front of the bytes is run; none of it needs an answer of the socket's. */
  lemma {:induction false} QueuedSendIsTried(c: Conn, i: nat) returns (events: seq<Event>)
    requires Inv(c) && c.state.Disconnecting? && i < |c.jobs| && Carries(c.jobs[i])
    ensures match Run(c, events) case Reached(r) => AboutToWrite(r) case Stuck => false
    decreases i
  {
    if Carries(c.jobs[0]) {
      events := [];
    } else {
      assert c.jobs[0] in c.jobs;
      var e := Job(PeerGone);
      StepKeepsInv(c, e);
      var rest := QueuedSendIsTried(Apply(c, e), i - 1);
      events := [e] + rest;
      RunCons(c, e, rest);
    }
  }

  /** Bytes can still come to be written after SHUT_WR, and are lost. */
  ghost predicate WritesLate(c: Conn) {
    c.shuts > 0 && exists events :: match Run(c, events) case Reached(r) => AboutToWrite(r) case Stuck => false
  }

  /** Once SHUT_WR has been issued, bytes can still come to be written (and be lost) exactly if a `Send` made
      by another thread is still queued and nobody has disconnected; loop-thread sends are never at risk. */
  lemma ShutdownOvertakesQueuedSend(c: Conn)
    requires Inv(c) && c.shuts > 0
    ensures WritesLate(c) <==> c.state.Disconnecting? && BytesQueued(c)
  {
    if c.state.Disconnecting? && BytesQueued(c) {
      var j :| j in c.jobs && Carries(j);
      var i :| 0 <= i < |c.jobs| && c.jobs[i] == j;
      var events := QueuedSendIsTried(c, i);
    } else {
      forall events ensures match Run(c, events) case Reached(r) => !AboutToWrite(r) case Stuck => true {
        NoLateBytes(c, events);
        match Run(c, events)
        case Reached(r) => assert r.jobs != [] ==> r.jobs[0] in r.jobs;
        case Stuck =>
      }
    }
  }

  /** Some run issues SHUT_WR and afterwards still comes to write bytes. */
  ghost predicate CanBeOvertaken(c: Conn) {
    exists events :: match Run(c, events) case Reached(r) => WritesLate(r) case Stuck => false
  }

  /** Queued bytes stand before other queued bytes. */
  predicate BytesInARow(jobs: seq<Job>) {
    exists i, j :: 0 <= i < j < |jobs| && Carries(jobs[i]) && Carries(jobs[j])
  }

  /** No bytes will be written after SHUT_WR: the connection is closed, no bytes are queued, or SHUT_WR waits
      behind sends of which only one has bytes. */
  predicate Harmless(c: Conn) {
    && Inv(c) && !c.state.Connecting? && !c.state.Connected?
    && (c.state.Disconnected? || !BytesQueued(c)
        || (c.shuts == 0 && c.output == [] && !BytesInARow(c.jobs) && ShutdownLast(c.jobs)))
  }

  predicate ShutdownLast(jobs: seq<Job>) {
    forall i, j :: 0 <= i < j < |jobs| && jobs[i].ShutdownJob? ==> !jobs[j].SendJob?
  }

  lemma HarmlessTail(jobs: seq<Job>)
    requires jobs != [] && !BytesInARow(jobs) && ShutdownLast(jobs)
    ensures !BytesInARow(jobs[1..]) && ShutdownLast(jobs[1..])
    ensures jobs[0].ShutdownJob? || Carries(jobs[0]) ==> forall job :: job in jobs[1..] ==> !Carries(job)
  {
    var rest := jobs[1..];
    assert forall i :: 0 <= i < |rest| ==> rest[i] == jobs[i + 1];
  }

  lemma HarmlessJob(c: Conn, answer: Answer)
    requires Harmless(c) && Enabled(c, Job(answer)) && !c.state.Disconnected? && BytesQueued(c)
    ensures Harmless(AfterRunJob(c, answer))
  {
    StepKeepsInv(c, Job(answer));
    HarmlessTail(c.jobs);
    hide Inv, BytesInARow, ShutdownLast;
    var r := AfterRunJob(c, answer);
    assert r.jobs == c.jobs[1..];
    assert c.jobs[0] in c.jobs;
  }

  lemma HarmlessStep(c: Conn, e: Event)
    requires Harmless(c) && Enabled(c, e)
    ensures Harmless(Apply(c, e))
  {
    if e.Job? && !c.state.Disconnected? && BytesQueued(c) {
      HarmlessJob(c, e.answer);
    } else {
      StepKeepsInv(c, e);
      HarmlessElsewhere(c, e);
    }
  }

  lemma SendKeepsJobs(c: Conn, message: seq<Byte>, answer: Answer)
    requires Fits(answer, |message|)
    ensures var r := AfterSendInLoop(c, message, answer); r.jobs == c.jobs && r.state == c.state
  {
  }

  lemma JobEnds(c: Conn, answer: Answer)
    requires !c.state.Connecting? && !c.state.Connected? && Enabled(c, Job(answer))
    ensures var r := AfterRunJob(c, answer); r.jobs == c.jobs[1..] && (r.state == c.state || r.state.Disconnected?)
  {
    hide AfterSendInLoop;
    if c.jobs[0].SendJob? { SendKeepsJobs(c.(jobs := c.jobs[1..]), c.jobs[0].message, answer); }
  }

  lemma WriteEnds(c: Conn, answer: Answer)
    requires !c.state.Connecting? && !c.state.Connected? && Fits(answer, |c.output|)
    ensures var r := AfterHandleWrite(c, answer);
            r.jobs == c.jobs && (r.state == c.state || r.state.Disconnected?) && (!c.writing ==> r == c)
  {
  }

  /** Once the user or the peer has ended the connection it does not reopen, and no send is queued. */
  lemma EndingIsFinal(c: Conn, e: Event)
    requires !c.state.Connecting? && !c.state.Connected? && Enabled(c, e)
    ensures var r := Apply(c, e);
            && (r.state == c.state || r.state.Disconnected?)
            && (!e.Job? ==> r.jobs == c.jobs || (r.state.Disconnected? && r.jobs == c.jobs + [ForceCloseJob]))
            && (e.Job? ==> r.jobs == c.jobs[1..])
            && (!e.Job? && c.output == [] && !c.writing && r.state.Disconnecting? ==> r == c)
  {
    hide AfterRunJob, AfterHandleWrite, AfterSendInLoop, AfterShutdownInLoop;
    match e
    case Job(answer) => JobEnds(c, answer);
    case Writable(answer) => WriteEnds(c, answer);
    case _ =>
  }

  lemma HarmlessElsewhere(c: Conn, e: Event)
    requires Harmless(c) && Enabled(c, e) && Inv(Apply(c, e))
    requires e.Job? ==> c.state.Disconnected? || !BytesQueued(c)
    ensures Harmless(Apply(c, e))
  {
    assert c.state.Disconnecting? ==> (c.writing <==> c.output != []);
    EndingIsFinal(c, e);
    hide Inv, BytesInARow, ShutdownLast, Apply;
    assert e.Job? ==> forall job :: job in c.jobs[1..] ==> job in c.jobs;
  }

  lemma {:induction false} HarmlessRun(c: Conn, events: seq<Event>)
    requires Harmless(c)
    ensures match Run(c, events) case Reached(r) => Harmless(r) && !WritesLate(r) case Stuck => true
    decreases |events|
  {
    if events == [] {
      if c.shuts > 0 { ShutdownOvertakesQueuedSend(c); }
    } else if Enabled(c, events[0]) {
      HarmlessStep(c, events[0]);
      HarmlessRun(Apply(c, events[0]), events[1..]);
    }
  }

  lemma OvertakenAtOnce(c: Conn)
    requires Inv(c) && c.state.Disconnecting? && BytesQueued(c) && c.shuts > 0
    ensures CanBeOvertaken(c)
  {
    ShutdownOvertakesQueuedSend(c);
    assert Run(c, []) == Reached(c) && WritesLate(c);
  }

  lemma OvertakenLater(c: Conn, e: Event)
    requires Enabled(c, e) && CanBeOvertaken(Apply(c, e))
    ensures CanBeOvertaken(c)
  {
    var events :| match Run(Apply(c, e), events) case Reached(r) => WritesLate(r) case Stuck => false;
    RunCons(c, e, events);
  }

  /** The drain of earlier output issues SHUT_WR although a send is queued. */
  lemma OvertakenByDrain(c: Conn)
    requires Inv(c) && c.state.Disconnecting? && BytesQueued(c) && c.output != []
    ensures CanBeOvertaken(c)
  {
    var e := Writable(Wrote(|c.output|));
    StepKeepsInv(c, e);
    var r := Apply(c, e);
    assert c.output[|c.output|..] == [];
    assert r.jobs == c.jobs && r.state.Disconnecting? && r.shuts > 0;
    OvertakenAtOnce(r);
    OvertakenLater(c, e);
  }

  /** A queued send leaves bytes over, and their drain then does. */
  lemma {:induction false} OvertakenByRemainder(c: Conn, i: nat, j: nat)
    requires Inv(c) && c.state.Disconnecting? && i < j < |c.jobs| && Carries(c.jobs[i]) && Carries(c.jobs[j])
    requires forall k :: 0 <= k <= j ==> c.jobs[k].SendJob?
    ensures CanBeOvertaken(c)
    decreases i
  {
    assert c.jobs[j] in c.jobs;
    if c.output != [] {
      OvertakenByDrain(c);
    } else {
      var e := Job(WouldBlock);
      StepKeepsInv(c, e);
      var r := Apply(c, e);
      assert r.jobs == c.jobs[1..] && r.state.Disconnecting?;
      assert r.jobs[j - 1] == c.jobs[j] && r.jobs[j - 1] in r.jobs;
      if i == 0 {
        OvertakenByDrain(r);
      } else {
        OvertakenByRemainder(r, i - 1, j - 1);
      }
      OvertakenLater(c, e);
    }
  }

  /** Which calls of `Shutdown` may cut off bytes: exactly those made with another thread's bytes queued, by the
      loop's own thread, or with output pending, or with bytes queued in front of other bytes. */
  lemma ShutdownCanBeOvertaken(c: Conn, inLoop: bool)
    requires Inv(c) && c.state.Connected?
    ensures CanBeOvertaken(AfterShutdown(c, inLoop))
            <==> BytesQueued(c) && (inLoop || c.output != [] || BytesInARow(c.jobs))
  {
    var d := AfterShutdown(c, inLoop);
    StepKeepsInv(c, CallShutdown(inLoop));
    OnlySendsQueued(c);
    assert forall k :: 0 <= k < |c.jobs| ==> d.jobs[k] == c.jobs[k];
    if BytesQueued(c) && (inLoop || c.output != [] || BytesInARow(c.jobs)) {
      StillQueued(c, inLoop);
      if c.output != [] {
        OvertakenByDrain(d);
      } else if inLoop {
        OvertakenAtOnce(d);
      } else {
        var i, j :| 0 <= i < j < |c.jobs| && Carries(c.jobs[i]) && Carries(c.jobs[j]);
        OvertakenByRemainder(d, i, j);
      }
    } else {
      ShutdownIsHarmless(c, inLoop);
      forall events ensures match Run(d, events) case Reached(r) => !WritesLate(r) case Stuck => true {
        HarmlessRun(d, events);
      }
    }
  }

  lemma OnlySendsQueued(c: Conn)
    requires Inv(c) && c.state.Connected?
    ensures forall k :: 0 <= k < |c.jobs| ==> c.jobs[k].SendJob?
  {
    forall k | 0 <= k < |c.jobs| ensures c.jobs[k].SendJob? { assert c.jobs[k] in c.jobs; }
  }

  lemma StillQueued(c: Conn, inLoop: bool)
    requires BytesQueued(c) && c.state.Connected?
    ensures BytesQueued(AfterShutdown(c, inLoop))
  {
    var job :| job in c.jobs && Carries(job);
    assert job in AfterShutdown(c, inLoop).jobs;
  }

  lemma ShutdownIsHarmless(c: Conn, inLoop: bool)
    requires Inv(c) && c.state.Connected?
    requires !(BytesQueued(c) && (inLoop || c.output != [] || BytesInARow(c.jobs)))
    ensures Harmless(AfterShutdown(c, inLoop))
  {
    var d := AfterShutdown(c, inLoop);
    StepKeepsInv(c, CallShutdown(inLoop));
    OnlySendsQueued(c);
    if BytesQueued(c) {
      assert d.jobs == c.jobs + [ShutdownJob];
      assert ShutdownLast(d.jobs) && !BytesInARow(d.jobs);
    } else {
      assert forall job :: job in d.jobs ==> job in c.jobs || job == ShutdownJob;
    }
  }

  /** A send of the loop's own, then a foreign send and a foreign shutdown: what they leave. */
  lemma BeforeTheDrain(a: Byte, b: Byte) returns (c: Conn)
    ensures Run(FRESH, [Establish, CallSend([a], true, WouldBlock), CallSend([b], false, WouldBlock), CallShutdown(false)])
         == Reached(c)
    ensures c.output == [a] && c.writing && c.open && c.state.Disconnecting? && c.shuts == 0
    ensures c.jobs == [SendJob([b]), ShutdownJob]
  {
    var last := [CallShutdown(false)] + [];
    var more := [CallSend([b], false, WouldBlock)] + last;
    var c1 := AfterEstablishConnection(FRESH);
    var c2 := AfterSendInLoop(c1, [a], WouldBlock);
    var c3 := AfterSend(c2, [b], false, WouldBlock);
    c := AfterShutdown(c3, false);
    RunCons(c3, CallShutdown(false), []);
    RunCons(c2, CallSend([b], false, WouldBlock), last);
    RunCons(c1, CallSend([a], true, WouldBlock), more);
    RunCons(FRESH, Establish, [CallSend([a], true, WouldBlock)] + more);
    assert [Establish] + ([CallSend([a], true, WouldBlock)] + more)
        == [Establish, CallSend([a], true, WouldBlock), CallSend([b], false, WouldBlock), CallShutdown(false)];
    assert c2.output == [a];
  }

  lemma {:induction false} RunAppend(c: Conn, events: seq<Event>, last: Event)
    ensures match Run(c, events)
            case Reached(r) => Enabled(r, last) ==> Run(c, events + [last]) == Reached(Apply(r, last))
            case Stuck => true
    decreases |events|
  {
    if events == [] {
      if Enabled(c, last) { RunCons(c, last, []); }
    } else if Enabled(c, events[0]) {
      RunAppend(Apply(c, events[0]), events[1..], last);
      assert (events + [last])[1..] == events[1..] + [last];
    }
  }

  /** Witness: it happens, when the earlier output then drains. */
  lemma OvertakingRun(a: Byte, b: Byte) returns (events: seq<Event>)
    ensures match Run(FRESH, events)
            case Reached(r) => Inv(r) && r.shuts == 1 && r.state.Disconnecting? && SendJob([b]) in r.jobs
            case Stuck => false
  {
    var before := [Establish, CallSend([a], true, WouldBlock), CallSend([b], false, WouldBlock), CallShutdown(false)];
    events := before + [Writable(Wrote(1))];
    var c := BeforeTheDrain(a, b);
    RunAppend(FRESH, before, Writable(Wrote(1)));
    assert c.output[1..] == [];
    RunKeepsInv(FRESH, events);
  }

  /** The connection object. `View` is its abstract state; the output bytes live in a `Buffer`. Each
      method does to the fields what the function of the same name says. */
  class TcpConnection {
    var state: State
    var reading: bool
    var writing: bool
    var open: bool
    const outputBuf: Buffer
    var jobs: seq<Job>
    ghost var wire: seq<Byte>
    ghost var accepted: seq<seq<Byte>>
    ghost var shuts: nat
    ghost var closes: nat
    ghost var dirty: bool
    ghost var faulted: bool

    ghost predicate Valid()
      reads this, outputBuf
    {
      outputBuf.Valid()
    }

    ghost function View(): Conn
      requires Valid()
      reads this, outputBuf, outputBuf.store
    {
      Conn(state, reading, writing, open, outputBuf.View().bytes, jobs, wire, accepted, shuts, closes, dirty, faulted)
    }

    constructor ()
      ensures Valid() && fresh(outputBuf) && fresh(outputBuf.store) && View() == FRESH
    {
      state, reading, writing, open, jobs := Connecting, false, false, true, [];
      outputBuf := new Buffer();
      wire, accepted, shuts, closes, dirty, faulted := [], [], 0, 0, false, false;
    }

    method EstablishConnection()
      requires Valid() && state.Connecting?
      modifies this
      ensures Valid() && View() == AfterEstablishConnection(old(View()))
    {
      state := Connected;
      reading := true;
    }

    method DestroyConnection()
      requires Valid()
      modifies this
      ensures Valid() && View() == AfterDestroyConnection(old(View()))
    {
      state := Disconnected;
      reading, writing := false, false;
      open := false;
    }

    method SendInLoop(message: seq<Byte>, answer: Answer)
      requires Valid() && Fits(answer, |message|)
      modifies this, outputBuf, outputBuf.store
      ensures Valid() && (outputBuf.store == old(outputBuf.store) || fresh(outputBuf.store))
      ensures View() == AfterSendInLoop(old(View()), message, answer)
    {
      var nwrite := 0;
      var remain := |message|;
      var err := false;
      if state.Disconnected? {
        return;
      }
      if !writing && outputBuf.writeIndex == outputBuf.readIndex {
        if answer.Wrote? {
          nwrite := answer.n;
          remain := |message| - nwrite;
          wire := wire + message[..nwrite];
        } else {
          err := answer.PeerGone?;
        }
      }
      if !err {
        accepted := accepted + [message];
      }
      if !err && remain > 0 {
        assert message[0..] == message;
        KeepForLater(message[nwrite..]);
      }
    }

    /** What the kernel did not take goes behind the buffered output, and writability is asked for. */
    method KeepForLater(rest: seq<Byte>)
      requires Valid() && rest != []
      modifies this`writing, outputBuf, outputBuf.store
      ensures Valid() && (outputBuf.store == old(outputBuf.store) || fresh(outputBuf.store))
      ensures View() == Buffered(old(View()), rest)
    {
      outputBuf.Write(rest);
      if !writing {
        writing := true;
      }
    }

    method ShutdownInLoop()
      requires Valid()
      modifies this
      ensures Valid() && View() == AfterShutdownInLoop(old(View()))
    {
      if !writing {
        shuts, dirty := shuts + 1, dirty || outputBuf.View().bytes != [];
      }
    }

    method HandleClose()
      requires Valid() && !state.Connecting?
      modifies this
      ensures Valid() && View() == AfterHandleClose(old(View()))
    {
      state := Disconnected;
      reading := false;
      if writing {
        return;
      }
      writing := false;
      closes, dirty := closes + 1, dirty || outputBuf.View().bytes != [];
    }

    method HandleWrite(answer: Answer)
      requires Valid() && Fits(answer, outputBuf.writeIndex - outputBuf.readIndex)
      modifies this, outputBuf
      ensures Valid() && outputBuf.store == old(outputBuf.store)
      ensures View() == AfterHandleWrite(old(View()), answer)
    {
      if writing && answer.Wrote? && answer.n > 0 {
        wire := wire + outputBuf.View().bytes[..answer.n];
        outputBuf.Release(answer.n);
        if outputBuf.writeIndex == outputBuf.readIndex {
          writing := false;
          if state == Disconnecting {
            ShutdownInLoop();
          }
          if state == Disconnected {
            HandleClose();
          }
        }
      }
    }

    method HandleRead(arrival: Arrival)
      requires Valid() && !state.Connecting?
      modifies this
      ensures Valid() && View() == AfterHandleRead(old(View()), arrival)
    {
      if arrival.Eof? {
        HandleClose();
      }
    }

    method ForceCloseInLoop()
      requires Valid()
      modifies this
      ensures Valid() && View() == AfterForceCloseInLoop(old(View()))
    {
      if state == Connected || state == Disconnecting {
        HandleClose();
      }
    }

    method Send(message: seq<Byte>, inLoop: bool, answer: Answer)
      requires Valid() && Fits(answer, |message|)
      modifies this, outputBuf, outputBuf.store
      ensures Valid() && (outputBuf.store == old(outputBuf.store) || fresh(outputBuf.store))
      ensures View() == AfterSend(old(View()), message, inLoop, answer)
    {
      if state == Connected {
        if inLoop {
          SendInLoop(message, answer);
        } else {
          jobs := jobs + [SendJob(message)];
        }
      }
    }

    method Shutdown(inLoop: bool)
      requires Valid()
      modifies this
      ensures Valid() && View() == AfterShutdown(old(View()), inLoop)
    {
      if state == Connected {
        state := Disconnecting;
        if inLoop {
          ShutdownInLoop();
        } else {
          jobs := jobs + [ShutdownJob];
        }
      }
    }

    method ForceClose()
      requires Valid()
      modifies this
      ensures Valid() && View() == AfterForceClose(old(View()))
    {
      if state == Connected || state == Disconnecting {
        state := Disconnected;
        jobs := jobs + [ForceCloseJob];
      }
    }

    method RunJob(answer: Answer)
      requires Valid() && jobs != [] && (jobs[0].SendJob? ==> Fits(answer, |jobs[0].message|))
      modifies this, outputBuf, outputBuf.store
      ensures Valid() && (outputBuf.store == old(outputBuf.store) || fresh(outputBuf.store))
      ensures View() == AfterRunJob(old(View()), answer)
    {
      var job := jobs[0];
      jobs := jobs[1..];
      match job
      case SendJob(message) => SendInLoop(message, answer);
      case ShutdownJob => ShutdownInLoop();
      case ForceCloseJob => ForceCloseInLoop();
    }

    /** Any handler or API call, in a state the protocol allows, keeps the protocol's invariant. */
    method Handle(e: Event)
      requires Valid() && Inv(View()) && Enabled(View(), e)
      modifies this, outputBuf, outputBuf.store
      ensures Valid() && View() == Apply(old(View()), e) && Inv(View())
      ensures outputBuf.store == old(outputBuf.store) || fresh(outputBuf.store)
    {
      StepKeepsInv(View(), e);
      match e
      case Establish => EstablishConnection();
      case Destroy => DestroyConnection();
      case Readable(arrival) => HandleRead(arrival);
      case Writable(answer) => HandleWrite(answer);
      case CallSend(message, inLoop, answer) => Send(message, inLoop, answer);
      case CallShutdown(inLoop) => Shutdown(inLoop);
      case CallForceClose => ForceClose();
      case ForceCloseTimer => ForceCloseInLoop();
      case Job(answer) => RunJob(answer);
    }
  }
}
