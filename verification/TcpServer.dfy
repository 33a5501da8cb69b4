/** The hand-off of connections between the accept loop (loop 0) and the I/O loops, and back. Every
    interleaving of loop steps, of handlers and of API calls on any connection is a run. */
module TcpServers {
  import opened TcpConnections
  import LogStreams

  type Id = nat
  type Loop = nat

  const ACCEPT_LOOP: Loop := 0

  /** Functors posted across loops. */
  datatype Task = EstablishTask(id: Id) | EraseTask(id: Id) | DestroyTask(id: Id)

  /** A connection together with how often it was established and destroyed. */
  datatype Entry = Entry(conn: Conn, home: Loop, establishes: nat, destroys: nat)

  datatype Server = Server(
    name: string,
    nextId: nat,
    entries: map<Id, Entry>,            // history: every connection ever accepted
    connections: map<string, Id>,       // connections_
    queues: map<Loop, seq<Task>>)

  function StartedAs(name: string): Server {
    Server(name, 1, map[], map[], map[])
  }

  /** The name a server called `server` gives its connection number `id`. */
  function NameOf(server: string, id: Id): string {
    server + "#" + LogStreams.Decimal(id)
  }

  lemma NamesAreDistinct(server: string, i: Id, j: Id)
    ensures NameOf(server, i) == NameOf(server, j) ==> i == j
  {
    LogStreams.DecimalReadsBack(i);
    LogStreams.DecimalReadsBack(j);
    var n := |server| + 1;
    assert NameOf(server, i)[n..] == LogStreams.Decimal(i) && NameOf(server, j)[n..] == LogStreams.Decimal(j);
  }

  predicate Listed(s: Server, id: Id) {
    NameOf(s.name, id) in s.connections
  }

  function Queue(s: Server, l: Loop): seq<Task> {
    if l in s.queues then s.queues[l] else []
  }

  function Post(s: Server, l: Loop, t: Task): Server {
    s.(queues := s.queues[l := Queue(s, l) + [t]])
  }

  function AfterEstablish(s: Server, id: Id): Server
    requires id in s.entries
  {
    var e := s.entries[id];
    s.(entries := s.entries[id := e.(conn := AfterEstablishConnection(e.conn), establishes := e.establishes + 1)])
  }

  function AfterDestroy(s: Server, id: Id): Server
    requires id in s.entries
  {
    var e := s.entries[id];
    s.(entries := s.entries[id := e.(conn := AfterDestroyConnection(e.conn), destroys := e.destroys + 1)])
  }

  function Unlisted(s: Server, id: Id): Server {
    s.(connections := s.connections - {NameOf(s.name, id)})
  }

  /** The functor of `RemoveTcpConnection`, on the accept loop. */
  function AfterErase(s: Server, id: Id): Server
    requires id in s.entries
  {
    Post(Unlisted(s, id), s.entries[id].home, DestroyTask(id))
  }

  /** `close_cb_`: `RunInLoop` runs the functor at once if the connection's loop is the accept loop. */
  function AfterClose(s: Server, id: Id): Server
    requires id in s.entries
  {
    if s.entries[id].home == ACCEPT_LOOP then AfterErase(s, id) else Post(s, ACCEPT_LOOP, EraseTask(id))
  }

  /** `NewTcpConnection` up to the point where the connection is recorded. */
  function Note(s: Server, io: Loop): Server {
    var id := s.nextId;
    s.(nextId := id + 1, entries := s.entries[id := Entry(FRESH, io, 0, 0)], connections := s.connections[NameOf(s.name, id) := id])
  }

  function AfterAccept(s: Server, io: Loop): Server {
    var id := s.nextId;
    var s := Note(s, io);
    if io == ACCEPT_LOOP then AfterEstablish(s, id) else Post(s, io, EstablishTask(id))
  }

  function Driven(s: Server, id: Id, after: Conn): Server
    requires id in s.entries
  {
    s.(entries := s.entries[id := s.entries[id].(conn := after)])
  }

  /** A handler or call that reaches `close_cb_` also asks for the connection's removal. */
  function AfterDrive(s: Server, id: Id, after: Conn): Server
    requires id in s.entries
  {
    if after.closes > s.entries[id].conn.closes then AfterClose(Driven(s, id, after), id)
    else Driven(s, id, after)
  }

  datatype Step =
    | Accept(io: Loop)
    | Drive(id: Id, e: Event)          // a handler of, or an API call on, one connection
    | RunTask(l: Loop)

  function Popped(s: Server, l: Loop): Server
    requires Queue(s, l) != []
  {
    s.(queues := s.queues[l := Queue(s, l)[1..]])
  }

  predicate CanStep(s: Server, step: Step) {
    match step
    case Accept(_) => true
    case Drive(id, e) => id in s.entries && !e.Establish? && !e.Destroy? && Enabled(s.entries[id].conn, e)
    case RunTask(l) => Queue(s, l) != [] && Queue(s, l)[0].id in s.entries
  }

  function Take(s: Server, step: Step): Server
    requires CanStep(s, step)
  {
    match step
    case Accept(io) => AfterAccept(s, io)
    case Drive(id, e) => AfterDrive(s, id, Apply(s.entries[id].conn, e))
    case RunTask(l) =>
      var task := Queue(s, l)[0];
      var s := Popped(s, l);
      match task
      case EstablishTask(id) => AfterEstablish(s, id)
      case EraseTask(id) => AfterErase(s, id)
      case DestroyTask(id) => AfterDestroy(s, id)
  }

  /** How many copies of each task the protocol's progress calls for. */
  function Due(s: Server, l: Loop, t: Task): nat {
    if t.id !in s.entries then 0
    else
      var e := s.entries[t.id];
      var listed := Listed(s, t.id);
      match t
      case EstablishTask(_) => if e.establishes == 0 && l == e.home then 1 else 0
      case EraseTask(_) => if e.conn.closes == 1 && listed && l == ACCEPT_LOOP then 1 else 0
      case DestroyTask(_) => if e.conn.closes == 1 && !listed && e.destroys == 0 && l == e.home then 1 else 0
  }

  predicate EntryInv(s: Server, id: Id)
    requires id in s.entries
  {
    var e := s.entries[id];
    var listed := Listed(s, id);
    && Inv(e.conn)
    && id < s.nextId
    && (listed ==> s.connections[NameOf(s.name, id)] == id)
    && e.establishes <= 1
    && (e.establishes == 0 <==> e.conn.state.Connecting?)
    && e.destroys == (if e.conn.open then 0 else 1)
    && (e.destroys == 1 ==> e.conn.closes == 1)
    && (e.conn.closes == 0 ==> listed)
    && (e.destroys == 1 ==> !listed)
  }

  function Held(s: Server, l: Loop, t: Task): nat {
    multiset(Queue(s, l))[t]
  }

  /** The entries and the list are consistent. */
  ghost predicate Recorded(s: Server) {
    && (forall id :: id in s.entries ==> EntryInv(s, id))
    && (forall name :: name in s.connections ==> s.connections[name] in s.entries && name == NameOf(s.name, s.connections[name]))
  }

  /** Every queue holds exactly the tasks due there, one more of `t` still to be posted on `l`. */
  ghost predicate BalancedBut(s: Server, l: Loop, t: Task, missing: nat) {
    forall k, u :: Held(s, k, u) + (if k == l && u == t then missing else 0) == Due(s, k, u)
  }

  ghost predicate ServerInv(s: Server) {
    Recorded(s) && forall l, t :: Held(s, l, t) == Due(s, l, t)
  }

  lemma PostHolds(s: Server, l: Loop, t: Task, k: Loop, u: Task)
    ensures Held(Post(s, l, t), k, u) == Held(s, k, u) + (if k == l && u == t then 1 else 0)
    ensures Due(Post(s, l, t), k, u) == Due(s, k, u)
  {
  }

  lemma PostIsRecorded(s: Server, l: Loop, t: Task)
    requires Recorded(s)
    ensures Recorded(Post(s, l, t))
  {
    forall id | id in s.entries ensures EntryInv(Post(s, l, t), id) { assert EntryInv(s, id); }
  }

  lemma PostBalances(s: Server, l: Loop, t: Task)
    requires Recorded(s) && BalancedBut(s, l, t, 1)
    ensures ServerInv(Post(s, l, t))
  {
    hide Due, Held, Recorded;
    var s' := Post(s, l, t);
    PostIsRecorded(s, l, t);
    forall k, u ensures Held(s', k, u) == Due(s', k, u) {
      PostHolds(s, l, t, k, u);
      assert Held(s, k, u) + (if k == l && u == t then 1 else 0) == Due(s, k, u);
    }
  }

  /** What one handler or call may change about a connection, as far as the server is concerned. */
  lemma DriveConn(c: Conn, e: Event)
    requires Inv(c) && Enabled(c, e) && !e.Establish? && !e.Destroy?
    ensures var c' := Apply(c, e);
            && Inv(c') && c'.open == c.open && (c'.state.Connecting? <==> c.state.Connecting?)
            && (c'.closes == c.closes || (c.closes == 0 && c'.closes == 1 && !c.state.Connecting? && c.open))
  {
    TcpConnections.StepKeepsInv(c, e);
    JobsAccount(c, e);
    var c' := Apply(c, e);
    assert c'.closes <= 1 && (c.state.Connecting? ==> !c.reading && c.output == []);
    OpenStays(c, e);
    if c.open { EndsExactly(c, e); }
    hide Inv, Apply, Ran;
  }

  lemma OpenStays(c: Conn, e: Event)
    requires Inv(c) && Enabled(c, e) && !e.Destroy?
    ensures var c' := Apply(c, e); c'.open == c.open && (!c.open ==> c'.closes == c.closes)
  {
    hide Flatten;
  }

  lemma NoteListsOne(s: Server, io: Loop, id: Id)
    requires Recorded(s)
    ensures Listed(Note(s, io), id) <==> Listed(s, id) || id == s.nextId
    ensures s.nextId !in s.entries && !Listed(s, s.nextId)
    ensures Listed(s, id) ==> Note(s, io).connections[NameOf(s.name, id)] == s.connections[NameOf(s.name, id)]
  {
    NamesAreDistinct(s.name, id, s.nextId);
    assert s.nextId in s.entries ==> EntryInv(s, s.nextId);
    if Listed(s, s.nextId) {
      NamesAreDistinct(s.name, s.connections[NameOf(s.name, s.nextId)], s.nextId);
    }
  }

  lemma NoteIsRecorded(s: Server, io: Loop)
    requires Recorded(s)
    ensures Recorded(Note(s, io))
  {
    var noted := Note(s, io);
    NoteListsOne(s, io, s.nextId);
    forall i | i in noted.entries ensures EntryInv(noted, i) {
      NoteListsOne(s, io, i);
      if i != s.nextId { assert EntryInv(s, i); }
    }
    forall name | name in noted.connections
      ensures noted.connections[name] in noted.entries && name == NameOf(s.name, noted.connections[name])
    {
      if name != NameOf(s.name, s.nextId) { assert name in s.connections; }
    }
  }

  lemma EstablishConn(c: Conn)
    requires Inv(c) && c.state.Connecting?
    ensures var c' := AfterEstablishConnection(c); Inv(c') && c'.state.Connected? && c'.closes == c.closes && c'.open == c.open
  {
    TcpConnections.StepKeepsInv(c, Event.Establish);
  }

  lemma DestroyConn(c: Conn)
    requires Inv(c) && c.closes == 1 && c.open
    ensures var c' := AfterDestroyConnection(c); Inv(c') && c'.state.Disconnected? && c'.closes == c.closes && !c'.open
  {
    TcpConnections.StepKeepsInv(c, Event.Destroy);
  }

  /** One entry replaced by a consistent one. */
  lemma ReplacedIsRecorded(s: Server, id: Id, e: Entry)
    requires Recorded(s) && id in s.entries && EntryInv(s.(entries := s.entries[id := e]), id)
    ensures Recorded(s.(entries := s.entries[id := e]))
  {
    var s' := s.(entries := s.entries[id := e]);
    forall i | i in s'.entries ensures EntryInv(s', i) {
      if i != id {
        assert EntryInv(s, i);
        assert s'.entries[i] == s.entries[i] && Listed(s', i) == Listed(s, i);
      }
    }
  }

  /** Replacing one entry leaves what is due for every other connection. */
  lemma ReplacedIsDue(s: Server, id: Id, e: Entry, l: Loop, t: Task)
    requires id in s.entries
    ensures var s' := s.(entries := s.entries[id := e]);
            Held(s', l, t) == Held(s, l, t) && (t.id != id ==> Due(s', l, t) == Due(s, l, t))
  {
  }

  /** ... so it is enough to look at the three tasks of that connection. */
  lemma ReplacedBalances(s: Server, id: Id, e: Entry, l: Loop, t: Task, gained: nat, missing: nat)
    requires id in s.entries && t.id == id && BalancedBut(s, l, t, gained)
    requires var s' := s.(entries := s.entries[id := e]);
             forall k, u: Task :: u.id == id ==>
               Due(s', k, u) + (if k == l && u == t then gained else 0) == Due(s, k, u) + (if k == l && u == t then missing else 0)
    ensures BalancedBut(s.(entries := s.entries[id := e]), l, t, missing)
  {
    var s' := s.(entries := s.entries[id := e]);
    forall k, u ensures Held(s', k, u) + (if k == l && u == t then missing else 0) == Due(s', k, u) {
      ReplacedIsDue(s, id, e, k, u);
      assert Held(s, k, u) + (if k == l && u == t then gained else 0) == Due(s, k, u);
    }
  }

  lemma NothingMissing(s: Server, l: Loop, t: Task)
    requires Recorded(s) && BalancedBut(s, l, t, 0)
    ensures ServerInv(s)
  {
    forall k, u ensures Held(s, k, u) == Due(s, k, u) {
      assert Held(s, k, u) + (if k == l && u == t then 0 else 0) == Due(s, k, u);
    }
  }

  lemma EstablishBalances(s: Server, id: Id)
    requires Recorded(s) && id in s.entries && s.entries[id].establishes == 0
    requires BalancedBut(s, s.entries[id].home, EstablishTask(id), 1)
    ensures ServerInv(AfterEstablish(s, id))
  {
    var s' := AfterEstablish(s, id);
    assert EntryInv(s, id);
    EstablishConn(s.entries[id].conn);
    assert Listed(s', id) == Listed(s, id);
    ReplacedIsRecorded(s, id, s'.entries[id]);
    ReplacedBalances(s, id, s'.entries[id], s.entries[id].home, EstablishTask(id), 1, 0);
    NothingMissing(s', s.entries[id].home, EstablishTask(id));
  }

  lemma DestroyBalances(s: Server, id: Id)
    requires Recorded(s) && id in s.entries && s.entries[id].destroys == 0
    requires s.entries[id].conn.closes == 1 && !Listed(s, id)
    requires BalancedBut(s, s.entries[id].home, DestroyTask(id), 1)
    ensures ServerInv(AfterDestroy(s, id))
  {
    var s' := AfterDestroy(s, id);
    assert EntryInv(s, id);
    DestroyConn(s.entries[id].conn);
    assert Listed(s', id) == Listed(s, id);
    ReplacedIsRecorded(s, id, s'.entries[id]);
    ReplacedBalances(s, id, s'.entries[id], s.entries[id].home, DestroyTask(id), 1, 0);
    NothingMissing(s', s.entries[id].home, DestroyTask(id));
  }

  lemma UnlistedIsRecorded(s: Server, id: Id)
    requires Recorded(s) && id in s.entries && s.entries[id].conn.closes == 1
    ensures Recorded(Unlisted(s, id)) && EntryInv(s, id)
  {
    forall i | i in s.entries ensures EntryInv(Unlisted(s, id), i) {
      NamesAreDistinct(s.name, i, id);
      assert EntryInv(s, i);
    }
  }

  /** Taking a closed connection off the list swaps its erasure for its destruction. */
  lemma UnlistedIsDue(s: Server, id: Id, l: Loop, t: Task)
    requires id in s.entries && s.entries[id].conn.closes == 1 && s.entries[id].destroys == 0 && Listed(s, id)
    ensures Due(Unlisted(s, id), l, t) + (if l == ACCEPT_LOOP && t == EraseTask(id) then 1 else 0)
         == Due(s, l, t) + (if l == s.entries[id].home && t == DestroyTask(id) then 1 else 0)
  {
    NamesAreDistinct(s.name, t.id, id);
  }

  lemma UnlistedHolds(s: Server, id: Id, l: Loop, t: Task)
    ensures Held(Unlisted(s, id), l, t) == Held(s, l, t)
  {
  }

  lemma EraseBalances(s: Server, id: Id)
    requires Recorded(s) && id in s.entries && s.entries[id].conn.closes == 1 && Listed(s, id)
    requires BalancedBut(s, ACCEPT_LOOP, EraseTask(id), 1)
    ensures ServerInv(AfterErase(s, id))
  {
    var erased, home := Unlisted(s, id), s.entries[id].home;
    UnlistedIsRecorded(s, id);
    assert EntryInv(s, id);
    assert s.entries[id].destroys == 0;
    hide EntryInv, Recorded, Held, Due;
    forall k, u ensures Held(erased, k, u) + (if k == home && u == DestroyTask(id) then 1 else 0) == Due(erased, k, u) {
      assert Held(s, k, u) + (if k == ACCEPT_LOOP && u == EraseTask(id) then 1 else 0) == Due(s, k, u);
      UnlistedIsDue(s, id, k, u);
      UnlistedHolds(s, id, k, u);
    }
    PostBalances(erased, home, DestroyTask(id));
  }

  /** A new connection is due its establishment and nothing else changes. */
  lemma NoteIsDue(s: Server, io: Loop, l: Loop, t: Task)
    requires Recorded(s)
    ensures Held(Note(s, io), l, t) == Held(s, l, t)
    ensures Due(Note(s, io), l, t) == Due(s, l, t) + (if l == io && t == EstablishTask(s.nextId) then 1 else 0)
  {
    NoteListsOne(s, io, t.id);
    NoteListsOne(s, io, s.nextId);
  }

  lemma AcceptKeepsInv(s: Server, io: Loop)
    requires ServerInv(s)
    ensures ServerInv(AfterAccept(s, io))
  {
    hide Recorded, Held, Due;
    var id, noted := s.nextId, Note(s, io);
    NoteIsRecorded(s, io);
    forall k, u ensures Held(noted, k, u) + (if k == io && u == EstablishTask(id) then 1 else 0) == Due(noted, k, u) {
      NoteIsDue(s, io, k, u);
      assert Held(s, k, u) == Due(s, k, u);
    }
    if io == ACCEPT_LOOP {
      EstablishBalances(noted, id);
    } else {
      PostBalances(noted, io, EstablishTask(id));
    }
  }

  lemma DrivenIsBalanced(s: Server, id: Id, after: Conn)
    requires ServerInv(s) && id in s.entries
    requires var c := s.entries[id].conn;
             && Inv(after) && after.open == c.open && (after.state.Connecting? <==> c.state.Connecting?)
             && (after.closes == c.closes || (c.closes == 0 && after.closes == 1))
    ensures Recorded(Driven(s, id, after))
    ensures BalancedBut(Driven(s, id, after), ACCEPT_LOOP, EraseTask(id), after.closes - s.entries[id].conn.closes)
    ensures s.entries[id].conn.closes == 0 ==> Listed(Driven(s, id, after), id)
  {
    var driven := Driven(s, id, after);
    assert EntryInv(s, id);
    assert Listed(driven, id) == Listed(s, id);
    ReplacedIsRecorded(s, id, driven.entries[id]);
    forall k, u ensures Held(s, k, u) + (if k == ACCEPT_LOOP && u == EraseTask(id) then 0 else 0) == Due(s, k, u) {
      assert Held(s, k, u) == Due(s, k, u);
    }
    ReplacedBalances(s, id, driven.entries[id], ACCEPT_LOOP, EraseTask(id), 0, after.closes - s.entries[id].conn.closes);
  }

  lemma DrivenKeepsInv(s: Server, id: Id, after: Conn)
    requires ServerInv(s) && id in s.entries
    requires var c := s.entries[id].conn;
             && Inv(after) && after.open == c.open && (after.state.Connecting? <==> c.state.Connecting?)
             && (after.closes == c.closes || (c.closes == 0 && after.closes == 1))
    ensures ServerInv(AfterDrive(s, id, after))
  {
    hide Recorded, Held, Due, EntryInv, Inv;
    var before, driven := s.entries[id], Driven(s, id, after);
    DrivenIsBalanced(s, id, after);
    if after.closes == before.conn.closes {
      NothingMissing(driven, ACCEPT_LOOP, EraseTask(id));
    } else if before.home == ACCEPT_LOOP {
      EraseBalances(driven, id);
    } else {
      PostBalances(driven, ACCEPT_LOOP, EraseTask(id));
    }
  }

  lemma DriveKeepsInv(s: Server, id: Id, e: Event)
    requires ServerInv(s) && CanStep(s, Drive(id, e))
    ensures ServerInv(Take(s, Drive(id, e)))
  {
    assert EntryInv(s, id);
    DriveConn(s.entries[id].conn, e);
    DrivenKeepsInv(s, id, Apply(s.entries[id].conn, e));
  }

  lemma PoppedHolds(s: Server, l: Loop, k: Loop, t: Task)
    requires Queue(s, l) != []
    ensures Held(Popped(s, l), k, t) + (if k == l && t == Queue(s, l)[0] then 1 else 0) == Held(s, k, t)
    ensures Due(Popped(s, l), k, t) == Due(s, k, t)
  {
    var q := Queue(s, l);
    assert q == [q[0]] + q[1..];
  }

  lemma PoppedIsBalanced(s: Server, l: Loop)
    requires ServerInv(s) && Queue(s, l) != []
    ensures BalancedBut(Popped(s, l), l, Queue(s, l)[0], 1) && Due(s, l, Queue(s, l)[0]) > 0
  {
    var t := Queue(s, l)[0];
    forall k, u ensures Held(Popped(s, l), k, u) + (if k == l && u == t then 1 else 0) == Due(Popped(s, l), k, u) {
      PoppedHolds(s, l, k, u);
      assert Held(s, k, u) == Due(s, k, u);
    }
    PoppedHolds(s, l, l, t);
    assert Held(s, l, t) == Due(s, l, t);
  }

  lemma PoppedIsRecorded(s: Server, l: Loop)
    requires Recorded(s) && Queue(s, l) != []
    ensures Recorded(Popped(s, l))
  {
    forall i | i in s.entries ensures EntryInv(Popped(s, l), i) { assert EntryInv(s, i); }
  }

  lemma RunTaskKeepsInv(s: Server, l: Loop)
    requires ServerInv(s) && CanStep(s, RunTask(l))
    ensures ServerInv(Take(s, RunTask(l)))
  {
    var task := Queue(s, l)[0];
    PoppedIsBalanced(s, l);
    PoppedIsRecorded(s, l);
    match task
    case EstablishTask(id) => EstablishBalances(Popped(s, l), id);
    case EraseTask(id) => EraseBalances(Popped(s, l), id);
    case DestroyTask(id) => DestroyBalances(Popped(s, l), id);
  }

  lemma StepKeepsServerInv(s: Server, step: Step)
    requires ServerInv(s) && CanStep(s, step)
    ensures ServerInv(Take(s, step))
  {
    match step
    case Accept(io) => AcceptKeepsInv(s, io);
    case Drive(id, e) => DriveKeepsInv(s, id, e);
    case RunTask(l) => RunTaskKeepsInv(s, l);
  }

  /** `RunInLoop` runs a functor at once on its own loop and posts it to any other: a connection of the accept loop
      is established as it is accepted and taken off the list as it closes. */
  lemma OwnLoopRunsAtOnce(s: Server, step: Step)
    requires ServerInv(s) && CanStep(s, step) && !step.RunTask?
    ensures match step
            case Accept(io) =>
              var r := Take(s, step);
              && s.nextId in r.entries && r.entries[s.nextId].home == io && Listed(r, s.nextId) && r.nextId == s.nextId + 1
              && r.entries[s.nextId].establishes == (if io == ACCEPT_LOOP then 1 else 0)
              && forall l :: Queue(r, l) == Queue(s, l) + if l == io != ACCEPT_LOOP then [EstablishTask(s.nextId)] else []
            case Drive(id, e) =>
              var r, home := Take(s, step), s.entries[id].home;
              var closes := Apply(s.entries[id].conn, e).closes > s.entries[id].conn.closes;
              && r.nextId == s.nextId && r.entries == s.entries[id := s.entries[id].(conn := Apply(s.entries[id].conn, e))]
              && (closes ==> if home == ACCEPT_LOOP then !Listed(r, id) && DestroyTask(id) in Queue(r, home)
                             else r.connections == s.connections && EraseTask(id) in Queue(r, ACCEPT_LOOP))
              && (!closes ==> r.connections == s.connections && r.queues == s.queues)
  {
    hide ServerInv, Apply;
  }

  /** A connection is destroyed only by a functor of its own loop, never inside its own handler. */
  lemma DestroyedByItsLoop(s: Server, step: Step, id: Id)
    requires ServerInv(s) && CanStep(s, step) && id in s.entries
    ensures id in Take(s, step).entries
    ensures Take(s, step).entries[id].destroys > s.entries[id].destroys ==>
              step == RunTask(s.entries[id].home) && Queue(s, s.entries[id].home)[0] == DestroyTask(id)
  {
    hide EntryInv, Recorded, Due, Held, Apply, NameOf;
    match step
    case Accept(io) => NextIsNew(s, id);
    case Drive(_, _) =>
    case RunTask(l) =>
      TaskIsAtHome(s, l);
      hide ServerInv;
  }

  lemma NextIsNew(s: Server, id: Id)
    requires ServerInv(s) && id in s.entries
    ensures id != s.nextId
  {
    assert EntryInv(s, id);
  }

  lemma TaskIsAtHome(s: Server, l: Loop)
    requires ServerInv(s) && CanStep(s, RunTask(l))
    ensures Queue(s, l)[0].DestroyTask? ==> l == s.entries[Queue(s, l)[0].id].home
  {
    var t := Queue(s, l)[0];
    assert t in multiset(Queue(s, l)) && Held(s, l, t) == Due(s, l, t);
  }

  datatype ServerOutcome = Halted | Arrived(server: Server)

  function RunServer(s: Server, steps: seq<Step>): ServerOutcome
    decreases |steps|
  {
    if steps == [] then Arrived(s)
    else if CanStep(s, steps[0]) then RunServer(Take(s, steps[0]), steps[1..])
    else Halted
  }

  lemma {:induction false} RunKeepsServerInv(s: Server, steps: seq<Step>)
    requires ServerInv(s)
    ensures match RunServer(s, steps) case Arrived(r) => ServerInv(r) case Halted => true
    decreases |steps|
  {
    if steps != [] && CanStep(s, steps[0]) {
      StepKeepsServerInv(s, steps[0]);
      RunKeepsServerInv(Take(s, steps[0]), steps[1..]);
    }
  }

  /** Over every interleaving of the accept loop, the I/O loops and all users: each connection is
      established at most once and destroyed at most once, destroyed only after being established, closed
      and taken off the list, and no assert of any connection fails (in particular the `kConnecting` one). */
  lemma TwoLoopLifecycle(server: string, steps: seq<Step>, id: Id)
    ensures match RunServer(StartedAs(server), steps)
            case Arrived(s) =>
              id in s.entries ==>
                var e := s.entries[id];
                && e.destroys <= e.establishes <= 1 && !e.conn.faulted
                && (e.destroys == 1 ==> e.conn.closes == 1 && !Listed(s, id))
                && (e.conn.open <==> e.destroys == 0)
            case Halted => true
  {
    RunKeepsServerInv(StartedAs(server), steps);
    match RunServer(StartedAs(server), steps)
    case Arrived(s) => if id in s.entries { assert EntryInv(s, id); }
    case Halted =>
  }

  /** The list maps distinct names to exactly the accepted connections not yet removed: a connection
      leaves it only after its `close_cb_`, and once no task is queued every closed one has left it and
      been destroyed. */
  lemma ListIsExact(server: string, steps: seq<Step>)
    ensures match RunServer(StartedAs(server), steps)
            case Arrived(s) =>
              && (forall name :: name in s.connections ==> s.connections[name] in s.entries && name == NameOf(s.name, s.connections[name]))
              && (forall id :: id in s.entries && s.entries[id].conn.closes == 0 ==> Listed(s, id) && s.connections[NameOf(s.name, id)] == id)
              && (forall id :: id in s.entries ==> (Listed(s, id) && s.entries[id].conn.closes == 1 <==> EraseTask(id) in Queue(s, ACCEPT_LOOP)))
              && ((forall l :: Queue(s, l) == []) ==>
                    forall id :: id in s.entries ==>
                      (Listed(s, id) <==> s.entries[id].conn.closes == 0) && s.entries[id].destroys == s.entries[id].conn.closes)
            case Halted => true
  {
    RunKeepsServerInv(StartedAs(server), steps);
    match RunServer(StartedAs(server), steps)
    case Arrived(s) =>
      forall id | id in s.entries
        ensures s.entries[id].conn.closes == 0 ==> Listed(s, id) && s.connections[NameOf(s.name, id)] == id
        ensures Listed(s, id) && s.entries[id].conn.closes == 1 <==> EraseTask(id) in Queue(s, ACCEPT_LOOP)
        ensures (forall l :: Queue(s, l) == []) ==>
                  (Listed(s, id) <==> s.entries[id].conn.closes == 0) && s.entries[id].destroys == s.entries[id].conn.closes
      {
        assert EntryInv(s, id);
        assert Held(s, ACCEPT_LOOP, EraseTask(id)) == Due(s, ACCEPT_LOOP, EraseTask(id));
        var home := s.entries[id].home;
        assert Held(s, home, DestroyTask(id)) == Due(s, home, DestroyTask(id));
      }
    case Halted =>
  }

  /** Under the server's protocol SHUT_WR and `close_cb_` are never issued with output pending, and a
      destroyed connection has handed every accepted byte to the kernel. */
  lemma NothingIsCutOff(server: string, steps: seq<Step>, id: Id)
    ensures match RunServer(StartedAs(server), steps)
            case Arrived(s) =>
              id in s.entries ==>
                var e := s.entries[id];
                !e.conn.dirty && (e.destroys == 1 ==> e.conn.wire == Flatten(e.conn.accepted))
            case Halted => true
  {
    RunKeepsServerInv(StartedAs(server), steps);
    match RunServer(StartedAs(server), steps)
    case Arrived(s) =>
      if id in s.entries {
        assert EntryInv(s, id);
        assert s.entries[id].conn.wire + [] == s.entries[id].conn.wire;
      }
    case Halted =>
  }

  /** The server object on the accept loop, with the tasks each loop has queued and, for the proofs, the
      connections themselves. */
  class TcpServer {
    const name: string
    var nextConnId: nat
    var connections: map<string, Id>
    var queues: map<Loop, seq<Task>>
    var entries: map<Id, Entry>

    function View(): Server
      reads this
    {
      Server(name, nextConnId, entries, connections, queues)
    }

    constructor (name: string)
      ensures View() == StartedAs(name) && ServerInv(View())
    {
      this.name := name;
      nextConnId, connections, queues, entries := 1, map[], map[], map[];
    }

    method QueueInLoop(l: Loop, t: Task)
      modifies this`queues
      ensures View() == Post(old(View()), l, t)
    {
      queues := queues[l := (if l in queues then queues[l] else []) + [t]];
    }

    method NewTcpConnection(io: Loop)
      requires ServerInv(View())
      modifies this
      ensures View() == AfterAccept(old(View()), io) && ServerInv(View())
      ensures connections == old(connections)[NameOf(name, old(nextConnId)) := old(nextConnId)]
      ensures NameOf(name, old(nextConnId)) !in old(connections)
    {
      ghost var before := View();
      NoteListsOne(before, io, nextConnId);
      var id := nextConnId;
      nextConnId := nextConnId + 1;
      entries := entries[id := Entry(FRESH, io, 0, 0)];
      connections := connections[NameOf(name, id) := id];
      assert View() == Note(before, io);
      if io == ACCEPT_LOOP {
        EstablishConnection(id);
      } else {
        QueueInLoop(io, EstablishTask(id));
      }
      StepKeepsServerInv(before, Accept(io));
    }

    /** `close_cb_` of a connection that has just closed, called on its own loop. */
    method RemoveTcpConnection(id: Id)
      requires id in entries
      modifies this
      ensures View() == AfterClose(old(View()), id)
    {
      if entries[id].home == ACCEPT_LOOP {
        EraseConnection(id);
      } else {
        QueueInLoop(ACCEPT_LOOP, EraseTask(id));
      }
    }

    method EstablishConnection(id: Id)
      requires id in entries
      modifies this`entries
      ensures View() == AfterEstablish(old(View()), id)
    {
      var e := entries[id];
      entries := entries[id := e.(conn := AfterEstablishConnection(e.conn), establishes := e.establishes + 1)];
    }

    method DestroyConnection(id: Id)
      requires id in entries
      modifies this`entries
      ensures View() == AfterDestroy(old(View()), id)
    {
      var e := entries[id];
      entries := entries[id := e.(conn := AfterDestroyConnection(e.conn), destroys := e.destroys + 1)];
    }

    method EraseConnection(id: Id)
      requires id in entries
      modifies this`connections, this`queues
      ensures View() == AfterErase(old(View()), id)
    {
      connections := connections - {NameOf(name, id)};
      QueueInLoop(entries[id].home, DestroyTask(id));
    }

    /** One functor queued in one loop runs. */
    method RunNext(l: Loop)
      requires ServerInv(View()) && CanStep(View(), RunTask(l))
      modifies this
      ensures View() == Take(old(View()), RunTask(l)) && ServerInv(View())
    {
      ghost var before := View();
      var task := queues[l][0];
      queues := queues[l := queues[l][1..]];
      assert View() == Popped(before, l);
      match task {
        case EstablishTask(id) => EstablishConnection(id);
        case EraseTask(id) => EraseConnection(id);
        case DestroyTask(id) => DestroyConnection(id);
      }
      StepKeepsServerInv(before, RunTask(l));
    }
  }
}
