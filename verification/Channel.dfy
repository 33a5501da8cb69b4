/** A channel: one descriptor's interest mask and handlers, and the order in which one batch of epoll
    events is dispatched to them. */
module Channels {

  const EPOLLIN: bv32 := 0x1
  const EPOLLPRI: bv32 := 0x2
  const EPOLLOUT: bv32 := 0x4
  const EPOLLERR: bv32 := 0x8
  const EPOLLRDHUP: bv32 := 0x2000

  datatype Handler = OnError | OnRead | OnWrite

  predicate Reports(revents: bv32, h: Handler) {
    match h
    case OnError => revents & EPOLLERR != 0
    case OnRead => revents & (EPOLLIN | EPOLLPRI | EPOLLRDHUP) != 0
    case OnWrite => revents & EPOLLOUT != 0
  }

  /** Each single event and whom it concerns; a hang-up alone (0x10) concerns nobody. */
  lemma EachEvent(h: Handler)
    ensures Reports(0x1, h) <==> h == OnRead
    ensures Reports(0x2, h) <==> h == OnRead
    ensures Reports(0x4, h) <==> h == OnWrite
    ensures Reports(0x8, h) <==> h == OnError
    ensures Reports(0x2000, h) <==> h == OnRead
    ensures !Reports(0xFFFF_DFF0, h)
  {
  }

  lemma MaskedTogether(a: bv32, b: bv32, mask: bv32)
    ensures (a | b) & mask == (a & mask) | (b & mask)
  {
  }

  lemma NoBitIsLost(a: bv32, b: bv32)
    ensures a | b != 0 <==> a != 0 || b != 0
  {
  }

  lemma SomeBit(a: bv32, b: bv32, mask: bv32)
    ensures (a | b) & mask != 0 <==> a & mask != 0 || b & mask != 0
  {
    MaskedTogether(a, b, mask);
    NoBitIsLost(a & mask, b & mask);
  }

  lemma ErrorsTogether(a: bv32, b: bv32)
    ensures Reports(a | b, OnError) <==> Reports(a, OnError) || Reports(b, OnError)
  {
    SomeBit(a, b, EPOLLERR);
  }

  lemma ReadMask(r: bv32)
    ensures Reports(r, OnRead) <==> r & 0x2003 != 0
  {
  }

  lemma ReadsTogether(a: bv32, b: bv32)
    ensures Reports(a | b, OnRead) <==> Reports(a, OnRead) || Reports(b, OnRead)
  {
    hide Reports;
    ReadMask(a);
    ReadMask(b);
    ReadMask(a | b);
    SomeBit(a, b, 0x2003);
  }

  lemma WritesTogether(a: bv32, b: bv32)
    ensures Reports(a | b, OnWrite) <==> Reports(a, OnWrite) || Reports(b, OnWrite)
  {
    SomeBit(a, b, EPOLLOUT);
  }

  /** Events reported together concern everybody whom one of them concerns, so `EachEvent` settles every
      mask. */
  lemma EventsTogether(a: bv32, b: bv32, h: Handler)
    ensures Reports(a | b, h) <==> Reports(a, h) || Reports(b, h)
  {
    hide Reports;
    match h
    case OnError => ErrorsTogether(a, b);
    case OnRead => ReadsTogether(a, b);
    case OnWrite => WritesTogether(a, b);
  }

  function Offered(h: Handler, revents: bv32, handlers: set<Handler>): seq<Handler> {
    if Reports(revents, h) && h in handlers then [h] else []
  }

  /** The handlers that `revents` calls for and that are set. */
  function Due(revents: bv32, handlers: set<Handler>): (due: seq<Handler>)
    ensures forall h :: h in due <==> Reports(revents, h) && h in handlers
    ensures handlers == {} ==> due == []
  {
    Offered(OnError, revents, handlers) + Offered(OnRead, revents, handlers) + Offered(OnWrite, revents, handlers)
  }

  function Rank(h: Handler): nat {
    match h
    case OnError => 0
    case OnRead => 1
    case OnWrite => 2
  }

  /** ... in that order, and each once. */
  lemma DueInOrder(revents: bv32, handlers: set<Handler>)
    ensures var due := Due(revents, handlers); forall i, j :: 0 <= i < j < |due| ==> Rank(due[i]) < Rank(due[j])
  {
    hide Reports;
  }

  /** Handlers offered one after the other, while the set of handlers stays or is cleared. */
  lemma StopsAtClose(revents: bv32, first: set<Handler>, second: set<Handler>, third: set<Handler>, last: set<Handler>)
    requires (second == first || second == {}) && (third == second || third == {}) && (last == third || last == {})
    ensures var ran := Offered(OnError, revents, first) + Offered(OnRead, revents, second) + Offered(OnWrite, revents, third);
            ran <= Due(revents, first) && (last == first ==> ran == Due(revents, first))
  {
    hide Reports;
  }

  lemma Appended(calls: seq<Handler>, a: seq<Handler>, b: seq<Handler>, c: seq<Handler>)
    ensures var all := calls + a + b + c;
            calls <= all && all[|calls|..] == a + b + c && all == calls + (a + b + c)
  {
  }

  class Channel {
    var events: bv32
    var revents: bv32
    var handling: bool
    var handlers: set<Handler>         // the callbacks that are set
    var tied: bool
    var ownerAlive: bool               // `tie_` can still be locked
    var calls: seq<Handler>            // history: callbacks called
    var closedAfter: nat               // history: how many had been called when the channel was closed

    constructor (handlers: set<Handler>)
      ensures events == 0 && !handling && this.handlers == handlers && !tied && calls == []
    {
      events, revents, handling, tied, ownerAlive := 0, 0, false, false, true;
      this.handlers := handlers;
      calls, closedAfter := [], 0;
    }

    predicate ReadEnabled()
      reads this
    {
      events & EPOLLIN != 0
    }

    predicate WriteEnabled()
      reads this
    {
      events & EPOLLOUT != 0
    }

    method EnableRead()
      modifies `events
      ensures ReadEnabled() && WriteEnabled() == old(WriteEnabled())
      ensures events | EPOLLIN == old(events) | EPOLLIN
    {
      events := events | EPOLLIN;
    }

    method DisableRead()
      modifies `events
      ensures !ReadEnabled() && WriteEnabled() == old(WriteEnabled())
      ensures events | EPOLLIN == old(events) | EPOLLIN
    {
      events := events & !EPOLLIN;
    }

    method EnableWrite()
      modifies `events
      ensures WriteEnabled() && ReadEnabled() == old(ReadEnabled())
      ensures events | EPOLLOUT == old(events) | EPOLLOUT
    {
      events := events | EPOLLOUT;
    }

    method DisableWrite()
      modifies `events
      ensures !WriteEnabled() && ReadEnabled() == old(ReadEnabled())
      ensures events | EPOLLOUT == old(events) | EPOLLOUT
    {
      events := events & !EPOLLOUT;
    }

    method DisableReadWrite()
      modifies `events
      ensures !ReadEnabled() && !WriteEnabled()
      ensures events | EPOLLIN | EPOLLOUT == old(events) | EPOLLIN | EPOLLOUT
    {
      events := events & !(EPOLLIN | EPOLLOUT);
    }

    /** Whoever closes a channel has disabled both interests first. */
    method Close()
      requires events == 0
      modifies `handlers, `closedAfter
      ensures handlers == {} && closedAfter == |calls|
    {
      handlers, closedAfter := {}, |calls|;
    }

    /** A handler's callback: it may change the mask, and close the channel or let the owner go. */
    method Call(h: Handler)
      requires h in handlers
      modifies `events, `handlers, `ownerAlive, `calls, `closedAfter
      ensures calls == old(calls) + [h]
      ensures (handlers == old(handlers) && closedAfter == old(closedAfter)) || (handlers == {} && |old(calls)| < |calls| == closedAfter)
    {
      calls := calls + [h];
      events := *;
      var closes: bool := *;
      if events == 0 && closes {
        Close();
      }
      ownerAlive := *;
    }

    /** Calls one handler if its events are reported and it is still set. */
    method Offer(h: Handler)
      modifies `events, `handlers, `ownerAlive, `calls, `closedAfter
      ensures calls == old(calls) + Offered(h, revents, old(handlers))
      ensures (handlers == old(handlers) && closedAfter == old(closedAfter)) || (handlers == {} && |old(calls)| < |calls| == closedAfter)
    {
      if Reports(revents, h) && h in handlers {
        Call(h);
      }
    }

    /** Calls the handlers that are due, in the fixed order error, read, write. If the channel is closed
        meanwhile, the callback that did it is the last one called; once the owner is gone none is called. */
    method HandleEvents()
      modifies `events, `handlers, `ownerAlive, `calls, `closedAfter, `handling
      ensures old(tied && !ownerAlive) ==> calls == old(calls) && handlers == old(handlers)
      ensures old(!tied || ownerAlive) ==>
                && !handling && old(calls) <= calls && calls[|old(calls)|..] <= old(Due(revents, handlers))
                && (handlers == old(handlers) ==> calls == old(calls) + old(Due(revents, handlers)))
      ensures handlers != old(handlers) ==> handlers == {} && |old(calls)| < |calls| == closedAfter
    {
      if tied && !ownerAlive {
        return;
      }
      hide Due, Offered;
      ghost var first := handlers;
      handling := true;
      Offer(OnError);
      ghost var second := handlers;
      Offer(OnRead);
      ghost var third := handlers;
      Offer(OnWrite);
      handling := false;
      StopsAtClose(revents, first, second, third, handlers);
      Appended(old(calls), Offered(OnError, revents, first), Offered(OnRead, revents, second), Offered(OnWrite, revents, third));
    }
  }
}
