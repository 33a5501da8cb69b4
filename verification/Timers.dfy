/** The timer heap and the expiry pass. Times are nanoseconds. */
module Timers {
  import opened Options

  const MILLISECOND := 1_000_000

  class Timer {
    var when: int
    const interval: int
    const repeat: bool
    var canceled: bool

    constructor (when: int, interval: int)
      ensures this.when == when && this.interval == interval && repeat == (interval != 0) && !canceled
    {
      this.when, this.interval, this.repeat, this.canceled := when, interval, interval != 0, false;
    }

    method Restart(now: int)
      modifies this`when
      ensures when == if repeat then now + interval else 0
    {
      if repeat {
        when := now + interval;
      } else {
        when := 0;
      }
    }

    method Cancel()
      requires !canceled
      modifies this`canceled
      ensures canceled
    {
      canceled := true;
    }
  }

  function Parent(i: nat): (p: nat)
    requires i > 0
    ensures p < i
  {
    (i - 1) / 2
  }

  ghost predicate Ordered(h: seq<Timer>)
    reads h
  {
    forall i :: 0 < i < |h| ==> h[Parent(i)].when <= h[i].when
  }

  lemma {:induction false} RootIsEarliest(h: seq<Timer>, i: nat)
    requires Ordered(h) && i < |h|
    ensures h[0].when <= h[i].when
  {
    if i > 0 {
      RootIsEarliest(h, Parent(i));
    }
  }

  ghost predicate Distinct(h: seq<Timer>) {
    forall t :: t in h ==> multiset(h)[t] == 1
  }

  lemma DistinctPlaces(h: seq<Timer>, i: nat, j: nat)
    requires Distinct(h) && i < j < |h|
    ensures h[i] != h[j]
  {
    assert h == h[..j] + h[j..];
    assert h[i] in multiset(h[..j]) by { assert h[..j][i] == h[i]; }
    assert h[j] in multiset(h[j..]) by { assert h[j..][0] == h[j]; }
    assert multiset(h)[h[i]] == multiset(h[..j])[h[i]] + multiset(h[j..])[h[i]];
  }

  /** Ordered but for the timer at `i`, which may be due before its parent. */
  ghost predicate OrderedAbove(h: seq<Timer>, i: nat)
    reads h
  {
    && (forall k :: 0 < k < |h| && k != i ==> h[Parent(k)].when <= h[k].when)
    && (forall k :: 0 < k < |h| && Parent(k) == i && i > 0 ==> h[Parent(i)].when <= h[k].when)
  }

  /** Ordered but for the timer at `i`, which may be due after its children. */
  ghost predicate OrderedBelow(h: seq<Timer>, i: nat)
    reads h
  {
    && (forall k :: 0 < k < |h| && Parent(k) != i ==> h[Parent(k)].when <= h[k].when)
    && (forall k :: 0 < k < |h| && Parent(k) == i && i > 0 ==> h[Parent(i)].when <= h[k].when)
  }

  function Swapped(h: seq<Timer>, l: nat, r: nat): seq<Timer>
    requires l < |h| && r < |h|
  {
    h[l := h[r]][r := h[l]]
  }

  /** Where `UpInHeap` takes the timer at `i`: past every ancestor due after it. */
  ghost function Raised(h: seq<Timer>, i: nat): seq<Timer>
    requires i < |h|
    reads h
    decreases i
  {
    if i > 0 && h[i].when < h[Parent(i)].when then
      var r := Swapped(h, i, Parent(i));
      assert forall t :: t in r ==> t in h;
      Raised(r, Parent(i))
    else h
  }

  lemma RaiseStep(h: seq<Timer>, i: nat)
    requires 0 < i < |h| && OrderedAbove(h, i) && h[i].when < h[Parent(i)].when
    ensures OrderedAbove(Swapped(h, i, Parent(i)), Parent(i))
  {
    var p, r := Parent(i), Swapped(h, i, Parent(i));
    forall k | 0 < k < |r| && k != p ensures r[Parent(k)].when <= r[k].when {
      if Parent(k) == p {
        assert h[p].when <= h[k].when || k == i;
      } else if Parent(k) == i {
        assert h[p].when <= h[k].when;
      } else {
        assert h[Parent(k)].when <= h[k].when;
      }
    }
    forall k | 0 < k < |r| && Parent(k) == p && p > 0 ensures r[Parent(p)].when <= r[k].when {
      assert h[Parent(p)].when <= h[p].when;
      assert k != i ==> h[p].when <= h[k].when;
    }
  }

  lemma {:induction false} RaisedRoot(h: seq<Timer>, i: nat)
    requires i < |h| && OrderedAbove(h, i)
    ensures var r := Raised(h, i);
            |r| == |h| && r[0] == if i > 0 && h[i].when < h[0].when then h[i] else h[0]
    decreases i
  {
    if i > 0 && h[i].when < h[Parent(i)].when {
      var r := Swapped(h, i, Parent(i));
      RaiseStep(h, i);
      RaisedRoot(r, Parent(i));
      assert Parent(i) > 0 ==> r[0] == h[0];
    } else if i > 0 {
      assert Ordered(h);
      RootIsEarliest(h, i);
    }
  }

  lemma LowerStep(h: seq<Timer>, i: nat, m: nat)
    requires 0 < m < |h| && Parent(m) == i && OrderedBelow(h, i) && h[m].when < h[i].when
    requires forall k :: 0 < k < |h| && Parent(k) == i ==> h[m].when <= h[k].when
    ensures OrderedBelow(Swapped(h, i, m), m)
  {
  }

  lemma LastToRoot(h: seq<Timer>)
    requires h != [] && Ordered(h)
    ensures OrderedBelow(Swapped(h, 0, |h| - 1)[..|h| - 1], 0)
  {
    var r := Swapped(h, 0, |h| - 1)[..|h| - 1];
    forall k | 0 < k < |r| && Parent(k) != 0 ensures r[Parent(k)].when <= r[k].when {
      assert r[k] == h[k] && r[Parent(k)] == h[Parent(k)];
    }
  }

  lemma LoweredFarEnough(h: seq<Timer>, i: nat, m: nat)
    requires 0 < m < |h| && Parent(m) == i && OrderedBelow(h, i) && h[i].when <= h[m].when
    requires forall k :: 0 < k < |h| && Parent(k) == i ==> h[m].when <= h[k].when
    ensures Ordered(h)
  {
  }

  lemma LoweredToLeaf(h: seq<Timer>, i: nat)
    requires OrderedBelow(h, i) && i * 2 + 1 >= |h|
    ensures Ordered(h)
  {
    forall k | 0 < k < |h| ensures Parent(k) != i { }
  }

  /** What a callback did while its timer was running. */
  datatype Effect = Added(t: Timer) | Canceled(t: Timer)

  /** One turn of the expiry loop: a canceled timer is dropped, or the root runs and is then removed
      (`rearmed == None`) or put back for a later time. */
  datatype Turn = Reap(t: Timer) | Serve(t: Timer, due: int, effects: seq<Effect>, rearmed: Option<int>)

  ghost predicate Serves(turns: seq<Turn>, t: Timer) {
    exists i :: 0 <= i < |turns| && turns[i].Serve? && turns[i].t == t
  }

  ghost predicate Drops(turns: seq<Turn>, t: Timer) {
    exists i :: 0 <= i < |turns| && turns[i].t == t && (turns[i].Serve? ==> turns[i].rearmed.None?)
  }

  ghost predicate Adds(turns: seq<Turn>, t: Timer) {
    exists i :: 0 <= i < |turns| && turns[i].Serve? && Added(t) in turns[i].effects
  }

  ghost predicate Cancels(turns: seq<Turn>, t: Timer) {
    exists i :: 0 <= i < |turns| && turns[i].Serve? && Canceled(t) in turns[i].effects
  }

  /** What a pass may do next, given its turns so far and the timers canceled before it began: a canceled
      timer is dropped and never served; a timer is served when due, after every earlier due time, at
      most once, and leaves the heap unless it repeats, in which case it comes back for after `now`. */
  ghost predicate MayFollow(turns: seq<Turn>, turn: Turn, now: int, canceledBefore: set<Timer>) {
    match turn
    case Reap(t) => t in canceledBefore || Cancels(turns, t)
    case Serve(t, due, _, rearmed) =>
      && t !in canceledBefore && !Cancels(turns, t) && !Serves(turns, t)
      && due <= now
      && (forall i :: 0 <= i < |turns| && turns[i].Serve? ==> turns[i].due <= due)
      && (rearmed.Some? <==> t.repeat)
      && (rearmed.Some? ==> rearmed.value > now)
  }

  ghost predicate Orderly(turns: seq<Turn>, now: int, canceledBefore: set<Timer>) {
    forall j :: 0 <= j < |turns| ==> MayFollow(turns[..j], turns[j], now, canceledBefore)
  }

  lemma OrderlySnoc(turns: seq<Turn>, turn: Turn, now: int, canceledBefore: set<Timer>)
    requires Orderly(turns, now, canceledBefore) && MayFollow(turns, turn, now, canceledBefore)
    ensures Orderly(turns + [turn], now, canceledBefore)
  {
    var all := turns + [turn];
    forall j | 0 <= j < |all| ensures MayFollow(all[..j], all[j], now, canceledBefore) {
      assert all[..j] == if j < |turns| then turns[..j] else turns;
    }
  }

  lemma TurnsSnoc(turns: seq<Turn>, turn: Turn, t: Timer)
    ensures Serves(turns + [turn], t) <==> Serves(turns, t) || (turn.Serve? && turn.t == t)
    ensures Drops(turns + [turn], t) <==> Drops(turns, t) || (turn.t == t && (turn.Serve? ==> turn.rearmed.None?))
    ensures Adds(turns + [turn], t) <==> Adds(turns, t) || (turn.Serve? && Added(t) in turn.effects)
    ensures Cancels(turns + [turn], t) <==> Cancels(turns, t) || (turn.Serve? && Canceled(t) in turn.effects)
  {
    var all := turns + [turn];
    assert all[|turns|] == turn && forall i :: 0 <= i < |turns| ==> all[i] == turns[i];
  }

  /** What an orderly pass amounts to: timers fire in the order they are due, no timer fires twice, and
      none fires once a callback has canceled it or if it was canceled before. */
  lemma OrderlyMeans(turns: seq<Turn>, now: int, canceledBefore: set<Timer>, i: nat, j: nat)
    requires Orderly(turns, now, canceledBefore) && i < j < |turns| && turns[j].Serve?
    ensures turns[j].due <= now && turns[j].t !in canceledBefore
    ensures turns[i].Serve? ==> turns[i].due <= turns[j].due && turns[i].t != turns[j].t
    ensures turns[i].Serve? ==> Canceled(turns[j].t) !in turns[i].effects
  {
    assert MayFollow(turns[..j], turns[j], now, canceledBefore);
    assert turns[..j][i] == turns[i];
  }

  /** The heap, the due times in it, and which of its timers are canceled. */
  datatype Shot = Shot(heap: seq<Timer>, when: map<Timer, int>, canceled: set<Timer>)

  ghost function DueBy(at: Shot, now: int): set<Timer> {
    set t | t in at.when && at.when[t] <= now
  }

  /** The heap holds what the pass found or its callbacks added, less what the pass dropped. */
  ghost predicate Members(began: seq<Timer>, h: seq<Timer>, turns: seq<Turn>) {
    && (forall t :: t in h ==> t in began || Adds(turns, t))
    && (forall t :: t in began ==> (t in h <==> !Drops(turns, t)))
    && (forall i, e :: 0 <= i < |turns| && turns[i].Serve? && e in turns[i].effects && e.Added? ==>
          (e.t in h <==> !Drops(turns, e.t)))
  }

  /** Nothing in the heap is due before anything served; what was served is due after `now`, and the
      rest when it was found due. */
  ghost predicate Times(began: map<Timer, int>, when: map<Timer, int>, turns: seq<Turn>, now: int) {
    && (forall i, t :: 0 <= i < |turns| && turns[i].Serve? && t in when ==> turns[i].due <= when[t])
    && (forall t :: t in when && Serves(turns, t) ==> when[t] > now)
    && (forall t :: t in when && t in began && !Serves(turns, t) ==> when[t] == began[t])
  }

  ghost predicate Cancellations(began: set<Timer>, at: Shot, turns: seq<Turn>) {
    forall t :: t in at.heap ==> (t in at.canceled <==> t in began || Cancels(turns, t))
  }

  ghost predicate Tracks(began: Shot, at: Shot, turns: seq<Turn>, now: int) {
    Members(began.heap, at.heap, turns) && Times(began.when, at.when, turns, now) && Cancellations(began.canceled, at, turns)
  }

  ghost predicate Unmentioned(turns: seq<Turn>, t: Timer) {
    !Adds(turns, t) && !Serves(turns, t) && !Drops(turns, t) && !Cancels(turns, t)
  }

  /** What serving `turn.t` does to a heap. */
  ghost predicate ServedFrom(before: Shot, after: Shot, turn: Turn, now: int) {
    && turn.Serve? && turn.t in before.heap
    && before.when.Keys == (set t | t in before.heap) && after.when.Keys == (set t | t in after.heap)
    && (turn.t in after.heap <==> turn.rearmed.Some?)
    && (turn.t in after.when ==> after.when[turn.t] > now)
    && (forall t :: t in before.heap && t != turn.t ==> t in after.heap)
    && (forall t :: t in before.when && t != turn.t ==> t in after.when && after.when[t] == before.when[t])
    && (forall e :: e in turn.effects && e.Added? ==>
          e.t !in before.heap && e.t in after.heap && e.t in after.when && after.when[e.t] >= turn.due)
    && (forall t :: t in after.heap ==> t in before.heap || Added(t) in turn.effects)
    && (forall t :: t in after.heap ==>
          (t in after.canceled <==> (t in before.heap && t in before.canceled) || Canceled(t) in turn.effects))
  }

  lemma ServedMembers(began: Shot, before: Shot, after: Shot, turns: seq<Turn>, turn: Turn, now: int)
    requires Members(began.heap, before.heap, turns) && ServedFrom(before, after, turn, now)
    requires forall e :: e in turn.effects && e.Added? ==> e.t !in began.heap && Unmentioned(turns, e.t)
    ensures Members(began.heap, after.heap, turns + [turn])
  {
    forall t: Timer { TurnsSnoc(turns, turn, t); }
  }

  lemma ServedTimes(began: map<Timer, int>, before: Shot, after: Shot, turns: seq<Turn>, turn: Turn, now: int)
    requires Times(began, before.when, turns, now) && ServedFrom(before, after, turn, now) && turn.due <= now
    requires forall t :: t in before.when ==> turn.due <= before.when[t]
    requires forall e :: e in turn.effects && e.Added? ==> e.t !in began && Unmentioned(turns, e.t)
    requires forall i :: 0 <= i < |turns| && turns[i].Serve? ==> turns[i].due <= turn.due
    ensures Times(began, after.when, turns + [turn], now)
  {
    forall t: Timer { TurnsSnoc(turns, turn, t); }
    forall t | t in after.when
      ensures t == turn.t || t in before.when || (Added(t) in turn.effects && Added(t).t == t)
    {
      assert t in after.when.Keys && t in after.heap;
    }
  }

  lemma ServedCancellations(began: set<Timer>, before: Shot, after: Shot, turns: seq<Turn>, turn: Turn, now: int)
    requires Cancellations(began, before, turns) && ServedFrom(before, after, turn, now)
    requires forall e :: e in turn.effects && e.Added? ==> e.t !in began && Unmentioned(turns, e.t)
    ensures Cancellations(began, after, turns + [turn])
  {
    forall t: Timer { TurnsSnoc(turns, turn, t); }
  }

  lemma ServedTracks(began: Shot, before: Shot, after: Shot, turns: seq<Turn>, turn: Turn, now: int)
    requires Tracks(began, before, turns, now) && ServedFrom(before, after, turn, now)
    requires turn.due <= now && turn.due == before.when[turn.t]
    requires forall t :: t in before.when ==> turn.due <= before.when[t]
    requires forall e :: e in turn.effects && e.Added? ==>
               Unmentioned(turns, e.t) && e.t !in began.heap && e.t !in began.when && e.t !in began.canceled
    ensures Tracks(began, after, turns + [turn], now)
  {
    assert turn.t in before.when.Keys;
    ServedMembers(began, before, after, turns, turn, now);
    ServedTimes(began.when, before, after, turns, turn, now);
    ServedCancellations(began.canceled, before, after, turns, turn, now);
  }

  /** A turn that adds nothing due by `now` leaves one timer fewer due. */
  lemma ServedIsNoLongerDue(before: Shot, after: Shot, turn: Turn, now: int)
    requires ServedFrom(before, after, turn, now) && before.when[turn.t] <= now
    requires forall e :: e in turn.effects && e.Added? ==> after.when[e.t] > now
    ensures DueBy(after, now) < DueBy(before, now)
  {
    assert turn.t in before.when.Keys && turn.t in DueBy(before, now) && turn.t !in DueBy(after, now);
    forall t | t in DueBy(after, now) ensures t in DueBy(before, now) {
      assert t in after.when.Keys && t in after.heap;
      assert Added(t).t == t;
      assert t in before.heap && t in before.when.Keys;
    }
  }

  lemma MayServe(began: Shot, before: Shot, turns: seq<Turn>, turn: Turn, now: int)
    requires Tracks(began, before, turns, now) && turn.Serve? && turn.t in before.heap && turn.t in before.when
    requires turn.t !in before.canceled && turn.due == before.when[turn.t] <= now
    requires turn.rearmed.Some? <==> turn.t.repeat
    requires turn.rearmed.Some? ==> turn.rearmed.value > now
    ensures MayFollow(turns, turn, now, began.canceled)
  {
  }

  /** What dropping the root does to a heap. */
  ghost predicate ReapedFrom(before: Shot, after: Shot, root: Timer) {
    && root in before.heap && root !in after.heap
    && (forall t :: t in before.heap && t != root ==> t in after.heap)
    && (forall t :: t in after.heap ==> t in before.heap)
    && after.when == before.when - {root} && after.canceled == before.canceled - {root}
  }

  lemma ReapedMembers(began: seq<Timer>, before: Shot, after: Shot, turns: seq<Turn>, root: Timer)
    requires Members(began, before.heap, turns) && ReapedFrom(before, after, root)
    ensures Members(began, after.heap, turns + [Reap(root)])
  {
    forall t: Timer { TurnsSnoc(turns, Reap(root), t); }
  }

  lemma ReapedTimes(began: map<Timer, int>, before: Shot, after: Shot, turns: seq<Turn>, root: Timer, now: int)
    requires Times(began, before.when, turns, now) && ReapedFrom(before, after, root)
    ensures Times(began, after.when, turns + [Reap(root)], now)
  {
    forall t: Timer { TurnsSnoc(turns, Reap(root), t); }
  }

  lemma ReapedCancellations(began: set<Timer>, before: Shot, after: Shot, turns: seq<Turn>, root: Timer)
    requires Cancellations(began, before, turns) && ReapedFrom(before, after, root)
    ensures Cancellations(began, after, turns + [Reap(root)])
  {
    forall t: Timer { TurnsSnoc(turns, Reap(root), t); }
  }

  lemma ReapedTurn(began: Shot, before: Shot, after: Shot, turns: seq<Turn>, root: Timer, now: int)
    requires Orderly(turns, now, began.canceled) && Tracks(began, before, turns, now)
    requires ReapedFrom(before, after, root) && root in before.canceled
    ensures Orderly(turns + [Reap(root)], now, began.canceled) && Tracks(began, after, turns + [Reap(root)], now)
  {
    OrderlySnoc(turns, Reap(root), now, began.canceled);
    ReapedMembers(began.heap, before, after, turns, root);
    ReapedTimes(began.when, before, after, turns, root, now);
    ReapedCancellations(began.canceled, before, after, turns, root);
  }

  lemma ServedTurn(began: Shot, before: Shot, after: Shot, turns: seq<Turn>, turn: Turn, now: int)
    requires Orderly(turns, now, began.canceled) && Tracks(began, before, turns, now) && ServedFrom(before, after, turn, now)
    requires turn.t !in before.canceled && turn.t in before.when && turn.due == before.when[turn.t] <= now
    requires turn.rearmed.Some? <==> turn.t.repeat
    requires turn.rearmed.Some? ==> turn.rearmed.value > now
    requires forall t :: t in before.when ==> turn.due <= before.when[t]
    requires forall e :: e in turn.effects && e.Added? ==>
               Unmentioned(turns, e.t) && e.t !in began.heap && e.t !in began.when && e.t !in began.canceled
    ensures Orderly(turns + [turn], now, began.canceled) && Tracks(began, after, turns + [turn], now)
  {
    MayServe(began, before, turns, turn, now);
    OrderlySnoc(turns, turn, now, began.canceled);
    ServedTracks(began, before, after, turns, turn, now);
  }

  /** When nothing left is due, every timer found due was served or canceled. */
  lemma PassIsComplete(began: Shot, at: Shot, turns: seq<Turn>, now: int, t: Timer)
    requires Orderly(turns, now, began.canceled) && Tracks(began, at, turns, now)
    requires at.when.Keys == (set x | x in at.heap) && forall x :: x in at.when ==> at.when[x] > now
    requires t in began.heap && t in began.when && began.when[t] <= now && t !in began.canceled
    ensures Serves(turns, t) || Cancels(turns, t)
  {
    DroppedForAReason(turns, t, now, began.canceled);
    assert t in at.heap ==> t in at.when.Keys;
  }

  lemma NothingYet(at: Shot, now: int)
    requires at.when.Keys == (set t | t in at.heap)
    ensures Orderly([], now, at.canceled) && Tracks(at, at, [], now)
  {
  }

  class TimerManager {
    var heap: seq<Timer>

    ghost predicate Valid()
      reads this, heap
    {
      Ordered(heap) && Distinct(heap) && forall t :: t in heap ==> t.interval >= 0 && t.repeat == (t.interval != 0)
    }

    method SwapInHeap(l: nat, r: nat)
      requires l < |heap| && r < |heap|
      modifies `heap
      ensures heap == Swapped(old(heap), l, r) && multiset(heap) == multiset(old(heap))
    {
      heap := heap[l := heap[r]][r := heap[l]];
    }

    method Raise(i: nat)
      requires 0 < i < |heap| && OrderedAbove(heap, i) && heap[i].when < heap[Parent(i)].when
      modifies `heap
      ensures heap == Swapped(old(heap), i, Parent(i)) && multiset(heap) == multiset(old(heap))
      ensures OrderedAbove(heap, Parent(i))
      ensures Raised(heap, Parent(i)) == old(Raised(heap, i))
    {
      hide OrderedAbove;
      RaiseStep(heap, i);
      SwapInHeap(i, Parent(i));
    }

    method Lower(i: nat, m: nat)
      requires 0 < m < |heap| && Parent(m) == i && heap[m].when < heap[i].when
      requires forall k :: 0 < k < |heap| && Parent(k) == i ==> heap[m].when <= heap[k].when
      modifies `heap
      ensures |heap| == |old(heap)| && multiset(heap) == multiset(old(heap))
      ensures old(OrderedBelow(heap, i)) ==> OrderedBelow(heap, m)
    {
      if OrderedBelow(heap, i) { LowerStep(heap, i, m); }
      SwapInHeap(i, m);
    }

    method UpInHeap(start: nat)
      requires start < |heap| && OrderedAbove(heap, start)
      modifies `heap
      ensures Ordered(heap) && multiset(heap) == multiset(old(heap))
      ensures heap[0] == if start > 0 && old(heap)[start].when < old(heap)[0].when then old(heap)[start] else old(heap)[0]
      ensures heap == old(Raised(heap, start))
    {
      RaisedRoot(heap, start);
      ghost var goal := Raised(heap, start);
      var index := start;
      while index > 0 && heap[index].when < heap[Parent(index)].when
        invariant 0 <= index < |heap| && OrderedAbove(heap, index) && Raised(heap, index) == goal
        invariant |heap| == |old(heap)| && multiset(heap) == multiset(old(heap))
      {
        hide OrderedAbove, Raised;
        Raise(index);
        index := Parent(index);
      }
    }

    /** The child that is due first, the right one if they tie. */
    method MinChild(i: nat) returns (m: nat)
      requires i * 2 + 1 < |heap|
      ensures m < |heap| && m > 0 && Parent(m) == i
      ensures forall k :: 0 < k < |heap| && Parent(k) == i ==> heap[m].when <= heap[k].when
    {
      var child := i * 2 + 1;
      m := child;
      if child < |heap| - 1 {
        m := if heap[child].when < heap[child + 1].when then child else child + 1;
      }
      forall k | 0 < k < |heap| && Parent(k) == i ensures heap[m].when <= heap[k].when {
        assert k == child || k == child + 1;
      }
    }

    /** Restores the order if only the timer at `start` may be too high; touches nothing if that timer is
        due no later than its children. */
    method DownInHeap(start: nat)
      requires start <= |heap|
      modifies `heap
      ensures |heap| == |old(heap)| && multiset(heap) == multiset(old(heap))
      ensures old(OrderedBelow(heap, start)) ==> Ordered(heap)
      ensures old(forall k :: 0 < k < |heap| && Parent(k) == start ==> heap[start].when <= heap[k].when) ==> heap == old(heap)
    {
      var index := start;
      ghost var sound := OrderedBelow(heap, start);
      while index * 2 + 1 < |heap|
        invariant 0 <= index && (sound ==> OrderedBelow(heap, index))
        invariant |heap| == |old(heap)| && multiset(heap) == multiset(old(heap))
        invariant (index == start && heap == old(heap)) || exists k :: 0 < k < |old(heap)| && Parent(k) == start && old(heap)[k].when < old(heap)[start].when
        decreases |heap| - index
      {
        var minChild := MinChild(index);
        if heap[index].when <= heap[minChild].when {
          if sound { LoweredFarEnough(heap, index, minChild); }
          return;
        }
        Lower(index, minChild);
        index := minChild;
      }
      if sound { LoweredToLeaf(heap, index); }
    }

    method PushInHeap(t: Timer)
      requires Ordered(heap)
      modifies `heap
      ensures Ordered(heap) && multiset(heap) == multiset(old(heap)) + multiset{t}
      ensures heap[0] == if old(heap) == [] || t.when < old(heap)[0].when then t else old(heap)[0]
      ensures heap == old(Raised(heap + [t], |heap|))
    {
      heap := heap + [t];
      UpInHeap(|heap| - 1);
    }

    method PopInHeap()
      requires heap != [] && Ordered(heap)
      modifies `heap
      ensures Ordered(heap) && multiset(heap) == multiset(old(heap)) - multiset{old(heap)[0]}
    {
      hide Ordered, OrderedBelow;
      ghost var before := heap;
      SwapInHeap(0, |heap| - 1);
      heap := heap[..|heap| - 1];
      assert Swapped(before, 0, |before| - 1) == heap + [before[0]];
      LastToRoot(before);
      DownInHeap(0);
    }

    /** The root is restarted and then lowered to its new place. */
    method RearmRoot(root: Timer, clock: int)
      requires Valid() && heap != [] && heap[0] == root && root.repeat && root.when <= clock
      modifies `heap, root`when
      ensures Valid() && multiset(heap) == multiset(old(heap))
      ensures forall x :: x in heap <==> x in old(heap)
      ensures root.when == clock + root.interval
    {
      ghost var before := heap;
      root.Restart(clock);
      forall k | 0 < k < |heap| ensures heap[k] != root { DistinctPlaces(heap, 0, k); }
      DownInHeap(0);
      forall x ensures x in heap <==> x in before {
        assert x in heap <==> x in multiset(heap);
        assert x in before <==> x in multiset(before);
      }
    }

    /** The timers a callback may create: due no earlier than the timer that is running, and in this very
        pass only while it has `allowance` for that; one-shot or with a positive interval. */
    static predicate Polite(when: int, interval: int, due: int, now: int, allowance: nat) {
      interval >= 0 && when >= due && (when <= now ==> allowance > 0)
    }

    ghost predicate RootStays(root: Timer, now: int)
      reads this, heap
    {
      Valid() && heap != [] && heap[0] == root && root.when <= now
    }

    /** `AddTimer` from a callback: the heap gains one timer and keeps its root. */
    method AddFromCallback(when: int, interval: int, now: int, root: Timer, ghost allowance: nat) returns (t: Timer)
      requires RootStays(root, now) && Polite(when, interval, root.when, now, allowance)
      modifies `heap
      ensures RootStays(root, now) && fresh(t) && t.when == when && !t.canceled
      ensures forall x :: x in heap <==> x in old(heap) || x == t
    {
      t := new Timer(when, interval);
      PushDistinct(t);
    }

    /** `Cancel` from a callback, of any timer still in the heap. */
    method CancelFromCallback(t: Timer, now: int, ghost root: Timer)
      requires RootStays(root, now) && t in heap && !t.canceled
      modifies t`canceled
      ensures RootStays(root, now) && t.canceled
    {
      t.Cancel();
    }

    /** What the callback of `root` may have done since `was` was the heap. */
    twostate predicate Affected(was: seq<Timer>, new effects: seq<Effect>, due: int)
      reads this, heap, was
    {
      && (forall x :: x in was ==> x in heap && x.when == old(x.when))
      && (forall x :: x in was ==> (x.canceled <==> old(x.canceled) || Canceled(x) in effects))
      && (forall e :: e in effects && e.Added? ==> fresh(e.t) && e.t in heap && e.t.when >= due)
      && (forall x :: x in heap ==> x in was || (Added(x) in effects && (x.canceled <==> Canceled(x) in effects)))
    }

    /** The callback of the timer at the root: it may cancel any live timer, itself included, and add any
        timers due no earlier than the root. At most `allowance` of those it adds are due by `now`. */
    method RunCallback(now: int, root: Timer, allowance: nat) returns (effects: seq<Effect>, left: nat)
      requires RootStays(root, now)
      modifies `heap, heap
      ensures RootStays(root, now)
      ensures Affected(old(heap), effects, root.when)
      ensures left <= allowance && (left == allowance ==> forall e :: e in effects && e.Added? ==> e.t.when > now)
    {
      effects, left := [], allowance;
      var steps: nat :| true;
      for step := 0 to steps
        invariant RootStays(root, now)
        invariant Affected(old(heap), effects, root.when)
        invariant left <= allowance && (left == allowance ==> forall e :: e in effects && e.Added? ==> e.t.when > now)
      {
        var adding: bool := *;
        if adding {
          var when: int, interval: int := *, *;
          if Polite(when, interval, root.when, now, left) {
            var t := AddFromCallback(when, interval, now, root, left);
            effects := effects + [Added(t)];
            if when <= now { left := left - 1; }
          }
        } else {
          var i: int := *;
          if 0 <= i < |heap| && !heap[i].canceled {
            var t := heap[i];
            CancelFromCallback(t, now, root);
            effects := effects + [Canceled(t)];
          }
        }
      }
    }

    /** Removes the root and nothing else. */
    method DropRoot()
      requires Valid() && heap != []
      modifies `heap
      ensures Valid() && |heap| == |old(heap)| - 1
      ensures forall x :: x in heap <==> x in old(heap) && x != old(heap)[0]
    {
      ghost var before := heap;
      PopInHeap();
      assert before[0] in before;
      forall x ensures x in heap <==> x in before && x != before[0] {
        assert x in heap <==> x in multiset(heap);
        assert x in before <==> x in multiset(before);
      }
    }

    ghost function Snapshot(): Shot
      reads this, heap
    {
      Shot(heap, map t | t in heap :: t.when, set t | t in heap && t.canceled)
    }

    /** Runs the root's callback, then removes that very timer or puts it back for later. */
    method ServeRoot(now: int, allowance: nat) returns (turn: Turn, left: nat)
      requires Valid() && heap != [] && !heap[0].canceled && heap[0].when <= now
      modifies `heap, heap
      ensures Valid() && turn.Serve? && turn.t == old(heap)[0] && turn.due == old(heap[0].when)
      ensures turn.rearmed.Some? <==> turn.t.repeat
      ensures turn.rearmed.Some? ==> turn.rearmed.value > now
      ensures ServedFrom(old(Snapshot()), Snapshot(), turn, now)
      ensures forall t :: t in heap ==> t in old(heap) || fresh(t)
      ensures forall e :: e in turn.effects && e.Added? ==> fresh(e.t)
      ensures left <= allowance && (left == allowance ==> forall e :: e in turn.effects && e.Added? ==> e.t.when > now)
    {
      var timer := heap[0];
      var due := timer.when;
      var effects;
      effects, left := RunCallback(now, timer, allowance);
      if timer.repeat {
        var clock: int :| clock >= now;
        RearmRoot(timer, clock);
        turn := Serve(timer, due, effects, Some(timer.when));
      } else {
        DropRoot();
        turn := Serve(timer, due, effects, None);
      }
    }

    /** How far a pass has come: `began` is what it found. */
    ghost predicate Underway(began: Shot, turns: seq<Turn>, now: int)
      reads this, heap
    {
      Valid() && Orderly(turns, now, began.canceled) && Tracks(began, Snapshot(), turns, now)
    }

    /** A turn that finds the root canceled. */
    method ReapTurn(ghost began: Shot, turns: seq<Turn>, now: int) returns (more: seq<Turn>)
      requires Underway(began, turns, now) && heap != [] && heap[0].canceled
      modifies `heap
      ensures Underway(began, more, now)
      ensures |heap| == |old(heap)| - 1 && forall t :: t in heap ==> t in old(heap)
    {
      hide Tracks, Orderly, Ordered, Distinct;
      var timer := heap[0];
      ghost var before := Snapshot();
      assert timer in before.heap && timer in before.canceled;
      DropRoot();
      more := turns + [Reap(timer)];
      ReapedTurn(began, before, Snapshot(), turns, timer, now);
    }

    /** A turn that finds the root due. */
    method ServeTurn(ghost began: Shot, turns: seq<Turn>, now: int, allowance: nat) returns (more: seq<Turn>, left: nat)
      requires Underway(began, turns, now)
      requires heap != [] && !heap[0].canceled && heap[0].when <= now
      modifies `heap, heap
      ensures Underway(began, more, now)
      ensures forall t :: t in heap ==> t in old(heap) || fresh(t)
      ensures left <= allowance && (left == allowance ==> DueBy(Snapshot(), now) < old(DueBy(Snapshot(), now)))
    {
      hide Tracks, Orderly, Ordered, Distinct;
      ghost var before := Snapshot();
      ghost var root := heap[0];
      forall i | 0 <= i < |heap| ensures root.when <= heap[i].when { RootIsEarliest(heap, i); }
      assert root in before.heap && root !in before.canceled;
      assert root in before.when && before.when[root] == root.when;
      assert forall t :: t in before.when ==> root.when <= before.when[t];
      var turn;
      turn, left := ServeRoot(now, allowance);
      more := turns + [turn];
      forall e | e in turn.effects && e.Added?
        ensures Unmentioned(turns, e.t) && e.t !in began.heap && e.t !in began.when && e.t !in began.canceled
      {
      }
      ServedTurn(began, before, Snapshot(), turns, turn, now);
      if left == allowance { ServedIsNoLongerDue(before, Snapshot(), turn, now); }
    }

    /** One pass. However callbacks cancel and add timers, it ends, having run in due order every timer
        that was due and not canceled meanwhile, and having left only timers due after `now`. `allowance`
        bounds how many timers due by `now` the callbacks add before they stop doing so. */
    method HandleExpired(now: int, allowance: nat) returns (turns: seq<Turn>)
      requires Valid()
      modifies `heap, heap
      ensures Valid() && forall t :: t in heap ==> t.when > now
      ensures Orderly(turns, now, old(Snapshot().canceled))
      ensures forall t :: t in heap ==> t in old(heap) || Adds(turns, t)
      ensures forall t :: t in old(heap) ==> (t in heap <==> !Drops(turns, t))
      ensures forall i, e :: 0 <= i < |turns| && turns[i].Serve? && e in turns[i].effects && e.Added? ==> (e.t in heap <==> !Drops(turns, e.t))
      ensures forall t :: t in old(heap) && old(t.when) <= now && !old(t.canceled) ==> Serves(turns, t) || Cancels(turns, t)
    {
      hide MayFollow, Ordered, Distinct, Times, Cancellations;
      turns := [];
      var left := allowance;
      ghost var began := Snapshot();
      NothingYet(began, now);
      while heap != []
        invariant Underway(began, turns, now)
        invariant forall t :: t in heap ==> t in old(heap) || fresh(t)
        decreases left, DueBy(Snapshot(), now), |heap|
      {
        if heap[0].canceled {
          turns := ReapTurn(began, turns, now);
        } else if heap[0].when <= now {
          assert forall i :: 0 <= i < |heap| ==> heap[i] in old(heap) || fresh(heap[i]);
          turns, left := ServeTurn(began, turns, now, left);
        } else {
          break;
        }
      }
      forall i | 0 <= i < |heap| ensures heap[i].when > now { RootIsEarliest(heap, i); }
      forall t | t in began.heap && began.when[t] <= now && t !in began.canceled ensures Serves(turns, t) || Cancels(turns, t) {
        PassIsComplete(began, Snapshot(), turns, now, t);
      }
    }

    /** What a callback of the root's adds: whatever the due times, the root stays exactly while nothing
        added is due strictly before it. */
    method RunAdding(adds: seq<int>) returns (ran: Timer)
      requires Valid() && heap != []
      modifies `heap
      ensures Valid() && heap != [] && ran == old(heap)[0] && ran in heap
      ensures forall x :: x in heap ==> x in old(heap) || fresh(x)
      ensures heap[0] == ran <==> forall i :: 0 <= i < |adds| ==> ran.when <= adds[i]
      ensures heap[0] != ran ==> heap[0].when < ran.when
    {
      ran := heap[0];
      for i := 0 to |adds|
        invariant Valid() && heap != [] && heap[0].when <= ran.when && ran in heap
        invariant forall x :: x in heap ==> x in old(heap) || fresh(x)
        invariant heap[0] == ran <==> forall k :: 0 <= k < i ==> ran.when <= adds[k]
        invariant heap[0] != ran ==> heap[0].when < ran.when
      {
        var t := new Timer(adds[i], 0);
        PushDistinct(t);
      }
    }

    /** A one-shot timer is followed by a pop of the heap's root. That is the timer that ran if and only if
        its callback added nothing due strictly before it. */
    method RunThenPop(adds: seq<int>) returns (ran: Timer, popped: Timer)
      requires Valid() && heap != [] && !heap[0].repeat
      modifies `heap
      ensures Valid() && ran == old(heap)[0] && popped !in heap
      ensures popped == ran <==> forall i :: 0 <= i < |adds| ==> ran.when <= adds[i]
    {
      ran := RunAdding(adds);
      popped := heap[0];
      DropRoot();
    }

    /** A repeating timer is restarted, and the heap's root lowered. That is the timer that ran if and only
        if its callback added nothing due strictly before it, and then the heap is in order. Otherwise
        the timer that ran keeps its `place` with a later due time and nothing moves: the order
        survives if and only if no child of that place is due before the new time. */
    method RunThenRearm(adds: seq<int>, clock: int) returns (ran: Timer, lowered: Timer, ghost found: seq<Timer>, ghost place: nat)
      requires Valid() && heap != [] && heap[0].repeat && heap[0].when <= clock
      modifies `heap, heap
      ensures forall t :: t in old(heap) && t != ran ==> t.when == old(t.when)
      ensures ran == old(heap)[0] && ran.when == clock + ran.interval
      ensures multiset(heap) == multiset(found) && place < |found| && found[place] == ran && found[0] == lowered
      ensures lowered == ran <==> forall i :: 0 <= i < |adds| ==> old(heap[0].when) <= adds[i]
      ensures lowered == ran ==> Ordered(heap)
      ensures lowered != ran ==>
                heap == found
                && (Ordered(heap) <==> forall k :: 0 < k < |heap| && Parent(k) == place ==> ran.when <= heap[k].when)
    {
      ran := RunAdding(adds);
      lowered, found := heap[0], heap;
      place :| 0 <= place < |heap| && heap[place] == ran;
      ghost var due := ran.when;
      assert forall k :: 0 < k < |heap| ==> heap[Parent(k)].when <= heap[k].when;
      forall k | 0 <= k < |heap| && k != place ensures heap[k] != ran {
        DistinctPlaces(heap, if k < place then k else place, if k < place then place else k);
      }
      ran.Restart(clock);
      assert due < ran.when;
      DownInHeap(0);
      if lowered != ran {
        assert heap == found;
        if forall k :: 0 < k < |heap| && Parent(k) == place ==> ran.when <= heap[k].when {
          forall k | 0 < k < |heap| ensures heap[Parent(k)].when <= heap[k].when { }
        }
      }
    }

    /** `PushInHeap` of a timer not yet in the heap. */
    method PushDistinct(t: Timer)
      requires Valid() && t !in heap && t.interval >= 0 && t.repeat == (t.interval != 0)
      modifies `heap
      ensures Valid() && forall x :: x in heap <==> x in old(heap) || x == t
      ensures heap != [] && heap[0] == if old(heap) == [] || t.when < old(heap)[0].when then t else old(heap)[0]
      ensures heap == old(Raised(heap + [t], |heap|))
    {
      ghost var before := heap;
      PushInHeap(t);
      forall x ensures x in heap <==> x in before || x == t {
        assert x in heap <==> x in multiset(heap);
        assert x in before <==> x in multiset(before);
      }
    }

    /** `NextTimeout`; `None` stands for INT64_MAX. The division truncates what is never negative. */
    method NextTimeout(now: int) returns (ms: Option<int>)
      requires Valid()
      ensures heap == [] <==> ms.None?
      ensures ms.Some? ==> ms.value == if heap[0].when < now then 0 else (heap[0].when - now) / MILLISECOND
    {
      if heap == [] {
        return None;
      }
      var timeout := heap[0].when - now;
      ms := Some(if timeout < 0 then 0 else timeout / MILLISECOND);
    }

    /** The wait handed to `epoll_wait`: exactly the longest whole number of milliseconds, up to ten
        seconds, that passes no timer's due time. */
    method PollTimeout(now: int) returns (ms: int)
      requires Valid()
      ensures 0 <= ms <= 10000
      ensures ms > 0 ==> forall t :: t in heap ==> now + ms * MILLISECOND <= t.when
      ensures (exists t :: t in heap && t.when <= now) ==> ms == 0
      ensures ms < 10000 ==> exists t :: t in heap && t.when < now + (ms + 1) * MILLISECOND
    {
      var next := NextTimeout(now);
      ms := if next.None? || next.value > 10000 then 10000 else next.value;
      forall i | 0 <= i < |heap| ensures heap[0].when <= heap[i].when { RootIsEarliest(heap, i); }
      assert heap != [] ==> heap[0] in heap;
    }
  }

  lemma FiveDistinct(h: seq<Timer>)
    requires |h| <= 5 && forall i, j :: 0 <= i < j < |h| ==> h[i] != h[j]
    ensures Distinct(h)
  {
    forall t | t in h ensures multiset(h)[t] == 1 {
      var i :| 0 <= i < |h| && h[i] == t;
      assert h == h[..i] + [t] + h[i + 1..];
      assert t !in h[..i] && t !in h[i + 1..];
    }
  }

  lemma RaisedTwice(a: Timer, b: Timer, c: Timer, d: Timer, t: Timer)
    requires t.when < a.when && t.when < b.when
    ensures Raised([a, b, c, d, t], 4) == [t, a, c, d, b]
  {
    assert Parent(4) == 1 && Parent(1) == 0;
    assert Swapped([a, b, c, d, t], 4, 1) == [a, t, c, d, b];
    assert Swapped([a, t, c, d, b], 1, 0) == [t, a, c, d, b];
    assert Raised([t, a, c, d, b], 0) == [t, a, c, d, b];
    assert Raised([a, t, c, d, b], 1) == [t, a, c, d, b];
  }

  lemma FourInOrder(a: Timer, b: Timer, c: Timer, d: Timer)
    requires a.when <= b.when && a.when <= c.when && b.when <= d.when
    ensures Ordered([a, b, c, d])
  {
    assert Parent(1) == Parent(2) == 0 && Parent(3) == 1;
  }

  method FourTimers() returns (m: TimerManager, a: Timer, b: Timer, c: Timer, d: Timer)
    ensures fresh(m) && fresh(a) && fresh(b) && fresh(c) && fresh(d) && m.Valid() && m.heap == [a, b, c, d]
    ensures a.when == 5 && a.interval == 100 && a.repeat && b.when == 6 && c.when == 6 && d.when == 7
  {
    a := new Timer(5, 100);
    b := new Timer(6, 0);
    c := new Timer(6, 0);
    d := new Timer(7, 0);
    m := new TimerManager;
    m.heap := [a, b, c, d];
    FiveDistinct(m.heap);
    FourInOrder(a, b, c, d);
  }

  /** Due 5 (repeating), 6, 6, 7; the callback adds a timer due at 1. */
  method DisplaceRoot() returns (m: TimerManager, ran: Timer)
    ensures fresh(m) && fresh(ran) && |m.heap| == 5 && m.Valid()
    ensures m.heap[0].when == 1 && m.heap[1] == ran && m.heap[2].when == 6 && m.heap[3].when == 7 && m.heap[4].when == 6
    ensures ran.when == 5 && ran.interval == 100 && ran.repeat
  {
    hide Raised, Ordered, Distinct;
    var b, c, d;
    m, ran, b, c, d := FourTimers();
    var t := new Timer(1, 0);
    RaisedTwice(ran, b, c, d, t);
    assert m.heap + [t] == [ran, b, c, d, t];
    m.PushDistinct(t);
  }

  /** Witness: the pass restarts that timer at 10 and lowers the root. The heap, due at 1, 110, 6, 7, 6, is
      out of order: two timers due at 7 and 6 now stand below one due at 110. */
  method RearmBreaksOrder() returns (m: TimerManager)
    ensures |m.heap| == 5 && m.heap[0].when == 1 && m.heap[1].when == 110
    ensures m.heap[2].when == 6 && m.heap[3].when == 7 && m.heap[4].when == 6
    ensures !Ordered(m.heap)
  {
    var ran;
    m, ran := DisplaceRoot();
    forall i | 0 <= i < 5 && i != 1 ensures m.heap[i] != ran {
      DistinctPlaces(m.heap, if i < 1 then i else 1, if i < 1 then 1 else i);
    }
    ghost var found := m.heap;
    ran.Restart(10);
    m.DownInHeap(0);
    assert m.heap == found;
    assert Parent(3) == 1 && m.heap[3].when < m.heap[Parent(3)].when;
  }

  lemma DroppedForAReason(turns: seq<Turn>, t: Timer, now: int, canceledBefore: set<Timer>)
    requires Orderly(turns, now, canceledBefore)
    ensures Drops(turns, t) && t !in canceledBefore ==> Serves(turns, t) || Cancels(turns, t)
  {
    if j :| 0 <= j < |turns| && turns[j].t == t && (turns[j].Serve? ==> turns[j].rearmed.None?) {
      assert MayFollow(turns[..j], turns[j], now, canceledBefore);
      if Cancels(turns[..j], t) {
        var i :| 0 <= i < j && turns[..j][i].Serve? && Canceled(t) in turns[..j][i].effects;
        assert turns[i] == turns[..j][i];
      }
    }
  }
}
