/** The connection's byte buffer: one growable store with a movable window of readable bytes and some
    headroom in front of it. */
module Buffers {

  type Byte = b: int | 0 <= b < 256

  const PREPEND_SIZE: nat := 8
  const EXTRA_SIZE: nat := 65536

  /** What the buffer means: the readable bytes, the room in front of them, and the store's size. */
  datatype Window = Window(bytes: seq<Byte>, head: nat, size: nat)
  {
    predicate Valid() {
      head + |bytes| <= size && PREPEND_SIZE <= size
    }

    function Tail(): nat
      requires Valid()
    {
      size - head - |bytes|
    }
  }

  function Max(a: nat, b: nat): nat {
    if a < b then b else a
  }

  /** The effect of `Write`: exactly the tail is used if the bytes fit it; otherwise the readable bytes
      move to the front and the store grows no more than they need. */
  function Written(w: Window, s: seq<Byte>): (r: Window)
    requires w.Valid()
    ensures r.Valid() && r.bytes == w.bytes + s
    ensures |s| <= w.Tail() ==> r.head == w.head && r.size == w.size
    ensures r.size > w.size ==> r.head == PREPEND_SIZE && r.Tail() == 0
  {
    if |s| <= w.Tail() then w.(bytes := w.bytes + s)
    else Window(w.bytes + s, PREPEND_SIZE, Max(w.size, PREPEND_SIZE + |w.bytes| + |s|))
  }

  function Released(w: Window, n: nat): (r: Window)
    requires w.Valid() && n <= |w.bytes|
    ensures r.Valid() && r.bytes == w.bytes[n..] && r.size == w.size
    ensures if r.bytes == [] then r.head == PREPEND_SIZE else r.Tail() == w.Tail()
  {
    if n < |w.bytes| then Window(w.bytes[n..], w.head + n, w.size) else Window([], PREPEND_SIZE, w.size)
  }

  function Unwritten(w: Window, n: nat): (r: Window)
    requires w.Valid() && n <= |w.bytes|
    ensures r.Valid() && r.bytes + w.bytes[|w.bytes| - n..] == w.bytes
    ensures r.head == w.head && r.size == w.size && r.Tail() == w.Tail() + n
  {
    w.(bytes := w.bytes[..|w.bytes| - n])
  }

  function Prepended(w: Window, s: seq<Byte>): (r: Window)
    requires w.Valid() && |s| <= w.head
    ensures r.Valid() && r.bytes == s + w.bytes && r.size == w.size && r.Tail() == w.Tail()
  {
    Window(s + w.bytes, w.head - |s|, w.size)
  }

  function Shrunk(w: Window, reserve: nat): (r: Window)
    requires w.Valid()
    ensures r.Valid() && r.bytes == w.bytes && r.Tail() == reserve
  {
    Window(w.bytes, PREPEND_SIZE, PREPEND_SIZE + |w.bytes| + reserve)
  }

  /** `std::copy` onto an overlapping range further down. */
  method CopyDown(a: array<Byte>, from: nat, count: nat, to: nat)
    requires to <= from && from + count <= a.Length
    modifies a
    ensures a[to..to + count] == old(a[from..from + count])
  {
    for i := 0 to count
      invariant a[to..to + i] == old(a[from..from + i])
      invariant a[from + i..from + count] == old(a[from + i..from + count])
    {
      assert a[from + i] == a[from + i..from + count][0];
      a[to + i] := a[from + i];
      assert a[from + i + 1..from + count] == old(a[from + i..from + count])[1..];
    }
  }

  /** `std::copy_backward` onto an overlapping range further up. */
  method CopyUp(a: array<Byte>, from: nat, count: nat, to: nat)
    requires from <= to && to + count <= a.Length
    modifies a
    ensures a[to..to + count] == old(a[from..from + count])
  {
    for i := count downto 0
      invariant a[to + i..to + count] == old(a[from + i..from + count])
      invariant a[from..from + i] == old(a[from..from + i])
    {
      assert a[from + i] == a[from..from + i + 1][i];
      a[to + i] := a[from + i];
      assert a[from..from + i] == old(a[from..from + i + 1])[..i];
    }
  }

  /** `std::copy` of fresh bytes into place. */
  method Fill(a: array<Byte>, at: nat, s: seq<Byte>)
    requires at + |s| <= a.Length
    modifies a
    ensures a[..] == old(a[..at]) + s + old(a[at + |s|..])
  {
    for i := 0 to |s|
      invariant a[..] == old(a[..at]) + s[..i] + old(a[at + i..])
    {
      a[at + i] := s[i];
    }
  }

  class Buffer {
    var store: array<Byte>
    var readIndex: nat
    var writeIndex: nat

    ghost predicate Valid()
      reads this
    {
      readIndex <= writeIndex <= store.Length && PREPEND_SIZE <= store.Length
    }

    ghost function View(): (w: Window)
      requires Valid()
      reads this, store
      ensures w.Valid()
    {
      Window(store[readIndex..writeIndex], readIndex, store.Length)
    }

    constructor (initSize: nat := 1024)
      ensures Valid() && fresh(store)
      ensures View() == Window([], PREPEND_SIZE, PREPEND_SIZE + initSize)
    {
      store := new Byte[PREPEND_SIZE + initSize];
      readIndex, writeIndex := PREPEND_SIZE, PREPEND_SIZE;
    }

    /** `std::vector::resize`: a prefix of the old elements, zeros behind it. */
    method Resize(size: nat)
      requires Valid() && writeIndex <= size && PREPEND_SIZE <= size
      modifies this`store
      ensures Valid() && fresh(store) && store.Length == size
      ensures store[..writeIndex] == old(store[..writeIndex])
    {
      var bigger := new Byte[size];
      forall i | 0 <= i < writeIndex {
        bigger[i] := store[i];
      }
      store := bigger;
    }

    method AlignPrepend()
      requires Valid()
      modifies this, store
      ensures Valid() && (store == old(store) || fresh(store))
      ensures View() == Window(old(View()).bytes, PREPEND_SIZE, Max(old(View()).size, PREPEND_SIZE + |old(View()).bytes|))
    {
      ghost var bytes := store[readIndex..writeIndex];
      var readable := writeIndex - readIndex;
      if readIndex == PREPEND_SIZE {
        return;
      } else if readIndex < PREPEND_SIZE {
        if store.Length < readable + PREPEND_SIZE {
          Resize(readable + PREPEND_SIZE);
          assert store[readIndex..writeIndex] == store[..writeIndex][readIndex..] == bytes;
        }
        CopyUp(store, readIndex, readable, PREPEND_SIZE);
      } else {
        CopyDown(store, readIndex, readable, PREPEND_SIZE);
      }
      readIndex := PREPEND_SIZE;
      writeIndex := readIndex + readable;
      assert store[readIndex..writeIndex] == bytes;
    }

    method ExtendSpace(len: nat)
      requires Valid()
      modifies this, store
      ensures Valid() && (store == old(store) || fresh(store))
      ensures View() == Window(old(View()).bytes, PREPEND_SIZE, Max(old(View()).size, PREPEND_SIZE + |old(View()).bytes| + len))
    {
      AlignPrepend();
      ghost var bytes := store[readIndex..writeIndex];
      if store.Length - writeIndex < len {
        Resize(writeIndex + len);
        assert store[readIndex..writeIndex] == store[..writeIndex][readIndex..] == bytes;
      }
    }

    /** Puts bytes behind the readable ones; they must fit the tail. */
    method Append(s: seq<Byte>)
      requires Valid() && |s| <= store.Length - writeIndex
      modifies this`writeIndex, store
      ensures Valid()
      ensures View() == old(View()).(bytes := old(View()).bytes + s)
    {
      ghost var before := store[..];
      Fill(store, writeIndex, s);
      writeIndex := writeIndex + |s|;
      assert store[..][readIndex..writeIndex] == before[readIndex..writeIndex - |s|] + s;
    }

    method Write(s: seq<Byte>)
      requires Valid()
      modifies this, store
      ensures Valid() && (store == old(store) || fresh(store))
      ensures View() == Written(old(View()), s)
    {
      if store.Length - writeIndex < |s| {
        ExtendSpace(|s|);
      }
      Append(s);
    }

    method Release(len: nat)
      requires Valid() && len <= writeIndex - readIndex
      modifies this
      ensures Valid() && store == old(store)
      ensures View() == Released(old(View()), len)
    {
      if len < writeIndex - readIndex {
        readIndex := readIndex + len;
      } else {
        readIndex, writeIndex := PREPEND_SIZE, PREPEND_SIZE;
      }
    }

    method Read(len: nat) returns (s: seq<Byte>)
      requires Valid() && len <= writeIndex - readIndex
      modifies this
      ensures Valid() && store == old(store)
      ensures s == old(View()).bytes[..len] && View() == Released(old(View()), len)
    {
      s := store[readIndex..readIndex + len];
      Release(len);
    }

    method UnWrite(len: nat)
      requires Valid() && len <= writeIndex - readIndex
      modifies this
      ensures Valid() && store == old(store)
      ensures View() == Unwritten(old(View()), len)
    {
      writeIndex := writeIndex - len;
    }

    method Prepend(s: seq<Byte>)
      requires Valid() && |s| <= readIndex
      modifies this, store
      ensures Valid() && store == old(store)
      ensures View() == Prepended(old(View()), s)
    {
      ghost var before := store[..];
      readIndex := readIndex - |s|;
      Fill(store, readIndex, s);
      assert store[..][readIndex..writeIndex] == s + before[readIndex + |s|..writeIndex];
    }

    method Shrink(reserve: nat)
      requires Valid()
      modifies this, store
      ensures Valid() && fresh(store)
      ensures View() == Shrunk(old(View()), reserve)
    {
      AlignPrepend();
      ghost var bytes := store[readIndex..writeIndex];
      Resize(PREPEND_SIZE + (writeIndex - readIndex) + reserve);
      assert store[readIndex..writeIndex] == store[..writeIndex][readIndex..] == bytes;
    }

    /** `readv` into the tail and a stack buffer. `received` is what the kernel delivers unless it
        `failed`; the two segments together act as one `Write`. */
    method ReadFd(received: seq<Byte>, failed: bool) returns (n: int)
      requires Valid() && |received| <= store.Length - writeIndex + EXTRA_SIZE
      modifies this, store
      ensures Valid() && (store == old(store) || fresh(store))
      ensures if failed then n < 0 && View() == old(View()) else n == |received| && View() == Written(old(View()), received)
    {
      if failed {
        return -1;
      }
      n := |received|;
      var tail := store.Length - writeIndex;
      var first := if n <= tail then n else tail;
      ghost var bytes := store[readIndex..writeIndex];
      Append(received[..first]);
      if n > tail {
        Write(received[first..]);
        assert bytes + received[..first] + received[first..] == bytes + received;
      } else {
        assert received[..first] == received;
      }
    }
  }

  datatype Op =
    | Put(s: seq<Byte>)          // Write, or a successful ReadFd
    | Take(n: nat)               // Read or Release
    | PutBack(n: nat)            // UnWrite
    | Push(s: seq<Byte>)         // Prepend
    | Trim(reserve: nat)         // Shrink

  /** What the code asserts before each operation. */
  predicate Allowed(w: Window, op: Op) {
    match op
    case Take(n) => n <= |w.bytes|
    case PutBack(n) => n <= |w.bytes|
    case Push(s) => |s| <= w.head
    case _ => true
  }

  function Step(w: Window, op: Op): (r: Window)
    requires w.Valid() && Allowed(w, op)
    ensures r.Valid()
  {
    match op
    case Put(s) => Written(w, s)
    case Take(n) => Released(w, n)
    case PutBack(n) => Unwritten(w, n)
    case Push(s) => Prepended(w, s)
    case Trim(reserve) => Shrunk(w, reserve)
  }

  predicate AllAllowed(w: Window, ops: seq<Op>)
    requires w.Valid()
    decreases |ops|
  {
    ops == [] || (Allowed(w, ops[0]) && AllAllowed(Step(w, ops[0]), ops[1..]))
  }

  function Steps(w: Window, ops: seq<Op>): (r: Window)
    requires w.Valid() && AllAllowed(w, ops)
    ensures r.Valid()
    decreases |ops|
  {
    if ops == [] then w else Steps(Step(w, ops[0]), ops[1..])
  }

  /** The reference: the same operations on a plain byte string. */
  function Edit(text: seq<Byte>, op: Op): seq<Byte> {
    match op
    case Put(s) => text + s
    case Take(n) => if n <= |text| then text[n..] else []
    case PutBack(n) => if n <= |text| then text[..|text| - n] else []
    case Push(s) => s + text
    case Trim(_) => text
  }

  function EditAll(text: seq<Byte>, ops: seq<Op>): seq<Byte>
    decreases |ops|
  {
    if ops == [] then text else EditAll(Edit(text, ops[0]), ops[1..])
  }

  /** The most bytes the reference string, with any reserve asked for, ever needs at once. */
  function Peak(text: seq<Byte>, ops: seq<Op>): nat
    decreases |ops|
  {
    if ops == [] then |text|
    else
      var next := Edit(text, ops[0]);
      Max(|text|, Max(|next| + (if ops[0].Trim? then ops[0].reserve else 0), Peak(next, ops[1..])))
  }

  /** Every sequence of operations acts on the readable bytes as on a plain string, and the store never
      exceeds its initial size or what the string's own peak needs: wasted headroom is always reclaimed. */
  lemma {:induction false} RefinesByteString(w: Window, ops: seq<Op>)
    requires w.Valid() && AllAllowed(w, ops)
    ensures Steps(w, ops).bytes == EditAll(w.bytes, ops)
    ensures Steps(w, ops).size <= Max(w.size, PREPEND_SIZE + Peak(w.bytes, ops))
    decreases |ops|
  {
    if ops != [] {
      var next := Step(w, ops[0]);
      assert next.bytes == Edit(w.bytes, ops[0]);
      RefinesByteString(next, ops[1..]);
    }
  }

  /** What the headroom is for: until somebody prepends, eight bytes can always be put in front. And a buffer that
      has been emptied has all the rest of its store for what comes next. */
  lemma {:induction false} HeadroomIsKept(w: Window, ops: seq<Op>)
    requires w.Valid() && w.head >= PREPEND_SIZE && AllAllowed(w, ops)
    requires forall op :: op in ops ==> !op.Push?
    ensures Steps(w, ops).head >= PREPEND_SIZE
    ensures var r := Steps(w, ops); Step(r, Take(|r.bytes|)).Tail() == r.size - PREPEND_SIZE
    decreases |ops|
  {
    if ops != [] {
      assert ops[0] in ops;
      HeadroomIsKept(Step(w, ops[0]), ops[1..]);
    }
  }

  function Inflow(ops: seq<Op>): seq<Byte> {
    if ops == [] then [] else (if ops[0].Put? then ops[0].s else []) + Inflow(ops[1..])
  }

  function Outflow(w: Window, ops: seq<Op>): seq<Byte>
    requires w.Valid() && AllAllowed(w, ops)
    decreases |ops|
  {
    if ops == [] then []
    else (if ops[0].Take? then w.bytes[..ops[0].n] else []) + Outflow(Step(w, ops[0]), ops[1..])
  }

  /** Used as a queue the buffer neither loses, repeats nor reorders a byte. */
  lemma {:induction false} QueueConservation(w: Window, ops: seq<Op>)
    requires w.Valid() && AllAllowed(w, ops)
    requires forall op :: op in ops ==> op.Put? || op.Take? || op.Trim?
    ensures Outflow(w, ops) + Steps(w, ops).bytes == w.bytes + Inflow(ops)
    decreases |ops|
  {
    if ops != [] {
      var next := Step(w, ops[0]);
      var out := if ops[0].Take? then w.bytes[..ops[0].n] else [];
      var put := if ops[0].Put? then ops[0].s else [];
      QueueConservation(next, ops[1..]);
      assert out + next.bytes == w.bytes + put;
      Regroup(out, Outflow(next, ops[1..]), Steps(next, ops[1..]).bytes, next.bytes, Inflow(ops[1..]), w.bytes, put);
    }
  }

  lemma Regroup(a: seq<Byte>, b: seq<Byte>, c: seq<Byte>, d: seq<Byte>, e: seq<Byte>, f: seq<Byte>, g: seq<Byte>)
    requires b + c == d + e && a + d == f + g
    ensures (a + b) + c == f + (g + e)
  {
    assert (a + b) + c == a + (b + c) == (a + d) + e == f + (g + e);
  }

  /** The object follows the run. */
  method Perform(b: Buffer, ops: seq<Op>)
    requires b.Valid() && AllAllowed(b.View(), ops)
    modifies b, b.store
    ensures b.Valid() && b.View() == old(Steps(b.View(), ops))
  {
    ghost var goal := Steps(b.View(), ops);
    ghost var store0 := b.store;
    for i := 0 to |ops|
      invariant b.Valid() && AllAllowed(b.View(), ops[i..])
      invariant b.store == store0 || fresh(b.store)
      invariant Steps(b.View(), ops[i..]) == goal
    {
      assert ops[i..][0] == ops[i] && ops[i..][1..] == ops[i + 1..];
      match ops[i]
      case Put(s) => b.Write(s);
      case Take(n) => b.Release(n);
      case PutBack(n) => b.UnWrite(n);
      case Push(s) => b.Prepend(s);
      case Trim(reserve) => b.Shrink(reserve);
    }
  }
}
