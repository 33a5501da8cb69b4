/** The asynchronous logger: front-end threads append lines under the lock, the logging thread takes whole
    batches of buffers, writes them, and recycles two of them. A buffer has an identity, so that owning
    one in two places would be visible; `None` is a moved-from `unique_ptr`. */
module AsyncLoggings {
  import LogStreams
  import opened Options

  const LARGE_BUFFER: nat := 4000 * 1000
  const MAX_BATCH: nat := 25

  type Line = string

  datatype Buffer = Buffer(id: nat, lines: seq<Line>)

  function Size(lines: seq<Line>): nat {
    if lines == [] then 0 else Size(lines[..|lines| - 1]) + |lines[|lines| - 1]|
  }

  /** `Avail()` of a buffer. */
  function Avail(b: Buffer): int {
    LARGE_BUFFER - Size(b.lines)
  }

  /** `FixBuffer::Append`: nothing happens unless a byte stays free. */
  function Appended(b: Buffer, line: Line): Buffer {
    if Avail(b) > |line| then b.(lines := b.lines + [line]) else b
  }

  /** What has gone to the log file, in order. `Skipped` records what a drop removed; it writes nothing. */
  datatype Item = Wrote(lines: seq<Line>) | Notice(dropped: nat) | Skipped(buffers: seq<Buffer>)

  datatype Phase =
    | AtHead        // about to test `running_`, which takes no lock
    | Entering      // the test passed; past the three asserts, about to take the lock
    | Waiting       // in TimedWait: the lock is free
    | Writing       // the batch is taken and not yet written
    | Refilling     // the batch is written and not yet recycled
    | Finished

  datatype Logger = Logger(
    current: Option<Buffer>,
    next: Option<Buffer>,
    buffers: seq<Buffer>,
    spare1: Option<Buffer>,
    spare2: Option<Buffer>,
    batch: seq<Buffer>,
    phase: Phase,
    running: bool,
    created: nat,              // buffers created so far; the next identity
    file: seq<Item>,
    appended: seq<Line>)         // history: lines that went into a buffer, in lock order

  const STARTED := Logger(Some(Buffer(0, [])), Some(Buffer(1, [])), [], Some(Buffer(2, [])), Some(Buffer(3, [])), [],
                          AtHead, true, 4, [], [])

  datatype Step =
    | Append(line: Line)
    | Stop
    | Test           // the loop test
    | Enter          // the lock is taken and the queue tested for emptiness
    | TakeBatch      // the rest of the critical section
    | WriteBatch
    | Recycle

  predicate Enabled(s: Logger, step: Step) {
    match step
    case Append(_) => s.current.Some?
    case Stop => true
    case Test => s.phase.AtHead?
    case Enter => s.phase.Entering?
    case TakeBatch => s.phase.Waiting? && s.current.Some?
    case WriteBatch => s.phase.Writing?
    case Recycle => s.phase.Refilling? && Refillable(s)
  }

  /** The asserts in front of the two refills. */
  predicate Refillable(s: Logger) {
    |s.batch| >= (if s.spare1.None? then 1 else 0) + (if s.spare2.None? then 1 else 0)
  }

  /** The asserts at the head of the loop. */
  predicate HeadAsserts(s: Logger) {
    && s.spare1.Some? && s.spare1.value.lines == []
    && s.spare2.Some? && s.spare2.value.lines == []
    && s.batch == []
  }

  /** The full buffer is queued and a fresh one takes its place. */
  function Rotated(s: Logger): Logger
    requires s.current.Some?
  {
    var full := s.(buffers := s.buffers + [s.current.value]);
    if s.next.Some? then full.(current := s.next, next := None)
    else full.(current := Some(Buffer(s.created, [])), created := s.created + 1)
  }

  function Take(s: Logger, line: Line): Logger
    requires s.current.Some?
  {
    var b := s.current.value;
    s.(current := Some(Appended(b, line)), appended := if Avail(b) > |line| then s.appended + [line] else s.appended)
  }

  function AfterAppend(s: Logger, line: Line): Logger
    requires s.current.Some?
  {
    if Avail(s.current.value) > |line| then Take(s, line) else Take(Rotated(s), line)
  }

  function AfterTakeBatch(s: Logger): Logger
    requires s.current.Some?
  {
    var s := s.(batch := s.buffers + [s.current.value], buffers := [], current := s.spare1, spare1 := None, phase := Writing);
    if s.next.None? then s.(next := s.spare2, spare2 := None) else s
  }

  function Written(batch: seq<Buffer>): seq<Item> {
    if batch == [] then [] else Written(batch[..|batch| - 1]) + [Wrote(batch[|batch| - 1].lines)]
  }

  function Cut(file: seq<Item>, kept: seq<Buffer>, dropped: seq<Buffer>): seq<Item> {
    file + [Notice(|dropped|)] + Written(kept) + [Skipped(dropped)]
  }

  /** The file after a batch: a notice and the first two buffers if the batch is too large. */
  function Output(file: seq<Item>, batch: seq<Buffer>): seq<Item> {
    if |batch| > MAX_BATCH then Cut(file, batch[..2], batch[2..])
    else file + Written(batch)
  }

  function AfterWriteBatch(s: Logger): Logger {
    s.(file := Output(s.file, s.batch), batch := if |s.batch| > 2 then s.batch[..2] else s.batch, phase := Refilling)
  }

  function Reset(b: Buffer): Buffer {
    b.(lines := [])
  }

  function AfterRecycle(s: Logger): Logger
    requires Refillable(s)
  {
    var n := |s.batch|;
    var s := if s.spare1.None? then s.(spare1 := Some(Reset(s.batch[n - 1])), batch := s.batch[..n - 1]) else s;
    var m := |s.batch|;
    var s := if s.spare2.None? then s.(spare2 := Some(Reset(s.batch[m - 1])), batch := s.batch[..m - 1]) else s;
    s.(batch := [], phase := AtHead)
  }

  function Apply(s: Logger, step: Step): Logger
    requires Enabled(s, step)
  {
    match step
    case Append(line) => AfterAppend(s, line)
    case Stop => s.(running := false)
    case Test => s.(phase := if s.running then Entering else Finished)
    case Enter =>
      if s.buffers == [] then s.(phase := Waiting)
      else if s.current.Some? then AfterTakeBatch(s)
      else s
    case TakeBatch => AfterTakeBatch(s)
    case WriteBatch => AfterWriteBatch(s)
    case Recycle => AfterRecycle(s)
  }

  function Lines(buffers: seq<Buffer>): seq<Line> {
    if buffers == [] then [] else Lines(buffers[..|buffers| - 1]) + buffers[|buffers| - 1].lines
  }

  function ItemLines(item: Item): seq<Line> {
    match item
    case Wrote(lines) => lines
    case Notice(_) => []
    case Skipped(buffers) => Lines(buffers)
  }

  /** The lines a file accounts for: those in it and those it reports dropped. */
  function Accounted(file: seq<Item>): seq<Line> {
    if file == [] then [] else Accounted(file[..|file| - 1]) + ItemLines(file[|file| - 1])
  }

  function Opt(b: Option<Buffer>): seq<Buffer> {
    if b.Some? then [b.value] else []
  }

  function Ids(buffers: seq<Buffer>): multiset<nat> {
    if buffers == [] then multiset{} else multiset{buffers[0].id} + Ids(buffers[1..])
  }

  /** The identities of the buffers owned anywhere, once for each place. */
  function Owned(s: Logger): multiset<nat> {
    Ids(Opt(s.current)) + Ids(Opt(s.next)) + Ids(s.buffers) + Ids(Opt(s.spare1)) + Ids(Opt(s.spare2)) + Ids(s.batch)
  }

  ghost predicate OwnedOnce(s: Logger) {
    forall id :: Owned(s)[id] <= 1 && (id in Owned(s) ==> id < s.created)
  }

  predicate IsEmpty(b: Option<Buffer>) {
    b.Some? ==> b.value.lines == []
  }

  predicate Shaped(s: Logger) {
    && s.current.Some?
    && (s.next.None? ==> s.buffers != [])
    && IsEmpty(s.next) && IsEmpty(s.spare1) && IsEmpty(s.spare2)
    && match s.phase
       case Writing => s.spare1.None? && |s.batch| >= (if s.spare2.None? then 2 else 1)
       case Refilling => s.spare1.None? && |s.batch| >= (if s.spare2.None? then 2 else 1)
       case _ => s.spare1.Some? && s.spare2.Some? && s.batch == []
  }

  /** The buffers whose lines are still to be written, in order. */
  function Pending(s: Logger): seq<Buffer> {
    (if s.phase.Writing? then s.batch else []) + s.buffers + Opt(s.current)
  }

  predicate Conserved(s: Logger) {
    Accounted(s.file) + Lines(Pending(s)) == s.appended
  }

  ghost predicate Inv(s: Logger) {
    Shaped(s) && OwnedOnce(s) && Conserved(s)
  }

  lemma StepKeepsShape(s: Logger, step: Step)
    requires Shaped(s) && Enabled(s, step)
    ensures Shaped(Apply(s, step))
  {
  }

  lemma {:induction false} IdsConcat(a: seq<Buffer>, b: seq<Buffer>)
    ensures Ids(a + b) == Ids(a) + Ids(b)
  {
    if a == [] {
      assert a + b == b;
    } else {
      assert (a + b)[1..] == a[1..] + b;
      IdsConcat(a[1..], b);
    }
  }

  lemma Regroup<T>(a: seq<T>, b: seq<T>, c: seq<T>)
    ensures (a + b) + c == a + (b + c)
  {
  }

  lemma LinesSnoc(buffers: seq<Buffer>, b: Buffer)
    ensures Lines(buffers + [b]) == Lines(buffers) + b.lines
  {
    assert (buffers + [b])[..|buffers|] == buffers;
  }

  lemma {:induction false} LinesConcat(a: seq<Buffer>, b: seq<Buffer>)
    ensures Lines(a + b) == Lines(a) + Lines(b)
  {
    if b == [] {
      assert a + b == a;
    } else {
      var front, last := b[..|b| - 1], b[|b| - 1];
      LinesConcat(a, front);
      LinesSnoc(a + front, last);
      Regroup(Lines(a), Lines(front), last.lines);
      assert a + b == (a + front) + [last];
    }
  }

  lemma AccountedSnoc(file: seq<Item>, item: Item)
    ensures Accounted(file + [item]) == Accounted(file) + ItemLines(item)
  {
    assert (file + [item])[..|file|] == file;
  }

  /** Writing a batch accounts for its lines, in order. */
  lemma {:induction false} WrittenAccounts(file: seq<Item>, batch: seq<Buffer>)
    ensures Accounted(file + Written(batch)) == Accounted(file) + Lines(batch)
  {
    if batch == [] {
      assert file + Written(batch) == file;
    } else {
      var front, last := batch[..|batch| - 1], batch[|batch| - 1];
      WrittenAccounts(file, front);
      Regroup(Accounted(file), Lines(front), last.lines);
      AccountedSnoc(file + Written(front), Wrote(last.lines));
      assert file + Written(batch) == (file + Written(front)) + [Wrote(last.lines)];
    }
  }

  lemma CutAccounts(file: seq<Item>, kept: seq<Buffer>, dropped: seq<Buffer>)
    ensures Accounted(Cut(file, kept, dropped)) == Accounted(file) + Lines(kept + dropped)
  {
    var noticed := file + [Notice(|dropped|)];
    AccountedSnoc(file, Notice(|dropped|));
    assert Accounted(noticed) == Accounted(file);
    WrittenAccounts(noticed, kept);
    AccountedSnoc(noticed + Written(kept), Skipped(dropped));
    LinesConcat(kept, dropped);
    Regroup(Accounted(file), Lines(kept), Lines(dropped));
  }

  /** Written or reported dropped, the batch is accounted for, line by line and in order. */
  lemma WriteAccounts(file: seq<Item>, batch: seq<Buffer>)
    ensures Accounted(Output(file, batch)) == Accounted(file) + Lines(batch)
  {
    if |batch| > MAX_BATCH {
      CutAccounts(file, batch[..2], batch[2..]);
      assert batch[..2] + batch[2..] == batch;
    } else {
      WrittenAccounts(file, batch);
    }
  }

  lemma LineLandsLast(done: seq<Line>, rest: seq<Buffer>, b: Buffer, line: Line)
    ensures done + Lines(rest + [b.(lines := b.lines + [line])]) == done + Lines(rest + [b]) + [line]
  {
    LinesSnoc(rest, b);
    LinesSnoc(rest, b.(lines := b.lines + [line]));
    Regroup(Lines(rest), b.lines, [line]);
    Regroup(done, Lines(rest + [b]), [line]);
  }

  lemma EmptyAddsNothing(rest: seq<Buffer>, b: Buffer)
    requires b.lines == []
    ensures Lines(rest + [b]) == Lines(rest)
  {
    LinesSnoc(rest, b);
  }

  lemma TakeLineConserves(s: Logger, line: Line)
    requires s.current.Some? && Conserved(s)
    ensures Conserved(Take(s, line))
  {
    var rest := (if s.phase.Writing? then s.batch else []) + s.buffers;
    var b := s.current.value;
    assert Pending(s) == rest + [b];
    if Avail(b) > |line| {
      LineLandsLast(Accounted(s.file), rest, b, line);
      assert Pending(Take(s, line)) == rest + [b.(lines := b.lines + [line])];
    }
  }

  lemma RotationConserves(s: Logger)
    requires Shaped(s) && Conserved(s)
    ensures Conserved(Rotated(s))
  {
    assert Pending(Rotated(s)) == Pending(s) + [Rotated(s).current.value];
    EmptyAddsNothing(Pending(s), Rotated(s).current.value);
  }

  lemma AppendConserves(s: Logger, line: Line)
    requires Shaped(s) && Conserved(s)
    ensures Conserved(AfterAppend(s, line))
  {
    RotationConserves(s);
    TakeLineConserves(s, line);
    TakeLineConserves(Rotated(s), line);
  }

  lemma TakeConserves(s: Logger)
    requires Shaped(s) && Conserved(s) && (s.phase.Entering? || s.phase.Waiting?)
    ensures Conserved(AfterTakeBatch(s))
  {
    var s' := AfterTakeBatch(s);
    assert Pending(s) == s.buffers + [s.current.value];
    assert Pending(s') == Pending(s) + [s'.current.value];
    LinesSnoc(Pending(s), s'.current.value);
  }

  lemma WriteConserves(s: Logger)
    requires Shaped(s) && Conserved(s) && s.phase.Writing?
    ensures Conserved(AfterWriteBatch(s))
  {
    hide Accounted, Lines, Output;
    var s' := AfterWriteBatch(s);
    WriteAccounts(s.file, s.batch);
    var rest := Pending(s');
    assert rest == s.buffers + Opt(s.current);
    Regroup(s.batch, s.buffers, Opt(s.current));
    LinesConcat(s.batch, rest);
    Regroup(Accounted(s.file), Lines(s.batch), Lines(rest));
  }

  lemma StepConserves(s: Logger, step: Step)
    requires Shaped(s) && Conserved(s) && Enabled(s, step)
    ensures Conserved(Apply(s, step))
  {
    match step
    case Append(line) => AppendConserves(s, line);
    case Stop =>
    case Test =>
    case Enter => if s.buffers != [] { TakeConserves(s); }
    case TakeBatch => TakeConserves(s);
    case WriteBatch => WriteConserves(s);
    case Recycle =>
  }

  /** Buffers only move between places, vanish, or are newly created. */
  ghost predicate Moves(s: Logger, s': Logger) {
    || (s'.created == s.created && Owned(s') <= Owned(s))
    || (s'.created == s.created + 1 && Owned(s') == Owned(s) + multiset{s.created})
  }

  lemma OneId(b: Buffer)
    ensures Ids([b]) == multiset{b.id} && Ids(Opt(Some(b))) == multiset{b.id} && Ids(Opt(None)) == multiset{}
  {
    assert [b][1..] == [];
  }

  lemma RotationMoves(s: Logger)
    requires Shaped(s)
    ensures Moves(s, Rotated(s))
  {
    IdsConcat(s.buffers, [s.current.value]);
    OneId(s.current.value);
    OneId(Rotated(s).current.value);
  }

  lemma LineMovesNothing(s: Logger, line: Line)
    requires s.current.Some?
    ensures Owned(Take(s, line)) == Owned(s) && Take(s, line).created == s.created
  {
    OneId(s.current.value);
    OneId(Take(s, line).current.value);
  }

  lemma AppendMoves(s: Logger, line: Line)
    requires Shaped(s)
    ensures Moves(s, AfterAppend(s, line))
  {
    RotationMoves(s);
    LineMovesNothing(s, line);
    LineMovesNothing(Rotated(s), line);
  }

  lemma TakeMoves(s: Logger)
    requires Shaped(s) && s.batch == []
    ensures Moves(s, AfterTakeBatch(s))
  {
    IdsConcat(s.buffers, [s.current.value]);
    OneId(s.current.value);
  }

  lemma WriteMoves(s: Logger)
    ensures Moves(s, AfterWriteBatch(s))
  {
    hide Ids, Output;
    if |s.batch| > 2 {
      IdsConcat(s.batch[..2], s.batch[2..]);
      assert s.batch == s.batch[..2] + s.batch[2..];
    }
  }

  lemma LastMoves(batch: seq<Buffer>)
    requires batch != []
    ensures Ids(batch) == Ids(batch[..|batch| - 1]) + Ids(Opt(Some(Reset(batch[|batch| - 1]))))
  {
    var front, last := batch[..|batch| - 1], batch[|batch| - 1];
    IdsConcat(front, [last]);
    OneId(last);
    OneId(Reset(last));
    assert batch == front + [last];
  }

  lemma RecycleMoves(s: Logger)
    requires Shaped(s) && s.phase.Refilling?
    ensures Moves(s, AfterRecycle(s))
  {
    var first := s.batch[..|s.batch| - 1];
    LastMoves(s.batch);
    if s.spare2.None? { LastMoves(first); }
  }

  lemma StepMovesBuffers(s: Logger, step: Step)
    requires Shaped(s) && Enabled(s, step)
    ensures Moves(s, Apply(s, step))
  {
    match step
    case Append(line) => AppendMoves(s, line);
    case Stop =>
    case Test =>
    case Enter => if s.buffers != [] { TakeMoves(s); }
    case TakeBatch => TakeMoves(s);
    case WriteBatch => WriteMoves(s);
    case Recycle => RecycleMoves(s);
  }

  lemma MovesKeepOwnership(s: Logger, s': Logger)
    requires OwnedOnce(s) && Moves(s, s')
    ensures OwnedOnce(s')
  {
    var before, after := Owned(s), Owned(s');
    forall id ensures after[id] <= 1 && (id in after ==> id < s'.created) {
      assert before[id] <= 1 && (id in before ==> id < s.created);
    }
  }

  lemma StepKeepsInv(s: Logger, step: Step)
    requires Inv(s) && Enabled(s, step)
    ensures Inv(Apply(s, step))
  {
    StepKeepsShape(s, step);
    StepConserves(s, step);
    StepMovesBuffers(s, step);
    MovesKeepOwnership(s, Apply(s, step));
  }

  datatype Outcome = Stuck | Reached(logger: Logger)

  function Run(s: Logger, steps: seq<Step>): Outcome
    decreases |steps|
  {
    if steps == [] then Reached(s)
    else if Enabled(s, steps[0]) then Run(Apply(s, steps[0]), steps[1..])
    else Stuck
  }

  lemma {:induction false} RunKeepsInv(s: Logger, steps: seq<Step>)
    requires Inv(s)
    ensures match Run(s, steps) case Reached(r) => Inv(r) case Stuck => true
    decreases |steps|
  {
    if steps != [] && Enabled(s, steps[0]) {
      StepKeepsInv(s, steps[0]);
      RunKeepsInv(Apply(s, steps[0]), steps[1..]);
    }
  }

  lemma StartedIsFine()
    ensures Inv(STARTED)
  {
    forall n { OneId(Buffer(n, [])); }
    assert Ids([]) == multiset{};
    assert Owned(STARTED) == multiset{0, 1, 2, 3};
    assert Pending(STARTED) == [Buffer(0, [])];
    SingleLines(Buffer(0, []));
  }

  lemma SingleLines(b: Buffer)
    ensures Lines([b]) == b.lines
  {
    assert [b][..0] == [];
  }

  /** A drop of `n` buffers shows as a notice of `n`, two buffers kept, and the `n` dropped. */
  predicate NoticesMatch(file: seq<Item>) {
    && (forall i :: 0 <= i < |file| && file[i].Skipped? ==> i >= 3 && file[i - 3].Notice?)
    && (forall i :: 0 <= i < |file| && file[i].Notice? ==>
          i + 3 < |file| && file[i].dropped > MAX_BATCH - 2 && file[i + 1].Wrote? && file[i + 2].Wrote?
          && file[i + 3].Skipped? && |file[i + 3].buffers| == file[i].dropped)
  }

  lemma WritesKeepNotices(file: seq<Item>, writes: seq<Item>)
    requires NoticesMatch(file) && forall item :: item in writes ==> item.Wrote?
    ensures NoticesMatch(file + writes)
  {
    forall i | |file| <= i < |file + writes| ensures (file + writes)[i].Wrote? {
      assert (file + writes)[i] in writes;
    }
  }

  lemma DropKeepsNotices(file: seq<Item>, n: nat, a: seq<Line>, b: seq<Line>, dropped: seq<Buffer>)
    requires NoticesMatch(file) && n == |dropped| > MAX_BATCH - 2
    ensures NoticesMatch(file + [Notice(n), Wrote(a), Wrote(b), Skipped(dropped)])
  {
    var more := file + [Notice(n), Wrote(a), Wrote(b), Skipped(dropped)];
    assert forall i :: 0 <= i < |file| ==> more[i] == file[i];
    assert more[|file|] == Notice(n) && more[|file| + 1].Wrote? && more[|file| + 2].Wrote? && more[|file| + 3] == Skipped(dropped);
  }

  lemma {:induction false} WrittenIsWrites(batch: seq<Buffer>)
    ensures |Written(batch)| == |batch| && forall i :: 0 <= i < |batch| ==> Written(batch)[i] == Wrote(batch[i].lines)
  {
    if batch != [] {
      WrittenIsWrites(batch[..|batch| - 1]);
    }
  }

  lemma OutputKeepsNotices(file: seq<Item>, batch: seq<Buffer>)
    requires NoticesMatch(file)
    ensures NoticesMatch(Output(file, batch))
  {
    if |batch| > MAX_BATCH {
      DropKeepsNotices(file, |batch| - 2, batch[0].lines, batch[1].lines, batch[2..]);
      WrittenIsWrites(batch[..2]);
      assert Written(batch[..2]) == [Wrote(batch[0].lines), Wrote(batch[1].lines)];
      assert Output(file, batch)
          == file + [Notice(|batch| - 2), Wrote(batch[0].lines), Wrote(batch[1].lines), Skipped(batch[2..])];
    } else {
      WrittenIsWrites(batch);
      WritesKeepNotices(file, Written(batch));
    }
  }

  lemma {:induction false} RunKeepsNotices(s: Logger, steps: seq<Step>)
    requires NoticesMatch(s.file)
    ensures match Run(s, steps) case Reached(r) => NoticesMatch(r.file) case Stuck => true
    decreases |steps|
  {
    if steps != [] && Enabled(s, steps[0]) {
      OutputKeepsNotices(s.file, s.batch);
      RunKeepsNotices(Apply(s, steps[0]), steps[1..]);
    }
  }

  lemma RunConserves(steps: seq<Step>)
    ensures match Run(STARTED, steps) case Reached(s) => Shaped(s) && Conserved(s) case Stuck => true
  {
    StartedIsFine();
    RunKeepsInv(STARTED, steps);
  }

  /** In every interleaving of `Append`s with the logging thread the file, then the batch being written,
      then `buffers_`, then the current buffer hold all lines taken, in lock order; what a drop removed
      is one contiguous run of whole buffers, counted by the notice before it. */
  lemma LinesAreConserved(steps: seq<Step>)
    ensures match Run(STARTED, steps)
            case Reached(s) => Accounted(s.file) + Lines(Pending(s)) == s.appended && NoticesMatch(s.file)
            case Stuck => true
  {
    RunConserves(steps);
    RunKeepsNotices(STARTED, steps);
  }

  /** In every interleaving no assert of the logging thread fails, the current buffer is never null, and
      no buffer is owned in two places. */
  lemma BuffersAreRecycledSafely(steps: seq<Step>)
    ensures match Run(STARTED, steps)
            case Reached(s) =>
              && s.current.Some?
              && (s.phase.AtHead? || s.phase.Entering? ==> HeadAsserts(s))
              && (s.phase.Writing? ==> s.batch != [])
              && (s.phase.Refilling? ==> Refillable(s))
              && (forall id :: Owned(s)[id] <= 1)
            case Stuck => true
  {
    StartedIsFine();
    RunKeepsInv(STARTED, steps);
  }

  /** A line is taken if and only if it is shorter than the large buffer; a longer one costs a rotation and is lost. */
  lemma OversizedLinesAreLost(s: Logger, line: Line)
    requires Shaped(s)
    ensures AfterAppend(s, line).appended == (if |line| < LARGE_BUFFER then s.appended + [line] else s.appended)
  {
    assert Size(Rotated(s).current.value.lines) == 0;
  }

  /** What the file holds, in order. */
  function Kept(file: seq<Item>): seq<Line> {
    if file == [] then []
    else
      var last := file[|file| - 1];
      Kept(file[..|file| - 1]) + (if last.Wrote? then last.lines else [])
  }

  lemma KeptSnoc(file: seq<Item>, item: Item)
    ensures Kept(file + [item]) == Kept(file) + (if item.Wrote? then item.lines else [])
  {
    assert (file + [item])[..|file|] == file;
  }

  lemma {:induction false} WrittenIsKept(file: seq<Item>, batch: seq<Buffer>)
    ensures Kept(file + Written(batch)) == Kept(file) + Lines(batch)
  {
    if batch == [] {
      assert file + Written(batch) == file;
    } else {
      var front, last := batch[..|batch| - 1], batch[|batch| - 1];
      WrittenIsKept(file, front);
      Regroup(Kept(file), Lines(front), last.lines);
      KeptSnoc(file + Written(front), Wrote(last.lines));
      assert file + Written(batch) == (file + Written(front)) + [Wrote(last.lines)];
    }
  }

  /** Which lines a turn loses: none if the batch has up to 25 buffers, else those beyond the first two, and the
      notice says how many buffers they filled. */
  lemma DropIsExact(s: Logger)
    requires Enabled(s, WriteBatch)
    ensures var r := Apply(s, WriteBatch);
            && (|s.batch| <= 25 ==> Kept(r.file) == Kept(s.file) + Lines(s.batch) && r.file == s.file + Written(s.batch))
            && (|s.batch| > 25 ==>
                  && Kept(r.file) == Kept(s.file) + Lines(s.batch[..2])
                  && |r.file| > |s.file| && r.file[|s.file|] == Notice(|s.batch| - 2))
  {
    hide Written, Kept, Lines;
    var file, batch := s.file, s.batch;
    WrittenIsKept(file, batch);
    if |batch| > 25 {
      var noticed := file + [Notice(|batch| - 2)];
      KeptSnoc(file, Notice(|batch| - 2));
      WrittenIsKept(noticed, batch[..2]);
      KeptSnoc(noticed + Written(batch[..2]), Skipped(batch[2..]));
      assert Kept(file) + [] == Kept(file);
      assert Kept(file) + Lines(batch[..2]) + [] == Kept(file) + Lines(batch[..2]);
    }
  }

  /** A buffer is created only when a full one is queued and no other is at hand; the logging thread never creates
      one. And it waits for the lock to be given up only if nothing is queued. */
  lemma OnlyRotationCreates(s: Logger, step: Step)
    requires Shaped(s) && Enabled(s, step)
    ensures var r := Apply(s, step);
            && r.created == s.created + (if step.Append? && Avail(s.current.value) <= |step.line| && s.next.None? then 1 else 0)
            && (step.Append? ==> |r.buffers| == |s.buffers| + if Avail(s.current.value) <= |step.line| then 1 else 0)
            && (step.Enter? ==> (r.phase.Waiting? <==> s.buffers == []))
  {
  }

  /** What the file on disk contains. */
  function Bytes(file: seq<Item>): seq<Line> {
    if file == [] then []
    else Bytes(file[..|file| - 1]) + match file[|file| - 1]
                                     case Wrote(lines) => lines
                                     case Notice(n) => ["Dropped log message, ", LogStreams.Decimal(n), " buffers\n"]
                                     case Skipped(_) => []
  }

  /** Without a drop the file holds exactly the lines accounted for. */
  lemma {:induction false} DiskIsExact(file: seq<Item>)
    requires forall item :: item in file ==> item.Wrote?
    ensures Bytes(file) == Accounted(file)
  {
    if file != [] {
      DiskIsExact(file[..|file| - 1]);
      assert file[|file| - 1] in file;
    }
  }

  /** What the logging thread has taken charge of: the file's lines and those of an unwritten batch. */
  function Collected(s: Logger): seq<Line> {
    Accounted(s.file) + Lines(if s.phase.Writing? then s.batch else [])
  }

  lemma CollectedAndQueued(s: Logger)
    requires Conserved(s)
    ensures Collected(s) + Lines(s.buffers + Opt(s.current)) == s.appended
  {
    var batch := if s.phase.Writing? then s.batch else [];
    assert Pending(s) == batch + (s.buffers + Opt(s.current));
    LinesConcat(batch, s.buffers + Opt(s.current));
    Regroup(Accounted(s.file), Lines(batch), Lines(s.buffers + Opt(s.current)));
  }

  /** The thread will still take a batch, even if it has been stopped: it has passed the test of `running_`. */
  predicate Collecting(s: Logger) {
    s.phase.Entering? || s.phase.Waiting?
  }

  /** A stopped thread that is not collecting collects nothing any more. */
  lemma StoppedStep(s: Logger, step: Step)
    requires Inv(s) && !s.running && !Collecting(s) && Enabled(s, step)
    ensures var r := Apply(s, step); !r.running && !Collecting(r) && Collected(r) == Collected(s)
  {
    if step.WriteBatch? {
      WriteCollects(s);
    } else {
      OnlyWritingWrites(s, step);
      hide Inv, Accounted, Lines, Apply;
    }
  }

  lemma OnlyWritingWrites(s: Logger, step: Step)
    requires !s.running && !Collecting(s) && Enabled(s, step) && !step.WriteBatch?
    ensures var r := Apply(s, step);
            && r.file == s.file && !r.running && !Collecting(r) && (r.phase.Writing? <==> s.phase.Writing?)
            && (s.phase.Writing? ==> r.batch == s.batch)
  {
  }

  lemma WriteCollects(s: Logger)
    requires s.phase.Writing?
    ensures Collected(AfterWriteBatch(s)) == Collected(s)
  {
    assert Lines([]) == [];
    hide Accounted, Lines, Output;
    WriteAccounts(s.file, s.batch);
    assert Collected(AfterWriteBatch(s)) == Accounted(Output(s.file, s.batch)) + [];
  }

  lemma {:induction false} StoppedRun(s: Logger, steps: seq<Step>)
    requires Inv(s) && !s.running && !Collecting(s)
    ensures match Run(s, steps)
            case Reached(r) => !Collecting(r) && Collected(r) == Collected(s)
            case Stuck => true
    decreases |steps|
  {
    if steps != [] && Enabled(s, steps[0]) {
      StepKeepsInv(s, steps[0]);
      StoppedStep(s, steps[0]);
      StoppedRun(Apply(s, steps[0]), steps[1..]);
    }
  }

  lemma CollectingStep(s: Logger, step: Step)
    requires Inv(s) && !s.running && Collecting(s) && Enabled(s, step)
    ensures var r := Apply(s, step); !r.running && s.appended <= r.appended && (!Collecting(r) ==> s.appended <= Collected(r))
  {
    if step.TakeBatch? || step.Enter? { TakenIsEverything(s); }
  }

  /** A stopped thread that is collecting still collects everything there is. */
  lemma {:induction false} CollectingRun(s: Logger, steps: seq<Step>)
    requires Inv(s) && !s.running && Collecting(s)
    ensures match Run(s, steps)
            case Reached(r) => !Collecting(r) ==> s.appended <= Collected(r)
            case Stuck => true
    decreases |steps|
  {
    if steps != [] && Enabled(s, steps[0]) {
      StepKeepsInv(s, steps[0]);
      CollectingStep(s, steps[0]);
      if Collecting(Apply(s, steps[0])) {
        CollectingRun(Apply(s, steps[0]), steps[1..]);
      } else {
        StoppedRun(Apply(s, steps[0]), steps[1..]);
      }
    }
  }

  /** What `Stop` loses, decided when it is called. Every line appended by then reaches the file, or is
      reported dropped, exactly if the logging thread has passed its test of `running_` and not yet taken its
      batch, or no line is in `buffers_` or in the current buffer; otherwise those lines, and no others
      appended by then, are left in memory. */
  lemma LeftBehindByStop(s: Logger, steps: seq<Step>)
    requires Inv(s)
    ensures match Run(Apply(s, Stop), steps)
            case Reached(r) =>
              r.phase.Finished? ==>
                var queued := Lines(s.buffers + Opt(s.current));
                && (s.appended <= Accounted(r.file) <==> Collecting(s) || queued == [])
                && (!Collecting(s) ==> Accounted(r.file) + queued == s.appended)
            case Stuck => true
  {
    hide Run, Shaped, OwnedOnce, Conserved, Lines, Accounted;
    var stopped := Apply(s, Stop);
    StepKeepsInv(s, Stop);
    if Collecting(s) {
      CollectingRun(stopped, steps);
    } else {
      StoppedRun(stopped, steps);
      CollectedAndQueued(stopped);
    }
    match Run(stopped, steps)
    case Reached(r) => if r.phase.Finished? { FinishedIsCollected(r); }
    case Stuck =>
  }

  lemma FinishedIsCollected(r: Logger)
    requires r.phase.Finished?
    ensures Collected(r) == Accounted(r.file)
  {
  }

  lemma RunCons(s: Logger, step: Step, rest: seq<Step>)
    requires Enabled(s, step)
    ensures Run(s, [step] + rest) == Run(Apply(s, step), rest)
  {
    assert ([step] + rest)[1..] == rest;
  }

  /** A line appended while the thread is writing its first batch, a `Stop`, and the rest of the round. */
  lemma LosingStates(line: Line) returns (writing: Logger, taken: Logger, written: Logger, recycled: Logger)
    requires |line| < LARGE_BUFFER
    ensures writing == AfterTakeBatch(STARTED.(phase := Waiting)) && writing.current.Some? && writing.phase.Writing?
    ensures taken == AfterAppend(writing, line) && taken.phase.Writing?
    ensures written == AfterWriteBatch(taken.(running := false)) && written.phase.Refilling? && Refillable(written)
    ensures recycled == AfterRecycle(written) && recycled.phase.AtHead? && !recycled.running
    ensures recycled.appended == [line] && recycled.file == [Wrote([])]
  {
    writing := AfterTakeBatch(STARTED.(phase := Waiting));
    taken := AfterAppend(writing, line);
    written := AfterWriteBatch(taken.(running := false));
    recycled := AfterRecycle(written);
    assert Written([Buffer(0, [])]) == [Wrote([])];
  }

  /** Witness: a line appended while the thread is writing, and then `Stop`. */
  lemma StopLosesALine(line: Line)
    requires |line| < LARGE_BUFFER
    ensures match Run(STARTED, [Test, Enter, TakeBatch, Append(line), Stop, WriteBatch, Recycle, Test])
            case Reached(r) => r.phase.Finished? && r.appended == [line] && Accounted(r.file) == []
            case Stuck => false
  {
    hide AfterTakeBatch, AfterAppend, AfterWriteBatch, AfterRecycle, Refillable;
    var writing, taken, written, recycled := LosingStates(line);
    AccountedSnoc([], Wrote([]));
    assert [] + [Wrote([])] == [Wrote([])];
    RunCons(recycled, Test, []);
    RunCons(written, Recycle, [Test]);
    RunCons(taken.(running := false), WriteBatch, [Recycle, Test]);
    RunCons(taken, Stop, [WriteBatch, Recycle, Test]);
    RunCons(writing, Append(line), [Stop, WriteBatch, Recycle, Test]);
    RunCons(STARTED.(phase := Waiting), TakeBatch, [Append(line), Stop, WriteBatch, Recycle, Test]);
    RunCons(STARTED.(phase := Entering), Enter, [TakeBatch, Append(line), Stop, WriteBatch, Recycle, Test]);
    RunCons(STARTED, Test, [Enter, TakeBatch, Append(line), Stop, WriteBatch, Recycle, Test]);
  }

  /** Witness: the same two calls one step earlier, between the test of `running_` and the lock, lose nothing. */
  lemma StopLosesNothingBeforeTheLock(line: Line)
    requires |line| < LARGE_BUFFER
    ensures match Run(STARTED, [Test, Append(line), Stop])
            case Reached(r) => Collecting(r) && r.appended == [line]
            case Stuck => false
  {
    var entering := STARTED.(phase := Entering);
    var taken := AfterAppend(entering, line);
    RunCons(taken, Stop, []);
    RunCons(entering, Append(line), [Stop]);
    RunCons(STARTED, Test, [Append(line), Stop]);
  }

  /** A batch, when taken, is all there is to write. */
  lemma TakenIsEverything(s: Logger)
    requires Inv(s) && Collecting(s)
    ensures Accounted(s.file) + Lines(AfterTakeBatch(s).batch) == s.appended
  {
    assert Pending(s) == s.buffers + [s.current.value];
  }

  /** The logger object. Its methods are the critical section of `Append` and the pieces of `ThreadFunc`;
      `None` is what a move leaves behind. */
  class AsyncLogging {
    var current: Option<Buffer>
    var next: Option<Buffer>
    var buffers: seq<Buffer>
    var spare1: Option<Buffer>
    var spare2: Option<Buffer>
    var batch: seq<Buffer>
    var phase: Phase
    var running: bool
    var created: nat
    ghost var file: seq<Item>
    ghost var appended: seq<Line>

    ghost function View(): Logger
      reads this
    {
      Logger(current, next, buffers, spare1, spare2, batch, phase, running, created, file, appended)
    }

    constructor ()
      ensures View() == STARTED && Inv(View())
    {
      current, next, buffers := Some(Buffer(0, [])), Some(Buffer(1, [])), [];
      spare1, spare2, batch := Some(Buffer(2, [])), Some(Buffer(3, [])), [];
      phase, running, created, file, appended := AtHead, true, 4, [], [];
      new;
      StartedIsFine();
    }

    method Rotate()
      requires current.Some?
      modifies this
      ensures View() == Rotated(old(View()))
    {
      buffers := buffers + [current.value];
      if next.Some? {
        current, next := next, None;
      } else {
        current, created := Some(Buffer(created, [])), created + 1;
      }
    }

    method Put(line: Line)
      requires current.Some?
      modifies this
      ensures View() == Take(old(View()), line)
    {
      appended := if Avail(current.value) > |line| then appended + [line] else appended;
      current := Some(Appended(current.value, line));
    }

    method Append(line: Line)
      requires Inv(View())
      modifies this
      ensures View() == AfterAppend(old(View()), line) && Inv(View())
    {
      assert current.Some?;
      hide Inv;
      ghost var before := View();
      StepKeepsInv(before, Step.Append(line));
      if Avail(current.value) > |line| {
        Put(line);
      } else {
        Rotate();
        Put(line);
      }
    }

    /** The current buffer joins the queue, the whole queue becomes the batch, and spares take their places. */
    method SwapBuffers()
      requires current.Some?
      modifies this
      ensures View() == AfterTakeBatch(old(View()))
    {
      buffers := buffers + [current.value];
      current, spare1 := spare1, None;
      batch, buffers := buffers, [];
      if next.None? {
        next, spare2 := spare2, None;
      }
      phase := Writing;
    }

    /** The critical section from there on. */
    method TakeBatch()
      requires Inv(View()) && phase.Waiting?
      modifies this
      ensures View() == AfterTakeBatch(old(View())) && Inv(View())
      ensures Accounted(file) + Lines(batch) == appended
    {
      StepKeepsInv(View(), Step.TakeBatch);
      TakenIsEverything(View());
      SwapBuffers();
    }

    /** The lock is taken; with nothing queued it is given up while waiting. */
    method EnterSection()
      requires Inv(View()) && phase.Entering?
      modifies this
      ensures View() == Apply(old(View()), Enter) && Inv(View())
      ensures phase.Waiting? || (phase.Writing? && Accounted(file) + Lines(batch) == appended)
    {
      StepKeepsInv(View(), Enter);
      TakenIsEverything(View());
      if buffers == [] {
        phase := Waiting;
      } else {
        SwapBuffers();
      }
    }

    method WriteBatch()
      requires Inv(View()) && phase.Writing?
      modifies this
      ensures View() == AfterWriteBatch(old(View())) && Inv(View())
    {
      hide Inv, Written, Cut;
      ghost var before := View();
      if |batch| > MAX_BATCH {
        file := Cut(file, batch[..2], batch[2..]);
        batch := batch[..2];
      } else {
        file := file + Written(batch);
      }
      if |batch| > 2 {
        batch := batch[..2];
      }
      phase := Refilling;
      StepKeepsInv(before, Step.WriteBatch);
    }

    method Recycle()
      requires Inv(View()) && phase.Refilling?
      modifies this
      ensures View() == AfterRecycle(old(View())) && Inv(View()) && HeadAsserts(View())
    {
      hide OwnedOnce, Conserved;
      ghost var before := View();
      if spare1.None? {
        assert batch != [];
        spare1 := Some(Reset(batch[|batch| - 1]));
        batch := batch[..|batch| - 1];
      }
      if spare2.None? {
        assert batch != [];
        spare2 := Some(Reset(batch[|batch| - 1]));
        batch := batch[..|batch| - 1];
      }
      batch := [];
      phase := AtHead;
      StepKeepsInv(before, Step.Recycle);
    }

    /** The flag is cleared; the thread notices at its next test. */
    method Stop()
      requires Inv(View())
      modifies `running
      ensures View() == Apply(old(View()), Step.Stop) && Inv(View())
    {
      StepKeepsInv(View(), Step.Stop);
      hide Inv;
      running := false;
    }

    /** The loop's test, and the asserts behind it. */
    method TestRunning() returns (again: bool)
      requires Inv(View()) && phase.AtHead?
      modifies `phase
      ensures View() == Apply(old(View()), Test) && Inv(View()) && again == running
      ensures if again then phase.Entering? && HeadAsserts(View()) else phase.Finished?
    {
      StepKeepsInv(View(), Test);
      again := running;
      phase := if running then Entering else Finished;
    }

    /** Some other thread appends some line, or stops the logger. */
    method OtherThread()
      requires Inv(View())
      modifies this
      ensures Inv(View()) && phase == old(phase) && batch == old(batch)
      ensures (running ==> old(running)) && file == old(file) && old(appended) <= appended
    {
      hide Inv;
      if * {
        Stop();
      } else {
        var line: Line := *;
        Append(line);
      }
    }

    /** Other threads append any lines while the lock is free, and may stop the logger. */
    method Interfere()
      requires Inv(View())
      modifies this
      ensures Inv(View()) && phase == old(phase) && batch == old(batch)
      ensures (running ==> old(running)) && file == old(file) && old(appended) <= appended
    {
      hide Inv;
      var steps: nat :| true;
      for step := 0 to steps
        invariant Inv(View()) && phase == old(phase) && batch == old(batch)
        invariant (running ==> old(running)) && file == old(file) && old(appended) <= appended
      {
        OtherThread();
      }
    }

    /** From the test to the batch: everything appended so far, and perhaps more, is in the batch or the
        file, even if the logger is stopped meanwhile. */
    method Collect()
      requires Inv(View()) && phase.Entering?
      modifies this
      ensures Inv(View()) && phase.Writing?
      ensures old(appended) <= Accounted(file) + Lines(batch)
    {
      hide Inv;
      Interfere();
      EnterSection();
      if phase.Waiting? {
        Interfere();
        TakeBatch();
      }
    }

    /** From the batch to the next test: what was taken is in the file or reported dropped. */
    method Deliver()
      requires Inv(View()) && phase.Writing?
      modifies this
      ensures Inv(View()) && phase.AtHead? && HeadAsserts(View())
      ensures Accounted(file) == old(Accounted(file) + Lines(batch))
    {
      hide Inv, Output;
      WriteAccounts(file, batch);
      WriteBatch();
      Interfere();
      Recycle();
    }

    /** One turn of the loop of `ThreadFunc`, with appends arriving and perhaps a `Stop` whenever the lock is
        free. Unless the test ends the thread, every line appended before the turn is in the file or
        reported dropped when it ends. */
    method Round() returns (again: bool)
      requires Inv(View()) && phase.AtHead?
      modifies this
      ensures Inv(View()) && again == old(running)
      ensures if again then phase.AtHead? && HeadAsserts(View()) && old(appended) <= Accounted(file)
              else phase.Finished? && file == old(file)
    {
      hide Inv, Accounted, Lines;
      again := TestRunning();
      if again {
        Collect();
        Interfere();
        Deliver();
      }
    }
  }
}
