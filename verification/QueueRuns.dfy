/** Whole runs of FIFO operations: nothing is lost or reordered, and what the listeners of the two
    signals have been told is what the queue would answer. */
module QueueRuns {
  import opened Wrappers
  import opened Queues
  import opened Sequences

  datatype Op<T> =
    | OpWrite(data: seq<T>)
    | OpCopy(data: seq<T>)
    | OpAdvance(data: seq<T>)     // `data` is what the caller has put behind `next()`
    | OpRead(length: nat)
    | OpDrain(length: nat)
    | OpSetError(error: bool)
    | OpSetEof(eof: bool)
    | OpResize(newSize: nat, preserve: bool)

  function Apply<T>(q: Queue<T>, op: Op<T>): (r: Queue<T>)
    requires q.WellFormed()
    ensures r.WellFormed()
  {
    match op
    case OpWrite(data) => Write(q, data)
    case OpCopy(data) => Extend(q, data)
    case OpAdvance(data) => Extend(q, data)
    case OpRead(length) => Read(q, length)
    case OpDrain(length) => Drain(q, length)
    case OpSetError(error) => SetError(q, error)
    case OpSetEof(eof) => SetEof(q, eof)
    case OpResize(newSize, preserve) => Resize(q, newSize, preserve)
  }

  ghost function Run<T>(q: Queue<T>, ops: seq<Op<T>>): (r: Queue<T>)
    requires q.WellFormed()
    ensures r.WellFormed()
    decreases |ops|
  {
    if ops == [] then q else Run(Apply(q, ops[0]), ops[1..])
  }

  // ---------------------------------------------------------------- conservation

  /** What an operation takes in. */
  ghost function Added<T>(q: Queue<T>, op: Op<T>): seq<T>
    requires q.WellFormed()
  {
    match op
    case OpWrite(data) => data[..Accepted(q, |data|)]
    case OpCopy(data) => if ExtendOutcome(q, |data|).Success? then data else []
    case OpAdvance(data) => if ExtendOutcome(q, |data|).Success? then data else []
    case _ => []
  }

  /** What an operation hands out or throws away. */
  ghost function Removed<T>(q: Queue<T>, op: Op<T>): seq<T> {
    match op
    case OpRead(length) => Peek(q, length)
    case OpDrain(length) => if length == 0 || length >= |q.content| then q.content else q.content[..length]
    case OpSetError(error) => if error then q.content else []
    case OpResize(newSize, preserve) => if preserve then [] else q.content
    case _ => []
  }

  ghost function AllAdded<T>(q: Queue<T>, ops: seq<Op<T>>): seq<T>
    requires q.WellFormed()
    decreases |ops|
  {
    if ops == [] then [] else Added(q, ops[0]) + AllAdded(Apply(q, ops[0]), ops[1..])
  }

  ghost function AllRemoved<T>(q: Queue<T>, ops: seq<Op<T>>): seq<T>
    requires q.WellFormed()
    decreases |ops|
  {
    if ops == [] then [] else Removed(q, ops[0]) + AllRemoved(Apply(q, ops[0]), ops[1..])
  }

  lemma StepConserves<T>(q: Queue<T>, op: Op<T>)
    requires q.WellFormed()
    ensures q.content + Added(q, op) == Removed(q, op) + Apply(q, op).content
  {
  }

  /** In every run the elements taken in, appended to the initial content, are the elements handed
      out or discarded followed by the final content: same elements, same order. */
  lemma {:induction false} RunConserves<T>(q: Queue<T>, ops: seq<Op<T>>)
    requires q.WellFormed()
    ensures q.content + AllAdded(q, ops) == AllRemoved(q, ops) + Run(q, ops).content
    decreases |ops|
  {
    if ops == [] {
    } else {
      var op, q' := ops[0], Apply(q, ops[0]);
      StepConserves(q, op);
      RunConserves(q', ops[1..]);
      Regroup(q.content, Added(q, op), AllAdded(q', ops[1..]));
      Regroup(Removed(q, op), q'.content, AllAdded(q', ops[1..]));
      Regroup(Removed(q, op), AllRemoved(q', ops[1..]), Run(q', ops[1..]).content);
    }
  }

  // ---------------------------------------------------------------- signals

  /** The value a listener of `readable` heard last; a new FIFO is not readable. */
  ghost function ReadableHeard(log: seq<Signal>): bool {
    if log == [] then false
    else match log[|log| - 1]
      case Readable(on) => on
      case Writable(_) => ReadableHeard(log[..|log| - 1])
  }

  /** The value a listener of `writable` heard last; a new FIFO of positive size is writable. */
  ghost function WritableHeard(log: seq<Signal>): bool {
    if log == [] then true
    else match log[|log| - 1]
      case Writable(on) => on
      case Readable(_) => WritableHeard(log[..|log| - 1])
  }

  /** No signal repeats the value its listener heard last. */
  ghost predicate Alternates(log: seq<Signal>) {
    log == []
    || (var before := log[..|log| - 1];
        && Alternates(before)
        && match log[|log| - 1]
           case Readable(on) => on != ReadableHeard(before)
           case Writable(on) => on != WritableHeard(before))
  }

  /** The listeners of a notifying FIFO know exactly what it would answer. */
  ghost predicate Agrees<T>(q: Queue<T>) {
    && q.WellFormed() && q.notify && q.size > 0
    && ReadableHeard(q.log) == q.IsReadable()
    && WritableHeard(q.log) == q.IsWritable()
    && Alternates(q.log)
  }

  /** The operations that keep listeners and queue in agreement, by what the caller can see before
      the call. `notify` does not look at the end-of-file flag, `setEOF` and `setError(false)` do not
      look at the fill level, and `resize` compares the old count with the new size. */
  ghost predicate Announced<T>(q: Queue<T>, op: Op<T>) {
    match op
    case OpRead(length) => !(q.eof && q.IsFull() && length > 0)
    case OpDrain(length) => !(q.eof && q.IsFull())
    case OpSetError(error) => error || q.error || q.eof
    case OpSetEof(eof) => if eof then q.IsWritable() else q.eof && !q.error && !q.IsFull()
    case OpResize(newSize, preserve) =>
      || (preserve && newSize < |q.content|)
      || (newSize > 0
          && (q.error
              || if q.eof then preserve || |q.content| != newSize
                 else q.IsFull() == (|q.content| == newSize)))
    case _ => true
  }

  lemma Hear(log: seq<Signal>, s: Signal)
    ensures ReadableHeard(log + [s]) == if s.Readable? then s.on else ReadableHeard(log)
    ensures WritableHeard(log + [s]) == if s.Writable? then s.on else WritableHeard(log)
    ensures Alternates(log + [s]) <==>
            Alternates(log) && s.on != if s.Readable? then ReadableHeard(log) else WritableHeard(log)
  {
    assert (log + [s])[..|log|] == log;
  }

  /** What the listeners know after one `notify`. */
  lemma HearEdges(log: seq<Signal>, before: nat, after: nat, size: nat)
    ensures var log' := log + Edges(before, after, size);
            && ReadableHeard(log') == (if (before == 0) != (after == 0) then after > 0 else ReadableHeard(log))
            && WritableHeard(log') == (if before == size && after < size then true
                                       else if before < size && after == size then false
                                       else WritableHeard(log))
            && (Alternates(log') <==>
                && Alternates(log)
                && ((before == 0) != (after == 0) ==> ReadableHeard(log) == (after == 0))
                && (before == size && after < size ==> !WritableHeard(log))
                && (before < size && after == size ==> WritableHeard(log)))
  {
    var r := if before == 0 && after > 0 then [Readable(true)]
             else if before > 0 && after == 0 then [Readable(false)] else [];
    var w := if before == size && after < size then [Writable(true)]
             else if before < size && after == size then [Writable(false)] else [];
    assert log + Edges(before, after, size) == (log + r) + w;
    if r != [] {
      Hear(log, r[0]);
    } else {
      assert log + r == log;
    }
    if w != [] {
      Hear(log + r, w[0]);
    } else {
      assert (log + r) + w == log + r;
    }
  }

  /** The operations that only change the content agree unless they make room after end-of-file. */
  lemma RefillAgreesIff<T>(q: Queue<T>, content: seq<T>)
    requires Agrees(q) && |content| <= q.size && (|content| > |q.content| ==> q.IsWritable())
    ensures Agrees(Refill(q, content)) <==> !(q.eof && q.IsFull() && |content| < q.size)
  {
    HearEdges(q.log, |q.content|, |content|, q.size);
  }

  lemma ResizeAgreesIff<T>(q: Queue<T>, newSize: nat, preserve: bool)
    requires Agrees(q)
    ensures Agrees(Resize(q, newSize, preserve)) <==> Announced(q, OpResize(newSize, preserve))
  {
    HearEdges(q.log, |q.content|, if preserve then |q.content| else 0, newSize);
  }

  lemma ReadAgreesIff<T>(q: Queue<T>, length: nat)
    requires Agrees(q)
    ensures Agrees(Read(q, length)) <==> Announced(q, OpRead(length))
  {
    var n := |Peek(q, length)|;
    RefillAgreesIff(q, q.content[n..]);
  }

  lemma DrainAgreesIff<T>(q: Queue<T>, length: nat)
    requires Agrees(q)
    ensures Agrees(Drain(q, length)) <==> Announced(q, OpDrain(length))
  {
    RefillAgreesIff(q, if length == 0 || length >= |q.content| then [] else q.content[length..]);
  }

  lemma WriteAgrees<T>(q: Queue<T>, data: seq<T>)
    requires Agrees(q)
    ensures Agrees(Write(q, data))
  {
    if |data| > 0 && q.IsWritable() {
      RefillAgreesIff(q, q.content + data[..Accepted(q, |data|)]);
    }
  }

  lemma ExtendAgrees<T>(q: Queue<T>, data: seq<T>)
    requires Agrees(q)
    ensures Agrees(Extend(q, data))
  {
    if ExtendOutcome(q, |data|).Success? {
      RefillAgreesIff(q, q.content + data);
    }
  }

  lemma SetErrorAgreesIff<T>(q: Queue<T>, error: bool)
    requires Agrees(q)
    ensures Agrees(SetError(q, error)) <==> Announced(q, OpSetError(error))
  {
    if error {
      var r := if q.IsReadable() then [Readable(false)] else [];
      var w := if q.IsWritable() then [Writable(false)] else [];
      Hear(q.log, Readable(false));
      Hear(q.log + r, Writable(false));
      assert r == [] ==> q.log + r == q.log;
      assert w == [] ==> q.log + r + w == q.log + r;
    } else {
      Hear(q.log, Writable(true));
      assert q.log + [] == q.log;
    }
  }

  lemma SetEofAgreesIff<T>(q: Queue<T>, eof: bool)
    requires Agrees(q)
    ensures Agrees(SetEof(q, eof)) <==> Announced(q, OpSetEof(eof))
  {
    Hear(q.log, Writable(!eof));
  }

  /** One operation from an agreeing state: agreement survives exactly when it is `Announced`. */
  lemma StepAgreesIff<T>(q: Queue<T>, op: Op<T>)
    requires Agrees(q)
    ensures Agrees(Apply(q, op)) <==> Announced(q, op)
  {
    match op
    case OpWrite(data) => WriteAgrees(q, data);
    case OpCopy(data) => ExtendAgrees(q, data);
    case OpAdvance(data) => ExtendAgrees(q, data);
    case OpRead(length) => ReadAgreesIff(q, length);
    case OpDrain(length) => DrainAgreesIff(q, length);
    case OpSetError(error) => SetErrorAgreesIff(q, error);
    case OpSetEof(eof) => SetEofAgreesIff(q, eof);
    case OpResize(newSize, preserve) => ResizeAgreesIff(q, newSize, preserve);
  }

  ghost predicate AgreesThroughout<T>(q: Queue<T>, ops: seq<Op<T>>)
    decreases |ops|
  {
    Agrees(q) && (ops != [] ==> AgreesThroughout(Apply(q, ops[0]), ops[1..]))
  }

  ghost predicate AnnouncedRun<T>(q: Queue<T>, ops: seq<Op<T>>)
    requires q.WellFormed()
    decreases |ops|
  {
    ops != [] ==> Announced(q, ops[0]) && AnnouncedRun(Apply(q, ops[0]), ops[1..])
  }

  /** Over whole runs: queue and listeners agree, and each signal strictly alternates, at every point
      of a run exactly when every operation of the run is `Announced`. */
  lemma {:induction false} RunAgreesIff<T>(q: Queue<T>, ops: seq<Op<T>>)
    requires Agrees(q)
    ensures AgreesThroughout(q, ops) <==> AnnouncedRun(q, ops)
    decreases |ops|
  {
    if ops == [] {
    } else {
      StepAgreesIff(q, ops[0]);
      if Announced(q, ops[0]) {
        RunAgreesIff(Apply(q, ops[0]), ops[1..]);
      }
    }
  }

  /** The use the repository makes of a FIFO: fixed size, no end-of-file, an error cleared only when
      it is set. */
  ghost predicate Plain<T>(q: Queue<T>, ops: seq<Op<T>>)
    requires q.WellFormed()
    decreases |ops|
  {
    ops == []
    || (&& !ops[0].OpSetEof? && !ops[0].OpResize?
        && (ops[0].OpSetError? && !ops[0].error ==> q.error)
        && Plain(Apply(q, ops[0]), ops[1..]))
  }

  lemma {:induction false} PlainRunAgrees<T>(q: Queue<T>, ops: seq<Op<T>>)
    requires Agrees(q) && !q.eof && Plain(q, ops)
    ensures AgreesThroughout(q, ops)
    ensures Agrees(Run(q, ops)) && !Run(q, ops).eof
    decreases |ops|
  {
    if ops == [] {
    } else {
      StepAgreesIff(q, ops[0]);
      PlainRunAgrees(Apply(q, ops[0]), ops[1..]);
    }
  }

  lemma NewQueueAgrees<T>(size: nat)
    requires size > 0
    ensures Agrees(Queue<T>.Queue([], size, true, false, false, []))
  {
  }

  /** Without the guard on end-of-file: a full FIFO of size 1 whose end of file was announced tells
      its writer to go on as soon as it is drained, though it accepts nothing any more. */
  lemma EofDisagrees(x: int)
    ensures var q := Queue([], 1, true, false, false, []);
            var ops := [OpWrite([x]), OpSetEof(true), OpDrain(1)];
            WritableHeard(Run(q, ops).log) && !Run(q, ops).IsWritable()
  {
    var q := Queue([], 1, true, false, false, []);
    var q1 := Apply(q, OpWrite([x]));
    var q2 := Apply(q1, OpSetEof(true));
    var q3 := Apply(q2, OpDrain(1));
    assert Accepted(q, 1) == 1 && q1.content == [x];
    assert Edges(1, 0, 1) == [Readable(false), Writable(true)];
    assert q3.log == q2.log + [Readable(false)] + [Writable(true)];
    var ops := [OpWrite([x]), OpSetEof(true), OpDrain(1)];
    assert ops[1..] == [OpSetEof(true), OpDrain(1)] && ops[1..][1..] == [OpDrain(1)];
    assert Run(q, ops) == Run(q1, ops[1..]) == Run(q2, [OpDrain(1)]) == q3;
  }

  /** Growing a full FIFO makes it writable without telling anybody. */
  lemma GrowthDisagrees<T>(q: Queue<T>, newSize: nat)
    requires Agrees(q) && q.IsFull() && !q.eof && newSize > q.size
    ensures Resize(q, newSize, true).IsWritable() && !WritableHeard(Resize(q, newSize, true).log)
  {
    assert Edges(|q.content|, |q.content|, newSize) == [];
    assert q.log + [] == q.log;
  }

  /** In a run: a FIFO of size 1 is written full, and then grown. */
  lemma FullGrows(x: int)
    ensures var q := Queue([], 1, true, false, false, []);
            var ops := [OpWrite([x]), OpResize(2, true)];
            Run(q, ops).IsWritable() && !WritableHeard(Run(q, ops).log)
  {
    var q := Queue([], 1, true, false, false, []);
    var q1 := Apply(q, OpWrite([x]));
    NewQueueAgrees<int>(1);
    StepAgreesIff(q, OpWrite([x]));
    assert Accepted(q, 1) == 1 && q1.content == [x];
    GrowthDisagrees(q1, 2);
    var ops := [OpWrite([x]), OpResize(2, true)];
    assert ops[1..] == [OpResize(2, true)] && ops[1..][1..] == [];
    assert Run(q, ops) == Run(q1, ops[1..]) == Apply(q1, OpResize(2, true));
  }

  /** Clearing an error that was never set tells the writer of a new FIFO what it knows already. */
  lemma ClearedErrorRepeats<T>(size: nat)
    requires size > 0
    ensures var q := Queue<T>.Queue([], size, true, false, false, []);
            Agrees(q) && Apply(q, OpSetError(false)).log == [Writable(true)] && !Alternates(Apply(q, OpSetError(false)).log)
  {
    NewQueueAgrees<T>(size);
    Hear([], Writable(true));
    assert [] + [Writable(true)] == [Writable(true)];
  }
}
