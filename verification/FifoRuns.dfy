/** The FIFO object follows the queue over whole runs, as long as its window lies in its block. */
module FifoRuns {
  import opened Fifos
  import opened Queues
  import opened QueueRuns
  import opened Wrappers

  // ---------------------------------------------------------------- where the window starts

  /** `_begin` after an operation: reading and draining move it, whatever needs room behind the content
      moves the content to the front, and `resize` and `setError` leave it where it is. */
  function BeginAfter<T>(begin: nat, q: Queue<T>, op: Op<T>): nat
    requires q.WellFormed()
  {
    match op
    case OpWrite(data) => if data == [] || !q.IsWritable() then begin else 0
    case OpCopy(data) => if data == [] || ExtendOutcome(q, |data|).Failure? then begin else 0
    case OpAdvance(_) => 0
    case OpRead(length) =>
      if |Peek(q, length)| == 0 then begin
      else if |Peek(q, length)| == |q.content| then 0 else begin + |Peek(q, length)|
    case OpDrain(length) => if length == 0 || length >= |q.content| then 0 else begin + length
    case _ => begin
  }

  /** A `resize` that goes through leaves the window inside the smaller or larger block. */
  predicate Fits<T>(begin: nat, q: Queue<T>, op: Op<T>) {
    op.OpResize? && ResizeOutcome(q, op.newSize, op.preserve).Success? ==>
      begin + (if op.preserve then |q.content| else 0) <= op.newSize
  }

  /** Every `resize` of the run fits when its turn comes. */
  ghost predicate FitsRun<T>(begin: nat, q: Queue<T>, ops: seq<Op<T>>)
    requires q.WellFormed()
    decreases |ops|
  {
    ops != [] ==> Fits(begin, q, ops[0]) && FitsRun(BeginAfter(begin, q, ops[0]), Apply(q, ops[0]), ops[1..])
  }

  /** The block is never resized to nothing, which `Buffer::resize` asserts. */
  ghost predicate Positive<T>(q: Queue<T>, ops: seq<Op<T>>)
    requires q.WellFormed()
    decreases |ops|
  {
    ops != [] ==>
      && (ops[0].OpResize? ==> ops[0].newSize > 0 || ResizeOutcome(q, 0, ops[0].preserve).Failure?)
      && Positive(Apply(q, ops[0]), ops[1..])
  }

  // ---------------------------------------------------------------- runs

  /** Replaying operations on the array with its sliding window: the window stays in the block exactly
      if every `resize` of the run fits, and then the object ends in the state in which the same
      operations leave the plain queue, signals included. A run that does not fit is given up at the
      first `resize` that puts the window outside the block. `advance` is used as it is meant to be: the
      caller fills the room behind `next()` first. */
  method Replay<T(0)>(f: Fifo<T>, ops: seq<Op<T>>) returns (inside: bool)
    requires f.Valid() && f.buffer.ownMem && Positive(f.View(), ops)
    modifies f, f.buffer, f.buffer.ptr
    ensures inside == f.Valid()
    ensures inside <==> FitsRun(old(f.begin), old(f.View()), ops)
    ensures inside ==> f.View() == Run(old(f.View()), ops)
    decreases |ops|
  {
    inside := true;
    if |ops| > 0 {
      inside := Perform(f, ops[0]);
      if inside {
        inside := Replay(f, ops[1..]);
      }
    }
  }

  method Perform<T(0)>(f: Fifo<T>, op: Op<T>) returns (inside: bool)
    requires f.Valid() && f.buffer.ownMem
    requires op.OpResize? ==> op.newSize > 0 || ResizeOutcome(f.View(), 0, op.preserve).Failure?
    modifies f, f.buffer, f.buffer.ptr
    ensures f.buffer.ptr == old(f.buffer.ptr) || fresh(f.buffer.ptr)
    ensures inside == f.Valid()
    ensures inside <==> Fits(old(f.begin), old(f.View()), op)
    ensures inside ==> f.View() == Apply(old(f.View()), op) && f.begin == BeginAfter(old(f.begin), old(f.View()), op)
  {
    inside := true;
    match op
    case OpWrite(data) => {
      var len := f.Write(data);
    }
    case OpCopy(data) => {
      var r := f.Copy(data);
    }
    case OpAdvance(data) => Fill(f, data);
    case OpRead(length) => {
      var data := f.Read(length);
    }
    case OpDrain(length) => f.Drain(length);
    case OpSetError(error) => f.SetError(error);
    case OpSetEof(eof) => f.SetEof(eof);
    case OpResize(newSize, preserve) => {
      inside := Rescale(f, newSize, preserve);
    }
  }

  /** The caller puts `data` behind `next()` and claims it. */
  method Fill<T(0)>(f: Fifo<T>, data: seq<T>)
    requires f.Valid()
    modifies f, f.buffer.ptr
    ensures f.Valid() && f.begin == 0
    ensures f.View() == Extend(old(f.View()), data)
  {
    var at := f.Next();
    if |data| <= f.Available() {
      f.Land(at, data);
    }
    var r := f.Advance(|data|);
  }

  method Rescale<T(0)>(f: Fifo<T>, newSize: nat, preserve: bool) returns (inside: bool)
    requires f.Valid() && f.buffer.ownMem
    requires newSize > 0 || ResizeOutcome(f.View(), 0, preserve).Failure?
    modifies f, f.buffer
    ensures f.buffer.ptr == old(f.buffer.ptr) || fresh(f.buffer.ptr)
    ensures inside == f.Valid() && f.begin == old(f.begin)
    ensures inside <==> Fits(old(f.begin), old(f.View()), OpResize(newSize, preserve))
    ensures inside ==> f.View() == Resize(old(f.View()), newSize, preserve)
  {
    var r := f.Resize(newSize, preserve);
    inside := f.begin + f.used <= f.buffer.used;
  }

  /** The window does leave the block: four elements are written to a FIFO of size 4 and three are read,
      so one element is left at index 3 when the block shrinks to two. */
  method WindowLeaves() returns (begin: nat, used: nat, size: nat)
    ensures begin == 3 && used == 1 && size == 2
    ensures begin + used > size
  {
    var f := new Fifo<int>(4);
    var n := f.Write([1, 2, 3, 4]);
    var data := f.Read(3);
    var r := f.Resize(2, true);
    begin, used, size := f.begin, f.used, f.buffer.used;
  }
}
