/** The plain queue that the sliding FIFO buffer of epoll_server/fifo_buffer.h stands for: a sequence
    with a size limit, two flags, and the list of the edge signals it has emitted. There is no
    `_begin` here; `Fifos.Fifo` proves that the array with its sliding window behaves like this. */
module Queues {
  import opened Sequences
  import opened Wrappers

  /** One call of the `readable` or the `writable` signal. */
  datatype Signal = Readable(on: bool) | Writable(on: bool)

  datatype Queue<T> = Queue(
    content: seq<T>,
    size: nat,
    notify: bool,
    eof: bool,
    error: bool,
    log: seq<Signal>)
  {
    predicate IsFull() { size == |content| }
    predicate IsReadable() { content != [] && !error }
    predicate IsWritable() { !IsFull() && !error && !eof }
    function Available(): int { size - |content| }

    /** What every operation keeps: the content fits, and an errored queue holds nothing. */
    ghost predicate WellFormed() {
      |content| <= size && (error ==> content == [])
    }
  }

  /** The signals of `notify(usedBefore)`. */
  function Edges(before: nat, after: nat, size: nat): seq<Signal> {
    (if before == 0 && after > 0 then [Readable(true)]
     else if before > 0 && after == 0 then [Readable(false)] else []) +
    (if before == size && after < size then [Writable(true)]
     else if before < size && after == size then [Writable(false)] else [])
  }

  /** New content, signalled when the queue notifies. */
  function Refill<T>(q: Queue<T>, content: seq<T>): Queue<T> {
    q.(content := content,
       log := q.log + if q.notify then Edges(|q.content|, |content|, q.size) else [])
  }

  function Peek<T>(q: Queue<T>, length: nat): seq<T> {
    if !q.IsReadable() then [] else q.content[..Min(length, |q.content|)]
  }

  function Read<T>(q: Queue<T>, length: nat): Queue<T> {
    var n := |Peek(q, length)|;
    if n == 0 then q else Refill(q, q.content[n..])
  }

  /** How many of `length` offered elements a write accepts. */
  function Accepted<T>(q: Queue<T>, length: nat): nat
    requires q.WellFormed()
  {
    if q.IsWritable() then Min(length, q.size - |q.content|) else 0
  }

  function Write<T>(q: Queue<T>, data: seq<T>): Queue<T>
    requires q.WellFormed()
  {
    if |data| == 0 || !q.IsWritable() then q
    else Refill(q, q.content + data[..Accepted(q, |data|)])
  }

  /** `drain(0)` empties the queue. */
  function Drain<T>(q: Queue<T>, length: nat): Queue<T> {
    Refill(q, if length == 0 || length >= |q.content| then [] else q.content[length..])
  }

  /** Why `copy` or `advance` refuses `length` more elements. */
  function ExtendOutcome<T>(q: Queue<T>, length: nat): Result<()> {
    if length > q.Available() then Failure(CannotExtend)
    else if !q.IsWritable() then Failure(NotWritable)
    else Success(())
  }

  function Extend<T>(q: Queue<T>, data: seq<T>): Queue<T> {
    if ExtendOutcome(q, |data|).Success? then Refill(q, q.content + data) else q
  }

  function SetError<T>(q: Queue<T>, error: bool): Queue<T> {
    if error then
      q.(content := [], error := true,
         log := q.log
         + (if q.IsReadable() && q.notify then [Readable(false)] else [])
         + (if q.IsWritable() && q.notify then [Writable(false)] else []))
    else
      q.(error := false, log := q.log + if q.notify && !q.eof then [Writable(true)] else [])
  }

  function SetEof<T>(q: Queue<T>, eof: bool): Queue<T> {
    q.(eof := eof, log := q.log + if q.notify then [Writable(!eof)] else [])
  }

  function ResizeOutcome<T>(q: Queue<T>, newSize: nat, preserve: bool): Result<()> {
    if preserve && newSize < |q.content| then Failure(DataLoss) else Success(())
  }

  /** `notify` runs after the size has changed, so its edges are those of the new size. */
  function Resize<T>(q: Queue<T>, newSize: nat, preserve: bool): Queue<T> {
    if ResizeOutcome(q, newSize, preserve).Failure? then q
    else
      var after := if preserve then q.content else [];
      q.(content := after, size := newSize,
         log := q.log + if q.notify then Edges(|q.content|, |after|, newSize) else [])
  }
}
