/** Whole runs of the growable block of epoll_server/buffer.h. A `resize` that grows the content leaves
    cells nobody has written, and one that does not preserve leaves none that can be relied on, so the
    block is compared with a sequence in which some elements are not known. */
module BufferRuns {
  import opened Buffers
  import opened Sequences
  import opened Wrappers

  datatype Op<T> =
    | Assign(data: seq<T>)
    | Append(data: seq<T>)
    | Resize(newCapacity: nat, preserve: bool)
    | SetCapacity(newCapacity: nat, preserve: bool)

  /** What a block holds and how much it could hold. */
  datatype Block<T> = Block(content: seq<Option<T>>, capacity: nat)

  function Unknown<T>(n: nat): seq<Option<T>> { seq(n, _ => None) }

  function Known<T>(data: seq<T>): (s: seq<Option<T>>)
    ensures |s| == |data| && forall i :: 0 <= i < |s| ==> s[i] == Some(data[i])
  {
    seq(|data|, i requires 0 <= i < |data| => Some(data[i]))
  }

  function Max(a: nat, b: nat): nat { if a > b then a else b }

  /** The first `n` elements, filled up with unknown ones. */
  function Prefix<T>(s: seq<Option<T>>, n: nat): seq<Option<T>> {
    if n <= |s| then s[..n] else s + Unknown(n - |s|)
  }

  function Apply<T>(b: Block<T>, op: Op<T>): Block<T> {
    match op
    case Assign(data) => if data == [] then b else Block(Known(data), Max(b.capacity, |data|))
    case Append(data) =>
      if data == [] then b else Block(b.content + Known(data), Max(b.capacity, |b.content| + |data|))
    case Resize(n, preserve) => Block(if preserve then Prefix(b.content, n) else Unknown(n), Max(b.capacity, n))
    case SetCapacity(n, preserve) =>
      if n == b.capacity then b
      else Block(Prefix(if preserve then b.content else Unknown(|b.content|), Min(|b.content|, n)), n)
  }

  function Run<T>(b: Block<T>, ops: seq<Op<T>>): Block<T>
    decreases |ops|
  {
    if ops == [] then b else Run(Apply(b, ops[0]), ops[1..])
  }

  /** The content agrees with everything that is known of it. */
  ghost predicate Holds<T>(content: seq<T>, s: seq<Option<T>>) {
    |content| == |s| && forall i :: 0 <= i < |s| && s[i].Some? ==> content[i] == s[i].value
  }

  ghost predicate Shows<T(0)>(b: Buffer<T>, block: Block<T>)
    reads b, b.ptr
  {
    b.Valid() && b.capacity == block.capacity && Holds(b.Content(), block.content)
  }

  lemma HoldsPrefix<T>(was: seq<T>, now: seq<T>, s: seq<Option<T>>)
    requires Holds(was, s)
    requires var kept := Min(|was|, |now|); now[..kept] == was[..kept]
    ensures Holds(now, Prefix(s, |now|))
  {
    var kept := Min(|was|, |now|);
    forall i | 0 <= i < |now| && Prefix(s, |now|)[i].Some?
      ensures now[i] == Prefix(s, |now|)[i].value
    {
      assert now[i] == now[..kept][i] == was[..kept][i];
    }
  }

  /** Every run of assignments, appends, resizings and changes of capacity on a block that owns its
      memory: the block never holds more than its capacity, and its content is, wherever it is known,
      what the same operations make of a plain sequence, across all reallocations. */
  method Replay<T(0)>(b: Buffer<T>, ops: seq<Op<T>>, ghost block: Block<T>)
    requires b.ownMem && Shows(b, block)
    requires forall i :: 0 <= i < |ops| && ops[i].Resize? ==> ops[i].newCapacity > 0
    modifies b, b.ptr
    ensures Shows(b, Run(block, ops))
    decreases |ops|
  {
    if |ops| > 0 {
      Perform(b, ops[0], block);
      Replay(b, ops[1..], Apply(block, ops[0]));
    }
  }

  method Perform<T(0)>(b: Buffer<T>, op: Op<T>, ghost block: Block<T>)
    requires b.ownMem && Shows(b, block)
    requires op.Resize? ==> op.newCapacity > 0
    modifies b, b.ptr
    ensures b.ptr == old(b.ptr) || fresh(b.ptr)
    ensures Shows(b, Apply(block, op))
  {
    ghost var content := b.Content();
    match op
    case Assign(data) => {
      var r := b.Assign(data);
    }
    case Append(data) => {
      var r := b.Append(data);
    }
    case Resize(newCapacity, preserve) => {
      var r := b.Resize(newCapacity, preserve);
      if preserve {
        HoldsPrefix(content, b.Content(), block.content);
      }
    }
    case SetCapacity(newCapacity, preserve) => {
      var r := b.SetCapacity(newCapacity, preserve);
      if preserve {
        HoldsPrefix(content, b.Content(), block.content);
      }
    }
  }
}
