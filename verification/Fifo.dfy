/** The sliding buffer of epoll_server/fifo_buffer.h: a flat block in which the content occupies
    `[begin, begin + used)`, moved to the front only when room is needed behind it. Every method is
    proved to act on the content as the plain `Queues.Queue` operation of the same name.

    The signals a FIFO emits are appended to `log`; whoever is connected runs on the new entries. */
module Fifos {
  import opened Wrappers
  import opened Buffers
  import opened Sequences
  import Q = Queues

  /** Dropping the first `n` elements of a window moves its start. */
  lemma WindowDrop<T>(a: seq<T>, begin: nat, used: nat, n: nat)
    requires n <= used && begin + used <= |a|
    ensures a[begin..begin + used][n..] == a[begin + n..begin + used]
    ensures a[begin..begin + used][..n] == a[begin..begin + n]
  {
  }

  lemma WindowJoin<T>(a: seq<T>, begin: nat, mid: nat, length: nat)
    requires begin <= mid && mid + length <= |a|
    ensures a[begin..mid + length] == a[begin..mid] + a[mid..][..length]
  {
  }

  lemma WindowOfPrefix<T>(a: seq<T>, n: nat, begin: nat, stop: nat)
    requires begin <= stop <= n <= |a|
    ensures a[..n][begin..stop] == a[begin..stop]
  {
  }

  lemma WindowInPrefix<T>(a: seq<T>, b: seq<T>, kept: nat, begin: nat, stop: nat)
    requires begin <= stop <= kept <= |a| && kept <= |b| && a[..kept] == b[..kept]
    ensures a[begin..stop] == b[begin..stop]
  {
    forall i | begin <= i < stop
      ensures a[i] == b[i]
    {
      assert a[i] == a[..kept][i] && b[i] == b[..kept][i];
    }
  }

  class Fifo<T(0)> {
    const buffer: Buffer<T>
    var begin: nat
    var used: nat
    var notify: bool
    var eof: bool
    var error: bool
    var log: seq<Q.Signal>

    /** The window lies inside the block, so no unsigned difference in the code can wrap. */
    ghost predicate Valid()
      reads this, buffer
    {
      && buffer.Valid()
      && begin + used <= buffer.used
      && (error ==> used == 0)
    }

    ghost function Content(): seq<T>
      requires Valid()
      reads this, buffer, buffer.ptr
    {
      buffer.ptr[begin..begin + used]
    }

    ghost function View(): (q: Q.Queue<T>)
      requires Valid()
      reads this, buffer, buffer.ptr
      ensures q.WellFormed()
    {
      Q.Queue(Content(), buffer.used, notify, eof, error, log)
    }

    constructor (size: nat, notify: bool := false)
      ensures Valid() && fresh(buffer) && fresh(buffer.ptr) && buffer.ownMem && begin == 0
      ensures View() == Q.Queue([], size, notify, false, false, [])
    {
      buffer := new Buffer<T>(size);
      begin, used := 0, 0;
      this.notify, eof, error := notify, false, false;
      log := [];
    }

    /** `BasicFIFOBuffer(const T*, size)`: a FIFO full of a copy of `data`. */
    constructor FullOf(data: seq<T>, notify: bool := false)
      ensures Valid() && fresh(buffer) && fresh(buffer.ptr) && buffer.ownMem && begin == 0
      ensures View() == Q.Queue(data, |data|, notify, false, false, [])
    {
      buffer := new Buffer<T>.Copy(data);
      begin, used := 0, |data|;
      this.notify, eof, error := notify, false, false;
      log := [];
      new;
      assert buffer.ptr[..|data|] == data;
    }

    predicate IsReadable()
      requires Valid()
      reads this, buffer, buffer.ptr
      ensures IsReadable() == View().IsReadable()
    {
      used != 0 && !error
    }

    predicate IsWritable()
      requires Valid()
      reads this, buffer, buffer.ptr
      ensures IsWritable() == View().IsWritable()
    {
      buffer.used != used && !error && !eof
    }

    function Available(): (n: nat)
      requires Valid()
      reads this, buffer, buffer.ptr
      ensures n == View().Available()
    {
      buffer.used - used
    }

    /** The private `notify`, called with the count before the operation. */
    method Notify(usedBefore: nat)
      modifies this`log
      ensures log == old(log) + Q.Edges(usedBefore, used, buffer.used)
    {
      if usedBefore == 0 && used > 0 {
        log := log + [Q.Readable(true)];
      } else if usedBefore > 0 && used == 0 {
        log := log + [Q.Readable(false)];
      }
      if usedBefore == buffer.used && used < buffer.used {
        log := log + [Q.Writable(true)];
      } else if usedBefore < buffer.used && used == buffer.used {
        log := log + [Q.Writable(false)];
      }
    }

    /** `if (_notify) notify(usedBefore)`, the end of every operation on the content. */
    method Announce(usedBefore: nat)
      requires Valid()
      modifies this`log
      ensures Valid() && View() == old(View()).(log := log)
      ensures log == old(log) + if notify then Q.Edges(usedBefore, used, buffer.used) else []
    {
      if notify {
        Notify(usedBefore);
      }
    }

    /** `memmove(_buffer.begin(), _buffer.begin() + _begin, _used)` and `_begin = 0`. */
    method Compact()
      requires Valid()
      modifies this`begin, buffer.ptr
      ensures Valid() && begin == 0 && View() == old(View())
      ensures buffer.ptr[used..] == old(buffer.ptr[used..])
    {
      ghost var was, rest := Content(), buffer.ptr[used..];
      forall i | 0 <= i < used {
        buffer.ptr[i] := buffer.ptr[begin + i];
      }
      begin := 0;
      forall i | 0 <= i < used
        ensures Content()[i] == was[i]
      {
      }
      assert Content() == was;
      forall i | 0 <= i < |rest|
        ensures buffer.ptr[used..][i] == rest[i]
      {
      }
      assert buffer.ptr[used..] == rest;
    }

    /** `begin()`: the content as seen through the returned pointer starts at index 0. */
    method Begin()
      requires Valid()
      modifies this`begin, buffer.ptr
      ensures Valid() && begin == 0 && View() == old(View())
      ensures buffer.ptr[used..] == old(buffer.ptr[used..])
    {
      if begin != 0 {
        Compact();
      }
    }

    /** `next()`: the index of the first free cell, behind compacted content. */
    method Next() returns (at: nat)
      requires Valid()
      modifies this`begin, buffer.ptr
      ensures Valid() && begin == 0 && View() == old(View())
      ensures at == used && at + Available() == buffer.used
    {
      Begin();
      at := used;
    }

    /** `peek(T*, length)`. */
    method Peek(length: nat) returns (data: seq<T>)
      requires Valid()
      ensures data == Q.Peek(View(), length)
      ensures data == if used == 0 || error then [] else Content()[..if length < used then length else used]
    {
      if length == 0 {
        return [];
      }
      if !IsReadable() {
        return [];
      }
      var n := if length > used then used else length;
      data := buffer.ptr[begin..begin + n];
    }

    /** `peek(Buffer&, length)`: the target is resized to what is copied; length 0 means everything. */
    method PeekInto(target: Buffer<T>, length: nat := 0) returns (r: Result<nat>)
      requires Valid() && target.Valid() && target != buffer && target.ptr != buffer.ptr
      modifies target, target.ptr
      ensures Valid() && target.Valid() && (target.ptr == old(target.ptr) || fresh(target.ptr))
      ensures View() == old(View())
      ensures !View().IsReadable() ==> r == Success(0) && unchanged(target) && unchanged(target.ptr)
      ensures View().IsReadable() && !target.ownMem ==> r == Failure(NotOwner) && unchanged(target) && unchanged(target.ptr)
      ensures View().IsReadable() && target.ownMem ==>
                && r == Success(target.used)
                && target.Content() == Q.Peek(View(), if length == 0 then used else length)
                && target.Content() == Content()[..if 0 < length < used then length else used]
    {
      if !IsReadable() {
        return Success(0);
      }
      var n := if length == 0 || length > used then used else length;
      var resized := target.Resize(n);
      if resized.Failure? {
        return Failure(resized.error);
      }
      forall i | 0 <= i < n {
        target.ptr[i] := buffer.ptr[begin + i];
      }
      assert target.Content() == View().content[..n];
      return Success(n);
    }

    /** The part of `read` that moves the window past `n` elements, `_begin` by `asked`. */
    method Consume(n: nat, asked: nat)
      requires Valid() && n <= used && (n < used ==> asked == n)
      modifies this`begin, this`used
      ensures Valid() && used == old(used) - n
      ensures begin == if used == 0 then 0 else old(begin) + n
      ensures Content() == old(Content())[n..]
    {
      WindowDrop(buffer.ptr[..], begin, used, n);
      used := used - n;
      if used == 0 {
        begin := 0;
      } else {
        begin := begin + asked;
      }
    }

    /** `read(T*, length)`: `_begin` moves by the length asked for, which is the length read as long
        as anything is left. */
    method Read(length: nat) returns (data: seq<T>)
      requires Valid()
      modifies this
      ensures Valid()
      ensures data == Q.Peek(old(View()), length)
      ensures View() == Q.Read(old(View()), length)
      ensures data == if old(used == 0 || error) then [] else old(Content())[..if length < old(used) then length else old(used)]
      ensures Content() == old(Content())[|data|..]
      ensures used > 0 && data != [] ==> |data| == length
      ensures begin == if data == [] then old(begin) else if used == 0 then 0 else old(begin) + |data|
    {
      if length == 0 {
        return [];
      }
      if !IsReadable() {
        return [];
      }
      var usedBefore := used;
      data := Peek(length);
      Consume(|data|, length);
      Announce(usedBefore);
    }

    /** `read(Buffer&, length)`. */
    method ReadInto(target: Buffer<T>, length: nat := 0) returns (r: Result<nat>)
      requires Valid() && target.Valid() && target != buffer && target.ptr != buffer.ptr
      modifies this, target, target.ptr
      ensures Valid() && target.Valid()
      ensures var q, asked := old(View()), if length == 0 then old(used) else length;
              if !q.IsReadable() then r == Success(0) && View() == q
              else if !target.ownMem then r == Failure(NotOwner) && View() == q
              else r == Success(target.used) && target.Content() == Q.Peek(q, asked) && View() == Q.Read(q, asked)
      ensures old(used > 0 && !error) && target.ownMem ==>
                var n := if 0 < length < old(used) then length else old(used);
                target.Content() == old(Content())[..n] && Content() == old(Content())[n..]
    {
      if !IsReadable() {
        return Success(0);
      }
      var usedBefore := used;
      r := PeekInto(target, length);
      if r.Failure? {
        return;
      }
      Consume(r.value, length);
      Announce(usedBefore);
    }

    /** `memcpy(begin() + _used, data, len)` and `_used += len`. */
    method Place(data: seq<T>)
      requires Valid() && begin + used + |data| <= buffer.used && !error
      modifies this`begin, this`used, buffer.ptr
      ensures Valid() && begin == 0 && used == old(used) + |data|
      ensures Content() == old(Content()) + data
    {
      Begin();
      forall i | 0 <= i < |data| {
        buffer.ptr[used + i] := data[i];
      }
      used := used + |data|;
    }

    /** `write(const T*, length)`. */
    method Write(data: seq<T>) returns (len: nat)
      requires Valid()
      modifies this, buffer.ptr
      ensures Valid()
      ensures len == Q.Accepted(old(View()), |data|)
      ensures len == if old(used) == buffer.used || old(error || eof) then 0
                     else if |data| < buffer.used - old(used) then |data| else buffer.used - old(used)
      ensures Content() == old(Content()) + data[..len]
      ensures View() == Q.Write(old(View()), data)
      ensures begin == if data == [] || !old(View().IsWritable()) then old(begin) else 0
    {
      if |data| == 0 {
        return 0;
      }
      if !IsWritable() {
        return 0;
      }
      if buffer.used - (begin + used) < |data| {
        Compact();
      }
      var usedBefore := used;
      var available := buffer.used - used - begin;
      len := if |data| > available then available else |data|;
      Place(data[..len]);
      Announce(usedBefore);
    }

    /** `write(const Buffer&, length)`: length 0 means the whole source. */
    method WriteBuffer(source: Buffer<T>, length: nat := 0) returns (len: nat)
      requires Valid() && source.Valid() && source != buffer && source.ptr != buffer.ptr
      modifies this, buffer.ptr
      ensures Valid()
      ensures var data := source.ptr[..if length == 0 || length > source.used then source.used else length];
              len == Q.Accepted(old(View()), |data|) && View() == Q.Write(old(View()), data)
    {
      var n := if length == 0 || length > source.used then source.used else length;
      ghost var data := source.ptr[..n];
      len := Write(source.ptr[..n]);
      assert source.ptr[..n] == data;
    }

    method Drain(length: nat := 0)
      requires Valid()
      modifies this
      ensures Valid()
      ensures View() == Q.Drain(old(View()), length)
      ensures Content() == if length == 0 || length >= old(used) then [] else old(Content())[length..]
      ensures begin == if used == 0 then 0 else old(begin) + length
    {
      var usedBefore := used;
      if length == 0 || length >= used {
        begin := 0;
        used := 0;
        assert Content() == [];
      } else {
        WindowDrop(buffer.ptr[..], begin, used, length);
        begin := begin + length;
        used := used - length;
        assert Content() == old(Content())[length..];
      }
      Announce(usedBefore);
    }

    /** `copy(const T*, length)`: all or nothing. */
    method Copy(data: seq<T>) returns (r: Result<()>)
      requires Valid()
      modifies this, buffer.ptr
      ensures Valid()
      ensures r == if data == [] then Success(()) else Q.ExtendOutcome(old(View()), |data|)
      ensures r == if data == [] then Success(())
                   else if |data| > buffer.used - old(used) then Failure(CannotExtend)
                   else if old(error || eof) then Failure(NotWritable) else Success(())
      ensures Content() == if r.Success? then old(Content()) + data else old(Content())
      ensures View() == Q.Extend(old(View()), data)
      ensures r.Failure? ==> unchanged(this) && unchanged(buffer.ptr)
      ensures begin == if data == [] || r.Failure? then old(begin) else 0
    {
      if |data| == 0 {
        assert Content() + data == Content();
        return Success(());
      }
      if |data| > Available() {
        return Failure(CannotExtend);
      }
      if !IsWritable() {
        return Failure(NotWritable);
      }
      var usedBefore := used;
      Begin();
      Place(data);
      Announce(usedBefore);
      return Success(());
    }

    /** Where `advance(length)` finds the elements it takes over: behind the content, or behind where
        the content will be if it has to be moved first. */
    ghost function Tail(length: nat): seq<T>
      requires Valid() && length <= buffer.used - used
      reads this, buffer, buffer.ptr
    {
      if buffer.used - (begin + used) < length then buffer.ptr[used..][..length]
      else buffer.ptr[begin + used..][..length]
    }

    /** A caller writes behind the content, through the pointer that `next()` returned. */
    method Land(at: nat, data: seq<T>)
      requires Valid() && begin == 0 && at == used && at + |data| <= buffer.used
      modifies buffer.ptr
      ensures Valid() && View() == old(View())
      ensures Tail(|data|) == data
    {
      forall i | 0 <= i < |data| {
        buffer.ptr[at + i] := data[i];
      }
      assert Content() == old(Content());
    }

    /** Room for `length` elements behind the content, with the elements that will be taken over there. */
    method MakeRoom(length: nat)
      requires Valid() && used + length <= buffer.used
      modifies this`begin, buffer.ptr
      ensures Valid() && begin + used + length <= buffer.used
      ensures Content() == old(Content())
      ensures buffer.ptr[begin + used..][..length] == old(Tail(length))
      ensures old(begin) == 0 ==> begin == 0
    {
      if buffer.used - (begin + used) < length {
        Compact();
      }
    }

    /** The part of `advance` that moves the window. */
    method TakeOver(length: nat)
      requires Valid() && used + length <= buffer.used && !error
      modifies this`begin, this`used, buffer.ptr
      ensures Valid() && used == old(used) + length
      ensures Content() == old(Content()) + old(Tail(length))
      ensures old(begin) == 0 ==> begin == 0
    {
      MakeRoom(length);
      ghost var content, tail := Content(), buffer.ptr[begin + used..][..length];
      WindowJoin(buffer.ptr[..], begin, begin + used, length);
      used := used + length;
      assert Content() == content + tail;
    }

    /** `advance(length)`: the next `length` cells become content. */
    method Advance(length: nat) returns (r: Result<()>)
      requires Valid()
      modifies this, buffer.ptr
      ensures Valid()
      ensures r == Q.ExtendOutcome(old(View()), length)
      ensures r == if length > buffer.used - old(used) then Failure(CannotExtend)
                   else if old(used) == buffer.used || old(error || eof) then Failure(NotWritable) else Success(())
      ensures Content() == if r.Success? then old(Content()) + old(Tail(length)) else old(Content())
      ensures r.Success? ==> View() == Q.Extend(old(View()), old(Tail(length)))
      ensures r.Failure? ==> unchanged(this) && unchanged(buffer.ptr)
      ensures old(begin) == 0 ==> begin == 0
    {
      if length > Available() {
        return Failure(CannotExtend);
      }
      if !IsWritable() {
        return Failure(NotWritable);
      }
      var usedBefore := used;
      TakeOver(length);
      Announce(usedBefore);
      return Success(());
    }

    method SetError(error: bool := true)
      requires Valid()
      modifies this
      ensures Valid()
      ensures View() == Q.SetError(old(View()), error) && begin == old(begin)
      ensures this.error == error && eof == old(eof) && Content() == if error then [] else old(Content())
    {
      if error {
        Fail();
      } else {
        this.error := false;
        if notify && !eof {
          log := log + [Q.Writable(true)];
        }
      }
    }

    /** `setError(true)`. */
    method Fail()
      requires Valid()
      modifies this
      ensures Valid()
      ensures View() == Q.SetError(old(View()), true) && begin == old(begin)
    {
      ghost var signals := log
        + (if IsReadable() && notify then [Q.Readable(false)] else [])
        + (if IsWritable() && notify then [Q.Writable(false)] else []);
      if IsReadable() && notify {
        log := log + [Q.Readable(false)];
      }
      if IsWritable() && notify {
        log := log + [Q.Writable(false)];
      }
      assert log == signals;
      error := true;
      used := 0;
      assert Content() == [];
    }

    method SetEof(eof: bool := true)
      requires Valid()
      modifies this
      ensures Valid()
      ensures View() == Q.SetEof(old(View()), eof) && begin == old(begin)
      ensures this.eof == eof && error == old(error) && Content() == old(Content())
    {
      if notify {
        log := log + [Q.Writable(!eof)];
      }
      this.eof := eof;
    }

    /** `_buffer.resize(newSize, preserveContent)`, as seen by the window. */
    method Reblock(newSize: nat, preserveContent: bool) returns (r: Result<()>)
      requires Valid() && (buffer.ownMem ==> newSize > 0)
      modifies buffer
      ensures r == if buffer.ownMem then Success(()) else Failure(NotOwner)
      ensures r.Failure? ==> unchanged(buffer)
      ensures buffer.ptr == old(buffer.ptr) || fresh(buffer.ptr)
      ensures r.Success? ==> buffer.Valid() && buffer.used == newSize
      ensures r.Success? && preserveContent && begin + used <= newSize ==>
                buffer.ptr[begin..begin + used] == old(Content())
    {
      ghost var was, before := buffer.Content(), Content();
      WindowOfPrefix(buffer.ptr[..], buffer.used, begin, begin + used);
      r := buffer.Resize(newSize, preserveContent);
      if r.Success? && preserveContent && begin + used <= newSize {
        WindowInPrefix(was, buffer.Content(), Min(newSize, |was|), begin, begin + used);
        WindowOfPrefix(buffer.ptr[..], buffer.used, begin, begin + used);
      }
    }

    /** `resize`: `_begin` is left where it was, so the window still lies in the block exactly when
        `_begin` plus what is kept fits the new size. */
    method Resize(newSize: nat, preserveContent: bool := true) returns (r: Result<()>)
      requires Valid()
      requires newSize > 0 || (preserveContent && used > 0) || !buffer.ownMem
      modifies this`used, this`log, buffer
      ensures r == if Q.ResizeOutcome(old(View()), newSize, preserveContent).Failure? then Failure(DataLoss)
                   else if !buffer.ownMem then Failure(NotOwner)
                   else Success(())
      ensures r.Failure? ==> unchanged(this) && unchanged(buffer)
      ensures buffer.ptr == old(buffer.ptr) || fresh(buffer.ptr)
      ensures r.Success? ==>
                buffer.Valid() && buffer.used == newSize && used == if preserveContent then old(used) else 0
      ensures r.Success? ==> (Valid() <==> begin + (if preserveContent then old(used) else 0) <= newSize)
      ensures r.Success? && Valid() ==> View() == Q.Resize(old(View()), newSize, preserveContent)
    {
      if preserveContent && newSize < used {
        return Failure(DataLoss);
      }
      var usedBefore := used;
      r := Reblock(newSize, preserveContent);
      if r.Failure? {
        return;
      }
      Settle(preserveContent, usedBefore);
    }

    /** The end of `resize`, when the window may not lie in the block. */
    method Settle(preserveContent: bool, usedBefore: nat)
      modifies this`used, this`log
      ensures used == if preserveContent then old(used) else 0
      ensures log == old(log) + if notify then Q.Edges(usedBefore, used, buffer.used) else []
    {
      if !preserveContent {
        used := 0;
      }
      if notify {
        Notify(usedBefore);
      }
    }
  }
}
