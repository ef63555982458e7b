/** The growable memory block of epoll_server/buffer.h. */
module Buffers {
  import opened Sequences
  import opened Wrappers

  /** A block of `capacity` elements of which the first `used` are its content. The null pointer of
      an empty block is an array of length 0. */
  class Buffer<T(0)> {
    var ptr: array<T>
    var capacity: nat
    var used: nat
    const ownMem: bool

    ghost predicate Valid()
      reads this
    {
      used <= capacity == ptr.Length
    }

    ghost function Content(): seq<T>
      requires Valid()
      reads this, ptr
    {
      ptr[..used]
    }

    /** `Buffer(length)`: an owned block whose whole capacity counts as content. */
    constructor (length: nat)
      ensures Valid() && ownMem && used == capacity == length && fresh(ptr)
    {
      ptr := new T[length];
      capacity, used := length, length;
      ownMem := true;
    }

    /** `Buffer(const T*, length)`: an owned copy. */
    constructor Copy(data: seq<T>)
      ensures Valid() && ownMem && capacity == |data| && Content() == data && fresh(ptr)
    {
      ptr := new T[|data|](i requires 0 <= i < |data| => data[i]);
      capacity, used := |data|, |data|;
      ownMem := true;
    }

    /** `Buffer(T*, length)`: a view of memory that somebody else owns. */
    constructor View(mem: array<T>)
      ensures Valid() && !ownMem && ptr == mem && capacity == mem.Length && Content() == mem[..]
    {
      ptr := mem;
      capacity, used := mem.Length, mem.Length;
      ownMem := false;
    }

    method Resize(newCapacity: nat, preserveContent: bool := true) returns (r: Result<()>)
      requires Valid()
      requires ownMem ==> newCapacity > 0
      modifies this
      ensures Valid() && (ptr == old(ptr) || fresh(ptr))
      ensures r == if ownMem then Success(()) else Failure(NotOwner)
      ensures r.Failure? ==> unchanged(this)
      ensures r.Success? ==> used == newCapacity
      ensures r.Success? && newCapacity <= old(capacity) ==> ptr == old(ptr) && capacity == old(capacity)
      ensures r.Success? && newCapacity > old(capacity) ==> fresh(ptr) && capacity == newCapacity
      ensures r.Success? && preserveContent ==>
                var kept := Min(newCapacity, old(used));
                Content()[..kept] == old(Content())[..kept]
      ensures unchanged(old(ptr))
    {
      if !ownMem {
        return Failure(NotOwner);
      }
      if newCapacity > capacity {
        var bigger := new T[newCapacity];
        if preserveContent {
          forall i | 0 <= i < used {
            bigger[i] := ptr[i];
          }
        }
        ptr := bigger;
        capacity := newCapacity;
      }
      used := newCapacity;
      return Success(());
    }

    method SetCapacity(newCapacity: nat, preserveContent: bool := true) returns (r: Result<()>)
      requires Valid()
      modifies this
      ensures Valid() && (ptr == old(ptr) || fresh(ptr))
      ensures r == if ownMem then Success(()) else Failure(NotOwner)
      ensures r.Failure? ==> unchanged(this)
      ensures r.Success? ==> capacity == newCapacity && used == Min(old(used), newCapacity)
      ensures newCapacity == old(capacity) ==> unchanged(this)
      ensures r.Success? && preserveContent ==> Content() == old(Content())[..used]
      ensures unchanged(old(ptr))
    {
      if !ownMem {
        return Failure(NotOwner);
      }
      if newCapacity != capacity {
        var bigger := new T[newCapacity];
        if preserveContent {
          var newSz := if used < newCapacity then used else newCapacity;
          forall i | 0 <= i < newSz {
            bigger[i] := ptr[i];
          }
        }
        ptr := bigger;
        capacity := newCapacity;
        if newCapacity < used {
          used := newCapacity;
        }
      }
      return Success(());
    }

    method Assign(data: seq<T>) returns (r: Result<()>)
      requires Valid()
      modifies this, ptr
      ensures Valid() && (ptr == old(ptr) || fresh(ptr))
      ensures r.Success? <==> data == [] || |data| <= old(capacity) || ownMem
      ensures r.Success? ==> Content() == if data == [] then old(Content()) else data
      ensures r.Success? ==> capacity == if |data| > old(capacity) then |data| else old(capacity)
      ensures r.Failure? ==> r.error == NotOwner && unchanged(this) && unchanged(ptr)
    {
      if |data| == 0 {
        return Success(());
      }
      if |data| > capacity {
        r := Resize(|data|, false);
        if r.Failure? {
          return r;
        }
      }
      forall i | 0 <= i < |data| {
        ptr[i] := data[i];
      }
      used := |data|;
      return Success(());
    }

    method Append(data: seq<T>) returns (r: Result<()>)
      requires Valid()
      modifies this, ptr
      ensures Valid() && (ptr == old(ptr) || fresh(ptr))
      ensures r.Success? <==> data == [] || ownMem
      ensures r.Success? ==> Content() == old(Content()) + data
      ensures r.Success? ==> capacity == if used > old(capacity) then used else old(capacity)
      ensures r.Failure? ==> r.error == NotOwner && unchanged(this) && unchanged(ptr)
    {
      if |data| == 0 {
        assert Content() == old(Content()) + data;
        return Success(());
      }
      r := Resize(used + |data|, true);
      if r.Failure? {
        return r;
      }
      assert Content()[..old(used)] == old(Content());
      forall i | 0 <= i < |data| {
        ptr[used - |data| + i] := data[i];
      }
      return Success(());
    }
  }
}
