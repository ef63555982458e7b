/** Dispatch by the reactor, on values: snapshot delivery inside a notifier, delivery to one socket,
    broadcast to all of them, and one iteration of `SocketReactor::run`. Callbacks may add and remove
    any observers of any sockets and may throw. */
module Dispatching {
  import opened Registry

  /** What one callback does: its calls to the reactor, and whether an exception leaves it. */
  datatype Action = Action(cmds: seq<Cmd>, throws: bool)

  /** The adversary: what the n-th callback of a history does. */
  type Script = nat -> Action

  /** One callback: the notification's socket and kind, the observer, and the registry it was made in. */
  datatype Delivery = Delivery(socket: Socket, kind: Kind, cell: Cell, at: Reg)

  datatype World = World(reg: Reg, log: seq<Delivery>)

  /** `notify`: a disabled observer, or one of another kind, is passed over. The flag is set when the
      callback throws. */
  function Notify(w: World, s: Socket, k: Kind, c: Cell, script: Script): (r: (World, bool))
    requires Linked(w.reg)
    ensures Linked(r.0.reg)
  {
    if c.id in w.reg.enabled && Accepts(c.key.filter, k) then
      var action := script(|w.log|);
      (World(ExecuteAll(w.reg, action.cmds), w.log + [Delivery(s, k, c, w.reg)]), action.throws)
    else (w, false)
  }

  /** The loop of `postNotification` over its copy of the observer list. */
  function Post(w: World, s: Socket, k: Kind, snapshot: seq<Cell>, script: Script): (r: (World, bool))
    requires Linked(w.reg)
    ensures Linked(r.0.reg)
    decreases |snapshot|
  {
    if snapshot == [] then (w, false)
    else
      var (w1, threw) := Notify(w, s, k, snapshot[0], script);
      if threw then (w1, true) else Post(w1, s, k, snapshot[1..], script)
  }

  /** `dispatch(NotifierPtr&, ...)`: exceptions end here. */
  function DispatchTo(w: World, nid: nat, k: Kind, script: Script): (r: World)
    requires Linked(w.reg)
    ensures Linked(r.reg)
  {
    if nid < |w.reg.notifiers| then
      var n := w.reg.notifiers[nid];
      Post(w, n.socket, k, n.observers, script).0
    else w
  }

  /** `dispatch(const ServerSocket&, ...)`. */
  function DispatchSocket(w: World, s: Socket, k: Kind, script: Script): (r: World)
    requires Linked(w.reg)
    ensures Linked(r.reg)
  {
    if s in w.reg.handlers then DispatchTo(w, w.reg.handlers[s], k, script) else w
  }

  function DispatchAll(w: World, delegates: seq<nat>, k: Kind, script: Script): (r: World)
    requires Linked(w.reg)
    ensures Linked(r.reg)
    decreases |delegates|
  {
    if delegates == [] then w
    else DispatchAll(DispatchTo(w, delegates[0], k, script), delegates[1..], k, script)
  }

  lemma DispatchAllStep(w: World, delegates: seq<nat>, i: nat, k: Kind, script: Script)
    requires Linked(w.reg) && i < |delegates|
    ensures DispatchAll(w, delegates[i..], k, script)
            == DispatchAll(DispatchTo(w, delegates[i], k, script), delegates[i + 1..], k, script)
  {
    assert delegates[i..][1..] == delegates[i + 1..];
  }

  // ---------------------------------------------------------------- order of a std::map

  ghost predicate Least(x: int, xs: set<int>) {
    x in xs && forall y :: y in xs ==> x <= y
  }

  lemma Member<T>(xs: set<T>) returns (x: T)
    requires xs != {}
    ensures x in xs
  {
    x :| x in xs;
  }

  lemma {:induction false} LeastExists(xs: set<int>)
    requires xs != {}
    ensures exists x :: Least(x, xs)
    decreases |xs|
  {
    var x := Member(xs);
    var rest := xs - {x};
    if rest == {} {
      assert xs == {x} && Least(x, xs);
    } else {
      LeastExists(rest);
      var y :| Least(y, rest);
      var z := if x < y then x else y;
      assert forall v :: v in xs ==> v == x || v in rest;
      assert Least(z, xs);
    }
  }

  /** The keys in the order of iteration. */
  ghost function Ascending(xs: set<int>): (s: seq<int>)
    ensures forall i :: 0 <= i < |s| ==> s[i] in xs
    ensures forall i, j :: 0 <= i < j < |s| ==> s[i] < s[j]
    decreases |xs|
  {
    if xs == {} then []
    else
      LeastExists(xs);
      var x :| Least(x, xs);
      [x] + Ascending(xs - {x})
  }

  lemma {:induction false} AscendingCovers(xs: set<int>, x: int)
    requires x in xs
    ensures exists i :: 0 <= i < |Ascending(xs)| && Ascending(xs)[i] == x
    decreases |xs|
  {
    LeastExists(xs);
    var first :| Least(first, xs);
    AscendingStep(xs, first);
    if x == first {
      assert Ascending(xs)[0] == x;
    } else {
      AscendingCovers(xs - {first}, x);
      var i :| 0 <= i < |Ascending(xs - {first})| && Ascending(xs - {first})[i] == x;
      assert Ascending(xs)[i + 1] == x;
    }
  }

  lemma AscendingStep(xs: set<int>, x: int)
    requires Least(x, xs)
    ensures Ascending(xs) == [x] + Ascending(xs - {x})
  {
  }

  /** The notifiers in handler order. */
  ghost function Delegates(r: Reg): (d: seq<nat>)
    requires Linked(r)
    ensures |d| == |Ascending(r.handlers.Keys)|
    ensures forall i :: 0 <= i < |d| ==>
              Ascending(r.handlers.Keys)[i] in r.handlers && d[i] == r.handlers[Ascending(r.handlers.Keys)[i]]
  {
    var order := Ascending(r.handlers.Keys);
    seq(|order|, i requires 0 <= i < |order| => r.handlers[order[i]])
  }

  /** `dispatch(SocketNotification*)`: all notifiers there are when it starts. */
  ghost function Broadcast(w: World, k: Kind, script: Script): (r: World)
    requires Linked(w.reg)
    ensures Linked(r.reg)
  {
    DispatchAll(w, Delegates(w.reg), k, script)
  }

  // ---------------------------------------------------------------- poll and run

  function Join(a: Mask, b: Mask): Mask {
    Mask(a.read || b.read, a.write || b.write, a.error || b.error)
  }

  /** `result[socket] |= ...` for one reported event. */
  function Report(result: map<Socket, Mask>, polled: set<Socket>, s: Socket, bits: Mask): map<Socket, Mask> {
    if s in polled && bits != NO_MASK then
      result[s := Join(if s in result then result[s] else NO_MASK, bits)]
    else result
  }

  /** The map `PollSet::poll` builds from what the kernel reports. */
  function PollResult(reported: seq<(Socket, Mask)>, polled: set<Socket>): map<Socket, Mask>
    decreases |reported|
  {
    if reported == [] then map[]
    else
      var last := reported[|reported| - 1];
      Report(PollResult(reported[..|reported| - 1], polled), polled, last.0, last.1)
  }

  ghost predicate HasSocketHandlers(r: Reg)
    requires Linked(r)
  {
    r.polled != {} && exists s :: s in r.handlers && ModeOf(r.notifiers[r.handlers[s]]) != NO_MASK
  }

  function DispatchBits(w: World, s: Socket, bits: Mask, script: Script): (r: World)
    requires Linked(w.reg)
    ensures Linked(r.reg)
  {
    var w1 := if bits.read then DispatchSocket(w, s, Readable, script) else w;
    var w2 := if bits.write then DispatchSocket(w1, s, Writable, script) else w1;
    if bits.error then DispatchSocket(w2, s, Error, script) else w2
  }

  function DispatchReady(w: World, order: seq<Socket>, ready: map<Socket, Mask>, script: Script): (r: World)
    requires Linked(w.reg)
    requires forall i :: 0 <= i < |order| ==> order[i] in ready
    ensures Linked(r.reg)
    decreases |order|
  {
    if order == [] then w
    else DispatchReady(DispatchBits(w, order[0], ready[order[0]], script), order[1..], ready, script)
  }

  /** Some socket of the poll result is readable. */
  ghost predicate AnyReadable(ready: map<Socket, Mask>) {
    exists s :: s in ready && ready[s].read
  }

  /** The loop over the result of `poll`, in the order of its map. */
  ghost function DispatchPolled(w: World, ready: map<Socket, Mask>, script: Script): (r: World)
    requires Linked(w.reg)
    ensures Linked(r.reg)
  {
    DispatchReady(w, Ascending(ready.Keys), ready, script)
  }

  lemma DispatchReadyStep(w: World, order: seq<Socket>, i: nat, ready: map<Socket, Mask>, script: Script)
    requires Linked(w.reg) && i < |order|
    requires forall i :: 0 <= i < |order| ==> order[i] in ready
    ensures DispatchReady(w, order[i..], ready, script)
            == DispatchReady(DispatchBits(w, order[i], ready[order[i]], script), order[i + 1..], ready, script)
  {
    assert order[i..][1..] == order[i + 1..];
  }

  /** An iteration that polls. */
  ghost function BusyRound(w: World, reported: seq<(Socket, Mask)>, script: Script): (r: World)
    requires Linked(w.reg)
    ensures Linked(r.reg)
  {
    var ready := PollResult(reported, w.reg.polled);
    var w1 := DispatchPolled(w, ready, script);
    if AnyReadable(ready) then w1 else Broadcast(w1, Timeout, script)
  }

  /** One iteration of `run`, for what `epoll_wait` reports if it is asked. */
  ghost function Round(w: World, reported: seq<(Socket, Mask)>, script: Script): (r: World)
    requires Linked(w.reg)
    ensures Linked(r.reg)
  {
    if HasSocketHandlers(w.reg) then BusyRound(w, reported, script) else Broadcast(w, Idle, script)
  }
}
