/** What an iteration of `SocketReactor::run` must deliver: every observer that what the kernel reports, or
    does not report, is due to is called, once and in order, unless an earlier callback prevents it. */
module RoundDelivery {
  import opened Registry
  import opened RegistryAgreement
  import opened RegistryHistory
  import opened Dispatching
  import opened DispatchSafety
  import opened RoundSafety
  import opened Sequences

  // ---------------------------------------------------------------- what is due

  /** The bit of a report that stands for a kind of notification. */
  predicate HasBit(bits: Mask, k: Kind) {
    match k
    case Readable => bits.read
    case Writable => bits.write
    case Error => bits.error
    case _ => false
  }

  ghost predicate Reports(reported: seq<(Socket, Mask)>, s: Socket, k: Kind) {
    exists i :: 0 <= i < |reported| && reported[i].0 == s && HasBit(reported[i].1, k)
  }

  /** Some socket of the poll set is reported readable. */
  ghost predicate Busy(r: Reg, reported: seq<(Socket, Mask)>) {
    exists s :: s in r.polled && Reports(reported, s, Readable)
  }

  /** What the iteration owes to the observers of socket `s`: what is reported of it if it is polled; a
      timeout if nothing at all is readable; and if nobody wants I/O there is nothing but idling. */
  ghost predicate Due(r: Reg, reported: seq<(Socket, Mask)>, s: Socket, k: Kind)
    requires Linked(r)
  {
    match k
    case Readable => HasSocketHandlers(r) && s in r.polled && Reports(reported, s, k)
    case Writable => HasSocketHandlers(r) && s in r.polled && Reports(reported, s, k)
    case Error => HasSocketHandlers(r) && s in r.polled && Reports(reported, s, k)
    case Timeout => HasSocketHandlers(r) && !Busy(r, reported)
    case Idle => !HasSocketHandlers(r)
    case Shutdown => false
  }

  function Rank(k: Kind): int {
    match k
    case Readable => 0
    case Writable => 1
    case Error => 2
    case _ => 3
  }

  /** The order of an iteration: I/O before the broadcast, ascending descriptors, readable before writable
      before error, and the order of registration. */
  ghost predicate Precedes(a: Delivery, b: Delivery) {
    if IsIO(a.kind) != IsIO(b.kind) then IsIO(a.kind)
    else
      || a.socket < b.socket
      || (a.socket == b.socket && Rank(a.kind) < Rank(b.kind))
      || (a.socket == b.socket && a.kind == b.kind && a.cell.id < b.cell.id)
  }

  /** A delivery that is made before those of kind `k` on socket `s`. */
  ghost predicate ComesBefore(d: Delivery, s: Socket, k: Kind) {
    if IsIO(d.kind) != IsIO(k) then IsIO(d.kind)
    else d.socket < s || (d.socket == s && Rank(d.kind) < Rank(k))
  }

  ghost predicate IsOn(d: Delivery, s: Socket, k: Kind) {
    d.socket == s && d.kind == k
  }

  // ---------------------------------------------------------------- stretches of the log

  /** The deliveries between two moments are in order, without repetition. */
  ghost predicate Sorted(log: seq<Delivery>, from: nat) {
    forall m, n :: from <= m < n < |log| ==> Precedes(log[m], log[n])
  }

  ghost predicate AllOnOf(log: seq<Delivery>, from: nat, s: Socket, k: Kind) {
    forall n :: from <= n < |log| ==> IsOn(log[n], s, k)
  }

  /** Callback `n` unregisters observer `c`. */
  ghost predicate Unregisters(log: seq<Delivery>, script: Script, n: nat, c: Cell) {
    && n < |log| && Linked(log[n].at) && Listed(log[n].at, c)
    && !Listed(ExecuteAll(log[n].at, script(n).cmds), c)
  }

  // ---------------------------------------------------------------- one dispatch

  /** A dispatch from which an exception escapes ends with the callback that has thrown it. */
  lemma {:induction false} PostThrew(w: World, s: Socket, k: Kind, cells: seq<Cell>, script: Script)
    requires Linked(w.reg) && Post(w, s, k, cells, script).1
    ensures var log := Post(w, s, k, cells, script).0.log;
            |w.log| < |log| && script(|log| - 1).throws && log[|log| - 1].cell in cells
    decreases |cells|
  {
    var (w1, threw) := Notify(w, s, k, cells[0], script);
    if !threw {
      PostThrew(w1, s, k, cells[1..], script);
    }
  }

  /** And no callback of a dispatch but the last throws. */
  lemma {:induction false} PostThrowsLast(w: World, s: Socket, k: Kind, cells: seq<Cell>, script: Script, n: nat)
    requires Linked(w.reg) && |w.log| <= n < |Post(w, s, k, cells, script).0.log| && script(n).throws
    ensures n == |Post(w, s, k, cells, script).0.log| - 1
    decreases |cells|
  {
    var (w1, threw) := Notify(w, s, k, cells[0], script);
    if !threw {
      PostThrowsLast(w1, s, k, cells[1..], script, n);
    }
  }

  /** Everyone in a list who accepts the notification is called, unless somebody before throws; or is
      not enabled any more. */
  lemma PostReaches(w: World, s: Socket, k: Kind, cells: seq<Cell>, script: Script, i: nat)
    requires Linked(w.reg) && i < |cells| && InOrder(cells) && cells[i].id < |w.reg.cells|
    requires cells[i].key.filter == Only(k) || cells[i].key.filter == AnyKind
    ensures var w' := Post(w, s, k, cells, script).0;
            || (exists n :: |w.log| <= n < |w'.log| && w'.log[n].cell == cells[i])
            || (exists n :: |w.log| <= n < |w'.log| && script(n).throws && w'.log[n].cell.id < cells[i].id)
            || cells[i].id !in w'.reg.enabled
  {
    var w' := Post(w, s, k, cells, script).0;
    var (at, reached) := Reached(w, s, k, cells, script, i);
    assert cells == cells[..i] + cells[i..];
    PostAppend(w, s, k, cells[..i], cells[i..], script);
    if !reached {
      PostThrew(w, s, k, cells[..i], script);
      var n := |w'.log| - 1;
      var j :| 0 <= j < i && cells[..i][j] == w'.log[n].cell;
      assert cells[j].id < cells[i].id;
    } else if cells[i].id in at.reg.enabled {
      CalledIsLogged(w, s, k, cells, script, i);
    } else {
      PostLater(w, s, k, cells[..i], script);
      PostLater(at, s, k, cells[i..], script);
    }
  }

  lemma CalledIsLogged(w: World, s: Socket, k: Kind, cells: seq<Cell>, script: Script, i: nat)
    requires Linked(w.reg) && i < |cells| && IsCalled(w, s, k, cells, script, i)
    ensures var log := Post(w, s, k, cells, script).0.log;
            exists n :: |w.log| <= n < |log| && log[n].cell == cells[i]
  {
    PostCallsInOrder(w, s, k, cells, script);
    var p := Positions(w, s, k, cells, script);
    var x :| 0 <= x < |p| && p[x] == i;
    var log := Post(w, s, k, cells, script).0.log;
    assert log[|w.log| + x] == CallsAt(w, s, k, cells, script, p)[x];
  }

  /** All deliveries of a dispatch are on its socket and of its kind, and in the order of registration. */
  lemma PostSorted(w: World, s: Socket, k: Kind, cells: seq<Cell>, script: Script)
    requires Linked(w.reg) && InOrder(cells)
    ensures var log := Post(w, s, k, cells, script).0.log;
            w.log <= log && AllOnOf(log, |w.log|, s, k) && Sorted(log, |w.log|)
  {
    PostCallsInOrder(w, s, k, cells, script);
    var p := Positions(w, s, k, cells, script);
    var calls, log := CallsAt(w, s, k, cells, script, p), Post(w, s, k, cells, script).0.log;
    forall x | 0 <= x < |p|
      ensures calls[x].cell == cells[p[x]] && IsOn(calls[x], s, k)
    {
    }
    CallsSorted(w.log, calls, s, k, cells, p);
  }

  lemma CallsSorted(log: seq<Delivery>, calls: seq<Delivery>, s: Socket, k: Kind, cells: seq<Cell>, p: seq<nat>)
    requires InOrder(cells) && AscendingBelow(p, |cells|) && |calls| == |p|
    requires forall x :: 0 <= x < |p| ==> calls[x].cell == cells[p[x]] && IsOn(calls[x], s, k)
    ensures AllOnOf(log + calls, |log|, s, k) && Sorted(log + calls, |log|)
  {
    forall m, n | |log| <= m < n < |log + calls|
      ensures Precedes((log + calls)[m], (log + calls)[n])
    {
      var x, y := m - |log|, n - |log|;
      assert (log + calls)[m] == calls[x] && (log + calls)[n] == calls[y];
      assert cells[p[x]].id < cells[p[y]].id;
    }
  }

  lemma DispatchToSorted(w: World, nid: nat, k: Kind, script: Script)
    requires WF(w.reg) && nid < |w.reg.notifiers|
    ensures var log := DispatchTo(w, nid, k, script).log;
            w.log <= log && AllOnOf(log, |w.log|, w.reg.notifiers[nid].socket, k) && Sorted(log, |w.log|)
  {
    assert NotifierOk(w.reg, nid);
    PostSorted(w, w.reg.notifiers[nid].socket, k, w.reg.notifiers[nid].observers, script);
  }

  lemma DispatchSocketSorted(w: World, s: Socket, k: Kind, script: Script)
    requires WF(w.reg)
    ensures var log := DispatchSocket(w, s, k, script).log;
            w.log <= log && AllOnOf(log, |w.log|, s, k) && Sorted(log, |w.log|)
  {
    if s in w.reg.handlers {
      assert w.reg.notifiers[w.reg.handlers[s]].socket == s;
      DispatchToSorted(w, w.reg.handlers[s], k, script);
    }
  }

  /** Two stretches, the first wholly before the second. */
  lemma SortedBoth(a: seq<Delivery>, b: seq<Delivery>, from: nat)
    requires a <= b && from <= |a| && Sorted(a, from) && Sorted(b, |a|)
    requires forall m, n :: from <= m < |a| <= n < |b| ==> Precedes(b[m], b[n])
    ensures Sorted(b, from)
  {
    forall m, n | from <= m < n < |b|
      ensures Precedes(b[m], b[n])
    {
      if n < |a| {
        assert b[m] == a[m] && b[n] == a[n];
      }
    }
  }

  // ---------------------------------------------------------------- the sockets that are ready

  /** The new deliveries report I/O of one of these sockets, with a bit that is set for it. */
  ghost predicate FromReady(log: seq<Delivery>, from: nat, ready: map<Socket, Mask>) {
    forall n :: from <= n < |log| ==> log[n].socket in ready && IsIO(log[n].kind) && HasBit(ready[log[n].socket], log[n].kind)
  }

  ghost predicate OnSocket(log: seq<Delivery>, from: nat, s: Socket, bits: Mask) {
    forall n :: from <= n < |log| ==> log[n].socket == s && IsIO(log[n].kind) && HasBit(bits, log[n].kind)
  }

  /** What one kind of notification adds to those of lower rank on the same socket. */
  lemma AddKind(a: seq<Delivery>, b: seq<Delivery>, from: nat, s: Socket, bits: Mask, k: Kind)
    requires a <= b && from <= |a| && Sorted(a, from) && OnSocket(a, from, s, bits)
    requires Sorted(b, |a|) && AllOnOf(b, |a|, s, k) && IsIO(k) && HasBit(bits, k)
    requires forall n :: from <= n < |a| ==> Rank(a[n].kind) < Rank(k)
    ensures Sorted(b, from) && OnSocket(b, from, s, bits)
    ensures forall n :: from <= n < |b| ==> Rank(b[n].kind) <= Rank(k)
  {
    forall n | from <= n < |a|
      ensures b[n] == a[n]
    {
    }
    SortedBoth(a, b, from);
  }

  /** The dispatch of one bit. */
  function ByBit(w: World, s: Socket, bits: Mask, k: Kind, script: Script): (r: World)
    requires Linked(w.reg)
    ensures Linked(r.reg)
  {
    if HasBit(bits, k) then DispatchSocket(w, s, k, script) else w
  }

  lemma ByBitSorted(w: World, from: nat, s: Socket, bits: Mask, k: Kind, script: Script)
    requires WF(w.reg) && from <= |w.log| && Sorted(w.log, from) && OnSocket(w.log, from, s, bits) && IsIO(k)
    requires forall n :: from <= n < |w.log| ==> Rank(w.log[n].kind) < Rank(k)
    ensures var w' := ByBit(w, s, bits, k, script);
            && WF(w'.reg) && w.log <= w'.log && Sorted(w'.log, from) && OnSocket(w'.log, from, s, bits)
            && forall n :: from <= n < |w'.log| ==> Rank(w'.log[n].kind) <= Rank(k)
  {
    if HasBit(bits, k) {
      DispatchSocketSorted(w, s, k, script);
      AddKind(w.log, DispatchSocket(w, s, k, script).log, from, s, bits, k);
      DispatchSocketKeepsWF(w, s, k, script);
    }
  }

  lemma DispatchSocketKeepsWF(w: World, s: Socket, k: Kind, script: Script)
    requires WF(w.reg)
    ensures WF(DispatchSocket(w, s, k, script).reg)
  {
    if s in w.reg.handlers {
      var n := w.reg.notifiers[w.reg.handlers[s]];
      PostKeepsWF(w, n.socket, k, n.observers, script);
    }
  }

  lemma BitsInOrder(w: World, s: Socket, bits: Mask, script: Script)
    requires Linked(w.reg)
    ensures DispatchBits(w, s, bits, script)
            == ByBit(ByBit(ByBit(w, s, bits, Readable, script), s, bits, Writable, script), s, bits, Error, script)
  {
  }

  lemma BitsSorted(w: World, s: Socket, bits: Mask, script: Script)
    requires WF(w.reg)
    ensures var w' := DispatchBits(w, s, bits, script);
            WF(w'.reg) && w.log <= w'.log && Sorted(w'.log, |w.log|) && OnSocket(w'.log, |w.log|, s, bits)
  {
    var w1 := ByBit(w, s, bits, Readable, script);
    var w2 := ByBit(w1, s, bits, Writable, script);
    ByBitSorted(w, |w.log|, s, bits, Readable, script);
    ByBitSorted(w1, |w.log|, s, bits, Writable, script);
    ByBitSorted(w2, |w.log|, s, bits, Error, script);
    BitsInOrder(w, s, bits, script);
  }

  ghost predicate AscendingIn(order: seq<Socket>, ready: map<Socket, Mask>) {
    && (forall i :: 0 <= i < |order| ==> order[i] in ready)
    && (forall i, j :: 0 <= i < j < |order| ==> order[i] < order[j])
  }

  ghost predicate SocketsFrom(log: seq<Delivery>, from: nat, order: seq<Socket>) {
    forall n :: from <= n < |log| ==> log[n].socket in order
  }

  lemma {:induction false} ReadySorted(w: World, order: seq<Socket>, ready: map<Socket, Mask>, script: Script)
    requires WF(w.reg) && AscendingIn(order, ready)
    ensures var w' := DispatchReady(w, order, ready, script);
            && WF(w'.reg) && w.log <= w'.log
            && Sorted(w'.log, |w.log|) && FromReady(w'.log, |w.log|, ready) && SocketsFrom(w'.log, |w.log|, order)
    decreases |order|
  {
    if order == [] {
    } else {
      var s := order[0];
      var w1 := DispatchBits(w, s, ready[s], script);
      var w' := DispatchReady(w, order, ready, script);
      BitsSorted(w, s, ready[s], script);
      ReadySorted(w1, order[1..], ready, script);
      ReadyJoin(w.log, w1.log, w'.log, order, ready);
    }
  }

  lemma ReadyJoin(log: seq<Delivery>, log1: seq<Delivery>, log': seq<Delivery>, order: seq<Socket>, ready: map<Socket, Mask>)
    requires order != [] && AscendingIn(order, ready) && log <= log1 <= log'
    requires Sorted(log1, |log|) && OnSocket(log1, |log|, order[0], ready[order[0]])
    requires Sorted(log', |log1|) && FromReady(log', |log1|, ready) && SocketsFrom(log', |log1|, order[1..])
    ensures Sorted(log', |log|) && FromReady(log', |log|, ready) && SocketsFrom(log', |log|, order)
  {
    forall n | |log| <= n < |log1|
      ensures log'[n] == log1[n]
    {
    }
    forall n | |log1| <= n < |log'|
      ensures log'[n].socket > order[0] && log'[n].socket in order
    {
      var i :| 0 <= i < |order[1..]| && order[1..][i] == log'[n].socket;
      assert order[i + 1] == log'[n].socket;
    }
    SortedBoth(log1, log', |log|);
  }

  lemma {:induction false} ReadyAppend(w: World, a: seq<Socket>, b: seq<Socket>, ready: map<Socket, Mask>, script: Script)
    requires Linked(w.reg) && (forall i :: 0 <= i < |a| ==> a[i] in ready) && (forall i :: 0 <= i < |b| ==> b[i] in ready)
    ensures DispatchReady(w, a + b, ready, script) == DispatchReady(DispatchReady(w, a, ready, script), b, ready, script)
    decreases |a|
  {
    if a == [] {
      assert a + b == b;
    } else {
      assert (a + b)[0] == a[0] && (a + b)[1..] == a[1..] + b;
      ReadyAppend(DispatchBits(w, a[0], ready[a[0]], script), a[1..], b, ready, script);
    }
  }

  // ---------------------------------------------------------------- broadcasts

  /** The notifiers of a broadcast, by the sockets they are for. */
  ghost predicate ForSockets(r: Reg, delegates: seq<nat>, order: seq<Socket>) {
    && |delegates| == |order|
    && (forall i, j :: 0 <= i < j < |order| ==> order[i] < order[j])
    && (forall i :: 0 <= i < |order| ==> delegates[i] < |r.notifiers| && r.notifiers[delegates[i]].socket == order[i])
  }

  ghost predicate OfKind(log: seq<Delivery>, from: nat, k: Kind) {
    forall n :: from <= n < |log| ==> log[n].kind == k
  }

  lemma DispatchToGrown(w: World, nid: nat, k: Kind, script: Script)
    requires WF(w.reg)
    ensures WF(DispatchTo(w, nid, k, script).reg) && Grown(w.reg, DispatchTo(w, nid, k, script).reg)
  {
    if nid < |w.reg.notifiers| {
      var n := w.reg.notifiers[nid];
      PostKeepsWF(w, n.socket, k, n.observers, script);
      PostGrown(w, n.socket, k, n.observers, script);
    }
  }

  lemma {:induction false} PostGrown(w: World, s: Socket, k: Kind, cells: seq<Cell>, script: Script)
    requires Linked(w.reg)
    ensures Grown(w.reg, Post(w, s, k, cells, script).0.reg)
    decreases |cells|
  {
    if cells == [] {
    } else {
      var (w1, threw) := Notify(w, s, k, cells[0], script);
      ExecuteAllGrown(w.reg, script(|w.log|).cmds);
      if !threw {
        PostGrown(w1, s, k, cells[1..], script);
        GrownTransitive(w.reg, w1.reg, Post(w1, s, k, cells[1..], script).0.reg);
      }
    }
  }

  lemma {:induction false} AllSorted(w: World, delegates: seq<nat>, order: seq<Socket>, k: Kind, script: Script)
    requires WF(w.reg) && ForSockets(w.reg, delegates, order) && !IsIO(k)
    ensures var w' := DispatchAll(w, delegates, k, script);
            && w.log <= w'.log && Sorted(w'.log, |w.log|) && OfKind(w'.log, |w.log|, k) && SocketsFrom(w'.log, |w.log|, order)
    decreases |delegates|
  {
    if delegates == [] {
    } else {
      var w1, w' := DispatchTo(w, delegates[0], k, script), DispatchAll(w, delegates, k, script);
      DispatchToSorted(w, delegates[0], k, script);
      DispatchToGrown(w, delegates[0], k, script);
      AllSorted(w1, delegates[1..], order[1..], k, script);
      AllJoin(w.log, w1.log, w'.log, order, k);
    }
  }

  lemma AllJoin(log: seq<Delivery>, log1: seq<Delivery>, log': seq<Delivery>, order: seq<Socket>, k: Kind)
    requires order != [] && (forall i, j :: 0 <= i < j < |order| ==> order[i] < order[j]) && log <= log1 <= log'
    requires Sorted(log1, |log|) && AllOnOf(log1, |log|, order[0], k)
    requires Sorted(log', |log1|) && OfKind(log', |log1|, k) && SocketsFrom(log', |log1|, order[1..])
    ensures Sorted(log', |log|) && OfKind(log', |log|, k) && SocketsFrom(log', |log|, order)
  {
    forall n | |log| <= n < |log1|
      ensures log'[n] == log1[n]
    {
    }
    forall n | |log1| <= n < |log'|
      ensures log'[n].socket > order[0] && log'[n].socket in order
    {
      var i :| 0 <= i < |order[1..]| && order[1..][i] == log'[n].socket;
      assert order[i + 1] == log'[n].socket;
    }
    SortedBoth(log1, log', |log|);
  }

  lemma {:induction false} AllAppend(w: World, a: seq<nat>, b: seq<nat>, k: Kind, script: Script)
    requires Linked(w.reg)
    ensures DispatchAll(w, a + b, k, script) == DispatchAll(DispatchAll(w, a, k, script), b, k, script)
    decreases |a|
  {
    if a == [] {
      assert a + b == b;
    } else {
      assert (a + b)[0] == a[0] && (a + b)[1..] == a[1..] + b;
      AllAppend(DispatchTo(w, a[0], k, script), a[1..], b, k, script);
    }
  }

  lemma BroadcastSorted(w: World, k: Kind, script: Script)
    requires WF(w.reg) && !IsIO(k)
    ensures ForSockets(w.reg, Delegates(w.reg), Ascending(w.reg.handlers.Keys))
    ensures var w' := Broadcast(w, k, script);
            w.log <= w'.log && Sorted(w'.log, |w.log|) && OfKind(w'.log, |w.log|, k)
  {
    AllSorted(w, Delegates(w.reg), Ascending(w.reg.handlers.Keys), k, script);
  }

  // ---------------------------------------------------------------- reports and bits

  lemma ReportsSays(reported: seq<(Socket, Mask)>, s: Socket)
    ensures Reports(reported, s, Readable) <==> Says(reported, s, (m: Mask) => m.read)
    ensures Reports(reported, s, Writable) <==> Says(reported, s, (m: Mask) => m.write)
    ensures Reports(reported, s, Error) <==> Says(reported, s, (m: Mask) => m.error)
  {
    ReportsOne(reported, s, Readable, (m: Mask) => m.read);
    ReportsOne(reported, s, Writable, (m: Mask) => m.write);
    ReportsOne(reported, s, Error, (m: Mask) => m.error);
  }

  lemma ReportsOne(reported: seq<(Socket, Mask)>, s: Socket, k: Kind, bit: Mask -> bool)
    requires forall m: Mask :: HasBit(m, k) == bit(m)
    ensures Reports(reported, s, k) <==> Says(reported, s, bit)
  {
    if i :| 0 <= i < |reported| && reported[i].0 == s && HasBit(reported[i].1, k) {
      assert bit(reported[i].1);
    }
    if i :| 0 <= i < |reported| && reported[i].0 == s && bit(reported[i].1) {
      assert HasBit(reported[i].1, k);
    }
  }

  /** The poll result has a bit exactly if the socket is polled and the kernel reports it. */
  lemma ReadyBit(reported: seq<(Socket, Mask)>, polled: set<Socket>, s: Socket, k: Kind)
    requires IsIO(k)
    ensures var ready := PollResult(reported, polled);
            s in ready && HasBit(ready[s], k) <==> s in polled && Reports(reported, s, k)
  {
    PollResultMeaning(reported, polled, s);
    ReportsSays(reported, s);
    if s in polled && Reports(reported, s, k) {
      var i :| 0 <= i < |reported| && reported[i].0 == s && HasBit(reported[i].1, k);
      assert reported[i].1 != NO_MASK;
    }
  }

  lemma BusyIsReadable(r: Reg, reported: seq<(Socket, Mask)>)
    ensures Busy(r, reported) <==> AnyReadable(PollResult(reported, r.polled))
  {
    var ready := PollResult(reported, r.polled);
    forall s
      ensures s in ready && ready[s].read <==> s in r.polled && Reports(reported, s, Readable)
    {
      ReadyBit(reported, r.polled, s, Readable);
    }
  }

  // ---------------------------------------------------------------- the whole iteration

  lemma PolledSorted(w: World, reported: seq<(Socket, Mask)>, script: Script)
    requires WF(w.reg) && HasSocketHandlers(w.reg)
    ensures var ready := PollResult(reported, w.reg.polled);
            var w1 := DispatchPolled(w, ready, script);
            && WF(w1.reg) && w.log <= w1.log && Sorted(w1.log, |w.log|)
            && forall n :: |w.log| <= n < |w1.log| ==> IsIO(w1.log[n].kind) && Due(w.reg, reported, w1.log[n].socket, w1.log[n].kind)
  {
    var ready := PollResult(reported, w.reg.polled);
    var w1 := DispatchPolled(w, ready, script);
    ReadySorted(w, Ascending(ready.Keys), ready, script);
    forall n | |w.log| <= n < |w1.log|
      ensures Due(w.reg, reported, w1.log[n].socket, w1.log[n].kind)
    {
      ReadyBit(reported, w.reg.polled, w1.log[n].socket, w1.log[n].kind);
    }
  }

  /** One iteration of `run`, for any registry in agreement, any reports and any callbacks: nothing is
      delivered that is not due, and the deliveries are in order, so that no observer gets the same
      notification twice. */
  lemma RoundInOrder(w: World, reported: seq<(Socket, Mask)>, script: Script)
    requires WF(w.reg)
    ensures var log := Round(w, reported, script).log;
            && w.log <= log
            && (forall n :: |w.log| <= n < |log| ==> Due(w.reg, reported, log[n].socket, log[n].kind))
            && (forall m, n :: |w.log| <= m < n < |log| ==> Precedes(log[m], log[n]))
  {
    if !HasSocketHandlers(w.reg) {
      BroadcastSorted(w, Idle, script);
    } else {
      var w1 := DispatchPolled(w, PollResult(reported, w.reg.polled), script);
      PolledSorted(w, reported, script);
      BusyIsReadable(w.reg, reported);
      if !Busy(w.reg, reported) {
        BroadcastSorted(w1, Timeout, script);
        var log := Broadcast(w1, Timeout, script).log;
        forall n | |w.log| <= n < |w1.log|
          ensures log[n] == w1.log[n]
        {
        }
        SortedBoth(w1.log, log, |w.log|);
      }
    }
  }

  // ---------------------------------------------------------------- where a notification is due

  /** Observer `c` gets the notification. */
  ghost predicate Called(log: seq<Delivery>, from: nat, s: Socket, k: Kind, c: Cell) {
    exists n :: from <= n < |log| && IsOn(log[n], s, k) && log[n].cell == c
  }

  /** A callback that came before, or was made for the same notification, took its registration away. */
  ghost predicate LostBefore(log: seq<Delivery>, from: nat, script: Script, s: Socket, k: Kind, c: Cell) {
    exists n :: from <= n < |log| && (ComesBefore(log[n], s, k) || IsOn(log[n], s, k)) && Unregisters(log, script, n, c)
  }

  /** The callback of an observer registered before it threw on the same notification. */
  ghost predicate ThrownBefore(log: seq<Delivery>, from: nat, script: Script, s: Socket, k: Kind, c: Cell) {
    exists n :: from <= n < |log| && IsOn(log[n], s, k) && script(n).throws && log[n].cell.id < c.id
  }

  /** What held and holds no more has stopped holding at some point. */
  lemma {:induction false} StopsSomewhere(holds: nat -> bool, a: nat, b: nat) returns (m: nat)
    requires a <= b && holds(a) && !holds(b)
    ensures a <= m < b && holds(m) && !holds(m + 1)
    decreases b - a
  {
    if holds(a + 1) {
      m := StopsSomewhere(holds, a + 1, b);
    } else {
      m := a;
    }
  }

  /** When in the iteration the observer is registered, by the number of callbacks made. */
  ghost function Times(base: Reg, script: Script, from: nat, c: Cell): nat -> bool {
    n => Linked(base) && from <= n && Listed(RegAt(base, script, from, n), c)
  }

  lemma TimesAt(base: Reg, script: Script, from: nat, c: Cell, n: nat)
    requires Linked(base) && from <= n
    ensures Times(base, script, from, c)(n) == Listed(RegAt(base, script, from, n), c)
  {
  }

  /** Between two moments of the iteration an observer has lost its registration by some callback. */
  lemma LostSomewhere(base: Reg, from: nat, script: Script, a: nat, b: nat, c: Cell) returns (m: nat)
    requires Linked(base) && from <= a <= b
    requires Listed(RegAt(base, script, from, a), c) && !Listed(RegAt(base, script, from, b), c)
    ensures a <= m < b && Times(base, script, from, c)(m) && !Times(base, script, from, c)(m + 1)
  {
    TimesAt(base, script, from, c, a);
    TimesAt(base, script, from, c, b);
    m := StopsSomewhere(Times(base, script, from, c), a, b);
  }

  lemma LostHere(base: Reg, from: nat, script: Script, log: seq<Delivery>, n: nat, c: Cell)
    requires Linked(base) && from <= n < |log| && SoundFrom(base, from, script, from, log)
    requires Times(base, script, from, c)(n) && !Times(base, script, from, c)(n + 1)
    ensures Unregisters(log, script, n, c)
  {
    assert Sound(base, from, script, n, log[n]);
    RegAtStep(base, script, from, n);
    TimesAt(base, script, from, c, n);
    TimesAt(base, script, from, c, n + 1);
  }

  /** The dispatch of `k` to the notifier `nid` is made in this iteration: it leads from `wa` to `wb`, and
      everything before comes before it. */
  ghost predicate Visit(w: World, w': World, script: Script, nid: nat, s: Socket, k: Kind, wa: World, wb: World) {
    && Reaches(w.reg, |w.log|, script, wa) && Reaches(w.reg, |w.log|, script, wb)
    && w.log <= wa.log <= wb.log <= w'.log
    && wb == DispatchTo(wa, nid, k, script) && nid < |wa.reg.notifiers| && wa.reg.notifiers[nid].socket == s
    && (forall n :: |w.log| <= n < |wa.log| ==> ComesBefore(w'.log[n], s, k))
  }

  /** What happened in a part of the iteration has happened in it. */
  lemma CalledLifts(part: seq<Delivery>, log: seq<Delivery>, a: nat, from: nat, s: Socket, k: Kind, c: Cell)
    requires part <= log && from <= a && Called(part, a, s, k, c)
    ensures Called(log, from, s, k, c)
  {
    var n :| a <= n < |part| && IsOn(part[n], s, k) && part[n].cell == c;
    assert IsOn(log[n], s, k) && log[n].cell == c;
  }

  lemma ThrownLifts(part: seq<Delivery>, log: seq<Delivery>, a: nat, from: nat, script: Script, s: Socket, k: Kind, c: Cell)
    requires part <= log && from <= a && ThrownBefore(part, a, script, s, k, c)
    ensures ThrownBefore(log, from, script, s, k, c)
  {
    var n :| a <= n < |part| && IsOn(part[n], s, k) && script(n).throws && part[n].cell.id < c.id;
    assert IsOn(log[n], s, k) && log[n].cell.id < c.id;
  }

  /** One dispatch: a registered observer that accepts is called, or one before it throws, or it is off
      the list afterwards. */
  lemma DispatchReaches(wa: World, s: Socket, k: Kind, c: Cell, script: Script)
    requires WF(wa.reg) && Listed(wa.reg, c) && (c.key.filter == Only(k) || c.key.filter == AnyKind)
    requires wa.reg.notifiers[c.home].socket == s
    ensures var wb := DispatchTo(wa, c.home, k, script);
            || Called(wb.log, |wa.log|, s, k, c)
            || ThrownBefore(wb.log, |wa.log|, script, s, k, c)
            || c.id !in wb.reg.enabled
  {
    var n, wb := wa.reg.notifiers[c.home], DispatchTo(wa, c.home, k, script);
    assert NotifierOk(wa.reg, c.home);
    ListedIsEnabled(wa.reg, c);
    DispatchToSorted(wa, c.home, k, script);
    var i :| 0 <= i < |n.observers| && n.observers[i] == c;
    PostReaches(wa, n.socket, k, n.observers, script, i);
    if m :| |wa.log| <= m < |wb.log| && wb.log[m].cell == c {
      assert IsOn(wb.log[m], s, k);
    } else if m :| |wa.log| <= m < |wb.log| && script(m).throws && wb.log[m].cell.id < c.id {
      assert IsOn(wb.log[m], s, k);
    }
  }

  lemma LostInVisit(w: World, w': World, script: Script, s: Socket, k: Kind, c: Cell, a: World, b: World)
    requires WF(w.reg) && SoundFrom(w.reg, |w.log|, script, |w.log|, w'.log)
    requires Reaches(w.reg, |w.log|, script, a) && Reaches(w.reg, |w.log|, script, b) && |a.log| <= |b.log| <= |w'.log|
    requires Listed(a.reg, c) && !Listed(b.reg, c)
    requires forall n :: |a.log| <= n < |b.log| ==> ComesBefore(w'.log[n], s, k) || IsOn(w'.log[n], s, k)
    ensures LostBefore(w'.log, |w.log|, script, s, k, c)
  {
    var m := LostSomewhere(w.reg, |w.log|, script, |a.log|, |b.log|, c);
    LostHere(w.reg, |w.log|, script, w'.log, m, c);
  }

  /** Whoever was registered when the iteration began, and to whom a dispatch of it goes that accepts him,
      is called, unless a callback that came before took his registration away, or one before him in that
      dispatch has thrown. */
  lemma VisitReaches(w: World, w': World, script: Script, s: Socket, k: Kind, c: Cell, wa: World, wb: World)
    requires WF(w.reg) && Listed(w.reg, c) && (c.key.filter == Only(k) || c.key.filter == AnyKind)
    requires SoundFrom(w.reg, |w.log|, script, |w.log|, w'.log)
    requires Visit(w, w', script, c.home, s, k, wa, wb) && Listed(wa.reg, c)
    ensures Called(w'.log, |w.log|, s, k, c) || LostBefore(w'.log, |w.log|, script, s, k, c) || ThrownBefore(w'.log, |w.log|, script, s, k, c)
  {
    DispatchReaches(wa, s, k, c, script);
    DispatchToSorted(wa, c.home, k, script);
    if Called(wb.log, |wa.log|, s, k, c) {
      CalledLifts(wb.log, w'.log, |wa.log|, |w.log|, s, k, c);
    } else if ThrownBefore(wb.log, |wa.log|, script, s, k, c) {
      ThrownLifts(wb.log, w'.log, |wa.log|, |w.log|, script, s, k, c);
    } else {
      forall n | |wa.log| <= n < |wb.log|
        ensures IsOn(w'.log[n], s, k)
      {
        assert w'.log[n] == wb.log[n];
      }
      NotEnabledNotListed(wb.reg, c);
      LostInVisit(w, w', script, s, k, c, wa, wb);
    }
  }

  lemma NotEnabledNotListed(r: Reg, c: Cell)
    requires WF(r) && c.id !in r.enabled
    ensures !Listed(r, c)
  {
    if Listed(r, c) {
      ListedIsEnabled(r, c);
    }
  }

  lemma ByBitReaches(base: Reg, from: nat, script: Script, w: World, s: Socket, bits: Mask, k: Kind)
    requires Reaches(base, from, script, w) && s >= 0
    ensures Reaches(base, from, script, ByBit(w, s, bits, k, script)) && w.log <= ByBit(w, s, bits, k, script).log
  {
    if HasBit(bits, k) {
      DispatchSocketProper(base, from, script, w, s, k);
    }
  }

  /** The world in which `k` is dispatched to a ready socket, and the one after. */
  lemma BitVisit(base: Reg, from: nat, script: Script, w: World, s: Socket, bits: Mask, k: Kind) returns (wa: World, wb: World)
    requires Reaches(base, from, script, w) && s >= 0 && IsIO(k) && HasBit(bits, k)
    ensures Reaches(base, from, script, wa) && Reaches(base, from, script, wb) && wb == DispatchSocket(wa, s, k, script)
    ensures w.log <= wa.log <= wb.log <= DispatchBits(w, s, bits, script).log
    ensures forall n :: |w.log| <= n < |wa.log| ==> wa.log[n].socket == s && IsIO(wa.log[n].kind) && Rank(wa.log[n].kind) < Rank(k)
  {
    var w1 := ByBit(w, s, bits, Readable, script);
    var w2 := ByBit(w1, s, bits, Writable, script);
    var w3 := ByBit(w2, s, bits, Error, script);
    ByBitReaches(base, from, script, w, s, bits, Readable);
    ByBitReaches(base, from, script, w1, s, bits, Writable);
    ByBitReaches(base, from, script, w2, s, bits, Error);
    ByBitSorted(w, |w.log|, s, bits, Readable, script);
    ByBitSorted(w1, |w.log|, s, bits, Writable, script);
    BitsInOrder(w, s, bits, script);
    match k {
      case Readable => wa, wb := w, w1;
      case Writable => wa, wb := w1, w2;
      case Error => wa, wb := w2, w3;
    }
  }

  lemma SplitReady(w: World, order: seq<Socket>, i: nat, ready: map<Socket, Mask>, script: Script)
    requires Linked(w.reg) && i < |order| && forall j :: 0 <= j < |order| ==> order[j] in ready
    ensures var w1 := DispatchReady(w, order[..i], ready, script);
            DispatchReady(w, order, ready, script)
            == DispatchReady(DispatchBits(w1, order[i], ready[order[i]], script), order[i + 1..], ready, script)
  {
    assert order == order[..i] + order[i..];
    ReadyAppend(w, order[..i], order[i..], ready, script);
    DispatchReadyStep(DispatchReady(w, order[..i], ready, script), order, i, ready, script);
  }

  /** The dispatch of a bit that is set for the socket at position `i` of the loop. */
  lemma ReadyVisit(base: Reg, from: nat, script: Script, w: World, order: seq<Socket>, i: nat, ready: map<Socket, Mask>, k: Kind)
    returns (wa: World, wb: World)
    requires Reaches(base, from, script, w) && i < |order| && AscendingIn(order, ready)
    requires forall j :: 0 <= j < |order| ==> order[j] >= 0
    requires IsIO(k) && HasBit(ready[order[i]], k)
    ensures Reaches(base, from, script, wa) && Reaches(base, from, script, wb) && wb == DispatchSocket(wa, order[i], k, script)
    ensures w.log <= wa.log <= wb.log <= DispatchReady(w, order, ready, script).log
    ensures forall n :: |w.log| <= n < |wa.log| ==> ComesBefore(wa.log[n], order[i], k)
  {
    var s := order[i];
    var w1 := DispatchReady(w, order[..i], ready, script);
    SplitReady(w, order, i, ready, script);
    DispatchReadyProper(base, from, script, w, order[..i], ready);
    ReadySorted(w, order[..i], ready, script);
    wa, wb := BitVisit(base, from, script, w1, s, ready[s], k);
    BitsSorted(w1, s, ready[s], script);
    ReadySorted(DispatchBits(w1, s, ready[s], script), order[i + 1..], ready, script);
    EarlierSockets(w.log, w1.log, wa.log, order, i, ready, k);
  }

  lemma EarlierSockets(log: seq<Delivery>, log1: seq<Delivery>, logA: seq<Delivery>, order: seq<Socket>, i: nat, ready: map<Socket, Mask>, k: Kind)
    requires i < |order| && AscendingIn(order, ready) && log <= log1 <= logA && IsIO(k)
    requires FromReady(log1, |log|, ready) && SocketsFrom(log1, |log|, order[..i])
    requires forall n :: |log1| <= n < |logA| ==> logA[n].socket == order[i] && IsIO(logA[n].kind) && Rank(logA[n].kind) < Rank(k)
    ensures forall n :: |log| <= n < |logA| ==> ComesBefore(logA[n], order[i], k)
  {
    forall n | |log| <= n < |log1|
      ensures logA[n] == log1[n] && log1[n].socket < order[i]
    {
      var j :| 0 <= j < |order[..i]| && order[..i][j] == log1[n].socket;
      assert order[j] < order[i];
    }
  }

  /** The dispatch of a reported bit, in the loop over the poll result. */
  lemma PolledVisit(w: World, reported: seq<(Socket, Mask)>, script: Script, s: Socket, k: Kind) returns (wa: World, wb: World)
    requires WF(w.reg) && IsIO(k) && HasSocketHandlers(w.reg) && s in w.reg.polled && Reports(reported, s, k)
    ensures Reaches(w.reg, |w.log|, script, wa) && Reaches(w.reg, |w.log|, script, wb)
    ensures wb == DispatchSocket(wa, s, k, script)
    ensures w.log <= wa.log <= wb.log <= DispatchPolled(w, PollResult(reported, w.reg.polled), script).log
    ensures forall n :: |w.log| <= n < |wa.log| ==> ComesBefore(wa.log[n], s, k)
  {
    var ready := PollResult(reported, w.reg.polled);
    var order := Ascending(ready.Keys);
    ReadyBit(reported, w.reg.polled, s, k);
    AscendingCovers(ready.Keys, s);
    var i :| 0 <= i < |order| && order[i] == s;
    forall j | 0 <= j < |order|
      ensures order[j] in ready && order[j] >= 0
    {
      PollResultMeaning(reported, w.reg.polled, order[j]);
    }
    wa, wb := ReadyVisit(w.reg, |w.log|, script, w, order, i, ready, k);
  }

  lemma PolledIsPrefix(w: World, reported: seq<(Socket, Mask)>, script: Script)
    requires WF(w.reg) && HasSocketHandlers(w.reg)
    ensures DispatchPolled(w, PollResult(reported, w.reg.polled), script).log <= Round(w, reported, script).log
  {
    PolledSorted(w, reported, script);
    BroadcastSorted(DispatchPolled(w, PollResult(reported, w.reg.polled), script), Timeout, script);
  }

  lemma SplitAll(w: World, d: seq<nat>, i: nat, k: Kind, script: Script)
    requires Linked(w.reg) && i < |d|
    ensures var wa := DispatchAll(w, d[..i], k, script);
            DispatchAll(w, d, k, script) == DispatchAll(DispatchTo(wa, d[i], k, script), d[i + 1..], k, script)
  {
    assert d == d[..i] + d[i..];
    AllAppend(w, d[..i], d[i..], k, script);
    DispatchAllStep(DispatchAll(w, d[..i], k, script), d, i, k, script);
  }

  lemma {:induction false} AllGrowsLog(w: World, d: seq<nat>, k: Kind, script: Script)
    requires WF(w.reg)
    ensures w.log <= DispatchAll(w, d, k, script).log
    decreases |d|
  {
    if d == [] {
    } else {
      if d[0] < |w.reg.notifiers| {
        DispatchToSorted(w, d[0], k, script);
      }
      DispatchToGrown(w, d[0], k, script);
      AllGrowsLog(DispatchTo(w, d[0], k, script), d[1..], k, script);
    }
  }

  /** The dispatch to the notifier at position `i` of a broadcast. */
  lemma AllVisit(base: Reg, from: nat, script: Script, w: World, d: seq<nat>, order: seq<Socket>, i: nat, k: Kind)
    returns (wa: World, wb: World)
    requires Reaches(base, from, script, w) && !IsIO(k) && i < |d| && ForSockets(w.reg, d, order)
    requires forall j :: 0 <= j < |d| ==> WasHandled(base, d[j])
    ensures Reaches(base, from, script, wa) && Reaches(base, from, script, wb)
    ensures wb == DispatchTo(wa, d[i], k, script) && Grown(w.reg, wa.reg)
    ensures w.log <= wa.log <= wb.log <= DispatchAll(w, d, k, script).log
    ensures forall n :: |w.log| <= n < |wa.log| ==> wa.log[n].kind == k && wa.log[n].socket < order[i]
  {
    SplitAll(w, d, i, k, script);
    wa := DispatchAll(w, d[..i], k, script);
    DispatchAllProper(base, from, script, w, d[..i], k);
    AllSorted(w, d[..i], order[..i], k, script);
    wb := DispatchTo(wa, d[i], k, script);
    DispatchToProper(base, from, script, wa, d[i], k);
    AllGrowsLog(wb, d[i + 1..], k, script);
    forall n | |w.log| <= n < |wa.log|
      ensures wa.log[n].socket < order[i]
    {
      var j :| 0 <= j < |order[..i]| && order[..i][j] == wa.log[n].socket;
      assert order[j] < order[i];
    }
  }

  /** The dispatch of a broadcast to the notifier that handles a socket. */
  lemma BroadcastVisit(base: Reg, from: nat, w: World, script: Script, s: Socket, k: Kind) returns (wa: World, wb: World)
    requires Reaches(base, from, script, w) && !IsIO(k) && s in w.reg.handlers
    ensures Reaches(base, from, script, wa) && Reaches(base, from, script, wb)
    ensures wb == DispatchTo(wa, w.reg.handlers[s], k, script) && Grown(w.reg, wa.reg)
    ensures w.log <= wa.log <= wb.log <= Broadcast(w, k, script).log
    ensures forall n :: |w.log| <= n < |wa.log| ==> wa.log[n].kind == k && wa.log[n].socket < s
  {
    var order, d := Ascending(w.reg.handlers.Keys), Delegates(w.reg);
    AscendingCovers(w.reg.handlers.Keys, s);
    var i :| 0 <= i < |order| && order[i] == s;
    forall j | 0 <= j < |d|
      ensures WasHandled(base, d[j])
    {
      HandledNow(base, from, script, w, order[j]);
    }
    wa, wb := AllVisit(base, from, script, w, d, order, i, k);
  }

  /** One iteration of `run` delivers what is due. For any registry in agreement, any reports and any
      callbacks: every observer that is registered for a socket when the iteration begins and accepts a
      notification that is due to it is called for it, unless an earlier callback has taken its
      registration away, or the callback of an earlier observer of the same socket has thrown on the same
      notification. */
  lemma DueIsDelivered(w: World, reported: seq<(Socket, Mask)>, script: Script, s: Socket, k: Kind, c: Cell)
    requires WF(w.reg) && s in w.reg.handlers && c in ObserversOf(w.reg, s)
    requires c.key.filter == Only(k) || c.key.filter == AnyKind
    requires Due(w.reg, reported, s, k)
    ensures var log := Round(w, reported, script).log;
            Called(log, |w.log|, s, k, c) || LostBefore(log, |w.log|, script, s, k, c) || ThrownBefore(log, |w.log|, script, s, k, c)
  {
    HandledIsListed(w.reg, s, c);
    RoundProper(w, reported, script);
    if IsIO(k) {
      ReportDelivers(w, reported, script, s, k, c);
    } else {
      BroadcastDelivers(w, reported, script, s, k, c);
    }
  }

  lemma ReportDelivers(w: World, reported: seq<(Socket, Mask)>, script: Script, s: Socket, k: Kind, c: Cell)
    requires WF(w.reg) && Listed(w.reg, c) && w.reg.notifiers[c.home].socket == s
    requires c.key.filter == Only(k) || c.key.filter == AnyKind
    requires IsIO(k) && Due(w.reg, reported, s, k)
    requires SoundFrom(w.reg, |w.log|, script, |w.log|, Round(w, reported, script).log)
    ensures var log := Round(w, reported, script).log;
            Called(log, |w.log|, s, k, c) || LostBefore(log, |w.log|, script, s, k, c) || ThrownBefore(log, |w.log|, script, s, k, c)
  {
    var w' := Round(w, reported, script);
    var wa, wb := PolledVisit(w, reported, script, s, k);
    PolledIsPrefix(w, reported, script);
    forall n | |w.log| <= n < |wa.log|
      ensures w'.log[n] == wa.log[n]
    {
    }
    if Listed(wa.reg, c) {
      KeepsSocket(w.reg, |w.log|, script, wa, c);
      assert wa.reg.handlers[s] == c.home;
      VisitReaches(w, w', script, s, k, c, wa, wb);
    } else {
      LostInVisit(w, w', script, s, k, c, w, wa);
    }
  }

  lemma HandledIsListed(r: Reg, s: Socket, c: Cell)
    requires WF(r) && s in r.handlers && c in ObserversOf(r, s)
    ensures Listed(r, c) && c.home == r.handlers[s] && r.notifiers[c.home].socket == s
  {
    var cells := ObserversOf(r, s);
    assert NotifierOk(r, r.handlers[s]);
    var i :| 0 <= i < |cells| && cells[i] == c;
    assert CellOk(r, r.handlers[s], cells[i]);
  }

  /** The moment at which the broadcast of the iteration starts. */
  ghost function BroadcastStart(w: World, reported: seq<(Socket, Mask)>, script: Script): World
    requires Linked(w.reg)
  {
    if HasSocketHandlers(w.reg) then DispatchPolled(w, PollResult(reported, w.reg.polled), script) else w
  }

  lemma BroadcastDelivers(w: World, reported: seq<(Socket, Mask)>, script: Script, s: Socket, k: Kind, c: Cell)
    requires WF(w.reg) && Listed(w.reg, c) && w.reg.notifiers[c.home].socket == s
    requires c.key.filter == Only(k) || c.key.filter == AnyKind
    requires !IsIO(k) && Due(w.reg, reported, s, k)
    requires SoundFrom(w.reg, |w.log|, script, |w.log|, Round(w, reported, script).log)
    ensures var log := Round(w, reported, script).log;
            Called(log, |w.log|, s, k, c) || LostBefore(log, |w.log|, script, s, k, c) || ThrownBefore(log, |w.log|, script, s, k, c)
  {
    var base, from, w1, w' := w.reg, |w.log|, BroadcastStart(w, reported, script), Round(w, reported, script);
    StartReached(w, reported, script, k);
    if Listed(w1.reg, c) {
      KeepsSocket(base, from, script, w1, c);
      var wa, wb := BroadcastVisit(base, from, w1, script, s, k);
      forall n | from <= n < |wa.log|
        ensures w'.log[n] == wa.log[n] && ComesBefore(w'.log[n], s, k)
      {
        if n < |w1.log| {
          assert wa.log[n] == w1.log[n];
        }
      }
      if Listed(wa.reg, c) {
        VisitReaches(w, w', script, s, k, c, wa, wb);
      } else {
        LostInVisit(w, w', script, s, k, c, w, wa);
      }
    } else {
      forall n | from <= n < |w1.log|
        ensures ComesBefore(w'.log[n], s, k)
      {
        assert w'.log[n] == w1.log[n];
      }
      LostInVisit(w, w', script, s, k, c, w, w1);
    }
  }

  lemma StartReached(w: World, reported: seq<(Socket, Mask)>, script: Script, k: Kind)
    requires WF(w.reg) && !IsIO(k) && Due(w.reg, reported, 0, k)
    ensures var w1, w' := BroadcastStart(w, reported, script), Round(w, reported, script);
            && Reaches(w.reg, |w.log|, script, w1) && w.log <= w1.log <= w'.log
            && w' == Broadcast(w1, k, script)
            && forall n :: |w.log| <= n < |w1.log| ==> IsIO(w1.log[n].kind)
  {
    BusyIsReadable(w.reg, reported);
    if HasSocketHandlers(w.reg) {
      DispatchPolledProper(w.reg, |w.log|, script, w, reported);
      PolledSorted(w, reported, script);
    }
    BroadcastSorted(BroadcastStart(w, reported, script), k, script);
  }

  lemma KeepsSocket(base: Reg, from: nat, script: Script, w: World, c: Cell)
    requires Reaches(base, from, script, w) && Listed(base, c) && Listed(w.reg, c)
    ensures w.reg.notifiers[c.home].socket == base.notifiers[c.home].socket
  {
    ExecuteAllGrown(base, History(script, from, |w.log|));
  }
}
