/** Who is called, and who is not, while callbacks change the registrations under a dispatch. */
module DispatchSafety {
  import opened Registry
  import opened RegistryAgreement
  import opened RegistryKeys
  import opened RegistryHistory
  import opened Dispatching
  import opened Sequences

  // ---------------------------------------------------------------- one notification

  lemma NotifyLater(w: World, s: Socket, k: Kind, c: Cell, script: Script)
    requires Linked(w.reg)
    ensures Later(w.reg, Notify(w, s, k, c, script).0.reg)
  {
    if c.id in w.reg.enabled && Accepts(c.key.filter, k) {
      ExecuteAllGrown(w.reg, script(|w.log|).cmds);
    }
  }

  /** The world in which position `i` of the snapshot is reached, unless a callback throws before. */
  ghost function Reached(w: World, s: Socket, k: Kind, snapshot: seq<Cell>, script: Script, i: nat): (r: (World, bool))
    requires Linked(w.reg) && i <= |snapshot|
    ensures Linked(r.0.reg)
  {
    var (w1, threw) := Post(w, s, k, snapshot[..i], script);
    (w1, !threw)
  }

  /** The position is reached, and the observer there is still enabled and of the right kind. */
  ghost predicate IsCalled(w: World, s: Socket, k: Kind, snapshot: seq<Cell>, script: Script, i: nat)
    requires Linked(w.reg) && i < |snapshot|
  {
    var (at, reached) := Reached(w, s, k, snapshot, script, i);
    reached && snapshot[i].id in at.reg.enabled && Accepts(snapshot[i].key.filter, k)
  }

  /** A dispatch over two lists in turn. */
  lemma {:induction false} PostAppend(w: World, s: Socket, k: Kind, a: seq<Cell>, b: seq<Cell>, script: Script)
    requires Linked(w.reg)
    ensures Post(w, s, k, a + b, script)
            == var (w1, threw) := Post(w, s, k, a, script);
               if threw then (w1, true) else Post(w1, s, k, b, script)
    decreases |a|
  {
    if a == [] {
      assert a + b == b;
    } else {
      var (w1, threw) := Notify(w, s, k, a[0], script);
      assert (a + b)[0] == a[0] && (a + b)[1..] == a[1..] + b;
      if !threw {
        PostAppend(w1, s, k, a[1..], b, script);
      }
    }
  }

  lemma PostOne(w: World, s: Socket, k: Kind, c: Cell, script: Script)
    requires Linked(w.reg)
    ensures Post(w, s, k, [c], script) == Notify(w, s, k, c, script)
  {
    assert [c][1..] == [];
  }

  /** One more position. */
  lemma PostStep(w: World, s: Socket, k: Kind, snapshot: seq<Cell>, script: Script, i: nat)
    requires Linked(w.reg) && i < |snapshot|
    requires !Post(w, s, k, snapshot[..i], script).1
    ensures var next := Notify(Post(w, s, k, snapshot[..i], script).0, s, k, snapshot[i], script);
            && Post(w, s, k, snapshot[..i + 1], script) == next
            && (next.1 ==> Post(w, s, k, snapshot, script) == next)
  {
    assert snapshot[..i + 1] == snapshot[..i] + [snapshot[i]];
    PostAppend(w, s, k, snapshot[..i], [snapshot[i]], script);
    PostOne(Post(w, s, k, snapshot[..i], script).0, s, k, snapshot[i], script);
    assert snapshot == snapshot[..i + 1] + snapshot[i + 1..];
    PostAppend(w, s, k, snapshot[..i + 1], snapshot[i + 1..], script);
  }

  /** The positions at which `postNotification` makes a call, in the order of the calls. */
  ghost function Positions(w: World, s: Socket, k: Kind, snapshot: seq<Cell>, script: Script): (p: seq<nat>)
    requires Linked(w.reg)
    decreases |snapshot|
  {
    if snapshot == [] then []
    else
      var i := |snapshot| - 1;
      Positions(w, s, k, snapshot[..i], script)
      + if IsCalled(w, s, k, snapshot, script, i) then [i] else []
  }

  /** The call recorded for position `i`. */
  ghost function CallAt(w: World, s: Socket, k: Kind, snapshot: seq<Cell>, script: Script, i: nat): Delivery
    requires Linked(w.reg) && i < |snapshot|
  {
    Delivery(s, k, snapshot[i], Reached(w, s, k, snapshot, script, i).0.reg)
  }

  /** What is known about a position does not depend on the rest of the snapshot. */
  lemma PrefixCalls(w: World, s: Socket, k: Kind, snapshot: seq<Cell>, script: Script, n: nat, i: nat)
    requires Linked(w.reg) && i < n <= |snapshot|
    ensures IsCalled(w, s, k, snapshot, script, i) <==> IsCalled(w, s, k, snapshot[..n], script, i)
    ensures CallAt(w, s, k, snapshot, script, i) == CallAt(w, s, k, snapshot[..n], script, i)
  {
    assert snapshot[..i] == snapshot[..n][..i];
  }

  lemma PostLast(w: World, s: Socket, k: Kind, snapshot: seq<Cell>, script: Script)
    requires Linked(w.reg) && snapshot != []
    ensures var n := |snapshot| - 1;
            Post(w, s, k, snapshot, script).0.log
            == Post(w, s, k, snapshot[..n], script).0.log
               + if IsCalled(w, s, k, snapshot, script, n) then [CallAt(w, s, k, snapshot, script, n)] else []
  {
    var n := |snapshot| - 1;
    assert snapshot == snapshot[..n] + [snapshot[n]];
    PostAppend(w, s, k, snapshot[..n], [snapshot[n]], script);
    PostOne(Post(w, s, k, snapshot[..n], script).0, s, k, snapshot[n], script);
  }

  ghost predicate AscendingBelow(p: seq<nat>, n: nat) {
    && (forall i, j :: 0 <= i < j < |p| ==> p[i] < p[j])
    && (forall i :: 0 <= i < |p| ==> p[i] < n)
  }

  lemma {:induction false} PositionsAscend(w: World, s: Socket, k: Kind, snapshot: seq<Cell>, script: Script)
    requires Linked(w.reg)
    ensures AscendingBelow(Positions(w, s, k, snapshot, script), |snapshot|)
    decreases |snapshot|
  {
    if snapshot == [] {
    } else {
      var n := |snapshot| - 1;
      PositionsAscend(w, s, k, snapshot[..n], script);
    }
  }

  lemma {:induction false} PositionsAreTheCalled(w: World, s: Socket, k: Kind, snapshot: seq<Cell>, script: Script, i: nat)
    requires Linked(w.reg) && i < |snapshot|
    ensures i in Positions(w, s, k, snapshot, script) <==> IsCalled(w, s, k, snapshot, script, i)
    decreases |snapshot|
  {
    var n := |snapshot| - 1;
    PositionsAscend(w, s, k, snapshot[..n], script);
    assert Positions(w, s, k, snapshot, script)
           == Positions(w, s, k, snapshot[..n], script) + if IsCalled(w, s, k, snapshot, script, n) then [n] else [];
    if i < n {
      PositionsAreTheCalled(w, s, k, snapshot[..n], script, i);
      PrefixCalls(w, s, k, snapshot, script, n, i);
    }
  }

  /** The calls recorded for some positions. */
  ghost function CallsAt(w: World, s: Socket, k: Kind, snapshot: seq<Cell>, script: Script, p: seq<nat>): (calls: seq<Delivery>)
    requires Linked(w.reg) && AscendingBelow(p, |snapshot|)
    ensures |calls| == |p|
    ensures forall i :: 0 <= i < |p| ==> calls[i] == CallAt(w, s, k, snapshot, script, p[i])
  {
    seq(|p|, i requires 0 <= i < |p| => CallAt(w, s, k, snapshot, script, p[i]))
  }

  lemma PrefixCallsAt(w: World, s: Socket, k: Kind, snapshot: seq<Cell>, script: Script, n: nat, p: seq<nat>)
    requires Linked(w.reg) && n <= |snapshot| && AscendingBelow(p, n)
    ensures CallsAt(w, s, k, snapshot, script, p) == CallsAt(w, s, k, snapshot[..n], script, p)
  {
    forall i | 0 <= i < |p|
      ensures CallAt(w, s, k, snapshot, script, p[i]) == CallAt(w, s, k, snapshot[..n], script, p[i])
    {
      PrefixCalls(w, s, k, snapshot, script, n, p[i]);
    }
  }

  lemma ExtendCallsAt(w: World, s: Socket, k: Kind, snapshot: seq<Cell>, script: Script, p: seq<nat>, n: nat)
    requires Linked(w.reg) && n < |snapshot| && AscendingBelow(p, n)
    ensures AscendingBelow(p + [n], |snapshot|)
    ensures CallsAt(w, s, k, snapshot, script, p + [n])
            == CallsAt(w, s, k, snapshot, script, p) + [CallAt(w, s, k, snapshot, script, n)]
  {
  }

  /** The log after a dispatch, from its positions. */
  lemma {:induction false} PostLog(w: World, s: Socket, k: Kind, snapshot: seq<Cell>, script: Script)
    requires Linked(w.reg)
    ensures AscendingBelow(Positions(w, s, k, snapshot, script), |snapshot|)
    ensures Post(w, s, k, snapshot, script).0.log
            == w.log + CallsAt(w, s, k, snapshot, script, Positions(w, s, k, snapshot, script))
    decreases |snapshot|
  {
    PositionsAscend(w, s, k, snapshot, script);
    if snapshot == [] {
      assert w.log + [] == w.log;
    } else {
      var n := |snapshot| - 1;
      var p0 := Positions(w, s, k, snapshot[..n], script);
      PostLog(w, s, k, snapshot[..n], script);
      PostLast(w, s, k, snapshot, script);
      PrefixCallsAt(w, s, k, snapshot, script, n, p0);
      var calls0 := CallsAt(w, s, k, snapshot, script, p0);
      if IsCalled(w, s, k, snapshot, script, n) {
        ExtendCallsAt(w, s, k, snapshot, script, p0, n);
        Regroup(w.log, calls0, [CallAt(w, s, k, snapshot, script, n)]);
      } else {
        assert p0 + [] == p0;
        assert (w.log + calls0) + [] == w.log + calls0;
      }
    }
  }

  /** Snapshot delivery: every observer of the snapshot is called exactly once, in registration order,
      if it is reached while still enabled and accepts the notification; nobody else is called. */
  lemma PostCallsInOrder(w: World, s: Socket, k: Kind, snapshot: seq<Cell>, script: Script)
    requires Linked(w.reg)
    ensures var p := Positions(w, s, k, snapshot, script);
            && AscendingBelow(p, |snapshot|)
            && (forall i :: 0 <= i < |snapshot| ==> (i in p <==> IsCalled(w, s, k, snapshot, script, i)))
            && Post(w, s, k, snapshot, script).0.log == w.log + CallsAt(w, s, k, snapshot, script, p)
  {
    PostLog(w, s, k, snapshot, script);
    forall i | 0 <= i < |snapshot|
      ensures i in Positions(w, s, k, snapshot, script) <==> IsCalled(w, s, k, snapshot, script, i)
    {
      PositionsAreTheCalled(w, s, k, snapshot, script, i);
    }
  }

  lemma {:induction false} PostLater(w: World, s: Socket, k: Kind, snapshot: seq<Cell>, script: Script)
    requires Linked(w.reg)
    ensures Later(w.reg, Post(w, s, k, snapshot, script).0.reg)
    decreases |snapshot|
  {
    if snapshot == [] {
    } else {
      var (w1, threw) := Notify(w, s, k, snapshot[0], script);
      NotifyLater(w, s, k, snapshot[0], script);
      if !threw {
        PostLater(w1, s, k, snapshot[1..], script);
      }
    }
  }

  /** An observer that is disabled at some point of a dispatch is not called from there on. */
  lemma RemovedIsNotCalled(w: World, s: Socket, k: Kind, snapshot: seq<Cell>, script: Script, j: nat, i: nat)
    requires Linked(w.reg) && j <= i < |snapshot|
    requires snapshot[i].id < |w.reg.cells|
    requires snapshot[i].id !in Reached(w, s, k, snapshot, script, j).0.reg.enabled
    ensures !IsCalled(w, s, k, snapshot, script, i)
  {
    PostLater(w, s, k, snapshot[..j], script);
    assert snapshot[..i] == snapshot[..j] + snapshot[j..i];
    PostAppend(w, s, k, snapshot[..j], snapshot[j..i], script);
    var at := Reached(w, s, k, snapshot, script, j).0;
    PostLater(at, s, k, snapshot[j..i], script);
  }

  lemma {:induction false} PostKeepsWF(w: World, s: Socket, k: Kind, snapshot: seq<Cell>, script: Script)
    requires WF(w.reg)
    ensures WF(Post(w, s, k, snapshot, script).0.reg)
    decreases |snapshot|
  {
    if snapshot == [] {
    } else {
      var (w1, threw) := Notify(w, s, k, snapshot[0], script);
      RunKeepsWF(w.reg, script(|w.log|).cmds);
      if !threw {
        PostKeepsWF(w1, s, k, snapshot[1..], script);
      }
    }
  }

  /** Command number `a` of a callback removes the observer `c`, and is not one that throws on the last
      observer of its socket. */
  ghost predicate TakesOut(r: Reg, cmds: seq<Cmd>, a: nat, c: Cell)
    requires Linked(r) && a < |cmds|
  {
    var r1 := ExecuteAll(r, cmds[..a]);
    && cmds[a].Remove? && Registered(r1, cmds[a].socket, cmds[a].key)
    && Found(r1, cmds[a].socket, cmds[a].key) == c
    && !Orphaning(r1, cmds[a])
  }

  lemma TakenOutIsDisabled(r: Reg, cmds: seq<Cmd>, a: nat, c: Cell)
    requires WF(r) && a < |cmds| && TakesOut(r, cmds, a, c)
    ensures c.id !in ExecuteAll(r, cmds).enabled
  {
    RunKeepsWF(r, cmds[..a]);
    RunSplits(r, cmds, a);
    RemovedStaysDisabled(ExecuteAll(r, cmds[..a]), cmds[a], cmds[a + 1..], c);
  }

  lemma RunSplits(r: Reg, cmds: seq<Cmd>, a: nat)
    requires Linked(r) && a < |cmds|
    ensures ExecuteAll(r, cmds) == ExecuteAll(ExecuteAll(r, cmds[..a]), [cmds[a]] + cmds[a + 1..])
  {
    assert cmds == cmds[..a] + ([cmds[a]] + cmds[a + 1..]);
    ExecuteAllAppend(r, cmds[..a], [cmds[a]] + cmds[a + 1..]);
  }

  lemma RemovedStaysDisabled(r: Reg, cmd: Cmd, rest: seq<Cmd>, c: Cell)
    requires WF(r) && cmd.Remove? && Registered(r, cmd.socket, cmd.key)
    requires Found(r, cmd.socket, cmd.key) == c && !Orphaning(r, cmd)
    ensures c.id !in ExecuteAll(r, [cmd] + rest).enabled
  {
    FoundFacts(r, cmd.socket, cmd.key);
    RemoveDisables(r, cmd.socket, cmd.key);
    ExecuteGrown(r, cmd);
    ExecuteLinked(r, cmd);
    ExecuteAllGrown(Execute(r, cmd).0, rest);
    assert ([cmd] + rest)[1..] == rest;
  }

  /** If the callback at position `j` of a dispatch takes out the observer at a later position, that
      observer is not called any more. */
  lemma TakenOutIsNotCalled(w: World, s: Socket, k: Kind, snapshot: seq<Cell>, script: Script, j: nat, i: nat, a: nat)
    requires WF(w.reg) && j < i < |snapshot| && snapshot[i].id < |w.reg.cells|
    requires IsCalled(w, s, k, snapshot, script, j)
    requires var at := Reached(w, s, k, snapshot, script, j).0;
             var cmds := script(|at.log|).cmds;
             a < |cmds| && TakesOut(at.reg, cmds, a, snapshot[i])
    ensures !IsCalled(w, s, k, snapshot, script, i)
  {
    var at := Reached(w, s, k, snapshot, script, j).0;
    PostKeepsWF(w, s, k, snapshot[..j], script);
    TakenOutIsDisabled(at.reg, script(|at.log|).cmds, a, snapshot[i]);
    PostStep(w, s, k, snapshot, script, j);
    RemovedIsNotCalled(w, s, k, snapshot, script, j + 1, i);
  }

  /** Whoever a notifier's dispatch calls was in its list, and so was made, before the dispatch began:
      observers that callbacks add, anywhere, are not called by it. */
  lemma AddedIsNotCalled(w: World, nid: nat, k: Kind, script: Script, n: nat)
    requires WF(w.reg) && nid < |w.reg.notifiers|
    requires |w.log| <= n < |DispatchTo(w, nid, k, script).log|
    ensures var c := DispatchTo(w, nid, k, script).log[n].cell;
            c in w.reg.notifiers[nid].observers && c.id < |w.reg.cells|
  {
    var cells, s := w.reg.notifiers[nid].observers, w.reg.notifiers[nid].socket;
    PostCallsInOrder(w, s, k, cells, script);
    var p := Positions(w, s, k, cells, script);
    var at := p[n - |w.log|];
    assert CallsAt(w, s, k, cells, script, p)[n - |w.log|] == CallAt(w, s, k, cells, script, at);
    assert NotifierOk(w.reg, nid) && CellOk(w.reg, nid, cells[at]);
  }

  // ---------------------------------------------------------------- polling

  /** `hasSocketHandlers`, in terms of the keys alone: some socket with a proper descriptor has an
      observer that wants I/O; one with a negative descriptor counts only while another is polled. */
  lemma HasSocketHandlersIff(r: Reg)
    requires WF(r)
    ensures HasSocketHandlers(r) <==>
            exists s :: s in r.handlers && MaskOf(KeysOf(r, s)) != NO_MASK && (s >= 0 || r.polled != {})
  {
    forall s | s in r.handlers
      ensures MaskOf(KeysOf(r, s)) == ModeOf(r.notifiers[r.handlers[s]])
      ensures s >= 0 && ModeOf(r.notifiers[r.handlers[s]]) != NO_MASK ==> r.polled != {}
    {
      KeysWant(r, s, Readable);
      KeysWant(r, s, Writable);
      KeysWant(r, s, Error);
      assert s >= 0 ==> Watched(r, s);
    }
  }

  ghost predicate Says(reported: seq<(Socket, Mask)>, s: Socket, bit: Mask -> bool) {
    exists i :: 0 <= i < |reported| && reported[i].0 == s && bit(reported[i].1)
  }

  /** `poll` answers with exactly the polled sockets for which the kernel reports something, each with
      the union of what it reports. */
  lemma {:induction false} PollResultMeaning(reported: seq<(Socket, Mask)>, polled: set<Socket>, s: Socket)
    ensures var result := PollResult(reported, polled);
            && (s in result <==> s in polled && Says(reported, s, (m: Mask) => m != NO_MASK))
            && (s in result ==>
                  && (result[s].read <==> Says(reported, s, (m: Mask) => m.read))
                  && (result[s].write <==> Says(reported, s, (m: Mask) => m.write))
                  && (result[s].error <==> Says(reported, s, (m: Mask) => m.error)))
    decreases |reported|
  {
    if reported == [] {
    } else {
      var before := reported[..|reported| - 1];
      PollResultMeaning(before, polled, s);
      SaysLast(reported, s, (m: Mask) => m != NO_MASK);
      SaysLast(reported, s, (m: Mask) => m.read);
      SaysLast(reported, s, (m: Mask) => m.write);
      SaysLast(reported, s, (m: Mask) => m.error);
      if s !in PollResult(before, polled) && s in polled {
        SaysWeaker(before, s, (m: Mask) => m.read);
        SaysWeaker(before, s, (m: Mask) => m.write);
        SaysWeaker(before, s, (m: Mask) => m.error);
      }
    }
  }

  lemma SaysLast(reported: seq<(Socket, Mask)>, s: Socket, bit: Mask -> bool)
    requires reported != []
    ensures var n := |reported| - 1;
            Says(reported, s, bit) <==> Says(reported[..n], s, bit) || (reported[n].0 == s && bit(reported[n].1))
  {
    var n := |reported| - 1;
    if Says(reported[..n], s, bit) {
      var i :| 0 <= i < n && reported[..n][i].0 == s && bit(reported[..n][i].1);
      assert reported[i].0 == s && bit(reported[i].1);
    }
    if Says(reported, s, bit) {
      var i :| 0 <= i < |reported| && reported[i].0 == s && bit(reported[i].1);
      if i < n {
        assert reported[..n][i].0 == s && bit(reported[..n][i].1);
      }
    }
  }

  lemma SaysWeaker(reported: seq<(Socket, Mask)>, s: Socket, bit: Mask -> bool)
    requires !Says(reported, s, (m: Mask) => m != NO_MASK) && !bit(NO_MASK)
    ensures !Says(reported, s, bit)
  {
  }
}
