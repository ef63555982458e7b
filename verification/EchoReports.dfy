/** The echo server answers: in every iteration of the event loop a connection gets the events that the
    kernel reports for it, and no others. */
module EchoReports {
  import opened Registry
  import opened RegistryAgreement
  import opened RegistryKeys
  import opened RegistryHistory
  import opened Dispatching
  import opened DispatchSafety
  import opened RoundSafety
  import opened RoundDelivery
  import opened Echo
  import opened EchoRegistrations
  import opened EchoRounds
  import opened EchoShutdown
  import opened Sequences

  // ---------------------------------------------------------------- the list of a connection

  /** The observers on the socket of a connection: at most one for each key, and which keys there are. */
  lemma HandlerList(base: Reg, v: Server, s: Socket)
    requires Sane(base, v) && s in v.conns
    ensures s in v.ids && s in v.reg.handlers && s in v.reg.polled && s > 0
    ensures var o, cells := v.ids[s], ObserversOf(v.reg, s);
            && DistinctKeys(cells)
            && (forall j :: 0 <= j < |cells| ==> cells[j].key == ReadKey(o) || cells[j].key == WriteKey(o) || cells[j].key == ShutdownKey(o))
            && (forall j :: 0 <= j < |cells| ==> cells[j].id in v.reg.enabled)
            && (exists j :: 0 <= j < |cells| && cells[j].key == ReadKey(o))
            && (v.conns[s].fifoOut.content != [] ==> exists j :: 0 <= j < |cells| && cells[j].key == WriteKey(o))
  {
    assert ConnShown(base, v, s);
    var i := HandlersObservers(base, v, s);
    var o, cells := v.ids[s], ObserversOf(v.reg, s);
    assert NotifierOk(v.reg, v.reg.handlers[s]);
    forall j | 0 <= j < |cells|
      ensures cells[j].id in v.reg.enabled
    {
      assert CellOk(v.reg, v.reg.handlers[s], cells[j]);
    }
    assert ReadKey(o) in KeysOf(v.reg, s);
    if v.conns[s].fifoOut.content != [] {
      assert WriteKey(o) in KeysOf(v.reg, s);
    }
  }

  /** While a connection is there, somebody wants I/O. */
  lemma SomebodyWants(base: Reg, v: Server, s: Socket)
    requires Sane(base, v) && s in v.conns
    ensures HasSocketHandlers(v.reg)
  {
    assert ConnShown(base, v, s);
    var key := ReadKey(v.ids[s]);
    assert key in KeysOf(v.reg, s) && key.filter == Only(Readable);
    MaskByFilters(KeysOf(v.reg, s));
    HandlerList(base, v, s);
    HasSocketHandlersIff(v.reg);
  }

  lemma OneHears(cells: seq<Cell>, i: nat, o: nat, k: Kind)
    requires i < |cells| && DistinctKeys(cells) && Accepts(cells[i].key.filter, k)
    requires k == Readable || k == Writable
    requires forall j :: 0 <= j < |cells| ==> cells[j].key == ReadKey(o) || cells[j].key == WriteKey(o) || cells[j].key == ShutdownKey(o)
    ensures Deaf(cells[..i], k) && Deaf(cells[i + 1..], k)
  {
    assert forall j :: 0 <= j < |cells| && j != i ==> cells[j].key != cells[i].key;
  }

  /** A dispatch to the socket of a connection whose handler has the observer for it makes one call. */
  lemma HandlerIsCalled(base: Reg, v: Server, w: World, s: Socket, k: Kind, script: Script) returns (d: Delivery)
    requires Sane(base, v) && w.reg == v.reg && s in v.conns
    requires k == Readable || (k == Writable && v.conns[s].fifoOut.content != [])
    ensures IsOn(d, s, k) && DispatchSocket(w, s, k, script).log == w.log + [d]
  {
    HandlerList(base, v, s);
    var o, cells := v.ids[s], ObserversOf(v.reg, s);
    var i :| 0 <= i < |cells| && cells[i].key == (if k == Readable then ReadKey(o) else WriteKey(o));
    OneHears(cells, i, o, k);
    assert v.reg.notifiers[v.reg.handlers[s]].socket == s;
    PostToOne(w, s, k, cells, i, script);
    d := Delivery(s, k, cells[i], w.reg);
  }

  // ---------------------------------------------------------------- from delivery to delivery

  /** An accepted connection is none of those there are. */
  lemma {:induction false} AcceptsElsewhere(v: Server, accepted: seq<(Socket, nat)>, s: Socket)
    requires Linked(v.reg) && EnabledRun(v, Acceptances(accepted)) && s in v.conns && v.ids.Keys == v.conns.Keys
    ensures var v1 := ServerRun(v, Acceptances(accepted));
            s in v1.conns && v1.conns[s] == v.conns[s]
    decreases |accepted|
  {
    if accepted == [] {
    } else {
      var es := Acceptances(accepted);
      assert es[0] == Accept(accepted[0].0, accepted[0].1) && es[1..] == Acceptances(accepted[1..]);
      NextElsewhere(v, es[0]);
      AcceptsElsewhere(Next(v, es[0]), accepted[1..], s);
    }
  }

  /** What one delivery leaves of a connection that had something to send: it still has, unless the
      delivery was for reading and brought no data, or was not for reading. */
  ghost predicate StillThere(v: Server, v1: Server, s: Socket)
    requires s in v.conns
  {
    s in v1.conns && (v.conns[s].fifoOut.content != [] ==> v1.conns[s].fifoOut.content != [])
  }

  lemma StepLeaves(base: Reg, v: Server, d: Delivery, reply: Reply, action: Action, s: Socket)
    requires Sane(base, v) && Answerable(v, d, reply) && Serves(v, d, reply, action) && WellServed(base, v, d)
    requires s in v.conns && (d.socket == s ==> d.kind == Readable)
    ensures StillThere(v, AfterEvents(v, EventsOf(v, d, reply)), s) || (d.socket == s && !reply.recv.Received?)
  {
    ServeStep(base, v, d, reply, action);
    if d.socket in v.conns {
      var e := Callback(d.socket, EventOf(d.cell.key, reply));
      OneEvent(v, e);
      NextElsewhere(v, e);
      if d.socket == s && reply.recv.Received? {
        assert ConnShown(base, v, s);
        ReceivedStays(v.conns[s], reply.recv.data);
      }
    } else {
      AcceptsElsewhere(v, reply.accepted, s);
    }
  }

  lemma ReceivedStays(c: Conn, data: seq<Byte>)
    requires ConnOk(c) && 0 < |data| <= c.fifoIn.Available()
    ensures c.fifoOut.content != [] ==> OnReceived(c, data).fifoOut.content != []
  {
  }

  /** A read on `s` that brought no data, among the deliveries from number `k` up to `n`. */
  ghost predicate EndedBetween(log: seq<Delivery>, k: nat, n: nat, plan: Plan, s: Socket) {
    exists m :: k <= m < n && m < |log| && IsOn(log[m], s, Readable) && !plan(m).recv.Received?
  }

  /** The server when delivery `n` is made. */
  lemma {:induction false} ServerThen(base: Reg, r0: Reg, from: nat, v: Server, log: seq<Delivery>, k: nat, n: nat, plan: Plan, script: Script, s: Socket)
    returns (v1: Server)
    requires Sane(base, v) && Linked(r0) && from <= k <= n <= |log| && v.reg == RegAt(r0, script, from, k)
    requires SoundFrom(r0, from, script, k, log) && Played(v, log, k, plan, script)
    requires s in v.conns && forall m :: k <= m < n && log[m].socket == s ==> log[m].kind == Readable
    ensures Sane(base, v1) && v1.reg == RegAt(r0, script, from, n)
    ensures StillThere(v, v1, s) || EndedBetween(log, k, n, plan, s)
    decreases n - k
  {
    if k == n {
      v1 := v;
    } else {
      assert Sound(r0, from, script, k, log[k]);
      DeliveryIsServed(base, v, log[k]);
      PlayedNext(v, log, k, plan, script);
      var v2 := AfterEvents(v, EventsOf(v, log[k], plan(k)));
      ServeStep(base, v, log[k], plan(k), script(k));
      RegAtStep(r0, script, from, k);
      StepLeaves(base, v, log[k], plan(k), script(k), s);
      if StillThere(v, v2, s) {
        v1 := ServerThen(base, r0, from, v2, log, k + 1, n, plan, script, s);
      } else {
        assert IsOn(log[k], s, Readable);
        v1 := ServerAfter(base, r0, from, v2, log, k + 1, n, plan, script);
      }
    }
  }

  lemma {:induction false} ServerAfter(base: Reg, r0: Reg, from: nat, v: Server, log: seq<Delivery>, k: nat, n: nat, plan: Plan, script: Script)
    returns (v1: Server)
    requires Sane(base, v) && Linked(r0) && from <= k <= n <= |log| && v.reg == RegAt(r0, script, from, k)
    requires SoundFrom(r0, from, script, k, log) && Played(v, log, k, plan, script)
    ensures Sane(base, v1) && v1.reg == RegAt(r0, script, from, n)
    decreases n - k
  {
    if k == n {
      v1 := v;
    } else {
      PlayedNext(v, log, k, plan, script);
      ServeStep(base, v, log[k], plan(k), script(k));
      RegAtStep(r0, script, from, k);
      v1 := ServerAfter(base, r0, from, AfterEvents(v, EventsOf(v, log[k], plan(k))), log, k + 1, n, plan, script);
    }
  }

  // ---------------------------------------------------------------- deliveries and events

  /** Every delivery on the socket of a connection is one of the events of the round. */
  lemma {:induction false} DeliveryIsEvent(base: Reg, v: Server, log: seq<Delivery>, k: nat, n: nat, plan: Plan, s: Socket)
    requires Linked(v.reg) && Linked(base) && k <= n < |log| && AllServed(base, v, log, k, plan)
    requires log[n].socket == s && s !in base.handlers
    ensures Callback(s, EventOf(log[n].cell.key, plan(n))) in EventsFrom(v, log, k, plan)
    ensures log[n].kind == Readable ==> EventOf(log[n].cell.key, plan(n)) == SocketReadable(plan(n).recv)
    ensures log[n].kind == Writable ==> EventOf(log[n].cell.key, plan(n)) == SocketWritable(plan(n).send)
    decreases n - k
  {
    var es := EventsOf(v, log[k], plan(k));
    if k == n {
      assert es == [Callback(s, EventOf(log[n].cell.key, plan(n)))];
    } else {
      DeliveryIsEvent(base, AfterEvents(v, es), log, k + 1, n, plan, s);
    }
  }

  ghost predicate OnlyDue(r: Reg, reported: seq<(Socket, Mask)>, log: seq<Delivery>, k: nat)
    requires Linked(r)
  {
    forall n :: k <= n < |log| ==> Due(r, reported, log[n].socket, log[n].kind)
  }

  lemma {:induction false} AcceptancesAccept(accepted: seq<(Socket, nat)>, e: ServerEvent)
    requires e in Acceptances(accepted)
    ensures e.Accept?
  {
    if e != Acceptances(accepted)[0] {
      assert e in Acceptances(accepted)[1..];
      assert Acceptances(accepted)[1..] == Acceptances(accepted[1..]);
      AcceptancesAccept(accepted[1..], e);
    }
  }

  /** And every event of a connection comes from a report. */
  lemma {:induction false} EventIsReported(base: Reg, r: Reg, reported: seq<(Socket, Mask)>, v: Server, log: seq<Delivery>, k: nat, plan: Plan, e: ServerEvent)
    requires Linked(v.reg) && Linked(base) && Linked(r) && k <= |log| && AllServed(base, v, log, k, plan) && OnlyDue(r, reported, log, k)
    requires e in EventsFrom(v, log, k, plan) && e.Callback?
    ensures e.event.SocketReadable? ==> Reports(reported, e.socket, Readable)
    ensures e.event.SocketWritable? ==> Reports(reported, e.socket, Writable)
    ensures !e.event.SocketShutdown?
    decreases |log| - k
  {
    var es := EventsOf(v, log[k], plan(k));
    if e in es {
      if log[k].socket !in v.conns {
        AcceptancesAccept(plan(k).accepted, e);
      }
      assert Due(r, reported, log[k].socket, log[k].kind);
    } else {
      EventIsReported(base, r, reported, AfterEvents(v, es), log, k + 1, plan, e);
    }
  }

  // ---------------------------------------------------------------- one iteration

  /** The dispatch of a report to the socket of a connection, from the world `wa` in which it is made. */
  lemma VisitHeard(base: Reg, v: Server, from: nat, log: seq<Delivery>, wa: World, plan: Plan, script: Script, s: Socket, k: Kind)
    requires Sane(base, v) && s in v.conns && Reaches(v.reg, from, script, wa) && from <= |log|
    requires SoundFrom(v.reg, from, script, from, log) && Played(v, log, from, plan, script)
    requires DispatchSocket(wa, s, k, script).log <= log && wa.log <= log
    requires forall m :: from <= m < |wa.log| ==> ComesBefore(log[m], s, k)
    requires k == Readable || (k == Writable && v.conns[s].fifoOut.content != [])
    ensures || (|wa.log| < |log| && IsOn(log[|wa.log|], s, k))
            || (k == Writable && EndedBetween(log, from, |log|, plan, s))
  {
    OnlyReadsBefore(log, from, |wa.log|, plan, s, k);
    var v1 := ServerThen(base, v.reg, from, v, log, from, |wa.log|, plan, script, s);
    if StillThere(v, v1, s) {
      var d := HandlerIsCalled(base, v1, wa, s, k, script);
      NextInLog(wa.log, d, log);
    }
  }

  lemma NextInLog(part: seq<Delivery>, d: Delivery, log: seq<Delivery>)
    requires part + [d] <= log
    ensures |part| < |log| && log[|part|] == d
  {
    assert (part + [d])[|part|] == d;
  }

  /** What can come before the dispatch of a report on the same socket: nothing before a read, and only a
      read before a write. */
  lemma OnlyReadsBefore(log: seq<Delivery>, from: nat, n: nat, plan: Plan, s: Socket, k: Kind)
    requires from <= n <= |log| && (k == Readable || k == Writable)
    requires forall m :: from <= m < n ==> ComesBefore(log[m], s, k)
    ensures forall m :: from <= m < n && log[m].socket == s ==> log[m].kind == Readable && k == Writable
    ensures EndedBetween(log, from, n, plan, s) ==> k == Writable && EndedBetween(log, from, |log|, plan, s)
  {
    forall m | from <= m < n && log[m].socket == s
      ensures log[m].kind == Readable && k == Writable
    {
      assert ComesBefore(log[m], s, k);
    }
    if EndedBetween(log, from, n, plan, s) {
      var m :| from <= m < n && m < |log| && IsOn(log[m], s, Readable) && !plan(m).recv.Received?;
      assert log[m].socket == s;
    }
  }

  /** The notification of a report reaches the handler, if it still has the observer for it. */
  lemma ReportReaches(base: Reg, v: Server, w: World, reported: seq<(Socket, Mask)>, plan: Plan, script: Script, s: Socket, k: Kind)
    requires Sane(base, v) && w.reg == v.reg && RoundPlayed(v, w, reported, plan, script) && s in v.conns
    requires Reports(reported, s, k) && (k == Readable || (k == Writable && v.conns[s].fifoOut.content != []))
    ensures var log := Round(w, reported, script).log;
            || (exists n :: |w.log| <= n < |log| && IsOn(log[n], s, k))
            || (k == Writable && EndedBetween(log, |w.log|, |log|, plan, s))
  {
    SomebodyWants(base, v, s);
    HandlerList(base, v, s);
    RoundProper(w, reported, script);
    var log := Round(w, reported, script).log;
    var wa, wb := PolledVisit(w, reported, script, s, k);
    PolledIsPrefix(w, reported, script);
    PrefixBefore(wa.log, log, |w.log|, s, k);
    VisitHeard(base, v, |w.log|, log, wa, plan, script, s, k);
  }

  lemma PrefixBefore(part: seq<Delivery>, log: seq<Delivery>, from: nat, s: Socket, k: Kind)
    requires part <= log && forall m :: from <= m < |part| ==> ComesBefore(part[m], s, k)
    ensures forall m :: from <= m < |part| ==> ComesBefore(log[m], s, k)
  {
  }

  /** Every report becomes an event of its connection. A connection that is reported readable gets its
      read; one that is reported writable and has something to send gets its write, unless the read before
      it has found the peer gone; and there is no event of a connection that was not reported. */
  lemma ReportsBecomeEvents(base: Reg, v: Server, w: World, reported: seq<(Socket, Mask)>, plan: Plan, script: Script, s: Socket)
    requires Sane(base, v) && w.reg == v.reg && RoundPlayed(v, w, reported, plan, script) && s in v.conns
    ensures var es := RoundEvents(v, w, reported, plan, script);
            && (Reports(reported, s, Readable) ==> exists r :: Callback(s, SocketReadable(r)) in es)
            && (Reports(reported, s, Writable) && v.conns[s].fifoOut.content != [] ==>
                  || (exists x :: Callback(s, SocketWritable(x)) in es)
                  || (exists r: Recv :: !r.Received? && Callback(s, SocketReadable(r)) in es))
            && (forall e :: e in es && e.Callback? ==>
                  && !e.event.SocketShutdown?
                  && (e.event.SocketReadable? ==> Reports(reported, e.socket, Readable))
                  && (e.event.SocketWritable? ==> Reports(reported, e.socket, Writable)))
  {
    RoundIsEvents(base, v, w, reported, plan, script);
    RoundInOrder(w, reported, script);
    var log, es := Round(w, reported, script).log, RoundEvents(v, w, reported, plan, script);
    assert ConnShown(base, v, s);
    if Reports(reported, s, Readable) {
      ReportReaches(base, v, w, reported, plan, script, s, Readable);
      var n :| |w.log| <= n < |log| && IsOn(log[n], s, Readable);
      DeliveryIsEvent(base, v, log, |w.log|, n, plan, s);
    }
    if Reports(reported, s, Writable) && v.conns[s].fifoOut.content != [] {
      ReportReaches(base, v, w, reported, plan, script, s, Writable);
      if n :| |w.log| <= n < |log| && IsOn(log[n], s, Writable) {
        DeliveryIsEvent(base, v, log, |w.log|, n, plan, s);
      } else {
        var m :| |w.log| <= m < |log| && IsOn(log[m], s, Readable) && !plan(m).recv.Received?;
        DeliveryIsEvent(base, v, log, |w.log|, m, plan, s);
      }
    }
    forall e | e in es && e.Callback?
      ensures !e.event.SocketShutdown?
      ensures e.event.SocketReadable? ==> Reports(reported, e.socket, Readable)
      ensures e.event.SocketWritable? ==> Reports(reported, e.socket, Writable)
    {
      EventIsReported(base, w.reg, reported, v, log, |w.log|, plan, e);
    }
  }
}
