/** Back-pressure: over every run of a server with any number of connections the registrations of each
    socket say exactly what its FIFOs can do, no call to the reactor fails, and a connection that ends
    leaves no trace. */
module EchoRegistrations {
  import opened Registry
  import opened RegistryAgreement
  import opened RegistryKeys
  import opened RegistryHistory
  import opened Echo
  import opened Sequences
  import Q = Queues
  import QR = QueueRuns

  // ---------------------------------------------------------------- runs of commands

  ghost predicate AllOn(cmds: seq<Cmd>, s: Socket) {
    cmds != [] ==> cmds[0].socket == s && AllOn(cmds[1..], s)
  }

  lemma {:induction false} AllOnAppend(a: seq<Cmd>, b: seq<Cmd>, s: Socket)
    requires AllOn(a, s) && AllOn(b, s)
    ensures AllOn(a + b, s)
  {
    if a == [] {
      assert a + b == b;
    } else {
      assert (a + b)[0] == a[0] && (a + b)[1..] == a[1..] + b;
      AllOnAppend(a[1..], b, s);
    }
  }

  /** The commands concern socket `s`, none of them fails, and they lead from `r` to `r'`. */
  ghost predicate Runs(r: Reg, cmds: seq<Cmd>, s: Socket, r': Reg) {
    && AllOn(cmds, s)
    && Linked(r) && AllSucceed(r, cmds) && ExecuteAll(r, cmds) == r'
  }

  lemma RunsNothing(r: Reg, s: Socket)
    requires Linked(r)
    ensures Runs(r, [], s, r)
  {
  }

  lemma RunsOne(r: Reg, c: Cmd)
    requires Linked(r) && Execute(r, c).1
    ensures Runs(r, [c], c.socket, Execute(r, c).0)
  {
    ExecuteLinked(r, c);
    assert [c][1..] == [];
  }

  lemma RunsBoth(r: Reg, a: seq<Cmd>, r1: Reg, b: seq<Cmd>, r2: Reg, s: Socket)
    requires Runs(r, a, s, r1) && Runs(r1, b, s, r2)
    ensures Runs(r, a + b, s, r2)
  {
    ExecuteAllAppend(r, a, b);
    AllOnAppend(a, b, s);
  }

  lemma SameAtTransitive(a: Reg, b: Reg, c: Reg, t: Socket)
    requires Linked(a) && Linked(b) && Linked(c) && SameAt(a, b, t) && SameAt(b, c, t)
    ensures SameAt(a, c, t)
  {
  }

  lemma {:induction false} ExecuteAllFrame(r: Reg, cmds: seq<Cmd>, s: Socket, t: Socket)
    requires WF(r) && t != s && AllOn(cmds, s)
    ensures SameAt(r, ExecuteAll(r, cmds), t)
    decreases |cmds|
  {
    if cmds == [] {
    } else {
      ExecuteKeepsWF(r, cmds[0]);
      ExecuteFrame(r, cmds[0], t);
      ExecuteAllFrame(Execute(r, cmds[0]).0, cmds[1..], s, t);
      SameAtTransitive(r, Execute(r, cmds[0]).0, ExecuteAll(r, cmds), t);
    }
  }

  // ---------------------------------------------------------------- slots

  /** The handler keeps its shutdown observer, so its other observers come and go without failing. */
  lemma Toggle(r: Reg, s: Socket, o: nat, key: Key, on: bool)
    requires WF(r) && s > 0 && s in r.polled
    requires ShutdownKey(o) in KeysOf(r, s) && key != ShutdownKey(o)
    ensures var (r', ok) := Execute(r, if on then Add(s, key) else Remove(s, key));
            && ok && WF(r') && s in r'.polled
            && KeysOf(r', s) == if on then KeysOf(r, s) + {key} else KeysOf(r, s) - {key}
  {
    var c := if on then Add(s, key) else Remove(s, key);
    ExecuteKeepsWF(r, c);
    ExecuteKeys(r, c);
    if on {
      AddKeepsWF(r, s, key);
    } else {
      RemoveKeepsWF(r, s, key);
      RegisteredIsKey(r, s, key);
      CountKeys(r, s);
      if key in KeysOf(r, s) {
        assert KeysOf(r, s) >= {key, ShutdownKey(o)};
        TwoMembers(KeysOf(r, s), key, ShutdownKey(o));
      }
    }
  }

  lemma TwoMembers<T>(xs: set<T>, x: T, y: T)
    requires x in xs && y in xs && x != y
    ensures |xs| >= 2
  {
    assert |xs - {x}| == |xs| - 1 && y in xs - {x};
  }

  /** What the handler has registered, given what its slots have heard. */
  ghost function Expected(o: nat, mayRead: bool, mustWrite: bool): set<Key> {
    {ShutdownKey(o)} + (if mayRead then {ReadKey(o)} else {}) + (if mustWrite then {WriteKey(o)} else {})
  }

  /** The registrations of a live handler are those its slots have asked for. */
  ghost predicate Heard(r: Reg, s: Socket, o: nat, inLog: seq<Q.Signal>, outLog: seq<Q.Signal>) {
    && WF(r) && s > 0 && s in r.polled
    && KeysOf(r, s) == Expected(o, QR.WritableHeard(inLog), QR.ReadableHeard(outLog))
  }

  /** A slot call that registers or removes one observer. */
  lemma ToggleRuns(r: Reg, s: Socket, o: nat, key: Key, on: bool) returns (r': Reg)
    requires WF(r) && s > 0 && s in r.polled
    requires ShutdownKey(o) in KeysOf(r, s) && key != ShutdownKey(o)
    ensures Runs(r, [if on then Add(s, key) else Remove(s, key)], s, r')
    ensures WF(r') && s in r'.polled
    ensures KeysOf(r', s) == if on then KeysOf(r, s) + {key} else KeysOf(r, s) - {key}
  {
    Toggle(r, s, o, key, on);
    var c := if on then Add(s, key) else Remove(s, key);
    RunsOne(r, c);
    r' := Execute(r, c).0;
  }

  /** One slot call for one signal. */
  lemma InSlotHeard(r: Reg, s: Socket, o: nat, inLog: seq<Q.Signal>, outLog: seq<Q.Signal>, one: Q.Signal) returns (r': Reg)
    requires Heard(r, s, o, inLog, outLog)
    ensures Runs(r, InSlot(s, o, one), s, r')
    ensures Heard(r', s, o, inLog + [one], outLog)
  {
    QR.Hear(inLog, one);
    if one.Writable? {
      r' := ToggleRuns(r, s, o, ReadKey(o), one.on);
    } else {
      RunsNothing(r, s);
      r' := r;
    }
  }

  lemma OutSlotHeard(r: Reg, s: Socket, o: nat, inLog: seq<Q.Signal>, outLog: seq<Q.Signal>, one: Q.Signal) returns (r': Reg)
    requires Heard(r, s, o, inLog, outLog)
    ensures Runs(r, OutSlot(s, o, one), s, r')
    ensures Heard(r', s, o, inLog, outLog + [one])
  {
    QR.Hear(outLog, one);
    if one.Readable? {
      r' := ToggleRuns(r, s, o, WriteKey(o), one.on);
    } else {
      RunsNothing(r, s);
      r' := r;
    }
  }

  lemma {:induction false} InSlotsHeard(r: Reg, s: Socket, o: nat, inLog: seq<Q.Signal>, outLog: seq<Q.Signal>, signals: seq<Q.Signal>)
    returns (r': Reg)
    requires Heard(r, s, o, inLog, outLog)
    ensures Runs(r, InSlots(s, o, signals), s, r')
    ensures Heard(r', s, o, inLog + signals, outLog)
    decreases |signals|
  {
    if signals == [] {
      AppendNothing(inLog);
      RunsNothing(r, s);
      r' := r;
    } else {
      var r1 := InSlotHeard(r, s, o, inLog, outLog, signals[0]);
      r' := InSlotsHeard(r1, s, o, inLog + [signals[0]], outLog, signals[1..]);
      ShiftOne(inLog, signals);
      RunsBoth(r, InSlot(s, o, signals[0]), r1, InSlots(s, o, signals[1..]), r', s);
    }
  }

  lemma {:induction false} OutSlotsHeard(r: Reg, s: Socket, o: nat, inLog: seq<Q.Signal>, outLog: seq<Q.Signal>, signals: seq<Q.Signal>)
    returns (r': Reg)
    requires Heard(r, s, o, inLog, outLog)
    ensures Runs(r, OutSlots(s, o, signals), s, r')
    ensures Heard(r', s, o, inLog, outLog + signals)
    decreases |signals|
  {
    if signals == [] {
      AppendNothing(outLog);
      RunsNothing(r, s);
      r' := r;
    } else {
      var r1 := OutSlotHeard(r, s, o, inLog, outLog, signals[0]);
      r' := OutSlotsHeard(r1, s, o, inLog, outLog + [signals[0]], signals[1..]);
      ShiftOne(outLog, signals);
      RunsBoth(r, OutSlot(s, o, signals[0]), r1, OutSlots(s, o, signals[1..]), r', s);
    }
  }

  ghost predicate HeardBy(r: Reg, s: Socket, o: nat, c: Conn) {
    Heard(r, s, o, c.fifoIn.log, c.fifoOut.log)
  }

  /** One stage of a callback: the slots run over the new signals of both FIFOs. */
  lemma StageHeard(r: Reg, s: Socket, o: nat, before: Conn, after: Conn) returns (r': Reg)
    requires HeardBy(r, s, o, before)
    requires before.fifoIn.log <= after.fifoIn.log && before.fifoOut.log <= after.fifoOut.log
    ensures Runs(r, SlotCmds(s, o, before, after), s, r')
    ensures HeardBy(r', s, o, after)
  {
    var newIn, newOut := NewSignals(before.fifoIn, after.fifoIn), NewSignals(before.fifoOut, after.fifoOut);
    assert before.fifoIn.log + newIn == after.fifoIn.log;
    assert before.fifoOut.log + newOut == after.fifoOut.log;
    var r1 := InSlotsHeard(r, s, o, before.fifoIn.log, before.fifoOut.log, newIn);
    r' := OutSlotsHeard(r1, s, o, after.fifoIn.log, before.fifoOut.log, newOut);
    RunsBoth(r, InSlots(s, o, newIn), r1, OutSlots(s, o, newOut), r', s);
  }

  // ---------------------------------------------------------------- one connection

  /** A live handler between callbacks. */
  ghost predicate ConnOk(c: Conn) {
    && Ready(c) && QR.Agrees(c.fifoIn) && QR.Agrees(c.fifoOut)
    && !c.fifoIn.IsFull()
  }

  /** The FIFOs keep telling their slots the truth, and `_fifoIn` is never left full. */
  lemma StepKeepsConn(c: Conn, e: Event)
    requires ConnOk(c) && Possible(c, e) && !Ends(e)
    ensures ConnOk(Step(c, e))
  {
    match e
    case SocketReadable(recv) =>
      var c1 := Receive(c, recv.data);
      var n := Q.Accepted(c1.fifoOut, |c1.fifoIn.content|);
      QR.StepAgreesIff(c.fifoIn, QR.OpAdvance(recv.data));
      QR.StepAgreesIff(c1.fifoOut, QR.OpWrite(c1.fifoIn.content));
      QR.StepAgreesIff(c1.fifoIn, QR.OpDrain(n));
    case SocketWritable(send) =>
      if send.Sent? && send.count > 0 {
        QR.StepAgreesIff(c.fifoOut, QR.OpDrain(send.count));
      }
  }

  lemma StepHeard(r: Reg, s: Socket, o: nat, c: Conn, e: Event) returns (r': Reg)
    requires ConnOk(c) && HeardBy(r, s, o, c) && Possible(c, e) && !Ends(e)
    ensures Runs(r, StepCmds(s, o, c, e), s, r')
    ensures HeardBy(r', s, o, Step(c, e))
  {
    match e
    case SocketReadable(recv) =>
      r' := ReadableHeard(r, s, o, c, recv.data);
    case SocketWritable(send) =>
      r' := StageHeard(r, s, o, c, Step(c, e));
  }

  lemma ReadableHeard(r: Reg, s: Socket, o: nat, c: Conn, data: seq<Byte>) returns (r': Reg)
    requires ConnOk(c) && HeardBy(r, s, o, c) && 0 < |data| <= c.fifoIn.Available()
    ensures Runs(r, StepCmds(s, o, c, SocketReadable(Received(data))), s, r')
    ensures HeardBy(r', s, o, OnReceived(c, data))
  {
    var c1 := Receive(c, data);
    var c2 := CopyOver(c1);
    var c3 := OnReceived(c, data);
    var a, b, d := SlotCmds(s, o, c, c1), SlotCmds(s, o, c1, c2), SlotCmds(s, o, c2, c3);
    var r1 := StageHeard(r, s, o, c, c1);
    var r2 := StageHeard(r1, s, o, c1, c2);
    r' := StageHeard(r2, s, o, c2, c3);
    RunsBoth(r1, b, r2, d, r', s);
    RunsBoth(r, a, r1, b + d, r', s);
  }

  /** A new handler on a socket nobody knows. */
  lemma ConstructHeard(r: Reg, s: Socket, o: nat) returns (r': Reg)
    requires WF(r) && s > 0 && s !in r.handlers
    ensures Runs(r, ConstructCmds(s, o), s, r')
    ensures HeardBy(r', s, o, NEW_CONN)
  {
    var c1, c2 := Add(s, ReadKey(o)), Add(s, ShutdownKey(o));
    var r1 := Execute(r, c1).0;
    FirstRead(r, s, o);
    r' := Execute(r1, c2).0;
    SecondShutdown(r1, s, o);
    RunsBoth(r, [c1], r1, [c2], r', s);
    assert ConstructCmds(s, o) == [c1] + [c2];
  }

  lemma FirstRead(r: Reg, s: Socket, o: nat)
    requires WF(r) && s > 0 && s !in r.handlers
    ensures var r1 := Execute(r, Add(s, ReadKey(o))).0;
            Runs(r, [Add(s, ReadKey(o))], s, r1) && WF(r1) && s in r1.polled && KeysOf(r1, s) == {ReadKey(o)}
  {
    assert KeysOf(r, s) == {};
    ExecuteKeys(r, Add(s, ReadKey(o)));
    AddKeepsWF(r, s, ReadKey(o));
    RunsOne(r, Add(s, ReadKey(o)));
    var r1 := Execute(r, Add(s, ReadKey(o))).0;
    MustPoll(r1, s, ReadKey(o), Readable);
  }

  /** A socket with an observer for a kind the kernel reports is polled. */
  lemma MustPoll(r: Reg, s: Socket, key: Key, k: Kind)
    requires WF(r) && s > 0 && key in KeysOf(r, s) && k in Counted(key.filter)
    requires k == Readable || k == Writable || k == Error
    ensures s in r.polled
  {
    assert AnyWants(KeysOf(r, s), k);
    KeysWant(r, s, k);
    assert s in r.handlers && Synced(r, s);
  }

  lemma SecondShutdown(r: Reg, s: Socket, o: nat)
    requires WF(r) && s > 0 && s in r.polled && KeysOf(r, s) == {ReadKey(o)}
    ensures var r1 := Execute(r, Add(s, ShutdownKey(o))).0;
            Runs(r, [Add(s, ShutdownKey(o))], s, r1) && Heard(r1, s, o, [], [])
  {
    ExecuteKeys(r, Add(s, ShutdownKey(o)));
    AddKeepsWF(r, s, ShutdownKey(o));
    RunsOne(r, Add(s, ShutdownKey(o)));
    var r1 := Execute(r, Add(s, ShutdownKey(o))).0;
    MustPoll(r1, s, ReadKey(o), Readable);
  }

  /** The destructor finds each observer or does not, and takes the socket out at the end. */
  lemma DestroyForgets(r: Reg, s: Socket, o: nat, c: Conn) returns (r': Reg)
    requires HeardBy(r, s, o, c)
    ensures Runs(r, DestroyCmds(s, o), s, r')
    ensures WF(r') && s !in r'.handlers && s !in r'.polled
  {
    var c1, c2, c3 := Remove(s, ReadKey(o)), Remove(s, WriteKey(o)), Remove(s, ShutdownKey(o));
    var r1 := ToggleRuns(r, s, o, ReadKey(o), false);
    var r2 := ToggleRuns(r1, s, o, WriteKey(o), false);
    assert KeysOf(r2, s) == {ShutdownKey(o)};
    r' := LastOne(r2, s, o);
    RunsBoth(r1, [c2], r2, [c3], r', s);
    RunsBoth(r, [c1], r1, [c2] + [c3], r', s);
    assert DestroyCmds(s, o) == [c1] + ([c2] + [c3]);
  }

  lemma LastOne(r: Reg, s: Socket, o: nat) returns (r': Reg)
    requires WF(r) && s > 0 && s in r.polled && KeysOf(r, s) == {ShutdownKey(o)}
    ensures Runs(r, [Remove(s, ShutdownKey(o))], s, r')
    ensures WF(r') && s !in r'.handlers && s !in r'.polled
  {
    RemoveKeepsWF(r, s, ShutdownKey(o));
    ExecuteKeys(r, Remove(s, ShutdownKey(o)));
    RunsOne(r, Remove(s, ShutdownKey(o)));
    r' := Execute(r, Remove(s, ShutdownKey(o))).0;
    CountKeys(r', s);
  }

  // ---------------------------------------------------------------- the whole server

  ghost predicate ConnShown(base: Reg, v: Server, s: Socket)
    requires s in v.conns && s in v.ids
  {
    s !in base.handlers && ConnOk(v.conns[s]) && HeardBy(v.reg, s, v.ids[s], v.conns[s])
  }

  /** Every connection is in order, and every other socket is as it was in `base`. */
  ghost predicate ServerOk(base: Reg, v: Server) {
    && WF(base) && WF(v.reg)
    && v.ids.Keys == v.conns.Keys
    && (forall s :: s in v.conns ==> s in v.ids && ConnShown(base, v, s))
    && (forall t :: t !in v.conns ==> SameAt(base, v.reg, t))
  }

  lemma HeardElsewhere(r: Reg, r': Reg, s: Socket, o: nat, c: Conn)
    requires HeardBy(r, s, o, c) && WF(r') && SameAt(r, r', s)
    ensures HeardBy(r', s, o, c)
  {
    assert ObserversOf(r', s) == ObserversOf(r, s);
  }

  lemma EventOk(base: Reg, v: Server, e: ServerEvent)
    requires ServerOk(base, v) && Enabled(v, e)
    ensures Runs(v.reg, Cmds(v, e), e.socket, Next(v, e).reg)
    ensures WF(Next(v, e).reg)
    ensures e.socket in Next(v, e).conns ==>
              e.socket in Next(v, e).ids && ConnShown(base, Next(v, e), e.socket)
    ensures e.socket !in Next(v, e).conns ==> SameAt(base, Next(v, e).reg, e.socket)
  {
    RunKeepsWF(v.reg, Cmds(v, e));
    match e
    case Accept(s, id) =>
      var r' := ConstructHeard(v.reg, s, id);
      QR.NewQueueAgrees<Byte>(BUFFER_SIZE);
    case Callback(s, event) =>
      assert ConnShown(base, v, s);
      if Ends(event) {
        var r' := DestroyForgets(v.reg, s, v.ids[s], v.conns[s]);
      } else {
        var r' := StepHeard(v.reg, s, v.ids[s], v.conns[s], event);
        StepKeepsConn(v.conns[s], event);
      }
  }

  /** Every event keeps the whole server in order, and none of its calls to the reactor fails. */
  lemma EventKeepsServer(base: Reg, v: Server, e: ServerEvent)
    requires ServerOk(base, v) && Enabled(v, e)
    ensures ServerOk(base, Next(v, e))
    ensures AllSucceed(v.reg, Cmds(v, e))
  {
    EventOk(base, v, e);
    var v' := Next(v, e);
    forall t | t != e.socket
      ensures SameAt(v.reg, v'.reg, t)
    {
      ExecuteAllFrame(v.reg, Cmds(v, e), e.socket, t);
    }
    NextElsewhere(v, e);
    Elsewhere(base, v, v', e.socket);
  }

  lemma NextElsewhere(v: Server, e: ServerEvent)
    requires Linked(v.reg) && Enabled(v, e) && v.ids.Keys == v.conns.Keys
    ensures var v' := Next(v, e);
            && v'.ids.Keys == v'.conns.Keys
            && (forall t :: t != e.socket ==> (t in v'.conns <==> t in v.conns))
            && (forall t :: t in v.conns && t != e.socket ==> v'.conns[t] == v.conns[t] && v'.ids[t] == v.ids[t])
  {
  }

  /** An event on one socket leaves the others in order. */
  lemma Elsewhere(base: Reg, v: Server, v': Server, s: Socket)
    requires ServerOk(base, v) && WF(v'.reg) && v'.ids.Keys == v'.conns.Keys
    requires forall t :: t != s ==> SameAt(v.reg, v'.reg, t)
    requires forall t :: t != s ==> (t in v'.conns <==> t in v.conns)
    requires forall t :: t in v.conns && t != s ==> v'.conns[t] == v.conns[t] && t in v.ids && v'.ids[t] == v.ids[t]
    requires s in v'.conns ==> s in v'.ids && ConnShown(base, v', s)
    requires s !in v'.conns ==> SameAt(base, v'.reg, s)
    ensures ServerOk(base, v')
  {
    forall t | t in v'.conns
      ensures t in v'.ids && ConnShown(base, v', t)
    {
      if t != s {
        assert ConnShown(base, v, t);
        HeardElsewhere(v.reg, v'.reg, t, v.ids[t], v.conns[t]);
      }
    }
    forall t | t !in v'.conns
      ensures SameAt(base, v'.reg, t)
    {
      if t != s {
        SameAtTransitive(base, v.reg, v'.reg, t);
      }
    }
  }

  ghost predicate EnabledRun(v: Server, es: seq<ServerEvent>)
    requires Linked(v.reg)
    decreases |es|
  {
    es == [] || (Enabled(v, es[0]) && EnabledRun(Next(v, es[0]), es[1..]))
  }

  ghost function ServerRun(v: Server, es: seq<ServerEvent>): (v': Server)
    requires Linked(v.reg) && EnabledRun(v, es)
    ensures Linked(v'.reg)
    decreases |es|
  {
    if es == [] then v else ServerRun(Next(v, es[0]), es[1..])
  }

  ghost predicate NeverFails(v: Server, es: seq<ServerEvent>)
    requires Linked(v.reg) && EnabledRun(v, es)
    decreases |es|
  {
    es == [] || (AllSucceed(v.reg, Cmds(v, es[0])) && NeverFails(Next(v, es[0]), es[1..]))
  }

  lemma {:induction false} RunKeepsServer(base: Reg, v: Server, es: seq<ServerEvent>)
    requires ServerOk(base, v) && EnabledRun(v, es)
    ensures ServerOk(base, ServerRun(v, es)) && NeverFails(v, es)
    decreases |es|
  {
    if es == [] {
    } else {
      EventKeepsServer(base, v, es[0]);
      RunKeepsServer(base, Next(v, es[0]), es[1..]);
    }
  }

  /** A server without connections over a reactor with any registrations of its own. */
  function StartServer(base: Reg): Server {
    Server(base, map[], map[])
  }

  /** Back-pressure agreement. After every run, for every live connection: the readable observer is
      registered exactly if `_fifoIn` has room (which it always has), the writable observer exactly if
      `_fifoOut` holds something, and the kernel watches for exactly these. No call ever failed. */
  lemma BackPressure(base: Reg, es: seq<ServerEvent>, s: Socket)
    requires WF(base) && EnabledRun(StartServer(base), es)
    ensures NeverFails(StartServer(base), es)
    ensures var v := ServerRun(StartServer(base), es);
            s in v.conns ==>
            var c := v.conns[s];
            && s in v.ids
            && (Registered(v.reg, s, Key(v.ids[s], 0, Only(Readable))) <==> !c.fifoIn.IsFull())
            && (Registered(v.reg, s, Key(v.ids[s], 1, Only(Writable))) <==> c.fifoOut.content != [])
            && Registered(v.reg, s, Key(v.ids[s], 2, Only(Shutdown)))
            && s in v.reg.polled && s in v.reg.kernel
            && v.reg.kernel[s] == Mask(!c.fifoIn.IsFull(), c.fifoOut.content != [], false)
            && !c.fifoIn.IsFull()
  {
    StartOk(base);
    RunKeepsServer(base, StartServer(base), es);
    var v := ServerRun(StartServer(base), es);
    if s in v.conns {
      var c, o := v.conns[s], v.ids[s];
      assert ConnShown(base, v, s);
      RegisteredIsKey(v.reg, s, ReadKey(o));
      RegisteredIsKey(v.reg, s, WriteKey(o));
      RegisteredIsKey(v.reg, s, ShutdownKey(o));
      MaskAgrees(v.reg, s);
      ExpectedMask(o, !c.fifoIn.IsFull(), c.fifoOut.content != []);
    }
  }

  lemma StartOk(base: Reg)
    requires WF(base)
    ensures ServerOk(base, StartServer(base))
  {
  }

  lemma ExpectedMask(o: nat, mayRead: bool, mustWrite: bool)
    ensures MaskOf(Expected(o, mayRead, mustWrite)) == Mask(mayRead, mustWrite, false)
  {
    var keys := Expected(o, mayRead, mustWrite);
    assert mayRead ==> ReadKey(o) in keys && Readable in Counted(ReadKey(o).filter);
    assert mustWrite ==> WriteKey(o) in keys && Writable in Counted(WriteKey(o).filter);
  }

  /** Teardown round trip. Whenever every accepted connection has ended, the handler map, the poll set
      and the kernel's interest set are what they were before the first, and no call ever failed. */
  lemma TeardownRestores(base: Reg, es: seq<ServerEvent>)
    requires WF(base) && EnabledRun(StartServer(base), es)
    ensures NeverFails(StartServer(base), es)
    ensures ServerRun(StartServer(base), es).conns == map[] ==>
              SameRegistrations(base, ServerRun(StartServer(base), es).reg)
  {
    StartOk(base);
    RunKeepsServer(base, StartServer(base), es);
    var v := ServerRun(StartServer(base), es);
    if v.conns == map[] {
      SameEverywhere(base, v.reg);
    }
  }

  lemma {:induction false} RunKeepsNoOrphans(base: Reg, v: Server, es: seq<ServerEvent>)
    requires ServerOk(base, v) && EnabledRun(v, es) && NoOrphans(v.reg)
    ensures NoOrphans(ServerRun(v, es).reg)
    decreases |es|
  {
    if es == [] {
    } else {
      EventKeepsServer(base, v, es[0]);
      SuccessIsOrphanFree(v.reg, Cmds(v, es[0]));
      RunOrphansIff(v.reg, Cmds(v, es[0]));
      RunKeepsNoOrphans(base, Next(v, es[0]), es[1..]);
    }
  }

  /** Whoever can still be called is registered, and on the socket of a live connection it is one of
      the three observers of the very handler that now lives there. */
  lemma EnabledIsLive(base: Reg, v: Server, id: nat)
    requires ServerOk(base, v) && NoOrphans(v.reg) && id in v.reg.enabled
    ensures id < |v.reg.cells| && v.reg.cells[id].home < |v.reg.notifiers|
    ensures var c := v.reg.cells[id];
            var s := v.reg.notifiers[c.home].socket;
            && c in ObserversOf(v.reg, s)
            && (s in v.conns ==>
                  && s in v.ids && c.key.target == v.ids[s]
                  && (c.key == ReadKey(v.ids[s]) || c.key == WriteKey(v.ids[s]) || c.key == ShutdownKey(v.ids[s])))
            && (s !in v.conns ==> s in base.handlers)
  {
    var c := v.reg.cells[id];
    assert Listed(v.reg, c);
    var s := v.reg.notifiers[c.home].socket;
    if s in v.conns {
      assert ConnShown(base, v, s);
      KeyOfListed(ObserversOf(v.reg, s), c);
    } else {
      assert SameAt(base, v.reg, s);
    }
  }

  lemma KeyOfListed(cells: seq<Cell>, c: Cell)
    requires c in cells
    ensures c.key in CellKeys(cells)
  {
    var i :| 0 <= i < |cells| && cells[i] == c;
    assert cells[i].key in CellKeys(cells);
  }

  /** No handler is called after it has deleted itself. After every run, every observer that is still
      enabled is registered; on the socket of a connection it belongs to the handler that now lives
      there, also if the descriptor was used by another one before; every other one was registered for
      a socket that the reactor handled before the server started. */
  lemma NoCallAfterDelete(base: Reg, es: seq<ServerEvent>, id: nat)
    requires WF(base) && NoOrphans(base) && EnabledRun(StartServer(base), es)
    ensures var v := ServerRun(StartServer(base), es);
            id in v.reg.enabled ==>
              && id < |v.reg.cells| && v.reg.cells[id].home < |v.reg.notifiers|
              && var c := v.reg.cells[id];
                 var s := v.reg.notifiers[c.home].socket;
                 && c in ObserversOf(v.reg, s)
                 && (s in v.conns ==> s in v.ids && c.key.target == v.ids[s])
                 && (s !in v.conns ==> s in base.handlers)
  {
    StartOk(base);
    RunKeepsServer(base, StartServer(base), es);
    RunKeepsNoOrphans(base, StartServer(base), es);
    var v := ServerRun(StartServer(base), es);
    if id in v.reg.enabled {
      EnabledIsLive(base, v, id);
    }
  }

  /** Whether socket `s` has a connection, by its events alone: it comes with the accept, and goes when
      the peer closes, when `recv` or `send` fails, and with the shutdown. A `send` that takes nothing or
      answers with a negative count does not end it. */
  ghost function Alive(alive: bool, e: ServerEvent, s: Socket): bool {
    if e.socket != s then alive
    else match e
      case Accept(_, _) => true
      case Callback(_, SocketReadable(Closed)) => false
      case Callback(_, SocketReadable(RecvFailed)) => false
      case Callback(_, SocketWritable(SendFailed)) => false
      case Callback(_, SocketShutdown) => false
      case Callback(_, SocketReadable(Received(_))) => alive
      case Callback(_, SocketWritable(Sent(_))) => alive
      case Callback(_, SocketWritable(NotSent)) => alive
  }

  ghost function AliveAfter(alive: bool, es: seq<ServerEvent>, s: Socket): bool
    decreases |es|
  {
    if es == [] then alive else AliveAfter(Alive(alive, es[0], s), es[1..], s)
  }

  lemma {:induction false} RunAlive(v: Server, es: seq<ServerEvent>, s: Socket)
    requires Linked(v.reg) && v.ids.Keys == v.conns.Keys && EnabledRun(v, es)
    ensures s in ServerRun(v, es).conns <==> AliveAfter(s in v.conns, es, s)
    decreases |es|
  {
    if es == [] {
    } else {
      NextElsewhere(v, es[0]);
      EventAlive(v, es[0], s);
      RunAlive(Next(v, es[0]), es[1..], s);
    }
  }

  lemma EventAlive(v: Server, e: ServerEvent, s: Socket)
    requires Linked(v.reg) && Enabled(v, e)
    ensures s in Next(v, e).conns <==> Alive(s in v.conns, e, s)
  {
  }

  /** Over every run, a socket has a connection, and the reactor and the poll set know it, exactly if its
      last accept was followed by no closing, no failure and no shutdown. */
  lemma LiveExactly(base: Reg, es: seq<ServerEvent>, s: Socket)
    requires WF(base) && EnabledRun(StartServer(base), es)
    ensures var v, alive := ServerRun(StartServer(base), es), AliveAfter(false, es, s);
            && (s in v.conns <==> alive)
            && (s !in base.handlers ==> (s in v.reg.handlers <==> alive) && (s in v.reg.polled <==> alive) && (s in v.reg.kernel <==> alive))
  {
    StartOk(base);
    RunKeepsServer(base, StartServer(base), es);
    RunAlive(StartServer(base), es, s);
    var v := ServerRun(StartServer(base), es);
    if s in v.conns {
      assert ConnShown(base, v, s);
    } else {
      assert SameAt(base, v.reg, s);
    }
  }

  lemma SameEverywhere(r: Reg, r': Reg)
    requires Linked(r) && Linked(r') && forall t :: SameAt(r, r', t)
    ensures SameRegistrations(r, r')
  {
    forall t: Socket
      ensures t in r.handlers.Keys <==> t in r'.handlers.Keys
      ensures t in r.polled <==> t in r'.polled
      ensures t in r.kernel.Keys <==> t in r'.kernel.Keys
      ensures t in r.kernel ==> t in r'.kernel && r.kernel[t] == r'.kernel[t]
      ensures t in r.handlers ==>
                t in r'.handlers && r'.notifiers[r'.handlers[t]] == r.notifiers[r.handlers[t]]
    {
      assert SameAt(r, r', t);
    }
    assert r'.handlers.Keys == r.handlers.Keys;
    assert r'.kernel.Keys == r.kernel.Keys;
    assert r'.kernel == r.kernel;
    assert r'.polled == r.polled;
  }
}
