/** The echo service in its own form: the FIFO overloads of epoll_server/server_socket.cpp and the
    handler object of epoll_server/echo_server.h, over the FIFO and reactor objects. Each callback is
    proved to do what `Echo` says. */
module EchoService {
  import opened Wrappers
  import opened Registry
  import opened RegistryHistory
  import opened Echo
  import opened EchoRegistrations
  import opened Fifos
  import opened Reactors
  import opened Sequences
  import Q = Queues

  /** `receiveBytes(FIFOBuffer&)`: the bytes land behind the compacted content and are then claimed. */
  method ReceiveBytes(fifo: Fifo<Byte>, recv: Recv) returns (r: Result<int>)
    requires fifo.Valid()
    requires recv.Received? ==> 0 < |recv.data| <= fifo.Available()
    modifies fifo, fifo.buffer.ptr
    ensures fifo.Valid() && fifo.begin == 0
    ensures recv.Received? ==>
              && fifo.View() == Q.Extend(old(fifo.View()), recv.data)
              && r == if Q.ExtendOutcome(old(fifo.View()), |recv.data|).Success? then Success(|recv.data|) else Failure(NotWritable)
    ensures !recv.Received? ==> fifo.View() == old(fifo.View()) && r == Success(if recv.Closed? then 0 else -1)
  {
    var at := fifo.Next();
    if recv.Received? {
      fifo.Land(at, recv.data);
      var advanced := fifo.Advance(|recv.data|);
      if advanced.Failure? {
        return Failure(advanced.error);
      }
      return Success(|recv.data|);
    }
    return Success(if recv.Closed? then 0 else -1);
  }

  /** `sendBytes(FIFOBuffer&)`: offers the content from its first byte on and drains what was taken. A
      count of zero drains nothing, so the `drain(0)` that empties a FIFO is never reached from here. */
  method SendBytes(fifo: Fifo<Byte>, send: Send) returns (taken: seq<Byte>, r: Result<int>)
    requires fifo.Valid() && (send.Sent? ==> send.count <= fifo.used)
    modifies fifo, fifo.buffer.ptr
    ensures fifo.Valid()
    ensures taken == if send.Sent? then old(fifo.Content())[..send.count] else []
    ensures r == if send.SendFailed? then Failure(SocketFailed) else Success(if send.Sent? then send.count else -1)
    ensures fifo.View() == if send.Sent? && send.count > 0 then Q.Drain(old(fifo.View()), send.count) else old(fifo.View())
  {
    fifo.Begin();
    if send.SendFailed? {
      return [], Failure(SocketFailed);
    }
    var ret := if send.Sent? then send.count else -1;
    taken := if send.Sent? then fifo.buffer.ptr[..send.count] else [];
    assert send.Sent? ==> taken == fifo.Content()[..send.count];
    if ret > 0 {
      fifo.Drain(ret);
    }
    return taken, Success(ret);
  }

  /** One call to the reactor that is known not to throw. */
  method Call(reactor: SocketReactor, c: Cmd)
    requires reactor.Valid() && Execute(reactor.world.reg, c).1
    modifies reactor, reactor.repr
    ensures reactor.Valid() && (forall o :: o in reactor.repr ==> o in old(reactor.repr) || fresh(o))
    ensures reactor.world.log == old(reactor.world.log)
    ensures reactor.world.reg == Execute(old(reactor.world.reg), c).0
    ensures Runs(old(reactor.world.reg), [c], c.socket, reactor.world.reg)
  {
    RunsOne(reactor.world.reg, c);
    match c
    case Add(s, key) => {
      var r := reactor.AddEventHandler(s, key);
    }
    case Remove(s, key) => {
      var r := reactor.RemoveEventHandler(s, key);
    }
  }

  /** The slot connected to `_fifoIn.writable`. */
  method OnFIFOInWritable(reactor: SocketReactor, socket: Socket, id: nat, on: bool)
    requires reactor.Valid() && AllSucceed(reactor.world.reg, InSlot(socket, id, Q.Writable(on)))
    modifies reactor, reactor.repr
    ensures reactor.Valid() && (forall o :: o in reactor.repr ==> o in old(reactor.repr) || fresh(o))
    ensures reactor.world.log == old(reactor.world.log)
    ensures Runs(old(reactor.world.reg), InSlot(socket, id, Q.Writable(on)), socket, reactor.world.reg)
  {
    if on {
      Call(reactor, Add(socket, ReadKey(id)));
    } else {
      Call(reactor, Remove(socket, ReadKey(id)));
    }
  }

  /** The slot connected to `_fifoOut.readable`. */
  method OnFIFOOutReadable(reactor: SocketReactor, socket: Socket, id: nat, on: bool)
    requires reactor.Valid() && AllSucceed(reactor.world.reg, OutSlot(socket, id, Q.Readable(on)))
    modifies reactor, reactor.repr
    ensures reactor.Valid() && (forall o :: o in reactor.repr ==> o in old(reactor.repr) || fresh(o))
    ensures reactor.world.log == old(reactor.world.log)
    ensures Runs(old(reactor.world.reg), OutSlot(socket, id, Q.Readable(on)), socket, reactor.world.reg)
  {
    if on {
      Call(reactor, Add(socket, WriteKey(id)));
    } else {
      Call(reactor, Remove(socket, WriteKey(id)));
    }
  }

  lemma SucceedFirst(r: Reg, a: seq<Cmd>, b: seq<Cmd>)
    requires Linked(r) && AllSucceed(r, a + b)
    ensures AllSucceed(r, a) && AllSucceed(ExecuteAll(r, a), b)
  {
    ExecuteAllAppend(r, a, b);
  }

  /** The slots of `_fifoIn` run over its new signals, oldest first. */
  method RunInSlots(reactor: SocketReactor, socket: Socket, id: nat, signals: seq<Q.Signal>)
    requires reactor.Valid() && AllSucceed(reactor.world.reg, InSlots(socket, id, signals))
    modifies reactor, reactor.repr
    ensures reactor.Valid() && (forall o :: o in reactor.repr ==> o in old(reactor.repr) || fresh(o))
    ensures reactor.world.log == old(reactor.world.log)
    ensures Runs(old(reactor.world.reg), InSlots(socket, id, signals), socket, reactor.world.reg)
    decreases |signals|
  {
    ghost var r := reactor.world.reg;
    RunsNothing(r, socket);
    if |signals| > 0 {
      SucceedFirst(r, InSlot(socket, id, signals[0]), InSlots(socket, id, signals[1..]));
      if signals[0].Writable? {
        OnFIFOInWritable(reactor, socket, id, signals[0].on);
      }
      ghost var r1 := reactor.world.reg;
      RunInSlots(reactor, socket, id, signals[1..]);
      RunsBoth(r, InSlot(socket, id, signals[0]), r1, InSlots(socket, id, signals[1..]), reactor.world.reg, socket);
    }
  }

  method RunOutSlots(reactor: SocketReactor, socket: Socket, id: nat, signals: seq<Q.Signal>)
    requires reactor.Valid() && AllSucceed(reactor.world.reg, OutSlots(socket, id, signals))
    modifies reactor, reactor.repr
    ensures reactor.Valid() && (forall o :: o in reactor.repr ==> o in old(reactor.repr) || fresh(o))
    ensures reactor.world.log == old(reactor.world.log)
    ensures Runs(old(reactor.world.reg), OutSlots(socket, id, signals), socket, reactor.world.reg)
    decreases |signals|
  {
    ghost var r := reactor.world.reg;
    RunsNothing(r, socket);
    if |signals| > 0 {
      SucceedFirst(r, OutSlot(socket, id, signals[0]), OutSlots(socket, id, signals[1..]));
      if signals[0].Readable? {
        OnFIFOOutReadable(reactor, socket, id, signals[0].on);
      }
      ghost var r1 := reactor.world.reg;
      RunOutSlots(reactor, socket, id, signals[1..]);
      RunsBoth(r, OutSlot(socket, id, signals[0]), r1, OutSlots(socket, id, signals[1..]), reactor.world.reg, socket);
    }
  }

  method RunBothSlots(reactor: SocketReactor, socket: Socket, id: nat, inSignals: seq<Q.Signal>, outSignals: seq<Q.Signal>)
    requires reactor.Valid()
    requires AllSucceed(reactor.world.reg, InSlots(socket, id, inSignals) + OutSlots(socket, id, outSignals))
    modifies reactor, reactor.repr
    ensures reactor.Valid() && (forall o :: o in reactor.repr ==> o in old(reactor.repr) || fresh(o))
    ensures reactor.world.log == old(reactor.world.log)
    ensures Runs(old(reactor.world.reg), InSlots(socket, id, inSignals) + OutSlots(socket, id, outSignals), socket, reactor.world.reg)
  {
    ghost var r := reactor.world.reg;
    SucceedFirst(r, InSlots(socket, id, inSignals), OutSlots(socket, id, outSignals));
    RunInSlots(reactor, socket, id, inSignals);
    ghost var r1 := reactor.world.reg;
    RunOutSlots(reactor, socket, id, outSignals);
    RunsBoth(r, InSlots(socket, id, inSignals), r1, OutSlots(socket, id, outSignals), reactor.world.reg, socket);
  }

  class EchoServiceHandler {
    const socket: Socket
    const id: nat                    // the identity of this object in `NObserver(*this, ...)`
    const reactor: SocketReactor
    const fifoIn: Fifo<Byte>
    const fifoOut: Fifo<Byte>
    var deleted: bool
    ghost var received: seq<Byte>
    ghost var sent: seq<Byte>

    /** The FIFOs are this handler's own. */
    ghost predicate Fifos()
      reads fifoIn, fifoIn.buffer, fifoOut, fifoOut.buffer
    {
      && fifoIn != fifoOut && fifoIn.buffer != fifoOut.buffer && fifoIn.buffer.ptr != fifoOut.buffer.ptr
      && fifoIn.Valid() && fifoOut.Valid()
    }

    /** The reactor shares nothing with this handler. */
    ghost predicate Apart()
      reads reactor, fifoIn, fifoIn.buffer, fifoOut, fifoOut.buffer
    {
      && this !in reactor.repr
      && fifoIn !in reactor.repr && fifoIn.buffer !in reactor.repr && fifoIn.buffer.ptr !in reactor.repr
      && fifoOut !in reactor.repr && fifoOut.buffer !in reactor.repr && fifoOut.buffer.ptr !in reactor.repr
    }

    ghost function View(): Conn
      requires Fifos()
      reads this, fifoIn, fifoIn.buffer, fifoIn.buffer.ptr, fifoOut, fifoOut.buffer, fifoOut.buffer.ptr
    {
      Conn(fifoIn.View(), fifoOut.View(), received, sent)
    }

    /** The handler is registered for what its slots have heard from its FIFOs. */
    ghost predicate Settled()
      reads this, fifoIn, fifoIn.buffer, fifoIn.buffer.ptr, fifoOut, fifoOut.buffer, fifoOut.buffer.ptr, reactor, reactor.repr
    {
      Fifos() && Apart() && reactor.Valid() && HeardBy(reactor.world.reg, socket, id, View())
    }

    constructor (socket: Socket, id: nat, reactor: SocketReactor)
      requires reactor.Valid() && socket > 0 && socket !in reactor.world.reg.handlers
      modifies reactor, reactor.repr
      ensures this.socket == socket && this.id == id && this.reactor == reactor
      ensures Settled() && View() == NEW_CONN && !deleted
      ensures fifoIn.buffer.used == 1024 && fifoOut.buffer.used == 1024
      ensures Runs(old(reactor.world.reg), ConstructCmds(socket, id), socket, reactor.world.reg)
    {
      this.socket, this.id, this.reactor := socket, id, reactor;
      fifoIn := new Fifo<Byte>(BUFFER_SIZE, true);
      fifoOut := new Fifo<Byte>(BUFFER_SIZE, true);
      deleted, received, sent := false, [], [];
      new;
      assert Fifos();
      assert Apart();
      assert View() == NEW_CONN;
      Enroll();
    }

    /** The rest of the constructor. */
    method Enroll()
      requires Fifos() && Apart() && reactor.Valid() && View() == NEW_CONN
      requires socket > 0 && socket !in reactor.world.reg.handlers
      modifies reactor, reactor.repr
      ensures Settled() && View() == NEW_CONN
      ensures Runs(old(reactor.world.reg), ConstructCmds(socket, id), socket, reactor.world.reg)
    {
      RegisterBoth(reactor, socket, id);
    }

    /** The part of the constructor that talks to the reactor. */
    static method RegisterBoth(reactor: SocketReactor, socket: Socket, id: nat)
      requires reactor.Valid() && socket > 0 && socket !in reactor.world.reg.handlers
      modifies reactor, reactor.repr
      ensures reactor.Valid() && (forall o :: o in reactor.repr ==> o in old(reactor.repr) || fresh(o))
      ensures reactor.world.log == old(reactor.world.log)
      ensures Runs(old(reactor.world.reg), ConstructCmds(socket, id), socket, reactor.world.reg)
      ensures HeardBy(reactor.world.reg, socket, id, NEW_CONN)
    {
      ghost var r' := ConstructHeard(reactor.world.reg, socket, id);
      CallAll(reactor, socket, [Add(socket, ReadKey(id)), Add(socket, ShutdownKey(id))]);
    }

    /** What a stage does to the reactor. */
    static method HearStage(reactor: SocketReactor, socket: Socket, id: nat, ghost before: Conn, ghost after: Conn,
                            inSignals: seq<Q.Signal>, outSignals: seq<Q.Signal>)
      requires reactor.Valid() && HeardBy(reactor.world.reg, socket, id, before)
      requires before.fifoIn.log <= after.fifoIn.log && inSignals == NewSignals(before.fifoIn, after.fifoIn)
      requires before.fifoOut.log <= after.fifoOut.log && outSignals == NewSignals(before.fifoOut, after.fifoOut)
      modifies reactor, reactor.repr
      ensures reactor.Valid() && (forall o :: o in reactor.repr ==> o in old(reactor.repr) || fresh(o))
      ensures reactor.world.log == old(reactor.world.log)
      ensures Runs(old(reactor.world.reg), SlotCmds(socket, id, before, after), socket, reactor.world.reg)
      ensures HeardBy(reactor.world.reg, socket, id, after)
    {
      ghost var r' := StageHeard(reactor.world.reg, socket, id, before, after);
      RunBothSlots(reactor, socket, id, inSignals, outSignals);
    }

    /** One stage of a callback: the slots of both FIFOs run over the signals of the stage. */
    method RunSlots(ghost before: Conn, inFrom: nat, outFrom: nat)
      requires Fifos() && Apart() && reactor.Valid()
      requires HeardBy(reactor.world.reg, socket, id, before)
      requires before.fifoIn.log <= fifoIn.log && inFrom == |before.fifoIn.log|
      requires before.fifoOut.log <= fifoOut.log && outFrom == |before.fifoOut.log|
      modifies reactor, reactor.repr
      ensures Fifos() && Apart() && reactor.Valid() && (forall o :: o in reactor.repr ==> o in old(reactor.repr) || fresh(o))
      ensures reactor.world.log == old(reactor.world.log)
      ensures View() == old(View())
      ensures Runs(old(reactor.world.reg), SlotCmds(socket, id, before, View()), socket, reactor.world.reg)
      ensures HeardBy(reactor.world.reg, socket, id, View())
    {
      HearStage(reactor, socket, id, before, View(), fifoIn.log[inFrom..], fifoOut.log[outFrom..]);
    }

    /** `delete this`. */
    method Destroy()
      requires Fifos() && Apart() && reactor.Valid() && HeardBy(reactor.world.reg, socket, id, View())
      modifies this`deleted, reactor, reactor.repr
      ensures deleted && reactor.Valid() && (forall o :: o in reactor.repr ==> o in old(reactor.repr) || fresh(o))
      ensures reactor.world.log == old(reactor.world.log)
      ensures Runs(old(reactor.world.reg), DestroyCmds(socket, id), socket, reactor.world.reg)
      ensures socket !in reactor.world.reg.handlers && socket !in reactor.world.reg.polled
    {
      ghost var r' := DestroyForgets(reactor.world.reg, socket, id, View());
      CallAll(reactor, socket, [Remove(socket, ReadKey(id)), Remove(socket, WriteKey(id)), Remove(socket, ShutdownKey(id))]);
      deleted := true;
    }

    /** `receiveBytes(_fifoIn)` leaves the content of `_fifoIn` at the start of its block. */
    method FillIn(recv: Recv) returns (r: Result<int>)
      requires Fifos() && Apart() && reactor.Valid() && ConnOk(View()) && Possible(View(), SocketReadable(recv))
      modifies this`received, fifoIn, fifoIn.buffer.ptr
      ensures Fifos() && Apart() && reactor.Valid() && fifoIn.begin == 0
      ensures View() == if recv.Received? then Receive(old(View()), recv.data) else old(View())
      ensures r == Success(if recv.Received? then |recv.data| else if recv.Closed? then 0 else -1)
    {
      r := ReceiveBytes(fifoIn, recv);
      if recv.Received? {
        received := received + recv.data;
      }
    }

    /** `_fifoOut.write(_fifoIn.buffer(), _fifoIn.used())`: the raw block, of which the content is a prefix. */
    method FillOut() returns (n: nat)
      requires Fifos() && Apart() && reactor.Valid() && fifoIn.begin == 0 && fifoIn.used > 0
      modifies fifoOut, fifoOut.buffer.ptr
      ensures Fifos() && Apart() && reactor.Valid()
      ensures View() == CopyOver(old(View()))
      ensures n == Q.Accepted(old(View()).fifoOut, |old(View()).fifoIn.content|)
    {
      assert fifoIn.buffer.ptr[..fifoIn.used] == fifoIn.Content();
      n := fifoOut.WriteBuffer(fifoIn.buffer, fifoIn.used);
    }

    method EmptyIn(n: nat)
      requires Fifos() && Apart() && reactor.Valid()
      modifies fifoIn
      ensures Fifos() && Apart() && reactor.Valid()
      ensures View() == DrainIn(old(View()), n)
    {
      fifoIn.Drain(n);
    }

    method OnSocketReadable(recv: Recv)
      requires Settled() && !deleted && ConnOk(View()) && Possible(View(), SocketReadable(recv))
      modifies this, fifoIn, fifoIn.buffer.ptr, fifoOut, fifoOut.buffer.ptr, reactor, reactor.repr
      ensures reactor.Valid() && (forall o :: o in reactor.repr ==> o in old(reactor.repr) || fresh(o))
      ensures reactor.world.log == old(reactor.world.log)
      ensures deleted <==> !recv.Received?
      ensures !deleted ==> Settled() && View() == Step(old(View()), SocketReadable(recv))
      ensures Runs(old(reactor.world.reg), EventCmds(socket, id, old(View()), SocketReadable(recv)), socket, reactor.world.reg)
    {
      ghost var c0 := View();
      var inLog, outLog := |fifoIn.log|, |fifoOut.log|;
      var r := FillIn(recv);
      AfterReceive(r.Success? && r.value > 0, c0, inLog, outLog);
    }

    /** `sendBytes(_fifoOut)`. */
    method FlushOut(send: Send) returns (r: Result<int>)
      requires Fifos() && Possible(View(), SocketWritable(send))
      modifies this`sent, fifoOut, fifoOut.buffer.ptr
      ensures Fifos()
      ensures r.Failure? <==> send.SendFailed?
      ensures send.Sent? ==> View() == OnSent(old(View()), send.count)
      ensures !send.Sent? ==> View() == old(View())
    {
      ghost var c0 := View();
      var taken;
      taken, r := SendBytes(fifoOut, send);
      if send.Sent? {
        sent := sent + taken;
        assert fifoIn.View() == c0.fifoIn;
      }
    }

    method OnSocketWritable(send: Send)
      requires Settled() && !deleted && Possible(View(), SocketWritable(send))
      modifies this, fifoOut, fifoOut.buffer.ptr, reactor, reactor.repr
      ensures reactor.Valid() && (forall o :: o in reactor.repr ==> o in old(reactor.repr) || fresh(o))
      ensures reactor.world.log == old(reactor.world.log)
      ensures deleted <==> send.SendFailed?
      ensures !deleted ==> Settled() && View() == Step(old(View()), SocketWritable(send))
      ensures Runs(old(reactor.world.reg), EventCmds(socket, id, old(View()), SocketWritable(send)), socket, reactor.world.reg)
    {
      ghost var c0 := View();
      var inLog, outLog := |fifoIn.log|, |fifoOut.log|;
      var r := FlushOut(send);
      AfterSend(r.Failure?, c0, inLog, outLog);
    }

    /** End, or let the slots hear what sending has changed. */
    method AfterSend(failed: bool, ghost c0: Conn, inLog: nat, outLog: nat)
      requires Fifos() && Apart() && reactor.Valid() && !deleted
      requires HeardBy(reactor.world.reg, socket, id, c0)
      requires c0.fifoIn.log <= fifoIn.log && inLog == |c0.fifoIn.log|
      requires c0.fifoOut.log <= fifoOut.log && outLog == |c0.fifoOut.log|
      requires failed ==> View() == c0
      modifies this`deleted, reactor, reactor.repr
      ensures reactor.Valid() && (forall o :: o in reactor.repr ==> o in old(reactor.repr) || fresh(o))
      ensures reactor.world.log == old(reactor.world.log)
      ensures deleted == failed
      ensures !failed ==> Settled() && View() == old(View())
      ensures Runs(old(reactor.world.reg),
                   if failed then DestroyCmds(socket, id) else SlotCmds(socket, id, c0, old(View())),
                   socket, reactor.world.reg)
    {
      if failed {
        Destroy();
      } else {
        RunSlots(c0, inLog, outLog);
      }
    }

    method OnSocketShutdown()
      requires Settled() && !deleted
      modifies this, reactor, reactor.repr
      ensures reactor.Valid() && (forall o :: o in reactor.repr ==> o in old(reactor.repr) || fresh(o))
      ensures reactor.world.log == old(reactor.world.log)
      ensures deleted
      ensures Runs(old(reactor.world.reg), EventCmds(socket, id, old(View()), SocketShutdown), socket, reactor.world.reg)
    {
      Destroy();
    }

    /** Relay what has arrived, or end. */
    method AfterReceive(arrived: bool, ghost c0: Conn, inLog: nat, outLog: nat)
      requires Fifos() && Apart() && reactor.Valid() && !deleted
      requires arrived ==> fifoIn.begin == 0 && fifoIn.used > 0
      requires HeardBy(reactor.world.reg, socket, id, c0)
      requires c0.fifoIn.log <= fifoIn.log && inLog == |c0.fifoIn.log|
      requires c0.fifoOut.log <= fifoOut.log && outLog == |c0.fifoOut.log|
      requires !arrived ==> View() == c0
      modifies this`deleted, fifoIn, fifoOut, fifoOut.buffer.ptr, reactor, reactor.repr
      ensures reactor.Valid() && (forall o :: o in reactor.repr ==> o in old(reactor.repr) || fresh(o))
      ensures reactor.world.log == old(reactor.world.log)
      ensures deleted == !arrived
      ensures arrived ==> Settled() && View() == Echo.CopyAndDrain(old(View()))
      ensures Runs(old(reactor.world.reg),
                   if arrived then SlotCmds(socket, id, c0, old(View())) + CopyCmds(socket, id, old(View())) else DestroyCmds(socket, id),
                   socket, reactor.world.reg)
    {
      if arrived {
        Relay(c0, inLog, outLog);
      } else {
        Destroy();
      }
    }

    /** The second stage with its slots. */
    method PassOn() returns (n: nat)
      requires Settled() && fifoIn.begin == 0 && fifoIn.used > 0
      modifies fifoOut, fifoOut.buffer.ptr, reactor, reactor.repr
      ensures Settled() && (forall o :: o in reactor.repr ==> o in old(reactor.repr) || fresh(o))
      ensures reactor.world.log == old(reactor.world.log)
      ensures View() == CopyOver(old(View()))
      ensures n == Q.Accepted(old(View()).fifoOut, |old(View()).fifoIn.content|)
      ensures Runs(old(reactor.world.reg), SlotCmds(socket, id, old(View()), View()), socket, reactor.world.reg)
    {
      ghost var before := View();
      var inLog, outLog := |fifoIn.log|, |fifoOut.log|;
      n := FillOut();
      RunSlots(before, inLog, outLog);
    }

    /** The third stage with its slots. */
    method MakeRoom(n: nat)
      requires Settled()
      modifies fifoIn, reactor, reactor.repr
      ensures Settled() && (forall o :: o in reactor.repr ==> o in old(reactor.repr) || fresh(o))
      ensures reactor.world.log == old(reactor.world.log)
      ensures View() == DrainIn(old(View()), n)
      ensures Runs(old(reactor.world.reg), SlotCmds(socket, id, old(View()), View()), socket, reactor.world.reg)
    {
      ghost var before := View();
      var inLog, outLog := |fifoIn.log|, |fifoOut.log|;
      EmptyIn(n);
      RunSlots(before, inLog, outLog);
    }

    /** `_fifoIn.drain(_fifoOut.write(...))` with the slots of both FIFOs. */
    method CopyAndDrain()
      requires Settled() && fifoIn.begin == 0 && fifoIn.used > 0
      modifies fifoIn, fifoOut, fifoOut.buffer.ptr, reactor, reactor.repr
      ensures Settled() && (forall o :: o in reactor.repr ==> o in old(reactor.repr) || fresh(o))
      ensures reactor.world.log == old(reactor.world.log)
      ensures View() == Echo.CopyAndDrain(old(View()))
      ensures Runs(old(reactor.world.reg), CopyCmds(socket, id, old(View())), socket, reactor.world.reg)
    {
      ghost var c1, r1 := View(), reactor.world.reg;
      var n := PassOn();
      ghost var c2, r2 := View(), reactor.world.reg;
      MakeRoom(n);
      RunsBoth(r1, SlotCmds(socket, id, c1, c2), r2, SlotCmds(socket, id, c2, View()), reactor.world.reg, socket);
    }

    /** The readable callback from the point where bytes have arrived. */
    method Relay(ghost c0: Conn, inLog: nat, outLog: nat)
      requires Fifos() && Apart() && reactor.Valid() && fifoIn.begin == 0 && fifoIn.used > 0
      requires HeardBy(reactor.world.reg, socket, id, c0)
      requires c0.fifoIn.log <= fifoIn.log && inLog == |c0.fifoIn.log|
      requires c0.fifoOut.log <= fifoOut.log && outLog == |c0.fifoOut.log|
      modifies fifoIn, fifoOut, fifoOut.buffer.ptr, reactor, reactor.repr
      ensures Settled() && (forall o :: o in reactor.repr ==> o in old(reactor.repr) || fresh(o))
      ensures reactor.world.log == old(reactor.world.log)
      ensures View() == Echo.CopyAndDrain(old(View())) && unchanged(this)
      ensures Runs(old(reactor.world.reg), SlotCmds(socket, id, c0, old(View())) + CopyCmds(socket, id, old(View())),
                   socket, reactor.world.reg)
    {
      ghost var c1, r0 := View(), reactor.world.reg;
      RunSlots(c0, inLog, outLog);
      ghost var r1 := reactor.world.reg;
      CopyAndDrain();
      RunsBoth(r0, SlotCmds(socket, id, c0, c1), r1, CopyCmds(socket, id, c1), reactor.world.reg, socket);
    }
  }

  /** Several calls on one socket in a row, as in the constructor and the destructor. */
  method CallAll(reactor: SocketReactor, socket: Socket, cmds: seq<Cmd>)
    requires reactor.Valid() && AllOn(cmds, socket) && AllSucceed(reactor.world.reg, cmds)
    modifies reactor, reactor.repr
    ensures reactor.Valid() && (forall o :: o in reactor.repr ==> o in old(reactor.repr) || fresh(o))
    ensures reactor.world.log == old(reactor.world.log)
    ensures Runs(old(reactor.world.reg), cmds, socket, reactor.world.reg)
    decreases |cmds|
  {
    ghost var r := reactor.world.reg;
    RunsNothing(r, socket);
    if |cmds| > 0 {
      assert [cmds[0]] + cmds[1..] == cmds;
      SucceedFirst(r, [cmds[0]], cmds[1..]);
      SucceedOne(r, cmds[0]);
      Call(reactor, cmds[0]);
      ghost var r1 := reactor.world.reg;
      CallAll(reactor, socket, cmds[1..]);
      RunsBoth(r, [cmds[0]], r1, cmds[1..], reactor.world.reg, socket);
    }
  }

  lemma SucceedOne(r: Reg, c: Cmd)
    requires Linked(r) && AllSucceed(r, [c])
    ensures Execute(r, c).1
  {
  }
}
