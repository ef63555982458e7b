/** The echo service of epoll_server/echo_server.h, on values: what one connection does with its two
    FIFOs for each callback, and which registrations the FIFO signals cause. */
module Echo {
  import opened Registry
  import opened Sequences
  import Q = Queues

  const BUFFER_SIZE: nat := 1024

  /** What `recv` brings: some bytes, the end of the stream, or an error (a negative result or an
      exception). */
  datatype Recv = Received(data: seq<Byte>) | Closed | RecvFailed

  /** What `send` answers: how many bytes it took, a negative result, or an exception. */
  datatype Send = Sent(count: nat) | NotSent | SendFailed

  /** The notifications a handler is registered for, with the outcome of the system call it makes. */
  datatype Event = SocketReadable(recv: Recv) | SocketWritable(send: Send) | SocketShutdown

  /** One live handler. `received` and `sent` are the bytes that have passed its socket. */
  datatype Conn = Conn(
    fifoIn: Q.Queue<Byte>,
    fifoOut: Q.Queue<Byte>,
    received: seq<Byte>,
    sent: seq<Byte>)

  const NEW_FIFO: Q.Queue<Byte> := Q.Queue([], BUFFER_SIZE, true, false, false, [])
  const NEW_CONN: Conn := Conn(NEW_FIFO, NEW_FIFO, [], [])

  /** The kernel never delivers more than was asked for, and never takes more than was offered. */
  predicate Possible(c: Conn, e: Event) {
    match e
    case SocketReadable(Received(data)) => 0 < |data| <= c.fifoIn.Available()
    case SocketWritable(Sent(count)) => count <= |c.fifoOut.content|
    case _ => true
  }

  /** Both FIFOs are ordinary queues without end-of-file or error. */
  ghost predicate Ready(c: Conn) {
    && c.fifoIn.WellFormed() && c.fifoOut.WellFormed()
    && !c.fifoIn.eof && !c.fifoIn.error && !c.fifoOut.eof && !c.fifoOut.error
  }

  /** The three stages of the readable callback: receive, copy over, drain what was copied. */
  function Receive(c: Conn, data: seq<Byte>): Conn {
    c.(fifoIn := Q.Extend(c.fifoIn, data), received := c.received + data)
  }

  function CopyOver(c: Conn): Conn
    requires c.fifoOut.WellFormed()
  {
    c.(fifoOut := Q.Write(c.fifoOut, c.fifoIn.content))
  }

  function DrainIn(c: Conn, count: nat): Conn {
    c.(fifoIn := Q.Drain(c.fifoIn, count))
  }

  /** `_fifoIn.drain(_fifoOut.write(...))`: a write that accepts nothing drains everything. */
  function CopyAndDrain(c: Conn): Conn
    requires c.fifoOut.WellFormed()
  {
    DrainIn(CopyOver(c), Q.Accepted(c.fifoOut, |c.fifoIn.content|))
  }

  function OnReceived(c: Conn, data: seq<Byte>): Conn
    requires c.fifoOut.WellFormed()
  {
    CopyAndDrain(Receive(c, data))
  }

  function OnSent(c: Conn, count: nat): Conn
    requires count <= |c.fifoOut.content|
  {
    c.(fifoOut := if count == 0 then c.fifoOut else Q.Drain(c.fifoOut, count),
       sent := c.sent + c.fifoOut.content[..count])
  }

  /** The handler deletes itself. */
  predicate Ends(e: Event) {
    match e
    case SocketReadable(recv) => !recv.Received?
    case SocketWritable(send) => send.SendFailed?
    case SocketShutdown => true
  }

  /** What is left of a handler that survives the callback. */
  function Step(c: Conn, e: Event): Conn
    requires c.fifoOut.WellFormed() && Possible(c, e) && !Ends(e)
  {
    match e
    case SocketReadable(recv) => OnReceived(c, recv.data)
    case SocketWritable(send) => if send.Sent? then OnSent(c, send.count) else c
  }

  // ---------------------------------------------------------------- registrations

  function ReadKey(o: nat): Key { Key(o, 0, Only(Readable)) }
  function WriteKey(o: nat): Key { Key(o, 1, Only(Writable)) }
  function ShutdownKey(o: nat): Key { Key(o, 2, Only(Shutdown)) }

  /** `onFIFOInWritable` is connected to `_fifoIn.writable`. */
  function InSlot(s: Socket, o: nat, signal: Q.Signal): seq<Cmd> {
    match signal
    case Writable(on) => [if on then Add(s, ReadKey(o)) else Remove(s, ReadKey(o))]
    case Readable(_) => []
  }

  /** `onFIFOOutReadable` is connected to `_fifoOut.readable`. */
  function OutSlot(s: Socket, o: nat, signal: Q.Signal): seq<Cmd> {
    match signal
    case Readable(on) => [if on then Add(s, WriteKey(o)) else Remove(s, WriteKey(o))]
    case Writable(_) => []
  }

  function InSlots(s: Socket, o: nat, signals: seq<Q.Signal>): seq<Cmd> {
    if signals == [] then [] else InSlot(s, o, signals[0]) + InSlots(s, o, signals[1..])
  }

  function OutSlots(s: Socket, o: nat, signals: seq<Q.Signal>): seq<Cmd> {
    if signals == [] then [] else OutSlot(s, o, signals[0]) + OutSlots(s, o, signals[1..])
  }

  function NewSignals(before: Q.Queue<Byte>, after: Q.Queue<Byte>): seq<Q.Signal> {
    if |before.log| <= |after.log| then after.log[|before.log|..] else []
  }

  /** What the slots do while the FIFOs go from one state to the next. */
  function SlotCmds(s: Socket, o: nat, before: Conn, after: Conn): seq<Cmd> {
    InSlots(s, o, NewSignals(before.fifoIn, after.fifoIn)) + OutSlots(s, o, NewSignals(before.fifoOut, after.fifoOut))
  }

  function CopyCmds(s: Socket, o: nat, c: Conn): seq<Cmd>
    requires c.fifoOut.WellFormed()
  {
    SlotCmds(s, o, c, CopyOver(c)) + SlotCmds(s, o, CopyOver(c), CopyAndDrain(c))
  }

  /** The calls to the reactor in a callback that the handler survives, in their order. */
  function StepCmds(s: Socket, o: nat, c: Conn, e: Event): seq<Cmd>
    requires c.fifoOut.WellFormed() && Possible(c, e) && !Ends(e)
  {
    match e
    case SocketReadable(recv) =>
      var c1 := Receive(c, recv.data);
      SlotCmds(s, o, c, c1) + CopyCmds(s, o, c1)
    case SocketWritable(_) => SlotCmds(s, o, c, Step(c, e))
  }

  function ConstructCmds(s: Socket, o: nat): seq<Cmd> {
    [Add(s, ReadKey(o)), Add(s, ShutdownKey(o))]
  }

  function DestroyCmds(s: Socket, o: nat): seq<Cmd> {
    [Remove(s, ReadKey(o)), Remove(s, WriteKey(o)), Remove(s, ShutdownKey(o))]
  }

  /** The calls to the reactor in any callback. */
  function EventCmds(s: Socket, o: nat, c: Conn, e: Event): seq<Cmd>
    requires c.fifoOut.WellFormed() && Possible(c, e)
  {
    if Ends(e) then DestroyCmds(s, o) else StepCmds(s, o, c, e)
  }

  // ---------------------------------------------------------------- many connections, one reactor

  datatype Server = Server(reg: Reg, conns: map<Socket, Conn>, ids: map<Socket, nat>)

  /** An event of the whole server: a connection is accepted and gets a handler, or a live handler is
      called back. */
  datatype ServerEvent = Accept(socket: Socket, id: nat) | Callback(socket: Socket, event: Event)

  ghost predicate Enabled(v: Server, e: ServerEvent)
    requires Linked(v.reg)
  {
    match e
    case Accept(s, _) => s > 0 && s !in v.conns && s !in v.reg.handlers
    case Callback(s, event) => s in v.conns && s in v.ids && v.conns[s].fifoOut.WellFormed() && Possible(v.conns[s], event)
  }

  ghost function Cmds(v: Server, e: ServerEvent): seq<Cmd>
    requires Linked(v.reg) && Enabled(v, e)
  {
    match e
    case Accept(s, id) => ConstructCmds(s, id)
    case Callback(s, event) => EventCmds(s, v.ids[s], v.conns[s], event)
  }

  ghost function Next(v: Server, e: ServerEvent): (v': Server)
    requires Linked(v.reg) && Enabled(v, e)
    ensures Linked(v'.reg)
  {
    var reg := ExecuteAll(v.reg, Cmds(v, e));
    match e
    case Accept(s, id) => Server(reg, v.conns[s := NEW_CONN], v.ids[s := id])
    case Callback(s, event) =>
      if Ends(event) then Server(reg, v.conns - {s}, v.ids - {s})
      else Server(reg, v.conns[s := Step(v.conns[s], event)], v.ids)
  }
}
