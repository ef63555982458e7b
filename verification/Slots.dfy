/** The event loop of simple_epoll, on values: the slot table, the interest set of the kernel, and what
    the three handlers and one batch of `dispatch_events` do to them. The table size is a parameter;
    the last slot belongs to the listening socket. */
module Slots {
  import opened Epoll
  import opened Sequences

  const BUFF_LEN: nat := 128

  datatype Bits = Bits(input: bool, output: bool)

  const NO_BITS := Bits(false, false)
  const IN := Bits(true, false)
  const OUT := Bits(false, true)

  /** `call_back`. */
  datatype Handler = NoHandler | HandleAccept | HandleRecv | HandleSend

  /** `event_s`; `arg` always points to the slot itself. */
  datatype Slot = Slot(fd: int, events: Bits, handler: Handler, active: bool, buf: seq<Byte>, len: nat)

  /** What the kernel keeps for a descriptor: the slot as user data and the mask. */
  datatype Entry = Entry(slot: nat, bits: Bits)

  /** What one connection has received and sent, call by call. */
  datatype Stream = Stream(rounds: seq<seq<Byte>>, echoes: seq<seq<Byte>>)

  /** One callback, with the slot, the descriptor and the handler it was made with. */
  datatype Call = Call(slot: nat, fd: int, handler: Handler)

  datatype Table = Table(
    slots: seq<Slot>,              // `g_events`
    kernel: map<int, Entry>,       // the interest set of `g_efd`
    open: set<int>,                // the open descriptors
    failures: nat,                 // epoll_ctl and close calls that failed
    calls: seq<Call>,
    streams: map<int, Stream>,     // the live connections
    finished: seq<Stream>)         // the closed ones

  predicate Sized(t: Table) {
    |t.slots| > 0 && forall i :: 0 <= i < |t.slots| ==> |t.slots[i].buf| == BUFF_LEN && t.slots[i].len < BUFF_LEN
  }

  /** The index of the listener, MAX_EVENTS. */
  function Max(t: Table): nat
    requires Sized(t)
  {
    |t.slots| - 1
  }

  // ---------------------------------------------------------------- system calls

  predicate CtlSucceeds(t: Table, op: CtlOp, fd: int) {
    match op
    case CtlAdd => fd !in t.kernel && fd in t.open
    case _ => fd in t.kernel
  }

  /** `set_epoll`, whose failure nobody looks at. */
  function SetEpoll(t: Table, op: CtlOp, fd: int, e: Entry): Table {
    if !CtlSucceeds(t, op, fd) then t.(failures := t.failures + 1)
    else if op.CtlDel? then t.(kernel := t.kernel - {fd})
    else t.(kernel := t.kernel[fd := e])
  }

  /** `close` also takes the descriptor out of the interest set. */
  function Close(t: Table, fd: int): Table {
    if fd !in t.open then t.(failures := t.failures + 1)
    else t.(open := t.open - {fd}, kernel := t.kernel - {fd})
  }

  // ---------------------------------------------------------------- event.h, event.cpp

  function SetSlot(t: Table, i: nat, s: Slot): Table
    requires i < |t.slots|
  {
    t.(slots := t.slots[i := s])
  }

  function SetEvent(t: Table, i: nat, fd: int, handler: Handler): Table
    requires i < |t.slots|
  {
    SetSlot(t, i, t.slots[i].(fd := fd, handler := handler, events := NO_BITS, active := false))
  }

  function EventAdd(t: Table, i: nat, events: Bits): Table
    requires i < |t.slots|
  {
    var s := t.slots[i];
    SetEpoll(SetSlot(t, i, s.(active := true, events := events)), if s.active then CtlMod else CtlAdd, s.fd, Entry(i, events))
  }

  function EventDel(t: Table, i: nat): Table
    requires i < |t.slots|
  {
    var s := t.slots[i];
    if !s.active then t
    else SetEpoll(SetSlot(t, i, s.(active := false)), CtlDel, s.fd, Entry(i, NO_BITS))
  }

  // ---------------------------------------------------------------- handlers

  /** What `accept` and `set_non_block` answer. */
  datatype Accepted = NoConnection | Connection(fd: int, nonBlocking: bool)

  datatype Received = Data(bytes: seq<Byte>) | EndOfStream | RecvError

  /** The answers of the system calls that a callback may make. */
  datatype IO = IO(accepted: Accepted, received: Received, sent: int)

  /** The kernel's side, for the call that the slot's handler makes: `accept` returns a fresh
      descriptor, `recv` fewer bytes than the buffer holds (the handler writes a terminator behind
      them), `send` takes no more than it was offered. */
  predicate Possible(t: Table, i: nat, io: IO)
    requires i < |t.slots|
  {
    match t.slots[i].handler
    case NoHandler => true
    case HandleAccept => io.accepted.Connection? ==> io.accepted.fd !in t.open
    case HandleRecv => io.received.Data? ==> 0 < |io.received.bytes| < BUFF_LEN
    case HandleSend => io.sent <= t.slots[i].len
  }

  /** The first free slot, or `max` if there is none. */
  function FirstFree(slots: seq<Slot>, max: nat): (i: nat)
    requires max <= |slots|
    ensures i <= max
    ensures i < max ==> !slots[i].active
    ensures forall j :: 0 <= j < i ==> slots[j].active
    decreases max
  {
    if max == 0 then 0
    else
      var i := FirstFree(slots, max - 1);
      if i < max - 1 || !slots[max - 1].active then i else max
  }

  /** `handle_accept`; a connection for which there is no slot stays open and is forgotten. */
  function OnAccept(t: Table, a: Accepted): (t': Table)
    requires Sized(t)
    ensures Sized(t') && |t'.slots| == |t.slots|
  {
    if a.NoConnection? then t
    else
      var t1 := t.(open := t.open + {a.fd});
      var i := FirstFree(t1.slots, Max(t));
      if i == Max(t) || !a.nonBlocking then t1
      else EventAdd(SetEvent(t1, i, a.fd, HandleRecv), i, IN).(streams := t1.streams[a.fd := Stream([], [])])
  }

  /** The buffer after `recv` has put `data` at its start and the handler a terminator behind it. */
  function Fill(buf: seq<Byte>, data: seq<Byte>): seq<Byte>
    requires |data| < |buf|
  {
    data + [0] + buf[|data| + 1..]
  }

  function StreamOf(t: Table, fd: int): Stream {
    if fd in t.streams then t.streams[fd] else Stream([], [])
  }

  /** The descriptor is closed, the slot is left as it is. */
  function Finish(t: Table, fd: int): Table {
    Close(t, fd).(streams := t.streams - {fd}, finished := t.finished + [StreamOf(t, fd)])
  }

  function OnRecv(t: Table, i: nat, r: Received): (t': Table)
    requires Sized(t) && i < |t.slots| && (r.Data? ==> 0 < |r.bytes| < BUFF_LEN)
    ensures Sized(t') && |t'.slots| == |t.slots|
  {
    var fd := t.slots[i].fd;
    var t1 := EventDel(t, i);
    if !r.Data? then Finish(t1, fd)
    else
      var s := t1.slots[i];
      var t2 := SetSlot(t1, i, s.(len := |r.bytes|, buf := Fill(s.buf, r.bytes)));
      var stream := StreamOf(t, fd);
      EventAdd(SetEvent(t2, i, fd, HandleSend), i, OUT).(
        streams := t.streams[fd := stream.(rounds := stream.rounds + [r.bytes])])
  }

  function OnSend(t: Table, i: nat, sent: int): (t': Table)
    requires Sized(t) && i < |t.slots| && sent <= t.slots[i].len
    ensures Sized(t') && |t'.slots| == |t.slots|
  {
    var fd := t.slots[i].fd;
    var t1 := EventDel(t, i);
    if sent <= 0 then Finish(t1, fd)
    else
      var stream := StreamOf(t, fd);
      EventAdd(SetEvent(t1, i, fd, HandleRecv), i, IN).(
        streams := t.streams[fd := stream.(echoes := stream.echoes + [t.slots[i].buf[..sent]])])
  }

  /** `ev->call_back(ev->fd, ..., ev->arg)`. */
  function Callback(t: Table, i: nat, io: IO): (t': Table)
    requires Sized(t) && i < |t.slots| && Possible(t, i, io)
    ensures Sized(t') && |t'.slots| == |t.slots|
  {
    var s := t.slots[i];
    var t1 := t.(calls := t.calls + [Call(i, s.fd, s.handler)]);
    match s.handler
    case NoHandler => t1
    case HandleAccept => OnAccept(t1, io.accepted)
    case HandleRecv => OnRecv(t1, i, io.received)
    case HandleSend => OnSend(t1, i, io.sent)
  }

  // ---------------------------------------------------------------- dispatch_events

  /** One element of what `epoll_wait` returns. */
  datatype Report = Report(slot: nat, bits: Bits)

  predicate FiresInput(t: Table, rep: Report)
    requires rep.slot < |t.slots|
  {
    rep.bits.input && t.slots[rep.slot].events.input
  }

  predicate FiresOutput(t: Table, rep: Report)
    requires rep.slot < |t.slots|
  {
    rep.bits.output && t.slots[rep.slot].events.output
  }

  /** The first test of the loop body: input. */
  function OnInput(t: Table, rep: Report, io: IO): (t': Table)
    requires Sized(t) && rep.slot < |t.slots| && (FiresInput(t, rep) ==> Possible(t, rep.slot, io))
    ensures Sized(t') && |t'.slots| == |t.slots|
  {
    if FiresInput(t, rep) then Callback(t, rep.slot, io) else t
  }

  /** The second test, on whatever the first has left in the slot. */
  function OnOutput(t: Table, rep: Report, io: IO): (t': Table)
    requires Sized(t) && rep.slot < |t.slots| && (FiresOutput(t, rep) ==> Possible(t, rep.slot, io))
    ensures Sized(t') && |t'.slots| == |t.slots|
  {
    if FiresOutput(t, rep) then Callback(t, rep.slot, io) else t
  }

  /** The answers of the system calls to the two callbacks that one report may cause. */
  datatype Answers = Answers(first: IO, second: IO)

  predicate ReportPossible(t: Table, rep: Report, a: Answers)
    requires Sized(t)
  {
    && rep.slot < |t.slots|
    && (FiresInput(t, rep) ==> Possible(t, rep.slot, a.first))
    && var t1 := OnInput(t, rep, a.first);
       FiresOutput(t1, rep) ==> Possible(t1, rep.slot, a.second)
  }

  /** The loop body. */
  function Process(t: Table, rep: Report, a: Answers): (t': Table)
    requires Sized(t) && ReportPossible(t, rep, a)
    ensures Sized(t') && |t'.slots| == |t.slots|
  {
    OnOutput(OnInput(t, rep, a.first), rep, a.second)
  }

  predicate BatchPossible(t: Table, batch: seq<Report>, answers: seq<Answers>)
    requires Sized(t)
    decreases |batch|
  {
    && |answers| == |batch|
    && (batch == []
        || (ReportPossible(t, batch[0], answers[0])
            && BatchPossible(Process(t, batch[0], answers[0]), batch[1..], answers[1..])))
  }

  /** `dispatch_events`, after `epoll_wait` has returned `batch`. */
  function Dispatch(t: Table, batch: seq<Report>, answers: seq<Answers>): (t': Table)
    requires Sized(t) && BatchPossible(t, batch, answers)
    ensures Sized(t') && |t'.slots| == |t.slots|
    decreases |batch|
  {
    if batch == [] then t else Dispatch(Process(t, batch[0], answers[0]), batch[1..], answers[1..])
  }

  // ---------------------------------------------------------------- start_server

  const EMPTY_SLOT: Slot := Slot(0, NO_BITS, NoHandler, false, seq(BUFF_LEN, _ => 0), 0)

  /** The zeroed table of `maxEvents` slots and one for the listener, which is then registered. */
  function Start(maxEvents: nat, listenFd: int): (t: Table)
    ensures Sized(t) && |t.slots| == maxEvents + 1
  {
    var t0 := Table(seq(maxEvents + 1, _ => EMPTY_SLOT), map[], {listenFd}, 0, [], map[], []);
    EventAdd(SetEvent(t0, maxEvents, listenFd, HandleAccept), maxEvents, IN)
  }
}
