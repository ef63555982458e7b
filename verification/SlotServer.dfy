/** simple_epoll in its own form: the array of slots, updated in place by the handlers and by the loop
    of `dispatch_events`. Every method is proved against `Slots`. */
module SlotServers {
  import opened Epoll
  import opened Slots
  import opened SlotSafety

  class SlotServer {
    const events: array<Slot>            // `g_events`
    var kernel: map<int, Entry>
    var open: set<int>
    var failures: nat
    var calls: seq<Call>
    ghost var streams: map<int, Stream>
    ghost var finished: seq<Stream>

    ghost function View(): Table
      reads this, events
    {
      Table(events[..], kernel, open, failures, calls, streams, finished)
    }

    ghost predicate Valid()
      reads this, events
    {
      Sized(View())
    }

    /** `start_server` up to `run`: the listener is registered in the last slot. */
    constructor (maxEvents: nat, listenFd: int)
      ensures Valid() && fresh(events) && View() == Start(maxEvents, listenFd)
      ensures events.Length == maxEvents + 1 && forall i :: 0 <= i < maxEvents ==> !events[i].active
      ensures events[maxEvents].(buf := [], len := 0) == Slot(listenFd, IN, HandleAccept, true, [], 0)
      ensures kernel == map[listenFd := Entry(maxEvents, IN)] && open == {listenFd} && failures == 0
    {
      events := new Slot[maxEvents + 1](_ => EMPTY_SLOT);
      kernel, open, failures, calls := map[], {listenFd}, 0, [];
      streams, finished := map[], [];
      new;
      assert events[..] == seq(maxEvents + 1, _ => EMPTY_SLOT);
      SetUp(maxEvents, listenFd, HandleAccept);
      Add(IN, maxEvents);
    }

    /** `set_epoll`. */
    method Ctl(op: CtlOp, fd: int, e: Entry)
      modifies this`kernel, this`failures
      ensures View() == SetEpoll(old(View()), op, fd, e)
      ensures var ok := if op.CtlAdd? then fd !in old(kernel) && fd in open else fd in old(kernel);
              && failures == old(failures) + (if ok then 0 else 1)
              && kernel == if !ok then old(kernel) else if op.CtlDel? then old(kernel) - {fd} else old(kernel)[fd := e]
    {
      match op {
        case CtlAdd =>
          if fd in kernel || fd !in open {
            failures := failures + 1;
          } else {
            kernel := kernel[fd := e];
          }
        case CtlMod =>
          if fd !in kernel {
            failures := failures + 1;
          } else {
            kernel := kernel[fd := e];
          }
        case CtlDel =>
          if fd !in kernel {
            failures := failures + 1;
          } else {
            kernel := kernel - {fd};
          }
      }
    }

    /** `set_event`. */
    method SetUp(i: nat, fd: int, handler: Handler)
      requires i < events.Length
      modifies events
      ensures View() == SetEvent(old(View()), i, fd, handler)
      ensures events[..] == old(events[..])[i := Slot(fd, NO_BITS, handler, false, old(events[i].buf), old(events[i].len))]
    {
      events[i] := events[i].(fd := fd, handler := handler, events := NO_BITS, active := false);
    }

    /** `event_add`. */
    method Add(bits: Bits, i: nat)
      requires i < events.Length
      modifies events, this`kernel, this`failures
      ensures View() == EventAdd(old(View()), i, bits)
      ensures events[..] == old(events[..])[i := old(events[i]).(active := true, events := bits)]
      ensures var fd, known := old(events[i].fd), old(events[i].fd in kernel);
              var ok := if old(events[i].active) then known else !known && fd in open;
              && failures == old(failures) + (if ok then 0 else 1)
              && kernel == if ok then old(kernel)[fd := Entry(i, bits)] else old(kernel)
    {
      var op;
      if events[i].active {
        op := CtlMod;
      } else {
        op := CtlAdd;
        events[i] := events[i].(active := true);
      }
      events[i] := events[i].(events := bits);
      Ctl(op, events[i].fd, Entry(i, bits));
    }

    /** `event_del`. */
    method Del(i: nat)
      requires i < events.Length
      modifies events, this`kernel, this`failures
      ensures View() == EventDel(old(View()), i)
      ensures events[..] == old(events[..])[i := old(events[i]).(active := false)]
      ensures kernel == if old(events[i].active) then old(kernel) - {events[i].fd} else old(kernel)
      ensures failures == old(failures) + (if old(events[i].active && events[i].fd !in kernel) then 1 else 0)
    {
      if !events[i].active {
        return;
      }
      events[i] := events[i].(active := false);
      Ctl(CtlDel, events[i].fd, Entry(i, NO_BITS));
    }

    /** `set_event` and `event_add` in a row, as all handlers call them. */
    method Arm(i: nat, fd: int, handler: Handler, bits: Bits)
      requires i < events.Length
      modifies events, this`kernel, this`failures
      ensures View() == EventAdd(SetEvent(old(View()), i, fd, handler), i, bits)
    {
      SetUp(i, fd, handler);
      Add(bits, i);
    }

    /** `close` at the end of a connection. */
    method CloseConnection(fd: int)
      modifies this`kernel, this`open, this`failures, this`streams, this`finished
      ensures View() == Finish(old(View()), fd)
      ensures open == old(open) - {fd} && kernel == if fd in old(open) then old(kernel) - {fd} else old(kernel)
      ensures failures == old(failures) + (if fd in old(open) then 0 else 1)
    {
      finished := finished + [StreamOf(View(), fd)];
      streams := streams - {fd};
      if fd !in open {
        failures := failures + 1;
      } else {
        open := open - {fd};
        kernel := kernel - {fd};
      }
    }

    /** `handle_accept`. */
    method Accept(a: Accepted)
      requires Valid()
      modifies this, events
      ensures Valid() && calls == old(calls)
      ensures View() == OnAccept(old(View()), a)
    {
      if a.NoConnection? {
        return;
      }
      open := open + {a.fd};
      var max := events.Length - 1;
      var i := 0;
      while i < max
        invariant 0 <= i <= max
        invariant forall j :: 0 <= j < i ==> events[j].active
      {
        if !events[i].active {
          break;
        }
        i := i + 1;
      }
      FirstFreeIs(events[..], max, i);
      if i == max || !a.nonBlocking {
        return;
      }
      Arm(i, a.fd, HandleRecv, IN);
      streams := streams[a.fd := Stream([], [])];
    }

    /** `handle_recv`. */
    method Recv(i: nat, r: Received)
      requires Valid() && i < events.Length && (r.Data? ==> 0 < |r.bytes| < BUFF_LEN)
      modifies this, events
      ensures Valid() && calls == old(calls)
      ensures View() == OnRecv(old(View()), i, r)
    {
      var fd := events[i].fd;
      ghost var stream := StreamOf(View(), fd);
      var buf := if r.Data? then Fill(events[i].buf, r.bytes) else events[i].buf;
      Del(i);
      if r.Data? {
        events[i] := events[i].(len := |r.bytes|, buf := buf);
        Arm(i, fd, HandleSend, OUT);
        streams := streams[fd := stream.(rounds := stream.rounds + [r.bytes])];
      } else {
        CloseConnection(fd);
      }
    }

    /** `handle_send`. */
    method Send(i: nat, sent: int)
      requires Valid() && i < events.Length && sent <= events[i].len
      modifies this, events
      ensures Valid() && calls == old(calls)
      ensures View() == OnSend(old(View()), i, sent)
    {
      var fd := events[i].fd;
      ghost var stream, before := StreamOf(View(), fd), events[i];
      Del(i);
      if sent > 0 {
        Arm(i, fd, HandleRecv, IN);
        streams := streams[fd := stream.(echoes := stream.echoes + [before.buf[..sent]])];
      } else {
        CloseConnection(fd);
      }
    }

    /** `ev->call_back(...)`. */
    method Call(i: nat, io: IO)
      requires Valid() && i < events.Length && Possible(View(), i, io)
      modifies this, events
      ensures Valid()
      ensures View() == Callback(old(View()), i, io)
    {
      calls := calls + [Slots.Call(i, events[i].fd, events[i].handler)];
      match events[i].handler
      case NoHandler =>
      case HandleAccept => Accept(io.accepted);
      case HandleRecv => Recv(i, io.received);
      case HandleSend => Send(i, io.sent);
    }

    /** The body of the loop of `dispatch_events`. */
    method Handle(rep: Report, a: Answers)
      requires Valid() && ReportPossible(View(), rep, a)
      modifies this, events
      ensures Valid()
      ensures View() == Process(old(View()), rep, a)
    {
      if rep.bits.input && events[rep.slot].events.input {
        Call(rep.slot, a.first);
      }
      if rep.bits.output && events[rep.slot].events.output {
        Call(rep.slot, a.second);
      }
    }

    /** `dispatch_events`, given what `epoll_wait` returns. On a table in order, with reports of different
        entries of the interest set, the callbacks made are those that were due when the batch was
        polled, in order, and the table stays in order. */
    method DispatchEvents(batch: seq<Report>, answers: seq<Answers>)
      requires Valid() && BatchPossible(View(), batch, answers)
      modifies this, events
      ensures Valid()
      ensures View() == Dispatch(old(View()), batch, answers)
      ensures old(Inv(View()) && Polled(View(), batch)) ==>
                && Inv(View()) && failures == 0
                && InTable(old(View()).slots, batch) && calls == old(calls) + AllDue(old(View()).slots, batch)
    {
      ghost var t := View();
      for k := 0 to |batch|
        invariant Valid()
        invariant BatchPossible(View(), batch[k..], answers[k..])
        invariant Dispatch(t, batch, answers) == Dispatch(View(), batch[k..], answers[k..])
      {
        assert batch[k..][1..] == batch[k + 1..] && answers[k..][1..] == answers[k + 1..];
        Handle(batch[k], answers[k]);
      }
      if Inv(t) && Polled(t, batch) {
        DispatchNeverStale(t, batch, answers);
      }
    }

    /** The loop of `run`, over any number of batches: the table is the one of the run, and so
        it agrees with the kernel and no system call has failed. */
    method Serve(turns: seq<Turn>)
      requires Inv(View()) && Runs(View(), turns)
      modifies this, events
      ensures View() == Run(old(View()), turns)
      ensures Inv(View()) && failures == 0
    {
      ghost var t := View();
      RunKeepsInv(t, turns);
      for k := 0 to |turns|
        invariant Inv(View()) && Runs(View(), turns[k..])
        invariant Run(t, turns) == Run(View(), turns[k..])
      {
        assert turns[k..][1..] == turns[k + 1..];
        DispatchEvents(turns[k].batch, turns[k].answers);
      }
    }
  }

  lemma FirstFreeIs(slots: seq<Slot>, max: nat, i: nat)
    requires i <= max <= |slots|
    requires i < max ==> !slots[i].active
    requires forall j :: 0 <= j < i ==> slots[j].active
    ensures FirstFree(slots, max) == i
  {
  }
}
