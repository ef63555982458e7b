/** What each handler of simple_epoll does, answer by answer, and what becomes of a connection over whole
    runs: it behaves like a small machine of its own, whatever else the table holds. */
module SlotConnections {
  import opened Sequences
  import opened Slots
  import opened SlotSafety

  // ---------------------------------------------------------------- one callback

  /** Everything but slot `i` and descriptor `fd` is as before. */
  ghost predicate OthersStay(t: Table, t': Table, i: nat, fd: int) {
    && |t'.slots| == |t.slots|
    && (forall j :: 0 <= j < |t.slots| && j != i ==> t'.slots[j] == t.slots[j])
    && (forall g :: g != fd ==> (g in t'.kernel <==> g in t.kernel) && (g in t'.open <==> g in t.open) && (g in t'.streams <==> g in t.streams))
    && (forall g :: g != fd && g in t.kernel ==> g in t'.kernel && t'.kernel[g] == t.kernel[g])
    && (forall g :: g != fd && g in t.streams ==> g in t'.streams && t'.streams[g] == t.streams[g])
    && t'.failures == t.failures
  }

  /** The connection of slot `i` is over: slot free, descriptor closed and unknown to the kernel, and its
      stream put away. */
  ghost predicate Over(t: Table, t': Table, i: nat, fd: int)
    requires i < |t.slots| == |t'.slots|
  {
    && !t'.slots[i].active
    && fd !in t'.open && fd !in t'.kernel && fd !in t'.streams
    && fd in t.streams && t'.finished == t.finished + [t.streams[fd]]
  }

  /** The connection of slot `i` goes on: still active and open, waiting for `bits` with `handler`. */
  ghost predicate GoesOn(t: Table, t': Table, i: nat, fd: int, handler: Handler, bits: Bits)
    requires i < |t.slots| == |t'.slots|
  {
    && t'.slots[i].active && t'.slots[i].fd == fd && t'.slots[i].handler == handler && t'.slots[i].events == bits
    && fd in t'.open && fd in t'.kernel && t'.kernel[fd] == Entry(i, bits)
    && fd in t.streams && fd in t'.streams && t'.finished == t.finished
  }

  /** `handle_recv` on an active slot: with data the slot turns to sending exactly these bytes; without,
      whether the peer has closed or an error has come, the connection is over. */
  lemma RecvOutcome(t: Table, i: nat, io: IO)
    requires Inv(t) && i < Max(t) && t.slots[i].active && t.slots[i].handler == HandleRecv && Possible(t, i, io)
    ensures var t', fd := Callback(t, i, io), t.slots[i].fd;
            && OthersStay(t, t', i, fd)
            && (match io.received
                case Data(bytes) =>
                  && GoesOn(t, t', i, fd, HandleSend, OUT)
                  && t'.slots[i].len == |bytes| && |t'.slots[i].buf| == BUFF_LEN && t'.slots[i].buf[..t'.slots[i].len] == bytes
                  && t'.slots[i].buf[|bytes|] == 0 && t'.slots[i].buf[|bytes| + 1..] == t.slots[i].buf[|bytes| + 1..]
                  && t'.streams[fd] == Stream(t.streams[fd].rounds + [bytes], t.streams[fd].echoes)
                case EndOfStream => Over(t, t', i, fd)
                case RecvError => Over(t, t', i, fd))
            && (t'.slots[i].active <==> io.received.Data?)
            && (fd in t'.open <==> io.received.Data?) && (fd in t'.kernel <==> io.received.Data?)
  {
    assert ActiveOk(t, i) && EntryOk(t, t.slots[i].fd);
    var t1 := t.(calls := t.calls + [Call(i, t.slots[i].fd, t.slots[i].handler)]);
    CallsDoNotMatter(t, t1.calls);
    if io.received.Data? {
      RecvNet(t1, i, io.received.bytes);
      assert Fill(t.slots[i].buf, io.received.bytes)[..|io.received.bytes|] == io.received.bytes;
    } else {
      EndNet(t1, i);
    }
  }

  /** `handle_send` on an active slot: what was taken is a prefix of what the slot holds, and the slot
      turns back to receiving; an answer of zero or less ends the connection. */
  lemma SendOutcome(t: Table, i: nat, io: IO)
    requires Inv(t) && i < Max(t) && t.slots[i].active && t.slots[i].handler == HandleSend && Possible(t, i, io)
    ensures var t', s := Callback(t, i, io), t.slots[i];
            && OthersStay(t, t', i, s.fd)
            && (if io.sent > 0 then
                  && GoesOn(t, t', i, s.fd, HandleRecv, IN)
                  && io.sent <= |s.buf|
                  && t'.streams[s.fd] == Stream(t.streams[s.fd].rounds, t.streams[s.fd].echoes + [s.buf[..io.sent]])
                else Over(t, t', i, s.fd))
            && (t'.slots[i].active <==> io.sent > 0)
            && (s.fd in t'.open <==> io.sent > 0) && (s.fd in t'.kernel <==> io.sent > 0)
  {
    assert ActiveOk(t, i) && EntryOk(t, t.slots[i].fd);
    var t1 := t.(calls := t.calls + [Call(i, t.slots[i].fd, t.slots[i].handler)]);
    CallsDoNotMatter(t, t1.calls);
    if io.sent > 0 {
      SendNet(t1, i, io.sent);
    } else {
      EndNet(t1, i);
    }
  }

  /** The callbacks of one report on an active slot, whatever its bits are: only the bit that the slot waits
      for calls its handler, and a report with both bits lets a slot that has just received send at once. */
  lemma ReportCalls(t: Table, rep: Report, a: Answers)
    requires Inv(t) && ReportPossible(t, rep, a) && t.slots[rep.slot].active
    ensures var s := t.slots[rep.slot];
            Process(t, rep, a).calls == t.calls +
              match s.handler
              case HandleRecv =>
                if !rep.bits.input then []
                else if rep.bits.output && a.first.received.Data? then [Call(rep.slot, s.fd, HandleRecv), Call(rep.slot, s.fd, HandleSend)]
                else [Call(rep.slot, s.fd, HandleRecv)]
              case HandleSend => if rep.bits.output then [Call(rep.slot, s.fd, HandleSend)] else []
              case HandleAccept => if rep.bits.input then [Call(rep.slot, s.fd, HandleAccept)] else []
              case NoHandler => []
  {
    assert ActiveOk(t, rep.slot);
    assert t.calls + [] == t.calls;
    var t1 := OnInput(t, rep, a.first);
    if FiresInput(t, rep) {
      CallbackKeepsInv(t, rep.slot, a.first);
      CallbackCalls(t, rep.slot, a.first);
    }
    if FiresOutput(t1, rep) {
      CallbackCalls(t1, rep.slot, a.second);
    }
  }

  /** Slot `i` is the first one that is free; the listener's does not count. */
  ghost predicate IsFirstFree(t: Table, i: nat)
    requires Sized(t)
  {
    i < Max(t) && !t.slots[i].active && forall j :: 0 <= j < i ==> t.slots[j].active
  }

  lemma FirstFreeFound(t: Table)
    requires Sized(t)
    ensures (exists i :: IsFirstFree(t, i)) <==> FirstFree(t.slots, Max(t)) < Max(t)
    ensures forall i :: IsFirstFree(t, i) ==> i == FirstFree(t.slots, Max(t))
    ensures FirstFree(t.slots, Max(t)) < Max(t) <==> exists j :: 0 <= j < Max(t) && !t.slots[j].active
  {
    var f := FirstFree(t.slots, Max(t));
    if f < Max(t) {
      assert IsFirstFree(t, f);
    }
  }

  /** `handle_accept` with a connection that becomes non-blocking, while a slot is free: the first free
      slot waits for its input, with an empty stream. */
  lemma AcceptTakes(t: Table, io: IO, i: nat)
    requires Inv(t) && Possible(t, Max(t), io) && IsFirstFree(t, i)
    requires io.accepted.Connection? && io.accepted.nonBlocking
    ensures var t', fd := Callback(t, Max(t), io), io.accepted.fd;
            && t.slots[Max(t)].handler == HandleAccept && fd !in t.open
            && OthersStay(t, t', i, fd) && t'.finished == t.finished
            && t'.slots[i].active && t'.slots[i].fd == fd && t'.slots[i].handler == HandleRecv && t'.slots[i].events == IN
            && fd in t'.open && fd in t'.kernel && t'.kernel[fd] == Entry(i, IN)
            && fd in t'.streams && t'.streams[fd] == Stream([], [])
  {
    var l := Max(t);
    assert ActiveOk(t, l);
    var t1 := t.(calls := t.calls + [Call(l, t.slots[l].fd, t.slots[l].handler)]);
    CallsDoNotMatter(t, t1.calls);
    FirstFreeFound(t);
    AcceptNet(t1, io.accepted.fd);
  }

  /** `handle_accept` otherwise: the table stays as it is, and a connection there may be is open, and
      nothing else. */
  lemma AcceptDrops(t: Table, io: IO)
    requires Inv(t) && Possible(t, Max(t), io)
    requires io.accepted.NoConnection? || !io.accepted.nonBlocking || forall i :: !IsFirstFree(t, i)
    ensures var t' := Callback(t, Max(t), io);
            && t'.slots == t.slots && t'.kernel == t.kernel && t'.streams == t.streams
            && t'.finished == t.finished && t'.failures == t.failures
            && t'.open == t.open + (if io.accepted.Connection? then {io.accepted.fd} else {})
  {
    assert ActiveOk(t, Max(t));
    FirstFreeFound(t);
  }

  // ---------------------------------------------------------------- a connection on its own

  /** What a connection is doing: nothing, as it does not exist; waiting for input; or waiting to send. */
  datatype Chat =
    | Silent
    | Receiving(rounds: seq<seq<Byte>>, echoes: seq<seq<Byte>>)
    | Sending(pending: seq<Byte>, rounds: seq<seq<Byte>>, echoes: seq<seq<Byte>>)

  /** What happens to it. */
  datatype Said = Welcome | Heard(received: Received) | Took(count: int)

  function Reply(c: Chat, said: Said): Chat {
    match said
    case Welcome => Receiving([], [])
    case Heard(received) =>
      if c.Receiving? && received.Data? then Sending(received.bytes, c.rounds + [received.bytes], c.echoes) else Silent
    case Took(count) =>
      if c.Sending? && 0 < count <= |c.pending| then Receiving(c.rounds, c.echoes + [c.pending[..count]]) else Silent
  }

  function Replies(c: Chat, said: seq<Said>): Chat
    decreases |said|
  {
    if said == [] then c else Replies(Reply(c, said[0]), said[1..])
  }

  lemma ReplyOne(c: Chat, said: Said)
    ensures Replies(c, [said]) == Reply(c, said)
  {
    assert [said][1..] == [];
  }

  lemma {:induction false} RepliesAppend(c: Chat, a: seq<Said>, b: seq<Said>)
    ensures Replies(c, a + b) == Replies(Replies(c, a), b)
    decreases |a|
  {
    if a == [] {
      assert a + b == b;
    } else {
      assert (a + b)[0] == a[0] && (a + b)[1..] == a[1..] + b;
      RepliesAppend(Reply(c, a[0]), a[1..], b);
    }
  }

  /** What the callback on slot `i` says to the connection on `fd`. */
  ghost function SaidTo(t: Table, i: nat, io: IO, fd: int): seq<Said>
    requires Sized(t) && i < |t.slots|
  {
    match t.slots[i].handler
    case HandleAccept =>
      if io.accepted == Connection(fd, true) && (exists j :: IsFirstFree(t, j)) then [Welcome] else []
    case HandleRecv => if t.slots[i].fd == fd then [Heard(io.received)] else []
    case HandleSend => if t.slots[i].fd == fd then [Took(io.sent)] else []
    case NoHandler => []
  }

  /** Slot `i` holds the connection on `fd`. */
  ghost predicate At(t: Table, i: nat, fd: int)
    requires Sized(t)
  {
    i < Max(t) && t.slots[i].active && t.slots[i].fd == fd
  }

  /** Slot `i` is in the state of the connection `c` on `fd`. */
  ghost predicate HeldBy(t: Table, i: nat, fd: int, c: Chat)
    requires Sized(t)
  {
    && At(t, i, fd) && !c.Silent?
    && fd in t.streams && t.streams[fd] == Stream(c.rounds, c.echoes)
    && t.slots[i].handler == (if c.Receiving? then HandleRecv else HandleSend)
    && (c.Sending? ==> t.slots[i].buf[..t.slots[i].len] == c.pending)
  }

  /** The table shows the connection on `fd`. */
  ghost predicate Shows(t: Table, fd: int, c: Chat) {
    && Sized(t)
    && if c.Silent? then forall i :: !At(t, i, fd) else exists i :: HeldBy(t, i, fd, c)
  }

  /** A callback on another slot, or on the listener's without a welcome, changes nothing. */
  lemma Undisturbed(t: Table, t': Table, i: nat, fd: int, c: Chat)
    requires Inv(t) && Inv(t') && |t'.slots| == |t.slots| && Shows(t, fd, c)
    requires forall j :: 0 <= j < |t.slots| && j != i ==> t'.slots[j] == t.slots[j]
    requires i < |t.slots| ==> !At(t, i, fd) && !At(t', i, fd)
    requires fd in t.streams ==> fd in t'.streams && t'.streams[fd] == t.streams[fd]
    ensures Shows(t', fd, c)
  {
    if c.Silent? {
      forall j: nat
        ensures !At(t', j, fd)
      {
        assert !At(t, j, fd);
      }
    } else {
      var j :| HeldBy(t, j, fd, c);
      assert HeldBy(t', j, fd, c);
    }
  }

  lemma RecvShown(t: Table, i: nat, io: IO, fd: int, c: Chat)
    requires Inv(t) && i < Max(t) && t.slots[i].active && t.slots[i].handler == HandleRecv && Possible(t, i, io)
    requires Shows(t, fd, c)
    ensures Shows(Callback(t, i, io), fd, Replies(c, SaidTo(t, i, io, fd)))
  {
    var t', g := Callback(t, i, io), t.slots[i].fd;
    CallbackKeepsInv(t, i, io);
    RecvOutcome(t, i, io);
    if fd != g {
      Undisturbed(t, t', i, fd, c);
    } else {
      ShownOnce(t, i, fd, c);
      ReplyOne(c, Heard(io.received));
      if io.received.Data? {
        assert HeldBy(t', i, fd, Reply(c, Heard(io.received)));
      } else {
        HeldNoMore(t, t', i, fd);
      }
    }
  }

  lemma SendShown(t: Table, i: nat, io: IO, fd: int, c: Chat)
    requires Inv(t) && i < Max(t) && t.slots[i].active && t.slots[i].handler == HandleSend && Possible(t, i, io)
    requires Shows(t, fd, c)
    ensures Shows(Callback(t, i, io), fd, Replies(c, SaidTo(t, i, io, fd)))
  {
    var t', g := Callback(t, i, io), t.slots[i].fd;
    CallbackKeepsInv(t, i, io);
    SendOutcome(t, i, io);
    if fd != g {
      Undisturbed(t, t', i, fd, c);
    } else {
      ShownOnce(t, i, fd, c);
      ReplyOne(c, Took(io.sent));
      if io.sent > 0 {
        assert t.slots[i].buf[..t.slots[i].len][..io.sent] == t.slots[i].buf[..io.sent];
        assert HeldBy(t', i, fd, Reply(c, Took(io.sent)));
      } else {
        HeldNoMore(t, t', i, fd);
      }
    }
  }

  /** The slot that holds a connection is the only one, so the chat is what this slot says. */
  lemma ShownOnce(t: Table, i: nat, fd: int, c: Chat)
    requires Inv(t) && At(t, i, fd) && Shows(t, fd, c)
    ensures HeldBy(t, i, fd, c)
  {
    if !c.Silent? {
      var j :| HeldBy(t, j, fd, c);
      if j != i {
        ActiveSlotsDiffer(t, i, j);
      }
    }
  }

  /** When the slot that held a connection is freed, nobody holds it. */
  lemma HeldNoMore(t: Table, t': Table, i: nat, fd: int)
    requires Inv(t) && At(t, i, fd) && Sized(t') && |t'.slots| == |t.slots| && !t'.slots[i].active
    requires forall j :: 0 <= j < |t.slots| && j != i ==> t'.slots[j] == t.slots[j]
    ensures Shows(t', fd, Silent)
  {
    forall j: nat
      ensures !At(t', j, fd)
    {
      if j != i && At(t, j, fd) {
        ActiveSlotsDiffer(t, i, j);
      }
    }
  }

  lemma AcceptShown(t: Table, io: IO, fd: int, c: Chat)
    requires Inv(t) && Possible(t, Max(t), io) && t.slots[Max(t)].handler == HandleAccept
    requires Shows(t, fd, c)
    ensures Shows(Callback(t, Max(t), io), fd, Replies(c, SaidTo(t, Max(t), io, fd)))
  {
    var t' := Callback(t, Max(t), io);
    assert ActiveOk(t, Max(t));
    CallbackKeepsInv(t, Max(t), io);
    if io.accepted.Connection? && io.accepted.nonBlocking && exists j :: IsFirstFree(t, j) {
      var i :| IsFirstFree(t, i);
      AcceptTakes(t, io, i);
      if io.accepted.fd == fd {
        ReplyOne(c, Welcome);
        assert HeldBy(t', i, fd, Receiving([], []));
      } else {
        Undisturbed(t, t', i, fd, c);
      }
    } else {
      AcceptDrops(t, io);
      Undisturbed(t, t', |t.slots|, fd, c);
    }
  }

  /** One callback, seen from any connection. */
  lemma CallbackShown(t: Table, i: nat, io: IO, fd: int, c: Chat)
    requires Inv(t) && i < |t.slots| && t.slots[i].active && Possible(t, i, io) && Shows(t, fd, c)
    ensures Shows(Callback(t, i, io), fd, Replies(c, SaidTo(t, i, io, fd)))
  {
    assert ActiveOk(t, i);
    if i == Max(t) {
      AcceptShown(t, io, fd, c);
    } else if t.slots[i].handler == HandleRecv {
      RecvShown(t, i, io, fd, c);
    } else {
      SendShown(t, i, io, fd, c);
    }
  }

  // ---------------------------------------------------------------- batches and runs

  ghost function SaidIn(t: Table, rep: Report, a: Answers, fd: int): seq<Said>
    requires Sized(t) && rep.slot < |t.slots|
  {
    if rep.bits == NO_BITS then [] else SaidTo(t, rep.slot, if rep.bits.input then a.first else a.second, fd)
  }

  ghost function SaidInBatch(t: Table, batch: seq<Report>, answers: seq<Answers>, fd: int): seq<Said>
    requires Sized(t) && BatchPossible(t, batch, answers)
    decreases |batch|
  {
    if batch == [] then []
    else SaidIn(t, batch[0], answers[0], fd) + SaidInBatch(Process(t, batch[0], answers[0]), batch[1..], answers[1..], fd)
  }

  ghost function SaidInRun(t: Table, turns: seq<Turn>, fd: int): seq<Said>
    requires Sized(t) && Runs(t, turns)
    decreases |turns|
  {
    if turns == [] then []
    else
      SaidInBatch(t, turns[0].batch, turns[0].answers, fd)
      + SaidInRun(Dispatch(t, turns[0].batch, turns[0].answers), turns[1..], fd)
  }

  lemma {:induction false} DispatchShown(t: Table, batch: seq<Report>, answers: seq<Answers>, fd: int, c: Chat)
    requires Inv(t) && Polled(t, batch) && BatchPossible(t, batch, answers) && Shows(t, fd, c)
    ensures Shows(Dispatch(t, batch, answers), fd, Replies(c, SaidInBatch(t, batch, answers, fd)))
    decreases |batch|
  {
    if batch == [] {
    } else {
      var t1, said := Process(t, batch[0], answers[0]), SaidIn(t, batch[0], answers[0], fd);
      ReportedActive(t, batch[0]);
      ProcessOnce(t, batch[0], answers[0]);
      if batch[0].bits != NO_BITS {
        CallbackShown(t, batch[0].slot, if batch[0].bits.input then answers[0].first else answers[0].second, fd, c);
      }
      RestStays(t, batch, answers[0]);
      DispatchShown(t1, batch[1..], answers[1..], fd, Replies(c, said));
      RepliesAppend(c, said, SaidInBatch(t1, batch[1..], answers[1..], fd));
    }
  }

  lemma {:induction false} RunShown(t: Table, turns: seq<Turn>, fd: int, c: Chat)
    requires Inv(t) && Runs(t, turns) && Shows(t, fd, c)
    ensures Shows(Run(t, turns), fd, Replies(c, SaidInRun(t, turns, fd)))
    decreases |turns|
  {
    if turns == [] {
    } else {
      var t1, said := Dispatch(t, turns[0].batch, turns[0].answers), SaidInBatch(t, turns[0].batch, turns[0].answers, fd);
      DispatchNeverStale(t, turns[0].batch, turns[0].answers);
      DispatchShown(t, turns[0].batch, turns[0].answers, fd, c);
      RunShown(t1, turns[1..], fd, Replies(c, said));
      RepliesAppend(c, said, SaidInRun(t1, turns[1..], fd));
    }
  }

  /** Over every run, however connections are interleaved and descriptors and slots reused, each
      connection is what its own answers make of it: what it has received and sent, what it is about to
      send, and whether it is there at all. It is, with its descriptor open and known to the kernel, exactly
      if it was accepted into a slot and no answer since has ended it. */
  lemma ConnectionExactly(maxEvents: nat, listenFd: int, turns: seq<Turn>, fd: int)
    requires Runs(Start(maxEvents, listenFd), turns) && fd != listenFd
    ensures var t := Run(Start(maxEvents, listenFd), turns);
            var c := Replies(Silent, SaidInRun(Start(maxEvents, listenFd), turns, fd));
            && Sized(t) && Shows(t, fd, c)
            && (!c.Silent? <==> exists i :: At(t, i, fd))
            && (!c.Silent? <==> fd in t.kernel)
            && (!c.Silent? ==> fd in t.open)
  {
    var t0 := Start(maxEvents, listenFd);
    StartInv(maxEvents, listenFd);
    RunShown(t0, turns, fd, Silent);
    RunKeepsInv(t0, turns);
    RunKeepsListener(t0, turns);
    var t, c := Run(t0, turns), Replies(Silent, SaidInRun(t0, turns, fd));
    if fd in t.kernel {
      assert EntryOk(t, fd) && At(t, t.kernel[fd].slot, fd);
    }
    if !c.Silent? {
      var i :| HeldBy(t, i, fd, c);
      assert At(t, i, fd) && ActiveOk(t, i) && EntryOk(t, fd);
    }
  }
}
