/** simple_epoll over every run: the slot table and the kernel agree, no system call is made in a state
    where it must fail, no event of a batch is delivered to a slot that has changed hands, and every
    connection gets back what it sent. */
module SlotSafety {
  import opened Sequences
  import opened Slots

  // ---------------------------------------------------------------- the invariant

  /** The echoes so far are prefixes of the rounds they answer, and at most one round is open. */
  ghost predicate Echoed(st: Stream) {
    && |st.echoes| <= |st.rounds| <= |st.echoes| + 1
    && forall k :: 0 <= k < |st.echoes| ==> st.echoes[k] <= st.rounds[k]
  }

  /** A slot that waits for input owes nothing; one that waits for output holds exactly the bytes of
      the last round of its own connection. */
  ghost predicate Owes(s: Slot, st: Stream)
    requires s.len < |s.buf|
  {
    && Echoed(st)
    && (s.handler.HandleRecv? ==> |st.rounds| == |st.echoes|)
    && (s.handler.HandleSend? ==> |st.rounds| == |st.echoes| + 1 && s.buf[..s.len] == st.rounds[|st.echoes|])
  }

  /** An active connection slot: what it waits for, what the kernel knows, and what it owes. */
  ghost predicate ActiveOk(t: Table, i: nat)
    requires Sized(t) && i < |t.slots|
  {
    var s := t.slots[i];
    && s.fd in t.kernel && t.kernel[s.fd] == Entry(i, s.events)
    && (if i == Max(t) then s.handler == HandleAccept && s.events == IN
        else
          && ((s.handler == HandleRecv && s.events == IN) || (s.handler == HandleSend && s.events == OUT))
          && s.fd in t.streams && Owes(s, t.streams[s.fd]))
  }

  /** What the kernel knows comes from an active slot with that descriptor, which is open. */
  ghost predicate EntryOk(t: Table, fd: int)
    requires fd in t.kernel
  {
    var i := t.kernel[fd].slot;
    i < |t.slots| && t.slots[i].active && t.slots[i].fd == fd && fd in t.open
  }

  ghost predicate Inv(t: Table) {
    && Sized(t) && t.failures == 0
    && t.slots[Max(t)].active
    && (forall i :: 0 <= i < |t.slots| && t.slots[i].active ==> ActiveOk(t, i))
    && (forall fd :: fd in t.kernel ==> EntryOk(t, fd))
    && (forall k :: 0 <= k < |t.finished| ==> Echoed(t.finished[k]))
  }

  lemma StartInv(maxEvents: nat, listenFd: int)
    ensures Inv(Start(maxEvents, listenFd))
  {
  }

  /** No two active slots share a descriptor. */
  lemma ActiveSlotsDiffer(t: Table, i: nat, j: nat)
    requires Inv(t) && i < |t.slots| && j < |t.slots| && i != j
    requires t.slots[i].active && t.slots[j].active
    ensures t.slots[i].fd != t.slots[j].fd
  {
    assert ActiveOk(t, i) && ActiveOk(t, j);
  }

  // ---------------------------------------------------------------- the handlers

  /** `handle_recv` with data, in one step. */
  lemma RecvNet(t: Table, i: nat, bytes: seq<Byte>)
    requires Inv(t) && i < Max(t) && t.slots[i].active && 0 < |bytes| < BUFF_LEN
    ensures var s := t.slots[i];
            OnRecv(t, i, Data(bytes))
            == t.(slots := t.slots[i := Slot(s.fd, OUT, HandleSend, true, Fill(s.buf, bytes), |bytes|)],
                  kernel := t.kernel[s.fd := Entry(i, OUT)],
                  streams := t.streams[s.fd := StreamOf(t, s.fd).(rounds := StreamOf(t, s.fd).rounds + [bytes])])
  {
    assert ActiveOk(t, i) && EntryOk(t, t.slots[i].fd);
  }

  lemma SendNet(t: Table, i: nat, sent: int)
    requires Inv(t) && i < Max(t) && t.slots[i].active && 0 < sent <= t.slots[i].len
    ensures var s := t.slots[i];
            OnSend(t, i, sent)
            == t.(slots := t.slots[i := Slot(s.fd, IN, HandleRecv, true, s.buf, s.len)],
                  kernel := t.kernel[s.fd := Entry(i, IN)],
                  streams := t.streams[s.fd := StreamOf(t, s.fd).(echoes := StreamOf(t, s.fd).echoes + [s.buf[..sent]])])
  {
    assert ActiveOk(t, i) && EntryOk(t, t.slots[i].fd);
  }

  /** Closing a connection, from either handler. */
  lemma EndNet(t: Table, i: nat)
    requires Inv(t) && i < Max(t) && t.slots[i].active
    ensures var s := t.slots[i];
            Finish(EventDel(t, i), s.fd)
            == t.(slots := t.slots[i := s.(active := false)],
                  kernel := t.kernel - {s.fd},
                  open := t.open - {s.fd},
                  streams := t.streams - {s.fd},
                  finished := t.finished + [StreamOf(t, s.fd)])
  {
    assert ActiveOk(t, i) && EntryOk(t, t.slots[i].fd);
  }

  lemma AcceptNet(t: Table, fd: int)
    requires Inv(t) && fd !in t.open && FirstFree(t.slots, Max(t)) < Max(t)
    ensures var i := FirstFree(t.slots, Max(t));
            OnAccept(t, Connection(fd, true))
            == t.(slots := t.slots[i := t.slots[i].(fd := fd, handler := HandleRecv, events := IN, active := true)],
                  open := t.open + {fd},
                  kernel := t.kernel[fd := Entry(i, IN)],
                  streams := t.streams[fd := Stream([], [])])
  {
    assert fd in t.kernel ==> EntryOk(t, fd);
  }

  /** Giving one slot a new active content, on a descriptor that is its own or new to the kernel. */
  lemma ReplaceKeepsInv(t: Table, t': Table, i: nat, s: Slot)
    requires Inv(t) && i < Max(t)
    requires |s.buf| == BUFF_LEN && s.len < BUFF_LEN && s.active
    requires s.fd in t.kernel ==> t.slots[i].active && t.slots[i].fd == s.fd
    requires t.slots[i].active ==> t.slots[i].fd == s.fd
    requires t'.slots == t.slots[i := s]
    requires t'.kernel == t.kernel[s.fd := Entry(i, s.events)]
    requires s.fd in t'.open && t.open <= t'.open
    requires s.fd in t'.streams && t'.streams == t.streams[s.fd := t'.streams[s.fd]]
    requires t'.failures == 0 && t'.finished == t.finished
    requires ActiveOk(t', i)
    ensures Inv(t')
  {
    forall j | 0 <= j < |t'.slots| && t'.slots[j].active
      ensures ActiveOk(t', j)
    {
      if j != i {
        assert ActiveOk(t, j);
      }
    }
    forall fd | fd in t'.kernel
      ensures EntryOk(t', fd)
    {
      if fd != s.fd {
        assert EntryOk(t, fd);
      }
    }
  }

  lemma RecvKeepsInv(t: Table, i: nat, bytes: seq<Byte>)
    requires Inv(t) && i < Max(t) && t.slots[i].active && t.slots[i].handler == HandleRecv
    requires 0 < |bytes| < BUFF_LEN
    ensures Inv(OnRecv(t, i, Data(bytes)))
  {
    RecvNet(t, i, bytes);
    assert ActiveOk(t, i) && EntryOk(t, t.slots[i].fd);
    var t' := OnRecv(t, i, Data(bytes));
    assert Fill(t.slots[i].buf, bytes)[..|bytes|] == bytes;
    ReplaceKeepsInv(t, t', i, t'.slots[i]);
  }

  lemma SendKeepsInv(t: Table, i: nat, sent: int)
    requires Inv(t) && i < Max(t) && t.slots[i].active && t.slots[i].handler == HandleSend
    requires 0 < sent <= t.slots[i].len
    ensures Inv(OnSend(t, i, sent))
  {
    SendNet(t, i, sent);
    assert ActiveOk(t, i) && EntryOk(t, t.slots[i].fd);
    var t' := OnSend(t, i, sent);
    ReplaceKeepsInv(t, t', i, t'.slots[i]);
  }

  lemma EndKeepsInv(t: Table, i: nat)
    requires Inv(t) && i < Max(t) && t.slots[i].active
    ensures Inv(Finish(EventDel(t, i), t.slots[i].fd))
  {
    EndNet(t, i);
    assert ActiveOk(t, i);
    var t' := Finish(EventDel(t, i), t.slots[i].fd);
    forall j | 0 <= j < |t'.slots| && t'.slots[j].active
      ensures ActiveOk(t', j)
    {
      assert ActiveOk(t, j);
    }
    forall fd | fd in t'.kernel
      ensures EntryOk(t', fd)
    {
      assert EntryOk(t, fd);
    }
  }

  lemma AcceptKeepsInv(t: Table, a: Accepted)
    requires Inv(t) && (a.Connection? ==> a.fd !in t.open)
    ensures Inv(OnAccept(t, a))
  {
    if a.Connection? {
      var i := FirstFree(t.slots, Max(t));
      if i < Max(t) && a.nonBlocking {
        AcceptNet(t, a.fd);
        assert a.fd in t.kernel ==> EntryOk(t, a.fd);
        var t' := OnAccept(t, a);
        ReplaceKeepsInv(t, t', i, t'.slots[i]);
      } else {
        MoreOpen(t, a.fd);
      }
    }
  }

  /** A connection without a slot leaves its descriptor open, and nothing else. */
  lemma MoreOpen(t: Table, fd: int)
    requires Inv(t)
    ensures Inv(t.(open := t.open + {fd}))
  {
    var t' := t.(open := t.open + {fd});
    forall j | 0 <= j < |t'.slots| && t'.slots[j].active
      ensures ActiveOk(t', j)
    {
      assert ActiveOk(t, j);
    }
    forall g | g in t'.kernel
      ensures EntryOk(t', g)
    {
      assert EntryOk(t, g);
    }
  }

  lemma CallsDoNotMatter(t: Table, calls: seq<Call>)
    requires Inv(t)
    ensures Inv(t.(calls := calls))
  {
    var t' := t.(calls := calls);
    forall j | 0 <= j < |t'.slots| && t'.slots[j].active
      ensures ActiveOk(t', j)
    {
      assert ActiveOk(t, j);
    }
    forall g | g in t'.kernel
      ensures EntryOk(t', g)
    {
      assert EntryOk(t, g);
    }
  }

  /** A callback on an active slot keeps table and kernel in agreement, without a failing call. */
  lemma CallbackKeepsInv(t: Table, i: nat, io: IO)
    requires Inv(t) && i < |t.slots| && t.slots[i].active && Possible(t, i, io)
    ensures Inv(Callback(t, i, io))
  {
    assert ActiveOk(t, i);
    var s := t.slots[i];
    var t1 := t.(calls := t.calls + [Call(i, s.fd, s.handler)]);
    CallsDoNotMatter(t, t1.calls);
    match s.handler
    case NoHandler =>
    case HandleAccept => AcceptKeepsInv(t1, io.accepted);
    case HandleRecv =>
      if io.received.Data? {
        RecvKeepsInv(t1, i, io.received.bytes);
      } else {
        EndKeepsInv(t1, i);
      }
    case HandleSend =>
      if io.sent > 0 {
        SendKeepsInv(t1, i, io.sent);
      } else {
        EndKeepsInv(t1, i);
      }
  }

  // ---------------------------------------------------------------- one batch

  ghost predicate Within(a: Bits, b: Bits) {
    (a.input ==> b.input) && (a.output ==> b.output)
  }

  /** The kernel reports an entry of its interest set, with bits of its mask. */
  ghost predicate Reported(t: Table, rep: Report) {
    exists fd :: fd in t.kernel && t.kernel[fd].slot == rep.slot && Within(rep.bits, t.kernel[fd].bits)
  }

  /** What `epoll_wait` may return: reports of different entries. */
  ghost predicate Polled(t: Table, batch: seq<Report>) {
    && (forall k :: 0 <= k < |batch| ==> Reported(t, batch[k]))
    && (forall k, l :: 0 <= k < l < |batch| ==> batch[k].slot != batch[l].slot)
  }

  lemma ReportedActive(t: Table, rep: Report)
    requires Inv(t) && Reported(t, rep)
    ensures rep.slot < |t.slots| && t.slots[rep.slot].active && Within(rep.bits, t.slots[rep.slot].events)
  {
    var fd :| fd in t.kernel && t.kernel[fd].slot == rep.slot && Within(rep.bits, t.kernel[fd].bits);
    assert EntryOk(t, fd) && ActiveOk(t, rep.slot);
  }

  /** The one callback that a report stands for, if it has a bit at all. */
  function Due(slots: seq<Slot>, rep: Report): seq<Call>
    requires rep.slot < |slots|
  {
    if rep.bits == NO_BITS then []
    else [Call(rep.slot, slots[rep.slot].fd, slots[rep.slot].handler)]
  }

  /** Processing a report makes exactly that callback: the second test of the loop body never fires
      on what the first callback has left in the slot. */
  lemma ProcessOnce(t: Table, rep: Report, a: Answers)
    requires Inv(t) && Reported(t, rep) && ReportPossible(t, rep, a)
    ensures rep.slot < |t.slots|
    ensures Inv(Process(t, rep, a))
    ensures Process(t, rep, a).calls == t.calls + Due(t.slots, rep)
    ensures Process(t, rep, a) == if rep.bits == NO_BITS then t
                                  else Callback(t, rep.slot, if rep.bits.input then a.first else a.second)
  {
    ReportedActive(t, rep);
    assert ActiveOk(t, rep.slot);
    assert t.calls + [] == t.calls;
    if rep.bits.input {
      CallbackKeepsInv(t, rep.slot, a.first);
      CallbackCalls(t, rep.slot, a.first);
    } else if rep.bits.output {
      CallbackKeepsInv(t, rep.slot, a.second);
      CallbackCalls(t, rep.slot, a.second);
    }
  }

  lemma CallbackCalls(t: Table, i: nat, io: IO)
    requires Inv(t) && i < |t.slots| && Possible(t, i, io)
    ensures Callback(t, i, io).calls == t.calls + [Call(i, t.slots[i].fd, t.slots[i].handler)]
  {
  }

  /** A callback changes no other active slot: `handle_accept` takes a free one. */
  lemma CallbackUntouched(t: Table, i: nat, io: IO, j: nat)
    requires Inv(t) && i < |t.slots| && t.slots[i].active && Possible(t, i, io)
    requires j < |t.slots| && j != i && t.slots[j].active
    ensures Callback(t, i, io).slots[j] == t.slots[j]
  {
    assert ActiveOk(t, i);
  }

  /** A report that is still to be processed is as good as when it was polled. */
  lemma ReportStays(t: Table, rep: Report, a: Answers, other: Report)
    requires Inv(t) && Reported(t, rep) && ReportPossible(t, rep, a)
    requires Reported(t, other) && other.slot != rep.slot
    ensures rep.slot < |t.slots| && other.slot < |t.slots|
    ensures Process(t, rep, a).slots[other.slot] == t.slots[other.slot]
    ensures Reported(Process(t, rep, a), other)
  {
    ReportedActive(t, rep);
    ReportedActive(t, other);
    ProcessOnce(t, rep, a);
    var t' := Process(t, rep, a);
    if rep.bits != NO_BITS {
      CallbackUntouched(t, rep.slot, if rep.bits.input then a.first else a.second, other.slot);
    }
    assert ActiveOk(t', other.slot);
    assert t'.kernel[t'.slots[other.slot].fd].slot == other.slot;
  }

  ghost predicate InTable(slots: seq<Slot>, batch: seq<Report>) {
    forall k :: 0 <= k < |batch| ==> batch[k].slot < |slots|
  }

  ghost predicate SameSlots(a: seq<Slot>, b: seq<Slot>, batch: seq<Report>) {
    forall k :: 0 <= k < |batch| ==> batch[k].slot < |a| && batch[k].slot < |b| && a[batch[k].slot] == b[batch[k].slot]
  }

  /** The callbacks a batch stands for, with the descriptors and handlers of the moment it was polled. */
  ghost function AllDue(slots: seq<Slot>, batch: seq<Report>): seq<Call>
    requires InTable(slots, batch)
  {
    if batch == [] then [] else Due(slots, batch[0]) + AllDue(slots, batch[1..])
  }

  lemma {:induction false} AllDueSame(a: seq<Slot>, b: seq<Slot>, batch: seq<Report>)
    requires SameSlots(a, b, batch)
    ensures AllDue(a, batch) == AllDue(b, batch)
  {
    if batch == [] {
    } else {
      AllDueSame(a, b, batch[1..]);
    }
  }

  /** After the first report of a batch the rest is as good as when it was polled. */
  lemma RestStays(t: Table, batch: seq<Report>, a: Answers)
    requires Inv(t) && Polled(t, batch) && batch != [] && ReportPossible(t, batch[0], a)
    ensures var t1 := Process(t, batch[0], a);
            Inv(t1) && Polled(t1, batch[1..]) && SameSlots(t.slots, t1.slots, batch[1..])
    ensures InTable(t.slots, batch)
    ensures Process(t, batch[0], a).calls == t.calls + Due(t.slots, batch[0])
  {
    ProcessOnce(t, batch[0], a);
    var t1, rest := Process(t, batch[0], a), batch[1..];
    forall k | 0 <= k < |rest|
      ensures Reported(t1, rest[k]) && rest[k].slot < |t.slots| && t.slots[rest[k].slot] == t1.slots[rest[k].slot]
    {
      assert Reported(t, batch[k + 1]);
      ReportStays(t, batch[0], a, batch[k + 1]);
    }
    forall k | 0 <= k < |batch|
      ensures batch[k].slot < |t.slots|
    {
      ReportedActive(t, batch[k]);
    }
  }

  /** Batch dispatch is never stale: whatever earlier events of the batch have closed or reused, each
      event with a bit causes exactly one callback, in order, with the slot, the descriptor and the
      handler it had when it was polled; and table and kernel still agree afterwards. */
  lemma {:induction false} DispatchNeverStale(t: Table, batch: seq<Report>, answers: seq<Answers>)
    requires Inv(t) && Polled(t, batch) && BatchPossible(t, batch, answers)
    ensures InTable(t.slots, batch)
    ensures Inv(Dispatch(t, batch, answers))
    ensures Dispatch(t, batch, answers).calls == t.calls + AllDue(t.slots, batch)
    decreases |batch|
  {
    if batch == [] {
      assert t.calls + [] == t.calls;
    } else {
      RestStays(t, batch, answers[0]);
      var t1 := Process(t, batch[0], answers[0]);
      DispatchNeverStale(t1, batch[1..], answers[1..]);
      AllDueSame(t1.slots, t.slots, batch[1..]);
      Regroup(t.calls, Due(t.slots, batch[0]), AllDue(t.slots, batch[1..]));
    }
  }

  lemma PrefixPossible(t: Table, batch: seq<Report>, answers: seq<Answers>, k: nat)
    requires Sized(t) && 0 < k <= |batch| == |answers|
    requires BatchPossible(t, batch[..k], answers[..k])
    ensures ReportPossible(t, batch[0], answers[0])
    ensures BatchPossible(Process(t, batch[0], answers[0]), batch[1..][..k - 1], answers[1..][..k - 1])
    ensures Dispatch(t, batch[..k], answers[..k])
            == Dispatch(Process(t, batch[0], answers[0]), batch[1..][..k - 1], answers[1..][..k - 1])
  {
    assert batch[..k][0] == batch[0] && answers[..k][0] == answers[0];
    assert batch[..k][1..] == batch[1..][..k - 1] && answers[..k][1..] == answers[1..][..k - 1];
  }

  lemma LaterSlotStays(t: Table, batch: seq<Report>, a: Answers, j: nat)
    requires Inv(t) && Polled(t, batch) && 0 < j < |batch| && ReportPossible(t, batch[0], a)
    ensures batch[j].slot < |t.slots|
    ensures Process(t, batch[0], a).slots[batch[j].slot] == t.slots[batch[j].slot]
  {
    RestStays(t, batch, a);
    assert batch[1..][j - 1] == batch[j];
  }

  /** Throughout the loop, the slot `x` of every event that is still to come is untouched. */
  lemma {:induction false} PendingUntouched(t: Table, batch: seq<Report>, answers: seq<Answers>, k: nat, j: nat, x: nat)
    requires Inv(t) && Polled(t, batch) && k <= j < |batch| && batch[j].slot == x
    requires |answers| == |batch| && BatchPossible(t, batch[..k], answers[..k])
    ensures x < |t.slots|
    ensures Dispatch(t, batch[..k], answers[..k]).slots[x] == t.slots[x]
    decreases k
  {
    ReportedActive(t, batch[j]);
    if k > 0 {
      PrefixPossible(t, batch, answers, k);
      LaterSlotStays(t, batch, answers[0], j);
      RestStays(t, batch, answers[0]);
      PendingUntouched(Process(t, batch[0], answers[0]), batch[1..], answers[1..], k - 1, j - 1, x);
    }
  }

  // ---------------------------------------------------------------- whole runs

  datatype Turn = Turn(batch: seq<Report>, answers: seq<Answers>)

  ghost predicate Runs(t: Table, turns: seq<Turn>)
    requires Sized(t)
    decreases |turns|
  {
    turns == []
    || (&& Polled(t, turns[0].batch) && BatchPossible(t, turns[0].batch, turns[0].answers)
        && Runs(Dispatch(t, turns[0].batch, turns[0].answers), turns[1..]))
  }

  ghost function Run(t: Table, turns: seq<Turn>): Table
    requires Sized(t) && Runs(t, turns)
    decreases |turns|
  {
    if turns == [] then t else Run(Dispatch(t, turns[0].batch, turns[0].answers), turns[1..])
  }

  lemma {:induction false} RunKeepsInv(t: Table, turns: seq<Turn>)
    requires Inv(t) && Runs(t, turns)
    ensures Inv(Run(t, turns))
    decreases |turns|
  {
    if turns == [] {
    } else {
      DispatchNeverStale(t, turns[0].batch, turns[0].answers);
      RunKeepsInv(Dispatch(t, turns[0].batch, turns[0].answers), turns[1..]);
    }
  }

  /** The slot table agrees with the kernel in every reachable state, for any table size: a slot is
      active exactly if its descriptor is in the interest set with this slot as data and its `events`
      as mask; receiving slots wait for input and sending slots for output; active slots have distinct
      open descriptors; the listener keeps its slot; no epoll_ctl and no close ever failed. */
  lemma TableAgreesWithKernel(maxEvents: nat, listenFd: int, turns: seq<Turn>, i: nat)
    requires Runs(Start(maxEvents, listenFd), turns) && i <= maxEvents
    ensures var t := Run(Start(maxEvents, listenFd), turns);
            && Inv(t) && t.failures == 0 && Max(t) == maxEvents
            && (var s := t.slots[i];
                && (s.active <==> s.fd in t.kernel && t.kernel[s.fd].slot == i)
                && (s.active ==>
                      && t.kernel[s.fd].bits == s.events && s.fd in t.open
                      && (s.handler == HandleRecv ==> s.events == IN)
                      && (s.handler == HandleSend ==> s.events == OUT)
                      && (s.handler == HandleAccept <==> i == maxEvents)
                      && forall j :: 0 <= j < |t.slots| && j != i && t.slots[j].active ==> t.slots[j].fd != s.fd))
            && t.slots[maxEvents].active && t.slots[maxEvents].fd == listenFd
  {
    StartInv(maxEvents, listenFd);
    RunKeepsInv(Start(maxEvents, listenFd), turns);
    RunKeepsListener(Start(maxEvents, listenFd), turns);
    var t := Run(Start(maxEvents, listenFd), turns);
    var s := t.slots[i];
    if s.active {
      assert ActiveOk(t, i) && EntryOk(t, s.fd);
      forall j | 0 <= j < |t.slots| && j != i && t.slots[j].active
        ensures t.slots[j].fd != s.fd
      {
        ActiveSlotsDiffer(t, i, j);
      }
    }
    if s.fd in t.kernel && t.kernel[s.fd].slot == i {
      assert EntryOk(t, s.fd);
    }
  }

  lemma CallbackKeepsListener(t: Table, i: nat, io: IO)
    requires Inv(t) && i < |t.slots| && t.slots[i].active && Possible(t, i, io)
    ensures Callback(t, i, io).slots[Max(t)] == t.slots[Max(t)]
  {
    assert ActiveOk(t, i);
  }

  lemma {:induction false} DispatchKeepsListener(t: Table, batch: seq<Report>, answers: seq<Answers>)
    requires Inv(t) && Polled(t, batch) && BatchPossible(t, batch, answers)
    ensures |Dispatch(t, batch, answers).slots| == |t.slots|
    ensures Dispatch(t, batch, answers).slots[Max(t)] == t.slots[Max(t)]
    decreases |batch|
  {
    if batch != [] {
      var t1 := Process(t, batch[0], answers[0]);
      ReportedActive(t, batch[0]);
      ProcessOnce(t, batch[0], answers[0]);
      if batch[0].bits != NO_BITS {
        CallbackKeepsListener(t, batch[0].slot, if batch[0].bits.input then answers[0].first else answers[0].second);
      }
      RestStays(t, batch, answers[0]);
      DispatchKeepsListener(t1, batch[1..], answers[1..]);
    }
  }

  lemma {:induction false} RunKeepsListener(t: Table, turns: seq<Turn>)
    requires Inv(t) && Runs(t, turns)
    ensures |Run(t, turns).slots| == |t.slots| && Run(t, turns).slots[Max(t)] == t.slots[Max(t)]
    decreases |turns|
  {
    if turns != [] {
      var t1 := Dispatch(t, turns[0].batch, turns[0].answers);
      DispatchNeverStale(t, turns[0].batch, turns[0].answers);
      DispatchKeepsListener(t, turns[0].batch, turns[0].answers);
      RunKeepsListener(t1, turns[1..]);
    }
  }

  // ---------------------------------------------------------------- echo

  function Flat(parts: seq<seq<Byte>>): seq<Byte> {
    if parts == [] then [] else parts[0] + Flat(parts[1..])
  }

  /** Every send took everything it was offered. */
  ghost predicate Complete(st: Stream)
    requires |st.echoes| <= |st.rounds|
  {
    forall k :: 0 <= k < |st.echoes| ==> |st.echoes[k]| == |st.rounds[k]|
  }

  lemma {:induction false} FlatCompare(echoes: seq<seq<Byte>>, rounds: seq<seq<Byte>>)
    requires |echoes| == |rounds| && forall k :: 0 <= k < |echoes| ==> echoes[k] <= rounds[k]
    ensures |Flat(echoes)| <= |Flat(rounds)|
    ensures Flat(echoes) == Flat(rounds) <==> forall k :: 0 <= k < |echoes| ==> |echoes[k]| == |rounds[k]|
  {
    if echoes != [] {
      FlatCompare(echoes[1..], rounds[1..]);
      if |echoes[0]| == |rounds[0]| {
        assert echoes[0] == rounds[0];
        if Flat(echoes) == Flat(rounds) {
          assert Flat(echoes)[|echoes[0]|..] == Flat(echoes[1..]);
          assert Flat(rounds)[|echoes[0]|..] == Flat(rounds[1..]);
        }
        assert forall k :: 0 <= k < |echoes[1..]| ==> echoes[1..][k] == echoes[k + 1] && rounds[1..][k] == rounds[k + 1];
      }
    }
  }

  /** A stream as a whole: the output is a concatenation of prefixes of the rounds it answers, and it
      equals what has been received, up to a round that is still to be answered, exactly if every send
      was complete. */
  lemma EchoExact(st: Stream)
    requires Echoed(st)
    ensures Flat(st.echoes) == Flat(st.rounds[..|st.echoes|]) <==> Complete(st)
    ensures |st.rounds| - |st.echoes| <= 1
  {
    FlatCompare(st.echoes, st.rounds[..|st.echoes|]);
    assert forall k :: 0 <= k < |st.echoes| ==> st.rounds[..|st.echoes|][k] == st.rounds[k];
  }

  /** Per-connection echo in every run, however connections are interleaved and descriptors and slots
      reused: a slot that waits to send offers exactly the last bytes received on its own connection,
      and the output of each connection, live or closed, is its input exactly if its sends were
      complete. */
  lemma ConnectionsEcho(maxEvents: nat, listenFd: int, turns: seq<Turn>)
    requires Runs(Start(maxEvents, listenFd), turns)
    ensures var t := Run(Start(maxEvents, listenFd), turns);
            && Sized(t) && Max(t) == maxEvents
            && (forall i :: 0 <= i < maxEvents && t.slots[i].active ==>
                  && t.slots[i].fd in t.streams
                  && var st := t.streams[t.slots[i].fd];
                     && Echoed(st)
                     && (Flat(st.echoes) == Flat(st.rounds[..|st.echoes|]) <==> Complete(st))
                     && (t.slots[i].handler == HandleRecv ==> |st.echoes| == |st.rounds|)
                     && (t.slots[i].handler == HandleSend ==>
                           |st.echoes| + 1 == |st.rounds| && t.slots[i].buf[..t.slots[i].len] == st.rounds[|st.echoes|]))
            && (forall k :: 0 <= k < |t.finished| ==>
                  && Echoed(t.finished[k])
                  && (Flat(t.finished[k].echoes) == Flat(t.finished[k].rounds[..|t.finished[k].echoes|])
                      <==> Complete(t.finished[k])))
  {
    StartInv(maxEvents, listenFd);
    RunKeepsInv(Start(maxEvents, listenFd), turns);
    RunKeepsListener(Start(maxEvents, listenFd), turns);
    var t := Run(Start(maxEvents, listenFd), turns);
    forall i | 0 <= i < maxEvents && t.slots[i].active
      ensures ActiveOk(t, i) && EchoIff(t.streams[t.slots[i].fd])
    {
      EchoExact(t.streams[t.slots[i].fd]);
    }
    forall k | 0 <= k < |t.finished|
      ensures EchoIff(t.finished[k])
    {
      EchoExact(t.finished[k]);
    }
  }

  ghost predicate EchoIff(st: Stream) {
    Echoed(st) && (Flat(st.echoes) == Flat(st.rounds[..|st.echoes|]) <==> Complete(st))
  }
}
