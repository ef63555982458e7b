/** The descriptors that simple_epoll loses: `handle_accept` never closes a connection for which there is
    no free slot, or whose `set_non_block` fails. */
module SlotLeaks {
  import opened Slots
  import opened SlotSafety

  /** The descriptors of the active slots. */
  ghost function Fds(t: Table): set<int> {
    set i | 0 <= i < |t.slots| && t.slots[i].active :: t.slots[i].fd
  }

  /** The open descriptors that no slot knows. */
  ghost function Lost(t: Table): set<int> {
    t.open - Fds(t)
  }

  /** What an accepted connection adds to them, by what can be seen before the call. */
  ghost function Dropped(t: Table, a: Accepted): set<int>
    requires Sized(t)
  {
    if a.Connection? && (FirstFree(t.slots, Max(t)) == Max(t) || !a.nonBlocking) then {a.fd} else {}
  }

  ghost function DroppedBy(t: Table, i: nat, io: IO): set<int>
    requires Sized(t) && i < |t.slots|
  {
    if t.slots[i].handler == HandleAccept then Dropped(t, io.accepted) else {}
  }

  lemma SlotHasFd(t: Table, i: nat)
    requires i < |t.slots| && t.slots[i].active
    ensures t.slots[i].fd in Fds(t)
  {
  }

  /** Every descriptor in the table is open. */
  lemma FdsAreOpen(t: Table)
    requires Inv(t)
    ensures Fds(t) <= t.open
  {
    forall fd | fd in Fds(t)
      ensures fd in t.open
    {
      var i :| 0 <= i < |t.slots| && t.slots[i].active && t.slots[i].fd == fd;
      assert ActiveOk(t, i) && EntryOk(t, fd);
    }
  }

  /** A slot that stays active with its descriptor. */
  lemma SameFd(t: Table, t': Table, i: nat)
    requires i < |t.slots| == |t'.slots| && t.slots[i].active && t'.slots[i].active && t'.slots[i].fd == t.slots[i].fd
    requires forall j :: 0 <= j < |t.slots| && j != i ==> t'.slots[j] == t.slots[j]
    ensures Fds(t') == Fds(t)
  {
    forall fd | fd in Fds(t)
      ensures fd in Fds(t')
    {
      var j :| 0 <= j < |t.slots| && t.slots[j].active && t.slots[j].fd == fd;
      SlotHasFd(t', j);
    }
    forall fd | fd in Fds(t')
      ensures fd in Fds(t)
    {
      var j :| 0 <= j < |t'.slots| && t'.slots[j].active && t'.slots[j].fd == fd;
      SlotHasFd(t, j);
    }
  }

  /** A free slot that becomes active. */
  lemma NewFd(t: Table, t': Table, i: nat)
    requires i < |t.slots| == |t'.slots| && !t.slots[i].active && t'.slots[i].active
    requires forall j :: 0 <= j < |t.slots| && j != i ==> t'.slots[j] == t.slots[j]
    ensures Fds(t') == Fds(t) + {t'.slots[i].fd}
  {
    SlotHasFd(t', i);
    forall fd | fd in Fds(t)
      ensures fd in Fds(t')
    {
      var j :| 0 <= j < |t.slots| && t.slots[j].active && t.slots[j].fd == fd;
      SlotHasFd(t', j);
    }
    forall fd | fd in Fds(t') && fd != t'.slots[i].fd
      ensures fd in Fds(t)
    {
      var j :| 0 <= j < |t'.slots| && t'.slots[j].active && t'.slots[j].fd == fd;
      SlotHasFd(t, j);
    }
  }

  /** An active slot that becomes free. */
  lemma FreedFd(t: Table, t': Table, i: nat)
    requires Inv(t) && i < |t.slots| == |t'.slots| && t.slots[i].active && !t'.slots[i].active
    requires forall j :: 0 <= j < |t.slots| && j != i ==> t'.slots[j] == t.slots[j]
    ensures Fds(t') == Fds(t) - {t.slots[i].fd}
  {
    forall fd | fd in Fds(t) && fd != t.slots[i].fd
      ensures fd in Fds(t')
    {
      var j :| 0 <= j < |t.slots| && t.slots[j].active && t.slots[j].fd == fd;
      SlotHasFd(t', j);
    }
    forall fd | fd in Fds(t')
      ensures fd in Fds(t) && fd != t.slots[i].fd
    {
      var j :| 0 <= j < |t'.slots| && t'.slots[j].active && t'.slots[j].fd == fd;
      SlotHasFd(t, j);
      ActiveSlotsDiffer(t, i, j);
    }
  }

  lemma AcceptLoses(t: Table, a: Accepted)
    requires Inv(t) && (a.Connection? ==> a.fd !in t.open)
    ensures Lost(OnAccept(t, a)) == Lost(t) + Dropped(t, a)
  {
    FdsAreOpen(t);
    if a.Connection? {
      var i := FirstFree(t.slots, Max(t));
      if i < Max(t) && a.nonBlocking {
        AcceptNet(t, a.fd);
        NewFd(t, OnAccept(t, a), i);
      } else {
        assert Fds(OnAccept(t, a)) == Fds(t);
      }
    }
  }

  lemma EndLoses(t: Table, i: nat)
    requires Inv(t) && i < Max(t) && t.slots[i].active
    ensures Lost(Finish(EventDel(t, i), t.slots[i].fd)) == Lost(t)
  {
    EndNet(t, i);
    SlotHasFd(t, i);
    FreedFd(t, Finish(EventDel(t, i), t.slots[i].fd), i);
  }

  /** One callback loses exactly the connection that it accepts without a free slot, or that does not
      become non-blocking; and nothing that is lost is ever found again. */
  lemma CallbackLoses(t: Table, i: nat, io: IO)
    requires Inv(t) && i < |t.slots| && t.slots[i].active && Possible(t, i, io)
    ensures Lost(Callback(t, i, io)) == Lost(t) + DroppedBy(t, i, io)
  {
    assert ActiveOk(t, i);
    var s := t.slots[i];
    var t1 := t.(calls := t.calls + [Call(i, s.fd, s.handler)]);
    CallsDoNotMatter(t, t1.calls);
    assert Fds(t1) == Fds(t);
    match s.handler
    case HandleAccept => AcceptLoses(t1, io.accepted);
    case HandleRecv =>
      if io.received.Data? {
        RecvNet(t1, i, io.received.bytes);
        SameFd(t1, OnRecv(t1, i, io.received), i);
      } else {
        EndLoses(t1, i);
      }
    case HandleSend =>
      if io.sent > 0 {
        SendNet(t1, i, io.sent);
        SameFd(t1, OnSend(t1, i, io.sent), i);
      } else {
        EndLoses(t1, i);
      }
  }

  // ---------------------------------------------------------------- batches and runs

  /** What one report drops: the answer that counts is that of the callback it causes. */
  ghost function DroppedIn(t: Table, rep: Report, a: Answers): set<int>
    requires Sized(t) && rep.slot < |t.slots|
  {
    if rep.bits == NO_BITS then {} else DroppedBy(t, rep.slot, if rep.bits.input then a.first else a.second)
  }

  lemma ProcessLoses(t: Table, rep: Report, a: Answers)
    requires Inv(t) && Reported(t, rep) && ReportPossible(t, rep, a)
    ensures Lost(Process(t, rep, a)) == Lost(t) + DroppedIn(t, rep, a)
  {
    ReportedActive(t, rep);
    ProcessOnce(t, rep, a);
    if rep.bits != NO_BITS {
      CallbackLoses(t, rep.slot, if rep.bits.input then a.first else a.second);
    }
  }

  ghost function DroppedInBatch(t: Table, batch: seq<Report>, answers: seq<Answers>): set<int>
    requires Sized(t) && BatchPossible(t, batch, answers)
    decreases |batch|
  {
    if batch == [] then {}
    else
      DroppedIn(t, batch[0], answers[0]) + DroppedInBatch(Process(t, batch[0], answers[0]), batch[1..], answers[1..])
  }

  lemma {:induction false} DispatchLoses(t: Table, batch: seq<Report>, answers: seq<Answers>)
    requires Inv(t) && Polled(t, batch) && BatchPossible(t, batch, answers)
    ensures Lost(Dispatch(t, batch, answers)) == Lost(t) + DroppedInBatch(t, batch, answers)
    decreases |batch|
  {
    if batch == [] {
    } else {
      RestStays(t, batch, answers[0]);
      ProcessLoses(t, batch[0], answers[0]);
      DispatchLoses(Process(t, batch[0], answers[0]), batch[1..], answers[1..]);
    }
  }

  ghost function DroppedInRun(t: Table, turns: seq<Turn>): set<int>
    requires Sized(t) && Runs(t, turns)
    decreases |turns|
  {
    if turns == [] then {}
    else
      DroppedInBatch(t, turns[0].batch, turns[0].answers)
      + DroppedInRun(Dispatch(t, turns[0].batch, turns[0].answers), turns[1..])
  }

  lemma {:induction false} RunLoses(t: Table, turns: seq<Turn>)
    requires Inv(t) && Runs(t, turns)
    ensures Lost(Run(t, turns)) == Lost(t) + DroppedInRun(t, turns)
    decreases |turns|
  {
    if turns == [] {
    } else {
      DispatchNeverStale(t, turns[0].batch, turns[0].answers);
      DispatchLoses(t, turns[0].batch, turns[0].answers);
      RunLoses(Dispatch(t, turns[0].batch, turns[0].answers), turns[1..]);
    }
  }

  /** Over every run of the server the open descriptors are those of the active slots and, besides them,
      exactly the connections that were dropped; so the two agree if and only if no connection was ever
      accepted without a free slot or without becoming non-blocking. */
  lemma OpenIffDropped(maxEvents: nat, listenFd: int, turns: seq<Turn>)
    requires Runs(Start(maxEvents, listenFd), turns)
    ensures var t := Run(Start(maxEvents, listenFd), turns);
            var dropped := DroppedInRun(Start(maxEvents, listenFd), turns);
            && t.open == Fds(t) + dropped && Fds(t) !! dropped
            && (t.open == Fds(t) <==> dropped == {})
  {
    var t0 := Start(maxEvents, listenFd);
    StartInv(maxEvents, listenFd);
    SlotHasFd(t0, maxEvents);
    assert Lost(t0) == {};
    RunKeepsInv(t0, turns);
    RunLoses(t0, turns);
    FdsAreOpen(Run(t0, turns));
  }

  /** It happens: a server with no slot but the listener's loses every connection it accepts. */
  lemma NoSlotLoses(listenFd: int, fd: int)
    requires fd != listenFd
    ensures var t := Start(0, listenFd);
            Sized(t) && fd in Lost(OnAccept(t, Connection(fd, true)))
  {
    var t := Start(0, listenFd);
    StartInv(0, listenFd);
    AcceptLoses(t, Connection(fd, true));
  }
}
