/** The end of `SocketReactor::run`: the shutdown notification goes to every notifier there is, and each
    echo handler that gets it deletes itself. */
module EchoShutdown {
  import opened Registry
  import opened RegistryAgreement
  import opened RegistryKeys
  import opened RegistryHistory
  import opened Dispatching
  import opened DispatchSafety
  import opened Echo
  import opened EchoRegistrations
  import opened EchoRounds
  import opened Sequences

  // ---------------------------------------------------------------- dispatches in general

  /** A list without an observer that accepts the notification. */
  ghost predicate Deaf(cells: seq<Cell>, k: Kind) {
    forall i :: 0 <= i < |cells| ==> !Accepts(cells[i].key.filter, k)
  }

  lemma {:induction false} PostDeaf(w: World, s: Socket, k: Kind, cells: seq<Cell>, script: Script)
    requires Linked(w.reg) && Deaf(cells, k)
    ensures Post(w, s, k, cells, script) == (w, false)
    decreases |cells|
  {
    if cells == [] {
    } else {
      PostDeaf(w, s, k, cells[1..], script);
    }
  }

  /** Exactly one observer of a list accepts the notification, and it is enabled. */
  lemma PostToOne(w: World, s: Socket, k: Kind, cells: seq<Cell>, i: nat, script: Script)
    requires Linked(w.reg) && i < |cells|
    requires cells[i].id in w.reg.enabled && Accepts(cells[i].key.filter, k)
    requires Deaf(cells[..i], k) && Deaf(cells[i + 1..], k)
    ensures Post(w, s, k, cells, script).0
            == World(ExecuteAll(w.reg, script(|w.log|).cmds), w.log + [Delivery(s, k, cells[i], w.reg)])
  {
    PostDeaf(w, s, k, cells[..i], script);
    PostStep(w, s, k, cells, script, i);
    var (w1, threw) := Notify(w, s, k, cells[i], script);
    if !threw {
      assert cells == cells[..i + 1] + cells[i + 1..];
      PostAppend(w, s, k, cells[..i + 1], cells[i + 1..], script);
      PostDeaf(w1, s, k, cells[i + 1..], script);
    }
  }

  lemma DispatchToGrowsLog(w: World, nid: nat, k: Kind, script: Script)
    requires Linked(w.reg)
    ensures w.log <= DispatchTo(w, nid, k, script).log
  {
    if nid < |w.reg.notifiers| {
      PostLog(w, w.reg.notifiers[nid].socket, k, w.reg.notifiers[nid].observers, script);
    }
  }

  lemma {:induction false} DispatchAllGrowsLog(w: World, delegates: seq<nat>, k: Kind, script: Script)
    requires Linked(w.reg)
    ensures w.log <= DispatchAll(w, delegates, k, script).log
    decreases |delegates|
  {
    if delegates == [] {
    } else {
      DispatchToGrowsLog(w, delegates[0], k, script);
      DispatchAllGrowsLog(DispatchTo(w, delegates[0], k, script), delegates[1..], k, script);
    }
  }

  // ---------------------------------------------------------------- one connection

  lemma OthersAreDeaf(cells: seq<Cell>, i: nat, o: nat)
    requires i < |cells| && DistinctKeys(cells) && cells[i].key == ShutdownKey(o)
    requires forall j :: 0 <= j < |cells| ==> cells[j].key == ReadKey(o) || cells[j].key == WriteKey(o) || cells[j].key == ShutdownKey(o)
    ensures Deaf(cells[..i], Shutdown) && Deaf(cells[i + 1..], Shutdown)
  {
    assert forall j :: 0 <= j < |cells| && j != i ==> cells[j].key != cells[i].key;
  }

  /** The observers on the socket of a connection are its handler's, with the one for shutdown among
      them. */
  lemma HandlersObservers(base: Reg, v: Server, s: Socket) returns (i: nat)
    requires Sane(base, v) && s in v.conns
    ensures s in v.ids && s in v.reg.handlers
    ensures var o, cells := v.ids[s], ObserversOf(v.reg, s);
            && i < |cells| && cells[i].key == ShutdownKey(o)
            && forall j :: 0 <= j < |cells| ==> cells[j].key == ReadKey(o) || cells[j].key == WriteKey(o) || cells[j].key == ShutdownKey(o)
  {
    assert ConnShown(base, v, s);
    var o, cells := v.ids[s], ObserversOf(v.reg, s);
    assert ShutdownKey(o) in KeysOf(v.reg, s);
    i :| 0 <= i < |cells| && cells[i].key == ShutdownKey(o);
    forall j | 0 <= j < |cells|
      ensures cells[j].key in KeysOf(v.reg, s)
    {
    }
  }

  /** Where the shutdown observer of a live handler is in the list of its socket. */
  lemma ShutdownObserver(base: Reg, v: Server, s: Socket) returns (i: nat)
    requires Sane(base, v) && s in v.conns
    ensures s in v.ids && s in v.reg.handlers
    ensures var cells := ObserversOf(v.reg, s);
            && i < |cells| && cells[i].key == ShutdownKey(v.ids[s]) && cells[i].id in v.reg.enabled
            && Deaf(cells[..i], Shutdown) && Deaf(cells[i + 1..], Shutdown)
  {
    i := HandlersObservers(base, v, s);
    var cells := ObserversOf(v.reg, s);
    assert NotifierOk(v.reg, v.reg.handlers[s]) && CellOk(v.reg, v.reg.handlers[s], cells[i]);
    OthersAreDeaf(cells, i, v.ids[s]);
  }

  /** The notification reaches the handler and nobody else on its socket. */
  lemma ShutdownOne(base: Reg, v: Server, w: World, s: Socket, script: Script) returns (d: Delivery)
    requires Sane(base, v) && w.reg == v.reg && s in v.conns
    ensures s in v.ids && s in v.reg.handlers
    ensures d.socket == s && d.cell.key == ShutdownKey(v.ids[s])
    ensures DispatchTo(w, v.reg.handlers[s], Shutdown, script)
            == World(ExecuteAll(w.reg, script(|w.log|).cmds), w.log + [d])
  {
    var i := ShutdownObserver(base, v, s);
    var cells := ObserversOf(v.reg, s);
    assert v.reg.notifiers[v.reg.handlers[s]].socket == s;
    PostToOne(w, s, Shutdown, cells, i, script);
    d := Delivery(s, Shutdown, cells[i], w.reg);
  }

  /** None of the reactor's own observers wants to hear of the end. */
  ghost predicate OwnAreDeaf(base: Reg)
    requires Linked(base)
  {
    forall s :: s in base.handlers ==> Deaf(ObserversOf(base, s), Shutdown)
  }

  lemma OwnHearNothing(base: Reg, v: Server, w: World, s: Socket, script: Script)
    requires Sane(base, v) && OwnAreDeaf(base) && w.reg == v.reg && s in v.reg.handlers && s !in v.conns
    ensures DispatchTo(w, v.reg.handlers[s], Shutdown, script) == w
  {
    assert SameAt(base, v.reg, s);
    PostDeaf(w, v.reg.notifiers[v.reg.handlers[s]].socket, Shutdown, ObserversOf(v.reg, s), script);
  }

  lemma EndedAlone(base: Reg, v: Server, s: Socket)
    requires Sane(base, v) && Echo.Enabled(v, Callback(s, SocketShutdown))
    ensures var v1 := Next(v, Callback(s, SocketShutdown));
            && v1.conns == v.conns - {s}
            && forall t :: t != s ==> SameAt(v.reg, v1.reg, t)
  {
    var e := Callback(s, SocketShutdown);
    EventOk(base, v, e);
    forall t | t != s
      ensures SameAt(v.reg, Next(v, e).reg, t)
    {
      ExecuteAllFrame(v.reg, Cmds(v, e), s, t);
    }
  }

  lemma OneEvent(v: Server, e: ServerEvent)
    requires Linked(v.reg) && EnabledRun(v, [e])
    ensures Echo.Enabled(v, e) && ServerRun(v, [e]) == Next(v, e)
  {
    assert [e][1..] == [];
  }

  /** The handler's callback takes its connection out of the server, and touches no other socket. */
  lemma HandlerEnds(base: Reg, v: Server, d: Delivery, reply: Reply, action: Action)
    requires Sane(base, v) && d.socket in v.conns && d.socket in v.ids && d.cell.key == ShutdownKey(v.ids[d.socket])
    requires Answerable(v, d, reply) && Serves(v, d, reply, action)
    ensures var es := EventsOf(v, d, reply);
            var v1 := AfterEvents(v, es);
            && LeadsTo(v, es, v1) && Sane(base, v1)
            && v1.reg == ExecuteAll(v.reg, action.cmds)
            && v1.conns == v.conns - {d.socket}
            && forall t :: t != d.socket ==> SameAt(v.reg, v1.reg, t)
  {
    ServeStep(base, v, d, reply, action);
    OneEvent(v, Callback(d.socket, SocketShutdown));
    EndedAlone(base, v, d.socket);
  }

  lemma PlayedNext(v: Server, log: seq<Delivery>, k: nat, plan: Plan, script: Script)
    requires Linked(v.reg) && k < |log| && Played(v, log, k, plan, script)
    ensures var es := EventsOf(v, log[k], plan(k));
            && Answerable(v, log[k], plan(k)) && Serves(v, log[k], plan(k), script(k))
            && Played(AfterEvents(v, es), log, k + 1, plan, script)
            && EventsFrom(v, log, k, plan) == es + EventsFrom(AfterEvents(v, es), log, k + 1, plan)
  {
  }

  // ---------------------------------------------------------------- the broadcast

  /** What is left of a broadcast: the sockets still to be told, with their notifiers, among them all
      that have a connection. */
  ghost predicate StillToTell(v: Server, order: seq<Socket>, delegates: seq<nat>)
    requires Linked(v.reg)
  {
    && |order| == |delegates|
    && (forall i, j :: 0 <= i < j < |order| ==> order[i] != order[j])
    && (forall i :: 0 <= i < |order| ==> order[i] in v.reg.handlers && v.reg.handlers[order[i]] == delegates[i])
    && (forall s :: s in v.conns ==> s in order)
  }

  lemma TellRest(v: Server, v1: Server, order: seq<Socket>, delegates: seq<nat>)
    requires Linked(v.reg) && Linked(v1.reg) && order != [] && StillToTell(v, order, delegates)
    requires forall t :: t != order[0] ==> SameAt(v.reg, v1.reg, t)
    requires v1.conns.Keys <= v.conns.Keys && order[0] !in v1.conns
    ensures StillToTell(v1, order[1..], delegates[1..])
  {
    forall i | 0 <= i < |order[1..]|
      ensures order[1..][i] in v1.reg.handlers && v1.reg.handlers[order[1..][i]] == delegates[1..][i]
    {
      assert SameAt(v.reg, v1.reg, order[i + 1]);
    }
    forall s | s in v1.conns
      ensures s in order[1..]
    {
      var i :| 0 <= i < |order| && order[i] == s;
      assert order[1..][i - 1] == s;
    }
  }

  lemma NobodyLeft(v: Server, order: seq<Socket>)
    requires Linked(v.reg) && StillToTell(v, order, [])
    ensures v.conns == map[]
  {
    assert forall s :: s in v.conns ==> s in order;
  }

  /** The notifier of a connection. */
  lemma TellHandler(base: Reg, v: Server, w: World, s: Socket, log: seq<Delivery>, plan: Plan, script: Script)
    returns (es: seq<ServerEvent>, v1: Server)
    requires Sane(base, v) && w.reg == v.reg && s in v.conns && s in v.reg.handlers
    requires |w.log| <= |log| && DispatchTo(w, v.reg.handlers[s], Shutdown, script).log <= log
    requires Played(v, log, |w.log|, plan, script)
    ensures var w1 := DispatchTo(w, v.reg.handlers[s], Shutdown, script);
            && LeadsTo(v, es, v1) && Sane(base, v1) && v1.reg == w1.reg
            && |w1.log| == |w.log| + 1 && Played(v1, log, |w1.log|, plan, script)
            && EventsFrom(v, log, |w.log|, plan) == es + EventsFrom(v1, log, |w1.log|, plan)
    ensures v1.conns == v.conns - {s} && forall t :: t != s ==> SameAt(v.reg, v1.reg, t)
  {
    var d := ShutdownOne(base, v, w, s, script);
    assert log[|w.log|] == d;
    PlayedNext(v, log, |w.log|, plan, script);
    HandlerEnds(base, v, d, plan(|w.log|), script(|w.log|));
    es := EventsOf(v, d, plan(|w.log|));
    v1 := AfterEvents(v, es);
  }

  /** The next notifier of the broadcast: its events, if it has a connection, and what is left. */
  lemma TellOne(base: Reg, v: Server, w: World, order: seq<Socket>, delegates: seq<nat>, log: seq<Delivery>, plan: Plan, script: Script)
    returns (es: seq<ServerEvent>, v1: Server)
    requires Sane(base, v) && OwnAreDeaf(base) && w.reg == v.reg && delegates != [] && StillToTell(v, order, delegates)
    requires |w.log| <= |log| && DispatchTo(w, delegates[0], Shutdown, script).log <= log
    requires Played(v, log, |w.log|, plan, script)
    ensures var w1 := DispatchTo(w, delegates[0], Shutdown, script);
            && LeadsTo(v, es, v1) && Sane(base, v1) && v1.reg == w1.reg
            && StillToTell(v1, order[1..], delegates[1..])
            && Played(v1, log, |w1.log|, plan, script)
            && EventsFrom(v, log, |w.log|, plan) == es + EventsFrom(v1, log, |w1.log|, plan)
  {
    if order[0] in v.conns {
      es, v1 := TellHandler(base, v, w, order[0], log, plan, script);
      TellRest(v, v1, order, delegates);
    } else {
      OwnHearNothing(base, v, w, order[0], script);
      es, v1 := [], v;
      AppendNothing(EventsFrom(v, log, |w.log|, plan));
      TellRest(v, v, order, delegates);
    }
  }

  lemma {:induction false} TellAll(base: Reg, v: Server, w: World, order: seq<Socket>, delegates: seq<nat>, plan: Plan, script: Script)
    returns (v': Server)
    requires Sane(base, v) && OwnAreDeaf(base) && w.reg == v.reg && StillToTell(v, order, delegates)
    requires |w.log| <= |DispatchAll(w, delegates, Shutdown, script).log|
    requires Played(v, DispatchAll(w, delegates, Shutdown, script).log, |w.log|, plan, script)
    ensures var w' := DispatchAll(w, delegates, Shutdown, script);
            && LeadsTo(v, EventsFrom(v, w'.log, |w.log|, plan), v')
            && Sane(base, v') && v'.reg == w'.reg && v'.conns == map[]
    decreases |delegates|
  {
    if delegates == [] {
      v' := v;
      NobodyLeft(v, order);
    } else {
      var w1 := DispatchTo(w, delegates[0], Shutdown, script);
      var log := DispatchAll(w, delegates, Shutdown, script).log;
      DispatchAllGrowsLog(w1, delegates[1..], Shutdown, script);
      var es, v1 := TellOne(base, v, w, order, delegates, log, plan, script);
      v' := TellAll(base, v1, w1, order[1..], delegates[1..], plan, script);
      LeadsOn(v, es, v1, EventsFrom(v1, log, |w1.log|, plan), v');
    }
  }

  /** The shutdown broadcast over a server in order: every handler gets it and deletes itself, whatever
      its connection was doing, no connection is left, and handlers, poll set and kernel are what they
      were without the server. */
  lemma ShutdownEndsAll(base: Reg, v: Server, w: World, plan: Plan, script: Script)
    requires Sane(base, v) && OwnAreDeaf(base) && w.reg == v.reg
    requires |w.log| <= |Broadcast(w, Shutdown, script).log|
    requires Played(v, Broadcast(w, Shutdown, script).log, |w.log|, plan, script)
    ensures var w' := Broadcast(w, Shutdown, script);
            var es := EventsFrom(v, w'.log, |w.log|, plan);
            && EnabledRun(v, es) && ServerRun(v, es).conns == map[] && ServerRun(v, es).reg == w'.reg
            && SameRegistrations(base, w'.reg)
  {
    var order := Ascending(w.reg.handlers.Keys);
    forall s | s in v.conns
      ensures s in order
    {
      assert ConnShown(base, v, s);
      AscendingCovers(w.reg.handlers.Keys, s);
    }
    var v' := TellAll(base, v, w, order, Delegates(w.reg), plan, script);
    SameEverywhere(base, v'.reg);
  }

  /** The callbacks of the shutdown after these iterations are those of the handlers. */
  ghost predicate EndPlayed(base: Reg, reports: seq<seq<(Socket, Mask)>>, plan: Plan, script: Script)
    requires Linked(base)
  {
    var es, w := LoopEvents(StartServer(base), World(base, []), reports, plan, script), Loop(World(base, []), reports, script);
    var log := Broadcast(w, Shutdown, script).log;
    EnabledRun(StartServer(base), es) && |w.log| <= |log| ==> Played(ServerRun(StartServer(base), es), log, |w.log|, plan, script)
  }

  /** A whole life of the server: from a reactor with observers of its own, any number of iterations of
      the loop and then the shutdown leave its registrations as they were. */
  lemma RunEndsClean(base: Reg, reports: seq<seq<(Socket, Mask)>>, plan: Plan, script: Script)
    requires WF(base) && NoOrphans(base) && OwnAreDeaf(base)
    requires LoopPlayed(StartServer(base), World(base, []), reports, plan, script)
    requires EndPlayed(base, reports, plan, script)
    ensures SameRegistrations(base, Broadcast(Loop(World(base, []), reports, script), Shutdown, script).reg)
  {
    StartOk(base);
    LoopIsEvents(base, StartServer(base), World(base, []), reports, plan, script);
    var v := ServerRun(StartServer(base), LoopEvents(StartServer(base), World(base, []), reports, plan, script));
    var w := Loop(World(base, []), reports, script);
    DispatchAllGrowsLog(w, Delegates(w.reg), Shutdown, script);
    ShutdownEndsAll(base, v, w, plan, script);
  }
}
