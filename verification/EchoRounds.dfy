/** The event loop and the echo service together: when the callbacks of a reactor are those of echo
    handlers, every iteration of `run` amounts to a run of events of the server, so that everything
    proved about such runs holds of the loop. */
module EchoRounds {
  import opened Registry
  import opened RegistryAgreement
  import opened RegistryHistory
  import opened Dispatching
  import opened RoundSafety
  import opened Echo
  import opened EchoRegistrations
  import opened EchoStream
  import opened Sequences

  // ---------------------------------------------------------------- what a callback does

  /** The answers of the system calls in one callback: of `recv` or `send` in a handler, and the
      connections that an observer of the reactor's own, the acceptor's, accepts, each with the identity
      of its new handler. */
  datatype Reply = Reply(recv: Recv, send: Send, accepted: seq<(Socket, nat)>)

  type Plan = nat -> Reply

  /** The member function that a handler's observer calls. */
  function EventOf(key: Key, reply: Reply): Event {
    if key.callback == 0 then SocketReadable(reply.recv)
    else if key.callback == 1 then SocketWritable(reply.send)
    else SocketShutdown
  }

  function Acceptances(accepted: seq<(Socket, nat)>): seq<ServerEvent> {
    if accepted == [] then []
    else [Accept(accepted[0].0, accepted[0].1)] + Acceptances(accepted[1..])
  }

  /** A delivery on the socket of a connection runs its handler; any other one may accept. */
  function EventsOf(v: Server, d: Delivery, reply: Reply): seq<ServerEvent> {
    if d.socket in v.conns then [Callback(d.socket, EventOf(d.cell.key, reply))] else Acceptances(reply.accepted)
  }

  /** What is asked of the kernel alone: `recv` and `send` keep within what they were offered, and
      `accept` returns proper descriptors that are not in use. */
  ghost predicate Answerable(v: Server, d: Delivery, reply: Reply)
    requires Linked(v.reg)
  {
    if d.socket in v.conns then Echo.Possible(v.conns[d.socket], EventOf(d.cell.key, reply))
    else EnabledRun(v, Acceptances(reply.accepted))
  }

  // ---------------------------------------------------------------- runs of events

  /** The calls to the reactor in a run of events. */
  ghost function AllCmds(v: Server, es: seq<ServerEvent>): seq<Cmd>
    requires Linked(v.reg) && EnabledRun(v, es)
    decreases |es|
  {
    if es == [] then [] else Cmds(v, es[0]) + AllCmds(Next(v, es[0]), es[1..])
  }

  lemma {:induction false} AllCmdsRun(v: Server, es: seq<ServerEvent>)
    requires Linked(v.reg) && EnabledRun(v, es)
    ensures ServerRun(v, es).reg == ExecuteAll(v.reg, AllCmds(v, es))
    decreases |es|
  {
    if es == [] {
    } else {
      AllCmdsRun(Next(v, es[0]), es[1..]);
      ExecuteAllAppend(v.reg, Cmds(v, es[0]), AllCmds(Next(v, es[0]), es[1..]));
    }
  }

  lemma EnabledRest(v: Server, es: seq<ServerEvent>)
    requires Linked(v.reg) && EnabledRun(v, es) && es != []
    ensures Echo.Enabled(v, es[0]) && EnabledRun(Next(v, es[0]), es[1..])
    ensures ServerRun(v, es) == ServerRun(Next(v, es[0]), es[1..])
  {
  }

  lemma EnabledFirst(v: Server, es: seq<ServerEvent>, rest: seq<ServerEvent>)
    requires Linked(v.reg) && es != [] && rest == es[1..]
    requires Echo.Enabled(v, es[0]) && EnabledRun(Next(v, es[0]), rest)
    ensures EnabledRun(v, es) && ServerRun(v, es) == ServerRun(Next(v, es[0]), rest)
  {
  }

  /** `c` is `a` followed by `b`. */
  predicate Joined(a: seq<ServerEvent>, b: seq<ServerEvent>, c: seq<ServerEvent>) {
    if a == [] then c == b else c != [] && c[0] == a[0] && Joined(a[1..], b, c[1..])
  }

  lemma {:induction false} JoinedSum(a: seq<ServerEvent>, b: seq<ServerEvent>)
    ensures Joined(a, b, a + b)
  {
    if a == [] {
      AppendNothing(b);
    } else {
      JoinedSum(a[1..], b);
      assert (a + b)[1..] == a[1..] + b;
    }
  }

  /** A run of events followed by another. */
  lemma {:induction false} JoinedRuns(v: Server, a: seq<ServerEvent>, v1: Server, b: seq<ServerEvent>, c: seq<ServerEvent>)
    requires Linked(v.reg) && EnabledRun(v, a) && v1 == ServerRun(v, a) && EnabledRun(v1, b)
    requires Joined(a, b, c)
    ensures EnabledRun(v, c) && ServerRun(v, c) == ServerRun(v1, b)
    decreases |a|
  {
    if a != [] {
      EnabledRest(v, a);
      JoinedRuns(Next(v, a[0]), a[1..], v1, b, c[1..]);
      EnabledFirst(v, c, c[1..]);
    }
  }

  lemma EnabledOne(v: Server, e: ServerEvent)
    requires Linked(v.reg) && Echo.Enabled(v, e)
    ensures EnabledRun(v, [e])
  {
    assert [e][1..] == [];
  }

  // ---------------------------------------------------------------- one iteration

  /** The server after some events, if they are enabled. */
  ghost function AfterEvents(v: Server, es: seq<ServerEvent>): (v': Server)
    requires Linked(v.reg)
    ensures Linked(v'.reg)
  {
    if EnabledRun(v, es) then ServerRun(v, es) else v
  }

  /** Callback number `n` makes the calls to the reactor that its handler makes. */
  ghost predicate Serves(v: Server, d: Delivery, reply: Reply, action: Action)
    requires Linked(v.reg)
  {
    var es := EventsOf(v, d, reply);
    EnabledRun(v, es) ==> action.cmds == AllCmds(v, es)
  }

  /** From delivery number `k` on the kernel answers as it must, and the callbacks are those of the
      handlers. */
  ghost predicate Played(v: Server, log: seq<Delivery>, k: nat, plan: Plan, script: Script)
    requires Linked(v.reg) && k <= |log|
    decreases |log| - k
  {
    k == |log|
    || (&& Answerable(v, log[k], plan(k)) && Serves(v, log[k], plan(k), script(k))
        && Played(AfterEvents(v, EventsOf(v, log[k], plan(k))), log, k + 1, plan, script))
  }

  /** The events that the deliveries from number `k` on cause. */
  ghost function EventsFrom(v: Server, log: seq<Delivery>, k: nat, plan: Plan): seq<ServerEvent>
    requires Linked(v.reg) && k <= |log|
    decreases |log| - k
  {
    if k == |log| then []
    else
      var es := EventsOf(v, log[k], plan(k));
      es + EventsFrom(AfterEvents(v, es), log, k + 1, plan)
  }

  /** The server is in order over a reactor without orphans. */
  ghost predicate Sane(base: Reg, v: Server) {
    ServerOk(base, v) && NoOrphans(v.reg)
  }

  /** A delivery to a connection goes to the handler that lives on its socket at that moment, for the
      notification that the called member function is meant for; any other goes to an observer of the
      reactor's own. */
  ghost predicate WellServed(base: Reg, v: Server, d: Delivery) {
    && ToRegistered(d)
    && (d.socket in v.conns ==>
          && d.socket in v.ids && d.cell.key.target == v.ids[d.socket]
          && (d.kind == Readable <==> d.cell.key.callback == 0)
          && (d.kind == Writable <==> d.cell.key.callback == 1)
          && (d.kind == Shutdown <==> d.cell.key.callback == 2)
          && (d.kind == Readable || d.kind == Writable || d.kind == Shutdown))
    && (d.socket !in v.conns ==> d.socket in base.handlers)
  }

  lemma DeliveryIsServed(base: Reg, v: Server, d: Delivery)
    requires Sane(base, v) && d.at == v.reg
    requires d.cell.id in d.at.enabled && Accepts(d.cell.key.filter, d.kind)
    requires d.cell.id < |d.at.cells| && d.at.cells[d.cell.id] == d.cell
    requires d.cell.home < |d.at.notifiers| && d.at.notifiers[d.cell.home].socket == d.socket
    ensures WellServed(base, v, d)
  {
    EnabledIsLive(base, v, d.cell.id);
    assert Listed(v.reg, d.cell);
  }

  /** So do all deliveries from number `k` on. */
  ghost predicate AllServed(base: Reg, v: Server, log: seq<Delivery>, k: nat, plan: Plan)
    requires Linked(v.reg) && k <= |log|
    decreases |log| - k
  {
    k == |log|
    || (WellServed(base, v, log[k]) && AllServed(base, AfterEvents(v, EventsOf(v, log[k], plan(k))), log, k + 1, plan))
  }

  /** One delivery takes the server through the events it causes. */
  lemma ServeStep(base: Reg, v: Server, d: Delivery, reply: Reply, action: Action)
    requires Sane(base, v) && Answerable(v, d, reply) && Serves(v, d, reply, action)
    ensures EnabledRun(v, EventsOf(v, d, reply))
    ensures Sane(base, ServerRun(v, EventsOf(v, d, reply)))
    ensures ServerRun(v, EventsOf(v, d, reply)).reg == ExecuteAll(v.reg, action.cmds)
  {
    var es := EventsOf(v, d, reply);
    if d.socket in v.conns {
      assert ConnShown(base, v, d.socket);
      EnabledOne(v, Callback(d.socket, EventOf(d.cell.key, reply)));
    }
    AllCmdsRun(v, es);
    RunKeepsServer(base, v, es);
    RunKeepsNoOrphans(base, v, es);
  }

  ghost predicate LeadsTo(v: Server, es: seq<ServerEvent>, v': Server)
    requires Linked(v.reg)
  {
    EnabledRun(v, es) && ServerRun(v, es) == v'
  }

  lemma LeadsOn(v: Server, a: seq<ServerEvent>, v1: Server, b: seq<ServerEvent>, v2: Server)
    requires Linked(v.reg) && Linked(v1.reg) && LeadsTo(v, a, v1) && LeadsTo(v1, b, v2)
    ensures LeadsTo(v, a + b, v2)
  {
    JoinedSum(a, b);
    JoinedRuns(v, a, v1, b, a + b);
  }

  lemma {:induction false} RoundServed(base: Reg, r0: Reg, from: nat, v: Server, log: seq<Delivery>, k: nat, plan: Plan, script: Script)
    returns (v': Server)
    requires Sane(base, v) && Linked(r0) && from <= k <= |log| && v.reg == RegAt(r0, script, from, k)
    requires SoundFrom(r0, from, script, k, log)
    requires Played(v, log, k, plan, script)
    ensures LeadsTo(v, EventsFrom(v, log, k, plan), v')
    ensures Sane(base, v') && v'.reg == RegAt(r0, script, from, |log|)
    ensures AllServed(base, v, log, k, plan)
    decreases |log| - k
  {
    if k == |log| {
      v' := v;
    } else {
      assert Sound(r0, from, script, k, log[k]);
      DeliveryIsServed(base, v, log[k]);
      var es := EventsOf(v, log[k], plan(k));
      ServeStep(base, v, log[k], plan(k), script(k));
      RegAtStep(r0, script, from, k);
      v' := RoundServed(base, r0, from, AfterEvents(v, es), log, k + 1, plan, script);
      LeadsOn(v, es, AfterEvents(v, es), EventsFrom(AfterEvents(v, es), log, k + 1, plan), v');
    }
  }

  /** The events of one iteration of `run`. */
  ghost function RoundEvents(v: Server, w: World, reported: seq<(Socket, Mask)>, plan: Plan, script: Script): seq<ServerEvent>
    requires Linked(v.reg) && Linked(w.reg)
  {
    var log := Round(w, reported, script).log;
    if |w.log| <= |log| then EventsFrom(v, log, |w.log|, plan) else []
  }

  /** The callbacks of this iteration are those of the handlers. */
  ghost predicate RoundPlayed(v: Server, w: World, reported: seq<(Socket, Mask)>, plan: Plan, script: Script)
    requires Linked(v.reg) && Linked(w.reg)
  {
    var log := Round(w, reported, script).log;
    |w.log| <= |log| ==> Played(v, log, |w.log|, plan, script)
  }

  /** One iteration of `run` over a server in order, whatever the kernel reports and answers: it amounts
      to a run of enabled events of the server, the reactor ends where that run ends, and every delivery
      goes to a handler that is alive and registered for it. */
  lemma RoundIsEvents(base: Reg, v: Server, w: World, reported: seq<(Socket, Mask)>, plan: Plan, script: Script)
    requires Sane(base, v) && w.reg == v.reg && RoundPlayed(v, w, reported, plan, script)
    ensures var w', es := Round(w, reported, script), RoundEvents(v, w, reported, plan, script);
            && EnabledRun(v, es) && w'.reg == ServerRun(v, es).reg && Sane(base, ServerRun(v, es))
            && |w.log| <= |w'.log| && AllServed(base, v, w'.log, |w.log|, plan)
  {
    RoundProper(w, reported, script);
    var v' := RoundServed(base, v.reg, |w.log|, v, Round(w, reported, script).log, |w.log|, plan, script);
  }

  // ---------------------------------------------------------------- any number of iterations

  ghost function Loop(w: World, reports: seq<seq<(Socket, Mask)>>, script: Script): (w': World)
    requires Linked(w.reg)
    ensures Linked(w'.reg)
    decreases |reports|
  {
    if reports == [] then w else Loop(Round(w, reports[0], script), reports[1..], script)
  }

  ghost predicate LoopPlayed(v: Server, w: World, reports: seq<seq<(Socket, Mask)>>, plan: Plan, script: Script)
    requires Linked(v.reg) && Linked(w.reg)
    decreases |reports|
  {
    reports == []
    || (&& RoundPlayed(v, w, reports[0], plan, script)
        && var es := RoundEvents(v, w, reports[0], plan, script);
           EnabledRun(v, es) ==> LoopPlayed(ServerRun(v, es), Round(w, reports[0], script), reports[1..], plan, script))
  }

  ghost function LoopEvents(v: Server, w: World, reports: seq<seq<(Socket, Mask)>>, plan: Plan, script: Script): seq<ServerEvent>
    requires Linked(v.reg) && Linked(w.reg)
    decreases |reports|
  {
    if reports == [] then []
    else
      var es := RoundEvents(v, w, reports[0], plan, script);
      es + if EnabledRun(v, es) then LoopEvents(ServerRun(v, es), Round(w, reports[0], script), reports[1..], plan, script)
           else []
  }

  /** Every delivery of every iteration goes to a handler that is alive and registered for it. */
  ghost predicate LoopServed(base: Reg, v: Server, w: World, reports: seq<seq<(Socket, Mask)>>, plan: Plan, script: Script)
    requires Linked(v.reg) && Linked(w.reg)
    decreases |reports|
  {
    reports == []
    || (var w1, es := Round(w, reports[0], script), RoundEvents(v, w, reports[0], plan, script);
        && |w.log| <= |w1.log| && AllServed(base, v, w1.log, |w.log|, plan)
        && EnabledRun(v, es) && LoopServed(base, ServerRun(v, es), w1, reports[1..], plan, script))
  }

  /** Any number of iterations. */
  lemma {:induction false} LoopIsEvents(base: Reg, v: Server, w: World, reports: seq<seq<(Socket, Mask)>>, plan: Plan, script: Script)
    requires Sane(base, v) && w.reg == v.reg && LoopPlayed(v, w, reports, plan, script)
    ensures var es := LoopEvents(v, w, reports, plan, script);
            EnabledRun(v, es) && Loop(w, reports, script).reg == ServerRun(v, es).reg && Sane(base, ServerRun(v, es))
    ensures LoopServed(base, v, w, reports, plan, script)
    decreases |reports|
  {
    if reports == [] {
    } else {
      RoundIsEvents(base, v, w, reports[0], plan, script);
      var es := RoundEvents(v, w, reports[0], plan, script);
      var v1, w1 := ServerRun(v, es), Round(w, reports[0], script);
      LoopIsEvents(base, v1, w1, reports[1..], plan, script);
      var rest := LoopEvents(v1, w1, reports[1..], plan, script);
      LeadsOn(v, es, v1, rest, ServerRun(v1, rest));
    }
  }

  /** The echo server as a whole. After any number of iterations of the event loop, from a reactor with
      observers of its own and no connection yet: the connections are those of a run of the server, and
      what the reactor and the kernel hold for each of them says exactly what its FIFOs can do. */
  lemma LoopBackPressure(base: Reg, reports: seq<seq<(Socket, Mask)>>, plan: Plan, script: Script, s: Socket)
    requires WF(base) && NoOrphans(base)
    requires LoopPlayed(StartServer(base), World(base, []), reports, plan, script)
    ensures var es := LoopEvents(StartServer(base), World(base, []), reports, plan, script);
            && EnabledRun(StartServer(base), es)
            && var v, reg := ServerRun(StartServer(base), es), Loop(World(base, []), reports, script).reg;
               && v.reg == reg
               && (s in v.conns ==>
                     var c := v.conns[s];
                     && s in v.ids
                     && (Registered(reg, s, ReadKey(v.ids[s])) <==> !c.fifoIn.IsFull())
                     && (Registered(reg, s, WriteKey(v.ids[s])) <==> c.fifoOut.content != [])
                     && s in reg.kernel && reg.kernel[s] == Mask(!c.fifoIn.IsFull(), c.fifoOut.content != [], false))
  {
    StartOk(base);
    LoopIsEvents(base, StartServer(base), World(base, []), reports, plan, script);
    BackPressure(base, LoopEvents(StartServer(base), World(base, []), reports, plan, script), s);
  }

  /** And of the bytes of each connection none is lost or out of order exactly if none of its reads found
      `_fifoOut` full. */
  lemma LoopConservesIff(base: Reg, reports: seq<seq<(Socket, Mask)>>, plan: Plan, script: Script, s: Socket)
    requires WF(base) && NoOrphans(base)
    requires LoopPlayed(StartServer(base), World(base, []), reports, plan, script)
    ensures var es := LoopEvents(StartServer(base), World(base, []), reports, plan, script);
            && EnabledRun(StartServer(base), es)
            && var v, t := ServerRun(StartServer(base), es), CountAll(Gone, es, s);
               && (s in v.conns <==> t.Live?)
               && (t.Live? ==> v.conns[s] == t.conn && (Conserved(v.conns[s]) <==> t.complete))
  {
    StartOk(base);
    LoopIsEvents(base, StartServer(base), World(base, []), reports, plan, script);
    ServerConservesIff(base, LoopEvents(StartServer(base), World(base, []), reports, plan, script), s);
  }
}
