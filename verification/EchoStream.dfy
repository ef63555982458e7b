/** What the echo service does to the bytes: over every run of a connection it returns them in order
    and complete exactly if it never reads while `_fifoOut` is full. */
module EchoStream {
  import opened Registry
  import opened RegistryAgreement
  import opened RegistryKeys
  import opened Echo
  import opened EchoRegistrations
  import opened Sequences
  import Q = Queues
  import QR = QueueRuns

  /** Everything received has been sent, or waits in `_fifoOut` and then in `_fifoIn`, in order. */
  ghost predicate Conserved(c: Conn) {
    c.received == c.sent + (c.fifoOut.content + c.fifoIn.content)
  }

  /** How many received bytes are nowhere any more. */
  ghost function Missing(c: Conn): int {
    |c.received| - |c.sent| - |c.fifoOut.content| - |c.fifoIn.content|
  }

  /** A read while the other FIFO is full: the write accepts nothing and `drain(0)` empties `_fifoIn`. */
  predicate Overrun(c: Conn, e: Event) {
    e.SocketReadable? && e.recv.Received? && c.fifoOut.IsFull()
  }

  /** What a read that is no overrun makes of the two FIFOs: their joint content grows by the data. */
  lemma ReceiveMoves(c: Conn, data: seq<Byte>)
    requires ConnOk(c) && 0 < |data| <= c.fifoIn.Available() && !c.fifoOut.IsFull()
    ensures var c' := OnReceived(c, data);
            c'.fifoOut.content + c'.fifoIn.content == (c.fifoOut.content + c.fifoIn.content) + data
  {
    var whole := c.fifoIn.content + data;
    var n := Min(|whole|, c.fifoOut.size - |c.fifoOut.content|);
    var c' := OnReceived(c, data);
    assert c'.fifoOut.content == c.fifoOut.content + whole[..n];
    assert c'.fifoIn.content == whole[n..];
    Rejoin(c.fifoOut.content, whole, n);
    Regroup(c.fifoOut.content, c.fifoIn.content, data);
  }

  lemma Rejoin(a: seq<Byte>, b: seq<Byte>, n: nat)
    requires n <= |b|
    ensures (a + b[..n]) + b[n..] == a + b
  {
  }

  lemma ReceiveConserves(c: Conn, data: seq<Byte>)
    requires ConnOk(c) && 0 < |data| <= c.fifoIn.Available()
    requires Conserved(c) && !c.fifoOut.IsFull()
    ensures Conserved(OnReceived(c, data))
  {
    ReceiveMoves(c, data);
    Regroup(c.sent, c.fifoOut.content + c.fifoIn.content, data);
  }

  lemma SendConserves(c: Conn, count: nat)
    requires ConnOk(c) && count <= |c.fifoOut.content| && Conserved(c)
    ensures Conserved(OnSent(c, count))
  {
    var out := c.fifoOut.content;
    assert OnSent(c, count).fifoOut.content == out[count..];
    assert out[..count] + out[count..] == out;
    Regroup(out[..count], out[count..], c.fifoIn.content);
    Regroup(c.sent, out[..count], out[count..] + c.fifoIn.content);
  }

  /** The exact loss of one step. */
  lemma StepMissing(c: Conn, e: Event)
    requires ConnOk(c) && Possible(c, e) && !Ends(e)
    ensures Missing(Step(c, e))
            == Missing(c) + if Overrun(c, e) then |c.fifoIn.content| + |e.recv.data| else 0
  {
  }

  /** One step keeps the stream complete exactly if it is not an overrun. */
  lemma StepConservesIff(c: Conn, e: Event)
    requires ConnOk(c) && Possible(c, e) && !Ends(e) && Conserved(c)
    ensures Conserved(Step(c, e)) <==> !Overrun(c, e)
  {
    StepMissing(c, e);
    match e
    case SocketReadable(recv) =>
      if !c.fifoOut.IsFull() {
        ReceiveConserves(c, recv.data);
      }
    case SocketWritable(send) =>
      if send.Sent? {
        SendConserves(c, send.count);
      }
  }

  // ---------------------------------------------------------------- whole runs of one connection

  ghost predicate Lives(c: Conn, es: seq<Event>)
    requires c.fifoOut.WellFormed()
    decreases |es|
  {
    es == []
    || (&& Possible(c, es[0]) && !Ends(es[0]) && Step(c, es[0]).fifoOut.WellFormed()
        && Lives(Step(c, es[0]), es[1..]))
  }

  ghost function RunConn(c: Conn, es: seq<Event>): Conn
    requires c.fifoOut.WellFormed() && Lives(c, es)
    decreases |es|
  {
    if es == [] then c else RunConn(Step(c, es[0]), es[1..])
  }

  /** Some step of the run reads while `_fifoOut` is full. */
  ghost predicate Overruns(c: Conn, es: seq<Event>)
    requires c.fifoOut.WellFormed() && Lives(c, es)
    decreases |es|
  {
    es != [] && (Overrun(c, es[0]) || Overruns(Step(c, es[0]), es[1..]))
  }

  lemma {:induction false} MissingStays(c: Conn, es: seq<Event>)
    requires ConnOk(c) && Lives(c, es) && Missing(c) > 0
    ensures Missing(RunConn(c, es)) > 0
    decreases |es|
  {
    if es == [] {
    } else {
      StepKeepsConn(c, es[0]);
      StepMissing(c, es[0]);
      MissingStays(Step(c, es[0]), es[1..]);
    }
  }

  /** Stream conservation, exactly: after any run of readable and writable callbacks, with any results
      of recv and send, the bytes received are the bytes sent, then the content of `_fifoOut`, then
      the content of `_fifoIn`, if and only if no readable callback found `_fifoOut` full. */
  lemma {:induction false} RunConservesIff(c: Conn, es: seq<Event>)
    requires ConnOk(c) && Conserved(c) && Lives(c, es)
    ensures Conserved(RunConn(c, es)) <==> !Overruns(c, es)
    decreases |es|
  {
    if es == [] {
    } else {
      StepKeepsConn(c, es[0]);
      StepConservesIff(c, es[0]);
      StepMissing(c, es[0]);
      if Overrun(c, es[0]) {
        MissingStays(Step(c, es[0]), es[1..]);
      } else {
        RunConservesIff(Step(c, es[0]), es[1..]);
      }
    }
  }

  /** What the peer has sent in a run of callbacks, and how many bytes `send` has taken. */
  ghost function Arrived(es: seq<Event>): seq<Byte>
    decreases |es|
  {
    if es == [] then [] else ArrivedIn(es[0]) + Arrived(es[1..])
  }

  ghost function ArrivedIn(e: Event): seq<Byte> {
    match e
    case SocketReadable(Received(data)) => data
    case _ => []
  }

  ghost function Departed(es: seq<Event>): nat
    decreases |es|
  {
    if es == [] then 0 else DepartedIn(es[0]) + Departed(es[1..])
  }

  ghost function DepartedIn(e: Event): nat {
    match e
    case SocketWritable(Sent(count)) => count
    case _ => 0
  }

  /** The records of a connection are what has passed its socket: everything that `recv` brought, and as
      many bytes as `send` took, from the front of `_fifoOut`. */
  lemma {:induction false} RunRecords(c: Conn, es: seq<Event>)
    requires ConnOk(c) && Lives(c, es)
    ensures RunConn(c, es).received == c.received + Arrived(es)
    ensures c.sent <= RunConn(c, es).sent && |RunConn(c, es).sent| == |c.sent| + Departed(es)
    decreases |es|
  {
    if es == [] {
      AppendNothing(c.received);
    } else {
      var c1 := Step(c, es[0]);
      StepKeepsConn(c, es[0]);
      StepRecords(c, es[0]);
      RunRecords(c1, es[1..]);
      Regroup(c.received, ArrivedIn(es[0]), Arrived(es[1..]));
    }
  }

  lemma StepRecords(c: Conn, e: Event)
    requires ConnOk(c) && Possible(c, e) && !Ends(e)
    ensures Step(c, e).received == c.received + ArrivedIn(e)
    ensures DepartedIn(e) <= |c.fifoOut.content| && Step(c, e).sent == c.sent + c.fifoOut.content[..DepartedIn(e)]
  {
    AppendNothing(c.received);
    AppendNothing(c.sent);
  }

  /** So what a new connection has sent after a run without overruns is what its peer has sent, as far as
      `send` has taken bytes. */
  lemma OutputIsInput(es: seq<Event>)
    requires Lives(NEW_CONN, es) && !Overruns(NEW_CONN, es)
    ensures Departed(es) <= |Arrived(es)| && RunConn(NEW_CONN, es).sent == Arrived(es)[..Departed(es)]
  {
    NewConnConserved();
    RunConservesIff(NEW_CONN, es);
    RunRecords(NEW_CONN, es);
    AppendNothing(Arrived(es));
    var c := RunConn(NEW_CONN, es);
    assert c.received == Arrived(es);
    assert (c.sent + (c.fifoOut.content + c.fifoIn.content))[..|c.sent|] == c.sent;
  }

  lemma NewConnConserved()
    ensures ConnOk(NEW_CONN) && Conserved(NEW_CONN)
  {
    QR.NewQueueAgrees<Byte>(BUFFER_SIZE);
  }

  /** The loss happens: a second read before anything could be sent is dropped without a trace. */
  lemma SecondReadIsLost(a: seq<Byte>, b: seq<Byte>)
    requires |a| == BUFFER_SIZE && 0 < |b| <= BUFFER_SIZE
    ensures var es := [SocketReadable(Received(a)), SocketReadable(Received(b))];
            && Lives(NEW_CONN, es)
            && RunConn(NEW_CONN, es).received == a + b
            && RunConn(NEW_CONN, es).sent == []
            && RunConn(NEW_CONN, es).fifoOut.content == a
            && RunConn(NEW_CONN, es).fifoIn.content == []
  {
    var e1, e2 := SocketReadable(Received(a)), SocketReadable(Received(b));
    var c1 := Step(NEW_CONN, e1);
    assert [] + a == a && a[..|a|] == a;
    assert c1.fifoOut.content == a && c1.fifoIn.content == [];
    var c2 := Step(c1, e2);
    assert c2.fifoOut == c1.fifoOut && c2.fifoIn.content == [];
    var es := [e1, e2];
    assert es[1..] == [e2] && [e2][1..] == [];
    assert Lives(c2, []) && Lives(c1, [e2]) && Lives(NEW_CONN, es);
    assert RunConn(c1, [e2]) == c2 && RunConn(NEW_CONN, es) == RunConn(c1, [e2]);
  }

  // ---------------------------------------------------------------- progress

  lemma {:induction false} RunKeepsConn(c: Conn, es: seq<Event>)
    requires ConnOk(c) && Lives(c, es)
    ensures ConnOk(RunConn(c, es))
    decreases |es|
  {
    if es == [] {
    } else {
      StepKeepsConn(c, es[0]);
      RunKeepsConn(Step(c, es[0]), es[1..]);
    }
  }

  /** After any run of a new handler's callbacks it has room to receive something, so a result of zero
      always means that the peer has closed; and whatever a further read of a handler whose `_fifoOut`
      had room cannot pass on stays behind because `_fifoOut` is full by then. */
  lemma ReadableNeverStalls(es: seq<Event>)
    requires Lives(NEW_CONN, es)
    ensures var c := RunConn(NEW_CONN, es);
            && c.fifoIn.Available() > 0
            && c.fifoOut.WellFormed()
            && forall data: seq<Byte> :: 0 < |data| <= c.fifoIn.Available() && !c.fifoOut.IsFull() ==>
                 OnReceived(c, data).fifoIn.content != [] ==> OnReceived(c, data).fifoOut.IsFull()
  {
    NewConnConserved();
    RunKeepsConn(NEW_CONN, es);
  }

  /** Writable callbacks that each send something. */
  ghost predicate Flushes(c: Conn, counts: seq<nat>)
    requires c.fifoOut.WellFormed()
    decreases |counts|
  {
    counts == []
    || (&& 0 < counts[0] <= |c.fifoOut.content| && OnSent(c, counts[0]).fifoOut.WellFormed()
        && Flushes(OnSent(c, counts[0]), counts[1..]))
  }

  ghost function Flushed(c: Conn, counts: seq<nat>): Conn
    requires c.fifoOut.WellFormed() && Flushes(c, counts)
    decreases |counts|
  {
    if counts == [] then c else Flushed(OnSent(c, counts[0]), counts[1..])
  }

  /** How full `_fifoOut` is before the first of these callbacks and after each of them. */
  ghost function Levels(c: Conn, counts: seq<nat>): seq<nat>
    requires c.fifoOut.WellFormed() && Flushes(c, counts)
    decreases |counts|
  {
    [|c.fifoOut.content|] + if counts == [] then [] else Levels(OnSent(c, counts[0]), counts[1..])
  }

  /** The calls to the reactor that these callbacks make. */
  ghost function FlushCmds(s: Socket, o: nat, c: Conn, counts: seq<nat>): seq<Cmd>
    requires c.fifoOut.WellFormed() && Flushes(c, counts)
    decreases |counts|
  {
    if counts == [] then []
    else StepCmds(s, o, c, SocketWritable(Sent(counts[0]))) + FlushCmds(s, o, OnSent(c, counts[0]), counts[1..])
  }

  lemma SendMoves(c: Conn, count: nat)
    requires ConnOk(c) && 0 < count <= |c.fifoOut.content|
    ensures OnSent(c, count).sent + OnSent(c, count).fifoOut.content == c.sent + c.fifoOut.content
    ensures |OnSent(c, count).fifoOut.content| == |c.fifoOut.content| - count
  {
    var out := c.fifoOut.content;
    assert OnSent(c, count).fifoOut.content == out[count..];
    assert out[..count] + out[count..] == out;
    Regroup(c.sent, out[..count], out[count..]);
  }

  lemma {:induction false} FlushedStream(c: Conn, counts: seq<nat>)
    requires ConnOk(c) && Flushes(c, counts)
    ensures var c' := Flushed(c, counts);
            ConnOk(c') && c'.sent + c'.fifoOut.content == c.sent + c.fifoOut.content
    decreases |counts|
  {
    if counts == [] {
    } else {
      var c1 := OnSent(c, counts[0]);
      StepKeepsConn(c, SocketWritable(Sent(counts[0])));
      FlushedStream(c1, counts[1..]);
      SendMoves(c, counts[0]);
    }
  }

  ghost predicate Falling(levels: seq<nat>) {
    forall i, j :: 0 <= i < j < |levels| ==> levels[i] > levels[j]
  }

  lemma FallingMore(level: nat, rest: seq<nat>)
    requires Falling(rest) && rest != [] && level > rest[0]
    ensures Falling([level] + rest)
  {
  }

  /** Each of the callbacks leaves less in `_fifoOut` than it found. */
  lemma {:induction false} LevelsFall(c: Conn, counts: seq<nat>)
    requires ConnOk(c) && Flushes(c, counts)
    ensures var levels := Levels(c, counts);
            && |levels| == |counts| + 1 && Falling(levels)
            && levels[0] == |c.fifoOut.content| && levels[|counts|] == |Flushed(c, counts).fifoOut.content|
    decreases |counts|
  {
    if counts == [] {
    } else {
      StepKeepsConn(c, SocketWritable(Sent(counts[0])));
      SendMoves(c, counts[0]);
      var c1 := OnSent(c, counts[0]);
      LevelsFall(c1, counts[1..]);
      var rest := Levels(c1, counts[1..]);
      FallingMore(|c.fifoOut.content|, rest);
      assert Levels(c, counts) == [|c.fifoOut.content|] + rest;
      assert Levels(c, counts)[|counts|] == rest[|counts| - 1];
    }
  }

  lemma {:induction false} FallingBound(levels: seq<nat>)
    requires levels != [] && Falling(levels)
    ensures levels[|levels| - 1] + (|levels| - 1) <= levels[0]
    decreases |levels|
  {
    if |levels| > 1 {
      FallingBound(levels[..|levels| - 1]);
    }
  }

  lemma {:induction false} FlushedHeard(r: Reg, s: Socket, o: nat, c: Conn, counts: seq<nat>)
    requires ConnOk(c) && HeardBy(r, s, o, c) && Flushes(c, counts)
    ensures Runs(r, FlushCmds(s, o, c, counts), s, ExecuteAll(r, FlushCmds(s, o, c, counts)))
    ensures HeardBy(ExecuteAll(r, FlushCmds(s, o, c, counts)), s, o, Flushed(c, counts))
    decreases |counts|
  {
    if counts == [] {
      RunsNothing(r, s);
    } else {
      var e := SocketWritable(Sent(counts[0]));
      var c1 := OnSent(c, counts[0]);
      StepKeepsConn(c, e);
      var r1 := StepHeard(r, s, o, c, e);
      FlushedHeard(r1, s, o, c1, counts[1..]);
      var rest := FlushCmds(s, o, c1, counts[1..]);
      RunsBoth(r, StepCmds(s, o, c, e), r1, rest, ExecuteAll(r1, rest), s);
    }
  }

  /** Flushing, from any state of a live handler: every send lowers the level of `_fifoOut`, so there
      are at most as many as it holds bytes; the bytes go out in order; the calls to the reactor that
      the signals cause all succeed; and after them, if nothing is left, the writable observer and its
      kernel bit are gone, and are still there otherwise. */
  lemma FlushTerminates(r: Reg, s: Socket, o: nat, c: Conn, counts: seq<nat>)
    requires ConnOk(c) && HeardBy(r, s, o, c) && Flushes(c, counts)
    ensures Falling(Levels(c, counts)) && |Levels(c, counts)| == |counts| + 1
    ensures var c', r' := Flushed(c, counts), ExecuteAll(r, FlushCmds(s, o, c, counts));
            && AllSucceed(r, FlushCmds(s, o, c, counts))
            && HeardBy(r', s, o, c')
            && |counts| + |c'.fifoOut.content| <= |c.fifoOut.content|
            && c'.sent + c'.fifoOut.content == c.sent + c.fifoOut.content
            && (Registered(r', s, WriteKey(o)) <==> c'.fifoOut.content != [])
            && s in r'.kernel && r'.kernel[s] == Mask(true, c'.fifoOut.content != [], false)
  {
    LevelsFall(c, counts);
    FallingBound(Levels(c, counts));
    FlushedStream(c, counts);
    FlushedHeard(r, s, o, c, counts);
    var r' := ExecuteAll(r, FlushCmds(s, o, c, counts));
    RegisteredIsKey(r', s, WriteKey(o));
    MaskAgrees(r', s);
    ExpectedMask(o, true, Flushed(c, counts).fifoOut.content != []);
  }

  // ---------------------------------------------------------------- interleaving

  /** What becomes of the connection on one socket, and whether it has kept all its bytes, looking
      only at the events of that socket. */
  datatype Tally = Gone | Live(conn: Conn, complete: bool)

  ghost function Count(t: Tally, e: ServerEvent, s: Socket): Tally {
    if e.socket != s then t
    else match e
      case Accept(_, _) => Live(NEW_CONN, true)
      case Callback(_, event) =>
        if t.Live? && t.conn.fifoOut.WellFormed() && Possible(t.conn, event) && !Ends(event) then
          Live(Step(t.conn, event), t.complete && !Overrun(t.conn, event))
        else Gone
  }

  ghost function CountAll(t: Tally, es: seq<ServerEvent>, s: Socket): Tally
    decreases |es|
  {
    if es == [] then t else CountAll(Count(t, es[0], s), es[1..], s)
  }

  ghost predicate Tallied(v: Server, s: Socket, t: Tally) {
    && (t.Live? <==> s in v.conns)
    && (t.Live? ==>
          && t.conn == v.conns[s] && ConnOk(t.conn)
          && (if t.complete then Conserved(t.conn) else Missing(t.conn) > 0))
  }

  lemma EventTallied(base: Reg, v: Server, e: ServerEvent, s: Socket, t: Tally)
    requires ServerOk(base, v) && Enabled(v, e) && Tallied(v, s, t)
    ensures Tallied(Next(v, e), s, Count(t, e, s))
  {
    if e.socket == s {
      match e
      case Accept(_, _) => NewConnConserved();
      case Callback(_, event) =>
        if !Ends(event) {
          StepKeepsConn(t.conn, event);
          StepMissing(t.conn, event);
          if t.complete {
            StepConservesIff(t.conn, event);
          }
        }
    }
  }

  lemma {:induction false} RunTallied(base: Reg, v: Server, es: seq<ServerEvent>, s: Socket, t: Tally)
    requires ServerOk(base, v) && EnabledRun(v, es) && Tallied(v, s, t)
    ensures Tallied(ServerRun(v, es), s, CountAll(t, es, s))
    decreases |es|
  {
    if es == [] {
    } else {
      EventTallied(base, v, es[0], s, t);
      EventKeepsServer(base, v, es[0]);
      RunTallied(base, Next(v, es[0]), es[1..], s, Count(t, es[0], s));
    }
  }

  /** The whole server, any interleaving of any connections: what a connection has received and sent
      depends on its own events only, and it has kept every byte in order exactly if none of its reads
      since it was accepted found `_fifoOut` full. */
  lemma ServerConservesIff(base: Reg, es: seq<ServerEvent>, s: Socket)
    requires WF(base) && EnabledRun(StartServer(base), es)
    ensures var v, t := ServerRun(StartServer(base), es), CountAll(Gone, es, s);
            && (s in v.conns <==> t.Live?)
            && (t.Live? ==> v.conns[s] == t.conn && (Conserved(v.conns[s]) <==> t.complete))
  {
    StartOk(base);
    RunTallied(base, StartServer(base), es, s, Gone);
  }

  // ---------------------------------------------------------------- connections that have ended

  ghost predicate EndsOn(e: ServerEvent, s: Socket) {
    e.socket == s && e.Callback? && Ends(e.event)
  }

  /** The connections on one socket that end in a run, as they are when they end, in their order. */
  ghost function EndedConns(v: Server, es: seq<ServerEvent>, s: Socket): seq<Conn>
    requires Linked(v.reg) && EnabledRun(v, es)
    decreases |es|
  {
    if es == [] then []
    else (if EndsOn(es[0], s) then [v.conns[s]] else []) + EndedConns(Next(v, es[0]), es[1..], s)
  }

  /** The same from the events of that socket alone, with whether all bytes were kept. */
  ghost function EndedTallies(t: Tally, es: seq<ServerEvent>, s: Socket): seq<Tally>
    decreases |es|
  {
    if es == [] then []
    else (if EndsOn(es[0], s) then [t] else []) + EndedTallies(Count(t, es[0], s), es[1..], s)
  }

  /** A connection has given back everything that it received. */
  ghost predicate Answered(c: Conn) {
    c.received == c.sent
  }

  /** What is dropped at the end of a connection is what its FIFOs still hold and what was lost before. */
  ghost predicate EndExact(c: Conn, t: Tally) {
    && t.Live? && t.conn == c
    && (Answered(c) <==> t.complete && c.fifoOut.content == [] && c.fifoIn.content == [])
    && |c.received| - |c.sent| == |c.fifoOut.content| + |c.fifoIn.content| + Missing(c)
    && (t.complete ==> Missing(c) == 0) && (!t.complete ==> Missing(c) > 0)
  }

  lemma TalliedEnd(v: Server, s: Socket, t: Tally)
    requires Tallied(v, s, t) && s in v.conns
    ensures EndExact(v.conns[s], t)
  {
    var c := v.conns[s];
    if t.complete {
      assert |c.received| == |c.sent| + (|c.fifoOut.content| + |c.fifoIn.content|);
      if c.fifoOut.content == [] && c.fifoIn.content == [] {
        assert c.fifoOut.content + c.fifoIn.content == [];
        AppendNothing(c.sent);
      }
    }
  }

  ghost predicate AllExact(conns: seq<Conn>, tallies: seq<Tally>) {
    |conns| == |tallies| && forall k :: 0 <= k < |conns| ==> EndExact(conns[k], tallies[k])
  }

  lemma OneMoreExact(c: Conn, t: Tally, conns: seq<Conn>, tallies: seq<Tally>)
    requires EndExact(c, t) && AllExact(conns, tallies)
    ensures AllExact([c] + conns, [t] + tallies)
  {
  }

  lemma {:induction false} RunEnded(base: Reg, v: Server, es: seq<ServerEvent>, s: Socket, t: Tally)
    requires ServerOk(base, v) && EnabledRun(v, es) && Tallied(v, s, t)
    ensures AllExact(EndedConns(v, es, s), EndedTallies(t, es, s))
    decreases |es|
  {
    if es == [] {
    } else {
      EventTallied(base, v, es[0], s, t);
      EventKeepsServer(base, v, es[0]);
      RunEnded(base, Next(v, es[0]), es[1..], s, Count(t, es[0], s));
      var conns, tallies := EndedConns(Next(v, es[0]), es[1..], s), EndedTallies(Count(t, es[0], s), es[1..], s);
      if EndsOn(es[0], s) {
        TalliedEnd(v, s, t);
        OneMoreExact(v.conns[s], t, conns, tallies);
      } else {
        AppendNothing(conns);
        AppendNothing(tallies);
      }
    }
  }

  /** Whatever ends a connection, in any run of the server: it has given back everything that it received
      if and only if none of its reads found `_fifoOut` full and both FIFOs were empty at the end. */
  lemma EndedAnsweredIff(base: Reg, es: seq<ServerEvent>, s: Socket)
    requires WF(base) && EnabledRun(StartServer(base), es)
    ensures var conns, tallies := EndedConns(StartServer(base), es, s), EndedTallies(Gone, es, s);
            && |conns| == |tallies|
            && forall k :: 0 <= k < |conns| ==>
                 && tallies[k].Live? && tallies[k].conn == conns[k]
                 && (conns[k].received == conns[k].sent <==>
                       tallies[k].complete && conns[k].fifoOut.content == [] && conns[k].fifoIn.content == [])
  {
    StartOk(base);
    RunEnded(base, StartServer(base), es, s, Gone);
    var conns, tallies := EndedConns(StartServer(base), es, s), EndedTallies(Gone, es, s);
    forall k | 0 <= k < |conns|
      ensures EndExact(conns[k], tallies[k])
    {
    }
  }

  /** A peer that closes early gets nothing back: one byte received, and the connection ends. */
  lemma EarlyCloseDrops(a: seq<Byte>)
    requires |a| == 1
    ensures var es := [SocketReadable(Received(a))];
            && Lives(NEW_CONN, es) && Echo.Possible(RunConn(NEW_CONN, es), SocketReadable(Closed)) && Ends(SocketReadable(Closed))
            && RunConn(NEW_CONN, es).received == a && RunConn(NEW_CONN, es).sent == []
            && RunConn(NEW_CONN, es).fifoOut.content == a
  {
    var e := SocketReadable(Received(a));
    var c := Step(NEW_CONN, e);
    assert [] + a == a && a[..|a|] == a;
    assert c.fifoOut.content == a && c.received == a;
    assert [e][1..] == [];
    assert Lives(c, []) && Lives(NEW_CONN, [e]);
  }
}
