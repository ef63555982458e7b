/** One iteration of `SocketReactor::run`, whatever the kernel reports and the callbacks do: to whom
    each notification of the iteration goes, and from when on a socket hears nothing more. */
module RoundSafety {
  import opened Registry
  import opened RegistryAgreement
  import opened RegistryHistory
  import opened Dispatching
  import opened DispatchSafety
  import opened Sequences

  // ---------------------------------------------------------------- the history of a round

  /** The calls to the reactor made by the callbacks numbered `from` up to `end`, in their order. */
  ghost function History(script: Script, from: nat, end: nat): seq<Cmd>
    requires from <= end
    decreases end
  {
    if from == end then [] else History(script, from, end - 1) + script(end - 1).cmds
  }

  lemma {:induction false} HistoryAppend(script: Script, from: nat, mid: nat, end: nat)
    requires from <= mid <= end
    ensures History(script, from, end) == History(script, from, mid) + History(script, mid, end)
    decreases end
  {
    if mid == end {
      AppendNothing(History(script, from, mid));
    } else {
      HistoryAppend(script, from, mid, end - 1);
      Regroup(History(script, from, mid), History(script, mid, end - 1), script(end - 1).cmds);
    }
  }

  /** The registry as the callbacks from number `from` up to `end` have left it. */
  ghost function RegAt(base: Reg, script: Script, from: nat, end: nat): (r: Reg)
    requires Linked(base) && from <= end
    ensures Linked(r)
  {
    ExecuteAll(base, History(script, from, end))
  }

  lemma RegAtStep(base: Reg, script: Script, from: nat, end: nat)
    requires Linked(base) && from <= end
    ensures RegAt(base, script, from, end + 1) == ExecuteAll(RegAt(base, script, from, end), script(end).cmds)
  {
    ExecuteAllAppend(base, History(script, from, end), script(end).cmds);
  }

  /** The world `w` has been reached from the registry `base` and callback number `from` on. */
  ghost predicate Reaches(base: Reg, from: nat, script: Script, w: World) {
    && WF(base) && WF(w.reg)
    && from <= |w.log| && w.reg == RegAt(base, script, from, |w.log|)
  }

  // ---------------------------------------------------------------- a delivery

  /** The delivery goes to an observer that is registered for the socket and accepts the kind at the
      moment it is made. */
  ghost predicate ToRegistered(d: Delivery) {
    && Linked(d.at)
    && d.socket in d.at.handlers
    && d.cell in ObserversOf(d.at, d.socket)
    && Accepts(d.cell.key.filter, d.kind)
  }

  /** What holds of delivery number `n`: it finds the registry that the callbacks before it have left,
      its observer is enabled, accepts it and was cloned for its socket; it goes to a registered
      observer exactly if no callback before it has orphaned that observer; and if it reports I/O, it
      always does. */
  ghost predicate Sound(base: Reg, from: nat, script: Script, n: nat, d: Delivery)
    requires Linked(base) && from <= n
  {
    && d.at == RegAt(base, script, from, n) && WF(d.at)
    && d.cell.id in d.at.enabled && Accepts(d.cell.key.filter, d.kind)
    && d.cell.id < |d.at.cells| && d.at.cells[d.cell.id] == d.cell
    && d.cell.home < |d.at.notifiers| && d.at.notifiers[d.cell.home].socket == d.socket
    && (ToRegistered(d) <==> !OrphanedBy(base, History(script, from, n), d.cell))
    && (IsIO(d.kind) ==> ToRegistered(d))
  }

  /** A stretch of the round: the log grows by sound deliveries. */
  ghost predicate Proper(base: Reg, from: nat, script: Script, w: World, w': World) {
    && Reaches(base, from, script, w) && Reaches(base, from, script, w')
    && Grown(w.reg, w'.reg)
    && w.log <= w'.log
    && SoundFrom(base, from, script, |w.log|, w'.log)
  }

  ghost predicate SoundFrom(base: Reg, from: nat, script: Script, start: nat, log: seq<Delivery>)
    requires Linked(base) && from <= start
  {
    forall n :: start <= n < |log| ==> Sound(base, from, script, n, log[n])
  }

  lemma SoundOne(base: Reg, from: nat, script: Script, log: seq<Delivery>, d: Delivery)
    requires Linked(base) && from <= |log| && Sound(base, from, script, |log|, d)
    ensures SoundFrom(base, from, script, |log|, log + [d])
  {
  }

  lemma SoundBoth(base: Reg, from: nat, script: Script, start: nat, a: seq<Delivery>, b: seq<Delivery>)
    requires Linked(base) && from <= start <= |a| && a <= b
    requires SoundFrom(base, from, script, start, a) && SoundFrom(base, from, script, |a|, b)
    ensures SoundFrom(base, from, script, start, b)
  {
    forall n | start <= n < |b|
      ensures Sound(base, from, script, n, b[n])
    {
      if n < |a| {
        assert b[n] == a[n];
      }
    }
  }

  lemma ProperNothing(base: Reg, from: nat, script: Script, w: World)
    requires Reaches(base, from, script, w)
    ensures Proper(base, from, script, w, w)
  {
  }

  lemma ProperTransitive(base: Reg, from: nat, script: Script, a: World, b: World, c: World)
    requires Proper(base, from, script, a, b) && Proper(base, from, script, b, c)
    ensures Proper(base, from, script, a, c)
  {
    GrownTransitive(a.reg, b.reg, c.reg);
    SoundBoth(base, from, script, |a.log|, b.log, c.log);
  }

  // ---------------------------------------------------------------- snapshots

  /** An observer of notifier `nid` that was listed in `base` if it existed then. */
  ghost predicate Fair(base: Reg, r: Reg, nid: nat, c: Cell)
    requires Linked(base)
  {
    && c.home == nid && c.id < |r.cells| && r.cells[c.id] == c
    && (c.id < |base.cells| ==> Listed(base, c))
  }

  /** A copy of the list of notifier `nid`. */
  ghost predicate CopyOf(base: Reg, r: Reg, nid: nat, snapshot: seq<Cell>)
    requires Linked(base)
  {
    nid < |r.notifiers| && forall i :: 0 <= i < |snapshot| ==> Fair(base, r, nid, snapshot[i])
  }

  lemma CopyStays(base: Reg, r: Reg, r': Reg, nid: nat, snapshot: seq<Cell>)
    requires Linked(base) && snapshot != [] && CopyOf(base, r, nid, snapshot) && Grown(r, r')
    ensures CopyOf(base, r', nid, snapshot[1..])
    ensures r'.notifiers[nid].socket == r.notifiers[nid].socket
  {
    forall i | 0 <= i < |snapshot[1..]|
      ensures Fair(base, r', nid, snapshot[1..][i])
    {
      assert Fair(base, r, nid, snapshot[i + 1]);
    }
  }

  /** The notifier is handled in `base`, or is younger. */
  ghost predicate WasHandled(base: Reg, nid: nat)
    requires Linked(base)
  {
    nid < |base.notifiers| ==> base.notifiers[nid].socket in base.handlers && base.handlers[base.notifiers[nid].socket] == nid
  }

  lemma HandledNow(base: Reg, from: nat, script: Script, w: World, s: Socket)
    requires Reaches(base, from, script, w) && s in w.reg.handlers
    ensures WasHandled(base, w.reg.handlers[s])
  {
    RunHandlers(base, History(script, from, |w.log|), s);
    assert s in base.handlers ==> base.notifiers[base.handlers[s]].socket == s;
  }

  lemma SnapshotIsFair(base: Reg, from: nat, script: Script, w: World, nid: nat)
    requires Reaches(base, from, script, w) && nid < |w.reg.notifiers| && WasHandled(base, nid)
    ensures CopyOf(base, w.reg, nid, w.reg.notifiers[nid].observers)
  {
    var cells := w.reg.notifiers[nid].observers;
    assert NotifierOk(w.reg, nid);
    forall i | 0 <= i < |cells|
      ensures Fair(base, w.reg, nid, cells[i])
    {
      assert CellOk(w.reg, nid, cells[i]);
      OldIsListed(base, from, script, w, nid, cells[i]);
    }
  }

  lemma OldIsListed(base: Reg, from: nat, script: Script, w: World, nid: nat, c: Cell)
    requires Reaches(base, from, script, w) && nid < |w.reg.notifiers| && WasHandled(base, nid)
    requires c in w.reg.notifiers[nid].observers && c.home == nid && c.id < |w.reg.cells| && w.reg.cells[c.id] == c
    ensures c.id < |base.cells| ==> Listed(base, c)
  {
    if c.id < |base.cells| {
      var cmds := History(script, from, |w.log|);
      ExecuteAllGrown(base, cmds);
      assert base.cells[c.id] == c;
      RunLists(base, cmds, nid, c);
    }
  }

  // ---------------------------------------------------------------- the dispatch functions

  lemma NotifySound(base: Reg, from: nat, script: Script, w: World, nid: nat, k: Kind, c: Cell)
    requires Reaches(base, from, script, w) && nid < |w.reg.notifiers| && Fair(base, w.reg, nid, c)
    requires IsIO(k) ==> w.reg.notifiers[nid].socket >= 0
    requires c.id in w.reg.enabled && Accepts(c.key.filter, k)
    ensures Sound(base, from, script, |w.log|, Delivery(w.reg.notifiers[nid].socket, k, c, w.reg))
  {
    var cmds := History(script, from, |w.log|);
    EnabledIsListedIff(base, cmds, c);
    ListedIsRegistered(w.reg, nid, k, c);
    if IsIO(k) {
      WatchedIsSpared(base, cmds, c, k);
    }
  }

  lemma ListedIsRegistered(r: Reg, nid: nat, k: Kind, c: Cell)
    requires WF(r) && nid < |r.notifiers| && c.home == nid && Accepts(c.key.filter, k)
    ensures ToRegistered(Delivery(r.notifiers[nid].socket, k, c, r)) <==> Listed(r, c)
  {
    var s := r.notifiers[nid].socket;
    if s in r.handlers && c in ObserversOf(r, s) {
      assert NotifierOk(r, r.handlers[s]);
      var i :| 0 <= i < |ObserversOf(r, s)| && ObserversOf(r, s)[i] == c;
      assert CellOk(r, r.handlers[s], ObserversOf(r, s)[i]);
    }
  }

  lemma ReachesNext(base: Reg, from: nat, script: Script, w: World, d: Delivery)
    requires Reaches(base, from, script, w)
    ensures var r' := ExecuteAll(w.reg, script(|w.log|).cmds);
            Grown(w.reg, r') && Reaches(base, from, script, World(r', w.log + [d]))
  {
    var cmds := script(|w.log|).cmds;
    RegAtStep(base, script, from, |w.log|);
    ExecuteAllGrown(w.reg, cmds);
    RunKeepsWF(w.reg, cmds);
  }

  /** One more sound delivery, and what its callback does. */
  lemma OneMoreProper(base: Reg, from: nat, script: Script, w: World, d: Delivery)
    requires Reaches(base, from, script, w) && Sound(base, from, script, |w.log|, d)
    ensures Proper(base, from, script, w, World(ExecuteAll(w.reg, script(|w.log|).cmds), w.log + [d]))
  {
    ReachesNext(base, from, script, w, d);
    SoundOne(base, from, script, w.log, d);
  }

  lemma NotifyProper(base: Reg, from: nat, script: Script, w: World, nid: nat, k: Kind, c: Cell)
    requires Reaches(base, from, script, w) && nid < |w.reg.notifiers| && Fair(base, w.reg, nid, c)
    requires IsIO(k) ==> w.reg.notifiers[nid].socket >= 0
    ensures Proper(base, from, script, w, Notify(w, w.reg.notifiers[nid].socket, k, c, script).0)
  {
    if c.id in w.reg.enabled && Accepts(c.key.filter, k) {
      NotifySound(base, from, script, w, nid, k, c);
      OneMoreProper(base, from, script, w, Delivery(w.reg.notifiers[nid].socket, k, c, w.reg));
    } else {
      ProperNothing(base, from, script, w);
    }
  }

  lemma {:induction false} PostProper(base: Reg, from: nat, script: Script, w: World, nid: nat, k: Kind, snapshot: seq<Cell>)
    requires Reaches(base, from, script, w) && CopyOf(base, w.reg, nid, snapshot)
    requires IsIO(k) ==> w.reg.notifiers[nid].socket >= 0
    ensures Proper(base, from, script, w, Post(w, w.reg.notifiers[nid].socket, k, snapshot, script).0)
    decreases |snapshot|
  {
    var s := w.reg.notifiers[nid].socket;
    if snapshot == [] {
    } else {
      var (w1, threw) := Notify(w, s, k, snapshot[0], script);
      NotifyProper(base, from, script, w, nid, k, snapshot[0]);
      if !threw {
        CopyStays(base, w.reg, w1.reg, nid, snapshot);
        PostProper(base, from, script, w1, nid, k, snapshot[1..]);
        ProperTransitive(base, from, script, w, w1, Post(w1, s, k, snapshot[1..], script).0);
      }
    }
  }

  lemma DispatchToProper(base: Reg, from: nat, script: Script, w: World, nid: nat, k: Kind)
    requires Reaches(base, from, script, w) && WasHandled(base, nid)
    requires IsIO(k) && nid < |w.reg.notifiers| ==> w.reg.notifiers[nid].socket >= 0
    ensures Proper(base, from, script, w, DispatchTo(w, nid, k, script))
  {
    if nid < |w.reg.notifiers| {
      SnapshotIsFair(base, from, script, w, nid);
      PostProper(base, from, script, w, nid, k, w.reg.notifiers[nid].observers);
    }
  }

  lemma {:induction false} DispatchAllProper(base: Reg, from: nat, script: Script, w: World, delegates: seq<nat>, k: Kind)
    requires Reaches(base, from, script, w) && !IsIO(k)
    requires forall i :: 0 <= i < |delegates| ==> WasHandled(base, delegates[i])
    ensures Proper(base, from, script, w, DispatchAll(w, delegates, k, script))
    decreases |delegates|
  {
    if delegates == [] {
    } else {
      var w1 := DispatchTo(w, delegates[0], k, script);
      DispatchToProper(base, from, script, w, delegates[0], k);
      DispatchAllProper(base, from, script, w1, delegates[1..], k);
      ProperTransitive(base, from, script, w, w1, DispatchAll(w, delegates, k, script));
    }
  }

  lemma BroadcastProper(base: Reg, from: nat, script: Script, w: World, k: Kind)
    requires Reaches(base, from, script, w) && !IsIO(k)
    ensures Proper(base, from, script, w, Broadcast(w, k, script))
  {
    var d := Delegates(w.reg);
    forall i | 0 <= i < |d|
      ensures WasHandled(base, d[i])
    {
      HandledNow(base, from, script, w, Ascending(w.reg.handlers.Keys)[i]);
    }
    DispatchAllProper(base, from, script, w, d, k);
  }

  lemma DispatchSocketProper(base: Reg, from: nat, script: Script, w: World, s: Socket, k: Kind)
    requires Reaches(base, from, script, w) && s >= 0
    ensures Proper(base, from, script, w, DispatchSocket(w, s, k, script))
  {
    if s in w.reg.handlers {
      HandledNow(base, from, script, w, s);
      DispatchToProper(base, from, script, w, w.reg.handlers[s], k);
    }
  }

  lemma DispatchBitsProper(base: Reg, from: nat, script: Script, w: World, s: Socket, bits: Mask)
    requires Reaches(base, from, script, w) && s >= 0
    ensures Proper(base, from, script, w, DispatchBits(w, s, bits, script))
  {
    var w1 := if bits.read then DispatchSocket(w, s, Readable, script) else w;
    var w2 := if bits.write then DispatchSocket(w1, s, Writable, script) else w1;
    ProperNothing(base, from, script, w);
    DispatchSocketProper(base, from, script, w, s, Readable);
    ProperNothing(base, from, script, w1);
    DispatchSocketProper(base, from, script, w1, s, Writable);
    ProperNothing(base, from, script, w2);
    DispatchSocketProper(base, from, script, w2, s, Error);
    ProperTransitive(base, from, script, w, w1, w2);
    ProperTransitive(base, from, script, w, w2, DispatchBits(w, s, bits, script));
  }

  lemma {:induction false} DispatchReadyProper(base: Reg, from: nat, script: Script, w: World, order: seq<Socket>, ready: map<Socket, Mask>)
    requires Reaches(base, from, script, w)
    requires forall i :: 0 <= i < |order| ==> order[i] in ready && order[i] >= 0
    ensures Proper(base, from, script, w, DispatchReady(w, order, ready, script))
    decreases |order|
  {
    if order == [] {
    } else {
      var w1 := DispatchBits(w, order[0], ready[order[0]], script);
      DispatchBitsProper(base, from, script, w, order[0], ready[order[0]]);
      DispatchReadyProper(base, from, script, w1, order[1..], ready);
      ProperTransitive(base, from, script, w, w1, DispatchReady(w, order, ready, script));
    }
  }

  lemma DispatchPolledProper(base: Reg, from: nat, script: Script, w: World, reported: seq<(Socket, Mask)>)
    requires Reaches(base, from, script, w)
    ensures Proper(base, from, script, w, DispatchPolled(w, PollResult(reported, w.reg.polled), script))
  {
    var ready := PollResult(reported, w.reg.polled);
    var order := Ascending(ready.Keys);
    forall i | 0 <= i < |order|
      ensures order[i] in ready && order[i] >= 0
    {
      PollResultMeaning(reported, w.reg.polled, order[i]);
    }
    DispatchReadyProper(base, from, script, w, order, ready);
  }

  // ---------------------------------------------------------------- one iteration of run

  lemma RoundProper(w: World, reported: seq<(Socket, Mask)>, script: Script)
    requires WF(w.reg)
    ensures Proper(w.reg, |w.log|, script, w, Round(w, reported, script))
  {
    var base, from := w.reg, |w.log|;
    if !HasSocketHandlers(w.reg) {
      BroadcastProper(base, from, script, w, Idle);
    } else {
      var ready := PollResult(reported, w.reg.polled);
      var w1 := DispatchPolled(w, ready, script);
      DispatchPolledProper(base, from, script, w, reported);
      if !AnyReadable(ready) {
        BroadcastProper(base, from, script, w1, Timeout);
        ProperTransitive(base, from, script, w, w1, Broadcast(w1, Timeout, script));
      }
    }
  }

  /** One iteration of `run`, whatever the kernel reports and the callbacks do. The registry agrees with
      itself afterwards and at every delivery; every readable, writable and error notification goes to
      an observer that is registered for that socket and kind when it is made; and an idle or timeout
      notification does so exactly if no earlier callback of the iteration has orphaned its observer,
      that is, removed it as the last one of a socket that was not polled. */
  lemma RoundIsSafe(w: World, reported: seq<(Socket, Mask)>, script: Script, n: nat)
    requires WF(w.reg)
    requires |w.log| <= n < |Round(w, reported, script).log|
    ensures WF(Round(w, reported, script).reg)
    ensures var d := Round(w, reported, script).log[n];
            && d.at == RegAt(w.reg, script, |w.log|, n) && WF(d.at)
            && d.cell.id in d.at.enabled && Accepts(d.cell.key.filter, d.kind)
            && (IsIO(d.kind) ==> ToRegistered(d))
            && (ToRegistered(d) <==> !OrphanedBy(w.reg, History(script, |w.log|, n), d.cell))
  {
    RoundProper(w, reported, script);
  }

  /** What an iteration leaves: the registry to which its callbacks add up, and, from a registry without
      orphans, none exactly if no callback made an orphaning removal; then every delivery of the
      iteration went to a registered observer. */
  lemma RoundOrphansIff(w: World, reported: seq<(Socket, Mask)>, script: Script)
    requires WF(w.reg) && NoOrphans(w.reg)
    ensures var w' := Round(w, reported, script);
            && |w.log| <= |w'.log|
            && w'.reg == RegAt(w.reg, script, |w.log|, |w'.log|)
            && var cmds := History(script, |w.log|, |w'.log|);
               && (NoOrphans(w'.reg) <==> OrphanFree(w.reg, cmds))
               && (OrphanFree(w.reg, cmds) ==> forall n :: |w.log| <= n < |w'.log| ==> ToRegistered(w'.log[n]))
  {
    RoundProper(w, reported, script);
    var w' := Round(w, reported, script);
    var cmds := History(script, |w.log|, |w'.log|);
    RunOrphansIff(w.reg, cmds);
    if OrphanFree(w.reg, cmds) {
      forall n | |w.log| <= n < |w'.log|
        ensures ToRegistered(w'.log[n])
      {
        assert Sound(w.reg, |w.log|, script, n, w'.log[n]);
        HistoryAppend(script, |w.log|, n, |w'.log|);
        PrefixOrphanFree(w.reg, History(script, |w.log|, n), History(script, n, |w'.log|));
        OrphanFreeSpares(w.reg, History(script, |w.log|, n), w'.log[n].cell);
      }
    }
  }

  lemma {:induction false} PrefixOrphanFree(r: Reg, a: seq<Cmd>, b: seq<Cmd>)
    requires Linked(r) && OrphanFree(r, a + b)
    ensures OrphanFree(r, a)
    decreases |a|
  {
    if a != [] {
      ExecuteLinked(r, a[0]);
      assert (a + b)[0] == a[0] && (a + b)[1..] == a[1..] + b;
      PrefixOrphanFree(Execute(r, a[0]).0, a[1..], b);
    }
  }

  // ---------------------------------------------------------------- silence

  ghost predicate AddsTo(cmds: seq<Cmd>, s: Socket) {
    exists i :: 0 <= i < |cmds| && cmds[i].Add? && cmds[i].socket == s
  }

  lemma {:induction false} StaysUnhandled(r: Reg, cmds: seq<Cmd>, s: Socket)
    requires Linked(r) && s !in r.handlers && !AddsTo(cmds, s)
    ensures s !in ExecuteAll(r, cmds).handlers
    decreases |cmds|
  {
    if cmds == [] {
    } else {
      ExecuteLinked(r, cmds[0]);
      assert cmds[0].Add? ==> cmds[0].socket != s;
      if cmds[0].Remove? {
        RemoveNet(r, cmds[0].socket, cmds[0].key);
      }
      assert !AddsTo(cmds[1..], s) by {
        assert forall i :: 0 <= i < |cmds[1..]| ==> cmds[1..][i] == cmds[i + 1];
      }
      StaysUnhandled(Execute(r, cmds[0]).0, cmds[1..], s);
    }
  }

  /** A socket that the callbacks before number `m` have unregistered, and that nobody registers again
      before number `n`, is not the socket of delivery `n`: always for I/O, and for the other kinds
      unless the observer was orphaned. */
  lemma UnregisteredIsSilent(w: World, reported: seq<(Socket, Mask)>, script: Script, m: nat, n: nat, s: Socket)
    requires WF(w.reg)
    requires |w.log| <= m <= n < |Round(w, reported, script).log|
    requires s !in RegAt(w.reg, script, |w.log|, m).handlers
    requires !AddsTo(History(script, m, n), s)
    ensures var d := Round(w, reported, script).log[n];
            IsIO(d.kind) || !OrphanedBy(w.reg, History(script, |w.log|, n), d.cell) ==> d.socket != s
  {
    RoundIsSafe(w, reported, script, n);
    var d := Round(w, reported, script).log[n];
    HistoryAppend(script, |w.log|, m, n);
    ExecuteAllAppend(w.reg, History(script, |w.log|, m), History(script, m, n));
    StaysUnhandled(RegAt(w.reg, script, |w.log|, m), History(script, m, n), s);
    assert s !in d.at.handlers;
  }

  // ---------------------------------------------------------------- an orphan that is called

  const FIRST: Key := Key(0, 0, Only(Idle))
  const SECOND: Key := Key(1, 0, Only(Idle))

  /** Two sockets that want idle notifications and no I/O. */
  const IDLERS: Reg := Reg(
    map[3 := 0, 5 := 1],
    [Notifier(3, [Cell(0, FIRST, 0)], multiset{}), Notifier(5, [Cell(1, SECOND, 1)], multiset{})],
    [Cell(0, FIRST, 0), Cell(1, SECOND, 1)],
    {0, 1}, {}, map[])

  /** Registering an observer that is counted under no kind on a socket nobody knows. */
  lemma AddUncounted(r: Reg, s: Socket, key: Key)
    requires Linked(r) && s !in r.handlers && Counted(key.filter) == multiset{}
    ensures var nid, c := |r.notifiers|, Cell(|r.cells|, key, |r.notifiers|);
            AddHandler(r, s, key)
            == (Reg(r.handlers[s := nid], r.notifiers + [Notifier(s, [c], multiset{})],
                    r.cells + [c], r.enabled + {c.id}, r.polled, r.kernel), true)
  {
    var nid, c := |r.notifiers|, Cell(|r.cells|, key, |r.notifiers|);
    var n, n' := Notifier(s, [], multiset{}), Notifier(s, [c], multiset{});
    assert !HasKey(n.observers, key);
    assert AddObserver(n, c) == n' by {
      assert [] + [c] == [c];
    }
    assert (r.notifiers + [n])[nid := n'] == r.notifiers + [n'];
  }

  lemma IdlersInTwo()
    ensures AddHandler(AddHandler(EMPTY_REG, 3, FIRST).0, 5, SECOND).0 == IDLERS
    ensures AddHandler(EMPTY_REG, 3, FIRST).1 && AddHandler(AddHandler(EMPTY_REG, 3, FIRST).0, 5, SECOND).1
  {
    AddUncounted(EMPTY_REG, 3, FIRST);
    var r1 := AddHandler(EMPTY_REG, 3, FIRST).0;
    assert r1 == Reg(map[3 := 0], [Notifier(3, [Cell(0, FIRST, 0)], multiset{})], [Cell(0, FIRST, 0)], {0}, {}, map[]);
    AddUncounted(r1, 5, SECOND);
    assert AddHandler(r1, 5, SECOND).0 == IDLERS;
  }

  lemma ExecuteTwo(r: Reg, a: Cmd, b: Cmd)
    requires Linked(r)
    ensures Linked(Execute(r, a).0)
    ensures ExecuteAll(r, [a, b]) == Execute(Execute(r, a).0, b).0
    ensures AllSucceed(r, [a, b]) <==> Execute(r, a).1 && Execute(Execute(r, a).0, b).1
  {
    ExecuteLinked(r, a);
    ExecuteOne(r, a);
    ExecuteOne(Execute(r, a).0, b);
    assert [a, b] == [a] + [b];
    ExecuteAllAppend(r, [a], [b]);
  }

  lemma ExecuteOne(r: Reg, a: Cmd)
    requires Linked(r)
    ensures ExecuteAll(r, [a]) == Execute(r, a).0
    ensures AllSucceed(r, [a]) <==> Execute(r, a).1
  {
    ExecuteLinked(r, a);
    assert [a][1..] == [];
  }

  lemma IdlersAreRegistered()
    ensures ExecuteAll(EMPTY_REG, [Add(3, FIRST), Add(5, SECOND)]) == IDLERS
    ensures WF(IDLERS) && NoOrphans(IDLERS)
  {
    var cmds := [Add(3, FIRST), Add(5, SECOND)];
    IdlersInTwo();
    ExecuteTwo(EMPTY_REG, cmds[0], cmds[1]);
    EmptyIsWF();
    RunKeepsWF(EMPTY_REG, cmds);
    SuccessIsOrphanFree(EMPTY_REG, cmds);
    RunOrphansIff(EMPTY_REG, cmds);
  }

  /** The callback of the first removes the observer of the second, which throws, and the exception
      leaves the callback. */
  function Rival(n: nat): Action {
    if n == 0 then Action([Remove(5, SECOND)], true) else Action([], false)
  }

  /** The removal throws and leaves its observer enabled, with no socket that leads to it. */
  lemma RemovalOrphans()
    ensures Orphaning(IDLERS, Remove(5, SECOND))
    ensures RemoveHandler(IDLERS, 5, SECOND) == (IDLERS.(handlers := map[3 := 0]), false)
    ensures !NoOrphans(IDLERS.(handlers := map[3 := 0]))
  {
    assert map[3 := 0, 5 := 1] - {5} == map[3 := 0];
    var r := IDLERS.(handlers := map[3 := 0]);
    assert 1 in r.enabled && !Listed(r, r.cells[1]);
  }

  /** The failure is real: in an idle iteration from a registry without orphans the second observer is
      called after the first callback has unregistered its socket. */
  lemma OrphanIsCalled()
    ensures var w' := Round(World(IDLERS, []), [], Rival);
            && |w'.log| == 2
            && w'.log[0].socket == 3 && w'.log[1].socket == 5
            && 5 !in w'.log[1].at.handlers && !ToRegistered(w'.log[1])
  {
    IdlersAreRegistered();
    RemovalOrphans();
    var w := World(IDLERS, []);
    IdlersInOrder();
    var c0, c1 := Cell(0, FIRST, 0), Cell(1, SECOND, 1);
    var r1 := IDLERS.(handlers := map[3 := 0]);
    var d0, d1 := Delivery(3, Idle, c0, IDLERS), Delivery(5, Idle, c1, r1);
    var w1 := World(r1, [d0]);
    var remove := [Remove(5, SECOND)];
    assert remove[1..] == [] && ExecuteAll(IDLERS, remove) == r1;
    NotifyCalls(w, 3, Idle, c0, Rival);
    assert w.log + [d0] == [d0];
    var w2 := World(r1, [d0, d1]);
    NotifyCalls(w1, 5, Idle, c1, Rival);
    assert w1.log + [d1] == [d0, d1];
    PostOne(w, 3, Idle, c0, Rival);
    PostOne(w1, 5, Idle, c1, Rival);
    assert DispatchTo(w, 0, Idle, Rival) == w1;
    assert DispatchTo(w1, 1, Idle, Rival) == w2;
    assert [0, 1][1..] == [1] && [1][1..] == [];
    assert DispatchAll(w1, [1], Idle, Rival) == w2;
    assert DispatchAll(w, [0, 1], Idle, Rival) == w2;
  }

  lemma NotifyCalls(w: World, s: Socket, k: Kind, c: Cell, script: Script)
    requires Linked(w.reg) && c.id in w.reg.enabled && Accepts(c.key.filter, k)
    ensures Notify(w, s, k, c, script)
            == (World(ExecuteAll(w.reg, script(|w.log|).cmds), w.log + [Delivery(s, k, c, w.reg)]), script(|w.log|).throws)
  {
  }

  lemma IdlersInOrder()
    ensures Delegates(IDLERS) == [0, 1]
  {
    var keys := IDLERS.handlers.Keys;
    assert keys == {3, 5};
    AscendingStep(keys, 3);
    assert keys - {3} == {5};
    AscendingStep({5}, 5);
    assert {5} - {5} == {};
    assert Ascending(keys) == [3, 5];
  }
}
