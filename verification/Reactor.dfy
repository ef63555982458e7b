/** The reactor of epoll_server in its own form: observers, notification centers, notifiers, the poll
    set and the reactor are objects that are updated in place. Every method is proved against the
    functions of `Registry` and `Dispatching`.

    Mutexes are taken to be re-entrant, and one public call is one step. */
module Reactors {
  import opened Wrappers
  import opened Registry
  import opened RegistryAgreement
  import opened Dispatching
  import opened Epoll
  import opened DispatchSafety
  import opened Sequences

  /** `Observer` and `NObserver`: the clone that a notification center keeps. */
  class Observer {
    ghost const cell: Cell
    var target: Option<nat>      // `_pObject`, `None` once disabled
    const callback: nat
    const filter: Filter

    ghost predicate Valid()
      reads this
    {
      && callback == cell.key.callback && filter == cell.key.filter
      && (target.Some? ==> target.value == cell.key.target)
    }

    constructor (key: Key, ghost id: nat, ghost home: nat)
      ensures Valid() && cell == Cell(id, key, home) && target.Some?
    {
      cell := Cell(id, key, home);
      target := Some(key.target);
      callback, filter := key.callback, key.filter;
    }

    predicate Equals(key: Key)
      reads this
    {
      target == Some(key.target) && callback == key.callback && filter == key.filter
    }

    method Disable()
      requires Valid()
      modifies this
      ensures Valid() && target == None
    {
      target := None;
    }

    /** `notify` for a notification of kind `k` about socket `s`; true when the callback throws. */
    method Notify(reactor: SocketReactor, s: Socket, k: Kind, script: Script) returns (threw: bool)
      requires reactor.Valid() && reactor.Knows(this)
      modifies reactor, reactor.repr
      ensures reactor.Valid() && (forall x :: x in reactor.repr ==> x in old(reactor.repr) || fresh(x))
      ensures old(reactor.observers) <= reactor.observers && old(reactor.notifiers) <= reactor.notifiers
      ensures (reactor.world, threw) == Dispatching.Notify(old(reactor.world), s, k, cell, script)
      ensures var calls := old(target.Some?) && (filter == AnyKind || filter == Only(k));
              && reactor.world.log == old(reactor.world.log)
                 + (if calls then [Delivery(s, k, cell, old(reactor.world.reg))] else [])
              && (!calls ==> reactor.world.reg == old(reactor.world.reg) && !threw)
              && (calls ==> threw == script(|old(reactor.world.log)|).throws)
    {
      reactor.ObserverFacts(reactor.world.reg, this);
      if target.Some? && Accepts(filter, k) {
        threw := reactor.Callback(s, k, cell, script);
      } else {
        threw := false;
      }
    }
  }

  ghost function CellsOf(observers: seq<Observer>): (cells: seq<Cell>)
    ensures |cells| == |observers|
    ensures forall i :: 0 <= i < |cells| ==> cells[i] == observers[i].cell
  {
    seq(|observers|, i requires 0 <= i < |observers| => observers[i].cell)
  }

  class NotificationCenter {
    ghost const home: nat
    var observers: seq<Observer>

    constructor (ghost home: nat)
      ensures this.home == home && observers == []
    {
      this.home := home;
      observers := [];
    }

    /** The listed observers are in order and enabled, and no two have the same key. */
    ghost predicate Valid()
      reads this, observers
    {
      && (forall o :: o in observers ==> o.Valid() && o.target.Some?)
      && DistinctKeys(CellsOf(observers))
    }

    method AddObserver(key: Key, ghost id: nat) returns (o: Observer)
      modifies this
      ensures fresh(o) && o.Valid() && o.cell == Cell(id, key, home) && o.target.Some?
      ensures observers == old(observers) + [o]
      ensures CellsOf(observers) == old(CellsOf(observers)) + [Cell(id, key, home)]
    {
      o := new Observer(key, id, home);
      observers := observers + [o];
    }

    /** The first observer that equals `key`, or the length of the list. */
    method Find(key: Key) returns (at: nat)
      requires Valid()
      ensures at == IndexOf(CellsOf(observers), key)
    {
      at := 0;
      while at < |observers|
        invariant at <= |observers|
        invariant forall j :: 0 <= j < at ==> CellsOf(observers)[j].key != key
      {
        assert observers[at] in observers;
        if observers[at].Equals(key) {
          break;
        }
        at := at + 1;
      }
    }

    method HasObserver(key: Key) returns (has: bool)
      requires Valid()
      ensures has == HasKey(CellsOf(observers), key)
    {
      var at := Find(key);
      has := at < |observers|;
    }

    method RemoveObserver(key: Key) returns (ghost removed: Option<Observer>)
      requires Valid()
      modifies this, observers
      ensures var cells := old(CellsOf(observers));
              var at := IndexOf(cells, key);
              if at < |cells| then
                && removed == Some(old(observers)[at])
                && removed.value.Valid() && removed.value.target == None
                && CellsOf(observers) == Without(cells, at)
                && observers == old(observers[..at] + observers[at + 1..])
                && (forall o: Observer :: o in old(observers) && o != removed.value ==> o.target == old(o.target))
              else
                removed == None && unchanged(this) && unchanged(old(observers))
    {
      var at := Find(key);
      removed := None;
      if at < |observers| {
        var o := observers[at];
        removed := Some(o);
        o.Disable();
        observers := observers[..at] + observers[at + 1..];
      }
    }

    /** `postNotification`: the callbacks run over a copy of the list; an exception ends the loop. */
    method PostNotification(reactor: SocketReactor, s: Socket, k: Kind, script: Script) returns (threw: bool)
      requires reactor.Valid()
      requires forall i :: 0 <= i < |observers| ==> reactor.Knows(observers[i])
      modifies reactor, reactor.repr
      ensures reactor.Valid() && (forall x :: x in reactor.repr ==> x in old(reactor.repr) || fresh(x))
      ensures old(reactor.observers) <= reactor.observers && old(reactor.notifiers) <= reactor.notifiers
      ensures (reactor.world, threw) == Post(old(reactor.world), s, k, old(CellsOf(observers)), script)
    {
      var snapshot := observers;
      ghost var cells := CellsOf(snapshot);
      ghost var before := reactor.world;
      var i := 0;
      while i < |snapshot|
        invariant 0 <= i <= |snapshot|
        invariant reactor.Valid() && (forall x :: x in reactor.repr ==> x in old(reactor.repr) || fresh(x))
        invariant old(reactor.observers) <= reactor.observers && old(reactor.notifiers) <= reactor.notifiers
        invariant Posted(before, s, k, cells, script, i, reactor.world)
      {
        threw := NotifyNext(reactor, snapshot[i], s, k, script, before, cells, i);
        if threw {
          return;
        }
        i := i + 1;
      }
      assert cells[..i] == cells;
      threw := false;
    }

    /** The body of the loop. */
    method NotifyNext(reactor: SocketReactor, o: Observer, s: Socket, k: Kind, script: Script,
                      ghost before: World, ghost cells: seq<Cell>, ghost i: nat)
      returns (threw: bool)
      requires reactor.Valid() && reactor.Knows(o)
      requires i < |cells| && cells[i] == o.cell
      requires Posted(before, s, k, cells, script, i, reactor.world)
      modifies reactor, reactor.repr
      ensures reactor.Valid() && (forall x :: x in reactor.repr ==> x in old(reactor.repr) || fresh(x))
      ensures old(reactor.observers) <= reactor.observers && old(reactor.notifiers) <= reactor.notifiers
      ensures if threw then Post(before, s, k, cells, script) == (reactor.world, true)
              else Posted(before, s, k, cells, script, i + 1, reactor.world)
    {
      PostStep(before, s, k, cells, script, i);
      threw := o.Notify(reactor, s, k, script);
    }
  }

  /** The first `i` observers of the copy have been dealt with. */
  ghost predicate Posted(before: World, s: Socket, k: Kind, cells: seq<Cell>, script: Script, i: nat, w: World) {
    i <= |cells| && Linked(before.reg) && Post(before, s, k, cells[..i], script) == (w, false)
  }

  /** An observer is where its identity says. */
  ghost predicate AllKnown(list: seq<Observer>, all: seq<Observer>) {
    forall j :: 0 <= j < |list| ==> list[j].cell.id < |all| && all[list[j].cell.id] == list[j]
  }

  lemma StillKnown(list: seq<Observer>, at: nat, all: seq<Observer>)
    requires at < |list| && AllKnown(list, all)
    ensures AllKnown(list[..at] + list[at + 1..], all)
  {
    TakenOut(list, at);
  }

  class SocketNotifier {
    ghost const nid: nat
    const socket: Socket
    const nc: NotificationCenter
    var events: multiset<Kind>

    constructor (socket: Socket, ghost nid: nat)
      ensures this.socket == socket && this.nid == nid && nc.home == nid && fresh(nc)
      ensures events == multiset{} && nc.observers == []
    {
      this.socket := socket;
      this.nid := nid;
      nc := new NotificationCenter(nid);
      events := multiset{};
    }

    /** This object is what `n` describes. */
    ghost predicate Shows(n: Notifier)
      reads this, nc
    {
      nid == nc.home && socket == n.socket && events == n.events && CellsOf(nc.observers) == n.observers
    }

    /** `_events.insert`, under the first kind the observer accepts. */
    method Count(f: Filter)
      modifies this`events
      ensures events == old(events) + Counted(f)
      ensures events == old(events) + if f == AnyKind then multiset{Readable}
                                      else if f.kind == Idle || f.kind == Shutdown then multiset{} else multiset{f.kind}
    {
      if Registry.Accepts(f, Readable) {
        events := events + multiset{Readable};
      } else if Registry.Accepts(f, Writable) {
        events := events + multiset{Writable};
      } else if Registry.Accepts(f, Error) {
        events := events + multiset{Error};
      } else if Registry.Accepts(f, Timeout) {
        events := events + multiset{Timeout};
      }
    }

    /** `_events.erase`, of one entry. */
    method Uncount(f: Filter)
      modifies this`events
      ensures events == old(events) - Counted(f)
      ensures events == old(events) - if f == AnyKind then multiset{Readable}
                                      else if f.kind == Idle || f.kind == Shutdown then multiset{} else multiset{f.kind}
    {
      if Registry.Accepts(f, Readable) {
        events := events - multiset{Readable};
      } else if Registry.Accepts(f, Writable) {
        events := events - multiset{Writable};
      } else if Registry.Accepts(f, Error) {
        events := events - multiset{Error};
      } else if Registry.Accepts(f, Timeout) {
        events := events - multiset{Timeout};
      }
    }

    method AddObserver(key: Key, ghost id: nat, ghost n: Notifier) returns (o: Observer)
      requires Shows(n)
      modifies this, nc
      ensures fresh(o) && o.Valid() && o.cell == Cell(id, key, nid) && o.target.Some?
      ensures nc.observers == old(nc.observers) + [o]
      ensures Shows(Registry.AddObserver(n, o.cell))
      ensures events == old(events) + if key.filter == AnyKind then multiset{Readable}
                                      else if key.filter.kind == Idle || key.filter.kind == Shutdown then multiset{}
                                      else multiset{key.filter.kind}
    {
      o := nc.AddObserver(key, id);
      Count(key.filter);
    }

    method RemoveObserver(key: Key, ghost n: Notifier, ghost all: seq<Observer>) returns (ghost removed: Observer)
      requires ShowsNotifier(this, n, nid, all) && nc.Valid() && HasKey(n.observers, key)
      modifies this, nc, nc.observers
      ensures removed == old(nc.observers)[IndexOf(n.observers, key)]
      ensures removed.Valid() && removed.target == None
      ensures forall o: Observer :: o in old(nc.observers) && o != removed ==> o.target == old(o.target)
      ensures ShowsNotifier(this, Registry.RemoveObserver(n, key), nid, all)
      ensures events == old(events) - if key.filter == AnyKind then multiset{Readable}
                                      else if key.filter.kind == Idle || key.filter.kind == Shutdown then multiset{}
                                      else multiset{key.filter.kind}
    {
      ghost var list, at := nc.observers, IndexOf(n.observers, key);
      ghost var gone := nc.RemoveObserver(key);
      removed := gone.value;
      assert nc.observers == list[..at] + list[at + 1..];
      StillKnown(list, at, all);
      Uncount(key.filter);
    }

    method HasObserver(key: Key) returns (has: bool)
      requires nc.Valid()
      ensures has == HasKey(CellsOf(nc.observers), key)
    {
      has := nc.HasObserver(key);
    }

    function CountObservers(): nat
      reads this, nc
    {
      |nc.observers|
    }

    predicate Accepts(k: Kind)
      reads this
    {
      k in events
    }

    function Mode(): Mask
      reads this
    {
      Mask(Accepts(Readable), Accepts(Writable), Accepts(Error))
    }
  }

  datatype Errno = OK | EEXIST | ENOENT | EBADF

  function PollCall(op: CtlOp, r: Reg, s: Socket, mode: Mask): (Reg, bool) {
    match op
    case CtlAdd => PollAdd(r, s, mode)
    case CtlMod => PollUpdate(r, s, mode)
    case CtlDel => PollRemove(r, s)
  }

  /** The poll set, and behind it the interest set of its epoll descriptor. */
  class PollSet {
    var kernel: map<int, Mask>
    var sockets: set<Socket>       // the keys of `_socketMap`

    constructor ()
      ensures kernel == map[] && sockets == {}
    {
      kernel, sockets := map[], {};
    }

    /** `epoll_ctl`. */
    method Ctl(op: CtlOp, fd: int, mask: Mask) returns (err: Errno)
      modifies this`kernel
      ensures err == if op.CtlAdd? then (if fd in old(kernel) then EEXIST else if fd < 0 then EBADF else OK)
                     else if fd in old(kernel) then OK else ENOENT
      ensures kernel == if err != OK then old(kernel) else if op.CtlDel? then old(kernel) - {fd} else old(kernel)[fd := mask]
    {
      err := OK;
      match op {
        case CtlAdd =>
          if fd in kernel {
            err := EEXIST;
          } else if fd < 0 {
            err := EBADF;
          } else {
            kernel := kernel[fd := mask];
          }
        case CtlMod =>
          if fd !in kernel {
            err := ENOENT;
          } else {
            kernel := kernel[fd := mask];
          }
        case CtlDel =>
          if fd !in kernel {
            err := ENOENT;
          } else {
            kernel := kernel - {fd};
          }
      }
    }

    ghost predicate Shows(r: Reg)
      reads this
    {
      kernel == r.kernel && sockets == r.polled
    }

    method Add(s: Socket, mode: Mask, ghost r: Reg) returns (result: Result<()>)
      requires Shows(r) && (s < 0 ==> s !in r.kernel)
      modifies this
      ensures Shows(PollAdd(r, s, mode).0)
      ensures result.Success? <==> PollAdd(r, s, mode).1
      ensures if s < 0 then result.Failure? && kernel == old(kernel) && sockets == old(sockets)
              else result.Success? && kernel == old(kernel)[s := mode] && sockets == old(sockets) + {s}
    {
      var err := Ctl(CtlAdd, s, mode);
      if err != OK {
        if err == EEXIST {
          var updated := Update(s, mode, r);
          if updated.Failure? {
            return updated;
          }
        } else {
          return Failure(EpollFailed);
        }
      }
      if s !in sockets {
        sockets := sockets + {s};
      }
      return Success(());
    }

    method Remove(s: Socket, ghost r: Reg) returns (result: Result<()>)
      requires Shows(r)
      modifies this
      ensures Shows(PollRemove(r, s).0)
      ensures result.Success? <==> PollRemove(r, s).1
      ensures if s !in old(kernel) then result.Failure? && kernel == old(kernel) && sockets == old(sockets)
              else result.Success? && kernel == old(kernel) - {s} && sockets == old(sockets) - {s}
    {
      var err := Ctl(CtlDel, s, NO_MASK);
      if err != OK {
        return Failure(EpollFailed);
      }
      sockets := sockets - {s};
      return Success(());
    }

    method Update(s: Socket, mode: Mask, ghost r: Reg) returns (result: Result<()>)
      requires Shows(r)
      modifies this`kernel
      ensures Shows(PollUpdate(r, s, mode).0)
      ensures result.Success? <==> PollUpdate(r, s, mode).1
      ensures if s !in old(kernel) then result.Failure? && kernel == old(kernel)
              else result.Success? && kernel == old(kernel)[s := mode]
    {
      var err := Ctl(CtlMod, s, mode);
      if err != OK {
        return Failure(EpollFailed);
      }
      return Success(());
    }

    predicate Has(s: Socket)
      reads this
    {
      s in sockets
    }

    predicate Empty()
      reads this
    {
      sockets == {}
    }

    /** Part of the interface, though the reactor has no use for it. */
    method Clear(ghost r: Reg)
      requires Shows(r)
      modifies this
      ensures Shows(r.(kernel := map[], polled := {}))
    {
      sockets := {};
      kernel := map[];
    }

    /** `poll`, given what `epoll_wait` reports. */
    method Poll(reported: seq<(Socket, Mask)>) returns (result: map<Socket, Mask>)
      ensures result == PollResult(reported, sockets)
    {
      result := map[];
      if Empty() {
        PollNothing(reported);
        return;
      }
      for i := 0 to |reported|
        invariant result == PollResult(reported[..i], sockets)
      {
        var (s, bits) := reported[i];
        assert reported[..i + 1][..i] == reported[..i];
        if s in sockets {
          if bits.read {
            result := result[s := Join(if s in result then result[s] else NO_MASK, Mask(true, false, false))];
          }
          if bits.write {
            result := result[s := Join(if s in result then result[s] else NO_MASK, Mask(false, true, false))];
          }
          if bits.error {
            result := result[s := Join(if s in result then result[s] else NO_MASK, Mask(false, false, true))];
          }
        }
      }
      assert reported[..|reported|] == reported;
    }
  }

  lemma {:induction false} PollNothing(reported: seq<(Socket, Mask)>)
    ensures PollResult(reported, {}) == map[]
    decreases |reported|
  {
    if reported != [] {
      PollNothing(reported[..|reported| - 1]);
    }
  }

  class SocketReactor {
    const pollSet: PollSet
    var handlers: map<Socket, SocketNotifier>
    var calls: nat                            // callbacks made so far

    ghost var notifiers: seq<SocketNotifier>  // every notifier made so far
    ghost var observers: seq<Observer>        // every observer cloned so far
    ghost var world: World
    ghost var repr: set<object>

    /** Everything the reactor refers to is its own. */
    ghost predicate Owns()
      reads this`repr, this`notifiers, this`observers
    {
      && this !in repr && pollSet in repr
      && (forall i :: 0 <= i < |notifiers| ==> notifiers[i] in repr && notifiers[i].nc in repr)
      && (forall i :: 0 <= i < |observers| ==> observers[i] in repr)
    }

    /** The objects are what `r` describes. */
    ghost predicate Shows(r: Reg)
      reads this`repr, this`notifiers, this`observers, this`handlers, repr
    {
      && Owns()
      && Linked(r)
      && handlers.Keys == r.handlers.Keys
      && |notifiers| == |r.notifiers|
      && (forall s :: s in r.handlers ==> handlers[s] == notifiers[r.handlers[s]])
      && (forall i :: 0 <= i < |notifiers| ==> ShowsNotifier(notifiers[i], r.notifiers[i], i, observers))
      && |observers| == |r.cells|
      && (forall i :: 0 <= i < |observers| ==> ShowsObserver(observers[i], r.cells[i], i, i in r.enabled))
      && pollSet.Shows(r)
    }

    ghost predicate Valid()
      reads this, repr
    {
      Shows(world.reg) && WF(world.reg) && calls == |world.log|
    }

    constructor ()
      ensures Valid() && fresh(repr) && world == World(EMPTY_REG, [])
    {
      pollSet := new PollSet();
      handlers := map[];
      calls := 0;
      notifiers, observers, world := [], [], World(EMPTY_REG, []);
      new;
      repr := {pollSet};
      EmptyIsWF();
    }

    /** One of the reactor's observers. */
    ghost predicate Knows(o: Observer)
      reads this`observers
    {
      o.cell.id < |observers| && observers[o.cell.id] == o
    }

    lemma ObserverFacts(r: Reg, o: Observer)
      requires Shows(r) && Knows(o)
      ensures o.Valid() && o.cell.id < |r.cells| && r.cells[o.cell.id] == o.cell
      ensures o.target.Some? <==> o.cell.id in r.enabled
    {
      var i := o.cell.id;
      assert ShowsObserver(observers[i], r.cells[i], i, i in r.enabled);
    }

    /** What a notifier's own center needs, from the invariant of the registry. */
    lemma CenterFacts(r: Reg, nid: nat)
      requires Shows(r) && Structure(r) && nid < |notifiers|
      ensures notifiers[nid].nc.Valid()
      ensures forall i :: 0 <= i < |notifiers[nid].nc.observers| ==> Knows(notifiers[nid].nc.observers[i])
    {
      var n := notifiers[nid];
      assert ShowsNotifier(n, r.notifiers[nid], nid, observers) && NotifierOk(r, nid);
      forall j | 0 <= j < |n.nc.observers|
        ensures n.nc.observers[j].Valid() && n.nc.observers[j].target.Some? && Knows(n.nc.observers[j])
      {
        var o := n.nc.observers[j];
        assert CellsOf(n.nc.observers)[j] == o.cell && CellOk(r, nid, o.cell);
        ObserverFacts(r, o);
      }
    }

    lemma DistinctNotifiers(r: Reg, nid: nat)
      requires Shows(r) && nid < |notifiers|
      ensures forall i :: 0 <= i < |notifiers| && i != nid ==>
                notifiers[i] != notifiers[nid] && notifiers[i].nc != notifiers[nid].nc
    {
      assert ShowsNotifier(notifiers[nid], r.notifiers[nid], nid, observers);
      forall i | 0 <= i < |notifiers| && i != nid
        ensures notifiers[i] != notifiers[nid] && notifiers[i].nc != notifiers[nid].nc
      {
        assert ShowsNotifier(notifiers[i], r.notifiers[i], i, observers);
      }
    }

    /** One callback: it is recorded, and then does to the reactor what the script says. */
    method Callback(s: Socket, k: Kind, ghost c: Cell, script: Script) returns (threw: bool)
      requires Valid() && c.id in world.reg.enabled && Registry.Accepts(c.key.filter, k)
      modifies this, repr
      ensures Valid() && (forall o :: o in repr ==> o in old(repr) || fresh(o))
      ensures old(observers) <= observers && old(notifiers) <= notifiers
      ensures (world, threw) == Dispatching.Notify(old(world), s, k, c, script)
    {
      var action := script(calls);
      ghost var reg := world.reg;
      world := World(reg, world.log + [Delivery(s, k, c, reg)]);
      calls := calls + 1;
      Perform(action.cmds);
      threw := action.throws;
    }

    method Perform(cmds: seq<Cmd>)
      requires Valid()
      modifies this, repr
      ensures Valid() && (forall o :: o in repr ==> o in old(repr) || fresh(o))
      ensures old(observers) <= observers && old(notifiers) <= notifiers
      ensures world == old(world).(reg := ExecuteAll(old(world).reg, cmds))
      decreases |cmds|
    {
      if |cmds| > 0 {
        Do(cmds[0]);
        Perform(cmds[1..]);
      }
    }

    method Do(cmd: Cmd)
      requires Valid()
      modifies this, repr
      ensures Valid() && (forall o :: o in repr ==> o in old(repr) || fresh(o))
      ensures old(observers) <= observers && old(notifiers) <= notifiers
      ensures world == old(world).(reg := Execute(old(world).reg, cmd).0)
    {
      match cmd
      case Add(s, key) => {
        var r := AddEventHandler(s, key);
      }
      case Remove(s, key) => {
        var r := RemoveEventHandler(s, key);
      }
    }

    /** `getNotifier(socket, true)`. */
    method MakeNotifier(s: Socket, ghost r: Reg) returns (n: SocketNotifier)
      requires Shows(r) && (s in handlers ==> handlers[s].nc.Valid())
      modifies this`handlers, this`notifiers, this`repr
      ensures (forall o :: o in repr ==> o in old(repr) || fresh(o)) && old(repr) <= repr && old(notifiers) <= notifiers
      ensures Shows(WithNotifier(r, s))
      ensures s in handlers && n == handlers[s]
      ensures n.nc.Valid()
    {
      if s in handlers {
        n := handlers[s];
      } else {
        n := new SocketNotifier(s, |notifiers|);
        handlers := handlers[s := n];
        notifiers := notifiers + [n];
        repr := repr + {n, n.nc};
      }
    }

    method AddEventHandler(s: Socket, key: Key) returns (r: Result<()>)
      requires Valid()
      modifies this, repr
      ensures Valid() && (forall o :: o in repr ==> o in old(repr) || fresh(o))
      ensures old(observers) <= observers && old(notifiers) <= notifiers
      ensures world == old(world).(reg := AddHandler(old(world).reg, s, key).0)
      ensures r.Success? <==> AddHandler(old(world).reg, s, key).1
    {
      ghost var reg := world.reg;
      AddKeepsWF(reg, s, key);
      EnlistStructure(reg, s, key);
      r := Enter(s, key, reg);
      world := world.(reg := AddHandler(reg, s, key).0);
    }

    method Enter(s: Socket, key: Key, ghost reg: Reg) returns (r: Result<()>)
      requires Shows(reg) && WF(reg)
      modifies this`handlers, this`notifiers, this`repr, this`observers, repr
      ensures (forall o :: o in repr ==> o in old(repr) || fresh(o))
      ensures old(observers) <= observers && old(notifiers) <= notifiers
      ensures Shows(AddHandler(reg, s, key).0)
      ensures r.Success? <==> AddHandler(reg, s, key).1
    {
      var n := Register(s, key, reg);
      ghost var r1 := Enlist(reg, s, key);
      assert ShowsNotifier(n, r1.notifiers[r1.handlers[s]], r1.handlers[s], observers);
      var mode := n.Mode();
      if mode != NO_MASK {
        assert AddHandler(reg, s, key) == PollCall(CtlAdd, r1, s, mode);
        r := TellPollSet(CtlAdd, s, mode, r1);
      } else {
        assert AddHandler(reg, s, key) == (r1, true);
        r := Success(());
      }
    }

    /** A call to the poll set, which disturbs no notifier and no observer. */
    method TellPollSet(op: CtlOp, s: Socket, mode: Mask, ghost r: Reg) returns (result: Result<()>)
      requires Shows(r) && (s < 0 ==> s !in r.kernel)
      modifies pollSet
      ensures Shows(PollCall(op, r, s, mode).0)
      ensures result.Success? <==> PollCall(op, r, s, mode).1
    {
      ghost var r' := PollCall(op, r, s, mode).0;
      match op {
        case CtlAdd => result := pollSet.Add(s, mode, r);
        case CtlMod => result := pollSet.Update(s, mode, r);
        case CtlDel => result := pollSet.Remove(s, r);
      }
      forall i | 0 <= i < |notifiers|
        ensures ShowsNotifier(notifiers[i], r'.notifiers[i], i, observers)
      {
        assert old(ShowsNotifier(notifiers[i], r.notifiers[i], i, observers));
      }
      forall i | 0 <= i < |observers|
        ensures ShowsObserver(observers[i], r'.cells[i], i, i in r'.enabled)
      {
        assert old(ShowsObserver(observers[i], r.cells[i], i, i in r.enabled));
      }
    }

    /** The part of `addEventHandler` that concerns the notifier. */
    method Register(s: Socket, key: Key, ghost reg: Reg) returns (n: SocketNotifier)
      requires Shows(reg) && Structure(reg)
      modifies this`handlers, this`notifiers, this`repr, this`observers, repr - {pollSet}
      ensures (forall o :: o in repr ==> o in old(repr) || fresh(o)) && old(repr) <= repr
      ensures old(observers) <= observers && old(notifiers) <= notifiers
      ensures Shows(Enlist(reg, s, key))
      ensures s in handlers && n == handlers[s]
    {
      if s in handlers {
        CenterFacts(reg, reg.handlers[s]);
      }
      n := MakeNotifier(s, reg);
      ghost var r1 := WithNotifier(reg, s);
      ghost var nid := r1.handlers[s];
      AddOnce(n, key, r1, nid);
    }

    /** `if (!hasObserver) addObserver`. */
    method AddOnce(n: SocketNotifier, key: Key, ghost r: Reg, ghost nid: nat)
      requires Shows(r) && nid < |notifiers| && n == notifiers[nid] && n.nc.Valid()
      modifies n, n.nc, this`observers, this`repr
      ensures (forall o :: o in repr ==> o in old(repr) || fresh(o)) && old(repr) <= repr && old(observers) <= observers
      ensures Shows(if HasKey(r.notifiers[nid].observers, key) then r else Clone(r, nid, key))
    {
      var has := Holds(n, key, r, nid);
      if !has {
        AddClone(n, key, r, nid);
      }
    }

    method Holds(n: SocketNotifier, key: Key, ghost r: Reg, ghost nid: nat) returns (has: bool)
      requires Shows(r) && nid < |notifiers| && n == notifiers[nid] && n.nc.Valid()
      ensures has == HasKey(r.notifiers[nid].observers, key)
    {
      assert ShowsNotifier(n, r.notifiers[nid], nid, observers);
      has := n.HasObserver(key);
    }

    /** Only the notifier of the new observer changes, so everything else is still shown. */
    method AddClone(n: SocketNotifier, key: Key, ghost r: Reg, ghost nid: nat)
      requires Shows(r) && nid < |notifiers| && n == notifiers[nid]
      modifies n, n.nc, this`observers, this`repr
      ensures (forall o :: o in repr ==> o in old(repr) || fresh(o)) && old(repr) <= repr && old(observers) <= observers
      ensures Shows(Clone(r, nid, key))
    {
      assert ShowsNotifier(n, r.notifiers[nid], nid, observers);
      DistinctNotifiers(r, nid);
      ghost var before := observers;
      var o := n.AddObserver(key, |observers|, r.notifiers[nid]);
      observers := observers + [o];
      repr := repr + {o};
      ghost var r' := Clone(r, nid, key);
      forall i | 0 <= i < |notifiers|
        ensures ShowsNotifier(notifiers[i], r'.notifiers[i], i, observers)
      {
        if i != nid {
          assert ShowsNotifier(notifiers[i], r.notifiers[i], i, before);
        }
      }
      forall i | 0 <= i < |observers|
        ensures ShowsObserver(observers[i], r'.cells[i], i, i in r'.enabled)
      {
        if i < |before| {
          assert old(ShowsObserver(before[i], r.cells[i], i, i in r.enabled));
        }
      }
    }

    method RemoveEventHandler(s: Socket, key: Key) returns (r: Result<()>)
      requires Valid()
      modifies this, repr
      ensures Valid() && (forall o :: o in repr ==> o in old(repr) || fresh(o))
      ensures old(observers) <= observers && old(notifiers) <= notifiers
      ensures world == old(world).(reg := RemoveHandler(old(world).reg, s, key).0)
      ensures r.Success? <==> RemoveHandler(old(world).reg, s, key).1
    {
      ghost var reg := world.reg;
      RemoveKeepsWF(reg, s, key);
      r := Leave(s, key, reg);
      world := world.(reg := RemoveHandler(reg, s, key).0);
    }

    /** `getNotifier(socket)`. */
    function GetNotifier(s: Socket): SocketNotifier?
      reads this`handlers
    {
      if s in handlers then handlers[s] else null
    }

    method Leave(s: Socket, key: Key, ghost reg: Reg) returns (r: Result<()>)
      requires Shows(reg) && WF(reg)
      modifies this`handlers, repr
      ensures Shows(RemoveHandler(reg, s, key).0)
      ensures r.Success? <==> RemoveHandler(reg, s, key).1
    {
      r := Success(());
      var n := GetNotifier(s);
      if n == null {
        return;
      }
      ghost var nid := reg.handlers[s];
      assert ShowsNotifier(n, reg.notifiers[nid], nid, observers);
      CenterFacts(reg, nid);
      var has := n.HasObserver(key);
      if !has {
        return;
      }
      if n.CountObservers() == 1 {
        r := LeaveLast(n, s, key, reg);
      } else {
        r := LeaveOne(n, s, key, reg);
      }
    }

    /** One observer of several. */
    method LeaveOne(n: SocketNotifier, s: Socket, key: Key, ghost reg: Reg) returns (r: Result<()>)
      requires Shows(reg) && s in handlers && n == handlers[s] && n.nc.Valid()
      requires s < 0 ==> s !in reg.kernel
      requires Registered(reg, s, key) && |ObserversOf(reg, s)| != 1
      modifies repr
      ensures Shows(RemoveHandler(reg, s, key).0)
      ensures r.Success? <==> RemoveHandler(reg, s, key).1
    {
      ghost var nid := reg.handlers[s];
      ghost var r1 := Delist(reg, nid, key);
      DropClone(n, key, reg, nid);
      assert ShowsNotifier(n, r1.notifiers[nid], nid, observers);
      r := Success(());
      if n.CountObservers() > 0 && s > 0 {
        r := TellPollSet(CtlMod, s, n.Mode(), r1);
      }
    }

    /** The last observer of a socket. */
    method LeaveLast(n: SocketNotifier, s: Socket, key: Key, ghost reg: Reg) returns (r: Result<()>)
      requires Shows(reg) && s in handlers && n == handlers[s] && n.nc.Valid()
      requires s < 0 ==> s !in reg.kernel
      requires Registered(reg, s, key) && |ObserversOf(reg, s)| == 1
      modifies this`handlers, repr
      ensures Shows(RemoveHandler(reg, s, key).0)
      ensures r.Success? <==> RemoveHandler(reg, s, key).1
    {
      ghost var nid := reg.handlers[s];
      ghost var r1 := reg.(handlers := reg.handlers - {s});
      handlers := handlers - {s};
      r := TellPollSet(CtlDel, s, NO_MASK, r1);
      if r.Success? {
        DropClone(n, key, PollRemove(r1, s).0, nid);
      }
    }

    /** Only one notifier and one observer change. */
    method DropClone(n: SocketNotifier, key: Key, ghost r: Reg, ghost nid: nat)
      requires Shows(r) && nid < |notifiers| && n == notifiers[nid] && n.nc.Valid()
      requires HasKey(r.notifiers[nid].observers, key)
      modifies n, n.nc, n.nc.observers
      ensures Shows(Delist(r, nid, key))
    {
      assert ShowsNotifier(n, r.notifiers[nid], nid, observers);
      DistinctNotifiers(r, nid);
      ghost var cells := r.notifiers[nid].observers;
      ghost var at := IndexOf(cells, key);
      ghost var list := n.nc.observers;
      assert Knows(list[at]);
      ObserverFacts(r, list[at]);
      ghost var removed := n.RemoveObserver(key, r.notifiers[nid], observers);
      ghost var r' := Delist(r, nid, key);
      assert removed.cell == cells[at] && removed == observers[cells[at].id];
      forall i | 0 <= i < |notifiers|
        ensures ShowsNotifier(notifiers[i], r'.notifiers[i], i, observers)
      {
        assert old(ShowsNotifier(notifiers[i], r.notifiers[i], i, observers));
      }
      forall i | 0 <= i < |observers|
        ensures ShowsObserver(observers[i], r'.cells[i], i, i in r'.enabled)
      {
        assert old(ShowsObserver(observers[i], r.cells[i], i, i in r.enabled));
        var o := observers[i];
        assert o == removed <==> i == cells[at].id;
        assert o != removed ==> o.target == old(o.target);
      }
    }

    // ---------------------------------------------------------------- dispatch

    /** `SocketNotifier::dispatch` through `dispatch(NotifierPtr&, ...)`, which swallows exceptions.
        The notifier may have left the handler map in the meantime. */
    method DispatchTo(n: SocketNotifier, k: Kind, script: Script)
      requires Valid() && n.nid < |notifiers| && notifiers[n.nid] == n
      modifies this, repr
      ensures Valid() && (forall o :: o in repr ==> o in old(repr) || fresh(o))
      ensures old(observers) <= observers && old(notifiers) <= notifiers
      ensures world == Dispatching.DispatchTo(old(world), n.nid, k, script)
    {
      assert ShowsNotifier(n, world.reg.notifiers[n.nid], n.nid, observers);
      var threw := n.nc.PostNotification(this, n.socket, k, script);
    }

    /** `dispatch(const ServerSocket&, ...)`. */
    method DispatchSocket(s: Socket, k: Kind, script: Script)
      requires Valid()
      modifies this, repr
      ensures Valid() && (forall o :: o in repr ==> o in old(repr) || fresh(o))
      ensures old(observers) <= observers && old(notifiers) <= notifiers
      ensures world == Dispatching.DispatchSocket(old(world), s, k, script)
    {
      var n := GetNotifier(s);
      if n == null {
        return;
      }
      ghost var nid := world.reg.handlers[s];
      assert ShowsNotifier(n, world.reg.notifiers[nid], nid, observers);
      DispatchTo(n, k, script);
    }

    /** The sockets of the handler map in its order of iteration. */
    static method Order(keys: set<Socket>) returns (order: seq<Socket>)
      ensures order == Ascending(keys)
    {
      order := [];
      var rest := keys;
      while rest != {}
        invariant order + Ascending(rest) == Ascending(keys)
        decreases |rest|
      {
        LeastExists(rest);
        ghost var least :| Least(least, rest);
        assert least in rest && forall t :: t in rest ==> least <= t;
        var s :| s in rest && forall t :: t in rest ==> s <= t;
        AscendingStep(rest, s);
        Regroup(order, [s], Ascending(rest - {s}));
        order := order + [s];
        rest := rest - {s};
      }
    }

    /** `dispatch(SocketNotification*)`: the notifiers are collected before the first callback runs. */
    method Broadcast(k: Kind, script: Script)
      requires Valid()
      modifies this, repr
      ensures Valid() && (forall o :: o in repr ==> o in old(repr) || fresh(o))
      ensures world == Dispatching.Broadcast(old(world), k, script)
    {
      var delegates := Collect();
      ghost var nids := Delegates(world.reg);
      ghost var before := world;
      for i := 0 to |delegates|
        invariant Valid() && (forall o :: o in repr ==> o in old(repr) || fresh(o)) && old(notifiers) <= notifiers
        invariant DispatchAll(before, nids, k, script) == DispatchAll(world, nids[i..], k, script)
      {
        assert Delegate(delegates[i], nids[i]);
        DispatchAllStep(world, nids, i, k, script);
        DispatchTo(delegates[i], k, script);
      }
    }

    lemma HandlerIsDelegate(s: Socket)
      requires Valid() && s in handlers
      ensures s in world.reg.handlers && Delegate(handlers[s], world.reg.handlers[s])
    {
      var nid := world.reg.handlers[s];
      assert ShowsNotifier(notifiers[nid], world.reg.notifiers[nid], nid, observers);
    }

    method Collect() returns (delegates: seq<SocketNotifier>)
      requires Valid()
      ensures |delegates| == |Delegates(world.reg)|
      ensures forall i :: 0 <= i < |delegates| ==> Delegate(delegates[i], Delegates(world.reg)[i])
    {
      var order := Order(handlers.Keys);
      delegates := [];
      for i := 0 to |order|
        invariant |delegates| == i
        invariant forall j :: 0 <= j < i ==> delegates[j] == handlers[order[j]]
      {
        delegates := delegates + [handlers[order[i]]];
      }
      forall i | 0 <= i < |delegates|
        ensures Delegate(delegates[i], Delegates(world.reg)[i])
      {
        HandlerIsDelegate(order[i]);
      }
    }

    ghost predicate Delegate(n: SocketNotifier, nid: nat)
      reads this`notifiers
    {
      n.nid == nid && nid < |notifiers| && notifiers[nid] == n
    }

    /** `has`: whether the socket is in the poll set. */
    predicate Has(s: Socket)
      requires Valid()
      reads this, repr
      ensures Has(s) <==> s in world.reg.polled
    {
      pollSet.Has(s)
    }

    method HasSocketHandlers() returns (has: bool)
      requires Valid()
      ensures has == Dispatching.HasSocketHandlers(world.reg)
    {
      has := false;
      if !pollSet.Empty() {
        var rest := handlers.Keys;
        while rest != {}
          invariant rest <= handlers.Keys
          invariant forall s :: s in handlers.Keys - rest ==>
                      ModeOf(world.reg.notifiers[world.reg.handlers[s]]) == NO_MASK
          decreases |rest|
        {
          ghost var some := Member(rest);
          var s :| s in rest;
          ghost var nid := world.reg.handlers[s];
          assert ShowsNotifier(notifiers[nid], world.reg.notifiers[nid], nid, observers);
          if handlers[s].Accepts(Readable) || handlers[s].Accepts(Writable) || handlers[s].Accepts(Error) {
            return true;
          }
          rest := rest - {s};
        }
      }
    }

    /** One iteration of `run`, given what `epoll_wait` reports if it is asked. */
    method RunOnce(reported: seq<(Socket, Mask)>, script: Script)
      requires Valid()
      modifies this, repr
      ensures Valid() && (forall o :: o in repr ==> o in old(repr) || fresh(o))
      ensures world == Round(old(world), reported, script)
    {
      var has := HasSocketHandlers();
      if !has {
        Broadcast(Idle, script);
        return;
      }
      BusyRound(reported, script);
    }

    method PollNow(reported: seq<(Socket, Mask)>) returns (sm: map<Socket, Mask>)
      requires Valid()
      ensures sm == PollResult(reported, world.reg.polled)
    {
      sm := pollSet.Poll(reported);
    }

    /** The iteration when some socket wants I/O. */
    method BusyRound(reported: seq<(Socket, Mask)>, script: Script)
      requires Valid()
      modifies this, repr
      ensures Valid() && (forall o :: o in repr ==> o in old(repr) || fresh(o))
      ensures world == Dispatching.BusyRound(old(world), reported, script)
    {
      var sm := PollNow(reported);
      var readable := DispatchPolled(sm, script);
      if !readable {
        Broadcast(Timeout, script);
      }
    }

    /** The loop over the poll result; true when something was readable. */
    method DispatchPolled(sm: map<Socket, Mask>, script: Script) returns (readable: bool)
      requires Valid()
      modifies this, repr
      ensures Valid() && (forall o :: o in repr ==> o in old(repr) || fresh(o))
      ensures world == Dispatching.DispatchPolled(old(world), sm, script)
      ensures readable == AnyReadable(sm)
    {
      var order := Order(sm.Keys);
      readable := false;
      ghost var before := world;
      for i := 0 to |order|
        invariant Valid() && (forall o :: o in repr ==> o in old(repr) || fresh(o))
        invariant DispatchReady(before, order, sm, script) == DispatchReady(world, order[i..], sm, script)
        invariant readable == ReadableBefore(order, sm, i)
      {
        DispatchReadyStep(world, order, i, sm, script);
        DispatchMode(order[i], sm[order[i]], script);
        readable := readable || sm[order[i]].read;
      }
      ReadableIsCovered(sm);
    }

    method DispatchMode(s: Socket, bits: Mask, script: Script)
      requires Valid()
      modifies this, repr
      ensures Valid() && (forall o :: o in repr ==> o in old(repr) || fresh(o))
      ensures world == DispatchBits(old(world), s, bits, script)
    {
      if bits.read {
        DispatchSocket(s, Readable, script);
      }
      if bits.write {
        DispatchSocket(s, Writable, script);
      }
      if bits.error {
        DispatchSocket(s, Error, script);
      }
    }
  }

  ghost predicate ReadableBefore(order: seq<Socket>, sm: map<Socket, Mask>, i: nat)
    requires i <= |order| && forall j :: 0 <= j < |order| ==> order[j] in sm
  {
    i > 0 && (sm[order[i - 1]].read || ReadableBefore(order, sm, i - 1))
  }

  lemma {:induction false} ReadableMember(order: seq<Socket>, sm: map<Socket, Mask>, i: nat)
    requires i <= |order| && forall j :: 0 <= j < |order| ==> order[j] in sm
    ensures ReadableBefore(order, sm, i) <==> exists j :: 0 <= j < i && sm[order[j]].read
  {
    if i > 0 {
      ReadableMember(order, sm, i - 1);
    }
  }

  lemma ReadableIsCovered(sm: map<Socket, Mask>)
    ensures ReadableBefore(Ascending(sm.Keys), sm, |Ascending(sm.Keys)|) == AnyReadable(sm)
  {
    var order := Ascending(sm.Keys);
    ReadableMember(order, sm, |order|);
    forall s | s in sm && sm[s].read
      ensures exists j :: 0 <= j < |order| && sm[order[j]].read
    {
      AscendingCovers(sm.Keys, s);
    }
  }

  ghost predicate ShowsNotifier(n: SocketNotifier, v: Notifier, i: nat, observers: seq<Observer>)
    reads n, n.nc
  {
    && n.nid == i
    && n.Shows(v)
    && AllKnown(n.nc.observers, observers)
  }

  ghost predicate ShowsObserver(o: Observer, c: Cell, i: nat, enabled: bool)
    reads o
  {
    o.Valid() && o.cell == c && c.id == i && (o.target.Some? <==> enabled)
  }
}
