/** What the reactor of epoll_server knows about its sockets, on values: the notifiers with their
    observer lists and event multisets (socket_notifier.cpp, notification_center.cpp), the handler map
    (socket_reactor.cpp), and the poll set with the interest masks of the kernel (poll_set.cpp).

    Notifiers and observers are shared objects in the source, so they are named here by the order of
    their creation: a notifier that has left the handler map, or an observer that has been disabled,
    can still be met by a dispatch that got hold of it earlier. */
module Registry {

  /** Sockets are compared by their descriptor (server_socket.h). */
  type Socket = int

  datatype Kind = Readable | Writable | Error | Timeout | Idle | Shutdown

  /** The template argument N of `NObserver<C, N>`: one notification class, or their common base. */
  datatype Filter = Only(kind: Kind) | AnyKind

  /** What `equals` compares. `callback` stands for the class, the template and the member function. */
  datatype Key = Key(target: nat, callback: nat, filter: Filter)

  predicate Accepts(f: Filter, k: Kind) {
    match f case Only(kind) => kind == k case AnyKind => true
  }

  /** The at most one kind under which `addObserver` counts an observer: its chain of tests stops at
      the first kind accepted and never looks at `Idle` and `Shutdown`. */
  function Counted(f: Filter): multiset<Kind> {
    if Accepts(f, Readable) then multiset{Readable}
    else if Accepts(f, Writable) then multiset{Writable}
    else if Accepts(f, Error) then multiset{Error}
    else if Accepts(f, Timeout) then multiset{Timeout}
    else multiset{}
  }

  /** The bits POLL_READ, POLL_WRITE, POLL_ERROR, and equally EPOLLIN, EPOLLOUT, EPOLLERR. */
  datatype Mask = Mask(read: bool, write: bool, error: bool)

  const NO_MASK := Mask(false, false, false)

  /** One cloned observer. `home` is the notifier it was added to. */
  datatype Cell = Cell(id: nat, key: Key, home: nat)

  datatype Notifier = Notifier(socket: Socket, observers: seq<Cell>, events: multiset<Kind>)

  datatype Reg = Reg(
    handlers: map<Socket, nat>,      // `_handlers`, by notifier
    notifiers: seq<Notifier>,        // every notifier made so far
    cells: seq<Cell>,                // every observer cloned so far
    enabled: set<nat>,               // the observers whose `_pObject` is not null
    polled: set<Socket>,             // `_socketMap`
    kernel: map<int, Mask>)          // the interest set of the epoll descriptor

  const EMPTY_REG := Reg(map[], [], [], {}, {}, map[])

  // ---------------------------------------------------------------- poll set

  /** `PollSet::add`: an existing entry is updated instead. */
  function PollAdd(r: Reg, s: Socket, mode: Mask): (Reg, bool) {
    if s < 0 then (r, false)
    else (r.(kernel := r.kernel[s := mode], polled := r.polled + {s}), true)
  }

  function PollRemove(r: Reg, s: Socket): (Reg, bool) {
    if s !in r.kernel then (r, false)
    else (r.(kernel := r.kernel - {s}, polled := r.polled - {s}), true)
  }

  function PollUpdate(r: Reg, s: Socket, mode: Mask): (Reg, bool) {
    if s !in r.kernel then (r, false) else (r.(kernel := r.kernel[s := mode]), true)
  }

  // ---------------------------------------------------------------- notifiers

  /** The position of the first observer that equals `key`. */
  function IndexOf(cells: seq<Cell>, key: Key): (i: nat)
    ensures i <= |cells|
    ensures i < |cells| ==> cells[i].key == key
    ensures forall j :: 0 <= j < i ==> cells[j].key != key
  {
    if cells == [] || cells[0].key == key then 0 else 1 + IndexOf(cells[1..], key)
  }

  predicate HasKey(cells: seq<Cell>, key: Key) { IndexOf(cells, key) < |cells| }

  function Without(cells: seq<Cell>, i: nat): seq<Cell>
    requires i < |cells|
  {
    cells[..i] + cells[i + 1..]
  }

  function AddObserver(n: Notifier, c: Cell): Notifier {
    n.(observers := n.observers + [c], events := n.events + Counted(c.key.filter))
  }

  function RemoveObserver(n: Notifier, key: Key): Notifier
    requires HasKey(n.observers, key)
  {
    n.(observers := Without(n.observers, IndexOf(n.observers, key)),
       events := n.events - Counted(key.filter))
  }

  function ModeOf(n: Notifier): Mask {
    Mask(Readable in n.events, Writable in n.events, Error in n.events)
  }

  // ---------------------------------------------------------------- registration

  /** Every notifier named is there. */
  predicate Linked(r: Reg) {
    forall s :: s in r.handlers ==> r.handlers[s] < |r.notifiers|
  }

  function ObserversOf(r: Reg, s: Socket): seq<Cell>
    requires Linked(r)
  {
    if s in r.handlers then r.notifiers[r.handlers[s]].observers else []
  }

  predicate Registered(r: Reg, s: Socket, key: Key)
    requires Linked(r)
  {
    HasKey(ObserversOf(r, s), key)
  }

  /** `getNotifier(socket, true)`. */
  function WithNotifier(r: Reg, s: Socket): Reg {
    if s in r.handlers then r
    else r.(handlers := r.handlers[s := |r.notifiers|],
            notifiers := r.notifiers + [Notifier(s, [], multiset{})])
  }

  function SetNotifier(r: Reg, nid: nat, n: Notifier): Reg
    requires nid < |r.notifiers|
  {
    r.(notifiers := r.notifiers[nid := n])
  }

  /** A new clone is enabled and joins its notifier. */
  function Clone(r: Reg, nid: nat, key: Key): Reg
    requires nid < |r.notifiers|
  {
    var c := Cell(|r.cells|, key, nid);
    SetNotifier(r, nid, AddObserver(r.notifiers[nid], c)).(
      cells := r.cells + [c],
      enabled := r.enabled + {c.id})
  }

  /** The observer list and the events after `addEventHandler`, before the poll set is told. */
  function Enlist(r: Reg, s: Socket, key: Key): Reg
    requires Linked(r)
  {
    var r1 := WithNotifier(r, s);
    var nid := r1.handlers[s];
    if HasKey(r1.notifiers[nid].observers, key) then r1 else Clone(r1, nid, key)
  }

  /** `addEventHandler`; the flag is false when it throws. */
  function AddHandler(r: Reg, s: Socket, key: Key): (Reg, bool)
    requires Linked(r)
  {
    var r1 := Enlist(r, s, key);
    var mode := ModeOf(r1.notifiers[r1.handlers[s]]);
    if mode == NO_MASK then (r1, true) else PollAdd(r1, s, mode)
  }

  /** The observer found by `key` is disabled and leaves its notifier. */
  function Delist(r: Reg, nid: nat, key: Key): Reg
    requires nid < |r.notifiers| && HasKey(r.notifiers[nid].observers, key)
  {
    var n := r.notifiers[nid];
    SetNotifier(r, nid, RemoveObserver(n, key)).(
      enabled := r.enabled - {n.observers[IndexOf(n.observers, key)].id})
  }

  /** `removeEventHandler`; the flag is false when it throws. The last observer of a socket takes the
      socket out of the handler map and the poll set before it is itself removed. */
  function RemoveHandler(r: Reg, s: Socket, key: Key): (Reg, bool)
    requires Linked(r)
  {
    if !Registered(r, s, key) then (r, true)
    else
      var nid := r.handlers[s];
      if |r.notifiers[nid].observers| == 1 then
        var r1 := r.(handlers := r.handlers - {s});
        var (r2, ok) := PollRemove(r1, s);
        if ok then (Delist(r2, nid, key), true) else (r1, false)
      else
        var r1 := Delist(r, nid, key);
        if s > 0 then PollUpdate(r1, s, ModeOf(r1.notifiers[nid])) else (r1, true)
  }

  /** What a callback can do to the reactor. */
  datatype Cmd = Add(socket: Socket, key: Key) | Remove(socket: Socket, key: Key)

  function Execute(r: Reg, c: Cmd): (Reg, bool)
    requires Linked(r)
  {
    match c
    case Add(s, key) => AddHandler(r, s, key)
    case Remove(s, key) => RemoveHandler(r, s, key)
  }

  lemma AddLinked(r: Reg, s: Socket, key: Key)
    requires Linked(r)
    ensures Linked(AddHandler(r, s, key).0)
  {
    assert Linked(WithNotifier(r, s));
    assert Linked(Enlist(r, s, key));
  }

  lemma RemoveLinked(r: Reg, s: Socket, key: Key)
    requires Linked(r)
    ensures Linked(RemoveHandler(r, s, key).0)
  {
    var r' := RemoveHandler(r, s, key).0;
    assert |r'.notifiers| == |r.notifiers|;
    assert r'.handlers == r.handlers || r'.handlers == r.handlers - {s};
  }

  lemma ExecuteLinked(r: Reg, c: Cmd)
    requires Linked(r)
    ensures Linked(Execute(r, c).0)
  {
    match c
    case Add(s, key) => AddLinked(r, s, key);
    case Remove(s, key) => RemoveLinked(r, s, key);
  }

  function ExecuteAll(r: Reg, cmds: seq<Cmd>): (r': Reg)
    requires Linked(r)
    ensures Linked(r')
    decreases |cmds|
  {
    if cmds == [] then r
    else ExecuteLinked(r, cmds[0]); ExecuteAll(Execute(r, cmds[0]).0, cmds[1..])
  }

  /** None of the calls throws. */
  ghost predicate AllSucceed(r: Reg, cmds: seq<Cmd>)
    requires Linked(r)
    decreases |cmds|
  {
    cmds == []
    || (ExecuteLinked(r, cmds[0]); Execute(r, cmds[0]).1 && AllSucceed(Execute(r, cmds[0]).0, cmds[1..]))
  }
}
