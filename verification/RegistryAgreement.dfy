/** The four places in which the reactor keeps its registrations agree after every run of
    `addEventHandler` and `removeEventHandler`, failing calls included. */
module RegistryAgreement {
  import opened Registry
  import opened Sequences

  // ---------------------------------------------------------------- the invariant

  /** The kinds under which a list of observers is counted. */
  ghost function Kinds(cells: seq<Cell>): multiset<Kind> {
    if cells == [] then multiset{} else Counted(cells[0].key.filter) + Kinds(cells[1..])
  }

  /** A listed observer is an enabled one that was cloned for this notifier. */
  ghost predicate CellOk(r: Reg, nid: nat, c: Cell) {
    c.home == nid && c.id < |r.cells| && r.cells[c.id] == c && c.id in r.enabled
  }

  ghost predicate DistinctKeys(cells: seq<Cell>) {
    forall i, j :: 0 <= i < j < |cells| ==> cells[i].key != cells[j].key
  }

  /** A list is in the order of registration. */
  ghost predicate InOrder(cells: seq<Cell>) {
    forall i, j :: 0 <= i < j < |cells| ==> cells[i].id < cells[j].id
  }

  ghost predicate NotifierOk(r: Reg, nid: nat)
    requires nid < |r.notifiers|
  {
    var n := r.notifiers[nid];
    && n.events == Kinds(n.observers)
    && DistinctKeys(n.observers) && InOrder(n.observers)
    && (forall i :: 0 <= i < |n.observers| ==> CellOk(r, nid, n.observers[i]))
  }

  /** Notifiers, observer lists, event multisets and observers fit together. */
  ghost predicate Structure(r: Reg) {
    && Linked(r)
    && (forall s :: s in r.handlers ==>
          r.notifiers[r.handlers[s]].socket == s && r.notifiers[r.handlers[s]].observers != [])
    && (forall nid :: 0 <= nid < |r.notifiers| ==> NotifierOk(r, nid))
    && (forall i :: 0 <= i < |r.cells| ==> r.cells[i].id == i && r.cells[i].home < |r.notifiers|)
    && (forall id :: id in r.enabled ==> id < |r.cells|)
  }

  /** A handled socket is polled as soon as one of its observers wants I/O. */
  ghost predicate Watched(r: Reg, s: Socket)
    requires Linked(r) && s in r.handlers
  {
    ModeOf(r.notifiers[r.handlers[s]]) != NO_MASK ==> s in r.polled
  }

  /** And while it is polled the kernel watches for exactly what its observers want. */
  ghost predicate Synced(r: Reg, s: Socket)
    requires Linked(r) && s in r.handlers
  {
    && Watched(r, s)
    && (s in r.polled ==> s in r.kernel && r.kernel[s] == ModeOf(r.notifiers[r.handlers[s]]))
  }

  ghost predicate Polls(r: Reg)
    requires Linked(r)
  {
    && r.polled == r.kernel.Keys
    && (forall s :: s in r.polled ==> s in r.handlers && s >= 0)
    && (forall s :: s in r.handlers && s >= 0 ==> Watched(r, s))
    && (forall s :: s in r.handlers && s > 0 ==> Synced(r, s))
  }

  ghost predicate WF(r: Reg) {
    Structure(r) && Polls(r)
  }

  lemma EmptyIsWF()
    ensures WF(EMPTY_REG)
  {
  }

  // ---------------------------------------------------------------- lists and multisets

  lemma {:induction false} KindsAppend(a: seq<Cell>, b: seq<Cell>)
    ensures Kinds(a + b) == Kinds(a) + Kinds(b)
  {
    if a == [] {
      assert a + b == b;
    } else {
      assert (a + b)[1..] == a[1..] + b;
      KindsAppend(a[1..], b);
    }
  }

  lemma KindsOne(c: Cell)
    ensures Kinds([c]) == Counted(c.key.filter)
  {
    assert Kinds([c][1..]) == multiset{};
  }

  lemma Swap(a: multiset<Kind>, x: multiset<Kind>, b: multiset<Kind>)
    ensures a + (x + b) == (a + b) + x
  {
  }

  lemma KindsMiddle(a: seq<Cell>, c: Cell, b: seq<Cell>)
    ensures Kinds(a + ([c] + b)) == Kinds(a + b) + Counted(c.key.filter)
  {
    KindsAppend(a, [c] + b);
    KindsAppend([c], b);
    KindsAppend(a, b);
    KindsOne(c);
    Swap(Kinds(a), Kinds([c]), Kinds(b));
  }

  lemma KindsWithout(cells: seq<Cell>, i: nat)
    requires i < |cells|
    ensures Kinds(cells) - Counted(cells[i].key.filter) == Kinds(Without(cells, i))
    ensures Counted(cells[i].key.filter) <= Kinds(cells)
  {
    SplitAt(cells, i);
    KindsMiddle(cells[..i], cells[i], cells[i + 1..]);
    TakeBack(Kinds(Without(cells, i)), Counted(cells[i].key.filter));
  }

  lemma TakeBack(a: multiset<Kind>, x: multiset<Kind>)
    ensures (a + x) - x == a && x <= a + x
  {
  }

  /** A kind is counted exactly when some listed observer accepts it first. */
  lemma {:induction false} KindsMember(cells: seq<Cell>, k: Kind)
    ensures k in Kinds(cells) <==> exists i :: 0 <= i < |cells| && k in Counted(cells[i].key.filter)
  {
    if cells == [] {
    } else {
      KindsMember(cells[1..], k);
      if k in Kinds(cells[1..]) {
        var i :| 0 <= i < |cells[1..]| && k in Counted(cells[1..][i].key.filter);
        assert k in Counted(cells[i + 1].key.filter);
      }
      if i :| 0 <= i < |cells| && k in Counted(cells[i].key.filter) {
        if i > 0 {
          assert k in Counted(cells[1..][i - 1].key.filter);
        }
      }
    }
  }

  /** How many observers of a list have filter `f`. */
  ghost function Having(cells: seq<Cell>, f: Filter): nat {
    if cells == [] then 0 else (if cells[0].key.filter == f then 1 else 0) + Having(cells[1..], f)
  }

  lemma {:induction false} HavingSome(cells: seq<Cell>, f: Filter)
    ensures Having(cells, f) > 0 <==> exists i :: 0 <= i < |cells| && cells[i].key.filter == f
  {
    if cells == [] {
    } else {
      HavingSome(cells[1..], f);
      if i :| 0 <= i < |cells[1..]| && cells[1..][i].key.filter == f {
        assert cells[i + 1].key.filter == f;
      }
      if i :| 0 <= i < |cells| && cells[i].key.filter == f {
        assert i > 0 ==> cells[1..][i - 1].key.filter == f;
      }
    }
  }

  function One(b: bool): nat { if b then 1 else 0 }

  /** Under which kind an observer is counted, by its template argument. */
  lemma CountedByFilter(f: Filter)
    ensures Counted(f)[Readable] == One(f == Only(Readable) || f == AnyKind)
    ensures Counted(f)[Writable] == One(f == Only(Writable))
    ensures Counted(f)[Error] == One(f == Only(Error))
    ensures Counted(f)[Timeout] == One(f == Only(Timeout))
    ensures Counted(f)[Idle] == 0 && Counted(f)[Shutdown] == 0
  {
  }

  lemma KindsFirst(cells: seq<Cell>, k: Kind)
    requires cells != []
    ensures Kinds(cells)[k] == Counted(cells[0].key.filter)[k] + Kinds(cells[1..])[k]
  {
  }

  /** The events of a list, by the template arguments of its observers: one for each observer of
      readable, writable, error and timeout notifications, an observer of all of them counting as one of
      readable, and none for idle and shutdown. */
  lemma {:induction false} KindsCount(cells: seq<Cell>)
    ensures Kinds(cells)[Readable] == Having(cells, Only(Readable)) + Having(cells, AnyKind)
    ensures Kinds(cells)[Writable] == Having(cells, Only(Writable))
    ensures Kinds(cells)[Error] == Having(cells, Only(Error))
    ensures Kinds(cells)[Timeout] == Having(cells, Only(Timeout))
    ensures Kinds(cells)[Idle] == 0 && Kinds(cells)[Shutdown] == 0
  {
    if cells == [] {
    } else {
      KindsCount(cells[1..]);
      CountedByFilter(cells[0].key.filter);
      KindsFirst(cells, Readable);
      KindsFirst(cells, Writable);
      KindsFirst(cells, Error);
      KindsFirst(cells, Timeout);
      KindsFirst(cells, Idle);
      KindsFirst(cells, Shutdown);
    }
  }

  // ---------------------------------------------------------------- one registration

  lemma WithNotifierFacts(r: Reg, s: Socket)
    requires Linked(r)
    ensures var r1 := WithNotifier(r, s);
            && Linked(r1) && s in r1.handlers && |r1.notifiers| >= |r.notifiers|
            && (forall nid :: 0 <= nid < |r.notifiers| ==> r1.notifiers[nid] == r.notifiers[nid])
            && r1.notifiers[r1.handlers[s]].observers == ObserversOf(r, s)
  {
  }

  /** A notifier stays in order while the observers it does not list come and go. */
  lemma NotifierStays(r: Reg, r': Reg, nid: nat)
    requires nid < |r.notifiers| && NotifierOk(r, nid)
    requires nid < |r'.notifiers| && r'.notifiers[nid] == r.notifiers[nid]
    requires r.cells <= r'.cells
    requires forall c :: c in r.notifiers[nid].observers ==> c.id in r'.enabled
    ensures NotifierOk(r', nid)
  {
    var cells := r.notifiers[nid].observers;
    forall i | 0 <= i < |cells|
      ensures CellOk(r', nid, cells[i])
    {
      assert CellOk(r, nid, cells[i]);
    }
  }

  lemma DistinctAppend(cells: seq<Cell>, c: Cell)
    requires DistinctKeys(cells) && !HasKey(cells, c.key)
    ensures DistinctKeys(cells + [c])
  {
    assert forall i :: 0 <= i < |cells| ==> cells[i].key != c.key;
  }

  lemma OrderAppend(r: Reg, nid: nat, cells: seq<Cell>, c: Cell)
    requires InOrder(cells) && c.id == |r.cells| && forall i :: 0 <= i < |cells| ==> CellOk(r, nid, cells[i])
    ensures InOrder(cells + [c])
  {
    forall i | 0 <= i < |cells|
      ensures cells[i].id < c.id
    {
      assert CellOk(r, nid, cells[i]);
    }
  }

  lemma MoreOk(r: Reg, r': Reg, nid: nat, cells: seq<Cell>, c: Cell)
    requires forall i :: 0 <= i < |cells| ==> CellOk(r, nid, cells[i])
    requires r.cells <= r'.cells && r.enabled <= r'.enabled && CellOk(r', nid, c)
    ensures forall i :: 0 <= i < |cells + [c]| ==> CellOk(r', nid, (cells + [c])[i])
  {
    forall i | 0 <= i < |cells + [c]|
      ensures CellOk(r', nid, (cells + [c])[i])
    {
      if i < |cells| {
        assert CellOk(r, nid, cells[i]);
      }
    }
  }

  lemma AddObserverOk(r: Reg, r': Reg, nid: nat, c: Cell)
    requires nid < |r.notifiers| && NotifierOk(r, nid) && !HasKey(r.notifiers[nid].observers, c.key)
    requires nid < |r'.notifiers| && r'.notifiers[nid] == AddObserver(r.notifiers[nid], c)
    requires r.cells <= r'.cells && r.enabled <= r'.enabled
    requires CellOk(r', nid, c) && c.id == |r.cells|
    ensures NotifierOk(r', nid)
  {
    var cells := r.notifiers[nid].observers;
    KindsAppend(cells, [c]);
    KindsOne(c);
    DistinctAppend(cells, c);
    OrderAppend(r, nid, cells, c);
    MoreOk(r, r', nid, cells, c);
  }

  lemma WithNotifierOk(r: Reg, s: Socket, nid: nat)
    requires Structure(r) && nid < |WithNotifier(r, s).notifiers|
    ensures NotifierOk(WithNotifier(r, s), nid)
  {
    if nid < |r.notifiers| {
      assert NotifierOk(r, nid);
      forall c | c in r.notifiers[nid].observers
        ensures c.id in r.enabled
      {
        var i :| 0 <= i < |r.notifiers[nid].observers| && r.notifiers[nid].observers[i] == c;
        assert CellOk(r, nid, r.notifiers[nid].observers[i]);
      }
      NotifierStays(r, WithNotifier(r, s), nid);
    }
  }

  lemma EnlistNotifierOk(r: Reg, s: Socket, key: Key, i: nat)
    requires Structure(r) && i < |Enlist(r, s, key).notifiers|
    ensures NotifierOk(Enlist(r, s, key), i)
  {
    var r1 := WithNotifier(r, s);
    var nid := r1.handlers[s];
    var n := r1.notifiers[nid];
    WithNotifierOk(r, s, i);
    if !HasKey(n.observers, key) {
      var c, r2 := Cell(|r.cells|, key, nid), Enlist(r, s, key);
      if i == nid {
        AddObserverOk(r1, r2, nid, c);
      } else {
        forall d | d in r1.notifiers[i].observers
          ensures d.id in r2.enabled
        {
          var j :| 0 <= j < |r1.notifiers[i].observers| && r1.notifiers[i].observers[j] == d;
          assert CellOk(r1, i, r1.notifiers[i].observers[j]);
        }
        NotifierStays(r1, r2, i);
      }
    }
  }

  lemma EnlistStructure(r: Reg, s: Socket, key: Key)
    requires Structure(r)
    ensures Structure(Enlist(r, s, key))
    ensures s in Enlist(r, s, key).handlers
  {
    var r2 := Enlist(r, s, key);
    forall i | 0 <= i < |r2.notifiers|
      ensures NotifierOk(r2, i)
    {
      EnlistNotifierOk(r, s, key, i);
    }
  }

  lemma WithoutDistinct(cells: seq<Cell>, at: nat)
    requires at < |cells| && DistinctKeys(cells)
    ensures DistinctKeys(Without(cells, at))
  {
    TakenOut(cells, at);
  }

  lemma WithoutInOrder(cells: seq<Cell>, at: nat)
    requires at < |cells| && InOrder(cells)
    ensures InOrder(Without(cells, at))
  {
    TakenOut(cells, at);
  }

  /** The observers that stay in a list when the one at `at` is taken out and disabled. */
  lemma OthersOk(r: Reg, r': Reg, nid: nat, cells: seq<Cell>, at: nat)
    requires at < |cells| && DistinctKeys(cells)
    requires forall i :: 0 <= i < |cells| ==> CellOk(r, nid, cells[i])
    requires r'.cells == r.cells && r'.enabled == r.enabled - {cells[at].id}
    ensures forall j :: 0 <= j < |Without(cells, at)| ==> CellOk(r', nid, Without(cells, at)[j])
  {
    forall j | 0 <= j < |Without(cells, at)|
      ensures CellOk(r', nid, Without(cells, at)[j])
    {
      var i := if j < at then j else j + 1;
      assert Without(cells, at)[j] == cells[i];
      assert CellOk(r, nid, cells[i]) && CellOk(r, nid, cells[at]);
      assert cells[i].key != cells[at].key;
    }
  }

  /** The notifier that loses an observer. */
  lemma DelistedOk(r: Reg, nid: nat, key: Key)
    requires nid < |r.notifiers| && HasKey(r.notifiers[nid].observers, key)
    requires NotifierOk(r, nid)
    ensures NotifierOk(Delist(r, nid, key), nid)
  {
    var cells := r.notifiers[nid].observers;
    var at := IndexOf(cells, key);
    KindsWithout(cells, at);
    WithoutDistinct(cells, at);
    WithoutInOrder(cells, at);
    OthersOk(r, Delist(r, nid, key), nid, cells, at);
  }

  lemma DelistNotifierOk(r: Reg, nid: nat, key: Key, i: nat)
    requires nid < |r.notifiers| && HasKey(r.notifiers[nid].observers, key)
    requires NotifierOk(r, nid)
    requires i < |r.notifiers| && NotifierOk(r, i)
    ensures NotifierOk(Delist(r, nid, key), i)
  {
    if i == nid {
      DelistedOk(r, nid, key);
    } else {
      var cells := r.notifiers[nid].observers;
      assert CellOk(r, nid, cells[IndexOf(cells, key)]);
      forall c | c in r.notifiers[i].observers
        ensures c.id in Delist(r, nid, key).enabled
      {
        var j :| 0 <= j < |r.notifiers[i].observers| && r.notifiers[i].observers[j] == c;
        assert CellOk(r, i, r.notifiers[i].observers[j]);
      }
      NotifierStays(r, Delist(r, nid, key), i);
    }
  }

  // ---------------------------------------------------------------- other sockets

  /** Nothing about socket `t` differs. */
  ghost predicate SameAt(r: Reg, r': Reg, t: Socket)
    requires Linked(r) && Linked(r')
  {
    && (t in r.handlers <==> t in r'.handlers)
    && (t in r.handlers ==> r.handlers[t] == r'.handlers[t] && r.notifiers[r.handlers[t]] == r'.notifiers[r'.handlers[t]])
    && (t in r.polled <==> t in r'.polled)
    && (t in r.kernel <==> t in r'.kernel)
    && (t in r.kernel ==> r.kernel[t] == r'.kernel[t])
  }

  /** Enlisting changes one entry of the handler map and one notifier. */
  lemma EnlistFrame(r: Reg, s: Socket, key: Key)
    requires Linked(r)
    ensures var r' := Enlist(r, s, key);
            && Linked(r') && s in r'.handlers
            && r'.handlers - {s} == r.handlers - {s}
            && |r.notifiers| <= |r'.notifiers|
            && (forall i :: 0 <= i < |r.notifiers| && (s in r.handlers ==> i != r.handlers[s]) ==>
                  r'.notifiers[i] == r.notifiers[i])
            && r'.polled == r.polled && r'.kernel == r.kernel
  {
  }

  lemma AddFrame(r: Reg, s: Socket, key: Key, t: Socket)
    requires Structure(r) && t != s
    ensures Linked(AddHandler(r, s, key).0) && SameAt(r, AddHandler(r, s, key).0, t)
  {
    EnlistFrame(r, s, key);
    var r1 := Enlist(r, s, key);
    assert t in r1.handlers <==> t in (r1.handlers - {s});
    if t in r.handlers {
      assert (r1.handlers - {s})[t] == (r.handlers - {s})[t];
      assert r.notifiers[r.handlers[t]].socket == t;
      if s in r.handlers {
        assert r.notifiers[r.handlers[s]].socket == s;
      }
    }
    var r' := AddHandler(r, s, key).0;
    assert r'.handlers == r1.handlers && r'.notifiers == r1.notifiers;
  }

  lemma RemoveFrame(r: Reg, s: Socket, key: Key, t: Socket)
    requires Structure(r) && t != s
    ensures Linked(RemoveHandler(r, s, key).0) && SameAt(r, RemoveHandler(r, s, key).0, t)
  {
    RemoveLinked(r, s, key);
    if s in r.handlers && Registered(r, s, key) {
      var nid := r.handlers[s];
      var r' := RemoveHandler(r, s, key).0;
      assert r'.handlers == r.handlers || r'.handlers == r.handlers - {s};
      assert r'.notifiers == r.notifiers || r'.notifiers == r.notifiers[nid := RemoveObserver(r.notifiers[nid], key)];
      if t in r.handlers {
        assert r.notifiers[r.handlers[t]].socket == t && r.notifiers[nid].socket == s;
        assert r'.notifiers[r.handlers[t]] == r.notifiers[r.handlers[t]];
      }
    }
  }

  lemma WatchedElsewhere(r: Reg, r': Reg, t: Socket)
    requires Linked(r) && Linked(r') && t in r.handlers && SameAt(r, r', t)
    ensures t in r'.handlers
    ensures Watched(r, t) ==> Watched(r', t)
    ensures Synced(r, t) ==> Synced(r', t)
  {
  }

  // ---------------------------------------------------------------- addEventHandler

  lemma {:induction false} AddKeepsWF(r: Reg, s: Socket, key: Key)
    requires WF(r)
    ensures WF(AddHandler(r, s, key).0)
    ensures AddHandler(r, s, key).1 <==>
            s >= 0 || ModeOf(Enlist(r, s, key).notifiers[Enlist(r, s, key).handlers[s]]) == NO_MASK
  {
    EnlistStructure(r, s, key);
    SameListsSameStructure(Enlist(r, s, key), AddHandler(r, s, key).0);
    AddPolls(r, s, key);
  }

  lemma AddPolls(r: Reg, s: Socket, key: Key)
    requires WF(r) && Linked(AddHandler(r, s, key).0)
    ensures Polls(AddHandler(r, s, key).0)
  {
    var r' := AddHandler(r, s, key).0;
    AddPolledKeys(r, s, key);
    forall t | t in r'.handlers
      ensures t >= 0 ==> Watched(r', t)
      ensures t > 0 ==> Synced(r', t)
    {
      if t == s {
        AddOwnSocket(r, s, key);
      } else {
        AddFrame(r, s, key, t);
        WatchedElsewhere(r, r', t);
      }
    }
  }

  lemma AddPolledKeys(r: Reg, s: Socket, key: Key)
    requires WF(r)
    ensures var r' := AddHandler(r, s, key).0;
            && r'.polled == r'.kernel.Keys
            && (forall t :: t in r'.polled ==> t in r'.handlers && t >= 0)
  {
    EnlistFrame(r, s, key);
    var r' := AddHandler(r, s, key).0;
    forall t | t in r'.polled
      ensures t in r'.handlers && t >= 0
    {
      if t != s {
        AddFrame(r, s, key, t);
      }
    }
  }

  lemma AddOwnSocket(r: Reg, s: Socket, key: Key)
    requires WF(r)
    ensures var r' := AddHandler(r, s, key).0;
            && Linked(r') && s in r'.handlers
            && (s >= 0 ==> Watched(r', s))
            && (s > 0 ==> Synced(r', s))
  {
    EnlistFrame(r, s, key);
    if s in r.handlers && s > 0 {
      assert Synced(r, s);
      EnlistKeepsKinds(r, s, key);
    }
  }

  /** What `addEventHandler` makes of its own socket. */
  lemma AddedList(r: Reg, s: Socket, key: Key)
    requires Structure(r)
    ensures var r' := AddHandler(r, s, key).0;
            && Linked(r') && s in r'.handlers
            && (s in r.handlers ==> r'.handlers[s] == r.handlers[s])
            && ObserversOf(r, s) <= ObserversOf(r', s)
            && r'.notifiers[r'.handlers[s]].socket == s
            && (if Registered(r, s, key) then r'.cells == r.cells && r'.enabled == r.enabled
                else var c := Cell(|r.cells|, key, r'.handlers[s]);
                     && ObserversOf(r', s) == ObserversOf(r, s) + [c]
                     && r'.cells == r.cells + [c] && r'.enabled == r.enabled + {c.id})
  {
    WithNotifierFacts(r, s);
    AddLinked(r, s, key);
    if s in r.handlers {
      assert r.notifiers[r.handlers[s]].socket == s;
    }
  }

  lemma SameListsSameStructure(r1: Reg, r2: Reg)
    requires Structure(r1)
    requires r2.handlers == r1.handlers && r2.notifiers == r1.notifiers && r2.cells == r1.cells && r2.enabled == r1.enabled
    ensures Structure(r2)
  {
    forall i | 0 <= i < |r2.notifiers|
      ensures NotifierOk(r2, i)
    {
      assert NotifierOk(r1, i);
      var cells := r1.notifiers[i].observers;
      forall j | 0 <= j < |cells|
        ensures CellOk(r2, i, cells[j])
      {
        assert CellOk(r1, i, cells[j]);
      }
    }
  }

  /** Adding an observer takes no kind away. */
  lemma EnlistKeepsKinds(r: Reg, s: Socket, key: Key)
    requires Structure(r) && s in r.handlers
    ensures Enlist(r, s, key).handlers == r.handlers
    ensures r.notifiers[r.handlers[s]].events <= Enlist(r, s, key).notifiers[r.handlers[s]].events
  {
  }

  // ---------------------------------------------------------------- removeEventHandler

  lemma DelistStructure(r: Reg, s: Socket, key: Key)
    requires Structure(r) && s in r.handlers && Registered(r, s, key)
    requires |ObserversOf(r, s)| > 1
    ensures Structure(Delist(r, r.handlers[s], key))
  {
    var nid := r.handlers[s];
    var r' := Delist(r, nid, key);
    forall i | 0 <= i < |r'.notifiers|
      ensures NotifierOk(r', i)
    {
      DelistNotifierOk(r, nid, key, i);
    }
  }

  lemma DelistLastStructure(r: Reg, s: Socket, key: Key)
    requires Structure(r) && s in r.handlers && Registered(r, s, key)
    ensures var r1 := r.(handlers := r.handlers - {s});
            Structure(r1) && Structure(Delist(r1, r.handlers[s], key))
  {
    var nid := r.handlers[s];
    var r1 := r.(handlers := r.handlers - {s});
    forall i | 0 <= i < |r1.notifiers|
      ensures NotifierOk(r1, i)
    {
      assert NotifierOk(r, i);
      var cells := r.notifiers[i].observers;
      forall j | 0 <= j < |cells|
        ensures CellOk(r1, i, cells[j])
      {
        assert CellOk(r, i, cells[j]);
      }
    }
    var r' := Delist(r1, nid, key);
    forall i | 0 <= i < |r'.notifiers|
      ensures NotifierOk(r', i)
    {
      DelistNotifierOk(r1, nid, key, i);
    }
    forall t | t in r'.handlers
      ensures r'.notifiers[r'.handlers[t]].socket == t && r'.notifiers[r'.handlers[t]].observers != []
    {
      assert r.notifiers[r.handlers[t]].socket == t && r.notifiers[nid].socket == s;
    }
  }

  /** Removing keeps the agreement, and fails exactly when an observer that is registered sits on a
      socket the poll set does not know (and descriptor 0 is never updated). */
  lemma RemoveKeepsWF(r: Reg, s: Socket, key: Key)
    requires WF(r)
    ensures WF(RemoveHandler(r, s, key).0)
    ensures RemoveHandler(r, s, key).1 <==>
            !Registered(r, s, key) || s in r.polled || (s <= 0 && |ObserversOf(r, s)| > 1)
  {
    if Registered(r, s, key) {
      var nid := r.handlers[s];
      var r' := RemoveHandler(r, s, key).0;
      if |r.notifiers[nid].observers| == 1 {
        DelistLastStructure(r, s, key);
        var r1 := r.(handlers := r.handlers - {s});
        var last := Delist(r1, nid, key);
        SameListsSameStructure(if s in r.kernel then last else r1, r');
      } else {
        DelistStructure(r, s, key);
        SameListsSameStructure(Delist(r, nid, key), r');
      }
      RemoveSyncs(r, s, key);
    }
  }

  lemma RemoveSyncs(r: Reg, s: Socket, key: Key)
    requires WF(r) && Registered(r, s, key) && Linked(RemoveHandler(r, s, key).0)
    ensures Polls(RemoveHandler(r, s, key).0)
  {
    var r' := RemoveHandler(r, s, key).0;
    RemovePolledKeys(r, s, key);
    forall t | t in r'.handlers
      ensures t >= 0 ==> Watched(r', t)
      ensures t > 0 ==> Synced(r', t)
    {
      if t == s {
        RemoveOwnSocket(r, s, key);
      } else {
        RemoveFrame(r, s, key, t);
        WatchedElsewhere(r, r', t);
      }
    }
  }

  lemma RemovePolledKeys(r: Reg, s: Socket, key: Key)
    requires WF(r) && Registered(r, s, key)
    ensures var r' := RemoveHandler(r, s, key).0;
            && r'.polled == r'.kernel.Keys
            && (forall t :: t in r'.polled ==> t in r'.handlers && t >= 0)
  {
    var r' := RemoveHandler(r, s, key).0;
    assert r'.handlers == r.handlers || (r'.handlers == r.handlers - {s} && s !in r'.polled);
    assert r'.polled == r.polled || r'.polled == r.polled - {s};
  }

  lemma RemoveOwnSocket(r: Reg, s: Socket, key: Key)
    requires WF(r) && Registered(r, s, key) && s in RemoveHandler(r, s, key).0.handlers
    ensures var r' := RemoveHandler(r, s, key).0;
            && Linked(r')
            && (s >= 0 ==> Watched(r', s))
            && (s > 0 ==> Synced(r', s))
  {
    var nid := r.handlers[s];
    var n := r.notifiers[nid];
    assert |n.observers| > 1;
    assert RemoveObserver(n, key).events <= n.events;
    assert RemoveHandler(r, s, key).0.notifiers[nid] == RemoveObserver(n, key);
    if s > 0 {
      assert Synced(r, s);
    }
  }

  /** Descriptor 0 is left out of the update after a removal, so its kernel mask stays right exactly if
      every kind of I/O that the observer was counted under is wanted by another one too. */
  lemma ZeroStaysSyncedIff(r: Reg, key: Key)
    requires WF(r) && 0 in r.handlers && Synced(r, 0)
    requires Registered(r, 0, key) && |ObserversOf(r, 0)| > 1
    ensures var r' := RemoveHandler(r, 0, key).0;
            && Linked(r') && 0 in r'.handlers
            && (Synced(r', 0) <==>
                  forall k :: k in Counted(key.filter) && k in {Readable, Writable, Error} ==>
                    r.notifiers[r.handlers[0]].events[k] > 1)
  {
    var nid := r.handlers[0];
    var n := r.notifiers[nid];
    var cells := n.observers;
    var at := IndexOf(cells, key);
    RemoveKeepsWF(r, 0, key);
    var n' := RemoveObserver(n, key);
    assert RemoveHandler(r, 0, key).0.notifiers[nid] == n';
    assert NotifierOk(r, nid);
    KindsWithout(cells, at);
    OneKindLess(n.events, key.filter);
  }

  lemma OneKindLess(events: multiset<Kind>, f: Filter)
    requires Counted(f) <= events
    ensures forall k :: k in events - Counted(f) <==> k in events && (k in Counted(f) ==> events[k] > 1)
  {
  }

  /** The mask of descriptor 0 does go stale: the kernel still watches for output when the observer that
      wanted it is gone. */
  lemma ZeroGoesStale(reader: Key, writer: Key)
    requires reader.filter == Only(Readable) && writer.filter == Only(Writable)
    ensures var r1 := AddHandler(EMPTY_REG, 0, reader).0;
            Linked(r1)
            && var r2 := AddHandler(r1, 0, writer).0;
            Linked(r2)
            && var (r3, ok) := RemoveHandler(r2, 0, writer);
            && ok && 0 in r3.handlers && r3.handlers[0] < |r3.notifiers|
            && ModeOf(r3.notifiers[r3.handlers[0]]) == Mask(true, false, false)
            && 0 in r3.kernel && r3.kernel[0] == Mask(true, true, false)
  {
    var c0, c1 := Cell(0, reader, 0), Cell(1, writer, 0);
    var n1 := Notifier(0, [c0], multiset{Readable});
    var n2 := Notifier(0, [c0, c1], multiset{Readable, Writable});
    var r1 := Reg(map[0 := 0], [n1], [c0], {0}, {0}, map[0 := Mask(true, false, false)]);
    var r2 := Reg(map[0 := 0], [n2], [c0, c1], {0, 1}, {0}, map[0 := Mask(true, true, false)]);
    AddToEmpty(reader);
    SecondOfZero(reader, writer);
    assert [c0, c1][1..] == [c1];
    assert IndexOf(n2.observers, writer) == 1;
    assert RemoveObserver(n2, writer).events == multiset{Readable};
  }

  lemma AddToEmpty(key: Key)
    requires key.filter == Only(Readable)
    ensures AddHandler(EMPTY_REG, 0, key)
            == (Reg(map[0 := 0], [Notifier(0, [Cell(0, key, 0)], multiset{Readable})], [Cell(0, key, 0)],
                    {0}, {0}, map[0 := Mask(true, false, false)]), true)
  {
    var n := AddObserver(Notifier(0, [], multiset{}), Cell(0, key, 0));
    assert n == Notifier(0, [Cell(0, key, 0)], multiset{Readable});
    var r1 := Enlist(EMPTY_REG, 0, key);
    assert r1.handlers == map[0 := 0] && r1.notifiers == [n];
    assert r1.cells == [Cell(0, key, 0)] && r1.enabled == {0};
    assert r1.polled + {0} == {0} && r1.kernel[0 := Mask(true, false, false)] == map[0 := Mask(true, false, false)];
  }

  lemma SecondOfZero(reader: Key, writer: Key)
    requires reader.filter == Only(Readable) && writer.filter == Only(Writable)
    ensures var c0, c1 := Cell(0, reader, 0), Cell(1, writer, 0);
            var r1 := Reg(map[0 := 0], [Notifier(0, [c0], multiset{Readable})], [c0], {0}, {0}, map[0 := Mask(true, false, false)]);
            AddHandler(r1, 0, writer)
            == (Reg(map[0 := 0], [Notifier(0, [c0, c1], multiset{Readable, Writable})], [c0, c1],
                    {0, 1}, {0}, map[0 := Mask(true, true, false)]), true)
  {
    var c0, c1 := Cell(0, reader, 0), Cell(1, writer, 0);
    var n1 := Notifier(0, [c0], multiset{Readable});
    assert !HasKey([c0], writer);
    assert [c0] + [c1] == [c0, c1];
    assert AddObserver(n1, c1) == Notifier(0, [c0, c1], multiset{Readable, Writable});
    assert [n1][0 := AddObserver(n1, c1)] == [AddObserver(n1, c1)];
    assert {0} + {1} == {0, 1} && {0} + {0} == {0};
    assert map[0 := Mask(true, false, false)][0 := Mask(true, true, false)] == map[0 := Mask(true, true, false)];
  }

  lemma {:induction false} ExecuteKeepsWF(r: Reg, c: Cmd)
    requires WF(r)
    ensures WF(Execute(r, c).0)
  {
    match c
    case Add(s, key) => AddKeepsWF(r, s, key);
    case Remove(s, key) => RemoveKeepsWF(r, s, key);
  }

  /** Every run of registrations and removals, on any sockets, whether or not calls fail. */
  lemma {:induction false} RunKeepsWF(r: Reg, cmds: seq<Cmd>)
    requires WF(r)
    ensures WF(ExecuteAll(r, cmds))
    decreases |cmds|
  {
    if cmds == [] {
    } else {
      ExecuteKeepsWF(r, cmds[0]);
      RunKeepsWF(Execute(r, cmds[0]).0, cmds[1..]);
    }
  }

  /** Some observer of `s` is counted under `k`. */
  ghost predicate Wants(r: Reg, s: Socket, k: Kind)
    requires Linked(r)
  {
    var cells := ObserversOf(r, s);
    exists i :: 0 <= i < |cells| && k in Counted(cells[i].key.filter)
  }

  /** Some observer of `s` has the template argument `f`. */
  ghost predicate Observes(r: Reg, s: Socket, f: Filter)
    requires Linked(r)
  {
    exists i :: 0 <= i < |ObserversOf(r, s)| && ObserversOf(r, s)[i].key.filter == f
  }

  /** What a notifier of an agreeing registry accepts, by the template arguments of its observers. */
  lemma ModeByFilters(r: Reg, s: Socket)
    requires Structure(r) && s in r.handlers
    ensures ModeOf(r.notifiers[r.handlers[s]])
            == Mask(Observes(r, s, Only(Readable)) || Observes(r, s, AnyKind),
                    Observes(r, s, Only(Writable)),
                    Observes(r, s, Only(Error)))
  {
    var cells := ObserversOf(r, s);
    assert NotifierOk(r, r.handlers[s]);
    KindsCount(cells);
    HavingSome(cells, Only(Readable));
    HavingSome(cells, AnyKind);
    HavingSome(cells, Only(Writable));
    HavingSome(cells, Only(Error));
  }

  /** Index agreement after every run from an empty reactor, in terms of the observers and their template
      arguments alone. The mask of descriptor 0 may be stale (see `ZeroStaysSyncedIff`); everything else
      holds of it too. */
  lemma RunAgreement(cmds: seq<Cmd>, s: Socket)
    ensures var r := ExecuteAll(EMPTY_REG, cmds);
            var cells := ObserversOf(r, s);
            var forInput := Observes(r, s, Only(Readable)) || Observes(r, s, AnyKind);
            var forOutput, forErrors := Observes(r, s, Only(Writable)), Observes(r, s, Only(Error));
            && (s in r.kernel <==> s in r.polled)
            && (s in r.handlers <==> cells != [])
            && (s in r.polled ==> s in r.handlers && s >= 0)
            && (s >= 0 && (forInput || forOutput || forErrors) ==> s in r.polled)
            && (s > 0 && s in r.polled ==> r.kernel[s] == Mask(forInput, forOutput, forErrors))
            && (s in r.handlers ==>
                  var events := r.notifiers[r.handlers[s]].events;
                  && events[Readable] == Having(cells, Only(Readable)) + Having(cells, AnyKind)
                  && events[Writable] == Having(cells, Only(Writable))
                  && events[Error] == Having(cells, Only(Error))
                  && events[Timeout] == Having(cells, Only(Timeout))
                  && events[Idle] == events[Shutdown] == 0)
  {
    EmptyIsWF();
    RunKeepsWF(EMPTY_REG, cmds);
    var r := ExecuteAll(EMPTY_REG, cmds);
    if s in r.handlers {
      assert s >= 0 ==> Watched(r, s);
      assert s > 0 ==> Synced(r, s);
      assert NotifierOk(r, r.handlers[s]);
      ModeByFilters(r, s);
      KindsCount(ObserversOf(r, s));
    }
  }

  // ---------------------------------------------------------------- the simple form

  ghost function CellKeys(cells: seq<Cell>): set<Key> {
    set i | 0 <= i < |cells| :: cells[i].key
  }

  /** The keys registered for a socket, in no order. */
  ghost function KeysOf(r: Reg, s: Socket): set<Key>
    requires Linked(r)
  {
    CellKeys(ObserversOf(r, s))
  }
}
