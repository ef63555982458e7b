/** The reactor's registry seen as a set of keys for each socket: the simple form that the handler
    map, the lists, the event counts, the poll set and the kernel masks together refine. */
module RegistryKeys {
  import opened Registry
  import opened RegistryAgreement
  import opened Wrappers

  /** A set of keys counted under `k`. */
  ghost predicate AnyWants(keys: set<Key>, k: Kind) {
    exists key :: key in keys && k in Counted(key.filter)
  }

  ghost function MaskOf(keys: set<Key>): Mask {
    Mask(AnyWants(keys, Readable), AnyWants(keys, Writable), AnyWants(keys, Error))
  }

  lemma KeysWant(r: Reg, s: Socket, k: Kind)
    requires Structure(r)
    ensures AnyWants(KeysOf(r, s), k) <==> Wants(r, s, k)
    ensures s in r.handlers ==> (Wants(r, s, k) <==> k in r.notifiers[r.handlers[s]].events)
  {
    var cells := ObserversOf(r, s);
    if Wants(r, s, k) {
      var i :| 0 <= i < |cells| && k in Counted(cells[i].key.filter);
      assert cells[i].key in KeysOf(r, s);
    }
    if s in r.handlers {
      assert NotifierOk(r, r.handlers[s]);
      KindsMember(cells, k);
    }
  }

  /** Some key of a set has the template argument `f`. */
  ghost predicate With(keys: set<Key>, f: Filter) {
    exists key :: key in keys && key.filter == f
  }

  lemma MaskByFilters(keys: set<Key>)
    ensures MaskOf(keys) == Mask(With(keys, Only(Readable)) || With(keys, AnyKind), With(keys, Only(Writable)), With(keys, Only(Error)))
  {
    WantsByFilters(keys, Readable);
    WantsByFilters(keys, Writable);
    WantsByFilters(keys, Error);
  }

  lemma WantsByFilters(keys: set<Key>, k: Kind)
    requires k == Readable || k == Writable || k == Error
    ensures AnyWants(keys, k) <==> With(keys, Only(k)) || (k == Readable && With(keys, AnyKind))
  {
    if AnyWants(keys, k) {
      var key :| key in keys && k in Counted(key.filter);
      assert key.filter == Only(k) || (k == Readable && key.filter == AnyKind);
    }
    if key :| key in keys && key.filter == Only(k) {
      assert k in Counted(key.filter);
    }
    if k == Readable {
      if key :| key in keys && key.filter == AnyKind {
        assert k in Counted(key.filter);
      }
    }
  }

  /** While a socket is polled, the kernel watches for exactly what its keys want. */
  lemma MaskAgrees(r: Reg, s: Socket)
    requires WF(r) && s > 0 && s in r.polled
    ensures s in r.kernel && r.kernel[s] == MaskOf(KeysOf(r, s))
    ensures var keys := KeysOf(r, s);
            r.kernel[s] == Mask(With(keys, Only(Readable)) || With(keys, AnyKind), With(keys, Only(Writable)), With(keys, Only(Error)))
  {
    assert Synced(r, s);
    KeysWant(r, s, Readable);
    KeysWant(r, s, Writable);
    KeysWant(r, s, Error);
    MaskByFilters(KeysOf(r, s));
  }

  lemma RegisteredIsKey(r: Reg, s: Socket, key: Key)
    requires Linked(r)
    ensures Registered(r, s, key) <==> key in KeysOf(r, s)
  {
    var cells := ObserversOf(r, s);
    if key in KeysOf(r, s) {
      var i :| 0 <= i < |cells| && cells[i].key == key;
      assert IndexOf(cells, key) <= i;
    }
    if Registered(r, s, key) {
      assert cells[IndexOf(cells, key)].key in KeysOf(r, s);
    }
  }

  lemma AppendKeys(cells: seq<Cell>, c: Cell)
    ensures CellKeys(cells + [c]) == CellKeys(cells) + {c.key}
  {
    var cells' := cells + [c];
    assert cells'[|cells|] == c;
    forall k | k in CellKeys(cells)
      ensures k in CellKeys(cells')
    {
      var i :| 0 <= i < |cells| && cells[i].key == k;
      assert cells'[i].key == k;
    }
  }

  lemma WithoutKeys(cells: seq<Cell>, at: nat)
    requires at < |cells| && DistinctKeys(cells)
    ensures CellKeys(Without(cells, at)) == CellKeys(cells) - {cells[at].key}
  {
    var cells' := Without(cells, at);
    forall k | k in CellKeys(cells) && k != cells[at].key
      ensures k in CellKeys(cells')
    {
      var i :| 0 <= i < |cells| && cells[i].key == k;
      assert cells'[if i < at then i else i - 1].key == k;
    }
    forall k | k in CellKeys(cells')
      ensures k in CellKeys(cells) && k != cells[at].key
    {
      var i :| 0 <= i < |cells'| && cells'[i].key == k;
      assert cells[if i < at then i else i + 1].key == k;
    }
  }

  /** As many observers as keys. */
  lemma {:induction false} DistinctCount(cells: seq<Cell>)
    requires DistinctKeys(cells)
    ensures |CellKeys(cells)| == |cells|
  {
    if cells == [] {
    } else {
      var last := |cells| - 1;
      var before := cells[..last];
      DistinctCount(before);
      assert before + [cells[last]] == cells;
      AppendKeys(before, cells[last]);
    }
  }

  lemma CountKeys(r: Reg, s: Socket)
    requires Structure(r)
    ensures |KeysOf(r, s)| == |ObserversOf(r, s)|
  {
    if s in r.handlers {
      assert NotifierOk(r, r.handlers[s]);
    }
    DistinctCount(ObserversOf(r, s));
  }

  ghost function After(keys: set<Key>, c: Cmd): set<Key> {
    match c case Add(_, key) => keys + {key} case Remove(_, key) => keys - {key}
  }

  /** The operations touch no other socket ... */
  lemma ExecuteFrame(r: Reg, c: Cmd, t: Socket)
    requires Structure(r) && t != c.socket
    ensures Linked(Execute(r, c).0) && SameAt(r, Execute(r, c).0, t)
  {
    match c
    case Add(s, key) => AddFrame(r, s, key, t);
    case Remove(s, key) => RemoveFrame(r, s, key, t);
  }

  /** ... and on their own socket they add or take away one key, even when the poll set refuses. */
  lemma ExecuteKeys(r: Reg, c: Cmd)
    requires Structure(r)
    ensures Linked(Execute(r, c).0)
    ensures KeysOf(Execute(r, c).0, c.socket) == After(KeysOf(r, c.socket), c)
  {
    ExecuteLinked(r, c);
    match c
    case Add(s, key) => AddKeys(r, s, key);
    case Remove(s, key) => RemoveKeys(r, s, key);
  }

  lemma AddKeys(r: Reg, s: Socket, key: Key)
    requires Structure(r) && Linked(AddHandler(r, s, key).0)
    ensures KeysOf(AddHandler(r, s, key).0, s) == KeysOf(r, s) + {key}
  {
    RegisteredIsKey(r, s, key);
    var cells := ObserversOf(r, s);
    if !HasKey(cells, key) {
      var c := Cell(|r.cells|, key, WithNotifier(r, s).handlers[s]);
      assert ObserversOf(AddHandler(r, s, key).0, s) == cells + [c];
      AppendKeys(cells, c);
    }
  }

  lemma RemovedObservers(r: Reg, s: Socket, key: Key)
    requires Structure(r) && Registered(r, s, key) && Linked(RemoveHandler(r, s, key).0)
    ensures ObserversOf(RemoveHandler(r, s, key).0, s) == Without(ObserversOf(r, s), IndexOf(ObserversOf(r, s), key))
  {
    var cells := ObserversOf(r, s);
    if |cells| == 1 {
      assert Without(cells, 0) == [];
    }
  }

  lemma RemoveKeys(r: Reg, s: Socket, key: Key)
    requires Structure(r) && Linked(RemoveHandler(r, s, key).0)
    ensures KeysOf(RemoveHandler(r, s, key).0, s) == KeysOf(r, s) - {key}
  {
    RegisteredIsKey(r, s, key);
    if Registered(r, s, key) {
      assert NotifierOk(r, r.handlers[s]);
      RemovedObservers(r, s, key);
      WithoutKeys(ObserversOf(r, s), IndexOf(ObserversOf(r, s), key));
    }
  }

  /** The keys of `s` according to the calls alone. */
  ghost function Net(keys: set<Key>, cmds: seq<Cmd>, s: Socket): set<Key>
    decreases |cmds|
  {
    if cmds == [] then keys
    else Net(if cmds[0].socket == s then After(keys, cmds[0]) else keys, cmds[1..], s)
  }

  /** A whole run leaves each socket with the keys that its own calls add up to; what happens on other
      sockets, and which calls fail, makes no difference. */
  lemma {:induction false} RunKeys(r: Reg, cmds: seq<Cmd>, s: Socket)
    requires WF(r)
    ensures KeysOf(ExecuteAll(r, cmds), s) == Net(KeysOf(r, s), cmds, s)
    decreases |cmds|
  {
    if cmds == [] {
    } else {
      var r' := Execute(r, cmds[0]).0;
      ExecuteKeepsWF(r, cmds[0]);
      if cmds[0].socket == s {
        ExecuteKeys(r, cmds[0]);
      } else {
        ExecuteFrame(r, cmds[0], s);
        assert KeysOf(r', s) == KeysOf(r, s);
      }
      RunKeys(r', cmds[1..], s);
    }
  }

  // ---------------------------------------------------------------- round trip

  /** Counted under a kind the kernel reports. */
  ghost predicate WantsIO(key: Key) {
    MaskOf({key}) != NO_MASK
  }

  /** The same handlers, lists, poll set and kernel masks; notifiers that no handler uses do not count. */
  ghost predicate SameRegistrations(r: Reg, r': Reg)
    requires Linked(r) && Linked(r')
  {
    && r'.handlers.Keys == r.handlers.Keys
    && (forall t :: t in r.handlers ==> r'.notifiers[r'.handlers[t]] == r.notifiers[r.handlers[t]])
    && r'.polled == r.polled
    && r'.kernel == r.kernel
  }

  lemma AddAppends(r: Reg, s: Socket, key: Key)
    requires WF(r) && !Registered(r, s, key)
    ensures var r' := AddHandler(r, s, key).0;
            var c := Cell(|r.cells|, key, WithNotifier(r, s).handlers[s]);
            && Linked(r') && s in r'.handlers && r'.handlers.Keys == r.handlers.Keys + {s}
            && r'.notifiers[r'.handlers[s]].observers == ObserversOf(r, s) + [c]
            && IndexOf(ObserversOf(r, s) + [c], key) == |ObserversOf(r, s)|
  {
    AddedList(r, s, key);
    AddLinked(r, s, key);
    assert AddHandler(r, s, key).0.handlers == WithNotifier(r, s).handlers;
    NewKeyIsLast(ObserversOf(r, s), Cell(|r.cells|, key, WithNotifier(r, s).handlers[s]));
  }

  lemma NewKeyIsLast(cells: seq<Cell>, c: Cell)
    requires !HasKey(cells, c.key)
    ensures IndexOf(cells + [c], c.key) == |cells|
  {
    assert (cells + [c])[|cells|].key == c.key;
    assert forall i :: 0 <= i < |cells| ==> (cells + [c])[i].key != c.key;
  }

  /** Registering a new observer and removing it again succeeds twice and restores everything. */
  ghost predicate RoundTrips(r: Reg, s: Socket, key: Key)
    requires Linked(r)
  {
    var (r1, added) := AddHandler(r, s, key);
    Linked(r1)
    && var (r2, removed) := RemoveHandler(r1, s, key);
    added && removed && Linked(r2) && SameRegistrations(r, r2)
  }

  /** When it does, by what can be seen before the two calls. An unknown socket must have a proper
      descriptor and the observer must want I/O, or nothing is polled that the removal could take back;
      a known one must be polled already; and as the removal tells the poll set nothing about descriptor
      0 and those below, there the registration must leave the poll set alone or find its mask set. */
  ghost predicate Restorable(r: Reg, s: Socket, key: Key)
    requires Linked(r)
  {
    var mask := MaskOf(KeysOf(r, s) + {key});
    if s !in r.handlers then s >= 0 && WantsIO(key)
    else if s > 0 then s in r.polled
    else mask == NO_MASK || (s in r.kernel && r.kernel[s] == mask)
  }

  /** The round trip, exactly, for every socket and every new observer. */
  lemma AddRemoveRoundTrip(r: Reg, s: Socket, key: Key)
    requires WF(r) && !Registered(r, s, key)
    ensures RoundTrips(r, s, key) <==> Restorable(r, s, key)
  {
    AddLinked(r, s, key);
    if s in r.handlers {
      RoundTripKnown(r, s, key);
    } else {
      RoundTripUnknown(r, s, key);
    }
  }

  /** The mode that the registration computes. */
  lemma AddedMode(r: Reg, s: Socket, key: Key)
    requires WF(r)
    ensures var r1 := AddHandler(r, s, key).0;
            && Linked(r1) && s in r1.handlers
            && ModeOf(r1.notifiers[r1.handlers[s]]) == MaskOf(KeysOf(r, s) + {key})
  {
    AddKeepsWF(r, s, key);
    AddKeys(r, s, key);
    AddedList(r, s, key);
    var r1 := AddHandler(r, s, key).0;
    KeysWant(r1, s, Readable);
    KeysWant(r1, s, Writable);
    KeysWant(r1, s, Error);
  }

  /** What the registration on a known socket does to handlers, lists, poll set and kernel. */
  lemma AddKnown(r: Reg, s: Socket, key: Key)
    requires WF(r) && !Registered(r, s, key) && s in r.handlers
    ensures var (r1, added) := AddHandler(r, s, key);
            var n, mask := r.notifiers[r.handlers[s]], MaskOf(KeysOf(r, s) + {key});
            var n1 := AddObserver(n, Cell(|r.cells|, key, r.handlers[s]));
            && Linked(r1) && r1.handlers == r.handlers && r1.notifiers == r.notifiers[r.handlers[s] := n1]
            && added == (s >= 0 || mask == NO_MASK)
            && (if mask == NO_MASK || s < 0 then r1.kernel == r.kernel && r1.polled == r.polled
                else r1.kernel == r.kernel[s := mask] && r1.polled == r.polled + {s})
  {
    AddedMode(r, s, key);
  }

  lemma TakenBack(n: Notifier, c: Cell)
    requires !HasKey(n.observers, c.key)
    ensures var n1 := AddObserver(n, c);
            HasKey(n1.observers, c.key) && RemoveObserver(n1, c.key) == n
  {
    NewKeyIsLast(n.observers, c);
    assert Without(n.observers + [c], |n.observers|) == n.observers;
    assert n.events + Counted(c.key.filter) - Counted(c.key.filter) == n.events;
  }

  /** What removing one of several observers does. */
  lemma RemoveSeveral(r: Reg, s: Socket, key: Key)
    requires Linked(r) && Registered(r, s, key) && |ObserversOf(r, s)| > 1
    ensures var (r', removed) := RemoveHandler(r, s, key);
            var nid := r.handlers[s];
            var n := RemoveObserver(r.notifiers[nid], key);
            && r'.handlers == r.handlers && r'.notifiers == r.notifiers[nid := n] && r'.polled == r.polled
            && removed == (s <= 0 || s in r.kernel)
            && r'.kernel == if s > 0 && s in r.kernel then r.kernel[s := ModeOf(n)] else r.kernel
  {
  }

  /** The round trip on a known socket leaves its list alone, and poll set and kernel are what counts. */
  lemma KnownNet(r: Reg, s: Socket, key: Key)
    requires WF(r) && !Registered(r, s, key) && s in r.handlers
    ensures Linked(AddHandler(r, s, key).0)
    ensures var (r1, added) := AddHandler(r, s, key);
            var (r2, removed) := RemoveHandler(r1, s, key);
            && r2.handlers == r.handlers && r2.notifiers == r.notifiers && r2.polled == r1.polled
            && removed == (s <= 0 || s in r1.kernel)
            && r2.kernel == if s > 0 && s in r1.kernel then r1.kernel[s := ModeOf(r.notifiers[r.handlers[s]])] else r1.kernel
  {
    AddKnown(r, s, key);
    var nid := r.handlers[s];
    var n := r.notifiers[nid];
    TakenBack(n, Cell(|r.cells|, key, nid));
    assert n.observers != [];
    var r1 := AddHandler(r, s, key).0;
    RemoveSeveral(r1, s, key);
    assert r.notifiers[nid := r1.notifiers[nid]][nid := n] == r.notifiers;
  }

  /** The poll set's side of a round trip: registering sets the mask, and removing sets the old mode
      again, but only above descriptor 0. */
  lemma KernelTrip(kernel: map<int, Mask>, polled: set<Socket>, s: Socket, mode: Mask, mask: Mask)
    requires polled == kernel.Keys && (s in polled ==> s >= 0) && (s > 0 && s in polled ==> kernel[s] == mode)
    ensures var tell := mask != NO_MASK && s >= 0;
            var kernel1, polled1 := if tell then kernel[s := mask] else kernel, if tell then polled + {s} else polled;
            var kernel2 := if s > 0 && s in kernel1 then kernel1[s := mode] else kernel1;
            (s >= 0 || mask == NO_MASK) && (s <= 0 || s in kernel1) && kernel2 == kernel && polled1 == polled
            <==> if s > 0 then s in polled else mask == NO_MASK || (s in kernel && kernel[s] == mask)
  {
    if s > 0 && s in polled {
      assert kernel[s := mask][s := mode] == kernel && kernel[s := mode] == kernel && polled + {s} == polled;
    } else if s in kernel && kernel[s] == mask {
      assert kernel[s := mask] == kernel && polled + {s} == polled;
    } else {
      assert s in kernel[s := mask] && kernel[s := mask][s] == mask && s in polled + {s};
    }
  }

  lemma RoundTripKnown(r: Reg, s: Socket, key: Key)
    requires WF(r) && !Registered(r, s, key) && s in r.handlers
    ensures RoundTrips(r, s, key) <==> Restorable(r, s, key)
  {
    AddKnown(r, s, key);
    KnownNet(r, s, key);
    assert s > 0 ==> Synced(r, s);
    KernelTrip(r.kernel, r.polled, s, ModeOf(r.notifiers[r.handlers[s]]), MaskOf(KeysOf(r, s) + {key}));
  }

  lemma RoundTripUnknown(r: Reg, s: Socket, key: Key)
    requires WF(r) && s !in r.handlers
    ensures RoundTrips(r, s, key) <==> Restorable(r, s, key)
  {
    AddAppends(r, s, key);
    AddedMode(r, s, key);
    assert KeysOf(r, s) + {key} == {key};
    assert s !in r.polled && s !in r.kernel;
    var r1 := AddHandler(r, s, key).0;
    var nid := |r.notifiers|;
    assert r1.handlers == r.handlers[s := nid] && r1.notifiers == r.notifiers + [r1.notifiers[nid]];
    RemoveOnly(r, r1, s, key);
  }

  /** Removing the only observer of a socket that was unknown before it came. */
  lemma RemoveOnly(r: Reg, r1: Reg, s: Socket, key: Key)
    requires Linked(r) && s !in r.handlers && s !in r.polled && s !in r.kernel
    requires r1.handlers == r.handlers[s := |r.notifiers|]
    requires |r1.notifiers| == |r.notifiers| + 1 && r1.notifiers[..|r.notifiers|] == r.notifiers
    requires |r1.notifiers[|r.notifiers|].observers| == 1 && r1.notifiers[|r.notifiers|].observers[0].key == key
    requires (r1.polled == r.polled && r1.kernel == r.kernel)
             || (s in r1.kernel && r1.polled == r.polled + {s} && r1.kernel == r.kernel[s := r1.kernel[s]])
    ensures Linked(r1)
    ensures var (r', ok) := RemoveHandler(r1, s, key);
            (ok && Linked(r') && SameRegistrations(r, r')) <==> s in r1.kernel
  {
    var nid := |r.notifiers|;
    assert r1.handlers - {s} == r.handlers;
    if s in r1.kernel {
      assert r1.kernel - {s} == r.kernel && r1.polled - {s} == r.polled;
      var r' := RemoveHandler(r1, s, key).0;
      assert r'.notifiers[..nid] == r1.notifiers[..nid];
      assert forall i :: 0 <= i < nid ==> r'.notifiers[i] == r'.notifiers[..nid][i];
      assert forall i :: 0 <= i < nid ==> r1.notifiers[i] == r1.notifiers[..nid][i];
    }
  }

  /** Descriptor 0, though polled, is not restored: the writer's bit stays in the kernel. */
  lemma ZeroIsNotRestored(reader: Key, writer: Key)
    requires reader.filter == Only(Readable) && writer.filter == Only(Writable)
    ensures var r := AddHandler(EMPTY_REG, 0, reader).0;
            WF(r) && 0 in r.polled && !Registered(r, 0, writer) && !RoundTrips(r, 0, writer)
  {
    EmptyIsWF();
    AddKeepsWF(EMPTY_REG, 0, reader);
    AddToEmpty(reader);
    ZeroGoesStale(reader, writer);
  }

  // ---------------------------------------------------------------- descriptor 0 over whole runs

  /** What the calls on descriptor 0 add up to: its keys, and the mask that the last registration which
      wanted anything has left, until the last key goes. */
  datatype Trail = Trail(keys: set<Key>, mask: Option<Mask>)

  ghost function Trailed(z: Trail, c: Cmd): Trail {
    match c
    case Add(_, key) =>
      var keys := z.keys + {key};
      Trail(keys, if MaskOf(keys) == NO_MASK then z.mask else Some(MaskOf(keys)))
    case Remove(_, key) =>
      if key !in z.keys then z else Trail(z.keys - {key}, if z.keys == {key} then None else z.mask)
  }

  ghost function TrailOf(z: Trail, cmds: seq<Cmd>): Trail
    decreases |cmds|
  {
    if cmds == [] then z
    else TrailOf(if cmds[0].socket == 0 then Trailed(z, cmds[0]) else z, cmds[1..])
  }

  /** The registry shows the trail on descriptor 0. */
  ghost predicate ShowsTrail(r: Reg, z: Trail)
    requires Linked(r)
  {
    && KeysOf(r, 0) == z.keys
    && (0 in r.kernel <==> z.mask.Some?)
    && (0 in r.kernel ==> r.kernel[0] == z.mask.value)
  }

  lemma AddTrailed(r: Reg, key: Key, z: Trail)
    requires WF(r) && ShowsTrail(r, z)
    ensures Linked(AddHandler(r, 0, key).0)
    ensures ShowsTrail(AddHandler(r, 0, key).0, Trailed(z, Add(0, key)))
  {
    AddedMode(r, 0, key);
    AddKeys(r, 0, key);
    EnlistFrame(r, 0, key);
  }

  lemma RemoveTrailed(r: Reg, key: Key, z: Trail)
    requires WF(r) && ShowsTrail(r, z)
    ensures Linked(RemoveHandler(r, 0, key).0)
    ensures ShowsTrail(RemoveHandler(r, 0, key).0, Trailed(z, Remove(0, key)))
  {
    RemoveLinked(r, 0, key);
    RemoveKeys(r, 0, key);
    RegisteredIsKey(r, 0, key);
    CountKeys(r, 0);
    if Registered(r, 0, key) {
      if |ObserversOf(r, 0)| > 1 {
        RemoveSeveral(r, 0, key);
      } else {
        OnlyMember(z.keys, key);
      }
    }
  }

  lemma OnlyMember<T>(xs: set<T>, x: T)
    requires x in xs && |xs| <= 1
    ensures xs == {x}
  {
    assert |xs - {x}| == |xs| - 1;
    assert xs == (xs - {x}) + {x};
  }

  lemma {:induction false} TrailShown(r: Reg, cmds: seq<Cmd>, z: Trail)
    requires WF(r) && ShowsTrail(r, z)
    ensures ShowsTrail(ExecuteAll(r, cmds), TrailOf(z, cmds))
    decreases |cmds|
  {
    if cmds == [] {
    } else {
      var r1 := Execute(r, cmds[0]).0;
      ExecuteKeepsWF(r, cmds[0]);
      if cmds[0].socket == 0 {
        match cmds[0] {
          case Add(_, key) => AddTrailed(r, key, z);
          case Remove(_, key) => RemoveTrailed(r, key, z);
        }
        TrailShown(r1, cmds[1..], Trailed(z, cmds[0]));
      } else {
        ExecuteFrame(r, cmds[0], 0);
        assert KeysOf(r1, 0) == KeysOf(r, 0);
        TrailShown(r1, cmds[1..], z);
      }
    }
  }

  /** Descriptor 0 over whole runs: the kernel knows it, and with which mask, according to its own calls
      alone; and the mask is that of its observers if and only if the last registration that wanted
      anything left the same mask as the keys that are left now. */
  lemma ZeroMaskIff(cmds: seq<Cmd>)
    ensures var r, z := ExecuteAll(EMPTY_REG, cmds), TrailOf(Trail({}, None), cmds);
            && KeysOf(r, 0) == z.keys
            && (0 in r.kernel <==> z.mask.Some?)
            && (0 in r.kernel ==> r.kernel[0] == z.mask.value)
            && (0 in r.kernel ==> (r.kernel[0] == MaskOf(KeysOf(r, 0)) <==> z.mask == Some(MaskOf(z.keys))))
  {
    EmptyIsWF();
    TrailShown(EMPTY_REG, cmds, Trail({}, None));
  }
}
