/** What a run of registrations and removals cannot undo, and the one thing that goes wrong in it: a
    removal that throws leaves its observer enabled where no socket leads to it any more. */
module RegistryHistory {
  import opened Registry
  import opened RegistryAgreement
  import opened RegistryKeys
  import opened Sequences

  // ---------------------------------------------------------------- growth

  /** Observers are only added behind the known ones, and none is enabled again. */
  ghost predicate Later(r: Reg, r': Reg) {
    && r.cells <= r'.cells
    && (forall id :: id < |r.cells| && id in r'.enabled ==> id in r.enabled)
  }

  /** `Later`, and no notifier is lost or given another socket. */
  ghost predicate Grown(r: Reg, r': Reg) {
    && Later(r, r')
    && |r.notifiers| <= |r'.notifiers|
    && forall nid :: 0 <= nid < |r.notifiers| ==> r'.notifiers[nid].socket == r.notifiers[nid].socket
  }

  /** What adding an observer can do to a notifier and to the handler map. */
  lemma AddNet(r: Reg, s: Socket, key: Key)
    requires Linked(r)
    ensures var r' := AddHandler(r, s, key).0;
            && |r.notifiers| <= |r'.notifiers|
            && (forall i :: 0 <= i < |r.notifiers| ==>
                  || r'.notifiers[i] == r.notifiers[i]
                  || r'.notifiers[i] == AddObserver(r.notifiers[i], Cell(|r.cells|, key, i)))
            && (forall t :: t in r'.handlers ==>
                  (t in r.handlers && r'.handlers[t] == r.handlers[t]) || r'.handlers[t] >= |r.notifiers|)
            && (r'.cells == r.cells || r'.cells == r.cells + [Cell(|r.cells|, key, r'.handlers[s])])
            && (r'.enabled == r.enabled || r'.enabled == r.enabled + {|r.cells|})
  {
    EnlistNet(r, s, key);
  }

  lemma EnlistNet(r: Reg, s: Socket, key: Key)
    requires Linked(r)
    ensures var r' := Enlist(r, s, key);
            && s in r'.handlers && |r.notifiers| <= |r'.notifiers|
            && (forall i :: 0 <= i < |r.notifiers| ==>
                  || r'.notifiers[i] == r.notifiers[i]
                  || r'.notifiers[i] == AddObserver(r.notifiers[i], Cell(|r.cells|, key, i)))
            && (forall t :: t in r'.handlers ==>
                  (t in r.handlers && r'.handlers[t] == r.handlers[t]) || r'.handlers[t] >= |r.notifiers|)
            && (r'.cells == r.cells || r'.cells == r.cells + [Cell(|r.cells|, key, r'.handlers[s])])
            && (r'.enabled == r.enabled || r'.enabled == r.enabled + {|r.cells|})
  {
    WithNotifierFacts(r, s);
  }

  /** What removing an observer can do to a notifier and to the handler map. */
  lemma RemoveNet(r: Reg, s: Socket, key: Key)
    requires Linked(r)
    ensures var r' := RemoveHandler(r, s, key).0;
            && |r'.notifiers| == |r.notifiers|
            && (forall i :: 0 <= i < |r.notifiers| ==>
                  || r'.notifiers[i] == r.notifiers[i]
                  || (HasKey(r.notifiers[i].observers, key) && r'.notifiers[i] == RemoveObserver(r.notifiers[i], key)))
            && (r'.handlers == r.handlers || r'.handlers == r.handlers - {s})
            && r'.cells == r.cells && r'.enabled <= r.enabled
  {
    if Registered(r, s, key) {
      var nid := r.handlers[s];
      var r' := RemoveHandler(r, s, key).0;
      assert r'.notifiers == r.notifiers || r'.notifiers == r.notifiers[nid := RemoveObserver(r.notifiers[nid], key)];
    }
  }

  lemma ExecuteGrown(r: Reg, c: Cmd)
    requires Linked(r)
    ensures Grown(r, Execute(r, c).0)
  {
    match c
    case Add(s, key) => AddNet(r, s, key);
    case Remove(s, key) => RemoveNet(r, s, key);
  }

  lemma GrownTransitive(a: Reg, b: Reg, c: Reg)
    requires Grown(a, b) && Grown(b, c)
    ensures Grown(a, c)
  {
  }

  lemma {:induction false} ExecuteAllGrown(r: Reg, cmds: seq<Cmd>)
    requires Linked(r)
    ensures Grown(r, ExecuteAll(r, cmds))
    decreases |cmds|
  {
    if cmds == [] {
    } else {
      ExecuteLinked(r, cmds[0]);
      ExecuteGrown(r, cmds[0]);
      var r1 := Execute(r, cmds[0]).0;
      ExecuteAllGrown(r1, cmds[1..]);
      GrownTransitive(r, r1, ExecuteAll(r, cmds));
    }
  }

  lemma {:induction false} ExecuteAllAppend(r: Reg, a: seq<Cmd>, b: seq<Cmd>)
    requires Linked(r)
    ensures ExecuteAll(r, a + b) == ExecuteAll(ExecuteAll(r, a), b)
    ensures AllSucceed(r, a + b) <==> AllSucceed(r, a) && AllSucceed(ExecuteAll(r, a), b)
    decreases |a|
  {
    if a == [] {
      assert a + b == b;
    } else {
      ExecuteLinked(r, a[0]);
      assert (a + b)[0] == a[0] && (a + b)[1..] == a[1..] + b;
      ExecuteAllAppend(Execute(r, a[0]).0, a[1..], b);
    }
  }

  /** A list gains nothing but new observers. */
  lemma ExecuteLists(r: Reg, cmd: Cmd, nid: nat, c: Cell)
    requires Linked(r) && nid < |r.notifiers| && c.id < |r.cells|
    requires nid < |Execute(r, cmd).0.notifiers| && c in Execute(r, cmd).0.notifiers[nid].observers
    ensures c in r.notifiers[nid].observers
  {
    var n, n' := r.notifiers[nid], Execute(r, cmd).0.notifiers[nid];
    match cmd
    case Add(s, key) =>
      AddNet(r, s, key);
      if n' != n {
        assert n'.observers == n.observers + [Cell(|r.cells|, key, nid)];
      }
    case Remove(s, key) =>
      RemoveNet(r, s, key);
      if n' != n {
        TakenOut(n.observers, IndexOf(n.observers, key));
      }
  }

  lemma {:induction false} RunLists(r: Reg, cmds: seq<Cmd>, nid: nat, c: Cell)
    requires Linked(r) && nid < |r.notifiers| && c.id < |r.cells|
    requires nid < |ExecuteAll(r, cmds).notifiers| && c in ExecuteAll(r, cmds).notifiers[nid].observers
    ensures c in r.notifiers[nid].observers
    decreases |cmds|
  {
    if cmds == [] {
    } else {
      var r1 := Execute(r, cmds[0]).0;
      ExecuteLinked(r, cmds[0]);
      ExecuteGrown(r, cmds[0]);
      RunLists(r1, cmds[1..], nid, c);
      ExecuteLists(r, cmds[0], nid, c);
    }
  }

  /** A handler that was there before is found under its old name, a new one under a new name. */
  lemma ExecuteHandlers(r: Reg, cmd: Cmd, s: Socket)
    requires Linked(r) && s in Execute(r, cmd).0.handlers
    ensures var nid := Execute(r, cmd).0.handlers[s];
            nid < |r.notifiers| ==> s in r.handlers && r.handlers[s] == nid
  {
    match cmd
    case Add(t, key) => AddNet(r, t, key);
    case Remove(t, key) => RemoveNet(r, t, key);
  }

  lemma {:induction false} RunHandlers(r: Reg, cmds: seq<Cmd>, s: Socket)
    requires Linked(r) && s in ExecuteAll(r, cmds).handlers
    ensures var nid := ExecuteAll(r, cmds).handlers[s];
            nid < |r.notifiers| ==> s in r.handlers && r.handlers[s] == nid
    decreases |cmds|
  {
    if cmds == [] {
    } else {
      var r1 := Execute(r, cmds[0]).0;
      ExecuteLinked(r, cmds[0]);
      ExecuteGrown(r, cmds[0]);
      RunHandlers(r1, cmds[1..], s);
      if s in r1.handlers {
        ExecuteHandlers(r, cmds[0], s);
      }
    }
  }

  // ---------------------------------------------------------------- orphans

  /** An observer in the list of the notifier that handles its socket. */
  ghost predicate Listed(r: Reg, c: Cell)
    requires Linked(r)
  {
    c.home < |r.notifiers| && var s := r.notifiers[c.home].socket;
    s in r.handlers && r.handlers[s] == c.home && c in ObserversOf(r, s)
  }

  /** Every enabled observer can still be found by its socket. */
  ghost predicate NoOrphans(r: Reg)
    requires Linked(r)
  {
    forall id :: id in r.enabled ==> id < |r.cells| && Listed(r, r.cells[id])
  }

  /** The removal of the last observer of a socket that is not polled: the handler is erased, the poll
      set throws, and the observer stays enabled. A caller can see this before the call. */
  ghost predicate Orphaning(r: Reg, cmd: Cmd)
    requires Linked(r)
  {
    cmd.Remove? && Registered(r, cmd.socket, cmd.key) && |ObserversOf(r, cmd.socket)| == 1 && cmd.socket !in r.polled
  }

  /** `Orphaning`, and `c` is the observer it leaves behind. */
  ghost predicate Orphans(r: Reg, cmd: Cmd, c: Cell)
    requires Linked(r)
  {
    Orphaning(r, cmd) && ObserversOf(r, cmd.socket)[0] == c
  }

  /** Some removal of a run orphans `c`. */
  ghost predicate OrphanedBy(r: Reg, cmds: seq<Cmd>, c: Cell)
    requires Linked(r)
    decreases |cmds|
  {
    cmds != []
    && (Orphans(r, cmds[0], c) || (ExecuteLinked(r, cmds[0]); OrphanedBy(Execute(r, cmds[0]).0, cmds[1..], c)))
  }

  /** No removal of a run orphans anything. */
  ghost predicate OrphanFree(r: Reg, cmds: seq<Cmd>)
    requires Linked(r)
    decreases |cmds|
  {
    cmds != [] ==>
      !Orphaning(r, cmds[0]) && (ExecuteLinked(r, cmds[0]); OrphanFree(Execute(r, cmds[0]).0, cmds[1..]))
  }

  lemma {:induction false} OrphanFreeSpares(r: Reg, cmds: seq<Cmd>, c: Cell)
    requires Linked(r) && OrphanFree(r, cmds)
    ensures !OrphanedBy(r, cmds, c)
    decreases |cmds|
  {
    if cmds == [] {
    } else {
      ExecuteLinked(r, cmds[0]);
      OrphanFreeSpares(Execute(r, cmds[0]).0, cmds[1..], c);
    }
  }

  lemma ListedIsEnabled(r: Reg, c: Cell)
    requires Structure(r) && Listed(r, c)
    ensures c.id < |r.cells| && r.cells[c.id] == c && c.id in r.enabled
  {
    var cells := r.notifiers[c.home].observers;
    assert NotifierOk(r, c.home);
    var i :| 0 <= i < |cells| && cells[i] == c;
    assert CellOk(r, c.home, cells[i]);
  }

  // ---------------------------------------------------------------- one command and one observer

  /** Listed observers of a socket that nothing happens to stay listed. */
  lemma ElsewhereListed(r: Reg, r': Reg, c: Cell)
    requires Linked(r) && Linked(r') && Listed(r, c) && Grown(r, r')
    requires SameAt(r, r', r.notifiers[c.home].socket)
    ensures Listed(r', c)
  {
  }

  /** A listed observer that is still in the list of the same notifier. */
  lemma StillListed(r: Reg, r': Reg, s: Socket, c: Cell)
    requires Linked(r) && Linked(r') && Listed(r, c) && Grown(r, r')
    requires r.notifiers[c.home].socket == s
    requires s in r'.handlers && r'.handlers[s] == r.handlers[s]
    requires c in ObserversOf(r', s)
    ensures Listed(r', c)
  {
  }

  lemma AddKeepsListed(r: Reg, s: Socket, key: Key, c: Cell)
    requires WF(r) && Listed(r, c)
    ensures Linked(AddHandler(r, s, key).0) && Listed(AddHandler(r, s, key).0, c)
  {
    AddedList(r, s, key);
    ExecuteGrown(r, Add(s, key));
    var t := r.notifiers[c.home].socket;
    if t != s {
      AddFrame(r, s, key, t);
      ElsewhereListed(r, AddHandler(r, s, key).0, c);
    } else {
      StillListed(r, AddHandler(r, s, key).0, s, c);
    }
  }

  /** A clone starts its life in the list of its socket. */
  lemma BornListed(r: Reg, cmd: Cmd, c: Cell)
    requires WF(r) && c.id == |r.cells| && |r.cells| < |Execute(r, cmd).0.cells| && Execute(r, cmd).0.cells[c.id] == c
    ensures cmd.Add? && Linked(Execute(r, cmd).0) && Listed(Execute(r, cmd).0, c)
  {
    match cmd
    case Add(s, key) =>
      AddedList(r, s, key);
      var r' := Execute(r, cmd).0;
      assert ObserversOf(r', s)[|ObserversOf(r, s)|] == c;
    case Remove(s, key) =>
      RemoveNet(r, s, key);
      assert false;
  }

  /** The observer that a removal looks for. */
  ghost function Found(r: Reg, s: Socket, key: Key): Cell
    requires Linked(r) && Registered(r, s, key)
  {
    ObserversOf(r, s)[IndexOf(ObserversOf(r, s), key)]
  }

  lemma FoundFacts(r: Reg, s: Socket, key: Key)
    requires Structure(r) && Registered(r, s, key)
    ensures var c := Found(r, s, key);
            && c.home == r.handlers[s] && c.id < |r.cells| && r.cells[c.id] == c && c.id in r.enabled
            && r.notifiers[c.home].socket == s && Listed(r, c)
  {
    var cells := ObserversOf(r, s);
    assert NotifierOk(r, r.handlers[s]) && CellOk(r, r.handlers[s], cells[IndexOf(cells, key)]);
  }

  /** A removal that does not throw disables what it finds and nothing else. */
  lemma RemoveDisables(r: Reg, s: Socket, key: Key)
    requires WF(r) && Registered(r, s, key) && !Orphaning(r, Remove(s, key))
    ensures RemoveHandler(r, s, key).0.enabled == r.enabled - {Found(r, s, key).id}
  {
    RemoveKeepsWF(r, s, key);
  }

  /** A removal that throws on the last observer changes the handler map alone. */
  lemma OrphaningNet(r: Reg, s: Socket, key: Key)
    requires WF(r) && Orphaning(r, Remove(s, key))
    ensures RemoveHandler(r, s, key) == (r.(handlers := r.handlers - {s}), false)
  {
  }

  /** Another observer than the one that is found stays where it is. */
  lemma RemoveKeepsOthers(r: Reg, s: Socket, key: Key, c: Cell)
    requires WF(r) && Registered(r, s, key) && Listed(r, c) && c != Found(r, s, key)
    ensures Linked(RemoveHandler(r, s, key).0) && Listed(RemoveHandler(r, s, key).0, c)
  {
    var r' := RemoveHandler(r, s, key).0;
    RemoveLinked(r, s, key);
    ExecuteGrown(r, Remove(s, key));
    var t := r.notifiers[c.home].socket;
    if t != s {
      RemoveFrame(r, s, key, t);
      ElsewhereListed(r, r', c);
    } else {
      var cells := ObserversOf(r, s);
      StaysInList(cells, IndexOf(cells, key), c);
      RemovedObservers(r, s, key);
      assert r'.handlers == r.handlers;
      StillListed(r, r', s, c);
    }
  }

  lemma StaysInList(cells: seq<Cell>, at: nat, c: Cell)
    requires at < |cells| && c in cells && c != cells[at]
    ensures |cells| > 1 && c in Without(cells, at)
  {
    var i :| 0 <= i < |cells| && cells[i] == c;
    assert Without(cells, at)[if i < at then i else i - 1] == c;
  }

  /** What one command does to a listed observer: it stays listed, or it is disabled, or it is orphaned,
      which is the only way to leave an enabled observer unlisted. */
  lemma ListedFate(r: Reg, cmd: Cmd, c: Cell)
    requires WF(r) && Listed(r, c)
    ensures Linked(Execute(r, cmd).0)
    ensures Orphans(r, cmd, c) <==> c.id in Execute(r, cmd).0.enabled && !Listed(Execute(r, cmd).0, c)
  {
    ListedIsEnabled(r, c);
    ExecuteLinked(r, cmd);
    match cmd
    case Add(s, key) =>
      AddKeepsListed(r, s, key, c);
    case Remove(s, key) =>
      if Registered(r, s, key) {
        FoundFacts(r, s, key);
        if c != Found(r, s, key) {
          RemoveKeepsOthers(r, s, key, c);
          OrphansFound(r, s, key, c);
        } else if Orphaning(r, cmd) {
          OrphaningNet(r, s, key);
        } else {
          RemoveDisables(r, s, key);
        }
      }
  }

  lemma OrphansFound(r: Reg, s: Socket, key: Key, c: Cell)
    requires Linked(r) && Registered(r, s, key) && c != Found(r, s, key)
    ensures !Orphans(r, Remove(s, key), c)
  {
  }

  /** An observer that is not listed never is again. */
  lemma GoneStays(r: Reg, cmd: Cmd, c: Cell)
    requires WF(r) && c.id < |r.cells| && r.cells[c.id] == c && !Listed(r, c)
    ensures Linked(Execute(r, cmd).0) && !Listed(Execute(r, cmd).0, c)
  {
    var r' := Execute(r, cmd).0;
    ExecuteLinked(r, cmd);
    ExecuteGrown(r, cmd);
    if Listed(r', c) {
      var s := r'.notifiers[c.home].socket;
      ExecuteHandlers(r, cmd, s);
      ExecuteLists(r, cmd, c.home, c);
    }
  }

  /** And if it is still enabled, it stays so: removals find listed observers only. */
  lemma OrphanStaysEnabled(r: Reg, cmd: Cmd, c: Cell)
    requires WF(r) && c.id < |r.cells| && r.cells[c.id] == c && c.id in r.enabled && !Listed(r, c)
    ensures c.id in Execute(r, cmd).0.enabled
  {
    match cmd
    case Add(s, key) => AddNet(r, s, key);
    case Remove(s, key) =>
      if Registered(r, s, key) {
        FoundFacts(r, s, key);
        if Orphaning(r, cmd) {
          OrphaningNet(r, s, key);
        } else {
          RemoveDisables(r, s, key);
        }
      }
  }

  // ---------------------------------------------------------------- runs

  lemma {:induction false} OrphanStays(r: Reg, cmds: seq<Cmd>, c: Cell)
    requires WF(r) && c.id < |r.cells| && r.cells[c.id] == c && !Listed(r, c)
    ensures !Listed(ExecuteAll(r, cmds), c)
    ensures c.id in r.enabled ==> c.id in ExecuteAll(r, cmds).enabled
    ensures c.id < |ExecuteAll(r, cmds).cells| && ExecuteAll(r, cmds).cells[c.id] == c
    decreases |cmds|
  {
    if cmds == [] {
    } else {
      GoneStays(r, cmds[0], c);
      if c.id in r.enabled {
        OrphanStaysEnabled(r, cmds[0], c);
      }
      ExecuteKeepsWF(r, cmds[0]);
      ExecuteGrown(r, cmds[0]);
      OrphanStays(Execute(r, cmds[0]).0, cmds[1..], c);
    }
  }

  lemma OnlyKnownAreOrphaned(r: Reg, cmd: Cmd, c: Cell)
    requires WF(r) && Orphans(r, cmd, c)
    ensures Listed(r, c) && c.id < |r.cells|
  {
    FoundFacts(r, cmd.socket, cmd.key);
  }

  /** The fate of an observer over a whole run, from any moment at which it is listed or not yet made:
      while it is enabled it is listed, unless a removal has orphaned it. */
  lemma {:induction false} EnabledIsListedIff(r: Reg, cmds: seq<Cmd>, c: Cell)
    requires WF(r) && (c.id < |r.cells| ==> Listed(r, c))
    requires var r' := ExecuteAll(r, cmds); c.id < |r'.cells| && r'.cells[c.id] == c && c.id in r'.enabled
    ensures Listed(ExecuteAll(r, cmds), c) <==> !OrphanedBy(r, cmds, c)
    decreases |cmds|
  {
    if cmds == [] {
    } else {
      var r1 := Execute(r, cmds[0]).0;
      ExecuteKeepsWF(r, cmds[0]);
      ExecuteAllGrown(r1, cmds[1..]);
      if c.id < |r.cells| {
        ListedIsEnabled(r, c);
        ListedFate(r, cmds[0], c);
        ExecuteGrown(r, cmds[0]);
        if Orphans(r, cmds[0], c) {
          OrphanStays(r1, cmds[1..], c);
        } else {
          EnabledIsListedIff(r1, cmds[1..], c);
        }
      } else {
        NewIsListed(r, cmds[0], cmds[1..], c);
        EnabledIsListedIff(r1, cmds[1..], c);
      }
    }
  }

  /** A command makes at most one observer, and that one is listed. */
  lemma NewIsListed(r: Reg, cmd: Cmd, rest: seq<Cmd>, c: Cell)
    requires WF(r) && WF(Execute(r, cmd).0) && c.id >= |r.cells|
    requires var r' := ExecuteAll(Execute(r, cmd).0, rest); c.id < |r'.cells| && r'.cells[c.id] == c
    ensures !Orphans(r, cmd, c)
    ensures c.id < |Execute(r, cmd).0.cells| ==> Listed(Execute(r, cmd).0, c)
  {
    var r1 := Execute(r, cmd).0;
    ExecuteAllGrown(r1, rest);
    if Orphans(r, cmd, c) {
      OnlyKnownAreOrphaned(r, cmd, c);
    }
    if c.id < |r1.cells| {
      match cmd {
        case Add(s, key) => AddNet(r, s, key);
        case Remove(s, key) => RemoveNet(r, s, key);
      }
      BornListed(r, cmd, c);
    }
  }

  /** One command from a registry without orphans makes one exactly if it is `Orphaning`. */
  lemma OrphansIff(r: Reg, cmd: Cmd)
    requires WF(r) && NoOrphans(r)
    ensures Linked(Execute(r, cmd).0)
    ensures NoOrphans(Execute(r, cmd).0) <==> !Orphaning(r, cmd)
  {
    var r' := Execute(r, cmd).0;
    ExecuteKeepsWF(r, cmd);
    ExecuteGrown(r, cmd);
    if Orphaning(r, cmd) {
      var c := Found(r, cmd.socket, cmd.key);
      FoundFacts(r, cmd.socket, cmd.key);
      ListedFate(r, cmd, c);
      assert !Listed(r', r'.cells[c.id]);
    } else {
      forall id | id in r'.enabled
        ensures id < |r'.cells| && Listed(r', r'.cells[id])
      {
        EnabledStaysListed(r, cmd, id);
      }
    }
  }

  lemma EnabledStaysListed(r: Reg, cmd: Cmd, id: nat)
    requires WF(r) && NoOrphans(r) && !Orphaning(r, cmd) && WF(Execute(r, cmd).0)
    requires id in Execute(r, cmd).0.enabled
    ensures id < |Execute(r, cmd).0.cells| && Listed(Execute(r, cmd).0, Execute(r, cmd).0.cells[id])
  {
    var r' := Execute(r, cmd).0;
    ExecuteGrown(r, cmd);
    var c := r'.cells[id];
    if id < |r.cells| {
      assert Listed(r, r.cells[id]);
      ListedFate(r, cmd, c);
    } else {
      assert ExecuteAll(r', []) == r';
      NewIsListed(r, cmd, [], c);
    }
  }

  /** Over whole runs, exactly: no observer is orphaned if and only if no call of the run removes the
      last observer of a socket that is not polled at that moment. */
  lemma {:induction false} RunOrphansIff(r: Reg, cmds: seq<Cmd>)
    requires WF(r) && NoOrphans(r)
    ensures NoOrphans(ExecuteAll(r, cmds)) <==> OrphanFree(r, cmds)
    decreases |cmds|
  {
    if cmds == [] {
    } else {
      var r1 := Execute(r, cmds[0]).0;
      ExecuteKeepsWF(r, cmds[0]);
      OrphansIff(r, cmds[0]);
      if Orphaning(r, cmds[0]) {
        var id :| id in r1.enabled && !(id < |r1.cells| && Listed(r1, r1.cells[id]));
        OrphanStays(r1, cmds[1..], r1.cells[id]);
      } else {
        RunOrphansIff(r1, cmds[1..]);
      }
    }
  }

  /** A run in which no call throws is free of orphans. */
  lemma {:induction false} SuccessIsOrphanFree(r: Reg, cmds: seq<Cmd>)
    requires WF(r) && AllSucceed(r, cmds)
    ensures OrphanFree(r, cmds)
    decreases |cmds|
  {
    if cmds == [] {
    } else {
      ExecuteKeepsWF(r, cmds[0]);
      if cmds[0].Remove? {
        RemoveKeepsWF(r, cmds[0].socket, cmds[0].key);
      }
      SuccessIsOrphanFree(Execute(r, cmds[0]).0, cmds[1..]);
    }
  }

  // ---------------------------------------------------------------- observers that want I/O

  predicate IsIO(k: Kind) {
    k == Readable || k == Writable || k == Error
  }

  lemma OnlyObserverIsPolled(r: Reg, s: Socket, c: Cell, k: Kind)
    requires WF(r) && IsIO(k) && Accepts(c.key.filter, k)
    requires s >= 0 && s in r.handlers && ObserversOf(r, s) == [c]
    ensures s in r.polled
  {
    var n := r.notifiers[r.handlers[s]];
    assert NotifierOk(r, r.handlers[s]) && Watched(r, s);
    KindsOne(c);
    assert n.events == Counted(c.key.filter);
  }

  /** An observer that takes readable, writable or error notifications of a proper descriptor is never
      orphaned: while it is listed its socket is polled. */
  lemma WatchedIsNotOrphaned(r: Reg, cmd: Cmd, c: Cell, k: Kind)
    requires WF(r) && IsIO(k) && Accepts(c.key.filter, k)
    requires cmd.Remove? ==> cmd.socket >= 0
    ensures !Orphans(r, cmd, c)
  {
    var s := cmd.socket;
    if cmd.Remove? && s in r.handlers && |ObserversOf(r, s)| == 1 && ObserversOf(r, s)[0] == c {
      OnlyObserverIsPolled(r, s, c, k);
    }
  }

  lemma {:induction false} WatchedIsSpared(r: Reg, cmds: seq<Cmd>, c: Cell, k: Kind)
    requires WF(r) && IsIO(k) && Accepts(c.key.filter, k)
    requires var r' := ExecuteAll(r, cmds); c.home < |r'.notifiers| && r'.notifiers[c.home].socket >= 0
    ensures !OrphanedBy(r, cmds, c)
    decreases |cmds|
  {
    if cmds == [] {
    } else {
      ExecuteAllGrown(r, cmds);
      if Orphans(r, cmds[0], c) {
        FoundFacts(r, cmds[0].socket, cmds[0].key);
        WatchedIsNotOrphaned(r, cmds[0], c, k);
      }
      ExecuteKeepsWF(r, cmds[0]);
      WatchedIsSpared(Execute(r, cmds[0]).0, cmds[1..], c, k);
    }
  }
}
