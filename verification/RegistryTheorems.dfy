/** What the device registry guarantees over every run, and exactly where it fails. */
module RegistryTheorems {
  import opened Machines
  import opened Registry

  predicate SameDevice(s: State, g: nat, h: nat) {
    g < |s.handlers| && h < |s.handlers| && s.handlers[g].id == s.handlers[h].id
  }

  /** The device is reachable through `session`: the entry of the ID, and open. */
  predicate Connected(s: State, id: DeviceId, session: nat) {
    Entry(s.table, id) == Some(session) && session in s.table.open
  }

  // ------------------------------------------------------------------------------- single live session

  /** Of all sessions that have been through `AddDevice` under one ID at most one is open, and it is the
      entry. */
  lemma SingleLiveSession(s: State, h: nat)
    requires SERVER.Reaches(INITIAL, s)
    requires h in s.table.open && !At(s, h, Accepted)
    ensures h < |s.handlers| && Connected(s, s.handlers[h].id, h)
    ensures forall g | SameDevice(s, g, h) && g != h && !At(s, g, Accepted) :: g !in s.table.open
  {
    ServerInvariant(s);
  }

  // ------------------------------------------------------------------------------- causes

  /** A closed session was closed once, by its own transport, by a later registration of its ID, or by the
      removal of a handler that had registered earlier under its ID. */
  lemma ExactCauses(s: State, h: nat, c: Cause)
    requires SERVER.Reaches(INITIAL, s) && Closed(h, c) in s.log
    ensures match c
            case Transport => true
            case Displacement(g) => exists id :: Before(s.log, h, g, id)
            case Removal(g) => exists id :: Before(s.log, g, h, id)
            case OwnReturn => false
    ensures forall d {:trigger Closed(h, d)} | Closed(h, d) in s.log :: d == c
    ensures c.Removal? ==> forall other: nat {:trigger Closed(other, c)} | Closed(other, c) in s.log :: other == h
  {
    ServerInvariant(s);
    var i :| 0 <= i < |s.log| && s.log[i] == Closed(h, c);
    forall d {:trigger Closed(h, d)} | Closed(h, d) in s.log
      ensures d == c
    {
      var j :| 0 <= j < |s.log| && s.log[j] == Closed(h, d);
    }
    if c.Removal? {
      forall other: nat {:trigger Closed(other, c)} | Closed(other, c) in s.log
        ensures other == h
      {
        var j :| 0 <= j < |s.log| && s.log[j] == Closed(other, c);
      }
    }
  }

  lemma RemovalDrops(s: State, g: nat, e: nat)
    requires Sound(s) && Single(s) && At(s, g, Woken)
    ensures e in s.table.open && e !in Next(false, s, RemoveDevice(g)).table.open
            <==> e in s.table.open && At(s, e, Registered) && SameDevice(s, g, e)
  {
  }

  lemma RemovalLogs(s: State, g: nat, e: nat)
    requires Single(s) && At(s, g, Woken) && e in s.table.open && At(s, e, Registered) && SameDevice(s, g, e)
    ensures Next(false, s, RemoveDevice(g)).log == s.log + [Closed(e, Removal(g)), RemoveCalled(g, s.handlers[g].id)]
  {
    assert [Closed(e, Removal(g))] + [RemoveCalled(g, s.handlers[g].id)]
           == [Closed(e, Removal(g)), RemoveCalled(g, s.handlers[g].id)];
  }

  /** What a removal closes: exactly the open registered session of its ID, which is never its own. */
  lemma RemovalDropsExactly(s: State, g: nat, e: nat)
    requires SERVER.Reaches(INITIAL, s) && Enabled(s, RemoveDevice(g))
    ensures e in s.table.open && e !in Next(false, s, RemoveDevice(g)).table.open
            <==> e in s.table.open && At(s, e, Registered) && SameDevice(s, g, e)
    ensures e in s.table.open && At(s, e, Registered) && SameDevice(s, g, e) ==>
              e != g && Next(false, s, RemoveDevice(g)).log
                        == s.log + [Closed(e, Removal(g)), RemoveCalled(g, s.handlers[g].id)]
  {
    ServerInvariant(s);
    RemovalDrops(s, g, e);
    if e in s.table.open && At(s, e, Registered) && SameDevice(s, g, e) {
      RemovalLogs(s, g, e);
    }
  }

  lemma WokenDropsSuccessor(s: State, g: nat, e: nat)
    requires At(s, g, Woken) && SameDevice(s, g, e) && e in s.table.open
    requires Entry(s.table, s.handlers[e].id) == Some(e)
    ensures var t := Next(false, s, RemoveDevice(g));
            e !in t.table.open && Closed(e, Removal(g)) in t.log && Entry(t.table, s.handlers[e].id) == None
  {
    assert Closed(e, Removal(g)) in Events(false, s, RemoveDevice(g));
  }

  /** A handler that was displaced and has not yet run its removal drops the live successor when it runs
      next, and the device is left with no entry. */
  lemma DisplacedHandlerDropsSuccessor(s: State, g: nat, e: nat) returns (labels: seq<Label>, t: State)
    requires SERVER.Reaches(INITIAL, s)
    requires g != e && SameDevice(s, g, e) && Active(s, g) && e in s.table.open && At(s, e, Registered)
    ensures labels == [Wake(g), RemoveDevice(g)] || labels == [RemoveDevice(g)]
    ensures SERVER.Runs(s, labels, t)
    ensures e !in t.table.open && Closed(e, Removal(g)) in t.log && Entry(t.table, s.handlers[e].id) == None
  {
    ServerInvariant(s);
    var u := if At(s, g, Registered) then Next(false, s, Wake(g)) else s;
    assert SERVER.Runs(s, [], s);
    labels := [];
    if At(s, g, Registered) {
      SERVER.Then(s, [], s, Wake(g));
      labels := [] + [Wake(g)];
    }
    WokenDropsSuccessor(u, g, e);
    t := Next(false, u, RemoveDevice(g));
    SERVER.Then(s, labels, u, RemoveDevice(g));
    labels := labels + [RemoveDevice(g)];
  }

  /** A removal deferred by some handler closed session `e`. */
  ghost predicate DroppedByRemoval(log: seq<Event>, e: nat) {
    exists g: nat :: Closed(e, Removal(g)) in log
  }

  /** Session `e` is safe from removals: it is the registered session of its ID with no other handler of that ID before
      its removal, or it was closed, and not by a removal. */
  ghost predicate Safe(s: State, e: nat) {
    && !DroppedByRemoval(s.log, e)
    && (e in s.table.open ==>
          At(s, e, Registered) && forall g: nat | g != e && SameDevice(s, g, e) :: !Active(s, g))
    && e < |s.handlers|
  }

  lemma SafeOpenStep(s: State, l: Label, e: nat)
    requires Sound(s) && Single(s) && Safe(s, e) && Enabled(s, l)
    requires e in s.table.open && e in Next(false, s, l).table.open
    ensures At(Next(false, s, l), e, Registered)
    ensures forall g: nat | g != e && SameDevice(Next(false, s, l), g, e) :: !Active(Next(false, s, l), g)
  {
    var t := Next(false, s, l);
    forall g: nat | g != e && SameDevice(t, g, e)
      ensures !Active(t, g)
    {
      if g < |s.handlers| {
        assert SameDevice(s, g, e) && !Active(s, g);
        assert l != AddDevice(g);
      }
    }
  }

  lemma SafeLogStep(s: State, l: Label, e: nat)
    requires Sound(s) && Single(s) && Safe(s, e) && Enabled(s, l)
    ensures !DroppedByRemoval(Next(false, s, l).log, e)
  {
    var more := Events(false, s, l);
    forall g: nat
      ensures Closed(e, Removal(g)) !in Next(false, s, l).log
    {
      if Closed(e, Removal(g)) in more {
        assert l == RemoveDevice(g) && Active(s, g) && SameDevice(s, g, e);
      }
    }
  }

  lemma SafeStep(s: State, l: Label, e: nat)
    requires Sound(s) && Single(s) && Safe(s, e) && Enabled(s, l)
    ensures Safe(Next(false, s, l), e)
  {
    SafeLogStep(s, l, e);
    if e in Next(false, s, l).table.open {
      assert e in s.table.open;
      SafeOpenStep(s, l, e);
    }
  }

  lemma SafeForever(s: State, e: nat, t: State)
    requires Inv(false, s) && Safe(s, e) && SERVER.Reaches(s, t)
    ensures !DroppedByRemoval(t.log, e)
  {
    var inv := (s: State) => Inv(false, s) && Safe(s, e);
    forall s, l | inv(s) && SERVER.enabled(s, l)
      ensures inv(SERVER.next(s, l))
    {
      InvStep(false, s, l);
      SafeStep(s, l, e);
    }
    SERVER.Invariant(inv, s, t);
  }

  /** The forecast. An open registered session can still be closed by a deferred removal, in some continuation, if and
      only if another handler of its ID has registered and not yet run its removal. */
  lemma CanBeDroppedExactly(s: State, e: nat)
    requires SERVER.Reaches(INITIAL, s) && e in s.table.open && At(s, e, Registered)
    ensures (exists t :: SERVER.Reaches(s, t) && DroppedByRemoval(t.log, e))
            <==> exists g: nat :: g != e && SameDevice(s, g, e) && Active(s, g)
  {
    ServerInvariant(s);
    if g: nat :| g != e && SameDevice(s, g, e) && Active(s, g) {
      var labels, t := DisplacedHandlerDropsSuccessor(s, g, e);
      assert SERVER.Reaches(s, t) && DroppedByRemoval(t.log, e);
    } else {
      assert !IsClosed(s.log, e);
      forall t | SERVER.Reaches(s, t)
        ensures !DroppedByRemoval(t.log, e)
      {
        SafeForever(s, e, t);
      }
    }
  }

  /** No two handlers of one ID are between their registration and their removal together. */
  ghost predicate NoOverlap(s: State) {
    forall g: nat, h: nat | Active(s, g) && Active(s, h) && SameDevice(s, g, h) :: g == h
  }

  ghost const SERIAL_SERVER :=
    Machine((s, l) => Enabled(s, l) && NoOverlap(Next(false, s, l)), (s, l) => Next(false, s, l))

  ghost predicate OnlyTransport(s: State) {
    forall e | e in s.log && e.Closed? :: e.cause == Transport
  }

  lemma SerialStep(s: State, l: Label)
    requires Inv(false, s) && NoOverlap(s) && OnlyTransport(s)
    requires Enabled(s, l) && NoOverlap(Next(false, s, l))
    ensures OnlyTransport(Next(false, s, l))
  {
    var t := Next(false, s, l);
    forall e | e in t.log && e.Closed?
      ensures e.cause == Transport
    {
      if e !in s.log {
        assert e in Events(false, s, l);
        if l.AddDevice? {
          assert Active(t, e.session) && Active(t, l.handler) && SameDevice(t, e.session, l.handler);
        } else if l.RemoveDevice? {
          assert Active(s, e.session) && Active(s, l.handler) && SameDevice(s, e.session, l.handler);
        }
      }
    }
  }

  /** In a run where handlers of one ID never overlap, sessions are closed by their own transport only. */
  lemma WithoutOverlapOnlyTransport(s: State, h: nat, c: Cause)
    requires SERIAL_SERVER.Reaches(INITIAL, s) && Closed(h, c) in s.log
    ensures c == Transport
  {
    var inv := (s: State) => Inv(false, s) && NoOverlap(s) && OnlyTransport(s);
    forall s, l | inv(s) && SERIAL_SERVER.enabled(s, l)
      ensures inv(SERIAL_SERVER.next(s, l))
    {
      InvStep(false, s, l);
      SerialStep(s, l);
    }
    SERIAL_SERVER.Invariant(inv, INITIAL, s);
  }

  // ------------------------------------------------------------------------------- reconnecting

  /** A session that is closed while it is an entry, or the latest addition, was closed by its transport. */
  ghost predicate EntriesDieByTransport(s: State) {
    forall id | id in s.table.sessions ::
      s.table.sessions[id] in s.table.open || Closed(s.table.sessions[id], Transport) in s.log
  }

  lemma NotBefore(log: seq<Event>, g: nat, h: nat, id: DeviceId)
    requires Added(g, id) !in log || Added(h, id) !in log
    ensures !Before(log, g, h, id)
  {
  }

  lemma AcceptedDieByTransport(guarded: bool, s: State, h: nat)
    requires Inv(guarded, s) && At(s, h, Accepted) && h !in s.table.open
    ensures Closed(h, Transport) in s.log
  {
    assert IsClosed(s.log, h);
    var e :| e in s.log && e.Closed? && e.session == h;
    assert e == Closed(h, e.cause);
    assert Legitimate(s.log, h, e.cause);
    forall id, g: nat
      ensures !Before(s.log, g, h, id) && !Before(s.log, h, g, id)
    {
      NotBefore(s.log, g, h, id);
      NotBefore(s.log, h, g, id);
    }
  }

  lemma EntriesDieAdd(guarded: bool, s: State, h: nat)
    requires Sound(s) && EntriesDieByTransport(s) && At(s, h, Accepted)
    requires h in s.table.open || Closed(h, Transport) in s.log
    ensures EntriesDieByTransport(Next(guarded, s, AddDevice(h)))
  {
  }

  lemma EntriesDieOthers(guarded: bool, s: State, l: Label)
    requires Sound(s) && EntriesDieByTransport(s) && Enabled(s, l) && !l.AddDevice?
    ensures EntriesDieByTransport(Next(guarded, s, l))
  {
    var t := Next(guarded, s, l);
    forall id | id in t.table.sessions
      ensures t.table.sessions[id] in t.table.open || Closed(t.table.sessions[id], Transport) in t.log
    {
      if l.TransportFails? && t.table.sessions[id] == l.session {
        assert Closed(l.session, Transport) in Events(guarded, s, l);
      }
    }
  }

  lemma EntriesDieByTransportStep(guarded: bool, s: State, l: Label)
    requires Inv(guarded, s) && EntriesDieByTransport(s) && Enabled(s, l)
    ensures EntriesDieByTransport(Next(guarded, s, l))
  {
    if l.AddDevice? {
      if l.handler !in s.table.open {
        AcceptedDieByTransport(guarded, s, l.handler);
      }
      EntriesDieAdd(guarded, s, l.handler);
    } else {
      EntriesDieOthers(guarded, s, l);
    }
  }

  /** `e` was added under `id`, and no addition or removal of `id` came after. */
  ghost predicate Undisturbed(log: seq<Event>, id: DeviceId, e: nat) {
    exists i :: 0 <= i < |log| && log[i] == Added(e, id) &&
                forall j | i < j < |log| :: log[j].Closed? || log[j].id != id
  }

  lemma {:induction false} InForceMeans(log: seq<Event>, id: DeviceId, e: nat)
    ensures InForce(false, log, id) == Some(e) <==> Undisturbed(log, id, e)
  {
    if log != [] {
      var front, last := log[..|log| - 1], log[|log| - 1];
      InForceMeans(front, id, e);
      if Undisturbed(front, id, e) && (last.Closed? || last.id != id) {
        var i :| 0 <= i < |front| && front[i] == Added(e, id) &&
                 forall j | i < j < |front| :: front[j].Closed? || front[j].id != id;
        assert log[i] == Added(e, id) && forall j | i < j < |log| :: log[j].Closed? || log[j].id != id;
      }
      if last == Added(e, id) {
        assert log[|log| - 1] == Added(e, id);
      }
      if Undisturbed(log, id, e) && last != Added(e, id) {
        var i :| 0 <= i < |log| && log[i] == Added(e, id) &&
                 forall j | i < j < |log| :: log[j].Closed? || log[j].id != id;
        assert i < |front| && front[i] == Added(e, id);
        assert forall j | i < j < |front| :: front[j].Closed? || front[j].id != id;
        assert log[|log| - 1].Closed? || log[|log| - 1].id != id;
      }
    }
  }

  /** Exactly when a device is connected through session `e`: `e`'s registration is still in force, that is no
      later registration and no removal of that ID by any handler has been called since, and `e`'s own
      transport has not failed. */
  lemma ConnectedExactly(s: State, id: DeviceId, e: nat)
    requires SERVER.Reaches(INITIAL, s)
    ensures Connected(s, id, e) <==> Undisturbed(s.log, id, e) && Closed(e, Transport) !in s.log
  {
    var inv := (s: State) => Inv(false, s) && EntriesDieByTransport(s);
    forall s, l | inv(s) && SERVER.enabled(s, l)
      ensures inv(SERVER.next(s, l))
    {
      InvStep(false, s, l);
      EntriesDieByTransportStep(false, s, l);
    }
    SERVER.Invariant(inv, INITIAL, s);
    InForceMeans(s.log, id, e);
    assert InForce(false, s.log, id) == Entry(s.table, id);
    if e in s.table.open {
      assert !IsClosed(s.log, e);
    }
  }

  /** The entry of an ID, if there is one, is the session most recently added under it. */
  lemma EntryIsLatest(s: State, id: DeviceId)
    requires SERVER.Reaches(INITIAL, s)
    ensures Entry(s.table, id) == None || Entry(s.table, id) == LastAdded(s.log, id)
  {
    ServerInvariant(s);
    InForceIsLast(false, s.log, id);
  }

  const DEVICE := "tenant:device"

  /** The device has connected and then reconnected: its second session displaced the first. */
  const RECONNECTED := State(
    Table(map[DEVICE := 1], {1}),
    [Handler(DEVICE, Registered), Handler(DEVICE, Registered)],
    [Added(0, DEVICE), Closed(0, Displacement(1)), Added(1, DEVICE)])

  const ONE_ACCEPTED := State(Table(map[], {0}), [Handler(DEVICE, Accepted)], [])
  const ONE_REGISTERED := State(Table(map[DEVICE := 0], {0}), [Handler(DEVICE, Registered)], [Added(0, DEVICE)])
  const TWO_ACCEPTED := State(Table(map[DEVICE := 0], {0, 1}),
                             [Handler(DEVICE, Registered), Handler(DEVICE, Accepted)], [Added(0, DEVICE)])

  lemma FirstConnects()
    ensures Enabled(INITIAL, Connect(DEVICE, "")) && Next(false, INITIAL, Connect(DEVICE, "")) == ONE_ACCEPTED
  {
  }

  lemma FirstRegisters()
    ensures Enabled(ONE_ACCEPTED, AddDevice(0)) && Next(false, ONE_ACCEPTED, AddDevice(0)) == ONE_REGISTERED
  {
  }

  lemma SecondConnects()
    ensures Enabled(ONE_REGISTERED, Connect(DEVICE, ""))
    ensures Next(false, ONE_REGISTERED, Connect(DEVICE, "")) == TWO_ACCEPTED
  {
  }

  lemma SecondRegisters()
    ensures Enabled(TWO_ACCEPTED, AddDevice(1)) && Next(false, TWO_ACCEPTED, AddDevice(1)) == RECONNECTED
  {
    var l := AddDevice(1);
    assert NextTable(false, TWO_ACCEPTED, l) == RECONNECTED.table;
    assert NextHandlers(TWO_ACCEPTED, l) == RECONNECTED.handlers;
    assert Events(false, TWO_ACCEPTED, l) == [Closed(0, Displacement(1)), Added(1, DEVICE)];
  }

  lemma Append(labels: seq<Label>, s: State, l: Label, t: State) returns (more: seq<Label>)
    requires SERVER.Runs(INITIAL, labels, s) && Enabled(s, l) && Next(false, s, l) == t
    ensures SERVER.Runs(INITIAL, more, t)
  {
    SERVER.Then(INITIAL, labels, s, l);
    more := labels + [l];
  }

  lemma ReachReconnected() returns (labels: seq<Label>)
    ensures SERVER.Runs(INITIAL, labels, RECONNECTED)
  {
    assert SERVER.Runs(INITIAL, [], INITIAL);
    FirstConnects();
    labels := Append([], INITIAL, Connect(DEVICE, ""), ONE_ACCEPTED);
    FirstRegisters();
    labels := Append(labels, ONE_ACCEPTED, AddDevice(0), ONE_REGISTERED);
    SecondConnects();
    labels := Append(labels, ONE_REGISTERED, Connect(DEVICE, ""), TWO_ACCEPTED);
    SecondRegisters();
    labels := Append(labels, TWO_ACCEPTED, AddDevice(1), RECONNECTED);
  }

  lemma ReachWoken(woken: State) returns (labels: seq<Label>)
    requires woken == RECONNECTED.(handlers := [Handler(DEVICE, Woken), Handler(DEVICE, Registered)])
    ensures SERVER.Runs(INITIAL, labels, woken)
  {
    labels := ReachReconnected();
    assert Next(false, RECONNECTED, Wake(0)) == woken;
    labels := Append(labels, RECONNECTED, Wake(0), woken);
  }

  lemma RemovalFromWoken(woken: State, s: State)
    requires woken == RECONNECTED.(handlers := [Handler(DEVICE, Woken), Handler(DEVICE, Registered)])
    requires s == State(Table(map[], {}), [Handler(DEVICE, Removed), Handler(DEVICE, Registered)],
                        woken.log + [Closed(1, Removal(0)), RemoveCalled(0, DEVICE)])
    ensures Enabled(woken, RemoveDevice(0)) && Next(false, woken, RemoveDevice(0)) == s
  {
    var l := RemoveDevice(0);
    assert NextTable(false, woken, l) == s.table;
    assert NextHandlers(woken, l) == s.handlers;
    assert Events(false, woken, l) == [Closed(1, Removal(0)), RemoveCalled(0, DEVICE)];
  }

  lemma LastAddedAfter(log: seq<Event>, more: seq<Event>, id: DeviceId)
    requires forall e | e in more :: !e.Added?
    ensures LastAdded(log + more, id) == LastAdded(log, id)
  {
    if more == [] {
      assert log + more == log;
    } else {
      var front := more[..|more| - 1];
      LastAddedAfter(log, front, id);
      assert (log + more)[..|log + more| - 1] == log + front;
      assert (log + more)[|log + more| - 1] == more[|more| - 1];
    }
  }

  /** A device that reconnects can lose its new session although its transport is fine: the removal deferred
      by the displaced handler closes it. */
  lemma ReconnectCanBeLost() returns (labels: seq<Label>, s: State)
    ensures SERVER.Runs(INITIAL, labels, s)
    ensures LastAdded(s.log, DEVICE) == Some(1) && Closed(1, Transport) !in s.log
    ensures At(s, 1, Registered) && !Connected(s, DEVICE, 1)
  {
    var woken := RECONNECTED.(handlers := [Handler(DEVICE, Woken), Handler(DEVICE, Registered)]);
    labels := ReachWoken(woken);
    var lost := [Closed(1, Removal(0)), RemoveCalled(0, DEVICE)];
    s := State(Table(map[], {}), [Handler(DEVICE, Removed), Handler(DEVICE, Registered)], woken.log + lost);
    RemovalFromWoken(woken, s);
    labels := Append(labels, woken, RemoveDevice(0), s);
    LastAddedAfter(woken.log, lost, DEVICE);
  }

  // ------------------------------------------------------------------------------- the guarded removal

  ghost predicate LatestDiesByTransport(s: State) {
    forall id | LastAdded(s.log, id).Some? ::
      LastAdded(s.log, id).value in s.table.open || Closed(LastAdded(s.log, id).value, Transport) in s.log
  }

  ghost predicate NoRemovalCause(s: State) {
    forall e | e in s.log :: !(e.Closed? && e.cause.Removal?)
  }

  /** The session `e` is open, or was closed by its transport. */
  ghost predicate Unspoilt(s: State, e: nat) {
    e in s.table.open || Closed(e, Transport) in s.log
  }

  lemma LastAddedByAdd(s: State, h: nat, id: DeviceId)
    requires At(s, h, Accepted)
    ensures LastAdded(Next(true, s, AddDevice(h)).log, id)
            == if s.handlers[h].id == id then Some(h) else LastAdded(s.log, id)
  {
    var t := Next(true, s, AddDevice(h));
    var more := Events(true, s, AddDevice(h));
    var closing := more[..|more| - 1];
    LastAddedAfter(s.log, closing, id);
    assert t.log[..|t.log| - 1] == s.log + closing && t.log[|t.log| - 1] == Added(h, s.handlers[h].id);
  }

  lemma LatestIsRegistered(s: State, id: DeviceId)
    requires CallsLogged(s) && LastAdded(s.log, id).Some?
    ensures var e := LastAdded(s.log, id).value;
            e < |s.handlers| && s.handlers[e].id == id && !At(s, e, Accepted)
  {
    LastAddedIsLogged(s.log, id, LastAdded(s.log, id).value);
    assert Added(LastAdded(s.log, id).value, id) in s.log;
  }

  lemma UnspoiltByAdd(s: State, h: nat, e: nat)
    requires Sound(s) && At(s, h, Accepted) && Unspoilt(s, e)
    requires e < |s.handlers| && (s.handlers[e].id == s.handlers[h].id ==> e == h)
    ensures Unspoilt(Next(true, s, AddDevice(h)), e)
  {
  }

  lemma GuardedAdd(s: State, h: nat, id: DeviceId)
    requires Sound(s) && CallsLogged(s) && LatestDiesByTransport(s) && At(s, h, Accepted) && Unspoilt(s, h)
    requires LastAdded(Next(true, s, AddDevice(h)).log, id).Some?
    ensures Unspoilt(Next(true, s, AddDevice(h)), LastAdded(Next(true, s, AddDevice(h)).log, id).value)
  {
    LastAddedByAdd(s, h, id);
    if s.handlers[h].id == id {
      UnspoiltByAdd(s, h, h);
    } else {
      LatestIsRegistered(s, id);
      UnspoiltByAdd(s, h, LastAdded(s.log, id).value);
    }
  }

  lemma GuardedOther(s: State, l: Label, id: DeviceId)
    requires Sound(s) && LatestDiesByTransport(s) && Enabled(s, l) && !l.AddDevice?
    requires LastAdded(Next(true, s, l).log, id).Some?
    ensures Unspoilt(Next(true, s, l), LastAdded(Next(true, s, l).log, id).value)
  {
    var more := Events(true, s, l);
    LastAddedAfter(s.log, more, id);
    var e := LastAdded(s.log, id).value;
    assert Unspoilt(s, e);
    if l == TransportFails(e) {
      assert Closed(e, Transport) in more;
    }
  }

  lemma GuardedStepAt(s: State, l: Label, id: DeviceId)
    requires Inv(true, s) && LatestDiesByTransport(s) && Enabled(s, l)
    requires LastAdded(Next(true, s, l).log, id).Some?
    ensures Unspoilt(Next(true, s, l), LastAdded(Next(true, s, l).log, id).value)
  {
    if l.AddDevice? {
      if l.handler !in s.table.open {
        AcceptedDieByTransport(true, s, l.handler);
      }
      GuardedAdd(s, l.handler, id);
    } else {
      GuardedOther(s, l, id);
    }
  }

  lemma GuardedStep(s: State, l: Label)
    requires Inv(true, s) && LatestDiesByTransport(s) && NoRemovalCause(s) && Enabled(s, l)
    ensures LatestDiesByTransport(Next(true, s, l)) && NoRemovalCause(Next(true, s, l))
  {
    var t := Next(true, s, l);
    var more := Events(true, s, l);
    forall e | e in t.log
      ensures !(e.Closed? && e.cause.Removal?)
    {
      assert e in s.log || e in more;
    }
    forall id | LastAdded(t.log, id).Some?
      ensures LastAdded(t.log, id).value in t.table.open || Closed(LastAdded(t.log, id).value, Transport) in t.log
    {
      GuardedStepAt(s, l, id);
    }
  }

  /** With the guarded removal the third cause disappears and a reconnect is never lost: the device is
      connected through the latest session added under its ID exactly until that session's transport fails. */
  lemma GuardedReconnect(s: State, id: DeviceId, e: nat)
    requires GUARDED_SERVER.Reaches(INITIAL, s)
    ensures Connected(s, id, e) <==> LastAdded(s.log, id) == Some(e) && Closed(e, Transport) !in s.log
    ensures forall g: nat, h: nat {:trigger Closed(g, Removal(h))} :: Closed(g, Removal(h)) !in s.log
  {
    var inv := (s: State) => Inv(true, s) && LatestDiesByTransport(s) && NoRemovalCause(s);
    forall s, l | inv(s) && GUARDED_SERVER.enabled(s, l)
      ensures inv(GUARDED_SERVER.next(s, l))
    {
      InvStep(true, s, l);
      GuardedStep(s, l);
    }
    GUARDED_SERVER.Invariant(inv, INITIAL, s);
    InForceIsLast(true, s.log, id);
    assert InForce(true, s.log, id) == Entry(s.table, id);
    if LastAdded(s.log, id) == Some(e) && Closed(e, Transport) !in s.log {
      LatestIsRegistered(s, id);
    }
    if e in s.table.open {
      assert !IsClosed(s.log, e);
    }
  }

  // ------------------------------------------------------------------------------- no leak

  /** The handlers that registered and have not run their removal. */
  ghost function Pending(s: State): set<nat> {
    set h: nat | h < |s.handlers| && Active(s, h)
  }

  lemma {:induction false} InjectiveSize(m: map<DeviceId, nat>, values: set<nat>)
    requires forall id | id in m :: m[id] in values
    requires forall i, j | i in m && j in m && m[i] == m[j] :: i == j
    ensures |m| <= |values|
    decreases m.Keys
  {
    if m.Keys != {} {
      var id :| id in m;
      var rest := m - {id};
      assert rest.Keys == m.Keys - {id};
      InjectiveSize(rest, values - {m[id]});
    }
  }

  lemma EntriesArePending(s: State)
    requires Sound(s)
    ensures |s.table.sessions| <= |Pending(s)|
  {
    InjectiveSize(s.table.sessions, Pending(s));
  }

  lemma NothingPending(s: State)
    requires Sound(s)
    requires forall h: nat | h < |s.handlers| :: At(s, h, Returned)
    ensures Pending(s) == {} && s.table.open == {}
  {
    forall h: nat
      ensures h !in Pending(s) && h !in s.table.open
    {
      assert h < |s.handlers| ==> At(s, h, Returned);
    }
  }

  /** The map holds no more entries than there are pending handlers; once every handler has returned it is
      empty and every session ever created is closed. */
  lemma NoLeak(s: State)
    requires SERVER.Reaches(INITIAL, s)
    ensures |s.table.sessions| <= |Pending(s)|
    ensures (forall h: nat | h < |s.handlers| :: At(s, h, Returned)) ==> s.table == Table(map[], {})
  {
    ServerInvariant(s);
    EntriesArePending(s);
    if forall h: nat | h < |s.handlers| :: At(s, h, Returned) {
      NothingPending(s);
    }
  }

  // ------------------------------------------------------------------------------- settling

  function Rank(p: Phase): nat {
    match p case Accepted => 4 case Registered => 3 case Woken => 2 case Removed => 1 case Returned => 0
  }

  /** The steps the handlers have before them. */
  function Work(handlers: seq<Handler>): nat {
    if handlers == [] then 0 else Work(handlers[..|handlers| - 1]) + Rank(handlers[|handlers| - 1].phase)
  }

  lemma {:induction false} WorkAfterMove(handlers: seq<Handler>, h: nat, moved: Handler)
    requires h < |handlers|
    ensures Work(handlers[h := moved]) + Rank(handlers[h].phase) == Work(handlers) + Rank(moved.phase)
  {
    var front := handlers[..|handlers| - 1];
    var after := handlers[h := moved];
    if h == |handlers| - 1 {
      assert after[..|after| - 1] == front;
    } else {
      assert after[..|after| - 1] == front[h := moved];
      WorkAfterMove(front, h, moved);
    }
  }

  /** A step of a connection handler, as opposed to the network's. */
  predicate IsHandlerStep(l: Label) {
    !l.Connect? && !l.TransportFails?
  }

  lemma HandlerStepDecreases(s: State, l: Label)
    requires Enabled(s, l) && IsHandlerStep(l)
    ensures Work(Next(false, s, l).handlers) < Work(s.handlers)
  {
    var h := l.handler;
    WorkAfterMove(s.handlers, h, Next(false, s, l).handlers[h]);
    assert Next(false, s, l).handlers == s.handlers[h := Next(false, s, l).handlers[h]];
  }

  lemma {:induction false} HandlersSettle(s: State, labels: seq<Label>, t: State)
    requires SERVER.Runs(s, labels, t)
    requires forall i | 0 <= i < |labels| :: IsHandlerStep(labels[i])
    ensures |labels| + Work(t.handlers) <= Work(s.handlers)
    decreases |labels|
  {
    if labels != [] {
      HandlerStepDecreases(s, labels[0]);
      HandlersSettle(Next(false, s, labels[0]), labels[1..], t);
    }
  }

  lemma SettledState(t: State)
    requires Sound(t) && Single(t)
    requires forall l: Label | IsHandlerStep(l) :: !Enabled(t, l)
    ensures forall h: nat | h < |t.handlers| ::
              At(t, h, Returned) || (At(t, h, Registered) && Connected(t, t.handlers[h].id, h))
    ensures t.table.sessions.Values == t.table.open
  {
    forall h: nat | h < |t.handlers|
      ensures At(t, h, Returned) || (At(t, h, Registered) && h in t.table.open)
    {
      assert !Enabled(t, AddDevice(h)) && !Enabled(t, Wake(h));
      assert !Enabled(t, RemoveDevice(h)) && !Enabled(t, Return(h));
    }
    forall h: nat
      ensures h in t.table.open <==> h in t.table.sessions.Values
    {
      if h in t.table.open {
        assert t.table.sessions[t.handlers[h].id] == h;
      }
    }
  }

  /** When the network is quiet the handlers settle, in any order, within a bounded number of steps; and where none
      of them can move, each has returned or waits on its own live session, and the map holds exactly the open
      sessions. */
  lemma SettledRegistry(s: State, labels: seq<Label>, t: State)
    requires SERVER.Reaches(INITIAL, s) && SERVER.Runs(s, labels, t)
    requires forall i | 0 <= i < |labels| :: IsHandlerStep(labels[i])
    ensures |labels| <= Work(s.handlers)
    ensures (forall l: Label | IsHandlerStep(l) :: !Enabled(t, l)) ==>
              && (forall h: nat | h < |t.handlers| ::
                    At(t, h, Returned) || (At(t, h, Registered) && Connected(t, t.handlers[h].id, h)))
              && t.table.sessions.Values == t.table.open
  {
    HandlersSettle(s, labels, t);
    SERVER.Compose(INITIAL, s, t);
    ServerInvariant(t);
    if forall l: Label | IsHandlerStep(l) :: !Enabled(t, l) {
      SettledState(t);
    }
  }

  // ------------------------------------------------------------------------------- dialling

  /** The session a dial of `target` gets its stream on, if any. */
  function Dial(t: Table, target: string): Option<nat> {
    OpenStream(t, Normalise(target))
  }

  lemma NormaliseIsIdempotent(id: string)
    ensures ':' in Normalise(id) && Normalise(Normalise(id)) == Normalise(id)
    ensures ':' in id ==> Normalise(id) == id
    ensures ':' !in id ==> Normalise(id) == "default:" + id
  {
    if ':' !in id {
      assert Normalise(id)[7] == ':';
    }
  }

  /** Two targets name one device exactly if they are equal or one is the other under the default tenant. */
  lemma NormaliseCollides(a: string, b: string)
    ensures Normalise(a) == Normalise(b) <==>
              a == b || (':' !in b && a == "default:" + b) || (':' !in a && b == "default:" + a)
  {
    NormaliseIsIdempotent(a);
    NormaliseIsIdempotent(b);
    if ':' !in a && ':' !in b && Normalise(a) == Normalise(b) {
      assert ("default:" + a)[8..] == a && ("default:" + b)[8..] == b;
    }
  }

  /** An SSH dial opens a stream exactly on the undisturbed live session of the target: of the target itself if it has a
      colon, and under the default tenant if it has none. */
  lemma DialOpens(s: State, target: string, e: nat)
    requires SERVER.Reaches(INITIAL, s)
    ensures ':' in target ==>
              (Dial(s.table, target) == Some(e) <==>
               Undisturbed(s.log, target, e) && Closed(e, Transport) !in s.log)
    ensures ':' !in target ==>
              (Dial(s.table, target) == Some(e) <==>
               Undisturbed(s.log, "default:" + target, e) && Closed(e, Transport) !in s.log)
    ensures Dial(s.table, target) == Some(e) ==>
              e < |s.handlers| && s.handlers[e].id in {target, "default:" + target} && ':' in s.handlers[e].id
              && LastAdded(s.log, s.handlers[e].id) == Some(e)
  {
    ServerInvariant(s);
    ConnectedExactly(s, Normalise(target), e);
    EntryIsLatest(s, Normalise(target));
    NormaliseIsIdempotent(target);
  }

  /** A device can be dialled at all exactly when it registered under an ID that contains a colon. */
  lemma DialableExactly(s: State, e: nat)
    requires SERVER.Reaches(INITIAL, s)
    requires e < |s.handlers| && Connected(s, s.handlers[e].id, e)
    ensures (exists target :: Dial(s.table, target) == Some(e)) <==> ':' in s.handlers[e].id
  {
    ServerInvariant(s);
    var id := s.handlers[e].id;
    if ':' in id {
      assert Dial(s.table, id) == Some(e);
    }
    forall target | Dial(s.table, target) == Some(e)
      ensures ':' in id
    {
      NormaliseIsIdempotent(target);
    }
  }

  const BARE_ID := "DEVICE123"

  lemma BareIdConnects() returns (s: State)
    ensures SERVER.Reaches(INITIAL, s) && s.table == Table(map[BARE_ID := 0], {0})
  {
    var accepted := State(Table(map[], {0}), [Handler(BARE_ID, Accepted)], []);
    assert Next(false, INITIAL, Connect(BARE_ID, "")) == accepted;
    s := Next(false, accepted, AddDevice(0));
    SERVER.One(INITIAL, Connect(BARE_ID, ""));
    SERVER.One(accepted, AddDevice(0));
    SERVER.Compose(INITIAL, accepted, s);
  }

  /** So a device that registers under the bare ID its agent sends is connected, and no target reaches it. */
  lemma BareIdIsUnreachable() returns (s: State)
    ensures SERVER.Reaches(INITIAL, s) && Connected(s, BARE_ID, 0)
    ensures forall target :: Dial(s.table, target) == None
  {
    s := BareIdConnects();
    forall target
      ensures Dial(s.table, target) == None
    {
      NormaliseIsIdempotent(target);
      assert ':' !in BARE_ID;
    }
  }

  // ------------------------------------------------------------------------------- the run behind the log

  /** The device IDs of the connection requests, in order: the first header wherever it is set, else the fallback. */
  function RequestedIds(labels: seq<Label>): seq<DeviceId> {
    if labels == [] then [] else
    var last := labels[|labels| - 1];
    RequestedIds(labels[..|labels| - 1]) +
    if last.Connect? then [if last.deviceId != "" then last.deviceId else last.deviceUid] else []
  }

  function IdsOf(handlers: seq<Handler>): seq<DeviceId> {
    seq(|handlers|, i requires 0 <= i < |handlers| => handlers[i].id)
  }

  /** The calls of a run, as the log records them. */
  function CallOf(l: Label, ids: seq<DeviceId>): seq<Event> {
    match l
    case AddDevice(h) => if h < |ids| then [Added(h, ids[h])] else []
    case RemoveDevice(h) => if h < |ids| then [RemoveCalled(h, ids[h])] else []
    case _ => []
  }

  function CallsMade(labels: seq<Label>, ids: seq<DeviceId>): seq<Event> {
    if labels == [] then [] else
    CallsMade(labels[..|labels| - 1], ids) + CallOf(labels[|labels| - 1], ids)
  }

  function CallsLoggedIn(log: seq<Event>): seq<Event> {
    if log == [] then [] else
    CallsLoggedIn(log[..|log| - 1]) + if log[|log| - 1].Closed? then [] else [log[|log| - 1]]
  }

  /** A handler can only call once it exists. */
  ghost predicate InRange(labels: seq<Label>, n: nat) {
    forall i | 0 <= i < |labels| && (labels[i].AddDevice? || labels[i].RemoveDevice?) :: labels[i].handler < n
  }

  lemma {:induction false} CallsMadeGrows(labels: seq<Label>, ids: seq<DeviceId>, more: seq<DeviceId>)
    requires InRange(labels, |ids|)
    ensures CallsMade(labels, ids + more) == CallsMade(labels, ids)
  {
    if labels != [] {
      CallsMadeGrows(labels[..|labels| - 1], ids, more);
    }
  }

  lemma CallsNext(log: seq<Event>, e: Event)
    ensures CallsLoggedIn(log + [e]) == CallsLoggedIn(log) + if e.Closed? then [] else [e]
  {
    var whole := log + [e];
    assert whole[..|whole| - 1] == log;
  }

  lemma CallsClosing(log: seq<Event>, closing: seq<Event>)
    requires |closing| <= 1 && forall e | e in closing :: e.Closed?
    ensures CallsLoggedIn(log + closing) == CallsLoggedIn(log)
  {
    if closing == [] {
      assert log + closing == log;
    } else {
      assert closing == [closing[0]] && closing[0] in closing;
      CallsNext(log, closing[0]);
    }
  }

  lemma CallsOfEvents(log: seq<Event>, closing: seq<Event>, call: Event)
    requires |closing| <= 1 && (forall e | e in closing :: e.Closed?) && !call.Closed?
    ensures CallsLoggedIn(log + (closing + [call])) == CallsLoggedIn(log) + [call]
  {
    CallsClosing(log, closing);
    var before := log + closing;
    CallsNext(before, call);
    Regroup(log, closing, call);
  }

  lemma CallsOfStep(s: State, l: Label, ids: seq<DeviceId>)
    requires Enabled(s, l) && (l.AddDevice? || l.RemoveDevice? ==> l.handler < |ids| <= |s.handlers|)
    requires forall h | 0 <= h < |ids| && h < |s.handlers| :: ids[h] == s.handlers[h].id
    ensures CallsLoggedIn(Next(false, s, l).log) == CallsLoggedIn(s.log) + CallOf(l, ids)
  {
    var more := Events(false, s, l);
    if l.AddDevice? || l.RemoveDevice? {
      var closing := more[..|more| - 1];
      assert more == closing + CallOf(l, ids);
      CallsOfEvents(s.log, closing, more[|more| - 1]);
    } else {
      CallsClosing(s.log, more);
    }
  }

  /** The handlers of a run against its labels. */
  ghost predicate FromRequests(s: State, labels: seq<Label>) {
    && IdsOf(s.handlers) == RequestedIds(labels)
    && (forall h | 0 <= h < |s.handlers| :: s.handlers[h].id != "")
    && InRange(labels, |s.handlers|)
  }

  lemma FromRequestsStep(s: State, labels: seq<Label>, l: Label)
    requires FromRequests(s, labels) && Enabled(s, l)
    ensures FromRequests(Next(false, s, l), labels + [l])
  {
    assert (labels + [l])[..|labels + [l]| - 1] == labels;
    var t := Next(false, s, l);
    if l.Connect? {
      assert IdsOf(t.handlers) == IdsOf(s.handlers) + [t.handlers[|s.handlers|].id];
    } else {
      assert IdsOf(t.handlers) == IdsOf(s.handlers);
    }
  }

  lemma TransportLogged(s: State, l: Label, e: nat)
    requires Enabled(s, l)
    ensures Closed(e, Transport) in Next(false, s, l).log
            <==> Closed(e, Transport) in s.log || l == TransportFails(e)
  {
    assert Closed(e, Transport) in Events(false, s, l) <==> l == TransportFails(e);
  }

  lemma {:induction false} HandlersFromRequests(labels: seq<Label>, s: State)
    requires SERVER.Runs(INITIAL, labels, s)
    ensures FromRequests(s, labels)
    decreases |labels|
  {
    if labels != [] {
      var front, last := labels[..|labels| - 1], labels[|labels| - 1];
      var u := SERVER.Last(INITIAL, labels, s);
      HandlersFromRequests(front, u);
      assert labels == front + [last];
      FromRequestsStep(u, front, last);
    }
  }

  lemma {:induction false} CallsAreLogged(labels: seq<Label>, s: State)
    requires SERVER.Runs(INITIAL, labels, s)
    ensures CallsLoggedIn(s.log) == CallsMade(labels, RequestedIds(labels))
    decreases |labels|
  {
    if labels != [] {
      var front, last := labels[..|labels| - 1], labels[|labels| - 1];
      var u := SERVER.Last(INITIAL, labels, s);
      CallsAreLogged(front, u);
      HandlersFromRequests(front, u);
      var ids := RequestedIds(front);
      assert forall h | 0 <= h < |ids| :: ids[h] == IdsOf(u.handlers)[h];
      CallsOfStep(u, last, ids);
      var more := RequestedIds(labels)[|ids|..];
      assert RequestedIds(labels) == ids + more;
      CallsMadeGrows(front, ids, more);
    }
  }

  lemma {:induction false} TransportsAreLogged(labels: seq<Label>, s: State, e: nat)
    requires SERVER.Runs(INITIAL, labels, s)
    ensures Closed(e, Transport) in s.log <==> TransportFails(e) in labels
    decreases |labels|
  {
    if labels != [] {
      var front, last := labels[..|labels| - 1], labels[|labels| - 1];
      var u := SERVER.Last(INITIAL, labels, s);
      TransportsAreLogged(front, u, e);
      assert labels == front + [last];
      TransportLogged(u, last, e);
    }
  }

  /** Each connection request that names a device makes one handler, in order, under the first header if it is set and
      the fallback otherwise, never under an empty ID; the additions and removals of the log are exactly the calls of
      the run, in order; and a session's transport is logged as failed exactly if it failed. */
  lemma LogIsTheRun(labels: seq<Label>, s: State)
    requires SERVER.Runs(INITIAL, labels, s)
    ensures IdsOf(s.handlers) == RequestedIds(labels) && forall h | 0 <= h < |s.handlers| :: s.handlers[h].id != ""
    ensures CallsLoggedIn(s.log) == CallsMade(labels, RequestedIds(labels))
    ensures forall e: nat {:trigger Closed(e, Transport)} ::
              Closed(e, Transport) in s.log <==> TransportFails(e) in labels
  {
    HandlersFromRequests(labels, s);
    CallsAreLogged(labels, s);
    forall e: nat
      ensures Closed(e, Transport) in s.log <==> TransportFails(e) in labels
    {
      TransportsAreLogged(labels, s, e);
    }
  }
}
