/** The device registry of the SSH server: one map from device ID to yamux session, shared by one handler per
    device connection. A handler and the session it creates carry the same number.

    Every operation under the registry's mutex is one step; so is a handler's wake-up, its return, and a
    transport failure. `guarded` selects the second model, in which a handler's deferred removal deletes an
    entry only when that entry is the handler's own session.
 */
module Registry {
  import opened Machines

  type DeviceId = string

  /** The map under the mutex, and which of the sessions handed out so far are still open. */
  datatype Table = Table(sessions: map<DeviceId, nat>, open: set<nat>)

  function Add(t: Table, id: DeviceId, session: nat): Table {
    Table(t.sessions[id := session], if id in t.sessions then t.open - {t.sessions[id]} else t.open)
  }

  function Remove(t: Table, id: DeviceId): Table {
    if id in t.sessions then Table(t.sessions - {id}, t.open - {t.sessions[id]}) else t
  }

  /** The repaired removal: only the session's own handler may drop the entry. */
  function RemoveOwn(t: Table, id: DeviceId, session: nat): Table {
    if id in t.sessions && t.sessions[id] == session then Remove(t, id) else t
  }

  function Entry(t: Table, id: DeviceId): Option<nat> {
    if id in t.sessions then Some(t.sessions[id]) else None
  }

  function OpenStream(t: Table, id: DeviceId): Option<nat> {
    if id in t.sessions && t.sessions[id] in t.open then Some(t.sessions[id]) else None
  }

  /** The device ID of a connection request: the first header, or the fallback; empty means refused. */
  function HeaderId(deviceId: string, deviceUid: string): DeviceId {
    if deviceId != "" then deviceId else deviceUid
  }

  /** The key under which an SSH session dials its target. */
  function Normalise(id: string): DeviceId {
    if ':' in id then id else "default:" + id
  }

  /** Where a connection handler stands: upgraded but not registered, registered and waiting for its session
      to close, past that wait, past the deferred removal, returned. */
  datatype Phase = Accepted | Registered | Woken | Removed | Returned
  datatype Handler = Handler(id: DeviceId, phase: Phase)

  datatype Cause =
    | Transport
    | Displacement(culprit: nat)
    | Removal(culprit: nat)
    | OwnReturn

  datatype Event =
    | Added(handler: nat, id: DeviceId)
    | RemoveCalled(handler: nat, id: DeviceId)
    | Closed(session: nat, cause: Cause)

  datatype State = State(table: Table, handlers: seq<Handler>, log: seq<Event>)

  datatype Label =
    | Connect(deviceId: string, deviceUid: string)
    | TransportFails(session: nat)
    | AddDevice(handler: nat)
    | Wake(handler: nat)
    | RemoveDevice(handler: nat)
    | Return(handler: nat)

  const INITIAL := State(Table(map[], {}), [], [])

  predicate At(s: State, h: nat, phase: Phase) {
    h < |s.handlers| && s.handlers[h].phase == phase
  }

  predicate Enabled(s: State, l: Label) {
    match l
    case Connect(deviceId, deviceUid) => HeaderId(deviceId, deviceUid) != ""
    case TransportFails(h) => h in s.table.open
    case AddDevice(h) => At(s, h, Accepted)
    case Wake(h) => At(s, h, Registered) && h !in s.table.open
    case RemoveDevice(h) => At(s, h, Woken)
    case Return(h) => At(s, h, Removed)
  }

  function Move(s: State, h: nat, phase: Phase): seq<Handler>
    requires h < |s.handlers|
  {
    s.handlers[h := s.handlers[h].(phase := phase)]
  }

  /** The close event of a session, if it was still open: closing it again does nothing. */
  function CloseEvent(t: Table, session: nat, cause: Cause): seq<Event> {
    if session in t.open then [Closed(session, cause)] else []
  }

  /** What a step adds to the log. */
  function Events(guarded: bool, s: State, l: Label): seq<Event>
    requires Enabled(s, l)
  {
    match l
    case Connect(_, _) => []
    case TransportFails(h) => [Closed(h, Transport)]
    case AddDevice(h) =>
      var id := s.handlers[h].id;
      (if id in s.table.sessions then CloseEvent(s.table, s.table.sessions[id], Displacement(h)) else []) +
      [Added(h, id)]
    case Wake(h) => []
    case RemoveDevice(h) =>
      var id := s.handlers[h].id;
      (if id in s.table.sessions && (guarded ==> s.table.sessions[id] == h)
       then CloseEvent(s.table, s.table.sessions[id], Removal(h)) else []) +
      [RemoveCalled(h, id)]
    case Return(h) => CloseEvent(s.table, h, OwnReturn)
  }

  function NextTable(guarded: bool, s: State, l: Label): Table
    requires Enabled(s, l)
  {
    match l
    case Connect(_, _) => s.table.(open := s.table.open + {|s.handlers|})
    case TransportFails(h) => s.table.(open := s.table.open - {h})
    case AddDevice(h) => Add(s.table, s.handlers[h].id, h)
    case Wake(h) => s.table
    case RemoveDevice(h) =>
      if guarded then RemoveOwn(s.table, s.handlers[h].id, h) else Remove(s.table, s.handlers[h].id)
    case Return(h) => s.table.(open := s.table.open - {h})
  }

  function NextHandlers(s: State, l: Label): seq<Handler>
    requires Enabled(s, l)
  {
    match l
    case Connect(deviceId, deviceUid) => s.handlers + [Handler(HeaderId(deviceId, deviceUid), Accepted)]
    case TransportFails(h) => s.handlers
    case AddDevice(h) => Move(s, h, Registered)
    case Wake(h) => Move(s, h, Woken)
    case RemoveDevice(h) => Move(s, h, Removed)
    case Return(h) => Move(s, h, Returned)
  }

  function Next(guarded: bool, s: State, l: Label): State {
    if Enabled(s, l)
    then State(NextTable(guarded, s, l), NextHandlers(s, l), s.log + Events(guarded, s, l))
    else s
  }

  const SERVER := Machine(Enabled, (s, l) => Next(false, s, l))
  const GUARDED_SERVER := Machine(Enabled, (s, l) => Next(true, s, l))

  // ---------------------------------------------------------------------------------------------------
  // What the log says, read without the state
  // ---------------------------------------------------------------------------------------------------

  /** The session most recently added under `id`. */
  function LastAdded(log: seq<Event>, id: DeviceId): Option<nat> {
    if log == [] then None else
    match log[|log| - 1]
    case Added(h, i) => if i == id then Some(h) else LastAdded(log[..|log| - 1], id)
    case _ => LastAdded(log[..|log| - 1], id)
  }

  /** What an event makes of the registration `before` it: a close changes nothing, a call changes its own ID. */
  function AfterEvent(guarded: bool, before: Option<nat>, e: Event, id: DeviceId): Option<nat> {
    match e
    case Added(h, i) => if i == id then Some(h) else before
    case RemoveCalled(h, i) => if i == id && (guarded ==> before == Some(h)) then None else before
    case Closed(_, _) => before
  }

  /** The registration that the calls made so far leave in force for `id`: the last addition, unless a removal
      was called for the ID after it (guarded: unless the added session's own handler called it). */
  function InForce(guarded: bool, log: seq<Event>, id: DeviceId): Option<nat> {
    if log == [] then None
    else AfterEvent(guarded, InForce(guarded, log[..|log| - 1], id), log[|log| - 1], id)
  }

  /** `g` registered before `h` did, both under one ID. */
  ghost predicate Before(log: seq<Event>, g: nat, h: nat, id: DeviceId) {
    exists i, j :: 0 <= i < j < |log| && log[i] == Added(g, id) && log[j] == Added(h, id)
  }

  /** Whether `cause` is one of the three ways a session that has been through `AddDevice` may be closed, or a
      transport failure of one that has not. */
  ghost predicate Legitimate(log: seq<Event>, session: nat, cause: Cause) {
    match cause
    case Transport => true
    case Displacement(h) => exists id :: Before(log, session, h, id)
    case Removal(g) => exists id :: Before(log, g, session, id)
    case OwnReturn => false
  }

  // ---------------------------------------------------------------------------------------------------
  // Invariants
  // ---------------------------------------------------------------------------------------------------

  predicate Active(s: State, h: nat) {
    At(s, h, Registered) || At(s, h, Woken)
  }

  /** Every entry belongs to a handler of that ID which has not run its removal; only live handlers' sessions
      can be open. */
  ghost predicate Sound(s: State) {
    && (forall id | id in s.table.sessions ::
          Active(s, s.table.sessions[id]) && s.handlers[s.table.sessions[id]].id == id)
    && (forall h | h in s.table.open :: At(s, h, Accepted) || At(s, h, Registered))
  }

  /** Any session that has been through `AddDevice` and is open is the entry of its ID. */
  ghost predicate Single(s: State) {
    forall h | h in s.table.open && At(s, h, Registered) ::
      s.handlers[h].id in s.table.sessions && s.table.sessions[s.handlers[h].id] == h
  }

  /** The log records additions and removals faithfully. */
  ghost predicate CallsLogged(s: State) {
    && (forall e | e in s.log && e.Added? ::
          e.handler < |s.handlers| && s.handlers[e.handler].id == e.id && s.handlers[e.handler].phase != Accepted)
    && (forall h: nat | h < |s.handlers| && s.handlers[h].phase != Accepted :: Added(h, s.handlers[h].id) in s.log)
    && (forall e | e in s.log && e.RemoveCalled? ::
          (At(s, e.handler, Removed) || At(s, e.handler, Returned)) && s.handlers[e.handler].id == e.id)
  }

  ghost predicate IsClosed(log: seq<Event>, session: nat) {
    exists e :: e in log && e.Closed? && e.session == session
  }

  /** The sessions not open are those logged as closed. */
  ghost predicate ClosesLogged(s: State) {
    forall h: nat :: IsClosed(s.log, h) <==> h < |s.handlers| && h !in s.table.open
  }

  /** No session is logged as closed twice, and a removal is charged only to a handler that ran it, once. */
  ghost predicate OnceEach(s: State) {
    && (forall i, j | 0 <= i < |s.log| && 0 <= j < |s.log| && s.log[i].Closed? && s.log[j].Closed? &&
          s.log[i].session == s.log[j].session :: i == j)
    && (forall i | 0 <= i < |s.log| && s.log[i].Closed? && s.log[i].cause.Removal? ::
          At(s, s.log[i].cause.culprit, Removed) || At(s, s.log[i].cause.culprit, Returned))
    && (forall i, j | 0 <= i < |s.log| && 0 <= j < |s.log| && s.log[i].Closed? && s.log[j].Closed? &&
          s.log[i].cause.Removal? && s.log[j].cause == s.log[i].cause :: i == j)
  }

  ghost predicate Caused(s: State) {
    forall h: nat, c {:trigger Closed(h, c)} | Closed(h, c) in s.log :: Legitimate(s.log, h, c)
  }

  /** The map is what the calls so far leave in force. */
  ghost predicate Historic(guarded: bool, s: State) {
    forall id :: InForce(guarded, s.log, id) == Entry(s.table, id)
  }

  ghost predicate Inv(guarded: bool, s: State) {
    Sound(s) && Single(s) && CallsLogged(s) && ClosesLogged(s) && OnceEach(s) && Caused(s) && Historic(guarded, s)
  }

  lemma SoundCalls(guarded: bool, s: State, l: Label)
    requires Sound(s) && Single(s) && Enabled(s, l) && (l.AddDevice? || l.RemoveDevice?)
    ensures Sound(Next(guarded, s, l))
  {
  }

  lemma SoundOthers(guarded: bool, s: State, l: Label)
    requires Sound(s) && Enabled(s, l) && !l.AddDevice? && !l.RemoveDevice?
    ensures Sound(Next(guarded, s, l))
  {
  }

  lemma SoundStep(guarded: bool, s: State, l: Label)
    requires Sound(s) && Single(s) && Enabled(s, l)
    ensures Sound(Next(guarded, s, l))
  {
    if l.AddDevice? || l.RemoveDevice? {
      SoundCalls(guarded, s, l);
    } else {
      SoundOthers(guarded, s, l);
    }
  }

  lemma SingleStep(guarded: bool, s: State, l: Label)
    requires Sound(s) && Single(s) && Enabled(s, l)
    ensures Single(Next(guarded, s, l))
  {
  }

  lemma CallsLoggedStep(guarded: bool, s: State, l: Label)
    requires CallsLogged(s) && Enabled(s, l)
    ensures CallsLogged(Next(guarded, s, l))
  {
    var t := Next(guarded, s, l);
    var more := Events(guarded, s, l);
    forall e | e in t.log && e.Added?
      ensures e.handler < |t.handlers| && t.handlers[e.handler].id == e.id && t.handlers[e.handler].phase != Accepted
    {
      assert e in s.log || e in more;
    }
    forall h: nat | h < |t.handlers| && t.handlers[h].phase != Accepted
      ensures Added(h, t.handlers[h].id) in t.log
    {
      assert Added(h, t.handlers[h].id) in s.log || Added(h, t.handlers[h].id) in more;
    }
    forall e | e in t.log && e.RemoveCalled?
      ensures (At(t, e.handler, Removed) || At(t, e.handler, Returned)) && t.handlers[e.handler].id == e.id
    {
      assert e in s.log || e in more;
    }
  }

  lemma ClosesLoggedStep(guarded: bool, s: State, l: Label)
    requires Sound(s) && ClosesLogged(s) && Enabled(s, l)
    ensures ClosesLogged(Next(guarded, s, l))
  {
    var t := Next(guarded, s, l);
    var more := Events(guarded, s, l);
    forall h: nat
      ensures IsClosed(t.log, h) <==> h < |t.handlers| && h !in t.table.open
    {
      assert IsClosed(t.log, h) <==> IsClosed(s.log, h) || IsClosed(more, h);
      assert IsClosed(more, h) <==> h in s.table.open && h !in t.table.open;
    }
  }

  /** A step closes at most one session, one that was not closed before. */
  lemma NewClose(guarded: bool, s: State, l: Label)
    requires ClosesLogged(s) && Sound(s) && Enabled(s, l)
    ensures forall i | 1 <= i < |Events(guarded, s, l)| :: !Events(guarded, s, l)[i].Closed?
    ensures forall e | e in Events(guarded, s, l) && e.Closed? :: e.session in s.table.open
    ensures forall e | e in Events(guarded, s, l) && e.Closed? && e.cause.Removal? ::
              l == RemoveDevice(e.cause.culprit)
  {
  }

  lemma OnceEachAppend(s: State, t: State, more: seq<Event>)
    requires ClosesLogged(s) && OnceEach(s) && t.log == s.log + more
    requires |s.handlers| <= |t.handlers|
    requires forall h: nat | At(s, h, Removed) || At(s, h, Returned) :: At(t, h, Removed) || At(t, h, Returned)
    requires forall i | 1 <= i < |more| :: !more[i].Closed?
    requires forall e | e in more && e.Closed? :: e.session in s.table.open
    requires forall e | e in more && e.Closed? && e.cause.Removal? ::
               At(s, e.cause.culprit, Woken) && At(t, e.cause.culprit, Removed)
    ensures OnceEach(t)
  {
    var n := |s.log|;
    forall i | 0 <= i < |t.log| && t.log[i].Closed?
      ensures i < n ==> t.log[i] == s.log[i] && IsClosed(s.log, t.log[i].session)
      ensures n <= i ==> i == n && more[0] in more && t.log[i] == more[0] && !IsClosed(s.log, t.log[i].session)
    {
      if i < n {
        assert t.log[i] == s.log[i];
      } else {
        assert t.log[i] == more[i - n];
      }
    }
  }

  lemma OnceEachStep(guarded: bool, s: State, l: Label)
    requires Sound(s) && ClosesLogged(s) && OnceEach(s) && Enabled(s, l)
    ensures OnceEach(Next(guarded, s, l))
  {
    NewClose(guarded, s, l);
    OnceEachAppend(s, Next(guarded, s, l), Events(guarded, s, l));
  }

  lemma BeforeGrows(log: seq<Event>, more: seq<Event>, g: nat, h: nat, id: DeviceId)
    requires Before(log, g, h, id)
    ensures Before(log + more, g, h, id)
  {
    var i, j :| 0 <= i < j < |log| && log[i] == Added(g, id) && log[j] == Added(h, id);
    assert (log + more)[i] == Added(g, id) && (log + more)[j] == Added(h, id);
  }

  lemma LegitimateGrows(log: seq<Event>, more: seq<Event>, session: nat, cause: Cause)
    requires Legitimate(log, session, cause)
    ensures Legitimate(log + more, session, cause)
  {
    match cause
    case Transport =>
    case Displacement(h) =>
      var id :| Before(log, session, h, id);
      BeforeGrows(log, more, session, h, id);
    case Removal(g) =>
      var id :| Before(log, g, session, id);
      BeforeGrows(log, more, g, session, id);
  }

  lemma {:induction false} LastAddedIsLast(log: seq<Event>, id: DeviceId, g: nat, h: nat)
    requires LastAdded(log, id) == Some(h) && Added(g, id) in log && g != h
    ensures Before(log, g, h, id)
  {
    var front, last := log[..|log| - 1], log[|log| - 1];
    assert log == front + [last];
    if last == Added(h, id) {
      var i :| 0 <= i < |log| && log[i] == Added(g, id);
      assert i < |log| - 1;
    } else {
      LastAddedIsLast(front, id, g, h);
      BeforeGrows(front, [last], g, h, id);
    }
  }

  lemma {:induction false} LastAddedIsLogged(log: seq<Event>, id: DeviceId, h: nat)
    requires LastAdded(log, id) == Some(h)
    ensures Added(h, id) in log
  {
    if log[|log| - 1] != Added(h, id) {
      LastAddedIsLogged(log[..|log| - 1], id, h);
    }
  }

  /** A registration in force is the latest one. */
  lemma {:induction false} InForceIsLast(guarded: bool, log: seq<Event>, id: DeviceId)
    ensures InForce(guarded, log, id).Some? ==> InForce(guarded, log, id) == LastAdded(log, id)
  {
    if log != [] {
      InForceIsLast(guarded, log[..|log| - 1], id);
    }
  }

  lemma InForceNext(guarded: bool, log: seq<Event>, e: Event, id: DeviceId)
    ensures InForce(guarded, log + [e], id) == AfterEvent(guarded, InForce(guarded, log, id), e, id)
  {
    var whole := log + [e];
    assert whole[..|whole| - 1] == log;
  }

  lemma InForceClosing(guarded: bool, log: seq<Event>, closing: seq<Event>, id: DeviceId)
    requires |closing| <= 1 && forall e | e in closing :: e.Closed?
    ensures InForce(guarded, log + closing, id) == InForce(guarded, log, id)
  {
    if closing == [] {
      assert log + closing == log;
    } else {
      assert closing == [closing[0]] && closing[0] in closing;
      InForceNext(guarded, log, closing[0], id);
    }
  }

  lemma Regroup(log: seq<Event>, closing: seq<Event>, call: Event)
    ensures log + (closing + [call]) == (log + closing) + [call]
  {
  }

  /** What a call does, with the close it may come with. */
  lemma InForceAppend(guarded: bool, log: seq<Event>, closing: seq<Event>, call: Event, more: seq<Event>, id: DeviceId)
    requires |closing| <= 1 && forall e | e in closing :: e.Closed?
    requires more == closing + [call]
    ensures InForce(guarded, log + more, id) == AfterEvent(guarded, InForce(guarded, log, id), call, id)
  {
    InForceClosing(guarded, log, closing, id);
    var before := log + closing;
    InForceNext(guarded, before, call, id);
    Regroup(log, closing, call);
  }

  /** The table moves as the registration in force does. */
  lemma EntryMoves(guarded: bool, s: State, l: Label, id: DeviceId)
    requires Enabled(s, l)
    ensures l.AddDevice? ==>
              Entry(NextTable(guarded, s, l), id)
              == AfterEvent(guarded, Entry(s.table, id), Added(l.handler, s.handlers[l.handler].id), id)
    ensures l.RemoveDevice? ==>
              Entry(NextTable(guarded, s, l), id)
              == AfterEvent(guarded, Entry(s.table, id), RemoveCalled(l.handler, s.handlers[l.handler].id), id)
    ensures !l.AddDevice? && !l.RemoveDevice? ==> Entry(NextTable(guarded, s, l), id) == Entry(s.table, id)
  {
  }

  lemma HistoricAdd(guarded: bool, s: State, h: nat, id: DeviceId)
    requires At(s, h, Accepted)
    ensures InForce(guarded, s.log + Events(guarded, s, AddDevice(h)), id)
            == AfterEvent(guarded, InForce(guarded, s.log, id), Added(h, s.handlers[h].id), id)
  {
    var closing := if s.handlers[h].id in s.table.sessions
                   then CloseEvent(s.table, s.table.sessions[s.handlers[h].id], Displacement(h)) else [];
    InForceAppend(guarded, s.log, closing, Added(h, s.handlers[h].id), Events(guarded, s, AddDevice(h)), id);
  }

  lemma HistoricRemove(guarded: bool, s: State, h: nat, id: DeviceId)
    requires At(s, h, Woken)
    ensures InForce(guarded, s.log + Events(guarded, s, RemoveDevice(h)), id)
            == AfterEvent(guarded, InForce(guarded, s.log, id), RemoveCalled(h, s.handlers[h].id), id)
  {
    var i := s.handlers[h].id;
    var closing := if i in s.table.sessions && (guarded ==> s.table.sessions[i] == h)
                   then CloseEvent(s.table, s.table.sessions[i], Removal(h)) else [];
    InForceAppend(guarded, s.log, closing, RemoveCalled(h, i), Events(guarded, s, RemoveDevice(h)), id);
  }

  lemma HistoricStepAt(guarded: bool, s: State, l: Label, id: DeviceId)
    requires Enabled(s, l)
    requires InForce(guarded, s.log, id) == Entry(s.table, id)
    ensures InForce(guarded, s.log + Events(guarded, s, l), id) == Entry(NextTable(guarded, s, l), id)
  {
    EntryMoves(guarded, s, l, id);
    if l.AddDevice? {
      HistoricAdd(guarded, s, l.handler, id);
    } else if l.RemoveDevice? {
      HistoricRemove(guarded, s, l.handler, id);
    } else {
      InForceClosing(guarded, s.log, Events(guarded, s, l), id);
    }
  }

  lemma HistoricStep(guarded: bool, s: State, l: Label)
    requires Historic(guarded, s) && Enabled(s, l)
    ensures Historic(guarded, Next(guarded, s, l))
  {
    forall id
      ensures InForce(guarded, Next(guarded, s, l).log, id) == Entry(Next(guarded, s, l).table, id)
    {
      HistoricStepAt(guarded, s, l, id);
    }
  }

  lemma NewCloseIsLegitimate(guarded: bool, s: State, l: Label, h: nat, c: Cause)
    requires Sound(s) && Single(s) && CallsLogged(s) && Historic(guarded, s) && Enabled(s, l)
    requires Closed(h, c) in Events(guarded, s, l)
    ensures Legitimate(Next(guarded, s, l).log, h, c)
  {
    var t := Next(guarded, s, l);
    match l
    case TransportFails(_) =>
    case AddDevice(g) =>
      var id := s.handlers[g].id;
      assert Added(h, id) in s.log;
      var i :| 0 <= i < |s.log| && s.log[i] == Added(h, id);
      assert t.log[i] == Added(h, id) && t.log[|t.log| - 1] == Added(g, id);
      assert Before(t.log, h, g, id);
    case RemoveDevice(g) =>
      var id := s.handlers[g].id;
      InForceIsLast(guarded, s.log, id);
      LastAddedIsLast(s.log, id, g, h);
      BeforeGrows(s.log, Events(guarded, s, l), g, h, id);
    case Return(_) =>
  }

  lemma CausedStep(guarded: bool, s: State, l: Label)
    requires Sound(s) && Single(s) && CallsLogged(s) && Historic(guarded, s) && Caused(s) && Enabled(s, l)
    ensures Caused(Next(guarded, s, l))
  {
    var t := Next(guarded, s, l);
    var more := Events(guarded, s, l);
    forall h: nat, c {:trigger Closed(h, c)} | Closed(h, c) in t.log
      ensures Legitimate(t.log, h, c)
    {
      if Closed(h, c) in s.log {
        LegitimateGrows(s.log, more, h, c);
      } else {
        assert Closed(h, c) in more;
        NewCloseIsLegitimate(guarded, s, l, h, c);
      }
    }
  }

  lemma InvStep(guarded: bool, s: State, l: Label)
    requires Inv(guarded, s) && Enabled(s, l)
    ensures Inv(guarded, Next(guarded, s, l))
  {
    SoundStep(guarded, s, l);
    SingleStep(guarded, s, l);
    CallsLoggedStep(guarded, s, l);
    ClosesLoggedStep(guarded, s, l);
    OnceEachStep(guarded, s, l);
    HistoricStep(guarded, s, l);
    CausedStep(guarded, s, l);
  }

  lemma InvAtFirst(guarded: bool)
    ensures Inv(guarded, INITIAL)
  {
  }

  lemma ServerPreserves()
    ensures SERVER.Preserves(s => Inv(false, s))
  {
    forall s, l | Inv(false, s) && SERVER.enabled(s, l)
      ensures Inv(false, SERVER.next(s, l))
    {
      InvStep(false, s, l);
    }
  }

  lemma ServerInvariant(s: State)
    requires SERVER.Reaches(INITIAL, s)
    ensures Inv(false, s)
  {
    ServerPreserves();
    InvAtFirst(false);
    SERVER.Invariant(s => Inv(false, s), INITIAL, s);
  }
}
