/** `DeviceManager` in its own form: a map updated in place, and sessions closed in place. Each operation is
    proved against the table operation of `Registry` that the protocol proofs use.
 */
module DeviceManager {
  import opened Machines
  import opened Registry

  /** A yamux session; closing it twice is harmless. */
  class YamuxSession {
    const number: nat
    var closed: bool

    constructor (number: nat)
      ensures this.number == number && !closed
    {
      this.number := number;
      closed := false;
    }

    method Close()
      modifies `closed
      ensures closed
    {
      closed := true;
    }
  }

  class Manager {
    var sessions: map<DeviceId, YamuxSession>
    ghost var known: set<YamuxSession>  // every session created on this server so far

    ghost predicate Valid()
      reads this, known
    {
      && (forall id | id in sessions :: sessions[id] in known)
      && (forall x, y | x in known && y in known && x.number == y.number :: x == y)
    }

    ghost function View(): Table
      reads this, known
    {
      Table(map id | id in sessions :: sessions[id].number, set y | y in known && !y.closed :: y.number)
    }

    constructor ()
      ensures Valid() && known == {} && View() == Table(map[], {})
    {
      sessions := map[];
      known := {};
    }

    /** A new session joins the ones the server knows; it is in no entry yet. */
    ghost method Create(session: YamuxSession)
      requires Valid() && !session.closed && forall y | y in known :: y.number != session.number
      modifies this`known
      ensures Valid() && known == old(known) + {session} && sessions == old(sessions)
      ensures View() == old(View()).(open := old(View()).open + {session.number})
    {
      known := known + {session};
    }

    /** A session closes by itself, or is closed by its handler: no entry changes. */
    method CloseSession(session: YamuxSession)
      requires Valid() && session in known
      modifies session`closed
      ensures Valid() && View() == old(View()).(open := old(View()).open - {session.number})
    {
      session.Close();
    }

    method AddDevice(deviceId: DeviceId, session: YamuxSession)
      requires Valid() && session in known
      modifies this`sessions, (if deviceId in sessions then {sessions[deviceId]} else {})`closed
      ensures Valid() && known == old(known)
      ensures sessions == old(sessions)[deviceId := session]
      ensures View() == Add(old(View()), deviceId, session.number)
    {
      if deviceId in sessions {
        CloseSession(sessions[deviceId]);
      }
      sessions := sessions[deviceId := session];
    }

    method RemoveDevice(deviceId: DeviceId)
      requires Valid()
      modifies this`sessions, (if deviceId in sessions then {sessions[deviceId]} else {})`closed
      ensures Valid() && known == old(known)
      ensures sessions == old(sessions) - {deviceId}
      ensures View() == Remove(old(View()), deviceId)
    {
      if deviceId in sessions {
        CloseSession(sessions[deviceId]);
        sessions := sessions - {deviceId};
      }
    }

    /** The guarded removal of the second model. */
    method RemoveOwnDevice(deviceId: DeviceId, session: YamuxSession)
      requires Valid() && session in known
      modifies this`sessions, (if deviceId in sessions then {sessions[deviceId]} else {})`closed
      ensures Valid() && known == old(known)
      ensures View() == RemoveOwn(old(View()), deviceId, session.number)
    {
      if deviceId in sessions && sessions[deviceId] == session {
        RemoveDevice(deviceId);
      }
    }

    /** Opens a stream on the entry of `deviceId`; opening on a closed session is an error. */
    method OpenStreamOn(deviceId: DeviceId) returns (r: Option<YamuxSession>)
      requires Valid()
      ensures r == None <==> OpenStream(View(), deviceId) == None
      ensures r.Some? ==> OpenStream(View(), deviceId) == Some(r.value.number) && !r.value.closed
    {
      if deviceId !in sessions {
        return None;
      }
      var session := sessions[deviceId];
      if session.closed {
        return None;
      }
      r := Some(session);
    }
  }

  /** What a connection request gets: 400, an error, or the WebSocket and a handler's number. */
  datatype Response = BadRequest | UpgradeFailed | Upgraded(handler: nat)

  /** The HTTP side of the SSH server: the manager and the connection handlers around it. Handler `h` owns session
      `h`; `log` is the history that the theorems about runs speak of. */
  class Server {
    const dm: Manager
    var handlers: seq<Handler>
    var sessions: seq<YamuxSession>
    ghost var log: seq<Event>

    ghost predicate Valid()
      reads this, dm, dm.known
    {
      && dm.Valid() && |sessions| == |handlers|
      && (forall h | 0 <= h < |sessions| :: sessions[h] in dm.known && sessions[h].number == h)
      && (forall y | y in dm.known :: y.number < |sessions|)
    }

    ghost function View(): State
      reads this, dm, dm.known
    {
      State(dm.View(), handlers, log)
    }

    constructor ()
      ensures Valid() && View() == INITIAL && fresh(dm)
    {
      dm := new Manager();
      handlers, sessions, log := [], [], [];
    }

    method Move(h: nat, phase: Phase)
      requires h < |handlers|
      modifies `handlers
      ensures handlers == Registry.Move(old(State(Table(map[], {}), handlers, [])), h, phase)
    {
      handlers := handlers[h := handlers[h].(phase := phase)];
    }

    /** A connection request: refused when neither header names the device, dropped when the upgrade fails, and
        otherwise given a fresh open session. */
    method Accept(deviceId: string, deviceUid: string, upgraded: bool) returns (response: Response)
      requires Valid()
      modifies this, dm`known
      ensures Valid() && fresh(dm.known - old(dm.known))
      ensures response == if deviceId == "" && deviceUid == "" then BadRequest
                          else if !upgraded then UpgradeFailed else Upgraded(old(|handlers|))
      ensures response.Upgraded? ==> Enabled(old(View()), Connect(deviceId, deviceUid))
      ensures response.Upgraded? ==>
                handlers == old(handlers) + [Handler(if deviceId != "" then deviceId else deviceUid, Accepted)]
      ensures View() == if response.Upgraded? then Next(false, old(View()), Connect(deviceId, deviceUid))
                        else old(View())
    {
      var id := deviceId;
      if id == "" {
        id := deviceUid;
      }
      if id == "" {
        return BadRequest;
      }
      if !upgraded {
        return UpgradeFailed;
      }
      response := Upgraded(|handlers|);
      var session := new YamuxSession(|handlers|);
      dm.Create(session);
      handlers := handlers + [Handler(id, Accepted)];
      sessions := sessions + [session];
      assert log + [] == log;
    }

    method FailTransport(h: nat)
      requires Valid() && Enabled(View(), TransportFails(h))
      modifies this, dm.known`closed
      ensures Valid() && dm.known == old(dm.known)
      ensures View() == Next(false, old(View()), TransportFails(h))
    {
      log := log + Events(false, View(), TransportFails(h));
      dm.CloseSession(sessions[h]);
    }

    method Register(h: nat)
      requires Valid() && Enabled(View(), AddDevice(h))
      modifies this, dm`sessions, dm.known`closed
      ensures Valid() && dm.known == old(dm.known)
      ensures View() == Next(false, old(View()), AddDevice(h))
    {
      log := log + Events(false, View(), AddDevice(h));
      dm.AddDevice(handlers[h].id, sessions[h]);
      Move(h, Registered);
    }

    method Unregister(h: nat)
      requires Valid() && Enabled(View(), RemoveDevice(h))
      modifies this, dm`sessions, dm.known`closed
      ensures Valid() && dm.known == old(dm.known)
      ensures View() == Next(false, old(View()), RemoveDevice(h))
    {
      log := log + Events(false, View(), RemoveDevice(h));
      dm.RemoveDevice(handlers[h].id);
      Move(h, Removed);
    }

    /** The outermost deferred close, and the handler is gone. */
    method Finish(h: nat)
      requires Valid() && Enabled(View(), Return(h))
      modifies this, dm.known`closed
      ensures Valid() && dm.known == old(dm.known)
      ensures View() == Next(false, old(View()), Return(h))
    {
      log := log + Events(false, View(), Return(h));
      dm.CloseSession(sessions[h]);
      Move(h, Returned);
    }

    method Perform(l: Label)
      requires Valid() && Enabled(View(), l)
      modifies this, dm, dm.known
      ensures Valid() && fresh(dm.known - old(dm.known))
      ensures View() == Next(false, old(View()), l)
    {
      match l {
        case Connect(deviceId, deviceUid) =>
          var response := Accept(deviceId, deviceUid, true);
        case TransportFails(h) => FailTransport(h);
        case AddDevice(h) => Register(h);
        case Wake(h) =>
          Move(h, Woken);
          assert log + [] == log;
        case RemoveDevice(h) => Unregister(h);
        case Return(h) => Finish(h);
      }
    }

    /** Any run of the protocol is one of this object. */
    method Replay(labels: seq<Label>, ghost end: State)
      requires Valid() && Registry.SERVER.Runs(View(), labels, end)
      modifies this, dm, dm.known
      ensures Valid() && View() == end
    {
      for i := 0 to |labels|
        invariant Valid() && fresh(dm.known - old(dm.known))
        invariant Registry.SERVER.Runs(View(), labels[i..], end)
      {
        assert labels[i..][1..] == labels[i + 1..];
        Perform(labels[i]);
      }
    }
  }
}
