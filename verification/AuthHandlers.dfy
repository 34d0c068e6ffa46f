/** The authentication handlers in their own form: a context that stores a snapshot, a snapshot that points to the
    session, and a session whose connection and client are updated in place. Each handler is proved against
    `Authentication`.
 */
module AuthHandlers {
  import opened Machines
  import opened Authentication

  class Session {
    var conn: Option<nat>
    var client: Option<nat>

    constructor ()
      ensures conn == None && client == None
    {
      conn, client := None, None;
    }
  }

  class Snapshot {
    var session: Session?
    var stage: Stage

    constructor ()
      ensures session == null && stage == STAGE_NIL
    {
      session, stage := null, STAGE_NIL;
    }

    method Save(session: Session, stage: Stage)
      modifies this
      ensures this.session == session && this.stage == stage
    {
      this.session := session;
      this.stage := stage;
    }
  }

  /** The SSH connection's context, with what the outside has seen of it. */
  class Context {
    var snap: Snapshot?
    var connectionClosed: bool
    var bannerRun: bool
    var dials: nat
    var handshakes: seq<nat>
    var successes: nat
    var granted: nat

    ghost predicate Valid()
      reads this, snap
    {
      snap != null ==> (snap.session == null <==> snap.stage == STAGE_NIL)
    }

    ghost function Footprint(): set<object>
      reads this, snap
    {
      {this} + (if snap == null then {} else {snap as object}) +
      (if snap == null || snap.session == null then {} else {snap.session as object})
    }

    ghost function View(): State
      reads this, snap, if snap == null then null else snap.session
    {
      var session := if snap == null then null else snap.session;
      State(if snap == null then STAGE_NIL else snap.stage,
            if session == null then None else session.conn,
            if session == null then None else session.client,
            dials, handshakes, successes, granted, bannerRun, connectionClosed)
    }

    constructor ()
      ensures Valid() && View() == INITIAL
    {
      snap, connectionClosed, bannerRun, dials, handshakes, successes, granted := null, false, false, 0, [], 0, 0;
    }

    /** Creates and stores a snapshot on first use. */
    method GetSnapshot() returns (s: Snapshot)
      requires Valid()
      modifies this`snap
      ensures Valid() && snap == s && View() == old(View())
      ensures old(snap) != null ==> s == old(snap)
      ensures old(snap) == null ==> fresh(s) && s.session == null
    {
      if snap != null {
        return snap;
      }
      s := new Snapshot();
      snap := s;
    }

    /** What a channel handler is given to work with. */
    method ObtainSession() returns (session: Session?)
      requires Valid()
      modifies this`snap
      ensures Valid() && View() == old(View())
      ensures session != null <==> HasSession(View())
    {
      var s := GetSnapshot();
      session := s.session;
    }

    /** A tunnel dial for `session`: a failure leaves the session as it was. */
    method Dial(session: Session, dialOk: bool) returns (ok: bool)
      modifies this`dials, session`conn
      ensures ok == dialOk && session.client == old(session.client)
      ensures dials == old(dials) + if ok then 1 else 0
      ensures session.conn == if ok then Some(old(dials)) else old(session.conn)
    {
      if dialOk {
        session.conn := Some(dials);
        dials := dials + 1;
      }
      ok := dialOk;
    }

    method BannerHandler(addressOk: bool, targetOk: bool, dialOk: bool)
      requires Valid() && !bannerRun
      modifies Footprint()
      ensures Valid() && View() == Next(old(View()), Banner(addressOk, targetOk, dialOk))
    {
      bannerRun := true;
      if !addressOk || !targetOk {
        return;
      }
      var session := new Session();
      var s := GetSnapshot();
      s.Save(session, STAGE_CREATED);
      var dialled := Dial(session, dialOk);
      if !dialled {
        return;
      }
      s.Save(session, STAGE_EVALUATED);
    }

    method Authenticate(dialOk: bool, handshakeOk: bool) returns (ok: bool)
      requires Valid()
      modifies Footprint()
      ensures Valid() && ok == AuthSucceeds(old(View()), dialOk, handshakeOk)
      ensures View() == Auth(old(View()), dialOk, handshakeOk)
    {
      var s := GetSnapshot();
      if s.stage != STAGE_EVALUATED && s.stage != STAGE_REGISTERED {
        return false;
      }
      var session := s.session;
      if session.conn == None {
        var dialled := Dial(session, dialOk);
        if !dialled {
          return false;
        }
      }
      handshakes := handshakes + [session.conn.value];
      if !handshakeOk {
        session.conn := None;
        return false;
      }
      session.client := session.conn;
      s.Save(session, STAGE_FINISHED);
      successes := successes + 1;
      ok := true;
    }

    method PasswordHandler(dialOk: bool, handshakeOk: bool) returns (granting: bool)
      requires Valid()
      modifies Footprint()
      ensures Valid() && granting == Accepts(old(View()), Password(dialOk, handshakeOk))
      ensures View() == Next(old(View()), Password(dialOk, handshakeOk))
    {
      var s := GetSnapshot();
      if s.stage < STAGE_EVALUATED {
        connectionClosed := true;
        return false;
      }
      var ok := Authenticate(dialOk, handshakeOk);
      if !ok {
        return false;
      }
      granted := granted + 1;
      granting := true;
    }

    method PublicKeyHandler(dialOk: bool, handshakeOk: bool) returns (granting: bool)
      requires Valid()
      modifies Footprint()
      ensures Valid() && granting == Accepts(old(View()), PublicKey(dialOk, handshakeOk))
      ensures View() == Next(old(View()), PublicKey(dialOk, handshakeOk))
    {
      var s := GetSnapshot();
      if s.stage < STAGE_EVALUATED {
        return true;
      }
      var _ := Authenticate(dialOk, handshakeOk);
      granting := true;
    }
  }
}
