/** The authentication of one SSH connection: one banner call and any sequence of password and public-key attempts
    drive a snapshot (a session and its stage) and the session's connection to the agent.
 */
module Authentication {
  import opened Machines

  type Stage = nat

  const STAGE_NIL: Stage := 1
  const STAGE_CREATED: Stage := 2
  const STAGE_DIALED: Stage := 3
  const STAGE_EVALUATED: Stage := 4
  const STAGE_REGISTERED: Stage := 5
  const STAGE_FINISHED: Stage := 6

  /** `conn` is the dialled connection the session holds, `client` the one its agent client runs over; dialled
      connections are numbered in the order of the successful dials. `handshakes` lists the connections handed
      to a handshake, `successes` counts the handshakes that succeeded, `granted` the password attempts
      answered with true. */
  datatype State = State(stage: Stage, conn: Option<nat>, client: Option<nat>, dials: nat, handshakes: seq<nat>,
                         successes: nat, granted: nat, bannerRun: bool, connectionClosed: bool)

  const INITIAL := State(STAGE_NIL, None, None, 0, [], 0, 0, false, false)

  /** A call and what the outside answers: whether the remote address and the target parse, whether a dial would
      succeed, whether a handshake would. */
  datatype Label =
    | Banner(addressOk: bool, targetOk: bool, dialOk: bool)
    | Password(dialOk: bool, handshakeOk: bool)
    | PublicKey(dialOk: bool, handshakeOk: bool)

  predicate Enabled(s: State, l: Label) {
    l.Banner? ==> !s.bannerRun
  }

  function Dial(s: State): State {
    s.(conn := Some(s.dials), dials := s.dials + 1)
  }

  /** `NewSession`, `Dial` and `Evaluate`, each only if the one before succeeded. */
  function NextBanner(s: State, addressOk: bool, targetOk: bool, dialOk: bool): State {
    if !addressOk || !targetOk then s.(bannerRun := true) else
    var created := s.(bannerRun := true, stage := STAGE_CREATED, conn := None, client := None);
    if !dialOk then created else Dial(created).(stage := STAGE_EVALUATED)
  }

  function Handshake(s: State, ok: bool): State
    requires s.conn.Some?
  {
    var tried := s.(handshakes := s.handshakes + [s.conn.value]);
    if ok then tried.(client := s.conn, stage := STAGE_FINISHED, successes := s.successes + 1)
    else tried.(conn := None)
  }

  predicate Attempts(s: State) {
    s.stage == STAGE_EVALUATED || s.stage == STAGE_REGISTERED
  }

  /** `Auth`: a handshake over the connection held, or over a fresh one. */
  function Auth(s: State, dialOk: bool, handshakeOk: bool): State {
    if !Attempts(s) then s
    else if s.conn.Some? then Handshake(s, handshakeOk)
    else if !dialOk then s
    else Handshake(Dial(s), handshakeOk)
  }

  predicate AuthSucceeds(s: State, dialOk: bool, handshakeOk: bool) {
    Attempts(s) && (s.conn.Some? || dialOk) && handshakeOk
  }

  /** What the call returns: an attempt's verdict. */
  predicate Accepts(s: State, l: Label) {
    match l
    case Banner(_, _, _) => true
    case Password(dialOk, handshakeOk) => STAGE_EVALUATED <= s.stage && AuthSucceeds(s, dialOk, handshakeOk)
    case PublicKey(_, _) => true
  }

  function Next(s: State, l: Label): State {
    if !Enabled(s, l) then s else
    match l
    case Banner(addressOk, targetOk, dialOk) => NextBanner(s, addressOk, targetOk, dialOk)
    case Password(dialOk, handshakeOk) =>
      if s.stage < STAGE_EVALUATED then s.(connectionClosed := true)
      else
        var t := Auth(s, dialOk, handshakeOk);
        if AuthSucceeds(s, dialOk, handshakeOk) then t.(granted := s.granted + 1) else t
    case PublicKey(dialOk, handshakeOk) =>
      if s.stage < STAGE_EVALUATED then s else Auth(s, dialOk, handshakeOk)
  }

  const CONNECTION := Machine(Enabled, Next)

  // ---------------------------------------------------------------------------------------------------
  // Invariants
  // ---------------------------------------------------------------------------------------------------

  /** A connection is held that no handshake has used. */
  predicate Unused(s: State) {
    s.conn.Some? && s.stage != STAGE_FINISHED
  }

  ghost predicate Stages(s: State) {
    && s.stage in {STAGE_NIL, STAGE_CREATED, STAGE_EVALUATED, STAGE_FINISHED}
    && (s.stage == STAGE_FINISHED <==> s.client.Some?)
    && s.successes == (if s.stage == STAGE_FINISHED then 1 else 0)
    && s.granted <= s.successes
    && (!s.bannerRun ==> s.stage == STAGE_NIL)
    && (s.stage < STAGE_EVALUATED ==> s.conn == None && s.dials == 0)
  }

  ghost predicate Ledger(s: State) {
    && s.dials == |s.handshakes| + (if Unused(s) then 1 else 0)
    && (Unused(s) ==> s.conn == Some(s.dials - 1))
    && (forall i | 0 <= i < |s.handshakes| :: s.handshakes[i] == i)
    && (s.stage == STAGE_FINISHED ==> s.dials > 0 && s.client == Some(s.dials - 1))
  }

  lemma InvStep(s: State, l: Label)
    requires Stages(s) && Ledger(s) && Enabled(s, l)
    ensures Stages(Next(s, l)) && Ledger(Next(s, l))
  {
  }

  lemma ConnectionInvariant(s: State)
    requires CONNECTION.Reaches(INITIAL, s)
    ensures Stages(s) && Ledger(s)
  {
    var inv := (s: State) => Stages(s) && Ledger(s);
    forall s, l | inv(s) && CONNECTION.enabled(s, l)
      ensures inv(CONNECTION.next(s, l))
    {
      InvStep(s, l);
    }
    CONNECTION.Invariant(inv, INITIAL, s);
  }

  /** Conservation, in every run: the successful dials are the handshake attempts, and one more exactly when an
      unused connection is held; no connection is ever used for two handshakes. */
  lemma DialsAreConserved(s: State)
    requires CONNECTION.Reaches(INITIAL, s)
    ensures s.dials == |s.handshakes| + (if s.conn.Some? && s.stage != STAGE_FINISHED then 1 else 0)
    ensures forall i, j | 0 <= i < j < |s.handshakes| :: s.handshakes[i] != s.handshakes[j]
    ensures s.conn.Some? && s.stage != STAGE_FINISHED ==> s.conn.value !in s.handshakes
  {
    ConnectionInvariant(s);
  }

  /** Only four stages occur. Finished holds exactly when one handshake has succeeded, exactly when the agent client
      is set, and then that client runs over the connection of the last handshake; at most one password attempt
      is ever granted. */
  lemma FinishedExactly(s: State)
    requires CONNECTION.Reaches(INITIAL, s)
    ensures s.stage in {STAGE_NIL, STAGE_CREATED, STAGE_EVALUATED, STAGE_FINISHED}
    ensures s.stage == STAGE_FINISHED <==> s.successes == 1
    ensures s.stage == STAGE_FINISHED <==> s.client.Some?
    ensures s.successes <= 1 && s.granted <= 1
    ensures s.client.Some? ==> s.handshakes != [] && s.client.value == s.handshakes[|s.handshakes| - 1]
  {
    ConnectionInvariant(s);
  }

  /** The stage never goes back, in any continuation; a finished connection keeps its client; and once the banner
      call has evaluated the session no attempt closes the connection. */
  lemma {:induction false} StageNeverDecreases(s: State, labels: seq<Label>, t: State)
    requires Stages(s) && Ledger(s) && CONNECTION.Runs(s, labels, t)
    ensures s.stage <= t.stage
    ensures s.stage == STAGE_FINISHED ==> t.client == s.client && t.handshakes == s.handshakes && t.dials == s.dials
    ensures STAGE_EVALUATED <= s.stage ==> t.connectionClosed == s.connectionClosed
    decreases |labels|
  {
    if labels != [] {
      InvStep(s, labels[0]);
      StageNeverDecreases(Next(s, labels[0]), labels[1..], t);
    }
  }

  /** A password attempt is accepted exactly when it is the one that finishes the connection. */
  lemma PasswordAcceptedExactly(s: State, l: Label)
    requires CONNECTION.Reaches(INITIAL, s) && l.Password?
    ensures Accepts(s, l) <==> s.stage != STAGE_FINISHED && Next(s, l).stage == STAGE_FINISHED
    ensures Accepts(s, l) <==> Next(s, l).granted == s.granted + 1
    ensures Accepts(s, l) ==> forall later, d, h | CONNECTION.Reaches(Next(s, l), later) ::
                                !Accepts(later, Password(d, h))
  {
    ConnectionInvariant(s);
    InvStep(s, l);
    if Accepts(s, l) {
      forall later, d, h | CONNECTION.Reaches(Next(s, l), later)
        ensures !Accepts(later, Password(d, h))
      {
        var labels :| CONNECTION.Runs(Next(s, l), labels, later);
        StageNeverDecreases(Next(s, l), labels, later);
        CONNECTION.Compose(s, Next(s, l), later) by {
          CONNECTION.One(s, l);
        }
        CONNECTION.Compose(INITIAL, s, later);
        ConnectionInvariant(later);
      }
    }
  }

  /** The public-key handler accepts every key; the exact condition under which that acceptance is backed by an
      agent client. */
  lemma PublicKeyBackedExactly(s: State, dialOk: bool, handshakeOk: bool)
    requires CONNECTION.Reaches(INITIAL, s)
    ensures Accepts(s, PublicKey(dialOk, handshakeOk))
    ensures Next(s, PublicKey(dialOk, handshakeOk)).client.Some?
            <==> s.stage == STAGE_FINISHED
                 || (s.stage == STAGE_EVALUATED && (s.conn.Some? || dialOk) && handshakeOk)
  {
    ConnectionInvariant(s);
  }

  lemma NoBannerForever(s: State, t: State)
    requires Stages(s) && Ledger(s) && s.bannerRun && s.stage < STAGE_EVALUATED && CONNECTION.Reaches(s, t)
    ensures t.stage == s.stage && t.client == None && t.handshakes == [] && t.granted == 0
  {
    var inv := (u: State) => u.stage == s.stage && u.bannerRun && Stages(u) && Ledger(u);
    forall u, l | inv(u) && CONNECTION.enabled(u, l)
      ensures inv(CONNECTION.next(u, l))
    {
      InvStep(u, l);
    }
    CONNECTION.Invariant(inv, s, t);
  }

  /** What `ObtainSession` finds for a channel handler. */
  predicate HasSession(s: State) {
    s.stage != STAGE_NIL
  }

  /** The banner call that creates the session: address and target parse. */
  predicate Creates(l: Label) {
    l.Banner? && l.addressOk && l.targetOk
  }

  lemma HasSessionStep(s: State, l: Label)
    requires Stages(s) && Ledger(s) && Enabled(s, l)
    ensures HasSession(Next(s, l)) <==> HasSession(s) || Creates(l)
  {
  }

  lemma {:induction false} SessionAlong(s: State, labels: seq<Label>, t: State)
    requires Stages(s) && Ledger(s) && CONNECTION.Runs(s, labels, t)
    ensures HasSession(t) <==> HasSession(s) || exists l :: l in labels && Creates(l)
    decreases |labels|
  {
    if labels != [] {
      var first, rest := labels[0], labels[1..];
      HasSessionStep(s, first);
      InvStep(s, first);
      SessionAlong(Next(s, first), rest, t);
      assert labels == [first] + rest;
      assert forall l :: l in labels <==> l == first || l in rest;
    }
  }

  /** When a channel handler finds a session: exactly when the banner call got past address and target. Without one
      every public key is accepted all the same and changes nothing, so that the client gets to open channels. */
  lemma SessionFoundExactly(labels: seq<Label>, s: State)
    requires CONNECTION.Runs(INITIAL, labels, s)
    ensures HasSession(s) <==> exists l :: l in labels && Creates(l)
    ensures !HasSession(s) ==> forall d, h :: Accepts(s, PublicKey(d, h)) && Next(s, PublicKey(d, h)) == s
    ensures !HasSession(s) ==> forall d, h :: !Accepts(s, Password(d, h))
  {
    SessionAlong(INITIAL, labels, s);
  }

  /** The failing run: an unparsable target, and a public key. The client is authenticated, and no channel handler can
      find a session, now or later. */
  lemma AcceptedWithoutSession() returns (labels: seq<Label>, s: State)
    ensures CONNECTION.Runs(INITIAL, labels, s) && labels == [Banner(true, false, true), PublicKey(true, true)]
    ensures Accepts(Next(INITIAL, labels[0]), labels[1])
    ensures forall t | CONNECTION.Reaches(s, t) :: !HasSession(t)
  {
    var banner, key := Banner(true, false, true), PublicKey(true, true);
    var a := Next(INITIAL, banner);
    s := Next(a, key);
    assert CONNECTION.Runs(INITIAL, [], INITIAL);
    CONNECTION.Then(INITIAL, [], INITIAL, banner);
    CONNECTION.Then(INITIAL, [] + [banner], a, key);
    labels := [banner, key];
    assert [] + [banner] + [key] == labels;
    assert CONNECTION.Reaches(INITIAL, s);
    ConnectionInvariant(s);
    forall t | CONNECTION.Reaches(s, t)
      ensures !HasSession(t)
    {
      NoBannerForever(s, t);
    }
  }

  // ---------------------------------------------------------------------------------------------------
  // The whole connection, read off its calls
  // ---------------------------------------------------------------------------------------------------

  predicate IsAttempt(l: Label) {
    l.Password? || l.PublicKey?
  }

  /** The `i`-th call is the attempt that authenticates the connection: the banner call has succeeded before it, and its
      handshake succeeds, over the connection of the banner call if it comes directly after it, and otherwise over
      one dialled anew. */
  ghost predicate Authenticates(labels: seq<Label>, i: nat) {
    && 0 < i < |labels| && Banner(true, true, true) in labels[..i]
    && match labels[i]
       case Banner(_, _, _) => false
       case Password(dialOk, handshakeOk) => handshakeOk && (dialOk || labels[i - 1] == Banner(true, true, true))
       case PublicKey(dialOk, handshakeOk) => handshakeOk && (dialOk || labels[i - 1] == Banner(true, true, true))
  }

  ghost predicate Authenticated(labels: seq<Label>) {
    exists i: nat :: Authenticates(labels, i)
  }

  /** A password was tried before the banner call had succeeded. */
  ghost predicate TriedTooEarly(labels: seq<Label>) {
    exists i: nat :: i < |labels| && labels[i].Password? && Banner(true, true, true) !in labels[..i]
  }

  lemma AuthenticatedNext(labels: seq<Label>, l: Label)
    ensures Authenticated(labels + [l]) <==> Authenticated(labels) || Authenticates(labels + [l], |labels|)
  {
    var whole := labels + [l];
    forall i: nat | i < |labels|
      ensures Authenticates(whole, i) <==> Authenticates(labels, i)
    {
      assert whole[..i] == labels[..i];
    }
  }

  lemma TriedTooEarlyNext(labels: seq<Label>, l: Label)
    ensures TriedTooEarly(labels + [l])
            <==> TriedTooEarly(labels) || (l.Password? && Banner(true, true, true) !in labels)
  {
    var whole := labels + [l];
    assert whole[..|labels|] == labels && whole[|labels|] == l;
    forall i: nat | i < |labels|
      ensures whole[..i] == labels[..i] && whole[i] == labels[i]
    {
    }
    if TriedTooEarly(labels) {
      var i: nat :| i < |labels| && labels[i].Password? && Banner(true, true, true) !in labels[..i];
      assert whole[i].Password? && Banner(true, true, true) !in whole[..i];
    }
  }

  /** The state against the calls. */
  ghost predicate Follows(s: State, labels: seq<Label>) {
    && (s.bannerRun <==> exists l :: l in labels && l.Banner?)
    && (STAGE_EVALUATED <= s.stage <==> Banner(true, true, true) in labels)
    && (s.stage == STAGE_FINISHED <==> Authenticated(labels))
    && (s.stage == STAGE_EVALUATED && s.conn.Some? <==>
        labels != [] && labels[|labels| - 1] == Banner(true, true, true))
    && (s.connectionClosed <==> TriedTooEarly(labels))
  }

  lemma FollowsBanner(s: State, labels: seq<Label>, l: Label)
    requires Stages(s) && Ledger(s) && Follows(s, labels) && Enabled(s, l) && l.Banner?
    ensures Follows(Next(s, l), labels + [l])
  {
    AuthenticatedNext(labels, l);
    TriedTooEarlyNext(labels, l);
    assert l in labels + [l];
  }

  lemma AttemptAppended(labels: seq<Label>, l: Label)
    requires IsAttempt(l)
    ensures (exists b :: b in labels + [l] && b.Banner?) <==> (exists b :: b in labels && b.Banner?)
    ensures Banner(true, true, true) in labels + [l] <==> Banner(true, true, true) in labels
    ensures (labels + [l])[|labels + [l]| - 1] == l
    ensures Authenticates(labels + [l], |labels|) <==>
              && Banner(true, true, true) in labels
              && (if l.Password? then l.handshakeOk && (l.dialOk || labels[|labels| - 1] == Banner(true, true, true))
                  else l.handshakeOk && (l.dialOk || labels[|labels| - 1] == Banner(true, true, true)))
  {
    var whole := labels + [l];
    assert whole[..|labels|] == labels && whole[|labels|] == l;
    assert forall b :: b in whole && b.Banner? <==> b in labels && b.Banner?;
    if labels != [] {
      assert whole[|labels| - 1] == labels[|labels| - 1];
    }
  }

  lemma FollowsAttempt(s: State, labels: seq<Label>, l: Label)
    requires Stages(s) && Ledger(s) && Follows(s, labels) && IsAttempt(l)
    ensures Follows(Next(s, l), labels + [l])
  {
    AuthenticatedNext(labels, l);
    TriedTooEarlyNext(labels, l);
    AttemptAppended(labels, l);
  }

  /** The exact account of a connection, over every sequence of calls. It is evaluated exactly if a banner call
      succeeded from end to end, the dial included; it is authenticated towards the agent exactly if after that an
      attempt's handshake succeeded, over the banner call's connection for the first attempt and a redialled one for
      any later; and the SSH connection was closed exactly if a password was tried before the banner call had
      succeeded. */
  lemma {:induction false} ConnectionIsItsCalls(labels: seq<Label>, s: State)
    requires CONNECTION.Runs(INITIAL, labels, s)
    ensures STAGE_EVALUATED <= s.stage <==> Banner(true, true, true) in labels
    ensures s.client.Some? <==> exists i: nat :: Authenticates(labels, i)
    ensures s.connectionClosed <==>
              exists i: nat :: i < |labels| && labels[i].Password? && Banner(true, true, true) !in labels[..i]
    ensures Follows(s, labels) && Stages(s) && Ledger(s)
    decreases |labels|
  {
    if labels != [] {
      var front, last := labels[..|labels| - 1], labels[|labels| - 1];
      var u := CONNECTION.Last(INITIAL, labels, s);
      ConnectionIsItsCalls(front, u);
      assert labels == front + [last];
      InvStep(u, last);
      if last.Banner? {
        FollowsBanner(u, front, last);
      } else {
        FollowsAttempt(u, front, last);
      }
    }
  }

  /** When a password attempt is accepted, from the calls before it: exactly if with it the connection is authenticated
      and without it it was not. */
  lemma PasswordAcceptedFromCalls(labels: seq<Label>, s: State, dialOk: bool, handshakeOk: bool)
    requires CONNECTION.Runs(INITIAL, labels, s)
    ensures Accepts(s, Password(dialOk, handshakeOk)) <==>
              && Banner(true, true, true) in labels && !Authenticated(labels)
              && handshakeOk && (dialOk || labels[|labels| - 1] == Banner(true, true, true))
  {
    ConnectionIsItsCalls(labels, s);
  }

  /** A connection whose banner call was not wholly successful, be it the address, the target or the dial that failed,
      is never authenticated towards the agent and never accepts a password, by however many attempts. */
  lemma NoBannerNoAgent(labels: seq<Label>, s: State, t: State)
    requires CONNECTION.Runs(INITIAL, labels, s) && CONNECTION.Reaches(s, t)
    requires (exists l :: l in labels && l.Banner?) && Banner(true, true, true) !in labels
    ensures t.stage == s.stage && t.client == None && t.handshakes == [] && t.granted == 0
    ensures forall d, h :: !Accepts(t, Password(d, h))
  {
    ConnectionIsItsCalls(labels, s);
    NoBannerForever(s, t);
  }
}
