/** The agent's global requests (RFC 4254, section 4), shared by the session-channel handlers of one connection:
    every handler's first goroutine receives from the same queue.
 */
module GlobalRequests {
  import opened Machines
  import R = RequestRelay
  import S = SessionChannel
  import T = SessionTheorems

  /** What a goroutine did about the request at `index` of the queue: an attempt to send a keepalive to its own
      client, a refusal, or nothing for a request that is no keepalive and wants no reply. */
  datatype Action =
    | KeepAliveSent(index: nat)
    | Refused(index: nat)
    | Ignored(index: nat)

  datatype Taker = Taker(left: bool, actions: seq<Action>)

  datatype State = State(queue: seq<R.Request>, taken: nat, closed: bool, ctxDone: bool, takers: seq<Taker>)

  const INITIAL := State([], 0, false, false, [])

  datatype Label =
    | Arrive(request: R.Request)
    | Close
    | ContextDone
    | Spawn
    | Take(taker: nat, sent: bool)
    | Leave(taker: nat)

  predicate Enabled(s: State, l: Label) {
    match l
    case Arrive(_) => !s.closed
    case Close => true
    case ContextDone => true
    case Spawn => true
    case Take(t, _) => t < |s.takers| && !s.takers[t].left && s.taken < |s.queue|
    case Leave(t) =>
      t < |s.takers| && !s.takers[t].left && (s.ctxDone || (s.closed && s.taken == |s.queue|))
  }

  function Act(r: R.Request, index: nat): Action {
    if S.IsKeepAlive(r) then KeepAliveSent(index) else if r.wantReply then Refused(index) else Ignored(index)
  }

  function Next(s: State, l: Label): State {
    if !Enabled(s, l) then s else
    match l
    case Arrive(r) => s.(queue := s.queue + [r])
    case Close => s.(closed := true)
    case ContextDone => s.(ctxDone := true)
    case Spawn => s.(takers := s.takers + [Taker(false, [])])
    case Take(t, sent) =>
      var r := s.queue[s.taken];
      var taker := Taker(S.IsKeepAlive(r) && !sent, s.takers[t].actions + [Act(r, s.taken)]);
      s.(taken := s.taken + 1, takers := s.takers[t := taker])
    case Leave(t) => s.(takers := s.takers[t := s.takers[t].(left := true)])
  }

  const CONNECTION := Machine(Enabled, Next)

  /** Taker `t` acted on the request at `index`, as its `k`-th action. */
  predicate ActedAt(s: State, t: nat, k: nat, index: nat) {
    t < |s.takers| && k < |s.takers[t].actions| && s.takers[t].actions[k].index == index
  }

  ghost predicate Acted(s: State, index: nat) {
    exists t: nat, k: nat :: ActedAt(s, t, k, index)
  }

  /** Actions fit their requests, which have been taken. */
  ghost predicate Fitting(s: State) {
    && s.taken <= |s.queue|
    && (forall t: nat, k: nat {:trigger s.takers[t].actions[k]} | t < |s.takers| && k < |s.takers[t].actions| ::
          s.takers[t].actions[k].index < s.taken
          && s.takers[t].actions[k] == Act(s.queue[s.takers[t].actions[k].index], s.takers[t].actions[k].index))
  }

  ghost predicate Covered(s: State) {
    forall i: nat | i < s.taken :: Acted(s, i)
  }

  /** Two actions on one request are one action of one taker. */
  ghost predicate Unique(s: State) {
    forall t: nat, k: nat, u: nat, m: nat, i: nat {:trigger ActedAt(s, t, k, i), ActedAt(s, u, m, i)} ::
      ActedAt(s, t, k, i) && ActedAt(s, u, m, i) ==> t == u && k == m
  }

  lemma FittingStep(s: State, l: Label)
    requires Fitting(s) && Enabled(s, l)
    ensures Fitting(Next(s, l))
  {
  }

  lemma CoveredStep(s: State, l: Label)
    requires Covered(s) && Enabled(s, l)
    ensures Covered(Next(s, l))
  {
    var n := Next(s, l);
    forall i: nat | i < n.taken
      ensures Acted(n, i)
    {
      if i < s.taken {
        assert Acted(s, i);
        var t: nat, k: nat :| ActedAt(s, t, k, i);
        assert ActedAt(n, t, k, i);
      } else {
        assert ActedAt(n, l.taker, |s.takers[l.taker].actions|, i);
      }
    }
  }

  lemma OldOrNew(s: State, l: Label, t: nat, k: nat, i: nat)
    requires Fitting(s) && Enabled(s, l) && ActedAt(Next(s, l), t, k, i)
    ensures if i < s.taken then ActedAt(s, t, k, i)
            else l.Take? && t == l.taker && k == |s.takers[t].actions|
  {
    if t < |s.takers| && k < |s.takers[t].actions| {
      assert s.takers[t].actions[k].index < s.taken;
    }
  }

  lemma UniqueStep(s: State, l: Label)
    requires Fitting(s) && Unique(s) && Enabled(s, l)
    ensures Unique(Next(s, l))
  {
    var n := Next(s, l);
    forall t: nat, k: nat, u: nat, m: nat, i: nat | ActedAt(n, t, k, i) && ActedAt(n, u, m, i)
      ensures t == u && k == m
    {
      OldOrNew(s, l, t, k, i);
      OldOrNew(s, l, u, m, i);
    }
  }

  /** In every run the handlers partition a prefix of the shared queue: each request taken so far was acted on by
      exactly one handler, exactly once, with one keepalive attempt to that handler's client, or one refusal
      if it wanted a reply; requests beyond were acted on by none. */
  lemma Partitioned(s: State, i: nat)
    requires CONNECTION.Reaches(INITIAL, s)
    ensures Acted(s, i) <==> i < s.taken
    ensures s.taken <= |s.queue|
    ensures forall t: nat, k: nat, u: nat, m: nat {:trigger ActedAt(s, t, k, i), ActedAt(s, u, m, i)} ::
              ActedAt(s, t, k, i) && ActedAt(s, u, m, i) ==> t == u && k == m
    ensures forall t: nat, k: nat {:trigger ActedAt(s, t, k, i)} :: ActedAt(s, t, k, i) ==>
              s.takers[t].actions[k] == if "keepalive" <= s.queue[i].kind then KeepAliveSent(i)
                                        else if s.queue[i].wantReply then Refused(i) else Ignored(i)
  {
    var inv := (s: State) => Fitting(s) && Covered(s) && Unique(s);
    forall s, l | inv(s) && CONNECTION.enabled(s, l)
      ensures inv(CONNECTION.next(s, l))
    {
      FittingStep(s, l);
      CoveredStep(s, l);
      UniqueStep(s, l);
    }
    CONNECTION.Invariant(inv, INITIAL, s);
    if Acted(s, i) {
      var t: nat, k: nat :| ActedAt(s, t, k, i);
      assert s.takers[t].actions[k].index < s.taken;
    }
  }

  // ---------------------------------------------------------------------------------------------------
  // A taker is a handler's view of its global requests, and the other way round
  // ---------------------------------------------------------------------------------------------------

  /** The places in the queue a taker acted on, in the order of its actions. */
  function Indices(actions: seq<Action>): seq<nat> {
    seq(|actions|, k requires 0 <= k < |actions| => actions[k].index)
  }

  lemma IndicesAppend(actions: seq<Action>, a: Action)
    ensures Indices(actions + [a]) == Indices(actions) + [a.index]
  {
  }

  /** Taker `t` of the connection is what `h`'s goroutine for global requests does. */
  predicate Projects(h: S.State, g: State, t: Taker) {
    && h.globals.queue == g.queue && h.globals.taken == g.taken && h.globals.closed == g.closed
    && h.ctxDone == g.ctxDone
    && h.globals.left == t.left && h.globals.mine == Indices(t.actions)
  }

  /** Some run of a session-channel handler projects to taker `t`. */
  ghost predicate Handled(legacyAgent: bool, g: State, t: Taker) {
    exists h :: S.HANDLER.Reaches(S.Opened(legacyAgent), h) && Projects(h, g, t)
  }

  /** What a handler sees of step `l` of the connection, when it is taker `t`, or when it is another one. */
  function Seen(g: State, l: Label, mine: bool): S.Label
    requires Enabled(g, l) && !l.Spawn?
  {
    match l
    case Arrive(r) => S.Env(S.GlobalRequest(r))
    case Close => S.Env(S.GlobalsClose)
    case ContextDone => S.Env(S.ContextDone)
    case Take(_, sent) =>
      if mine then S.TakeGlobal(sent || !S.IsKeepAlive(g.queue[g.taken])) else S.Env(S.GlobalStolen)
    case Leave(_) => S.LeaveGlobals(!g.ctxDone)
  }

  /** Taker `t` after step `l`, if that step is its own. */
  function Moved(g: State, l: Label, t: Taker, mine: bool): Taker
    requires Enabled(g, l)
  {
    if mine && l.Take? then
      Taker(S.IsKeepAlive(g.queue[g.taken]) && !l.sent, t.actions + [Act(g.queue[g.taken], g.taken)])
    else if mine && l.Leave? then t.(left := true)
    else t
  }

  lemma TakeSeen(h: S.State, g: State, l: Label, t: Taker)
    requires Projects(h, g, t) && Enabled(g, l) && l.Take? && !t.left
    ensures S.Enabled(h, Seen(g, l, true))
    ensures Projects(S.Next(h, Seen(g, l, true)), Next(g, l), Moved(g, l, t, true))
  {
    IndicesAppend(t.actions, Act(g.queue[g.taken], g.taken));
  }

  lemma OtherSeen(h: S.State, g: State, l: Label, t: Taker, mine: bool)
    requires Projects(h, g, t) && Enabled(g, l) && !l.Spawn? && !(mine && l.Take?) && (mine && l.Leave? ==> !t.left)
    requires !mine ==> !l.Leave?
    ensures S.Enabled(h, Seen(g, l, mine))
    ensures Projects(S.Next(h, Seen(g, l, mine)), Next(g, l), Moved(g, l, t, mine))
  {
  }

  lemma HandledStep(legacyAgent: bool, g: State, l: Label, t: Taker, mine: bool)
    requires Handled(legacyAgent, g, t) && Enabled(g, l)
    requires mine ==> (l.Take? || l.Leave?) && !t.left
    ensures Handled(legacyAgent, Next(g, l), Moved(g, l, t, mine))
  {
    var h :| S.HANDLER.Reaches(S.Opened(legacyAgent), h) && Projects(h, g, t);
    if l.Spawn? || (l.Leave? && !mine) {
      assert Projects(h, Next(g, l), t);
    } else {
      if mine && l.Take? {
        TakeSeen(h, g, l, t);
      } else {
        OtherSeen(h, g, l, t, mine);
      }
      S.HANDLER.One(h, Seen(g, l, mine));
      S.HANDLER.Compose(S.Opened(legacyAgent), h, S.Next(h, Seen(g, l, mine)));
    }
  }

  const FRESH_TAKER := Taker(false, [])

  /** Every taker there is, and the next one to be spawned, is some handler's view. */
  ghost predicate AllHandled(legacyAgent: bool, g: State) {
    && Handled(legacyAgent, g, FRESH_TAKER)
    && forall t: nat | t < |g.takers| :: Handled(legacyAgent, g, g.takers[t])
  }

  lemma AllHandledStep(legacyAgent: bool, g: State, l: Label)
    requires AllHandled(legacyAgent, g) && Enabled(g, l)
    ensures AllHandled(legacyAgent, Next(g, l))
  {
    var n := Next(g, l);
    HandledStep(legacyAgent, g, l, FRESH_TAKER, false);
    forall t: nat | t < |n.takers|
      ensures Handled(legacyAgent, n, n.takers[t])
    {
      if t < |g.takers| {
        HandledStep(legacyAgent, g, l, g.takers[t], (l.Take? || l.Leave?) && l.taker == t);
      }
    }
  }

  lemma HandledAtFirst(legacyAgent: bool)
    ensures AllHandled(legacyAgent, INITIAL)
  {
    S.HANDLER.Stay(S.Opened(legacyAgent));
    assert Projects(S.Opened(legacyAgent), INITIAL, FRESH_TAKER);
  }

  lemma AllHandledAlways(legacyAgent: bool, g: State)
    requires CONNECTION.Reaches(INITIAL, g)
    ensures AllHandled(legacyAgent, g)
  {
    var inv := (g: State) => AllHandled(legacyAgent, g);
    forall g, l | inv(g) && CONNECTION.enabled(g, l)
      ensures inv(CONNECTION.next(g, l))
    {
      AllHandledStep(legacyAgent, g, l);
    }
    HandledAtFirst(legacyAgent);
    CONNECTION.Invariant(inv, INITIAL, g);
  }

  /** Each taker of the connection is a handler: in every run of the connection, what a taker did is what some run of
      the session-channel protocol does with the same queue, and its actions stand at increasing places. */
  lemma TakersAreHandlers(legacyAgent: bool, g: State, t: nat)
    requires CONNECTION.Reaches(INITIAL, g) && t < |g.takers|
    ensures exists h :: S.HANDLER.Reaches(S.Opened(legacyAgent), h) && Projects(h, g, g.takers[t])
    ensures forall k, m | 0 <= k < m < |g.takers[t].actions| ::
              g.takers[t].actions[k].index < g.takers[t].actions[m].index
  {
    AllHandledAlways(legacyAgent, g);
    var h :| S.HANDLER.Reaches(S.Opened(legacyAgent), h) && Projects(h, g, g.takers[t]);
    T.GlobalsAnswered(legacyAgent, h);
    assert forall k | 0 <= k < |h.globals.mine| :: h.globals.mine[k] == g.takers[t].actions[k].index;
  }

  /** The connection as one handler sees it: itself, and one taker for all the others, which never leaves. */
  ghost predicate Follows(h: S.State, g: State) {
    && CONNECTION.Reaches(INITIAL, g) && |g.takers| == 2 && !g.takers[1].left
    && Projects(h, g, g.takers[0])
  }

  /** The step of the connection behind step `l` of a handler, if it touches the global requests at all. */
  function Behind(l: S.Label): Option<Label> {
    match l
    case TakeGlobal(sent) => Some(Take(0, sent))
    case LeaveGlobals(_) => Some(Leave(0))
    case Env(GlobalRequest(r)) => Some(Arrive(r))
    case Env(GlobalStolen) => Some(Take(1, true))
    case Env(GlobalsClose) => Some(Close)
    case Env(ContextDone) => Some(ContextDone)
    case _ => None
  }

  lemma BehindMoves(h: S.State, l: S.Label, g: State)
    requires Follows(h, g) && S.Enabled(h, l) && Behind(l).Some?
    ensures Enabled(g, Behind(l).value) && |Next(g, Behind(l).value).takers| == 2
    ensures !Next(g, Behind(l).value).takers[1].left
    ensures Projects(S.Next(h, l), Next(g, Behind(l).value), Next(g, Behind(l).value).takers[0])
  {
    if l.TakeGlobal? {
      IndicesAppend(g.takers[0].actions, Act(g.queue[g.taken], g.taken));
    }
  }

  lemma BehindNothing(h: S.State, l: S.Label)
    requires S.Enabled(h, l) && Behind(l) == None
    ensures S.Next(h, l).globals == h.globals && S.Next(h, l).ctxDone == h.ctxDone
  {
  }

  lemma FollowsStep(h: S.State, l: S.Label, g: State) returns (n: State)
    requires Follows(h, g) && S.Enabled(h, l)
    ensures Follows(S.Next(h, l), n)
  {
    if Behind(l).Some? {
      BehindMoves(h, l, g);
      n := Next(g, Behind(l).value);
      CONNECTION.One(g, Behind(l).value);
      CONNECTION.Compose(INITIAL, g, n);
    } else {
      BehindNothing(h, l);
      n := g;
    }
  }

  lemma TwoTakers() returns (g: State)
    ensures CONNECTION.Reaches(INITIAL, g) && g == INITIAL.(takers := [FRESH_TAKER, FRESH_TAKER])
  {
    CONNECTION.One(INITIAL, Spawn);
    var one := Next(INITIAL, Spawn);
    CONNECTION.One(one, Spawn);
    g := Next(one, Spawn);
    CONNECTION.Compose(INITIAL, one, g);
    assert [FRESH_TAKER] + [FRESH_TAKER] == [FRESH_TAKER, FRESH_TAKER];
  }

  /** Each handler is a taker: in every run of the session-channel protocol, what the handler does with the shared
      queue is what one taker does in a run of the connection, so that `Partitioned` speaks of handlers. */
  lemma HandlersAreTakers(legacyAgent: bool, h: S.State)
    requires S.HANDLER.Reaches(S.Opened(legacyAgent), h)
    ensures exists g :: CONNECTION.Reaches(INITIAL, g) && 0 < |g.takers| && Projects(h, g, g.takers[0])
  {
    var inv := (h: S.State) => exists g :: Follows(h, g);
    forall h, l | inv(h) && S.HANDLER.enabled(h, l)
      ensures inv(S.HANDLER.next(h, l))
    {
      var g :| Follows(h, g);
      var n := FollowsStep(h, l, g);
    }
    var start := TwoTakers();
    assert Follows(S.Opened(legacyAgent), start);
    S.HANDLER.Invariant(inv, S.Opened(legacyAgent), h);
    var g :| Follows(h, g);
  }
}
