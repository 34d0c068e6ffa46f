/** The agent's listener goroutine, its ping goroutine, and the goroutine of `Listen` itself, coupled by an unbuffered
    channel of booleans and a closed flag. The ticker has the semantics of Go 1.23: after `Stop` or `Reset` no
    earlier tick is delivered. The boolean channel is made before the first send.
 */
module Listener {
  import opened Machines

  /** The listener goroutine: the loop's test, dialling, the pause after a failed dial, sending true, serving,
      sending false, and gone. */
  datatype ListenPc = Check | Dialling | Pausing | SendTrue | Serving | SendFalse | Gone

  /** `ping`: waiting for the first connection, the loop's test, the select, authorising, returned. */
  datatype PingPc = AwaitFirst | Top | Selecting | Authorizing | Stopped

  datatype Event = Signal(up: bool) | Authorize

  datatype State = State(
    closed: bool,         // the agent's flag
    tunnelClosed: bool,   // the tunnel's server was closed, so serving cannot go on
    parentDone: bool,     // the caller's context
    cancelled: bool,      // the derived context
    returned: bool,       // `Listen` has returned
    listen: ListenPc,
    ping: PingPc,
    ticking: bool,
    log: seq<Event>)

  const INITIAL := State(false, false, false, false, false, Check, AwaitFirst, false, [])

  datatype Label =
    | CheckClosed                // top of the listener's loop
    | DialReturns(ok: bool)
    | PauseEnds
    | ServeEnds
    | Rendezvous                 // a send of the listener received by `ping`
    | PingTop                    // top of `ping`'s loop
    | Tick
    | AuthorizeEnds
    | PingContext
    | ListenReturns              // `<-ctx.Done()`, then `Close`
    | StoreClosed                // `Close` called from outside: first the flag, then the tunnel
    | CloseTunnel
    | ParentCancels

  predicate Sending(s: State) {
    s.listen.SendTrue? || s.listen.SendFalse?
  }

  predicate Enabled(s: State, l: Label) {
    match l
    case CheckClosed => s.listen.Check?
    case DialReturns(_) => s.listen.Dialling?
    case PauseEnds => s.listen.Pausing?
    case ServeEnds => s.listen.Serving?
    case Rendezvous => Sending(s) && (s.ping.AwaitFirst? || s.ping.Selecting?)
    case PingTop => s.ping.Top?
    case Tick => s.ping.Selecting? && s.ticking
    case AuthorizeEnds => s.ping.Authorizing?
    case PingContext => s.ping.Selecting? && s.parentDone
    case ListenReturns => !s.returned && (s.cancelled || s.parentDone)
    case StoreClosed => !s.closed
    case CloseTunnel => s.closed && !s.tunnelClosed
    case ParentCancels => !s.parentDone
  }

  function Next(s: State, l: Label): State {
    if !Enabled(s, l) then s else
    match l
    case CheckClosed => if s.closed then s.(cancelled := true, listen := Gone) else s.(listen := Dialling)
    case DialReturns(ok) => s.(listen := if ok then SendTrue else Pausing)
    case PauseEnds => s.(listen := Check)
    case ServeEnds => s.(listen := SendFalse)
    case Rendezvous =>
      var up := s.listen.SendTrue?;
      s.(listen := if up then Serving else Check, ping := Top, log := s.log + [Signal(up)],
         ticking := s.ping.AwaitFirst? || up)
    case PingTop => s.(ping := if s.closed then Stopped else Selecting)
    case Tick => s.(ping := Authorizing, log := s.log + [Authorize])
    case AuthorizeEnds => s.(ping := Top, ticking := true)
    case PingContext => s.(ping := Stopped)
    case ListenReturns => s.(returned := true, closed := true, tunnelClosed := true)
    case StoreClosed => s.(closed := true)
    case CloseTunnel => s.(tunnelClosed := true)
    case ParentCancels => s.(parentDone := true)
  }

  const AGENT := Machine(Enabled, Next)

  /** The runs in which the caller's context is never cancelled. */
  const UNCANCELLED := Machine((s, l) => Enabled(s, l) && !l.ParentCancels?, Next)

  // ---------------------------------------------------------------------------------------------------
  // Ping agrees with the listener
  // ---------------------------------------------------------------------------------------------------

  /** The values `ping` has received, in order. */
  function Signals(log: seq<Event>): seq<bool> {
    if log == [] then [] else
    Signals(log[..|log| - 1]) + if log[|log| - 1].Signal? then [log[|log| - 1].up] else []
  }

  ghost predicate Alternating(signals: seq<bool>) {
    forall i | 0 <= i < |signals| :: signals[i] <==> i % 2 == 0
  }

  /** The last value received was true. */
  predicate Up(log: seq<Event>) {
    Signals(log) != [] && Signals(log)[|Signals(log)| - 1]
  }

  ghost predicate Inv(s: State) {
    && Alternating(Signals(s.log))
    && (s.listen.Serving? || s.listen.SendFalse? <==> Up(s.log))
    && (s.ping.AwaitFirst? <==> Signals(s.log) == [])
    && (s.ticking <==> Up(s.log))
    && (s.ping.Authorizing? ==> s.ticking)
    && (forall i | 0 <= i < |s.log| && s.log[i].Authorize? :: Up(s.log[..i]))
    && (s.listen.Gone? <==> s.cancelled)
    && (s.cancelled || s.returned ==> s.closed)
  }

  lemma SignalsAppend(log: seq<Event>, e: Event)
    ensures Signals(log + [e]) == Signals(log) + if e.Signal? then [e.up] else []
    ensures (log + [e])[..|log|] == log
  {
    assert (log + [e])[..|log + [e]| - 1] == log;
  }

  lemma AuthorizedAppend(log: seq<Event>, e: Event)
    requires forall i | 0 <= i < |log| && log[i].Authorize? :: Up(log[..i])
    requires e.Authorize? ==> Up(log)
    ensures forall i | 0 <= i < |log + [e]| && (log + [e])[i].Authorize? :: Up((log + [e])[..i])
  {
    forall i | 0 <= i < |log + [e]| && (log + [e])[i].Authorize?
      ensures Up((log + [e])[..i])
    {
      assert (log + [e])[..i] == log[..i];
      assert log[..|log|] == log;
    }
  }

  lemma AlternatingAppend(log: seq<Event>, up: bool)
    requires Alternating(Signals(log)) && up != Up(log)
    ensures Alternating(Signals(log + [Signal(up)])) && (Up(log + [Signal(up)]) <==> up)
    ensures Signals(log + [Signal(up)]) != []
  {
    SignalsAppend(log, Signal(up));
    var n := |Signals(log)|;
    assert Up(log) <==> n > 0 && (n - 1) % 2 == 0;
  }

  lemma InvRendezvous(s: State)
    requires Inv(s) && Enabled(s, Rendezvous)
    ensures Inv(Next(s, Rendezvous))
  {
    AlternatingAppend(s.log, s.listen.SendTrue?);
    AuthorizedAppend(s.log, Signal(s.listen.SendTrue?));
  }

  lemma InvTick(s: State)
    requires Inv(s) && Enabled(s, Tick)
    ensures Inv(Next(s, Tick))
  {
    SignalsAppend(s.log, Authorize);
    AuthorizedAppend(s.log, Authorize);
    assert Signals(s.log + [Authorize]) == Signals(s.log);
  }

  lemma InvStep(s: State, l: Label)
    requires Inv(s) && Enabled(s, l)
    ensures Inv(Next(s, l))
  {
    if l.Rendezvous? {
      InvRendezvous(s);
    } else if l.Tick? {
      InvTick(s);
    } else {
      assert Next(s, l).log == s.log;
    }
  }

  lemma AgentInvariant(s: State)
    requires AGENT.Reaches(INITIAL, s)
    ensures Inv(s)
  {
    forall s, l | Inv(s) && AGENT.enabled(s, l)
      ensures Inv(AGENT.next(s, l))
    {
      InvStep(s, l);
    }
    AGENT.Invariant(Inv, INITIAL, s);
  }

  /** In every run the values `ping` receives alternate, starting with true; the ticker runs exactly while the last of
      them was true; and `ping` authorises only then, never between a false and the next true. */
  lemma PingFollowsListener(s: State)
    requires AGENT.Reaches(INITIAL, s)
    ensures Alternating(Signals(s.log))
    ensures s.ticking <==> Up(s.log)
    ensures forall i | 0 <= i < |s.log| && s.log[i].Authorize? :: Up(s.log[..i])
    ensures !s.ping.AwaitFirst? ==> |Signals(s.log)| > 0 && Signals(s.log)[0]
  {
    AgentInvariant(s);
  }

  lemma OnlyTickAuthorizes(s: State, l: Label)
    requires Enabled(s, l) && !l.Tick?
    ensures Next(s, l).log != s.log + [Authorize]
  {
    var v := Signal(s.listen.SendTrue?);
    assert (s.log + [v])[|s.log|] == v && (s.log + [Authorize])[|s.log|] == Authorize;
    assert Next(s, l).log == s.log || Next(s, l).log == s.log + [v];
  }

  /** A remark: at the select an authorisation can come next exactly if the last value received was true. */
  lemma AuthorizesExactly(s: State)
    requires AGENT.Reaches(INITIAL, s) && s.ping.Selecting?
    ensures (exists l: Label :: Enabled(s, l) && Next(s, l).log == s.log + [Authorize]) <==> Up(s.log)
  {
    AgentInvariant(s);
    if s.ticking {
      assert Enabled(s, Tick) && Next(s, Tick).log == s.log + [Authorize];
    }
    forall l: Label | Enabled(s, l) && !l.Tick?
      ensures Next(s, l).log != s.log + [Authorize]
    {
      OnlyTickAuthorizes(s, l);
    }
  }

  /** A remark: at the select a tick can be taken exactly while the listener serves or, the connection being over, is
      still waiting to say so. */
  lemma TickExactly(s: State)
    requires AGENT.Reaches(INITIAL, s) && s.ping.Selecting?
    ensures Enabled(s, Tick) <==> s.listen.Serving? || s.listen.SendFalse?
  {
    AgentInvariant(s);
  }

  lemma OneMore(s: State, l: Label) returns (t: State)
    requires AGENT.Reaches(INITIAL, s) && Enabled(s, l)
    ensures t == Next(s, l) && AGENT.Reaches(INITIAL, t)
  {
    t := Next(s, l);
    AGENT.One(s, l);
    AGENT.Compose(INITIAL, s, t);
  }

  /** So `ping` may still authorise after the connection has gone: the listener has left serving, and its false has not
      been received. */
  lemma AuthorizesAfterTheEnd() returns (s: State)
    ensures AGENT.Reaches(INITIAL, s)
    ensures s.listen.SendFalse? && s.ping.Authorizing? && s.log == [Signal(true), Authorize]
  {
    AGENT.Stay(INITIAL);
    s := OneMore(INITIAL, CheckClosed);
    s := OneMore(s, DialReturns(true));
    s := OneMore(s, Rendezvous);
    s := OneMore(s, PingTop);
    s := OneMore(s, ServeEnds);
    s := OneMore(s, Tick);
  }

  // ---------------------------------------------------------------------------------------------------
  // The run behind the log
  // ---------------------------------------------------------------------------------------------------

  /** How often a step of the run is `l`. */
  function Times(labels: seq<Label>, l: Label): nat {
    if labels == [] then 0 else
    Times(labels[..|labels| - 1], l) + if labels[|labels| - 1] == l then 1 else 0
  }

  /** How often an event of the log is `e`. */
  function Logged(log: seq<Event>, e: Event): nat {
    if log == [] then 0 else Logged(log[..|log| - 1], e) + if log[|log| - 1] == e then 1 else 0
  }

  /** The event a step adds to the log, if any. */
  function EventOf(s: State, l: Label): Option<Event> {
    if l.Tick? then Some(Authorize)
    else if l.Rendezvous? then Some(Signal(s.listen.SendTrue?))
    else None
  }

  lemma LogGrowth(s: State, l: Label)
    requires Enabled(s, l)
    ensures Next(s, l).log == if EventOf(s, l).Some? then s.log + [EventOf(s, l).value] else s.log
  {
  }

  lemma LoggedNext(log: seq<Event>, more: Option<Event>, e: Event)
    ensures Logged(if more.Some? then log + [more.value] else log, e)
            == Logged(log, e) + if more == Some(e) then 1 else 0
  {
    if more.Some? {
      assert (log + [more.value])[..|log|] == log;
    }
  }

  lemma TimesNext(labels: seq<Label>, l: Label, k: Label)
    ensures Times(labels + [l], k) == Times(labels, k) + if l == k then 1 else 0
  {
    assert (labels + [l])[..|labels|] == labels;
  }

  predicate IsCounted(s: State, labels: seq<Label>) {
    && Logged(s.log, Authorize) == Times(labels, Tick)
    && Logged(s.log, Signal(true)) + (if s.listen.SendTrue? then 1 else 0) == Times(labels, DialReturns(true))
    && Logged(s.log, Signal(false)) + (if s.listen.SendFalse? then 1 else 0) == Times(labels, ServeEnds)
  }

  lemma CountedStep(s: State, labels: seq<Label>, l: Label)
    requires IsCounted(s, labels) && Enabled(s, l)
    ensures IsCounted(Next(s, l), labels + [l])
  {
    LogGrowth(s, l);
    LoggedNext(s.log, EventOf(s, l), Authorize);
    LoggedNext(s.log, EventOf(s, l), Signal(true));
    LoggedNext(s.log, EventOf(s, l), Signal(false));
    TimesNext(labels, l, Tick);
    TimesNext(labels, l, DialReturns(true));
    TimesNext(labels, l, ServeEnds);
  }

  /** Each tick that was taken authorises once; each connection made is announced to `ping` once, and its end once, the
      one now being announced excepted. */
  lemma {:induction false} LogIsTheRun(labels: seq<Label>, s: State)
    requires AGENT.Runs(INITIAL, labels, s)
    ensures Logged(s.log, Authorize) == Times(labels, Tick)
    ensures Logged(s.log, Signal(true)) + (if s.listen.SendTrue? then 1 else 0) == Times(labels, DialReturns(true))
    ensures Logged(s.log, Signal(false)) + (if s.listen.SendFalse? then 1 else 0) == Times(labels, ServeEnds)
    decreases |labels|
  {
    if labels != [] {
      var front, last := labels[..|labels| - 1], labels[|labels| - 1];
      var u := AGENT.Last(INITIAL, labels, s);
      LogIsTheRun(front, u);
      assert labels == front + [last];
      CountedStep(u, front, last);
    }
  }

  // ---------------------------------------------------------------------------------------------------
  // Why anything stops
  // ---------------------------------------------------------------------------------------------------

  /** What is set, and by which step. */
  ghost predicate Caused(s: State, labels: seq<Label>) {
    && (s.parentDone <==> ParentCancels in labels)
    && (s.returned <==> ListenReturns in labels)
    && (s.closed <==> StoreClosed in labels || ListenReturns in labels)
    && (s.tunnelClosed <==> CloseTunnel in labels || ListenReturns in labels)
    && (s.closed || s.cancelled || s.ping.Stopped? ==> StoreClosed in labels || ParentCancels in labels)
    && (s.listen.Gone? <==> s.cancelled)
    && (s.cancelled ==> s.closed)
  }

  lemma CausedStep(s: State, labels: seq<Label>, l: Label)
    requires Caused(s, labels) && Enabled(s, l)
    ensures Caused(Next(s, l), labels + [l])
  {
  }

  lemma {:induction false} CausedAlways(labels: seq<Label>, s: State)
    requires AGENT.Runs(INITIAL, labels, s)
    ensures Caused(s, labels)
    decreases |labels|
  {
    if labels != [] {
      var front, last := labels[..|labels| - 1], labels[|labels| - 1];
      var u := AGENT.Last(INITIAL, labels, s);
      CausedAlways(front, u);
      assert labels == front + [last];
      CausedStep(u, front, last);
    }
  }

  /** Nothing stops by itself. `Listen` returns, the listener goroutine ends and `ping` returns only after `Close` was
      called or the caller has cancelled, however often a dial failed or a connection ended; and a `Listen` that
      returned has closed the agent and its tunnel. */
  lemma NothingStopsAlone(labels: seq<Label>, s: State)
    requires AGENT.Runs(INITIAL, labels, s)
    ensures s.returned || s.listen.Gone? || s.ping.Stopped? ==> StoreClosed in labels || ParentCancels in labels
    ensures s.returned ==> s.closed && s.tunnelClosed
    ensures s.listen.Gone? ==> s.closed
    ensures s.closed <==> StoreClosed in labels || ListenReturns in labels
    ensures s.parentDone <==> ParentCancels in labels
  {
    CausedAlways(labels, s);
  }

  /** The next step towards a connection. */
  function Upward(s: State): Label {
    match s.listen
    case Check => CheckClosed
    case Dialling => DialReturns(true)
    case Pausing => PauseEnds
    case _ => if s.ping.Top? then PingTop else if s.ping.Authorizing? then AuthorizeEnds else Rendezvous
  }

  function Distance(s: State): nat {
    4 * (match s.listen
         case SendFalse => 5 case Pausing => 5 case Check => 4 case Dialling => 3 case SendTrue => 2
         case _ => 0) +
    match s.ping case Authorizing => 2 case Top => 1 case _ => 0
  }

  /** Neither closed nor cancelled, and so neither goroutine has ended. */
  predicate Alive(s: State) {
    !s.closed && !s.parentDone && !s.listen.Gone? && !s.ping.Stopped?
  }

  lemma UpwardStep(s: State)
    requires Alive(s) && !s.listen.Serving?
    ensures Enabled(s, Upward(s)) && !Upward(s).ParentCancels?
    ensures Alive(Next(s, Upward(s))) && Distance(Next(s, Upward(s))) < Distance(s)
  {
  }

  lemma ReachServing(s: State) returns (t: State)
    requires Alive(s)
    ensures UNCANCELLED.Reaches(s, t) && t.listen.Serving? && !t.closed
    decreases Distance(s)
  {
    if s.listen.Serving? {
      t := s;
      UNCANCELLED.Stay(s);
    } else {
      var l := Upward(s);
      UpwardStep(s);
      UNCANCELLED.One(s, l);
      t := ReachServing(Next(s, l));
      UNCANCELLED.Compose(s, Next(s, l), t);
    }
  }

  /** As long as the agent is neither closed nor cancelled it can get a connection up again, whatever has happened to
      the ones before. */
  lemma CanReconnect(s: State) returns (t: State)
    requires AGENT.Reaches(INITIAL, s) && !s.closed && !s.parentDone
    ensures UNCANCELLED.Reaches(s, t) && t.listen.Serving? && !t.closed
  {
    var labels :| AGENT.Runs(INITIAL, labels, s);
    CausedAlways(labels, s);
    t := ReachServing(s);
  }

  lemma PauseStays(s: State, l: Label)
    requires s.listen.Pausing? && Enabled(s, l) && !l.PauseEnds?
    ensures Next(s, l).listen.Pausing?
  {
  }

  lemma {:induction false} PausesAfterFailure(s: State, labels: seq<Label>, t: State)
    requires s.listen.Pausing? && AGENT.Runs(s, labels, t) && PauseEnds !in labels
    ensures t.listen.Pausing?
    decreases |labels|
  {
    if labels != [] {
      assert labels[0] in labels;
      PauseStays(s, labels[0]);
      PausesAfterFailure(Next(s, labels[0]), labels[1..], t);
    }
  }

  /** After a failed dial the listener does nothing at all until its pause has ended. */
  lemma FailedDialPauses(s: State, labels: seq<Label>, t: State)
    requires s.listen.Dialling? && AGENT.Runs(Next(s, DialReturns(false)), labels, t) && PauseEnds !in labels
    ensures t.listen.Pausing?
  {
    PausesAfterFailure(Next(s, DialReturns(false)), labels, t);
  }

  // ---------------------------------------------------------------------------------------------------
  // Shutting down
  // ---------------------------------------------------------------------------------------------------

  /** `Close` was called, and the caller's context is not cancelled. */
  predicate Closing(s: State) {
    s.closed && s.tunnelClosed && !s.parentDone
  }

  function ListenRank(pc: ListenPc): nat {
    match pc
    case Dialling => 6 case SendTrue => 5 case Serving => 4 case SendFalse => 3 case Pausing => 2
    case Check => 1 case Gone => 0
  }

  function PingRank(pc: PingPc): nat {
    match pc case AwaitFirst => 4 case Selecting => 3 case Authorizing => 2 case Top => 1 case Stopped => 0
  }

  function Work(s: State): nat {
    ListenRank(s.listen) + PingRank(s.ping) + (if s.returned then 0 else 1)
  }

  lemma ClosingStep(s: State, l: Label)
    requires Closing(s) && Enabled(s, l) && !l.ParentCancels?
    ensures Closing(Next(s, l)) && Work(Next(s, l)) < Work(s)
  {
  }

  /** The listener is blocked on one of its two sends and `ping` has already returned. */
  predicate Deadlocked(s: State) {
    Sending(s) && s.ping.Stopped?
  }

  lemma {:induction false} ClosingRun(s: State, labels: seq<Label>, t: State)
    requires Closing(s) && Inv(s) && UNCANCELLED.Runs(s, labels, t)
    ensures Closing(t) && Inv(t) && |labels| + Work(t) <= Work(s)
    decreases |labels|
  {
    if labels != [] {
      ClosingStep(s, labels[0]);
      InvStep(s, labels[0]);
      ClosingRun(Next(s, labels[0]), labels[1..], t);
    }
  }

  /** After `Close`, without a cancellation from the caller, every run is bounded; and where nothing can move while
      `Listen` has not returned, that is exactly the deadlock of a blocked send after `ping` has returned. */
  lemma ShutdownEnds(s: State, labels: seq<Label>, t: State)
    requires AGENT.Reaches(INITIAL, s) && Closing(s) && UNCANCELLED.Runs(s, labels, t)
    ensures |labels| <= Work(s)
    ensures !t.returned ==>
              ((forall l: Label | !l.ParentCancels? :: !Enabled(t, l)) <==> Deadlocked(t))
  {
    AgentInvariant(s);
    ClosingRun(s, labels, t);
    if !t.returned && !Deadlocked(t) {
      var l :=
        match t.listen
        case Check => CheckClosed
        case Dialling => DialReturns(true)
        case Pausing => PauseEnds
        case Serving => ServeEnds
        case Gone => ListenReturns
        case _ => if t.ping.Top? then PingTop else if t.ping.Authorizing? then AuthorizeEnds else Rendezvous;
      assert Enabled(t, l);
    }
  }

  // ---------------------------------------------------------------------------------------------------
  // Cancelled by the caller
  // ---------------------------------------------------------------------------------------------------

  lemma StoppedStays(s: State, l: Label)
    requires s.ping.Stopped? && Enabled(s, l)
    ensures Next(s, l).ping.Stopped? && Next(s, l).log == s.log
  {
    LogGrowth(s, l);
    assert !l.Tick? && !l.Rendezvous?;
  }

  lemma StoppedForever(s: State, t: State)
    requires s.ping.Stopped? && AGENT.Reaches(s, t)
    ensures t.ping.Stopped? && t.log == s.log
  {
    var inv := (u: State) => u.ping.Stopped? && u.log == s.log;
    forall u, l | inv(u) && AGENT.enabled(u, l)
      ensures inv(AGENT.next(u, l))
    {
      StoppedStays(u, l);
    }
    AGENT.Invariant(inv, s, t);
  }

  /** `ping` heeds the caller's context: once it has received the end of it, no continuation has it receive a signal, or
      authorise, again. */
  lemma PingHeedsContext(s: State, t: State)
    requires s.ping.Selecting? && s.parentDone && AGENT.Reaches(Next(s, PingContext), t)
    ensures t.ping.Stopped? && t.log == s.log
  {
    StoppedForever(Next(s, PingContext), t);
  }

  lemma CancelledStep(s: State, l: Label)
    requires s.parentDone && s.closed && s.tunnelClosed && Enabled(s, l)
    ensures Next(s, l).parentDone && Next(s, l).closed && Next(s, l).tunnelClosed && Work(Next(s, l)) < Work(s)
  {
  }

  lemma {:induction false} CancelledRun(s: State, labels: seq<Label>, t: State)
    requires s.parentDone && s.closed && s.tunnelClosed && AGENT.Runs(s, labels, t)
    ensures |labels| + Work(t) <= Work(s)
    decreases |labels|
  {
    if labels != [] {
      CancelledStep(s, labels[0]);
      CancelledRun(Next(s, labels[0]), labels[1..], t);
    }
  }

  lemma StuckWhenCancelled(s: State)
    requires Inv(s) && s.parentDone && forall l: Label :: !Enabled(s, l)
    ensures s.returned && ((s.listen.Gone? && (s.ping.Stopped? || s.ping.AwaitFirst?)) || Deadlocked(s))
  {
    assert !Enabled(s, ListenReturns) && !Enabled(s, CheckClosed) && !Enabled(s, DialReturns(true));
    assert !Enabled(s, PauseEnds) && !Enabled(s, ServeEnds) && !Enabled(s, Rendezvous);
    assert !Enabled(s, PingTop) && !Enabled(s, AuthorizeEnds) && !Enabled(s, PingContext);
  }

  /** The cancelled counterpart: where nothing can move after the caller has cancelled, `Listen` has returned, and
      either the listener is gone and `ping` stopped or never heard of a connection, or the listener is blocked on a
      send that `ping`, stopped, will not receive; and those are all the states where nothing can move. */
  lemma CancelledEnds(s: State)
    requires AGENT.Reaches(INITIAL, s) && s.parentDone
    ensures (forall l: Label :: !Enabled(s, l)) <==>
              s.returned && ((s.listen.Gone? && (s.ping.Stopped? || s.ping.AwaitFirst?)) || Deadlocked(s))
    ensures s.returned ==> forall labels, t | AGENT.Runs(s, labels, t) :: |labels| <= Work(s)
  {
    AgentInvariant(s);
    var run :| AGENT.Runs(INITIAL, run, s);
    CausedAlways(run, s);
    if s.returned {
      forall labels, t | AGENT.Runs(s, labels, t)
        ensures |labels| <= Work(s)
      {
        CancelledRun(s, labels, t);
      }
    }
    if forall l: Label :: !Enabled(s, l) {
      StuckWhenCancelled(s);
    }
  }

  // ---------------------------------------------------------------------------------------------------
  // Whether a return is possible
  // ---------------------------------------------------------------------------------------------------

  /** Where `Close` comes too late for `Listen` to return: a connection has been made that `ping` has not been told
      of, or one is up and `ping` is not at its select. */
  predicate Lost(s: State) {
    !s.returned && (s.listen.SendTrue? || ((s.listen.Serving? || s.listen.SendFalse?) && !s.ping.Selecting?))
  }

  lemma LostStep(s: State, l: Label)
    requires Inv(s) && s.closed && !s.parentDone && Lost(s) && Enabled(s, l) && !l.ParentCancels?
    ensures Next(s, l).closed && !Next(s, l).parentDone && Lost(Next(s, l))
  {
    assert Signals(s.log) == [] ==> !Up(s.log);
  }

  lemma LostForever(s: State, t: State)
    requires Inv(s) && s.closed && !s.parentDone && Lost(s) && UNCANCELLED.Reaches(s, t)
    ensures !t.returned
  {
    var inv := (s: State) => Inv(s) && s.closed && !s.parentDone && Lost(s);
    forall s, l | inv(s) && UNCANCELLED.enabled(s, l)
      ensures inv(UNCANCELLED.next(s, l))
    {
      InvStep(s, l);
      LostStep(s, l);
    }
    UNCANCELLED.Invariant(inv, s, t);
  }

  /** The next step on the way to `Listen`'s return. */
  function Homeward(s: State): Label {
    match s.listen
    case Check => CheckClosed
    case Dialling => DialReturns(false)
    case Pausing => PauseEnds
    case Serving => ServeEnds
    case Gone => ListenReturns
    case _ => Rendezvous
  }

  lemma HomewardStep(s: State)
    requires Inv(s) && s.closed && !s.parentDone && !Lost(s) && !s.returned
    ensures var l := Homeward(s);
            Enabled(s, l) && !l.ParentCancels? && Work(Next(s, l)) < Work(s)
            && Next(s, l).closed && !Next(s, l).parentDone && !Lost(Next(s, l))
  {
  }

  lemma ReachReturn(s: State) returns (t: State)
    requires Inv(s) && s.closed && !s.parentDone && !Lost(s)
    ensures t.returned && UNCANCELLED.Reaches(s, t)
    decreases Work(s)
  {
    if s.returned {
      t := s;
      UNCANCELLED.Stay(s);
    } else {
      var l := Homeward(s);
      HomewardStep(s);
      InvStep(s, l);
      UNCANCELLED.One(s, l);
      t := ReachReturn(Next(s, l));
      UNCANCELLED.Compose(s, Next(s, l), t);
    }
  }

  /** The exact condition. Once the agent is closed and unless the caller cancels, `Listen` can still return if and
      only if the state is not `Lost`. */
  lemma CanReturnExactly(s: State)
    requires AGENT.Reaches(INITIAL, s) && s.closed && !s.parentDone
    ensures (exists t :: UNCANCELLED.Reaches(s, t) && t.returned) <==> !Lost(s)
  {
    AgentInvariant(s);
    if Lost(s) {
      forall t | UNCANCELLED.Reaches(s, t)
        ensures !t.returned
      {
        LostForever(s, t);
      }
    } else {
      var t := ReachReturn(s);
    }
  }

  // ---------------------------------------------------------------------------------------------------
  // When a return is certain
  // ---------------------------------------------------------------------------------------------------

  /** Nothing is being dialled, no connection is up, and none is to be announced. */
  predicate Idle(s: State) {
    s.listen.Check? || s.listen.Pausing? || s.listen.Gone?
  }

  lemma IdleStays(s: State, l: Label)
    requires s.closed && (s.returned || Idle(s)) && Enabled(s, l)
    ensures Next(s, l).closed && (Next(s, l).returned || Idle(Next(s, l)))
  {
  }

  lemma IdleForever(s: State, t: State)
    requires s.closed && (s.returned || Idle(s)) && UNCANCELLED.Reaches(s, t)
    ensures t.returned || Idle(t)
  {
    var inv := (s: State) => s.closed && (s.returned || Idle(s));
    forall s, l | inv(s) && UNCANCELLED.enabled(s, l)
      ensures inv(UNCANCELLED.next(s, l))
    {
      IdleStays(s, l);
    }
    UNCANCELLED.Invariant(inv, s, t);
  }

  lemma InvAlong(s: State, t: State)
    requires Inv(s) && UNCANCELLED.Reaches(s, t)
    ensures Inv(t)
  {
    forall s, l | Inv(s) && UNCANCELLED.enabled(s, l)
      ensures Inv(UNCANCELLED.next(s, l))
    {
      InvStep(s, l);
    }
    UNCANCELLED.Invariant(Inv, s, t);
  }

  /** A next step on the way to the deadlock: `ping` away from its select and out of its loop, the listener on to its
      next send. */
  function Deadwards(s: State): Label {
    match s.ping
    case Top => PingTop
    case Authorizing => AuthorizeEnds
    case Stopped => if s.listen.Dialling? then DialReturns(true) else ServeEnds
    case _ => if s.listen.Dialling? then DialReturns(true) else if s.listen.SendTrue? then Rendezvous else Tick
  }

  /** In trouble: closed, not cancelled, not returned, and busy with a connection. */
  predicate Busy(s: State) {
    s.closed && !s.parentDone && !s.returned && !Idle(s)
  }

  lemma DeadwardsStep(s: State)
    requires Inv(s) && Busy(s) && !Deadlocked(s)
    ensures var l := Deadwards(s);
            Enabled(s, l) && !l.ParentCancels? && Busy(Next(s, l)) && Work(Next(s, l)) < Work(s)
  {
    assert Signals(s.log) == [] ==> !Up(s.log);
  }

  lemma ReachDeadlock(s: State) returns (t: State)
    requires Inv(s) && Busy(s)
    ensures Busy(t) && Inv(t) && Deadlocked(t) && UNCANCELLED.Reaches(s, t)
    decreases Work(s)
  {
    if Deadlocked(s) {
      t := s;
      UNCANCELLED.Stay(s);
    } else {
      var l := Deadwards(s);
      DeadwardsStep(s);
      InvStep(s, l);
      UNCANCELLED.One(s, l);
      t := ReachDeadlock(Next(s, l));
      UNCANCELLED.Compose(s, Next(s, l), t);
    }
  }

  /** Nothing but a cancellation by the caller can move anything. */
  ghost predicate Stuck(s: State) {
    forall l: Label | !l.ParentCancels? :: !Enabled(s, l)
  }

  /** A deadlock with the tunnel closed too is one where nothing moves. */
  lemma SettleDeadlock(s: State) returns (t: State)
    requires Inv(s) && Busy(s) && Deadlocked(s)
    ensures UNCANCELLED.Reaches(s, t) && Stuck(t) && !t.returned && Deadlocked(t)
  {
    if s.tunnelClosed {
      t := s;
      UNCANCELLED.Stay(s);
    } else {
      t := Next(s, CloseTunnel);
      UNCANCELLED.One(s, CloseTunnel);
    }
  }

  lemma StuckIdleHasReturned(s: State)
    requires Idle(s) && Inv(s) && Stuck(s)
    ensures s.returned
  {
    assert !Enabled(s, CheckClosed) && !Enabled(s, PauseEnds) && !Enabled(s, ListenReturns);
  }

  /** The exact condition for a sure return, one that holds or fails when the flag is set. Unless the caller cancels,
      every run after that which goes on to where nothing can move has `Listen` returned, if and only if it had
      returned already or the listener was neither dialling nor busy with a connection. */
  lemma SurelyReturnsExactly(s: State)
    requires AGENT.Reaches(INITIAL, s) && s.closed && !s.parentDone
    ensures (forall t | UNCANCELLED.Reaches(s, t) && Stuck(t) :: t.returned)
            <==> s.returned || s.listen.Check? || s.listen.Pausing? || s.listen.Gone?
    ensures (exists t :: UNCANCELLED.Reaches(s, t) && !t.returned && Deadlocked(t))
            <==> !(s.returned || s.listen.Check? || s.listen.Pausing? || s.listen.Gone?)
  {
    AgentInvariant(s);
    if Busy(s) {
      var t := ReachDeadlock(s);
      var u := SettleDeadlock(t);
      UNCANCELLED.Compose(s, t, u);
    } else {
      forall t | UNCANCELLED.Reaches(s, t)
        ensures t.returned || !Deadlocked(t)
        ensures Stuck(t) ==> t.returned
      {
        IdleForever(s, t);
        InvAlong(s, t);
        if Stuck(t) && !t.returned {
          StuckIdleHasReturned(t);
        }
      }
    }
  }

  /** So a call of `Close`, whose first act is to set the flag, is sure to let `Listen` return exactly when the listener
      stands at its loop's test or in the pause after a failed dial. */
  lemma CloseSucceedsExactly(s: State)
    requires AGENT.Reaches(INITIAL, s) && !s.closed && !s.parentDone
    ensures (forall t | UNCANCELLED.Reaches(Next(s, StoreClosed), t) && Stuck(t) :: t.returned)
            <==> s.listen.Check? || s.listen.Pausing?
  {
    AgentInvariant(s);
    var t := OneMore(s, StoreClosed);
    SurelyReturnsExactly(t);
  }

  /** `Close` while a connection is served and `ping` waits at its select: `Listen` may still return, and then again an
      authorisation at the wrong moment leaves it waiting for ever. */
  lemma CloseWhileServing() returns (s: State, t: State)
    ensures AGENT.Reaches(INITIAL, s) && Closing(s) && !Lost(s) && s.listen.Serving? && s.ping.Selecting?
    ensures UNCANCELLED.Reaches(s, t) && !t.returned && Deadlocked(t) && Stuck(t)
  {
    AGENT.Stay(INITIAL);
    s := OneMore(INITIAL, CheckClosed);
    s := OneMore(s, DialReturns(true));
    s := OneMore(s, Rendezvous);
    s := OneMore(s, PingTop);
    s := OneMore(s, StoreClosed);
    s := OneMore(s, CloseTunnel);
    AgentInvariant(s);
    var u := ReachDeadlock(s);
    t := SettleDeadlock(u);
    UNCANCELLED.Compose(s, u, t);
  }

  /** `Close` during a dial that then succeeds: `Listen` never returns. */
  lemma CloseWhileDialling() returns (s: State)
    ensures AGENT.Reaches(INITIAL, s) && Closing(s) && Lost(s)
    ensures forall t | UNCANCELLED.Reaches(s, t) :: !t.returned
  {
    AGENT.Stay(INITIAL);
    s := OneMore(INITIAL, CheckClosed);
    s := OneMore(s, StoreClosed);
    s := OneMore(s, CloseTunnel);
    s := OneMore(s, DialReturns(true));
    CanReturnExactly(s);
  }
}
