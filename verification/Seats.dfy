/** Seats: how the channel handlers of one session number themselves and register their two channels. Each named
    operation of the session is one step; handlers interleave freely.
 */
module Seats {
  import opened Machines

  datatype ChannelError = SeatAlreadySet | NotAccepted | NoAgentClient | NotOpened

  /** The session's seat counter and channel maps; a channel is known by the handler that registered it. */
  datatype Channels = Channels(next: nat, client: map<nat, nat>, agent: map<nat, nat>, agentReady: bool)

  /** The outcome of `NewClientChannel`: the seat is checked before the channel is accepted. */
  function ClientOutcome(c: Channels, seat: nat, accepted: bool): Option<ChannelError> {
    if seat in c.client then Some(SeatAlreadySet) else if !accepted then Some(NotAccepted) else None
  }

  function AgentOutcome(c: Channels, seat: nat, opens: bool): Option<ChannelError> {
    if seat in c.agent then Some(SeatAlreadySet)
    else if !c.agentReady then Some(NoAgentClient)
    else if !opens then Some(NotOpened) else None
  }

  /** A channel handler: not seated yet, seated, with its client channel, with both, or given up. */
  datatype Phase = Arrived | Seated | HasClient | HasBoth | Failed(error: ChannelError)
  datatype Handler = Handler(phase: Phase, seat: Option<nat>)

  datatype State = State(channels: Channels, handlers: seq<Handler>)

  const INITIAL := State(Channels(0, map[], map[], false), [])

  datatype Label =
    | Arrive
    | NewSeat(handler: nat)
    | NewClientChannel(handler: nat, accepted: bool)
    | NewAgentChannel(handler: nat, opens: bool)
    | AgentAuthenticated

  predicate At(s: State, h: nat, phase: Phase) {
    h < |s.handlers| && s.handlers[h].phase == phase
  }

  predicate Enabled(s: State, l: Label) {
    match l
    case NewSeat(h) => At(s, h, Arrived)
    case NewClientChannel(h, _) => At(s, h, Seated) && s.handlers[h].seat.Some?
    case NewAgentChannel(h, _) => At(s, h, HasClient) && s.handlers[h].seat.Some?
    case _ => true
  }

  function Moved(s: State, h: nat, phase: Phase): seq<Handler>
    requires h < |s.handlers|
  {
    s.handlers[h := s.handlers[h].(phase := phase)]
  }

  function Next(s: State, l: Label): State {
    if !Enabled(s, l) then s else
    var c := s.channels;
    match l
    case Arrive => s.(handlers := s.handlers + [Handler(Arrived, None)])
    case NewSeat(h) => State(c.(next := c.next + 1), s.handlers[h := Handler(Seated, Some(c.next))])
    case NewClientChannel(h, accepted) =>
      var seat := s.handlers[h].seat.value;
      (match ClientOutcome(c, seat, accepted)
       case Some(e) => s.(handlers := Moved(s, h, Failed(e)))
       case None => State(c.(client := c.client[seat := h]), Moved(s, h, HasClient)))
    case NewAgentChannel(h, opens) =>
      var seat := s.handlers[h].seat.value;
      (match AgentOutcome(c, seat, opens)
       case Some(e) => s.(handlers := Moved(s, h, Failed(e)))
       case None => State(c.(agent := c.agent[seat := h]), Moved(s, h, HasBoth)))
    case AgentAuthenticated => s.(channels := c.(agentReady := true))
  }

  const SESSION := Machine(Enabled, Next)

  /** Every seat given out is below the counter, and no two handlers have one seat. */
  ghost predicate Distinct(s: State) {
    && (forall h | 0 <= h < |s.handlers| :: s.handlers[h].seat == None <==> s.handlers[h].phase.Arrived?)
    && (forall h | 0 <= h < |s.handlers| && s.handlers[h].seat.Some? ::
          s.handlers[h].seat.value < s.channels.next)
    && (forall g, h | 0 <= g < h < |s.handlers| && s.handlers[g].seat.Some? ::
          s.handlers[g].seat != s.handlers[h].seat)
  }

  /** A map entry is the handler that holds the seat, and has got that far. */
  ghost predicate Registered(s: State) {
    && (forall k | k in s.channels.client ::
          var h := s.channels.client[k];
          h < |s.handlers| && s.handlers[h].seat == Some(k) && !s.handlers[h].phase.Seated?)
    && (forall k | k in s.channels.agent ::
          var h := s.channels.agent[k];
          h < |s.handlers| && s.handlers[h].seat == Some(k) && s.handlers[h].phase.HasBoth?)
  }

  /** A handler past its client channel is in the client map. */
  ghost predicate Listed(s: State) {
    forall h | 0 <= h < |s.handlers| && (s.handlers[h].phase.HasClient? || s.handlers[h].phase.HasBoth?) ::
      s.handlers[h].seat.Some? && s.handlers[h].seat.value in s.channels.client
  }

  ghost predicate NoClash(s: State) {
    forall h | 0 <= h < |s.handlers| :: s.handlers[h].phase != Failed(SeatAlreadySet)
  }

  ghost predicate Inv(s: State) {
    Distinct(s) && Registered(s) && Listed(s) && NoClash(s)
  }

  lemma DistinctStep(s: State, l: Label)
    requires Distinct(s) && Enabled(s, l)
    ensures Distinct(Next(s, l))
  {
  }

  lemma RegisteredClient(s: State, h: nat, accepted: bool)
    requires Distinct(s) && Registered(s) && Enabled(s, Label.NewClientChannel(h, accepted))
    ensures Registered(Next(s, Label.NewClientChannel(h, accepted)))
  {
  }

  lemma RegisteredAgent(s: State, h: nat, opens: bool)
    requires Distinct(s) && Registered(s) && Enabled(s, Label.NewAgentChannel(h, opens))
    ensures Registered(Next(s, Label.NewAgentChannel(h, opens)))
  {
  }

  lemma RegisteredOthers(s: State, l: Label)
    requires Distinct(s) && Registered(s) && Enabled(s, l) && !l.NewClientChannel? && !l.NewAgentChannel?
    ensures Registered(Next(s, l))
  {
  }

  lemma RegisteredStep(s: State, l: Label)
    requires Distinct(s) && Registered(s) && Enabled(s, l)
    ensures Registered(Next(s, l))
  {
    if l.NewClientChannel? {
      RegisteredClient(s, l.handler, l.accepted);
    } else if l.NewAgentChannel? {
      RegisteredAgent(s, l.handler, l.opens);
    } else {
      RegisteredOthers(s, l);
    }
  }

  lemma ListedStep(s: State, l: Label)
    requires Distinct(s) && Listed(s) && Enabled(s, l)
    ensures Listed(Next(s, l))
  {
  }

  lemma SeatIsFree(s: State, h: nat)
    requires Distinct(s) && Registered(s) && h < |s.handlers| && s.handlers[h].seat.Some?
    ensures s.handlers[h].phase.Seated? ==> s.handlers[h].seat.value !in s.channels.client
    ensures !s.handlers[h].phase.HasBoth? ==> s.handlers[h].seat.value !in s.channels.agent
  {
  }

  lemma NoClashStep(s: State, l: Label)
    requires Distinct(s) && Registered(s) && NoClash(s) && Enabled(s, l)
    ensures NoClash(Next(s, l))
  {
    if l.NewClientChannel? {
      SeatIsFree(s, l.handler);
    } else if l.NewAgentChannel? {
      SeatIsFree(s, l.handler);
    }
  }

  lemma SeatInvariant(s: State)
    requires SESSION.Reaches(INITIAL, s)
    ensures Inv(s)
  {
    forall s, l | Inv(s) && SESSION.enabled(s, l)
      ensures Inv(SESSION.next(s, l))
    {
      DistinctStep(s, l);
      RegisteredStep(s, l);
      ListedStep(s, l);
      NoClashStep(s, l);
    }
    SESSION.Invariant(Inv, INITIAL, s);
  }

  /** In every run all seats ever given out are distinct, the agent's channels are keyed by a subset of the client's
      keys, which lie below the counter, each channel stands under its own handler's seat, and no handler ever
      fails with `ErrSeatAlreadySet`. */
  lemma SeatDiscipline(s: State)
    requires SESSION.Reaches(INITIAL, s)
    ensures forall g, h | 0 <= g < h < |s.handlers| && s.handlers[g].seat.Some? ::
              s.handlers[g].seat != s.handlers[h].seat
    ensures s.channels.agent.Keys <= s.channels.client.Keys
    ensures forall k | k in s.channels.client ::
              k < s.channels.next && s.channels.client[k] < |s.handlers|
              && s.handlers[s.channels.client[k]].seat == Some(k)
    ensures forall k | k in s.channels.agent :: s.channels.agent[k] == s.channels.client[k]
    ensures forall h | 0 <= h < |s.handlers| :: s.handlers[h].phase != Failed(SeatAlreadySet)
  {
    SeatInvariant(s);
    forall k | k in s.channels.agent
      ensures k in s.channels.client && s.channels.agent[k] == s.channels.client[k]
    {
      var g, h := s.channels.agent[k], s.channels.client[k];
      assert s.handlers[g].seat == s.handlers[h].seat;
    }
  }

  /** When a handler's client channel is registered: exactly if the channel was accepted, and then under the handler's
      seat; the failure is the library's refusal, and nothing else changes. */
  lemma ClientChannelExactly(s: State, h: nat, accepted: bool)
    requires SESSION.Reaches(INITIAL, s) && At(s, h, Seated)
    ensures s.handlers[h].seat.Some?
    ensures var t := Next(s, Label.NewClientChannel(h, accepted));
            if accepted then
              At(t, h, HasClient)
              && t.channels == s.channels.(client := s.channels.client[s.handlers[h].seat.value := h])
            else At(t, h, Failed(NotAccepted)) && t.channels == s.channels
  {
    SeatInvariant(s);
    SeatIsFree(s, h);
  }

  /** When its agent channel is: exactly if the session is authenticated towards the agent and the agent opens one. */
  lemma AgentChannelExactly(s: State, h: nat, opens: bool)
    requires SESSION.Reaches(INITIAL, s) && At(s, h, HasClient)
    ensures s.handlers[h].seat.Some?
    ensures var t := Next(s, Label.NewAgentChannel(h, opens));
            if !s.channels.agentReady then At(t, h, Failed(NoAgentClient)) && t.channels == s.channels
            else if !opens then At(t, h, Failed(NotOpened)) && t.channels == s.channels
            else At(t, h, HasBoth)
                 && t.channels == s.channels.(agent := s.channels.agent[s.handlers[h].seat.value := h])
  {
    SeatInvariant(s);
    SeatIsFree(s, h);
  }

  /** How many handlers asked for a seat. */
  function SeatCalls(labels: seq<Label>): nat {
    if labels == [] then 0 else
    SeatCalls(labels[..|labels| - 1]) + if labels[|labels| - 1].NewSeat? then 1 else 0
  }

  lemma CountedStep(s: State, labels: seq<Label>, l: Label)
    requires s.channels.next == SeatCalls(labels) && Enabled(s, l)
    requires s.channels.agentReady <==> AgentAuthenticated in labels
    ensures Next(s, l).channels.next == SeatCalls(labels + [l])
    ensures Next(s, l).channels.agentReady <==> AgentAuthenticated in labels + [l]
  {
    assert (labels + [l])[..|labels + [l]| - 1] == labels;
  }

  /** The counter is the number of seats asked for, and the session is ready for agent channels exactly once it was
      authenticated. */
  lemma {:induction false} SessionIsItsCalls(labels: seq<Label>, s: State)
    requires SESSION.Runs(INITIAL, labels, s)
    ensures s.channels.next == SeatCalls(labels)
    ensures s.channels.agentReady <==> AgentAuthenticated in labels
    decreases |labels|
  {
    if labels != [] {
      var front, last := labels[..|labels| - 1], labels[|labels| - 1];
      var u := SESSION.Last(INITIAL, labels, s);
      SessionIsItsCalls(front, u);
      assert labels == front + [last];
      CountedStep(u, front, last);
    }
  }

  /** The session's side in its own form. */
  class SessionChannels {
    var next: nat
    var client: map<nat, nat>
    var agent: map<nat, nat>
    var agentReady: bool

    function View(): Channels
      reads this
    {
      Channels(next, client, agent, agentReady)
    }

    constructor ()
      ensures View() == INITIAL.channels
    {
      next, client, agent, agentReady := 0, map[], map[], false;
    }

    /** A seat no earlier call has returned. */
    method NewSeat() returns (seat: nat)
      modifies `next
      ensures seat == old(next) && next == seat + 1
    {
      seat := next;
      next := next + 1;
    }

    method NewClientChannel(channel: nat, seat: nat, accepted: bool) returns (error: Option<ChannelError>)
      modifies `client
      ensures error == if seat in old(client) then Some(SeatAlreadySet)
                       else if !accepted then Some(NotAccepted) else None
      ensures error == ClientOutcome(old(View()), seat, accepted)
      ensures client == if error == None then old(client)[seat := channel] else old(client)
    {
      if seat in client {
        return Some(SeatAlreadySet);
      }
      if !accepted {
        return Some(NotAccepted);
      }
      client := client[seat := channel];
      error := None;
    }

    method NewAgentChannel(channel: nat, seat: nat, opens: bool) returns (error: Option<ChannelError>)
      modifies `agent
      ensures error == if seat in old(agent) then Some(SeatAlreadySet)
                       else if !agentReady then Some(NoAgentClient)
                       else if !opens then Some(NotOpened) else None
      ensures error == AgentOutcome(old(View()), seat, opens)
      ensures agent == if error == None then old(agent)[seat := channel] else old(agent)
    {
      if seat in agent {
        return Some(SeatAlreadySet);
      }
      if !agentReady {
        return Some(NoAgentClient);
      }
      if !opens {
        return Some(NotOpened);
      }
      agent := agent[seat := channel];
      error := None;
    }
  }
}
