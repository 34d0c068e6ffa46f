/** One direction of channel-request relaying (RFC 4254, section 5.4): take the next request of one side, send it
    to the other, and hand the answer back when the sender asked for one.
 */
module RequestRelay {

  datatype Request = Request(kind: string, wantReply: bool, payload: string)

  /** What `SendRequest` gave back: an error, or the peer's answer. */
  datatype Outcome = Failed | Answered(ok: bool)

  /** A reply attempt for the request taken `index`-th. */
  datatype Reply = Reply(index: nat, ok: bool)

  datatype Mode =
    | Looping
    | Awaiting
    | Replying(ok: bool)
    | Triggering
    | Left(byClose: bool)

  /** `queue` is everything ever sent by the requesting side, `taken` how much of it the loop has received.
      `triggers` marks the client's side, whose pty-req, exec and subsystem requests start the pipe. */
  datatype Relay = Relay(triggers: bool, queue: seq<Request>, taken: nat, closed: bool, mode: Mode,
                         outcomes: seq<Outcome>, replies: seq<Reply>)

  datatype Step =
    | Receive
    | Return(outcome: Outcome)
    | SendReply
    | Leave(byClose: bool)

  function Fresh(triggers: bool): Relay {
    Relay(triggers, [], 0, false, Looping, [], [])
  }

  predicate IsTrigger(r: Request) {
    r.kind == "pty-req" || r.kind == "exec" || r.kind == "subsystem"
  }

  predicate Enabled(r: Relay, ctxDone: bool, step: Step) {
    match step
    case Receive => r.mode.Looping? && r.taken < |r.queue|
    case Return(_) => r.mode.Awaiting?
    case SendReply => r.mode.Replying?
    case Leave(byClose) => r.mode.Looping? && if byClose then r.closed && r.taken == |r.queue| else ctxDone
  }

  /** Where the loop goes once a request was forwarded and, if need be, answered. */
  function Settled(r: Relay): Mode {
    if r.triggers && 0 < r.taken <= |r.queue| && IsTrigger(r.queue[r.taken - 1]) then Triggering else Looping
  }

  predicate CurrentWantsReply(r: Relay) {
    0 < r.taken <= |r.queue| && r.queue[r.taken - 1].wantReply
  }

  function Next(r: Relay, step: Step): Relay {
    match step
    case Receive => r.(taken := r.taken + 1, mode := Awaiting)
    case Return(outcome) =>
      r.(outcomes := r.outcomes + [outcome],
         mode := if outcome.Failed? then Looping
                 else if CurrentWantsReply(r) then Replying(outcome.ok) else Settled(r))
    case SendReply =>
      if r.mode.Replying? && 0 < r.taken
      then r.(replies := r.replies + [Reply(r.taken - 1, r.mode.ok)], mode := Settled(r))
      else r
    case Leave(byClose) => r.(mode := Left(byClose))
  }

  /** The reply attempts that the outcomes of the first requests of `queue` call for. */
  function Expected(queue: seq<Request>, outcomes: seq<Outcome>): seq<Reply>
    requires |outcomes| <= |queue|
  {
    if outcomes == [] then [] else
    var n := |outcomes| - 1;
    Expected(queue, outcomes[..n]) +
    (if queue[n].wantReply && outcomes[n].Answered? then [Reply(n, outcomes[n].ok)] else [])
  }

  /** Exactly one reply for each want-reply request that was forwarded, with the peer's answer; none for the
      others; in the order of the requests. */
  lemma {:induction false} ExpectedMeans(queue: seq<Request>, outcomes: seq<Outcome>)
    requires |outcomes| <= |queue|
    ensures forall k | 0 <= k < |Expected(queue, outcomes)| ::
              var r := Expected(queue, outcomes)[k];
              r.index < |outcomes| && queue[r.index].wantReply && outcomes[r.index] == Answered(r.ok)
    ensures forall i: nat | i < |outcomes| && queue[i].wantReply && outcomes[i].Answered? ::
              Reply(i, outcomes[i].ok) in Expected(queue, outcomes)
    ensures forall k, m | 0 <= k < m < |Expected(queue, outcomes)| ::
              Expected(queue, outcomes)[k].index < Expected(queue, outcomes)[m].index
  {
    if outcomes != [] {
      var n := |outcomes| - 1;
      ExpectedMeans(queue, outcomes[..n]);
    }
  }

  lemma {:induction false} ExpectedIgnoresArrivals(queue: seq<Request>, more: seq<Request>, outcomes: seq<Outcome>)
    requires |outcomes| <= |queue|
    ensures Expected(queue + more, outcomes) == Expected(queue, outcomes)
  {
    if outcomes != [] {
      ExpectedIgnoresArrivals(queue, more, outcomes[..|outcomes| - 1]);
    }
  }

  /** The outcomes whose replies, if any are due, have been sent. */
  function Answers(r: Relay): seq<Outcome> {
    if r.mode.Replying? && r.outcomes != [] then r.outcomes[..|r.outcomes| - 1] else r.outcomes
  }

  ghost predicate Ok(r: Relay) {
    && r.taken <= |r.queue|
    && |r.outcomes| + (if r.mode.Awaiting? then 1 else 0) == r.taken
    && (r.mode.Replying? ==> 0 < r.taken && r.queue[r.taken - 1].wantReply &&
                             r.outcomes[r.taken - 1] == Answered(r.mode.ok))
    && (r.mode.Triggering? ==> r.triggers && 0 < r.taken && IsTrigger(r.queue[r.taken - 1]) &&
                               r.outcomes[r.taken - 1].Answered?)
    && (r.mode.Left? && r.mode.byClose ==> r.closed && r.taken == |r.queue|)
    && r.replies == Expected(r.queue, Answers(r))
  }

  lemma OkReturn(r: Relay, outcome: Outcome)
    requires Ok(r) && r.mode.Awaiting?
    ensures Ok(Next(r, Return(outcome)))
  {
    var t := Next(r, Return(outcome));
    assert t.outcomes[..|t.outcomes| - 1] == r.outcomes;
  }

  lemma OkReply(r: Relay)
    requires Ok(r) && r.mode.Replying?
    ensures Ok(Next(r, SendReply))
  {
    var t := Next(r, SendReply);
    assert t.outcomes[|t.outcomes| - 1] == Answered(r.mode.ok);
  }

  lemma OkStep(r: Relay, ctxDone: bool, step: Step)
    requires Ok(r) && Enabled(r, ctxDone, step)
    ensures Ok(Next(r, step))
  {
    if step.Return? {
      OkReturn(r, step.outcome);
    } else if step.SendReply? {
      OkReply(r);
    }
  }

  /** One request from the queue to its end: taken, answered by `outcome`, and replied to if the peer answered and the
      sender wants to know. */
  function Served(r: Relay, outcome: Outcome): Relay
    requires r.taken < |r.queue|
  {
    r.(taken := r.taken + 1, outcomes := r.outcomes + [outcome],
       replies := r.replies + if r.queue[r.taken].wantReply && outcome.Answered?
                              then [Reply(r.taken, outcome.ok)] else [])
  }

  lemma ServedOk(r: Relay, outcome: Outcome)
    requires Ok(r) && r.mode.Looping? && r.taken < |r.queue|
    ensures Ok(Served(r, outcome))
  {
    assert (r.outcomes + [outcome])[..|r.outcomes|] == r.outcomes;
  }

  /** The rest of the queue, each request with its answer, and out of the loop. */
  function Drained(r: Relay, answers: seq<Outcome>): Relay
    requires r.taken + |answers| == |r.queue|
    decreases |answers|
  {
    if answers == [] then Next(r, Leave(true)) else Drained(Served(r, answers[0]), answers[1..])
  }

  lemma FirstAndRest(done: seq<Outcome>, answers: seq<Outcome>)
    requires answers != []
    ensures (done + [answers[0]]) + answers[1..] == done + answers
  {
  }

  lemma LeaveOk(r: Relay)
    requires Ok(r) && r.mode.Looping? && r.closed && r.taken == |r.queue|
    ensures Ok(Next(r, Leave(true)))
  {
    OkStep(r, false, Leave(true));
  }

  lemma {:induction false} DrainedOk(r: Relay, answers: seq<Outcome>)
    requires Ok(r) && r.mode.Looping? && r.closed && |answers| == |r.queue| - r.taken
    ensures Ok(Drained(r, answers)) && Drained(r, answers).mode == Left(true)
    ensures Drained(r, answers).queue == r.queue && Drained(r, answers).outcomes == r.outcomes + answers
    decreases |answers|
  {
    if answers == [] {
      LeaveOk(r);
      assert r.outcomes + answers == r.outcomes;
    } else {
      var served := Served(r, answers[0]);
      ServedOk(r, answers[0]);
      DrainedOk(served, answers[1..]);
      FirstAndRest(r.outcomes, answers);
    }
  }

  /** Whatever the answers, failures included, a closed queue is taken to its end, and exactly the replies that the
      answers call for are made. */
  lemma DrainedMeans(r: Relay, answers: seq<Outcome>)
    requires Ok(r) && r.mode.Looping? && r.closed && |answers| == |r.queue| - r.taken
    ensures var t := Drained(r, answers);
            && t.mode == Left(true) && t.queue == r.queue && t.taken == |r.queue|
            && t.outcomes == r.outcomes + answers && |t.outcomes| == |t.queue|
            && t.replies == Expected(t.queue, t.outcomes)
  {
    DrainedOk(r, answers);
  }

  lemma OkArrival(r: Relay, request: Request)
    requires Ok(r) && !r.closed
    ensures Ok(r.(queue := r.queue + [request]))
  {
    ExpectedIgnoresArrivals(r.queue, [request], Answers(r));
  }

  // ---------------------------------------------------------------------------------------------------
  // The pipe trigger
  // ---------------------------------------------------------------------------------------------------

  /** How many requests the loop is completely done with. */
  function Finished(r: Relay): nat {
    if (r.mode.Awaiting? || r.mode.Replying? || r.mode.Triggering?) && 0 < r.taken then r.taken - 1 else r.taken
  }

  /** A triggering request was relayed successfully and the loop has passed its trigger. */
  ghost predicate Triggered(r: Relay) {
    exists i: nat :: i < Finished(r) && i < |r.queue| && i < |r.outcomes| &&
                     IsTrigger(r.queue[i]) && r.outcomes[i].Answered?
  }

  lemma TriggeredStep(r: Relay, ctxDone: bool, step: Step)
    requires Ok(r) && r.triggers && Enabled(r, ctxDone, step)
    ensures Triggered(Next(r, step)) <==> Triggered(r)
  {
    var t := Next(r, step);
    if Triggered(r) {
      var i: nat :| i < Finished(r) && i < |r.queue| && i < |r.outcomes| &&
                    IsTrigger(r.queue[i]) && r.outcomes[i].Answered?;
      assert i < Finished(t) && t.outcomes[i] == r.outcomes[i];
    }
  }

  lemma TriggeredArrival(r: Relay, t: Relay)
    requires Ok(r) && r.queue <= t.queue && r.taken == t.taken && r.mode == t.mode && r.outcomes == t.outcomes
    ensures Triggered(t) <==> Triggered(r)
  {
    assert forall i | 0 <= i < |r.queue| :: t.queue[i] == r.queue[i];
  }

  /** Passing the trigger is what makes a relay triggered. */
  lemma TriggeredByTrigger(r: Relay)
    requires Ok(r) && r.mode.Triggering?
    ensures Triggered(r.(mode := Looping))
  {
    assert IsTrigger(r.queue[r.taken - 1]);
  }

  /** Work left: a natural number that every step of the loop lowers. */
  function Work(r: Relay): nat {
    5 * (if r.taken <= |r.queue| then |r.queue| - r.taken else 0) +
    match r.mode
    case Left(_) => 0
    case Looping => 1
    case Triggering => 2
    case Replying(_) => 3
    case Awaiting => 4
  }

  lemma WorkDecreases(r: Relay, ctxDone: bool, step: Step)
    requires Ok(r) && Enabled(r, ctxDone, step)
    ensures Work(Next(r, step)) < Work(r)
  {
  }
}
