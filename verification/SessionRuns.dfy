/** The session-channel handler measured against what happened around it: its streams, queues and answers are those of
    the run's labels, each goroutine leaves for its own reason only, and what has to arrive arrives.
 */
module SessionRuns {
  import opened Machines
  import opened SessionChannel
  import opened SessionTheorems
  import opened SessionProgress
  import R = RequestRelay
  import B = ByteCopy

  // ---------------------------------------------------------------------------------------------------
  // What the labels say
  // ---------------------------------------------------------------------------------------------------

  /** The bytes that came on `source` before it ended. */
  function SentOn(labels: seq<Label>, source: Source): seq<B.byte> {
    if labels == [] then [] else
    var before, last := labels[..|labels| - 1], labels[|labels| - 1];
    SentOn(before, source) +
    if last.Env? && last.env.Bytes? && last.env.source == source && Env(End(source)) !in before then last.env.bytes
    else []
  }

  /** Who sends requests: the agent and the client on the channel, the agent on its connection. */
  datatype Party = Agent | Client | Connection

  function RequestsFrom(labels: seq<Label>, party: Party): seq<R.Request> {
    if labels == [] then [] else
    var last := labels[|labels| - 1];
    RequestsFrom(labels[..|labels| - 1], party) +
    if !last.Env? then []
    else match last.env
         case AgentRequest(r) => if party.Agent? then [r] else []
         case ClientRequest(r) => if party.Client? then [r] else []
         case GlobalRequest(r) => if party.Connection? then [r] else []
         case _ => []
  }

  /** What `SendRequest` gave back for the requests of one party. */
  function AnswersFor(labels: seq<Label>, party: Party): seq<R.Outcome> {
    if labels == [] then [] else
    var last := labels[|labels| - 1];
    AnswersFor(labels[..|labels| - 1], party) +
    if party.Agent? && last.AgentLoop? && last.relay.Return? then [last.relay.outcome]
    else if party.Client? && last.ClientLoop? && last.relay.Return? then [last.relay.outcome]
    else []
  }

  /** How often this handler received a global request, and how often another did. */
  function Takes(labels: seq<Label>): nat {
    if labels == [] then 0 else
    Takes(labels[..|labels| - 1]) + if labels[|labels| - 1].TakeGlobal? then 1 else 0
  }

  function Thefts(labels: seq<Label>): nat {
    if labels == [] then 0 else
    Thefts(labels[..|labels| - 1]) + if labels[|labels| - 1] == Env(GlobalStolen) then 1 else 0
  }

  // ---------------------------------------------------------------------------------------------------
  // The state is what the labels say
  // ---------------------------------------------------------------------------------------------------

  /** A stream of the state against a source of the labels. */
  predicate IsFed(stream: B.Stream, labels: seq<Label>, source: Source) {
    stream.sent == SentOn(labels, source) && (stream.closed <==> Env(End(source)) in labels)
  }

  predicate Fed(s: State, labels: seq<Label>) {
    && IsFed(s.toClient.first, labels, Stdout) && IsFed(s.toClient.second, labels, Stderr)
    && IsFed(s.toAgent.first, labels, Stdin) && IsFed(s.toAgent.second, labels, StdinExtended)
  }

  predicate Queued(s: State, labels: seq<Label>) {
    && s.agentRequests.queue == RequestsFrom(labels, Agent)
    && s.clientRequests.queue == RequestsFrom(labels, Client)
    && s.globals.queue == RequestsFrom(labels, Connection)
  }

  predicate Switched(s: State, labels: seq<Label>) {
    && (s.agentRequests.closed <==> Env(AgentRequestsClose) in labels)
    && (s.clientRequests.closed <==> Env(ClientRequestsClose) in labels)
    && (s.globals.closed <==> Env(GlobalsClose) in labels)
    && (s.ctxDone <==> Env(ContextDone) in labels)
    && (s.session.execElsewhere <==> Env(ExecElsewhere) in labels)
  }

  predicate Answered(s: State, labels: seq<Label>) {
    && s.agentRequests.outcomes == AnswersFor(labels, Agent)
    && s.clientRequests.outcomes == AnswersFor(labels, Client)
    && |s.globals.mine| == Takes(labels) && s.globals.taken == Takes(labels) + Thefts(labels)
  }

  /** What step `l` does to the stream that `source` feeds. */
  predicate Feeds(l: Label, source: Source, stream: B.Stream, next: B.Stream) {
    && next.sent == stream.sent + (if l.Env? && l.env.Bytes? && l.env.source == source && !stream.closed
                                   then l.env.bytes else [])
    && (next.closed <==> stream.closed || l == Env(End(source)))
  }

  lemma FedByStep(stream: B.Stream, labels: seq<Label>, source: Source, l: Label, next: B.Stream)
    requires IsFed(stream, labels, source) && Feeds(l, source, stream, next)
    ensures IsFed(next, labels + [l], source)
  {
    assert (labels + [l])[..|labels + [l]| - 1] == labels;
  }

  lemma AgentFeeds(s: State, e: EnvStep)
    requires EnvEnabled(s, e)
    ensures Feeds(Env(e), Stdout, s.toClient.first, NextEnv(s, e).toClient.first)
    ensures Feeds(Env(e), Stderr, s.toClient.second, NextEnv(s, e).toClient.second)
  {
  }

  lemma ClientFeeds(s: State, e: EnvStep)
    requires EnvEnabled(s, e)
    ensures Feeds(Env(e), Stdin, s.toAgent.first, NextEnv(s, e).toAgent.first)
    ensures Feeds(Env(e), StdinExtended, s.toAgent.second, NextEnv(s, e).toAgent.second)
  {
  }

  /** The goroutines send nothing on the streams they read. */
  lemma StreamsAlone(s: State, l: Label)
    requires Enabled(s, l) && !l.Env?
    ensures B.SameInput(s.toClient, Next(s, l).toClient) && B.SameInput(s.toAgent, Next(s, l).toAgent)
  {
    if l.CopyOut? {
      B.WrittenGrows(s.toClient, l.copy);
    } else if l.CopyIn? {
      B.WrittenGrows(s.toAgent, l.copy);
    } else {
      assert SameCopies(s, Next(s, l));
    }
  }

  lemma FedStep(s: State, labels: seq<Label>, l: Label)
    requires Fed(s, labels) && Enabled(s, l)
    ensures Fed(Next(s, l), labels + [l])
  {
    var t := Next(s, l);
    if l.Env? {
      AgentFeeds(s, l.env);
      ClientFeeds(s, l.env);
    } else {
      StreamsAlone(s, l);
    }
    FedByStep(s.toClient.first, labels, Stdout, l, t.toClient.first);
    FedByStep(s.toClient.second, labels, Stderr, l, t.toClient.second);
    FedByStep(s.toAgent.first, labels, Stdin, l, t.toAgent.first);
    FedByStep(s.toAgent.second, labels, StdinExtended, l, t.toAgent.second);
  }

  lemma QueuesAlone(s: State, l: Label)
    requires Enabled(s, l) && !l.Env?
    ensures Next(s, l).agentRequests.queue == s.agentRequests.queue
    ensures Next(s, l).clientRequests.queue == s.clientRequests.queue
    ensures Next(s, l).globals.queue == s.globals.queue
  {
  }

  lemma QueuedStep(s: State, labels: seq<Label>, l: Label)
    requires Queued(s, labels) && Enabled(s, l)
    ensures Queued(Next(s, l), labels + [l])
  {
    assert (labels + [l])[..|labels + [l]| - 1] == labels;
    if !l.Env? {
      QueuesAlone(s, l);
    }
  }

  lemma EndsAlone(s: State, l: Label)
    requires Enabled(s, l) && !l.Env?
    ensures Next(s, l).agentRequests.closed == s.agentRequests.closed
    ensures Next(s, l).clientRequests.closed == s.clientRequests.closed
    ensures Next(s, l).globals.closed == s.globals.closed
  {
    if l.AgentLoop? || l.ClientLoop? {
      LoopsKeepQueues(s, l);
      OthersKeepGlobals(s, l);
    } else {
      OthersKeepQueues(s, l);
      if l.TakeGlobal? || l.LeaveGlobals? {
        GlobalsStayClosed(s, l);
      } else {
        OthersKeepGlobals(s, l);
      }
    }
  }

  lemma MarksAlone(s: State, l: Label)
    requires Enabled(s, l) && !l.Env?
    ensures Next(s, l).ctxDone == s.ctxDone && Next(s, l).session.execElsewhere == s.session.execElsewhere
  {
  }

  lemma SwitchedStep(s: State, labels: seq<Label>, l: Label)
    requires Switched(s, labels) && Enabled(s, l)
    ensures Switched(Next(s, l), labels + [l])
  {
    if !l.Env? {
      EndsAlone(s, l);
      MarksAlone(s, l);
    }
  }

  lemma AnsweredLoops(s: State, l: Label)
    requires Enabled(s, l)
    ensures Next(s, l).agentRequests.outcomes
            == s.agentRequests.outcomes + if l.AgentLoop? && l.relay.Return? then [l.relay.outcome] else []
    ensures Next(s, l).clientRequests.outcomes
            == s.clientRequests.outcomes + if l.ClientLoop? && l.relay.Return? then [l.relay.outcome] else []
  {
    if l.Env? {
      EnvRelays(s, l.env);
    }
  }

  lemma AnsweredGlobals(s: State, l: Label)
    requires Enabled(s, l)
    ensures |Next(s, l).globals.mine| == |s.globals.mine| + if l.TakeGlobal? then 1 else 0
    ensures Next(s, l).globals.taken
            == s.globals.taken + if l.TakeGlobal? || l == Env(GlobalStolen) then 1 else 0
  {
  }

  lemma AnsweredStep(s: State, labels: seq<Label>, l: Label)
    requires Answered(s, labels) && Enabled(s, l)
    ensures Answered(Next(s, l), labels + [l])
  {
    assert (labels + [l])[..|labels + [l]| - 1] == labels;
    AnsweredLoops(s, l);
    AnsweredGlobals(s, l);
  }

  /** In every run the four streams hold exactly the bytes that came from their own source before its end, the queues
      exactly the requests that were sent, the answers exactly what `SendRequest` gave back, and everything is
      closed, done or marked exactly if its own step occurred. */
  lemma {:induction false} RunIsRead(legacyAgent: bool, labels: seq<Label>, s: State)
    requires HANDLER.Runs(Opened(legacyAgent), labels, s)
    ensures Fed(s, labels) && Queued(s, labels) && Switched(s, labels) && Answered(s, labels)
    decreases |labels|
  {
    if labels != [] {
      var front, last := labels[..|labels| - 1], labels[|labels| - 1];
      var u := HANDLER.Last(Opened(legacyAgent), labels, s);
      RunIsRead(legacyAgent, front, u);
      assert labels == front + [last];
      FedStep(u, front, last);
      QueuedStep(u, front, last);
      SwitchedStep(u, front, last);
      AnsweredStep(u, front, last);
    }
  }

  // ---------------------------------------------------------------------------------------------------
  // Why a goroutine leaves
  // ---------------------------------------------------------------------------------------------------

  /** A request loop that was not left because its queue was closed and empty was left because the context was done. */
  predicate LeftForContext(s: State) {
    && (s.agentRequests.mode == R.Left(false) ==> s.ctxDone)
    && (s.clientRequests.mode == R.Left(false) ==> s.ctxDone)
  }

  lemma LeftForContextStep(s: State, l: Label)
    requires LeftForContext(s) && Enabled(s, l)
    ensures LeftForContext(Next(s, l))
  {
    if l.Env? {
      EnvRelays(s, l.env);
      assert s.ctxDone ==> NextEnv(s, l.env).ctxDone;
    } else {
      ContextStaysDone(s, l);
    }
  }

  lemma LeftForContextAlways(legacyAgent: bool, s: State)
    requires HANDLER.Reaches(Opened(legacyAgent), s)
    ensures LeftForContext(s)
  {
    forall s, l | LeftForContext(s) && HANDLER.enabled(s, l)
      ensures LeftForContext(HANDLER.next(s, l))
    {
      LeftForContextStep(s, l);
    }
    HANDLER.Invariant(LeftForContext, Opened(legacyAgent), s);
  }

  /** The global-request goroutine has left, and why. */
  ghost predicate GlobalsLeft(s: State, labels: seq<Label>) {
    && (TakeGlobal(false) in labels ==> s.globals.left)
    && (s.globals.left ==> TakeGlobal(false) in labels || s.ctxDone
                           || (s.globals.closed && s.globals.taken == |s.globals.queue|))
  }

  lemma LeaveFrame(s: State, l: Label)
    requires Enabled(s, l) && !l.TakeGlobal? && !l.LeaveGlobals?
    ensures s.ctxDone ==> Next(s, l).ctxDone
    ensures Next(s, l).globals.left == s.globals.left
    ensures s.globals.closed && s.globals.taken == |s.globals.queue| ==> Next(s, l).globals == s.globals
  {
    if !l.Env? {
      ContextStaysDone(s, l);
      OthersKeepGlobals(s, l);
    }
  }

  lemma GlobalsLeftStep(s: State, labels: seq<Label>, l: Label)
    requires GlobalsLeft(s, labels) && Enabled(s, l)
    ensures GlobalsLeft(Next(s, l), labels + [l])
  {
    if !l.TakeGlobal? && !l.LeaveGlobals? {
      LeaveFrame(s, l);
    }
  }

  lemma {:induction false} GlobalsLeftAlways(legacyAgent: bool, labels: seq<Label>, s: State)
    requires HANDLER.Runs(Opened(legacyAgent), labels, s)
    ensures GlobalsLeft(s, labels)
    decreases |labels|
  {
    if labels != [] {
      var front, last := labels[..|labels| - 1], labels[|labels| - 1];
      var u := HANDLER.Last(Opened(legacyAgent), labels, s);
      GlobalsLeftAlways(legacyAgent, front, u);
      assert labels == front + [last];
      GlobalsLeftStep(u, front, last);
    }
  }

  /** Each loop is left for its own reasons only. A request loop: the context was done, or its requests had ended and it
      had taken every one. The global-request loop: the same, or an attempt to forward a keepalive failed, and
      then always. No failure of another request, and no answer, ends a loop. */
  lemma LoopsLeaveOnly(legacyAgent: bool, labels: seq<Label>, s: State)
    requires HANDLER.Runs(Opened(legacyAgent), labels, s)
    ensures s.agentRequests.mode.Left? ==>
              Env(ContextDone) in labels
              || (Env(AgentRequestsClose) in labels && s.agentRequests.taken == |RequestsFrom(labels, Agent)|)
    ensures s.clientRequests.mode.Left? ==>
              Env(ContextDone) in labels
              || (Env(ClientRequestsClose) in labels && s.clientRequests.taken == |RequestsFrom(labels, Client)|)
    ensures s.globals.left ==>
              Env(ContextDone) in labels || TakeGlobal(false) in labels
              || (Env(GlobalsClose) in labels && s.globals.taken == |RequestsFrom(labels, Connection)|)
    ensures TakeGlobal(false) in labels ==> s.globals.left
  {
    assert HANDLER.Reaches(Opened(legacyAgent), s);
    HandlerInvariant(legacyAgent, s);
    LeftForContextAlways(legacyAgent, s);
    GlobalsLeftAlways(legacyAgent, labels, s);
    RunIsRead(legacyAgent, labels, s);
  }

  lemma LeftLoopsStay(s: State, l: Label)
    requires Enabled(s, l)
    ensures s.agentRequests.mode.Left? ==>
              Next(s, l).agentRequests.mode == s.agentRequests.mode
              && Next(s, l).agentRequests.taken == s.agentRequests.taken
    ensures s.clientRequests.mode.Left? ==>
              Next(s, l).clientRequests.mode == s.clientRequests.mode
              && Next(s, l).clientRequests.taken == s.clientRequests.taken
  {
    if l.Env? {
      EnvRelays(s, l.env);
    }
  }

  lemma LeftGlobalsStay(s: State, l: Label)
    requires Enabled(s, l) && s.globals.left
    ensures Next(s, l).globals.left && Next(s, l).globals.mine == s.globals.mine
  {
    if !l.Env? {
      OthersKeepGlobals(s, l);
    }
  }

  /** And it is left for good: what it has not received by then it never does. */
  lemma LeftForGood(s: State, t: State)
    requires HANDLER.Reaches(s, t)
    ensures s.agentRequests.mode.Left? ==>
              t.agentRequests.mode.Left? && t.agentRequests.taken == s.agentRequests.taken
    ensures s.clientRequests.mode.Left? ==>
              t.clientRequests.mode.Left? && t.clientRequests.taken == s.clientRequests.taken
    ensures s.globals.left ==> t.globals.left && t.globals.mine == s.globals.mine
  {
    var inv := (u: State) =>
      && (s.agentRequests.mode.Left? ==>
            u.agentRequests.mode.Left? && u.agentRequests.taken == s.agentRequests.taken)
      && (s.clientRequests.mode.Left? ==>
            u.clientRequests.mode.Left? && u.clientRequests.taken == s.clientRequests.taken)
      && (s.globals.left ==> u.globals.left && u.globals.mine == s.globals.mine);
    forall u, l | inv(u) && HANDLER.enabled(u, l)
      ensures inv(HANDLER.next(u, l))
    {
      LeftLoopsStay(u, l);
      if u.globals.left {
        LeftGlobalsStay(u, l);
      }
    }
    HANDLER.Invariant(inv, s, t);
  }

  // ---------------------------------------------------------------------------------------------------
  // Why a copy fails
  // ---------------------------------------------------------------------------------------------------

  /** A read error, or a write that takes less than it was given. */
  predicate Fails(c: B.Copier, step: B.Step) {
    step.ReadFails? || (step.Write? && step.k < |c.buf|)
  }

  /** Some step of the agent-to-client copy, or of the client-to-agent copy, failed along a run. */
  ghost predicate OutputFailed(s: State, labels: seq<Label>)
    decreases |labels|
  {
    labels != [] &&
    ((labels[0].CopyOut? && Fails(s.toClient, labels[0].copy)) || OutputFailed(Next(s, labels[0]), labels[1..]))
  }

  ghost predicate InputFailed(s: State, labels: seq<Label>)
    decreases |labels|
  {
    labels != [] &&
    ((labels[0].CopyIn? && Fails(s.toAgent, labels[0].copy)) || InputFailed(Next(s, labels[0]), labels[1..]))
  }

  lemma CopyBreaks(c: B.Copier, step: B.Step)
    requires B.Enabled(c, step)
    ensures B.Next(c, step).status.Broken? <==> Fails(c, step)
  {
  }

  lemma OutputBreaks(s: State, l: Label)
    requires Enabled(s, l)
    ensures Next(s, l).toClient.status.Broken?
            <==> s.toClient.status.Broken? || (l.CopyOut? && Fails(s.toClient, l.copy))
  {
    if l.Env? {
      EnvControl(s, l.env);
    } else if l.CopyOut? {
      CopyBreaks(s.toClient, l.copy);
    } else if !l.CopyIn? {
      assert SameCopies(s, Next(s, l));
    }
  }

  lemma InputBreaks(s: State, l: Label)
    requires Enabled(s, l)
    ensures Next(s, l).toAgent.status.Broken?
            <==> s.toAgent.status.Broken? || (l.CopyIn? && Fails(s.toAgent, l.copy))
  {
    if l.Env? {
      EnvControl(s, l.env);
    } else if l.CopyIn? {
      CopyBreaks(s.toAgent, l.copy);
    } else {
      InputFrame(s, l);
    }
  }

  /** A copy ends without having completed exactly if a read failed or a write was short in the course of the run. */
  lemma {:induction false} BrokenExactly(s: State, labels: seq<Label>, t: State)
    requires HANDLER.Runs(s, labels, t)
    ensures t.toClient.status.Broken? <==> s.toClient.status.Broken? || OutputFailed(s, labels)
    ensures t.toAgent.status.Broken? <==> s.toAgent.status.Broken? || InputFailed(s, labels)
    decreases |labels|
  {
    if labels != [] {
      OutputBreaks(s, labels[0]);
      InputBreaks(s, labels[0]);
      BrokenExactly(Next(s, labels[0]), labels[1..], t);
    }
  }

  // ---------------------------------------------------------------------------------------------------
  // What has to arrive arrives
  // ---------------------------------------------------------------------------------------------------

  lemma LoopRunsOut(r: R.Relay, ctxDone: bool)
    requires R.Ok(r) && r.closed && !r.mode.Triggering?
    requires forall step: R.Step :: !R.Enabled(r, ctxDone, step)
    ensures r.mode.Left?
  {
    assert !R.Enabled(r, ctxDone, R.Receive) && !R.Enabled(r, ctxDone, R.Return(R.Failed));
    assert !R.Enabled(r, ctxDone, R.SendReply) && !R.Enabled(r, ctxDone, R.Leave(true));
  }

  lemma StuckAgentLoop(s: State)
    requires R.Ok(s.agentRequests) && !s.agentRequests.triggers && s.agentRequests.closed && Stuck(s)
    ensures s.agentRequests.mode.Left?
  {
    forall step: R.Step
      ensures !R.Enabled(s.agentRequests, s.ctxDone, step)
    {
      assert !Enabled(s, AgentLoop(step));
    }
    LoopRunsOut(s.agentRequests, s.ctxDone);
  }

  lemma StuckClientLoop(s: State)
    requires R.Ok(s.clientRequests) && s.clientRequests.closed && Stuck(s)
    ensures s.clientRequests.mode.Left?
  {
    assert !Enabled(s, Trigger);
    forall step: R.Step
      ensures !R.Enabled(s.clientRequests, s.ctxDone, step)
    {
      assert !Enabled(s, ClientLoop(step));
    }
    LoopRunsOut(s.clientRequests, s.ctxDone);
  }

  /** The agent's requests all arrive. Whatever the peers answer and however the goroutines were scheduled: when none of
      them can move any more, the agent's requests have ended and the context is not done, the client was offered
      every request the agent ever sent, once and in order, exit-status among them, and the agent got exactly the
      replies that the client's answers call for. The same holds of the client's requests. */
  lemma RequestsAllArrive(legacyAgent: bool, labels: seq<Label>, s: State)
    requires HANDLER.Runs(Opened(legacyAgent), labels, s) && Stuck(s) && Env(ContextDone) !in labels
    ensures Env(AgentRequestsClose) in labels ==>
              && RequestsOf(s.clientLog) == RequestsFrom(labels, Agent)
              && |AnswersFor(labels, Agent)| == |RequestsFrom(labels, Agent)|
              && s.agentRequests.replies == R.Expected(RequestsFrom(labels, Agent), AnswersFor(labels, Agent))
    ensures Env(ClientRequestsClose) in labels ==>
              && RequestsOf(s.agentLog) == RequestsFrom(labels, Client)
              && |AnswersFor(labels, Client)| == |RequestsFrom(labels, Client)|
              && s.clientRequests.replies == R.Expected(RequestsFrom(labels, Client), AnswersFor(labels, Client))
  {
    assert HANDLER.Reaches(Opened(legacyAgent), s);
    HandlerInvariant(legacyAgent, s);
    RunIsRead(legacyAgent, labels, s);
    LoopsLeaveOnly(legacyAgent, labels, s);
    if Env(AgentRequestsClose) in labels {
      StuckAgentLoop(s);
      assert s.agentRequests.queue[..|s.agentRequests.queue|] == s.agentRequests.queue;
    }
    if Env(ClientRequestsClose) in labels {
      StuckClientLoop(s);
      assert s.clientRequests.queue[..|s.clientRequests.queue|] == s.clientRequests.queue;
    }
  }

  /** Exit status before close, from the run alone: unless the context was done, the client is shown its EOF or close
      only after the agent's requests have ended, and every one of them was offered to it before. */
  lemma RequestsComeFirst(legacyAgent: bool, labels: seq<Label>, s: State, i: nat)
    requires HANDLER.Runs(Opened(legacyAgent), labels, s) && Env(ContextDone) !in labels
    requires i < |s.clientLog| && (s.clientLog[i].Eof? || s.clientLog[i].Close?)
    ensures Env(AgentRequestsClose) in labels
    ensures RequestsOf(s.clientLog[..i]) == RequestsFrom(labels, Agent)
  {
    assert HANDLER.Reaches(Opened(legacyAgent), s);
    HandlerInvariant(legacyAgent, s);
    assert Ended(s.clientLog);
    LoopsLeaveOnly(legacyAgent, labels, s);
    RunIsRead(legacyAgent, labels, s);
    LeftForContextAlways(legacyAgent, s);
    RequestsBeforeClose(legacyAgent, s);
  }

  lemma StuckOutput(s: State)
    requires PipeOk(s) && B.Ok(s.toClient) && Stuck(s) && s.pipe.starts > 0
    requires s.toClient.first.closed && s.toClient.second.closed
    ensures !s.toClient.status.Copying?
  {
    assert s.toClient.status.Copying? ==> Enabled(s, CopyOut(B.Progress(s.toClient)));
  }

  /** A step of the input copy that is open even once the agent's channel is closed. */
  function InputProgress(s: State): B.Step
    requires B.Ok(s.toAgent) && s.toAgent.status.Copying? && s.toAgent.first.closed && s.toAgent.second.closed
  {
    if s.toAgent.buf != [] && Close in s.agentLog then B.Write(0) else B.Progress(s.toAgent)
  }

  lemma StuckInput(s: State)
    requires PipeOk(s) && B.Ok(s.toAgent) && Stuck(s) && s.pipe.starts > 0
    requires s.toAgent.first.closed && s.toAgent.second.closed
    ensures !s.toAgent.status.Copying? && s.inPc.InExited?
  {
    assert s.toAgent.status.Copying? ==> Enabled(s, CopyIn(InputProgress(s)));
    assert !Enabled(s, InClose) && !Enabled(s, InLeave);
  }

  lemma StuckExit(s: State)
    requires PipeOk(s) && DoneOk(s) && Stuck(s) && s.pipe.starts > 0
    requires !s.toClient.status.Copying? && s.agentRequests.mode.Left?
    ensures s.agentExit.Exited?
  {
    assert !Enabled(s, Done) && !Enabled(s, AgentCloseClient) && !Enabled(s, AgentLeaveGroup);
  }

  /** The agent's output all arrives. When no goroutine can move, the pipe was started and the agent's two streams have
      ended: unless a read failed or a write was short, the client was shown every byte the agent sent, those of
      stdout and then those of stderr; and if its requests have ended too, the client was shown its close. */
  lemma OutputAllArrives(legacyAgent: bool, labels: seq<Label>, s: State)
    requires HANDLER.Runs(Opened(legacyAgent), labels, s) && Stuck(s) && s.pipe.starts > 0
    requires Env(End(Stdout)) in labels && Env(End(Stderr)) in labels
    ensures !OutputFailed(Opened(legacyAgent), labels) ==>
              DataOf(s.clientLog) == SentOn(labels, Stdout) + SentOn(labels, Stderr)
    ensures Env(AgentRequestsClose) in labels ==> Close in s.clientLog
  {
    assert HANDLER.Reaches(Opened(legacyAgent), s);
    HandlerInvariant(legacyAgent, s);
    ClosesInvariant(legacyAgent, s);
    RunIsRead(legacyAgent, labels, s);
    StuckOutput(s);
    if Env(AgentRequestsClose) in labels {
      StuckAgentLoop(s);
      StuckExit(s);
    }
    BrokenExactly(Opened(legacyAgent), labels, s);
    B.Faithful(s.toClient);
  }

  /** Once the input copy is past its half-close, the agent was shown an EOF or a close. */
  ghost predicate InputEnded(s: State) {
    s.inPc.InLeaveGroup? || s.inPc.InExited? ==> Eof in s.agentLog || Close in s.agentLog
  }

  lemma InputEndedStep(s: State, l: Label)
    requires InputEnded(s) && Enabled(s, l)
    ensures InputEnded(Next(s, l))
  {
    if l.InClose? {
      var e := if s.session.legacyAgent && s.session.exec then Close else Eof;
      assert Next(s, l).agentLog == WithEnding(s.agentLog, e) && e in s.agentLog + [e];
    } else if l.CloseAgentDeferred? {
      assert Next(s, l).agentLog == WithEnding(s.agentLog, Close);
    } else {
      var more := AgentLogGrowth(s, l);
      if l.Env? {
        EnvControl(s, l.env);
      }
    }
  }

  lemma InputEndShown(legacyAgent: bool, s: State)
    requires HANDLER.Reaches(Opened(legacyAgent), s) && s.inPc.InExited?
    ensures Eof in s.agentLog || Close in s.agentLog
  {
    forall s, l | InputEnded(s) && HANDLER.enabled(s, l)
      ensures InputEnded(HANDLER.next(s, l))
    {
      InputEndedStep(s, l);
    }
    HANDLER.Invariant(InputEnded, Opened(legacyAgent), s);
  }

  /** The client's input, in the same way; a short write includes one on a channel that was already closed. And the
      half-close was made: the agent was shown an EOF or a close. */
  lemma InputAllArrives(legacyAgent: bool, labels: seq<Label>, s: State)
    requires HANDLER.Runs(Opened(legacyAgent), labels, s) && Stuck(s) && s.pipe.starts > 0
    requires Env(End(Stdin)) in labels && Env(End(StdinExtended)) in labels
    ensures !InputFailed(Opened(legacyAgent), labels) ==>
              DataOf(s.agentLog) == SentOn(labels, Stdin) + SentOn(labels, StdinExtended)
    ensures Eof in s.agentLog || Close in s.agentLog
  {
    assert HANDLER.Reaches(Opened(legacyAgent), s);
    HandlerInvariant(legacyAgent, s);
    RunIsRead(legacyAgent, labels, s);
    StuckInput(s);
    BrokenExactly(Opened(legacyAgent), labels, s);
    B.Faithful(s.toAgent);
    InputEndShown(legacyAgent, s);
  }

  // ---------------------------------------------------------------------------------------------------
  // What a finished context can drop
  // ---------------------------------------------------------------------------------------------------

  lemma QueueGrows(s: State, t: State)
    requires HANDLER.Reaches(s, t)
    ensures s.agentRequests.queue <= t.agentRequests.queue
  {
    var inv := (u: State) => s.agentRequests.queue <= u.agentRequests.queue;
    forall u, l | inv(u) && HANDLER.enabled(u, l)
      ensures inv(HANDLER.next(u, l))
    {
      if l.Env? {
        EnvRelays(u, l.env);
      } else {
        QueuesAlone(u, l);
      }
    }
    HANDLER.Invariant(inv, s, t);
  }

  lemma LeaveEarly(s: State) returns (t: State)
    requires s.agentRequests.mode.Looping?
    ensures HANDLER.Reaches(s, t)
    ensures t == s.(ctxDone := true, agentRequests := s.agentRequests.(mode := R.Left(false)))
  {
    var a := Next(s, Env(ContextDone));
    t := Next(a, AgentLoop(R.Leave(false)));
    HANDLER.One(s, Env(ContextDone));
    HANDLER.One(a, AgentLoop(R.Leave(false)));
    HANDLER.Compose(s, a, t);
  }

  lemma NothingMoreOffered(legacyAgent: bool, s: State, u: State)
    requires HANDLER.Reaches(Opened(legacyAgent), s) && s.agentRequests.mode.Left? && HANDLER.Reaches(s, u)
    ensures RequestsOf(u.clientLog) == RequestsOf(s.clientLog)
  {
    HANDLER.Compose(Opened(legacyAgent), s, u);
    HandlerInvariant(legacyAgent, s);
    HandlerInvariant(legacyAgent, u);
    LeftForGood(s, u);
    QueueGrows(s, u);
    assert u.agentRequests.queue[..s.agentRequests.taken] == s.agentRequests.queue[..s.agentRequests.taken];
  }

  /** The limit of that promise: while an agent's request is waiting to be taken, the context can be done and the loop
      leave first, and then the client is never offered it. */
  lemma ContextDropsRequests(legacyAgent: bool, s: State) returns (t: State)
    requires HANDLER.Reaches(Opened(legacyAgent), s)
    requires s.agentRequests.mode.Looping? && s.agentRequests.taken < |s.agentRequests.queue|
    ensures HANDLER.Reaches(s, t)
    ensures forall u | HANDLER.Reaches(t, u) ::
              RequestsOf(u.clientLog) < s.agentRequests.queue && s.agentRequests.queue <= u.agentRequests.queue
  {
    t := LeaveEarly(s);
    HANDLER.Compose(Opened(legacyAgent), s, t);
    HandlerInvariant(legacyAgent, s);
    forall u | HANDLER.Reaches(t, u)
      ensures RequestsOf(u.clientLog) < s.agentRequests.queue && s.agentRequests.queue <= u.agentRequests.queue
    {
      NothingMoreOffered(legacyAgent, t, u);
      QueueGrows(t, u);
    }
  }
}
