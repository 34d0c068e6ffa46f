/** The session-channel handler in its own form: loops, a wait group, a once flag and channel ends that the
    goroutines update in place. Every method is one goroutine's next step and is proved against `SessionChannel`;
    the two loops that a goroutine runs between interactions are also proved as loops.
 */
module SessionHandler {
  import opened SessionChannel
  import R = RequestRelay
  import B = ByteCopy

  /** A request loop: `queue` grows at the sender's side, the loop takes from it. */
  class RequestLoop {
    const triggers: bool
    var queue: seq<R.Request>
    var taken: nat
    var closed: bool
    var mode: R.Mode
    var outcomes: seq<R.Outcome>
    var replies: seq<R.Reply>

    function View(): R.Relay
      reads this
    {
      R.Relay(triggers, queue, taken, closed, mode, outcomes, replies)
    }

    constructor (triggers: bool)
      ensures View() == R.Fresh(triggers)
    {
      this.triggers := triggers;
      queue, taken, closed, mode, outcomes, replies := [], 0, false, R.Looping, [], [];
    }

    method Settle()
      modifies `mode
      ensures mode == R.Settled(old(View()))
    {
      if triggers && 0 < taken <= |queue| && R.IsTrigger(queue[taken - 1]) {
        mode := R.Triggering;
      } else {
        mode := R.Looping;
      }
    }

    method Step(step: R.Step)
      modifies this
      ensures View() == R.Next(old(View()), step)
    {
      match step {
        case Receive =>
          taken := taken + 1;
          mode := R.Awaiting;
        case Return(outcome) =>
          outcomes := outcomes + [outcome];
          if outcome.Failed? {
            mode := R.Looping;
          } else if 0 < taken <= |queue| && queue[taken - 1].wantReply {
            mode := R.Replying(outcome.ok);
          } else {
            Settle();
          }
        case SendReply =>
          if mode.Replying? && 0 < taken {
            replies := replies + [R.Reply(taken - 1, mode.ok)];
            Settle();
          }
        case Leave(byClose) =>
          mode := R.Left(byClose);
      }
    }

    /** One request from the queue to its end, by the steps of the protocol. The pipe is started elsewhere; here the
        loop only comes back from it. */
    method Serve(outcome: R.Outcome)
      requires mode.Looping? && taken < |queue|
      modifies this
      ensures View() == R.Served(old(View()), outcome)
    {
      Step(R.Receive);
      Step(R.Return(outcome));
      if mode.Replying? {
        Step(R.SendReply);
      }
      if mode.Triggering? {
        mode := R.Looping;
      }
    }

    /** The loop of the protocol, run by its own steps to the end of the queue, `answers` being what `SendRequest` gives
        back for the requests still there. */
    method Drain(answers: seq<R.Outcome>)
      requires mode.Looping? && taken + |answers| == |queue|
      modifies this
      ensures View() == R.Drained(old(View()), answers)
    {
      for i := 0 to |answers|
        invariant mode.Looping? && taken + |answers| - i == |queue|
        invariant R.Drained(View(), answers[i..]) == R.Drained(old(View()), answers)
      {
        assert answers[i..][1..] == answers[i + 1..];
        Serve(answers[i]);
      }
      Step(R.Leave(true));
    }

  }

  /** The request loop run to the end of a closed queue, `answers` being what each `SendRequest` gives back. It
      offers every request once, in order, and makes exactly the replies the answers call for. */
  method RelayAll(queue: seq<R.Request>, answers: seq<R.Outcome>)
      returns (offered: seq<R.Request>, replies: seq<R.Reply>)
    requires |answers| == |queue|
    ensures offered == queue
    ensures replies == R.Expected(queue, answers)
  {
    offered, replies := [], [];
    for i := 0 to |queue|
      invariant offered == queue[..i]
      invariant replies == R.Expected(queue, answers[..i])
    {
      offered := offered + [queue[i]];
      assert answers[..i + 1][..i] == answers[..i];
      if answers[i].Failed? {
        continue;
      }
      if queue[i].wantReply {
        replies := replies + [R.Reply(i, answers[i].ok)];
      }
    }
    assert answers[..|queue|] == answers;
  }

  /** One `io.Copy` from a two-part reader. */
  class CopyLoop {
    var first: B.Stream
    var second: B.Stream
    var onSecond: bool
    var buf: seq<B.byte>
    var written: seq<B.byte>
    var status: B.Status

    function View(): B.Copier
      reads this
    {
      B.Copier(first, second, onSecond, buf, written, status)
    }

    constructor ()
      ensures View() == B.FRESH
    {
      first, second := B.Stream([], 0, false), B.Stream([], 0, false);
      onSecond, buf, written, status := false, [], [], B.Copying;
    }

    method Step(step: B.Step)
      requires B.Enabled(View(), step)
      modifies this
      ensures View() == B.Next(old(View()), step)
    {
      match step {
        case Read(n) =>
          if onSecond {
            buf := second.sent[second.read..second.read + n];
            second := second.(read := second.read + n);
          } else {
            buf := first.sent[first.read..first.read + n];
            first := first.(read := first.read + n);
          }
        case Switch =>
          onSecond := true;
        case Finish =>
          status := B.Complete;
        case ReadFails =>
          status := B.Broken;
        case Write(k) =>
          if k == |buf| {
            written := written + buf;
          } else {
            written := written + buf[..k];
            status := B.Broken;
          }
          buf := [];
      }
    }

    method Arrive(toSecond: bool, bytes: seq<B.byte>)
      modifies this
      ensures View() == B.Arrive(old(View()), toSecond, bytes)
    {
      if toSecond {
        if !second.closed {
          second := second.(sent := second.sent + bytes);
        }
      } else if !first.closed {
        first := first.(sent := first.sent + bytes);
      }
    }

    method End(ofSecond: bool)
      modifies this
      ensures View() == B.End(old(View()), ofSecond)
    {
      if ofSecond {
        second := second.(closed := true);
      } else {
        first := first.(closed := true);
      }
    }

    method Receive(a: B.Arrival)
      modifies this
      ensures View() == B.Arrived(old(View()), a)
    {
      match a {
        case More(toSecond, bytes) => Arrive(toSecond, bytes);
        case Over(ofSecond) => End(ofSecond);
      }
    }

    /** The next arrival of a list, `start` being where the copy stood before the first. */
    method ReceiveNext(arrivals: seq<B.Arrival>, arrived: nat, ghost start: B.Copier) returns (n: nat)
      requires B.Ok(View()) && arrived < |arrivals|
      requires B.SameInput(View(), B.ArrivedAll(start, arrivals[..arrived]))
      modifies this
      ensures n == arrived + 1 && B.Ok(View()) && written == old(written)
      ensures B.SameInput(View(), B.ArrivedAll(start, arrivals[..n]))
    {
      var a := arrivals[arrived];
      B.OkArrival(View(), if a.More? then a.onSecond else a.ofSecond, if a.More? then a.bytes else []);
      assert arrivals[..arrived + 1][..arrived] == arrivals[..arrived];
      Receive(a);
      n := arrived + 1;
    }

    /** Some step of the copy: there always is one, since a read may fail. */
    method StepAnyhow()
      requires B.Ok(View()) && status.Copying?
      modifies this
      ensures B.Ok(View()) && B.SameInput(old(View()), View()) && old(written) <= written
      ensures B.Work(View()) < old(B.Work(View()))
    {
      assert B.Enabled(View(), if buf == [] then B.ReadFails else B.Write(|buf|));
      var step :| B.Enabled(View(), step);
      B.OkStep(View(), step);
      B.WorkDecreases(View(), step);
      B.WrittenGrows(View(), step);
      Step(step);
    }

    /** The copy loop itself, while `arrivals` come in at any moments; chunk sizes, read errors and short writes are the
        environment's too. It runs until it has ended or waits for more than there is. Without a failure
        everything was written when it ends, and everything that arrived, up to the stream it waits on, when it
        waits. */
    method Run(arrivals: seq<B.Arrival>) returns (arrived: nat)
      requires B.Ok(View()) && status.Copying?
      modifies this
      ensures B.Ok(View())
      ensures arrived <= |arrivals| && B.SameInput(View(), B.ArrivedAll(old(View()), arrivals[..arrived]))
      ensures old(written) <= written <= B.Total(View())
      ensures status.Complete? ==> written == B.Total(View()) && first.closed && second.closed
      ensures status.Copying? ==> arrived == |arrivals| && B.Waiting(View()) && written == B.Taken(View())
    {
      arrived := 0;
      while status.Copying? && (arrived < |arrivals| || !B.Waiting(View()))
        invariant B.Ok(View()) && arrived <= |arrivals| && old(written) <= written
        invariant B.SameInput(View(), B.ArrivedAll(old(View()), arrivals[..arrived]))
        decreases |arrivals| - arrived, B.Work(View())
      {
        var arrives: bool := *;
        if arrives && arrived < |arrivals| {
          arrived := ReceiveNext(arrivals, arrived, old(View()));
        } else {
          StepAnyhow();
        }
      }
      var fails: bool := *;
      if fails && status.Copying? {
        B.OkStep(View(), B.ReadFails);
        Step(B.ReadFails);
      }
      B.Faithful(View());
    }
  }

  /** The `Session` of the connection: the handlers of all its session channels hold this one object. */
  class SharedSession {
    const legacyAgent: bool
    var exec: bool

    constructor (legacyAgent: bool)
      ensures this.legacyAgent == legacyAgent && !exec
    {
      this.legacyAgent, exec := legacyAgent, false;
    }
  }

  /** The state of a handler that joins a session, marked or not. */
  function Joined(legacyAgent: bool, exec: bool): State {
    Opened(legacyAgent).(session := Session(legacyAgent, exec, exec))
  }

  lemma JoinedIsReachable(legacyAgent: bool, exec: bool)
    ensures HANDLER.Reaches(Opened(legacyAgent), Joined(legacyAgent, exec))
  {
    if exec {
      HANDLER.One(Opened(legacyAgent), Env(ExecElsewhere));
    } else {
      HANDLER.Stay(Opened(legacyAgent));
    }
  }

  class ChannelHandler {
    var ctxDone: bool
    const sess: SharedSession
    var execElsewhere: bool  // history: `sess` was marked by another handler
    var main: Main
    var group: nat
    var globals: Globals
    const agentRequests: RequestLoop
    var agentExit: AgentExit
    const clientRequests: RequestLoop
    var pipe: Pipe
    const toClient: CopyLoop
    var outPc: OutPc
    const toAgent: CopyLoop
    var inPc: InPc
    var clientLog: seq<PeerEvent>
    var agentLog: seq<PeerEvent>

    predicate Valid()
      reads this
    {
      agentRequests != clientRequests && toClient != toAgent
    }

    ghost function Repr(): set<object> {
      {this, sess, agentRequests, clientRequests, toClient, toAgent}
    }

    function View(): State
      reads this, sess, agentRequests, clientRequests, toClient, toAgent
    {
      State(ctxDone, Session(sess.legacyAgent, sess.exec, execElsewhere), main, group, globals, agentRequests.View(),
            agentExit, clientRequests.View(), pipe, toClient.View(), outPc, toAgent.View(), inPc, clientLog, agentLog)
    }

    /** A handler joins the session as it finds it. */
    constructor (sess: SharedSession)
      ensures Valid() && this.sess == sess && fresh(Repr() - {sess})
      ensures View() == Joined(sess.legacyAgent, sess.exec)
    {
      this.sess := sess;
      ctxDone, execElsewhere, main, group := false, sess.exec, Waiting, 3;
      globals, pipe := Globals([], 0, false, false, [], 0), Pipe(0, 0, false);
      agentRequests := new RequestLoop(false);
      clientRequests := new RequestLoop(true);
      toClient := new CopyLoop();
      toAgent := new CopyLoop();
      agentExit, outPc, inPc, clientLog, agentLog := AwaitDone, OutIdle, InIdle, [], [];
    }

    /** `wg.Done()` */
    method LeaveGroup()
      modifies `group
      ensures group == Minus(old(group))
    {
      if group > 0 {
        group := group - 1;
      }
    }

    // The handler goroutine

    method MainStep(l: Label)
      requires Valid() && Enabled(View(), l) && (l.GroupEmpty? || l.CloseAgentDeferred? || l.CloseClientDeferred?)
      modifies this
      ensures View() == Next(old(View()), l)
    {
      if l.GroupEmpty? {
        main := ClosingAgent;
      } else if l.CloseAgentDeferred? {
        main := ClosingClient;
        agentLog := WithEnding(agentLog, Close);
      } else {
        main := Returned;
        clientLog := WithEnding(clientLog, Close);
      }
    }

    // The global-request goroutine

    method LeaveGlobals()
      modifies `globals, `group
      ensures globals == old(globals).(left := true) && group == Minus(old(group))
    {
      globals := globals.(left := true);
      LeaveGroup();
    }

    method TakeGlobal(sent: bool)
      requires Valid() && Enabled(View(), Label.TakeGlobal(sent))
      modifies this
      ensures View() == NextGlobal(old(View()), sent)
    {
      var r := globals.queue[globals.taken];
      globals := globals.(taken := globals.taken + 1, mine := globals.mine + [globals.taken]);
      if IsKeepAlive(r) {
        clientLog := clientLog + [KeepAlive(Renamed(r))];
        if !sent {
          LeaveGlobals();
        }
      } else if r.wantReply {
        globals := globals.(refused := globals.refused + 1);
      }
    }

    method GlobalStep(l: Label)
      requires Valid() && Enabled(View(), l) && (l.TakeGlobal? || l.LeaveGlobals?)
      modifies this
      ensures View() == Next(old(View()), l)
    {
      if l.LeaveGlobals? {
        LeaveGlobals();
      } else {
        TakeGlobal(l.sent);
      }
    }

    // The agent-request goroutine, with its defers

    method AgentLoopStep(step: R.Step)
      requires Valid() && Enabled(View(), AgentLoop(step))
      modifies this, agentRequests
      ensures View() == Next(old(View()), AgentLoop(step))
    {
      if step.Receive? {
        clientLog := clientLog + [Request(agentRequests.queue[agentRequests.taken])];
      }
      agentRequests.Step(step);
    }

    method AgentExitStep(l: Label)
      requires Valid() && Enabled(View(), l) && (l.Done? || l.AgentCloseClient? || l.AgentLeaveGroup?)
      modifies this
      ensures View() == Next(old(View()), l)
    {
      if l.Done? {
        agentExit := CloseClient;
        outPc := OutHalfClose;
      } else if l.AgentCloseClient? {
        agentExit := AgentExit.LeaveGroup;
        clientLog := WithEnding(clientLog, Close);
      } else {
        agentExit := Exited;
        LeaveGroup();
      }
    }

    // The client-request goroutine

    method ClientLoopStep(step: R.Step)
      requires Valid() && Enabled(View(), ClientLoop(step))
      modifies this, clientRequests, sess`exec
      ensures View() == Next(old(View()), ClientLoop(step))
    {
      if step.Receive? {
        var r := clientRequests.queue[clientRequests.taken];
        agentLog := agentLog + [Request(r)];
        if r.kind == "exec" || r.kind == "subsystem" {
          sess.exec := true;
        }
      } else if step.Leave? {
        LeaveGroup();
      }
      clientRequests.Step(step);
    }

    /** `oncePipe()` */
    method OncePipe()
      requires Valid() && Enabled(View(), Trigger)
      modifies this, clientRequests`mode
      ensures View() == Next(old(View()), Trigger)
    {
      clientRequests.mode := R.Looping;
      if pipe.starts == 0 {
        pipe := Pipe(1, 2, false);
        outPc := OutCopying;
        inPc := InCopying;
      }
    }

    // The pipe

    method CopyOutStep(step: B.Step)
      requires Valid() && B.Enabled(toClient.View(), step)
      modifies this, toClient
      ensures View() == NextCopyOut(old(View()), step)
    {
      if step.Write? && step.k > 0 {
        clientLog := clientLog + [Data(toClient.buf[..step.k])];
      }
      toClient.Step(step);
      if !toClient.status.Copying? {
        outPc := OutSendDone;
      }
    }

    method CopyInStep(step: B.Step)
      requires Valid() && B.Enabled(toAgent.View(), step)
      modifies this, toAgent
      ensures View() == NextCopyIn(old(View()), step)
    {
      if step.Write? && step.k > 0 {
        agentLog := agentLog + [Data(toAgent.buf[..step.k])];
      }
      toAgent.Step(step);
      if !toAgent.status.Copying? {
        inPc := InHalfClose;
      }
    }

    method HalfClose(l: Label)
      requires Valid() && Enabled(View(), l) && (l.OutClose? || l.InClose?)
      modifies this
      ensures View() == Next(old(View()), l)
    {
      if l.OutClose? {
        outPc := OutLeaveGroup;
        clientLog := WithEnding(clientLog, Eof);
      } else {
        inPc := InLeaveGroup;
        agentLog := WithEnding(agentLog, if sess.legacyAgent && sess.exec then Close else Eof);
      }
    }

    /** `wg.Done()` of the pipe's group. */
    method LeavePipe(l: Label)
      requires Valid() && Enabled(View(), l) && (l.OutLeave? || l.InLeave?)
      modifies this
      ensures View() == Next(old(View()), l)
    {
      if l.OutLeave? {
        outPc := OutExited;
      } else {
        inPc := InExited;
      }
      pipe := pipe.(group := Minus(pipe.group));
    }

    method ReturnPipe()
      requires Valid() && Enabled(View(), PipeReturn)
      modifies this
      ensures View() == Next(old(View()), PipeReturn)
    {
      pipe := pipe.(returned := true);
    }

    // Everything around the handler

    method ArriveStep(source: Source, bytes: seq<B.byte>)
      requires Valid()
      modifies toClient, toAgent
      ensures View() == NextEnv(old(View()), Bytes(source, bytes))
    {
      if FromAgent(source) {
        toClient.Arrive(source.Stderr?, bytes);
      } else {
        toAgent.Arrive(source.StdinExtended?, bytes);
      }
    }

    method EndStep(source: Source)
      requires Valid()
      modifies toClient, toAgent
      ensures View() == NextEnv(old(View()), End(source))
    {
      if FromAgent(source) {
        toClient.End(source.Stderr?);
      } else {
        toAgent.End(source.StdinExtended?);
      }
    }

    method EnvStep(e: EnvStep)
      requires Valid() && EnvEnabled(View(), e)
      modifies Repr()
      ensures View() == NextEnv(old(View()), e)
    {
      match e {
        case ContextDone => ctxDone := true;
        case AgentRequest(r) => agentRequests.queue := agentRequests.queue + [r];
        case AgentRequestsClose => agentRequests.closed := true;
        case ClientRequest(r) => clientRequests.queue := clientRequests.queue + [r];
        case ClientRequestsClose => clientRequests.closed := true;
        case GlobalRequest(r) => globals := globals.(queue := globals.queue + [r]);
        case GlobalStolen => globals := globals.(taken := globals.taken + 1);
        case GlobalsClose => globals := globals.(closed := true);
        case ExecElsewhere => sess.exec, execElsewhere := true, true;
        case Bytes(source, bytes) => ArriveStep(source, bytes);
        case End(source) => EndStep(source);
      }
    }

    /** The step a label names. */
    method Perform(l: Label)
      requires Valid() && Enabled(View(), l)
      modifies Repr()
      ensures View() == Next(old(View()), l)
    {
      if l.TakeGlobal? || l.LeaveGlobals? {
        GlobalStep(l);
      } else if l.AgentLoop? {
        AgentLoopStep(l.relay);
      } else if l.ClientLoop? {
        ClientLoopStep(l.relay);
      } else if l.Trigger? {
        OncePipe();
      } else if l.CopyOut? {
        CopyOutStep(l.copy);
      } else if l.CopyIn? {
        CopyInStep(l.copy);
      } else if l.Env? {
        EnvStep(l.env);
      } else if l.GroupEmpty? || l.CloseAgentDeferred? || l.CloseClientDeferred? {
        MainStep(l);
      } else if l.Done? || l.AgentCloseClient? || l.AgentLeaveGroup? {
        AgentExitStep(l);
      } else if l.OutClose? || l.InClose? {
        HalfClose(l);
      } else if l.PipeReturn? {
        ReturnPipe();
      } else {
        LeavePipe(l);
      }
    }

    /** Any schedule, passing over the labels whose goroutine cannot move: the handler's state runs through the
        protocol, so every theorem about its runs is one about this object. */
    method Schedule(labels: seq<Label>) returns (ghost taken: seq<Label>)
      requires Valid()
      modifies Repr()
      ensures HANDLER.Runs(old(View()), taken, View())
    {
      taken := [];
      for i := 0 to |labels|
        invariant HANDLER.Runs(old(View()), taken, View())
      {
        if Enabled(View(), labels[i]) {
          HANDLER.Then(old(View()), taken, View(), labels[i]);
          Perform(labels[i]);
          taken := taken + [labels[i]];
        }
      }
    }
  }

  /** A handler joins a session, marked or not, and its goroutines and surroundings take any steps: it is always in a
      state that the protocol reaches from the opened channels. */
  method Serve(sess: SharedSession, labels: seq<Label>) returns (handler: ChannelHandler)
    modifies sess
    ensures fresh(handler) && handler.Valid() && handler.sess == sess
    ensures HANDLER.Reaches(Opened(sess.legacyAgent), handler.View())
  {
    handler := new ChannelHandler(sess);
    JoinedIsReachable(sess.legacyAgent, sess.exec);
    ghost var joined := handler.View();
    ghost var taken := handler.Schedule(labels);
    assert HANDLER.Reaches(joined, handler.View());
    HANDLER.Compose(Opened(sess.legacyAgent), joined, handler.View());
  }
}
