/** When the session-channel handler finishes, and exactly when it cannot. */
module SessionProgress {
  import opened Machines
  import opened SessionChannel
  import opened SessionTheorems
  import R = RequestRelay
  import B = ByteCopy

  // ---------------------------------------------------------------------------------------------------
  // The measure
  // ---------------------------------------------------------------------------------------------------

  function MainRank(m: Main): nat {
    match m case Waiting => 3 case ClosingAgent => 2 case ClosingClient => 1 case Returned => 0
  }

  function ExitRank(e: AgentExit): nat {
    match e case AwaitDone => 3 case CloseClient => 2 case LeaveGroup => 1 case Exited => 0
  }

  function OutRank(pc: OutPc): nat {
    match pc
    case OutIdle => 5 case OutCopying => 4 case OutSendDone => 3
    case OutHalfClose => 2 case OutLeaveGroup => 1 case OutExited => 0
  }

  function InRank(pc: InPc): nat {
    match pc case InIdle => 4 case InCopying => 3 case InHalfClose => 2 case InLeaveGroup => 1 case InExited => 0
  }

  function Ranks(s: State): nat {
    MainRank(s.main) + ExitRank(s.agentExit) + OutRank(s.outPc) + InRank(s.inPc) +
    (if s.pipe.returned then 0 else 1)
  }

  function GlobalWork(g: Globals): nat {
    2 * (if g.taken <= |g.queue| then |g.queue| - g.taken else 0) + (if g.left then 0 else 1)
  }

  /** An upper bound on the steps the handler's goroutines can still take by themselves. */
  function Work(s: State): nat {
    Ranks(s) + GlobalWork(s.globals) + R.Work(s.agentRequests) + R.Work(s.clientRequests) +
    B.Work(s.toClient) + B.Work(s.toAgent)
  }

  predicate SameQueues(s: State, t: State) {
    s.agentRequests == t.agentRequests && s.clientRequests == t.clientRequests && s.globals == t.globals
  }

  predicate SameCopies(s: State, t: State) {
    s.toClient == t.toClient && s.toAgent == t.toAgent
  }

  predicate SameCounters(s: State, t: State) {
    s.main == t.main && s.agentExit == t.agentExit && s.outPc == t.outPc && s.inPc == t.inPc && s.pipe == t.pipe
  }

  lemma AgentLoopDecreases(s: State, step: R.Step)
    requires R.Ok(s.agentRequests) && R.Enabled(s.agentRequests, s.ctxDone, step)
    ensures Work(NextAgentLoop(s, step)) < Work(s)
  {
    R.WorkDecreases(s.agentRequests, s.ctxDone, step);
    assert NextAgentLoop(s, step).agentRequests == R.Next(s.agentRequests, step);
    assert SameCopies(s, NextAgentLoop(s, step)) && SameCounters(s, NextAgentLoop(s, step));
  }

  lemma ClientLoopDecreases(s: State, step: R.Step)
    requires R.Ok(s.clientRequests) && R.Enabled(s.clientRequests, s.ctxDone, step)
    ensures Work(NextClientLoop(s, step)) < Work(s)
  {
    R.WorkDecreases(s.clientRequests, s.ctxDone, step);
    assert NextClientLoop(s, step).clientRequests == R.Next(s.clientRequests, step);
    assert SameCopies(s, NextClientLoop(s, step)) && SameCounters(s, NextClientLoop(s, step));
  }

  lemma CopyOutDecreases(s: State, step: B.Step)
    requires s.outPc.OutCopying? && B.Enabled(s.toClient, step)
    ensures Work(NextCopyOut(s, step)) < Work(s)
  {
    B.WorkDecreases(s.toClient, step);
    assert NextCopyOut(s, step).toClient == B.Next(s.toClient, step);
    assert SameQueues(s, NextCopyOut(s, step));
  }

  lemma CopyInDecreases(s: State, step: B.Step)
    requires s.inPc.InCopying? && B.Enabled(s.toAgent, step)
    ensures Work(NextCopyIn(s, step)) < Work(s)
  {
    B.WorkDecreases(s.toAgent, step);
    assert NextCopyIn(s, step).toAgent == B.Next(s.toAgent, step);
    assert SameQueues(s, NextCopyIn(s, step));
  }

  lemma TriggerDecreases(s: State)
    requires PipeOk(s) && s.clientRequests.mode.Triggering?
    ensures Work(NextTrigger(s)) < Work(s)
  {
    assert SameCopies(s, NextTrigger(s));
    assert R.Work(NextTrigger(s).clientRequests) == R.Work(s.clientRequests) - 1;
  }

  lemma TakeGlobalDecreases(s: State, r: R.Request, sent: bool)
    requires !s.globals.left && s.globals.taken < |s.globals.queue|
    ensures Work(ForwardKeepAlive(s, r, sent)) < Work(s)
    ensures Work(RefuseGlobal(s, r)) < Work(s)
  {
    assert SameCopies(s, ForwardKeepAlive(s, r, sent)) && SameCounters(s, ForwardKeepAlive(s, r, sent));
    assert SameCopies(s, RefuseGlobal(s, r)) && SameCounters(s, RefuseGlobal(s, r));
  }

  lemma LeaveGlobalsDecreases(s: State, byClose: bool)
    requires Enabled(s, LeaveGlobals(byClose))
    ensures Work(Next(s, LeaveGlobals(byClose))) < Work(s)
  {
    var t := Next(s, LeaveGlobals(byClose));
    assert SameCopies(s, t) && SameCounters(s, t);
  }

  predicate IsExitStep(l: Label) {
    !l.Env? && !l.AgentLoop? && !l.ClientLoop? && !l.CopyOut? && !l.CopyIn? && !l.Trigger? && !l.TakeGlobal? &&
    !l.LeaveGlobals?
  }

  lemma ExitsFrame(s: State, l: Label)
    requires Enabled(s, l) && IsExitStep(l)
    ensures SameQueues(s, Next(s, l)) && SameCopies(s, Next(s, l))
  {
  }

  lemma ExitsDecrease(s: State, l: Label)
    requires Enabled(s, l) && IsExitStep(l)
    ensures Ranks(Next(s, l)) < Ranks(s)
  {
  }

  /** Every step of the handler's own goroutines lowers the measure. */
  lemma WorkDecreases(s: State, l: Label)
    requires Inv(s) && Enabled(s, l) && !l.Env?
    ensures Work(Next(s, l)) < Work(s)
  {
    if l.AgentLoop? {
      AgentLoopDecreases(s, l.relay);
    } else if l.ClientLoop? {
      ClientLoopDecreases(s, l.relay);
    } else if l.CopyOut? {
      CopyOutDecreases(s, l.copy);
    } else if l.CopyIn? {
      CopyInDecreases(s, l.copy);
    } else if l.Trigger? {
      TriggerDecreases(s);
    } else if l.TakeGlobal? {
      TakeGlobalDecreases(s, s.globals.queue[s.globals.taken], l.sent);
    } else if l.LeaveGlobals? {
      LeaveGlobalsDecreases(s, l.byClose);
    } else {
      ExitsFrame(s, l);
      ExitsDecrease(s, l);
    }
  }

  // ---------------------------------------------------------------------------------------------------
  // Deadlock freedom
  // ---------------------------------------------------------------------------------------------------

  /** The environment has finished: the context is done or the three request queues are closed, and the agent's
      streams have ended. */
  predicate EnvOver(s: State) {
    && s.toClient.first.closed && s.toClient.second.closed
    && (s.ctxDone || (s.globals.closed && s.agentRequests.closed && s.clientRequests.closed))
  }

  /** The pipe was started and the environment has finished. */
  predicate Winding(s: State) {
    s.pipe.starts > 0 && EnvOver(s)
  }

  function AdvanceRelay(r: R.Relay, ctxDone: bool): R.Step {
    match r.mode
    case Awaiting => R.Return(R.Failed)
    case Replying(_) => R.SendReply
    case _ => if ctxDone then R.Leave(false) else if r.taken < |r.queue| then R.Receive else R.Leave(true)
  }

  function AdvanceGlobals(s: State): Label {
    if s.ctxDone then LeaveGlobals(false)
    else if s.globals.taken < |s.globals.queue| then TakeGlobal(true) else LeaveGlobals(true)
  }

  function AdvanceExit(s: State): Label
    requires B.Ok(s.toClient) && s.toClient.first.closed && s.toClient.second.closed
    requires s.outPc.OutCopying? ==> s.toClient.status.Copying?
  {
    if s.agentExit.CloseClient? then AgentCloseClient
    else if s.agentExit.LeaveGroup? then AgentLeaveGroup
    else if s.outPc.OutCopying? then CopyOut(B.Progress(s.toClient))
    else Done
  }

  /** A step that is open to the goroutines in a winding state. */
  function Advance(s: State): Label
    requires Inv(s) && Winding(s)
  {
    if s.main.ClosingAgent? then CloseAgentDeferred
    else if s.main.ClosingClient? then CloseClientDeferred
    else if s.group == 0 then GroupEmpty
    else if !s.globals.left then AdvanceGlobals(s)
    else if s.clientRequests.mode.Triggering? then Trigger
    else if !s.clientRequests.mode.Left? then ClientLoop(AdvanceRelay(s.clientRequests, s.ctxDone))
    else if !s.agentRequests.mode.Left? then AgentLoop(AdvanceRelay(s.agentRequests, s.ctxDone))
    else AdvanceExit(s)
  }

  /** Neither the environment nor the client-to-agent copy moves. */
  predicate SparesInput(l: Label) {
    !l.Env? && !l.CopyIn? && !l.InClose? && !l.InLeave?
  }

  lemma AdvanceEnabled(s: State)
    requires Inv(s) && Winding(s) && !s.main.Returned?
    ensures Enabled(s, Advance(s)) && SparesInput(Advance(s))
  {
  }

  lemma InputSpared(s: State, l: Label)
    requires SparesInput(l) && s.pipe.starts > 0
    ensures Next(s, l).toAgent == s.toAgent && Next(s, l).inPc == s.inPc
  {
  }

  lemma OutputStaysClosed(s: State, l: Label)
    requires s.toClient.first.closed && s.toClient.second.closed && !l.Env?
    ensures Next(s, l).toClient.first.closed && Next(s, l).toClient.second.closed
  {
  }

  lemma LoopsKeepQueues(s: State, l: Label)
    requires l.AgentLoop? || l.ClientLoop?
    ensures Next(s, l).agentRequests.closed == s.agentRequests.closed
    ensures Next(s, l).clientRequests.closed == s.clientRequests.closed
  {
  }

  lemma OthersKeepQueues(s: State, l: Label)
    requires !l.Env? && !l.AgentLoop? && !l.ClientLoop?
    ensures Next(s, l).agentRequests == s.agentRequests
    ensures Next(s, l).clientRequests.closed == s.clientRequests.closed
  {
  }

  lemma ContextStaysDone(s: State, l: Label)
    requires !l.Env?
    ensures Next(s, l).ctxDone == s.ctxDone
  {
  }

  lemma GlobalsStayClosed(s: State, l: Label)
    requires l.TakeGlobal? || l.LeaveGlobals?
    ensures Next(s, l).globals.closed == s.globals.closed
  {
  }

  lemma OthersKeepGlobals(s: State, l: Label)
    requires !l.Env? && !l.TakeGlobal? && !l.LeaveGlobals?
    ensures Next(s, l).globals == s.globals
  {
  }

  lemma PipeStaysStarted(s: State, l: Label)
    requires !l.Env? && s.pipe.starts > 0
    ensures Next(s, l).pipe.starts > 0
  {
  }

  lemma EnvStaysOver(s: State, l: Label)
    requires EnvOver(s) && !l.Env?
    ensures EnvOver(Next(s, l))
  {
    OutputStaysClosed(s, l);
    if l.AgentLoop? || l.ClientLoop? {
      LoopsKeepQueues(s, l);
    } else {
      OthersKeepQueues(s, l);
    }
    ContextStaysDone(s, l);
    if l.TakeGlobal? || l.LeaveGlobals? {
      GlobalsStayClosed(s, l);
    } else {
      OthersKeepGlobals(s, l);
    }
  }

  lemma WindingStays(s: State, l: Label)
    requires Winding(s) && !l.Env?
    ensures Winding(Next(s, l))
  {
    EnvStaysOver(s, l);
    PipeStaysStarted(s, l);
  }

  /** The goroutines alone, the environment staying silent. */
  const ALONE := Machine((s, l) => Enabled(s, l) && !l.Env?, Next)

  /** No goroutine can move. */
  ghost predicate Stuck(s: State) {
    forall l: Label | !l.Env? :: !Enabled(s, l)
  }

  lemma AloneStep(s: State, l: Label)
    requires Inv(s) && Enabled(s, l) && !l.Env?
    ensures Inv(Next(s, l)) && Work(Next(s, l)) < Work(s) && (Winding(s) ==> Winding(Next(s, l)))
  {
    InvStep(s, l);
    WorkDecreases(s, l);
    if Winding(s) {
      WindingStays(s, l);
    }
  }

  /** Every run in which the environment stays silent is at most `Work` steps long. */
  lemma {:induction false} AloneIsFinite(s: State, labels: seq<Label>, t: State)
    requires Inv(s) && ALONE.Runs(s, labels, t)
    ensures Inv(t) && |labels| + Work(t) <= Work(s)
    ensures Winding(s) ==> Winding(t)
    decreases |labels|
  {
    if labels != [] {
      AloneStep(s, labels[0]);
      AloneIsFinite(Next(s, labels[0]), labels[1..], t);
    }
  }

  lemma WindingIsStuckAtReturn(s: State)
    requires Inv(s) && Winding(s) && Stuck(s)
    ensures s.main.Returned?
  {
    if !s.main.Returned? {
      AdvanceEnabled(s);
    }
  }

  /** Deadlock freedom: once the pipe has been started and the environment has finished, every run of the
      goroutines, scheduled in any way, is bounded by the measure, and wherever no goroutine can move, the
      handler has returned. */
  lemma HandlerFinishes(legacyAgent: bool, s: State, labels: seq<Label>, t: State)
    requires HANDLER.Reaches(Opened(legacyAgent), s) && Winding(s)
    requires ALONE.Runs(s, labels, t)
    ensures |labels| <= Work(s)
    ensures Stuck(t) ==> t.main.Returned?
  {
    HandlerInvariant(legacyAgent, s);
    AloneIsFinite(s, labels, t);
    if Stuck(t) {
      WindingIsStuckAtReturn(t);
    }
  }

  // ---------------------------------------------------------------------------------------------------
  // Exactly when the handler cannot finish
  // ---------------------------------------------------------------------------------------------------

  /** What the loop has not finished with holds a triggering request. */
  ghost predicate TriggerAhead(r: R.Relay) {
    exists i :: R.Finished(r) <= i < |r.queue| && r.queue[i].kind in {"pty-req", "exec", "subsystem"}
  }

  /** No triggering request can be relayed any more: the client-request loop is over, or its queue is closed and
      holds none in what the loop has not finished with. */
  ghost predicate Doomed(s: State) {
    && s.pipe.starts == 0
    && (s.clientRequests.mode.Left? || (s.clientRequests.closed && !TriggerAhead(s.clientRequests)))
  }

  lemma NoTriggerAheadStays(r: R.Relay, ctxDone: bool, step: R.Step)
    requires R.Ok(r) && !TriggerAhead(r) && R.Enabled(r, ctxDone, step)
    ensures !TriggerAhead(R.Next(r, step))
  {
    assert R.Finished(r) <= R.Finished(R.Next(r, step));
  }

  lemma TriggeringIsAhead(r: R.Relay)
    requires R.Ok(r)
    ensures r.mode.Triggering? ==> TriggerAhead(r)
  {
    if r.mode.Triggering? {
      assert R.Finished(r) == r.taken - 1 && R.IsTrigger(r.queue[r.taken - 1]);
    }
  }

  lemma DoomedNeverTriggers(s: State)
    requires R.Ok(s.clientRequests) && Doomed(s)
    ensures !s.clientRequests.mode.Triggering?
  {
    TriggeringIsAhead(s.clientRequests);
  }

  lemma DoomedEnv(s: State, e: EnvStep)
    requires Doomed(s) && EnvEnabled(s, e)
    ensures Doomed(NextEnv(s, e))
  {
    var t := NextEnv(s, e);
    assert t.pipe == s.pipe && t.clientRequests.mode == s.clientRequests.mode;
    assert s.clientRequests.closed ==> t.clientRequests == s.clientRequests;
  }

  lemma DoomedLoop(s: State, step: R.Step)
    requires Doomed(s) && R.Ok(s.clientRequests) && R.Enabled(s.clientRequests, s.ctxDone, step)
    ensures Doomed(NextClientLoop(s, step))
  {
    NoTriggerAheadStays(s.clientRequests, s.ctxDone, step);
  }

  lemma DoomedOthers(s: State, l: Label)
    requires Doomed(s) && PipeOk(s) && Enabled(s, l)
    requires !l.Env? && !l.ClientLoop? && !l.Trigger?
    ensures Doomed(Next(s, l))
  {
    assert Next(s, l).clientRequests == s.clientRequests;
  }

  lemma DoomedStep(s: State, l: Label)
    requires Inv(s) && Doomed(s) && Enabled(s, l)
    ensures Doomed(Next(s, l))
  {
    DoomedNeverTriggers(s);
    if l.Env? {
      DoomedEnv(s, l.env);
    } else if l.ClientLoop? {
      DoomedLoop(s, l.relay);
    } else {
      DoomedOthers(s, l);
    }
  }

  lemma DoomedForever(s: State, t: State)
    requires Inv(s) && Doomed(s) && HANDLER.Reaches(s, t)
    ensures !t.main.Returned? && t.agentExit.AwaitDone?
  {
    var inv := (s: State) => Inv(s) && Doomed(s);
    forall s, l | inv(s) && HANDLER.enabled(s, l)
      ensures inv(HANDLER.next(s, l))
    {
      InvStep(s, l);
      DoomedStep(s, l);
    }
    HANDLER.Invariant(inv, s, t);
  }

  /** Some step towards a started pipe, for a client loop that has a triggering request ahead of it. */
  function TowardsTrigger(r: R.Relay): Label {
    match r.mode
    case Awaiting => ClientLoop(R.Return(R.Answered(true)))
    case Replying(_) => ClientLoop(R.SendReply)
    case Triggering => Trigger
    case _ => ClientLoop(R.Receive)
  }

  lemma TriggerAheadStays(r: R.Relay, step: R.Step)
    requires R.Ok(r) && r.triggers && TriggerAhead(r) && R.Enabled(r, false, step)
    requires step.Return? ==> step.outcome == R.Answered(true)
    ensures TriggerAhead(R.Next(r, step))
  {
    var i :| R.Finished(r) <= i < |r.queue| && r.queue[i].kind in {"pty-req", "exec", "subsystem"};
    var t := R.Next(r, step);
    assert R.Finished(t) <= i && t.queue == r.queue;
  }

  /** Neither the client-request loop nor the trigger moves the handler goroutine, the input copy, or the agent-request
      goroutine's exit. */
  predicate LoopFrame(s: State, t: State) {
    && t.toAgent == s.toAgent && t.main == s.main && t.agentExit == s.agentExit
    && t.clientRequests.queue == s.clientRequests.queue
  }

  lemma ClientLoopFrame(s: State, step: R.Step)
    requires R.Enabled(s.clientRequests, s.ctxDone, step)
    ensures LoopFrame(s, NextClientLoop(s, step))
  {
  }

  lemma TowardsFrame(s: State)
    requires Enabled(s, TowardsTrigger(s.clientRequests))
    ensures LoopFrame(s, Next(s, TowardsTrigger(s.clientRequests)))
  {
    var l := TowardsTrigger(s.clientRequests);
    if l.ClientLoop? {
      ClientLoopFrame(s, l.relay);
    }
  }

  lemma ReachPipe(s: State) returns (t: State)
    requires Inv(s) && s.pipe.starts == 0 && !s.clientRequests.mode.Left? && TriggerAhead(s.clientRequests)
    ensures Inv(t) && t.pipe.starts > 0 && HANDLER.Reaches(s, t)
    ensures t.toAgent == s.toAgent && t.main == s.main && t.agentExit == s.agentExit
    ensures t.clientRequests.queue == s.clientRequests.queue
    ensures t.session.legacyAgent == s.session.legacyAgent && (s.session.exec ==> t.session.exec)
    decreases R.Work(s.clientRequests)
  {
    var l := TowardsTrigger(s.clientRequests);
    var next := Next(s, l);
    assert Enabled(s, l);
    InvStep(s, l);
    HANDLER.One(s, l);
    TowardsFrame(s);
    MarkStays(s, l);
    if l.Trigger? {
      t := next;
    } else {
      TriggerAheadStays(s.clientRequests, l.relay);
      R.WorkDecreases(s.clientRequests, s.ctxDone, l.relay);
      t := ReachPipe(next);
      HANDLER.Compose(s, next, t);
    }
  }

  lemma ReachReturn(s: State) returns (t: State)
    requires Inv(s) && Winding(s)
    ensures Inv(t) && t.main.Returned? && HANDLER.Reaches(s, t)
    ensures t.toAgent == s.toAgent && t.inPc == s.inPc
    decreases Work(s)
  {
    if s.main.Returned? {
      t := s;
      HANDLER.Stay(s);
    } else {
      var l := Advance(s);
      AdvanceEnabled(s);
      AloneStep(s, l);
      HANDLER.One(s, l);
      InputSpared(s, l);
      t := ReachReturn(Next(s, l));
      HANDLER.Compose(s, Next(s, l), t);
    }
  }

  /** The three steps by which the environment finishes. */
  predicate Finishing(e: EnvStep) {
    e.ContextDone? || e == End(Stdout) || e == End(Stderr)
  }

  lemma FinishingFrame(s: State, e: EnvStep)
    requires Finishing(e)
    ensures NextEnv(s, e).toAgent == s.toAgent && NextEnv(s, e).inPc == s.inPc && NextEnv(s, e).pipe == s.pipe
    ensures NextEnv(s, e).agentExit == s.agentExit
    ensures s.ctxDone || e.ContextDone? ==> NextEnv(s, e).ctxDone
    ensures s.toClient.first.closed || e == End(Stdout) ==> NextEnv(s, e).toClient.first.closed
    ensures s.toClient.second.closed || e == End(Stderr) ==> NextEnv(s, e).toClient.second.closed
  {
  }

  /** They touch neither the pipe nor the client-to-agent copy. */
  lemma EnvFinishes(s: State, e: EnvStep)
    requires Inv(s) && Finishing(e)
    ensures Inv(NextEnv(s, e)) && HANDLER.Reaches(s, NextEnv(s, e))
  {
    assert Enabled(s, Env(e)) && Next(s, Env(e)) == NextEnv(s, e);
    InvStep(s, Env(e));
    HANDLER.One(s, Env(e));
  }

  /** With the pipe started the environment can always finish. */
  lemma ReachWinding(s: State) returns (t: State)
    requires Inv(s) && s.pipe.starts > 0
    ensures Inv(t) && Winding(t) && HANDLER.Reaches(s, t)
    ensures t.toAgent == s.toAgent && t.inPc == s.inPc && t.agentExit == s.agentExit
  {
    var a := NextEnv(s, ContextDone);
    EnvFinishes(s, ContextDone);
    FinishingFrame(s, ContextDone);
    var b := NextEnv(a, End(Stdout));
    EnvFinishes(a, End(Stdout));
    FinishingFrame(a, End(Stdout));
    t := NextEnv(b, End(Stderr));
    EnvFinishes(b, End(Stderr));
    FinishingFrame(b, End(Stderr));
    HANDLER.Compose(s, a, b);
    HANDLER.Compose(s, b, t);
  }

  lemma OpenQueueGetsTrigger(s: State) returns (t: State)
    requires Inv(s) && s.pipe.starts == 0 && !s.clientRequests.mode.Left? && !s.clientRequests.closed
    ensures Inv(t) && HANDLER.Reaches(s, t)
    ensures t.pipe.starts == 0 && !t.clientRequests.mode.Left? && TriggerAhead(t.clientRequests)
    ensures t.toAgent == s.toAgent && t.agentExit == s.agentExit && t.main == s.main && t.session == s.session
    ensures t.clientRequests.queue == s.clientRequests.queue + [R.Request("pty-req", false, "")]
  {
    var r := R.Request("pty-req", false, "");
    t := Next(s, Env(ClientRequest(r)));
    InvStep(s, Env(ClientRequest(r)));
    HANDLER.One(s, Env(ClientRequest(r)));
    assert t.clientRequests.queue[|s.clientRequests.queue|] == r;
  }

  /** Unless it is doomed, a handler can get its pipe started and its environment finished, the client-to-agent copy
      staying where it is. */
  lemma ReachWindingFrom(s: State) returns (t: State)
    requires Inv(s) && !Doomed(s)
    ensures Inv(t) && Winding(t) && HANDLER.Reaches(s, t)
    ensures t.toAgent == s.toAgent && t.agentExit == s.agentExit
  {
    if s.pipe.starts > 0 {
      t := ReachWinding(s);
    } else {
      var u := s;
      HANDLER.Stay(s);
      if !s.clientRequests.closed {
        u := OpenQueueGetsTrigger(s);
      }
      var v := ReachPipe(u);
      t := ReachWinding(v);
      HANDLER.Compose(s, u, v);
      HANDLER.Compose(s, v, t);
    }
  }

  /** The asymmetry. Unless it is doomed, the handler can return and close the agent's channel without another step of
      the client-to-agent copy, whatever that copy has still to do. */
  lemma InputCanBeCutOff(s: State) returns (t: State)
    requires Inv(s) && !Doomed(s)
    ensures Inv(t) && HANDLER.Reaches(s, t) && t.main.Returned? && t.toAgent == s.toAgent
    ensures s.toAgent.status.Copying? ==> t.inPc.InCopying?
  {
    var u := ReachWindingFrom(s);
    t := ReachReturn(u);
    HANDLER.Compose(s, u, t);
  }

  /** The exact condition. The handler can still return, in some continuation, if and only if the pipe was started
      or a triggering request can still reach the client-request loop. */
  lemma CanReturnExactly(legacyAgent: bool, s: State)
    requires HANDLER.Reaches(Opened(legacyAgent), s)
    ensures (exists t :: HANDLER.Reaches(s, t) && t.main.Returned?) <==> !Doomed(s)
  {
    HandlerInvariant(legacyAgent, s);
    if Doomed(s) {
      forall t | HANDLER.Reaches(s, t)
        ensures !t.main.Returned?
      {
        DoomedForever(s, t);
      }
    } else {
      var t := InputCanBeCutOff(s);
    }
  }

  // ---------------------------------------------------------------------------------------------------
  // Exactly when the handler is sure to return
  // ---------------------------------------------------------------------------------------------------

  /** A triggering request was answered, and the loop has yet to pass the trigger. */
  predicate TriggerDue(r: R.Relay) {
    r.mode.Triggering? || (r.mode.Replying? && r.triggers && 0 < r.taken <= |r.queue| &&
                           r.queue[r.taken - 1].kind in {"pty-req", "exec", "subsystem"})
  }

  predicate Assured(s: State) {
    s.pipe.starts > 0 || TriggerDue(s.clientRequests)
  }

  lemma AssuredLoop(s: State, step: R.Step)
    requires R.Enabled(s.clientRequests, s.ctxDone, step) && TriggerDue(s.clientRequests) && R.Ok(s.clientRequests)
    ensures TriggerDue(NextClientLoop(s, step).clientRequests)
  {
  }

  lemma AssuredStays(s: State, l: Label)
    requires Inv(s) && Assured(s) && Enabled(s, l) && !l.Env?
    ensures Assured(Next(s, l))
  {
    if s.pipe.starts > 0 {
      PipeStaysStarted(s, l);
    } else if l.ClientLoop? {
      AssuredLoop(s, l.relay);
    } else if !l.Trigger? {
      assert Next(s, l).clientRequests == s.clientRequests;
    }
  }

  lemma AssuredIsStuckAtReturn(s: State)
    requires Inv(s) && EnvOver(s) && Assured(s) && Stuck(s)
    ensures s.main.Returned?
  {
    assert !Enabled(s, Trigger) && !Enabled(s, ClientLoop(R.SendReply));
    WindingIsStuckAtReturn(s);
  }

  lemma AssuredForever(s: State, t: State)
    requires Inv(s) && EnvOver(s) && Assured(s) && ALONE.Reaches(s, t)
    ensures Inv(t) && EnvOver(t) && Assured(t)
  {
    var inv := (s: State) => Inv(s) && EnvOver(s) && Assured(s);
    forall s, l | inv(s) && ALONE.enabled(s, l)
      ensures inv(ALONE.next(s, l))
    {
      InvStep(s, l);
      EnvStaysOver(s, l);
      AssuredStays(s, l);
    }
    ALONE.Invariant(inv, s, t);
  }

  /** A loop that owes no trigger can fail every request it still has, and leave. */
  lemma FailsOn(r: R.Relay, ctxDone: bool)
    requires R.Ok(r) && !r.mode.Left? && !TriggerDue(r) && (ctxDone || r.closed)
    ensures R.Enabled(r, ctxDone, AdvanceRelay(r, ctxDone)) && !TriggerDue(R.Next(r, AdvanceRelay(r, ctxDone)))
  {
  }

  lemma OneMoreFails(s: State, l: Label)
    requires Inv(s) && EnvOver(s) && !Assured(s) && !s.clientRequests.mode.Left?
    requires l == ClientLoop(AdvanceRelay(s.clientRequests, s.ctxDone))
    ensures Enabled(s, l) && Inv(Next(s, l)) && EnvOver(Next(s, l)) && !Assured(Next(s, l))
    ensures R.Work(Next(s, l).clientRequests) < R.Work(s.clientRequests)
  {
    FailsOn(s.clientRequests, s.ctxDone);
    R.WorkDecreases(s.clientRequests, s.ctxDone, l.relay);
    InvStep(s, l);
    EnvStaysOver(s, l);
    assert Next(s, l) == NextClientLoop(s, l.relay);
  }

  lemma ReachDoomed(s: State) returns (t: State)
    requires Inv(s) && EnvOver(s) && !Assured(s)
    ensures Inv(t) && Doomed(t) && ALONE.Reaches(s, t)
    decreases R.Work(s.clientRequests)
  {
    if s.clientRequests.mode.Left? {
      t := s;
      ALONE.Stay(s);
    } else {
      var l := ClientLoop(AdvanceRelay(s.clientRequests, s.ctxDone));
      OneMoreFails(s, l);
      ALONE.One(s, l);
      t := ReachDoomed(Next(s, l));
      ALONE.Compose(s, Next(s, l), t);
    }
  }

  lemma ReachStuck(s: State) returns (t: State)
    requires Inv(s)
    ensures Stuck(t) && ALONE.Reaches(s, t)
    decreases Work(s)
  {
    if Stuck(s) {
      t := s;
      ALONE.Stay(s);
    } else {
      var l: Label :| !l.Env? && Enabled(s, l);
      AloneStep(s, l);
      ALONE.One(s, l);
      t := ReachStuck(Next(s, l));
      ALONE.Compose(s, Next(s, l), t);
    }
  }

  lemma {:induction false} AloneIsARun(s: State, labels: seq<Label>, t: State)
    requires ALONE.Runs(s, labels, t)
    ensures HANDLER.Runs(s, labels, t)
    decreases |labels|
  {
    if labels != [] {
      AloneIsARun(Next(s, labels[0]), labels[1..], t);
    }
  }

  /** Bad luck: from a state that owes no trigger the goroutines can run, in some schedule, into a state where none of
      them can move and the handler waits. */
  lemma CanGetStuck(s: State) returns (t: State)
    requires Inv(s) && EnvOver(s) && !Assured(s)
    ensures ALONE.Reaches(s, t) && Stuck(t) && !t.main.Returned?
  {
    var u := ReachDoomed(s);
    t := ReachStuck(u);
    ALONE.Compose(s, u, t);
    var labels :| ALONE.Runs(u, labels, t);
    AloneIsARun(u, labels, t);
    DoomedForever(u, t);
  }

  /** The exact condition for a sure return. Once the environment has finished, every schedule of the goroutines is
      bounded; and every one of them, run to where no goroutine can move, ends with the handler returned if and only
      if the pipe was started or a triggering request has already been answered. */
  lemma SurelyReturnsExactly(legacyAgent: bool, s: State)
    requires HANDLER.Reaches(Opened(legacyAgent), s) && EnvOver(s)
    ensures forall labels, t | ALONE.Runs(s, labels, t) :: |labels| <= Work(s)
    ensures (forall t | ALONE.Reaches(s, t) && Stuck(t) :: t.main.Returned?)
            <==> s.pipe.starts > 0 || TriggerDue(s.clientRequests)
  {
    HandlerInvariant(legacyAgent, s);
    forall labels, t | ALONE.Runs(s, labels, t)
      ensures |labels| <= Work(s)
    {
      AloneIsFinite(s, labels, t);
    }
    if Assured(s) {
      forall t | ALONE.Reaches(s, t) && Stuck(t)
        ensures t.main.Returned?
      {
        AssuredForever(s, t);
        AssuredIsStuckAtReturn(t);
      }
    } else {
      var t := CanGetStuck(s);
    }
  }

  // ---------------------------------------------------------------------------------------------------
  // A client that only asks for a shell
  // ---------------------------------------------------------------------------------------------------

  /** A client none of whose requests triggers never starts the pipe, and the handler is doomed exactly once its
      requests have ended or its loop is over. */
  lemma WithoutTriggerDoomed(legacyAgent: bool, s: State)
    requires HANDLER.Reaches(Opened(legacyAgent), s)
    requires forall i | 0 <= i < |s.clientRequests.queue| ::
               s.clientRequests.queue[i].kind !in {"pty-req", "exec", "subsystem"}
    ensures s.pipe.starts == 0
    ensures Doomed(s) <==> s.clientRequests.closed || s.clientRequests.mode.Left?
  {
    HandlerInvariant(legacyAgent, s);
  }

  const SHELL := R.Request("shell", true, "")

  lemma OneMore(start: State, s: State, l: Label) returns (t: State)
    requires HANDLER.Reaches(start, s) && Enabled(s, l)
    ensures t == Next(s, l) && HANDLER.Reaches(start, t)
  {
    t := Next(s, l);
    HANDLER.One(s, l);
    HANDLER.Compose(start, s, t);
  }

  /** The shell request is forwarded and granted, and the client is told so. */
  lemma ShellGranted() returns (s: State)
    ensures HANDLER.Reaches(Opened(false), s)
    ensures s == Opened(false).(
                   clientRequests := R.Relay(true, [SHELL], 1, false, R.Looping, [R.Answered(true)],
                                             [R.Reply(0, true)]),
                   agentLog := [Request(SHELL)])
  {
    HANDLER.Stay(Opened(false));
    var a := OneMore(Opened(false), Opened(false), Env(ClientRequest(SHELL)));
    assert a.clientRequests == R.Relay(true, [SHELL], 0, false, R.Looping, [], []);
    var b := OneMore(Opened(false), a, ClientLoop(R.Receive));
    assert b.clientRequests == R.Relay(true, [SHELL], 1, false, R.Awaiting, [], []);
    var c := OneMore(Opened(false), b, ClientLoop(R.Return(R.Answered(true))));
    assert c.clientRequests == R.Relay(true, [SHELL], 1, false, R.Replying(true), [R.Answered(true)], []);
    s := OneMore(Opened(false), c, ClientLoop(R.SendReply));
  }

  /** The environment finishes. */
  lemma EverythingEnds(start: State, s: State) returns (t: State)
    requires HANDLER.Reaches(start, s)
    ensures HANDLER.Reaches(start, t)
    ensures t == s.(ctxDone := true, toClient := B.End(B.End(s.toClient, false), true))
  {
    var a := OneMore(start, s, Env(ContextDone));
    var b := OneMore(start, a, Env(End(Stdout)));
    t := OneMore(start, b, Env(End(Stderr)));
  }

  /** The three loops leave on the context. */
  lemma LoopsLeave(start: State, s: State) returns (t: State)
    requires HANDLER.Reaches(start, s) && s.ctxDone && !s.globals.left && s.group == 3
    requires s.clientRequests.mode.Looping? && s.agentRequests.mode.Looping?
    ensures HANDLER.Reaches(start, t)
    ensures t == s.(globals := s.globals.(left := true), group := 1,
                    clientRequests := s.clientRequests.(mode := R.Left(false)),
                    agentRequests := s.agentRequests.(mode := R.Left(false)))
  {
    var a := OneMore(start, s, LeaveGlobals(false));
    var b := OneMore(start, a, ClientLoop(R.Leave(false)));
    t := OneMore(start, b, AgentLoop(R.Leave(false)));
  }

  lemma WaitingForDone(s: State)
    requires s.main.Waiting? && s.group == 1 && s.globals.left && s.pipe.starts == 0
    requires s.clientRequests.mode.Left? && s.agentRequests.mode.Left? && s.agentExit.AwaitDone?
    requires s.outPc.OutIdle? && s.inPc.InIdle?
    ensures Stuck(s)
  {
  }

  /** The client that only asks for a shell, and gets it: everything around the handler has ended, the agent's streams
      included, and none of its goroutines can ever move again. */
  lemma ShellWaitsForEver() returns (s: State)
    ensures HANDLER.Reaches(Opened(false), s) && Doomed(s) && Stuck(s) && s.main.Waiting?
    ensures s.clientRequests.queue == [SHELL] && s.clientRequests.outcomes == [R.Answered(true)]
    ensures s.ctxDone && s.toClient.first.closed && s.toClient.second.closed
    ensures forall t | HANDLER.Reaches(s, t) :: !t.main.Returned?
  {
    var a := ShellGranted();
    var b := EverythingEnds(Opened(false), a);
    s := LoopsLeave(Opened(false), b);
    WaitingForDone(s);
    HandlerInvariant(false, s);
    forall t | HANDLER.Reaches(s, t)
      ensures !t.main.Returned?
    {
      DoomedForever(s, t);
    }
  }

  // ---------------------------------------------------------------------------------------------------
  // Exactly when the client's input is safe
  // ---------------------------------------------------------------------------------------------------

  lemma InputFrame(s: State, l: Label)
    requires !l.Env? && !l.CopyIn?
    ensures Next(s, l).toAgent == s.toAgent
  {
  }

  /** A copy that has ended does not start again. */
  lemma EndedInputStays(s: State, t: State)
    requires !s.toAgent.status.Copying? && HANDLER.Reaches(s, t)
    ensures !t.toAgent.status.Copying?
  {
    var inv := (s: State) => !s.toAgent.status.Copying?;
    forall s, l | inv(s) && HANDLER.enabled(s, l)
      ensures inv(HANDLER.next(s, l))
    {
      if l.Env? {
        EnvControl(s, l.env);
      } else {
        InputFrame(s, l);
      }
    }
    HANDLER.Invariant(inv, s, t);
  }

  /** The exact condition for a cut. In some continuation the handler returns, having closed the agent's channel, while
      the client-to-agent copy is still under way, if and only if that copy has not ended yet and the handler can
      return at all. So only a copy that has ended is safe from the close; one that has not even started is not. */
  lemma CutOffExactly(legacyAgent: bool, s: State)
    requires HANDLER.Reaches(Opened(legacyAgent), s)
    ensures (exists t :: HANDLER.Reaches(s, t) && t.main.Returned? && t.toAgent.status.Copying?)
            <==> s.toAgent.status.Copying? && !Doomed(s)
  {
    HandlerInvariant(legacyAgent, s);
    if s.toAgent.status.Copying? && !Doomed(s) {
      var t := InputCanBeCutOff(s);
    }
    forall t | HANDLER.Reaches(s, t) && t.main.Returned? && t.toAgent.status.Copying?
      ensures s.toAgent.status.Copying? && !Doomed(s)
    {
      if Doomed(s) {
        DoomedForever(s, t);
      } else if !s.toAgent.status.Copying? {
        EndedInputStays(s, t);
      }
    }
  }

  /** The client has finished sending and the agent's channel has taken all of it. */
  predicate Delivered(c: B.Copier) {
    c.first.closed && c.second.closed && c.written == B.Total(c)
  }

  lemma DeliveredCopy(c: B.Copier, step: B.Step)
    requires B.Ok(c) && Delivered(c) && B.Enabled(c, step)
    ensures Delivered(B.Next(c, step))
  {
    B.OkStep(c, step);
    B.WrittenGrows(c, step);
    B.Faithful(B.Next(c, step));
  }

  lemma DeliveredEnv(s: State, e: EnvStep)
    requires Delivered(s.toAgent) && EnvEnabled(s, e)
    ensures Delivered(NextEnv(s, e).toAgent)
  {
    assert NextEnv(s, e).toAgent == s.toAgent;
  }

  lemma DeliveredForever(s: State, t: State)
    requires Inv(s) && Delivered(s.toAgent) && HANDLER.Reaches(s, t)
    ensures Delivered(t.toAgent)
  {
    var inv := (s: State) => Inv(s) && Delivered(s.toAgent);
    forall s, l | inv(s) && HANDLER.enabled(s, l)
      ensures inv(HANDLER.next(s, l))
    {
      InvStep(s, l);
      if l.Env? {
        DeliveredEnv(s, l.env);
      } else if l.CopyIn? {
        DeliveredCopy(s.toAgent, l.copy);
        assert Next(s, l).toAgent == B.Next(s.toAgent, l.copy);
      } else {
        InputFrame(s, l);
      }
    }
    HANDLER.Invariant(inv, s, t);
  }

  lemma BytesFrame(s: State, source: Source, bytes: seq<B.byte>)
    requires !FromAgent(source)
    ensures NextEnv(s, Bytes(source, bytes)) == s.(toAgent := B.Arrive(s.toAgent, source.StdinExtended?, bytes))
  {
  }

  lemma OneByteLonger(c: B.Copier)
    requires !(c.first.closed && c.second.closed)
    ensures |B.Total(B.Arrive(c, c.first.closed, [0]))| == |B.Total(c)| + 1
  {
  }

  /** A client that has not finished sending can send one byte more. */
  lemma OneByteMore(s: State) returns (t: State)
    requires Inv(s) && !Doomed(s) && s.toAgent.written == B.Total(s.toAgent) && !Delivered(s.toAgent)
    ensures Inv(t) && !Doomed(t) && HANDLER.Reaches(s, t) && t.toAgent.written != B.Total(t.toAgent)
  {
    var source := if s.toAgent.first.closed then StdinExtended else Stdin;
    var e := Bytes(source, [0]);
    t := NextEnv(s, e);
    InvStep(s, Env(e));
    HANDLER.One(s, Env(e));
    BytesFrame(s, source, [0]);
    OneByteLonger(s.toAgent);
  }

  /** The exact condition for a loss. In some continuation the handler returns although bytes the client has sent were
      not written to the agent, if and only if the handler can return and the client has not yet both finished
      sending and had everything written. */
  lemma InputLostExactly(legacyAgent: bool, s: State)
    requires HANDLER.Reaches(Opened(legacyAgent), s)
    ensures (exists t :: HANDLER.Reaches(s, t) && t.main.Returned? && t.toAgent.written != B.Total(t.toAgent))
            <==> !Doomed(s) && !Delivered(s.toAgent)
  {
    HandlerInvariant(legacyAgent, s);
    if !Doomed(s) && !Delivered(s.toAgent) {
      var u := s;
      HANDLER.Stay(s);
      if s.toAgent.written == B.Total(s.toAgent) {
        u := OneByteMore(s);
      }
      var t := InputCanBeCutOff(u);
      HANDLER.Compose(s, u, t);
    }
    forall t | HANDLER.Reaches(s, t) && t.main.Returned? && t.toAgent.written != B.Total(t.toAgent)
      ensures !Doomed(s) && !Delivered(s.toAgent)
    {
      if Doomed(s) {
        DoomedForever(s, t);
      } else if Delivered(s.toAgent) {
        DeliveredForever(s, t);
      }
    }
  }

  lemma ClosedStays(s: State, l: Label)
    requires Enabled(s, l) && Close in s.agentLog
    ensures Close in Next(s, l).agentLog && Next(s, l).toAgent.written == s.toAgent.written
  {
    if l.CloseAgentDeferred? || l.InClose? {
      assert s.agentLog <= Next(s, l).agentLog;
    } else {
      var more := AgentLogGrowth(s, l);
      if l.Env? {
        EnvControl(s, l.env);
      } else if !l.CopyIn? {
        InputFrame(s, l);
      }
    }
  }

  /** A remark, since a closed channel takes no byte: a loss is for good. Once the agent's channel was closed, by the
      pipe or by the handler, the agent is shown no further byte, the client-to-agent copy running on or not. */
  lemma NothingAfterClose(legacyAgent: bool, s: State, t: State)
    requires HANDLER.Reaches(Opened(legacyAgent), s) && Close in s.agentLog && HANDLER.Reaches(s, t)
    ensures t.toAgent.written == s.toAgent.written && DataOf(t.agentLog) == DataOf(s.agentLog)
  {
    var inv := (u: State) => Close in u.agentLog && u.toAgent.written == s.toAgent.written;
    forall u, l | inv(u) && HANDLER.enabled(u, l)
      ensures inv(HANDLER.next(u, l))
    {
      ClosedStays(u, l);
    }
    HANDLER.Invariant(inv, s, t);
    HANDLER.Compose(Opened(legacyAgent), s, t);
    HandlerInvariant(legacyAgent, s);
    HandlerInvariant(legacyAgent, t);
  }

  // ---------------------------------------------------------------------------------------------------
  // Runs that show what can happen
  // ---------------------------------------------------------------------------------------------------

  /** The agent-request goroutine gets past its receive from `done` by the rendezvous only. */
  lemma BeforeRendezvous(s: State, l: Label)
    requires s.agentExit.AwaitDone? && Enabled(s, l)
    ensures !l.Done? ==> Next(s, l).agentExit.AwaitDone?
    ensures l.Done? ==> Next(s, l).agentExit.CloseClient? && Next(s, l).outPc.OutHalfClose?
  {
    if l.Env? {
      EnvControl(s, l.env);
    }
  }

  lemma ReachRendezvous(s: State) returns (t: State)
    requires Inv(s) && Winding(s) && s.agentExit.AwaitDone?
    ensures Inv(t) && HANDLER.Reaches(s, t)
    ensures t.agentExit.CloseClient? && t.outPc.OutHalfClose?
    decreases Work(s)
  {
    var l := Advance(s);
    AdvanceEnabled(s);
    AloneStep(s, l);
    HANDLER.One(s, l);
    BeforeRendezvous(s, l);
    t := Next(s, l);
    if !l.Done? {
      t := ReachRendezvous(t);
      HANDLER.Compose(s, Next(s, l), t);
    }
  }

  /** Both goroutines past the rendezvous may be first with their ending; what comes after the close is not shown. */
  lemma EndingsRace(s: State) returns (t: State, u: State)
    requires s.agentExit.CloseClient? && s.outPc.OutHalfClose? && Close !in s.clientLog
    ensures HANDLER.Reaches(s, t) && t.clientLog == s.clientLog + [Eof, Close]
    ensures HANDLER.Reaches(s, u) && u.clientLog == s.clientLog + [Close]
  {
    var a := Next(s, OutClose);
    HANDLER.One(s, OutClose);
    t, u := Next(a, AgentCloseClient), Next(s, AgentCloseClient);
    HANDLER.One(a, AgentCloseClient);
    HANDLER.One(s, AgentCloseClient);
    HANDLER.Compose(s, a, t);
    assert s.clientLog + [Eof] + [Close] == s.clientLog + [Eof, Close];
  }

  lemma NoEnding(log: seq<PeerEvent>)
    requires Close !in log && Eof !in log
    ensures !Ended(log)
  {
  }

  /** The race of the client's endings. From every reachable state before the rendezvous that is not doomed, a run shows
      the client its EOF and then its close, and another shows it the close, after which no continuation ever shows it
      an EOF. */
  lemma EofCanBeMissed(legacyAgent: bool, s: State) returns (shown: seq<PeerEvent>, t: State, u: State)
    requires HANDLER.Reaches(Opened(legacyAgent), s) && s.agentExit.AwaitDone? && !Doomed(s)
    ensures !Ended(shown)
    ensures HANDLER.Reaches(s, t) && t.clientLog == shown + [Eof, Close]
    ensures HANDLER.Reaches(s, u) && u.clientLog == shown + [Close]
    ensures forall v | HANDLER.Reaches(u, v) :: Eof !in v.clientLog
  {
    HandlerInvariant(legacyAgent, s);
    var v := ReachWindingFrom(s);
    var w := ReachRendezvous(v);
    HANDLER.Compose(s, v, w);
    HANDLER.Compose(Opened(legacyAgent), s, w);
    shown := w.clientLog;
    ClosesInvariant(legacyAgent, w);
    NoEnding(shown);
    t, u := EndingsRace(w);
    HANDLER.Compose(s, w, t);
    HANDLER.Compose(s, w, u);
    forall v | HANDLER.Reaches(u, v)
      ensures Eof !in v.clientLog
    {
      NoLateEof(u, v);
    }
  }

  lemma EndFrame(s: State, source: Source)
    requires !FromAgent(source)
    ensures Enabled(s, Env(End(source)))
    ensures Next(s, Env(End(source))) == s.(toAgent := B.End(s.toAgent, source.StdinExtended?))
  {
  }

  lemma CopyInFrame(s: State, step: B.Step)
    requires s.inPc.InCopying? && B.Enabled(s.toAgent, step) && !step.Write?
    ensures Enabled(s, CopyIn(step))
    ensures var c := B.Next(s.toAgent, step);
            Next(s, CopyIn(step)) == s.(toAgent := c, inPc := if c.status.Copying? then s.inPc else InHalfClose)
  {
    assert s.agentLog + [] == s.agentLog;
  }

  lemma TwoSteps(s: State, k: Label, l: Label) returns (t: State)
    requires Enabled(s, k) && Enabled(Next(s, k), l)
    ensures t == Next(Next(s, k), l) && HANDLER.Reaches(s, t)
  {
    t := Next(Next(s, k), l);
    HANDLER.One(s, k);
    HANDLER.One(Next(s, k), l);
    HANDLER.Compose(s, Next(s, k), t);
  }

  /** A client that sends nothing and ends its streams. */
  lemma StreamsEnd(s: State) returns (t: State)
    requires s.toAgent == B.FRESH
    ensures HANDLER.Reaches(s, t) && t == s.(toAgent := B.End(B.End(B.FRESH, false), true))
  {
    EndFrame(s, Stdin);
    EndFrame(Next(s, Env(End(Stdin))), StdinExtended);
    t := TwoSteps(s, Env(End(Stdin)), Env(End(StdinExtended)));
  }

  lemma EmptyCopy(s: State) returns (t: State)
    requires s.inPc.InCopying? && s.toAgent == B.End(B.End(B.FRESH, false), true)
    ensures HANDLER.Reaches(s, t) && t == s.(toAgent := t.toAgent, inPc := InHalfClose)
  {
    CopyInFrame(s, B.Switch);
    CopyInFrame(Next(s, CopyIn(B.Switch)), B.Finish);
    t := TwoSteps(s, CopyIn(B.Switch), CopyIn(B.Finish));
  }

  /** A connection whose session another channel has marked, and a client that asks for a pty. */
  lemma MarkedElsewhere() returns (s: State)
    ensures HANDLER.Reaches(Opened(true), s) && s.inPc.InCopying? && s.main.Waiting? && s.toAgent == B.FRESH
    ensures s.session.legacyAgent && s.session.exec
    ensures s.clientRequests.queue == [R.Request("pty-req", false, "")]
  {
    var a := Next(Opened(true), Env(ExecElsewhere));
    InvOpened(true);
    InvStep(Opened(true), Env(ExecElsewhere));
    HANDLER.One(Opened(true), Env(ExecElsewhere));
    var b := OpenQueueGetsTrigger(a);
    s := ReachPipe(b);
    HANDLER.Compose(Opened(true), a, b);
    HANDLER.Compose(Opened(true), b, s);
  }

  lemma HalfCloseCloses(s: State) returns (t: State)
    requires HANDLER.Reaches(Opened(true), s) && s.inPc.InHalfClose? && s.session.exec
    ensures HANDLER.Reaches(s, t) && t == Next(s, InClose) && Close in t.agentLog && Eof !in t.agentLog
    ensures t.main == s.main && t.clientRequests == s.clientRequests
  {
    HandlerInvariant(true, s);
    ClosesInvariant(true, s);
    HalfClosedFirst(s);
    t := Next(s, InClose);
    HANDLER.One(s, InClose);
  }

  lemma NoExecQueued(r: R.Relay)
    requires forall i | 0 <= i < |r.queue| :: !IsExec(r.queue[i])
    ensures !ExecSeen(r)
  {
  }

  /** The mark is the connection's, not the channel's: a run in which an old agent's channel is closed by the pipe,
      before the handler gets there, although its client asked for nothing but a pty. */
  lemma ClosedForAnotherChannel() returns (s: State)
    ensures HANDLER.Reaches(Opened(true), s)
    ensures Close in s.agentLog && Eof !in s.agentLog && s.main.Waiting?
    ensures s.clientRequests.queue == [R.Request("pty-req", false, "")] && !ExecSeen(s.clientRequests)
  {
    var a := MarkedElsewhere();
    var b := StreamsEnd(a);
    var c := EmptyCopy(b);
    HANDLER.Compose(Opened(true), a, b);
    HANDLER.Compose(Opened(true), b, c);
    s := HalfCloseCloses(c);
    HANDLER.Compose(Opened(true), c, s);
    NoExecQueued(s.clientRequests);
  }
}
