/** Safety of the session-channel relay, over every interleaving. */
module SessionTheorems {
  import opened SessionChannel
  import R = RequestRelay
  import B = ByteCopy

  lemma {:induction false} DataBeforeEnding(log: seq<PeerEvent>, i: nat)
    requires DataFirst(log) && i < |log| && Ending(log[i])
    ensures DataOf(log[..i]) == DataOf(log)
    decreases |log|
  {
    var front, last := log[..|log| - 1], log[|log| - 1];
    assert log == front + [last];
    LogAppend(front, last);
    if i < |front| {
      assert Ending(front[i]);
      DataBeforeEnding(front, i);
      assert front[..i] == log[..i];
    } else {
      assert log[..i] == front;
    }
  }

  lemma {:induction false} RequestsBeforeEnding(log: seq<PeerEvent>, i: nat)
    requires Ordered(log) && i < |log| && Ending(log[i])
    ensures RequestsOf(log[..i]) == RequestsOf(log)
    decreases |log|
  {
    var front, last := log[..|log| - 1], log[|log| - 1];
    assert log == front + [last];
    LogAppend(front, last);
    if i < |front| {
      assert Ending(front[i]);
      RequestsBeforeEnding(front, i);
      assert front[..i] == log[..i];
    } else {
      assert log[..i] == front;
    }
  }

  /** What precedes an ending is all there is. */
  lemma BeforeEnding(log: seq<PeerEvent>, i: nat)
    requires Ordered(log) && i < |log| && Ending(log[i])
    ensures DataOf(log[..i]) == DataOf(log) && RequestsOf(log[..i]) == RequestsOf(log)
  {
    DataBeforeEnding(log, i);
    RequestsBeforeEnding(log, i);
  }

  /** No truncation. At every moment the client has been shown a prefix of the agent's stdout followed by its
      stderr. Neither EOF nor close is shown to it, by whichever goroutine, before the agent-to-client copy has
      ended; and if that copy ended without error, both streams are complete and all their bytes came first. */
  lemma NoTruncation(legacyAgent: bool, s: State)
    requires HANDLER.Reaches(Opened(legacyAgent), s)
    ensures DataOf(s.clientLog) <= s.toClient.first.sent + s.toClient.second.sent
    ensures Ended(s.clientLog) ==> s.outPc.OutHalfClose? || s.outPc.OutLeaveGroup? || s.outPc.OutExited?
    ensures forall i: nat | i < |s.clientLog| && Ending(s.clientLog[i]) ::
              DataOf(s.clientLog[..i]) == DataOf(s.clientLog)
    ensures forall i: nat | i < |s.clientLog| && Ending(s.clientLog[i]) && s.toClient.status.Complete? ::
              DataOf(s.clientLog[..i]) == s.toClient.first.sent + s.toClient.second.sent
              && s.toClient.first.closed && s.toClient.second.closed
  {
    HandlerInvariant(legacyAgent, s);
    B.Faithful(s.toClient);
    forall i: nat | i < |s.clientLog| && Ending(s.clientLog[i])
      ensures DataOf(s.clientLog[..i]) == DataOf(s.clientLog)
    {
      BeforeEnding(s.clientLog, i);
    }
  }

  /** Exit status before close. When the agent-request loop was left because the agent's requests ended, every
      request the agent ever sent, exit-status and exit-signal among them, was attempted on the client exactly
      once and in order, and all of them before the client's EOF and before its close. */
  lemma RequestsBeforeClose(legacyAgent: bool, s: State)
    requires HANDLER.Reaches(Opened(legacyAgent), s)
    requires s.agentRequests.mode == R.Left(true)
    ensures RequestsOf(s.clientLog) == s.agentRequests.queue
    ensures forall i: nat | i < |s.clientLog| && Ending(s.clientLog[i]) ::
              RequestsOf(s.clientLog[..i]) == s.agentRequests.queue
  {
    HandlerInvariant(legacyAgent, s);
    assert s.agentRequests.queue[..|s.agentRequests.queue|] == s.agentRequests.queue;
    forall i: nat | i < |s.clientLog| && Ending(s.clientLog[i])
      ensures RequestsOf(s.clientLog[..i]) == s.agentRequests.queue
    {
      BeforeEnding(s.clientLog, i);
    }
  }

  /** However the loop is left, and even while it runs, no agent request follows the client's EOF or close. */
  lemma NoRequestAfterClose(legacyAgent: bool, s: State, i: nat, j: nat)
    requires HANDLER.Reaches(Opened(legacyAgent), s)
    requires i < j < |s.clientLog| && Ending(s.clientLog[i])
    ensures s.clientLog[j].KeepAlive? || Ending(s.clientLog[j])
    ensures s.agentRequests.mode.Left?
  {
    HandlerInvariant(legacyAgent, s);
  }

  /** The request whose answer is in hand but not sent back yet. */
  predicate ReplyDue(r: R.Relay, i: nat) {
    r.mode.Replying? && i + 1 == |r.outcomes|
  }

  /** `r` replied once to each want-reply request it forwarded, with the peer's answer, in order, and to no
      other; only the reply in hand may be outstanding. */
  ghost predicate RepliedFaithfully(r: R.Relay) {
    && |r.outcomes| <= r.taken <= |r.queue|
    && (forall k | 0 <= k < |r.replies| ::
          r.replies[k].index < |r.outcomes| && r.queue[r.replies[k].index].wantReply
          && r.outcomes[r.replies[k].index] == R.Answered(r.replies[k].ok))
    && (forall i: nat | i < |r.outcomes| && r.queue[i].wantReply && r.outcomes[i].Answered? && !ReplyDue(r, i) ::
          R.Reply(i, r.outcomes[i].ok) in r.replies)
    && (forall k, m | 0 <= k < m < |r.replies| :: r.replies[k].index < r.replies[m].index)
  }

  lemma RepliesAreFaithful(r: R.Relay)
    requires R.Ok(r)
    ensures RepliedFaithfully(r)
  {
    R.ExpectedMeans(r.queue, R.Answers(r));
  }

  /** Relay order and replies, in both directions: what is offered to the peer is the requester's sequence so
      far, in order and without duplicates, and the replies are faithful. */
  lemma RelayOrderAndReplies(legacyAgent: bool, s: State)
    requires HANDLER.Reaches(Opened(legacyAgent), s)
    ensures RequestsOf(s.clientLog) <= s.agentRequests.queue && |RequestsOf(s.clientLog)| == s.agentRequests.taken
    ensures RequestsOf(s.agentLog) <= s.clientRequests.queue && |RequestsOf(s.agentLog)| == s.clientRequests.taken
    ensures RepliedFaithfully(s.agentRequests) && RepliedFaithfully(s.clientRequests)
  {
    HandlerInvariant(legacyAgent, s);
    RepliesAreFaithful(s.agentRequests);
    RepliesAreFaithful(s.clientRequests);
  }

  /** The pipe starts at most once, exactly when a pty-req, exec or subsystem request was relayed without error and the
      loop is done with it. */
  lemma PipeStartsOnce(legacyAgent: bool, s: State)
    requires HANDLER.Reaches(Opened(legacyAgent), s)
    ensures s.pipe.starts <= 1
    ensures s.pipe.starts == 1 <==>
              exists i: nat :: i < R.Finished(s.clientRequests) && i < |s.clientRequests.queue|
                               && i < |s.clientRequests.outcomes| && s.clientRequests.outcomes[i].Answered?
                               && s.clientRequests.queue[i].kind in {"pty-req", "exec", "subsystem"}
  {
    HandlerInvariant(legacyAgent, s);
    if s.pipe.starts == 1 {
      var r := s.clientRequests;
      var i: nat :| i < R.Finished(r) && i < |r.queue| && i < |r.outcomes| &&
                    R.IsTrigger(r.queue[i]) && r.outcomes[i].Answered?;
      assert r.queue[i].kind in {"pty-req", "exec", "subsystem"};
    }
  }

  /** While no such request was relayed successfully, a bare shell request for example, the agent-request goroutine
      has not passed `<-done`, the client has been shown no ending, and the handler is still waiting. */
  lemma NothingEndsWithoutTrigger(legacyAgent: bool, s: State)
    requires HANDLER.Reaches(Opened(legacyAgent), s)
    requires forall i: nat | i < |s.clientRequests.outcomes| && s.clientRequests.outcomes[i].Answered? ::
               i < |s.clientRequests.queue|
               && s.clientRequests.queue[i].kind !in {"pty-req", "exec", "subsystem"}
    ensures s.agentExit.AwaitDone? && !Ended(s.clientLog) && s.main.Waiting?
  {
    HandlerInvariant(legacyAgent, s);
    PipeStartsOnce(legacyAgent, s);
  }

  /** The weaker guarantee towards the agent: it is shown a prefix of what the client sent, all of it before any EOF or
      close; its EOF comes only after the client-to-agent copy has ended, while a close may cut that copy off. */
  lemma AgentSide(legacyAgent: bool, s: State)
    requires HANDLER.Reaches(Opened(legacyAgent), s)
    ensures DataOf(s.agentLog) <= s.toAgent.first.sent + s.toAgent.second.sent
    ensures Eof in s.agentLog ==> s.inPc.InLeaveGroup? || s.inPc.InExited?
    ensures Eof in s.agentLog && s.toAgent.status.Complete? ==>
              DataOf(s.agentLog) == s.toAgent.first.sent + s.toAgent.second.sent
    ensures forall i: nat | i < |s.agentLog| && Ending(s.agentLog[i]) ::
              DataOf(s.agentLog[..i]) == DataOf(s.agentLog)
  {
    HandlerInvariant(legacyAgent, s);
    B.Faithful(s.toAgent);
    forall i: nat | i < |s.agentLog| && Ending(s.agentLog[i])
      ensures DataOf(s.agentLog[..i]) == DataOf(s.agentLog)
    {
      DataBeforeEnding(s.agentLog, i);
    }
  }

  // ---------------------------------------------------------------------------------------------------
  // Who closes what
  // ---------------------------------------------------------------------------------------------------

  predicate IsExec(r: R.Request) {
    r.kind == "exec" || r.kind == "subsystem"
  }

  /** An exec or subsystem request was received from the client. */
  ghost predicate ExecSeen(r: R.Relay) {
    exists i :: 0 <= i < r.taken && i < |r.queue| && IsExec(r.queue[i])
  }

  /** Some channel of the connection received an exec or subsystem request: this one or another. */
  ghost predicate ExecAnywhere(s: State) {
    ExecSeen(s.clientRequests) || s.session.execElsewhere
  }

  /** The pipe half-closed an old agent's exec session by closing it altogether. */
  predicate ClosedByPipe(s: State) {
    s.session.legacyAgent && s.session.exec && (s.inPc.InLeaveGroup? || s.inPc.InExited?)
  }

  /** A close is the last ending. */
  ghost predicate CloseLast(log: seq<PeerEvent>) {
    forall i, j | 0 <= i < j < |log| && log[i].Close? :: !Ending(log[j])
  }

  ghost predicate ClientClosesOk(s: State) {
    && CloseLast(s.clientLog)
    && (Close in s.clientLog <==> s.agentExit.LeaveGroup? || s.agentExit.Exited? || s.main.Returned?)
    && (Eof in s.clientLog ==> s.outPc.OutLeaveGroup? || s.outPc.OutExited?)
    && (s.outPc.OutLeaveGroup? || s.outPc.OutExited? ==> Eof in s.clientLog || Close in s.clientLog)
  }

  ghost predicate AgentClosesOk(s: State) {
    && CloseLast(s.agentLog)
    && (s.main.ClosingClient? || s.main.Returned? ==> Close in s.agentLog)
    && (Close in s.agentLog ==> s.main.ClosingClient? || s.main.Returned? || ClosedByPipe(s))
  }

  ghost predicate ExecOk(legacyAgent: bool, s: State) {
    && s.session.legacyAgent == legacyAgent
    && s.clientRequests.taken <= |s.clientRequests.queue|
    && (s.session.exec <==> ExecAnywhere(s))
  }

  predicate LogsQuietly(l: Label) {
    l.AgentLoop? || l.TakeGlobal? || l.CopyOut?
  }

  predicate LogsEnding(l: Label) {
    l.AgentCloseClient? || l.CloseClientDeferred? || l.OutClose?
  }

  /** The client-side endings shown match the goroutines' places, whatever else is appended. */
  lemma ClientClosesAppend(s: State, t: State, more: seq<PeerEvent>)
    requires ClientClosesOk(s) && t.clientLog == s.clientLog + more
    requires forall e | e in more :: !Ending(e)
    requires t.agentExit == s.agentExit && t.main == s.main
    requires t.outPc == s.outPc || (s.outPc.OutCopying? && t.outPc.OutSendDone?)
    ensures ClientClosesOk(t)
  {
  }

  lemma QuietLogging(s: State, l: Label) returns (more: seq<PeerEvent>)
    requires Enabled(s, l) && LogsQuietly(l)
    ensures Next(s, l).clientLog == s.clientLog + more && forall e | e in more :: !Ending(e)
  {
    more := if l.AgentLoop? then
              if l.relay.Receive? then [Request(s.agentRequests.queue[s.agentRequests.taken])] else []
            else if l.CopyOut? then Shown(s.toClient, l.copy)
            else if IsKeepAlive(s.globals.queue[s.globals.taken])
            then [KeepAlive(Renamed(s.globals.queue[s.globals.taken]))] else [];
  }

  lemma ClientClosesLogging(s: State, l: Label)
    requires ClientClosesOk(s) && Enabled(s, l) && LogsQuietly(l)
    ensures ClientClosesOk(Next(s, l))
  {
    var more := QuietLogging(s, l);
    ClientClosesAppend(s, Next(s, l), more);
  }

  lemma CloseLastEnding(log: seq<PeerEvent>, e: PeerEvent)
    requires CloseLast(log) && Ending(e)
    ensures CloseLast(WithEnding(log, e)) && (e in WithEnding(log, e) || Close in WithEnding(log, e))
    ensures forall d | d in WithEnding(log, e) :: d in log || d == e
    ensures forall d | d in log :: d in WithEnding(log, e)
  {
    assert forall i | 0 <= i < |log| && log[i].Close? :: log[i] == Close && log[i] in log;
  }

  lemma ClientClosesLoud(s: State, l: Label)
    requires ClientClosesOk(s) && Enabled(s, l) && LogsEnding(l)
    ensures ClientClosesOk(Next(s, l))
  {
    var e := if l.OutClose? then Eof else Close;
    CloseLastEnding(s.clientLog, e);
    assert Next(s, l).clientLog == WithEnding(s.clientLog, e);
  }

  lemma ClientClosesQuiet(s: State, l: Label)
    requires ClientClosesOk(s) && PipeOk(s) && Enabled(s, l)
    requires !l.Env? && !LogsQuietly(l) && !LogsEnding(l)
    ensures ClientClosesOk(Next(s, l))
  {
  }

  lemma ClientClosesStep(s: State, l: Label)
    requires ClientClosesOk(s) && PipeOk(s) && Enabled(s, l)
    ensures ClientClosesOk(Next(s, l))
  {
    if l.Env? {
      EnvControl(s, l.env);
    } else if LogsQuietly(l) {
      ClientClosesLogging(s, l);
    } else if LogsEnding(l) {
      ClientClosesLoud(s, l);
    } else {
      ClientClosesQuiet(s, l);
    }
  }

  /** Nothing clears the exec mark. */
  lemma MarkStays(s: State, l: Label)
    ensures Next(s, l).session.legacyAgent == s.session.legacyAgent
    ensures s.session.exec ==> Next(s, l).session.exec
    ensures s.session.execElsewhere ==> Next(s, l).session.execElsewhere
  {
  }

  lemma AgentClosesLoud(s: State, l: Label)
    requires AgentClosesOk(s) && Enabled(s, l) && (l.CloseAgentDeferred? || l.InClose?)
    ensures AgentClosesOk(Next(s, l))
  {
    var e := if l.CloseAgentDeferred? || (s.session.legacyAgent && s.session.exec) then Close else Eof;
    CloseLastEnding(s.agentLog, e);
    assert Next(s, l).agentLog == WithEnding(s.agentLog, e);
  }

  /** What the steps that do not end the agent's channel add to its log. */
  lemma AgentLogGrowth(s: State, l: Label) returns (more: seq<PeerEvent>)
    requires Enabled(s, l) && !l.CloseAgentDeferred? && !l.InClose?
    ensures Next(s, l).agentLog == s.agentLog + more && forall e | e in more :: !Ending(e)
  {
    more := if l.CopyIn? then Shown(s.toAgent, l.copy)
            else if l.ClientLoop? && l.relay.Receive?
            then [Request(s.clientRequests.queue[s.clientRequests.taken])] else [];
    if l.Env? {
      EnvControl(s, l.env);
    }
  }

  lemma AgentClosesQuiet(s: State, l: Label)
    requires AgentClosesOk(s) && PipeOk(s) && Enabled(s, l) && !l.Env? && !l.CloseAgentDeferred? && !l.InClose?
    ensures AgentClosesOk(Next(s, l))
  {
    var more := AgentLogGrowth(s, l);
    MarkStays(s, l);
  }

  lemma AgentClosesStep(s: State, l: Label)
    requires AgentClosesOk(s) && PipeOk(s) && Enabled(s, l)
    ensures AgentClosesOk(Next(s, l))
  {
    if l.Env? {
      EnvControl(s, l.env);
      MarkStays(s, l);
    } else if l.CloseAgentDeferred? || l.InClose? {
      AgentClosesLoud(s, l);
    } else {
      AgentClosesQuiet(s, l);
    }
  }

  lemma ExecEnv(legacyAgent: bool, s: State, e: EnvStep)
    requires ExecOk(legacyAgent, s) && EnvEnabled(s, e)
    ensures ExecOk(legacyAgent, NextEnv(s, e))
  {
    EnvRelays(s, e);
    var q, r := s.clientRequests.queue, NextEnv(s, e).clientRequests.queue;
    assert forall i | 0 <= i < |q| :: r[i] == q[i];
  }

  lemma ExecLoop(legacyAgent: bool, s: State, step: R.Step)
    requires ExecOk(legacyAgent, s) && R.Enabled(s.clientRequests, s.ctxDone, step)
    ensures ExecOk(legacyAgent, NextClientLoop(s, step))
  {
    var r := s.clientRequests;
    var t := NextClientLoop(s, step);
    assert t.clientRequests.queue == r.queue;
    if step.Receive? && IsExec(r.queue[r.taken]) {
      assert IsExec(t.clientRequests.queue[r.taken]);
    }
  }

  lemma ExecFrame(s: State, l: Label)
    requires Enabled(s, l) && !l.Env? && !l.ClientLoop?
    ensures Next(s, l).clientRequests.queue == s.clientRequests.queue
    ensures Next(s, l).clientRequests.taken == s.clientRequests.taken
    ensures Next(s, l).session == s.session
  {
  }

  lemma ExecStep(legacyAgent: bool, s: State, l: Label)
    requires ExecOk(legacyAgent, s) && Enabled(s, l)
    ensures ExecOk(legacyAgent, Next(s, l))
  {
    if l.Env? {
      ExecEnv(legacyAgent, s, l.env);
    } else if l.ClientLoop? {
      ExecLoop(legacyAgent, s, l.relay);
    } else {
      ExecFrame(s, l);
    }
  }

  lemma ClosesStep(legacyAgent: bool, s: State, l: Label)
    requires Inv(s) && ClientClosesOk(s) && AgentClosesOk(s) && ExecOk(legacyAgent, s) && Enabled(s, l)
    ensures Inv(Next(s, l)) && ClientClosesOk(Next(s, l)) && AgentClosesOk(Next(s, l))
    ensures ExecOk(legacyAgent, Next(s, l))
  {
    InvStep(s, l);
    ClientClosesStep(s, l);
    AgentClosesStep(s, l);
    ExecStep(legacyAgent, s, l);
  }

  lemma ClosesInvariant(legacyAgent: bool, s: State)
    requires HANDLER.Reaches(Opened(legacyAgent), s)
    ensures ClientClosesOk(s) && AgentClosesOk(s) && ExecOk(legacyAgent, s)
  {
    var inv := (s: State) => Inv(s) && ClientClosesOk(s) && AgentClosesOk(s) && ExecOk(legacyAgent, s);
    forall s, l | inv(s) && HANDLER.enabled(s, l)
      ensures inv(HANDLER.next(s, l))
    {
      ClosesStep(legacyAgent, s, l);
    }
    HANDLER.Invariant(inv, Opened(legacyAgent), s);
  }

  /** A returned handler has closed both channels. Before that the agent's channel is closed only by the pipe, for an
      old agent, after an exec or subsystem request on some channel of the connection and once the client-to-agent
      copy has ended; otherwise not before every request loop is over and the agent-to-client copy has ended. */
  lemma AgentClosedExactly(legacyAgent: bool, s: State)
    requires HANDLER.Reaches(Opened(legacyAgent), s)
    ensures s.main.Returned? ==> Close in s.agentLog && Close in s.clientLog
    ensures Close in s.agentLog && (s.main.Waiting? || s.main.ClosingAgent?) ==>
              legacyAgent && ExecAnywhere(s) && !s.toAgent.status.Copying?
    ensures Close in s.agentLog && !(legacyAgent && ExecAnywhere(s)) ==>
              s.agentRequests.mode.Left? && s.clientRequests.mode.Left? && s.globals.left
              && !s.toClient.status.Copying?
  {
    HandlerInvariant(legacyAgent, s);
    ClosesInvariant(legacyAgent, s);
  }

  /** The client-to-agent half-close has been made, and left an EOF or did not; `late` if the handler had already closed
      the channel by itself. */
  ghost predicate HalfClosed(s: State, eof: bool, late: bool) {
    && (s.inPc.InLeaveGroup? || s.inPc.InExited?) && PipeOk(s)
    && (Eof in s.agentLog <==> eof)
    && (!eof ==> Close in s.agentLog)
    && ((Close in s.agentLog && eof) || late ==> s.main.ClosingClient? || s.main.Returned?)
  }

  /** The half-close is made once and moves no other goroutine. */
  lemma InputIsOver(s: State, l: Label)
    requires PipeOk(s) && Enabled(s, l) && (s.inPc.InLeaveGroup? || s.inPc.InExited?)
    ensures !l.InClose? && (Next(s, l).inPc.InLeaveGroup? || Next(s, l).inPc.InExited?)
    ensures s.main.ClosingClient? || s.main.Returned? || l.CloseAgentDeferred? ==>
              Next(s, l).main.ClosingClient? || Next(s, l).main.Returned?
  {
    if l.Env? {
      EnvControl(s, l.env);
    }
  }

  lemma HalfClosedStep(s: State, l: Label, eof: bool, late: bool)
    requires Inv(s) && HalfClosed(s, eof, late) && Enabled(s, l)
    ensures HalfClosed(Next(s, l), eof, late)
  {
    InvStep(s, l);
    InputIsOver(s, l);
    if l.CloseAgentDeferred? {
      assert Next(s, l).agentLog == WithEnding(s.agentLog, Close);
    } else {
      var more := AgentLogGrowth(s, l);
    }
  }

  /** What the half-close leaves in the log. */
  lemma HalfClosedFirst(s: State)
    requires Inv(s) && AgentClosesOk(s) && s.inPc.InHalfClose?
    ensures HalfClosed(Next(s, InClose), Close !in s.agentLog && !(s.session.legacyAgent && s.session.exec),
                       Close in s.agentLog)
  {
    assert Eof !in s.agentLog;
    var e := if s.session.legacyAgent && s.session.exec then Close else Eof;
    assert Next(s, InClose).agentLog == WithEnding(s.agentLog, e);
    PipeMoves(s, InClose);
  }

  lemma HalfClosedForever(s: State, t: State, eof: bool, late: bool)
    requires Inv(s) && HalfClosed(s, eof, late) && HANDLER.Reaches(s, t)
    ensures HalfClosed(t, eof, late)
  {
    var inv := (s: State) => Inv(s) && HalfClosed(s, eof, late);
    forall s, l | inv(s) && HANDLER.enabled(s, l)
      ensures inv(HANDLER.next(s, l))
    {
      InvStep(s, l);
      HalfClosedStep(s, l, eof, late);
    }
    HANDLER.Invariant(inv, s, t);
  }

  /** The exact effect of the client-to-agent half-close. Whatever follows, the agent is shown an EOF if and only if the
      handler had not closed its channel when the half-close ran, and it is not old or the session was not marked
      then; and until the handler's own close of the agent, that channel is closed if and only if it is old and the
      session was marked then. The mark stands for an exec or subsystem request on some channel of the connection. */
  lemma HalfCloseExactly(legacyAgent: bool, s: State, t: State)
    requires HANDLER.Reaches(Opened(legacyAgent), s) && s.inPc.InHalfClose?
    requires HANDLER.Reaches(Next(s, InClose), t)
    ensures Eof in t.agentLog <==> Close !in s.agentLog && !(legacyAgent && ExecAnywhere(s))
    ensures t.main.Waiting? || t.main.ClosingAgent? ==> (Close in t.agentLog <==> legacyAgent && ExecAnywhere(s))
  {
    HandlerInvariant(legacyAgent, s);
    ClosesInvariant(legacyAgent, s);
    HalfClosedFirst(s);
    InvStep(s, InClose);
    HalfClosedForever(Next(s, InClose), t, Close !in s.agentLog && !(legacyAgent && ExecAnywhere(s)),
                      Close in s.agentLog);
  }

  lemma NoLogging(s: State, l: Label)
    requires Enabled(s, l) && !LogsQuietly(l) && !LogsEnding(l)
    ensures Next(s, l).clientLog == s.clientLog
  {
    if l.Env? {
      EnvControl(s, l.env);
    }
  }

  /** What a step adds to the client's log: no ending once it is closed. */
  lemma ClientLogGrowth(s: State, l: Label) returns (more: seq<PeerEvent>)
    requires Enabled(s, l)
    ensures Next(s, l).clientLog == s.clientLog + more
    ensures forall e | e in more && Ending(e) :: Close !in s.clientLog && LogsEnding(l)
    ensures Eof in more ==> l.OutClose?
  {
    if LogsQuietly(l) {
      more := QuietLogging(s, l);
    } else if LogsEnding(l) {
      var e := if l.OutClose? then Eof else Close;
      assert Next(s, l).clientLog == WithEnding(s.clientLog, e);
      more := if Close in s.clientLog then [] else [e];
    } else {
      NoLogging(s, l);
      more := [];
    }
  }

  /** A client that was shown its close without an EOF is never shown one. */
  lemma NoLateEof(s: State, t: State)
    requires Close in s.clientLog && Eof !in s.clientLog && HANDLER.Reaches(s, t)
    ensures Close in t.clientLog && Eof !in t.clientLog
  {
    var inv := (s: State) => Close in s.clientLog && Eof !in s.clientLog;
    forall s, l | inv(s) && HANDLER.enabled(s, l)
      ensures inv(HANDLER.next(s, l))
    {
      var more := ClientLogGrowth(s, l);
    }
    HANDLER.Invariant(inv, s, t);
  }

  predicate OutputOver(s: State) {
    s.outPc.OutLeaveGroup? || s.outPc.OutExited?
  }

  lemma OutputStaysOver(s: State, l: Label)
    requires PipeOk(s) && Enabled(s, l) && OutputOver(s)
    ensures OutputOver(Next(s, l)) && !l.OutClose?
  {
    if l.Env? {
      EnvControl(s, l.env);
    }
  }

  lemma OutputEnds(s: State, t: State, eof: bool)
    requires Inv(s) && OutputOver(s) && (Eof in s.clientLog <==> eof) && HANDLER.Reaches(s, t)
    ensures Eof in t.clientLog <==> eof
  {
    var inv := (s: State) => Inv(s) && OutputOver(s) && (Eof in s.clientLog <==> eof);
    forall s, l | inv(s) && HANDLER.enabled(s, l)
      ensures inv(HANDLER.next(s, l))
    {
      InvStep(s, l);
      OutputStaysOver(s, l);
      var more := ClientLogGrowth(s, l);
    }
    HANDLER.Invariant(inv, s, t);
  }

  lemma OutCloseFirst(s: State)
    requires s.outPc.OutHalfClose? && Eof !in s.clientLog
    ensures OutputOver(Next(s, OutClose)) && (Eof in Next(s, OutClose).clientLog <==> Close !in s.clientLog)
  {
    assert Next(s, OutClose).clientLog == WithEnding(s.clientLog, Eof);
  }

  /** The exact effect of the agent-to-client half-close: in every continuation the client is shown an EOF if and only
      if its channel had not been closed when the half-close ran. */
  lemma OutCloseExactly(legacyAgent: bool, s: State, t: State)
    requires HANDLER.Reaches(Opened(legacyAgent), s) && s.outPc.OutHalfClose?
    requires HANDLER.Reaches(Next(s, OutClose), t)
    ensures Eof in t.clientLog <==> Close !in s.clientLog
  {
    HandlerInvariant(legacyAgent, s);
    ClosesInvariant(legacyAgent, s);
    OutCloseFirst(s);
    InvStep(s, OutClose);
    OutputEnds(Next(s, OutClose), t, Close !in s.clientLog);
  }

  /** The client's close is shown exactly once its goroutine, or the handler, has passed the deferred call; its EOF only
      after the half-close, which leaves an EOF or finds the channel closed; and nothing but attempts to send
      keepalives follows the close. */
  lemma ClientClosedExactly(legacyAgent: bool, s: State)
    requires HANDLER.Reaches(Opened(legacyAgent), s)
    ensures Close in s.clientLog <==> s.agentExit.LeaveGroup? || s.agentExit.Exited? || s.main.Returned?
    ensures Eof in s.clientLog ==> s.outPc.OutLeaveGroup? || s.outPc.OutExited?
    ensures s.outPc.OutLeaveGroup? || s.outPc.OutExited? ==> Eof in s.clientLog || Close in s.clientLog
    ensures forall i, j | 0 <= i < j < |s.clientLog| && s.clientLog[i].Close? :: s.clientLog[j].KeepAlive?
  {
    HandlerInvariant(legacyAgent, s);
    ClosesInvariant(legacyAgent, s);
  }

  // ---------------------------------------------------------------------------------------------------
  // Keepalives and refusals
  // ---------------------------------------------------------------------------------------------------

  function KeepAlivesOf(log: seq<PeerEvent>): seq<R.Request> {
    if log == [] then [] else
    KeepAlivesOf(log[..|log| - 1]) + if log[|log| - 1].KeepAlive? then [log[|log| - 1].request] else []
  }

  /** The keepalives among `requests`, every type with the prefix "keepalive", under the one type they are forwarded
      with. */
  function Forwarded(requests: seq<R.Request>): seq<R.Request> {
    if requests == [] then [] else
    var r := requests[|requests| - 1];
    Forwarded(requests[..|requests| - 1]) +
    if "keepalive" <= r.kind then [R.Request("keepalive@shellhub.io", r.wantReply, r.payload)] else []
  }

  /** How many of `requests` must be refused. */
  function Refusals(requests: seq<R.Request>): nat {
    if requests == [] then 0 else
    Refusals(requests[..|requests| - 1]) +
    if !("keepalive" <= requests[|requests| - 1].kind) && requests[|requests| - 1].wantReply then 1 else 0
  }

  /** The requests this handler received. */
  function Received(g: Globals): seq<R.Request>
    requires forall i | 0 <= i < |g.mine| :: g.mine[i] < |g.queue|
  {
    seq(|g.mine|, i requires 0 <= i < |g.mine| => g.queue[g.mine[i]])
  }

  /** What this handler received are distinct requests of the shared queue, in its order, all of them taken. */
  ghost predicate Picked(g: Globals) {
    && g.taken <= |g.queue|
    && (forall i | 0 <= i < |g.mine| :: g.mine[i] < g.taken)
    && (forall i, j | 0 <= i < j < |g.mine| :: g.mine[i] < g.mine[j])
  }

  ghost predicate GlobalsOk(s: State) {
    && Picked(s.globals)
    && KeepAlivesOf(s.clientLog) == Forwarded(Received(s.globals))
    && s.globals.refused == Refusals(Received(s.globals))
  }

  lemma KeepAlivesAppend(log: seq<PeerEvent>, e: PeerEvent)
    ensures KeepAlivesOf(log + [e]) == KeepAlivesOf(log) + if e.KeepAlive? then [e.request] else []
  {
    assert (log + [e])[..|log + [e]| - 1] == log;
  }

  lemma ReceivedAppend(requests: seq<R.Request>, r: R.Request)
    ensures Forwarded(requests + [r])
            == if IsKeepAlive(r) then Forwarded(requests) + [Renamed(r)] else Forwarded(requests)
    ensures Refusals(requests + [r]) == Refusals(requests) + if !IsKeepAlive(r) && r.wantReply then 1 else 0
  {
    assert (requests + [r])[..|requests + [r]| - 1] == requests;
  }

  lemma PickNext(g: Globals, h: Globals)
    requires Picked(g) && g.taken < |g.queue|
    requires h.queue == g.queue && h.taken == g.taken + 1 && h.mine == g.mine + [g.taken]
    ensures Picked(h) && Received(h) == Received(g) + [g.queue[g.taken]]
  {
  }

  /** Neither arrivals nor what other handlers take change what this handler received. */
  lemma ReceivedStays(g: Globals, h: Globals)
    requires Picked(g) && g.queue <= h.queue && g.taken <= h.taken <= |h.queue| && h.mine == g.mine
    ensures Picked(h) && Received(h) == Received(g)
  {
  }

  lemma GlobalsForward(s: State, r: R.Request, sent: bool)
    requires GlobalsOk(s) && s.globals.taken < |s.globals.queue| && r == s.globals.queue[s.globals.taken]
    requires IsKeepAlive(r)
    ensures GlobalsOk(ForwardKeepAlive(s, r, sent))
  {
    KeepAlivesAppend(s.clientLog, KeepAlive(Renamed(r)));
    ReceivedAppend(Received(s.globals), r);
    PickNext(s.globals, ForwardKeepAlive(s, r, sent).globals);
  }

  lemma RefusalCounts(before: seq<R.Request>, after: seq<R.Request>, r: R.Request)
    requires after == before + [r] && !IsKeepAlive(r)
    ensures Forwarded(after) == Forwarded(before)
    ensures Refusals(after) == Refusals(before) + if r.wantReply then 1 else 0
  {
    ReceivedAppend(before, r);
  }

  lemma GlobalsRefuse(s: State, r: R.Request)
    requires GlobalsOk(s) && s.globals.taken < |s.globals.queue| && r == s.globals.queue[s.globals.taken]
    requires !IsKeepAlive(r)
    ensures GlobalsOk(RefuseGlobal(s, r))
  {
    var next := RefuseGlobal(s, r).globals;
    PickNext(s.globals, next);
    RefusalCounts(Received(s.globals), Received(next), r);
  }

  lemma GlobalsTake(s: State, sent: bool)
    requires GlobalsOk(s) && s.globals.taken < |s.globals.queue|
    ensures GlobalsOk(NextGlobal(s, sent))
  {
    var r := s.globals.queue[s.globals.taken];
    if IsKeepAlive(r) {
      GlobalsForward(s, r, sent);
    } else {
      GlobalsRefuse(s, r);
    }
  }

  /** What a step other than the global-request loop's adds to the client's log. */
  lemma OtherLogs(s: State, l: Label) returns (more: seq<PeerEvent>)
    requires Enabled(s, l) && !l.TakeGlobal? && !l.Env?
    ensures Next(s, l).clientLog == s.clientLog + more && |more| <= 1 && forall e | e in more :: !e.KeepAlive?
    ensures Next(s, l).globals == s.globals.(left := Next(s, l).globals.left)
  {
    more := if l.AgentLoop? then
              if l.relay.Receive? then [Request(s.agentRequests.queue[s.agentRequests.taken])] else []
            else if l.CopyOut? then Shown(s.toClient, l.copy)
            else if Close in s.clientLog then []
            else if l.OutClose? then [Eof]
            else if l.AgentCloseClient? || l.CloseClientDeferred? then [Close]
            else [];
  }

  lemma GlobalsEnvStep(s: State, e: EnvStep)
    requires GlobalsOk(s) && EnvEnabled(s, e)
    ensures GlobalsOk(NextEnv(s, e))
  {
    EnvControl(s, e);
    var g, h := s.globals, NextEnv(s, e).globals;
    assert g.queue <= h.queue && g.taken <= h.taken <= |h.queue| && h.mine == g.mine && h.refused == g.refused;
    ReceivedStays(g, h);
  }

  lemma GlobalsOther(s: State, l: Label)
    requires GlobalsOk(s) && Enabled(s, l) && !l.TakeGlobal? && !l.Env?
    ensures GlobalsOk(Next(s, l))
  {
    var more := OtherLogs(s, l);
    if more == [] {
      assert s.clientLog + more == s.clientLog;
    } else {
      assert more == [more[0]] && more[0] in more;
      KeepAlivesAppend(s.clientLog, more[0]);
    }
    ReceivedStays(s.globals, Next(s, l).globals);
  }

  lemma GlobalsStep(s: State, l: Label)
    requires GlobalsOk(s) && Enabled(s, l)
    ensures GlobalsOk(Next(s, l))
  {
    if l.TakeGlobal? {
      GlobalsTake(s, l.sent);
    } else if l.Env? {
      GlobalsEnvStep(s, l.env);
    } else {
      GlobalsOther(s, l);
    }
  }

  /** Over every run the requests this handler received stand in the shared queue at strictly increasing places
      among those taken; the client is shown exactly the keepalives among them, in order and under the one current
      type, and exactly the others that want a reply were refused. */
  lemma GlobalsAnswered(legacyAgent: bool, s: State)
    requires HANDLER.Reaches(Opened(legacyAgent), s)
    ensures Picked(s.globals)
    ensures KeepAlivesOf(s.clientLog) == Forwarded(Received(s.globals))
    ensures s.globals.refused == Refusals(Received(s.globals))
  {
    forall s, l | GlobalsOk(s) && HANDLER.enabled(s, l)
      ensures GlobalsOk(HANDLER.next(s, l))
    {
      GlobalsStep(s, l);
    }
    HANDLER.Invariant(GlobalsOk, Opened(legacyAgent), s);
  }
}
