/** One session-channel handler of the SSH server, from the moment both channels are open, as interleaved steps of
    its goroutines: the handler itself (`Main`), the three request loops, the once-only pipe with its two copies,
    and everything around them (`Env`). A deferred call is a step of its own wherever another goroutine could
    tell the difference.
 */
module SessionChannel {
  import opened Machines
  import R = RequestRelay
  import B = ByteCopy

  /** What the peer on one side of the handler is shown, in order. `Request` and `KeepAlive` are attempts to send one;
      `Data`, `Eof` and `Close` are what the channel really took: once this side has closed it, it takes none. */
  datatype PeerEvent =
    | Data(bytes: seq<B.byte>)
    | Request(request: R.Request)
    | KeepAlive(request: R.Request)
    | Eof
    | Close

  /** The handler goroutine: waiting for the group, then the two deferred closes in their order. */
  datatype Main = Waiting | ClosingAgent | ClosingClient | Returned

  /** What the agent-request goroutine still has to do after its loop: receive from `done`, close the client,
      leave the group. */
  datatype AgentExit = AwaitDone | CloseClient | LeaveGroup | Exited

  /** The agent-to-client copy and its defers: send on `done`, half-close the client, leave the pipe's group. */
  datatype OutPc = OutIdle | OutCopying | OutSendDone | OutHalfClose | OutLeaveGroup | OutExited

  /** The client-to-agent copy and its defers. */
  datatype InPc = InIdle | InCopying | InHalfClose | InLeaveGroup | InExited

  /** The global requests of the agent connection, as this handler sees them: `taken` of them are gone, `mine` are
      the places in `queue` of those this handler received, `refused` counts its refusals. */
  datatype Globals = Globals(queue: seq<R.Request>, taken: nat, closed: bool, left: bool, mine: seq<nat>,
                             refused: nat)

  /** The goroutine of `pipe`: how often it was started, its wait group, and whether it returned. */
  datatype Pipe = Pipe(starts: nat, group: nat, returned: bool)

  /** The SSH session that all channels of the connection share: whether the agent's version is below v0.9.3, whether
      `sess.Type` was set to exec and, as history, whether another channel did that. */
  datatype Session = Session(legacyAgent: bool, exec: bool, execElsewhere: bool)

  datatype State = State(
    ctxDone: bool,
    session: Session,
    main: Main,
    group: nat,
    globals: Globals,
    agentRequests: R.Relay,
    agentExit: AgentExit,
    clientRequests: R.Relay,
    pipe: Pipe,
    toClient: B.Copier,
    outPc: OutPc,
    toAgent: B.Copier,
    inPc: InPc,
    clientLog: seq<PeerEvent>,
    agentLog: seq<PeerEvent>)

  function Opened(legacyAgent: bool): State {
    State(false, Session(legacyAgent, false, false), Waiting, 3, Globals([], 0, false, false, [], 0), R.Fresh(false),
          AwaitDone, R.Fresh(true), Pipe(0, 0, false), B.FRESH, OutIdle, B.FRESH, InIdle, [], [])
  }

  datatype Source = Stdout | Stderr | Stdin | StdinExtended

  datatype EnvStep =
    | ContextDone
    | AgentRequest(request: R.Request)
    | AgentRequestsClose
    | ClientRequest(request: R.Request)
    | ClientRequestsClose
    | GlobalRequest(request: R.Request)
    | GlobalStolen                         // consumed by another session channel of the same connection
    | GlobalsClose
    | ExecElsewhere                        // another session channel of the connection received an exec request
    | Bytes(source: Source, bytes: seq<B.byte>)
    | End(source: Source)

  datatype Label =
    | GroupEmpty
    | CloseAgentDeferred
    | CloseClientDeferred
    | TakeGlobal(sent: bool)
    | LeaveGlobals(byClose: bool)
    | AgentLoop(relay: R.Step)
    | Done
    | AgentCloseClient
    | AgentLeaveGroup
    | ClientLoop(relay: R.Step)
    | Trigger
    | CopyOut(copy: B.Step)
    | OutClose
    | OutLeave
    | CopyIn(copy: B.Step)
    | InClose
    | InLeave
    | PipeReturn
    | Env(env: EnvStep)

  predicate IsKeepAlive(r: R.Request) {
    "keepalive" <= r.kind
  }

  predicate EnvEnabled(s: State, e: EnvStep) {
    match e
    case AgentRequest(_) => !s.agentRequests.closed
    case ClientRequest(_) => !s.clientRequests.closed
    case GlobalRequest(_) => !s.globals.closed
    case GlobalStolen => s.globals.taken < |s.globals.queue|
    case _ => true
  }

  /** A write on a channel that this side has closed takes no byte. That matters for the agent's channel only:
      `NoTruncation` shows that nothing is written to the client after its close. */
  predicate Enabled(s: State, l: Label) {
    match l
    case GroupEmpty => s.main.Waiting? && s.group == 0
    case CloseAgentDeferred => s.main.ClosingAgent?
    case CloseClientDeferred => s.main.ClosingClient?
    case TakeGlobal(sent) =>
      !s.globals.left && s.globals.taken < |s.globals.queue| &&
      (sent || IsKeepAlive(s.globals.queue[s.globals.taken]))
    case LeaveGlobals(byClose) =>
      !s.globals.left && if byClose then s.globals.closed && s.globals.taken == |s.globals.queue| else s.ctxDone
    case AgentLoop(step) => R.Enabled(s.agentRequests, s.ctxDone, step)
    case Done => s.agentRequests.mode.Left? && s.agentExit.AwaitDone? && s.outPc.OutSendDone?
    case AgentCloseClient => s.agentExit.CloseClient?
    case AgentLeaveGroup => s.agentExit.LeaveGroup?
    case ClientLoop(step) => R.Enabled(s.clientRequests, s.ctxDone, step)
    case Trigger => s.clientRequests.mode.Triggering?
    case CopyOut(step) => s.outPc.OutCopying? && B.Enabled(s.toClient, step)
    case OutClose => s.outPc.OutHalfClose?
    case OutLeave => s.outPc.OutLeaveGroup?
    case CopyIn(step) =>
      s.inPc.InCopying? && B.Enabled(s.toAgent, step) && (step.Write? && Close in s.agentLog ==> step.k == 0)
    case InClose => s.inPc.InHalfClose?
    case InLeave => s.inPc.InLeaveGroup?
    case PipeReturn => s.pipe.starts > 0 && s.pipe.group == 0 && !s.pipe.returned
    case Env(e) => EnvEnabled(s, e)
  }

  /** `sync.WaitGroup.Done`. */
  function Minus(group: nat): nat {
    if group == 0 then 0 else group - 1
  }

  predicate FromAgent(source: Source) {
    source.Stdout? || source.Stderr?
  }

  function NextEnv(s: State, e: EnvStep): State {
    match e
    case ContextDone => s.(ctxDone := true)
    case AgentRequest(r) => s.(agentRequests := s.agentRequests.(queue := s.agentRequests.queue + [r]))
    case AgentRequestsClose => s.(agentRequests := s.agentRequests.(closed := true))
    case ClientRequest(r) => s.(clientRequests := s.clientRequests.(queue := s.clientRequests.queue + [r]))
    case ClientRequestsClose => s.(clientRequests := s.clientRequests.(closed := true))
    case GlobalRequest(r) => s.(globals := s.globals.(queue := s.globals.queue + [r]))
    case GlobalStolen => s.(globals := s.globals.(taken := s.globals.taken + 1))
    case GlobalsClose => s.(globals := s.globals.(closed := true))
    case ExecElsewhere => s.(session := s.session.(exec := true, execElsewhere := true))
    case Bytes(source, bytes) =>
      if FromAgent(source) then s.(toClient := B.Arrive(s.toClient, source.Stderr?, bytes))
      else s.(toAgent := B.Arrive(s.toAgent, source.StdinExtended?, bytes))
    case End(source) =>
      if FromAgent(source) then s.(toClient := B.End(s.toClient, source.Stderr?))
      else s.(toAgent := B.End(s.toAgent, source.StdinExtended?))
  }

  /** The request as `SendRequest` sends it to the client: always under the current keepalive type. */
  function Renamed(r: R.Request): R.Request {
    r.(kind := "keepalive@shellhub.io")
  }

  /** A keepalive goes to the client; if that fails the goroutine leaves. */
  function ForwardKeepAlive(s: State, r: R.Request, sent: bool): State {
    s.(clientLog := s.clientLog + [KeepAlive(Renamed(r))],
       globals := s.globals.(taken := s.globals.taken + 1, left := !sent, mine := s.globals.mine + [s.globals.taken]),
       group := if sent then s.group else Minus(s.group))
  }

  function RefuseGlobal(s: State, r: R.Request): State {
    s.(globals := s.globals.(taken := s.globals.taken + 1, mine := s.globals.mine + [s.globals.taken],
                             refused := s.globals.refused + if r.wantReply then 1 else 0))
  }

  function NextGlobal(s: State, sent: bool): State
    requires s.globals.taken < |s.globals.queue|
  {
    var r := s.globals.queue[s.globals.taken];
    if IsKeepAlive(r) then ForwardKeepAlive(s, r, sent) else RefuseGlobal(s, r)
  }

  function NextAgentLoop(s: State, step: R.Step): State
    requires R.Enabled(s.agentRequests, s.ctxDone, step)
  {
    s.(agentRequests := R.Next(s.agentRequests, step),
       clientLog := if step.Receive?
                    then s.clientLog + [Request(s.agentRequests.queue[s.agentRequests.taken])] else s.clientLog)
  }

  function NextClientLoop(s: State, step: R.Step): State
    requires R.Enabled(s.clientRequests, s.ctxDone, step)
  {
    var t := s.(clientRequests := R.Next(s.clientRequests, step));
    match step
    case Receive =>
      var r := s.clientRequests.queue[s.clientRequests.taken];
      t.(agentLog := s.agentLog + [Request(r)],
         session := s.session.(exec := s.session.exec || r.kind == "exec" || r.kind == "subsystem"))
    case Leave(_) => t.(group := Minus(s.group))
    case _ => t
  }

  /** The once-only start of the pipe, and back to the loop. */
  function NextTrigger(s: State): State {
    var t := s.(clientRequests := s.clientRequests.(mode := R.Looping));
    if s.pipe.starts > 0 then t
    else t.(pipe := Pipe(1, 2, false), outPc := OutCopying, inPc := InCopying)
  }

  /** What a copy step shows to the peer it writes to. */
  function Shown(c: B.Copier, step: B.Step): seq<PeerEvent>
    requires B.Enabled(c, step)
  {
    match step
    case Write(k) => if k == 0 then [] else [Data(c.buf[..k])]
    case _ => []
  }

  function NextCopyOut(s: State, step: B.Step): State
    requires B.Enabled(s.toClient, step)
  {
    var c := B.Next(s.toClient, step);
    s.(toClient := c, outPc := if c.status.Copying? then s.outPc else OutSendDone,
       clientLog := s.clientLog + Shown(s.toClient, step))
  }

  function NextCopyIn(s: State, step: B.Step): State
    requires B.Enabled(s.toAgent, step)
  {
    var c := B.Next(s.toAgent, step);
    s.(toAgent := c, inPc := if c.status.Copying? then s.inPc else InHalfClose,
       agentLog := s.agentLog + Shown(s.toAgent, step))
  }

  /** A channel that this side has closed takes no EOF and no second close. */
  function WithEnding(log: seq<PeerEvent>, e: PeerEvent): seq<PeerEvent> {
    if Close in log then log else log + [e]
  }

  function Next(s: State, l: Label): State {
    if !Enabled(s, l) then s else
    match l
    case GroupEmpty => s.(main := ClosingAgent)
    case CloseAgentDeferred => s.(main := ClosingClient, agentLog := WithEnding(s.agentLog, Close))
    case CloseClientDeferred => s.(main := Returned, clientLog := WithEnding(s.clientLog, Close))
    case TakeGlobal(sent) => NextGlobal(s, sent)
    case LeaveGlobals(_) => s.(globals := s.globals.(left := true), group := Minus(s.group))
    case AgentLoop(step) => NextAgentLoop(s, step)
    case Done => s.(agentExit := CloseClient, outPc := OutHalfClose)
    case AgentCloseClient => s.(agentExit := LeaveGroup, clientLog := WithEnding(s.clientLog, Close))
    case AgentLeaveGroup => s.(agentExit := Exited, group := Minus(s.group))
    case ClientLoop(step) => NextClientLoop(s, step)
    case Trigger => NextTrigger(s)
    case CopyOut(step) => NextCopyOut(s, step)
    case OutClose => s.(outPc := OutLeaveGroup, clientLog := WithEnding(s.clientLog, Eof))
    case OutLeave => s.(outPc := OutExited, pipe := s.pipe.(group := Minus(s.pipe.group)))
    case CopyIn(step) => NextCopyIn(s, step)
    case InClose =>
      s.(inPc := InLeaveGroup,
         agentLog := WithEnding(s.agentLog, if s.session.legacyAgent && s.session.exec then Close else Eof))
    case InLeave => s.(inPc := InExited, pipe := s.pipe.(group := Minus(s.pipe.group)))
    case PipeReturn => s.(pipe := s.pipe.(returned := true))
    case Env(e) => NextEnv(s, e)
  }

  const HANDLER := Machine(Enabled, Next)

  // ---------------------------------------------------------------------------------------------------
  // Reading the logs
  // ---------------------------------------------------------------------------------------------------

  function DataOf(log: seq<PeerEvent>): seq<B.byte> {
    if log == [] then [] else
    DataOf(log[..|log| - 1]) + if log[|log| - 1].Data? then log[|log| - 1].bytes else []
  }

  function RequestsOf(log: seq<PeerEvent>): seq<R.Request> {
    if log == [] then [] else
    RequestsOf(log[..|log| - 1]) + if log[|log| - 1].Request? then [log[|log| - 1].request] else []
  }

  lemma LogAppend(log: seq<PeerEvent>, e: PeerEvent)
    ensures DataOf(log + [e]) == DataOf(log) + if e.Data? then e.bytes else []
    ensures RequestsOf(log + [e]) == RequestsOf(log) + if e.Request? then [e.request] else []
  {
    assert (log + [e])[..|log + [e]| - 1] == log;
  }

  predicate Ending(e: PeerEvent) {
    e.Eof? || e.Close?
  }

  /** The peer has been shown an EOF or a close. */
  ghost predicate Ended(log: seq<PeerEvent>) {
    exists i :: 0 <= i < |log| && Ending(log[i])
  }

  /** Nothing but keepalives and further endings follows the first ending. */
  ghost predicate Ordered(log: seq<PeerEvent>) {
    forall i, j | 0 <= i < j < |log| && Ending(log[i]) :: !log[j].Data? && !log[j].Request?
  }

  /** No data follows an ending. */
  ghost predicate DataFirst(log: seq<PeerEvent>) {
    forall i, j | 0 <= i < j < |log| && Ending(log[i]) :: !log[j].Data?
  }

  lemma EndedAppend(log: seq<PeerEvent>, e: PeerEvent)
    ensures Ended(log + [e]) <==> Ended(log) || Ending(e)
    ensures Ordered(log) && (Ended(log) ==> !e.Data? && !e.Request?) ==> Ordered(log + [e])
    ensures DataFirst(log) && (Ended(log) ==> !e.Data?) ==> DataFirst(log + [e])
  {
    assert (log + [e])[|log|] == e;
    if Ended(log) {
      var i :| 0 <= i < |log| && Ending(log[i]);
      assert Ending((log + [e])[i]);
    }
  }

  // ---------------------------------------------------------------------------------------------------
  // Invariants
  // ---------------------------------------------------------------------------------------------------

  /** The wait group counts the goroutines that have not left it; the handler passes it only when empty. */
  predicate GroupOk(s: State) {
    && s.group == (if s.globals.left then 0 else 1) + (if s.agentExit.Exited? then 0 else 1) +
                  (if s.clientRequests.mode.Left? then 0 else 1)
    && (!s.main.Waiting? ==> s.group == 0)
    && s.globals.taken <= |s.globals.queue|
  }

  /** The pipe and both copies start together, at most once. */
  predicate PipeOk(s: State) {
    && s.pipe.starts <= 1
    && (s.outPc.OutIdle? <==> s.pipe.starts == 0)
    && (s.inPc.InIdle? <==> s.pipe.starts == 0)
    && s.pipe.group == (if s.pipe.starts == 0 then 0
                        else (if s.outPc.OutExited? then 0 else 1) + (if s.inPc.InExited? then 0 else 1))
    && (s.pipe.returned ==> s.pipe.starts == 1 && s.pipe.group == 0)
    && (s.toClient.status.Copying? <==> s.outPc.OutIdle? || s.outPc.OutCopying?)
    && (s.toAgent.status.Copying? <==> s.inPc.InIdle? || s.inPc.InCopying?)
  }

  /** The rendezvous on `done` has happened for both sides or for neither, and only after the agent-request
      loop was left. */
  predicate DoneOk(s: State) {
    && (s.agentExit.AwaitDone? <==> s.outPc.OutIdle? || s.outPc.OutCopying? || s.outPc.OutSendDone?)
    && (!s.agentExit.AwaitDone? ==> s.agentRequests.mode.Left?)
  }

  ghost predicate PartsOk(s: State) {
    && R.Ok(s.agentRequests) && !s.agentRequests.triggers
    && R.Ok(s.clientRequests) && s.clientRequests.triggers
    && B.Ok(s.toClient) && B.Ok(s.toAgent)
  }

  ghost predicate TriggerOk(s: State) {
    s.pipe.starts > 0 <==> R.Triggered(s.clientRequests)
  }

  /** A peer's log shows the written bytes and the requests taken, in their orders. */
  ghost predicate Shows(log: seq<PeerEvent>, c: B.Copier, r: R.Relay) {
    && DataOf(log) == c.written
    && r.taken <= |r.queue|
    && RequestsOf(log) == r.queue[..r.taken]
  }

  ghost predicate ClientLogOk(s: State) {
    && Shows(s.clientLog, s.toClient, s.agentRequests)
    && Ordered(s.clientLog)
    && (Ended(s.clientLog) ==> !s.agentExit.AwaitDone?)
  }

  ghost predicate AgentLogOk(s: State) {
    && Shows(s.agentLog, s.toAgent, s.clientRequests)
    && DataFirst(s.agentLog)
    && (Eof in s.agentLog ==> s.inPc.InLeaveGroup? || s.inPc.InExited?)
  }

  ghost predicate Inv(s: State) {
    GroupOk(s) && PipeOk(s) && DoneOk(s) && PartsOk(s) && TriggerOk(s) && ClientLogOk(s) && AgentLogOk(s)
  }

  /** What the environment cannot touch. */
  predicate SameControl(s: State, t: State) {
    && s.main == t.main && s.group == t.group && s.agentExit == t.agentExit && s.pipe == t.pipe
    && s.outPc == t.outPc && s.inPc == t.inPc && s.clientLog == t.clientLog && s.agentLog == t.agentLog
    && s.globals.left == t.globals.left
    && s.toClient.status == t.toClient.status && s.toClient.written == t.toClient.written
    && s.toAgent.status == t.toAgent.status && s.toAgent.written == t.toAgent.written
  }

  predicate SameRelay(r: R.Relay, q: R.Relay) {
    r.taken == q.taken && r.mode == q.mode && r.outcomes == q.outcomes && r.queue <= q.queue
  }

  lemma StreamsControl(s: State, e: EnvStep)
    requires e.Bytes? || e.End?
    ensures SameControl(s, NextEnv(s, e))
  {
  }

  lemma EnvControl(s: State, e: EnvStep)
    requires EnvEnabled(s, e)
    ensures SameControl(s, NextEnv(s, e))
  {
    if e.Bytes? || e.End? {
      StreamsControl(s, e);
    }
  }

  lemma EnvRelays(s: State, e: EnvStep)
    requires EnvEnabled(s, e)
    ensures SameRelay(s.agentRequests, NextEnv(s, e).agentRequests)
    ensures SameRelay(s.clientRequests, NextEnv(s, e).clientRequests)
  {
  }

  lemma GroupFrame(s: State, t: State)
    requires GroupOk(s) && SameControl(s, t) && SameRelay(s.clientRequests, t.clientRequests)
    requires t.globals.taken <= |t.globals.queue|
    ensures GroupOk(t)
  {
  }

  lemma GlobalsEnv(s: State, e: EnvStep)
    requires s.globals.taken <= |s.globals.queue| && EnvEnabled(s, e)
    ensures NextEnv(s, e).globals.taken <= |NextEnv(s, e).globals.queue|
  {
  }

  lemma GroupEnv(s: State, e: EnvStep)
    requires GroupOk(s) && EnvEnabled(s, e)
    ensures GroupOk(NextEnv(s, e))
  {
    EnvControl(s, e);
    EnvRelays(s, e);
    GlobalsEnv(s, e);
    GroupFrame(s, NextEnv(s, e));
  }

  lemma GroupAgentLoop(s: State, step: R.Step)
    requires GroupOk(s) && R.Enabled(s.agentRequests, s.ctxDone, step)
    ensures GroupOk(NextAgentLoop(s, step))
  {
  }

  lemma GroupClientLoop(s: State, step: R.Step)
    requires GroupOk(s) && R.Enabled(s.clientRequests, s.ctxDone, step)
    ensures GroupOk(NextClientLoop(s, step))
  {
  }

  lemma GroupTakeGlobal(s: State, r: R.Request, sent: bool)
    requires GroupOk(s) && !s.globals.left && s.globals.taken < |s.globals.queue|
    ensures GroupOk(ForwardKeepAlive(s, r, sent)) && GroupOk(RefuseGlobal(s, r))
  {
  }

  lemma GroupLeaveGlobals(s: State, byClose: bool)
    requires GroupOk(s) && Enabled(s, LeaveGlobals(byClose))
    ensures GroupOk(Next(s, LeaveGlobals(byClose)))
  {
  }

  lemma GroupOthers(s: State, l: Label)
    requires GroupOk(s) && Enabled(s, l) && !l.Env?
    requires !l.AgentLoop? && !l.ClientLoop? && !l.TakeGlobal? && !l.LeaveGlobals?
    ensures GroupOk(Next(s, l))
  {
  }

  lemma GroupStep(s: State, l: Label)
    requires GroupOk(s) && DoneOk(s) && Enabled(s, l) && !l.Env?
    ensures GroupOk(Next(s, l))
  {
    if l.AgentLoop? {
      GroupAgentLoop(s, l.relay);
    } else if l.ClientLoop? {
      GroupClientLoop(s, l.relay);
    } else if l.TakeGlobal? {
      GroupTakeGlobal(s, s.globals.queue[s.globals.taken], l.sent);
    } else if l.LeaveGlobals? {
      GroupLeaveGlobals(s, l.byClose);
    } else {
      GroupOthers(s, l);
    }
  }

  lemma PipeCopies(s: State, l: Label)
    requires PipeOk(s) && Enabled(s, l) && (l.CopyOut? || l.CopyIn?)
    ensures PipeOk(Next(s, l))
  {
  }

  predicate MovesPipe(l: Label) {
    l.Trigger? || l.Done? || l.OutClose? || l.OutLeave? || l.InClose? || l.InLeave? || l.PipeReturn?
  }

  lemma PipeMoves(s: State, l: Label)
    requires PipeOk(s) && Enabled(s, l) && MovesPipe(l)
    ensures PipeOk(Next(s, l))
  {
  }

  lemma PipeOthers(s: State, l: Label)
    requires PipeOk(s) && Enabled(s, l) && !l.CopyOut? && !l.CopyIn? && !l.Env? && !MovesPipe(l)
    ensures PipeOk(Next(s, l))
  {
  }

  lemma PipeStep(s: State, l: Label)
    requires PipeOk(s) && Enabled(s, l) && !l.Env?
    ensures PipeOk(Next(s, l))
  {
    if l.CopyOut? || l.CopyIn? {
      PipeCopies(s, l);
    } else if MovesPipe(l) {
      PipeMoves(s, l);
    } else {
      PipeOthers(s, l);
    }
  }

  lemma DoneStep(s: State, l: Label)
    requires PipeOk(s) && DoneOk(s) && Enabled(s, l) && !l.Env?
    ensures DoneOk(Next(s, l))
  {
    match l
    case AgentLoop(_) =>
    case ClientLoop(_) =>
    case CopyOut(_) =>
    case CopyIn(_) =>
    case TakeGlobal(_) =>
    case _ =>
  }

  lemma PartsArrival(s: State, e: EnvStep)
    requires PartsOk(s) && (e.Bytes? || e.End?)
    ensures PartsOk(NextEnv(s, e))
  {
    var bytes := if e.Bytes? then e.bytes else [];
    B.OkArrival(s.toClient, e.source.Stderr?, bytes);
    B.OkArrival(s.toAgent, e.source.StdinExtended?, bytes);
  }

  lemma PartsEnv(s: State, e: EnvStep)
    requires PartsOk(s) && EnvEnabled(s, e)
    ensures PartsOk(NextEnv(s, e))
  {
    if e.Bytes? || e.End? {
      PartsArrival(s, e);
    } else if e.AgentRequest? {
      R.OkArrival(s.agentRequests, e.request);
    } else if e.ClientRequest? {
      R.OkArrival(s.clientRequests, e.request);
    }
  }

  lemma PartsStep(s: State, l: Label)
    requires PartsOk(s) && Enabled(s, l) && !l.Env?
    ensures PartsOk(Next(s, l))
  {
    match l
    case AgentLoop(step) => R.OkStep(s.agentRequests, s.ctxDone, step);
    case ClientLoop(step) => R.OkStep(s.clientRequests, s.ctxDone, step);
    case CopyOut(step) => B.OkStep(s.toClient, step);
    case CopyIn(step) => B.OkStep(s.toAgent, step);
    case _ =>
  }

  // Trigger

  lemma TriggerEnv(s: State, e: EnvStep)
    requires TriggerOk(s) && R.Ok(s.clientRequests) && EnvEnabled(s, e)
    ensures TriggerOk(NextEnv(s, e))
  {
    EnvControl(s, e);
    EnvRelays(s, e);
    R.TriggeredArrival(s.clientRequests, NextEnv(s, e).clientRequests);
  }

  lemma TriggerStep(s: State, l: Label)
    requires TriggerOk(s) && PartsOk(s) && Enabled(s, l) && !l.Env?
    ensures TriggerOk(Next(s, l))
  {
    if l.ClientLoop? {
      R.TriggeredStep(s.clientRequests, s.ctxDone, l.relay);
    } else if l.Trigger? {
      R.TriggeredByTrigger(s.clientRequests);
    } else {
      assert Next(s, l).clientRequests == s.clientRequests;
    }
  }

  // The logs

  lemma ClientLogEnv(s: State, e: EnvStep)
    requires ClientLogOk(s) && PartsOk(s) && EnvEnabled(s, e)
    ensures ClientLogOk(NextEnv(s, e))
  {
    EnvControl(s, e);
    EnvRelays(s, e);
  }

  lemma ShowsRelay(log: seq<PeerEvent>, c: B.Copier, r: R.Relay, ctxDone: bool, step: R.Step)
    requires Shows(log, c, r) && R.Ok(r) && R.Enabled(r, ctxDone, step)
    ensures Shows(if step.Receive? then log + [Request(r.queue[r.taken])] else log, c, R.Next(r, step))
  {
    if step.Receive? {
      LogAppend(log, Request(r.queue[r.taken]));
    }
  }

  lemma ShowsCopy(log: seq<PeerEvent>, c: B.Copier, r: R.Relay, step: B.Step)
    requires Shows(log, c, r) && B.Enabled(c, step)
    ensures Shows(log + Shown(c, step), B.Next(c, step), r)
  {
    if step.Write? && step.k > 0 {
      LogAppend(log, Data(c.buf[..step.k]));
      assert c.buf[..|c.buf|] == c.buf;
    } else {
      assert log + [] == log;
    }
  }

  lemma ShowsOther(log: seq<PeerEvent>, c: B.Copier, r: R.Relay, e: PeerEvent)
    requires Shows(log, c, r) && !e.Data? && !e.Request?
    ensures Shows(log + [e], c, r)
  {
    LogAppend(log, e);
  }

  lemma ClientLogAgentLoop(s: State, step: R.Step)
    requires ClientLogOk(s) && R.Ok(s.agentRequests) && DoneOk(s)
    requires R.Enabled(s.agentRequests, s.ctxDone, step)
    ensures ClientLogOk(NextAgentLoop(s, step))
  {
    ShowsRelay(s.clientLog, s.toClient, s.agentRequests, s.ctxDone, step);
    if step.Receive? {
      EndedAppend(s.clientLog, Request(s.agentRequests.queue[s.agentRequests.taken]));
    }
  }

  lemma ClientLogCopy(s: State, step: B.Step)
    requires ClientLogOk(s) && DoneOk(s) && s.outPc.OutCopying? && B.Enabled(s.toClient, step)
    ensures ClientLogOk(NextCopyOut(s, step))
  {
    ShowsCopy(s.clientLog, s.toClient, s.agentRequests, step);
    if step.Write? && step.k > 0 {
      EndedAppend(s.clientLog, Data(s.toClient.buf[..step.k]));
    } else {
      assert s.clientLog + [] == s.clientLog;
    }
  }

  lemma ClientLogOther(s: State, t: State, e: PeerEvent)
    requires ClientLogOk(s) && !e.Data? && !e.Request?
    requires Ending(e) ==> !s.agentExit.AwaitDone?
    requires t.clientLog == s.clientLog + [e] || t.clientLog == s.clientLog
    requires t.toClient == s.toClient && t.agentRequests == s.agentRequests
    requires t.agentExit.AwaitDone? ==> s.agentExit.AwaitDone?
    ensures ClientLogOk(t)
  {
    ShowsOther(s.clientLog, s.toClient, s.agentRequests, e);
    EndedAppend(s.clientLog, e);
  }

  lemma ClientLogQuiet(s: State, l: Label)
    requires ClientLogOk(s) && Enabled(s, l) && !l.Env?
    requires !l.AgentLoop? && !l.CopyOut? && !l.TakeGlobal? && !l.OutClose?
    requires !l.AgentCloseClient? && !l.CloseClientDeferred?
    ensures ClientLogOk(Next(s, l))
  {
  }

  lemma ClientLogStep(s: State, l: Label)
    requires ClientLogOk(s) && PartsOk(s) && DoneOk(s) && GroupOk(s) && Enabled(s, l) && !l.Env?
    ensures ClientLogOk(Next(s, l))
  {
    if l.AgentLoop? {
      ClientLogAgentLoop(s, l.relay);
    } else if l.CopyOut? {
      ClientLogCopy(s, l.copy);
    } else if l.TakeGlobal? {
      ClientLogOther(s, Next(s, l), KeepAlive(Renamed(s.globals.queue[s.globals.taken])));
    } else if l.OutClose? {
      ClientLogOther(s, Next(s, l), Eof);
    } else if l.AgentCloseClient? || l.CloseClientDeferred? {
      ClientLogOther(s, Next(s, l), Close);
    } else {
      ClientLogQuiet(s, l);
    }
  }

  lemma AgentLogEnv(s: State, e: EnvStep)
    requires AgentLogOk(s) && PartsOk(s) && EnvEnabled(s, e)
    ensures AgentLogOk(NextEnv(s, e))
  {
    EnvControl(s, e);
    EnvRelays(s, e);
  }

  lemma AgentLogClientLoop(s: State, step: R.Step)
    requires AgentLogOk(s) && R.Ok(s.clientRequests) && R.Enabled(s.clientRequests, s.ctxDone, step)
    ensures AgentLogOk(NextClientLoop(s, step))
  {
    ShowsRelay(s.agentLog, s.toAgent, s.clientRequests, s.ctxDone, step);
    if step.Receive? {
      EndedAppend(s.agentLog, Request(s.clientRequests.queue[s.clientRequests.taken]));
    }
  }

  lemma AgentLogCopy(s: State, step: B.Step)
    requires AgentLogOk(s) && Enabled(s, CopyIn(step))
    ensures AgentLogOk(NextCopyIn(s, step))
  {
    ShowsCopy(s.agentLog, s.toAgent, s.clientRequests, step);
    if step.Write? && step.k > 0 {
      assert Eof !in s.agentLog && Close !in s.agentLog;
      EndedAppend(s.agentLog, Data(s.toAgent.buf[..step.k]));
    } else {
      assert s.agentLog + [] == s.agentLog;
    }
  }

  lemma AgentLogEnding(s: State, l: Label)
    requires AgentLogOk(s) && PipeOk(s) && Enabled(s, l) && (l.InClose? || l.CloseAgentDeferred?)
    ensures AgentLogOk(Next(s, l))
  {
    var e := if l.CloseAgentDeferred? || (s.session.legacyAgent && s.session.exec) then Close else Eof;
    ShowsOther(s.agentLog, s.toAgent, s.clientRequests, e);
    EndedAppend(s.agentLog, e);
    assert Next(s, l).agentLog == WithEnding(s.agentLog, e);
  }

  lemma AgentLogQuiet(s: State, l: Label)
    requires AgentLogOk(s) && PipeOk(s) && Enabled(s, l) && !l.Env?
    requires !l.ClientLoop? && !l.CopyIn? && !l.InClose? && !l.CloseAgentDeferred?
    ensures AgentLogOk(Next(s, l))
  {
  }

  lemma AgentLogStep(s: State, l: Label)
    requires AgentLogOk(s) && PartsOk(s) && PipeOk(s) && Enabled(s, l) && !l.Env?
    ensures AgentLogOk(Next(s, l))
  {
    if l.ClientLoop? {
      AgentLogClientLoop(s, l.relay);
    } else if l.CopyIn? {
      AgentLogCopy(s, l.copy);
    } else if l.InClose? || l.CloseAgentDeferred? {
      AgentLogEnding(s, l);
    } else {
      AgentLogQuiet(s, l);
    }
  }

  lemma InvStep(s: State, l: Label)
    requires Inv(s) && Enabled(s, l)
    ensures Inv(Next(s, l))
  {
    if l.Env? {
      EnvControl(s, l.env);
      EnvRelays(s, l.env);
      GroupEnv(s, l.env);
      PartsEnv(s, l.env);
      TriggerEnv(s, l.env);
      ClientLogEnv(s, l.env);
      AgentLogEnv(s, l.env);
    } else {
      GroupStep(s, l);
      PipeStep(s, l);
      DoneStep(s, l);
      PartsStep(s, l);
      TriggerStep(s, l);
      ClientLogStep(s, l);
      AgentLogStep(s, l);
    }
  }

  lemma InvOpened(legacyAgent: bool)
    ensures Inv(Opened(legacyAgent))
  {
  }

  lemma HandlerInvariant(legacyAgent: bool, s: State)
    requires HANDLER.Reaches(Opened(legacyAgent), s)
    ensures Inv(s)
  {
    forall s, l | Inv(s) && HANDLER.enabled(s, l)
      ensures Inv(HANDLER.next(s, l))
    {
      InvStep(s, l);
    }
    InvOpened(legacyAgent);
    HANDLER.Invariant(Inv, Opened(legacyAgent), s);
  }
}
