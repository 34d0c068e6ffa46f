# Verified protocols of mini-shellhub

Mini-shellhub bridges SSH clients to devices. A device's agent keeps a WebSocket connection to the server, yamux runs
over it, and the server relays each SSH session channel to the agent's own SSH server. The libraries do the wire work;
what the repository itself decides is the order of closes, sends and map updates in a handful of small concurrent
protocols. This project models those protocols and proves what they guarantee over every run, and, where a guarantee
fails, the exact condition under which it holds.

## How it is organised

`Machines.dfy` defines labelled transition systems: `Runs`, `Reaches`, and induction over runs. Each protocol is such
a system. A label names the goroutine that moves and carries every choice its surroundings make for it (which branch a
`select` takes, how many bytes a read yields, whether a dial succeeds), so that quantifying over label sequences is
quantifying over every interleaving and every environment. One label is one step that no other goroutine can look
inside: an operation under a mutex, a channel operation, one deferred call.

| component | transition system | its theorems | in the source's own form |
|---|---|---|---|
| session-channel relay (`ssh/server/channels`) | `RequestRelay`, `ByteCopy`, `SessionChannel` | `SessionTheorems`, `SessionProgress`, `SessionRuns` | `SessionHandler` |
| global requests shared by those handlers | `GlobalRequests` | same module | part of `SessionHandler` |
| device registry (`ssh/main.go`) | `Registry` | `RegistryTheorems` | `DeviceManager` |
| listener and ping (`agent/pkg/agent/agent.go`) | `Listener` | same module | `AgentLoops` |
| WebSocket byte stream (`pkg/yamuxws`) | `YamuxWs` | same module | `WsConn` |
| authentication (`ssh/session`, `ssh/server/auth`) | `Authentication` | same module | `AuthHandlers` |
| seats and channel maps (`ssh/session`) | `Seats` | same module | `Seats.SessionChannels` |

The last column holds classes whose methods update fields, maps, arrays and other objects in place. Each method's
postcondition equates the object's new abstract value with the transition function applied to the old one. For the
relay, the agent's loops and the registry, `Schedule` or `Replay` do the same for whole runs, so that the theorems about
runs are theorems about these objects.

So that no result rests on the model's own bookkeeping, each system also has theorems that read its state off the
labels of the run: what was sent on which stream, which calls were made, what was dialled, announced or answered
(`SessionRuns.RunIsRead`, `RegistryTheorems.LogIsTheRun`, `Listener.LogIsTheRun`,
`Authentication.ConnectionIsItsCalls`, `Seats.SessionIsItsCalls`).

## What was found

* Relay: no truncation; and, unless the context ends, every request of the agent, exit-status among them, before the
  client's EOF and close (`RequestsComeFirst`, `RequestsAllArrive`, `OutputAllArrives`). When the context ends the loop
  may leave with requests untaken (`ContextDropsRequests`). The handler can return, in some
  continuation, if and only if the pipe was started or a pty-req, exec or subsystem request can still reach the
  client-request loop. With everything around it finished, it is sure to return if and only if the pipe was started or
  a triggering request has been answered (`SurelyReturnsExactly`). A client that asks for nothing but a shell, and is
  granted it, leaves it waiting for ever, even with the agent's streams ended (`ShellWaitsForEver`).
* Relay, input: the direction from client to agent is not protected. The handler can return and close the agent's
  channel over an unfinished input copy exactly if that copy has not ended and the handler can return at all
  (`CutOffExactly`); bytes of the client can be lost exactly if the handler can return and the client has not both
  finished sending and had everything written (`InputLostExactly`); and a loss is for good (`NothingAfterClose`).
* Relay, endings: the client's EOF and its close are made by two goroutines. If the close comes first the client never
  sees an EOF (`OutCloseExactly`, `EofCanBeMissed`).
* Relay, old agents: the mark that makes the pipe close an agent's channel instead of half-closing it belongs to the
  SSH session, not to the channel. An exec request on one channel can therefore close another channel of the same
  connection early (`HalfCloseExactly`, `ClosedForAnotherChannel`).
* Registry: at most one open registered session per device ID. A reconnect can be lost, because the removal deferred
  by the displaced handler names only the ID and closes its successor; the exact condition is `ConnectedExactly`,
  and whether a connected session can still be lost that way is told by the handlers there are (`CanBeDroppedExactly`).
  With the removal restricted to a handler's own session, the same theorem needs no exception (`GuardedReconnect`).
* Registry against documentation: `README.md` and `INSTRUCTIONS.md` of the repository say a device may register
  under a bare `X-Device-ID`. The dial always asks for an ID with a colon, so such a device is connected and no target
  reaches it. The model follows the code (`DialableExactly`, `BareIdIsUnreachable`).
* Listener: `ping` authorises only while the last value it received was true. That is not the same as the connection
  being up: between the end of serving and the receipt of false it can still authorise (`TickExactly`,
  `AuthorizesAfterTheEnd`).
* Listener, shutdown: after `Close`, unless the caller cancels, `Listen` is sure to return exactly if the listener was
  neither dialling nor busy with a connection when the flag was set (`CloseSucceedsExactly`, `SurelyReturnsExactly`);
  in the common case, a connection being served, it can be left waiting for ever (`CloseWhileServing`). Whether some
  continuation still returns has its own exact condition (`CanReturnExactly`).
* Authentication: every public key is accepted, also when the banner call found no valid target and no session was
  made. The channel handlers then find none, and `DefaultSessionHandler` uses it without asking
  (`SessionFoundExactly`, `AcceptedWithoutSession`).

## Model

| member | source | states |
|---|---|---|
| SessionTheorems.NoTruncation | ssh/server/channels/session.go:131-148 | In every interleaving the client has been shown a prefix of agent stdout followed by stderr; no EOF or close, by any goroutine, precedes the end of the agent-to-client copy; if the copy ended without error all bytes precede the ending |
| SessionTheorems.RequestsBeforeClose | ssh/server/channels/session.go:198-244 | If the loop ended because agent.Requests closed, every request the agent sent, exit-status included, was attempted on the client exactly once, in order, before its EOF and close; that it ends for no other reason but the context is SessionRuns.LoopsLeaveOnly |
| SessionRuns.RequestsComeFirst | ssh/server/channels/session.go:198-244 | In every run without the end of the context, an EOF or close is shown to the client only after the agent's requests have ended and every one of them was offered |
| SessionRuns.RequestsAllArrive | ssh/server/channels/session.go:207-352 | In both directions, whatever the answers and the schedule: when no goroutine can move, the requests have ended and the context is not done, every request sent in the run was offered once and in order, and exactly the replies that the answers call for were made |
| SessionRuns.OutputAllArrives | ssh/server/channels/utils.go:54-90 | When no goroutine can move, the pipe was started and the agent's streams have ended: unless a read failed or a write was short, the client was shown every byte sent on stdout and then every byte sent on stderr; and its close, if the agent's requests ended |
| SessionRuns.InputAllArrives | ssh/server/channels/utils.go:92-114 | The same for the client's two streams towards the agent, a write on a closed channel counting as short; and the half-close was made |
| SessionRuns.LoopsLeaveOnly | ssh/server/channels/session.go:155-260 | A request loop is left only when the context is done or its queue is closed and taken to the end; the global-request loop also, and always, after a failed keepalive; no other failure ends a loop |
| SessionRuns.LeftForGood | ssh/server/channels/session.go:155-260 | A loop that was left receives nothing more in any continuation |
| SessionRuns.ContextDropsRequests | ssh/server/channels/session.go:209-212 | From every state with an agent request waiting, the context can end and the loop leave without it, and then no continuation offers it |
| SessionRuns.BrokenExactly | ssh/server/channels/utils.go:85-111 | A copy ends without being complete exactly if in the course of the run a read failed or a write was short |
| SessionRuns.RunIsRead | ssh/server/channels/session.go:152-352 | In every run the four streams hold exactly the bytes that came from their own source before its end, the three queues exactly the requests sent, the answers exactly what SendRequest gave back, and every flag is set exactly by its own step |
| SessionTheorems.NoRequestAfterClose | ssh/server/channels/session.go:198-244 | However the loop is left, nothing but keepalives and further endings follows the client's first EOF or close |
| SessionTheorems.RelayOrderAndReplies | ssh/server/channels/session.go:220-242 | In both directions the peer is offered an order-preserving duplicate-free prefix, and every forwarded want-reply request gets exactly one reply carrying the peer's answer, a failed one none |
| SessionTheorems.PipeStartsOnce | ssh/server/channels/session.go:146-148 | The pipe starts at most once, and exactly when a request of type pty-req, exec or subsystem was answered without error and the loop is done with it |
| SessionTheorems.NothingEndsWithoutTrigger | ssh/server/channels/session.go:354-362 | Without such a request the agent-request goroutine never passes the receive from done, no ending is shown, and the handler waits |
| SessionTheorems.AgentSide | ssh/server/channels/utils.go:92-114 | The agent is shown a prefix of the client's input, none of it after an EOF or close, and EOF only after the client-to-agent copy has ended |
| SessionTheorems.AgentClosedExactly | ssh/server/channels/session.go:140 | A returned handler has closed both channels; the agent's is closed earlier only by the pipe, for an agent below v0.9.3, after an exec or subsystem request on some channel of the connection, once the input copy has ended |
| SessionTheorems.HalfCloseExactly | ssh/server/channels/utils.go:94-107 | The input half-close in both directions: whatever follows, the agent is shown an EOF if and only if the handler had not closed its channel by then, and it is not old or no exec or subsystem request had come on any channel of the connection; until the handler's own close its channel is closed if and only if it is old and one had come |
| SessionProgress.ClosedForAnotherChannel | ssh/server/channels/session.go:275 | The exec mark is a field of the shared session: a run in which the pipe closes an old agent's channel although its own client asked only for a pty |
| SessionTheorems.ClientClosedExactly | ssh/server/channels/utils.go:56-59 | The client's close is shown exactly when the agent-request goroutine or the handler has passed its deferred close; the half-close leaves an EOF or finds the channel closed; only attempted keepalives follow the close |
| SessionTheorems.OutCloseExactly | ssh/server/channels/utils.go:56 | The output half-close: in every continuation the client is shown an EOF if and only if its channel had not been closed when the half-close ran |
| SessionProgress.EofCanBeMissed | ssh/server/channels/session.go:200-205 | From every reachable state before the rendezvous from which the handler can return there is a run that shows the client EOF and then close, and one that shows the close, after which no continuation shows an EOF |
| SessionTheorems.ClosesInvariant | ssh/server/channels/utils.go:94-107 | Over every run: which goroutine's progress each close and EOF corresponds to, that neither peer is shown an EOF or a second close after a close, and that the exec mark is set exactly when an exec or subsystem request was received on this channel or another of the connection |
| SessionTheorems.BeforeEnding | ssh/server/channels/utils.go:56-59 | In an ordered log what precedes an EOF or close is all the data and all the requests |
| SessionTheorems.RepliesAreFaithful | ssh/server/channels/session.go:231-242 | The reply list of a relay loop matches the outcomes one to one, in order |
| SessionChannel.HandlerInvariant | ssh/server/channels/session.go:142-362 | Every reachable state keeps the wait-group count, the pairing on done, the once-only pipe, the copies' and relays' accounts and both peers' logs: towards the client nothing but keepalives and endings after an ending, towards the agent no data after one (requests may still be attempted) |
| SessionChannel.InvStep | ssh/server/channels/session.go:152-360 | Each step of each goroutine and of the environment keeps that invariant |
| SessionProgress.WorkDecreases | ssh/server/channels/session.go:152-362 | Every step of the handler's own goroutines strictly lowers a natural-number measure |
| SessionProgress.HandlerFinishes | ssh/server/channels/session.go:200-205 | Once the pipe was started and the environment has finished, every schedule is bounded by the measure and a state without an enabled step is one where the handler has returned |
| SessionProgress.SurelyReturnsExactly | ssh/server/channels/session.go:198-362 | Once the environment has finished every schedule is bounded, and every one that runs to where no goroutine can move ends with the handler returned if and only if the pipe was started or a triggering request was already answered |
| SessionProgress.CanReturnExactly | ssh/server/channels/session.go:354-362 | The handler can still return, in some continuation, if and only if the pipe was started or a triggering request can still reach the client-request loop |
| SessionProgress.DoomedForever | ssh/server/channels/session.go:198-205 | From a state where no trigger can arrive, no continuation returns or passes the receive from done |
| SessionProgress.WithoutTriggerDoomed | ssh/server/channels/session.go:354-362 | A client none of whose requests is a pty-req, exec or subsystem never starts the pipe, and the handler is doomed exactly once its requests have ended or its loop is over |
| SessionProgress.ShellWaitsForEver | ssh/server/channels/session.go:198-205 | The run of a client that asks for a shell only and is granted it: context done, agent streams ended, no goroutine can move, and the handler never returns |
| SessionProgress.InputCanBeCutOff | ssh/server/channels/session.go:131-140 | From every state that is not doomed there is a continuation in which the handler returns although the client-to-agent copy has not moved |
| SessionProgress.CutOffExactly | ssh/server/channels/session.go:131-140 | The handler can return over an input copy still under way if and only if that copy has not ended and the handler can return at all |
| SessionProgress.InputLostExactly | ssh/server/channels/utils.go:109-111 | A continuation exists in which the handler returns with bytes of the client unwritten, if and only if the handler can return and the client has not both ended its streams and had all of them written |
| SessionProgress.NothingAfterClose | ssh/server/channels/utils.go:99-100 | Remark: once the agent's channel was closed, by the pipe or by the handler, no continuation shows the agent another byte |
| SessionProgress.ReachReturn | ssh/server/channels/session.go:362 | From a winding state the goroutines can be scheduled to the handler's return without the input copy moving |
| RequestRelay.ExpectedMeans | ssh/server/channels/session.go:341-352 | The replies a list of outcomes calls for: one for each forwarded want-reply request, with the peer's answer, in order, and no other |
| RequestRelay.DrainedMeans | ssh/server/channels/session.go:207-244 | A loop run over a closed queue takes it to the end whatever the answers, failures included, and makes exactly the replies they call for |
| ByteCopy.Faithful | ssh/server/channels/utils.go:51-52 | A copy has always written a prefix of the first stream followed by the second, and all of both once complete |
| ByteCopy.OkStep | ssh/server/channels/utils.go:84-89 | Reads, short writes, errors and the switch between the two streams keep that account |
| SessionHandler.RelayAll | ssh/server/channels/session.go:207-244 | The relay loop run over a closed queue offers every request once in order and makes exactly the replies called for |
| SessionHandler.RequestLoop.Step | ssh/server/channels/session.go:213-242 | One step of a request loop in place is the step of the protocol |
| SessionHandler.RequestLoop.Drain | ssh/server/channels/session.go:207-244 | The loop over the object, by the protocol's own steps, is the run over a closed queue that DrainedMeans describes |
| SessionHandler.CopyLoop.Run | ssh/server/channels/utils.go:84-89 | The copy loop over streams that grow and end at any moments: it ends, or waits with everything up to the stream it waits on written; a complete copy has written both streams, a failed one a prefix |
| SessionHandler.ChannelHandler.AgentLoopStep | ssh/server/channels/session.go:207-244 | The agent-request loop's step in place is the protocol's |
| SessionHandler.ChannelHandler.AgentExitStep | ssh/server/channels/session.go:199-205 | The rendezvous on done, the client's close and leaving the group, in that order |
| SessionHandler.ChannelHandler.ClientLoopStep | ssh/server/channels/session.go:250-352 | The client-request loop's step in place, with the exec mark set on the session object that all handlers of the connection share |
| SessionHandler.ChannelHandler.OncePipe | ssh/server/channels/session.go:146-148 | The first trigger starts pipe and copies, later ones nothing |
| SessionHandler.ChannelHandler.GlobalStep | ssh/server/channels/session.go:152-196 | Keepalives go to the client and a failed one ends the goroutine; other requests are refused if they want a reply |
| SessionHandler.ChannelHandler.HalfClose | ssh/server/channels/utils.go:94-107 | The copies' deferred half-closes, with the close for old agents whose shared session is marked exec |
| SessionHandler.ChannelHandler.MainStep | ssh/server/channels/session.go:362 | The wait and the two deferred closes, agent first |
| SessionHandler.ChannelHandler.Schedule | ssh/server/channels/session.go:88-365 | Any schedule of the object is a run of the protocol |
| SessionHandler.Serve | ssh/server/channels/session.go:88-365 | A handler that joins the shared session, marked or not, is after any schedule in a state the protocol reaches, so the theorems speak of it |
| SessionTheorems.GlobalsAnswered | ssh/server/channels/session.go:170-194 | Over every run what this handler received stands at strictly increasing places of the shared queue, all taken; the client is offered exactly those whose type has the prefix keepalive, in order, as keepalive@shellhub.io with their payload and wantReply, and exactly the others that want a reply were refused |
| GlobalRequests.Partitioned | ssh/server/channels/session.go:152-195 | With any number of handlers each request taken from the shared queue is acted on by exactly one handler, once, with one keepalive attempt or one refusal; the taken requests are a prefix |
| GlobalRequests.TakersAreHandlers | ssh/server/channels/session.go:152-195 | Every taker of the shared queue does what some run of the session-channel protocol does with that queue, and acts at strictly increasing places |
| GlobalRequests.HandlersAreTakers | ssh/server/channels/session.go:152-195 | Every run of a session-channel handler treats the shared queue as one taker of some run of the connection, so the partition holds of handlers |
| Registry.InvStep | ssh/main.go:39-61 | Each step of each connection handler, and each transport failure, keeps the registry's invariants, with the original and with the guarded removal |
| Registry.InForceIsLast | ssh/main.go:39-61 | A registration that the calls leave in force is the latest one of its ID |
| RegistryTheorems.SingleLiveSession | ssh/main.go:39-50 | Any open session that has been through AddDevice is the entry of its ID and the only open registered one |
| RegistryTheorems.ExactCauses | ssh/main.go:44-61 | A session is closed once: by its transport, by a later registration of its ID, or by the removal of a handler that registered earlier; each handler's removal closes at most one session |
| RegistryTheorems.RemovalDropsExactly | ssh/main.go:52-61 | A deferred removal closes exactly the open registered session of its ID, never its own |
| RegistryTheorems.DisplacedHandlerDropsSuccessor | ssh/main.go:146-150 | From every reachable state with a displaced handler pending, running it next closes the live successor and leaves no entry |
| RegistryTheorems.CanBeDroppedExactly | ssh/main.go:146-150 | An open registered session can still be closed by a deferred removal if and only if another handler of its ID has registered and not yet run its removal |
| RegistryTheorems.WithoutOverlapOnlyTransport | ssh/main.go:143-150 | When handlers of one ID never overlap, sessions are closed by their own transport only |
| RegistryTheorems.ConnectedExactly | ssh/main.go:39-61 | A device is connected through a session if and only if no registration or removal of its ID was called after that session's and its transport has not failed |
| RegistryTheorems.EntryIsLatest | ssh/main.go:48 | The entry of an ID is absent or the session most recently added under it |
| RegistryTheorems.ReconnectCanBeLost | ssh/main.go:146-150 | A run in which the new session of a reconnecting device is closed although its transport is fine |
| RegistryTheorems.GuardedReconnect | ssh/main.go:52-61 | If a removal deleted only the handler's own session, a device would be connected through its latest session exactly until that session's transport fails, and no removal would close a session |
| RegistryTheorems.NoLeak | ssh/main.go:118-153 | The map is never larger than the number of handlers that have not run their removal; when all have returned it is empty and every session is closed |
| RegistryTheorems.SettledRegistry | ssh/main.go:146-152 | When no connection arrives or fails the handlers settle in boundedly many steps in any order; where none can move, each has returned or waits on its own live session and the map holds exactly the open sessions |
| RegistryTheorems.LogIsTheRun | ssh/main.go:118-153 | Each request that names a device makes one handler, under X-Device-ID wherever it is set and X-Device-UID otherwise, never under an empty ID; the log's additions and removals are exactly the calls of the run, in order, and its transport failures exactly those that happened |
| RegistryTheorems.DialOpens | ssh/session/session_minimal.go:132-138 | For a target with a colon a dial opens a stream exactly on the undisturbed live session registered under it; for one without, exactly on that registered under default: followed by the target |
| RegistryTheorems.NormaliseIsIdempotent | ssh/session/session_minimal.go:133-136 | A target with a colon is its own key, one without gets the prefix default:, and a second normalisation changes nothing |
| RegistryTheorems.NormaliseCollides | ssh/session/session_minimal.go:133-136 | Two targets reach the same key exactly if they are equal or one is the other under the default tenant |
| RegistryTheorems.DialableExactly | ssh/session/session_minimal.go:132-138 | A connected device can be dialled by some target if and only if it registered under an ID with a colon |
| RegistryTheorems.BareIdIsUnreachable | ssh/main.go:119-126 | A device registered under a bare ID is connected and no target reaches it |
| DeviceManager.Manager.AddDevice | ssh/main.go:39-50 | Closes the entry's session, if any, and stores the new one |
| DeviceManager.Manager.RemoveDevice | ssh/main.go:52-61 | Closes and deletes the entry, if any, whoever it belongs to |
| DeviceManager.Manager.RemoveOwnDevice | ssh/main.go:52-61 | The guarded removal of the second model, in place |
| DeviceManager.Manager.OpenStreamOn | ssh/main.go:63-73 | Fails without an entry or on a closed session, and otherwise yields the entry's session |
| DeviceManager.Server.Accept | ssh/main.go:119-143 | Without either header the request gets 400, after a failed upgrade an error, and nothing changes; otherwise one handler is added under the first header wherever it is set and the fallback otherwise, with a fresh open session |
| DeviceManager.Server.Register | ssh/main.go:146 | A handler's registration in place is the protocol's step |
| DeviceManager.Server.Unregister | ssh/main.go:147 | A handler's deferred removal in place is the protocol's step |
| DeviceManager.Server.Replay | ssh/main.go:118-153 | Every run of the protocol is one of the object |
| Listener.PingFollowsListener | agent/pkg/agent/agent.go:664-717 | The values ping receives alternate starting with true, the ticker runs exactly while the last was true, and authorising never happens between a false and the next true |
| Listener.AuthorizesExactly | agent/pkg/agent/agent.go:701-717 | Remark: while ping is at its select an authorisation can come next exactly if the last signal was true |
| Listener.TickExactly | agent/pkg/agent/agent.go:627-717 | Remark: at the select a tick can be taken exactly while the listener serves or is still waiting to send false |
| Listener.AuthorizesAfterTheEnd | agent/pkg/agent/agent.go:627-717 | A run in which ping authorises after the connection has ended, the false not yet received |
| Listener.LogIsTheRun | agent/pkg/agent/agent.go:576-717 | Over every run each tick authorises once, each connection made is announced to ping once and its end once, the one being announced excepted |
| Listener.NothingStopsAlone | agent/pkg/agent/agent.go:573-645 | Listen returns, the listener ends and ping returns only after Close or a cancellation by the caller, however often dials fail or connections end; and a returned Listen has closed agent and tunnel |
| Listener.CanReconnect | agent/pkg/agent/agent.go:574-640 | As long as the agent is neither closed nor cancelled it can get a connection up again from every state |
| Listener.FailedDialPauses | agent/pkg/agent/agent.go:599-611 | After a failed dial the listener stays in its pause until that ends, whatever the others do |
| Listener.PingHeedsContext | agent/pkg/agent/agent.go:672-680 | Once ping has received the end of the caller's context no continuation has it receive a signal or authorise again |
| Listener.CancelledEnds | agent/pkg/agent/agent.go:642-645 | After a cancellation nothing can move exactly where Listen has returned and either the listener is gone and ping stopped or never heard of a connection, or the listener is blocked on a send that the stopped ping will not receive; a returned Listen leaves boundedly many steps |
| Listener.ShutdownEnds | agent/pkg/agent/agent.go:576-645 | After Close, without cancellation by the caller, every run is bounded, and where nothing can move before Listen has returned it is exactly a blocked send after ping has returned |
| Listener.CanReturnExactly | agent/pkg/agent/agent.go:374-383 | Once closed, some continuation returns from Listen if and only if no connection awaits its first signal and none is up while ping is away from its select (that every one does is the subject of SurelyReturnsExactly) |
| Listener.SurelyReturnsExactly | agent/pkg/agent/agent.go:576-645 | Once closed, every run that goes on to where nothing can move has Listen returned if and only if it had returned or the listener is neither dialling nor busy with a connection; otherwise a deadlock can be reached |
| Listener.CloseSucceedsExactly | agent/pkg/agent/agent.go:379-383 | Before the call: Close is sure to let Listen return exactly when the listener stands at its loop's test or pauses after a failed dial |
| Listener.LostForever | agent/pkg/agent/agent.go:621-639 | From such a state no continuation returns |
| Listener.CloseWhileDialling | agent/pkg/agent/agent.go:599-621 | Close during a dial that then succeeds leaves Listen waiting for ever |
| Listener.CloseWhileServing | agent/pkg/agent/agent.go:621-645 | Close while a connection is served and ping waits at its select: a tick at the wrong moment leaves Listen waiting for ever |
| AgentLoops.AgentState.Exchange | agent/pkg/agent/agent.go:681-700 | A signal makes, resets or stops the ticker in place |
| AgentLoops.AgentState.ListenStep | agent/pkg/agent/agent.go:576-640 | The listener loop's steps in place |
| AgentLoops.AgentState.PingStep | agent/pkg/agent/agent.go:667-717 | The ping loop's steps in place |
| AgentLoops.AgentState.Schedule | agent/pkg/agent/agent.go:563-720 | Any schedule of the object is a run of the protocol |
| YamuxWs.EndToEnd | pkg/yamuxws/yamuxws.go:32-65 | For any interleaving of writes and reads, any buffers and any fragmentation, bytes delivered, then the rest of the current reader, then the pending binary payloads are what was pending and everything written |
| YamuxWs.OneErrorEach | pkg/yamuxws/yamuxws.go:37-43 | Over every run a message that is not binary accounts for exactly one error, and by the theorem above for no bytes |
| YamuxWs.EmptyReadsAreFew | pkg/yamuxws/yamuxws.go:47-51 | Over a reader that never stalls, successful reads of no bytes number at most one per binary message |
| YamuxWs.ReadProgress | pkg/yamuxws/yamuxws.go:36-52 | Every read with room that does not fail in the transport strictly lowers the measure |
| YamuxWs.ReadConserves | pkg/yamuxws/yamuxws.go:32-53 | One read delivers exactly the bytes it takes off the stream, whatever else it returns |
| WsConn.WSConn.Read | pkg/yamuxws/yamuxws.go:32-53 | The caller's buffer receives exactly the next bytes of the stream, in place; it fails exactly if the connection below fails or has nothing, is refused exactly for a message that is not binary, and the retained reader is dropped at the message's end only |
| WsConn.WSConn.Write | pkg/yamuxws/yamuxws.go:56-65 | Fails exactly if the connection below does; a successful write appends exactly one binary message with the whole buffer, a failed one nothing |
| WsConn.WSConn.ReadFull | pkg/yamuxws/yamuxws.go:32-53 | A read-exactly-N loop always ends; unless a read failed it delivers the first N bytes of the stream; and it does not fail if the connection does not, the bytes are there and no foreign message is |
| Authentication.DialsAreConserved | ssh/session/session_minimal.go:156-187 | Over every run successful dials are handshake attempts plus one exactly when an unused connection is held; no connection serves two handshakes |
| Authentication.FinishedExactly | ssh/session/snapshot.go:13-48 | Only Nil, Created, Evaluated and Finished occur; Finished holds exactly when one handshake succeeded and the agent client is set, over the last handshake's connection |
| Authentication.StageNeverDecreases | ssh/session/snapshot.go:39-43 | In every continuation the stage does not go back, a finished connection keeps its client, and after Evaluate no attempt closes the SSH connection |
| Authentication.PasswordAcceptedExactly | ssh/server/auth/password.go:21-41 | A password attempt is accepted exactly when it finishes the connection, and none after it is |
| Authentication.PublicKeyBackedExactly | ssh/server/auth/publickey_minimal.go:13-23 | Every key is accepted; exactly when that leaves an agent client behind |
| Authentication.NoBannerNoAgent | ssh/server/server.go:77-94 | If the banner call failed in address, target or dial, no later attempt ever reaches the agent and no password is ever accepted |
| Authentication.ConnectionIsItsCalls | ssh/server/server.go:77-94 | Over every sequence of calls: evaluated exactly if a banner call succeeded dial included; authenticated exactly if after it an attempt's handshake succeeded, the first over the banner's connection and later ones over a redialled one; SSH connection closed exactly if a password was tried before |
| Authentication.PasswordAcceptedFromCalls | ssh/server/auth/password.go:21-41 | A password is accepted exactly if the banner call succeeded, no attempt has authenticated yet, the handshake succeeds, and a dial does unless the banner call came directly before |
| Authentication.SessionFoundExactly | ssh/session/snapshot.go:52-54 | A channel handler finds a session exactly if the banner call got past address and target; without one every public key is accepted and no password is |
| Authentication.AcceptedWithoutSession | ssh/server/channels/session.go:89-103 | A run in which the client is authenticated by a public key and no channel handler can ever find a session |
| AuthHandlers.Context.BannerHandler | ssh/server/server.go:77-94 | NewSession, Dial and Evaluate in sequence over the snapshot and session objects |
| AuthHandlers.Context.GetSnapshot | ssh/session/snapshot.go:28-37 | Creates and stores the snapshot on first use and returns the same one after |
| AuthHandlers.Context.ObtainSession | ssh/session/snapshot.go:52-54 | Yields the session, if the snapshot has one, and leaves the state as it is |
| AuthHandlers.Context.Dial | ssh/session/session_minimal.go:132-146 | A failed dial leaves the session as it was, a successful one gives it a fresh connection |
| AuthHandlers.Context.Authenticate | ssh/session/session_minimal.go:156-187 | Auth over the objects: redial if no connection is held, drop it on a failed handshake, finish on success |
| AuthHandlers.Context.PasswordHandler | ssh/server/auth/password.go:12-42 | The password handler over the objects |
| AuthHandlers.Context.PublicKeyHandler | ssh/server/auth/publickey_minimal.go:13-23 | The public-key handler over the objects |
| Seats.SeatDiscipline | ssh/session/session_minimal.go:190-218 | All seats given out are distinct, agent keys are a subset of client keys, which lie below the counter, each channel stands under its own handler's seat, and ErrSeatAlreadySet never happens |
| Seats.ClientChannelExactly | ssh/session/session_minimal.go:190-201 | A seated handler's client channel is registered, under its seat, exactly if it was accepted; otherwise nothing changes |
| Seats.AgentChannelExactly | ssh/session/session_minimal.go:204-218 | Its agent channel is registered exactly if the session is authenticated and the agent opens one, with the error of whichever failed first |
| Seats.SessionIsItsCalls | ssh/session/session_minimal.go:69 | The counter is the number of seats asked for, and agent channels can be opened exactly once the session was authenticated |
| Seats.SessionChannels.NewSeat | ssh/session/session_minimal.go:69 | Returns the counter and advances it |
| Seats.SessionChannels.NewClientChannel | ssh/session/session_minimal.go:190-201 | Refuses a seat already set, then accepts and registers the channel |
| Seats.SessionChannels.NewAgentChannel | ssh/session/session_minimal.go:204-218 | Refuses a seat already set or a missing agent client, then opens and registers the channel |

## Left out

- The libraries (gliderlabs/ssh, x/crypto/ssh, yamux, gorilla/websocket, echo): environments with free choices, as stated with each label.
- Go's memory model: each named operation is one atomic step; the unsynchronised seat counter, channel maps and the assignment of the listening channel are taken to be atomic, and that channel to exist before the first send.
- Real time: the ticker is enabled or disabled. The jitter of `ping` (agent/pkg/agent/agent.go:716) is not modelled; it is defined only when the maximum retry timeout exceeds 10, while the configuration admits 10.
- Calls that never return: `SendRequest`, a dial, `AuthDevice` and the pause after a failed dial are assumed to return, with any outcome; blocking on them is not told apart from being slow.
- The opening of the two channels before the goroutines start, other than its seats: a handler that fails there closes what it opened and starts nothing.
- Payload decoding of pty-req and window-change, seats' pty marks, and the goroutine for agent forwarding with `hose`: they touch none of the modelled state; `hose` is `pipe` without the rendezvous.
- The version comparison behind `legacyAgent`: sessions of this server always carry v0.9.3, so the flag is false here; the model keeps both branches, and what it says of old agents applies to none of this build's.
- The recorder, events, keepalive reporting and `Announce`: no effect in this build.
- `DefaultDirectTCPIPHandler`, `Session.Finish`, the agent's HTTP proxy and SSH-close handlers, the host mode's processes and terminals, `NewAgentWithConfig`: glue or operating-system calls that would add easy members.
- Target parsing: ssh/pkg/target is not part of this model; a target is a string.
- The close of the WebSocket connection after a handler's own session close: one step with it, since the session is closed by then.
- SessionChannel.HandlerInvariant: what the other channels of the connection do to the shared queue of global requests and to the shared session appears there as environment steps; which handler gets which request is the subject of `GlobalRequests`.
- The outcome of a request attempted on a channel this side has closed: the library fails it, the model leaves it free.
- DeviceManager.Server.Replay: the log of causes is a history variable of the model; the program keeps none.
