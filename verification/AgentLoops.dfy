/** The agent's two loops and `Listen` in their own form: goroutines that update the agent's flag, its channel ends
    and the ticker in place. Every method is one goroutine's next step, proved against `Listener`.
 */
module AgentLoops {
  import opened Listener

  class AgentState {
    var closed: bool
    var tunnelClosed: bool
    var parentDone: bool
    var cancelled: bool
    var returned: bool
    var listen: ListenPc
    var ping: PingPc
    var ticking: bool
    var log: seq<Event>

    function View(): State
      reads this
    {
      State(closed, tunnelClosed, parentDone, cancelled, returned, listen, ping, ticking, log)
    }

    constructor ()
      ensures View() == INITIAL
    {
      closed, tunnelClosed, parentDone, cancelled, returned := false, false, false, false, false;
      listen, ping, ticking, log := Check, AwaitFirst, false, [];
    }

    /** `Close` run to its end: the flag, then the tunnel. */
    method Close()
      modifies this
      ensures View() == old(View()).(closed := true, tunnelClosed := true)
    {
      closed := true;
      tunnelClosed := true;
    }

    /** The listener goroutine, except for its sends. */
    method ListenStep(l: Label)
      requires Enabled(View(), l) && (l.CheckClosed? || l.DialReturns? || l.PauseEnds? || l.ServeEnds?)
      modifies this
      ensures View() == Next(old(View()), l)
    {
      if l.CheckClosed? {
        if closed {
          cancelled := true;
          listen := Gone;
        } else {
          listen := Dialling;
        }
      } else if l.DialReturns? {
        listen := if l.ok then SendTrue else Pausing;
      } else if l.PauseEnds? {
        listen := Check;
      } else {
        listen := SendFalse;
      }
    }

    /** A value passes from the listener to `ping`, which makes, resets or stops its ticker. */
    method Exchange()
      requires Enabled(View(), Rendezvous)
      modifies this
      ensures View() == Next(old(View()), Rendezvous)
    {
      var up := listen.SendTrue?;
      listen := if up then Serving else Check;
      log := log + [Signal(up)];
      if ping.AwaitFirst? {
        ticking := true;
      } else {
        ticking := up;
      }
      ping := Top;
    }

    /** `ping`, except for its receives. */
    method PingStep(l: Label)
      requires Enabled(View(), l) && (l.PingTop? || l.Tick? || l.AuthorizeEnds? || l.PingContext?)
      modifies this
      ensures View() == Next(old(View()), l)
    {
      if l.PingTop? {
        ping := if closed then Stopped else Selecting;
      } else if l.Tick? {
        log := log + [Authorize];
        ping := Authorizing;
      } else if l.AuthorizeEnds? {
        ticking := true;
        ping := Top;
      } else {
        ping := Stopped;
      }
    }

    method Perform(l: Label)
      requires Enabled(View(), l)
      modifies this
      ensures View() == Next(old(View()), l)
    {
      if l.CheckClosed? || l.DialReturns? || l.PauseEnds? || l.ServeEnds? {
        ListenStep(l);
      } else if l.Rendezvous? {
        Exchange();
      } else if l.PingTop? || l.Tick? || l.AuthorizeEnds? || l.PingContext? {
        PingStep(l);
      } else if l.ListenReturns? {
        Close();
        returned := true;
      } else if l.StoreClosed? {
        closed := true;
      } else if l.CloseTunnel? {
        tunnelClosed := true;
      } else {
        parentDone := true;
      }
    }

    /** Any schedule, passing over the labels that cannot move. */
    method Schedule(labels: seq<Label>) returns (ghost taken: seq<Label>)
      modifies this
      ensures AGENT.Runs(old(View()), taken, View())
    {
      taken := [];
      for i := 0 to |labels|
        invariant AGENT.Runs(old(View()), taken, View())
      {
        if Enabled(View(), labels[i]) {
          AGENT.Then(old(View()), taken, View(), labels[i]);
          Perform(labels[i]);
          taken := taken + [labels[i]];
        }
      }
    }
  }
}
