/** The adapter in its own form: `Read` fills the caller's buffer and updates the retained reader in place. The
    connection below is an environment: how many bytes a reader yields, when it reports the end of its message,
    and when it fails are its choices, handed to each call, so that a contract can say what they lead to.
 */
module WsConn {
  import opened Machines
  import opened YamuxWs

  datatype Status = More | End | Fault

  /** What the connection does in one call: whether finding the next message fails, whether reading it does, how many
      bytes it is ready to yield, and whether it reports the end together with the last of them. */
  datatype Choice = Choice(headerFails: bool, readFails: bool, amount: nat, endsAtOnce: bool)

  /** A reader for one message. */
  class MessageReader {
    var rest: seq<byte>

    constructor (payload: seq<byte>)
      ensures rest == payload
    {
      rest := payload;
    }

    /** Yields at least one byte, or the end of the message, or a fault; with an empty buffer perhaps nothing. */
    method Read(b: array<byte>, c: Choice) returns (n: nat, status: Status)
      modifies this, b
      ensures n <= b.Length && n <= |old(rest)|
      ensures b[..n] == old(rest)[..n] && b[n..] == old(b[n..])
      ensures rest == old(rest)[n..]
      ensures status.Fault? <==> c.readFails
      ensures status.End? ==> rest == []
      ensures status.More? && b.Length > 0 ==> n > 0
    {
      var limit := if b.Length < |rest| then b.Length else |rest|;
      n := if c.amount < limit then c.amount else limit;
      if c.readFails {
        status := Fault;
      } else if b.Length == 0 {
        status := More;
      } else if limit == 0 {
        status := End;
      } else {
        if n == 0 {
          n := 1;
        }
        status := if n == |rest| && c.endsAtOnce then End else More;
      }
      forall k | 0 <= k < n {
        b[k] := rest[k];
      }
      rest := rest[n..];
    }
  }

  /** The WebSocket connection: what is on its way in, and what was sent. */
  class Socket {
    var inbox: seq<Message>
    var outbox: seq<Message>

    constructor ()
      ensures inbox == [] && outbox == []
    {
      inbox, outbox := [], [];
    }

    /** The next message; without one there is nothing to return but an error. */
    method NextReader(fails: bool) returns (r: Option<MessageReader>, binary: bool)
      modifies this`inbox
      ensures r == None <==> old(inbox) == [] || fails
      ensures r == None ==> inbox == old(inbox)
      ensures r.Some? ==> old(inbox) != [] && fresh(r.value) && inbox == old(inbox)[1..]
      ensures r.Some? ==> r.value.rest == old(inbox)[0].payload && binary == old(inbox)[0].binary
    {
      if inbox == [] || fails {
        return None, false;
      }
      var reader := new MessageReader(inbox[0].payload);
      r, binary := Some(reader), inbox[0].binary;
      inbox := inbox[1..];
    }

    method WriteMessage(binary: bool, payload: seq<byte>, fails: bool) returns (ok: bool)
      modifies this`outbox
      ensures ok == !fails
      ensures outbox == old(outbox) + if ok then [Message(binary, payload)] else []
    {
      ok := !fails;
      if ok {
        outbox := outbox + [Message(binary, payload)];
      }
    }
  }

  lemma Shift(done: seq<byte>, read: seq<byte>, after: seq<byte>, pending: seq<byte>, start: seq<byte>)
    requires done + pending == start && read + after == pending
    ensures (done + read) + after == start
  {
  }

  /** A connection that never fails. */
  ghost predicate Sound(choose: nat -> Choice) {
    forall i: nat :: !choose(i).headerFails && !choose(i).readFails
  }

  class WSConn {
    const conn: Socket
    var reader: MessageReader?

    function View(): Inbound
      reads this, conn, reader
    {
      Inbound(conn.inbox, if reader == null then None else Some(reader.rest))
    }

    constructor (conn: Socket)
      ensures this.conn == conn && reader == null
    {
      this.conn := conn;
      reader := null;
    }

    /** A read fails only if the connection below fails or has nothing, and is refused only for a message that is not
        binary; a read that does neither makes progress. */
    method Read(b: array<byte>, c: Choice) returns (n: nat, error: Option<Error>)
      modifies this`reader, conn`inbox, reader, b
      ensures error == Some(Transport) <==>
                if old(reader) != null then c.readFails
                else c.headerFails || old(conn.inbox) == [] || (old(conn.inbox)[0].binary && c.readFails)
      ensures error == Some(ReadLimit) <==>
                old(reader) == null && !c.headerFails && old(conn.inbox) != [] && !old(conn.inbox)[0].binary
      ensures n <= b.Length && b[n..] == old(b[n..])
      ensures reader == old(reader) || reader == null || fresh(reader)
      ensures conn.outbox == old(conn.outbox)
      ensures Reads(old(View()), Reading(b.Length, b[..n], error), View())
      ensures Lively(old(View()), Reading(b.Length, b[..n], error), View())
      ensures b[..n] + Stream(View()) == old(Stream(View()))
    {
      ghost var before := View();
      if reader == null {
        var next, binary := conn.NextReader(c.headerFails);
        if next == None {
          return 0, Some(Transport);
        }
        if !binary {
          ReadConserves(before, Reading(b.Length, [], Some(ReadLimit)), View());
          return 0, Some(ReadLimit);
        }
        reader := next.value;
      }
      var status;
      n, status := reader.Read(b, c);
      if status.End? {
        reader := null;
      }
      error := if status.Fault? then Some(Transport) else None;
      ReadConserves(before, Reading(b.Length, b[..n], error), View());
    }

    /** A write fails exactly if the connection below does. */
    method Write(b: array<byte>, fails: bool) returns (n: nat, failed: bool)
      modifies conn`outbox
      ensures failed == fails
      ensures n == if failed then 0 else b.Length
      ensures conn.outbox == old(conn.outbox) + if failed then [] else [Message(true, b[..])]
      ensures Payloads(conn.outbox) == old(Payloads(conn.outbox)) + b[..n]
      ensures View() == old(View())
    {
      var ok := conn.WriteMessage(true, b[..], fails);
      if ok {
        PayloadsAppend(old(conn.outbox), Message(true, b[..]));
        assert b[..b.Length] == b[..];
      } else {
        assert conn.outbox == old(conn.outbox);
      }
      n, failed := if ok then b.Length else 0, !ok;
    }

    /** One read of up to `room` bytes into a buffer of its own. */
    method ReadSome(room: nat, c: Choice) returns (got: seq<byte>, error: Option<Error>)
      requires room > 0
      modifies this`reader, conn`inbox, reader
      ensures |got| <= room && got + Stream(View()) == old(Stream(View()))
      ensures error != Some(Transport) ==> Work(View()) < old(Work(View()))
      ensures error == Some(Transport) ==> c.headerFails || c.readFails || old(Stream(View())) == []
      ensures Count(conn.inbox, false) <= old(Count(conn.inbox, false))
      ensures error == Some(ReadLimit) ==> old(Count(conn.inbox, false)) > 0
      ensures reader == old(reader) || reader == null || fresh(reader)
      ensures conn.outbox == old(conn.outbox)
    {
      var b := new byte[room];
      ghost var before := View();
      var n;
      n, error := Read(b, c);
      got := b[..n];
      if error != Some(Transport) {
        ReadProgress(before, Reading(b.Length, got, error), View());
      }
    }

    /** Reading exactly `wanted` bytes, as yamux does for a header or a body, `choose` being what the connection does in
        each read: the loop always ends; unless a read failed it has delivered exactly the first `wanted` bytes of the
        stream; and none fails if the connection does not, the bytes are there and no foreign message is. */
    method ReadFull(wanted: nat, choose: nat -> Choice) returns (data: seq<byte>, error: Option<Error>)
      modifies this`reader, conn`inbox, reader
      ensures data + Stream(View()) == old(Stream(View()))
      ensures error == None ==> |data| == wanted
      ensures error.Some? ==> |data| < wanted
      ensures error == Some(ReadLimit) ==> old(Count(conn.inbox, false)) > 0
      ensures Sound(choose) && wanted <= |old(Stream(View()))| && old(Count(conn.inbox, false)) == 0 ==>
                error == None
      ensures conn.outbox == old(conn.outbox)
    {
      data, error := [], None;
      var calls: nat := 0;
      while |data| < wanted && error == None
        invariant data + Stream(View()) == old(Stream(View()))
        invariant |data| <= wanted
        invariant Count(conn.inbox, false) <= old(Count(conn.inbox, false))
        invariant error == Some(ReadLimit) ==> old(Count(conn.inbox, false)) > 0
        invariant Sound(choose) && wanted <= |old(Stream(View()))| && old(Count(conn.inbox, false)) == 0 ==>
                    error == None
        invariant reader == old(reader) || reader == null || fresh(reader)
        invariant conn.outbox == old(conn.outbox)
        decreases error == None, Work(View())
      {
        ghost var before := Stream(View());
        assert |data| + |before| == |old(Stream(View()))|;
        var got;
        got, error := ReadSome(wanted - |data|, choose(calls));
        assert error.Some? ==> error.value.ReadLimit? || error.value.Transport?;
        Shift(data, got, Stream(View()), before, old(Stream(View())));
        data := data + got;
        calls := calls + 1;
      }
      if |data| == wanted {
        error := None;
      }
    }
  }
}
