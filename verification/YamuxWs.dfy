/** The adapter that lets yamux use a WebSocket connection as a byte stream: reads take bytes from the current
    message through a retained partial reader, writes make one binary message each.
 */
module YamuxWs {
  import opened Machines

  type byte = bv8

  /** A data message of RFC 6455, section 5.6: text messages are the ones that are not binary. */
  datatype Message = Message(binary: bool, payload: seq<byte>)

  datatype Error = ReadLimit | Transport

  /** What a side still has to read: the messages on their way to it, and the unread rest of the current one. */
  datatype Inbound = Inbound(inbox: seq<Message>, reader: Option<seq<byte>>)

  function Payloads(messages: seq<Message>): seq<byte> {
    if messages == [] then [] else
    (if messages[0].binary then messages[0].payload else []) + Payloads(messages[1..])
  }

  function Rest(i: Inbound): seq<byte> {
    match i.reader case Some(rest) => rest case None => []
  }

  /** The byte stream that is still to come. */
  function Stream(i: Inbound): seq<byte> {
    Rest(i) + Payloads(i.inbox)
  }

  /** What one `Read` call was given and gave back. `length` is the buffer's. */
  datatype Reading = Reading(length: nat, bytes: seq<byte>, error: Option<Error>)

  /** The reader part of `Read`: some of the unread bytes, and possibly the end of the message (which needs all
      of them read, and drops the reader) or a transport error (which keeps it). */
  ghost predicate ReadsMessage(rest: seq<byte>, i: Inbound, r: Reading, j: Inbound) {
    && |r.bytes| <= r.length && r.bytes <= rest && j.inbox == i.inbox
    && match r.error
       case None => j.reader == Some(rest[|r.bytes|..]) || (j.reader == None && r.bytes == rest)
       case Some(e) => e == Transport && j.reader == Some(rest[|r.bytes|..])
  }

  /** One `Read`, with every behaviour of the connection below it. */
  ghost predicate Reads(i: Inbound, r: Reading, j: Inbound) {
    match i.reader
    case Some(rest) => ReadsMessage(rest, i, r, j)
    case None =>
      || (r.bytes == [] && r.error == Some(Transport) && j == i)
      || (i.inbox != [] &&
          var next := Inbound(i.inbox[1..], None);
          if i.inbox[0].binary then ReadsMessage(i.inbox[0].payload, next, r, j)
          else r.bytes == [] && r.error == Some(ReadLimit) && j == next)
  }

  /** A reader below that never stalls: with room in the buffer, a read that does not fail yields a byte or the
      message's end. */
  ghost predicate Lively(i: Inbound, r: Reading, j: Inbound) {
    r.length > 0 && r.error == None ==> r.bytes != [] || j.reader == None
  }

  lemma PayloadsAppend(messages: seq<Message>, m: Message)
    ensures Payloads(messages + [m]) == Payloads(messages) + if m.binary then m.payload else []
  {
    if messages == [] {
      assert messages + [m] == [m];
    } else {
      assert (messages + [m])[1..] == messages[1..] + [m];
    }
  }

  lemma MessageConserves(rest: seq<byte>, i: Inbound, r: Reading, j: Inbound)
    requires ReadsMessage(rest, i, r, j)
    ensures r.bytes + Rest(j) == rest
  {
    assert rest == r.bytes + rest[|r.bytes|..];
  }

  /** A read delivers exactly the bytes it takes off the stream, whatever it returns besides. */
  lemma ReadConserves(i: Inbound, r: Reading, j: Inbound)
    requires Reads(i, r, j)
    ensures r.bytes + Stream(j) == Stream(i)
  {
    if i.reader.Some? {
      MessageConserves(i.reader.value, i, r, j);
      assert r.bytes + (Rest(j) + Payloads(j.inbox)) == (r.bytes + Rest(j)) + Payloads(j.inbox);
    } else if i.inbox != [] && i.inbox[0].binary && j != i {
      MessageConserves(i.inbox[0].payload, Inbound(i.inbox[1..], None), r, j);
      assert r.bytes + (Rest(j) + Payloads(j.inbox)) == (r.bytes + Rest(j)) + Payloads(j.inbox);
    }
  }

  // ---------------------------------------------------------------------------------------------------
  // Runs: one side writes, the other reads
  // ---------------------------------------------------------------------------------------------------

  /** `Injected` is a message that is not binary, from a peer that is not this adapter. */
  datatype Op =
    | Wrote(payload: seq<byte>)
    | WriteFailed(payload: seq<byte>)
    | Injected(payload: seq<byte>)
    | DidRead(reading: Reading)

  ghost predicate Does(i: Inbound, op: Op, j: Inbound) {
    match op
    case Wrote(p) => j == i.(inbox := i.inbox + [Message(true, p)])
    case WriteFailed(_) => j == i
    case Injected(p) => j == i.(inbox := i.inbox + [Message(false, p)])
    case DidRead(r) => Reads(i, r, j)
  }

  /** `states` is a run of `ops`: one state before each and one after the last. */
  ghost predicate Run(states: seq<Inbound>, ops: seq<Op>) {
    && |states| == |ops| + 1
    && forall k | 0 <= k < |ops| :: Does(states[k], ops[k], states[k + 1])
  }

  function WrittenBy(op: Op): seq<byte> {
    if op.Wrote? then op.payload else []
  }

  function ReadBy(op: Op): seq<byte> {
    if op.DidRead? then op.reading.bytes else []
  }

  function Written(ops: seq<Op>): seq<byte> {
    if ops == [] then [] else Written(ops[..|ops| - 1]) + WrittenBy(ops[|ops| - 1])
  }

  function Delivered(ops: seq<Op>): seq<byte> {
    if ops == [] then [] else Delivered(ops[..|ops| - 1]) + ReadBy(ops[|ops| - 1])
  }

  lemma RunPrefix(states: seq<Inbound>, ops: seq<Op>)
    requires Run(states, ops) && ops != []
    ensures Run(states[..|ops|], ops[..|ops| - 1])
  {
  }

  lemma Exchange(done: seq<byte>, pending: seq<byte>, start: seq<byte>, written: seq<byte>, read: seq<byte>,
                 after: seq<byte>, more: seq<byte>)
    requires done + pending == start + written
    requires read + after == pending + more
    ensures (done + read) + after == start + (written + more)
  {
    assert (done + read) + after == done + (read + after);
    assert done + (pending + more) == (done + pending) + more;
    assert (start + written) + more == start + (written + more);
  }

  lemma EndToEndStep(i: Inbound, op: Op, j: Inbound)
    requires Does(i, op, j)
    ensures ReadBy(op) + Stream(j) == Stream(i) + WrittenBy(op)
  {
    match op
    case Wrote(p) => PayloadsAppend(i.inbox, Message(true, p));
    case WriteFailed(_) =>
    case Injected(p) => PayloadsAppend(i.inbox, Message(false, p));
    case DidRead(r) => ReadConserves(i, r, j);
  }

  /** End to end: in any interleaving of writes and reads, with any buffer sizes and any fragmentation below, the
      bytes delivered, then the unread rest of the current reader, then the pending binary payloads, are what
      was pending at the start followed by everything written. */
  lemma {:induction false} EndToEnd(states: seq<Inbound>, ops: seq<Op>)
    requires Run(states, ops)
    ensures Delivered(ops) + Stream(states[|ops|]) == Stream(states[0]) + Written(ops)
  {
    if ops != [] {
      var n := |ops| - 1;
      RunPrefix(states, ops);
      EndToEnd(states[..|ops|], ops[..n]);
      assert Does(states[n], ops[n], states[n + 1]);
      EndToEndStep(states[n], ops[n], states[n + 1]);
      Exchange(Delivered(ops[..n]), Stream(states[n]), Stream(states[0]), Written(ops[..n]),
               ReadBy(ops[n]), Stream(states[n + 1]), WrittenBy(ops[n]));
    }
  }

  // ---------------------------------------------------------------------------------------------------
  // Errors and empty reads
  // ---------------------------------------------------------------------------------------------------

  function Count(messages: seq<Message>, binary: bool): nat {
    if messages == [] then 0 else (if messages[0].binary == binary then 1 else 0) + Count(messages[1..], binary)
  }

  lemma CountAppend(messages: seq<Message>, m: Message, binary: bool)
    ensures Count(messages + [m], binary) == Count(messages, binary) + if m.binary == binary then 1 else 0
  {
    if messages == [] {
      assert messages + [m] == [m];
    } else {
      assert (messages + [m])[1..] == messages[1..] + [m];
    }
  }

  predicate IsRefusal(op: Op) {
    op.DidRead? && op.reading.error == Some(ReadLimit)
  }

  /** A successful read of no bytes into a buffer with room. */
  predicate IsEmptyRead(op: Op) {
    op.DidRead? && op.reading.error == None && op.reading.bytes == [] && op.reading.length > 0
  }

  function Injections(ops: seq<Op>): nat {
    if ops == [] then 0 else Injections(ops[..|ops| - 1]) + if ops[|ops| - 1].Injected? then 1 else 0
  }

  function Writes(ops: seq<Op>): nat {
    if ops == [] then 0 else Writes(ops[..|ops| - 1]) + if ops[|ops| - 1].Wrote? then 1 else 0
  }

  function Refusals(ops: seq<Op>): nat {
    if ops == [] then 0 else Refusals(ops[..|ops| - 1]) + if IsRefusal(ops[|ops| - 1]) then 1 else 0
  }

  function EmptyReads(ops: seq<Op>): nat {
    if ops == [] then 0 else EmptyReads(ops[..|ops| - 1]) + if IsEmptyRead(ops[|ops| - 1]) then 1 else 0
  }

  /** Messages not done with: the binary ones pending, and the current one. */
  function Unfinished(i: Inbound): nat {
    Count(i.inbox, true) + if i.reader.Some? then 1 else 0
  }

  /** A message that is not binary contributes exactly one error, over every run: the refusals so far and the ones
      still pending are the ones pending at the start and those injected. */
  lemma {:induction false} OneErrorEach(states: seq<Inbound>, ops: seq<Op>)
    requires Run(states, ops)
    ensures Refusals(ops) + Count(states[|ops|].inbox, false) == Count(states[0].inbox, false) + Injections(ops)
  {
    if ops != [] {
      var n := |ops| - 1;
      RunPrefix(states, ops);
      OneErrorEach(states[..|ops|], ops[..n]);
      assert Does(states[n], ops[n], states[n + 1]);
      match ops[n]
      case Wrote(p) => CountAppend(states[n].inbox, Message(true, p), false);
      case Injected(p) => CountAppend(states[n].inbox, Message(false, p), false);
      case _ =>
    }
  }

  ghost predicate LivelyRun(states: seq<Inbound>, ops: seq<Op>) {
    Run(states, ops) &&
    forall k | 0 <= k < |ops| && ops[k].DidRead? :: Lively(states[k], ops[k].reading, states[k + 1])
  }

  /** Over a lively connection the successful reads of no bytes number at most one per binary message. */
  lemma {:induction false} EmptyReadsAreFew(states: seq<Inbound>, ops: seq<Op>)
    requires LivelyRun(states, ops)
    ensures EmptyReads(ops) + Unfinished(states[|ops|]) <= Unfinished(states[0]) + Writes(ops)
  {
    if ops != [] {
      var n := |ops| - 1;
      RunPrefix(states, ops);
      EmptyReadsAreFew(states[..|ops|], ops[..n]);
      assert Does(states[n], ops[n], states[n + 1]);
      match ops[n]
      case Wrote(p) => CountAppend(states[n].inbox, Message(true, p), true);
      case Injected(p) => CountAppend(states[n].inbox, Message(false, p), true);
      case DidRead(r) => assert Lively(states[n], r, states[n + 1]);
      case _ =>
    }
  }

  // ---------------------------------------------------------------------------------------------------
  // Progress
  // ---------------------------------------------------------------------------------------------------

  /** Bytes and messages still to be dealt with. */
  function Work(i: Inbound): nat {
    |Stream(i)| + 2 * |i.inbox| + if i.reader.Some? then 1 else 0
  }

  /** Every read with room in its buffer that does not fail strictly lowers the measure, and so does a refusal. */
  lemma ReadProgress(i: Inbound, r: Reading, j: Inbound)
    requires Reads(i, r, j) && Lively(i, r, j) && r.length > 0 && r.error != Some(Transport)
    ensures Work(j) < Work(i)
  {
    ReadConserves(i, r, j);
    assert |Stream(i)| == |r.bytes| + |Stream(j)|;
  }
}
