/** `io.Copy` from a two-part `io.MultiReader`: all of a first stream, then all of a second, through a buffer
    into one writer. Streams grow while they are open; a read yields at least one byte or waits.
 */
module ByteCopy {

  type byte = bv8

  datatype Stream = Stream(sent: seq<byte>, read: nat, closed: bool)

  datatype Status = Copying | Complete | Broken

  datatype Copier = Copier(first: Stream, second: Stream, onSecond: bool, buf: seq<byte>, written: seq<byte>,
                           status: Status)

  /** `Write(k)` hands the writer the buffer, of which it takes `k` bytes; a short write is an error. */
  datatype Step =
    | Read(n: nat)
    | Switch
    | Finish
    | ReadFails
    | Write(k: nat)

  const FRESH := Copier(Stream([], 0, false), Stream([], 0, false), false, [], [], Copying)

  function Source(c: Copier): Stream {
    if c.onSecond then c.second else c.first
  }

  /** Nothing in hand, and nothing to read until more arrives. */
  predicate Waiting(c: Copier) {
    c.buf == [] && !Source(c).closed && Source(c).read == |Source(c).sent|
  }

  predicate Exhausted(s: Stream) {
    s.closed && s.read == |s.sent|
  }

  predicate Enabled(c: Copier, step: Step) {
    c.status.Copying? &&
    match step
    case Read(n) => c.buf == [] && 0 < n && Source(c).read + n <= |Source(c).sent|
    case Switch => c.buf == [] && !c.onSecond && Exhausted(c.first)
    case Finish => c.buf == [] && c.onSecond && Exhausted(c.second)
    case ReadFails => c.buf == []
    case Write(k) => c.buf != [] && k <= |c.buf|
  }

  function Next(c: Copier, step: Step): Copier {
    if !Enabled(c, step) then c else
    match step
    case Read(n) =>
      var s := Source(c);
      var chunk := s.sent[s.read..s.read + n];
      if c.onSecond then c.(second := s.(read := s.read + n), buf := chunk)
      else c.(first := s.(read := s.read + n), buf := chunk)
    case Switch => c.(onSecond := true)
    case Finish => c.(status := Complete)
    case ReadFails => c.(status := Broken)
    case Write(k) =>
      if k == |c.buf| then c.(buf := [], written := c.written + c.buf)
      else c.(buf := [], written := c.written + c.buf[..k], status := Broken)
  }

  /** What has been read so far, and what the whole copy is to deliver. */
  function Taken(c: Copier): seq<byte>
    requires c.first.read <= |c.first.sent| && c.second.read <= |c.second.sent|
  {
    c.first.sent[..c.first.read] + c.second.sent[..c.second.read]
  }

  function Total(c: Copier): seq<byte> {
    c.first.sent + c.second.sent
  }

  ghost predicate Ok(c: Copier) {
    && c.first.read <= |c.first.sent| && c.second.read <= |c.second.sent|
    && (if c.onSecond then Exhausted(c.first) else c.second.read == 0)
    && match c.status
       case Copying => c.written + c.buf == Taken(c)
       case Complete => c.onSecond && Exhausted(c.second) && c.written == Taken(c)
       case Broken => c.written <= Taken(c)
  }

  lemma OkStep(c: Copier, step: Step)
    requires Ok(c) && Enabled(c, step)
    ensures Ok(Next(c, step))
  {
    var t := Next(c, step);
    match step
    case Read(n) =>
      var s := Source(c);
      assert s.sent[..s.read + n] == s.sent[..s.read] + t.buf;
      assert c.written == Taken(c);
      if c.onSecond {
        assert Taken(t) == Taken(c) + t.buf;
      } else {
        assert c.second.sent[..0] == [];
        assert Taken(t) == Taken(c) + t.buf;
      }
    case Write(k) =>
      assert t.written <= c.written + c.buf;
    case _ =>
  }

  /** What was sent on the streams, and whether they have ended, agree. */
  predicate SameInput(c: Copier, d: Copier) {
    && c.first.sent == d.first.sent && c.first.closed == d.first.closed
    && c.second.sent == d.second.sent && c.second.closed == d.second.closed
  }

  /** A step of the copy takes nothing back and sends nothing. */
  lemma WrittenGrows(c: Copier, step: Step)
    requires Enabled(c, step)
    ensures c.written <= Next(c, step).written && SameInput(c, Next(c, step))
  {
  }

  /** Bytes may arrive on either stream as long as it is open. */
  function Arrive(c: Copier, onSecond: bool, bytes: seq<byte>): Copier {
    if onSecond then
      if c.second.closed then c else c.(second := c.second.(sent := c.second.sent + bytes))
    else
      if c.first.closed then c else c.(first := c.first.(sent := c.first.sent + bytes))
  }

  /** The end of one of the streams. */
  function End(c: Copier, onSecond: bool): Copier {
    if onSecond then c.(second := c.second.(closed := true)) else c.(first := c.first.(closed := true))
  }

  /** What the senders do: more bytes on a stream, or its end. */
  datatype Arrival = More(onSecond: bool, bytes: seq<byte>) | Over(ofSecond: bool)

  function Arrived(c: Copier, a: Arrival): Copier {
    match a
    case More(onSecond, bytes) => Arrive(c, onSecond, bytes)
    case Over(ofSecond) => End(c, ofSecond)
  }

  function ArrivedAll(c: Copier, arrivals: seq<Arrival>): Copier {
    if arrivals == [] then c
    else Arrived(ArrivedAll(c, arrivals[..|arrivals| - 1]), arrivals[|arrivals| - 1])
  }

  lemma OkArrival(c: Copier, onSecond: bool, bytes: seq<byte>)
    requires Ok(c)
    ensures Ok(Arrive(c, onSecond, bytes)) && Ok(End(c, onSecond))
  {
    assert (c.first.sent + bytes)[..c.first.read] == c.first.sent[..c.first.read];
    assert (c.second.sent + bytes)[..c.second.read] == c.second.sent[..c.second.read];
  }

  /** At every moment the writer has received a prefix of the first stream followed by the second; and all of
      it once the copy is complete. */
  lemma Faithful(c: Copier)
    requires Ok(c)
    ensures c.written <= Total(c)
    ensures c.status.Complete? ==> c.written == Total(c) && c.first.closed && c.second.closed
  {
    var t := Taken(c);
    assert c.written <= t;
    if c.onSecond {
      assert c.first.sent[..c.first.read] == c.first.sent;
    }
    assert t <= Total(c);
    if c.status.Complete? {
      assert c.second.sent[..c.second.read] == c.second.sent;
    }
  }

  function Unread(s: Stream): nat {
    if s.read <= |s.sent| then |s.sent| - s.read else 0
  }

  function Work(c: Copier): nat {
    2 * (Unread(c.first) + Unread(c.second)) + (if c.buf == [] then 0 else 1) + (if c.onSecond then 0 else 1) +
    (if c.status.Copying? then 1 else 0)
  }

  lemma WorkDecreases(c: Copier, step: Step)
    requires Enabled(c, step)
    ensures Work(Next(c, step)) < Work(c)
  {
  }

  /** A step that the copy can take once both streams have ended. */
  function Progress(c: Copier): (step: Step)
    requires Ok(c) && c.status.Copying? && c.first.closed && c.second.closed
    ensures Enabled(c, step)
  {
    if c.buf != [] then Write(|c.buf|)
    else if Source(c).read < |Source(c).sent| then Read(1)
    else if c.onSecond then Finish
    else Switch
  }
}
