/** TcpConnection.cc as a machine on values: the connection state, the channel's interest, both
    buffers, and the streams that an observer of the socket and of the callbacks would record.
    Class `TcpConnection` is proved against these functions. */
module Connections {
  import opened Layouts
  import opened SystemCalls
  import opened Masks

  datatype StateE = Connecting | Connected | Disconnecting | Disconnected

  function Rank(s: StateE): nat {
    match s
    case Connecting => 0
    case Connected => 1
    case Disconnecting => 2
    case Disconnected => 3
  }

  /** What the connection hands to queueInLoop. */
  datatype Functor = HighWaterMark(unsent: nat) | WriteComplete

  /** `accepted`: bytes taken over from the user; `written`: bytes the kernel took; `fins`: how many
      bytes had been written at each SHUT_WR; `notices`: what connected() said at each call of the
      connection callback; `received` and `taken`: bytes from the peer and bytes the user consumed. */
  datatype Conn = Conn(
    state: StateE, events: Events, index: Index, input: Layout, output: Layout,
    mark: nat, hasHighWater: bool, hasWriteComplete: bool,
    accepted: seq<byte>, written: seq<byte>, fins: seq<nat>,
    received: seq<byte>, taken: seq<byte>,
    queued: seq<Functor>, notices: seq<bool>, messages: nat, closeCalls: nat)

  /** highWaterMark_ of a new connection: 64M. */
  const HIGH_WATER_MARK: nat := 64 * 1024 * 1024

  function NewConn(mark: nat, hasHighWater: bool, hasWriteComplete: bool): Conn {
    Conn(Connecting, NO_EVENT, New, Fresh(INITIAL_SIZE), Fresh(INITIAL_SIZE),
         mark, hasHighWater, hasWriteComplete, [], [], [], [], [], [], [], 0, 0)
  }

  // ----- The handlers

  function WithEvents(c: Conn, events: Events): Conn {
    c.(events := events, index := NextIndex(c.index, events))
  }

  /** The test in front of the direct write: it asks for a full vector, not for an empty backlog. */
  predicate TriesDirectWrite(c: Conn) {
    !c.events.IsWriting() && c.output.Writable() == 0
  }

  /** `len` more bytes take the backlog over the mark. */
  predicate Crosses(c: Conn, len: nat) {
    |c.output.contents| < c.mark <= |c.output.contents| + len
  }

  /** The tail of sendInLoop: what was not written goes to the output buffer. */
  function KeepRest(c: Conn, rest: seq<byte>): Conn {
    if rest == [] then c
    else
      var oldLen := |c.output.contents|;
      var told := if c.hasHighWater && Crosses(c, |rest|)
                  then c.(queued := c.queued + [HighWaterMark(oldLen + |rest|)]) else c;
      var kept := told.(output := Append(c.output, rest), accepted := c.accepted + rest);
      if c.events.IsWriting() then kept else WithEvents(kept, c.events.WithWriting())
  }

  function SendInLoop(c: Conn, data: seq<byte>, outcome: WriteOutcome): Conn
    requires Allows(outcome, |data|)
  {
    if c.state == Disconnected then c
    else if TriesDirectWrite(c) then
      match outcome
      case Wrote(n) =>
        var sent := c.(written := c.written + data[..n], accepted := c.accepted + data[..n]);
        var told := if n == |data| && c.hasWriteComplete
                    then sent.(queued := c.queued + [WriteComplete]) else sent;
        KeepRest(told, data[n..])
      case WriteFailed(errno) =>
        if errno == EPIPE || errno == ECONNRESET then c else KeepRest(c, data)
    else KeepRest(c, data)
  }

  function Send(c: Conn, data: seq<byte>, outcome: WriteOutcome): Conn
    requires Allows(outcome, |data|)
  {
    if c.state == Connected then SendInLoop(c, data, outcome) else c
  }

  function ShutdownInLoop(c: Conn): Conn {
    if c.events.IsWriting() then c else c.(fins := c.fins + [|c.written|])
  }

  function Shutdown(c: Conn): Conn {
    if c.state == Connected then ShutdownInLoop(c.(state := Disconnecting)) else c
  }

  function ConnectEstablished(c: Conn): Conn {
    WithEvents(c.(state := Connected, notices := c.notices + [true]), c.events.WithReading())
  }

  function ConnectDestroyed(c: Conn): Conn {
    var down := if c.state == Connected
                then WithEvents(c.(state := Disconnected, notices := c.notices + [false]), NO_EVENT)
                else c;
    down.(index := New)
  }

  function HandleClose(c: Conn): Conn {
    WithEvents(c.(state := Disconnected, notices := c.notices + [false],
                  closeCalls := c.closeCalls + 1), NO_EVENT)
  }

  function HandleRead(c: Conn, outcome: ReadOutcome): Conn
    requires c.input.Writable() >= 0
  {
    if outcome.ReadFailed? then c
    else
      var filled := c.(input := ReadFd(c.input, outcome.bytes), received := c.received + outcome.bytes);
      if outcome.bytes == [] then HandleClose(filled) else filled.(messages := c.messages + 1)
  }

  /** The output buffer has just run empty. */
  function Drained(c: Conn): Conn {
    var idle := WithEvents(c, c.events.WithoutWriting());
    var told := if c.hasWriteComplete then idle.(queued := c.queued + [WriteComplete]) else idle;
    if c.state == Disconnecting then ShutdownInLoop(told) else told
  }

  function HandleWrite(c: Conn, outcome: WriteOutcome): Conn
    requires Allows(outcome, |c.output.contents|)
  {
    if !c.events.IsWriting() || outcome.WriteFailed? || outcome.count == 0 then c
    else
      var n := outcome.count;
      var sent := c.(written := c.written + c.output.contents[..n], output := Retrieve(c.output, n));
      if sent.output.contents == [] then Drained(sent) else sent
  }

  // ----- Events on the loop thread

  datatype Event =
    | Established
    | Sent(data: seq<byte>, direct: WriteOutcome)
    | ShutdownCalled
    | Taken(len: nat)
    | Readable(read: ReadOutcome)
    | Writable(write: WriteOutcome)
    | Closed
    | Destroyed

  /** Handlers run only while the channel is registered; connectEstablished runs once. */
  predicate Enabled(c: Conn, e: Event) {
    match e
    case Established => c.state == Connecting
    case Sent(data, direct) => Allows(direct, |data|)
    case ShutdownCalled => true
    case Taken(len) => true
    case Readable(read) => c.index != New && c.input.Writable() >= 0
    case Writable(write) => c.index != New && Allows(write, |c.output.contents|)
    case Closed => c.index != New
    case Destroyed => c.state != Connecting
  }

  function Step(c: Conn, e: Event): Conn
    requires Enabled(c, e)
  {
    match e
    case Established => ConnectEstablished(c)
    case Sent(data, direct) => Send(c, data, direct)
    case ShutdownCalled => Shutdown(c)
    case Taken(len) =>
      c.(input := Retrieve(c.input, len),
         taken := c.taken + (if len < |c.input.contents| then c.input.contents[..len] else c.input.contents))
    case Readable(read) => HandleRead(c, read)
    case Writable(write) => HandleWrite(c, write)
    case Closed => HandleClose(c)
    case Destroyed => ConnectDestroyed(c)
  }

  // ----- The invariant

  /** Nothing accepted is lost, duplicated or reordered, in either direction. */
  ghost predicate Conserved(c: Conn) {
    && c.accepted == c.written + c.output.contents
    && c.received == c.taken + c.input.contents
  }

  /** Write interest tracks the backlog, and the vector is never full while the backlog is empty. */
  ghost predicate InterestTracksBacklog(c: Conn) {
    && c.output.Valid() && c.input.Valid()
    && c.output.size >= CHEAP_PREPEND + INITIAL_SIZE
    && (c.state != Disconnected ==> (c.events.IsWriting() <==> c.output.contents != []))
    && (c.state == Disconnected ==> c.events == NO_EVENT)
  }

  /** SHUT_WR at most once, after every accepted byte, and as soon as a shutdown has drained. */
  ghost predicate HalfClose(c: Conn) {
    && |c.fins| <= 1
    && (c.fins != [] ==> c.fins[0] == |c.written| && c.output.contents == []
                         && Rank(c.state) >= Rank(Disconnecting))
    && (c.state == Disconnecting && c.output.contents == [] ==> c.fins != [])
  }

  /** One call of the connection callback for up, then only calls for down. */
  ghost predicate UpThenDown(c: Conn) {
    && (c.state == Connecting <==> c.notices == [])
    && (c.notices != [] ==> c.notices[0])
    && (forall i :: 1 <= i < |c.notices| ==> !c.notices[i])
    && (c.state in {Connected, Disconnecting} ==> |c.notices| == 1 && c.closeCalls == 0)
    && (c.state == Disconnected ==>
          |c.notices| == 1 + (if c.closeCalls == 0 then 1 else c.closeCalls))
    && (c.state == Disconnected && c.closeCalls == 0 ==> c.index == New)
  }

  ghost predicate Registration(c: Conn) {
    && (c.state == Connecting ==> c.index == New && c.events == NO_EVENT && c.closeCalls == 0)
    && (c.state == Connected ==> c.index == Added)
    && (c.state == Disconnecting ==> c.index != Deleted)
    && (c.state in {Connected, Disconnecting} ==> c.events.pollIn && c.events.pollPri)
    && !c.events.pollErr && !c.events.pollHup
    && (c.index == Deleted ==> c.events == NO_EVENT)
  }

  ghost predicate Inv(c: Conn) {
    Conserved(c) && InterestTracksBacklog(c) && HalfClose(c) && UpThenDown(c) && Registration(c)
  }
}
