/** What each event of a connection does, told in bits, bytes and counts: the whole new state, without
    the handlers' own words. */
module ConnectionEffects {
  import Layouts
  import opened SystemCalls
  import opened Masks
  import opened Connections
  import opened ConnectionRuns

  /** Asking for input and urgent data always, for output exactly while bytes are unsent; a connection
      that is not up asks for nothing. */
  lemma InterestIsExact(c: Conn)
    requires Inv(c)
    ensures c.events == if c.state in {Connected, Disconnecting}
                        then Events(true, true, c.output.contents != [], false, false)
                        else Events(false, false, false, false, false)
  {
  }

  lemma EstablishedEffect(c: Conn)
    requires Inv(c) && Enabled(c, Established)
    ensures Step(c, Established) == c.(state := Connected, events := Events(true, true, false, false, false),
                                       index := Added, notices := [true])
  {
    InterestIsExact(c);
  }

  /** A shutdown of a connected connection begins the half-close, and is SHUT_WR itself when nothing is
      unsent; any other shutdown does nothing. */
  lemma ShutdownEffect(c: Conn)
    requires Inv(c)
    ensures Step(c, ShutdownCalled) ==
      if c.state != Connected then c
      else c.(state := Disconnecting, fins := if c.output.contents == [] then [|c.written|] else [])
  {
  }

  /** A send of a connected connection puts all its bytes behind the backlog and asks for output. */
  lemma SendEffect(c: Conn, data: seq<Layouts.byte>, o: WriteOutcome)
    requires Inv(c) && Enabled(c, Sent(data, o))
    ensures var d := Step(c, Sent(data, o)); var total := |c.output.contents| + |data|;
      if c.state != Connected || data == [] then d == c
      else
        && d.output.contents == c.output.contents + data
        && d == c.(output := d.output, accepted := c.accepted + data,
                   events := Events(true, true, true, false, false), index := Added,
                   queued := c.queued + if c.hasHighWater && |c.output.contents| < c.mark <= total
                                        then [HighWaterMark(total)] else [])
  {
    SendOnlyKeeps(c, data, o);
    if c.state == Connected {
      Layouts.AppendIsConcatenation(c.output, data);
      KeepRestKeepsInv(c, data);
      InterestIsExact(KeepRest(c, data));
    }
  }

  /** The guard of the direct write, as written: output is not asked for and the vector is full. */
  predicate Tries(c: Conn) {
    !c.events.pollOut && c.output.reader + |c.output.contents| == c.output.size
  }

  /** sendInLoop on any connection, reachable or not: given up when it is down, and everything kept when
      no write is tried or the write fails for now. */
  lemma SendInLoopKeeps(c: Conn, data: seq<Layouts.byte>, o: WriteOutcome)
    requires Allows(o, |data|)
    ensures c.state == Disconnected ==> SendInLoop(c, data, o) == c
    ensures c.state != Disconnected && (!Tries(c) || o == WriteFailed(EWOULDBLOCK) || o == WriteFailed(OtherErrno))
            ==> SendInLoop(c, data, o) == KeepRest(c, data)
  {
  }

  /** A tried write: what is not written is kept, unless the peer has closed or reset the connection. */
  lemma SendInLoopWrites(c: Conn, data: seq<Layouts.byte>, o: WriteOutcome)
    requires Allows(o, |data|) && c.state != Disconnected && Tries(c)
    ensures o == WriteFailed(EPIPE) || o == WriteFailed(ECONNRESET) ==> SendInLoop(c, data, o) == c
    ensures o.Wrote? ==>
      var told := if o.count == |data| && c.hasWriteComplete then [WriteComplete] else [];
      SendInLoop(c, data, o)
      == KeepRest(c.(written := c.written + data[..o.count], accepted := c.accepted + data[..o.count],
                     queued := c.queued + told), data[o.count..])
  {
  }

  /** How many bytes leave in a write-ready event: what the kernel took, if output was asked for. */
  function Gone(c: Conn, o: WriteOutcome): nat {
    if c.events.pollOut && o.Wrote? then o.count else 0
  }

  /** Exactly the bytes that the kernel took leave the backlog, from its front. When they are the last,
      output is no longer asked for, write-complete is queued and a half-close is completed. */
  lemma WritableEffect(c: Conn, o: WriteOutcome)
    requires Inv(c) && Enabled(c, Writable(o))
    ensures var d := Step(c, Writable(o)); var k := Gone(c, o);
      && d.written == c.written + c.output.contents[..k] && d.output.contents == c.output.contents[k..]
      && (k == 0 ==> d == c)
      && (0 < k < |c.output.contents| ==> d == c.(written := d.written, output := d.output))
      && (0 < k == |c.output.contents| ==>
            d == c.(written := d.written, output := d.output,
                    events := Events(true, true, false, false, false), index := Added,
                    queued := c.queued + (if c.hasWriteComplete then [WriteComplete] else []),
                    fins := if c.state == Disconnecting then [|d.written|] else c.fins))
  {
    Layouts.RetrieveDropsAPrefix(c.output, Gone(c, o));
  }

  lemma CloseEffect(c: Conn)
    requires Inv(c) && Enabled(c, Closed)
    ensures Step(c, Closed) == c.(state := Disconnected, events := Events(false, false, false, false, false),
                                  index := if c.index == Added then Deleted else Added,
                                  notices := c.notices + [false], closeCalls := c.closeCalls + 1)
  {
  }

  /** A failed read does nothing, the end of the stream is a close, and bytes go behind the input. */
  lemma ReadableEffect(c: Conn, o: ReadOutcome)
    requires Inv(c) && Enabled(c, Readable(o))
    ensures var d := Step(c, Readable(o));
      match o
      case ReadFailed(_) => d == c
      case ReadBytes(bytes) =>
        if bytes == [] then Enabled(c, Closed) && d == Step(c, Closed)
        else
          && d.input.contents == c.input.contents + bytes
          && d == c.(input := d.input, received := c.received + bytes, messages := c.messages + 1)
  {
    if o.ReadBytes? {
      Layouts.ScatterReadIsAppend(c.input, o.bytes);
      Layouts.AppendIsConcatenation(c.input, o.bytes);
    }
  }

  /** The user gets the next bytes of the input, as many as asked for or as there are. */
  lemma TakenEffect(c: Conn, len: nat)
    requires Inv(c)
    ensures var d := Step(c, Taken(len));
      var n := if len < |c.input.contents| then len else |c.input.contents|;
      && d.input.contents == c.input.contents[n..]
      && d == c.(input := d.input, taken := c.taken + c.input.contents[..n])
  {
    Layouts.RetrieveDropsAPrefix(c.input, len);
    assert c.input.contents[..|c.input.contents|] == c.input.contents;
  }

  lemma DestroyedEffect(c: Conn)
    requires Inv(c) && Enabled(c, Destroyed)
    ensures Step(c, Destroyed) ==
      if c.state == Connected
      then c.(state := Disconnected, events := Events(false, false, false, false, false), index := New,
              notices := [true, false])
      else c.(index := New)
  {
  }

  // ----- Runs

  /** The bytes that the kernel took in the writes that were tried. */
  ghost function KernelTook(c: Conn, es: seq<Event>): nat
    requires Legal(c, es)
    decreases es
  {
    if es == [] then 0
    else (if es[0].Writable? then Gone(c, es[0].write) else 0) + KernelTook(Step(c, es[0]), es[1..])
  }

  lemma StepWrites(c: Conn, e: Event)
    requires Inv(c) && Enabled(c, e)
    ensures |Step(c, e).written| == |c.written| + if e.Writable? then Gone(c, e.write) else 0
  {
    match e
    case Sent(data, direct) => SendEffect(c, data, direct);
    case Writable(write) => WritableEffect(c, write);
    case Readable(read) => ReadableEffect(c, read);
    case _ =>
  }

  /** Over every run: what counts as written is exactly what the kernel took. */
  lemma {:induction false} WrittenIsTaken(c: Conn, es: seq<Event>)
    requires Inv(c) && Legal(c, es)
    ensures |Run(c, es).written| == |c.written| + KernelTook(c, es)
    decreases es
  {
    if es != [] {
      StepKeepsInv(c, es[0]);
      StepWrites(c, es[0]);
      WrittenIsTaken(Step(c, es[0]), es[1..]);
    }
  }

  /** A shutdown has been called while the connection was connected. */
  ghost predicate ShutdownMet(c: Conn, es: seq<Event>)
    requires Legal(c, es)
    decreases es
  {
    es != [] &&
    ((es[0] == ShutdownCalled && c.state == Connected) || ShutdownMet(Step(c, es[0]), es[1..]))
  }

  lemma HalfCloseStays(c: Conn, e: Event)
    requires Inv(c) && Enabled(c, e)
    ensures var d := Step(c, e);
      && (c.state == Disconnecting && !Closes(e) ==> d.state == Disconnecting)
      && (c.state in {Disconnecting, Disconnected} ==> d.state in {Disconnecting, Disconnected})
      && (c.state == Disconnected ==> d.state == Disconnected)
      && (d.state == Disconnecting ==>
            c.state == Disconnecting || (e == ShutdownCalled && c.state == Connected))
  {
    match e
    case Sent(data, direct) => SendEffect(c, data, direct);
    case Writable(write) => WritableEffect(c, write);
    case Readable(read) => ReadableEffect(c, read);
    case _ =>
  }

  lemma FinNeedsShutdown(c: Conn, e: Event)
    requires Inv(c) && Enabled(c, e)
    ensures Step(c, e).fins != [] ==>
      c.fins != [] || c.state == Disconnecting || (e == ShutdownCalled && c.state == Connected)
  {
    match e
    case Sent(data, direct) => SendEffect(c, data, direct);
    case Writable(write) => WritableEffect(c, write);
    case Readable(read) => ReadableEffect(c, read);
    case _ =>
  }

  lemma {:induction false} ShutdownLasts(c: Conn, es: seq<Event>)
    requires Inv(c) && Legal(c, es)
    ensures var d := Run(c, es); var met := c.state == Disconnecting || ShutdownMet(c, es);
      && (met || c.state == Disconnected ==> d.state in {Disconnecting, Disconnected})
      && (c.state == Disconnected ==> d.state == Disconnected)
      && (met && CountCloses(es) == 0 ==> d.state == Disconnecting)
      && (d.state == Disconnecting ==> met)
      && (d.fins != [] ==> c.fins != [] || met)
    decreases es
  {
    if es != [] {
      var m := Step(c, es[0]);
      StepKeepsInv(c, es[0]);
      HalfCloseStays(c, es[0]);
      FinNeedsShutdown(c, es[0]);
      ShutdownEffect(c);
      ShutdownLasts(m, es[1..]);
    }
  }

  /** From a new connection: a shutdown called while connected is never forgotten. Until a close,
      the connection is half-closing exactly when there was one, and has then issued SHUT_WR exactly
      when everything sent is written; without one there is no SHUT_WR. */
  lemma ShutdownTakesEffect(mark: nat, hasHighWater: bool, hasWriteComplete: bool, es: seq<Event>)
    requires Legal(NewConn(mark, hasHighWater, hasWriteComplete), es)
    ensures var c := NewConn(mark, hasHighWater, hasWriteComplete); var d := Run(c, es);
      && (ShutdownMet(c, es) ==> d.state in {Disconnecting, Disconnected})
      && (CountCloses(es) == 0 ==>
            && (d.state == Disconnecting <==> ShutdownMet(c, es))
            && (ShutdownMet(c, es) ==> (d.fins != [] <==> d.written == Offered(c, es))))
      && (!ShutdownMet(c, es) ==> d.fins == [])
  {
    NewConnInv(mark, hasHighWater, hasWriteComplete);
    ShutdownLasts(NewConn(mark, hasHighWater, hasWriteComplete), es);
    OutboundStream(mark, hasHighWater, hasWriteComplete, es);
  }
}
