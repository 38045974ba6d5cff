/** What every run of a connection on its loop thread keeps. */
module ConnectionRuns {
  import opened Layouts
  import opened SystemCalls
  import opened Masks
  import opened Connections

  lemma NewConnInv(mark: nat, hasHighWater: bool, hasWriteComplete: bool)
    ensures Inv(NewConn(mark, hasHighWater, hasWriteComplete))
  {
  }

  /** The direct write is dead code: with the invariant its test always fails, so the kernel's
      answer to it has no influence on a send. */
  lemma DirectWriteNeverTaken(c: Conn, data: seq<byte>, o1: WriteOutcome, o2: WriteOutcome)
    requires Inv(c) && Allows(o1, |data|) && Allows(o2, |data|)
    ensures c.state != Disconnected ==> !TriesDirectWrite(c)
    ensures Send(c, data, o1) == Send(c, data, o2)
  {
  }

  /** What keeping bytes for later does to the streams. */
  lemma KeepRestEffect(c: Conn, rest: seq<byte>)
    requires c.output.Valid()
    ensures var d := KeepRest(c, rest);
      && d.accepted == c.accepted + rest && d.output.contents == c.output.contents + rest
      && d.written == c.written && d.fins == c.fins && d.state == c.state && d.notices == c.notices
      && d.received == c.received && d.taken == c.taken && d.closeCalls == c.closeCalls
      && c.queued <= d.queued
  {
    AppendIsConcatenation(c.output, rest);
  }

  lemma SendOnlyKeeps(c: Conn, data: seq<byte>, o: WriteOutcome)
    requires Inv(c) && Allows(o, |data|)
    ensures Send(c, data, o) == if c.state == Connected then KeepRest(c, data) else c
  {
  }

  lemma KeepRestKeepsInv(c: Conn, rest: seq<byte>)
    requires Inv(c) && c.state == Connected
    ensures Inv(KeepRest(c, rest))
  {
    if rest != [] {
      var d := KeepRest(c, rest);
      KeepRestEffect(c, rest);
      AppendIsConcatenation(c.output, rest);
      assert Conserved(d) by {
        assert (c.written + c.output.contents) + rest == c.written + (c.output.contents + rest);
      }
      assert d.events == c.events.WithWriting() && d.index == Added;
      assert InterestTracksBacklog(d);
    }
  }

  lemma SendKeepsInv(c: Conn, data: seq<byte>, o: WriteOutcome)
    requires Inv(c) && Allows(o, |data|)
    ensures Inv(Send(c, data, o))
    ensures c.state == Connected ==> Send(c, data, o).accepted == c.accepted + data
  {
    SendOnlyKeeps(c, data, o);
    if c.state == Connected {
      KeepRestEffect(c, data);
      KeepRestKeepsInv(c, data);
    }
  }

  lemma WriteKeepsInv(c: Conn, o: WriteOutcome)
    requires Inv(c) && Enabled(c, Writable(o))
    ensures Inv(HandleWrite(c, o))
  {
    if c.events.IsWriting() && o.Wrote? && o.count > 0 {
      var n := o.count;
      RetrieveDropsAPrefix(c.output, n);
      assert c.output.contents == c.output.contents[..n] + c.output.contents[n..];
      assert c.accepted == (c.written + c.output.contents[..n]) + c.output.contents[n..];
    }
  }

  lemma ReadKeepsInv(c: Conn, o: ReadOutcome)
    requires Inv(c) && Enabled(c, Readable(o))
    ensures Inv(HandleRead(c, o))
  {
    if o.ReadBytes? {
      ScatterReadIsAppend(c.input, o.bytes);
      var filled := Append(c.input, o.bytes);
      AppendIsConcatenation(c.input, o.bytes);
      assert c.received + o.bytes == c.taken + (c.input.contents + o.bytes);
      var d := c.(input := filled, received := c.received + o.bytes);
      assert Inv(d);
      if o.bytes == [] {
        assert HandleRead(c, o) == HandleClose(d);
      } else {
        assert HandleRead(c, o) == d.(messages := c.messages + 1);
      }
    }
  }

  lemma TakeKeepsInv(c: Conn, len: nat)
    requires Inv(c)
    ensures Inv(Step(c, Taken(len)))
  {
    RetrieveDropsAPrefix(c.input, len);
    if len < |c.input.contents| {
      assert c.input.contents == c.input.contents[..len] + c.input.contents[len..];
      assert c.received == (c.taken + c.input.contents[..len]) + c.input.contents[len..];
    }
  }

  lemma StepKeepsInv(c: Conn, e: Event)
    requires Inv(c) && Enabled(c, e)
    ensures Inv(Step(c, e))
  {
    match e
    case Established =>
    case Sent(data, direct) => SendKeepsInv(c, data, direct);
    case ShutdownCalled =>
    case Taken(len) => TakeKeepsInv(c, len);
    case Readable(read) => ReadKeepsInv(c, read);
    case Writable(write) => WriteKeepsInv(c, write);
    case Closed =>
    case Destroyed =>
  }

  // ----- Runs

  ghost predicate Legal(c: Conn, es: seq<Event>)
    decreases es
  {
    es == [] || (Enabled(c, es[0]) && Legal(Step(c, es[0]), es[1..]))
  }

  ghost function Run(c: Conn, es: seq<Event>): Conn
    requires Legal(c, es)
    decreases es
  {
    if es == [] then c else Run(Step(c, es[0]), es[1..])
  }

  lemma {:induction false} RunConcat(c: Conn, a: seq<Event>, b: seq<Event>)
    requires Legal(c, a) && Legal(Run(c, a), b)
    ensures Legal(c, a + b) && Run(c, a + b) == Run(Run(c, a), b)
    decreases a
  {
    if a == [] {
      assert a + b == b;
    } else {
      assert (a + b)[0] == a[0] && (a + b)[1..] == a[1..] + b;
      RunConcat(Step(c, a[0]), a[1..], b);
    }
  }

  /** Byte conservation, write interest, half-close and up/down pairing hold after every run of
      sends, shutdowns, reads, partial or failed writes, closes and teardown. */
  lemma {:induction false} RunKeepsInv(c: Conn, es: seq<Event>)
    requires Inv(c) && Legal(c, es)
    ensures Inv(Run(c, es))
    decreases es
  {
    if es != [] {
      StepKeepsInv(c, es[0]);
      RunKeepsInv(Step(c, es[0]), es[1..]);
    }
  }

  /** Streams only grow, and the connection state never moves back. */
  ghost predicate Follows(c: Conn, d: Conn) {
    && c.accepted <= d.accepted && c.written <= d.written && c.fins <= d.fins
    && c.received <= d.received && c.taken <= d.taken
    && c.notices <= d.notices && c.queued <= d.queued
    && Rank(c.state) <= Rank(d.state) && c.closeCalls <= d.closeCalls
    && (c.fins != [] ==> d.written == c.written && d.accepted == c.accepted)
  }

  lemma WriteFollows(c: Conn, o: WriteOutcome)
    requires Inv(c) && Enabled(c, Writable(o))
    ensures Follows(c, HandleWrite(c, o))
  {
    if c.events.IsWriting() && o.Wrote? && o.count > 0 {
      assert c.fins == [];
    }
  }

  lemma ReadFollows(c: Conn, o: ReadOutcome)
    requires Inv(c) && Enabled(c, Readable(o))
    ensures Follows(c, HandleRead(c, o))
  {
    if o.ReadBytes? {
      assert c.received <= c.received + o.bytes;
    }
  }

  lemma OtherStepFollows(c: Conn, e: Event)
    requires Inv(c) && Enabled(c, e) && !e.Sent? && !e.Writable? && !e.Readable?
    ensures Follows(c, Step(c, e))
  {
    match e
    case Established =>
    case ShutdownCalled =>
    case Taken(len) =>
    case Closed =>
    case Destroyed =>
  }

  lemma StepFollows(c: Conn, e: Event)
    requires Inv(c) && Enabled(c, e)
    ensures Follows(c, Step(c, e))
  {
    if e.Sent? {
      SendOnlyKeeps(c, e.data, e.direct);
      KeepRestEffect(c, e.data);
      assert Follows(c, Send(c, e.data, e.direct));
    } else if e.Writable? {
      WriteFollows(c, e.write);
    } else if e.Readable? {
      ReadFollows(c, e.read);
    } else {
      OtherStepFollows(c, e);
    }
  }

  lemma {:induction false} RunFollows(c: Conn, es: seq<Event>)
    requires Inv(c) && Legal(c, es)
    ensures Follows(c, Run(c, es))
    decreases es
  {
    if es != [] {
      StepFollows(c, es[0]);
      StepKeepsInv(c, es[0]);
      RunFollows(Step(c, es[0]), es[1..]);
    }
  }

  /** What the user sends in one event to a connection that is up. */
  function OfferedBy(c: Conn, e: Event): seq<byte> {
    if e.Sent? && c.state == Connected then e.data else []
  }

  /** Everything the user sent while the connection was up, in order. */
  ghost function Offered(c: Conn, es: seq<Event>): seq<byte>
    requires Legal(c, es)
    decreases es
  {
    if es == [] then []
    else OfferedBy(c, es[0]) + Offered(Step(c, es[0]), es[1..])
  }

  function ReadBy(e: Event): seq<byte> {
    if e.Readable? && e.read.ReadBytes? then e.read.bytes else []
  }

  /** Everything the reads delivered, in order. */
  function Delivered(es: seq<Event>): seq<byte> {
    if es == [] then [] else ReadBy(es[0]) + Delivered(es[1..])
  }

  /** Reads that delivered something: each of them calls the message callback. */
  function CountMessages(es: seq<Event>): nat {
    if es == [] then 0 else (if ReadBy(es[0]) != [] then 1 else 0) + CountMessages(es[1..])
  }

  lemma StepOffers(c: Conn, e: Event)
    requires Inv(c) && Enabled(c, e)
    ensures Step(c, e).accepted == c.accepted + OfferedBy(c, e)
  {
    if e.Sent? {
      SendOnlyKeeps(c, e.data, e.direct);
      KeepRestEffect(c, e.data);
    }
  }

  lemma StepDelivers(c: Conn, e: Event)
    requires Inv(c) && Enabled(c, e)
    ensures Step(c, e).received == c.received + ReadBy(e)
    ensures Step(c, e).messages == c.messages + if ReadBy(e) != [] then 1 else 0
  {
    if e.Sent? {
      SendOnlyKeeps(c, e.data, e.direct);
      KeepRestEffect(c, e.data);
    }
  }

  lemma Regroup(all: seq<byte>, first: seq<byte>, rest: seq<byte>)
    ensures all + (first + rest) == (all + first) + rest
  {
  }

  lemma {:induction false} AcceptedIsOffered(c: Conn, es: seq<Event>)
    requires Inv(c) && Legal(c, es)
    ensures Run(c, es).accepted == c.accepted + Offered(c, es)
    decreases es
  {
    if es != [] {
      StepKeepsInv(c, es[0]);
      StepOffers(c, es[0]);
      AcceptedIsOffered(Step(c, es[0]), es[1..]);
      Regroup(c.accepted, OfferedBy(c, es[0]), Offered(Step(c, es[0]), es[1..]));
    }
  }

  lemma {:induction false} ReceivedIsDelivered(c: Conn, es: seq<Event>)
    requires Inv(c) && Legal(c, es)
    ensures Run(c, es).received == c.received + Delivered(es)
    ensures Run(c, es).messages == c.messages + CountMessages(es)
    decreases es
  {
    if es != [] {
      StepKeepsInv(c, es[0]);
      StepDelivers(c, es[0]);
      ReceivedIsDelivered(Step(c, es[0]), es[1..]);
      assert (c.received + ReadBy(es[0])) + Delivered(es[1..]) == c.received + Delivered(es);
    }
  }

  /** From a new connection: what the kernel took and then what is in the output buffer is exactly
      what the user sent while the connection was up; at most one SHUT_WR, at the very end of the
      stream, and none is missing once a shutdown has drained. */
  lemma OutboundStream(mark: nat, hasHighWater: bool, hasWriteComplete: bool, es: seq<Event>)
    requires Legal(NewConn(mark, hasHighWater, hasWriteComplete), es)
    ensures var c := NewConn(mark, hasHighWater, hasWriteComplete); var d := Run(c, es);
      && Offered(c, es) == d.written + d.output.contents
      && (d.fins == [] || (d.fins == [|Offered(c, es)|] && d.written == Offered(c, es)))
      && (d.state == Disconnecting ==> (d.fins != [] <==> d.written == Offered(c, es)))
  {
    NewConnInv(mark, hasHighWater, hasWriteComplete);
    RunKeepsInv(NewConn(mark, hasHighWater, hasWriteComplete), es);
    AcceptedIsOffered(NewConn(mark, hasHighWater, hasWriteComplete), es);
  }

  /** From a new connection: what the user took and then what is in the input buffer is exactly what
      the reads delivered, and each read that delivered something called the message callback. */
  lemma InboundStream(mark: nat, hasHighWater: bool, hasWriteComplete: bool, es: seq<Event>)
    requires Legal(NewConn(mark, hasHighWater, hasWriteComplete), es)
    ensures var d := Run(NewConn(mark, hasHighWater, hasWriteComplete), es);
      && Delivered(es) == d.taken + d.input.contents
      && d.messages == CountMessages(es)
  {
    NewConnInv(mark, hasHighWater, hasWriteComplete);
    RunKeepsInv(NewConn(mark, hasHighWater, hasWriteComplete), es);
    ReceivedIsDelivered(NewConn(mark, hasHighWater, hasWriteComplete), es);
  }

  // ----- The guard of the direct write on its own

  /** A connection as far as sending is concerned, without the write-interest invariant. */
  ghost predicate CanSend(c: Conn) {
    c.state == Connected && c.output.Valid() && c.accepted == c.written + c.output.contents
  }

  lemma KeepRestConserves(c: Conn, rest: seq<byte>)
    requires c.output.Valid() && c.accepted == c.written + c.output.contents
    ensures var d := KeepRest(c, rest); d.accepted == d.written + d.output.contents
  {
    KeepRestEffect(c, rest);
    assert (c.written + c.output.contents) + rest == c.written + (c.output.contents + rest);
  }

  lemma SafeSendKeepsOrder(c: Conn, data: seq<byte>, o: WriteOutcome)
    requires CanSend(c) && Allows(o, |data|)
    requires !TriesDirectWrite(c) || c.output.contents == []
    ensures var d := Send(c, data, o); d.accepted == d.written + d.output.contents
  {
    if TriesDirectWrite(c) && o.Wrote? {
      var n := o.count;
      var sent := c.(written := c.written + data[..n], accepted := c.accepted + data[..n]);
      var told := if n == |data| && c.hasWriteComplete
                  then sent.(queued := c.queued + [WriteComplete]) else sent;
      assert sent.accepted == sent.written + sent.output.contents;
      KeepRestConserves(told, data[n..]);
    } else {
      KeepRestConserves(c, data);
    }
  }

  lemma OvertakingWrite(c: Conn)
    requires CanSend(c) && TriesDirectWrite(c) && c.output.contents != []
    ensures exists data, o: WriteOutcome {:trigger Send(c, data, o)} ::
      (Allows(o, |data|) && (var d := Send(c, data, o); d.accepted != d.written + d.output.contents))
  {
    var first := c.output.contents[0];
    var other: byte := if first == 0 then 1 else 0;
    var data := [other];
    var o := Wrote(1);
    var d := Send(c, data, o);
    assert data[..1] == data && data[1..] == [];
    assert d.written == c.written + [other] && d.output == c.output;
    assert d.accepted[|c.written|] == first;
    assert (d.written + d.output.contents)[|c.written|] == other;
  }

  /** Taken alone, the test `not writing and the vector is full` does not protect the order of the
      stream: a send is safe for all data and all kernel answers exactly when the test fails or
      the backlog is empty. */
  lemma GuardProtectsOrderIff(c: Conn)
    requires CanSend(c)
    ensures (forall data, o: WriteOutcome {:trigger Send(c, data, o)} | Allows(o, |data|) ::
               var d := Send(c, data, o); d.accepted == d.written + d.output.contents)
       <==> (c.events.pollOut || c.output.Writer() != c.output.size || c.output.contents == [])
  {
    if !TriesDirectWrite(c) || c.output.contents == [] {
      forall data, o: WriteOutcome | Allows(o, |data|)
        ensures var d := Send(c, data, o); d.accepted == d.written + d.output.contents
      {
        SafeSendKeepsOrder(c, data, o);
      }
    } else {
      OvertakingWrite(c);
    }
  }

  // ----- Water mark and drain notifications

  function Unsent(c: Conn): nat { |c.output.contents| }

  /** The unsent byte counts along a run, from the start to the end. */
  ghost function Levels(c: Conn, es: seq<Event>): (levels: seq<nat>)
    requires Legal(c, es)
    ensures levels != [] && levels[0] == Unsent(c)
    decreases es
  {
    if es == [] then [Unsent(c)] else [Unsent(c)] + Levels(Step(c, es[0]), es[1..])
  }

  /** How often a level sequence climbs from below `mark` to `mark` or above. */
  function Climbs(levels: seq<nat>, mark: nat): nat {
    if |levels| < 2 then 0
    else (if levels[0] < mark <= levels[1] then 1 else 0) + Climbs(levels[1..], mark)
  }

  /** How often a level sequence falls from `mark` or above to below `mark`. */
  function Falls(levels: seq<nat>, mark: nat): nat {
    if |levels| < 2 then 0
    else (if levels[1] < mark <= levels[0] then 1 else 0) + Falls(levels[1..], mark)
  }

  function CountHighWater(fs: seq<Functor>): nat {
    if fs == [] then 0 else (if fs[0].HighWaterMark? then 1 else 0) + CountHighWater(fs[1..])
  }

  function CountWriteComplete(fs: seq<Functor>): nat {
    if fs == [] then 0 else (if fs[0].WriteComplete? then 1 else 0) + CountWriteComplete(fs[1..])
  }

  lemma {:induction false} CountsAppend(fs: seq<Functor>, f: Functor)
    ensures CountHighWater(fs + [f]) == CountHighWater(fs) + (if f.HighWaterMark? then 1 else 0)
    ensures CountWriteComplete(fs + [f]) == CountWriteComplete(fs) + (if f.WriteComplete? then 1 else 0)
  {
    if fs != [] {
      assert (fs + [f])[1..] == fs[1..] + [f];
      CountsAppend(fs[1..], f);
    }
  }

  /** What going from `before` to `after` unsent bytes must queue. */
  function Notices(c: Conn, before: nat, after: nat): seq<Functor> {
    if c.hasHighWater && before < c.mark <= after then [HighWaterMark(after)]
    else if c.hasWriteComplete && after < 1 <= before then [WriteComplete]
    else []
  }

  ghost predicate Notified(c: Conn, d: Conn) {
    && d.mark == c.mark && d.hasHighWater == c.hasHighWater && d.hasWriteComplete == c.hasWriteComplete
    && d.queued == c.queued + Notices(c, Unsent(c), Unsent(d))
  }

  lemma WriteNotifies(c: Conn, o: WriteOutcome)
    requires Inv(c) && Enabled(c, Writable(o))
    ensures Notified(c, HandleWrite(c, o))
  {
    RetrieveDropsAPrefix(c.output, if o.Wrote? then o.count else 0);
  }

  lemma StepIsNotified(c: Conn, e: Event)
    requires Inv(c) && Enabled(c, e)
    ensures Notified(c, Step(c, e))
  {
    if e.Sent? {
      SendOnlyKeeps(c, e.data, e.direct);
      AppendIsConcatenation(c.output, e.data);
    } else if e.Writable? {
      WriteNotifies(c, e.write);
    } else {
      assert Step(c, e).output == c.output && Step(c, e).queued == c.queued;
    }
  }

  lemma NotifiedMeans(c: Conn, d: Conn)
    requires Notified(c, d)
    ensures var climbs := c.hasHighWater && Unsent(c) < c.mark <= Unsent(d);
      var drains := c.hasWriteComplete && Unsent(d) == 0 < Unsent(c);
      && (climbs ==> d.queued == c.queued + [HighWaterMark(Unsent(d))])
      && (drains ==> d.queued == c.queued + [WriteComplete])
      && (!climbs && !drains ==> d.queued == c.queued)
  {
  }

  /** A step queues a high-water functor, with the new backlog, exactly when it climbs over the mark,
      and a write-complete functor exactly when it falls to an empty backlog. */
  lemma StepNotifies(c: Conn, e: Event)
    requires Inv(c) && Enabled(c, e)
    ensures Notified(c, Step(c, e))
    ensures var d := Step(c, e); var climbs := c.hasHighWater && Unsent(c) < c.mark <= Unsent(d);
      var drains := c.hasWriteComplete && Unsent(d) == 0 < Unsent(c);
      && (climbs ==> d.queued == c.queued + [HighWaterMark(Unsent(d))])
      && (drains ==> d.queued == c.queued + [WriteComplete])
      && (!climbs && !drains ==> d.queued == c.queued)
  {
    StepIsNotified(c, e);
    NotifiedMeans(c, Step(c, e));
  }

  /** The mark and the callbacks stay what they were when the connection began. */
  lemma {:induction false} SettingsStay(c: Conn, es: seq<Event>)
    requires Inv(c) && Legal(c, es)
    ensures var d := Run(c, es);
      d.mark == c.mark && d.hasHighWater == c.hasHighWater && d.hasWriteComplete == c.hasWriteComplete
    decreases es
  {
    if es != [] {
      StepNotifies(c, es[0]);
      StepKeepsInv(c, es[0]);
      SettingsStay(Step(c, es[0]), es[1..]);
    }
  }

  lemma NoticesCount(c: Conn, d: Conn)
    requires Notified(c, d)
    ensures CountHighWater(d.queued) == CountHighWater(c.queued)
              + (if c.hasHighWater && Unsent(c) < c.mark <= Unsent(d) then 1 else 0)
    ensures CountWriteComplete(d.queued) == CountWriteComplete(c.queued)
              + (if c.hasWriteComplete && Unsent(d) < 1 <= Unsent(c) then 1 else 0)
  {
    var notices := Notices(c, Unsent(c), Unsent(d));
    if notices == [] {
      assert d.queued == c.queued;
    } else {
      assert notices == [notices[0]];
      CountsAppend(c.queued, notices[0]);
    }
  }

  /** Over every run with a fixed mark: one high-water functor for each climb over the mark, one
      write-complete functor for each fall to empty. */
  lemma {:induction false} NotificationsAreCrossings(c: Conn, es: seq<Event>)
    requires Inv(c) && Legal(c, es)
    ensures var d := Run(c, es); var levels := Levels(c, es);
      && CountHighWater(d.queued) == CountHighWater(c.queued)
           + (if c.hasHighWater then Climbs(levels, c.mark) else 0)
      && CountWriteComplete(d.queued) == CountWriteComplete(c.queued)
           + (if c.hasWriteComplete then Falls(levels, 1) else 0)
    decreases es
  {
    if es != [] {
      var next := Step(c, es[0]);
      StepNotifies(c, es[0]);
      NoticesCount(c, next);
      StepKeepsInv(c, es[0]);
      NotificationsAreCrossings(next, es[1..]);
      assert Levels(c, es)[1..] == Levels(next, es[1..]);
    }
  }

  /** Climbs and falls alternate: their numbers differ only by where the sequence starts and ends. */
  lemma {:induction false} ClimbsAndFallsAlternate(levels: seq<nat>, mark: nat)
    requires levels != []
    ensures Climbs(levels, mark) + (if levels[0] >= mark then 1 else 0)
         == Falls(levels, mark) + (if levels[|levels| - 1] >= mark then 1 else 0)
  {
    if |levels| >= 2 {
      ClimbsAndFallsAlternate(levels[1..], mark);
    }
  }

  lemma {:induction false} LevelsEnd(c: Conn, es: seq<Event>)
    requires Legal(c, es)
    ensures var levels := Levels(c, es); levels[|levels| - 1] == Unsent(Run(c, es))
    decreases es
  {
    if es != [] {
      LevelsEnd(Step(c, es[0]), es[1..]);
    }
  }

  /** On a new connection with a positive mark, two high-water functors always have a drain below
      the mark between them. */
  lemma DrainSeparatesHighWaterMarks(mark: nat, hasWriteComplete: bool, es: seq<Event>)
    requires mark > 0
    requires Legal(NewConn(mark, true, hasWriteComplete), es)
    ensures var c := NewConn(mark, true, hasWriteComplete);
      CountHighWater(Run(c, es).queued)
        == Falls(Levels(c, es), mark) + (if Unsent(Run(c, es)) >= mark then 1 else 0)
  {
    var c := NewConn(mark, true, hasWriteComplete);
    NewConnInv(mark, true, hasWriteComplete);
    NotificationsAreCrossings(c, es);
    ClimbsAndFallsAlternate(Levels(c, es), mark);
    LevelsEnd(c, es);
  }

  lemma HandlersIgnoreMark(c: Conn, e: Event, mark: nat)
    requires Enabled(c, e) && (e.Writable? || e.Readable?)
    ensures Enabled(c.(mark := mark, hasHighWater := true), e)
    ensures Step(c.(mark := mark, hasHighWater := true), e)
         == Step(c, e).(mark := mark, hasHighWater := true)
  {
  }

  lemma StepIgnoresMark(c: Conn, e: Event, mark: nat)
    requires Enabled(c, e) && !e.Sent?
    ensures Enabled(c.(mark := mark, hasHighWater := true), e)
    ensures Step(c.(mark := mark, hasHighWater := true), e)
         == Step(c, e).(mark := mark, hasHighWater := true)
  {
    match e
    case Writable(_) => HandlersIgnoreMark(c, e, mark);
    case Readable(_) => HandlersIgnoreMark(c, e, mark);
    case Established =>
    case ShutdownCalled =>
    case Taken(_) =>
    case Closed =>
    case Destroyed =>
  }

  lemma {:induction false} RunIgnoresMark(c: Conn, es: seq<Event>, mark: nat)
    requires Legal(c, es) && forall i :: 0 <= i < |es| ==> !es[i].Sent?
    ensures Legal(c.(mark := mark, hasHighWater := true), es)
    ensures Run(c.(mark := mark, hasHighWater := true), es)
         == Run(c, es).(mark := mark, hasHighWater := true)
    decreases es
  {
    if es != [] {
      StepIgnoresMark(c, es[0], mark);
      RunIgnoresMark(Step(c, es[0]), es[1..], mark);
    }
  }

  /** Setting the mark and its callback any time before the first send is the same as beginning with
      them. */
  lemma MarkMayComeLate(first: nat, hasHighWater: bool, hasWriteComplete: bool, es: seq<Event>, mark: nat)
    requires Legal(NewConn(first, hasHighWater, hasWriteComplete), es)
    requires forall i :: 0 <= i < |es| ==> !es[i].Sent?
    ensures Legal(NewConn(mark, true, hasWriteComplete), es)
    ensures Run(NewConn(mark, true, hasWriteComplete), es)
         == Run(NewConn(first, hasHighWater, hasWriteComplete), es).(mark := mark, hasHighWater := true)
  {
    RunIgnoresMark(NewConn(first, hasHighWater, hasWriteComplete), es, mark);
  }

  // ----- Draining

  /** A write-ready event in which the kernel takes at least one byte. */
  predicate Progress(e: Event) {
    e.Writable? && e.write.Wrote? && e.write.count > 0
  }

  /** No send, no close, no teardown. */
  predicate DrainOnly(e: Event) {
    match e
    case ShutdownCalled => true
    case Taken(_) => true
    case Readable(read) => read.ReadBytes? ==> read.bytes != []
    case Writable(_) => true
    case _ => false
  }

  function CountProgress(es: seq<Event>): nat {
    if es == [] then 0 else (if Progress(es[0]) then 1 else 0) + CountProgress(es[1..])
  }

  lemma DrainStep(c: Conn, e: Event)
    requires Inv(c) && Enabled(c, e) && DrainOnly(e) && c.state in {Connected, Disconnecting}
    ensures var d := Step(c, e);
      && d.state in {Connected, Disconnecting}
      && d.accepted == c.accepted
      && Unsent(d) <= Unsent(c)
      && (Progress(e) && Unsent(c) > 0 ==> Unsent(d) < Unsent(c))
  {
  }

  /** While draining, each write-ready event that takes a byte brings the backlog down. */
  lemma {:induction false} DrainShrinks(c: Conn, es: seq<Event>)
    requires Inv(c) && Legal(c, es) && c.state in {Connected, Disconnecting}
    requires forall i :: 0 <= i < |es| ==> DrainOnly(es[i])
    ensures var d := Run(c, es);
      && Inv(d) && d.state in {Connected, Disconnecting} && d.accepted == c.accepted
      && Rank(d.state) >= Rank(c.state)
      && CountProgress(es) + Unsent(d) <= Unsent(c)
    decreases es
  {
    if es != [] {
      DrainStep(c, es[0]);
      StepKeepsInv(c, es[0]);
      StepFollows(c, es[0]);
      DrainShrinks(Step(c, es[0]), es[1..]);
    }
  }

  /** All write-ready events, whatever the kernel takes. */
  function CountWrites(es: seq<Event>): nat {
    if es == [] then 0 else (if es[0].Writable? then 1 else 0) + CountWrites(es[1..])
  }

  /** Every write-ready event that meets a backlog takes at least one byte of it. */
  ghost predicate Productive(c: Conn, es: seq<Event>)
    requires Legal(c, es)
    decreases es
  {
    es == [] ||
    ((es[0].Writable? && Unsent(c) > 0 ==> Progress(es[0])) && Productive(Step(c, es[0]), es[1..]))
  }

  lemma {:induction false} WritesSuffice(c: Conn, es: seq<Event>)
    requires Inv(c) && Legal(c, es) && c.state in {Connected, Disconnecting}
    requires forall i :: 0 <= i < |es| ==> DrainOnly(es[i])
    requires Productive(c, es)
    ensures Unsent(Run(c, es)) == 0 || CountWrites(es) + Unsent(Run(c, es)) <= Unsent(c)
    decreases es
  {
    if es != [] {
      DrainStep(c, es[0]);
      StepKeepsInv(c, es[0]);
      WritesSuffice(Step(c, es[0]), es[1..]);
      DrainShrinks(Step(c, es[0]), es[1..]);
    }
  }

  /** Draining terminates: without new sends or a close every productive write-ready event shrinks the
      backlog; at its end everything accepted is written, the write interest is gone and a pending
      shutdown is complete. When every write-ready event takes something, as many of them as there are
      unsent bytes always get there. */
  lemma DrainTerminates(c: Conn, es: seq<Event>)
    requires Inv(c) && Legal(c, es) && c.state in {Connected, Disconnecting}
    requires forall i :: 0 <= i < |es| ==> DrainOnly(es[i])
    ensures var d := Run(c, es);
      && CountProgress(es) + Unsent(d) <= Unsent(c)
      && (Unsent(d) == 0 ==> d.written == c.accepted && !d.events.IsWriting()
                             && (d.state == Disconnecting ==> d.fins == [|c.accepted|]))
      && (c.state == Disconnecting ==> d.state == Disconnecting)
      && (Productive(c, es) && CountWrites(es) >= Unsent(c) ==> Unsent(d) == 0)
  {
    DrainShrinks(c, es);
    if Productive(c, es) {
      WritesSuffice(c, es);
    }
    var d := Run(c, es);
    assert d.accepted == d.written + d.output.contents;
    if Unsent(d) == 0 && d.state == Disconnecting {
      assert d.fins[0] == |d.written|;
    }
  }

  // ----- Closing

  predicate Closes(e: Event) {
    e.Closed? || e == Readable(ReadBytes([]))
  }

  function CountCloses(es: seq<Event>): nat {
    if es == [] then 0 else (if Closes(es[0]) then 1 else 0) + CountCloses(es[1..])
  }

  lemma StepCounts(c: Conn, e: Event)
    requires Inv(c) && Enabled(c, e)
    ensures Step(c, e).closeCalls == c.closeCalls + (if Closes(e) then 1 else 0)
  {
    if e.Sent? {
      SendOnlyKeeps(c, e.data, e.direct);
    }
  }

  lemma {:induction false} CloseCallsCountCloses(c: Conn, es: seq<Event>)
    requires Inv(c) && Legal(c, es)
    ensures Run(c, es).closeCalls == c.closeCalls + CountCloses(es)
    decreases es
  {
    if es != [] {
      StepKeepsInv(c, es[0]);
      StepCounts(c, es[0]);
      CloseCallsCountCloses(Step(c, es[0]), es[1..]);
    }
  }

  /** What the connection callback is told in a life with `downs` calls for down. */
  function UpAndDowns(downs: nat): seq<bool> {
    [true] + seq(downs, _ => false)
  }

  /** Up/down pairing over every run: one `connected` notice when the connection is established, and
      after a close one `disconnected` notice for each time it was closed. */
  lemma UpDownPairing(mark: nat, hasHighWater: bool, hasWriteComplete: bool, es: seq<Event>)
    requires Legal(NewConn(mark, hasHighWater, hasWriteComplete), es)
    ensures var d := Run(NewConn(mark, hasHighWater, hasWriteComplete), es);
      && (d.state == Connecting ==> d.notices == [])
      && (d.state in {Connected, Disconnecting} ==> d.notices == [true])
      && (CountCloses(es) > 0 ==> d.state == Disconnected && d.notices == UpAndDowns(CountCloses(es)))
  {
    var c := NewConn(mark, hasHighWater, hasWriteComplete);
    NewConnInv(mark, hasHighWater, hasWriteComplete);
    RunKeepsInv(c, es);
    CloseCallsCountCloses(c, es);
  }

  // ----- Event dispatch

  function Part(on: bool, e: Event): seq<Event> {
    if on then [e] else []
  }

  /** handleEventWithGuard: which handlers one reported mask runs, in order. */
  function Dispatch(mask: Events, read: ReadOutcome, write: WriteOutcome): seq<Event> {
    Part(mask.pollHup && !mask.pollIn, Closed)
    + (Part(mask.pollIn || mask.pollPri, Readable(read)) + Part(mask.pollOut, Writable(write)))
  }

  /** What a report finds: a registered channel, and a kernel that takes no more than is offered. */
  predicate CanDispatch(c: Conn, write: WriteOutcome) {
    c.index != New && Allows(write, |c.output.contents|)
  }

  function Maybe(c: Conn, on: bool, e: Event): Conn
    requires Enabled(c, e)
  {
    if on then Step(c, e) else c
  }

  /** A handler of a report leaves what the later ones need. */
  lemma MaybeKeeps(c: Conn, on: bool, e: Event)
    requires Inv(c) && c.index != New && Enabled(c, e) && (e.Closed? || e.Readable? || e.Writable?)
    ensures var d := Maybe(c, on, e);
      Inv(d) && d.index != New && (!e.Writable? ==> d.output == c.output)
  {
    StepKeepsInv(c, e);
  }

  lemma PartThen(c: Conn, on: bool, e: Event, rest: seq<Event>)
    requires Enabled(c, e) && Legal(Maybe(c, on, e), rest)
    ensures Legal(c, Part(on, e) + rest) && Run(c, Part(on, e) + rest) == Run(Maybe(c, on, e), rest)
  {
    if on {
      assert ([e] + rest)[1..] == rest;
    } else {
      assert [] + rest == rest;
    }
  }

  /** Every handler of every report may run when its turn comes, whatever those before it did, and
      they run one after the other: close, read, write. */
  lemma DispatchInOrder(c: Conn, mask: Events, read: ReadOutcome, write: WriteOutcome)
    requires Inv(c) && CanDispatch(c, write)
    ensures Enabled(c, Closed)
    ensures var closed := if mask.pollHup && !mask.pollIn then Step(c, Closed) else c;
      && Enabled(closed, Readable(read))
      && var got := if mask.pollIn || mask.pollPri then Step(closed, Readable(read)) else closed;
      && Enabled(got, Writable(write))
      && var done := if mask.pollOut then Step(got, Writable(write)) else got;
      && Legal(c, Dispatch(mask, read, write)) && Run(c, Dispatch(mask, read, write)) == done
      && Inv(done)
  {
    var closed := Maybe(c, mask.pollHup && !mask.pollIn, Closed);
    MaybeKeeps(c, mask.pollHup && !mask.pollIn, Closed);
    var got := Maybe(closed, mask.pollIn || mask.pollPri, Readable(read));
    MaybeKeeps(closed, mask.pollIn || mask.pollPri, Readable(read));
    MaybeKeeps(got, mask.pollOut, Writable(write));
    var last := Part(mask.pollOut, Writable(write));
    PartThen(got, mask.pollOut, Writable(write), []);
    assert last + [] == last;
    PartThen(closed, mask.pollIn || mask.pollPri, Readable(read), last);
    PartThen(c, mask.pollHup && !mask.pollIn, Closed,
             Part(mask.pollIn || mask.pollPri, Readable(read)) + last);
  }

  /** The state of a connection after one report. */
  ghost function Dispatched(c: Conn, mask: Events, read: ReadOutcome, write: WriteOutcome): Conn
    requires Inv(c) && CanDispatch(c, write)
  {
    DispatchInOrder(c, mask, read, write);
    Run(c, Dispatch(mask, read, write))
  }

  lemma {:induction false} CountClosesConcat(a: seq<Event>, b: seq<Event>)
    ensures CountCloses(a + b) == CountCloses(a) + CountCloses(b)
  {
    if a == [] {
      assert a + b == b;
    } else {
      assert (a + b)[1..] == a[1..] + b;
      CountClosesConcat(a[1..], b);
    }
  }

  /** One report closes a connection at most once, unless it says hang-up and urgent data without
      input and the read then meets the end of the stream. */
  lemma DispatchClosesAtMostOnceIff(mask: Events, read: ReadOutcome, write: WriteOutcome)
    ensures CountCloses(Dispatch(mask, read, write)) <= 1
       <==> !(mask.pollHup && mask.pollPri && !mask.pollIn && read == ReadBytes([]))
  {
    var last := Part(mask.pollOut, Writable(write));
    CountClosesConcat(Part(mask.pollIn || mask.pollPri, Readable(read)), last);
    CountClosesConcat(Part(mask.pollHup && !mask.pollIn, Closed),
                      Part(mask.pollIn || mask.pollPri, Readable(read)) + last);
  }
}
