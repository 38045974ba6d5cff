/** TcpConnection.cc as an object: it owns its channel and both buffers and updates them in place.
    `outcome` parameters are the kernel's answers; streams and callback logs are ghost fields. */
module TcpConnections {
  import opened Layouts
  import opened SystemCalls
  import opened Masks
  import Registries
  import opened Pollers
  import opened Buffers
  import C = Connections
  import R = ConnectionRuns

  /** What an observer of the socket, the callbacks and the loop's queue has recorded. */
  datatype Observed = Observed(
    accepted: seq<byte>, written: seq<byte>, fins: seq<nat>,
    received: seq<byte>, taken: seq<byte>,
    queued: seq<C.Functor>, notices: seq<bool>, messages: nat, closeCalls: nat)

  /** sendInLoop is an attempt to write, if the guard allows one, and then KeepRest. */
  lemma SendSplits(c: C.Conn, mid: C.Conn, data: seq<byte>, outcome: WriteOutcome, nwrote: nat)
    requires c.state != C.Disconnected && Allows(outcome, |data|)
    requires nwrote == if C.TriesDirectWrite(c) && outcome.Wrote? then outcome.count else 0
    requires mid == if !C.TriesDirectWrite(c) || outcome.WriteFailed? then c else c.(
      written := c.written + data[..nwrote], accepted := c.accepted + data[..nwrote],
      queued := c.queued + (if nwrote == |data| && c.hasWriteComplete then [C.WriteComplete] else []))
    ensures C.SendInLoop(c, data, outcome) ==
      if C.TriesDirectWrite(c) && outcome.WriteFailed? && outcome.errno in {EPIPE, ECONNRESET} then mid
      else C.KeepRest(mid, data[nwrote..])
  {
    assert data[0..] == data;
  }

  class TcpConnection {
    const loop: nat // getLoop(), by its number in the server
    const name: string
    ghost const number: nat // nextConnId_ when it was accepted
    var state: C.StateE
    const channel: Channel
    const inputBuffer: Buffer
    const outputBuffer: Buffer
    var highWaterMark: nat
    var hasHighWater: bool
    var hasWriteComplete: bool

    ghost var seen: Observed

    /** The object is well formed and its poller agrees with the kernel; in particular no epoll_ctl
        call has been refused. */
    ghost predicate Valid()
      reads this, channel, channel.poller, channel.poller.live
      reads inputBuffer, inputBuffer.buffer, outputBuffer, outputBuffer.buffer
    {
      && inputBuffer != outputBuffer && inputBuffer.buffer != outputBuffer.buffer
      && inputBuffer.Valid() && outputBuffer.Valid()
      && channel in channel.poller.live
      && Registries.Inv(channel.poller.View())
    }

    ghost function View(): C.Conn
      requires Valid()
      reads this, channel, channel.poller, channel.poller.live
      reads inputBuffer, inputBuffer.buffer, outputBuffer, outputBuffer.buffer
    {
      C.Conn(state, channel.events, channel.index, inputBuffer.View(), outputBuffer.View(),
             highWaterMark, hasHighWater, hasWriteComplete,
             seen.accepted, seen.written, seen.fins, seen.received, seen.taken,
             seen.queued, seen.notices, seen.messages, seen.closeCalls)
    }

    static method NewBuffers() returns (input: Buffer, output: Buffer)
      ensures fresh(input) && fresh(output) && fresh(input.buffer) && fresh(output.buffer)
      ensures input != output && input.buffer != output.buffer
      ensures input.Valid() && input.View() == Fresh(INITIAL_SIZE)
      ensures output.Valid() && output.View() == Fresh(INITIAL_SIZE)
    {
      input := new Buffer(INITIAL_SIZE);
      output := new Buffer(INITIAL_SIZE);
    }

    /** A channel for a socket that no other channel of the poller has. */
    static method NewChannel(poller: EPollPoller, sockfd: int) returns (channel: Channel)
      requires Registries.Inv(poller.View())
      requires forall d :: d in poller.live ==> d.fd != sockfd
      modifies poller`live
      ensures fresh(channel) && channel.poller == poller && channel.fd == sockfd
      ensures channel.events == NO_EVENT && channel.index == New && !channel.tied
      ensures poller.live == old(poller.live) + {channel} && Registries.Inv(poller.View())
    {
      ghost var before := poller.View();
      channel := new Channel(poller, sockfd);
      Registries.CreateKeepsInv(before, channel, sockfd);
    }

    constructor (loop: nat, poller: EPollPoller, name: string, ghost number: nat, sockfd: int,
                 hasHighWater: bool, hasWriteComplete: bool)
      requires Registries.Inv(poller.View())
      requires forall d :: d in poller.live ==> d.fd != sockfd
      modifies poller`live
      ensures this.loop == loop && this.name == name && this.number == number
      ensures Valid() && channel.poller == poller && channel.fd == sockfd && !channel.tied
      ensures poller.live == old(poller.live) + {channel}
      ensures fresh(channel) && fresh(inputBuffer) && fresh(outputBuffer)
      ensures fresh(inputBuffer.buffer) && fresh(outputBuffer.buffer)
      ensures View() == C.NewConn(C.HIGH_WATER_MARK, hasHighWater, hasWriteComplete)
    {
      this.loop, this.name, this.number := loop, name, number;
      state := C.Connecting;
      var newInput, newOutput := TcpConnection.NewBuffers();
      var newChannel := TcpConnection.NewChannel(poller, sockfd);
      inputBuffer, outputBuffer, channel := newInput, newOutput, newChannel;
      highWaterMark := C.HIGH_WATER_MARK;
      this.hasHighWater, this.hasWriteComplete := hasHighWater, hasWriteComplete;
      seen := Observed([], [], [], [], [], [], [], 0, 0);
    }

    method SetHighWaterMarkCallback(mark: nat)
      requires Valid()
      modifies this`highWaterMark, this`hasHighWater
      ensures Valid() && highWaterMark == mark && hasHighWater
      ensures View() == old(View()).(mark := mark, hasHighWater := true)
    {
      hasHighWater := true;
      highWaterMark := mark;
    }

    // The channel's setters as this connection sees them: only its interest and index change, and
    // the poller still agrees with the kernel.

    method EnableReading()
      requires Valid()
      modifies channel`events, channel`index
      modifies channel.poller`channels, channel.poller`kernel, channel.poller`fatal
      ensures Valid() && View() == C.WithEvents(old(View()), old(channel.events).WithReading())
    {
      Registries.SetEventsKeepsInv(channel.poller.View(), channel, channel.events.WithReading());
      channel.EnableReading();
    }

    method EnableWriting()
      requires Valid()
      modifies channel`events, channel`index
      modifies channel.poller`channels, channel.poller`kernel, channel.poller`fatal
      ensures Valid() && View() == C.WithEvents(old(View()), old(channel.events).WithWriting())
    {
      Registries.SetEventsKeepsInv(channel.poller.View(), channel, channel.events.WithWriting());
      channel.EnableWriting();
    }

    method DisableWriting()
      requires Valid()
      modifies channel`events, channel`index
      modifies channel.poller`channels, channel.poller`kernel, channel.poller`fatal
      ensures Valid() && View() == C.WithEvents(old(View()), old(channel.events).WithoutWriting())
    {
      Registries.SetEventsKeepsInv(channel.poller.View(), channel, channel.events.WithoutWriting());
      channel.DisableWriting();
    }

    method DisableAll()
      requires Valid()
      modifies channel`events, channel`index
      modifies channel.poller`channels, channel.poller`kernel, channel.poller`fatal
      ensures Valid() && View() == C.WithEvents(old(View()), NO_EVENT)
    {
      Registries.SetEventsKeepsInv(channel.poller.View(), channel, NO_EVENT);
      channel.DisableAll();
    }

    method RemoveChannel()
      requires Valid()
      modifies channel`index
      modifies channel.poller`channels, channel.poller`kernel, channel.poller`fatal
      ensures Valid() && View() == old(View()).(index := New)
      ensures channel.fd !in channel.poller.kernel
    {
      Registries.RemoveKeepsInv(channel.poller.View(), channel);
      channel.Remove();
    }

    /** highWaterMarkCallback_ is queued when the backlog is about to cross the mark. */
    method NotifyHighWater(len: nat)
      requires Valid()
      modifies this`seen
      ensures Valid()
      ensures View() == old(View()).(queued := old(View()).queued +
        if hasHighWater && C.Crosses(old(View()), len)
        then [C.HighWaterMark(|old(View()).output.contents| + len)] else [])
    {
      var oldLen := outputBuffer.ReadableBytes();
      if oldLen + len >= highWaterMark && oldLen < highWaterMark && hasHighWater {
        seen := seen.(queued := seen.queued + [C.HighWaterMark(oldLen + len)]);
      }
    }

    method BufferRest(rest: seq<byte>)
      requires Valid()
      modifies this`seen, outputBuffer, outputBuffer.buffer
      ensures Valid() && View() == old(View()).(output := Layouts.Append(old(View()).output, rest),
                                                accepted := old(View()).accepted + rest)
      ensures outputBuffer.buffer == old(outputBuffer.buffer) || fresh(outputBuffer.buffer)
    {
      outputBuffer.Append(rest);
      seen := seen.(accepted := seen.accepted + rest);
    }

    method StoreRest(rest: seq<byte>)
      requires Valid()
      modifies this`seen, outputBuffer, outputBuffer.buffer
      ensures Valid()
      ensures View() == old(View()).(
        output := Layouts.Append(old(View()).output, rest), accepted := old(View()).accepted + rest,
        queued := old(View()).queued +
          if hasHighWater && C.Crosses(old(View()), |rest|)
          then [C.HighWaterMark(|old(View()).output.contents| + |rest|)] else [])
      ensures outputBuffer.buffer == old(outputBuffer.buffer) || fresh(outputBuffer.buffer)
    {
      NotifyHighWater(|rest|);
      BufferRest(rest);
    }

    /** The tail of sendInLoop: the unwritten rest goes to the output buffer. */
    method KeepRest(rest: seq<byte>)
      requires Valid()
      modifies this`seen, outputBuffer, outputBuffer.buffer, channel`events, channel`index
      modifies channel.poller`channels, channel.poller`kernel, channel.poller`fatal
      ensures Valid() && View() == C.KeepRest(old(View()), rest)
      ensures outputBuffer.buffer == old(outputBuffer.buffer) || fresh(outputBuffer.buffer)
    {
      if |rest| > 0 {
        StoreRest(rest);
        if !channel.events.IsWriting() {
          EnableWriting();
        }
      }
    }

    /** The guarded write at the head of sendInLoop. */
    method WriteDirectly(data: seq<byte>, outcome: WriteOutcome) returns (nwrote: nat, faultError: bool)
      requires Valid() && Allows(outcome, |data|)
      modifies this`seen
      ensures Valid() && nwrote <= |data|
      ensures View() == if outcome.WriteFailed? then old(View()) else old(View()).(
        written := old(View()).written + data[..nwrote],
        accepted := old(View()).accepted + data[..nwrote],
        queued := old(View()).queued + (if nwrote == |data| && hasWriteComplete then [C.WriteComplete] else []))
      ensures nwrote == if outcome.Wrote? then outcome.count else 0
      ensures faultError == (outcome.WriteFailed? && outcome.errno in {EPIPE, ECONNRESET})
    {
      nwrote, faultError := 0, false;
      if outcome.Wrote? {
        nwrote := outcome.count;
        seen := seen.(written := seen.written + data[..nwrote], accepted := seen.accepted + data[..nwrote]);
        if nwrote == |data| && hasWriteComplete {
          seen := seen.(queued := seen.queued + [C.WriteComplete]);
        }
      } else if outcome.errno != EWOULDBLOCK {
        faultError := outcome.errno == EPIPE || outcome.errno == ECONNRESET;
      }
    }

    method SendInLoop(data: seq<byte>, outcome: WriteOutcome)
      requires Valid() && Allows(outcome, |data|)
      modifies this`seen, outputBuffer, outputBuffer.buffer, channel`events, channel`index
      modifies channel.poller`channels, channel.poller`kernel, channel.poller`fatal
      ensures Valid() && View() == C.SendInLoop(old(View()), data, outcome)
      ensures outputBuffer.buffer == old(outputBuffer.buffer) || fresh(outputBuffer.buffer)
    {
      if state == C.Disconnected {
        return;
      }
      ghost var was := View();
      var nwrote, faultError := 0, false;
      if !channel.events.IsWriting() && outputBuffer.WritableBytes() == 0 {
        nwrote, faultError := WriteDirectly(data, outcome);
      }
      SendSplits(was, View(), data, outcome, nwrote);
      if !faultError {
        KeepRest(data[nwrote..]);
      }
    }

    /** From another thread the bytes do not move: sendInLoop is `posted` to the loop, with a pointer
        to the caller's string. */
    method Send(inLoopThread: bool, data: seq<byte>, outcome: WriteOutcome) returns (posted: bool)
      requires Valid() && Allows(outcome, |data|)
      modifies this`seen, outputBuffer, outputBuffer.buffer
      modifies channel`events, channel`index
      modifies channel.poller`channels, channel.poller`kernel, channel.poller`fatal
      ensures Valid() && posted == (state == C.Connected && !inLoopThread)
      ensures View() == if inLoopThread then C.Step(old(View()), C.Sent(data, outcome)) else old(View())
      ensures outputBuffer.buffer == old(outputBuffer.buffer) || fresh(outputBuffer.buffer)
    {
      posted := false;
      if state == C.Connected {
        if inLoopThread {
          SendInLoop(data, outcome);
        } else {
          posted := true;
        }
      }
    }

    method ShutdownInLoop()
      requires Valid()
      modifies this`seen
      ensures Valid() && View() == C.ShutdownInLoop(old(View()))
    {
      if !channel.events.IsWriting() {
        seen := seen.(fins := seen.fins + [|seen.written|]);
      }
    }

    method Shutdown()
      requires Valid()
      modifies this`seen, this`state
      ensures Valid() && View() == C.Step(old(View()), C.ShutdownCalled)
    {
      if state == C.Connected {
        state := C.Disconnecting;
        ShutdownInLoop();
      }
    }

    /** setState(kConnected) and the tie. */
    method GoUp()
      requires Valid()
      modifies this`state, channel`tied, channel`tie
      ensures Valid() && View() == old(View()).(state := C.Connected) && channel.tied && channel.tie == this
    {
      state := C.Connected;
      channel.Tie(this);
    }

    method ConnectEstablished()
      requires Valid() && C.Enabled(View(), C.Established)
      modifies this`seen, this`state, channel`events, channel`index, channel`tied, channel`tie
      modifies channel.poller`channels, channel.poller`kernel, channel.poller`fatal
      ensures Valid() && View() == C.Step(old(View()), C.Established)
      ensures channel.tied && channel.tie == this
    {
      GoUp();
      EnableReading();
      seen := seen.(notices := seen.notices + [state == C.Connected]);
    }

    /** What teardown and close have in common: down, no interest, one more call of the connection
        callback. */
    method GoDown()
      requires Valid()
      modifies this`seen, this`state, channel`events, channel`index
      modifies channel.poller`channels, channel.poller`kernel, channel.poller`fatal
      ensures Valid()
      ensures View() == C.WithEvents(
        old(View()).(state := C.Disconnected, notices := old(View()).notices + [false]), NO_EVENT)
    {
      state := C.Disconnected;
      DisableAll();
      seen := seen.(notices := seen.notices + [state == C.Connected]);
    }

    method ConnectDestroyed()
      requires Valid() && C.Enabled(View(), C.Destroyed)
      modifies this`seen, this`state, channel`events, channel`index
      modifies channel.poller`channels, channel.poller`kernel, channel.poller`fatal
      ensures Valid() && View() == C.Step(old(View()), C.Destroyed)
      ensures channel.fd !in channel.poller.kernel
    {
      if state == C.Connected {
        GoDown();
      }
      RemoveChannel();
    }

    method HandleClose()
      requires Valid()
      modifies this`seen, this`state, channel`events, channel`index
      modifies channel.poller`channels, channel.poller`kernel, channel.poller`fatal
      ensures Valid() && View() == C.HandleClose(old(View()))
    {
      GoDown();
      seen := seen.(closeCalls := seen.closeCalls + 1);
    }

    /** The readFd of handleRead. */
    method Receive(outcome: ReadOutcome) returns (n: int)
      requires Valid()
      requires outcome.ReadBytes? ==> |outcome.bytes| <= inputBuffer.View().ReadCapacity()
      modifies this`seen, inputBuffer, inputBuffer.buffer
      ensures Valid() && n == if outcome.ReadBytes? then |outcome.bytes| else -1
      ensures View() == if outcome.ReadFailed? then old(View()) else old(View()).(
        input := Layouts.ReadFd(old(View()).input, outcome.bytes),
        received := old(View()).received + outcome.bytes)
      ensures inputBuffer.buffer == old(inputBuffer.buffer) || fresh(inputBuffer.buffer)
    {
      n := inputBuffer.ReadFd(outcome);
      if outcome.ReadBytes? {
        seen := seen.(received := seen.received + outcome.bytes);
      }
    }

    method HandleRead(outcome: ReadOutcome)
      requires Valid() && C.Enabled(View(), C.Readable(outcome))
      requires outcome.ReadBytes? ==> |outcome.bytes| <= inputBuffer.View().ReadCapacity()
      modifies this`seen, this`state
      modifies inputBuffer, inputBuffer.buffer, channel`events, channel`index
      modifies channel.poller`channels, channel.poller`kernel, channel.poller`fatal
      ensures Valid() && View() == C.Step(old(View()), C.Readable(outcome))
      ensures inputBuffer.buffer == old(inputBuffer.buffer) || fresh(inputBuffer.buffer)
    {
      var n := Receive(outcome);
      if n > 0 {
        seen := seen.(messages := seen.messages + 1);
      } else if n == 0 {
        HandleClose();
      }
    }

    /** The output buffer has just run empty. */
    method Drained()
      requires Valid()
      modifies this`seen, channel`events, channel`index
      modifies channel.poller`channels, channel.poller`kernel, channel.poller`fatal
      ensures Valid() && View() == C.Drained(old(View()))
    {
      DisableWriting();
      if hasWriteComplete {
        seen := seen.(queued := seen.queued + [C.WriteComplete]);
      }
      if state == C.Disconnecting {
        ShutdownInLoop();
      }
    }

    /** What the kernel took leaves the buffer. */
    method WriteOut(outcome: WriteOutcome) returns (n: int)
      requires Valid() && Allows(outcome, |View().output.contents|)
      modifies this`seen, outputBuffer`readerIndex, outputBuffer`writerIndex
      ensures Valid() && n == if outcome.Wrote? then outcome.count else -1
      ensures View() == if n <= 0 then old(View()) else old(View()).(
        written := old(View()).written + old(View()).output.contents[..n],
        output := Layouts.Retrieve(old(View()).output, n))
    {
      var sent;
      n, sent := outputBuffer.WriteFd(outcome);
      if n > 0 {
        seen := seen.(written := seen.written + sent);
        outputBuffer.Retrieve(n);
      }
    }

    method HandleWrite(outcome: WriteOutcome)
      requires Valid() && C.Enabled(View(), C.Writable(outcome))
      modifies this`seen, channel`events, channel`index
      modifies outputBuffer`readerIndex, outputBuffer`writerIndex
      modifies channel.poller`channels, channel.poller`kernel, channel.poller`fatal
      ensures Valid() && View() == C.Step(old(View()), C.Writable(outcome))
    {
      if channel.events.IsWriting() {
        var n := WriteOut(outcome);
        if n > 0 && outputBuffer.ReadableBytes() == 0 {
          Drained();
        }
      }
    }

    /** The user's callback takes bytes out of the input buffer. Asked for more than is readable, it
        gets all that is and stale bytes behind them, which are no part of the stream. */
    method RetrieveInput(len: nat) returns (bytes: seq<byte>, ghost got: seq<byte>)
      requires Valid() && inputBuffer.readerIndex + len <= inputBuffer.buffer.Length
      modifies this`seen, inputBuffer`readerIndex, inputBuffer`writerIndex
      ensures Valid() && View() == C.Step(old(View()), C.Taken(len))
      ensures |bytes| == len && seen.taken == old(seen.taken) + got
      ensures var readable := |old(View()).input.contents|;
        got == bytes[..if len < readable then len else readable]
    {
      got := if len < |inputBuffer.View().contents| then inputBuffer.View().contents[..len]
             else inputBuffer.View().contents;
      bytes := inputBuffer.RetrieveAsString(len);
      seen := seen.(taken := seen.taken + got);
    }

    // The three branches of handleEventWithGuard that have an effect.

    method OnHangUp(revents: Events)
      requires Valid() && C.Enabled(View(), C.Closed)
      modifies this`seen, this`state, channel`events, channel`index
      modifies channel.poller`channels, channel.poller`kernel, channel.poller`fatal
      ensures Valid() && View() == R.Maybe(old(View()), revents.pollHup && !revents.pollIn, C.Closed)
    {
      if revents.pollHup && !revents.pollIn {
        HandleClose();
      }
    }

    method OnInput(revents: Events, read: ReadOutcome)
      requires Valid() && C.Enabled(View(), C.Readable(read))
      requires read.ReadBytes? ==> |read.bytes| <= inputBuffer.View().ReadCapacity()
      modifies this`seen, this`state
      modifies inputBuffer, inputBuffer.buffer, channel`events, channel`index
      modifies channel.poller`channels, channel.poller`kernel, channel.poller`fatal
      ensures Valid()
      ensures View() == R.Maybe(old(View()), revents.pollIn || revents.pollPri, C.Readable(read))
      ensures inputBuffer.buffer == old(inputBuffer.buffer) || fresh(inputBuffer.buffer)
    {
      if revents.pollIn || revents.pollPri {
        HandleRead(read);
      }
    }

    method OnOutput(revents: Events, write: WriteOutcome)
      requires Valid() && C.Enabled(View(), C.Writable(write))
      modifies this`seen, channel`events, channel`index
      modifies outputBuffer`readerIndex, outputBuffer`writerIndex
      modifies channel.poller`channels, channel.poller`kernel, channel.poller`fatal
      ensures Valid() && View() == R.Maybe(old(View()), revents.pollOut, C.Writable(write))
    {
      if revents.pollOut {
        HandleWrite(write);
      }
    }

    method HandleEventWithGuard(read: ReadOutcome, write: WriteOutcome)
      requires Valid() && C.Inv(View()) && R.CanDispatch(View(), write)
      requires read.ReadBytes? ==> |read.bytes| <= inputBuffer.View().ReadCapacity()
      modifies this, inputBuffer, inputBuffer.buffer, outputBuffer`readerIndex, outputBuffer`writerIndex
      modifies channel`events, channel`index
      modifies channel.poller`channels, channel.poller`kernel, channel.poller`fatal
      ensures Valid() && View() == R.Dispatched(old(View()), channel.revents, read, write)
      ensures inputBuffer.buffer == old(inputBuffer.buffer) || fresh(inputBuffer.buffer)
    {
      R.DispatchInOrder(View(), channel.revents, read, write);
      OnHangUp(channel.revents);
      OnInput(channel.revents, read);
      OnOutput(channel.revents, write);
    }

    /** Channel::handleEvent with this connection's callbacks: the mask that the poller stored in the
        channel is dispatched, unless the channel is tied and `ownerAlive`, the answer of
        tie_.lock(), says that the owner is gone. */
    method HandleEvent(ownerAlive: bool, read: ReadOutcome, write: WriteOutcome)
      requires Valid() && C.Inv(View()) && R.CanDispatch(View(), write)
      requires read.ReadBytes? ==> |read.bytes| <= inputBuffer.View().ReadCapacity()
      modifies this, inputBuffer, inputBuffer.buffer, outputBuffer`readerIndex, outputBuffer`writerIndex
      modifies channel`events, channel`index
      modifies channel.poller`channels, channel.poller`kernel, channel.poller`fatal
      ensures Valid() && C.Inv(View())
      ensures View() == if channel.tied && !ownerAlive then old(View())
                        else R.Dispatched(old(View()), channel.revents, read, write)
      ensures inputBuffer.buffer == old(inputBuffer.buffer) || fresh(inputBuffer.buffer)
    {
      if !channel.tied || ownerAlive {
        R.DispatchInOrder(View(), channel.revents, read, write);
        HandleEventWithGuard(read, write);
      }
    }
  }
}
