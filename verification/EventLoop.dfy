/** EventLoop.cc as an object. Every assignment to shared state is one step of the protocol, so a
    call is a run of it; the ghost field `proto` is the protocol's state. Other threads act between
    calls, and in `Loop` while the loop waits in epoll_wait. */
module EventLoops {
  import opened LoopProtocol
  import opened Masks
  import Registries
  import opened Pollers

  /** A functor, by what it hands back to queueInLoop when it runs. */
  datatype Functor = Functor(id: nat, queues: seq<Functor>)

  /** Everything a sequence of functors queues, in order. */
  function AllQueued(fs: seq<Functor>): seq<Functor> {
    if fs == [] then [] else AllQueued(fs[..|fs| - 1]) + fs[|fs| - 1].queues
  }

  lemma QueuedByOneMore(fs: seq<Functor>, i: nat)
    requires i < |fs|
    ensures fs[..i + 1] == fs[..i] + [fs[i]]
    ensures AllQueued(fs[..i + 1]) == AllQueued(fs[..i]) + fs[i].queues
  {
    assert fs[..i + 1][..i] == fs[..i];
  }

  /** One iteration as the environment sees it: what another thread queues while the loop waits and
      whether it then calls quit, what the event handlers queue and whether one of them calls quit. */
  datatype Round = Round(sender: Tid, arrivals: seq<Functor>, senderQuits: bool,
                         fromHandlers: seq<Functor>, handlerQuits: bool)
  {
    predicate Quits() { senderQuits || handlerQuits }
  }

  /** What the rounds make the loop execute when `pending` is waiting at their start: each round one
      batch, up to and including the round that quits. */
  function Executed(pending: seq<Functor>, rounds: seq<Round>): seq<Functor>
    decreases |rounds|
  {
    if rounds == [] then []
    else
      var batch := pending + rounds[0].arrivals + rounds[0].fromHandlers;
      batch + if rounds[0].Quits() then [] else Executed(AllQueued(batch), rounds[1..])
  }

  lemma Associates<T>(a: seq<T>, b: seq<T>, c: seq<T>)
    ensures a + (b + c) == (a + b) + c
  {
  }

  lemma ExecutedUnfolds(before: seq<Functor>, pending: seq<Functor>, rounds: seq<Round>, i: nat)
    requires i < |rounds|
    ensures var batch := pending + rounds[i].arrivals + rounds[i].fromHandlers;
      before + Executed(pending, rounds[i..])
      == (before + batch) + if rounds[i].Quits() then [] else Executed(AllQueued(batch), rounds[i + 1..])
  {
    var left := rounds[i..];
    assert left[1..] == rounds[i + 1..];
    var batch := pending + rounds[i].arrivals + rounds[i].fromHandlers;
    Associates(before, batch, if rounds[i].Quits() then [] else Executed(AllQueued(batch), left[1..]));
  }

  lemma BetweenBatches(s: State<Functor>)
    requires Fifo(s) && s.phase != Running
    ensures s.history == s.executed + s.pending
  {
    assert s.batch[s.next..] == [];
  }

  class EventLoop {
    var looping: bool
    var quit: bool
    var callingPendingFunctors: bool
    var pendingFunctors: seq<Functor>
    var eventfd: nat
    const poller: EPollPoller
    const wakeupChannel: Channel
    ghost var proto: State<Functor>

    ghost predicate Valid()
      reads this
    {
      && Fifo(proto)
      && proto.quit == quit && proto.calling == callingPendingFunctors
      && proto.pending == pendingFunctors && proto.eventfd == eventfd
    }

    static method NewWakeupChannel(wakeupFd: int) returns (poller: EPollPoller, channel: Channel)
      ensures fresh(poller) && fresh(channel) && poller.live == {channel}
      ensures channel.poller == poller && channel.fd == wakeupFd
      ensures channel.index == Added && channel.events == Events(true, true, false, false, false)
      ensures Registries.Inv(poller.View())
      ensures Registries.KernelMayReport(poller.View(), [Registries.Report(channel, INPUT)])
    {
      poller := new EPollPoller();
      ghost var empty := poller.View();
      channel := new Channel(poller, wakeupFd);
      Registries.CreateKeepsInv(empty, channel, wakeupFd);
      Registries.SetEventsKeepsInv(poller.View(), channel, channel.events.WithReading());
      channel.EnableReading();
      Registries.AddedMayBeReported(poller.View(), channel, INPUT);
    }

    /** The wake-up channel is registered for reading, so that a raised eventfd ends epoll_wait. */
    constructor (wakeupFd: int)
      ensures Valid() && proto == Initial() && !looping
      ensures fresh(poller) && fresh(wakeupChannel) && poller.live == {wakeupChannel}
      ensures wakeupChannel.poller == poller && wakeupChannel.fd == wakeupFd
      ensures wakeupChannel.index == Added && wakeupChannel.events == Events(true, true, false, false, false)
      ensures Registries.Inv(poller.View())
      ensures Registries.KernelMayReport(poller.View(), [Registries.Report(wakeupChannel, INPUT)])
    {
      looping, quit, callingPendingFunctors := false, false, false;
      pendingFunctors, eventfd := [], 0;
      proto := Initial();
      var newPoller, newChannel := EventLoop.NewWakeupChannel(wakeupFd);
      poller, wakeupChannel := newPoller, newChannel;
    }

    method Wakeup()
      modifies this`eventfd
      ensures eventfd == old(eventfd) + 1
    {
      eventfd := eventfd + 1;
    }

    method QueueInLoop(caller: Tid, cb: Functor) returns (ghost steps: seq<Step<Functor>>)
      requires Valid() && Enabled(proto, Push(caller, cb))
      modifies this`pendingFunctors, this`eventfd, this`proto
      ensures Valid() && steps == [Push(caller, cb), Signal(caller)]
      ensures Legal(old(proto), steps) && proto == Run(old(proto), steps)
      ensures pendingFunctors == old(pendingFunctors) + [cb]
      ensures eventfd == old(eventfd) + if caller != LOOP || callingPendingFunctors then 1 else 0
      ensures proto.phase == old(proto.phase) && proto.pushed == old(proto.pushed)
      ensures proto.quitters == old(proto.quitters)
      ensures proto.batch == old(proto.batch) && proto.next == old(proto.next) && proto.round == old(proto.round)
      ensures proto.executed == old(proto.executed)
    {
      ghost var start := proto;
      StepRefinesQueue(proto, Push(caller, cb));
      pendingFunctors := pendingFunctors + [cb];
      proto := Apply(proto, Push(caller, cb));
      StepRefinesQueue(proto, Signal(caller));
      if caller != LOOP || callingPendingFunctors {
        Wakeup();
      }
      proto := Apply(proto, Signal(caller));
      RunOne(start, [], Push(caller, cb));
      RunOne(start, [Push(caller, cb)], Signal(caller));
      steps := [Push(caller, cb), Signal(caller)];
      assert [] + [Push(caller, cb)] == [Push(caller, cb)];
    }

    /** What the loop thread does when a functor or a handler queues several functors, and what
        another thread does over time. */
    method QueueAll(caller: Tid, cbs: seq<Functor>) returns (ghost steps: seq<Step<Functor>>)
      requires Valid() && caller !in proto.pushed && caller !in proto.quitters
      requires caller == LOOP ==> proto.phase in {Started, Dispatching(true), Dispatching(false), Running}
      modifies this`pendingFunctors, this`eventfd, this`proto
      ensures Valid() && Legal(old(proto), steps) && proto == Run(old(proto), steps)
      ensures pendingFunctors == old(pendingFunctors) + cbs
      ensures (caller != LOOP || callingPendingFunctors) && cbs != [] ==> eventfd > 0
      ensures eventfd >= old(eventfd)
      ensures proto.phase == old(proto.phase) && proto.pushed == old(proto.pushed)
      ensures proto.quitters == old(proto.quitters)
      ensures proto.batch == old(proto.batch) && proto.next == old(proto.next) && proto.round == old(proto.round)
      ensures proto.executed == old(proto.executed)
    {
      steps := [];
      for i := 0 to |cbs|
        invariant Valid() && Legal(old(proto), steps) && proto == Run(old(proto), steps)
        invariant pendingFunctors == old(pendingFunctors) + cbs[..i]
        invariant (caller != LOOP || callingPendingFunctors) && i > 0 ==> eventfd > 0
        invariant eventfd >= old(eventfd)
        invariant proto.phase == old(proto.phase) && proto.pushed == old(proto.pushed)
        invariant proto.quitters == old(proto.quitters)
        invariant proto.batch == old(proto.batch) && proto.next == old(proto.next) && proto.round == old(proto.round)
        invariant proto.executed == old(proto.executed)
      {
        ghost var more := QueueInLoop(caller, cbs[i]);
        RunConcat(old(proto), steps, more);
        steps := steps + more;
      }
    }

    /** In the loop thread the callback runs at once and never enters the queue. */
    method RunInLoop(caller: Tid, cb: Functor) returns (ghost steps: seq<Step<Functor>>)
      requires Valid() && Enabled(proto, Push(caller, cb))
      modifies this`pendingFunctors, this`eventfd, this`proto
      ensures Valid() && Legal(old(proto), steps) && proto == Run(old(proto), steps)
      ensures pendingFunctors == old(pendingFunctors) + (if caller == LOOP then cb.queues else [cb])
    {
      if caller == LOOP {
        steps := QueueAll(LOOP, cb.queues);
      } else {
        steps := QueueInLoop(caller, cb);
      }
    }

    /** The read of the wake-up channel empties the counter. */
    method HandleRead()
      requires Valid() && Enabled(proto, ReadEventfd)
      modifies this`eventfd, this`proto
      ensures Valid() && proto == Apply(old(proto), ReadEventfd) && eventfd == 0
    {
      StepRefinesQueue(proto, ReadEventfd);
      eventfd := 0;
      proto := Apply(proto, ReadEventfd);
    }

    method Quit(caller: Tid) returns (ghost steps: seq<Step<Functor>>)
      requires Valid() && Enabled(proto, SetQuit(caller))
      modifies this`quit, this`eventfd, this`proto
      ensures Valid() && Legal(old(proto), steps) && proto == Run(old(proto), steps)
      ensures quit && eventfd == old(eventfd) + if caller == LOOP then 0 else 1
      ensures proto.phase == old(proto.phase) && proto.pushed == old(proto.pushed)
      ensures proto.round == old(proto.round)
      ensures proto.quitters == old(proto.quitters)
      ensures proto.executed == old(proto.executed) && pendingFunctors == old(pendingFunctors)
    {
      ghost var start := proto;
      StepRefinesQueue(proto, SetQuit(caller));
      quit := true;
      proto := Apply(proto, SetQuit(caller));
      RunOne(start, [], SetQuit(caller));
      steps := [] + [SetQuit(caller)];
      if caller != LOOP {
        StepRefinesQueue(proto, QuitWake(caller));
        Wakeup();
        RunOne(start, steps, QuitWake(caller));
        proto := Apply(proto, QuitWake(caller));
        steps := steps + [QuitWake(caller)];
      }
    }

    /** The critical section of doPendingFunctors: the whole vector changes hands. */
    method SwapOut() returns (functors: seq<Functor>, ghost steps: seq<Step<Functor>>)
      requires Valid() && Enabled(proto, StartCalling)
      modifies this`callingPendingFunctors, this`pendingFunctors, this`proto
      ensures Valid() && Legal(old(proto), steps) && proto == Run(old(proto), steps)
      ensures functors == old(pendingFunctors) && pendingFunctors == []
      ensures proto.phase == Running && proto.batch == functors && proto.next == 0
      ensures proto.executed == old(proto.executed) && proto.pushed == old(proto.pushed)
      ensures proto.quitters == old(proto.quitters)
    {
      ghost var start := proto;
      StepRefinesQueue(proto, StartCalling);
      callingPendingFunctors := true;
      proto := Apply(proto, StartCalling);
      RunOne(start, [], StartCalling);
      steps := [] + [StartCalling];
      StepRefinesQueue(proto, Swap);
      functors, pendingFunctors := pendingFunctors, [];
      RunOne(start, steps, Swap);
      steps := steps + [Swap];
      proto := Apply(proto, Swap);
    }

    /** The next functor of the batch runs and may queue more. */
    method RunNext(cb: Functor) returns (ghost steps: seq<Step<Functor>>)
      requires Valid() && Enabled(proto, Execute) && proto.batch[proto.next] == cb
      modifies this`pendingFunctors, this`eventfd, this`proto
      ensures Valid() && Legal(old(proto), steps) && proto == Run(old(proto), steps)
      ensures proto.phase == Running && proto.batch == old(proto.batch)
      ensures proto.next == old(proto.next) + 1 && proto.executed == old(proto.executed) + [cb]
      ensures proto.pushed == old(proto.pushed) && proto.quitters == old(proto.quitters)
      ensures pendingFunctors == old(pendingFunctors) + cb.queues
      ensures cb.queues != [] ==> eventfd > 0
      ensures eventfd >= old(eventfd)
    {
      ghost var start := proto;
      StepRefinesQueue(proto, Execute);
      RunOne(start, [], Execute);
      proto := Apply(proto, Execute);
      ghost var more := QueueAll(LOOP, cb.queues);
      RunConcat(start, [] + [Execute], more);
      steps := ([] + [Execute]) + more;
    }

    /** The batch loop. Its length is fixed; what its functors queue goes to the next batch. */
    method RunBatch(functors: seq<Functor>) returns (ghost steps: seq<Step<Functor>>)
      requires Valid() && proto.phase == Running && proto.batch == functors && proto.next == 0
      requires LOOP !in proto.pushed && pendingFunctors == []
      modifies this`pendingFunctors, this`eventfd, this`proto
      ensures Valid() && Legal(old(proto), steps) && proto == Run(old(proto), steps)
      ensures proto.executed == old(proto.executed) + functors
      ensures pendingFunctors == AllQueued(functors)
      ensures pendingFunctors != [] ==> eventfd > 0
      ensures Enabled(proto, FinishBatch)
      ensures proto.pushed == old(proto.pushed) && proto.quitters == old(proto.quitters)
    {
      ghost var start := proto;
      steps := [];
      for i := 0 to |functors|
        invariant Valid() && Legal(start, steps) && proto == Run(start, steps)
        invariant proto.phase == Running && proto.batch == functors && proto.next == i
        invariant proto.pushed == start.pushed && proto.quitters == start.quitters
        invariant proto.executed == start.executed + functors[..i]
        invariant pendingFunctors == AllQueued(functors[..i])
        invariant pendingFunctors != [] ==> eventfd > 0
      {
        ghost var more := RunNext(functors[i]);
        RunConcat(start, steps, more);
        steps := steps + more;
        QueuedByOneMore(functors, i);
      }
      assert functors[..|functors|] == functors;
    }

    method StopCalling()
      requires Valid() && Enabled(proto, FinishBatch)
      modifies this`callingPendingFunctors, this`proto
      ensures Valid() && proto == Apply(old(proto), FinishBatch)
    {
      StepRefinesQueue(proto, FinishBatch);
      callingPendingFunctors := false;
      proto := Apply(proto, FinishBatch);
    }

    /** The swapped batch runs in order and completely; what its functors queue waits for the next
        iteration, with the eventfd raised. */
    method DoPendingFunctors() returns (ghost steps: seq<Step<Functor>>)
      requires Valid() && Enabled(proto, StartCalling)
      modifies this`callingPendingFunctors, this`pendingFunctors, this`eventfd, this`proto
      ensures Valid() && Legal(old(proto), steps) && proto == Run(old(proto), steps)
      ensures proto.executed == old(proto.executed) + old(pendingFunctors)
      ensures pendingFunctors == AllQueued(old(pendingFunctors))
      ensures pendingFunctors != [] ==> eventfd > 0
      ensures proto.phase == Checking && !proto.LoopBusy()
      ensures proto.pushed == old(proto.pushed) && proto.quitters == old(proto.quitters)
    {
      ghost var start := proto;
      var functors;
      functors, steps := SwapOut();
      ghost var more := RunBatch(functors);
      RunConcat(start, steps, more);
      steps := steps + more;
      RunOne(start, steps, FinishBatch);
      steps := steps + [FinishBatch];
      StopCalling();
    }

    /** What another thread does while the loop waits. */
    method ActElsewhere(sender: Tid, arrivals: seq<Functor>, quits: bool)
      returns (ghost steps: seq<Step<Functor>>)
      requires Valid() && proto.phase == Polling && proto.pushed == {} && proto.quitters == {}
      requires sender != LOOP
      modifies this`pendingFunctors, this`eventfd, this`proto, this`quit
      ensures Valid() && Legal(old(proto), steps) && proto == Run(old(proto), steps)
      ensures proto.phase == Polling && proto.pushed == {} && proto.quitters == {}
      ensures proto.executed == old(proto.executed) && proto.round == old(proto.round)
      ensures pendingFunctors == old(pendingFunctors) + arrivals && quit == (old(quit) || quits)
      ensures quits || arrivals != [] ==> eventfd > 0
    {
      ghost var start := proto;
      steps := QueueAll(sender, arrivals);
      if quits {
        ghost var more := Quit(sender);
        RunConcat(start, steps, more);
        steps := steps + more;
      }
    }

    /** Test, wait in epoll_wait while another thread acts, and read the eventfd if it is reported. */
    method Await(sender: Tid, arrivals: seq<Functor>, quits: bool)
      returns (ghost steps: seq<Step<Functor>>)
      requires Valid() && proto.phase == Checking && !quit && proto.pushed == {} && proto.quitters == {}
      requires sender != LOOP
      modifies this`pendingFunctors, this`eventfd, this`proto, this`quit
      ensures Valid() && Legal(old(proto), steps) && proto == Run(old(proto), steps)
      ensures proto.phase == Dispatching(false) && proto.pushed == {} && proto.quitters == {}
      ensures proto.executed == old(proto.executed) && proto.round == old(proto.round) + 1
      ensures pendingFunctors == old(pendingFunctors) + arrivals && eventfd == 0 && quit == quits
    {
      ghost var start := proto;
      StepRefinesQueue(proto, Check);
      RunOne(start, [], Check);
      steps := [] + [Check];
      proto := Apply(proto, Check);

      ghost var more := ActElsewhere(sender, arrivals, quits);
      RunConcat(start, steps, more);
      steps := steps + more;

      var wake := eventfd > 0;
      StepRefinesQueue(proto, PollReturn(wake));
      RunOne(start, steps, PollReturn(wake));
      steps := steps + [PollReturn(wake)];
      proto := Apply(proto, PollReturn(wake));
      if wake {
        RunOne(start, steps, ReadEventfd);
        steps := steps + [ReadEventfd];
        HandleRead();
      }
    }

    /** One iteration after a successful test: wait, handle events, run the functors. */
    method Iterate(r: Round) returns (ghost steps: seq<Step<Functor>>)
      requires Valid() && proto.phase == Checking && !quit && proto.pushed == {} && proto.quitters == {}
      requires r.sender != LOOP
      modifies this`callingPendingFunctors, this`pendingFunctors, this`eventfd, this`proto, this`quit
      ensures Valid() && Legal(old(proto), steps) && proto == Run(old(proto), steps)
      ensures proto.phase == Checking && proto.pushed == {} && proto.quitters == {}
      ensures proto.executed == old(proto.executed) + (old(pendingFunctors) + r.arrivals + r.fromHandlers)
      ensures pendingFunctors == AllQueued(old(pendingFunctors) + r.arrivals + r.fromHandlers)
      ensures quit == r.Quits()
    {
      ghost var start := proto;
      steps := Await(r.sender, r.arrivals, r.senderQuits);
      ghost var more := QueueAll(LOOP, r.fromHandlers);
      RunConcat(start, steps, more);
      steps := steps + more;
      if r.handlerQuits {
        more := Quit(LOOP);
        RunConcat(start, steps, more);
        steps := steps + more;
      }

      more := DoPendingFunctors();
      RunConcat(start, steps, more);
      steps := steps + more;
    }

    /** What loop() does before its first test. */
    method Begin() returns (ghost steps: seq<Step<Functor>>)
      requires Valid() && Enabled(proto, Enter)
      modifies this`looping, this`quit, this`proto
      ensures Valid() && Legal(old(proto), steps) && proto == Run(old(proto), steps)
      ensures looping && !quit && proto.phase == Checking && proto.executed == old(proto.executed)
      ensures proto.pushed == old(proto.pushed) && proto.quitters == old(proto.quitters)
    {
      looping := true;
      StepRefinesQueue(proto, Enter);
      RunOne(proto, [], Enter);
      quit := false;
      proto := Apply(proto, Enter);
      steps := [] + [Enter];
    }

    /** The test that ends the while loop. */
    method End() returns (ghost steps: seq<Step<Functor>>)
      requires Valid() && proto.phase == Checking && quit
      modifies this`looping, this`proto
      ensures Valid() && Legal(old(proto), steps) && proto == Run(old(proto), steps)
      ensures !looping && proto.phase == Stopped && proto.executed == old(proto.executed)
    {
      StepRefinesQueue(proto, Check);
      RunOne(proto, [], Check);
      proto := Apply(proto, Check);
      steps := [] + [Check];
      looping := false;
    }

    /** loop(), for as many iterations as the environment is given for. It executes batch after batch
        what `Executed` lists and stops at the first test after a quit; every functor queued so far
        has then been executed or is pending. */
    method Loop(rounds: seq<Round>) returns (ghost steps: seq<Step<Functor>>)
      requires Valid() && Enabled(proto, Enter) && proto.pushed == {} && proto.quitters == {}
      requires forall i :: 0 <= i < |rounds| ==> rounds[i].sender != LOOP
      modifies this
      ensures Valid() && Legal(old(proto), steps) && proto == Run(old(proto), steps)
      ensures proto.executed == old(proto.executed) + Executed(old(pendingFunctors), rounds)
      ensures proto.history == proto.executed + pendingFunctors
      ensures looping == !quit && proto.phase == (if quit then Stopped else Checking)
      ensures quit <==> exists i :: 0 <= i < |rounds| && rounds[i].Quits()
    {
      ghost var start := proto;
      ghost var first := pendingFunctors;
      ghost var more;
      steps := Begin();
      var i := 0;
      assert rounds[0..] == rounds;
      while !quit && i < |rounds|
        invariant 0 <= i <= |rounds| && looping
        invariant Valid() && Legal(start, steps) && proto == Run(start, steps)
        invariant proto.phase == Checking && proto.pushed == {} && proto.quitters == {}
        invariant quit ==> i > 0 && rounds[i - 1].Quits()
        invariant !quit ==> forall j :: 0 <= j < i ==> !rounds[j].Quits()
        invariant start.executed + Executed(first, rounds)
               == proto.executed + if quit then [] else Executed(pendingFunctors, rounds[i..])
      {
        ExecutedUnfolds(proto.executed, pendingFunctors, rounds, i);
        more := Iterate(rounds[i]);
        RunConcat(start, steps, more);
        steps := steps + more;
        i := i + 1;
      }
      assert rounds[i..] == [] || quit;
      if quit {
        more := End();
        RunConcat(start, steps, more);
        steps := steps + more;
      }
      BetweenBatches(proto);
    }
  }
}
