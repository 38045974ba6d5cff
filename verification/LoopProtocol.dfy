/** EventLoop.cc as an interleaved protocol: one loop thread and any number of other threads that
    push functors under the mutex, bump the eventfd, and ask the loop to quit. Every step is one
    access to shared state. `F` is the type of functors. */
module LoopProtocol {

  /** A thread; `LOOP` is the one that runs loop(). */
  type Tid = nat

  const LOOP: Tid := 0

  /** Where the loop thread is. `Started` is before line 80; in `Dispatching`, `wake` says that the
      eventfd's report is still to be handled. */
  datatype Phase =
    | Started
    | Checking
    | Polling
    | Dispatching(wake: bool)
    | Swapping
    | Running
    | Stopped

  /** `pushed`: threads between the end of queueInLoop's critical section and its wake-up test.
      `quitters`: threads between setting quit_ and their wakeup. `history` and `executed` record
      functors in mutex order and in execution order; `round` counts the iterations begun, and
      `stamps` says for each functor in `history` how many had begun when it was pushed. */
  datatype State<F> = State(
    phase: Phase, quit: bool, calling: bool, eventfd: nat,
    pending: seq<F>, batch: seq<F>, next: nat,
    pushed: set<Tid>, quitters: set<Tid>,
    history: seq<F>, executed: seq<F>, round: nat, stamps: seq<nat>)
  {
    /** Functors that wait: the rest of the swapped batch, then pendingFunctors_. */
    ghost function Waiting(): seq<F>
      requires next <= |batch|
    {
      batch[next..] + pending
    }

    /** The loop thread is between two shared accesses of its own queueInLoop. */
    predicate LoopBusy() { LOOP in pushed }
  }

  function Initial<F>(): State<F> {
    State(Started, false, false, 0, [], [], 0, {}, {}, [], [], 0, [])
  }

  datatype Step<F> =
    | Push(t: Tid, f: F)     // emplace_back under the mutex
    | Signal(t: Tid)         // the test after it, and wakeup
    | SetQuit(t: Tid)        // quit_ = true
    | QuitWake(t: Tid)       // the wakeup of quit()
    | Enter                  // quit_ = false at the top of loop()
    | Check                  // while (!quit_)
    | PollReturn(wake: bool) // epoll_wait returns, with or without the eventfd's report
    | ReadEventfd            // handleRead of the wake-up channel
    | StartCalling           // callingPendingFunctors_ = true
    | Swap                   // functors.swap(pendingFunctors_)
    | Execute                // one functor of the batch
    | FinishBatch            // callingPendingFunctors_ = false

  /** Which threads may act. A thread finishes its own queueInLoop or quit before anything else; the
      loop thread pushes from before loop(), from event handlers and from functors. */
  predicate Enabled<F>(s: State<F>, step: Step<F>) {
    match step
    case Push(t, f) => t !in s.pushed && t !in s.quitters &&
      (t == LOOP ==> s.phase in {Started, Dispatching(true), Dispatching(false), Running})
    case Signal(t) => t in s.pushed
    case SetQuit(t) => t !in s.pushed && t !in s.quitters &&
      (t == LOOP ==> s.phase in {Started, Dispatching(true), Dispatching(false), Running})
    case QuitWake(t) => t in s.quitters
    case Enter => s.phase == Started && !s.LoopBusy()
    case Check => s.phase == Checking && !s.LoopBusy()
    case PollReturn(wake) => s.phase == Polling && !s.LoopBusy() && (wake ==> s.eventfd > 0)
    case ReadEventfd => s.phase == Dispatching(true) && !s.LoopBusy()
    case StartCalling => s.phase == Dispatching(false) && !s.LoopBusy()
    case Swap => s.phase == Swapping && !s.LoopBusy()
    case Execute => s.phase == Running && !s.LoopBusy() && s.next < |s.batch|
    case FinishBatch => s.phase == Running && !s.LoopBusy() && s.next == |s.batch|
  }

  function Apply<F>(s: State<F>, step: Step<F>): State<F>
    requires Enabled(s, step)
  {
    match step
    case Push(t, f) =>
      s.(pending := s.pending + [f], pushed := s.pushed + {t},
         history := s.history + [f], stamps := s.stamps + [s.round])
    case Signal(t) =>
      s.(pushed := s.pushed - {t},
         eventfd := s.eventfd + if t != LOOP || s.calling then 1 else 0)
    case SetQuit(t) =>
      s.(quit := true, quitters := if t == LOOP then s.quitters else s.quitters + {t})
    case QuitWake(t) => s.(quitters := s.quitters - {t}, eventfd := s.eventfd + 1)
    case Enter => s.(phase := Checking, quit := false)
    case Check =>
      if s.quit then s.(phase := Stopped) else s.(phase := Polling, round := s.round + 1)
    case PollReturn(wake) => s.(phase := Dispatching(wake))
    case ReadEventfd => s.(phase := Dispatching(false), eventfd := 0)
    case StartCalling => s.(phase := Swapping, calling := true)
    case Swap => s.(phase := Running, batch := s.pending, next := 0, pending := [])
    case Execute => s.(next := s.next + 1, executed := s.executed + [s.batch[s.next]])
    case FinishBatch => s.(phase := Checking, calling := false)
  }

  ghost predicate Legal<F>(s: State<F>, steps: seq<Step<F>>)
    decreases steps
  {
    steps == [] || (Enabled(s, steps[0]) && Legal(Apply(s, steps[0]), steps[1..]))
  }

  ghost function Run<F>(s: State<F>, steps: seq<Step<F>>): State<F>
    requires Legal(s, steps)
    decreases steps
  {
    if steps == [] then s else Run(Apply(s, steps[0]), steps[1..])
  }

  lemma {:induction false} RunConcat<F>(s: State<F>, a: seq<Step<F>>, b: seq<Step<F>>)
    requires Legal(s, a) && Legal(Run(s, a), b)
    ensures Legal(s, a + b) && Run(s, a + b) == Run(Run(s, a), b)
    decreases a
  {
    if a == [] {
      assert a + b == b;
    } else {
      assert (a + b)[0] == a[0] && (a + b)[1..] == a[1..] + b;
      RunConcat(Apply(s, a[0]), a[1..], b);
    }
  }

  lemma RunOne<F>(s: State<F>, steps: seq<Step<F>>, step: Step<F>)
    requires Legal(s, steps) && Enabled(Run(s, steps), step)
    ensures Legal(s, steps + [step]) && Run(s, steps + [step]) == Apply(Run(s, steps), step)
  {
    var d := Run(s, steps);
    assert [step][1..] == [] && Legal(Apply(d, step), []);
    assert Legal(d, [step]) && Run(d, [step]) == Apply(d, step);
    RunConcat(s, steps, [step]);
  }

  // ----- Exactly once, in order

  /** The enqueue history is what was executed, then the rest of the batch, then what is pending. */
  ghost predicate Fifo<F>(s: State<F>) {
    && s.next <= |s.batch|
    && (s.phase != Running ==> s.next == |s.batch|)
    && s.history == s.executed + s.Waiting()
    && |s.stamps| == |s.history|
    && (s.calling <==> s.phase in {Swapping, Running})
    && LOOP !in s.quitters
    && (s.LoopBusy() ==> s.phase in {Started, Dispatching(true), Dispatching(false), Running})
  }

  /** A plain FIFO queue: what has come out and what waits. */
  datatype Queue<F> = Queue(done: seq<F>, waiting: seq<F>)

  ghost function Abstract<F>(s: State<F>): Queue<F>
    requires s.next <= |s.batch|
  {
    Queue(s.executed, s.Waiting())
  }

  /** The swap scheme refines a plain FIFO queue: a push adds at the back, an execution takes from
      the front, every other step, the swap included, leaves the queue as it is. */
  lemma StepRefinesQueue<F>(s: State<F>, step: Step<F>)
    requires Fifo(s) && Enabled(s, step)
    ensures Fifo(Apply(s, step))
    ensures var q := Abstract(s); var p := Abstract(Apply(s, step));
      match step
      case Push(_, f) => p == Queue(q.done, q.waiting + [f])
      case Execute => q.waiting != [] && p == Queue(q.done + [q.waiting[0]], q.waiting[1..])
      case _ => p == q
  {
    var d := Apply(s, step);
    match step
    case Push(_, f) =>
      assert s.executed + (s.batch[s.next..] + s.pending) + [f]
          == s.executed + (s.batch[s.next..] + (s.pending + [f]));
      assert d.Waiting() == s.Waiting() + [f];
    case Execute =>
      assert s.batch[s.next..] == [s.batch[s.next]] + d.batch[d.next..];
      assert s.Waiting() == [s.batch[s.next]] + d.Waiting();
      assert s.executed + ([s.batch[s.next]] + d.Waiting()) == d.executed + d.Waiting();
    case Swap =>
      assert s.batch[s.next..] == [] && d.Waiting() == s.Waiting();
    case _ =>
      assert d.Waiting() == s.Waiting();
  }

  /** Over every interleaving: what has been executed is a prefix of the enqueue history, and
      everything else still waits, in order. Nothing is lost, run twice or reordered. */
  lemma {:induction false} ExactlyOnceInOrder<F>(s: State<F>, steps: seq<Step<F>>)
    requires Fifo(s) && Legal(s, steps)
    ensures var d := Run(s, steps);
      && Fifo(d)
      && d.history == d.executed + d.Waiting()
      && s.executed <= d.executed && s.history <= d.history
    decreases steps
  {
    if steps != [] {
      StepRefinesQueue(s, steps[0]);
      ExactlyOnceInOrder(Apply(s, steps[0]), steps[1..]);
    }
  }

  // ----- No lost wakeup

  /** The loop will be woken: the eventfd is readable, or some thread is about to write it. */
  ghost predicate Signalled<F>(s: State<F>) {
    || s.eventfd > 0
    || s.pushed - {LOOP} != {}
    || (s.LoopBusy() && s.calling)
  }

  /** Where the loop can get to poll without passing the swap first. */
  ghost predicate BeforePoll<F>(s: State<F>) {
    s.phase in {Checking, Polling, Running}
  }

  ghost predicate NoLostWakeup<F>(s: State<F>) {
    s.phase == Polling && s.pending != [] ==> s.eventfd > 0 || s.pushed - {LOOP} != {}
  }

  ghost predicate WakeInv<F>(s: State<F>) {
    && Fifo(s)
    && s.phase != Started
    && (BeforePoll(s) && s.pending != [] ==> Signalled(s))
  }

  lemma StepKeepsWakeInv<F>(s: State<F>, step: Step<F>)
    requires WakeInv(s) && Enabled(s, step)
    ensures WakeInv(Apply(s, step))
  {
    StepRefinesQueue(s, step);
    var d := Apply(s, step);
    match step
    case Push(t, f) =>
      if t != LOOP {
        assert t in d.pushed - {LOOP};
      }
    case Signal(t) =>
    case _ =>
  }

  lemma {:induction false} RunKeepsWakeInv<F>(s: State<F>, steps: seq<Step<F>>)
    requires WakeInv(s) && Legal(s, steps)
    ensures WakeInv(Run(s, steps)) && NoLostWakeup(Run(s, steps))
    decreases steps
  {
    if steps != [] {
      StepKeepsWakeInv(s, steps[0]);
      RunKeepsWakeInv(Apply(s, steps[0]), steps[1..]);
    }
  }

  /** loop() has just executed line 80. */
  ghost predicate JustEntered<F>(s: State<F>) {
    Fifo(s) && s.phase == Checking && !s.quit && !s.LoopBusy()
  }

  ghost predicate NeverLosesWakeup<F(!new)>(s: State<F>) {
    forall steps :: Legal(s, steps) ==> NoLostWakeup(Run(s, steps))
  }

  /** No wakeup is ever lost, over all interleavings of all producers with the loop, exactly when
      whatever was queued before loop() started has been signalled, or is about to be. */
  lemma NoLostWakeupIff<F(!new)>(s: State<F>)
    requires JustEntered(s)
    ensures NeverLosesWakeup(s)
       <==> (s.pending != [] ==> Signalled(s))
  {
    if s.pending != [] ==> Signalled(s) {
      forall steps | Legal(s, steps)
        ensures NoLostWakeup(Run(s, steps))
      {
        RunKeepsWakeInv(s, steps);
      }
    } else {
      var steps: seq<Step<F>> := [Check];
      assert steps[1..] == [] && Legal(Apply(s, Check), []);
      assert Legal(s, steps) && Run(s, steps) == Apply(s, Check);
      assert !NoLostWakeup(Run(s, steps));
    }
  }

  /** A step of start-up in which the loop thread queues nothing for itself. */
  predicate StartUp<F>(step: Step<F>) {
    (step.Push? && step.t != LOOP) || step.Signal? || step.SetQuit? || step.QuitWake?
  }

  ghost predicate StartInv<F>(s: State<F>) {
    && Fifo(s) && s.phase == Started && !s.LoopBusy()
    && (s.pending != [] ==> Signalled(s))
  }

  lemma {:induction false} StartUpKeepsSignals<F>(s: State<F>, steps: seq<Step<F>>)
    requires StartInv(s) && Legal(s, steps)
    requires forall i :: 0 <= i < |steps| ==> StartUp(steps[i])
    ensures StartInv(Run(s, steps))
    decreases steps
  {
    if steps != [] {
      StepRefinesQueue(s, steps[0]);
      if steps[0].Push? {
        assert steps[0].t in Apply(s, steps[0]).pushed - {LOOP};
      }
      StartUpKeepsSignals(Apply(s, steps[0]), steps[1..]);
    }
  }

  /** When only other threads queue functors before loop() starts, no wakeup is ever lost. */
  lemma NoLostWakeupFromStart<F(!new)>(steps: seq<Step<F>>)
    requires Legal(Initial(), steps)
    requires forall i :: 0 <= i < |steps| ==> StartUp(steps[i])
    ensures var s := Run(Initial<F>(), steps); Enabled(s, Enter) && NeverLosesWakeup(Apply(s, Enter))
  {
    StartUpKeepsSignals(Initial(), steps);
    var s := Run(Initial<F>(), steps);
    StepRefinesQueue(s, Enter);
    NoLostWakeupIff(Apply(s, Enter));
  }

  /** The case the code does not cover: a functor that the loop thread queues before loop() gets no
      wakeup, and the loop goes to sleep on it. */
  lemma EarlyEnqueueIsNotSignalled<F>(f: F)
    ensures var steps := [Push(LOOP, f), Signal(LOOP), Enter, Check];
      && Legal(Initial(), steps)
      && var s := Run(Initial(), steps);
         s.phase == Polling && s.pending == [f] && s.eventfd == 0 && s.pushed == {} && !NoLostWakeup(s)
  {
    var steps := [Push(LOOP, f), Signal(LOOP), Enter, Check];
    var s0: State<F> := Initial();
    var s1 := Apply(s0, steps[0]);
    var s2 := Apply(s1, steps[1]);
    var s3 := Apply(s2, steps[2]);
    var s4 := Apply(s3, steps[3]);
    assert steps[1..][1..] == steps[2..] && steps[2..][1..] == steps[3..] && steps[3..][1..] == [];
    assert Legal(s4, []) && Run(s4, []) == s4;
    assert Legal(s3, steps[3..]) && Run(s3, steps[3..]) == s4;
    assert Legal(s2, steps[2..]) && Run(s2, steps[2..]) == s4;
    assert Legal(s1, steps[1..]) && Run(s1, steps[1..]) == s4;
    assert s1.pushed == {LOOP} && s2.pushed == {};
  }

  // ----- No spurious wakeups

  /** One wakeup is due: the eventfd is raised and its report is not yet being handled. */
  function WakeDue<F>(s: State<F>): nat {
    if s.eventfd > 0 && s.phase != Dispatching(true) then 1 else 0
  }

  function CountWakes<F>(steps: seq<Step<F>>): nat {
    if steps == [] then 0 else (if steps[0] == PollReturn(true) then 1 else 0) + CountWakes(steps[1..])
  }

  /** How often the eventfd was written. */
  ghost function CountSignals<F>(s: State<F>, steps: seq<Step<F>>): nat
    requires Legal(s, steps)
    decreases steps
  {
    if steps == [] then 0
    else
      (if steps[0].QuitWake? || (steps[0].Signal? && (steps[0].t != LOOP || s.calling)) then 1 else 0)
      + CountSignals(Apply(s, steps[0]), steps[1..])
  }

  /** The loop does not spin: every wakeup by the eventfd is paid for by a write to it, whatever the
      interleaving, because handling the report empties the counter. */
  lemma {:induction false} WakeupsArePaidFor<F>(s: State<F>, steps: seq<Step<F>>)
    requires Legal(s, steps)
    ensures CountWakes(steps) + WakeDue(Run(s, steps)) <= WakeDue(s) + CountSignals(s, steps)
    decreases steps
  {
    if steps != [] {
      WakeupsArePaidFor(Apply(s, steps[0]), steps[1..]);
    }
  }

  // ----- Bounded delay

  /** Before the swap of round r everything that waits was pushed in round r - 1 or later; after it,
      everything still pending was pushed in round r. */
  ghost predicate DelayInv<F>(s: State<F>) {
    && Fifo(s)
    && (forall j :: 0 <= j < |s.stamps| ==> s.stamps[j] <= s.round)
    && (forall j :: |s.executed| <= j < |s.stamps| ==>
          s.stamps[j] + (if s.phase in {Started, Checking, Stopped} then 0 else 1) >= s.round)
    && (s.phase == Running ==>
          forall j :: |s.executed| + |s.batch| - s.next <= j < |s.stamps| ==> s.stamps[j] == s.round)
  }

  lemma StepKeepsDelayInv<F>(s: State<F>, step: Step<F>)
    requires DelayInv(s) && Enabled(s, step)
    ensures DelayInv(Apply(s, step))
  {
    StepRefinesQueue(s, step);
  }

  lemma {:induction false} RunKeepsDelayInv<F>(s: State<F>, steps: seq<Step<F>>)
    requires DelayInv(s) && Legal(s, steps)
    ensures DelayInv(Run(s, steps))
    decreases steps
  {
    if steps != [] {
      StepKeepsDelayInv(s, steps[0]);
      RunKeepsDelayInv(Apply(s, steps[0]), steps[1..]);
    }
  }

  /** When the loop is back at its test after `round` iterations, or has stopped there, every
      functor that was pushed before the last of them began has been executed: the delay is at most
      the current iteration and the next one, and quitting abandons only what came in during the
      last iteration or later. */
  lemma BoundedDelay<F>(steps: seq<Step<F>>)
    requires Legal(Initial(), steps)
    ensures var d := Run(Initial<F>(), steps);
      && |d.stamps| == |d.history|
      && (d.phase in {Checking, Stopped} ==>
            && d.history == d.executed + d.pending
            && forall j :: 0 <= j < |d.stamps| && d.stamps[j] < d.round ==>
                 j < |d.executed| && d.executed[j] == d.history[j])
  {
    RunKeepsDelayInv(Initial(), steps);
    var d := Run(Initial<F>(), steps);
    if d.phase in {Checking, Stopped} {
      assert d.batch[d.next..] == [];
    }
  }

  /** The steps of the loop thread itself, other than functors and handlers calling back. */
  predicate LoopMoves<F>(step: Step<F>) {
    step.Check? || step.PollReturn? || step.ReadEventfd? || step.StartCalling?
    || step.Swap? || step.Execute? || step.FinishBatch?
  }

  function CountMoves<F>(steps: seq<Step<F>>): nat {
    if steps == [] then 0 else (if LoopMoves(steps[0]) then 1 else 0) + CountMoves(steps[1..])
  }

  /** How many own steps the loop takes until the functor at position `j` of the history has run:
      what is left of the phase, and the functor's place in its batch or in the pending vector. */
  function StepsUntil<F>(s: State<F>, j: int): int {
    var place := j - |s.executed| - (|s.batch| - s.next);
    match s.phase
    case Started => 6 + place
    case Checking => 6 + place
    case Polling => 5 + place
    case Dispatching(wake) => (if wake then 4 else 3) + place
    case Swapping => 2 + place
    case Running => if place < 0 then j - |s.executed| + 1 else (|s.batch| - s.next) + 7 + place
    case Stopped => 0
  }

  lemma StepApproaches<F>(s: State<F>, step: Step<F>, j: nat)
    requires Fifo(s) && Enabled(s, step) && |s.executed| <= j < |s.history| && s.phase != Stopped
    ensures var d := Apply(s, step);
      || j < |d.executed| || d.phase == Stopped
      || (0 < StepsUntil(d, j) && StepsUntil(d, j) + (if LoopMoves(step) then 1 else 0) <= StepsUntil(s, j))
  {
    StepRefinesQueue(s, step);
  }

  lemma {:induction false} StoppedStays<F>(s: State<F>, steps: seq<Step<F>>)
    requires s.phase == Stopped && Legal(s, steps)
    ensures Run(s, steps).phase == Stopped
    decreases steps
  {
    if steps != [] {
      StoppedStays(Apply(s, steps[0]), steps[1..]);
    }
  }

  lemma ExecutedAsQueued<F>(s: State<F>, steps: seq<Step<F>>, j: nat)
    requires Fifo(s) && Legal(s, steps) && j < |s.history| && j < |Run(s, steps).executed|
    ensures Run(s, steps).executed[j] == s.history[j]
  {
    ExactlyOnceInOrder(s, steps);
    var d := Run(s, steps);
    assert d.executed[j] == d.history[j];
  }

  lemma {:induction false} StepsRunDown<F>(s: State<F>, steps: seq<Step<F>>, j: nat)
    requires Fifo(s) && Legal(s, steps) && |s.executed| <= j < |s.history|
    ensures var d := Run(s, steps);
      || d.phase == Stopped || j < |d.executed|
      || (0 < StepsUntil(d, j) && CountMoves(steps) + StepsUntil(d, j) <= StepsUntil(s, j))
    decreases steps
  {
    if s.phase == Stopped {
      StoppedStays(s, steps);
    } else if steps != [] {
      var m := Apply(s, steps[0]);
      StepRefinesQueue(s, steps[0]);
      StepApproaches(s, steps[0], j);
      if j < |m.executed| {
        ExactlyOnceInOrder(m, steps[1..]);
      } else {
        StepsRunDown(m, steps[1..], j);
      }
    }
  }

  /** No starvation: in every interleaving a functor that waits has run after as many own steps of the
      loop as its place in the queue says, whatever other threads and functors push meanwhile, unless
      the loop has stopped. */
  lemma WaitingFunctorsRun<F>(s: State<F>, steps: seq<Step<F>>, j: nat)
    requires Fifo(s) && Legal(s, steps) && |s.executed| <= j < |s.history|
    requires CountMoves(steps) >= StepsUntil(s, j)
    ensures var d := Run(s, steps);
      d.phase == Stopped || (j < |d.executed| && d.executed[j] == s.history[j])
  {
    StepsRunDown(s, steps, j);
    if j < |Run(s, steps).executed| {
      ExecutedAsQueued(s, steps, j);
    }
  }

  // ----- Quit

  /** A loop told to quit that is still at poll will be woken. */
  ghost predicate QuitInv<F>(s: State<F>) {
    && Fifo(s)
    && s.phase != Started
    && (s.phase == Polling && s.quit ==> s.eventfd > 0 || s.quitters != {})
  }

  lemma {:induction false} QuitIsNotMissed<F>(s: State<F>, steps: seq<Step<F>>)
    requires QuitInv(s) && Legal(s, steps)
    ensures QuitInv(Run(s, steps))
    ensures s.quit ==> Run(s, steps).quit && Run(s, steps).round == s.round
    decreases steps
  {
    if steps != [] {
      StepRefinesQueue(s, steps[0]);
      QuitIsNotMissed(Apply(s, steps[0]), steps[1..]);
    }
  }

  /** Once no other thread is in the middle of a call, a loop at poll with work or with a quit
      request cannot block: epoll_wait has the eventfd's report to deliver. */
  lemma PollCannotBlock<F>(s: State<F>)
    requires WakeInv(s) && QuitInv(s)
    requires s.phase == Polling && s.pushed == {} && s.quitters == {}
    requires s.pending != [] || s.quit
    ensures Enabled(s, PollReturn(true))
  {
    assert s.pushed - {LOOP} == {};
  }

  /** Distance to the end of loop() once quit_ is set: the phase, then what is left inside it. The
      length of a batch is fixed by the swap. */
  function PhaseRank<F>(s: State<F>): nat {
    match s.phase
    case Started => 7
    case Polling => 5
    case Dispatching(_) => 4
    case Swapping => 3
    case Running => 2
    case Checking => 1
    case Stopped => 0
  }

  function InPhase<F>(s: State<F>): int {
    match s.phase
    case Dispatching(wake) => if wake then 1 else 0
    case Running => |s.batch| - s.next
    case _ => 0
  }

  /** After quit, every own step of the loop gets strictly closer to Stopped and no step of any
      other thread, nor a functor that queues more functors, moves it away. */
  lemma QuitMakesProgress<F>(s: State<F>, step: Step<F>)
    requires QuitInv(s) && s.quit && Enabled(s, step)
    ensures var d := Apply(s, step);
      && d.quit
      && (LoopMoves(step) ==> PhaseRank(d) < PhaseRank(s)
                              || (PhaseRank(d) == PhaseRank(s) && 0 <= InPhase(d) < InPhase(s)))
      && (!LoopMoves(step) ==> PhaseRank(d) == PhaseRank(s) && InPhase(d) == InPhase(s))
  {
  }

  /** How many own steps the loop can still take once quit_ is set: through the iteration it is in,
      with what the next swap will take. */
  function Budget<F>(s: State<F>): int {
    match s.phase
    case Started => 7 + |s.pending|
    case Polling => 6 + |s.pending|
    case Dispatching(wake) => (if wake then 5 else 4) + |s.pending|
    case Swapping => 3 + |s.pending|
    case Running => 2 + |s.batch| - s.next
    case Checking => 1
    case Stopped => 0
  }

  /** The functors pushed before the swap of the iteration that the run is in: the only ones that the
      loop still executes after a quit. */
  ghost function CountInTime<F>(s: State<F>, steps: seq<Step<F>>): nat
    requires Legal(s, steps)
    decreases steps
  {
    if steps == [] then 0
    else (if steps[0].Push? && s.phase in {Polling, Dispatching(true), Dispatching(false), Swapping}
          then 1 else 0) + CountInTime(Apply(s, steps[0]), steps[1..])
  }

  /** Quitting terminates: after a quit, in every interleaving, the loop takes at most as many steps
      as its budget and the functors pushed before its last swap allow. What functors or other
      threads queue later does not keep it going. */
  lemma {:induction false} QuitTerminates<F>(s: State<F>, steps: seq<Step<F>>)
    requires QuitInv(s) && s.quit && Legal(s, steps)
    ensures 0 <= Budget(Run(s, steps))
    ensures CountMoves(steps) + Budget(Run(s, steps)) <= Budget(s) + CountInTime(s, steps)
    decreases steps
  {
    if steps != [] {
      StepRefinesQueue(s, steps[0]);
      QuitTerminates(Apply(s, steps[0]), steps[1..]);
    }
  }

  /** A call of quit() by any thread, once loop() is past line 80, ends the loop: the request is there,
      it is never lost, no further iteration begins, and what is left of the current one is bounded. */
  lemma QuitEndsLoop<F>(s: State<F>, t: Tid, steps: seq<Step<F>>)
    requires QuitInv(s) && Enabled(s, SetQuit(t)) && Legal(Apply(s, SetQuit(t)), steps)
    ensures var m := Apply(s, SetQuit(t)); var d := Run(m, steps);
      && m.quit && d.quit && d.round == s.round
      && (d.phase == Polling ==> d.eventfd > 0 || d.quitters != {})
      && 0 <= Budget(d) && CountMoves(steps) + Budget(d) <= Budget(s) + CountInTime(m, steps)
      && (Budget(d) == 0 <==> d.phase == Stopped)
  {
    var m := Apply(s, SetQuit(t));
    StepRefinesQueue(s, SetQuit(t));
    QuitIsNotMissed(m, steps);
    QuitTerminates(m, steps);
  }

  ghost predicate QuitSurvives<F(!new)>(s: State<F>) {
    forall steps :: Legal(s, steps) ==> Run(s, steps).quit
  }

  lemma {:induction false} QuitStays<F>(s: State<F>, steps: seq<Step<F>>)
    requires s.phase != Started && s.quit && Legal(s, steps)
    ensures Run(s, steps).quit
    decreases steps
  {
    if steps != [] {
      QuitStays(Apply(s, steps[0]), steps[1..]);
    }
  }

  /** A quit request holds through every interleaving exactly when it is made after line 80: before
      it, the assignment there is always within reach. */
  lemma QuitSurvivesIff<F(!new)>(s: State<F>)
    requires Fifo(s) && s.quit
    ensures QuitSurvives(s) <==> s.phase != Started
  {
    if s.phase != Started {
      forall steps | Legal(s, steps)
        ensures Run(s, steps).quit
      {
        QuitStays(s, steps);
      }
    } else if s.LoopBusy() {
      var steps := [Signal(LOOP)];
      assert Legal(s, []) && Run(s, []) == s;
      RunOne(s, [], Signal(LOOP));
      assert [] + [Signal(LOOP)] == steps;
      RunOne(s, steps, Enter);
      assert !Run(s, steps + [Enter]).quit;
    } else {
      assert Legal(s, []) && Run(s, []) == s;
      RunOne(s, [], Enter);
      assert !Run(s, [] + [Enter]).quit;
    }
  }

  /** A quit before line 80 is overwritten there: the shortest run. */
  lemma EarlyQuitIsOverwritten<F>(t: Tid)
    requires t != LOOP
    ensures var steps: seq<Step<F>> := [SetQuit(t), Enter, Check];
      Legal(Initial(), steps) && Run(Initial(), steps).phase == Polling && !Run(Initial(), steps).quit
  {
    var steps: seq<Step<F>> := [SetQuit(t), Enter, Check];
    var s0: State<F> := Initial();
    var s1 := Apply(s0, steps[0]);
    var s2 := Apply(s1, steps[1]);
    var s3 := Apply(s2, steps[2]);
    assert steps[1..][1..] == steps[2..] && steps[2..][1..] == [];
    assert Legal(s3, []) && Run(s3, []) == s3;
    assert Legal(s2, steps[2..]) && Run(s2, steps[2..]) == s3;
    assert Legal(s1, steps[1..]) && Run(s1, steps[1..]) == s3;
  }
}
