/** How often a connection can be closed: three times, on an io loop, before its removal has come
    back from the base loop. */
module LifecycleThirdClose {
  import opened SystemCalls
  import opened Masks
  import R = Registries
  import C = Connections
  import opened Lifecycle
  import opened LifecycleInvariant
  import opened LifecycleTheorems

  /** Connection 1 on io loop 1 of two loops. */
  ghost predicate OnIo(s: State, phase: Phase, queue: seq<Task>, calls: nat, index: Index, events: Events) {
    && Reachable(2, s) && Shape(s) && |s.loops| == 2 && s.loops[1] == Loop(phase, queue)
    && 1 in s.conns && s.conns[1].loop == 1
    && s.conns[1].conn.closeCalls == calls && s.conns[1].conn.index == index
    && s.conns[1].conn.events == events
  }

  const READING := NO_EVENT.WithReading()
  const HANGUP := Events(false, false, false, false, true)

  function ReportAt(mask: Events, stage: Stage): Phase {
    Dispatching([R.Report(1, mask)], stage)
  }

  lemma Accepted() returns (s: State)
    ensures OnIo(s, Waiting, [Establish(1)], 0, New, NO_EVENT) && s.conns[1].established == 0
  {
    StartIsReachable(2);
    var a := Apply(Start(2), PollReturn(0, []));
    ReachableStep(2, Start(2), PollReturn(0, []));
    ReachableInv(2, a);
    assert a.loops == [Loop(Dispatching([], Lock), []), Loop(Waiting, [])];
    s := Apply(a, Accept(1, 5, PLAIN));
    ReachableStep(2, a, Accept(1, 5, PLAIN));
    ReachableInv(2, s);
    assert [] + [Establish(1)] == [Establish(1)];
  }

  lemma SetsPhase(s: State, step: Step, phase: Phase, next: Phase, q: seq<Task>, n: nat, i: Index, ev: Events)
    returns (d: State)
    requires OnIo(s, phase, q, n, i, ev) && Enabled(s, step) && Apply(s, step) == SetPhase(s, 1, next)
    ensures OnIo(d, next, q, n, i, ev) && d == Apply(s, step)
  {
    ReachableStep(2, s, step);
    d := Apply(s, step);
  }

  lemma Establishes(s: State)
    requires OnIo(s, RunningTasks(1, []), [Establish(1)], 0, New, NO_EVENT)
    ensures Enabled(s, RunTask(1))
    ensures var d := Apply(s, RunTask(1));
      && |d.loops| == 2 && d.loops[1] == Loop(RunningTasks(0, [] + [Establish(1)]), [])
      && 1 in d.conns && d.conns[1].loop == 1 && d.conns[1].conn.closeCalls == 0
      && d.conns[1].conn.index == Added && d.conns[1].conn.events == READING
  {
    assert [Establish(1)][1..] == [];
  }

  lemma RunsEstablish(s: State) returns (d: State)
    requires OnIo(s, RunningTasks(1, []), [Establish(1)], 0, New, NO_EVENT)
    ensures OnIo(d, RunningTasks(0, [] + [Establish(1)]), [], 0, Added, READING)
  {
    Establishes(s);
    ReachableStep(2, s, RunTask(1));
    d := Apply(s, RunTask(1));
    ReachableInv(2, d);
  }

  lemma Established() returns (s: State)
    ensures OnIo(s, Waiting, [], 0, Added, READING)
  {
    var a := Accepted();
    var b := SetsPhase(a, PollReturn(1, []), Waiting, Dispatching([], Lock), [Establish(1)], 0, New, NO_EVENT);
    var c := SetsPhase(b, StartTasks(1), Dispatching([], Lock), RunningTasks(1, []), [Establish(1)], 0, New,
                       NO_EVENT);
    var d := RunsEstablish(c);
    s := SetsPhase(d, EndTasks(1), RunningTasks(0, [] + [Establish(1)]), Waiting, [], 0, Added, READING);
  }

  lemma KernelReports(r: R.Registry<Id>, c: Id, fd: int, ev: Events, mask: Events)
    requires R.Inv(r) && c in r.chans && r.chans[c] == R.Chan(fd, ev, Added) && Reportable(mask, ev)
    ensures R.KernelMayReport(r, [R.Report(c, mask)])
  {
    assert R.Agrees(r, c);
    assert r.kernel[fd] == R.Interest(c, ev);
    assert R.InKernel(r, R.Report(c, mask));
  }

  /** The kernel may report any mask that fits the registered interest. */
  lemma MayReport(s: State, mask: Events, n: nat, ev: Events)
    requires OnIo(s, Waiting, [], n, Added, ev) && Reportable(mask, ev)
    ensures Enabled(s, PollReturn(1, [R.Report(1, mask)]))
  {
    ReachableInv(2, s);
    assert PollerOk(s, 1);
    KernelReports(s.pollers[1], 1, s.conns[1].fd, ev, mask);
  }

  lemma Reports(s: State, mask: Events, n: nat, ev: Events) returns (d: State)
    requires OnIo(s, Waiting, [], n, Added, ev) && Reportable(mask, ev)
    ensures OnIo(d, ReportAt(mask, CloseStage), [], n, Added, ev)
  {
    MayReport(s, mask, n, ev);
    var a := SetsPhase(s, PollReturn(1, [R.Report(1, mask)]), Waiting, ReportAt(mask, Lock), [], n, Added, ev);
    ReachableInv(2, a);
    OwnedWhileRegistered(a, 1);
    d := SetsPhase(a, BeginEvent(1), ReportAt(mask, Lock), ReportAt(mask, CloseStage), [], n, Added, ev);
  }

  lemma ClosesWith(s: State, phase: Phase, next: Phase, n: nat, i: Index, ev: Events, conn: C.Conn,
                   doubled: bool, r: R.Registry<Id>)
    requires OnIo(s, phase, [], n, i, ev)
    ensures var d := SetPhase(CloseWith(s, 1, conn, doubled, r), 1, next);
      && |d.loops| == 2 && d.loops[1] == Loop(next, []) && 1 in d.conns && d.conns[1].loop == 1
      && d.conns[1].conn == conn
  {
  }

  /** The close callback in the close stage. */
  lemma HangsUp(s: State, mask: Events, n: nat, ev: Events) returns (d: State)
    requires OnIo(s, ReportAt(mask, CloseStage), [], n, Added, ev) && mask.pollHup && !mask.pollIn
    ensures OnIo(d, ReportAt(mask, ReadStage), [], n + 1, Deleted, NO_EVENT)
  {
    var conn := C.HandleClose(s.conns[1].conn);
    ClosesWith(s, ReportAt(mask, CloseStage), ReportAt(mask, ReadStage), n, Added, ev, conn, false,
               R.SetEvents(s.pollers[1], 1, NO_EVENT));
    d := Apply(s, OnClose(1));
    ReachableStep(2, s, OnClose(1));
    ReachableInv(2, d);
  }

  /** The read of the same report meets the end of the stream: the channel is added again. */
  lemma ReadsEnd(s: State, mask: Events, n: nat) returns (d: State)
    requires OnIo(s, ReportAt(mask, ReadStage), [], n, Deleted, NO_EVENT) && mask.pollPri
    ensures OnIo(d, ReportAt(mask, WriteStage), [], n + 1, Added, NO_EVENT)
  {
    var conn := C.HandleRead(s.conns[1].conn, ReadBytes([]));
    var doubled := mask.pollHup && mask.pollPri && !mask.pollIn;
    ClosesWith(s, ReportAt(mask, ReadStage), ReportAt(mask, WriteStage), n, Deleted, NO_EVENT, conn, doubled,
               R.SetEvents(s.pollers[1], 1, NO_EVENT));
    d := Apply(s, OnRead(1, ReadBytes([])));
    ReachableStep(2, s, OnRead(1, ReadBytes([])));
    ReachableInv(2, d);
  }

  lemma PollsAgain(s: State, mask: Events, n: nat) returns (d: State)
    requires OnIo(s, ReportAt(mask, WriteStage), [], n, Added, NO_EVENT) && !mask.pollOut
    ensures OnIo(d, Waiting, [], n, Added, NO_EVENT)
  {
    assert [R.Report(1, mask)][1..] == [];
    var a := SetsPhase(s, OnWrite(1, Wrote(0)), ReportAt(mask, WriteStage), Dispatching([], Lock), [], n, Added,
                       NO_EVENT);
    var b := SetsPhase(a, StartTasks(1), Dispatching([], Lock), RunningTasks(0, []), [], n, Added, NO_EVENT);
    d := SetsPhase(b, EndTasks(1), RunningTasks(0, []), Waiting, [], n, Added, NO_EVENT);
  }

  /** The bound of three closes is reached: a double report, and a hang-up reported under the empty
      mask before the base loop has removed the connection. */
  lemma ClosedThreeTimes()
    ensures exists s :: Reachable(2, s) && 1 in s.conns && s.conns[1].conn.closeCalls == 3
  {
    var up := Established();
    var first := Reports(up, URGENT_HANGUP, 0, READING);
    var once := HangsUp(first, URGENT_HANGUP, 0, READING);
    var twice := ReadsEnd(once, URGENT_HANGUP, 1);
    var idle := PollsAgain(twice, URGENT_HANGUP, 2);
    var second := Reports(idle, HANGUP, 2, NO_EVENT);
    var thrice := HangsUp(second, HANGUP, 2, NO_EVENT);
  }
}
