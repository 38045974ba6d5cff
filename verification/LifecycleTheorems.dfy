/** What holds in every run of the multi-loop server, from a start with any number of loops. */
module LifecycleTheorems {
  import opened SystemCalls
  import opened Masks
  import R = Registries
  import C = Connections
  import CE = ConnectionEffects
  import opened Lifecycle
  import opened LifecycleInvariant

  ghost predicate Legal(s: State, steps: seq<Step>)
    requires Inv(s)
    decreases steps
  {
    steps == [] ||
    (Enabled(s, steps[0]) && (StepKeepsInv(s, steps[0]); Legal(Apply(s, steps[0]), steps[1..])))
  }

  ghost function Run(s: State, steps: seq<Step>): (d: State)
    requires Inv(s) && Legal(s, steps)
    ensures Inv(d)
    decreases steps
  {
    if steps == [] then s else StepKeepsInv(s, steps[0]); Run(Apply(s, steps[0]), steps[1..])
  }

  ghost predicate ReachableFrom(s: State, d: State) {
    Inv(s) && exists steps :: Legal(s, steps) && Run(s, steps) == d
  }

  ghost predicate Reachable(n: nat, d: State) {
    n > 0 && ReachableFrom(Start(n), d)
  }

  lemma ReachableInv(n: nat, d: State)
    requires Reachable(n, d)
    ensures Inv(d)
  {
    var steps :| Legal(Start(n), steps) && Run(Start(n), steps) == d;
  }

  // ----- Ownership

  /** No handler, functor or poller ever touches a freed connection, and no epoll_ctl is refused. */
  lemma NothingDangles(n: nat, d: State)
    requires Reachable(n, d)
    ensures !d.crashed
    ensures forall l :: 0 <= l < |d.pollers| ==> !d.pollers[l].fatal
  {
    ReachableInv(n, d);
    forall l | 0 <= l < |d.pollers|
      ensures !d.pollers[l].fatal
    {
      assert PollerOk(d, l);
    }
  }

  /** Ownership across loops: whatever pointer a poller holds, in the kernel's set or in its own map,
      is a connection that the server holds strongly, on the loop it belongs to. */
  lemma RegisteredIsOwned(n: nat, d: State, l: nat, fd: int)
    requires Reachable(n, d) && l < |d.pollers|
    ensures fd in d.pollers[l].kernel ==>
      var c := d.pollers[l].kernel[fd].chan;
      OwnedByServer(d, c) && Held(d, c) && d.conns[c].loop == l && d.conns[c].fd == fd
    ensures fd in d.pollers[l].channels ==>
      var c := d.pollers[l].channels[fd];
      OwnedByServer(d, c) && Held(d, c) && d.conns[c].loop == l && d.conns[c].fd == fd
  {
    ReachableInv(n, d);
    assert PollerOk(d, l);
    var r := d.pollers[l];
    if fd in r.kernel {
      OwnedWhileRegistered(d, r.kernel[fd].chan);
    }
    if fd in r.channels {
      OwnedWhileRegistered(d, r.channels[fd]);
    }
  }

  /** A connection can be freed only when no poller knows it, and its fd is then in no kernel set. */
  lemma FreedIsUnregistered(n: nat, d: State, c: Id, l: nat)
    requires Reachable(n, d) && Enabled(d, Free(c)) && l < |d.pollers|
    ensures d.conns[c].fd !in d.pollers[l].kernel && d.conns[c].fd !in d.pollers[l].channels
  {
    ReachableInv(n, d);
    var fd := d.conns[c].fd;
    assert PollerOk(d, l);
    if fd in d.pollers[l].kernel {
      RegisteredIsOwned(n, d, l, fd);
    }
    if fd in d.pollers[l].channels {
      RegisteredIsOwned(n, d, l, fd);
    }
  }

  // ----- Teardown

  /** Every close has exactly one removal, queued on the base loop or done, and every removal exactly
      one connectDestroyed, queued on the connection's loop or done; none comes before
      connectEstablished, and after the first the connection is in no map and no poller. */
  lemma TeardownAccounts(n: nat, d: State, c: Id)
    requires Reachable(n, d) && c in d.conns
    ensures d.conns[c].loop < |d.loops| && |d.loops| > 0
    ensures var e := d.conns[c];
      && Count(d, BASE, RemoveConn(c)) + e.removed == e.conn.closeCalls
      && Count(d, e.loop, DestroyConn(c)) + e.destroyed == e.removed
      && (e.destroyed > 0 ==> e.established == 1 && c !in d.connections && e.conn.index == New)
      && (e.conn.closeCalls > 0 ==> e.conn.state == C.Disconnected)
      && (e.conn.closeCalls > 0 && !e.doubleClosed ==>
            Count(d, BASE, RemoveConn(c)) + Count(d, e.loop, DestroyConn(c)) + e.destroyed == 1)
      && e.conn.closeCalls <= 3
  {
    ReachableInv(n, d);
    assert EntryOk(d, c);
  }

  /** A freed connection was established once, and closed, removed and destroyed equally often:
      exactly once unless it was double-closed. */
  lemma FreedWasTornDown(n: nat, d: State, c: Id)
    requires Reachable(n, d) && c in d.gone
    ensures var e := d.gone[c];
      && e.established == 1
      && e.conn.closeCalls == e.removed == e.destroyed >= 1
      && (e.destroyed == 1 <==> !e.doubleClosed)
      && c !in d.conns && c !in d.connections
  {
    ReachableInv(n, d);
  }

  lemma FreeIff(d: State, c: Id)
    requires Inv(d) && c in d.conns
    ensures Enabled(d, Free(c)) <==> d.conns[c].conn.closeCalls > 0 && c !in d.kept && !Busy(d, c)
  {
    if !Held(d, c) {
      UnheldIsDone(d, c);
    } else if c !in d.kept && !Busy(d, c) {
      NobodyRefers(d, c, BASE, RemoveConn(c));
      assert EntryOk(d, c);
    }
  }

  lemma BusyMeans(d: State, c: Id)
    ensures !Busy(d, c) <==>
      && (forall l, i :: 0 <= l < |d.loops| && 0 <= i < |d.loops[l].queue| ==> d.loops[l].queue[i].c != c)
      && (forall l :: 0 <= l < |d.loops| ==>
            var p := d.loops[l].phase;
            p.Dispatching? && p.active != [] && p.active[0].chan == c ==> p.stage == Lock)
      && (forall l, i :: 0 <= l < |d.loops| && d.loops[l].phase.RunningTasks? ==>
            0 <= i < |d.loops[l].phase.done| ==> d.loops[l].phase.done[i].c != c)
  {
    if l :| 0 <= l < |d.loops| && OnStack(d.loops[l].phase, c) {
      if d.loops[l].phase.RunningTasks? {
        var i :| 0 <= i < |d.loops[l].phase.done| && d.loops[l].phase.done[i].c == c;
      }
    }
    if l, i :| 0 <= l < |d.loops| && d.loops[l].phase.RunningTasks? && 0 <= i < |d.loops[l].phase.done|
               && d.loops[l].phase.done[i].c == c {
      assert OnStack(d.loops[l].phase, c);
    }
    if l :| 0 <= l < |d.loops| && d.loops[l].phase.Dispatching? && d.loops[l].phase.active != []
            && d.loops[l].phase.active[0].chan == c && d.loops[l].phase.stage != Lock {
      assert OnStack(d.loops[l].phase, c);
    }
  }

  /** No early release: a connection can be freed if and only if it has been closed, the user keeps
      no reference, no functor of it waits, no handler of it is running, and no batch in which a functor
      of it ran is still going on. */
  lemma ReleasedIff(n: nat, d: State, c: Id)
    requires Reachable(n, d) && c in d.conns
    ensures Enabled(d, Free(c)) <==>
      && d.conns[c].conn.closeCalls > 0 && c !in d.kept
      && (forall l, i :: 0 <= l < |d.loops| && 0 <= i < |d.loops[l].queue| ==> d.loops[l].queue[i].c != c)
      && (forall l :: 0 <= l < |d.loops| ==>
            var p := d.loops[l].phase;
            p.Dispatching? && p.active != [] && p.active[0].chan == c ==> p.stage == Lock)
      && (forall l, i :: 0 <= l < |d.loops| && d.loops[l].phase.RunningTasks? ==>
            0 <= i < |d.loops[l].phase.done| ==> d.loops[l].phase.done[i].c != c)
  {
    ReachableInv(n, d);
    FreeIff(d, c);
    BusyMeans(d, c);
  }

  // ----- What epoll_wait can say

  /** In every reachable state the kernel may report plain input on a connection exactly while it is
      up, and plain output exactly while it is up and has unsent bytes. */
  lemma ReportsAreWanted(n: nat, d: State, c: Id)
    requires Reachable(n, d) && c in d.conns
    ensures d.conns[c].loop < |d.pollers|
    ensures var conn := d.conns[c].conn; var r := d.pollers[d.conns[c].loop];
      var up := conn.state in {C.Connected, C.Disconnecting};
      && (R.KernelMayReport(r, [R.Report(c, INPUT)]) <==> up)
      && (R.KernelMayReport(r, [R.Report(c, OUTPUT)]) <==> up && conn.output.contents != [])
  {
    ReachableInv(n, d);
    assert PollerOk(d, d.conns[c].loop) && EntryOk(d, c);
    CE.InterestIsExact(d.conns[c].conn);
    R.AddedMayBeReported(d.pollers[d.conns[c].loop], c, INPUT);
    R.AddedMayBeReported(d.pollers[d.conns[c].loop], c, OUTPUT);
  }

  // ----- Exactly when teardown can run twice

  /** The read callback meets the end of the stream in a report that also ran the close callback. */
  ghost predicate DoubleReport(s: State, step: Step) {
    step.OnRead? && AtStage(s, step.l, ReadStage) && step.read == ReadBytes([])
    && var m := s.loops[step.l].phase.active[0].mask;
    m.pollHup && m.pollPri && !m.pollIn
  }

  ghost predicate HasDoubleReport(s: State, steps: seq<Step>)
    requires Inv(s) && Legal(s, steps)
    decreases steps
  {
    steps != [] &&
    (DoubleReport(s, steps[0])
     || (StepKeepsInv(s, steps[0]); HasDoubleReport(Apply(s, steps[0]), steps[1..])))
  }

  predicate Flagged(s: State, c: Id) {
    (c in s.conns && s.conns[c].doubleClosed) || (c in s.gone && s.gone[c].doubleClosed)
  }

  ghost predicate SameFlags(s: State, d: State) {
    forall x {:trigger Flagged(d, x)} :: Flagged(d, x) <==> Flagged(s, x)
  }

  lemma ActFlags(s: State, c: Id, conn: C.Conn)
    requires Shape(s) && c in s.conns
    ensures SameFlags(s, Act(s, c, conn))
  {
    assert Act(s, c, conn).conns == s.conns[c := s.conns[c].(conn := conn)];
  }

  lemma CloseFlags(s: State, c: Id, conn: C.Conn, doubled: bool, x: Id)
    requires Shape(s) && c in s.conns && c !in s.gone
    ensures Flagged(CloseNow(s, c, conn, doubled), x) <==> Flagged(s, x) || (doubled && x == c)
  {
    var d := CloseNow(s, c, conn, doubled);
    assert d.gone == s.gone;
    assert d.conns.Keys == s.conns.Keys;
    assert d.conns[c].doubleClosed == (s.conns[c].doubleClosed || doubled);
    assert x in s.conns && x != c ==> d.conns[x] == s.conns[x];
  }

  lemma EntryFlags(s: State, d: State, c: Id)
    requires c in s.conns && c in d.conns && d.gone == s.gone && d.conns == s.conns[c := d.conns[c]]
    requires d.conns[c].doubleClosed == s.conns[c].doubleClosed
    ensures SameFlags(s, d)
  {
  }

  lemma RunOneFlags(s: State, t: Task)
    requires Shape(s)
    ensures SameFlags(s, RunOne(s, t))
  {
    if t.c in s.conns {
      var e := s.conns[t.c];
      match t
      case Establish(c) => EntryFlags(s, EstablishNow(s, c), c);
      case RemoveConn(c) => EntryFlags(s, RemoveInLoop(s, c), c);
      case DestroyConn(c) => EntryFlags(s, DestroyNow(s, c), c);
      case Notify(_) =>
    }
  }

  lemma AcceptFlags(s: State, io: nat, fd: int, settings: Settings)
    requires Shape(s) && io < |s.loops| && s.nextId !in s.conns && s.nextId !in s.gone
    ensures SameFlags(s, AcceptNow(s, io, fd, settings))
  {
    var d := AcceptNow(s, io, fd, settings);
    assert d.gone == s.gone && d.conns.Keys == s.conns.Keys + {s.nextId};
    assert !d.conns[s.nextId].doubleClosed;
    assert forall x :: x in s.conns ==> d.conns[x] == s.conns[x];
  }

  lemma BeginFlags(s: State, l: nat)
    requires AtHead(s, l)
    ensures SameFlags(s, BeginNow(s, l))
  {
    var d := BeginNow(s, l);
    assert d.conns == s.conns && d.gone == s.gone;
  }

  lemma FreeFlags(s: State, c: Id)
    requires Inv(s) && Enabled(s, Free(c))
    ensures SameFlags(s, Apply(s, Free(c)))
  {
    var d := Apply(s, Free(c));
    assert Names(s) && d.conns == s.conns - {c} && d.gone == s.gone[c := s.conns[c]];
  }

  lemma LoopFlags(s: State, step: Step)
    requires Inv(s) && Enabled(s, step)
    requires step.Accept? || step.PollReturn? || step.BeginEvent? || step.StartTasks?
             || step.EndTasks? || step.Free? || step.UserKeep? || step.UserDrop?
    ensures SameFlags(s, Apply(s, step))
  {
    match step
    case Accept(io, fd, settings) => AcceptFlags(s, io, fd, settings);
    case Free(c) => FreeFlags(s, c);
    case BeginEvent(l) => BeginFlags(s, l);
    case _ =>
  }

  lemma TaskFlags(s: State, l: nat)
    requires Inv(s) && Enabled(s, RunTask(l))
    ensures SameFlags(s, Apply(s, RunTask(l)))
  {
    assert SameFlags(s, Pop(s, l));
    RunOneFlags(Pop(s, l), s.loops[l].queue[0]);
  }

  lemma CloseStageFlags(s: State, l: nat, x: Id)
    requires Inv(s) && Enabled(s, OnClose(l))
    ensures Flagged(Apply(s, OnClose(l)), x) <==> Flagged(s, x)
  {
    HeadMayBeDone(s, l);
    var c := s.loops[l].phase.active[0].chan;
    CloseFlags(s, c, C.HandleClose(s.conns[c].conn), false, x);
  }

  lemma WriteFlags(s: State, l: nat, write: WriteOutcome)
    requires Inv(s) && Enabled(s, OnWrite(l, write))
    ensures SameFlags(s, Apply(s, OnWrite(l, write)))
  {
    HeadMayBeDone(s, l);
    var c := s.loops[l].phase.active[0].chan;
    ActFlags(s, c, C.HandleWrite(s.conns[c].conn, write));
  }

  lemma PhaseHasNoFlags(s: State, l: nat, p: Phase, x: Id)
    requires l < |s.loops|
    ensures Flagged(SetPhase(s, l, p), x) <==> Flagged(s, x)
  {
  }

  lemma ReadFlags(s: State, l: nat, read: ReadOutcome, x: Id)
    requires Inv(s) && Enabled(s, OnRead(l, read))
    ensures Flagged(Apply(s, OnRead(l, read)), x)
       <==> Flagged(s, x) || (DoubleReport(s, OnRead(l, read)) && x == s.loops[l].phase.active[0].chan)
  {
    HeadMayBeDone(s, l);
    var c, m := s.loops[l].phase.active[0].chan, s.loops[l].phase.active[0].mask;
    var conn := C.HandleRead(s.conns[c].conn, read);
    var doubled := m.pollHup && m.pollPri && !m.pollIn;
    if !(m.pollIn || m.pollPri) {
    } else if read == ReadBytes([]) {
      CloseFlags(s, c, conn, doubled, x);
      PhaseHasNoFlags(CloseNow(s, c, conn, doubled), l, s.loops[l].phase.(stage := WriteStage), x);
    } else {
      ActFlags(s, c, conn);
      PhaseHasNoFlags(Act(s, c, conn), l, s.loops[l].phase.(stage := WriteStage), x);
    }
  }

  /** A step marks a connection as double-closed exactly when it is a double report for it, and
      nothing removes the mark. */
  lemma StepFlags(s: State, step: Step, x: Id)
    requires Inv(s) && Enabled(s, step)
    ensures Flagged(Apply(s, step), x)
       <==> Flagged(s, x) || (DoubleReport(s, step) && x == s.loops[step.l].phase.active[0].chan)
  {
    match step
    case OnClose(l) => CloseStageFlags(s, l, x);
    case OnRead(l, read) => ReadFlags(s, l, read, x);
    case OnWrite(l, write) => WriteFlags(s, l, write);
    case UserSend(c, data, direct) => ActFlags(s, c, C.Send(s.conns[c].conn, data, direct));
    case UserShutdown(c) => ActFlags(s, c, C.Shutdown(s.conns[c].conn));
    case UserTake(c, len) => ActFlags(s, c, C.Step(s.conns[c].conn, C.Taken(len)));
    case RunTask(l) => TaskFlags(s, l);
    case _ => LoopFlags(s, step);
  }

  ghost predicate AnyFlagged(s: State) {
    exists x :: Flagged(s, x)
  }

  lemma StepAnyFlagged(s: State, step: Step)
    requires Inv(s) && Enabled(s, step)
    ensures AnyFlagged(Apply(s, step)) <==> AnyFlagged(s) || DoubleReport(s, step)
  {
    var d := Apply(s, step);
    forall x
      ensures Flagged(d, x) <==>
        Flagged(s, x) || (DoubleReport(s, step) && x == s.loops[step.l].phase.active[0].chan)
    {
      StepFlags(s, step, x);
    }
    if DoubleReport(s, step) {
      assert Flagged(d, s.loops[step.l].phase.active[0].chan);
    }
    if x :| Flagged(s, x) {
      assert Flagged(d, x);
    }
  }

  lemma {:induction false} RunFlags(s: State, steps: seq<Step>)
    requires Inv(s) && Legal(s, steps)
    ensures AnyFlagged(Run(s, steps)) <==> AnyFlagged(s) || HasDoubleReport(s, steps)
    decreases steps
  {
    if steps != [] {
      StepKeepsInv(s, steps[0]);
      StepAnyFlagged(s, steps[0]);
      RunFlags(Apply(s, steps[0]), steps[1..]);
    }
  }

  /** A connection that has been closed has exactly one removal, which is queued on the base loop,
      or has become a connectDestroyed queued on the connection's loop, or one that has run. */
  ghost predicate TornDownOnce(s: State, c: Id)
    requires c in s.conns && s.conns[c].loop < |s.loops|
  {
    s.conns[c].conn.closeCalls > 0 ==>
      Count(s, BASE, RemoveConn(c)) + Count(s, s.conns[c].loop, DestroyConn(c)) + s.conns[c].destroyed == 1
  }

  /** Teardown is exactly-once for every connection of a run, if and only if no event of the run was
      a report of hang-up and urgent data without input whose read met the end of the stream. */
  lemma ExactlyOnceTeardownIff(n: nat, steps: seq<Step>)
    requires n > 0 && Inv(Start(n)) && Legal(Start(n), steps)
    ensures var d := Run(Start(n), steps);
      ((forall c :: c in d.conns ==> TornDownOnce(d, c))
       && (forall c :: c in d.gone ==> d.gone[c].destroyed == 1))
      <==> !HasDoubleReport(Start(n), steps)
  {
    var d := Run(Start(n), steps);
    RunFlags(Start(n), steps);
    forall c | c in d.conns
      ensures TornDownOnce(d, c) <==> !Flagged(d, c)
    {
      assert EntryOk(d, c);
    }
    forall c | c in d.gone
      ensures d.gone[c].destroyed == 1 <==> !Flagged(d, c)
    {
    }
    if AnyFlagged(d) {
      var x :| Flagged(d, x);
      assert x in d.conns || x in d.gone;
    }
    assert !AnyFlagged(Start(n));
  }

  /** A closed connection, alive or freed, was told `connected` once and `disconnected` once. */
  ghost predicate ToldOnce(s: State) {
    && (forall c :: c in s.conns && s.conns[c].conn.closeCalls > 0 ==>
          s.conns[c].conn.notices == [true, false])
    && (forall c :: c in s.gone ==> s.gone[c].conn.notices == [true, false])
  }

  lemma ToldOncePerClose(c: C.Conn)
    requires C.Inv(c) && c.closeCalls > 0 && c.state == C.Disconnected
    ensures c.notices == [true, false] <==> c.closeCalls == 1
  {
  }

  /** Up/down pairing is exact for every connection of a run, if and only if no event of the run was
      a report of hang-up and urgent data without input whose read met the end of the stream. */
  lemma ExactPairingIff(n: nat, steps: seq<Step>)
    requires n > 0 && Inv(Start(n)) && Legal(Start(n), steps)
    ensures ToldOnce(Run(Start(n), steps)) <==> !HasDoubleReport(Start(n), steps)
  {
    var d := Run(Start(n), steps);
    RunFlags(Start(n), steps);
    forall c | c in d.conns && d.conns[c].conn.closeCalls > 0
      ensures d.conns[c].conn.notices == [true, false] <==> !Flagged(d, c)
    {
      assert EntryOk(d, c);
      ToldOncePerClose(d.conns[c].conn);
    }
    forall c | c in d.gone
      ensures d.gone[c].conn.notices == [true, false] <==> !Flagged(d, c)
    {
      assert GoneOk(d.gone[c]);
      ToldOncePerClose(d.gone[c].conn);
    }
    if AnyFlagged(d) {
      var x :| Flagged(d, x);
      if x in d.conns {
        assert EntryOk(d, x);
      }
    }
    assert !AnyFlagged(Start(n));
  }

  // ----- Batch safety

  /** No channel that epoll_wait reported is unregistered or freed before its own event is handled:
      as long as its turn has not come it is alive, owned, and in the kernel's set with an interest
      that its report fits. So handleEvent's lock of the tie never fails. */
  lemma BatchSafety(n: nat, d: State, l: nat, i: nat)
    requires Reachable(n, d) && l < |d.loops| && d.loops[l].phase.Dispatching?
    requires i < |d.loops[l].phase.active| && (i > 0 || d.loops[l].phase.stage == Lock)
    ensures |d.pollers| == |d.loops|
    ensures var c := d.loops[l].phase.active[i].chan;
      && OwnedByServer(d, c) && Held(d, c) && d.conns[c].loop == l
      && d.conns[c].conn.index == Added
      && d.conns[c].fd in d.pollers[l].kernel
      && d.pollers[l].kernel[d.conns[c].fd] == R.Interest(c, d.conns[c].conn.events)
      && Reportable(d.loops[l].phase.active[i].mask, d.conns[c].conn.events)
  {
    ReachableInv(n, d);
    assert PhaseOk(d, l) && PollerOk(d, l);
    var c := d.loops[l].phase.active[i].chan;
    assert Reported(d, l, c);
    assert Untouched(d.conns[c], d.loops[l].phase.active[i].mask);
    OwnedWhileRegistered(d, c);
    assert R.Agrees(d.pollers[l], c);
  }

  // ----- Every connection's streams

  /** The per-connection guarantees hold for every connection of the server, alive or freed. */
  lemma EveryConnectionIsSound(n: nat, d: State, c: Id)
    requires Reachable(n, d) && (c in d.conns || c in d.gone)
    ensures var conn := if c in d.conns then d.conns[c].conn else d.gone[c].conn;
      && conn.accepted == conn.written + conn.output.contents
      && (conn.fins == [] || (conn.fins == [|conn.accepted|] && conn.written == conn.accepted))
      && (conn.state in {C.Connected, C.Disconnecting} ==> conn.notices == [true])
      && (conn.closeCalls > 0 ==> |conn.notices| == 1 + conn.closeCalls)
  {
    ReachableInv(n, d);
    if c in d.conns {
      assert EntryOk(d, c);
    }
    var conn := if c in d.conns then d.conns[c].conn else d.gone[c].conn;
    assert C.Inv(conn);
    if conn.fins != [] {
      assert conn.fins == [conn.fins[0]];
    }
  }

  // ----- The exception really happens

  lemma LegalAppend(s: State, steps: seq<Step>, step: Step)
    requires Inv(s) && Legal(s, steps) && Enabled(Run(s, steps), step)
    ensures Legal(s, steps + [step]) && Run(s, steps + [step]) == Apply(Run(s, steps), step)
    decreases steps
  {
    if steps == [] {
      assert [] + [step] == [step];
      StepKeepsInv(s, step);
      assert [step][1..] == [];
    } else {
      StepKeepsInv(s, steps[0]);
      assert (steps + [step])[0] == steps[0] && (steps + [step])[1..] == steps[1..] + [step];
      LegalAppend(Apply(s, steps[0]), steps[1..], step);
    }
  }

  const PLAIN := Settings(C.HIGH_WATER_MARK, false, false)
  const URGENT_HANGUP := Events(false, true, false, false, true)

  lemma ReachableStepFrom(s0: State, s: State, step: Step)
    requires ReachableFrom(s0, s) && Inv(s) && Enabled(s, step)
    ensures ReachableFrom(s0, Apply(s, step))
  {
    var steps :| Legal(s0, steps) && Run(s0, steps) == s;
    LegalAppend(s0, steps, step);
  }

  lemma ReachableStep(n: nat, s: State, step: Step)
    requires Reachable(n, s) && Shape(s) && Enabled(s, step)
    ensures Reachable(n, Apply(s, step))
  {
    ReachableInv(n, s);
    ReachableStepFrom(Start(n), s, step);
  }

  /** One loop, and connection 1 has been told `notices` and destroyed so often. */
  ghost predicate Solo(s: State, phase: Phase, queue: seq<Task>, notices: seq<bool>, destroyed: nat) {
    && Shape(s)
    && s.loops == [Loop(phase, queue)]
    && 1 in s.conns && s.conns[1].loop == 0
    && s.conns[1].conn.notices == notices && s.conns[1].destroyed == destroyed
    && (|notices| == 1 ==> s.conns[1].conn.state == C.Connected)
    && (|notices| > 1 ==> s.conns[1].conn.state == C.Disconnected)
  }

  function HangUpAt(stage: Stage): Phase {
    Dispatching([R.Report(1, URGENT_HANGUP)], stage)
  }

  lemma StartIsReachable(n: nat)
    requires n > 0
    ensures Reachable(n, Start(n))
  {
    StartInv(n);
    assert Legal(Start(n), []) && Run(Start(n), []) == Start(n);
  }

  lemma AcceptsOne(s: State)
    requires s == Apply(Start(1), PollReturn(0, []))
    ensures Shape(s) && Enabled(s, Accept(0, 5, PLAIN))
    ensures Solo(Apply(s, Accept(0, 5, PLAIN)), Dispatching([], Lock), [], [true], 0)
  {
  }

  lemma GoesIdle(s: State)
    requires Solo(s, Dispatching([], Lock), [], [true], 0)
    ensures Enabled(s, StartTasks(0))
    ensures var d := Apply(s, StartTasks(0));
      Shape(d) && Enabled(d, EndTasks(0)) && Solo(Apply(d, EndTasks(0)), Waiting, [], [true], 0)
  {
  }

  lemma ConnectionUp() returns (s: State)
    ensures Reachable(1, s) && Solo(s, Waiting, [], [true], 0)
  {
    StartIsReachable(1);
    ReachableStep(1, Start(1), PollReturn(0, []));
    var s1 := Apply(Start(1), PollReturn(0, []));
    AcceptsOne(s1);
    ReachableStep(1, s1, Accept(0, 5, PLAIN));
    var s2 := Apply(s1, Accept(0, 5, PLAIN));
    GoesIdle(s2);
    ReachableStep(1, s2, StartTasks(0));
    ReachableStep(1, Apply(s2, StartTasks(0)), EndTasks(0));
    s := Apply(Apply(s2, StartTasks(0)), EndTasks(0));
  }

  lemma HangUpMayBeReported(s: State)
    requires Inv(s) && Solo(s, Waiting, [], [true], 0)
    ensures Enabled(s, PollReturn(0, [R.Report(1, URGENT_HANGUP)]))
  {
    assert PollerOk(s, 0) && EntryOk(s, 1);
    var r := s.pollers[0];
    assert R.Agrees(r, 1);
    var fd := s.conns[1].fd;
    assert s.conns[1].conn.index == Added && s.conns[1].conn.events.pollPri;
    assert r.kernel[fd] == R.Interest(1, s.conns[1].conn.events);
    assert Reportable(URGENT_HANGUP, r.kernel[fd].events);
    assert R.InKernel(r, R.Report(1, URGENT_HANGUP));
  }

  lemma HangUpBegins(s: State)
    requires Inv(s) && Solo(s, Waiting, [], [true], 0)
    requires Enabled(s, PollReturn(0, [R.Report(1, URGENT_HANGUP)]))
    ensures var d := Apply(s, PollReturn(0, [R.Report(1, URGENT_HANGUP)]));
      && Shape(d) && Enabled(d, BeginEvent(0))
      && Solo(Apply(d, BeginEvent(0)), HangUpAt(CloseStage), [], [true], 0)
  {
    assert EntryOk(s, 1);
  }

  lemma CloseOnce(s: State, queue: seq<Task>, conn: C.Conn, doubled: bool)
    requires Shape(s) && |s.loops| == 1 && s.loops[0].queue == queue
    requires 1 in s.conns && s.conns[1].loop == 0 && conn.input.Writable() >= 0
    ensures var d := CloseNow(s, 1, conn, doubled);
      && Shape(d) && d.loops == [Loop(s.loops[0].phase, queue + [DestroyConn(1)])]
      && 1 in d.conns && d.conns[1].loop == 0 && d.conns[1].destroyed == s.conns[1].destroyed
      && d.conns[1].conn == conn
  {
  }

  lemma FirstClose(s: State)
    requires Solo(s, HangUpAt(CloseStage), [], [true], 0)
    ensures Enabled(s, OnClose(0))
    ensures Solo(Apply(s, OnClose(0)), HangUpAt(ReadStage), [DestroyConn(1)], [true, false], 0)
  {
    CloseOnce(s, [], C.HandleClose(s.conns[1].conn), false);
    assert [] + [DestroyConn(1)] == [DestroyConn(1)];
  }

  lemma SecondClose(s: State)
    requires Solo(s, HangUpAt(ReadStage), [DestroyConn(1)], [true, false], 0)
    ensures Enabled(s, OnRead(0, ReadBytes([])))
    ensures Solo(Apply(s, OnRead(0, ReadBytes([]))), HangUpAt(WriteStage),
                 [DestroyConn(1), DestroyConn(1)], [true, false, false], 0)
  {
    CloseOnce(s, [DestroyConn(1)], C.HandleRead(s.conns[1].conn, ReadBytes([])), true);
    assert [DestroyConn(1)] + [DestroyConn(1)] == [DestroyConn(1), DestroyConn(1)];
  }

  lemma TasksBegin(s: State)
    requires Solo(s, HangUpAt(WriteStage), [DestroyConn(1), DestroyConn(1)], [true, false, false], 0)
    ensures Enabled(s, OnWrite(0, Wrote(0)))
    ensures var d := Apply(s, OnWrite(0, Wrote(0)));
      && Shape(d) && Enabled(d, StartTasks(0))
      && Solo(Apply(d, StartTasks(0)), RunningTasks(2, []), [DestroyConn(1), DestroyConn(1)],
              [true, false, false], 0)
  {
  }

  lemma DestroyOnce(s: State, left: nat, done: seq<Task>, rest: seq<Task>, before: nat)
    requires left > 0
    requires Solo(s, RunningTasks(left, done), [DestroyConn(1)] + rest, [true, false, false], before)
    ensures Enabled(s, RunTask(0))
    ensures Solo(Apply(s, RunTask(0)), RunningTasks(left - 1, done + [DestroyConn(1)]), rest,
                 [true, false, false], before + 1)
  {
    assert ([DestroyConn(1)] + rest)[1..] == rest;
    var d := Apply(s, RunTask(0));
    assert d.conns == s.conns[1 := s.conns[1].(conn := C.ConnectDestroyed(s.conns[1].conn),
                                               destroyed := before + 1)];
  }

  lemma ClosedTwice() returns (s: State)
    ensures Reachable(1, s)
    ensures Solo(s, HangUpAt(WriteStage), [DestroyConn(1), DestroyConn(1)], [true, false, false], 0)
  {
    var up := ConnectionUp();
    ReachableInv(1, up);
    HangUpMayBeReported(up);
    HangUpBegins(up);
    var polled := Apply(up, PollReturn(0, [R.Report(1, URGENT_HANGUP)]));
    ReachableStep(1, up, PollReturn(0, [R.Report(1, URGENT_HANGUP)]));
    ReachableStep(1, polled, BeginEvent(0));
    var begun := Apply(polled, BeginEvent(0));
    FirstClose(begun);
    ReachableStep(1, begun, OnClose(0));
    var once := Apply(begun, OnClose(0));
    SecondClose(once);
    ReachableStep(1, once, OnRead(0, ReadBytes([])));
    s := Apply(once, OnRead(0, ReadBytes([])));
  }

  lemma BothPending() returns (s: State)
    ensures Reachable(1, s)
    ensures Solo(s, RunningTasks(2, []), [DestroyConn(1), DestroyConn(1)], [true, false, false], 0)
  {
    var closed := ClosedTwice();
    TasksBegin(closed);
    ReachableStep(1, closed, OnWrite(0, Wrote(0)));
    var done := Apply(closed, OnWrite(0, Wrote(0)));
    ReachableStep(1, done, StartTasks(0));
    s := Apply(done, StartTasks(0));
  }

  /** One loop, one connection, one report of hang-up and urgent data: connectDestroyed runs twice. */
  lemma TeardownCanRunTwice()
    ensures exists d :: Reachable(1, d) && 1 in d.conns && d.conns[1].destroyed == 2
                        && d.conns[1].conn.notices == [true, false, false]
  {
    var s := BothPending();
    assert [DestroyConn(1), DestroyConn(1)] == [DestroyConn(1)] + [DestroyConn(1)];
    DestroyOnce(s, 2, [], [DestroyConn(1)], 0);
    ReachableStep(1, s, RunTask(0));
    var once := Apply(s, RunTask(0));
    assert [DestroyConn(1)] == [DestroyConn(1)] + [];
    DestroyOnce(once, 1, [] + [DestroyConn(1)], [], 1);
    ReachableStep(1, once, RunTask(0));
  }
}
