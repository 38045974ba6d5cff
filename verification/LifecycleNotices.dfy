/** Every high-water and write-complete callback that a connection asks for reaches its loop's queue as
    one functor, and runs once. */
module LifecycleNotices {
  import opened SystemCalls
  import opened Masks
  import R = Registries
  import C = Connections
  import CR = ConnectionRuns
  import opened Lifecycle
  import opened LifecycleInvariant
  import opened LifecycleTheorems
  import opened LifecycleProgress
  import opened LifecycleStreams

  /** The callbacks of `x` that wait in its loop's queue. */
  ghost function Pending(s: State, x: Id): nat {
    if x in s.conns && s.conns[x].loop < |s.loops| then Count(s, s.conns[x].loop, Notify(x)) else 0
  }

  /** The next functor of the batch is a callback of `x`. */
  ghost predicate Runs(s: State, step: Step, x: Id)
    requires Enabled(s, step)
  {
    step.RunTask? && s.loops[step.l].queue[0] == Notify(x)
  }

  ghost function CountRuns(s: State, steps: seq<Step>, x: Id): nat
    requires Inv(s) && Legal(s, steps)
    decreases steps
  {
    if steps == [] then 0
    else
      StepKeepsInv(s, steps[0]);
      (if Runs(s, steps[0], x) then 1 else 0) + CountRuns(Apply(s, steps[0]), steps[1..], x)
  }

  /** From `s` to `d` as many callbacks of `x` were posted as its connection asked for, and `ran` of
      them ran. */
  ghost predicate Balanced(s: State, d: State, x: Id, ran: nat) {
    && Known(s, x) && Known(d, x)
    && Pending(d, x) + ran + |ConnOf(s, x).queued| == Pending(s, x) + |ConnOf(d, x).queued|
  }

  /** One connection has changed and its loop's queue has grown by `tasks`. */
  ghost predicate Grew(s: State, d: State, c: Id, l: nat, tasks: seq<Task>) {
    && c in s.conns && c in d.conns && d.conns == s.conns[c := d.conns[c]] && d.gone == s.gone
    && d.conns[c].loop == s.conns[c].loop
    && l < |s.loops| && d.loops == Post(s, l, tasks).loops
  }

  lemma GrowthBalances(s: State, d: State, c: Id, l: nat, tasks: seq<Task>, x: Id)
    requires Inv(s) && Known(s, x) && Grew(s, d, c, l, tasks)
    requires |d.conns[c].conn.queued| == |s.conns[c].conn.queued| + multiset(tasks)[Notify(c)]
    requires forall t <- tasks :: t.Notify? ==> t.c == c && l == s.conns[c].loop
    ensures Balanced(s, d, x, 0)
  {
    assert Names(s);
    if x in s.conns {
      PostEffect(s, l, tasks, s.conns[x].loop, Notify(x));
      if x != c || l != s.conns[x].loop {
        assert Notify(x) !in tasks;
      }
    }
  }

  lemma NothingBalances(s: State, d: State, x: Id)
    requires Known(s, x) && d.conns == s.conns && d.gone == s.gone && |d.loops| == |s.loops|
    requires forall k :: 0 <= k < |s.loops| ==> d.loops[k].queue == s.loops[k].queue
    ensures Balanced(s, d, x, 0)
  {
  }

  lemma PhaseBalances(s: State, d: State, l: nat, p: Phase, x: Id, ran: nat)
    requires l < |d.loops| && Balanced(s, d, x, ran)
    ensures Balanced(s, SetPhase(d, l, p), x, ran)
  {
  }

  /** An event asks for one callback at most. */
  lemma OneNotice(conn: C.Conn, e: C.Event)
    requires C.Inv(conn) && C.Enabled(conn, e)
    ensures |conn.queued| <= |C.Step(conn, e).queued| <= |conn.queued| + 1
  {
    CR.StepNotifies(conn, e);
  }

  lemma ActGrew(s: State, c: Id, conn: C.Conn)
    requires Inv(s) && c in s.conns
    ensures Grew(s, Act(s, c, conn), c, s.conns[c].loop,
                 if |conn.queued| > |s.conns[c].conn.queued| then [Notify(c)] else [])
    ensures Act(s, c, conn).conns[c].conn == conn
  {
    ActChanges(s, c, conn);
    assert Act(s, c, conn).gone == s.gone;
  }

  lemma ActBalances(s: State, c: Id, e: C.Event, x: Id)
    requires Inv(s) && c in s.conns && C.Enabled(s.conns[c].conn, e) && Known(s, x)
    ensures Balanced(s, Act(s, c, C.Step(s.conns[c].conn, e)), x, 0)
  {
    var conn := C.Step(s.conns[c].conn, e);
    assert EntryOk(s, c);
    OneNotice(s.conns[c].conn, e);
    ActGrew(s, c, conn);
    GrowthBalances(s, Act(s, c, conn), c, s.conns[c].loop,
                   if |conn.queued| > |s.conns[c].conn.queued| then [Notify(c)] else [], x);
  }

  lemma CloseGrew(s: State, c: Id, conn: C.Conn, doubled: bool, r: R.Registry<Id>)
    requires Inv(s) && c in s.conns
    ensures Grew(s, CloseWith(s, c, conn, doubled, r), c, BASE,
                 [if s.conns[c].loop == BASE then DestroyConn(c) else RemoveConn(c)])
    ensures CloseWith(s, c, conn, doubled, r).conns[c].conn == conn
  {
  }

  lemma CloseBalances(s: State, c: Id, conn: C.Conn, doubled: bool, x: Id)
    requires Inv(s) && c in s.conns && conn.queued == s.conns[c].conn.queued && Known(s, x)
    ensures Balanced(s, CloseNow(s, c, conn, doubled), x, 0)
  {
    var r := R.SetEvents(s.pollers[s.conns[c].loop], c, NO_EVENT);
    CloseGrew(s, c, conn, doubled, r);
    GrowthBalances(s, CloseWith(s, c, conn, doubled, r), c, BASE,
                   [if s.conns[c].loop == BASE then DestroyConn(c) else RemoveConn(c)], x);
  }

  // ----- The steps

  lemma CloseStageBalances(s: State, l: nat, x: Id)
    requires Inv(s) && Enabled(s, OnClose(l)) && Known(s, x)
    ensures Balanced(s, CloseStageNow(s, l), x, 0)
  {
    HeadCanDispatch(s, l);
    var p := s.loops[l].phase;
    var c, m := p.active[0].chan, p.active[0].mask;
    if m.pollHup && !m.pollIn {
      var conn := C.HandleClose(s.conns[c].conn);
      CloseBalances(s, c, conn, false, x);
      PhaseBalances(s, CloseNow(s, c, conn, false), l, p.(stage := ReadStage), x, 0);
    } else {
      NothingBalances(s, CloseStageNow(s, l), x);
    }
  }

  lemma ReadEndBalances(s: State, l: nat, doubled: bool, x: Id)
    requires Inv(s) && AtHead(s, l) && Known(s, x)
    ensures var p := s.loops[l].phase; var c := p.active[0].chan;
      && c in s.conns
      && Balanced(s, SetPhase(CloseNow(s, c, C.HandleRead(s.conns[c].conn, ReadBytes([])), doubled), l,
                              p.(stage := WriteStage)), x, 0)
  {
    HeadCanDispatch(s, l);
    var p := s.loops[l].phase;
    var c := p.active[0].chan;
    var conn := C.HandleRead(s.conns[c].conn, ReadBytes([]));
    CloseBalances(s, c, conn, doubled, x);
    PhaseBalances(s, CloseNow(s, c, conn, doubled), l, p.(stage := WriteStage), x, 0);
  }

  lemma ReadSomeBalances(s: State, l: nat, read: ReadOutcome, x: Id)
    requires Inv(s) && AtHead(s, l) && Known(s, x)
    ensures var p := s.loops[l].phase; var c := p.active[0].chan;
      && c in s.conns
      && Balanced(s, SetPhase(Act(s, c, C.HandleRead(s.conns[c].conn, read)), l, p.(stage := WriteStage)),
                  x, 0)
  {
    HeadCanDispatch(s, l);
    var p := s.loops[l].phase;
    var c := p.active[0].chan;
    ActBalances(s, c, C.Readable(read), x);
    PhaseBalances(s, Act(s, c, C.HandleRead(s.conns[c].conn, read)), l, p.(stage := WriteStage), x, 0);
  }

  lemma ReadStageBalances(s: State, l: nat, read: ReadOutcome, x: Id)
    requires Inv(s) && Enabled(s, OnRead(l, read)) && Known(s, x)
    ensures Balanced(s, ReadStageNow(s, l, read), x, 0)
  {
    HeadCanDispatch(s, l);
    var m := s.loops[l].phase.active[0].mask;
    if !(m.pollIn || m.pollPri) {
      NothingBalances(s, ReadStageNow(s, l, read), x);
    } else if read == ReadBytes([]) {
      ReadEndBalances(s, l, m.pollHup && m.pollPri && !m.pollIn, x);
    } else {
      ReadSomeBalances(s, l, read, x);
    }
  }

  lemma WriteStageBalances(s: State, l: nat, write: WriteOutcome, x: Id)
    requires Inv(s) && Enabled(s, OnWrite(l, write)) && Known(s, x)
    ensures Balanced(s, WriteStageNow(s, l, write), x, 0)
  {
    HeadCanDispatch(s, l);
    var p := s.loops[l].phase;
    var c := p.active[0].chan;
    if p.active[0].mask.pollOut {
      ActBalances(s, c, C.Writable(write), x);
      PhaseBalances(s, Act(s, c, C.HandleWrite(s.conns[c].conn, write)), l, Dispatching(p.active[1..], Lock), x, 0);
    } else {
      NothingBalances(s, WriteStageNow(s, l, write), x);
    }
  }

  lemma PopBalances(s: State, l: nat, x: Id)
    requires Inv(s) && Enabled(s, RunTask(l)) && Known(s, x)
    ensures Balanced(s, Pop(s, l), x, if s.loops[l].queue[0] == Notify(x) then 1 else 0)
  {
    var t := s.loops[l].queue[0];
    assert TasksOk(s, l);
    assert TaskOk(s, l, t);
    assert Names(s);
    if x in s.conns {
      PopCount(s, l, s.conns[x].loop, Notify(x));
    }
  }

  lemma RunOneBalances(s: State, p: State, t: Task, x: Id, ran: nat)
    requires Balanced(s, p, x, ran) && Shape(p) && t.c in p.conns
    ensures Balanced(s, RunOne(p, t), x, ran)
  {
    RunOneKeeps(p, t);
    TaskChanges(p, t);
    if x in p.conns && t.RemoveConn? {
      PostEffect(p, p.conns[t.c].loop, [DestroyConn(t.c)], p.conns[x].loop, Notify(x));
    }
  }

  lemma RunTaskBalances(s: State, l: nat, x: Id)
    requires Inv(s) && Enabled(s, RunTask(l)) && Known(s, x)
    ensures Balanced(s, RunOne(Pop(s, l), s.loops[l].queue[0]), x,
                     if Runs(s, RunTask(l), x) then 1 else 0)
  {
    HeadTaskRuns(s, l);
    PopShape(s, l);
    PopBalances(s, l, x);
    RunOneBalances(s, Pop(s, l), s.loops[l].queue[0], x, if Runs(s, RunTask(l), x) then 1 else 0);
  }

  lemma GoneBalances(s: State, d: State, c: Id, x: Id)
    requires c in s.conns && c !in s.gone && s.conns[c].loop < |s.loops| && Known(s, x)
    requires Count(s, s.conns[c].loop, Notify(c)) == 0
    requires d.loops == s.loops && d.conns == s.conns - {c} && d.gone == s.gone[c := s.conns[c]]
    ensures Balanced(s, d, x, 0)
  {
  }

  lemma FreeBalances(s: State, d: State, c: Id, x: Id)
    requires Inv(s) && Enabled(s, Free(c)) && Known(s, x)
    requires d.loops == s.loops && d.conns == s.conns - {c} && d.gone == s.gone[c := s.conns[c]]
    ensures Balanced(s, d, x, 0)
  {
    assert Names(s);
    UnheldIsDone(s, c);
    NobodyRefers(s, c, s.conns[c].loop, Notify(c));
    GoneBalances(s, d, c, x);
  }

  lemma UserBalances(s: State, step: Step, x: Id)
    requires Inv(s) && Enabled(s, step) && IsUser(step) && Known(s, x)
    ensures Balanced(s, Apply(s, step), x, 0)
  {
    ActBalances(s, step.user, ByUser(step)[0], x);
  }

  lemma BeginBalances(s: State, l: nat, x: Id)
    requires Inv(s) && Enabled(s, BeginEvent(l)) && Known(s, x)
    ensures Balanced(s, BeginNow(s, l), x, 0)
  {
    HeadCanDispatch(s, l);
    BeginMoves(s, l);
    NothingBalances(s, BeginNow(s, l), x);
  }

  lemma SamePhaseBalances(s: State, l: nat, p: Phase, x: Id)
    requires l < |s.loops| && Known(s, x)
    ensures Balanced(s, SetPhase(s, l, p), x, 0)
  {
  }

  lemma KeepBalances(s: State, kept: set<Id>, x: Id)
    requires Known(s, x)
    ensures Balanced(s, Keep(s, kept), x, 0)
  {
  }

  lemma PhaseStepBalances(s: State, step: Step, x: Id)
    requires Shape(s) && Enabled(s, step) && Known(s, x)
    requires step.PollReturn? || step.StartTasks? || step.EndTasks?
    ensures Balanced(s, Apply(s, step), x, 0)
  {
    match step
    case PollReturn(l, reports) => SamePhaseBalances(s, l, Dispatching(reports, Lock), x);
    case StartTasks(l) => SamePhaseBalances(s, l, RunningTasks(|s.loops[l].queue|, []), x);
    case EndTasks(l) => SamePhaseBalances(s, l, Waiting, x);
  }

  lemma ReferenceBalances(s: State, step: Step, x: Id)
    requires Shape(s) && Enabled(s, step) && Known(s, x) && (step.UserKeep? || step.UserDrop?)
    ensures Balanced(s, Apply(s, step), x, 0)
  {
    match step
    case UserKeep(c) => KeepBalances(s, s.kept + {c}, x);
    case UserDrop(c) => KeepBalances(s, s.kept - {c}, x);
  }

  lemma EventBalances(s: State, step: Step, x: Id)
    requires Inv(s) && Enabled(s, step) && Known(s, x) && (step.OnClose? || step.OnRead? || step.OnWrite?)
    ensures Balanced(s, Apply(s, step), x, 0)
  {
    match step
    case OnClose(l) => CloseStageBalances(s, l, x);
    case OnRead(l, read) => ReadStageBalances(s, l, read, x);
    case OnWrite(l, write) => WriteStageBalances(s, l, write, x);
  }

  /** Every step but an accept keeps the account of every connection. */
  lemma StepBalances(s: State, step: Step, x: Id)
    requires Inv(s) && Enabled(s, step) && !step.Accept? && Known(s, x)
    ensures Balanced(s, Apply(s, step), x, if Runs(s, step, x) then 1 else 0)
  {
    if step.OnClose? || step.OnRead? || step.OnWrite? {
      EventBalances(s, step, x);
    } else if step.RunTask? {
      RunTaskBalances(s, step.l, x);
    } else if step.Free? {
      FreeBalances(s, Apply(s, step), step.victim, x);
    } else if step.BeginEvent? {
      BeginBalances(s, step.l, x);
    } else if IsUser(step) {
      UserBalances(s, step, x);
    } else if step.UserKeep? || step.UserDrop? {
      ReferenceBalances(s, step, x);
    } else {
      PhaseStepBalances(s, step, x);
    }
  }

  // ----- Accepting

  lemma AcceptPosts(s: State, io: nat, fd: int, settings: Settings)
    requires Shape(s) && io < |s.loops| && s.nextId !in s.conns
    ensures var d := AcceptNow(s, io, fd, settings); var c := s.nextId;
      && c in d.conns && d.conns == s.conns[c := d.conns[c]] && d.gone == s.gone && d.conns[c].loop == io
      && d.conns[c].conn.queued == []
      && d.loops == if io == BASE then s.loops else Post(s, io, [Establish(c)]).loops
  {
  }

  lemma NobodyQueued(s: State, c: Id, k: nat)
    requires Inv(s) && c !in s.conns && k < |s.loops|
    ensures Count(s, k, Notify(c)) == 0
  {
    assert TasksOk(s, k);
    forall i | 0 <= i < |s.loops[k].queue|
      ensures s.loops[k].queue[i].c != c
    {
      assert TaskOk(s, k, s.loops[k].queue[i]);
    }
    NobodyRefers(s, c, k, Notify(c));
  }

  /** A new connection has asked for nothing, and nothing is queued for it but its establishing. */
  lemma NewBalances(s: State, d: State, io: nat)
    requires Inv(s) && io < |s.loops| && s.nextId !in s.conns && s.nextId in d.conns
    requires d.conns[s.nextId].loop == io
    requires d.loops == if io == BASE then s.loops else Post(s, io, [Establish(s.nextId)]).loops
    ensures Pending(d, s.nextId) == 0
  {
    NobodyQueued(s, s.nextId, io);
    PostEffect(s, io, [Establish(s.nextId)], io, Notify(s.nextId));
  }

  lemma OldBalances(s: State, d: State, io: nat, c: Id, x: Id)
    requires io < |s.loops| && !Known(s, c) && c in d.conns && Known(s, x)
    requires d.conns == s.conns[c := d.conns[c]] && d.gone == s.gone
    requires d.loops == if io == BASE then s.loops else Post(s, io, [Establish(c)]).loops
    ensures Balanced(s, d, x, 0)
  {
    if x in s.conns && s.conns[x].loop < |s.loops| {
      PostEffect(s, io, [Establish(c)], s.conns[x].loop, Notify(x));
    }
  }

  lemma AcceptBalances(s: State, step: Step, x: Id)
    requires Inv(s) && Enabled(s, step) && step.Accept? && Known(Apply(s, step), x)
    ensures var d := Apply(s, step);
      if Known(s, x) then Balanced(s, d, x, 0) else Pending(d, x) == 0 && ConnOf(d, x).queued == []
  {
    assert Names(s);
    AcceptPosts(s, step.io, step.fd, step.settings);
    if Known(s, x) {
      OldBalances(s, Apply(s, step), step.io, s.nextId, x);
    } else {
      NewBalances(s, Apply(s, step), step.io);
    }
  }

  // ----- Whole runs

  lemma NoRunsUnknown(s: State, step: Step, x: Id)
    requires Inv(s) && Enabled(s, step) && Runs(s, step, x)
    ensures Known(s, x)
  {
    assert TasksOk(s, step.l);
    assert TaskOk(s, step.l, s.loops[step.l].queue[0]);
  }

  /** The account over one step, for connections that are there before it and those that are not. */
  lemma OneStep(s: State, step: Step, x: Id)
    requires Inv(s) && Enabled(s, step) && Known(Apply(s, step), x)
    ensures var d := Apply(s, step); var ran := if Runs(s, step, x) then 1 else 0;
      if Known(s, x) then Balanced(s, d, x, ran)
      else ran == 0 && Pending(d, x) == 0 && ConnOf(d, x).queued == []
  {
    if Runs(s, step, x) {
      NoRunsUnknown(s, step, x);
    }
    if step.Accept? {
      AcceptBalances(s, step, x);
    } else {
      StepSimulates(s, step);
      StepBalances(s, step, x);
    }
  }

  /** What `x` owes at the start of a run: callbacks asked for and not in the queue. */
  ghost function Asked(s: State, x: Id): int {
    if Known(s, x) then |ConnOf(s, x).queued| - Pending(s, x) else 0
  }

  lemma FirstOfRun(s: State, steps: seq<Step>, x: Id) returns (m: State, ran: nat)
    requires Inv(s) && Legal(s, steps) && steps != [] && Known(Run(s, steps), x)
    ensures Inv(m) && Legal(m, steps[1..]) && Run(s, steps) == Run(m, steps[1..])
    ensures CountRuns(s, steps, x) == ran + CountRuns(m, steps[1..], x)
    ensures Asked(m, x) == Asked(s, x) + ran
  {
    StepKeepsInv(s, steps[0]);
    m := Apply(s, steps[0]);
    ran := if Runs(s, steps[0], x) then 1 else 0;
    if Known(m, x) {
      OneStep(s, steps[0], x);
    } else {
      if Known(s, x) {
        KnownMoves(s, steps[0], x);
      }
      if ran == 1 {
        NoRunsUnknown(s, steps[0], x);
      }
    }
  }

  lemma {:induction false} RunBalances(s: State, steps: seq<Step>, x: Id, d: State)
    requires Inv(s) && Legal(s, steps) && d == Run(s, steps) && Known(d, x)
    ensures Asked(d, x) == Asked(s, x) + CountRuns(s, steps, x)
    decreases steps
  {
    if steps != [] {
      var m, ran := FirstOfRun(s, steps, x);
      RunBalances(m, steps[1..], x, d);
    }
  }

  /** In every run of the server, the callbacks that a connection has asked for are those that have run
      and those that wait in its loop's queue: none is lost and none runs twice. */
  lemma CallbacksRunOnce(n: nat, steps: seq<Step>, x: Id)
    requires n > 0 && Inv(Start(n)) && Legal(Start(n), steps) && Known(Run(Start(n), steps), x)
    ensures var d := Run(Start(n), steps);
      |ConnOf(d, x).queued| == CountRuns(Start(n), steps, x) + Pending(d, x)
  {
    RunBalances(Start(n), steps, x, Run(Start(n), steps));
  }
}
