/** A closed connection can always come to be freed: from every reachable state the loops can finish
    what they are at, work off what is queued for the connection, and drop the last reference. */
module LifecycleProgress {
  import opened SystemCalls
  import opened Masks
  import R = Registries
  import C = Connections
  import opened Lifecycle
  import opened LifecycleInvariant
  import opened LifecycleTheorems

  lemma FromInv(s0: State, s: State)
    requires ReachableFrom(s0, s)
    ensures Inv(s)
  {
    var steps :| Legal(s0, steps) && Run(s0, steps) == s;
  }

  // ----- What a step of one loop leaves alone

  ghost predicate SamePhases(s: State, d: State) {
    && |d.loops| == |s.loops|
    && forall k :: 0 <= k < |s.loops| ==> d.loops[k].phase == s.loops[k].phase
  }

  /** No connection goes, moves to another loop or is un-closed, and the user does nothing. */
  ghost predicate Keeps(s: State, d: State) {
    && d.kept == s.kept
    && forall c :: c in s.conns ==>
      && c in d.conns && d.conns[c].loop == s.conns[c].loop
      && d.conns[c].conn.closeCalls >= s.conns[c].conn.closeCalls
  }

  /** From `s` to `d` only loop `l` has run. */
  ghost predicate Goes(s: State, d: State, l: nat) {
    && |d.loops| == |s.loops| && Keeps(s, d)
    && forall k :: 0 <= k < |s.loops| && k != l ==> d.loops[k].phase == s.loops[k].phase
  }

  lemma GoesOn(s: State, m: State, d: State, l: nat)
    requires Goes(s, m, l) && Goes(m, d, l)
    ensures Goes(s, d, l)
  {
  }

  lemma ActKeeps(s: State, c: Id, conn: C.Conn)
    requires Shape(s) && c in s.conns && conn.closeCalls >= s.conns[c].conn.closeCalls
    ensures SamePhases(s, Act(s, c, conn)) && Keeps(s, Act(s, c, conn))
  {
    assert Act(s, c, conn).conns == s.conns[c := s.conns[c].(conn := conn)];
  }

  lemma CloseWithKeeps(s: State, c: Id, conn: C.Conn, doubled: bool, r: R.Registry<Id>)
    requires |s.loops| == |s.pollers| > 0 && c in s.conns && s.conns[c].loop < |s.pollers|
    requires conn.closeCalls >= s.conns[c].conn.closeCalls
    ensures var d := CloseWith(s, c, conn, doubled, r); SamePhases(s, d) && Keeps(s, d)
  {
  }

  lemma CloseKeeps(s: State, c: Id, conn: C.Conn, doubled: bool)
    requires Shape(s) && c in s.conns && conn.closeCalls >= s.conns[c].conn.closeCalls
    ensures SamePhases(s, CloseNow(s, c, conn, doubled)) && Keeps(s, CloseNow(s, c, conn, doubled))
  {
    CloseWithKeeps(s, c, conn, doubled, R.SetEvents(s.pollers[s.conns[c].loop], c, NO_EVENT));
  }

  // ----- Finishing a dispatch

  lemma SettingPhaseGoes(s: State, m: State, l: nat, p: Phase)
    requires l < |s.loops| && SamePhases(s, m) && Keeps(s, m)
    ensures Goes(s, SetPhase(m, l, p), l) && SetPhase(m, l, p).loops[l].phase == p
  {
  }

  lemma HeadIsAlive(s: State, l: nat)
    requires Inv(s) && AtHead(s, l)
    ensures var c := s.loops[l].phase.active[0].chan; c in s.conns
    ensures var c := s.loops[l].phase.active[0].chan; s.loops[l].phase.stage == Lock ==> Held(s, c)
  {
    assert PhaseOk(s, l);
    assert Reported(s, l, s.loops[l].phase.active[0].chan);
    if s.loops[l].phase.stage == Lock {
      OwnedWhileRegistered(s, s.loops[l].phase.active[0].chan);
    }
  }

  lemma BeginGoes(s: State, l: nat)
    requires Inv(s) && AtStage(s, l, Lock)
    ensures Goes(s, BeginNow(s, l), l)
    ensures BeginNow(s, l).loops[l].phase == Dispatching(s.loops[l].phase.active, CloseStage)
  {
    HeadIsAlive(s, l);
    SettingPhaseGoes(s, s, l, s.loops[l].phase.(stage := CloseStage));
  }

  lemma CloseStageGoes(s: State, l: nat)
    requires Inv(s) && AtStage(s, l, CloseStage)
    ensures Goes(s, CloseStageNow(s, l), l)
    ensures CloseStageNow(s, l).loops[l].phase == Dispatching(s.loops[l].phase.active, ReadStage)
  {
    HeadIsAlive(s, l);
    var p := s.loops[l].phase;
    var c, m := p.active[0].chan, p.active[0].mask;
    var d := s;
    if m.pollHup && !m.pollIn {
      CloseKeeps(s, c, C.HandleClose(s.conns[c].conn), false);
      d := CloseNow(s, c, C.HandleClose(s.conns[c].conn), false);
    }
    SettingPhaseGoes(s, d, l, p.(stage := ReadStage));
  }

  lemma AnyReadGoes(s: State, l: nat, read: ReadOutcome)
    requires Inv(s) && AtStage(s, l, ReadStage)
    ensures Goes(s, ReadStageNow(s, l, read), l)
    ensures ReadStageNow(s, l, read).loops[l].phase == Dispatching(s.loops[l].phase.active, WriteStage)
  {
    HeadIsAlive(s, l);
    var p := s.loops[l].phase;
    var c, m := p.active[0].chan, p.active[0].mask;
    var d := s;
    if m.pollIn || m.pollPri {
      var conn := C.HandleRead(s.conns[c].conn, read);
      if read == ReadBytes([]) {
        CloseKeeps(s, c, conn, m.pollHup && m.pollPri && !m.pollIn);
        d := CloseNow(s, c, conn, m.pollHup && m.pollPri && !m.pollIn);
      } else {
        ActKeeps(s, c, conn);
        d := Act(s, c, conn);
      }
    }
    SettingPhaseGoes(s, d, l, p.(stage := WriteStage));
  }

  lemma AnyWriteGoes(s: State, l: nat, write: WriteOutcome)
    requires Inv(s) && Enabled(s, OnWrite(l, write))
    ensures Goes(s, WriteStageNow(s, l, write), l)
    ensures WriteStageNow(s, l, write).loops[l].phase == Dispatching(s.loops[l].phase.active[1..], Lock)
  {
    HeadIsAlive(s, l);
    var p := s.loops[l].phase;
    var c := p.active[0].chan;
    var d := s;
    if p.active[0].mask.pollOut {
      ActKeeps(s, c, C.HandleWrite(s.conns[c].conn, write));
      d := Act(s, c, C.HandleWrite(s.conns[c].conn, write));
    }
    SettingPhaseGoes(s, d, l, Dispatching(p.active[1..], Lock));
  }

  const NO_READ := ReadFailed(OtherErrno)
  const NO_WRITE := WriteFailed(OtherErrno)

  function StagesLeft(stage: Stage): nat {
    match stage
    case Lock => 4
    case CloseStage => 3
    case ReadStage => 2
    case WriteStage => 1
  }

  /** Where the loop is after one more stage. */
  function NextPhase(active: seq<R.Report<Id>>, stage: Stage): Phase
    requires active != []
  {
    match stage
    case Lock => Dispatching(active, CloseStage)
    case CloseStage => Dispatching(active, ReadStage)
    case ReadStage => Dispatching(active, WriteStage)
    case WriteStage => Dispatching(active[1..], Lock)
  }

  /** The step of a stage in which the kernel has nothing to read and takes nothing. */
  function StageStep(l: nat, stage: Stage): Step {
    match stage
    case Lock => BeginEvent(l)
    case CloseStage => OnClose(l)
    case ReadStage => OnRead(l, NO_READ)
    case WriteStage => OnWrite(l, NO_WRITE)
  }

  lemma StageGoes(s: State, l: nat)
    requires Inv(s) && AtHead(s, l)
    ensures var p := s.loops[l].phase; var step := StageStep(l, p.stage);
      && Enabled(s, step) && Goes(s, Apply(s, step), l)
      && Apply(s, step).loops[l].phase == NextPhase(p.active, p.stage)
  {
    match s.loops[l].phase.stage
    case Lock => BeginGoes(s, l);
    case CloseStage => CloseStageGoes(s, l);
    case ReadStage => AnyReadGoes(s, l, NO_READ);
    case WriteStage => AnyWriteGoes(s, l, NO_WRITE);
  }

  lemma PassStage(s0: State, s: State, l: nat) returns (d: State)
    requires ReachableFrom(s0, s) && AtHead(s, l)
    ensures ReachableFrom(s0, d) && Goes(s, d, l) && Shape(d)
    ensures d.loops[l].phase == NextPhase(s.loops[l].phase.active, s.loops[l].phase.stage)
  {
    FromInv(s0, s);
    var step := StageStep(l, s.loops[l].phase.stage);
    StageGoes(s, l);
    ReachableStepFrom(s0, s, step);
    d := Apply(s, step);
    FromInv(s0, d);
  }

  lemma {:induction false} FinishHead(s0: State, s: State, l: nat) returns (d: State)
    requires ReachableFrom(s0, s) && AtHead(s, l)
    ensures ReachableFrom(s0, d) && Goes(s, d, l)
    ensures d.loops[l].phase == Dispatching(s.loops[l].phase.active[1..], Lock)
    decreases StagesLeft(s.loops[l].phase.stage)
  {
    d := PassStage(s0, s, l);
    if s.loops[l].phase.stage != WriteStage {
      var m := d;
      d := FinishHead(s0, m, l);
      GoesOn(s, m, d, l);
    }
  }

  lemma {:induction false} FinishDispatch(s0: State, s: State, l: nat) returns (d: State)
    requires ReachableFrom(s0, s) && l < |s.loops| && s.loops[l].phase.Dispatching?
    ensures ReachableFrom(s0, d) && Goes(s, d, l)
    ensures d.loops[l].phase.Dispatching? && d.loops[l].phase.active == []
    decreases |s.loops[l].phase.active|
  {
    FromInv(s0, s);
    if s.loops[l].phase.active == [] {
      d := s;
    } else {
      var m := FinishHead(s0, s, l);
      d := FinishDispatch(s0, m, l);
      GoesOn(s, m, d, l);
    }
  }

  // ----- Finishing a batch

  /** A queue that has lost its first `taken` functors and gained connectDestroyed functors; `quiet`
      ones gained none. */
  ghost predicate QueueAfter(a: seq<Task>, b: seq<Task>, taken: nat, quiet: bool) {
    && taken <= |a| <= |b| + taken
    && (forall i :: 0 <= i < |a| - taken ==> b[i] == a[taken + i])
    && (forall i :: |a| - taken <= i < |b| ==> b[i].DestroyConn?)
    && (quiet ==> |b| + taken == |a|)
  }

  predicate Quiet(q: seq<Task>) {
    forall i :: 0 <= i < |q| ==> !q[i].RemoveConn?
  }

  ghost predicate QueuesAfter(s: State, d: State, l: nat, taken: nat, quiet: bool) {
    && |d.loops| == |s.loops|
    && forall k :: 0 <= k < |s.loops| ==>
         QueueAfter(s.loops[k].queue, d.loops[k].queue, if k == l then taken else 0, quiet)
  }

  lemma QueueGoesOn(a: seq<Task>, b: seq<Task>, c: seq<Task>, t: nat, u: nat, quiet: bool)
    requires QueueAfter(a, b, t, quiet) && QueueAfter(b, c, u, quiet) && t + u <= |a|
    ensures QueueAfter(a, c, t + u, quiet)
  {
    forall i | 0 <= i < |c|
      ensures if i < |a| - (t + u) then c[i] == a[t + u + i] else c[i].DestroyConn?
    {
      if i < |b| - u {
        assert c[i] == b[u + i];
      }
    }
  }

  lemma QueuesGoOn(s: State, m: State, d: State, l: nat, t: nat, u: nat, quiet: bool)
    requires l < |s.loops| && QueuesAfter(s, m, l, t, quiet) && QueuesAfter(m, d, l, u, quiet)
    requires t + u <= |s.loops[l].queue|
    ensures QueuesAfter(s, d, l, t + u, quiet)
  {
    forall k | 0 <= k < |s.loops|
      ensures QueueAfter(s.loops[k].queue, d.loops[k].queue, if k == l then t + u else 0, quiet)
    {
      assert QueueAfter(s.loops[k].queue, m.loops[k].queue, if k == l then t else 0, quiet);
      assert QueueAfter(m.loops[k].queue, d.loops[k].queue, if k == l then u else 0, quiet);
      QueueGoesOn(s.loops[k].queue, m.loops[k].queue, d.loops[k].queue, if k == l then t else 0,
                  if k == l then u else 0, quiet);
    }
  }

  lemma EntryKeeps(s: State, d: State, c: Id)
    requires d.kept == s.kept && c in s.conns && c in d.conns && d.conns == s.conns[c := d.conns[c]]
    requires d.conns[c].loop == s.conns[c].loop
    requires d.conns[c].conn.closeCalls >= s.conns[c].conn.closeCalls
    ensures Keeps(s, d)
  {
  }

  /** What one functor does to the queues: a removal posts one connectDestroyed, others nothing. */
  lemma RunOneKeeps(s: State, t: Task)
    requires Shape(s) && t.c in s.conns
    ensures var d := RunOne(s, t);
      && SamePhases(s, d) && Keeps(s, d)
      && d.loops == if t.RemoveConn? then Post(s, s.conns[t.c].loop, [DestroyConn(t.c)]).loops else s.loops
  {
    var d := RunOne(s, t);
    if !t.Notify? {
      EntryKeeps(s, d, t.c);
    }
  }

  lemma PopGoes(s: State, l: nat)
    requires Shape(s) && Enabled(s, RunTask(l))
    ensures var p := Pop(s, l);
      && Shape(p) && p.conns == s.conns && p.kept == s.kept && |p.loops| == |s.loops|
      && Goes(s, p, l) && QueuesAfter(s, p, l, 1, true)
  {
  }

  lemma OnePosted(s: State, p: State, d: State, l: nat, t: Task)
    requires QueuesAfter(s, p, l, 1, true) && l < |s.loops|
    requires t.RemoveConn? ==> t.c in p.conns && p.conns[t.c].loop < |p.loops|
    requires d.loops == if t.RemoveConn? then Post(p, p.conns[t.c].loop, [DestroyConn(t.c)]).loops else p.loops
    ensures QueuesAfter(s, d, l, 1, !t.RemoveConn?)
  {
    forall k | 0 <= k < |s.loops|
      ensures QueueAfter(s.loops[k].queue, d.loops[k].queue, if k == l then 1 else 0, !t.RemoveConn?)
    {
      assert QueueAfter(s.loops[k].queue, p.loops[k].queue, if k == l then 1 else 0, true);
    }
  }

  lemma PhasesGo(s: State, p: State, d: State, l: nat)
    requires Goes(s, p, l) && SamePhases(p, d) && Keeps(p, d)
    ensures Goes(s, d, l)
  {
  }

  /** The functor taken from the queue runs. */
  lemma PoppedGoes(s: State, p: State, l: nat, t: Task)
    requires Goes(s, p, l) && QueuesAfter(s, p, l, 1, true) && l < |s.loops|
    requires Shape(p) && t.c in p.conns
    ensures var d := RunOne(p, t);
      Goes(s, d, l) && QueuesAfter(s, d, l, 1, !t.RemoveConn?) && d.loops[l].phase == p.loops[l].phase
  {
    RunOneKeeps(p, t);
    OnePosted(s, p, RunOne(p, t), l, t);
    PhasesGo(s, p, RunOne(p, t), l);
  }

  lemma QueuedIsAlive(s: State, l: nat, i: nat)
    requires AllTasksOk(s) && l < |s.loops| && i < |s.loops[l].queue|
    ensures s.loops[l].queue[i].c in s.conns
  {
    assert TasksOk(s, l);
    assert TaskOk(s, l, s.loops[l].queue[i]);
  }

  lemma RunTaskGoes(s: State, l: nat)
    requires Inv(s) && Enabled(s, RunTask(l))
    ensures var d := RunOne(Pop(s, l), s.loops[l].queue[0]); var p := s.loops[l].phase;
      && Goes(s, d, l) && d.loops[l].phase == RunningTasks(p.left - 1, p.done + [s.loops[l].queue[0]])
      && QueuesAfter(s, d, l, 1, !s.loops[l].queue[0].RemoveConn?)
  {
    QueuedIsAlive(s, l, 0);
    PopGoes(s, l);
    PoppedGoes(s, Pop(s, l), l, s.loops[l].queue[0]);
  }

  /** A batch is running; in a quiet one no removal is left. */
  ghost predicate InBatch(s: State, l: nat, quiet: bool) {
    && l < |s.loops| && s.loops[l].phase.RunningTasks?
    && s.loops[l].phase.left <= |s.loops[l].queue|
    && (quiet ==> Quiet(s.loops[l].queue[..s.loops[l].phase.left]))
  }

  lemma QuietRest(q: seq<Task>, rest: seq<Task>, left: nat)
    requires 0 < left <= |q| && QueueAfter(q, rest, 1, true) && Quiet(q[..left])
    ensures left - 1 <= |rest| && Quiet(rest[..left - 1])
  {
    var a, b := q[..left], rest[..left - 1];
    forall i | 0 <= i < |b|
      ensures !b[i].RemoveConn?
    {
      assert b[i] == rest[i] == q[1 + i] == a[i + 1];
    }
  }

  lemma StillInBatch(s: State, d: State, l: nat, quiet: bool)
    requires InBatch(s, l, quiet) && s.loops[l].phase.left > 0 && |d.loops| == |s.loops|
    requires d.loops[l].phase.RunningTasks? && d.loops[l].phase.left == s.loops[l].phase.left - 1
    requires QueuesAfter(s, d, l, 1, !s.loops[l].queue[0].RemoveConn?)
    ensures InBatch(d, l, quiet) && QueuesAfter(s, d, l, 1, quiet)
  {
    var q, left := s.loops[l].queue, s.loops[l].phase.left;
    assert QueueAfter(q, d.loops[l].queue, 1, !q[0].RemoveConn?);
    if quiet {
      assert q[..left][0] == q[0];
      QuietRest(q, d.loops[l].queue, left);
    }
  }

  /** One functor runs. */
  lemma PassTask(s0: State, s: State, l: nat) returns (d: State)
    requires ReachableFrom(s0, s) && InBatch(s, l, false) && s.loops[l].phase.left > 0
    ensures ReachableFrom(s0, d) && Goes(s, d, l)
    ensures QueuesAfter(s, d, l, 1, !s.loops[l].queue[0].RemoveConn?)
    ensures d.loops[l].phase.RunningTasks? && d.loops[l].phase.left == s.loops[l].phase.left - 1
  {
    FromInv(s0, s);
    RunTaskGoes(s, l);
    ReachableStepFrom(s0, s, RunTask(l));
    d := RunOne(Pop(s, l), s.loops[l].queue[0]);
  }

  lemma BatchGoesOn(s: State, m: State, d: State, l: nat, left: nat, quiet: bool)
    requires l < |s.loops| && left <= |s.loops[l].queue| && left > 0
    requires Goes(s, m, l) && QueuesAfter(s, m, l, 1, quiet)
    requires Goes(m, d, l) && QueuesAfter(m, d, l, left - 1, quiet)
    ensures Goes(s, d, l) && QueuesAfter(s, d, l, left, quiet)
  {
    GoesOn(s, m, d, l);
    QueuesGoOn(s, m, d, l, 1, left - 1, quiet);
  }

  lemma NothingTaken(s: State, l: nat, quiet: bool)
    ensures Goes(s, s, l) && QueuesAfter(s, s, l, 0, quiet)
  {
  }

  /** From `s` to `d` loop `l` has finished its batch. */
  ghost predicate Finished(s: State, d: State, l: nat, quiet: bool) {
    && l < |s.loops| && s.loops[l].phase.RunningTasks? && Goes(s, d, l)
    && d.loops[l].phase.RunningTasks? && d.loops[l].phase.left == 0
    && QueuesAfter(s, d, l, s.loops[l].phase.left, quiet)
  }

  lemma FinishedLater(s: State, m: State, d: State, l: nat, quiet: bool)
    requires InBatch(s, l, quiet) && s.loops[l].phase.left > 0 && Finished(m, d, l, quiet)
    requires Goes(s, m, l) && QueuesAfter(s, m, l, 1, quiet)
    requires m.loops[l].phase.left == s.loops[l].phase.left - 1
    ensures Finished(s, d, l, quiet)
  {
    BatchGoesOn(s, m, d, l, s.loops[l].phase.left, quiet);
  }

  lemma {:induction false} FinishTasks(s0: State, s: State, l: nat, quiet: bool) returns (d: State)
    requires ReachableFrom(s0, s) && InBatch(s, l, quiet)
    ensures ReachableFrom(s0, d) && Finished(s, d, l, quiet)
    decreases s.loops[l].phase.left
  {
    if s.loops[l].phase.left == 0 {
      NothingTaken(s, l, quiet);
      d := s;
    } else {
      var m := PassTask(s0, s, l);
      StillInBatch(s, m, l, quiet);
      d := FinishTasks(s0, m, l, quiet);
      FinishedLater(s, m, d, l, quiet);
    }
  }

  // ----- Whole iterations

  lemma PhaseOnly(s: State, l: nat, p: Phase)
    requires l < |s.loops|
    ensures Goes(s, SetPhase(s, l, p), l) && QueuesAfter(s, SetPhase(s, l, p), l, 0, true)
  {
  }

  /** A loop without active channels starts its batch, runs it and goes back to poll. */
  lemma FinishIteration(s0: State, s: State, l: nat, quiet: bool) returns (d: State)
    requires ReachableFrom(s0, s) && l < |s.loops|
    requires s.loops[l].phase.Dispatching? && s.loops[l].phase.active == []
    requires quiet ==> Quiet(s.loops[l].queue)
    ensures ReachableFrom(s0, d) && Goes(s, d, l) && d.loops[l].phase == Waiting
    ensures QueuesAfter(s, d, l, |s.loops[l].queue|, quiet)
  {
    FromInv(s0, s);
    var q := s.loops[l].queue;
    var a := SetPhase(s, l, RunningTasks(|q|, []));
    ReachableStepFrom(s0, s, StartTasks(l));
    PhaseOnly(s, l, RunningTasks(|q|, []));
    assert q[..|q|] == q;
    var b := FinishTasks(s0, a, l, quiet);
    FromInv(s0, b);
    ReachableStepFrom(s0, b, EndTasks(l));
    d := SetPhase(b, l, Waiting);
    PhaseOnly(b, l, Waiting);
    GoesOn(s, a, b, l);
    GoesOn(s, b, d, l);
    assert forall k :: 0 <= k < |s.loops| ==> a.loops[k].queue == s.loops[k].queue;
    assert forall k :: 0 <= k < |s.loops| ==> d.loops[k].queue == b.loops[k].queue;
  }

  /** Whatever a loop is at, it can get to poll. */
  lemma Settle(s0: State, s: State, l: nat) returns (d: State)
    requires ReachableFrom(s0, s) && l < |s.loops|
    ensures ReachableFrom(s0, d) && Goes(s, d, l) && d.loops[l].phase == Waiting
  {
    FromInv(s0, s);
    match s.loops[l].phase
    case Waiting => d := s;
    case Dispatching(_, _) =>
      var m := FinishDispatch(s0, s, l);
      d := FinishIteration(s0, m, l, false);
      GoesOn(s, m, d, l);
    case RunningTasks(_, _) =>
      assert PhaseOk(s, l);
      var m := FinishTasks(s0, s, l, false);
      FromInv(s0, m);
      ReachableStepFrom(s0, m, EndTasks(l));
      d := SetPhase(m, l, Waiting);
      PhaseOnly(m, l, Waiting);
      GoesOn(s, m, d, l);
  }

  ghost predicate Calm(s: State, upTo: nat) {
    forall k :: 0 <= k < |s.loops| && k < upTo ==> s.loops[k].phase == Waiting
  }

  lemma KeepsOn(s: State, m: State, d: State)
    requires Keeps(s, m) && Keeps(m, d)
    ensures Keeps(s, d)
  {
  }

  lemma {:induction false} SettleAll(s0: State, s: State, upTo: nat) returns (d: State)
    requires ReachableFrom(s0, s) && upTo <= |s.loops|
    ensures ReachableFrom(s0, d) && Calm(d, upTo) && |d.loops| == |s.loops| && Keeps(s, d)
  {
    if upTo == 0 {
      d := s;
    } else {
      var m := SettleAll(s0, s, upTo - 1);
      d := Settle(s0, m, upTo - 1);
      KeepsOn(s, m, d);
    }
  }

  /** A waiting loop wakes up without events and works off its queue. */
  lemma Drain(s0: State, s: State, l: nat, quiet: bool) returns (d: State)
    requires ReachableFrom(s0, s) && l < |s.loops| && Calm(s, |s.loops|)
    requires quiet ==> Quiet(s.loops[l].queue)
    ensures ReachableFrom(s0, d) && Calm(d, |d.loops|) && Keeps(s, d)
    ensures QueuesAfter(s, d, l, |s.loops[l].queue|, quiet)
  {
    FromInv(s0, s);
    var m := SetPhase(s, l, Dispatching([], Lock));
    ReachableStepFrom(s0, s, PollReturn(l, []));
    PhaseOnly(s, l, Dispatching([], Lock));
    d := FinishIteration(s0, m, l, quiet);
    GoesOn(s, m, d, l);
    assert forall k :: 0 <= k < |s.loops| ==> m.loops[k].queue == s.loops[k].queue;
  }

  // ----- What a loop does next

  /** Loop `l` after a step, as loop() prescribes: every reported channel in report order, each through
      all stages, then a batch of exactly what is queued, one functor after the other. */
  function PhaseAfter(loop: Loop, step: Step, l: nat): Phase {
    match step
    case PollReturn(k, reports) => if k == l then Dispatching(reports, Lock) else loop.phase
    case BeginEvent(k) =>
      if k == l && loop.phase.Dispatching? then loop.phase.(stage := CloseStage) else loop.phase
    case OnClose(k) =>
      if k == l && loop.phase.Dispatching? then loop.phase.(stage := ReadStage) else loop.phase
    case OnRead(k, _) =>
      if k == l && loop.phase.Dispatching? then loop.phase.(stage := WriteStage) else loop.phase
    case OnWrite(k, _) =>
      if k == l && loop.phase.Dispatching? && loop.phase.active != []
      then Dispatching(loop.phase.active[1..], Lock) else loop.phase
    case StartTasks(k) => if k == l then RunningTasks(|loop.queue|, []) else loop.phase
    case RunTask(k) =>
      if k == l && loop.phase.RunningTasks? && loop.phase.left > 0 && loop.queue != []
      then RunningTasks(loop.phase.left - 1, loop.phase.done + [loop.queue[0]]) else loop.phase
    case EndTasks(k) => if k == l then Waiting else loop.phase
    case _ => loop.phase
  }

  /** A user's call leaves every phase as it is. */
  lemma UserKeepsPhases(s: State, step: Step)
    requires Inv(s) && Enabled(s, step) && (step.UserSend? || step.UserShutdown? || step.UserTake?)
    ensures SamePhases(s, Apply(s, step))
  {
  }

  lemma AcceptKeepsPhases(s: State, step: Step)
    requires Inv(s) && Enabled(s, step) && step.Accept?
    ensures SamePhases(s, Apply(s, step))
  {
  }

  /** Handlers and functors. */
  lemma WorkFollowsCode(s: State, step: Step, l: nat)
    requires Inv(s) && Enabled(s, step) && l < |s.loops|
    requires step.BeginEvent? || step.OnClose? || step.OnRead? || step.OnWrite? || step.RunTask?
    ensures var d := Apply(s, step);
      |d.loops| == |s.loops| && d.loops[l].phase == PhaseAfter(s.loops[l], step, l)
  {
    match step
    case BeginEvent(k) => BeginGoes(s, k);
    case OnClose(k) => CloseStageGoes(s, k);
    case OnRead(k, read) => AnyReadGoes(s, k, read);
    case OnWrite(k, write) => AnyWriteGoes(s, k, write);
    case RunTask(k) => RunTaskGoes(s, k);
  }

  /** Every step moves exactly the loop it belongs to, and that one as prescribed: no report and no
      functor is skipped. */
  lemma LoopsFollowTheirCode(s: State, step: Step, l: nat)
    requires Inv(s) && Enabled(s, step) && l < |s.loops|
    ensures var d := Apply(s, step);
      |d.loops| == |s.loops| && d.loops[l].phase == PhaseAfter(s.loops[l], step, l)
  {
    match step
    case PollReturn(k, reports) => PhaseOnly(s, k, Dispatching(reports, Lock));
    case StartTasks(k) => PhaseOnly(s, k, RunningTasks(|s.loops[k].queue|, []));
    case EndTasks(k) => PhaseOnly(s, k, Waiting);
    case Free(_) =>
    case UserKeep(_) =>
    case UserDrop(_) =>
    case Accept(_, _, _) => AcceptKeepsPhases(s, step);
    case UserSend(_, _, _) => UserKeepsPhases(s, step);
    case UserShutdown(_) => UserKeepsPhases(s, step);
    case UserTake(_, _) => UserKeepsPhases(s, step);
    case _ => WorkFollowsCode(s, step, l);
  }

  lemma StackHolds(d: State, l: nat, left: nat, done: seq<Task>, t: Task)
    requires l < |d.loops| && d.loops[l].phase == RunningTasks(left, done + [t])
    ensures Held(d, t.c)
  {
    assert (done + [t])[|done|] == t;
    assert OnStack(d.loops[l].phase, t.c);
  }

  /** A functor that has run keeps its connection from being freed. */
  lemma RanFunctorHolds(s: State, l: nat)
    requires Inv(s) && Enabled(s, RunTask(l))
    ensures var t := s.loops[l].queue[0]; var d := RunOne(Pop(s, l), t);
      t.c in d.conns && Held(d, t.c)
  {
    var t := s.loops[l].queue[0];
    RunTaskGoes(s, l);
    QueuedIsAlive(s, l, 0);
    StackHolds(RunOne(Pop(s, l), t), l, s.loops[l].phase.left - 1, s.loops[l].phase.done, t);
  }

  // ----- The theorem

  /** Nothing is queued where functors of `c` can be. */
  ghost predicate Cleared(s: State, c: Id) {
    && Calm(s, |s.loops|) && c in s.conns && s.conns[c].loop < |s.loops|
    && s.loops[BASE].queue == [] && s.loops[s.conns[c].loop].queue == []
  }

  lemma ClearedIsFree(s: State, c: Id)
    requires Inv(s) && Cleared(s, c) && s.conns[c].conn.closeCalls > 0 && c !in s.kept
    ensures Enabled(s, Free(c))
  {
    forall k, i | 0 <= k < |s.loops| && 0 <= i < |s.loops[k].queue|
      ensures s.loops[k].queue[i].c != c
    {
      assert TasksOk(s, k);
      assert TaskOk(s, k, s.loops[k].queue[i]);
    }
    FreeIff(s, c);
  }

  /** Two rounds of the base loop: the first leaves only connectDestroyed functors, the second none. */
  lemma ClearBase(s0: State, s: State) returns (d: State)
    requires ReachableFrom(s0, s) && Calm(s, |s.loops|) && |s.loops| > 0
    ensures ReachableFrom(s0, d) && Keeps(s, d) && Calm(d, |d.loops|) && |d.loops| > 0
    ensures d.loops[BASE].queue == []
  {
    var a := Drain(s0, s, BASE, false);
    assert QueueAfter(s.loops[BASE].queue, a.loops[BASE].queue, |s.loops[BASE].queue|, false);
    d := Drain(s0, a, BASE, true);
    assert QueueAfter(a.loops[BASE].queue, d.loops[BASE].queue, |a.loops[BASE].queue|, true);
    KeepsOn(s, a, d);
  }

  lemma OnlyBaseRemoves(s: State, l: nat)
    requires Inv(s) && l < |s.loops| && l != BASE
    ensures Quiet(s.loops[l].queue)
  {
    assert TasksOk(s, l);
    forall i | 0 <= i < |s.loops[l].queue|
      ensures !s.loops[l].queue[i].RemoveConn?
    {
      assert TaskOk(s, l, s.loops[l].queue[i]);
    }
  }

  /** After the base loop's rounds, one of the connection's own loop is enough. */
  lemma Clear(s0: State, s: State, c: Id) returns (d: State)
    requires ReachableFrom(s0, s) && Calm(s, |s.loops|) && c in s.conns
    ensures ReachableFrom(s0, d) && Keeps(s, d) && Cleared(d, c)
  {
    FromInv(s0, s);
    var b := ClearBase(s0, s);
    FromInv(s0, b);
    var l := b.conns[c].loop;
    if l == BASE {
      d := b;
    } else {
      OnlyBaseRemoves(b, l);
      d := Drain(s0, b, l, true);
      assert QueueAfter(b.loops[l].queue, d.loops[l].queue, |b.loops[l].queue|, true);
      assert QueueAfter(b.loops[BASE].queue, d.loops[BASE].queue, 0, true);
      KeepsOn(s, b, d);
    }
  }

  lemma DropReference(s0: State, s: State, c: Id) returns (d: State)
    requires ReachableFrom(s0, s)
    ensures ReachableFrom(s0, d) && d == Keep(s, s.kept - {c})
  {
    FromInv(s0, s);
    d := Keep(s, s.kept - {c});
    if c in s.kept {
      ReachableStepFrom(s0, s, UserDrop(c));
    } else {
      assert d == s;
    }
  }

  /** No leak: from every reachable state, every connection that has been closed can come to be freed;
      it takes the loops, and the user dropping a reference that it keeps. */
  lemma ClosedCanBeFreed(n: nat, d: State, c: Id)
    requires Reachable(n, d) && c in d.conns && d.conns[c].conn.closeCalls > 0
    ensures Inv(d) && exists steps :: Legal(d, steps) && c in Run(d, steps).gone
  {
    ReachableInv(n, d);
    assert Legal(d, []) && Run(d, []) == d;
    var dropped := DropReference(d, d, c);
    var calm := SettleAll(d, dropped, |dropped.loops|);
    var clear := Clear(d, calm, c);
    FromInv(d, clear);
    ClearedIsFree(clear, c);
    ReachableStepFrom(d, clear, Free(c));
    var last := Apply(clear, Free(c));
    var steps :| Legal(d, steps) && Run(d, steps) == last;
  }
}
