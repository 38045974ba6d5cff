/** Every connection of the multi-loop server runs its own connection machine: what is proved of all
    runs of one connection holds for each connection of the server. */
module LifecycleStreams {
  import opened SystemCalls
  import opened Masks
  import R = Registries
  import C = Connections
  import CR = ConnectionRuns
  import opened Lifecycle
  import opened LifecycleInvariant
  import opened LifecycleTheorems

  // ----- What a step says to a connection

  predicate Known(s: State, x: Id) {
    x in s.conns || x in s.gone
  }

  /** Connection `x`, alive or freed. */
  function ConnOf(s: State, x: Id): C.Conn
    requires Known(s, x)
  {
    if x in s.conns then s.conns[x].conn else s.gone[x].conn
  }

  /** The head's handler runs for `x` when the report says so. */
  function AtHeadOf(s: State, l: nat, x: Id, on: bool, e: C.Event): seq<C.Event>
    requires l < |s.loops| && s.loops[l].phase.Dispatching? && s.loops[l].phase.active != []
  {
    if on && s.loops[l].phase.active[0].chan == x then [e] else []
  }

  /** The functor `t` runs for its connection. */
  function ByTask(t: Task, x: Id): seq<C.Event> {
    if t.c != x then []
    else
      match t
      case Establish(_) => [C.Established]
      case DestroyConn(_) => [C.Destroyed]
      case _ => []
  }

  /** What a user's call says. */
  function ByUser(step: Step): seq<C.Event> {
    match step
    case UserSend(_, data, direct) => [C.Sent(data, direct)]
    case UserShutdown(_) => [C.ShutdownCalled]
    case UserTake(_, len) => [C.Taken(len)]
    case _ => []
  }

  predicate IsUser(step: Step) {
    step.UserSend? || step.UserShutdown? || step.UserTake?
  }

  /** The events of connection `x` in a step of the server. */
  ghost function EventsOf(s: State, step: Step, x: Id): seq<C.Event>
    requires Enabled(s, step)
  {
    match step
    case Accept(io, _, _) => if x == s.nextId && io == BASE then [C.Established] else []
    case OnClose(l) =>
      var m := s.loops[l].phase.active[0].mask;
      AtHeadOf(s, l, x, m.pollHup && !m.pollIn, C.Closed)
    case OnRead(l, read) =>
      var m := s.loops[l].phase.active[0].mask;
      AtHeadOf(s, l, x, m.pollIn || m.pollPri, C.Readable(read))
    case OnWrite(l, write) => AtHeadOf(s, l, x, s.loops[l].phase.active[0].mask.pollOut, C.Writable(write))
    case RunTask(l) => ByTask(s.loops[l].queue[0], x)
    case PollReturn(_, _) => []
    case BeginEvent(_) => []
    case StartTasks(_) => []
    case EndTasks(_) => []
    case Free(_) => []
    case _ => if step.user == x then ByUser(step) else []
  }

  /** The events of connection `x` in a run of the server: its own part of the run. */
  ghost function Projection(s: State, steps: seq<Step>, x: Id): seq<C.Event>
    requires Inv(s) && Legal(s, steps)
    decreases steps
  {
    if steps == [] then []
    else
      StepKeepsInv(s, steps[0]);
      EventsOf(s, steps[0], x) + Projection(Apply(s, steps[0]), steps[1..], x)
  }

  // ----- One step

  /** The events `es` take the connection from `a` to `b`. */
  ghost predicate Makes(a: C.Conn, b: C.Conn, es: seq<C.Event>) {
    CR.Legal(a, es) && CR.Run(a, es) == b
  }

  lemma ByEvent(a: C.Conn, e: C.Event)
    requires C.Enabled(a, e)
    ensures Makes(a, C.Step(a, e), [e])
  {
    assert [e][1..] == [];
  }

  /** Only connection `c` has moved, by `es`, and nothing was freed or created. */
  ghost predicate OneMoves(s: State, d: State, c: Id, es: seq<C.Event>) {
    && c in s.conns && d.conns.Keys == s.conns.Keys && d.gone == s.gone
    && (forall x :: x in s.conns && x != c ==> d.conns[x].conn == s.conns[x].conn)
    && Makes(s.conns[c].conn, d.conns[c].conn, es)
  }

  /** Every connection moves by the events that the step has for it; none comes or goes. */
  ghost predicate AllMove(s: State, d: State, step: Step)
    requires Enabled(s, step)
  {
    forall x {:trigger Known(d, x)} {:trigger Known(s, x)} ::
      && (Known(d, x) <==> Known(s, x))
      && (Known(s, x) ==> Makes(ConnOf(s, x), ConnOf(d, x), EventsOf(s, step, x)))
      && (!Known(s, x) ==> EventsOf(s, step, x) == [])
  }

  lemma OneOfAll(s: State, d: State, step: Step, c: Id, es: seq<C.Event>)
    requires Enabled(s, step) && Names(s) && OneMoves(s, d, c, es)
    requires forall x :: EventsOf(s, step, x) == if x == c then es else []
    ensures AllMove(s, d, step)
  {
  }

  lemma NoneMoves(s: State, d: State, step: Step)
    requires Enabled(s, step) && d.conns == s.conns && d.gone == s.gone
    requires forall x :: EventsOf(s, step, x) == []
    ensures AllMove(s, d, step)
  {
  }

  lemma ActMoves(s: State, c: Id, e: C.Event)
    requires Shape(s) && c in s.conns && C.Enabled(s.conns[c].conn, e)
    ensures OneMoves(s, Act(s, c, C.Step(s.conns[c].conn, e)), c, [e])
  {
    ByEvent(s.conns[c].conn, e);
    var d := Act(s, c, C.Step(s.conns[c].conn, e));
    assert d.conns == s.conns[c := s.conns[c].(conn := C.Step(s.conns[c].conn, e))];
  }

  lemma CloseWithChanges(s: State, c: Id, conn: C.Conn, doubled: bool, r: R.Registry<Id>)
    requires |s.loops| == |s.pollers| > 0 && c in s.conns && s.conns[c].loop < |s.pollers|
    ensures var d := CloseWith(s, c, conn, doubled, r);
      && d.conns == s.conns[c := d.conns[c]] && d.gone == s.gone && d.conns[c].conn == conn
  {
  }

  lemma CloseMoves(s: State, c: Id, e: C.Event, doubled: bool)
    requires Shape(s) && c in s.conns && C.Enabled(s.conns[c].conn, e)
    ensures OneMoves(s, CloseNow(s, c, C.Step(s.conns[c].conn, e), doubled), c, [e])
  {
    ByEvent(s.conns[c].conn, e);
    CloseWithChanges(s, c, C.Step(s.conns[c].conn, e), doubled,
                     R.SetEvents(s.pollers[s.conns[c].loop], c, NO_EVENT));
  }

  lemma EntryMoves(s: State, d: State, c: Id, es: seq<C.Event>)
    requires c in s.conns && c in d.conns && d.conns == s.conns[c := d.conns[c]] && d.gone == s.gone
    requires Makes(s.conns[c].conn, d.conns[c].conn, es)
    ensures OneMoves(s, d, c, es)
  {
  }

  /** What a functor leaves of its connection. */
  lemma TaskChanges(s: State, t: Task)
    requires Shape(s) && t.c in s.conns
    ensures var d := RunOne(s, t);
      && t.c in d.conns && d.conns == s.conns[t.c := d.conns[t.c]] && d.gone == s.gone
      && d.conns[t.c].conn ==
         match t
         case Establish(c) => C.ConnectEstablished(s.conns[c].conn)
         case DestroyConn(c) => C.ConnectDestroyed(s.conns[c].conn)
         case _ => s.conns[t.c].conn
  {
  }

  lemma TaskMoves(s: State, t: Task)
    requires Shape(s) && t.c in s.conns
    requires t.Establish? ==> s.conns[t.c].conn.state == C.Connecting
    requires t.DestroyConn? ==> s.conns[t.c].conn.state != C.Connecting
    ensures OneMoves(s, RunOne(s, t), t.c, ByTask(t, t.c))
  {
    var a := s.conns[t.c].conn;
    TaskChanges(s, t);
    if t.Establish? {
      ByEvent(a, C.Established);
    } else if t.DestroyConn? {
      ByEvent(a, C.Destroyed);
    }
    EntryMoves(s, RunOne(s, t), t.c, ByTask(t, t.c));
  }

  lemma HeadTaskRuns(s: State, l: nat)
    requires Inv(s) && Enabled(s, RunTask(l))
    ensures var t := s.loops[l].queue[0];
      && t.c in s.conns
      && (t.Establish? ==> s.conns[t.c].conn.state == C.Connecting)
      && (t.DestroyConn? ==> s.conns[t.c].conn.state != C.Connecting)
  {
    var t := s.loops[l].queue[0];
    assert TasksOk(s, l);
    assert TaskOk(s, l, t);
    assert EntryOk(s, t.c);
    PopCount(s, l, l, t);
  }

  lemma PopShape(s: State, l: nat)
    requires Shape(s) && Enabled(s, RunTask(l))
    ensures Shape(Pop(s, l)) && Pop(s, l).conns == s.conns && Pop(s, l).gone == s.gone
  {
  }

  lemma SameConns(s: State, p: State, d: State, c: Id, es: seq<C.Event>)
    requires p.conns == s.conns && p.gone == s.gone && OneMoves(p, d, c, es)
    ensures OneMoves(s, d, c, es)
  {
  }

  lemma RunTaskMoves(s: State, l: nat)
    requires Inv(s) && Enabled(s, RunTask(l))
    ensures AllMove(s, RunOne(Pop(s, l), s.loops[l].queue[0]), RunTask(l))
  {
    var t := s.loops[l].queue[0];
    var p := Pop(s, l);
    HeadTaskRuns(s, l);
    PopShape(s, l);
    TaskMoves(p, t);
    SameConns(s, p, RunOne(p, t), t.c, ByTask(t, t.c));
    OneOfAll(s, RunOne(p, t), RunTask(l), t.c, ByTask(t, t.c));
  }

  // ----- Event handlers

  lemma HeadCanDispatch(s: State, l: nat)
    requires Inv(s) && AtHead(s, l)
    ensures var c := s.loops[l].phase.active[0].chan; c in s.conns && s.conns[c].conn.index != New
  {
    assert PhaseOk(s, l);
    var c := s.loops[l].phase.active[0].chan;
    assert Reported(s, l, c);
    assert EntryOk(s, c);
  }

  lemma PhaseMovesNothing(s: State, d: State, l: nat, p: Phase, c: Id, es: seq<C.Event>)
    requires l < |d.loops| && OneMoves(s, d, c, es)
    ensures OneMoves(s, SetPhase(d, l, p), c, es)
  {
  }

  lemma OnCloseMoves(s: State, l: nat)
    requires Inv(s) && Enabled(s, OnClose(l))
    ensures AllMove(s, CloseStageNow(s, l), OnClose(l))
  {
    HeadCanDispatch(s, l);
    var p := s.loops[l].phase;
    var c, m := p.active[0].chan, p.active[0].mask;
    if m.pollHup && !m.pollIn {
      CloseMoves(s, c, C.Closed, false);
      PhaseMovesNothing(s, CloseNow(s, c, C.HandleClose(s.conns[c].conn), false), l,
                        p.(stage := ReadStage), c, [C.Closed]);
      OneOfAll(s, CloseStageNow(s, l), OnClose(l), c, [C.Closed]);
    } else {
      NoneMoves(s, CloseStageNow(s, l), OnClose(l));
    }
  }

  lemma ReadEndMoves(s: State, l: nat, doubled: bool)
    requires Inv(s) && AtHead(s, l)
    ensures var p := s.loops[l].phase; var c := p.active[0].chan; var end := ReadBytes([]);
      && c in s.conns
      && OneMoves(s, SetPhase(CloseNow(s, c, C.HandleRead(s.conns[c].conn, end), doubled), l,
                              p.(stage := WriteStage)), c, [C.Readable(end)])
  {
    HeadCanDispatch(s, l);
    var p := s.loops[l].phase;
    var c := p.active[0].chan;
    CloseMoves(s, c, C.Readable(ReadBytes([])), doubled);
    PhaseMovesNothing(s, CloseNow(s, c, C.HandleRead(s.conns[c].conn, ReadBytes([])), doubled), l,
                      p.(stage := WriteStage), c, [C.Readable(ReadBytes([]))]);
  }

  lemma ReadSomeMoves(s: State, l: nat, read: ReadOutcome)
    requires Inv(s) && AtHead(s, l)
    ensures var p := s.loops[l].phase; var c := p.active[0].chan;
      && c in s.conns
      && OneMoves(s, SetPhase(Act(s, c, C.HandleRead(s.conns[c].conn, read)), l, p.(stage := WriteStage)),
                  c, [C.Readable(read)])
  {
    HeadCanDispatch(s, l);
    var p := s.loops[l].phase;
    var c := p.active[0].chan;
    ActMoves(s, c, C.Readable(read));
    PhaseMovesNothing(s, Act(s, c, C.HandleRead(s.conns[c].conn, read)), l, p.(stage := WriteStage), c,
                      [C.Readable(read)]);
  }

  lemma ReadHandlerMoves(s: State, l: nat, read: ReadOutcome)
    requires Inv(s) && Enabled(s, OnRead(l, read))
    requires var m := s.loops[l].phase.active[0].mask; m.pollIn || m.pollPri
    ensures OneMoves(s, ReadStageNow(s, l, read), s.loops[l].phase.active[0].chan, [C.Readable(read)])
  {
    var m := s.loops[l].phase.active[0].mask;
    if read == ReadBytes([]) {
      ReadEndMoves(s, l, m.pollHup && m.pollPri && !m.pollIn);
    } else {
      ReadSomeMoves(s, l, read);
    }
  }

  lemma OnReadMoves(s: State, l: nat, read: ReadOutcome)
    requires Inv(s) && Enabled(s, OnRead(l, read))
    ensures AllMove(s, ReadStageNow(s, l, read), OnRead(l, read))
  {
    HeadCanDispatch(s, l);
    var m := s.loops[l].phase.active[0].mask;
    if m.pollIn || m.pollPri {
      ReadHandlerMoves(s, l, read);
      OneOfAll(s, ReadStageNow(s, l, read), OnRead(l, read), s.loops[l].phase.active[0].chan,
               [C.Readable(read)]);
    } else {
      NoneMoves(s, ReadStageNow(s, l, read), OnRead(l, read));
    }
  }

  lemma OnWriteMoves(s: State, l: nat, write: WriteOutcome)
    requires Inv(s) && Enabled(s, OnWrite(l, write))
    ensures AllMove(s, WriteStageNow(s, l, write), OnWrite(l, write))
  {
    HeadCanDispatch(s, l);
    var p := s.loops[l].phase;
    var c := p.active[0].chan;
    if p.active[0].mask.pollOut {
      ActMoves(s, c, C.Writable(write));
      PhaseMovesNothing(s, Act(s, c, C.HandleWrite(s.conns[c].conn, write)), l,
                        Dispatching(p.active[1..], Lock), c, [C.Writable(write)]);
      OneOfAll(s, WriteStageNow(s, l, write), OnWrite(l, write), c, [C.Writable(write)]);
    } else {
      NoneMoves(s, WriteStageNow(s, l, write), OnWrite(l, write));
    }
  }

  lemma UserMoves(s: State, step: Step)
    requires Inv(s) && Enabled(s, step) && IsUser(step)
    ensures AllMove(s, Apply(s, step), step)
  {
    ActMoves(s, step.user, ByUser(step)[0]);
    OneOfAll(s, Apply(s, step), step, step.user, ByUser(step));
  }

  lemma BeginMoves(s: State, l: nat)
    requires AtHead(s, l) && s.loops[l].phase.active[0].chan in s.conns
    ensures BeginNow(s, l).conns == s.conns && BeginNow(s, l).gone == s.gone
  {
  }

  lemma LoopMoves(s: State, step: Step)
    requires Inv(s) && Enabled(s, step)
    requires step.PollReturn? || step.BeginEvent? || step.StartTasks? || step.EndTasks?
             || step.UserKeep? || step.UserDrop?
    ensures AllMove(s, Apply(s, step), step)
  {
    if step.BeginEvent? {
      HeadCanDispatch(s, step.l);
      BeginMoves(s, step.l);
    }
    NoneMoves(s, Apply(s, step), step);
  }

  lemma FreeMoves(s: State, d: State, c: Id)
    requires Enabled(s, Free(c)) && c !in s.gone
    requires d.conns == s.conns - {c} && d.gone == s.gone[c := s.conns[c]]
    ensures AllMove(s, d, Free(c))
  {
  }

  /** One step of any loop takes every connection of the server by its own events, at most one, from
      its old state to its new one; connections that are not there have none. */
  lemma StepSimulates(s: State, step: Step)
    requires Inv(s) && Enabled(s, step) && !step.Accept?
    ensures AllMove(s, Apply(s, step), step)
  {
    match step
    case OnClose(l) => OnCloseMoves(s, l);
    case OnRead(l, read) => OnReadMoves(s, l, read);
    case OnWrite(l, write) => OnWriteMoves(s, l, write);
    case RunTask(l) => RunTaskMoves(s, l);
    case Free(c) => assert Names(s); FreeMoves(s, Apply(s, step), c);
    case PollReturn(_, _) => LoopMoves(s, step);
    case BeginEvent(_) => LoopMoves(s, step);
    case StartTasks(_) => LoopMoves(s, step);
    case EndTasks(_) => LoopMoves(s, step);
    case UserKeep(_) => LoopMoves(s, step);
    case UserDrop(_) => LoopMoves(s, step);
    case _ => UserMoves(s, step);
  }

  // ----- New connections

  /** The old connections stay as they are; the new one begins blank, or one event later on the base
      loop. */
  ghost predicate Begins(s: State, d: State, step: Step)
    requires Enabled(s, step) && step.Accept?
  {
    forall x {:trigger Known(d, x)} {:trigger Known(s, x)} ::
      && (Known(d, x) <==> Known(s, x) || x == s.nextId)
      && (Known(s, x) ==> ConnOf(d, x) == ConnOf(s, x))
      && (x == s.nextId ==> Makes(Blank(step.settings), ConnOf(d, x), EventsOf(s, step, x)))
  }

  lemma AcceptChanges(s: State, io: nat, fd: int, settings: Settings)
    requires Shape(s) && io < |s.loops| && s.nextId !in s.conns
    ensures var d := AcceptNow(s, io, fd, settings); var c := s.nextId;
      && c in d.conns && d.conns == s.conns[c := d.conns[c]] && d.gone == s.gone
      && d.conns[c].conn
         == if io == BASE then C.ConnectEstablished(Blank(settings)) else Blank(settings)
  {
  }

  lemma OneBegins(s: State, d: State, step: Step)
    requires Enabled(s, step) && step.Accept? && !Known(s, s.nextId)
    requires s.nextId in d.conns && d.conns == s.conns[s.nextId := d.conns[s.nextId]] && d.gone == s.gone
    requires Makes(Blank(step.settings), d.conns[s.nextId].conn, EventsOf(s, step, s.nextId))
    ensures Begins(s, d, step)
  {
  }

  lemma AcceptBegins(s: State, step: Step)
    requires Inv(s) && Enabled(s, step) && step.Accept?
    ensures Begins(s, Apply(s, step), step) && !Known(s, s.nextId)
  {
    assert Names(s);
    AcceptChanges(s, step.io, step.fd, step.settings);
    ByEvent(Blank(step.settings), C.Established);
    OneBegins(s, Apply(s, step), step);
  }

  // ----- Whole runs

  lemma MakesOn(a: C.Conn, b: C.Conn, c: C.Conn, es: seq<C.Event>, more: seq<C.Event>)
    requires Makes(a, b, es) && Makes(b, c, more)
    ensures Makes(a, c, es + more)
  {
    CR.RunConcat(a, es, more);
  }

  /** A connection that is there moves by its events. */
  lemma KnownMoves(s: State, step: Step, x: Id)
    requires Inv(s) && Enabled(s, step) && Known(s, x)
    ensures var d := Apply(s, step); Known(d, x) && Makes(ConnOf(s, x), ConnOf(d, x), EventsOf(s, step, x))
  {
    if step.Accept? {
      AcceptBegins(s, step);
    } else {
      StepSimulates(s, step);
    }
  }

  lemma {:induction false} KnownFollows(s: State, steps: seq<Step>, x: Id)
    requires Inv(s) && Legal(s, steps) && Known(s, x)
    ensures var d := Run(s, steps); Known(d, x) && Makes(ConnOf(s, x), ConnOf(d, x), Projection(s, steps, x))
    decreases steps
  {
    if steps != [] {
      var m := Apply(s, steps[0]);
      StepKeepsInv(s, steps[0]);
      KnownMoves(s, steps[0], x);
      KnownFollows(m, steps[1..], x);
      MakesOn(ConnOf(s, x), ConnOf(m, x), ConnOf(Run(s, steps), x), EventsOf(s, steps[0], x),
              Projection(m, steps[1..], x));
    }
  }

  /** The settings a connection began with. */
  function SettingsOf(conn: C.Conn): Settings {
    Settings(conn.mark, conn.hasHighWater, conn.hasWriteComplete)
  }

  lemma SettingsKept(settings: Settings, conn: C.Conn, es: seq<C.Event>)
    requires Makes(Blank(settings), conn, es)
    ensures SettingsOf(conn) == settings
  {
    CR.NewConnInv(settings.mark, settings.highWater, settings.writeComplete);
    CR.SettingsStay(Blank(settings), es);
  }

  /** A connection that is not there has no events, unless it is being accepted. */
  lemma UnknownMoves(s: State, step: Step, x: Id)
    requires Inv(s) && Enabled(s, step) && !Known(s, x)
    ensures var d := Apply(s, step);
      if Known(d, x) then step.Accept? && Makes(Blank(step.settings), ConnOf(d, x), EventsOf(s, step, x))
      else EventsOf(s, step, x) == []
  {
    if step.Accept? {
      AcceptBegins(s, step);
    } else {
      StepSimulates(s, step);
    }
  }

  lemma BornFollows(m: State, steps: seq<Step>, x: Id, settings: Settings, first: seq<C.Event>)
    requires Inv(m) && Legal(m, steps) && Known(m, x) && Makes(Blank(settings), ConnOf(m, x), first)
    ensures Known(Run(m, steps), x)
    ensures var conn := ConnOf(Run(m, steps), x);
      Makes(Blank(SettingsOf(conn)), conn, first + Projection(m, steps, x))
  {
    KnownFollows(m, steps, x);
    var conn := ConnOf(Run(m, steps), x);
    MakesOn(Blank(settings), ConnOf(m, x), conn, first, Projection(m, steps, x));
    SettingsKept(settings, conn, first + Projection(m, steps, x));
  }

  lemma QuietStep(s: State, steps: seq<Step>, x: Id)
    requires Inv(s) && Legal(s, steps) && steps != [] && EventsOf(s, steps[0], x) == []
    requires Inv(Apply(s, steps[0])) && Legal(Apply(s, steps[0]), steps[1..])
    ensures Projection(s, steps, x) == Projection(Apply(s, steps[0]), steps[1..], x)
  {
    var rest := Projection(Apply(s, steps[0]), steps[1..], x);
    assert [] + rest == rest;
  }

  /** The first step of a run that begins without the connection. */
  lemma FirstStep(s: State, steps: seq<Step>, x: Id)
    returns (m: State, first: seq<C.Event>, settings: Settings)
    requires Inv(s) && Legal(s, steps) && !Known(s, x) && steps != []
    ensures Inv(m) && Legal(m, steps[1..]) && Run(s, steps) == Run(m, steps[1..])
    ensures Projection(s, steps, x) == first + Projection(m, steps[1..], x)
    ensures if Known(m, x) then Makes(Blank(settings), ConnOf(m, x), first)
            else Projection(s, steps, x) == Projection(m, steps[1..], x)
  {
    StepKeepsInv(s, steps[0]);
    UnknownMoves(s, steps[0], x);
    m, first := Apply(s, steps[0]), EventsOf(s, steps[0], x);
    if first == [] {
      QuietStep(s, steps, x);
    }
    settings := if steps[0].Accept? then steps[0].settings else Settings(0, false, false);
  }

  /** From where it is accepted, a connection follows its events; `d` is the end of the run. */
  lemma {:induction false} NewFollows(s: State, steps: seq<Step>, x: Id, d: State)
    requires Inv(s) && Legal(s, steps) && !Known(s, x) && d == Run(s, steps) && Known(d, x)
    ensures Makes(Blank(SettingsOf(ConnOf(d, x))), ConnOf(d, x), Projection(s, steps, x))
    decreases steps
  {
    var m, first, settings := FirstStep(s, steps, x);
    if Known(m, x) {
      BornFollows(m, steps[1..], x, settings, first);
    } else {
      NewFollows(m, steps[1..], x, d);
    }
  }

  /** The streams and notifications of a connection are those of its events. */
  ghost predicate Recounts(conn: C.Conn, es: seq<C.Event>)
    requires CR.Legal(Blank(SettingsOf(conn)), es)
  {
    var c := Blank(SettingsOf(conn));
    && CR.Offered(c, es) == conn.written + conn.output.contents
    && (conn.fins == [] || (conn.fins == [|CR.Offered(c, es)|] && conn.written == CR.Offered(c, es)))
    && CR.Delivered(es) == conn.taken + conn.input.contents
    && CR.CountHighWater(conn.queued)
       == (if conn.hasHighWater then CR.Climbs(CR.Levels(c, es), conn.mark) else 0)
    && CR.CountWriteComplete(conn.queued)
       == (if conn.hasWriteComplete then CR.Falls(CR.Levels(c, es), 1) else 0)
    && conn.closeCalls == CR.CountCloses(es)
  }

  lemma MadeIsRecounted(conn: C.Conn, es: seq<C.Event>)
    requires Makes(Blank(SettingsOf(conn)), conn, es)
    ensures Recounts(conn, es)
  {
    var mark, hw, wc := conn.mark, conn.hasHighWater, conn.hasWriteComplete;
    CR.NewConnInv(mark, hw, wc);
    CR.OutboundStream(mark, hw, wc, es);
    CR.InboundStream(mark, hw, wc, es);
    CR.NotificationsAreCrossings(C.NewConn(mark, hw, wc), es);
    CR.CloseCallsCountCloses(C.NewConn(mark, hw, wc), es);
  }

  /** In every run of the server, every connection, alive or freed, is where its own part of the run
      takes the connection machine. What the user sent to it while it was connected is written or
      buffered, what its reads delivered is taken or buffered, its notifications are the crossings of
      its backlog, and it was closed as often as its events say. */
  lemma EveryConnectionRuns(n: nat, steps: seq<Step>, x: Id)
    requires n > 0 && Inv(Start(n)) && Legal(Start(n), steps) && Known(Run(Start(n), steps), x)
    ensures var conn := ConnOf(Run(Start(n), steps), x); var es := Projection(Start(n), steps, x);
      && Makes(Blank(SettingsOf(conn)), conn, es) && Recounts(conn, es)
  {
    NewFollows(Start(n), steps, x, Run(Start(n), steps));
    MadeIsRecounted(ConnOf(Run(Start(n), steps), x), Projection(Start(n), steps, x));
  }
}
