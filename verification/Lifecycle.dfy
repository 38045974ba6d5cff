/** The life of connections across loops (TcpServer.cc, TcpConnection.cc, EventLoop.cc): a base loop
    accepts, io loops serve, and queued functors carry the strong references. Each loop is a thread;
    a step is one callback or one functor, and steps of different loops interleave freely. A loop's
    functors are a FIFO queue, as the loop protocol refines one. Every connection is a full
    connection machine, every loop has a full poller. */
module Lifecycle {
  import opened Layouts
  import opened SystemCalls
  import opened Masks
  import R = Registries
  import C = Connections

  type Id = nat

  const BASE: nat := 0

  /** Functors that hold a TcpConnectionPtr. */
  datatype Task =
    | Establish(c: Id)
    | RemoveConn(c: Id)
    | DestroyConn(c: Id)
    | Notify(c: Id)

  /** Where Channel::handleEvent is with the first active channel. */
  datatype Stage = Lock | CloseStage | ReadStage | WriteStage

  /** `done`: functors of the batch that have run. The batch vector is local to doPendingFunctors,
      so they keep their references until it returns. */
  datatype Phase =
    | Waiting
    | Dispatching(active: seq<R.Report<Id>>, stage: Stage)
    | RunningTasks(left: nat, done: seq<Task>)

  datatype Loop = Loop(phase: Phase, queue: seq<Task>)

  /** What the user sets on a new connection before it sends: the water mark and which callbacks. */
  datatype Settings = Settings(mark: nat, highWater: bool, writeComplete: bool)

  function Blank(settings: Settings): C.Conn {
    C.NewConn(settings.mark, settings.highWater, settings.writeComplete)
  }

  /** A TcpConnection object. The counters say how often connectEstablished, removeConnectionInLoop
      and connectDestroyed have run for it; `doubleClosed` records a report of hang-up and urgent
      data without input whose read met the end of the stream. */
  datatype Entry = Entry(
    loop: nat, fd: int, conn: C.Conn,
    established: nat, removed: nat, destroyed: nat, doubleClosed: bool)

  /** `conns`: connection objects not yet freed; `connections`: the server's map, by connection;
      `kept`: connections to which user code keeps a TcpConnectionPtr; `gone`: the last state of freed
      ones. `crashed`: a freed connection was touched. */
  datatype State = State(
    loops: seq<Loop>, pollers: seq<R.Registry<Id>>,
    conns: map<Id, Entry>, connections: set<Id>, kept: set<Id>, gone: map<Id, Entry>,
    nextId: nat, crashed: bool)

  datatype Step =
    | Accept(io: nat, fd: int, settings: Settings)
    | PollReturn(l: nat, reports: seq<R.Report<Id>>)
    | BeginEvent(l: nat)
    | OnClose(l: nat)
    | OnRead(l: nat, read: ReadOutcome)
    | OnWrite(l: nat, write: WriteOutcome)
    | UserSend(user: Id, data: seq<byte>, direct: WriteOutcome)
    | UserShutdown(user: Id)
    | UserTake(user: Id, len: nat)
    | UserKeep(user: Id)
    | UserDrop(user: Id)
    | StartTasks(l: nat)
    | RunTask(l: nat)
    | EndTasks(l: nat)
    | Free(victim: Id)

  // ----- Building blocks

  /** Indices fit and every live connection's channel is known to its poller object. */
  ghost predicate Shape(s: State) {
    && |s.loops| == |s.pollers| > 0
    && forall c :: c in s.conns ==>
         && s.conns[c].loop < |s.pollers| && c in s.pollers[s.conns[c].loop].chans
         && s.conns[c].conn.input.Writable() >= 0
  }

  function Post(s: State, l: nat, tasks: seq<Task>): State
    requires l < |s.loops|
  {
    s.(loops := s.loops[l := s.loops[l].(queue := s.loops[l].queue + tasks)])
  }

  function SetPhase(s: State, l: nat, phase: Phase): State
    requires l < |s.loops|
  {
    s.(loops := s.loops[l := s.loops[l].(phase := phase)])
  }

  function Keep(s: State, kept: set<Id>): State {
    s.(kept := kept)
  }

  /** A connection's new state together with its poller's. */
  function Wire(s: State, c: Id, e: Entry, r: R.Registry<Id>): State
    requires e.loop < |s.pollers|
  {
    s.(conns := s.conns[c := e], pollers := s.pollers[e.loop := r])
  }

  /** A handler or user call that may change the write interest and may queue a notification. */
  function Act(s: State, c: Id, conn: C.Conn): State
    requires |s.loops| == |s.pollers| && c in s.conns && s.conns[c].loop < |s.pollers|
    requires c in s.pollers[s.conns[c].loop].chans
  {
    var e := s.conns[c];
    var r := if conn.events == e.conn.events then s.pollers[e.loop]
             else R.SetEvents(s.pollers[e.loop], c, conn.events);
    Post(Wire(s, c, e.(conn := conn), r), e.loop,
         if |conn.queued| > |e.conn.queued| then [Notify(c)] else [])
  }

  function EstablishNow(s: State, c: Id): State
    requires |s.loops| == |s.pollers| && c in s.conns && s.conns[c].loop < |s.pollers|
    requires c in s.pollers[s.conns[c].loop].chans
  {
    var e := s.conns[c];
    var conn := C.ConnectEstablished(e.conn);
    Wire(s, c, e.(conn := conn, established := e.established + 1),
         R.SetEvents(s.pollers[e.loop], c, conn.events))
  }

  /** removeConnectionInLoop: erase from the map, hand connectDestroyed to the io loop. */
  function RemoveInLoop(s: State, c: Id): State
    requires |s.loops| == |s.pollers| && c in s.conns && s.conns[c].loop < |s.pollers|
  {
    var e := s.conns[c];
    Post(s.(connections := s.connections - {c}, conns := s.conns[c := e.(removed := e.removed + 1)]),
         e.loop, [DestroyConn(c)])
  }

  /** disableAll, which leaves the poller as `r`, and the close callback of handleClose; `conn` is
      the connection after it. In the base loop removeConnection runs on at once, elsewhere it is
      queued. */
  function CloseWith(s: State, c: Id, conn: C.Conn, doubled: bool, r: R.Registry<Id>): State
    requires |s.loops| == |s.pollers| > 0 && c in s.conns && s.conns[c].loop < |s.pollers|
  {
    var e := s.conns[c];
    var closed := Wire(s, c, e.(conn := conn, doubleClosed := e.doubleClosed || doubled), r);
    if e.loop == BASE then RemoveInLoop(closed, c) else Post(closed, BASE, [RemoveConn(c)])
  }

  function CloseNow(s: State, c: Id, conn: C.Conn, doubled: bool): State
    requires |s.loops| == |s.pollers| > 0 && c in s.conns && s.conns[c].loop < |s.pollers|
    requires c in s.pollers[s.conns[c].loop].chans
  {
    CloseWith(s, c, conn, doubled, R.SetEvents(s.pollers[s.conns[c].loop], c, NO_EVENT))
  }

  function DestroyNow(s: State, c: Id): State
    requires |s.loops| == |s.pollers| && c in s.conns && s.conns[c].loop < |s.pollers|
    requires c in s.pollers[s.conns[c].loop].chans
  {
    var e := s.conns[c];
    var r := if e.conn.state == C.Connected then R.SetEvents(s.pollers[e.loop], c, NO_EVENT)
             else s.pollers[e.loop];
    Wire(s, c, e.(conn := C.ConnectDestroyed(e.conn), destroyed := e.destroyed + 1),
         R.RemoveChannel(r, c))
  }

  function AcceptNow(s: State, io: nat, fd: int, settings: Settings): State
    requires |s.loops| == |s.pollers| && io < |s.loops|
  {
    var c := s.nextId;
    var e := Entry(io, fd, Blank(settings), 0, 0, 0, false);
    var made := Wire(s.(connections := s.connections + {c}, nextId := c + 1), c, e,
                     R.CreateChannel(s.pollers[io], c, fd));
    if io == BASE then EstablishNow(made, c) else Post(made, io, [Establish(c)])
  }

  function RunOne(s: State, t: Task): State
    requires |s.loops| == |s.pollers|
    requires t.c in s.conns ==> s.conns[t.c].loop < |s.pollers| && t.c in s.pollers[s.conns[t.c].loop].chans
  {
    if t.c !in s.conns then s.(crashed := true)
    else
      match t
      case Establish(c) => EstablishNow(s, c)
      case RemoveConn(c) => RemoveInLoop(s, c)
      case DestroyConn(c) => DestroyNow(s, c)
      case Notify(_) => s
  }

  /** The tie's guard of the running handler, or a functor of the current batch that has run. */
  ghost predicate OnStack(p: Phase, c: Id) {
    match p
    case Waiting => false
    case Dispatching(active, stage) => stage != Lock && active != [] && active[0].chan == c
    case RunningTasks(_, done) => exists i :: 0 <= i < |done| && done[i].c == c
  }

  /** Some functor of the connection waits, or a loop is in the middle of a handler or of a batch
      that holds it. */
  ghost predicate Busy(s: State, c: Id) {
    || (exists l, i :: 0 <= l < |s.loops| && 0 <= i < |s.loops[l].queue| && s.loops[l].queue[i].c == c)
    || (exists l :: 0 <= l < |s.loops| && OnStack(s.loops[l].phase, c))
  }

  /** A strong reference exists: the server's map, the user's, a functor in a queue, or one on a
      loop's stack. */
  ghost predicate Held(s: State, c: Id) {
    c in s.connections || c in s.kept || Busy(s, c)
  }

  // ----- The steps

  predicate AtStage(s: State, l: nat, stage: Stage) {
    l < |s.loops| && s.loops[l].phase.Dispatching? && s.loops[l].phase.active != []
    && s.loops[l].phase.stage == stage
  }

  /** The loop thread of connection `c` is running handlers or functors. */
  predicate LoopActive(s: State, c: Id)
    requires c in s.conns
  {
    s.conns[c].loop < |s.loops| && !s.loops[s.conns[c].loop].phase.Waiting?
  }

  ghost predicate Enabled(s: State, step: Step) {
    match step
    case Accept(io, fd, _) =>
      // the kernel hands out an fd that no open socket has
      && io < |s.loops| && BASE < |s.loops| && s.loops[BASE].phase.Dispatching?
      && forall d :: d in s.conns ==> s.conns[d].fd != fd
    case PollReturn(l, reports) =>
      l < |s.loops| && l < |s.pollers| && s.loops[l].phase.Waiting?
      && R.KernelMayReport(s.pollers[l], reports)
    case BeginEvent(l) => AtStage(s, l, Lock)
    case OnClose(l) => AtStage(s, l, CloseStage)
    case OnRead(l, read) => AtStage(s, l, ReadStage)
    case OnWrite(l, write) => AtStage(s, l, WriteStage)
      && var c := s.loops[l].phase.active[0].chan;
      c in s.conns ==> Allows(write, |s.conns[c].conn.output.contents|)
    case UserSend(c, data, direct) => c in s.conns && LoopActive(s, c) && Allows(direct, |data|)
    case UserShutdown(c) => c in s.conns && LoopActive(s, c)
    case UserTake(c, len) => c in s.conns && LoopActive(s, c)
    case UserKeep(c) => c in s.conns && LoopActive(s, c)
    case UserDrop(c) => c in s.kept
    case StartTasks(l) =>
      l < |s.loops| && s.loops[l].phase.Dispatching? && s.loops[l].phase.active == []
    case RunTask(l) =>
      l < |s.loops| && s.loops[l].phase.RunningTasks? && s.loops[l].phase.left > 0
      && s.loops[l].queue != []
    case EndTasks(l) => l < |s.loops| && s.loops[l].phase.RunningTasks? && s.loops[l].phase.left == 0
    case Free(c) => c in s.conns && !Held(s, c)
  }

  /** The next functor leaves the queue for the batch that has run. */
  function Pop(s: State, l: nat): State
    requires l < |s.loops| && s.loops[l].queue != [] && s.loops[l].phase.RunningTasks?
    requires s.loops[l].phase.left > 0
  {
    var p, q := s.loops[l].phase, s.loops[l].queue;
    s.(loops := s.loops[l := Loop(RunningTasks(p.left - 1, p.done + [q[0]]), q[1..])])
  }

  // handleEvent for the first active channel, stage by stage.

  ghost predicate AtHead(s: State, l: nat) {
    Shape(s) && l < |s.loops| && s.loops[l].phase.Dispatching? && s.loops[l].phase.active != []
  }

  /** A tied channel whose owner is gone skips its event. */
  ghost function BeginNow(s: State, l: nat): State
    requires AtHead(s, l)
  {
    var p := s.loops[l].phase;
    var c := p.active[0].chan;
    if c !in s.conns then SetPhase(s.(crashed := true), l, p.(stage := CloseStage))
    else if s.conns[c].established > 0 && !Held(s, c) then SetPhase(s, l, Dispatching(p.active[1..], Lock))
    else SetPhase(s, l, p.(stage := CloseStage))
  }

  ghost function CloseStageNow(s: State, l: nat): State
    requires AtHead(s, l)
  {
    var p := s.loops[l].phase;
    var c, m := p.active[0].chan, p.active[0].mask;
    var d := if c !in s.conns then s.(crashed := true)
             else if m.pollHup && !m.pollIn then CloseNow(s, c, C.HandleClose(s.conns[c].conn), false)
             else s;
    SetPhase(d, l, p.(stage := ReadStage))
  }

  ghost function ReadStageNow(s: State, l: nat, read: ReadOutcome): State
    requires AtHead(s, l)
  {
    var p := s.loops[l].phase;
    var c, m := p.active[0].chan, p.active[0].mask;
    var d := if c !in s.conns then s.(crashed := true)
             else if !(m.pollIn || m.pollPri) then s
             else if read == ReadBytes([]) then
               CloseNow(s, c, C.HandleRead(s.conns[c].conn, read), m.pollHup && m.pollPri && !m.pollIn)
             else Act(s, c, C.HandleRead(s.conns[c].conn, read));
    SetPhase(d, l, p.(stage := WriteStage))
  }

  ghost function WriteStageNow(s: State, l: nat, write: WriteOutcome): State
    requires AtHead(s, l)
    requires var c := s.loops[l].phase.active[0].chan;
      c in s.conns ==> Allows(write, |s.conns[c].conn.output.contents|)
  {
    var p := s.loops[l].phase;
    var c, m := p.active[0].chan, p.active[0].mask;
    var d := if c !in s.conns then s.(crashed := true)
             else if m.pollOut then Act(s, c, C.HandleWrite(s.conns[c].conn, write))
             else s;
    SetPhase(d, l, Dispatching(p.active[1..], Lock))
  }

  ghost function Apply(s: State, step: Step): State
    requires Shape(s) && Enabled(s, step)
  {
    match step
    case Accept(io, fd, settings) =>
      AcceptNow(s, io, fd, settings)
    case PollReturn(l, reports) => SetPhase(s, l, Dispatching(reports, Lock))
    case BeginEvent(l) => BeginNow(s, l)
    case OnClose(l) => CloseStageNow(s, l)
    case OnRead(l, read) => ReadStageNow(s, l, read)
    case OnWrite(l, write) => WriteStageNow(s, l, write)
    case UserSend(c, data, direct) => Act(s, c, C.Send(s.conns[c].conn, data, direct))
    case UserShutdown(c) => Act(s, c, C.Shutdown(s.conns[c].conn))
    case UserTake(c, len) => Act(s, c, C.Step(s.conns[c].conn, C.Taken(len)))
    case UserKeep(c) => Keep(s, s.kept + {c})
    case UserDrop(c) => Keep(s, s.kept - {c})
    case StartTasks(l) => SetPhase(s, l, RunningTasks(|s.loops[l].queue|, []))
    case RunTask(l) => RunOne(Pop(s, l), s.loops[l].queue[0])
    case EndTasks(l) => SetPhase(s, l, Waiting)
    case Free(c) =>
      var e := s.conns[c];
      s.(conns := s.conns - {c}, gone := s.gone[c := e],
         pollers := s.pollers[e.loop := R.DestroyChannel(s.pollers[e.loop], c)])
  }

  function Start(n: nat): State
    requires n > 0
  {
    State(seq(n, _ => Loop(Waiting, [])), seq(n, _ => R.Empty()), map[], {}, {}, map[], 1, false)
  }
}
