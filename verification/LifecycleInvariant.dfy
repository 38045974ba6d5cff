/** The invariant of the multi-loop server and its proof, step by step. */
module LifecycleInvariant {
  import Layouts
  import opened SystemCalls
  import opened Masks
  import R = Registries
  import C = Connections
  import CR = ConnectionRuns
  import opened Lifecycle

  // ----- The invariant

  function Count(s: State, l: nat, t: Task): nat
    requires l < |s.loops|
  {
    multiset(s.loops[l].queue)[t]
  }

  /** One connection's books: `ne`, `nr`, `nd` count its queued Establish, RemoveConn, DestroyConn. */
  ghost predicate Books(e: Entry, inMap: bool, ne: nat, nr: nat, nd: nat) {
    && C.Inv(e.conn)
    && ne + e.established == 1
    && nr + e.removed == e.conn.closeCalls
    && nd + e.destroyed == e.removed
    && (e.established == 0 <==> e.conn.state == C.Connecting)
    && (inMap <==> e.removed == 0)
    && (e.conn.index == New <==> e.established == 0 || e.destroyed > 0)
    && (e.conn.state == C.Disconnected <==> e.conn.closeCalls > 0)
    && (e.conn.closeCalls >= 2 <==> e.doubleClosed)
    && e.conn.closeCalls <= 3
    && (e.conn.index == Added && e.conn.closeCalls > 0 ==> e.conn.closeCalls == 2)
    && (e.conn.index == Deleted ==> e.conn.closeCalls in {1, 3})
  }

  /** The server itself holds a strong reference: its map, or the functor of connectDestroyed. */
  ghost predicate OwnedByServer(s: State, c: Id) {
    c in s.conns && (c in s.connections
                     || (s.conns[c].loop < |s.loops| && DestroyConn(c) in s.loops[s.conns[c].loop].queue))
  }

  ghost predicate EntryOk(s: State, c: Id)
    requires |s.loops| > 0 && c in s.conns && s.conns[c].loop < |s.loops|
  {
    var e := s.conns[c];
    Books(e, c in s.connections, Count(s, e.loop, Establish(c)), Count(s, BASE, RemoveConn(c)),
          Count(s, e.loop, DestroyConn(c)))
  }

  ghost predicate GoneOk(e: Entry) {
    && C.Inv(e.conn)
    && e.established == 1
    && e.conn.closeCalls == e.removed == e.destroyed >= 1
    && (e.destroyed == 1 <==> !e.doubleClosed)
    && e.conn.index == New && e.conn.state == C.Disconnected
  }

  ghost predicate PollerOk(s: State, l: nat)
    requires l < |s.pollers|
  {
    && R.Inv(s.pollers[l])
    && (forall c :: c in s.pollers[l].chans <==> c in s.conns && s.conns[c].loop == l)
    && (forall c :: c in s.pollers[l].chans ==>
          s.pollers[l].chans[c] == R.Chan(s.conns[c].fd, s.conns[c].conn.events, s.conns[c].conn.index))
  }

  /** A functor holds a live connection and is in a queue where it belongs. */
  ghost predicate TaskOk(s: State, l: nat, t: Task) {
    && t.c in s.conns
    && (if t.RemoveConn? then l == BASE else l == s.conns[t.c].loop)
  }

  ghost predicate TasksOk(s: State, l: nat)
    requires l < |s.loops|
  {
    forall i :: 0 <= i < |s.loops[l].queue| ==> TaskOk(s, l, s.loops[l].queue[i])
  }

  /** A reported connection whose handling has not begun. */
  ghost predicate Untouched(e: Entry, m: Events) {
    e.conn.index == Added && Reportable(m, e.conn.events)
  }

  /** After the close stage. */
  ghost predicate CloseHandled(e: Entry, m: Events) {
    if m.pollHup && !m.pollIn then
      e.conn.closeCalls in {1, 3} && (e.conn.closeCalls == 3 ==> !m.pollPri)
    else Untouched(e, m)
  }

  ghost predicate Reported(s: State, l: nat, c: Id) {
    c in s.conns && s.conns[c].loop == l && s.conns[c].established == 1 && s.conns[c].destroyed == 0
  }

  ghost predicate ActiveOk(s: State, l: nat, active: seq<R.Report<Id>>, stage: Stage) {
    && (active == [] ==> stage == Lock)
    && (forall i, j :: 0 <= i < j < |active| ==> active[i].chan != active[j].chan)
    && (forall i :: 0 <= i < |active| ==> Reported(s, l, active[i].chan))
    && (forall i :: (if stage in {Lock, CloseStage} then 0 else 1) <= i < |active| ==>
          Untouched(s.conns[active[i].chan], active[i].mask))
    && (stage == ReadStage ==> CloseHandled(s.conns[active[0].chan], active[0].mask))
  }

  ghost predicate PhaseOk(s: State, l: nat)
    requires l < |s.loops|
  {
    match s.loops[l].phase
    case Waiting => true
    case Dispatching(active, stage) => ActiveOk(s, l, active, stage)
    case RunningTasks(left, _) => left <= |s.loops[l].queue|
  }

  ghost predicate Names(s: State) {
    && s.connections <= s.conns.Keys
    && s.conns.Keys !! s.gone.Keys
    && (forall c :: c in s.conns ==> c < s.nextId)
    && (forall c :: c in s.gone ==> c < s.nextId && GoneOk(s.gone[c]))
  }

  ghost predicate DistinctFds(s: State) {
    forall c, d :: c in s.conns && d in s.conns && c != d ==> s.conns[c].fd != s.conns[d].fd
  }

  ghost predicate AllPollersOk(s: State) {
    forall l {:trigger PollerOk(s, l)} :: 0 <= l < |s.pollers| ==> PollerOk(s, l)
  }

  ghost predicate AllTasksOk(s: State) {
    forall l {:trigger TasksOk(s, l)} :: 0 <= l < |s.loops| ==> TasksOk(s, l)
  }

  ghost predicate AllPhasesOk(s: State) {
    forall l {:trigger PhaseOk(s, l)} :: 0 <= l < |s.loops| ==> PhaseOk(s, l)
  }

  ghost predicate Inv(s: State) {
    && !s.crashed && Shape(s) && Names(s) && DistinctFds(s)
    && AllPollersOk(s) && AllTasksOk(s) && AllPhasesOk(s)
    && (forall c {:trigger EntryOk(s, c)} :: c in s.conns ==> EntryOk(s, c))
  }

  /** The invariant, but for the books of connection `c`. */
  ghost predicate InvExcept(s: State, c: Id) {
    && !s.crashed && Shape(s) && Names(s) && DistinctFds(s)
    && AllPollersOk(s) && AllTasksOk(s) && AllPhasesOk(s)
    && (forall x {:trigger EntryOk(s, x)} :: x in s.conns && x != c ==> EntryOk(s, x))
  }

  lemma StartInv(n: nat)
    requires n > 0
    ensures Inv(Start(n))
  {
  }

  // ----- Frames

  // `d` differs from `s` only in connection `c`, its poller, and queues that lost or gained functors
  // of `c`. Phases may differ.

  ghost predicate SameOthers(s: State, d: State, c: Id) {
    && |d.loops| == |s.loops| && |d.pollers| == |s.pollers|
    && d.conns.Keys == s.conns.Keys && c in s.conns && d.gone == s.gone && d.nextId == s.nextId
    && !d.crashed
    && (forall x :: x in s.conns && x != c ==> d.conns[x] == s.conns[x])
    && (forall x :: x != c ==> (x in d.connections <==> x in s.connections))
    && d.conns[c].loop == s.conns[c].loop && d.conns[c].fd == s.conns[c].fd
  }

  ghost predicate SameOtherPollers(s: State, d: State, c: Id)
    requires SameOthers(s, d, c) && s.conns[c].loop < |s.pollers|
  {
    var l := s.conns[c].loop;
    && (forall k :: 0 <= k < |s.pollers| && k != l ==> d.pollers[k] == s.pollers[k])
    && R.Inv(d.pollers[l])
    && d.pollers[l].chans ==
         s.pollers[l].chans[c := R.Chan(d.conns[c].fd, d.conns[c].conn.events, d.conns[c].conn.index)]
  }

  ghost predicate SameOtherCounts(s: State, d: State, c: Id)
    requires |d.loops| == |s.loops|
  {
    forall k, t: Task :: 0 <= k < |s.loops| && t.c != c ==> Count(d, k, t) == Count(s, k, t)
  }

  /** The queues are good again, only functors of `c` came or went, and no loop moved on. */
  ghost predicate LoopsMoved(s: State, d: State, c: Id) {
    && |d.loops| == |s.loops| && SameOtherCounts(s, d, c) && AllTasksOk(d)
    && (forall k :: 0 <= k < |d.loops| ==>
          d.loops[k].phase == s.loops[k].phase && |d.loops[k].queue| >= |s.loops[k].queue|)
  }

  lemma OtherBooksKept(s: State, d: State, c: Id, x: Id)
    requires SameOthers(s, d, c) && SameOtherCounts(s, d, c)
    requires x in s.conns && x != c && |s.loops| > 0 && s.conns[x].loop < |s.loops| && EntryOk(s, x)
    ensures EntryOk(d, x)
  {
    var e := s.conns[x];
    assert Count(d, e.loop, Establish(x)) == Count(s, e.loop, Establish(x));
    assert Count(d, BASE, RemoveConn(x)) == Count(s, BASE, RemoveConn(x));
    assert Count(d, e.loop, DestroyConn(x)) == Count(s, e.loop, DestroyConn(x));
  }

  lemma PollerKept(s: State, d: State, c: Id, l: nat)
    requires SameOthers(s, d, c) && s.conns[c].loop < |s.pollers| && SameOtherPollers(s, d, c)
    requires l < |s.pollers| && PollerOk(s, l)
    ensures PollerOk(d, l)
  {
    var r := d.pollers[l];
    assert R.Inv(r);
    forall x
      ensures x in r.chans <==> x in d.conns && d.conns[x].loop == l
      ensures x in r.chans ==> r.chans[x] == R.Chan(d.conns[x].fd, d.conns[x].conn.events, d.conns[x].conn.index)
    {
      assert x in s.pollers[l].chans <==> x in s.conns && s.conns[x].loop == l;
    }
  }

  lemma ShapeKept(s: State, d: State, c: Id)
    requires Shape(s) && SameOthers(s, d, c) && SameOtherPollers(s, d, c)
    requires d.conns[c].conn.input.Writable() >= 0
    ensures Shape(d)
  {
    forall x | x in d.conns
      ensures d.conns[x].loop < |d.pollers| && x in d.pollers[d.conns[x].loop].chans
      ensures d.conns[x].conn.input.Writable() >= 0
    {
    }
  }

  lemma NamesKept(s: State, d: State, c: Id)
    requires Names(s) && DistinctFds(s) && SameOthers(s, d, c)
    ensures Names(d) && DistinctFds(d)
  {
    forall x | x in d.connections
      ensures x in d.conns
    {
      assert x == c || x in s.connections;
    }
    forall x, y | x in d.conns && y in d.conns && x != y
      ensures d.conns[x].fd != d.conns[y].fd
    {
      assert d.conns[x].fd == s.conns[x].fd && d.conns[y].fd == s.conns[y].fd;
    }
  }

  /** A change around one connection keeps the invariant when its own books and the loops are good. */
  lemma ChangeKeepsInv(s: State, d: State, c: Id)
    requires InvExcept(s, c)
    requires SameOthers(s, d, c) && SameOtherPollers(s, d, c) && LoopsMoved(s, d, c)
    requires EntryOk(d, c) && AllPhasesOk(d)
    ensures Inv(d)
  {
    ShapeKept(s, d, c);
    NamesKept(s, d, c);
    forall x | x in d.conns && x != c
      ensures EntryOk(d, x)
    {
      OtherBooksKept(s, d, c, x);
    }
    forall l | 0 <= l < |d.pollers|
      ensures PollerOk(d, l)
    {
      PollerKept(s, d, c, l);
    }
  }

  // ----- Queues and phases

  lemma PostEffect(s: State, l: nat, tasks: seq<Task>, k: nat, t: Task)
    requires l < |s.loops| && k < |s.loops|
    ensures var d := Post(s, l, tasks);
      Count(d, k, t) == Count(s, k, t) + (if k == l then multiset(tasks)[t] else 0)
  {
  }

  /** The queue of loop `l` in `d` is what `s` had, possibly without its head, and then `more`. */
  ghost predicate QueueGrew(s: State, d: State, l: nat, popped: nat, more: seq<Task>)
    requires l < |s.loops| == |d.loops|
  {
    popped <= |s.loops[l].queue| && d.loops[l].queue == s.loops[l].queue[popped..] + more
  }

  lemma TasksKept(s: State, d: State, l: nat, popped: nat, more: seq<Task>)
    requires l < |s.loops| == |d.loops| && TasksOk(s, l) && QueueGrew(s, d, l, popped, more)
    requires d.conns.Keys == s.conns.Keys
    requires forall x :: x in s.conns ==> d.conns[x].loop == s.conns[x].loop
    requires |more| <= 1 && (more != [] ==> TaskOk(d, l, more[0]))
    ensures TasksOk(d, l)
  {
    var kept := s.loops[l].queue[popped..];
    forall i | 0 <= i < |d.loops[l].queue|
      ensures TaskOk(d, l, d.loops[l].queue[i])
    {
      if i < |kept| {
        assert d.loops[l].queue[i] == s.loops[l].queue[popped + i];
        assert TaskOk(s, l, s.loops[l].queue[popped + i]);
      } else {
        assert d.loops[l].queue[i] == more[0];
      }
    }
  }

  /** A change of one connection that no other handler notices. */
  ghost predicate Gentle(a: Entry, b: Entry) {
    && b.loop == a.loop && b.established == a.established && b.destroyed == a.destroyed
    && b.conn.closeCalls == a.conn.closeCalls
    && (a.conn.index == Added ==> b.conn.index == Added)
    && (forall m :: Reportable(m, a.conn.events) ==> Reportable(m, b.conn.events))
  }

  lemma ActiveKept(s: State, d: State, c: Id, l: nat, active: seq<R.Report<Id>>, stage: Stage)
    requires SameOthers(s, d, c) && ActiveOk(s, l, active, stage)
    requires s.conns[c].loop != l || Gentle(s.conns[c], d.conns[c]) || s.conns[c].established == 0
    ensures ActiveOk(d, l, active, stage)
  {
    forall i | 0 <= i < |active|
      ensures Reported(d, l, active[i].chan)
      ensures Untouched(s.conns[active[i].chan], active[i].mask) ==>
                Untouched(d.conns[active[i].chan], active[i].mask)
    {
      assert Reported(s, l, active[i].chan);
    }
  }

  lemma PhaseKept(s: State, d: State, c: Id, l: nat)
    requires SameOthers(s, d, c) && l < |s.loops| && PhaseOk(s, l)
    requires s.conns[c].loop != l || s.loops[l].phase.RunningTasks? || Gentle(s.conns[c], d.conns[c])
             || s.conns[c].established == 0
    requires d.loops[l].phase == s.loops[l].phase && |d.loops[l].queue| >= |s.loops[l].queue|
    ensures PhaseOk(d, l)
  {
    match s.loops[l].phase
    case Waiting =>
    case Dispatching(active, stage) => ActiveKept(s, d, c, l, active, stage);
    case RunningTasks(left, _) =>
  }

  // ----- What the connection's handlers do to its registration

  /** A handler that neither closes nor destroys, on a connection whose channel is registered
      unless it is not interested in changing that. */
  ghost predicate Serves(a: C.Conn, b: C.Conn) {
    && C.Inv(b) && b.closeCalls == a.closeCalls
    && (b.state == C.Connecting <==> a.state == C.Connecting)
    && (b.state == C.Disconnected <==> a.state == C.Disconnected)
    && b.index == a.index
    && (b.events != a.events ==> a.index == Added && !b.events.IsNone())
  }

  ghost predicate Widens(a: C.Conn, b: C.Conn) {
    forall m :: Reportable(m, a.events) ==> Reportable(m, b.events)
  }

  lemma SendServes(a: C.Conn, data: seq<Layouts.byte>, o: WriteOutcome)
    requires C.Inv(a) && Allows(o, |data|)
    ensures Serves(a, C.Send(a, data, o)) && Widens(a, C.Send(a, data, o))
  {
    CR.SendOnlyKeeps(a, data, o);
    CR.SendKeepsInv(a, data, o);
  }

  lemma ShutdownServes(a: C.Conn)
    requires C.Inv(a)
    ensures Serves(a, C.Shutdown(a)) && Widens(a, C.Shutdown(a))
  {
    CR.StepKeepsInv(a, C.ShutdownCalled);
  }

  lemma TakeServes(a: C.Conn, len: nat)
    requires C.Inv(a)
    ensures var b := C.Step(a, C.Taken(len)); Serves(a, b) && Widens(a, b)
  {
    CR.TakeKeepsInv(a, len);
  }

  lemma ReadServes(a: C.Conn, o: ReadOutcome)
    requires C.Inv(a) && a.index != New && o != ReadBytes([])
    ensures var b := C.HandleRead(a, o); Serves(a, b) && Widens(a, b)
  {
    CR.ReadKeepsInv(a, o);
  }

  lemma WriteServes(a: C.Conn, o: WriteOutcome)
    requires C.Inv(a) && a.index != New && Allows(o, |a.output.contents|)
    ensures Serves(a, C.HandleWrite(a, o))
  {
    CR.WriteKeepsInv(a, o);
  }

  // ----- Act

  lemma WireEffect(s: State, c: Id, e: Entry, r: R.Registry<Id>)
    requires !s.crashed && |s.loops| == |s.pollers| && c in s.conns && s.conns[c].loop < |s.pollers|
    requires e.loop == s.conns[c].loop && e.fd == s.conns[c].fd
    requires R.Inv(r)
    requires r.chans == s.pollers[e.loop].chans[c := R.Chan(e.fd, e.conn.events, e.conn.index)]
    ensures var d := Wire(s, c, e, r);
      SameOthers(s, d, c) && SameOtherPollers(s, d, c) && d.loops == s.loops && d.conns[c] == e
      && d.connections == s.connections
  {
  }

  lemma NotAmong(tasks: seq<Task>, t: Task)
    requires t !in tasks
    ensures multiset(tasks)[t] == 0
  {
  }

  /** Posting functors of `c` changes no other count and keeps every queue good. */
  lemma PostKeepsTasks(s: State, d: State, c: Id, l: nat, tasks: seq<Task>)
    requires SameOthers(s, d, c) && AllTasksOk(s) && l < |s.loops|
    requires d.loops == Post(s, l, tasks).loops
    requires |tasks| <= 1 && (tasks != [] ==> tasks[0].c == c && TaskOk(d, l, tasks[0]))
    ensures LoopsMoved(s, d, c)
  {
    forall k, t: Task | 0 <= k < |s.loops| && t.c != c
      ensures Count(d, k, t) == Count(s, k, t)
    {
      PostEffect(s, l, tasks, k, t);
      NotAmong(tasks, t);
    }
    forall k | 0 <= k < |d.loops|
      ensures TasksOk(d, k)
    {
      TasksKept(s, d, k, 0, if k == l then tasks else []);
    }
  }

  lemma ActFrame(s: State, c: Id, conn: C.Conn, r: R.Registry<Id>)
    requires !s.crashed && Shape(s) && c in s.conns
    requires AllTasksOk(s)
    requires var e := s.conns[c];
      && R.Inv(r) && r.chans == s.pollers[e.loop].chans[c := R.Chan(e.fd, conn.events, conn.index)]
      && r == if conn.events == e.conn.events then s.pollers[e.loop]
              else R.SetEvents(s.pollers[e.loop], c, conn.events)
    ensures var d := Act(s, c, conn);
      && SameOthers(s, d, c) && SameOtherPollers(s, d, c) && LoopsMoved(s, d, c)
      && d.conns[c] == s.conns[c].(conn := conn)
  {
    var e := s.conns[c];
    var d := Act(s, c, conn);
    var more := if |conn.queued| > |e.conn.queued| then [Notify(c)] else [];
    WireEffect(s, c, e.(conn := conn), r);
    PostKeepsTasks(s, d, c, e.loop, more);
  }

  lemma ActPoller(s: State, c: Id, conn: C.Conn)
    requires Inv(s) && c in s.conns && Serves(s.conns[c].conn, conn)
    ensures var e := s.conns[c];
      var r := if conn.events == e.conn.events then s.pollers[e.loop]
               else R.SetEvents(s.pollers[e.loop], c, conn.events);
      R.Inv(r) && r.chans == s.pollers[e.loop].chans[c := R.Chan(e.fd, conn.events, conn.index)]
  {
    var e := s.conns[c];
    assert PollerOk(s, e.loop);
    if conn.events != e.conn.events {
      R.SetEventsKeepsInv(s.pollers[e.loop], c, conn.events);
    }
  }

  lemma ActChanges(s: State, c: Id, conn: C.Conn)
    requires Shape(s) && c in s.conns
    ensures var d := Act(s, c, conn); var e := s.conns[c];
      && d.conns == s.conns[c := e.(conn := conn)] && d.connections == s.connections
      && d.loops == Post(s, e.loop, if |conn.queued| > |e.conn.queued| then [Notify(c)] else []).loops
  {
  }

  lemma ServedBooks(s: State, d: State, c: Id, more: seq<Task>)
    requires |s.loops| > 0 && c in s.conns && s.conns[c].loop < |s.loops| && EntryOk(s, c)
    requires c in d.conns && Serves(s.conns[c].conn, d.conns[c].conn)
    requires d.conns[c] == s.conns[c].(conn := d.conns[c].conn) && d.connections == s.connections
    requires more in {[], [Notify(c)]} && d.loops == Post(s, s.conns[c].loop, more).loops
    ensures EntryOk(d, c)
  {
    var l := s.conns[c].loop;
    PostEffect(s, l, more, l, Establish(c));
    PostEffect(s, l, more, BASE, RemoveConn(c));
    PostEffect(s, l, more, l, DestroyConn(c));
  }

  lemma ActBooks(s: State, c: Id, conn: C.Conn)
    requires Inv(s) && c in s.conns && Serves(s.conns[c].conn, conn)
    ensures var d := Act(s, c, conn); EntryOk(d, c)
  {
    assert EntryOk(s, c);
    ActChanges(s, c, conn);
    ServedBooks(s, Act(s, c, conn), c,
                if |conn.queued| > |s.conns[c].conn.queued| then [Notify(c)] else []);
  }

  /** User calls: send, shutdown and taking input. */
  lemma ActKeepsInv(s: State, c: Id, conn: C.Conn)
    requires Inv(s) && c in s.conns && Serves(s.conns[c].conn, conn) && Widens(s.conns[c].conn, conn)
    ensures Inv(Act(s, c, conn))
  {
    var d := Act(s, c, conn);
    var e := s.conns[c];
    ActPoller(s, c, conn);
    ActFrame(s, c, conn, if conn.events == e.conn.events then s.pollers[e.loop]
                         else R.SetEvents(s.pollers[e.loop], c, conn.events));
    ActBooks(s, c, conn);
    forall l | 0 <= l < |d.loops|
      ensures PhaseOk(d, l)
    {
      PhaseKept(s, d, c, l);
    }
    ChangeKeepsInv(s, d, c);
  }

  // ----- Closing

  /** Loop `l` looks at connection `c` only as the head whose read has been handled. */
  ghost predicate HeadDone(s: State, l: nat, c: Id)
    requires l < |s.loops|
  {
    s.loops[l].phase.Dispatching? && s.loops[l].phase.stage == WriteStage
    && s.loops[l].phase.active != [] && s.loops[l].phase.active[0].chan == c
  }

  lemma HeadPhaseKept(s: State, d: State, c: Id, l: nat)
    requires SameOthers(s, d, c) && l < |s.loops| && PhaseOk(s, l) && HeadDone(s, l, c)
    requires d.conns[c].established == s.conns[c].established
    requires d.conns[c].destroyed == s.conns[c].destroyed
    requires d.loops[l].phase == s.loops[l].phase
    ensures PhaseOk(d, l)
  {
    var active := s.loops[l].phase.active;
    forall i | 0 <= i < |active|
      ensures Reported(d, l, active[i].chan)
      ensures i > 0 ==> Untouched(d.conns[active[i].chan], active[i].mask)
    {
      assert Reported(s, l, active[i].chan);
    }
  }

  /** One more close, and how many there may be. */
  ghost predicate ClosesOnce(e: Entry, b: C.Conn, doubled: bool) {
    var a := e.conn;
    && C.Inv(b) && b.closeCalls == a.closeCalls + 1
    && b.state == C.Disconnected && b.events == NO_EVENT && b.index == NextIndex(a.index, NO_EVENT)
    && a.index != New
    && ((a.closeCalls == 0 && !doubled && a.index == Added)
        || (a.closeCalls == 1 && doubled)
        || (a.closeCalls == 2 && !doubled && a.index == Added))
  }

  lemma CloseWire(s: State, c: Id, conn: C.Conn, doubled: bool, r: R.Registry<Id>)
    requires !s.crashed && |s.loops| == |s.pollers| > 0 && c in s.conns && s.conns[c].loop < |s.pollers|
    requires R.Inv(r)
    requires r.chans == s.pollers[s.conns[c].loop].chans[
      c := R.Chan(s.conns[c].fd, conn.events, conn.index)]
    ensures var d := CloseWith(s, c, conn, doubled, r); var e := s.conns[c];
      && SameOthers(s, d, c) && SameOtherPollers(s, d, c)
      && d.conns[c] == e.(conn := conn, doubleClosed := e.doubleClosed || doubled,
                          removed := e.removed + if e.loop == BASE then 1 else 0)
      && d.connections == (if e.loop == BASE then s.connections - {c} else s.connections)
      && d.loops == (if e.loop == BASE then Post(s, BASE, [DestroyConn(c)])
                     else Post(s, BASE, [RemoveConn(c)])).loops
  {
  }

  lemma ClosePoller(s: State, c: Id, conn: C.Conn)
    requires Shape(s) && c in s.conns && PollerOk(s, s.conns[c].loop)
    requires conn.events == NO_EVENT && conn.index == NextIndex(s.conns[c].conn.index, NO_EVENT)
    ensures var l := s.conns[c].loop; var r := R.SetEvents(s.pollers[l], c, NO_EVENT);
      && R.Inv(r)
      && r.chans == s.pollers[l].chans[c := R.Chan(s.conns[c].fd, conn.events, conn.index)]
  {
    R.SetEventsKeepsInv(s.pollers[s.conns[c].loop], c, NO_EVENT);
  }

  lemma CloseBooks(s: State, d: State, c: Id, conn: C.Conn, doubled: bool)
    requires |s.loops| == |d.loops| > 0 && c in s.conns && s.conns[c].loop < |s.loops| && EntryOk(s, c)
    requires ClosesOnce(s.conns[c], conn, doubled) && s.conns[c].destroyed == 0
    requires c in d.conns
    requires var e := s.conns[c];
      && d.conns[c] == e.(conn := conn, doubleClosed := e.doubleClosed || doubled,
                          removed := e.removed + if e.loop == BASE then 1 else 0)
      && d.connections == (if e.loop == BASE then s.connections - {c} else s.connections)
      && d.loops == (if e.loop == BASE then Post(s, BASE, [DestroyConn(c)])
                     else Post(s, BASE, [RemoveConn(c)])).loops
    ensures EntryOk(d, c)
  {
    var e := s.conns[c];
    var more := if e.loop == BASE then [DestroyConn(c)] else [RemoveConn(c)];
    PostEffect(s, BASE, more, e.loop, Establish(c));
    PostEffect(s, BASE, more, BASE, RemoveConn(c));
    PostEffect(s, BASE, more, e.loop, DestroyConn(c));
  }

  lemma HeadPhases(s: State, d: State, c: Id)
    requires SameOthers(s, d, c) && s.conns[c].loop < |s.loops| && HeadDone(s, s.conns[c].loop, c)
    requires d.conns[c].established == s.conns[c].established
    requires d.conns[c].destroyed == s.conns[c].destroyed
    requires AllPhasesOk(s) && LoopsMoved(s, d, c)
    ensures AllPhasesOk(d)
  {
    forall l | 0 <= l < |d.loops|
      ensures PhaseOk(d, l)
    {
      if l == s.conns[c].loop {
        HeadPhaseKept(s, d, c, l);
      } else {
        PhaseKept(s, d, c, l);
      }
    }
  }

  lemma HeadChangeKeepsInv(s: State, d: State, c: Id)
    requires InvExcept(s, c) && SameOthers(s, d, c) && SameOtherPollers(s, d, c) && EntryOk(d, c)
    requires HeadDone(s, s.conns[c].loop, c) && LoopsMoved(s, d, c)
    requires d.conns[c].established == s.conns[c].established
    requires d.conns[c].destroyed == s.conns[c].destroyed
    ensures Inv(d)
  {
    HeadPhases(s, d, c);
    ChangeKeepsInv(s, d, c);
  }

  lemma CloseFacts(s: State, c: Id, conn: C.Conn, doubled: bool)
    requires !s.crashed && Shape(s) && c in s.conns && ClosesOnce(s.conns[c], conn, doubled)
    requires PollerOk(s, s.conns[c].loop) && EntryOk(s, c) && s.conns[c].destroyed == 0
    ensures var e := s.conns[c]; var d := CloseNow(s, c, conn, doubled);
      && SameOthers(s, d, c) && SameOtherPollers(s, d, c) && EntryOk(d, c)
      && d.conns[c].conn == conn && d.conns[c].loop == e.loop
      && d.conns[c].established == e.established && d.conns[c].destroyed == e.destroyed
      && d.loops == Post(s, BASE, [if e.loop == BASE then DestroyConn(c) else RemoveConn(c)]).loops
  {
    var e := s.conns[c];
    var r := R.SetEvents(s.pollers[e.loop], c, NO_EVENT);
    ClosePoller(s, c, conn);
    CloseWire(s, c, conn, doubled, r);
    CloseBooks(s, CloseWith(s, c, conn, doubled, r), c, conn, doubled);
  }

  lemma CloseKeepsInv(s: State, c: Id, conn: C.Conn, doubled: bool)
    requires Inv(s) && c in s.conns && ClosesOnce(s.conns[c], conn, doubled)
    requires HeadDone(s, s.conns[c].loop, c) && Reported(s, s.conns[c].loop, c)
    ensures var d := CloseNow(s, c, conn, doubled);
      && Inv(d) && |d.loops| == |s.loops| && c in d.conns
      && d.conns[c].conn == conn && d.conns[c].loop == s.conns[c].loop
      && (forall l :: 0 <= l < |d.loops| ==> d.loops[l].phase == s.loops[l].phase)
  {
    assert PollerOk(s, s.conns[c].loop) && EntryOk(s, c);
    CloseFacts(s, c, conn, doubled);
    var d := CloseNow(s, c, conn, doubled);
    var t := if s.conns[c].loop == BASE then DestroyConn(c) else RemoveConn(c);
    assert TaskOk(d, BASE, t);
    PostKeepsTasks(s, d, c, BASE, [t]);
    HeadChangeKeepsInv(s, d, c);
  }

  // ----- Steps that only move a loop on

  lemma ActiveSame(s: State, d: State, l: nat, active: seq<R.Report<Id>>, stage: Stage)
    requires ActiveOk(s, l, active, stage) && d.conns == s.conns
    ensures ActiveOk(d, l, active, stage)
  {
    forall i | 0 <= i < |active|
      ensures Reported(d, l, active[i].chan)
    {
      assert Reported(s, l, active[i].chan);
    }
  }

  lemma SetPhaseLoops(s: State, l: nat, p: Phase)
    requires AllTasksOk(s) && AllPhasesOk(s) && l < |s.loops|
    requires match p
      case Waiting => true
      case Dispatching(active, stage) => ActiveOk(s, l, active, stage)
      case RunningTasks(left, _) => left <= |s.loops[l].queue|
    ensures AllTasksOk(SetPhase(s, l, p)) && AllPhasesOk(SetPhase(s, l, p))
  {
    var d := SetPhase(s, l, p);
    forall k | 0 <= k < |d.loops|
      ensures TasksOk(d, k) && PhaseOk(d, k)
    {
      assert TasksOk(s, k) && PhaseOk(s, k);
      forall i | 0 <= i < |d.loops[k].queue|
        ensures TaskOk(d, k, d.loops[k].queue[i])
      {
        assert TaskOk(s, k, s.loops[k].queue[i]);
      }
      if d.loops[k].phase.Dispatching? {
        ActiveSame(s, d, k, d.loops[k].phase.active, d.loops[k].phase.stage);
      }
    }
  }

  lemma SetPhaseKeepsInv(s: State, l: nat, p: Phase)
    requires Inv(s) && l < |s.loops|
    requires match p
      case Waiting => true
      case Dispatching(active, stage) => ActiveOk(s, l, active, stage)
      case RunningTasks(left, _) => left <= |s.loops[l].queue|
    ensures Inv(SetPhase(s, l, p))
  {
    var d := SetPhase(s, l, p);
    SetPhaseLoops(s, l, p);
    forall c | c in d.conns
      ensures EntryOk(d, c)
    {
      assert EntryOk(s, c);
    }
    forall k | 0 <= k < |d.pollers|
      ensures PollerOk(d, k)
    {
      assert PollerOk(s, k);
    }
  }

  // ----- Running a functor

  lemma PopCount(s: State, l: nat, k: nat, t: Task)
    requires Enabled(s, RunTask(l)) && k < |s.loops|
    ensures Count(s, k, t) == Count(Pop(s, l), k, t) + if k == l && t == s.loops[l].queue[0] then 1 else 0
  {
    var q := s.loops[l].queue;
    assert q == [q[0]] + q[1..];
    assert multiset(q) == multiset([q[0]]) + multiset(q[1..]);
  }

  lemma PopBooks(s: State, l: nat, x: Id)
    requires Enabled(s, RunTask(l)) && x in s.conns && s.conns[x].loop < |s.loops| && EntryOk(s, x)
    requires x != s.loops[l].queue[0].c || s.loops[l].queue[0].Notify?
    ensures EntryOk(Pop(s, l), x)
  {
    PopCount(s, l, s.conns[x].loop, Establish(x));
    PopCount(s, l, BASE, RemoveConn(x));
    PopCount(s, l, s.conns[x].loop, DestroyConn(x));
  }

  lemma PopLoops(s: State, l: nat, k: nat)
    requires Enabled(s, RunTask(l)) && k < |s.loops| && TasksOk(s, k) && PhaseOk(s, k)
    ensures TasksOk(Pop(s, l), k) && PhaseOk(Pop(s, l), k)
  {
    var p := Pop(s, l);
    TasksKept(s, p, k, if k == l then 1 else 0, []);
    if k != l && s.loops[k].phase.Dispatching? {
      ActiveSame(s, p, k, s.loops[k].phase.active, s.loops[k].phase.stage);
    }
  }

  lemma PopInvExcept(s: State, l: nat)
    requires Inv(s) && Enabled(s, RunTask(l))
    ensures InvExcept(Pop(s, l), s.loops[l].queue[0].c)
  {
    var p := Pop(s, l);
    forall k | 0 <= k < |p.loops|
      ensures TasksOk(p, k) && PhaseOk(p, k)
    {
      PopLoops(s, l, k);
    }
    forall x | x in p.conns && x != s.loops[l].queue[0].c
      ensures EntryOk(p, x)
    {
      PopBooks(s, l, x);
    }
    forall k | 0 <= k < |p.pollers|
      ensures PollerOk(p, k)
    {
      assert PollerOk(s, k);
    }
  }

  /** A functor's effect on its connection keeps the invariant once the books agree again. */
  lemma TaskChangeKeepsInv(p: State, d: State, c: Id)
    requires InvExcept(p, c) && SameOthers(p, d, c) && SameOtherPollers(p, d, c)
    requires LoopsMoved(p, d, c) && EntryOk(d, c)
    requires p.loops[p.conns[c].loop].phase.RunningTasks? || Gentle(p.conns[c], d.conns[c])
             || p.conns[c].established == 0
    ensures Inv(d)
  {
    forall k | 0 <= k < |d.loops|
      ensures PhaseOk(d, k)
    {
      PhaseKept(p, d, c, k);
    }
    ChangeKeepsInv(p, d, c);
  }

  /** Nothing is posted: queues and counts stay. */
  lemma SameLoops(p: State, d: State, c: Id)
    requires d.loops == p.loops && SameOthers(p, d, c) && AllTasksOk(p)
    ensures LoopsMoved(p, d, c)
  {
    forall k | 0 <= k < |d.loops|
      ensures TasksOk(d, k)
    {
      TasksKept(p, d, k, 0, []);
    }
  }

  lemma EstablishIsWire(s: State, c: Id)
    requires Shape(s) && c in s.conns
    ensures var e := s.conns[c]; var conn := C.ConnectEstablished(e.conn);
      EstablishNow(s, c) == Wire(s, c, e.(conn := conn, established := e.established + 1),
                                 R.SetEvents(s.pollers[e.loop], c, conn.events))
  {
  }

  lemma DestroyIsWire(s: State, c: Id)
    requires Shape(s) && c in s.conns && s.conns[c].conn.state != C.Connected
    ensures var e := s.conns[c];
      DestroyNow(s, c) == Wire(s, c, e.(conn := C.ConnectDestroyed(e.conn), destroyed := e.destroyed + 1),
                               R.RemoveChannel(s.pollers[e.loop], c))
  {
  }

  lemma EstablishBooks(e: Entry, inMap: bool, nr: nat, nd: nat)
    requires Books(e, inMap, 1, nr, nd)
    ensures var conn := C.ConnectEstablished(e.conn);
      && Books(e.(conn := conn, established := e.established + 1), inMap, 0, nr, nd)
      && conn.index == NextIndex(e.conn.index, conn.events)
  {
    CR.StepKeepsInv(e.conn, C.Established);
  }

  lemma SetEventsOnPoller(p: State, c: Id, events: Events, index: Index)
    requires Shape(p) && c in p.conns && PollerOk(p, p.conns[c].loop)
    requires index == NextIndex(p.conns[c].conn.index, events)
    ensures var l := p.conns[c].loop; var r := R.SetEvents(p.pollers[l], c, events);
      R.Inv(r) && r.chans == p.pollers[l].chans[c := R.Chan(p.conns[c].fd, events, index)]
  {
    R.SetEventsKeepsInv(p.pollers[p.conns[c].loop], c, events);
  }

  lemma WireKeepsInv(p: State, c: Id, e: Entry, r: R.Registry<Id>, d: State)
    requires InvExcept(p, c) && c in p.conns && e.loop == p.conns[c].loop && e.fd == p.conns[c].fd
    requires R.Inv(r)
    requires r.chans == p.pollers[e.loop].chans[c := R.Chan(e.fd, e.conn.events, e.conn.index)]
    requires Books(e, c in p.connections, Count(p, e.loop, Establish(c)), Count(p, BASE, RemoveConn(c)),
                   Count(p, e.loop, DestroyConn(c)))
    requires p.loops[e.loop].phase.RunningTasks? || Gentle(p.conns[c], e) || p.conns[c].established == 0
    requires d == Wire(p, c, e, r)
    ensures Inv(d)
  {
    WireEffect(p, c, e, r);
    SameLoops(p, d, c);
    TaskChangeKeepsInv(p, d, c);
  }

  lemma EstablishOn(p: State, d: State, c: Id, e: Entry, r: R.Registry<Id>)
    requires InvExcept(p, c) && c in p.conns
    requires e == p.conns[c].(conn := C.ConnectEstablished(p.conns[c].conn),
                              established := p.conns[c].established + 1)
    requires Books(p.conns[c], c in p.connections, 1, Count(p, BASE, RemoveConn(c)),
                   Count(p, e.loop, DestroyConn(c)))
    requires Count(p, e.loop, Establish(c)) == 0
    requires R.Inv(r)
    requires r.chans == p.pollers[e.loop].chans[c := R.Chan(e.fd, e.conn.events, e.conn.index)]
    requires d == Wire(p, c, e, r)
    ensures Inv(d)
  {
    EstablishBooks(p.conns[c], c in p.connections, Count(p, BASE, RemoveConn(c)),
                   Count(p, e.loop, DestroyConn(c)));
    WireKeepsInv(p, c, e, r, d);
  }

  /** connectEstablished runs for a connection that has not been established; its functor, or the
      accepting handler, accounts for it. */
  lemma EstablishKeepsInv(p: State, c: Id)
    requires InvExcept(p, c) && c in p.conns
    requires var e := p.conns[c];
      Books(e, c in p.connections, 1, Count(p, BASE, RemoveConn(c)), Count(p, e.loop, DestroyConn(c)))
      && Count(p, e.loop, Establish(c)) == 0
    ensures Inv(EstablishNow(p, c))
  {
    var e := p.conns[c];
    var conn := C.ConnectEstablished(e.conn);
    assert PollerOk(p, e.loop);
    SetEventsOnPoller(p, c, conn.events, conn.index);
    EstablishIsWire(p, c);
    EstablishOn(p, EstablishNow(p, c), c, e.(conn := conn, established := e.established + 1),
                R.SetEvents(p.pollers[e.loop], c, conn.events));
  }

  // connectDestroyed

  lemma DestroyBooks(e: Entry, inMap: bool, nr: nat, nd: nat)
    requires Books(e, inMap, 0, nr, nd + 1)
    ensures e.conn.state == C.Disconnected
    ensures Books(e.(conn := C.ConnectDestroyed(e.conn), destroyed := e.destroyed + 1), inMap, 0, nr, nd)
  {
    CR.StepKeepsInv(e.conn, C.Destroyed);
  }

  lemma RemoveOnPoller(p: State, c: Id)
    requires Shape(p) && c in p.conns && PollerOk(p, p.conns[c].loop)
    ensures var l := p.conns[c].loop; var r := R.RemoveChannel(p.pollers[l], c);
      R.Inv(r) && r.chans == p.pollers[l].chans[c := R.Chan(p.conns[c].fd, p.conns[c].conn.events, New)]
  {
    R.RemoveKeepsInv(p.pollers[p.conns[c].loop], c);
  }

  lemma OwnPoller(p: State, c: Id)
    requires Shape(p) && AllPollersOk(p) && c in p.conns
    ensures PollerOk(p, p.conns[c].loop)
  {
    assert PollerOk(p, p.conns[c].loop);
  }

  lemma DestroyOn(p: State, d: State, c: Id, e: Entry, r: R.Registry<Id>)
    requires InvExcept(p, c) && c in p.conns && p.loops[p.conns[c].loop].phase.RunningTasks?
    requires e == p.conns[c].(conn := C.ConnectDestroyed(p.conns[c].conn),
                              destroyed := p.conns[c].destroyed + 1)
    requires Books(p.conns[c], c in p.connections, 0, Count(p, BASE, RemoveConn(c)),
                   Count(p, e.loop, DestroyConn(c)) + 1)
    requires Count(p, e.loop, Establish(c)) == 0
    requires R.Inv(r) && d == Wire(p, c, e, r)
    requires r.chans == p.pollers[e.loop].chans[c := R.Chan(e.fd, e.conn.events, e.conn.index)]
    ensures Inv(d)
  {
    DestroyBooks(p.conns[c], c in p.connections, Count(p, BASE, RemoveConn(c)),
                 Count(p, e.loop, DestroyConn(c)));
    WireKeepsInv(p, c, e, r, d);
  }

  /** Only a connection that is down is destroyed, so connectDestroyed only removes its channel. */
  lemma DestroyedEntry(p: State, c: Id)
    requires Shape(p) && c in p.conns && p.conns[c].conn.state == C.Disconnected
    requires PollerOk(p, p.conns[c].loop)
    ensures var e := p.conns[c]; var conn := C.ConnectDestroyed(e.conn);
      var r := R.RemoveChannel(p.pollers[e.loop], c);
      && R.Inv(r) && r.chans == p.pollers[e.loop].chans[c := R.Chan(e.fd, conn.events, conn.index)]
      && DestroyNow(p, c) == Wire(p, c, e.(conn := conn, destroyed := e.destroyed + 1), r)
  {
    DestroyIsWire(p, c);
    RemoveOnPoller(p, c);
  }

  lemma DestroyKeepsInv(p: State, c: Id)
    requires InvExcept(p, c) && c in p.conns && p.loops[p.conns[c].loop].phase.RunningTasks?
    requires var e := p.conns[c];
      Books(e, c in p.connections, 0, Count(p, BASE, RemoveConn(c)), Count(p, e.loop, DestroyConn(c)) + 1)
      && Count(p, e.loop, Establish(c)) == 0
    ensures Inv(DestroyNow(p, c))
  {
    var e := p.conns[c];
    OwnPoller(p, c);
    DestroyedEntry(p, c);
    DestroyOn(p, DestroyNow(p, c), c,
              e.(conn := C.ConnectDestroyed(e.conn), destroyed := e.destroyed + 1),
              R.RemoveChannel(p.pollers[e.loop], c));
  }

  // removeConnectionInLoop as a functor

  lemma RemoveChanges(p: State, c: Id)
    requires |p.loops| == |p.pollers| && c in p.conns && p.conns[c].loop < |p.loops|
    ensures var d := RemoveInLoop(p, c); var e := p.conns[c];
      && d.conns == p.conns[c := e.(removed := e.removed + 1)] && d.connections == p.connections - {c}
      && d.pollers == p.pollers && d.gone == p.gone && d.nextId == p.nextId && d.crashed == p.crashed
      && d.loops == Post(p, e.loop, [DestroyConn(c)]).loops
  {
  }

  /** Nothing changed in the pollers. */
  lemma SamePollers(p: State, d: State, c: Id, e: Entry)
    requires !d.crashed && Shape(p) && c in p.conns && PollerOk(p, p.conns[c].loop)
    requires d.conns == p.conns[c := e] && |d.loops| == |p.loops| && d.pollers == p.pollers
    requires d.connections == p.connections - {c} && d.gone == p.gone && d.nextId == p.nextId
    requires e.loop == p.conns[c].loop && e.fd == p.conns[c].fd && e.conn == p.conns[c].conn
    ensures SameOthers(p, d, c) && SameOtherPollers(p, d, c)
  {
  }

  lemma RemoveWire(p: State, c: Id)
    requires !p.crashed && Shape(p) && c in p.conns && PollerOk(p, p.conns[c].loop)
    ensures var d := RemoveInLoop(p, c); var e := p.conns[c];
      && SameOthers(p, d, c) && SameOtherPollers(p, d, c)
      && d.conns[c] == e.(removed := e.removed + 1) && d.connections == p.connections - {c}
      && d.loops == Post(p, e.loop, [DestroyConn(c)]).loops
  {
    RemoveChanges(p, c);
    SamePollers(p, RemoveInLoop(p, c), c, p.conns[c].(removed := p.conns[c].removed + 1));
  }

  lemma RemoveBooks(p: State, d: State, c: Id)
    requires |p.loops| == |d.loops| > 0 && c in p.conns && c in d.conns && p.conns[c].loop < |p.loops|
    requires var e := p.conns[c];
      && Books(e, c in p.connections, Count(p, e.loop, Establish(c)), Count(p, BASE, RemoveConn(c)) + 1,
               Count(p, e.loop, DestroyConn(c)))
      && d.conns[c] == e.(removed := e.removed + 1) && d.connections == p.connections - {c}
      && d.loops == Post(p, e.loop, [DestroyConn(c)]).loops
    ensures EntryOk(d, c)
  {
    var l := p.conns[c].loop;
    PostEffect(p, l, [DestroyConn(c)], l, Establish(c));
    PostEffect(p, l, [DestroyConn(c)], BASE, RemoveConn(c));
    PostEffect(p, l, [DestroyConn(c)], l, DestroyConn(c));
  }

  lemma RemovedKeepsInv(p: State, d: State, c: Id)
    requires InvExcept(p, c) && SameOthers(p, d, c) && SameOtherPollers(p, d, c) && EntryOk(d, c)
    requires var e := p.conns[c];
      && d.conns[c] == e.(removed := e.removed + 1)
      && d.loops == Post(p, e.loop, [DestroyConn(c)]).loops
    ensures Inv(d)
  {
    assert TaskOk(d, p.conns[c].loop, DestroyConn(c));
    PostKeepsTasks(p, d, c, p.conns[c].loop, [DestroyConn(c)]);
    TaskChangeKeepsInv(p, d, c);
  }

  lemma RemoveKeepsInv(p: State, c: Id)
    requires InvExcept(p, c) && c in p.conns
    requires var e := p.conns[c];
      Books(e, c in p.connections, Count(p, e.loop, Establish(c)), Count(p, BASE, RemoveConn(c)) + 1,
            Count(p, e.loop, DestroyConn(c)))
    ensures Inv(RemoveInLoop(p, c))
  {
    var d := RemoveInLoop(p, c);
    assert PollerOk(p, p.conns[c].loop);
    RemoveWire(p, c);
    RemoveBooks(p, d, c);
    RemovedKeepsInv(p, d, c);
  }

  lemma PopNotify(s: State, l: nat)
    requires Enabled(s, RunTask(l)) && InvExcept(Pop(s, l), s.loops[l].queue[0].c)
    requires s.loops[l].queue[0].c in s.conns && EntryOk(Pop(s, l), s.loops[l].queue[0].c)
    ensures Inv(Pop(s, l))
  {
  }

  lemma RunTaskKeepsInv(s: State, l: nat)
    requires Inv(s) && Enabled(s, RunTask(l))
    ensures Inv(Apply(s, RunTask(l)))
  {
    var t := s.loops[l].queue[0];
    var c := t.c;
    var p := Pop(s, l);
    assert TasksOk(s, l);
    assert TaskOk(s, l, t);
    assert EntryOk(s, c);
    PopInvExcept(s, l);
    PopCount(s, l, s.conns[c].loop, Establish(c));
    PopCount(s, l, BASE, RemoveConn(c));
    PopCount(s, l, s.conns[c].loop, DestroyConn(c));
    match t
    case Establish(_) => EstablishKeepsInv(p, c);
    case RemoveConn(_) => RemoveKeepsInv(p, c);
    case DestroyConn(_) => DestroyKeepsInv(p, c);
    case Notify(_) => PopBooks(s, l, c); PopNotify(s, l);
  }

  // ----- Dispatching events

  lemma PhaseCommutesWithPost(loops: seq<Loop>, l: nat, q: Phase, q': Phase, k: nat, t: Task)
    requires l < |loops| && k < |loops|
    ensures var a := loops[l := loops[l].(phase := q)];
      var b := a[k := a[k].(queue := a[k].queue + [t])];
      var d := loops[k := loops[k].(queue := loops[k].queue + [t])];
      b[l := b[l].(phase := q')] == d[l := d[l].(phase := q')]
  {
  }

  /** Closing a connection and moving its loop on are independent. */
  lemma PhaseCommutesWithClose(s: State, l: nat, q: Phase, q': Phase, c: Id, conn: C.Conn, doubled: bool,
                               r: R.Registry<Id>)
    requires |s.loops| == |s.pollers| > 0 && c in s.conns && s.conns[c].loop < |s.pollers| && l < |s.loops|
    ensures SetPhase(CloseWith(SetPhase(s, l, q), c, conn, doubled, r), l, q')
         == SetPhase(CloseWith(s, c, conn, doubled, r), l, q')
  {
    PhaseCommutesWithPost(s.loops, l, q, q', BASE,
                          if s.conns[c].loop == BASE then DestroyConn(c) else RemoveConn(c));
  }

  lemma OwnedWhileRegistered(d: State, c: Id)
    requires Inv(d) && c in d.conns && d.conns[c].conn.index != New
    ensures OwnedByServer(d, c) && Held(d, c)
  {
    assert EntryOk(d, c);
    var l := d.conns[c].loop;
    if c !in d.connections {
      assert DestroyConn(c) in d.loops[l].queue;
      var i :| 0 <= i < |d.loops[l].queue| && d.loops[l].queue[i] == DestroyConn(c);
      assert d.loops[l].queue[i].c == c;
    }
  }

  lemma BeginKeepsInv(s: State, l: nat)
    requires Inv(s) && Enabled(s, BeginEvent(l))
    ensures Inv(Apply(s, BeginEvent(l)))
  {
    var p := s.loops[l].phase;
    assert PhaseOk(s, l);
    assert Reported(s, l, p.active[0].chan);
    OwnedWhileRegistered(s, p.active[0].chan);
    SetPhaseKeepsInv(s, l, p.(stage := CloseStage));
  }

  /** Whatever head the loop is at, it may be treated as done. */
  lemma HeadMayBeDone(s: State, l: nat)
    requires Inv(s) && l < |s.loops| && s.loops[l].phase.Dispatching? && s.loops[l].phase.active != []
    ensures Inv(SetPhase(s, l, s.loops[l].phase.(stage := WriteStage)))
    ensures Reported(s, l, s.loops[l].phase.active[0].chan)
  {
    assert PhaseOk(s, l);
    var p := s.loops[l].phase;
    assert ActiveOk(s, l, p.active, WriteStage);
    SetPhaseKeepsInv(s, l, p.(stage := WriteStage));
  }

  lemma CloseStageCloses(e: Entry, inMap: bool, ne: nat, nr: nat, nd: nat, m: Events)
    requires Books(e, inMap, ne, nr, nd) && Untouched(e, m) && m.pollHup && !m.pollIn
    ensures var b := C.HandleClose(e.conn);
      && ClosesOnce(e, b, false)
      && b.closeCalls in {1, 3} && (b.closeCalls == 3 ==> !m.pollPri)
  {
    CR.StepKeepsInv(e.conn, C.Closed);
  }

  lemma CloseHead(s: State, l: nat, c: Id, conn: C.Conn, doubled: bool)
    requires Inv(s) && l < |s.loops| && s.loops[l].phase.Dispatching? && s.loops[l].phase.active != []
    requires c == s.loops[l].phase.active[0].chan && Reported(s, l, c)
    requires ClosesOnce(s.conns[c], conn, doubled)
    requires Inv(SetPhase(s, l, s.loops[l].phase.(stage := WriteStage)))
    ensures var p := s.loops[l].phase.(stage := WriteStage);
      var d := CloseNow(SetPhase(s, l, p), c, conn, doubled);
      && Inv(d) && l < |d.loops| && d.loops[l].phase == p
      && c in d.conns && d.conns[c].conn == conn
  {
    CloseKeepsInv(SetPhase(s, l, s.loops[l].phase.(stage := WriteStage)), c, conn, doubled);
  }

  /** From the end of the close stage to the read stage. */
  lemma ReadStageNext(d: State, l: nat, active: seq<R.Report<Id>>)
    requires Inv(d) && l < |d.loops| && active != [] && d.loops[l].phase == Dispatching(active, WriteStage)
    requires active[0].chan in d.conns && CloseHandled(d.conns[active[0].chan], active[0].mask)
    ensures Inv(SetPhase(d, l, Dispatching(active, ReadStage)))
  {
    assert PhaseOk(d, l);
    assert ActiveOk(d, l, active, ReadStage);
    SetPhaseKeepsInv(d, l, Dispatching(active, ReadStage));
  }

  lemma OnCloseKeepsInv(s: State, l: nat)
    requires Inv(s) && Enabled(s, OnClose(l))
    ensures Inv(Apply(s, OnClose(l)))
  {
    var p := s.loops[l].phase;
    var c, m := p.active[0].chan, p.active[0].mask;
    HeadMayBeDone(s, l);
    assert PhaseOk(s, l) && EntryOk(s, c);
    assert Untouched(s.conns[c], m);
    if m.pollHup && !m.pollIn {
      var e := s.conns[c];
      var conn := C.HandleClose(e.conn);
      CloseStageCloses(e, c in s.connections, Count(s, e.loop, Establish(c)), Count(s, BASE, RemoveConn(c)),
                       Count(s, e.loop, DestroyConn(c)), m);
      CloseHead(s, l, c, conn, false);
      var closed := CloseNow(SetPhase(s, l, p.(stage := WriteStage)), c, conn, false);
      ReadStageNext(closed, l, p.active);
      PhaseCommutesWithClose(s, l, p.(stage := WriteStage), p.(stage := ReadStage), c, conn, false,
                             R.SetEvents(s.pollers[e.loop], c, NO_EVENT));
    } else {
      SetPhaseKeepsInv(s, l, p.(stage := ReadStage));
    }
  }

  lemma ReadStageCloses(e: Entry, inMap: bool, ne: nat, nr: nat, nd: nat, m: Events)
    requires Books(e, inMap, ne, nr, nd) && CloseHandled(e, m) && (m.pollIn || m.pollPri)
    requires e.conn.index != New
    ensures ClosesOnce(e, C.HandleRead(e.conn, ReadBytes([])), m.pollHup && m.pollPri && !m.pollIn)
  {
    CR.ReadKeepsInv(e.conn, ReadBytes([]));
  }

  lemma ReadCloses(s: State, l: nat, read: ReadOutcome)
    requires Inv(s) && Enabled(s, OnRead(l, read)) && read == ReadBytes([])
    requires s.loops[l].phase.active[0].chan in s.conns
    requires var m := s.loops[l].phase.active[0].mask; m.pollIn || m.pollPri
    ensures Inv(Apply(s, OnRead(l, read)))
  {
    var p := s.loops[l].phase;
    var c, m := p.active[0].chan, p.active[0].mask;
    HeadMayBeDone(s, l);
    assert PhaseOk(s, l) && EntryOk(s, c);
    var e := s.conns[c];
    var conn := C.HandleRead(e.conn, read);
    var doubled := m.pollHup && m.pollPri && !m.pollIn;
    ReadStageCloses(e, c in s.connections, Count(s, e.loop, Establish(c)), Count(s, BASE, RemoveConn(c)),
                    Count(s, e.loop, DestroyConn(c)), m);
    CloseHead(s, l, c, conn, doubled);
    var done := p.(stage := WriteStage);
    HeadMayBeDone(CloseNow(SetPhase(s, l, done), c, conn, doubled), l);
    PhaseCommutesWithClose(s, l, done, done, c, conn, doubled,
                           R.SetEvents(s.pollers[e.loop], c, NO_EVENT));
  }

  lemma OnReadKeepsInv(s: State, l: nat, read: ReadOutcome)
    requires Inv(s) && Enabled(s, OnRead(l, read))
    ensures Inv(Apply(s, OnRead(l, read)))
  {
    var p := s.loops[l].phase;
    var c, m := p.active[0].chan, p.active[0].mask;
    HeadMayBeDone(s, l);
    assert PhaseOk(s, l) && EntryOk(s, c);
    if !(m.pollIn || m.pollPri) {
    } else if read == ReadBytes([]) {
      ReadCloses(s, l, read);
    } else {
      var conn := C.HandleRead(s.conns[c].conn, read);
      ReadServes(s.conns[c].conn, read);
      ActKeepsInv(s, c, conn);
      HeadMayBeDone(Act(s, c, conn), l);
    }
  }

  /** The write handler may narrow the interest of the head, which nothing else looks at. */
  lemma ActHeadKeepsInv(s: State, c: Id, conn: C.Conn)
    requires Inv(s) && c in s.conns && Serves(s.conns[c].conn, conn)
    requires HeadDone(s, s.conns[c].loop, c)
    ensures var d := Act(s, c, conn);
      && Inv(d) && |d.loops| == |s.loops|
      && d.loops[s.conns[c].loop].phase == s.loops[s.conns[c].loop].phase
  {
    var e := s.conns[c];
    ActPoller(s, c, conn);
    ActFrame(s, c, conn, if conn.events == e.conn.events then s.pollers[e.loop]
                         else R.SetEvents(s.pollers[e.loop], c, conn.events));
    ActBooks(s, c, conn);
    HeadChangeKeepsInv(s, Act(s, c, conn), c);
  }

  lemma PopActive(d: State, l: nat)
    requires Inv(d) && l < |d.loops| && d.loops[l].phase.Dispatching?
    requires d.loops[l].phase.active != [] && d.loops[l].phase.stage == WriteStage
    ensures Inv(SetPhase(d, l, Dispatching(d.loops[l].phase.active[1..], Lock)))
  {
    assert PhaseOk(d, l);
    var active := d.loops[l].phase.active;
    var rest := active[1..];
    assert ActiveOk(d, l, rest, Lock) by {
      forall i | 0 <= i < |rest|
        ensures Reported(d, l, rest[i].chan) && Untouched(d.conns[rest[i].chan], rest[i].mask)
      {
        assert rest[i] == active[i + 1];
        assert Reported(d, l, active[i + 1].chan);
      }
    }
    SetPhaseKeepsInv(d, l, Dispatching(rest, Lock));
  }

  lemma OnWriteKeepsInv(s: State, l: nat, write: WriteOutcome)
    requires Inv(s) && Enabled(s, OnWrite(l, write))
    ensures Inv(Apply(s, OnWrite(l, write)))
  {
    var p := s.loops[l].phase;
    var c, m := p.active[0].chan, p.active[0].mask;
    assert PhaseOk(s, l);
    assert Reported(s, l, c);
    if m.pollOut {
      var conn := C.HandleWrite(s.conns[c].conn, write);
      assert EntryOk(s, c);
      WriteServes(s.conns[c].conn, write);
      ActHeadKeepsInv(s, c, conn);
      PopActive(Act(s, c, conn), l);
    } else {
      PopActive(s, l);
    }
  }

  lemma PollKeepsInv(s: State, l: nat, reports: seq<R.Report<Id>>)
    requires Inv(s) && Enabled(s, PollReturn(l, reports))
    ensures Inv(Apply(s, PollReturn(l, reports)))
  {
    assert PollerOk(s, l);
    forall i: nat | i < |reports|
      ensures Reported(s, l, reports[i].chan) && Untouched(s.conns[reports[i].chan], reports[i].mask)
    {
      R.ReportsAreRegistered(s.pollers[l], reports, i);
      assert EntryOk(s, reports[i].chan);
    }
    SetPhaseKeepsInv(s, l, Dispatching(reports, Lock));
  }

  // ----- Accepting

  lemma NobodyRefers(s: State, c: Id, k: nat, t: Task)
    requires k < |s.loops| && t.c == c
    requires forall i :: 0 <= i < |s.loops[k].queue| ==> s.loops[k].queue[i].c != c
    ensures Count(s, k, t) == 0
  {
    assert t !in s.loops[k].queue;
  }

  /** The new connection object: known to nobody but the server's map. */
  function Made(s: State, io: nat, e: Entry, r: R.Registry<Id>): State
    requires |s.loops| == |s.pollers| && io < |s.loops| && e.loop == io
  {
    Wire(s.(connections := s.connections + {s.nextId}, nextId := s.nextId + 1), s.nextId, e, r)
  }

  lemma MadePollers(s: State, d: State, io: nat, e: Entry, r: R.Registry<Id>, k: nat)
    requires |s.loops| == |s.pollers| && io < |s.loops| && e.loop == io && s.nextId !in s.conns
    requires d == Made(s, io, e, r) && k < |s.pollers| && PollerOk(s, k)
    requires R.Inv(r)
    requires r.chans == s.pollers[io].chans[s.nextId := R.Chan(e.fd, e.conn.events, e.conn.index)]
    ensures PollerOk(d, k)
  {
    forall x
      ensures x in d.pollers[k].chans <==> x in d.conns && d.conns[x].loop == k
      ensures x in d.pollers[k].chans ==>
        d.pollers[k].chans[x] == R.Chan(d.conns[x].fd, d.conns[x].conn.events, d.conns[x].conn.index)
    {
      assert x in s.pollers[k].chans <==> x in s.conns && s.conns[x].loop == k;
    }
  }

  lemma MadeLoops(s: State, d: State, io: nat, e: Entry, r: R.Registry<Id>, k: nat)
    requires |s.loops| == |s.pollers| && io < |s.loops| && e.loop == io && s.nextId !in s.conns
    requires d == Made(s, io, e, r) && k < |s.loops| && TasksOk(s, k) && PhaseOk(s, k)
    ensures TasksOk(d, k) && PhaseOk(d, k)
  {
    forall i | 0 <= i < |d.loops[k].queue|
      ensures TaskOk(d, k, d.loops[k].queue[i])
    {
      assert TaskOk(s, k, s.loops[k].queue[i]);
    }
    if s.loops[k].phase.Dispatching? {
      var active := s.loops[k].phase.active;
      forall i | 0 <= i < |active|
        ensures Reported(d, k, active[i].chan) && d.conns[active[i].chan] == s.conns[active[i].chan]
      {
        assert Reported(s, k, active[i].chan);
      }
    }
  }

  lemma MadeNames(s: State, d: State, io: nat, e: Entry, r: R.Registry<Id>)
    requires Shape(s) && io < |s.loops| && e.loop == io
    requires Names(s) && DistinctFds(s) && e.conn.input.Writable() >= 0
    requires forall x :: x in s.conns ==> s.conns[x].fd != e.fd
    requires r.chans == s.pollers[io].chans[s.nextId := R.Chan(e.fd, e.conn.events, e.conn.index)]
    requires d == Made(s, io, e, r)
    ensures s.nextId !in s.conns && Shape(d) && Names(d) && DistinctFds(d)
  {
    forall x | x in d.conns
      ensures d.conns[x].loop < |d.pollers| && x in d.pollers[d.conns[x].loop].chans
      ensures d.conns[x].conn.input.Writable() >= 0
    {
      assert x == s.nextId || x in s.conns;
    }
  }

  lemma MadeInvExcept(s: State, d: State, io: nat, e: Entry, r: R.Registry<Id>)
    requires Inv(s) && io < |s.loops| && e.loop == io && e.conn.input.Writable() >= 0
    requires forall x :: x in s.conns ==> s.conns[x].fd != e.fd
    requires R.Inv(r)
    requires r.chans == s.pollers[io].chans[s.nextId := R.Chan(e.fd, e.conn.events, e.conn.index)]
    requires d == Made(s, io, e, r)
    ensures InvExcept(d, s.nextId)
    ensures forall k, t: Task :: 0 <= k < |d.loops| && t.c == s.nextId ==> Count(d, k, t) == 0
  {
    MadeNames(s, d, io, e, r);
    forall k | 0 <= k < |s.loops|
      ensures TasksOk(d, k) && PhaseOk(d, k) && PollerOk(d, k)
    {
      assert TasksOk(s, k) && PhaseOk(s, k) && PollerOk(s, k);
      MadeLoops(s, d, io, e, r, k);
      MadePollers(s, d, io, e, r, k);
    }
    forall x | x in d.conns && x != s.nextId
      ensures EntryOk(d, x)
    {
      assert EntryOk(s, x);
    }
    forall k, t: Task | 0 <= k < |d.loops| && t.c == s.nextId
      ensures Count(d, k, t) == 0
    {
      assert TasksOk(s, k);
      forall i | 0 <= i < |d.loops[k].queue|
        ensures d.loops[k].queue[i].c != s.nextId
      {
        assert TaskOk(s, k, s.loops[k].queue[i]);
      }
      NobodyRefers(d, s.nextId, k, t);
    }
  }

  /** The functor that carries a new connection to its io loop. */
  lemma CarryEntry(p: State, d: State, c: Id)
    requires |p.loops| > 0 && c in p.conns && c in p.connections && p.conns[c].loop < |p.loops|
    requires var e := p.conns[c]; Books(e, true, 1, 0, 0) && e.established == 0
    requires forall k, t: Task :: 0 <= k < |p.loops| && t.c == c ==> Count(p, k, t) == 0
    requires d == Post(p, p.conns[c].loop, [Establish(c)])
    ensures EntryOk(d, c)
  {
    var l := p.conns[c].loop;
    PostEffect(p, l, [Establish(c)], l, Establish(c));
    PostEffect(p, l, [Establish(c)], BASE, RemoveConn(c));
    PostEffect(p, l, [Establish(c)], l, DestroyConn(c));
  }

  lemma CarryKeepsInv(p: State, d: State, c: Id)
    requires InvExcept(p, c) && c in p.conns && c in p.connections
    requires var e := p.conns[c]; Books(e, true, 1, 0, 0) && e.established == 0
    requires forall k, t: Task :: 0 <= k < |p.loops| && t.c == c ==> Count(p, k, t) == 0
    requires d == Post(p, p.conns[c].loop, [Establish(c)])
    ensures Inv(d)
  {
    var l := p.conns[c].loop;
    assert PollerOk(p, l);
    assert TaskOk(d, l, Establish(c));
    PostKeepsTasks(p, d, c, l, [Establish(c)]);
    CarryEntry(p, d, c);
    TaskChangeKeepsInv(p, d, c);
  }

  lemma NewEntryBooks(io: nat, fd: int, settings: Settings)
    ensures Books(Entry(io, fd, Blank(settings), 0, 0, 0, false),
                  true, 1, 0, 0)
  {
    CR.NewConnInv(settings.mark, settings.highWater, settings.writeComplete);
  }

  lemma CreateOnPoller(s: State, io: nat, fd: int)
    requires io < |s.pollers| && PollerOk(s, io) && s.nextId !in s.conns
    requires forall x :: x in s.conns ==> s.conns[x].fd != fd
    ensures R.Inv(R.CreateChannel(s.pollers[io], s.nextId, fd))
  {
    R.CreateKeepsInv(s.pollers[io], s.nextId, fd);
  }

  lemma AcceptKeepsInv(s: State, io: nat, fd: int, settings: Settings)
    requires Inv(s) && Enabled(s, Accept(io, fd, settings))
    ensures Inv(AcceptNow(s, io, fd, settings))
  {
    var c := s.nextId;
    var e := Entry(io, fd, Blank(settings), 0, 0, 0, false);
    var r := R.CreateChannel(s.pollers[io], c, fd);
    var made := Made(s, io, e, r);
    assert PollerOk(s, io);
    CreateOnPoller(s, io, fd);
    NewEntryBooks(io, fd, settings);
    MadeInvExcept(s, made, io, e, r);
    if io == BASE {
      EstablishKeepsInv(made, c);
    } else {
      CarryKeepsInv(made, Post(made, io, [Establish(c)]), c);
    }
  }

  // ----- Freeing

  /** An unheld connection has been established, removed and destroyed, and is not registered. */
  lemma UnheldIsDone(s: State, c: Id)
    requires Inv(s) && Enabled(s, Free(c))
    ensures GoneOk(s.conns[c])
    ensures forall l, i :: 0 <= l < |s.loops| && 0 <= i < |s.loops[l].queue| ==> s.loops[l].queue[i].c != c
  {
    var l := s.conns[c].loop;
    forall k, i | 0 <= k < |s.loops| && 0 <= i < |s.loops[k].queue|
      ensures s.loops[k].queue[i].c != c
    {
      assert !Held(s, c);
    }
    NobodyRefers(s, c, l, Establish(c));
    NobodyRefers(s, c, BASE, RemoveConn(c));
    NobodyRefers(s, c, l, DestroyConn(c));
    assert EntryOk(s, c);
  }

  lemma FreePollers(s: State, d: State, c: Id, k: nat)
    requires c in s.conns && s.conns[c].conn.index == New && s.conns[c].loop < |s.pollers|
    requires k < |s.pollers| && PollerOk(s, k)
    requires d.conns == s.conns - {c}
    requires d.pollers == s.pollers[s.conns[c].loop := R.DestroyChannel(s.pollers[s.conns[c].loop], c)]
    ensures PollerOk(d, k)
  {
    if k == s.conns[c].loop {
      R.DestroyKeepsInv(s.pollers[k], c);
    }
  }

  lemma FreeLoops(s: State, d: State, c: Id, k: nat)
    requires c in s.conns && s.conns[c].destroyed > 0 && k < |s.loops| && TasksOk(s, k) && PhaseOk(s, k)
    requires forall i :: 0 <= i < |s.loops[k].queue| ==> s.loops[k].queue[i].c != c
    requires d.conns == s.conns - {c} && d.loops == s.loops
    ensures TasksOk(d, k) && PhaseOk(d, k)
  {
    forall i | 0 <= i < |d.loops[k].queue|
      ensures TaskOk(d, k, d.loops[k].queue[i])
    {
      assert TaskOk(s, k, s.loops[k].queue[i]);
    }
    if s.loops[k].phase.Dispatching? {
      var active := s.loops[k].phase.active;
      forall i | 0 <= i < |active|
        ensures Reported(d, k, active[i].chan) && d.conns[active[i].chan] == s.conns[active[i].chan]
      {
        assert Reported(s, k, active[i].chan);
      }
    }
  }

  lemma FreedNames(s: State, d: State, c: Id)
    requires Shape(s) && Names(s) && DistinctFds(s)
    requires c in s.conns && GoneOk(s.conns[c]) && c !in s.connections
    requires d.loops == s.loops && d.conns == s.conns - {c} && d.gone == s.gone[c := s.conns[c]]
    requires d.pollers == s.pollers[s.conns[c].loop := R.DestroyChannel(s.pollers[s.conns[c].loop], c)]
    requires d.connections == s.connections && d.nextId == s.nextId
    ensures Shape(d) && Names(d) && DistinctFds(d)
  {
  }

  lemma FreedLoops(s: State, d: State, c: Id)
    requires Inv(s) && c in s.conns && GoneOk(s.conns[c])
    requires forall l, i :: 0 <= l < |s.loops| && 0 <= i < |s.loops[l].queue| ==> s.loops[l].queue[i].c != c
    requires d.loops == s.loops && d.conns == s.conns - {c} && d.gone == s.gone[c := s.conns[c]]
    requires d.pollers == s.pollers[s.conns[c].loop := R.DestroyChannel(s.pollers[s.conns[c].loop], c)]
    requires d.connections == s.connections && d.nextId == s.nextId && !d.crashed
    ensures forall k :: 0 <= k < |d.loops| ==> TasksOk(d, k) && PhaseOk(d, k) && PollerOk(d, k)
  {
    forall k | 0 <= k < |d.loops|
      ensures TasksOk(d, k) && PhaseOk(d, k) && PollerOk(d, k)
    {
      assert TasksOk(s, k) && PhaseOk(s, k) && PollerOk(s, k);
      FreeLoops(s, d, c, k);
      FreePollers(s, d, c, k);
    }
  }

  lemma FreedKeepsInv(s: State, d: State, c: Id)
    requires Inv(s) && c in s.conns && GoneOk(s.conns[c])
    requires forall l, i :: 0 <= l < |s.loops| && 0 <= i < |s.loops[l].queue| ==> s.loops[l].queue[i].c != c
    requires d.loops == s.loops && d.conns == s.conns - {c} && d.gone == s.gone[c := s.conns[c]]
    requires d.pollers == s.pollers[s.conns[c].loop := R.DestroyChannel(s.pollers[s.conns[c].loop], c)]
    requires d.connections == s.connections && d.nextId == s.nextId && !d.crashed
    ensures Inv(d)
  {
    assert EntryOk(s, c);
    FreedNames(s, d, c);
    FreedLoops(s, d, c);
    forall x | x in d.conns
      ensures EntryOk(d, x)
    {
      assert EntryOk(s, x);
    }
  }

  lemma FreeKeepsInv(s: State, c: Id)
    requires Inv(s) && Enabled(s, Free(c))
    ensures Inv(Apply(s, Free(c)))
  {
    UnheldIsDone(s, c);
    FreedKeepsInv(s, Apply(s, Free(c)), c);
  }

  // ----- The user's references

  lemma KeepLoops(s: State, kept: set<Id>, k: nat)
    requires Inv(s) && k < |s.loops|
    ensures TasksOk(Keep(s, kept), k) && PhaseOk(Keep(s, kept), k) && PollerOk(Keep(s, kept), k)
  {
    var d := Keep(s, kept);
    assert TasksOk(s, k) && PhaseOk(s, k) && PollerOk(s, k);
    TasksKept(s, d, k, 0, []);
    if s.loops[k].phase.Dispatching? {
      ActiveSame(s, d, k, s.loops[k].phase.active, s.loops[k].phase.stage);
    }
  }

  lemma KeepKeepsInv(s: State, kept: set<Id>)
    requires Inv(s)
    ensures Inv(Keep(s, kept))
  {
    var d := Keep(s, kept);
    forall k | 0 <= k < |d.loops|
      ensures TasksOk(d, k) && PhaseOk(d, k) && PollerOk(d, k)
    {
      KeepLoops(s, kept, k);
    }
    forall c | c in d.conns
      ensures EntryOk(d, c)
    {
      assert EntryOk(s, c);
    }
  }

  // ----- Every step

  lemma UserStepKeepsInv(s: State, step: Step)
    requires Inv(s) && Enabled(s, step) && (step.UserSend? || step.UserShutdown? || step.UserTake?)
    ensures Inv(Apply(s, step))
  {
    var c := step.user;
    assert EntryOk(s, c);
    var a := s.conns[c].conn;
    match step
    case UserSend(_, data, direct) =>
      SendServes(a, data, direct);
      ActKeepsInv(s, c, C.Send(a, data, direct));
    case UserShutdown(_) =>
      ShutdownServes(a);
      ActKeepsInv(s, c, C.Shutdown(a));
    case UserTake(_, len) =>
      TakeServes(a, len);
      ActKeepsInv(s, c, C.Step(a, C.Taken(len)));
  }

  /** Every step of every loop, in any interleaving, keeps the invariant. */
  lemma StepKeepsInv(s: State, step: Step)
    requires Inv(s) && Enabled(s, step)
    ensures Inv(Apply(s, step))
  {
    match step
    case Accept(io, fd, settings) =>
      AcceptKeepsInv(s, io, fd, settings);
    case PollReturn(l, reports) => PollKeepsInv(s, l, reports);
    case BeginEvent(l) => BeginKeepsInv(s, l);
    case OnClose(l) => OnCloseKeepsInv(s, l);
    case OnRead(l, read) => OnReadKeepsInv(s, l, read);
    case OnWrite(l, write) => OnWriteKeepsInv(s, l, write);
    case StartTasks(l) => SetPhaseKeepsInv(s, l, RunningTasks(|s.loops[l].queue|, []));
    case RunTask(l) => RunTaskKeepsInv(s, l);
    case EndTasks(l) => SetPhaseKeepsInv(s, l, Waiting);
    case Free(c) => FreeKeepsInv(s, c);
    case UserKeep(c) => KeepKeepsInv(s, s.kept + {c});
    case UserDrop(c) => KeepKeepsInv(s, s.kept - {c});
    case _ => UserStepKeepsInv(s, step);
  }
}
