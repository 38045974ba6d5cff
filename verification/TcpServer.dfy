/** TcpServer.cc as an object: the map that owns the connections, and the functors that carry them
    from loop to loop. Each method is what one thread does in one call, and makes the matching move
    of the lifecycle machine, which interleaves the calls. A loop is here its poller and its queue;
    how it works the queue off is the event loop's subject. */
module TcpServers {
  import opened Masks
  import Registries
  import opened Pollers
  import opened TcpConnections
  import opened Names
  import C = Connections
  import R = ConnectionRuns
  import L = Lifecycle

  /** A functor and the TcpConnectionPtr it holds. */
  datatype Functor =
    | Establish(conn: TcpConnection)
    | Remove(conn: TcpConnection)
    | Destroy(conn: TcpConnection)
    | Notify(conn: TcpConnection)

  ghost function TaskOf(f: Functor): L.Task {
    match f
    case Establish(conn) => L.Establish(conn.number)
    case Remove(conn) => L.RemoveConn(conn.number)
    case Destroy(conn) => L.DestroyConn(conn.number)
    case Notify(conn) => L.Notify(conn.number)
  }

  ghost function Tasks(fs: seq<Functor>): seq<L.Task> {
    seq(|fs|, i requires 0 <= i < |fs| => TaskOf(fs[i]))
  }

  lemma TasksAppend(fs: seq<Functor>, f: Functor)
    ensures Tasks(fs + [f]) == Tasks(fs) + [TaskOf(f)]
  {
  }

  class IoLoop {
    const poller: EPollPoller
    var pendingFunctors: seq<Functor>

    constructor ()
      ensures fresh(poller) && poller.View() == Registries.Empty() && poller.live == {}
      ensures pendingFunctors == []
    {
      poller := new EPollPoller();
      pendingFunctors := [];
    }

    method QueueInLoop(f: Functor)
      modifies this`pendingFunctors
      ensures pendingFunctors == old(pendingFunctors) + [f]
      ensures Tasks(pendingFunctors) == Tasks(old(pendingFunctors)) + [TaskOf(f)]
    {
      TasksAppend(pendingFunctors, f);
      pendingFunctors := pendingFunctors + [f];
    }
  }

  /** Two states of the lifecycle machine show the same server. */
  ghost predicate Shows(s: L.State, d: L.State) {
    && |d.pollers| == |s.pollers| && d.connections == s.connections && d.nextId == s.nextId
    && d.loops == s.loops
  }

  /** The lifecycle machine's state between disableAll and the close callback. */
  ghost function Closed(s: L.State, c: L.Id, conn: C.Conn, doubled: bool, r: Registries.Registry<L.Id>)
    : (d: L.State)
    requires c in s.conns && s.conns[c].loop < |s.pollers|
    ensures Shows(s, d) && c in d.conns && d.conns[c].loop == s.conns[c].loop
  {
    var e := s.conns[c];
    L.Wire(s, c, e.(conn := conn, doubleClosed := e.doubleClosed || doubled), r)
  }

  const BASE: nat := L.BASE

  /** What the lifecycle machine's Accept does to what a server shows. */
  lemma AcceptShows(s: L.State, io: nat, fd: int, settings: L.Settings)
    requires |s.loops| == |s.pollers| && io < |s.loops|
    ensures var d := L.AcceptNow(s, io, fd, settings);
      var made := s.(connections := s.connections + {s.nextId}, nextId := s.nextId + 1);
      var blank := L.Blank(settings);
      && d.connections == made.connections && d.nextId == made.nextId && |d.pollers| == |s.pollers|
      && d.loops == (if io == BASE then made else L.Post(made, io, [L.Establish(s.nextId)])).loops
      && s.nextId in d.conns && d.conns[s.nextId].loop == io && d.conns[s.nextId].fd == fd
      && d.conns[s.nextId].conn == if io == BASE then C.ConnectEstablished(blank) else blank
  {
  }

  class TcpServer {
    const loops: seq<IoLoop>
    const name: string
    const ipPort: string
    var connections: map<string, TcpConnection>
    var nextConnId: nat

    /** The connection lives in one of this server's loops. */
    ghost predicate Serves(conn: TcpConnection) {
      conn.loop < |loops| && conn.channel.poller == loops[conn.loop].poller
    }

    /** Every key is the name this server gave to one of its connections, and names the connection
        it maps to. */
    ghost predicate Valid()
      reads this
    {
      && |loops| > 0 && |ipPort| <= IP_PORT_MAX && 1 <= nextConnId <= INT_MAX + 1
      && (forall i, j :: 0 <= i < j < |loops| ==> loops[i] != loops[j])
      && (forall k :: k in connections ==> connections[k].name == k && Serves(connections[k]))
      && AllNamed(name, ipPort, connections.Keys, nextConnId)
    }

    /** The connection was accepted by this server and carries the name it got then. */
    ghost predicate Accepted(conn: TcpConnection)
      reads this
    {
      Serves(conn) && 1 <= conn.number < nextConnId && conn.name == ConnName(name, ipPort, conn.number)
    }

    function Loop(i: nat): IoLoop
      requires i < |loops|
    {
      loops[i]
    }

    /** The numbers of the connections in the map. */
    ghost function Ids(): set<nat>
      reads this
    {
      Names.Ids(name, ipPort, connections.Keys, nextConnId)
    }

    /** The lifecycle machine's state `s` shows this server: its map, its counter and the queues. */
    ghost predicate Mirrors(s: L.State)
      reads this, set i | 0 <= i < |loops| :: loops[i]
    {
      && |s.loops| == |s.pollers| == |loops|
      && s.connections == Ids() && s.nextId == nextConnId
      && forall i :: 0 <= i < |loops| ==> s.loops[i].queue == Tasks(loops[i].pendingFunctors)
    }

    constructor (loops: seq<IoLoop>, name: string, ipPort: string)
      requires |loops| > 0 && |ipPort| <= IP_PORT_MAX
      requires forall i, j :: 0 <= i < j < |loops| ==> loops[i] != loops[j]
      ensures Valid() && Ids() == {} && nextConnId == 1
      ensures this.loops == loops && this.name == name && this.ipPort == ipPort
    {
      this.loops, this.name, this.ipPort := loops, name, ipPort;
      connections, nextConnId := map[], 1;
    }

    method Insert(conn: TcpConnection)
      modifies this
      ensures connections == old(connections)[conn.name := conn]
      ensures connections.Keys == old(connections.Keys) + {conn.name}
      ensures nextConnId == old(nextConnId) + 1
    {
      connections := connections[conn.name := conn];
      nextConnId := nextConnId + 1;
    }

    /** No entry is overwritten: the new name is in use nowhere. The map holds the new connection
        before any loop is told about it. */
    method Register(conn: TcpConnection)
      requires Valid() && nextConnId <= INT_MAX && Serves(conn)
      requires conn.number == nextConnId && conn.name == ConnName(name, ipPort, nextConnId)
      modifies this
      ensures Valid() && Accepted(conn) && nextConnId == old(nextConnId) + 1
      ensures conn.name !in old(connections) && connections == old(connections)[conn.name := conn]
      ensures Ids() == old(Ids()) + {old(nextConnId)}
    {
      NewNameIsNew(name, ipPort, connections.Keys, nextConnId);
      Insert(conn);
    }

    method QueueInLoop(i: nat, f: Functor, ghost s: L.State)
      requires Valid() && i < |loops| && Mirrors(s)
      modifies Loop(i)`pendingFunctors
      ensures Valid() && Mirrors(L.Post(s, i, [TaskOf(f)]))
      ensures Loop(i).pendingFunctors == old(Loop(i).pendingFunctors) + [f]
    {
      loops[i].QueueInLoop(f);
      assert forall k :: 0 <= k < |loops| && k != i ==> loops[k] != loops[i];
    }

    /** runInLoop with connectEstablished, from the base loop's thread. */
    method RunEstablished(conn: TcpConnection, ghost s: L.State)
      requires Valid() && Serves(conn) && conn.Valid() && C.Inv(conn.View()) && Mirrors(s)
      requires C.Enabled(conn.View(), C.Established)
      modifies Loop(conn.loop)`pendingFunctors
      modifies conn`seen, conn`state, conn.channel`events, conn.channel`index
      modifies conn.channel`tied, conn.channel`tie
      modifies conn.channel.poller`channels, conn.channel.poller`kernel, conn.channel.poller`fatal
      ensures Valid() && conn.Valid() && C.Inv(conn.View())
      ensures conn.loop == BASE ==>
        && conn.View() == C.ConnectEstablished(old(conn.View()))
        && Loop(conn.loop).pendingFunctors == old(Loop(conn.loop).pendingFunctors) && Mirrors(s)
      ensures conn.loop != BASE ==>
        && conn.View() == old(conn.View())
        && Loop(conn.loop).pendingFunctors == old(Loop(conn.loop).pendingFunctors) + [Establish(conn)]
        && Mirrors(L.Post(s, conn.loop, [L.Establish(conn.number)]))
    {
      if conn.loop == BASE {
        R.StepKeepsInv(conn.View(), C.Established);
        conn.ConnectEstablished();
      } else {
        QueueInLoop(conn.loop, Establish(conn), s);
      }
    }

    /** The new object, in the map and nowhere else. */
    method Create(sockfd: int, io: nat, hasHighWater: bool, hasWriteComplete: bool, ghost s: L.State)
      returns (conn: TcpConnection)
      requires Valid() && nextConnId <= INT_MAX && io < |loops| && Mirrors(s)
      requires Registries.Inv(loops[io].poller.View())
      requires forall d :: d in loops[io].poller.live ==> d.fd != sockfd
      modifies this, Loop(io).poller`live
      ensures Valid() && Accepted(conn) && conn.number == old(nextConnId)
      ensures connections == old(connections)[conn.name := conn] && conn.name !in old(connections)
      ensures Ids() == old(Ids()) + {old(nextConnId)} && nextConnId == old(nextConnId) + 1
      ensures fresh(conn) && fresh(conn.channel) && conn.loop == io && conn.channel.fd == sockfd
      ensures conn.Valid() && C.Inv(conn.View())
      ensures conn.View() == C.NewConn(C.HIGH_WATER_MARK, hasHighWater, hasWriteComplete)
      ensures Loop(io).poller.live == old(Loop(io).poller.live) + {conn.channel}
      ensures Mirrors(s.(connections := s.connections + {s.nextId}, nextId := s.nextId + 1))
    {
      conn := new TcpConnection(io, loops[io].poller, ConnName(name, ipPort, nextConnId), nextConnId, sockfd,
                                hasHighWater, hasWriteComplete);
      R.NewConnInv(C.HIGH_WATER_MARK, hasHighWater, hasWriteComplete);
      Register(conn);
    }

    /** The move of the lifecycle machine is Accept. */
    method NewConnection(sockfd: int, io: nat, hasHighWater: bool, hasWriteComplete: bool, ghost s: L.State)
      returns (conn: TcpConnection)
      requires Valid() && nextConnId <= INT_MAX && io < |loops| && Mirrors(s)
      requires Registries.Inv(loops[io].poller.View())
      requires forall d :: d in loops[io].poller.live ==> d.fd != sockfd
      modifies this, Loop(io)`pendingFunctors
      modifies Loop(io).poller`live, Loop(io).poller`channels
      modifies Loop(io).poller`kernel, Loop(io).poller`fatal
      ensures Valid() && Accepted(conn) && conn.number == old(nextConnId)
      ensures connections == old(connections)[conn.name := conn] && conn.name !in old(connections)
      ensures Ids() == old(Ids()) + {old(nextConnId)} && nextConnId == old(nextConnId) + 1
      ensures fresh(conn) && conn.loop == io && conn.channel.fd == sockfd
      ensures conn.Valid() && C.Inv(conn.View())
      ensures io == BASE ==>
        && conn.View() == C.ConnectEstablished(C.NewConn(C.HIGH_WATER_MARK, hasHighWater, hasWriteComplete))
        && Loop(io).pendingFunctors == old(Loop(io).pendingFunctors)
      ensures io != BASE ==>
        && conn.View() == C.NewConn(C.HIGH_WATER_MARK, hasHighWater, hasWriteComplete)
        && Loop(io).pendingFunctors == old(Loop(io).pendingFunctors) + [Establish(conn)]
      ensures Loop(io).poller.live == old(Loop(io).poller.live) + {conn.channel}
      ensures var settings := L.Settings(C.HIGH_WATER_MARK, hasHighWater, hasWriteComplete);
        var d := L.AcceptNow(s, io, sockfd, settings);
        && Mirrors(d) && conn.number in d.conns && d.conns[conn.number].conn == conn.View()
        && d.conns[conn.number].loop == io && d.conns[conn.number].fd == sockfd
    {
      conn := Create(sockfd, io, hasHighWater, hasWriteComplete, s);
      RunEstablished(conn, s.(connections := s.connections + {s.nextId}, nextId := s.nextId + 1));
      AcceptShows(s, io, sockfd, L.Settings(C.HIGH_WATER_MARK, hasHighWater, hasWriteComplete));
    }

    method Erase(conn: TcpConnection)
      requires Valid() && Accepted(conn)
      modifies this`connections
      ensures Valid() && Accepted(conn) && connections == old(connections) - {conn.name}
      ensures Ids() == old(Ids()) - {conn.number}
    {
      ErasingRemovesOne(name, ipPort, connections.Keys, nextConnId, conn.number);
      ghost var keys := connections.Keys;
      connections := connections - {conn.name};
      assert connections.Keys == keys - {conn.name};
    }

    /** Runs in the base loop: one entry leaves the map, and the last reference travels to the
        connection's own loop. The move of the lifecycle machine is RemoveInLoop. */
    method RemoveConnectionInLoop(conn: TcpConnection, ghost s: L.State)
      requires Valid() && Accepted(conn) && Mirrors(s)
      requires conn.number in s.conns && s.conns[conn.number].loop == conn.loop
      modifies this`connections, Loop(conn.loop)`pendingFunctors
      ensures Valid() && Accepted(conn) && connections == old(connections) - {conn.name}
      ensures Ids() == old(Ids()) - {conn.number}
      ensures Loop(conn.loop).pendingFunctors == old(Loop(conn.loop).pendingFunctors) + [Destroy(conn)]
      ensures Mirrors(L.RemoveInLoop(s, conn.number))
    {
      Erase(conn);
      ghost var erased := s.(connections := s.connections - {conn.number});
      assert Mirrors(erased);
      QueueInLoop(conn.loop, Destroy(conn), erased);
    }

    /** The close callback, called in the connection's own loop: the removal runs at once in the base
        loop and is queued to it elsewhere. */
    method RemoveConnection(conn: TcpConnection, ghost s: L.State)
      requires Valid() && Accepted(conn) && Mirrors(s)
      requires conn.number in s.conns && s.conns[conn.number].loop == conn.loop
      modifies this`connections, Loop(BASE)`pendingFunctors
      ensures Valid() && Accepted(conn)
      ensures connections == if conn.loop == BASE then old(connections) - {conn.name} else old(connections)
      ensures Ids() == if conn.loop == BASE then old(Ids()) - {conn.number} else old(Ids())
      ensures Loop(BASE).pendingFunctors == old(Loop(BASE).pendingFunctors)
        + [if conn.loop == BASE then Destroy(conn) else Remove(conn)]
      ensures Mirrors(if conn.loop == BASE then L.RemoveInLoop(s, conn.number)
                      else L.Post(s, BASE, [L.RemoveConn(conn.number)]))
    {
      if conn.loop == BASE {
        RemoveConnectionInLoop(conn, s);
      } else {
        QueueInLoop(BASE, Remove(conn), s);
      }
    }

    /** handleClose up to its close callback. */
    method GoDown(conn: TcpConnection, ghost s: L.State, ghost closed: L.State)
      requires Valid() && Accepted(conn) && conn.Valid() && Mirrors(s) && Shows(s, closed)
      modifies conn`seen, conn`state, conn.channel`events, conn.channel`index
      modifies conn.channel.poller`channels, conn.channel.poller`kernel, conn.channel.poller`fatal
      ensures Valid() && Accepted(conn) && Mirrors(closed)
      ensures conn.Valid() && conn.View() == C.HandleClose(old(conn.View()))
    {
      conn.HandleClose();
    }

    /** handleClose with its close callback. The move of the lifecycle machine is CloseWith, whatever
        it makes of the poller. */
    method CloseConnection(conn: TcpConnection, ghost s: L.State, ghost doubled: bool,
                           ghost r: Registries.Registry<L.Id>)
      requires Valid() && Accepted(conn) && conn.Valid() && Mirrors(s)
      requires conn.number in s.conns && s.conns[conn.number].loop == conn.loop
      modifies this`connections, Loop(BASE)`pendingFunctors
      modifies conn`seen, conn`state, conn.channel`events, conn.channel`index
      modifies conn.channel.poller`channels, conn.channel.poller`kernel, conn.channel.poller`fatal
      ensures Valid() && conn.Valid() && conn.View() == C.HandleClose(old(conn.View()))
      ensures connections == if conn.loop == BASE then old(connections) - {conn.name} else old(connections)
      ensures Ids() == if conn.loop == BASE then old(Ids()) - {conn.number} else old(Ids())
      ensures Loop(BASE).pendingFunctors == old(Loop(BASE).pendingFunctors)
        + [if conn.loop == BASE then Destroy(conn) else Remove(conn)]
      ensures var d := L.CloseWith(s, conn.number, C.HandleClose(old(conn.View())), doubled, r);
        && Mirrors(d) && conn.number in d.conns && d.conns[conn.number].conn == conn.View()
    {
      ghost var closed := Closed(s, conn.number, C.HandleClose(conn.View()), doubled, r);
      GoDown(conn, s, closed);
      RemoveConnection(conn, closed);
    }
  }
}
