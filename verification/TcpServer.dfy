/** TcpServer as the object it is in the repository: the map of connection objects, the identifier counter, the
    pool, and the queues and pollers of the loops, changed in place. */
module TcpServers {
  import opened Common
  import opened Pollers
  import opened TcpConnections
  import Names
  import S = Servers
  import P = ThreadPools
  import L = EventLoops
  import C = Connections

  class TcpServer {
    const name: string
    const ipPort: string
    const pool: P.EventLoopThreadPool
    /** The base loop, then the loops of the pool. */
    const loops: seq<L.EventLoop<C.Task>>
    const pollers: seq<EpollPoller>
    const form: Form
    var connections: map<string, TcpConnection>
    var nextConnId: nat

    function Key(id: nat): string {
      Names.ConnName(name, ipPort, id + 1)
    }

    ghost predicate Valid()
      reads this, pool, loops
    {
      && |ipPort| <= 51 && |loops| == |pollers| == pool.loops + 1 && pool.Valid() && pool.served + 1 == nextConnId <= Names.INT_MAX
      && (forall k | 0 <= k < |loops| :: loops[k].Valid())
      && (forall j, k | 0 <= j < k < |loops| :: loops[j] != loops[k])
      && (forall n | n in connections :: connections[n].id + 1 < nextConnId && n == Key(connections[n].id))
    }

    constructor (form: Form, name: string, ipPort: string, pool: P.EventLoopThreadPool,
                 loops: seq<L.EventLoop<C.Task>>, pollers: seq<EpollPoller>)
      requires |ipPort| <= 51 && pool.Valid() && pool.served == 0 && |loops| == |pollers| == pool.loops + 1
      requires forall k | 0 <= k < |loops| :: loops[k].Valid()
      requires forall j, k | 0 <= j < k < |loops| :: loops[j] != loops[k]
      ensures Valid() && connections == map[] && nextConnId == 1
      ensures this.form == form && this.name == name && this.ipPort == ipPort
      ensures this.pool == pool && this.loops == loops && this.pollers == pollers
    {
      this.form, this.name, this.ipPort, this.pool, this.loops, this.pollers := form, name, ipPort, pool, loops, pollers;
      connections, nextConnId := map[], 1;
    }

    method Enter(fd: int, mark: nat, hasMark: bool, hasWrite: bool) returns (conn: TcpConnection, io: nat)
      requires Valid() && nextConnId < Names.INT_MAX
      modifies this`connections, this`nextConnId, pool
      ensures Valid() && conn.id + 1 == old(nextConnId) && nextConnId == old(nextConnId) + 1
      ensures io == P.LoopOf(pool.loops, conn.id) && conn.poller == pollers[io]
      ensures fresh(conn) && conn.Valid() && fresh(conn.channel) && fresh(conn.outputBuffer) && fresh(conn.outputBuffer.data)
      ensures Key(conn.id) !in old(connections) && connections == old(connections)[Key(conn.id) := conn]
      ensures conn.World()
           == C.World(C.NewConn(conn.channel, conn.id, form, fd, mark, hasMark, hasWrite), pollers[io].State(), [])
    {
      hide L.Sound, Names.ConnName, P.Advances;
      var id := nextConnId - 1;
      if Key(id) in connections {
        Names.NamesDistinct(name, ipPort, id + 1, connections[Key(id)].id + 1);
      }
      io := pool.GetNextLoop();
      conn := new TcpConnection(id, form, fd, pollers[io], mark, hasMark, hasWrite);
      connections := connections[Key(id) := conn];
      nextConnId := nextConnId + 1;
    }

    /** Functors queued on the base loop by its own thread. */
    method HandOver(q: seq<C.Task>)
      requires Valid() && S.CanPost(loops[0].view)
      modifies loops[0]
      ensures Valid() && loops[0].view == S.Posts(old(loops[0].view), q)
    {
      hide L.Sound, L.QueueBy, Names.ConnName, P.Advances;
      var i := 0;
      while i < |q|
        invariant 0 <= i <= |q| && Valid()
        invariant loops[0].view == S.Posts(old(loops[0].view), q[..i])
      {
        assert q[..i + 1][..i] == q[..i];
        loops[0].QueueInLoop(q[i], true);
        i := i + 1;
      }
      assert q[..i] == q;
    }

    /** A connection of the base loop is established on the spot; what it queues goes to the loop's queue. */
    method EstablishHere(conn: TcpConnection, ops: seq<C.AppOp>)
      requires Valid() && conn.Valid() && conn.poller == pollers[0] && S.CanPost(loops[0].view)
      modifies loops[0], pollers[0], conn, conn.channel, conn.outputBuffer, conn.outputBuffer.data
      ensures Valid() && conn.Valid() && conn.World() == C.Establish(old(conn.World()), ops)
      ensures loops[0].view == S.Posts(old(loops[0].view), conn.queued)
    {
      hide L.Sound, L.QueueBy, Names.ConnName, P.Advances, C.Establish;
      conn.ConnectEstablished(ops);
      HandOver(conn.queued);
    }

    /** Runs on the base loop, with the descriptor `accept` returned. A new connection object enters the map under
        a name that was not in it. When its loop is the base loop it is established on the spot, the callback making
        the calls `ops`, and what it queues goes to the base loop's queue; otherwise its loop has been sent the
        functor and a wakeup, and the object is still as constructed. */
    method NewConnection(fd: int, mark: nat, hasMark: bool, hasWrite: bool, ops: seq<C.AppOp>)
      returns (conn: TcpConnection, io: nat)
      requires Valid() && nextConnId < Names.INT_MAX && S.CanPost(loops[0].view)
      modifies this`connections, this`nextConnId, pool, loops, pollers[0]
      ensures Valid() && conn.id + 1 == old(nextConnId) && nextConnId == old(nextConnId) + 1
      ensures io == P.LoopOf(pool.loops, conn.id) && conn.poller == pollers[io]
      ensures fresh(conn) && conn.Valid()
      ensures Key(conn.id) !in old(connections) && connections == old(connections)[Key(conn.id) := conn]
      ensures var w := C.World(C.NewConn(conn.channel, conn.id, form, fd, mark, hasMark, hasWrite), old(pollers[io].State()), []);
              if io == 0 then
                && conn.World() == C.Establish(w, ops)
                && loops[0].view == S.Posts(old(loops[0].view), conn.queued)
              else
                && conn.World() == w
                && loops[io].view == L.QueueBy(old(loops[io].view), C.EstablishTask(conn.id), false)
                && pollers[0].State() == old(pollers[0].State())
      ensures forall k | 0 <= k < |loops| && k != io :: loops[k].view == old(loops[k].view)
    {
      hide L.Sound, L.QueueBy, L.QuitBy, Names.ConnName, P.Advances, C.Establish, C.NewConn;
      conn, io := Enter(fd, mark, hasMark, hasWrite);
      var now := loops[io].RunInLoop(C.EstablishTask(conn.id), io == 0);
      if now {
        EstablishHere(conn, ops);
      }
    }

    /** Erases the connection's own entry and no other, and queues its destruction on its loop; it is never run
        directly, not even when that loop is the base loop. */
    method RemoveConnectionInLoop(id: nat, io: nat)
      requires Valid() && io < |loops|
      requires io == 0 ==> loops[0].view.phase == L.Dispatching || loops[0].view.phase == L.Running
      modifies this`connections, loops
      ensures Valid() && connections == old(connections) - {Key(id)}
      ensures id + 1 < nextConnId ==> forall other: nat | other != id && other + 1 < nextConnId ::
                Key(other) in connections <==> Key(other) in old(connections)
      ensures loops[io].view == L.QueueBy(old(loops[io].view), C.DestroyTask(id), io == 0)
      ensures forall k | 0 <= k < |loops| && k != io :: loops[k].view == old(loops[k].view)
    {
      hide L.Sound, L.QueueBy, L.QuitBy, Names.ConnName, P.Advances;
      connections := connections - {Key(id)};
      if id + 1 < nextConnId {
        forall other: nat | other != id && other + 1 < nextConnId ensures Key(other) != Key(id) {
          if Key(other) == Key(id) {
            Names.NamesDistinct(name, ipPort, other + 1, id + 1);
          }
        }
      }
      loops[io].QueueInLoop(C.DestroyTask(id), io == 0);
    }

    /** The close callback of a connection on loop `io`, called on that loop. On the base loop the removal runs at
        once, from any other loop it is sent to the base loop; the map is touched on the base loop only. */
    method RemoveConnection(id: nat, io: nat)
      requires Valid() && io < |loops|
      requires io == 0 ==> loops[0].view.phase == L.Dispatching || loops[0].view.phase == L.Running
      modifies this`connections, loops
      ensures Valid()
      ensures io != 0 ==>
                && connections == old(connections)
                && loops[0].view == L.QueueBy(old(loops[0].view), C.RemoveTask(id), false)
      ensures io == 0 ==>
                && connections == old(connections) - {Key(id)}
                && loops[0].view == L.QueueBy(old(loops[0].view), C.DestroyTask(id), true)
      ensures forall k | 0 < k < |loops| :: loops[k].view == old(loops[k].view)
    {
      var now := loops[0].RunInLoop(C.RemoveTask(id), io == 0);
      if now {
        RemoveConnectionInLoop(id, io);
      }
    }
  }
}
