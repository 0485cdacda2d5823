/** TcpServer.h and TcpServer.cc: the server object. Its methods do in place, on real connections,
    pollers and loops, what `ServerModel` does on values. */
module Servers {
  import opened Kernel
  import opened Pollers
  import opened Connections
  import opened EventLoops
  import opened ThreadPools
  import L = EventLoopModel
  import M = ConnectionModel
  import Names

  /** The functors a server puts on its loops; all but the first hold a reference to a connection. */
  datatype Task =
    | Listen
    | Established(conn: TcpConnection)
    | RemoveInLoop(conn: TcpConnection)
    | Destroyed(conn: TcpConnection)

  /** An event loop and the poller it owns. */
  class Reactor {
    const loop: EventLoop<Task>
    const poller: EPollPoller

    constructor ()
      ensures fresh(loop) && fresh(poller) && fresh(poller.epoll)
      ensures loop.Valid() && loop.model == L.Created() && poller.Valid() && poller.channels == map[]
    {
      loop := new EventLoop();
      poller := new EPollPoller();
    }
  }

  class TcpServer {
    const name: string
    const ipPort: string
    const base: Reactor
    const pool: EventLoopThreadPool<Reactor>
    /** The number under which the I/O loops know the base loop's thread. */
    const thread: L.Thread
    var connections: map<string, TcpConnection>
    var nextConnId: nat
    var started: nat
    var listening: bool

    ghost function Reactors(): set<Reactor>
      reads pool`loops
    {
      {base} + set r | r in pool.loops
    }

    /** The reactors are apart, and each loop's history is a legal run. */
    ghost predicate ReactorsValid()
      reads pool`loops, (set r | r in Reactors() :: r.loop)
    {
      && base !in pool.loops
      && (forall r :: r in Reactors() ==> r.loop.Valid())
      && (forall r, q :: r in Reactors() && q in Reactors() && r != q ==> r.loop != q.loop && r.poller != q.poller)
    }

    ghost predicate Valid()
      reads `nextConnId, pool, (set r | r in Reactors() :: r.loop)
    {
      && ReactorsValid() && pool.Valid() && pool.baseLoop == base
      && thread != L.LOOP_THREAD && |ipPort| <= 21 && 0 < nextConnId
    }

    /** The base thread may call `queueInLoop` on this reactor now. */
    ghost predicate CanQueue(r: Reactor)
      reads r.loop
    {
      if r == base then L.InUserCode(r.loop.model) && L.LOOP_THREAD !in r.loop.model.owing
      else thread !in r.loop.model.owing
    }

    /** Work on a connection leaves the loops alone. */
    twostate lemma KeptValid()
      requires old(Valid()) && unchanged(pool) && nextConnId > 0
      requires forall r :: r in old(Reactors()) ==> unchanged(r.loop)
      ensures Valid()
    {
      hide L.Legal, L.Exec;
    }

    constructor (name: string, ipPort: string, base: Reactor, thread: L.Thread)
      requires base.loop.Valid() && thread != L.LOOP_THREAD && |ipPort| <= 21
      ensures Valid() && connections == map[] && nextConnId == 1 && started == 0
      ensures !listening && this.base == base && this.name == name && this.ipPort == ipPort && fresh(pool)
    {
      this.name := name;
      this.ipPort := ipPort;
      this.base := base;
      this.thread := thread;
      pool := new EventLoopThreadPool(base);
      connections := map[];
      nextConnId := 1;
      started := 0;
      listening := false;
    }

    /** Only the first call starts the pool and then listens, at once on the base loop's thread and by
        a functor from another. */
    method Start(spawned: seq<Reactor>, callback: bool, caller: L.Thread, full: bool)
      returns (initialized: seq<Reactor>)
      requires pool.Valid() && pool.baseLoop == base && base.loop.Valid() && caller !in base.loop.model.owing
      requires started == 0 ==> !pool.started && |spawned| == pool.numThreads
      modifies `started, `listening, pool, base.loop
      ensures pool.Valid() && base.loop.Valid() && started == old(started) + 1
      ensures if old(started) == 0
              then && pool.started && pool.loops == spawned && pool.given == 0
                   && initialized == if spawned == [] && callback then [base] else []
              else pool.loops == old(pool.loops) && pool.given == old(pool.given) && initialized == []
      ensures if old(started) == 0 && caller != L.LOOP_THREAD
              then base.loop.pendingFunctors == old(base.loop.pendingFunctors) + [Listen] && base.loop.eventfd > 0
              else base.loop.pendingFunctors == old(base.loop.pendingFunctors)
      ensures listening == (old(listening) || (old(started) == 0 && caller == L.LOOP_THREAD))
    {
      hide L.Legal, L.Exec;
      started := started + 1;
      initialized := [];
      if started == 1 {
        initialized := pool.Start(spawned, callback);
        if caller == L.LOOP_THREAD {
          listening := true;
        } else {
          base.loop.QueueInLoop(Listen, caller, full);
        }
      }
    }

    /** `queueInLoop` on a reactor, from the base loop's thread. */
    method QueueOn(r: Reactor, task: Task, full: bool)
      requires Valid() && r in Reactors() && CanQueue(r)
      modifies r.loop
      ensures Valid()
      ensures r.loop.pendingFunctors == old(r.loop.pendingFunctors) + [task]
      ensures r != base || r.loop.callingPendingFunctors ==> r.loop.eventfd > 0
      ensures CanQueue(r)
    {
      hide L.Legal, L.Exec;
      r.loop.QueueInLoop(task, if r == base then L.LOOP_THREAD else thread, full);
    }

    /** Whose turn it is: reactor `k mod N` after `k` connections. */
    ghost function Picked(): Reactor
      reads pool`loops, pool`given
    {
      if pool.loops == [] then base else pool.loops[pool.given % |pool.loops|]
    }

    method NextReactor() returns (io: Reactor)
      requires Valid()
      modifies pool`next, pool`given
      ensures Valid() && io == old(Picked()) && io in Reactors()
      ensures pool.given == old(pool.given) + 1
    {
      io := pool.GetNextLoop();
    }

    /** Builds and names the connection and puts it into the map. */
    method Record(io: Reactor, sockfd: int, cfg: M.Config) returns (conn: TcpConnection)
      requires Valid() && io.poller.Valid() && sockfd !in io.poller.channels
      modifies `connections, `nextConnId, io.poller`known
      ensures Valid() && nextConnId == old(nextConnId) + 1
      ensures fresh(conn) && fresh(conn.channel) && fresh(conn.inputBuffer) && fresh(conn.outputBuffer)
      ensures fresh(conn.inputBuffer.buffer) && fresh(conn.outputBuffer.buffer)
      ensures conn.name == Names.ConnName(name, ipPort, old(nextConnId))
      ensures connections == old(connections)[conn.name := conn]
      ensures conn.channel.poller == io.poller && conn.channel.fd == sockfd && conn.Valid()
      ensures conn.View() == M.Fresh(cfg)
    {
      hide L.Legal, L.Exec;
      var connName := Names.ConnName(name, ipPort, nextConnId);
      nextConnId := nextConnId + 1;
      conn := new TcpConnection(io.poller, connName, sockfd, cfg);
      connections := connections[connName := conn];
      KeptValid();
    }

    /** The new connection goes to the reactor whose turn it is; it is named, recorded, and established,
        at once on the base loop and by a functor elsewhere. No other reactor is touched. */
    method NewConnection(sockfd: int, cfg: M.Config, calls: seq<M.Call>, full: bool)
      returns (io: Reactor, conn: TcpConnection)
      requires Valid() && nextConnId <= Names.INT_MAX
      requires Picked().poller.Valid() && sockfd !in Picked().poller.channels && CanQueue(Picked())
      modifies `connections, `nextConnId, pool`next, pool`given
      modifies Picked().loop, Picked().poller`channels, Picked().poller`known, Picked().poller.epoll
      ensures Valid() && io == old(Picked())
      ensures pool.given == old(pool.given) + 1 && nextConnId == old(nextConnId) + 1
      ensures fresh(conn) && conn.name == Names.ConnName(name, ipPort, old(nextConnId))
      ensures connections == old(connections)[conn.name := conn]
      ensures conn.channel.poller == io.poller && conn.channel.fd == sockfd && conn.Valid()
      ensures if io == base
              then && conn.View() == M.ConnectEstablished(M.Fresh(cfg), calls)
                   && io.loop.pendingFunctors == old(io.loop.pendingFunctors)
              else && conn.View() == M.Fresh(cfg)
                   && io.loop.pendingFunctors == old(io.loop.pendingFunctors) + [Established(conn)]
                   && io.loop.eventfd > 0
    {
      hide Valid, CanQueue, L.Legal, L.Exec, Names.ConnName;
      hide M.DoCalls, M.ConnectEstablished, Channel.Ready, EPollPoller.Valid;
      io := NextReactor();
      conn := Record(io, sockfd, cfg);
      HandOver(io, conn, calls, full);
    }

    /** `ioLoop->runInLoop(connectEstablished)`, from the base loop's thread. */
    method HandOver(io: Reactor, conn: TcpConnection, calls: seq<M.Call>, full: bool)
      requires Valid() && io in Reactors() && CanQueue(io)
      requires conn.Valid() && conn.channel.poller == io.poller && conn.state == M.Connecting
      modifies io.loop, conn, conn.channel, io.poller`channels, io.poller.epoll
      modifies conn.inputBuffer, conn.outputBuffer, conn.outputBuffer.buffer
      ensures Valid() && conn.Valid()
      ensures if io == base
              then && conn.View() == M.ConnectEstablished(old(conn.View()), calls)
                   && io.loop.pendingFunctors == old(io.loop.pendingFunctors)
              else && conn.View() == old(conn.View())
                   && io.loop.pendingFunctors == old(io.loop.pendingFunctors) + [Established(conn)]
                   && io.loop.eventfd > 0
    {
      hide L.Legal, L.Exec;
      if io == base {
        EstablishHere(conn, calls);
      } else {
        QueueOn(io, Established(conn), full);
      }
    }

    /** `runInLoop` on the base loop's own thread: the functor is called at once. */
    method EstablishHere(conn: TcpConnection, calls: seq<M.Call>)
      requires Valid() && conn.Valid() && conn.state == M.Connecting
      modifies conn, conn.channel, conn.channel.poller`channels, conn.channel.poller.epoll
      modifies conn.inputBuffer, conn.outputBuffer, conn.outputBuffer.buffer
      ensures Valid() && conn.Valid()
      ensures conn.View() == M.ConnectEstablished(old(conn.View()), calls)
    {
      hide L.Legal, L.Exec, M.DoCalls, Channel.Ready;
      conn.ConnectEstablished(calls);
      KeptValid();
    }

    /** The close callback, on the thread of the connection's own reactor `io`. */
    method RemoveConnection(io: Reactor, conn: TcpConnection, caller: L.Thread, full: bool)
      requires Valid() && io in Reactors() && conn.channel.poller == io.poller
      requires if io == base then CanQueue(base)
               else caller != L.LOOP_THREAD && caller !in base.loop.model.owing
      modifies `connections, base.loop
      ensures Valid()
      ensures if io == base
              then && connections == old(connections) - {conn.name}
                   && base.loop.pendingFunctors == old(base.loop.pendingFunctors) + [Destroyed(conn)]
              else && connections == old(connections)
                   && base.loop.pendingFunctors == old(base.loop.pendingFunctors) + [RemoveInLoop(conn)]
                   && base.loop.eventfd > 0
    {
      hide L.Legal, L.Exec;
      if io == base {
        RemoveConnectionInLoop(io, conn, full);
      } else {
        base.loop.QueueInLoop(RemoveInLoop(conn), caller, full);
      }
    }

    /** Out of the map, and queued on its own loop to be destroyed: never destroyed here and now. */
    method RemoveConnectionInLoop(io: Reactor, conn: TcpConnection, full: bool)
      requires Valid() && io in Reactors() && conn.channel.poller == io.poller && CanQueue(io)
      modifies `connections, io.loop
      ensures Valid() && connections == old(connections) - {conn.name}
      ensures io.loop.pendingFunctors == old(io.loop.pendingFunctors) + [Destroyed(conn)]
      ensures io != base || io.loop.callingPendingFunctors ==> io.loop.eventfd > 0
    {
      hide L.Legal, L.Exec;
      connections := connections - {conn.name};
      QueueOn(io, Destroyed(conn), full);
    }
  }
}
