/** TcpServer.cc over its loops: the life of every connection, from `newConnection` to the release of
    its last reference, with the base loop and the I/O loops running interleaved.

    One action is what one thread does between two points where others can see the difference: one
    event dispatched, one functor run, one call. The connections themselves are `ConnectionModel`. */
module ServerModel {
  import opened Kernel
  import opened ConnectionModel
  import Names
  import ThreadPools

  type ConnId = nat   // the value of nextConnId_ it was named with
  type LoopId = nat
  type Thread = nat

  const BASE: LoopId := 0

  /** What the queues hold. Each functor binds a strong reference to its connection, but for the
      `sendInLoop` of another thread's `send`, which binds the bare pointer. `late` notes that it was
      pushed when `connectDestroyed` had already been queued. */
  datatype Functor =
    | Established(id: ConnId)
    | RemoveInLoop(id: ConnId)
    | Destroyed(id: ConnId)
    | Notice(id: ConnId, note: Note)
    | Delivery(id: ConnId, msg: Bytes, late: bool)

  /** A thread inside `send`, between its look at the state and its push. */
  datatype Sending = Sending(id: ConnId, msg: Bytes)

  datatype Phase = Polling | Dispatching | Running

  datatype LoopState = LoopState(
    phase: Phase,
    active: seq<ConnId>,        // activeChannels_ not yet dispatched
    batch: seq<Functor>,        // the unrun rest of doPendingFunctors' vector
    ran: seq<Functor>,          // its run part, which still holds references
    pending: seq<Functor>,      // pendingFunctors_
    channels: map<int, ConnId>  // the poller's channels_
  )

  datatype Entry = Entry(
    conn: Conn,
    loop: LoopId,
    fd: int,
    destroyed: nat,             // calls of connectDestroyed
    freed: bool                 // the last reference is gone and the descriptor closed
  )

  datatype Server = Server(
    name: string,
    ipPort: string,
    threads: nat,
    next: nat,                  // next_ of the thread pool
    nextConnId: nat,
    connections: map<string, ConnId>,
    entries: map<ConnId, Entry>,
    loops: seq<LoopState>,
    sending: map<Thread, Sending>
  )

  const IDLE := LoopState(Polling, [], [], [], [], map[])

  function Started(name: string, ipPort: string, threads: nat): Server {
    Server(name, ipPort, threads, 0, 1, map[], map[], seq(threads + 1, _ => IDLE), map[])
  }

  function ConnName(s: Server, id: ConnId): string {
    Names.ConnName(s.name, s.ipPort, id)
  }

  /** Every functor a loop still refers to. */
  function Held(l: LoopState): seq<Functor> {
    l.ran + l.batch + l.pending
  }

  /** The functors still to run. */
  function Todo(l: LoopState): seq<Functor> {
    l.batch + l.pending
  }

  /** A strong reference: a map entry, a functor that binds one, or the one through which a thread
      called `send`. Between two actions no stack of a loop holds one. */
  ghost predicate Referenced(s: Server, id: ConnId) {
    || (exists name :: name in s.connections && s.connections[name] == id)
    || (exists l, f :: 0 <= l < |s.loops| && f in Held(s.loops[l]) && f.id == id && !f.Delivery?)
    || (exists t :: t in s.sending && s.sending[t].id == id)
  }

  /** `connectDestroyed` is queued or has run. */
  predicate Retired(s: Server, id: ConnId)
    requires CanTouch(s, id)
  {
    s.entries[id].destroyed > 0 || Destroyed(id) in Todo(s.loops[s.entries[id].loop])
  }

  // ---------------------------------------------------------------- building blocks

  function SetLoop(s: Server, l: LoopId, loop: LoopState): Server
    requires l < |s.loops|
  {
    s.(loops := s.loops[l := loop])
  }

  /** `queueInLoop`. */
  function QueueOn(s: Server, l: LoopId, fs: seq<Functor>): Server
    requires l < |s.loops|
  {
    SetLoop(s, l, s.loops[l].(pending := s.loops[l].pending + fs))
  }

  function Notices(id: ConnId, notes: seq<Note>): seq<Functor> {
    seq(|notes|, i requires 0 <= i < |notes| => Notice(id, notes[i]))
  }

  /** A connection changes, on its own loop, and queues there what it has to tell the user. */
  function SetConn(s: Server, id: ConnId, c: Conn): Server
    requires id in s.entries && s.entries[id].loop < |s.loops|
  {
    var e := s.entries[id];
    var notes := if |c.queued| >= |e.conn.queued| then c.queued[|e.conn.queued|..] else [];
    QueueOn(s.(entries := s.entries[id := e.(conn := c)]), e.loop, Notices(id, notes))
  }

  function Assigned(threads: nat, next: nat): LoopId {
    if threads == 0 then BASE else 1 + next
  }

  /** `connectEstablished`, which registers the channel. */
  function EstablishConnection(s: Server, id: ConnId, calls: seq<Call>): Server
    requires id in s.entries && s.entries[id].loop < |s.loops|
  {
    var e := s.entries[id];
    var s1 := SetConn(s, id, ConnectEstablished(e.conn, calls));
    SetLoop(s1, e.loop, s1.loops[e.loop].(channels := s1.loops[e.loop].channels[e.fd := id]))
  }

  /** `connectDestroyed`, which removes it. */
  function DestroyConnection(s: Server, id: ConnId, calls: seq<Call>): Server
    requires id in s.entries && s.entries[id].loop < |s.loops|
  {
    var e := s.entries[id];
    var s1 := SetConn(s, id, ConnectDestroyed(e.conn, calls));
    var s2 := s1.(entries := s1.entries[id := s1.entries[id].(destroyed := e.destroyed + 1)]);
    SetLoop(s2, e.loop, s2.loops[e.loop].(channels := s2.loops[e.loop].channels - {e.fd}))
  }

  /** `newConnection`: picks a loop, names and records the connection, and has it established, at
      once when the loop is this one. */
  function NewConnection(s: Server, fd: int, cfg: Config, calls: seq<Call>): Server
    requires Assigned(s.threads, s.next) < |s.loops|
  {
    var id := s.nextConnId;
    var io := Assigned(s.threads, s.next);
    var s1 := s.(next := ThreadPools.NextIndex(s.threads, s.next), nextConnId := id + 1,
                 connections := s.connections[ConnName(s, id) := id],
                 entries := s.entries[id := Entry(Fresh(cfg), io, fd, 0, false)]);
    if io == BASE then EstablishConnection(s1, id, calls) else QueueOn(s1, io, [Established(id)])
  }

  /** `removeConnectionInLoop`: destruction is always queued, even on the loop's own thread. */
  function RemoveConnectionInLoop(s: Server, id: ConnId): Server
    requires id in s.entries && s.entries[id].loop < |s.loops|
  {
    QueueOn(s.(connections := s.connections - {ConnName(s, id)}), s.entries[id].loop, [Destroyed(id)])
  }

  /** The close callback, `removeConnection`, called on the thread of loop `l`. */
  function RemoveConnection(s: Server, l: LoopId, id: ConnId): Server
    requires id in s.entries && s.entries[id].loop < |s.loops| && 0 < |s.loops|
  {
    if l == BASE then RemoveConnectionInLoop(s, id) else QueueOn(s, BASE, [RemoveInLoop(id)])
  }

  /** `Channel::handleEvent`: nothing happens unless the tied connection can be locked. */
  function HandleChannel(s: Server, l: LoopId, id: ConnId, revents: Revents, env: Env): Server
    requires id in s.entries && s.entries[id].loop < |s.loops| && 0 < |s.loops|
  {
    var e := s.entries[id];
    if e.conn.tied && e.freed then s
    else
      var c := HandleEvent(e.conn, revents, env);
      var s1 := SetConn(s, id, c);
      if c.closes > e.conn.closes then RemoveConnection(s1, l, id) else s1
  }

  function Call1(s: Server, f: Functor, calls: seq<Call>, w: WriteChoice): Server
    requires f.id in s.entries && s.entries[f.id].loop < |s.loops|
  {
    var c := s.entries[f.id].conn;
    match f
    case Established(id) => EstablishConnection(s, id, calls)
    case RemoveInLoop(id) => RemoveConnectionInLoop(s, id)
    case Destroyed(id) => DestroyConnection(s, id, calls)
    case Notice(id, _) => SetConn(s, id, DoCalls(c, calls))
    case Delivery(id, msg, _) => SetConn(s, id, SendInLoop(c, msg, w))
  }

  // ---------------------------------------------------------------- actions

  datatype Action =
    | Incoming(fd: int, cfg: Config, calls: seq<Call>)          // the acceptor's event on the base loop
    | Poll(l: LoopId, ready: seq<ConnId>)
    | Dispatch(l: LoopId, revents: Revents, env: Env)         // the next active channel
    | EndDispatch(l: LoopId)                                  // ... and doPendingFunctors swaps
    | RunFunctor(l: LoopId, calls: seq<Call>, w: WriteChoice)
    | EndFunctors(l: LoopId)                                  // doPendingFunctors drops its vector
    | OwnCall(id: ConnId, call: Call)                         // user code on the connection's loop
    | SendCheck(t: Thread, id: ConnId, msg: Bytes)            // send on another thread: line 119 ...
    | SendPush(t: Thread)                                     // ... and line 124
    | Release(id: ConnId)                                     // the destructor

  predicate ValidLoop(s: Server, l: LoopId) { l < |s.loops| }

  ghost predicate Enabled(s: Server, a: Action) {
    match a
    case Incoming(fd, _, _) =>
      && |s.loops| > 0 && s.loops[BASE].phase == Dispatching && s.nextConnId <= Names.INT_MAX
      && Assigned(s.threads, s.next) < |s.loops|
      && forall id :: id in s.entries && s.entries[id].fd == fd ==> s.entries[id].freed
    case Poll(l, ready) =>
      && ValidLoop(s, l) && s.loops[l].phase == Polling
      && (forall i :: 0 <= i < |ready| ==> Reports(s, l, ready[i]))
      && (forall i, j :: 0 <= i < j < |ready| ==> ready[i] != ready[j])
    case Dispatch(l, revents, _) =>
      && ValidLoop(s, l) && s.loops[l].phase == Dispatching && s.loops[l].active != []
      && CanTouch(s, s.loops[l].active[0]) && Plausible(revents)
    case EndDispatch(l) => ValidLoop(s, l) && s.loops[l].phase == Dispatching && s.loops[l].active == []
    case RunFunctor(l, _, _) =>
      ValidLoop(s, l) && s.loops[l].phase == Running && s.loops[l].batch != [] && CanTouch(s, s.loops[l].batch[0].id)
    case EndFunctors(l) => ValidLoop(s, l) && s.loops[l].phase == Running && s.loops[l].batch == []
    case OwnCall(id, _) => CanTouch(s, id) && !s.entries[id].freed && s.loops[s.entries[id].loop].phase != Polling
    case SendCheck(t, id, _) => t !in s.sending && CanTouch(s, id) && !s.entries[id].freed
    case SendPush(t) => t in s.sending && CanTouch(s, s.sending[t].id)
    case Release(id) => id in s.entries && !s.entries[id].freed && !Referenced(s, id)
  }

  predicate CanTouch(s: Server, id: ConnId) {
    id in s.entries && s.entries[id].loop < |s.loops|
  }

  /** The kernel reports a descriptor that is in this loop's interest set. */
  predicate Reports(s: Server, l: LoopId, id: ConnId) {
    id in s.entries && s.entries[id].loop == l && s.entries[id].conn.kernel.Some?
  }

  function Next(s: Server, a: Action): Server
    requires Enabled(s, a)
  {
    match a
    case Incoming(fd, cfg, calls) => NewConnection(s, fd, cfg, calls)
    case Poll(l, ready) => SetLoop(s, l, s.loops[l].(phase := Dispatching, active := ready))
    case Dispatch(l, revents, env) =>
      var id := s.loops[l].active[0];
      HandleChannel(SetLoop(s, l, s.loops[l].(active := s.loops[l].active[1..])), l, id, revents, env)
    case EndDispatch(l) => SetLoop(s, l, s.loops[l].(phase := Running, batch := s.loops[l].pending, pending := []))
    case RunFunctor(l, calls, w) =>
      var f := s.loops[l].batch[0];
      Call1(SetLoop(s, l, s.loops[l].(batch := s.loops[l].batch[1..], ran := s.loops[l].ran + [f])), f, calls, w)
    case EndFunctors(l) => SetLoop(s, l, s.loops[l].(phase := Polling, ran := []))
    case OwnCall(id, call) => SetConn(s, id, DoCall(s.entries[id].conn, call))
    case SendCheck(t, id, msg) =>
      if s.entries[id].conn.state == Connected then s.(sending := s.sending[t := Sending(id, msg)]) else s
    case SendPush(t) =>
      var (id, msg) := (s.sending[t].id, s.sending[t].msg);
      QueueOn(s.(sending := s.sending - {t}), s.entries[id].loop, [Delivery(id, msg, Retired(s, id))])
    case Release(id) => s.(entries := s.entries[id := s.entries[id].(freed := true)])
  }

  ghost predicate Legal(s: Server, run: seq<Action>)
    decreases |run|
  {
    run == [] || (Enabled(s, run[0]) && Legal(Next(s, run[0]), run[1..]))
  }

  ghost function Exec(s: Server, run: seq<Action>): Server
    requires Legal(s, run)
    decreases |run|
  {
    if run == [] then s else Exec(Next(s, run[0]), run[1..])
  }
}
