/** A run of the server from start to release: the reachable states that `ServerTheorems` speaks of
    are not only the first one. */
module ServerExample {
  import opened Kernel
  import opened ConnectionModel
  import opened ServerModel
  import opened ServerSteps
  import opened ServerTheorems
  import S = ServerModel
  import Names

  /** A single-threaded server with one connection, its loop in the given state. */
  function Single(name: string, ipPort: string, mapped: bool, e: Entry, loop: LoopState,
                  sending: map<Thread, Sending> := map[]): Server {
    Server(name, ipPort, 0, 0, 2,
           if mapped then map[Names.ConnName(name, ipPort, 1) := 1] else map[], map[1 := e], [loop], sending)
  }

  function Established1(fd: int, cfg: Config): Entry {
    Entry(ConnectEstablished(Fresh(cfg), []), BASE, fd, 0, false)
  }

  function Closed1(fd: int, cfg: Config): Entry {
    Entry(HandleClose(ConnectEstablished(Fresh(cfg), []), []), BASE, fd, 0, false)
  }

  lemma IncomingOpens(name: string, ipPort: string, fd: int, cfg: Config)
    ensures var s := Started(name, ipPort, 0).(loops := [IDLE.(phase := Dispatching)]);
            NewConnection(s, fd, cfg, [])
            == Single(name, ipPort, true, Established1(fd, cfg), LoopState(Dispatching, [], [], [], [], map[fd := 1]))
  {
    var s := Single(name, ipPort, true, Entry(Fresh(cfg), BASE, fd, 0, false), IDLE.(phase := Dispatching));
    QuietChange(s, 1, Established1(fd, cfg).conn);
  }

  lemma Accepts(name: string, ipPort: string, fd: int, cfg: Config) returns (s: Server)
    requires |ipPort| <= 21
    ensures Reachable(s)
    ensures s == Single(name, ipPort, true, Established1(fd, cfg), LoopState(Dispatching, [], [], [], [], map[fd := 1]))
  {
    s := Started(name, ipPort, 0);
    assert S.Legal(s, []) && S.Exec(s, []) == s;
    assert s.loops == [IDLE];
    s := Take(s, Poll(BASE, []));
    s := Take(s, Incoming(fd, cfg, []));
    IncomingOpens(name, ipPort, fd, cfg);
  }

  lemma Opens(name: string, ipPort: string, fd: int, cfg: Config) returns (s: Server)
    requires |ipPort| <= 21
    ensures Reachable(s)
    ensures s == Single(name, ipPort, true, Established1(fd, cfg), IDLE.(channels := map[fd := 1]))
  {
    s := Accepts(name, ipPort, fd, cfg);
    s := Take(s, EndDispatch(BASE));
    s := Take(s, EndFunctors(BASE));
  }

  const HANG_UP := Revents(false, false, false, false, true)

  lemma HangUpCloses(name: string, ipPort: string, fd: int, cfg: Config, sending: map<Thread, Sending>)
    ensures var s := Single(name, ipPort, true, Established1(fd, cfg),
                            LoopState(Dispatching, [], [], [], [], map[fd := 1]), sending);
            HandleChannel(s, BASE, 1, HANG_UP, Env(EndOfStream, [], [], Accept(0)))
            == Single(name, ipPort, false, Closed1(fd, cfg),
                      LoopState(Dispatching, [], [], [], [Destroyed(1)], map[fd := 1]), sending)
  {
    var c := Established1(fd, cfg).conn;
    var loop := LoopState(Dispatching, [], [], [], [], map[fd := 1]);
    var s := Single(name, ipPort, true, Established1(fd, cfg), loop, sending);
    assert HandleEvent(c, HANG_UP, Env(EndOfStream, [], [], Accept(0))) == Closed1(fd, cfg).conn;
    QuietChange(s, 1, Closed1(fd, cfg).conn);
    var s1 := SetConn(s, 1, Closed1(fd, cfg).conn);
    assert s1 == Single(name, ipPort, true, Closed1(fd, cfg), loop, sending);
    Unmapped(name, ipPort, Closed1(fd, cfg), loop, sending);
  }

  lemma Unmapped(name: string, ipPort: string, e: Entry, loop: LoopState, sending: map<Thread, Sending>)
    requires e.loop == BASE && loop.pending == []
    ensures RemoveConnectionInLoop(Single(name, ipPort, true, e, loop, sending), 1)
            == Single(name, ipPort, false, e, loop.(pending := [Destroyed(1)]), sending)
  {
    var s := Single(name, ipPort, true, e, loop, sending);
    var none: seq<Functor> := [];
    assert none + [Destroyed(1)] == [Destroyed(1)];
    assert s.connections - {ConnName(s, 1)} == map[];
    assert RemoveConnectionInLoop(s, 1).loops == [loop.(pending := [Destroyed(1)])];
  }

  /** The hang-up of an established connection, whoever is sending on it. */
  lemma Closes(s: Server, name: string, ipPort: string, fd: int, cfg: Config) returns (t: Server)
    requires Reachable(s)
    requires s == Single(name, ipPort, true, Established1(fd, cfg), IDLE.(channels := map[fd := 1]), s.sending)
    ensures Reachable(t)
    ensures t == Single(name, ipPort, false, Closed1(fd, cfg),
                        LoopState(Running, [], [Destroyed(1)], [], [], map[fd := 1]), s.sending)
  {
    hide Reachable, HandleChannel;
    t := Take(s, Poll(BASE, [1]));
    assert t.loops == [LoopState(Dispatching, [1], [], [], [], map[fd := 1])];
    assert [1][1..] == [];
    assert SetLoop(t, BASE, t.loops[BASE].(active := [])).loops
           == [LoopState(Dispatching, [], [], [], [], map[fd := 1])];
    t := Take(t, Dispatch(BASE, HANG_UP, Env(EndOfStream, [], [], Accept(0))));
    HangUpCloses(name, ipPort, fd, cfg, s.sending);
    t := Take(t, EndDispatch(BASE));
  }

  function Gone(fd: int, cfg: Config): Entry {
    Entry(RemoveChannel(Closed1(fd, cfg).conn), BASE, fd, 1, false)
  }

  lemma DestructionRemoves(name: string, ipPort: string, fd: int, cfg: Config, sending: map<Thread, Sending>)
    ensures var s := Single(name, ipPort, false, Closed1(fd, cfg),
                            LoopState(Running, [], [Destroyed(1)], [], [], map[fd := 1]), sending);
            && S.Enabled(s, RunFunctor(BASE, [], Accept(0)))
            && Next(s, RunFunctor(BASE, [], Accept(0)))
               == Single(name, ipPort, false, Gone(fd, cfg),
                         LoopState(Running, [], [], [Destroyed(1)], [], map[]), sending)
  {
    hide DestroyConnection, Closed1, Gone;
    var s := Single(name, ipPort, false, Closed1(fd, cfg),
                    LoopState(Running, [], [Destroyed(1)], [], [], map[fd := 1]), sending);
    DestructionPops(s);
    GoneIsDestroyed(fd, cfg);
    DestroyedAway(Popped(s, BASE), fd, Gone(fd, cfg).conn);
  }

  lemma DestructionPops(s: Server)
    requires |s.loops| == 1 && s.loops[BASE].batch == [Destroyed(1)] && s.loops[BASE].ran == []
    ensures Popped(s, BASE) == s.(loops := [s.loops[BASE].(batch := [], ran := [Destroyed(1)])])
  {
    var none: seq<Functor> := [];
    assert [Destroyed(1)][1..] == none && none + [Destroyed(1)] == [Destroyed(1)];
    assert Popped(s, BASE).loops == [s.loops[BASE].(batch := [], ran := [Destroyed(1)])];
  }

  lemma GoneIsDestroyed(fd: int, cfg: Config)
    ensures var (e, g) := (Closed1(fd, cfg), Gone(fd, cfg));
            && g.conn == ConnectDestroyed(e.conn, []) && g.conn.queued == e.conn.queued
            && e.loop == BASE && e.fd == fd && g == e.(conn := g.conn, destroyed := e.destroyed + 1)
  {
  }

  lemma DestroyedAway(s: Server, fd: int, gone: Conn)
    requires |s.loops| == 1 && 1 in s.entries && s.entries[1].loop == BASE && s.entries[1].fd == fd
    requires s.loops[BASE].channels == map[fd := 1] && gone == ConnectDestroyed(s.entries[1].conn, [])
    requires gone.queued == s.entries[1].conn.queued
    ensures DestroyConnection(s, 1, [])
            == s.(entries := s.entries[1 := s.entries[1].(conn := gone, destroyed := s.entries[1].destroyed + 1)],
                  loops := [s.loops[BASE].(channels := map[])])
  {
    QuietChange(s, 1, gone);
    assert map[fd := 1] - {fd} == map[];
    assert DestroyConnection(s, 1, []).loops == [s.loops[BASE].(channels := map[])];
  }

  /** ... and the destruction that follows it. */
  lemma HangsUp(s: Server, name: string, ipPort: string, fd: int, cfg: Config) returns (t: Server)
    requires Reachable(s)
    requires s == Single(name, ipPort, true, Established1(fd, cfg), IDLE.(channels := map[fd := 1]), s.sending)
    ensures Reachable(t)
    ensures t == Single(name, ipPort, false, Gone(fd, cfg),
                        LoopState(Running, [], [], [Destroyed(1)], [], map[]), s.sending)
  {
    hide Reachable, S.Enabled, Next;
    t := Closes(s, name, ipPort, fd, cfg);
    DestructionRemoves(name, ipPort, fd, cfg, s.sending);
    t := Take(t, RunFunctor(BASE, [], Accept(0)));
  }

  lemma NothingRefers(name: string, ipPort: string, e: Entry, loop: LoopState)
    requires forall f :: f in Held(loop) ==> f.Delivery?
    ensures !Referenced(Single(name, ipPort, false, e, loop), 1)
  {
  }

  /** The reachable states include a whole life: accepted, up, hung up, down, destroyed, released. */
  lemma WholeLife(name: string, ipPort: string, fd: int, cfg: Config) returns (s: Server)
    requires |ipPort| <= 21
    ensures Reachable(s)
    ensures s == Single(name, ipPort, false, Gone(fd, cfg).(freed := true), IDLE)
    ensures Gone(fd, cfg).conn.ups == Gone(fd, cfg).conn.downs == Gone(fd, cfg).conn.closes == 1
  {
    hide Reachable;
    var up := Opens(name, ipPort, fd, cfg);
    s := HangsUp(up, name, ipPort, fd, cfg);
    s := Take(s, EndFunctors(BASE));
    assert s == Single(name, ipPort, false, Gone(fd, cfg), IDLE);
    assert Held(IDLE) == [];
    NothingRefers(name, ipPort, Gone(fd, cfg), IDLE);
    s := Take(s, Release(1));
  }

  // ---------------------------------------------------------------- a message that comes too late

  /** A thread sees `kConnected`; the connection is closed and destroyed; then it pushes. */
  lemma LatePush(name: string, ipPort: string, fd: int, cfg: Config, msg: Bytes) returns (s: Server)
    requires |ipPort| <= 21
    ensures Reachable(s)
    ensures s == Single(name, ipPort, false, Gone(fd, cfg),
                        LoopState(Running, [], [], [Destroyed(1)], [Delivery(1, msg, true)], map[]))
  {
    hide Reachable;
    s := Opens(name, ipPort, fd, cfg);
    s := Take(s, SendCheck(7, 1, msg));
    s := HangsUp(s, name, ipPort, fd, cfg);
    assert map[7 := Sending(1, msg)] - {7} == map[];
    var none: seq<Functor> := [];
    assert none + [Delivery(1, msg, true)] == [Delivery(1, msg, true)];
    s := Take(s, SendPush(7));
    assert s.loops == [LoopState(Running, [], [], [Destroyed(1)], [Delivery(1, msg, true)], map[])];
  }

  /** Nothing keeps the connection then: `sendInLoop` comes up when it has been released. */
  lemma LateMessageDangles(name: string, ipPort: string, fd: int, cfg: Config, msg: Bytes) returns (s: Server)
    requires |ipPort| <= 21
    ensures Reachable(s)
    ensures |s.loops| == 1 && s.loops[BASE].phase == Running && s.loops[BASE].batch == [Delivery(1, msg, true)]
    ensures 1 in s.entries && s.entries[1].freed
  {
    hide Reachable;
    s := LatePush(name, ipPort, fd, cfg, msg);
    s := Take(s, EndFunctors(BASE));
    var loop := LoopState(Polling, [], [], [], [Delivery(1, msg, true)], map[]);
    assert s == Single(name, ipPort, false, Gone(fd, cfg), loop);
    assert Held(loop) == [Delivery(1, msg, true)];
    NothingRefers(name, ipPort, Gone(fd, cfg), loop);
    s := Take(s, Release(1));
    s := Take(s, Poll(BASE, []));
    s := Take(s, EndDispatch(BASE));
  }
}
