/** The server's main results, for every run from its start. */
module ServerTheorems {
  import opened Kernel
  import opened ConnectionModel
  import opened ServerModel
  import opened ServerProofs
  import opened ServerSteps
  import opened ServerRuns
  import opened ServerSends
  import opened ServerNotices
  import opened ThreadPools
  import C = ConnectionModel
  import S = ServerModel
  import P = ConnectionProofs
  import Pollers
  import N = Notifications
  import E = ConnectionEffects

  lemma InitialInv(name: string, ipPort: string, threads: nat)
    requires |ipPort| <= 21
    ensures Sound(Started(name, ipPort, threads))
  {
  }

  /** A state some run of some server reaches. */
  ghost predicate Reachable(s: Server) {
    exists name, ipPort, threads, run ::
      && |ipPort| <= 21 && S.Legal(Started(name, ipPort, threads), run)
      && s == S.Exec(Started(name, ipPort, threads), run)
  }

  lemma ReachableInv(s: Server)
    requires Reachable(s)
    ensures Sound(s) && Inv(s)
  {
    hide Inv, SendingOk, DeliveriesOk, S.Legal, S.Exec;
    var name, ipPort, threads, run :|
      && |ipPort| <= 21 && S.Legal(Started(name, ipPort, threads), run)
      && s == S.Exec(Started(name, ipPort, threads), run);
    InitialInv(name, ipPort, threads);
    SoundRun(Started(name, ipPort, threads), run);
  }

  lemma ReachableEntry(s: Server, id: ConnId)
    requires Reachable(s) && id in s.entries
    ensures Shape(s) && id > 0 && EntryOk(s, id)
  {
    hide Inv;
    ReachableInv(s);
    InvShape(s);
    InvEntry(s, id);
  }

  lemma ReachableLoop(s: Server, l: LoopId)
    requires Reachable(s) && l < |s.loops|
    ensures LoopOk(s, l)
  {
    hide Inv;
    ReachableInv(s);
    InvLoop(s, l);
  }

  lemma {:induction false} LegalExtends(s: Server, run: seq<Action>, a: Action)
    requires S.Legal(s, run) && S.Enabled(S.Exec(s, run), a)
    ensures S.Legal(s, run + [a]) && S.Exec(s, run + [a]) == Next(S.Exec(s, run), a)
    decreases |run|
  {
    if run == [] {
      assert [a][1..] == [];
    } else {
      assert (run + [a])[1..] == run[1..] + [a];
      LegalExtends(Next(s, run[0]), run[1..], a);
    }
  }

  /** What is reachable is closed under the actions. */
  lemma Take(s: Server, a: Action) returns (t: Server)
    requires Reachable(s) && S.Enabled(s, a)
    ensures t == Next(s, a) && Reachable(t)
  {
    var name, ipPort, threads, run :|
      && |ipPort| <= 21 && S.Legal(Started(name, ipPort, threads), run)
      && s == S.Exec(Started(name, ipPort, threads), run);
    LegalExtends(Started(name, ipPort, threads), run, a);
    assert S.Legal(Started(name, ipPort, threads), run + [a]);
    t := Next(s, a);
  }

  // ---------------------------------------------------------------- ownership

  /** Every channel a poller knows belongs to a connection that is alive because it is in the map, or
      because its `connectDestroyed` is queued on this loop. No poller ever holds a dead channel. */
  lemma PollersHoldLiveChannels(s: Server, l: LoopId, fd: int)
    requires Reachable(s) && l < |s.loops| && fd in s.loops[l].channels
    ensures var id := s.loops[l].channels[fd];
            && id in s.entries && !s.entries[id].freed
            && ((ConnName(s, id) in s.connections && s.connections[ConnName(s, id)] == id)
                || Destroyed(id) in Todo(s.loops[l]))
  {
    hide Inv, P.Inv;
    ReachableLoop(s, l);
    var id := s.loops[l].channels[fd];
    assert ChannelOk(s, l, fd, id);
    ReachableEntry(s, id);
    assert FactsOf(s, id).polled;
  }

  /** Nothing that waits to run or to be dispatched refers to a released connection, so neither the tie
      guard nor a raw pointer ever meets one; a message, which holds nothing, if it was pushed before
      `connectDestroyed` was queued. */
  lemma NothingDangles(s: Server, l: LoopId)
    requires Reachable(s) && l < |s.loops|
    ensures forall f :: f in Held(s.loops[l]) && !f.Delivery? ==> CanTouch(s, f.id) && !s.entries[f.id].freed
    ensures forall f :: f in Todo(s.loops[l]) && f.Delivery? && !f.late ==>
              CanTouch(s, f.id) && !s.entries[f.id].freed && s.entries[f.id].destroyed == 0
    ensures forall id :: id in s.loops[l].active ==> CanTouch(s, id) && !s.entries[id].freed
  {
    hide Inv, P.Inv, Reachable;
    ReachableLoop(s, l);
    forall f | f in Held(s.loops[l]) && !f.Delivery?
      ensures CanTouch(s, f.id) && !s.entries[f.id].freed
    {
      assert FunctorOk(s, l, f);
      ReachableEntry(s, f.id);
    }
    forall f | f in Todo(s.loops[l]) && f.Delivery? && !f.late
      ensures CanTouch(s, f.id) && !s.entries[f.id].freed && s.entries[f.id].destroyed == 0
    {
      TimelyIsLive(s, l, f);
    }
    forall id | id in s.loops[l].active
      ensures CanTouch(s, id) && !s.entries[id].freed
    {
      var i :| 0 <= i < |s.loops[l].active| && s.loops[l].active[i] == id;
      assert ActiveOk(s, l, s.loops[l].active[i]);
      ReachableEntry(s, id);
    }
  }

  lemma TimelyIsLive(s: Server, l: LoopId, f: Functor)
    requires Reachable(s) && l < |s.loops| && f in Todo(s.loops[l]) && f.Delivery? && !f.late
    ensures CanTouch(s, f.id) && !s.entries[f.id].freed && s.entries[f.id].destroyed == 0
  {
    hide Inv, P.Inv, Reachable;
    ReachableInv(s);
    var j :| 0 <= j < |Todo(s.loops[l])| && Todo(s.loops[l])[j] == f;
    assert DeliveryOk(s, l, j);
    ReachableEntry(s, f.id);
  }

  /** A message of another thread reaches `sendInLoop` after `connectDestroyed` has run exactly when it
      was pushed after that had been queued; before, its connection is alive. */
  lemma DeliveryTiming(s: Server, l: LoopId)
    requires Reachable(s) && l < |s.loops| && s.loops[l].batch != [] && s.loops[l].batch[0].Delivery?
    ensures var f := s.loops[l].batch[0];
            && CanTouch(s, f.id) && (f.late <==> s.entries[f.id].destroyed == 1)
            && (!f.late ==> !s.entries[f.id].freed)
            && (f.late ==> s.entries[f.id].conn.state == Disconnected)
  {
    hide Inv, P.Inv, Reachable;
    ReachableInv(s);
    var f := s.loops[l].batch[0];
    assert Todo(s.loops[l])[0] == f && Todo(s.loops[l])[..0] == [];
    assert DeliveryOk(s, l, 0);
    ReachableEntry(s, f.id);
  }

  // ---------------------------------------------------------------- life cycle

  /** One UP, then at most one DOWN, which comes with the one close; at most one destruction, after
      the close; and release only after that. */
  lemma LifeCycle(s: Server, id: ConnId)
    requires Reachable(s) && id in s.entries
    ensures var e := s.entries[id];
            && e.conn.ups == (if e.conn.state == Connecting then 0 else 1)
            && e.conn.downs == e.conn.closes == (if e.conn.state == Disconnected then 1 else 0)
            && e.destroyed <= e.conn.closes
            && (e.destroyed == 1 <==> e.conn.state == Disconnected && e.conn.index == Pollers.New)
            && (e.freed ==> e.destroyed == 1)
  {
    ReachableEntry(s, id);
  }

  /** The source's assertions hold whenever a functor is about to run: `kConnecting` in
      `connectEstablished`, a known channel in `removeChannel` ... */
  lemma FunctorAssertionsHold(s: Server, l: LoopId)
    requires Reachable(s) && l < |s.loops| && s.loops[l].batch != []
    ensures var f := s.loops[l].batch[0];
            && f.id in s.entries
            && (f.Established? ==> s.entries[f.id].conn.state == Connecting)
            && (f.Destroyed? ==> s.entries[f.id].conn.state == Disconnected
                                 && s.entries[f.id].conn.index != Pollers.New)
  {
    hide Inv;
    ReachableInv(s);
    NextFunctor(s, l);
  }

  /** ... and so does `kDisconnected` in `~TcpConnection`, whenever the last reference goes. */
  lemma DestructorAssertionHolds(s: Server, id: ConnId)
    requires Reachable(s) && S.Enabled(s, Release(id))
    ensures s.entries[id].conn.state == Disconnected && s.entries[id].destroyed == 1
  {
    hide Inv;
    ReachableInv(s);
    UnreferencedIsDestroyed(s, id);
  }

  /** On the server too, EPOLLOUT is watched exactly while bytes wait, and never on a connection that
      is not up. */
  lemma NoStuckBytesAnywhere(s: Server, id: ConnId)
    requires Reachable(s) && id in s.entries
    ensures var c := s.entries[id].conn;
            && (P.Up(c) ==> c.kernel.Some? && (c.kernel.value.writing <==> c.output != []))
            && (!P.Up(c) ==> c.kernel.None?)
            && (c.state == Disconnecting ==> c.fins == 1 || c.output != [])
            && c.taken + c.output == c.accepted
  {
    ReachableEntry(s, id);
  }

  // ---------------------------------------------------------------- every connection runs the connection model

  /** A connection's part in any run of the server is a legal run of the connection model, so
      everything proved about those runs holds of every connection of every server. */
  lemma {:induction false} RunRunsConn(s: Server, run: seq<Action>, id: ConnId)
    requires Sound(s) && S.Legal(s, run) && id in s.entries
    ensures id in S.Exec(s, run).entries
    ensures C.Legal(s.entries[id].conn, RunSteps(s, run, id))
    ensures S.Exec(s, run).entries[id].conn == C.Exec(s.entries[id].conn, RunSteps(s, run, id))
    decreases |run|
  {
    hide Inv, SendingOk, DeliveriesOk, Next, S.Enabled, StepsOf;
    if run == [] {
      NoStep(s.entries[id].conn);
    } else {
      AnyActionRunsConn(s, run[0], id);
      SoundStep(s, run[0]);
      RunRunsConn(Next(s, run[0]), run[1..], id);
      ConnExecConcat(s.entries[id].conn, StepsOf(s, run[0], id), RunSteps(Next(s, run[0]), run[1..], id));
    }
  }

  /** All the steps of connection `id` in a run of the server, in order. */
  ghost function RunSteps(s: Server, run: seq<Action>, id: ConnId): seq<Step>
    requires S.Legal(s, run)
    decreases |run|
  {
    if run == [] then [] else StepsOf(s, run[0], id) + RunSteps(Next(s, run[0]), run[1..], id)
  }

  lemma AnyActionRunsConn(s: Server, a: Action, id: ConnId)
    requires Inv(s) && S.Enabled(s, a) && id in s.entries
    ensures id in Next(s, a).entries && C.Legal(s.entries[id].conn, StepsOf(s, a, id))
    ensures Next(s, a).entries[id].conn == C.Exec(s.entries[id].conn, StepsOf(s, a, id))
  {
    hide Inv, C.Legal, C.Exec, S.Enabled;
    if a == Release(id) {
      NoStep(s.entries[id].conn);
    } else {
      ActionRunsConn(s, a, id);
    }
  }

  /** The connection that an accept makes: fresh, and established at once on the base loop. */
  lemma IncomingBegins(s: Server, fd: int, cfg: Config, calls: seq<Call>)
    requires S.Enabled(s, Incoming(fd, cfg, calls))
    ensures var t := Next(s, Incoming(fd, cfg, calls));
            var io := Assigned(s.threads, s.next);
            && s.nextConnId in t.entries && t.entries[s.nextConnId].fd == fd && t.entries[s.nextConnId].loop == io
            && t.entries[s.nextConnId].conn
               == if io == BASE then After(Fresh(cfg), Step.Establish(calls)) else Fresh(cfg)
  {
    hide ConnectEstablished, ConnName;
  }

  /** Every connection of every server has done a legal run of the connection model from its beginning. */
  lemma {:induction false} ConnFromFresh(s: Server, run: seq<Action>, id: ConnId)
    returns (cfg: Config, steps: seq<Step>)
    requires Sound(s) && S.Legal(s, run) && id !in s.entries && id in S.Exec(s, run).entries
    ensures C.Legal(Fresh(cfg), steps) && S.Exec(s, run).entries[id].conn == C.Exec(Fresh(cfg), steps)
    decreases |run|
  {
    hide Sound, Next, S.Enabled, C.Legal, C.Exec;
    var a := run[0];
    SoundInv(s);
    SoundStep(s, a);
    if a.Incoming? && id == s.nextConnId {
      cfg := a.cfg;
      steps := ConnBegins(s, a.fd, cfg, a.calls);
      RunRunsConn(Next(s, a), run[1..], id);
      ConnExecConcat(Fresh(cfg), steps, RunSteps(Next(s, a), run[1..], id));
      steps := steps + RunSteps(Next(s, a), run[1..], id);
    } else {
      OnlyIncomingAdds(s, a, id);
      cfg, steps := ConnFromFresh(Next(s, a), run[1..], id);
    }
  }

  lemma ConnBegins(s: Server, fd: int, cfg: Config, calls: seq<Call>) returns (steps: seq<Step>)
    requires S.Enabled(s, Incoming(fd, cfg, calls))
    ensures s.nextConnId in Next(s, Incoming(fd, cfg, calls)).entries
    ensures C.Legal(Fresh(cfg), steps)
    ensures Next(s, Incoming(fd, cfg, calls)).entries[s.nextConnId].conn == C.Exec(Fresh(cfg), steps)
  {
    hide Next, S.Enabled;
    IncomingBegins(s, fd, cfg, calls);
    OneStep(Fresh(cfg), Step.Establish(calls));
    NoStep(Fresh(cfg));
    steps := if Assigned(s.threads, s.next) == BASE then [Step.Establish(calls)] else [];
  }

  /** What the kernel took of a connection's bytes and what is buffered grow, over any run of the server,
      by exactly the messages its steps did not give up: those of its callbacks, of its loop's other
      user code, and those that other threads pushed, in the order in which they came up. */
  lemma MessagesOnServer(s: Server, run: seq<Action>, id: ConnId)
    requires Reachable(s) && S.Legal(s, run) && id in s.entries
    ensures id in S.Exec(s, run).entries
    ensures var c, r := s.entries[id].conn, S.Exec(s, run).entries[id].conn;
            r.taken + r.output == (c.taken + c.output) + E.RunAdds(c, RunSteps(s, run, id))
  {
    hide Inv, P.Inv, S.Legal, S.Exec, C.Legal, C.Exec, RunSteps;
    ReachableInv(s);
    ReachableEntry(s, id);
    RunRunsConn(s, run, id);
    E.MessagesReachStream(s.entries[id].conn, RunSteps(s, run, id));
  }

  /** The next channel of a dispatch belongs to a connection in the state that the handlers need, and the
      event reaches them. */
  lemma DispatchReaches(s: Server, l: LoopId, revents: Revents, env: Env)
    requires Reachable(s) && S.Enabled(s, Dispatch(l, revents, env))
    ensures var id := s.loops[l].active[0];
            && id in s.entries && P.Inv(s.entries[id].conn) && P.Up(s.entries[id].conn)
            && id in Next(s, Dispatch(l, revents, env)).entries
            && Next(s, Dispatch(l, revents, env)).entries[id].conn == HandleEvent(s.entries[id].conn, revents, env)
  {
    hide Inv, P.Inv, Reachable, HandleChannel, HandleEvent;
    ReachableInv(s);
    var id := s.loops[l].active[0];
    ActivePops(s, l);
    ReachableEntry(s, id);
    EventTouches(NextTaken(s, l), l, id, revents, env, id);
  }

  /** When a loop dispatches EPOLLOUT, the kernel gets what it takes of all that waits on that connection. */
  lemma WritableOnServer(s: Server, l: LoopId, revents: Revents, env: Env, n: nat)
    requires Reachable(s) && S.Enabled(s, Dispatch(l, revents, env))
    requires revents.epollout && !E.Ends(revents, env.arrival) && env.w == Accept(n) && n > 0
    requires s.entries[s.loops[l].active[0]].conn.output != []
    ensures var id := s.loops[l].active[0];
            var c := s.entries[id].conn;
            var waiting := c.output + E.EventAdds(c, revents, env);
            && id in Next(s, Dispatch(l, revents, env)).entries
            && Next(s, Dispatch(l, revents, env)).entries[id].conn.taken == c.taken + waiting[..Min(n, |waiting|)]
  {
    hide Reachable, Next, P.Inv, HandleEvent, E.EventAdds;
    DispatchReaches(s, l, revents, env);
    E.EventWrites(s.entries[s.loops[l].active[0]].conn, revents, env, n);
  }

  /** For one: states only move forward on the server, and nothing follows a half-close. */
  lemma ForwardOnly(s: Server, run: seq<Action>, id: ConnId)
    requires Reachable(s) && S.Legal(s, run) && id in s.entries
    ensures id in S.Exec(s, run).entries
    ensures var c, r := s.entries[id].conn, S.Exec(s, run).entries[id].conn;
            && P.Rank(c.state) <= P.Rank(r.state)
            && (c.fins == 1 ==> r.fins == 1 && r.taken == c.taken && r.accepted == c.accepted)
  {
    hide Inv, P.Inv, S.Legal, S.Exec, C.Legal, C.Exec;
    ReachableInv(s);
    ReachableEntry(s, id);
    RunRunsConn(s, run, id);
    var steps := RunSteps(s, run, id);
    P.RunKeeps(s.entries[id].conn, steps);
    if s.entries[id].conn.fins == 1 {
      P.NothingAfterFin(s.entries[id].conn, steps);
    }
  }

  /** For another: in any run of the server exactly the notes that are due are queued for a connection,
      high-water notes as often as the buffered size rises to the mark, write-complete notes as often
      as everything accepted has been written. */
  lemma NotificationsOnServer(s: Server, run: seq<Action>, id: ConnId) returns (ms: seq<N.Micro>)
    requires Reachable(s) && S.Legal(s, run) && id in s.entries
    ensures id in S.Exec(s, run).entries
    ensures var c, r := s.entries[id].conn, S.Exec(s, run).entries[id].conn;
            && N.AllFit(c, ms) && N.ApplyAll(c, ms) == r
            && r.queued == c.queued + N.AllDue(c, ms)
            && (c.cfg.onHighWater ==> N.HighWaters(r.queued) == N.HighWaters(c.queued) + N.Rises(c, ms)
                                      && N.Rises(c, ms) + (if N.AtMark(c) then 1 else 0)
                                         == N.Falls(c, ms) + (if N.AtMark(r) then 1 else 0))
            && (c.cfg.onWriteComplete ==>
                  N.WriteCompletes(r.queued) == N.WriteCompletes(c.queued) + N.Finishings(c, ms))
  {
    hide Inv, P.Inv, S.Legal, S.Exec, C.Legal, C.Exec;
    ReachableInv(s);
    ReachableEntry(s, id);
    RunRunsConn(s, run, id);
    var steps := RunSteps(s, run, id);
    ms := N.NotificationsOfRun(s.entries[id].conn, steps);
  }

  /** The notices that have run and those that wait in the queue of its loop are, at any time of any
      server, exactly the notes that a connection has queued: in order, each once, and nothing else. */
  lemma NoticesOnServer(name: string, ipPort: string, threads: nat, run: seq<Action>, id: ConnId)
    requires |ipPort| <= 21 && S.Legal(Started(name, ipPort, threads), run)
    ensures var r := S.Exec(Started(name, ipPort, threads), run);
            id in r.entries ==>
              && CanTouch(r, id)
              && NotesRun(Started(name, ipPort, threads), run, id)
                 + NotesOf(Todo(r.loops[r.entries[id].loop]), id) == r.entries[id].conn.queued
  {
    hide Sound, S.Legal, S.Exec, NotesRun, NotesOf, EntryOk, Inv;
    var s := Started(name, ipPort, threads);
    var r := S.Exec(s, run);
    InitialInv(name, ipPort, threads);
    NoticesRunExactly(s, run, id);
    SoundRun(s, run);
    if id in r.entries {
      SoundInv(r);
      assert CanTouch(r, id) by {
        InvEntry(r, id);
      }
    }
  }

  // ---------------------------------------------------------------- the loops go round

  /** The loops stand where they stood. */
  predicate SameTurn(s: Server, t: Server) {
    && |t.loops| == |s.loops|
    && forall l :: 0 <= l < |s.loops| ==>
         && t.loops[l].phase == s.loops[l].phase && t.loops[l].active == s.loops[l].active
         && t.loops[l].batch == s.loops[l].batch && t.loops[l].ran == s.loops[l].ran
  }

  lemma SetConnTurn(s: Server, id: ConnId, c: Conn)
    requires CanTouch(s, id)
    ensures SameTurn(s, SetConn(s, id, c)) && CanTouch(SetConn(s, id, c), id)
  {
  }

  lemma EventTurn(s: Server, k: LoopId, id: ConnId, revents: Revents, env: Env)
    requires CanTouch(s, id)
    ensures SameTurn(s, HandleChannel(s, k, id, revents, env))
  {
    hide HandleEvent, SetConn;
    SetConnTurn(s, id, HandleEvent(s.entries[id].conn, revents, env));
  }

  lemma FunctorTurn(s: Server, f: Functor, calls: seq<Call>, w: WriteChoice)
    requires CanTouch(s, f.id)
    ensures SameTurn(s, Call1(s, f, calls, w))
  {
    hide DoCalls, SendInLoop, ConnectEstablished, ConnectDestroyed;
  }

  lemma IncomingTurn(s: Server, fd: int, cfg: Config, calls: seq<Call>)
    requires Assigned(s.threads, s.next) < |s.loops|
    ensures SameTurn(s, NewConnection(s, fd, cfg, calls))
  {
    hide ConnectEstablished, ConnName;
  }

  /** Where loop `l` stands after an action: a poll hands over all that is ready, the swap all that is
      pending, a dispatch and a run take off the first, and every other action, of this loop or of
      another thread, leaves all three alone. */
  function Turned(q: LoopState, a: Action, l: LoopId): LoopState {
    match a
    case Poll(k, ready) => if k == l then q.(phase := ServerModel.Dispatching, active := ready) else q
    case Dispatch(k, _, _) => if k == l && q.active != [] then q.(active := q.active[1..]) else q
    case EndDispatch(k) => if k == l then q.(phase := ServerModel.Running, batch := q.pending) else q
    case RunFunctor(k, _, _) => if k == l && q.batch != [] then q.(batch := q.batch[1..]) else q
    case EndFunctors(k) => if k == l then q.(phase := ServerModel.Polling) else q
    case _ => q
  }

  lemma LoopTurns(s: Server, a: Action, l: LoopId)
    requires S.Enabled(s, a) && l < |s.loops|
    ensures var (w, r) := (Turned(s.loops[l], a, l), Next(s, a).loops);
            && |r| == |s.loops| && r[l].phase == w.phase && r[l].active == w.active && r[l].batch == w.batch
            && (a == EndDispatch(l) ==> r[l].pending == [])
  {
    hide HandleChannel, Call1, NewConnection, DoCall, SetConn;
    match a
    case Incoming(fd, cfg, calls) => IncomingTurn(s, fd, cfg, calls);
    case Dispatch(k, revents, env) => EventTurn(NextTaken(s, k), k, s.loops[k].active[0], revents, env);
    case RunFunctor(k, calls, w) => FunctorTurn(Popped(s, k), s.loops[k].batch[0], calls, w);
    case OwnCall(id, call) => SetConnTurn(s, id, DoCall(s.entries[id].conn, call));
    case _ =>
  }

  /** No loop is ever stuck: in every reachable state it can poll, dispatch any plausible event of its next
      active channel, run its next functor, or go on to the next phase. */
  lemma LoopNeverStuck(s: Server, l: LoopId, revents: Revents, env: Env, calls: seq<Call>, w: WriteChoice)
    requires Reachable(s) && l < |s.loops| && Plausible(revents)
    ensures match s.loops[l].phase
            case Polling => S.Enabled(s, Poll(l, []))
            case Dispatching =>
              S.Enabled(s, if s.loops[l].active == [] then EndDispatch(l) else Dispatch(l, revents, env))
            case Running =>
              S.Enabled(s, if s.loops[l].batch == [] then EndFunctors(l) else RunFunctor(l, calls, w))
  {
    hide Inv, P.Inv, Reachable, FactsOk;
    ReachableInv(s);
    match s.loops[l].phase
    case Polling =>
    case Dispatching =>
      if s.loops[l].active != [] {
        ActivePops(s, l);
      }
    case Running =>
      if s.loops[l].batch != [] {
        NextFunctor(s, l);
        InvEntry(s, s.loops[l].batch[0].id);
      }
  }

  // ---------------------------------------------------------------- dispatch

  /** What a loop's poller and phase are after a functor of connection `f.id`. */
  lemma FunctorChannels(s: Server, f: Functor, calls: seq<Call>, w: WriteChoice, l: LoopId)
    requires CanTouch(s, f.id) && l < |s.loops| && l != s.entries[f.id].loop
    ensures var t := Call1(s, f, calls, w);
            |t.loops| == |s.loops| && t.loops[l].channels == s.loops[l].channels && t.loops[l].phase == s.loops[l].phase
  {
  }

  /** The pollers and phases of `s` are those of `t`. */
  predicate SameChannels(s: Server, t: Server) {
    && |t.loops| == |s.loops|
    && forall l :: 0 <= l < |s.loops| ==>
         t.loops[l].channels == s.loops[l].channels && t.loops[l].phase == s.loops[l].phase
  }

  lemma SetConnChannels(s: Server, id: ConnId, c: Conn)
    requires CanTouch(s, id)
    ensures SameChannels(s, SetConn(s, id, c)) && CanTouch(SetConn(s, id, c), id)
  {
  }

  lemma RemoveChannels(s: Server, k: LoopId, id: ConnId)
    requires CanTouch(s, id)
    ensures SameChannels(s, RemoveConnection(s, k, id))
  {
  }

  lemma EventChannels(s: Server, k: LoopId, id: ConnId, revents: Revents, env: Env, l: LoopId)
    requires CanTouch(s, id) && l < |s.loops|
    ensures var t := HandleChannel(s, k, id, revents, env);
            |t.loops| == |s.loops| && t.loops[l].channels == s.loops[l].channels && t.loops[l].phase == s.loops[l].phase
  {
    hide HandleEvent, SetConn, RemoveConnection;
    var c := HandleEvent(s.entries[id].conn, revents, env);
    SetConnChannels(s, id, c);
    RemoveChannels(SetConn(s, id, c), k, id);
  }

  /** A functor that runs on loop `k` leaves every other loop's poller alone. */
  lemma FunctorAway(s: Server, k: LoopId, calls: seq<Call>, w: WriteChoice, l: LoopId)
    requires k < |s.loops| && l < |s.loops| && k != l && s.loops[k].batch != []
    requires CanTouch(s, s.loops[k].batch[0].id) && FunctorOk(s, k, s.loops[k].batch[0])
    ensures var t := Call1(Popped(s, k), s.loops[k].batch[0], calls, w);
            |t.loops| == |s.loops| && t.loops[l].channels == s.loops[l].channels && t.loops[l].phase == s.loops[l].phase
  {
    var f := s.loops[k].batch[0];
    if !f.RemoveInLoop? {
      FunctorChannels(Popped(s, k), f, calls, w, l);
    }
  }

  lemma FiledIsLive(s: Server, l: LoopId, fd: int)
    requires Inv(s) && l < |s.loops| && fd in s.loops[l].channels
    ensures var id := s.loops[l].channels[fd];
            id in s.entries && s.entries[id].fd == fd && !s.entries[id].freed && s.entries[id].conn.index != Pollers.New
  {
    assert LoopOk(s, l);
    var id := s.loops[l].channels[fd];
    assert ChannelOk(s, l, fd, id);
    assert EntryOk(s, id);
  }

  /** While a loop dispatches, its poller keeps every channel it has: destruction waits in the queue
      even when the server runs on this very loop. */
  lemma DispatchKeepsChannels(s: Server, a: Action, l: LoopId, fd: int)
    requires Inv(s) && S.Enabled(s, a) && l < |s.loops| && s.loops[l].phase == Dispatching
    requires fd in s.loops[l].channels && a != EndDispatch(l)
    ensures var t := Next(s, a);
            && l < |t.loops| && t.loops[l].phase == Dispatching
            && fd in t.loops[l].channels && t.loops[l].channels[fd] == s.loops[l].channels[fd]
  {
    hide Inv, HandleChannel, Call1, EstablishConnection, SetConn;
    match a
    case Incoming(fd', cfg, calls) =>
      FiledIsLive(s, l, fd);
      IncomingChannels(s, fd', cfg, calls, l, fd);
    case Dispatch(k, revents, env) => DispatchChannels(s, k, revents, env, l);
    case RunFunctor(k, calls, w) => RunChannels(s, k, calls, w, l);
    case _ => OtherChannels(s, a, l);
  }

  lemma DispatchChannels(s: Server, k: LoopId, revents: Revents, env: Env, l: LoopId)
    requires S.Enabled(s, Dispatch(k, revents, env)) && l < |s.loops|
    ensures var t := Next(s, Dispatch(k, revents, env));
            |t.loops| == |s.loops| && t.loops[l].channels == s.loops[l].channels && t.loops[l].phase == s.loops[l].phase
  {
    EventChannels(NextTaken(s, k), k, s.loops[k].active[0], revents, env, l);
  }

  lemma RunChannels(s: Server, k: LoopId, calls: seq<Call>, w: WriteChoice, l: LoopId)
    requires Inv(s) && S.Enabled(s, RunFunctor(k, calls, w)) && l < |s.loops| && s.loops[l].phase == Dispatching
    ensures var t := Next(s, RunFunctor(k, calls, w));
            |t.loops| == |s.loops| && t.loops[l].channels == s.loops[l].channels && t.loops[l].phase == s.loops[l].phase
  {
    NextFunctor(s, k);
    FunctorAway(s, k, calls, w, l);
  }

  lemma IncomingChannels(s: Server, fd': int, cfg: Config, calls: seq<Call>, l: LoopId, fd: int)
    requires S.Enabled(s, Incoming(fd', cfg, calls)) && l < |s.loops| && fd in s.loops[l].channels && fd != fd'
    ensures var t := Next(s, Incoming(fd', cfg, calls));
            && |t.loops| == |s.loops| && t.loops[l].phase == s.loops[l].phase
            && fd in t.loops[l].channels && t.loops[l].channels[fd] == s.loops[l].channels[fd]
  {
    hide HandleChannel, Call1, ConnectEstablished, Fresh;
  }

  lemma OtherChannels(s: Server, a: Action, l: LoopId)
    requires S.Enabled(s, a) && l < |s.loops| && s.loops[l].phase == Dispatching
    requires !a.Incoming? && !a.Dispatch? && !a.RunFunctor? && a != EndDispatch(l)
    ensures var t := Next(s, a);
            |t.loops| == |s.loops| && t.loops[l].channels == s.loops[l].channels && t.loops[l].phase == Dispatching
  {
  }

  /** ... and until the dispatch ends none of its connections is released either. */
  lemma {:induction false} DispatchIsSafe(s: Server, run: seq<Action>, l: LoopId, fd: int)
    requires Sound(s) && S.Legal(s, run) && l < |s.loops| && s.loops[l].phase == Dispatching
    requires fd in s.loops[l].channels && EndDispatch(l) !in run
    ensures var t := S.Exec(s, run);
            && l < |t.loops| && fd in t.loops[l].channels && t.loops[l].channels[fd] == s.loops[l].channels[fd]
            && s.loops[l].channels[fd] in t.entries && !t.entries[s.loops[l].channels[fd]].freed
    decreases |run|
  {
    if run == [] {
      FiledIsLive(s, l, fd);
    } else {
      DispatchKeepsChannels(s, run[0], l, fd);
      SoundStep(s, run[0]);
      DispatchIsSafe(Next(s, run[0]), run[1..], l, fd);
    }
  }

  // ---------------------------------------------------------------- keys

  /** `connections_[connName] = conn` never overwrites an entry ... */
  lemma NameIsNew(s: Server, fd: int, cfg: Config, calls: seq<Call>)
    requires Reachable(s) && S.Enabled(s, Incoming(fd, cfg, calls))
    ensures ConnName(s, s.nextConnId) !in s.connections
  {
    ReachableInv(s);
    OwnName(s, s.nextConnId);
  }

  /** ... nor does `channels_[fd] = channel`, whether the connection is established by a functor or at
      once: a descriptor is closed only after its channel was removed. */
  lemma DescriptorIsNew(s: Server, l: LoopId, fd: int, id: ConnId)
    requires Reachable(s) && l < |s.loops|
    requires id in s.entries ==>
               s.entries[id].fd == fd && s.entries[id].conn.index == Pollers.New && !s.entries[id].freed
    requires id !in s.entries ==> forall d :: d in s.entries && s.entries[d].fd == fd ==> s.entries[d].freed
    ensures fd !in s.loops[l].channels
  {
    ReachableInv(s);
    if fd in s.loops[l].channels {
      FiledIsLive(s, l, fd);
    }
  }

  // ---------------------------------------------------------------- distribution

  /** The connections that loop `l` was given. */
  function GivenTo(s: Server, l: LoopId): set<ConnId> {
    set id | id in s.entries && s.entries[id].loop == l
  }

  /** Every number below `nextConnId_` names a connection on its round-robin loop. */
  ghost predicate Spread(s: Server) {
    forall id :: 0 < id < s.nextConnId ==> id in s.entries && s.entries[id].loop == LoopOf(s.threads, id)
  }

  /** Those of them that were among the first `k`. */
  function GivenFirst(s: Server, l: LoopId, k: nat): set<ConnId> {
    set id | id in s.entries && 0 < id <= k && s.entries[id].loop == l
  }

  lemma GivenOneMore(s: Server, i: nat, k: nat)
    requires Spread(s) && i < s.threads && 0 < k < s.nextConnId
    ensures GivenFirst(s, 1 + i, k)
            == GivenFirst(s, 1 + i, k - 1) + if Turn(s.threads, k - 1) == i then {k} else {}
  {
    hide Turn;
    assert s.entries[k].loop == 1 + Turn(s.threads, k - 1);
  }

  lemma {:induction false} LoadCounts(s: Server, i: nat, k: nat)
    requires Spread(s) && i < s.threads && k < s.nextConnId
    ensures |GivenFirst(s, 1 + i, k)| == Load(s.threads, k, i)
    decreases k
  {
    hide Spread, Turn;
    if k == 0 {
      assert GivenFirst(s, 1 + i, 0) == {};
    } else {
      hide GivenFirst;
      LoadCounts(s, i, k - 1);
      GivenOneMore(s, i, k);
      NotBefore(s, i, k);
    }
  }

  lemma NotBefore(s: Server, i: nat, k: nat)
    requires k > 0
    ensures k !in GivenFirst(s, 1 + i, k - 1)
  {
  }

  lemma ReachableSpread(s: Server)
    requires Reachable(s)
    ensures Spread(s) && Shape(s)
  {
    ReachableInv(s);
    forall id | 0 < id < s.nextConnId
      ensures id in s.entries && s.entries[id].loop == LoopOf(s.threads, id)
    {
      assert EntryOk(s, id);
    }
  }

  /** Over any run, the numbers of connections given to two I/O loops differ by at most one. */
  lemma FairDistribution(s: Server, i: nat, j: nat)
    requires Reachable(s) && i < j < s.threads
    ensures |GivenTo(s, 1 + j)| <= |GivenTo(s, 1 + i)| <= |GivenTo(s, 1 + j)| + 1
  {
    hide Reachable;
    ReachableSpread(s);
    var k := s.nextConnId - 1;
    assert GivenTo(s, 1 + i) == GivenFirst(s, 1 + i, k) && GivenTo(s, 1 + j) == GivenFirst(s, 1 + j, k);
    LoadCounts(s, i, k);
    LoadCounts(s, j, k);
    FairLoad(s.threads, k, i, j);
  }
}
