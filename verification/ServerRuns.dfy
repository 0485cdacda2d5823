/** What one action of the server does to one connection: exactly which steps of `ConnectionModel`. */
module ServerRuns {
  import opened Kernel
  import opened ConnectionModel
  import opened ServerModel
  import opened ServerProofs
  import opened ServerSteps
  import C = ConnectionModel
  import S = ServerModel
  import Pollers

  lemma {:induction false} ConnExecConcat(c: Conn, a: seq<Step>, b: seq<Step>)
    requires C.Legal(c, a) && C.Legal(C.Exec(c, a), b)
    ensures C.Legal(c, a + b) && C.Exec(c, a + b) == C.Exec(C.Exec(c, a), b)
    decreases |a|
  {
    if a == [] {
      assert a + b == b;
    } else {
      assert (a + b)[1..] == a[1..] + b;
      ConnExecConcat(After(c, a[0]), a[1..], b);
    }
  }

  lemma OneStep(c: Conn, step: Step)
    requires C.Enabled(c, step)
    ensures C.Legal(c, [step]) && C.Exec(c, [step]) == After(c, step)
  {
    assert [step][1..] == [];
  }

  lemma NoStep(c: Conn)
    ensures C.Legal(c, []) && C.Exec(c, []) == c
  {
  }

  /** A callback's calls, one step each. */
  function CallSteps(calls: seq<Call>): seq<Step> {
    if calls == [] then [] else [UserCall(calls[0])] + CallSteps(calls[1..])
  }

  lemma {:induction false} CallsAreSteps(c: Conn, calls: seq<Call>)
    ensures C.Legal(c, CallSteps(calls)) && C.Exec(c, CallSteps(calls)) == DoCalls(c, calls)
    decreases |calls|
  {
    if calls != [] {
      OneStep(c, UserCall(calls[0]));
      CallsAreSteps(DoCall(c, calls[0]), calls[1..]);
      ConnExecConcat(c, [UserCall(calls[0])], CallSteps(calls[1..]));
    }
  }

  /** The steps that running a functor is, on its own connection. */
  function FunctorSteps(f: Functor, calls: seq<Call>, w: WriteChoice): seq<Step> {
    match f
    case Established(_) => [Step.Establish(calls)]
    case RemoveInLoop(_) => []
    case Destroyed(_) => [Step.Destroy(calls)]
    case Notice(_, _) => CallSteps(calls)
    case Delivery(_, msg, _) => [Deliver(msg, w)]
  }

  /** The steps that an action is, on connection `id`. */
  function StepsOf(s: Server, a: Action, id: ConnId): seq<Step> {
    match a
    case Dispatch(l, revents, env) =>
      if l < |s.loops| && s.loops[l].active != [] && s.loops[l].active[0] == id then [Step.Event(revents, env)] else []
    case RunFunctor(l, calls, w) =>
      if l < |s.loops| && s.loops[l].batch != [] && s.loops[l].batch[0].id == id
      then FunctorSteps(s.loops[l].batch[0], calls, w) else []
    case OwnCall(d, call) => if d == id then [UserCall(call)] else []
    case _ => []
  }

  /** What running a functor does to connection `d`. */
  function ConnAfterFunctor(c: Conn, f: Functor, calls: seq<Call>, w: WriteChoice): Conn {
    match f
    case Established(_) => ConnectEstablished(c, calls)
    case RemoveInLoop(_) => c
    case Destroyed(_) => ConnectDestroyed(c, calls)
    case Notice(_, _) => DoCalls(c, calls)
    case Delivery(_, msg, _) => SendInLoop(c, msg, w)
  }

  /** A connection kept its place: same loop, same descriptor, released or not as before. */
  predicate Stays(s: Server, t: Server, d: ConnId) {
    && d in s.entries && d in t.entries && t.entries[d].fd == s.entries[d].fd
    && t.entries[d].loop == s.entries[d].loop && t.entries[d].freed == s.entries[d].freed
  }

  lemma FunctorTouches(s: Server, f: Functor, calls: seq<Call>, w: WriteChoice, d: ConnId)
    requires CanTouch(s, f.id) && d in s.entries
    ensures var t := Call1(s, f, calls, w);
            && Stays(s, t, d)
            && t.entries[d].destroyed == s.entries[d].destroyed + (if f == Destroyed(d) then 1 else 0)
            && t.entries[d].conn == if d == f.id then ConnAfterFunctor(s.entries[d].conn, f, calls, w)
                                    else s.entries[d].conn
  {
  }

  lemma EventTouches(s: Server, l: LoopId, id: ConnId, revents: Revents, env: Env, d: ConnId)
    requires CanTouch(s, id) && d in s.entries && !s.entries[id].freed
    ensures var t := HandleChannel(s, l, id, revents, env);
            && Stays(s, t, d) && t.entries[d].destroyed == s.entries[d].destroyed
            && t.entries[d].conn == if d == id then HandleEvent(s.entries[d].conn, revents, env) else s.entries[d].conn
  {
    hide HandleEvent, Retired;
  }

  lemma FunctorRunsConn(c: Conn, f: Functor, calls: seq<Call>, w: WriteChoice)
    requires f.Established? ==> c.state == Connecting
    requires f.Destroyed? ==> c.state == Disconnected && c.index == Pollers.Deleted
    requires f.Delivery? ==> c.state != Connecting
    ensures var steps := FunctorSteps(f, calls, w);
            C.Legal(c, steps) && C.Exec(c, steps) == ConnAfterFunctor(c, f, calls, w)
  {
    match f
    case Established(_) => OneStep(c, C.Establish(calls));
    case RemoveInLoop(_) => NoStep(c);
    case Destroyed(_) => OneStep(c, C.Destroy(calls));
    case Notice(_, _) => CallsAreSteps(c, calls);
    case Delivery(_, msg, _) => OneStep(c, Deliver(msg, w));
  }

  lemma NextFunctorRunsConn(s: Server, l: LoopId, calls: seq<Call>, w: WriteChoice)
    requires Inv(s) && S.Enabled(s, RunFunctor(l, calls, w))
    ensures var f := s.loops[l].batch[0];
            var steps := FunctorSteps(f, calls, w);
            && C.Legal(s.entries[f.id].conn, steps)
            && C.Exec(s.entries[f.id].conn, steps) == ConnAfterFunctor(s.entries[f.id].conn, f, calls, w)
  {
    hide Inv;
    var f := s.loops[l].batch[0];
    NextFunctor(s, l);
    FunctorRunsConn(s.entries[f.id].conn, f, calls, w);
  }

  /** The action runs `connectDestroyed` of this connection. */
  predicate Destroys(s: Server, a: Action, id: ConnId) {
    a.RunFunctor? && a.l < |s.loops| && s.loops[a.l].batch != [] && s.loops[a.l].batch[0] == Destroyed(id)
  }

  /** From `s` to `t` connection `id` took the given steps of `ConnectionModel`. */
  ghost predicate Took(s: Server, t: Server, id: ConnId, steps: seq<Step>) {
    && Stays(s, t, id) && C.Legal(s.entries[id].conn, steps)
    && t.entries[id].conn == C.Exec(s.entries[id].conn, steps)
  }

  lemma RunRunsOneConn(s: Server, l: LoopId, calls: seq<Call>, w: WriteChoice, id: ConnId)
    requires Inv(s) && S.Enabled(s, RunFunctor(l, calls, w)) && id in s.entries
    ensures var a := RunFunctor(l, calls, w);
            && Took(s, Next(s, a), id, StepsOf(s, a, id))
            && Next(s, a).entries[id].destroyed == s.entries[id].destroyed + (if Destroys(s, a, id) then 1 else 0)
  {
    hide Inv, Call1, HandleChannel, NewConnection, C.Legal, C.Exec, ConnAfterFunctor, FunctorSteps;
    NextFunctorRunsConn(s, l, calls, w);
    FunctorTouches(Popped(s, l), s.loops[l].batch[0], calls, w, id);
    NoStep(s.entries[id].conn);
  }

  lemma IncomingStays(s: Server, fd: int, cfg: Config, calls: seq<Call>, id: ConnId)
    requires id in s.entries && id < s.nextConnId && Assigned(s.threads, s.next) < |s.loops|
    ensures var t := NewConnection(s, fd, cfg, calls);
            id in t.entries && t.entries[id] == s.entries[id]
  {
    hide ConnectEstablished, ConnName;
  }

  lemma OtherRunsConn(s: Server, a: Action, id: ConnId)
    requires Shape(s) && S.Enabled(s, a) && id in s.entries && !a.Dispatch? && !a.RunFunctor? && a != Release(id)
    ensures Took(s, Next(s, a), id, StepsOf(s, a, id))
    ensures Next(s, a).entries[id].destroyed == s.entries[id].destroyed
  {
    hide HandleChannel, Call1, NewConnection, DoCall, C.Legal, C.Exec;
    NoStep(s.entries[id].conn);
    match a
    case Incoming(fd, cfg, calls) => IncomingStays(s, fd, cfg, calls, id);
    case OwnCall(d, call) => OneStep(s.entries[id].conn, UserCall(call));
    case _ =>
  }

  lemma DispatchRunsConn(s: Server, l: LoopId, revents: Revents, env: Env, id: ConnId)
    requires Inv(s) && S.Enabled(s, Dispatch(l, revents, env)) && id in s.entries
    ensures var a := Dispatch(l, revents, env);
            && Took(s, Next(s, a), id, StepsOf(s, a, id))
            && Next(s, a).entries[id].destroyed == s.entries[id].destroyed
  {
    hide Inv, Call1, HandleChannel, NewConnection, C.Legal, C.Exec, HandleEvent;
    var i := s.loops[l].active[0];
    ActivePops(s, l);
    InvEntry(s, i);
    EventTouches(NextTaken(s, l), l, i, revents, env, id);
    OneStep(s.entries[i].conn, Step.Event(revents, env));
    NoStep(s.entries[id].conn);
  }

  /** Whatever one action of the server does to a connection is a legal run of `ConnectionModel`, and
      exactly this one: an event reaches the handlers, a queued message `sendInLoop`, a queued notice
      the user's callback. */
  lemma ActionRunsConn(s: Server, a: Action, id: ConnId)
    requires Inv(s) && S.Enabled(s, a) && id in s.entries && a != Release(id)
    ensures Took(s, Next(s, a), id, StepsOf(s, a, id))
    ensures Next(s, a).entries[id].destroyed == s.entries[id].destroyed + if Destroys(s, a, id) then 1 else 0
  {
    hide Inv, Next, C.Legal, C.Exec, Took;
    InvShape(s);
    match a
    case Dispatch(l, revents, env) => DispatchRunsConn(s, l, revents, env, id);
    case RunFunctor(l, calls, w) => RunRunsOneConn(s, l, calls, w, id);
    case _ => OtherRunsConn(s, a, id);
  }
}
