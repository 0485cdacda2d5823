/** Messages from other threads on the server: `sendInLoop` is queued with the bare pointer, so that
    its connection outlives it has to follow from the order of the queue. */
module ServerSends {
  import opened Kernel
  import opened ConnectionModel
  import opened ServerModel
  import opened ServerProofs
  import opened ServerSteps
  import opened ServerRuns
  import S = ServerModel
  import P = ConnectionProofs

  // ---------------------------------------------------------------- threads inside `send`

  lemma SenderStays(s: Server, a: Action, id: ConnId)
    requires Inv(s) && S.Enabled(s, a) && SenderOk(s, id) && a != Release(id)
    ensures SenderOk(Next(s, a), id)
  {
    hide Inv, S.Enabled, Next, P.Inv;
    ActionRunsConn(s, a, id);
    InvEntry(s, id);
    assert P.Inv(s.entries[id].conn);
    P.RunKeeps(s.entries[id].conn, StepsOf(s, a, id));
  }

  lemma FunctorSenders(s: Server, f: Functor, calls: seq<Call>, w: WriteChoice)
    requires CanTouch(s, f.id)
    ensures Call1(s, f, calls, w).sending == s.sending
  {
    hide DoCalls, SendInLoop, ConnectEstablished, ConnectDestroyed;
  }

  lemma EventSenders(s: Server, l: LoopId, id: ConnId, revents: Revents, env: Env)
    requires CanTouch(s, id)
    ensures HandleChannel(s, l, id, revents, env).sending == s.sending
  {
    hide HandleEvent;
  }

  lemma IncomingSenders(s: Server, fd: int, cfg: Config, calls: seq<Call>)
    requires Assigned(s.threads, s.next) < |s.loops|
    ensures NewConnection(s, fd, cfg, calls).sending == s.sending
  {
    hide ConnectEstablished, ConnName;
  }

  lemma SameSenders(s: Server, a: Action)
    requires S.Enabled(s, a) && !a.SendCheck? && !a.SendPush?
    ensures Next(s, a).sending == s.sending
  {
    hide NewConnection, HandleChannel, Call1, DoCall;
    match a
    case Incoming(fd, cfg, calls) => IncomingSenders(s, fd, cfg, calls);
    case Dispatch(l, revents, env) => EventSenders(NextTaken(s, l), l, s.loops[l].active[0], revents, env);
    case RunFunctor(l, calls, w) => FunctorSenders(Popped(s, l), s.loops[l].batch[0], calls, w);
    case _ =>
  }

  /** Who is sending after an action was sending before it, or has just seen `kConnected`. */
  lemma SendersOf(s: Server, a: Action, t: Thread)
    requires S.Enabled(s, a) && t in Next(s, a).sending
    ensures var id := Next(s, a).sending[t].id;
            || (t in s.sending && s.sending[t].id == id && a != Release(id))
            || (a.SendCheck? && a.id == id && CanTouch(s, id) && !s.entries[id].freed
                && s.entries[id].conn.state == Connected)
  {
    hide NewConnection, HandleChannel, Call1, SetConn, DoCall, NextTaken, Popped;
    if !a.SendCheck? && !a.SendPush? {
      SameSenders(s, a);
    }
  }

  lemma SendingKept(s: Server, a: Action)
    requires Inv(s) && SendingOk(s) && S.Enabled(s, a)
    ensures SendingOk(Next(s, a))
  {
    hide Inv, Next, S.Enabled;
    forall t | t in Next(s, a).sending
      ensures SenderOk(Next(s, a), Next(s, a).sending[t].id)
    {
      SendersOf(s, a, t);
      SenderStays(s, a, Next(s, a).sending[t].id);
    }
  }

  /** A `send` that sees `kConnected` goes on to its push, which queues the message last on the
      connection's own loop; one that does not ends there. */
  lemma SendArrives(s: Server, t: Thread, id: ConnId, msg: Bytes)
    ensures S.Enabled(s, SendCheck(t, id, msg)) ==>
              Next(s, SendCheck(t, id, msg)).sending
              == if s.entries[id].conn.state == Connected then s.sending[t := Sending(id, msg)] else s.sending
    ensures S.Enabled(s, SendPush(t)) ==>
              var (d, r) := (s.sending[t].id, Next(s, SendPush(t)));
              var home := s.entries[d].loop;
              && r.sending == s.sending - {t} && |r.loops| == |s.loops|
              && Todo(r.loops[home]) == Todo(s.loops[home]) + [Delivery(d, s.sending[t].msg, Retired(s, d))]
  {
    hide NewConnection, HandleChannel, Call1;
    if S.Enabled(s, SendPush(t)) {
      var d := s.sending[t].id;
      var q := s.loops[s.entries[d].loop];
      var f := Delivery(d, s.sending[t].msg, Retired(s, d));
      assert q.batch + (q.pending + [f]) == (q.batch + q.pending) + [f];
    }
  }

  // ---------------------------------------------------------------- what a queue becomes

  predicate NoDeliveries(fs: seq<Functor>) {
    forall i :: 0 <= i < |fs| ==> !fs[i].Delivery?
  }

  /** From `s` to `t` loop `l` was given `more` to do, and no message among it. */
  predicate GivenMore(s: Server, t: Server, l: LoopId, more: seq<Functor>) {
    && |t.loops| == |s.loops| && l < |s.loops|
    && Todo(t.loops[l]) == Todo(s.loops[l]) + more && NoDeliveries(more)
  }

  lemma MoreAgain(s: Server, t: Server, u: Server, l: LoopId, a: seq<Functor>, b: seq<Functor>)
    requires GivenMore(s, t, l, a) && GivenMore(t, u, l, b)
    ensures GivenMore(s, u, l, a + b)
  {
    assert Todo(s.loops[l]) + (a + b) == (Todo(s.loops[l]) + a) + b;
  }

  lemma QueueGives(s: Server, k: LoopId, fs: seq<Functor>, l: LoopId) returns (more: seq<Functor>)
    requires k < |s.loops| && l < |s.loops| && NoDeliveries(fs)
    ensures GivenMore(s, QueueOn(s, k, fs), l, more)
  {
    more := if l == k then fs else [];
    var q := s.loops[l];
    assert q.batch + (q.pending + more) == (q.batch + q.pending) + more;
  }

  lemma SetConnGives(s: Server, id: ConnId, c: Conn, l: LoopId) returns (more: seq<Functor>)
    requires CanTouch(s, id) && l < |s.loops|
    ensures GivenMore(s, SetConn(s, id, c), l, more)
  {
    var e := s.entries[id];
    more := QueueGives(s.(entries := s.entries[id := e.(conn := c)]), e.loop, NewNotices(s, id, c), l);
  }

  lemma EstablishGives(s: Server, id: ConnId, calls: seq<Call>, l: LoopId) returns (more: seq<Functor>)
    requires CanTouch(s, id) && l < |s.loops|
    ensures GivenMore(s, EstablishConnection(s, id, calls), l, more)
  {
    more := SetConnGives(s, id, ConnectEstablished(s.entries[id].conn, calls), l);
  }

  lemma DestroyGives(s: Server, id: ConnId, calls: seq<Call>, l: LoopId) returns (more: seq<Functor>)
    requires CanTouch(s, id) && l < |s.loops|
    ensures GivenMore(s, DestroyConnection(s, id, calls), l, more)
  {
    more := SetConnGives(s, id, ConnectDestroyed(s.entries[id].conn, calls), l);
  }

  lemma RemoveGives(s: Server, id: ConnId, l: LoopId) returns (more: seq<Functor>)
    requires CanTouch(s, id) && l < |s.loops|
    ensures GivenMore(s, RemoveConnectionInLoop(s, id), l, more)
  {
    more := QueueGives(s.(connections := s.connections - {ConnName(s, id)}), s.entries[id].loop, [Destroyed(id)], l);
  }

  lemma CloseGives(s: Server, k: LoopId, id: ConnId, l: LoopId) returns (more: seq<Functor>)
    requires CanTouch(s, id) && l < |s.loops|
    ensures GivenMore(s, RemoveConnection(s, k, id), l, more)
  {
    if k == BASE {
      more := RemoveGives(s, id, l);
    } else {
      more := QueueGives(s, BASE, [RemoveInLoop(id)], l);
    }
  }

  lemma EventGives(s: Server, k: LoopId, id: ConnId, revents: Revents, env: Env, l: LoopId) returns (more: seq<Functor>)
    requires CanTouch(s, id) && l < |s.loops|
    ensures GivenMore(s, HandleChannel(s, k, id, revents, env), l, more)
  {
    hide HandleEvent, SetConn, RemoveConnection;
    var e := s.entries[id];
    if e.conn.tied && e.freed {
      more := [];
    } else {
      var c := HandleEvent(e.conn, revents, env);
      var s1 := SetConn(s, id, c);
      more := SetConnGives(s, id, c, l);
      if c.closes > e.conn.closes {
        assert CanTouch(s1, id) by { SetConnTouches(s, id, c); }
        var last := CloseGives(s1, k, id, l);
        MoreAgain(s, s1, RemoveConnection(s1, k, id), l, more, last);
        more := more + last;
      }
    }
  }

  lemma SetConnTouches(s: Server, id: ConnId, c: Conn)
    requires CanTouch(s, id)
    ensures CanTouch(SetConn(s, id, c), id)
  {
  }

  lemma FunctorGives(s: Server, f: Functor, calls: seq<Call>, w: WriteChoice, l: LoopId) returns (more: seq<Functor>)
    requires CanTouch(s, f.id) && l < |s.loops|
    ensures GivenMore(s, Call1(s, f, calls, w), l, more)
  {
    hide SetConn, EstablishConnection, DestroyConnection, RemoveConnectionInLoop;
    var c := s.entries[f.id].conn;
    match f
    case Established(id) => more := EstablishGives(s, id, calls, l);
    case RemoveInLoop(id) => more := RemoveGives(s, id, l);
    case Destroyed(id) => more := DestroyGives(s, id, calls, l);
    case Notice(id, _) => more := SetConnGives(s, id, DoCalls(c, calls), l);
    case Delivery(id, msg, _) => more := SetConnGives(s, id, SendInLoop(c, msg, w), l);
  }

  lemma IncomingGives(s: Server, fd: int, cfg: Config, calls: seq<Call>, l: LoopId) returns (more: seq<Functor>)
    requires S.Enabled(s, Incoming(fd, cfg, calls)) && l < |s.loops|
    ensures GivenMore(s, Next(s, Incoming(fd, cfg, calls)), l, more)
  {
    var u := Recorded(s, fd, cfg);
    if Assigned(s.threads, s.next) == BASE {
      more := EstablishGives(u, s.nextConnId, calls, l);
    } else {
      more := QueueGives(u, Assigned(s.threads, s.next), [Established(s.nextConnId)], l);
    }
  }

  /** What is left of a queue when the action has begun: a running functor is off it. */
  function Rest(s: Server, a: Action, l: LoopId): seq<Functor>
    requires l < |s.loops|
  {
    if a.RunFunctor? && a.l == l && s.loops[l].batch != [] then Todo(s.loops[l])[1..] else Todo(s.loops[l])
  }

  lemma PoppedRest(s: Server, k: LoopId, l: LoopId)
    requires k < |s.loops| && l < |s.loops| && s.loops[k].batch != []
    ensures Todo(Popped(s, k).loops[l]) == if k == l then Todo(s.loops[l])[1..] else Todo(s.loops[l])
  {
    if k == l {
      var q := s.loops[l];
      assert (q.batch + q.pending)[1..] == q.batch[1..] + q.pending;
    }
  }

  /** Every action but a push of a message leaves a queue as it was, without the functor it runs and
      with other functors behind it. */
  lemma ActionGives(s: Server, a: Action, l: LoopId) returns (more: seq<Functor>)
    requires S.Enabled(s, a) && l < |s.loops| && !a.SendPush? && PhaseOk(s.loops[l])
    ensures |Next(s, a).loops| == |s.loops| && NoDeliveries(more)
    ensures Todo(Next(s, a).loops[l]) == Rest(s, a, l) + more
  {
    match a
    case Incoming(fd, cfg, calls) => more := IncomingGives(s, fd, cfg, calls, l);
    case Dispatch(k, revents, env) =>
      more := EventGives(NextTaken(s, k), k, s.loops[k].active[0], revents, env, l);
      assert Todo(NextTaken(s, k).loops[l]) == Todo(s.loops[l]);
    case RunFunctor(k, calls, w) =>
      more := FunctorGives(Popped(s, k), s.loops[k].batch[0], calls, w, l);
      PoppedRest(s, k, l);
    case OwnCall(id, call) => more := SetConnGives(s, id, DoCall(s.entries[id].conn, call), l);
    case _ => more := BookkeepingGives(s, a, l);
  }

  lemma BookkeepingGives(s: Server, a: Action, l: LoopId) returns (more: seq<Functor>)
    requires S.Enabled(s, a) && l < |s.loops|
    requires a.Poll? || a.EndDispatch? || a.EndFunctors? || a.SendCheck? || a.Release?
    requires a.EndDispatch? && a.l == l ==> s.loops[l].batch == []
    ensures GivenMore(s, Next(s, a), l, more)
  {
    more := [];
    var q := s.loops[l];
    assert [] + q.pending + [] == q.pending && q.batch + q.pending + [] == q.batch + q.pending;
    assert q.pending + [] == [] + q.pending;
  }

  // ---------------------------------------------------------------- messages and `connectDestroyed`

  /** The j-th functor of loop `l`, if it is a message, was pushed late exactly when
      `connectDestroyed` is in front of it or has run. */
  predicate DeliveryOk(s: Server, l: LoopId, j: nat)
    requires l < |s.loops| && j < |Todo(s.loops[l])|
  {
    var f := Todo(s.loops[l])[j];
    f.Delivery? ==>
      f.id in s.entries && (f.late <==> s.entries[f.id].destroyed > 0 || Destroyed(f.id) in Todo(s.loops[l])[..j])
  }

  ghost predicate DeliveriesOk(s: Server) {
    forall l: LoopId, j: nat :: l < |s.loops| && j < |Todo(s.loops[l])| ==> DeliveryOk(s, l, j)
  }

  /** The place that a functor still to run had before the action. */
  function Before(s: Server, a: Action, l: LoopId, j: nat): nat {
    if a.RunFunctor? && a.l == l then j + 1 else j
  }

  lemma RestAt(s: Server, a: Action, l: LoopId, j: nat)
    requires S.Enabled(s, a) && l < |s.loops| && j < |Rest(s, a, l)|
    ensures var q := Todo(s.loops[l]);
            && Before(s, a, l, j) < |q| && Rest(s, a, l)[j] == q[Before(s, a, l, j)]
            && forall f :: f in q[..Before(s, a, l, j)] <==>
                             f in Rest(s, a, l)[..j] || (a.RunFunctor? && a.l == l && f == s.loops[l].batch[0])
  {
    var q := Todo(s.loops[l]);
    if a.RunFunctor? && a.l == l {
      assert q[..j + 1] == [s.loops[l].batch[0]] + q[1..][..j];
    }
  }

  /** `connectDestroyed` and the messages of a connection wait on the same loop. */
  lemma SameLoop(s: Server, a: Action, l: LoopId, f: Functor)
    requires Inv(s) && S.Enabled(s, a) && l < |s.loops| && f in Todo(s.loops[l]) && f.Delivery? && Destroys(s, a, f.id)
    ensures a.l == l
  {
    InvLoop(s, l);
    InvLoop(s, a.l);
    assert f in Held(s.loops[l]) && FunctorOk(s, l, f);
    assert Destroyed(f.id) in Held(s.loops[a.l]) && FunctorOk(s, a.l, Destroyed(f.id));
  }

  /** A message that was waiting keeps its mark right, whatever the action is. */
  lemma WaitingKept(s: Server, a: Action, l: LoopId, j: nat)
    requires Inv(s) && DeliveriesOk(s) && S.Enabled(s, a) && l < |s.loops| && |Next(s, a).loops| == |s.loops|
    requires j < |Rest(s, a, l)| <= |Todo(Next(s, a).loops[l])|
    requires Todo(Next(s, a).loops[l])[..|Rest(s, a, l)|] == Rest(s, a, l)
    ensures DeliveryOk(Next(s, a), l, j)
  {
    hide Inv, Next, S.Enabled, FunctorOk;
    var t := Next(s, a);
    var f := Rest(s, a, l)[j];
    RestAt(s, a, l, j);
    assert DeliveryOk(s, l, Before(s, a, l, j));
    assert Todo(t.loops[l])[j] == f;
    assert Todo(t.loops[l])[..j] == Rest(s, a, l)[..j];
    if f.Delivery? {
      DestroyedOnce(s, a, l, f);
    }
  }

  lemma DestroyedOnce(s: Server, a: Action, l: LoopId, f: Functor)
    requires Inv(s) && S.Enabled(s, a) && l < |s.loops| && f in Todo(s.loops[l]) && f.Delivery? && f.id in s.entries
    ensures f.id in Next(s, a).entries
    ensures Next(s, a).entries[f.id].destroyed > 0 <==>
            s.entries[f.id].destroyed > 0 || (a.RunFunctor? && a.l == l && s.loops[l].batch[0] == Destroyed(f.id))
  {
    hide Inv, S.Enabled, FunctorOk;
    if Destroys(s, a, f.id) {
      SameLoop(s, a, l, f);
    }
    if a == Release(f.id) {
      assert Next(s, a).entries[f.id].destroyed == s.entries[f.id].destroyed;
    } else {
      ActionRunsConn(s, a, f.id);
    }
  }

  /** A message just pushed is marked by the state of the queue it is pushed into. */
  lemma PushedKept(s: Server, t: Thread, l: LoopId, j: nat)
    requires Inv(s) && DeliveriesOk(s) && S.Enabled(s, SendPush(t)) && l < |s.loops|
    requires j < |Todo(Next(s, SendPush(t)).loops[l])|
    ensures DeliveryOk(Next(s, SendPush(t)), l, j)
  {
    hide Inv;
    var r := Next(s, SendPush(t));
    var id := s.sending[t].id;
    var q := s.loops[l];
    var f := Delivery(id, s.sending[t].msg, Retired(s, id));
    if l == s.entries[id].loop {
      assert q.batch + (q.pending + [f]) == (q.batch + q.pending) + [f];
      assert Todo(r.loops[l])[..|Todo(q)|] == Todo(q);
    } else {
      assert Todo(r.loops[l])[..|Todo(q)|] == Todo(q);
    }
    if j < |Todo(q)| {
      WaitingKept(s, SendPush(t), l, j);
    }
  }

  lemma GivenKept(s: Server, a: Action, l: LoopId, j: nat)
    requires Inv(s) && DeliveriesOk(s) && S.Enabled(s, a) && !a.SendPush? && l < |s.loops|
    ensures |Next(s, a).loops| == |s.loops|
    ensures j < |Todo(Next(s, a).loops[l])| ==> DeliveryOk(Next(s, a), l, j)
  {
    hide Inv, Next, S.Enabled, FunctorOk;
    InvLoop(s, l);
    var more := ActionGives(s, a, l);
    if j < |Rest(s, a, l)| {
      WaitingKept(s, a, l, j);
    } else if j < |Todo(Next(s, a).loops[l])| {
      assert Todo(Next(s, a).loops[l])[j] == more[j - |Rest(s, a, l)|];
    }
  }

  lemma DeliveriesKept(s: Server, a: Action)
    requires Inv(s) && DeliveriesOk(s) && S.Enabled(s, a)
    ensures DeliveriesOk(Next(s, a))
  {
    hide Inv, Next, DeliveryOk;
    var t := Next(s, a);
    forall l: LoopId, j: nat | l < |t.loops| && j < |Todo(t.loops[l])|
      ensures DeliveryOk(t, l, j)
    {
      LoopsStay(s, a);
      if a.SendPush? {
        PushedKept(s, a.t, l, j);
      } else {
        GivenKept(s, a, l, j);
      }
    }
  }

  lemma LoopsStay(s: Server, a: Action)
    requires Inv(s) && S.Enabled(s, a)
    ensures |Next(s, a).loops| == |s.loops|
  {
    hide Inv, FunctorOk;
    if !a.SendPush? && |s.loops| > 0 {
      InvLoop(s, 0);
      var more := ActionGives(s, a, 0);
    } else if !a.SendPush? {
      InvShape(s);
    }
  }

  // ---------------------------------------------------------------- every action, every run

  /** All that every run of the server keeps. */
  ghost predicate Sound(s: Server) {
    Inv(s) && SendingOk(s) && DeliveriesOk(s)
  }

  lemma SoundStep(s: Server, a: Action)
    requires Sound(s) && S.Enabled(s, a)
    ensures Sound(Next(s, a))
  {
    hide Inv, SendingOk, DeliveriesOk, Next, S.Enabled;
    ActionKeeps(s, a);
    SendingKept(s, a);
    DeliveriesKept(s, a);
  }

  lemma {:induction false} SoundRun(s: Server, run: seq<Action>)
    requires Sound(s) && S.Legal(s, run)
    ensures Sound(S.Exec(s, run))
    decreases |run|
  {
    hide Sound, Next, S.Enabled;
    if run != [] {
      SoundStep(s, run[0]);
      SoundRun(Next(s, run[0]), run[1..]);
    }
  }
}
