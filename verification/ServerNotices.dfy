/** The notes a connection queues for its user reach the queue of its loop, in order, and run from it. */
module ServerNotices {
  import opened Kernel
  import opened ConnectionModel
  import opened ServerModel
  import opened ServerProofs
  import opened ServerSteps
  import opened ServerRuns
  import opened ServerSends
  import S = ServerModel
  import P = ConnectionProofs
  import E = ConnectionEffects

  /** The notes of connection `id` in a queue, in order. */
  function NotesOf(fs: seq<Functor>, id: ConnId): seq<Note> {
    if fs == [] then []
    else (if fs[0].Notice? && fs[0].id == id then [fs[0].note] else []) + NotesOf(fs[1..], id)
  }

  lemma {:induction false} NotesConcat(a: seq<Functor>, b: seq<Functor>, id: ConnId)
    ensures NotesOf(a + b, id) == NotesOf(a, id) + NotesOf(b, id)
  {
    if a == [] {
      assert a + b == b;
    } else {
      assert (a + b)[1..] == a[1..] + b;
      NotesConcat(a[1..], b, id);
      NotesTwice(if a[0].Notice? && a[0].id == id then [a[0].note] else [], NotesOf(a[1..], id), NotesOf(b, id));
    }
  }

  lemma {:induction false} NotesOfNotices(id: ConnId, notes: seq<Note>, d: ConnId)
    ensures NotesOf(Notices(id, notes), d) == if d == id then notes else []
    decreases |notes|
  {
    var fs := Notices(id, notes);
    if notes != [] {
      assert fs[0] == Notice(id, notes[0]) && fs[1..] == Notices(id, notes[1..]);
      NotesOfNotices(id, notes[1..], d);
    }
  }

  lemma {:induction false} NoNotes(fs: seq<Functor>, id: ConnId)
    requires forall i :: 0 <= i < |fs| ==> !(fs[i].Notice? && fs[i].id == id)
    ensures NotesOf(fs, id) == []
  {
    if fs != [] {
      NoNotes(fs[1..], id);
    }
  }

  /** The notes of `d` that wait on its own loop. */
  function Waiting(s: Server, d: ConnId): seq<Note> {
    if CanTouch(s, d) then NotesOf(Todo(s.loops[s.entries[d].loop]), d) else []
  }

  function Said(s: Server, d: ConnId): seq<Note> {
    if CanTouch(s, d) then s.entries[d].conn.queued else []
  }

  /** From `s` to `t` connection `d` queued some notes, and these went behind those that waited. */
  predicate Tells(s: Server, t: Server, d: ConnId) {
    && CanTouch(s, d) && CanTouch(t, d) && t.entries[d].loop == s.entries[d].loop
    && Said(s, d) <= Said(t, d)
    && Waiting(t, d) == Waiting(s, d) + Said(t, d)[|Said(s, d)|..]
  }

  lemma TellsMore(s: Server, t: Server, u: Server, d: ConnId)
    requires Tells(s, t, d) && Tells(t, u, d)
    ensures Tells(s, u, d)
  {
    var (a, b, c) := (Said(s, d), Said(t, d), Said(u, d));
    assert b[|a|..] + c[|b|..] == c[|a|..];
    assert Waiting(s, d) + (b[|a|..] + c[|b|..]) == (Waiting(s, d) + b[|a|..]) + c[|b|..];
  }

  /** Nothing that `Waiting` and `Said` look at has changed. */
  lemma TellsNothing(s: Server, t: Server, d: ConnId)
    requires CanTouch(s, d) && CanTouch(t, d) && t.entries[d].loop == s.entries[d].loop
    requires t.entries[d].conn.queued == s.entries[d].conn.queued
    requires Todo(t.loops[s.entries[d].loop]) == Todo(s.loops[s.entries[d].loop])
    ensures Tells(s, t, d)
  {
    assert Said(t, d)[|Said(s, d)|..] == [];
  }

  lemma QueueTells(s: Server, k: LoopId, f: Functor, d: ConnId)
    requires k < |s.loops| && !f.Notice? && CanTouch(s, d)
    ensures Tells(s, QueueOn(s, k, [f]), d)
  {
    var t := QueueOn(s, k, [f]);
    var q := s.loops[s.entries[d].loop];
    if s.entries[d].loop == k {
      assert q.batch + (q.pending + [f]) == (q.batch + q.pending) + [f];
      NotesConcat(Todo(q), [f], d);
      NoNotes([f], d);
    }
    assert Said(t, d)[|Said(s, d)|..] == [];
  }

  lemma SetConnTells(s: Server, id: ConnId, c: Conn, d: ConnId)
    requires CanTouch(s, id) && CanTouch(s, d) && s.entries[id].conn.queued <= c.queued
    ensures Tells(s, SetConn(s, id, c), d)
  {
    var t := SetConn(s, id, c);
    var home := s.entries[id].loop;
    var q := s.loops[home];
    var ns := NewNotices(s, id, c);
    assert Todo(t.loops[home]) == Todo(q) + ns by {
      assert q.batch + (q.pending + ns) == (q.batch + q.pending) + ns;
    }
    NotesOfNotices(id, c.queued[|s.entries[id].conn.queued|..], d);
    if s.entries[d].loop == home {
      NotesConcat(Todo(q), ns, d);
    } else {
      assert t.loops[s.entries[d].loop] == s.loops[s.entries[d].loop];
    }
    assert d != id ==> Said(t, d)[|Said(s, d)|..] == [];
  }

  // ---------------------------------------------------------------- the actions

  lemma EstablishTells(s: Server, id: ConnId, calls: seq<Call>, d: ConnId)
    requires CanTouch(s, id) && CanTouch(s, d)
    ensures Tells(s, EstablishConnection(s, id, calls), d)
  {
    hide ConnectEstablished;
    var c := ConnectEstablished(s.entries[id].conn, calls);
    E.EstablishRecalls(s.entries[id].conn, calls);
    SetConnTells(s, id, c, d);
    TellsNothing(SetConn(s, id, c), EstablishConnection(s, id, calls), d);
    TellsMore(s, SetConn(s, id, c), EstablishConnection(s, id, calls), d);
  }

  lemma DestroyTells(s: Server, id: ConnId, calls: seq<Call>, d: ConnId)
    requires CanTouch(s, id) && CanTouch(s, d)
    ensures Tells(s, DestroyConnection(s, id, calls), d)
  {
    hide ConnectDestroyed;
    var c := ConnectDestroyed(s.entries[id].conn, calls);
    E.DestroyRecalls(s.entries[id].conn, calls);
    SetConnTells(s, id, c, d);
    TellsNothing(SetConn(s, id, c), DestroyConnection(s, id, calls), d);
    TellsMore(s, SetConn(s, id, c), DestroyConnection(s, id, calls), d);
  }

  lemma RemoveTells(s: Server, id: ConnId, d: ConnId)
    requires CanTouch(s, id) && CanTouch(s, d)
    ensures Tells(s, RemoveConnectionInLoop(s, id), d)
  {
    var u := s.(connections := s.connections - {ConnName(s, id)});
    TellsNothing(s, u, d);
    QueueTells(u, s.entries[id].loop, Destroyed(id), d);
    TellsMore(s, u, RemoveConnectionInLoop(s, id), d);
  }

  lemma CloseTells(s: Server, k: LoopId, id: ConnId, d: ConnId)
    requires CanTouch(s, id) && CanTouch(s, d)
    ensures Tells(s, RemoveConnection(s, k, id), d)
  {
    if k == BASE {
      RemoveTells(s, id, d);
    } else {
      QueueTells(s, BASE, RemoveInLoop(id), d);
    }
  }

  lemma EventTells(s: Server, k: LoopId, id: ConnId, revents: Revents, env: Env, d: ConnId)
    requires CanTouch(s, id) && CanTouch(s, d)
    ensures Tells(s, HandleChannel(s, k, id, revents, env), d)
  {
    hide HandleEvent, SetConn, RemoveConnection, Tells;
    var e := s.entries[id];
    if e.conn.tied && e.freed {
      TellsNothing(s, s, d);
    } else {
      var c := HandleEvent(e.conn, revents, env);
      var s1 := SetConn(s, id, c);
      E.EventRecalls(e.conn, revents, env);
      SetConnTells(s, id, c, d);
      if c.closes > e.conn.closes {
        SetConnTouches(s, id, c);
        SetConnTouches2(s, id, c, d);
        CloseTells(s1, k, id, d);
        TellsMore(s, s1, RemoveConnection(s1, k, id), d);
      }
    }
  }

  lemma SetConnTouches2(s: Server, id: ConnId, c: Conn, d: ConnId)
    requires CanTouch(s, id) && CanTouch(s, d)
    ensures CanTouch(SetConn(s, id, c), d)
  {
  }

  lemma FunctorTells(s: Server, f: Functor, calls: seq<Call>, w: WriteChoice, d: ConnId)
    requires CanTouch(s, f.id) && CanTouch(s, d)
    ensures Tells(s, Call1(s, f, calls, w), d)
  {
    hide SetConn, EstablishConnection, DestroyConnection, RemoveConnectionInLoop, DoCalls, SendInLoop, Tells;
    var c := s.entries[f.id].conn;
    match f
    case Established(id) => EstablishTells(s, id, calls, d);
    case RemoveInLoop(id) => RemoveTells(s, id, d);
    case Destroyed(id) => DestroyTells(s, id, calls, d);
    case Notice(id, _) =>
      E.CallsRecall(c, calls);
      SetConnTells(s, id, DoCalls(c, calls), d);
    case Delivery(id, msg, _) =>
      E.SendRecalls(c, msg, w);
      SetConnTells(s, id, SendInLoop(c, msg, w), d);
  }

  lemma IncomingTells(s: Server, fd: int, cfg: Config, calls: seq<Call>, d: ConnId)
    requires S.Enabled(s, Incoming(fd, cfg, calls)) && CanTouch(s, d) && d < s.nextConnId
    ensures Tells(s, Next(s, Incoming(fd, cfg, calls)), d)
  {
    hide EstablishConnection, Tells;
    var id := s.nextConnId;
    var u := Recorded(s, fd, cfg);
    TellsNothing(s, u, d);
    if Assigned(s.threads, s.next) == BASE {
      EstablishTells(u, id, calls, d);
    } else {
      QueueTells(u, Assigned(s.threads, s.next), Established(id), d);
    }
    TellsMore(s, u, Next(s, Incoming(fd, cfg, calls)), d);
  }

  /** The server when an action has begun: a running functor is off its queue. */
  function Begun(s: Server, a: Action): Server {
    if a.RunFunctor? && a.l < |s.loops| && s.loops[a.l].batch != [] then Popped(s, a.l) else s
  }

  /** What an action makes a connection say goes to the end of its loop's queue, and it takes no notice
      off but the one it runs. */
  lemma ActionTells(s: Server, a: Action, d: ConnId)
    requires Inv(s) && S.Enabled(s, a) && d in s.entries
    ensures Tells(Begun(s, a), Next(s, a), d)
  {
    hide Inv, Tells, HandleChannel, Call1, NewConnection, SetConn, FunctorOk;
    InvShape(s);
    InvEntry(s, d);
    match a
    case Incoming(fd, cfg, calls) => IncomingTells(s, fd, cfg, calls, d);
    case Dispatch(l, revents, env) => DispatchTells(s, l, revents, env, d);
    case RunFunctor(l, calls, w) => FunctorTells(Popped(s, l), s.loops[l].batch[0], calls, w, d);
    case OwnCall(id, call) =>
      E.CallRecalls(s.entries[id].conn, call);
      SetConnTells(s, id, DoCall(s.entries[id].conn, call), d);
    case SendPush(t) => PushTells(s, t, d);
    case _ => BookkeepingTells(s, a, d);
  }

  lemma DispatchTells(s: Server, l: LoopId, revents: Revents, env: Env, d: ConnId)
    requires S.Enabled(s, Dispatch(l, revents, env)) && CanTouch(s, d)
    ensures Tells(s, Next(s, Dispatch(l, revents, env)), d)
  {
    hide HandleChannel, Tells;
    var u := NextTaken(s, l);
    TellsNothing(s, u, d);
    EventTells(u, l, s.loops[l].active[0], revents, env, d);
    TellsMore(s, u, Next(s, Dispatch(l, revents, env)), d);
  }

  lemma PushTells(s: Server, t: Thread, d: ConnId)
    requires S.Enabled(s, SendPush(t)) && CanTouch(s, d)
    ensures Tells(s, Next(s, SendPush(t)), d)
  {
    hide Tells;
    var (id, msg) := (s.sending[t].id, s.sending[t].msg);
    var u := s.(sending := s.sending - {t});
    TellsNothing(s, u, d);
    QueueTells(u, s.entries[id].loop, Delivery(id, msg, Retired(s, id)), d);
    TellsMore(s, u, Next(s, SendPush(t)), d);
  }

  lemma BookkeepingTells(s: Server, a: Action, d: ConnId)
    requires Inv(s) && S.Enabled(s, a) && CanTouch(s, d)
    requires a.Poll? || a.EndDispatch? || a.EndFunctors? || a.SendCheck? || a.Release?
    ensures Tells(s, Next(s, a), d)
  {
    hide Inv, FunctorOk, FactsOk, Tells;
    var home := s.entries[d].loop;
    InvLoop(s, home);
    var q := s.loops[home];
    assert [] + q.pending == q.pending && q.pending + [] == q.pending;
    TellsNothing(s, Next(s, a), d);
  }

  /** In the terms of one action: the notices of a connection that wait after it are those that waited,
      without the functor that ran, and then one for each note it has queued meanwhile. */
  lemma NoticesFollow(s: Server, a: Action, id: ConnId)
    requires Inv(s) && S.Enabled(s, a) && id in s.entries
    ensures var t := Next(s, a);
            var home := s.entries[id].loop;
            && id in t.entries && |t.loops| == |s.loops| && home < |s.loops|
            && s.entries[id].conn.queued <= t.entries[id].conn.queued
            && NotesOf(Todo(t.loops[home]), id)
               == NotesOf(Rest(s, a, home), id) + t.entries[id].conn.queued[|s.entries[id].conn.queued|..]
  {
    hide Inv, Next, S.Enabled;
    InvEntry(s, id);
    LoopsStay(s, a);
    ActionTells(s, a, id);
    BegunRest(s, a, id);
  }

  lemma BegunRest(s: Server, a: Action, id: ConnId)
    requires S.Enabled(s, a) && CanTouch(s, id)
    ensures CanTouch(Begun(s, a), id) && Begun(s, a).entries[id] == s.entries[id]
    ensures Said(Begun(s, a), id) == Said(s, id)
    ensures Waiting(Begun(s, a), id) == NotesOf(Rest(s, a, s.entries[id].loop), id)
  {
    if a.RunFunctor? {
      PoppedRest(s, a.l, s.entries[id].loop);
    }
  }

  // ---------------------------------------------------------------- over whole runs

  /** The note of `id` that an action runs, if it does. */
  function NoteRun(s: Server, a: Action, id: ConnId): seq<Note> {
    if a.RunFunctor? && a.l < |s.loops| && s.loops[a.l].batch != []
       && s.loops[a.l].batch[0].Notice? && s.loops[a.l].batch[0].id == id
    then [s.loops[a.l].batch[0].note] else []
  }

  ghost function NotesRun(s: Server, run: seq<Action>, id: ConnId): seq<Note>
    requires S.Legal(s, run)
    decreases |run|
  {
    if run == [] then [] else NoteRun(s, run[0], id) + NotesRun(Next(s, run[0]), run[1..], id)
  }

  lemma RunIsFirst(s: Server, a: Action, id: ConnId)
    requires Inv(s) && S.Enabled(s, a) && id in s.entries
    ensures Waiting(s, id) == NoteRun(s, a, id) + Waiting(Begun(s, a), id)
  {
    hide Inv, FactsOk, Next, P.Inv;
    InvEntry(s, id);
    if a.RunFunctor? {
      InvLoop(s, a.l);
      var f := s.loops[a.l].batch[0];
      assert f in Held(s.loops[a.l]) && FunctorOk(s, a.l, f);
      PoppedRest(s, a.l, s.entries[id].loop);
      if a.l == s.entries[id].loop {
        assert Todo(s.loops[a.l])[0] == f;
      }
    }
  }

  lemma KnownStep(s: Server, a: Action, id: ConnId)
    requires Inv(s) && S.Enabled(s, a) && id in s.entries
    ensures Said(s, id) <= Said(Next(s, a), id)
    ensures NoteRun(s, a, id) + Waiting(Next(s, a), id)
            == Waiting(s, id) + Said(Next(s, a), id)[|Said(s, id)|..]
  {
    hide Inv, Next, S.Enabled, Waiting, Said, NoteRun, Begun, EntryOk;
    InvEntry(s, id);
    RunIsFirst(s, a, id);
    ActionTells(s, a, id);
    assert CanTouch(s, id) by { EntryTouched(s, id); }
    BegunRest(s, a, id);
    NotesTwice(NoteRun(s, a, id), Waiting(Begun(s, a), id), Said(Next(s, a), id)[|Said(s, id)|..]);
  }

  lemma EntryTouched(s: Server, id: ConnId)
    requires id in s.entries && id > 0 && |s.loops| > 0 && EntryOk(s, id)
    ensures CanTouch(s, id)
  {
  }

  lemma NotesTwice(a: seq<Note>, b: seq<Note>, c: seq<Note>)
    ensures a + (b + c) == (a + b) + c
  {
  }

  /** One action of a run, whether the connection is there already or comes with it. */
  lemma NotesStep(s: Server, a: Action, id: ConnId)
    requires Inv(s) && S.Enabled(s, a)
    ensures Said(s, id) <= Said(Next(s, a), id)
    ensures NoteRun(s, a, id) + Waiting(Next(s, a), id)
            == Waiting(s, id) + Said(Next(s, a), id)[|Said(s, id)|..]
  {
    hide Inv, Next, S.Enabled, NoteRun;
    if id in s.entries {
      KnownStep(s, a, id);
    } else {
      hide Waiting, Said;
      NewcomerTells(s, a, id);
      NothingSaid(s, id);
      assert [] + Waiting(Next(s, a), id) == Waiting(Next(s, a), id);
    }
  }

  lemma NothingSaid(s: Server, id: ConnId)
    requires id !in s.entries
    ensures Waiting(s, id) == [] && Said(s, id) == []
  {
  }

  /** A connection that was not there has said nothing, or exactly what waits for it. */
  lemma NewcomerTells(s: Server, a: Action, id: ConnId)
    requires Inv(s) && S.Enabled(s, a) && id !in s.entries
    ensures NoteRun(s, a, id) == [] && Waiting(Next(s, a), id) == Said(Next(s, a), id)
  {
    hide Inv, Next, S.Enabled, FactsOk;
    NoteOfNobody(s, a, id);
    if a.Incoming? && id == s.nextConnId {
      NewcomerNotes(s, a.fd, a.cfg, a.calls);
    } else {
      OnlyIncomingAdds(s, a, id);
    }
  }

  lemma NoteOfNobody(s: Server, a: Action, id: ConnId)
    requires Inv(s) && id !in s.entries
    ensures NoteRun(s, a, id) == []
  {
    hide Inv, FactsOk;
    if a.RunFunctor? && a.l < |s.loops| && s.loops[a.l].batch != [] {
      InvLoop(s, a.l);
      assert s.loops[a.l].batch[0] in Held(s.loops[a.l]);
      assert FunctorOk(s, a.l, s.loops[a.l].batch[0]);
    }
  }

  lemma OnlyIncomingAdds(s: Server, a: Action, id: ConnId)
    requires Inv(s) && S.Enabled(s, a) && id !in s.entries && !(a.Incoming? && id == s.nextConnId)
    ensures id !in Next(s, a).entries
  {
    hide Inv;
    match a
    case RunFunctor(l, calls, w) => FunctorAdds(Popped(s, l), s.loops[l].batch[0], calls, w, id);
    case Dispatch(l, revents, env) => EventAdds(NextTaken(s, l), l, s.loops[l].active[0], revents, env, id);
    case Incoming(fd, cfg, calls) => IncomingAdds(s, fd, cfg, calls, id);
    case _ =>
  }

  lemma FunctorAdds(s: Server, f: Functor, calls: seq<Call>, w: WriteChoice, id: ConnId)
    requires CanTouch(s, f.id) && id !in s.entries
    ensures id !in Call1(s, f, calls, w).entries
  {
    hide DoCalls, SendInLoop, ConnectEstablished, ConnectDestroyed;
  }

  lemma EventAdds(s: Server, l: LoopId, i: ConnId, revents: Revents, env: Env, id: ConnId)
    requires CanTouch(s, i) && id !in s.entries
    ensures id !in HandleChannel(s, l, i, revents, env).entries
  {
    hide HandleEvent;
  }

  lemma IncomingAdds(s: Server, fd: int, cfg: Config, calls: seq<Call>, id: ConnId)
    requires Assigned(s.threads, s.next) < |s.loops| && id !in s.entries && id != s.nextConnId
    ensures id !in NewConnection(s, fd, cfg, calls).entries
  {
    hide ConnectEstablished, ConnName;
  }

  /** Nothing waits for a connection that is not there. */
  lemma NothingWaits(s: Server, id: ConnId, l: LoopId)
    requires l < |s.loops| && LoopOk(s, l) && id !in s.entries
    ensures NotesOf(Todo(s.loops[l]), id) == []
  {
    NothingQueued(s, id, l);
    forall i | 0 <= i < |Todo(s.loops[l])|
      ensures Todo(s.loops[l])[i].id != id
    {
      assert Todo(s.loops[l])[i] in Held(s.loops[l]);
    }
    NoNotes(Todo(s.loops[l]), id);
  }

  lemma NewcomerNotes(s: Server, fd: int, cfg: Config, calls: seq<Call>)
    requires Inv(s) && S.Enabled(s, Incoming(fd, cfg, calls)) && s.nextConnId !in s.entries
    ensures var t := Next(s, Incoming(fd, cfg, calls)); Waiting(t, s.nextConnId) == Said(t, s.nextConnId)
  {
    hide Inv, EstablishConnection, QueueOn, NotesOf, Todo, LoopOk, ConnName;
    var id := s.nextConnId;
    var io := Assigned(s.threads, s.next);
    var u := Recorded(s, fd, cfg);
    InvLoop(s, io);
    NothingWaits(s, id, io);
    if io == BASE {
      EstablishTells(u, id, calls, id);
    } else {
      QueueTells(u, io, Established(id), id);
    }
  }

  /** Over any run, the notices that have run and those that wait are exactly the notes queued, in order
      and each once, after those that waited at its beginning. */
  lemma {:induction false} NoticesRunExactly(s: Server, run: seq<Action>, id: ConnId)
    requires Sound(s) && S.Legal(s, run)
    ensures var r := S.Exec(s, run);
            && Said(s, id) <= Said(r, id)
            && NotesRun(s, run, id) + Waiting(r, id) == Waiting(s, id) + Said(r, id)[|Said(s, id)|..]
    decreases |run|
  {
    hide Sound, Next, S.Enabled, Waiting, Said, NoteRun;
    if run == [] {
      assert Said(s, id)[|Said(s, id)|..] == [];
    } else {
      var t := Next(s, run[0]);
      var r := S.Exec(t, run[1..]);
      SoundInv(s);
      NotesStep(s, run[0], id);
      SoundStep(s, run[0]);
      NoticesRunExactly(t, run[1..], id);
      Telescope(NoteRun(s, run[0], id), NotesRun(t, run[1..], id), Waiting(s, id), Waiting(t, id), Waiting(r, id),
                Said(s, id), Said(t, id), Said(r, id));
    }
  }

  lemma SoundInv(s: Server)
    requires Sound(s)
    ensures Inv(s)
  {
  }

  lemma Telescope(first: seq<Note>, later: seq<Note>, w: seq<Note>, w1: seq<Note>, w2: seq<Note>,
                  a: seq<Note>, b: seq<Note>, c: seq<Note>)
    requires a <= b <= c
    requires first + w1 == w + b[|a|..] && later + w2 == w1 + c[|b|..]
    ensures (first + later) + w2 == w + c[|a|..]
  {
    assert (first + later) + w2 == first + (later + w2);
    assert first + (w1 + c[|b|..]) == (first + w1) + c[|b|..];
    assert (w + b[|a|..]) + c[|b|..] == w + (b[|a|..] + c[|b|..]);
    assert b[|a|..] + c[|b|..] == c[|a|..];
  }
}
