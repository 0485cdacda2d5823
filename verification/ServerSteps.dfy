/** Every action of the server keeps its invariant: first the effect of each building block on one
    connection's facts, then the actions. */
module ServerSteps {
  import opened Kernel
  import opened ConnectionModel
  import opened ServerModel
  import S = ServerModel
  import opened ServerProofs
  import P = ConnectionProofs
  import Pollers
  import Names
  import opened ThreadPools

  /** A connection, its loop and its place in the server, ready to be worked on. */
  ghost predicate Live(s: Server, id: ConnId) {
    CanTouch(s, id) && |s.loops| > 0 && !s.entries[id].freed && Placed(s, id)
  }

  predicate SameButQueues(s: Server, t: Server) {
    t.next == s.next && t.nextConnId == s.nextConnId && t.entries == s.entries && t.connections == s.connections
  }

  /** One more functor to run. */
  function Plus(f: Facts, g: Functor): Facts {
    match g
    case Established(_) => f.(toEstablish := f.toEstablish + 1)
    case RemoveInLoop(_) => f.(toRemove := f.toRemove + 1)
    case Destroyed(_) => f.(toDestroy := f.toDestroy + 1)
    case Notice(_, _) => f
    case Delivery(_, _, _) => f
  }

  // ---------------------------------------------------------------- building blocks

  /** Queueing functors of `id` on a loop. */
  lemma LoopQueues(a: LoopState, fs: seq<Functor>, id: ConnId, fd: int)
    requires forall f :: f in fs ==> f.id == id
    ensures var b := a.(pending := a.pending + fs);
            && LoopElsewhere(a, b, id, fd)
            && multiset(Todo(b)) == multiset(Todo(a)) + multiset(fs)
            && Held(b) == Held(a) + fs
  {
    var b := a.(pending := a.pending + fs);
    assert Todo(b) == Todo(a) + fs;
    forall f: Functor | f.id != id
      ensures multiset(Todo(b))[f] == multiset(Todo(a))[f]
    {
      assert f !in fs;
    }
  }

  /** Beginning the next functor of the batch, one of `id`. */
  lemma LoopPops(a: LoopState, id: ConnId, fd: int)
    requires a.phase == Running && a.batch != [] && a.batch[0].id == id
    ensures var b := a.(batch := a.batch[1..], ran := a.ran + [a.batch[0]]);
            && LoopElsewhere(a, b, id, fd)
            && multiset(Todo(a)) == multiset{a.batch[0]} + multiset(Todo(b))
            && Held(b) == Held(a)
  {
    var b := a.(batch := a.batch[1..], ran := a.ran + [a.batch[0]]);
    assert a.batch == [a.batch[0]] + b.batch;
    assert Todo(a) == [a.batch[0]] + Todo(b);
    assert b.ran + b.batch == a.ran + a.batch;
    forall f: Functor | f.id != id
      ensures multiset(Todo(b))[f] == multiset(Todo(a))[f]
    {
    }
  }

  /** Only loop `l` and connection `id` differ. */
  ghost predicate OnlyLoop(s: Server, t: Server, l: LoopId, id: ConnId) {
    && l < |s.loops| == |t.loops| && t.loops == s.loops[l := t.loops[l]]
    && t.name == s.name && t.ipPort == s.ipPort && t.threads == s.threads && t.connections == s.connections
    && id in s.entries && id in t.entries && t.entries == s.entries[id := t.entries[id]]
  }

  lemma OneLoopElsewhere(s: Server, t: Server, l: LoopId, id: ConnId, fd: int)
    requires OnlyLoop(s, t, l, id) && LoopElsewhere(s.loops[l], t.loops[l], id, fd)
    ensures Elsewhere(s, t, id, fd)
  {
    forall k | 0 <= k < |s.loops|
      ensures LoopElsewhere(s.loops[k], t.loops[k], id, fd)
    {
      if k != l {
        assert t.loops[k] == s.loops[k];
      }
    }
  }

  /** Some loop is about to dispatch the connection. */
  ghost predicate Awaited(s: Server, id: ConnId) {
    exists l :: 0 <= l < |s.loops| && id in s.loops[l].active
  }

  /** The connection may have moved on, but not out from under a queued notice or a dispatch. */
  ghost predicate Continues(s: Server, e: Entry, id: ConnId)
    requires id in s.entries
  {
    var o := s.entries[id];
    && e.loop == o.loop && e.fd == o.fd && e.freed == o.freed
    && (e.conn.state != Connecting || o.conn.state == Connecting)
    && (P.Up(e.conn) || !Awaited(s, id))
  }

  lemma OneLoopPlaced(s: Server, t: Server, l: LoopId, id: ConnId)
    requires OnlyLoop(s, t, l, id) && Continues(s, t.entries[id], id)
    requires Placed(s, id) && PlacedOn(t, l, id)
    ensures Placed(t, id)
  {
    forall k | 0 <= k < |t.loops|
      ensures PlacedOn(t, k, id)
    {
      assert PlacedOn(s, k, id);
      if k != l {
        assert t.loops[k] == s.loops[k];
        forall f | f in Held(t.loops[k]) && f.id == id
          ensures FunctorOk(t, k, f)
        {
          assert FunctorOk(s, k, f);
        }
      }
    }
  }

  /** If a loop holds nothing new of `id` but functors in their place, `id` is placed there. */
  lemma GrownPlaced(s: Server, t: Server, l: LoopId, id: ConnId)
    requires OnlyLoop(s, t, l, id) && Continues(s, t.entries[id], id) && PlacedOn(s, l, id)
    requires forall f :: f in Held(t.loops[l]) && f.id == id ==> f in Held(s.loops[l]) || FunctorOk(t, l, f)
    requires t.loops[l].active == s.loops[l].active && t.loops[l].channels == s.loops[l].channels
    ensures PlacedOn(t, l, id)
  {
    forall f | f in Held(t.loops[l]) && f.id == id
      ensures FunctorOk(t, l, f)
    {
      if f in Held(s.loops[l]) {
        assert FunctorOk(s, l, f);
      }
    }
  }

  lemma UpIfAwaited(s: Server, id: ConnId)
    requires Placed(s, id)
    ensures Awaited(s, id) ==> id in s.entries && P.Up(s.entries[id].conn)
  {
    if Awaited(s, id) {
      var l :| 0 <= l < |s.loops| && id in s.loops[l].active;
      assert PlacedOn(s, l, id);
    }
  }

  /** A loop whose change concerns `id` alone and leaves its functors in their places. */
  lemma LoopChanges(s: Server, t: Server, l: LoopId, id: ConnId)
    requires OnlyLoop(s, t, l, id) && Live(s, id) && Continues(s, t.entries[id], id)
    requires LoopElsewhere(s.loops[l], t.loops[l], id, s.entries[id].fd)
    requires forall f :: f in Held(t.loops[l]) && f.id == id ==> f in Held(s.loops[l]) || FunctorOk(t, l, f)
    requires t.loops[l].channels == s.loops[l].channels
    ensures Live(t, id) && Elsewhere(s, t, id, s.entries[id].fd)
  {
    OneLoopElsewhere(s, t, l, id, s.entries[id].fd);
    assert PlacedOn(s, l, id);
    GrownPlaced(s, t, l, id);
    OneLoopPlaced(s, t, l, id);
  }

  /** ... and what that does to the facts of `id`. */
  lemma LoopFacts(s: Server, t: Server, l: LoopId, id: ConnId)
    requires OnlyLoop(s, t, l, id) && CanTouch(s, id) && t.entries[id].loop == s.entries[id].loop
    requires t.entries[id].fd == s.entries[id].fd && t.loops[l].channels == s.loops[l].channels
    ensures var e := t.entries[id];
            var f := FactsOf(s, id);
            FactsOf(t, id) == f.(conn := e.conn, destroyed := e.destroyed, freed := e.freed,
              toEstablish := if e.loop == l then multiset(Todo(t.loops[l]))[Established(id)] else f.toEstablish,
              toRemove := if BASE == l then multiset(Todo(t.loops[l]))[RemoveInLoop(id)] else f.toRemove,
              toDestroy := if e.loop == l then multiset(Todo(t.loops[l]))[Destroyed(id)] else f.toDestroy)
  {
    assert ConnName(t, id) == ConnName(s, id);
    var home := t.entries[id].loop;
    assert home != l ==> t.loops[home] == s.loops[home];
    assert BASE != l ==> t.loops[BASE] == s.loops[BASE];
  }

  lemma PlusFacts(s: Server, t: Server, l: LoopId, f: Functor)
    requires OnlyLoop(s, t, l, f.id) && CanTouch(s, f.id) && t.entries == s.entries
    requires t.loops[l].channels == s.loops[l].channels
    requires l == (if f.RemoveInLoop? then BASE else s.entries[f.id].loop)
    requires multiset(Todo(t.loops[l])) == multiset(Todo(s.loops[l])) + multiset{f}
    ensures FactsOf(t, f.id) == Plus(FactsOf(s, f.id), f)
  {
    hide Todo;
    LoopFacts(s, t, l, f.id);
    OneMore(multiset(Todo(s.loops[l])), f, Established(f.id));
    OneMore(multiset(Todo(s.loops[l])), f, RemoveInLoop(f.id));
    OneMore(multiset(Todo(s.loops[l])), f, Destroyed(f.id));
  }

  lemma OneMore(a: multiset<Functor>, f: Functor, g: Functor)
    ensures (a + multiset{f})[g] == a[g] + if f == g then 1 else 0
  {
  }

  lemma QueueFacts(s: Server, l: LoopId, f: Functor)
    requires l < |s.loops| && CanTouch(s, f.id) && l == (if f.RemoveInLoop? then BASE else s.entries[f.id].loop)
    ensures FactsOf(QueueOn(s, l, [f]), f.id) == Plus(FactsOf(s, f.id), f)
  {
    var t := QueueOn(s, l, [f]);
    assert Todo(t.loops[l]) == Todo(s.loops[l]) + [f];
    assert t.entries == s.entries[f.id := t.entries[f.id]];
    PlusFacts(s, t, l, f);
  }

  lemma QueueEffect(s: Server, l: LoopId, f: Functor)
    requires l < |s.loops| && Live(s, f.id) && FunctorOk(s, l, f)
    ensures var t := QueueOn(s, l, [f]);
            && SameButQueues(s, t) && Live(t, f.id)
            && Elsewhere(s, t, f.id, s.entries[f.id].fd)
            && FactsOf(t, f.id) == Plus(FactsOf(s, f.id), f)
  {
    hide FactsOf;
    var t := QueueOn(s, l, [f]);
    QueueFacts(s, l, f);
    LoopQueues(s.loops[l], [f], f.id, s.entries[f.id].fd);
    assert t.entries == s.entries[f.id := t.entries[f.id]];
    UpIfAwaited(s, f.id);
    LoopChanges(s, t, l, f.id);
  }

  /** The next functor of a batch moves to the part already run. */
  function Popped(s: Server, l: LoopId): Server
    requires l < |s.loops| && s.loops[l].batch != []
  {
    SetLoop(s, l, PoppedLoop(s.loops[l]))
  }

  lemma PoppedTodo(a: LoopState)
    requires a.batch != []
    ensures multiset(Todo(a)) == multiset(Todo(PoppedLoop(a))) + multiset{a.batch[0]}
  {
    var b := PoppedLoop(a);
    assert a.batch == [a.batch[0]] + b.batch;
    assert Todo(a) == [a.batch[0]] + Todo(b);
  }

  lemma PopFacts(s: Server, l: LoopId)
    requires l < |s.loops| && s.loops[l].batch != [] && CanTouch(s, s.loops[l].batch[0].id)
    requires var f := s.loops[l].batch[0]; l == if f.RemoveInLoop? then BASE else s.entries[f.id].loop
    ensures var f := s.loops[l].batch[0]; FactsOf(s, f.id) == Plus(FactsOf(Popped(s, l), f.id), f)
  {
    hide FactsOf, Todo;
    var f := s.loops[l].batch[0];
    var t := Popped(s, l);
    PoppedTodo(s.loops[l]);
    assert t.entries == s.entries[f.id := t.entries[f.id]];
    PlusFacts(t, s, l, f);
  }

  lemma PopEffect(s: Server, l: LoopId)
    requires l < |s.loops| && s.loops[l].batch != [] && s.loops[l].phase == Running
    requires Live(s, s.loops[l].batch[0].id)
    ensures var f := s.loops[l].batch[0];
            var t := Popped(s, l);
            && FunctorOk(s, l, f)
            && SameButQueues(s, t) && Live(t, f.id)
            && Elsewhere(s, t, f.id, s.entries[f.id].fd)
            && FactsOf(s, f.id) == Plus(FactsOf(t, f.id), f)
  {
    hide FactsOf;
    var f := s.loops[l].batch[0];
    var t := Popped(s, l);
    assert FunctorOk(s, l, f) by {
      assert PlacedOn(s, l, f.id);
      assert f in Held(s.loops[l]);
    }
    PopFacts(s, l);
    LoopPops(s.loops[l], f.id, s.entries[f.id].fd);
    assert t.entries == s.entries[f.id := t.entries[f.id]];
    UpIfAwaited(s, f.id);
    LoopChanges(s, t, l, f.id);
  }

  function NewNotices(s: Server, id: ConnId, c: Conn): seq<Functor>
    requires id in s.entries
  {
    var o := s.entries[id].conn;
    Notices(id, if |c.queued| >= |o.queued| then c.queued[|o.queued|..] else [])
  }

  lemma SetConnFacts(s: Server, id: ConnId, c: Conn)
    requires CanTouch(s, id)
    ensures FactsOf(SetConn(s, id, c), id) == FactsOf(s, id).(conn := c)
  {
    var l := s.entries[id].loop;
    var t := SetConn(s, id, c);
    var ns := NewNotices(s, id, c);
    assert Todo(t.loops[l]) == Todo(s.loops[l]) + ns;
    assert Established(id) !in ns && RemoveInLoop(id) !in ns && Destroyed(id) !in ns;
    LoopFacts(s, t, l, id);
  }

  lemma SetConnEffect(s: Server, id: ConnId, c: Conn)
    requires Live(s, id)
    requires c.state != Connecting || (s.entries[id].conn.state == Connecting && c.queued == s.entries[id].conn.queued)
    requires P.Up(c) || !Awaited(s, id)
    ensures var t := SetConn(s, id, c);
            && t.next == s.next && t.nextConnId == s.nextConnId && t.connections == s.connections
            && t.entries == s.entries[id := s.entries[id].(conn := c)]
            && Live(t, id) && Elsewhere(s, t, id, s.entries[id].fd)
            && FactsOf(t, id) == FactsOf(s, id).(conn := c)
            && (Awaited(t, id) ==> Awaited(s, id))
  {
    var e := s.entries[id];
    var t := SetConn(s, id, c);
    SetConnFacts(s, id, c);
    LoopQueues(s.loops[e.loop], NewNotices(s, id, c), id, e.fd);
    NoticesPlaced(s, id, c);
    LoopChanges(s, t, e.loop, id);
    AwaitedKept(s, t, id);
  }

  lemma NoticesPlaced(s: Server, id: ConnId, c: Conn)
    requires Live(s, id)
    requires c.state != Connecting || c.queued == s.entries[id].conn.queued
    ensures var t := SetConn(s, id, c);
            var l := s.entries[id].loop;
            forall f :: f in Held(t.loops[l]) && f.id == id ==> f in Held(s.loops[l]) || FunctorOk(t, l, f)
  {
    var t := SetConn(s, id, c);
    var l := s.entries[id].loop;
    assert Held(t.loops[l]) == Held(s.loops[l]) + NewNotices(s, id, c);
  }

  lemma AwaitedKept(s: Server, t: Server, id: ConnId)
    requires |s.loops| == |t.loops| && forall l :: 0 <= l < |s.loops| ==> t.loops[l].active == s.loops[l].active
    ensures Awaited(t, id) <==> Awaited(s, id)
  {
    if Awaited(t, id) {
      var l :| 0 <= l < |t.loops| && id in t.loops[l].active;
      assert id in s.loops[l].active;
    }
    if Awaited(s, id) {
      var l :| 0 <= l < |s.loops| && id in s.loops[l].active;
      assert id in t.loops[l].active;
    }
  }

  /** The connection leaves the server's map. */
  lemma UnmapEffect(s: Server, id: ConnId)
    requires Live(s, id)
    ensures var t := s.(connections := s.connections - {ConnName(s, id)});
            && Live(t, id) && Elsewhere(s, t, id, s.entries[id].fd)
            && FactsOf(t, id) == FactsOf(s, id).(mapped := false)
  {
    var t := s.(connections := s.connections - {ConnName(s, id)});
    forall k | 0 <= k < |s.loops|
      ensures LoopElsewhere(s.loops[k], t.loops[k], id, s.entries[id].fd) && PlacedOn(t, k, id)
    {
      assert PlacedOn(s, k, id);
    }
  }

  /** The poller of its loop files the connection under its descriptor, or forgets it. */
  function Filed(s: Server, id: ConnId, add: bool): Server
    requires CanTouch(s, id)
  {
    var e := s.entries[id];
    var home := s.loops[e.loop];
    SetLoop(s, e.loop, home.(channels := if add then home.channels[e.fd := id] else home.channels - {e.fd}))
  }

  lemma FiledFacts(s: Server, id: ConnId, add: bool)
    requires CanTouch(s, id) && |s.loops| > 0
    ensures FactsOf(Filed(s, id, add), id) == FactsOf(s, id).(polled := add)
  {
    assert ConnName(Filed(s, id, add), id) == ConnName(s, id);
  }

  lemma FiledPlaced(s: Server, id: ConnId, add: bool)
    requires Live(s, id)
    ensures PlacedOn(Filed(s, id, add), s.entries[id].loop, id)
  {
    var l := s.entries[id].loop;
    var t := Filed(s, id, add);
    assert PlacedOn(s, l, id);
    forall f | f in Held(t.loops[l]) && f.id == id
      ensures FunctorOk(t, l, f)
    {
      assert FunctorOk(s, l, f);
    }
  }

  lemma FiledEffect(s: Server, id: ConnId, add: bool)
    requires Live(s, id)
    ensures var t := Filed(s, id, add);
            && SameButQueues(s, t) && Live(t, id) && Elsewhere(s, t, id, s.entries[id].fd)
            && FactsOf(t, id) == FactsOf(s, id).(polled := add)
  {
    hide FactsOf, PlacedOn, Elsewhere;
    var e := s.entries[id];
    var t := Filed(s, id, add);
    assert t.entries == s.entries[id := t.entries[id]];
    OneLoopElsewhere(s, t, e.loop, id, e.fd);
    UpIfAwaited(s, id);
    FiledPlaced(s, id, add);
    FiledFacts(s, id, add);
    OneLoopPlaced(s, t, e.loop, id);
  }

  lemma CountedEffect(s: Server, id: ConnId, destroyed: nat)
    requires Live(s, id)
    ensures var t := s.(entries := s.entries[id := s.entries[id].(destroyed := destroyed)]);
            && Live(t, id) && Elsewhere(s, t, id, s.entries[id].fd)
            && FactsOf(t, id) == FactsOf(s, id).(destroyed := destroyed)
  {
    var t := s.(entries := s.entries[id := s.entries[id].(destroyed := destroyed)]);
    assert OnlyLoop(s, t, BASE, id);
    OneLoopElsewhere(s, t, BASE, id, s.entries[id].fd);
    UpIfAwaited(s, id);
    assert PlacedOn(s, BASE, id);
    GrownPlaced(s, t, BASE, id);
    OneLoopPlaced(s, t, BASE, id);
  }

  // ---------------------------------------------------------------- actions on one connection

  /** A map key that names `id` maps to `id`. */
  lemma OwnName(s: Server, id: ConnId)
    requires Inv(s) && 0 < id <= Names.INT_MAX
    ensures ConnName(s, id) in s.connections ==> id in s.entries && s.connections[ConnName(s, id)] == id
  {
    if ConnName(s, id) in s.connections {
      var d := s.connections[ConnName(s, id)];
      Names.NamesDistinct(s.name, s.ipPort, d, id);
    }
  }

  lemma EntryLive(s: Server, id: ConnId)
    requires Inv(s) && id in s.entries && !s.entries[id].freed
    ensures Live(s, id) && EntryOk(s, id) && Owns(s, id, s.entries[id].fd)
    ensures ConnName(s, id) in s.connections ==> s.connections[ConnName(s, id)] == id
  {
    assert EntryOk(s, id);
    InvPlaced(s, id);
    OwnName(s, id);
  }

  /** An action on a live connection keeps the invariant if its facts are right again. */
  lemma Settled(s: Server, t: Server, id: ConnId)
    requires Inv(s) && id in s.entries && !s.entries[id].freed
    requires t.next == s.next && t.nextConnId == s.nextConnId
    requires Live(t, id) && Elsewhere(s, t, id, s.entries[id].fd)
    requires t.entries[id].loop == s.entries[id].loop && t.entries[id].fd == s.entries[id].fd
    requires var n := ConnName(s, id);
             n in t.connections ==> n in s.connections && t.connections[n] == s.connections[n]
    requires FactsOk(FactsOf(t, id))
    ensures Inv(t)
  {
    EntryLive(s, id);
    ShapeKept(s, t, id);
    Conclude(s, t, id);
  }

  lemma ShapeKept(s: Server, t: Server, id: ConnId)
    requires Shape(s) && id in s.entries && id in t.entries && Elsewhere(s, t, id, s.entries[id].fd)
    requires t.next == s.next && t.nextConnId == s.nextConnId
    ensures Shape(t)
  {
  }

  /** A connection that stays up, or stays closed, keeps its place in the life cycle. */
  lemma ConnMoves(s: Server, id: ConnId, c: Conn)
    requires Inv(s) && id in s.entries && !s.entries[id].freed && P.Inv(c)
    requires var o := s.entries[id].conn;
             || (P.Up(o) && P.Up(c))
             || (o.state == c.state && o.index == c.index && (c.state == Connecting ==> c.queued == o.queued))
    ensures Inv(SetConn(s, id, c))
  {
    hide Inv;
    EntryLive(s, id);
    UpIfAwaited(s, id);
    SetConnEffect(s, id, c);
    Settled(s, SetConn(s, id, c), id);
  }

  lemma CallsMove(c: Conn, calls: seq<Call>)
    requires P.Inv(c) && c.state != Connecting
    ensures var r := DoCalls(c, calls);
            P.Inv(r) && ((P.Up(c) && P.Up(r)) || (c.state == r.state && c.index == r.index))
  {
    P.CallsKeep(c, calls);
    if c.state == Disconnected {
      P.ClosedCalls(c, calls);
    }
  }

  lemma OwnCallKeeps(s: Server, id: ConnId, call: Call)
    requires Inv(s) && S.Enabled(s, OwnCall(id, call))
    ensures Inv(Next(s, OwnCall(id, call)))
  {
    hide Inv, SetConn;
    InvEntry(s, id);
    P.CallKeeps(s.entries[id].conn, call);
    ConnMoves(s, id, DoCall(s.entries[id].conn, call));
  }

  // ---------------------------------------------------------------- bookkeeping of one loop

  /** The functors that move a connection along its life. */
  predicate IsTask(f: Functor) {
    f.Established? || f.RemoveInLoop? || f.Destroyed?
  }

  /** A loop that keeps its channels and the tasks it has to run. */
  ghost predicate SameWork(a: LoopState, b: LoopState) {
    b.channels == a.channels && forall f :: IsTask(f) ==> multiset(Todo(b))[f] == multiset(Todo(a))[f]
  }

  /** Only the bookkeeping of loop `l`, and who is sending, differs. */
  ghost predicate OnlyWork(s: Server, t: Server, l: LoopId) {
    && l < |s.loops| == |t.loops| && t == s.(loops := s.loops[l := t.loops[l]], sending := t.sending)
    && SameWork(s.loops[l], t.loops[l])
  }

  lemma SameFacts(s: Server, t: Server, l: LoopId, id: ConnId)
    requires OnlyWork(s, t, l) && id in s.entries && id > 0 && EntryOk(s, id)
    ensures EntryOk(t, id)
  {
    assert ConnName(t, id) == ConnName(s, id);
    var home := s.entries[id].loop;
    assert SameWork(s.loops[home], t.loops[home]) && SameWork(s.loops[BASE], t.loops[BASE]);
    assert IsTask(Established(id)) && IsTask(RemoveInLoop(id)) && IsTask(Destroyed(id));
    assert FactsOf(t, id) == FactsOf(s, id);
  }

  lemma SameKeys(s: Server, t: Server, l: LoopId)
    requires OnlyWork(s, t, l) && Shape(s) && MapOk(s) && FdsOk(s)
    ensures Shape(t) && MapOk(t) && FdsOk(t)
  {
    assert forall id :: ConnName(t, id) == ConnName(s, id);
  }

  /** So the invariant holds if loop `l` itself is right. */
  lemma WorkKeeps(s: Server, t: Server, l: LoopId)
    requires Inv(s) && OnlyWork(s, t, l) && LoopOk(t, l)
    ensures Inv(t)
  {
    SameKeys(s, t, l);
    forall id | id in t.entries
      ensures EntryOk(t, id)
    {
      assert EntryOk(s, id);
      SameFacts(s, t, l, id);
    }
    forall k | 0 <= k < |t.loops|
      ensures LoopOk(t, k)
    {
      assert LoopOk(s, k);
      if k != l {
        assert t.loops[k] == s.loops[k];
        SameEntriesLoop(s, t, k);
      }
    }
  }

  function NextTaken(s: Server, l: LoopId): Server
    requires l < |s.loops| && s.loops[l].active != []
  {
    SetLoop(s, l, s.loops[l].(active := s.loops[l].active[1..]))
  }

  /** The next active channel is taken off the list, and nobody else waits to dispatch it. */
  lemma ActivePops(s: Server, l: LoopId)
    requires Inv(s) && l < |s.loops| && s.loops[l].active != []
    ensures var id := s.loops[l].active[0];
            && id in s.entries && s.entries[id].loop == l && P.Up(s.entries[id].conn) && !s.entries[id].freed
            && Inv(NextTaken(s, l)) && !Awaited(NextTaken(s, l), id)
  {
    var id := s.loops[l].active[0];
    assert LoopOk(s, l);
    assert ActiveOk(s, l, s.loops[l].active[0]);
    assert EntryOk(s, id);
    TakenLoop(s, l);
    WorkKeeps(s, NextTaken(s, l), l);
    forall k | 0 <= k < |s.loops|
      ensures ActivesOk(s, k)
    {
      assert LoopOk(s, k);
    }
    TakenNotAwaited(s, l);
  }

  lemma TakenLoop(s: Server, l: LoopId)
    requires l < |s.loops| && s.loops[l].active != [] && LoopOk(s, l)
    ensures LoopOk(NextTaken(s, l), l)
  {
    var t := NextTaken(s, l);
    SameEntriesLoop(s, t, l);
    assert forall i :: 0 <= i < |t.loops[l].active| ==> t.loops[l].active[i] == s.loops[l].active[i + 1];
  }

  lemma TakenNotAwaited(s: Server, l: LoopId)
    requires l < |s.loops| && s.loops[l].active != []
    requires forall k :: 0 <= k < |s.loops| ==> ActivesOk(s, k)
    ensures !Awaited(NextTaken(s, l), s.loops[l].active[0])
  {
    var id := s.loops[l].active[0];
    var t := NextTaken(s, l);
    assert ActivesOk(s, l) && ActiveOk(s, l, s.loops[l].active[0]);
    forall k, i | 0 <= k < |t.loops| && 0 <= i < |t.loops[k].active|
      ensures t.loops[k].active[i] != id
    {
      assert ActivesOk(s, k);
      if k == l {
        assert s.loops[l].active[i + 1] != s.loops[l].active[0];
      } else {
        assert ActiveOk(s, k, s.loops[k].active[i]);
      }
    }
  }

  /** With the entries unchanged, a loop's functors and channels stay right. */
  lemma SameEntriesLoop(s: Server, t: Server, k: LoopId)
    requires k < |s.loops| == |t.loops| && t.entries == s.entries && LoopOk(s, k)
    requires t.loops[k].channels == s.loops[k].channels && forall f :: f in Held(t.loops[k]) ==> f in Held(s.loops[k])
    ensures forall f :: f in Held(t.loops[k]) ==> FunctorOk(t, k, f)
    ensures forall fd :: fd in t.loops[k].channels ==> ChannelOk(t, k, fd, t.loops[k].channels[fd])
    ensures forall i :: 0 <= i < |s.loops[k].active| ==> ActiveOk(t, k, s.loops[k].active[i])
  {
    forall f | f in Held(t.loops[k])
      ensures FunctorOk(t, k, f)
    {
      assert FunctorOk(s, k, f);
    }
    forall i | 0 <= i < |s.loops[k].active|
      ensures ActiveOk(t, k, s.loops[k].active[i])
    {
      assert ActiveOk(s, k, s.loops[k].active[i]);
    }
    forall fd | fd in t.loops[k].channels
      ensures ChannelOk(t, k, fd, t.loops[k].channels[fd])
    {
      assert ChannelOk(s, k, fd, s.loops[k].channels[fd]);
    }
  }

  /** `removeConnection` of a connection that has just closed, from its own loop. */
  lemma RemoveKeeps(s: Server, u: Server, id: ConnId)
    requires Inv(s) && id in s.entries && !s.entries[id].freed
    requires u.next == s.next && u.nextConnId == s.nextConnId && u.connections == s.connections
    requires Live(u, id) && Elsewhere(s, u, id, s.entries[id].fd)
    requires u.entries[id].loop == s.entries[id].loop && u.entries[id].fd == s.entries[id].fd
    requires var f := FactsOf(u, id);
             && P.Inv(f.conn) && f.conn.state == Disconnected && f.polled && f.conn.index != Pollers.New && f.mapped
             && f.destroyed == 0 && f.toEstablish == f.toRemove == f.toDestroy == 0
    ensures Inv(RemoveConnection(u, u.entries[id].loop, id))
  {
    var l := u.entries[id].loop;
    if l == BASE {
      DestructionQueued(s, u, id);
    } else {
      QueueEffect(u, BASE, RemoveInLoop(id));
      var t := QueueOn(u, BASE, [RemoveInLoop(id)]);
      ElsewhereTrans(s, u, t, id, s.entries[id].fd);
      Settled(s, t, id);
    }
  }

  /** `removeConnectionInLoop`: out of the map, and queued to be destroyed. */
  lemma DestructionQueued(s: Server, u: Server, id: ConnId)
    requires Inv(s) && id in s.entries && !s.entries[id].freed
    requires u.next == s.next && u.nextConnId == s.nextConnId && u.connections == s.connections
    requires Live(u, id) && Elsewhere(s, u, id, s.entries[id].fd)
    requires u.entries[id].loop == s.entries[id].loop && u.entries[id].fd == s.entries[id].fd
    requires var f := FactsOf(u, id);
             && P.Inv(f.conn) && f.conn.state == Disconnected && f.polled && f.conn.index != Pollers.New
             && f.destroyed == 0 && f.toEstablish == f.toRemove == f.toDestroy == 0
    ensures Inv(RemoveConnectionInLoop(u, id))
  {
    hide Inv;
    var fd := s.entries[id].fd;
    UnmapEffect(u, id);
    var v := u.(connections := u.connections - {ConnName(u, id)});
    QueueEffect(v, u.entries[id].loop, Destroyed(id));
    var t := QueueOn(v, u.entries[id].loop, [Destroyed(id)]);
    ElsewhereTrans(s, u, v, id, fd);
    ElsewhereTrans(s, v, t, id, fd);
    Settled(s, t, id);
  }

  // ---------------------------------------------------------------- functors

  /** From `u` to `t` an action went on working on `id`. */
  ghost predicate Worked(u: Server, t: Server, id: ConnId) {
    && t.next == u.next && t.nextConnId == u.nextConnId && t.connections == u.connections
    && id in u.entries && t.entries.Keys == u.entries.Keys
    && t.entries[id].loop == u.entries[id].loop && t.entries[id].fd == u.entries[id].fd
    && Live(t, id) && Elsewhere(u, t, id, u.entries[id].fd)
  }

  lemma WorkedTrans(s: Server, t: Server, u: Server, id: ConnId)
    requires Worked(s, t, id) && Worked(t, u, id)
    ensures Worked(s, u, id)
  {
    ElsewhereTrans(s, t, u, id, s.entries[id].fd);
  }

  lemma SetConnWorked(u: Server, id: ConnId, c: Conn)
    requires Live(u, id) && c.state != Connecting && (P.Up(c) || !Awaited(u, id))
    ensures Worked(u, SetConn(u, id, c), id)
    ensures FactsOf(SetConn(u, id, c), id) == FactsOf(u, id).(conn := c)
    ensures SetConn(u, id, c).entries[id] == u.entries[id].(conn := c)
  {
    hide FactsOf;
    SetConnEffect(u, id, c);
  }

  lemma FiledWorked(u: Server, id: ConnId, add: bool)
    requires Live(u, id)
    ensures Worked(u, Filed(u, id, add), id)
    ensures FactsOf(Filed(u, id, add), id) == FactsOf(u, id).(polled := add)
  {
    FiledEffect(u, id, add);
  }

  function Counted(u: Server, id: ConnId): Server
    requires id in u.entries
  {
    u.(entries := u.entries[id := u.entries[id].(destroyed := u.entries[id].destroyed + 1)])
  }

  lemma CountedWorked(u: Server, id: ConnId)
    requires Live(u, id)
    ensures Worked(u, Counted(u, id), id)
    ensures FactsOf(Counted(u, id), id) == FactsOf(u, id).(destroyed := u.entries[id].destroyed + 1)
  {
    CountedEffect(u, id, u.entries[id].destroyed + 1);
  }

  /** `connectEstablished` of a connection that nothing else speaks of yet but the map. */
  lemma EstablishEffect(u: Server, id: ConnId, calls: seq<Call>)
    requires Live(u, id)
    requires var f := FactsOf(u, id);
             && P.Inv(f.conn) && f.conn.state == Connecting && f.mapped && f.destroyed == 0
             && f.toEstablish == f.toRemove == f.toDestroy == 0
    ensures Worked(u, EstablishConnection(u, id, calls), id)
    ensures FactsOk(FactsOf(EstablishConnection(u, id, calls), id))
  {
    var o := u.entries[id].conn;
    var c := ConnectEstablished(o, calls);
    P.StepKeeps(o, ConnectionModel.Establish(calls));
    EstablishedIsUp(o, calls);
    SetConnWorked(u, id, c);
    var v := SetConn(u, id, c);
    FiledWorked(v, id, true);
    WorkedTrans(u, v, Filed(v, id, true), id);
    assert EstablishConnection(u, id, calls) == Filed(v, id, true);
  }

  lemma EstablishedIsUp(c: Conn, calls: seq<Call>)
    requires P.Inv(c) && c.state == Connecting
    ensures P.Up(ConnectEstablished(c, calls))
  {
    P.CallsKeep(EnableReading(c.(state := Connected, tied := true)).(ups := c.ups + 1), calls);
  }

  /** `connectDestroyed` of a closed connection that has left the map. */
  lemma DestroyEffect(u: Server, id: ConnId, calls: seq<Call>)
    requires Live(u, id)
    requires var f := FactsOf(u, id);
             && P.Inv(f.conn) && f.conn.state == Disconnected && !f.mapped && f.destroyed == 0
             && f.toEstablish == f.toRemove == f.toDestroy == 0
    ensures Worked(u, DestroyConnection(u, id, calls), id)
    ensures FactsOk(FactsOf(DestroyConnection(u, id, calls), id))
  {
    hide Elsewhere, Todo;
    var v := SetConn(u, id, ConnectDestroyed(u.entries[id].conn, calls));
    UpIfAwaited(u, id);
    SetConnWorked(u, id, ConnectDestroyed(u.entries[id].conn, calls));
    DestroyedWorked(v, id);
    WorkedTrans(u, v, Filed(Counted(v, id), id, false), id);
    DestroySplits(u, id, calls);
  }

  lemma DestroySplits(u: Server, id: ConnId, calls: seq<Call>)
    requires CanTouch(u, id)
    ensures DestroyConnection(u, id, calls)
            == Filed(Counted(SetConn(u, id, ConnectDestroyed(u.entries[id].conn, calls)), id), id, false)
  {
  }

  lemma DestroyedWorked(v: Server, id: ConnId)
    requires Live(v, id)
    ensures var t := Filed(Counted(v, id), id, false);
            Worked(v, t, id)
            && FactsOf(t, id) == FactsOf(v, id).(destroyed := v.entries[id].destroyed + 1, polled := false)
  {
    CountedWorked(v, id);
    FiledWorked(Counted(v, id), id, false);
    WorkedTrans(v, Counted(v, id), Filed(Counted(v, id), id, false), id);
  }

  /** The functor about to run finds its connection in the state it needs, and alive if it binds it. */
  lemma NextFunctor(s: Server, l: LoopId)
    requires Inv(s) && l < |s.loops| && s.loops[l].batch != []
    ensures var f := s.loops[l].batch[0];
            && FunctorOk(s, l, f) && EntryOk(s, f.id) && s.loops[l].phase == Running
            && (!f.Delivery? ==> Live(s, f.id))
            && (f.Established? ==> s.entries[f.id].conn.state == Connecting)
            && (f.RemoveInLoop? ==> s.entries[f.id].conn.state == Disconnected && FactsOf(s, f.id).mapped)
            && (f.Destroyed? ==> s.entries[f.id].conn.state == Disconnected && s.entries[f.id].destroyed == 0
                                 && s.entries[f.id].conn.index != Pollers.New && !FactsOf(s, f.id).mapped)
  {
    var f := s.loops[l].batch[0];
    assert LoopOk(s, l);
    assert f in Held(s.loops[l]);
    assert FunctorOk(s, l, f) && EntryOk(s, f.id);
    if !f.Delivery? {
      EntryLive(s, f.id);
    }
    assert f in Todo(s.loops[l]);
    assert multiset(Todo(s.loops[l]))[f] > 0;
  }

  lemma SettledAfter(s: Server, u: Server, t: Server, id: ConnId)
    requires Inv(s) && id in s.entries && !s.entries[id].freed
    requires SameButQueues(s, u) && Elsewhere(s, u, id, s.entries[id].fd)
    requires Worked(u, t, id) && FactsOk(FactsOf(t, id))
    ensures Inv(t)
  {
    ElsewhereTrans(s, u, t, id, s.entries[id].fd);
    Settled(s, t, id);
  }

  function PoppedLoop(a: LoopState): LoopState
    requires a.batch != []
  {
    a.(batch := a.batch[1..], ran := a.ran + [a.batch[0]])
  }

  /** A functor that moves no connection along only leaves the batch. */
  lemma PoppedWork(a: LoopState)
    requires a.batch != [] && !IsTask(a.batch[0])
    ensures SameWork(a, PoppedLoop(a)) && Held(PoppedLoop(a)) == Held(a)
  {
    var b := PoppedLoop(a);
    var f := a.batch[0];
    assert a.batch == [f] + b.batch;
    assert Todo(a) == [f] + Todo(b);
    assert b.ran + b.batch == a.ran + a.batch;
  }

  lemma PoppedKeeps(s: Server, l: LoopId)
    requires Inv(s) && l < |s.loops| && s.loops[l].batch != [] && !IsTask(s.loops[l].batch[0])
    ensures Inv(Popped(s, l))
  {
    hide FactsOk, FdsOk, MapOk, P.Inv, Shape, EntryOk, FunctorOk, ActiveOk, ChannelOk;
    assert LoopOk(s, l);
    PoppedWork(s.loops[l]);
    SameEntriesLoop(s, Popped(s, l), l);
    assert LoopOk(Popped(s, l), l);
    WorkKeeps(s, Popped(s, l), l);
  }

  /** A change that tells the user nothing queues nothing. */
  lemma QuietChange(s: Server, id: ConnId, c: Conn)
    requires CanTouch(s, id) && c.queued == s.entries[id].conn.queued
    ensures SetConn(s, id, c) == s.(entries := s.entries[id := s.entries[id].(conn := c)])
  {
    var e := s.entries[id];
    var loop := s.loops[e.loop];
    assert c.queued[|e.conn.queued|..] == [];
    assert Notices(id, []) == [];
    assert loop.pending + [] == loop.pending;
    assert s.loops[e.loop := loop] == s.loops;
  }

  /** A message that reaches a closed connection, released or not, changes nothing. */
  lemma ClosedDelivery(s: Server, id: ConnId, msg: Bytes, w: WriteChoice)
    requires CanTouch(s, id) && s.entries[id].conn.state == Disconnected
    ensures SetConn(s, id, SendInLoop(s.entries[id].conn, msg, w)) == s
  {
    var c := s.entries[id].conn;
    assert SendInLoop(c, msg, w) == c;
    QuietChange(s, id, c);
    assert s.entries[id := s.entries[id].(conn := c)] == s.entries;
  }

  lemma DeliveryKeeps(s: Server, id: ConnId, msg: Bytes, w: WriteChoice)
    requires Inv(s) && id in s.entries && s.entries[id].conn.state != Connecting
    ensures Inv(SetConn(s, id, SendInLoop(s.entries[id].conn, msg, w)))
  {
    hide Inv, SendInLoop, SetConn, P.Inv;
    var c := s.entries[id].conn;
    InvEntry(s, id);
    if c.state == Disconnected {
      ClosedDelivery(s, id, msg, w);
    } else {
      P.SendKeeps(c, msg, w);
      ConnMoves(s, id, SendInLoop(c, msg, w));
    }
  }

  lemma NoticeKeeps(s: Server, id: ConnId, calls: seq<Call>)
    requires Inv(s) && id in s.entries && s.entries[id].conn.state != Connecting && !s.entries[id].freed
    ensures Inv(SetConn(s, id, DoCalls(s.entries[id].conn, calls)))
  {
    assert EntryOk(s, id);
    CallsMove(s.entries[id].conn, calls);
    ConnMoves(s, id, DoCalls(s.entries[id].conn, calls));
  }

  lemma RunTaskKeeps(s: Server, l: LoopId, calls: seq<Call>)
    requires Inv(s) && l < |s.loops| && s.loops[l].batch != [] && IsTask(s.loops[l].batch[0])
    requires CanTouch(s, s.loops[l].batch[0].id)
    ensures Inv(Call1(Popped(s, l), s.loops[l].batch[0], calls, Accept(0)))
  {
    hide Inv, Elsewhere, Shape, PlacedOn, P.Inv, FactsOf;
    hide EstablishConnection, DestroyConnection, RemoveConnectionInLoop, Popped;
    var f := s.loops[l].batch[0];
    NextFunctor(s, l);
    PopEffect(s, l);
    match f
    case Established(_) => RunEstablished(s, Popped(s, l), f.id, calls);
    case RemoveInLoop(_) => DestructionQueued(s, Popped(s, l), f.id);
    case Destroyed(_) => RunDestroyed(s, Popped(s, l), f.id, calls);
  }

  lemma RunEstablished(s: Server, u: Server, id: ConnId, calls: seq<Call>)
    requires Inv(s) && id in s.entries && EntryOk(s, id) && !s.entries[id].freed
    requires s.entries[id].conn.state == Connecting
    requires SameButQueues(s, u) && Elsewhere(s, u, id, s.entries[id].fd) && Live(u, id)
    requires FactsOf(s, id) == Plus(FactsOf(u, id), Established(id))
    ensures Inv(EstablishConnection(u, id, calls))
  {
    hide Inv, Elsewhere, Shape, Placed, P.Inv, EstablishConnection;
    EstablishEffect(u, id, calls);
    SettledAfter(s, u, EstablishConnection(u, id, calls), id);
  }

  lemma RunDestroyed(s: Server, u: Server, id: ConnId, calls: seq<Call>)
    requires Inv(s) && id in s.entries && EntryOk(s, id) && !s.entries[id].freed
    requires s.entries[id].conn.state == Disconnected && !FactsOf(s, id).mapped
    requires SameButQueues(s, u) && Elsewhere(s, u, id, s.entries[id].fd) && Live(u, id)
    requires FactsOf(s, id) == Plus(FactsOf(u, id), Destroyed(id))
    ensures Inv(DestroyConnection(u, id, calls))
  {
    hide Inv, Elsewhere, Shape, Placed, P.Inv, DestroyConnection;
    DestroyEffect(u, id, calls);
    SettledAfter(s, u, DestroyConnection(u, id, calls), id);
  }

  lemma RunFunctorKeeps(s: Server, l: LoopId, calls: seq<Call>, w: WriteChoice)
    requires Inv(s) && S.Enabled(s, RunFunctor(l, calls, w))
    ensures Inv(Next(s, RunFunctor(l, calls, w)))
  {
    hide Inv, SetConn, DoCalls, SendInLoop, P.Inv;
    var f := s.loops[l].batch[0];
    if IsTask(f) {
      RunTaskKeeps(s, l, calls);
    } else {
      NextFunctor(s, l);
      PoppedKeeps(s, l);
      match f
      case Notice(id, _) => NoticeKeeps(Popped(s, l), id, calls);
      case Delivery(id, msg, _) => DeliveryKeeps(Popped(s, l), id, msg, w);
    }
  }

  // ---------------------------------------------------------------- sending from another thread

  lemma SendCheckKeeps(s: Server, t: Thread, id: ConnId, msg: Bytes)
    requires Inv(s) && S.Enabled(s, SendCheck(t, id, msg))
    ensures Inv(Next(s, SendCheck(t, id, msg)))
  {
    SendersChange(s, Next(s, SendCheck(t, id, msg)).sending);
  }

  lemma SendersChange(s: Server, sending: map<Thread, Sending>)
    requires Inv(s)
    ensures Inv(s.(sending := sending))
  {
    hide FactsOk, FdsOk, MapOk, P.Inv, EntryOk, FunctorOk, ActiveOk, ChannelOk;
    var r := s.(sending := sending);
    assert r.loops == s.loops[BASE := r.loops[BASE]];
    assert LoopOk(s, BASE);
    SameEntriesLoop(s, r, BASE);
    WorkKeeps(s, r, BASE);
  }

  /** Every thread inside `send` has a connection that is alive and no longer being set up. */
  predicate SendingOk(s: Server) {
    forall t :: t in s.sending ==> SenderOk(s, s.sending[t].id)
  }

  predicate SenderOk(s: Server, id: ConnId) {
    id in s.entries && !s.entries[id].freed && s.entries[id].conn.state != Connecting
  }

  lemma SendPushKeeps(s: Server, t: Thread)
    requires Inv(s) && SendingOk(s) && S.Enabled(s, SendPush(t))
    ensures Inv(Next(s, SendPush(t)))
  {
    hide Inv;
    var id := s.sending[t].id;
    assert SenderOk(s, id);
    SendersChange(s, s.sending - {t});
    PushKeeps(s.(sending := s.sending - {t}), s.entries[id].loop, Delivery(id, s.sending[t].msg, Retired(s, id)));
  }

  /** A functor that moves no connection along is queued in its place. */
  lemma PushKeeps(s: Server, l: LoopId, f: Functor)
    requires Inv(s) && l < |s.loops| && FunctorOk(s, l, f) && !IsTask(f)
    ensures Inv(QueueOn(s, l, [f]))
  {
    hide FactsOk, FdsOk, MapOk, P.Inv, Shape, EntryOk, FunctorOk, ActiveOk, ChannelOk;
    var r := QueueOn(s, l, [f]);
    assert LoopOk(s, l);
    PushedWork(s.loops[l], f);
    PushedLoop(s, r, l, f);
    WorkKeeps(s, r, l);
  }

  lemma PushedWork(a: LoopState, f: Functor)
    requires !IsTask(f)
    ensures SameWork(a, a.(pending := a.pending + [f]))
  {
    assert Todo(a.(pending := a.pending + [f])) == Todo(a) + [f];
  }

  lemma PushedLoop(s: Server, r: Server, l: LoopId, f: Functor)
    requires l < |s.loops| == |r.loops| && LoopOk(s, l) && r.entries == s.entries && FunctorOk(s, l, f)
    requires r.loops[l] == s.loops[l].(pending := s.loops[l].pending + [f])
    ensures LoopOk(r, l)
  {
    assert Held(r.loops[l]) == Held(s.loops[l]) + [f];
    forall g | g in Held(r.loops[l])
      ensures FunctorOk(r, l, g)
    {
      assert FunctorOk(s, l, g);
    }
    forall i | 0 <= i < |r.loops[l].active|
      ensures ActiveOk(r, l, r.loops[l].active[i])
    {
      assert ActiveOk(s, l, s.loops[l].active[i]);
    }
    forall fd | fd in r.loops[l].channels
      ensures ChannelOk(r, l, fd, r.loops[l].channels[fd])
    {
      assert ChannelOk(s, l, fd, s.loops[l].channels[fd]);
    }
  }

  // ---------------------------------------------------------------- handling an event

  /** An event leaves a connection up and open, or closes it once. */
  lemma EventOutcome(c: Conn, revents: Revents, env: Env)
    requires P.Inv(c) && P.Up(c) && Plausible(revents)
    ensures var r := HandleEvent(c, revents, env);
            P.Inv(r) && if r.closes > c.closes then r.state == Disconnected && r.index == Pollers.Deleted else P.Up(r)
  {
    P.EventKeeps(c, revents, env);
  }

  lemma HandleChannelKeeps(s: Server, l: LoopId, id: ConnId, revents: Revents, env: Env)
    requires Inv(s) && id in s.entries && s.entries[id].loop == l && P.Up(s.entries[id].conn) && !s.entries[id].freed
    requires l < |s.loops| && !Awaited(s, id) && Plausible(revents)
    ensures Inv(HandleChannel(s, l, id, revents, env))
  {
    hide Inv;
    var o := s.entries[id].conn;
    var c := HandleEvent(o, revents, env);
    EntryLive(s, id);
    EventOutcome(o, revents, env);
    if c.closes > o.closes {
      SetConnWorked(s, id, c);
      RemoveKeeps(s, SetConn(s, id, c), id);
    } else {
      ConnMoves(s, id, c);
    }
  }

  lemma DispatchKeeps(s: Server, l: LoopId, revents: Revents, env: Env)
    requires Inv(s) && S.Enabled(s, Dispatch(l, revents, env))
    ensures Inv(Next(s, Dispatch(l, revents, env)))
  {
    ActivePops(s, l);
    HandleChannelKeeps(NextTaken(s, l), l, s.loops[l].active[0], revents, env);
  }

  // ---------------------------------------------------------------- accepting

  /** The new connection is in the map and nowhere else. */
  function Recorded(s: Server, fd: int, cfg: Config): Server {
    var id := s.nextConnId;
    s.(next := NextIndex(s.threads, s.next), nextConnId := id + 1,
       connections := s.connections[ConnName(s, id) := id],
       entries := s.entries[id := Entry(Fresh(cfg), Assigned(s.threads, s.next), fd, 0, false)])
  }

  lemma NothingQueued(s: Server, id: ConnId, l: LoopId)
    requires l < |s.loops| && LoopOk(s, l) && id !in s.entries
    ensures forall f :: f in Held(s.loops[l]) ==> f.id != id
    ensures id !in s.loops[l].active
    ensures forall fd :: fd in s.loops[l].channels ==> s.loops[l].channels[fd] != id
    ensures forall f: Functor :: f.id == id ==> multiset(Todo(s.loops[l]))[f] == 0
  {
    assert forall f :: f in Held(s.loops[l]) ==> FunctorOk(s, l, f);
    assert forall f :: f in Todo(s.loops[l]) ==> f in Held(s.loops[l]);
    forall f: Functor | f.id == id
      ensures multiset(Todo(s.loops[l]))[f] == 0
    {
      assert f !in Todo(s.loops[l]);
    }
  }

  lemma RecordedElsewhere(s: Server, fd: int, cfg: Config)
    ensures Elsewhere(s, Recorded(s, fd, cfg), s.nextConnId, fd)
  {
  }

  lemma RecordedLive(s: Server, fd: int, cfg: Config)
    requires s.nextConnId !in s.entries && Assigned(s.threads, s.next) < |s.loops|
    requires forall l :: 0 <= l < |s.loops| ==> LoopOk(s, l)
    ensures Live(Recorded(s, fd, cfg), s.nextConnId)
  {
    forall l | 0 <= l < |s.loops|
      ensures PlacedOn(Recorded(s, fd, cfg), l, s.nextConnId)
    {
      NothingQueued(s, s.nextConnId, l);
    }
  }

  lemma RecordedFacts(s: Server, fd: int, cfg: Config)
    requires s.nextConnId !in s.entries && Assigned(s.threads, s.next) < |s.loops|
    requires forall l :: 0 <= l < |s.loops| ==> LoopOk(s, l)
    ensures FactsOf(Recorded(s, fd, cfg), s.nextConnId) == Facts(Fresh(cfg), true, false, 0, 0, 0, 0, false)
  {
    NothingQueued(s, s.nextConnId, BASE);
    NothingQueued(s, s.nextConnId, Assigned(s.threads, s.next));
    assert ConnName(Recorded(s, fd, cfg), s.nextConnId) == ConnName(s, s.nextConnId);
  }

  lemma RecordedShape(s: Server, fd: int, cfg: Config)
    requires Shape(s) && s.nextConnId <= Names.INT_MAX
    ensures Shape(Recorded(s, fd, cfg))
    ensures Assigned(s.threads, s.next) == LoopOf(s.threads, s.nextConnId) < |s.loops|
  {
  }

  /** Named and recorded, the connection is established at once or queued to be. */
  lemma IncomingEffect(s: Server, fd: int, cfg: Config, calls: seq<Call>)
    requires Inv(s) && S.Enabled(s, Incoming(fd, cfg, calls))
    ensures var u := Recorded(s, fd, cfg);
            var t := Next(s, Incoming(fd, cfg, calls));
            Worked(u, t, s.nextConnId) && FactsOk(FactsOf(t, s.nextConnId))
  {
    hide FactsOf, LoopElsewhere;
    var id := s.nextConnId;
    var u := Recorded(s, fd, cfg);
    RecordedLive(s, fd, cfg);
    RecordedFacts(s, fd, cfg);
    var io := Assigned(s.threads, s.next);
    if io == BASE {
      EstablishEffect(u, id, calls);
    } else {
      QueueEffect(u, io, Established(id));
    }
  }

  lemma IncomingKeeps(s: Server, fd: int, cfg: Config, calls: seq<Call>)
    requires Inv(s) && S.Enabled(s, Incoming(fd, cfg, calls))
    ensures Inv(Next(s, Incoming(fd, cfg, calls)))
  {
    var id := s.nextConnId;
    var u := Recorded(s, fd, cfg);
    var t := Next(s, Incoming(fd, cfg, calls));
    IncomingEffect(s, fd, cfg, calls);
    RecordedElsewhere(s, fd, cfg);
    RecordedShape(s, fd, cfg);
    ElsewhereTrans(s, u, t, id, fd);
    IncomingConcludes(s, u, t, id);
  }

  lemma IncomingConcludes(s: Server, u: Server, t: Server, id: ConnId)
    requires Inv(s) && Shape(u) && Worked(u, t, id) && FactsOk(FactsOf(t, id))
    requires id == s.nextConnId && ConnName(s, id) in u.connections && u.connections[ConnName(s, id)] == id
    requires Elsewhere(s, t, id, t.entries[id].fd) && Owns(s, id, t.entries[id].fd)
    requires t.entries[id].loop == LoopOf(s.threads, id)
    ensures Inv(t)
  {
    ShapeKept(u, t, id);
    Conclude(s, t, id);
  }

  // ---------------------------------------------------------------- the loops' own actions

  lemma PollKeeps(s: Server, l: LoopId, ready: seq<ConnId>)
    requires Inv(s) && S.Enabled(s, Poll(l, ready))
    ensures Inv(Next(s, Poll(l, ready)))
  {
    hide Inv;
    var t := Next(s, Poll(l, ready));
    InvLoop(s, l);
    SameEntriesLoop(s, t, l);
    forall i | 0 <= i < |ready|
      ensures ActiveOk(t, l, ready[i])
    {
      assert Reports(s, l, ready[i]);
      InvEntry(s, ready[i]);
    }
    assert LoopOk(t, l);
    WorkKeeps(s, t, l);
  }

  lemma EndDispatchKeeps(s: Server, l: LoopId)
    requires Inv(s) && S.Enabled(s, EndDispatch(l))
    ensures Inv(Next(s, EndDispatch(l)))
  {
    hide HandleChannel, Call1, NewConnection, FactsOk, P.Inv, SetConn, DoCall, FdsOk, MapOk;
    var t := Next(s, EndDispatch(l));
    assert LoopOk(s, l);
    assert Todo(t.loops[l]) == Todo(s.loops[l]);
    assert Held(t.loops[l]) == Held(s.loops[l]);
    SameEntriesLoop(s, t, l);
    assert LoopOk(t, l);
    WorkKeeps(s, t, l);
  }

  lemma EndFunctorsKeeps(s: Server, l: LoopId)
    requires Inv(s) && S.Enabled(s, EndFunctors(l))
    ensures Inv(Next(s, EndFunctors(l)))
  {
    var t := Next(s, EndFunctors(l));
    assert LoopOk(s, l);
    SameEntriesLoop(s, t, l);
    assert LoopOk(t, l);
    WorkKeeps(s, t, l);
  }

  lemma NothingBound(l: LoopState, id: ConnId)
    requires forall f :: f in Held(l) && f.id == id ==> f.Delivery?
    ensures multiset(Todo(l))[Established(id)] == 0
    ensures multiset(Todo(l))[RemoveInLoop(id)] == 0
    ensures multiset(Todo(l))[Destroyed(id)] == 0
  {
    forall f | f in Todo(l) && IsTask(f)
      ensures f.id != id
    {
      assert f in Held(l);
    }
    assert IsTask(Established(id)) && IsTask(RemoveInLoop(id)) && IsTask(Destroyed(id));
  }

  /** Nobody refers to a connection only when it has been destroyed. */
  lemma UnreferencedIsDestroyed(s: Server, id: ConnId)
    requires Inv(s) && id in s.entries && !Referenced(s, id)
    ensures EntryOk(s, id) && s.entries[id].conn.state == Disconnected && s.entries[id].conn.index == Pollers.New
    ensures s.entries[id].destroyed == 1
  {
    hide Inv, LoopOf, ConnName, P.Inv;
    InvEntry(s, id);
    NothingBound(s.loops[s.entries[id].loop], id);
    NothingBound(s.loops[BASE], id);
  }

  lemma ReleaseKeeps(s: Server, id: ConnId)
    requires Inv(s) && S.Enabled(s, Release(id))
    ensures Inv(Next(s, Release(id)))
  {
    var t := Next(s, Release(id));
    UnreferencedIsDestroyed(s, id);
    ReleasedEntries(s, id);
    forall l | 0 <= l < |t.loops|
      ensures LoopOk(t, l)
    {
      assert LoopOk(s, l);
      ReleasedLoop(s, t, id, l);
    }
    ReleasedKeys(s, t, id);
  }

  lemma ReleasedEntries(s: Server, id: ConnId)
    requires |s.loops| > 0 && (forall d :: d in s.entries ==> d > 0 && EntryOk(s, d))
    requires S.Enabled(s, Release(id))
    requires s.entries[id].conn.state == Disconnected && s.entries[id].conn.index == Pollers.New
    ensures var t := Next(s, Release(id));
            |t.loops| > 0 && forall d :: d in t.entries ==> d > 0 && EntryOk(t, d)
  {
    var t := Next(s, Release(id));
    forall d | d in t.entries
      ensures d > 0 && EntryOk(t, d)
    {
      ReleasedEntry(s, t, id, d);
    }
  }

  lemma ReleasedKeys(s: Server, t: Server, id: ConnId)
    requires Shape(s) && MapOk(s) && FdsOk(s) && S.Enabled(s, Release(id)) && t == Next(s, Release(id))
    ensures Shape(t) && MapOk(t) && FdsOk(t)
  {
    assert forall n :: ConnName(t, n) == ConnName(s, n);
  }

  lemma ReleasedEntry(s: Server, t: Server, id: ConnId, d: ConnId)
    requires |s.loops| > 0 && d in s.entries && d > 0 && EntryOk(s, d)
    requires S.Enabled(s, Release(id)) && t == Next(s, Release(id))
    requires s.entries[id].conn.state == Disconnected && s.entries[id].conn.index == Pollers.New
    ensures EntryOk(t, d)
  {
    ReleasedFacts(s, t, id, d);
  }

  lemma ReleasedFacts(s: Server, t: Server, id: ConnId, d: ConnId)
    requires |s.loops| > 0 && S.Enabled(s, Release(id)) && t == Next(s, Release(id)) && CanTouch(s, d)
    ensures FactsOf(t, d) == if d == id then FactsOf(s, d).(freed := true) else FactsOf(s, d)
  {
    hide Todo, SetConn, QueueOn;
    assert ConnName(t, d) == ConnName(s, d);
  }

  lemma ReleasedLoop(s: Server, t: Server, id: ConnId, l: LoopId)
    requires l < |s.loops| && LoopOk(s, l) && S.Enabled(s, Release(id)) && t == Next(s, Release(id))
    ensures LoopOk(t, l)
  {
    forall f | f in Held(t.loops[l])
      ensures FunctorOk(t, l, f)
    {
      assert FunctorOk(s, l, f);
    }
    forall i | 0 <= i < |t.loops[l].active|
      ensures ActiveOk(t, l, t.loops[l].active[i])
    {
      assert ActiveOk(s, l, s.loops[l].active[i]);
    }
    forall fd | fd in t.loops[l].channels
      ensures ChannelOk(t, l, fd, t.loops[l].channels[fd])
    {
      assert ChannelOk(s, l, fd, s.loops[l].channels[fd]);
    }
  }

  // ---------------------------------------------------------------- every action

  lemma ActionKeeps(s: Server, a: Action)
    requires Inv(s) && SendingOk(s) && S.Enabled(s, a)
    ensures Inv(Next(s, a))
  {
    hide Inv, Next, S.Enabled, SendingOk;
    match a
    case Incoming(fd, cfg, calls) => IncomingKeeps(s, fd, cfg, calls);
    case Poll(l, ready) => PollKeeps(s, l, ready);
    case Dispatch(l, revents, env) => DispatchKeeps(s, l, revents, env);
    case EndDispatch(l) => EndDispatchKeeps(s, l);
    case RunFunctor(l, calls, w) => RunFunctorKeeps(s, l, calls, w);
    case EndFunctors(l) => EndFunctorsKeeps(s, l);
    case OwnCall(id, call) => OwnCallKeeps(s, id, call);
    case SendCheck(t, id, msg) => SendCheckKeeps(s, t, id, msg);
    case SendPush(t) => SendPushKeeps(s, t);
    case Release(id) => ReleaseKeeps(s, id);
  }
}
