/** What every run of the server keeps, in every interleaving of its loops.

    `FactsOf` gathers all the places that speak of one connection; `FactsOk` is its life cycle. An
    action speaks of one connection, so the proof shows that the others' facts stay, and then looks
    at that one alone. */
module ServerProofs {
  import opened Kernel
  import opened ConnectionModel
  import opened ServerModel
  import P = ConnectionProofs
  import Pollers
  import Names
  import opened ThreadPools

  datatype Facts = Facts(
    conn: Conn,
    mapped: bool,        // in connections_
    polled: bool,        // in its poller's channels_
    toEstablish: nat,    // connectEstablished functors still to run
    toRemove: nat,       // removeConnectionInLoop functors still to run
    toDestroy: nat,      // connectDestroyed functors still to run
    destroyed: nat,      // calls of connectDestroyed
    freed: bool
  )

  function FactsOf(s: Server, id: ConnId): Facts
    requires CanTouch(s, id) && |s.loops| > 0
  {
    var e := s.entries[id];
    var home := s.loops[e.loop];
    Facts(e.conn,
          ConnName(s, id) in s.connections && s.connections[ConnName(s, id)] == id,
          e.fd in home.channels && home.channels[e.fd] == id,
          multiset(Todo(home))[Established(id)],
          multiset(Todo(s.loops[BASE]))[RemoveInLoop(id)],
          multiset(Todo(home))[Destroyed(id)],
          e.destroyed, e.freed)
  }

  /** The life of a connection: queued to be established; up; closed and queued to be removed; out of
      the map and queued to be destroyed; destroyed. */
  predicate FactsOk(f: Facts) {
    && P.Inv(f.conn)
    && (f.polled <==> f.conn.index != Pollers.New)
    && match f.conn.state
       case Connecting =>
         f.mapped && !f.freed && f.destroyed == 0 && f.toEstablish == 1 && f.toRemove == 0 && f.toDestroy == 0
       case Connected =>
         f.mapped && !f.freed && f.destroyed == 0 && f.toEstablish == 0 && f.toRemove == 0 && f.toDestroy == 0
       case Disconnecting =>
         f.mapped && !f.freed && f.destroyed == 0 && f.toEstablish == 0 && f.toRemove == 0 && f.toDestroy == 0
       case Disconnected =>
         f.toEstablish == 0 &&
         if f.polled then
           && !f.freed && f.destroyed == 0
           && f.toRemove == (if f.mapped then 1 else 0) && f.toDestroy == (if f.mapped then 0 else 1)
         else
           !f.mapped && f.destroyed == 1 && f.toRemove == 0 && f.toDestroy == 0
  }

  /** Round robin over the I/O loops. */
  function LoopOf(threads: nat, id: ConnId): LoopId
    requires id > 0
  {
    Assigned(threads, Turn(threads, id - 1))
  }

  ghost predicate Shape(s: Server) {
    && |s.loops| == s.threads + 1 && |s.ipPort| <= 21
    && 1 <= s.nextConnId <= Names.INT_MAX + 1
    && s.next == Turn(s.threads, s.nextConnId - 1)
    && (forall id :: id in s.entries <==> 1 <= id < s.nextConnId)
  }

  predicate EntryOk(s: Server, id: ConnId)
    requires id in s.entries && id > 0 && |s.loops| > 0
  {
    CanTouch(s, id) && s.entries[id].loop == LoopOf(s.threads, id) && FactsOk(FactsOf(s, id))
  }

  /** A functor sits on the loop that may run it, and if it binds a reference its connection lives. */
  predicate FunctorOk(s: Server, l: LoopId, f: Functor) {
    && f.id in s.entries && (f.Delivery? || !s.entries[f.id].freed)
    && l == (if f.RemoveInLoop? then BASE else s.entries[f.id].loop)
    && (f.Notice? || f.Delivery? ==> s.entries[f.id].conn.state != Connecting)
  }

  /** A channel waiting to be dispatched belongs to a connection of this loop that is still up. */
  predicate ActiveOk(s: Server, l: LoopId, id: ConnId) {
    id in s.entries && s.entries[id].loop == l && P.Up(s.entries[id].conn)
  }

  predicate ChannelOk(s: Server, l: LoopId, fd: int, id: ConnId) {
    id in s.entries && s.entries[id].loop == l && s.entries[id].fd == fd
  }

  ghost predicate HeldOk(s: Server, l: LoopId)
    requires l < |s.loops|
  {
    forall f :: f in Held(s.loops[l]) ==> FunctorOk(s, l, f)
  }

  predicate ActivesOk(s: Server, l: LoopId)
    requires l < |s.loops|
  {
    var active := s.loops[l].active;
    && (forall i :: 0 <= i < |active| ==> ActiveOk(s, l, active[i]))
    && (forall i, j :: 0 <= i < j < |active| ==> active[i] != active[j])
  }

  predicate FiledOk(s: Server, l: LoopId)
    requires l < |s.loops|
  {
    var channels := s.loops[l].channels;
    forall fd :: fd in channels ==> ChannelOk(s, l, fd, channels[fd])
  }

  predicate PhaseOk(loop: LoopState) {
    && (loop.phase != Dispatching ==> loop.active == [])
    && (loop.phase != Running ==> loop.batch == [] && loop.ran == [])
  }

  ghost predicate LoopOk(s: Server, l: LoopId)
    requires l < |s.loops|
  {
    HeldOk(s, l) && ActivesOk(s, l) && FiledOk(s, l) && PhaseOk(s.loops[l])
  }

  ghost predicate MapOk(s: Server) {
    forall n :: n in s.connections ==> s.connections[n] in s.entries && n == ConnName(s, s.connections[n])
  }

  ghost predicate FdsOk(s: Server) {
    forall i, j :: i in s.entries && j in s.entries && i != j && !s.entries[i].freed && !s.entries[j].freed
                   ==> s.entries[i].fd != s.entries[j].fd
  }

  ghost predicate Inv(s: Server) {
    && Shape(s) && MapOk(s) && FdsOk(s)
    && (forall id :: id in s.entries ==> EntryOk(s, id))
    && (forall l :: 0 <= l < |s.loops| ==> LoopOk(s, l))
  }

  lemma InvShape(s: Server)
    requires Inv(s)
    ensures Shape(s)
  {
  }

  /** What the invariant says of one connection ... */
  lemma InvEntry(s: Server, id: ConnId)
    requires Inv(s) && id in s.entries
    ensures id > 0 && |s.loops| > 0 && EntryOk(s, id)
  {
  }

  /** ... and of one loop. */
  lemma InvLoop(s: Server, l: LoopId)
    requires Inv(s) && l < |s.loops|
    ensures LoopOk(s, l)
  {
  }

  // ---------------------------------------------------------------- the other connections

  /** From `a` to `b` a loop changed only what concerns connection `id` and its descriptor `fd`. */
  ghost predicate LoopElsewhere(a: LoopState, b: LoopState, id: ConnId, fd: int) {
    && b.phase == a.phase && b.active == a.active
    && (forall x :: x != fd ==> (x in b.channels <==> x in a.channels))
    && (forall x :: x != fd && x in a.channels ==> b.channels[x] == a.channels[x])
    && (fd in b.channels ==> b.channels[fd] == id || (fd in a.channels && b.channels[fd] == a.channels[fd]))
    && (forall f: Functor :: f.id != id ==> multiset(Todo(b))[f] == multiset(Todo(a))[f])
    && (forall f :: f in Held(b) && f.id != id ==> f in Held(a))
    && (b.phase != Running ==> b.batch == a.batch && b.ran == a.ran)
  }

  ghost predicate Elsewhere(s: Server, t: Server, id: ConnId, fd: int) {
    && t.name == s.name && t.ipPort == s.ipPort && t.threads == s.threads && |t.loops| == |s.loops|
    && (forall d :: d != id ==> (d in t.entries <==> d in s.entries))
    && (forall d :: d != id && d in s.entries ==> t.entries[d] == s.entries[d])
    && (forall n :: n != ConnName(s, id) ==> (n in t.connections <==> n in s.connections))
    && (forall n :: n != ConnName(s, id) && n in s.connections ==> t.connections[n] == s.connections[n])
    && (forall l :: 0 <= l < |s.loops| ==> LoopElsewhere(s.loops[l], t.loops[l], id, fd))
  }

  lemma ElsewhereTrans(s: Server, t: Server, u: Server, id: ConnId, fd: int)
    requires Elsewhere(s, t, id, fd) && Elsewhere(t, u, id, fd)
    ensures Elsewhere(s, u, id, fd)
  {
    forall l | 0 <= l < |s.loops|
      ensures LoopElsewhere(s.loops[l], u.loops[l], id, fd)
    {
      var a, b, c := s.loops[l], t.loops[l], u.loops[l];
      assert LoopElsewhere(a, b, id, fd) && LoopElsewhere(b, c, id, fd);
    }
  }

  /** The facts of every other connection stay as they are. */
  lemma OtherFacts(s: Server, t: Server, id: ConnId, fd: int, d: ConnId)
    requires Shape(s) && Elsewhere(s, t, id, fd)
    requires 0 < id <= Names.INT_MAX && d in s.entries && d != id && EntryOk(s, d)
    requires s.entries[d].fd == fd ==> s.entries[d].freed
    ensures d in t.entries && CanTouch(t, d) && FactsOf(t, d) == FactsOf(s, d)
  {
    if ConnName(s, d) == ConnName(s, id) {
      Names.NamesDistinct(s.name, s.ipPort, d, id);
    }
    var home := s.entries[d].loop;
    assert LoopElsewhere(s.loops[home], t.loops[home], id, fd);
    assert LoopElsewhere(s.loops[BASE], t.loops[BASE], id, fd);
    assert Established(d).id != id && RemoveInLoop(d).id != id && Destroyed(d).id != id;
  }

  /** Everything that speaks of `id` and is not in its facts: its functors' places, its turn in a
      dispatch, and the descriptors it is filed under. */
  ghost predicate Placed(s: Server, id: ConnId) {
    forall l :: 0 <= l < |s.loops| ==> PlacedOn(s, l, id)
  }

  ghost predicate PlacedOn(s: Server, l: LoopId, id: ConnId)
    requires l < |s.loops|
  {
    && (forall f :: f in Held(s.loops[l]) && f.id == id ==> FunctorOk(s, l, f))
    && (id in s.loops[l].active ==> ActiveOk(s, l, id))
    && (forall fd :: fd in s.loops[l].channels && s.loops[l].channels[fd] == id ==> ChannelOk(s, l, fd, id))
  }

  lemma InvPlaced(s: Server, id: ConnId)
    requires Inv(s)
    ensures Placed(s, id)
  {
    forall l | 0 <= l < |s.loops|
      ensures PlacedOn(s, l, id)
    {
      assert LoopOk(s, l);
    }
  }

  lemma OtherLoops(s: Server, t: Server, id: ConnId, fd: int, l: LoopId)
    requires Elsewhere(s, t, id, fd) && l < |s.loops| && LoopOk(s, l) && PlacedOn(t, l, id)
    ensures LoopOk(t, l)
  {
    var a, b := s.loops[l], t.loops[l];
    assert LoopElsewhere(a, b, id, fd);
    forall f | f in Held(b)
      ensures FunctorOk(t, l, f)
    {
      if f.id != id {
        assert FunctorOk(s, l, f);
      }
    }
    forall i | 0 <= i < |b.active|
      ensures ActiveOk(t, l, b.active[i])
    {
      assert ActiveOk(s, l, a.active[i]);
    }
    forall x | x in b.channels
      ensures ChannelOk(t, l, x, b.channels[x])
    {
      if b.channels[x] != id {
        assert ChannelOk(s, l, x, a.channels[x]);
      }
    }
  }

  /** `fd` belongs to `id` alone among the connections not yet freed. */
  ghost predicate Owns(s: Server, id: ConnId, fd: int) {
    forall d :: d in s.entries && d != id && s.entries[d].fd == fd ==> s.entries[d].freed
  }

  lemma OtherEntries(s: Server, t: Server, id: ConnId, d: ConnId)
    requires Inv(s) && id in t.entries && 0 < id <= Names.INT_MAX && Elsewhere(s, t, id, t.entries[id].fd)
    requires Owns(s, id, t.entries[id].fd)
    requires d in t.entries && d != id
    ensures EntryOk(t, d)
  {
    assert EntryOk(s, d);
    OtherFacts(s, t, id, t.entries[id].fd, d);
  }

  lemma OtherKeys(s: Server, t: Server, id: ConnId)
    requires MapOk(s) && FdsOk(s) && id in t.entries && Elsewhere(s, t, id, t.entries[id].fd)
    requires Owns(s, id, t.entries[id].fd)
    requires ConnName(s, id) in t.connections ==> t.connections[ConnName(s, id)] == id
    ensures MapOk(t) && FdsOk(t)
  {
  }

  /** An action that touches one live connection keeps the invariant if that connection's facts
      and places are right again. */
  lemma Conclude(s: Server, t: Server, id: ConnId)
    requires Inv(s) && id in t.entries && Elsewhere(s, t, id, t.entries[id].fd)
    requires Owns(s, id, t.entries[id].fd)
    requires Shape(t) && EntryOk(t, id) && Placed(t, id)
    requires ConnName(s, id) in t.connections ==> t.connections[ConnName(s, id)] == id
    ensures Inv(t)
  {
    OtherKeys(s, t, id);
    forall d | d in t.entries && d != id
      ensures EntryOk(t, d)
    {
      OtherEntries(s, t, id, d);
    }
    forall l | 0 <= l < |t.loops|
      ensures LoopOk(t, l)
    {
      assert LoopOk(s, l) && PlacedOn(t, l, id);
      OtherLoops(s, t, id, t.entries[id].fd, l);
    }
  }
}
