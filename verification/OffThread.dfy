/** `send` and `shutdown` called from other threads, interleaved with the connection's loop.

    Such a `send` looks at the state and then pushes `sendInLoop`; such a `shutdown` looks at the
    state, stores `kDisconnecting`, and then pushes `shutdownInLoop`. Each of these is a turn of its
    own, so the loop and other callers may come between any two of them. The loop alternates between
    handling events and running the batch of functors it swapped out. Messages keep their order, but
    the half-close may overtake them and may happen twice; the last four theorems say exactly when. */
module OffThread {
  import opened Kernel
  import opened Pollers
  import opened ConnectionModel
  import opened ConnectionProofs
  import opened ConnectionEffects

  type Thread = nat

  datatype Task = SendTask(msg: Bytes) | ShutdownTask

  /** A thread that has seen `kConnected`: before the push of its message, before its store, or
      between its store and its push. */
  datatype Caller = Sending(msg: Bytes) | Storing | Queueing

  /** `queue` is the unrun rest of the swapped batch (its first `batch` tasks), then
      `pendingFunctors_`. `late` counts messages that reached `sendInLoop` after the half-close. */
  datatype Cross = Cross(c: Conn, queue: seq<Task>, batch: nat, callers: map<Thread, Caller>, late: nat)

  datatype Turn =
    | SendCheck(t: Thread, msg: Bytes)      // TcpConnection.cc:119
    | ShutdownCheck(t: Thread)              // TcpConnection.cc:183
    | ShutdownStore(t: Thread)              // TcpConnection.cc:184
    | Push(t: Thread)                       // TcpConnection.cc:124 or 185
    | Swap                                  // doPendingFunctors takes over what is pending
    | RunTask(w: WriteChoice)               // one functor of the batch
    | Handle(revents: Revents, env: Env)    // one event, with the callbacks it runs
    | Own(call: Call)                       // other user code on the loop
    | Destroy                               // connectDestroyed, after a close

  predicate Can(s: Cross, turn: Turn) {
    match turn
    case SendCheck(t, _) => t !in s.callers
    case ShutdownCheck(t) => t !in s.callers
    case ShutdownStore(t) => t in s.callers && s.callers[t].Storing?
    case Push(t) => t in s.callers && !s.callers[t].Storing?
    case Swap => s.batch == 0
    case RunTask(_) => 0 < s.batch <= |s.queue|
    case Handle(_, _) => s.batch == 0 && s.c.kernel.Some?
    case Own(_) => true
    case Destroy => s.c.closes > 0 && s.c.index != New && s.c.state != Connected
  }

  function Pushed(s: Cross, t: Thread): Cross
    requires Can(s, Push(t))
  {
    s.(queue := s.queue + [if s.callers[t].Sending? then SendTask(s.callers[t].msg) else ShutdownTask],
       callers := s.callers - {t})
  }

  function Ran(s: Cross, w: WriteChoice): Cross
    requires Can(s, RunTask(w))
  {
    var rest := s.(queue := s.queue[1..], batch := s.batch - 1);
    match s.queue[0]
    case SendTask(msg) => rest.(c := SendInLoop(s.c, msg, w), late := s.late + if s.c.fins > 0 then 1 else 0)
    case ShutdownTask => rest.(c := ShutdownInLoop(s.c))
  }

  function Do(s: Cross, turn: Turn): Cross
    requires Can(s, turn)
  {
    match turn
    case SendCheck(t, msg) => if s.c.state == Connected then s.(callers := s.callers[t := Sending(msg)]) else s
    case ShutdownCheck(t) => if s.c.state == Connected then s.(callers := s.callers[t := Storing]) else s
    case ShutdownStore(t) => s.(c := s.c.(state := Disconnecting), callers := s.callers[t := Queueing])
    case Push(t) => Pushed(s, t)
    case Swap => s.(batch := |s.queue|)
    case RunTask(w) => Ran(s, w)
    case Handle(revents, env) => s.(c := HandleEvent(s.c, revents, env))
    case Own(call) => s.(c := DoCall(s.c, call))
    case Destroy => s.(c := ConnectDestroyed(s.c, []))
  }

  predicate Possible(s: Cross, turns: seq<Turn>)
    decreases |turns|
  {
    turns == [] || (Can(s, turns[0]) && Possible(Do(s, turns[0]), turns[1..]))
  }

  function Play(s: Cross, turns: seq<Turn>): Cross
    requires Possible(s, turns)
    decreases |turns|
  {
    if turns == [] then s else Play(Do(s, turns[0]), turns[1..])
  }

  lemma {:induction false} PlayConcat(s: Cross, a: seq<Turn>, b: seq<Turn>)
    requires Possible(s, a) && Possible(Play(s, a), b)
    ensures Possible(s, a + b) && Play(s, a + b) == Play(Play(s, a), b)
    decreases |a|
  {
    if a == [] {
      assert a + b == b;
    } else {
      assert (a + b)[1..] == a[1..] + b;
      PlayConcat(Do(s, a[0]), a[1..], b);
    }
  }

  /** A schedule that begins with `turn`. */
  lemma First(s: Cross, turn: Turn, rest: seq<Turn>) returns (turns: seq<Turn>)
    requires Can(s, turn) && Possible(Do(s, turn), rest)
    ensures Possible(s, turns) && Play(s, turns) == Play(Do(s, turn), rest)
  {
    turns := [turn] + rest;
    assert turns[1..] == rest;
  }

  // ---------------------------------------------------------------- order

  function Messages(queue: seq<Task>): seq<Bytes> {
    if queue == [] then []
    else (if queue[0].SendTask? then [queue[0].msg] else []) + Messages(queue[1..])
  }

  lemma {:induction false} MessagesConcat(a: seq<Task>, b: seq<Task>)
    ensures Messages(a + b) == Messages(a) + Messages(b)
  {
    if a == [] {
      assert a + b == b;
    } else {
      assert (a + b)[1..] == a[1..] + b;
      MessagesConcat(a[1..], b);
      var first := if a[0].SendTask? then [a[0].msg] else [];
      assert first + (Messages(a[1..]) + Messages(b)) == (first + Messages(a[1..])) + Messages(b);
    }
  }

  lemma QueuedLast(queue: seq<Task>, task: Task)
    ensures Messages(queue + [task]) == Messages(queue) + if task.SendTask? then [task.msg] else []
  {
    MessagesConcat(queue, [task]);
    assert Messages([task]) == (if task.SendTask? then [task.msg] else []) + Messages([]);
  }

  predicate Subsequence(a: seq<Bytes>, b: seq<Bytes>)
    decreases |b|
  {
    a == [] || (b != [] && (Subsequence(a, b[1..]) || (a[0] == b[0] && Subsequence(a[1..], b[1..]))))
  }

  function Flatten(a: seq<Bytes>): Bytes {
    if a == [] then [] else a[0] + Flatten(a[1..])
  }

  /** The message that a turn pushes ... */
  function SentNow(s: Cross, turn: Turn): seq<Bytes>
    requires Can(s, turn)
  {
    if turn.Push? && s.callers[turn.t].Sending? then [s.callers[turn.t].msg] else []
  }

  /** ... takes off the queue ... */
  function RunNow(s: Cross, turn: Turn): seq<Bytes>
    requires Can(s, turn)
  {
    if turn.RunTask? && s.queue[0].SendTask? then [s.queue[0].msg] else []
  }

  /** ... and does not give up: the connection is not closed, and the message either waits behind others or
      finds the socket open and not broken. */
  function KeptNow(s: Cross, turn: Turn): seq<Bytes>
    requires Can(s, turn)
  {
    if turn.RunTask? && s.queue[0].SendTask? && !GivesUp(s.c, turn.w) then [s.queue[0].msg] else []
  }

  /** What a turn adds to the accepted bytes: one kept message, or what the loop's own callbacks send. */
  function GainedNow(s: Cross, turn: Turn): seq<Bytes>
    requires Can(s, turn)
  {
    var (before, after) := (s.c.accepted, Do(s, turn).c.accepted);
    if turn.RunTask? then KeptNow(s, turn)
    else if |before| < |after| then [after[|before|..]] else []
  }

  /** The messages that other threads push during a run, in the order of the pushes, which for one
      thread is the order of its calls. */
  function Sent(s: Cross, turns: seq<Turn>): seq<Bytes>
    requires Possible(s, turns)
    decreases |turns|
  {
    if turns == [] then [] else SentNow(s, turns[0]) + Sent(Do(s, turns[0]), turns[1..])
  }

  function Kept(s: Cross, turns: seq<Turn>): seq<Bytes>
    requires Possible(s, turns)
    decreases |turns|
  {
    if turns == [] then [] else KeptNow(s, turns[0]) + Kept(Do(s, turns[0]), turns[1..])
  }

  function Gained(s: Cross, turns: seq<Turn>): seq<Bytes>
    requires Possible(s, turns)
    decreases |turns|
  {
    if turns == [] then [] else GainedNow(s, turns[0]) + Gained(Do(s, turns[0]), turns[1..])
  }

  /** The stream equations survive, and accepted bytes are only ever added to. */
  predicate Onward(a: Conn, b: Conn) {
    (Streams(a) ==> Streams(b)) && a.accepted <= b.accepted
  }

  lemma SendOnward(c: Conn, msg: Bytes, w: WriteChoice)
    ensures Onward(c, SendInLoop(c, msg, w))
    ensures SendInLoop(c, msg, w).accepted == c.accepted + if GivesUp(c, w) then [] else msg
  {
    SendEffect(c, msg, w);
    if Streams(c) {
      SendStreams(c, msg, w);
    }
  }

  lemma WriteOnward(c: Conn, w: WriteChoice)
    ensures Onward(c, HandleWrite(c, w))
  {
    if Streams(c) {
      WriteStreams(c, w);
    }
  }

  lemma CallOnward(c: Conn, call: Call)
    ensures Onward(c, DoCall(c, call))
  {
    match call
    case CallSend(msg, w) => SendOnward(c, msg, w);
    case CallShutdown =>
    case CallRetrieve(len) =>
      var n := Min(len, |c.input|);
      assert (c.consumed + c.input[..n]) + c.input[n..] == c.consumed + c.input;
  }

  lemma {:induction false} CallsOnward(c: Conn, calls: seq<Call>)
    ensures Onward(c, DoCalls(c, calls))
    decreases |calls|
  {
    if calls != [] {
      CallOnward(c, calls[0]);
      CallsOnward(DoCall(c, calls[0]), calls[1..]);
    }
  }

  lemma CloseOnward(c: Conn, calls: seq<Call>)
    ensures Onward(c, HandleClose(c, calls))
  {
    CallsOnward(DisableAll(c.(state := Disconnected)).(downs := c.downs + 1), calls);
  }

  lemma ReadOnward(c: Conn, arrival: Arrival, calls: seq<Call>)
    ensures Onward(c, HandleRead(c, arrival, calls))
  {
    CloseOnward(c, calls);
    if arrival.Data? {
      assert c.consumed + (c.input + arrival.bytes) == (c.consumed + c.input) + arrival.bytes;
      CallsOnward(c.(input := c.input + arrival.bytes, received := c.received + arrival.bytes), calls);
    }
  }

  lemma EventOnward(c: Conn, revents: Revents, env: Env)
    ensures Onward(c, HandleEvent(c, revents, env))
  {
    var c1 := if revents.epollhup && !revents.epollin then HandleClose(c, env.closeCalls) else c;
    var c2 := if revents.epollin || revents.epollpri then HandleRead(c1, env.arrival, env.readCalls) else c1;
    CloseOnward(c, env.closeCalls);
    ReadOnward(c1, env.arrival, env.readCalls);
    WriteOnward(c2, env.w);
  }

  lemma TurnOnward(s: Cross, turn: Turn)
    requires Can(s, turn)
    ensures Onward(s.c, Do(s, turn).c)
    ensures Do(s, turn).c.accepted == s.c.accepted + Flatten(GainedNow(s, turn))
  {
    match turn
    case RunTask(w) =>
      if s.queue[0].SendTask? {
        SendOnward(s.c, s.queue[0].msg, w);
      }
    case Handle(revents, env) => EventOnward(s.c, revents, env);
    case Own(call) => CallOnward(s.c, call);
    case _ =>
  }

  /** A turn takes messages off the front of the queue and puts them on at its end. */
  lemma TurnQueues(s: Cross, turn: Turn)
    requires Can(s, turn)
    ensures Messages(s.queue) + SentNow(s, turn) == RunNow(s, turn) + Messages(Do(s, turn).queue)
  {
    if turn.Push? {
      QueuedLast(s.queue, if s.callers[turn.t].Sending? then SendTask(s.callers[turn.t].msg) else ShutdownTask);
    }
  }

  lemma Regroup(a: seq<Bytes>, b: seq<Bytes>, c: seq<Bytes>, d: seq<Bytes>, later: seq<Bytes>)
    requires a + b == c + d
    ensures a + (b + later) == c + (d + later)
  {
    assert a + (b + later) == (a + b) + later;
    assert c + (d + later) == (c + d) + later;
  }

  /** So the messages still to be handled lose only those that the turn runs, from the front. */
  lemma TurnLeaves(s: Cross, turns: seq<Turn>)
    requires turns != [] && Possible(s, turns)
    ensures var s1 := Do(s, turns[0]);
            Messages(s.queue) + Sent(s, turns)
            == RunNow(s, turns[0]) + (Messages(s1.queue) + Sent(s1, turns[1..]))
  {
    var s1 := Do(s, turns[0]);
    TurnQueues(s, turns[0]);
    Regroup(Messages(s.queue), SentNow(s, turns[0]), RunNow(s, turns[0]), Messages(s1.queue), Sent(s1, turns[1..]));
  }

  /** At most one message is put in front of both. */
  lemma SubsequenceGrows(now: seq<Bytes>, later: seq<Bytes>, front: seq<Bytes>, rest: seq<Bytes>)
    requires Subsequence(later, rest) && |front| <= 1 && (now == [] || now == front)
    ensures Subsequence(now + later, front + rest)
  {
    if front == [] {
      assert front + rest == rest && now + later == later;
    } else {
      assert (front + rest)[1..] == rest;
      if now == [] {
        assert now + later == later;
      } else {
        assert (now + later)[1..] == later;
      }
    }
  }

  lemma {:induction false} FlattenConcat(a: seq<Bytes>, b: seq<Bytes>)
    ensures Flatten(a + b) == Flatten(a) + Flatten(b)
  {
    if a == [] {
      assert a + b == b;
    } else {
      assert (a + b)[1..] == a[1..] + b;
      FlattenConcat(a[1..], b);
      assert a[0] + (Flatten(a[1..]) + Flatten(b)) == (a[0] + Flatten(a[1..])) + Flatten(b);
    }
  }

  /** Messages sent from other threads are accepted whole and in the order of their pushes, whatever
      calls, events and closes come between; what is accepted is these and what the loop's own
      callbacks send; and what the kernel took, then what is buffered, is exactly the accepted bytes. */
  lemma {:induction false} SendsKeepOrder(s: Cross, turns: seq<Turn>)
    requires Streams(s.c) && Possible(s, turns)
    ensures Subsequence(Kept(s, turns), Messages(s.queue) + Sent(s, turns))
    ensures Subsequence(Kept(s, turns), Gained(s, turns))
    ensures Play(s, turns).c.accepted == s.c.accepted + Flatten(Gained(s, turns))
    ensures Streams(Play(s, turns).c)
    decreases |turns|
  {
    if turns != [] {
      var s1 := Do(s, turns[0]);
      TurnOnward(s, turns[0]);
      SendsKeepOrder(s1, turns[1..]);
      TurnLeaves(s, turns);
      OrderStep(s, turns);
      FlattenStep(s.c.accepted, GainedNow(s, turns[0]), Gained(s1, turns[1..]));
    }
  }

  lemma OrderStep(s: Cross, turns: seq<Turn>)
    requires turns != [] && Possible(s, turns)
    requires var s1 := Do(s, turns[0]);
             && Subsequence(Kept(s1, turns[1..]), Messages(s1.queue) + Sent(s1, turns[1..]))
             && Subsequence(Kept(s1, turns[1..]), Gained(s1, turns[1..]))
    ensures var s1 := Do(s, turns[0]);
            Subsequence(Kept(s, turns), RunNow(s, turns[0]) + (Messages(s1.queue) + Sent(s1, turns[1..])))
    ensures Subsequence(Kept(s, turns), Gained(s, turns))
  {
    var s1 := Do(s, turns[0]);
    var now, later := KeptNow(s, turns[0]), Kept(s1, turns[1..]);
    SubsequenceGrows(now, later, RunNow(s, turns[0]), Messages(s1.queue) + Sent(s1, turns[1..]));
    SubsequenceGrows(now, later, GainedNow(s, turns[0]), Gained(s1, turns[1..]));
  }

  lemma FlattenStep(accepted: Bytes, now: seq<Bytes>, later: seq<Bytes>)
    ensures (accepted + Flatten(now)) + Flatten(later) == accepted + Flatten(now + later)
  {
    FlattenConcat(now, later);
  }

  // ---------------------------------------------------------------- before the first store

  /** While the connection is up, nobody has stored yet: everything queued is a message, nothing is
      late, and the coupling holds. */
  predicate Calm(s: Cross) {
    && s.batch <= |s.queue|
    && (s.c.state == Connected ==>
          && Inv(s.c) && s.late == 0
          && (forall i :: 0 <= i < |s.queue| ==> s.queue[i].SendTask?)
          && (forall t :: t in s.callers ==> !s.callers[t].Queueing?))
  }

  lemma {:induction false} CallsNotBack(c: Conn, calls: seq<Call>)
    requires c.state != Connected
    ensures DoCalls(c, calls).state != Connected
    decreases |calls|
  {
    if calls != [] {
      CallsNotBack(DoCall(c, calls[0]), calls[1..]);
    }
  }

  lemma ReadNotBack(c: Conn, arrival: Arrival, calls: seq<Call>)
    requires c.state != Connected
    ensures HandleRead(c, arrival, calls).state != Connected
  {
    if arrival.Data? {
      CallsNotBack(c.(input := c.input + arrival.bytes, received := c.received + arrival.bytes), calls);
    }
    CallsNotBack(DisableAll(c.(state := Disconnected)).(downs := c.downs + 1), calls);
  }

  lemma CloseNotBack(c: Conn, calls: seq<Call>)
    ensures HandleClose(c, calls).state != Connected
  {
    CallsNotBack(DisableAll(c.(state := Disconnected)).(downs := c.downs + 1), calls);
  }

  lemma WriteNotBack(c: Conn, w: WriteChoice)
    ensures HandleWrite(c, w).state == c.state
  {
  }

  /** No event makes a connection `kConnected` again ... */
  lemma EventNotBack(c: Conn, revents: Revents, env: Env)
    requires c.state != Connected || !Plausible(revents)
    ensures HandleEvent(c, revents, env).state != Connected
  {
    hide HandleClose, HandleRead, HandleWrite;
    var c1 := if revents.epollhup && !revents.epollin then HandleClose(c, env.closeCalls) else c;
    var c2 := if revents.epollin || revents.epollpri then HandleRead(c1, env.arrival, env.readCalls) else c1;
    CloseNotBack(c, env.closeCalls);
    ReadNotBack(c1, env.arrival, env.readCalls);
    WriteNotBack(c2, env.w);
  }

  /** ... and a turn that leaves it `kConnected` keeps the coupling. */
  lemma CalmConn(s: Cross, turn: Turn)
    requires Calm(s) && Can(s, turn) && Do(s, turn).c.state == Connected
    ensures s.c.state == Connected && Inv(Do(s, turn).c)
  {
    match turn
    case RunTask(w) => CalmRuns(s, w);
    case Handle(revents, env) => CalmEvent(s.c, revents, env);
    case Own(call) => CalmCall(s.c, call);
    case _ =>
  }

  lemma CalmRuns(s: Cross, w: WriteChoice)
    requires Calm(s) && Can(s, RunTask(w)) && Ran(s, w).c.state == Connected
    ensures s.c.state == Connected && Inv(Ran(s, w).c)
  {
    if s.c.state == Connected {
      SendKeeps(s.c, s.queue[0].msg, w);
    }
  }

  lemma CalmEvent(c: Conn, revents: Revents, env: Env)
    requires c.state == Connected ==> Inv(c)
    requires HandleEvent(c, revents, env).state == Connected
    ensures c.state == Connected && Inv(HandleEvent(c, revents, env))
  {
    hide HandleEvent;
    if c.state != Connected || !Plausible(revents) {
      EventNotBack(c, revents, env);
      assert false;
    }
    EventKeeps(c, revents, env);
  }

  lemma CalmCall(c: Conn, call: Call)
    requires c.state == Connected ==> Inv(c)
    requires DoCall(c, call).state == Connected
    ensures c.state == Connected && Inv(DoCall(c, call))
  {
    if c.state == Connected {
      CallKeeps(c, call);
    }
  }

  lemma CalmStep(s: Cross, turn: Turn)
    requires Calm(s) && Can(s, turn)
    ensures Calm(Do(s, turn))
  {
    if Do(s, turn).c.state == Connected {
      CalmConn(s, turn);
    }
  }

  /** So `Calm` holds at every store that any run from a quiet start comes to. */
  lemma {:induction false} CalmRun(s: Cross, turns: seq<Turn>)
    requires Calm(s) && Possible(s, turns)
    ensures Calm(Play(s, turns))
    decreases |turns|
  {
    if turns != [] {
      CalmStep(s, turns[0]);
      CalmRun(Do(s, turns[0]), turns[1..]);
    }
  }

  // ---------------------------------------------------------------- schedules that go wrong

  /** Thread `t` is about to store `kDisconnecting`, on a connection that is still up. */
  predicate AtStore(s: Cross, t: Thread) {
    Calm(s) && s.c.state == Connected && Can(s, ShutdownStore(t))
  }

  /** Every run of a connection that has just been established comes to its first store like this. */
  lemma StoreReached(cfg: Config, calls: seq<Call>, turns: seq<Turn>, t: Thread)
    requires var s := Cross(ConnectEstablished(Fresh(cfg), calls), [], 0, map[], 0);
             && Possible(s, turns) && Play(s, turns).c.state == Connected
             && Can(Play(s, turns), ShutdownStore(t))
    ensures AtStore(Play(Cross(ConnectEstablished(Fresh(cfg), calls), [], 0, map[], 0), turns), t)
  {
    StepKeeps(Fresh(cfg), Establish(calls));
    CalmRun(Cross(ConnectEstablished(Fresh(cfg), calls), [], 0, map[], 0), turns);
  }

  predicate Holds(queue: seq<Task>) {
    exists i :: 0 <= i < |queue| && HasBytes(queue[i])
  }

  predicate HasBytes(task: Task) {
    task.SendTask? && task.msg != []
  }

  predicate AllSends(queue: seq<Task>) {
    forall i :: 0 <= i < |queue| ==> queue[i].SendTask?
  }

  /** Bytes wait in the output buffer, or the running batch still holds some that may have to. */
  predicate MayWait(s: Cross)
    requires s.batch <= |s.queue|
  {
    s.c.events.writing || Holds(s.queue[..s.batch])
  }

  lemma HoldsFirst(queue: seq<Task>)
    requires queue != []
    ensures Holds(queue) <==> HasBytes(queue[0]) || Holds(queue[1..])
  {
    if Holds(queue) && !HasBytes(queue[0]) {
      var i :| 0 <= i < |queue| && HasBytes(queue[i]);
      assert queue[1..][i - 1] == queue[i];
    }
    if Holds(queue[1..]) {
      var i :| 0 <= i < |queue[1..]| && HasBytes(queue[1..][i]);
      assert queue[i + 1] == queue[1..][i];
    }
  }

  lemma HoldsConcat(a: seq<Task>, b: seq<Task>)
    ensures Holds(a + b) <==> Holds(a) || Holds(b)
  {
    if Holds(a) {
      var i :| 0 <= i < |a| && HasBytes(a[i]);
      assert (a + b)[i] == a[i];
    }
    if Holds(b) {
      var i :| 0 <= i < |b| && HasBytes(b[i]);
      assert (a + b)[|a| + i] == b[i];
    }
    if Holds(a + b) {
      var i :| 0 <= i < |a + b| && HasBytes((a + b)[i]);
      if i < |a| {
        assert HasBytes(a[i]);
      } else {
        assert HasBytes(b[i - |a|]);
      }
    }
  }

  /** Between a store and its functor: nothing half-closed yet, the channel in step. */
  predicate Closing(c: Conn) {
    && c.state == Disconnecting && c.fins == 0
    && Agrees(c) && c.index == Added && c.events == Interest(true, c.output != [])
  }

  const BLOCKED := Refuse(EWOULDBLOCK)

  /** A message that the socket does not take yet stays in the buffer, if it has any bytes. */
  lemma SendBlocked(c: Conn, msg: Bytes)
    requires Closing(c)
    ensures var r := SendInLoop(c, msg, BLOCKED); Closing(r) && (r.events.writing <==> c.events.writing || msg != [])
  {
    if msg != [] {
      EnqueueEffect(c.(accepted := c.accepted + msg), msg);
    }
  }

  /** A socket that accepts nothing while `n` messages run leaves bytes waiting if it can. */
  lemma {:induction false} RunBlocked(s: Cross) returns (turns: seq<Turn>)
    requires Closing(s.c) && s.batch <= |s.queue| && AllSends(s.queue)
    ensures Possible(s, turns)
    ensures var r := Play(s, turns);
            && Closing(r.c) && (r.c.events.writing <==> MayWait(s))
            && r == s.(c := r.c, queue := s.queue[s.batch..], batch := 0)
    decreases s.batch
  {
    if s.batch == 0 {
      turns := [];
      assert s.queue[..0] == [] && s.queue[0..] == s.queue;
    } else {
      var s1 := Do(s, RunTask(BLOCKED));
      SendBlocked(s.c, s.queue[0].msg);
      RunShrinks(s.queue, s.batch);
      var more := RunBlocked(s1);
      turns := First(s, RunTask(BLOCKED), more);
    }
  }

  lemma RunShrinks(queue: seq<Task>, batch: nat)
    requires 0 < batch <= |queue| && AllSends(queue)
    ensures AllSends(queue[1..])
    ensures Holds(queue[..batch]) <==> HasBytes(queue[0]) || Holds(queue[1..][..batch - 1])
    ensures queue[1..][batch - 1..] == queue[batch..]
  {
    HoldsFirst(queue[..batch]);
    assert queue[..batch][1..] == queue[1..][..batch - 1];
  }

  /** The next batch, too. */
  lemma RunAllBlocked(s: Cross) returns (turns: seq<Turn>)
    requires Closing(s.c) && s.batch <= |s.queue| && AllSends(s.queue)
    ensures Possible(s, turns)
    ensures var r := Play(s, turns);
            && Closing(r.c) && (r.c.events.writing <==> s.c.events.writing || Holds(s.queue))
            && r == s.(c := r.c, queue := [], batch := 0)
  {
    hide Possible, Play;
    var first := RunBlocked(s);
    var s1 := Play(s, first);
    var s2 := Do(s1, Swap);
    assert AllSends(s2.queue);
    var second := RunBlocked(s2);
    assert s2.queue[..|s2.queue|] == s2.queue && s2.queue[|s2.queue|..] == [];
    HoldsConcat(s.queue[..s.batch], s.queue[s.batch..]);
    assert s.queue[..s.batch] + s.queue[s.batch..] == s.queue;
    var rest := First(s1, Swap, second);
    PlayConcat(s, first, rest);
    turns := first + rest;
  }

  /** A connection that another thread has begun to close, with nothing left to write. */
  predicate Drained(c: Conn) {
    c.state == Disconnecting && !c.events.writing && c.output == []
  }

  /** EPOLLOUT, and the kernel takes everything: the half-close happens here and now. */
  lemma Drain(s: Cross) returns (turns: seq<Turn>)
    requires Closing(s.c) && s.c.events.writing && s.batch == 0
    ensures Possible(s, turns)
    ensures var r := Play(s, turns); Drained(r.c) && r.c.fins == 1 && r == s.(c := r.c)
  {
    var env := Env(ReadError, [], [], Accept(|s.c.output|));
    assert s.c.output[|s.c.output|..] == [];
    turns := First(s, Handle(WRITABLE, env), []);
    assert HandleEvent(s.c, WRITABLE, env) == HandleWrite(s.c, env.w);
  }

  /** Every queued message is run, and what has to wait is drained before anything else is pushed. */
  lemma Settle(s: Cross) returns (turns: seq<Turn>)
    requires Closing(s.c) && s.batch <= |s.queue| && AllSends(s.queue)
    ensures Possible(s, turns)
    ensures var r := Play(s, turns);
            && Drained(r.c) && r.c.fins == (if s.c.events.writing || Holds(s.queue) then 1 else 0)
            && r == s.(c := r.c, queue := [], batch := 0)
  {
    turns := RunAllBlocked(s);
    var s1 := Play(s, turns);
    if s1.c.events.writing {
      var drain := Drain(s1);
      PlayConcat(s, turns, drain);
      turns := turns + drain;
    }
  }

  /** A caller pushes into an empty queue, and the loop runs its functor at once. */
  lemma PushAndRun(s: Cross, t: Thread) returns (turns: seq<Turn>)
    requires Drained(s.c) && s.queue == [] && s.batch == 0 && Can(s, Push(t))
    ensures Possible(s, turns)
    ensures var r := Play(s, turns);
            if s.callers[t].Queueing?
            then && Drained(r.c) && r.c.fins == s.c.fins + 1
                 && r == s.(c := r.c, callers := s.callers - {t})
            else r.late == s.late + if s.c.fins > 0 then 1 else 0
  {
    var s1 := Do(s, Push(t));
    var s2 := Do(s1, Swap);
    var last := First(s2, RunTask(BLOCKED), []);
    var more := First(s1, Swap, last);
    turns := First(s, Push(t), more);
  }

  /** After `t` has stored and pushed into a settled connection, one half-close has happened. */
  lemma HalfClosed(s: Cross, t: Thread) returns (turns: seq<Turn>)
    requires Closing(s.c) && s.batch <= |s.queue| && AllSends(s.queue) && t in s.callers && s.callers[t].Queueing?
    ensures Possible(s, turns)
    ensures var r := Play(s, turns);
            && Drained(r.c) && r.c.fins == (if s.c.events.writing || Holds(s.queue) then 2 else 1)
            && r == s.(c := r.c, queue := [], batch := 0, callers := s.callers - {t})
  {
    var first := Settle(s);
    var second := PushAndRun(Play(s, first), t);
    PlayConcat(s, first, second);
    turns := first + second;
  }

  /** A message still in its caller's hands can be pushed after that. */
  lemma SenderIsLate(s: Cross, t: Thread, u: Thread) returns (turns: seq<Turn>)
    requires AtStore(s, t) && u in s.callers && s.callers[u].Sending?
    ensures Possible(Do(s, ShutdownStore(t)), turns) && Play(Do(s, ShutdownStore(t)), turns).late > 0
  {
    var s1 := Do(s, ShutdownStore(t));
    var first := HalfClosed(s1, t);
    var second := PushAndRun(Play(s1, first), u);
    PlayConcat(s1, first, second);
    turns := first + second;
  }

  /** A message queued behind the running batch is overtaken when the batch leaves bytes to drain. */
  lemma QueuedIsLate(s: Cross) returns (turns: seq<Turn>)
    requires Closing(s.c) && s.batch < |s.queue| && AllSends(s.queue) && MayWait(s)
    ensures Possible(s, turns) && Play(s, turns).late > s.late
  {
    var first := RunBlocked(s);
    var s1 := Play(s, first);
    var second := Drain(s1);
    var s2 := Play(s1, second);
    var s3 := Do(s2, Swap);
    assert s3.queue[0] == s.queue[s.batch];
    var last := First(s3, RunTask(BLOCKED), []);
    var third := First(s2, Swap, last);
    PlayConcat(s1, second, third);
    PlayConcat(s, first, second + third);
    turns := first + (second + third);
  }

  /** After a half-close the messages of a batch are dropped, every one of them late. */
  lemma {:induction false} RunDropped(s: Cross) returns (turns: seq<Turn>)
    requires Drained(s.c) && s.c.fins > 0 && s.batch <= |s.queue| && AllSends(s.queue)
    ensures Possible(s, turns)
    ensures Play(s, turns) == s.(queue := s.queue[s.batch..], batch := 0, late := s.late + s.batch)
    decreases s.batch
  {
    if s.batch == 0 {
      turns := [];
      assert s.queue[0..] == s.queue;
    } else {
      RunShrinks(s.queue, s.batch);
      var more := RunDropped(Do(s, RunTask(BLOCKED)));
      turns := First(s, RunTask(BLOCKED), more);
    }
  }

  lemma RunAllDropped(s: Cross) returns (turns: seq<Turn>)
    requires Drained(s.c) && s.c.fins > 0 && s.batch <= |s.queue| && AllSends(s.queue)
    ensures Possible(s, turns)
    ensures Play(s, turns) == s.(queue := [], batch := 0, late := s.late + |s.queue|)
  {
    hide Possible, Play;
    var first := RunDropped(s);
    var s1 := Play(s, first);
    var s2 := Do(s1, Swap);
    assert AllSends(s2.queue) && s2.queue[|s2.queue|..] == [];
    var second := RunDropped(s2);
    var rest := First(s1, Swap, second);
    PlayConcat(s, first, rest);
    turns := first + rest;
  }

  /** Bytes that wait drain ahead of the queued `shutdownInLoop`, which then half-closes again. */
  lemma WaitingClosesTwice(s: Cross, t: Thread) returns (turns: seq<Turn>)
    requires AtStore(s, t) && (s.c.events.writing || Holds(s.queue))
    ensures Possible(Do(s, ShutdownStore(t)), turns) && Play(Do(s, ShutdownStore(t)), turns).c.fins > 1
  {
    turns := HalfClosed(Do(s, ShutdownStore(t)), t);
  }

  /** So do the bytes of a message that is pushed in between. */
  lemma SenderClosesTwice(s: Cross, t: Thread, u: Thread) returns (turns: seq<Turn>)
    requires AtStore(s, t) && u in s.callers && s.callers[u].Sending? && s.callers[u].msg != []
    ensures Possible(Do(s, ShutdownStore(t)), turns) && Play(Do(s, ShutdownStore(t)), turns).c.fins > 1
  {
    var s1 := Do(s, ShutdownStore(t));
    var s2 := Do(s1, Push(u));
    assert HasBytes(s2.queue[|s1.queue|]);
    assert Holds(s2.queue);
    var rest := HalfClosed(s2, t);
    turns := First(s1, Push(u), rest);
  }

  /** And a second caller that had seen `kConnected` half-closes even an idle connection again. */
  lemma SecondCallerClosesTwice(s: Cross, t: Thread, u: Thread) returns (turns: seq<Turn>)
    requires AtStore(s, t) && u != t && u in s.callers && s.callers[u].Storing?
    ensures Possible(Do(s, ShutdownStore(t)), turns) && Play(Do(s, ShutdownStore(t)), turns).c.fins > 1
  {
    var s1 := Do(s, ShutdownStore(t));
    var first := HalfClosed(s1, t);
    var s2 := Play(s1, first);
    var s3 := Do(s2, ShutdownStore(u));
    var last := PushAndRun(s3, u);
    var second := First(s2, ShutdownStore(u), last);
    PlayConcat(s1, first, second);
    turns := first + second;
  }

  // ---------------------------------------------------------------- and none that does otherwise

  predicate Past(c: Conn) {
    c.state == Disconnecting || c.state == Disconnected
  }

  /** After the first store the loop's callbacks change nothing on the output side, and an event
      writes and half-closes only if EPOLLOUT was watched. */
  lemma PastRead(c: Conn, arrival: Arrival, calls: seq<Call>)
    requires Past(c)
    ensures var r := HandleRead(c, arrival, calls);
            && Past(r) && r.output == c.output && r.fins == c.fins
            && (r.events.writing ==> c.events.writing)
  {
    if arrival.Data? {
      HalfClosedCalls(c.(input := c.input + arrival.bytes, received := c.received + arrival.bytes), calls);
    }
    PastClose(c, calls);
  }

  lemma PastClose(c: Conn, calls: seq<Call>)
    ensures var r := HandleClose(c, calls);
            Past(r) && r.output == c.output && r.fins == c.fins && !r.events.writing
  {
    HalfClosedCalls(DisableAll(c.(state := Disconnected)).(downs := c.downs + 1), calls);
  }

  lemma PastEvent(c: Conn, revents: Revents, env: Env)
    requires Past(c)
    ensures var r := HandleEvent(c, revents, env);
            Past(r) && (!c.events.writing ==> !r.events.writing && r.output == c.output && r.fins == c.fins)
  {
    hide HandleClose, HandleRead;
    var c1 := if revents.epollhup && !revents.epollin then HandleClose(c, env.closeCalls) else c;
    PastClose(c, env.closeCalls);
    PastRead(c1, env.arrival, env.readCalls);
  }

  lemma PastOther(c: Conn, call: Call)
    requires Past(c)
    ensures var r := DoCall(c, call); r == c.(input := r.input, consumed := r.consumed)
    ensures var r := ConnectDestroyed(c, []);
            Past(r) && r.output == c.output && r.fins == c.fins && r.events == c.events
  {
  }

  predicate NobodySends(s: Cross) {
    forall u :: u in s.callers ==> !s.callers[u].Sending?
  }

  /** The state that keeps late messages away: those queued run in the current batch, or nothing
      can be waiting when it ends. */
  predicate InTime(s: Cross, sends: nat) {
    && Past(s.c) && sends <= |s.queue| && s.batch <= |s.queue| && s.late == 0 && NobodySends(s)
    && (forall i :: 0 <= i < sends ==> s.queue[i].SendTask?)
    && (forall i :: sends <= i < |s.queue| ==> s.queue[i].ShutdownTask?)
    && (sends > 0 ==> s.c.fins == 0 && (s.batch >= sends || !MayWait(s)))
  }

  lemma InTimeRuns(s: Cross, sends: nat, w: WriteChoice)
    requires InTime(s, sends) && Can(s, RunTask(w))
    ensures InTime(Ran(s, w), if sends > 0 then sends - 1 else 0)
  {
    var q := s.queue[1..];
    assert forall i :: 0 <= i < |q| ==> q[i] == s.queue[i + 1];
    if sends > 0 && s.batch < sends {
      HoldsFirst(s.queue[..s.batch]);
      assert s.queue[..s.batch][1..] == q[..s.batch - 1];
    }
  }

  lemma InTimePushes(s: Cross, sends: nat, t: Thread)
    requires InTime(s, sends) && Can(s, Push(t))
    ensures InTime(Pushed(s, t), sends)
  {
    assert Pushed(s, t).queue[..s.batch] == s.queue[..s.batch];
  }

  lemma InTimeStep(s: Cross, sends: nat, turn: Turn) returns (left: nat)
    requires InTime(s, sends) && Can(s, turn)
    ensures InTime(Do(s, turn), left)
  {
    left := sends;
    match turn
    case RunTask(w) =>
      left := if sends > 0 then sends - 1 else 0;
      InTimeRuns(s, sends, w);
    case Push(t) => InTimePushes(s, sends, t);
    case Handle(revents, env) => PastEvent(s.c, revents, env);
    case Own(call) => PastOther(s.c, call);
    case Destroy => PastOther(s.c, CallShutdown);
    case _ =>
  }

  lemma {:induction false} StaysInTime(s: Cross, sends: nat, turns: seq<Turn>)
    requires InTime(s, sends) && Possible(s, turns)
    ensures Play(s, turns).late == 0
    decreases |turns|
  {
    if turns != [] {
      var left := InTimeStep(s, sends, turns[0]);
      StaysInTime(Do(s, turns[0]), left, turns[1..]);
    }
  }

  function Shutdowns(queue: seq<Task>): nat {
    if queue == [] then 0 else (if queue[0].ShutdownTask? then 1 else 0) + Shutdowns(queue[1..])
  }

  lemma {:induction false} ShutdownsLast(queue: seq<Task>, task: Task)
    ensures Shutdowns(queue + [task]) == Shutdowns(queue) + if task.ShutdownTask? then 1 else 0
  {
    if queue == [] {
      assert [] + [task] == [task] && [task][1..] == [];
    } else {
      assert (queue + [task])[1..] == queue[1..] + [task];
      ShutdownsLast(queue[1..], task);
    }
  }

  lemma {:induction false} NoShutdowns(queue: seq<Task>)
    requires AllSends(queue)
    ensures Shutdowns(queue) == 0
  {
    if queue != [] {
      assert forall i :: 0 <= i < |queue[1..]| ==> queue[1..][i] == queue[i + 1];
      NoShutdowns(queue[1..]);
    }
  }

  /** The state that half-closes at most once: nothing waits or ever will, and there is one
      `shutdownInLoop` at most, still in `t`'s hands, queued, or run. */
  predicate Once(s: Cross, t: Thread) {
    && Past(s.c) && s.batch <= |s.queue| && !s.c.events.writing && s.c.output == [] && !Holds(s.queue)
    && (forall u :: u in s.callers ==> match s.callers[u]
                                       case Sending(msg) => msg == []
                                       case Storing => false
                                       case Queueing => u == t)
    && s.c.fins + Shutdowns(s.queue) + (if t in s.callers && s.callers[t].Queueing? then 1 else 0) <= 1
  }

  lemma OnceRuns(s: Cross, t: Thread, w: WriteChoice)
    requires Once(s, t) && Can(s, RunTask(w))
    ensures Once(Ran(s, w), t)
  {
    HoldsFirst(s.queue);
  }

  lemma OncePushes(s: Cross, t: Thread, u: Thread)
    requires Once(s, t) && Can(s, Push(u))
    ensures Once(Pushed(s, u), t)
  {
    var task := if s.callers[u].Sending? then SendTask(s.callers[u].msg) else ShutdownTask;
    HoldsConcat(s.queue, [task]);
    ShutdownsLast(s.queue, task);
  }

  lemma OnceStep(s: Cross, t: Thread, turn: Turn)
    requires Once(s, t) && Can(s, turn)
    ensures Once(Do(s, turn), t)
  {
    match turn
    case RunTask(w) => OnceRuns(s, t, w);
    case Push(u) => OncePushes(s, t, u);
    case Handle(revents, env) => PastEvent(s.c, revents, env);
    case Own(call) => PastOther(s.c, call);
    case Destroy => PastOther(s.c, CallShutdown);
    case _ =>
  }

  lemma {:induction false} StaysOnce(s: Cross, t: Thread, turns: seq<Turn>)
    requires Once(s, t) && Possible(s, turns)
    ensures Play(s, turns).c.fins <= 1
    decreases |turns|
  {
    if turns != [] {
      OnceStep(s, t, turns[0]);
      StaysOnce(Do(s, turns[0]), t, turns[1..]);
    }
  }

  // ---------------------------------------------------------------- main results

  /** The store of another thread's `shutdown` can make a message that was sent before it arrive
      after the half-close, and so be dropped, exactly when a message is still in a caller's hands,
      or some are not yet in the running batch and bytes may be waiting. */
  lemma ShutdownOvertakesSends(s: Cross, t: Thread)
    requires AtStore(s, t)
    ensures (exists turns :: Possible(Do(s, ShutdownStore(t)), turns)
                             && Play(Do(s, ShutdownStore(t)), turns).late > 0)
            <==> !NobodySends(s) || (|s.queue| > s.batch && MayWait(s))
  {
    var s1 := Do(s, ShutdownStore(t));
    if !NobodySends(s) {
      var u :| u in s.callers && s.callers[u].Sending?;
      var turns := SenderIsLate(s, t, u);
    } else if |s.queue| > s.batch && MayWait(s) {
      var turns := QueuedIsLate(s1);
    } else {
      assert InTime(s1, |s.queue|);
      forall turns | Possible(s1, turns)
        ensures Play(s1, turns).late == 0
      {
        StaysInTime(s1, |s.queue|, turns);
      }
    }
  }

  /** Bytes wait in the buffer, in the queue, or in a caller's hands. */
  predicate EverWaits(s: Cross) {
    || s.c.events.writing || Holds(s.queue)
    || exists u :: u in s.callers && s.callers[u].Sending? && s.callers[u].msg != []
  }

  /** It can half-close the socket twice exactly when bytes wait anywhere, or when a second caller has
      seen `kConnected` too. */
  lemma ShutdownTwice(s: Cross, t: Thread)
    requires AtStore(s, t)
    ensures (exists turns :: Possible(Do(s, ShutdownStore(t)), turns)
                             && Play(Do(s, ShutdownStore(t)), turns).c.fins > 1)
            <==> EverWaits(s) || exists u :: u in s.callers && u != t && s.callers[u].Storing?
  {
    var s1 := Do(s, ShutdownStore(t));
    if s.c.events.writing || Holds(s.queue) {
      var turns := WaitingClosesTwice(s, t);
    } else if u :| u in s.callers && s.callers[u].Sending? && s.callers[u].msg != [] {
      var turns := SenderClosesTwice(s, t, u);
    } else if u :| u in s.callers && u != t && s.callers[u].Storing? {
      var turns := SecondCallerClosesTwice(s, t, u);
    } else {
      NoShutdowns(s.queue);
      assert Once(s1, t);
      forall turns | Possible(s1, turns)
        ensures Play(s1, turns).c.fins <= 1
      {
        StaysOnce(s1, t, turns);
      }
    }
  }

  // ---------------------------------------------------------------- the loop's own shutdown

  /** The loop's own `shutdown`, with the queue run empty behind it: it has half-closed once. */
  lemma OwnSettles(s: Cross) returns (turns: seq<Turn>)
    requires Calm(s) && s.c.state == Connected
    ensures var s1 := Do(s, Own(CallShutdown));
            && Possible(s1, turns)
            && var r := Play(s1, turns);
               && Drained(r.c) && r.c.fins == 1
               && r == s1.(c := r.c, queue := [], batch := 0, late := r.late)
               && (!s.c.events.writing ==> r.late == |s.queue|)
  {
    var s1 := Do(s, Own(CallShutdown));
    if s.c.events.writing {
      turns := Settle(s1);
    } else {
      turns := RunAllDropped(s1);
    }
  }

  /** It overtakes messages of other threads exactly when one is in its caller's hands, or some are
      queued, unless bytes wait and all of them are in the running batch. */
  lemma OwnShutdownOvertakesSends(s: Cross)
    requires Calm(s) && s.c.state == Connected
    ensures (exists turns :: Possible(Do(s, Own(CallShutdown)), turns)
                             && Play(Do(s, Own(CallShutdown)), turns).late > 0)
            <==> !NobodySends(s) || (if s.c.events.writing then |s.queue| > s.batch else s.queue != [])
  {
    var s1 := Do(s, Own(CallShutdown));
    if !NobodySends(s) {
      var u :| u in s.callers && s.callers[u].Sending?;
      var first := OwnSettles(s);
      var second := PushAndRun(Play(s1, first), u);
      PlayConcat(s1, first, second);
      assert Play(s1, first + second).late > 0;
    } else if s.c.events.writing && |s.queue| > s.batch {
      var turns := QueuedIsLate(s1);
    } else if !s.c.events.writing && s.queue != [] {
      var turns := OwnSettles(s);
      assert Play(s1, turns).late > 0;
    } else {
      assert InTime(s1, |s.queue|);
      forall turns | Possible(s1, turns)
        ensures Play(s1, turns).late == 0
      {
        StaysInTime(s1, |s.queue|, turns);
      }
    }
  }

  /** No `shutdownInLoop` is queued or on its way; a half-close, if there was one, left nothing. */
  predicate Single(s: Cross) {
    && Past(s.c) && s.batch <= |s.queue| && AllSends(s.queue)
    && (forall u :: u in s.callers ==> s.callers[u].Sending?)
    && (s.c.fins == 0 || (s.c.fins == 1 && !s.c.events.writing && s.c.output == []))
  }

  /** An event half-closes at most once, and only an empty buffer. */
  lemma PastDrain(c: Conn, revents: Revents, env: Env)
    requires Past(c) && c.fins == 0
    ensures var r := HandleEvent(c, revents, env);
            r.fins == 0 || (r.fins == 1 && !r.events.writing && r.output == [])
  {
    hide HandleClose, HandleRead;
    var c1 := if revents.epollhup && !revents.epollin then HandleClose(c, env.closeCalls) else c;
    PastClose(c, env.closeCalls);
    PastRead(c1, env.arrival, env.readCalls);
  }

  lemma SingleStep(s: Cross, turn: Turn)
    requires Single(s) && Can(s, turn)
    ensures Single(Do(s, turn))
  {
    match turn
    case RunTask(w) => assert forall i :: 0 <= i < |s.queue[1..]| ==> s.queue[1..][i] == s.queue[i + 1];
    case Handle(revents, env) =>
      PastEvent(s.c, revents, env);
      if s.c.fins == 0 {
        PastDrain(s.c, revents, env);
      }
    case Own(call) => PastOther(s.c, call);
    case Destroy => PastOther(s.c, CallShutdown);
    case _ =>
  }

  lemma {:induction false} StaysSingle(s: Cross, turns: seq<Turn>)
    requires Single(s) && Possible(s, turns)
    ensures Play(s, turns).c.fins <= 1
    decreases |turns|
  {
    if turns != [] {
      SingleStep(s, turns[0]);
      StaysSingle(Do(s, turns[0]), turns[1..]);
    }
  }

  /** It is the only half-close exactly when no other thread had seen `kConnected` for a `shutdown`. */
  lemma OwnShutdownTwice(s: Cross)
    requires Calm(s) && s.c.state == Connected
    ensures (exists turns :: Possible(Do(s, Own(CallShutdown)), turns)
                             && Play(Do(s, Own(CallShutdown)), turns).c.fins > 1)
            <==> exists u :: u in s.callers && s.callers[u].Storing?
  {
    var s1 := Do(s, Own(CallShutdown));
    if u :| u in s.callers && s.callers[u].Storing? {
      var first := OwnSettles(s);
      var s2 := Play(s1, first);
      var last := PushAndRun(Do(s2, ShutdownStore(u)), u);
      var second := First(s2, ShutdownStore(u), last);
      PlayConcat(s1, first, second);
      assert Play(s1, first + second).c.fins > 1;
    } else {
      assert Single(s1);
      forall turns | Possible(s1, turns)
        ensures Play(s1, turns).c.fins <= 1
      {
        StaysSingle(s1, turns);
      }
    }
  }
}
