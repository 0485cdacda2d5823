/** What every run of a connection keeps, whatever the kernel and the user's callbacks do.

    The code couples `isWriting()`, the output buffer and the connection state without saying so;
    `Inv` is that coupling, and stream order, half-close and "no stuck bytes" all follow from it. */
module ConnectionProofs {
  import opened Kernel
  import opened Pollers
  import opened ConnectionModel

  predicate Up(c: Conn) {
    c.state == Connected || c.state == Disconnecting
  }

  /** The channel's index, its mask and the kernel's entry agree. */
  predicate Agrees(c: Conn) {
    && c.kernel == (if c.index == Added then Some(c.events) else None)
    && (c.index == Deleted ==> c.events == NO_EVENTS)
  }

  predicate Streams(c: Conn) {
    c.taken + c.output == c.accepted && c.consumed + c.input == c.received
  }

  predicate Inv(c: Conn) {
    && Agrees(c)
    && Streams(c)
    && match c.state
       case Connecting =>
         && c.index == New && c.events == NO_EVENTS && !c.tied
         && c.output == [] && c.fins == c.ups == c.downs == c.closes == 0
       case Connected =>
         && c.index == Added && c.tied && c.events == Interest(true, c.output != [])
         && c.fins == 0 && c.ups == 1 && c.downs == c.closes == 0
       case Disconnecting =>
         && c.index == Added && c.tied && c.events == Interest(true, c.output != [])
         && c.fins == (if c.output == [] then 1 else 0) && c.ups == 1 && c.downs == c.closes == 0
       case Disconnected =>
         && c.index != Added && c.events == NO_EVENTS
         && c.fins <= (if c.output == [] then 1 else 0) && c.ups == c.downs == c.closes == 1
  }

  // ---------------------------------------------------------------- every operation keeps it

  lemma EnqueueEffect(c: Conn, rest: Bytes)
    requires Agrees(c) && c.index == Added && c.events == Interest(true, c.output != []) && rest != []
    ensures Enqueue(c, rest) == c.(output := c.output + rest,
                                   events := Interest(true, true), kernel := Some(Interest(true, true)),
                                   queued := Enqueue(c, rest).queued)
  {
  }

  lemma EnqueueFrame(c: Conn, rest: Bytes)
    ensures var r := Enqueue(c, rest);
            && r.output == c.output + rest && r.taken == c.taken && r.accepted == c.accepted
            && r.input == c.input && r.consumed == c.consumed && r.received == c.received
  {
  }

  /** Sending and draining move bytes along without reordering them, in any state. */
  lemma SendStreams(c: Conn, msg: Bytes, w: WriteChoice)
    requires Streams(c)
    ensures Streams(SendInLoop(c, msg, w))
  {
    hide Enqueue;
    if !Discards(c, msg, w) {
      var c0 := c.(accepted := c.accepted + msg);
      var r := Write(c.fins > 0, |msg|, w);
      if Idle(c) && r.Wrote? {
        assert msg[..r.n] + msg[r.n..] == msg;
        assert c.taken + msg == (c.taken + msg[..r.n]) + msg[r.n..];
        EnqueueFrame(c0.(taken := c.taken + msg[..r.n]), msg[r.n..]);
      } else {
        assert (c.taken + c.output) + msg == c.taken + (c.output + msg);
        EnqueueFrame(c0, msg);
      }
    }
  }

  lemma WriteStreams(c: Conn, w: WriteChoice)
    requires Streams(c)
    ensures Streams(HandleWrite(c, w))
  {
    var r := Write(c.fins > 0, |c.output|, w);
    if r.Wrote? {
      assert c.taken + c.output == (c.taken + c.output[..r.n]) + c.output[r.n..];
    }
  }

  lemma SendKeeps(c: Conn, msg: Bytes, w: WriteChoice)
    requires Inv(c) && c.state != Connecting
    ensures Inv(SendInLoop(c, msg, w)) && SendInLoop(c, msg, w).state == c.state
  {
    SendStreams(c, msg, w);
    if !Discards(c, msg, w) {
      var c0 := c.(accepted := c.accepted + msg);
      var r := Write(c.fins > 0, |msg|, w);
      if Idle(c) && r.Wrote? {
        if r.n < |msg| {
          EnqueueEffect(c0.(taken := c.taken + msg[..r.n]), msg[r.n..]);
        }
      } else if msg != [] {
        EnqueueEffect(c0, msg);
      }
    }
  }

  lemma WriteKeeps(c: Conn, w: WriteChoice)
    requires Inv(c)
    ensures Inv(HandleWrite(c, w)) && HandleWrite(c, w).state == c.state
  {
    WriteStreams(c, w);
  }

  lemma CallKeeps(c: Conn, call: Call)
    requires Inv(c)
    ensures Inv(DoCall(c, call))
    ensures DoCall(c, call).state == (if call.CallShutdown? && c.state == Connected then Disconnecting else c.state)
  {
    match call
    case CallSend(msg, w) => if c.state == Connected { SendKeeps(c, msg, w); }
    case CallShutdown =>
    case CallRetrieve(len) =>
      var n := Min(len, |c.input|);
      assert (c.consumed + c.input[..n]) + c.input[n..] == c.consumed + c.input;
  }

  lemma {:induction false} CallsKeep(c: Conn, calls: seq<Call>)
    requires Inv(c)
    ensures Inv(DoCalls(c, calls))
    ensures DoCalls(c, calls).state == c.state || (c.state == Connected && DoCalls(c, calls).state == Disconnecting)
    decreases |calls|
  {
    if calls != [] {
      CallKeeps(c, calls[0]);
      CallsKeep(DoCall(c, calls[0]), calls[1..]);
    }
  }

  /** On a closed connection a callback can only go on reading what has already arrived. */
  lemma {:induction false} ClosedCalls(c: Conn, calls: seq<Call>)
    requires c.state == Disconnected && Streams(c)
    ensures DoCalls(c, calls) == c.(input := DoCalls(c, calls).input, consumed := DoCalls(c, calls).consumed)
    ensures Streams(DoCalls(c, calls))
    decreases |calls|
  {
    if calls != [] {
      if calls[0].CallRetrieve? {
        var n := Min(calls[0].len, |c.input|);
        assert (c.consumed + c.input[..n]) + c.input[n..] == c.consumed + c.input;
      }
      ClosedCalls(DoCall(c, calls[0]), calls[1..]);
    }
  }

  lemma CloseKeeps(c: Conn, calls: seq<Call>)
    requires Inv(c) && Up(c)
    ensures Inv(HandleClose(c, calls)) && HandleClose(c, calls).state == Disconnected
    ensures HandleClose(c, calls).index == Deleted
    ensures HandleClose(c, calls).queued == c.queued
  {
    ClosedCalls(DisableAll(c.(state := Disconnected)).(downs := c.downs + 1), calls);
  }

  lemma ReadKeeps(c: Conn, arrival: Arrival, calls: seq<Call>)
    requires Inv(c) && Up(c)
    ensures Inv(HandleRead(c, arrival, calls)) && HandleRead(c, arrival, calls).state != Connecting
    ensures HandleRead(c, arrival, calls).index != New
  {
    if arrival.Data? && arrival.bytes != [] {
      assert c.consumed + (c.input + arrival.bytes) == (c.consumed + c.input) + arrival.bytes;
      CallsKeep(c.(input := c.input + arrival.bytes, received := c.received + arrival.bytes), calls);
    } else if !arrival.ReadError? {
      CloseKeeps(c, calls);
    }
  }

  lemma EventKeeps(c: Conn, revents: Revents, env: Env)
    requires Inv(c) && Up(c) && Plausible(revents)
    ensures var r := HandleEvent(c, revents, env);
            && Inv(r) && r.state != Connecting && r.index != New
            && (c.state == Disconnecting ==> r.state != Connected)
  {
    var c1 := if revents.epollhup && !revents.epollin then HandleClose(c, env.closeCalls) else c;
    if revents.epollhup && !revents.epollin {
      CloseKeeps(c, env.closeCalls);
      WriteKeeps(c1, env.w);
    } else {
      ReadKeeps(c, env.arrival, env.readCalls);
      ReadMovesForward(c, env.arrival, env.readCalls);
      WriteKeeps(HandleRead(c, env.arrival, env.readCalls), env.w);
      WriteKeeps(c, env.w);
    }
  }

  lemma ReadMovesForward(c: Conn, arrival: Arrival, calls: seq<Call>)
    requires Inv(c) && Up(c)
    ensures c.state == Disconnecting ==> HandleRead(c, arrival, calls).state != Connected
  {
    if arrival.Data? && arrival.bytes != [] {
      assert c.consumed + (c.input + arrival.bytes) == (c.consumed + c.input) + arrival.bytes;
      CallsKeep(c.(input := c.input + arrival.bytes, received := c.received + arrival.bytes), calls);
    } else if !arrival.ReadError? {
      CloseKeeps(c, calls);
    }
  }

  /** One step keeps the coupling and moves the state only forward. */
  lemma StepKeeps(c: Conn, step: Step)
    requires Inv(c) && Enabled(c, step)
    ensures Inv(After(c, step))
    ensures Rank(c.state) <= Rank(After(c, step).state)
    ensures c.index != New && !step.Destroy? ==> After(c, step).index != New
  {
    match step
    case Establish(calls) =>
      CallsKeep(EnableReading(c.(state := Connected, tied := true)).(ups := c.ups + 1), calls);
    case UserCall(call) => CallKeeps(c, call);
    case Deliver(msg, w) => SendKeeps(c, msg, w);
    case Event(revents, env) => EventKeeps(c, revents, env);
    case Destroy(calls) =>
  }

  function Rank(s: State): nat {
    match s
    case Connecting => 0
    case Connected => 1
    case Disconnecting => 2
    case Disconnected => 3
  }

  /** The coupling holds, and the state has only moved forward, after every legal run. */
  lemma {:induction false} RunKeeps(c: Conn, steps: seq<Step>)
    requires Inv(c) && Legal(c, steps)
    ensures Inv(Exec(c, steps))
    ensures Rank(c.state) <= Rank(Exec(c, steps).state)
    decreases |steps|
  {
    if steps != [] {
      StepKeeps(c, steps[0]);
      RunKeeps(After(c, steps[0]), steps[1..]);
    }
  }

  // ---------------------------------------------------------------- main results

  /** Bytes reach the kernel in the order they were sent, with nothing lost, repeated or overtaken:
      what the kernel took, then what is buffered, is what was accepted. The same on the input side. */
  lemma StreamOrder(cfg: Config, steps: seq<Step>)
    requires Legal(Fresh(cfg), steps)
    ensures var c := Exec(Fresh(cfg), steps);
            c.taken + c.output == c.accepted && c.consumed + c.input == c.received
  {
    RunKeeps(Fresh(cfg), steps);
  }

  /** While the connection is up the kernel watches for EPOLLOUT exactly when bytes are waiting, so
      no byte is stuck and no empty buffer spins the loop; a closed connection is not watched at all. */
  lemma NoStuckBytes(cfg: Config, steps: seq<Step>)
    requires Legal(Fresh(cfg), steps)
    ensures var c := Exec(Fresh(cfg), steps);
            && (Up(c) ==> c.kernel.Some? && c.kernel.value.reading && (c.kernel.value.writing <==> c.output != []))
            && (!Up(c) ==> c.kernel.None?)
  {
    RunKeeps(Fresh(cfg), steps);
  }

  /** `shutdownWrite` happens at most once, only when every accepted byte has been written, and a
      requested one is never forgotten: it has happened, or bytes wait with EPOLLOUT watched. */
  lemma HalfClose(cfg: Config, steps: seq<Step>)
    requires Legal(Fresh(cfg), steps)
    ensures var c := Exec(Fresh(cfg), steps);
            && c.fins <= 1
            && (c.fins == 1 ==> c.taken == c.accepted && Rank(c.state) >= 2)
            && (c.state == Disconnecting ==>
                  c.fins == 1 || (c.output != [] && c.kernel.Some? && c.kernel.value.writing))
  {
    RunKeeps(Fresh(cfg), steps);
  }

  /** After the half-close nothing is ever accepted or written again. */
  lemma {:induction false} NothingAfterFin(c: Conn, steps: seq<Step>)
    requires Inv(c) && c.fins == 1 && Legal(c, steps)
    ensures var r := Exec(c, steps);
            r.taken == c.taken && r.accepted == c.accepted && r.output == [] && r.fins == 1
    decreases |steps|
  {
    if steps != [] {
      StepKeeps(c, steps[0]);
      FinFreezes(c, steps[0]);
      NothingAfterFin(After(c, steps[0]), steps[1..]);
    }
  }

  /** The outgoing side of a half-closed connection. */
  predicate Frozen(c: Conn, r: Conn) {
    r.taken == c.taken && r.accepted == c.accepted && r.output == [] && r.fins == 1
  }

  lemma FinFreezes(c: Conn, step: Step)
    requires Inv(c) && c.fins == 1 && Enabled(c, step)
    ensures Frozen(c, After(c, step))
  {
    match step
    case Event(revents, env) => FinFreezesEvent(c, revents, env);
    case _ =>
  }

  lemma FinFreezesClose(c: Conn, calls: seq<Call>)
    requires c.fins == 1 && c.output == []
    ensures Frozen(c, HandleClose(c, calls)) && !HandleClose(c, calls).events.writing
  {
    HalfClosedCalls(DisableAll(c.(state := Disconnected)).(downs := c.downs + 1), calls);
  }

  lemma FinFreezesRead(c: Conn, arrival: Arrival, calls: seq<Call>)
    requires c.fins == 1 && c.output == [] && (c.state == Disconnecting || c.state == Disconnected)
    ensures Frozen(c, HandleRead(c, arrival, calls))
    ensures !c.events.writing ==> !HandleRead(c, arrival, calls).events.writing
  {
    FinFreezesClose(c, calls);
    if arrival.Data? {
      HalfClosedCalls(c.(input := c.input + arrival.bytes, received := c.received + arrival.bytes), calls);
    }
  }

  lemma FinFreezesEvent(c: Conn, revents: Revents, env: Env)
    requires Inv(c) && c.fins == 1 && Up(c) && Plausible(revents)
    ensures Frozen(c, HandleEvent(c, revents, env))
  {
    FinFreezesClose(c, env.closeCalls);
    FinFreezesRead(c, env.arrival, env.readCalls);
  }

  /** Once a connection is closing or closed, callbacks change nothing but its input side. */
  lemma {:induction false} HalfClosedCalls(c: Conn, calls: seq<Call>)
    requires c.state == Disconnecting || c.state == Disconnected
    ensures DoCalls(c, calls) == c.(input := DoCalls(c, calls).input, consumed := DoCalls(c, calls).consumed)
    decreases |calls|
  {
    if calls != [] {
      HalfClosedCalls(DoCall(c, calls[0]), calls[1..]);
    }
  }

  /** The user sees one UP, then at most one DOWN, which comes with the close callback. */
  lemma UpThenDown(cfg: Config, steps: seq<Step>)
    requires Legal(Fresh(cfg), steps)
    ensures var c := Exec(Fresh(cfg), steps);
            && c.ups == (if c.state == Connecting then 0 else 1)
            && c.downs == c.closes == (if c.state == Disconnected then 1 else 0)
  {
    RunKeeps(Fresh(cfg), steps);
  }
}
