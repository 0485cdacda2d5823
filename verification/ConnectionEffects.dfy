/** What a connection does for its user, said without the parts it is made of: which messages it keeps,
    that a write event writes, that data is read and handed on, and what a callback's calls amount to.

    `ConnectionProofs` says that no byte is lost or reordered once it is accepted; the lemmas here say
    what is accepted, and that it gets on its way. */
module ConnectionEffects {
  import opened Kernel
  import opened Pollers
  import opened ConnectionModel
  import opened ConnectionProofs

  // ---------------------------------------------------------------- what is kept

  /** A message is given up on a closed connection, and when nothing is buffered and the direct write
      finds the peer gone; in no other case. */
  predicate GivesUp(c: Conn, w: WriteChoice) {
    || c.state == Disconnected
    || (!c.events.writing && c.output == [] && (c.fins > 0 || w == Refuse(EPIPE) || w == Refuse(ECONNRESET)))
  }

  /** Every other message is behind the bytes already taken and buffered, whole; and nothing of it goes
      out directly but what the kernel takes of it while nothing is buffered. */
  lemma SendEffect(c: Conn, msg: Bytes, w: WriteChoice)
    ensures var r := SendInLoop(c, msg, w);
            var kept := if GivesUp(c, w) then [] else msg;
            && r.taken + r.output == (c.taken + c.output) + kept
            && r.accepted == c.accepted + kept
            && r.taken == c.taken + if c.state != Disconnected && !c.events.writing && c.output == [] && c.fins == 0
                                       && w.Accept?
                                    then msg[..Min(w.n, |msg|)] else []
  {
    hide Enqueue;
    var c0 := c.(accepted := c.accepted + msg);
    if !GivesUp(c, w) {
      if !c.events.writing && c.output == [] && w.Accept? {
        var n := Min(w.n, |msg|);
        assert msg[..n] + msg[n..] == msg;
        assert msg[n..] == [] <==> n == |msg|;
        EnqueueFrame(c0.(taken := c.taken + msg[..n]), msg[n..]);
        assert (c.taken + msg[..n]) + msg[n..] == c.taken + msg;
      } else {
        EnqueueFrame(c0, msg);
        assert c.taken + (c.output + msg) == (c.taken + c.output) + msg;
      }
    }
  }

  /** While the coupling holds: a message is lost only on a closed connection, or when the buffer is empty
      and the socket half-closed or broken. */
  lemma SendKeepsMessage(c: Conn, msg: Bytes, w: WriteChoice)
    requires Inv(c) && c.state != Connecting
    ensures var r := SendInLoop(c, msg, w);
            r.taken + r.output == (c.taken + c.output) +
              if c.state == Disconnected
                 || (c.output == [] && (c.fins > 0 || w == Refuse(EPIPE) || w == Refuse(ECONNRESET)))
              then [] else msg
  {
    SendEffect(c, msg, w);
  }

  /** What one call of the user adds to the outgoing stream ... */
  function CallAdds(c: Conn, call: Call): Bytes {
    if call.CallSend? && c.state == Connected && !GivesUp(c, call.w) then call.msg else []
  }

  /** ... a callback ... */
  function CallsAdd(c: Conn, calls: seq<Call>): Bytes
    decreases |calls|
  {
    if calls == [] then [] else CallAdds(c, calls[0]) + CallsAdd(DoCall(c, calls[0]), calls[1..])
  }

  /** ... the message callback, which runs exactly when an event that does not close brings data ... */
  function EventAdds(c: Conn, revents: Revents, env: Env): Bytes {
    if (revents.epollin || revents.epollpri) && env.arrival.Data? && env.arrival.bytes != []
    then CallsAdd(c.(input := c.input + env.arrival.bytes, received := c.received + env.arrival.bytes), env.readCalls)
    else []
  }

  /** ... and a step. */
  function StepAdds(c: Conn, step: Step): Bytes {
    match step
    case Establish(calls) => CallsAdd(ConnectEstablished(c, []), calls)
    case UserCall(call) => CallAdds(c, call)
    case Deliver(msg, w) => if GivesUp(c, w) then [] else msg
    case Event(revents, env) => EventAdds(c, revents, env)
    case Destroy(_) => []
  }

  function RunAdds(c: Conn, steps: seq<Step>): Bytes
    decreases |steps|
  {
    if steps == [] then [] else StepAdds(c, steps[0]) + RunAdds(After(c, steps[0]), steps[1..])
  }

  lemma CallAccepts(c: Conn, call: Call)
    ensures DoCall(c, call).accepted == c.accepted + CallAdds(c, call)
  {
    if call.CallSend? {
      SendEffect(c, call.msg, call.w);
    }
  }

  lemma {:induction false} CallsAccept(c: Conn, calls: seq<Call>)
    ensures DoCalls(c, calls).accepted == c.accepted + CallsAdd(c, calls)
    decreases |calls|
  {
    hide DoCall, CallAdds;
    if calls != [] {
      var d := DoCall(c, calls[0]);
      CallAccepts(c, calls[0]);
      CallsAccept(d, calls[1..]);
      AppendTwice(c.accepted, CallAdds(c, calls[0]), CallsAdd(d, calls[1..]));
    }
  }

  lemma AppendTwice(a: Bytes, b: Bytes, c: Bytes)
    ensures (a + b) + c == a + (b + c)
  {
  }

  lemma CloseAccepts(c: Conn, calls: seq<Call>)
    ensures HandleClose(c, calls).accepted == c.accepted
  {
    HalfClosedCalls(DisableAll(c.(state := Disconnected)).(downs := c.downs + 1), calls);
  }

  lemma ReadAccepts(c: Conn, arrival: Arrival, calls: seq<Call>)
    ensures HandleRead(c, arrival, calls).accepted == c.accepted +
            if arrival.Data? && arrival.bytes != []
            then CallsAdd(c.(input := c.input + arrival.bytes, received := c.received + arrival.bytes), calls)
            else []
  {
    CloseAccepts(c, calls);
    if arrival.Data? {
      CallsAccept(c.(input := c.input + arrival.bytes, received := c.received + arrival.bytes), calls);
    }
  }

  lemma WriteAcceptsNothing(c: Conn, w: WriteChoice)
    ensures HandleWrite(c, w).accepted == c.accepted
  {
  }

  lemma EventAccepts(c: Conn, revents: Revents, env: Env)
    requires Plausible(revents)
    ensures HandleEvent(c, revents, env).accepted == c.accepted + EventAdds(c, revents, env)
  {
    hide HandleClose, HandleRead, HandleWrite;
    var c1 := if revents.epollhup && !revents.epollin then HandleClose(c, env.closeCalls) else c;
    var c2 := if revents.epollin || revents.epollpri then HandleRead(c1, env.arrival, env.readCalls) else c1;
    CloseAccepts(c, env.closeCalls);
    ReadAccepts(c, env.arrival, env.readCalls);
    WriteAcceptsNothing(c2, env.w);
  }

  lemma StepAccepts(c: Conn, step: Step)
    requires Enabled(c, step)
    ensures After(c, step).accepted == c.accepted + StepAdds(c, step)
  {
    match step
    case Establish(calls) =>
      assert ConnectEstablished(c, calls) == DoCalls(ConnectEstablished(c, []), calls);
      CallsAccept(ConnectEstablished(c, []), calls);
    case UserCall(call) => CallAccepts(c, call);
    case Deliver(msg, w) => SendEffect(c, msg, w);
    case Event(revents, env) => EventAccepts(c, revents, env);
    case Destroy(calls) =>
      HalfClosedCalls(DisableAll(c.(state := Disconnected)).(downs := c.downs + 1), calls);
  }

  lemma {:induction false} StepsAccept(c: Conn, steps: seq<Step>)
    requires Legal(c, steps)
    ensures Exec(c, steps).accepted == c.accepted + RunAdds(c, steps)
    decreases |steps|
  {
    if steps != [] {
      hide After, StepAdds;
      StepAccepts(c, steps[0]);
      StepsAccept(After(c, steps[0]), steps[1..]);
      AppendTwice(c.accepted, StepAdds(c, steps[0]), RunAdds(After(c, steps[0]), steps[1..]));
    }
  }

  /** Over any run, what the kernel took and what is buffered grow by exactly the messages that were not
      given up, in order, whoever sent them and from whichever callback. */
  lemma MessagesReachStream(c: Conn, steps: seq<Step>)
    requires Inv(c) && Legal(c, steps)
    ensures Exec(c, steps).taken + Exec(c, steps).output == (c.taken + c.output) + RunAdds(c, steps)
  {
    hide Legal, Exec;
    RunKeeps(c, steps);
    StepsAccept(c, steps);
  }

  // ---------------------------------------------------------------- what the user takes

  function Asked(calls: seq<Call>): nat
    decreases |calls|
  {
    if calls == [] then 0 else (if calls[0].CallRetrieve? then calls[0].len else 0) + Asked(calls[1..])
  }

  lemma SendLeavesInput(c: Conn, msg: Bytes, w: WriteChoice)
    ensures SendInLoop(c, msg, w).input == c.input && SendInLoop(c, msg, w).consumed == c.consumed
    ensures SendInLoop(c, msg, w).received == c.received && SendInLoop(c, msg, w).closes == c.closes
  {
    hide Enqueue;
    var c0 := c.(accepted := c.accepted + msg);
    QueueLeavesInput(c0, msg);
    match Write(c.fins > 0, |msg|, w)
    case Wrote(n) => QueueLeavesInput(c0.(taken := c.taken + msg[..n]), msg[n..]);
    case Failed(_) =>
  }

  lemma QueueLeavesInput(c: Conn, rest: Bytes)
    ensures var r := Enqueue(c, rest);
            r.input == c.input && r.consumed == c.consumed && r.received == c.received && r.closes == c.closes
  {
  }

  /** A call takes from the front of the input exactly what it asks for, as far as there is any. */
  lemma CallTakes(c: Conn, call: Call)
    ensures var n := if call.CallRetrieve? then Min(call.len, |c.input|) else 0;
            var r := DoCall(c, call);
            r.consumed == c.consumed + c.input[..n] && r.input == c.input[n..]
            && r.received == c.received && r.closes == c.closes
  {
    match call
    case CallSend(msg, w) => SendLeavesInput(c, msg, w);
    case CallShutdown =>
    case CallRetrieve(len) =>
  }

  /** `n` bytes went from the front of the input to the user. */
  predicate Took(c: Conn, r: Conn, n: nat) {
    && n <= |c.input| && r.consumed == c.consumed + c.input[..n] && r.input == c.input[n..]
    && r.received == c.received && r.closes == c.closes
  }

  /** So does a callback, with everything it asks for together. */
  lemma {:induction false} CallsTake(c: Conn, calls: seq<Call>)
    ensures Took(c, DoCalls(c, calls), Min(Asked(calls), |c.input|))
    decreases |calls|
  {
    hide DoCall, Took;
    if calls == [] {
      TookNothing(c);
    } else {
      var d := DoCall(c, calls[0]);
      var k := if calls[0].CallRetrieve? then Min(calls[0].len, |c.input|) else 0;
      TookCall(c, calls[0]);
      CallsTake(d, calls[1..]);
      TookTwice(c, d, DoCalls(d, calls[1..]), k, Min(Asked(calls[1..]), |d.input|));
    }
  }

  lemma TookNothing(c: Conn)
    ensures Took(c, c, 0)
  {
    assert c.consumed + c.input[..0] == c.consumed && c.input[0..] == c.input;
  }

  lemma TookCall(c: Conn, call: Call)
    ensures var n := if call.CallRetrieve? then Min(call.len, |c.input|) else 0;
            Took(c, DoCall(c, call), n) && |DoCall(c, call).input| == |c.input| - n
  {
    hide DoCall;
    CallTakes(c, call);
  }

  lemma TookTwice(c: Conn, d: Conn, r: Conn, k: nat, m: nat)
    requires Took(c, d, k) && Took(d, r, m)
    ensures Took(c, r, k + m)
  {
    assert c.input[..k] + c.input[k..][..m] == c.input[..k + m] && c.input[k..][m..] == c.input[k + m..];
    assert (c.consumed + c.input[..k]) + c.input[k..][..m] == c.consumed + (c.input[..k] + c.input[k..][..m]);
  }

  // ---------------------------------------------------------------- what a write event does

  /** The write handler hands the kernel exactly what it takes of the waiting bytes, in every state that
      has some; when the last has gone EPOLLOUT is no longer watched, and a requested half-close happens. */
  lemma WriteEffect(c: Conn, n: nat)
    requires Inv(c) && Up(c) && c.output != [] && n > 0
    ensures var k := Min(n, |c.output|);
            var r := HandleWrite(c, Accept(n));
            && r.taken == c.taken + c.output[..k] && r.output == c.output[k..]
            && r.events == Interest(true, k < |c.output|) && r.kernel == Some(r.events)
            && r.fins == (if k == |c.output| && c.state == Disconnecting then 1 else 0)
            && r.state == c.state && r.input == c.input && r.received == c.received && r.consumed == c.consumed
  {
  }

  /** It changes nothing when nothing waits, or when the kernel takes nothing. */
  lemma WriteIdle(c: Conn, w: WriteChoice)
    requires Inv(c) && (!Up(c) || c.output == [] || w.Refuse? || w.n == 0)
    ensures HandleWrite(c, w) == c
  {
  }

  lemma WriteLeavesInput(c: Conn, w: WriteChoice)
    ensures var r := HandleWrite(c, w);
            r.input == c.input && r.consumed == c.consumed && r.received == c.received && r.closes == c.closes
  {
    var r := Write(c.fins > 0, |c.output|, w);
    if c.events.writing && r.Wrote? && r.n > 0 {
      DrainedLeavesInput(c.(taken := c.taken + c.output[..r.n], output := c.output[r.n..]));
    }
  }

  lemma DrainedLeavesInput(c: Conn)
    ensures var d := Notify(DisableWriting(c));
            var r := if d.state == Disconnecting then ShutdownInLoop(d) else d;
            r.input == c.input && r.consumed == c.consumed && r.received == c.received && r.closes == c.closes
  {
  }

  /** While bytes wait, a call of the user only puts more behind them. */
  lemma CallQueues(c: Conn, call: Call)
    requires Inv(c) && Up(c) && c.output != []
    ensures var r := DoCall(c, call);
            Inv(r) && Up(r) && r.taken == c.taken && r.output == c.output + CallAdds(c, call)
  {
    CallKeeps(c, call);
    match call
    case CallSend(msg, w) =>
      SendEffect(c, msg, w);
      if c.state == Connected && msg != [] {
        EnqueueFrame(c.(accepted := c.accepted + msg), msg);
      }
    case CallShutdown =>
    case CallRetrieve(_) =>
  }

  lemma {:induction false} CallsQueue(c: Conn, calls: seq<Call>)
    requires Inv(c) && Up(c) && c.output != []
    ensures var r := DoCalls(c, calls);
            Inv(r) && Up(r) && r.taken == c.taken && r.output == c.output + CallsAdd(c, calls)
    decreases |calls|
  {
    if calls != [] {
      CallQueues(c, calls[0]);
      CallsQueue(DoCall(c, calls[0]), calls[1..]);
      assert (c.output + CallAdds(c, calls[0])) + CallsAdd(DoCall(c, calls[0]), calls[1..])
             == c.output + CallsAdd(c, calls);
    }
  }

  /** An event ends the stream: a hang-up without EPOLLIN, or a read that finds the end. */
  predicate Ends(revents: Revents, arrival: Arrival) {
    || (revents.epollhup && !revents.epollin)
    || ((revents.epollin || revents.epollpri) && (arrival.EndOfStream? || arrival == Data([])))
  }

  /** The handlers before the write handler, when the event does not end the stream. */
  lemma InputQueues(c: Conn, revents: Revents, env: Env)
    requires Inv(c) && Up(c) && c.output != [] && !Ends(revents, env.arrival)
    ensures var r := HandleEvent(c, revents.(epollout := false), env);
            Inv(r) && Up(r) && r.taken == c.taken && r.output == c.output + EventAdds(c, revents, env)
  {
    if (revents.epollin || revents.epollpri) && env.arrival.Data? {
      var bytes := env.arrival.bytes;
      assert c.consumed + (c.input + bytes) == (c.consumed + c.input) + bytes;
      CallsQueue(c.(input := c.input + bytes, received := c.received + bytes), env.readCalls);
    }
  }

  lemma WritesLast(c: Conn, revents: Revents, env: Env)
    requires revents.epollout
    ensures HandleEvent(c, revents, env) == HandleWrite(HandleEvent(c, revents.(epollout := false), env), env.w)
  {
  }

  /** EPOLLOUT always reaches the write handler: whatever else the event reports, and whatever the
      callbacks send, the kernel gets its `n` bytes from the front of all that waits. */
  lemma EventWrites(c: Conn, revents: Revents, env: Env, n: nat)
    requires Inv(c) && Up(c) && c.output != [] && revents.epollout && !Ends(revents, env.arrival)
    requires env.w == Accept(n) && n > 0
    ensures var waiting := c.output + EventAdds(c, revents, env);
            var k := Min(n, |waiting|);
            var r := HandleEvent(c, revents, env);
            r.taken == c.taken + waiting[..k] && r.output == waiting[k..] && Up(r)
    ensures c.taken + c.output[..1] <= HandleEvent(c, revents, env).taken
  {
    hide HandleEvent;
    InputQueues(c, revents, env);
    WritesLast(c, revents, env);
    WriteEffect(HandleEvent(c, revents.(epollout := false), env), n);
  }

  // ---------------------------------------------------------------- what a read event does

  lemma ReadReads(c: Conn, arrival: Arrival, calls: seq<Call>)
    requires arrival.Data? && arrival.bytes != []
    ensures var r := HandleRead(c, arrival, calls);
            var input := c.input + arrival.bytes;
            var n := Min(Asked(calls), |input|);
            && r.received == c.received + arrival.bytes && r.closes == c.closes
            && r.consumed == c.consumed + input[..n] && r.input == input[n..]
  {
    CallsTake(c.(input := c.input + arrival.bytes, received := c.received + arrival.bytes), calls);
  }

  lemma ReadStaysUp(c: Conn, arrival: Arrival, calls: seq<Call>)
    requires Inv(c) && Up(c) && arrival.Data? && arrival.bytes != []
    ensures Up(HandleRead(c, arrival, calls))
  {
    assert c.consumed + (c.input + arrival.bytes) == (c.consumed + c.input) + arrival.bytes;
    CallsKeep(c.(input := c.input + arrival.bytes, received := c.received + arrival.bytes), calls);
  }

  /** EPOLLIN or EPOLLPRI with data reads it and hands it to the message callback, which takes from the
      front of the input what it asks for; the connection stays up. */
  lemma EventReads(c: Conn, revents: Revents, env: Env)
    requires Inv(c) && Up(c) && Plausible(revents) && (revents.epollin || revents.epollpri)
    requires env.arrival.Data? && env.arrival.bytes != []
    ensures var r := HandleEvent(c, revents, env);
            var input := c.input + env.arrival.bytes;
            var n := Min(Asked(env.readCalls), |input|);
            && r.received == c.received + env.arrival.bytes && r.closes == c.closes && Up(r)
            && r.consumed == c.consumed + input[..n] && r.input == input[n..]
  {
    hide HandleRead, HandleWrite;
    var c1 := HandleRead(c, env.arrival, env.readCalls);
    ReadReads(c, env.arrival, env.readCalls);
    ReadStaysUp(c, env.arrival, env.readCalls);
    ReadKeeps(c, env.arrival, env.readCalls);
    WriteLeavesInput(c1, env.w);
    WriteKeeps(c1, env.w);
  }

  /** An event without them, or one that finds an error, reads nothing. */
  lemma EventReadsNothing(c: Conn, revents: Revents, env: Env)
    requires !(revents.epollin || revents.epollpri) || env.arrival.ReadError?
    requires !(revents.epollhup && !revents.epollin)
    ensures var r := HandleEvent(c, revents, env);
            r.received == c.received && r.consumed == c.consumed && r.input == c.input && r.closes == c.closes
  {
    WriteLeavesInput(c, env.w);
  }

  // ---------------------------------------------------------------- closing and destroying

  /** A close tells the user DOWN once and the server once, and the user's callback may still take what
      has arrived. */
  lemma CloseTakes(c: Conn, calls: seq<Call>)
    ensures var r := HandleClose(c, calls);
            var n := Min(Asked(calls), |c.input|);
            && r.downs == c.downs + 1 && r.closes == c.closes + 1 && r.state == Disconnected
            && r.consumed == c.consumed + c.input[..n] && r.input == c.input[n..] && r.received == c.received
  {
    var d := DisableAll(c.(state := Disconnected)).(downs := c.downs + 1);
    CallsTake(d, calls);
    HalfClosedCalls(d, calls);
  }

  /** `connectDestroyed` tells DOWN, and lets the callback take, exactly when the connection is still
      `kConnected`; it never tells the server. */
  lemma DestroyTakes(c: Conn, calls: seq<Call>)
    ensures var r := ConnectDestroyed(c, calls);
            var n := if c.state == Connected then Min(Asked(calls), |c.input|) else 0;
            && r.downs == c.downs + (if c.state == Connected then 1 else 0) && r.closes == c.closes
            && r.consumed == c.consumed + c.input[..n] && r.input == c.input[n..] && r.received == c.received
  {
    var d := DisableAll(c.(state := Disconnected)).(downs := c.downs + 1);
    CallsTake(d, calls);
    HalfClosedCalls(d, calls);
  }

  /** `connectEstablished` tells UP, and what its callback takes and sends is on the connection then. */
  lemma EstablishTakes(c: Conn, calls: seq<Call>)
    requires Inv(c) && c.state == Connecting
    ensures var r := ConnectEstablished(c, calls);
            var n := Min(Asked(calls), |c.input|);
            && r.ups == 1 && Up(r) && r.kernel.Some? && r.kernel.value.reading
            && r.consumed == c.consumed + c.input[..n] && r.input == c.input[n..]
            && r.accepted == c.accepted + CallsAdd(ConnectEstablished(c, []), calls)
  {
    var d := ConnectEstablished(c, []);
    CallsTake(d, calls);
    CallsAccept(d, calls);
    CallsKeep(d, calls);
  }

  // ---------------------------------------------------------------- draining, over a run

  const WRITABLE := Revents(false, false, true, false, false)

  /** EPOLLOUT, and the kernel takes `n` bytes. */
  function WritableStep(n: nat): Step {
    Step.Event(WRITABLE, Env(ReadError, [], [], Accept(n)))
  }


  lemma WritableWrites(c: Conn, n: nat)
    requires Inv(c) && Up(c)
    ensures Enabled(c, WritableStep(n)) && After(c, WritableStep(n)) == HandleWrite(c, Accept(n))
  {
  }

  /** As many write events as there are bytes, each taking one byte or more, are always possible and
      empty the buffer: every accepted byte is with the kernel, EPOLLOUT is no longer watched, and a
      connection that is closing has been half-closed. */
  lemma {:induction false} EventsDrain(c: Conn, counts: seq<nat>) returns (steps: seq<Step>)
    requires Inv(c) && Up(c) && |counts| >= |c.output|
    requires forall i :: 0 <= i < |counts| ==> counts[i] > 0
    ensures |steps| == |counts| && forall i :: 0 <= i < |steps| ==> steps[i] == WritableStep(counts[i])
    ensures Legal(c, steps)
    ensures var r := Exec(c, steps);
            && r.output == [] && r.taken == c.taken + c.output && r.taken == r.accepted && r.state == c.state
            && r.kernel == Some(Interest(true, false)) && (c.state == Disconnecting ==> r.fins == 1)
    decreases |counts|
  {
    if counts == [] {
      steps := [];
    } else {
      var n := counts[0];
      var c1 := After(c, WritableStep(n));
      WritableWrites(c, n);
      WriteKeeps(c, Accept(n));
      DrainOnce(c, n);
      var rest := EventsDrain(c1, counts[1..]);
      steps := [WritableStep(n)] + rest;
      assert steps[1..] == rest;
    }
  }

  lemma DrainOnce(c: Conn, n: nat)
    requires Inv(c) && Up(c) && n > 0
    ensures var r := HandleWrite(c, Accept(n));
            && r.state == c.state && r.taken + r.output == c.taken + c.output
            && (|r.output| < |c.output| || (c.output == [] && r == c))
  {
    if c.output == [] {
      WriteIdle(c, Accept(n));
    } else {
      WriteEffect(c, n);
      var k := Min(n, |c.output|);
      assert c.output[..k] + c.output[k..] == c.output;
      assert (c.taken + c.output[..k]) + c.output[k..] == c.taken + c.output;
    }
  }

  // ---------------------------------------------------------------- notes are only ever added

  lemma QueueRecalls(c: Conn, rest: Bytes)
    ensures c.queued <= Enqueue(c, rest).queued
  {
  }

  lemma SendRecalls(c: Conn, msg: Bytes, w: WriteChoice)
    ensures c.queued <= SendInLoop(c, msg, w).queued
  {
    hide Enqueue;
    var c0 := c.(accepted := c.accepted + msg);
    QueueRecalls(c0, msg);
    match Write(c.fins > 0, |msg|, w)
    case Wrote(n) => QueueRecalls(c0.(taken := c.taken + msg[..n]), msg[n..]);
    case Failed(_) =>
  }

  lemma WriteRecalls(c: Conn, w: WriteChoice)
    ensures c.queued <= HandleWrite(c, w).queued
  {
  }

  lemma CallRecalls(c: Conn, call: Call)
    ensures c.queued <= DoCall(c, call).queued
  {
    if call.CallSend? {
      SendRecalls(c, call.msg, call.w);
    }
  }

  lemma {:induction false} CallsRecall(c: Conn, calls: seq<Call>)
    ensures c.queued <= DoCalls(c, calls).queued
    decreases |calls|
  {
    hide DoCall;
    if calls != [] {
      CallRecalls(c, calls[0]);
      CallsRecall(DoCall(c, calls[0]), calls[1..]);
    }
  }

  lemma CloseRecalls(c: Conn, calls: seq<Call>)
    ensures c.queued <= HandleClose(c, calls).queued
  {
    CallsRecall(DisableAll(c.(state := Disconnected)).(downs := c.downs + 1), calls);
  }

  lemma ReadRecalls(c: Conn, arrival: Arrival, calls: seq<Call>)
    ensures c.queued <= HandleRead(c, arrival, calls).queued
  {
    CloseRecalls(c, calls);
    if arrival.Data? {
      CallsRecall(c.(input := c.input + arrival.bytes, received := c.received + arrival.bytes), calls);
    }
  }

  lemma EventRecalls(c: Conn, revents: Revents, env: Env)
    ensures c.queued <= HandleEvent(c, revents, env).queued
  {
    hide HandleClose, HandleRead, HandleWrite;
    var c1 := if revents.epollhup && !revents.epollin then HandleClose(c, env.closeCalls) else c;
    var c2 := if revents.epollin || revents.epollpri then HandleRead(c1, env.arrival, env.readCalls) else c1;
    CloseRecalls(c, env.closeCalls);
    ReadRecalls(c1, env.arrival, env.readCalls);
    WriteRecalls(c2, env.w);
  }

  lemma EstablishRecalls(c: Conn, calls: seq<Call>)
    ensures c.queued <= ConnectEstablished(c, calls).queued
  {
    var c1 := EnableReading(c.(state := Connected, tied := true));
    CallsRecall(c1.(ups := c1.ups + 1), calls);
  }

  lemma DestroyRecalls(c: Conn, calls: seq<Call>)
    ensures c.queued <= ConnectDestroyed(c, calls).queued
  {
    var c1 := DisableAll(c.(state := Disconnected));
    CallsRecall(c1.(downs := c1.downs + 1), calls);
  }
}
