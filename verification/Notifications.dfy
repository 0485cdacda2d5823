/** When the high-water and write-complete callbacks are queued: first for the two operations that
    touch the output buffer, then over every run of a connection, its callbacks included. */
module Notifications {
  import opened Kernel
  import opened ConnectionModel
  import opened ConnectionProofs

  datatype OutputOp = Message(msg: Bytes, w: WriteChoice) | Drain(w: WriteChoice)

  function Do(c: Conn, op: OutputOp): Conn {
    match op
    case Message(msg, w) => SendInLoop(c, msg, w)
    case Drain(w) => HandleWrite(c, w)
  }

  function HighWaters(q: seq<Note>): nat {
    if q == [] then 0 else HighWaters(q[..|q|-1]) + if q[|q|-1].HighWater? then 1 else 0
  }

  function WriteCompletes(q: seq<Note>): nat {
    if q == [] then 0 else WriteCompletes(q[..|q|-1]) + if q[|q|-1].WriteComplete? then 1 else 0
  }

  predicate AtMark(c: Conn) {
    |c.output| >= c.cfg.mark
  }

  predicate Crosses(c: Conn, r: Conn) {
    c.cfg.onHighWater && !AtMark(c) && AtMark(r)
  }

  lemma EnqueueQueues(c: Conn, rest: Bytes)
    requires rest != []
    ensures var r := Enqueue(c, rest);
            && r.cfg == c.cfg && r.output == c.output + rest
            && r.queued == c.queued + if Crosses(c, r) then [HighWater(|r.output|)] else []
  {
  }

  lemma SendQueues(c: Conn, msg: Bytes, w: WriteChoice)
    ensures var r := SendInLoop(c, msg, w);
            && r.cfg == c.cfg
            && (Crosses(c, r) ==> r.queued == c.queued + [HighWater(|r.output|)])
            && (!Crosses(c, r) ==>
                  r.queued == c.queued || (c.cfg.onWriteComplete && r.queued == c.queued + [WriteComplete]))
  {
    if !Discards(c, msg, w) {
      var c0 := c.(accepted := c.accepted + msg);
      var res := Write(c.fins > 0, |msg|, w);
      if Idle(c) && res.Wrote? {
        if res.n < |msg| {
          EnqueueQueues(c0.(taken := c.taken + msg[..res.n]), msg[res.n..]);
        }
      } else if msg != [] {
        EnqueueQueues(c0, msg);
      }
    }
  }

  /** One operation queues at most one note; it is a high-water note exactly when the operation
      crosses the mark upwards, and it carries the size now buffered. */
  lemma HighWaterAtCrossing(c: Conn, op: OutputOp)
    ensures var r := Do(c, op);
            && r.cfg == c.cfg
            && (Crosses(c, r) ==> r.queued == c.queued + [HighWater(|r.output|)])
            && (!Crosses(c, r) ==>
                  r.queued == c.queued || (c.cfg.onWriteComplete && r.queued == c.queued + [WriteComplete]))
            && HighWaters(r.queued) == HighWaters(c.queued) + if Crosses(c, r) then 1 else 0
  {
    match op
    case Message(msg, w) => SendQueues(c, msg, w);
    case Drain(w) => DrainQueues(c, w);
    HighWatersLast(c.queued, HighWater(|Do(c, op).output|));
    HighWatersLast(c.queued, WriteComplete);
  }

  lemma DrainQueues(c: Conn, w: WriteChoice)
    ensures var r := HandleWrite(c, w);
            && r.cfg == c.cfg && !Crosses(c, r)
            && (r.queued == c.queued || (c.cfg.onWriteComplete && r.queued == c.queued + [WriteComplete]))
  {
    var r := Write(c.fins > 0, |c.output|, w);
    if c.events.writing && r.Wrote? && r.n > 0 {
      var c1 := c.(taken := c.taken + c.output[..r.n], output := c.output[r.n..]);
      assert DisableWriting(c1).queued == c.queued && DisableWriting(c1).cfg == c.cfg;
    }
  }

  lemma HighWatersLast(q: seq<Note>, note: Note)
    ensures HighWaters(q + [note]) == HighWaters(q) + if note.HighWater? then 1 else 0
  {
    assert (q + [note])[..|q + [note]| - 1] == q;
  }

  /** `write` succeeded on an empty message, which also counts as a complete write. */
  predicate WroteNothing(c: Conn, op: OutputOp) {
    op.Message? && op.msg == [] && c.state != Disconnected && Idle(c) && Write(c.fins > 0, 0, op.w).Wrote?
  }

  /** A write-complete callback is queued exactly when bytes moved to the kernel and none remain, and
      then everything accepted so far has been written. */
  lemma WriteCompleteWhenDrained(c: Conn, op: OutputOp)
    requires Inv(c) && c.state != Connecting && c.cfg.onWriteComplete
    ensures var r := Do(c, op);
            && (r.output == [] && (r.taken != c.taken || WroteNothing(c, op))
                <==> r.queued == c.queued + [WriteComplete])
            && (r.queued == c.queued + [WriteComplete] ==> r.taken == r.accepted)
  {
    var r := Do(c, op);
    match op
    case Message(msg, w) =>
      SendKeeps(c, msg, w);
      CompleteAfterSend(c, msg, w);
    case Drain(w) =>
      WriteKeeps(c, w);
      var res := Write(c.fins > 0, |c.output|, w);
      if res.Wrote? && res.n > 0 {
        assert |c.taken + c.output[..res.n]| > |c.taken|;
      }
  }

  lemma CompleteAfterSend(c: Conn, msg: Bytes, w: WriteChoice)
    requires Inv(c) && c.state != Connecting && c.cfg.onWriteComplete
    ensures var r := SendInLoop(c, msg, w);
            r.output == [] && (r.taken != c.taken || WroteNothing(c, Message(msg, w)))
            <==> r.queued == c.queued + [WriteComplete]
  {
    var r := SendInLoop(c, msg, w);
    var res := Write(c.fins > 0, |msg|, w);
    if !Discards(c, msg, w) && Idle(c) && res.Wrote? {
      assert |c.taken + msg[..res.n]| == |c.taken| + res.n;
      if res.n < |msg| {
        assert r.output == [] + msg[res.n..];
        assert |r.queued| == |c.queued| || r.queued[|c.queued|].HighWater?;
      }
    } else if !Discards(c, msg, w) && msg != [] {
      assert |r.output| >= |msg|;
      assert r.taken == c.taken;
      assert |r.queued| == |c.queued| || r.queued[|c.queued|].HighWater?;
    }
  }

  // ---------------------------------------------------------------- over whole runs

  /** One operation on the output buffer, or anything that leaves the buffer, the streams and the
      queued notes alone. */
  datatype Micro = Output(op: OutputOp) | Aside(next: Conn)

  predicate Fits(c: Conn, m: Micro) {
    match m
    case Output(_) => Inv(c) && c.state != Connecting
    case Aside(d) =>
      d.cfg == c.cfg && d.output == c.output && d.taken == c.taken && d.accepted == c.accepted && d.queued == c.queued
  }

  function Apply(c: Conn, m: Micro): Conn {
    match m
    case Output(op) => Do(c, op)
    case Aside(d) => d
  }

  predicate AllFit(c: Conn, ms: seq<Micro>)
    decreases |ms|
  {
    ms == [] || (Fits(c, ms[0]) && AllFit(Apply(c, ms[0]), ms[1..]))
  }

  function ApplyAll(c: Conn, ms: seq<Micro>): Conn
    decreases |ms|
  {
    if ms == [] then c else ApplyAll(Apply(c, ms[0]), ms[1..])
  }

  lemma {:induction false} ApplyConcat(c: Conn, a: seq<Micro>, b: seq<Micro>)
    requires AllFit(c, a) && AllFit(ApplyAll(c, a), b)
    ensures AllFit(c, a + b) && ApplyAll(c, a + b) == ApplyAll(ApplyAll(c, a), b)
    decreases |a|
  {
    if a == [] {
      assert a + b == b;
    } else {
      assert (a + b)[1..] == a[1..] + b;
      ApplyConcat(Apply(c, a[0]), a[1..], b);
    }
  }

  lemma One(c: Conn, m: Micro) returns (ms: seq<Micro>)
    requires Fits(c, m)
    ensures AllFit(c, ms) && ApplyAll(c, ms) == Apply(c, m)
  {
    ms := [m];
    assert ms[1..] == [];
  }

  lemma Both(c: Conn, a: seq<Micro>, b: seq<Micro>) returns (ms: seq<Micro>)
    requires AllFit(c, a) && AllFit(ApplyAll(c, a), b)
    ensures AllFit(c, ms) && ApplyAll(c, ms) == ApplyAll(ApplyAll(c, a), b)
  {
    ApplyConcat(c, a, b);
    ms := a + b;
  }

  lemma CallMicros(c: Conn, call: Call) returns (ms: seq<Micro>)
    requires Inv(c)
    ensures AllFit(c, ms) && ApplyAll(c, ms) == DoCall(c, call)
  {
    if call.CallSend? && c.state == Connected {
      ms := One(c, Output(Message(call.msg, call.w)));
    } else {
      ms := One(c, Aside(DoCall(c, call)));
    }
  }

  lemma {:induction false} CallsMicros(c: Conn, calls: seq<Call>) returns (ms: seq<Micro>)
    requires Inv(c)
    ensures AllFit(c, ms) && ApplyAll(c, ms) == DoCalls(c, calls)
    decreases |calls|
  {
    if calls == [] {
      ms := [];
    } else {
      var first := CallMicros(c, calls[0]);
      CallKeeps(c, calls[0]);
      var rest := CallsMicros(DoCall(c, calls[0]), calls[1..]);
      ms := Both(c, first, rest);
    }
  }

  /** A change of the connection's other side, then the user's callback. */
  lemma AsideThenCalls(c: Conn, d: Conn, calls: seq<Call>) returns (ms: seq<Micro>)
    requires Fits(c, Aside(d)) && Inv(d)
    ensures AllFit(c, ms) && ApplyAll(c, ms) == DoCalls(d, calls)
  {
    var first := One(c, Aside(d));
    var rest := CallsMicros(d, calls);
    ms := Both(c, first, rest);
  }

  lemma CloseFits(c: Conn, calls: seq<Call>)
    requires Inv(c) && Up(c)
    ensures Fits(c, Aside(HandleClose(c, calls)))
  {
    ClosedCalls(DisableAll(c.(state := Disconnected)).(downs := c.downs + 1), calls);
  }

  lemma ReadMicros(c: Conn, arrival: Arrival, calls: seq<Call>) returns (ms: seq<Micro>)
    requires Inv(c) && Up(c)
    ensures AllFit(c, ms) && ApplyAll(c, ms) == HandleRead(c, arrival, calls)
  {
    if arrival.Data? && arrival.bytes != [] {
      assert c.consumed + (c.input + arrival.bytes) == (c.consumed + c.input) + arrival.bytes;
      ms := AsideThenCalls(c, c.(input := c.input + arrival.bytes, received := c.received + arrival.bytes), calls);
    } else {
      CloseFits(c, calls);
      ms := One(c, Aside(HandleRead(c, arrival, calls)));
    }
  }

  /** The close and read handlers of an event. */
  lemma InputMicros(c: Conn, revents: Revents, env: Env) returns (ms: seq<Micro>)
    requires Inv(c) && Up(c) && Plausible(revents)
    ensures var r := HandleEvent(c, revents.(epollout := false), env);
            AllFit(c, ms) && ApplyAll(c, ms) == r && Inv(r) && r.state != Connecting
  {
    EventKeeps(c, revents.(epollout := false), env);
    if revents.epollhup && !revents.epollin {
      CloseFits(c, env.closeCalls);
      ms := One(c, Aside(HandleClose(c, env.closeCalls)));
    } else if revents.epollin || revents.epollpri {
      ms := ReadMicros(c, env.arrival, env.readCalls);
    } else {
      ms := [];
    }
  }

  lemma EventMicros(c: Conn, revents: Revents, env: Env) returns (ms: seq<Micro>)
    requires Inv(c) && Up(c) && Plausible(revents)
    ensures AllFit(c, ms) && ApplyAll(c, ms) == HandleEvent(c, revents, env)
  {
    ms := InputMicros(c, revents, env);
    var d := HandleEvent(c, revents.(epollout := false), env);
    if revents.epollout {
      var last := One(d, Output(Drain(env.w)));
      ms := Both(c, ms, last);
      assert HandleEvent(c, revents, env) == HandleWrite(d, env.w);
    } else {
      assert revents.(epollout := false) == revents;
    }
  }

  lemma StepMicros(c: Conn, step: Step) returns (ms: seq<Micro>)
    requires Inv(c) && Enabled(c, step)
    ensures AllFit(c, ms) && ApplyAll(c, ms) == After(c, step)
  {
    match step
    case Establish(calls) =>
      var d := EnableReading(c.(state := Connected, tied := true));
      ms := AsideThenCalls(c, d.(ups := d.ups + 1), calls);
    case UserCall(call) => ms := CallMicros(c, call);
    case Deliver(msg, w) => ms := One(c, Output(Message(msg, w)));
    case Event(revents, env) => ms := EventMicros(c, revents, env);
    case Destroy(calls) => ms := One(c, Aside(ConnectDestroyed(c, calls)));
  }

  /** Every run of a connection is a sequence of such operations. */
  lemma {:induction false} RunMicros(c: Conn, steps: seq<Step>) returns (ms: seq<Micro>)
    requires Inv(c) && Legal(c, steps)
    ensures AllFit(c, ms) && ApplyAll(c, ms) == Exec(c, steps)
    decreases |steps|
  {
    if steps == [] {
      ms := [];
    } else {
      var first := StepMicros(c, steps[0]);
      StepKeeps(c, steps[0]);
      var rest := RunMicros(After(c, steps[0]), steps[1..]);
      ms := Both(c, first, rest);
    }
  }

  /** An operation that moves bytes to the kernel, or writes an empty message, and leaves none. */
  predicate Finishes(c: Conn, op: OutputOp) {
    Do(c, op).output == [] && (Do(c, op).taken != c.taken || WroteNothing(c, op))
  }

  /** The note an operation should queue. */
  function Due(c: Conn, m: Micro): seq<Note> {
    if m.Aside? then []
    else if Crosses(c, Apply(c, m)) then [HighWater(|Apply(c, m).output|)]
    else if c.cfg.onWriteComplete && Finishes(c, m.op) then [WriteComplete]
    else []
  }

  function AllDue(c: Conn, ms: seq<Micro>): seq<Note>
    decreases |ms|
  {
    if ms == [] then [] else Due(c, ms[0]) + AllDue(Apply(c, ms[0]), ms[1..])
  }

  lemma DueIsQueued(c: Conn, m: Micro)
    requires Fits(c, m)
    ensures Apply(c, m).queued == c.queued + Due(c, m)
    ensures Apply(c, m).cfg == c.cfg
    ensures Due(c, m) == [WriteComplete] ==> Apply(c, m).taken == Apply(c, m).accepted
  {
    if m.Output? {
      HighWaterAtCrossing(c, m.op);
      if c.cfg.onWriteComplete {
        WriteCompleteWhenDrained(c, m.op);
      }
    }
  }

  /** Over any run exactly the due notes are queued, in order, and nothing else. */
  lemma {:induction false} NotesAreDue(c: Conn, ms: seq<Micro>)
    requires AllFit(c, ms)
    ensures ApplyAll(c, ms).queued == c.queued + AllDue(c, ms)
    decreases |ms|
  {
    if ms != [] {
      DueIsQueued(c, ms[0]);
      NotesAreDue(Apply(c, ms[0]), ms[1..]);
    }
  }

  /** How often the buffered size rises to the mark, and how often it falls below. */
  function Rises(c: Conn, ms: seq<Micro>): nat
    decreases |ms|
  {
    if ms == [] then 0
    else (if !AtMark(c) && AtMark(Apply(c, ms[0])) then 1 else 0) + Rises(Apply(c, ms[0]), ms[1..])
  }

  function Falls(c: Conn, ms: seq<Micro>): nat
    decreases |ms|
  {
    if ms == [] then 0
    else (if AtMark(c) && !AtMark(Apply(c, ms[0])) then 1 else 0) + Falls(Apply(c, ms[0]), ms[1..])
  }

  /** Over any run the high-water callbacks are as many as the upward crossings, so two of them are
      always separated by a fall below the mark. */
  lemma {:induction false} HighWaterCount(c: Conn, ms: seq<Micro>)
    requires AllFit(c, ms) && c.cfg.onHighWater
    ensures HighWaters(ApplyAll(c, ms).queued) == HighWaters(c.queued) + Rises(c, ms)
    ensures Rises(c, ms) + (if AtMark(c) then 1 else 0)
            == Falls(c, ms) + if AtMark(ApplyAll(c, ms)) then 1 else 0
    decreases |ms|
  {
    if ms != [] {
      if ms[0].Output? {
        HighWaterAtCrossing(c, ms[0].op);
      }
      HighWaterCount(Apply(c, ms[0]), ms[1..]);
    }
  }

  /** The operations of a run after which everything accepted so far has been written. */
  function Finishings(c: Conn, ms: seq<Micro>): nat
    decreases |ms|
  {
    if ms == [] then 0
    else
      var d := Apply(c, ms[0]);
      (if ms[0].Output? && Finishes(c, ms[0].op) && d.taken == d.accepted then 1 else 0) + Finishings(d, ms[1..])
  }

  lemma CompletesLast(q: seq<Note>, due: seq<Note>)
    requires |due| <= 1
    ensures WriteCompletes(q + due) == WriteCompletes(q) + if due == [WriteComplete] then 1 else 0
  {
    if due == [] {
      assert q + due == q;
    } else {
      assert (q + due)[..|q + due| - 1] == q;
    }
  }

  lemma FinishIsDue(c: Conn, m: Micro)
    requires Fits(c, m) && c.cfg.onWriteComplete
    ensures Due(c, m) == [WriteComplete] <==>
            m.Output? && Finishes(c, m.op) && Apply(c, m).taken == Apply(c, m).accepted
  {
    DueIsQueued(c, m);
    if m.Output? {
      WriteCompleteWhenDrained(c, m.op);
    }
  }

  /** Over any run the write-complete callbacks are as many as the operations that wrote everything
      accepted so far. */
  lemma {:induction false} WriteCompleteCount(c: Conn, ms: seq<Micro>)
    requires AllFit(c, ms) && c.cfg.onWriteComplete
    ensures WriteCompletes(ApplyAll(c, ms).queued) == WriteCompletes(c.queued) + Finishings(c, ms)
    decreases |ms|
  {
    if ms != [] {
      DueIsQueued(c, ms[0]);
      FinishIsDue(c, ms[0]);
      CompletesLast(c.queued, Due(c, ms[0]));
      WriteCompleteCount(Apply(c, ms[0]), ms[1..]);
    }
  }

  /** All of it for a run of the connection model, with callbacks that send from inside events. */
  lemma NotificationsOfRun(c: Conn, steps: seq<Step>) returns (ms: seq<Micro>)
    requires Inv(c) && Legal(c, steps)
    ensures AllFit(c, ms) && ApplyAll(c, ms) == Exec(c, steps)
    ensures Exec(c, steps).queued == c.queued + AllDue(c, ms)
    ensures c.cfg.onHighWater ==>
              && HighWaters(Exec(c, steps).queued) == HighWaters(c.queued) + Rises(c, ms)
              && Rises(c, ms) + (if AtMark(c) then 1 else 0)
                 == Falls(c, ms) + (if AtMark(Exec(c, steps)) then 1 else 0)
    ensures c.cfg.onWriteComplete ==>
              WriteCompletes(Exec(c, steps).queued) == WriteCompletes(c.queued) + Finishings(c, ms)
  {
    ms := RunMicros(c, steps);
    NotesAreDue(c, ms);
    if c.cfg.onHighWater {
      HighWaterCount(c, ms);
    }
    if c.cfg.onWriteComplete {
      WriteCompleteCount(c, ms);
    }
  }
}
