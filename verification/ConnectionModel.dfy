/** TcpConnection.cc and Channel.cc as functions on one value: a connection, its channel, the
    kernel's view of its descriptor, and the byte streams on both sides of the socket.
    `Connections.TcpConnection` is proved to compute these functions in place. */
module ConnectionModel {
  import opened Kernel
  import opened Pollers

  /** `kConnecting`, `kConnected`, `kDisconnecting`, `kDisconnected`. */
  datatype State = Connecting | Connected | Disconnecting | Disconnected

  /** A user callback handed to `queueInLoop`. */
  datatype Note = WriteComplete | HighWater(size: nat)

  /** `highWaterMark_` and which of the two optional callbacks are installed. */
  datatype Config = Config(mark: nat, onHighWater: bool, onWriteComplete: bool)

  datatype Conn = Conn(
    cfg: Config,
    state: State,
    tied: bool,
    events: Interest,           // channel_->events_
    index: Index,               // channel_->index_
    kernel: Option<Interest>,   // the epoll entry of this descriptor
    input: Bytes,               // inputBuffer_
    output: Bytes,              // outputBuffer_
    accepted: Bytes,            // every message `sendInLoop` did not discard, in order
    taken: Bytes,               // what `write` has moved into the kernel
    received: Bytes,            // what `readv` has delivered
    consumed: Bytes,            // what the user has retrieved from the input buffer
    fins: nat,                  // calls of `shutdownWrite`
    ups: nat,                   // connection callbacks that saw `connected()`
    downs: nat,                 // connection callbacks that did not
    closes: nat,                // close callbacks
    queued: seq<Note>           // functors given to `queueInLoop`, oldest first
  )

  function Fresh(cfg: Config): Conn {
    Conn(cfg, Connecting, false, NO_EVENTS, New, None, [], [], [], [], [], [], 0, 0, 0, 0, [])
  }

  // ---------------------------------------------------------------- channel and poller

  function UpdateChannel(c: Conn): Conn {
    if c.index != Added then c.(index := Added, kernel := Some(c.events))
    else if c.events == NO_EVENTS then c.(index := Deleted, kernel := None)
    else c.(kernel := Some(c.events))
  }

  function EnableReading(c: Conn): Conn { UpdateChannel(c.(events := c.events.(reading := true))) }

  function EnableWriting(c: Conn): Conn { UpdateChannel(c.(events := c.events.(writing := true))) }

  function DisableWriting(c: Conn): Conn { UpdateChannel(c.(events := c.events.(writing := false))) }

  function DisableAll(c: Conn): Conn { UpdateChannel(c.(events := NO_EVENTS)) }

  function RemoveChannel(c: Conn): Conn { c.(index := New, kernel := None) }

  // ---------------------------------------------------------------- sending

  /** Nothing waits in the output queue, so a message may go straight to the socket. */
  predicate Idle(c: Conn) {
    !c.events.writing && c.output == []
  }

  predicate IsFault(r: WriteResult) {
    r.Failed? && (r.e == EPIPE || r.e == ECONNRESET)
  }

  /** `sendInLoop` gives a message up: the connection is gone, or the direct write found it broken. */
  predicate Discards(c: Conn, msg: Bytes, w: WriteChoice) {
    c.state == Disconnected || (Idle(c) && IsFault(Write(c.fins > 0, |msg|, w)))
  }

  function Queue(c: Conn, note: Note): Conn { c.(queued := c.queued + [note]) }

  function Notify(c: Conn): Conn {
    if c.cfg.onWriteComplete then Queue(c, WriteComplete) else c
  }

  /** Keeps the unsent rest of a message and asks for EPOLLOUT. */
  function Enqueue(c: Conn, rest: Bytes): Conn {
    var size := |c.output| + |rest|;
    var c1 := if size >= c.cfg.mark && |c.output| < c.cfg.mark && c.cfg.onHighWater
              then Queue(c, HighWater(size)) else c;
    var c2 := c1.(output := c1.output + rest);
    if c2.events.writing then c2 else EnableWriting(c2)
  }

  function SendInLoop(c: Conn, msg: Bytes, w: WriteChoice): Conn {
    if Discards(c, msg, w) then c
    else
      var c0 := c.(accepted := c.accepted + msg);
      if Idle(c) then
        match Write(c.fins > 0, |msg|, w)
        case Wrote(n) =>
          var c1 := c0.(taken := c.taken + msg[..n]);
          if n == |msg| then Notify(c1) else Enqueue(c1, msg[n..])
        case Failed(_) =>
          if msg == [] then c0 else Enqueue(c0, msg)
      else if msg == [] then c0 else Enqueue(c0, msg)
  }

  /** `send` on the loop thread. */
  function Send(c: Conn, msg: Bytes, w: WriteChoice): Conn {
    if c.state == Connected then SendInLoop(c, msg, w) else c
  }

  function ShutdownInLoop(c: Conn): Conn {
    if c.events.writing then c else c.(fins := c.fins + 1)
  }

  /** `shutdown` on the loop thread. */
  function Shutdown(c: Conn): Conn {
    if c.state == Connected then ShutdownInLoop(c.(state := Disconnecting)) else c
  }

  function HandleWrite(c: Conn, w: WriteChoice): Conn {
    if !c.events.writing then c
    else
      match Write(c.fins > 0, |c.output|, w)
      case Failed(_) => c
      case Wrote(n) =>
        if n == 0 then c
        else
          var c1 := c.(taken := c.taken + c.output[..n], output := c.output[n..]);
          if c1.output != [] then c1
          else
            var c2 := Notify(DisableWriting(c1));
            if c2.state == Disconnecting then ShutdownInLoop(c2) else c2
  }

  // ---------------------------------------------------------------- user callbacks

  /** What a user callback may do with its connection on the loop thread. */
  datatype Call = CallSend(msg: Bytes, w: WriteChoice) | CallShutdown | CallRetrieve(len: nat)

  function Retrieve(c: Conn, len: nat): Conn {
    var n := Min(len, |c.input|);
    c.(input := c.input[n..], consumed := c.consumed + c.input[..n])
  }

  function DoCall(c: Conn, call: Call): Conn {
    match call
    case CallSend(msg, w) => Send(c, msg, w)
    case CallShutdown => Shutdown(c)
    case CallRetrieve(len) => Retrieve(c, len)
  }

  function DoCalls(c: Conn, calls: seq<Call>): Conn
    decreases |calls|
  {
    if calls == [] then c
    else DoCalls(DoCall(c, calls[0]), calls[1..])
  }

  /** Only `connectDestroyed` unregisters a channel. */
  lemma {:induction false} CallsStayRegistered(c: Conn, calls: seq<Call>)
    requires c.index != New
    ensures DoCalls(c, calls).index != New
    decreases |calls|
  {
    if calls != [] {
      CallsStayRegistered(DoCall(c, calls[0]), calls[1..]);
    }
  }

  // ---------------------------------------------------------------- events and lifecycle

  function HandleClose(c: Conn, calls: seq<Call>): Conn {
    var c1 := DisableAll(c.(state := Disconnected));
    var c2 := DoCalls(c1.(downs := c1.downs + 1), calls);
    c2.(closes := c2.closes + 1)
  }

  function HandleRead(c: Conn, arrival: Arrival, calls: seq<Call>): Conn {
    match arrival
    case Data(bytes) =>
      if bytes == [] then HandleClose(c, calls)
      else DoCalls(c.(input := c.input + bytes, received := c.received + bytes), calls)
    case EndOfStream => HandleClose(c, calls)
    case ReadError => c
  }

  /** Everything the environment decides while one event is handled: what `readv` and `write` find,
      and what the user's callbacks do. */
  datatype Env = Env(arrival: Arrival, readCalls: seq<Call>, closeCalls: seq<Call>, w: WriteChoice)

  /** `handleEventWithGuard`: close, error, read, write, in this order. `handleError` only logs. */
  function HandleEvent(c: Conn, revents: Revents, env: Env): Conn {
    var c1 := if revents.epollhup && !revents.epollin then HandleClose(c, env.closeCalls) else c;
    var c2 := if revents.epollin || revents.epollpri then HandleRead(c1, env.arrival, env.readCalls) else c1;
    if revents.epollout then HandleWrite(c2, env.w) else c2
  }

  function ConnectEstablished(c: Conn, calls: seq<Call>): Conn {
    var c1 := EnableReading(c.(state := Connected, tied := true));
    DoCalls(c1.(ups := c1.ups + 1), calls)
  }

  function ConnectDestroyed(c: Conn, calls: seq<Call>): Conn {
    RemoveChannel(
      if c.state == Connected then
        var c1 := DisableAll(c.(state := Disconnected));
        DoCalls(c1.(downs := c1.downs + 1), calls)
      else c)
  }

  // ---------------------------------------------------------------- runs

  /** One turn of a connection's life on its own loop. `Deliver` is a message that another thread's
      `send` queued; it reaches `sendInLoop` without a second look at the state. */
  datatype Step =
    | Establish(calls: seq<Call>)
    | UserCall(call: Call)
    | Deliver(msg: Bytes, w: WriteChoice)
    | Event(revents: Revents, env: Env)
    | Destroy(calls: seq<Call>)

  /** The kernel never reports EPOLLHUP together with EPOLLPRI and without EPOLLIN. */
  predicate Plausible(revents: Revents) {
    !(revents.epollhup && revents.epollpri && !revents.epollin)
  }

  /** When the server lets a step happen; `ServerProofs` shows that it never does otherwise. */
  predicate Enabled(c: Conn, step: Step) {
    match step
    case Establish(_) => c.state == Connecting
    case UserCall(_) => true
    case Deliver(_, _) => c.state != Connecting
    case Event(revents, _) => c.kernel.Some? && Plausible(revents)
    case Destroy(_) => c.state == Disconnected && c.index == Deleted
  }

  function After(c: Conn, step: Step): Conn {
    match step
    case Establish(calls) => ConnectEstablished(c, calls)
    case UserCall(call) => DoCall(c, call)
    case Deliver(msg, w) => SendInLoop(c, msg, w)
    case Event(revents, env) => HandleEvent(c, revents, env)
    case Destroy(calls) => ConnectDestroyed(c, calls)
  }

  predicate Legal(c: Conn, steps: seq<Step>)
    decreases |steps|
  {
    steps == [] || (Enabled(c, steps[0]) && Legal(After(c, steps[0]), steps[1..]))
  }

  function Exec(c: Conn, steps: seq<Step>): Conn
    decreases |steps|
  {
    if steps == [] then c else Exec(After(c, steps[0]), steps[1..])
  }
}
