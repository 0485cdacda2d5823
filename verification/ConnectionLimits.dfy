/** Promises the connection keeps only under a condition, with the exact condition. */
module ConnectionLimits {
  import opened Kernel
  import opened Pollers
  import opened ConnectionModel
  import opened ConnectionProofs
  import opened ConnectionEffects

  /** One event closes a connection at most once, whatever the kernel and the callbacks do, exactly
      when EPOLLHUP does not come with EPOLLPRI and without EPOLLIN. */
  lemma ClosesAtMostOnce(c: Conn, revents: Revents)
    requires Inv(c) && Up(c)
    ensures (forall env: Env :: HandleEvent(c, revents, env).closes <= 1) <==> Plausible(revents)
  {
    if Plausible(revents) {
      forall env: Env
        ensures HandleEvent(c, revents, env).closes <= 1
      {
        EventKeeps(c, revents, env);
      }
    } else {
      var env := Env(EndOfStream, [], [], Accept(0));
      var c1 := HandleClose(c, []);
      CloseKeeps(c, []);
      assert HandleRead(c1, EndOfStream, []).closes == 2;
      assert HandleEvent(c, revents, env).closes == 2;
    }
  }

  /** What the second close does: `disableAll` finds the channel `Deleted` and adds it again, so a
      closed connection stays registered, with an empty mask that still reports hang-ups. */
  lemma SecondCloseReregisters(c: Conn, calls: seq<Call>, calls': seq<Call>)
    requires Inv(c) && Up(c)
    ensures var r := HandleClose(HandleClose(c, calls), calls');
            r.state == Disconnected && r.index == Added && r.kernel == Some(NO_EVENTS) && r.downs == 2
  {
    CloseKeeps(c, calls);
    var c1 := HandleClose(c, calls);
    ClosedCalls(DisableAll(c1.(state := Disconnected)).(downs := c1.downs + 1), calls');
  }

  /** The destructor asserts `kDisconnected`. Destroying a connection that the server dropped without
      a close meets that assertion exactly when the connection was not half-closed. */
  lemma DestructorAssertion(c: Conn, calls: seq<Call>)
    requires Inv(c) && c.index != New
    ensures ConnectDestroyed(c, calls).state == Disconnected <==> c.state != Disconnecting
    ensures ConnectDestroyed(c, calls).index == New && ConnectDestroyed(c, calls).kernel == None
  {
    if c.state == Connected {
      ClosedCalls(DisableAll(c.(state := Disconnected)).(downs := c.downs + 1), calls);
    }
  }

  /** `shutdown` on another thread: it reads the state, the loop runs `between`, then it stores
      `kDisconnecting` and hands `shutdownInLoop` over. */
  function RacedShutdown(c: Conn, between: seq<Step>): Conn {
    var c1 := Exec(c, between);
    if c.state == Connected then c1.(state := Disconnecting) else c1
  }

  /** The steps that close a connection which is up: a hang-up without EPOLLIN, and the end of the
      stream found by a read. */
  predicate Closes(step: Step) {
    step.Event? && Ends(step.revents, step.env.arrival)
  }

  lemma StepCloses(c: Conn, step: Step)
    requires Inv(c) && Up(c) && Enabled(c, step)
    ensures After(c, step).state == Disconnected <==> Closes(step)
  {
    match step
    case UserCall(call) => CallKeeps(c, call);
    case Deliver(msg, w) => SendKeeps(c, msg, w);
    case Event(revents, env) => EventCloses(c, revents, env);
    case _ =>
  }

  lemma EventCloses(c: Conn, revents: Revents, env: Env)
    requires Inv(c) && Up(c) && Plausible(revents)
    ensures HandleEvent(c, revents, env).state == Disconnected <==> Closes(Step.Event(revents, env))
  {
    if revents.epollhup && !revents.epollin {
      CloseKeeps(c, env.closeCalls);
      WriteKeeps(HandleClose(c, env.closeCalls), env.w);
    } else {
      ReadCloses(c, env.arrival, env.readCalls);
      ReadKeeps(c, env.arrival, env.readCalls);
      WriteKeeps(HandleRead(c, env.arrival, env.readCalls), env.w);
      WriteKeeps(c, env.w);
    }
  }

  lemma ReadCloses(c: Conn, arrival: Arrival, calls: seq<Call>)
    requires Inv(c) && Up(c)
    ensures HandleRead(c, arrival, calls).state == Disconnected <==> arrival.EndOfStream? || arrival == Data([])
  {
    CloseKeeps(c, calls);
    if arrival.Data? {
      assert c.consumed + (c.input + arrival.bytes) == (c.consumed + c.input) + arrival.bytes;
      CallsKeep(c.(input := c.input + arrival.bytes, received := c.received + arrival.bytes), calls);
    }
  }

  /** A run closes a connection exactly when one of its steps is such an event. */
  lemma {:induction false} RunCloses(c: Conn, steps: seq<Step>)
    requires Inv(c) && Up(c) && Legal(c, steps)
    ensures Exec(c, steps).state == Disconnected <==> exists i :: 0 <= i < |steps| && Closes(steps[i])
    decreases |steps|
  {
    if steps != [] {
      StepCloses(c, steps[0]);
      StepKeeps(c, steps[0]);
      var c1 := After(c, steps[0]);
      if Closes(steps[0]) {
        RunKeeps(c1, steps[1..]);
      } else {
        RunCloses(c1, steps[1..]);
        assert forall i :: 1 <= i < |steps| ==> steps[i] == steps[1..][i - 1];
      }
    }
  }

  const HUNG_UP := Step.Event(Revents(false, false, false, false, true), Env(EndOfStream, [], [], Accept(0)))

  /** The store moves the state backwards exactly when a step in between closes the connection ... */
  lemma RaceRevivesClosed(c: Conn, between: seq<Step>)
    requires Inv(c) && c.state == Connected && Legal(c, between)
    ensures Rank(RacedShutdown(c, between).state) < Rank(Exec(c, between).state)
            <==> exists i :: 0 <= i < |between| && Closes(between[i])
    ensures Inv(RacedShutdown(c, between)) ==> forall i :: 0 <= i < |between| ==> !Closes(between[i])
  {
    RunKeeps(c, between);
    RunCloses(c, between);
  }

  /** ... and some schedule does that to every caller that sees `kConnected`, and to no other. */
  lemma RaceThreatens(c: Conn)
    requires Inv(c)
    ensures (exists between :: Legal(c, between)
                               && Rank(RacedShutdown(c, between).state) < Rank(Exec(c, between).state))
            <==> c.state == Connected
  {
    if c.state == Connected {
      var between := [HUNG_UP];
      assert between[1..] == [];
      assert Legal(c, between);
      assert Closes(between[0]);
      RaceRevivesClosed(c, between);
    }
  }

  /** The race does happen: one hang-up between the two halves is enough, and the connection that is
      then destroyed fails its destructor's assertion. */
  lemma RaceExample(cfg: Config)
    ensures var c := ConnectEstablished(Fresh(cfg), []);
            && Inv(c) && Legal(c, [HUNG_UP])
            && Exec(c, [HUNG_UP]).state == Disconnected
            && RacedShutdown(c, [HUNG_UP]).state == Disconnecting
            && ConnectDestroyed(RacedShutdown(c, [HUNG_UP]), []).state == Disconnecting
  {
    var c := ConnectEstablished(Fresh(cfg), []);
    assert [HUNG_UP][1..] == [];
    assert Exec(c, [HUNG_UP]) == HandleClose(c, []);
  }
}
