/** EventLoop.cc as interleaved atomic steps: the loop's own thread and any number of other threads
    that call `queueInLoop` and `quit`, with the eventfd between them. */
module EventLoopModel {

  /** Where the loop thread is. `BeforeLoop` is the time before `loop()` is entered. */
  datatype Pc = BeforeLoop | Testing | Polling | Handling | Flagging | Swapping | Running | Stopped

  type Thread = nat

  const LOOP_THREAD: Thread := 0

  datatype Loop<F> = Loop(
    pc: Pc,
    quit: bool,                // quit_
    calling: bool,             // callingPendingFunctors_
    pending: seq<F>,           // pendingFunctors_
    batch: seq<F>,             // the unrun rest of the swapped functors
    eventfd: nat,              // the wakeup counter
    readable: bool,            // the wakeup channel is still to be handled in this iteration
    owing: set<Thread>,        // threads between their push, or their `quit_ = true`, and their wakeup
    executed: seq<F>,          // functors begun, oldest first
    pushed: seq<F>,            // every functor ever queued, oldest first
    swapped: nat,              // how many functors had been queued at the last swap
    swaps: nat, rounds: nat,   // calls of `doPendingFunctors` that have swapped, and that have returned
    polls: nat                 // returns of `poll` since `quit_` was last set
  )

  function Created<F>(): Loop<F> {
    Loop(BeforeLoop, false, false, [], [], 0, false, {}, [], [], 0, 0, 0, 0)
  }

  datatype Step<F> =
    // the loop thread
    | Enter                          // looping_ = true; quit_ = false
    | TestQuit                       // while(!quit_)
    | PollReturns(wakeup: bool)      // poll() reports the wakeup channel or not
    | HandleRead                     // the wakeup channel's handler reads the eventfd
    | HandlersDone
    | SetCalling
    | SwapPending
    | RunNext                        // the next functor of the batch begins
    | ClearCalling
    | LoopQuit                       // quit() from a handler or a functor
    // any thread
    | Push(t: Thread, f: F)          // queueInLoop up to the end of its critical section
    | QuitStore(t: Thread)           // another thread's quit_ = true
    | Wake(t: Thread, ok: bool)      // the eventfd write that t owes

  /** User code of the loop thread can run. */
  predicate InUserCode<F>(s: Loop<F>) {
    s.pc == BeforeLoop || s.pc == Handling || s.pc == Running
  }

  predicate Enabled<F>(s: Loop<F>, e: Step<F>) {
    match e
    case Enter => s.pc == BeforeLoop && LOOP_THREAD !in s.owing
    case TestQuit => s.pc == Testing
    case PollReturns(wakeup) => s.pc == Polling && (wakeup ==> s.eventfd > 0)
    case HandleRead => s.pc == Handling && s.readable && LOOP_THREAD !in s.owing
    case HandlersDone => s.pc == Handling && !s.readable && LOOP_THREAD !in s.owing
    case SetCalling => s.pc == Flagging
    case SwapPending => s.pc == Swapping
    case RunNext => s.pc == Running && s.batch != [] && LOOP_THREAD !in s.owing
    case ClearCalling => s.pc == Running && s.batch == [] && LOOP_THREAD !in s.owing
    case LoopQuit => InUserCode(s) && LOOP_THREAD !in s.owing
    case Push(t, _) => t !in s.owing && (t == LOOP_THREAD ==> InUserCode(s))
    case QuitStore(t) => t != LOOP_THREAD && t !in s.owing
    case Wake(t, ok) => t in s.owing && (!ok ==> s.eventfd > 0)
  }

  function Next<F>(s: Loop<F>, e: Step<F>): Loop<F>
    requires Enabled(s, e)
  {
    match e
    case Enter => s.(pc := Testing, quit := false, polls := 0)
    case TestQuit => s.(pc := if s.quit then Stopped else Polling)
    case PollReturns(wakeup) => s.(pc := Handling, readable := wakeup, polls := s.polls + if s.quit then 1 else 0)
    case HandleRead => s.(readable := false, eventfd := 0)
    case HandlersDone => s.(pc := Flagging)
    case SetCalling => s.(pc := Swapping, calling := true)
    case SwapPending =>
      s.(pc := Running, batch := s.pending, pending := [], swapped := |s.pushed|, swaps := s.swaps + 1)
    case RunNext => s.(batch := s.batch[1..], executed := s.executed + [s.batch[0]])
    case ClearCalling => s.(pc := Testing, calling := false, rounds := s.rounds + 1)
    case LoopQuit => s.(quit := true, polls := if s.quit then s.polls else 0)
    case Push(t, f) =>
      s.(pending := s.pending + [f], pushed := s.pushed + [f],
         owing := if t != LOOP_THREAD || s.calling then s.owing + {t} else s.owing)
    case QuitStore(t) => s.(quit := true, owing := s.owing + {t}, polls := if s.quit then s.polls else 0)
    case Wake(t, ok) => s.(eventfd := if ok then s.eventfd + 1 else s.eventfd, owing := s.owing - {t})
  }

  predicate Legal<F>(s: Loop<F>, steps: seq<Step<F>>)
    decreases |steps|
  {
    steps == [] || (Enabled(s, steps[0]) && Legal(Next(s, steps[0]), steps[1..]))
  }

  function Exec<F>(s: Loop<F>, steps: seq<Step<F>>): Loop<F>
    requires Legal(s, steps)
    decreases |steps|
  {
    if steps == [] then s else Exec(Next(s, steps[0]), steps[1..])
  }

  lemma {:induction false} ExecConcat<F>(s: Loop<F>, a: seq<Step<F>>, b: seq<Step<F>>)
    requires Legal(s, a) && Legal(Exec(s, a), b)
    ensures Legal(s, a + b) && Exec(s, a + b) == Exec(Exec(s, a), b)
    decreases |a|
  {
    if a == [] {
      assert a + b == b;
    } else {
      assert (a + b)[1..] == a[1..] + b;
      ExecConcat(Next(s, a[0]), a[1..], b);
    }
  }

  lemma {:induction false} ExecSplit<F>(s: Loop<F>, a: seq<Step<F>>, b: seq<Step<F>>)
    requires Legal(s, a + b)
    ensures Legal(s, a) && Legal(Exec(s, a), b) && Exec(s, a + b) == Exec(Exec(s, a), b)
    decreases |a|
  {
    if a == [] {
      assert a + b == b;
    } else {
      assert (a + b)[1..] == a[1..] + b;
      ExecSplit(Next(s, a[0]), a[1..], b);
    }
  }

  // ---------------------------------------------------------------- invariants

  /** A wakeup is in the eventfd, or a thread is about to put one there. */
  predicate Signalled<F>(s: Loop<F>) {
    s.eventfd > 0 || s.owing != {}
  }

  /** The loop's next swap comes before its next poll. */
  predicate WillSwap<F>(s: Loop<F>) {
    s.pc == Handling || s.pc == Flagging || s.pc == Swapping
  }

  predicate WakeupInv<F>(s: Loop<F>) {
    && (s.pending != [] && !WillSwap(s) ==> Signalled(s))
    && (s.pc == Polling && s.quit ==> Signalled(s) && s.polls == 0)
    && (s.quit ==> s.polls <= 1)
    && (s.calling <==> s.pc == Running || s.pc == Swapping)
    && (LOOP_THREAD in s.owing ==> s.pc == Running)
  }

  ghost predicate QueueInv<F>(s: Loop<F>) {
    && s.executed + s.batch + s.pending == s.pushed
    && (s.pc == Running ==> s.swapped == |s.executed| + |s.batch|)
    && (s.pc != Running ==> s.batch == [])
    && s.swaps == s.rounds + (if s.pc == Running then 1 else 0)
  }

  /** What the code needs of the time before `loop()`: neither a functor queued by the loop's own
      thread, which writes no wakeup then, nor a `quit`, which line 65 undoes. */
  predicate ReadyToEnter<F>(s: Loop<F>) {
    s.pending != [] ==> Signalled(s)
  }

  lemma WakeupStep<F>(s: Loop<F>, e: Step<F>)
    requires s.pc != BeforeLoop && WakeupInv(s) && Enabled(s, e)
    ensures WakeupInv(Next(s, e)) && Next(s, e).pc != BeforeLoop
  {
    if e.Wake? && !e.ok {
      assert s.eventfd > 0;
    }
  }

  lemma QueueStep<F>(s: Loop<F>, e: Step<F>)
    requires QueueInv(s) && Enabled(s, e)
    ensures QueueInv(Next(s, e))
  {
    match e
    case Push(_, f) => assert s.executed + s.batch + (s.pending + [f]) == (s.executed + s.batch + s.pending) + [f];
    case SwapPending => assert s.executed + s.pending + [] == s.executed + [] + s.pending;
    case RunNext => assert (s.executed + [s.batch[0]]) + s.batch[1..] == s.executed + s.batch;
    case _ =>
  }

  lemma {:induction false} WakeupRun<F>(s: Loop<F>, steps: seq<Step<F>>)
    requires s.pc != BeforeLoop && WakeupInv(s) && Legal(s, steps)
    ensures WakeupInv(Exec(s, steps))
    decreases |steps|
  {
    if steps != [] {
      WakeupStep(s, steps[0]);
      WakeupRun(Next(s, steps[0]), steps[1..]);
    }
  }

  lemma {:induction false} QueueRun<F>(s: Loop<F>, steps: seq<Step<F>>)
    requires QueueInv(s) && Legal(s, steps)
    ensures QueueInv(Exec(s, steps))
    decreases |steps|
  {
    if steps != [] {
      QueueStep(s, steps[0]);
      QueueRun(Next(s, steps[0]), steps[1..]);
    }
  }

  // ---------------------------------------------------------------- before the loop is entered

  /** What holds before `loop()`, whoever queues what. */
  predicate BeforeInv<F>(s: Loop<F>) {
    s.pc == BeforeLoop && !s.calling && LOOP_THREAD !in s.owing && s.batch == []
  }

  lemma {:induction false} BeforeRun<F>(s: Loop<F>, steps: seq<Step<F>>)
    requires BeforeInv(s) && Legal(s, steps) && Enter !in steps
    ensures BeforeInv(Exec(s, steps))
    decreases |steps|
  {
    if steps != [] {
      BeforeRun(Next(s, steps[0]), steps[1..]);
    }
  }

  /** The loop can block in `poll` with a functor waiting and nobody about to wake it. */
  predicate LostWakeup<F>(s: Loop<F>) {
    s.pc == Polling && s.pending != [] && !Signalled(s)
  }

  predicate LostQuit<F>(s: Loop<F>) {
    s.pc == Polling && s.quit && !Signalled(s)
  }

  /** Entering `loop()` loses no wakeup, in any continuation, exactly when every functor queued so far
      comes with a wakeup or with a thread about to write one. */
  lemma EnterLosesNoWakeup<F(!new)>(s: Loop<F>)
    requires BeforeInv(s)
    ensures (forall steps :: Legal(Next(s, Enter), steps) ==> !LostWakeup(Exec(Next(s, Enter), steps)))
            <==> ReadyToEnter(s)
  {
    var s1 := Next(s, Enter);
    if ReadyToEnter(s) {
      forall steps | Legal(s1, steps)
        ensures !LostWakeup(Exec(s1, steps))
      {
        WakeupRun(s1, steps);
      }
    } else {
      var first: seq<Step<F>> := [TestQuit];
      assert first[1..] == [];
      assert Legal(s1, first) && LostWakeup(Exec(s1, first));
    }
  }

  /** A functor that the loop's own thread queues before `loop()` is such a loss: nothing wakes the
      poll, which then waits for its ten seconds. */
  lemma QueueBeforeLoopExample<F>(f: F)
    ensures Enabled(Created(), Push(LOOP_THREAD, f))
    ensures LostWakeup(Next(Next(Next(Created(), Push(LOOP_THREAD, f)), Enter), TestQuit))
  {
  }

  /** A `quit` before `loop()` is always undone: whatever was asked, the loop goes on to poll. */
  lemma QuitBeforeLoopIsUndone<F>(s: Loop<F>)
    requires BeforeInv(s)
    ensures Next(Next(s, Enter), TestQuit).pc == Polling && !Next(Next(s, Enter), TestQuit).quit
  {
  }

  // ---------------------------------------------------------------- main results

  /** No lost wakeup, no lost quit: once `loop()` was entered properly, then in every interleaving,
      whenever the loop is at or in `poll` with a functor pending or `quit_` set, the eventfd is
      readable or some thread is between its push and its wakeup. */
  lemma NoLostWakeup<F>(s: Loop<F>, steps: seq<Step<F>>)
    requires BeforeInv(s) && ReadyToEnter(s) && Legal(Next(s, Enter), steps)
    ensures !LostWakeup(Exec(Next(s, Enter), steps)) && !LostQuit(Exec(Next(s, Enter), steps))
  {
    WakeupRun(Next(s, Enter), steps);
  }

  /** After `quit_` was set the loop returns from `poll` at most once more, and it tests `quit_`
      before it polls again. */
  lemma QuitAfterOnePoll<F>(s: Loop<F>, steps: seq<Step<F>>)
    requires BeforeInv(s) && ReadyToEnter(s) && Legal(Next(s, Enter), steps)
    ensures var r := Exec(Next(s, Enter), steps);
            && (r.quit ==> r.polls <= 1)
            && (r.quit && r.pc == Testing ==> Next(r, TestQuit).pc == Stopped)
            && (r.quit && r.polls == 1 ==> r.pc != Polling)
  {
    WakeupRun(Next(s, Enter), steps);
  }

  /** `quit_` is never cleared while the loop runs, and a stopped loop stays stopped. */
  lemma {:induction false} QuitPersists<F>(s: Loop<F>, steps: seq<Step<F>>)
    requires s.pc != BeforeLoop && s.quit && Legal(s, steps)
    ensures Exec(s, steps).quit && Exec(s, steps).pc != BeforeLoop
    ensures s.pc == Stopped ==> Exec(s, steps).pc == Stopped && Exec(s, steps).executed == s.executed
    decreases |steps|
  {
    if steps != [] {
      QuitPersists(Next(s, steps[0]), steps[1..]);
    }
  }

  /** First in, first out, exactly once: the functors begun, then the rest of the batch, then the
      pending ones, are always the whole history of `queueInLoop`; and one `doPendingFunctors` runs
      exactly the functors queued before its swap, however many they queue themselves. */
  lemma FifoExactlyOnce<F>(steps: seq<Step<F>>)
    requires Legal(Created<F>(), steps)
    ensures var r := Exec(Created<F>(), steps);
            && r.executed + r.batch + r.pending == r.pushed
            && (r.pc == Running ==> r.swapped <= |r.pushed| && r.executed + r.batch == r.pushed[..r.swapped])
            && (r.pc != Running ==> r.executed + r.pending == r.pushed)
  {
    QueueRun(Created<F>(), steps);
    var r := Exec(Created<F>(), steps);
    assert r.executed + r.batch == (r.executed + r.batch + r.pending)[..|r.executed| + |r.batch|];
    if r.pc != Running {
      assert r.executed + [] + r.pending == r.executed + r.pending;
    }
  }

  /** A queued functor has begun by the end of the next iteration: once the loop has swapped after the
      call and finished that batch, everything queued at the time of the call has been executed. */
  lemma RunsByNextRound<F>(s: Loop<F>, steps: seq<Step<F>>)
    requires QueueInv(s) && Legal(s, steps)
    requires Exec(s, steps).rounds > s.swaps
    ensures s.pushed <= Exec(s, steps).executed
  {
    HistoryGrows(s, steps);
    SwapTakesAll(s, steps);
    QueueRun(s, steps);
    var r := Exec(s, steps);
    assert r.executed == r.pushed[..|r.executed|];
  }

  lemma {:induction false} HistoryGrows<F>(s: Loop<F>, steps: seq<Step<F>>)
    requires Legal(s, steps)
    ensures s.pushed <= Exec(s, steps).pushed
    decreases |steps|
  {
    if steps != [] {
      HistoryGrows(Next(s, steps[0]), steps[1..]);
    }
  }

  /** After one swap everything queued at `s` is in the batch or begun; after that batch, all begun. */
  lemma {:induction false} SwapTakesAll<F>(s: Loop<F>, steps: seq<Step<F>>)
    requires QueueInv(s) && Legal(s, steps)
    ensures Covers(s, |s.pushed|, Exec(s, steps))
    decreases |steps|
  {
    CoversRun(s, |s.pushed|, s, steps);
  }

  predicate Covers<F>(s: Loop<F>, n: nat, r: Loop<F>) {
    && n <= |r.pushed|
    && (r.swaps > s.swaps ==> |r.executed| + |r.batch| >= n)
    && (r.rounds > s.swaps ==> |r.executed| >= n)
  }

  lemma CoversStep<F>(s: Loop<F>, n: nat, r: Loop<F>, e: Step<F>)
    requires QueueInv(r) && Covers(s, n, r) && Enabled(r, e)
    ensures Covers(s, n, Next(r, e))
  {
  }

  lemma {:induction false} CoversRun<F>(s: Loop<F>, n: nat, r: Loop<F>, steps: seq<Step<F>>)
    requires QueueInv(r) && Covers(s, n, r) && Legal(r, steps)
    ensures Covers(s, n, Exec(r, steps))
    decreases |steps|
  {
    hide QueueInv, Covers, Enabled, Next;
    if steps != [] {
      QueueStep(r, steps[0]);
      CoversStep(s, n, r, steps[0]);
      CoversRun(s, n, Next(r, steps[0]), steps[1..]);
    }
  }
}
