/** EventLoop.h and EventLoop.cc: the loop object. Each statement that another thread could observe
    is one step of `EventLoopModel`; the object carries its history, and `Valid()` says that this
    history is a legal run ending in the object's fields. So the model's theorems hold of it. */
module EventLoops {
  import opened EventLoopModel

  /** What some thread does to the loop: the loop's own thread from user code, the others at any
      time. `full` says that the eventfd's counter is. */
  datatype Deed<F> = Queue(t: Thread, cb: F, full: bool) | Quit(t: Thread, full: bool)

  function Queued<F>(deeds: seq<Deed<F>>): seq<F> {
    if deeds == [] then []
    else Queued(deeds[..|deeds|-1]) + if deeds[|deeds|-1].Queue? then [deeds[|deeds|-1].cb] else []
  }

  predicate Quits<F>(deeds: seq<Deed<F>>) {
    exists i :: 0 <= i < |deeds| && deeds[i].Quit?
  }

  /** Some deed of another thread, which wakes the loop. */
  predicate Wakes<F>(deeds: seq<Deed<F>>) {
    exists i :: 0 <= i < |deeds| && deeds[i].t != LOOP_THREAD
  }

  /** One iteration: what others do while it is blocked in `poll`; whether the wakeup channel is
      reported if it is readable; what is done before and after that channel's turn; what others do
      before the swap; what is done while the i-th functor of the batch runs; and what others do
      after the batch. */
  datatype Round<F> = Round(
    blocked: seq<Deed<F>>, wakeup: bool, first: seq<Deed<F>>, second: seq<Deed<F>>,
    before: seq<Deed<F>>, during: nat -> seq<Deed<F>>, after: seq<Deed<F>>
  ) {
    function Handled(): seq<Deed<F>> {
      blocked + first + second
    }

    /** What is done during the first `n` functors. */
    function Deeds(n: nat): seq<Deed<F>> {
      if n == 0 then [] else Deeds(n - 1) + during(n - 1)
    }

    /** The functors that the round runs, when `pending` were queued before it. */
    function Batch(pending: seq<F>): seq<F> {
      pending + Queued(Handled()) + Queued(before)
    }

    /** Those it leaves for the next one. */
    function Left(pending: seq<F>): seq<F> {
      Queued(Deeds(|Batch(pending)|)) + Queued(after)
    }

    predicate Stops(pending: seq<F>) {
      Quits(Handled()) || Quits(before) || Quits(Deeds(|Batch(pending)|)) || Quits(after)
    }
  }

  /** What `loop()` executes over some rounds: in each everything pending, in order, and nothing
      after the round in which somebody quits. */
  function Ran<F>(pending: seq<F>, rounds: seq<Round<F>>): seq<F>
    decreases |rounds|
  {
    if rounds == [] then []
    else rounds[0].Batch(pending) +
         if rounds[0].Stops(pending) then [] else Ran(rounds[0].Left(pending), rounds[1..])
  }

  predicate Stops<F>(pending: seq<F>, rounds: seq<Round<F>>)
    decreases |rounds|
  {
    rounds != [] && (rounds[0].Stops(pending) || Stops(rounds[0].Left(pending), rounds[1..]))
  }

  lemma QuitsConcat<F>(a: seq<Deed<F>>, b: seq<Deed<F>>)
    ensures Quits(a + b) <==> Quits(a) || Quits(b)
  {
    if Quits(a) {
      var i :| 0 <= i < |a| && a[i].Quit?;
      assert (a + b)[i].Quit?;
    }
    if Quits(b) {
      var i :| 0 <= i < |b| && b[i].Quit?;
      assert (a + b)[|a| + i].Quit?;
    }
  }

  lemma WakesConcat<F>(a: seq<Deed<F>>, b: seq<Deed<F>>)
    ensures Wakes(a + b) <==> Wakes(a) || Wakes(b)
  {
    if Wakes(a) {
      var i :| 0 <= i < |a| && a[i].t != LOOP_THREAD;
      assert (a + b)[i].t != LOOP_THREAD;
    }
    if Wakes(b) {
      var i :| 0 <= i < |b| && b[i].t != LOOP_THREAD;
      assert (a + b)[|a| + i].t != LOOP_THREAD;
    }
  }

  lemma {:induction false} QueuedConcat<F>(a: seq<Deed<F>>, b: seq<Deed<F>>)
    ensures Queued(a + b) == Queued(a) + Queued(b)
    decreases |b|
  {
    if b == [] {
      assert a + b == a;
    } else {
      assert (a + b)[..|a + b| - 1] == a + b[..|b| - 1];
      QueuedConcat(a, b[..|b| - 1]);
    }
  }

  /** One deed more. */
  lemma DeedsLast<F>(deeds: seq<Deed<F>>, i: nat)
    requires i < |deeds|
    ensures Queued(deeds[..i + 1]) == Queued(deeds[..i]) + if deeds[i].Queue? then [deeds[i].cb] else []
    ensures Quits(deeds[..i + 1]) <==> Quits(deeds[..i]) || deeds[i].Quit?
    ensures Wakes(deeds[..i + 1]) <==> Wakes(deeds[..i]) || deeds[i].t != LOOP_THREAD
  {
    assert deeds[..i + 1][..i] == deeds[..i];
    assert deeds[..i + 1] == deeds[..i] + [deeds[i]];
    QuitsConcat(deeds[..i], [deeds[i]]);
    WakesConcat(deeds[..i], [deeds[i]]);
    assert Quits([deeds[i]]) <==> [deeds[i]][0].Quit?;
    assert Wakes([deeds[i]]) <==> [deeds[i]][0].t != LOOP_THREAD;
  }

  lemma NoDeeds<F>(deeds: seq<Deed<F>>)
    requires |deeds| == 0
    ensures Queued(deeds) == [] && !Quits(deeds) && !Wakes(deeds)
  {
  }

  /** One functor more. */
  lemma DeedsGrow<F>(r: Round<F>, i: nat)
    ensures Queued(r.Deeds(i + 1)) == Queued(r.Deeds(i)) + Queued(r.during(i))
    ensures Quits(r.Deeds(i + 1)) <==> Quits(r.Deeds(i)) || Quits(r.during(i))
  {
    QueuedConcat(r.Deeds(i), r.during(i));
    QuitsConcat(r.Deeds(i), r.during(i));
  }

  lemma HandledSplits<F>(r: Round<F>)
    ensures Queued(r.Handled()) == Queued(r.blocked) + Queued(r.first) + Queued(r.second)
    ensures Quits(r.Handled()) <==> Quits(r.blocked) || Quits(r.first) || Quits(r.second)
  {
    QueuedConcat(r.blocked, r.first);
    QueuedConcat(r.blocked + r.first, r.second);
    QuitsConcat(r.blocked, r.first);
    QuitsConcat(r.blocked + r.first, r.second);
  }

  lemma NoRounds<F>(pending: seq<F>, rounds: seq<Round<F>>)
    requires |rounds| == 0
    ensures Ran(pending, rounds) == [] && !Stops(pending, rounds)
  {
  }

  /** One round: `todo` is what remains after it. */
  lemma OneRound<F>(ran: seq<F>, pending: seq<F>, rounds: seq<Round<F>>, i: nat) returns (todo: seq<F>)
    requires i < |rounds|
    ensures todo == (if rounds[i].Stops(pending) then [] else Ran(rounds[i].Left(pending), rounds[i + 1..]))
    ensures ran + Ran(pending, rounds[i..]) == (ran + rounds[i].Batch(pending)) + todo
    ensures Stops(pending, rounds[i..])
            <==> rounds[i].Stops(pending) || Stops(rounds[i].Left(pending), rounds[i + 1..])
  {
    hide Quits, Queued, Round.Batch, Round.Left, Round.Stops;
    todo := if rounds[i].Stops(pending) then [] else Ran(rounds[i].Left(pending), rounds[i + 1..]);
    assert rounds[i..][1..] == rounds[i + 1..];
    Regroup(ran, rounds[i].Batch(pending), todo);
  }

  lemma Regroup<T>(a: seq<T>, b: seq<T>, c: seq<T>)
    ensures a + (b + c) == (a + b) + c
  {
  }

  class EventLoop<F> {
    var looping: bool
    var quit: bool
    var callingPendingFunctors: bool
    var pendingFunctors: seq<F>
    var eventfd: nat
    ghost var model: Loop<F>
    ghost var trace: seq<Step<F>>

    ghost predicate Valid()
      reads this
    {
      && Legal(Created(), trace) && model == Exec(Created(), trace)
      && model.quit == quit && model.calling == callingPendingFunctors
      && model.pending == pendingFunctors && model.eventfd == eventfd
      && (callingPendingFunctors <==> model.pc == Swapping || model.pc == Running)
    }

    constructor ()
      ensures Valid() && model == Created() && trace == []
    {
      looping, quit, callingPendingFunctors, pendingFunctors, eventfd := false, false, false, [], 0;
      model, trace := Created(), [];
    }

    /** Records one atomic step. */
    ghost method Record(e: Step<F>)
      requires Legal(Created(), trace) && model == Exec(Created(), trace) && Enabled(model, e)
      modifies `model, `trace
      ensures trace == old(trace) + [e] && model == Next(old(model), e)
      ensures Legal(Created(), trace) && model == Exec(Created(), trace)
    {
      assert [e][1..] == [];
      ExecConcat(Created(), trace, [e]);
      trace := trace + [e];
      model := Next(model, e);
    }

    /** The eventfd write fails only when the counter is full, hence not zero. */
    method Wakeup(t: Thread, full: bool)
      requires Valid() && t in model.owing
      modifies `eventfd, `model, `trace
      ensures Valid() && eventfd > 0
      ensures trace == old(trace) + [Wake(t, !full || old(eventfd) == 0)]
      ensures model == Next(old(model), Wake(t, !full || old(eventfd) == 0))
    {
      hide Legal, Exec;
      var ok := !full || eventfd == 0;
      if ok {
        eventfd := eventfd + 1;
      }
      Record(Wake(t, ok));
    }

    method HandleRead()
      requires Valid() && Enabled(model, Step.HandleRead)
      modifies `eventfd, `model, `trace
      ensures Valid() && eventfd == 0
      ensures trace == old(trace) + [Step.HandleRead] && model == Next(old(model), Step.HandleRead)
    {
      hide Legal, Exec;
      eventfd := 0;
      Record(Step.HandleRead);
    }

    /** `t` is the calling thread; `isInLoopThread()` is `t == LOOP_THREAD`. */
    method QueueInLoop(cb: F, t: Thread, full: bool)
      requires Valid() && Enabled(model, Push(t, cb))
      modifies `pendingFunctors, `eventfd, `model, `trace
      ensures Valid() && pendingFunctors == old(pendingFunctors) + [cb]
      ensures t !in model.owing
      ensures t != LOOP_THREAD || callingPendingFunctors ==> eventfd > 0
      ensures eventfd >= old(eventfd) && (t == LOOP_THREAD && !callingPendingFunctors ==> eventfd == old(eventfd))
      ensures model == old(model).(eventfd := eventfd, pending := pendingFunctors, pushed := old(model.pushed) + [cb])
      ensures old(trace) + [Push(t, cb)] <= trace
    {
      hide Legal, Exec;
      pendingFunctors := pendingFunctors + [cb];
      Record(Push(t, cb));
      if t != LOOP_THREAD || callingPendingFunctors {
        Wakeup(t, full);
      }
    }

    method Quit(t: Thread, full: bool)
      requires Valid()
      requires if t == LOOP_THREAD then Enabled(model, LoopQuit) else Enabled(model, QuitStore(t))
      modifies `quit, `eventfd, `model, `trace
      ensures Valid() && quit && (t != LOOP_THREAD ==> eventfd > 0)
      ensures eventfd >= old(eventfd) && (t == LOOP_THREAD ==> eventfd == old(eventfd))
      ensures model == old(model).(eventfd := eventfd, quit := true, polls := model.polls)
      ensures old(trace) <= trace
    {
      hide Legal, Exec;
      quit := true;
      if t == LOOP_THREAD {
        Record(LoopQuit);
      } else {
        Record(QuitStore(t));
        Wakeup(t, full);
      }
    }

    /** One deed, whole: its functor pushed, or the flag stored, and its wakeup written. */
    method Act(d: Deed<F>)
      requires Valid() && d.t !in model.owing && (d.t == LOOP_THREAD ==> InUserCode(model))
      modifies `quit, `pendingFunctors, `eventfd, `model, `trace
      ensures Valid() && old(trace) <= trace
      ensures quit == (old(quit) || d.Quit?)
      ensures pendingFunctors == old(pendingFunctors) + if d.Queue? then [d.cb] else []
      ensures eventfd >= old(eventfd) && (d.t != LOOP_THREAD || (d.Queue? && callingPendingFunctors) ==> eventfd > 0)
      ensures d.t == LOOP_THREAD && !callingPendingFunctors ==> eventfd == old(eventfd)
      ensures model == Moved(old(model))
    {
      hide Legal, Exec;
      match d
      case Queue(t, cb, full) => QueueInLoop(cb, t, full);
      case Quit(t, full) => Quit(t, full);
    }

    /** The loop where it was, after deeds: only its queue, its flag and the eventfd have moved. */
    ghost function Moved(was: Loop<F>): Loop<F>
      reads this
    {
      was.(eventfd := eventfd, pending := pendingFunctors, quit := quit, pushed := model.pushed, polls := model.polls)
    }

    ghost predicate Ready(deeds: seq<Deed<F>>)
      reads this
    {
      forall i :: 0 <= i < |deeds| ==>
        deeds[i].t !in model.owing && (deeds[i].t == LOOP_THREAD ==> InUserCode(model))
    }

    method ActAll(deeds: seq<Deed<F>>)
      requires Valid() && Ready(deeds)
      modifies `quit, `pendingFunctors, `eventfd, `model, `trace
      ensures Valid() && old(trace) <= trace
      ensures quit == (old(quit) || Quits(deeds))
      ensures pendingFunctors == old(pendingFunctors) + Queued(deeds)
      ensures eventfd >= old(eventfd)
      ensures Wakes(deeds) || (Queued(deeds) != [] && callingPendingFunctors) ==> eventfd > 0
      ensures !Wakes(deeds) && !callingPendingFunctors ==> eventfd == old(eventfd)
      ensures model == Moved(old(model))
    {
      hide Legal, Exec, Queued, Quits, Wakes;
      NoDeeds(deeds[..0]);
      for i := 0 to |deeds|
        invariant Valid() && old(trace) <= trace
        invariant quit == (old(quit) || Quits(deeds[..i]))
        invariant pendingFunctors == old(pendingFunctors) + Queued(deeds[..i])
        invariant eventfd >= old(eventfd)
        invariant Wakes(deeds[..i]) || (Queued(deeds[..i]) != [] && callingPendingFunctors) ==> eventfd > 0
        invariant !Wakes(deeds[..i]) && !callingPendingFunctors ==> eventfd == old(eventfd)
        invariant model == Moved(old(model))
      {
        DeedsLast(deeds, i);
        Act(deeds[i]);
      }
      assert deeds[..|deeds|] == deeds;
    }

    /** On the loop's own thread the functor runs at once, here with everything it does to the loop. */
    method RunInLoop(cb: F, t: Thread, full: bool, doing: seq<Deed<F>>)
      requires Valid()
      requires if t == LOOP_THREAD then InUserCode(model) && Ready(doing) else Enabled(model, Push(t, cb))
      modifies `quit, `pendingFunctors, `eventfd, `model, `trace
      ensures Valid() && old(trace) <= trace
      ensures pendingFunctors == old(pendingFunctors) + if t == LOOP_THREAD then Queued(doing) else [cb]
      ensures quit == (old(quit) || (t == LOOP_THREAD && Quits(doing)))
      ensures t != LOOP_THREAD ==> eventfd > 0
      ensures model == Moved(old(model))
    {
      hide Legal, Exec;
      if t == LOOP_THREAD {
        ActAll(doing);
      } else {
        QueueInLoop(cb, t, full);
      }
    }

    /** The threads of a round are free, and only the loop's own runs its user code. */
    ghost predicate Free(r: Round<F>)
      reads this
    {
      && LOOP_THREAD !in model.owing
      && Others(r.blocked) && Others(r.before) && Others(r.after)
      && NoneOwes(r.first) && NoneOwes(r.second) && forall i: nat :: NoneOwes(r.during(i))
    }

    ghost predicate NoneOwes(deeds: seq<Deed<F>>)
      reads this
    {
      forall i :: 0 <= i < |deeds| ==> deeds[i].t !in model.owing
    }

    ghost predicate Others(deeds: seq<Deed<F>>)
      reads this
    {
      forall i :: 0 <= i < |deeds| ==> deeds[i].t !in model.owing && deeds[i].t != LOOP_THREAD
    }

    /** Runs the functors that were pending when it swapped, in order, once each, and leaves those
        queued meanwhile for the next round; it returns even when every functor queues itself again. */
    method DoPendingFunctors(r: Round<F>)
      requires Valid() && model.pc == Flagging && Free(r)
      modifies `quit, `callingPendingFunctors, `pendingFunctors, `eventfd, `model, `trace
      ensures Valid() && model.pc == Testing && model.owing == old(model.owing) && old(trace) <= trace
      ensures var batch := old(pendingFunctors) + Queued(r.before);
              && model.executed == old(model.executed) + batch
              && pendingFunctors == Queued(r.Deeds(|batch|)) + Queued(r.after)
              && quit == (old(quit) || Quits(r.before) || Quits(r.Deeds(|batch|)) || Quits(r.after))
      ensures pendingFunctors != [] ==> eventfd > 0
    {
      hide Legal, Exec;
      var functors := TakeBatch(r.before);
      RunBatch(functors, r);
      EndBatch(r.after);
    }

    /** Sets the flag and swaps, with what others do before the swap. */
    method TakeBatch(before: seq<Deed<F>>) returns (functors: seq<F>)
      requires Valid() && model.pc == Flagging && LOOP_THREAD !in model.owing && Others(before)
      modifies `quit, `callingPendingFunctors, `pendingFunctors, `eventfd, `model, `trace
      ensures Valid() && model.pc == Running && callingPendingFunctors && model.owing == old(model.owing)
      ensures functors == old(pendingFunctors) + Queued(before) && model.batch == functors && pendingFunctors == []
      ensures model.executed == old(model.executed) && quit == (old(quit) || Quits(before)) && old(trace) <= trace
    {
      hide Legal, Exec;
      callingPendingFunctors := true;
      Record(SetCalling);
      ActAll(before);
      functors := pendingFunctors;
      pendingFunctors := [];
      Record(SwapPending);
    }

    /** Clears the flag, with what others do before the next test of `quit_`. */
    method EndBatch(after: seq<Deed<F>>)
      requires Valid() && model.pc == Running && model.batch == [] && LOOP_THREAD !in model.owing && Others(after)
      requires pendingFunctors != [] ==> eventfd > 0
      modifies `quit, `callingPendingFunctors, `pendingFunctors, `eventfd, `model, `trace
      ensures Valid() && model.pc == Testing && model.owing == old(model.owing) && old(trace) <= trace
      ensures model.executed == old(model.executed) && quit == (old(quit) || Quits(after))
      ensures pendingFunctors == old(pendingFunctors) + Queued(after) && (pendingFunctors != [] ==> eventfd > 0)
    {
      hide Legal, Exec;
      callingPendingFunctors := false;
      Record(ClearCalling);
      ActAll(after);
      if after != [] {
        assert after[0].t != LOOP_THREAD;
      }
    }

    method RunBatch(functors: seq<F>, r: Round<F>)
      requires Valid() && model.pc == Running && callingPendingFunctors && Free(r)
      requires model.batch == functors && pendingFunctors == []
      modifies `quit, `pendingFunctors, `eventfd, `model, `trace
      ensures Valid() && model.pc == Running && model.owing == old(model.owing) && old(trace) <= trace
      ensures model.batch == [] && model.executed == old(model.executed) + functors
      ensures pendingFunctors == Queued(r.Deeds(|functors|))
      ensures quit == (old(quit) || Quits(r.Deeds(|functors|)))
      ensures pendingFunctors != [] ==> eventfd > 0
    {
      hide Legal, Exec, Queued, Quits;
      NoDeeds(r.Deeds(0));
      for i := 0 to |functors|
        invariant Valid() && model.pc == Running && model.owing == old(model.owing) && old(trace) <= trace
        invariant model.batch == functors[i..] && model.executed == old(model.executed) + functors[..i]
        invariant pendingFunctors == Queued(r.Deeds(i)) && quit == (old(quit) || Quits(r.Deeds(i)))
        invariant pendingFunctors != [] ==> eventfd > 0
      {
        DeedsGrow(r, i);
        RunOne(r.during(i));
      }
    }

    /** The next functor of the batch, with what is done meanwhile. */
    method RunOne(deeds: seq<Deed<F>>)
      requires Valid() && model.pc == Running && model.batch != [] && LOOP_THREAD !in model.owing
      requires callingPendingFunctors && NoneOwes(deeds)
      modifies `quit, `pendingFunctors, `eventfd, `model, `trace
      ensures Valid() && model.pc == Running && model.owing == old(model.owing) && old(trace) <= trace
      ensures model.batch == old(model.batch)[1..] && model.executed == old(model.executed) + [old(model.batch)[0]]
      ensures pendingFunctors == old(pendingFunctors) + Queued(deeds) && quit == (old(quit) || Quits(deeds))
      ensures eventfd >= old(eventfd) && (Queued(deeds) != [] ==> eventfd > 0)
    {
      hide Legal, Exec;
      Record(RunNext);
      ActAll(deeds);
    }

    /** `loop()` for as long as `rounds` last: any finite beginning of its run. */
    method RunLoop(rounds: seq<Round<F>>)
      requires Valid() && model.pc == BeforeLoop && forall i :: 0 <= i < |rounds| ==> Free(rounds[i])
      requires LOOP_THREAD !in model.owing
      modifies this
      ensures Valid() && old(trace) <= trace
      ensures quit <==> Stops(old(pendingFunctors), rounds)
      ensures if quit then model.pc == Stopped && !looping else model.pc == Testing && looping
      ensures model.executed == old(model.executed) + Ran(old(pendingFunctors), rounds)
    {
      hide Legal, Exec, Ran, Stops;
      Begin();
      RunRounds(rounds);
      if quit {
        Record(TestQuit);
        looping := false;
      }
    }

    /** What `loop()` does before its first test. */
    method Begin()
      requires Valid() && model.pc == BeforeLoop && LOOP_THREAD !in model.owing
      modifies `looping, `quit, `model, `trace
      ensures Valid() && model.pc == Testing && looping && !quit && model.owing == old(model.owing)
      ensures model.executed == old(model.executed) && old(trace) <= trace
    {
      hide Legal, Exec;
      looping := true;
      quit := false;
      Record(Enter);
    }

    /** `while(!quit_)`. */
    method RunRounds(rounds: seq<Round<F>>)
      requires Valid() && model.pc == Testing && !quit && forall i :: 0 <= i < |rounds| ==> Free(rounds[i])
      modifies `quit, `callingPendingFunctors, `pendingFunctors, `eventfd, `model, `trace
      ensures Valid() && model.pc == Testing && model.owing == old(model.owing) && old(trace) <= trace
      ensures quit <==> Stops(old(pendingFunctors), rounds)
      ensures model.executed == old(model.executed) + Ran(old(pendingFunctors), rounds)
    {
      hide Legal, Exec, Ran, Stops;
      var i := 0;
      ghost var todo := Ran(pendingFunctors, rounds);
      assert rounds[0..] == rounds;
      while !quit && i < |rounds|
        invariant 0 <= i <= |rounds|
        invariant Valid() && model.pc == Testing && model.owing == old(model.owing) && old(trace) <= trace
        invariant (quit || Stops(pendingFunctors, rounds[i..])) <==> Stops(old(pendingFunctors), rounds)
        invariant todo == if quit then [] else Ran(pendingFunctors, rounds[i..])
        invariant model.executed + todo == old(model.executed + Ran(pendingFunctors, rounds))
        decreases |rounds| - i
      {
        todo := OneRound(model.executed, pendingFunctors, rounds, i);
        Record(TestQuit);
        Iterate(rounds[i]);
        i := i + 1;
      }
      if !quit {
        NoRounds(pendingFunctors, rounds[i..]);
      }
      assert model.executed + [] == model.executed;
    }

    method Iterate(r: Round<F>)
      requires Valid() && model.pc == Polling && !quit && Free(r)
      modifies `quit, `callingPendingFunctors, `pendingFunctors, `eventfd, `model, `trace
      ensures Valid() && model.pc == Testing && model.owing == old(model.owing) && old(trace) <= trace
      ensures model.executed == old(model.executed) + r.Batch(old(pendingFunctors))
      ensures pendingFunctors == r.Left(old(pendingFunctors))
      ensures quit == r.Stops(old(pendingFunctors))
    {
      hide Legal, Exec;
      HandleEvents(r);
      DoPendingFunctors(r);
    }

    /** `poll` returns and the active channels are handled, the wakeup channel among them: its handler
        drains the counter, which stays drained unless another thread writes it again. */
    method HandleEvents(r: Round<F>)
      requires Valid() && model.pc == Polling && !quit && Free(r)
      modifies `quit, `pendingFunctors, `eventfd, `model, `trace
      ensures Valid() && model.pc == Flagging && model.owing == old(model.owing) && old(trace) <= trace
      ensures model.executed == old(model.executed) && callingPendingFunctors == old(callingPendingFunctors)
      ensures pendingFunctors == old(pendingFunctors) + Queued(r.Handled()) && quit == Quits(r.Handled())
      ensures r.wakeup && (old(eventfd) > 0 || Wakes(r.blocked)) ==> (eventfd > 0 <==> Wakes(r.second))
    {
      hide Legal, Exec;
      HandledSplits(r);
      var wakeup := Wait(r.blocked, r.wakeup);
      Dispatch(r.first, wakeup, r.second);
    }

    /** Blocked in `poll`, and what it reports of the wakeup channel. */
    method Wait(blocked: seq<Deed<F>>, report: bool) returns (wakeup: bool)
      requires Valid() && model.pc == Polling && LOOP_THREAD !in model.owing && Others(blocked)
      modifies `quit, `pendingFunctors, `eventfd, `model, `trace
      ensures Valid() && model.pc == Handling && model.readable == wakeup && model.owing == old(model.owing)
      ensures wakeup <==> report && (old(eventfd) > 0 || Wakes(blocked))
      ensures pendingFunctors == old(pendingFunctors) + Queued(blocked) && quit == (old(quit) || Quits(blocked))
      ensures model.executed == old(model.executed) && old(trace) <= trace
    {
      hide Legal, Exec;
      ActAll(blocked);
      wakeup := report && eventfd > 0;
      Record(PollReturns(wakeup));
    }

    /** The handlers, with the wakeup channel's in its turn. */
    method Dispatch(first: seq<Deed<F>>, wakeup: bool, second: seq<Deed<F>>)
      requires Valid() && model.pc == Handling && model.readable == wakeup && LOOP_THREAD !in model.owing
      requires NoneOwes(first) && NoneOwes(second)
      modifies `quit, `pendingFunctors, `eventfd, `model, `trace
      ensures Valid() && model.pc == Flagging && model.owing == old(model.owing) && old(trace) <= trace
      ensures pendingFunctors == old(pendingFunctors) + Queued(first) + Queued(second)
      ensures quit == (old(quit) || Quits(first) || Quits(second)) && model.executed == old(model.executed)
      ensures wakeup ==> (eventfd > 0 <==> Wakes(second))
    {
      hide Legal, Exec;
      ActAll(first);
      if wakeup {
        HandleRead();
      }
      ActAll(second);
      Record(HandlersDone);
    }

    /** At any time the object's history has executed its functors first in, first out, exactly once. */
    lemma HistoryIsOrderly()
      requires Valid()
      ensures model.executed + model.batch + pendingFunctors == model.pushed
    {
      FifoExactlyOnce(trace);
    }

    /** ... and if `loop()` was entered properly, after `before`, it never waits with a functor or a
        `quit` that nobody is going to wake it for. */
    lemma HistoryLosesNothing(before: seq<Step<F>>)
      requires Valid() && Enter !in before && before + [Enter] <= trace
      requires Legal(Created(), before) && ReadyToEnter(Exec(Created(), before))
      ensures !LostWakeup(model) && !LostQuit(model)
    {
      var rest := trace[|before| + 1..];
      assert trace == before + ([Enter] + rest);
      BeforeRun(Created(), before);
      ExecSplit(Created(), before, [Enter] + rest);
      assert ([Enter] + rest)[1..] == rest;
      NoLostWakeup(Exec(Created(), before), rest);
    }
  }
}
