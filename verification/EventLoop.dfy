/** Eventloop.cpp: the functor queue and the wakeup protocol of one loop, first as a machine whose
    steps interleave the loop's thread with any number of other threads, then as the class itself. */
module EventLoops {
  import opened Common

  datatype Phase = Idle | Checking | Polling | Dispatching | Running | Stopped

  /** `counter` is the eventfd. `owes` says that the loop's own thread has pushed a functor and not yet
      written the eventfd, `writers` counts the other threads between their store and that write. A batch is
      `done + rest`: its executed functors stay alive until the batch ends. `queued` and `executed` are
      histories. */
  datatype Loop<T> = Loop(
    phase: Phase,
    quit: bool,
    calling: bool,
    counter: nat,
    owes: bool,
    writers: nat,
    pending: seq<T>,
    rest: seq<T>,
    done: seq<T>,
    queued: seq<T>,
    executed: seq<T>)
  {
    /** Functors still to be executed, in order. */
    function Todo(): seq<T> { rest + pending }
  }

  /** Constructed, `loop()` not called yet. */
  function Dormant<T>(): Loop<T> {
    Loop(Idle, false, false, 0, false, 0, [], [], [], [], [])
  }

  /** Just entered `loop()`. */
  function NewLoop<T>(): Loop<T> {
    Dormant<T>().(phase := Checking)
  }

  // ------------------------------------------------------------------ atomic steps

  function Push<T>(l: Loop<T>, t: T): Loop<T> {
    l.(pending := l.pending + [t], queued := l.queued + [t])
  }

  datatype LoopStep<T> =
    | RemotePush(t: T)   // another thread: push under the lock
    | RemoteQuit         // another thread: store quit_
    | RemoteWrite        // another thread: wakeup() after either of these
    | OwnPush(t: T)      // own thread, from a handler or a functor
    | OwnWrite           // own thread: wakeup() after a push made while a batch runs
    | OwnQuit
    | Enter              // loop() is called: quit_ is reset
    | Check              // while (!quit_)
    | PollReturns
    | DrainWakeup        // handleRead of the wakeup channel
    | SwapBatch
    | RunNext
    | EndBatch

  predicate Enabled<T>(l: Loop<T>, s: LoopStep<T>) {
    match s
    case RemotePush(_) => true
    case RemoteQuit => true
    case RemoteWrite => l.writers > 0
    case OwnPush(_) => (l.phase == Dispatching || l.phase == Running) && !l.owes
    case OwnWrite => l.owes
    case OwnQuit => (l.phase == Dispatching || l.phase == Running) && !l.owes
    case Enter => l.phase == Idle || l.phase == Stopped
    case Check => l.phase == Checking
    case PollReturns => l.phase == Polling
    case DrainWakeup => l.phase == Dispatching
    case SwapBatch => l.phase == Dispatching
    case RunNext => l.phase == Running && !l.owes && l.rest != []
    case EndBatch => l.phase == Running && !l.owes && l.rest == []
  }

  function Next<T>(l: Loop<T>, s: LoopStep<T>): Loop<T>
    requires Enabled(l, s)
  {
    match s
    case RemotePush(t) => Push(l, t).(writers := l.writers + 1)
    case RemoteQuit => l.(quit := true, writers := l.writers + 1)
    case RemoteWrite => l.(writers := l.writers - 1, counter := l.counter + 1)
    case OwnPush(t) => Push(l, t).(owes := l.calling)
    case OwnWrite => l.(owes := false, counter := l.counter + 1)
    case OwnQuit => l.(quit := true)
    case Enter => l.(phase := Checking, quit := false)
    case Check => l.(phase := if l.quit then Stopped else Polling)
    case PollReturns => l.(phase := Dispatching)
    case DrainWakeup => l.(counter := 0)
    case SwapBatch => l.(phase := Running, calling := true, rest := l.pending, pending := [], done := [])
    case RunNext => l.(rest := l.rest[1..], done := l.done + [l.rest[0]], executed := l.executed + [l.rest[0]])
    case EndBatch => l.(phase := Checking, calling := false, done := [])
  }

  ghost predicate IsRun<T(!new)>(l: Loop<T>, steps: seq<LoopStep<T>>)
    decreases |steps|
  {
    steps == [] || (Enabled(l, steps[0]) && IsRun(Next(l, steps[0]), steps[1..]))
  }

  ghost function After<T(!new)>(l: Loop<T>, steps: seq<LoopStep<T>>): Loop<T>
    requires IsRun(l, steps)
    decreases |steps|
  {
    if steps == [] then l else After(Next(l, steps[0]), steps[1..])
  }

  // ------------------------------------------------------------------- invariants

  /** Somebody has written the eventfd since it was last read, or is about to. */
  predicate WakeupOnItsWay<T>(l: Loop<T>) {
    l.counter > 0 || l.writers > 0 || l.owes
  }

  ghost predicate Sound<T(!new)>(l: Loop<T>) {
    && l.executed + l.rest + l.pending == l.queued
    && (l.calling <==> l.phase == Running)
    && (l.owes ==> l.phase == Running)
    && (l.phase != Running ==> l.rest == [] && l.done == [])
    && (l.phase != Dispatching && l.pending != [] ==> WakeupOnItsWay(l))
    && (l.phase == Polling && l.quit ==> WakeupOnItsWay(l))
  }

  lemma NextKeepsSound<T(!new)>(l: Loop<T>, s: LoopStep<T>)
    requires Sound(l) && Enabled(l, s)
    ensures Sound(Next(l, s))
  {
    match s
    case RemotePush(t) => assert l.executed + l.rest + (l.pending + [t]) == (l.executed + l.rest + l.pending) + [t];
    case OwnPush(t) => assert l.executed + l.rest + (l.pending + [t]) == (l.executed + l.rest + l.pending) + [t];
    case SwapBatch => assert l.executed + l.pending + [] == l.executed + [] + l.pending;
    case RunNext => assert l.executed + [l.rest[0]] + l.rest[1..] == l.executed + l.rest;
    case _ =>
  }

  lemma {:induction false} RunKeepsSound<T(!new)>(l: Loop<T>, steps: seq<LoopStep<T>>)
    requires Sound(l) && IsRun(l, steps)
    ensures Sound(After(l, steps))
    decreases |steps|
  {
    if steps != [] {
      NextKeepsSound(l, steps[0]);
      RunKeepsSound(Next(l, steps[0]), steps[1..]);
    }
  }

  /** No wakeup is lost: in every interleaving, while the loop's thread is anywhere but between the return of a
      poll and the swap, a non-empty queue means the eventfd is readable or somebody is about to write it; and
      once everybody has finished writing, a loop blocked in poll has nothing queued and was not told to quit. */
  lemma NoLostWakeup<T(!new)>(steps: seq<LoopStep<T>>)
    requires IsRun(Dormant<T>(), steps)
    ensures var l := After(Dormant<T>(), steps);
            && (l.phase != Dispatching && l.pending != [] ==> WakeupOnItsWay(l))
            && (l.phase == Polling && l.counter == 0 && l.writers == 0 ==> l.pending == [] && !l.quit)
  {
    RunKeepsSound(Dormant<T>(), steps);
  }

  /** First in, first out, exactly once: what was executed, then the rest of the batch, then the queue, is
      everything that was ever queued, in order. */
  lemma FunctorsConserved<T(!new)>(steps: seq<LoopStep<T>>)
    requires IsRun(Dormant<T>(), steps)
    ensures var l := After(Dormant<T>(), steps);
            l.executed + l.rest + l.pending == l.queued && l.executed <= l.queued
  {
    RunKeepsSound(Dormant<T>(), steps);
    var l := After(Dormant<T>(), steps);
    assert l.queued == l.executed + (l.rest + l.pending);
  }

  // ----------------------------------------------------------------------- quitting

  predicate QuitCalled<T>(s: LoopStep<T>) {
    s.RemoteQuit? || s.OwnQuit?
  }

  /** Some call of `quit` comes after the last entry into `loop()`. */
  ghost predicate QuitSinceEnter<T(!new)>(steps: seq<LoopStep<T>>) {
    exists i :: 0 <= i < |steps| && QuitCalled(steps[i]) && Enter !in steps[i..]
  }

  lemma QuitSinceEnterRest<T(!new)>(steps: seq<LoopStep<T>>)
    requires steps != []
    ensures QuitSinceEnter(steps) <==> QuitSinceEnter(steps[1..]) || (QuitCalled(steps[0]) && Enter !in steps[1..])
  {
    var rest := steps[1..];
    if QuitSinceEnter(rest) {
      var i :| 0 <= i < |rest| && QuitCalled(rest[i]) && Enter !in rest[i..];
      assert steps[i + 1] == rest[i] && steps[i + 1..] == rest[i..];
    }
    if QuitCalled(steps[0]) && Enter !in rest {
      assert steps[0..] == [steps[0]] + rest;
    }
    if i :| 0 <= i < |steps| && QuitCalled(steps[i]) && Enter !in steps[i..] {
      if i == 0 {
        assert forall s | s in rest :: s in steps[0..];
      } else {
        assert rest[i - 1] == steps[i] && rest[i - 1..] == steps[i..];
      }
    }
  }

  /** A call of `quit` counts exactly when no entry into `loop()` follows it. */
  lemma {:induction false} QuitCountsIff<T(!new)>(l: Loop<T>, steps: seq<LoopStep<T>>)
    requires IsRun(l, steps)
    ensures After(l, steps).quit <==> QuitSinceEnter(steps) || (l.quit && Enter !in steps)
    decreases |steps|
  {
    if steps != [] {
      QuitCountsIff(Next(l, steps[0]), steps[1..]);
      QuitSinceEnterRest(steps);
      assert steps == [steps[0]] + steps[1..];
    }
  }

  /** A `quit` made just before `loop()` starts leaves the loop polling. */
  lemma EarlyQuitIsLost<T(!new)>()
    ensures var steps := [RemoteQuit, RemoteWrite, Enter, Check];
            && IsRun(Dormant<T>(), steps) && !After(Dormant<T>(), steps).quit
            && After(Dormant<T>(), steps).phase == Polling
  {
    var steps: seq<LoopStep<T>> := [RemoteQuit, RemoteWrite, Enter, Check];
    assert steps[1..] == [RemoteWrite, Enter, Check] && steps[1..][1..] == [Enter, Check];
    assert steps[1..][1..][1..] == [Check] && steps[1..][1..][1..][1..] == [];
  }

  // ------------------------------------------------------------------- the eventfd

  /** How often the eventfd has been written since it was last read. */
  function WritesSinceRead<T>(steps: seq<LoopStep<T>>): nat {
    if steps == [] || steps[|steps| - 1].DrainWakeup? then 0 else
      WritesSinceRead(steps[..|steps| - 1]) + if steps[|steps| - 1].RemoteWrite? || steps[|steps| - 1].OwnWrite? then 1 else 0
  }

  lemma {:induction false} RunSplits<T(!new)>(l: Loop<T>, steps: seq<LoopStep<T>>, s: LoopStep<T>)
    requires IsRun(l, steps + [s])
    ensures IsRun(l, steps) && Enabled(After(l, steps), s) && After(l, steps + [s]) == Next(After(l, steps), s)
    decreases |steps|
  {
    if steps == [] {
      assert steps + [s] == [s] && [s][1..] == [];
      assert After(Next(l, s), []) == Next(l, s);
    } else {
      assert (steps + [s])[0] == steps[0] && (steps + [s])[1..] == steps[1..] + [s];
      RunSplits(Next(l, steps[0]), steps[1..], s);
    }
  }

  /** The counter of the eventfd is exactly the number of writes since it was last read, in every interleaving. A
      loop that has read it, with nobody writing since, is not woken again. */
  lemma {:induction false} CounterCountsWrites<T(!new)>(steps: seq<LoopStep<T>>)
    requires IsRun(Dormant<T>(), steps)
    ensures After(Dormant<T>(), steps).counter == WritesSinceRead(steps)
    decreases |steps|
  {
    if steps != [] {
      var init, s := steps[..|steps| - 1], steps[|steps| - 1];
      assert steps == init + [s];
      RunSplits(Dormant<T>(), init, s);
      CounterCountsWrites(init);
    }
  }

  // ---------------------------------------------------------------- bounded batches

  lemma BatchStep<T(!new)>(l: Loop<T>, s: LoopStep<T>)
    requires l.phase == Running && Enabled(l, s) && s != EndBatch
    ensures var n := Next(l, s);
            && n.phase == Running && n.done + n.rest == l.done + l.rest
            && n.executed + n.rest == l.executed + l.rest && l.executed <= n.executed
            && l.pending <= n.pending
  {
    if s.RunNext? {
      Regroup(l.executed, [l.rest[0]], l.rest[1..]);
      Regroup(l.done, [l.rest[0]], l.rest[1..]);
      assert l.rest == [l.rest[0]] + l.rest[1..];
    }
  }

  /** Until the batch ends, and whatever is queued meanwhile by anyone, only functors of the batch are
      executed, in order, and everything newly queued waits behind it. */
  lemma {:induction false} BatchIsFixed<T(!new)>(l: Loop<T>, steps: seq<LoopStep<T>>)
    requires l.phase == Running && IsRun(l, steps) && EndBatch !in steps
    ensures var m := After(l, steps);
            && m.phase == Running && m.done + m.rest == l.done + l.rest
            && m.executed + m.rest == l.executed + l.rest && l.executed <= m.executed
            && l.pending <= m.pending
    decreases |steps|
  {
    if steps != [] {
      assert steps[0] in steps && EndBatch !in steps[1..];
      BatchStep(l, steps[0]);
      BatchIsFixed(Next(l, steps[0]), steps[1..]);
    }
  }

  ghost function CountRunNext<T>(steps: seq<LoopStep<T>>): nat {
    if steps == [] then 0 else (if steps[0].RunNext? then 1 else 0) + CountRunNext(steps[1..])
  }

  /** A batch runs exactly as many functors as were pending at the swap, so requeueing cannot hold off the
      next poll. */
  lemma {:induction false} BatchLength<T(!new)>(l: Loop<T>, steps: seq<LoopStep<T>>)
    requires l.phase == Running && IsRun(l, steps) && EndBatch !in steps
    ensures CountRunNext(steps) == |l.rest| - |After(l, steps).rest|
    decreases |steps|
  {
    if steps != [] {
      assert EndBatch !in steps[1..];
      assert steps[0] in steps;
      BatchLength(Next(l, steps[0]), steps[1..]);
    }
  }

  // ---------------------------------------------------------------------- the class

  /** A push from a thread and its wakeup, run without interruption. */
  function QueueBy<T>(l: Loop<T>, t: T, ownThread: bool): Loop<T>
    requires ownThread ==> Enabled(l, OwnPush(t))
  {
    if ownThread then
      var m := Next(l, OwnPush(t));
      if m.owes then Next(m, OwnWrite) else m
    else
      Next(Next(l, RemotePush(t)), RemoteWrite)
  }

  function QuitBy<T>(l: Loop<T>, ownThread: bool): Loop<T>
    requires ownThread ==> Enabled(l, OwnQuit)
  {
    if ownThread then Next(l, OwnQuit) else Next(Next(l, RemoteQuit), RemoteWrite)
  }

  lemma QueueByKeeps<T(!new)>(l: Loop<T>, t: T, ownThread: bool)
    requires Sound(l) && (ownThread ==> Enabled(l, OwnPush(t)))
    ensures var m := QueueBy(l, t, ownThread);
            && Sound(m) && m.Todo() == l.Todo() + [t] && m.queued == l.queued + [t]
            && m.executed == l.executed && m.done == l.done && m.phase == l.phase
            && m.owes == l.owes && m.writers == l.writers && m.quit == l.quit
  {
    if ownThread {
      NextKeepsSound(l, OwnPush(t));
      var m := Next(l, OwnPush(t));
      if m.owes { NextKeepsSound(m, OwnWrite); }
    } else {
      NextKeepsSound(l, RemotePush(t));
      NextKeepsSound(Next(l, RemotePush(t)), RemoteWrite);
    }
    assert l.rest + (l.pending + [t]) == (l.rest + l.pending) + [t];
  }

  /** A functor that arrives while another one runs. */
  datatype Arrival<T> = Arrival(t: T, ownThread: bool)

  function Tasks<T>(arrivals: seq<Arrival<T>>): seq<T> {
    seq(|arrivals|, i requires 0 <= i < |arrivals| => arrivals[i].t)
  }

  lemma TasksLength<T>(arrivals: seq<Arrival<T>>)
    ensures |Tasks(arrivals)| == |arrivals|
  {
  }

  /** Everything that arrives during the first `n` functors of a batch. */
  function Arrived<T>(during: nat -> seq<Arrival<T>>, n: nat): seq<T> {
    if n == 0 then [] else Arrived(during, n - 1) + Tasks(during(n - 1))
  }

  /** One turn of the loop: `polled` arrives from other threads while the loop is blocked, `handled` while it
      dispatches, `during(k)` while the k-th functor of its batch runs; `quits` tells that `quit` is called meanwhile,
      and whether by a handler on the loop's own thread. */
  datatype Round<T> = Round(polled: seq<T>, handled: seq<Arrival<T>>, quits: Option<bool>, during: nat -> seq<Arrival<T>>)

  /** The queue when turn `i` begins, and the batch that turn executes. */
  function Waiting<T>(first: seq<T>, rounds: seq<Round<T>>, i: nat): seq<T>
    requires i <= |rounds|
    decreases i, 0
  {
    if i == 0 then first else Arrived(rounds[i - 1].during, |Batch(first, rounds, i - 1)|)
  }

  function Batch<T>(first: seq<T>, rounds: seq<Round<T>>, i: nat): seq<T>
    requires i < |rounds|
    decreases i, 1
  {
    Waiting(first, rounds, i) + rounds[i].polled + Tasks(rounds[i].handled)
  }

  function Batches<T>(first: seq<T>, rounds: seq<Round<T>>, n: nat): seq<T>
    requires n <= |rounds|
  {
    if n == 0 then [] else Batches(first, rounds, n - 1) + Batch(first, rounds, n - 1)
  }

  /** Everything that came in during the first `n` turns, in order. */
  function Incoming<T>(first: seq<T>, rounds: seq<Round<T>>, n: nat): seq<T>
    requires n <= |rounds|
  {
    if n == 0 then [] else
      var r := rounds[n - 1];
      Incoming(first, rounds, n - 1) + (r.polled + Tasks(r.handled)) + Arrived(r.during, |Batch(first, rounds, n - 1)|)
  }

  /** Whatever the turns bring, all that came in is executed in order, except what came in during the last
      batch; so every functor runs no later than in the turn after its arrival. */
  lemma {:induction false} TurnsConserve<T>(first: seq<T>, rounds: seq<Round<T>>, n: nat)
    requires n <= |rounds|
    ensures Batches(first, rounds, n) + Waiting(first, rounds, n) == first + Incoming(first, rounds, n)
  {
    if n > 0 {
      TurnsConserve(first, rounds, n - 1);
      var all, in0, r := Batches(first, rounds, n - 1), Incoming(first, rounds, n - 1), rounds[n - 1];
      var w0, got, w := Waiting(first, rounds, n - 1), r.polled + Tasks(r.handled), Waiting(first, rounds, n);
      Regroup(w0, r.polled, Tasks(r.handled));
      assert Batch(first, rounds, n - 1) == w0 + got;
      Regroup(all, w0, got);
      assert all + Batch(first, rounds, n - 1) + w == (first + in0) + got + w;
      Regroup(first, in0, got);
      Regroup(first, in0 + got, w);
    }
  }

  class EventLoop<T(!new)> {
    var quit: bool
    var callingPendingFunctors: bool
    var pendingFunctors: seq<T>
    var wakeCounter: nat
    ghost var view: Loop<T>

    ghost predicate Valid()
      reads this
    {
      && Sound(view)
      && view.quit == quit && view.calling == callingPendingFunctors && view.pending == pendingFunctors
      && view.counter == wakeCounter && view.writers == 0 && !view.owes
    }

    constructor ()
      ensures Valid() && view == Dormant<T>()
    {
      quit, callingPendingFunctors, pendingFunctors, wakeCounter := false, false, [], 0;
      view := Dormant<T>();
    }

    method BeginLoop()
      requires Valid() && (view.phase == Idle || view.phase == Stopped)
      modifies this`quit, this`view
      ensures Valid() && !quit && view == Next(old(view), Enter) && view.phase == Checking
      ensures view.executed == old(view.executed) && (pendingFunctors != [] ==> wakeCounter > 0)
    {
      NextKeepsSound(view, Enter);
      quit := false;
      view := Next(view, Enter);
    }

    method StopLoop()
      requires Valid() && view.phase == Checking && quit
      modifies this`view
      ensures Valid() && view == Next(old(view), Check) && view.phase == Stopped && view.executed == old(view.executed)
    {
      NextKeepsSound(view, Check);
      view := Next(view, Check);
    }

    method Wakeup()
      modifies this`wakeCounter
      ensures wakeCounter == old(wakeCounter) + 1
    {
      wakeCounter := wakeCounter + 1;
    }

    method QueueInLoop(t: T, inLoopThread: bool)
      requires Valid() && (inLoopThread ==> view.phase == Dispatching || view.phase == Running)
      modifies this`pendingFunctors, this`wakeCounter, this`view
      ensures Valid() && view == QueueBy(old(view), t, inLoopThread)
      ensures pendingFunctors == old(pendingFunctors) + [t]
      ensures wakeCounter > old(wakeCounter) <==> !inLoopThread || callingPendingFunctors
      ensures view.queued == old(view.queued) + [t] && view.phase == old(view.phase)
      ensures view.rest == old(view.rest) && view.executed == old(view.executed)
    {
      QueueByKeeps(view, t, inLoopThread);
      pendingFunctors := pendingFunctors + [t];
      if !inLoopThread || callingPendingFunctors {
        Wakeup();
      }
      view := QueueBy(view, t, inLoopThread);
    }

    /** `poll`: other threads queue functors while the loop is blocked, then it returns. */
    method AwaitEvents(polled: seq<T>)
      requires Valid() && view.phase == Checking && !quit
      modifies this`pendingFunctors, this`wakeCounter, this`view
      ensures Valid() && view.phase == Dispatching && view.executed == old(view.executed)
      ensures pendingFunctors == old(pendingFunctors) + polled
    {
      NextKeepsSound(view, Check);
      view := Next(view, Check);
      var i := 0;
      while i < |polled|
        invariant 0 <= i <= |polled| && Valid() && view.phase == Polling && view.executed == old(view.executed)
        invariant pendingFunctors == old(pendingFunctors) + polled[..i]
      {
        QueueInLoop(polled[i], false);
        assert polled[..i + 1] == polled[..i] + [polled[i]];
        i := i + 1;
      }
      assert polled[..i] == polled;
      NextKeepsSound(view, PollReturns);
      view := Next(view, PollReturns);
    }

    /** Reading an eventfd returns its whole count and resets it. */
    method HandleRead()
      requires Valid() && view.phase == Dispatching
      modifies this`wakeCounter, this`view
      ensures Valid() && view == Next(old(view), DrainWakeup) && wakeCounter == 0
      ensures pendingFunctors == old(pendingFunctors)
    {
      NextKeepsSound(view, DrainWakeup);
      wakeCounter := 0;
      view := Next(view, DrainWakeup);
    }

    method Quit(inLoopThread: bool)
      requires Valid() && (inLoopThread ==> view.phase == Dispatching || view.phase == Running)
      modifies this`quit, this`wakeCounter, this`view
      ensures Valid() && quit && view == QuitBy(old(view), inLoopThread)
    {
      if inLoopThread {
        NextKeepsSound(view, OwnQuit);
      } else {
        NextKeepsSound(view, RemoteQuit);
        NextKeepsSound(Next(view, RemoteQuit), RemoteWrite);
      }
      quit := true;
      if !inLoopThread {
        Wakeup();
      }
      view := QuitBy(view, inLoopThread);
    }

    method ReceiveDuring(arrivals: seq<Arrival<T>>)
      requires Valid() && (view.phase == Dispatching || view.phase == Running)
      modifies this`pendingFunctors, this`wakeCounter, this`view
      ensures Valid() && view.phase == old(view.phase)
      ensures view.rest == old(view.rest) && view.executed == old(view.executed)
      ensures pendingFunctors == old(pendingFunctors) + Tasks(arrivals)
      ensures view.queued == old(view.queued) + Tasks(arrivals)
      ensures arrivals == [] ==> wakeCounter == old(wakeCounter)
    {
      hide Sound, QueueBy, Next;
      var i := 0;
      while i < |arrivals|
        invariant 0 <= i <= |arrivals|
        invariant Valid() && view.phase == old(view.phase)
        invariant view.rest == old(view.rest) && view.executed == old(view.executed)
        invariant i == 0 ==> wakeCounter == old(wakeCounter)
        invariant pendingFunctors == old(pendingFunctors) + Tasks(arrivals)[..i]
        invariant view.queued == old(view.queued) + Tasks(arrivals)[..i]
      {
        QueueInLoop(arrivals[i].t, arrivals[i].ownThread);
        assert Tasks(arrivals)[..i + 1] == Tasks(arrivals)[..i] + [arrivals[i].t];
        i := i + 1;
      }
      assert Tasks(arrivals)[..i] == Tasks(arrivals);
    }

    /** The handlers of one turn; the eventfd is read when it was readable. */
    method Dispatch(handled: seq<Arrival<T>>, quits: Option<bool>)
      requires Valid() && view.phase == Dispatching && !quit
      modifies this`pendingFunctors, this`wakeCounter, this`view, this`quit
      ensures Valid() && view.phase == Dispatching && view.executed == old(view.executed) && quit == quits.Some?
      ensures pendingFunctors == old(pendingFunctors) + Tasks(handled)
      ensures handled == [] && quits.None? ==> wakeCounter == 0
    {
      if wakeCounter > 0 {
        HandleRead();
      }
      ReceiveDuring(handled);
      if quits.Some? {
        Quit(quits.value);
      }
    }

    method Finish()
      requires Valid() && view.phase == Running && view.rest == []
      modifies this`callingPendingFunctors, this`view
      ensures Valid() && view == Next(old(view), EndBatch) && view.phase == Checking && !callingPendingFunctors
      ensures view.executed == old(view.executed) && view.queued == old(view.queued)
      ensures pendingFunctors != [] ==> wakeCounter > 0
    {
      NextKeepsSound(view, EndBatch);
      callingPendingFunctors := false;
      view := Next(view, EndBatch);
    }

    method Swap() returns (functors: seq<T>)
      requires Valid() && view.phase == Dispatching
      modifies this`callingPendingFunctors, this`pendingFunctors, this`view
      ensures Valid() && view == Next(old(view), SwapBatch) && functors == old(pendingFunctors)
      ensures view.phase == Running && view.rest == functors && pendingFunctors == []
      ensures view.executed == old(view.executed) && view.queued == old(view.queued)
    {
      NextKeepsSound(view, SwapBatch);
      callingPendingFunctors := true;
      functors := pendingFunctors;
      pendingFunctors := [];
      view := Next(view, SwapBatch);
    }

    method RunOne(functor: T, arrivals: seq<Arrival<T>>)
      requires Valid() && view.phase == Running && view.rest != [] && view.rest[0] == functor
      modifies this`pendingFunctors, this`wakeCounter, this`view
      ensures Valid() && view.phase == Running
      ensures view.rest == old(view.rest)[1..] && view.executed == old(view.executed) + [functor]
      ensures pendingFunctors == old(pendingFunctors) + Tasks(arrivals)
      ensures view.queued == old(view.queued) + Tasks(arrivals)
      ensures arrivals == [] ==> wakeCounter == old(wakeCounter)
    {
      NextKeepsSound(view, RunNext);
      view := Next(view, RunNext);
      ReceiveDuring(arrivals);
    }

    /** `during(k)` are the functors queued, by anyone, while the k-th functor of the batch runs. */
    method DoPendingFunctors(during: nat -> seq<Arrival<T>>) returns (ran: seq<T>)
      requires Valid() && view.phase == Dispatching
      modifies this
      ensures Valid() && view.phase == Checking && !callingPendingFunctors
      ensures ran == old(pendingFunctors)
      ensures pendingFunctors == Arrived(during, |ran|)
      ensures view.executed == old(view.executed) + ran
      ensures view.queued == old(view.queued) + Arrived(during, |ran|)
      ensures pendingFunctors != [] ==> wakeCounter > 0
      ensures quit == old(quit)
      ensures pendingFunctors == [] ==> wakeCounter == old(wakeCounter)
    {
      hide Sound, Next, Tasks;
      ghost var start := view;
      var functors := Swap();
      ran := [];
      var i := 0;
      while i < |functors|
        invariant 0 <= i <= |functors|
        invariant Valid() && view.phase == Running && view.rest == functors[i..]
        invariant ran == functors[..i] && view.executed == start.executed + ran
        invariant pendingFunctors == [] ==> wakeCounter == old(wakeCounter)
        invariant pendingFunctors == Arrived(during, i)
        invariant view.queued == start.queued + Arrived(during, i)
        invariant quit == old(quit)
      {
        assert functors[i..][1..] == functors[i + 1..] && functors[..i] + [functors[i]] == functors[..i + 1];
        Regroup(start.executed, ran, [functors[i]]);
        Regroup(start.queued, Arrived(during, i), Tasks(during(i)));
        TasksLength(during(i));
        RunOne(functors[i], during(i));
        ran := ran + [functors[i]];
        i := i + 1;
      }
      Finish();
    }

    /** `loop()`, for as long as the given turns last or until the first of them in which `quit` is called. An
        earlier `quit` is forgotten. */
    method Loop(rounds: seq<Round<T>>) returns (turns: nat)
      requires Valid() && (view.phase == Idle || view.phase == Stopped)
      modifies this
      ensures Valid() && turns <= |rounds|
      ensures forall i | 0 <= i < turns - 1 :: rounds[i].quits.None?
      ensures quit <==> turns > 0 && rounds[turns - 1].quits.Some?
      ensures view.phase == if quit then Stopped else Checking
      ensures turns < |rounds| ==> quit
      ensures view.executed == old(view.executed) + Batches(old(pendingFunctors), rounds, turns)
      ensures pendingFunctors == Waiting(old(pendingFunctors), rounds, turns)
      ensures pendingFunctors != [] ==> wakeCounter > 0
      ensures turns > 0 && rounds[turns - 1].handled == [] && rounds[turns - 1].quits.None? && pendingFunctors == [] ==>
                wakeCounter == 0
    {
      hide Sound, Next, Tasks;
      BeginLoop();
      turns := 0;
      ghost var first, ran := pendingFunctors, view.executed;
      assert ran + [] == ran;
      while !quit && turns < |rounds|
        invariant 0 <= turns <= |rounds| && Valid() && view.phase == Checking
        invariant forall i | 0 <= i < turns - 1 :: rounds[i].quits.None?
        invariant quit <==> turns > 0 && rounds[turns - 1].quits.Some?
        invariant view.executed == ran + Batches(first, rounds, turns)
        invariant pendingFunctors == Waiting(first, rounds, turns)
        invariant turns > 0 && rounds[turns - 1].handled == [] && rounds[turns - 1].quits.None? && pendingFunctors == [] ==>
                    wakeCounter == 0
        invariant pendingFunctors != [] ==> wakeCounter > 0
      {
        var r := rounds[turns];
        AwaitEvents(r.polled);
        Dispatch(r.handled, r.quits);
        assert pendingFunctors == Batch(first, rounds, turns);
        Regroup(ran, Batches(first, rounds, turns), Batch(first, rounds, turns));
        var batch := DoPendingFunctors(r.during);
        turns := turns + 1;
      }
      if quit {
        StopLoop();
      }
    }

    /** `runNow` tells the caller to execute the functor on the spot. */
    method RunInLoop(t: T, inLoopThread: bool) returns (runNow: bool)
      requires Valid()
      modifies this`pendingFunctors, this`wakeCounter, this`view
      ensures Valid() && runNow == inLoopThread
      ensures runNow ==> view == old(view)
      ensures !runNow ==> view == QueueBy(old(view), t, false)
    {
      runNow := inLoopThread;
      if !inLoopThread {
        QueueInLoop(t, inLoopThread);
      }
    }
  }
}
