/** Calls of other threads that go on too late: two runs of a server with one loop, from its start to the damage. */
module ServerRaces {
  import opened Common
  import opened Pollers
  import opened ThreadPools
  import opened Servers
  import opened ServerInvariants
  import opened ServerSafety
  import opened ServerTheorems
  import Names
  import L = EventLoops
  import C = Connections

  // ------------------------------------------------------------------- extending runs

  lemma {:induction false} RunExtends(s: Server, steps: seq<Step>, step: Step)
    requires Safe(s) && IsRun(s, steps) && Enabled(After(s, steps), step) && InTime(After(s, steps), step)
    ensures IsRun(s, steps + [step]) && Placeable(After(s, steps), step)
    ensures After(s, steps + [step]) == Next(After(s, steps), step)
    decreases |steps|
  {
    hide Shape, Good, Distinct, FlightShape, Enabled, InTime, Next, Placeable;
    StepSafe(After(s, steps), step);
    if steps == [] {
      assert steps + [step] == [step] && [step][1..] == [];
      assert After(Next(s, step), []) == Next(s, step);
    } else {
      StepSafe(s, steps[0]);
      assert (steps + [step])[0] == steps[0] && (steps + [step])[1..] == steps[1..] + [step];
      RunExtends(Next(s, steps[0]), steps[1..], step);
    }
  }

  /** A further step in time leads from a reachable state to a reachable state. */
  lemma Reach(s: Server, step: Step)
    requires Reachable(s) && Shape(s) && Enabled(s, step) && InTime(s, step)
    ensures Placeable(s, step) && Reachable(Next(s, step)) && Shape(Next(s, step))
  {
    hide Shape, Good, Distinct, Enabled, InTime, Next, Placeable, IsRun, After;
    var form, name, ipPort, subLoops: nat, steps :|
      |ipPort| <= 51 && Trace(form, name, ipPort, subLoops, steps, s);
    StartSafe(form, name, ipPort, subLoops);
    var start := Start(form, name, ipPort, subLoops);
    RunExtends(start, steps, step);
    assert Trace(form, name, ipPort, subLoops, steps + [step], Next(s, step));
    ReachableInv(Next(s, step));
  }

  // ----------------------------------------------------------------- steps out of time too

  /** A run in which calls may go on at any time. */
  ghost predicate CanRun(s: Server, steps: seq<Step>)
    decreases |steps|
  {
    steps != [] ==> Shape(s) && Enabled(s, steps[0]) && Placeable(s, steps[0]) && CanRun(Next(s, steps[0]), steps[1..])
  }

  ghost function Finally(s: Server, steps: seq<Step>): Server
    requires CanRun(s, steps)
    decreases |steps|
  {
    if steps == [] then s else Finally(Next(s, steps[0]), steps[1..])
  }

  lemma Unfold(s: Server, step: Step, rest: seq<Step>)
    requires Shape(s) && Enabled(s, step) && Placeable(s, step) && CanRun(Next(s, step), rest)
    ensures CanRun(s, [step] + rest) && Finally(s, [step] + rest) == Finally(Next(s, step), rest)
  {
    hide Shape, Enabled, Placeable, Next;
    assert ([step] + rest)[1..] == rest;
  }

  ghost predicate StaysSound(s: Server, steps: seq<Step>)
    requires CanRun(s, steps)
    decreases |steps|
  {
    Inv(s) && (steps != [] ==> StaysSound(Next(s, steps[0]), steps[1..]))
  }

  /** The exact condition, over runs: the invariant holds in every state of a run if and only if every call that
      has begun goes on in time. */
  lemma {:induction false} SoundIffInTime(s: Server, steps: seq<Step>)
    requires Safe(s) && CanRun(s, steps)
    ensures StaysSound(s, steps) <==> IsRun(s, steps)
    decreases |steps|
  {
    hide Shape, Good, Distinct, FlightShape, Enabled, Next, Placeable, OwnersShrink;
    if steps != [] {
      if InTime(s, steps[0]) {
        StepSafe(s, steps[0]);
        SoundIffInTime(Next(s, steps[0]), steps[1..]);
      } else {
        InTimeIff(s, steps[0].from);
      }
    }
  }

  // ------------------------------------------------------------------ the states passed

  const FD: int := 7

  /** A server with the base loop alone and at most the connection 0. */
  function Snap(form: Form, name: string, ipPort: string, l: Loop, events: seq<Occurrence>, p: Poller<nat>,
                c: Option<C.Conn<nat>>, mapped: bool, held: set<nat>, flight: map<nat, Call>): Server
  {
    Server(form, name, ipPort, [l], [events], [p], if c.None? then [] else [Rec(0, c.value)],
           if mapped then map[Names.ConnName(name, ipPort, 1) := 0] else map[], 0, held, flight)
  }

  const EMPTY: Poller<nat> := Poller(map[], map[], 0)

  function Idle(phase: L.Phase): Loop {
    L.Loop(phase, false, phase == L.Running, 0, false, 0, [], [], [], [], [])
  }

  function Fresh(form: Form): C.Conn<nat> {
    C.NewConn(0, 0, form, FD, 0, false, false)
  }

  function Open(form: Form): C.Conn<nat> {
    Fresh(form).(state := C.Connected, ups := 1, ch := Chan(FD, READ_EVENT, Added))
  }

  function Closed(form: Form): C.Conn<nat> {
    Open(form).(state := C.Disconnected, downs := 1, closes := 1, ch := Chan(FD, NONE_EVENT, Del))
  }

  function Gone(form: Form): C.Conn<nat> {
    Closed(form).(ch := Chan(FD, NONE_EVENT, New))
  }

  const ACCEPT: Occurrence := Accept(FD, 0, false, false, [])
  const HANGUP: C.Report := C.Report({Hup}, [], C.ReadError, WouldBlock)

  const D: C.Task := C.DestroyTask(0)

  function OpenPoller(): Poller<nat> {
    Poller(map[FD := 0], map[FD := Entry(0, READ_EVENT)], 0)
  }

  lemma StartReachable(form: Form, name: string, ipPort: string)
    requires |ipPort| <= 51
    ensures var s := Snap(form, name, ipPort, Idle(L.Checking), [], EMPTY, None, false, {}, map[]);
            Reachable(s) && Shape(s)
  {
    hide Shape;
    var s := Snap(form, name, ipPort, Idle(L.Checking), [], EMPTY, None, false, {}, map[]);
    assert Start(form, name, ipPort, 0) == s;
    StartSafe(form, name, ipPort, 0);
    assert Trace(form, name, ipPort, 0, [], s);
  }

  lemma Accepting(form: Form, name: string, ipPort: string)
    requires |ipPort| <= 51
    ensures var s := Snap(form, name, ipPort, Idle(L.Dispatching), [ACCEPT], EMPTY, None, false, {}, map[]);
            Reachable(s) && Shape(s)
  {
    hide Shape, Reachable;
    var s0 := Snap(form, name, ipPort, Idle(L.Checking), [], EMPTY, None, false, {}, map[]);
    var s1 := Snap(form, name, ipPort, Idle(L.Polling), [], EMPTY, None, false, {}, map[]);
    StartReachable(form, name, ipPort);
    Reach(s0, Check(0));
    assert Next(s0, Check(0)) == s1;
    Reach(s1, PollReturns(0, [ACCEPT]));
    assert Next(s1, PollReturns(0, [ACCEPT])) == Snap(form, name, ipPort, Idle(L.Dispatching), [ACCEPT], EMPTY, None, false, {}, map[]);
  }

  lemma NewDone(form: Form, name: string, ipPort: string)
    ensures var s := Snap(form, name, ipPort, Idle(L.Dispatching), [], EMPTY, None, false, {}, map[]);
            NewConnection(s, ACCEPT)
              == Snap(form, name, ipPort, Idle(L.Dispatching), [], OpenPoller(), Some(Open(form)), true, {}, map[])
  {
    hide Names.ConnName;
    var s := Snap(form, name, ipPort, Idle(L.Dispatching), [], EMPTY, None, false, {}, map[]);
    var t := Entered(s, ACCEPT);
    assert t == Snap(form, name, ipPort, Idle(L.Dispatching), [], EMPTY, Some(Fresh(form)), true, {}, map[]);
    var w := C.Establish(Here(t, 0), []);
    assert w == C.World(Open(form), OpenPoller(), []);
  }

  /** From the start to an open connection that the application holds. */
  lemma Opened(form: Form, name: string, ipPort: string)
    requires |ipPort| <= 51
    ensures var s := Snap(form, name, ipPort, Idle(L.Dispatching), [], OpenPoller(), Some(Open(form)), true, {0}, map[]);
            Reachable(s) && Shape(s)
  {
    hide Shape, Reachable, NewConnection, Names.ConnName;
    var s2 := Snap(form, name, ipPort, Idle(L.Dispatching), [ACCEPT], EMPTY, None, false, {}, map[]);
    var s3 := Snap(form, name, ipPort, Idle(L.Dispatching), [], OpenPoller(), Some(Open(form)), true, {}, map[]);
    Accepting(form, name, ipPort);
    NewDone(form, name, ipPort);
    Reach(s2, NextEvent(0));
    assert s2.active[0][1..] == [] && s2.active[0 := []] == [[]];
    assert s2.(active := [[]]) == Snap(form, name, ipPort, Idle(L.Dispatching), [], EMPTY, None, false, {}, map[]);
    assert Next(s2, NextEvent(0)) == s3;
    assert 0 in s3.connections.Values by { assert s3.connections[Names.ConnName(name, ipPort, 1)] == 0; }
    Reach(s3, Hold(0));
    assert Next(s3, Hold(0)) == s3.(held := {0});
  }

  function Queue(phase: L.Phase, counter: nat, pending: seq<C.Task>, rest: seq<C.Task>, done: seq<C.Task>,
                 queued: seq<C.Task>, executed: seq<C.Task>): Loop
  {
    L.Loop(phase, false, phase == L.Running, counter, false, 0, pending, rest, done, queued, executed)
  }

  lemma OneSend(form: Form, name: string, ipPort: string, data: seq<byte>)
    requires |ipPort| <= 51
    ensures var s := Snap(form, name, ipPort, Idle(L.Dispatching), [], OpenPoller(), Some(Open(form)), true, {0},
                          map[2 := SendCall(0, data)]);
            Reachable(s) && Shape(s)
  {
    hide Shape, Reachable, Names.ConnName;
    var s := Snap(form, name, ipPort, Idle(L.Dispatching), [], OpenPoller(), Some(Open(form)), true, {0}, map[]);
    Opened(form, name, ipPort);
    Reach(s, RemoteSend(2, 0, data));
    assert Next(s, RemoteSend(2, 0, data)) == s.(flight := map[2 := SendCall(0, data)]);
  }

  lemma SendAndShutdown(form: Form, name: string, ipPort: string, data: seq<byte>)
    requires |ipPort| <= 51
    ensures var s := Snap(form, name, ipPort, Idle(L.Dispatching), [], OpenPoller(), Some(Open(form)), true, {0},
                          map[1 := StoreCall(0), 2 := SendCall(0, data)]);
            Reachable(s) && Shape(s)
  {
    hide Shape, Reachable, Names.ConnName;
    var s := Snap(form, name, ipPort, Idle(L.Dispatching), [], OpenPoller(), Some(Open(form)), true, {0},
                  map[2 := SendCall(0, data)]);
    OneSend(form, name, ipPort, data);
    Reach(s, RemoteShutdown(1, 0));
    assert Next(s, RemoteShutdown(1, 0)) == s.(flight := map[1 := StoreCall(0), 2 := SendCall(0, data)]);
  }

  lemma LoopTurns()
    ensures L.Next(Idle(L.Dispatching), L.SwapBatch) == Idle(L.Running)
    ensures L.Next(Idle(L.Running), L.EndBatch) == Idle(L.Checking)
    ensures L.Next(Idle(L.Checking), L.Check) == Idle(L.Polling)
    ensures L.Next(Idle(L.Polling), L.PollReturns) == Idle(L.Dispatching)
  {
  }

  /** The loop goes round and the peer hangs up. */
  lemma HungUp(form: Form, name: string, ipPort: string, flight: map<nat, Call>)
    requires var s := Snap(form, name, ipPort, Idle(L.Dispatching), [], OpenPoller(), Some(Open(form)), true, {0}, flight);
             Reachable(s) && Shape(s)
    ensures var s := Snap(form, name, ipPort, Idle(L.Dispatching), [Io(0, HANGUP)], OpenPoller(), Some(Open(form)), true, {0}, flight);
            Reachable(s) && Shape(s)
  {
    hide Shape, Reachable, Names.ConnName, Dispatched, Performed, NewConnection, Posts, L.QueueBy, C.AppCall, L.Next;
    var s1 := Snap(form, name, ipPort, Idle(L.Dispatching), [], OpenPoller(), Some(Open(form)), true, {0}, flight);
    var s2, s3, s4 := s1.(loops := [Idle(L.Running)]), s1.(loops := [Idle(L.Checking)]), s1.(loops := [Idle(L.Polling)]);
    LoopTurns();
    Reach(s1, Swap(0));
    assert Next(s1, Swap(0)) == s2;
    Reach(s2, EndBatch(0));
    assert Next(s2, EndBatch(0)) == s3;
    Reach(s3, Check(0));
    assert Next(s3, Check(0)) == s4;
    assert FD in s4.pollers[0].kernel && s4.pollers[0].kernel[FD].key == 0;
    Reach(s4, PollReturns(0, [Io(0, HANGUP)]));
    assert Next(s4, PollReturns(0, [Io(0, HANGUP)])) == s1.(active := [[Io(0, HANGUP)]]);
  }

  lemma HangUpCloses(form: Form)
    ensures C.HandleEvent(C.World(Open(form), OpenPoller(), []), HANGUP)
         == C.World(Closed(form), Poller(map[FD := 0], map[], 0), [])
  {
    var w := C.World(Open(form), OpenPoller(), []);
    var v := C.Interest(w.(c := w.c.(state := C.Disconnected)), NONE_EVENT);
    assert v.p.kernel == map[];
  }

  lemma DestructionQueued()
    ensures L.QueueBy(Idle(L.Dispatching), D, true) == Queue(L.Dispatching, 0, [D], [], [], [D], [])
  {
  }

  lemma ClosedBy(form: Form, name: string, ipPort: string, flight: map<nat, Call>)
    ensures var s := Snap(form, name, ipPort, Idle(L.Dispatching), [], OpenPoller(), Some(Open(form)), true, {0}, flight);
            Dispatched(s, 0, HANGUP)
              == Snap(form, name, ipPort, Queue(L.Dispatching, 0, [D], [], [], [D], []), [], Poller(map[FD := 0], map[], 0),
                      Some(Closed(form)), false, {0}, flight)
  {
    hide Names.ConnName, C.HandleEvent, L.QueueBy;
    var s := Snap(form, name, ipPort, Idle(L.Dispatching), [], OpenPoller(), Some(Open(form)), true, {0}, flight);
    HangUpCloses(form);
    var w := C.World(Closed(form), Poller(map[FD := 0], map[], 0), []);
    assert Here(s, 0) == C.World(Open(form), OpenPoller(), []);
    var t := Settle(s, 0, w);
    assert t == Snap(form, name, ipPort, Idle(L.Dispatching), [], w.p, Some(Closed(form)), true, {0}, flight);
    assert t.connections - {Key(t, 0)} == map[];
    DestructionQueued();
  }

  lemma RunsOut()
    ensures L.Next(Queue(L.Running, 0, [], [D], [], [D], []), L.RunNext) == Queue(L.Running, 0, [], [], [D], [D], [D])
  {
  }

  lemma DestroyedBy(form: Form, name: string, ipPort: string, flight: map<nat, Call>)
    ensures var s := Snap(form, name, ipPort, Queue(L.Running, 0, [], [], [D], [D], [D]), [], Poller(map[FD := 0], map[], 0),
                          Some(Closed(form)), false, {0}, flight);
            Performed(s, D, [], WouldBlock)
              == Snap(form, name, ipPort, Queue(L.Running, 0, [], [], [D], [D], [D]), [], EMPTY, Some(Gone(form)), false, {0}, flight)
  {
    hide Names.ConnName;
    var s := Snap(form, name, ipPort, Queue(L.Running, 0, [], [], [D], [D], [D]), [], Poller(map[FD := 0], map[], 0),
                  Some(Closed(form)), false, {0}, flight);
    var w := C.Destroy(Here(s, 0), []);
    assert w == C.World(Gone(form), EMPTY, []);
  }

  /** The hang-up closes the connection, and its destruction is executed. */
  lemma Destroyed(form: Form, name: string, ipPort: string, flight: map<nat, Call>)
    requires var s := Snap(form, name, ipPort, Idle(L.Dispatching), [Io(0, HANGUP)], OpenPoller(), Some(Open(form)), true, {0}, flight);
             Reachable(s) && Shape(s)
    ensures var s := Snap(form, name, ipPort, Queue(L.Running, 0, [], [], [D], [D], [D]), [], EMPTY, Some(Gone(form)), false, {0}, flight);
            Reachable(s) && Shape(s)
  {
    hide Shape, Reachable, Names.ConnName, Dispatched, Performed, NewConnection, Posts, L.QueueBy, C.AppCall, FreshFd,
         Reportable;
    var s1 := Snap(form, name, ipPort, Idle(L.Dispatching), [Io(0, HANGUP)], OpenPoller(), Some(Open(form)), true, {0}, flight);
    var s2 := Snap(form, name, ipPort, Queue(L.Dispatching, 0, [D], [], [], [D], []), [], Poller(map[FD := 0], map[], 0),
                   Some(Closed(form)), false, {0}, flight);
    var s3 := s2.(loops := [Queue(L.Running, 0, [], [D], [], [D], [])]);
    ClosedBy(form, name, ipPort, flight);
    Reach(s1, NextEvent(0));
    assert s1.active[0][1..] == [] && s1.active[0 := []] == [[]];
    assert Next(s1, NextEvent(0)) == s2;
    Reach(s2, Swap(0));
    assert Next(s2, Swap(0)) == s3;
    DestroyedBy(form, name, ipPort, flight);
    Reach(s3, RunFunctor(0, [], WouldBlock));
    RunsOut();
    assert s3.loops[0 := L.Next(s3.loops[0], L.RunNext)] == [Queue(L.Running, 0, [], [], [D], [D], [D])];
  }

  // ------------------------------------------------------------------------- a late push

  function T(data: seq<byte>): C.Task {
    C.SendTask(0, 2, data)
  }

  function Late(form: Form, name: string, ipPort: string, l: Loop, p: Poller<nat>, c: C.Conn<nat>, held: set<nat>,
                flight: map<nat, Call>): Server
  {
    Snap(form, name, ipPort, l, [], p, Some(c), false, held, flight)
  }

  /** The connection has been destroyed in the running batch; another thread still holds it and is about to push its
      send functor, and a third, if `both`, about to store the state of `shutdown`. */
  function Ruin(form: Form, name: string, ipPort: string, data: seq<byte>, both: bool): Server {
    Late(form, name, ipPort, Queue(L.Running, 0, [], [], [D], [D], [D]), EMPTY, Gone(form), {0},
         if both then map[1 := StoreCall(0), 2 := SendCall(0, data)] else map[2 := SendCall(0, data)])
  }

  lemma AfterDestruction(form: Form, name: string, ipPort: string, data: seq<byte>, both: bool)
    requires |ipPort| <= 51
    ensures var s := Ruin(form, name, ipPort, data, both);
            Reachable(s) && Shape(s)
  {
    hide Shape, Reachable;
    var flight := if both then map[1 := StoreCall(0), 2 := SendCall(0, data)] else map[2 := SendCall(0, data)];
    if both {
      SendAndShutdown(form, name, ipPort, data);
    } else {
      OneSend(form, name, ipPort, data);
    }
    HungUp(form, name, ipPort, flight);
    Destroyed(form, name, ipPort, flight);
  }

  lemma LateShape(form: Form, name: string, ipPort: string, l: Loop, p: Poller<nat>, c: C.Conn<nat>, held: set<nat>,
                  flight: map<nat, Call>)
    requires |ipPort| <= 51 && LoopShape(l, [], 1) && PollerShape(p, 1)
    ensures Shape(Late(form, name, ipPort, l, p, c, held, flight))
  {
    hide LoopShape, PollerShape;
    assert Advances(0, 1) == Advances(0, 0) == 0;
  }

  lemma LateLoops(t: C.Task, more: seq<C.Task>)
    requires t.id == 0 && forall x | x in more :: x.id == 0
    ensures forall phase: L.Phase, counter: nat | phase != L.Running && counter > 0 ::
              LoopShape(Queue(phase, counter, [t] + more, [], [], [D, t] + more, [D]), [], 1)
    ensures forall counter: nat | counter > 0 :: LoopShape(Queue(L.Running, counter, [t] + more, [], [D], [D, t] + more, [D]), [], 1)
    ensures forall counter: nat :: LoopShape(Queue(L.Running, counter, [], [t] + more, [], [D, t] + more, [D]), [], 1)
  {
    assert [D] + ([t] + more) == [D, t] + more;
    assert [D] + [] + ([t] + more) == [D, t] + more && [D] + ([t] + more) + [] == [D, t] + more;
  }

  lemma TurnsLate(q: seq<C.Task>, queued: seq<C.Task>, counter: nat)
    ensures L.Next(Queue(L.Running, counter, q, [], [D], queued, [D]), L.EndBatch) == Queue(L.Checking, counter, q, [], [], queued, [D])
    ensures L.Next(Queue(L.Checking, counter, q, [], [], queued, [D]), L.Check) == Queue(L.Polling, counter, q, [], [], queued, [D])
    ensures L.Next(Queue(L.Polling, counter, q, [], [], queued, [D]), L.PollReturns) == Queue(L.Dispatching, counter, q, [], [], queued, [D])
    ensures L.Next(Queue(L.Dispatching, counter, q, [], [], queued, [D]), L.SwapBatch) == Queue(L.Running, counter, [], q, [], queued, [D])
  {
  }

  const TURN: seq<Step> := [EndBatch(0), Check(0), PollReturns(0, []), Swap(0)]

  lemma EmptyShape()
    ensures PollerShape(EMPTY, 1)
  {
  }

  /** From the end of the batch to the begin of the next, with functors of the dead connection in the queue. */
  lemma NextBatch(form: Form, name: string, ipPort: string, t: C.Task, more: seq<C.Task>, counter: nat, c: C.Conn<nat>,
                  held: set<nat>)
    requires |ipPort| <= 51 && t.id == 0 && (forall x | x in more :: x.id == 0) && counter > 0
    ensures var q, queued := [t] + more, [D, t] + more;
            var s := Late(form, name, ipPort, Queue(L.Running, counter, q, [], [D], queued, [D]), EMPTY, c, held, map[]);
            && CanRun(s, TURN)
            && Finally(s, TURN)
                 == Late(form, name, ipPort, Queue(L.Running, counter, [], q, [], queued, [D]), EMPTY, c, held, map[])
  {
    hide Shape, LoopShape, PollerShape, L.Next, Performed, Dispatched, NewConnection, Posts, L.QueueBy, C.AppCall;
    var q, queued := [t] + more, [D, t] + more;
    LateLoops(t, more);
    TurnsLate(q, queued, counter);
    var s0 := Late(form, name, ipPort, Queue(L.Running, counter, q, [], [D], queued, [D]), EMPTY, c, held, map[]);
    var l1, l2 := Queue(L.Checking, counter, q, [], [], queued, [D]), Queue(L.Polling, counter, q, [], [], queued, [D]);
    var l3, l4 := Queue(L.Dispatching, counter, q, [], [], queued, [D]), Queue(L.Running, counter, [], q, [], queued, [D]);
    assert PollerShape(EMPTY, 1) by { EmptyShape(); }
    LateShape(form, name, ipPort, s0.loops[0], EMPTY, c, held, map[]);
    LateShape(form, name, ipPort, l1, EMPTY, c, held, map[]);
    LateShape(form, name, ipPort, l2, EMPTY, c, held, map[]);
    LateShape(form, name, ipPort, l3, EMPTY, c, held, map[]);
    var s1, s2, s3, s4 := s0.(loops := [l1]), s0.(loops := [l2]), s0.(loops := [l3]), s0.(loops := [l4]);
    assert Next(s0, EndBatch(0)) == s1 && Next(s1, Check(0)) == s2;
    assert Next(s2, PollReturns(0, [])) == s3 && Next(s3, Swap(0)) == s4;
    Unfold(s3, Swap(0), []);
    Unfold(s2, PollReturns(0, []), [Swap(0)] + []);
    Unfold(s1, Check(0), [PollReturns(0, [])] + ([Swap(0)] + []));
    Unfold(s0, EndBatch(0), [Check(0)] + ([PollReturns(0, [])] + ([Swap(0)] + [])));
    assert TURN == [EndBatch(0)] + ([Check(0)] + ([PollReturns(0, [])] + ([Swap(0)] + [])));
  }

  lemma ReleaseStep(form: Form, name: string, ipPort: string, l: Loop, p: Poller<nat>, c: C.Conn<nat>)
    requires Shape(Late(form, name, ipPort, l, p, c, {0}, map[]))
    ensures var s := Late(form, name, ipPort, l, p, c, {0}, map[]);
            Enabled(s, Release(0)) && Next(s, Release(0)) == Late(form, name, ipPort, l, p, c, {}, map[])
  {
    hide Shape;
    assert {0} - {0} == {};
  }

  lemma NoOwner(form: Form, name: string, ipPort: string, l: Loop, p: Poller<nat>, c: C.Conn<nat>)
    requires forall t | t in l.done + l.rest + l.pending :: !t.Owning()
    ensures !Owned(Late(form, name, ipPort, l, p, c, {}, map[]), 0)
  {
  }

  lemma RuinNotInTime(form: Form, name: string, ipPort: string, data: seq<byte>, both: bool)
    requires |ipPort| <= 51
    ensures var s := Ruin(form, name, ipPort, data, both);
            && Reachable(s) && Shape(s) && Enabled(s, Proceed(2)) && !InTime(s, Proceed(2))
            && (both ==> Enabled(s, Proceed(1)) && !InTime(s, Proceed(1)))
  {
    hide Shape, Reachable;
    AfterDestruction(form, name, ipPort, data, both);
  }

  lemma PushedLate(t: C.Task, counter: nat, pending: seq<C.Task>, queued: seq<C.Task>)
    ensures L.QueueBy(Queue(L.Running, counter, pending, [], [D], queued, [D]), t, false)
         == Queue(L.Running, counter + 1, pending + [t], [], [D], queued + [t], [D])
  {
  }

  lemma PushStep(form: Form, name: string, ipPort: string, from: nat, t: C.Task, counter: nat, pending: seq<C.Task>,
                 queued: seq<C.Task>, c: C.Conn<nat>, flight: map<nat, Call>)
    requires from in flight && !flight[from].StoreCall? && flight[from].id == 0
    requires t == if flight[from].SendCall? then C.SendTask(0, from, flight[from].data) else C.ShutdownTask(0)
    requires Shape(Late(form, name, ipPort, Queue(L.Running, counter, pending, [], [D], queued, [D]), EMPTY, c, {0}, flight))
    ensures var s := Late(form, name, ipPort, Queue(L.Running, counter, pending, [], [D], queued, [D]), EMPTY, c, {0}, flight);
            && Enabled(s, Proceed(from))
            && Next(s, Proceed(from))
                 == Late(form, name, ipPort, Queue(L.Running, counter + 1, pending + [t], [], [D], queued + [t], [D]), EMPTY,
                         c, {0}, flight - {from})
  {
    hide Shape, L.QueueBy;
    PushedLate(t, counter, pending, queued);
  }

  lemma LatePushSteps(form: Form, name: string, ipPort: string, data: seq<byte>)
    requires |ipPort| <= 51 && Shape(Ruin(form, name, ipPort, data, false))
    ensures var s, steps := Ruin(form, name, ipPort, data, false), [Proceed(2), Release(0)] + TURN;
            && CanRun(s, steps)
            && Finally(s, steps)
                 == Late(form, name, ipPort, Queue(L.Running, 1, [], [T(data)], [], [D, T(data)], [D]), EMPTY, Gone(form), {}, map[])
  {
    hide Shape, LoopShape, PollerShape, Next, Enabled;
    var s := Ruin(form, name, ipPort, data, false);
    var l1 := Queue(L.Running, 1, [T(data)], [], [D], [D, T(data)], [D]);
    var s1 := Late(form, name, ipPort, l1, EMPTY, Gone(form), {0}, map[]);
    PushStep(form, name, ipPort, 2, T(data), 0, [], [D], Gone(form), s.flight);
    assert s.flight - {2} == map[] && [D] + [T(data)] == [D, T(data)] && [] + [T(data)] == [T(data)];
    LateLoops(T(data), []);
    assert [T(data)] + [] == [T(data)] && [D, T(data)] + [] == [D, T(data)];
    EmptyShape();
    LateShape(form, name, ipPort, l1, EMPTY, Gone(form), {0}, map[]);
    ReleaseStep(form, name, ipPort, l1, EMPTY, Gone(form));
    NextBatch(form, name, ipPort, T(data), [], 1, Gone(form), {});
    Unfold(s1, Release(0), TURN);
    Unfold(s, Proceed(2), [Release(0)] + TURN);
    assert [Proceed(2), Release(0)] + TURN == [Proceed(2)] + ([Release(0)] + TURN);
  }

  /** A push that comes too late. Everything up to here was in time; the thread pushes its functor while the batch
      that destroyed the connection still runs, lets go of the connection, and the next batch begins with a functor
      whose object is gone. */
  lemma LatePushMeetsDead(form: Form, name: string, ipPort: string, data: seq<byte>)
    requires |ipPort| <= 51
    ensures var s := Ruin(form, name, ipPort, data, false);
            && Reachable(s) && Shape(s) && Enabled(s, Proceed(2)) && !InTime(s, Proceed(2))
            && var steps := [Proceed(2), Release(0)] + TURN;
               && CanRun(s, steps)
               && var u := Finally(s, steps);
                  && |u.loops| == 1 && u.loops[0].phase == L.Running && u.loops[0].rest == [T(data)] && !Owned(u, 0)
  {
    hide Shape, Reachable, Enabled, InTime, CanRun, Finally, Owned;
    RuinNotInTime(form, name, ipPort, data, false);
    LatePushSteps(form, name, ipPort, data);
    NoOwner(form, name, ipPort, Queue(L.Running, 1, [], [T(data)], [], [D, T(data)], [D]), EMPTY, Gone(form));
  }

  // ------------------------------------------------------------------------ a late store

  function Revived(form: Form): C.Conn<nat> {
    Gone(form).(state := C.Disconnecting)
  }

  /** The revived connection once a send functor has buffered its payload. */
  function Rearmed(data: seq<byte>): C.Conn<nat> {
    Revived(AsIntended).(ch := Chan(FD, WRITE_EVENT, Added), out := data, log := [C.Sent(2, data)], levels := [0, |data|])
  }

  function RearmedPoller(): Poller<nat> {
    Poller(map[FD := 0], map[FD := Entry(0, WRITE_EVENT)], 0)
  }

  lemma StoreStep(form: Form, name: string, ipPort: string, flight: map<nat, Call>)
    requires 1 in flight && flight[1] == StoreCall(0)
    requires Shape(Late(form, name, ipPort, Queue(L.Running, 0, [], [], [D], [D], [D]), EMPTY, Gone(form), {0}, flight))
    ensures var s := Late(form, name, ipPort, Queue(L.Running, 0, [], [], [D], [D], [D]), EMPTY, Gone(form), {0}, flight);
            && Enabled(s, Proceed(1))
            && Next(s, Proceed(1)) == s.(recs := [Rec(0, Revived(form))], flight := flight[1 := ShutdownCall(0)])
  {
    hide Shape;
  }

  lemma RestRearms(data: seq<byte>)
    ensures var w := C.World(Revived(AsIntended).(log := [C.Sent(2, data)]), EMPTY, []);
            C.KeepRest(w, data) == C.World(Rearmed(data), RearmedPoller(), [])
  {
    assert NONE_EVENT + WRITE_EVENT == WRITE_EVENT && [] + data == data && [0] + [|data|] == [0, |data|];
  }

  lemma SendRearms(data: seq<byte>)
    requires data != []
    ensures C.SendInLoop(C.World(Revived(AsIntended), EMPTY, []), 2, data, WouldBlock)
         == C.World(Rearmed(data), RearmedPoller(), [])
  {
    hide C.KeepRest, C.AllWritten;
    var w := C.World(Revived(AsIntended), EMPTY, []);
    var r := w.(c := w.c.(log := [C.Sent(2, data)]));
    assert data[0..] == data && [] + data[..0] == [] && [] + [C.Sent(2, data)] == [C.Sent(2, data)];
    assert C.Recorded(C.Noted(w, data, WouldBlock), C.Sent(2, data), 0) == r;
    RestRearms(data);
  }

  lemma RunNextLate(t: C.Task, rest: seq<C.Task>, queued: seq<C.Task>)
    ensures L.Next(Queue(L.Running, 2, [], [t] + rest, [], queued, [D]), L.RunNext)
         == Queue(L.Running, 2, [], rest, [t], queued, [D, t])
  {
    assert ([t] + rest)[1..] == rest && [D] + [t] == [D, t] && [] + [t] == [t];
  }

  /** The send functor runs on the revived connection, which its caller still holds. */
  lemma RunStep(name: string, ipPort: string, data: seq<byte>, rest: seq<C.Task>, queued: seq<C.Task>)
    requires data != []
    requires Shape(Late(AsIntended, name, ipPort, Queue(L.Running, 2, [], [T(data)] + rest, [], queued, [D]), EMPTY,
                        Revived(AsIntended), {0}, map[]))
    ensures var s := Late(AsIntended, name, ipPort, Queue(L.Running, 2, [], [T(data)] + rest, [], queued, [D]), EMPTY,
                          Revived(AsIntended), {0}, map[]);
            var step := RunFunctor(0, [], WouldBlock);
            && Enabled(s, step) && Placeable(s, step)
            && Next(s, step)
                 == Late(AsIntended, name, ipPort, Queue(L.Running, 2, [], rest, [T(data)], queued, [D, T(data)]), RearmedPoller(),
                         Rearmed(data), {0}, map[])
  {
    hide Shape, C.SendInLoop, L.Next;
    RunNextLate(T(data), rest, queued);
    SendRearms(data);
  }

  const S: C.Task := C.ShutdownTask(0)

  lemma BareLoop()
    ensures LoopShape(Queue(L.Running, 0, [], [], [D], [D], [D]), [], 1)
  {
  }

  /** The store and both pushes, all too late. */
  lemma LateStoreSteps(name: string, ipPort: string, data: seq<byte>, rest: seq<Step>)
    requires |ipPort| <= 51 && Shape(Ruin(AsIntended, name, ipPort, data, true))
    requires CanRun(Late(AsIntended, name, ipPort, Queue(L.Running, 2, [T(data), S], [], [D], [D, T(data), S], [D]), EMPTY,
                         Revived(AsIntended), {0}, map[]), rest)
    ensures var s, steps := Ruin(AsIntended, name, ipPort, data, true), [Proceed(1)] + ([Proceed(2)] + ([Proceed(1)] + rest));
            && CanRun(s, steps)
            && Finally(s, steps)
                 == Finally(Late(AsIntended, name, ipPort, Queue(L.Running, 2, [T(data), S], [], [D], [D, T(data), S], [D]), EMPTY,
                                 Revived(AsIntended), {0}, map[]), rest)
  {
    hide Shape, LoopShape, PollerShape, Next, Enabled;
    var s, c := Ruin(AsIntended, name, ipPort, data, true), Revived(AsIntended);
    var f1: map<nat, Call> := map[1 := ShutdownCall(0), 2 := SendCall(0, data)];
    var f2: map<nat, Call> := map[1 := ShutdownCall(0)];
    var l0, l1 := Queue(L.Running, 0, [], [], [D], [D], [D]), Queue(L.Running, 1, [T(data)], [], [D], [D, T(data)], [D]);
    StoreStep(AsIntended, name, ipPort, s.flight);
    assert s.flight[1 := ShutdownCall(0)] == f1;
    var s1 := Late(AsIntended, name, ipPort, l0, EMPTY, c, {0}, f1);
    var s2 := Late(AsIntended, name, ipPort, l1, EMPTY, c, {0}, f2);
    EmptyShape();
    BareLoop();
    LateLoops(T(data), []);
    assert [T(data)] + [] == [T(data)] && [D, T(data)] + [] == [D, T(data)];
    LateShape(AsIntended, name, ipPort, l0, EMPTY, c, {0}, f1);
    LateShape(AsIntended, name, ipPort, l1, EMPTY, c, {0}, f2);
    PushStep(AsIntended, name, ipPort, 2, T(data), 0, [], [D], c, f1);
    assert f1 - {2} == f2 && [D] + [T(data)] == [D, T(data)] && [] + [T(data)] == [T(data)];
    PushStep(AsIntended, name, ipPort, 1, S, 1, [T(data)], [D, T(data)], c, f2);
    assert f2 - {1} == map[] && [D, T(data)] + [S] == [D, T(data), S] && [T(data)] + [S] == [T(data), S];
    Unfold(s2, Proceed(1), rest);
    Unfold(s1, Proceed(2), [Proceed(1)] + rest);
    Unfold(s, Proceed(1), [Proceed(2)] + ([Proceed(1)] + rest));
  }

  lemma Release0Placeable(s: Server)
    requires Shape(s) && Enabled(s, Release(0))
    ensures Placeable(s, Release(0))
  {
    hide Shape;
  }

  lemma RearmedShapes(data: seq<byte>)
    ensures PollerShape(RearmedPoller(), 1)
    ensures LoopShape(Queue(L.Running, 2, [], [S], [T(data)], [D, T(data), S], [D, T(data)]), [], 1)
  {
    assert [D, T(data)] + [S] + [] == [D, T(data), S];
  }

  /** The send functor runs, and its caller lets go. */
  lemma LateStoreEnd(name: string, ipPort: string, data: seq<byte>)
    requires |ipPort| <= 51 && data != []
    ensures var s := Late(AsIntended, name, ipPort, Queue(L.Running, 2, [], [T(data), S], [], [D, T(data), S], [D]), EMPTY,
                          Revived(AsIntended), {0}, map[]);
            var steps := [RunFunctor(0, [], WouldBlock)] + ([Release(0)] + []);
            && CanRun(s, steps)
            && Finally(s, steps)
                 == Late(AsIntended, name, ipPort, Queue(L.Running, 2, [], [S], [T(data)], [D, T(data), S], [D, T(data)]),
                         RearmedPoller(), Rearmed(data), {}, map[])
  {
    hide Shape, LoopShape, PollerShape, Next, Enabled, Placeable;
    var c, queued := Revived(AsIntended), [D, T(data), S];
    var l0, l1 := Queue(L.Running, 2, [], [T(data), S], [], queued, [D]), Queue(L.Running, 2, [], [S], [T(data)], queued, [D, T(data)]);
    assert [T(data)] + [S] == [T(data), S] && [D, T(data)] + [S] == queued;
    EmptyShape();
    LateLoops(T(data), [S]);
    RearmedShapes(data);
    LateShape(AsIntended, name, ipPort, l0, EMPTY, c, {0}, map[]);
    LateShape(AsIntended, name, ipPort, l1, RearmedPoller(), Rearmed(data), {0}, map[]);
    RunStep(name, ipPort, data, [S], queued);
    ReleaseStep(AsIntended, name, ipPort, l1, RearmedPoller(), Rearmed(data));
    Release0Placeable(Late(AsIntended, name, ipPort, l1, RearmedPoller(), Rearmed(data), {0}, map[]));
    Unfold(Late(AsIntended, name, ipPort, l1, RearmedPoller(), Rearmed(data), {0}, map[]), Release(0), []);
    Unfold(Late(AsIntended, name, ipPort, l0, EMPTY, c, {0}, map[]), RunFunctor(0, [], WouldBlock), [Release(0)] + []);
  }

  lemma {:induction false} RunsAppend(s: Server, a: seq<Step>, b: seq<Step>)
    requires CanRun(s, a) && CanRun(Finally(s, a), b)
    ensures CanRun(s, a + b) && Finally(s, a + b) == Finally(Finally(s, a), b)
    decreases |a|
  {
    hide Shape, Enabled, Placeable, Next;
    if a == [] {
      assert a + b == b;
    } else {
      assert (a + b)[0] == a[0] && (a + b)[1..] == a[1..] + b;
      RunsAppend(Next(s, a[0]), a[1..], b);
    }
  }

  /** A store that comes too late. The connection is destroyed; one thread stores the state of `shutdown`, another
      pushes the functor of a `send`; the functor takes the connection for open, registers its channel anew, and
      once its caller lets go, the poller and the kernel hold a channel whose connection is gone. */
  lemma LateStoreDangles(name: string, ipPort: string, data: seq<byte>)
    requires |ipPort| <= 51 && data != []
    ensures var s := Ruin(AsIntended, name, ipPort, data, true);
            && Reachable(s) && Shape(s) && Enabled(s, Proceed(1)) && !InTime(s, Proceed(1))
            && var steps := [Proceed(1)] + ([Proceed(2)] + ([Proceed(1)] + (TURN + ([RunFunctor(0, [], WouldBlock)] + ([Release(0)] + [])))));
               && CanRun(s, steps)
               && var u := Finally(s, steps);
                  && |u.pollers| == 1 && FD in u.pollers[0].channels && u.pollers[0].channels[FD] == 0
                  && FD in u.pollers[0].kernel && u.pollers[0].kernel[FD].key == 0 && !Owned(u, 0)
  {
    hide Shape, Reachable, Enabled, InTime, CanRun, Finally, Owned;
    var last := [RunFunctor(0, [], WouldBlock)] + ([Release(0)] + []);
    RuinNotInTime(AsIntended, name, ipPort, data, true);
    assert [T(data)] + [S] == [T(data), S] && [D, T(data)] + [S] == [D, T(data), S];
    NextBatch(AsIntended, name, ipPort, T(data), [S], 2, Revived(AsIntended), {0});
    LateStoreEnd(name, ipPort, data);
    RunsAppend(Late(AsIntended, name, ipPort, Queue(L.Running, 2, [T(data), S], [], [D], [D, T(data), S], [D]), EMPTY,
                    Revived(AsIntended), {0}, map[]), TURN, last);
    LateStoreSteps(name, ipPort, data, TURN + last);
    NoOwner(AsIntended, name, ipPort, Queue(L.Running, 2, [], [S], [T(data)], [D, T(data), S], [D, T(data)]), RearmedPoller(),
            Rearmed(data));
  }
}
