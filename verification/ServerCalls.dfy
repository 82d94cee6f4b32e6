/** What calls, reports and functors bring about in the running server. */
module ServerCalls {
  import opened Common
  import opened Pollers
  import opened ThreadPools
  import opened Servers
  import opened ServerInvariants
  import opened ServerSafety
  import opened ServerTheorems
  import opened ServerSends
  import opened ConnectionEffects
  import Names
  import L = EventLoops
  import C = Connections
  import O = ServerOrder

  // ----------------------------------------------------------- the acts of one connection

  /** What a step does to connection `id`, once established, in terms of the connection alone. */
  ghost function ActOf(s: Server, step: Step, id: nat): Option<C.Act>
    requires id < |s.recs|
  {
    match step
    case AppCall(other, op) => if other == id && s.recs[id].c.state == C.Connected then Some(C.Call(op)) else None
    case NextEvent(k) =>
      if k < |s.active| && s.active[k] != [] && s.active[k][0].Io? && s.active[k][0].id == id then
        Some(C.Dispatch(s.active[k][0].e))
      else
        None
    case RunFunctor(k, _, ans) =>
      if k < |s.loops| && s.loops[k].rest != [] && s.loops[k].rest[0].id == id then
        match s.loops[k].rest[0]
        case SendTask(_, from, data) => Some(C.RunSend(from, data, ans))
        case ShutdownTask(_) => Some(C.RunShutdown)
        case _ => None
      else
        None
    case _ => None
  }

  /** The step has taken connection `id` through `a`, and what `a` queues is to run on the connection's loop. */
  ghost predicate Performs(s: Server, u: Server, id: nat, a: C.Act)
    requires Shape(s) && Shape(u) && id < |s.recs|
  {
    var h, k := Here(s, id), s.recs[id].loop;
    && C.Live(h) && C.Allowed(h, a)
    && id < |u.recs| && u.recs[id].loop == k && k < |u.loops|
    && u.recs[id].c == C.Apply(h, a).c && u.pollers[k] == C.Apply(h, a).p
    && (forall t | t in C.Apply(h, a).q :: t in u.loops[k].Todo() || C.Apply(h, a).c.state == C.Disconnected)
  }

  lemma SettlePosts(s: Server, id: nat, w: C.World<nat>)
    requires Shape(s) && id < |s.recs| && CanPost(s.loops[s.recs[id].loop])
    ensures var u, k := Settle(s, id, w), s.recs[id].loop;
            && |u.loops| == |s.loops| && u.recs == s.recs[id := Rec(k, w.c)] && u.pollers == s.pollers[k := w.p]
            && u.loops[k].Todo() == s.loops[k].Todo() + w.q
  {
    hide PollerShape, MapShape, L.Sound, Posts;
    var k := s.recs[id].loop;
    assert LoopShape(s.loops[k], s.active[k], |s.recs|);
    PostsQueue(s.loops[k], w.q);
  }

  lemma CallPerforms(s: Server, id: nat, op: C.AppOp)
    requires Inv(s) && Enabled(s, AppCall(id, op)) && s.recs[id].c.state == C.Connected
    requires Shape(Next(s, AppCall(id, op)))
    ensures Performs(s, Next(s, AppCall(id, op)), id, C.Call(op))
  {
    hide Good, Distinct, LoopShape, PollerShape, MapShape, Owned, C.AppCall, C.Live, Posts;
    UpOwned(s, id);
    SettlePosts(s, id, C.AppCall(Here(s, id), op));
  }

  lemma DispatchPerforms(s: Server, k: nat)
    requires Inv(s) && Enabled(s, NextEvent(k)) && Placeable(s, NextEvent(k)) && s.active[k][0].Io?
    requires Shape(Next(s, NextEvent(k)))
    ensures s.active[k][0].id < |s.recs|
    ensures Performs(s, Next(s, NextEvent(k)), s.active[k][0].id, C.Dispatch(s.active[k][0].e))
  {
    hide Good, Distinct, LoopShape, PollerShape, MapShape, Owned, C.HandleEvent, C.Live, Posts, L.QueueBy, FreshFd;
    TakenKeeps(s, k);
    var id, e := s.active[k][0].id, s.active[k][0].e;
    UpOwned(s, id);
    var t := Taken(s, k);
    assert Here(t, id) == Here(s, id);
    DispatchLater(t, id, e);
    ClosesIff(Here(s, id), e);
    SettlePosts(t, id, C.HandleEvent(Here(t, id), e));
  }

  lemma HeadLive(s: Server, k: nat)
    requires Inv(s) && k < |s.loops| && L.Enabled(s.loops[k], L.RunNext) && !s.loops[k].rest[0].Lifecycle()
    ensures var t := s.loops[k].rest[0];
            && t.id < |s.recs| && s.recs[t.id].loop == k && C.Live(Here(s, t.id))
            && (t.ShutdownTask? ==> s.recs[t.id].c.state != C.Connected)
  {
    hide Good, Distinct, LoopShape, PollerShape, MapShape, Owned, C.Live, L.Next, About;
    var t := s.loops[k].rest[0];
    HeadMine(s, k);
    HeadPlaced(s, k, t, Mine(Popped(s, k), k, t.id));
    LiveHere(s, t.id);
  }

  lemma FunctorSettles(s: Server, k: nat, ops: seq<C.AppOp>, ans: Answer)
    requires Inv(s) && Enabled(s, RunFunctor(k, ops, ans)) && Placeable(s, RunFunctor(k, ops, ans))
    requires s.loops[k].rest[0].SendTask? || s.loops[k].rest[0].ShutdownTask?
    ensures var step, t := RunFunctor(k, ops, ans), s.loops[k].rest[0];
            && L.Enabled(s.loops[k], L.RunNext) && HasLoop(Popped(s, k), t.id) && s.recs[t.id].loop == k
            && CanPost(Popped(s, k).loops[k]) && ActOf(s, step, t.id).Some? && C.Live(Here(s, t.id))
            && C.Allowed(Here(s, t.id), ActOf(s, step, t.id).value)
            && Next(s, step) == Settle(Popped(s, k), t.id, C.Apply(Here(s, t.id), ActOf(s, step, t.id).value))
  {
    hide Good, Distinct, LoopShape, PollerShape, MapShape, Owned, C.SendInLoop, C.ShutdownInLoop, C.Live, Settle;
    RunFunctorKeeps(s, k, ops, ans);
    HeadLive(s, k);
    assert Here(Popped(s, k), s.loops[k].rest[0].id) == Here(s, s.loops[k].rest[0].id);
  }

  lemma FunctorPerforms(s: Server, k: nat, ops: seq<C.AppOp>, ans: Answer)
    requires Inv(s) && Enabled(s, RunFunctor(k, ops, ans)) && Placeable(s, RunFunctor(k, ops, ans))
    requires Shape(Next(s, RunFunctor(k, ops, ans)))
    requires s.loops[k].rest[0].SendTask? || s.loops[k].rest[0].ShutdownTask?
    ensures var t := s.loops[k].rest[0];
            && ActOf(s, RunFunctor(k, ops, ans), t.id).Some?
            && Performs(s, Next(s, RunFunctor(k, ops, ans)), t.id, ActOf(s, RunFunctor(k, ops, ans), t.id).value)
  {
    hide Good, Distinct, LoopShape, PollerShape, MapShape, Owned, C.Apply, C.Allowed, C.Live, Settle, L.Next, Next;
    FunctorSettles(s, k, ops, ans);
    PopShape(s, k);
    var t := s.loops[k].rest[0];
    SettlePosts(Popped(s, k), t.id, C.Apply(Here(s, t.id), ActOf(s, RunFunctor(k, ops, ans), t.id).value));
  }

  /** A connection in the server goes through the acts of a connection: whatever is proved of those holds in the
      running server. */
  lemma StepPerforms(s: Server, step: Step, id: nat)
    requires Safe(s) && Enabled(s, step) && InTime(s, step) && id < |s.recs| && ActOf(s, step, id).Some?
    ensures Placeable(s, step) && Shape(Next(s, step)) && Performs(s, Next(s, step), id, ActOf(s, step, id).value)
  {
    hide Good, Distinct, Shape, Next, InTime, Performs, Placeable, FlightShape, FreshFd, Owned;
    StepSafe(s, step);
    match step {
      case AppCall(other, op) => CallPerforms(s, id, op);
      case NextEvent(k) => DispatchPerforms(s, k);
      case RunFunctor(k, ops, ans) => FunctorPerforms(s, k, ops, ans);
    }
  }

  ghost predicate Executes(s: Server, step: Step, t: C.Task) {
    step.RunFunctor? && step.k < |s.loops| && s.loops[step.k].rest != [] && s.loops[step.k].rest[0] == t
  }

  ghost predicate Stores(s: Server, step: Step, id: nat) {
    step.Proceed? && step.from in s.flight && s.flight[step.from] == StoreCall(id)
  }

  lemma DispatchOthers(s: Server, k: nat, id: nat)
    requires Inv(s) && Enabled(s, NextEvent(k)) && Placeable(s, NextEvent(k)) && id < |s.recs|
    requires ActOf(s, NextEvent(k), id).None?
    ensures var u := Next(s, NextEvent(k));
            id < |u.recs| && u.recs[id] == s.recs[id]
  {
    hide Good, Distinct, LoopShape, PollerShape, MapShape, Owned, C.HandleEvent, L.Sound, FreshFd, Dispatched, NewConnection,
         L.Next;
    TakenKeeps(s, k);
    match s.active[k][0] {
      case Wake =>
      case Accept(_, _, _, _, _) => AcceptRecords(Taken(s, k), s.active[k][0], id);
      case Io(other, e) => DispatchLater(Taken(s, k), other, e);
    }
  }

  lemma FunctorOthers(s: Server, k: nat, ops: seq<C.AppOp>, ans: Answer, id: nat)
    requires Inv(s) && Enabled(s, RunFunctor(k, ops, ans)) && Placeable(s, RunFunctor(k, ops, ans)) && id < |s.recs|
    requires var step := RunFunctor(k, ops, ans);
             ActOf(s, step, id).None? && !Executes(s, step, C.EstablishTask(id)) && !Executes(s, step, C.DestroyTask(id))
    ensures var u := Next(s, RunFunctor(k, ops, ans));
            id < |u.recs| && u.recs[id] == s.recs[id]
  {
    hide Good, Distinct, LoopShape, PollerShape, MapShape, Owned, C.Establish, C.Destroy, C.SendInLoop, C.ShutdownInLoop,
         L.Sound, L.QueueBy, Posts;
    RunFunctorKeeps(s, k, ops, ans);
    FunctorLater(s, k, ops, ans);
  }

  lemma CallIgnored(w: C.World<nat>, op: C.AppOp)
    requires w.c.state != C.Connected
    ensures C.AppCall(w, op) == w
  {
  }

  /** Nothing else touches the record of a connection. */
  lemma StepIdle(s: Server, step: Step, id: nat)
    requires Inv(s) && Enabled(s, step) && Placeable(s, step) && id < |s.recs| && ActOf(s, step, id).None?
    requires !Executes(s, step, C.EstablishTask(id)) && !Executes(s, step, C.DestroyTask(id)) && !Stores(s, step, id)
    ensures id < |Next(s, step).recs| && Next(s, step).recs[id] == s.recs[id]
  {
    hide Good, Distinct, LoopShape, PollerShape, MapShape, Owned, Performed, Dispatched, NewConnection, C.AppCall, Posts,
         L.Next, L.QueueBy, L.QuitBy, FreshFd, Reportable;
    match step {
      case NextEvent(k) => DispatchOthers(s, k, id);
      case RunFunctor(k, ops, ans) => FunctorOthers(s, k, ops, ans, id);
      case AppCall(other, op) =>
        if other == id {
          CallIgnored(Here(s, id), op);
        }
      case _ =>
    }
  }

  // ------------------------------------------------------------------------- own-loop sends

  /** The payloads sent to `id` on its own loop in this step: by a call of the application, by the message callback of
      a report, or by the connection callback when the connection is established. */
  ghost function StepSends(s: Server, step: Step, id: nat): seq<seq<byte>>
    requires Shape(s)
  {
    if id < |s.recs| then
      if ActOf(s, step, id).Some? then ActSends(Here(s, id), ActOf(s, step, id).value)
      else if Executes(s, step, C.EstablishTask(id)) then OwnSends(C.Opened(Here(s, id)), step.ops)
      else []
    else if id == |s.recs| && step.NextEvent? && step.k < |s.active| && s.active[step.k] != [] && s.active[step.k][0].Accept?
            && Chosen(|s.loops| - 1, s.next) == 0 then
      OwnSends(C.Opened(Here(Entered(s, s.active[step.k][0]), id)), s.active[step.k][0].ops)
    else
      []
  }

  ghost function OwnLog(s: Server, id: nat): seq<seq<byte>> {
    if id < |s.recs| then C.From(s.recs[id].c.log, 0) else []
  }

  /** Send functors carry the number of the thread that pushed them, which is not 0. */
  ghost predicate ForeignOnly(s: Server) {
    forall k, t | 0 <= k < |s.loops| && t in s.loops[k].queued && t.SendTask? :: t.from > 0
  }

  lemma StepForeign(s: Server, step: Step)
    requires Safe(s) && Enabled(s, step) && Placeable(s, step) && ForeignOnly(s)
    ensures ForeignOnly(Next(s, step))
  {
    hide Good, Distinct, LoopShape, PollerShape, MapShape, Next, FreshFd, Owned, Placeable;
    if PushesSend(s, step) {
      StepPushes(s, step);
    } else {
      StepQuiet(s, step);
      var u, t := Next(s, step), if step.RunFunctor? then Popped(s, step.k) else s;
      forall k, x | 0 <= k < |u.loops| && x in u.loops[k].queued && x.SendTask? ensures x.from > 0 {
        assert Quiet(t.loops[k], u.loops[k]);
        assert u.loops[k].queued == t.loops[k].queued + u.loops[k].queued[|t.loops[k].queued|..];
        assert t.loops[k].queued == s.loops[k].queued;
      }
    }
  }

  lemma HeadForeign(s: Server, k: nat)
    requires Shape(s) && ForeignOnly(s) && k < |s.loops| && s.loops[k].rest != [] && s.loops[k].rest[0].SendTask?
    ensures s.loops[k].rest[0].from > 0
  {
    hide PollerShape, MapShape;
    var l := s.loops[k];
    assert LoopShape(l, s.active[k], |s.recs|);
    assert l.rest[0] in l.executed + l.rest + l.pending;
  }

  lemma PoppedTodo(s: Server, k: nat)
    requires k < |s.loops| && L.Enabled(s.loops[k], L.RunNext)
    ensures Popped(s, k).loops[k].Todo() == s.loops[k].Todo()[1..]
    ensures forall j | 0 <= j < |s.loops| && j != k :: Popped(s, k).loops[j] == s.loops[j]
  {
  }

  lemma IdleHere(s: Server, id: nat)
    requires Inv(s) && id < |s.recs| && Owned(s, id) && s.recs[id].c.state == C.Connecting
    ensures C.Idle(Here(s, id))
  {
    hide About, Hits, Placed, Reported, LoopShape, PollerShape, MapShape, Owned, Registered, Absent, L.Sound;
    assert Good(s, id);
    FdFree(s, id);
  }

  lemma EstablishedLog(s: Server, k: nat, ops: seq<C.AppOp>, ans: Answer, id: nat)
    requires Inv(s) && Enabled(s, RunFunctor(k, ops, ans)) && Placeable(s, RunFunctor(k, ops, ans)) && id < |s.recs|
    requires Executes(s, RunFunctor(k, ops, ans), C.EstablishTask(id))
    ensures var u, h := Next(s, RunFunctor(k, ops, ans)), Here(s, id);
            && |u.recs| == |s.recs| && |u.loops| == |s.loops| && s.recs[id].loop == k && C.Idle(h)
            && u.recs[id].c == C.Establish(h, ops).c
            && u.loops[k].Todo() == s.loops[k].Todo()[1..] + C.Establish(h, ops).q
  {
    hide Good, Distinct, LoopShape, PollerShape, MapShape, Owned, C.Establish, C.Idle, L.Sound, L.Next, Posts,
         L.QueueBy;
    RunFunctorKeeps(s, k, ops, ans);
    HeadMine(s, k);
    HeadPlaced(s, k, C.EstablishTask(id), Mine(Popped(s, k), k, id));
    IdleHere(s, id);
    PopShape(s, k);
    PoppedTodo(s, k);
    PoppedCanPost(s, k);
    SettlePosts(Popped(s, k), id, C.Establish(Here(Popped(s, k), id), ops));
  }

  lemma DestroyedLog(s: Server, k: nat, ops: seq<C.AppOp>, ans: Answer, id: nat)
    requires Inv(s) && Enabled(s, RunFunctor(k, ops, ans)) && Placeable(s, RunFunctor(k, ops, ans)) && id < |s.recs|
    requires Executes(s, RunFunctor(k, ops, ans), C.DestroyTask(id))
    ensures var u := Next(s, RunFunctor(k, ops, ans));
            |u.recs| == |s.recs| && u.recs[id].c.log == s.recs[id].c.log && u.recs[id].c.state == C.Disconnected
  {
    hide Good, Distinct, LoopShape, PollerShape, MapShape, Owned, C.Destroy, L.Sound, L.Next, Posts, L.QueueBy;
    RunFunctorKeeps(s, k, ops, ans);
    FunctorLater(s, k, ops, ans);
    O.FunctorPlaced(s, k);
  }

  lemma StoredLog(s: Server, step: Step, id: nat)
    requires Inv(s) && Enabled(s, step) && id < |s.recs| && Stores(s, step, id)
    ensures var u := Next(s, step);
            && |u.recs| == |s.recs| && u.recs[id].c == s.recs[id].c.(state := C.Disconnecting)
            && u.flight == s.flight[step.from := ShutdownCall(id)] && u.loops == s.loops
  {
    hide Good, Distinct, LoopShape, PollerShape, MapShape, Owned;
  }

  lemma ActForeign(s: Server, step: Step, id: nat)
    requires Inv(s) && ForeignOnly(s) && Enabled(s, step) && id < |s.recs| && ActOf(s, step, id).Some?
    ensures ActOf(s, step, id).value.RunSend? ==> ActOf(s, step, id).value.from > 0
  {
    hide Good, Distinct, LoopShape, PollerShape, MapShape, FreshFd, Owned, Reportable;
    if step.RunFunctor? && s.loops[step.k].rest[0].SendTask? {
      HeadForeign(s, step.k);
    }
  }

  lemma OldOwn(s: Server, step: Step, id: nat)
    requires Safe(s) && Enabled(s, step) && InTime(s, step) && ForeignOnly(s) && id < |s.recs|
    ensures Placeable(s, step) && id < |Next(s, step).recs|
    ensures OwnLog(Next(s, step), id) == OwnLog(s, id) + StepSends(s, step, id)
  {
    hide Good, Distinct, Shape, Next, InTime, FlightShape, FreshFd, Owned, Enabled, ActOf, C.Apply, C.From, C.Live, C.Allowed,
         ActSends, OwnSends, ForeignOnly, Placeable, C.Establish, C.Opened;
    StepSafe(s, step);
    LoopExists(s, id);
    RecordStep(s, step, id);
    assert OwnLog(s, id) + [] == OwnLog(s, id);
    if ActOf(s, step, id).Some? {
      var a := ActOf(s, step, id).value;
      StepPerforms(s, step, id);
      ActForeign(s, step, id);
      ApplyOwn(Here(s, id), a);
    } else if Executes(s, step, C.EstablishTask(id)) {
      EstablishedLog(s, step.k, step.ops, step.ans, id);
      EstablishTakesEffect(Here(s, id), step.ops);
    } else if Executes(s, step, C.DestroyTask(id)) {
      DestroyedLog(s, step.k, step.ops, step.ans, id);
    } else if Stores(s, step, id) {
      StoredLog(s, step, id);
    } else {
      StepIdle(s, step, id);
    }
  }

  lemma SameEntered(s: Server, k: nat, e: Occurrence)
    requires Shape(s) && k < |s.active| && s.active[k] != [] && e.Accept?
    ensures var t, u, id := Entered(Taken(s, k), e), Entered(s, e), |s.recs|;
            && t.recs == u.recs && t.pollers == u.pollers && HasLoop(u, id) && HasLoop(t, id) && Here(t, id) == Here(u, id)
            && u.recs[id].loop == Chosen(|s.loops| - 1, s.next)
  {
    hide LoopShape, PollerShape, MapShape, Names.ConnName;
  }

  lemma NoneLogged()
    ensures C.From([], 0) == []
  {
  }

  lemma NewbornIdle(s: Server, id: nat)
    requires Shape(s) && id < |s.recs| && Newborn(s, id) && s.recs[id].loop == 0
    requires s.recs[id].c.ch.fd !in s.pollers[0].channels && s.recs[id].c.ch.fd !in s.pollers[0].kernel
    ensures C.Idle(Here(s, id))
  {
    hide About, Hits, LoopShape, PollerShape, MapShape, Registered, Absent, L.Sound, C.Sane;
  }

  lemma AcceptedOwn(s: Server, e: Occurrence)
    requires Inv(s) && e.Accept? && |s.recs| + 1 < Names.INT_MAX && CanPost(s.loops[0]) && FreshFd(s, e.fd)
    ensures var u, id := NewConnection(s, e), |s.recs|;
            && |u.recs| == id + 1
            && C.From(u.recs[id].c.log, 0)
                 == if Entered(s, e).recs[id].loop == 0 then OwnSends(C.Opened(Here(Entered(s, e), id)), e.ops) else []
  {
    hide Good, Distinct, LoopShape, PollerShape, MapShape, L.Sound, Posts, L.QueueBy, Owned, C.Establish, FreshFd, OwnSends,
         C.From, C.Opened;
    EnteredShape(s, e);
    EnteredNewborn(s, e);
    FreshUnused(s, e.fd);
    var t, id := Entered(s, e), |s.recs|;
    NoneLogged();
    if t.recs[id].loop == 0 {
      NewbornIdle(t, id);
      EstablishTakesEffect(Here(t, id), e.ops);
      assert [] + OwnSends(C.Opened(Here(t, id)), e.ops) == OwnSends(C.Opened(Here(t, id)), e.ops);
    }
  }

  lemma NewOwn(s: Server, step: Step, id: nat)
    requires Inv(s) && Enabled(s, step) && Placeable(s, step) && |s.recs| <= id < |Next(s, step).recs|
    ensures OwnLog(Next(s, step), id) == StepSends(s, step, id)
  {
    hide Good, Distinct, LoopShape, PollerShape, MapShape, Owned, FreshFd, Dispatched, Performed, L.Next, NewConnection,
         C.From, OwnSends, C.Opened;
    O.OnlyAcceptAdds(s, step);
    TakenKeeps(s, step.k);
    FreshStill(s, step.k, s.active[step.k][0].fd);
    AcceptedOwn(Taken(s, step.k), s.active[step.k][0]);
    assert Entered(Taken(s, step.k), s.active[step.k][0]).recs == Entered(s, s.active[step.k][0]).recs;
    O.NewLogs(Taken(s, step.k), s.active[step.k][0], 1);
    assert Taken(s, step.k).next == s.next;
    SameEntered(s, step.k, s.active[step.k][0]);
  }

  lemma AcceptCounts(s: Server, k: nat)
    requires Inv(s) && Enabled(s, NextEvent(k)) && Placeable(s, NextEvent(k)) && s.active[k][0].Accept?
    ensures |Next(s, NextEvent(k)).recs| == |s.recs| + 1
  {
    hide Good, Distinct, LoopShape, PollerShape, MapShape, Owned, FreshFd, NewConnection;
    TakenKeeps(s, k);
    O.NewLogs(Taken(s, k), s.active[k][0], 1);
  }

  lemma OwnStep(s: Server, step: Step, id: nat)
    requires Safe(s) && Enabled(s, step) && InTime(s, step) && ForeignOnly(s)
    ensures Placeable(s, step) && OwnLog(Next(s, step), id) == OwnLog(s, id) + StepSends(s, step, id)
  {
    hide Good, Distinct, LoopShape, PollerShape, MapShape, Next, InTime, FlightShape, FreshFd, Owned, ActOf, C.Apply, C.From,
         C.Live, C.Allowed, ActSends, OwnSends, ForeignOnly, C.Opened, Placeable;
    StepSafe(s, step);
    if id < |s.recs| {
      OldOwn(s, step, id);
    } else if id < |Next(s, step).recs| {
      NewOwn(s, step, id);
    } else if step.NextEvent? && s.active[step.k][0].Accept? {
      AcceptCounts(s, step.k);
    }
  }

  /** The payloads the application sends to `id` during the run on the connection's own loop while it is connected, in
      the order of the calls, but for those whose direct write finds the peer gone. */
  ghost function RunSends(s: Server, steps: seq<Step>, id: nat): seq<seq<byte>>
    requires Safe(s) && IsRun(s, steps)
    decreases |steps|
  {
    if steps == [] then [] else
      StepSafe(s, steps[0]);
      StepSends(s, steps[0], id) + RunSends(Next(s, steps[0]), steps[1..], id)
  }

  lemma {:induction false} OwnRun(s: Server, steps: seq<Step>, id: nat)
    requires Safe(s) && IsRun(s, steps) && ForeignOnly(s)
    ensures OwnLog(After(s, steps), id) == OwnLog(s, id) + RunSends(s, steps, id)
    decreases |steps|
  {
    hide Good, Distinct, Shape, Next, InTime, FlightShape, Owned, Enabled, OwnLog, StepSends, ForeignOnly;
    if steps == [] {
      assert OwnLog(s, id) + [] == OwnLog(s, id);
    } else {
      StepSafe(s, steps[0]);
      var t := Next(s, steps[0]);
      StepForeign(s, steps[0]);
      OwnStep(s, steps[0], id);
      OwnRun(t, steps[1..], id);
      Regroup(OwnLog(s, id), StepSends(s, steps[0], id), RunSends(t, steps[1..], id));
    }
  }

  /** In every state the server reaches in time, the payloads a connection has taken on behalf of its own loop are
      exactly those the application sent there while it was connected, in the order of the calls, less the faulted
      ones. */
  lemma OwnSendsReachLog(form: Form, name: string, ipPort: string, subLoops: nat, steps: seq<Step>, u: Server, id: nat)
    requires |ipPort| <= 51 && Trace(form, name, ipPort, subLoops, steps, u) && id < |u.recs|
    ensures Safe(Start(form, name, ipPort, subLoops)) && IsRun(Start(form, name, ipPort, subLoops), steps)
    ensures C.From(u.recs[id].c.log, 0) == RunSends(Start(form, name, ipPort, subLoops), steps, id)
  {
    hide Good, Distinct, Shape, Owned, RunSends, C.From, IsRun, After, FlightShape;
    StartSafe(form, name, ipPort, subLoops);
    OwnRun(Start(form, name, ipPort, subLoops), steps, id);
    var sent := RunSends(Start(form, name, ipPort, subLoops), steps, id);
    assert [] + sent == sent;
  }

  // ---------------------------------------------------------------- shutdown and half-close

  ghost predicate ShutdownQueued(s: Server, id: nat)
    requires HasLoop(s, id)
  {
    C.ShutdownTask(id) in s.loops[s.recs[id].loop].Todo()
  }

  ghost predicate ShutdownBegun(s: Server, id: nat) {
    exists from :: from in s.flight && s.flight[from] == ShutdownCall(id)
  }

  /** A half-close that is due is on its way. */
  ghost predicate Promised(s: Server, id: nat) {
    HasLoop(s, id) && Due(s.recs[id].c) ==> ShutdownQueued(s, id) || ShutdownBegun(s, id)
  }

  lemma QuietTodo(l: Loop, m: Loop)
    requires L.Sound(l) && L.Sound(m) && Quiet(l, m)
    ensures l.Todo() <= m.Todo()
  {
    assert l.executed + l.Todo() == l.queued && m.executed + m.Todo() == m.queued;
    assert l.Todo() == l.queued[|l.executed|..] && m.Todo() == m.queued[|m.executed|..];
  }

  lemma PushTodo(s: Server, step: Step, k: nat)
    requires Inv(s) && Enabled(s, step) && step.Proceed? && !s.flight[step.from].StoreCall? && k < |s.loops|
    ensures var u, call := Next(s, step), s.flight[step.from];
            && |u.loops| == |s.loops| && call.id < |s.recs|
            && u.loops[k].Todo() == s.loops[k].Todo() + if k != s.recs[call.id].loop then []
                                                         else if call.SendCall? then [C.SendTask(call.id, step.from, call.data)]
                                                         else [C.ShutdownTask(call.id)]
  {
    hide Good, Distinct, LoopShape, PollerShape, MapShape, Owned, L.Sound, InMap;
    LoopExists(s, s.flight[step.from].id);
  }

  /** A functor stays queued until it is executed. */
  lemma TodoStays(s: Server, step: Step, k: nat, t: C.Task)
    requires Safe(s) && Enabled(s, step) && InTime(s, step) && k < |s.loops| && t in s.loops[k].Todo()
    requires !(step.RunFunctor? && step.k == k && s.loops[k].rest[0] == t)
    ensures Placeable(s, step) && k < |Next(s, step).loops| && t in Next(s, step).loops[k].Todo()
  {
    hide Good, Distinct, PollerShape, MapShape, Next, InTime, FlightShape, FreshFd, Owned, Quiet, L.Sound,
         Placeable, About;
    StepSafe(s, step);
    var u := Next(s, step);
    if PushesSend(s, step) {
      StepPushes(s, step);
      PushTodo(s, step, k);
    } else {
      StepQuiet(s, step);
      var b := if step.RunFunctor? then Popped(s, step.k) else s;
      if step.RunFunctor? {
        PopShape(s, step.k);
        PoppedTodo(s, step.k);
      }
      assert Quiet(b.loops[k], u.loops[k]);
      assert LoopShape(b.loops[k], b.active[k], |b.recs|) && LoopShape(u.loops[k], u.active[k], |u.recs|);
      QuietTodo(b.loops[k], u.loops[k]);
    }
  }

  lemma DueUp(c: C.Conn<nat>)
    requires Due(c)
    ensures c.state == C.Disconnecting
  {
  }

  lemma OwnId(s: Server, id: nat)
    requires Inv(s) && id < |s.recs|
    ensures s.recs[id].c.id == id
  {
    hide About, Hits, Placed, Reported, LoopShape, PollerShape, MapShape, Registered, Absent, C.Sane;
    assert Good(s, id);
  }

  lemma DueActs(s: Server, step: Step, id: nat)
    requires Safe(s) && Enabled(s, step) && InTime(s, step) && id < |s.recs| && ActOf(s, step, id).Some? && Promised(s, id)
    ensures Placeable(s, step) && Promised(Next(s, step), id)
  {
    hide Good, Distinct, LoopShape, PollerShape, MapShape, Next, InTime, FlightShape, FreshFd, Owned, C.Apply, C.Live, C.Allowed,
         Due, Placeable, Reportable;
    LoopExists(s, id);
    StepSafe(s, step);
    StepPerforms(s, step, id);
    StepFlight(s, step);
    var a, h, k, u := ActOf(s, step, id).value, Here(s, id), s.recs[id].loop, Next(s, step);
    var w := C.Apply(h, a);
    ApplyPromises(h, a);
    if Due(u.recs[id].c) {
      DueUp(u.recs[id].c);
      assert !a.RunShutdown?;
      assert w.q[|h.q|..] == w.q;
      OwnId(s, id);
      if Due(s.recs[id].c) {
        if ShutdownQueued(s, id) {
          TodoStays(s, step, k, C.ShutdownTask(id));
        } else {
          var from :| from in s.flight && s.flight[from] == ShutdownCall(id);
          assert u.flight == s.flight;
        }
      }
    }
  }

  lemma DueEstablished(s: Server, k: nat, ops: seq<C.AppOp>, ans: Answer, id: nat)
    requires Inv(s) && Enabled(s, RunFunctor(k, ops, ans)) && Placeable(s, RunFunctor(k, ops, ans)) && id < |s.recs|
    requires Executes(s, RunFunctor(k, ops, ans), C.EstablishTask(id))
    ensures var u := Next(s, RunFunctor(k, ops, ans));
            && id < |u.recs| && s.recs[id].loop == k && k < |u.loops|
            && (Due(u.recs[id].c) ==> C.ShutdownTask(id) in u.loops[k].Todo())
  {
    hide Good, Distinct, LoopShape, PollerShape, MapShape, Owned, Next, C.Establish, C.Sane;
    EstablishedLog(s, k, ops, ans, id);
    var h := Here(s, id);
    EstablishPromises(h, ops);
    var q := C.Establish(h, ops).q;
    assert q[|h.q|..] == q;
    assert s.recs[id].c.id == id by { OwnId(s, id); }
  }

  lemma DueIdle(s: Server, step: Step, id: nat)
    requires Safe(s) && Enabled(s, step) && InTime(s, step) && id < |s.recs| && ActOf(s, step, id).None? && Promised(s, id)
    requires !Executes(s, step, C.EstablishTask(id)) && !Executes(s, step, C.DestroyTask(id)) && !Stores(s, step, id)
    ensures Placeable(s, step) && Promised(Next(s, step), id)
  {
    hide Good, Distinct, LoopShape, PollerShape, MapShape, Next, InTime, FlightShape, FreshFd, Owned, Due,
         Placeable, Reportable;
    LoopExists(s, id);
    StepSafe(s, step);
    StepIdle(s, step, id);
    StepFlight(s, step);
    var u, k := Next(s, step), s.recs[id].loop;
    if HasLoop(u, id) && Due(u.recs[id].c) {
      if ShutdownQueued(s, id) {
        TodoStays(s, step, k, C.ShutdownTask(id));
      } else {
        var from :| from in s.flight && s.flight[from] == ShutdownCall(id);
        if step == Proceed(from) {
          PushTodo(s, step, k);
        } else {
          assert u.flight[from] == ShutdownCall(id);
        }
      }
    }
  }

  lemma AcceptedDue(s: Server, e: Occurrence)
    requires Inv(s) && e.Accept? && |s.recs| + 1 < Names.INT_MAX && CanPost(s.loops[0]) && FreshFd(s, e.fd)
    ensures var u, id := NewConnection(s, e), |s.recs|;
            |u.recs| == id + 1 && Promised(u, id)
  {
    hide Good, Distinct, LoopShape, PollerShape, MapShape, L.Sound, Posts, L.QueueBy, Owned, C.Establish, FreshFd;
    EnteredShape(s, e);
    EnteredNewborn(s, e);
    FreshUnused(s, e.fd);
    var t, id := Entered(s, e), |s.recs|;
    if t.recs[id].loop == 0 {
      NewbornIdle(t, id);
      var w := C.Establish(Here(t, id), e.ops);
      EstablishPromises(Here(t, id), e.ops);
      SettlePosts(t, id, w);
      assert w.q[|Here(t, id).q|..] == w.q;
    }
  }

  lemma DueNew(s: Server, step: Step, id: nat)
    requires Inv(s) && Enabled(s, step) && Placeable(s, step) && |s.recs| <= id < |Next(s, step).recs|
    ensures Promised(Next(s, step), id)
  {
    hide Good, Distinct, LoopShape, PollerShape, MapShape, Owned, FreshFd, Dispatched, Performed, L.Next,
         NewConnection, Due;
    O.OnlyAcceptAdds(s, step);
    TakenKeeps(s, step.k);
    FreshStill(s, step.k, s.active[step.k][0].fd);
    AcceptedDue(Taken(s, step.k), s.active[step.k][0]);
  }

  lemma StepPromised(s: Server, step: Step, id: nat)
    requires Safe(s) && Enabled(s, step) && InTime(s, step) && (id < |s.recs| ==> Promised(s, id))
    ensures Placeable(s, step) && Promised(Next(s, step), id)
  {
    hide Good, Distinct, Shape, Next, InTime, FlightShape, FreshFd, Owned, Placeable, Enabled, ActOf;
    StepSafe(s, step);
    var u := Next(s, step);
    if id >= |s.recs| {
      if id < |u.recs| {
        DueNew(s, step, id);
      }
    } else if ActOf(s, step, id).Some? {
      DueActs(s, step, id);
    } else if Executes(s, step, C.EstablishTask(id)) {
      RecordStep(s, step, id);
      DueEstablished(s, step.k, step.ops, step.ans, id);
    } else if Executes(s, step, C.DestroyTask(id)) {
      DestroyedLog(s, step.k, step.ops, step.ans, id);
    } else if Stores(s, step, id) {
      StoredLog(s, step, id);
      assert u.flight[step.from] == ShutdownCall(id);
    } else {
      DueIdle(s, step, id);
    }
  }

  lemma {:induction false} RunPromised(s: Server, steps: seq<Step>, id: nat)
    requires Safe(s) && IsRun(s, steps) && (id < |s.recs| ==> Promised(s, id))
    ensures Promised(After(s, steps), id)
    decreases |steps|
  {
    hide Good, Distinct, Shape, Next, InTime, FlightShape, Owned, Enabled, Due, ShutdownQueued, ShutdownBegun;
    if steps != [] {
      StepSafe(s, steps[0]);
      StepPromised(s, steps[0], id);
      RunPromised(Next(s, steps[0]), steps[1..], id);
    }
  }

  lemma FinsUp(s: Server, id: nat)
    requires Inv(s) && id < |s.recs| && s.recs[id].c.state == C.Disconnecting
    ensures forall f | f in s.recs[id].c.fins :: f.up
  {
    hide About, Hits, Placed, Reported, LoopShape, PollerShape, MapShape, Registered, Absent, C.Balanced,
         C.MarksCounted;
    assert Good(s, id);
  }

  /** In every state the server reaches in time, a connection that is disconnecting with an empty buffer has been
      half-closed, or the functor that half-closes it waits on its own loop, or a thread is about to push it. */
  lemma ShutdownIsOnItsWay(u: Server, id: nat)
    requires Reachable(u) && id < |u.recs| && u.recs[id].c.state == C.Disconnecting && u.recs[id].c.out == []
    ensures HasLoop(u, id)
    ensures (exists f :: f in u.recs[id].c.fins && f.up) || ShutdownQueued(u, id) || ShutdownBegun(u, id)
  {
    hide Good, Distinct, Shape, Owned, IsRun, After, FlightShape, ShutdownQueued, ShutdownBegun;
    var form, name, ipPort, subLoops: nat, steps :|
      |ipPort| <= 51 && Trace(form, name, ipPort, subLoops, steps, u);
    StartSafe(form, name, ipPort, subLoops);
    RunPromised(Start(form, name, ipPort, subLoops), steps, id);
    LoopExists(u, id);
    var fins := u.recs[id].c.fins;
    if fins != [] {
      FinsUp(u, id);
      assert fins[0] in fins;
    }
  }

  /** When that functor runs with an empty buffer, it half-closes right behind the last byte written; with bytes still
      waiting it leaves that to the write event that drains them. */
  lemma ShutdownRuns(s: Server, k: nat, ops: seq<C.AppOp>, ans: Answer, id: nat)
    requires Safe(s) && Enabled(s, RunFunctor(k, ops, ans)) && id < |s.recs| && s.recs[id].c.state == C.Disconnecting
    requires Executes(s, RunFunctor(k, ops, ans), C.ShutdownTask(id))
    ensures Placeable(s, RunFunctor(k, ops, ans))
    ensures var c, u := s.recs[id].c, Next(s, RunFunctor(k, ops, ans));
            && id < |u.recs|
            && u.recs[id].c.fins == (if c.out == [] then c.fins + [C.Fin(|c.wire|, true)] else c.fins)
            && u.recs[id].c.wire == c.wire && u.recs[id].c.out == c.out
  {
    hide Good, Distinct, Shape, Next, FlightShape, Owned, C.ShutdownInLoop, C.Live;
    StepPerforms(s, RunFunctor(k, ops, ans), id);
    LoopExists(s, id);
    ShutdownFunctor(Here(s, id));
  }

  /** The steps of a `shutdown` called by another thread: a call that finds the connection connected is begun, its
      store makes the connection disconnecting, and its push puts the half-close at the end of the loop's queue. */
  lemma RemoteShutdownSteps(s: Server, step: Step)
    requires Safe(s) && Enabled(s, step) && InTime(s, step)
    ensures Placeable(s, step)
    ensures step.RemoteShutdown? && s.recs[step.id].c.state == C.Connected ==>
              step.from in Next(s, step).flight && Next(s, step).flight[step.from] == StoreCall(step.id)
    ensures step.Proceed? && s.flight[step.from].StoreCall? ==>
              var id, u := s.flight[step.from].id, Next(s, step);
              && id < |u.recs| && u.recs[id].c.state == C.Disconnecting
              && step.from in u.flight && u.flight[step.from] == ShutdownCall(id)
    ensures step.Proceed? && s.flight[step.from].ShutdownCall? ==>
              var id := s.flight[step.from].id; var k, u := s.recs[id].loop, Next(s, step);
              && k < |u.loops| && k < |s.loops| && u.loops[k].Todo() == s.loops[k].Todo() + [C.ShutdownTask(id)]
              && step.from !in u.flight
  {
    hide Good, Distinct, LoopShape, PollerShape, MapShape, Next, FlightShape, Owned, FreshFd, Reportable,
         InTime, Placeable;
    StepSafe(s, step);
    StepFlight(s, step);
    if step.Proceed? {
      var id := s.flight[step.from].id;
      LoopExists(s, id);
      if s.flight[step.from].StoreCall? {
        StoredLog(s, step, id);
      } else {
        PushTodo(s, step, s.recs[id].loop);
      }
    }
  }
}
