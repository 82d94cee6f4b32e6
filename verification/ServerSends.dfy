/** What the steps of the server queue: send functors come from other threads' calls and from nowhere else. */
module ServerSends {
  import opened Common
  import opened Pollers
  import opened Servers
  import opened ServerInvariants
  import opened ServerSafety
  import Names
  import L = EventLoops
  import C = Connections

  ghost predicate NoSends(q: seq<C.Task>) {
    forall t | t in q :: !t.SendTask?
  }

  /** Nothing was executed, what was queued are no send functors, and a call of `quit` is not forgotten. */
  ghost predicate Quiet(l: Loop, m: Loop) {
    && m.executed == l.executed && l.queued <= m.queued && NoSends(m.queued[|l.queued|..])
    && (l.quit ==> m.quit)
  }

  ghost predicate AllQuiet(s: Server, u: Server) {
    |u.loops| == |s.loops| && forall j | 0 <= j < |s.loops| :: Quiet(s.loops[j], u.loops[j])
  }

  lemma QuietTrans(s: Server, t: Server, u: Server)
    requires AllQuiet(s, t) && AllQuiet(t, u)
    ensures AllQuiet(s, u)
  {
    forall j | 0 <= j < |s.loops| ensures Quiet(s.loops[j], u.loops[j]) {
      var a, b, c := s.loops[j].queued, t.loops[j].queued, u.loops[j].queued;
      assert Quiet(s.loops[j], t.loops[j]) && Quiet(t.loops[j], u.loops[j]);
      assert c[|a|..] == b[|a|..] + c[|b|..];
    }
  }

  lemma SettleQuiet(s: Server, id: nat, w: C.World<nat>)
    requires Shape(s) && id < |s.recs| && CanPost(s.loops[s.recs[id].loop]) && NoSends(w.q)
    ensures AllQuiet(s, Settle(s, id, w))
  {
    hide PollerShape, MapShape, L.Sound, Posts;
    var k := s.recs[id].loop;
    assert LoopShape(s.loops[k], s.active[k], |s.recs|);
    PostsQueue(s.loops[k], w.q);
    assert (s.loops[k].queued + w.q)[|s.loops[k].queued|..] == w.q;
  }

  lemma PostQuiet(s: Server, k: nat, t: C.Task, ownThread: bool)
    requires k < |s.loops| && !t.SendTask? && (ownThread ==> CanPost(s.loops[k]))
    ensures AllQuiet(s, Post(s, k, t, ownThread))
  {
    var l, m := s.loops[k], Post(s, k, t, ownThread).loops[k];
    assert m.queued == l.queued + [t] && m.queued[|l.queued|..] == [t];
  }

  lemma RemovalQuiet(s: Server, id: nat)
    requires HasLoop(s, id) && (s.recs[id].loop == 0 ==> CanPost(s.loops[0]))
    ensures AllQuiet(s, RemoveInLoop(s, id)) && AllQuiet(s, RemoveConnection(s, id))
  {
    hide L.QueueBy, Names.ConnName, NoSends, Quiet;
    PostQuiet(s.(connections := s.connections - {Key(s, id)}), s.recs[id].loop, C.DestroyTask(id), s.recs[id].loop == 0);
    if s.recs[id].loop != 0 {
      PostQuiet(s, 0, C.RemoveTask(id), false);
    }
  }

  lemma OwnWork(w: C.World<nat>, v: C.World<nat>)
    requires C.Follows(w, v) && w.q == []
    ensures NoSends(v.q)
  {
    assert v.q[|w.q|..] == v.q;
  }

  lemma WorkNoSends(q: seq<C.Task>, id: nat)
    requires C.WorkOf(q, id)
    ensures NoSends(q)
  {
  }

  lemma DispatchedQuiet(s: Server, id: nat, e: C.Report)
    requires Inv(s) && id < |s.recs| && C.SingleClose(e) && CanPost(s.loops[s.recs[id].loop])
    requires s.recs[id].c.state == C.Connected || s.recs[id].c.state == C.Disconnecting
    ensures AllQuiet(s, Dispatched(s, id, e))
  {
    hide Good, Distinct, LoopShape, PollerShape, MapShape, L.Sound, Posts, L.QueueBy, Owned, C.HandleEvent,
         C.Follows, C.Live, Quiet, NoSends;
    UpOwned(s, id);
    var h := Here(s, id);
    C.HandleEventKeeps(h, e);
    OwnWork(h, C.HandleEvent(h, e));
    var t := Settle(s, id, C.HandleEvent(h, e));
    SettleQuiet(s, id, C.HandleEvent(h, e));
    RemovalQuiet(t, id);
    if Dispatched(s, id, e) != t {
      QuietTrans(s, t, RemoveConnection(t, id));
    }
  }

  lemma NewConnectionQuiet(s: Server, e: Occurrence)
    requires Inv(s) && e.Accept? && |s.recs| + 1 < Names.INT_MAX && FreshFd(s, e.fd) && CanPost(s.loops[0])
    ensures AllQuiet(s, NewConnection(s, e))
  {
    hide Good, Distinct, LoopShape, PollerShape, MapShape, L.Sound, Posts, L.QueueBy, Owned, C.Establish,
         FreshFd, NoSends, Newborn, Quiet;
    EnteredShape(s, e);
    EnteredNewborn(s, e);
    FreshUnused(s, e.fd);
    var t, id := Entered(s, e), |s.recs|;
    if t.recs[id].loop == 0 {
      EstablishWorld(t, id, e.ops);
      WorkNoSends(C.Establish(Here(t, id), e.ops).q, id);
      SettleQuiet(t, id, C.Establish(Here(t, id), e.ops));
    } else {
      PostQuiet(t, t.recs[id].loop, C.EstablishTask(id), false);
    }
    assert t.loops == s.loops;
  }

  lemma EstablishedQuiet(s: Server, u: Server, id: nat, ops: seq<C.AppOp>)
    requires Inv(s) && Owned(s, id) && id < |s.recs| && s.recs[id].c.state == C.Connecting
    requires Shape(u) && u.recs == s.recs && u.pollers == s.pollers && CanPost(u.loops[s.recs[id].loop])
    ensures AllQuiet(u, Settle(u, id, C.Establish(Here(u, id), ops)))
  {
    hide Placed, Reported, C.Sane, LoopShape, PollerShape, MapShape, Owned, NoSends, Posts, Absent, C.Establish,
         C.Opened, C.Live, C.Follows, L.Sound, Quiet;
    assert Good(s, id);
    FdFree(s, id);
    var h := Here(u, id);
    C.EstablishKeeps(h, ops);
    OwnWork(C.Opened(h), C.Establish(h, ops));
    SettleQuiet(u, id, C.Establish(h, ops));
  }

  lemma PoppedCanPost(s: Server, k: nat)
    requires k < |s.loops| && CanPost(s.loops[k]) && L.Enabled(s.loops[k], L.RunNext)
    ensures CanPost(Popped(s, k).loops[k])
  {
  }

  lemma FitReady(s: Server, id: nat)
    requires Inv(s) && id < |s.recs| && FdMine(s.pollers[s.recs[id].loop], id, s.recs[id].c.ch.fd)
    ensures C.Ready(Here(s, id))
  {
    hide Placed, Reported, C.Sane, LoopShape, PollerShape, MapShape, Owned;
    assert Good(s, id);
  }

  lemma NothingQueued()
    ensures NoSends([])
  {
  }

  lemma SelfQuiet(s: Server)
    ensures AllQuiet(s, s)
  {
  }

  lemma PerformedQuiet(s: Server, k: nat, ops: seq<C.AppOp>, ans: Answer)
    requires Inv(s) && k < |s.loops| && s.loops[k].phase == L.Running && s.loops[k].rest != []
    requires L.Enabled(s.loops[k], L.RunNext) && RightLoop(s, k, s.loops[k].rest[0]) && CanPost(s.loops[k])
    ensures AllQuiet(Popped(s, k), Performed(Popped(s, k), s.loops[k].rest[0], ops, ans))
  {
    hide Good, Distinct, LoopShape, PollerShape, MapShape, L.Sound, Posts, L.QueueBy, Owned, L.Next, Quiet, NoSends;
    hide C.Establish, C.Destroy, C.ShutdownInLoop, C.SendInLoop, C.Live, C.Follows, About, Hits;
    var t, u := s.loops[k].rest[0], Popped(s, k);
    PopShape(s, k);
    HeadMine(s, k);
    HeadPlaced(s, k, t, Mine(u, k, t.id));
    var h := Here(s, t.id);
    assert Here(u, t.id) == h;
    assert CanPost(u.loops[k]) by { PoppedCanPost(s, k); }
    match t {
      case EstablishTask(id) => EstablishedQuiet(s, u, id, ops);
      case RemoveTask(id) => RemovalQuiet(u, id);
      case DestroyTask(id) =>
        FdFree(s, id);
        assert C.Ready(h) by { FitReady(s, id); }
        C.DestroyUnregisters(h, ops);
        NothingQueued();
        SettleQuiet(u, id, C.Destroy(h, ops));
      case ShutdownTask(id) =>
        LiveHere(s, id);
        C.ShutdownInLoopKeeps(h);
        OwnWork(h, C.ShutdownInLoop(h));
        SettleQuiet(u, id, C.ShutdownInLoop(h));
      case SendTask(id, from, data) =>
        LiveHere(s, id);
        C.SendInLoopKeeps(h, from, data, ans);
        OwnWork(h, C.SendInLoop(h, from, data, ans));
        SettleQuiet(u, id, C.SendInLoop(h, from, data, ans));
      case _ => SelfQuiet(u);
    }
  }

  lemma EventQuiet(s: Server, k: nat)
    requires Inv(s) && Enabled(s, NextEvent(k)) && Placeable(s, NextEvent(k))
    ensures AllQuiet(s, Next(s, NextEvent(k)))
  {
    hide Good, Distinct, LoopShape, PollerShape, MapShape, L.Sound, Owned, NewConnection, Dispatched, Names.ConnName;
    TakenKeeps(s, k);
    match s.active[k][0] {
      case Wake =>
      case Accept(_, _, _, _, _) =>
        FreshStill(s, k, s.active[k][0].fd);
        NewConnectionQuiet(Taken(s, k), s.active[k][0]);
      case Io(id, e) => DispatchedQuiet(Taken(s, k), id, e);
    }
  }

  lemma AppCallQuiet(s: Server, id: nat, op: C.AppOp)
    requires Inv(s) && id < |s.recs| && CanPost(s.loops[s.recs[id].loop])
    ensures AllQuiet(s, Settle(s, id, C.AppCall(Here(s, id), op)))
  {
    hide Good, Distinct, LoopShape, PollerShape, MapShape, L.Sound, Owned, Posts, C.SendInLoop, C.Live,
         C.Follows, Quiet;
    var h := Here(s, id);
    if s.recs[id].c.state == C.Connected {
      UpOwned(s, id);
      C.AppCallKeeps(h, op);
      OwnWork(h, C.AppCall(h, op));
    }
    SettleQuiet(s, id, C.AppCall(h, op));
  }

  ghost predicate PushesSend(s: Server, step: Step) {
    step.Proceed? && step.from in s.flight && s.flight[step.from].SendCall?
  }

  /** Steps that only move a loop through its phases or begin or end a call or a hold. */
  lemma BookkeepingQuiet(s: Server, step: Step)
    requires Inv(s) && Enabled(s, step) && Placeable(s, step)
    requires !step.NextEvent? && !step.RunFunctor? && !step.AppCall? && !step.Proceed?
    ensures AllQuiet(s, Next(s, step))
  {
    hide Good, Distinct, LoopShape, PollerShape, MapShape, L.Sound, Owned, FreshFd, Reportable, Performed, Dispatched,
         NewConnection, Posts, L.QueueBy, C.AppCall, Placeable;
  }

  /** A step executes the functor at the head of one batch, or none, and queues no send functor, ... */
  lemma StepQuiet(s: Server, step: Step)
    requires Inv(s) && Enabled(s, step) && Placeable(s, step) && !PushesSend(s, step)
    ensures step.RunFunctor? ==> L.Enabled(s.loops[step.k], L.RunNext)
    ensures AllQuiet(if step.RunFunctor? then Popped(s, step.k) else s, Next(s, step))
  {
    hide Good, Distinct, LoopShape, PollerShape, MapShape, L.Sound, Owned, FreshFd, Reportable, Posts,
         C.AppCall, Performed, L.QueueBy;
    hide Dispatched, NewConnection, InMap, L.Next, L.QuitBy, Quiet;
    match step {
      case NextEvent(k) => EventQuiet(s, k);
      case RunFunctor(k, ops, ans) =>
        RunFunctorKeeps(s, k, ops, ans);
        PerformedQuiet(s, k, ops, ans);
      case AppCall(id, op) => AppCallQuiet(s, id, op);
      case Proceed(from) =>
        LoopExists(s, s.flight[from].id);
        SelfQuiet(s);
        if s.flight[from].ShutdownCall? {
          var id := s.flight[from].id;
          PostQuiet(s.(flight := s.flight - {from}), s.recs[id].loop, C.ShutdownTask(id), false);
        }
      case _ => BookkeepingQuiet(s, step);
    }
  }

  /** ... except the step of another thread that pushes one. */
  lemma StepPushes(s: Server, step: Step)
    requires Inv(s) && Enabled(s, step) && PushesSend(s, step)
    ensures var u, call := Next(s, step), s.flight[step.from]; var k := s.recs[call.id].loop;
            && |u.loops| == |s.loops| && k < |s.loops|
            && (forall j | 0 <= j < |s.loops| :: u.loops[j].executed == s.loops[j].executed && u.loops[j].quit == s.loops[j].quit)
            && (forall j | 0 <= j < |s.loops| && j != k :: u.loops[j] == s.loops[j])
            && u.loops[k].queued == s.loops[k].queued + [C.SendTask(call.id, step.from, call.data)]
  {
    hide Good, Distinct, LoopShape, PollerShape, MapShape, L.Sound, Owned, InMap;
  }
}
