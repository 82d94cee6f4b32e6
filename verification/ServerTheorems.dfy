/** What holds in every state the server can reach, over all interleavings. */
module ServerTheorems {
  import opened Common
  import opened Pollers
  import opened ThreadPools
  import opened Servers
  import opened ServerInvariants
  import opened ServerSafety
  import Names
  import L = EventLoops
  import C = Connections

  // ------------------------------------------------------------------- evolution of a record

  /** What one step may do to a connection. */
  ghost predicate Later(c: C.Conn<nat>, d: C.Conn<nat>) {
    && d.ch.fd == c.ch.fd && d.form == c.form && c.log <= d.log && c.wire <= d.wire
    && (c.state != C.Connecting ==> d.state != C.Connecting)
    && (c.state == C.Disconnecting ==> d.state == C.Disconnecting || d.state == C.Disconnected)
    && (c.state == C.Disconnected ==>
          && d.state == C.Disconnected && d.ch.index != Added && d.ch.events == c.ch.events
          && d.wire == c.wire && d.out == c.out && d.log == c.log && d.closes == c.closes && d.downs == c.downs)
  }

  lemma LaterTrans(c: C.Conn<nat>, d: C.Conn<nat>, e: C.Conn<nat>)
    requires Later(c, d) && Later(d, e)
    ensures Later(c, e)
  {
  }

  lemma FollowsLater(w: C.World<nat>, v: C.World<nat>)
    requires C.Follows(w, v) && C.Live(v) && w.c.state != C.Connecting
    ensures Later(w.c, v.c) && v.c.ch.index != New
  {
    hide C.Sane;
  }

  lemma DispatchLater(s: Server, id: nat, e: C.Report)
    requires Inv(s) && id < |s.recs| && C.SingleClose(e) && CanPost(s.loops[s.recs[id].loop])
    requires s.recs[id].c.state == C.Connected || s.recs[id].c.state == C.Disconnecting
    ensures var u := Dispatched(s, id, e);
            && u.recs == s.recs[id := Rec(s.recs[id].loop, C.HandleEvent(Here(s, id), e).c)]
            && Later(s.recs[id].c, u.recs[id].c) && u.recs[id].c.ch.index != New
  {
    hide C.HandleEvent, C.Follows, C.Live, Posts, L.QueueBy, L.Sound, Good, LoopShape, PollerShape, MapShape, Owned;
    UpOwned(s, id);
    C.HandleEventKeeps(Here(s, id), e);
    FollowsLater(Here(s, id), C.HandleEvent(Here(s, id), e));
  }

  lemma EstablishLater(s: Server, id: nat, ops: seq<C.AppOp>)
    requires Inv(s) && id < |s.recs| && Owned(s, id) && s.recs[id].c.state == C.Connecting
    ensures var w := C.Establish(Here(s, id), ops);
            Later(s.recs[id].c, w.c) && w.c.ch.index != New
  {
    hide C.Establish, C.Opened, C.Live, About, Hits, L.Sound, LoopShape, PollerShape, MapShape, Placed,
         Reported, Owned, Absent, FdMine, Registered;
    assert Good(s, id);
    FdFree(s, id);
    C.EstablishKeeps(Here(s, id), ops);
  }

  lemma LaterSelf(s: Server, id: nat)
    requires Inv(s) && id < |s.recs|
    ensures Later(s.recs[id].c, s.recs[id].c)
  {
    hide C.Sane, About, Hits, L.Sound, LoopShape, PollerShape, MapShape, Placed, Reported, Owned;
    assert Good(s, id);
  }

  lemma DestroyLater(s: Server, id: nat, ops: seq<C.AppOp>)
    requires Inv(s) && id < |s.recs| && Owned(s, id) && s.recs[id].c.state == C.Disconnected && s.recs[id].c.ch.index == Del
    ensures Later(s.recs[id].c, C.Destroy(Here(s, id), ops).c)
  {
    hide C.Sane, About, Hits, L.Sound, LoopShape, PollerShape, MapShape, Placed, Reported, Owned;
    assert Good(s, id);
  }

  /** The record a functor leaves behind. */
  lemma FunctorLater(s: Server, k: nat, ops: seq<C.AppOp>, ans: Answer)
    requires Inv(s) && k < |s.loops| && s.loops[k].phase == L.Running && s.loops[k].rest != []
    requires L.Enabled(s.loops[k], L.RunNext) && RightLoop(s, k, s.loops[k].rest[0]) && CanPost(s.loops[k])
    ensures var t := s.loops[k].rest[0]; var u := Performed(Popped(s, k), t, ops, ans);
            && |u.recs| == |s.recs| && (forall id | 0 <= id < |s.recs| && id != t.id :: u.recs[id] == s.recs[id])
            && Later(s.recs[t.id].c, u.recs[t.id].c)
            && (u.recs[t.id].c.ch.index == New && s.recs[t.id].c.ch.index != New ==> t.DestroyTask?)
  {
    hide C.Establish, C.Destroy, C.SendInLoop, C.ShutdownInLoop, C.Live, C.Follows, About, Hits, L.Sound,
         LoopShape, PollerShape, MapShape, Placed, Reported, Owned, Fit, Posts, L.QueueBy;
    var t := s.loops[k].rest[0];
    HeadMine(s, k);
    HeadPlaced(s, k, t, Mine(Popped(s, k), k, t.id));
    var h := Here(s, t.id);
    assert Here(Popped(s, k), t.id) == h;
    match t {
      case EstablishTask(id) => EstablishLater(s, id, ops);
      case DestroyTask(id) =>
        FdFree(s, id);
        DestroyLater(s, id, ops);
      case ShutdownTask(id) =>
        LiveHere(s, id);
        C.ShutdownInLoopKeeps(h);
        FollowsLater(h, C.ShutdownInLoop(h));
      case SendTask(id, from, data) =>
        LiveHere(s, id);
        C.SendInLoopKeeps(h, from, data, ans);
        FollowsLater(h, C.SendInLoop(h, from, data, ans));
      case _ => LaterSelf(s, t.id);
    }
  }

  lemma AppCallLater(s: Server, id: nat, op: C.AppOp)
    requires Inv(s) && id < |s.recs|
    ensures var w := C.AppCall(Here(s, id), op);
            Later(s.recs[id].c, w.c) && (s.recs[id].c.ch.index != New ==> w.c.ch.index != New)
  {
    hide C.SendInLoop, C.Live, C.Follows, About, Hits, L.Sound, LoopShape, PollerShape, MapShape, Placed,
         Reported, Owned, Fit;
    if s.recs[id].c.state == C.Connected {
      UpOwned(s, id);
      C.AppCallKeeps(Here(s, id), op);
      FollowsLater(Here(s, id), C.AppCall(Here(s, id), op));
    } else {
      LaterSelf(s, id);
    }
  }

  lemma AcceptRecords(s: Server, e: Occurrence, id: nat)
    requires Inv(s) && e.Accept? && CanPost(s.loops[0]) && id < |s.recs|
    ensures id < |NewConnection(s, e).recs| && NewConnection(s, e).recs[id] == s.recs[id]
  {
    hide Good, LoopShape, PollerShape, MapShape, L.Sound, Posts, L.QueueBy, Owned, C.Establish;
  }

  lemma EventRecord(s: Server, k: nat, id: nat)
    requires Inv(s) && Enabled(s, NextEvent(k)) && Placeable(s, NextEvent(k)) && id < |s.recs|
    ensures var u := Next(s, NextEvent(k));
            && id < |u.recs| && u.recs[id].loop == s.recs[id].loop && Later(s.recs[id].c, u.recs[id].c)
            && (s.recs[id].c.ch.index != New ==> u.recs[id].c.ch.index != New)
  {
    hide Performed, Dispatched, NewConnection, Later, About, Hits, L.Sound, LoopShape, PollerShape, MapShape,
         Good, Owned, FreshFd, C.HandleEvent, L.Next, Names.ConnName;
    TakenKeeps(s, k);
    LaterSelf(s, id);
    match s.active[k][0] {
      case Wake =>
      case Accept(_, _, _, _, _) => AcceptRecords(Taken(s, k), s.active[k][0], id);
      case Io(other, e) => DispatchLater(Taken(s, k), other, e);
    }
  }

  lemma RunFunctorLoop(s: Server, k: nat, ops: seq<C.AppOp>, ans: Answer, id: nat)
    requires Shape(s) && k < |s.loops| && L.Enabled(s.loops[k], L.RunNext) && id < |s.recs|
    requires RightLoop(s, k, s.loops[k].rest[0]) && CanPost(s.loops[k])
    ensures var u := Performed(Popped(s, k), s.loops[k].rest[0], ops, ans);
            |u.recs| == |s.recs| && u.recs[id].loop == s.recs[id].loop
  {
    hide L.Sound, LoopShape, PollerShape, MapShape, C.Establish, C.Destroy, C.SendInLoop, C.ShutdownInLoop,
         Posts, L.QueueBy;
  }

  lemma FunctorRecord(s: Server, k: nat, ops: seq<C.AppOp>, ans: Answer, id: nat)
    requires Inv(s) && k < |s.loops| && s.loops[k].phase == L.Running && s.loops[k].rest != [] && id < |s.recs|
    requires RightLoop(s, k, s.loops[k].rest[0]) && CanPost(s.loops[k])
    ensures var u := Performed(Popped(s, k), s.loops[k].rest[0], ops, ans);
            && id < |u.recs| && u.recs[id].loop == s.recs[id].loop && Later(s.recs[id].c, u.recs[id].c)
            && (s.recs[id].c.ch.index != New && u.recs[id].c.ch.index == New ==>
                  k == s.recs[id].loop && s.loops[k].rest[0] == C.DestroyTask(id))
  {
    hide Performed, Later, About, Hits, L.Sound, PollerShape, MapShape, Good, Owned, L.Next;
    assert LoopShape(s.loops[k], s.active[k], |s.recs|);
    LaterSelf(s, id);
    RunFunctorKeeps(s, k, ops, ans);
    FunctorLater(s, k, ops, ans);
    RunFunctorLoop(s, k, ops, ans, id);
  }

  /** The invariant of the server together with that of the calls under way. */
  ghost predicate Safe(s: Server) {
    Inv(s) && FlightShape(s)
  }

  lemma LeavingLater(s: Server, id: nat)
    requires Inv(s) && id < |s.recs| && s.recs[id].c.state == C.Connected
    ensures Later(s.recs[id].c, s.recs[id].c.(state := C.Disconnecting))
  {
    hide Inv;
  }

  lemma ProceedRecord(s: Server, from: nat, id: nat)
    requires Safe(s) && Enabled(s, Proceed(from)) && InTime(s, Proceed(from)) && id < |s.recs|
    ensures var u := Next(s, Proceed(from));
            && |u.recs| == |s.recs| && u.recs[id].loop == s.recs[id].loop
            && Later(s.recs[id].c, u.recs[id].c) && u.recs[id].c.ch == s.recs[id].c.ch
  {
    hide About, Hits, L.Sound, LoopShape, PollerShape, MapShape, Good, Owned, L.QueueBy, Later;
    LaterSelf(s, id);
    var other := s.flight[from].id;
    if s.flight[from].StoreCall? {
      if s.recs[other].c.state == C.Connected {
        LeavingLater(s, other);
      } else {
        StoredAgain(s, other);
      }
    }
  }

  /** One step of the server, seen from connection `id`. */
  lemma RecordStep(s: Server, step: Step, id: nat)
    requires Safe(s) && Enabled(s, step) && InTime(s, step) && id < |s.recs|
    ensures Placeable(s, step) && id < |Next(s, step).recs|
    ensures var c, d := s.recs[id].c, Next(s, step).recs[id].c;
            && Next(s, step).recs[id].loop == s.recs[id].loop && Later(c, d)
            && (c.ch.index != New && d.ch.index == New ==>
                  && step.RunFunctor? && step.k == s.recs[id].loop && s.loops[step.k].rest[0] == C.DestroyTask(id))
  {
    hide Performed, Dispatched, NewConnection, C.AppCall, Later, About, Hits, L.Sound, LoopShape, PollerShape,
         MapShape, Good, Owned, Posts, L.QueueBy, FreshFd, Reportable, L.Next;
    StepKeeps(s, step);
    LaterSelf(s, id);
    match step {
      case NextEvent(k) => EventRecord(s, k, id);
      case RunFunctor(k, ops, ans) =>
        RunFunctorKeeps(s, k, ops, ans);
        FunctorRecord(s, k, ops, ans, id);
      case AppCall(other, op) => AppCallLater(s, other, op);
      case Proceed(from) => ProceedRecord(s, from, id);
      case _ =>
    }
  }

  // --------------------------------------------------------------------- calls under way

  lemma DispatchedFlight(s: Server, id: nat, e: C.Report)
    requires HasLoop(s, id) && CanPost(s.loops[s.recs[id].loop])
    ensures var u := Dispatched(s, id, e);
            u.flight == s.flight && u.held == s.held && u.active == s.active
  {
    hide C.HandleEvent, Posts, L.QueueBy;
  }

  lemma NewConnectionFlight(s: Server, e: Occurrence)
    requires e.Accept? && 0 < |s.loops| == |s.pollers| && NextInRange(s) && CanPost(s.loops[0])
    ensures var u := NewConnection(s, e);
            u.flight == s.flight && u.held == s.held && u.active == s.active
  {
    hide C.Establish, Posts, L.QueueBy, Names.ConnName;
  }

  lemma PerformedFlight(s: Server, t: C.Task, ops: seq<C.AppOp>, ans: Answer)
    requires HasLoop(s, t.id) && (t.RemoveTask? ==> CanPost(s.loops[0]))
    requires !t.RemoveTask? ==> CanPost(s.loops[s.recs[t.id].loop])
    ensures var u := Performed(s, t, ops, ans);
            u.flight == s.flight && u.held == s.held && u.active == s.active
  {
    hide C.Establish, C.Destroy, C.SendInLoop, C.ShutdownInLoop, Posts, L.QueueBy;
  }

  lemma EventFlight(s: Server, k: nat)
    requires Inv(s) && Enabled(s, NextEvent(k)) && Placeable(s, NextEvent(k))
    ensures var u := Next(s, NextEvent(k));
            u.flight == s.flight && u.held == s.held && u.active == s.active[k := s.active[k][1..]]
  {
    hide Good, Distinct, LoopShape, PollerShape, MapShape, L.Sound, Owned, FreshFd, Dispatched, NewConnection, L.Next;
    TakenKeeps(s, k);
    match s.active[k][0] {
      case Wake =>
      case Accept(_, _, _, _, _) => NewConnectionFlight(Taken(s, k), s.active[k][0]);
      case Io(id, e) => DispatchedFlight(Taken(s, k), id, e);
    }
  }

  lemma FunctorFlight(s: Server, k: nat, ops: seq<C.AppOp>, ans: Answer)
    requires Inv(s) && Enabled(s, RunFunctor(k, ops, ans)) && Placeable(s, RunFunctor(k, ops, ans))
    ensures var u := Next(s, RunFunctor(k, ops, ans));
            u.flight == s.flight && u.held == s.held && u.active == s.active
  {
    hide Good, Distinct, LoopShape, PollerShape, MapShape, L.Sound, Owned, Performed;
    RunFunctorKeeps(s, k, ops, ans);
    PopShape(s, k);
    PerformedFlight(Popped(s, k), s.loops[k].rest[0], ops, ans);
  }

  /** The calls under way after a step: the one that begins, goes on or ends is the step's own. */
  ghost function FlightAfter(s: Server, step: Step): map<nat, Call>
    requires Shape(s) && Enabled(s, step)
  {
    match step
    case RemoteSend(from, id, data) =>
      if s.recs[id].c.state == C.Connected then s.flight[from := SendCall(id, data)] else s.flight
    case RemoteShutdown(from, id) =>
      if s.recs[id].c.state == C.Connected then s.flight[from := StoreCall(id)] else s.flight
    case Proceed(from) =>
      if s.flight[from].StoreCall? then s.flight[from := ShutdownCall(s.flight[from].id)] else s.flight - {from}
    case _ => s.flight
  }

  lemma StepFlight(s: Server, step: Step)
    requires Inv(s) && Enabled(s, step) && Placeable(s, step)
    ensures var u := Next(s, step);
            u.flight == FlightAfter(s, step) && (forall id: nat | id in s.held && id !in u.held :: step == Release(id))
  {
    hide Good, Distinct, LoopShape, PollerShape, MapShape, L.Sound, Posts, Owned, C.AppCall, FreshFd, Reportable,
         Dispatched, NewConnection, Performed, L.QueueBy, L.QuitBy, L.Next, Placeable;
    match step {
      case NextEvent(k) => EventFlight(s, k);
      case RunFunctor(k, ops, ans) => FunctorFlight(s, k, ops, ans);
      case _ =>
    }
  }

  lemma StoreLeaves(s: Server, from: nat)
    requires Inv(s) && Enabled(s, Proceed(from))
    ensures s.flight[from].StoreCall? ==> Next(s, Proceed(from)).recs[s.flight[from].id].c.state == C.Disconnecting
  {
    hide Good, Distinct, LoopShape, PollerShape, MapShape;
  }

  lemma FlightStays(s: Server, step: Step, from: nat)
    requires Safe(s) && Enabled(s, step) && InTime(s, step) && from in FlightAfter(s, step)
    ensures Placeable(s, step)
    ensures var u, call := Next(s, step), FlightAfter(s, step)[from];
            && from > 0 && call.id < |u.recs| && call.id in u.held && u.recs[call.id].c.state != C.Connecting
            && (call.ShutdownCall? ==> u.recs[call.id].c.state != C.Connected)
  {
    hide Good, Distinct, LoopShape, PollerShape, MapShape, Owned, Next, FreshFd, Reportable, InMap;
    RecordStep(s, step, FlightAfter(s, step)[from].id);
    StepFlight(s, step);
    if step == Proceed(from) {
      StoreLeaves(s, from);
    }
  }

  lemma StepSafe(s: Server, step: Step)
    requires Safe(s) && Enabled(s, step) && InTime(s, step)
    ensures Placeable(s, step) && Safe(Next(s, step)) && OwnersShrink(s, Next(s, step))
  {
    hide Good, Distinct, Shape, Owned, Next, Enabled, InTime, FlightAfter, Placeable;
    StepKeeps(s, step);
    StepFlight(s, step);
    forall from: nat | from in FlightAfter(s, step)
      ensures var u, call := Next(s, step), FlightAfter(s, step)[from];
              && from > 0 && call.id < |u.recs| && call.id in u.held && u.recs[call.id].c.state != C.Connecting
              && (call.ShutdownCall? ==> u.recs[call.id].c.state != C.Connected)
    {
      FlightStays(s, step, from);
    }
  }

  // --------------------------------------------------------------------------- runs

  lemma StartSafe(form: Form, name: string, ipPort: string, subLoops: nat)
    requires |ipPort| <= 51
    ensures Safe(Start(form, name, ipPort, subLoops))
  {
  }

  /** A run: any threads take any enabled steps, and calls that have begun go on in time. */
  ghost predicate IsRun(s: Server, steps: seq<Step>)
    requires Safe(s)
    decreases |steps|
  {
    steps == [] || (Enabled(s, steps[0]) && InTime(s, steps[0])
                    && (StepSafe(s, steps[0]); IsRun(Next(s, steps[0]), steps[1..])))
  }

  ghost function After(s: Server, steps: seq<Step>): (u: Server)
    requires Safe(s) && IsRun(s, steps)
    ensures Safe(u)
    decreases |steps|
  {
    if steps == [] then s else
      StepSafe(s, steps[0]);
      After(Next(s, steps[0]), steps[1..])
  }

  ghost predicate Trace(form: Form, name: string, ipPort: string, subLoops: nat, steps: seq<Step>, u: Server)
    requires |ipPort| <= 51
  {
    StartSafe(form, name, ipPort, subLoops);
    IsRun(Start(form, name, ipPort, subLoops), steps) && After(Start(form, name, ipPort, subLoops), steps) == u
  }

  /** Some interleaving of some server, with any number of loops, leads to `u`. */
  ghost predicate Reachable(u: Server) {
    exists form, name, ipPort, subLoops: nat, steps ::
      |ipPort| <= 51 && Trace(form, name, ipPort, subLoops, steps, u)
  }

  lemma ReachableInv(u: Server)
    requires Reachable(u)
    ensures Safe(u) && Inv(u)
  {
    hide Inv, FlightShape;
    var form, name, ipPort, subLoops: nat, steps :|
      |ipPort| <= 51 && Trace(form, name, ipPort, subLoops, steps, u);
    StartSafe(form, name, ipPort, subLoops);
  }

  // ------------------------------------------------------------------ no dangling channel

  /** The owner that `id` has in the hand-over chain from the map to its destruction. */
  ghost predicate InChain(s: Server, id: nat)
    requires Shape(s) && id < |s.recs|
  {
    || InMap(s, id)
    || C.RemoveTask(id) in s.loops[0].Todo()
    || C.DestroyTask(id) in s.loops[s.recs[id].loop].Todo()
  }

  lemma ChainOwner(s: Server, id: nat)
    requires Shape(s) && id < |s.recs| && Good(s, id) && s.recs[id].c.ch.index != New
    ensures InChain(s, id)
  {
    hide About, Hits, C.Sane, L.Sound, Reported, Registered, Absent, LoopShape, PollerShape, MapShape, C.Up, C.Down;
    AboutMember(s.loops[s.recs[id].loop].Todo(), id, C.DestroyTask(id));
  }

  /** What descriptor `fd` in the poller of loop `k` stands for. */
  ghost predicate HeldLive(s: Server, k: nat, fd: int)
    requires Shape(s) && k < |s.pollers|
  {
    var p := s.pollers[k];
    && p.errors == 0 && fd in p.channels
    && var id := p.channels[fd];
       && id < |s.recs| && s.recs[id].loop == k && s.recs[id].c.ch.fd == fd
       && (fd in p.kernel ==> p.kernel[fd] == Entry(id, s.recs[id].c.ch.events))
       && Owned(s, id) && InChain(s, id)
  }

  lemma PollerHolds(s: Server, k: nat, fd: int)
    requires Inv(s) && k < |s.pollers| && (fd in s.pollers[k].channels || fd in s.pollers[k].kernel)
    ensures HeldLive(s, k, fd)
  {
    hide About, Hits, C.Sane, L.Sound, Reported, Owned, LoopShape, MapShape, Placed, InChain, Absent;
    var p := s.pollers[k];
    assert PollerShape(p, |s.recs|);
    var id := if fd in p.kernel then p.kernel[fd].key else p.channels[fd];
    FdUser(s, k, id, fd);
    assert Good(s, id);
    ChainOwner(s, id);
  }

  /** In every reachable state, whatever a poller or its kernel set points to is a connection of that loop,
      registered under its own descriptor, alive, and owned by the map or by the functor that will carry it to
      its destruction; no `epoll_ctl` call has ever failed. */
  lemma PollersHoldLiveConnections(u: Server, k: nat, fd: int)
    requires Reachable(u) && k < |u.loops| && k < |u.pollers|
    requires fd in u.pollers[k].channels || fd in u.pollers[k].kernel
    ensures Shape(u) && HeldLive(u, k, fd)
  {
    hide Good, Owned, InChain, Distinct, Reachable;
    ReachableInv(u);
    PollerHolds(u, k, fd);
  }

  // -------------------------------------------------------------------- safe dispatching

  /** While a loop dispatches, every channel still in its active list belongs to an established connection of
      that loop that is alive and registered in both the poller and the kernel, even when handlers already run
      have closed other connections, and even when the loop is the base loop itself. */
  lemma ActiveChannelsLive(u: Server, k: nat, i: nat)
    requires Reachable(u) && k < |u.loops| && |u.active| == |u.pollers| == |u.loops|
    requires i < |u.active[k]| && u.active[k][i].Io?
    ensures var id := u.active[k][i].id;
            && u.loops[k].phase == L.Dispatching && id < |u.recs| && u.recs[id].loop == k && Owned(u, id)
            && (u.recs[id].c.state == C.Connected || u.recs[id].c.state == C.Disconnecting)
            && var fd := u.recs[id].c.ch.fd;
               && fd in u.pollers[k].channels && u.pollers[k].channels[fd] == id
               && fd in u.pollers[k].kernel && u.pollers[k].kernel[fd].key == id
  {
    hide About, Hits, C.Sane, Owned, MapShape, PollerShape, L.Sound, Placed, Reachable;
    ReachableInv(u);
    var id := u.active[k][i].id;
    assert LoopShape(u.loops[k], u.active[k], |u.recs|);
    assert u.active[k][i] in u.active[k];
    HitsMember(u.active[k], id, i);
    assert Good(u, id);
    UpOwned(u, id);
  }

  lemma RegisteredIndex(s: Server, id: nat, k: nat, fd: int)
    requires Inv(s) && k < |s.pollers| && id < |s.recs| && fd in s.pollers[k].channels && s.pollers[k].channels[fd] == id
    ensures s.recs[id].c.ch.index != New && s.recs[id].loop == k && s.recs[id].c.ch.fd == fd
  {
    hide About, Hits, C.Sane, L.Sound, Reported, Placed, LoopShape, PollerShape, MapShape, Owned;
    assert Good(s, id);
    FdUser(s, k, id, fd);
  }

  lemma StillRegistered(s: Server, id: nat)
    requires Inv(s) && id < |s.recs| && s.recs[id].c.ch.index != New
    ensures s.recs[id].loop < |s.pollers|
    ensures var p, fd := s.pollers[s.recs[id].loop], s.recs[id].c.ch.fd;
            fd in p.channels && p.channels[fd] == id && Owned(s, id)
  {
    hide About, Hits, C.Sane, L.Sound, Reported, Placed, LoopShape, PollerShape, MapShape, Owned, Absent;
    assert Good(s, id);
    NeededOwned(s, id);
  }

  /** While a loop dispatches, whatever step any thread takes next, no channel leaves its poller's map and no
      registered connection of the loop loses its last owner. */
  lemma DispatchingRemovesNothing(s: Server, step: Step, k: nat, fd: int)
    requires Reachable(s) && Shape(s) && Enabled(s, step) && InTime(s, step) && k < |s.loops| && s.loops[k].phase == L.Dispatching
    requires fd in s.pollers[k].channels
    ensures Placeable(s, step)
    ensures var u, id := Next(s, step), s.pollers[k].channels[fd];
            && k < |u.pollers| && fd in u.pollers[k].channels && u.pollers[k].channels[fd] == id
            && Owned(s, id) && Owned(u, id)
  {
    hide Reachable, About, Hits, C.Sane, L.Sound, Good, LoopShape, PollerShape, MapShape, Owned, Performed,
         Dispatched, NewConnection, Posts, L.QueueBy, InChain;
    ReachableInv(s);
    PollerHolds(s, k, fd);
    var id := s.pollers[k].channels[fd];
    RegisteredIndex(s, id, k, fd);
    RecordStep(s, step, id);
    StepSafe(s, step);
    var u := Next(s, step);
    StillRegistered(u, id);
  }

  // ------------------------------------------------------------------ functors and lifetimes

  lemma {:induction false} AboutOrder(q: seq<C.Task>, id: nat, i: nat, j: nat)
    requires i < j < |q| && q[i].id == id && q[j].id == id
    ensures var f := About(q, id); f != [] && q[i] in f[..|f| - 1]
    decreases |q|
  {
    var f, g := About(q, id), About(q[1..], id);
    if i == 0 {
      AboutMember(q[1..], id, q[j]);
      assert q[j] == q[1..][j - 1];
      assert g != [] && f == [q[0]] + g;
      assert f[..|f| - 1][0] == q[0];
    } else {
      AboutOrder(q[1..], id, i - 1, j - 1);
      assert q[1..][i - 1] == q[i];
      if q[0].id == id {
        assert f == [q[0]] + g;
        assert f[..|f| - 1] == [q[0]] + g[..|g| - 1];
      } else {
        assert f == g;
      }
    }
  }

  lemma NotLast(s: Server, k: nat, t: C.Task)
    requires Inv(s) && k < |s.loops| && t in s.loops[k].Todo()
    requires Mine(s, k, t.id) != [] && t in Mine(s, k, t.id)[..|Mine(s, k, t.id)| - 1]
    ensures !t.DestroyTask?
  {
    hide About, Hits, C.Sane, L.Sound, Reported, Fit, PollerShape, MapShape, Owned;
    assert LoopShape(s.loops[k], s.active[k], |s.recs|);
    assert Good(s, t.id);
    var f := Mine(s, k, t.id);
    assert t in f[..|f| - 1] && t in f;
  }

  /** No functor of a connection, owning or bound to a raw pointer, is ever queued behind the functor that
      destroys it; so every functor that runs finds its object alive, and one bound to a raw pointer finds it
      still registered. */
  lemma FunctorsFindTheirObject(u: Server, k: nat)
    requires Reachable(u) && k < |u.loops|
    ensures Shape(u)
    ensures forall i, j | 0 <= i < j < |u.loops[k].Todo()| && u.loops[k].Todo()[i].DestroyTask? ::
              u.loops[k].Todo()[j].id != u.loops[k].Todo()[i].id
    ensures u.loops[k].phase == L.Running && u.loops[k].rest != [] ==>
              var t := u.loops[k].rest[0];
              && t.id < |u.recs| && Owned(u, t.id)
              && (!t.Owning() ==> u.recs[t.id].c.ch.index != New && u.recs[t.id].loop == k)
  {
    hide Reachable, About, Hits, C.Sane, L.Sound, Reported, Fit, PollerShape, MapShape, Owned;
    ReachableInv(u);
    var q := u.loops[k].Todo();
    forall i, j | 0 <= i < j < |q| && q[i].DestroyTask? ensures q[j].id != q[i].id {
      if q[j].id == q[i].id {
        AboutOrder(q, q[i].id, i, j);
        assert q[i] in q;
        NotLast(u, k, q[i]);
      }
    }
    if u.loops[k].phase == L.Running && u.loops[k].rest != [] {
      assert LoopShape(u.loops[k], u.active[k], |u.recs|);
      HeadMine(u, k);
      HeadPlaced(u, k, u.loops[k].rest[0], Mine(Popped(u, k), k, u.loops[k].rest[0].id));
    }
  }

  /** A connection without an owner has left its poller, concerns no functor and no event still to come, ... */
  lemma DeadIsForgotten(u: Server, id: nat)
    requires Reachable(u) && Shape(u) && id < |u.recs| && !Owned(u, id)
    ensures u.recs[id].c.state == C.Disconnected && u.recs[id].c.downs == 1 && u.recs[id].c.ch.index == New
    ensures forall k | 0 <= k < |u.loops| :: Mine(u, k, id) == [] && Hits(u.active[k], id) == 0 && Absent(u.pollers[k], id)
  {
    hide Reachable, About, Hits, C.Sane, L.Sound, LoopShape, PollerShape, MapShape, Owned;
    ReachableInv(u);
    assert Good(u, id);
    if u.recs[id].c.ch.index != New || u.recs[id].c.state != C.Disconnected {
      NeededOwned(u, id);
    }
    forall k | 0 <= k < |u.loops| ensures Absent(u.pollers[k], id) {
      if k == u.recs[id].loop {
        assert Registered(u.pollers[k], id, u.recs[id].c.ch);
      }
    }
  }

  /** ... and never gets an owner again. */
  lemma {:induction false} DeadStaysDead(s: Server, steps: seq<Step>, id: nat)
    requires Safe(s) && IsRun(s, steps) && id < |s.recs| && !Owned(s, id)
    ensures !Owned(After(s, steps), id)
    decreases |steps|
  {
    hide Good, Distinct, LoopShape, PollerShape, MapShape, Owned, Next;
    if steps != [] {
      StepSafe(s, steps[0]);
      DeadStaysDead(Next(s, steps[0]), steps[1..], id);
    }
  }

  /** Two living connections never share a descriptor, although descriptors of dead ones are reused. */
  lemma LiveDescriptorsDiffer(u: Server, a: nat, b: nat)
    requires Reachable(u) && a < |u.recs| && b < |u.recs| && a != b && Owned(u, a) && Owned(u, b)
    ensures u.recs[a].c.ch.fd != u.recs[b].c.ch.fd
  {
    hide Reachable, Good, Shape, Owned;
    ReachableInv(u);
  }

  // -------------------------------------------------------------------- each connection

  /** In every reachable state of the whole server, for every connection: output is conserved, and bytes wait in
      its buffer exactly when its channel and the kernel set of its own loop's poller ask for writability, besides
      which the kernel is asked for input and priority data and nothing else; and every half-close came after the
      last byte and left nothing behind, exactly unless a send functor got bytes written or buffered after one. */
  lemma ConnectionBooks(u: Server, id: nat)
    requires Reachable(u) && Shape(u) && id < |u.recs|
    ensures var c := u.recs[id].c;
            && (c.form == AsIntended ==> c.wire + c.out == C.Payload(c.log))
            && (c.wire + c.out == C.Payload(c.log) <==> c.lost == 0)
            && (c.state == C.Connected || c.state == C.Disconnecting ==>
                  var kernel := u.pollers[u.recs[id].loop].kernel;
                  && c.ch.fd in kernel && kernel[c.ch.fd].key == id
                  && (c.out != [] <==> c.ch.IsWriting())
                  && kernel[c.ch.fd].mask == if c.out == [] then {In, Pri} else {In, Pri, Out})
            && (C.Clean(c) <==> !c.spoilt)
  {
    hide Reachable, About, Hits, L.Sound, LoopShape, PollerShape, MapShape, Owned, Placed, Reported, Absent;
    ReachableInv(u);
    assert Good(u, id);
    C.GracefulIff(u.recs[id].c);
  }

  /** In every reachable state, as many successful write events as a connection has unsent bytes put everything on
      the wire, take EPOLLOUT out of its channel and of the kernel set, and half-close it if it is disconnecting. */
  lemma ServerDrains(u: Server, id: nat, answers: seq<Answer>)
    requires Reachable(u) && Shape(u) && id < |u.recs| && u.recs[id].c.out != [] && u.recs[id].c.state != C.Disconnected
    requires |answers| >= |u.recs[id].c.out| && forall a | a in answers :: a.Wrote? && a.n > 0
    ensures var c, v := u.recs[id].c, C.Drains(Here(u, id), answers);
            && v.c.out == [] && v.c.wire == c.wire + c.out
            && !v.c.ch.IsWriting() && v.c.ch.fd in v.p.kernel && Out !in v.p.kernel[v.c.ch.fd].mask
            && (v.c.state == C.Disconnecting ==> C.Fin(|v.c.wire|, true) in v.c.fins)
  {
    hide Reachable, About, Hits, L.Sound, LoopShape, PollerShape, MapShape, Owned, Placed, Reported, Absent, C.Sane,
         C.Drains, C.Live;
    ReachableInv(u);
    assert Good(u, id);
    UpOwned(u, id);
    C.DrainCompletes(Here(u, id), answers);
  }

  lemma WriteClosesNothing(w: C.World<nat>, ans: Answer)
    ensures C.HandleWrite(w, ans).c.closes == w.c.closes
  {
    hide SetEvents;
  }

  /** One write event of the server is one step of that drain. */
  lemma WriteEvent(s: Server, id: nat, e: C.Report)
    requires HasLoop(s, id) && CanPost(s.loops[s.recs[id].loop]) && e.revents == {Out}
    ensures var u, v := Dispatched(s, id, e), C.HandleWrite(Here(s, id), e.ans);
            HasLoop(u, id) && Here(u, id) == C.World(v.c, v.p, [])
  {
    hide C.HandleWrite, Posts;
    assert C.HandleEvent(Here(s, id), e) == C.HandleWrite(Here(s, id), e.ans);
    WriteClosesNothing(Here(s, id), e.ans);
  }

  /** In every reachable state, the high-water notifications a connection has given are as many as the upward
      crossings of its mark in the history of the buffered length. */
  lemma ServerHighWater(u: Server, id: nat)
    requires Reachable(u) && Shape(u) && id < |u.recs| && u.recs[id].c.hasMark
    ensures var c := u.recs[id].c;
            && c.marks == |set i | 0 <= i < |c.levels| && C.CrossesAt(c.levels, c.mark, i)|
            && c.levels != [] && c.levels[|c.levels| - 1] == |c.out|
  {
    hide Reachable, About, Hits, L.Sound, LoopShape, PollerShape, MapShape, Owned, Placed, Reported, Absent;
    ReachableInv(u);
    assert Good(u, id);
    C.CrossingsCount(u.recs[id].c.levels, u.recs[id].c.mark);
  }

  /** The state of a connection only moves forward, over any run: once disconnected it stays so, is never armed
      again and writes nothing more; the down callback and the close callback have each been called exactly
      once by then and not at all before. */
  lemma {:induction false} ConnectionEvolves(s: Server, steps: seq<Step>, id: nat)
    requires Safe(s) && IsRun(s, steps) && id < |s.recs|
    ensures id < |After(s, steps).recs|
    ensures var d := After(s, steps).recs[id].c;
            Later(s.recs[id].c, d) && d.closes == d.downs == if d.state == C.Disconnected then 1 else 0
    decreases |steps|
  {
    hide Later, Next, About, Hits, L.Sound, LoopShape, PollerShape, MapShape, Owned, Placed, Reported, Absent,
         C.Sane, Registered;
    if steps == [] {
      LaterSelf(s, id);
      assert Good(s, id);
    } else {
      StepSafe(s, steps[0]);
      RecordStep(s, steps[0], id);
      var t := Next(s, steps[0]);
      ConnectionEvolves(t, steps[1..], id);
      LaterTrans(s.recs[id].c, t.recs[id].c, After(t, steps[1..]).recs[id].c);
    }
  }

  // ------------------------------------------------------------------------ the map

  lemma MapEntry(s: Server, id: nat)
    requires Shape(s) && id < |s.recs| && Placed(s, id)
    ensures InMap(s, id) <==> s.recs[id].c.state != C.Disconnected || C.RemoveTask(id) in s.loops[0].Todo()
  {
    hide About, Hits, L.Sound, LoopShape, PollerShape, MapShape;
    AboutMember(s.loops[0].Todo(), id, C.RemoveTask(id));
    var base := Mine(s, 0, id);
    if base != [] {
      assert base == base[..|base| - 1] + [base[|base| - 1]];
      assert C.RemoveTask(id) in base ==> C.RemoveTask(id) in base[..|base| - 1] || C.RemoveTask(id) == base[|base| - 1];
    }
  }

  /** The map holds exactly the connections whose removal has not been executed, each under its own name; a new
      connection's name is not in it yet. */
  lemma MapSound(u: Server)
    requires Reachable(u)
    ensures Shape(u)
    ensures forall name | name in u.connections :: u.connections[name] < |u.recs| && name == Key(u, u.connections[name])
    ensures forall id | 0 <= id < |u.recs| ::
              InMap(u, id) <==> u.recs[id].c.state != C.Disconnected || C.RemoveTask(id) in u.loops[0].Todo()
    ensures Key(u, |u.recs|) !in u.connections
  {
    hide Reachable, Hits, C.Sane, L.Sound, LoopShape, PollerShape, Owned, Reported, Fit, Names.ConnName;
    ReachableInv(u);
    forall id | 0 <= id < |u.recs|
      ensures InMap(u, id) <==> u.recs[id].c.state != C.Disconnected || C.RemoveTask(id) in u.loops[0].Todo()
    {
      assert Good(u, id);
      MapEntry(u, id);
    }
    if Key(u, |u.recs|) in u.connections {
      KeyInjective(u, u.connections[Key(u, |u.recs|)], |u.recs|);
    }
  }

  /** Removing one connection erases no other. */
  lemma RemovalErasesOwn(u: Server, id: nat, other: nat)
    requires Reachable(u) && id < |u.recs| && other < |u.recs| && id != other
    ensures InMap(Erased(u, id), other) <==> InMap(u, other)
    ensures !InMap(Erased(u, id), id)
  {
    hide Reachable, Good, Owned, LoopShape, PollerShape, Names.ConnName;
    ReachableInv(u);
    if Key(u, other) == Key(u, id) {
      KeyInjective(u, id, other);
    }
  }

  /** The k-th connection lives on loop k mod n, for good. */
  lemma FairAssignment(u: Server, id: nat)
    requires Reachable(u) && id < |u.recs|
    ensures |u.loops| > 0 && u.recs[id].loop == LoopOf(|u.loops| - 1, id)
  {
    hide Reachable, Good, Owned;
    ReachableInv(u);
  }

  // ----------------------------------------------------------------------- the loops

  /** A loop of the running server that is blocked in poll with nothing readable on its eventfd has no functor
      waiting and was not told to quit; what it has executed is a prefix of what was queued on it. */
  lemma LoopsAreWoken(u: Server, k: nat)
    requires Reachable(u) && k < |u.loops|
    ensures u.loops[k].phase == L.Polling && u.loops[k].counter == 0 ==> u.loops[k].pending == [] && !u.loops[k].quit
    ensures u.loops[k].executed + u.loops[k].rest + u.loops[k].pending == u.loops[k].queued
  {
    hide Reachable, Good, Owned;
    ReachableInv(u);
    assert LoopShape(u.loops[k], u.active[k], |u.recs|);
  }
}
