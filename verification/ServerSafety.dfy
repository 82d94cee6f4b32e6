/** Every step of the server keeps its invariant, and what follows for every run. */
module ServerSafety {
  import opened Common
  import opened Pollers
  import opened Servers
  import opened ServerInvariants
  import Names
  import L = EventLoops
  import C = Connections

  // -------------------------------------------------------------- steps of one loop

  lemma LoopStepFacts(l: Loop, step: L.LoopStep<C.Task>, id: nat)
    requires L.Sound(l) && L.Enabled(l, step)
    requires step.Check? || step.PollReturns? || step.DrainWakeup? || step.SwapBatch? || step.EndBatch?
    ensures var m := L.Next(l, step);
            && L.Sound(m) && m.Todo() == l.Todo() && m.owes == l.owes && m.writers == l.writers
            && m.executed == l.executed && m.queued == l.queued
            && (LoopOwns(m, id) ==> LoopOwns(l, id))
  {
    L.NextKeepsSound(l, step);
    var m := L.Next(l, step);
    if step.SwapBatch? {
      assert l.rest == [] && [] + l.pending == l.pending + [];
    }
    if LoopOwns(m, id) {
      var t :| t in m.done + m.rest + m.pending && t.Owning() && t.id == id;
      assert t in l.done + l.rest + l.pending;
    }
  }

  lemma QuitFacts(l: Loop, id: nat)
    requires L.Sound(l)
    ensures var m := L.QuitBy(l, false);
            && L.Sound(m) && m.Todo() == l.Todo() && m.owes == l.owes && m.writers == l.writers && m.phase == l.phase
            && m.executed == l.executed && m.queued == l.queued
            && (LoopOwns(m, id) ==> LoopOwns(l, id))
  {
    L.NextKeepsSound(l, L.RemoteQuit);
    L.NextKeepsSound(L.Next(l, L.RemoteQuit), L.RemoteWrite);
  }

  /** A step that changes one loop's bookkeeping and drops events or owners at most. */
  lemma QuietStep(s: Server, k: nat, l: Loop, events: seq<Occurrence>)
    requires Inv(s) && k < |s.loops| && l.Todo() == s.loops[k].Todo() && LoopShape(l, events, |s.recs|)
    requires forall id: nat :: Hits(events, id) <= Hits(s.active[k], id)
    requires forall id: nat | LoopOwns(l, id) :: LoopOwns(s.loops[k], id)
    ensures Inv(s.(loops := s.loops[k := l], active := s.active[k := events]))
    ensures OwnersShrink(s, s.(loops := s.loops[k := l], active := s.active[k := events]))
  {
    hide About, Hits, L.Sound, Good, LoopShape, PollerShape, MapShape, LoopOwns;
    PhaseKeeps(s, k, l, events);
    var t := s.(loops := s.loops[k := l], active := s.active[k := events]);
    forall id: nat | Owned(t, id) ensures Owned(s, id) {
      if exists j :: 0 <= j < |t.loops| && LoopOwns(t.loops[j], id) {
        var j :| 0 <= j < |t.loops| && LoopOwns(t.loops[j], id);
        assert LoopOwns(s.loops[j], id);
      }
    }
  }

  lemma LoopStepKeeps(s: Server, k: nat, step: L.LoopStep<C.Task>)
    requires Inv(s) && k < |s.loops| && L.Enabled(s.loops[k], step)
    requires step.Check? || step.DrainWakeup? || step.SwapBatch? || step.EndBatch?
    requires step.SwapBatch? ==> s.active[k] == []
    ensures Inv(WithLoop(s, k, L.Next(s.loops[k], step)))
    ensures OwnersShrink(s, WithLoop(s, k, L.Next(s.loops[k], step)))
  {
    hide About, Hits, L.Sound, Good, PollerShape, MapShape, LoopOwns, Owned;
    var l := L.Next(s.loops[k], step);
    assert LoopShape(s.loops[k], s.active[k], |s.recs|);
    forall id: nat ensures LoopOwns(l, id) ==> LoopOwns(s.loops[k], id) {
      LoopStepFacts(s.loops[k], step, id);
    }
    LoopStepFacts(s.loops[k], step, 0);
    assert step.Check? ==> s.active[k] == [];
    QuietStep(s, k, l, s.active[k]);
    assert s.active[k := s.active[k]] == s.active;
  }

  lemma QuitKeeps(s: Server, k: nat)
    requires Inv(s) && k < |s.loops|
    ensures Inv(WithLoop(s, k, L.QuitBy(s.loops[k], false)))
    ensures OwnersShrink(s, WithLoop(s, k, L.QuitBy(s.loops[k], false)))
  {
    hide About, Hits, L.Sound, Good, PollerShape, MapShape, LoopOwns, Owned;
    var l := L.QuitBy(s.loops[k], false);
    assert LoopShape(s.loops[k], s.active[k], |s.recs|);
    forall id: nat ensures LoopOwns(l, id) ==> LoopOwns(s.loops[k], id) {
      QuitFacts(s.loops[k], id);
    }
    QuitFacts(s.loops[k], 0);
    QuietStep(s, k, l, s.active[k]);
    assert s.active[k := s.active[k]] == s.active;
  }

  // ------------------------------------------------------------------------ polling

  lemma ReportedUp(s: Server, k: nat, events: seq<Occurrence>, id: nat)
    requires Inv(s) && k < |s.loops| && Reportable(s, k, events) && id < |s.recs|
    ensures Hits(events, id) <= 1
    ensures Hits(events, id) == 1 ==>
              s.recs[id].loop == k && (s.recs[id].c.state == C.Connected || s.recs[id].c.state == C.Disconnecting)
  {
    hide About, L.Sound, Placed, Reported, LoopShape, MapShape, C.Sane, Owned, Hits;
    HitsOnce(events, id);
    if Hits(events, id) == 1 {
      var i :| 0 <= i < |events| && events[i].Io? && events[i].id == id;
      assert Good(s, id);
      var fd :| fd in s.pollers[k].kernel && s.pollers[k].kernel[fd].key == id;
      FdUser(s, k, id, fd);
    }
  }

  lemma PlacedSame(s: Server, t: Server, id: nat)
    requires Shape(s) && Shape(t) && SameFrame(s, t) && id < |s.recs| && t.recs == s.recs && t.loops == s.loops
    requires t.connections == s.connections && Placed(s, id)
    ensures Placed(t, id)
  {
    hide About, Work, NoShutdown, LoopShape, PollerShape, MapShape, Names.ConnName;
    assert InMap(t, id) == InMap(s, id);
    assert forall j | 0 <= j < |s.loops| :: Mine(t, j, id) == Mine(s, j, id);
  }

  /** New events on a loop that had none. */
  lemma EventsArrive(t: Server, k: nat, events: seq<Occurrence>)
    requires Inv(t) && k < |t.loops| && t.loops[k].phase == L.Dispatching && Reportable(t, k, events)
    requires forall e | e in events && e.Io? :: e.id < |t.recs| && C.SingleClose(e.e)
    ensures Inv(t.(active := t.active[k := events]))
    ensures OwnersShrink(t, t.(active := t.active[k := events]))
  {
    hide About, Hits, L.Sound, LoopOwns, Names.ConnName, PollerShape, C.Sane, Registered, Absent, Placed, Fit;
    var u := t.(active := t.active[k := events]);
    assert LoopShape(t.loops[k], t.active[k], |t.recs|);
    assert Shape(u);
    forall id | 0 <= id < |u.recs| ensures Good(u, id) {
      ReportedUp(t, k, events, id);
      assert Good(t, id);
      PlacedSame(t, u, id);
      FitSame(t, u, id);
    }
    forall id: nat ensures Owned(u, id) <==> Owned(t, id) {
    }
  }

  lemma PollKeeps(s: Server, k: nat, events: seq<Occurrence>)
    requires Inv(s) && k < |s.loops| && s.loops[k].phase == L.Polling && Reportable(s, k, events)
    ensures Inv(WithLoop(s, k, L.Next(s.loops[k], L.PollReturns)).(active := s.active[k := events]))
    ensures OwnersShrink(s, WithLoop(s, k, L.Next(s.loops[k], L.PollReturns)).(active := s.active[k := events]))
  {
    hide About, Hits, L.Sound, LoopOwns, Owned, Placed, Fit, MapShape;
    var l := L.Next(s.loops[k], L.PollReturns);
    var t := WithLoop(s, k, l);
    assert LoopShape(s.loops[k], s.active[k], |s.recs|);
    forall id: nat ensures LoopOwns(l, id) ==> LoopOwns(s.loops[k], id) {
      LoopStepFacts(s.loops[k], L.PollReturns, id);
    }
    LoopStepFacts(s.loops[k], L.PollReturns, 0);
    QuietStep(s, k, l, s.active[k]);
    assert s.active[k := s.active[k]] == s.active;
    forall e | e in events && e.Io? ensures e.id < |s.recs| && C.SingleClose(e.e) {
      assert PollerShape(s.pollers[k], |s.recs|);
    }
    EventsArrive(t, k, events);
  }

  // -------------------------------------------------------------------- dispatching

  lemma {:induction false} HitsTail(events: seq<Occurrence>, id: nat)
    requires events != []
    ensures Hits(events, id) == (if events[0].Io? && events[0].id == id then 1 else 0) + Hits(events[1..], id)
  {
  }

  function Taken(s: Server, k: nat): Server
    requires k < |s.active| && s.active[k] != []
  {
    s.(active := s.active[k := s.active[k][1..]])
  }

  lemma UpOwned(s: Server, id: nat)
    requires Inv(s) && id < |s.recs| && (s.recs[id].c.state == C.Connected || s.recs[id].c.state == C.Disconnecting)
    ensures Owned(s, id) && C.Live(Here(s, id)) && C.Up(Here(s, id))
  {
    hide About, Hits, L.Sound, LoopOwns, MapShape, PollerShape, LoopShape, C.Sane, Owned, Reported, Registered,
         Absent;
    assert Good(s, id);
    NeededOwned(s, id);
    LiveHere(s, id);
  }

  lemma TakenKeeps(s: Server, k: nat)
    requires Inv(s) && k < |s.loops| && s.active[k] != []
    ensures Inv(Taken(s, k)) && s.loops[k].phase == L.Dispatching && CanPost(s.loops[k])
    ensures OwnersShrink(s, Taken(s, k))
    ensures s.active[k][0].Io? ==>
              var id := s.active[k][0].id;
              && id < |s.recs| && C.SingleClose(s.active[k][0].e) && s.recs[id].loop == k
              && Owned(s, id) && Owned(Taken(s, k), id)
              && (s.recs[id].c.state == C.Connected || s.recs[id].c.state == C.Disconnecting)
              && (forall j | 0 <= j < |s.active| :: Hits(Taken(s, k).active[j], id) == 0)
  {
    hide About, Hits, L.Sound, LoopOwns, MapShape, PollerShape, C.Sane, Placed, Fit, Owned;
    assert LoopShape(s.loops[k], s.active[k], |s.recs|);
    var tail := s.active[k][1..];
    forall id: nat ensures Hits(tail, id) <= Hits(s.active[k], id) {
      HitsTail(s.active[k], id);
    }
    QuietStep(s, k, s.loops[k], tail);
    assert s.loops[k := s.loops[k]] == s.loops;
    assert s.active[k][0] in s.active[k];
    if s.active[k][0].Io? {
      var id := s.active[k][0].id;
      HitsTail(s.active[k], id);
      assert Good(s, id);
      UpOwned(s, id);
      UpOwned(Taken(s, k), id);
    }
  }

  lemma DispatchKeeps(s: Server, id: nat, e: C.Report)
    requires Inv(s) && id < |s.recs| && C.SingleClose(e) && CanPost(s.loops[s.recs[id].loop])
    requires s.recs[id].c.state == C.Connected || s.recs[id].c.state == C.Disconnecting
    requires forall j | 0 <= j < |s.active| :: Hits(s.active[j], id) == 0
    ensures Inv(Dispatched(s, id, e))
    ensures OwnersShrink(s, Dispatched(s, id, e))
  {
    hide About, Hits, L.Sound, LoopOwns, LoopShape, PollerShape, MapShape, C.Sane, Owned, Good, C.HandleEvent,
         C.Follows, Posts, L.QueueBy;
    UpOwned(s, id);
    var h := Here(s, id);
    C.HandleEventKeeps(h, e);
    var w := C.HandleEvent(h, e);
    if w.c.state == C.Disconnected {
      CloseKeeps(s, id, w);
    } else {
      ActKeeps(s, id, w);
    }
  }

  // ------------------------------------------------------------ calls and other threads

  lemma AppCallState(w: C.World<nat>, op: C.AppOp)
    requires C.Live(w) && w.c.state == C.Connected
    ensures C.AppCall(w, op).c.state != C.Disconnected
  {
    hide C.SendInLoop, C.Sane;
    C.AppCallKeeps(w, op);
  }

  lemma AppCallKeeps(s: Server, id: nat, op: C.AppOp)
    requires Inv(s) && id < |s.recs| && CanPost(s.loops[s.recs[id].loop])
    ensures Inv(Settle(s, id, C.AppCall(Here(s, id), op)))
    ensures OwnersShrink(s, Settle(s, id, C.AppCall(Here(s, id), op)))
  {
    hide About, Hits, L.Sound, LoopOwns, C.Sane, Owned, Good, C.Follows, C.SendInLoop, LoopShape, PollerShape,
         MapShape;
    var h, k := Here(s, id), s.recs[id].loop;
    if s.recs[id].c.state == C.Connected {
      UpOwned(s, id);
      C.AppCallKeeps(h, op);
      AppCallState(h, op);
      ActKeeps(s, id, C.AppCall(h, op));
    } else {
      assert C.AppCall(h, op) == h;
      assert s.recs[id := s.recs[id]] == s.recs && s.pollers[k := s.pollers[k]] == s.pollers;
      assert s.loops[k := s.loops[k]] == s.loops;
      assert Settle(s, id, h) == s;
    }
  }

  lemma WorkGrows(q: seq<C.Task>, t: C.Task)
    requires Work(q) && !t.Lifecycle()
    ensures Work(q + [t])
    ensures NoShutdown(q) && !t.ShutdownTask? ==> NoShutdown(q + [t])
  {
  }

  /** A functor another thread pushes for a call it has begun. */
  ghost predicate Pushable(s: Server, t: C.Task) {
    && t.id < |s.recs| && s.recs[t.id].loop < |s.loops| && s.recs[t.id].c.state != C.Connecting
    && (t.SendTask? || (t.ShutdownTask? && s.recs[t.id].c.state != C.Connected))
  }

  function Pushed(s: Server, t: C.Task): Server
    requires t.id < |s.recs| && s.recs[t.id].loop < |s.loops|
  {
    Post(s, s.recs[t.id].loop, t, false)
  }

  lemma MapOwns(s: Server, id: nat)
    requires InMap(s, id)
    ensures Owned(s, id)
  {
  }

  lemma PushKeeps(s: Server, t: C.Task)
    requires Inv(s) && Pushable(s, t) && InMap(s, t.id)
    ensures Inv(Pushed(s, t)) && OwnersShrink(s, Pushed(s, t))
  {
    hide About, Hits, L.Sound, L.QueueBy, LoopOwns, C.Sane, Owned, Registered, Absent, LoopShape, PollerShape,
         MapShape, Fit;
    var id, k, u := t.id, s.recs[t.id].loop, Pushed(s, t);
    assert Good(s, id);
    assert Owned(s, id) by { MapOwns(s, id); }
    PostShape(s, k, t, false);
    forall other | 0 <= other < |u.recs| && other != id ensures Good(u, other) {
      PostOthers(s, k, t, false, other);
    }
    FitSame(s, u, id);
    assert Mine(u, k, id) == Mine(s, k, id) + [t];
    WorkGrows(Mine(s, k, id), t);
    assert k != 0 ==> Mine(u, 0, id) == Mine(s, 0, id) + [];
    assert InMap(u, id) == InMap(s, id);
    assert Placed(u, id);
    assert Good(u, id);
    Assemble(s, u, id);
  }

  /** A push once the connection has left the map: it is disconnected, and the functor stands behind the one that
      destroys it, or concerns a connection already destroyed. */
  lemma LatePush(s: Server, t: C.Task)
    requires Inv(s) && Pushable(s, t) && !InMap(s, t.id)
    ensures var u, k := Pushed(s, t), s.recs[t.id].loop;
            && Shape(u) && |u.recs| == |s.recs| && !Good(u, t.id) && s.recs[t.id].c.state == C.Disconnected
            && var here := Mine(u, k, t.id);
               && here != [] && here[|here| - 1] == t
               && (s.recs[t.id].c.ch.index == New || (|here| > 1 && here[|here| - 2] == C.DestroyTask(t.id)))
  {
    hide About, Hits, L.Sound, L.QueueBy, LoopOwns, C.Sane, Owned, Registered, Absent, LoopShape, PollerShape,
         MapShape, Fit;
    assert Good(s, t.id);
    PostShape(s, s.recs[t.id].loop, t, false);
    assert InMap(Pushed(s, t), t.id) == InMap(s, t.id);
  }

  /** Exactly the pushes made while the connection is in the map are safe. */
  lemma PushIff(s: Server, t: C.Task)
    requires Inv(s) && Pushable(s, t)
    ensures Inv(Pushed(s, t)) <==> InMap(s, t.id)
  {
    hide Good, Shape, Distinct, Post, InMap, OwnersShrink, Owned;
    if InMap(s, t.id) {
      PushKeeps(s, t);
    } else {
      LatePush(s, t);
    }
  }

  lemma StoredSane(c: C.Conn<nat>)
    requires C.Sane(c) && c.state == C.Connected
    ensures C.Sane(c.(state := C.Disconnecting))
  {
  }

  lemma StoredKeeps(s: Server, id: nat)
    requires Inv(s) && id < |s.recs| && s.recs[id].c.state == C.Connected
    ensures Inv(Stored(s, id))
    ensures OwnersShrink(s, Stored(s, id))
  {
    hide About, Hits, L.Sound, LoopOwns, Registered, Absent, LoopShape, PollerShape, Names.ConnName, C.Sane;
    var u := Stored(s, id);
    assert Good(s, id);
    forall other | 0 <= other < |u.recs| && other != id ensures Good(u, other) {
      GoodTransfer(s, u, other);
    }
    assert InMap(u, id) == InMap(s, id);
    StoredSane(s.recs[id].c);
    assert forall j | 0 <= j < |s.loops| :: Mine(u, j, id) == Mine(s, j, id);
    assert Placed(u, id);
    assert Fit(u, id);
    assert Reported(u, id);
    forall other: nat ensures Owned(u, other) <==> Owned(s, other) {
    }
  }

  lemma LeavingAdded(s: Server, id: nat)
    requires Inv(s) && id < |s.recs| && s.recs[id].c.state == C.Disconnecting
    ensures s.recs[id].c.ch.index == Added
  {
    hide About, Hits, L.Sound, LoopOwns, Registered, Absent, LoopShape, PollerShape, MapShape, Names.ConnName, C.Sane,
         Placed, Reported, Owned;
    assert Good(s, id);
  }

  lemma StoredAgain(s: Server, id: nat)
    requires id < |s.recs| && s.recs[id].c.state == C.Disconnecting
    ensures Stored(s, id) == s
  {
    assert s.recs[id := s.recs[id]] == s.recs;
  }

  /** Exactly the stores made before the connection is closed are safe. */
  lemma StoreIff(s: Server, id: nat)
    requires Inv(s) && id < |s.recs| && s.recs[id].c.state != C.Connecting
    ensures Inv(Stored(s, id)) <==> s.recs[id].c.state != C.Disconnected
  {
    hide About, Hits, L.Sound, LoopOwns, Registered, Absent, LoopShape, PollerShape, MapShape, Names.ConnName, C.Sane,
         Placed, Reported, Owned;
    assert Good(s, id);
    match s.recs[id].c.state {
      case Connected => StoredKeeps(s, id);
      case Disconnecting => StoredAgain(s, id);
      case Disconnected =>
        if Inv(Stored(s, id)) {
          LeavingAdded(Stored(s, id), id);
        }
    }
  }

  lemma LoopExists(s: Server, id: nat)
    requires Shape(s) && id < |s.recs|
    ensures HasLoop(s, id)
  {
  }

  /** Which calls are under way changes nothing the invariant speaks of. */
  lemma FlightIrrelevant(s: Server, flight: map<nat, Call>)
    requires Inv(s)
    ensures var u := s.(flight := flight);
            Inv(u) && OwnersShrink(s, u) && (forall id: nat :: InMap(u, id) <==> InMap(s, id))
  {
    hide About, Hits, L.Sound, LoopOwns, Registered, Absent, LoopShape, PollerShape, Names.ConnName, C.Sane, Placed;
    var u := s.(flight := flight);
    forall other | 0 <= other < |u.recs| ensures Good(u, other) {
      assert Good(s, other);
      GoodTransfer(s, u, other);
    }
    forall other: nat ensures Owned(u, other) <==> Owned(s, other) {
    }
  }

  /** A call that has begun concerns a connection its caller holds and that has been up; between the store and the
      push of `shutdown` it is no longer connected. */
  ghost predicate FlightShape(s: Server) {
    forall from | from in s.flight ::
      var call := s.flight[from];
      && from > 0 && call.id < |s.recs| && call.id in s.held && s.recs[call.id].c.state != C.Connecting
      && (call.ShutdownCall? ==> s.recs[call.id].c.state != C.Connected)
  }

  lemma StoreInTime(s: Server, id: nat)
    requires Inv(s) && id < |s.recs| && (s.recs[id].c.state == C.Connected || s.recs[id].c.state == C.Disconnecting)
    ensures Inv(Stored(s, id)) && OwnersShrink(s, Stored(s, id))
  {
    hide Good, Shape, Distinct, Owned, Stored;
    if s.recs[id].c.state == C.Connected {
      StoredKeeps(s, id);
    } else {
      StoredAgain(s, id);
    }
  }

  lemma ProceedKeeps(s: Server, from: nat)
    requires Inv(s) && FlightShape(s) && Enabled(s, Proceed(from)) && InTime(s, Proceed(from))
    ensures Inv(Next(s, Proceed(from))) && OwnersShrink(s, Next(s, Proceed(from)))
  {
    hide Good, Shape, Distinct, Post, InMap, Owned, Stored;
    LoopExists(s, s.flight[from].id);
    match s.flight[from] {
      case SendCall(id, data) =>
        FlightIrrelevant(s, s.flight - {from});
        PushKeeps(s.(flight := s.flight - {from}), C.SendTask(id, from, data));
      case StoreCall(id) =>
        FlightIrrelevant(s, s.flight[from := ShutdownCall(id)]);
        StoreInTime(s.(flight := s.flight[from := ShutdownCall(id)]), id);
      case ShutdownCall(id) =>
        FlightIrrelevant(s, s.flight - {from});
        PushKeeps(s.(flight := s.flight - {from}), C.ShutdownTask(id));
    }
  }

  /** The exact condition under which the next step of a call that has begun keeps the invariant. */
  lemma InTimeIff(s: Server, from: nat)
    requires Inv(s) && FlightShape(s) && Enabled(s, Proceed(from))
    ensures Inv(Next(s, Proceed(from))) <==> InTime(s, Proceed(from))
  {
    hide Good, Shape, Distinct, Post, InMap, Owned, Stored, OwnersShrink;
    LoopExists(s, s.flight[from].id);
    match s.flight[from] {
      case SendCall(id, data) =>
        FlightIrrelevant(s, s.flight - {from});
        PushIff(s.(flight := s.flight - {from}), C.SendTask(id, from, data));
      case StoreCall(id) =>
        FlightIrrelevant(s, s.flight[from := ShutdownCall(id)]);
        StoreIff(s.(flight := s.flight[from := ShutdownCall(id)]), id);
      case ShutdownCall(id) =>
        FlightIrrelevant(s, s.flight - {from});
        PushIff(s.(flight := s.flight - {from}), C.ShutdownTask(id));
    }
  }

  lemma HoldKeeps(s: Server, id: nat, held: set<nat>)
    requires Inv(s) && Owned(s, id) && id < |s.recs| && held <= s.held + {id}
    ensures Inv(s.(held := held))
    ensures OwnersShrink(s, s.(held := held))
  {
    hide About, Hits, L.Sound, LoopOwns, Registered, Absent, LoopShape, PollerShape, Names.ConnName, C.Sane, Placed;
    var u := s.(held := held);
    forall other | 0 <= other < |u.recs| ensures Good(u, other) {
      assert Good(s, other);
      GoodTransfer(s, u, other);
    }
    forall other: nat | Owned(u, other) ensures Owned(s, other) {
    }
  }

  // ---------------------------------------------------------------------- every step

  /** Running the functor at the head of a batch. */
  lemma RunFunctorKeeps(s: Server, k: nat, ops: seq<C.AppOp>, ans: Answer)
    requires Inv(s) && k < |s.loops| && s.loops[k].phase == L.Running && s.loops[k].rest != []
    ensures L.Enabled(s.loops[k], L.RunNext)
    ensures var t := s.loops[k].rest[0];
            && RightLoop(s, k, t) && CanPost(s.loops[k])
            && Inv(Performed(Popped(s, k), t, ops, ans)) && OwnersShrink(s, Performed(Popped(s, k), t, ops, ans))
  {
    hide About, Hits, L.Sound, LoopOwns, C.Sane, Owned, C.Follows, C.SendInLoop, C.Establish, C.Destroy,
         PollerShape, MapShape;
    hide Placed, Fit, Reported, Posts, L.QueueBy;
    assert LoopShape(s.loops[k], s.active[k], |s.recs|);
    var t, u := s.loops[k].rest[0], Popped(s, k);
    PopShape(s, k);
    HeadMine(s, k);
    HeadPlaced(s, k, t, Mine(u, k, t.id));
    match t {
      case EstablishTask(id) => RunEstablish(s, k, ops);
      case RemoveTask(id) => RunRemove(s, k);
      case DestroyTask(id) => RunDestroy(s, k, ops);
      case ShutdownTask(id) =>
        PopWork(s, k);
        LiveHere(u, id);
        C.ShutdownInLoopKeeps(Here(u, id));
        ActKeeps(u, id, C.ShutdownInLoop(Here(u, id)));
      case SendTask(id, from, data) =>
        PopWork(s, k);
        LiveHere(u, id);
        C.SendInLoopKeeps(Here(u, id), from, data, ans);
        ActKeeps(u, id, C.SendInLoop(Here(u, id), from, data, ans));
      case _ => PopWork(s, k);
    }
  }

  lemma FreshStill(s: Server, k: nat, fd: int)
    requires k < |s.active| && s.active[k] != [] && FreshFd(s, fd)
    ensures FreshFd(Taken(s, k), fd)
  {
    forall id: nat ensures Owned(Taken(s, k), id) <==> Owned(s, id) {
    }
  }

  lemma NextEventKeeps(s: Server, k: nat)
    requires Inv(s) && Enabled(s, NextEvent(k))
    ensures Placeable(s, NextEvent(k)) && Inv(Next(s, NextEvent(k))) && OwnersShrink(s, Next(s, NextEvent(k)))
  {
    hide About, Hits, L.Sound, LoopOwns, C.Sane, Owned, PollerShape, MapShape, Placed, Fit, Reported, LoopShape;
    TakenKeeps(s, k);
    var t := Taken(s, k);
    match s.active[k][0] {
      case Wake => LoopStepKeeps(t, k, L.DrainWakeup);
      case Accept(_, _, _, _, _) =>
        FreshStill(s, k, s.active[k][0].fd);
        NewConnectionKeeps(t, s.active[k][0]);
      case Io(id, e) => DispatchKeeps(t, id, e);
    }
  }

  lemma SelfShrinks(s: Server)
    ensures OwnersShrink(s, s)
  {
  }

  lemma ReleaseKeeps(s: Server, id: nat)
    requires Inv(s) && id in s.held
    ensures Inv(s.(held := s.held - {id}))
    ensures OwnersShrink(s, s.(held := s.held - {id}))
  {
    hide About, Hits, L.Sound, LoopOwns, Registered, Absent, LoopShape, PollerShape, Names.ConnName, C.Sane, Placed;
    var u := s.(held := s.held - {id});
    forall other | 0 <= other < |u.recs| ensures Good(u, other) {
      assert Good(s, other);
      GoodTransfer(s, u, other);
    }
    forall other: nat | Owned(u, other) ensures Owned(s, other) {
    }
  }

  lemma OutsideKeeps(s: Server, step: Step)
    requires Inv(s) && Enabled(s, step)
    requires step.AppCall? || step.RemoteSend? || step.RemoteShutdown? || step.Hold? || step.Release?
    ensures Inv(Next(s, step)) && OwnersShrink(s, Next(s, step))
  {
    hide About, Hits, L.Sound, LoopOwns, C.Sane, PollerShape, MapShape, Placed, Fit, Reported, LoopShape,
         L.QueueBy, Posts;
    hide C.AppCall;
    match step {
      case AppCall(id, op) => AppCallKeeps(s, id, op);
      case RemoteSend(from, id, data) =>
        FlightIrrelevant(s, s.flight[from := SendCall(id, data)]);
        SelfShrinks(s);
      case RemoteShutdown(from, id) =>
        FlightIrrelevant(s, s.flight[from := StoreCall(id)]);
        SelfShrinks(s);
      case Hold(id) => HoldKeeps(s, id, s.held + {id});
      case Release(id) =>
        ReleaseKeeps(s, id);
    }
  }

  /** Every step that the outside world can make the server take, if it is in time, is taken on the right loop,
      keeps the invariant, and gives no dead connection an owner. */
  lemma StepKeeps(s: Server, step: Step)
    requires Inv(s) && FlightShape(s) && Enabled(s, step) && InTime(s, step)
    ensures Placeable(s, step) && Inv(Next(s, step)) && OwnersShrink(s, Next(s, step))
  {
    hide About, Hits, L.Sound, LoopOwns, C.Sane, Owned, PollerShape, MapShape, Placed, Fit, Reported;
    hide Performed, L.QuitBy, FreshFd;
    match step {
      case Check(k) => LoopStepKeeps(s, k, L.Check);
      case PollReturns(k, events) => PollKeeps(s, k, events);
      case NextEvent(k) => NextEventKeeps(s, k);
      case Swap(k) => LoopStepKeeps(s, k, L.SwapBatch);
      case RunFunctor(k, ops, ans) => RunFunctorKeeps(s, k, ops, ans);
      case EndBatch(k) =>
        assert LoopShape(s.loops[k], s.active[k], |s.recs|);
        LoopStepKeeps(s, k, L.EndBatch);
      case Quit(k) => QuitKeeps(s, k);
      case Proceed(from) => ProceedKeeps(s, from);
      case _ => OutsideKeeps(s, step);
    }
  }
}
