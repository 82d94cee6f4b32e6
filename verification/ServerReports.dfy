/** What the running server makes of the events that are reported to it, and of `quit`. */
module ServerReports {
  import opened Common
  import opened Pollers
  import opened ThreadPools
  import opened Servers
  import opened ServerInvariants
  import opened ServerSafety
  import opened ServerTheorems
  import opened ServerSends
  import opened ServerCalls
  import opened ConnectionEffects
  import Names
  import L = EventLoops
  import C = Connections

  // --------------------------------------------------------------- every event, once, in order

  /** The event loop `k` dispatches in this step. */
  ghost function HandledNow(s: Server, step: Step, k: nat): seq<Occurrence> {
    if step == NextEvent(k) && k < |s.active| && s.active[k] != [] then [s.active[k][0]] else []
  }

  ghost function ReportedNow(step: Step, k: nat): seq<Occurrence> {
    if step.PollReturns? && step.k == k then step.events else []
  }

  lemma PollingIdle(s: Server, k: nat)
    requires Shape(s) && k < |s.loops| && s.loops[k].phase == L.Polling
    ensures s.active[k] == []
  {
    hide PollerShape, MapShape, L.Sound;
    assert LoopShape(s.loops[k], s.active[k], |s.recs|);
  }

  lemma StepEvents(s: Server, step: Step, k: nat)
    requires Safe(s) && Enabled(s, step) && InTime(s, step) && k < |s.active|
    ensures Placeable(s, step) && |Next(s, step).active| == |s.active|
    ensures HandledNow(s, step, k) + Next(s, step).active[k] == s.active[k] + ReportedNow(step, k)
  {
    hide Good, Distinct, LoopShape, PollerShape, MapShape, FlightShape, Owned, Performed, Dispatched, NewConnection, C.AppCall,
         Posts, L.Next, L.QueueBy, L.QuitBy, FreshFd, Reportable, InTime, InMap;
    StepSafe(s, step);
    assert s.active[k] + [] == s.active[k] && [] + s.active[k] == s.active[k];
    match step {
      case NextEvent(j) =>
        EventFlight(s, j);
        assert s.active[j] == [s.active[j][0]] + s.active[j][1..];
      case RunFunctor(j, ops, ans) => FunctorFlight(s, j, ops, ans);
      case PollReturns(j, events) => PollingIdle(s, j);
      case _ =>
    }
  }

  /** The events loop `k` dispatches during a run, and those `epoll_wait` reports to it. */
  ghost function Handled(s: Server, steps: seq<Step>, k: nat): seq<Occurrence>
    requires Safe(s) && IsRun(s, steps)
    decreases |steps|
  {
    if steps == [] then [] else
      StepSafe(s, steps[0]);
      HandledNow(s, steps[0], k) + Handled(Next(s, steps[0]), steps[1..], k)
  }

  ghost function AllReported(steps: seq<Step>, k: nat): seq<Occurrence>
    decreases |steps|
  {
    if steps == [] then [] else ReportedNow(steps[0], k) + AllReported(steps[1..], k)
  }

  /** Every event reported to a loop is dispatched exactly once, in the order of the reports: those dispatched, then
      those still to be, are those there were and those reported since. */
  lemma {:induction false} EventsConserved(s: Server, steps: seq<Step>, k: nat)
    requires Safe(s) && IsRun(s, steps) && k < |s.active|
    ensures |After(s, steps).active| == |s.active|
    ensures Handled(s, steps, k) + After(s, steps).active[k] == s.active[k] + AllReported(steps, k)
    decreases |steps|
  {
    hide Good, Distinct, Shape, Next, InTime, FlightShape, Owned, Enabled, HandledNow, ReportedNow, Placeable;
    if steps == [] {
      assert [] + s.active[k] == s.active[k] + [];
    } else {
      StepSafe(s, steps[0]);
      var t := Next(s, steps[0]);
      StepEvents(s, steps[0], k);
      EventsConserved(t, steps[1..], k);
      Regroup(HandledNow(s, steps[0], k), Handled(t, steps[1..], k), After(t, steps[1..]).active[k]);
      Regroup(HandledNow(s, steps[0], k), t.active[k], AllReported(steps[1..], k));
      Regroup(s.active[k], ReportedNow(steps[0], k), AllReported(steps[1..], k));
    }
  }

  // ----------------------------------------------------------------------------- closing

  lemma UpMapped(s: Server, id: nat)
    requires Inv(s) && id < |s.recs| && (s.recs[id].c.state == C.Connected || s.recs[id].c.state == C.Disconnecting)
    ensures InMap(s, id)
  {
    hide About, Hits, Fit, Reported, LoopShape, PollerShape, MapShape, Owned;
    assert Good(s, id);
  }

  lemma EventOf(s: Server, k: nat)
    requires Inv(s) && Enabled(s, NextEvent(k)) && s.active[k][0].Io?
    ensures var id, e := s.active[k][0].id, s.active[k][0].e;
            && id < |s.recs| && s.recs[id].loop == k && C.SingleClose(e)
            && (s.recs[id].c.state == C.Connected || s.recs[id].c.state == C.Disconnecting)
            && C.Live(Here(s, id)) && C.Up(Here(s, id)) && InMap(s, id)
  {
    hide Good, Distinct, LoopShape, PollerShape, MapShape, Owned, C.Live, FreshFd;
    TakenKeeps(s, k);
    UpOwned(s, s.active[k][0].id);
    UpMapped(s, s.active[k][0].id);
  }

  lemma ApplyDispatch(w: C.World<nat>, e: C.Report)
    ensures C.Apply(w, C.Dispatch(e)) == C.HandleEvent(w, e)
  {
  }

  lemma SingleCloseOnce(w: C.World<nat>, e: C.Report)
    requires C.Live(w) && C.Up(w) && C.SingleClose(e)
    ensures C.HandleEvent(w, e).c.closes > w.c.closes <==> Closes(e)
  {
    hide C.HandleEvent;
    ClosesIff(w, e);
  }

  /** Only the base loop touches the map, and only for a connection that closes. */
  lemma CloseMaps(s: Server, k: nat)
    requires Inv(s) && Enabled(s, NextEvent(k)) && Placeable(s, NextEvent(k)) && s.active[k][0].Io?
    requires Shape(Next(s, NextEvent(k)))
    ensures var id, e, u := s.active[k][0].id, s.active[k][0].e, Next(s, NextEvent(k));
            InMap(u, id) <==> k != 0 || !Closes(e)
  {
    hide Good, Distinct, LoopShape, PollerShape, MapShape, Owned, C.HandleEvent, C.Live, Posts, L.QueueBy, FreshFd,
         Names.ConnName;
    TakenKeeps(s, k);
    EventOf(s, k);
    var id, e := s.active[k][0].id, s.active[k][0].e;
    ClosesIff(Here(s, id), e);
    SingleCloseOnce(Here(s, id), e);
    assert Here(Taken(s, k), id) == Here(s, id);
  }

  lemma HandedOver(s: Server, id: nat)
    requires Inv(s) && id < |s.recs| && s.recs[id].c.state == C.Disconnected
    ensures InMap(s, id) ==> C.RemoveTask(id) in s.loops[0].Todo()
    ensures HasLoop(s, id)
    ensures !InMap(s, id) && s.recs[id].c.ch.index != New ==> C.DestroyTask(id) in s.loops[s.recs[id].loop].Todo()
  {
    hide About, Hits, Fit, Reported, LoopShape, PollerShape, MapShape, Owned, Work;
    assert Good(s, id);
    LoopExists(s, id);
    AboutMember(s.loops[0].Todo(), id, C.RemoveTask(id));
    AboutMember(s.loops[s.recs[id].loop].Todo(), id, C.DestroyTask(id));
  }

  /** A dispatched report closes its connection if and only if it is a hang-up without input or an end of file. The
      close callback has then run once, the descriptor is out of the kernel set, and the removal is under way: on the
      base loop the map entry is gone and the destruction queued, from any other loop the removal is queued on the
      base loop. Otherwise the connection is still registered and in the map. */
  lemma CloseStartsRemoval(s: Server, k: nat, id: nat, e: C.Report)
    requires Safe(s) && Enabled(s, NextEvent(k)) && s.active[k][0] == Io(id, e)
    ensures Placeable(s, NextEvent(k)) && Shape(Next(s, NextEvent(k))) && id < |s.recs|
    ensures var u := Next(s, NextEvent(k));
            && id < |u.recs|
            && (u.recs[id].c.state == C.Disconnected <==> Closes(e))
            && var c := u.recs[id].c;
               if Closes(e) then
                 && c.closes == 1 && c.downs == 1 && c.ch.fd !in u.pollers[k].kernel
                 && if k == 0 then !InMap(u, id) && C.DestroyTask(id) in u.loops[0].Todo()
                    else InMap(u, id) && C.RemoveTask(id) in u.loops[0].Todo()
               else
                 c.closes == 0 && c.ch.fd in u.pollers[k].kernel && InMap(u, id)
  {
    hide Good, Distinct, LoopShape, PollerShape, MapShape, FlightShape, Owned, C.HandleEvent, C.Live, C.Apply, FreshFd, Next, Closes, InMap,
         C.Up, C.SingleClose;
    StepSafe(s, NextEvent(k));
    EventOf(s, k);
    StepPerforms(s, NextEvent(k), id);
    LoopExists(s, id);
    ApplyDispatch(Here(s, id), e);
    ClosesIff(Here(s, id), e);
    CloseMaps(s, k);
    if Closes(e) {
      HandedOver(Next(s, NextEvent(k)), id);
    }
  }

  // --------------------------------------------------------------------------- accepting

  lemma EstablishFd(w: C.World<nat>, ops: seq<C.AppOp>)
    requires C.Idle(w)
    ensures var c := C.Establish(w, ops).c;
            c.ch.fd == w.c.ch.fd && c.mark == w.c.mark && c.hasMark == w.c.hasMark && c.hasWrite == w.c.hasWrite
  {
    hide C.Establish, C.Opened, C.Sane, Registered, FdMine;
    C.EstablishKeeps(w, ops);
  }

  lemma AcceptedState(s: Server, k: nat)
    requires Inv(s) && Enabled(s, NextEvent(k)) && Placeable(s, NextEvent(k)) && s.active[k][0].Accept?
    ensures var e, id, u := s.active[k][0], |s.recs|, Next(s, NextEvent(k));
            && |u.recs| == id + 1 && |u.loops| == |s.loops| && u.recs[id].c.ch.fd == e.fd
            && u.recs[id].c.mark == e.mark && u.recs[id].c.hasMark == e.hasMark && u.recs[id].c.hasWrite == e.hasWrite
            && u.recs[id].c.state == if u.recs[id].loop != 0 then C.Connecting
                                     else if C.AppShutdown in e.ops then C.Disconnecting else C.Connected
  {
    hide Good, Distinct, LoopShape, PollerShape, MapShape, L.Sound, Posts, L.QueueBy, Owned, C.Establish, FreshFd;
    TakenKeeps(s, k);
    FreshStill(s, k, s.active[k][0].fd);
    var v, e, id := Taken(s, k), s.active[k][0], |s.recs|;
    EnteredShape(v, e);
    EnteredNewborn(v, e);
    FreshUnused(v, e.fd);
    var t := Entered(v, e);
    if t.recs[id].loop == 0 {
      NewbornIdle(t, id);
      EstablishTakesEffect(Here(t, id), e.ops);
      EstablishFd(Here(t, id), e.ops);
    }
  }

  /** What the invariant says of a connection by its state: where its establishment is queued, and what it is
      registered for. */
  lemma NewHandover(s: Server, id: nat)
    requires Inv(s) && id < |s.recs| && HasLoop(s, id) && s.recs[id].c.state != C.Disconnected
    ensures InMap(s, id)
    ensures s.recs[id].c.state == C.Connecting ==> C.EstablishTask(id) in s.loops[s.recs[id].loop].Todo()
    ensures s.recs[id].c.state != C.Connecting ==>
              var p, fd := s.pollers[s.recs[id].loop], s.recs[id].c.ch.fd;
              fd in p.kernel && p.kernel[fd].key == id && {In, Pri} <= p.kernel[fd].mask
  {
    hide About, Hits, Reported, LoopShape, PollerShape, MapShape, Owned, Absent, C.Sane;
    assert Good(s, id);
    AboutMember(s.loops[s.recs[id].loop].Todo(), id, C.EstablishTask(id));
  }

  /** An accepted descriptor becomes a connection in the map, on the loop whose turn it is; on the base loop it is up
      and registered for input, on any other its establishment is queued there. */
  lemma AcceptEnters(s: Server, k: nat)
    requires Safe(s) && Enabled(s, NextEvent(k)) && s.active[k][0].Accept?
    ensures Placeable(s, NextEvent(k)) && Shape(Next(s, NextEvent(k)))
    ensures var e, id, u := s.active[k][0], |s.recs|, Next(s, NextEvent(k));
            && |u.recs| == id + 1 && InMap(u, id) && u.recs[id].c.ch.fd == e.fd && HasLoop(u, id)
            && u.recs[id].c.mark == e.mark && u.recs[id].c.hasMark == e.hasMark && u.recs[id].c.hasWrite == e.hasWrite
            && u.recs[id].loop == LoopOf(|s.loops| - 1, id)
            && if u.recs[id].loop == 0 then
                 && u.recs[id].c.state == (if C.AppShutdown in e.ops then C.Disconnecting else C.Connected)
                 && e.fd in u.pollers[0].kernel && {In, Pri} <= u.pollers[0].kernel[e.fd].mask
               else
                 C.EstablishTask(id) in u.loops[u.recs[id].loop].Todo()
  {
    hide Good, Distinct, LoopShape, PollerShape, MapShape, FlightShape, Owned, FreshFd, Next, Placeable;
    StepSafe(s, NextEvent(k));
    AcceptedState(s, k);
    var u, id := Next(s, NextEvent(k)), |s.recs|;
    LoopExists(u, id);
    NewHandover(u, id);
  }

  /** When the functor that establishes a connection runs, the connection comes up, registered for input, and the calls
      of the connection callback count. */
  lemma EstablishRuns(s: Server, k: nat, ops: seq<C.AppOp>, ans: Answer, id: nat)
    requires Safe(s) && Enabled(s, RunFunctor(k, ops, ans)) && id < |s.recs|
    requires Executes(s, RunFunctor(k, ops, ans), C.EstablishTask(id))
    ensures Placeable(s, RunFunctor(k, ops, ans)) && Shape(Next(s, RunFunctor(k, ops, ans)))
    ensures var u := Next(s, RunFunctor(k, ops, ans));
            && id < |u.recs| && HasLoop(u, id)
            && u.recs[id].c.state == (if C.AppShutdown in ops then C.Disconnecting else C.Connected)
            && var p, fd := u.pollers[u.recs[id].loop], u.recs[id].c.ch.fd;
               fd in p.kernel && p.kernel[fd].key == id && {In, Pri} <= p.kernel[fd].mask
  {
    hide Good, Distinct, LoopShape, PollerShape, MapShape, FlightShape, Owned, FreshFd, Next, Placeable,
         C.Establish, C.Idle;
    StepSafe(s, RunFunctor(k, ops, ans));
    EstablishedLog(s, k, ops, ans, id);
    EstablishTakesEffect(Here(s, id), ops);
    LoopExists(Next(s, RunFunctor(k, ops, ans)), id);
    NewHandover(Next(s, RunFunctor(k, ops, ans)), id);
  }

  // ------------------------------------------------------------------- wakeups and quitting

  /** The wakeup event reads the eventfd of its loop empty and changes nothing else. */
  lemma WakeDrains(s: Server, k: nat)
    requires Safe(s) && Enabled(s, NextEvent(k)) && s.active[k][0] == Wake
    ensures Placeable(s, NextEvent(k))
    ensures var u := Next(s, NextEvent(k));
            && |u.loops| == |s.loops| && u.loops[k] == s.loops[k].(counter := 0)
            && (forall j | 0 <= j < |s.loops| && j != k :: u.loops[j] == s.loops[j])
            && u.recs == s.recs && u.pollers == s.pollers && u.connections == s.connections
  {
    hide Good, Distinct, LoopShape, PollerShape, MapShape, FlightShape, Owned, FreshFd;
    StepSafe(s, NextEvent(k));
  }

  lemma QuitNow(s: Server, k: nat)
    requires Shape(s) && k < |s.loops|
    ensures |Next(s, Quit(k)).loops| == |s.loops| && Next(s, Quit(k)).loops[k].quit
  {
    hide LoopShape, PollerShape, MapShape;
  }

  lemma QuitStep(s: Server, step: Step, k: nat)
    requires Safe(s) && Enabled(s, step) && InTime(s, step) && k < |s.loops| && (s.loops[k].quit || step == Quit(k))
    ensures Placeable(s, step) && k < |Next(s, step).loops| && Next(s, step).loops[k].quit
  {
    hide Good, Distinct, LoopShape, PollerShape, MapShape, FlightShape, Owned, FreshFd, Reportable, Next,
         InTime, Placeable;
    StepSafe(s, step);
    if step == Quit(k) {
      QuitNow(s, k);
    } else if PushesSend(s, step) {
      StepPushes(s, step);
    } else {
      StepQuiet(s, step);
      var b := if step.RunFunctor? then Popped(s, step.k) else s;
      assert Quiet(b.loops[k], Next(s, step).loops[k]);
    }
  }

  lemma CheckStops(s: Server, k: nat)
    requires Shape(s) && k < |s.loops|
    ensures s.loops[k].quit && s.loops[k].phase == L.Checking ==>
              Enabled(s, Check(k)) && Next(s, Check(k)).loops[k].phase == L.Stopped
  {
    hide LoopShape, PollerShape, MapShape;
  }

  /** Once `quit` has been called on a loop, whatever any thread does: the loop never forgets it, is not left blocked
      on a silent eventfd, and stops the next time it checks. */
  lemma {:induction false} QuitStops(s: Server, k: nat, steps: seq<Step>)
    requires Safe(s) && k < |s.loops| && s.loops[k].quit && IsRun(s, steps)
    ensures var u := After(s, steps);
            && k < |u.loops| && u.loops[k].quit
            && (u.loops[k].phase == L.Polling ==> u.loops[k].counter > 0)
            && (u.loops[k].phase == L.Checking ==>
                  Enabled(u, Check(k)) && Next(u, Check(k)).loops[k].phase == L.Stopped)
    decreases |steps|
  {
    hide Good, Distinct, PollerShape, MapShape, FlightShape, Owned, InTime, Next, Enabled;
    if steps == [] {
      assert LoopShape(s.loops[k], s.active[k], |s.recs|);
      CheckStops(s, k);
    } else {
      StepSafe(s, steps[0]);
      QuitStep(s, steps[0], k);
      QuitStops(Next(s, steps[0]), k, steps[1..]);
    }
  }
}
