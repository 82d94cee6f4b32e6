/** Graceful half-close over the whole server, with sends from any thread. */
module ServerHalfClose {
  import opened Common
  import opened Pollers
  import opened Servers
  import opened ServerInvariants
  import opened ServerSafety
  import opened ServerTheorems
  import Names
  import L = EventLoops
  import C = Connections
  import O = ServerOrder

  /** The step executes a functor that sends `data` to `id`. */
  ghost predicate Sends(s: Server, step: Step, id: nat) {
    && step.RunFunctor? && step.k < |s.loops| && s.loops[step.k].rest != [] && id < |s.recs|
    && s.loops[step.k].rest[0].SendTask? && s.loops[step.k].rest[0].id == id
  }

  /** The step gets bytes of a send functor written or buffered although `id` has been half-closed. */
  ghost predicate SpoilsNow(s: Server, step: Step, id: nat) {
    Sends(s, step, id) && C.Spoils(s.recs[id].c, s.loops[step.k].rest[0].data, step.ans)
  }

  /** What the kernel does on a socket that has been shut down for writing: `write` fails with EPIPE. */
  ghost predicate Refuses(s: Server, step: Step) {
    forall id: nat | Sends(s, step, id) && s.recs[id].c.state == C.Disconnecting && s.recs[id].c.fins != [] ::
      step.ans == PeerGone
  }

  ghost predicate Spoilt(s: Server, id: nat) {
    id < |s.recs| && s.recs[id].c.spoilt
  }

  // ------------------------------------------------------------------ what a step spoils

  lemma EventSpoilt(s: Server, k: nat, id: nat)
    requires Inv(s) && Enabled(s, NextEvent(k)) && Placeable(s, NextEvent(k)) && id < |s.recs|
    ensures var u := Next(s, NextEvent(k));
            id < |u.recs| && u.recs[id].c.spoilt == s.recs[id].c.spoilt
  {
    hide Good, Distinct, LoopShape, PollerShape, MapShape, L.Sound, Posts, L.QueueBy, Owned, FreshFd, NewConnection,
         Dispatched, C.HandleEvent;
    TakenKeeps(s, k);
    var t := Taken(s, k);
    match s.active[k][0] {
      case Wake =>
      case Accept(_, _, _, _, _) => AcceptRecords(t, s.active[k][0], id);
      case Io(other, e) =>
        DispatchLater(t, other, e);
        C.HandleEventUnspoilt(Here(t, other), e);
    }
  }

  lemma SendSpoilt(w: C.World<nat>, from: nat, data: seq<byte>, ans: Answer)
    ensures C.SendInLoop(w, from, data, ans).c.spoilt == (w.c.spoilt || C.Spoils(w.c, data, ans))
  {
    hide C.SendInLoop;
    C.SendBytes(w, from, data, ans);
  }

  lemma ShutdownUnspoilt(w: C.World<nat>)
    ensures C.ShutdownInLoop(w).c.spoilt == w.c.spoilt
  {
  }

  lemma DestroyUnspoilt(w: C.World<nat>, ops: seq<C.AppOp>)
    requires w.c.state == C.Disconnected
    ensures C.Destroy(w, ops).c.spoilt == w.c.spoilt
  {
    hide Removed;
  }

  lemma FunctorSpoilt(s: Server, k: nat, ops: seq<C.AppOp>, ans: Answer, id: nat)
    requires Inv(s) && k < |s.loops| && s.loops[k].phase == L.Running && s.loops[k].rest != [] && id < |s.recs|
    requires RightLoop(s, k, s.loops[k].rest[0])
    ensures L.Enabled(s.loops[k], L.RunNext) && CanPost(s.loops[k])
    ensures var u := Performed(Popped(s, k), s.loops[k].rest[0], ops, ans);
            && id < |u.recs|
            && u.recs[id].c.spoilt == (s.recs[id].c.spoilt || SpoilsNow(s, RunFunctor(k, ops, ans), id))
  {
    hide Good, Distinct, LoopShape, PollerShape, MapShape, L.Sound, Posts, L.QueueBy, Owned, C.Spoils;
    hide C.SendInLoop, C.Establish, C.ShutdownInLoop, C.Destroy, L.Next;
    RunFunctorKeeps(s, k, ops, ans);
    FunctorLater(s, k, ops, ans);
    var t := s.loops[k].rest[0];
    var h := Here(Popped(s, k), t.id);
    match t {
      case EstablishTask(other) => C.EstablishUnspoilt(h, ops);
      case SendTask(other, sender, data) => SendSpoilt(h, sender, data, ans);
      case ShutdownTask(other) => ShutdownUnspoilt(h);
      case DestroyTask(other) =>
        O.FunctorPlaced(s, k);
        DestroyUnspoilt(h, ops);
      case _ =>
    }
  }

  lemma NewUnspoilt(s: Server, e: Occurrence)
    requires e.Accept? && 0 < |s.loops| == |s.pollers| && NextInRange(s) && CanPost(s.loops[0])
    ensures var u, id := NewConnection(s, e), |s.recs|;
            |u.recs| == id + 1 && !u.recs[id].c.spoilt
  {
    hide C.Establish, Posts, L.QueueBy, Names.ConnName;
    var t, id := Entered(s, e), |s.recs|;
    if t.recs[id].loop == 0 {
      C.EstablishUnspoilt(Here(t, id), e.ops);
    }
  }

  lemma AppCallSpoilt(s: Server, other: nat, op: C.AppOp, id: nat)
    requires HasLoop(s, other) && CanPost(s.loops[s.recs[other].loop]) && id < |s.recs|
    ensures var u := Settle(s, other, C.AppCall(Here(s, other), op));
            |u.recs| == |s.recs| && u.recs[id].c.spoilt == s.recs[id].c.spoilt
  {
    hide C.AppCall, Posts;
    C.AppCallUnspoilt(Here(s, other), op);
  }

  lemma OldSpoilt(s: Server, step: Step, id: nat)
    requires Inv(s) && Enabled(s, step) && Placeable(s, step) && id < |s.recs|
    ensures var u := Next(s, step);
            id < |u.recs| && u.recs[id].c.spoilt == (s.recs[id].c.spoilt || SpoilsNow(s, step, id))
  {
    hide Good, Distinct, LoopShape, PollerShape, MapShape, L.Sound, Posts, L.QueueBy, Owned, FreshFd, Reportable;
    hide Performed, Dispatched, NewConnection, C.AppCall, L.Next, C.Spoils, Settle;
    match step {
      case NextEvent(k) => EventSpoilt(s, k, id);
      case RunFunctor(k, ops, ans) => FunctorSpoilt(s, k, ops, ans, id);
      case AppCall(other, op) => AppCallSpoilt(s, other, op, id);
      case _ =>
    }
  }

  /** A half-close is spoilt by the execution of a send functor on that connection, and by nothing else. */
  lemma SpoiltStep(s: Server, step: Step, id: nat)
    requires Inv(s) && Enabled(s, step) && Placeable(s, step)
    ensures Spoilt(Next(s, step), id) <==> Spoilt(s, id) || SpoilsNow(s, step, id)
  {
    hide Good, Distinct, LoopShape, PollerShape, MapShape, Owned, FreshFd, NewConnection, Dispatched, Performed, L.Next,
         C.Spoils;
    if id < |s.recs| {
      OldSpoilt(s, step, id);
    } else if id < |Next(s, step).recs| {
      O.OnlyAcceptAdds(s, step);
      TakenKeeps(s, step.k);
      NewUnspoilt(Taken(s, step.k), s.active[step.k][0]);
    }
  }

  // ---------------------------------------------------------------------------- runs

  ghost predicate Spoiling(s: Server, steps: seq<Step>, id: nat)
    requires Safe(s) && IsRun(s, steps)
    decreases |steps|
  {
    steps != [] && (SpoilsNow(s, steps[0], id) || (StepSafe(s, steps[0]); Spoiling(Next(s, steps[0]), steps[1..], id)))
  }

  ghost predicate Refusing(s: Server, steps: seq<Step>)
    requires Safe(s) && IsRun(s, steps)
    decreases |steps|
  {
    steps != [] ==> Refuses(s, steps[0]) && (StepSafe(s, steps[0]); Refusing(Next(s, steps[0]), steps[1..]))
  }

  lemma {:induction false} RunSpoilt(s: Server, steps: seq<Step>, id: nat)
    requires Safe(s) && IsRun(s, steps)
    ensures Spoilt(After(s, steps), id) <==> Spoilt(s, id) || Spoiling(s, steps, id)
    ensures Refusing(s, steps) ==> !Spoiling(s, steps, id)
    decreases |steps|
  {
    hide Good, Distinct, LoopShape, PollerShape, MapShape, Next, Owned, Enabled, Spoilt, InTime;
    if steps != [] {
      StepSafe(s, steps[0]);
      SpoiltStep(s, steps[0], id);
      RunSpoilt(Next(s, steps[0]), steps[1..], id);
    }
  }

  /** The exact condition of graceful half-closes in the running server, whatever the kernel answers: no send
      functor that finds the connection half-closed gets a byte written or buffered. */
  lemma ServerCleanIff(form: Form, name: string, ipPort: string, subLoops: nat, steps: seq<Step>, u: Server, id: nat)
    requires |ipPort| <= 51 && Trace(form, name, ipPort, subLoops, steps, u) && id < |u.recs|
    ensures Safe(Start(form, name, ipPort, subLoops)) && IsRun(Start(form, name, ipPort, subLoops), steps)
    ensures C.Clean(u.recs[id].c) <==> !Spoiling(Start(form, name, ipPort, subLoops), steps, id)
  {
    hide Placed, Reported, Distinct, LoopShape, PollerShape, MapShape, Owned, C.Balanced, C.MarksCounted, C.Clean,
         Registered, Absent, Reachable, Spoiling;
    StartSafe(form, name, ipPort, subLoops);
    RunSpoilt(Start(form, name, ipPort, subLoops), steps, id);
    assert Good(u, id);
    C.GracefulIff(u.recs[id].c);
  }

  /** In every state a server reaches on a kernel that refuses to write behind a half-close, with sends from any
      threads, each `shutdownWrite` of each connection came after the last byte written to it, and if the
      connection was not closed at that moment, its buffer was empty and everything it ever accepted (and the
      written form did not lose) was with the kernel. */
  lemma ServerHalfCloseGraceful(form: Form, name: string, ipPort: string, subLoops: nat, steps: seq<Step>, u: Server,
                                id: nat)
    requires |ipPort| <= 51 && Trace(form, name, ipPort, subLoops, steps, u) && id < |u.recs|
    requires (StartSafe(form, name, ipPort, subLoops); Refusing(Start(form, name, ipPort, subLoops), steps))
    ensures var c := u.recs[id].c;
            forall f | f in c.fins ::
              && f.at == |c.wire|
              && (f.up ==> c.out == [] && |c.wire| + c.lost == |C.Payload(c.log)|)
              && (f.up && c.form == AsIntended ==> c.wire == C.Payload(c.log))
  {
    hide Placed, Reported, Distinct, LoopShape, PollerShape, MapShape, Owned, C.Payload, C.MarksCounted,
         Registered, Absent, Reachable, Refusing, Spoiling;
    StartSafe(form, name, ipPort, subLoops);
    RunSpoilt(Start(form, name, ipPort, subLoops), steps, id);
    ServerCleanIff(form, name, ipPort, subLoops, steps, u, id);
    assert Good(u, id);
    var c := u.recs[id].c;
    assert c.wire + [] == c.wire;
  }

  /** What becomes of a payload queued by another thread when its functor runs: it is dropped exactly when the
      connection is closed or half-closed by then or the peer is found gone on a direct write; otherwise it is the
      next payload of the connection. */
  lemma PayloadDroppedIff(s: Server, k: nat, ops: seq<C.AppOp>, ans: Answer)
    requires Safe(s) && Enabled(s, RunFunctor(k, ops, ans)) && s.loops[k].rest[0].SendTask?
    requires var id := s.loops[k].rest[0].id;
             id < |s.recs| && C.Clean(s.recs[id].c) && Refuses(s, RunFunctor(k, ops, ans))
    ensures Placeable(s, RunFunctor(k, ops, ans))
    ensures var t, u := s.loops[k].rest[0], Next(s, RunFunctor(k, ops, ans)); var c, d := s.recs[t.id].c, u.recs[t.id].c;
            && |u.recs| == |s.recs|
            && (d.log == c.log <==>
                  c.state == C.Disconnected || c.fins != [] || (!c.ch.IsWriting() && c.out == [] && ans == PeerGone))
            && (d.log != c.log ==> d.log == c.log + [C.Sent(t.from, t.data)])
  {
    hide Good, Distinct, LoopShape, PollerShape, MapShape, Owned, C.SendInLoop, C.Live, C.Clean, L.Sound, Posts,
         L.QueueBy;
    RunFunctorKeeps(s, k, ops, ans);
    var t := s.loops[k].rest[0];
    assert Sends(s, RunFunctor(k, ops, ans), t.id);
    HeadMine(s, k);
    HeadPlaced(s, k, t, Mine(Popped(s, k), k, t.id));
    LiveHere(s, t.id);
    C.SendLogsIff(Here(s, t.id), t.from, t.data, ans);
  }

  // --------------------------------------------------------------- an overtaken payload

  ghost function DrainEvent(s: Server, id: nat): C.Report
    requires id < |s.recs|
  {
    C.Report({Out}, [], C.ReadError, Wrote(|s.recs[id].c.out|))
  }

  /** On the loop of the open connection `id`, whose buffer is not empty, a write event is the next and last to be
      dispatched, and nothing is queued; thread `from` has passed its test and is about to push a payload. */
  ghost predicate AboutToOvertake(s: Server, id: nat, from: nat) {
    && Safe(s) && id < |s.recs| && s.recs[id].c.state == C.Connected && s.recs[id].c.out != []
    && var k := s.recs[id].loop;
       && s.loops[k].phase == L.Dispatching && s.loops[k].pending == [] && s.active[k] == [Io(id, DrainEvent(s, id))]
       && from in s.flight && s.flight[from].SendCall? && s.flight[from].id == id
  }

  /** What matters of the states passed: the connection `c` with its poller `p`, and the loop's queue. */
  ghost predicate Stage(s: Server, id: nat, k: nat, c: C.Conn<nat>, p: Poller<nat>, t: C.Task, events: seq<Occurrence>) {
    && HasLoop(s, id) && k < |s.active| == |s.loops| && s.recs[id] == Rec(k, c) && s.pollers[k] == p
    && CanPost(s.loops[k]) && s.active[k] == events
    && s.loops[k].phase == L.Dispatching && s.loops[k].pending != [] && s.loops[k].pending[0] == t
  }

  lemma FirstPending(l: Loop, q: seq<C.Task>)
    requires CanPost(l) && l.pending != []
    ensures Posts(l, q).pending != [] && Posts(l, q).pending[0] == l.pending[0]
    decreases |q|
  {
    if q != [] {
      FirstPending(l, q[..|q| - 1]);
    }
  }

  lemma PushStage(s: Server, id: nat, from: nat)
    requires AboutToOvertake(s, id, from)
    ensures var step, k := Proceed(from), s.recs[id].loop;
            && Enabled(s, step) && InTime(s, step) && Placeable(s, step)
            && Stage(Next(s, step), id, k, s.recs[id].c, s.pollers[k], C.SendTask(id, from, s.flight[from].data),
                     [Io(id, DrainEvent(s, id))])
  {
    hide Distinct, PollerShape, MapShape, L.Sound, Owned, About, Hits, Fit, Reported, Names.ConnName;
    var k := s.recs[id].loop;
    LoopExists(s, id);
    assert LoopShape(s.loops[k], s.active[k], |s.recs|);
    assert Good(s, id);
  }

  lemma ShutdownStage(s: Server, id: nat, k: nat, c: C.Conn<nat>, p: Poller<nat>, t: C.Task, events: seq<Occurrence>)
    requires Safe(s) && Stage(s, id, k, c, p, t, events) && c.state == C.Connected
    ensures var step := AppCall(id, C.AppShutdown);
            && Enabled(s, step) && InTime(s, step) && Placeable(s, step)
            && Stage(Next(s, step), id, k, c.(state := C.Disconnecting), p, t, events)
  {
    hide Distinct, LoopShape, PollerShape, MapShape, L.Sound, Good, L.QueueBy;
    assert Owned(s, id) by { UpOwned(s, id); }
    FirstPending(s.loops[k], C.Shutdown(Here(s, id)).q);
  }

  lemma DrainStage(s: Server, id: nat, k: nat, c: C.Conn<nat>, p: Poller<nat>, t: C.Task, e: C.Report)
    requires Safe(s) && Stage(s, id, k, c, p, t, [Io(id, e)]) && c.state == C.Disconnecting && c.out != []
    requires e.revents == {Out} && e.ans == Wrote(|c.out|)
    ensures var step, d := NextEvent(k), C.HandleWrite(C.World(c, p, []), e.ans);
            && Enabled(s, step) && InTime(s, step) && Placeable(s, step)
            && Stage(Next(s, step), id, k, d.c, d.p, t, [])
  {
    hide Distinct, LoopShape, PollerShape, MapShape, L.Sound, Good, L.QueueBy, C.HandleWrite, Owned, Posts;
    TakenKeeps(s, k);
    var v := Taken(s, k);
    var w := C.HandleWrite(Here(s, id), e.ans);
    assert C.HandleEvent(Here(s, id), e) == w;
    WriteClosesNothing(Here(s, id), e.ans);
    FirstPending(s.loops[k], w.q);
    assert Here(v, id) == Here(s, id);
    assert Dispatched(v, id, e) == Settle(v, id, w);
  }

  lemma SwapStage(s: Server, id: nat, k: nat, c: C.Conn<nat>, p: Poller<nat>, t: C.Task)
    requires Safe(s) && Stage(s, id, k, c, p, t, [])
    ensures var step := Swap(k); var u := Next(s, step);
            && Enabled(s, step) && InTime(s, step) && Placeable(s, step)
            && HasLoop(u, id) && k < |u.loops| && u.recs[id] == Rec(k, c) && u.pollers[k] == p
            && u.loops[k].phase == L.Running && u.loops[k].rest != [] && u.loops[k].rest[0] == t
  {
    hide Distinct, LoopShape, PollerShape, MapShape, L.Sound, Good, Owned;
  }

  lemma RefusedStage(s: Server, id: nat, k: nat, c: C.Conn<nat>, t: C.Task)
    requires Safe(s) && id < |s.recs| && k < |s.loops| && s.recs[id] == Rec(k, c) && !c.ch.IsWriting() && c.out == []
    requires s.loops[k].phase == L.Running && s.loops[k].rest != [] && s.loops[k].rest[0] == t && t.SendTask? && t.id == id
    ensures var step := RunFunctor(k, [], PeerGone);
            && Enabled(s, step) && InTime(s, step) && Placeable(s, step)
            && id < |Next(s, step).recs| && Next(s, step).recs[id].c == c
  {
    hide Distinct, LoopShape, PollerShape, MapShape, L.Sound, Good, Owned, C.SendInLoop, Posts;
    RunFunctorKeeps(s, k, [], PeerGone);
    C.SendRefused(Here(s, id), t.from, t.data);
  }

  lemma RunStep(s: Server, step: Step, rest: seq<Step>)
    requires Safe(s) && Enabled(s, step) && InTime(s, step)
    requires (StepSafe(s, step); IsRun(Next(s, step), rest) && Refusing(Next(s, step), rest))
    requires step.RunFunctor? ==> step.ans == PeerGone
    ensures IsRun(s, [step] + rest) && Refusing(s, [step] + rest)
    ensures (StepSafe(s, step); After(s, [step] + rest) == After(Next(s, step), rest))
  {
    hide Inv, FlightShape, Enabled, InTime, Next;
    assert ([step] + rest)[1..] == rest;
  }

  lemma StageDrains(s: Server, id: nat, k: nat, c: C.Conn<nat>, p: Poller<nat>, t: C.Task, events: seq<Occurrence>, ans: Answer)
    requires Safe(s) && Stage(s, id, k, c, p, t, events) && c.state == C.Disconnecting && c.out != [] && ans == Wrote(|c.out|)
    ensures var v := C.HandleWrite(C.World(c, p, []), ans);
            && v.c.out == [] && v.c.wire == c.wire + c.out && v.c.state == C.Disconnecting
            && v.c.fins == c.fins + [C.Fin(|c.wire| + |c.out|, true)] && v.c.log == c.log && !v.c.ch.IsWriting()
  {
    hide Shape, Good, Distinct, C.HandleWrite;
    UpOwned(s, id);
    C.DrainCloses(Here(s, id), ans);
  }

  /** A payload accepted while the connection is up can be dropped without any fault of the peer: the push comes,
      the application calls `shutdown`, the write event drains the buffer and half-closes, and the send functor,
      although queued before the shutdown functor, meets a socket already shut down. */
  lemma PayloadOvertaken(s: Server, id: nat, from: nat)
    requires AboutToOvertake(s, id, from)
    ensures var k, c := s.recs[id].loop, s.recs[id].c;
            var steps := [Proceed(from)] + ([AppCall(id, C.AppShutdown)] + ([NextEvent(k)] + ([Swap(k)] + ([RunFunctor(k, [], PeerGone)] + []))));
            && IsRun(s, steps) && Refusing(s, steps) && id < |After(s, steps).recs|
            && var d := After(s, steps).recs[id].c;
               && d.state == C.Disconnecting && d.log == c.log && d.wire == c.wire + c.out
               && d.fins == c.fins + [C.Fin(|c.wire| + |c.out|, true)]
  {
    hide Good, Distinct, Shape, FlightShape, Next, Enabled, InTime, Placeable, Stage, C.HandleWrite, Refuses;
    LoopExists(s, id);
    var k, c, p, e := s.recs[id].loop, s.recs[id].c, s.pollers[s.recs[id].loop], DrainEvent(s, id);
    var t, d := C.SendTask(id, from, s.flight[from].data), c.(state := C.Disconnecting);
    assert c == s.recs[id].c;
    PushStage(s, id, from);
    StepSafe(s, Proceed(from));
    var s1 := Next(s, Proceed(from));
    ShutdownStage(s1, id, k, c, p, t, [Io(id, e)]);
    StepSafe(s1, AppCall(id, C.AppShutdown));
    var s2 := Next(s1, AppCall(id, C.AppShutdown));
    DrainStage(s2, id, k, d, p, t, e);
    StageDrains(s2, id, k, d, p, t, [Io(id, e)], e.ans);
    StepSafe(s2, NextEvent(k));
    var s3 := Next(s2, NextEvent(k));
    var w := C.HandleWrite(C.World(d, p, []), e.ans);
    SwapStage(s3, id, k, w.c, w.p, t);
    StepSafe(s3, Swap(k));
    var s4 := Next(s3, Swap(k));
    RefusedStage(s4, id, k, w.c, t);
    StepSafe(s4, RunFunctor(k, [], PeerGone));
    RunStep(s4, RunFunctor(k, [], PeerGone), []);
    RunStep(s3, Swap(k), [RunFunctor(k, [], PeerGone)] + []);
    RunStep(s2, NextEvent(k), [Swap(k)] + ([RunFunctor(k, [], PeerGone)] + []));
    RunStep(s1, AppCall(id, C.AppShutdown), [NextEvent(k)] + ([Swap(k)] + ([RunFunctor(k, [], PeerGone)] + [])));
    RunStep(s, Proceed(from), [AppCall(id, C.AppShutdown)] + ([NextEvent(k)] + ([Swap(k)] + ([RunFunctor(k, [], PeerGone)] + []))));
  }
}
