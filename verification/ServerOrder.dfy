/** Per-sender order: the functor queue of a loop composed with the output stream of a connection. */
module ServerOrder {
  import opened Common
  import opened Pollers
  import opened ThreadPools
  import opened Servers
  import opened ServerInvariants
  import opened ServerSafety
  import opened ServerTheorems
  import opened ServerSends
  import Names
  import L = EventLoops
  import C = Connections

  /** The payloads thread `from` has queued for connection `id`, in the order of the queue. */
  function SentTo(q: seq<C.Task>, id: nat, from: nat): seq<seq<byte>> {
    if q == [] then [] else
      var t := q[|q| - 1];
      SentTo(q[..|q| - 1], id, from) + if t.SendTask? && t.id == id && t.from == from then [t.data] else []
  }

  lemma SentToGrows(q: seq<C.Task>, t: C.Task, id: nat, from: nat)
    ensures SentTo(q + [t], id, from)
         == SentTo(q, id, from) + if t.SendTask? && t.id == id && t.from == from then [t.data] else []
  {
    assert (q + [t])[..|q|] == q;
  }

  lemma {:induction false} SentToConcat(a: seq<C.Task>, b: seq<C.Task>, id: nat, from: nat)
    ensures SentTo(a + b, id, from) == SentTo(a, id, from) + SentTo(b, id, from)
    decreases |b|
  {
    if b == [] {
      assert a + b == a;
    } else {
      var init, t := b[..|b| - 1], b[|b| - 1];
      SentToConcat(a, init, id, from);
      SentToGrows(a + init, t, id, from);
      SentToGrows(init, t, id, from);
      assert b == init + [t] && a + b == (a + init) + [t];
      var last := if t.SendTask? && t.id == id && t.from == from then [t.data] else [];
      Regroup(SentTo(a, id, from), SentTo(init, id, from), last);
    }
  }

  lemma {:induction false} SentToNone(q: seq<C.Task>, id: nat, from: nat)
    requires NoSends(q)
    ensures SentTo(q, id, from) == []
    decreases |q|
  {
    if q != [] {
      assert q[|q| - 1] in q;
      SentToNone(q[..|q| - 1], id, from);
    }
  }

  lemma QuietSends(l: Loop, m: Loop, id: nat, from: nat)
    requires Quiet(l, m)
    ensures SentTo(m.queued, id, from) == SentTo(l.queued, id, from)
  {
    var more := m.queued[|l.queued|..];
    assert m.queued == l.queued + more;
    SentToConcat(l.queued, more, id, from);
    SentToNone(more, id, from);
    assert SentTo(l.queued, id, from) + [] == SentTo(l.queued, id, from);
  }

  // ------------------------------------------------------- what a step executes and queues

  /** A step executes the functor at the head of one batch, or none. */
  lemma ExecutedStep(s: Server, step: Step, j: nat)
    requires Inv(s) && Enabled(s, step) && Placeable(s, step) && j < |s.loops|
    ensures var u := Next(s, step);
            && j < |u.loops|
            && u.loops[j].executed ==
                 if step.RunFunctor? && step.k == j then s.loops[j].executed + [s.loops[j].rest[0]] else s.loops[j].executed
  {
    hide Good, Distinct, LoopShape, PollerShape, MapShape, Owned, FreshFd, Reportable, Next, NoSends;
    if PushesSend(s, step) {
      StepPushes(s, step);
    } else {
      StepQuiet(s, step);
      var t := if step.RunFunctor? then Popped(s, step.k) else s;
      assert Quiet(t.loops[j], Next(s, step).loops[j]);
    }
  }

  /** What thread `from` has begun to send to `id` and not yet queued. */
  ghost function Begun(s: Server, id: nat, from: nat): seq<seq<byte>> {
    if from in s.flight && s.flight[from].SendCall? && s.flight[from].id == id then [s.flight[from].data] else []
  }

  /** The payload thread `from` sends to `id` in this step, if its call finds the connection connected. */
  ghost function SentNow(s: Server, step: Step, id: nat, from: nat): seq<seq<byte>> {
    if step.RemoteSend? && step.id == id && step.from == from && id < |s.recs| && s.recs[id].c.state == C.Connected
    then [step.data] else []
  }

  /** The payloads of the calls of `send` that thread `from` makes on `id` during the run and that find the
      connection connected, in the order of the calls. */
  ghost function Accepted(s: Server, steps: seq<Step>, id: nat, from: nat): seq<seq<byte>>
    requires Safe(s) && IsRun(s, steps)
    decreases |steps|
  {
    if steps == [] then [] else
      StepSafe(s, steps[0]);
      SentNow(s, steps[0], id, from) + Accepted(Next(s, steps[0]), steps[1..], id, from)
  }

  lemma SentStep(s: Server, step: Step, id: nat, from: nat)
    requires Inv(s) && Enabled(s, step) && Placeable(s, step)
    ensures var u, k := Next(s, step), LoopOf(|s.loops| - 1, id);
            && |u.loops| == |s.loops|
            && SentTo(u.loops[k].queued, id, from) + Begun(u, id, from)
                 == SentTo(s.loops[k].queued, id, from) + Begun(s, id, from) + SentNow(s, step, id, from)
  {
    hide Good, Distinct, LoopShape, PollerShape, MapShape, Owned, FreshFd, Reportable, Next, NoSends, SentTo;
    StepFlight(s, step);
    var u, k := Next(s, step), LoopOf(|s.loops| - 1, id);
    if PushesSend(s, step) {
      StepPushes(s, step);
      var call := s.flight[step.from];
      SentToGrows(s.loops[k].queued, C.SendTask(call.id, step.from, call.data), id, from);
    } else {
      StepQuiet(s, step);
      var t := if step.RunFunctor? then Popped(s, step.k) else s;
      assert Quiet(t.loops[k], u.loops[k]);
      QuietSends(t.loops[k], u.loops[k], id, from);
    }
  }

  /** What a thread has queued on the loop of a connection, followed by what it has begun to send, is exactly what
      it has sent, in the order of its calls. */
  lemma {:induction false} SentRun(s: Server, steps: seq<Step>, id: nat, from: nat)
    requires Safe(s) && IsRun(s, steps)
    ensures var u, k := After(s, steps), LoopOf(|s.loops| - 1, id);
            && |u.loops| == |s.loops|
            && SentTo(u.loops[k].queued, id, from) + Begun(u, id, from)
                 == SentTo(s.loops[k].queued, id, from) + Begun(s, id, from) + Accepted(s, steps, id, from)
    decreases |steps|
  {
    hide Good, Distinct, LoopShape, PollerShape, MapShape, Owned, Enabled, Next, SentTo, Begun, SentNow, InTime;
    var k := LoopOf(|s.loops| - 1, id);
    var first := SentTo(s.loops[k].queued, id, from) + Begun(s, id, from);
    if steps == [] {
      assert first + [] == first;
    } else {
      StepSafe(s, steps[0]);
      var t := Next(s, steps[0]);
      SentStep(s, steps[0], id, from);
      SentRun(t, steps[1..], id, from);
      Regroup(first, SentNow(s, steps[0], id, from), Accepted(t, steps[1..], id, from));
    }
  }

  // ------------------------------------------------------------------ what a step logs

  lemma EventLogs(s: Server, k: nat, id: nat, from: nat)
    requires Inv(s) && Enabled(s, NextEvent(k)) && Placeable(s, NextEvent(k)) && id < |s.recs| && from > 0
    ensures var u := Next(s, NextEvent(k));
            id < |u.recs| && C.From(u.recs[id].c.log, from) == C.From(s.recs[id].c.log, from)
  {
    hide Good, Distinct, LoopShape, PollerShape, MapShape, L.Sound, Posts, L.QueueBy, Owned, FreshFd, C.From,
         NewConnection, Dispatched, C.HandleEvent;
    TakenKeeps(s, k);
    var t := Taken(s, k);
    match s.active[k][0] {
      case Wake =>
      case Accept(_, _, _, _, _) => AcceptRecords(t, s.active[k][0], id);
      case Io(other, e) =>
        DispatchLater(t, other, e);
        C.HandleEventLogs(Here(t, other), e, from);
    }
  }

  lemma FunctorPlaced(s: Server, k: nat)
    requires Inv(s) && k < |s.loops| && L.Enabled(s.loops[k], L.RunNext)
    ensures s.loops[k].rest[0].id < |s.recs|
    ensures s.loops[k].rest[0].DestroyTask? ==> s.recs[s.loops[k].rest[0].id].c.state == C.Disconnected
  {
    hide Good, L.Next, About, L.Sound, LoopShape, PollerShape, MapShape, Owned;
    HeadMine(s, k);
    HeadPlaced(s, k, s.loops[k].rest[0], Mine(Popped(s, k), k, s.loops[k].rest[0].id));
  }

  lemma ShutdownLogs(w: C.World<nat>)
    ensures C.ShutdownInLoop(w).c.log == w.c.log
  {
  }

  lemma DestroyLogs(w: C.World<nat>, ops: seq<C.AppOp>)
    requires w.c.state == C.Disconnected
    ensures C.Destroy(w, ops).c.log == w.c.log
  {
    hide Removed;
  }

  lemma FunctorLogs(s: Server, k: nat, ops: seq<C.AppOp>, ans: Answer, id: nat, from: nat)
    requires Inv(s) && k < |s.loops| && s.loops[k].phase == L.Running && s.loops[k].rest != [] && id < |s.recs| && from > 0
    requires RightLoop(s, k, s.loops[k].rest[0])
    ensures L.Enabled(s.loops[k], L.RunNext) && CanPost(s.loops[k])
    ensures var t := s.loops[k].rest[0]; var u := Performed(Popped(s, k), t, ops, ans);
            && id < |u.recs|
            && (C.From(u.recs[id].c.log, from) == C.From(s.recs[id].c.log, from)
                || (k == s.recs[id].loop && t.SendTask? && t.id == id && t.from == from
                    && C.From(u.recs[id].c.log, from) == C.From(s.recs[id].c.log, from) + [t.data]))
  {
    hide Good, Distinct, LoopShape, PollerShape, MapShape, L.Sound, Posts, L.QueueBy, Owned, C.From;
    hide C.SendInLoop, C.Establish, C.ShutdownInLoop, C.Destroy, L.Next;
    RunFunctorKeeps(s, k, ops, ans);
    FunctorLater(s, k, ops, ans);
    var t := s.loops[k].rest[0];
    var h := Here(Popped(s, k), t.id);
    match t {
      case EstablishTask(other) => C.EstablishLogs(h, ops, from);
      case SendTask(other, sender, data) =>
        C.SendLogs(h, sender, data, ans);
        C.FromGrows(h.c.log, C.Sent(sender, data), from);
      case ShutdownTask(other) => ShutdownLogs(h);
      case DestroyTask(other) =>
        FunctorPlaced(s, k);
        DestroyLogs(h, ops);
      case _ =>
    }
  }

  lemma LogStep(s: Server, step: Step, id: nat, from: nat)
    requires Inv(s) && Enabled(s, step) && Placeable(s, step) && id < |s.recs| && from > 0
    ensures var u := Next(s, step);
            && id < |u.recs|
            && (C.From(u.recs[id].c.log, from) == C.From(s.recs[id].c.log, from)
                || (step.RunFunctor? && step.k == s.recs[id].loop && var t := s.loops[step.k].rest[0];
                    && t.SendTask? && t.id == id && t.from == from
                    && C.From(u.recs[id].c.log, from) == C.From(s.recs[id].c.log, from) + [t.data]))
  {
    hide Good, Distinct, LoopShape, PollerShape, MapShape, L.Sound, Posts, L.QueueBy, Owned, FreshFd,
         Reportable, C.From;
    hide Performed, Dispatched, NewConnection, C.AppCall, L.Next;
    match step {
      case NextEvent(k) => EventLogs(s, k, id, from);
      case RunFunctor(k, ops, ans) => FunctorLogs(s, k, ops, ans, id, from);
      case AppCall(other, op) =>
        C.AppCallLogs(Here(s, other), op, from);
      case _ =>
    }
  }

  // ------------------------------------------------------------------------ the order

  ghost predicate InOrder(s: Server, id: nat, from: nat)
    requires Shape(s) && id < |s.recs|
  {
    Subsequence(C.From(s.recs[id].c.log, from), SentTo(s.loops[s.recs[id].loop].executed, id, from))
  }

  lemma InOrderStep(s: Server, step: Step, id: nat, from: nat)
    requires Safe(s) && Enabled(s, step) && InTime(s, step) && id < |s.recs| && from > 0 && InOrder(s, id, from)
    ensures Placeable(s, step) && Inv(Next(s, step)) && id < |Next(s, step).recs| && InOrder(Next(s, step), id, from)
  {
    hide Good, Distinct, LoopShape, PollerShape, MapShape, Later, Next, C.From, SentTo, Subsequence, Owned,
         Reportable, FreshFd;
    StepSafe(s, step);
    RecordStep(s, step, id);
    LogStep(s, step, id, from);
    var k := s.recs[id].loop;
    ExecutedStep(s, step, k);
    var log, sent := C.From(s.recs[id].c.log, from), SentTo(s.loops[k].executed, id, from);
    if step.RunFunctor? && step.k == k {
      var t := s.loops[k].rest[0];
      SentToGrows(s.loops[k].executed, t, id, from);
      if t.SendTask? && t.id == id && t.from == from {
        SubsequenceSkip(log, sent, t.data);
        SubsequenceKeep(log, sent, t.data);
      } else {
        assert sent + [] == sent;
      }
    }
  }

  lemma DispatchedCount(s: Server, id: nat, e: C.Report)
    requires HasLoop(s, id) && CanPost(s.loops[s.recs[id].loop])
    ensures |Dispatched(s, id, e).recs| == |s.recs|
  {
    hide C.HandleEvent, Posts, L.QueueBy;
  }

  lemma OnlyAcceptAdds(s: Server, step: Step)
    requires Inv(s) && Enabled(s, step) && Placeable(s, step) && |Next(s, step).recs| > |s.recs|
    ensures step.NextEvent? && s.active[step.k][0].Accept?
  {
    hide Good, Distinct, LoopShape, PollerShape, MapShape, Owned, FreshFd, Reportable, Posts, L.QueueBy, L.Next,
         L.Sound, C.AppCall;
    hide Dispatched, NewConnection, Performed;
    match step {
      case NextEvent(k) =>
        TakenKeeps(s, k);
        if s.active[k][0].Io? {
          DispatchedCount(Taken(s, k), s.active[k][0].id, s.active[k][0].e);
        }
      case RunFunctor(k, ops, ans) =>
        RunFunctorKeeps(s, k, ops, ans);
        FunctorLater(s, k, ops, ans);
      case _ =>
    }
  }

  /** A connection that has just been accepted has logged nothing of another thread. */
  lemma NewLogs(s: Server, e: Occurrence, from: nat)
    requires e.Accept? && 0 < |s.loops| == |s.pollers| && NextInRange(s) && CanPost(s.loops[0]) && from > 0
    ensures var u, id := NewConnection(s, e), |s.recs|;
            |u.recs| == id + 1 && C.From(u.recs[id].c.log, from) == []
  {
    hide C.Establish, Posts, L.QueueBy, Names.ConnName;
    var t, id := Entered(s, e), |s.recs|;
    if t.recs[id].loop == 0 {
      C.EstablishLogs(Here(t, id), e.ops, from);
    }
  }

  lemma NewInOrder(s: Server, step: Step, id: nat, from: nat)
    requires Inv(s) && Enabled(s, step) && Placeable(s, step) && |s.recs| <= id < |Next(s, step).recs| && from > 0
    requires Shape(Next(s, step))
    ensures InOrder(Next(s, step), id, from)
  {
    hide Good, Distinct, LoopShape, PollerShape, MapShape, SentTo, Owned, FreshFd, NewConnection, C.From,
         Dispatched, Performed, L.Next;
    OnlyAcceptAdds(s, step);
    TakenKeeps(s, step.k);
    NewLogs(Taken(s, step.k), s.active[step.k][0], from);
  }

  lemma {:induction false} InOrderRun(s: Server, steps: seq<Step>, id: nat, from: nat)
    requires Safe(s) && IsRun(s, steps) && from > 0 && id < |After(s, steps).recs|
    requires forall other | 0 <= other < |s.recs| :: InOrder(s, other, from)
    ensures InOrder(After(s, steps), id, from)
    decreases |steps|
  {
    hide Good, Distinct, LoopShape, PollerShape, MapShape, Next, InOrder, Owned, Enabled, InTime;
    if steps != [] {
      StepSafe(s, steps[0]);
      var t := Next(s, steps[0]);
      forall other | 0 <= other < |t.recs| ensures InOrder(t, other, from) {
        if other < |s.recs| {
          InOrderStep(s, steps[0], other, from);
        } else {
          NewInOrder(s, steps[0], other, from);
        }
      }
      InOrderRun(t, steps[1..], id, from);
    }
  }

  lemma StartSends(form: Form, name: string, ipPort: string, subLoops: nat, id: nat, from: nat)
    ensures var s := Start(form, name, ipPort, subLoops); var k := LoopOf(subLoops, id);
            |s.loops| == subLoops + 1
            && forall more: seq<seq<byte>> :: SentTo(s.loops[k].queued, id, from) + Begun(s, id, from) + more == more
  {
  }

  lemma TraceReaches(form: Form, name: string, ipPort: string, subLoops: nat, steps: seq<Step>, u: Server)
    requires |ipPort| <= 51 && Trace(form, name, ipPort, subLoops, steps, u)
    ensures Reachable(u)
  {
    hide Trace;
  }

  lemma AllSent(form: Form, name: string, ipPort: string, subLoops: nat, steps: seq<Step>, u: Server, id: nat, from: nat)
    requires |ipPort| <= 51 && Trace(form, name, ipPort, subLoops, steps, u) && id < |u.recs|
    ensures Safe(Start(form, name, ipPort, subLoops)) && IsRun(Start(form, name, ipPort, subLoops), steps)
    ensures u.recs[id].loop < |u.loops|
    ensures SentTo(u.loops[u.recs[id].loop].queued, id, from) + Begun(u, id, from)
         == Accepted(Start(form, name, ipPort, subLoops), steps, id, from)
  {
    hide Good, Distinct, LoopShape, PollerShape, MapShape, SentTo, Owned, Begun, Accepted;
    StartSafe(form, name, ipPort, subLoops);
    SentRun(Start(form, name, ipPort, subLoops), steps, id, from);
    StartSends(form, name, ipPort, subLoops, id, from);
  }

  lemma QueuedInOrder(u: Server, id: nat, from: nat)
    requires Inv(u) && id < |u.recs| && InOrder(u, id, from)
    ensures u.recs[id].loop < |u.loops|
    ensures Subsequence(C.From(u.recs[id].c.log, from),
                        SentTo(u.loops[u.recs[id].loop].queued, id, from) + Begun(u, id, from))
  {
    hide Good, Distinct, PollerShape, MapShape, C.From, SentTo, Subsequence, Owned, Begun;
    var l, log := u.loops[u.recs[id].loop], C.From(u.recs[id].c.log, from);
    assert LoopShape(l, u.active[u.recs[id].loop], |u.recs|);
    SentToConcat(l.executed, l.rest + l.pending, id, from);
    assert l.executed + (l.rest + l.pending) == l.queued;
    SubsequenceExtend(log, SentTo(l.executed, id, from), SentTo(l.rest + l.pending, id, from));
    SubsequenceExtend(log, SentTo(l.queued, id, from), Begun(u, id, from));
  }

  lemma StartInOrder(form: Form, name: string, ipPort: string, subLoops: nat, steps: seq<Step>, u: Server, id: nat, from: nat)
    requires |ipPort| <= 51 && Trace(form, name, ipPort, subLoops, steps, u) && id < |u.recs| && from > 0
    ensures Shape(u) && InOrder(u, id, from)
  {
    hide Good, Distinct, LoopShape, PollerShape, MapShape, Owned, InOrder;
    StartSafe(form, name, ipPort, subLoops);
    InOrderRun(Start(form, name, ipPort, subLoops), steps, id, from);
  }

  /** Per-sender order. In every reachable state, what one remote thread has queued for a connection, followed by
      what it has begun to send, is exactly the payloads of its calls that found the connection connected, in the
      order of the calls; the payloads the connection has taken into its output are, in order, among them; and in
      the intended form the bytes on the wire followed by the buffer are exactly the payloads taken. */
  lemma SenderOrder(form: Form, name: string, ipPort: string, subLoops: nat, steps: seq<Step>, u: Server,
                    id: nat, from: nat)
    requires |ipPort| <= 51 && Trace(form, name, ipPort, subLoops, steps, u) && id < |u.recs| && from > 0
    ensures Shape(u) && Safe(Start(form, name, ipPort, subLoops)) && IsRun(Start(form, name, ipPort, subLoops), steps)
    ensures var sent := Accepted(Start(form, name, ipPort, subLoops), steps, id, from);
            && SentTo(u.loops[u.recs[id].loop].queued, id, from) + Begun(u, id, from) == sent
            && Subsequence(C.From(u.recs[id].c.log, from), sent)
    ensures u.recs[id].c.form == AsIntended ==> u.recs[id].c.wire + u.recs[id].c.out == C.Payload(u.recs[id].c.log)
  {
    hide Good, Distinct, Shape, C.From, SentTo, Subsequence, Owned, C.Payload, Reachable, Begun, Accepted, C.Clean, InOrder,
         IsRun;
    assert Reachable(u) by { TraceReaches(form, name, ipPort, subLoops, steps, u); }
    ReachableInv(u);
    ConnectionBooks(u, id);
    AllSent(form, name, ipPort, subLoops, steps, u, id, from);
    StartInOrder(form, name, ipPort, subLoops, steps, u, id, from);
    QueuedInOrder(u, id, from);
  }
}
