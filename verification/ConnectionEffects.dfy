/** What calls and reports bring about on a connection: payloads that enter the output, functors that reach the
    queue, callbacks that run, closes and half-closes that happen. */
module ConnectionEffects {
  import opened Common
  import opened Pollers
  import opened Connections

  // ---------------------------------------------------------------- sends on the own loop

  /** A direct write that finds the peer gone. */
  predicate Faults<K>(c: Conn<K>, ans: Answer) {
    !c.ch.IsWriting() && c.out == [] && ans == PeerGone
  }

  /** A `send` on a connected connection appends exactly its payload to the log, on behalf of the own loop, unless a
      direct write finds the peer gone; then it changes nothing. */
  lemma SendAccepted<K>(w: World<K>, data: seq<byte>, ans: Answer)
    requires Live(w) && w.c.state == Connected
    ensures var v := AppCall(w, AppSend(data, ans));
            && v.c.state == Connected
            && (if Faults(w.c, ans) then v == w else v.c.log == w.c.log + [Sent(0, data)])
  {
    hide SendInLoop, Registered, FdMine, Balanced, MarksCounted;
    ConnectedNoFin(w);
    SendInLoopKeeps(w, 0, data, ans);
    SendLogsIff(w, 0, data, ans);
    if Faults(w.c, ans) {
      SendRefused(w, 0, data);
    }
  }

  /** The payload of a call that finds the connection connected, unless the write faults. */
  function OwnSend<K>(w: World<K>, op: AppOp): seq<seq<byte>> {
    if op.AppSend? && w.c.state == Connected && !Faults(w.c, op.ans) then [op.data] else []
  }

  /** The payloads of a callback's calls, in the order of the calls. */
  function OwnSends<K>(w: World<K>, ops: seq<AppOp>): seq<seq<byte>> {
    if ops == [] then [] else
      OwnSends(w, ops[..|ops| - 1]) + OwnSend(AppCalls(w, ops[..|ops| - 1]), ops[|ops| - 1])
  }

  lemma AppCallOwn<K>(w: World<K>, op: AppOp)
    requires Live(w)
    ensures From(AppCall(w, op).c.log, 0) == From(w.c.log, 0) + OwnSend(w, op)
  {
    hide SendInLoop, Registered, FdMine, Sane, From;
    assert From(w.c.log, 0) + [] == From(w.c.log, 0);
    if op.AppSend? && w.c.state == Connected {
      SendAccepted(w, op.data, op.ans);
      FromGrows(w.c.log, Sent(0, op.data), 0);
    }
  }

  lemma {:induction false} AppCallsOwn<K>(w: World<K>, ops: seq<AppOp>)
    requires Live(w)
    ensures From(AppCalls(w, ops).c.log, 0) == From(w.c.log, 0) + OwnSends(w, ops)
    decreases |ops|
  {
    hide AppCall, From, Live, Follows, OwnSend;
    if ops == [] {
      assert From(w.c.log, 0) + [] == From(w.c.log, 0);
    } else {
      var init := ops[..|ops| - 1];
      AppCallsOwn(w, init);
      AppCallsKeep(w, init);
      AppCallOwn(AppCalls(w, init), ops[|ops| - 1]);
      Regroup(From(w.c.log, 0), OwnSends(w, init), OwnSend(AppCalls(w, init), ops[|ops| - 1]));
    }
  }

  // ----------------------------------------------------------- shutdown on the own loop

  /** How many of the functors half-close. */
  function Shutdowns(q: seq<Task>): nat {
    if q == [] then 0 else Shutdowns(q[..|q| - 1]) + if q[|q| - 1].ShutdownTask? then 1 else 0
  }

  /** `shutdown` on a connected connection leaves exactly one new functor, the half-close of this connection; on any
      other it does nothing. */
  lemma ShutdownQueues<K>(w: World<K>)
    ensures var v := AppCall(w, AppShutdown);
            if w.c.state == Connected then v == w.(c := w.c.(state := Disconnecting), q := w.q + [ShutdownTask(w.c.id)])
            else v == w
  {
  }

  lemma {:induction false} ShutdownsConcat(a: seq<Task>, b: seq<Task>)
    ensures Shutdowns(a + b) == Shutdowns(a) + Shutdowns(b)
    decreases |b|
  {
    if b == [] {
      assert a + b == a;
    } else {
      assert (a + b)[..|a + b| - 1] == a + b[..|b| - 1];
      ShutdownsConcat(a, b[..|b| - 1]);
    }
  }

  // --------------------------------------------------------------- functors a send queues

  lemma SameQueue<K>(w: World<K>, data: seq<byte>, ans: Answer, s: Sent, n: nat)
    requires n <= |s.data|
    ensures var r := Recorded(Noted(w, data, ans), s, n);
            && r.q == w.q && r.c.out == w.c.out && r.c.mark == w.c.mark && r.c.hasMark == w.c.hasMark
            && r.c.id == w.c.id && r.c.hasWrite == w.c.hasWrite && r.c.form == w.c.form
  {
  }

  lemma KeepRestQueues<K>(w: World<K>, rest: seq<byte>)
    ensures var v := KeepRest(w, rest);
            v.q == w.q + if Crosses(w.c, |rest|) then [HighWaterTask(w.c.id, |w.c.out| + |rest|)] else []
  {
    hide SetEvents;
  }

  lemma AllWrittenQueues<K>(w: World<K>, atOnce: bool)
    ensures AllWritten(w, atOnce).q == w.q + if atOnce && w.c.hasWrite then [WriteCompleteTask(w.c.id)] else []
  {
  }

  /** A payload that the kernel takes whole at once queues the write-complete functor, if that callback is set; a rest
      that lifts the buffered length over the mark queues the high-water functor, and the level it carries is the
      length the call leaves in the buffer; nothing else is queued. */
  lemma SendQueues<K>(w: World<K>, from: nat, data: seq<byte>, ans: Answer)
    requires w.c.state != Disconnected
    ensures var v := SendInLoop(w, from, data, ans); var n := Written(w.c, data, ans);
            var whole := !w.c.ch.IsWriting() && w.c.out == [] && ans.Wrote? && n == |data|;
            var rises := w.c.hasMark && |w.c.out| < w.c.mark <= |v.c.out|;
            v.q == w.q + if whole && w.c.hasWrite then [WriteCompleteTask(w.c.id)]
                         else if rises then [HighWaterTask(w.c.id, |v.c.out|)] else []
  {
    hide KeepRest, Recorded, Noted, AllWritten;
    SendBytes(w, from, data, ans);
    var n := Written(w.c, data, ans);
    var x := Noted(w, data, ans);
    var r := Recorded(x, Sent(from, data), n);
    RecordedShape(x, Sent(from, data), n);
    SameQueue(w, data, ans, Sent(from, data), n);
    assert w.q + [] == w.q && data[|data|..] == [];
    if n < |data| {
      KeepRestQueues(r, data[n..]);
    } else {
      AllWrittenQueues(r, !w.c.ch.IsWriting() && w.c.out == [] && ans.Wrote?);
    }
  }

  lemma AppCallShutdown<K>(w: World<K>, op: AppOp)
    requires Live(w) && (w.c.state == Connected || w.c.state == Disconnecting)
    ensures var v := AppCall(w, op); var does := op.AppShutdown? && w.c.state == Connected;
            && v.c.state == (if does then Disconnecting else w.c.state)
            && w.q <= v.q && Shutdowns(v.q[|w.q|..]) == if does then 1 else 0
  {
    hide SendInLoop, Registered, FdMine, Sane;
    assert w.q[|w.q|..] == [];
    match op {
      case AppSend(data, ans) =>
        if w.c.state == Connected {
          SendQueues(w, 0, data, ans);
          SendBytes(w, 0, data, ans);
          var v := AppCall(w, op);
          assert v.q == w.q + v.q[|w.q|..];
          assert forall t: Task :: [t][..0] == [];
        }
      case AppShutdown =>
        if w.c.state == Connected {
          assert (w.q + [ShutdownTask(w.c.id)])[|w.q|..] == [ShutdownTask(w.c.id)];
          assert [ShutdownTask(w.c.id)][..0] == [];
        }
    }
  }

  lemma {:induction false} AppCallsShutdown<K>(w: World<K>, ops: seq<AppOp>)
    requires Live(w) && w.c.state == Connected
    ensures var v := AppCalls(w, ops);
            && v.c.state == (if AppShutdown in ops then Disconnecting else Connected)
            && w.q <= v.q && Shutdowns(v.q[|w.q|..]) == if AppShutdown in ops then 1 else 0
    decreases |ops|
  {
    hide AppCall, Live, Follows;
    if ops == [] {
      assert w.q[|w.q|..] == [];
    } else {
      var init, op := ops[..|ops| - 1], ops[|ops| - 1];
      assert ops == init + [op];
      AppCallsShutdown(w, init);
      AppCallsKeep(w, init);
      var u := AppCalls(w, init);
      AppCallShutdown(u, op);
      var v := AppCall(u, op);
      assert v.q[|w.q|..] == u.q[|w.q|..] + v.q[|u.q|..];
      ShutdownsConcat(u.q[|w.q|..], v.q[|u.q|..]);
    }
  }

  // -------------------------------------------------------------------------- dispatching

  /** Reports that close the connection: a hang-up without input, or input that turns out to be the end of file. */
  predicate Closes(e: Report) {
    (Hup in e.revents && In !in e.revents) || ((In in e.revents || Pri in e.revents) && e.read.Eof?)
  }

  /** Reports that bring bytes, and so run the message callback. */
  predicate Delivers(e: Report) {
    (In in e.revents || Pri in e.revents) && e.read.Bytes?
  }

  lemma SingleCloses<K>(w: World<K>, e: Report)
    requires Live(w) && Up(w) && Closes(e) && SingleClose(e)
    ensures var v := HandleEvent(w, e);
            Live(v) && Down(v) && v.c.ch.fd !in v.p.kernel
  {
    hide HandleClose, HandleWrite, AppCalls, Sane;
    if Hup in e.revents && In !in e.revents {
      HandleCloseKeeps(w, e.hupOps);
      DownIdle(HandleClose(w, e.hupOps), if e.read.Eof? then ReadError else e.read, e.ans);
    } else {
      HandleCloseKeeps(w, e.read.ops);
      DownIdle(HandleClose(w, e.read.ops), ReadError, e.ans);
    }
  }

  /** The connection once the message callback of a report has made its calls. */
  function Called<K>(w: World<K>, e: Report): World<K> {
    if Delivers(e) then AppCalls(w, e.read.ops) else w
  }

  /** A report that does not close runs the message callback exactly when it brings bytes, then the write handler
      exactly when the socket is writable. */
  lemma ReportRuns<K>(w: World<K>, e: Report)
    requires !Closes(e)
    ensures HandleEvent(w, e) == if Out in e.revents then HandleWrite(Called(w, e), e.ans) else Called(w, e)
  {
    hide HandleClose, HandleWrite, AppCalls;
  }

  lemma StaysUp<K>(w: World<K>, e: Report)
    requires Live(w) && Up(w) && !Closes(e)
    ensures Live(HandleEvent(w, e)) && Up(HandleEvent(w, e))
  {
    hide HandleClose, HandleWrite, AppCalls, Sane, Registered, FdMine, Follows;
    var u := Called(w, e);
    ReportRuns(w, e);
    if Delivers(e) {
      AppCallsKeep(w, e.read.ops);
    }
    HandleWriteKeeps(u, e.ans);
  }

  /** A report closes a connection that is up if and only if it closes. */
  lemma ClosesIff<K>(w: World<K>, e: Report)
    requires Live(w) && Up(w)
    ensures var v := HandleEvent(w, e);
            && (v.c.state == Disconnected <==> Closes(e))
            && (Closes(e) && SingleClose(e) ==> v.c.closes == 1 && v.c.downs == 1 && v.c.ch.index == Del && v.c.ch.fd !in v.p.kernel)
            && (!Closes(e) ==> v.c.closes == 0 && v.c.downs == 0 && v.c.ch.fd in v.p.kernel)
  {
    hide HandleClose, HandleWrite, AppCalls, Sane;
    if Closes(e) {
      SingleCloseIff(w, e);
      if SingleClose(e) {
        SingleCloses(w, e);
      }
    } else {
      StaysUp(w, e);
    }
  }

  /** The payloads of the calls a report's message callback makes while the connection is connected. */
  function EventSends<K>(w: World<K>, e: Report): seq<seq<byte>> {
    if Delivers(e) && !Closes(e) then OwnSends(w, e.read.ops) else []
  }

  lemma CloseKeepsLog<K>(w: World<K>, ops: seq<AppOp>)
    ensures HandleClose(w, ops).c.log == w.c.log
  {
    hide SetEvents;
    var v := Interest(w.(c := w.c.(state := Disconnected)), NONE_EVENT);
    AppCallsIdle(v.(c := v.c.(downs := v.c.downs + 1)), ops);
  }

  lemma CloseLogs<K>(w: World<K>, e: Report)
    requires Live(w) && Up(w) && Closes(e) && SingleClose(e)
    ensures HandleEvent(w, e).c.log == w.c.log
  {
    hide HandleWrite, AppCalls, Sane, HandleClose;
    var ops := if Hup in e.revents && In !in e.revents then e.hupOps else e.read.ops;
    HandleCloseKeeps(w, ops);
    CloseKeepsLog(w, ops);
    DownIdle(HandleClose(w, ops), if e.read.Eof? then ReadError else e.read, e.ans);
  }

  /** Whatever a report brings: the calls of the message callback take effect on state and log, whether or not bytes
      are written in the same dispatch, and a closed connection takes no payload. */
  lemma ReportTakesEffect<K>(w: World<K>, e: Report)
    requires Live(w) && Up(w) && SingleClose(e)
    ensures var v := HandleEvent(w, e);
            && From(v.c.log, 0) == From(w.c.log, 0) + EventSends(w, e)
            && (!Closes(e) && w.c.state == Connected ==>
                  v.c.state == if Delivers(e) && AppShutdown in e.read.ops then Disconnecting else Connected)
            && (!Closes(e) && Out !in e.revents ==> v == Called(w, e))
  {
    hide HandleClose, HandleWrite, AppCalls, Sane, Registered, FdMine, Follows, From, OwnSends;
    assert From(w.c.log, 0) + [] == From(w.c.log, 0);
    if Closes(e) {
      CloseLogs(w, e);
    } else {
      ReportRuns(w, e);
      if Delivers(e) {
        AppCallsKeep(w, e.read.ops);
        AppCallsOwn(w, e.read.ops);
        if w.c.state == Connected {
          AppCallsShutdown(w, e.read.ops);
        }
      }
      HandleWriteKeeps(Called(w, e), e.ans);
    }
  }

  lemma NoCalls<K>(w: World<K>)
    ensures AppCalls(w, []) == w
  {
  }

  /** A connection is established exactly once its callback's calls count too. */
  lemma EstablishTakesEffect<K>(w: World<K>, ops: seq<AppOp>)
    requires Idle(w)
    ensures var v := Establish(w, ops);
            && From(v.c.log, 0) == From(w.c.log, 0) + OwnSends(Opened(w), ops)
            && v.c.state == (if AppShutdown in ops then Disconnecting else Connected) && v.c.ups == 1
  {
    hide Sane, Registered, FdMine, Follows, From, AppCalls, SetEvents, OwnSends;
    EstablishKeeps(w, []);
    EstablishKeeps(w, ops);
    NoCalls(Opened(w));
    AppCallsOwn(Opened(w), ops);
    AppCallsShutdown(Opened(w), ops);
  }

  // ----------------------------------------------------------------------------- whole runs

  function ActSends<K>(w: World<K>, a: Act): seq<seq<byte>> {
    match a
    case Call(op) => OwnSend(w, op)
    case Dispatch(e) => EventSends(w, e)
    case _ => []
  }

  /** The payloads the application sends on the own loop during the run while the connection is connected, in the
      order of the calls, but for those whose direct write finds the peer gone. */
  ghost function RunSends<K>(w: World<K>, acts: seq<Act>): seq<seq<byte>>
    decreases |acts|
  {
    if acts == [] then [] else ActSends(w, acts[0]) + RunSends(Apply(w, acts[0]), acts[1..])
  }

  lemma ApplyOwn<K>(w: World<K>, a: Act)
    requires Live(w) && Allowed(w, a) && (a.RunSend? ==> a.from > 0)
    ensures From(Apply(w, a).c.log, 0) == From(w.c.log, 0) + ActSends(w, a)
  {
    hide AppCall, HandleEvent, SendInLoop, Sane, Registered, FdMine, From, OwnSends, EventSends;
    assert From(w.c.log, 0) + [] == From(w.c.log, 0);
    match a
    case Call(op) => AppCallOwn(w, op);
    case RunSend(from, data, ans) =>
      SendLogs(w, from, data, ans);
      FromGrows(w.c.log, Sent(from, data), 0);
    case RunShutdown =>
    case Dispatch(e) => ReportTakesEffect(w, e);
  }

  /** Over every run, the payloads the connection has taken on behalf of its own loop are exactly those of the
      application's calls made while connected, in the order of the calls, less the faulted ones. */
  lemma {:induction false} OwnSendsLogged<K>(w: World<K>, acts: seq<Act>)
    requires Live(w) && IsRun(w, acts) && forall a | a in acts && a.RunSend? :: a.from > 0
    ensures From(After(w, acts).c.log, 0) == From(w.c.log, 0) + RunSends(w, acts)
    decreases |acts|
  {
    hide Apply, Live, Follows, Allowed, From, ActSends;
    if acts == [] {
      assert From(w.c.log, 0) + [] == From(w.c.log, 0);
    } else {
      var v := Apply(w, acts[0]);
      assert acts[0] in acts && forall a | a in acts[1..] :: a in acts;
      ApplyKeeps(w, acts[0]);
      ApplyOwn(w, acts[0]);
      OwnSendsLogged(v, acts[1..]);
      Regroup(From(w.c.log, 0), ActSends(w, acts[0]), RunSends(v, acts[1..]));
    }
  }

  // ---------------------------------------------------------------- a half-close that is due

  /** `shutdown` was called, nothing is left to write, and no half-close has been issued. */
  ghost predicate Due<K>(c: Conn<K>) {
    c.state == Disconnecting && c.out == [] && c.fins == []
  }

  /** Nothing makes a half-close due without queueing the functor that issues it. */
  ghost predicate Promises<K>(w: World<K>, v: World<K>)
    requires |w.q| <= |v.q|
  {
    Due(v.c) ==> Due(w.c) || ShutdownTask(w.c.id) in v.q[|w.q|..]
  }

  lemma SendPromises<K>(w: World<K>, from: nat, data: seq<byte>, ans: Answer)
    requires Live(w)
    ensures |w.q| <= |SendInLoop(w, from, data, ans).q| && Promises(w, SendInLoop(w, from, data, ans))
  {
    hide SendInLoop, Sane, Registered, FdMine;
    SendInLoopKeeps(w, from, data, ans);
    SendBytes(w, from, data, ans);
  }

  lemma AppCallPromises<K>(w: World<K>, op: AppOp)
    requires Live(w)
    ensures |w.q| <= |AppCall(w, op).q| && Promises(w, AppCall(w, op))
  {
    hide SendInLoop, Sane, Registered, FdMine;
    match op {
      case AppSend(data, ans) => SendPromises(w, 0, data, ans);
      case AppShutdown => assert (w.q + [ShutdownTask(w.c.id)])[|w.q|..] == [ShutdownTask(w.c.id)];
    }
  }

  lemma {:induction false} AppCallsPromise<K>(w: World<K>, ops: seq<AppOp>)
    requires Live(w)
    ensures |w.q| <= |AppCalls(w, ops).q| && Promises(w, AppCalls(w, ops))
    decreases |ops|
  {
    hide AppCall, Live, Due;
    if ops != [] {
      var init := ops[..|ops| - 1];
      var u, v := AppCalls(w, init), AppCalls(w, ops);
      AppCallsPromise(w, init);
      AppCallsKeep(w, init);
      AppCallPromises(u, ops[|ops| - 1]);
      AppCallKeeps(u, ops[|ops| - 1]);
      assert v.q[|w.q|..] == u.q[|w.q|..] + v.q[|u.q|..];
    }
  }

  lemma DrainedOut<K>(w: World<K>, n: nat)
    requires n <= |w.c.out|
    ensures |Drained(w, n).c.out| == |w.c.out| - n
  {
  }

  /** A write event leaves no half-close due that it could have issued. */
  lemma HandleWritePromises<K>(w: World<K>, ans: Answer)
    requires Live(w)
    ensures Due(HandleWrite(w, ans).c) ==> HandleWrite(w, ans) == w
  {
    hide Interest, Notify, Drained, Registered, FdMine;
    var n := TakenBy(ans, |w.c.out|);
    if w.c.ch.IsWriting() && n != 0 {
      HandleWriteKeeps(w, ans);
      DrainedOut(w, n);
      if n == |w.c.out| && w.c.state == Disconnecting {
        DrainCloses(w, ans);
      } else if w.c.state == Disconnecting {
        assert Drained(w, n).c.out != [];
      }
    }
  }

  lemma EventPromises<K>(w: World<K>, e: Report)
    requires Live(w) && Up(w) && SingleClose(e)
    ensures |w.q| <= |HandleEvent(w, e).q| && Promises(w, HandleEvent(w, e))
  {
    hide HandleClose, HandleWrite, AppCalls, Sane, Registered, FdMine, HandleEvent;
    HandleEventKeeps(w, e);
    ClosesIff(w, e);
    if !Closes(e) {
      ReportRuns(w, e);
      var u := Called(w, e);
      if Delivers(e) {
        AppCallsKeep(w, e.read.ops);
        AppCallsPromise(w, e.read.ops);
      } else {
        assert w.q[|w.q|..] == [];
      }
      HandleWritePromises(u, e.ans);
    }
  }

  lemma EstablishPromises<K>(w: World<K>, ops: seq<AppOp>)
    requires Idle(w)
    ensures |w.q| <= |Establish(w, ops).q| && Promises(w, Establish(w, ops))
  {
    hide Sane, Registered, FdMine, Follows, AppCalls, SetEvents;
    EstablishKeeps(w, []);
    EstablishKeeps(w, ops);
    NoCalls(Opened(w));
    AppCallsPromise(Opened(w), ops);
  }

  /** The functor `shutdown` queues: with an empty buffer it half-closes right behind the last byte, with bytes still
      waiting it leaves the half-close to the write event that drains them. */
  lemma ShutdownFunctor<K>(w: World<K>)
    requires Live(w) && w.c.state == Disconnecting
    ensures var v := ShutdownInLoop(w);
            && v == w.(c := w.c.(fins := v.c.fins))
            && v.c.fins == (if w.c.out == [] then w.c.fins + [Fin(|w.c.wire|, true)] else w.c.fins)
            && !Due(v.c)
  {
    hide Sane, Registered, FdMine;
  }

  lemma ApplyPromises<K>(w: World<K>, a: Act)
    requires Live(w) && Allowed(w, a)
    ensures a.RunShutdown? ==> !Due(Apply(w, a).c)
    ensures !a.RunShutdown? ==> |w.q| <= |Apply(w, a).q| && Promises(w, Apply(w, a))
  {
    hide AppCall, HandleEvent, SendInLoop, Sane, Registered, FdMine, ShutdownInLoop;
    match a
    case Call(op) => AppCallPromises(w, op);
    case RunSend(from, data, ans) => SendPromises(w, from, data, ans);
    case RunShutdown =>
      ShutdownInLoopKeeps(w);
      if w.c.state == Disconnecting {
        ShutdownFunctor(w);
      }
    case Dispatch(e) => EventPromises(w, e);
  }
}
