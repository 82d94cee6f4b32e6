/** TcpServer.cpp together with the loops it spreads connections over: a step system whose steps are the
    handlers and functors the loops' threads execute, interleaved in any order, and the calls other threads
    make. Loop 0 is the base loop. */
module Servers {
  import opened Common
  import opened Pollers
  import opened ThreadPools
  import Names
  import L = EventLoops
  import C = Connections

  type Loop = L.Loop<C.Task>

  /** One reported occurrence: the eventfd, the listening socket with what `accept` will return, or a connection. */
  datatype Occurrence =
    | Wake
    | Accept(fd: int, mark: nat, hasMark: bool, hasWrite: bool, ops: seq<C.AppOp>)
    | Io(id: nat, e: C.Report)

  datatype Rec = Rec(loop: nat, c: C.Conn<nat>)

  /** A call of `send` or `shutdown` that a thread other than the connection's has begun: the state has been
      found connected, and what is still to come is the push of the send functor, the store of the new state,
      or the push of the shutdown functor. */
  datatype Call =
    | SendCall(id: nat, data: seq<byte>)
    | StoreCall(id: nat)
    | ShutdownCall(id: nat)

  /** Connection `id` is the `id`-th accepted, counted from 0. `active` holds the events of each loop that
      are still to be dispatched, `next` is the pool's counter, `held` the connections whose shared pointer the
      application keeps, and `flight` the calls begun, by thread. */
  datatype Server = Server(
    form: Form, name: string, ipPort: string,
    loops: seq<Loop>, active: seq<seq<Occurrence>>, pollers: seq<Poller<nat>>,
    recs: seq<Rec>, connections: map<string, nat>, next: nat, held: set<nat>, flight: map<nat, Call>)

  function Key(s: Server, id: nat): string {
    Names.ConnName(s.name, s.ipPort, id + 1)
  }

  function Start(form: Form, name: string, ipPort: string, subLoops: nat): Server {
    Server(form, name, ipPort,
           seq(subLoops + 1, _ => L.NewLoop()), seq(subLoops + 1, _ => []),
           seq(subLoops + 1, _ => Poller(map[], map[], 0)), [], map[], 0, {}, map[])
  }

  // ---------------------------------------------------------------------- ownership

  ghost predicate LoopOwns(l: Loop, id: nat) {
    exists t :: t in l.done + l.rest + l.pending && t.Owning() && t.id == id
  }

  /** Some shared pointer to the connection exists: in the map, in a functor queued or in a batch that has not
      ended, or with the application. Without one the object is gone and its descriptor closed. */
  ghost predicate Owned(s: Server, id: nat) {
    || id in s.connections.Values
    || id in s.held
    || exists k :: 0 <= k < |s.loops| && LoopOwns(s.loops[k], id)
  }

  ghost predicate InMap(s: Server, id: nat) {
    Key(s, id) in s.connections && s.connections[Key(s, id)] == id
  }

  // -------------------------------------------------------------------------- shape

  /** Functors concerning one connection, in queue order. */
  function About(q: seq<C.Task>, id: nat): seq<C.Task> {
    if q == [] then [] else (if q[0].id == id then [q[0]] else []) + About(q[1..], id)
  }

  function Hits(events: seq<Occurrence>, id: nat): nat {
    if events == [] then 0 else (if events[0].Io? && events[0].id == id then 1 else 0) + Hits(events[1..], id)
  }

  predicate CanPost(l: Loop) {
    (l.phase == L.Dispatching || l.phase == L.Running) && !l.owes
  }

  ghost predicate LoopShape(l: Loop, events: seq<Occurrence>, n: nat) {
    && L.Sound(l) && l.writers == 0 && !l.owes
    && (l.phase != L.Dispatching ==> events == [])
    && (forall t | t in l.Todo() :: t.id < n)
    && (forall e | e in events && e.Io? :: e.id < n && C.SingleClose(e.e))
  }

  ghost predicate PollerShape(p: Poller<nat>, n: nat) {
    && p.errors == 0
    && (forall fd | fd in p.channels :: p.channels[fd] < n)
    && (forall fd | fd in p.kernel :: p.kernel[fd].key < n)
  }

  ghost predicate MapShape(s: Server) {
    forall name | name in s.connections :: s.connections[name] < |s.recs| && name == Key(s, s.connections[name])
  }

  predicate NextInRange(s: Server) {
    0 < |s.loops| && Chosen(|s.loops| - 1, s.next) < |s.loops|
  }

  ghost predicate Shape(s: Server) {
    && |s.loops| == |s.active| == |s.pollers| && |s.loops| > 0
    && |s.ipPort| <= 51 && |s.recs| < Names.INT_MAX
    && s.next == Advances(|s.loops| - 1, |s.recs|) && NextInRange(s)
    && (forall id | 0 <= id < |s.recs| :: s.recs[id].loop == LoopOf(|s.loops| - 1, id))
    && (forall k | 0 <= k < |s.loops| :: LoopShape(s.loops[k], s.active[k], |s.recs|))
    && (forall k | 0 <= k < |s.loops| :: PollerShape(s.pollers[k], |s.recs|))
    && MapShape(s)
  }

  // ------------------------------------------------------------------ what steps do

  /** Functors queued by the loop's own thread, one after the other. */
  function Posts(l: Loop, q: seq<C.Task>): (m: Loop)
    requires CanPost(l)
    ensures CanPost(m) && m.phase == l.phase
  {
    if q == [] then l else L.QueueBy(Posts(l, q[..|q| - 1]), q[|q| - 1], true)
  }

  predicate HasLoop(s: Server, id: nat) {
    id < |s.recs| && s.recs[id].loop < |s.loops| == |s.pollers|
  }

  /** The connection with the poller of its loop. */
  function Here(s: Server, id: nat): C.World<nat>
    requires HasLoop(s, id)
  {
    C.World(s.recs[id].c, s.pollers[s.recs[id].loop], [])
  }

  /** A handler or functor of the connection has run on its loop: new state, and the functors it queued. */
  function Settle(s: Server, id: nat, w: C.World<nat>): Server
    requires HasLoop(s, id) && CanPost(s.loops[s.recs[id].loop])
  {
    var k := s.recs[id].loop;
    s.(recs := s.recs[id := Rec(k, w.c)], pollers := s.pollers[k := w.p],
       loops := s.loops[k := Posts(s.loops[k], w.q)])
  }

  function Post(s: Server, k: nat, t: C.Task, ownThread: bool): Server
    requires k < |s.loops| && (ownThread ==> CanPost(s.loops[k]))
  {
    s.(loops := s.loops[k := L.QueueBy(s.loops[k], t, ownThread)])
  }

  /** `removeConnectionInLoop`, on the base loop: destruction is always queued. */
  function RemoveInLoop(s: Server, id: nat): Server
    requires HasLoop(s, id) && (s.recs[id].loop == 0 ==> CanPost(s.loops[0]))
  {
    Post(s.(connections := s.connections - {Key(s, id)}), s.recs[id].loop, C.DestroyTask(id), s.recs[id].loop == 0)
  }

  /** The close callback: `runInLoop` of the base loop. */
  function RemoveConnection(s: Server, id: nat): Server
    requires HasLoop(s, id) && (s.recs[id].loop == 0 ==> CanPost(s.loops[0]))
  {
    if s.recs[id].loop == 0 then RemoveInLoop(s, id) else Post(s, 0, C.RemoveTask(id), false)
  }

  function Dispatched(s: Server, id: nat, e: C.Report): Server
    requires HasLoop(s, id) && CanPost(s.loops[s.recs[id].loop])
  {
    var w := C.HandleEvent(Here(s, id), e);
    var t := Settle(s, id, w);
    if w.c.closes > s.recs[id].c.closes then RemoveConnection(t, id) else t
  }

  function Entered(s: Server, e: Occurrence): Server
    requires e.Accept? && |s.loops| > 0
  {
    var id, n := |s.recs|, |s.loops| - 1;
    s.(recs := s.recs + [Rec(Chosen(n, s.next), C.NewConn(id, id, s.form, e.fd, e.mark, e.hasMark, e.hasWrite))],
       next := Advance(s.next, n), connections := s.connections[Key(s, id) := id])
  }

  /** `newConnection`, on the base loop. */
  function NewConnection(s: Server, e: Occurrence): Server
    requires e.Accept? && 0 < |s.loops| == |s.pollers| && NextInRange(s) && CanPost(s.loops[0])
  {
    var id := |s.recs|;
    var t := Entered(s, e);
    var k := t.recs[id].loop;
    if k == 0 then Settle(t, id, C.Establish(Here(t, id), e.ops)) else Post(t, k, C.EstablishTask(id), false)
  }

  /** The effect of one functor on the loop that runs it. */
  function Performed(s: Server, t: C.Task, ops: seq<C.AppOp>, ans: Answer): Server
    requires HasLoop(s, t.id) && (t.RemoveTask? ==> CanPost(s.loops[0]))
    requires !t.RemoveTask? ==> CanPost(s.loops[s.recs[t.id].loop])
  {
    match t
    case EstablishTask(id) => Settle(s, id, C.Establish(Here(s, id), ops))
    case RemoveTask(id) => RemoveInLoop(s, id)
    case DestroyTask(id) => Settle(s, id, C.Destroy(Here(s, id), ops))
    case ShutdownTask(id) => Settle(s, id, C.ShutdownInLoop(Here(s, id)))
    case SendTask(id, from, data) => Settle(s, id, C.SendInLoop(Here(s, id), from, data, ans))
    case _ => s
  }

  // ---------------------------------------------------------------------------- steps

  datatype Step =
    | Check(k: nat)
    | PollReturns(k: nat, events: seq<Occurrence>)
    | NextEvent(k: nat)
    | Swap(k: nat)
    | RunFunctor(k: nat, ops: seq<C.AppOp>, ans: Answer)
    | EndBatch(k: nat)
    | AppCall(id: nat, op: C.AppOp)                        // from any callback on the connection's loop
    | RemoteSend(from: nat, id: nat, data: seq<byte>)      // another thread tests the state, ...
    | RemoteShutdown(from: nat, id: nat)
    | Proceed(from: nat)                                   // ... and later takes the next step of its call
    | Quit(k: nat)
    | Hold(id: nat)
    | Release(id: nat)

  /** epoll reports registered descriptors of this poller, each once; only the base loop listens. */
  ghost predicate Reportable(s: Server, k: nat, events: seq<Occurrence>)
    requires k < |s.pollers|
  {
    && (forall i | 0 <= i < |events| :: events[i].Accept? ==> k == 0)
    && (forall i | 0 <= i < |events| && events[i].Io? ::
          && (exists fd :: fd in s.pollers[k].kernel && s.pollers[k].kernel[fd].key == events[i].id)
          && C.SingleClose(events[i].e))
    && (forall i, j | 0 <= i < j < |events| && events[i].Io? && events[j].Io? :: events[i].id != events[j].id)
  }

  /** `accept` returns a descriptor no living connection uses. */
  ghost predicate FreshFd(s: Server, fd: int) {
    forall id | 0 <= id < |s.recs| && Owned(s, id) :: s.recs[id].c.ch.fd != fd
  }

  ghost predicate Enabled(s: Server, step: Step)
    requires Shape(s)
  {
    match step
    case Check(k) => k < |s.loops| && s.loops[k].phase == L.Checking
    case PollReturns(k, events) => k < |s.loops| && s.loops[k].phase == L.Polling && Reportable(s, k, events)
    case NextEvent(k) =>
      && k < |s.loops| && s.active[k] != []
      && (s.active[k][0].Accept? ==> k == 0 && FreshFd(s, s.active[k][0].fd) && |s.recs| + 1 < Names.INT_MAX)
    case Swap(k) => k < |s.loops| && s.loops[k].phase == L.Dispatching && s.active[k] == []
    case RunFunctor(k, _, _) => k < |s.loops| && s.loops[k].phase == L.Running && s.loops[k].rest != []
    case EndBatch(k) => k < |s.loops| && s.loops[k].phase == L.Running && s.loops[k].rest == []
    case AppCall(id, _) => id < |s.recs| && Owned(s, id) && CanPost(s.loops[s.recs[id].loop])
    case RemoteSend(from, id, _) => from > 0 && from !in s.flight && id < |s.recs| && id in s.held
    case RemoteShutdown(from, id) => from > 0 && from !in s.flight && id < |s.recs| && id in s.held
    case Proceed(from) => from in s.flight && s.flight[from].id < |s.recs|
    case Quit(k) => k < |s.loops|
    case Hold(id) => id < |s.recs| && Owned(s, id)
    case Release(id) => id in s.held && forall from | from in s.flight :: s.flight[from].id != id
  }

  /** The store of `shutdown`. */
  function Stored(s: Server, id: nat): Server
    requires id < |s.recs|
  {
    s.(recs := s.recs[id := s.recs[id].(c := s.recs[id].c.(state := C.Disconnecting))])
  }

  /** When the next step of a call that has begun still finds what its test of the state found: a functor is
      pushed while the connection is in the map, and the state is stored while the connection is not closed. */
  ghost predicate InTime(s: Server, step: Step) {
    step.Proceed? && step.from in s.flight && s.flight[step.from].id < |s.recs| ==>
      var call := s.flight[step.from];
      if call.StoreCall? then s.recs[call.id].c.state != C.Disconnected else InMap(s, call.id)
  }

  function WithLoop(s: Server, k: nat, l: Loop): Server
    requires k < |s.loops|
  {
    s.(loops := s.loops[k := l])
  }

  /** Functors are only ever run where they belong; the proof of `Inv` below discharges this for every
      reachable state. */
  ghost predicate RightLoop(s: Server, k: nat, t: C.Task) {
    && t.id < |s.recs|
    && (if t.RemoveTask? then k == 0 else k == s.recs[t.id].loop)
    && (t.RemoveTask? ==> s.recs[t.id].loop != 0)
  }

  ghost predicate Placeable(s: Server, step: Step)
    requires Shape(s) && Enabled(s, step)
  {
    match step
    case NextEvent(k) => s.active[k][0].Io? ==> s.recs[s.active[k][0].id].loop == k
    case RunFunctor(k, _, _) => RightLoop(s, k, s.loops[k].rest[0])
    case _ => true
  }

  ghost function Next(s: Server, step: Step): Server
    requires Shape(s) && Enabled(s, step) && Placeable(s, step)
  {
    match step
    case Check(k) => WithLoop(s, k, L.Next(s.loops[k], L.Check))
    case PollReturns(k, events) => WithLoop(s, k, L.Next(s.loops[k], L.PollReturns)).(active := s.active[k := events])
    case NextEvent(k) =>
      var t := s.(active := s.active[k := s.active[k][1..]]);
      (match s.active[k][0]
       case Wake => WithLoop(t, k, L.Next(s.loops[k], L.DrainWakeup))
       case Accept(_, _, _, _, _) => NewConnection(t, s.active[k][0])
       case Io(id, e) => Dispatched(t, id, e))
    case Swap(k) => WithLoop(s, k, L.Next(s.loops[k], L.SwapBatch))
    case RunFunctor(k, ops, ans) => Performed(WithLoop(s, k, L.Next(s.loops[k], L.RunNext)), s.loops[k].rest[0], ops, ans)
    case EndBatch(k) => WithLoop(s, k, L.Next(s.loops[k], L.EndBatch))
    case AppCall(id, op) => Settle(s, id, C.AppCall(Here(s, id), op))
    case RemoteSend(from, id, data) =>
      if s.recs[id].c.state == C.Connected then s.(flight := s.flight[from := SendCall(id, data)]) else s
    case RemoteShutdown(from, id) =>
      if s.recs[id].c.state == C.Connected then s.(flight := s.flight[from := StoreCall(id)]) else s
    case Proceed(from) =>
      var t := s.(flight := s.flight - {from});
      (match s.flight[from]
       case SendCall(id, data) => Post(t, s.recs[id].loop, C.SendTask(id, from, data), false)
       case StoreCall(id) => Stored(s.(flight := s.flight[from := ShutdownCall(id)]), id)
       case ShutdownCall(id) => Post(t, s.recs[id].loop, C.ShutdownTask(id), false))
    case Quit(k) => WithLoop(s, k, L.QuitBy(s.loops[k], false))
    case Hold(id) => s.(held := s.held + {id})
    case Release(id) => s.(held := s.held - {id})
  }
}
