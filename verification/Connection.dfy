/** TcpConnection.cpp and Channel.cpp (dispatch): one connection, its channel in the poller of its loop,
    its output buffer and the byte stream the kernel has taken, as a value changed step by step. */
module Connections {
  import opened Common
  import opened Pollers

  datatype State = Disconnected | Connecting | Connected | Disconnecting

  /** The functors the library queues. Those bound to a shared pointer keep the connection alive, the
      two bound to a raw `this` do not. */
  datatype Task =
    | EstablishTask(id: nat)
    | RemoveTask(id: nat)
    | DestroyTask(id: nat)
    | ShutdownTask(id: nat)
    | SendTask(id: nat, from: nat, data: seq<byte>)
    | WriteCompleteTask(id: nat)
    | MemberTask(id: nat)   // bound to the callback member itself: running it reads the member and calls nothing
    | HighWaterTask(id: nat, level: nat)
  {
    predicate Owning() { !ShutdownTask? && !SendTask? }
    predicate Lifecycle() { EstablishTask? || RemoveTask? || DestroyTask? }
  }

  /** One payload that entered `sendInLoop` and was not dropped; `from` is 0 on the connection's own loop. */
  datatype Sent = Sent(from: nat, data: seq<byte>)

  function Payload(log: seq<Sent>): seq<byte> {
    if log == [] then [] else Payload(log[..|log| - 1]) + log[|log| - 1].data
  }

  /** One call of `shutdownWrite`: stream length at that moment, and whether the connection was still up. */
  datatype Fin = Fin(at: nat, up: bool)

  /** `lost` counts bytes that were neither written nor buffered nor dropped by a fault, `spoilt` tells that a
      send functor wrote or buffered bytes after a half-close, `levels` is the history of the buffered length; `ups`, `downs`,
      `closes` and `marks` count callbacks. */
  datatype Conn<K> = Conn(
    key: K, id: nat, form: Form, ch: Chan, state: State,
    out: seq<byte>, wire: seq<byte>, log: seq<Sent>, lost: nat, fins: seq<Fin>, spoilt: bool,
    mark: nat, hasMark: bool, hasWrite: bool,
    levels: seq<nat>, marks: nat, ups: nat, downs: nat, closes: nat)

  function NewConn<K>(key: K, id: nat, form: Form, fd: int, mark: nat, hasMark: bool, hasWrite: bool): Conn<K> {
    Conn(key, id, form, Chan(fd, NONE_EVENT, New), Connecting,
         [], [], [], 0, [], false, mark, hasMark, hasWrite, [0], 0, 0, 0, 0)
  }

  /** A connection, the poller of its loop, and the functors queued so far on its loop. */
  datatype World<K> = World(c: Conn<K>, p: Poller<K>, q: seq<Task>)

  function Queue<K>(w: World<K>, t: Task): World<K> {
    w.(q := w.q + [t])
  }

  function Interest<K>(w: World<K>, events: set<Event>): World<K> {
    var (p, ch) := SetEvents(w.p, w.c.key, w.c.ch, events);
    w.(p := p, c := w.c.(ch := ch))
  }

  // --------------------------------------------------------------------- operations

  function Recorded<K>(w: World<K>, s: Sent, n: nat): World<K>
    requires n <= |s.data|
  {
    w.(c := w.c.(wire := w.c.wire + s.data[..n], log := w.c.log + [s]))
  }

  predicate Crosses<K>(c: Conn<K>, more: nat) {
    |c.out| + more >= c.mark && |c.out| < c.mark && c.hasMark
  }

  /** A send functor that meets a connection already half-closed and gets bytes written or buffered all the same. */
  predicate Spoils<K>(c: Conn<K>, data: seq<byte>, ans: Answer) {
    && c.fins != [] && c.state == Disconnecting && ans != PeerGone
    && (TakenBy(ans, |data|) > 0 || (|data| > 0 && (c.form == AsIntended || Crosses(c, |data|))))
  }

  function Noted<K>(w: World<K>, data: seq<byte>, ans: Answer): World<K> {
    w.(c := w.c.(spoilt := w.c.spoilt || Spoils(w.c, data, ans)))
  }

  function AllWritten<K>(w: World<K>, atOnce: bool): World<K> {
    var v := w.(c := w.c.(levels := w.c.levels + [|w.c.out|]));
    if atOnce && w.c.hasWrite then Queue(v, WriteCompleteTask(w.c.id)) else v
  }

  function Notified<K>(w: World<K>, more: nat): World<K> {
    Queue(w, HighWaterTask(w.c.id, |w.c.out| + more)).(c := w.c.(marks := w.c.marks + 1))
  }

  function Buffered<K>(w: World<K>, rest: seq<byte>): World<K> {
    var v := w.(c := w.c.(out := w.c.out + rest, levels := w.c.levels + [|w.c.out| + |rest|]));
    if w.c.ch.IsWriting() then v else Interest(v, w.c.ch.events + WRITE_EVENT)
  }

  function Stranded<K>(w: World<K>, rest: seq<byte>): World<K> {
    w.(c := w.c.(lost := w.c.lost + |rest|, levels := w.c.levels + [|w.c.out|]))
  }

  /** What becomes of the bytes the kernel did not take at once. The file appends them only inside the
      high-water branch. */
  function KeepRest<K>(w: World<K>, rest: seq<byte>): World<K> {
    var crosses := Crosses(w.c, |rest|);
    var v := if crosses then Notified(w, |rest|) else w;
    if crosses || w.c.form == AsIntended then Buffered(v, rest) else Stranded(v, rest)
  }

  function SendInLoop<K>(w: World<K>, from: nat, data: seq<byte>, ans: Answer): World<K> {
    if w.c.state == Disconnected then w else
      var direct := !w.c.ch.IsWriting() && w.c.out == [];
      var n := if direct then TakenBy(ans, |data|) else 0;
      if direct && ans == PeerGone then w else
        var v := Recorded(Noted(w, data, ans), Sent(from, data), n);
        if n < |data| then KeepRest(v, data[n..]) else AllWritten(v, direct && ans.Wrote?)
  }

  function ShutdownInLoop<K>(w: World<K>): World<K> {
    if w.c.ch.IsWriting() then w else
      w.(c := w.c.(fins := w.c.fins + [Fin(|w.c.wire|, w.c.state != Disconnected)]))
  }

  function Drained<K>(w: World<K>, n: nat): World<K>
    requires n <= |w.c.out|
  {
    w.(c := w.c.(wire := w.c.wire + w.c.out[..n], out := w.c.out[n..], levels := w.c.levels + [|w.c.out| - n]))
  }

  /** The functor queued when the buffer has drained. The file binds the callback member, not the callback. */
  function Notify<K>(w: World<K>): World<K> {
    if !w.c.hasWrite then w
    else Queue(w, if w.c.form == AsIntended then WriteCompleteTask(w.c.id) else MemberTask(w.c.id))
  }

  function HandleWrite<K>(w: World<K>, ans: Answer): World<K> {
    var n := TakenBy(ans, |w.c.out|);
    if !w.c.ch.IsWriting() || n == 0 then w else
      var v := Drained(w, n);
      if v.c.out != [] then v else
        var t := Notify(Interest(v, v.c.ch.events - WRITE_EVENT));
        if t.c.state == Disconnecting then ShutdownInLoop(t) else t
  }

  function Send<K>(w: World<K>, data: seq<byte>, ans: Answer): World<K> {
    if w.c.state == Connected then SendInLoop(w, 0, data, ans) else w
  }

  function Shutdown<K>(w: World<K>): World<K> {
    if w.c.state == Connected then Queue(w.(c := w.c.(state := Disconnecting)), ShutdownTask(w.c.id)) else w
  }

  /** Calls an application makes on the connection from inside one of its callbacks. */
  datatype AppOp = AppSend(data: seq<byte>, ans: Answer) | AppShutdown

  function AppCall<K>(w: World<K>, op: AppOp): World<K> {
    match op
    case AppSend(data, ans) => Send(w, data, ans)
    case AppShutdown => Shutdown(w)
  }

  function AppCalls<K>(w: World<K>, ops: seq<AppOp>): World<K> {
    if ops == [] then w else AppCall(AppCalls(w, ops[..|ops| - 1]), ops[|ops| - 1])
  }

  function HandleClose<K>(w: World<K>, ops: seq<AppOp>): World<K> {
    var v := Interest(w.(c := w.c.(state := Disconnected)), NONE_EVENT);
    var u := AppCalls(v.(c := v.c.(downs := v.c.downs + 1)), ops);
    u.(c := u.c.(closes := u.c.closes + 1))
  }

  /** Outcome of `readFd`, with what the application does in the callback that follows. */
  datatype ReadResult = Bytes(ops: seq<AppOp>) | Eof(ops: seq<AppOp>) | ReadError

  function HandleRead<K>(w: World<K>, r: ReadResult): World<K> {
    match r
    case Bytes(ops) => AppCalls(w, ops)
    case Eof(ops) => HandleClose(w, ops)
    case ReadError => w
  }

  /** One reported event set and the answers of the outside world met while it is handled. */
  datatype Report = Report(revents: set<Event>, hupOps: seq<AppOp>, read: ReadResult, ans: Answer)

  function HandleEvent<K>(w: World<K>, e: Report): World<K> {
    var v := if Hup in e.revents && In !in e.revents then HandleClose(w, e.hupOps) else w;
    var u := if In in e.revents || Pri in e.revents then HandleRead(v, e.read) else v;
    if Out in e.revents then HandleWrite(u, e.ans) else u
  }

  function Establish<K>(w: World<K>, ops: seq<AppOp>): World<K> {
    var v := Interest(w.(c := w.c.(state := Connected)), w.c.ch.events + READ_EVENT);
    AppCalls(v.(c := v.c.(ups := v.c.ups + 1)), ops)
  }

  function Destroy<K>(w: World<K>, ops: seq<AppOp>): World<K> {
    var v := if w.c.state == Connected then
               var x := Interest(w.(c := w.c.(state := Disconnected)), NONE_EVENT);
               AppCalls(x.(c := x.c.(downs := x.c.downs + 1)), ops)
             else
               w;
    var (p, ch) := Removed(v.p, v.c.key, v.c.ch);
    v.(p := p, c := v.c.(ch := ch))
  }

  // --------------------------------------------------------------------- invariants

  function Crossings(levels: seq<nat>, mark: nat): nat {
    if |levels| < 2 then 0 else
      Crossings(levels[..|levels| - 1], mark)
      + if levels[|levels| - 2] < mark <= levels[|levels| - 1] then 1 else 0
  }

  /** The books of the connection balance. */
  ghost predicate Balanced<K>(c: Conn<K>) {
    && |c.wire| + |c.out| + c.lost == |Payload(c.log)|
    && (c.lost == 0 ==> c.wire + c.out == Payload(c.log))
    && (c.form == AsIntended ==> c.lost == 0)
    && (c.form == AsWritten && !c.hasMark ==> c.out == [])
  }

  ghost predicate MarksCounted<K>(c: Conn<K>) {
    && c.levels != [] && c.levels[|c.levels| - 1] == |c.out|
    && c.marks == if c.hasMark then Crossings(c.levels, c.mark) else 0
  }

  /** Every half-close came after the last byte, and a half-close of a connection still up left nothing behind. */
  ghost predicate Clean<K>(c: Conn<K>) {
    forall f | f in c.fins :: f.at == |c.wire| && (f.up ==> c.out == [])
  }

  /** Half-closes are clean exactly as long as no send functor spoilt one. */
  ghost predicate Graceful<K>(c: Conn<K>) {
    && (c.fins != [] ==> c.state == Disconnected || c.state == Disconnecting)
    && (c.state == Disconnecting ==> forall f | f in c.fins :: f.up)
    && (!c.spoilt ==> Clean(c))
    && (c.spoilt ==> exists f :: f in c.fins && f.up && f.at < |c.wire| + |c.out|)
  }

  ghost predicate Sane<K>(c: Conn<K>) {
    Balanced(c) && MarksCounted(c) && Graceful(c)
  }

  /** EPOLLIN and EPOLLPRI always, EPOLLOUT while bytes wait. */
  function Wanted(out: seq<byte>): (events: set<Event>)
    ensures events * WRITE_EVENT != {} <==> out != []
    ensures events - WRITE_EVENT == {In, Pri}
  {
    assert Out in {In, Pri, Out} * WRITE_EVENT;
    if out == [] then {In, Pri} else {In, Pri, Out}
  }

  /** Connected or disconnecting: registered for reading, and for writing exactly while bytes wait. */
  ghost predicate Up<K>(w: World<K>) {
    && (w.c.state == Connected || w.c.state == Disconnecting)
    && w.c.ch.index == Added && w.c.ch.events == Wanted(w.c.out)
    && w.c.downs == 0 && w.c.closes == 0 && w.c.ups == 1
  }

  /** After `handleClose`: out of the kernel, still in the poller's map. */
  ghost predicate Down<K>(w: World<K>) {
    && w.c.state == Disconnected && w.c.ch.index == Del && w.c.ch.events == NONE_EVENT
    && w.c.downs == 1 && w.c.closes == 1 && w.c.ups == 1
  }

  ghost predicate Live<K>(w: World<K>) {
    && Registered(w.p, w.c.key, w.c.ch) && FdMine(w.p, w.c.key, w.c.ch.fd) && Sane(w.c)
    && (Up(w) || Down(w))
  }

  ghost predicate WorkOf(q: seq<Task>, id: nat) {
    forall t | t in q :: t.id == id && !t.Lifecycle() && !t.SendTask?
  }

  /** How many of the functors are high-water notifications. */
  function HighWaters(q: seq<Task>): nat {
    if q == [] then 0 else HighWaters(q[..|q| - 1]) + if q[|q| - 1].HighWaterTask? then 1 else 0
  }

  lemma HighWatersOne(t: Task)
    ensures HighWaters([t]) == if t.HighWaterTask? then 1 else 0
  {
    assert [t][..0] == [];
  }

  lemma {:induction false} HighWatersConcat(a: seq<Task>, b: seq<Task>)
    ensures HighWaters(a + b) == HighWaters(a) + HighWaters(b)
    decreases |b|
  {
    if b == [] {
      assert a + b == a;
    } else {
      assert (a + b)[..|a + b| - 1] == a + b[..|b| - 1];
      HighWatersConcat(a, b[..|b| - 1]);
    }
  }

  /** `v` is a later world of the same connection: nothing else in the poller moved, only work of this
      connection was queued, a down connection did not move at all, and nothing ever comes up again. */
  ghost predicate Follows<K>(w: World<K>, v: World<K>) {
    && v.c.key == w.c.key && v.c.id == w.c.id && v.c.form == w.c.form && v.c.ch.fd == w.c.ch.fd
    && v.c.mark == w.c.mark && v.c.hasMark == w.c.hasMark && v.c.hasWrite == w.c.hasWrite
    && SameElsewhere(w.p, v.p, w.c.ch.fd)
    && w.q <= v.q && WorkOf(v.q[|w.q|..], w.c.id)
    && w.c.wire <= v.c.wire && w.c.log <= v.c.log
    && v.c.marks == w.c.marks + HighWaters(v.q[|w.q|..])
    && (w.c.state == Disconnected ==> v == w.(c := w.c.(fins := v.c.fins)))
    && (w.c.state != Connected ==> v.c.state != Connected)
    && (v.c.state == Connected ==> forall t | t in v.q[|w.q|..] :: !t.ShutdownTask?)
  }

  lemma FollowsSelf<K>(w: World<K>)
    ensures Follows(w, w)
  {
  }

  lemma FollowsTrans<K>(w: World<K>, v: World<K>, u: World<K>)
    requires Follows(w, v) && Follows(v, u)
    ensures Follows(w, u)
  {
    assert u.q[|w.q|..] == v.q[|w.q|..] + u.q[|v.q|..];
    HighWatersConcat(v.q[|w.q|..], u.q[|v.q|..]);
  }

  // --------------------------------------------------------------- single operations

  lemma PayloadGrows(log: seq<Sent>, s: Sent)
    ensures Payload(log + [s]) == Payload(log) + s.data
  {
    assert (log + [s])[..|log|] == log;
  }

  lemma LevelAdded(levels: seq<nat>, mark: nat, n: nat)
    requires levels != []
    ensures Crossings(levels + [n], mark)
         == Crossings(levels, mark) + if levels[|levels| - 1] < mark <= n then 1 else 0
  {
    assert (levels + [n])[..|levels|] == levels;
  }

  lemma InterestKeeps<K>(w: World<K>, events: set<Event>)
    requires Registered(w.p, w.c.key, w.c.ch) && FdMine(w.p, w.c.key, w.c.ch.fd)
    ensures var v := Interest(w, events);
            && Registered(v.p, v.c.key, v.c.ch) && FdMine(v.p, v.c.key, v.c.ch.fd)
            && SameElsewhere(w.p, v.p, w.c.ch.fd) && v.q == w.q
            && v.c == w.c.(ch := v.c.ch) && v.c.ch.fd == w.c.ch.fd && v.c.ch.events == events
            && (v.c.ch.index == Added <==> w.c.ch.index != Added || events != NONE_EVENT)
            && (v.c.ch.index == Added || v.c.ch.index == Del)
  {
    UpdateKeeps(w.p, w.c.key, w.c.ch, events);
  }

  /** `rest` is logged but neither written nor buffered yet. */
  ghost predicate Owed<K>(c: Conn<K>, rest: seq<byte>) {
    && |c.wire| + |c.out| + c.lost + |rest| == |Payload(c.log)|
    && (c.lost == 0 ==> c.wire + c.out + rest == Payload(c.log))
    && (c.form == AsIntended ==> c.lost == 0)
    && (c.form == AsWritten && !c.hasMark ==> c.out == [])
  }

  lemma SplitOwed(wire: seq<byte>, out: seq<byte>, data: seq<byte>, n: nat)
    requires n <= |data| && (n > 0 ==> out == [])
    ensures (wire + data[..n]) + out + data[n..] == wire + out + data
  {
    assert data[..n] + data[n..] == data;
    if n > 0 {
      Regroup(wire, data[..n], data[n..]);
      assert (wire + data[..n]) + [] == wire + data[..n] && wire + [] == wire;
    } else {
      assert wire + data[..0] == wire;
    }
  }

  lemma RecordOwes<K>(c: Conn<K>, s: Sent, n: nat)
    requires Balanced(c) && n <= |s.data| && (n > 0 ==> c.out == [])
    ensures Owed(c.(wire := c.wire + s.data[..n], log := c.log + [s]), s.data[n..])
  {
    hide Payload;
    PayloadGrows(c.log, s);
    SplitOwed(c.wire, c.out, s.data, n);
  }

  ghost predicate Ready<K>(w: World<K>) {
    Registered(w.p, w.c.key, w.c.ch) && FdMine(w.p, w.c.key, w.c.ch.fd)
  }

  lemma BufferedKeeps<K>(w: World<K>, rest: seq<byte>)
    requires Ready(w) && Up(w) && rest != []
    ensures var v := Buffered(w, rest);
            && Ready(v) && Up(v) && SameElsewhere(w.p, v.p, w.c.ch.fd) && v.q == w.q && v.c.ch.fd == w.c.ch.fd
            && v.c == w.c.(ch := v.c.ch, out := w.c.out + rest, levels := w.c.levels + [|w.c.out| + |rest|])
  {
    var v := w.(c := w.c.(out := w.c.out + rest, levels := w.c.levels + [|w.c.out| + |rest|]));
    if !w.c.ch.IsWriting() {
      InterestKeeps(v, w.c.ch.events + WRITE_EVENT);
      assert w.c.out == [];
    }
  }

  lemma NotifiedKeeps<K>(w: World<K>, more: nat)
    requires w.c.state != Disconnected
    ensures var v := Notified(w, more);
            && v.p == w.p && v.c == w.c.(marks := w.c.marks + 1) && Follows(w, v)
  {
    hide Registered, FdMine, SetEvents;
    var t := HighWaterTask(w.c.id, |w.c.out| + more);
    HighWatersOne(t);
    assert Notified(w, more).q[|w.q|..] == [t];
  }

  lemma BufferedFollows<K>(w: World<K>, rest: seq<byte>)
    requires Ready(w) && Up(w) && rest != []
    ensures Follows(w, Buffered(w, rest))
  {
    hide Registered, FdMine, SetEvents, Buffered, Interest, SameElsewhere;
    BufferedKeeps(w, rest);
    assert Buffered(w, rest).q[|w.q|..] == [];
  }

  lemma BufferedBalances<K>(w: World<K>, rest: seq<byte>)
    requires Ready(w) && Up(w) && rest != [] && Owed(w.c, rest) && w.c.levels != []
    requires w.c.form == AsWritten ==> w.c.hasMark
    ensures Balanced(Buffered(w, rest).c)
  {
    hide Registered, FdMine, SetEvents, Buffered, Interest, SameElsewhere, Payload;
    BufferedKeeps(w, rest);
    Regroup(w.c.wire, w.c.out, rest);
  }

  lemma StrandedFollows<K>(w: World<K>, rest: seq<byte>)
    requires Up(w)
    ensures Follows(w, Stranded(w, rest))
  {
    hide Registered, FdMine;
  }

  lemma KeepRestKeeps<K>(w: World<K>, rest: seq<byte>)
    requires Ready(w) && Up(w) && rest != [] && Owed(w.c, rest) && MarksCounted(w.c)
    ensures var v := KeepRest(w, rest);
            && Ready(v) && Up(v) && Balanced(v.c) && MarksCounted(v.c) && Follows(w, v)
            && v.c.state == w.c.state
  {
    hide Buffered, Interest, Crossings, Registered, FdMine, SetEvents, Payload, Notified, Follows, SameElsewhere;
    LevelAdded(w.c.levels, w.c.mark, |w.c.out| + |rest|);
    LevelAdded(w.c.levels, w.c.mark, |w.c.out|);
    var crosses := Crosses(w.c, |rest|);
    NotifiedKeeps(w, |rest|);
    FollowsSelf(w);
    var v := if crosses then Notified(w, |rest|) else w;
    if crosses || w.c.form == AsIntended {
      BufferedKeeps(v, rest);
      BufferedBalances(v, rest);
      BufferedFollows(v, rest);
      FollowsTrans(w, v, Buffered(v, rest));
    } else {
      StrandedFollows(w, rest);
    }
  }

  lemma RecordedKeeps<K>(w: World<K>, s: Sent, n: nat)
    requires Ready(w) && Up(w) && Balanced(w.c) && MarksCounted(w.c) && n <= |s.data| && (n > 0 ==> w.c.out == [])
    ensures var v := Recorded(w, s, n);
            && Ready(v) && Up(v) && Owed(v.c, s.data[n..]) && MarksCounted(v.c) && Follows(w, v)
            && v.c.state == w.c.state
  {
    hide Crossings, Payload;
    RecordOwes(w.c, s, n);
  }

  lemma AllWrittenFollows<K>(w: World<K>, atOnce: bool)
    requires w.c.state != Disconnected
    ensures Follows(w, AllWritten(w, atOnce))
  {
    var more: seq<Task> := if atOnce && w.c.hasWrite then [WriteCompleteTask(w.c.id)] else [];
    HighWatersOne(WriteCompleteTask(w.c.id));
    assert AllWritten(w, atOnce).q == w.q + more && (w.q + more)[|w.q|..] == more;
  }

  lemma AllWrittenKeeps<K>(w: World<K>, atOnce: bool)
    requires Ready(w) && Up(w) && Balanced(w.c) && MarksCounted(w.c)
    ensures var v := AllWritten(w, atOnce);
            && Ready(v) && Up(v) && Balanced(v.c) && MarksCounted(v.c) && Follows(w, v)
            && v.c.state == w.c.state
  {
    hide Crossings, Payload, Registered, FdMine, Follows;
    LevelAdded(w.c.levels, w.c.mark, |w.c.out|);
    AllWrittenFollows(w, atOnce);
  }

  /** The bytes of the payload that a send functor writes, and those it buffers. */
  function Written<K>(c: Conn<K>, data: seq<byte>, ans: Answer): (n: nat)
    ensures n <= |data|
  {
    if c.state == Disconnected || c.ch.IsWriting() || c.out != [] then 0 else TakenBy(ans, |data|)
  }

  function Kept<K>(c: Conn<K>, data: seq<byte>, ans: Answer): seq<byte> {
    var rest := data[Written(c, data, ans)..];
    if c.state == Disconnected || (!c.ch.IsWriting() && c.out == [] && ans == PeerGone) then []
    else if c.form == AsIntended || Crosses(c, |rest|) then rest else []
  }

  lemma KeepRestBytes<K>(w: World<K>, rest: seq<byte>)
    ensures var v := KeepRest(w, rest);
            && v.c.wire == w.c.wire && v.c.fins == w.c.fins && v.c.spoilt == w.c.spoilt && v.c.state == w.c.state
            && v.c.out == w.c.out + if w.c.form == AsIntended || Crosses(w.c, |rest|) then rest else []
  {
    hide SetEvents;
    assert w.c.out + [] == w.c.out;
  }

  lemma AllWrittenBytes<K>(w: World<K>, atOnce: bool)
    ensures var v := AllWritten(w, atOnce);
            && v.c.wire == w.c.wire && v.c.out == w.c.out && v.c.fins == w.c.fins
            && v.c.spoilt == w.c.spoilt && v.c.state == w.c.state
  {
  }

  lemma RecordedBytes<K>(w: World<K>, data: seq<byte>, ans: Answer, s: Sent, n: nat)
    requires n <= |s.data|
    ensures var r := Recorded(Noted(w, data, ans), s, n);
            && r.c.wire == w.c.wire + s.data[..n] && r.c.out == w.c.out && r.c.fins == w.c.fins && r.c.state == w.c.state
            && r.c.spoilt == (w.c.spoilt || Spoils(w.c, data, ans)) && r.c.form == w.c.form
            && forall m: nat :: Crosses(r.c, m) <==> Crosses(w.c, m)
  {
    hide Spoils;
  }

  /** Where the bytes of a payload go. */
  lemma SendBytes<K>(w: World<K>, from: nat, data: seq<byte>, ans: Answer)
    ensures var v := SendInLoop(w, from, data, ans);
            && v.c.wire == w.c.wire + data[..Written(w.c, data, ans)] && v.c.out == w.c.out + Kept(w.c, data, ans)
            && v.c.fins == w.c.fins && v.c.state == w.c.state
            && v.c.spoilt == (w.c.spoilt || (w.c.state != Disconnected && Spoils(w.c, data, ans)
                                             && !(!w.c.ch.IsWriting() && w.c.out == [] && ans == PeerGone)))
  {
    hide KeepRest, AllWritten, Recorded, Noted, Spoils, Crosses;
    var n := Written(w.c, data, ans);
    var v := Recorded(Noted(w, data, ans), Sent(from, data), n);
    RecordedBytes(w, data, ans, Sent(from, data), n);
    KeepRestBytes(v, data[n..]);
    AllWrittenBytes(v, !w.c.ch.IsWriting() && w.c.out == [] && ans.Wrote?);
    assert w.c.out + [] == w.c.out && w.c.wire + data[..0] == w.c.wire && data[|data|..] == [];
  }

  /** A send functor keeps half-closes clean or is noted as the one that spoilt them. */
  lemma SendGraceful<K>(w: World<K>, from: nat, data: seq<byte>, ans: Answer)
    requires Graceful(w.c) && (w.c.state == Disconnected || Up(w))
    ensures Graceful(SendInLoop(w, from, data, ans).c)
  {
    hide SendInLoop;
    SendBytes(w, from, data, ans);
    var c, d := w.c, SendInLoop(w, from, data, ans).c;
    assert data[0..] == data && d.wire[..|c.wire|] == c.wire;
    if c.spoilt {
      var f :| f in c.fins && f.up && f.at < |c.wire| + |c.out|;
      assert f in d.fins && f.at < |d.wire| + |d.out|;
    } else if c.fins != [] && c.state == Disconnecting {
      assert c.fins[0] in c.fins;
      assert c.out == [] && !c.ch.IsWriting();
      if Spoils(c, data, ans) {
        assert c.fins[0].up && c.fins[0].at < |d.wire| + |d.out|;
      } else {
        assert d.wire == c.wire && d.out == c.out;
      }
    }
  }

  lemma OwedNothing<K>(c: Conn<K>)
    requires Owed(c, [])
    ensures Balanced(c)
  {
    assert c.wire + c.out + [] == c.wire + c.out;
  }

  lemma NotedKeeps<K>(w: World<K>, data: seq<byte>, ans: Answer)
    requires Live(w) && w.c.state != Disconnected
    ensures var x := Noted(w, data, ans);
            && Ready(x) && Up(x) && Balanced(x.c) && MarksCounted(x.c) && Follows(w, x)
            && x == w.(c := w.c.(spoilt := x.c.spoilt))
  {
    hide Crossings, Payload, Registered, FdMine, Spoils;
  }

  lemma SendInLoopKeeps<K>(w: World<K>, from: nat, data: seq<byte>, ans: Answer)
    requires Live(w)
    ensures var v := SendInLoop(w, from, data, ans);
            Live(v) && Follows(w, v) && v.c.state == w.c.state
  {
    SendGraceful(w, from, data, ans);
    hide KeepRest, AllWritten, Recorded, Noted, Registered, FdMine, Owed, Balanced, MarksCounted, Follows, Graceful;
    if w.c.state == Disconnected {
      FollowsSelf(w);
    } else {
      var direct := !w.c.ch.IsWriting() && w.c.out == [];
      var n := if direct then TakenBy(ans, |data|) else 0;
      if direct && ans == PeerGone {
        FollowsSelf(w);
      } else {
        var x := Noted(w, data, ans);
        NotedKeeps(w, data, ans);
        RecordedKeeps(x, Sent(from, data), n);
        var v := Recorded(x, Sent(from, data), n);
        FollowsTrans(w, x, v);
        if n < |data| {
          KeepRestKeeps(v, data[n..]);
          FollowsTrans(w, v, KeepRest(v, data[n..]));
        } else {
          assert data[n..] == [];
          OwedNothing(v.c);
          AllWrittenKeeps(v, direct && ans.Wrote?);
          FollowsTrans(w, v, AllWritten(v, direct && ans.Wrote?));
        }
      }
    }
  }

  lemma ShutdownInLoopKeeps<K>(w: World<K>)
    requires Live(w) && w.c.state != Connected
    ensures var v := ShutdownInLoop(w);
            && Live(v) && Follows(w, v) && v.c.state == w.c.state && v.q == w.q
            && v == w.(c := w.c.(fins := v.c.fins))
  {
    hide Crossings, Payload, Registered, FdMine;
  }

  lemma DrainedKeeps<K>(w: World<K>, n: nat)
    requires Live(w) && Up(w) && 0 < n <= |w.c.out|
    ensures var v := Drained(w, n);
            && Sane(v.c) && Follows(w, v) && Ready(v) && v.c.ch == w.c.ch
            && v.c.state == w.c.state && v.c.log == w.c.log && v.c.ups == 1 && v.c.downs == 0 && v.c.closes == 0
            && (v.c.out != [] ==> Live(v)) && v.c.out == w.c.out[n..]
  {
    hide Crossings, Payload;
    assert (w.c.wire + w.c.out[..n]) + w.c.out[n..] == w.c.wire + w.c.out;
    LevelAdded(w.c.levels, w.c.mark, |w.c.out| - n);
  }

  lemma InterestOffKeeps<K>(w: World<K>)
    requires Ready(w) && Sane(w.c) && w.c.out == [] && w.c.ch.index == Added && w.c.ch.events == READ_EVENT + WRITE_EVENT
    requires w.c.state == Connected || w.c.state == Disconnecting
    requires w.c.ups == 1 && w.c.downs == 0 && w.c.closes == 0
    ensures var v := Interest(w, w.c.ch.events - WRITE_EVENT);
            Live(v) && Up(v) && Follows(w, v) && v.c == w.c.(ch := v.c.ch)
  {
    hide Crossings, Payload;
    InterestKeeps(w, w.c.ch.events - WRITE_EVENT);
    assert w.c.ch.events - WRITE_EVENT == READ_EVENT;
  }

  lemma NotifyKeeps<K>(w: World<K>)
    requires Live(w) && Up(w)
    ensures var v := Notify(w);
            Live(v) && Up(v) && Follows(w, v) && v.c == w.c
  {
    hide Crossings, Payload, Registered, FdMine;
    var v := Notify(w);
    HighWatersOne(WriteCompleteTask(w.c.id));
    HighWatersOne(MemberTask(w.c.id));
    assert v.q[|w.q|..] == if !w.c.hasWrite then [] else
             [if w.c.form == AsIntended then WriteCompleteTask(w.c.id) else MemberTask(w.c.id)];
  }

  lemma HandleWriteKeeps<K>(w: World<K>, ans: Answer)
    requires Live(w)
    ensures var v := HandleWrite(w, ans);
            Live(v) && Follows(w, v) && v.c.state == w.c.state && v.c.log == w.c.log
  {
    hide Interest, Notify, Drained, ShutdownInLoop, Sane, Registered, FdMine, SetEvents;
    var n := TakenBy(ans, |w.c.out|);
    if w.c.ch.IsWriting() && n != 0 {
      var v := Drained(w, n);
      DrainedKeeps(w, n);
      if v.c.out == [] {
        InterestOffKeeps(v);
        var u := Interest(v, v.c.ch.events - WRITE_EVENT);
        FollowsTrans(w, v, u);
        NotifyKeeps(u);
        var t := Notify(u);
        FollowsTrans(w, u, t);
        if t.c.state == Disconnecting {
          ShutdownInLoopKeeps(t);
          FollowsTrans(w, t, ShutdownInLoop(t));
        }
      }
    }
  }

  lemma ShutdownKeeps<K>(w: World<K>)
    requires Live(w)
    ensures Live(Shutdown(w)) && Follows(w, Shutdown(w))
  {
    hide Crossings, Payload, Registered, FdMine;
    HighWatersOne(ShutdownTask(w.c.id));
    assert Shutdown(w).q[|w.q|..] == if w.c.state == Connected then [ShutdownTask(w.c.id)] else [];
  }

  lemma AppCallKeeps<K>(w: World<K>, op: AppOp)
    requires Live(w)
    ensures Live(AppCall(w, op)) && Follows(w, AppCall(w, op))
    ensures w.c.state != Disconnected ==> AppCall(w, op).c.state != Disconnected
  {
    hide SendInLoop, Follows, Sane, Registered, FdMine;
    match op {
      case AppSend(data, ans) =>
        FollowsSelf(w);
        SendInLoopKeeps(w, 0, data, ans);
      case AppShutdown => ShutdownKeeps(w);
    }
  }

  lemma {:induction false} AppCallsKeep<K>(w: World<K>, ops: seq<AppOp>)
    requires Live(w)
    ensures Live(AppCalls(w, ops)) && Follows(w, AppCalls(w, ops))
    ensures w.c.state != Disconnected ==> AppCalls(w, ops).c.state != Disconnected
    decreases |ops|
  {
    if ops != [] {
      var v := AppCalls(w, ops[..|ops| - 1]);
      AppCallsKeep(w, ops[..|ops| - 1]);
      AppCallKeeps(v, ops[|ops| - 1]);
      FollowsTrans(w, v, AppCall(v, ops[|ops| - 1]));
    }
  }

  /** On a connection that is neither up nor coming up, an application can call what it likes. */
  lemma {:induction false} AppCallsIdle<K>(w: World<K>, ops: seq<AppOp>)
    requires w.c.state != Connected
    ensures AppCalls(w, ops) == w
    decreases |ops|
  {
    if ops != [] {
      AppCallsIdle(w, ops[..|ops| - 1]);
    }
  }

  // ------------------------------------------------------------- close and dispatch

  lemma HandleCloseKeeps<K>(w: World<K>, ops: seq<AppOp>)
    requires Live(w) && Up(w)
    ensures var v := HandleClose(w, ops);
            && Live(v) && Down(v) && Follows(w, v) && v.q == w.q && v.c.spoilt == w.c.spoilt
            && w.c.ch.fd !in v.p.kernel
  {
    hide Crossings, Payload, Interest, SetEvents, FdMine;
    var x := w.(c := w.c.(state := Disconnected));
    InterestKeeps(x, NONE_EVENT);
    var v := Interest(x, NONE_EVENT);
    AppCallsIdle(v.(c := v.c.(downs := v.c.downs + 1)), ops);
  }

  /** What a second `handleClose` in the same dispatch does: the deleted channel goes back into the kernel. */
  lemma SecondCloseReArms<K>(w: World<K>, ops: seq<AppOp>)
    requires Live(w) && Down(w) && w.c.ch.fd !in w.p.kernel
    ensures var v := HandleClose(w, ops);
            && v.c.closes == 2 && v.c.downs == 2 && v.c.state == Disconnected
            && v.c.ch.index == Added && !v.c.ch.IsWriting() && w.c.ch.fd in v.p.kernel && v.c.ch.fd == w.c.ch.fd
  {
    hide Crossings, Payload;
    var x := w.(c := w.c.(state := Disconnected));
    InterestKeeps(x, NONE_EVENT);
    var v := Interest(x, NONE_EVENT);
    AppCallsIdle(v.(c := v.c.(downs := v.c.downs + 1)), ops);
  }

  /** Reports that reach `handleClose` at most once. */
  predicate SingleClose(e: Report) {
    !(Hup in e.revents && In !in e.revents && Pri in e.revents && e.read.Eof?)
  }

  /** Once down, reading (short of another end of file) and writing change nothing. */
  lemma DownIdle<K>(w: World<K>, r: ReadResult, ans: Answer)
    requires Live(w) && Down(w) && !r.Eof?
    ensures HandleRead(w, r) == w && HandleWrite(w, ans) == w
  {
    match r
    case Bytes(ops) => AppCallsIdle(w, ops);
    case ReadError =>
  }

  lemma HandleReadKeeps<K>(w: World<K>, r: ReadResult)
    requires Live(w) && Up(w)
    ensures var v := HandleRead(w, r);
            Live(v) && Follows(w, v)
  {
    hide HandleClose, Sane, Registered, FdMine;
    match r
    case Bytes(ops) => AppCallsKeep(w, ops);
    case Eof(ops) => HandleCloseKeeps(w, ops);
    case ReadError =>
  }

  lemma HandleEventKeeps<K>(w: World<K>, e: Report)
    requires Live(w) && Up(w) && SingleClose(e)
    ensures var v := HandleEvent(w, e);
            Live(v) && Follows(w, v)
  {
    hide HandleClose, HandleRead, HandleWrite, Sane, Registered, FdMine;
    if Hup in e.revents && In !in e.revents {
      var v := HandleClose(w, e.hupOps);
      HandleCloseKeeps(w, e.hupOps);
      DownIdle(v, if e.read.Eof? then ReadError else e.read, e.ans);
    } else {
      var u := if In in e.revents || Pri in e.revents then HandleRead(w, e.read) else w;
      HandleReadKeeps(w, e.read);
      HandleWriteKeeps(u, e.ans);
      FollowsTrans(w, u, HandleWrite(u, e.ans));
    }
  }

  lemma HandleReadEof<K>(w: World<K>, r: ReadResult)
    requires r.Eof?
    ensures HandleRead(w, r) == HandleClose(w, r.ops)
  {
  }

  lemma HandleWriteIdle<K>(w: World<K>, ans: Answer)
    requires !w.c.ch.IsWriting()
    ensures HandleWrite(w, ans) == w
  {
  }

  /** Exactly the hang-up reports that carry priority data, no normal data and an end of file close twice,
      and exactly then a closed connection is back in the kernel. */
  lemma SingleCloseIff<K>(w: World<K>, e: Report)
    requires Live(w) && Up(w)
    ensures var v := HandleEvent(w, e);
            && (v.c.closes <= 1 <==> SingleClose(e)) && (v.c.downs <= 1 <==> SingleClose(e))
            && (v.c.state == Disconnected && v.c.ch.fd in v.p.kernel <==> !SingleClose(e))
  {
    hide HandleClose, HandleRead, HandleWrite, Sane, Crossings, Payload;
    if SingleClose(e) {
      HandleEventKeeps(w, e);
    } else {
      var v := HandleClose(w, e.hupOps);
      HandleCloseKeeps(w, e.hupOps);
      SecondCloseReArms(v, e.read.ops);
      assert HandleRead(v, e.read) == HandleClose(v, e.read.ops) by { HandleReadEof(v, e.read); }
      var u := HandleClose(v, e.read.ops);
      HandleWriteIdle(u, e.ans);
    }
  }

  // ---------------------------------------------------- establishing and destroying

  /** A connection object whose channel has never been registered. */
  ghost predicate Idle<K>(w: World<K>) {
    && Ready(w) && w.c.ch.index == New && w.c.ch.events == NONE_EVENT && w.c.state == Connecting
    && Sane(w.c) && w.c.out == [] && w.c.ups == 0 && w.c.downs == 0 && w.c.closes == 0
  }

  function Opened<K>(w: World<K>): World<K> {
    var v := Interest(w.(c := w.c.(state := Connected)), w.c.ch.events + READ_EVENT);
    v.(c := v.c.(ups := v.c.ups + 1))
  }

  lemma EstablishKeeps<K>(w: World<K>, ops: seq<AppOp>)
    requires Idle(w)
    ensures var v := Establish(w, ops);
            && Live(v) && Up(v) && Follows(Opened(w), v)
            && Opened(w).c.state == Connected && Opened(w).q == w.q && SameElsewhere(w.p, v.p, w.c.ch.fd)
            && Opened(w).c == w.c.(state := Connected, ups := 1, ch := Opened(w).c.ch) && Opened(w).c.ch.fd == w.c.ch.fd
    ensures var v := Establish(w, ops);
            v.c.ch.fd in v.p.kernel && v.p.kernel[v.c.ch.fd].key == w.c.key && {In, Pri} <= v.p.kernel[v.c.ch.fd].mask
  {
    hide Crossings, Payload;
    InterestKeeps(w.(c := w.c.(state := Connected)), w.c.ch.events + READ_EVENT);
    assert w.c.ch.events + READ_EVENT == Wanted([]);
    AppCallsKeep(Opened(w), ops);
  }

  /** Destruction leaves no trace of the connection in its poller, whatever state it is called in. */
  lemma DestroyUnregisters<K>(w: World<K>, ops: seq<AppOp>)
    requires Ready(w)
    ensures var v := Destroy(w, ops);
            && Registered(v.p, v.c.key, v.c.ch) && v.c.ch.index == New
            && w.c.ch.fd !in v.p.channels && w.c.ch.fd !in v.p.kernel && SameElsewhere(w.p, v.p, w.c.ch.fd)
            && v.q == w.q && v.c.closes == w.c.closes && v.c.id == w.c.id && v.c.ch.fd == w.c.ch.fd && v.c.key == w.c.key
            && v.c.downs == w.c.downs + (if w.c.state == Connected then 1 else 0)
            && (w.c.state != Connected ==> v.c == w.c.(ch := v.c.ch))
  {
    hide Crossings, Payload, Updated, Removed;
    if w.c.state == Connected {
      var x := w.(c := w.c.(state := Disconnected));
      InterestKeeps(x, NONE_EVENT);
      var v := Interest(x, NONE_EVENT);
      AppCallsIdle(v.(c := v.c.(downs := v.c.downs + 1)), ops);
      RemoveKeeps(v.p, v.c.key, v.c.ch);
    } else {
      RemoveKeeps(w.p, w.c.key, w.c.ch);
    }
  }

  // ---------------------------------------------------------------------- whole runs

  /** What can happen to an established connection: calls of the application on its loop, functors
      running, events being dispatched. */
  datatype Act =
    | Call(op: AppOp)
    | RunSend(from: nat, data: seq<byte>, ans: Answer)
    | RunShutdown
    | Dispatch(e: Report)

  ghost predicate Allowed<K>(w: World<K>, a: Act) {
    match a
    case Call(_) => true
    case RunSend(_, _, _) => true
    case RunShutdown => w.c.state != Connected
    case Dispatch(e) => Up(w) && SingleClose(e)
  }

  function Apply<K>(w: World<K>, a: Act): World<K> {
    match a
    case Call(op) => AppCall(w, op)
    case RunSend(from, data, ans) => SendInLoop(w, from, data, ans)
    case RunShutdown => ShutdownInLoop(w)
    case Dispatch(e) => HandleEvent(w, e)
  }

  lemma ApplyKeeps<K>(w: World<K>, a: Act)
    requires Live(w) && Allowed(w, a)
    ensures Live(Apply(w, a)) && Follows(w, Apply(w, a))
  {
    hide AppCall, SendInLoop, ShutdownInLoop, HandleEvent, Sane, Registered, FdMine;
    match a
    case Call(op) => AppCallKeeps(w, op);
    case RunSend(from, data, ans) => SendInLoopKeeps(w, from, data, ans);
    case RunShutdown => ShutdownInLoopKeeps(w);
    case Dispatch(e) => HandleEventKeeps(w, e);
  }

  ghost predicate IsRun<K>(w: World<K>, acts: seq<Act>)
    decreases |acts|
  {
    acts != [] ==> Allowed(w, acts[0]) && IsRun(Apply(w, acts[0]), acts[1..])
  }

  ghost function After<K>(w: World<K>, acts: seq<Act>): World<K>
    decreases |acts|
  {
    if acts == [] then w else After(Apply(w, acts[0]), acts[1..])
  }

  lemma {:induction false} RunKeeps<K>(w: World<K>, acts: seq<Act>)
    requires Live(w) && IsRun(w, acts)
    ensures Live(After(w, acts)) && Follows(w, After(w, acts))
    decreases |acts|
  {
    hide Apply, Live, Follows, Allowed;
    if acts == [] {
      FollowsSelf(w);
    } else {
      var v := Apply(w, acts[0]);
      ApplyKeeps(w, acts[0]);
      RunKeeps(v, acts[1..]);
      FollowsTrans(w, v, After(v, acts[1..]));
    }
  }

  /** Output conservation. Over every run and every answer of the kernel, bytes written followed by bytes
      buffered are all the payloads that entered `sendInLoop` and were not dropped by a fault, in that order;
      as written, exactly as long as no rest was left unbuffered. */
  lemma OutputConserved<K>(w: World<K>, acts: seq<Act>)
    requires Live(w) && IsRun(w, acts)
    ensures var c := After(w, acts).c;
            && (c.form == AsIntended ==> c.wire + c.out == Payload(c.log))
            && (c.wire + c.out == Payload(c.log) <==> c.lost == 0)
            && w.c.log <= c.log && w.c.wire <= c.wire
  {
    RunKeeps(w, acts);
  }

  /** A send whose rest the file neither buffers nor reports. */
  predicate Strands<K>(c: Conn<K>, data: seq<byte>, ans: Answer) {
    var direct := !c.ch.IsWriting() && c.out == [];
    var n := if direct then TakenBy(ans, |data|) else 0;
    c.form == AsWritten && c.state != Disconnected && !(direct && ans == PeerGone) && n < |data|
    && !Crosses(c, |data| - n)
  }

  lemma KeepRestLoses<K>(w: World<K>, rest: seq<byte>)
    ensures var v := KeepRest(w, rest);
            && v.c.lost == w.c.lost + (if Crosses(w.c, |rest|) || w.c.form == AsIntended then 0 else |rest|)
            && (!Crosses(w.c, |rest|) && w.c.form == AsWritten ==> v.c.out == w.c.out)
  {
    hide SetEvents;
  }

  /** `sendInLoop` loses bytes exactly when the kernel leaves a rest, no fault occurred, and the guard of
      the high-water branch fails; it then loses the whole rest. */
  lemma StrandedIff<K>(w: World<K>, from: nat, data: seq<byte>, ans: Answer)
    requires Live(w)
    ensures var v := SendInLoop(w, from, data, ans);
            && (v.c.lost > w.c.lost <==> Strands(w.c, data, ans))
            && (Strands(w.c, data, ans) ==>
                  v.c.lost == w.c.lost + |data| - (if !w.c.ch.IsWriting() && w.c.out == [] then TakenBy(ans, |data|) else 0)
                  && v.c.out == w.c.out)
            && (w.c.lost == 0 ==> (v.c.wire + v.c.out == Payload(v.c.log) <==> !Strands(w.c, data, ans)))
  {
    hide Crossings, Payload, Registered, FdMine, KeepRest, Follows, MarksCounted, Graceful;
    SendInLoopKeeps(w, from, data, ans);
    var n := if !w.c.ch.IsWriting() && w.c.out == [] then TakenBy(ans, |data|) else 0;
    KeepRestLoses(Recorded(Noted(w, data, ans), Sent(from, data), n), data[n..]);
  }

  /** On a connection of a server that sets no high-water callback, the file never buffers a byte: a
      five-byte message of which the kernel takes two is cut short, while the intended form keeps the rest. */
  lemma RestIsCutAsWritten<K>(w: World<K>, data: seq<byte>)
    requires Live(w) && w.c.state == Connected && w.c.out == [] && !w.c.hasMark && w.c.lost == 0 && |data| == 5
    ensures var v := SendInLoop(w, 0, data, Wrote(2));
            && v.c.wire == w.c.wire + data[..2]
            && (w.c.form == AsWritten ==> v.c.out == [] && v.c.lost == 3 && !v.c.ch.IsWriting())
            && (w.c.form == AsIntended ==> v.c.out == data[2..] && v.c.ch.IsWriting())
  {
    SendInLoopKeeps(w, 0, data, Wrote(2));
  }

  /** Interest is exact in the channel and in the kernel: after every run, while the connection is not down,
      bytes wait in the buffer exactly when the channel asks for writability, exactly when the kernel entry of
      the descriptor is this channel's with EPOLLOUT in its mask; besides, that mask is EPOLLIN and EPOLLPRI. */
  lemma WriteInterestExact<K>(w: World<K>, acts: seq<Act>)
    requires Live(w) && IsRun(w, acts)
    ensures var v := After(w, acts);
            v.c.state == Connected || v.c.state == Disconnecting ==>
              && v.c.ch.fd in v.p.kernel && v.p.kernel[v.c.ch.fd].key == w.c.key
              && (v.c.out != [] <==> v.c.ch.IsWriting())
              && v.p.kernel[v.c.ch.fd].mask == if v.c.out == [] then {In, Pri} else {In, Pri, Out}
  {
    RunKeeps(w, acts);
  }

  // ------------------------------------------------------------------- half-close

  lemma AppCallUnspoilt<K>(w: World<K>, op: AppOp)
    ensures AppCall(w, op).c.spoilt == w.c.spoilt
  {
    hide SendInLoop;
    match op {
      case AppSend(data, ans) => SendBytes(w, 0, data, ans);
      case AppShutdown =>
    }
  }

  lemma {:induction false} AppCallsUnspoilt<K>(w: World<K>, ops: seq<AppOp>)
    ensures AppCalls(w, ops).c.spoilt == w.c.spoilt
    decreases |ops|
  {
    hide AppCall;
    if ops != [] {
      AppCallsUnspoilt(w, ops[..|ops| - 1]);
      AppCallUnspoilt(AppCalls(w, ops[..|ops| - 1]), ops[|ops| - 1]);
    }
  }

  lemma HandleWriteUnspoilt<K>(w: World<K>, ans: Answer)
    ensures HandleWrite(w, ans).c.spoilt == w.c.spoilt
  {
    hide SetEvents;
  }

  lemma HandleCloseUnspoilt<K>(w: World<K>, ops: seq<AppOp>)
    ensures HandleClose(w, ops).c.spoilt == w.c.spoilt
  {
    hide SetEvents, AppCalls;
    var v := Interest(w.(c := w.c.(state := Disconnected)), NONE_EVENT);
    AppCallsUnspoilt(v.(c := v.c.(downs := v.c.downs + 1)), ops);
  }

  /** Nothing that runs on the connection's own loop spoils a half-close, except a send functor. */
  lemma HandleEventUnspoilt<K>(w: World<K>, e: Report)
    ensures HandleEvent(w, e).c.spoilt == w.c.spoilt
  {
    hide SetEvents, Interest, HandleClose, HandleWrite, AppCalls;
    HandleCloseUnspoilt(w, e.hupOps);
    var v := if Hup in e.revents && In !in e.revents then HandleClose(w, e.hupOps) else w;
    match e.read {
      case Bytes(ops) => AppCallsUnspoilt(v, ops);
      case Eof(ops) => HandleCloseUnspoilt(v, ops);
      case ReadError =>
    }
    var u := if In in e.revents || Pri in e.revents then HandleRead(v, e.read) else v;
    HandleWriteUnspoilt(u, e.ans);
  }

  lemma EstablishUnspoilt<K>(w: World<K>, ops: seq<AppOp>)
    ensures Establish(w, ops).c.spoilt == w.c.spoilt
  {
    hide SetEvents, AppCalls;
    AppCallsUnspoilt(Opened(w), ops);
  }

  ghost predicate SpoilsNow<K>(w: World<K>, a: Act) {
    a.RunSend? && Spoils(w.c, a.data, a.ans)
  }

  lemma ApplySpoilt<K>(w: World<K>, a: Act)
    ensures Apply(w, a).c.spoilt == (w.c.spoilt || SpoilsNow(w, a))
  {
    hide AppCall, HandleEvent, SendInLoop;
    match a
    case Call(op) => AppCallUnspoilt(w, op);
    case RunSend(from, data, ans) => SendBytes(w, from, data, ans);
    case RunShutdown =>
    case Dispatch(e) => HandleEventUnspoilt(w, e);
  }

  /** Some send functor of the run gets bytes written or buffered after a half-close. */
  ghost predicate Spoiling<K>(w: World<K>, acts: seq<Act>)
    decreases |acts|
  {
    acts != [] && (SpoilsNow(w, acts[0]) || Spoiling(Apply(w, acts[0]), acts[1..]))
  }

  /** What the kernel does on a socket that has been shut down for writing: `write` fails with EPIPE. */
  ghost predicate Refuses<K>(w: World<K>, a: Act) {
    a.RunSend? && w.c.state == Disconnecting && w.c.fins != [] ==> a.ans == PeerGone
  }

  ghost predicate Refusing<K>(w: World<K>, acts: seq<Act>)
    decreases |acts|
  {
    acts != [] ==> Refuses(w, acts[0]) && Refusing(Apply(w, acts[0]), acts[1..])
  }

  lemma {:induction false} RunSpoilt<K>(w: World<K>, acts: seq<Act>)
    ensures After(w, acts).c.spoilt == (w.c.spoilt || Spoiling(w, acts))
    ensures Refusing(w, acts) ==> !Spoiling(w, acts)
    decreases |acts|
  {
    hide Apply;
    if acts != [] {
      ApplySpoilt(w, acts[0]);
      RunSpoilt(Apply(w, acts[0]), acts[1..]);
    }
  }

  lemma GracefulIff<K>(c: Conn<K>)
    requires Graceful(c)
    ensures Clean(c) <==> !c.spoilt
  {
  }

  /** The exact condition of a graceful half-close, whatever the kernel answers: no send functor that finds the
      connection half-closed gets a byte written or buffered. */
  lemma HalfCloseCleanIff<K>(w: World<K>, acts: seq<Act>)
    requires Live(w) && Clean(w.c) && IsRun(w, acts)
    ensures Clean(After(w, acts).c) <==> !Spoiling(w, acts)
  {
    RunKeeps(w, acts);
    RunSpoilt(w, acts);
    GracefulIff(w.c);
    GracefulIff(After(w, acts).c);
  }

  /** Graceful half-close, with sends from any thread, on a kernel that refuses to write behind a half-close:
      whenever `shutdownWrite` was called, no byte was written after it; if the connection was not yet closed at
      that moment, its buffer was empty and every payload ever accepted (and not lost by the written form) was
      already with the kernel. */
  lemma HalfCloseGraceful<K>(w: World<K>, acts: seq<Act>)
    requires Live(w) && Clean(w.c) && IsRun(w, acts) && Refusing(w, acts)
    ensures var c := After(w, acts).c;
            forall f | f in c.fins ::
              && f.at == |c.wire|
              && (f.up ==> c.out == [] && |c.wire| + c.lost == |Payload(c.log)|)
              && (f.up && c.form == AsIntended ==> c.wire == Payload(c.log))
  {
    RunKeeps(w, acts);
    RunSpoilt(w, acts);
    HalfCloseCleanIff(w, acts);
    var c := After(w, acts).c;
    assert c.wire + [] == c.wire;
  }

  lemma {:induction false} RunSplits<K>(w: World<K>, acts: seq<Act>, a: Act)
    requires IsRun(w, acts + [a]) && Refusing(w, acts + [a])
    ensures IsRun(w, acts) && Refusing(w, acts)
    ensures Allowed(After(w, acts), a) && Refuses(After(w, acts), a)
    ensures After(w, acts + [a]) == Apply(After(w, acts), a)
    decreases |acts|
  {
    hide Apply, Allowed, Refuses;
    if acts == [] {
      assert acts + [a] == [a];
      assert [a][1..] == [];
      assert After(w, [a]) == After(Apply(w, a), []);
    } else {
      assert (acts + [a])[0] == acts[0] && (acts + [a])[1..] == acts[1..] + [a];
      RunSplits(Apply(w, acts[0]), acts[1..], a);
    }
  }

  lemma KeepRestLogs<K>(w: World<K>, rest: seq<byte>)
    ensures KeepRest(w, rest).c.log == w.c.log
  {
    hide SetEvents;
  }

  lemma SendLogsIff<K>(w: World<K>, from: nat, data: seq<byte>, ans: Answer)
    requires Live(w) && Clean(w.c)
    requires w.c.state == Disconnecting && w.c.fins != [] ==> ans == PeerGone
    ensures var v := SendInLoop(w, from, data, ans);
            && (v.c.log == w.c.log <==>
                  w.c.state == Disconnected || w.c.fins != [] || (!w.c.ch.IsWriting() && w.c.out == [] && ans == PeerGone))
            && (v.c.log != w.c.log ==> v.c.log == w.c.log + [Sent(from, data)])
  {
    hide KeepRest, Spoils, Registered, FdMine, Balanced, MarksCounted;
    var n := if !w.c.ch.IsWriting() && w.c.out == [] then TakenBy(ans, |data|) else 0;
    KeepRestLogs(Recorded(Noted(w, data, ans), Sent(from, data), n), data[n..]);
    assert |w.c.log + [Sent(from, data)]| > |w.c.log|;
    assert w.c.fins == [] || w.c.fins[0] in w.c.fins;
  }

  /** A send functor drops its payload exactly when the connection is closed or half-closed, or the peer is found
      gone on a direct write; otherwise the payload is the next one in the log. */
  lemma PayloadDroppedIff<K>(w: World<K>, acts: seq<Act>, from: nat, data: seq<byte>, ans: Answer)
    requires Live(w) && Clean(w.c)
    requires IsRun(w, acts + [RunSend(from, data, ans)]) && Refusing(w, acts + [RunSend(from, data, ans)])
    ensures var c, d := After(w, acts).c, After(w, acts + [RunSend(from, data, ans)]).c;
            && (d.log == c.log <==>
                  c.state == Disconnected || c.fins != [] || (!c.ch.IsWriting() && c.out == [] && ans == PeerGone))
            && (d.log != c.log ==> d.log == c.log + [Sent(from, data)])
  {
    var a := RunSend(from, data, ans);
    RunSplits(w, acts, a);
    HalfCloseCleanIff(w, acts);
    RunSpoilt(w, acts);
    RunKeeps(w, acts);
    SendLogsIff(After(w, acts), from, data, ans);
  }

  lemma ShutdownStores<K>(w: World<K>)
    requires w.c.state == Connected
    ensures Shutdown(w).c == w.c.(state := Disconnecting)
  {
  }

  lemma SendRefused<K>(w: World<K>, from: nat, data: seq<byte>)
    requires !w.c.ch.IsWriting() && w.c.out == []
    ensures SendInLoop(w, from, data, PeerGone) == w
  {
  }

  lemma ConnectedNoFin<K>(w: World<K>)
    requires Live(w) && w.c.state == Connected
    ensures w.c.fins == []
  {
    hide Balanced, MarksCounted, Registered, FdMine;
  }

  /** The write event that empties the buffer of a disconnecting connection half-closes it. */
  lemma DrainCloses<K>(w: World<K>, ans: Answer)
    requires Live(w) && Up(w) && w.c.state == Disconnecting && w.c.out != [] && TakenBy(ans, |w.c.out|) == |w.c.out|
    ensures var v := HandleWrite(w, ans);
            && v.c.out == [] && v.c.wire == w.c.wire + w.c.out && v.c.state == Disconnecting
            && v.c.fins == w.c.fins + [Fin(|w.c.wire| + |w.c.out|, true)] && v.c.log == w.c.log
            && !v.c.ch.IsWriting()
  {
    hide Crossings, Payload, Sane, Registered, FdMine;
    DrainedKeeps(w, |w.c.out|);
  }

  /** A payload another thread has queued while the connection was up can be dropped without any fault:
      `shutdown` finds bytes still waiting, the write event that drains them half-closes ahead of the functor,
      and the kernel then refuses the payload. */
  lemma HalfCloseOvertakesRemoteSend<K>(w: World<K>, from: nat, data: seq<byte>)
    requires Live(w) && w.c.state == Connected && w.c.out != []
    ensures var acts := [Call(AppShutdown), Dispatch(Report({Out}, [], ReadError, Wrote(|w.c.out|))), RunSend(from, data, PeerGone)];
            var c := After(w, acts).c;
            && IsRun(w, acts) && Refusing(w, acts) && c.state == Disconnecting
            && c.fins == [Fin(|w.c.wire| + |w.c.out|, true)] && c.wire == w.c.wire + w.c.out && c.log == w.c.log
  {
    hide Crossings, Payload, HandleWrite, SendInLoop, Shutdown, Registered, FdMine, Follows, Graceful, Sane;
    var e := Report({Out}, [], ReadError, Wrote(|w.c.out|));
    var acts := [Call(AppShutdown), Dispatch(e), RunSend(from, data, PeerGone)];
    var w1 := Shutdown(w);
    ShutdownKeeps(w);
    assert w1.c == w.c.(state := Disconnecting) by { ShutdownStores(w); }
    assert w.c.fins == [] by { ConnectedNoFin(w); }
    DrainCloses(w1, e.ans);
    var w2 := HandleWrite(w1, e.ans);
    assert HandleEvent(w1, e) == w2;
    var w3 := SendInLoop(w2, from, data, PeerGone);
    SendRefused(w2, from, data);
    assert acts[1..] == [Dispatch(e), RunSend(from, data, PeerGone)];
    assert acts[1..][1..] == [RunSend(from, data, PeerGone)] && acts[1..][1..][1..] == [];
    assert Apply(w, acts[0]) == w1 && Apply(w1, acts[1..][0]) == w2 && Apply(w2, acts[1..][1..][0]) == w3;
    assert After(w2, acts[1..][1..]) == After(w3, []) == w3;
    assert IsRun(w2, acts[1..][1..]) && Refusing(w2, acts[1..][1..]);
    assert IsRun(w1, acts[1..]) && Refusing(w1, acts[1..]);
  }

  // ------------------------------------------------------------------ state machine

  /** Over every run: closing is final, a closed connection's channel and poller entry stay as they are, the
      down callback and the close callback have each been called at most once, and exactly once when closed. */
  lemma ClosingIsFinal<K>(w: World<K>, before: seq<Act>, later: seq<Act>)
    requires Live(w) && IsRun(w, before) && IsRun(After(w, before), later)
    ensures var v := After(w, before);
            var u := After(v, later);
            && u.c.closes == u.c.downs == (if u.c.state == Disconnected then 1 else 0)
            && (v.c.state == Disconnected ==>
                  && u.c.state == Disconnected && u.c.ch == v.c.ch && u.p == v.p && u.q == v.q
                  && u.c.wire == v.c.wire && u.c.ch.fd !in u.p.kernel)
            && (v.c.state == Disconnecting ==> u.c.state != Connected)
  {
    RunKeeps(w, before);
    RunKeeps(After(w, before), later);
  }

  /** The store of `shutdown` from another thread, some time after its test of the state. */
  function StoreDisconnecting<K>(w: World<K>): World<K> {
    w.(c := w.c.(state := Disconnecting))
  }

  /** The test and the store are two steps; the store is harmless exactly when the connection has not been
      closed in between. */
  lemma LateStoreIff<K>(w: World<K>)
    requires Live(w)
    ensures Live(StoreDisconnecting(w)) <==> w.c.state != Disconnected
  {
    hide Crossings, Payload, Registered, FdMine;
  }

  lemma RecordedShape<K>(w: World<K>, s: Sent, n: nat)
    requires n <= |s.data|
    ensures var r := Recorded(w, s, n);
            && r.p == w.p && r.c.ch == w.c.ch && r.c.key == w.c.key && r.c.out == w.c.out
            && r.c.form == w.c.form && r.c.closes == w.c.closes && r.c.state == w.c.state
  {
  }

  lemma KeepRestArms<K>(w: World<K>, rest: seq<byte>)
    requires Registered(w.p, w.c.key, w.c.ch) && FdMine(w.p, w.c.key, w.c.ch.fd)
    requires w.c.form == AsIntended && w.c.ch.index == Del && !w.c.ch.IsWriting()
    ensures var u := KeepRest(w, rest);
            u.c.closes == w.c.closes && u.c.ch.fd == w.c.ch.fd && u.c.ch.fd in u.p.kernel
  {
    hide Crossings, Payload, SetEvents, Interest;
    var v := if Crosses(w.c, |rest|) then Notified(w, |rest|) else w;
    var x := v.(c := v.c.(out := v.c.out + rest, levels := v.c.levels + [|v.c.out| + |rest|]));
    InterestKeeps(x, w.c.ch.events + WRITE_EVENT);
    assert Out in w.c.ch.events + WRITE_EVENT;
  }

  /** Closed in between: the store revives the state, and a send functor still queued puts the closed
      descriptor back into the kernel set. */
  lemma LateStoreReArms<K>(w: World<K>, ops: seq<AppOp>, data: seq<byte>)
    requires Live(w) && w.c.state == Connected && w.c.form == AsIntended && data != []
    ensures var v := StoreDisconnecting(HandleClose(w, ops));
            var u := SendInLoop(v, 1, data, WouldBlock);
            v.c.ch.fd !in v.p.kernel && u.c.closes == 1 && u.c.ch.fd == v.c.ch.fd && u.c.ch.fd in u.p.kernel
  {
    hide Crossings, Payload, HandleClose, SetEvents, Recorded;
    HandleCloseKeeps(w, ops);
    var v := StoreDisconnecting(HandleClose(w, ops));
    RecordedShape(Noted(v, data, WouldBlock), Sent(1, data), 0);
    var r := Recorded(Noted(v, data, WouldBlock), Sent(1, data), 0);
    KeepRestArms(r, data[0..]);
  }

  // ---------------------------------------------------------------------- draining

  function Drains<K>(w: World<K>, answers: seq<Answer>): World<K>
    decreases |answers|
  {
    if answers == [] then w else Drains(HandleWrite(w, answers[0]), answers[1..])
  }

  lemma HandleWriteProgress<K>(w: World<K>, ans: Answer)
    requires Live(w) && Up(w) && w.c.out != [] && ans.Wrote? && ans.n > 0
    ensures var v := HandleWrite(w, ans);
            && Live(v) && Up(v) && |v.c.out| < |w.c.out| && v.c.state == w.c.state
            && v.c.wire + v.c.out == w.c.wire + w.c.out
            && (v.c.out == [] && v.c.state == Disconnecting ==>
                  v.c.fins != [] && v.c.fins[|v.c.fins| - 1] == Fin(|v.c.wire|, true))
  {
    hide Interest, Notify, Registered, FdMine, Sane;
    HandleWriteKeeps(w, ans);
    var n := TakenBy(ans, |w.c.out|);
    DrainedKeeps(w, n);
    var v := Drained(w, n);
    assert (w.c.wire + w.c.out[..n]) + w.c.out[n..] == w.c.wire + w.c.out;
    if v.c.out == [] {
      InterestOffKeeps(v);
      NotifyKeeps(Interest(v, v.c.ch.events - WRITE_EVENT));
    }
  }

  lemma DrainedStays<K>(w: World<K>, answers: seq<Answer>)
    requires Live(w) && Up(w) && w.c.out == []
    ensures Drains(w, answers) == w
    decreases |answers|
  {
    if answers != [] {
      assert !w.c.ch.IsWriting();
      DrainedStays(w, answers[1..]);
    }
  }

  /** With no new sends, as many successful writes as there are unsent bytes suffice: everything unsent is
      then on the wire, the channel and the kernel have dropped EPOLLOUT, and a disconnecting connection has
      been half-closed right after its last byte. */
  lemma {:induction false} DrainCompletes<K>(w: World<K>, answers: seq<Answer>)
    requires Live(w) && Up(w) && (w.c.out == [] ==> w.c.state == Connected || Fin(|w.c.wire|, true) in w.c.fins)
    requires |answers| >= |w.c.out|
    requires forall a | a in answers :: a.Wrote? && a.n > 0
    ensures var v := Drains(w, answers);
            && v.c.out == [] && v.c.wire == w.c.wire + w.c.out
            && !v.c.ch.IsWriting() && v.c.ch.fd in v.p.kernel && Out !in v.p.kernel[v.c.ch.fd].mask
            && (v.c.state == Disconnecting ==> Fin(|v.c.wire|, true) in v.c.fins)
    decreases |answers|
  {
    hide Sane, HandleWrite;
    if w.c.out == [] {
      DrainedStays(w, answers);
    } else {
      assert answers[0] in answers;
      HandleWriteProgress(w, answers[0]);
      DrainCompletes(HandleWrite(w, answers[0]), answers[1..]);
    }
  }

  /** Functors that end up in a callback of the application. */
  predicate CallsBack(t: Task) {
    t.WriteCompleteTask? || t.HighWaterTask?
  }

  /** A write that empties the buffer queues one functor when a write-complete callback is set; that functor
      reaches the callback in the intended form only. */
  lemma DrainNotifies<K>(w: World<K>, ans: Answer)
    requires Live(w) && Up(w) && w.c.out != [] && TakenBy(ans, |w.c.out|) == |w.c.out| && w.c.hasWrite
    ensures var v := HandleWrite(w, ans);
            && |v.q| == |w.q| + 1 && v.q[..|w.q|] == w.q && v.q[|w.q|].Owning()
            && (CallsBack(v.q[|w.q|]) <==> w.c.form == AsIntended)
  {
    DrainedKeeps(w, |w.c.out|);
    hide Sane, Registered, FdMine;
  }

  // -------------------------------------------------------------------- high water

  /** Position `i` of the history is an upward crossing of the mark. */
  predicate CrossesAt(levels: seq<nat>, mark: nat, i: nat) {
    0 < i < |levels| && levels[i - 1] < mark <= levels[i]
  }

  lemma {:induction false} CrossingsCount(levels: seq<nat>, mark: nat)
    ensures Crossings(levels, mark) == |set i | 0 <= i < |levels| && CrossesAt(levels, mark, i)|
    decreases |levels|
  {
    var all := set i | 0 <= i < |levels| && CrossesAt(levels, mark, i);
    if |levels| < 2 {
      assert all == {};
    } else {
      var n := |levels| - 1;
      var init := levels[..n];
      CrossingsCount(init, mark);
      var before := set i | 0 <= i < |init| && CrossesAt(init, mark, i);
      assert before == all - {n};
      if CrossesAt(levels, mark, n) {
        assert n in all;
      }
    }
  }

  /** With the callback set, the notifications queued over a run are as many as the upward crossings of the
      mark in the history of the buffered length, and between two of them the length was below the mark. */
  lemma HighWaterNotifications<K>(w: World<K>, acts: seq<Act>)
    requires Live(w) && IsRun(w, acts) && w.c.hasMark
    ensures var c := After(w, acts).c;
            && c.marks == |set i | 0 <= i < |c.levels| && CrossesAt(c.levels, c.mark, i)|
            && w.q <= After(w, acts).q && c.marks == w.c.marks + HighWaters(After(w, acts).q[|w.q|..])
            && (forall i, j | 0 <= i < j && CrossesAt(c.levels, c.mark, i) && CrossesAt(c.levels, c.mark, j) ::
                  exists k :: i < k < j && c.levels[k] < c.mark)
  {
    RunKeeps(w, acts);
    var c := After(w, acts).c;
    CrossingsCount(c.levels, c.mark);
    forall i, j | 0 <= i < j && CrossesAt(c.levels, c.mark, i) && CrossesAt(c.levels, c.mark, j)
      ensures exists k :: i < k < j && c.levels[k] < c.mark
    {
      assert c.levels[j - 1] < c.mark;
    }
  }

  // ------------------------------------------------------------------- who sent what

  /** The payloads of one sender in the log, in order. */
  function From(log: seq<Sent>, from: nat): seq<seq<byte>> {
    if log == [] then [] else
      From(log[..|log| - 1], from) + if log[|log| - 1].from == from then [log[|log| - 1].data] else []
  }

  lemma FromGrows(log: seq<Sent>, s: Sent, from: nat)
    ensures From(log + [s], from) == From(log, from) + if s.from == from then [s.data] else []
  {
    assert (log + [s])[..|log|] == log;
  }

  lemma SendLogs<K>(w: World<K>, from: nat, data: seq<byte>, ans: Answer)
    ensures var log := SendInLoop(w, from, data, ans).c.log;
            log == w.c.log || log == w.c.log + [Sent(from, data)]
  {
    hide KeepRest;
    var n := if !w.c.ch.IsWriting() && w.c.out == [] then TakenBy(ans, |data|) else 0;
    KeepRestLogs(Recorded(Noted(w, data, ans), Sent(from, data), n), data[n..]);
  }

  lemma HandleWriteLogs<K>(w: World<K>, ans: Answer)
    ensures HandleWrite(w, ans).c.log == w.c.log
  {
    hide SetEvents;
  }

  lemma AppCallLogs<K>(w: World<K>, op: AppOp, from: nat)
    requires from > 0
    ensures From(AppCall(w, op).c.log, from) == From(w.c.log, from)
  {
    hide SetEvents, SendInLoop, From;
    match op {
      case AppSend(data, ans) =>
        SendLogs(w, 0, data, ans);
        FromGrows(w.c.log, Sent(0, data), from);
      case AppShutdown =>
    }
  }

  lemma {:induction false} AppCallsLog<K>(w: World<K>, ops: seq<AppOp>, from: nat)
    requires from > 0
    ensures From(AppCalls(w, ops).c.log, from) == From(w.c.log, from)
    decreases |ops|
  {
    hide AppCall, From;
    if ops != [] {
      AppCallsLog(w, ops[..|ops| - 1], from);
      AppCallLogs(AppCalls(w, ops[..|ops| - 1]), ops[|ops| - 1], from);
    }
  }

  lemma HandleCloseLogs<K>(w: World<K>, ops: seq<AppOp>, from: nat)
    requires from > 0
    ensures From(HandleClose(w, ops).c.log, from) == From(w.c.log, from)
  {
    hide SetEvents, AppCalls;
    var v := Interest(w.(c := w.c.(state := Disconnected)), NONE_EVENT);
    AppCallsLog(v.(c := v.c.(downs := v.c.downs + 1)), ops, from);
  }

  /** Dispatching and establishing add nothing to the log on behalf of another thread. */
  lemma HandleEventLogs<K>(w: World<K>, e: Report, from: nat)
    requires from > 0
    ensures From(HandleEvent(w, e).c.log, from) == From(w.c.log, from)
  {
    hide SetEvents, AppCalls, HandleClose, HandleWrite;
    HandleCloseLogs(w, e.hupOps, from);
    var v := if Hup in e.revents && In !in e.revents then HandleClose(w, e.hupOps) else w;
    match e.read {
      case Bytes(ops) => AppCallsLog(v, ops, from);
      case Eof(ops) => HandleCloseLogs(v, ops, from);
      case ReadError =>
    }
    var u := if In in e.revents || Pri in e.revents then HandleRead(v, e.read) else v;
    HandleWriteLogs(u, e.ans);
  }

  lemma EstablishLogs<K>(w: World<K>, ops: seq<AppOp>, from: nat)
    requires from > 0
    ensures From(Establish(w, ops).c.log, from) == From(w.c.log, from)
  {
    hide SetEvents, AppCalls;
    var v := Interest(w.(c := w.c.(state := Connected)), w.c.ch.events + READ_EVENT);
    AppCallsLog(v.(c := v.c.(ups := v.c.ups + 1)), ops, from);
  }
}
