/** The invariant of the server's step system and its preservation by every step. */
module ServerInvariants {
  import opened Common
  import opened Pollers
  import opened ThreadPools
  import opened Servers
  import Names
  import L = EventLoops
  import C = Connections

  // ---------------------------------------------------------------------- the invariant

  ghost predicate Work(q: seq<C.Task>) {
    forall t | t in q :: !t.Lifecycle()
  }

  ghost predicate NoShutdown(q: seq<C.Task>) {
    forall t | t in q :: !t.ShutdownTask?
  }

  /** Functors about connection `id` still to run on loop `k`, in order. */
  function Mine(s: Server, k: nat, id: nat): seq<C.Task>
    requires k < |s.loops|
  {
    About(s.loops[k].Todo(), id)
  }

  /** The state of a connection determines exactly which of its functors are queued, where, and in what
      order: one hand-over functor at a time, and nothing about it behind its destruction. */
  ghost predicate Placed(s: Server, id: nat)
    requires Shape(s) && id < |s.recs|
  {
    var k, st, index := s.recs[id].loop, s.recs[id].c.state, s.recs[id].c.ch.index;
    var here, base := Mine(s, k, id), Mine(s, 0, id);
    && (forall j | 0 < j < |s.loops| && j != k :: Mine(s, j, id) == [])
    && (st == C.Connecting ==> InMap(s, id) && k != 0 && base == [] && here == [C.EstablishTask(id)])
    && (st == C.Connected || st == C.Disconnecting ==>
          && InMap(s, id) && Work(here) && (k != 0 ==> base == [])
          && (st == C.Connected ==> NoShutdown(here)))
    && (st == C.Disconnected && InMap(s, id) ==>
          k != 0 && index == Del && Work(here) && base == [C.RemoveTask(id)])
    && (st == C.Disconnected && !InMap(s, id) && index != New ==>
          && here != [] && here[|here| - 1] == C.DestroyTask(id) && Work(here[..|here| - 1])
          && (k != 0 ==> base == []))
    && (st == C.Disconnected && index == New ==> !InMap(s, id) && here == [] && (k != 0 ==> base == []))
  }

  ghost predicate Absent(p: Poller<nat>, id: nat) {
    && (forall fd | fd in p.channels :: p.channels[fd] != id)
    && (forall fd | fd in p.kernel :: p.kernel[fd].key != id)
  }

  /** The connection's own state, its channel and its loop's poller agree. */
  ghost predicate Fit(s: Server, id: nat)
    requires Shape(s) && id < |s.recs|
  {
    var w := Here(s, id);
    && w.c.key == id && w.c.id == id && Registered(w.p, id, w.c.ch) && C.Sane(w.c)
    && (forall j | 0 <= j < |s.pollers| && j != s.recs[id].loop :: Absent(s.pollers[j], id))
    && (w.c.state == C.Connecting ==>
          && w.c.ch.index == New && w.c.ch.events == NONE_EVENT && w.c.out == []
          && w.c.ups == 0 && w.c.downs == 0 && w.c.closes == 0)
    && (w.c.state == C.Connected || w.c.state == C.Disconnecting ==> C.Up(w))
    && (w.c.state == C.Disconnected ==>
          w.c.closes == 1 && w.c.downs == 1 && w.c.ups == 1 && (C.Down(w) || w.c.ch.index == New))
  }

  /** Events still to be dispatched concern connections of that loop that are up, each at most once. */
  ghost predicate Reported(s: Server, id: nat)
    requires Shape(s) && id < |s.recs|
  {
    forall k | 0 <= k < |s.active| ::
      Hits(s.active[k], id) <=
        if k == s.recs[id].loop && (s.recs[id].c.state == C.Connected || s.recs[id].c.state == C.Disconnecting)
        then 1 else 0
  }

  ghost predicate Good(s: Server, id: nat)
    requires Shape(s) && id < |s.recs|
  {
    Placed(s, id) && Fit(s, id) && Reported(s, id)
  }

  ghost predicate Distinct(s: Server) {
    forall a, b | 0 <= a < |s.recs| && 0 <= b < |s.recs| && Owned(s, a) && Owned(s, b) && a != b ::
      s.recs[a].c.ch.fd != s.recs[b].c.ch.fd
  }

  ghost predicate Inv(s: Server) {
    && Shape(s)
    && (forall id | 0 <= id < |s.recs| :: Good(s, id))
    && Distinct(s)
  }

  /** Owners are never gained back: whoever is owned after a step was owned before it, or is new. */
  ghost predicate OwnersShrink(s: Server, u: Server) {
    |s.recs| <= |u.recs| && forall id: nat | id < |s.recs| && Owned(u, id) :: Owned(s, id)
  }

  // ------------------------------------------------------------------- queue lemmas

  lemma {:induction false} AboutConcat(a: seq<C.Task>, b: seq<C.Task>, id: nat)
    ensures About(a + b, id) == About(a, id) + About(b, id)
    decreases |a|
  {
    if a == [] {
      assert a + b == b;
    } else {
      assert (a + b)[1..] == a[1..] + b && (a + b)[0] == a[0];
      AboutConcat(a[1..], b, id);
      Regroup(if a[0].id == id then [a[0]] else [], About(a[1..], id), About(b, id));
    }
  }

  lemma AboutOne(t: C.Task, id: nat)
    ensures About([t], id) == if t.id == id then [t] else []
  {
    assert [t][1..] == [];
  }

  lemma {:induction false} AboutOnly(q: seq<C.Task>, id: nat, other: nat)
    requires forall t | t in q :: t.id == id
    ensures About(q, other) == if other == id then q else []
    decreases |q|
  {
    if q != [] {
      AboutOnly(q[1..], id, other);
      assert q == [q[0]] + q[1..];
    }
  }

  lemma {:induction false} AboutMember(q: seq<C.Task>, id: nat, t: C.Task)
    ensures t in About(q, id) <==> t in q && t.id == id
    decreases |q|
  {
    if q != [] {
      AboutMember(q[1..], id, t);
      assert q == [q[0]] + q[1..];
    }
  }

  lemma {:induction false} AboutNone(q: seq<C.Task>, id: nat)
    requires forall t | t in q :: t.id < id
    ensures About(q, id) == []
    decreases |q|
  {
    if q != [] {
      AboutNone(q[1..], id);
    }
  }

  lemma {:induction false} HitsMember(events: seq<Occurrence>, id: nat, i: nat)
    requires i < |events| && events[i].Io? && events[i].id == id
    ensures Hits(events, id) >= 1
    decreases |events|
  {
    if i > 0 {
      HitsMember(events[1..], id, i - 1);
    }
  }

  lemma {:induction false} HitsNone(events: seq<Occurrence>, id: nat)
    requires forall i | 0 <= i < |events| && events[i].Io? :: events[i].id != id
    ensures Hits(events, id) == 0
    decreases |events|
  {
    if events != [] {
      HitsNone(events[1..], id);
    }
  }

  lemma {:induction false} HitsOnce(events: seq<Occurrence>, id: nat)
    requires forall i, j | 0 <= i < j < |events| && events[i].Io? && events[j].Io? :: events[i].id != events[j].id
    ensures Hits(events, id) <= 1
    ensures Hits(events, id) == 1 ==> exists i :: 0 <= i < |events| && events[i].Io? && events[i].id == id
    decreases |events|
  {
    if events != [] {
      var tail := events[1..];
      if events[0].Io? && events[0].id == id {
        HitsNone(tail, id);
      } else {
        HitsOnce(tail, id);
        if Hits(tail, id) == 1 {
          var i :| 0 <= i < |tail| && tail[i].Io? && tail[i].id == id;
          assert events[i + 1].id == id;
        }
      }
    }
  }

  // ----------------------------------------------------------- posting to one loop

  lemma PostOwners(l: Loop, t: C.Task, ownThread: bool, id: nat)
    requires ownThread ==> CanPost(l)
    ensures LoopOwns(L.QueueBy(l, t, ownThread), id) ==> LoopOwns(l, id) || (t.id == id && t.Owning())
  {
    var m := L.QueueBy(l, t, ownThread);
    assert m.done == l.done && m.rest == l.rest && m.pending == l.pending + [t];
    if LoopOwns(m, id) {
      var u :| u in m.done + m.rest + m.pending && u.Owning() && u.id == id;
      assert u in l.done + l.rest + l.pending || u == t;
    }
  }

  lemma PostLoop(l: Loop, t: C.Task, ownThread: bool, id: nat)
    requires L.Sound(l) && l.writers == 0 && !l.owes && (ownThread ==> CanPost(l))
    ensures var m := L.QueueBy(l, t, ownThread);
            && L.Sound(m) && m.writers == 0 && !m.owes && m.phase == l.phase && m.quit == l.quit
            && m.Todo() == l.Todo() + [t] && m.executed == l.executed && m.queued == l.queued + [t]
            && About(m.Todo(), id) == About(l.Todo(), id) + (if t.id == id then [t] else [])
            && (LoopOwns(m, id) ==> LoopOwns(l, id) || (t.id == id && t.Owning()))
  {
    hide L.Sound, L.QueueBy, LoopOwns, About;
    L.QueueByKeeps(l, t, ownThread);
    AboutConcat(l.Todo(), [t], id);
    AboutOne(t, id);
    PostOwners(l, t, ownThread, id);
  }

  lemma {:induction false} PostsQueue(l: Loop, q: seq<C.Task>)
    requires L.Sound(l) && l.writers == 0 && CanPost(l)
    ensures var m := Posts(l, q);
            && L.Sound(m) && m.writers == 0 && !m.owes && m.phase == l.phase && m.quit == l.quit
            && m.Todo() == l.Todo() + q && m.executed == l.executed && m.queued == l.queued + q
    decreases |q|
  {
    hide L.Sound, L.QueueBy, About, LoopOwns;
    if q == [] {
      assert l.Todo() + [] == l.Todo() && l.queued + [] == l.queued;
    } else {
      var init, t := q[..|q| - 1], q[|q| - 1];
      PostsQueue(l, init);
      PostLoop(Posts(l, init), t, true, 0);
      assert q == init + [t];
      assert l.Todo() + init + [t] == l.Todo() + q;
      assert l.queued + init + [t] == l.queued + q;
    }
  }

  lemma {:induction false} PostsOwners(l: Loop, q: seq<C.Task>, mine: nat, id: nat)
    requires L.Sound(l) && l.writers == 0 && CanPost(l)
    requires forall t | t in q :: t.id == mine
    ensures LoopOwns(Posts(l, q), id) ==> LoopOwns(l, id) || mine == id
    decreases |q|
  {
    hide L.Sound, L.QueueBy, About, LoopOwns;
    if q != [] {
      var init := q[..|q| - 1];
      assert q[|q| - 1] in q && forall t | t in init :: t in q;
      PostsQueue(l, init);
      PostsOwners(l, init, mine, id);
      PostLoop(Posts(l, init), q[|q| - 1], true, id);
    }
  }

  lemma PostsLoop(l: Loop, q: seq<C.Task>, mine: nat, id: nat)
    requires L.Sound(l) && l.writers == 0 && CanPost(l)
    requires forall t | t in q :: t.id == mine
    ensures var m := Posts(l, q);
            && L.Sound(m) && m.writers == 0 && !m.owes && m.phase == l.phase && m.quit == l.quit
            && m.Todo() == l.Todo() + q && m.executed == l.executed && m.queued == l.queued + q
            && About(m.Todo(), id) == About(l.Todo(), id) + (if mine == id then q else [])
            && (LoopOwns(m, id) ==> LoopOwns(l, id) || mine == id)
  {
    hide L.Sound, L.QueueBy, LoopOwns;
    PostsQueue(l, q);
    PostsOwners(l, q, mine, id);
    AboutConcat(l.Todo(), q, id);
    AboutOnly(q, mine, id);
  }

  // --------------------------------------------------------- effects on other connections

  ghost predicate SameFrame(s: Server, t: Server) {
    && t.name == s.name && t.ipPort == s.ipPort && t.form == s.form
    && |t.loops| == |s.loops| && |t.active| == |s.active| && |t.pollers| == |s.pollers|
  }

  lemma PlacedTransfer(s: Server, t: Server, id: nat)
    requires Shape(s) && Shape(t) && |t.loops| == |s.loops| && id < |s.recs| && id < |t.recs|
    requires Placed(s, id) && t.recs[id] == s.recs[id] && (InMap(t, id) <==> InMap(s, id))
    requires forall j | 0 <= j < |s.loops| :: Mine(t, j, id) == Mine(s, j, id)
    ensures Placed(t, id)
  {
    hide About, Work, NoShutdown, LoopShape, PollerShape, MapShape, InMap, L.Sound, Advances;
  }

  lemma FitTransfer(s: Server, t: Server, id: nat)
    requires Shape(s) && Shape(t) && |t.loops| == |s.loops| && id < |s.recs| && id < |t.recs|
    requires Fit(s, id) && t.recs[id] == s.recs[id]
    requires Registered(t.pollers[s.recs[id].loop], id, s.recs[id].c.ch)
    requires forall j | 0 <= j < |s.loops| && j != s.recs[id].loop :: Absent(t.pollers[j], id)
    ensures Fit(t, id)
  {
    hide C.Sane, Registered, Absent, LoopShape, PollerShape, MapShape, L.Sound, Advances;
  }

  /** Whatever changes around a connection that keeps its own record, its functors, its map entry, its events
      and its registration keeps it good. */
  lemma GoodTransfer(s: Server, t: Server, id: nat)
    requires Shape(s) && Shape(t) && SameFrame(s, t) && id < |s.recs| && id < |t.recs|
    requires Good(s, id) && t.recs[id] == s.recs[id] && (InMap(t, id) <==> InMap(s, id))
    requires forall j | 0 <= j < |s.loops| :: Mine(t, j, id) == Mine(s, j, id)
    requires forall j | 0 <= j < |s.loops| :: Hits(t.active[j], id) <= Hits(s.active[j], id)
    requires Registered(t.pollers[s.recs[id].loop], id, s.recs[id].c.ch)
    requires forall j | 0 <= j < |s.loops| && j != s.recs[id].loop :: Absent(t.pollers[j], id)
    ensures Good(t, id)
  {
    hide About, Hits, L.Sound, Registered, Absent, Placed, Fit, LoopShape, PollerShape, MapShape, Advances;
    PlacedTransfer(s, t, id);
    FitTransfer(s, t, id);
  }

  /** Changing one loop only in phase and wakeup bookkeeping. */
  lemma PhaseKeeps(s: Server, k: nat, l: Loop, events: seq<Occurrence>)
    requires Shape(s) && k < |s.loops| && l.Todo() == s.loops[k].Todo() && LoopShape(l, events, |s.recs|)
    ensures var t := s.(loops := s.loops[k := l], active := s.active[k := events]);
            && Shape(t)
            && (forall id | 0 <= id < |s.recs| && Good(s, id) && Hits(events, id) <= Hits(s.active[k], id) :: Good(t, id))
  {
    hide About, Hits, C.Sane, L.Sound, Registered, Absent, LoopShape, PollerShape, Names.ConnName, Placed, Reported;
    var t := s.(loops := s.loops[k := l], active := s.active[k := events]);
    forall id | 0 <= id < |s.recs| && Good(s, id) && Hits(events, id) <= Hits(s.active[k], id) ensures Good(t, id) {
      GoodTransfer(s, t, id);
    }
  }

  lemma PostShape(s: Server, k: nat, t: C.Task, ownThread: bool)
    requires Shape(s) && k < |s.loops| && t.id < |s.recs| && (ownThread ==> CanPost(s.loops[k]))
    ensures var u := Post(s, k, t, ownThread);
            && Shape(u) && SameFrame(s, u)
            && (forall j | 0 <= j < |s.loops| :: u.loops[j].phase == s.loops[j].phase)
            && (forall j, id: nat | 0 <= j < |s.loops| ::
                  Mine(u, j, id) == Mine(s, j, id) + if j == k && t.id == id then [t] else [])
            && (forall id: nat | Owned(u, id) :: Owned(s, id) || t.id == id)
  {
    hide About, L.Sound, L.QueueBy;
    var u := Post(s, k, t, ownThread);
    PostLoop(s.loops[k], t, ownThread, 0);
    forall j, id: nat | 0 <= j < |s.loops|
      ensures Mine(u, j, id) == Mine(s, j, id) + if j == k && t.id == id then [t] else []
    {
      PostLoop(s.loops[k], t, ownThread, id);
    }
    forall id: nat | Owned(u, id) ensures Owned(s, id) || t.id == id {
      PostLoop(s.loops[k], t, ownThread, id);
      if exists j :: 0 <= j < |u.loops| && LoopOwns(u.loops[j], id) {
        var j :| 0 <= j < |u.loops| && LoopOwns(u.loops[j], id);
        assert j == k || LoopOwns(s.loops[j], id);
      }
    }
  }

  lemma PostOthers(s: Server, k: nat, t: C.Task, ownThread: bool, id: nat)
    requires Shape(s) && k < |s.loops| && t.id < |s.recs| && (ownThread ==> CanPost(s.loops[k]))
    requires id < |s.recs| && id != t.id && Good(s, id)
    ensures Shape(Post(s, k, t, ownThread)) && Good(Post(s, k, t, ownThread), id)
  {
    hide About, Hits, C.Sane, L.Sound, L.QueueBy, Registered, Absent;
    PostShape(s, k, t, ownThread);
    GoodTransfer(s, Post(s, k, t, ownThread), id);
  }

  /** What a handler may do to the world of its connection. */
  ghost predicate OwnChange(s: Server, id: nat, w: C.World<nat>)
    requires Shape(s) && id < |s.recs|
  {
    var fd := s.recs[id].c.ch.fd;
    && w.c.ch.fd == fd && SameElsewhere(s.pollers[s.recs[id].loop], w.p, fd) && FdMine(w.p, id, fd)
    && (forall t | t in w.q :: t.id == id)
  }

  lemma SettleMine(s: Server, id: nat, w: C.World<nat>, j: nat, other: nat)
    requires Shape(s) && id < |s.recs| && CanPost(s.loops[s.recs[id].loop]) && OwnChange(s, id, w) && j < |s.loops|
    ensures var u := Settle(s, id, w);
            && |u.loops| == |s.loops|
            && Mine(u, j, other) == Mine(s, j, other) + (if j == s.recs[id].loop && other == id then w.q else [])
            && (LoopOwns(u.loops[j], other) ==> LoopOwns(s.loops[j], other) || other == id)
  {
    hide About, L.Sound, Posts, LoopOwns, PollerShape, MapShape, SameElsewhere, FdMine;
    var k := s.recs[id].loop;
    assert LoopShape(s.loops[k], s.active[k], |s.recs|);
    PostsLoop(s.loops[k], w.q, id, other);
    assert Mine(s, j, other) + [] == Mine(s, j, other);
  }

  lemma SettlePoller(p: Poller<nat>, q: Poller<nat>, fd: int, id: nat, n: nat)
    requires PollerShape(p, n) && SameElsewhere(p, q, fd) && FdMine(q, id, fd) && id < n
    ensures PollerShape(q, n)
  {
  }

  lemma SettleShape(s: Server, id: nat, w: C.World<nat>)
    requires Shape(s) && id < |s.recs| && CanPost(s.loops[s.recs[id].loop]) && OwnChange(s, id, w)
    ensures var u := Settle(s, id, w);
            && Shape(u) && SameFrame(s, u) && u.recs == s.recs[id := Rec(s.recs[id].loop, w.c)]
            && (forall j | 0 <= j < |s.loops| :: u.loops[j].phase == s.loops[j].phase)
            && (forall j, other: nat | 0 <= j < |s.loops| ::
                  Mine(u, j, other) == Mine(s, j, other) + if j == s.recs[id].loop && other == id then w.q else [])
            && (forall other: nat | Owned(u, other) :: Owned(s, other) || other == id)
  {
    hide About, L.Sound, Posts, SameElsewhere, FdMine, PollerShape, LoopOwns, Names.ConnName;
    var k := s.recs[id].loop;
    var u := Settle(s, id, w);
    assert LoopShape(s.loops[k], s.active[k], |s.recs|);
    PostsLoop(s.loops[k], w.q, id, 0);
    SettlePoller(s.pollers[k], w.p, s.recs[id].c.ch.fd, id, |s.recs|);
    forall j, other: nat | 0 <= j < |s.loops|
      ensures Mine(u, j, other) == Mine(s, j, other) + if j == k && other == id then w.q else []
    {
      SettleMine(s, id, w, j, other);
    }
    forall other: nat | Owned(u, other) ensures Owned(s, other) || other == id {
      if exists j :: 0 <= j < |u.loops| && LoopOwns(u.loops[j], other) {
        var j :| 0 <= j < |u.loops| && LoopOwns(u.loops[j], other);
        SettleMine(s, id, w, j, other);
      }
    }
  }

  lemma SameFdElsewhere(p: Poller<nat>, q: Poller<nat>, fd: int, id: nat, other: nat, ch: Chan)
    requires SameElsewhere(p, q, fd) && Registered(p, other, ch) && other != id && FdMine(q, id, fd)
    requires ch.index != New ==> ch.fd != fd
    ensures Registered(q, other, ch)
  {
    RegisteredFrame(p, q, fd, id, other, ch);
  }

  lemma StillAbsent(p: Poller<nat>, q: Poller<nat>, fd: int, id: nat, other: nat)
    requires SameElsewhere(p, q, fd) && Absent(p, other) && other != id && FdMine(q, id, fd)
    ensures Absent(q, other)
  {
  }

  lemma SettleOthers(s: Server, id: nat, w: C.World<nat>, other: nat)
    requires Shape(s) && id < |s.recs| && CanPost(s.loops[s.recs[id].loop]) && OwnChange(s, id, w)
    requires other < |s.recs| && other != id && Good(s, other)
    requires s.recs[other].c.ch.index != New && s.recs[other].loop == s.recs[id].loop ==>
               s.recs[other].c.ch.fd != s.recs[id].c.ch.fd
    ensures Shape(Settle(s, id, w)) && Good(Settle(s, id, w), other)
  {
    hide About, Hits, C.Sane, L.Sound, Posts;
    SettleShape(s, id, w);
    var u := Settle(s, id, w);
    var k := s.recs[id].loop;
    if s.recs[other].loop == k {
      SameFdElsewhere(s.pollers[k], w.p, s.recs[id].c.ch.fd, id, other, s.recs[other].c.ch);
    } else {
      StillAbsent(s.pollers[k], w.p, s.recs[id].c.ch.fd, id, other);
    }
    GoodTransfer(s, u, other);
  }

  // ----------------------------------------------------------- ownership and descriptors

  lemma KeyInjective(s: Server, a: nat, b: nat)
    requires |s.ipPort| <= 51 && a < Names.INT_MAX && b < Names.INT_MAX && Key(s, a) == Key(s, b)
    ensures a == b
  {
    hide Names.ConnName;
    Names.NamesDistinct(s.name, s.ipPort, a + 1, b + 1);
  }

  /** A connection some functor is still to concern, or whose channel is registered, has an owner. */
  lemma NeededOwned(s: Server, id: nat)
    requires Shape(s) && id < |s.recs| && Good(s, id)
    requires s.recs[id].c.ch.index != New || s.recs[id].c.state != C.Disconnected
             || exists j :: 0 <= j < |s.loops| && Mine(s, j, id) != []
    ensures Owned(s, id)
  {
    hide About, Hits, C.Sane, L.Sound, Registered, Absent;
    var k := s.recs[id].loop;
    if !InMap(s, id) {
      AboutMember(s.loops[k].Todo(), id, C.DestroyTask(id));
      assert C.DestroyTask(id) in s.loops[k].done + s.loops[k].rest + s.loops[k].pending;
      assert LoopOwns(s.loops[k], id);
    }
  }

  lemma FdUser(s: Server, k: nat, user: nat, fd: int)
    requires Shape(s) && k < |s.loops| && user < |s.recs| && Good(s, user)
    requires (fd in s.pollers[k].channels && s.pollers[k].channels[fd] == user)
             || (fd in s.pollers[k].kernel && s.pollers[k].kernel[fd].key == user)
    ensures s.recs[user].loop == k && s.recs[user].c.ch.fd == fd && s.recs[user].c.ch.index != New && Owned(s, user)
  {
    hide About, Hits, C.Sane, L.Sound, Placed, Reported, Owned;
    assert s.recs[user].loop == k;
    NeededOwned(s, user);
  }

  /** In its own poller, nobody else uses the descriptor of a living connection. */
  lemma FdFree(s: Server, id: nat)
    requires Inv(s) && id < |s.recs| && Owned(s, id)
    ensures FdMine(s.pollers[s.recs[id].loop], id, s.recs[id].c.ch.fd)
  {
    hide About, Hits, C.Sane, L.Sound, Placed, Reported, Owned, LoopShape, MapShape;
    var k, fd := s.recs[id].loop, s.recs[id].c.ch.fd;
    var p := s.pollers[k];
    assert PollerShape(p, |s.recs|);
    if fd in p.channels {
      FdUser(s, k, p.channels[fd], fd);
    }
    if fd in p.kernel {
      FdUser(s, k, p.kernel[fd].key, fd);
    }
  }

  lemma OthersElsewhere(s: Server, id: nat, other: nat)
    requires Inv(s) && id < |s.recs| && other < |s.recs| && id != other && Owned(s, id)
    ensures s.recs[other].c.ch.index != New ==> s.recs[other].c.ch.fd != s.recs[id].c.ch.fd
  {
    hide About, Hits, C.Sane, L.Sound, Placed, Reported, Fit, Owned;
    assert Good(s, other);
    if s.recs[other].c.ch.index != New {
      NeededOwned(s, other);
    }
  }

  lemma DistinctKeeps(s: Server, u: Server, id: nat)
    requires Distinct(s) && id < |s.recs| && Owned(s, id) && |u.recs| == |s.recs|
    requires forall other | 0 <= other < |s.recs| :: u.recs[other].c.ch.fd == s.recs[other].c.ch.fd
    requires forall other: nat | Owned(u, other) :: Owned(s, other) || other == id
    ensures Distinct(u)
  {
    hide Owned;
  }

  lemma LiveHere(s: Server, id: nat)
    requires Inv(s) && id < |s.recs| && Owned(s, id)
    requires s.recs[id].c.state != C.Connecting && s.recs[id].c.ch.index != New
    ensures C.Live(Here(s, id))
  {
    hide About, Hits, C.Sane, L.Sound, Placed, Reported, Owned;
    assert Good(s, id);
    FdFree(s, id);
  }

  // --------------------------------------------------------- a handler that does not close

  lemma FollowsOwn(s: Server, id: nat, w: C.World<nat>)
    requires Shape(s) && id < |s.recs| && s.recs[id].c.id == id && s.recs[id].c.key == id
    requires C.Follows(Here(s, id), w) && C.Live(w)
    ensures OwnChange(s, id, w) && C.WorkOf(w.q, id)
    ensures w.c.state == C.Connected ==> NoShutdown(w.q)
  {
    assert w.q[|Here(s, id).q|..] == w.q;
  }

  /** The handler's connection comes out of it with the same stage. */
  ghost predicate SameStage(s: Server, id: nat, w: C.World<nat>)
    requires Shape(s) && id < |s.recs|
  {
    && OwnChange(s, id, w) && C.WorkOf(w.q, id) && (w.c.state == C.Connected ==> NoShutdown(w.q))
    && C.Live(w) && C.Follows(Here(s, id), w)
    && s.recs[id].c.state != C.Connecting
    && (w.c.state == C.Disconnected) == (s.recs[id].c.state == C.Disconnected)
  }

  lemma StagePlaced(s: Server, id: nat, w: C.World<nat>)
    requires Shape(s) && id < |s.recs| && Good(s, id) && CanPost(s.loops[s.recs[id].loop]) && SameStage(s, id, w)
    ensures Shape(Settle(s, id, w)) && Placed(Settle(s, id, w), id)
  {
    hide About, Hits, C.Sane, L.Sound, Posts, Registered, FdMine, SameElsewhere, Reported, LoopShape,
         PollerShape, MapShape;
    SettleShape(s, id, w);
    var u, k := Settle(s, id, w), s.recs[id].loop;
    assert Mine(u, k, id) == Mine(s, k, id) + w.q;
    assert InMap(u, id) == InMap(s, id);
    if s.recs[id].c.state == C.Disconnected {
      assert w.q == [] && Mine(u, k, id) == Mine(s, k, id);
    }
  }

  lemma StageFit(s: Server, id: nat, w: C.World<nat>)
    requires Shape(s) && id < |s.recs| && Good(s, id) && CanPost(s.loops[s.recs[id].loop]) && SameStage(s, id, w)
    ensures Shape(Settle(s, id, w)) && Fit(Settle(s, id, w), id)
  {
    hide About, Hits, C.Sane, L.Sound, Posts, Registered, FdMine, SameElsewhere, Reported, Placed, LoopShape,
         PollerShape, MapShape;
    SettleShape(s, id, w);
    var u, k := Settle(s, id, w), s.recs[id].loop;
    forall j | 0 <= j < |s.pollers| && j != k ensures Absent(u.pollers[j], id) {
      assert u.pollers[j] == s.pollers[j];
    }
  }

  lemma StageState(s: Server, id: nat, w: C.World<nat>)
    requires Shape(s) && id < |s.recs| && Good(s, id) && SameStage(s, id, w)
    ensures s.recs[id].c.state == C.Connected || s.recs[id].c.state == C.Disconnecting ==>
              w.c.state == C.Connected || w.c.state == C.Disconnecting
  {
    hide About, Hits, C.Sane, L.Sound, Registered, FdMine, SameElsewhere, Placed, Reported;
  }

  lemma ActGood(s: Server, id: nat, w: C.World<nat>)
    requires Shape(s) && id < |s.recs| && Good(s, id) && CanPost(s.loops[s.recs[id].loop]) && SameStage(s, id, w)
    ensures Shape(Settle(s, id, w)) && Good(Settle(s, id, w), id)
  {
    hide About, Hits, C.Sane, L.Sound, Posts, Registered, FdMine, SameElsewhere, Placed, Fit, LoopShape,
         PollerShape, MapShape;
    hide C.Live, C.Follows;
    StagePlaced(s, id, w);
    StageFit(s, id, w);
    SettleShape(s, id, w);
    StageState(s, id, w);
  }

  /** Running a handler or functor of an established connection that does not close it keeps the invariant. */
  lemma ActKeeps(s: Server, id: nat, w: C.World<nat>)
    requires Inv(s) && id < |s.recs| && Owned(s, id) && CanPost(s.loops[s.recs[id].loop])
    requires s.recs[id].c.state != C.Connecting
    requires C.Live(w) && C.Follows(Here(s, id), w)
    requires (w.c.state == C.Disconnected) == (s.recs[id].c.state == C.Disconnected)
    ensures Inv(Settle(s, id, w)) && OwnersShrink(s, Settle(s, id, w))
  {
    hide About, Hits, C.Sane, L.Sound, Posts, Placed, Reported, Owned, LoopShape, PollerShape, MapShape, C.Follows;
    assert Good(s, id);
    FollowsOwn(s, id, w);
    SettleShape(s, id, w);
    ActGood(s, id, w);
    var u := Settle(s, id, w);
    forall other | 0 <= other < |u.recs| ensures Good(u, other) {
      if other != id {
        OthersElsewhere(s, id, other);
        SettleOthers(s, id, w, other);
      }
    }
    DistinctKeeps(s, u, id);
  }

  // ------------------------------------------------------------------------ closing

  function Erased(s: Server, id: nat): Server {
    s.(connections := s.connections - {Key(s, id)})
  }

  lemma EraseShape(s: Server, id: nat)
    requires Shape(s) && id < |s.recs|
    ensures var u := Erased(s, id);
            && Shape(u) && SameFrame(s, u) && !InMap(u, id)
            && (forall other: nat | Owned(u, other) :: Owned(s, other))
  {
    hide L.Sound, PollerShape, LoopShape, LoopOwns, Names.ConnName, Advances, LoopOf;
  }

  lemma EraseOthers(s: Server, id: nat, other: nat)
    requires Shape(s) && id < |s.recs| && other < |s.recs| && id != other && Good(s, other)
    ensures Shape(Erased(s, id)) && Good(Erased(s, id), other)
  {
    hide About, Hits, C.Sane, L.Sound, Registered, Absent, LoopShape, PollerShape, Owned, Placed, Reported, Names.ConnName,
         Advances, LoopOf;
    EraseShape(s, id);
    if Key(s, other) == Key(s, id) {
      KeyInjective(s, id, other);
    }
    GoodTransfer(s, Erased(s, id), other);
  }

  /** The record of a connection that has just gone down, before its removal is handed over. */
  ghost predicate Fallen(s: Server, id: nat)
    requires Shape(s) && id < |s.recs|
  {
    && Fit(s, id) && s.recs[id].c.state == C.Disconnected && s.recs[id].c.ch.index == Del
    && (forall k | 0 <= k < |s.active| :: Hits(s.active[k], id) == 0)
    && (forall j | 0 < j < |s.loops| && j != s.recs[id].loop :: Mine(s, j, id) == [])
    && Work(Mine(s, s.recs[id].loop, id)) && (s.recs[id].loop != 0 ==> Mine(s, 0, id) == [])
  }

  /** Everyone but `id` is in order. */
  ghost predicate OthersGood(s: Server, id: nat) {
    Shape(s) && forall other | 0 <= other < |s.recs| && other != id :: Good(s, other)
  }

  lemma DestroyPosted(s: Server, id: nat, ownThread: bool)
    requires OthersGood(s, id) && id < |s.recs| && Fallen(s, id) && !InMap(s, id)
    requires ownThread ==> CanPost(s.loops[s.recs[id].loop])
    ensures var u := Post(s, s.recs[id].loop, C.DestroyTask(id), ownThread);
            OthersGood(u, id) && Good(u, id)
  {
    hide About, Hits, C.Sane, L.Sound, L.QueueBy, Registered, Absent, LoopShape, PollerShape, MapShape;
    var k := s.recs[id].loop;
    PostShape(s, k, C.DestroyTask(id), ownThread);
    var u := Post(s, k, C.DestroyTask(id), ownThread);
    forall other | 0 <= other < |s.recs| && other != id ensures Good(u, other) {
      PostOthers(s, k, C.DestroyTask(id), ownThread, other);
    }
    assert Mine(u, k, id) == Mine(s, k, id) + [C.DestroyTask(id)];
    assert Mine(u, k, id)[..|Mine(s, k, id)|] == Mine(s, k, id);
  }

  lemma RemovePosted(s: Server, id: nat)
    requires OthersGood(s, id) && id < |s.recs| && Fallen(s, id) && InMap(s, id) && s.recs[id].loop != 0
    ensures var u := Post(s, 0, C.RemoveTask(id), false);
            OthersGood(u, id) && Good(u, id)
  {
    hide About, Hits, C.Sane, L.Sound, L.QueueBy, Registered, Absent, LoopShape, PollerShape, MapShape;
    PostShape(s, 0, C.RemoveTask(id), false);
    var u := Post(s, 0, C.RemoveTask(id), false);
    forall other | 0 <= other < |s.recs| && other != id ensures Good(u, other) {
      PostOthers(s, 0, C.RemoveTask(id), false, other);
    }
    assert Mine(u, 0, id) == Mine(s, 0, id) + [C.RemoveTask(id)];
  }

  lemma FitSame(s: Server, t: Server, id: nat)
    requires Shape(s) && Shape(t) && id < |s.recs| && t.recs == s.recs && t.pollers == s.pollers && Fit(s, id)
    ensures Fit(t, id)
  {
    hide C.Sane, Registered, Absent, C.Down, C.Up, LoopShape, PollerShape, MapShape, L.Sound;
  }

  lemma ErasedFallen(s: Server, id: nat)
    requires Shape(s) && id < |s.recs| && Fallen(s, id)
    ensures Shape(Erased(s, id)) && Fallen(Erased(s, id), id)
  {
    hide About, Hits, LoopShape, PollerShape, MapShape, Fit, Work, Owned, InMap, L.Sound;
    EraseShape(s, id);
    var e, k := Erased(s, id), s.recs[id].loop;
    FitSame(s, e, id);
    assert Mine(e, k, id) == Mine(s, k, id) && Mine(e, 0, id) == Mine(s, 0, id);
    assert forall j | 0 < j < |e.loops| && j != k :: Mine(e, j, id) == Mine(s, j, id);
    assert forall j | 0 <= j < |e.active| :: Hits(e.active[j], id) == Hits(s.active[j], id);
  }

  /** `removeConnectionInLoop` hands the connection over to its destruction. */
  lemma RemoveInLoopKeeps(s: Server, id: nat)
    requires OthersGood(s, id) && id < |s.recs| && Fallen(s, id)
    requires s.recs[id].loop == 0 ==> CanPost(s.loops[0])
    ensures var u := RemoveInLoop(s, id);
            && OthersGood(u, id) && Good(u, id) && u.recs == s.recs
            && (forall other: nat | Owned(u, other) :: Owned(s, other) || other == id)
  {
    hide About, Hits, C.Sane, L.Sound, L.QueueBy, Registered, Absent, LoopShape, PollerShape, MapShape, Good, Owned;
    hide Fallen, InMap;
    EraseShape(s, id);
    ErasedFallen(s, id);
    var e := Erased(s, id);
    forall other | 0 <= other < |s.recs| && other != id ensures Good(e, other) {
      EraseOthers(s, id, other);
    }
    DestroyPosted(e, id, s.recs[id].loop == 0);
    PostShape(e, s.recs[id].loop, C.DestroyTask(id), s.recs[id].loop == 0);
  }

  lemma RemoveConnectionKeeps(s: Server, id: nat)
    requires OthersGood(s, id) && id < |s.recs| && Fallen(s, id) && InMap(s, id)
    requires s.recs[id].loop == 0 ==> CanPost(s.loops[0])
    ensures var u := RemoveConnection(s, id);
            && OthersGood(u, id) && Good(u, id) && u.recs == s.recs
            && (forall other: nat | Owned(u, other) :: Owned(s, other) || other == id)
  {
    hide About, Hits, C.Sane, L.Sound, L.QueueBy, Registered, Absent, LoopShape, PollerShape, MapShape, Good, Owned;
    if s.recs[id].loop == 0 {
      RemoveInLoopKeeps(s, id);
    } else {
      RemovePosted(s, id);
      PostShape(s, 0, C.RemoveTask(id), false);
    }
  }

  lemma ClosedFallen(s: Server, id: nat, w: C.World<nat>)
    requires Shape(s) && id < |s.recs| && Good(s, id) && CanPost(s.loops[s.recs[id].loop])
    requires OwnChange(s, id, w) && C.WorkOf(w.q, id) && C.Live(w) && C.Down(w) && C.Follows(Here(s, id), w)
    requires s.recs[id].c.state == C.Connected || s.recs[id].c.state == C.Disconnecting
    requires forall k | 0 <= k < |s.active| :: Hits(s.active[k], id) == 0
    ensures Shape(Settle(s, id, w)) && Fallen(Settle(s, id, w), id) && InMap(Settle(s, id, w), id)
  {
    hide About, Hits, C.Sane, L.Sound, Posts, Registered, FdMine, SameElsewhere, LoopShape, PollerShape, MapShape;
    SettleShape(s, id, w);
    var u, k := Settle(s, id, w), s.recs[id].loop;
    assert Mine(u, k, id) == Mine(s, k, id) + w.q;
    forall j | 0 <= j < |s.pollers| && j != k ensures Absent(u.pollers[j], id) {
      assert u.pollers[j] == s.pollers[j];
    }
  }

  /** A handler that closes its connection, followed by the close callback, keeps the invariant. */
  lemma CloseKeeps(s: Server, id: nat, w: C.World<nat>)
    requires Inv(s) && id < |s.recs| && Owned(s, id) && CanPost(s.loops[s.recs[id].loop])
    requires s.recs[id].c.state == C.Connected || s.recs[id].c.state == C.Disconnecting
    requires forall k | 0 <= k < |s.active| :: Hits(s.active[k], id) == 0
    requires C.Live(w) && C.Down(w) && C.Follows(Here(s, id), w)
    ensures Inv(RemoveConnection(Settle(s, id, w), id)) && OwnersShrink(s, RemoveConnection(Settle(s, id, w), id))
  {
    hide About, Hits, C.Sane, L.Sound, Posts, Placed, Reported, Owned, LoopShape, PollerShape, MapShape, C.Follows;
    assert Good(s, id);
    FollowsOwn(s, id, w);
    SettleShape(s, id, w);
    ClosedFallen(s, id, w);
    var t := Settle(s, id, w);
    forall other | 0 <= other < |t.recs| && other != id ensures Good(t, other) {
      OthersElsewhere(s, id, other);
      SettleOthers(s, id, w, other);
    }
    RemoveConnectionKeeps(t, id);
    DistinctKeeps(s, RemoveConnection(t, id), id);
  }

  /** The pieces of the invariant put together after a step that concerned one connection. */
  lemma Assemble(s: Server, u: Server, id: nat)
    requires Distinct(s) && id < |s.recs| && Owned(s, id) && |u.recs| == |s.recs|
    requires OthersGood(u, id) && Good(u, id)
    requires forall other | 0 <= other < |s.recs| :: u.recs[other].c.ch.fd == s.recs[other].c.ch.fd
    requires forall other: nat | Owned(u, other) :: Owned(s, other) || other == id
    ensures Inv(u) && OwnersShrink(s, u)
  {
    hide Owned, Good, Shape;
    DistinctKeeps(s, u, id);
  }

  // ---------------------------------------------------- taking a functor off the batch

  function Popped(s: Server, k: nat): Server
    requires k < |s.loops| && L.Enabled(s.loops[k], L.RunNext)
  {
    WithLoop(s, k, L.Next(s.loops[k], L.RunNext))
  }

  lemma PopLoop(l: Loop, id: nat)
    requires L.Sound(l) && L.Enabled(l, L.RunNext)
    ensures var m := L.Next(l, L.RunNext);
            && L.Sound(m) && m.Todo() == l.Todo()[1..] && m.phase == l.phase && m.owes == l.owes && m.writers == l.writers
            && About(l.Todo(), id) == (if l.rest[0].id == id then [l.rest[0]] else []) + About(m.Todo(), id)
            && (LoopOwns(m, id) <==> LoopOwns(l, id))
  {
    L.NextKeepsSound(l, L.RunNext);
    var m := L.Next(l, L.RunNext);
    assert m.done + m.rest + m.pending == l.done + l.rest + l.pending by {
      assert l.rest == [l.rest[0]] + l.rest[1..];
      assert l.done + [l.rest[0]] + l.rest[1..] == l.done + ([l.rest[0]] + l.rest[1..]);
    }
    assert m.Todo() == l.Todo()[1..];
  }

  lemma PopShape(s: Server, k: nat)
    requires Shape(s) && k < |s.loops| && L.Enabled(s.loops[k], L.RunNext)
    ensures var u := Popped(s, k);
            && Shape(u) && SameFrame(s, u)
            && (forall j | 0 <= j < |s.loops| :: u.loops[j].phase == s.loops[j].phase)
            && (forall j, id: nat | 0 <= j < |s.loops| ::
                  Mine(s, j, id)
                  == (if j == k && s.loops[k].rest[0].id == id then [s.loops[k].rest[0]] else []) + Mine(u, j, id))
            && (forall id: nat :: Owned(u, id) <==> Owned(s, id))
  {
    hide About, L.Sound, LoopOwns;
    var u := Popped(s, k);
    PopLoop(s.loops[k], 0);
    forall j, id: nat | 0 <= j < |s.loops|
      ensures Mine(s, j, id)
                  == (if j == k && s.loops[k].rest[0].id == id then [s.loops[k].rest[0]] else []) + Mine(u, j, id)
    {
      PopLoop(s.loops[k], id);
      if !(j == k && s.loops[k].rest[0].id == id) {
        assert [] + Mine(u, j, id) == Mine(u, j, id);
      }
    }
    forall id: nat ensures Owned(u, id) <==> Owned(s, id) {
      PopLoop(s.loops[k], id);
      forall j | 0 <= j < |s.loops| ensures LoopOwns(u.loops[j], id) <==> LoopOwns(s.loops[j], id) {
      }
    }
  }

  lemma PopOthers(s: Server, k: nat, id: nat)
    requires Shape(s) && k < |s.loops| && L.Enabled(s.loops[k], L.RunNext)
    requires id < |s.recs| && id != s.loops[k].rest[0].id && Good(s, id)
    ensures Shape(Popped(s, k)) && Good(Popped(s, k), id)
  {
    hide About, Hits, C.Sane, L.Sound, Registered, Absent, L.Next;
    PopShape(s, k);
    var u := Popped(s, k);
    forall j | 0 <= j < |s.loops| ensures Mine(u, j, id) == Mine(s, j, id) {
      assert [] + Mine(u, j, id) == Mine(u, j, id);
    }
    GoodTransfer(s, u, id);
  }

  lemma HeadMine(s: Server, k: nat)
    requires Shape(s) && k < |s.loops| && L.Enabled(s.loops[k], L.RunNext)
    ensures var t := s.loops[k].rest[0]; var u := Popped(s, k);
            && t.id < |s.recs| && Shape(u) && Mine(s, k, t.id) == [t] + Mine(u, k, t.id)
            && (forall j | 0 <= j < |s.loops| && j != k :: Mine(u, j, t.id) == Mine(s, j, t.id))
  {
    hide About, L.Sound, L.Next, PollerShape, MapShape;
    var t, u := s.loops[k].rest[0], Popped(s, k);
    PopShape(s, k);
    assert t in s.loops[k].Todo();
    forall j | 0 <= j < |s.loops| && j != k ensures Mine(u, j, t.id) == Mine(s, j, t.id) {
      assert [] + Mine(u, j, t.id) == Mine(u, j, t.id);
    }
  }

  /** Which functor can be at the head of a batch, given the state of its connection. */
  ghost predicate HeadFits(s: Server, k: nat, t: C.Task, later: seq<C.Task>)
    requires Shape(s) && k < |s.loops| && t.id < |s.recs|
  {
    var st := s.recs[t.id].c.state;
    && RightLoop(s, k, t)
    && (t.EstablishTask? ==> st == C.Connecting && later == [] && k != 0)
    && (t.RemoveTask? ==> st == C.Disconnected && InMap(s, t.id) && later == [])
    && (t.DestroyTask? ==> st == C.Disconnected && !InMap(s, t.id) && s.recs[t.id].c.ch.index == Del && later == [])
    && (!t.Lifecycle() ==> st != C.Connecting && s.recs[t.id].c.ch.index != New)
    && (t.ShutdownTask? ==> st != C.Connected)
  }

  lemma HeadPlaced(s: Server, k: nat, t: C.Task, later: seq<C.Task>)
    requires Shape(s) && k < |s.loops| && t.id < |s.recs| && Good(s, t.id)
    requires Mine(s, k, t.id) == [t] + later
    ensures HeadFits(s, k, t, later) && Owned(s, t.id)
  {
    hide About, Hits, C.Sane, L.Sound, Registered, Absent, LoopShape, PollerShape, MapShape, Owned, LoopOwns,
         Reported;
    NeededOwned(s, t.id);
    var here := Mine(s, k, t.id);
    assert here[0] == t && t in here;
    assert k == 0 || k == s.recs[t.id].loop;
    if later != [] {
      assert here[..|here| - 1][0] == t && t in here[..|here| - 1];
    }
  }

  lemma WorkParts(t: C.Task, later: seq<C.Task>)
    ensures Work([t] + later) ==> Work(later)
    ensures NoShutdown([t] + later) ==> NoShutdown(later)
    ensures later != [] && Work(([t] + later)[..|later|]) ==> Work(later[..|later| - 1])
  {
    var all := [t] + later;
    forall x | x in later ensures x in all {
    }
    if later != [] {
      assert all[..|later|] == [t] + later[..|later| - 1];
    }
  }

  /** The rest of a connection's functors after one that hands nothing over is as well placed as before. */
  lemma PopWorkPlaced(s: Server, u: Server, id: nat, k: nat, t: C.Task)
    requires Shape(s) && Shape(u) && id < |s.recs| && u.recs == s.recs && |u.loops| == |s.loops| && k == s.recs[id].loop
    requires Placed(s, id) && !t.Lifecycle() && Mine(s, k, id) == [t] + Mine(u, k, id)
    requires forall j | 0 <= j < |s.loops| && j != k :: Mine(u, j, id) == Mine(s, j, id)
    requires InMap(u, id) == InMap(s, id)
    ensures Placed(u, id)
  {
    hide About, Work, NoShutdown, LoopShape, PollerShape, MapShape, InMap, L.Sound;
    var here, later := Mine(s, k, id), Mine(u, k, id);
    WorkParts(t, later);
    assert t == here[0];
    if s.recs[id].c.state == C.Disconnected && !InMap(s, id) {
      assert here[|here| - 1] == C.DestroyTask(id) && later != [];
      assert later[|later| - 1] == here[|here| - 1];
    }
  }

  lemma PopWorkGood(s: Server, k: nat)
    requires Shape(s) && k < |s.loops| && L.Enabled(s.loops[k], L.RunNext) && !s.loops[k].rest[0].Lifecycle()
    requires s.loops[k].rest[0].id < |s.recs| && Good(s, s.loops[k].rest[0].id)
    ensures Shape(Popped(s, k)) && Good(Popped(s, k), s.loops[k].rest[0].id)
  {
    hide About, Hits, C.Sane, L.Sound, Registered, Absent, L.Next, PollerShape, MapShape, LoopShape, Owned, Fit,
         Work, NoShutdown, Placed;
    var t, u := s.loops[k].rest[0], Popped(s, k);
    var id := t.id;
    HeadMine(s, k);
    PopShape(s, k);
    FitSame(s, u, id);
    HeadPlaced(s, k, t, Mine(u, k, id));
    PopWorkPlaced(s, u, id, k, t);
  }

  /** Taking off a functor that hands nothing over leaves its connection in order. */
  lemma PopWork(s: Server, k: nat)
    requires Inv(s) && k < |s.loops| && L.Enabled(s.loops[k], L.RunNext) && !s.loops[k].rest[0].Lifecycle()
    ensures Inv(Popped(s, k)) && OwnersShrink(s, Popped(s, k)) && Owned(s, s.loops[k].rest[0].id)
  {
    hide About, Hits, C.Sane, L.Sound, Registered, Absent, L.Next, PollerShape, MapShape, LoopShape, Owned,
         Placed, Fit;
    var t, u := s.loops[k].rest[0], Popped(s, k);
    PopShape(s, k);
    HeadMine(s, k);
    HeadPlaced(s, k, t, Mine(u, k, t.id));
    forall other | 0 <= other < |u.recs| && other != t.id ensures Good(u, other) {
      PopOthers(s, k, other);
    }
    PopWorkGood(s, k);
    Assemble(s, u, t.id);
  }

  // ------------------------------------------------------------------- establishing

  /** In the map, not yet registered, and nothing queued about it. */
  ghost predicate Newborn(s: Server, id: nat)
    requires Shape(s) && id < |s.recs|
  {
    && Fit(s, id) && s.recs[id].c.state == C.Connecting && InMap(s, id)
    && (forall j | 0 <= j < |s.loops| :: Mine(s, j, id) == [])
    && (forall j | 0 <= j < |s.active| :: Hits(s.active[j], id) == 0)
  }

  lemma EstablishWorld(s: Server, id: nat, ops: seq<C.AppOp>)
    requires Shape(s) && id < |s.recs| && Newborn(s, id)
    requires FdMine(s.pollers[s.recs[id].loop], id, s.recs[id].c.ch.fd)
    ensures var w := C.Establish(Here(s, id), ops);
            && C.Live(w) && C.Up(w) && OwnChange(s, id, w) && C.WorkOf(w.q, id) && w.c.key == id && w.c.id == id
            && (w.c.state == C.Connected ==> NoShutdown(w.q))
  {
    hide About, Hits, C.Sane, L.Sound, Registered, FdMine, SameElsewhere, Absent, LoopShape, PollerShape, MapShape;
    hide C.Establish, C.Opened;
    var h := Here(s, id);
    C.EstablishKeeps(h, ops);
    var w := C.Establish(h, ops);
    assert w.q[|C.Opened(h).q|..] == w.q;
  }

  lemma EstablishGood(s: Server, id: nat, w: C.World<nat>)
    requires Shape(s) && id < |s.recs| && Newborn(s, id) && CanPost(s.loops[s.recs[id].loop])
    requires C.Live(w) && C.Up(w) && OwnChange(s, id, w) && C.WorkOf(w.q, id) && w.c.key == id && w.c.id == id
    requires w.c.state == C.Connected ==> NoShutdown(w.q)
    ensures Shape(Settle(s, id, w)) && Good(Settle(s, id, w), id)
  {
    hide About, Hits, C.Sane, L.Sound, Registered, FdMine, SameElsewhere, LoopShape, PollerShape, MapShape, Posts;
    SettleShape(s, id, w);
    var u, k := Settle(s, id, w), s.recs[id].loop;
    assert Mine(u, k, id) == [] + w.q == w.q;
    assert InMap(u, id) == InMap(s, id);
    forall j | 0 <= j < |s.pollers| && j != k ensures Absent(u.pollers[j], id) {
      assert u.pollers[j] == s.pollers[j];
    }
  }

  /** The descriptor of `id` is used by no other registered connection. */
  ghost predicate FdAlone(s: Server, id: nat)
    requires id < |s.recs|
  {
    forall other | 0 <= other < |s.recs| && other != id && s.recs[other].c.ch.index != New ::
      s.recs[other].c.ch.fd != s.recs[id].c.ch.fd
  }

  lemma EstablishKeeps(s: Server, id: nat, ops: seq<C.AppOp>)
    requires OthersGood(s, id) && id < |s.recs| && Newborn(s, id) && CanPost(s.loops[s.recs[id].loop])
    requires FdMine(s.pollers[s.recs[id].loop], id, s.recs[id].c.ch.fd) && FdAlone(s, id)
    ensures var u := Settle(s, id, C.Establish(Here(s, id), ops));
            && OthersGood(u, id) && Good(u, id) && |u.recs| == |s.recs|
            && (forall other | 0 <= other < |s.recs| :: u.recs[other].c.ch.fd == s.recs[other].c.ch.fd)
            && (forall other: nat | Owned(u, other) :: Owned(s, other) || other == id)
  {
    hide About, Hits, C.Sane, L.Sound, Registered, FdMine, SameElsewhere, LoopShape, PollerShape, MapShape, Posts;
    hide C.Establish, Newborn, Good, Owned, Settle;
    EstablishWorld(s, id, ops);
    var w := C.Establish(Here(s, id), ops);
    SettleShape(s, id, w);
    EstablishGood(s, id, w);
    forall other | 0 <= other < |s.recs| && other != id ensures Good(Settle(s, id, w), other) {
      SettleOthers(s, id, w, other);
    }
  }

  lemma FdAloneHere(s: Server, id: nat)
    requires Inv(s) && id < |s.recs| && Owned(s, id)
    ensures FdAlone(s, id)
  {
    hide Owned, Good, Shape;
    forall other | 0 <= other < |s.recs| && other != id && s.recs[other].c.ch.index != New
      ensures s.recs[other].c.ch.fd != s.recs[id].c.ch.fd
    {
      OthersElsewhere(s, id, other);
    }
  }

  lemma PopOthersGood(s: Server, k: nat)
    requires Inv(s) && k < |s.loops| && L.Enabled(s.loops[k], L.RunNext)
    ensures s.loops[k].rest[0].id < |s.recs| && OthersGood(Popped(s, k), s.loops[k].rest[0].id)
  {
    hide About, Hits, L.Sound, L.Next, Owned, Placed, Fit, Reported;
    HeadMine(s, k);
    PopShape(s, k);
    forall other | 0 <= other < |s.recs| && other != s.loops[k].rest[0].id ensures Good(Popped(s, k), other) {
      PopOthers(s, k, other);
    }
  }

  lemma RunEstablish(s: Server, k: nat, ops: seq<C.AppOp>)
    requires Inv(s) && k < |s.loops| && L.Enabled(s.loops[k], L.RunNext) && s.loops[k].rest[0].EstablishTask?
    ensures var t := s.loops[k].rest[0]; var u := Popped(s, k);
            && RightLoop(s, k, t) && CanPost(u.loops[k])
            && Inv(Settle(u, t.id, C.Establish(Here(u, t.id), ops)))
            && OwnersShrink(s, Settle(u, t.id, C.Establish(Here(u, t.id), ops)))
  {
    hide About, Hits, C.Sane, L.Sound, L.Next, Registered, FdMine, Absent, PollerShape, MapShape, Owned, Posts,
         C.Establish;
    var t, u := s.loops[k].rest[0], Popped(s, k);
    PopShape(s, k);
    HeadMine(s, k);
    HeadPlaced(s, k, t, Mine(u, k, t.id));
    PopOthersGood(s, k);
    FitSame(s, u, t.id);
    FdFree(s, t.id);
    FdAloneHere(s, t.id);
    assert Newborn(u, t.id);
    assert FdAlone(u, t.id);
    EstablishKeeps(u, t.id, ops);
    Assemble(s, Settle(u, t.id, C.Establish(Here(u, t.id), ops)), t.id);
  }

  // ------------------------------------------------------------ removing and destroying

  lemma RunRemove(s: Server, k: nat)
    requires Inv(s) && k < |s.loops| && L.Enabled(s.loops[k], L.RunNext) && s.loops[k].rest[0].RemoveTask?
    ensures var t := s.loops[k].rest[0]; var u := Popped(s, k);
            && RightLoop(s, k, t) && CanPost(u.loops[0])
            && Inv(RemoveInLoop(u, t.id)) && OwnersShrink(s, RemoveInLoop(u, t.id))
  {
    hide About, Hits, C.Sane, L.Sound, L.Next, L.QueueBy, Registered, FdMine, Absent, PollerShape, MapShape, Owned;
    var t, u := s.loops[k].rest[0], Popped(s, k);
    PopShape(s, k);
    HeadMine(s, k);
    HeadPlaced(s, k, t, Mine(u, k, t.id));
    PopOthersGood(s, k);
    FitSame(s, u, t.id);
    assert Fallen(u, t.id);
    RemoveInLoopKeeps(u, t.id);
    Assemble(s, RemoveInLoop(u, t.id), t.id);
  }

  lemma SaneChannel(c: C.Conn<nat>, d: C.Conn<nat>)
    requires C.Sane(c) && d == c.(ch := d.ch)
    ensures C.Sane(d)
  {
  }

  lemma DestroyGood(s: Server, id: nat, ops: seq<C.AppOp>)
    requires Shape(s) && id < |s.recs| && Fit(s, id) && CanPost(s.loops[s.recs[id].loop])
    requires s.recs[id].c.state == C.Disconnected && s.recs[id].c.ch.index == Del && !InMap(s, id)
    requires forall j | 0 <= j < |s.loops| :: Mine(s, j, id) == []
    requires forall j | 0 <= j < |s.active| :: Hits(s.active[j], id) == 0
    requires FdMine(s.pollers[s.recs[id].loop], id, s.recs[id].c.ch.fd)
    ensures var w := C.Destroy(Here(s, id), ops);
            && OwnChange(s, id, w) && Shape(Settle(s, id, w)) && Good(Settle(s, id, w), id)
            && s.recs[id].c.ch.fd !in w.p.channels && s.recs[id].c.ch.fd !in w.p.kernel
  {
    hide About, Hits, C.Sane, L.Sound, LoopShape, PollerShape, MapShape, Posts, SameElsewhere, C.Destroy;
    var h, k := Here(s, id), s.recs[id].loop;
    C.DestroyUnregisters(h, ops);
    var w := C.Destroy(h, ops);
    SaneChannel(h.c, w.c);
    SettleShape(s, id, w);
    var u := Settle(s, id, w);
    assert Mine(u, k, id) == [] + w.q == [];
    assert InMap(u, id) == InMap(s, id);
    forall j | 0 <= j < |s.pollers| && j != k ensures Absent(u.pollers[j], id) {
      assert u.pollers[j] == s.pollers[j];
    }
  }

  lemma RunDestroy(s: Server, k: nat, ops: seq<C.AppOp>)
    requires Inv(s) && k < |s.loops| && L.Enabled(s.loops[k], L.RunNext) && s.loops[k].rest[0].DestroyTask?
    ensures var t := s.loops[k].rest[0]; var u := Popped(s, k);
            && RightLoop(s, k, t) && CanPost(u.loops[k])
            && Inv(Settle(u, t.id, C.Destroy(Here(u, t.id), ops)))
            && OwnersShrink(s, Settle(u, t.id, C.Destroy(Here(u, t.id), ops)))
  {
    hide About, Hits, C.Sane, L.Sound, L.Next, Registered, FdMine, Absent, PollerShape, MapShape, Owned, Posts,
         C.Destroy;
    var t, u := s.loops[k].rest[0], Popped(s, k);
    var id := t.id;
    PopShape(s, k);
    HeadMine(s, k);
    HeadPlaced(s, k, t, Mine(u, k, id));
    PopOthersGood(s, k);
    FitSame(s, u, id);
    FdFree(s, id);
    FdAloneHere(s, id);
    assert InMap(u, id) == InMap(s, id);
    DestroyGood(u, id, ops);
    var w := C.Destroy(Here(u, id), ops);
    SettleShape(u, id, w);
    var v := Settle(u, id, w);
    forall other | 0 <= other < |v.recs| && other != id ensures Good(v, other) {
      assert FdAlone(u, id);
      SettleOthers(u, id, w, other);
    }
    Assemble(s, v, id);
  }

  // ---------------------------------------------------------------------- accepting

  lemma NextAdvances(n: nat, k: nat)
    ensures Advances(n, k + 1) == Advance(Advances(n, k), n)
  {
  }

  lemma EnteredShape(s: Server, e: Occurrence)
    requires Shape(s) && e.Accept? && |s.recs| + 1 < Names.INT_MAX
    ensures var u := Entered(s, e); var id := |s.recs|;
            && Shape(u) && SameFrame(s, u) && InMap(u, id) && |u.recs| == id + 1
            && (forall other: nat | Owned(u, other) :: Owned(s, other) || other == id)
            && (forall other | 0 <= other < id :: InMap(u, other) <==> InMap(s, other))
  {
    hide L.Sound, LoopOwns, Names.ConnName, Advances;
    var u, id := Entered(s, e), |s.recs|;
    NextAdvances(|s.loops| - 1, id);
    ChosenIsLoopOf(|s.loops| - 1, id);
    ChosenIsLoopOf(|s.loops| - 1, id + 1);
    forall name | name in u.connections
      ensures u.connections[name] < |u.recs| && name == Key(u, u.connections[name])
    {
    }
    forall other | 0 <= other < id ensures InMap(u, other) <==> InMap(s, other) {
      if Key(s, other) == Key(s, id) {
        KeyInjective(s, other, id);
      }
    }
    forall k | 0 <= k < |u.loops| ensures LoopShape(u.loops[k], u.active[k], |u.recs|) {
      assert LoopShape(s.loops[k], s.active[k], |s.recs|);
    }
    forall k | 0 <= k < |u.pollers| ensures PollerShape(u.pollers[k], |u.recs|) {
      assert PollerShape(s.pollers[k], |s.recs|);
    }
  }

  lemma EnteredOther(s: Server, e: Occurrence, other: nat)
    requires Shape(s) && e.Accept? && |s.recs| + 1 < Names.INT_MAX && other < |s.recs| && Good(s, other)
    ensures Shape(Entered(s, e)) && Good(Entered(s, e), other)
  {
    hide About, Hits, C.Sane, L.Sound, LoopShape, PollerShape, MapShape, InMap, Owned, Registered, Absent;
    EnteredShape(s, e);
    var u := Entered(s, e);
    forall j | 0 <= j < |s.loops| ensures Mine(u, j, other) == Mine(s, j, other) {
    }
    assert Fit(s, other);
    GoodTransfer(s, u, other);
  }

  lemma FreshSane(id: nat, form: Form, e: Occurrence)
    requires e.Accept?
    ensures C.Sane(C.NewConn(id, id, form, e.fd, e.mark, e.hasMark, e.hasWrite))
  {
  }

  lemma EnteredNewborn(s: Server, e: Occurrence)
    requires Shape(s) && e.Accept? && |s.recs| + 1 < Names.INT_MAX
    ensures Shape(Entered(s, e)) && Newborn(Entered(s, e), |s.recs|)
  {
    hide C.Sane, L.Sound, InMap, Owned, MapShape;
    EnteredShape(s, e);
    var u, id := Entered(s, e), |s.recs|;
    FreshSane(id, s.form, e);
    forall j | 0 <= j < |u.loops| ensures Mine(u, j, id) == [] && Hits(u.active[j], id) == 0 {
      assert LoopShape(s.loops[j], s.active[j], id);
      AboutNone(s.loops[j].Todo(), id);
      HitsNone(s.active[j], id);
    }
    forall j | 0 <= j < |u.pollers| ensures Absent(u.pollers[j], id) {
      assert PollerShape(s.pollers[j], id);
    }
    assert Registered(u.pollers[u.recs[id].loop], id, u.recs[id].c.ch);
  }

  lemma EstablishPosted(s: Server, id: nat)
    requires OthersGood(s, id) && id < |s.recs| && Newborn(s, id) && s.recs[id].loop != 0
    ensures var u := Post(s, s.recs[id].loop, C.EstablishTask(id), false);
            OthersGood(u, id) && Good(u, id)
  {
    hide About, Hits, C.Sane, L.Sound, L.QueueBy, Registered, Absent, LoopShape, PollerShape, MapShape;
    var k := s.recs[id].loop;
    PostShape(s, k, C.EstablishTask(id), false);
    var u := Post(s, k, C.EstablishTask(id), false);
    forall other | 0 <= other < |s.recs| && other != id ensures Good(u, other) {
      PostOthers(s, k, C.EstablishTask(id), false, other);
    }
    assert Mine(u, k, id) == [] + [C.EstablishTask(id)];
    assert Mine(u, 0, id) == [] + [];
    assert InMap(u, id) == InMap(s, id);
  }

  /** No registered channel uses a descriptor that `accept` has just returned. */
  lemma FreshUnused(s: Server, fd: int)
    requires Inv(s) && FreshFd(s, fd)
    ensures fd !in s.pollers[0].channels && fd !in s.pollers[0].kernel
    ensures forall other | 0 <= other < |s.recs| && s.recs[other].c.ch.index != New :: s.recs[other].c.ch.fd != fd
  {
    hide About, Hits, C.Sane, L.Sound, Placed, Reported, Fit, Owned, LoopShape, MapShape;
    assert PollerShape(s.pollers[0], |s.recs|);
    if fd in s.pollers[0].channels {
      FdUser(s, 0, s.pollers[0].channels[fd], fd);
    }
    if fd in s.pollers[0].kernel {
      FdUser(s, 0, s.pollers[0].kernel[fd].key, fd);
    }
    forall other | 0 <= other < |s.recs| && s.recs[other].c.ch.index != New ensures s.recs[other].c.ch.fd != fd {
      assert Good(s, other);
      NeededOwned(s, other);
    }
  }

  lemma DistinctNew(s: Server, u: Server, fd: int)
    requires Distinct(s) && |u.recs| == |s.recs| + 1 && FreshFd(s, fd) && u.recs[|s.recs|].c.ch.fd == fd
    requires forall other | 0 <= other < |s.recs| :: u.recs[other].c.ch.fd == s.recs[other].c.ch.fd
    requires forall other: nat | Owned(u, other) :: Owned(s, other) || other == |s.recs|
    ensures Distinct(u)
  {
    hide Owned;
  }

  /** A new connection enters in order, whether its loop is the base loop or another. */
  lemma NewConnectionKeeps(s: Server, e: Occurrence)
    requires Inv(s) && e.Accept? && |s.recs| + 1 < Names.INT_MAX && FreshFd(s, e.fd) && CanPost(s.loops[0])
    ensures Inv(NewConnection(s, e)) && OwnersShrink(s, NewConnection(s, e)) && |NewConnection(s, e).recs| == |s.recs| + 1
  {
    hide About, Hits, C.Sane, L.Sound, L.QueueBy, Registered, Absent, LoopShape, PollerShape, MapShape, Owned,
         Good, Posts;
    hide Newborn, C.Establish;
    var id, t := |s.recs|, Entered(s, e);
    EnteredShape(s, e);
    EnteredNewborn(s, e);
    forall other | 0 <= other < id ensures Good(t, other) {
      EnteredOther(s, e, other);
    }
    FreshUnused(s, e.fd);
    if t.recs[id].loop == 0 {
      EstablishKeeps(t, id, e.ops);
    } else {
      EstablishPosted(t, id);
      PostShape(t, t.recs[id].loop, C.EstablishTask(id), false);
    }
    DistinctNew(s, NewConnection(s, e), e.fd);
  }
}
