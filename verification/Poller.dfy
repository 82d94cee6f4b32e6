/** Channel.h, Channel.cpp (registration) and EpollPoller.cpp: three records of one registration,
    the channel's index, the poller's map and the kernel's interest set. */
module Pollers {
  import opened Common

  datatype Event = In | Pri | Out | Err | Hup

  const NONE_EVENT: set<Event> := {}

  const READ_EVENT: set<Event> := {In, Pri}

  const WRITE_EVENT: set<Event> := {Out}

  datatype Index = New | Added | Del

  datatype Chan = Chan(fd: int, events: set<Event>, index: Index) {
    predicate IsNone() { events == NONE_EVENT }
    predicate IsWriting() { events * WRITE_EVENT != {} }
  }

  datatype Entry<K> = Entry(key: K, mask: set<Event>)

  datatype CtlOp = CtlAdd | CtlMod | CtlDel

  /** `channels` is the poller's own map, `kernel` the interest set behind the epoll descriptor,
      `errors` counts the `epoll_ctl` calls that failed. */
  datatype Poller<K> = Poller(channels: map<int, K>, kernel: map<int, Entry<K>>, errors: nat)

  /** `epoll_ctl`: adding a present descriptor or touching an absent one fails and changes nothing. */
  function Ctl<K>(p: Poller<K>, op: CtlOp, fd: int, entry: Entry<K>): Poller<K> {
    match op
    case CtlAdd => if fd in p.kernel then p.(errors := p.errors + 1) else p.(kernel := p.kernel[fd := entry])
    case CtlMod => if fd in p.kernel then p.(kernel := p.kernel[fd := entry]) else p.(errors := p.errors + 1)
    case CtlDel => if fd in p.kernel then p.(kernel := p.kernel - {fd}) else p.(errors := p.errors + 1)
  }

  function Updated<K>(p: Poller<K>, k: K, ch: Chan): (Poller<K>, Chan) {
    if ch.index != Added then
      var q := if ch.index == New then p.(channels := p.channels[ch.fd := k]) else p;
      (Ctl(q, CtlAdd, ch.fd, Entry(k, ch.events)), ch.(index := Added))
    else if ch.IsNone() then
      (Ctl(p, CtlDel, ch.fd, Entry(k, ch.events)), ch.(index := Del))
    else
      (Ctl(p, CtlMod, ch.fd, Entry(k, ch.events)), ch)
  }

  function Removed<K>(p: Poller<K>, k: K, ch: Chan): (Poller<K>, Chan) {
    var q := p.(channels := p.channels - {ch.fd});
    (if ch.index == Added then Ctl(q, CtlDel, ch.fd, Entry(k, ch.events)) else q, ch.(index := New))
  }

  /** A change of interest followed by `update`. */
  function SetEvents<K>(p: Poller<K>, k: K, ch: Chan, events: set<Event>): (Poller<K>, Chan) {
    Updated(p, k, ch.(events := events))
  }

  // --------------------------------------------------- one channel in one poller

  /** The three records of channel `k` agree. */
  ghost predicate Registered<K>(p: Poller<K>, k: K, ch: Chan) {
    && (forall fd | fd in p.channels && p.channels[fd] == k :: fd == ch.fd && ch.index != New)
    && (forall fd | fd in p.kernel && p.kernel[fd].key == k :: fd == ch.fd && ch.index == Added)
    && (ch.index != New ==> ch.fd in p.channels && p.channels[ch.fd] == k)
    && (ch.index == Added ==> ch.fd in p.kernel && p.kernel[ch.fd] == Entry(k, ch.events))
    && (ch.index == Del ==> ch.events == NONE_EVENT)
  }

  /** Nobody but `k` uses the descriptor in this poller. */
  ghost predicate FdMine<K>(p: Poller<K>, k: K, fd: int) {
    && (fd in p.channels ==> p.channels[fd] == k)
    && (fd in p.kernel ==> p.kernel[fd].key == k)
  }

  /** The two pollers agree on every descriptor but `fd`. */
  ghost predicate SameElsewhere<K>(p: Poller<K>, q: Poller<K>, fd: int) {
    && p.errors == q.errors
    && (forall f: int | f != fd :: (f in p.channels <==> f in q.channels) && (f in p.kernel <==> f in q.kernel))
    && (forall f | f != fd && f in p.channels :: p.channels[f] == q.channels[f])
    && (forall f | f != fd && f in p.kernel :: p.kernel[f] == q.kernel[f])
  }

  lemma UpdateKeeps<K>(p: Poller<K>, k: K, ch: Chan, events: set<Event>)
    requires Registered(p, k, ch) && FdMine(p, k, ch.fd)
    ensures var (q, c) := SetEvents(p, k, ch, events);
            && Registered(q, k, c) && FdMine(q, k, ch.fd) && SameElsewhere(p, q, ch.fd)
            && c.fd == ch.fd && c.events == events
            && (c.index == Added <==> ch.index != Added || events != NONE_EVENT)
            && (c.index == Added || c.index == Del)
  {
  }

  lemma RemoveKeeps<K>(p: Poller<K>, k: K, ch: Chan)
    requires Registered(p, k, ch) && FdMine(p, k, ch.fd)
    ensures var (q, c) := Removed(p, k, ch);
            && Registered(q, k, c) && SameElsewhere(p, q, ch.fd) && c == ch.(index := New)
            && ch.fd !in q.channels && ch.fd !in q.kernel
  {
  }

  /** A change confined to another descriptor, or made by another channel before `other` is registered,
      does not disturb `other`. */
  lemma RegisteredFrame<K>(p: Poller<K>, q: Poller<K>, fd: int, k: K, other: K, och: Chan)
    requires SameElsewhere(p, q, fd) && Registered(p, other, och) && k != other && FdMine(q, k, fd)
    requires och.index != New ==> och.fd != fd
    ensures Registered(q, other, och)
  {
  }

  // ----------------------------------------------------- many channels, one poller

  datatype PollOp<K> = Enable(key: K, events: set<Event>) | Disable(key: K, events: set<Event>)
                     | DisableAll(key: K) | Remove(key: K)

  ghost predicate DistinctFds<K(!new)>(chans: map<K, Chan>) {
    forall a, b | a in chans && b in chans && chans[a].fd == chans[b].fd :: a == b
  }

  ghost predicate Agree<K(!new)>(p: Poller<K>, chans: map<K, Chan>) {
    && p.errors == 0
    && (forall k | k in chans :: Registered(p, k, chans[k]))
    && (forall fd | fd in p.channels :: p.channels[fd] in chans)
    && (forall fd | fd in p.kernel :: p.kernel[fd].key in chans)
  }

  function DoOne<K>(p: Poller<K>, k: K, ch: Chan, op: PollOp<K>): (Poller<K>, Chan) {
    match op
    case Enable(_, events) => SetEvents(p, k, ch, ch.events + events)
    case Disable(_, events) => SetEvents(p, k, ch, ch.events - events)
    case DisableAll(_) => SetEvents(p, k, ch, NONE_EVENT)
    case Remove(_) => Removed(p, k, ch)
  }

  function Do<K>(p: Poller<K>, chans: map<K, Chan>, op: PollOp<K>): (Poller<K>, map<K, Chan>) {
    if op.key !in chans then (p, chans) else
      var (q, c) := DoOne(p, op.key, chans[op.key], op);
      (q, chans[op.key := c])
  }

  function DoAll<K>(p: Poller<K>, chans: map<K, Chan>, ops: seq<PollOp<K>>): (Poller<K>, map<K, Chan>)
    decreases |ops|
  {
    if ops == [] then (p, chans) else
      var (q, cs) := Do(p, chans, ops[0]);
      DoAll(q, cs, ops[1..])
  }

  lemma ChangeKeeps<K(!new)>(p: Poller<K>, chans: map<K, Chan>, k: K, q: Poller<K>, c: Chan)
    requires DistinctFds(chans) && Agree(p, chans) && k in chans && c.fd == chans[k].fd
    requires SameElsewhere(p, q, c.fd) && Registered(q, k, c) && FdMine(q, k, c.fd)
    ensures DistinctFds(chans[k := c]) && Agree(q, chans[k := c])
  {
    forall other | other in chans && other != k ensures Registered(q, other, chans[other]) {
      RegisteredFrame(p, q, c.fd, k, other, chans[other]);
    }
  }

  lemma DoKeeps<K(!new)>(p: Poller<K>, chans: map<K, Chan>, op: PollOp<K>)
    requires DistinctFds(chans) && Agree(p, chans)
    ensures var (q, cs) := Do(p, chans, op);
            DistinctFds(cs) && Agree(q, cs) && cs.Keys == chans.Keys
  {
    var k := op.key;
    if k in chans {
      var ch := chans[k];
      assert FdMine(p, k, ch.fd);
      match op {
        case Enable(_, events) => UpdateKeeps(p, k, ch, ch.events + events);
        case Disable(_, events) => UpdateKeeps(p, k, ch, ch.events - events);
        case DisableAll(_) => UpdateKeeps(p, k, ch, NONE_EVENT);
        case Remove(_) => RemoveKeeps(p, k, ch);
      }
      var (q, c) := DoOne(p, k, ch, op);
      ChangeKeeps(p, chans, k, q, c);
    }
  }

  /** Whatever sequence of enable, disable and remove calls is made on channels with distinct
      descriptors: the kernel holds a descriptor with a mask exactly when its channel is added with that
      interest, the poller's map holds it exactly when the channel is added or deleted, a deleted channel
      has an empty mask, and no `epoll_ctl` call has failed. */
  lemma {:induction false} RegistrationsAgree<K(!new)>(p: Poller<K>, chans: map<K, Chan>, ops: seq<PollOp<K>>)
    requires DistinctFds(chans) && Agree(p, chans)
    ensures var (q, cs) := DoAll(p, chans, ops);
            && q.errors == 0 && cs.Keys == chans.Keys && Agree(q, cs)
            && (forall k | k in cs ::
                  && (cs[k].fd in q.kernel <==> cs[k].index == Added)
                  && (cs[k].fd in q.kernel ==> q.kernel[cs[k].fd] == Entry(k, cs[k].events))
                  && (cs[k].fd in q.channels <==> cs[k].index != New)
                  && (cs[k].fd in q.channels ==> q.channels[cs[k].fd] == k)
                  && (cs[k].index == Del ==> cs[k].events == NONE_EVENT))
    decreases |ops|
  {
    if ops != [] {
      DoKeeps(p, chans, ops[0]);
      var (q, cs) := Do(p, chans, ops[0]);
      RegistrationsAgree(q, cs, ops[1..]);
    }
  }

  lemma UpdateInOrder<K>(p: Poller<K>, k: K, ch: Chan, events: set<Event>)
    ensures Registered(p, k, ch) && FdMine(p, k, ch.fd) ==>
              var (q, c) := SetEvents(p, k, ch, events);
              && Registered(q, k, c) && FdMine(q, k, ch.fd) && c.fd == ch.fd && c.events == events
              && (c.index == Added <==> ch.index != Added || events != NONE_EVENT)
              && (c.index == Added || c.index == Del)
  {
    if Registered(p, k, ch) && FdMine(p, k, ch.fd) {
      UpdateKeeps(p, k, ch, events);
    }
  }

  // ------------------------------------------------------------------ the classes

  class Channel {
    const fd: int
    var events: set<Event>
    var revents: set<Event>
    var index: Index

    function Value(): Chan
      reads this
    {
      Chan(fd, events, index)
    }

    constructor (fd: int)
      ensures Value() == Chan(fd, NONE_EVENT, New) && this.fd == fd
    {
      this.fd := fd;
      events, revents, index := NONE_EVENT, {}, New;
    }

    /** The channel's three records agree in this poller, and nobody else uses its descriptor there. */
    ghost predicate InOrder(poller: EpollPoller)
      reads this, poller
    {
      Registered(poller.State(), this, Value()) && FdMine(poller.State(), this, fd)
    }

    method Update(poller: EpollPoller)
      modifies poller, this`index
      ensures (poller.State(), Value()) == Updated(old(poller.State()), this, old(Value()))
      ensures poller.capacity == old(poller.capacity)
    {
      poller.UpdateChannel(this);
    }

    method EnableReading(poller: EpollPoller)
      modifies poller, this`index, this`events
      ensures (poller.State(), Value()) == SetEvents(old(poller.State()), this, old(Value()), old(events) + READ_EVENT)
      ensures events == old(events) + {In, Pri}
      ensures old(InOrder(poller)) ==>
                InOrder(poller) && fd in poller.kernel && poller.kernel[fd].key == this && {In, Pri} <= poller.kernel[fd].mask
    {
      UpdateInOrder(poller.State(), this, Value(), events + READ_EVENT);
      events := events + READ_EVENT;
      Update(poller);
    }

    method DisableReading(poller: EpollPoller)
      modifies poller, this`index, this`events
      ensures (poller.State(), Value()) == SetEvents(old(poller.State()), this, old(Value()), old(events) - READ_EVENT)
      ensures events == old(events) - {In, Pri}
      ensures old(InOrder(poller)) ==>
                && InOrder(poller)
                && (fd in poller.kernel <==> old(index) != Added || events != {})
                && (fd in poller.kernel ==> poller.kernel[fd].key == this && poller.kernel[fd].mask * {In, Pri} == {})
    {
      UpdateInOrder(poller.State(), this, Value(), events - READ_EVENT);
      events := events - READ_EVENT;
      Update(poller);
    }

    method EnableWriting(poller: EpollPoller)
      modifies poller, this`index, this`events
      ensures (poller.State(), Value()) == SetEvents(old(poller.State()), this, old(Value()), old(events) + WRITE_EVENT)
      ensures events == old(events) + {Out}
      ensures old(InOrder(poller)) ==>
                InOrder(poller) && fd in poller.kernel && poller.kernel[fd].key == this && {Out} <= poller.kernel[fd].mask
    {
      UpdateInOrder(poller.State(), this, Value(), events + WRITE_EVENT);
      events := events + WRITE_EVENT;
      Update(poller);
    }

    method DisableWriting(poller: EpollPoller)
      modifies poller, this`index, this`events
      ensures (poller.State(), Value()) == SetEvents(old(poller.State()), this, old(Value()), old(events) - WRITE_EVENT)
      ensures events == old(events) - {Out}
      ensures old(InOrder(poller)) ==>
                && InOrder(poller)
                && (fd in poller.kernel <==> old(index) != Added || events != {})
                && (fd in poller.kernel ==> poller.kernel[fd].key == this && poller.kernel[fd].mask * {Out} == {})
    {
      UpdateInOrder(poller.State(), this, Value(), events - WRITE_EVENT);
      events := events - WRITE_EVENT;
      Update(poller);
    }

    method DisableAll(poller: EpollPoller)
      modifies poller, this`index, this`events
      ensures (poller.State(), Value()) == SetEvents(old(poller.State()), this, old(Value()), NONE_EVENT)
      ensures events == {}
      ensures old(InOrder(poller)) && old(index) == Added ==> InOrder(poller) && fd !in poller.kernel && index == Del
    {
      UpdateInOrder(poller.State(), this, Value(), NONE_EVENT);
      events := NONE_EVENT;
      Update(poller);
    }

    method Remove(poller: EpollPoller)
      modifies poller, this`index
      ensures (poller.State(), Value()) == Removed(old(poller.State()), this, old(Value()))
    {
      poller.RemoveChannel(this);
    }
  }

  const INIT_EVENT_LIST_SIZE: nat := 16

  function Ready(answer: Option<seq<Entry<Channel>>>): seq<Entry<Channel>> {
    if answer.Some? then answer.value else []
  }

  ghost predicate Watched(channel: Channel, kernel: map<int, Entry<Channel>>) {
    exists fd :: fd in kernel && kernel[fd].key == channel
  }

  /** epoll reports descriptors of its interest set. */
  ghost predicate FromKernel(ready: seq<Entry<Channel>>, kernel: map<int, Entry<Channel>>) {
    forall e | e in ready :: Watched(e.key, kernel)
  }

  /** `kernel` and `errors` stand for what the epoll descriptor remembers. */
  class EpollPoller {
    var channels: map<int, Channel>
    var kernel: map<int, Entry<Channel>>
    var errors: nat
    var capacity: nat

    function State(): Poller<Channel>
      reads this
    {
      Poller(channels, kernel, errors)
    }

    constructor ()
      ensures State() == Poller(map[], map[], 0) && capacity == 16
    {
      channels, kernel, errors, capacity := map[], map[], 0, INIT_EVENT_LIST_SIZE;
    }

    method Control(op: CtlOp, channel: Channel)
      modifies this`kernel, this`errors
      ensures State() == Ctl(old(State()), op, channel.fd, Entry(channel, channel.events))
    {
      var entry := Entry(channel, channel.events);
      var present := channel.fd in kernel;
      if (op == CtlAdd) == present {
        errors := errors + 1;
      } else if op == CtlDel {
        kernel := kernel - {channel.fd};
      } else {
        kernel := kernel[channel.fd := entry];
      }
    }

    method UpdateChannel(channel: Channel)
      modifies this, channel`index
      ensures (State(), channel.Value()) == Updated(old(State()), channel, old(channel.Value()))
      ensures capacity == old(capacity)
    {
      var index := channel.index;
      if index == New || index == Del {
        if index == New {
          channels := channels[channel.fd := channel];
        }
        channel.index := Added;
        Control(CtlAdd, channel);
      } else if channel.events == NONE_EVENT {
        Control(CtlDel, channel);
        channel.index := Del;
      } else {
        Control(CtlMod, channel);
      }
    }

    method RemoveChannel(channel: Channel)
      modifies this, channel`index
      ensures (State(), channel.Value()) == Removed(old(State()), channel, old(channel.Value()))
      ensures capacity == old(capacity)
    {
      channels := channels - {channel.fd};
      if channel.index == Added {
        Control(CtlDel, channel);
      }
      channel.index := New;
    }

    /** `answer` is what `epoll_wait` wrote into the event array, nothing after a timeout, `None` after an error.
        The active list is the reported channels in order, each with its own event set, and all of them in the
        kernel set; a full array doubles. */
    method Poll(answer: Option<seq<Entry<Channel>>>) returns (active: seq<Channel>)
      requires var ready := Ready(answer);
               && |ready| <= capacity && FromKernel(ready, kernel)
               && forall i, j | 0 <= i < j < |ready| :: ready[i].key != ready[j].key
      modifies this`capacity, (set e | e in Ready(answer) :: e.key)`revents
      ensures var ready := Ready(answer);
              && |active| == |ready|
              && (forall i | 0 <= i < |ready| :: active[i] == ready[i].key && active[i].revents == ready[i].mask)
              && capacity == if |ready| > 0 && |ready| == old(capacity) then 2 * old(capacity) else old(capacity)
      ensures forall c | c in active :: Watched(c, kernel)
    {
      var ready := Ready(answer);
      active := [];
      var i := 0;
      while i < |ready|
        invariant 0 <= i <= |ready| && |active| == i
        invariant capacity == old(capacity)
        invariant forall c | c in active :: Watched(c, kernel)
        invariant forall j | 0 <= j < i :: active[j] == ready[j].key && active[j].revents == ready[j].mask
      {
        var channel := ready[i].key;
        assert ready[i] in ready;
        channel.revents := ready[i].mask;
        active := active + [channel];
        i := i + 1;
      }
      if |ready| > 0 && |ready| == capacity {
        capacity := capacity * 2;
      }
    }
  }
}
