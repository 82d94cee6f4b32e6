/** TcpConnection as the object it is in the repository: fields changed in place, a channel and a poller it
    shares with its loop, and an output buffer. Every method is proved to take the object through the step
    of the same name in module Connections. */
module TcpConnections {
  import opened Common
  import opened Pollers
  import opened Buffers
  import C = Connections

  /** What `handleRead` makes of an answer of `readFd`. */
  predicate Outcome(received: Option<seq<byte>>, r: C.ReadResult) {
    if received.None? then r.ReadError? else if received.value == [] then r.Eof? else r.Bytes?
  }

  class TcpConnection {
    const id: nat
    const form: Form
    const channel: Channel
    const poller: EpollPoller
    const inputBuffer: Buffer
    const outputBuffer: Buffer
    const highWaterMark: nat
    const hasHighWaterCallback: bool
    const hasWriteCallback: bool
    var state: C.State
    /** Functors this object has put on its loop's queue. */
    var queued: seq<C.Task>
    /** Bytes the kernel has taken from the socket. */
    var stream: seq<byte>
    /** Histories and callback counts. */
    ghost var book: C.Conn<Channel>

    ghost predicate Valid()
      reads this, channel, outputBuffer, outputBuffer.data, inputBuffer, inputBuffer.data
    {
      && inputBuffer.Valid() && inputBuffer.form == AsIntended
      && inputBuffer != outputBuffer && inputBuffer.data != outputBuffer.data
      && outputBuffer.Valid() && outputBuffer.form == AsIntended
      && book.key == channel && book.id == id && book.form == form && book.ch == channel.Value()
      && book.state == state && book.wire == stream && book.out == outputBuffer.Contents()
      && book.mark == highWaterMark && book.hasMark == hasHighWaterCallback && book.hasWrite == hasWriteCallback
    }

    ghost function World(): C.World<Channel>
      reads this, poller
    {
      C.World(book, poller.State(), queued)
    }

    constructor (id: nat, form: Form, fd: int, poller: EpollPoller, mark: nat, hasMark: bool, hasWrite: bool)
      ensures Valid() && fresh(channel) && fresh(outputBuffer) && fresh(outputBuffer.data)
      ensures fresh(inputBuffer) && fresh(inputBuffer.data) && inputBuffer.Contents() == []
      ensures inputBuffer.data.Length == 1032 && outputBuffer.data.Length == 1032
      ensures this.poller == poller && this.id == id && this.form == form && channel.fd == fd
      ensures highWaterMark == mark && hasHighWaterCallback == hasMark && hasWriteCallback == hasWrite && state == C.Connecting
      ensures World() == C.World(C.NewConn(channel, id, form, fd, mark, hasMark, hasWrite), poller.State(), [])
    {
      this.id, this.form, this.poller := id, form, poller;
      highWaterMark, hasHighWaterCallback, hasWriteCallback := mark, hasMark, hasWrite;
      var ch := new Channel(fd);
      var input := new Buffer(AsIntended, INITIAL_SIZE);
      var output := new Buffer(AsIntended, INITIAL_SIZE);
      channel, inputBuffer, outputBuffer := ch, input, output;
      state, queued, stream := C.Connecting, [], [];
      book := C.NewConn(ch, id, form, fd, mark, hasMark, hasWrite);
    }

    /** Whether the channel currently asks for writability. */
    function IsWriting(): bool
      reads channel
    {
      channel.Value().IsWriting()
    }

    method EnableWriting()
      requires Valid()
      modifies this`book, channel, poller
      ensures Valid() && World() == C.Interest(old(World()), old(channel.events) + WRITE_EVENT)
    {
      channel.EnableWriting(poller);
      book := book.(ch := channel.Value());
    }

    method DisableWriting()
      requires Valid()
      modifies this`book, channel, poller
      ensures Valid() && World() == C.Interest(old(World()), old(channel.events) - WRITE_EVENT)
    {
      channel.DisableWriting(poller);
      book := book.(ch := channel.Value());
    }

    method DisableAll()
      requires Valid()
      modifies this`book, channel, poller
      ensures Valid() && World() == C.Interest(old(World()), NONE_EVENT)
    {
      channel.DisableAll(poller);
      book := book.(ch := channel.Value());
    }

    method Record(from: nat, message: seq<byte>, nwrote: nat, ans: Answer)
      requires Valid() && nwrote <= |message|
      modifies this`stream, this`book
      ensures Valid() && World() == C.Recorded(C.Noted(old(World()), message, ans), C.Sent(from, message), nwrote)
    {
      stream := stream + message[..nwrote];
      book := C.Recorded(C.Noted(World(), message, ans), C.Sent(from, message), nwrote).c;
    }

    method AllWritten(atOnce: bool)
      requires Valid()
      modifies this`queued, this`book
      ensures Valid() && World() == C.AllWritten(old(World()), atOnce)
    {
      book := book.(levels := book.levels + [|book.out|]);
      if atOnce && hasWriteCallback {
        queued := queued + [C.WriteCompleteTask(id)];
      }
    }

    method BufferRest(rest: seq<byte>)
      requires Valid()
      modifies this, channel, poller, outputBuffer, outputBuffer.data
      ensures Valid() && World() == C.Buffered(old(World()), rest)
      ensures outputBuffer.data == old(outputBuffer.data) || fresh(outputBuffer.data)
    {
      hide SetEvents, C.Interest, Append, Vec.Valid, Vec.Contents;
      var ok := outputBuffer.AppendBytes(rest);
      book := book.(out := book.out + rest, levels := book.levels + [|book.out| + |rest|]);
      if !IsWriting() {
        EnableWriting();
      }
    }

    method KeepRest(rest: seq<byte>)
      requires Valid() && rest != []
      modifies this, channel, poller, outputBuffer, outputBuffer.data
      ensures Valid() && World() == C.KeepRest(old(World()), rest)
      ensures outputBuffer.data == old(outputBuffer.data) || fresh(outputBuffer.data)
    {
      hide SetEvents;
      var oldLen := outputBuffer.ReadableBytes();
      if oldLen + |rest| >= highWaterMark && oldLen < highWaterMark && hasHighWaterCallback {
        queued := queued + [C.HighWaterTask(id, oldLen + |rest|)];
        book := book.(marks := book.marks + 1);
        BufferRest(rest);
      } else if form == AsIntended {
        BufferRest(rest);
      } else {
        book := C.Stranded(World(), rest).c;
      }
    }

    method SendInLoop(from: nat, message: seq<byte>, ans: Answer)
      requires Valid()
      modifies this, channel, poller, outputBuffer, outputBuffer.data
      ensures Valid() && World() == C.SendInLoop(old(World()), from, message, ans)
      ensures outputBuffer.data == old(outputBuffer.data) || fresh(outputBuffer.data)
    {
      hide SetEvents, C.KeepRest, C.AllWritten, C.Recorded, C.Noted;
      var nwrote, faultError := 0, false;
      if state == C.Disconnected {
        return;
      }
      var direct := !IsWriting() && outputBuffer.ReadableBytes() == 0;
      assert direct == (!book.ch.IsWriting() && book.out == []);
      if direct {
        nwrote := TakenBy(ans, |message|);
        faultError := ans == PeerGone;
      }
      if faultError {
        return;
      }
      Record(from, message, nwrote, ans);
      var remaining := |message| - nwrote;
      if remaining == 0 {
        AllWritten(direct && ans.Wrote?);
      } else {
        KeepRest(message[nwrote..]);
      }
    }

    method ShutdownInLoop()
      requires Valid()
      modifies this`book
      ensures Valid() && World() == C.ShutdownInLoop(old(World()))
    {
      if !IsWriting() {
        book := book.(fins := book.fins + [C.Fin(|stream|, state != C.Disconnected)]);
      }
    }

    method Drain()
      requires Valid()
      modifies this`book, this`queued, channel, poller
      ensures Valid()
      ensures World() == var t := C.Notify(C.Interest(old(World()), old(channel.events) - WRITE_EVENT));
                         if t.c.state == C.Disconnecting then C.ShutdownInLoop(t) else t
    {
      hide SetEvents;
      DisableWriting();
      if hasWriteCallback {
        queued := queued + [if form == AsIntended then C.WriteCompleteTask(id) else C.MemberTask(id)];
      }
      if state == C.Disconnecting {
        ShutdownInLoop();
      }
    }

    method HandleWrite(ans: Answer)
      requires Valid()
      modifies this, channel, poller, outputBuffer
      ensures Valid() && World() == C.HandleWrite(old(World()), ans)
      ensures outputBuffer.data == old(outputBuffer.data)
    {
      hide SetEvents;
      if IsWriting() {
        var n, taken := outputBuffer.WriteToFd(ans);
        if n > 0 {
          outputBuffer.RetrieveBytes(n);
          stream := stream + taken;
          book := C.Drained(World(), n).c;
          if outputBuffer.ReadableBytes() == 0 {
            Drain();
          }
        }
      }
    }

    /** Called on the connection's own loop or from thread `from`. */
    method Send(message: seq<byte>, ans: Answer, inLoopThread: bool, from: nat)
      requires Valid()
      modifies this, channel, poller, outputBuffer, outputBuffer.data
      ensures Valid()
      ensures World() == if inLoopThread then C.Send(old(World()), message, ans)
                         else if old(state) == C.Connected then C.Queue(old(World()), C.SendTask(id, from, message))
                         else old(World())
      ensures outputBuffer.data == old(outputBuffer.data) || fresh(outputBuffer.data)
    {
      hide C.SendInLoop;
      if state == C.Connected {
        if inLoopThread {
          SendInLoop(0, message, ans);
        } else {
          queued := queued + [C.SendTask(id, from, message)];
        }
      }
    }

    method Shutdown()
      requires Valid()
      modifies this`state, this`queued, this`book
      ensures Valid() && World() == C.Shutdown(old(World()))
    {
      if state == C.Connected {
        state := C.Disconnecting;
        queued := queued + [C.ShutdownTask(id)];
        book := book.(state := C.Disconnecting);
      }
    }

    /** What the application does to the connection inside a callback. */
    method Callback(ops: seq<C.AppOp>)
      requires Valid()
      modifies this, channel, poller, outputBuffer, outputBuffer.data
      ensures Valid() && World() == C.AppCalls(old(World()), ops)
      ensures outputBuffer.data == old(outputBuffer.data) || fresh(outputBuffer.data)
    {
      hide C.SendInLoop;
      var i := 0;
      while i < |ops|
        invariant 0 <= i <= |ops| && Valid()
        invariant World() == C.AppCalls(old(World()), ops[..i])
        invariant outputBuffer.data == old(outputBuffer.data) || fresh(outputBuffer.data)
      {
        assert ops[..i + 1][..i] == ops[..i];
        match ops[i] {
          case AppSend(message, ans) => Send(message, ans, true, 0);
          case AppShutdown => Shutdown();
        }
        i := i + 1;
      }
      assert ops[..i] == ops;
    }

    method HandleClose(ops: seq<C.AppOp>)
      requires Valid()
      modifies this, channel, poller, outputBuffer, outputBuffer.data
      ensures Valid() && World() == C.HandleClose(old(World()), ops)
      ensures outputBuffer.data == old(outputBuffer.data) || fresh(outputBuffer.data)
    {
      hide SetEvents, C.AppCalls, C.Interest, Vec.Valid, Vec.Contents;
      state := C.Disconnected;
      book := book.(state := C.Disconnected);
      DisableAll();
      book := book.(downs := book.downs + 1);
      Callback(ops);
      book := book.(closes := book.closes + 1);
    }

    /** `readFd` has delivered `received`, an empty delivery at the end of the file, `None` after an error. What
        arrives is appended to the input, and the message callback is then called. */
    method HandleRead(received: Option<seq<byte>>, r: C.ReadResult)
      requires Valid() && Outcome(received, r)
      requires received.Some? ==> |received.value| <= Capacity(AsIntended, inputBuffer.Value())
      modifies this, channel, poller, outputBuffer, outputBuffer.data, inputBuffer, inputBuffer.data
      ensures Valid() && World() == C.HandleRead(old(World()), r)
      ensures inputBuffer.Contents() == old(inputBuffer.Contents()) + if received.Some? then received.value else []
      ensures outputBuffer.data == old(outputBuffer.data) || fresh(outputBuffer.data)
      ensures inputBuffer.data == old(inputBuffer.data) || fresh(inputBuffer.data)
    {
      hide C.HandleClose, C.AppCalls, SetEvents;
      Receive(received);
      match r {
        case Bytes(ops) => Callback(ops);
        case Eof(ops) => HandleClose(ops);
        case ReadError =>
      }
    }

    method Receive(received: Option<seq<byte>>)
      requires Valid()
      requires received.Some? ==> |received.value| <= Capacity(AsIntended, inputBuffer.Value())
      modifies inputBuffer, inputBuffer.data
      ensures Valid() && World() == old(World())
      ensures inputBuffer.Contents() == old(inputBuffer.Contents()) + if received.Some? then received.value else []
      ensures inputBuffer.data == old(inputBuffer.data) || fresh(inputBuffer.data)
    {
      hide ReadFd, Vec.Contents;
      if received.Some? {
        ReadFdAppends(AsIntended, inputBuffer.Value(), received.value);
      } else {
        assert inputBuffer.Contents() + [] == inputBuffer.Contents();
      }
      var ok, n := inputBuffer.ReadFromFd(received);
    }

    /** `Channel::handleEventWithGuard`: hang-up, then input, then output. */
    method HandleEvent(e: C.Report, received: Option<seq<byte>>)
      requires Valid() && Outcome(received, e.read)
      requires received.Some? ==> |received.value| <= Capacity(AsIntended, inputBuffer.Value())
      modifies this, channel, poller, outputBuffer, outputBuffer.data, inputBuffer, inputBuffer.data
      ensures Valid() && World() == C.HandleEvent(old(World()), e)
      ensures inputBuffer.Contents() == if (In in e.revents || Pri in e.revents) && received.Some?
                                        then old(inputBuffer.Contents()) + received.value
                                        else old(inputBuffer.Contents())
      ensures outputBuffer.data == old(outputBuffer.data) || fresh(outputBuffer.data)
      ensures inputBuffer.data == old(inputBuffer.data) || fresh(inputBuffer.data)
    {
      hide C.HandleClose, C.HandleRead, C.HandleWrite;
      if Hup in e.revents && In !in e.revents {
        HandleClose(e.hupOps);
      }
      if In in e.revents || Pri in e.revents {
        HandleRead(received, e.read);
      }
      if Out in e.revents {
        HandleWrite(e.ans);
      }
    }

    method ConnectEstablished(ops: seq<C.AppOp>)
      requires Valid()
      modifies this, channel, poller, outputBuffer, outputBuffer.data
      ensures Valid() && World() == C.Establish(old(World()), ops)
      ensures outputBuffer.data == old(outputBuffer.data) || fresh(outputBuffer.data)
    {
      hide SetEvents, C.AppCalls, Vec.Valid, Vec.Contents;
      state := C.Connected;
      channel.EnableReading(poller);
      book := book.(state := C.Connected, ch := channel.Value(), ups := book.ups + 1);
      Callback(ops);
    }

    method ConnectDestroyed(ops: seq<C.AppOp>)
      requires Valid()
      modifies this, channel, poller, outputBuffer, outputBuffer.data
      ensures Valid() && World() == C.Destroy(old(World()), ops)
      ensures outputBuffer.data == old(outputBuffer.data) || fresh(outputBuffer.data)
    {
      hide SetEvents, Removed, C.AppCalls, C.Interest, Vec.Valid, Vec.Contents;
      if state == C.Connected {
        state := C.Disconnected;
        book := book.(state := C.Disconnected);
        DisableAll();
        book := book.(downs := book.downs + 1);
        Callback(ops);
      }
      channel.Remove(poller);
      book := book.(ch := channel.Value());
    }
  }
}
