/** The event loop as an object: its head, and what it does with each thing the selector or the queue hands it. */
module IoLoops {
  import opened Prelude
  import opened Addresses
  import opened Tcp
  import opened Time
  import opened ConnectionSpec
  import opened System
  import opened PollQueue
  import opened SocketPools
  import opened Selectors
  import opened PoolSpec
  import opened LoopSpec

  class IoLoop {
    const pool: SocketPool
    const selector: Selector<Buffer, (), (), ()>
    var writing: Option<Buffer>
    var nextPoll: Option<Handle>
    var replies: seq<Packet>

    ghost function HandsView(): Hands
      reads this, selector
    {
      Hands(nextPoll, writing, selector.a, replies)
    }

    /** The loop's own invariant at its head and whenever it waits. */
    ghost predicate Valid()
      reads this, selector, pool, pool.queue.delayed, pool.queue.delayed.queue
    {
      && pool.Valid()
      && HandsView().Ok()
      && selector.b.Some? && selector.c.Some? && selector.d.Some?
    }

    constructor (clock: Clock)
      ensures Valid() && HandsView() == Hands(None, Some([]), None, [])
      ensures pool.View() == Pool(map[], map[]) && pool.queue.clock == clock
      ensures fresh(pool) && fresh(selector)
    {
      var queue := new DispatchQueue(clock);
      pool := new SocketPool(queue);
      writing, nextPoll, replies := Some([]), None, [];
      selector := new Selector();
      new;
      selector.InsertB(());
      selector.InsertC(());
      selector.InsertD(());
    }

    /** Pops replies until one has filled the buffer. */
    method TakeReply() returns (buf: Buffer)
      modifies this`replies
      ensures (buf, replies) == PopReplies(old(replies))
    {
      buf := [];
      while replies != [] && buf == []
        invariant buf == [] ==> PopReplies(replies) == PopReplies(old(replies))
        invariant buf != [] ==> (buf, replies) == PopReplies(old(replies))
        decreases |replies|
      {
        var r := replies[|replies| - 1];
        replies := replies[..|replies| - 1];
        buf := PacketToBytes(r, buf);
      }
    }

    /** Takes the picked handle, if the buffer is still empty, and dispatches it. */
    method DispatchPicked(buf: Buffer, after: Socket, emission: Emission<Packet>) returns (filled: Buffer)
      requires pool.Valid() && (buf == [] && nextPoll.Some? ==> nextPoll.value in pool.sockets)
      modifies this`nextPoll, pool, pool.Parts(), pool.queue.delayed, pool.queue.delayed.queue
      ensures pool.Valid() && unchanged(this`writing, this`replies) && unchanged(selector)
      ensures if buf == [] && old(nextPoll).Some? then
                && nextPoll.None? && filled == FilledBy(emission)
                && old(nextPoll).value in old(pool.View()).conns
                && pool.View() == PoolDispatched(pool.queue.clock, old(pool.View()), old(nextPoll).value, after, emission)
              else nextPoll == old(nextPoll) && filled == buf && pool.View() == old(pool.View())
    {
      pool.KeysOfView();
      pool.Outside(this);
      pool.Outside(selector);
      hide SocketPool.View, SocketPool.Filed, PoolDispatched;
      filled := buf;
      if buf == [] && nextPoll.Some? {
        var h := nextPoll.value;
        nextPoll := None;
        assert pool.View() == old(pool.View());
        pool.Dispatch(buf, h, after, emission);
        filled := if emission.Emitted? then PacketToBytes(emission.packet, buf) else buf;
      }
    }

    /** Takes the idle writer's buffer and fills it from the reply stack. */
    method TakeBuffer() returns (buf: Buffer)
      requires pool.Valid() && writing == Some([])
      modifies this`writing, this`replies
      ensures pool.Valid() && pool.View() == old(pool.View())
      ensures writing.None? && (buf, replies) == PopReplies(old(replies))
    {
      hide PopReplies, SocketPool.View, SocketPool.Filed;
      pool.Outside(this);
      writing := None;
      buf := TakeReply();
    }

    /** Gives the writer and a full buffer to slot a, or keeps the writer with an empty one. */
    method Submit(buf: Buffer)
      requires pool.Valid() && writing.None? && selector.a.None?
      modifies this`writing, selector`a
      ensures pool.Valid() && pool.View() == old(pool.View())
      ensures if buf == [] then writing == Some([]) && selector.a.None? else writing.None? && selector.a == Some(buf)
    {
      hide SocketPool.View, SocketPool.Filed;
      pool.Outside(this);
      pool.Outside(selector);
      if buf != [] {
        selector.InsertA(buf);
      } else {
        writing := Some(buf);
      }
    }

    /** The top of the loop. The picked handle must be in the pool if it is to be dispatched: that is the `expect`
        in the pool's dispatch. */
    method Head(after: Socket, emission: Emission<Packet>)
      requires Valid()
      requires HandsView().Target().Some? ==> HandsView().Target().value in pool.sockets
      modifies this, selector, pool, pool.Parts(), pool.queue.delayed, pool.queue.delayed.queue
      ensures Valid()
      ensures HandsView() == HandsAfterHead(old(HandsView()), FilledBy(emission))
      ensures var target := old(HandsView()).Target();
              && (target.Some? ==> target.value in old(pool.View()).conns)
              && pool.View() == if target.None? then old(pool.View())
                                else PoolDispatched(pool.queue.clock, old(pool.View()), target.value, after, emission)
    {
      hide PopReplies, PoolDispatched, SocketPool.View, SocketPool.Valid, SocketPool.Parts;
      if writing.Some? {
        var buf := TakeBuffer();
        buf := DispatchPicked(buf, after, emission);
        Submit(buf);
      }
    }

    /** A write has finished: the writer comes back, its buffer cleared. */
    method HandleWritten()
      requires Valid() && selector.a.Some?
      modifies this`writing, selector
      ensures Valid() && pool.View() == old(pool.View())
      ensures HandsView() == old(HandsView()).(writing := Some([]), slotA := None)
    {
      hide SocketPool.View, SocketPool.Filed;
      pool.Outside(this);
      pool.Outside(selector);
      var s := selector.Poll(true, false, false, false);
      writing := Some([]);
    }

    /** A frame has been read: if it holds a TCP segment the pool processes it and a reply goes on the stack; then the
        next read starts. */
    method HandleRead(frame: Frame, listens: bool, delivered: bool, after: Socket, reply: Result<Option<Packet>>)
      requires Valid() && (frame.Tcp? ==> frame.seg.WellFormed())
      modifies this`replies, selector, pool, pool.Parts(), pool.newConns, pool.shutdown, pool.queue.delayed, pool.queue.delayed.queue
      ensures Valid()
      ensures var receipt := FrameReceived(pool.queue.clock, old(pool.View()), frame, listens, after);
              && pool.View() == receipt.pool
              && HandsView() == old(HandsView()).(replies := old(replies) +
                   if receipt.Handled? && reply.Ok? && reply.value.Some? then [reply.value.value] else [])
    {
      hide SocketPool.View, SocketPool.Filed, PoolReceived, SocketPool.Parts;
      ReleaseB();
      var r := Err(Dropped);
      if frame.Tcp? {
        r := ProcessSegment(frame.seg, listens, delivered, after, reply);
      }
      PushReply(r);
    }

    method ReleaseB()
      requires Valid()
      modifies selector
      ensures pool.Valid() && pool.View() == old(pool.View()) && HandsView() == old(HandsView())
      ensures selector.b.None? && selector.c.Some? && selector.d.Some?
    {
      hide SocketPool.View, SocketPool.Filed;
      pool.Outside(selector);
      var s := selector.Poll(false, true, false, false);
    }

    method ProcessSegment(seg: Segment, listens: bool, delivered: bool, after: Socket, reply: Result<Option<Packet>>)
      returns (r: Result<Option<Packet>>)
      requires pool.Valid() && seg.WellFormed()
      modifies pool, pool.Parts(), pool.newConns, pool.shutdown, pool.queue.delayed, pool.queue.delayed.queue
      ensures pool.Valid() && unchanged(this) && unchanged(selector)
      ensures var receipt := PoolReceived(pool.queue.clock, old(pool.View()), seg, listens, after);
              pool.View() == receipt.pool && r == if receipt.Rejected? then Err(receipt.error) else reply
    {
      pool.Outside(this);
      pool.Outside(selector);
      hide SocketPool.View, SocketPool.Filed, PoolReceived;
      r := pool.Process(seg, listens, delivered, after, reply);
    }

    method PushReply(r: Result<Option<Packet>>)
      requires pool.Valid() && selector.b.None?
      modifies this`replies, selector`b
      ensures pool.Valid() && pool.View() == old(pool.View()) && selector.b.Some?
      ensures replies == old(replies) + if r.Ok? && r.value.Some? then [r.value.value] else []
    {
      hide SocketPool.View, SocketPool.Filed;
      pool.Outside(this);
      pool.Outside(selector);
      if r.Ok? && r.value.Some? {
        replies := replies + [r.value.value];
      }
      selector.InsertB(());
    }

    /** A handle is due: it becomes the picked one. Only asked for when none is picked. */
    method PickExpired(now: nat) returns (picked: bool)
      requires Valid() && nextPoll.None?
      modifies this`nextPoll, pool.queue.delayed, pool.queue.delayed.queue
      ensures Valid() && pool.View().conns == old(pool.View()).conns
      ensures HandsView() == old(HandsView()).(nextPoll := nextPoll)
      ensures picked <==> nextPoll.Some?
      ensures if picked then
                && nextPoll.value in old(pool.View()).queue && old(pool.View()).queue[nextPoll.value] <= now
                && pool.View().queue == old(pool.View()).queue - {nextPoll.value}
              else pool.View() == old(pool.View()) && forall h :: h in pool.View().queue ==> pool.View().queue[h] > now
    {
      hide SocketPool.Filed;
      ghost var conns := pool.Conns();
      var expired := pool.queue.Poll(now);
      pool.ConnsAre(conns);
      nextPoll := expired;
      pool.ConnsAre(conns);
      picked := expired.Some?;
    }

    method ReceiveClose() returns (m: (Handle, Half))
      requires Valid() && pool.shutdown.waiting != []
      modifies selector, pool.shutdown
      ensures pool.Valid() && pool.View() == old(pool.View()) && HandsView() == old(HandsView())
      ensures selector.b.Some? && selector.c.None? && selector.d.Some?
      ensures [m] + pool.shutdown.waiting == old(pool.shutdown.waiting)
    {
      hide SocketPool.View, SocketPool.Filed;
      pool.Outside(selector);
      pool.Outside(pool.shutdown);
      var s := selector.Poll(false, false, true, false);
      m := pool.shutdown.Receive();
    }

    method DropHalf(h: Handle, rw: Half, after: Socket)
      requires pool.Valid() && h in pool.sockets
      modifies pool.Parts(), pool.queue.delayed, pool.queue.delayed.queue
      ensures pool.Valid() && unchanged(this) && unchanged(selector) && unchanged(pool.shutdown)
      ensures h in old(pool.View()).conns
      ensures pool.View() == PoolHalfDropped(pool.queue.clock, old(pool.View()), h, rw, after)
    {
      pool.Outside(this);
      pool.Outside(selector);
      pool.Outside(pool.shutdown);
      pool.KeysOfView();
      hide SocketPool.View, SocketPool.Filed, PoolHalfDropped;
      pool.DropTcpHalf(h, rw, after);
    }

    /** A half has been dropped. Its handle must be in the pool: that is the `expect` in the pool's method. */
    method HandleClose(after: Socket)
      requires Valid() && pool.shutdown.waiting != [] && pool.shutdown.waiting[0].0 in pool.sockets
      modifies selector, pool.shutdown, pool.Parts(), pool.queue.delayed, pool.queue.delayed.queue
      ensures Valid() && HandsView() == old(HandsView())
      ensures var m := old(pool.shutdown.waiting)[0];
              && pool.shutdown.waiting == old(pool.shutdown.waiting)[1..]
              && m.0 in old(pool.View()).conns
              && pool.View() == PoolHalfDropped(pool.queue.clock, old(pool.View()), m.0, m.1, after)
    {
      hide SocketPool.View, SocketPool.Valid, SocketPool.Parts, PoolHalfDropped;
      var m := ReceiveClose();
      assert m == old(pool.shutdown.waiting)[0];
      DropHalf(m.0, m.1, after);
      TakeBackC();
    }

    method TakeBackC()
      requires pool.Valid() && selector.c.None?
      modifies selector`c
      ensures pool.Valid() && pool.View() == old(pool.View()) && selector.c.Some?
    {
      hide SocketPool.View, SocketPool.Filed;
      pool.Outside(selector);
      selector.InsertC(());
    }

    method ReceiveUpdate() returns (m: (Handle, PollAt))
      requires Valid() && pool.sendPoll.waiting != []
      modifies selector, pool.sendPoll
      ensures pool.Valid() && pool.View() == old(pool.View()) && HandsView() == old(HandsView())
      ensures selector.b.Some? && selector.c.Some? && selector.d.None?
      ensures [m] + pool.sendPoll.waiting == old(pool.sendPoll.waiting)
    {
      hide SocketPool.View, SocketPool.Filed;
      pool.Outside(selector);
      pool.Outside(pool.sendPoll);
      var s := selector.Poll(false, false, false, true);
      m := pool.sendPoll.Receive();
    }

    method Enqueue(h: Handle, at: PollAt)
      requires pool.Valid() && selector.d.None?
      modifies selector`d, pool.queue.delayed, pool.queue.delayed.queue
      ensures pool.Valid() && selector.d.Some?
      ensures pool.View() == Pool(old(pool.View()).conns, QueueSend(pool.queue.clock, old(pool.View()).queue, h, at))
    {
      hide SocketPool.Filed, QueueSend;
      ghost var conns := pool.Conns();
      pool.queue.Send(h, at);
      selector.InsertD(());
      pool.ConnsAre(conns);
    }

    /** A writer asks for its handle to be dispatched. */
    method HandleUpdate()
      requires Valid() && pool.sendPoll.waiting != []
      modifies selector, pool.sendPoll, pool.queue.delayed, pool.queue.delayed.queue
      ensures Valid() && HandsView() == old(HandsView())
      ensures var m := old(pool.sendPoll.waiting)[0];
              && pool.sendPoll.waiting == old(pool.sendPoll.waiting)[1..]
              && pool.View() == Pool(old(pool.View()).conns, QueueSend(pool.queue.clock, old(pool.View()).queue, m.0, m.1))
    {
      hide SocketPool.View, SocketPool.Valid, SocketPool.Parts, QueueSend;
      var m := ReceiveUpdate();
      assert m == old(pool.sendPoll.waiting)[0];
      Enqueue(m.0, m.1);
    }
  }
}
