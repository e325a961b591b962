/** The pool of connections, as the object the loop owns. */
module SocketPools {
  import opened Prelude
  import opened Addresses
  import opened Tcp
  import opened Acceptability
  import opened ConnectionSpec
  import opened PollQueue
  import opened StreamHalves
  import opened Connections
  import opened PoolSpec

  /** The key of a segment, unless it cannot be for a connection of ours. */
  function Locate(seg: Segment): (r: Result<Handle>)
    requires seg.WellFormed()
    ensures r.Ok? <==> PairOf(seg.src, seg.dst).Ok? && !(seg.control == Syn && seg.hasAck)
    ensures r.Ok? ==> r == PairOf(seg.src, seg.dst)
    ensures r.Err? ==> r.error == if PairOf(seg.src, seg.dst).Err? then Unrecognized else Dropped
  {
    var peer := Convert(seg.src.addr, seg.src.port);
    if peer.Err? then Err(peer.error) else
    var local := Convert(seg.dst.addr, seg.dst.port);
    if local.Err? then Err(local.error)
    else if seg.control == Syn && seg.hasAck then Err(Dropped)
    else Ok(AddrPair(peer.value, local.value))
  }

  class SocketPool {
    const queue: DispatchQueue
    var sockets: map<Handle, Connection>
    const newConns: Channel<(ReadHalf, WriteHalf)>
    const sendPoll: Channel<(Handle, PollAt)>
    const shutdown: Channel<(Handle, Half)>

    /** Every connection is filed under its handle, and no two share an object. */
    ghost predicate Filed()
      reads this
    {
      && (forall h :: h in sockets ==> sockets[h].Valid() && sockets[h].handle == h)
      && (forall h, k :: h in sockets && k in sockets && h != k ==> sockets[h].Apart(sockets[k]))
    }

    ghost predicate Valid()
      reads this, queue.delayed, queue.delayed.queue
    {
      queue.Valid() && Filed()
    }

    lemma FiledApart(h: Handle)
      requires Filed() && h in sockets
      ensures sockets[h].Valid() && sockets[h].handle == h
      ensures forall k :: k in sockets && k != h ==> sockets[k].Apart(sockets[h])
    {
    }

    /** The objects that belong to the pool's connections. */
    ghost function Parts(): set<object>
      reads this
    {
      (set h | h in sockets :: sockets[h] as object) + (set h | h in sockets :: sockets[h].socket as object) +
      (set h | h in sockets :: sockets[h].readReadiness as object) + (set h | h in sockets :: sockets[h].writeReadiness as object)
    }

    ghost function ConnOf(h: Handle): Conn
      requires h in sockets
      reads this, sockets[h], sockets[h].socket, sockets[h].readReadiness, sockets[h].writeReadiness
    {
      Conn(sockets[h].View(), sockets[h].FlagsView())
    }

    ghost function Conns(): map<Handle, Conn>
      reads this, Parts()
    {
      map h | h in sockets :: ConnOf(h)
    }

    ghost function View(): Pool
      requires Valid()
      reads this, Parts(), queue.delayed, queue.delayed.queue
    {
      Pool(Conns(), queue.View())
    }

    constructor (queue: DispatchQueue)
      requires queue.Valid() && queue.View() == map[]
      ensures Valid() && View() == Pool(map[], map[]) && this.queue == queue
      ensures fresh(newConns) && fresh(sendPoll) && fresh(shutdown)
      ensures newConns.waiting == [] && sendPoll.waiting == [] && shutdown.waiting == []
    {
      this.queue := queue;
      sockets := map[];
      newConns := new Channel();
      sendPoll := new Channel();
      shutdown := new Channel();
    }

    lemma ConnsAre(conns: map<Handle, Conn>)
      requires conns.Keys == sockets.Keys && forall k :: k in sockets ==> ConnOf(k) == conns[k]
      ensures Conns() == conns
    {
    }

    /** Lets one connection process a segment. */
    method ProcessSocket<P>(h: Handle, seg: Segment, after: Socket, reply: Result<Option<P>>) returns (r: Result<Option<P>>)
      requires Valid() && h in sockets
      modifies sockets[h].socket, sockets[h].readReadiness, sockets[h].writeReadiness, queue.delayed, queue.delayed.queue
      ensures Valid()
      ensures var p := old(View());
              && h in p.conns
              && if CheckAcceptability(p.conns[h].shared.tcp, seg).Err? then r == Err(Dropped) && View() == p
                 else r == reply && View() == PoolProcessed(queue.clock, p, h, after)
    {
      hide AfterProcess, QueueAfterProcess, CheckAcceptability, Filed;
      FiledApart(h);
      ghost var conns := Conns();
      r := sockets[h].Process(seg, after, reply, queue);
      assert forall k :: k in sockets && k != h ==> ConnOf(k) == conns[k];
      if old(CheckAcceptability(sockets[h].socket.tcp, seg)).Err? {
        ConnsAre(conns);
      } else {
        ConnsAre(conns[h := conns[h].(shared := AfterProcess(conns[h].shared, conns[h].flags, after))]);
      }
    }

    /** The two halves that were handed out share the connection's socket and wakers, and report to the pool's
        channels. */
    ghost predicate HalvesOf(h: Handle, halves: (ReadHalf, WriteHalf))
      requires h in sockets
      reads this
    {
      var c, r, w := sockets[h], halves.0, halves.1;
      && r.mutex == c.socket && w.mutex == c.socket
      && r.sharedState == c.readReadiness && w.sharedState == c.writeReadiness
      && w.handle == h && w.notifier == sendPoll
      && r.shutdownNotifier.sender == shutdown && r.shutdownNotifier.socket == h && r.shutdownNotifier.rw == Read
      && w.shutdownNotifier.sender == shutdown && w.shutdownNotifier.socket == h && w.shutdownNotifier.rw == Write
    }

    /** `TcpStream::new`: both halves and the connection, around one fresh socket. */
    method NewStream(h: Handle) returns (r: ReadHalf, w: WriteHalf, c: Connection)
      requires Valid() && h.local.WellFormed()
      ensures Valid() && View() == old(View())
      ensures fresh(r) && fresh(w) && fresh(c) && fresh(c.socket) && fresh(c.readReadiness) && fresh(c.writeReadiness)
      ensures c.Valid() && c.handle == h && c.FlagsView() == Flags(false, false)
      ensures c.View() == System.NewStream(h, true).shared
      ensures r.mutex == c.socket && w.mutex == c.socket
      ensures r.sharedState == c.readReadiness && w.sharedState == c.writeReadiness
      ensures w.handle == h && w.notifier == sendPoll && !r.eofReached
      ensures r.shutdownNotifier.sender == shutdown && r.shutdownNotifier.socket == h && r.shutdownNotifier.rw == Read
      ensures w.shutdownNotifier.sender == shutdown && w.shutdownNotifier.socket == h && w.shutdownNotifier.rw == Write
    {
      hide Filed, Parts;
      ghost var conns := Conns();
      var inner := new Inner(Listening(ToEndpoint(h.local)));
      var readNotifier := new HalfCloseSender(h, Read, shutdown);
      r := new ReadHalf(inner, readNotifier);
      var writeNotifier := new HalfCloseSender(h, Write, shutdown);
      w := new WriteHalf(inner, sendPoll, h, writeNotifier);
      c := new Connection(inner, h, r.sharedState, w.sharedState);
      ConnsAre(conns);
    }

    lemma KeysOfView()
      requires Valid()
      ensures View().conns.Keys == sockets.Keys
    {
    }

    /** Only connections, sockets and waker slots are parts of the pool. */
    lemma Outside(o: object)
      requires !(o is Connection) && !(o is Inner) && !(o is SharedState)
      ensures o !in Parts()
    {
    }

    method Hand(h: Handle, r: ReadHalf, w: WriteHalf, delivered: bool)
      requires r.shutdownNotifier.sender == shutdown && w.shutdownNotifier.sender == shutdown
      requires r.shutdownNotifier.socket == h && r.shutdownNotifier.rw == Read
      requires w.shutdownNotifier.socket == h && w.shutdownNotifier.rw == Write
      modifies newConns, shutdown
      ensures newConns.waiting == old(newConns.waiting) + if delivered then [(r, w)] else []
      ensures shutdown.waiting == old(shutdown.waiting) + if delivered then [] else [(h, Write), (h, Read)]
    {
      if delivered {
        newConns.Send((r, w));
      } else {
        w.Drop();
        r.Drop();
      }
    }

    /** Offers a stream to the listener; if nobody listens any more it is dropped at once, writer first. */
    method Offer(h: Handle, r: ReadHalf, w: WriteHalf, delivered: bool)
      requires Valid() && r.shutdownNotifier.sender == shutdown && w.shutdownNotifier.sender == shutdown
      requires r.shutdownNotifier.socket == h && r.shutdownNotifier.rw == Read
      requires w.shutdownNotifier.socket == h && w.shutdownNotifier.rw == Write
      modifies newConns, shutdown
      ensures Valid() && View() == old(View())
      ensures newConns.waiting == old(newConns.waiting) + if delivered then [(r, w)] else []
      ensures shutdown.waiting == old(shutdown.waiting) + if delivered then [] else [(h, Write), (h, Read)]
    {
      hide View, Filed;
      Outside(newConns);
      Outside(shutdown);
      Hand(h, r, w, delivered);
    }

    /** No connection may be filed under the handle yet: the source asserts so. */
    method Insert(h: Handle, c: Connection)
      requires Valid() && h !in sockets && c.Valid() && c.handle == h
      requires forall k :: k in sockets ==> c.Apart(sockets[k]) && sockets[k].Apart(c)
      modifies this
      ensures Valid() && sockets == old(sockets)[h := c]
      ensures View() == Pool(old(View()).conns[h := Conn(c.View(), c.FlagsView())], old(View()).queue)
    {
      ghost var conns := Conns();
      sockets := sockets[h := c];
      ConnsAre(conns[h := Conn(c.View(), c.FlagsView())]);
    }

    /** Makes a stream, offers it to the listener and files its connection. */
    method OpenStream(h: Handle, delivered: bool)
      requires Valid() && h !in sockets && h.local.WellFormed()
      modifies this, newConns, shutdown
      ensures Valid() && h in sockets && View() == PoolOpened(old(View()), h)
      ensures fresh(sockets[h].socket) && fresh(sockets[h].readReadiness) && fresh(sockets[h].writeReadiness)
      ensures |newConns.waiting| == |old(newConns.waiting)| + (if delivered then 1 else 0)
      ensures old(newConns.waiting) <= newConns.waiting
      ensures delivered ==> HalvesOf(h, newConns.waiting[|newConns.waiting| - 1])
      ensures shutdown.waiting == old(shutdown.waiting) + if delivered then [] else [(h, Write), (h, Read)]
    {
      hide View, Filed;
      var reader, writer, connection := NewStream(h);
      Offer(h, reader, writer, delivered);
      Insert(h, connection);
    }

    /** A known handle is left alone; an unknown one gets a connection if the segment is a SYN and the socket can
        listen. */
    method CreateSyn(h: Handle, control: Control, listens: bool, delivered: bool) returns (r: Result<()>)
      requires Valid() && h.local.WellFormed()
      modifies this, newConns, shutdown
      ensures Valid()
      ensures r.Ok? <==> h in old(sockets) || (control == Syn && listens)
      ensures r.Err? ==> r.error == if control == Syn then OtherError else Dropped
      ensures r.Ok? ==> h in sockets
      ensures View() == if h in old(sockets) || r.Err? then old(View()) else PoolOpened(old(View()), h)
      ensures h in old(sockets) || r.Err? ==>
        sockets == old(sockets) && newConns.waiting == old(newConns.waiting) && shutdown.waiting == old(shutdown.waiting)
      ensures r.Ok? && h !in old(sockets) ==>
        && fresh(sockets[h].socket) && fresh(sockets[h].readReadiness) && fresh(sockets[h].writeReadiness)
        && old(newConns.waiting) <= newConns.waiting
        && |newConns.waiting| == |old(newConns.waiting)| + (if delivered then 1 else 0)
        && (delivered ==> HalvesOf(h, newConns.waiting[|newConns.waiting| - 1]))
        && shutdown.waiting == old(shutdown.waiting) + if delivered then [] else [(h, Write), (h, Read)]
    {
      hide View, Filed;
      if h in sockets {
        return Ok(());
      }
      if control != Syn {
        return Err(Dropped);
      }
      if !listens {
        return Err(OtherError);
      }
      OpenStream(h, delivered);
      return Ok(());
    }

    /** Finds or makes the connection filed under `h` and lets it process a segment. */
    method ProcessAt<P>(h: Handle, seg: Segment, listens: bool, delivered: bool, after: Socket, reply: Result<Option<P>>)
      returns (r: Result<Option<P>>)
      requires Valid() && h.local.WellFormed()
      modifies this, Parts(), newConns, shutdown, queue.delayed, queue.delayed.queue
      ensures Valid()
      ensures var p := old(View());
              if h !in p.conns && !(seg.control == Syn && listens)
              then r == Err(if seg.control == Syn then OtherError else Dropped) && View() == p
              else
                var p1 := if h in p.conns then p else PoolOpened(p, h);
                if CheckAcceptability(p1.conns[h].shared.tcp, seg).Err? then r == Err(Dropped) && View() == p1
                else r == reply && View() == PoolProcessed(queue.clock, p1, h, after)
    {
      KeysOfView();
      hide View, Filed, HalvesOf, PoolProcessed, CheckAcceptability;
      var created := CreateSyn(h, seg.control, listens, delivered);
      if created.Err? {
        return Err(created.error);
      }
      r := ProcessSocket(h, seg, after, reply);
    }

    /** Finds or makes the connection of a segment and lets it process the segment. */
    method Process<P>(seg: Segment, listens: bool, delivered: bool, after: Socket, reply: Result<Option<P>>)
      returns (r: Result<Option<P>>)
      requires Valid() && seg.WellFormed()
      modifies this, Parts(), newConns, shutdown, queue.delayed, queue.delayed.queue
      ensures Valid()
      ensures var receipt := PoolReceived(queue.clock, old(View()), seg, listens, after);
              View() == receipt.pool && r == if receipt.Rejected? then Err(receipt.error) else reply
    {
      hide View, Filed, PoolProcessed, CheckAcceptability, PairOf, Locate;
      var pair := Locate(seg);
      if pair.Err? {
        return Err(pair.error);
      }
      r := ProcessAt(pair.value, seg, listens, delivered, after, reply);
    }

    /** Lets one connection dispatch into an empty buffer, and says whether it is to be dropped. */
    method DispatchSocket<P>(buf: seq<P>, h: Handle, after: Socket, emission: Emission<P>) returns (drop: bool)
      requires Valid() && h in sockets && buf == []
      modifies sockets[h].socket, sockets[h].readReadiness, sockets[h].writeReadiness, queue.delayed, queue.delayed.queue
      ensures Valid()
      ensures var p := old(View());
              && h in p.conns
              && var c := p.conns[h];
              && drop == EndsAtDispatch(c.flags, after, emission)
              && View() == Pool(p.conns[h := c.(shared := AfterDispatch(c.shared, c.flags, after, emission))],
                                QueueAfterDispatch(queue.clock, c.flags, p.queue, h, after, emission))
    {
      hide AfterDispatch, QueueAfterDispatch, EndsAtDispatch, Filed;
      FiledApart(h);
      ghost var conns := Conns();
      drop := sockets[h].Dispatch(buf, after, emission, queue);
      assert forall k :: k in sockets && k != h ==> ConnOf(k) == conns[k];
      ConnsAre(conns[h := ConnOf(h)]);
    }

    method Remove(h: Handle)
      requires Valid() && h in sockets
      modifies this, queue.delayed, queue.delayed.queue
      ensures Valid() && View() == Pool(old(View()).conns - {h}, old(View()).queue - {h})
    {
      ghost var conns := Conns();
      sockets := sockets - {h};
      queue.Remove(h);
      ConnsAre(conns - {h});
    }

    /** The buffer must be empty and the handle in the pool: the source has an assertion and an `expect` here. */
    method Dispatch<P>(buf: seq<P>, h: Handle, after: Socket, emission: Emission<P>)
      requires Valid() && h in sockets && buf == []
      modifies this, sockets[h].socket, sockets[h].readReadiness, sockets[h].writeReadiness, queue.delayed, queue.delayed.queue
      ensures Valid() && View() == PoolDispatched(queue.clock, old(View()), h, after, emission)
    {
      hide AfterDispatch, EndsAtDispatch, View, Valid;
      ghost var conns := View().conns;
      var drop := DispatchSocket(buf, h, after, emission);
      if drop {
        Remove(h);
        assert View().conns == conns - {h};
      }
    }

    /** The handle must be in the pool: the source has an `expect` here. */
    method DropTcpHalf(h: Handle, rw: Half, after: Socket)
      requires Valid() && h in sockets
      modifies sockets[h], sockets[h].socket, queue.delayed, queue.delayed.queue
      ensures Valid() && View() == PoolHalfDropped(queue.clock, old(View()), h, rw, after)
    {
      hide AfterDropHalf, QueueAfterDropHalf, Filed;
      FiledApart(h);
      ghost var conns := Conns();
      sockets[h].DropHalf(rw, after, queue);
      assert forall k :: k in sockets && k != h ==> ConnOf(k) == conns[k];
      ConnsAre(conns[h := ConnOf(h)]);
    }
  }
}
