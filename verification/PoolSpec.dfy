/** The socket pool and its queue on values, and why the pool's operations are the machine's steps. */
module PoolSpec {
  import opened Prelude
  import opened Addresses
  import opened Tcp
  import opened Time
  import opened Acceptability
  import opened ConnectionSpec
  import opened System
  import opened Ownership

  /** A connection as the pool holds it. */
  datatype Conn = Conn(shared: Shared, flags: Flags)

  datatype Pool = Pool(conns: map<Handle, Conn>, queue: Queue)

  function PoolOpened(p: Pool, h: Handle): Pool
    requires h.local.WellFormed()
  {
    p.(conns := p.conns[h := Conn(NewStream(h, true).shared, Flags(false, false))])
  }

  function PoolProcessed(clock: Clock, p: Pool, h: Handle, after: Socket): Pool
    requires h in p.conns
  {
    var c := p.conns[h];
    Pool(p.conns[h := c.(shared := AfterProcess(c.shared, c.flags, after))],
         QueueAfterProcess(clock, c.flags, p.queue, h, after.PollAt()))
  }

  function PoolDispatched<P>(clock: Clock, p: Pool, h: Handle, after: Socket, emission: Emission<P>): Pool
    requires h in p.conns
  {
    var c := p.conns[h];
    if EndsAtDispatch(c.flags, after, emission) then Pool(p.conns - {h}, p.queue - {h})
    else Pool(p.conns[h := c.(shared := AfterDispatch(c.shared, c.flags, after, emission))],
              QueueAfterDispatch(clock, c.flags, p.queue, h, after, emission))
  }

  function PoolHalfDropped(clock: Clock, p: Pool, h: Handle, half: Half, after: Socket): Pool
    requires h in p.conns
  {
    var c := p.conns[h];
    var f := c.flags.Mark(half);
    Pool(p.conns[h := Conn(AfterDropHalf(c.shared, f, after), f)], QueueAfterDropHalf(clock, f, p.queue, h, after))
  }

  /** A segment is turned away, or processed by its connection, which may have been opened for it. */
  datatype Receipt = Rejected(pool: Pool, error: Error) | Handled(pool: Pool)

  function PoolReceived(clock: Clock, p: Pool, seg: Segment, listens: bool, after: Socket): Receipt
    requires seg.WellFormed()
  {
    var route := RouteOf(p.conns.Keys, Frame.Tcp(seg));
    if route.Drop? then Rejected(p, if PairOf(seg.src, seg.dst).Err? then Unrecognized else Dropped)
    else if route.New? && !listens then Rejected(p, OtherError)
    else
      var p1 := if route.New? then PoolOpened(p, route.h) else p;
      if CheckAcceptability(p1.conns[route.h].shared.tcp, seg).Err? then Rejected(p1, Dropped)
      else Handled(PoolProcessed(clock, p1, route.h, after))
  }

  /** When and why a segment is turned away: for an address that is neither IPv4 nor IPv6, for a SYN with an ACK, for
      want of a connection unless it is a SYN, for a socket that cannot listen, or by the check of its connection. A
      SYN that opens a connection is always handled. */
  lemma RejectionExactly(clock: Clock, p: Pool, seg: Segment, listens: bool, after: Socket)
    requires seg.WellFormed()
    ensures var r := PoolReceived(clock, p, seg, listens, after);
            if seg.src.addr.Unspecified? || seg.dst.addr.Unspecified? then r == Rejected(p, Unrecognized)
            else
              var h := PairOf(seg.src, seg.dst).value;
              if seg.control == Syn && seg.hasAck then r == Rejected(p, Dropped)
              else if h in p.conns then
                if CheckAcceptability(p.conns[h].shared.tcp, seg).Err? then r == Rejected(p, Dropped)
                else r == Handled(PoolProcessed(clock, p, h, after))
              else if seg.control != Syn then r == Rejected(p, Dropped)
              else if !listens then r == Rejected(p, OtherError)
              else h.local.WellFormed() && r == Handled(PoolProcessed(clock, PoolOpened(p, h), h, after))
  {
    if PairOf(seg.src, seg.dst).Ok? {
      var h := PairOf(seg.src, seg.dst).value;
      PairOfExactly(seg.src, seg.dst, h);
      RouteExactly(p.conns.Keys, seg, h);
      var tcp := Listening(ToEndpoint(h.local));
      if seg.control == Syn && !seg.hasAck {
        RoutedSegmentsPassEndpointChecks(tcp, h, seg);
      }
      hide RouteOf, PoolProcessed, PairOf, ToEndpoint, CheckAcceptability;
    } else {
      hide PoolProcessed, CheckAcceptability;
    }
  }

  /** A frame that is not a TCP segment does not get as far as the pool. */
  function FrameReceived(clock: Clock, p: Pool, frame: Frame, listens: bool, after: Socket): Receipt
    requires frame.Tcp? ==> frame.seg.WellFormed()
  {
    if frame.Tcp? then PoolReceived(clock, p, frame.seg, listens, after) else Rejected(p, Dropped)
  }

  /** The pool part of a machine state. */
  ghost function PoolOf(s: State): Pool {
    Pool(map h | h in s.pool && Known(s, h) :: Conn(SharedOf(s, h), s.pool[h].flags), s.queue)
  }

  lemma OtherConnections(s: State, s': State, h: Handle)
    requires Owned(s) && Known(s, h) && s.pool[h].id in s'.streams
    requires s'.streams == s.streams[s.pool[h].id := s'.streams[s.pool[h].id]]
    requires forall k :: k != h ==> (k in s'.pool <==> k in s.pool) && (k in s.pool ==> s'.pool[k] == s.pool[k])
    ensures forall k :: k != h && k in s.pool ==> Known(s', k) && Known(s, k) && SharedOf(s', k) == SharedOf(s, k)
  {
    hide TokensConserved, HalvesArePooled, SocketsValid;
    forall k | k != h && k in s.pool
      ensures Known(s', k) && Known(s, k) && SharedOf(s', k) == SharedOf(s, k)
    {
      assert s.streams[s.pool[k].id].handle == k;
    }
  }

  lemma ConnsAre(s: State, conns: map<Handle, Conn>)
    requires forall h :: h in s.pool ==> Known(s, h)
    requires conns.Keys == s.pool.Keys
    requires forall h :: h in s.pool ==> conns[h] == Conn(SharedOf(s, h), s.pool[h].flags)
    ensures PoolOf(s).conns == conns
  {
  }

  lemma DispatchRefines(s: State, h: Handle, emission: Emission<Packet>, after: Socket)
    requires Owned(s) && Known(s, h)
    ensures PoolOf(DispatchConnection(s, h, emission, after)) == PoolDispatched(s.clock, PoolOf(s), h, after, emission)
  {
    hide TokensConserved, HalvesArePooled, SocketsValid, AfterDispatch, EndsAtDispatch, QueueSend;
    var s' := DispatchConnection(s, h, emission, after);
    OtherConnections(s, s', h);
    ConnsAre(s', PoolDispatched(s.clock, PoolOf(s), h, after, emission).conns);
  }

  lemma ProcessRefines(s: State, h: Handle, text: seq<u8>, after: Socket)
    requires Owned(s) && Known(s, h)
    ensures PoolOf(ProcessConnection(s, h, text, after)) == PoolProcessed(s.clock, PoolOf(s), h, after)
  {
    hide TokensConserved, HalvesArePooled, SocketsValid, AfterProcess, QueueAfterProcess;
    var s' := ProcessConnection(s, h, text, after);
    OtherConnections(s, s', h);
    ConnsAre(s', PoolProcessed(s.clock, PoolOf(s), h, after).conns);
  }

  lemma DropHalfRefines(s: State, h: Handle, half: Half, after: Socket)
    requires Owned(s) && Known(s, h)
    ensures PoolOf(DropHalf(s, h, half, after)) == PoolHalfDropped(s.clock, PoolOf(s), h, half, after)
  {
    hide Owned, AfterDropHalf, QueueAfterDropHalf;
    OtherConnections(s, DropHalf(s, h, half, after), h);
  }

  lemma CreateRefines(s: State, id: Id, h: Handle, delivered: bool)
    requires Owned(s) && id !in s.streams && h !in s.pool && h.local.WellFormed()
    ensures PoolOf(CreateStream(s, id, h, delivered)) == PoolOpened(PoolOf(s), h)
  {
    hide TokensConserved, HalvesArePooled, SocketsValid;
    var s' := CreateStream(s, id, h, delivered);
    assert forall k :: k in s.pool ==> s.pool[k].id != id;
    ConnsAre(s', PoolOpened(PoolOf(s), h).conns);
  }
}
