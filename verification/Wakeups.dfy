/** No task sleeps through what it waits for.

    A reader is woken by the loop as soon as there is something to receive or nothing to wait for. A writer
    is woken for freed space only by a dispatch, never by the segment that freed it, so its wake-up rests on
    the schedule. A call with an empty buffer is told apart: it can go to sleep with bytes or room at hand. */
module Wakeups {
  import opened Prelude
  import opened Addresses
  import opened Tcp
  import opened ConnectionSpec
  import opened System
  import opened Ownership
  import opened Scheduling

  /** If the reader sleeps after a call with a real buffer, there is nothing to receive, and something may
      still come. */
  predicate ReaderServed(st: Stream) {
    var tcp := st.shared.tcp;
    st.readerLive && st.shared.reader.slot.Some? && st.shared.reader.slot.value.len > 0 ==>
      tcp.rx == [] && (Receiving(tcp.state) || tcp.state == SynReceived)
  }

  /** If the writer sleeps without having closed its side, it may still send, and if there is room for the
      bytes it came with, a dispatch is on its way to wake it. */
  ghost predicate WriterServed(s: State, h: Handle, st: Stream) {
    var tcp := st.shared.tcp;
    st.writerLive && !st.writerClosed && st.shared.writer.slot.Some? ==>
      && tcp.MaySend()
      && (st.shared.writer.slot.value.len > 0 && |tcp.tx| < BUFFER_SIZE ==> Scheduled(s, h))
  }

  ghost predicate ServedAt(s: State, h: Handle)
    requires Known(s, h)
  {
    ReaderServed(s.streams[s.pool[h].id]) && WriterServed(s, h, s.streams[s.pool[h].id])
  }

  ghost predicate SleepersServed(s: State) {
    forall h :: h in s.pool ==> Known(s, h) && ServedAt(s, h)
  }

  lemma ServedElsewhere(s: State, s': State, k: Handle)
    requires SleepersServed(s)
    requires forall h :: h in s'.pool && h != k ==> Untouched(s, s', h)
    requires k in s'.pool ==> Known(s', k) && ServedAt(s', k)
    ensures SleepersServed(s')
  {
    forall h | h in s'.pool
      ensures Known(s', h) && ServedAt(s', h)
    {
      if h != k {
        assert Untouched(s, s', h);
      }
    }
  }

  lemma SameScheduleServed(s: State, s': State)
    requires SleepersServed(s)
    requires s'.streams == s.streams && s'.pool == s.pool
    requires forall h :: Scheduled(s, h) ==> Scheduled(s', h)
    ensures SleepersServed(s')
  {
    forall h | h in s'.pool
      ensures Known(s', h) && ServedAt(s', h)
    {
      assert ServedAt(s, h);
    }
  }

  /** A half that is marked dropped is not in the application's hands. */
  lemma DroppedIsNotLive(s: State, h: Handle, half: Half)
    requires Owned(s) && Known(s, h)
    ensures s.pool[h].flags.Dropped(half) || (h, half) in PendingCloses(s) ==> !s.streams[s.pool[h].id].Live(half)
  {
    hide HalvesArePooled, PoolIsSound, SocketsValid;
    assert Tokens(s, h, half) == 1;
    if (h, half) in PendingCloses(s) {
      assert (h, half) in multiset(PendingCloses(s));
    }
  }

  lemma ReadServed(s: State, id: Id, len: nat, taken: nat, after: Socket)
    requires Owned(s) && SleepersServed(s) && ReadEnabled(s, id, len, taken, after)
    ensures SleepersServed(NextRead(s, id, len, taken, after))
  {
    hide Owned;
    var s' := NextRead(s, id, len, taken, after);
    var k := s.streams[id].handle;
    LiveIsPooled(s, id);
    OthersUntouched(s, s', k);
    assert ServedAt(s, k);
    ServedElsewhere(s, s', k);
  }

  lemma WriteServed(s: State, id: Id, data: seq<u8>, after: Socket)
    requires Owned(s) && WorkScheduled(s) && SleepersServed(s) && WriteEnabled(s, id, data, after)
    ensures SleepersServed(NextWrite(s, id, data, after))
  {
    hide Owned, WorkScheduled, ScheduledAt, Announced, PendingUpdates;
    var s' := NextWrite(s, id, data, after);
    var k := s.streams[id].handle;
    LiveIsPooled(s, id);
    WriteIsPending(s, id, data, after);
    NotifiedIsScheduled(s, s', k, after);
    OthersUntouched(s, s', k);
    assert ServedAt(s, k);
    ServedElsewhere(s, s', k);
  }

  lemma CloseServed(s: State, id: Id, after: Socket)
    requires Owned(s) && WorkScheduled(s) && SleepersServed(s) && CloseEnabled(s, id, after)
    ensures SleepersServed(NextClose(s, id, after))
  {
    hide Owned, WorkScheduled, ScheduledAt, Announced, PendingUpdates;
    var s' := NextClose(s, id, after);
    var k := s.streams[id].handle;
    LiveIsPooled(s, id);
    CloseIsPending(s, id, after);
    NotifiedIsScheduled(s, s', k, after);
    OthersUntouched(s, s', k);
    assert ServedAt(s, k);
    ServedElsewhere(s, s', k);
  }

  lemma DropServed(s: State, id: Id, half: Half)
    requires Owned(s) && SleepersServed(s) && DropEnabled(s, id, half)
    ensures SleepersServed(NextDrop(s, id, half))
  {
    hide Owned;
    var s' := NextDrop(s, id, half);
    var k := s.streams[id].handle;
    LiveIsPooled(s, id);
    OthersUntouched(s, s', k);
    assert ServedAt(s, k);
    ServedElsewhere(s, s', k);
  }

  /** A dispatch wakes the writer whenever there is room, and either half when it has nothing left to wait
      for. */
  lemma DispatchServesStream(c: Shared, f: Flags, tcp: Socket, emission: Emission<Packet>)
    ensures var c' := AfterDispatch(c, f, tcp, emission);
            && c'.tcp == tcp
            && (!f.readerDropped && c'.reader.slot.Some? ==> c'.reader == c.reader && tcp.MayRecv())
            && (!f.writerDropped && c'.writer.slot.Some? ==> tcp.MaySend() && |tcp.tx| >= BUFFER_SIZE)
  {
  }

  lemma DispatchServed(s: State, h: Handle, emission: Emission<Packet>, after: Socket)
    requires Owned(s) && Known(s, h) && DispatchContract(SharedOf(s, h).tcp, after)
    requires forall k :: k in s.pool && k != h ==> Known(s, k) && ServedAt(s, k)
    requires ReaderServed(s.streams[s.pool[h].id])
    ensures SleepersServed(DispatchConnection(s, h, emission, after))
  {
    hide Owned, AfterDispatch;
    var s' := DispatchConnection(s, h, emission, after);
    OthersUntouched(s, s', h);
    DroppedIsNotLive(s, h, Read);
    DroppedIsNotLive(s, h, Write);
    DispatchServesStream(SharedOf(s, h), s.pool[h].flags, after, emission);
    forall k | k in s'.pool
      ensures Known(s', k) && ServedAt(s', k)
    {
      if k != h {
        assert Untouched(s, s', k);
      }
    }
  }

  lemma HeadServed(s: State, emission: Emission<Packet>, after: Socket)
    requires Owned(s) && SleepersServed(s) && HeadEnabled(s, emission, after)
    ensures NextHead(s, emission, after).Running? ==> SleepersServed(NextHead(s, emission, after).state)
  {
    hide Owned, NextHead, DispatchConnection, DispatchContract;
    HeadCases(s, emission, after);
    var r := NextHead(s, emission, after);
    var target := DispatchTarget(s.io);
    if r.Running? {
      if target.Some? {
        SameTokensOwned(s, TakePoll(s));
        forall k | k in s.pool && k != target.value
          ensures Known(TakePoll(s), k) && ServedAt(TakePoll(s), k)
        {
          assert ServedAt(s, k);
        }
        DispatchServed(TakePoll(s), target.value, emission, after);
        SameScheduleServed(DispatchConnection(TakePoll(s), target.value, emission, after), r.state);
      } else {
        SameScheduleServed(s, r.state);
      }
    }
  }

  lemma CreateServed(s: State, id: Id, h: Handle, delivered: bool)
    requires Owned(s) && SleepersServed(s) && id !in s.streams && h !in s.pool && h.local.WellFormed()
    ensures SleepersServed(CreateStream(s, id, h, delivered))
  {
    hide TokensConserved, HalvesArePooled, SocketsValid;
    var s' := CreateStream(s, id, h, delivered);
    forall k | k in s'.pool && k != h
      ensures Untouched(s, s', k)
    {
      assert s.pool[k].id != id;
    }
    ServedElsewhere(s, s', h);
  }

  lemma SelectReadServed(s: State, frame: Frame, id: Id, listens: bool, delivered: bool)
    requires Owned(s) && SleepersServed(s) && SelectReadEnabled(s, frame, id)
    ensures SleepersServed(NextSelectRead(s, frame, id, listens, delivered))
  {
    hide Owned, SleepersServed, NextSelectRead, CreateStream, RouteOf;
    SelectReadCases(s, frame, id, listens, delivered);
    var s' := NextSelectRead(s, frame, id, listens, delivered);
    var route := RouteOf(s.pool.Keys, frame);
    if route.New? && listens {
      CreateServed(s, id, route.h, delivered);
      SameScheduleServed(CreateStream(s, id, route.h, delivered), s');
    } else {
      SameScheduleServed(s, s');
    }
  }

  /** Processing wakes the reader when bytes arrive, and either half when it has nothing left to wait for;
      it leaves a sleeping writer alone otherwise. */
  lemma ProcessServesStream(c: Shared, f: Flags, tcp: Socket)
    ensures var c' := AfterProcess(c, f, tcp);
            && c'.tcp == tcp
            && (!f.readerDropped && c'.reader.slot.Some? ==> tcp.MayRecv() && tcp.rx == [])
            && (!f.writerDropped && c'.writer.slot.Some? ==> c'.writer == c.writer && tcp.MaySend())
  {
  }

  /** Space appears only where bytes were in flight, and bytes in flight keep the connection scheduled. */
  lemma FreedSpaceIsScheduled(s: State, h: Handle, text: seq<u8>, seg: Segment, after: Socket)
    requires Owned(s) && WorkScheduled(s) && Known(s, h)
    requires ProcessContract(SharedOf(s, h).tcp, seg, text, after)
    ensures |after.tx| < |SharedOf(s, h).tcp.tx| ==> Scheduled(s, h)
  {
    hide TokensConserved, HalvesArePooled, PoolIsSound;
    assert ScheduledAt(s, h);
  }

  lemma ProcessConnectionServed(s: State, h: Handle, text: seq<u8>, seg: Segment, after: Socket)
    requires Owned(s) && WorkScheduled(s) && SleepersServed(s) && Known(s, h)
    requires ProcessContract(SharedOf(s, h).tcp, seg, text, after)
    ensures SleepersServed(ProcessConnection(s, h, text, after))
  {
    hide Owned, AfterProcess, WorkScheduled;
    var s' := ProcessConnection(s, h, text, after);
    OthersUntouched(s, s', h);
    DroppedIsNotLive(s, h, Read);
    DroppedIsNotLive(s, h, Write);
    ProcessServesStream(SharedOf(s, h), s.pool[h].flags, after);
    FreedSpaceIsScheduled(s, h, text, seg, after);
    assert ServedAt(s, h);
    ServedElsewhere(s, s', h);
  }

  lemma ProcessServed(s: State, text: seq<u8>, reply: Option<Packet>, after: Socket)
    requires Owned(s) && WorkScheduled(s) && SleepersServed(s) && ProcessEnabled(s, text, reply, after)
    ensures NextProcess(s, text, reply, after).Running? ==> SleepersServed(NextProcess(s, text, reply, after).state)
  {
    hide Owned, WorkScheduled, SleepersServed, NextProcess, ProcessConnection, ProcessContract, Acceptable;
    ProcessCases(s, text, reply, after);
    var r := NextProcess(s, text, reply, after);
    if r.Running? {
      if Acceptable(s) {
        ProcessConnectionServed(s, s.io.phase.h, text, s.io.phase.seg, after);
        SameScheduleServed(ProcessConnection(s, s.io.phase.h, text, after), r.state);
      } else {
        SameScheduleServed(s, r.state);
      }
    }
  }

  lemma DropHalfServed(s: State, h: Handle, half: Half, after: Socket)
    requires Owned(s) && SleepersServed(s) && Known(s, h) && (h, half) in PendingCloses(s)
    requires CloseContract(SharedOf(s, h).tcp, after)
    ensures SleepersServed(DropHalf(s, h, half, after))
  {
    hide Owned;
    var s' := DropHalf(s, h, half, after);
    OthersUntouched(s, s', h);
    DroppedIsNotLive(s, h, Write);
    assert ServedAt(s, h);
    ServedElsewhere(s, s', h);
  }

  lemma HandleCloseServed(s: State, after: Socket)
    requires Owned(s) && SleepersServed(s) && HandleCloseEnabled(s, after)
    ensures NextHandleClose(s, after).Running? ==> SleepersServed(NextHandleClose(s, after).state)
  {
    hide Owned, SleepersServed, DropHalf, CloseContract;
    var r := NextHandleClose(s, after);
    var m := s.io.phase.close;
    if r.Running? {
      HandleCloseCases(s, after);
      DropHalfFrame(s, m.0, m.1, after);
      DropHalfServed(s, m.0, m.1, after);
      SameScheduleServed(DropHalf(s, m.0, m.1, after), r.state);
    }
  }

  lemma HandleUpdateServed(s: State)
    requires SleepersServed(s) && s.io.phase.HandlingUpdate?
    ensures NextHandleUpdate(s).Running? ==> SleepersServed(NextHandleUpdate(s).state)
  {
    if NextHandleUpdate(s).Running? {
      AnnouncedPop(PendingUpdates(s));
      HandleUpdateCases(s);
      SameScheduleServed(s, NextHandleUpdate(s).state);
    }
  }

  lemma ExpireServed(s: State, h: Handle)
    requires SleepersServed(s) && ExpireEnabled(s, h)
    ensures SleepersServed(NextExpire(s, h))
  {
    SameScheduleServed(s, NextExpire(s, h));
  }

  lemma SleepersServedPreserved(s: State, e: Event)
    requires Owned(s) && WorkScheduled(s) && SleepersServed(s) && Enabled(s, e)
    ensures Next(s, e).Running? ==> SleepersServed(Next(s, e).state)
  {
    hide Owned, WorkScheduled, SleepersServed, NextRead, NextWrite, NextClose, NextDrop, NextSelectRead, NextHead,
      NextProcess, NextHandleClose, NextHandleUpdate, NextExpire;
    match e
    case ReadStream(id, len, taken, after) => ReadServed(s, id, len, taken, after);
    case WriteStream(id, data, after) => WriteServed(s, id, data, after);
    case CloseStream(id, after) => CloseServed(s, id, after);
    case DropReader(id) => DropServed(s, id, Read);
    case DropWriter(id) => DropServed(s, id, Write);
    case Head(emission, after) => HeadServed(s, emission, after);
    case SelectRead(frame, id, listens, delivered) => SelectReadServed(s, frame, id, listens, delivered);
    case Process(text, reply, after) => ProcessServed(s, text, reply, after);
    case HandleClose(after) => HandleCloseServed(s, after);
    case HandleUpdate => HandleUpdateServed(s);
    case Expire(h) => ExpireServed(s, h);
    case _ =>
      QuietCases(s, e);
      if Next(s, e).Running? { SameScheduleServed(s, Next(s, e).state); }
  }
}
