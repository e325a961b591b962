/** What the dispatch queue owes to the connections: work to transmit is never forgotten, `polling_active`
    tells the truth, and a connection that nobody uses any more is always on its way to removal. */
module Scheduling {
  import opened Prelude
  import opened Addresses
  import opened Tcp
  import opened ConnectionSpec
  import opened System
  import opened Ownership

  /** The handles that a pending update asks to have dispatched. */
  ghost function Announced(updates: seq<PollUpdate>): set<Handle> {
    set i | 0 <= i < |updates| && updates[i].1 != Ingress :: updates[i].0
  }

  lemma AnnouncedSend(updates: seq<PollUpdate>, m: PollUpdate)
    ensures Announced(updates + [m]) == Announced(updates) + if m.1 == Ingress then {} else {m.0}
  {
    var all := updates + [m];
    assert forall i :: 0 <= i < |updates| ==> all[i] == updates[i];
    assert all[|updates|] == m;
  }

  lemma AnnouncedPop(updates: seq<PollUpdate>)
    requires updates != []
    ensures Announced(updates) == Announced(updates[1..]) + if updates[0].1 == Ingress then {} else {updates[0].0}
  {
    var rest := updates[1..];
    assert forall i :: 0 < i < |updates| ==> updates[i] == rest[i - 1];
  }

  /** The handle is in the queue or has been picked for the next dispatch. */
  predicate Queued(s: State, h: Handle) {
    h in s.queue || (s.io.nextPoll.Some? && s.io.nextPoll.value.handle == h)
  }

  ghost predicate Scheduled(s: State, h: Handle) {
    Queued(s, h) || h in Announced(PendingUpdates(s))
  }

  ghost predicate ScheduledAt(s: State, h: Handle)
    requires Known(s, h)
  {
    var c := SharedOf(s, h);
    && (c.tcp.txPoll != Ingress ==> Scheduled(s, h))
    && (c.pollingActive ==> Queued(s, h))
    && (s.pool[h].flags.Both() ==> Queued(s, h))
  }

  ghost predicate WorkScheduled(s: State) {
    forall h :: h in s.pool ==> Known(s, h) && ScheduledAt(s, h)
  }

  /** The step changed nothing that the schedule of `h` depends on, and did not take `h` off the schedule. */
  ghost predicate Untouched(s: State, s': State, h: Handle) {
    && Known(s, h) && Known(s', h)
    && s'.pool[h] == s.pool[h]
    && s'.streams[s.pool[h].id] == s.streams[s.pool[h].id]
    && (Queued(s, h) ==> Queued(s', h))
    && (Scheduled(s, h) ==> Scheduled(s', h))
  }

  lemma ScheduleElsewhere(s: State, s': State, k: Handle)
    requires WorkScheduled(s)
    requires forall h :: h in s'.pool && h != k ==> Untouched(s, s', h)
    requires k in s'.pool ==> Known(s', k) && ScheduledAt(s', k)
    ensures WorkScheduled(s')
  {
    forall h | h in s'.pool
      ensures Known(s', h) && ScheduledAt(s', h)
    {
      if h != k {
        assert Untouched(s, s', h);
      }
    }
  }

  /** Changing the stream of one pooled connection touches no other handle. */
  lemma OthersUntouched(s: State, s': State, k: Handle)
    requires Owned(s) && Known(s, k) && s.pool[k].id in s'.streams
    requires s'.streams == s.streams[s.pool[k].id := s'.streams[s.pool[k].id]]
    requires forall h :: h in s'.pool && h != k ==> h in s.pool && s'.pool[h] == s.pool[h]
    requires forall h :: h != k && Queued(s, h) ==> Queued(s', h)
    requires Announced(PendingUpdates(s)) <= Announced(PendingUpdates(s'))
    ensures forall h :: h in s'.pool && h != k ==> Untouched(s, s', h)
  {
    hide TokensConserved, HalvesArePooled, SocketsValid;
    forall h | h in s'.pool && h != k
      ensures Untouched(s, s', h)
    {
      assert s.streams[s.pool[h].id].handle == h;
    }
  }

  /** A live half of a stream is a half of the connection pooled under the stream's handle. */
  lemma LiveIsPooled(s: State, id: Id)
    requires Owned(s) && id in s.streams && (s.streams[id].readerLive || s.streams[id].writerLive)
    ensures Known(s, s.streams[id].handle) && s.pool[s.streams[id].handle].id == id
  {
    hide TokensConserved, SocketsValid;
  }

  lemma ReadScheduled(s: State, id: Id, len: nat, taken: nat, after: Socket)
    requires Owned(s) && WorkScheduled(s) && ReadEnabled(s, id, len, taken, after)
    ensures WorkScheduled(NextRead(s, id, len, taken, after))
  {
    hide Owned;
    var s' := NextRead(s, id, len, taken, after);
    var k := s.streams[id].handle;
    LiveIsPooled(s, id);
    OthersUntouched(s, s', k);
    ScheduleElsewhere(s, s', k);
  }

  /** Whoever changes the transmit side of a socket tells the queue, unless polling is active. */
  lemma NotifiedIsScheduled(s: State, s': State, k: Handle, tcp: Socket)
    requires WorkScheduled(s) && Known(s, k) && Known(s', k)
    requires s'.pool == s.pool && s'.queue == s.queue && s'.io == s.io
    requires SharedOf(s', k).tcp == tcp && SharedOf(s', k).pollingActive == SharedOf(s, k).pollingActive
    requires var update := Notification(SharedOf(s, k).pollingActive, tcp);
             PendingUpdates(s') == if update.None? then PendingUpdates(s) else PendingUpdates(s) + [(k, update.value)]
    ensures ScheduledAt(s', k)
    ensures Announced(PendingUpdates(s)) <= Announced(PendingUpdates(s'))
  {
    AnnouncedSend(PendingUpdates(s), (k, tcp.PollAt()));
    assert ScheduledAt(s, k);
  }

  lemma WriteScheduled(s: State, id: Id, data: seq<u8>, after: Socket)
    requires Owned(s) && WorkScheduled(s) && WriteEnabled(s, id, data, after)
    ensures WorkScheduled(NextWrite(s, id, data, after))
  {
    hide Owned, WorkScheduled, ScheduledAt, Scheduled, PendingUpdates;
    var s' := NextWrite(s, id, data, after);
    var k := s.streams[id].handle;
    LiveIsPooled(s, id);
    WriteIsPending(s, id, data, after);
    NotifiedIsScheduled(s, s', k, after);
    OthersUntouched(s, s', k);
    ScheduleElsewhere(s, s', k);
  }

  lemma CloseScheduled(s: State, id: Id, after: Socket)
    requires Owned(s) && WorkScheduled(s) && CloseEnabled(s, id, after)
    ensures WorkScheduled(NextClose(s, id, after))
  {
    hide Owned, WorkScheduled, ScheduledAt, Scheduled, PendingUpdates;
    var s' := NextClose(s, id, after);
    var k := s.streams[id].handle;
    LiveIsPooled(s, id);
    CloseIsPending(s, id, after);
    NotifiedIsScheduled(s, s', k, after);
    OthersUntouched(s, s', k);
    ScheduleElsewhere(s, s', k);
  }

  lemma DropScheduled(s: State, id: Id, half: Half)
    requires Owned(s) && WorkScheduled(s) && DropEnabled(s, id, half)
    ensures WorkScheduled(NextDrop(s, id, half))
  {
    hide Owned;
    var s' := NextDrop(s, id, half);
    var k := s.streams[id].handle;
    LiveIsPooled(s, id);
    OthersUntouched(s, s', k);
    assert ScheduledAt(s, k);
    ScheduleElsewhere(s, s', k);
  }

  /** After a dispatch the connection is removed, or queued again if it wants to be. */
  lemma DispatchScheduled(s: State, h: Handle, emission: Emission<Packet>, after: Socket)
    requires Owned(s) && Known(s, h)
    requires forall k :: k in s.pool && k != h ==> Known(s, k) && ScheduledAt(s, k)
    ensures WorkScheduled(DispatchConnection(s, h, emission, after))
  {
    hide Owned, AfterDispatch;
    var s' := DispatchConnection(s, h, emission, after);
    DispatchSetsPolling(SharedOf(s, h), s.pool[h].flags, after, emission);
    OthersUntouched(s, s', h);
    forall k | k in s'.pool
      ensures Known(s', k) && ScheduledAt(s', k)
    {
      if k != h {
        assert Untouched(s, s', k);
      }
    }
  }

  lemma SameScheduleScheduled(s: State, s': State)
    requires WorkScheduled(s)
    requires s'.streams == s.streams && s'.pool == s.pool
    requires forall h :: Queued(s, h) ==> Queued(s', h)
    requires forall h :: Scheduled(s, h) ==> Scheduled(s', h)
    ensures WorkScheduled(s')
  {
    forall h | h in s'.pool
      ensures Known(s', h) && ScheduledAt(s', h)
    {
      assert ScheduledAt(s, h);
    }
  }

  lemma HeadScheduled(s: State, emission: Emission<Packet>, after: Socket)
    requires Owned(s) && WorkScheduled(s) && HeadEnabled(s, emission, after)
    ensures NextHead(s, emission, after).Running? ==> WorkScheduled(NextHead(s, emission, after).state)
  {
    hide Owned, NextHead, DispatchConnection, DispatchContract;
    HeadCases(s, emission, after);
    var r := NextHead(s, emission, after);
    var target := DispatchTarget(s.io);
    if r.Running? {
      if target.Some? {
        SameTokensOwned(s, TakePoll(s));
        forall k | k in s.pool && k != target.value
          ensures Known(TakePoll(s), k) && ScheduledAt(TakePoll(s), k)
        {
          assert ScheduledAt(s, k);
        }
        DispatchScheduled(TakePoll(s), target.value, emission, after);
        SameScheduleScheduled(DispatchConnection(TakePoll(s), target.value, emission, after), r.state);
      } else {
        SameScheduleScheduled(s, r.state);
      }
    }
  }

  /** A new connection has nothing to transmit, and takes nothing off the schedule. */
  lemma CreateScheduled(s: State, id: Id, h: Handle, delivered: bool)
    requires Owned(s) && WorkScheduled(s) && id !in s.streams && h !in s.pool && h.local.WellFormed()
    ensures WorkScheduled(CreateStream(s, id, h, delivered))
  {
    hide TokensConserved, HalvesArePooled, SocketsValid;
    var s' := CreateStream(s, id, h, delivered);
    forall k | k in s'.pool && k != h
      ensures Untouched(s, s', k)
    {
      assert s.pool[k].id != id;
    }
    ScheduleElsewhere(s, s', h);
  }

  lemma SelectReadScheduled(s: State, frame: Frame, id: Id, listens: bool, delivered: bool)
    requires Owned(s) && WorkScheduled(s) && SelectReadEnabled(s, frame, id)
    ensures WorkScheduled(NextSelectRead(s, frame, id, listens, delivered))
  {
    hide Owned, WorkScheduled, NextSelectRead, CreateStream, RouteOf;
    SelectReadCases(s, frame, id, listens, delivered);
    var s' := NextSelectRead(s, frame, id, listens, delivered);
    var route := RouteOf(s.pool.Keys, frame);
    if route.New? && listens {
      CreateScheduled(s, id, route.h, delivered);
      SameScheduleScheduled(CreateStream(s, id, route.h, delivered), s');
    } else {
      SameScheduleScheduled(s, s');
    }
  }

  lemma ProcessConnectionScheduled(s: State, h: Handle, text: seq<u8>, after: Socket)
    requires Owned(s) && WorkScheduled(s) && Known(s, h)
    ensures WorkScheduled(ProcessConnection(s, h, text, after))
  {
    hide Owned;
    var s' := ProcessConnection(s, h, text, after);
    OthersUntouched(s, s', h);
    assert ScheduledAt(s, h);
    ScheduleElsewhere(s, s', h);
  }

  lemma ProcessScheduled(s: State, text: seq<u8>, reply: Option<Packet>, after: Socket)
    requires Owned(s) && WorkScheduled(s) && ProcessEnabled(s, text, reply, after)
    ensures NextProcess(s, text, reply, after).Running? ==> WorkScheduled(NextProcess(s, text, reply, after).state)
  {
    hide Owned, WorkScheduled, NextProcess, ProcessConnection, Acceptable;
    ProcessCases(s, text, reply, after);
    var r := NextProcess(s, text, reply, after);
    if r.Running? {
      if Acceptable(s) {
        ProcessConnectionScheduled(s, s.io.phase.h, text, after);
        SameScheduleScheduled(ProcessConnection(s, s.io.phase.h, text, after), r.state);
      } else {
        SameScheduleScheduled(s, r.state);
      }
    }
  }

  lemma DropHalfScheduled(s: State, h: Handle, half: Half, after: Socket)
    requires Owned(s) && WorkScheduled(s) && Known(s, h)
    ensures WorkScheduled(DropHalf(s, h, half, after))
  {
    hide Owned;
    var s' := DropHalf(s, h, half, after);
    OthersUntouched(s, s', h);
    assert ScheduledAt(s, h);
    ScheduleElsewhere(s, s', h);
  }

  lemma HandleCloseScheduled(s: State, after: Socket)
    requires Owned(s) && WorkScheduled(s) && HandleCloseEnabled(s, after)
    ensures NextHandleClose(s, after).Running? ==> WorkScheduled(NextHandleClose(s, after).state)
  {
    hide Owned, WorkScheduled, DropHalf;
    var r := NextHandleClose(s, after);
    var m := s.io.phase.close;
    if r.Running? {
      HandleCloseCases(s, after);
      DropHalfFrame(s, m.0, m.1, after);
      DropHalfScheduled(s, m.0, m.1, after);
      SameScheduleScheduled(DropHalf(s, m.0, m.1, after), r.state);
    }
  }

  lemma HandleUpdateScheduled(s: State)
    requires WorkScheduled(s) && s.io.phase.HandlingUpdate?
    ensures NextHandleUpdate(s).Running? ==> WorkScheduled(NextHandleUpdate(s).state)
  {
    if NextHandleUpdate(s).Running? {
      AnnouncedPop(PendingUpdates(s));
      HandleUpdateCases(s);
      SameScheduleScheduled(s, NextHandleUpdate(s).state);
    }
  }

  lemma ExpireScheduled(s: State, h: Handle)
    requires WorkScheduled(s) && ExpireEnabled(s, h)
    ensures WorkScheduled(NextExpire(s, h))
  {
    SameScheduleScheduled(s, NextExpire(s, h));
  }

  lemma WorkScheduledPreserved(s: State, e: Event)
    requires Owned(s) && WorkScheduled(s) && Enabled(s, e)
    ensures Next(s, e).Running? ==> WorkScheduled(Next(s, e).state)
  {
    hide Owned, WorkScheduled, NextRead, NextWrite, NextClose, NextDrop, NextSelectRead, NextHead, NextProcess,
      NextHandleClose, NextHandleUpdate, NextExpire;
    match e
    case ReadStream(id, len, taken, after) => ReadScheduled(s, id, len, taken, after);
    case WriteStream(id, data, after) => WriteScheduled(s, id, data, after);
    case CloseStream(id, after) => CloseScheduled(s, id, after);
    case DropReader(id) => DropScheduled(s, id, Read);
    case DropWriter(id) => DropScheduled(s, id, Write);
    case Head(emission, after) => HeadScheduled(s, emission, after);
    case SelectRead(frame, id, listens, delivered) => SelectReadScheduled(s, frame, id, listens, delivered);
    case Process(text, reply, after) => ProcessScheduled(s, text, reply, after);
    case HandleClose(after) => HandleCloseScheduled(s, after);
    case HandleUpdate => HandleUpdateScheduled(s);
    case Expire(h) => ExpireScheduled(s, h);
    case _ =>
      QuietCases(s, e);
      if Next(s, e).Running? { SameScheduleScheduled(s, Next(s, e).state); }
  }
}
