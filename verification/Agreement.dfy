/** Whether the queue only names connections that exist.

    It does not always: an update sent by a writer can still be pending when its connection is removed, and
    then schedules a handle that is no longer in the pool. This module says exactly which step does that. */
module Agreement {
  import opened Prelude
  import opened Addresses
  import opened Tcp
  import opened ConnectionSpec
  import opened System
  import opened Ownership
  import opened Scheduling
  import opened LoopDiscipline

  /** Every handle in the queue, picked, or announced by a pending update is in the pool. */
  ghost predicate Agrees(s: State) {
    forall h :: Scheduled(s, h) ==> h in s.pool
  }

  /** The step removes a connection for which an update that asks for a dispatch is still pending. */
  ghost predicate StaleRemoval(s: State, e: Event) {
    && e.Head?
    && var target := DispatchTarget(s.io);
    && target.Some? && target.value in s.pool
    && EndsAtDispatch(s.pool[target.value].flags, e.after, e.emission)
    && target.value in Announced(PendingUpdates(s))
  }

  /** Nothing new is scheduled except possibly `h`, and nothing leaves the pool. */
  lemma AgreesWith(s: State, s': State, h: Handle)
    requires Agrees(s) && h in s'.pool && s.pool.Keys <= s'.pool.Keys
    requires forall k :: k != h && Scheduled(s', k) ==> Scheduled(s, k)
    ensures Agrees(s')
  {
  }

  lemma SameScheduleAgrees(s: State, s': State)
    requires Agrees(s) && s.pool.Keys <= s'.pool.Keys
    requires forall k :: Scheduled(s', k) ==> Scheduled(s, k)
    ensures Agrees(s')
  {
  }

  lemma NotifyAgrees(s: State, s': State, h: Handle, update: Option<PollAt>)
    requires Agrees(s) && h in s.pool
    requires s'.pool == s.pool && s'.queue == s.queue && s'.io == s.io
    requires PendingUpdates(s') == if update.None? then PendingUpdates(s) else PendingUpdates(s) + [(h, update.value)]
    ensures Agrees(s')
  {
    if update.Some? {
      AnnouncedSend(PendingUpdates(s), (h, update.value));
    }
    AgreesWith(s, s', h);
  }

  lemma WriteAgrees(s: State, id: Id, data: seq<u8>, after: Socket)
    requires Owned(s) && Agrees(s) && WriteEnabled(s, id, data, after)
    ensures Agrees(NextWrite(s, id, data, after))
  {
    hide Owned, Agrees, Announced, PendingUpdates;
    LiveIsPooled(s, id);
    WriteIsPending(s, id, data, after);
    NotifyAgrees(s, NextWrite(s, id, data, after), s.streams[id].handle, PollWrite(s.streams[id].shared, data, after).update);
  }

  lemma CloseAgrees(s: State, id: Id, after: Socket)
    requires Owned(s) && Agrees(s) && CloseEnabled(s, id, after)
    ensures Agrees(NextClose(s, id, after))
  {
    hide Owned, Agrees, Announced, PendingUpdates;
    LiveIsPooled(s, id);
    CloseIsPending(s, id, after);
    NotifyAgrees(s, NextClose(s, id, after), s.streams[id].handle, PollClose(s.streams[id].shared, after).update);
  }

  /** A dispatch breaks the agreement exactly when it removes its connection under a pending update. */
  lemma DispatchAgrees(s: State, h: Handle, emission: Emission<Packet>, after: Socket)
    requires Agrees(s) && Known(s, h) && s.io.nextPoll.None?
    ensures Agrees(DispatchConnection(s, h, emission, after)) <==>
            !(EndsAtDispatch(s.pool[h].flags, after, emission) && h in Announced(PendingUpdates(s)))
  {
    hide AfterDispatch, EndsAtDispatch;
    var s' := DispatchConnection(s, h, emission, after);
    if EndsAtDispatch(s.pool[h].flags, after, emission) {
      if h in Announced(PendingUpdates(s)) {
        assert Scheduled(s', h);
      } else {
        forall k | Scheduled(s', k)
          ensures k in s'.pool
        {
          assert Scheduled(s, k);
        }
      }
    } else {
      AgreesWith(s, s', h);
    }
  }

  lemma HeadAgrees(s: State, emission: Emission<Packet>, after: Socket)
    requires Owned(s) && LoopOk(s) && Agrees(s) && HeadEnabled(s, emission, after)
    ensures NextHead(s, emission, after).Running?
    ensures Agrees(NextHead(s, emission, after).state) <==> !StaleRemoval(s, Head(emission, after))
  {
    hide NextHead, DispatchConnection, DispatchContract, EndsAtDispatch, TokensConserved, HalvesArePooled, SocketsValid,
      LoopOk, Announced;
    var target := DispatchTarget(s.io);
    if target.Some? {
      assert Scheduled(s, target.value);
    }
    HeadLoopOk(s, emission, after);
    HeadCases(s, emission, after);
    var s' := NextHead(s, emission, after).state;
    if target.Some? {
      SameScheduleAgrees(s, TakePoll(s));
      DispatchAgrees(TakePoll(s), target.value, emission, after);
      SameSchedule(DispatchConnection(TakePoll(s), target.value, emission, after), s');
    } else {
      SameSchedule(s, s');
    }
  }

  lemma SameSchedule(s: State, s': State)
    requires s'.pool == s.pool && s'.queue == s.queue && PendingUpdates(s') == PendingUpdates(s) && s'.io.nextPoll == s.io.nextPoll
    ensures Agrees(s') <==> Agrees(s)
  {
    assert forall h :: Scheduled(s', h) <==> Scheduled(s, h);
  }

  lemma CreateAgrees(s: State, id: Id, h: Handle, delivered: bool)
    requires Agrees(s) && h.local.WellFormed()
    ensures Agrees(CreateStream(s, id, h, delivered))
  {
    SameScheduleAgrees(s, CreateStream(s, id, h, delivered));
  }

  lemma SelectReadAgrees(s: State, frame: Frame, id: Id, listens: bool, delivered: bool)
    requires Agrees(s) && SelectReadEnabled(s, frame, id)
    ensures Agrees(NextSelectRead(s, frame, id, listens, delivered))
  {
    hide Agrees, NextSelectRead, CreateStream, RouteOf;
    SelectReadCases(s, frame, id, listens, delivered);
    var s' := NextSelectRead(s, frame, id, listens, delivered);
    var route := RouteOf(s.pool.Keys, frame);
    if route.New? && listens {
      CreateAgrees(s, id, route.h, delivered);
      SameSchedule(CreateStream(s, id, route.h, delivered), s');
    } else {
      SameSchedule(s, s');
    }
  }

  lemma ProcessAgrees(s: State, text: seq<u8>, reply: Option<Packet>, after: Socket)
    requires Agrees(s) && ProcessEnabled(s, text, reply, after) && NextProcess(s, text, reply, after).Running?
    ensures Agrees(NextProcess(s, text, reply, after).state)
  {
    hide NextProcess, Acceptable, AfterProcess, ProcessContract, Announced;
    ProcessCases(s, text, reply, after);
    var s' := NextProcess(s, text, reply, after).state;
    var h := s.io.phase.h;
    if Acceptable(s) {
      AgreesWith(s, ProcessConnection(s, h, text, after), h);
      SameSchedule(ProcessConnection(s, h, text, after), s');
    } else {
      SameSchedule(s, s');
    }
  }

  lemma HandleCloseAgrees(s: State, after: Socket)
    requires Agrees(s) && HandleCloseEnabled(s, after) && NextHandleClose(s, after).Running?
    ensures Agrees(NextHandleClose(s, after).state)
  {
    hide AfterDropHalf, CloseContract, Announced;
    HandleCloseCases(s, after);
    AgreesWith(s, NextHandleClose(s, after).state, s.io.phase.close.0);
  }

  lemma HandleUpdateAgrees(s: State)
    requires Agrees(s) && s.io.phase.HandlingUpdate? && NextHandleUpdate(s).Running?
    ensures Agrees(NextHandleUpdate(s).state)
  {
    AnnouncedPop(PendingUpdates(s));
    HandleUpdateCases(s);
    SameScheduleAgrees(s, NextHandleUpdate(s).state);
  }

  lemma ExpireAgrees(s: State, h: Handle)
    requires Agrees(s) && ExpireEnabled(s, h)
    ensures Agrees(NextExpire(s, h))
  {
    SameScheduleAgrees(s, NextExpire(s, h));
  }

  /** From an agreeing state no step panics, and a step keeps the agreement if and only if it does not remove
      a connection under a pending update. */
  lemma AgreementExact(s: State, e: Event)
    requires Owned(s) && LoopOk(s) && Agrees(s) && Enabled(s, e)
    ensures Next(s, e).Running?
    ensures Agrees(Next(s, e).state) <==> !StaleRemoval(s, e)
  {
    hide Owned, LoopOk, Agrees, NextWrite, NextClose, NextSelectRead, NextHead, NextProcess, NextHandleClose,
      NextHandleUpdate, NextExpire, NextWritten;
    match e
    case ReadStream(id, len, taken, after) => SameSchedule(s, NextRead(s, id, len, taken, after));
    case WriteStream(id, data, after) => WriteAgrees(s, id, data, after);
    case CloseStream(id, after) => CloseAgrees(s, id, after);
    case DropReader(id) => SameSchedule(s, NextDrop(s, id, Read));
    case DropWriter(id) => SameSchedule(s, NextDrop(s, id, Write));
    case Head(emission, after) => HeadAgrees(s, emission, after);
    case SelectRead(frame, id, listens, delivered) => SelectReadAgrees(s, frame, id, listens, delivered);
    case Process(text, reply, after) =>
      ProcessLoopOk(s, text, reply, after);
      ProcessAgrees(s, text, reply, after);
    case HandleClose(after) =>
      HandleCloseLoopOk(s, after);
      HandleCloseAgrees(s, after);
    case HandleUpdate =>
      HandleUpdateLoopOk(s);
      HandleUpdateAgrees(s);
    case Expire(h) => ExpireAgrees(s, h);
    case _ =>
      QuietLoopOk(s, e);
      QuietCases(s, e);
      SameSchedule(s, Next(s, e).state);
  }
}
