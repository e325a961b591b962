/** A handle that is picked after both of its halves were marked dropped is picked with no update of its own
    waiting: picking comes after the update channel was seen empty, and nobody is left to send one. */
module SettledPicks {
  import opened Prelude
  import opened Addresses
  import opened Tcp
  import opened ConnectionSpec
  import opened System
  import opened Ownership
  import opened Scheduling
  import opened Wakeups
  import opened Agreement

  ghost predicate NoUpdates(updates: seq<PollUpdate>, h: Handle) {
    forall i :: 0 <= i < |updates| ==> updates[i].0 != h
  }

  ghost predicate BothDropped(s: State, h: Handle) {
    h in s.pool && s.pool[h].flags.Both()
  }

  ghost predicate SettledOk(s: State) {
    && (s.io.phase == Waiting(AllSeenPending) ==> forall h :: BothDropped(s, h) ==> NoUpdates(PendingUpdates(s), h))
    && (s.io.nextPoll.Some? && s.io.nextPoll.value.settled ==>
          BothDropped(s, s.io.nextPoll.value.handle) && NoUpdates(PendingUpdates(s), s.io.nextPoll.value.handle))
  }

  /** A writer only sends updates for a connection it still holds. */
  lemma NotifySettled(s: State, s': State, id: Id, update: Option<PollAt>)
    requires Owned(s) && SettledOk(s) && id in s.streams && s.streams[id].writerLive
    requires s'.pool == s.pool && s'.io == s.io
    requires PendingUpdates(s') == if update.None? then PendingUpdates(s) else PendingUpdates(s) + [(s.streams[id].handle, update.value)]
    ensures SettledOk(s')
  {
    hide Owned;
    var k := s.streams[id].handle;
    LiveIsPooled(s, id);
    DroppedIsNotLive(s, k, Write);
    assert !BothDropped(s, k);
    forall h | h != k && NoUpdates(PendingUpdates(s), h)
      ensures NoUpdates(PendingUpdates(s'), h)
    {
    }
    assert forall h :: BothDropped(s', h) <==> BothDropped(s, h);
  }

  lemma WriteSettled(s: State, id: Id, data: seq<u8>, after: Socket)
    requires Owned(s) && SettledOk(s) && WriteEnabled(s, id, data, after)
    ensures SettledOk(NextWrite(s, id, data, after))
  {
    hide Owned, SettledOk, PendingUpdates;
    WriteIsPending(s, id, data, after);
    NotifySettled(s, NextWrite(s, id, data, after), id, PollWrite(s.streams[id].shared, data, after).update);
  }

  lemma CloseSettled(s: State, id: Id, after: Socket)
    requires Owned(s) && SettledOk(s) && CloseEnabled(s, id, after)
    ensures SettledOk(NextClose(s, id, after))
  {
    hide Owned, SettledOk, PendingUpdates;
    CloseIsPending(s, id, after);
    NotifySettled(s, NextClose(s, id, after), id, PollClose(s.streams[id].shared, after).update);
  }

  lemma HeadSettled(s: State, emission: Emission<Packet>, after: Socket)
    requires SettledOk(s) && HeadEnabled(s, emission, after) && NextHead(s, emission, after).Running?
    ensures SettledOk(NextHead(s, emission, after).state)
  {
    hide NextHead, DispatchConnection, DispatchContract, PopReplies;
    HeadCases(s, emission, after);
    HeadWaits(s, emission, after);
    if DispatchTarget(s.io).Some? {
      DispatchFrame(TakePoll(s), DispatchTarget(s.io).value, emission, after);
    }
  }

  lemma HeadWaits(s: State, emission: Emission<Packet>, after: Socket)
    requires NextHead(s, emission, after).Running?
    ensures NextHead(s, emission, after).state.io.phase == Waiting(Start)
  {
    hide DispatchConnection, PopReplies;
  }

  lemma ExpireSettled(s: State, h: Handle)
    requires SettledOk(s) && ExpireEnabled(s, h)
    ensures SettledOk(NextExpire(s, h))
  {
    assert BothDropped(s, h) ==> NoUpdates(PendingUpdates(s), h);
  }

  lemma SameSettled(s: State, s': State)
    requires SettledOk(s) && s'.pool == s.pool && s'.io == s.io && PendingUpdates(s') == PendingUpdates(s)
    ensures SettledOk(s')
  {
    assert forall h :: BothDropped(s', h) <==> BothDropped(s, h);
  }

  lemma QuietSettled(s: State, e: Event)
    requires SettledOk(s) && Quiet(e) && Enabled(s, e) && Next(s, e).Running?
    ensures SettledOk(Next(s, e).state)
  {
    QuietCases(s, e);
    assert e.ScanUpdates? ==> forall h :: NoUpdates(s.updates, h);
  }

  lemma SelectReadSettled(s: State, frame: Frame, id: Id, listens: bool, delivered: bool)
    requires SettledOk(s) && SelectReadEnabled(s, frame, id)
    ensures SettledOk(NextSelectRead(s, frame, id, listens, delivered))
  {
    hide RouteOf;
  }

  lemma ProcessSettled(s: State, text: seq<u8>, reply: Option<Packet>, after: Socket)
    requires SettledOk(s) && ProcessEnabled(s, text, reply, after) && NextProcess(s, text, reply, after).Running?
    ensures SettledOk(NextProcess(s, text, reply, after).state)
  {
    hide Acceptable, AfterProcess, QueueAfterProcess, ProcessContract;
  }

  lemma HandleCloseSettled(s: State, after: Socket)
    requires SettledOk(s) && HandleCloseEnabled(s, after) && NextHandleClose(s, after).Running?
    ensures SettledOk(NextHandleClose(s, after).state)
  {
    hide AfterDropHalf, QueueAfterDropHalf, CloseContract;
    HandleCloseCases(s, after);
  }

  lemma HandleUpdateSettled(s: State)
    requires SettledOk(s) && s.io.phase.HandlingUpdate? && NextHandleUpdate(s).Running?
    ensures SettledOk(NextHandleUpdate(s).state)
  {
    hide QueueSend;
    HandleUpdateCases(s);
  }

  lemma SettledOkPreserved(s: State, e: Event)
    requires Owned(s) && SettledOk(s) && Enabled(s, e) && Next(s, e).Running?
    ensures SettledOk(Next(s, e).state)
  {
    hide Owned, NextWrite, NextClose, NextSelectRead, NextHead, NextProcess, NextHandleClose,
      NextHandleUpdate, PollRead;
    match e
    case WriteStream(id, data, after) => WriteSettled(s, id, data, after);
    case CloseStream(id, after) => CloseSettled(s, id, after);
    case Head(emission, after) => HeadSettled(s, emission, after);
    case SelectRead(frame, id, listens, delivered) => SelectReadSettled(s, frame, id, listens, delivered);
    case Process(text, reply, after) => ProcessSettled(s, text, reply, after);
    case HandleClose(after) => HandleCloseSettled(s, after);
    case HandleUpdate => HandleUpdateSettled(s);
    case Expire(h) => ExpireSettled(s, h);
    case ReadStream(id, len, taken, after) => SameSettled(s, NextRead(s, id, len, taken, after));
    case DropReader(id) => SameSettled(s, NextDrop(s, id, Read));
    case DropWriter(id) => SameSettled(s, NextDrop(s, id, Write));
    case _ => QuietSettled(s, e);
  }

  /** The removal of a settled pick is never stale. */
  lemma SettledRemovalIsNotStale(s: State, e: Event)
    requires SettledOk(s) && s.io.nextPoll.Some? && s.io.nextPoll.value.settled
    ensures !StaleRemoval(s, e)
  {
  }
}
