/** The event loop's own bookkeeping: who holds the writer and its buffer, which selector slots are full,
    and where every packet and message is. */
module LoopDiscipline {
  import opened Prelude
  import opened Addresses
  import opened Tcp
  import opened ConnectionSpec
  import opened System
  import opened Ownership

  /** The writer and its buffer are in exactly one place, and at rest the buffer is empty. Each of the slots b,
      c and d is empty exactly while what was taken out of it is being handled. */
  predicate SlotsOk(io: Io) {
    && (io.writing.Some? <==> io.slotA.None?)
    && (io.writing.Some? ==> io.writing.value == [])
    && (io.slotA.Some? ==> io.slotA.value != [])
    && (io.slotB <==> !io.phase.Handling?)
    && (io.slotC <==> !io.phase.HandlingClose?)
    && (io.slotD <==> !io.phase.HandlingUpdate?)
  }

  /** Away from the head of the loop, an idle writer means that there is nothing to write. */
  predicate WorkConserving(io: Io) {
    io.writing.Some? && io.phase != AtHead ==> io.replies == [] && io.nextPoll.None?
  }

  ghost predicate RepliesOk(io: Io) {
    forall i :: 0 <= i < |io.replies| ==> io.replies[i].TcpPacket? && io.replies[i].origin == IngressReply
  }

  /** A segment being handled was routed to a handle that is in the pool. */
  predicate HandlingOk(s: State) {
    s.io.phase.Handling? ==>
      && s.io.phase.h in s.pool
      && s.io.phase.seg.WellFormed()
      && PairOf(s.io.phase.seg.src, s.io.phase.seg.dst) == Ok(s.io.phase.h)
  }

  function InSlot(io: Io): Buffer {
    if io.slotA.Some? then io.slotA.value else []
  }

  /** Every packet produced has been written, is being written, or waits on the reply stack. */
  ghost predicate PacketsConserved(s: State) {
    s.log.produced == s.log.written + multiset(InSlot(s.io)) + multiset(s.io.replies)
  }

  /** Messages are handled in the order they were sent, each once. */
  ghost predicate MessagesConserved(s: State) {
    && s.log.closesSent == s.log.closesHandled + PendingCloses(s)
    && s.log.updatesSent == s.log.updatesHandled + PendingUpdates(s)
  }

  /** A handle is picked only when its deadline has passed. */
  predicate TimeOk(s: State) {
    && s.clock.start <= s.now
    && (s.io.nextPoll.Some? ==> s.io.nextPoll.value.deadline <= s.now)
  }

  ghost predicate LoopOk(s: State) {
    && SlotsOk(s.io) && WorkConserving(s.io) && RepliesOk(s.io) && HandlingOk(s)
    && PacketsConserved(s) && MessagesConserved(s) && TimeOk(s)
  }

  lemma InitLoopOk(start: nat)
    ensures LoopOk(Init(start))
  {
  }

  /** With only TCP packets on the stack, exactly the last one is taken. */
  lemma PopTakesLast(replies: seq<Packet>)
    requires forall i :: 0 <= i < |replies| ==> replies[i].TcpPacket?
    ensures PopReplies(replies).0 == [] <==> replies == []
    ensures multiset(replies) == multiset(PopReplies(replies).0) + multiset(PopReplies(replies).1)
    ensures PopReplies(replies).1 <= replies
    ensures replies != [] ==> |PopReplies(replies).1| == |replies| - 1
  {
    if replies != [] {
      assert replies == replies[..|replies| - 1] + [replies[|replies| - 1]];
    }
  }

  lemma SendKeepsMessages(s: State, h: Handle, update: Option<PollAt>)
    requires MessagesConserved(s)
    ensures MessagesConserved(SendUpdate(s, h, update))
  {
    if update.Some? {
      var m := (h, update.value);
      var pending := PendingUpdates(s);
      assert PendingUpdates(SendUpdate(s, h, update)) == pending + [m];
      assert s.log.updatesHandled + pending + [m] == s.log.updatesHandled + (pending + [m]);
    }
  }

  lemma CloseKeepsMessages(s: State, h: Handle, half: Half)
    requires MessagesConserved(s)
    ensures MessagesConserved(SendClose(s, h, half))
  {
    var m, pending := (h, half), PendingCloses(s);
    assert PendingCloses(SendClose(s, h, half)) == pending + [m];
    assert s.log.closesHandled + pending + [m] == s.log.closesHandled + (pending + [m]);
  }

  /** The step was the application's: the loop's variables are as they were. */
  ghost predicate LoopIdle(s: State, s': State) {
    && s'.io == s.io && s'.pool == s.pool && s'.clock == s.clock && s'.now == s.now
    && s'.log.produced == s.log.produced && s'.log.written == s.log.written
  }

  lemma LoopIdleOk(s: State, s': State)
    requires LoopOk(s) && LoopIdle(s, s') && MessagesConserved(s')
    ensures LoopOk(s')
  {
  }

  lemma ReadLoopOk(s: State, id: Id, len: nat, taken: nat, after: Socket)
    requires LoopOk(s) && ReadEnabled(s, id, len, taken, after)
    ensures LoopOk(NextRead(s, id, len, taken, after))
  {
    hide SlotsOk, WorkConserving, RepliesOk, HandlingOk, PacketsConserved;
    LoopIdleOk(s, NextRead(s, id, len, taken, after));
  }

  lemma WriteLoopOk(s: State, id: Id, data: seq<u8>, after: Socket)
    requires LoopOk(s) && WriteEnabled(s, id, data, after)
    ensures LoopOk(NextWrite(s, id, data, after))
  {
    hide SlotsOk, WorkConserving, RepliesOk, HandlingOk, PacketsConserved;
    var st := s.streams[id];
    var r := PollWrite(st.shared, data, after);
    SendKeepsMessages(PutStream(s, id, AfterWrite(st, data, after)), st.handle, r.update);
    LoopIdleOk(s, NextWrite(s, id, data, after));
  }

  lemma CloseLoopOk(s: State, id: Id, after: Socket)
    requires LoopOk(s) && CloseEnabled(s, id, after)
    ensures LoopOk(NextClose(s, id, after))
  {
    hide SlotsOk, WorkConserving, RepliesOk, HandlingOk, PacketsConserved;
    var st := s.streams[id];
    var r := PollClose(st.shared, after);
    SendKeepsMessages(PutStream(s, id, AfterClose(st, after)), st.handle, r.update);
    LoopIdleOk(s, NextClose(s, id, after));
  }

  lemma DropLoopOk(s: State, id: Id, half: Half)
    requires LoopOk(s) && DropEnabled(s, id, half)
    ensures LoopOk(NextDrop(s, id, half))
  {
    hide SlotsOk, WorkConserving, RepliesOk, HandlingOk, PacketsConserved;
    var st := s.streams[id];
    var st' := if half.Read? then st.(readerLive := false) else st.(writerLive := false);
    CloseKeepsMessages(PutStream(s, id, st'), st.handle, half);
    LoopIdleOk(s, NextDrop(s, id, half));
  }

  /** Starting a write: `s` has the buffer in the loop's hands, and `buf` is what it holds. */
  lemma SubmitLoopOk(s: State, buf: Buffer)
    requires s.io.phase == AtHead && s.io.slotA.None? && s.io.slotB && s.io.slotC && s.io.slotD
    requires RepliesOk(s.io) && MessagesConserved(s) && TimeOk(s)
    requires s.log.produced == s.log.written + multiset(buf) + multiset(s.io.replies)
    requires buf == [] ==> s.io.replies == [] && s.io.nextPoll.None?
    ensures Submit(s, buf).Running? && LoopOk(Submit(s, buf).state)
  {
  }

  lemma HeadReplyLoopOk(s: State)
    requires LoopOk(s) && s.io.phase == AtHead && s.io.writing.Some? && DispatchTarget(s.io).None?
    ensures var popped := PopReplies(s.io.replies);
            var r := Submit(s.(io := s.io.(replies := popped.1)), popped.0);
            r.Running? && LoopOk(r.state)
  {
    hide Submit, PopReplies;
    PopTakesLast(s.io.replies);
    var popped := PopReplies(s.io.replies);
    SubmitLoopOk(s.(io := s.io.(replies := popped.1)), popped.0);
  }

  lemma HeadDispatchLoopOk(s: State, emission: Emission<Packet>, after: Socket)
    requires emission.Emitted? ==> emission.packet.TcpPacket?
    requires LoopOk(s) && s.io.phase == AtHead && s.io.writing.Some?
    requires DispatchTarget(s.io).Some? && Known(s, DispatchTarget(s.io).value)
    ensures var s1 := DispatchConnection(TakePoll(s), DispatchTarget(s.io).value, emission, after);
            var buf := FilledBy(emission);
            var r := Submit(s1.(log := s1.log.(produced := s1.log.produced + Produced(emission))), buf);
            r.Running? && LoopOk(r.state)
  {
    hide Submit, PopReplies, DispatchConnection;
    PopTakesLast(s.io.replies);
    DispatchFrame(TakePoll(s), DispatchTarget(s.io).value, emission, after);
    var s1 := DispatchConnection(TakePoll(s), DispatchTarget(s.io).value, emission, after);
    var buf := FilledBy(emission);
    assert s1.io.replies == [] && Produced(emission) == multiset(buf);
    SubmitLoopOk(s1.(log := s1.log.(produced := s1.log.produced + Produced(emission))), buf);
  }

  /** The head of the loop cannot fail except in the dispatch, and keeps the discipline. */
  lemma HeadLoopOk(s: State, emission: Emission<Packet>, after: Socket)
    requires LoopOk(s) && HeadEnabled(s, emission, after)
    ensures var r := NextHead(s, emission, after);
            && (r.Running? ==> LoopOk(r.state))
            && (r.Panicked? ==> r.why == DispatchAfterDrop && DispatchTarget(s.io).Some? && !Known(s, DispatchTarget(s.io).value))
            && !r.Refused?
  {
    hide Submit, DispatchContract, PopReplies, DispatchConnection;
    if s.io.writing.Some? {
      if DispatchTarget(s.io).None? {
        HeadReplyLoopOk(s);
      } else if Known(s, DispatchTarget(s.io).value) {
        HeadDispatchLoopOk(s, emission, after);
      }
    }
  }

  lemma WrittenLoopOk(s: State)
    requires LoopOk(s) && s.io.phase == Waiting(Start) && s.io.slotA.Some?
    ensures NextWritten(s).Running? && LoopOk(NextWritten(s).state)
  {
  }

  lemma CreateKeepsMessages(s: State, id: Id, h: Handle, delivered: bool)
    requires h.local.WellFormed() && MessagesConserved(s)
    ensures MessagesConserved(CreateStream(s, id, h, delivered))
  {
    var s1 := PutStream(s, id, NewStream(h, delivered)).(pool := s.pool[h := Entry(id, Flags(false, false))]);
    CloseKeepsMessages(s1, h, Write);
    CloseKeepsMessages(SendClose(s1, h, Write), h, Read);
  }

  lemma SelectReadLoopOk(s: State, frame: Frame, id: Id, listens: bool, delivered: bool)
    requires LoopOk(s) && SelectReadEnabled(s, frame, id)
    ensures LoopOk(NextSelectRead(s, frame, id, listens, delivered))
  {
    var route := RouteOf(s.pool.Keys, frame);
    if route.New? {
      CreateKeepsMessages(s, id, route.h, delivered);
    }
  }

  /** The segment is put down: slot b is full again. */
  lemma HandledLoopOk(s: State)
    requires LoopOk(s) && s.io.phase.Handling?
    ensures LoopOk(s.(io := s.io.(slotB := true, phase := AtHead))) && !s.io.slotB
  {
  }

  lemma SameLoopOk(s: State, s': State)
    requires LoopOk(s) && s'.io == s.io && s'.log == s.log && s'.clock == s.clock && s'.now == s.now
    requires s'.pool.Keys == s.pool.Keys
    requires s'.closes == s.closes && s'.updates == s.updates
    ensures LoopOk(s')
  {
  }

  lemma ReplyLoopOk(s: State, reply: Packet)
    requires LoopOk(s) && s.io.phase == AtHead && reply.TcpPacket? && reply.origin == IngressReply
    ensures LoopOk(s.(io := s.io.(replies := s.io.replies + [reply]),
                      log := s.log.(produced := s.log.produced + multiset{reply})))
  {
    assert multiset(s.io.replies + [reply]) == multiset(s.io.replies) + multiset{reply};
  }

  lemma HandledIsKnown(s: State)
    requires Owned(s) && LoopOk(s) && s.io.phase.Handling?
    ensures Known(s, s.io.phase.h)
  {
    hide TokensConserved, HalvesArePooled, SocketsValid;
  }

  lemma ProcessLoopOk(s: State, text: seq<u8>, reply: Option<Packet>, after: Socket)
    requires Owned(s) && LoopOk(s) && ProcessEnabled(s, text, reply, after)
    ensures NextProcess(s, text, reply, after).Running? && LoopOk(NextProcess(s, text, reply, after).state)
  {
    hide Acceptable, ProcessContract, ProcessConnection, Owned, LoopOk;
    HandledIsKnown(s);
    HandledLoopOk(s);
    var s1 := s.(io := s.io.(slotB := true, phase := AtHead));
    if Acceptable(s) {
      ProcessFrame(s1, s.io.phase.h, text, after);
      var s2 := ProcessConnection(s1, s.io.phase.h, text, after);
      SameLoopOk(s1, s2);
      if reply.Some? { ReplyLoopOk(s2, reply.value); }
    }
  }

  /** The close message is put down: slot c is full again. */
  lemma ClosedLoopOk(s: State)
    requires LoopOk(s) && s.io.phase.HandlingClose?
    ensures !s.io.slotC
    ensures LoopOk(s.(io := s.io.(slotC := true, phase := AtHead),
                      log := s.log.(closesHandled := s.log.closesHandled + [s.io.phase.close])))
  {
    var m := s.io.phase.close;
    assert s.log.closesHandled + ([m] + s.closes) == s.log.closesHandled + [m] + s.closes;
  }

  lemma HandleCloseLoopOk(s: State, after: Socket)
    requires Owned(s) && LoopOk(s) && HandleCloseEnabled(s, after)
    ensures NextHandleClose(s, after).Running? && LoopOk(NextHandleClose(s, after).state)
  {
    hide CloseContract, DropHalf, Owned, LoopOk;
    ClosedLoopOk(s);
    HandleCloseOwned(s, after);
    var m := s.io.phase.close;
    DropHalfFrame(s, m.0, m.1, after);
    SameLoopOk(s.(io := s.io.(slotC := true, phase := AtHead), log := s.log.(closesHandled := s.log.closesHandled + [m])),
               NextHandleClose(s, after).state);
  }

  lemma HandleUpdateLoopOk(s: State)
    requires LoopOk(s) && s.io.phase.HandlingUpdate?
    ensures NextHandleUpdate(s).Running? && LoopOk(NextHandleUpdate(s).state)
  {
    hide QueueSend;
    var m := s.io.phase.update;
    assert s.log.updatesHandled + ([m] + s.updates) == s.log.updatesHandled + [m] + s.updates;
  }

  lemma ExpireLoopOk(s: State, h: Handle)
    requires LoopOk(s) && ExpireEnabled(s, h)
    ensures LoopOk(NextExpire(s, h))
  {
  }

  lemma ScanLoopOk(s: State, scan: Scan)
    requires LoopOk(s) && s.io.phase.Waiting?
    ensures LoopOk(ToPhase(s, Waiting(scan)))
  {
  }

  lemma TickLoopOk(s: State, nanos: nat)
    requires LoopOk(s)
    ensures LoopOk(s.(now := s.now + nanos))
  {
    hide RepliesOk, SlotsOk, WorkConserving;
  }

  lemma SelectCloseLoopOk(s: State)
    requires LoopOk(s) && s.io.phase.Waiting? && s.closes != []
    ensures LoopOk(NextSelectClose(s)) && PendingCloses(NextSelectClose(s)) == PendingCloses(s)
  {
    assert PendingCloses(NextSelectClose(s)) == PendingCloses(s);
  }

  lemma SelectUpdateLoopOk(s: State)
    requires LoopOk(s) && s.io.phase.Waiting? && s.updates != []
    ensures LoopOk(NextSelectUpdate(s)) && PendingUpdates(NextSelectUpdate(s)) == PendingUpdates(s)
  {
    assert PendingUpdates(NextSelectUpdate(s)) == PendingUpdates(s);
  }

  lemma QuietLoopOk(s: State, e: Event)
    requires LoopOk(s) && Quiet(e) && Enabled(s, e)
    ensures Next(s, e).Running? && LoopOk(Next(s, e).state)
  {
    hide LoopOk, NextRead, NextWrite, NextClose, NextDrop, NextSelectRead, NextHead, NextProcess, NextHandleClose,
      NextHandleUpdate, NextExpire, NextWritten, NextSelectClose, NextSelectUpdate;
    match e
    case SelectWritten => WrittenLoopOk(s);
    case Tick(nanos) => TickLoopOk(s, nanos);
    case SelectClose => SelectCloseLoopOk(s);
    case SelectUpdate => SelectUpdateLoopOk(s);
    case ScanCloses => ScanLoopOk(s, ClosesSeenEmpty);
    case ScanUpdates => ScanLoopOk(s, AllSeenPending);
    case Rescan => ScanLoopOk(s, Start);
  }

  /** Every step keeps the discipline, and the only panic a step can raise is the dispatch of a handle that
      is no longer in the pool. */
  lemma LoopOkPreserved(s: State, e: Event)
    requires Owned(s) && LoopOk(s) && Enabled(s, e)
    ensures Next(s, e).Running? ==> LoopOk(Next(s, e).state)
    ensures !Next(s, e).Running? ==>
              && Next(s, e) == Panicked(DispatchAfterDrop) && e.Head?
              && DispatchTarget(s.io).Some? && !Known(s, DispatchTarget(s.io).value)
  {
    hide Owned, LoopOk, NextRead, NextWrite, NextClose, NextDrop, NextSelectRead, NextHead, NextProcess,
      NextHandleClose, NextHandleUpdate, NextExpire, NextWritten;
    match e
    case ReadStream(id, len, taken, after) => ReadLoopOk(s, id, len, taken, after);
    case WriteStream(id, data, after) => WriteLoopOk(s, id, data, after);
    case CloseStream(id, after) => CloseLoopOk(s, id, after);
    case DropReader(id) => DropLoopOk(s, id, Read);
    case DropWriter(id) => DropLoopOk(s, id, Write);
    case Head(emission, after) => HeadLoopOk(s, emission, after);
    case SelectRead(frame, id, listens, delivered) => SelectReadLoopOk(s, frame, id, listens, delivered);
    case Process(text, reply, after) => ProcessLoopOk(s, text, reply, after);
    case HandleClose(after) => HandleCloseLoopOk(s, after);
    case HandleUpdate => HandleUpdateLoopOk(s);
    case Expire(h) => ExpireLoopOk(s, h);
    case _ => QuietLoopOk(s, e);
  }
}
