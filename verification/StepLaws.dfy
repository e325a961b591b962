/** What each step does to the pool, the queue and the loop's variables, said in the fields of the state. */
module StepLaws {
  import opened Prelude
  import opened Addresses
  import opened Tcp
  import opened ConnectionSpec
  import opened ConnectionLaws
  import opened System
  import opened Ownership
  import opened LoopDiscipline
  import opened NonInterference

  // ---- The application ----

  /** A read changes its own stream and nothing else: the bytes taken are delivered; if none were and some may still come,
      the waker is registered and the call remembered; otherwise end of stream has been reached. */
  lemma ReadExactly(s: State, id: Id, len: nat, taken: nat, after: Socket)
    requires ReadEnabled(s, id, len, taken, after)
    ensures var st := s.streams[id];
            var tcp, woken := st.shared.tcp, st.shared.reader.woken;
            var waits := taken == 0 && (tcp.rx != [] || Receiving(tcp.state) || tcp.state == SynReceived);
            NextRead(s, id, len, taken, after) == s.(streams := s.streams[id := st.(
              shared := st.shared.(tcp := after, reader := if waits then Waker(Some(Registration(len)), woken) else st.shared.reader),
              eofReached := st.eofReached || (taken == 0 && !waits),
              delivered := st.delivered + tcp.rx[..taken],
              readCall := if waits then Some(Call(len, woken)) else None)])
  {
    var st := s.streams[id];
    ReadLaw(st.shared, st.eofReached, len, taken, after);
    assert st.shared.tcp.rx[..0] == [];
    hide PollRead;
  }

  /** How many bytes a write takes: as many as fit, if anything may be sent. */
  function Fitting(tcp: Socket, data: seq<u8>): (n: nat)
    requires |tcp.tx| <= BUFFER_SIZE
    ensures n <= |data|
  {
    if !MaySendIn(tcp.state) then 0
    else if |data| <= BUFFER_SIZE - |tcp.tx| then |data| else BUFFER_SIZE - |tcp.tx|
  }

  /** What a half tells the loop: nothing while polling is active, else when its socket wants to be dispatched. */
  function Announcement(st: Stream, after: Socket): seq<PollUpdate> {
    if st.shared.pollingActive then [] else [(st.handle, First(after))]
  }

  /** A write takes and reports as many bytes as fit; if it may send but took none, the waker is registered and the call
      remembered. It tells the loop exactly when polling is not active. */
  lemma WriteExactly(s: State, id: Id, data: seq<u8>, after: Socket)
    requires WriteEnabled(s, id, data, after) && |s.streams[id].shared.tcp.tx| <= BUFFER_SIZE
    ensures var st := s.streams[id];
            var n, woken := Fitting(st.shared.tcp, data), st.shared.writer.woken;
            var waits := MaySendIn(st.shared.tcp.state) && n == 0;
            var sent := Announcement(st, after);
            && after.tx == st.shared.tcp.tx + data[..n]
            && NextWrite(s, id, data, after) == s.(
                 streams := s.streams[id := st.(
                   shared := st.shared.(tcp := after,
                                        writer := if waits then Waker(Some(Registration(|data|)), woken) else st.shared.writer),
                   written := st.written + data[..n],
                   writeCall := if waits then Some(Call(|data|, woken)) else None)],
                 updates := s.updates + sent, log := s.log.(updatesSent := s.log.updatesSent + sent))
  {
    var st := s.streams[id];
    WriteLaw(st.shared, data, after);
    FirstIsFirst(after);
    var r := PollWrite(st.shared, data, after);
    if r.update.Some? { FirstIsUnique(after, First(after), r.update.value); }
    hide PollWrite, First;
    WriteTakes(st, data, after, r);
    assert s.updates + [] == s.updates && s.log.updatesSent + [] == s.log.updatesSent;
  }

  lemma WriteTakes(st: Stream, data: seq<u8>, after: Socket, r: WriteStep)
    requires |st.shared.tcp.tx| <= BUFFER_SIZE
    requires if st.shared.tcp.CanSend() then SendContract(st.shared.tcp, data, after) else after == st.shared.tcp
    requires r == PollWrite(st.shared, data, after)
    ensures var n := Fitting(st.shared.tcp, data);
            && (r.result.Written? <==> n > 0) && (r.result.Written? ==> r.result.n == n)
            && (r.result == WritePending <==> n == 0 && MaySendIn(st.shared.tcp.state))
            && after.tx == st.shared.tcp.tx + data[..n] && data[..0] == []
  {
    WriteLaw(st.shared, data, after);
    hide PollWrite;
    if r.result.Written? {
      assert |after.tx| == |st.shared.tcp.tx| + r.result.n;
    } else {
      assert st.shared.tcp.tx + [] == st.shared.tcp.tx;
    }
  }

  /** A close closes the socket whatever the flag says, and tells the loop exactly when polling is not active. */
  lemma CloseExactly(s: State, id: Id, after: Socket)
    requires CloseEnabled(s, id, after)
    ensures var st := s.streams[id];
            var sent := Announcement(st, after);
            && after.state == CloseState(st.shared.tcp.state)
            && after.rx == st.shared.tcp.rx && after.tx == st.shared.tcp.tx
            && NextClose(s, id, after) == s.(
                 streams := s.streams[id := st.(shared := st.shared.(tcp := after), writerClosed := true, writeCall := None)],
                 updates := s.updates + sent, log := s.log.(updatesSent := s.log.updatesSent + sent))
  {
    var st := s.streams[id];
    CloseLaw(st.shared, after);
    FirstIsFirst(after);
    var r := PollClose(st.shared, after);
    if r.update.Some? { FirstIsUnique(after, First(after), r.update.value); }
    hide PollClose, First;
    assert s.updates + [] == s.updates && s.log.updatesSent + [] == s.log.updatesSent;
  }

  /** Dropping a half takes it from the application and tells the loop. */
  lemma DropExactly(s: State, id: Id, half: Half)
    requires DropEnabled(s, id, half)
    ensures var st := s.streams[id];
            NextDrop(s, id, half) == s.(
              streams := s.streams[id := st.(readerLive := st.readerLive && half != Read, writerLive := st.writerLive && half != Write)],
              closes := s.closes + [(st.handle, half)],
              log := s.log.(closesSent := s.log.closesSent + [(st.handle, half)]))
  {
  }

  // ---- Segments ----

  /** A plain SYN to a handle without a connection gets a stream of its own, listening on the segment's destination,
      with both halves in the application's hands, or both given up at once if nobody takes it. Any other frame for no
      connection changes nothing. */
  lemma OpenExactly(s: State, frame: Frame, id: Id, listens: bool, delivered: bool, h: Handle)
    requires SelectReadEnabled(s, frame, id) && Opens(s, SelectRead(frame, id, listens, delivered), h)
    ensures var lost := if delivered then [] else [(h, Write), (h, Read)];
            NextSelectRead(s, frame, id, listens, delivered) == s.(
              streams := s.streams[id := Stream(
                h, Shared(Socket(Listen, frame.seg.dst, NO_ENDPOINT, [], [], 0, Ingress, Ingress), false, NO_WAKER, NO_WAKER),
                delivered, delivered, false, false, [], [], [], [], [], [], None, None)],
              pool := s.pool[h := Entry(id, Flags(false, false))],
              closes := s.closes + lost,
              io := s.io.(slotB := false, phase := Handling(frame.seg, h)),
              log := s.log.(closesSent := s.log.closesSent + lost))
  {
    RouteExactly(s.pool.Keys, frame.seg, h);
    hide RouteOf, ToEndpoint;
    assert s.closes + [(h, Write)] + [(h, Read)] == s.closes + [(h, Write), (h, Read)];
    assert s.log.closesSent + [(h, Write)] + [(h, Read)] == s.log.closesSent + [(h, Write), (h, Read)];
    assert s.closes + [] == s.closes && s.log.closesSent + [] == s.log.closesSent;
  }

  /** A segment that is rejected changes nothing; one that is accepted changes its own connection and queue entry, and a
      reply goes on the stack. */
  lemma ProcessExactly(s: State, text: seq<u8>, reply: Option<Packet>, after: Socket)
    requires s.io.phase.Handling? && Known(s, s.io.phase.h) && !s.io.slotB
    ensures var r, h := NextProcess(s, text, reply, after), s.io.phase.h;
            var replies := if reply.Some? then [reply.value] else [];
            && r.Running?
            && if !Acceptable(s) then r.state == s.(io := s.io.(slotB := true, phase := AtHead))
               else
                 && s.pool[h].id in r.state.streams
                 && r.state == s.(
                      streams := s.streams[s.pool[h].id := r.state.streams[s.pool[h].id]],
                      queue := r.state.queue,
                      io := s.io.(slotB := true, phase := AtHead, replies := s.io.replies + replies),
                      log := s.log.(produced := s.log.produced + multiset(replies)))
                 && var st, st' := s.streams[s.pool[h].id], r.state.streams[s.pool[h].id];
                 st' == st.(shared := st'.shared, accepted := st.accepted + text, acked := st'.acked)
  {
    hide Acceptable, AfterProcess, QueueAfterProcess, Freed;
    assert s.io.replies + [] == s.io.replies && s.log.produced + multiset{} == s.log.produced;
    if reply.Some? { assert multiset([reply.value]) == multiset{reply.value}; }
  }

  // ---- The head of the loop ----

  /** The writer is idle, no reply is stacked, and the handle is picked. */
  predicate DispatchesNow(s: State, h: Handle) {
    s.io.writing == Some([]) && s.io.replies == [] && s.io.nextPoll.Some? && s.io.nextPoll.value.handle == h
  }

  lemma TargetInFields(s: State, h: Handle)
    requires LoopOk(s)
    ensures DispatchTarget(s.io) == Some(h) <==> DispatchesNow(s, h)
  {
    PopTakesLast(s.io.replies);
    hide PopReplies;
  }

  /** The packet that the head of the loop starts to write, if it does. */
  function Starts(s: State, emission: Emission<Packet>): Option<Packet> {
    if s.io.writing.None? then None
    else if s.io.replies != [] then Some(s.io.replies[|s.io.replies| - 1])
    else if s.io.nextPoll.Some? && emission.Emitted? then Some(emission.packet)
    else None
  }

  lemma PopInFields(replies: seq<Packet>)
    requires forall i :: 0 <= i < |replies| ==> replies[i].TcpPacket?
    ensures PopReplies(replies) ==
            if replies == [] then ([], []) else ([replies[|replies| - 1]], replies[..|replies| - 1])
  {
  }

  /** While a write is in progress the head does nothing. Otherwise it writes the last reply, or if there is none
      dispatches the picked handle and writes what the engine sends, or if there is none either leaves the writer
      idle. */
  lemma HeadExactly(s: State, emission: Emission<Packet>, after: Socket)
    requires Owned(s) && LoopOk(s) && HeadEnabled(s, emission, after) && NextHead(s, emission, after).Running?
    ensures var s' := NextHead(s, emission, after).state;
            var busy, n := s.io.writing.None?, |s.io.replies|;
            var dispatches := !busy && n == 0 && s.io.nextPoll.Some?;
            && s'.io == s.io.(
                 phase := Waiting(Start),
                 nextPoll := if dispatches then None else s.io.nextPoll,
                 replies := if busy || n == 0 then s.io.replies else s.io.replies[..n - 1],
                 writing := if Starts(s, emission).Some? then None else s.io.writing,
                 slotA := if Starts(s, emission).Some? then Some([Starts(s, emission).value]) else s.io.slotA)
            && s'.closes == s.closes && s'.updates == s.updates && s'.clock == s.clock && s'.now == s.now
            && (!dispatches ==> s' == s.(io := s'.io))
            && s'.log == s.log.(produced := s.log.produced + if dispatches && emission.Emitted? then multiset{emission.packet} else multiset{})
  {
    hide DispatchConnection, DispatchContract, PopReplies, Owned, PacketsConserved, MessagesConserved;
    PopInFields(s.io.replies);
    assert s.log.produced + multiset{} == s.log.produced;
    if DispatchTarget(s.io).Some? && Known(s, DispatchTarget(s.io).value) {
      DispatchFrame(TakePoll(s), DispatchTarget(s.io).value, emission, after);
    }
  }

  /** A due handle leaves the queue and is picked, with its deadline and whether both halves were marked by then. */
  lemma ExpireExactly(s: State, h: Handle)
    requires ExpireEnabled(s, h)
    ensures s.queue[h] <= s.now
    ensures NextExpire(s, h) == s.(
              queue := s.queue - {h},
              io := s.io.(phase := AtHead,
                          nextPoll := Some(Picked(h, s.queue[h],
                            h in s.pool && s.pool[h].flags.readerDropped && s.pool[h].flags.writerDropped))))
  {
  }

  // ---- The pool ----

  /** The step is a dispatch that ends the connection: both halves are marked dropped, and the remote is not specified,
      or nothing was sent, or the socket does not want to be dispatched again. */
  predicate Removes(s: State, e: Event, h: Handle) {
    && e.Head? && DispatchesNow(s, h) && h in s.pool
    && s.pool[h].flags.readerDropped && s.pool[h].flags.writerDropped
    && (e.after.remote.addr.IsUnspecified() || e.after.remote.port == 0 || e.emission.NothingToSend?
        || (e.after.txPoll == Ingress && e.after.ackPoll == Ingress))
  }

  /** The step takes a plain SYN to a handle without a connection, and the socket can listen. */
  predicate Opens(s: State, e: Event, h: Handle) {
    && e.SelectRead? && e.listens && e.frame.Tcp? && h !in s.pool
    && e.frame.seg.control == Syn && !e.frame.seg.hasAck
    && h.peer.WellFormed() && h.local.WellFormed()
    && e.frame.seg.src == ToEndpoint(h.peer) && e.frame.seg.dst == ToEndpoint(h.local)
  }

  /** The step handles the close message of the half. */
  predicate Marks(s: State, e: Event, h: Handle, half: Half) {
    e.HandleClose? && s.io.phase == HandlingClose((h, half))
  }

  /** The entry of a connection that stays. */
  function Marked(s: State, e: Event, h: Handle): Entry
    requires h in s.pool
  {
    var f := s.pool[h].flags;
    Entry(s.pool[h].id, Flags(f.readerDropped || Marks(s, e, h, Read), f.writerDropped || Marks(s, e, h, Write)))
  }

  ghost predicate PoolChanges(s: State, e: Event, s': State, h: Handle) {
    && (h in s'.pool <==> Opens(s, e, h) || (h in s.pool && !Removes(s, e, h)))
    && (Opens(s, e, h) ==> s'.pool[h] == Entry(e.id, Flags(false, false)))
    && (h in s.pool && h in s'.pool ==> s'.pool[h] == Marked(s, e, h))
  }

  lemma DispatchChangesPool(s: State, k: Handle, emission: Emission<Packet>, after: Socket, h: Handle)
    requires Known(s, k)
    ensures var s' := DispatchConnection(s, k, emission, after);
            var f := s.pool[k].flags;
            var ends := f.readerDropped && f.writerDropped
              && (after.remote.addr.IsUnspecified() || after.remote.port == 0 || emission.NothingToSend?
                  || (after.txPoll == Ingress && after.ackPoll == Ingress));
            && (h in s'.pool <==> h in s.pool && !(h == k && ends))
            && (h in s.pool && h in s'.pool ==> s'.pool[h] == s.pool[h])
  {
    RemovalLaw(s.pool[k].flags, after, emission);
    hide EndsAtDispatch, DispatchedStream, QueueAfterDispatch;
  }

  lemma HeadChangesPool(s: State, emission: Emission<Packet>, after: Socket, h: Handle)
    requires LoopOk(s) && HeadEnabled(s, emission, after) && NextHead(s, emission, after).Running?
    ensures var s' := NextHead(s, emission, after).state;
            && (h in s'.pool <==> h in s.pool && !Removes(s, Head(emission, after), h))
            && (h in s.pool && h in s'.pool ==> s'.pool[h] == s.pool[h])
  {
    TargetInFields(s, h);
    hide LoopOk, NextHead, DispatchConnection, DispatchContract, DispatchTarget, DispatchesNow;
    HeadCases(s, emission, after);
    var target := DispatchTarget(s.io);
    if target.Some? {
      DispatchChangesPool(TakePoll(s), target.value, emission, after, h);
    }
  }

  lemma SelectReadChangesPool(s: State, frame: Frame, id: Id, listens: bool, delivered: bool, h: Handle)
    requires SelectReadEnabled(s, frame, id)
    ensures PoolChanges(s, SelectRead(frame, id, listens, delivered), NextSelectRead(s, frame, id, listens, delivered), h)
  {
    if frame.Tcp? { RouteExactly(s.pool.Keys, frame.seg, h); }
    hide RouteOf, ToEndpoint;
  }

  lemma HandleCloseChangesPool(s: State, after: Socket, h: Handle)
    requires HandleCloseEnabled(s, after) && NextHandleClose(s, after).Running?
    ensures PoolChanges(s, HandleClose(after), NextHandleClose(s, after).state, h)
  {
    hide AfterDropHalf, QueueAfterDropHalf, CloseContract;
  }

  /** Steps that neither the pool nor the queue sees. */
  predicate Elsewhere(e: Event) {
    ByApplication(e) || Quiet(e)
  }

  lemma ElsewhereLeaves(s: State, e: Event)
    requires Elsewhere(e) && Enabled(s, e) && Next(s, e).Running?
    ensures Next(s, e).state.pool == s.pool && Next(s, e).state.queue == s.queue
  {
    hide Enabled, Next;
    if ByApplication(e) { ApplicationFrame(s, e); } else { QuietCases(s, e); }
  }

  lemma ProcessLeavesPool(s: State, text: seq<u8>, reply: Option<Packet>, after: Socket)
    requires s.io.phase.Handling? && NextProcess(s, text, reply, after).Running?
    ensures NextProcess(s, text, reply, after).state.pool == s.pool
  {
    hide NextProcess, Acceptable, ProcessConnection;
    ProcessCases(s, text, reply, after);
    if Acceptable(s) { ProcessFrame(s, s.io.phase.h, text, after); }
  }

  /** Which handles are in the pool after a step, and with which flags. */
  lemma PoolExactly(s: State, e: Event, h: Handle)
    requires LoopOk(s) && Enabled(s, e) && Next(s, e).Running?
    ensures PoolChanges(s, e, Next(s, e).state, h)
  {
    hide LoopOk, NextHead, NextProcess, NextHandleClose, NextHandleUpdate, NextSelectRead, Acceptable, QueueSend,
      NextRead, NextWrite, NextClose, NextDrop, NextWritten;
    if Elsewhere(e) {
      hide Enabled, Next;
      ElsewhereLeaves(s, e);
    } else {
      match e
      case Head(emission, after) => HeadChangesPool(s, emission, after, h);
      case SelectRead(frame, id, listens, delivered) => SelectReadChangesPool(s, frame, id, listens, delivered, h);
      case HandleClose(after) => HandleCloseChangesPool(s, after, h);
      case Process(text, reply, after) => ProcessLeavesPool(s, text, reply, after);
      case HandleUpdate => HandleUpdateCases(s);
      case Expire(_) =>
    }
  }

  // ---- The queue ----

  /** The deadline that the step asks the queue for on behalf of `k`, if it asks for one: what the engine wants after
      processing, dispatching or closing, what a writer announced, or now for an abandoned connection of which the
      engine wants nothing. */
  function AskedBy(s: State, e: Event, k: Handle): Option<nat>
    requires Enabled(s, e)
  {
    match e
    case Process(_, _, after) => AskedAtProcess(s, after, k)
    case Head(emission, after) => AskedAtHead(s, emission, after, k)
    case HandleClose(after) =>
      var m := s.io.phase.close;
      if m.0 != k || !Known(s, k) || !(m.1 == Write || s.pool[k].flags.writerDropped) then None
      else if First(after) == Ingress && (m.1 == Read || s.pool[k].flags.readerDropped) then Some(s.clock.start)
      else Instant(s.clock, First(after))
    case HandleUpdate => if s.io.phase.update.0 == k then Instant(s.clock, s.io.phase.update.1) else None
    case _ => None
  }

  function AskedAtProcess(s: State, after: Socket, k: Handle): Option<nat>
    requires s.io.phase.Handling?
  {
    if s.io.phase.h != k || !Known(s, k) || !Acceptable(s) then None
    else if First(after) == Ingress && s.pool[k].flags.readerDropped && s.pool[k].flags.writerDropped && k !in s.queue
    then Some(s.clock.start)
    else Instant(s.clock, First(after))
  }

  function AskedAtHead(s: State, emission: Emission<Packet>, after: Socket, k: Handle): Option<nat> {
    if DispatchesNow(s, k) && !Removes(s, Head(emission, after), k) then Instant(s.clock, First(after)) else None
  }

  predicate TakesOff(s: State, e: Event, k: Handle) {
    e == Expire(k) || Removes(s, e, k)
  }

  ghost predicate QueueChanges(q: Queue, q': Queue, k: Handle, asked: Option<nat>, taken: bool) {
    if taken then k !in q'
    else if asked.Some? then k in q' && q'[k] == asked.value
    else SameDeadline(q, q', k)
  }

  lemma DispatchChangesQueue(s: State, h: Handle, emission: Emission<Packet>, after: Socket, k: Handle)
    requires Known(s, h)
    ensures var f := s.pool[h].flags;
            var ends := f.readerDropped && f.writerDropped
              && (after.remote.addr.IsUnspecified() || after.remote.port == 0 || emission.NothingToSend?
                  || (after.txPoll == Ingress && after.ackPoll == Ingress));
            QueueChanges(s.queue, DispatchConnection(s, h, emission, after).queue, k,
                         if k == h && !ends then Instant(s.clock, First(after)) else None, k == h && ends)
  {
    var f := s.pool[h].flags;
    RemovalLaw(f, after, emission);
    FirstIsFirst(after);
    DispatchQueueLaw(s.clock, f, s.queue, h, after, emission, First(after));
    hide EndsAtDispatch, QueueAfterDispatch, DispatchedStream, First, Instant;
  }

  lemma HeadChangesQueue(s: State, emission: Emission<Packet>, after: Socket, k: Handle)
    requires LoopOk(s) && HeadEnabled(s, emission, after) && NextHead(s, emission, after).Running?
    ensures QueueChanges(s.queue, NextHead(s, emission, after).state.queue, k,
                         AskedAtHead(s, emission, after, k), Removes(s, Head(emission, after), k))
  {
    TargetInFields(s, k);
    hide LoopOk, NextHead, DispatchContract, DispatchConnection, DispatchTarget, DispatchesNow, First, Instant;
    HeadCases(s, emission, after);
    var target := DispatchTarget(s.io);
    if target.Some? {
      DispatchChangesQueue(TakePoll(s), target.value, emission, after, k);
    }
  }

  lemma ProcessChangesQueue(s: State, text: seq<u8>, reply: Option<Packet>, after: Socket, k: Handle)
    requires s.io.phase.Handling? && NextProcess(s, text, reply, after).Running?
    ensures QueueChanges(s.queue, NextProcess(s, text, reply, after).state.queue, k, AskedAtProcess(s, after, k), false)
  {
    hide NextProcess, Acceptable, First, Instant;
    ProcessCases(s, text, reply, after);
    if Acceptable(s) {
      var h := s.io.phase.h;
      FirstIsFirst(after);
      ProcessQueueLaw(s.clock, s.pool[h].flags, s.queue, h, after, First(after));
      hide QueueAfterProcess, ProcessedStream;
    }
  }

  lemma HandleCloseChangesQueue(s: State, after: Socket, k: Handle)
    requires HandleCloseEnabled(s, after) && NextHandleClose(s, after).Running?
    ensures var e := HandleClose(after);
            Enabled(s, e) && QueueChanges(s.queue, NextHandleClose(s, after).state.queue, k, AskedBy(s, e, k), false)
  {
    hide NextHandleClose, CloseContract, First;
    HandleCloseCases(s, after);
    var m := s.io.phase.close;
    FirstIsFirst(after);
    DropHalfQueueLaw(s.clock, s.pool[m.0].flags.Mark(m.1), s.queue, m.0, after, First(after));
    hide QueueAfterDropHalf, AfterDropHalf;
  }

  lemma ElsewhereAsksNothing(s: State, e: Event, k: Handle)
    requires Elsewhere(e) && Enabled(s, e)
    ensures AskedBy(s, e, k) == None && !TakesOff(s, e, k)
  {
    hide Enabled;
  }

  lemma SelectReadLeavesQueue(s: State, frame: Frame, id: Id, listens: bool, delivered: bool)
    requires SelectReadEnabled(s, frame, id)
    ensures NextSelectRead(s, frame, id, listens, delivered).queue == s.queue
  {
    hide RouteOf, NextSelectRead, CreateStream;
    SelectReadCases(s, frame, id, listens, delivered);
    var route := RouteOf(s.pool.Keys, frame);
    if route.New? { CreateFrame(s, id, route.h, delivered); }
  }

  /** Which deadline a handle has after a step: none if the step took it off, else what the step asked for, else what it
      had. */
  lemma DeadlineExactly(s: State, e: Event, k: Handle)
    requires LoopOk(s) && Enabled(s, e) && Next(s, e).Running?
    ensures QueueChanges(s.queue, Next(s, e).state.queue, k, AskedBy(s, e, k), TakesOff(s, e, k))
  {
    hide LoopOk, NextHead, NextProcess, NextHandleClose, NextHandleUpdate, NextSelectRead, Acceptable, QueueSend, First,
      NextRead, NextWrite, NextClose, NextDrop, NextWritten, RouteOf;
    if Elsewhere(e) {
      ElsewhereAsksNothing(s, e, k);
      hide Enabled, Next, AskedBy;
      ElsewhereLeaves(s, e);
    } else {
      match e
      case Head(emission, after) => HeadChangesQueue(s, emission, after, k);
      case Process(text, reply, after) => ProcessChangesQueue(s, text, reply, after, k);
      case HandleClose(after) => HandleCloseChangesQueue(s, after, k);
      case HandleUpdate =>
        HandleUpdateCases(s);
        SendLaw(s.clock, s.queue, s.io.phase.update.0, s.io.phase.update.1);
      case SelectRead(frame, id, listens, delivered) =>
        SelectReadLeavesQueue(s, frame, id, listens, delivered);
      case Expire(_) =>
    }
  }

  // ---- Closed sides ----

  /** Once the loop has marked a writer dropped, its socket never sends again. */
  ghost predicate WritersClosed(s: State) {
    forall h :: h in s.pool && s.pool[h].flags.writerDropped && Known(s, h) ==> SendClosed(SharedOf(s, h).tcp.state)
  }

  /** What a step can do to the socket of a pooled stream: nothing but moves of the engine. */
  ghost predicate SocketMoves(s: State, s': State, h: Handle) {
    Known(s, h) && Known(s', h) ==>
      s.pool[h].id == s'.pool[h].id && Moves(SharedOf(s, h).tcp.state, SharedOf(s', h).tcp.state)
  }

  lemma ApplicationMoves(s: State, e: Event, h: Handle)
    requires Owned(s) && ByApplication(e) && Enabled(s, e) && Known(s, h)
    ensures Next(s, e).Running? && SocketMoves(s, Next(s, e).state, h)
  {
    hide Owned;
  }

  lemma HeadMoves(s: State, emission: Emission<Packet>, after: Socket, h: Handle)
    requires HeadEnabled(s, emission, after) && NextHead(s, emission, after).Running? && DispatchTarget(s.io) == Some(h)
    ensures SocketMoves(s, NextHead(s, emission, after).state, h)
  {
    hide NextHead, QueueAfterDispatch;
    HeadCases(s, emission, after);
    var f := s.pool[h].flags;
    DispatchLaw(SharedOf(s, h), f, after, emission);
    hide AfterDispatch, EndsAtDispatch;
  }

  lemma ProcessMoves(s: State, text: seq<u8>, reply: Option<Packet>, after: Socket)
    requires ProcessEnabled(s, text, reply, after) && NextProcess(s, text, reply, after).Running?
    ensures SocketMoves(s, NextProcess(s, text, reply, after).state, s.io.phase.h)
  {
    hide NextProcess, QueueAfterProcess, Acceptable;
    ProcessCases(s, text, reply, after);
    ProcessLaw(SharedOf(s, s.io.phase.h), s.pool[s.io.phase.h].flags, after);
    hide AfterProcess;
  }

  /** Handling a close message closes the socket if and only if the writer is marked afterwards. */
  lemma HandleCloseExactly(s: State, after: Socket)
    requires HandleCloseEnabled(s, after) && NextHandleClose(s, after).Running?
    ensures var s', m := NextHandleClose(s, after).state, s.io.phase.close;
            && Known(s, m.0) && Known(s', m.0) && s'.pool[m.0].id == s.pool[m.0].id
            && var c, c' := SharedOf(s, m.0), SharedOf(s', m.0);
            var closes := m.1 == Write || s.pool[m.0].flags.writerDropped;
            && s'.pool[m.0].flags.Dropped(m.1)
            && (s'.pool[m.0].flags.writerDropped <==> closes)
            && c' == c.(tcp := if closes then after else c.tcp)
            && (closes ==> c'.tcp.state == CloseState(c.tcp.state))
  {
    hide NextHandleClose, QueueAfterDropHalf;
    HandleCloseCases(s, after);
    var m := s.io.phase.close;
    DropHalfLaw(SharedOf(s, m.0), s.pool[m.0].flags, m.1, after);
    hide AfterDropHalf;
  }

  lemma SubjectMoves(s: State, e: Event, h: Handle)
    requires Owned(s) && Enabled(s, e) && Next(s, e).Running? && Known(s, h) && Subject(s, e) == Some(h)
    ensures SocketMoves(s, Next(s, e).state, h)
  {
    hide Owned, NextHead, NextProcess, NextHandleClose, NextHandleUpdate, NextSelectRead, RouteOf, QueueSend,
      ProcessContract, DispatchContract, CloseContract, Acceptable, Moves;
    MovesInPlace(SharedOf(s, h).tcp.state);
    if ByApplication(e) {
      ApplicationMoves(s, e, h);
    } else {
      match e
      case Head(emission, after) => HeadMoves(s, emission, after, h);
      case Process(text, reply, after) => ProcessMoves(s, text, reply, after);
      case HandleClose(after) => HandleCloseExactly(s, after);
      case HandleUpdate => HandleUpdateCases(s);
      case _ =>
    }
  }

  lemma MovesInPlace(state: TcpState)
    ensures Moves(state, state) && Moves(state, CloseState(state))
  {
  }

  lemma WritersClosedAt(s: State, e: Event, h: Handle)
    requires Owned(s) && LoopOk(s) && WritersClosed(s) && Enabled(s, e) && Next(s, e).Running?
    requires h in Next(s, e).state.pool && Next(s, e).state.pool[h].flags.writerDropped && Known(Next(s, e).state, h)
    ensures SendClosed(SharedOf(Next(s, e).state, h).tcp.state)
  {
    hide LoopOk, Enabled, Next, Subject, HalvesArePooled, TokensConserved, SocketsValid;
    PoolExactly(s, e, h);
    assert Known(s, h);
    if Subject(s, e) == Some(h) {
      SubjectMoves(s, e, h);
      if e.HandleClose? { HandleCloseSteps(s, e); }
    } else {
      StepsTouchTheirSubject(s, e, h);
      MarksItsSubject(s, e, h);
    }
  }

  lemma HandleCloseSteps(s: State, e: Event)
    requires Enabled(s, e) && e.HandleClose? && Next(s, e).Running?
    ensures HandleCloseEnabled(s, e.after) && Next(s, e) == NextHandleClose(s, e.after)
    ensures Subject(s, e) == Some(s.io.phase.close.0)
    ensures var s' := Next(s, e).state;
            Known(s', s.io.phase.close.0) && s'.pool[s.io.phase.close.0].flags.writerDropped ==>
              SendClosed(SharedOf(s', s.io.phase.close.0).tcp.state)
  {
    hide NextHandleClose;
    HandleCloseExactly(s, e.after);
  }

  lemma MarksItsSubject(s: State, e: Event, h: Handle)
    requires Enabled(s, e) && Subject(s, e) != Some(h)
    ensures !Marks(s, e, h, Write) && !Marks(s, e, h, Read)
  {
  }

  lemma WritersClosedPreserved(s: State, e: Event)
    requires Owned(s) && LoopOk(s) && WritersClosed(s) && Enabled(s, e) && Next(s, e).Running?
    ensures WritersClosed(Next(s, e).state)
  {
    hide Owned, LoopOk, Enabled, Next;
    forall h | h in Next(s, e).state.pool && Next(s, e).state.pool[h].flags.writerDropped && Known(Next(s, e).state, h)
      ensures SendClosed(SharedOf(Next(s, e).state, h).tcp.state)
    {
      WritersClosedAt(s, e, h);
    }
  }

  // ---- `polling_active` ----

  ghost predicate SamePolling(s: State, s': State, h: Handle) {
    Known(s, h) && Known(s', h) ==> SharedOf(s', h).pollingActive == SharedOf(s, h).pollingActive
  }

  lemma ApplicationKeepsPolling(s: State, e: Event, h: Handle)
    requires Owned(s) && ByApplication(e) && Enabled(s, e) && Known(s, h)
    ensures Next(s, e).Running? && SamePolling(s, Next(s, e).state, h)
  {
    hide Owned;
  }

  lemma DispatchSets(s: State, emission: Emission<Packet>, after: Socket, h: Handle)
    requires LoopOk(s) && HeadEnabled(s, emission, after) && NextHead(s, emission, after).Running?
    requires DispatchesNow(s, h) && Known(s, h) && Known(NextHead(s, emission, after).state, h)
    ensures SharedOf(NextHead(s, emission, after).state, h).pollingActive <==> after.txPoll == Now || after.ackPoll == Now
  {
    TargetInFields(s, h);
    hide LoopOk, NextHead, QueueAfterDispatch, DispatchContract, DispatchTarget;
    HeadCases(s, emission, after);
    DispatchLaw(SharedOf(s, h), s.pool[h].flags, after, emission);
    hide AfterDispatch, EndsAtDispatch;
  }

  lemma SubjectKeepsPolling(s: State, e: Event, h: Handle)
    requires Owned(s) && Enabled(s, e) && Next(s, e).Running? && Known(s, h) && Subject(s, e) == Some(h) && !e.Head?
    ensures SamePolling(s, Next(s, e).state, h)
  {
    hide Owned, NextHead, NextProcess, NextHandleClose, NextHandleUpdate, NextSelectRead, RouteOf, QueueSend,
      ProcessContract, DispatchContract, CloseContract, Acceptable, QueueAfterProcess;
    if ByApplication(e) {
      ApplicationKeepsPolling(s, e, h);
    } else {
      match e
      case Process(text, reply, after) =>
        ProcessCases(s, text, reply, after);
        ProcessLaw(SharedOf(s, h), s.pool[h].flags, after);
        hide AfterProcess;
      case HandleClose(after) => HandleCloseExactly(s, after);
      case HandleUpdate => HandleUpdateCases(s);
      case _ =>
    }
  }

  /** Only a dispatch changes `polling_active`: it is set exactly when the socket then wants to be dispatched now. */
  lemma PollingExactly(s: State, e: Event, h: Handle)
    requires Owned(s) && LoopOk(s) && Enabled(s, e) && Next(s, e).Running? && Known(s, h) && Known(Next(s, e).state, h)
    ensures var now := SharedOf(Next(s, e).state, h).pollingActive;
            if e.Head? && DispatchesNow(s, h) then now <==> e.after.txPoll == Now || e.after.ackPoll == Now
            else now == SharedOf(s, h).pollingActive
  {
    hide Owned, LoopOk, Enabled, Next, Subject, DispatchesNow;
    TargetInFields(s, h);
    if Subject(s, e) != Some(h) {
      StepsTouchTheirSubject(s, e, h);
      HeadIsForItsTarget(s, e);
    } else if e.Head? {
      HeadIsForItsTarget(s, e);
      DispatchSets(s, e.emission, e.after, h);
    } else {
      SubjectKeepsPolling(s, e, h);
    }
  }

  lemma HeadIsForItsTarget(s: State, e: Event)
    requires Enabled(s, e)
    ensures e.Head? ==>
              && Subject(s, e) == DispatchTarget(s.io) && HeadEnabled(s, e.emission, e.after)
              && Next(s, e) == NextHead(s, e.emission, e.after)
  {
    hide NextHead;
  }
}
