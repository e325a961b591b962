/** What the loop holds in its hands, on values, and why its head and its turns are the machine's steps. */
module LoopSpec {
  import opened Prelude
  import opened Addresses
  import opened Tcp
  import opened Acceptability
  import opened ConnectionSpec
  import opened System
  import opened Ownership
  import opened PoolSpec

  /** The picked handle, the idle writer's buffer or the buffer being written, and the reply stack. */
  datatype Hands = Hands(nextPoll: Option<Handle>, writing: Option<Buffer>, slotA: Option<Buffer>, replies: seq<Packet>) {
    predicate Ok() {
      && (writing.Some? <==> slotA.None?)
      && (writing.Some? ==> writing.value == [])
      && (slotA.Some? ==> slotA.value != [])
    }

    /** The handle that the head of the loop dispatches, if any. */
    function Target(): Option<Handle> {
      if writing == Some([]) && PopReplies(replies).0 == [] then nextPoll else None
    }
  }

  /** The hands after the head of the loop, when a dispatch leaves `filled` in the buffer. */
  function HandsAfterHead(x: Hands, filled: Buffer): Hands
    requires x.Ok()
  {
    if x.writing.None? then x
    else
      var popped := PopReplies(x.replies);
      var buf := if x.Target().Some? then filled else popped.0;
      var next := if x.Target().Some? then None else x.nextPoll;
      if buf == [] then Hands(next, Some([]), None, popped.1) else Hands(next, None, Some(buf), popped.1)
  }

  function HandsOf(io: Io): Hands {
    Hands(if io.nextPoll.Some? then Some(io.nextPoll.value.handle) else None, io.writing, io.slotA, io.replies)
  }

  /** The head of the loop as a step of the machine does to the hands and the pool what the value functions say. */
  lemma HeadRefines(s: State, emission: Emission<Packet>, after: Socket)
    requires Owned(s) && s.io.phase == AtHead && HandsOf(s.io).Ok() && NextHead(s, emission, after).Running?
    ensures HandsOf(s.io).Target() == DispatchTarget(s.io)
    ensures var s' := NextHead(s, emission, after).state;
            var target := DispatchTarget(s.io);
            && HandsOf(s'.io) == HandsAfterHead(HandsOf(s.io), FilledBy(emission))
            && (target.Some? ==> target.value in PoolOf(s).conns)
            && PoolOf(s') == if target.None? then PoolOf(s) else PoolDispatched(s.clock, PoolOf(s), target.value, after, emission)
  {
    hide Owned, DispatchConnection, PopReplies, PoolDispatched;
    var target := DispatchTarget(s.io);
    HeadCases(s, emission, after);
    if target.Some? && Known(s, target.value) {
      DispatchFrame(TakePoll(s), target.value, emission, after);
      SameTokensOwned(s, TakePoll(s));
      DispatchRefines(TakePoll(s), target.value, emission, after);
      SamePool(DispatchConnection(TakePoll(s), target.value, emission, after), NextHead(s, emission, after).state);
      SamePool(s, TakePoll(s));
    } else {
      SamePool(s, NextHead(s, emission, after).state);
    }
  }

  lemma SamePool(s: State, s': State)
    requires s'.streams == s.streams && s'.pool == s.pool && s'.queue == s.queue
    ensures PoolOf(s') == PoolOf(s)
  {
    assert forall h :: Known(s', h) <==> Known(s, h);
  }

  /** Taking a close message and, with nothing in between, handling it. */
  lemma CloseRefines(s: State, after: Socket)
    requires Owned(s) && s.io.phase.Waiting? && s.closes != []
    requires HandleCloseEnabled(NextSelectClose(s), after)
    ensures var m := s.closes[0];
            var r := NextHandleClose(NextSelectClose(s), after);
            && r.Running? && m.0 in PoolOf(s).conns
            && PoolOf(r.state) == PoolHalfDropped(s.clock, PoolOf(s), m.0, m.1, after)
            && HandsOf(r.state.io) == HandsOf(s.io) && r.state.closes == s.closes[1..]
            && r.state.io.slotC
  {
    hide Owned, AfterDropHalf, QueueAfterDropHalf, CloseContract, PoolHalfDropped;
    var m, s1 := s.closes[0], NextSelectClose(s);
    assert PendingCloses(s1) == PendingCloses(s);
    SameTokensOwned(s, s1);
    CloseMessageIsForPooledHandle(s1);
    DropHalfRefines(s1, m.0, m.1, after);
    SamePool(DropHalf(s1, m.0, m.1, after), NextHandleClose(s1, after).state);
    SamePool(s, s1);
  }

  /** Taking an update and, with nothing in between, handling it. */
  lemma UpdateRefines(s: State)
    requires s.updates != []
    ensures var m := s.updates[0];
            var r := NextHandleUpdate(NextSelectUpdate(s));
            && r.Running?
            && PoolOf(r.state) == Pool(PoolOf(s).conns, QueueSend(s.clock, PoolOf(s).queue, m.0, m.1))
            && HandsOf(r.state.io) == HandsOf(s.io) && r.state.updates == s.updates[1..] && r.state.io.slotD
  {
    assert forall h :: Known(NextHandleUpdate(NextSelectUpdate(s)).state, h) <==> Known(s, h);
  }

  lemma ExpireRefines(s: State, h: Handle)
    requires ExpireEnabled(s, h)
    ensures var s' := NextExpire(s, h);
            && h in PoolOf(s).queue && PoolOf(s).queue[h] <= s.now
            && PoolOf(s') == Pool(PoolOf(s).conns, PoolOf(s).queue - {h})
            && HandsOf(s'.io) == HandsOf(s.io).(nextPoll := Some(h))
  {
    assert forall k :: Known(NextExpire(s, h), k) <==> Known(s, k);
  }

  /** Handling a segment is processing it in the pool if it is acceptable, and a reply then goes on the stack. */
  lemma HandleRefines(s: State, text: seq<u8>, reply: Option<Packet>, after: Socket)
    requires Owned(s) && s.io.phase.Handling? && NextProcess(s, text, reply, after).Running?
    ensures var s' := NextProcess(s, text, reply, after).state;
            var h := s.io.phase.h;
            && h in PoolOf(s).conns
            && if CheckAcceptability(PoolOf(s).conns[h].shared.tcp, s.io.phase.seg).Err?
               then PoolOf(s') == PoolOf(s) && s'.io.replies == s.io.replies
               else
                 && PoolOf(s') == PoolProcessed(s.clock, PoolOf(s), h, after)
                 && s'.io.replies == s.io.replies + if reply.Some? then [reply.value] else []
  {
    hide Owned, ProcessConnection, PoolProcessed, CheckAcceptability;
    var s' := NextProcess(s, text, reply, after).state;
    var h := s.io.phase.h;
    ProcessCases(s, text, reply, after);
    ProcessFrame(s.(io := s.io.(slotB := true, phase := AtHead)), h, text, after);
    if Acceptable(s) {
      ProcessRefines(s, h, text, after);
      SamePool(ProcessConnection(s, h, text, after), s');
    } else {
      SamePool(s, s');
    }
  }

  /** Taking a frame from the device and, with nothing in between, handling it is what the pool's `process` does. */
  lemma ReceiveRefines(s: State, frame: Frame, id: Id, listens: bool, delivered: bool, text: seq<u8>, reply: Option<Packet>, after: Socket)
    requires Owned(s) && SelectReadEnabled(s, frame, id)
    ensures var s1 := NextSelectRead(s, frame, id, listens, delivered);
            var receipt := FrameReceived(s.clock, PoolOf(s), frame, listens, after);
            if !s1.io.phase.Handling? then receipt.Rejected? && receipt.pool == PoolOf(s1) == PoolOf(s)
            else
              var r := NextProcess(s1, text, reply, after);
              r.Running? ==>
                && receipt.pool == PoolOf(r.state)
                && r.state.io.replies == s.io.replies +
                   if receipt.Handled? && reply.Some? then [reply.value] else []
  {
    hide Owned, RouteOf, CreateStream, NextProcess, PoolOpened, PoolProcessed, CheckAcceptability, ProcessConnection;
    var s1 := NextSelectRead(s, frame, id, listens, delivered);
    var route := RouteOf(s.pool.Keys, frame);
    PoolKeys(s);
    SelectReadCases(s, frame, id, listens, delivered);
    SelectReadOwned(s, frame, id, listens, delivered);
    if route.New? && listens {
      CreateRefines(s, id, route.h, delivered);
      SamePool(CreateStream(s, id, route.h, delivered), s1);
    } else {
      SamePool(s, s1);
    }
    if s1.io.phase.Handling? {
      CreateFrame(s, id, route.h, delivered);
      if NextProcess(s1, text, reply, after).Running? {
        HandleRefines(s1, text, reply, after);
      }
    }
  }

  lemma PoolKeys(s: State)
    requires Owned(s)
    ensures PoolOf(s).conns.Keys == s.pool.Keys
  {
    hide TokensConserved, HalvesArePooled, SocketsValid;
  }
}
