/** The main results, for every state that some run of the program reaches. */
module Theorems {
  import opened Prelude
  import opened Addresses
  import opened Tcp
  import opened Time
  import opened Acceptability
  import opened ConnectionSpec
  import opened ConnectionLaws
  import opened System
  import opened Ownership
  import opened Scheduling
  import opened Wakeups
  import opened LoopDiscipline
  import opened StepLaws
  import opened Accounts
  import opened Histories
  import opened Agreement
  import opened SettledPicks
  import opened NonInterference
  import opened Runs
  import opened Deadlines
  import opened Progress
  import opened Losses
  import opened WriterWakeups
  import opened EndOfStream
  import opened Counterexamples

  /** A message that has not been handled yet asks for the handle to be dispatched. */
  ghost predicate HasPendingUpdate(s: State, h: Handle) {
    exists m :: m in PendingUpdates(s) && m.0 == h && m.1 != Ingress
  }

  lemma AnnouncedIsPending(s: State, h: Handle)
    ensures Scheduled(s, h) <==> Queued(s, h) || HasPendingUpdate(s, h)
  {
  }

  /** No stranded transmit work. */
  lemma NoStrandedTransmitWork(s: State, h: Handle)
    requires Reachable(s) && h in s.pool
    ensures Known(s, h)
    ensures SharedOf(s, h).tcp.txPoll != Ingress ==> Queued(s, h) || HasPendingUpdate(s, h)
  {
    hide Reachable, Owned, SleepersServed, LoopOk, StreamsOk, SettledOk, Announced, HasPendingUpdate;
    ReachableInv(s);
    AnnouncedIsPending(s, h);
    assert ScheduledAt(s, h);
  }

  /** `polling_active` is truthful, so skipping the notification when it is set is safe. */
  lemma PollingActiveIsTruthful(s: State, h: Handle)
    requires Reachable(s) && h in s.pool
    ensures Known(s, h) && (SharedOf(s, h).pollingActive ==> Queued(s, h))
  {
    hide Reachable, Owned, SleepersServed, LoopOk, StreamsOk, SettledOk;
    ReachableInv(s);
    assert ScheduledAt(s, h);
  }

  /** No leaked connection: one that both halves have left will be dispatched again. */
  lemma NoLeakedConnection(s: State, h: Handle)
    requires Reachable(s) && h in s.pool && s.pool[h].flags.Both()
    ensures Queued(s, h)
  {
    hide Reachable, Owned, SleepersServed, LoopOk, StreamsOk, SettledOk;
    ReachableInv(s);
    assert ScheduledAt(s, h);
  }

  /** A call that returned pending is still registered unless its half has been woken since, and a side that has been
      closed waits for nothing. */
  lemma WaitingIsRegistered(s: State, id: Id)
    requires Reachable(s) && id in s.streams
    ensures var st := s.streams[id];
            && (Waits(st.readCall, st.shared.reader) ==> st.shared.reader.slot == Some(Registration(st.readCall.value.len)))
            && (Waits(st.writeCall, st.shared.writer) ==> st.shared.writer.slot == Some(Registration(st.writeCall.value.len)))
            && (st.writerClosed ==> st.writeCall.None?)
  {
    hide Reachable, Owned, WorkScheduled, SleepersServed, LoopOk, SettledOk, WritersClosed;
    ReachableInv(s);
    assert StreamOk(s.streams[id]);
  }

  /** No lost reader wake-up: a reader whose last call returned pending and who has not been woken since is still
      registered; and if its buffer was not empty, there is nothing to receive and something may still come. */
  lemma NoLostReaderWakeup(s: State, id: Id)
    requires Reachable(s) && id in s.streams && s.streams[id].readerLive
    requires Waits(s.streams[id].readCall, s.streams[id].shared.reader)
    ensures var st := s.streams[id];
            var len, tcp := st.readCall.value.len, st.shared.tcp;
            && st.shared.reader.slot == Some(Registration(len))
            && (len > 0 ==> tcp.rx == [] && (Receiving(tcp.state) || tcp.state == SynReceived))
  {
    WaitingIsRegistered(s, id);
    hide Reachable, Owned, WorkScheduled, LoopOk, StreamsOk, SettledOk, WritersClosed;
    ReachableInv(s);
    LiveIsPooled(s, id);
    assert ServedAt(s, s.streams[id].handle);
  }

  /** No stranded writer: a writer whose last call returned pending and who has not been woken since is still
      registered and may send; and if there is room for what it wants to write, its handle is scheduled. */
  lemma NoStrandedWriter(s: State, id: Id)
    requires Reachable(s) && id in s.streams && s.streams[id].writerLive
    requires Waits(s.streams[id].writeCall, s.streams[id].shared.writer)
    ensures var st := s.streams[id];
            var len, tcp := st.writeCall.value.len, st.shared.tcp;
            && st.shared.writer.slot == Some(Registration(len)) && MaySendIn(tcp.state)
            && (len > 0 && |tcp.tx| < BUFFER_SIZE ==> Queued(s, st.handle) || HasPendingUpdate(s, st.handle))
  {
    WaitingIsRegistered(s, id);
    hide Reachable, Owned, WorkScheduled, LoopOk, StreamsOk, SettledOk, WritersClosed, Announced, HasPendingUpdate;
    ReachableInv(s);
    AnnouncedIsPending(s, s.streams[id].handle);
    LiveIsPooled(s, id);
    assert ServedAt(s, s.streams[id].handle);
  }

  /** The writer's last call returned pending, it has not been woken since, and there is room. */
  predicate WaitsWithRoom(st: Stream) {
    && st.writerLive && Waits(st.writeCall, st.shared.writer)
    && MaySendIn(st.shared.tcp.state) && |st.shared.tcp.tx| < BUFFER_SIZE
  }

  lemma WaitingIsAsleep(s: State, id: Id)
    requires Reachable(s) && id in s.streams && WaitsWithRoom(s.streams[id])
    ensures Asleep(s.streams[id])
  {
    WaitingIsRegistered(s, id);
  }

  /** The dispatch it is scheduled for wakes it: whatever the engine does in it, a writer that waits with room at hand
      is woken exactly once. */
  lemma DispatchWakesWriter(s: State, id: Id, emission: Emission<Packet>, after: Socket)
    requires Reachable(s) && id in s.streams && WaitsWithRoom(s.streams[id])
    requires HeadEnabled(s, emission, after) && DispatchTarget(s.io) == Some(s.streams[id].handle)
    ensures var r := NextHead(s, emission, after);
            && r.Running? && id in r.state.streams
            && Woken(s.streams[id].shared.writer, r.state.streams[id])
  {
    WaitingIsAsleep(s, id);
    hide Reachable, Owned, WorkScheduled, SleepersServed, LoopOk, StreamsOk, SettledOk, NextHead, DispatchContract, WaitsWithRoom;
    ReachableInv(s);
    LiveIsPooled(s, id);
    HeadLoopOk(s, emission, after);
    HeadWakes(s, s.streams[id].handle, emission, after);
  }

  /** Over any run without a step of that writer: it is woken at most once, and by the first dispatch of its handle at
      the latest; until then it sleeps and the room stays. */
  lemma WriterIsWokenOnce(s: State, id: Id, run: seq<Event>, t: State)
    requires Reachable(s) && id in s.streams && WaitsWithRoom(s.streams[id])
    requires WriterRests(run, id) && Exec(s, run) == Running(t)
    ensures id in t.streams
    ensures var st, st' := s.streams[id], t.streams[id];
            if DispatchedIn(s, run, st.handle) then Woken(st.shared.writer, st')
            else Woken(st.shared.writer, st') || (Asleep(st') && st'.shared.writer == st.shared.writer)
  {
    hide Reachable, Inv, Exec, DispatchedIn, Asleep, Woken, WaitsWithRoom;
    WaitingIsAsleep(s, id);
    ReachableInv(s);
    WriterSleepsUntilWoken(s, run, id);
  }

  /** And the loop can always get to that dispatch: from every reachable state in which a writer waits with room for
      what it wants to write, the loop and the clock alone can wake it, unless a handle without a connection has been
      picked. */
  lemma SleepingWriterCanBeWoken(s: State, id: Id) returns (run: seq<Event>, t: State)
    requires Reachable(s) && id in s.streams && WaitsWithRoom(s.streams[id])
    requires s.streams[id].writeCall.value.len > 0 && PickAllows(s, s.streams[id].handle)
    ensures LoopRun(run) && Exec(s, run) == Running(t) && id in t.streams
    ensures Woken(s.streams[id].shared.writer, t.streams[id])
  {
    var h := s.streams[id].handle;
    NoStrandedWriter(s, id);
    WaitingIsAsleep(s, id);
    AnnouncedIsPending(s, h);
    hide Reachable, Exec, Scheduled, Queued, HasPendingUpdate, Owned, LoopOk, Next, Enabled, Asleep, Woken, PickAllows,
      KeptStream, WorkScheduled, SleepersServed, StreamsOk, SettledOk, LoopRun, WriterRests, WaitsWithRoom;
    ReachableInv(s);
    WriterIsPooled(s, id);
    var drive, u := DispatchFollows(s, h);
    var e := DispatchIsNext(u, h);
    t := Next(u, e).state;
    ExecComposes(s, drive, [e]);
    ExecLast(u, e);
    LoopRunsCompose(drive, [e]);
    run := drive + [e];
    assert run[..|drive|] == drive;
    assert DispatchedAt(s, run, |drive|, h) && DispatchedIn(s, run, h);
    LoopRunRests(run, id);
    WriterIsWokenOnce(s, id, run, t);
  }

  lemma LoopRunRests(run: seq<Event>, id: Id)
    requires LoopRun(run)
    ensures WriterRests(run, id)
  {
  }

  lemma WriterIsPooled(s: State, id: Id)
    requires Owned(s) && id in s.streams && Asleep(s.streams[id])
    ensures Known(s, s.streams[id].handle)
  {
    hide Owned;
    LiveIsPooled(s, id);
  }

  lemma DispatchIsNext(s: State, h: Handle) returns (e: Event)
    requires Owned(s) && LoopOk(s) && AboutToDispatch(s, h) && Known(s, h)
    ensures Enabled(s, e) && Next(s, e).Running? && e.Head? && LoopRun([e])
  {
    hide Owned, LoopOk, DispatchContract, NextHead, DispatchConnection, PopReplies;
    PooledIsValid(s, h);
    var tcp := SharedOf(s, h).tcp;
    EngineMayRest(tcp, Segment(NO_ENDPOINT, NO_ENDPOINT, NoControl, false));
    e := Head(EmitFailed, tcp);
    HeadLoopOk(s, EmitFailed, tcp);
  }

  /** Every scheduled handle can be brought to its dispatch by the loop and the clock alone, if and only if no other
      handle has been picked that has no connection. */
  lemma ScheduledCanBeDispatched(s: State, h: Handle)
    requires Reachable(s) && Scheduled(s, h)
    ensures (exists run: seq<Event>, t: State :: LoopRun(run) && Exec(s, run) == Running(t) && AboutToDispatch(t, h))
            <==> PickAllows(s, h)
  {
    hide Reachable, Exec, Scheduled, Owned, LoopOk;
    ReachableInv(s);
    if PickAllows(s, h) {
      var run, t := DispatchFollows(s, h);
      assert LoopRun(run) && Exec(s, run) == Running(t) && AboutToDispatch(t, h);
    } else {
      forall run: seq<Event>, t: State | LoopRun(run) && Exec(s, run) == Running(t)
        ensures !AboutToDispatch(t, h)
      {
        StuckStays(s, run, s.io.nextPoll.value.handle);
      }
    }
  }

  /** A segment that leaves something to receive, or nothing ever to receive, wakes a waiting reader once; one after
      which nothing may be sent wakes a waiting writer. */
  lemma ProcessWakesSleepers(s: State, text: seq<u8>, reply: Option<Packet>, after: Socket)
    requires Reachable(s) && ProcessEnabled(s, text, reply, after) && Known(s, s.io.phase.h) && Acceptable(s)
    ensures var r := NextProcess(s, text, reply, after);
            var id := s.pool[s.io.phase.h].id;
            var st := s.streams[id];
            && r.Running? && id in r.state.streams
            && (st.readerLive && Waits(st.readCall, st.shared.reader) && (after.rx != [] || !Receiving(after.state)) ==>
                  r.state.streams[id].shared.reader == Waker(None, st.shared.reader.woken + 1))
            && (st.writerLive && Waits(st.writeCall, st.shared.writer) && !MaySendIn(after.state) ==>
                  r.state.streams[id].shared.writer == Waker(None, st.shared.writer.woken + 1))
  {
    WaitingIsRegistered(s, s.pool[s.io.phase.h].id);
    hide Reachable, Owned, WorkScheduled, SleepersServed, StreamsOk, SettledOk, WritersClosed, NextProcess, Acceptable,
      ProcessContract;
    ReachableInv(s);
    DroppedIsNotLive(s, s.io.phase.h, Read);
    DroppedIsNotLive(s, s.io.phase.h, Write);
    ProcessLaw(SharedOf(s, s.io.phase.h), s.pool[s.io.phase.h].flags, after);
    ProcessCases(s, text, reply, after);
    ProcessRuns(s, text, reply, after);
  }

  lemma ProcessRuns(s: State, text: seq<u8>, reply: Option<Packet>, after: Socket)
    requires LoopOk(s) && s.io.phase.Handling? && Known(s, s.io.phase.h)
    ensures NextProcess(s, text, reply, after).Running?
  {
    hide Acceptable, ProcessConnection;
  }

  /** Half-close token conservation; the pending messages are those in the channel, and between taking a message and
      handling it also the one in the loop's hands. */
  lemma HalfCloseTokenConservation(s: State, h: Handle, half: Half)
    requires Reachable(s)
    ensures |LiveHalves(s, h, half)| + multiset(PendingCloses(s))[(h, half)] +
            (if h in s.pool && s.pool[h].flags.Dropped(half) then 1 else 0)
            == if h in s.pool then 1 else 0
  {
    hide Reachable, Owned, WorkScheduled, SleepersServed, LoopOk, StreamsOk, SettledOk;
    ReachableInv(s);
    HalfCloseTokens(s, h, half);
  }

  /** Read-stream conservation: what was returned, what waits and what a TIME-WAIT reset discarded is what was
      accepted, in order, and nothing is discarded before the peer has finished. */
  lemma ReadStreamConservation(s: State, id: Id)
    requires Reachable(s) && id in s.streams
    ensures var st := s.streams[id];
            && st.accepted == st.delivered + st.shared.tcp.rx + st.lost
            && (st.lost != [] ==> st.shared.tcp.rx == [] && Finished(st.shared.tcp.state))
  {
    hide Reachable, Owned, WorkScheduled, SleepersServed, LoopOk, SettledOk;
    ReachableInv(s);
    assert StreamOk(s.streams[id]);
  }

  /** Write-stream conservation: what has been acknowledged, what waits in the transmit buffer and what a TIME-WAIT reset
      discarded is what was reported as written, in order, and nothing is discarded before the connection is over. */
  lemma WriteStreamConservation(s: State, id: Id)
    requires Reachable(s) && id in s.streams
    ensures var st := s.streams[id];
            && st.written == st.acked + st.shared.tcp.tx + st.unsent
            && (st.unsent != [] ==> st.shared.tcp.tx == [] && st.shared.tcp.state == Closed)
  {
    hide Reachable, Owned, WorkScheduled, SleepersServed, LoopOk, SettledOk, WritersClosed;
    ReachableInv(s);
    assert StreamOk(s.streams[id]);
  }

  /** A side that has been closed stays closed: its socket is never in a state again in which something may be sent,
      whether the writer closed it or was dropped and the loop has heard of it. */
  lemma ClosedStaysClosed(s: State, id: Id)
    requires Reachable(s) && id in s.streams
    ensures var st := s.streams[id];
            var marked := Known(s, st.handle) && s.pool[st.handle].id == id && s.pool[st.handle].flags.writerDropped;
            st.writerClosed || marked ==> SendClosed(st.shared.tcp.state) && !MaySendIn(st.shared.tcp.state)
  {
    hide Reachable, Owned, WorkScheduled, SleepersServed, LoopOk, SettledOk;
    ReachableInv(s);
    assert StreamOk(s.streams[id]);
  }

  /** Which bytes are lost: in every run of the program everything accepted has been returned or waits, if and only if
      no step of the run was a dispatch in which the engine ended TIME-WAIT over unread bytes. */
  lemma LossesExactly(start: nat, run: seq<Event>, s: State, id: Id)
    requires Exec(Init(start), run) == Running(s) && id in s.streams
    ensures s.streams[id].accepted == s.streams[id].delivered + s.streams[id].shared.tcp.rx
            <==> !exists i: nat :: DiscardsAt(Init(start), run, i, id)
  {
    hide Exec, DiscardsAt;
    assert Reachable(s);
    ReadStreamConservation(s, id);
    LostOverRun(start, run, id);
    var st := s.streams[id];
    var kept := st.delivered + st.shared.tcp.rx;
    assert kept == kept + st.lost <==> st.lost == [] by {
      assert |kept + st.lost| == |kept| + |st.lost|;
    }
  }

  /** So a read that returns end of stream means that everything accepted has been returned, if and only if no step of
      the run so far was such a dispatch. */
  lemma EndOfStreamMeansDelivered(start: nat, run: seq<Event>, s: State, id: Id, len: nat, taken: nat, after: Socket)
    requires Exec(Init(start), run) == Running(s) && ReadEnabled(s, id, len, taken, after)
    requires PollRead(s.streams[id].shared, s.streams[id].eofReached, len, taken, after).result == EndOfStream
    ensures s.streams[id].delivered == s.streams[id].accepted
            <==> !exists i: nat :: DiscardsAt(Init(start), run, i, id)
  {
    LossesExactly(start, run, s, id);
    var st := s.streams[id];
    assert st.delivered + st.shared.tcp.rx == st.delivered;
  }

  /** A step loses bytes of a stream if and only if it is such a dispatch, and then all that are unread. */
  lemma StepLosesExactly(s: State, e: Event, id: Id)
    requires Enabled(s, e) && Next(s, e).Running? && id in s.streams
    ensures id in Next(s, e).state.streams
    ensures Next(s, e).state.streams[id].lost != s.streams[id].lost <==> Discards(s, e, id)
    ensures Discards(s, e, id) ==>
              Next(s, e).state.streams[id].lost == s.streams[id].lost + s.streams[id].shared.tcp.rx
  {
    hide Next, Enabled, Discards;
    LostExactly(s, e, id);
  }

  /** Wherever there is something to lose it can be lost: from every reachable state with unread bytes in TIME-WAIT the
      loop and the clock alone can bring about their loss, if and only if no other handle has been picked that has no
      connection. */
  lemma UnreadBytesCanBeLost(s: State, id: Id)
    requires Reachable(s) && AtRisk(s, id)
    ensures (exists run: seq<Event>, t: State :: LosingRun(s, run, t, id)) <==> PickAllows(s, s.streams[id].handle)
  {
    hide Reachable, Exec, Owned, LoopOk, WorkScheduled;
    ReachableInv(s);
    if PickAllows(s, s.streams[id].handle) {
      var run, t := UnreadBytesAreLost(s, id);
    } else {
      forall run: seq<Event>, t: State
        ensures !LosingRun(s, run, t, id)
      {
        if LosingRun(s, run, t, id) {
          StuckLosesNothing(s, run, s.io.nextPoll.value.handle, id);
        }
      }
    }
  }

  /** If it is reported once a SYN has been matched, it is final: no read in any continuation of the run
      returns bytes. */
  lemma EndOfStreamIsFinal(s: State, id: Id, len: nat, taken: nat, after: Socket, run: seq<Event>, t: State)
    requires Reachable(s) && ReadEnabled(s, id, len, taken, after)
    requires PollRead(s.streams[id].shared, s.streams[id].eofReached, len, taken, after).result == EndOfStream
    requires !Unsynchronized(s.streams[id].shared.tcp.state)
    requires Exec(NextRead(s, id, len, taken, after), run) == Running(t)
    ensures id in t.streams && t.streams[id].delivered == s.streams[id].delivered
    ensures !t.streams[id].shared.tcp.CanRecv()
  {
    var s' := NextRead(s, id, len, taken, after);
    assert Ended(s'.streams[id]) && s'.streams[id].delivered == s.streams[id].delivered by {
      assert s.streams[id].delivered + [] == s.streams[id].delivered;
    }
    hide Reachable, Owned, WorkScheduled, SleepersServed, LoopOk, StreamsOk, SettledOk, ReadEnabled, Next, Exec, NextRead, PollRead;
    ReachableInv(s);
    assert Inv(s') by {
      var e := ReadStream(id, len, taken, after);
      assert Enabled(s, e);
      NextOfRead(s, id, len, taken, after);
      StepInv(s, e);
    }
    RunInv(s', run);
    assert StaysEnded(s'.streams[id], t.streams[id]);
  }

  lemma NextOfRead(s: State, id: Id, len: nat, taken: nat, after: Socket)
    requires ReadEnabled(s, id, len, taken, after)
    ensures Next(s, ReadStream(id, len, taken, after)) == Running(NextRead(s, id, len, taken, after))
  {
  }

  /** The run leads to a state in which the stream's reader has been given more bytes. */
  ghost predicate ReturnsMore(s: State, run: seq<Event>, t: State, id: Id) {
    && Exec(s, run) == Running(t) && id in s.streams && id in t.streams
    && t.streams[id].delivered != s.streams[id].delivered
  }

  /** Exactly when it is final: where a read reports end of stream, some continuation of the run returns more bytes, if
      and only if no SYN has been matched, the loop is not about to close the socket for its writer, and it is not about
      to panic. */
  lemma EndOfStreamIsFinalExactly(s: State, id: Id)
    requires Reachable(s) && id in s.streams && s.streams[id].readerLive
    requires !s.streams[id].shared.tcp.MayRecv() && s.streams[id].shared.tcp.state != SynReceived
    ensures (exists run: seq<Event>, t: State :: ReturnsMore(s, run, t, id))
            <==> && Unsynchronized(s.streams[id].shared.tcp.state)
                 && !ClosesNext(s, s.streams[id].handle) && !PanicsNext(s)
  {
    hide Reachable, Exec, Inv, PanicsNext, Hopeless;
    ReachableInv(s);
    var h := s.streams[id].handle;
    if Unsynchronized(s.streams[id].shared.tcp.state) && !ClosesNext(s, h) && !PanicsNext(s) {
      var t := UnsynchronizedCanReceive(s, id);
      var run: seq<Event> :| Exec(s, run) == Running(t);
      assert |t.streams[id].delivered| == |s.streams[id].delivered| + 1;
      assert ReturnsMore(s, run, t, id);
    } else {
      ReportedIsHopeless(s, id);
      forall run: seq<Event>, t: State | Exec(s, run) == Running(t)
        ensures id in t.streams && t.streams[id].delivered == s.streams[id].delivered
      {
        HopelessRun(s, run, id);
      }
    }
  }

  /** Loop ownership: each of the slots b, c and d is empty exactly while the loop handles what it took out of it, so at
      the head of the loop they are full; and the writer is either in slot a with a packet or in `writing` with an
      empty buffer. */
  lemma LoopOwnership(s: State)
    requires Reachable(s)
    ensures s.io.slotB <==> !s.io.phase.Handling?
    ensures s.io.slotC <==> !s.io.phase.HandlingClose?
    ensures s.io.slotD <==> !s.io.phase.HandlingUpdate?
    ensures (s.io.writing == Some([]) && s.io.slotA.None?) || (s.io.writing.None? && s.io.slotA.Some? && s.io.slotA.value != [])
  {
    hide Reachable, Owned, WorkScheduled, SleepersServed, StreamsOk, SettledOk;
    ReachableInv(s);
  }

  /** Which handles are in the pool: a step adds one exactly when it opens a connection for a plain SYN, and removes one
      exactly when it is a dispatch of it with both halves marked dropped in which the remote is not specified, nothing
      was sent, or nothing is left to wait for. The flags of those that stay change only by a close message. */
  lemma PoolChangesExactly(s: State, e: Event, h: Handle)
    requires Reachable(s) && Enabled(s, e) && Next(s, e).Running?
    ensures var s' := Next(s, e).state;
            && (h in s'.pool <==> Opens(s, e, h) || (h in s.pool && !Removes(s, e, h)))
            && (Opens(s, e, h) ==> s'.pool[h] == Entry(e.id, Flags(false, false)))
            && (h in s.pool && h in s'.pool ==> s'.pool[h] == Marked(s, e, h))
  {
    hide Reachable, Inv, Next, Enabled, LoopOk, Opens, Removes;
    ReachableInv(s);
    InvParts(s);
    PoolExactly(s, e, h);
  }

  /** So no connection is given up with work to do: a dispatch that sends something, or fails, and leaves a specified
      remote and something to transmit keeps its handle pooled and queues it for when the engine wants it. */
  lemma DispatchKeepsWork(s: State, h: Handle, emission: Emission<Packet>, after: Socket)
    requires Reachable(s) && HeadEnabled(s, emission, after) && DispatchesNow(s, h) && h in s.pool
    requires !emission.NothingToSend? && !after.remote.addr.IsUnspecified() && after.remote.port != 0
    requires after.txPoll != Ingress
    ensures var r := NextHead(s, emission, after);
            && r.Running? && h in r.state.pool && h in r.state.queue
            && r.state.pool[h] == s.pool[h] && Some(r.state.queue[h]) == Instant(s.clock, First(after))
  {
    hide Reachable, Inv, Owned, LoopOk, NextHead, DispatchContract, DispatchesNow, DispatchTarget;
    ReachableInv(s);
    InvParts(s);
    PooledIsValid(s, h);
    TargetInFields(s, h);
    HeadLoopOk(s, emission, after);
    HeadChangesPool(s, emission, after, h);
    HeadChangesQueue(s, emission, after, h);
    FirstIsFirst(after);
  }

  /** Which deadline a handle has: a step takes it off the queue exactly when it picks it or removes its connection, sets
      it to what it asked for on its behalf, and otherwise leaves it alone. */
  lemma DeadlineChangesExactly(s: State, e: Event, k: Handle)
    requires Reachable(s) && Enabled(s, e) && Next(s, e).Running?
    ensures var q, q' := s.queue, Next(s, e).state.queue;
            if TakesOff(s, e, k) then k !in q'
            else if AskedBy(s, e, k).Some? then k in q' && q'[k] == AskedBy(s, e, k).value
            else (k in q' <==> k in q) && (k in q ==> q'[k] == q[k])
  {
    hide Reachable, Inv, Next, Enabled, LoopOk, AskedBy, TakesOff;
    ReachableInv(s);
    InvParts(s);
    DeadlineExactly(s, e, k);
  }

  /** The deadline of a picked handle is the last that was asked for when it was picked. */
  lemma PickedWasAskedFor(start: nat, run: seq<Event>, s: State)
    requires Exec(Init(start), run) == Running(s) && s.io.nextPoll.Some?
    ensures exists j: nat, i: nat ::
              PickedAt(Init(start), run, j, i, s.io.nextPoll.value.handle, s.io.nextPoll.value.deadline)
  {
    hide Exec, PickedAt;
    var j, i := PickHoldsLastAsked(start, run);
  }

  /** And every pending update carries what the socket of a writer wanted when it wrote or closed. */
  lemma UpdatesWereAskedFor(start: nat, run: seq<Event>, s: State, m: PollUpdate)
    requires Exec(Init(start), run) == Running(s) && m in PendingUpdates(s)
    ensures exists i: nat :: SentAt(Init(start), run, i, m)
  {
    hide Exec, SentAt, PendingUpdates;
    var i := UpdatesWereSent(start, run, m);
  }

  /** `polling_active` is changed by a dispatch alone, which sets it exactly when the socket wants to be dispatched now. */
  lemma PollingChangesExactly(s: State, e: Event, h: Handle)
    requires Reachable(s) && Enabled(s, e) && Next(s, e).Running? && Known(s, h) && Known(Next(s, e).state, h)
    ensures var now := SharedOf(Next(s, e).state, h).pollingActive;
            if e.Head? && DispatchesNow(s, h) then now <==> e.after.txPoll == Now || e.after.ackPoll == Now
            else now == SharedOf(s, h).pollingActive
  {
    hide Reachable, Inv, Next, Enabled, Owned, LoopOk, DispatchesNow;
    ReachableInv(s);
    InvParts(s);
    PollingExactly(s, e, h);
  }

  /** Work conservation: whenever the loop waits with an idle writer, nothing is waiting to be written. */
  lemma LoopIsWorkConserving(s: State)
    requires Reachable(s) && s.io.phase.Waiting? && s.io.writing.Some?
    ensures s.io.replies == [] && s.io.nextPoll.None?
  {
    hide Reachable, Owned, WorkScheduled, SleepersServed, StreamsOk, SettledOk;
    ReachableInv(s);
  }

  /** Packet conservation: what was produced has been written, is being written, or waits on the reply stack. */
  lemma PacketConservation(s: State)
    requires Reachable(s)
    ensures s.log.produced == s.log.written + multiset(InSlot(s.io)) + multiset(s.io.replies)
  {
    hide Reachable, Owned, WorkScheduled, SleepersServed, StreamsOk, SettledOk;
    ReachableInv(s);
  }

  /** Messages handled are a prefix of messages sent, and the rest is pending, in order: at most one in the loop's
      hands, then the channel. */
  lemma MessageConservation(s: State)
    requires Reachable(s)
    ensures s.log.closesHandled <= s.log.closesSent && s.log.updatesHandled <= s.log.updatesSent
    ensures PendingCloses(s) == s.log.closesSent[|s.log.closesHandled|..]
    ensures PendingUpdates(s) == s.log.updatesSent[|s.log.updatesHandled|..]
  {
    hide Reachable, Owned, WorkScheduled, SleepersServed, StreamsOk, SettledOk;
    ReachableInv(s);
  }

  /** Demultiplexing agrees with the endpoint checks: a routed segment is rejected by its state alone. */
  lemma Demultiplexing(s: State, h: Handle, seg: Segment)
    requires Reachable(s) && h in s.pool && seg.WellFormed() && PairOf(seg.src, seg.dst) == Ok(h)
    ensures Known(s, h)
    ensures var tcp := SharedOf(s, h).tcp;
            CheckAcceptability(tcp, seg).Err? <==> tcp.state == Closed || (tcp.state == Listen && seg.hasAck)
  {
    hide Reachable, WorkScheduled, SleepersServed, LoopOk, SettledOk, TokensConserved, HalvesArePooled, SocketsValid,
      CheckAcceptability, PairOf;
    ReachableInv(s);
    assert StreamOk(s.streams[s.pool[h].id]);
    RoutedSegmentsPassEndpointChecks(SharedOf(s, h).tcp, h, seg);
  }

  /** Non-interference: a pooled connection that a step is not about is exactly as it was. */
  lemma StepsDoNotInterfere(s: State, e: Event, k: Handle)
    requires Reachable(s) && Enabled(s, e) && Next(s, e).Running?
    requires k in s.pool && Subject(s, e) != Some(k)
    ensures Same(s, Next(s, e).state, k)
  {
    hide Reachable, Owned, WorkScheduled, SleepersServed, LoopOk, StreamsOk, SettledOk, Next, Enabled, Subject, Same;
    ReachableInv(s);
    StepsTouchTheirSubject(s, e, k);
  }

  /** A dispatch caused by a timer set to `millis` runs with a timestamp that has reached it. */
  lemma DispatchIsNotEarly(s: State, millis: i64)
    requires Reachable(s) && s.io.nextPoll.Some? && s.io.nextPoll.value.deadline == s.clock.Resolve(millis)
    requires 0 <= millis && s.now - s.clock.start < I64_LIMIT * NANOS_PER_MILLI
    ensures s.clock.start <= s.now && millis <= s.clock.Timestamp(s.now)
  {
    hide Reachable, Owned, WorkScheduled, SleepersServed, StreamsOk, SettledOk;
    ReachableInv(s);
    TimerFidelity(s.clock, s.now, millis);
  }

  /** While the loop runs, the only panic a step can raise is the dispatch of a handle that is no longer in the pool. */
  lemma OnlyDispatchCanPanic(s: State, e: Event)
    requires Reachable(s) && Enabled(s, e) && !Next(s, e).Running?
    ensures Next(s, e) == Panicked(DispatchAfterDrop)
    ensures e.Head? && s.io.nextPoll.Some? && s.io.nextPoll.value.handle !in s.pool
  {
    hide Reachable, WorkScheduled, SleepersServed, StreamsOk, SettledOk, Next, Enabled, TokensConserved, HalvesArePooled,
      SocketsValid;
    ReachableInv(s);
    LoopOkPreserved(s, e);
  }

  /** A run panics only after a step that removes a connection under a pending update. */
  lemma PanicNeedsStaleRemoval(start: nat, run: seq<Event>)
    requires Exec(Init(start), run).Panicked?
    ensures exists i: nat :: StaleAt(Init(start), run, i)
  {
    hide Exec, StaleAt, Inv, Agrees;
    InitInv(start);
    if forall i: nat :: !StaleAt(Init(start), run, i) {
      RunsWithoutStaleRemoval(Init(start), run);
    }
  }

  /** And after such a step the loop can always be driven into the panic. */
  lemma StaleRemovalLeadsToPanic(s: State, e: Event) returns (run: seq<Event>)
    requires Reachable(s) && Enabled(s, e) && StaleRemoval(s, e)
    ensures Exec(s, run) == Panicked(DispatchAfterDrop)
  {
    hide Reachable, WorkScheduled, SleepersServed, StreamsOk, SettledOk, TokensConserved, HalvesArePooled, SocketsValid;
    ReachableInv(s);
    var h := DispatchTarget(s.io).value;
    var s' := RemovalDooms(s, h, e.emission, e.after);
    var rest := PanicFollows(s', h);
    ExecStep(s, e, rest);
    run := [e] + rest;
  }

  lemma RemovalDooms(s: State, h: Handle, emission: Emission<Packet>, after: Socket) returns (s': State)
    requires Owned(s) && LoopOk(s) && HeadEnabled(s, emission, after) && DispatchTarget(s.io) == Some(h) && h in s.pool
    requires EndsAtDispatch(s.pool[h].flags, after, emission) && h in Announced(PendingUpdates(s))
    ensures NextHead(s, emission, after) == Running(s') && Doomed(s', h)
  {
    hide Owned, LoopOk, NextHead, EndsAtDispatch, AfterDispatch, DispatchContract, Announced;
    PooledIsValid(s, h);
    HeadLoopOk(s, emission, after);
    HeadOwned(s, emission, after);
    HeadCases(s, emission, after);
    s' := NextHead(s, emission, after).state;
  }

  /** A reachable state agrees, and then no step from it panics, or it can be driven into the panic. */
  lemma AgreementDecides(s: State) returns (run: seq<Event>)
    requires Reachable(s)
    ensures Agrees(s) ==> forall e: Event :: Enabled(s, e) ==> Next(s, e).Running?
    ensures !Agrees(s) ==> Exec(s, run) == Panicked(DispatchAfterDrop)
  {
    hide Reachable, Owned, WorkScheduled, SleepersServed, LoopOk, StreamsOk, SettledOk, Next, Enabled, Exec, Scheduled;
    ReachableInv(s);
    run := [];
    if Agrees(s) {
      forall e: Event | Enabled(s, e)
        ensures Next(s, e).Running?
      {
        AgreementExact(s, e);
      }
    } else {
      var h :| Scheduled(s, h) && h !in s.pool;
      run := PanicFollows(s, h);
    }
  }

  /** The removal of a handle that was picked after both halves were marked dropped is never such a step. */
  lemma SettledRemovalIsSafe(s: State, e: Event)
    requires Reachable(s) && s.io.nextPoll.Some? && s.io.nextPoll.value.settled
    ensures !StaleRemoval(s, e)
  {
    hide Reachable, Owned, WorkScheduled, SleepersServed, LoopOk, StreamsOk, SettledOk;
    ReachableInv(s);
    SettledRemovalIsNotStale(s, e);
  }

  /** The `expect` in the dispatch does fail: this is a run of the program that ends there. */
  lemma DispatchCanPanic()
    ensures exists start: nat, run: seq<Event> :: Exec(Init(start), run) == Panicked(DispatchAfterDrop)
  {
    var s := StaleRemovalHappens();
    hide Exec, Enabled, StaleRemoval, Next;
    var rest := StaleRemovalLeadsToPanic(s, Head(NothingToSend, CLOSED));
    var start: nat, run: seq<Event> :| Exec(Init(start), run) == Running(s);
    ExecComposes(Init(start), run, rest);
    assert Exec(Init(start), run + rest) == Panicked(DispatchAfterDrop);
  }
}
