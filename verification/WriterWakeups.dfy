/** A writer that sleeps although there is room is woken by the next dispatch of its handle at the latest, and
    never twice. */
module WriterWakeups {
  import opened Prelude
  import opened Addresses
  import opened Tcp
  import opened ConnectionSpec
  import opened System
  import opened Ownership
  import opened Scheduling
  import opened Wakeups
  import opened LoopDiscipline
  import opened NonInterference
  import opened Runs
  import opened Progress

  predicate ByWriter(e: Event, id: Id) {
    (e.WriteStream? || e.CloseStream? || e.DropWriter?) && e.id == id
  }

  predicate WriterRests(run: seq<Event>, id: Id) {
    forall i :: 0 <= i < |run| ==> !ByWriter(run[i], id)
  }

  /** The writer sleeps with room at hand. */
  predicate Asleep(st: Stream) {
    st.writerLive && st.shared.writer.slot.Some? && st.shared.tcp.CanSend()
  }

  /** The writer has been woken since `w` was its waker, once. */
  predicate Woken(w: Waker, st: Stream) {
    st.writerLive && st.shared.writer == Waker(None, w.woken + 1)
  }

  /** From a sleeping writer to a sleeping or a woken one, and from a waking one to the same. */
  predicate WakesOnce(st: Stream, st': Stream) {
    && st'.handle == st.handle && st'.writerLive == st.writerLive
    && (st.writerLive && st.shared.writer.slot.None? ==> st'.shared.writer == st.shared.writer)
    && (Asleep(st) ==> (Asleep(st') && st'.shared.writer == st.shared.writer) || Woken(st.shared.writer, st'))
  }

  /** Room does not go away except together with the right to send. */
  lemma DispatchKeepsRoom(tcp: Socket, after: Socket)
    requires DispatchContract(tcp, after) && tcp.CanSend()
    ensures after.CanSend() || !after.MaySend()
  {
  }

  lemma DispatchWakes(s: State, h: Handle, emission: Emission<Packet>, after: Socket)
    requires Owned(s) && Known(s, h) && DispatchContract(SharedOf(s, h).tcp, after)
    ensures var st := s.streams[s.pool[h].id];
            var s' := DispatchConnection(s, h, emission, after);
            && s.pool[h].id in s'.streams
            && var st' := s'.streams[s.pool[h].id];
            && (Asleep(st) ==> Woken(st.shared.writer, st'))
            && WakesOnce(st, st')
  {
    hide Owned, QueueAfterDispatch, DispatchContract;
    DroppedIsNotLive(s, h, Write);
    if SharedOf(s, h).tcp.CanSend() {
      DispatchKeepsRoom(SharedOf(s, h).tcp, after);
    }
  }

  lemma ProcessWakes(s: State, h: Handle, seg: Segment, text: seq<u8>, after: Socket)
    requires Owned(s) && Known(s, h) && ProcessContract(SharedOf(s, h).tcp, seg, text, after)
    ensures s.pool[h].id in ProcessConnection(s, h, text, after).streams
    ensures WakesOnce(s.streams[s.pool[h].id], ProcessConnection(s, h, text, after).streams[s.pool[h].id])
  {
    hide Owned, QueueAfterProcess;
    DroppedIsNotLive(s, h, Write);
  }

  lemma ReaderDropWakesNobody(s: State, h: Handle, half: Half, after: Socket)
    requires Owned(s) && Known(s, h) && (h, half) in PendingCloses(s)
    ensures s.pool[h].id in DropHalf(s, h, half, after).streams
    ensures WakesOnce(s.streams[s.pool[h].id], DropHalf(s, h, half, after).streams[s.pool[h].id])
  {
    hide Owned, QueueAfterDropHalf;
    DroppedIsNotLive(s, h, Write);
  }

  lemma ReadWakesNobody(s: State, id: Id, len: nat, taken: nat, after: Socket)
    requires ReadEnabled(s, id, len, taken, after)
    ensures WakesOnce(s.streams[id], NextRead(s, id, len, taken, after).streams[id])
  {
  }

  lemma StreamStays(st: Stream)
    ensures WakesOnce(st, st)
  {
  }

  ghost predicate Dispatches(s: State, e: Event, h: Handle) {
    e.Head? && DispatchTarget(s.io) == Some(h)
  }

  lemma HeadWakes(s: State, h: Handle, emission: Emission<Packet>, after: Socket)
    requires Owned(s) && HeadEnabled(s, emission, after) && NextHead(s, emission, after).Running?
    requires DispatchTarget(s.io) == Some(h)
    ensures Known(s, h) && s.pool[h].id in NextHead(s, emission, after).state.streams
    ensures var st, st' := s.streams[s.pool[h].id], NextHead(s, emission, after).state.streams[s.pool[h].id];
            (Asleep(st) ==> Woken(st.shared.writer, st')) && WakesOnce(st, st')
  {
    hide Owned, NextHead, DispatchConnection, DispatchContract, Asleep, Woken, WakesOnce;
    HeadCases(s, emission, after);
    SameTokensOwned(s, TakePoll(s));
    DispatchWakes(TakePoll(s), h, emission, after);
  }

  /** Any step but the writer's own. */
  lemma StepWakes(s: State, e: Event, id: Id)
    requires Owned(s) && Enabled(s, e) && Next(s, e).Running? && id in s.streams && s.streams[id].writerLive
    requires !ByWriter(e, id)
    ensures id in Next(s, e).state.streams
    ensures var st, st' := s.streams[id], Next(s, e).state.streams[id];
            && WakesOnce(st, st')
            && (Asleep(st) && Dispatches(s, e, st.handle) ==> Woken(st.shared.writer, st'))
  {
    hide Owned, NextHead, NextProcess, NextHandleClose, NextHandleUpdate, NextSelectRead, ProcessConnection, DropHalf,
      Acceptable, ProcessContract, DispatchContract, CloseContract, QueueSend, PollRead, PollWrite, PollClose, RouteOf,
      Asleep, Woken, WakesOnce;
    var h, s' := s.streams[id].handle, Next(s, e).state;
    LiveIsPooled(s, id);
    StreamStays(s.streams[id]);
    if Subject(s, e) != Some(h) {
      StepsTouchTheirSubject(s, e, h);
    } else {
      match e
      case ReadStream(_, len, taken, after) =>
        SubjectIsOwnStream(s, e.id, id);
        ReadWakesNobody(s, id, len, taken, after);
      case DropReader(_) => SubjectIsOwnStream(s, e.id, id); DropWakesNobody(s.streams[id]);
      case WriteStream(_, _, _) => SubjectIsOwnStream(s, e.id, id);
      case CloseStream(_, _) => SubjectIsOwnStream(s, e.id, id);
      case DropWriter(_) => SubjectIsOwnStream(s, e.id, id);
      case Head(emission, after) => HeadWakes(s, h, emission, after);
      case Process(text, reply, after) =>
        ProcessCases(s, text, reply, after);
        if Acceptable(s) { ProcessWakes(s, h, s.io.phase.seg, text, after); }
      case HandleClose(after) =>
        HandleCloseCases(s, after);
        ReaderDropWakesNobody(s, h, s.io.phase.close.1, after);
      case HandleUpdate => HandleUpdateCases(s);
      case _ =>
    }
  }

  lemma DropWakesNobody(st: Stream)
    ensures WakesOnce(st, st.(readerLive := false))
  {
  }

  lemma SubjectIsOwnStream(s: State, k: Id, id: Id)
    requires Owned(s) && k in s.streams && id in s.streams && s.streams[k].handle == s.streams[id].handle
    requires s.streams[k].readerLive || s.streams[k].writerLive
    requires s.streams[id].readerLive || s.streams[id].writerLive
    ensures k == id
  {
    hide TokensConserved, PoolIsSound, SocketsValid;
  }

  lemma WakingIsLive(st: Stream, st': Stream)
    ensures Woken(st.shared.writer, st') || Asleep(st') ==> st'.writerLive
  {
  }

  /** What is said of the steps so far and of the next one, together. */
  lemma WakesChain(st: Stream, t: Stream, u: Stream)
    requires t.handle == st.handle && WakesOnce(t, u)
    ensures u.handle == st.handle
    ensures Woken(st.shared.writer, t) ==> Woken(st.shared.writer, u)
    ensures Asleep(t) && t.shared.writer == st.shared.writer ==>
              Woken(st.shared.writer, u) || (Asleep(u) && u.shared.writer == st.shared.writer)
  {
  }

  lemma NothingDispatched(s: State, h: Handle)
    ensures !DispatchedIn(s, [], h)
  {
  }

  /** A run dispatches the handle if all but its last step do, or its last step does. */
  lemma DispatchedByLast(s: State, run: seq<Event>, h: Handle)
    requires run != [] && Exec(s, run[..|run| - 1]).Running?
    ensures DispatchedIn(s, run, h) <==>
              DispatchedIn(s, run[..|run| - 1], h) || Dispatches(Exec(s, run[..|run| - 1]).state, run[|run| - 1], h)
  {
    hide Exec, DispatchTarget;
    var n := |run| - 1;
    var before := run[..n];
    assert forall i: nat :: i < n ==> before[..i] == run[..i];
    assert forall i: nat :: i < n ==> (DispatchedAt(s, before, i, h) <==> DispatchedAt(s, run, i, h));
    assert DispatchedAt(s, run, n, h) <==> Dispatches(Exec(s, before).state, run[n], h);
  }

  /** In every run without a step of the writer it stays asleep until it is woken, exactly once, and a dispatch of
      its handle always wakes it. */
  lemma {:induction false} WriterSleepsUntilWoken(s: State, run: seq<Event>, id: Id)
    requires Inv(s) && id in s.streams && Asleep(s.streams[id]) && WriterRests(run, id) && Exec(s, run).Running?
    ensures id in Exec(s, run).state.streams
    ensures var st, st' := s.streams[id], Exec(s, run).state.streams[id];
            && st'.handle == st.handle
            && if DispatchedIn(s, run, st.handle) then Woken(st.shared.writer, st')
               else Woken(st.shared.writer, st') || (Asleep(st') && st'.shared.writer == st.shared.writer)
  {
    hide Next, Enabled, Owned, LoopOk, DispatchTarget, DispatchedIn, Dispatches, Asleep, Woken, WakesOnce;
    if run == [] {
      assert !DispatchedIn(s, [], s.streams[id].handle) by { NothingDispatched(s, s.streams[id].handle); }
    } else {
      var n := |run| - 1;
      var before, h := run[..n], s.streams[id].handle;
      WriterSleepsUntilWoken(s, before, id);
      RunInv(s, before);
      var t := Exec(s, before).state;
      WakingIsLive(s.streams[id], t.streams[id]);
      StepWakes(t, run[n], id);
      WakesChain(s.streams[id], t.streams[id], Exec(s, run).state.streams[id]);
      DispatchedByLast(s, run, h);
    }
  }
}
