/** Which steps lose bytes that were accepted: exactly the dispatches that end TIME-WAIT over unread bytes. */
module Losses {
  import opened Prelude
  import opened Addresses
  import opened Tcp
  import opened ConnectionSpec
  import opened ConnectionLaws
  import opened System
  import opened Ownership
  import opened Scheduling
  import opened LoopDiscipline
  import opened Runs
  import opened Progress

  /** The step dispatches the stream's handle in TIME-WAIT with bytes unread, and the engine resets the socket. */
  predicate Discards(s: State, e: Event, id: Id) {
    && e.Head?
    && var target := DispatchTarget(s.io);
    && target.Some? && Known(s, target.value) && s.pool[target.value].id == id
    && var tcp := SharedOf(s, target.value).tcp;
    && tcp.state == TimeWait && tcp.rx != []
    && e.after.state == Closed && e.after.rx == []
  }

  function LostBy(s: State, e: Event, id: Id): seq<u8>
    requires id in s.streams
  {
    if Discards(s, e, id) then s.streams[id].shared.tcp.rx else []
  }

  /** The streams that existed still do, with the given bytes added to what `id` has lost; new ones have lost none. */
  ghost predicate Loses(s: State, s': State, id: Id, bytes: seq<u8>) {
    && s.streams.Keys <= s'.streams.Keys
    && (id in s.streams ==> s'.streams[id].lost == s.streams[id].lost + bytes)
    && (id !in s.streams && id in s'.streams ==> s'.streams[id].lost == [])
  }

  lemma NothingLost(s: State, s': State, k: Id, id: Id)
    requires k in s.streams && k in s'.streams
    requires s'.streams == s.streams[k := s'.streams[k]] && s'.streams[k].lost == s.streams[k].lost
    ensures Loses(s, s', id, [])
  {
    if id in s.streams {
      assert s.streams[id].lost + [] == s.streams[id].lost;
    }
  }

  lemma SameStreamsLoseNothing(s: State, s': State, id: Id)
    requires s'.streams == s.streams
    ensures Loses(s, s', id, [])
  {
    if id in s.streams {
      assert s.streams[id].lost + [] == s.streams[id].lost;
    }
  }

  lemma DispatchLoses(s: State, h: Handle, emission: Emission<Packet>, after: Socket, id: Id)
    requires Known(s, h) && DispatchContract(SharedOf(s, h).tcp, after)
    ensures var tcp := SharedOf(s, h).tcp;
            var bytes := if s.pool[h].id == id && tcp.state == TimeWait && tcp.rx != [] && after.state == Closed && after.rx == []
                         then tcp.rx else [];
            Loses(s, DispatchConnection(s, h, emission, after), id, bytes)
  {
    hide AfterDispatch, QueueAfterDispatch, EndsAtDispatch;
    if id in s.streams {
      assert s.streams[id].lost + [] == s.streams[id].lost;
    }
  }

  lemma HeadLoses(s: State, emission: Emission<Packet>, after: Socket, id: Id)
    requires HeadEnabled(s, emission, after) && NextHead(s, emission, after).Running?
    ensures var bytes := if id in s.streams then LostBy(s, Head(emission, after), id) else [];
            Loses(s, NextHead(s, emission, after).state, id, bytes)
  {
    hide NextHead, DispatchConnection, DispatchContract;
    HeadCases(s, emission, after);
    var s' := NextHead(s, emission, after).state;
    var target := DispatchTarget(s.io);
    if target.Some? {
      DispatchLoses(TakePoll(s), target.value, emission, after, id);
    } else {
      SameStreamsLoseNothing(s, s', id);
    }
  }

  lemma CreateLosesNothing(s: State, k: Id, h: Handle, delivered: bool, id: Id)
    requires k !in s.streams && h.local.WellFormed()
    ensures Loses(s, CreateStream(s, k, h, delivered), id, [])
  {
    if id in s.streams {
      assert s.streams[id].lost + [] == s.streams[id].lost;
    }
  }

  lemma ApplicationLosesNothing(s: State, e: Event, id: Id)
    requires Enabled(s, e) && ByApplication(e)
    ensures Next(s, e).Running? && Loses(s, Next(s, e).state, id, [])
  {
    hide PollRead, PollWrite, PollClose, Loses;
    NothingLost(s, Next(s, e).state, e.id, id);
  }

  lemma LoopLosesNothing(s: State, e: Event, id: Id)
    requires Enabled(s, e) && Next(s, e).Running? && ByLoop(e) && !e.Head?
    ensures Loses(s, Next(s, e).state, id, [])
  {
    hide NextHead, NextProcess, NextHandleClose, NextHandleUpdate, Acceptable, Loses, AfterProcess, AfterDropHalf, QueueSend;
    var s' := Next(s, e).state;
    match e
    case Process(text, reply, after) =>
      ProcessCases(s, text, reply, after);
      if Acceptable(s) {
        NothingLost(s, s', s.pool[s.io.phase.h].id, id);
      } else {
        SameStreamsLoseNothing(s, s', id);
      }
    case HandleClose(after) =>
      HandleCloseCases(s, after);
      NothingLost(s, s', s.pool[s.io.phase.close.0].id, id);
    case HandleUpdate =>
      HandleUpdateCases(s);
      SameStreamsLoseNothing(s, s', id);
    case Expire(_) => SameStreamsLoseNothing(s, s', id);
    case _ =>
      QuietCases(s, e);
      SameStreamsLoseNothing(s, s', id);
  }

  lemma SelectReadLosesNothing(s: State, frame: Frame, k: Id, listens: bool, delivered: bool, id: Id)
    requires SelectReadEnabled(s, frame, k)
    ensures Loses(s, NextSelectRead(s, frame, k, listens, delivered), id, [])
  {
    hide NextSelectRead, CreateStream, RouteOf, Loses;
    var s' := NextSelectRead(s, frame, k, listens, delivered);
    SelectReadCases(s, frame, k, listens, delivered);
    var route := RouteOf(s.pool.Keys, frame);
    if route.New? && listens {
      CreateLosesNothing(s, k, route.h, delivered, id);
      SameLosses(s, CreateStream(s, k, route.h, delivered), s', id, []);
    } else {
      SameStreamsLoseNothing(s, s', id);
    }
  }

  /** A step adds to what a stream has lost if and only if it is a dispatch that discards. */
  lemma LostExactly(s: State, e: Event, id: Id)
    requires Enabled(s, e) && Next(s, e).Running?
    ensures Loses(s, Next(s, e).state, id, if id in s.streams then LostBy(s, e, id) else [])
    ensures id in s.streams ==> (Next(s, e).state.streams[id].lost != s.streams[id].lost <==> Discards(s, e, id))
  {
    hide NextRead, NextWrite, NextClose, NextDrop, NextHead, NextProcess, NextHandleClose, NextHandleUpdate,
      NextSelectRead, NextExpire, NextSelectClose, NextSelectUpdate, NextWritten, Loses;
    match e {
      case Head(emission, after) => HeadLoses(s, emission, after, id);
      case SelectRead(frame, k, listens, delivered) => SelectReadLosesNothing(s, frame, k, listens, delivered, id);
      case _ =>
        if ByLoop(e) { LoopLosesNothing(s, e, id); } else { ApplicationLosesNothing(s, e, id); }
    }
    LossIsSeen(s, Next(s, e).state, id, if id in s.streams then LostBy(s, e, id) else []);
  }

  lemma SameLosses(s: State, t: State, s': State, id: Id, bytes: seq<u8>)
    requires Loses(s, t, id, bytes) && s'.streams == t.streams
    ensures Loses(s, s', id, bytes)
  {
  }

  lemma LossIsSeen(s: State, s': State, id: Id, bytes: seq<u8>)
    requires Loses(s, s', id, bytes)
    ensures id in s.streams ==> id in s'.streams && (s'.streams[id].lost != s.streams[id].lost <==> bytes != [])
  {
  }

  // ---- Over a run ----

  ghost predicate DiscardsAt(s: State, run: seq<Event>, i: nat, id: Id) {
    && i < |run|
    && Exec(s, run[..i]).Running?
    && Discards(Exec(s, run[..i]).state, run[i], id)
  }

  /** Over a whole run of the program, a stream has lost bytes if and only if some step of the run discards. */
  lemma {:induction false} LostOverRun(start: nat, run: seq<Event>, id: Id)
    requires Exec(Init(start), run).Running?
    ensures (exists i: nat :: DiscardsAt(Init(start), run, i, id)) <==>
            var t := Exec(Init(start), run).state; id in t.streams && t.streams[id].lost != []
  {
    hide Next, Enabled, Discards;
    if run != [] {
      var s, n := Init(start), |run| - 1;
      var before, e := run[..n], run[n];
      LostOverRun(start, before, id);
      var t := Exec(s, before).state;
      assert forall i: nat :: i < n ==> before[..i] == run[..i];
      assert forall i: nat :: DiscardsAt(s, run, i, id) <==> DiscardsAt(s, before, i, id) || (i == n && Discards(t, e, id));
      LostExactly(t, e, id);
      if Discards(t, e, id) {
        assert DiscardsAt(s, run, n, id);
        DiscardsIsOfStream(t, e, id);
      }
      if i: nat :| DiscardsAt(s, before, i, id) {
        assert DiscardsAt(s, run, i, id);
      }
    }
  }

  lemma DiscardsIsOfStream(s: State, e: Event, id: Id)
    requires Discards(s, e, id)
    ensures id in s.streams && LostBy(s, e, id) != []
  {
  }

  // ---- It can happen whenever there is something to lose ----

  /** The socket after the reset that ends TIME-WAIT. */
  function Reset(tcp: Socket): Socket {
    tcp.(state := Closed, rx := [], tx := [], inFlight := 0)
  }

  lemma TimeWaitIsScheduled(s: State, h: Handle)
    requires Owned(s) && WorkScheduled(s) && Known(s, h) && SharedOf(s, h).tcp.state == TimeWait
    ensures Scheduled(s, h)
  {
    hide TokensConserved, HalvesArePooled, PoolIsSound;
    assert ScheduledAt(s, h);
  }

  lemma ResetStream(st: Stream, f: Flags)
    ensures var st' := DispatchedStream(st, f, Reset(st.shared.tcp), NothingToSend);
            && st'.shared.tcp == Reset(st.shared.tcp) && st'.delivered == st.delivered
            && st'.readerLive == st.readerLive && st'.eofReached == st.eofReached
  {
    DispatchLaw(st.shared, f, Reset(st.shared.tcp), Emission<Packet>.NothingToSend);
    hide AfterDispatch;
  }

  lemma ResetDiscards(s: State, h: Handle)
    requires LoopOk(s) && AboutToDispatch(s, h) && Known(s, h)
    requires SharedOf(s, h).tcp.state == TimeWait && SharedOf(s, h).tcp.rx != []
    ensures var e := Head(NothingToSend, Reset(SharedOf(s, h).tcp));
            && Enabled(s, e) && Next(s, e).Running? && Discards(s, e, s.pool[h].id)
            && s.pool[h].id in Next(s, e).state.streams
            && var st, st' := s.streams[s.pool[h].id], Next(s, e).state.streams[s.pool[h].id];
            && st'.shared.tcp == Reset(st.shared.tcp) && st'.delivered == st.delivered
            && st'.readerLive == st.readerLive && st'.eofReached == st.eofReached
  {
    hide LoopOk, NextHead, EndsAtDispatch, QueueAfterDispatch, DispatchedStream, DispatchTarget;
    var tcp := SharedOf(s, h).tcp;
    assert HeadEnabled(s, NothingToSend, Reset(tcp));
    HeadLoopOk(s, NothingToSend, Reset(tcp));
    HeadCases(s, NothingToSend, Reset(tcp));
    ResetStream(s.streams[s.pool[h].id], s.pool[h].flags);
  }

  /** The unread bytes of a connection in TIME-WAIT. */
  predicate AtRisk(s: State, id: Id) {
    && id in s.streams && Known(s, s.streams[id].handle) && s.pool[s.streams[id].handle].id == id
    && s.streams[id].shared.tcp.state == TimeWait && s.streams[id].shared.tcp.rx != []
  }

  /** A loop run from `s` in which the stream loses its unread bytes. */
  ghost predicate LosingRun(s: State, run: seq<Event>, t: State, id: Id) {
    && LoopRun(run) && Exec(s, run) == Running(t) && id in s.streams && id in t.streams
    && t.streams[id].lost == s.streams[id].lost + s.streams[id].shared.tcp.rx
    && t.streams[id].shared.tcp.rx == [] && t.streams[id].shared.tcp.state == Closed
    && t.streams[id].delivered == s.streams[id].delivered
    && t.streams[id].readerLive == s.streams[id].readerLive && t.streams[id].eofReached == s.streams[id].eofReached
  }

  lemma UnreadBytesAreLost(s: State, id: Id) returns (run: seq<Event>, t: State)
    requires Owned(s) && LoopOk(s) && WorkScheduled(s) && AtRisk(s, id) && PickAllows(s, s.streams[id].handle)
    ensures LosingRun(s, run, t, id)
  {
    hide Next, Enabled, Exec, AboutToDispatch, Owned, LoopOk, WorkScheduled, Scheduled;
    var h := s.streams[id].handle;
    TimeWaitIsScheduled(s, h);
    var drive, u := DispatchFollows(s, h);
    var e := Head(NothingToSend, Reset(SharedOf(u, h).tcp));
    ResetDiscards(u, h);
    LostExactly(u, e, id);
    t := Next(u, e).state;
    ExecLast(u, e);
    ExecComposes(s, drive, [e]);
    LoopRunsCompose(drive, [e]);
    run := drive + [e];
  }

  /** While a picked handle without a connection is in the way, the loop alone discards nothing. */
  lemma {:induction false} StuckLosesNothing(s: State, run: seq<Event>, k: Handle, id: Id)
    requires Owned(s) && LoopOk(s) && Stuck(s, k) && LoopRun(run) && Exec(s, run).Running? && id in s.streams
    ensures var t := Exec(s, run).state; id in t.streams && t.streams[id].lost == s.streams[id].lost
  {
    hide Owned, LoopOk, Next, Enabled;
    if run != [] {
      var n := |run| - 1;
      StuckLosesNothing(s, run[..n], k, id);
      StuckStays(s, run[..n], k);
      LostExactly(Exec(s, run[..n]).state, run[n], id);
    }
  }
}
