/** When a reported end of stream is final: exactly when the socket was past matching a SYN, or can no longer get
    to match one. */
module EndOfStream {
  import opened Prelude
  import opened Addresses
  import opened Tcp
  import opened Acceptability
  import opened ConnectionSpec
  import opened System
  import opened Ownership
  import opened Scheduling
  import opened Wakeups
  import opened LoopDiscipline
  import opened Histories
  import opened SettledPicks
  import opened NonInterference
  import opened StepLaws
  import opened Runs
  import opened Progress

  /** Some run leads from `s` to `t`. */
  ghost predicate Leads(s: State, t: State) {
    exists run: seq<Event> :: Exec(s, run) == Running(t)
  }

  lemma LeadsTransitive(s: State, t: State, u: State)
    requires Leads(s, t) && Leads(t, u)
    ensures Leads(s, u)
  {
    hide Exec;
    var a: seq<Event> :| Exec(s, a) == Running(t);
    var b: seq<Event> :| Exec(t, b) == Running(u);
    ExecComposes(s, a, b);
    assert Exec(s, a + b) == Running(u);
  }

  lemma StepLeads(s: State, e: Event)
    requires Enabled(s, e) && Next(s, e).Running?
    ensures Leads(s, Next(s, e).state)
  {
    hide Next, Enabled, Exec;
    ExecLast(s, e);
  }

  /** The loop has the writer's close message in its hands, and will close the socket before anything else. */
  predicate ClosesNext(s: State, h: Handle) {
    s.io.phase == HandlingClose((h, Write))
  }

  /** The loop's next step is the dispatch of a handle without a connection. */
  predicate PanicsNext(s: State) {
    s.io.phase == AtHead && DispatchTarget(s.io).Some? && DispatchTarget(s.io).value !in s.pool
  }

  // ---- Nothing more comes ----

  /** The stream has ended, or will before its SYN can be processed, or the loop ends first. */
  ghost predicate Hopeless(s: State, id: Id) {
    && id in s.streams
    && var st := s.streams[id];
    || Ended(st)
    || (&& Unsynchronized(st.shared.tcp.state) && st.shared.tcp.rx == []
        && Known(s, st.handle) && s.pool[st.handle].id == id
        && (ClosesNext(s, st.handle) || PanicsNext(s)))
  }

  /** On a socket that has not matched a SYN the application can do nothing but close it. */
  lemma HopelessOwnStep(s: State, e: Event)
    requires ByApplication(e) && Enabled(s, e)
    requires Unsynchronized(s.streams[e.id].shared.tcp.state) && s.streams[e.id].shared.tcp.rx == []
    ensures Next(s, e).Running? && e.id in Next(s, e).state.streams
    ensures var st, st' := s.streams[e.id], Next(s, e).state.streams[e.id];
            && st'.handle == st.handle && st'.delivered == st.delivered
            && (Ended(st') || st'.shared.tcp == st.shared.tcp)
  {
    hide NextRead, NextWrite, NextClose, PollWrite;
    assert s.streams[e.id].delivered + [] == s.streams[e.id].delivered;
    match e
    case ReadStream(id, len, taken, after) => ReadExactly(s, id, len, taken, after);
    case WriteStream(id, data, after) => HopelessWrite(s, id, data, after);
    case CloseStream(id, after) => CloseExactly(s, id, after);
    case _ =>
  }

  lemma HopelessWrite(s: State, id: Id, data: seq<u8>, after: Socket)
    requires WriteEnabled(s, id, data, after) && Unsynchronized(s.streams[id].shared.tcp.state)
    ensures after == s.streams[id].shared.tcp && id in NextWrite(s, id, data, after).streams
    ensures var st, st' := s.streams[id], NextWrite(s, id, data, after).streams[id];
            st'.handle == st.handle && st'.delivered == st.delivered && st'.shared.tcp == st.shared.tcp
  {
  }

  lemma HopelessApplication(s: State, e: Event, id: Id)
    requires Hopeless(s, id) && !Ended(s.streams[id]) && Enabled(s, e) && ByApplication(e)
    ensures Next(s, e).Running? && Hopeless(Next(s, e).state, id)
    ensures Next(s, e).state.streams[id].delivered == s.streams[id].delivered
  {
    hide Next, Enabled, DispatchTarget;
    ApplicationFrame(s, e);
    if e.id == id {
      HopelessOwnStep(s, e);
    }
  }

  lemma HopelessClose(s: State, after: Socket, id: Id)
    requires Hopeless(s, id) && !Ended(s.streams[id]) && HandleCloseEnabled(s, after)
    requires NextHandleClose(s, after).Running?
    ensures Hopeless(NextHandleClose(s, after).state, id)
    ensures NextHandleClose(s, after).state.streams[id].delivered == s.streams[id].delivered
  {
    hide QueueAfterDropHalf;
  }

  lemma HopelessStep(s: State, e: Event, id: Id)
    requires Owned(s) && LoopOk(s) && StreamsOk(s) && Hopeless(s, id) && Enabled(s, e) && Next(s, e).Running?
    ensures Hopeless(Next(s, e).state, id) && id in Next(s, e).state.streams
    ensures Next(s, e).state.streams[id].delivered == s.streams[id].delivered
  {
    hide Owned, LoopOk, StreamsOk, NextRead, NextWrite, NextClose, NextDrop, NextHead, NextProcess, NextHandleClose,
      NextSelectRead, NextExpire, DispatchContract;
    if Ended(s.streams[id]) {
      StreamsOkPreserved(s, e);
    } else {
      match e
      case HandleClose(after) => HopelessClose(s, after, id);
      case Head(emission, after) => HeadCases(s, emission, after);
      case Tick(_) =>
      case _ => HopelessApplication(s, e, id);
    }
  }

  /** Where a read reports end of stream past the SYN, or too late to process one, there is no hope. */
  lemma ReportedIsHopeless(s: State, id: Id)
    requires Inv(s) && id in s.streams && s.streams[id].readerLive
    requires !s.streams[id].shared.tcp.MayRecv() && s.streams[id].shared.tcp.state != SynReceived
    requires Unsynchronized(s.streams[id].shared.tcp.state) ==> ClosesNext(s, s.streams[id].handle) || PanicsNext(s)
    ensures Hopeless(s, id)
  {
    hide Inv, PanicsNext;
    LiveIsPooledIn(s, id);
  }

  lemma {:induction false} HopelessRun(s: State, run: seq<Event>, id: Id)
    requires Inv(s) && id in s.streams && Hopeless(s, id) && Exec(s, run).Running?
    ensures Hopeless(Exec(s, run).state, id) && id in Exec(s, run).state.streams
    ensures Exec(s, run).state.streams[id].delivered == s.streams[id].delivered
  {
    hide Owned, LoopOk, StreamsOk, WorkScheduled, SleepersServed, SettledOk, Next, Enabled, Hopeless;
    if run != [] {
      var n := |run| - 1;
      HopelessRun(s, run[..n], id);
      RunInv(s, run[..n]);
      HopelessStep(Exec(s, run[..n]).state, run[n], id);
    }
  }

  // ---- More can come ----

  /** The reader is where it was, with the same socket. */
  predicate KeptReader(s: State, t: State, id: Id) {
    && id in s.streams && id in t.streams
    && var st, st' := s.streams[id], t.streams[id];
    && st'.shared.tcp == st.shared.tcp && st'.handle == st.handle
    && st'.readerLive == st.readerLive && st'.delivered == st.delivered
  }

  lemma HeadSettles(s: State, id: Id) returns (t: State)
    requires Inv(s) && id in s.streams && s.streams[id].readerLive && s.io.phase == AtHead && !PanicsNext(s)
    ensures Leads(s, t) && Inv(t) && t.io.phase == Waiting(Start) && KeptReader(s, t, id)
  {
    hide Owned, LoopOk, StreamsOk, WorkScheduled, SleepersServed, SettledOk, NextHead, DispatchConnection,
      DispatchContract, Leads, PopReplies;
    var h, target := s.streams[id].handle, DispatchTarget(s.io);
    LiveIsPooled(s, id);
    var tcp := Listening(NO_ENDPOINT);
    if target.Some? {
      PooledIsValid(s, target.value);
      tcp := SharedOf(s, target.value).tcp;
      EngineMayRest(tcp, Segment(NO_ENDPOINT, NO_ENDPOINT, NoControl, false));
    }
    var e := Head(EmitFailed, tcp);
    HeadLoopOk(s, EmitFailed, tcp);
    t := NextHead(s, EmitFailed, tcp).state;
    HeadWaits(s, EmitFailed, tcp);
    StepInv(s, e);
    StepLeads(s, e);
    if target == Some(h) {
      HeadCases(s, EmitFailed, tcp);
      DispatchKeepsReader(TakePoll(s), h, EmitFailed);
    } else {
      StepsTouchTheirSubject(s, e, h);
    }
  }

  lemma DispatchKeepsReader(s: State, h: Handle, emission: Emission<Packet>)
    requires Known(s, h)
    ensures KeptReader(s, DispatchConnection(s, h, emission, SharedOf(s, h).tcp), s.pool[h].id)
  {
    hide QueueAfterDispatch, EndsAtDispatch;
  }

  lemma ProcessKeepsReader(s: State, h: Handle)
    requires Known(s, h)
    ensures KeptReader(s, ProcessConnection(s, h, [], SharedOf(s, h).tcp), s.pool[h].id)
  {
    hide QueueAfterProcess;
  }

  /** Whatever the loop has in its hands it can put down without touching the reader's socket. */
  lemma HandsSettle(s: State, id: Id) returns (t: State)
    requires Inv(s) && id in s.streams && s.streams[id].readerLive && !ClosesNext(s, s.streams[id].handle)
    requires s.io.phase.Handling? || s.io.phase.HandlingClose? || s.io.phase.HandlingUpdate?
    ensures Leads(s, t) && Inv(t) && t.io.phase == AtHead && !PanicsNext(t) && KeptReader(s, t, id)
  {
    var h := s.streams[id].handle;
    var e := HandsStep(s, id);
    hide Owned, LoopOk, StreamsOk, WorkScheduled, SleepersServed, SettledOk, Next, Enabled, Leads, PanicsNext;
    t := Next(s, e).state;
    StepInv(s, e);
    StepLeads(s, e);
  }

  /** Away from its head the loop has a picked handle only while the writer is busy. */
  lemma HandlingCannotPanicNext(s: State, s': State)
    requires LoopOk(s) && s.io.phase != AtHead && s'.io.writing == s.io.writing && s'.io.nextPoll == s.io.nextPoll
    ensures !PanicsNext(s')
  {
    hide PopReplies, PacketsConserved, MessagesConserved, RepliesOk;
  }

  lemma ProcessIsNext(s: State, text: seq<u8>, after: Socket)
    requires Owned(s) && LoopOk(s) && ProcessEnabled(s, text, None, after)
    ensures var e := Process(text, None, after);
            && Enabled(s, e) && Next(s, e) == NextProcess(s, text, None, after) && Next(s, e).Running?
            && Next(s, e).state.io.phase == AtHead && !PanicsNext(Next(s, e).state)
  {
    hide Owned, LoopOk, ProcessContract, Acceptable, NextProcess, ProcessConnection, PanicsNext;
    ProcessLoopOk(s, text, None, after);
    ProcessCases(s, text, None, after);
    if Acceptable(s) { ProcessFrame(s, s.io.phase.h, text, after); }
    HandlingCannotPanicNext(s, NextProcess(s, text, None, after).state);
  }

  lemma RestingProcess(s: State, id: Id) returns (e: Event)
    requires Inv(s) && id in s.streams && s.streams[id].readerLive && s.io.phase.Handling?
    ensures Enabled(s, e) && Next(s, e).Running?
    ensures Next(s, e).state.io.phase == AtHead && !PanicsNext(Next(s, e).state) && KeptReader(s, Next(s, e).state, id)
  {
    hide Owned, LoopOk, StreamsOk, WorkScheduled, SleepersServed, SettledOk, ProcessConnection, ProcessContract,
      Acceptable, NextProcess, PanicsNext, Next, Enabled;
    var h, k := s.streams[id].handle, s.io.phase.h;
    HandledIsKnown(s);
    LiveIsPooled(s, id);
    PooledIsValid(s, k);
    var tcp := SharedOf(s, k).tcp;
    EngineMayRest(tcp, s.io.phase.seg);
    e := Process([], None, tcp);
    ProcessIsNext(s, [], tcp);
    if k == h {
      ProcessCases(s, [], None, tcp);
      ProcessKeepsReader(s, h);
    } else {
      StepsTouchTheirSubject(s, e, h);
    }
  }

  lemma RestingClose(s: State, id: Id) returns (e: Event)
    requires Inv(s) && id in s.streams && s.streams[id].readerLive && s.io.phase.HandlingClose?
    requires !ClosesNext(s, s.streams[id].handle)
    ensures Enabled(s, e) && Next(s, e).Running?
    ensures Next(s, e).state.io.phase == AtHead && !PanicsNext(Next(s, e).state) && KeptReader(s, Next(s, e).state, id)
  {
    hide Owned, LoopOk, StreamsOk, WorkScheduled, SleepersServed, SettledOk, DropHalf, CloseContract, NextHandleClose,
      PanicsNext;
    var h, m := s.streams[id].handle, s.io.phase.close;
    assert m == PendingCloses(s)[0] && m in PendingCloses(s);
    LiveIsPooled(s, id);
    CloseMessageIsForPooledHandle(s);
    PooledIsValid(s, m.0);
    DroppedIsNotLive(s, h, Read);
    assert m == (m.0, if m.1.Read? then Read else Write);
    var tcp := SharedOf(s, m.0).tcp;
    EngineMayRest(tcp, Segment(NO_ENDPOINT, NO_ENDPOINT, NoControl, false));
    var after := tcp.(state := CloseState(tcp.state));
    e := HandleClose(after);
    HandleCloseLoopOk(s, after);
    HandleCloseCases(s, after);
    HandlingCannotPanicNext(s, NextHandleClose(s, after).state);
    StepsTouchTheirSubject(s, e, h);
  }

  lemma HandsStep(s: State, id: Id) returns (e: Event)
    requires Inv(s) && id in s.streams && s.streams[id].readerLive && !ClosesNext(s, s.streams[id].handle)
    requires s.io.phase.Handling? || s.io.phase.HandlingClose? || s.io.phase.HandlingUpdate?
    ensures Enabled(s, e) && Next(s, e).Running?
    ensures Next(s, e).state.io.phase == AtHead && !PanicsNext(Next(s, e).state) && KeptReader(s, Next(s, e).state, id)
  {
    hide Owned, LoopOk, StreamsOk, WorkScheduled, SleepersServed, SettledOk, NextHandleUpdate, PanicsNext, QueueSend;
    match s.io.phase {
      case Handling(_, _) => e := RestingProcess(s, id);
      case HandlingClose(_) => e := RestingClose(s, id);
      case HandlingUpdate(_) =>
        e := HandleUpdate;
        HandleUpdateLoopOk(s);
        HandleUpdateCases(s);
        HandlingCannotPanicNext(s, NextHandleUpdate(s).state);
    }
  }

  /** The loop can always be brought to wait for the device, unless it closes the socket or panics first. */
  lemma Settles(s: State, id: Id) returns (t: State)
    requires Inv(s) && id in s.streams && s.streams[id].readerLive
    requires !ClosesNext(s, s.streams[id].handle) && !PanicsNext(s)
    ensures Leads(s, t) && Inv(t) && t.io.phase == Waiting(Start) && KeptReader(s, t, id)
  {
    hide Inv, Leads, PanicsNext;
    match s.io.phase {
      case AtHead => t := HeadSettles(s, id);
      case Waiting(_) =>
        t := ToPhase(s, Waiting(Start));
        assert Enabled(s, Rescan) && Next(s, Rescan) == Running(t);
        hide Next, Enabled;
        StepInv(s, Rescan);
        StepLeads(s, Rescan);
      case _ =>
        var u := HandsSettle(s, id);
        t := HeadSettles(u, id);
        LeadsTransitive(s, u, t);
    }
  }

  lemma FrameArrives(s: State, id: Id, seg: Segment) returns (t: State)
    requires Inv(s) && s.io.phase == Waiting(Start) && id in s.streams && s.streams[id].readerLive
    requires seg.WellFormed() && PairOf(seg.src, seg.dst) == Ok(s.streams[id].handle)
    requires !(seg.control == Syn && seg.hasAck)
    ensures Leads(s, t) && Inv(t) && t.io.phase == Handling(seg, s.streams[id].handle) && KeptReader(s, t, id)
    ensures t.io.writing == s.io.writing && t.io.nextPoll == s.io.nextPoll && t.io.replies == s.io.replies
  {
    hide Owned, LoopOk, StreamsOk, WorkScheduled, SleepersServed, SettledOk, Leads, Next, Enabled;
    LiveIsPooledIn(s, id);
    var k := FrameIsNext(s, seg, s.streams[id].handle);
    var e := SelectRead(Frame.Tcp(seg), k, true, true);
    t := Next(s, e).state;
    StepInv(s, e);
    StepLeads(s, e);
  }

  lemma FrameIsNext(s: State, seg: Segment, h: Handle) returns (k: Id)
    requires LoopOk(s) && s.io.phase == Waiting(Start) && h in s.pool
    requires seg.WellFormed() && PairOf(seg.src, seg.dst) == Ok(h) && !(seg.control == Syn && seg.hasAck)
    ensures var e := SelectRead(Frame.Tcp(seg), k, true, true);
            Enabled(s, e) && Next(s, e) == Running(s.(io := s.io.(slotB := false, phase := Handling(seg, h))))
  {
    hide PairOf, PacketsConserved, MessagesConserved, RepliesOk;
    UnusedExists(s.streams.Keys);
    k :| k !in s.streams;
  }

  lemma LiveIsPooledIn(s: State, id: Id)
    requires Inv(s) && id in s.streams && s.streams[id].readerLive
    ensures Known(s, s.streams[id].handle) && s.pool[s.streams[id].handle].id == id
    ensures s.streams[id].shared.tcp.Valid() && Bound(s.streams[id].shared.tcp, s.streams[id].handle)
  {
    hide TokensConserved, WorkScheduled, SleepersServed, LoopOk, SettledOk, Bound;
  }

  lemma SegmentHandled(s: State, id: Id, text: seq<u8>, after: Socket) returns (t: State)
    requires Inv(s) && id in s.streams && s.streams[id].readerLive
    requires s.io.phase.Handling? && s.io.phase.h == s.streams[id].handle
    requires CheckAcceptability(s.streams[id].shared.tcp, s.io.phase.seg).Ok?
    requires ProcessContract(s.streams[id].shared.tcp, s.io.phase.seg, text, after)
    ensures Leads(s, t) && Inv(t) && t.io.phase == AtHead && !PanicsNext(t) && id in t.streams
    ensures t.streams[id].shared.tcp == after && t.streams[id].readerLive
    ensures t.streams[id].handle == s.streams[id].handle && t.streams[id].delivered == s.streams[id].delivered
  {
    hide Owned, LoopOk, StreamsOk, WorkScheduled, SleepersServed, SettledOk, Leads, CheckAcceptability, ProcessContract,
      NextProcess, PanicsNext, QueueAfterProcess, Next, Enabled;
    LiveIsPooledIn(s, id);
    var e := Process(text, None, after);
    ProcessIsNext(s, text, after);
    t := Next(s, e).state;
    ProcessCases(s, text, None, after);
    StepInv(s, e);
    StepLeads(s, e);
  }

  lemma SynContract(tcp: Socket, syn: Segment)
    requires tcp.Valid() && Unsynchronized(tcp.state) && tcp.rx == []
    ensures ProcessContract(tcp, syn, [], tcp.(state := SynReceived, remote := syn.src))
  {
    assert tcp.tx[|tcp.tx| - |tcp.tx|..] == tcp.tx;
    assert tcp.rx + [] == tcp.rx;
  }

  lemma AckContract(tcp: Socket, ack: Segment)
    requires tcp.Valid() && tcp.state == SynReceived && tcp.rx == []
    ensures ProcessContract(tcp, ack, [0], tcp.(state := Established, rx := [0]))
  {
    assert tcp.tx[|tcp.tx| - |tcp.tx|..] == tcp.tx;
    assert tcp.rx + [0] == [0];
  }

  /** A segment between the endpoints of the stream's key. */
  function Between(key: AddrPair, control: Control, hasAck: bool): (seg: Segment)
    requires key.peer.WellFormed() && key.local.WellFormed()
    ensures seg.WellFormed()
  {
    Segment(ToEndpoint(key.peer), ToEndpoint(key.local), control, hasAck)
  }

  lemma SegmentIsAcceptable(s: State, id: Id, control: Control, hasAck: bool)
    requires Inv(s) && id in s.streams && s.streams[id].readerLive
    requires s.streams[id].shared.tcp.state != Closed && !(s.streams[id].shared.tcp.state == Listen && hasAck)
    ensures s.streams[id].handle.peer.WellFormed() && s.streams[id].handle.local.WellFormed()
    ensures var seg := Between(s.streams[id].handle, control, hasAck);
            && PairOf(seg.src, seg.dst) == Ok(s.streams[id].handle)
            && CheckAcceptability(s.streams[id].shared.tcp, seg).Ok?
  {
    LiveIsPooledIn(s, id);
    var h := s.streams[id].handle;
    KeyRoundTrip(h);
    RoutedSegmentsPassEndpointChecks(s.streams[id].shared.tcp, h, Between(h, control, hasAck));
  }

  /** One segment comes in and is processed. */
  lemma Receives(s: State, id: Id, control: Control, hasAck: bool, text: seq<u8>, after: Socket) returns (t: State)
    requires Inv(s) && id in s.streams && s.streams[id].readerLive
    requires !ClosesNext(s, s.streams[id].handle) && !PanicsNext(s) && !(control == Syn && hasAck)
    requires s.streams[id].handle.peer.WellFormed() && s.streams[id].handle.local.WellFormed()
    requires var tcp := s.streams[id].shared.tcp;
             && tcp.state != Closed && !(tcp.state == Listen && hasAck)
             && ProcessContract(tcp, Between(s.streams[id].handle, control, hasAck), text, after)
    ensures Leads(s, t) && Inv(t) && t.io.phase == AtHead && !PanicsNext(t) && id in t.streams
    ensures t.streams[id].shared.tcp == after && t.streams[id].readerLive
    ensures t.streams[id].handle == s.streams[id].handle && t.streams[id].delivered == s.streams[id].delivered
  {
    hide Inv, Leads, PanicsNext, ProcessContract, CheckAcceptability, PairOf, Between;
    var seg := Between(s.streams[id].handle, control, hasAck);
    var s1 := Settles(s, id);
    SegmentIsAcceptable(s1, id, control, hasAck);
    BetweenIs(s.streams[id].handle, control, hasAck);
    var s2 := FrameArrives(s1, id, seg);
    t := SegmentHandled(s2, id, text, after);
    LeadsTransitive(s, s1, s2);
    LeadsTransitive(s, s2, t);
  }

  lemma BetweenIs(key: AddrPair, control: Control, hasAck: bool)
    requires key.peer.WellFormed() && key.local.WellFormed()
    ensures Between(key, control, hasAck).control == control && Between(key, control, hasAck).hasAck == hasAck
  {
  }

  lemma ReadsByte(s: State, id: Id) returns (t: State)
    requires Inv(s) && id in s.streams && s.streams[id].readerLive && s.streams[id].shared.tcp.rx == [0]
    ensures Leads(s, t) && id in t.streams && t.streams[id].delivered == s.streams[id].delivered + [0]
  {
    hide Inv, Leads;
    var e := ReadStream(id, 1, 1, s.streams[id].shared.tcp.(rx := []));
    assert s.streams[id].shared.tcp.rx[..1] == [0];
    t := NextRead(s, id, 1, 1, s.streams[id].shared.tcp.(rx := []));
    StepLeads(s, e);
  }

  /** A socket that has not matched a SYN can still come to life and hand its reader a byte. */
  lemma UnsynchronizedCanReceive(s: State, id: Id) returns (t: State)
    requires Inv(s) && id in s.streams && s.streams[id].readerLive
    requires Unsynchronized(s.streams[id].shared.tcp.state) && s.streams[id].shared.tcp.rx == []
    requires !ClosesNext(s, s.streams[id].handle) && !PanicsNext(s)
    ensures Leads(s, t) && id in t.streams && t.streams[id].delivered == s.streams[id].delivered + [0]
  {
    hide Inv, Leads, PanicsNext, ProcessContract, CheckAcceptability, PairOf, Between, Bound;
    LiveIsPooledIn(s, id);
    SegmentIsAcceptable(s, id, Syn, false);
    var h, tcp := s.streams[id].handle, s.streams[id].shared.tcp;
    var syn, ack := Between(h, Syn, false), Between(h, NoControl, true);
    var tcp1 := tcp.(state := SynReceived, remote := syn.src);
    var tcp2 := tcp1.(state := Established, rx := [0]);
    SynContract(tcp, syn);
    var s1 := Receives(s, id, Syn, false, [], tcp1);
    LiveIsPooledIn(s1, id);
    AckContract(tcp1, ack);
    var s2 := Receives(s1, id, NoControl, true, [0], tcp2);
    t := ReadsByte(s2, id);
    LeadsTransitive(s, s1, s2);
    LeadsTransitive(s, s2, t);
  }
}
