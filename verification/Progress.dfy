/** Where the loop can be driven without a step of the application and without anything arriving from the
    network: to the dispatch of any scheduled handle. */
module Progress {
  import opened Prelude
  import opened Addresses
  import opened Tcp
  import opened ConnectionSpec
  import opened System
  import opened Ownership
  import opened Scheduling
  import opened LoopDiscipline
  import opened NonInterference
  import opened Runs

  /** A step of the loop or the clock that takes nothing from the device. */
  predicate ByLoop(e: Event) {
    !ByApplication(e) && !e.SelectRead?
  }

  predicate LoopRun(run: seq<Event>) {
    forall i :: 0 <= i < |run| ==> ByLoop(run[i])
  }

  /** The picked handle can be dispatched without a panic, or is `h` itself. */
  predicate PickAllows(s: State, h: Handle) {
    s.io.nextPoll.Some? ==> s.io.nextPoll.value.handle == h || s.io.nextPoll.value.handle in s.pool
  }

  /** The next step is the dispatch of `h`. */
  predicate AboutToDispatch(s: State, h: Handle) {
    s.io.phase == AtHead && DispatchTarget(s.io) == Some(h)
  }

  ghost predicate Drivable(s: State, h: Handle) {
    Owned(s) && LoopOk(s) && Scheduled(s, h) && PickAllows(s, h)
  }

  // ---- What stays while the loop is driven ----

  /** The stream's bytes, halves and history are the same, and its socket at most closed. */
  predicate KeptStream(st: Stream, st': Stream) {
    && st'.handle == st.handle && st'.readerLive == st.readerLive && st'.writerLive == st.writerLive
    && st'.accepted == st.accepted && st'.delivered == st.delivered && st'.lost == st.lost
    && st'.eofReached == st.eofReached
    && st'.shared.tcp.rx == st.shared.tcp.rx && st'.shared.tcp.tx == st.shared.tcp.tx
    && (st'.shared.tcp.state == st.shared.tcp.state || st'.shared.tcp.state == CloseState(st.shared.tcp.state))
  }

  /** No handle enters the pool, and the connection of `h` stays. */
  predicate Kept(s: State, s': State, h: Handle) {
    && s'.pool.Keys <= s.pool.Keys
    && (Known(s, h) ==>
          && Known(s', h) && s'.pool[h].id == s.pool[h].id
          && KeptStream(s.streams[s.pool[h].id], s'.streams[s.pool[h].id]))
  }

  lemma KeptTransitive(s: State, t: State, u: State, h: Handle)
    requires Kept(s, t, h) && Kept(t, u, h)
    ensures Kept(s, u, h)
  {
  }

  /** The engine does nothing that it need not do. */
  predicate Rests(s: State, e: Event)
    requires Enabled(s, e)
  {
    match e
    case Process(text, reply, after) =>
      text == [] && reply.None? && (Known(s, s.io.phase.h) ==> after == SharedOf(s, s.io.phase.h).tcp)
    case HandleClose(after) =>
      Known(s, s.io.phase.close.0) ==>
        var tcp := SharedOf(s, s.io.phase.close.0).tcp; after == tcp.(state := CloseState(tcp.state))
    case _ => true
  }

  lemma ProcessKeeps(s: State, h: Handle, after: Socket)
    requires Known(s, h) && after == SharedOf(s, h).tcp
    ensures Kept(s, ProcessConnection(s, h, [], after), h)
  {
    hide QueueAfterProcess;
    var st := s.streams[s.pool[h].id];
    assert st.accepted + [] == st.accepted;
  }

  lemma DropHalfKeeps(s: State, h: Handle, half: Half, after: Socket)
    requires Known(s, h)
    requires var tcp := SharedOf(s, h).tcp; after == tcp.(state := CloseState(tcp.state))
    ensures Kept(s, DropHalf(s, h, half, after), h)
  {
    hide QueueAfterDropHalf;
  }

  lemma SameKept(s: State, t: State, s': State, h: Handle)
    requires Kept(s, t, h) && s'.streams == t.streams && s'.pool == t.pool
    ensures Kept(s, s', h)
  {
  }

  lemma PoolShrinks(s: State, e: Event)
    requires Owned(s) && Enabled(s, e) && ByLoop(e) && Next(s, e).Running?
    ensures Next(s, e).state.pool.Keys <= s.pool.Keys
  {
    hide Owned, NextHead, NextProcess, NextHandleClose, NextHandleUpdate, DispatchConnection, ProcessConnection,
      DropHalf, Acceptable, QueueSend;
    match e
    case Head(emission, after) =>
      HeadCases(s, emission, after);
      if DispatchTarget(s.io).Some? { DispatchFrame(TakePoll(s), DispatchTarget(s.io).value, emission, after); }
    case Process(text, reply, after) =>
      ProcessCases(s, text, reply, after);
      if Acceptable(s) { ProcessFrame(s, s.io.phase.h, text, after); }
    case HandleClose(after) =>
      HandleCloseCases(s, after);
      DropHalfFrame(s, s.io.phase.close.0, s.io.phase.close.1, after);
    case HandleUpdate => HandleUpdateCases(s);
    case Expire(_) =>
    case _ => QuietCases(s, e);
  }

  /** A step of the loop that is not about `h` leaves its connection alone, and one that is does what it must. */
  lemma StepKeeps(s: State, e: Event, h: Handle)
    requires Owned(s) && Enabled(s, e) && ByLoop(e) && Rests(s, e) && Next(s, e).Running?
    requires e.Head? ==> DispatchTarget(s.io) != Some(h)
    ensures Kept(s, Next(s, e).state, h)
  {
    hide Owned, NextHead, NextProcess, NextHandleClose, NextHandleUpdate, ProcessConnection, DropHalf, Acceptable,
      QueueSend, KeptStream;
    PoolShrinks(s, e);
    var s' := Next(s, e).state;
    if h in s.pool && Subject(s, e) != Some(h) {
      StepsTouchTheirSubject(s, e, h);
      StreamKept(s.streams[s.pool[h].id]);
    } else if h in s.pool {
      SubjectKeeps(s, e, h);
    }
  }

  lemma StreamKept(st: Stream)
    ensures KeptStream(st, st)
  {
  }

  lemma SubjectKeeps(s: State, e: Event, h: Handle)
    requires Owned(s) && Enabled(s, e) && ByLoop(e) && Rests(s, e) && Next(s, e).Running?
    requires Subject(s, e) == Some(h) && !e.Head?
    ensures Kept(s, Next(s, e).state, h)
  {
    hide Owned, NextProcess, NextHandleClose, NextHandleUpdate, ProcessConnection, DropHalf, Acceptable, QueueSend, KeptStream;
    var s' := Next(s, e).state;
    assert Kept(s, s, h) by {
      if Known(s, h) { StreamKept(s.streams[s.pool[h].id]); }
    }
    match e
    case Process(text, reply, after) =>
      ProcessCases(s, text, reply, after);
      if Acceptable(s) {
        ProcessKeeps(s, h, after);
        SameKept(s, ProcessConnection(s, h, text, after), s', h);
      } else {
        SameKept(s, s, s', h);
      }
    case HandleClose(after) =>
      HandleCloseCases(s, after);
      DropHalfKeeps(s, h, s.io.phase.close.1, after);
      SameKept(s, DropHalf(s, h, s.io.phase.close.1, after), s', h);
    case HandleUpdate =>
      HandleUpdateCases(s);
      SameKept(s, s, s', h);
    case Expire(_) => SameKept(s, s, s', h);
  }

  // ---- One step nearer ----

  /** Messages still to be handled; one in the loop's hands is half done. */
  function Messages(s: State): nat {
    2 * |s.closes| + 2 * |s.updates| + if s.io.phase.HandlingClose? || s.io.phase.HandlingUpdate? then 1 else 0
  }

  /** What the loop still has to get through before it can turn to the queue. */
  function Backlog(s: State): nat {
    2 * |s.io.replies| + (if s.io.slotA.Some? then 1 else 0) + (if s.io.nextPoll.Some? then 1 else 0)
  }

  function PhaseRank(phase: Phase): nat {
    match phase
    case Waiting(Start) => 0
    case Waiting(_) => 1
    case AtHead => 2
    case _ => 3
  }

  predicate Closer(s: State, s': State) {
    Messages(s') < Messages(s) || (Messages(s') == Messages(s) && (Backlog(s') < Backlog(s) ||
      (Backlog(s') == Backlog(s) && PhaseRank(s'.io.phase) < PhaseRank(s.io.phase))))
  }

  /** The step is possible, keeps `h` scheduled and brings its dispatch nearer. */
  ghost predicate Nearer(s: State, e: Event, h: Handle) {
    && Enabled(s, e) && ByLoop(e) && Rests(s, e) && Next(s, e).Running?
    && (e.Head? ==> DispatchTarget(s.io) != Some(h))
    && Scheduled(Next(s, e).state, h) && PickAllows(Next(s, e).state, h) && Closer(s, Next(s, e).state)
  }

  /** The engine may always leave a socket as it is. */
  lemma EngineMayRest(tcp: Socket, seg: Segment)
    requires tcp.Valid()
    ensures ProcessContract(tcp, seg, [], tcp) && DispatchContract(tcp, tcp)
    ensures CloseContract(tcp, tcp.(state := CloseState(tcp.state)))
  {
    assert tcp.rx + [] == tcp.rx && tcp.tx[0..] == tcp.tx;
  }

  lemma PooledIsValid(s: State, h: Handle)
    requires Owned(s) && h in s.pool
    ensures Known(s, h) && SharedOf(s, h).tcp.Valid()
  {
    hide TokensConserved, HalvesArePooled;
  }

  lemma ProcessNearer(s: State, h: Handle) returns (e: Event)
    requires Drivable(s, h) && s.io.phase.Handling?
    ensures Nearer(s, e, h)
  {
    hide Owned, Announced, ProcessConnection, ProcessContract, Acceptable, PacketsConserved, MessagesConserved, RepliesOk;
    var k := s.io.phase.h;
    PooledIsValid(s, k);
    var tcp := SharedOf(s, k).tcp;
    EngineMayRest(tcp, s.io.phase.seg);
    e := Process([], None, tcp);
    ProcessFrame(s.(io := s.io.(slotB := true, phase := AtHead)), k, [], tcp);
  }

  /** The dispatch of another handle takes the pick out of the way. */
  lemma OtherDispatchNearer(s: State, h: Handle, k: Handle) returns (e: Event)
    requires Drivable(s, h) && AboutToDispatch(s, k) && k != h
    ensures Nearer(s, e, h)
  {
    hide Owned, Announced, DispatchConnection, DispatchContract, PopReplies, PacketsConserved, MessagesConserved, RepliesOk;
    PooledIsValid(s, k);
    var tcp := SharedOf(s, k).tcp;
    EngineMayRest(tcp, Segment(NO_ENDPOINT, NO_ENDPOINT, NoControl, false));
    e := Head(EmitFailed, tcp);
    DispatchFrame(TakePoll(s), k, EmitFailed, tcp);
    assert |PopReplies(s.io.replies).1| <= |s.io.replies| by { RepliesShrink(s.io); }
  }

  lemma RepliesShrink(io: Io)
    requires RepliesOk(io)
    ensures PopReplies(io.replies).0 == [] <==> io.replies == []
    ensures |PopReplies(io.replies).1| == if io.replies == [] then 0 else |io.replies| - 1
  {
    PopTakesLast(io.replies);
  }

  lemma HeadNearer(s: State, h: Handle) returns (e: Event)
    requires Drivable(s, h) && s.io.phase == AtHead && DispatchTarget(s.io) != Some(h)
    ensures Nearer(s, e, h)
  {
    if DispatchTarget(s.io).Some? {
      hide *;
      e := OtherDispatchNearer(s, h, DispatchTarget(s.io).value);
    } else {
      RepliesShrink(s.io);
      hide Owned, Announced, DispatchConnection, DispatchContract, PopReplies, PacketsConserved, MessagesConserved, RepliesOk;
      e := Head(EmitFailed, Listening(NO_ENDPOINT));
    }
  }

  lemma SelectNearer(s: State, h: Handle) returns (e: Event)
    requires Drivable(s, h) && s.io.phase.Waiting?
    requires s.io.phase.scan != Start || s.io.slotA.Some? || s.closes != []
    ensures Nearer(s, e, h)
  {
    hide Owned, Announced, PacketsConserved, MessagesConserved, RepliesOk;
    e := if s.io.phase.scan != Start then Rescan else if s.io.slotA.Some? then SelectWritten else SelectClose;
  }

  lemma HandleCloseNearer(s: State, h: Handle) returns (e: Event)
    requires Drivable(s, h) && s.io.phase.HandlingClose?
    ensures Nearer(s, e, h)
  {
    hide Owned, Announced, DropHalf, CloseContract, PacketsConserved, MessagesConserved, RepliesOk;
    var m := s.io.phase.close;
    CloseMessageIsForPooledHandle(s);
    PooledIsValid(s, m.0);
    var tcp := SharedOf(s, m.0).tcp;
    EngineMayRest(tcp, Segment(NO_ENDPOINT, NO_ENDPOINT, NoControl, false));
    var after := tcp.(state := CloseState(tcp.state));
    e := HandleClose(after);
    DropHalfFrame(s, m.0, m.1, after);
  }

  lemma HandleUpdateNearer(s: State, h: Handle) returns (e: Event)
    requires Drivable(s, h) && s.io.phase.HandlingUpdate?
    ensures Nearer(s, e, h)
  {
    hide Owned, Announced, PacketsConserved, MessagesConserved, RepliesOk;
    e := HandleUpdate;
    HandleUpdateCases(s);
    AnnouncedPop(PendingUpdates(s));
  }

  // ---- All the way ----

  lemma InvariantStep(s: State, e: Event)
    requires Owned(s) && LoopOk(s) && Enabled(s, e) && Next(s, e).Running?
    ensures Owned(Next(s, e).state) && LoopOk(Next(s, e).state)
  {
    hide Owned, LoopOk, Next, Enabled;
    OwnedPreserved(s, e);
    LoopOkPreserved(s, e);
  }

  lemma LoopRunsCompose(a: seq<Event>, b: seq<Event>)
    requires LoopRun(a) && LoopRun(b)
    ensures LoopRun(a + b)
  {
  }

  /** A loop run from `s` that stops where the next step is the dispatch of `h`. */
  ghost predicate Drive(s: State, run: seq<Event>, t: State, h: Handle) {
    LoopRun(run) && Exec(s, run) == Running(t) && Owned(t) && LoopOk(t) && AboutToDispatch(t, h) && Kept(s, t, h)
  }

  lemma DriveOn(s: State, e: Event, rest: seq<Event>, t: State, h: Handle)
    requires Enabled(s, e) && ByLoop(e) && Next(s, e).Running?
    requires Kept(s, Next(s, e).state, h) && Drive(Next(s, e).state, rest, t, h)
    ensures Drive(s, [e] + rest, t, h)
  {
    hide Next, Enabled, Owned, LoopOk, Exec, AboutToDispatch, Kept;
    ExecStep(s, e, rest);
    KeptTransitive(s, Next(s, e).state, t, h);
  }

  /** With every update handled but one in the channel, the selector takes it. */
  lemma TakeUpdate(s: State, h: Handle)
    requires Drivable(s, h) && s.io.phase == Waiting(Start) && s.closes == [] && s.updates != []
    ensures Enabled(s, ScanCloses) && Next(s, ScanCloses) == Running(ToPhase(s, Waiting(ClosesSeenEmpty)))
    ensures var s1 := ToPhase(s, Waiting(ClosesSeenEmpty));
            && Enabled(s1, SelectUpdate) && Next(s1, SelectUpdate) == Running(NextSelectUpdate(s1))
            && Drivable(NextSelectUpdate(s1), h) && Closer(s, NextSelectUpdate(s1))
            && Kept(s, s1, h) && Kept(s1, NextSelectUpdate(s1), h)
  {
    hide Owned, Announced, LoopOk;
    var s1 := ToPhase(s, Waiting(ClosesSeenEmpty));
    InvariantStep(s, ScanCloses);
    SlotsAreFull(s1);
    InvariantStep(s1, SelectUpdate);
    QuietCases(s1, SelectUpdate);
  }

  lemma SlotsAreFull(s: State)
    requires LoopOk(s) && s.io.phase.Waiting?
    ensures s.io.slotB && s.io.slotC && s.io.slotD
  {
  }

  lemma NothingElseToDo(s: State, h: Handle)
    requires Drivable(s, h) && s.io.phase == Waiting(Start) && s.io.slotA.None? && s.closes == [] && s.updates == []
    ensures h in s.queue && s.io.writing == Some([]) && s.io.replies == [] && s.io.nextPoll.None?
  {
    assert Announced(s.updates) == {};
  }

  lemma PickedIsNext(s: State, h: Handle)
    requires h in s.queue && s.io.writing == Some([]) && s.io.replies == []
    ensures AboutToDispatch(NextExpire(s, h), h)
  {
  }

  /** With no message left and the writer idle, the selector looks at both channels, time passes until the
      handle is due, and it is picked. */
  lemma ExpiryRun(s: State, h: Handle) returns (run: seq<Event>, t: State)
    requires Drivable(s, h) && s.io.phase == Waiting(Start) && s.io.slotA.None? && s.closes == [] && s.updates == []
    ensures Drive(s, run, t, h)
  {
    NothingElseToDo(s, h);
    hide Owned, LoopOk, Scheduled, AboutToDispatch, KeptStream, Exec;
    var s1, s2 := ToPhase(s, Waiting(ClosesSeenEmpty)), ToPhase(s, Waiting(AllSeenPending));
    var tick := Tick(s.queue[h]);
    var s3 := s2.(now := s.now + s.queue[h]);
    t := NextExpire(s3, h);
    PickedIsNext(s3, h);
    ScanSteps(s, s.queue[h]);
    assert Enabled(s3, Expire(h)) && Next(s3, Expire(h)) == Running(t);
    hide Next, Enabled, LoopRun;
    LoopRun4(ScanCloses, ScanUpdates, tick, Expire(h));
    InvariantRun4(s, ScanCloses, s1, ScanUpdates, s2, tick, s3, Expire(h), t);
    if Known(s, h) { StreamKept(s.streams[s.pool[h].id]); }
    run := [ScanCloses] + ([ScanUpdates] + ([tick] + [Expire(h)]));
  }

  lemma LoopRun4(e0: Event, e1: Event, e2: Event, e3: Event)
    requires ByLoop(e0) && ByLoop(e1) && ByLoop(e2) && ByLoop(e3)
    ensures LoopRun([e0] + ([e1] + ([e2] + [e3])))
  {
  }

  lemma ScanSteps(s: State, nanos: nat)
    requires s.io.phase == Waiting(Start) && s.closes == [] && s.updates == []
    ensures var s1, s2 := ToPhase(s, Waiting(ClosesSeenEmpty)), ToPhase(s, Waiting(AllSeenPending));
            && Enabled(s, ScanCloses) && Next(s, ScanCloses) == Running(s1)
            && Enabled(s1, ScanUpdates) && Next(s1, ScanUpdates) == Running(s2)
            && Enabled(s2, Tick(nanos)) && Next(s2, Tick(nanos)) == Running(s2.(now := s.now + nanos))
  {
  }

  lemma InvariantRun4(s: State, e0: Event, s1: State, e1: Event, s2: State, e2: Event, s3: State, e3: Event, t: State)
    requires Owned(s) && LoopOk(s)
    requires Enabled(s, e0) && Next(s, e0) == Running(s1) && Enabled(s1, e1) && Next(s1, e1) == Running(s2)
    requires Enabled(s2, e2) && Next(s2, e2) == Running(s3) && Enabled(s3, e3) && Next(s3, e3) == Running(t)
    ensures Owned(t) && LoopOk(t) && Exec(s, [e0] + ([e1] + ([e2] + [e3]))) == Running(t)
  {
    hide Next, Enabled, Owned, LoopOk, Exec;
    InvariantStep(s, e0);
    InvariantStep(s1, e1);
    InvariantStep(s2, e2);
    InvariantStep(s3, e3);
    ExecLast(s3, e3);
    ExecStep(s2, e2, [e3]);
    ExecStep(s1, e1, [e2] + [e3]);
    ExecStep(s, e0, [e1] + ([e2] + [e3]));
  }

  /** From any state that keeps the invariants, every scheduled handle can be brought to its dispatch by the loop
      and the clock alone, unless a picked handle without a connection is in the way. */
  lemma {:induction false} DispatchFollows(s: State, h: Handle) returns (run: seq<Event>, t: State)
    requires Drivable(s, h)
    ensures Drive(s, run, t, h)
    decreases Messages(s), Backlog(s), PhaseRank(s.io.phase)
  {
    hide Owned, LoopOk, Next, Enabled, Scheduled, Kept, Exec, PickAllows;
    if AboutToDispatch(s, h) {
      run, t := [], s;
      DriveNowhere(s, h);
    } else if s.io.phase == Waiting(Start) && s.io.slotA.None? && s.closes == [] {
      if s.updates == [] {
        run, t := ExpiryRun(s, h);
      } else {
        TakeUpdate(s, h);
        var s1 := ToPhase(s, Waiting(ClosesSeenEmpty));
        var rest;
        rest, t := DispatchFollows(NextSelectUpdate(s1), h);
        DriveOn(s1, SelectUpdate, rest, t, h);
        DriveOn(s, ScanCloses, [SelectUpdate] + rest, t, h);
        run := [ScanCloses] + ([SelectUpdate] + rest);
      }
    } else {
      var e: Event;
      match s.io.phase {
        case Handling(_, _) => e := ProcessNearer(s, h);
        case AtHead => e := HeadNearer(s, h);
        case Waiting(_) => e := SelectNearer(s, h);
        case HandlingClose(_) => e := HandleCloseNearer(s, h);
        case HandlingUpdate(_) => e := HandleUpdateNearer(s, h);
      }
      var s' := Next(s, e).state;
      InvariantStep(s, e);
      StepKeeps(s, e, h);
      var rest;
      rest, t := DispatchFollows(s', h);
      DriveOn(s, e, rest, t, h);
      run := [e] + rest;
    }
  }

  lemma DriveNowhere(s: State, h: Handle)
    requires Owned(s) && LoopOk(s) && AboutToDispatch(s, h)
    ensures Drive(s, [], s, h)
  {
    hide Owned, LoopOk, KeptStream;
    if Known(s, h) { StreamKept(s.streams[s.pool[h].id]); }
  }

  // ---- The picked handle ----

  /** A picked handle stays picked until the head of the loop dispatches it. */
  lemma PickedIsNeverLost(s: State, e: Event)
    requires Enabled(s, e) && Next(s, e).Running? && s.io.nextPoll.Some?
    ensures Next(s, e).state.io.nextPoll == s.io.nextPoll || (e.Head? && DispatchTarget(s.io) == Some(s.io.nextPoll.value.handle))
  {
    hide NextHead, NextProcess, NextHandleClose, NextHandleUpdate, NextSelectRead, DispatchConnection, ProcessConnection,
      CreateStream, RouteOf, Acceptable, QueueSend;
    match e
    case Head(emission, after) => HeadCases(s, emission, after);
    case SelectRead(frame, id, listens, delivered) =>
      SelectReadCases(s, frame, id, listens, delivered);
      var route := RouteOf(s.pool.Keys, frame);
      if route.New? { CreateFrame(s, id, route.h, delivered); }
    case Process(text, reply, after) =>
      ProcessCases(s, text, reply, after);
      if Acceptable(s) { ProcessFrame(s, s.io.phase.h, text, after); }
    case HandleClose(after) => HandleCloseCases(s, after);
    case HandleUpdate => HandleUpdateCases(s);
    case _ =>
      if Quiet(e) { QuietCases(s, e); }
  }

  /** The `i`th step of the run is a head of the loop that dispatches the handle. */
  ghost predicate DispatchedAt(s: State, run: seq<Event>, i: nat, h: Handle) {
    && i < |run| && run[i].Head?
    && Exec(s, run[..i]).Running? && DispatchTarget(Exec(s, run[..i]).state.io) == Some(h)
  }

  ghost predicate DispatchedIn(s: State, run: seq<Event>, h: Handle) {
    exists i: nat :: DispatchedAt(s, run, i, h)
  }

  /** Over a whole run a picked handle is still picked, or has been dispatched. */
  lemma {:induction false} PickedUntilDispatched(s: State, run: seq<Event>)
    requires s.io.nextPoll.Some? && Exec(s, run).Running?
    ensures Exec(s, run).state.io.nextPoll == s.io.nextPoll ||
            DispatchedIn(s, run, s.io.nextPoll.value.handle)
  {
    hide Next, Enabled, DispatchTarget;
    if run != [] {
      var n := |run| - 1;
      var before, h := run[..n], s.io.nextPoll.value.handle;
      PickedUntilDispatched(s, before);
      if i: nat :| DispatchedAt(s, before, i, h) {
        assert run[..i] == before[..i];
        assert DispatchedAt(s, run, i, h);
      } else {
        PickedIsNeverLost(Exec(s, before).state, run[n]);
        assert Exec(s, run).state.io.nextPoll == s.io.nextPoll || DispatchedAt(s, run, n, h);
      }
    }
  }

  // ---- When it cannot be driven there ----

  /** A picked handle without a connection. */
  predicate Stuck(s: State, k: Handle) {
    s.io.nextPoll.Some? && s.io.nextPoll.value.handle == k && k !in s.pool
  }

  lemma StuckStep(s: State, e: Event, k: Handle)
    requires Owned(s) && Enabled(s, e) && ByLoop(e) && Next(s, e).Running? && Stuck(s, k)
    ensures Stuck(Next(s, e).state, k)
  {
    PoolShrinks(s, e);
    PickedIsNeverLost(s, e);
    hide Owned, NextHead, DispatchConnection;
    if e.Head? {
      HeadCases(s, e.emission, e.after);
    }
  }

  /** It stays in the way of every other handle for as long as the loop is alone. */
  lemma {:induction false} StuckStays(s: State, run: seq<Event>, k: Handle)
    requires Owned(s) && LoopOk(s) && Stuck(s, k) && LoopRun(run) && Exec(s, run).Running?
    ensures Stuck(Exec(s, run).state, k) && Owned(Exec(s, run).state) && LoopOk(Exec(s, run).state)
  {
    hide Owned, LoopOk, Next, Enabled, Stuck;
    if run != [] {
      var n := |run| - 1;
      StuckStays(s, run[..n], k);
      var t := Exec(s, run[..n]).state;
      InvariantStep(t, run[n]);
      StuckStep(t, run[n], k);
    }
  }

  /** A handle that is scheduled without a connection. */
  ghost predicate Doomed(s: State, h: Handle) {
    Owned(s) && LoopOk(s) && h !in s.pool && Scheduled(s, h)
  }

  lemma DispatchPanics(s: State, h: Handle)
    requires LoopOk(s) && AboutToDispatch(s, h) && h !in s.pool
    ensures var e := Head(EmitFailed, Listening(NO_ENDPOINT));
            Enabled(s, e) && Next(s, e) == Panicked(DispatchAfterDrop)
  {
    hide DispatchContract, PopReplies, PacketsConserved, MessagesConserved, RepliesOk;
  }

  /** From any doomed state the loop can be driven into the panic. */
  lemma PanicFollows(s: State, h: Handle) returns (run: seq<Event>)
    requires Doomed(s, h)
    ensures Exec(s, run) == Panicked(DispatchAfterDrop)
  {
    hide Owned, LoopOk, Exec, Next, Enabled, Announced, AboutToDispatch;
    var k := if PickAllows(s, h) then h else s.io.nextPoll.value.handle;
    var drive, t := DispatchFollows(s, k);
    DispatchPanics(t, k);
    var last := Head(EmitFailed, Listening(NO_ENDPOINT));
    ExecLast(t, last);
    ExecComposes(s, drive, [last]);
    run := drive + [last];
  }
}
