/** Concrete runs on which properties one would expect fail. */
module Counterexamples {
  import opened Prelude
  import opened Addresses
  import opened Tcp
  import opened Time
  import opened Acceptability
  import opened ConnectionSpec
  import opened System
  import opened Ownership
  import opened Scheduling
  import opened LoopDiscipline
  import opened Histories
  import opened Agreement
  import opened Runs
  import opened Losses

  const PEER := Endpoint(V4([10, 0, 0, 1]), 5000)
  const LOCAL := Endpoint(V4([10, 0, 0, 2]), 80)
  const KEY := AddrPair(SocketV4([10, 0, 0, 1], 5000), SocketV4([10, 0, 0, 2], 80))

  const SYN := Segment(PEER, LOCAL, Syn, false)
  const ACK := Segment(PEER, LOCAL, NoControl, true)
  const FIN := Segment(PEER, LOCAL, Fin, true)
  const RST := Segment(PEER, LOCAL, Rst, false)

  // ---- Scenes: states with one connection ----

  /** A state in which one connection has been opened, stream 0 under the key. */
  datatype Scene = Scene(
    now: nat,
    stream: Stream,
    flags: Flags,
    due: Option<nat>,
    closes: seq<CloseMessage>,
    updates: seq<PollUpdate>,
    io: Io,
    log: Log)

  function QueueOf(due: Option<nat>): Queue {
    if due.None? then map[] else map[KEY := due.value]
  }

  function StateOf(c: Scene): State {
    State(Clock(0), c.now, map[0 := c.stream], map[KEY := Entry(0, c.flags)], QueueOf(c.due), c.closes, c.updates, c.io, c.log)
  }

  /** The scene's deadline after `at` has been sent to the queue. */
  function Due(due: Option<nat>, at: PollAt): Option<nat> {
    match at
    case Now => Some(Clock(0).Origin())
    case Time(millis) => Some(Clock(0).Resolve(millis))
    case Ingress => due
  }

  ghost predicate Reached(c: Scene) {
    Reachable(StateOf(c))
  }

  lemma ReachStep(s: State, e: Event, s': State)
    requires Reachable(s) && Enabled(s, e) && Next(s, e) == Running(s')
    ensures Reachable(s')
  {
    hide Next, Enabled;
    var start: nat, run: seq<Event> :| Exec(Init(start), run) == Running(s);
    assert (run + [e])[..|run + [e]| - 1] == run;
    assert Exec(Init(start), run + [e]) == Running(s');
  }

  lemma SceneStep(c: Scene, e: Event, c': Scene)
    requires Reached(c) && Enabled(StateOf(c), e) && Next(StateOf(c), e) == Running(StateOf(c'))
    ensures Reached(c')
  {
    hide Next, Enabled, Reachable;
    ReachStep(StateOf(c), e, StateOf(c'));
  }

  lemma DueIsSent(due: Option<nat>, at: PollAt)
    ensures QueueSend(Clock(0), QueueOf(due), KEY, at) == QueueOf(Due(due, at))
  {
  }

  lemma KeyOfSegments()
    ensures PairOf(PEER, LOCAL) == Ok(KEY) && ToEndpoint(KEY.local) == LOCAL && LOCAL.addr.WellFormed() && PEER.addr.WellFormed()
  {
  }

  // ---- Steps of scenes ----

  predicate Busy(c: Scene) {
    c.io.writing.None?
  }

  predicate NothingToWrite(c: Scene) {
    c.io.writing == Some([]) && c.io.replies == [] && c.io.nextPoll.None?
  }

  /** While a write is in progress, or nothing is to be written, the head of the loop does nothing. */
  lemma Idle(c: Scene) returns (c': Scene)
    requires Reached(c) && c.io.phase == AtHead && c.io.slotB && (Busy(c) || NothingToWrite(c))
    ensures Reached(c') && c' == c.(io := c.io.(phase := Waiting(Start)))
  {
    hide Reached, DispatchConnection;
    c' := c.(io := c.io.(phase := Waiting(Start)));
    SceneStep(c, Head(EmitFailed, Listening(LOCAL)), c');
  }

  lemma FrameTaken(c: Scene, seg: Segment) returns (c': Scene)
    requires Reached(c) && c.io.phase == Waiting(Start) && c.io.slotB
    requires seg.src == PEER && seg.dst == LOCAL && !(seg.control == Syn && seg.hasAck)
    ensures Reached(c') && c' == c.(io := c.io.(slotB := false, phase := Handling(seg, KEY)))
  {
    hide Reached, PairOf;
    KeyOfSegments();
    c' := c.(io := c.io.(slotB := false, phase := Handling(seg, KEY)));
    SceneStep(c, SelectRead(Frame.Tcp(seg), 1, true, true), c');
  }

  predicate NobodyAsleep(c: Scene) {
    c.stream.shared.reader == NO_WAKER && c.stream.shared.writer == NO_WAKER
  }

  lemma Processed(c: Scene, text: seq<u8>, after: Socket) returns (c': Scene)
    requires Reached(c) && c.io.phase.Handling? && c.io.phase.h == KEY && !c.io.slotB
    requires NobodyAsleep(c) && c.flags == Flags(false, false)
    requires CheckAcceptability(c.stream.shared.tcp, c.io.phase.seg).Ok?
    requires ProcessContract(c.stream.shared.tcp, c.io.phase.seg, text, after) && after.tx == c.stream.shared.tcp.tx
    ensures Reached(c')
    ensures c' == c.(stream := c.stream.(shared := c.stream.shared.(tcp := after), accepted := c.stream.accepted + text),
                     due := Due(c.due, after.PollAt()), io := c.io.(slotB := true, phase := AtHead))
  {
    hide Reached, CheckAcceptability, ProcessContract, QueueSend, QueueOf, Due;
    c' := c.(stream := c.stream.(shared := c.stream.shared.(tcp := after), accepted := c.stream.accepted + text),
             due := Due(c.due, after.PollAt()), io := c.io.(slotB := true, phase := AtHead));
    DueIsSent(c.due, after.PollAt());
    assert c.stream.acked + [] == c.stream.acked;
    assert StateOf(c).streams[0 := c'.stream] == StateOf(c').streams;
    SceneStep(c, Process(text, None, after), c');
  }

  lemma TimePasses(c: Scene, nanos: nat) returns (c': Scene)
    requires Reached(c)
    ensures Reached(c') && c' == c.(now := c.now + nanos)
  {
    hide Reached;
    c' := c.(now := c.now + nanos);
    SceneStep(c, Tick(nanos), c');
  }

  lemma Expired(c: Scene) returns (c': Scene)
    requires Reached(c) && c.io.phase == Waiting(AllSeenPending) && c.io.nextPoll.None? && c.due.Some? && c.due.value <= c.now
    ensures Reached(c')
    ensures c' == c.(due := None, io := c.io.(phase := AtHead, nextPoll := Some(Picked(KEY, c.due.value, c.flags.Both()))))
  {
    hide Reached;
    c' := c.(due := None, io := c.io.(phase := AtHead, nextPoll := Some(Picked(KEY, c.due.value, c.flags.Both()))));
    assert NextExpire(StateOf(c), KEY) == StateOf(c');
    SceneStep(c, Expire(KEY), c');
  }

  lemma PickedUp(c: Scene) returns (c': Scene)
    requires Reached(c) && c.io.phase == Waiting(Start) && c.closes == [] && c.updates == []
    requires c.io.nextPoll.None? && c.due.Some? && c.due.value <= c.now
    ensures Reached(c')
    ensures c' == c.(due := None, io := c.io.(phase := AtHead, nextPoll := Some(Picked(KEY, c.due.value, c.flags.Both()))))
  {
    hide Reached, QueueOf;
    var c1 := c.(io := c.io.(phase := Waiting(ClosesSeenEmpty)));
    var c2 := c.(io := c.io.(phase := Waiting(AllSeenPending)));
    SceneStep(c, ScanCloses, c1);
    SceneStep(c1, ScanUpdates, c2);
    c' := Expired(c2);
  }

  /** The picked handle is dispatched and the engine sends a packet. */
  lemma Sent(c: Scene, packet: Packet, after: Socket) returns (c': Scene)
    requires Reached(c) && c.io.phase == AtHead && c.io.slotB && c.io.writing == Some([]) && c.io.replies == []
    requires c.io.slotA.None? && c.io.nextPoll.Some? && c.io.nextPoll.value.handle == KEY
    requires NobodyAsleep(c) && c.flags == Flags(false, false) && c.stream.lost == []
    requires packet.TcpPacket? && packet.origin == Dispatched
    requires DispatchContract(c.stream.shared.tcp, after)
    requires after.rx == c.stream.shared.tcp.rx && after.tx == c.stream.shared.tcp.tx
    ensures Reached(c')
    ensures c' == c.(stream := c.stream.(shared := c.stream.shared.(tcp := after, pollingActive := after.PollAt() == Now)),
                     due := Due(c.due, after.PollAt()),
                     io := c.io.(phase := Waiting(Start), nextPoll := None, writing := None, slotA := Some([packet])),
                     log := c.log.(produced := c.log.produced + multiset{packet}))
  {
    hide Reached, DispatchContract, QueueSend, QueueOf, Due;
    c' := c.(stream := c.stream.(shared := c.stream.shared.(tcp := after, pollingActive := after.PollAt() == Now)),
             due := Due(c.due, after.PollAt()),
             io := c.io.(phase := Waiting(Start), nextPoll := None, writing := None, slotA := Some([packet])),
             log := c.log.(produced := c.log.produced + multiset{packet}));
    SentState(c, packet, after, c');
    SceneStep(c, Head(Emitted(packet), after), c');
  }

  lemma SentState(c: Scene, packet: Packet, after: Socket, c': Scene)
    requires c.io.phase == AtHead && c.io.slotB && c.io.writing == Some([]) && c.io.replies == []
    requires c.io.slotA.None? && c.io.nextPoll.Some? && c.io.nextPoll.value.handle == KEY
    requires NobodyAsleep(c) && c.flags == Flags(false, false) && c.stream.lost == []
    requires packet.TcpPacket? && packet.origin == Dispatched
    requires after.rx == c.stream.shared.tcp.rx && after.tx == c.stream.shared.tcp.tx
    requires c' == c.(stream := c.stream.(shared := c.stream.shared.(tcp := after, pollingActive := after.PollAt() == Now)),
                      due := Due(c.due, after.PollAt()),
                      io := c.io.(phase := Waiting(Start), nextPoll := None, writing := None, slotA := Some([packet])),
                      log := c.log.(produced := c.log.produced + multiset{packet}))
    ensures NextHead(StateOf(c), Emitted(packet), after) == Running(StateOf(c'))
  {
    hide QueueSend, QueueOf, Due;
    DueIsSent(c.due, after.PollAt());
    assert multiset([packet]) == multiset{packet};
    var s := TakePoll(StateOf(c));
    assert DispatchConnection(s, KEY, Emitted(packet), after) ==
           s.(streams := StateOf(c').streams, queue := StateOf(c').queue) by {
      assert c.stream.lost + [] == c.stream.lost && c.stream.unsent + [] == c.stream.unsent;
      assert s.streams[0 := c'.stream] == StateOf(c').streams;
    }
    hide DispatchConnection;
  }

  lemma WriteDone(c: Scene) returns (c': Scene)
    requires Reached(c) && c.io.phase == Waiting(Start) && c.io.slotA.Some? && c.io.writing.None?
    ensures Reached(c')
    ensures c' == c.(io := c.io.(slotA := None, writing := Some([]), phase := AtHead),
                     log := c.log.(written := c.log.written + multiset(c.io.slotA.value)))
  {
    hide Reached;
    c' := c.(io := c.io.(slotA := None, writing := Some([]), phase := AtHead),
             log := c.log.(written := c.log.written + multiset(c.io.slotA.value)));
    SceneStep(c, SelectWritten, c');
  }

  lemma ReadEnded(c: Scene) returns (c': Scene)
    requires Reached(c) && c.stream.readerLive && !c.stream.eofReached && c.stream.readCall.None?
    requires !c.stream.shared.tcp.MayRecv() && c.stream.shared.tcp.state != SynReceived
    ensures Reached(c') && c' == c.(stream := c.stream.(eofReached := true))
  {
    hide Reached;
    c' := c.(stream := c.stream.(eofReached := true));
    var tcp := c.stream.shared.tcp;
    assert c.stream.delivered + [] == c.stream.delivered;
    assert NextRead(StateOf(c), 0, 1, 0, tcp).streams == StateOf(c').streams;
    SceneStep(c, ReadStream(0, 1, 0, tcp), c');
  }

  /** A write to a socket that may not send fails, and announces the handle all the same. */
  lemma WriteRefused(c: Scene) returns (c': Scene)
    requires Reached(c) && c.stream.writerLive && c.stream.handle == KEY
    requires !c.stream.shared.tcp.MaySend() && !c.stream.shared.pollingActive && c.stream.writeCall.None?
    ensures var m := (KEY, c.stream.shared.tcp.PollAt());
            Reached(c') && c' == c.(updates := c.updates + [m], log := c.log.(updatesSent := c.log.updatesSent + [m]))
  {
    hide Reached;
    var tcp := c.stream.shared.tcp;
    var m := (KEY, tcp.PollAt());
    c' := c.(updates := c.updates + [m], log := c.log.(updatesSent := c.log.updatesSent + [m]));
    assert c.stream.written + [] == c.stream.written;
    assert NextWrite(StateOf(c), 0, [1], tcp).streams == StateOf(c').streams;
    SceneStep(c, WriteStream(0, [1], tcp), c');
  }

  lemma ClosedByWriter(c: Scene, after: Socket) returns (c': Scene)
    requires Reached(c) && c.stream.writerLive && c.stream.handle == KEY && !c.stream.shared.pollingActive
    requires c.stream.writeCall.None?
    requires CloseContract(c.stream.shared.tcp, after)
    ensures var m := (KEY, after.PollAt());
            && Reached(c')
            && c' == c.(stream := c.stream.(shared := c.stream.shared.(tcp := after), writerClosed := true),
                        updates := c.updates + [m], log := c.log.(updatesSent := c.log.updatesSent + [m]))
  {
    hide Reached, CloseContract;
    var m := (KEY, after.PollAt());
    c' := c.(stream := c.stream.(shared := c.stream.shared.(tcp := after), writerClosed := true),
             updates := c.updates + [m], log := c.log.(updatesSent := c.log.updatesSent + [m]));
    assert NextClose(StateOf(c), 0, after).streams == StateOf(c').streams;
    SceneStep(c, CloseStream(0, after), c');
  }

  lemma WriterDropped(c: Scene) returns (c': Scene)
    requires Reached(c) && c.stream.writerLive && c.stream.handle == KEY
    ensures var m := (KEY, Write);
            && Reached(c')
            && c' == c.(stream := c.stream.(writerLive := false), closes := c.closes + [m],
                        log := c.log.(closesSent := c.log.closesSent + [m]))
  {
    hide Reached;
    var m := (KEY, Write);
    c' := c.(stream := c.stream.(writerLive := false), closes := c.closes + [m],
             log := c.log.(closesSent := c.log.closesSent + [m]));
    assert NextDrop(StateOf(c), 0, Write) == StateOf(c');
    SceneStep(c, DropWriter(0), c');
  }

  lemma ReaderDropped(c: Scene) returns (c': Scene)
    requires Reached(c) && c.stream.readerLive && c.stream.handle == KEY
    ensures var m := (KEY, Read);
            && Reached(c')
            && c' == c.(stream := c.stream.(readerLive := false), closes := c.closes + [m],
                        log := c.log.(closesSent := c.log.closesSent + [m]))
  {
    hide Reached;
    var m := (KEY, Read);
    c' := c.(stream := c.stream.(readerLive := false), closes := c.closes + [m],
             log := c.log.(closesSent := c.log.closesSent + [m]));
    assert NextDrop(StateOf(c), 0, Read) == StateOf(c');
    SceneStep(c, DropReader(0), c');
  }

  /** The scene after the close message in the loop's hands has been handled. */
  function AfterMark(c: Scene, after: Socket): Scene
    requires c.io.phase.HandlingClose?
  {
    var m := c.io.phase.close;
    var f := c.flags.Mark(m.1);
    var at := if f.Both() && after.PollAt() == Ingress then Now else after.PollAt();
    var c1 := if f.writerDropped
              then c.(stream := c.stream.(shared := c.stream.shared.(tcp := after)), due := Due(c.due, at)) else c;
    c1.(flags := f, io := c.io.(slotC := true, phase := AtHead), log := c.log.(closesHandled := c.log.closesHandled + [m]))
  }

  lemma CloseHandled(c: Scene, after: Socket)
    requires Reached(c) && c.io.phase.HandlingClose? && c.io.phase.close.0 == KEY && !c.io.slotC
    requires CloseContract(c.stream.shared.tcp, after)
    ensures Reached(AfterMark(c, after))
  {
    hide Reached, CloseContract, QueueSend, QueueOf, Due;
    var c', f := AfterMark(c, after), c.flags.Mark(c.io.phase.close.1);
    DueIsSent(c.due, if f.Both() && after.PollAt() == Ingress then Now else after.PollAt());
    assert StateOf(c).streams[0 := c'.stream] == StateOf(c').streams;
    assert StateOf(c).pool[KEY := Entry(0, f)] == StateOf(c').pool;
    SceneStep(c, HandleClose(after), c');
  }

  lemma CloseTaken(c: Scene, after: Socket) returns (c': Scene)
    requires Reached(c) && c.io.phase == Waiting(Start) && c.io.slotC && c.closes != [] && c.closes[0].0 == KEY
    requires CloseContract(c.stream.shared.tcp, after)
    ensures Reached(c')
    ensures c' == AfterMark(c.(closes := c.closes[1..], io := c.io.(slotC := false, phase := HandlingClose(c.closes[0]))), after)
  {
    hide Reached, CloseContract, AfterMark;
    var c1 := c.(closes := c.closes[1..], io := c.io.(slotC := false, phase := HandlingClose(c.closes[0])));
    SceneStep(c, SelectClose, c1);
    CloseHandled(c1, after);
    c' := AfterMark(c1, after);
  }

  lemma UpdateHandled(c: Scene) returns (c': Scene)
    requires Reached(c) && c.io.phase.HandlingUpdate? && c.io.phase.update.0 == KEY && !c.io.slotD
    ensures var m := c.io.phase.update;
            && Reached(c')
            && c' == c.(due := Due(c.due, m.1), io := c.io.(slotD := true, phase := AtHead),
                        log := c.log.(updatesHandled := c.log.updatesHandled + [m]))
  {
    hide Reached, QueueSend, QueueOf, Due;
    var m := c.io.phase.update;
    c' := c.(due := Due(c.due, m.1), io := c.io.(slotD := true, phase := AtHead),
             log := c.log.(updatesHandled := c.log.updatesHandled + [m]));
    DueIsSent(c.due, m.1);
    SceneStep(c, HandleUpdate, c');
  }

  lemma UpdateTaken(c: Scene) returns (c': Scene)
    requires Reached(c) && c.io.phase == Waiting(Start) && c.io.slotD && c.closes == []
    requires c.updates != [] && c.updates[0].0 == KEY
    ensures var m := c.updates[0];
            && Reached(c')
            && c' == c.(due := Due(c.due, m.1), updates := c.updates[1..], io := c.io.(phase := AtHead),
                        log := c.log.(updatesHandled := c.log.updatesHandled + [m]))
  {
    hide Reached, QueueOf, Due;
    var c1 := c.(io := c.io.(phase := Waiting(ClosesSeenEmpty)));
    var c2 := c.(updates := c.updates[1..], io := c.io.(slotD := false, phase := HandlingUpdate(c.updates[0])));
    SceneStep(c, ScanCloses, c1);
    SceneStep(c1, SelectUpdate, c2);
    c' := UpdateHandled(c2);
  }

  // ---- The handshake ----

  const LISTENING := Listening(LOCAL)
  const SYN_SEEN := LISTENING.(state := SynReceived, remote := PEER, txPoll := Now)
  const SYN_ACKED := SYN_SEEN.(txPoll := Time(1000))
  const ESTABLISHED := SYN_ACKED.(state := Established, rx := [7], txPoll := Ingress, ackPoll := Now)
  const SYN_ACK_PACKET := TcpPacket(Dispatched, 0)

  const OPENED := Scene(0, NewStream(KEY, true), Flags(false, false), None, [], [],
                        Init(0).io.(slotB := false, phase := Handling(SYN, KEY)), Init(0).log)

  lemma OpenedStep()
    ensures var s, e := ToPhase(Init(0), Waiting(Start)), SelectRead(Frame.Tcp(SYN), 0, true, true);
            Enabled(s, e) && Next(s, e) == Running(StateOf(OPENED))
  {
    hide PairOf;
    KeyOfSegments();
    var s := ToPhase(Init(0), Waiting(Start));
    assert CreateStream(s, 0, KEY, true).streams == StateOf(OPENED).streams;
    assert CreateStream(s, 0, KEY, true).pool == StateOf(OPENED).pool;
  }

  /** The stream is in the application's hands while its socket is still listening. */
  lemma OpenedIsReached()
    ensures Reached(OPENED)
  {
    assert Exec(Init(0), []) == Running(Init(0));
    assert Enabled(Init(0), Head(EmitFailed, LISTENING));
    assert Next(Init(0), Head(EmitFailed, LISTENING)) == Running(ToPhase(Init(0), Waiting(Start)));
    OpenedStep();
    hide Next, Enabled, Exec;
    ReachStep(Init(0), Head(EmitFailed, LISTENING), ToPhase(Init(0), Waiting(Start)));
    ReachStep(ToPhase(Init(0), Waiting(Start)), SelectRead(Frame.Tcp(SYN), 0, true, true), StateOf(OPENED));
  }

  /** A segment without text or acknowledged bytes may move the state and the timers. */
  lemma SilentSegment(tcp: Socket, seg: Segment, after: Socket)
    requires after.Valid() && Moves(tcp.state, after.state) && after.rx == tcp.rx && after.tx == tcp.tx
    requires after.local == tcp.local && after.remote in {tcp.remote, seg.src, NO_ENDPOINT}
    ensures ProcessContract(tcp, seg, [], after)
  {
    assert tcp.rx + [] == tcp.rx;
    assert tcp.tx[|tcp.tx| - |after.tx|..] == tcp.tx;
  }

  lemma TextContract()
    ensures CheckAcceptability(SYN_ACKED, ACK).Ok? && ProcessContract(SYN_ACKED, ACK, [7], ESTABLISHED)
  {
    assert SYN_ACKED.rx + [7] == [7];
    assert SYN_ACKED.tx[|SYN_ACKED.tx| - |ESTABLISHED.tx|..] == [];
  }

  lemma HandshakeContracts()
    ensures CheckAcceptability(LISTENING, SYN).Ok? && ProcessContract(LISTENING, SYN, [], SYN_SEEN)
    ensures DispatchContract(SYN_SEEN, SYN_ACKED)
    ensures CheckAcceptability(SYN_ACKED, RST).Ok? && ProcessContract(SYN_ACKED, RST, [], LISTENING)
  {
    SilentSegment(LISTENING, SYN, SYN_SEEN);
    SilentSegment(SYN_ACKED, RST, LISTENING);
    hide ProcessContract;
  }

  /** The SYN is processed, and the SYN-ACK is being written. */
  lemma SynAckGoesOut(c: Scene) returns (c': Scene)
    requires c == OPENED || c == OPENED.(stream := OPENED.stream.(eofReached := true))
    requires Reached(c)
    ensures Reached(c')
    ensures c' == c.(stream := c.stream.(shared := c.stream.shared.(tcp := SYN_ACKED)), due := Some(Clock(0).Resolve(1000)),
                     io := Init(0).io.(phase := Waiting(Start), writing := None, slotA := Some([SYN_ACK_PACKET])),
                     log := c.log.(produced := multiset{SYN_ACK_PACKET}))
  {
    HandshakeContracts();
    hide Reached, CheckAcceptability, ProcessContract, DispatchContract;
    KeyOfSegments();
    assert c.stream.accepted + [] == c.stream.accepted;
    c' := Processed(c, [], SYN_SEEN);
    c' := Idle(c');
    c' := PickedUp(c');
    c' := Sent(c', SYN_ACK_PACKET, SYN_ACKED);
  }

  /** The handshake is done, and a byte has come with it. */
  lemma TextArrives(c: Scene) returns (c': Scene)
    requires Reached(c) && c.stream.shared == Shared(SYN_ACKED, false, NO_WAKER, NO_WAKER) && c.flags == Flags(false, false)
    requires c.io.phase == Waiting(Start) && c.io.slotB && c.stream.accepted == []
    ensures Reached(c')
    ensures c' == c.(stream := c.stream.(shared := c.stream.shared.(tcp := ESTABLISHED), accepted := [7]),
                     due := Some(0), io := c.io.(phase := AtHead))
  {
    TextContract();
    hide Reached, CheckAcceptability, ProcessContract, DispatchContract;
    c' := FrameTaken(c, ACK);
    assert c.stream.accepted + [7] == [7];
    c' := Processed(c', [7], ESTABLISHED);
  }

  // ---- End of stream is not final for a listening socket ----

  /** A read before the SYN has been processed returns end of stream, and a read later in the same run returns
      a byte. */
  lemma BytesAfterEndOfStream() returns (c: Scene)
    ensures Reached(OPENED) && ReadEnabled(StateOf(OPENED), 0, 1, 0, LISTENING)
    ensures PollRead(OPENED.stream.shared, false, 1, 0, LISTENING).result == EndOfStream
    ensures Reached(c) && c.stream.eofReached
    ensures var after := ESTABLISHED.(rx := []);
            && ReadEnabled(StateOf(c), 0, 1, 1, after)
            && PollRead(c.stream.shared, true, 1, 1, after).result == Bytes([7])
  {
    OpenedIsReached();
    KeyOfSegments();
    hide Reached;
    c := ReadEnded(OPENED);
    c := SynAckGoesOut(c);
    c := TextArrives(c);
  }

  // ---- Bytes that were accepted are lost ----

  const FIN_WAIT := ESTABLISHED.(state := FinWait1, txPoll := Now)
  const FIN_SENT := FIN_WAIT.(txPoll := Time(2000), ackPoll := Ingress)
  const TIME_WAIT := FIN_SENT.(state := TimeWait, txPoll := Time(10_000), ackPoll := Now)
  const FIN_PACKET := TcpPacket(Dispatched, 1)

  lemma CloseKeepsText()
    ensures CloseContract(ESTABLISHED, FIN_WAIT)
  {
  }

  lemma FinLeaves()
    ensures DispatchContract(FIN_WAIT, FIN_SENT)
  {
  }

  lemma FinComes()
    ensures CheckAcceptability(FIN_SENT, FIN).Ok? && ProcessContract(FIN_SENT, FIN, [], TIME_WAIT)
  {
    SilentSegment(FIN_SENT, FIN, TIME_WAIT);
    hide ProcessContract;
  }

  /** The application closes its side, the FIN goes out, and the peer's FIN comes in; the byte is still unread. */
  lemma TimeWaitIsReached() returns (c: Scene)
    ensures Reached(c) && c.io.phase == AtHead && c.io.nextPoll.None?
    ensures c.stream == NewStream(KEY, true).(shared := Shared(TIME_WAIT, false, NO_WAKER, NO_WAKER),
                                              writerClosed := true, accepted := [7])
  {
    OpenedIsReached();
    CloseKeepsText();
    FinComes();
    hide Reached, CheckAcceptability, ProcessContract, DispatchContract, CloseContract;
    c := SynAckGoesOut(OPENED);
    c := TextArrives(c);
    c := ClosedByWriter(c, FIN_WAIT);
    c := Idle(c);
    c := WriteDone(c);
    c := Idle(c);
    c := UpdateTaken(c);
    c := FinGoesOut(c);
    c := FrameTaken(c, FIN);
    assert c.stream.accepted + [] == [7];
    c := Processed(c, [], TIME_WAIT);
  }

  lemma FinGoesOut(c: Scene) returns (c': Scene)
    requires Reached(c) && c.io == Init(0).io && c.closes == [] && c.updates == [] && c.due == Some(0)
    requires c.stream.shared == Shared(FIN_WAIT, false, NO_WAKER, NO_WAKER)
    requires c.flags == Flags(false, false) && c.stream.lost == []
    ensures Reached(c') && c'.io == c.io.(phase := Waiting(Start), writing := None, slotA := Some([FIN_PACKET]))
    ensures c'.stream == c.stream.(shared := c.stream.shared.(tcp := FIN_SENT)) && c'.flags == c.flags
  {
    FinLeaves();
    hide Reached, CheckAcceptability, ProcessContract, DispatchContract, CloseContract;
    c' := Idle(c);
    c' := PickedUp(c');
    c' := Sent(c', FIN_PACKET, FIN_SENT);
  }

  /** A run of the program after which a read returns end of stream although the one byte that was accepted has
      never been returned. */
  lemma AcceptedByteIsLost() returns (s: State)
    ensures Reachable(s) && 0 in s.streams
    ensures var st := s.streams[0];
            && st.accepted == [7] && st.delivered == [] && st.lost == [7]
            && ReadEnabled(s, 0, 1, 0, st.shared.tcp)
            && PollRead(st.shared, st.eofReached, 1, 0, st.shared.tcp).result == EndOfStream
  {
    var c := TimeWaitIsReached();
    hide Reachable, PollRead, ReadEnabled, BytesConserved;
    s := LosesByte(c);
    ClosedReadsEnd(s, 0);
    AcceptedIsAccountedFor(s, 0);
    AccountOf(s.streams[0]);
  }

  lemma AccountOf(st: Stream)
    requires BytesConserved(st) && st.delivered == [] && st.shared.tcp.rx == []
    ensures st.accepted == st.lost
  {
  }

  lemma ClosedReadsEnd(s: State, id: Id)
    requires id in s.streams && s.streams[id].readerLive && !s.streams[id].eofReached
    requires s.streams[id].shared.tcp.rx == [] && s.streams[id].shared.tcp.state == Closed
    ensures var st := s.streams[id];
            && ReadEnabled(s, id, 1, 0, st.shared.tcp)
            && PollRead(st.shared, st.eofReached, 1, 0, st.shared.tcp).result == EndOfStream
  {
  }

  lemma LosesByte(c: Scene) returns (t: State)
    requires Reached(c) && c.io.nextPoll.None? && c.stream.handle == KEY && c.stream.shared.tcp == TIME_WAIT
    requires c.stream.lost == [] && c.stream.delivered == [] && c.stream.readerLive && !c.stream.eofReached
    ensures Reachable(t) && 0 in t.streams
    ensures var st := t.streams[0];
            && st.lost == [7] && st.delivered == [] && st.readerLive && !st.eofReached
            && st.shared.tcp.rx == [] && st.shared.tcp.state == Closed
  {
    var s := StateOf(c);
    ReachableInv(s);
    InvParts(s);
    hide Inv, Reachable, Owned, LoopOk, WorkScheduled, Exec;
    var run;
    run, t := UnreadBytesAreLost(s, 0);
    assert c.stream.lost + [7] == [7];
    LaterIsReachable(s, run, t);
  }

  lemma AcceptedIsAccountedFor(s: State, id: Id)
    requires Reachable(s) && id in s.streams
    ensures BytesConserved(s.streams[id])
  {
    hide Reachable;
    ReachableInv(s);
    assert StreamOk(s.streams[id]);
  }

  lemma LaterIsReachable(s: State, run: seq<Event>, t: State)
    requires Reachable(s) && Exec(s, run) == Running(t)
    ensures Reachable(t)
  {
    hide Exec;
    var start: nat, before: seq<Event> :| Exec(Init(start), before) == Running(s);
    ExecComposes(Init(start), before, run);
    assert Exec(Init(start), before + run) == Running(t);
  }

  // ---- A removal under a pending update ----

  const CLOSED := LISTENING.(state := Closed)

  lemma CloseContracts()
    ensures CloseContract(LISTENING, CLOSED) && CloseContract(CLOSED, CLOSED)
  {
  }

  /** The retransmission timer runs out while the SYN-ACK is still being written, so the handle is picked; the
      writer tries to write, which announces the handle; then the peer resets the connection. */
  lemma ResetWhilePicked() returns (c: Scene)
    ensures Reached(c) && c.stream == NewStream(KEY, true) && c.flags == Flags(false, false) && c.due == None
    ensures c.closes == [] && c.updates == [(KEY, Time(1000))]
    ensures c.io.phase == Waiting(Start) && c.io.slotB && c.io.slotC && c.io.slotD && c.io.replies == []
    ensures c.io.writing.None? && c.io.slotA == Some([SYN_ACK_PACKET])
    ensures c.io.nextPoll.Some? && c.io.nextPoll.value.handle == KEY
  {
    OpenedIsReached();
    HandshakeContracts();
    KeyOfSegments();
    hide Reached, CheckAcceptability, ProcessContract, DispatchContract;
    c := SynAckGoesOut(OPENED);
    c := TimePasses(c, Clock(0).Resolve(1000));
    c := PickedUp(c);
    c := Idle(c);
    c := WriteRefused(c);
    c := FrameTaken(c, RST);
    assert c.stream.accepted + [] == c.stream.accepted;
    c := Processed(c, [], LISTENING);
    c := Idle(c);
  }

  /** Both halves are dropped and their messages handled; then the write finishes. */
  lemma DroppedWhilePicked() returns (c: Scene)
    ensures Reached(c) && c.io.phase == AtHead && c.io.slotB && c.io.writing == Some([]) && c.io.replies == []
    ensures c.io.slotA.None? && c.io.nextPoll.Some? && c.io.nextPoll.value.handle == KEY
    ensures c.flags.Both() && c.stream.shared.tcp == CLOSED && c.updates == [(KEY, Time(1000))]
  {
    CloseContracts();
    hide Reached, CloseContract;
    c := ResetWhilePicked();
    c := WriterDropped(c);
    c := ReaderDropped(c);
    c := CloseTaken(c, CLOSED);
    c := Idle(c);
    c := CloseTaken(c, CLOSED);
    c := Idle(c);
    c := WriteDone(c);
  }

  /** The loop reaches a dispatch that removes a connection whose update is still pending. */
  lemma StaleRemovalHappens() returns (s: State)
    ensures var e := Head(NothingToSend, CLOSED);
            Reachable(s) && Enabled(s, e) && StaleRemoval(s, e)
  {
    var c := DroppedWhilePicked();
    s := StateOf(c);
    assert s.updates[0] == (KEY, Time(1000));
    assert KEY in Announced(PendingUpdates(s));
    hide Reachable;
  }
}
