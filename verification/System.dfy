/** The whole program as a state machine: application tasks using the halves of their streams, and the
    event loop with its pool, queue, channels and selector, interleaved step by step.

    Every step is atomic under the socket lock. What the engine, the network, the clock and the scheduler
    decide is carried by the event; `Enabled` says which decisions are possible and `Next` what follows,
    including the panics the program can raise. */
module System {
  import opened Prelude
  import opened Addresses
  import opened Tcp
  import opened Time
  import opened Acceptability
  import opened ConnectionSpec

  /** Identifies one allocation of a stream, since a handle can be used again. */
  type Id = nat

  datatype Origin = IngressReply | Dispatched

  datatype Packet = TcpPacket(origin: Origin, body: nat) | OtherPacket

  /** A write buffer, as the packets whose bytes it holds. */
  type Buffer = seq<Packet>

  /** `packet_to_bytes`: only TCP packets are written out. The buffer must be empty: the source asserts so. */
  function PacketToBytes(p: Packet, buf: Buffer): (filled: Buffer)
    requires buf == []
    ensures filled != [] <==> p.TcpPacket?
  {
    if p.TcpPacket? then [p] else buf
  }

  /** Pops replies off the stack until one of them has filled the buffer: the buffer and what is left. */
  function PopReplies(replies: seq<Packet>): (Buffer, seq<Packet>) {
    if replies == [] then ([], [])
    else
      var rest, last := replies[..|replies| - 1], replies[|replies| - 1];
      if PacketToBytes(last, []) != [] then (PacketToBytes(last, []), rest) else PopReplies(rest)
  }

  /** A call that returned pending: the length of its buffer, and how often its half had been woken by then. */
  datatype Call = Call(len: nat, woken: nat)

  /** A stream: the state it shares with the loop, which halves the application still owns, the reader's
      own flag, and its history. Received bytes were accepted, then delivered to the reader; `lost` is what a reset at
      the end of TIME-WAIT discarded unread. Written bytes were reported as written, then acknowledged by the peer;
      `unsent` is what such a reset discarded of them. `readCall` and `writeCall` are the last calls of the two halves,
      if they returned pending. */
  datatype Stream = Stream(
    handle: Handle,
    shared: Shared,
    readerLive: bool,
    writerLive: bool,
    eofReached: bool,
    writerClosed: bool,
    accepted: seq<u8>,
    delivered: seq<u8>,
    lost: seq<u8>,
    written: seq<u8>,
    acked: seq<u8>,
    unsent: seq<u8>,
    readCall: Option<Call>,
    writeCall: Option<Call>)
  {
    predicate Live(half: Half) {
      if half.Read? then readerLive else writerLive
    }
  }

  function NewStream(h: Handle, live: bool): Stream
    requires h.local.WellFormed()
  {
    Stream(h, Shared(Listening(ToEndpoint(h.local)), false, NO_WAKER, NO_WAKER), live, live, false, false,
           [], [], [], [], [], [], None, None)
  }

  /** The pool's record of a connection. */
  datatype Entry = Entry(id: Id, flags: Flags)

  type CloseMessage = (Handle, Half)
  type PollUpdate = (Handle, PollAt)

  /** The handle picked for the next dispatch; `settled` records that both halves were already marked
      dropped when it was picked. */
  datatype Picked = Picked(handle: Handle, deadline: nat, settled: bool)

  /** How far the selector has got in looking at its futures since it last started over. */
  datatype Scan = Start | ClosesSeenEmpty | AllSeenPending

  /** What the loop is doing; a segment or message it has taken out of a slot is in its hands. */
  datatype Phase =
    | AtHead
    | Waiting(scan: Scan)
    | Handling(seg: Segment, h: Handle)
    | HandlingClose(close: CloseMessage)
    | HandlingUpdate(update: PollUpdate)

  /** The loop's own variables. Slot a holds a write in progress; slots b, c and d hold the pending read
      and the two channel receivers. */
  datatype Io = Io(
    phase: Phase,
    nextPoll: Option<Picked>,
    writing: Option<Buffer>,
    slotA: Option<Buffer>,
    slotB: bool,
    slotC: bool,
    slotD: bool,
    replies: seq<Packet>)

  /** Everything produced, written, sent and handled so far. */
  datatype Log = Log(
    produced: multiset<Packet>,
    written: multiset<Packet>,
    closesSent: seq<CloseMessage>,
    closesHandled: seq<CloseMessage>,
    updatesSent: seq<PollUpdate>,
    updatesHandled: seq<PollUpdate>)

  datatype State = State(
    clock: Clock,
    now: nat,
    streams: map<Id, Stream>,
    pool: map<Handle, Entry>,
    queue: Queue,
    closes: seq<CloseMessage>,
    updates: seq<PollUpdate>,
    io: Io,
    log: Log)

  function Init(start: nat): State {
    State(Clock(start), start, map[], map[], map[], [], [],
          Io(AtHead, None, Some([]), None, true, true, true, []),
          Log(multiset{}, multiset{}, [], [], [], []))
  }

  /** What a read from the device gives: nothing that reaches TCP, or a TCP segment. */
  datatype Frame = Junk | Tcp(seg: Segment)

  datatype Event =
    // The application.
    | ReadStream(id: Id, len: nat, taken: nat, after: Socket)
    | WriteStream(id: Id, data: seq<u8>, after: Socket)
    | CloseStream(id: Id, after: Socket)
    | DropReader(id: Id)
    | DropWriter(id: Id)
    // The clock.
    | Tick(nanos: nat)
    // The loop.
    | Head(emission: Emission<Packet>, after: Socket)
    | ScanCloses
    | ScanUpdates
    | Rescan
    | SelectWritten
    | SelectRead(frame: Frame, id: Id, listens: bool, delivered: bool)
    | Process(text: seq<u8>, reply: Option<Packet>, after: Socket)
    | SelectClose
    | HandleClose(after: Socket)
    | SelectUpdate
    | HandleUpdate
    | Expire(h: Handle)

  predicate ByApplication(e: Event) {
    e.ReadStream? || e.WriteStream? || e.CloseStream? || e.DropReader? || e.DropWriter?
  }

  /** The panics of the loop. */
  datatype Panic =
    | ReaderMissing        // assert at the head of the loop
    | SlotOccupied         // assert in insert_a, insert_b, insert_c or insert_d
    | DispatchAfterDrop    // expect in SocketPool::dispatch
    | CloseAfterRemoval    // expect in SocketPool::drop_tcp_half
    | SocketMissing        // unwrap in SocketPool::process

  datatype Outcome = Running(state: State) | Panicked(why: Panic) | Refused

  /** Where a frame goes. */
  datatype Route = Drop | Existing(h: Handle) | New(h: Handle)

  function RouteOf(known: set<Handle>, frame: Frame): (r: Route)
    requires frame.Tcp? ==> frame.seg.WellFormed()
    ensures r.New? ==> r.h !in known && r.h.local.WellFormed() && r.h.peer.WellFormed()
    ensures r.Existing? ==> r.h in known
    ensures !r.Drop? ==> frame.Tcp? && PairOf(frame.seg.src, frame.seg.dst) == Ok(r.h)
  {
    if frame.Junk? then Drop
    else
      var pair := PairOf(frame.seg.src, frame.seg.dst);
      if pair.Err? then Drop
      else if frame.seg.control == Syn && frame.seg.hasAck then Drop
      else if pair.value in known then Existing(pair.value)
      else if frame.seg.control == Syn then New(pair.value)
      else Drop
  }

  /** A segment goes to the handle whose endpoints it has: to the connection there if there is one, unless it is a SYN
      with an ACK; and to a new one if there is none and it is a plain SYN. Everything else is dropped. */
  lemma RouteExactly(known: set<Handle>, seg: Segment, h: Handle)
    requires seg.WellFormed()
    ensures var ours := h.peer.WellFormed() && h.local.WellFormed() &&
                        seg.src == ToEndpoint(h.peer) && seg.dst == ToEndpoint(h.local);
            var syn := seg.control == Syn;
            && (RouteOf(known, Frame.Tcp(seg)) == Existing(h) <==> ours && h in known && !(syn && seg.hasAck))
            && (RouteOf(known, Frame.Tcp(seg)) == New(h) <==> ours && h !in known && syn && !seg.hasAck)
  {
    PairOfExactly(seg.src, seg.dst, h);
    hide PairOf, ToEndpoint;
  }

  /** The handle that the head of the loop dispatches, if it dispatches one. */
  function DispatchTarget(io: Io): Option<Handle> {
    if io.writing == Some([]) && PopReplies(io.replies).0 == [] && io.nextPoll.Some?
    then Some(io.nextPoll.value.handle) else None
  }

  /** Close messages not handled yet: the one in the loop's hands, then those in the channel. */
  function PendingCloses(s: State): seq<CloseMessage> {
    if s.io.phase.HandlingClose? then [s.io.phase.close] + s.closes else s.closes
  }

  function PendingUpdates(s: State): seq<PollUpdate> {
    if s.io.phase.HandlingUpdate? then [s.io.phase.update] + s.updates else s.updates
  }

  predicate Known(s: State, h: Handle) {
    h in s.pool && s.pool[h].id in s.streams
  }

  function SharedOf(s: State, h: Handle): Shared
    requires Known(s, h)
  {
    s.streams[s.pool[h].id].shared
  }

  predicate ReadEnabled(s: State, id: Id, len: nat, taken: nat, after: Socket) {
    && id in s.streams && s.streams[id].readerLive
    && var tcp := s.streams[id].shared.tcp;
    if tcp.CanRecv()
    then taken <= len && (len > 0 ==> taken > 0) && RecvContract(tcp, taken, after)
    else taken == 0 && after == tcp
  }

  predicate WriteEnabled(s: State, id: Id, data: seq<u8>, after: Socket) {
    && id in s.streams && s.streams[id].writerLive
    && var tcp := s.streams[id].shared.tcp;
    if tcp.CanSend() then SendContract(tcp, data, after) else after == tcp
  }

  predicate CloseEnabled(s: State, id: Id, after: Socket) {
    id in s.streams && s.streams[id].writerLive && CloseContract(s.streams[id].shared.tcp, after)
  }

  predicate DropEnabled(s: State, id: Id, half: Half) {
    id in s.streams && s.streams[id].Live(half)
  }

  predicate HeadEnabled(s: State, emission: Emission<Packet>, after: Socket) {
    && s.io.phase == AtHead
    && (emission.Emitted? ==> emission.packet.TcpPacket? && emission.packet.origin == Dispatched)
    && var target := DispatchTarget(s.io);
    target.Some? && Known(s, target.value) ==> DispatchContract(SharedOf(s, target.value).tcp, after)
  }

  predicate SelectReadEnabled(s: State, frame: Frame, id: Id) {
    && s.io.phase == Waiting(Start) && s.io.slotB && id !in s.streams
    && (frame.Tcp? ==> frame.seg.WellFormed())
  }

  /** The segment being handled passes the connection's check. */
  predicate Acceptable(s: State)
    requires s.io.phase.Handling? && Known(s, s.io.phase.h)
  {
    CheckAcceptability(SharedOf(s, s.io.phase.h).tcp, s.io.phase.seg).Ok?
  }

  predicate ProcessEnabled(s: State, text: seq<u8>, reply: Option<Packet>, after: Socket) {
    && s.io.phase.Handling?
    && (reply.Some? ==> reply.value.TcpPacket? && reply.value.origin == IngressReply)
    && (Known(s, s.io.phase.h) && Acceptable(s) ==>
          ProcessContract(SharedOf(s, s.io.phase.h).tcp, s.io.phase.seg, text, after))
  }

  predicate HandleCloseEnabled(s: State, after: Socket) {
    && s.io.phase.HandlingClose?
    && var h := s.io.phase.close.0;
    Known(s, h) ==> CloseContract(SharedOf(s, h).tcp, after)
  }

  predicate ExpireEnabled(s: State, h: Handle) {
    s.io.phase == Waiting(AllSeenPending) && s.io.nextPoll.None? && h in s.queue && s.queue[h] <= s.now
  }

  predicate Enabled(s: State, e: Event) {
    match e
    case ReadStream(id, len, taken, after) => ReadEnabled(s, id, len, taken, after)
    case WriteStream(id, data, after) => WriteEnabled(s, id, data, after)
    case CloseStream(id, after) => CloseEnabled(s, id, after)
    case DropReader(id) => DropEnabled(s, id, Read)
    case DropWriter(id) => DropEnabled(s, id, Write)
    case Tick(_) => true
    case Head(emission, after) => HeadEnabled(s, emission, after)
    case ScanCloses => s.io.phase == Waiting(Start) && s.closes == []
    case ScanUpdates => s.io.phase == Waiting(ClosesSeenEmpty) && s.updates == []
    case Rescan => s.io.phase.Waiting?
    case SelectWritten => s.io.phase == Waiting(Start) && s.io.slotA.Some?
    case SelectRead(frame, id, _, _) => SelectReadEnabled(s, frame, id)
    case Process(text, reply, after) => ProcessEnabled(s, text, reply, after)
    case SelectClose => s.io.phase == Waiting(Start) && s.io.slotC && s.closes != []
    case HandleClose(after) => HandleCloseEnabled(s, after)
    case SelectUpdate => s.io.phase == Waiting(ClosesSeenEmpty) && s.io.slotD && s.updates != []
    case HandleUpdate => s.io.phase.HandlingUpdate?
    case Expire(h) => ExpireEnabled(s, h)
  }

  // ---- The application's steps ----

  function PutStream(s: State, id: Id, st: Stream): State {
    s.(streams := s.streams[id := st])
  }

  function SendClose(s: State, h: Handle, half: Half): State {
    s.(closes := s.closes + [(h, half)], log := s.log.(closesSent := s.log.closesSent + [(h, half)]))
  }

  function SendUpdate(s: State, h: Handle, update: Option<PollAt>): State {
    match update
    case None => s
    case Some(at) => s.(updates := s.updates + [(h, at)], log := s.log.(updatesSent := s.log.updatesSent + [(h, at)]))
  }

  /** The stream after a read. */
  function AfterRead(st: Stream, len: nat, taken: nat, after: Socket): Stream
    requires taken <= |st.shared.tcp.rx|
  {
    var r := PollRead(st.shared, st.eofReached, len, taken, after);
    var got := if r.result.Bytes? then r.result.data else [];
    var call := if r.result.ReadPending? then Some(Call(len, st.shared.reader.woken)) else None;
    st.(shared := r.shared, eofReached := r.eofReached, delivered := st.delivered + got, readCall := call)
  }

  /** The stream after a write. */
  function AfterWrite(st: Stream, data: seq<u8>, after: Socket): Stream {
    var r := PollWrite(st.shared, data, after);
    var taken := if r.result.Written? then data[..r.result.n] else [];
    var call := if r.result.WritePending? then Some(Call(|data|, st.shared.writer.woken)) else None;
    st.(shared := r.shared, written := st.written + taken, writeCall := call)
  }

  /** The stream after a close of its writing side. */
  function AfterClose(st: Stream, after: Socket): Stream {
    st.(shared := PollClose(st.shared, after).shared, writerClosed := true, writeCall := None)
  }

  function NextRead(s: State, id: Id, len: nat, taken: nat, after: Socket): State
    requires id in s.streams && taken <= |s.streams[id].shared.tcp.rx|
  {
    PutStream(s, id, AfterRead(s.streams[id], len, taken, after))
  }

  function NextWrite(s: State, id: Id, data: seq<u8>, after: Socket): State
    requires id in s.streams
  {
    var st := s.streams[id];
    var r := PollWrite(st.shared, data, after);
    SendUpdate(PutStream(s, id, AfterWrite(st, data, after)), st.handle, r.update)
  }

  function NextClose(s: State, id: Id, after: Socket): State
    requires id in s.streams
  {
    var st := s.streams[id];
    var r := PollClose(st.shared, after);
    SendUpdate(PutStream(s, id, AfterClose(st, after)), st.handle, r.update)
  }

  function NextDrop(s: State, id: Id, half: Half): State
    requires id in s.streams
  {
    var st := s.streams[id];
    var st' := if half.Read? then st.(readerLive := false) else st.(writerLive := false);
    SendClose(PutStream(s, id, st'), st.handle, half)
  }

  // ---- The loop's steps ----

  function ToPhase(s: State, phase: Phase): State {
    s.(io := s.io.(phase := phase))
  }

  /** Starts a write if the buffer has been filled, else keeps the writer idle; then waits. */
  function Submit(s: State, buf: Buffer): Outcome {
    if buf == [] then Running(s.(io := s.io.(writing := Some([]), phase := Waiting(Start))))
    else if s.io.slotA.Some? then Panicked(SlotOccupied)
    else Running(s.(io := s.io.(writing := None, slotA := Some(buf), phase := Waiting(Start))))
  }

  /** The stream after a dispatch. */
  function DispatchedStream(st: Stream, f: Flags, after: Socket, emission: Emission<Packet>): Stream {
    st.(shared := AfterDispatch(st.shared, f, after, emission),
        lost := st.lost + (if after.rx == st.shared.tcp.rx then [] else st.shared.tcp.rx),
        unsent := st.unsent + (if after.tx == st.shared.tcp.tx then [] else st.shared.tcp.tx))
  }

  /** `SocketPool::dispatch` for a handle in the pool. */
  function DispatchConnection(s: State, h: Handle, emission: Emission<Packet>, after: Socket): State
    requires Known(s, h)
  {
    var entry := s.pool[h];
    var st := s.streams[entry.id];
    var f := entry.flags;
    var st' := DispatchedStream(st, f, after, emission);
    var q := QueueAfterDispatch(s.clock, f, s.queue, h, after, emission);
    var s1 := PutStream(s, entry.id, st');
    if EndsAtDispatch(f, after, emission)
    then s1.(pool := s.pool - {h}, queue := q - {h})
    else s1.(queue := q)
  }

  /** What a dispatch leaves in the empty write buffer. */
  function FilledBy(emission: Emission<Packet>): Buffer {
    if emission.Emitted? then PacketToBytes(emission.packet, []) else []
  }

  /** What the engine produced in a dispatch, whatever becomes of it. */
  function Produced(emission: Emission<Packet>): multiset<Packet> {
    if emission.Emitted? then multiset{emission.packet} else multiset{}
  }

  /** The state after the reply stack has been emptied and the picked handle taken. */
  function TakePoll(s: State): State {
    s.(io := s.io.(replies := PopReplies(s.io.replies).1, nextPoll := None))
  }

  function NextHead(s: State, emission: Emission<Packet>, after: Socket): Outcome
  {
    if !s.io.slotB then Panicked(ReaderMissing)
    else if s.io.writing.None? then Running(ToPhase(s, Waiting(Start)))
    else
      var popped := if s.io.writing.value == [] then PopReplies(s.io.replies) else (s.io.writing.value, s.io.replies);
      var target := DispatchTarget(s.io);
      if target.None? then Submit(s.(io := s.io.(replies := popped.1)), popped.0)
      else if !Known(s, target.value) then Panicked(DispatchAfterDrop)
      else
        var s1 := DispatchConnection(TakePoll(s), target.value, emission, after);
        var buf := FilledBy(emission);
        Submit(s1.(log := s1.log.(produced := s1.log.produced + Produced(emission))), buf)
  }

  function NextWritten(s: State): Outcome
    requires s.io.slotA.Some?
  {
    if s.io.writing.Some? then Panicked(SlotOccupied)
    else Running(s.(io := s.io.(slotA := None, writing := Some([]), phase := AtHead),
                    log := s.log.(written := s.log.written + multiset(s.io.slotA.value))))
  }

  /** `create_syn`: the stream is offered to the listener; if nobody listens any more it is dropped at once. */
  function CreateStream(s: State, id: Id, h: Handle, delivered: bool): State
    requires h.local.WellFormed()
  {
    var s1 := PutStream(s, id, NewStream(h, delivered)).(pool := s.pool[h := Entry(id, Flags(false, false))]);
    if delivered then s1 else SendClose(SendClose(s1, h, Write), h, Read)
  }

  function NextSelectRead(s: State, frame: Frame, id: Id, listens: bool, delivered: bool): State
    requires frame.Tcp? ==> frame.seg.WellFormed()
  {
    var route := RouteOf(s.pool.Keys, frame);
    if route.Drop? || (route.New? && !listens) then ToPhase(s, AtHead)
    else
      var s1 := if route.New? then CreateStream(s, id, route.h, delivered) else s;
      s1.(io := s1.io.(slotB := false, phase := Handling(frame.seg, route.h)))
  }

  /** What was acknowledged between the two: the bytes gone from the front of the transmit buffer. */
  function Freed(tcp: Socket, after: Socket): seq<u8> {
    if |after.tx| <= |tcp.tx| then tcp.tx[..|tcp.tx| - |after.tx|] else []
  }

  /** The stream after processing a segment. */
  function ProcessedStream(st: Stream, f: Flags, text: seq<u8>, after: Socket): Stream {
    st.(shared := AfterProcess(st.shared, f, after), accepted := st.accepted + text,
        acked := st.acked + Freed(st.shared.tcp, after))
  }

  /** `Connection::process` for a segment that passed the check. */
  function ProcessConnection(s: State, h: Handle, text: seq<u8>, after: Socket): State
    requires Known(s, h)
  {
    var entry := s.pool[h];
    var st := s.streams[entry.id];
    PutStream(s, entry.id, ProcessedStream(st, entry.flags, text, after))
      .(queue := QueueAfterProcess(s.clock, entry.flags, s.queue, h, after.PollAt()))
  }

  function NextProcess(s: State, text: seq<u8>, reply: Option<Packet>, after: Socket): Outcome
    requires s.io.phase.Handling?
  {
    var h := s.io.phase.h;
    if !Known(s, h) then Panicked(SocketMissing)
    else if s.io.slotB then Panicked(SlotOccupied)
    else
      var s1 := s.(io := s.io.(slotB := true, phase := AtHead));
      if !Acceptable(s) then Running(s1)
      else
        var s2 := ProcessConnection(s1, h, text, after);
        if reply.None? then Running(s2)
        else Running(s2.(io := s2.io.(replies := s2.io.replies + [reply.value]),
                         log := s2.log.(produced := s2.log.produced + multiset{reply.value})))
  }

  /** `Connection::drop_half`. */
  function DropHalf(s: State, h: Handle, half: Half, after: Socket): State
    requires Known(s, h)
  {
    var entry := s.pool[h];
    var st := s.streams[entry.id];
    var f := entry.flags.Mark(half);
    PutStream(s, entry.id, st.(shared := AfterDropHalf(st.shared, f, after)))
      .(pool := s.pool[h := entry.(flags := f)], queue := QueueAfterDropHalf(s.clock, f, s.queue, h, after))
  }

  function NextSelectClose(s: State): State
    requires s.closes != []
  {
    s.(closes := s.closes[1..], io := s.io.(slotC := false, phase := HandlingClose(s.closes[0])))
  }

  function NextHandleClose(s: State, after: Socket): Outcome
    requires s.io.phase.HandlingClose?
  {
    var m := s.io.phase.close;
    if !Known(s, m.0) then Panicked(CloseAfterRemoval)
    else if s.io.slotC then Panicked(SlotOccupied)
    else
      var s1 := DropHalf(s, m.0, m.1, after);
      Running(s1.(io := s1.io.(slotC := true, phase := AtHead),
                  log := s1.log.(closesHandled := s1.log.closesHandled + [m])))
  }

  function NextSelectUpdate(s: State): State
    requires s.updates != []
  {
    s.(updates := s.updates[1..], io := s.io.(slotD := false, phase := HandlingUpdate(s.updates[0])))
  }

  function NextHandleUpdate(s: State): Outcome
    requires s.io.phase.HandlingUpdate?
  {
    var m := s.io.phase.update;
    if s.io.slotD then Panicked(SlotOccupied)
    else Running(s.(queue := QueueSend(s.clock, s.queue, m.0, m.1),
                    io := s.io.(slotD := true, phase := AtHead),
                    log := s.log.(updatesHandled := s.log.updatesHandled + [m])))
  }

  function NextExpire(s: State, h: Handle): State
    requires h in s.queue
  {
    var settled := h in s.pool && s.pool[h].flags.Both();
    s.(queue := s.queue - {h},
       io := s.io.(phase := AtHead, nextPoll := Some(Picked(h, s.queue[h], settled))))
  }

  function Next(s: State, e: Event): Outcome
    requires Enabled(s, e)
  {
    match e
    case ReadStream(id, len, taken, after) => Running(NextRead(s, id, len, taken, after))
    case WriteStream(id, data, after) => Running(NextWrite(s, id, data, after))
    case CloseStream(id, after) => Running(NextClose(s, id, after))
    case DropReader(id) => Running(NextDrop(s, id, Read))
    case DropWriter(id) => Running(NextDrop(s, id, Write))
    case Tick(nanos) => Running(s.(now := s.now + nanos))
    case Head(emission, after) => NextHead(s, emission, after)
    case ScanCloses => Running(ToPhase(s, Waiting(ClosesSeenEmpty)))
    case ScanUpdates => Running(ToPhase(s, Waiting(AllSeenPending)))
    case Rescan => Running(ToPhase(s, Waiting(Start)))
    case SelectWritten => NextWritten(s)
    case SelectRead(frame, id, listens, delivered) => Running(NextSelectRead(s, frame, id, listens, delivered))
    case Process(text, reply, after) => NextProcess(s, text, reply, after)
    case SelectClose => Running(NextSelectClose(s))
    case HandleClose(after) => NextHandleClose(s, after)
    case SelectUpdate => Running(NextSelectUpdate(s))
    case HandleUpdate => NextHandleUpdate(s)
    case Expire(h) => Running(NextExpire(s, h))
  }

  /** The outcome of a whole run from `s`. */
  function Exec(s: State, run: seq<Event>): Outcome {
    if run == [] then Running(s)
    else
      var before := Exec(s, run[..|run| - 1]);
      var e := run[|run| - 1];
      if !before.Running? then before
      else if Enabled(before.state, e) then Next(before.state, e)
      else Refused
  }

  // ---- The steps seen from the connections ----

  /** The two states differ at most in the time, the loop's buffers and phase, and the log. */
  predicate SameConnections(s: State, s': State) {
    && s'.clock == s.clock && s'.streams == s.streams && s'.pool == s.pool && s'.queue == s.queue
    && PendingCloses(s') == PendingCloses(s) && PendingUpdates(s') == PendingUpdates(s)
    && s'.io.nextPoll == s.io.nextPoll
  }

  /** Steps that leave the connections alone. */
  predicate Quiet(e: Event) {
    e.SelectWritten? || e.Tick? || e.ScanCloses? || e.ScanUpdates? || e.Rescan? || e.SelectClose? || e.SelectUpdate?
  }

  lemma QuietCases(s: State, e: Event)
    requires Quiet(e) && Enabled(s, e)
    ensures Next(s, e).Running? ==> SameConnections(s, Next(s, e).state)
  {
  }

  // What a step on one connection leaves alone: the loop's variables and the channels, and all but one handle of
  // the pool and the queue.

  lemma ApplicationFrame(s: State, e: Event)
    requires ByApplication(e) && Enabled(s, e)
    ensures Next(s, e).Running?
    ensures var s' := Next(s, e).state;
            && s'.io == s.io && s'.pool == s.pool && s'.queue == s.queue
            && e.id in s.streams && e.id in s'.streams && s'.streams == s.streams[e.id := s'.streams[e.id]]
  {
    hide PollRead, PollWrite, PollClose;
  }

  lemma DispatchFrame(s: State, h: Handle, emission: Emission<Packet>, after: Socket)
    requires Known(s, h)
    ensures var s' := DispatchConnection(s, h, emission, after);
            && s'.io == s.io && s'.log == s.log && s'.clock == s.clock && s'.now == s.now
            && s'.closes == s.closes && s'.updates == s.updates
            && s'.pool.Keys <= s.pool.Keys && s.pool.Keys - {h} <= s'.pool.Keys && s.queue.Keys - {h} <= s'.queue.Keys
  {
    hide AfterDispatch, EndsAtDispatch;
  }

  lemma ProcessFrame(s: State, h: Handle, text: seq<u8>, after: Socket)
    requires Known(s, h)
    ensures var s' := ProcessConnection(s, h, text, after);
            && s'.io == s.io && s'.log == s.log && s'.clock == s.clock && s'.now == s.now
            && s'.closes == s.closes && s'.updates == s.updates
            && s'.pool == s.pool && s.queue.Keys <= s'.queue.Keys
  {
    hide AfterProcess;
  }

  lemma DropHalfFrame(s: State, h: Handle, half: Half, after: Socket)
    requires Known(s, h)
    ensures var s' := DropHalf(s, h, half, after);
            && s'.io == s.io && s'.log == s.log && s'.clock == s.clock && s'.now == s.now
            && s'.closes == s.closes && s'.updates == s.updates
            && s'.pool.Keys == s.pool.Keys && s.queue.Keys <= s'.queue.Keys
  {
    hide AfterDropHalf;
  }

  lemma CreateFrame(s: State, id: Id, h: Handle, delivered: bool)
    requires h.local.WellFormed()
    ensures var s' := CreateStream(s, id, h, delivered);
            s'.io == s.io && s'.clock == s.clock && s'.now == s.now && s'.updates == s.updates && s'.queue == s.queue
  {
  }

  lemma SubmitKeepsConnections(s: State, buf: Buffer)
    requires s.io.phase == AtHead
    ensures Submit(s, buf).Running? ==> SameConnections(s, Submit(s, buf).state)
  {
  }

  /** To the connections, the head of the loop is a dispatch or nothing. */
  lemma HeadCases(s: State, emission: Emission<Packet>, after: Socket)
    requires s.io.phase == AtHead
    ensures var r := NextHead(s, emission, after);
            var target := DispatchTarget(s.io);
            r.Running? ==>
              if target.None? then SameConnections(s, r.state)
              else Known(s, target.value) &&
                   SameConnections(DispatchConnection(TakePoll(s), target.value, emission, after), r.state)
  {
    hide DispatchConnection, PopReplies, Submit;
    var r := NextHead(s, emission, after);
    var target := DispatchTarget(s.io);
    if s.io.slotB && s.io.writing.Some? {
      if target.None? {
        var popped := if s.io.writing.value == [] then PopReplies(s.io.replies) else (s.io.writing.value, s.io.replies);
        SubmitKeepsConnections(s.(io := s.io.(replies := popped.1)), popped.0);
      } else if Known(s, target.value) {
        var s1 := DispatchConnection(TakePoll(s), target.value, emission, after);
        var buf := FilledBy(emission);
        DispatchFrame(TakePoll(s), target.value, emission, after);
        SubmitKeepsConnections(s1.(log := s1.log.(produced := s1.log.produced + Produced(emission))), buf);
      }
    }
  }

  /** To the connections, handling a segment is processing it or nothing. */
  lemma ProcessCases(s: State, text: seq<u8>, reply: Option<Packet>, after: Socket)
    requires s.io.phase.Handling?
    ensures var r := NextProcess(s, text, reply, after);
            r.Running? ==>
              Known(s, s.io.phase.h) && r.state.io.phase == AtHead && r.state.io.writing == s.io.writing &&
              if Acceptable(s) then SameConnections(ProcessConnection(s, s.io.phase.h, text, after), r.state)
              else SameConnections(s, r.state)
  {
    hide AfterProcess, QueueAfterProcess, Acceptable;
  }

  /** To the connections, handling a close message is dropping its half. */
  lemma HandleCloseCases(s: State, after: Socket)
    requires s.io.phase.HandlingClose? && NextHandleClose(s, after).Running?
    ensures var s' := NextHandleClose(s, after).state;
            var m := PendingCloses(s)[0];
            && Known(s, m.0)
            && var t := DropHalf(s, m.0, m.1, after);
            && s'.clock == t.clock && s'.streams == t.streams && s'.pool == t.pool && s'.queue == t.queue
            && PendingCloses(s') == PendingCloses(s)[1..] && PendingUpdates(s') == PendingUpdates(s)
            && s'.io.nextPoll == s.io.nextPoll && s'.io.phase == AtHead && s'.io.writing == s.io.writing
  {
    hide AfterDropHalf, QueueAfterDropHalf;
    assert PendingCloses(s)[1..] == s.closes;
  }

  lemma HandleUpdateCases(s: State)
    requires s.io.phase.HandlingUpdate? && NextHandleUpdate(s).Running?
    ensures var s' := NextHandleUpdate(s).state;
            var m := PendingUpdates(s)[0];
            && s'.clock == s.clock && s'.streams == s.streams && s'.pool == s.pool
            && s'.queue == QueueSend(s.clock, s.queue, m.0, m.1)
            && PendingCloses(s') == PendingCloses(s) && PendingUpdates(s') == PendingUpdates(s)[1..]
            && s'.io.nextPoll == s.io.nextPoll && s'.io.phase == AtHead && s'.io.writing == s.io.writing
  {
    hide QueueSend;
    assert PendingUpdates(s)[1..] == s.updates;
  }

  // What a half sends goes to the end of what is pending.

  lemma DropIsPending(s: State, id: Id, half: Half)
    requires id in s.streams
    ensures PendingCloses(NextDrop(s, id, half)) == PendingCloses(s) + [(s.streams[id].handle, half)]
  {
  }

  lemma WriteIsPending(s: State, id: Id, data: seq<u8>, after: Socket)
    requires id in s.streams
    ensures var update := PollWrite(s.streams[id].shared, data, after).update;
            PendingUpdates(NextWrite(s, id, data, after)) ==
              if update.None? then PendingUpdates(s) else PendingUpdates(s) + [(s.streams[id].handle, update.value)]
  {
    hide PollWrite;
  }

  lemma CloseIsPending(s: State, id: Id, after: Socket)
    requires id in s.streams
    ensures var update := PollClose(s.streams[id].shared, after).update;
            PendingUpdates(NextClose(s, id, after)) ==
              if update.None? then PendingUpdates(s) else PendingUpdates(s) + [(s.streams[id].handle, update.value)]
  {
    hide PollClose;
  }

  /** To the connections, taking a frame from the device is opening one or nothing. */
  lemma SelectReadCases(s: State, frame: Frame, id: Id, listens: bool, delivered: bool)
    requires SelectReadEnabled(s, frame, id)
    ensures var s' := NextSelectRead(s, frame, id, listens, delivered);
            var route := RouteOf(s.pool.Keys, frame);
            if route.New? && listens then SameConnections(CreateStream(s, id, route.h, delivered), s')
            else SameConnections(s, s')
  {
    hide RouteOf, CreateStream;
    var route := RouteOf(s.pool.Keys, frame);
    if route.New? {
      CreateFrame(s, id, route.h, delivered);
    }
  }
}
