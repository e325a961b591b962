/** What one connection does, on values: the shared socket with its wakers, the flags the loop keeps about
    the two halves, and the dispatch queue seen as a table of deadlines. */
module ConnectionSpec {
  import opened Prelude
  import opened Addresses
  import opened Tcp
  import opened Time

  /** A task waiting to be woken, known by the length of the buffer it called with. */
  datatype Registration = Registration(len: nat)

  /** A slot for one waiting task, with a count of the wake-ups issued through it. */
  datatype Waker = Waker(slot: Option<Registration>, woken: nat) {
    function Register(len: nat): Waker { this.(slot := Some(Registration(len))) }

    function WakeOnce(): Waker {
      if slot.Some? then Waker(None, woken + 1) else this
    }
  }

  const NO_WAKER := Waker(None, 0)

  /** What the loop and the two halves of a stream share. */
  datatype Shared = Shared(tcp: Socket, pollingActive: bool, reader: Waker, writer: Waker)

  datatype Half = Read | Write

  /** The loop's own record of which halves have been dropped. */
  datatype Flags = Flags(readerDropped: bool, writerDropped: bool) {
    predicate Dropped(half: Half) {
      if half.Read? then readerDropped else writerDropped
    }

    function Mark(half: Half): Flags {
      if half.Read? then this.(readerDropped := true) else this.(writerDropped := true)
    }

    predicate Both() { readerDropped && writerDropped }
  }

  /** Deadlines by handle. */
  type Queue = map<Handle, nat>

  function QueueSend(clock: Clock, q: Queue, h: Handle, at: PollAt): Queue
  {
    match at
    case Now => q[h := clock.Origin()]
    case Time(millis) => q[h := clock.Resolve(millis)]
    case Ingress => q
  }

  function WakeReader(c: Shared, f: Flags): Shared {
    if f.readerDropped then c else c.(reader := c.reader.WakeOnce())
  }

  function WakeWriter(c: Shared, f: Flags): Shared {
    if f.writerDropped then c else c.(writer := c.writer.WakeOnce())
  }

  function WakeToClose(c: Shared, f: Flags): Shared {
    var c1 := if !c.tcp.MayRecv() then WakeReader(c, f) else c;
    if !c1.tcp.MaySend() then WakeWriter(c1, f) else c1
  }

  /** A connection after its socket has processed a segment and become `tcp`. */
  function AfterProcess(c: Shared, f: Flags, tcp: Socket): Shared {
    var c1 := c.(tcp := tcp);
    WakeToClose(if tcp.CanRecv() then WakeReader(c1, f) else c1, f)
  }

  function QueueAfterProcess(clock: Clock, f: Flags, q: Queue, h: Handle, at: PollAt): Queue
  {
    QueueSend(clock, q, h, if f.Both() && at == Ingress && h !in q then Now else at)
  }

  /** Whether a dispatch that left the socket as `tcp` ends the connection. */
  predicate EndsAtDispatch<P>(f: Flags, tcp: Socket, emission: Emission<P>) {
    f.Both() && (!tcp.remote.IsSpecified() || emission.NothingToSend? || tcp.PollAt() == Ingress)
  }

  function AfterDispatch<P>(c: Shared, f: Flags, tcp: Socket, emission: Emission<P>): Shared {
    var c1 := WakeToClose(c.(tcp := tcp), f);
    var c2 := if tcp.CanSend() then WakeWriter(c1, f) else c1;
    if EndsAtDispatch(f, tcp, emission) then c2 else c2.(pollingActive := tcp.PollAt() == Now)
  }

  lemma DispatchSetsPolling<P>(c: Shared, f: Flags, tcp: Socket, emission: Emission<P>)
    ensures AfterDispatch(c, f, tcp, emission).tcp == tcp
    ensures !EndsAtDispatch(f, tcp, emission) ==>
              (AfterDispatch(c, f, tcp, emission).pollingActive <==> tcp.PollAt() == Now)
  {
  }

  function QueueAfterDispatch<P>(clock: Clock, f: Flags, q: Queue, h: Handle, tcp: Socket, emission: Emission<P>): Queue
  {
    if EndsAtDispatch(f, tcp, emission) then q else QueueSend(clock, q, h, tcp.PollAt())
  }

  /** Marking a half dropped with flags `f` already updated; `tcp` is the socket after `close`. */
  function AfterDropHalf(c: Shared, f: Flags, tcp: Socket): Shared {
    if f.writerDropped then c.(tcp := tcp) else c
  }

  function QueueAfterDropHalf(clock: Clock, f: Flags, q: Queue, h: Handle, tcp: Socket): Queue
  {
    if !f.writerDropped then q
    else QueueSend(clock, q, h, if f.Both() && tcp.PollAt() == Ingress then Now else tcp.PollAt())
  }

  datatype ReadResult = ReadPending | Bytes(data: seq<u8>) | EndOfStream | ReadAborted

  datatype ReadStep = ReadStep(shared: Shared, eofReached: bool, result: ReadResult)

  /** `poll_read_inner` with a buffer of `len` bytes, when `recv_slice` takes `taken` bytes and leaves the socket as `tcp`. */
  function PollRead(c: Shared, eofReached: bool, len: nat, taken: nat, tcp: Socket): (r: ReadStep)
    requires taken <= |c.tcp.rx|
  {
    var c1 := if c.tcp.CanRecv() then c.(tcp := tcp) else c;
    if c.tcp.CanRecv() && taken > 0 then ReadStep(c1, eofReached, Bytes(c.tcp.rx[..taken]))
    else if c1.tcp.MayRecv() || c1.tcp.state == SynReceived then
      ReadStep(c1.(reader := c1.reader.Register(len)), eofReached, ReadPending)
    else if eofReached then ReadStep(c1, true, ReadAborted)
    else ReadStep(c1, true, EndOfStream)
  }

  datatype WriteResult = WritePending | Written(n: nat) | WriteAborted

  /** `update` is the message sent to the loop, if any. */
  datatype WriteStep = WriteStep(shared: Shared, update: Option<PollAt>, result: WriteResult)

  function Notification(pollingActive: bool, tcp: Socket): Option<PollAt> {
    if pollingActive then None else Some(tcp.PollAt())
  }

  /** `poll_write_inner`, when `send_slice` leaves the socket as `tcp`. */
  function PollWrite(c: Shared, data: seq<u8>, tcp: Socket): (r: WriteStep) {
    var n := if c.tcp.CanSend() then Sendable(c.tcp, data) else 0;
    var c1 := if c.tcp.CanSend() then c.(tcp := tcp) else c;
    var update := Notification(c.pollingActive, c1.tcp);
    if n > 0 then WriteStep(c1, update, Written(n))
    else if !c1.tcp.MaySend() then WriteStep(c1, update, WriteAborted)
    else WriteStep(c1.(writer := c1.writer.Register(|data|)), update, WritePending)
  }

  datatype CloseStep = CloseStep(shared: Shared, update: Option<PollAt>)

  /** `poll_close_inner`, when `close` leaves the socket as `tcp`. */
  function PollClose(c: Shared, tcp: Socket): (r: CloseStep) {
    CloseStep(c.(tcp := tcp), Notification(c.pollingActive, tcp))
  }
}
