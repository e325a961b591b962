/** What the operations on one connection answer and leave behind, said in the fields of the socket, the flags, the
    wakers and the queue. */
module ConnectionLaws {
  import opened Prelude
  import opened Addresses
  import opened Tcp
  import opened Time
  import opened ConnectionSpec

  /** `at` is the first of the two times at which the socket wants to be dispatched. */
  predicate IsFirst(tcp: Socket, at: PollAt) {
    && (at == Now <==> tcp.txPoll == Now || tcp.ackPoll == Now)
    && (at == Ingress <==> tcp.txPoll == Ingress && tcp.ackPoll == Ingress)
    && (at.Time? ==>
          && (at == tcp.txPoll || at == tcp.ackPoll)
          && (tcp.txPoll.Time? ==> at.millis <= tcp.txPoll.millis)
          && (tcp.ackPoll.Time? ==> at.millis <= tcp.ackPoll.millis))
  }

  function First(tcp: Socket): PollAt {
    if tcp.txPoll == Now || tcp.ackPoll == Now then Now
    else if tcp.txPoll == Ingress then tcp.ackPoll
    else if tcp.ackPoll == Ingress || tcp.txPoll.millis <= tcp.ackPoll.millis then tcp.txPoll
    else tcp.ackPoll
  }

  lemma FirstIsFirst(tcp: Socket)
    ensures IsFirst(tcp, First(tcp))
  {
  }

  lemma FirstIsUnique(tcp: Socket, a: PollAt, b: PollAt)
    requires IsFirst(tcp, a) && IsFirst(tcp, b)
    ensures a == b
  {
  }

  predicate MaySendIn(state: TcpState) {
    state == Established || state == CloseWait
  }

  /** The instant an engine's time stands for: the start of the clock for now, nothing for ingress. */
  function Instant(clock: Clock, at: PollAt): Option<nat> {
    match at
    case Now => Some(clock.start)
    case Time(millis) => Some(clock.start + AsU64(millis) * NANOS_PER_MILLI)
    case Ingress => None
  }

  /** The queue with a new deadline for `h`, if there is one. */
  function Put(q: Queue, h: Handle, deadline: Option<nat>): Queue {
    if deadline.Some? then q[h := deadline.value] else q
  }

  /** A waker after something that wakes it: a task that was waiting is not waiting any more and was woken once. */
  predicate OnceWoken(w: Waker, w': Waker) {
    w' == if w.slot.Some? then Waker(None, w.woken + 1) else w
  }

  /** Reading: bytes when some were taken, pending exactly when none were and some may still come, and then the caller's
      waker is registered; otherwise end of stream, once. */
  lemma ReadLaw(c: Shared, eofReached: bool, len: nat, taken: nat, tcp: Socket)
    requires if c.tcp.CanRecv() then RecvContract(c.tcp, taken, tcp) else taken == 0 && tcp == c.tcp
    ensures var r := PollRead(c, eofReached, len, taken, tcp);
            var waits := taken == 0 && (c.tcp.rx != [] || Receiving(c.tcp.state) || c.tcp.state == SynReceived);
            var over := taken == 0 && !waits;
            && (r.result.Bytes? <==> taken > 0) && (r.result.Bytes? ==> r.result.data == c.tcp.rx[..taken])
            && (r.result == ReadPending <==> waits)
            && (r.result == EndOfStream <==> over && !eofReached)
            && (r.result == ReadAborted <==> over && eofReached)
            && (r.eofReached <==> eofReached || over)
            && r.shared == c.(tcp := tcp, reader := if waits then Waker(Some(Registration(len)), c.reader.woken) else c.reader)
  {
    assert c.tcp.rx[0..] == c.tcp.rx;
  }

  /** Writing: as many bytes as fit are taken and reported, and they are at the end of the transmit buffer; it fails
      exactly when nothing may be sent, and is pending exactly when something may but nothing was taken, and then the
      caller's waker is registered. The loop is told exactly when polling is not active. */
  lemma WriteLaw(c: Shared, data: seq<u8>, tcp: Socket)
    requires |c.tcp.tx| <= BUFFER_SIZE
    requires if c.tcp.CanSend() then SendContract(c.tcp, data, tcp) else tcp == c.tcp
    ensures var r := PollWrite(c, data, tcp);
            var may := MaySendIn(c.tcp.state);
            var full := |c.tcp.tx| == BUFFER_SIZE;
            && (r.result.Written? <==> may && !full && data != [])
            && (r.result.Written? ==>
                  && 0 < r.result.n <= |data| && tcp.tx == c.tcp.tx + data[..r.result.n]
                  && (r.result.n == |data| || |tcp.tx| == BUFFER_SIZE))
            && (!r.result.Written? ==> tcp.tx == c.tcp.tx)
            && (r.result == WriteAborted <==> !may)
            && (r.result == WritePending <==> may && (full || data == []))
            && r.shared == c.(tcp := tcp, writer := if r.result == WritePending
                                                    then Waker(Some(Registration(|data|)), c.writer.woken) else c.writer)
            && (if c.pollingActive then r.update == None else r.update.Some? && IsFirst(tcp, r.update.value))
  {
    assert data[..0] == [] && c.tcp.tx + [] == c.tcp.tx;
  }

  /** Closing: the socket is closed whatever the flag says, and the loop is told exactly when polling is not active. */
  lemma CloseLaw(c: Shared, tcp: Socket)
    requires CloseContract(c.tcp, tcp)
    ensures var r := PollClose(c, tcp);
            && r.shared == c.(tcp := tcp)
            && tcp.state == CloseState(c.tcp.state) && tcp.rx == c.tcp.rx && tcp.tx == c.tcp.tx
            && (if c.pollingActive then r.update == None else r.update.Some? && IsFirst(tcp, r.update.value))
  {
  }

  /** Sending an engine's time to the queue. */
  lemma SendLaw(clock: Clock, q: Queue, h: Handle, at: PollAt)
    ensures QueueSend(clock, q, h, at) == Put(q, h, Instant(clock, at))
  {
  }

  /** Processing wakes the reader when there is something to receive or nothing ever will be, the writer when nothing may
      be sent, and nobody else; a half that is marked dropped is left alone. */
  lemma ProcessLaw(c: Shared, f: Flags, tcp: Socket)
    ensures var c' := AfterProcess(c, f, tcp);
            && c'.tcp == tcp && c'.pollingActive == c.pollingActive
            && (if !f.readerDropped && (tcp.rx != [] || !Receiving(tcp.state)) then OnceWoken(c.reader, c'.reader)
                else c'.reader == c.reader)
            && (if !f.writerDropped && !MaySendIn(tcp.state) then OnceWoken(c.writer, c'.writer)
                else c'.writer == c.writer)
  {
  }

  /** It queues the handle for when the engine wants it; only if the engine wants nothing, both halves are marked dropped
      and the handle is not queued, it is queued for now. */
  lemma ProcessQueueLaw(clock: Clock, f: Flags, q: Queue, h: Handle, tcp: Socket, at: PollAt)
    requires IsFirst(tcp, at)
    ensures QueueAfterProcess(clock, f, q, h, tcp.PollAt()) ==
            Put(q, h, if at == Ingress && f.readerDropped && f.writerDropped && h !in q then Some(clock.start)
                      else Instant(clock, at))
  {
    FirstIsUnique(tcp, at, tcp.PollAt());
  }

  /** A dispatch ends the connection exactly when both halves are marked dropped and the remote is not specified, or
      nothing was sent, or the socket does not want to be dispatched again. */
  lemma RemovalLaw<P>(f: Flags, tcp: Socket, emission: Emission<P>)
    ensures EndsAtDispatch(f, tcp, emission) <==>
              && f.readerDropped && f.writerDropped
              && (tcp.remote.addr.IsUnspecified() || tcp.remote.port == 0 || emission.NothingToSend?
                  || (tcp.txPoll == Ingress && tcp.ackPoll == Ingress))
  {
  }

  /** It wakes the reader when nothing ever will be received, the writer when there is room or nothing may be sent, and
      nobody else; if the connection survives, polling is active exactly when the socket wants to be dispatched now. */
  lemma DispatchLaw<P>(c: Shared, f: Flags, tcp: Socket, emission: Emission<P>)
    ensures var c' := AfterDispatch(c, f, tcp, emission);
            && c'.tcp == tcp
            && (if !f.readerDropped && tcp.rx == [] && !Receiving(tcp.state) then OnceWoken(c.reader, c'.reader)
                else c'.reader == c.reader)
            && (if !f.writerDropped && (!MaySendIn(tcp.state) || |tcp.tx| < BUFFER_SIZE) then OnceWoken(c.writer, c'.writer)
                else c'.writer == c.writer)
            && (!EndsAtDispatch(f, tcp, emission) ==> (c'.pollingActive <==> tcp.txPoll == Now || tcp.ackPoll == Now))
  {
  }

  lemma DispatchQueueLaw<P>(clock: Clock, f: Flags, q: Queue, h: Handle, tcp: Socket, emission: Emission<P>, at: PollAt)
    requires IsFirst(tcp, at)
    ensures QueueAfterDispatch(clock, f, q, h, tcp, emission) ==
            if EndsAtDispatch(f, tcp, emission) then q else Put(q, h, Instant(clock, at))
  {
    FirstIsUnique(tcp, at, tcp.PollAt());
  }

  /** Marking a half closes the socket exactly when the writer is marked afterwards, and touches nothing else. */
  lemma DropHalfLaw(c: Shared, f: Flags, half: Half, tcp: Socket)
    requires CloseContract(c.tcp, tcp)
    ensures var f' := f.Mark(half);
            var c' := AfterDropHalf(c, f', tcp);
            && (f'.readerDropped <==> f.readerDropped || half == Read)
            && (f'.writerDropped <==> f.writerDropped || half == Write)
            && c' == c.(tcp := if f'.writerDropped then tcp else c.tcp)
            && (f'.writerDropped ==> c'.tcp.state == CloseState(c.tcp.state))
  {
  }

  /** Then it queues the handle for when the engine wants it, or for now if the engine wants nothing and both halves are
      marked. */
  lemma DropHalfQueueLaw(clock: Clock, f: Flags, q: Queue, h: Handle, tcp: Socket, at: PollAt)
    requires IsFirst(tcp, at)
    ensures QueueAfterDropHalf(clock, f, q, h, tcp) ==
            if !f.writerDropped then q
            else Put(q, h, if at == Ingress && f.readerDropped then Some(clock.start) else Instant(clock, at))
  {
    FirstIsUnique(tcp, at, tcp.PollAt());
  }
}
