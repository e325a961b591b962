/** What a stream owes to its writer and to the calls that returned pending: every byte reported as written is
    accounted for, a closed side stays closed, and a call that has not been woken since is still registered. */
module Accounts {
  import opened Prelude
  import opened Addresses
  import opened Tcp
  import opened ConnectionSpec
  import opened ConnectionLaws
  import opened System

  /** The half's last call returned pending, and nothing has woken it since. */
  predicate Waits(call: Option<Call>, w: Waker) {
    call.Some? && w.woken == call.value.woken
  }

  /** If the half has not been woken since the call returned pending, its waker is registered with that call. */
  predicate CallOk(call: Option<Call>, w: Waker) {
    call.Some? ==>
      call.value.woken <= w.woken && (Waits(call, w) ==> w.slot == Some(Registration(call.value.len)))
  }

  /** Bytes acknowledged, then bytes waiting, then bytes discarded by the reset that ends TIME-WAIT, are the bytes
      reported as written, in order. */
  predicate WritesConserved(st: Stream) {
    && st.written == st.acked + st.shared.tcp.tx + st.unsent
    && (st.unsent != [] ==> st.shared.tcp.tx == [] && st.shared.tcp.state == Closed)
  }

  predicate AccountOk(st: Stream) {
    && WritesConserved(st)
    && (st.writerClosed ==> SendClosed(st.shared.tcp.state) && st.writeCall.None?)
    && CallOk(st.readCall, st.shared.reader) && CallOk(st.writeCall, st.shared.writer)
  }

  lemma NewAccount(h: Handle, live: bool)
    requires h.local.WellFormed()
    ensures AccountOk(NewStream(h, live))
  {
  }

  lemma ReadKeepsAccount(st: Stream, len: nat, taken: nat, after: Socket)
    requires AccountOk(st) && taken <= |st.shared.tcp.rx|
    requires if st.shared.tcp.CanRecv() then RecvContract(st.shared.tcp, taken, after) else taken == 0 && after == st.shared.tcp
    ensures AccountOk(AfterRead(st, len, taken, after))
  {
    ReadLaw(st.shared, st.eofReached, len, taken, after);
    hide PollRead;
  }

  lemma WriteKeepsAccount(st: Stream, data: seq<u8>, after: Socket)
    requires AccountOk(st) && |st.shared.tcp.tx| <= BUFFER_SIZE
    requires if st.shared.tcp.CanSend() then SendContract(st.shared.tcp, data, after) else after == st.shared.tcp
    ensures AccountOk(AfterWrite(st, data, after))
  {
    WriteLaw(st.shared, data, after);
    var r := PollWrite(st.shared, data, after);
    hide PollWrite;
    if r.result.Written? {
      var taken := data[..r.result.n];
      assert st.acked + st.shared.tcp.tx + [] + taken == st.acked + (st.shared.tcp.tx + taken) + [];
    }
  }

  lemma CloseKeepsAccount(st: Stream, after: Socket)
    requires AccountOk(st) && CloseContract(st.shared.tcp, after)
    ensures AccountOk(AfterClose(st, after))
  {
  }

  /** The socket of a stream moved on, and its wakers were left alone or woken. */
  lemma SocketKeepsAccount(st: Stream, st': Stream)
    requires AccountOk(st) && Moves(st.shared.tcp.state, st'.shared.tcp.state) && WritesConserved(st')
    requires st'.writerClosed == st.writerClosed && st'.readCall == st.readCall && st'.writeCall == st.writeCall
    requires st'.shared.reader == st.shared.reader || OnceWoken(st.shared.reader, st'.shared.reader)
    requires st'.shared.writer == st.shared.writer || OnceWoken(st.shared.writer, st'.shared.writer)
    ensures AccountOk(st')
  {
  }

  lemma AckedBytes(st: Stream, seg: Segment, text: seq<u8>, after: Socket)
    requires WritesConserved(st) && ProcessContract(st.shared.tcp, seg, text, after)
    ensures WritesConserved(st.(shared := st.shared.(tcp := after), acked := st.acked + Freed(st.shared.tcp, after)))
  {
    var tx, freed := st.shared.tcp.tx, Freed(st.shared.tcp, after);
    assert tx == freed + after.tx;
    assert st.acked + tx + st.unsent == st.acked + freed + after.tx + st.unsent;
  }

  lemma ProcessKeepsAccount(st: Stream, f: Flags, seg: Segment, text: seq<u8>, after: Socket)
    requires AccountOk(st) && ProcessContract(st.shared.tcp, seg, text, after)
    ensures AccountOk(ProcessedStream(st, f, text, after))
  {
    AckedBytes(st, seg, text, after);
    ProcessLaw(st.shared, f, after);
    hide AfterProcess, Freed;
    SocketKeepsAccount(st, ProcessedStream(st, f, text, after));
  }

  lemma ResetBytes(st: Stream, f: Flags, after: Socket, emission: Emission<Packet>)
    requires WritesConserved(st) && DispatchContract(st.shared.tcp, after)
    ensures WritesConserved(DispatchedStream(st, f, after, emission))
  {
    DispatchLaw(st.shared, f, after, emission);
    hide AfterDispatch;
    var unsent := DispatchedStream(st, f, after, emission).unsent;
    assert st.unsent + [] == st.unsent;
    if after.tx != st.shared.tcp.tx {
      assert st.unsent == [] && unsent == st.shared.tcp.tx;
      assert st.acked + st.shared.tcp.tx + [] == st.acked + [] + st.shared.tcp.tx;
    }
  }

  lemma DispatchKeepsAccount(st: Stream, f: Flags, after: Socket, emission: Emission<Packet>)
    requires AccountOk(st) && DispatchContract(st.shared.tcp, after)
    ensures AccountOk(DispatchedStream(st, f, after, emission))
  {
    ResetBytes(st, f, after, emission);
    DispatchLaw(st.shared, f, after, emission);
    hide AfterDispatch, WritesConserved;
    SocketKeepsAccount(st, DispatchedStream(st, f, after, emission));
  }

  lemma DropHalfKeepsAccount(st: Stream, f: Flags, after: Socket)
    requires AccountOk(st) && CloseContract(st.shared.tcp, after)
    ensures AccountOk(st.(shared := AfterDropHalf(st.shared, f, after)))
  {
  }
}
