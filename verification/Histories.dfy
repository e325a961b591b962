/** What a stream's reader is given over the whole life of the connection, and the endpoints its socket is
    bound to. */
module Histories {
  import opened Prelude
  import opened Addresses
  import opened Tcp
  import opened Acceptability
  import opened ConnectionSpec
  import opened System
  import opened Ownership
  import opened Wakeups
  import opened LoopDiscipline
  import opened ConnectionLaws
  import opened Accounts

  /** Bytes delivered, then bytes waiting, then bytes discarded by the reset that ends TIME-WAIT, are the
      bytes accepted, in order. */
  predicate BytesConserved(st: Stream) {
    && st.accepted == st.delivered + st.shared.tcp.rx + st.lost
    && (st.lost != [] ==> st.shared.tcp.rx == [] && Finished(st.shared.tcp.state))
  }

  predicate StreamOk(st: Stream) {
    BytesConserved(st) && Bound(st.shared.tcp, st.handle) && AccountOk(st)
  }

  /** Nothing is left to read and nothing will ever come. */
  predicate Ended(st: Stream) {
    st.shared.tcp.rx == [] && Finished(st.shared.tcp.state)
  }

  /** The stream is not handed anything by the step. */
  predicate StaysEnded(st: Stream, st': Stream) {
    Ended(st) ==> Ended(st') && st'.delivered == st.delivered && st'.accepted == st.accepted
  }

  ghost predicate StreamsOk(s: State) {
    forall id :: id in s.streams ==> StreamOk(s.streams[id])
  }

  /** Every stream is as before, except that `id` may have moved on; streams that have ended stay so. */
  ghost predicate Advances(s: State, s': State, id: Id) {
    && id in s.streams && id in s'.streams
    && s'.streams == s.streams[id := s'.streams[id]]
    && s'.streams[id].handle == s.streams[id].handle
    && (StreamOk(s.streams[id]) ==> StreamOk(s'.streams[id]))
    && StaysEnded(s.streams[id], s'.streams[id])
  }

  lemma ReadKeepsStream(st: Stream, len: nat, taken: nat, after: Socket)
    requires taken <= |st.shared.tcp.rx|
    requires if st.shared.tcp.CanRecv() then RecvContract(st.shared.tcp, taken, after) else taken == 0 && after == st.shared.tcp
    ensures StreamOk(st) ==> StreamOk(AfterRead(st, len, taken, after))
    ensures StaysEnded(st, AfterRead(st, len, taken, after))
  {
    ReadLaw(st.shared, st.eofReached, len, taken, after);
    if AccountOk(st) { ReadKeepsAccount(st, len, taken, after); }
    hide PollRead, AccountOk;
    var rx := st.shared.tcp.rx;
    assert rx == rx[..taken] + rx[taken..];
    assert st.delivered + rx == st.delivered + rx[..taken] + rx[taken..];
    assert rx[0..] == rx && st.delivered + [] == st.delivered;
  }

  lemma ReadAdvances(s: State, id: Id, len: nat, taken: nat, after: Socket)
    requires ReadEnabled(s, id, len, taken, after)
    ensures Advances(s, NextRead(s, id, len, taken, after), id)
  {
    hide StreamOk, StaysEnded, PollRead;
    ReadKeepsStream(s.streams[id], len, taken, after);
  }

  lemma WriteKeepsStream(st: Stream, data: seq<u8>, after: Socket)
    requires st.shared.tcp.Valid()
    requires if st.shared.tcp.CanSend() then SendContract(st.shared.tcp, data, after) else after == st.shared.tcp
    ensures StreamOk(st) ==> StreamOk(AfterWrite(st, data, after))
    ensures StaysEnded(st, AfterWrite(st, data, after))
  {
    WriteLaw(st.shared, data, after);
    if AccountOk(st) { WriteKeepsAccount(st, data, after); }
    hide PollWrite, AccountOk, ToEndpoint;
  }

  lemma WriteAdvances(s: State, id: Id, data: seq<u8>, after: Socket)
    requires WriteEnabled(s, id, data, after) && s.streams[id].shared.tcp.Valid()
    ensures Advances(s, NextWrite(s, id, data, after), id)
  {
    hide StreamOk, StaysEnded, PollWrite;
    WriteKeepsStream(s.streams[id], data, after);
  }

  lemma SocketIsValid(s: State, id: Id)
    requires Owned(s) && id in s.streams
    ensures s.streams[id].shared.tcp.Valid()
  {
    hide TokensConserved, HalvesArePooled, PoolIsSound;
  }

  lemma CloseAdvances(s: State, id: Id, after: Socket)
    requires CloseEnabled(s, id, after)
    ensures Advances(s, NextClose(s, id, after), id)
  {
    hide AccountOk;
    if AccountOk(s.streams[id]) { CloseKeepsAccount(s.streams[id], after); }
  }

  lemma DropAdvances(s: State, id: Id, half: Half)
    requires DropEnabled(s, id, half)
    ensures Advances(s, NextDrop(s, id, half), id)
  {
  }

  lemma ResetKeepsBytes(st: Stream)
    requires BytesConserved(st)
    ensures st.accepted == st.delivered + [] + (st.lost + st.shared.tcp.rx)
    ensures st.lost + [] == st.lost
  {
  }

  lemma DispatchKeepsStream(st: Stream, f: Flags, after: Socket, emission: Emission<Packet>)
    requires DispatchContract(st.shared.tcp, after)
    ensures StreamOk(st) ==> StreamOk(DispatchedStream(st, f, after, emission))
    ensures StaysEnded(st, DispatchedStream(st, f, after, emission))
  {
    DispatchLaw(st.shared, f, after, emission);
    if AccountOk(st) { DispatchKeepsAccount(st, f, after, emission); }
    hide AfterDispatch, AccountOk, ToEndpoint;
    if BytesConserved(st) { ResetKeepsBytes(st); }
  }

  lemma DispatchAdvances(s: State, h: Handle, emission: Emission<Packet>, after: Socket)
    requires Known(s, h) && DispatchContract(SharedOf(s, h).tcp, after)
    ensures Advances(s, DispatchConnection(s, h, emission, after), s.pool[h].id)
  {
    hide DispatchedStream, StreamOk, StaysEnded, QueueAfterDispatch, EndsAtDispatch;
    var st, f := s.streams[s.pool[h].id], s.pool[h].flags;
    DispatchKeepsStream(st, f, after, emission);
    assert DispatchedStream(st, f, after, emission).handle == st.handle by { DispatchKeepsHandle(st, f, after, emission); }
  }

  lemma DispatchKeepsHandle(st: Stream, f: Flags, after: Socket, emission: Emission<Packet>)
    ensures DispatchedStream(st, f, after, emission).handle == st.handle
  {
  }

  lemma TextKeepsBytes(st: Stream, text: seq<u8>)
    requires BytesConserved(st)
    requires text != [] ==> !Finished(st.shared.tcp.state)
    ensures st.accepted + text == st.delivered + (st.shared.tcp.rx + text) + st.lost
  {
    if text == [] {
      assert st.accepted + text == st.accepted && st.shared.tcp.rx + text == st.shared.tcp.rx;
    } else {
      assert st.lost == [];
    }
  }

  lemma ProcessAdvances(s: State, h: Handle, seg: Segment, text: seq<u8>, after: Socket)
    requires Known(s, h) && s.streams[s.pool[h].id].handle == h
    requires seg.WellFormed() && PairOf(seg.src, seg.dst) == Ok(h)
    requires CheckAcceptability(SharedOf(s, h).tcp, seg).Ok? && ProcessContract(SharedOf(s, h).tcp, seg, text, after)
    ensures Advances(s, ProcessConnection(s, h, text, after), s.pool[h].id)
  {
    hide QueueAfterProcess, AfterProcess, PairOf, Bound, AccountOk, Freed;
    var st := s.streams[s.pool[h].id];
    ProcessServesStream(st.shared, s.pool[h].flags, after);
    if StreamOk(st) {
      ProcessKeepsBound(st.shared.tcp, h, seg, text, after);
      TextKeepsBytes(st, text);
      ProcessKeepsAccount(st, s.pool[h].flags, seg, text, after);
    }
  }

  lemma DropHalfAdvances(s: State, h: Handle, half: Half, after: Socket)
    requires Known(s, h) && CloseContract(SharedOf(s, h).tcp, after)
    ensures Advances(s, DropHalf(s, h, half, after), s.pool[h].id)
  {
    hide QueueAfterDropHalf, AccountOk;
    var st := s.streams[s.pool[h].id];
    if AccountOk(st) { DropHalfKeepsAccount(st, s.pool[h].flags.Mark(half), after); }
  }

  /** No stream is forgotten, renamed or, once it has ended, handed anything. */
  ghost predicate Grown(s: State, s': State) {
    forall id :: id in s.streams ==>
      && id in s'.streams
      && s'.streams[id].handle == s.streams[id].handle
      && StaysEnded(s.streams[id], s'.streams[id])
  }

  lemma AdvancesGrows(s: State, s': State, id: Id)
    requires StreamsOk(s) && Advances(s, s', id)
    ensures StreamsOk(s') && Grown(s, s')
  {
    hide StreamOk, StaysEnded;
    assert forall k :: k in s.streams && k != id ==> s'.streams[k] == s.streams[k];
    assert forall k :: k in s.streams ==> StaysEnded(s.streams[k], s.streams[k]) by {
      forall k | k in s.streams
        ensures StaysEnded(s.streams[k], s.streams[k])
      {
        EndedStays(s.streams[k]);
      }
    }
  }

  lemma EndedStays(st: Stream)
    ensures StaysEnded(st, st)
  {
  }

  lemma SameStreamsGrow(s: State, s': State)
    requires StreamsOk(s) && s'.streams == s.streams
    ensures StreamsOk(s') && Grown(s, s')
  {
    hide StreamOk;
  }

  lemma CreateGrows(s: State, id: Id, h: Handle, delivered: bool)
    requires StreamsOk(s) && id !in s.streams && h.local.WellFormed() && h.peer.WellFormed()
    ensures StreamsOk(CreateStream(s, id, h, delivered)) && Grown(s, CreateStream(s, id, h, delivered))
  {
    NewAccount(h, delivered);
    assert StreamOk(NewStream(h, delivered));
    hide StreamOk;
  }

  lemma HeadGrows(s: State, emission: Emission<Packet>, after: Socket)
    requires StreamsOk(s) && HeadEnabled(s, emission, after) && NextHead(s, emission, after).Running?
    ensures StreamsOk(NextHead(s, emission, after).state) && Grown(s, NextHead(s, emission, after).state)
  {
    hide NextHead, DispatchConnection, DispatchContract, StreamsOk, Grown;
    HeadCases(s, emission, after);
    var s' := NextHead(s, emission, after).state;
    var target := DispatchTarget(s.io);
    if target.Some? {
      DispatchAdvances(TakePoll(s), target.value, emission, after);
      AdvancesGrows(s, s', s.pool[target.value].id);
    } else {
      SameStreamsGrow(s, s');
    }
  }

  lemma ProcessGrows(s: State, text: seq<u8>, reply: Option<Packet>, after: Socket)
    requires Owned(s) && LoopOk(s) && StreamsOk(s) && ProcessEnabled(s, text, reply, after)
    requires NextProcess(s, text, reply, after).Running?
    ensures StreamsOk(NextProcess(s, text, reply, after).state) && Grown(s, NextProcess(s, text, reply, after).state)
  {
    hide NextProcess, ProcessConnection, ProcessContract, StreamsOk, Grown, TokensConserved, HalvesArePooled,
      SocketsValid, PairOf, CheckAcceptability, PacketsConserved, MessagesConserved, RepliesOk;
    ProcessCases(s, text, reply, after);
    var s' := NextProcess(s, text, reply, after).state;
    var h := s.io.phase.h;
    if Acceptable(s) {
      ProcessAdvances(s, h, s.io.phase.seg, text, after);
      AdvancesGrows(s, s', s.pool[h].id);
    } else {
      SameStreamsGrow(s, s');
    }
  }

  lemma SelectReadGrows(s: State, frame: Frame, id: Id, listens: bool, delivered: bool)
    requires StreamsOk(s) && SelectReadEnabled(s, frame, id)
    ensures var s' := NextSelectRead(s, frame, id, listens, delivered); StreamsOk(s') && Grown(s, s')
  {
    hide StreamsOk, Grown, NextSelectRead, CreateStream, RouteOf;
    SelectReadCases(s, frame, id, listens, delivered);
    var s' := NextSelectRead(s, frame, id, listens, delivered);
    var route := RouteOf(s.pool.Keys, frame);
    if route.New? && listens {
      CreateGrows(s, id, route.h, delivered);
      SameGrows(s, CreateStream(s, id, route.h, delivered), s');
    } else {
      SameStreamsGrow(s, s');
    }
  }

  lemma SameGrows(s: State, s1: State, s': State)
    requires StreamsOk(s1) && Grown(s, s1) && s'.streams == s1.streams
    ensures StreamsOk(s') && Grown(s, s')
  {
    hide StreamOk, StaysEnded;
  }

  lemma HandleCloseGrows(s: State, after: Socket)
    requires StreamsOk(s) && HandleCloseEnabled(s, after) && NextHandleClose(s, after).Running?
    ensures var s' := NextHandleClose(s, after).state; StreamsOk(s') && Grown(s, s')
  {
    hide StreamsOk, Grown, CloseContract, AfterDropHalf, QueueAfterDropHalf;
    var m := s.io.phase.close;
    DropHalfAdvances(s, m.0, m.1, after);
    AdvancesGrows(s, NextHandleClose(s, after).state, s.pool[m.0].id);
  }

  lemma StreamsOkPreserved(s: State, e: Event)
    requires Owned(s) && LoopOk(s) && StreamsOk(s) && Enabled(s, e) && Next(s, e).Running?
    ensures StreamsOk(Next(s, e).state) && Grown(s, Next(s, e).state)
  {
    hide Owned, LoopOk, StreamsOk, Grown, Advances, NextRead, NextWrite, NextClose, NextDrop, NextSelectRead, NextHead,
      NextProcess, NextHandleClose;
    match e
    case ReadStream(id, len, taken, after) =>
      ReadAdvances(s, id, len, taken, after);
      AdvancesGrows(s, NextRead(s, id, len, taken, after), id);
    case WriteStream(id, data, after) =>
      SocketIsValid(s, id);
      WriteAdvances(s, id, data, after);
      AdvancesGrows(s, NextWrite(s, id, data, after), id);
    case CloseStream(id, after) =>
      CloseAdvances(s, id, after);
      AdvancesGrows(s, NextClose(s, id, after), id);
    case DropReader(id) =>
      DropAdvances(s, id, Read);
      AdvancesGrows(s, NextDrop(s, id, Read), id);
    case DropWriter(id) =>
      DropAdvances(s, id, Write);
      AdvancesGrows(s, NextDrop(s, id, Write), id);
    case Head(emission, after) => HeadGrows(s, emission, after);
    case SelectRead(frame, id, listens, delivered) => SelectReadGrows(s, frame, id, listens, delivered);
    case Process(text, reply, after) => ProcessGrows(s, text, reply, after);
    case HandleClose(after) => HandleCloseGrows(s, after);
    case HandleUpdate => SameStreamsGrow(s, NextHandleUpdate(s).state);
    case Expire(h) => SameStreamsGrow(s, NextExpire(s, h));
    case _ =>
      QuietCases(s, e);
      SameStreamsGrow(s, Next(s, e).state);
  }
}
