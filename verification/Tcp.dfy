/** The TCP engine as ustunet sees it: a socket value and, for each call, what a caller may rely on.

    The engine itself is not part of the repository. Each `...Contract` predicate relates the socket
    before a call to the socket after it, and leaves everything it does not mention open. */
module Tcp {
  import opened Prelude
  import opened Addresses

  const BUFFER_SIZE := 32768

  datatype TcpState =
    | Closed | Listen | SynSent | SynReceived | Established | FinWait1 | FinWait2
    | CloseWait | Closing | LastAck | TimeWait

  /** No SYN has been matched yet. */
  predicate Unsynchronized(state: TcpState) {
    state == Listen || state == SynSent
  }

  /** The peer may still send text. */
  predicate Receiving(state: TcpState) {
    state == Established || state == FinWait1 || state == FinWait2
  }

  /** The peer will never send text again. */
  predicate Finished(state: TcpState) {
    state in {CloseWait, Closing, LastAck, TimeWait, Closed}
  }

  /** A CLOSE has been issued, or the connection is over: nothing more may be sent, ever. */
  predicate SendClosed(state: TcpState) {
    state in {FinWait1, FinWait2, Closing, LastAck, TimeWait, Closed}
  }

  /** How the state may move: text can never be accepted again once the peer has finished, nothing can be sent again
      after a CLOSE, and a closed socket stays closed. */
  predicate Moves(before: TcpState, after: TcpState) {
    && (before == Closed ==> after == Closed)
    && (SendClosed(before) ==> SendClosed(after))
    && (Finished(before) ==> Finished(after))
    && (Receiving(before) ==> Receiving(after) || Finished(after))
  }

  /** The CLOSE call of section 3.9 of RFC 793. */
  function CloseState(state: TcpState): (r: TcpState)
    ensures Moves(state, r)
    ensures SendClosed(r)
  {
    match state
    case Listen | SynSent => Closed
    case SynReceived | Established => FinWait1
    case CloseWait => LastAck
    case _ => state
  }

  datatype PollAt = Now | Time(millis: i64) | Ingress

  /** The minimum in the order Now, times, Ingress. */
  function Earlier(a: PollAt, b: PollAt): (r: PollAt)
    ensures r == a || r == b
    ensures r == Ingress <==> a == Ingress && b == Ingress
    ensures r == Now <==> a == Now || b == Now
  {
    if a.Now? || b.Ingress? then a
    else if b.Now? || a.Ingress? then b
    else if a.millis <= b.millis then a else b
  }

  datatype Control = NoControl | Psh | Syn | Fin | Rst

  /** The header of an incoming segment. */
  datatype Segment = Segment(src: Endpoint, dst: Endpoint, control: Control, hasAck: bool) {
    predicate WellFormed() {
      src.addr.WellFormed() && dst.addr.WellFormed()
    }
  }

  /** `txPoll` is when the socket wants to be dispatched to transmit or retransmit, `ackPoll` when it
      wants to be dispatched for an acknowledgement or a window update. */
  datatype Socket = Socket(
    state: TcpState,
    local: Endpoint,
    remote: Endpoint,
    rx: seq<u8>,
    tx: seq<u8>,
    inFlight: nat,
    txPoll: PollAt,
    ackPoll: PollAt)
  {
    predicate MayRecv() { Receiving(state) || rx != [] }
    predicate CanRecv() { MayRecv() && rx != [] }
    predicate MaySend() { state == Established || state == CloseWait }
    predicate CanSend() { MaySend() && |tx| < BUFFER_SIZE }
    function PollAt(): PollAt { Earlier(txPoll, ackPoll) }

    /** In-flight bytes are at the front of the transmit buffer; they and TIME-WAIT keep a timer running. */
    predicate Valid() {
      && |tx| <= BUFFER_SIZE
      && inFlight <= |tx|
      && (inFlight > 0 || state == TimeWait ==> txPoll != Ingress)
    }
  }

  /** `open_socket`: a fresh socket listening on `local`. */
  function Listening(local: Endpoint): (s: Socket)
    ensures s.Valid()
  {
    Socket(Listen, local, NO_ENDPOINT, [], [], 0, Ingress, Ingress)
  }

  /** `recv_slice` taking `n` bytes: it may change the window, never what is to be transmitted. */
  predicate RecvContract(s: Socket, n: nat, s': Socket) {
    n <= |s.rx| && s' == s.(rx := s.rx[n..], ackPoll := s'.ackPoll)
  }

  /** How many bytes of `data` a `send_slice` call takes. */
  function Sendable(s: Socket, data: seq<u8>): (n: nat)
    ensures n <= |data|
    ensures n == 0 <==> data == [] || |s.tx| >= BUFFER_SIZE
    ensures n > 0 ==> |s.tx| + n <= BUFFER_SIZE
  {
    var room := BUFFER_SIZE - |s.tx|;
    if room <= 0 then 0 else if |data| <= room then |data| else room
  }

  predicate SendContract(s: Socket, data: seq<u8>, s': Socket) {
    && s'.Valid()
    && s' == s.(tx := s.tx + data[..Sendable(s, data)], txPoll := s'.txPoll, ackPoll := s'.ackPoll)
  }

  predicate CloseContract(s: Socket, s': Socket) {
    && s'.Valid()
    && s' == s.(state := CloseState(s.state), txPoll := s'.txPoll, ackPoll := s'.ackPoll)
  }

  /** `process`: text is accepted in a receiving state, or in SYN-RECEIVED by the segment that leaves it;
      acknowledgements free bytes that were in flight; the endpoints are taken from the segment. */
  predicate ProcessContract(s: Socket, seg: Segment, text: seq<u8>, s': Socket) {
    && s'.Valid()
    && Moves(s.state, s'.state)
    && s'.rx == s.rx + text
    && (text != [] ==> Receiving(s.state) || (s.state == SynReceived && (Receiving(s'.state) || Finished(s'.state))))
    && |s'.tx| <= |s.tx| && |s.tx| - |s'.tx| <= s.inFlight && s'.tx == s.tx[|s.tx| - |s'.tx|..]
    && (s'.state != Closed ==> s'.local == s.local || s'.local == seg.dst)
    && (s'.state != Closed ==> s'.remote == s.remote || s'.remote == NO_ENDPOINT || s'.remote == seg.src)
  }

  /** What `dispatch` did: hand a packet to the emit callback, find nothing to send, or fail. */
  datatype Emission<+P> = Emitted(packet: P) | NothingToSend | EmitFailed

  /** `dispatch` takes no text and frees no transmit bytes; the end of TIME-WAIT resets the socket, which
      discards both buffers. */
  predicate DispatchContract(s: Socket, s': Socket) {
    && s'.Valid()
    && Moves(s.state, s'.state)
    && (s'.rx == s.rx || (s'.rx == [] && s.state == TimeWait && s'.state == Closed))
    && (s'.tx == s.tx || (s'.tx == [] && s.state == TimeWait && s'.state == Closed))
    && (s'.state != Closed ==> s'.local == s.local)
    && (s'.state != Closed ==> s'.remote == s.remote || s'.remote == NO_ENDPOINT)
  }
}
