/** The check a connection makes before it lets its socket process a segment. */
module Acceptability {
  import opened Prelude
  import opened Addresses
  import opened Tcp

  /** `check_acceptability`. */
  function CheckAcceptability(tcp: Socket, seg: Segment): (r: Result<()>)
  {
    if tcp.state == Closed then Err(Dropped)
    else if tcp.state == Listen && seg.hasAck then Err(Dropped)
    else if tcp.local.port != seg.dst.port then Err(Dropped)
    else if !tcp.local.addr.IsUnspecified() && tcp.local.addr != seg.dst.addr then Err(Dropped)
    else if tcp.remote.port != 0 && tcp.remote.port != seg.src.port then Err(Dropped)
    else if !tcp.remote.addr.IsUnspecified() && tcp.remote.addr != seg.src.addr then Err(Dropped)
    else Ok(())
  }

  /** An open socket is bound to the endpoints of its key. */
  predicate Bound(tcp: Socket, key: AddrPair) {
    && key.local.WellFormed() && key.peer.WellFormed()
    && (tcp.state != Closed ==>
          && tcp.local == ToEndpoint(key.local)
          && (tcp.remote == NO_ENDPOINT || tcp.remote == ToEndpoint(key.peer)))
  }

  /** For a segment that was routed to the socket by its key, none of the four endpoint checks can
      reject: the outcome depends on the state alone. */
  lemma RoutedSegmentsPassEndpointChecks(tcp: Socket, key: AddrPair, seg: Segment)
    requires Bound(tcp, key)
    requires seg.WellFormed() && PairOf(seg.src, seg.dst) == Ok(key)
    ensures CheckAcceptability(tcp, seg).Err? <==> tcp.state == Closed || (tcp.state == Listen && seg.hasAck)
  {
    PairDeterminesEndpoints(seg.src, seg.dst, seg.src, seg.dst);
  }

  /** Processing a routed segment keeps the socket bound. */
  lemma ProcessKeepsBound(tcp: Socket, key: AddrPair, seg: Segment, text: seq<u8>, tcp': Socket)
    requires Bound(tcp, key)
    requires tcp.state != Closed
    requires seg.WellFormed() && PairOf(seg.src, seg.dst) == Ok(key)
    requires ProcessContract(tcp, seg, text, tcp')
    ensures Bound(tcp', key)
  {
    PairDeterminesEndpoints(seg.src, seg.dst, seg.src, seg.dst);
  }
}
