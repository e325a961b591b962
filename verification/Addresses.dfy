/** Endpoints, socket addresses and the pair that keys a connection. */
module Addresses {
  import opened Prelude

  /** An address of the packet engine; octets are in network order. */
  datatype IpAddress = Unspecified | V4(octets: seq<u8>) | V6(octets: seq<u8>) {
    predicate WellFormed() {
      match this
      case Unspecified => true
      case V4(o) => |o| == 4
      case V6(o) => |o| == 16
    }

    predicate IsUnspecified() {
      Unspecified? || forall i :: 0 <= i < |octets| ==> octets[i] == 0
    }
  }

  datatype Endpoint = Endpoint(addr: IpAddress, port: u16) {
    predicate IsSpecified() {
      !addr.IsUnspecified() && port != 0
    }
  }

  const NO_ENDPOINT := Endpoint(Unspecified, 0)

  /** An address of the operating system's API: an IPv6 address is eight 16-bit parts. */
  datatype SocketAddr = SocketV4(octets: seq<u8>, port: u16) | SocketV6(parts: seq<u16>, port: u16) {
    predicate WellFormed() {
      match this
      case SocketV4(o, _) => |o| == 4
      case SocketV6(p, _) => |p| == 8
    }
  }

  /** Client and server of a connection, the key of every table in the program. */
  datatype AddrPair = AddrPair(peer: SocketAddr, local: SocketAddr)

  type Handle = AddrPair

  function Parts(octets: seq<u8>): (parts: seq<u16>)
    requires |octets| == 16
  {
    seq(8, i requires 0 <= i < 8 => octets[2 * i] as int * 0x100 + octets[2 * i + 1])
  }

  function Octets(parts: seq<u16>): (octets: seq<u8>)
    requires |parts| == 8
    ensures |octets| == 16
  {
    seq(16, i requires 0 <= i < 16 => if i % 2 == 0 then parts[i / 2] / 0x100 else parts[i / 2] % 0x100)
  }

  /** `convert_to_socket_address`. */
  function Convert(addr: IpAddress, port: u16): (r: Result<SocketAddr>)
    requires addr.WellFormed()
    ensures r.Err? <==> addr.Unspecified?
    ensures r.Ok? ==> r.value.WellFormed()
  {
    match addr
    case Unspecified => Err(Unrecognized)
    case V4(o) => Ok(SocketV4(o, port))
    case V6(o) => Ok(SocketV6(Parts(o), port))
  }

  /** The endpoint a listening socket is given for a socket address. */
  function ToEndpoint(sa: SocketAddr): (e: Endpoint)
    requires sa.WellFormed()
    ensures e.addr.WellFormed()
  {
    match sa
    case SocketV4(o, port) => Endpoint(V4(o), port)
    case SocketV6(p, port) => Endpoint(V6(Octets(p)), port)
  }

  lemma OctetsOfParts(octets: seq<u8>)
    requires |octets| == 16
    ensures Octets(Parts(octets)) == octets
  {
  }

  /** Conversion fails for an address that is neither IPv4 nor IPv6 and for no other; converting an endpoint and back
      gives the endpoint. */
  lemma ConvertRoundTrip(e: Endpoint)
    requires e.addr.WellFormed()
    ensures Convert(e.addr, e.port) == Err(Unrecognized) <==> e.addr.Unspecified?
    ensures Convert(e.addr, e.port).Ok? <==> !e.addr.Unspecified?
    ensures Convert(e.addr, e.port).Ok? ==> ToEndpoint(Convert(e.addr, e.port).value) == e
  {
    if e.addr.V6? {
      OctetsOfParts(e.addr.octets);
    }
  }

  /** The number an address stands for, read from its octets. */
  function NumberOfOctets(octets: seq<u8>): nat {
    if octets == [] then 0 else NumberOfOctets(octets[..|octets| - 1]) * 0x100 + octets[|octets| - 1]
  }

  /** The number an address stands for, read from its parts. */
  function NumberOfParts(parts: seq<u16>): nat {
    if parts == [] then 0 else NumberOfParts(parts[..|parts| - 1]) * 0x1_0000 + parts[|parts| - 1]
  }

  lemma {:induction false} PartsKeepPrefix(octets: seq<u8>, k: nat)
    requires |octets| == 16 && k <= 8
    ensures NumberOfOctets(octets[..2 * k]) == NumberOfParts(Parts(octets)[..k])
  {
    if k > 0 {
      PartsKeepPrefix(octets, k - 1);
      var o, p := octets[..2 * k], Parts(octets)[..k];
      assert o[..|o| - 1][..|o| - 2] == octets[..2 * (k - 1)] && p[..|p| - 1] == Parts(octets)[..k - 1];
      assert o[..|o| - 1] != [] && o[..|o| - 1][|o| - 2] == octets[2 * k - 2];
    }
  }

  /** An IPv6 address is the same number before and after its conversion, octets and parts in network order. */
  lemma ConvertKeepsNumber(octets: seq<u8>, port: u16)
    requires |octets| == 16
    ensures var r := Convert(V6(octets), port);
            r.Ok? && r.value.SocketV6? && r.value.port == port && NumberOfParts(r.value.parts) == NumberOfOctets(octets)
  {
    PartsKeepPrefix(octets, 8);
    assert octets[..16] == octets && Parts(octets)[..8] == Parts(octets);
  }

  /** The key of a segment sent from `src` to `dst`. */
  function PairOf(src: Endpoint, dst: Endpoint): (r: Result<AddrPair>)
    requires src.addr.WellFormed() && dst.addr.WellFormed()
    ensures r.Ok? ==> r.value.peer.WellFormed() && r.value.local.WellFormed()
  {
    var peer := Convert(src.addr, src.port);
    if peer.Err? then Err(peer.error) else
    var local := Convert(dst.addr, dst.port);
    if local.Err? then Err(local.error) else Ok(AddrPair(peer.value, local.value))
  }

  /** Distinct IPv4 or IPv6 four-tuples have distinct keys, and the key determines the four-tuple. */
  lemma PairDeterminesEndpoints(src: Endpoint, dst: Endpoint, src': Endpoint, dst': Endpoint)
    requires src.addr.WellFormed() && dst.addr.WellFormed()
    requires src'.addr.WellFormed() && dst'.addr.WellFormed()
    requires PairOf(src, dst).Ok? && PairOf(src', dst').Ok?
    ensures PairOf(src, dst) == PairOf(src', dst') <==> src == src' && dst == dst'
    ensures ToEndpoint(PairOf(src, dst).value.peer) == src
    ensures ToEndpoint(PairOf(src, dst).value.local) == dst
  {
    ConvertRoundTrip(src);
    ConvertRoundTrip(dst);
    ConvertRoundTrip(src');
    ConvertRoundTrip(dst');
  }

  lemma PartOfOctets(parts: seq<u16>, k: nat)
    requires |parts| == 8 && k < 8
    ensures Octets(parts)[2 * k] == parts[k] / 0x100 && Octets(parts)[2 * k + 1] == parts[k] % 0x100
  {
    assert (2 * k) / 2 == k && (2 * k) % 2 == 0;
    assert (2 * k + 1) / 2 == k && (2 * k + 1) % 2 == 1;
  }

  lemma PartsOfOctets(parts: seq<u16>)
    requires |parts| == 8
    ensures Parts(Octets(parts)) == parts
  {
    hide Octets;
    var octets := Octets(parts);
    forall k: nat | k < 8
      ensures Parts(octets)[k] == parts[k]
    {
      PartOfOctets(parts, k);
      assert Parts(octets)[k] == octets[2 * k] as int * 0x100 + octets[2 * k + 1];
    }
  }

  /** Every key is the key of the segments between its own endpoints. */
  lemma KeyRoundTrip(key: AddrPair)
    requires key.peer.WellFormed() && key.local.WellFormed()
    ensures PairOf(ToEndpoint(key.peer), ToEndpoint(key.local)) == Ok(key)
  {
    if key.peer.SocketV6? {
      PartsOfOctets(key.peer.parts);
    }
    if key.local.SocketV6? {
      PartsOfOctets(key.local.parts);
    }
  }

  /** The key of a segment is exactly the key whose endpoints are the segment's. */
  lemma PairOfExactly(src: Endpoint, dst: Endpoint, key: AddrPair)
    requires src.addr.WellFormed() && dst.addr.WellFormed()
    ensures PairOf(src, dst) == Ok(key) <==>
              && key.peer.WellFormed() && key.local.WellFormed()
              && src == ToEndpoint(key.peer) && dst == ToEndpoint(key.local)
    ensures PairOf(src, dst).Err? <==> src.addr.Unspecified? || dst.addr.Unspecified?
  {
    ConvertRoundTrip(src);
    ConvertRoundTrip(dst);
    if key.peer.WellFormed() && key.local.WellFormed() {
      KeyRoundTrip(key);
    }
  }
}
