/** Multiaddresses as sequences of protocol components, and the pure address
    helpers of the address book. */
module Multiaddrs {
  import opened Wrappers

  type Octet = x: nat | x < 256
  type Port = x: nat | x < 65536
  type PeerId = nat

  /** The payload of a `/p2p` component is a multihash. Only some multihashes
      are peer identifiers. */
  datatype Multihash = Id(peer: PeerId) | Foreign(code: nat)

  datatype Protocol =
    | Ip4(a: Octet, b: Octet, c: Octet, d: Octet)
    | Ip6(host: nat)
    | Tcp(port: Port)
    | P2p(hash: Multihash)
    | Other(text: string)

  type Multiaddr = seq<Protocol>

  predicate EndsInP2p(addr: Multiaddr) {
    addr != [] && addr[|addr| - 1].P2p?
  }

  /** `normalize_addr_ref`: append the peer's component unless the address
      already ends in some `/p2p` component, possibly that of another peer. */
  function Normalize(addr: Multiaddr, peer: PeerId): (r: Multiaddr)
    ensures EndsInP2p(r)
    ensures addr <= r && |r| <= |addr| + 1
  {
    if EndsInP2p(addr) then addr else addr + [P2p(Id(peer))]
  }

  /** `without_peer_id`. */
  function WithoutPeerId(addr: Multiaddr): (r: Multiaddr)
    ensures r <= addr
  {
    if EndsInP2p(addr) then addr[..|addr| - 1] else addr
  }

  /** `Multiaddr::pop`: drop the last component, if there is one. */
  function Pop(addr: Multiaddr): Multiaddr {
    if addr == [] then [] else addr[..|addr| - 1]
  }

  /** `is_loopback`: everything that does not start with an IPv4 host outside
      127/8 counts as loopback. That includes IPv6, DNS and empty addresses. */
  predicate IsLoopback(addr: Multiaddr) {
    !(addr != [] && addr[0].Ip4? && addr[0].a != 127)
  }

  /** `peer_id`: the identifier in the trailing `/p2p` component. */
  function PeerIdOf(addr: Multiaddr): Option<PeerId> {
    if EndsInP2p(addr) && addr[|addr| - 1].hash.Id? then Some(addr[|addr| - 1].hash.peer) else None
  }

  datatype IpAddr = V4(a: Octet, b: Octet, c: Octet, d: Octet) | V6(host: nat)

  datatype Socket = Socket(ip: IpAddr, port: Port)

  /** `ip_port`: the leading IP and TCP components. */
  function IpPort(addr: Multiaddr): (r: Option<Socket>)
    ensures r.Some? ==> |addr| >= 2 && addr[1] == Tcp(r.value.port)
  {
    if |addr| < 2 || !addr[1].Tcp? then None
    else match addr[0]
      case Ip4(a, b, c, d) => Some(Socket(V4(a, b, c, d), addr[1].port))
      case Ip6(h) => Some(Socket(V6(h), addr[1].port))
      case _ => None
  }

  /** `addr.replace(1, |_| Some(Protocol::Tcp(port)))`: fails when there is no
      component at index 1. */
  function ReplacePort(addr: Multiaddr, port: Port): Option<Multiaddr> {
    if |addr| < 2 then None else Some(addr[1 := Tcp(port)])
  }

  /** The same address but for its second component, which is the given TCP port. */
  predicate IsPortVariant(addr: Multiaddr, port: Port, r: Multiaddr) {
    && |r| == |addr| >= 2 && r[1] == Tcp(port)
    && forall i :: 0 <= i < |addr| && i != 1 ==> r[i] == addr[i]
  }

  /** There is only one variant for a port. */
  lemma PortVariantIff(addr: Multiaddr, port: Port, r: Multiaddr)
    requires IpPort(addr).Some?
    ensures IsPortVariant(addr, port, r) <==> r == WithPort(addr, port)
  {
  }

  /** The port variant that translation inserts. */
  function WithPort(addr: Multiaddr, port: Port): (r: Multiaddr)
    requires IpPort(addr).Some?
    ensures IsPortVariant(addr, port, r)
    ensures IpPort(r) == Some(Socket(IpPort(addr).value.ip, port))
    ensures EndsInP2p(addr) ==> EndsInP2p(r)
    ensures PeerIdOf(r) == PeerIdOf(addr)
    ensures IsLoopback(r) == IsLoopback(addr)
  {
    ReplacePort(addr, port).value
  }

  /** Normalizing and stripping: the normalized address is the only one that ends in
      a `/p2p` component, strips to what the address strips to, and names the given
      peer unless the address already ended in some component of that kind. */
  lemma NormalizeStripRoundTrip(addr: Multiaddr, peer: PeerId, r: Multiaddr)
    ensures r == Normalize(addr, peer) <==>
            && EndsInP2p(r) && WithoutPeerId(r) == WithoutPeerId(addr)
            && r[|r| - 1] == if EndsInP2p(addr) then addr[|addr| - 1] else P2p(Id(peer))
    ensures Normalize(Normalize(addr, peer), peer) == Normalize(addr, peer)
    ensures Pop(Normalize(addr, peer)) == WithoutPeerId(addr)
    ensures !EndsInP2p(addr) ==>
              PeerIdOf(Normalize(addr, peer)) == Some(peer) && WithoutPeerId(Normalize(addr, peer)) == addr
  {
    if EndsInP2p(r) {
      assert r == r[..|r| - 1] + [r[|r| - 1]];
    }
    if EndsInP2p(addr) {
      assert addr == addr[..|addr| - 1] + [addr[|addr| - 1]];
    }
  }

  /** The peer that an address names is the one in its last component. */
  lemma PeerIdIff(addr: Multiaddr, peer: PeerId)
    ensures PeerIdOf(addr) == Some(peer) <==> addr != [] && addr[|addr| - 1] == P2p(Id(peer))
  {
  }

  /** Only addresses that begin with an IPv4 host outside 127/8 are not loopback. */
  lemma LoopbackIff(addr: Multiaddr)
    ensures !IsLoopback(addr) <==>
            exists a: Octet, b: Octet, c: Octet, d: Octet :: a != 127 && [Ip4(a, b, c, d)] <= addr
  {
    if !IsLoopback(addr) {
      var host := addr[0];
      assert [Ip4(host.a, host.b, host.c, host.d)] <= addr;
    }
  }

  function HostComponent(ip: IpAddr): Protocol {
    match ip
    case V4(a, b, c, d) => Ip4(a, b, c, d)
    case V6(h) => Ip6(h)
  }

  /** A socket is found exactly in addresses that begin with its host and its TCP
      port, and is the one that the address names. */
  lemma IpPortIff(addr: Multiaddr, s: Socket)
    ensures IpPort(addr) == Some(s) <==> [HostComponent(s.ip), Tcp(s.port)] <= addr
  {
    if [HostComponent(s.ip), Tcp(s.port)] <= addr {
      assert addr[0] == [HostComponent(s.ip), Tcp(s.port)][0] && addr[1] == [HostComponent(s.ip), Tcp(s.port)][1];
    }
  }

  lemma NormalizeKeepsLoopback(addr: Multiaddr, peer: PeerId)
    requires !IsLoopback(addr)
    ensures !IsLoopback(Normalize(addr, peer))
  {
  }

  /** The two ends of a connection as the swarm reports them. */
  datatype Endpoint = DialerRole | ListenerRole

  datatype ConnectedPoint =
    | Dialer(address: Multiaddr, roleOverride: Endpoint)
    | Listener(localAddr: Multiaddr, sendBackAddr: Multiaddr)
  {
    function RemoteAddress(): Multiaddr {
      match this
      case Dialer(address, _) => address
      case Listener(_, sendBack) => sendBack
    }
  }

  /** `normalize_connected_point`. */
  function NormalizePoint(cp: ConnectedPoint, local: PeerId, remote: PeerId): (r: ConnectedPoint)
    ensures EndsInP2p(r.RemoteAddress())
    ensures r.RemoteAddress() == Normalize(cp.RemoteAddress(), remote)
    ensures r.Dialer? == cp.Dialer?
  {
    match cp
    case Dialer(address, role) => Dialer(Normalize(address, remote), role)
    case Listener(localAddr, sendBack) => Listener(Normalize(localAddr, local), Normalize(sendBack, remote))
  }

  predicate IsNormalPoint(cp: ConnectedPoint) {
    EndsInP2p(cp.RemoteAddress()) && (cp.Listener? ==> EndsInP2p(cp.localAddr))
  }

  function StripPoint(cp: ConnectedPoint): ConnectedPoint {
    match cp
    case Dialer(address, role) => Dialer(WithoutPeerId(address), role)
    case Listener(localAddr, sendBack) => Listener(WithoutPeerId(localAddr), WithoutPeerId(sendBack))
  }

  /** Normalizing a connected point only names the peers at its ends: both ends and
      the role are the same without the names, a point with names is left alone, and
      a missing name is filled in with the peer that is at that end. */
  lemma NormalizePointMeaning(cp: ConnectedPoint, local: PeerId, remote: PeerId)
    ensures var r := NormalizePoint(cp, local, remote);
            && IsNormalPoint(r) && StripPoint(r) == StripPoint(cp) && (r == cp <==> IsNormalPoint(cp))
            && (!EndsInP2p(cp.RemoteAddress()) ==> PeerIdOf(r.RemoteAddress()) == Some(remote))
            && (cp.Listener? && !EndsInP2p(cp.localAddr) ==> PeerIdOf(r.localAddr) == Some(local))
  {
    NormalizeStripRoundTrip(cp.RemoteAddress(), remote, Normalize(cp.RemoteAddress(), remote));
    if cp.Listener? {
      NormalizeStripRoundTrip(cp.localAddr, local, Normalize(cp.localAddr, local));
    }
  }
}
