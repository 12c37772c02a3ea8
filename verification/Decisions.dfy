/** The small decisions that the handlers share, each tied to the shape of what it
    is about: who is blamed for a failed dial, what is refused, what is redialled,
    and how a connection is remembered. */
module Decisions {
  import opened Wrappers
  import opened Multiaddrs
  import opened PeerInfos
  import opened Books
  import I = Invariants

  /** The last component of the address is a peer's name. */
  predicate Names(addr: Multiaddr, p: PeerId) {
    addr != [] && addr[|addr| - 1] == P2p(Id(p))
  }

  /** A failed dial is booked on the peer that the address under test names, and only
      if that names nobody on the peer that was dialled. */
  lemma BlameIff(peer: Option<PeerId>, own: Option<OwnDial>, p: PeerId)
    ensures BlamedPeer(peer, own) == Some(p) <==>
            if own.Some? && exists q :: Names(own.value.addr, q) then Names(own.value.addr, p) else peer == Some(p)
  {
    if own.Some? && PeerIdOf(own.value.addr).Some? {
      assert Names(own.value.addr, PeerIdOf(own.value.addr).value);
    }
  }

  /** Refused are addresses of our own, loopback addresses unless they are enabled, and
      whatever is one of our listeners once the peer's name is taken off. */
  lemma RefusedIff(b: Book, peer: PeerId, addr: Multiaddr)
    ensures Refused(b, peer, addr) <==>
            || peer == b.cfg.local
            || (!b.cfg.enableLoopback && IsLoopback(addr))
            || WithoutPeerId(addr) in b.listeners
  {
    NormalizeStripRoundTrip(addr, peer, Normalize(addr, peer));
  }

  /** A failed dial of a normalized address is recorded with the bare address. */
  lemma DialRecordIsBare(bare: Multiaddr, peer: PeerId, now: Time)
    requires !EndsInP2p(bare)
    ensures DialRecord(bare, now) == DialRecord(Normalize(bare, peer), now) == ConnectionFailure(DialError, bare, now)
  {
    NormalizeStripRoundTrip(bare, peer, Normalize(bare, peer));
  }

  // ---- Validation dials -----------------------------------------------------

  /** Some address failed with the error of a TCP simultaneous open. */
  predicate HasSimOpen(error: DialFault) {
    error.Transport? && exists i :: 0 <= i < |error.faults| && error.faults[i].simOpen
  }

  /** A validation dial is deferred for another try if and only if retries are left and
      it failed with a simultaneous open, with one retry less, to the same address. No
      other failure is tried again. */
  lemma ValidationRedialsIff(b: Book, peer: PeerId, own: OwnDial, keepAlive: bool, error: DialFault, now: Time)
    requires peer in b.peers
    ensures var b' := FailValidation(b, peer, own, keepAlive, error, now);
            b'.actions == b.actions && b'.deferred == b.deferred
            + if own.retries > 0 && HasSimOpen(error)
              then [DialAction(peer, Some([own.addr]), false, Some(OwnDial(own.addr, own.retries - 1)), keepAlive)]
              else []
  {
  }

  // ---- Connections ----------------------------------------------------------

  /** The far end of a connection. */
  function FarEnd(cp: ConnectedPoint): Multiaddr {
    if cp.Dialer? then cp.address else cp.sendBackAddr
  }

  /** The connection stands under the far end with the peer's name, as outbound exactly
      if we dialled. */
  predicate IsListed(peer: PeerId, cp: ConnectedPoint, now: Time, connections: map<Multiaddr, Connection>) {
    var a := Normalize(FarEnd(cp), peer);
    a in connections && connections[a] == Connection(now, if cp.Dialer? then Outbound else Inbound)
  }

  /** Unless it is refused, the far end is stored. Dialling confirms it for good; an
      inbound connection leaves a known address as it was, and makes a new one wait for
      translation. */
  predicate IsRemembered(b: Book, peer: PeerId, cp: ConnectedPoint, now: Time, after: map<Multiaddr, Entry>) {
    var a, before := Normalize(FarEnd(cp), peer), AddressesOf(b, peer);
    if Refused(b, peer, a) then after == before
    else
      var source := if cp.Dialer? then Dial else if a in before then before[a].source else Incoming;
      after == before[a := Entry(source, now)]
  }

  predicate IsEntered(b: Book, peer: PeerId, cp: ConnectedPoint, now: Time, b': Book) {
    IsListed(peer, cp, now, ConnectionsOf(b', peer)) && IsRemembered(b, peer, cp, now, AddressesOf(b', peer))
  }

  lemma AddingRemembers(b: Book, peer: PeerId, cp: ConnectedPoint, now: Time)
    ensures var b' := AddAddress(b, peer, Normalize(FarEnd(cp), peer), SourceOf(cp), now);
            IsRemembered(b, peer, cp, now, AddressesOf(b', peer))
  {
  }

  lemma ConnectEnters(b: Book, peer: PeerId, cp: ConnectedPoint, other: nat, now: Time)
    ensures IsEntered(b, peer, cp, now, Connect(b, peer, cp, other, now))
  {
    AddingRemembers(b, peer, cp, now);
    I.ConnectAddsAddress(b, peer, cp, other, now, peer);
    ConnectLists(b, peer, cp, other, now);
  }

  lemma ConnectLists(b: Book, peer: PeerId, cp: ConnectedPoint, other: nat, now: Time)
    ensures IsListed(peer, cp, now, ConnectionsOf(Connect(b, peer, cp, other, now), peer))
  {
  }

  lemma ChangeEnters(b: Book, peer: PeerId, before: ConnectedPoint, after: ConnectedPoint, now: Time)
    ensures IsEntered(b, peer, after, now, ChangeAddress(b, peer, before, after, now))
  {
    AddingRemembers(b, peer, after, now);
    I.ChangeAddsAddress(b, peer, before, after, now, peer);
    ChangeLists(b, peer, before, after, now);
  }

  lemma ChangeLists(b: Book, peer: PeerId, before: ConnectedPoint, after: ConnectedPoint, now: Time)
    ensures IsListed(peer, after, now, ConnectionsOf(ChangeAddress(b, peer, before, after, now), peer))
  {
  }
}
