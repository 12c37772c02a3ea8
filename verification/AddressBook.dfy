/** The address book as the source keeps it: one object that its handlers update
    in place, holding one mutable record per peer. Each handler is proved to
    take the step of the state machine in `Books`, and to keep the invariant. */
module AddressBooks {
  import opened Wrappers
  import opened Orders
  import opened Multiaddrs
  import opened Rtts
  import opened PeerInfos
  import opened Books
  import opened Invariants
  import IT = IdentifyTheorems
  import PT = PruneTheorems
  import D = Decisions

  /** `listen_port` in `set_info`: filter and collect, in order. */
  method CollectListenSockets(info: PeerInfo, peer: PeerId, advertised: seq<Multiaddr>) returns (sockets: seq<Socket>)
    ensures sockets == ListenSockets(info.State(), peer, advertised)
    ensures forall s :: s in sockets <==> IT.IsOffered(info.State(), peer, advertised, s)
  {
    forall s
      ensures s in ListenSockets(info.State(), peer, advertised) <==> IT.IsOffered(info.State(), peer, advertised, s)
    {
      IT.ListenSocketsMeaning(info.State(), peer, advertised, s);
    }
    sockets := [];
    for i := 0 to |advertised|
      invariant sockets == ListenSockets(info.State(), peer, advertised[..i])
    {
      assert advertised[..i + 1][..i] == advertised[..i];
      var a := advertised[i];
      if Normalize(a, peer) !in info.connections {
        var socket := IpPort(a);
        if socket.Some? {
          sockets := sockets + [socket.value];
        }
      }
    }
    assert advertised[..|advertised|] == advertised;
  }

  function Variants(addr: Multiaddr, ports: set<Port>): set<Multiaddr>
    requires IpPort(addr).Some?
  {
    set p | p in ports :: WithPort(addr, p)
  }

  lemma OneMoreVariant(addr: Multiaddr, ports: set<Port>, port: Port)
    requires IpPort(addr).Some?
    ensures Variants(addr, ports + {port}) == Variants(addr, ports) + {WithPort(addr, port)}
  {
  }

  /** Both inner loops insert variants for a set of advertised ports. */
  lemma VariantsOfSockets(addr: Multiaddr, sockets: seq<Socket>)
    requires IpPort(addr).Some?
    ensures var ip := IpPort(addr).value.ip;
            var onHost := Variants(addr, set s | s in sockets && s.ip == ip :: s.port);
            var anyHost := Variants(addr, set s | s in sockets :: s.port);
            Guesses(addr, sockets) == if onHost != {} then onHost else if anyHost != {} then anyHost else {addr}
  {
    var ip := IpPort(addr).value.ip;
    assert (set s | s in sockets && s.ip == ip :: WithPort(addr, s.port)) ==
           Variants(addr, set s | s in sockets && s.ip == ip :: s.port);
    assert (set s | s in sockets :: WithPort(addr, s.port)) == Variants(addr, set s | s in sockets :: s.port);
  }

  /** The inner loop over the listen ports advertised for the same host. */
  method SameHostGuesses(addr: Multiaddr, ip: IpAddr, sockets: seq<Socket>) returns (guesses: set<Multiaddr>,
                         added: bool)
    requires IpPort(addr).Some?
    ensures guesses == Variants(addr, set s | s in sockets && s.ip == ip :: s.port)
    ensures added <==> guesses != {}
  {
    guesses, added := {}, false;
    ghost var ports: set<Port> := {};
    for i := 0 to |sockets|
      invariant ports == set s | s in sockets[..i] && s.ip == ip :: s.port
      invariant guesses == Variants(addr, ports)
      invariant added <==> guesses != {}
    {
      assert sockets[..i + 1] == sockets[..i] + [sockets[i]];
      if sockets[i].ip == ip {
        OneMoreVariant(addr, ports, sockets[i].port);
        ports := ports + {sockets[i].port};
        guesses := guesses + {ReplacePort(addr, sockets[i].port).value};
        added := true;
      }
    }
    assert sockets[..|sockets|] == sockets;
  }

  /** The inner loop over all advertised ports, in any order. */
  method CommonPortGuesses(addr: Multiaddr, commonPort: set<Port>) returns (guesses: set<Multiaddr>, added: bool)
    requires IpPort(addr).Some?
    ensures guesses == Variants(addr, commonPort)
    ensures added <==> guesses != {}
  {
    guesses, added := {}, false;
    var rest := commonPort;
    while rest != {}
      invariant rest <= commonPort
      invariant guesses == Variants(addr, commonPort - rest)
      invariant added <==> guesses != {}
      decreases |rest|
    {
      var cp :| cp in rest;
      OneMoreVariant(addr, commonPort - rest, cp);
      assert commonPort - (rest - {cp}) == commonPort - rest + {cp};
      rest := rest - {cp};
      guesses := guesses + {ReplacePort(addr, cp).value};
      added := true;
    }
    assert commonPort - rest == commonPort;
  }

  /** The guesses for one address. */
  method TranslateOne(addr: Multiaddr, sockets: seq<Socket>, commonPort: set<Port>) returns (guesses: set<Multiaddr>)
    requires commonPort == set s | s in sockets :: s.port
    ensures guesses == Guesses(addr, sockets)
  {
    guesses := {};
    var socket := IpPort(addr);
    if socket.Some? {
      var added;
      guesses, added := SameHostGuesses(addr, socket.value.ip, sockets);
      if !added {
        guesses, added := CommonPortGuesses(addr, commonPort);
      }
      if !added {
        guesses := {addr};
      }
      VariantsOfSockets(addr, sockets);
    }
  }

  /** The outer translation loop of `set_info`, in any order. */
  method Translate(info: PeerInfo, sockets: seq<Socket>) returns (translated: set<Multiaddr>)
    ensures translated == Translated(info.State(), sockets)
  {
    var commonPort := set s | s in sockets :: s.port;
    translated := {};
    var all := set a | a in info.addresses && info.addresses[a].source.IsToTranslate();
    var rest := all;
    while rest != {}
      invariant rest <= all
      invariant translated == set a, t | a in all - rest && t in Guesses(a, sockets) :: t
      decreases |rest|
    {
      var a :| a in rest;
      rest := rest - {a};
      var guesses := TranslateOne(a, sockets, commonPort);
      translated := translated + guesses;
    }
  }

  lemma {:induction false} SocketsIgnoreHeader(info: Info, other: Info, peer: PeerId, advertised: seq<Multiaddr>)
    requires info.connections == other.connections
    ensures ListenSockets(info, peer, advertised) == ListenSockets(other, peer, advertised)
  {
    if advertised != [] {
      SocketsIgnoreHeader(info, other, peer, advertised[..|advertised| - 1]);
    }
  }

  /** The assertion of `ingest_address` holds for all candidates. */
  lemma CandidatesNameAPeer(b: Book, peer: PeerId, id: Identify)
    requires Inv(b) && peer in b.peers
    ensures forall a :: a in IdentifyCandidates(b.cfg, b.peers[peer], peer, id.listenAddrs) ==> EndsInP2p(a)
  {
    forall a | a in IdentifyCandidates(b.cfg, b.peers[peer], peer, id.listenAddrs)
      ensures EndsInP2p(a)
    {
      CandidatesAreGood(b.cfg, b.peers[peer], peer, id.listenAddrs, a);
    }
  }

  lemma OneMoreCandidate(base: Info, peer: PeerId, order: seq<Multiaddr>, a: Multiaddr, portReuse: bool,
                         ours: set<Multiaddr>, now: Time)
    ensures var mid := IngestCandidates(base, order, portReuse, ours, now);
            && IngestCandidates(base, order + [a], portReuse, ours, now) ==
               IngestCandidate(mid, a, portReuse, ours, now)
            && CandidateProbes(base, peer, order + [a], portReuse, ours, now) ==
               CandidateProbes(base, peer, order, portReuse, ours, now)
               + if ProbesCandidate(mid, a, portReuse, ours) then [Probe(peer, a, IDENTIFY_RETRIES)] else []
  {
    assert (order + [a])[..|order|] == order;
  }

  lemma OneMoreDone(order: seq<Multiaddr>, candidates: set<Multiaddr>, rest: set<Multiaddr>, a: Multiaddr)
    requires rest <= candidates && a in rest && Enumerates(order, candidates - rest)
    ensures Enumerates(order + [a], candidates - (rest - {a}))
  {
    OneMoreVisited(order, candidates - rest, a);
    assert candidates - (rest - {a}) == candidates - rest + {a};
  }

  lemma OneMoreFault(base: Info, peer: PeerId, faults: seq<Fault>, i: nat, keepAlive: bool, now: Time)
    requires i < |faults|
    ensures var f, done, next := faults[i], faults[..i], faults[..i + 1];
            && PushFaults(base, peer, next, now) ==
               PushFaults(base, peer, done, now).PushFailure(Normalize(f.addr, peer), DialRecord(f.addr, now), true)
            && FaultRedials(peer, next, keepAlive) ==
               FaultRedials(peer, done, keepAlive)
               + if f.simOpen then [Redial(peer, f.addr, SIM_OPEN_RETRIES, keepAlive)] else []
  {
    assert faults[..i + 1][..i] == faults[..i];
  }

  lemma OneMoreFaultEvent(peer: PeerId, faults: seq<Fault>, i: nat)
    requires i < |faults|
    ensures FaultEvents(peer, faults[..i + 1]) == FaultEvents(peer, faults[..i]) + [DialFailure(peer, faults[i].addr)]
  {
  }

  /** Records are owned by the map: a handler borrows one, works on it in place
      through `PeerInfo`, and gives it back. */
  class AddressBook {
    const cfg: Config
    var listeners: set<Multiaddr>
    var peers: map<PeerId, Info>
    var actions: seq<DialAction>
    var deferred: seq<DialAction>
    var events: seq<Event>

    function Abs(): Book
      reads this
    {
      Book(cfg, listeners, peers, actions, deferred, events)
    }

    predicate Valid()
      reads this
    {
      Inv(Abs())
    }

    constructor (cfg: Config)
      ensures Valid() && Abs() == EmptyBook(cfg)
    {
      this.cfg := cfg;
      listeners, peers, actions, deferred, events := {}, map[], [], [], [];
    }

    method Notify(event: Event)
      modifies this`events
      ensures events == old(events) + [event]
    {
      events := events + [event];
    }

    /** `peers.entry(peer).or_default()` */
    method Borrow(peer: PeerId) returns (info: PeerInfo)
      ensures fresh(info) && info.State() == Abs().InfoOf(peer)
    {
      if peer in peers {
        info := new PeerInfo.Of(peers[peer]);
      } else {
        info := new PeerInfo.Of(DefaultInfo());
      }
    }

    method Dial(peer: PeerId)
      requires Valid()
      modifies this`actions
      ensures Valid() && Abs() == RequestDial(old(Abs()), peer)
    {
      if peer == cfg.local {
        return;
      }
      actions := actions + [PlainDial(peer, cfg.keepAlive)];
    }

    method DialAddress(peer: PeerId, addr: Multiaddr)
      requires Valid()
      modifies this`peers, this`actions
      ensures Valid() && Abs() == RequestDialAddress(old(Abs()), peer, addr)
    {
      DialAddressKeepsInv(Abs(), peer, addr);
      if peer == cfg.local {
        return;
      }
      var target := Normalize(addr, peer);
      var info := Borrow(peer);
      peers := peers[peer := info.State()];
      if target in info.connections {
        return;
      }
      var own := OwnDial(target, SIM_OPEN_RETRIES + 1);
      actions := actions + [DialAction(peer, Some([addr]), false, Some(own), cfg.keepAlive)];
    }

    method AddAddress(peer: PeerId, addr: Multiaddr, source: AddressSource, now: Time)
      requires Valid()
      modifies this`peers, this`actions, this`events
      ensures Valid() && Abs() == Books.AddAddress(old(Abs()), peer, addr, source, now)
    {
      AddAddressKeepsInv(Abs(), peer, addr, source, now);
      if peer == cfg.local {
        return;
      }
      if !cfg.enableLoopback && IsLoopback(addr) {
        return;
      }
      var info := Borrow(peer);
      var confirmed := info.AnyConfirmed();
      var full, address := Normalize(addr, peer), addr;
      if EndsInP2p(addr) {
        address := Pop(addr);
      }
      if address !in listeners {
        var probe := info.IngestAddress(full, source, now);
        peers := peers[peer := info.State()];
        if probe && full !in info.connections {
          actions := actions + [Probe(peer, full, SIM_OPEN_RETRIES + 1)];
        }
        if !confirmed && source.IsConfirmed() {
          Notify(Discovered(peer));
        }
        Notify(NewInfo(peer));
      }
    }

    method RemoveAddress(peer: PeerId, addr: Multiaddr)
      requires Valid()
      modifies this`peers
      ensures Valid() && Abs() == Books.RemoveAddress(old(Abs()), peer, addr)
    {
      if peer in peers {
        var info := Borrow(peer);
        info.addresses := info.addresses - {Normalize(addr, peer)};
        peers := peers[peer := info.State()];
      }
    }

    /** The check of one peer in `prune_peers`. */
    method CheckPrunable(info: Info, minAge: Duration, now: Time) returns (prune: bool)
      ensures prune == IsPrunable(info, minAge, now)
      ensures prune <==> !PT.Kept(info, minAge, now)
    {
      PT.PrunableIff(info, minAge, now);
      if info.connections != map[] {
        return false;
      }
      if info.failures != [] && DiffTime(info.failures[0].time, now) < minAge {
        return false;
      }
      var rest := info.addresses.Keys;
      while rest != {}
        invariant rest <= info.addresses.Keys
        invariant forall a :: a in info.addresses.Keys - rest ==> !KeepsPeer(info.addresses[a], minAge, now)
        decreases |rest|
      {
        var a :| a in rest;
        var entry := info.addresses[a];
        if entry.source.IsConfirmed() {
          return false;
        }
        if entry.source.IsToProbe() && DiffTime(entry.seen, now) < MaxDuration(minAge, 10 * SECOND) {
          return false;
        }
        rest := rest - {a};
      }
      return true;
    }

    /** The first loop of `prune_peers`: collect, in any order. */
    method CollectPrunable(minAge: Duration, now: Time) returns (remove: seq<PeerId>)
      ensures Enumerates(remove, Prunable(Abs(), minAge, now))
    {
      remove := [];
      var rest := peers.Keys;
      while rest != {}
        invariant rest <= peers.Keys
        invariant Enumerates(remove, set p | p in peers.Keys - rest && IsPrunable(peers[p], minAge, now))
        decreases |rest|
      {
        var p :| p in rest;
        ghost var found := set q | q in peers.Keys - rest && IsPrunable(peers[q], minAge, now);
        rest := rest - {p};
        var prune := CheckPrunable(peers[p], minAge, now);
        if prune {
          OneMoreVisited(remove, found, p);
          remove := remove + [p];
          assert found + {p} == set q | q in peers.Keys - rest && IsPrunable(peers[q], minAge, now);
        } else {
          assert found == set q | q in peers.Keys - rest && IsPrunable(peers[q], minAge, now);
        }
      }
    }

    method PrunePeers(minAge: Duration, now: Time) returns (removed: seq<PeerId>)
      requires Valid()
      modifies this`peers, this`events
      ensures Enabled(old(Abs()), CallPrune(minAge, now, removed))
      ensures Valid() && Abs() == Prune(old(Abs()), minAge, now, removed)
    {
      removed := CollectPrunable(minAge, now);
      for i := 0 to |removed|
        invariant peers == old(peers) - set p | p in removed[..i]
        invariant events == old(events) + NewInfos(removed[..i])
      {
        assert removed[..i + 1] == removed[..i] + [removed[i]];
        assert NewInfos(removed[..i + 1]) == NewInfos(removed[..i]) + [NewInfo(removed[i])];
        peers := peers - {removed[i]};
        Notify(NewInfo(removed[i]));
      }
      assert removed[..|removed|] == removed;
    }

    method SetRtt(peer: PeerId, ping: Option<Duration>)
      requires Valid()
      modifies this`peers, this`events
      ensures Valid() && Abs() == SetPeerRtt(old(Abs()), peer, ping)
    {
      if peer in peers {
        var info := Borrow(peer);
        info.RegisterPing(ping);
        peers := peers[peer := info.State()];
        Notify(NewInfo(peer));
      }
    }

    /** One round of the last loop of `set_info`. */
    method IngestOne(info: PeerInfo, peer: PeerId, addr: Multiaddr, now: Time)
      requires EndsInP2p(addr)
      modifies info`addresses, this`actions
      ensures info.State() == IngestCandidate(old(info.State()), addr, cfg.portReuse, listeners, now)
      ensures actions == old(actions)
                         + if ProbesCandidate(old(info.State()), addr, cfg.portReuse, listeners)
                           then [Probe(peer, addr, IDENTIFY_RETRIES)] else []
    {
      var tcp := Pop(addr);
      if tcp in listeners {
        return;
      }
      var probe := info.IngestAddress(addr, Listen, now);
      if probe {
        if cfg.portReuse && addr in info.connections {
          probe := info.IngestAddress(addr, Candidate, now);
        } else {
          actions := actions + [Probe(peer, addr, IDENTIFY_RETRIES)];
        }
      }
    }

    /** The last loop of `set_info`: ingest the candidates in any order, and dial
        the ones that are new. */
    method IngestIdentified(info: PeerInfo, peer: PeerId, candidates: set<Multiaddr>,
                            now: Time) returns (ghost order: seq<Multiaddr>)
      requires forall a :: a in candidates ==> EndsInP2p(a)
      modifies info`addresses, this`actions
      ensures Enumerates(order, candidates)
      ensures info.State() == IngestCandidates(old(info.State()), order, cfg.portReuse, listeners, now)
      ensures actions == old(actions) + CandidateProbes(old(info.State()), peer, order, cfg.portReuse, listeners, now)
    {
      ghost var base := info.State();
      order := [];
      var rest := candidates;
      while rest != {}
        invariant rest <= candidates && Enumerates(order, candidates - rest)
        invariant info.State() == IngestCandidates(base, order, cfg.portReuse, listeners, now)
        invariant actions == old(actions) + CandidateProbes(base, peer, order, cfg.portReuse, listeners, now)
        decreases |rest|
      {
        var addr :| addr in rest;
        OneMoreDone(order, candidates, rest, addr);
        OneMoreCandidate(base, peer, order, addr, cfg.portReuse, listeners, now);
        rest := rest - {addr};
        IngestOne(info, peer, addr, now);
        order := order + [addr];
      }
      assert candidates - rest == candidates;
    }

    /** The first half of `set_info`: store the Identify record, translate, and
        drop the incoming addresses. */
    method PrepareIdentified(info: PeerInfo, peer: PeerId, id: Identify) returns (candidates: set<Multiaddr>)
      modifies info
      ensures info.State() == Identified(old(info.State()), id)
      ensures candidates == IdentifyCandidates(cfg, old(info.State()), peer, id.listenAddrs)
    {
      ghost var before := info.State();
      info.protocolVersion := Some(id.protocolVersion);
      info.agentVersion := Some(id.agentVersion);
      info.protocols := id.protocols;
      info.listeners := id.listenAddrs;
      var sockets := CollectListenSockets(info, peer, info.listeners);
      SocketsIgnoreHeader(info.State(), before, peer, id.listenAddrs);
      var translated := Translate(info, sockets);
      assert ToTranslate(info.State()) == ToTranslate(before);
      candidates := translated + Advertised(cfg, peer, info.listeners);
      info.addresses := WithoutIncoming(info.addresses);
    }

    method SetInfo(peer: PeerId, id: Identify, now: Time) returns (ghost order: seq<Multiaddr>)
      requires Valid()
      modifies this`peers, this`actions, this`events
      ensures Enabled(old(Abs()), GotIdentify(peer, id, now, order))
      ensures Valid() && Abs() == Books.SetInfo(old(Abs()), peer, id, now, order)
    {
      order := [];
      if peer in peers {
        ghost var b := Abs();
        var info := Borrow(peer);
        var candidates := PrepareIdentified(info, peer, id);
        CandidatesNameAPeer(b, peer, id);
        order := IngestIdentified(info, peer, candidates, now);
        peers := peers[peer := info.State()];
        Notify(NewInfo(peer));
        SetInfoKeepsInv(b, peer, id, now, order);
      }
    }

    method RecordConnection(peer: PeerId, cp: ConnectedPoint, other: nat, now: Time)
      requires Valid()
      modifies this`peers, this`actions, this`events
      ensures Abs() == Connect(old(Abs()), peer, cp, other, now)
    {
      var conn := NormalizePoint(cp, cfg.local, peer);
      var address := conn.RemoteAddress();
      AddAddress(peer, address, if conn.Dialer? then AddressSource.Dial else Incoming, now);
      var info := Borrow(peer);
      info.connections := info.connections[address := Connection(now, DirectionOf(conn))];
      peers := peers[peer := info.State()];
      if other == 0 {
        Notify(Connected(peer));
      }
      Notify(Event.ConnectionEstablished(peer, conn));
    }

    /** `inject_connection_established` */
    method ConnectionEstablished(peer: PeerId, cp: ConnectedPoint, other: nat, now: Time)
      requires Valid()
      modifies this`peers, this`actions, this`events
      ensures Valid() && Abs() == Connect(old(Abs()), peer, cp, other, now)
      ensures D.IsEntered(old(Abs()), peer, cp, now, Abs())
    {
      ConnectKeepsInv(Abs(), peer, cp, other, now);
      D.ConnectEnters(Abs(), peer, cp, other, now);
      RecordConnection(peer, cp, other, now);
    }

    method MoveConnection(peer: PeerId, before: ConnectedPoint, after: ConnectedPoint, now: Time)
      requires Valid()
      modifies this`peers, this`actions, this`events
      ensures Abs() == ChangeAddress(old(Abs()), peer, before, after, now)
    {
      var oldConn := NormalizePoint(before, cfg.local, peer);
      var newConn := NormalizePoint(after, cfg.local, peer);
      AddAddress(peer, newConn.RemoteAddress(), if newConn.Dialer? then AddressSource.Dial else Incoming, now);
      var info := Borrow(peer);
      info.connections := info.connections - {oldConn.RemoteAddress()};
      info.connections := info.connections[newConn.RemoteAddress() := Connection(now, DirectionOf(newConn))];
      peers := peers[peer := info.State()];
      Notify(AddressChanged(peer, oldConn, newConn));
    }

    /** `inject_address_change` */
    method AddressChange(peer: PeerId, before: ConnectedPoint, after: ConnectedPoint, now: Time)
      requires Valid()
      modifies this`peers, this`actions, this`events
      ensures Valid() && Abs() == ChangeAddress(old(Abs()), peer, before, after, now)
      ensures D.IsEntered(old(Abs()), peer, after, now, Abs())
    {
      ChangeKeepsInv(Abs(), peer, before, after, now);
      D.ChangeEnters(Abs(), peer, before, after, now);
      MoveConnection(peer, before, after, now);
    }

    /** `connection_closed` */
    method CloseConnection(peer: PeerId, cp: ConnectedPoint, left: nat, reason: CloseReason, now: Time)
      requires Valid()
      modifies this`peers, this`events
      ensures Valid() && Abs() == Disconnect(old(Abs()), peer, cp, left, reason, now)
    {
      DisconnectKeepsInv(Abs(), peer, cp, left, reason, now);
      var conn := NormalizePoint(cp, cfg.local, peer);
      var addr := conn.RemoteAddress();
      var info := Borrow(peer);
      info.connections := info.connections - {addr};
      var kind := if reason.IoFault? then PeerDisconnected else WeDisconnected;
      info.PushFailure(addr, ConnectionFailure(kind, WithoutPeerId(addr), now), false);
      peers := peers[peer := info.State()];
      Notify(ConnectionClosed(peer, conn));
      if left == 0 {
        Notify(Disconnected(peer));
      }
      Notify(NewInfo(peer));
    }

    /** The branch of `inject_dial_failure` for our own validation dials. */
    method ValidationFailed(peer: PeerId, own: OwnDial, keepAlive: bool, error: DialFault, now: Time)
      requires peer in peers
      modifies this`peers, this`deferred, this`events
      ensures Abs() == FailValidation(old(Abs()), peer, own, keepAlive, error, now)
      ensures |deferred| > |old(deferred)| <==> own.retries > 0 && D.HasSimOpen(error)
    {
      D.ValidationRedialsIff(Abs(), peer, own, keepAlive, error, now);
      var info := Borrow(peer);
      info.PushFailure(own.addr, DialRecord(own.addr, now), error.IsProbeResult());
      if error.WrongPeerId? {
        info.addresses := info.addresses - {own.addr};
      }
      peers := peers[peer := info.State()];
      if error.IsSimOpen() && own.retries > 0 {
        deferred := deferred + [Redial(peer, own.addr, own.retries - 1, keepAlive)];
      }
      Notify(DialFailure(peer, own.addr));
      Notify(NewInfo(peer));
    }

    /** The loop of `inject_dial_failure` over the failed addresses. */
    method BookFaults(info: PeerInfo, peer: PeerId, faults: seq<Fault>, now: Time)
      returns (failures: seq<Event>, redials: seq<DialAction>)
      modifies info
      ensures info.State() == PushFaults(old(info.State()), peer, faults, now)
      ensures failures == FaultEvents(peer, faults) && redials == FaultRedials(peer, faults, cfg.keepAlive)
    {
      ghost var base := info.State();
      failures, redials := [], [];
      for i := 0 to |faults|
        invariant info.State() == PushFaults(base, peer, faults[..i], now)
        invariant failures == FaultEvents(peer, faults[..i])
        invariant redials == FaultRedials(peer, faults[..i], cfg.keepAlive)
      {
        OneMoreFault(base, peer, faults, i, cfg.keepAlive, now);
        OneMoreFaultEvent(peer, faults, i);
        var f := faults[i];
        info.PushFailure(Normalize(f.addr, peer), DialRecord(f.addr, now), true);
        if f.simOpen {
          redials := redials + [Redial(peer, f.addr, SIM_OPEN_RETRIES, cfg.keepAlive)];
        }
        failures := failures + [DialFailure(peer, f.addr)];
      }
      assert faults[..|faults|] == faults;
    }

    method NotifyAll(es: seq<Event>)
      modifies this`events
      ensures events == old(events) + es
    {
      for i := 0 to |es|
        invariant events == old(events) + es[..i]
      {
        Notify(es[i]);
      }
      assert es[..|es|] == es;
    }

    method DeferAll(dials: seq<DialAction>)
      modifies this`deferred
      ensures deferred == old(deferred) + dials
    {
      for i := 0 to |dials|
        invariant deferred == old(deferred) + dials[..i]
      {
        deferred := deferred + [dials[i]];
      }
      assert dials[..|dials|] == dials;
    }

    /** The branch of `inject_dial_failure` for plain dials. */
    method PlainFailed(peer: PeerId, faults: seq<Fault>, now: Time)
      requires peer in peers
      modifies this`peers, this`deferred, this`events
      ensures Abs() == FailPlain(old(Abs()), peer, faults, now)
    {
      var info := Borrow(peer);
      var failures, redials := BookFaults(info, peer, faults, now);
      peers := peers[peer := info.State()];
      NotifyAll(failures);
      if redials == [] {
        Notify(Unreachable(peer));
      }
      DeferAll(redials);
      Notify(NewInfo(peer));
    }

    /** `inject_dial_failure` */
    method DialFailed(dialled: Option<PeerId>, own: Option<OwnDial>, keepAlive: bool, error: DialFault, now: Time)
      requires Valid()
      modifies this`peers, this`deferred, this`events
      ensures Valid() && Abs() == FailDial(old(Abs()), dialled, own, keepAlive, error, now)
    {
      FailDialKeepsInv(Abs(), dialled, own, keepAlive, error, now);
      var blamed := BlamedPeer(dialled, own);
      if blamed.None? {
        return;
      }
      if blamed.value in peers {
        if own.Some? {
          ValidationFailed(blamed.value, own.value, keepAlive, error, now);
        } else if error.Transport? {
          PlainFailed(blamed.value, error.faults, now);
        } else if error.DialPeerConditionFalse? {
        } else if !error.Banned? && !error.LocalPeerId? {
          Notify(Unreachable(blamed.value));
        }
      }
    }

    /** `inject_new_listen_addr` */
    method NewListenAddr(id: ListenerId, addr: Multiaddr)
      requires Valid()
      modifies this`listeners, this`events
      ensures Valid() && Abs() == Next(old(Abs()), GotListenAddr(id, addr))
    {
      listeners := listeners + {addr};
      Notify(Event.NewListenAddr(id, addr));
    }

    /** `inject_expired_listen_addr` */
    method ExpiredListenAddr(id: ListenerId, addr: Multiaddr)
      requires Valid()
      modifies this`listeners, this`events
      ensures Valid() && Abs() == Next(old(Abs()), LostListenAddr(id, addr))
    {
      listeners := listeners - {addr};
      Notify(Event.ExpiredListenAddr(id, addr));
    }

    /** `poll`; `k` is the deferred dial whose timer elapses first, if any has. */
    method PollAction(k: Option<nat>) returns (dial: Option<DialAction>)
      requires Valid() && (k.Some? ==> k.value < |deferred|)
      modifies this`actions, this`deferred
      ensures Valid()
      ensures dial.None? ==> Abs() == old(Abs()) && actions == [] && k.None?
      ensures dial.Some? ==>
                var i := if k.Some? then k.value else 0;
                && CanPoll(old(Abs()), i)
                && dial.value == PollDial(old(Abs()), i)
                && Abs() == PollRest(old(Abs()), i)
    {
      if actions != [] {
        dial := Some(actions[0]);
        actions := actions[1..];
      } else if k.Some? {
        dial := Some(deferred[k.value]);
        deferred := deferred[..k.value] + deferred[k.value + 1..];
      } else {
        dial := None;
      }
    }
  }
}
