/** What `set_info` computes, independent of the order in which hash tables are
    traversed: a closed form for the new addresses and for the probes, and its
    idempotence. */
module IdentifyTheorems {
  import opened Wrappers
  import opened Orders
  import opened Multiaddrs
  import opened PeerInfos
  import opened Books

  /** Is `a` stored with a source above `Incoming`? Such entries survive. */
  predicate Survives(info: Info, a: Multiaddr) {
    a in info.addresses && !info.addresses[a].source.IsToTranslate()
  }

  /** The source a candidate ends up with when it is new to the record. */
  function FreshSource(info: Info, a: Multiaddr, portReuse: bool): AddressSource {
    if portReuse && a in info.connections then Candidate else Listen
  }

  predicate NoIncoming(info: Info) {
    forall a :: a in info.addresses ==> !info.addresses[a].source.IsToTranslate()
  }

  /** The addresses after the candidates in `visited` have been ingested. */
  ghost predicate IsIngested(before: Info, visited: seq<Multiaddr>, portReuse: bool, ours: set<Multiaddr>, now: Time,
                             after: Info) {
    && after == before.(addresses := after.addresses)
    && (forall a :: a in after.addresses <==> a in before.addresses || (a in visited && Pop(a) !in ours))
    && (forall a :: a in after.addresses ==>
          after.addresses[a] ==
          Entry(if a in before.addresses then before.addresses[a].source else FreshSource(before, a, portReuse),
                if a in visited && Pop(a) !in ours then now else before.addresses[a].seen))
  }

  lemma IngestOneMore(before: Info, visited: seq<Multiaddr>, x: Multiaddr, portReuse: bool, ours: set<Multiaddr>,
                      now: Time, mid: Info)
    requires NoIncoming(before) && x !in visited && IsIngested(before, visited, portReuse, ours, now, mid)
    ensures IsIngested(before, visited + [x], portReuse, ours, now, IngestCandidate(mid, x, portReuse, ours, now))
  {
    var after := IngestCandidate(mid, x, portReuse, ours, now);
    assert forall a :: a in visited + [x] <==> a in visited || a == x;
    assert forall a :: a != x ==> (a in after.addresses <==> a in mid.addresses);
    assert forall a :: a != x && a in mid.addresses ==> after.addresses[a] == mid.addresses[a];
  }

  lemma {:induction false} IngestCandidatesMeaning(info: Info, order: seq<Multiaddr>, portReuse: bool,
                                                   ours: set<Multiaddr>, now: Time)
    requires NoDuplicates(order) && NoIncoming(info)
    ensures IsIngested(info, order, portReuse, ours, now, IngestCandidates(info, order, portReuse, ours, now))
  {
    if order != [] {
      var init, x := order[..|order| - 1], order[|order| - 1];
      IngestCandidatesMeaning(info, init, portReuse, ours, now);
      IngestOneMore(info, init, x, portReuse, ours, now, IngestCandidates(info, init, portReuse, ours, now));
      assert order == init + [x];
    }
  }

  /** Candidates that are dialled: not ours, not yet stored, and not the far end
      of a connection whose port we reuse. */
  predicate IsProbed(info: Info, a: Multiaddr, portReuse: bool, ours: set<Multiaddr>) {
    Pop(a) !in ours && a !in info.addresses && !(portReuse && a in info.connections)
  }

  function ProbedOf(info: Info, order: seq<Multiaddr>, portReuse: bool, ours: set<Multiaddr>): seq<Multiaddr> {
    if order == [] then []
    else
      ProbedOf(info, order[..|order| - 1], portReuse, ours)
      + (if IsProbed(info, order[|order| - 1], portReuse, ours) then [order[|order| - 1]] else [])
  }

  lemma {:induction false} ProbedOfMeaning(info: Info, order: seq<Multiaddr>, portReuse: bool, ours: set<Multiaddr>)
    requires NoDuplicates(order)
    ensures var probed := ProbedOf(info, order, portReuse, ours);
            && NoDuplicates(probed)
            && forall a :: a in probed <==> a in order && IsProbed(info, a, portReuse, ours)
  {
    if order != [] {
      var init := order[..|order| - 1];
      ProbedOfMeaning(info, init, portReuse, ours);
      assert order == init + [order[|order| - 1]];
      assert order[|order| - 1] !in init;
    }
  }

  function Probes(peer: PeerId, addrs: seq<Multiaddr>): (ds: seq<DialAction>)
    ensures |ds| == |addrs|
    ensures forall i :: 0 <= i < |addrs| ==> ds[i] == Probe(peer, addrs[i], IDENTIFY_RETRIES)
  {
    seq(|addrs|, i requires 0 <= i < |addrs| => Probe(peer, addrs[i], IDENTIFY_RETRIES))
  }

  lemma {:induction false} CandidateProbesMeaning(info: Info, peer: PeerId, order: seq<Multiaddr>, portReuse: bool,
                                                  ours: set<Multiaddr>, now: Time)
    requires NoDuplicates(order) && NoIncoming(info)
    ensures CandidateProbes(info, peer, order, portReuse, ours, now) ==
            Probes(peer, ProbedOf(info, order, portReuse, ours))
  {
    if order != [] {
      var init := order[..|order| - 1];
      CandidateProbesMeaning(info, peer, init, portReuse, ours, now);
      IngestCandidatesMeaning(info, init, portReuse, ours, now);
      assert order[|order| - 1] !in init;
    }
  }

  /** The set specification of `set_info`. After it, the stored addresses are
      exactly the former ones above `Incoming` and the candidates that are not
      our own listeners; former sources are kept, new ones are `Listen`, or
      `Candidate` behind a port-reusing connection. Exactly the new candidates
      that are not already behind such a connection are dialled, once each.
      Nothing else changes. */
  lemma SetInfoMeaning(b: Book, peer: PeerId, id: Identify, now: Time, order: seq<Multiaddr>)
    requires Enabled(b, GotIdentify(peer, id, now, order)) && peer in b.peers
    ensures var b' := SetInfo(b, peer, id, now, order);
            var old_, new_ := b.peers[peer], b'.peers[peer];
            var candidates := IdentifyCandidates(b.cfg, old_, peer, id.listenAddrs);
            && (forall a :: a in new_.addresses <==> Survives(old_, a) || (a in candidates && Pop(a) !in b.listeners))
            && (forall a :: a in new_.addresses ==>
                  new_.addresses[a].source ==
                  if Survives(old_, a) then old_.addresses[a].source else FreshSource(old_, a, b.cfg.portReuse))
            && new_ == Identified(old_, id).(addresses := new_.addresses)
    ensures var b' := SetInfo(b, peer, id, now, order);
            var old_ := b.peers[peer];
            var candidates := IdentifyCandidates(b.cfg, old_, peer, id.listenAddrs);
            exists dialled: seq<Multiaddr> ::
              && b' == b.(peers := b.peers[peer := b'.peers[peer]], actions := b.actions + Probes(peer, dialled),
                       events := b.events + [NewInfo(peer)])
              && Enumerates(dialled, set a | a in candidates && Pop(a) !in b.listeners && !Survives(old_, a)
                                             && !(b.cfg.portReuse && a in old_.connections))
  {
    var info := Identified(b.peers[peer], id);
    IngestCandidatesMeaning(info, order, b.cfg.portReuse, b.listeners, now);
    CandidateProbesMeaning(info, peer, order, b.cfg.portReuse, b.listeners, now);
    ProbedOfMeaning(info, order, b.cfg.portReuse, b.listeners);
    var candidates := IdentifyCandidates(b.cfg, b.peers[peer], peer, id.listenAddrs);
    assert forall a :: a in order <==> a in candidates by {
      assert candidates == set x | x in order;
    }
  }

  /** The translation rule in words: an incoming address with an IP and a TCP
      port is replaced by variants of itself on the same host. The ports are
      those advertised for that very host, if any; otherwise all advertised
      ports; and if there are none the address stands for itself. */
  lemma GuessRule(addr: Multiaddr, sockets: seq<Socket>, guess: Multiaddr)
    requires IpPort(addr).Some?
    ensures var ip := IpPort(addr).value.ip;
            var onHost := exists s :: s in sockets && s.ip == ip;
            guess in Guesses(addr, sockets) <==>
            if sockets == [] then guess == addr
            else exists s :: s in sockets && (onHost ==> s.ip == ip) && IsPortVariant(addr, s.port, guess)
    ensures Guesses(addr, sockets) != {}
  {
    forall s: Socket
      ensures IsPortVariant(addr, s.port, guess) <==> guess == WithPort(addr, s.port)
    {
      PortVariantIff(addr, s.port, guess);
    }
    var ip := IpPort(addr).value.ip;
    var sameHost := set s | s in sockets && s.ip == ip :: WithPort(addr, s.port);
    var anyHost := set s | s in sockets :: WithPort(addr, s.port);
    if s :| s in sockets && s.ip == ip {
      assert WithPort(addr, s.port) in sameHost;
    }
    if sockets != [] {
      assert sockets[0] in sockets;
      assert WithPort(addr, sockets[0].port) in anyHost;
    }
  }

  /** A socket is offered if it is advertised by an address that is not the far end
      of a current connection. */
  ghost predicate IsOffered(info: Info, peer: PeerId, advertised: seq<Multiaddr>, s: Socket) {
    exists a :: a in advertised && Normalize(a, peer) !in info.connections && IpPort(a) == Some(s)
  }

  /** The collected sockets are exactly the offered ones. */
  lemma {:induction false} ListenSocketsMeaning(info: Info, peer: PeerId, advertised: seq<Multiaddr>, s: Socket)
    ensures s in ListenSockets(info, peer, advertised) <==> IsOffered(info, peer, advertised, s)
  {
    if advertised != [] {
      var init, last := advertised[..|advertised| - 1], advertised[|advertised| - 1];
      ListenSocketsMeaning(info, peer, init, s);
      assert advertised == init + [last];
      if IsOffered(info, peer, init, s) {
        var a :| a in init && Normalize(a, peer) !in info.connections && IpPort(a) == Some(s);
        assert a in advertised;
      }
    }
  }

  /** `guess` is what `incoming` may translate to: itself with an offered port, of
      its own host if any is offered there, or itself if nothing is offered. */
  ghost predicate IsTranslation(info: Info, peer: PeerId, advertised: seq<Multiaddr>, incoming: Multiaddr,
                                guess: Multiaddr) {
    && incoming in info.addresses && info.addresses[incoming].source == Incoming && IpPort(incoming).Some?
    && var onHost := exists s :: IsOffered(info, peer, advertised, s) && s.ip == IpPort(incoming).value.ip;
       if exists s :: IsOffered(info, peer, advertised, s) then
         exists s :: IsOffered(info, peer, advertised, s) && (onHost ==> s.ip == IpPort(incoming).value.ip)
                     && IsPortVariant(incoming, s.port, guess)
       else guess == incoming
  }

  lemma GuessesMeaning(info: Info, peer: PeerId, advertised: seq<Multiaddr>, incoming: Multiaddr, guess: Multiaddr)
    requires incoming in info.addresses && info.addresses[incoming].source == Incoming
    ensures guess in Guesses(incoming, ListenSockets(info, peer, advertised)) <==>
            IsTranslation(info, peer, advertised, incoming, guess)
  {
    var sockets := ListenSockets(info, peer, advertised);
    assert forall s :: s in sockets <==> IsOffered(info, peer, advertised, s) by {
      forall s
        ensures s in sockets <==> IsOffered(info, peer, advertised, s)
      {
        ListenSocketsMeaning(info, peer, advertised, s);
      }
    }
    if IpPort(incoming).Some? {
      GuessRule(incoming, sockets, guess);
      if sockets != [] {
        assert sockets[0] in sockets;
      }
    }
  }

  /** A translation differs from its incoming address in the port at most, so it names
      the same peer. */
  lemma TranslationKeepsPeer(info: Info, peer: PeerId, advertised: seq<Multiaddr>, incoming: Multiaddr,
                             guess: Multiaddr)
    requires IsTranslation(info, peer, advertised, incoming, guess)
    ensures |guess| == |incoming| && forall i :: 0 <= i < |incoming| && i != 1 ==> guess[i] == incoming[i]
    ensures PeerIdOf(guess) == PeerIdOf(incoming)
  {
    if guess != incoming {
      var s :| IsOffered(info, peer, advertised, s) && IsPortVariant(incoming, s.port, guess);
      PortVariantIff(incoming, s.port, guess);
    }
  }

  /** The candidates in terms of the Identify record and of what is stored: the
      advertised addresses with the peer's name, loopback ones only if enabled, and
      the translations of the incoming addresses. */
  lemma IdentifyCandidatesMeaning(cfg: Config, info: Info, peer: PeerId, advertised: seq<Multiaddr>, t: Multiaddr)
    ensures t in IdentifyCandidates(cfg, info, peer, advertised) <==>
            || (exists a :: a in advertised && (cfg.enableLoopback || !IsLoopback(a)) && t == Normalize(a, peer))
            || (exists a :: IsTranslation(info, peer, advertised, a, t))
  {
    var sockets := ListenSockets(info, peer, advertised);
    forall a | a in ToTranslate(info)
      ensures t in Guesses(a, sockets) <==> IsTranslation(info, peer, advertised, a, t)
    {
      GuessesMeaning(info, peer, advertised, a, t);
    }
    assert t in Translated(info, sockets) <==> exists a :: a in ToTranslate(info) && t in Guesses(a, sockets);
    if a :| IsTranslation(info, peer, advertised, a, t) {
      assert a in ToTranslate(info);
    }
  }

  /** No source drops, no incoming address is left, and every candidate that is
      not our own listener is stored and at least `Listen`. */
  lemma SetInfoRaisesSources(b: Book, peer: PeerId, id: Identify, now: Time, order: seq<Multiaddr>, a: Multiaddr)
    requires Enabled(b, GotIdentify(peer, id, now, order)) && peer in b.peers
    ensures var old_, new_ := b.peers[peer], SetInfo(b, peer, id, now, order).peers[peer];
            && (a in new_.addresses ==> new_.addresses[a].source.Rank() >= 1)
            && (Survives(old_, a) ==> a in new_.addresses && new_.addresses[a].source == old_.addresses[a].source)
            && (a in old_.addresses && a in new_.addresses ==>
                  old_.addresses[a].source.Rank() <= new_.addresses[a].source.Rank())
            && (a in IdentifyCandidates(b.cfg, old_, peer, id.listenAddrs) && Pop(a) !in b.listeners ==>
                  a in new_.addresses)
  {
    SetInfoMeaning(b, peer, id, now, order);
  }

  /** Two traversal orders give the same book up to the order of the probes. */
  lemma TraversalOrderIsIrrelevant(b: Book, peer: PeerId, id: Identify, now: Time, order1: seq<Multiaddr>,
                                   order2: seq<Multiaddr>)
    requires Enabled(b, GotIdentify(peer, id, now, order1)) && Enabled(b, GotIdentify(peer, id, now, order2))
    ensures var b1, b2 := SetInfo(b, peer, id, now, order1), SetInfo(b, peer, id, now, order2);
            && b1.peers == b2.peers
            && b1 == b2.(actions := b1.actions)
            && multiset(b1.actions) == multiset(b2.actions)
  {
    if peer in b.peers {
      var info := Identified(b.peers[peer], id);
      var reuse, ours := b.cfg.portReuse, b.listeners;
      var candidates := IdentifyCandidates(b.cfg, b.peers[peer], peer, id.listenAddrs);
      assert forall a :: a in order1 <==> a in order2 by {
        assert forall a :: a in order1 <==> a in candidates by { assert candidates == set x | x in order1; }
        assert forall a :: a in order2 <==> a in candidates by { assert candidates == set x | x in order2; }
      }
      IngestCandidatesMeaning(info, order1, reuse, ours, now);
      IngestCandidatesMeaning(info, order2, reuse, ours, now);
      var i1, i2 := IngestCandidates(info, order1, reuse, ours, now), IngestCandidates(info, order2, reuse, ours, now);
      assert i1.addresses == i2.addresses;
      CandidateProbesMeaning(info, peer, order1, reuse, ours, now);
      CandidateProbesMeaning(info, peer, order2, reuse, ours, now);
      ProbedOfMeaning(info, order1, reuse, ours);
      ProbedOfMeaning(info, order2, reuse, ours);
      SameProbes(peer, ProbedOf(info, order1, reuse, ours), ProbedOf(info, order2, reuse, ours));
    }
  }

  lemma SameProbes(peer: PeerId, xs: seq<Multiaddr>, ys: seq<Multiaddr>)
    requires NoDuplicates(xs) && NoDuplicates(ys) && forall a :: a in xs <==> a in ys
    ensures multiset(Probes(peer, xs)) == multiset(Probes(peer, ys))
  {
    var ps, qs := Probes(peer, xs), Probes(peer, ys);
    forall d
      ensures multiset(ps)[d] == multiset(qs)[d]
    {
      CountInProbes(peer, xs, d);
      CountInProbes(peer, ys, d);
    }
  }

  lemma {:induction false} CountInProbes(peer: PeerId, xs: seq<Multiaddr>, d: DialAction)
    requires NoDuplicates(xs)
    ensures multiset(Probes(peer, xs))[d] ==
            if d.own.Some? && d.own.value.addr in xs && d == Probe(peer, d.own.value.addr, IDENTIFY_RETRIES)
            then 1 else 0
  {
    if xs != [] {
      var init, x := xs[..|xs| - 1], xs[|xs| - 1];
      CountInProbes(peer, init, d);
      assert Probes(peer, xs) == Probes(peer, init) + [Probe(peer, x, IDENTIFY_RETRIES)];
      assert xs == init + [x];
      assert x !in init;
    }
  }

  /** Candidates that are all known already, or ours, bring nothing new. */
  lemma KnownCandidates(info: Info, peer: PeerId, order: seq<Multiaddr>, portReuse: bool, ours: set<Multiaddr>,
                        now: Time)
    requires NoDuplicates(order) && NoIncoming(info)
    requires forall a :: a in order ==> a in info.addresses || Pop(a) in ours
    ensures CandidateProbes(info, peer, order, portReuse, ours, now) == []
    ensures var after := IngestCandidates(info, order, portReuse, ours, now);
            && after == info.(addresses := after.addresses)
            && after.addresses.Keys == info.addresses.Keys
            && forall a :: a in info.addresses ==> after.addresses[a].source == info.addresses[a].source
  {
    IngestCandidatesMeaning(info, order, portReuse, ours, now);
    CandidateProbesMeaning(info, peer, order, portReuse, ours, now);
    ProbedOfMeaning(info, order, portReuse, ours);
  }

  /** Repeating `set_info` with the same Identify record, with no event in
      between, dials nobody and changes no address and no source. */
  lemma SetInfoIsIdempotent(b: Book, peer: PeerId, id: Identify, now1: Time, order1: seq<Multiaddr>, now2: Time,
                            order2: seq<Multiaddr>)
    requires Enabled(b, GotIdentify(peer, id, now1, order1))
    requires Enabled(SetInfo(b, peer, id, now1, order1), GotIdentify(peer, id, now2, order2))
    ensures var b1 := SetInfo(b, peer, id, now1, order1);
            var b2 := SetInfo(b1, peer, id, now2, order2);
            && b2.actions == b1.actions && b2.deferred == b1.deferred
            && AddressesOf(b2, peer).Keys == AddressesOf(b1, peer).Keys
            && (forall a :: Stored(b1, peer, a) ==> SourceIn(b2, peer, a) == SourceIn(b1, peer, a))
            && (peer in b.peers ==>
                  b2.peers == b1.peers[peer := b1.peers[peer].(addresses := b2.peers[peer].addresses)])
  {
    if peer in b.peers {
      var b1 := SetInfo(b, peer, id, now1, order1);
      SetInfoMeaning(b, peer, id, now1, order1);
      var old_, new_ := b.peers[peer], b1.peers[peer];
      assert NoIncoming(new_);
      NothingToTranslate(b.cfg, old_, new_, peer, id.listenAddrs);
      assert Identified(new_, id) == new_ by {
        assert WithoutIncoming(new_.addresses) == new_.addresses;
      }
      forall a | a in order2
        ensures a in new_.addresses || Pop(a) in b.listeners
      {
        assert a in IdentifyCandidates(b.cfg, new_, peer, id.listenAddrs);
      }
      KnownCandidates(new_, peer, order2, b.cfg.portReuse, b.listeners, now2);
    }
  }

  /** With nothing to translate the candidates are the advertised addresses,
      which were candidates before as well. */
  lemma NothingToTranslate(cfg: Config, before: Info, after: Info, peer: PeerId, advertised: seq<Multiaddr>)
    requires NoIncoming(after)
    ensures IdentifyCandidates(cfg, after, peer, advertised) == Advertised(cfg, peer, advertised)
    ensures Advertised(cfg, peer, advertised) <= IdentifyCandidates(cfg, before, peer, advertised)
  {
    assert ToTranslate(after) == {};
  }
}
