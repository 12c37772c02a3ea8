/** Probe dials: each address is probed boundedly often between removals, every
    unconfirmed address has been probed or was connected when it came in, and
    our own listeners are never probed. */
module ProbeTheorems {
  import opened Wrappers
  import opened Orders
  import opened Multiaddrs
  import opened PeerInfos
  import opened Books
  import IT = IdentifyTheorems
  import I = Invariants

  /** The dials that a step appends to the action queue. */
  function Queued(b: Book, s: Step): seq<DialAction>
    requires Enabled(b, s)
  {
    var b' := Next(b, s);
    if |b.actions| <= |b'.actions| then b'.actions[|b.actions|..] else []
  }

  /** Only `add_address` and `set_info` dial under any condition. */
  predicate IsProbeOf(d: DialAction, p: PeerId, a: Multiaddr) {
    d.always && d.peer == p && d.own.Some? && d.own.value.addr == a
  }

  function CountProbes(ds: seq<DialAction>, p: PeerId, a: Multiaddr): nat {
    if ds == [] then 0
    else CountProbes(ds[..|ds| - 1], p, a) + if IsProbeOf(ds[|ds| - 1], p, a) then 1 else 0
  }

  lemma {:induction false} CountInProbes(peer: PeerId, xs: seq<Multiaddr>, p: PeerId, a: Multiaddr)
    requires NoDuplicates(xs)
    ensures CountProbes(IT.Probes(peer, xs), p, a) == if peer == p && a in xs then 1 else 0
  {
    if xs != [] {
      var init, x := xs[..|xs| - 1], xs[|xs| - 1];
      CountInProbes(peer, init, p, a);
      assert xs == init + [x];
      assert x !in init;
      var ds := IT.Probes(peer, xs);
      assert ds[..|ds| - 1] == IT.Probes(peer, init);
    }
  }

  // ---- What each kind of step queues ----------------------------------------

  lemma AddAddressQueues(b: Book, peer: PeerId, addr: Multiaddr, source: AddressSource, now: Time)
    ensures var b' := AddAddress(b, peer, addr, source, now);
            var full := Normalize(addr, peer);
            b'.actions == b.actions
            + if !Refused(b, peer, addr) && b.InfoOf(peer).WantsProbe(full, source) && full !in ConnectionsOf(b, peer)
              then [Probe(peer, full, SIM_OPEN_RETRIES + 1)] else []
  {
  }

  lemma SetInfoQueues(b: Book, peer: PeerId, id: Identify, now: Time, order: seq<Multiaddr>)
    requires Enabled(b, GotIdentify(peer, id, now, order)) && peer in b.peers
    ensures var info := Identified(b.peers[peer], id);
            var probed := IT.ProbedOf(info, order, b.cfg.portReuse, b.listeners);
            && SetInfo(b, peer, id, now, order).actions == b.actions + IT.Probes(peer, probed)
            && NoDuplicates(probed)
            && forall a :: a in probed <==>
                 && a in IdentifyCandidates(b.cfg, b.peers[peer], peer, id.listenAddrs)
                 && IT.IsProbed(info, a, b.cfg.portReuse, b.listeners)
  {
    var info := Identified(b.peers[peer], id);
    IT.CandidateProbesMeaning(info, peer, order, b.cfg.portReuse, b.listeners, now);
    IT.ProbedOfMeaning(info, order, b.cfg.portReuse, b.listeners);
    var candidates := IdentifyCandidates(b.cfg, b.peers[peer], peer, id.listenAddrs);
    assert forall a :: a in order <==> a in candidates by { assert candidates == set x | x in order; }
  }

  /** Connections are ingested as `Dial` or `Incoming`, which asks for no probe. */
  lemma ConnectQueuesNothing(b: Book, peer: PeerId, cp: ConnectedPoint, other: nat, now: Time)
    ensures var b' := Connect(b, peer, cp, other, now); b'.actions == b.actions && b'.deferred == b.deferred
  {
    I.ConnectAddsAddress(b, peer, cp, other, now, peer);
  }

  lemma ChangeQueuesNothing(b: Book, peer: PeerId, before: ConnectedPoint, after: ConnectedPoint, now: Time)
    ensures var b' := ChangeAddress(b, peer, before, after, now); b'.actions == b.actions && b'.deferred == b.deferred
  {
    I.ChangeAddsAddress(b, peer, before, after, now, peer);
  }

  lemma ConnectionsQueueNothing(b: Book, s: Step)
    requires s.GotConnection? || s.GotAddressChange?
    ensures Queued(b, s) == []
  {
    match s
    case GotConnection(peer, cp, other, now) => ConnectQueuesNothing(b, peer, cp, other, now);
    case GotAddressChange(peer, before, after, now) => ChangeQueuesNothing(b, peer, before, after, now);
  }

  /** The dials requested by callers are not probes. */
  lemma OtherStepsQueueNoProbes(b: Book, s: Step, p: PeerId, a: Multiaddr)
    requires Enabled(b, s) && !s.CallAddAddress? && !s.GotIdentify?
    ensures CountProbes(Queued(b, s), p, a) == 0
    ensures forall d :: d in Queued(b, s) ==> !d.always
  {
    if s.GotConnection? || s.GotAddressChange? {
      ConnectionsQueueNothing(b, s);
    } else if s.CallDial? || s.CallDialAddress? {
      assert |Queued(b, s)| <= 1;
    } else {
      assert Queued(b, s) == [];
    }
  }

  // ---- The amortised bound --------------------------------------------------

  /** How many probes the stored source still leaves room for. */
  function Room(b: Book, p: PeerId, a: Multiaddr): nat {
    if Stored(b, p, a) then (if SourceIn(b, p, a).Rank() >= 4 then 0 else 4 - SourceIn(b, p, a).Rank()) else 4
  }

  /** The step forgets an address that is not waiting for translation. */
  predicate Removes(b: Book, s: Step, p: PeerId, a: Multiaddr)
    requires Enabled(b, s)
  {
    Stored(b, p, a) && !SourceIn(b, p, a).IsToTranslate() && !Stored(Next(b, s), p, a)
  }

  ghost predicate PaysForProbes(b: Book, s: Step, p: PeerId, a: Multiaddr)
    requires Enabled(b, s)
  {
    CountProbes(Queued(b, s), p, a) + Room(Next(b, s), p, a) <= Room(b, p, a) + if Removes(b, s, p, a) then 4 else 0
  }

  lemma AddAddressPays(b: Book, s: Step, p: PeerId, a: Multiaddr)
    requires s.CallAddAddress?
    ensures PaysForProbes(b, s, p, a)
  {
    AddAddressQueues(b, s.peer, s.addr, s.source, s.now);
    assert |Queued(b, s)| <= 1;
  }

  lemma SetInfoPays(b: Book, s: Step, p: PeerId, a: Multiaddr)
    requires s.GotIdentify? && Enabled(b, s)
    ensures PaysForProbes(b, s, p, a)
  {
    if s.peer in b.peers {
      SetInfoQueues(b, s.peer, s.id, s.now, s.order);
      var probed := IT.ProbedOf(Identified(b.peers[s.peer], s.id), s.order, b.cfg.portReuse, b.listeners);
      assert Queued(b, s) == IT.Probes(s.peer, probed);
      CountInProbes(s.peer, probed, p, a);
      IT.SetInfoMeaning(b, s.peer, s.id, s.now, s.order);
    }
  }

  /** Steps that never lower a source have nothing to pay for. */
  lemma StepPaysForProbes(b: Book, s: Step, p: PeerId, a: Multiaddr)
    requires Enabled(b, s)
    ensures PaysForProbes(b, s, p, a)
  {
    if s.CallAddAddress? {
      AddAddressPays(b, s, p, a);
    } else if s.GotIdentify? {
      SetInfoPays(b, s, p, a);
    } else {
      OtherStepsQueueNoProbes(b, s, p, a);
      OtherStepsKeepSources(b, s, p, a);
    }
  }

  lemma {:induction false} PushFaultsKeepsOrRemoves(info: Info, peer: PeerId, faults: seq<Fault>, now: Time,
                                                    a: Multiaddr)
    ensures var after := PushFaults(info, peer, faults, now).addresses;
            a in after ==> a in info.addresses && after[a] == info.addresses[a]
    ensures a in info.addresses && !info.addresses[a].source.IsToProbe() ==>
              a in PushFaults(info, peer, faults, now).addresses
  {
    if faults != [] {
      PushFaultsKeepsOrRemoves(info, peer, faults[..|faults| - 1], now, a);
    }
  }

  lemma FailDialKeepsSources(b: Book, s: Step, p: PeerId, a: Multiaddr)
    requires s.GotDialFailure? && Stored(Next(b, s), p, a)
    ensures Stored(b, p, a) && SourceIn(b, p, a) == SourceIn(Next(b, s), p, a)
  {
    var blamed := BlamedPeer(s.blame, s.own);
    if blamed.Some? && blamed.value in b.peers && s.own.None? && s.error.Transport? && blamed.value == p {
      PushFaultsKeepsOrRemoves(b.peers[p], p, s.error.faults, s.now, a);
    }
  }

  /** The entry is as before, or comes from a connection. */
  predicate KeptOrConnected(before: map<Multiaddr, Entry>, after: map<Multiaddr, Entry>, a: Multiaddr) {
    a in after ==>
      || after[a].source == Dial
      || (a in before && before[a].source == after[a].source)
      || (a !in before && after[a].source == Incoming)
  }

  lemma ConnectionSource(b: Book, peer: PeerId, addr: Multiaddr, cp: ConnectedPoint, now: Time, p: PeerId, a: Multiaddr)
    ensures KeptOrConnected(AddressesOf(b, p), AddressesOf(AddAddress(b, peer, addr, SourceOf(cp), now), p), a)
  {
  }

  /** Outside `add_address` and `set_info` nothing enters the probing band: an
      address that is stored afterwards was stored before with the same source,
      or comes from a connection. */
  lemma OtherStepsKeepSources(b: Book, s: Step, p: PeerId, a: Multiaddr)
    requires Enabled(b, s) && !s.CallAddAddress? && !s.GotIdentify?
    ensures KeptOrConnected(AddressesOf(b, p), AddressesOf(Next(b, s), p), a)
  {
    match s
    case GotConnection(peer, cp, other, now) =>
      I.ConnectAddsAddress(b, peer, cp, other, now, p);
      ConnectionSource(b, peer, Normalize(cp.RemoteAddress(), peer), cp, now, p, a);
    case GotAddressChange(peer, before, after, now) =>
      I.ChangeAddsAddress(b, peer, before, after, now, p);
      ConnectionSource(b, peer, Normalize(after.RemoteAddress(), peer), after, now, p, a);
    case GotDialFailure(_, _, _, _, _) =>
      if Stored(Next(b, s), p, a) {
        FailDialKeepsSources(b, s, p, a);
      }
    case _ =>
  }

  function ProbesUpTo(run: Run, n: nat, p: PeerId, a: Multiaddr): nat
    requires run.Valid() && n < |run.books|
  {
    if n == 0 then 0
    else ProbesUpTo(run, n - 1, p, a) + CountProbes(Queued(run.books[n - 1], run.steps[n - 1]), p, a)
  }

  function RemovalsUpTo(run: Run, n: nat, p: PeerId, a: Multiaddr): nat
    requires run.Valid() && n < |run.books|
  {
    if n == 0 then 0
    else RemovalsUpTo(run, n - 1, p, a) + if Removes(run.books[n - 1], run.steps[n - 1], p, a) then 1 else 0
  }

  /** In every run, from any book, the probes of one address number at most four
      for the first stay and four more for every removal. */
  lemma {:induction false} ProbesAreAmortised(run: Run, n: nat, p: PeerId, a: Multiaddr)
    requires run.Valid() && n < |run.books|
    ensures ProbesUpTo(run, n, p, a) + Room(run.books[n], p, a) <= 4 * (1 + RemovalsUpTo(run, n, p, a))
  {
    if n != 0 {
      ProbesAreAmortised(run, n - 1, p, a);
      StepPaysForProbes(run.books[n - 1], run.steps[n - 1], p, a);
    }
  }

  // ---- Every unconfirmed address has been probed ----------------------------

  predicate AwaitsProbe(b: Book, p: PeerId, a: Multiaddr) {
    Stored(b, p, a) && SourceIn(b, p, a).IsToProbe()
  }

  /** The step queues a probe for the address, or finds it connected. */
  ghost predicate Vouches(b: Book, s: Step, p: PeerId, a: Multiaddr)
    requires Enabled(b, s)
  {
    CountProbes(Queued(b, s), p, a) == 1 || a in ConnectionsOf(b, p)
  }

  lemma EnteringTheBandIsVouched(b: Book, s: Step, p: PeerId, a: Multiaddr)
    requires Enabled(b, s) && !AwaitsProbe(b, p, a) && AwaitsProbe(Next(b, s), p, a)
    ensures Vouches(b, s, p, a)
  {
    if s.CallAddAddress? {
      AddAddressQueues(b, s.peer, s.addr, s.source, s.now);
      if Queued(b, s) != [] {
        assert Queued(b, s) == [Probe(s.peer, Normalize(s.addr, s.peer), SIM_OPEN_RETRIES + 1)];
        assert Queued(b, s)[..0] == [];
      }
    } else if s.GotIdentify? {
      if s.peer in b.peers {
        IT.SetInfoMeaning(b, s.peer, s.id, s.now, s.order);
        SetInfoQueues(b, s.peer, s.id, s.now, s.order);
        var probed := IT.ProbedOf(Identified(b.peers[s.peer], s.id), s.order, b.cfg.portReuse, b.listeners);
        assert Queued(b, s) == IT.Probes(s.peer, probed);
        CountInProbes(s.peer, probed, p, a);
      }
    } else {
      OtherStepsKeepSources(b, s, p, a);
    }
  }

  ghost predicate VouchedAt(run: Run, k: nat, p: PeerId, a: Multiaddr)
    requires run.Valid()
  {
    k < |run.steps| && Vouches(run.books[k], run.steps[k], p, a)
  }

  lemma EnteringIsVouchedAt(run: Run, n: nat, p: PeerId, a: Multiaddr)
    requires run.Valid() && n < |run.steps| && !AwaitsProbe(run.books[n], p, a) && AwaitsProbe(run.books[n + 1], p, a)
    ensures VouchedAt(run, n, p, a)
  {
    EnteringTheBandIsVouched(run.books[n], run.steps[n], p, a);
  }

  /** In every run that starts empty, an address with source `Listen`, `Kad`,
      `Mdns` or `Candidate` has had such a source without interruption since the
      step that gave it one, and that step queued a probe for the address or
      found it connected. */
  lemma {:induction false} UnconfirmedAddressesWereProbed(run: Run, cfg: Config, n: nat, p: PeerId,
                                                          a: Multiaddr) returns (k: nat)
    requires run.Valid() && run.books[0] == EmptyBook(cfg) && n < |run.books|
    requires AwaitsProbe(run.books[n], p, a)
    ensures k < n && VouchedAt(run, k, p, a)
    ensures !AwaitsProbe(run.books[k], p, a) && forall i :: k < i <= n ==> AwaitsProbe(run.books[i], p, a)
  {
    if AwaitsProbe(run.books[n - 1], p, a) {
      k := UnconfirmedAddressesWereProbed(run, cfg, n - 1, p, a);
    } else {
      EnteringIsVouchedAt(run, n - 1, p, a);
      k := n - 1;
    }
  }

  /** No step of any run probes an address that is our own listener at that
      moment, and a probe dials exactly the address under test. */
  lemma OwnListenersAreNotProbed(b: Book, s: Step, d: DialAction)
    requires Enabled(b, s) && d in Queued(b, s) && d.always
    ensures d.own.Some? && d.addresses == Some([Pop(d.own.value.addr)])
    ensures Pop(d.own.value.addr) !in b.listeners
    ensures (s.CallAddAddress? || s.GotIdentify?) && d.peer == s.peer
    ensures !d.keepAlive && d.own.value.retries == if s.GotIdentify? then 4 else 11
  {
    if s.CallAddAddress? {
      AddAddressQueues(b, s.peer, s.addr, s.source, s.now);
    } else if s.GotIdentify? {
      if s.peer in b.peers {
        SetInfoQueues(b, s.peer, s.id, s.now, s.order);
        var probed := IT.ProbedOf(Identified(b.peers[s.peer], s.id), s.order, b.cfg.portReuse, b.listeners);
        assert Queued(b, s) == IT.Probes(s.peer, probed);
        var i :| 0 <= i < |probed| && d == Probe(s.peer, probed[i], IDENTIFY_RETRIES);
        assert probed[i] in probed;
      }
    } else {
      OtherStepsQueueNoProbes(b, s, d.peer, []);
    }
  }
}
