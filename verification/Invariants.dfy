/** What holds of every book that can be reached, and which addresses can be
    lost. */
module Invariants {
  import opened Wrappers
  import opened Orders
  import opened Multiaddrs
  import opened PeerInfos
  import opened Books
  import IT = IdentifyTheorems

  /** Stored addresses name a peer, and lead off this machine unless loopback
      addresses are enabled. */
  predicate GoodAddress(cfg: Config, a: Multiaddr) {
    EndsInP2p(a) && (!cfg.enableLoopback ==> !IsLoopback(a))
  }

  predicate GoodInfo(cfg: Config, info: Info) {
    && (forall a :: a in info.addresses ==> GoodAddress(cfg, a))
    && (forall a :: a in info.connections ==> EndsInP2p(a))
    && |info.failures| <= HISTORY
  }

  predicate Inv(b: Book) {
    forall p :: p in b.peers ==> GoodInfo(b.cfg, b.peers[p])
  }

  // ---- The invariant --------------------------------------------------------

  lemma AddAddressKeepsInv(b: Book, peer: PeerId, addr: Multiaddr, source: AddressSource, now: Time)
    requires Inv(b)
    ensures Inv(AddAddress(b, peer, addr, source, now))
  {
    if !Refused(b, peer, addr) && !b.cfg.enableLoopback {
      NormalizeKeepsLoopback(addr, peer);
    }
  }

  lemma DialAddressKeepsInv(b: Book, peer: PeerId, addr: Multiaddr)
    requires Inv(b)
    ensures Inv(RequestDialAddress(b, peer, addr))
  {
  }

  lemma {:induction false} PushFaultsKeepsGood(cfg: Config, info: Info, peer: PeerId, faults: seq<Fault>, now: Time)
    requires GoodInfo(cfg, info)
    ensures GoodInfo(cfg, PushFaults(info, peer, faults, now))
  {
    if faults != [] {
      PushFaultsKeepsGood(cfg, info, peer, faults[..|faults| - 1], now);
    }
  }

  /** Translation included: from a good record every candidate is good, so the
      assertion in `ingest_address` holds for it. */
  lemma CandidatesAreGood(cfg: Config, info: Info, peer: PeerId, advertised: seq<Multiaddr>, a: Multiaddr)
    requires GoodInfo(cfg, info)
    requires a in IdentifyCandidates(cfg, info, peer, advertised)
    ensures GoodAddress(cfg, a)
  {
    var sockets := ListenSockets(info, peer, advertised);
    if a in Translated(info, sockets) {
      var t :| t in ToTranslate(info) && a in Guesses(t, sockets);
      IT.GuessRule(t, sockets, a);
      assert GoodAddress(cfg, t);
    } else {
      var t :| t in advertised && (cfg.enableLoopback || !IsLoopback(t)) && a == Normalize(t, peer);
      if !cfg.enableLoopback {
        NormalizeKeepsLoopback(t, peer);
      }
    }
  }

  /** `replace(1, ..).unwrap()` is only called where it succeeds. */
  lemma ReplaceNeverFails(cfg: Config, info: Info, a: Multiaddr, port: Port)
    requires GoodInfo(cfg, info) && a in ToTranslate(info) && IpPort(a).Some?
    ensures ReplacePort(a, port).Some? && GoodAddress(cfg, ReplacePort(a, port).value)
  {
    assert ReplacePort(a, port).value == WithPort(a, port);
  }

  lemma SetInfoKeepsInv(b: Book, peer: PeerId, id: Identify, now: Time, order: seq<Multiaddr>)
    requires Inv(b) && Enabled(b, GotIdentify(peer, id, now, order))
    ensures Inv(SetInfo(b, peer, id, now, order))
  {
    if peer in b.peers {
      IT.SetInfoMeaning(b, peer, id, now, order);
      forall a | a in SetInfo(b, peer, id, now, order).peers[peer].addresses
        ensures GoodAddress(b.cfg, a)
      {
        if !IT.Survives(b.peers[peer], a) {
          CandidatesAreGood(b.cfg, b.peers[peer], peer, id.listenAddrs, a);
        }
      }
    }
  }

  lemma FailDialKeepsInv(b: Book, peer: Option<PeerId>, own: Option<OwnDial>, keepAlive: bool, error: DialFault,
                         now: Time)
    requires Inv(b)
    ensures Inv(FailDial(b, peer, own, keepAlive, error, now))
  {
    var blamed := BlamedPeer(peer, own);
    if blamed.Some? && blamed.value in b.peers && own.None? && error.Transport? {
      PushFaultsKeepsGood(b.cfg, b.peers[blamed.value], blamed.value, error.faults, now);
    }
  }

  lemma ConnectKeepsInv(b: Book, peer: PeerId, cp: ConnectedPoint, other: nat, now: Time)
    requires Inv(b)
    ensures Inv(Connect(b, peer, cp, other, now))
  {
    var conn := NormalizePoint(cp, b.cfg.local, peer);
    AddAddressKeepsInv(b, peer, conn.RemoteAddress(), SourceOf(conn), now);
  }

  lemma ChangeKeepsInv(b: Book, peer: PeerId, before: ConnectedPoint, after: ConnectedPoint, now: Time)
    requires Inv(b)
    ensures Inv(ChangeAddress(b, peer, before, after, now))
  {
    var conn := NormalizePoint(after, b.cfg.local, peer);
    AddAddressKeepsInv(b, peer, conn.RemoteAddress(), SourceOf(conn), now);
  }

  lemma DisconnectKeepsInv(b: Book, peer: PeerId, cp: ConnectedPoint, left: nat, reason: CloseReason, now: Time)
    requires Inv(b)
    ensures Inv(Disconnect(b, peer, cp, left, reason, now))
  {
  }

  lemma PruneKeepsInv(b: Book, s: Step)
    requires Inv(b) && s.CallPrune? && Enabled(b, s)
    ensures Inv(Next(b, s))
  {
  }

  lemma StepKeepsInv(b: Book, s: Step)
    requires Inv(b) && Enabled(b, s)
    ensures Inv(Next(b, s)) && Next(b, s).cfg == b.cfg
  {
    match s
    case CallAddAddress(peer, addr, source, now) => AddAddressKeepsInv(b, peer, addr, source, now);
    case GotIdentify(peer, id, now, order) => SetInfoKeepsInv(b, peer, id, now, order);
    case CallPrune(_, _, _) => PruneKeepsInv(b, s);
    case GotConnection(peer, cp, other, now) => ConnectKeepsInv(b, peer, cp, other, now);
    case GotClose(peer, cp, left, reason, now) => DisconnectKeepsInv(b, peer, cp, left, reason, now);
    case GotAddressChange(peer, before, after, now) => ChangeKeepsInv(b, peer, before, after, now);
    case GotDialFailure(blame, own, keepAlive, error, now) => FailDialKeepsInv(b, blame, own, keepAlive, error, now);
    case _ =>
  }

  /** Every book of every run that starts empty is good. */
  lemma {:induction false} ReachableBooksAreGood(run: Run, cfg: Config, i: nat)
    requires run.Valid() && run.books[0] == EmptyBook(cfg) && i < |run.books|
    ensures Inv(run.books[i]) && run.books[i].cfg == cfg
  {
    if i != 0 {
      ReachableBooksAreGood(run, cfg, i - 1);
      StepKeepsInv(run.books[i - 1], run.steps[i - 1]);
    }
  }

  // ---- Retention ------------------------------------------------------------

  /** Sources that stand above any failed probe. */
  predicate IsFirm(source: AddressSource) {
    source.User? || source.Dial?
  }

  /** The two ways to lose a firm address: somebody removes it, or a validation
      dial to it reaches the wrong peer. */
  predicate Kills(b: Book, s: Step, p: PeerId, a: Multiaddr) {
    match s
    case CallRemoveAddress(peer, addr) => peer == p && Normalize(addr, peer) == a
    case GotDialFailure(blame, own, _, error, _) =>
      error.WrongPeerId? && own.Some? && own.value.addr == a && BlamedPeer(blame, own) == Some(p)
    case _ => false
  }

  lemma AddAddressOnStored(b: Book, peer: PeerId, addr: Multiaddr, source: AddressSource, now: Time, p: PeerId,
                           a: Multiaddr)
    requires Stored(b, p, a)
    ensures Stored(AddAddress(b, peer, addr, source, now), p, a)
    ensures SourceIn(b, p, a).Rank() <= SourceIn(AddAddress(b, peer, addr, source, now), p, a).Rank()
  {
  }

  /** As far as addresses and dials go, the connection handlers just add the
      remote address. */
  lemma ConnectAddsAddress(b: Book, peer: PeerId, cp: ConnectedPoint, other: nat, now: Time, p: PeerId)
    ensures var b' := Connect(b, peer, cp, other, now);
            var b1 := AddAddress(b, peer, Normalize(cp.RemoteAddress(), peer), SourceOf(cp), now);
            && AddressesOf(b', p) == AddressesOf(b1, p) && b'.actions == b1.actions && b'.deferred == b1.deferred
  {
  }

  lemma ChangeAddsAddress(b: Book, peer: PeerId, before: ConnectedPoint, after: ConnectedPoint, now: Time, p: PeerId)
    ensures var b' := ChangeAddress(b, peer, before, after, now);
            var b1 := AddAddress(b, peer, Normalize(after.RemoteAddress(), peer), SourceOf(after), now);
            && AddressesOf(b', p) == AddressesOf(b1, p) && b'.actions == b1.actions && b'.deferred == b1.deferred
  {
  }

  // ---- Forgetting, for every source -----------------------------------------

  /** Some failed address of a plain dial is this one. */
  ghost predicate IsAmongFaults(faults: seq<Fault>, peer: PeerId, a: Multiaddr) {
    exists i :: 0 <= i < |faults| && Normalize(faults[i].addr, peer) == a
  }

  /** Exactly when a step forgets a stored address: it is removed by hand; its peer
      is pruned; it was incoming, and Identify does not bring it back; a validation
      dial to it meets the wrong peer, or says it cannot be reached while it is to
      be probed; or it is to be probed and among the failed addresses of a plain
      dial. */
  ghost predicate Forgets(b: Book, s: Step, p: PeerId, a: Multiaddr)
    requires Stored(b, p, a)
  {
    var source := SourceIn(b, p, a);
    match s
    case CallRemoveAddress(peer, addr) => peer == p && Normalize(addr, peer) == a
    case CallPrune(minAge, now, _) => IsPrunable(b.InfoOf(p), minAge, now)
    case GotIdentify(peer, id, _, _) =>
      && peer == p && source == Incoming
      && !(a in IdentifyCandidates(b.cfg, b.InfoOf(p), p, id.listenAddrs) && Pop(a) !in b.listeners)
    case GotDialFailure(blame, own, _, error, _) =>
      && BlamedPeer(blame, own) == Some(p)
      && if own.Some? then
           && own.value.addr == a
           && (error.WrongPeerId? || ((error.Transport? || error.ConnectionIo?) && source.IsToProbe()))
         else error.Transport? && source.IsToProbe() && IsAmongFaults(error.faults, p, a)
    case _ => false
  }

  lemma OneMoreAmongFaults(faults: seq<Fault>, peer: PeerId, a: Multiaddr)
    requires faults != []
    ensures var init, last := faults[..|faults| - 1], faults[|faults| - 1];
            IsAmongFaults(faults, peer, a) <==> IsAmongFaults(init, peer, a) || Normalize(last.addr, peer) == a
  {
    var init := faults[..|faults| - 1];
    if i :| 0 <= i < |init| && Normalize(init[i].addr, peer) == a {
      assert Normalize(faults[i].addr, peer) == a;
    }
    if i :| 0 <= i < |faults| && Normalize(faults[i].addr, peer) == a {
      assert i == |init| || Normalize(init[i].addr, peer) == a;
    }
  }

  lemma {:induction false} PushFaultsForget(info: Info, peer: PeerId, faults: seq<Fault>, now: Time, a: Multiaddr)
    requires a in info.addresses
    ensures var after := PushFaults(info, peer, faults, now).addresses;
            && (a in after <==> !(info.addresses[a].source.IsToProbe() && IsAmongFaults(faults, peer, a)))
            && (a in after ==> after[a] == info.addresses[a])
  {
    if faults != [] {
      PushFaultsForget(info, peer, faults[..|faults| - 1], now, a);
      OneMoreAmongFaults(faults, peer, a);
    }
  }

  lemma FailDialForgets(b: Book, s: Step, p: PeerId, a: Multiaddr)
    requires s.GotDialFailure? && Stored(b, p, a)
    ensures Stored(Next(b, s), p, a) <==> !Forgets(b, s, p, a)
    ensures Stored(Next(b, s), p, a) ==> SourceIn(Next(b, s), p, a) == SourceIn(b, p, a)
  {
    var blamed := BlamedPeer(s.blame, s.own);
    if blamed == Some(p) && s.own.None? && s.error.Transport? {
      PushFaultsForget(b.peers[p], p, s.error.faults, s.now, a);
    }
  }

  lemma SetInfoForgets(b: Book, s: Step, p: PeerId, a: Multiaddr)
    requires s.GotIdentify? && Enabled(b, s) && Stored(b, p, a)
    ensures Stored(Next(b, s), p, a) <==> !Forgets(b, s, p, a)
    ensures Stored(Next(b, s), p, a) ==> SourceIn(b, p, a).Rank() <= SourceIn(Next(b, s), p, a).Rank()
  {
    if s.peer == p {
      IT.SetInfoMeaning(b, p, s.id, s.now, s.order);
      IT.SetInfoRaisesSources(b, p, s.id, s.now, s.order, a);
    }
  }

  lemma AddsForgetNothing(b: Book, s: Step, p: PeerId, a: Multiaddr)
    requires Stored(b, p, a) && (s.CallAddAddress? || s.GotConnection? || s.GotAddressChange?)
    ensures Stored(Next(b, s), p, a) && SourceIn(b, p, a).Rank() <= SourceIn(Next(b, s), p, a).Rank()
  {
    match s
    case CallAddAddress(peer, addr, source, now) => AddAddressOnStored(b, peer, addr, source, now, p, a);
    case GotConnection(peer, cp, other, now) =>
      AddAddressOnStored(b, peer, Normalize(cp.RemoteAddress(), peer), SourceOf(cp), now, p, a);
      ConnectAddsAddress(b, peer, cp, other, now, p);
    case GotAddressChange(peer, before, after, now) =>
      AddAddressOnStored(b, peer, Normalize(after.RemoteAddress(), peer), SourceOf(after), now, p, a);
      ChangeAddsAddress(b, peer, before, after, now, p);
  }

  /** For every source: a step forgets an address if and only if it is one of the
      steps above, and otherwise never lowers its rank. */
  lemma StepForgetsIff(b: Book, s: Step, p: PeerId, a: Multiaddr)
    requires Enabled(b, s) && Stored(b, p, a)
    ensures Stored(Next(b, s), p, a) <==> !Forgets(b, s, p, a)
    ensures Stored(Next(b, s), p, a) ==> SourceIn(b, p, a).Rank() <= SourceIn(Next(b, s), p, a).Rank()
  {
    if s.CallAddAddress? || s.GotConnection? || s.GotAddressChange? {
      AddsForgetNothing(b, s, p, a);
    } else if s.GotDialFailure? {
      FailDialForgets(b, s, p, a);
    } else if s.GotIdentify? {
      SetInfoForgets(b, s, p, a);
    }
  }

  /** Of a firm address only two of these ways are left. */
  lemma FirmForgetting(b: Book, s: Step, p: PeerId, a: Multiaddr)
    requires Stored(b, p, a) && IsFirm(SourceIn(b, p, a))
    ensures Forgets(b, s, p, a) <==> Kills(b, s, p, a)
  {
    if s.CallPrune? {
      assert KeepsPeer(b.peers[p].addresses[a], s.minAge, s.now);
    }
  }

  /** One step loses a firm address if and only if it kills it, and otherwise
      never lowers its rank. */
  lemma StepOnFirm(b: Book, s: Step, p: PeerId, a: Multiaddr)
    requires Enabled(b, s) && Stored(b, p, a) && IsFirm(SourceIn(b, p, a))
    ensures Stored(Next(b, s), p, a) <==> !Kills(b, s, p, a)
    ensures Stored(Next(b, s), p, a) ==> SourceIn(b, p, a).Rank() <= SourceIn(Next(b, s), p, a).Rank()
  {
    StepForgetsIff(b, s, p, a);
    FirmForgetting(b, s, p, a);
  }

  /** In every run, a user-supplied or successfully dialled address stays, and
      never loses rank, for as long as no step kills it. */
  lemma {:induction false} FirmAddressesStay(run: Run, i: nat, j: nat, p: PeerId, a: Multiaddr)
    requires run.Valid() && i <= j < |run.books|
    requires Stored(run.books[i], p, a) && IsFirm(SourceIn(run.books[i], p, a))
    requires forall k :: i <= k < j ==> !Kills(run.books[k], run.steps[k], p, a)
    ensures Stored(run.books[j], p, a)
    ensures SourceIn(run.books[i], p, a).Rank() <= SourceIn(run.books[j], p, a).Rank()
  {
    if i < j {
      FirmAddressesStay(run, i, j - 1, p, a);
      StepOnFirm(run.books[j - 1], run.steps[j - 1], p, a);
    }
  }
}
