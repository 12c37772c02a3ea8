/** What a record says, over whole runs: where its addresses come from, which Identify
    message it shows, and which pings its statistics are made of. */
module RecordTheorems {
  import opened Wrappers
  import opened Orders
  import opened Multiaddrs
  import opened Rtts
  import opened PeerInfos
  import opened Books
  import IT = IdentifyTheorems
  import I = Invariants
  import D = Decisions

  // ---- Where addresses come from --------------------------------------------

  /** The step brings the address in: somebody adds it, a connection has it as its far
      end, or Identify makes it a candidate. */
  ghost predicate Introduces(b: Book, s: Step, p: PeerId, a: Multiaddr) {
    match s
    case CallAddAddress(peer, addr, _, _) => peer == p && Normalize(addr, p) == a && !Refused(b, p, addr)
    case GotConnection(peer, cp, _, _) => peer == p && Normalize(D.FarEnd(cp), p) == a && !Refused(b, p, a)
    case GotAddressChange(peer, _, cp, _) => peer == p && Normalize(D.FarEnd(cp), p) == a && !Refused(b, p, a)
    case GotIdentify(peer, id, _, _) =>
      && peer == p && p in b.peers && Pop(a) !in b.listeners
      && a in IdentifyCandidates(b.cfg, b.peers[p], p, id.listenAddrs)
    case _ => false
  }

  lemma AddAddressIntroduces(b: Book, peer: PeerId, addr: Multiaddr, source: AddressSource, now: Time, p: PeerId,
                             a: Multiaddr)
    ensures Stored(AddAddress(b, peer, addr, source, now), p, a) <==>
            Stored(b, p, a) || (peer == p && Normalize(addr, p) == a && !Refused(b, p, addr))
  {
  }

  lemma AddsIntroduce(b: Book, s: Step, p: PeerId, a: Multiaddr)
    requires s.CallAddAddress? || s.GotConnection? || s.GotAddressChange?
    ensures Stored(Next(b, s), p, a) <==> Stored(b, p, a) || Introduces(b, s, p, a)
  {
    match s
    case CallAddAddress(peer, addr, source, now) => AddAddressIntroduces(b, peer, addr, source, now, p, a);
    case GotConnection(peer, cp, other, now) =>
      I.ConnectAddsAddress(b, peer, cp, other, now, p);
      AddAddressIntroduces(b, peer, Normalize(D.FarEnd(cp), peer), SourceOf(cp), now, p, a);
    case GotAddressChange(peer, before, after, now) =>
      I.ChangeAddsAddress(b, peer, before, after, now, p);
      AddAddressIntroduces(b, peer, Normalize(D.FarEnd(after), peer), SourceOf(after), now, p, a);
  }

  lemma IdentifyIntroduces(b: Book, s: Step, p: PeerId, a: Multiaddr)
    requires s.GotIdentify? && Enabled(b, s) && !Stored(b, p, a)
    ensures Stored(Next(b, s), p, a) <==> Introduces(b, s, p, a)
  {
    if s.peer == p && p in b.peers {
      IT.SetInfoMeaning(b, p, s.id, s.now, s.order);
    }
  }

  lemma FailDialIntroducesNothing(b: Book, s: Step, p: PeerId, a: Multiaddr)
    requires s.GotDialFailure? && !Stored(b, p, a)
    ensures !Stored(Next(b, s), p, a)
  {
    var blamed := BlamedPeer(s.blame, s.own);
    if blamed == Some(p) && p in b.peers && s.own.None? && s.error.Transport? {
      FaultsIntroduceNothing(b.peers[p], p, s.error.faults, s.now, a);
    }
  }

  lemma {:induction false} FaultsIntroduceNothing(info: Info, peer: PeerId, faults: seq<Fault>, now: Time, a: Multiaddr)
    requires a !in info.addresses
    ensures a !in PushFaults(info, peer, faults, now).addresses
  {
    if faults != [] {
      FaultsIntroduceNothing(info, peer, faults[..|faults| - 1], now, a);
    }
  }

  lemma StepIntroducesIff(b: Book, s: Step, p: PeerId, a: Multiaddr)
    requires Enabled(b, s) && !Stored(b, p, a)
    ensures Stored(Next(b, s), p, a) <==> Introduces(b, s, p, a)
  {
    if s.CallAddAddress? || s.GotConnection? || s.GotAddressChange? {
      AddsIntroduce(b, s, p, a);
    } else if s.GotIdentify? {
      IdentifyIntroduces(b, s, p, a);
    } else if s.GotDialFailure? {
      FailDialIntroducesNothing(b, s, p, a);
    }
  }

  ghost predicate IntroducedAt(run: Run, k: nat, p: PeerId, a: Multiaddr)
    requires run.Valid()
  {
    k < |run.steps| && Introduces(run.books[k], run.steps[k], p, a)
  }

  lemma RunIntroduces(run: Run, n: nat, p: PeerId, a: Multiaddr)
    requires run.Valid() && n < |run.steps| && !Stored(run.books[n], p, a) && Stored(run.books[n + 1], p, a)
    ensures IntroducedAt(run, n, p, a)
  {
    StepIntroducesIff(run.books[n], run.steps[n], p, a);
  }

  /** In every run a stored address has been there without interruption since a step
      that brought it in. */
  lemma {:induction false} StoredAddressesWereIntroduced(run: Run, cfg: Config, n: nat, p: PeerId,
                                                         a: Multiaddr) returns (k: nat)
    requires run.Valid() && run.books[0] == EmptyBook(cfg) && n < |run.books| && Stored(run.books[n], p, a)
    ensures k < n && IntroducedAt(run, k, p, a)
    ensures !Stored(run.books[k], p, a) && forall i :: k < i <= n ==> Stored(run.books[i], p, a)
  {
    if Stored(run.books[n - 1], p, a) {
      k := StoredAddressesWereIntroduced(run, cfg, n - 1, p, a);
    } else {
      RunIntroduces(run, n - 1, p, a);
      k := n - 1;
    }
  }

  // ---- Identify messages and pings ------------------------------------------

  /** The part of a record that is not about addresses, connections or failures. */
  datatype Profile = Profile(
    protocolVersion: Option<string>,
    agentVersion: Option<string>,
    protocols: seq<string>,
    listeners: seq<Multiaddr>,
    rtt: Option<Rtt>)

  function ProfileOf(info: Info): Profile {
    Profile(info.protocolVersion, info.agentVersion, info.protocols, info.listeners, info.rtt)
  }

  /** The profile after a step: an Identify message replaces all but the statistics, a
      ping enters those, and nothing else has an effect. */
  function ProfileAfter(b: Book, s: Step, p: PeerId): Profile {
    var before := ProfileOf(b.InfoOf(p));
    if p in b.peers && s.GotIdentify? && s.peer == p then
      Profile(Some(s.id.protocolVersion), Some(s.id.agentVersion), s.id.protocols, s.id.listenAddrs, before.rtt)
    else if p in b.peers && s.Pinged? && s.peer == p then
      before.(rtt := SetRtt(before.rtt, s.ping))
    else before
  }

  lemma {:induction false} CandidatesKeepProfile(info: Info, order: seq<Multiaddr>, portReuse: bool,
                                                 ours: set<Multiaddr>, now: Time)
    ensures ProfileOf(IngestCandidates(info, order, portReuse, ours, now)) == ProfileOf(info)
  {
    if order != [] {
      CandidatesKeepProfile(info, order[..|order| - 1], portReuse, ours, now);
    }
  }

  lemma {:induction false} FaultsKeepProfile(info: Info, peer: PeerId, faults: seq<Fault>, now: Time)
    ensures ProfileOf(PushFaults(info, peer, faults, now)) == ProfileOf(info)
  {
    if faults != [] {
      FaultsKeepProfile(info, peer, faults[..|faults| - 1], now);
    }
  }

  lemma AddAddressKeepsProfile(b: Book, peer: PeerId, addr: Multiaddr, source: AddressSource, now: Time, p: PeerId)
    ensures ProfileOf(AddAddress(b, peer, addr, source, now).InfoOf(p)) == ProfileOf(b.InfoOf(p))
  {
  }

  lemma ConnectionsKeepProfile(b: Book, s: Step, p: PeerId)
    requires s.GotConnection? || s.GotAddressChange? || s.GotClose?
    ensures ProfileOf(Next(b, s).InfoOf(p)) == ProfileOf(b.InfoOf(p))
  {
    match s
    case GotConnection(peer, cp, _, now) =>
      AddAddressKeepsProfile(b, peer, Normalize(cp.RemoteAddress(), peer), SourceOf(cp), now, p);
    case GotAddressChange(peer, _, after, now) =>
      AddAddressKeepsProfile(b, peer, Normalize(after.RemoteAddress(), peer), SourceOf(after), now, p);
    case GotClose(_, _, _, _, _) =>
  }

  lemma FailDialKeepsProfile(b: Book, s: Step, p: PeerId)
    requires s.GotDialFailure?
    ensures ProfileOf(Next(b, s).InfoOf(p)) == ProfileOf(b.InfoOf(p))
  {
    if BlamedPeer(s.blame, s.own) == Some(p) && p in b.peers && s.own.None? && s.error.Transport? {
      FaultsKeepProfile(b.peers[p], p, s.error.faults, s.now);
    }
  }

  lemma IdentifySetsProfile(b: Book, s: Step, p: PeerId)
    requires s.GotIdentify? && Enabled(b, s)
    ensures ProfileOf(Next(b, s).InfoOf(p)) == ProfileAfter(b, s, p)
  {
    if s.peer in b.peers {
      CandidatesKeepProfile(Identified(b.peers[s.peer], s.id), s.order, b.cfg.portReuse, b.listeners, s.now);
    }
  }

  /** Every step changes a profile as stated above, as long as the peer is kept. */
  lemma StepOnProfile(b: Book, s: Step, p: PeerId)
    requires Enabled(b, s) && p in Next(b, s).peers
    ensures ProfileOf(Next(b, s).peers[p]) == ProfileAfter(b, s, p)
  {
    if s.GotConnection? || s.GotAddressChange? || s.GotClose? {
      ConnectionsKeepProfile(b, s, p);
    } else if s.GotDialFailure? {
      FailDialKeepsProfile(b, s, p);
    } else if s.GotIdentify? {
      IdentifySetsProfile(b, s, p);
    } else if s.CallAddAddress? {
      AddAddressKeepsProfile(b, s.peer, s.addr, s.source, s.now, p);
    }
  }

  /** The pings that count for a peer: those since its record was created. */
  function PingsUpTo(run: Run, n: nat, p: PeerId): seq<Option<Duration>>
    requires run.Valid() && n < |run.books|
  {
    if n == 0 || p !in run.books[n].peers then []
    else
      var s := run.steps[n - 1];
      PingsUpTo(run, n - 1, p) + if p in run.books[n - 1].peers && s.Pinged? && s.peer == p then [s.ping] else []
  }

  /** The Identify message that counts: the last one since the record was created. */
  function IdentifyUpTo(run: Run, n: nat, p: PeerId): Option<Identify>
    requires run.Valid() && n < |run.books|
  {
    if n == 0 || p !in run.books[n].peers then None
    else
      var s := run.steps[n - 1];
      if p in run.books[n - 1].peers && s.GotIdentify? && s.peer == p then Some(s.id) else IdentifyUpTo(run, n - 1, p)
  }

  /** What the messages so far make of a profile. */
  function ProfileFrom(id: Option<Identify>, pings: seq<Option<Duration>>): Profile {
    match id
    case None => Profile(None, None, [], [], Feed(pings))
    case Some(m) => Profile(Some(m.protocolVersion), Some(m.agentVersion), m.protocols, m.listenAddrs, Feed(pings))
  }

  lemma RunStepOnProfile(run: Run, n: nat, p: PeerId)
    requires run.Valid() && 0 < n < |run.books| && p in run.books[n].peers
    ensures ProfileOf(run.books[n].peers[p]) == ProfileAfter(run.books[n - 1], run.steps[n - 1], p)
  {
    StepOnProfile(run.books[n - 1], run.steps[n - 1], p);
  }

  lemma OneMorePing(pings: seq<Option<Duration>>, ping: Option<Duration>)
    ensures Feed(pings + [ping]) == SetRtt(Feed(pings), ping)
  {
    assert (pings + [ping])[..|pings|] == pings;
  }

  /** In every run a peer's record shows the last Identify message since it was created,
      and its statistics are those of exactly the pings since then. */
  lemma {:induction false} ProfilesAreUpToDate(run: Run, cfg: Config, n: nat, p: PeerId)
    requires run.Valid() && run.books[0] == EmptyBook(cfg) && n < |run.books|
    ensures ProfileOf(run.books[n].InfoOf(p)) == ProfileFrom(IdentifyUpTo(run, n, p), PingsUpTo(run, n, p))
  {
    if n != 0 && p in run.books[n].peers {
      ProfilesAreUpToDate(run, cfg, n - 1, p);
      RunStepOnProfile(run, n, p);
      var s, pings := run.steps[n - 1], PingsUpTo(run, n - 1, p);
      assert pings + [] == pings;
      if s.Pinged? {
        OneMorePing(pings, s.ping);
      }
    }
  }

  // ---- Our own listeners ----------------------------------------------------

  predicate Announces(s: Step, a: Multiaddr) {
    s.GotListenAddr? && s.listen == a
  }

  predicate Expires(s: Step, a: Multiaddr) {
    s.LostListenAddr? && s.listen == a
  }

  lemma StepOnListeners(b: Book, s: Step, a: Multiaddr)
    requires Enabled(b, s)
    ensures a in Next(b, s).listeners <==> Announces(s, a) || (a in b.listeners && !Expires(s, a))
  {
    if s.CallAddAddress? || s.GotConnection? || s.GotAddressChange? || s.GotDialFailure? {
      HandlersKeepListeners(b, s);
    }
  }

  lemma HandlersKeepListeners(b: Book, s: Step)
    requires s.CallAddAddress? || s.GotConnection? || s.GotAddressChange? || s.GotDialFailure?
    ensures Next(b, s).listeners == b.listeners
  {
  }

  /** Announced at step `k` and not expired before step `n`. */
  predicate StandsSince(run: Run, k: nat, n: nat, a: Multiaddr)
    requires n <= |run.steps|
  {
    k < n && Announces(run.steps[k], a) && forall j :: k < j < n ==> !Expires(run.steps[j], a)
  }

  /** In every run our listeners are the addresses announced and not expired since. */
  lemma {:induction false} ListenersAreAnnounced(run: Run, cfg: Config, n: nat, a: Multiaddr)
    requires run.Valid() && run.books[0] == EmptyBook(cfg) && n < |run.books|
    ensures a in run.books[n].listeners <==> exists k :: StandsSince(run, k, n, a)
  {
    if n != 0 {
      ListenersAreAnnounced(run, cfg, n - 1, a);
      StepOnListeners(run.books[n - 1], run.steps[n - 1], a);
      var m := n - 1;
      if k :| StandsSince(run, k, m, a) && !Expires(run.steps[m], a) {
        assert StandsSince(run, k, n, a);
      }
      if Announces(run.steps[n - 1], a) {
        assert StandsSince(run, n - 1, n, a);
      }
      if k :| StandsSince(run, k, n, a) && k != n - 1 {
        assert StandsSince(run, k, n - 1, a) && !Expires(run.steps[n - 1], a);
      }
    }
  }
}
