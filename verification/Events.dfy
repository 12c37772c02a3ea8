/** Which events a step sends. Subscribers never lose an event that was sent, and every
    event says something that has just happened. */
module EventTheorems {
  import opened Wrappers
  import opened Orders
  import opened Multiaddrs
  import opened PeerInfos
  import opened Books
  import D = Decisions
  import I = Invariants

  /** The events that a step sends. */
  function Sent(b: Book, s: Step): seq<Event>
    requires Enabled(b, s)
  {
    var b' := Next(b, s);
    if |b.events| <= |b'.events| then b'.events[|b.events|..] else []
  }

  // ---- The handlers ---------------------------------------------------------

  function AddAddressSends(b: Book, peer: PeerId, addr: Multiaddr, source: AddressSource): seq<Event> {
    if Refused(b, peer, addr) then []
    else if !b.InfoOf(peer).HasConfirmed() && source in {Candidate, User, Dial} then [Discovered(peer), NewInfo(peer)]
    else [NewInfo(peer)]
  }

  lemma AddAddressEvents(b: Book, peer: PeerId, addr: Multiaddr, source: AddressSource, now: Time)
    ensures AddAddress(b, peer, addr, source, now).events == b.events + AddAddressSends(b, peer, addr, source)
  {
  }

  lemma ConnectEvents(b: Book, peer: PeerId, cp: ConnectedPoint, other: nat, now: Time)
    ensures Connect(b, peer, cp, other, now).events ==
            b.events + AddAddressSends(b, peer, Normalize(D.FarEnd(cp), peer), if cp.Dialer? then Dial else Incoming)
            + (if other == 0 then [Connected(peer)] else [])
            + [ConnectionEstablished(peer, NormalizePoint(cp, b.cfg.local, peer))]
  {
    var source := if cp.Dialer? then Dial else Incoming;
    AddAddressEvents(b, peer, Normalize(D.FarEnd(cp), peer), source, now);
    var sent := b.events + AddAddressSends(b, peer, Normalize(D.FarEnd(cp), peer), source);
    assert sent + [] == sent;
  }

  lemma ChangeEvents(b: Book, peer: PeerId, before: ConnectedPoint, after: ConnectedPoint, now: Time)
    ensures ChangeAddress(b, peer, before, after, now).events ==
            b.events
            + AddAddressSends(b, peer, Normalize(D.FarEnd(after), peer), if after.Dialer? then Dial else Incoming)
            + [AddressChanged(peer, NormalizePoint(before, b.cfg.local, peer),
                              NormalizePoint(after, b.cfg.local, peer))]
  {
    AddAddressEvents(b, peer, Normalize(D.FarEnd(after), peer), if after.Dialer? then Dial else Incoming, now);
  }

  lemma DisconnectEvents(b: Book, peer: PeerId, cp: ConnectedPoint, left: nat, reason: CloseReason, now: Time)
    ensures Disconnect(b, peer, cp, left, reason, now).events ==
            b.events + ([ConnectionClosed(peer, NormalizePoint(cp, b.cfg.local, peer))]
                        + (if left == 0 then [Disconnected(peer)] else []) + [NewInfo(peer)])
  {
    var closed := ConnectionClosed(peer, NormalizePoint(cp, b.cfg.local, peer));
    assert [closed] + [] == [closed];
  }

  /** Plain dials that fail for good make a peer unreachable: all of its addresses failed
      and none for a simultaneous open, or the dial failed as a whole for a reason that
      is not ours. */
  predicate MakesUnreachable(error: DialFault) {
    if error.Transport? then !D.HasSimOpen(error)
    else error.WrongPeerId? || error.ConnectionIo? || error.OtherFault?
  }

  function FailDialSends(b: Book, s: Step, p: PeerId): seq<Event>
    requires s.GotDialFailure?
  {
    var unreachable := if MakesUnreachable(s.error) then [Unreachable(p)] else [];
    if s.own.Some? then [DialFailure(p, s.own.value.addr), NewInfo(p)]
    else if s.error.Transport? then FaultEvents(p, s.error.faults) + unreachable + [NewInfo(p)]
    else unreachable
  }

  lemma {:induction false} NoRedialsIff(peer: PeerId, faults: seq<Fault>, keepAlive: bool)
    ensures FaultRedials(peer, faults, keepAlive) == [] <==> !D.HasSimOpen(Transport(faults))
  {
    if faults != [] {
      var init := faults[..|faults| - 1];
      NoRedialsIff(peer, init, keepAlive);
      OneMoreSimOpen(faults);
    }
  }

  lemma OneMoreSimOpen(faults: seq<Fault>)
    requires faults != []
    ensures D.HasSimOpen(Transport(faults)) <==>
            D.HasSimOpen(Transport(faults[..|faults| - 1])) || faults[|faults| - 1].simOpen
  {
    var all, init := Transport(faults), Transport(faults[..|faults| - 1]);
    if D.HasSimOpen(init) {
      var i :| 0 <= i < |init.faults| && init.faults[i].simOpen;
      assert all.faults[i].simOpen;
    }
    if faults[|faults| - 1].simOpen {
      assert all.faults[|faults| - 1].simOpen;
    }
  }

  lemma FailDialEvents(b: Book, s: Step)
    requires s.GotDialFailure?
    ensures var blamed := BlamedPeer(s.blame, s.own);
            Next(b, s).events ==
            b.events + if blamed.Some? && blamed.value in b.peers then FailDialSends(b, s, blamed.value) else []
  {
    var blamed := BlamedPeer(s.blame, s.own);
    if blamed.Some? && blamed.value in b.peers {
      var p := blamed.value;
      if s.own.Some? {
        assert b.events + [DialFailure(p, s.own.value.addr)] + [NewInfo(p)]
            == b.events + [DialFailure(p, s.own.value.addr), NewInfo(p)];
      } else if s.error.Transport? {
        PlainEvents(b, p, s.error.faults, s.now);
      }
    }
  }

  lemma PlainEvents(b: Book, p: PeerId, faults: seq<Fault>, now: Time)
    requires p in b.peers
    ensures FailPlain(b, p, faults, now).events ==
            b.events + (FaultEvents(p, faults)
                        + (if D.HasSimOpen(Transport(faults)) then [] else [Unreachable(p)]) + [NewInfo(p)])
  {
    NoRedialsIff(p, faults, b.cfg.keepAlive);
    var es := FaultEvents(p, faults);
    assert es + [] == es;
    assert b.events + es + [Unreachable(p)] + [NewInfo(p)] == b.events + (es + [Unreachable(p)] + [NewInfo(p)]);
    assert b.events + es + [NewInfo(p)] == b.events + (es + [NewInfo(p)]);
  }

  // ---- All steps ------------------------------------------------------------

  /** What each step sends, in order. */
  function Expected(b: Book, s: Step): seq<Event>
    requires Enabled(b, s)
  {
    match s
    case CallAddAddress(peer, addr, source, _) => AddAddressSends(b, peer, addr, source)
    case CallPrune(_, _, pruned) => NewInfos(pruned)
    case Pinged(peer, _) => if peer in b.peers then [NewInfo(peer)] else []
    case GotIdentify(peer, _, _, _) => if peer in b.peers then [NewInfo(peer)] else []
    case GotConnection(peer, cp, other, _) =>
      AddAddressSends(b, peer, Normalize(D.FarEnd(cp), peer), if cp.Dialer? then Dial else Incoming)
      + (if other == 0 then [Connected(peer)] else [])
      + [ConnectionEstablished(peer, NormalizePoint(cp, b.cfg.local, peer))]
    case GotAddressChange(peer, before, after, _) =>
      AddAddressSends(b, peer, Normalize(D.FarEnd(after), peer), if after.Dialer? then Dial else Incoming)
      + [AddressChanged(peer, NormalizePoint(before, b.cfg.local, peer), NormalizePoint(after, b.cfg.local, peer))]
    case GotClose(peer, cp, left, _, _) =>
      [ConnectionClosed(peer, NormalizePoint(cp, b.cfg.local, peer))]
      + (if left == 0 then [Disconnected(peer)] else []) + [NewInfo(peer)]
    case GotDialFailure(blame, own, _, _, _) =>
      var blamed := BlamedPeer(blame, own);
      if blamed.Some? && blamed.value in b.peers then FailDialSends(b, s, blamed.value) else []
    case GotListenAddr(id, listen) => [NewListenAddr(id, listen)]
    case LostListenAddr(id, listen) => [ExpiredListenAddr(id, listen)]
    case Notice(event) => [event]
    case _ => []
  }

  lemma ConnectStep(b: Book, s: Step)
    requires s.GotConnection?
    ensures Next(b, s).events == b.events + Expected(b, s)
  {
    ConnectEvents(b, s.peer, s.cp, s.other, s.now);
  }

  lemma ChangeStep(b: Book, s: Step)
    requires s.GotAddressChange?
    ensures Next(b, s).events == b.events + Expected(b, s)
  {
    ChangeEvents(b, s.peer, s.before, s.after, s.now);
  }

  lemma CloseStep(b: Book, s: Step)
    requires s.GotClose?
    ensures Next(b, s).events == b.events + Expected(b, s)
  {
    DisconnectEvents(b, s.peer, s.cp, s.left, s.reason, s.now);
  }

  lemma StepSends(b: Book, s: Step)
    requires Enabled(b, s)
    ensures Next(b, s).events == b.events + Expected(b, s)
  {
    if s.GotConnection? {
      ConnectStep(b, s);
    } else if s.GotAddressChange? {
      ChangeStep(b, s);
    } else if s.GotClose? {
      CloseStep(b, s);
    } else if s.GotDialFailure? {
      FailDialEvents(b, s);
    } else if s.CallAddAddress? {
      AddAddressEvents(b, s.peer, s.addr, s.source, s.now);
    }
  }

  lemma SentIsExpected(b: Book, s: Step)
    requires Enabled(b, s)
    ensures Sent(b, s) == Expected(b, s) && b.events <= Next(b, s).events
  {
    StepSends(b, s);
  }

  // ---- What the events mean -------------------------------------------------

  /** The peer has an address that the swarm is offered. */
  ghost predicate IsConfirmedPeer(b: Book, p: PeerId) {
    exists a :: Stored(b, p, a) && SourceIn(b, p, a) in {Candidate, User, Dial}
  }

  lemma IngestConfirms(info: Info, a: Multiaddr, source: AddressSource, now: Time)
    ensures info.Ingest(a, source, now).addresses[a].source in {Candidate, User, Dial} <==>
            || source in {Candidate, User, Dial}
            || (a in info.addresses && info.addresses[a].source in {Candidate, User, Dial})
  {
    SourceOrder(source, info.Ingest(a, source, now).addresses[a].source);
    if a in info.addresses {
      SourceOrder(info.addresses[a].source, source);
    }
  }

  lemma AddAddressConfirms(b: Book, peer: PeerId, addr: Multiaddr, source: AddressSource, now: Time)
    ensures var b' := AddAddress(b, peer, addr, source, now);
            IsConfirmedPeer(b', peer) <==>
            IsConfirmedPeer(b, peer) || (!Refused(b, peer, addr) && source in {Candidate, User, Dial})
  {
    if !Refused(b, peer, addr) {
      var b', a := AddAddress(b, peer, addr, source, now), Normalize(addr, peer);
      assert AddressesOf(b', peer) == b.InfoOf(peer).Ingest(a, source, now).addresses;
      IngestConfirms(b.InfoOf(peer), a, source, now);
      assert Stored(b', peer, a);
      if x :| Stored(b, peer, x) && SourceIn(b, peer, x) in {Candidate, User, Dial} {
        assert Stored(b', peer, x) && SourceIn(b', peer, x) in {Candidate, User, Dial};
      }
      if x :| Stored(b', peer, x) && SourceIn(b', peer, x) in {Candidate, User, Dial} {
        assert x != a ==> Stored(b, peer, x) && SourceIn(b, peer, x) == SourceIn(b', peer, x);
        assert x == a && Stored(b, peer, a) && source !in {Candidate, User, Dial} ==>
            SourceIn(b, peer, a) in {Candidate, User, Dial};
      }
    }
  }

  lemma HasConfirmedIff(b: Book, p: PeerId)
    ensures b.InfoOf(p).HasConfirmed() <==> IsConfirmedPeer(b, p)
  {
    var info := b.InfoOf(p);
    if a :| a in info.addresses && info.addresses[a].source.IsConfirmed() {
      assert Stored(b, p, a) && SourceIn(b, p, a) in {Candidate, User, Dial};
    }
    if a :| Stored(b, p, a) && SourceIn(b, p, a) in {Candidate, User, Dial} {
      assert info.addresses[a].source.IsConfirmed();
    }
  }

  lemma DiscoveredByAdding(b: Book, peer: PeerId, addr: Multiaddr, source: AddressSource, now: Time, p: PeerId)
    ensures Discovered(p) in AddAddressSends(b, peer, addr, source) <==>
            p == peer && !IsConfirmedPeer(b, p) && IsConfirmedPeer(AddAddress(b, peer, addr, source, now), p)
  {
    AddAddressConfirms(b, peer, addr, source, now);
    HasConfirmedIff(b, peer);
  }

  lemma AmongThree(xs: seq<Event>, ys: seq<Event>, zs: seq<Event>, e: Event)
    ensures e in xs + ys + zs <==> e in xs || e in ys || e in zs
  {
  }

  predicate AddsAddress(s: Step) {
    s.CallAddAddress? || s.GotConnection? || s.GotAddressChange?
  }

  lemma DiscoveredAmong(b: Book, s: Step, p: PeerId)
    requires AddsAddress(s)
    ensures Discovered(p) in Expected(b, s) <==>
            match s
            case CallAddAddress(peer, addr, source, _) => Discovered(p) in AddAddressSends(b, peer, addr, source)
            case GotConnection(peer, cp, _, _) =>
              var source := if cp.Dialer? then Dial else Incoming;
              Discovered(p) in AddAddressSends(b, peer, Normalize(D.FarEnd(cp), peer), source)
            case GotAddressChange(peer, _, cp, _) =>
              var source := if cp.Dialer? then Dial else Incoming;
              Discovered(p) in AddAddressSends(b, peer, Normalize(D.FarEnd(cp), peer), source)
  {
  }

  lemma ConfirmedAfterConnect(b: Book, s: Step, p: PeerId)
    requires s.GotConnection? || s.GotAddressChange?
    ensures var cp := if s.GotConnection? then s.cp else s.after;
            var source := if cp.Dialer? then Dial else Incoming;
            var b1 := AddAddress(b, s.peer, Normalize(D.FarEnd(cp), s.peer), source, s.now);
            IsConfirmedPeer(Next(b, s), p) <==> IsConfirmedPeer(b1, p)
  {
    var cp := if s.GotConnection? then s.cp else s.after;
    var b1 := AddAddress(b, s.peer, Normalize(D.FarEnd(cp), s.peer), if cp.Dialer? then Dial else Incoming, s.now);
    match s {
      case GotConnection(peer, _, other, now) => I.ConnectAddsAddress(b, peer, cp, other, now, p);
      case GotAddressChange(peer, before, _, now) => I.ChangeAddsAddress(b, peer, before, cp, now, p);
    }
    SameAddresses(b1, Next(b, s), p);
  }

  lemma SameAddresses(b: Book, b': Book, p: PeerId)
    requires AddressesOf(b, p) == AddressesOf(b', p)
    ensures IsConfirmedPeer(b, p) <==> IsConfirmedPeer(b', p)
  {
    if a :| Stored(b, p, a) && SourceIn(b, p, a) in {Candidate, User, Dial} {
      assert Stored(b', p, a) && SourceIn(b', p, a) in {Candidate, User, Dial};
    }
    if a :| Stored(b', p, a) && SourceIn(b', p, a) in {Candidate, User, Dial} {
      assert Stored(b, p, a) && SourceIn(b, p, a) in {Candidate, User, Dial};
    }
  }

  lemma OthersDiscoverNothing(b: Book, s: Step, p: PeerId)
    requires Enabled(b, s) && !AddsAddress(s)
    ensures Discovered(p) !in Expected(b, s)
  {
  }

  /** A peer is reported as discovered exactly when an added address or a connection gives
      it its first confirmed address. */
  lemma DiscoveredIff(b: Book, s: Step, p: PeerId)
    requires Enabled(b, s)
    ensures Discovered(p) in Sent(b, s) <==>
            AddsAddress(s) && s.peer == p && !IsConfirmedPeer(b, p) && IsConfirmedPeer(Next(b, s), p)
  {
    SentIsExpected(b, s);
    if !AddsAddress(s) {
      OthersDiscoverNothing(b, s, p);
    } else {
      DiscoveredAmong(b, s, p);
      if s.CallAddAddress? {
        DiscoveredByAdding(b, s.peer, s.addr, s.source, s.now, p);
      } else {
        var cp := if s.GotConnection? then s.cp else s.after;
        ConfirmedAfterConnect(b, s, p);
        DiscoveredByAdding(b, s.peer, Normalize(D.FarEnd(cp), s.peer), if cp.Dialer? then Dial else Incoming, s.now, p);
      }
    }
  }

  lemma ConnectionsReachEverybody(b: Book, s: Step, p: PeerId)
    requires s.GotConnection? || s.GotClose?
    ensures Unreachable(p) !in Expected(b, s)
  {
    match s
    case GotConnection(peer, cp, other, _) =>
      var sent := AddAddressSends(b, peer, Normalize(D.FarEnd(cp), peer), if cp.Dialer? then Dial else Incoming);
      AmongThree(sent, if other == 0 then [Connected(peer)] else [],
                 [ConnectionEstablished(peer, NormalizePoint(cp, b.cfg.local, peer))], Unreachable(p));
    case GotClose(peer, cp, left, _, _) =>
      AmongThree([ConnectionClosed(peer, NormalizePoint(cp, b.cfg.local, peer))],
                 if left == 0 then [Disconnected(peer)] else [], [NewInfo(peer)], Unreachable(p));
  }

  lemma OthersReachEverybody(b: Book, s: Step, p: PeerId)
    requires Enabled(b, s) && !s.GotDialFailure?
    ensures Unreachable(p) !in Expected(b, s)
  {
    if s.GotConnection? || s.GotClose? {
      ConnectionsReachEverybody(b, s, p);
    }
  }

  lemma UnreachableAmong(b: Book, s: Step, q: PeerId, p: PeerId)
    requires s.GotDialFailure?
    ensures Unreachable(p) in FailDialSends(b, s, q) <==> p == q && s.own.None? && MakesUnreachable(s.error)
  {
    if s.own.None? && s.error.Transport? {
      var es, last := FaultEvents(q, s.error.faults), if MakesUnreachable(s.error) then [Unreachable(q)] else [];
      assert Unreachable(p) in es + last + [NewInfo(q)] <==> Unreachable(p) in last;
    }
  }

  /** A peer is reported as unreachable exactly when a plain dial of a known peer fails
      for good. */
  lemma UnreachableIff(b: Book, s: Step, p: PeerId)
    requires Enabled(b, s)
    ensures Unreachable(p) in Sent(b, s) <==>
            s.GotDialFailure? && s.own.None? && s.blame == Some(p) && p in b.peers && MakesUnreachable(s.error)
  {
    SentIsExpected(b, s);
    if s.GotDialFailure? {
      var blamed := BlamedPeer(s.blame, s.own);
      if blamed.Some? {
        UnreachableAmong(b, s, blamed.value, p);
      }
    } else {
      OthersReachEverybody(b, s, p);
    }
  }

  predicate IsConnectionEvent(e: Event) {
    e.ConnectionEstablished? || e.ConnectionClosed? || e.AddressChanged?
  }

  lemma OthersReportNoConnections(b: Book, s: Step, e: Event)
    requires Enabled(b, s) && !s.GotConnection? && !s.GotAddressChange? && !s.GotClose? && IsConnectionEvent(e)
    ensures e !in Expected(b, s)
  {
    if s.GotDialFailure? && s.own.None? && s.error.Transport? && s.blame.Some? {
      assert e !in FailDialSends(b, s, s.blame.value);
    }
  }

  /** The report about a connection that a step calls for. */
  function ReportOf(b: Book, s: Step): Event
    requires s.GotConnection? || s.GotAddressChange? || s.GotClose?
  {
    match s
    case GotConnection(p, cp, _, _) => ConnectionEstablished(p, NormalizePoint(cp, b.cfg.local, p))
    case GotAddressChange(p, before, after, _) =>
      AddressChanged(p, NormalizePoint(before, b.cfg.local, p), NormalizePoint(after, b.cfg.local, p))
    case GotClose(p, cp, _, _, _) => ConnectionClosed(p, NormalizePoint(cp, b.cfg.local, p))
  }

  lemma AddingReportsNoConnection(b: Book, peer: PeerId, addr: Multiaddr, source: AddressSource, e: Event)
    requires IsConnectionEvent(e)
    ensures e !in AddAddressSends(b, peer, addr, source)
  {
  }

  lemma ConnectionReports(b: Book, s: Step, e: Event)
    requires (s.GotConnection? || s.GotAddressChange? || s.GotClose?) && IsConnectionEvent(e)
    ensures e in Expected(b, s) <==> e == ReportOf(b, s)
  {
    match s
    case GotConnection(peer, cp, other, _) =>
      var addr, source := Normalize(D.FarEnd(cp), peer), if cp.Dialer? then Dial else Incoming;
      AddingReportsNoConnection(b, peer, addr, source, e);
      var link := if other == 0 then [Connected(peer)] else [];
      AmongThree(AddAddressSends(b, peer, addr, source), link, [ReportOf(b, s)], e);
    case GotAddressChange(peer, _, cp, _) =>
      AddingReportsNoConnection(b, peer, Normalize(D.FarEnd(cp), peer), if cp.Dialer? then Dial else Incoming, e);
    case GotClose(peer, _, left, _, _) =>
      AmongThree([ReportOf(b, s)], if left == 0 then [Disconnected(peer)] else [], [NewInfo(peer)], e);
  }

  /** Connections are reported when they are opened, moved and closed, with both ends
      normalized, and at no other time. */
  lemma ConnectionEventsIff(b: Book, s: Step, e: Event)
    requires Enabled(b, s) && IsConnectionEvent(e)
    ensures e in Sent(b, s) <==> (s.GotConnection? || s.GotAddressChange? || s.GotClose?) && e == ReportOf(b, s)
  {
    SentIsExpected(b, s);
    if s.GotConnection? || s.GotAddressChange? || s.GotClose? {
      ConnectionReports(b, s, e);
    } else {
      OthersReportNoConnections(b, s, e);
    }
  }
}
