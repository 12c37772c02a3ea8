/** The address book together with the swarm that drives it. The swarm is honest:
    it reports the dials it was given and the connections it holds, with the
    right counts. The protocols beside the book may dial as well, at any time.
    Everything else about it is arbitrary. */
module Swarms {
  import opened Wrappers
  import opened Multiaddrs
  import opened PeerInfos
  import opened Books

  datatype Swarm = Swarm(book: Book, inflight: seq<DialAction>, open: map<PeerId, seq<ConnectedPoint>>)
  {
    function OpenOf(peer: PeerId): seq<ConnectedPoint> {
      if peer in open then open[peer] else []
    }

    /** Every dial that has been requested and not yet been decided. */
    function Outstanding(): seq<DialAction> {
      book.actions + book.deferred + inflight
    }
  }

  function EmptySwarm(cfg: Config): Swarm {
    Swarm(EmptyBook(cfg), [], map[])
  }

  datatype SwarmStep =
    | Local(step: Step)
    | TakeDial(k: nat)
    | ForeignDial(dial: DialAction)
    | DialFails(i: nat, error: DialFault, now: Time)
    | Opens(peer: PeerId, cp: ConnectedPoint, now: Time, via: Option<nat>)
    | Moves(peer: PeerId, i: nat, cp: ConnectedPoint, now: Time)
    | Closes(peer: PeerId, i: nat, reason: CloseReason, now: Time)

  /** Steps that are not reports of the swarm about dials and connections. */
  predicate IsLocal(s: Step) {
    !s.GotConnection? && !s.GotAddressChange? && !s.GotClose? && !s.GotDialFailure? && !s.Poll?
  }

  /** A foreign dial is one that Kademlia, bitswap or gossipsub asks for: the book
      only contributes a fresh handler, with no address under test. */
  predicate CanStep(w: Swarm, s: SwarmStep) {
    match s
    case Local(step) => IsLocal(step) && Enabled(w.book, step)
    case TakeDial(k) => CanPoll(w.book, k)
    case ForeignDial(d) => d.own.None? && d.keepAlive == w.book.cfg.keepAlive
    case DialFails(i, _, _) => i < |w.inflight|
    case Opens(_, _, _, via) => via.Some? ==> via.value < |w.inflight|
    case Moves(peer, i, _, _) => i < |w.OpenOf(peer)|
    case Closes(peer, i, _, _) => i < |w.OpenOf(peer)|
  }

  /** What the book sees of a swarm step; it does not see that others dial. */
  function Report(w: Swarm, s: SwarmStep): Step
    requires CanStep(w, s) && !s.ForeignDial?
  {
    match s
    case Local(step) => step
    case TakeDial(k) => Poll(k)
    case DialFails(i, error, now) =>
      var d := w.inflight[i];
      GotDialFailure(Some(d.peer), d.own, d.keepAlive, error, now)
    case Opens(peer, cp, now, _) => GotConnection(peer, cp, |w.OpenOf(peer)|, now)
    case Moves(peer, i, cp, now) => GotAddressChange(peer, w.OpenOf(peer)[i], cp, now)
    case Closes(peer, i, reason, now) => GotClose(peer, w.OpenOf(peer)[i], |w.OpenOf(peer)| - 1, reason, now)
  }

  function Drop<T>(xs: seq<T>, i: nat): (r: seq<T>)
    requires i < |xs|
    ensures |r| == |xs| - 1
  {
    xs[..i] + xs[i + 1..]
  }

  function Advance(w: Swarm, s: SwarmStep): Swarm
    requires CanStep(w, s)
  {
    match s
    case Local(step) => w.(book := Next(w.book, step))
    case TakeDial(k) => w.(book := PollRest(w.book, k), inflight := w.inflight + [PollDial(w.book, k)])
    case ForeignDial(d) => w.(inflight := w.inflight + [d])
    case DialFails(i, error, now) =>
      var d := w.inflight[i];
      w.(book := FailDial(w.book, Some(d.peer), d.own, d.keepAlive, error, now), inflight := Drop(w.inflight, i))
    case Opens(peer, cp, now, via) =>
      w.(book := Connect(w.book, peer, cp, |w.OpenOf(peer)|, now),
      open := w.open[peer := w.OpenOf(peer) + [cp]],
      inflight := if via.Some? then Drop(w.inflight, via.value) else w.inflight)
    case Moves(peer, i, cp, now) =>
      w.(book := ChangeAddress(w.book, peer, w.OpenOf(peer)[i], cp, now),
      open := w.open[peer := w.OpenOf(peer)[i := cp]])
    case Closes(peer, i, reason, now) =>
      w.(book := Disconnect(w.book, peer, w.OpenOf(peer)[i], |w.OpenOf(peer)| - 1, reason, now),
      open := w.open[peer := Drop(w.OpenOf(peer), i)])
  }

  /** The book's part of a swarm step is a step of the book. */
  lemma SwarmStepsAreBookSteps(w: Swarm, s: SwarmStep)
    requires CanStep(w, s)
    ensures s.ForeignDial? ==> Advance(w, s).book == w.book
    ensures !s.ForeignDial? ==> Enabled(w.book, Report(w, s)) && Advance(w, s).book == Next(w.book, Report(w, s))
  {
  }

  datatype SwarmRun = SwarmRun(states: seq<Swarm>, steps: seq<SwarmStep>)
  {
    predicate Valid() {
      && |states| == |steps| + 1
      && forall i :: 0 <= i < |steps| ==> CanStep(states[i], steps[i]) && states[i + 1] == Advance(states[i], steps[i])
    }
  }
}

/** The connection map and the connection events against the connections that
    are really open. */
module ConnectionTheorems {
  import opened Wrappers
  import opened Multiaddrs
  import opened PeerInfos
  import opened Books
  import opened Swarms

  /** The remote addresses of the open connections, as the book writes them. */
  function Remotes(peer: PeerId, cps: seq<ConnectedPoint>): set<Multiaddr> {
    set cp | cp in cps :: Normalize(cp.RemoteAddress(), peer)
  }

  predicate NothingStale(w: Swarm, p: PeerId) {
    ConnectionsOf(w.book, p).Keys <= Remotes(p, w.OpenOf(p))
  }

  predicate IsExact(w: Swarm, p: PeerId) {
    ConnectionsOf(w.book, p).Keys == Remotes(p, w.OpenOf(p))
  }

  // ---- What the steps do to the connection map ------------------------------

  lemma AddAddressKeepsConnections(b: Book, peer: PeerId, addr: Multiaddr, source: AddressSource, now: Time, p: PeerId)
    ensures ConnectionsOf(AddAddress(b, peer, addr, source, now), p) == ConnectionsOf(b, p)
  {
  }

  lemma {:induction false} PushFaultsKeepsConnections(info: Info, peer: PeerId, faults: seq<Fault>, now: Time)
    ensures PushFaults(info, peer, faults, now).connections == info.connections
  {
    if faults != [] {
      PushFaultsKeepsConnections(info, peer, faults[..|faults| - 1], now);
    }
  }

  lemma {:induction false} CandidatesKeepConnections(info: Info, order: seq<Multiaddr>, portReuse: bool,
                                                     ours: set<Multiaddr>, now: Time)
    ensures IngestCandidates(info, order, portReuse, ours, now).connections == info.connections
  {
    if order != [] {
      CandidatesKeepConnections(info, order[..|order| - 1], portReuse, ours, now);
    }
  }

  lemma FailDialKeepsConnections(b: Book, s: Step, p: PeerId)
    requires s.GotDialFailure?
    ensures ConnectionsOf(Next(b, s), p) == ConnectionsOf(b, p)
  {
    var blamed := BlamedPeer(s.blame, s.own);
    if blamed.Some? && blamed.value in b.peers && s.own.None? && s.error.Transport? {
      PushFaultsKeepsConnections(b.peers[blamed.value], blamed.value, s.error.faults, s.now);
    }
  }

  /** Pruning included: it only removes peers without connections. */
  lemma OtherStepsKeepConnections(b: Book, s: Step, p: PeerId)
    requires Enabled(b, s) && !s.GotConnection? && !s.GotAddressChange? && !s.GotClose?
    ensures ConnectionsOf(Next(b, s), p) == ConnectionsOf(b, p)
  {
    match s
    case CallAddAddress(peer, addr, source, now) => AddAddressKeepsConnections(b, peer, addr, source, now, p);
    case GotIdentify(peer, id, now, order) =>
      if peer in b.peers {
        CandidatesKeepConnections(Identified(b.peers[peer], id), order, b.cfg.portReuse, b.listeners, now);
      }
    case GotDialFailure(_, _, _, _, _) => FailDialKeepsConnections(b, s, p);
    case _ =>
  }

  lemma ConnectOnConnections(b: Book, peer: PeerId, cp: ConnectedPoint, other: nat, now: Time, p: PeerId)
    ensures ConnectionsOf(Connect(b, peer, cp, other, now), p).Keys ==
            ConnectionsOf(b, p).Keys + if p == peer then {Normalize(cp.RemoteAddress(), p)} else {}
  {
    AddAddressKeepsConnections(b, peer, Normalize(cp.RemoteAddress(), peer), SourceOf(cp), now, p);
  }

  lemma ChangeOnConnections(b: Book, peer: PeerId, before: ConnectedPoint, after: ConnectedPoint, now: Time, p: PeerId)
    ensures ConnectionsOf(ChangeAddress(b, peer, before, after, now), p).Keys ==
            if p == peer
            then ConnectionsOf(b, p).Keys - {Normalize(before.RemoteAddress(), p)}
                 + {Normalize(after.RemoteAddress(), p)}
            else ConnectionsOf(b, p).Keys
  {
    AddAddressKeepsConnections(b, peer, Normalize(after.RemoteAddress(), peer), SourceOf(after), now, p);
  }

  lemma DisconnectOnConnections(b: Book, peer: PeerId, cp: ConnectedPoint, left: nat, reason: CloseReason, now: Time,
                                p: PeerId)
    ensures ConnectionsOf(Disconnect(b, peer, cp, left, reason, now), p).Keys ==
            ConnectionsOf(b, p).Keys - if p == peer then {Normalize(cp.RemoteAddress(), p)} else {}
  {
  }

  lemma ConnectEntersConnection(b: Book, peer: PeerId, cp: ConnectedPoint, other: nat, now: Time, p: PeerId)
    ensures ConnectionsOf(Connect(b, peer, cp, other, now), p) ==
            if p == peer then ConnectionsOf(b, p)[Normalize(cp.RemoteAddress(), p) := Connection(now, DirectionOf(cp))]
            else ConnectionsOf(b, p)
  {
    AddAddressKeepsConnections(b, peer, Normalize(cp.RemoteAddress(), peer), SourceOf(cp), now, p);
  }

  lemma DisconnectTakesConnection(b: Book, peer: PeerId, cp: ConnectedPoint, left: nat, reason: CloseReason, now: Time,
                                  p: PeerId)
    ensures var b' := Disconnect(b, peer, cp, left, reason, now);
            && AddressesOf(b', p) == AddressesOf(b, p)
            && ConnectionsOf(b', p) ==
               if p == peer then ConnectionsOf(b, p) - {Normalize(cp.RemoteAddress(), p)} else ConnectionsOf(b, p)
  {
  }

  lemma ConnectRemembersAddress(b: Book, peer: PeerId, cp: ConnectedPoint, other: nat, now: Time)
    requires !Refused(b, peer, Normalize(cp.RemoteAddress(), peer))
    ensures var b', addr := Connect(b, peer, cp, other, now), Normalize(cp.RemoteAddress(), peer);
            Stored(b', peer, addr) && SourceIn(b', peer, addr) == SourceAfter(b, peer, cp)
  {
  }

  /** The source of a connected address: dialling confirms it; an inbound connection
      leaves it as it was, or incoming if it is new. */
  function SourceAfter(b: Book, peer: PeerId, cp: ConnectedPoint): AddressSource {
    match cp
    case Dialer(_, _) => Dial
    case Listener(_, sendBack) =>
      var addr := Normalize(sendBack, peer);
      if Stored(b, peer, addr) then SourceIn(b, peer, addr) else Incoming
  }

  /** Closing a connection undoes opening it: the connections of every peer are
      as before. What remains is the address, unless it was turned down. */
  lemma CloseUndoesConnect(b: Book, peer: PeerId, cp: ConnectedPoint, other: nat, reason: CloseReason, start: Time,
                           end: Time, p: PeerId)
    requires Normalize(cp.RemoteAddress(), peer) !in ConnectionsOf(b, peer)
    ensures var b' := Disconnect(Connect(b, peer, cp, other, start), peer, cp, other, reason, end);
            var addr := Normalize(cp.RemoteAddress(), peer);
            && ConnectionsOf(b', p) == ConnectionsOf(b, p)
            && (!Refused(b, peer, addr) ==>
                  Stored(b', peer, addr) && SourceIn(b', peer, addr) == SourceAfter(b, peer, cp))
  {
    var b1, addr := Connect(b, peer, cp, other, start), Normalize(cp.RemoteAddress(), peer);
    ConnectEntersConnection(b, peer, cp, other, start, p);
    DisconnectTakesConnection(b1, peer, cp, other, reason, end, p);
    DisconnectTakesConnection(b1, peer, cp, other, reason, end, peer);
    if p == peer {
      assert ConnectionsOf(b1, p) - {addr} == ConnectionsOf(b, p);
    }
    if !Refused(b, peer, addr) {
      ConnectRemembersAddress(b, peer, cp, other, start);
    }
  }

  // ---- Map against reality --------------------------------------------------

  /** The step takes away the address of a connection that shares it with
      another open connection, and does not put it back. */
  predicate Shadows(w: Swarm, s: SwarmStep, p: PeerId)
    requires CanStep(w, s)
  {
    match s
    case Closes(peer, i, _, _) =>
      peer == p && Normalize(w.OpenOf(p)[i].RemoteAddress(), p) in Remotes(p, Drop(w.OpenOf(p), i))
    case Moves(peer, i, cp, _) =>
      && peer == p
      && Normalize(w.OpenOf(p)[i].RemoteAddress(), p) in Remotes(p, Drop(w.OpenOf(p), i))
      && Normalize(w.OpenOf(p)[i].RemoteAddress(), p) != Normalize(cp.RemoteAddress(), p)
    case _ => false
  }

  lemma RemotesAppend(p: PeerId, xs: seq<ConnectedPoint>, ys: seq<ConnectedPoint>)
    ensures Remotes(p, xs + ys) == Remotes(p, xs) + Remotes(p, ys)
  {
    assert forall cp :: cp in xs + ys <==> cp in xs || cp in ys;
  }

  lemma InDrop(xs: seq<ConnectedPoint>, i: nat, cp: ConnectedPoint)
    requires i < |xs|
    ensures cp in xs <==> cp in Drop(xs, i) || cp == xs[i]
  {
    if k :| 0 <= k < |xs| && xs[k] == cp && k != i {
      assert Drop(xs, i)[if k < i then k else k - 1] == cp;
    }
  }

  lemma RemotesSplit(p: PeerId, xs: seq<ConnectedPoint>, i: nat)
    requires i < |xs|
    ensures Remotes(p, xs) == Remotes(p, Drop(xs, i)) + {Normalize(xs[i].RemoteAddress(), p)}
  {
    forall cp
      ensures cp in xs <==> cp in Drop(xs, i) || cp == xs[i]
    {
      InDrop(xs, i, cp);
    }
  }

  lemma RemotesUpdate(p: PeerId, xs: seq<ConnectedPoint>, i: nat, cp: ConnectedPoint)
    requires i < |xs|
    ensures Remotes(p, xs[i := cp]) == Remotes(p, Drop(xs, i)) + {Normalize(cp.RemoteAddress(), p)}
  {
    RemotesSplit(p, xs[i := cp], i);
    assert Drop(xs[i := cp], i) == Drop(xs, i);
  }

  lemma OpensOnMap(w: Swarm, s: SwarmStep, p: PeerId)
    requires CanStep(w, s) && s.Opens?
    ensures NothingStale(w, p) ==> NothingStale(Advance(w, s), p)
    ensures IsExact(w, p) ==> IsExact(Advance(w, s), p)
  {
    ConnectOnConnections(w.book, s.peer, s.cp, |w.OpenOf(s.peer)|, s.now, p);
    RemotesAppend(p, w.OpenOf(s.peer), [s.cp]);
    assert Remotes(p, [s.cp]) == {Normalize(s.cp.RemoteAddress(), p)};
  }

  /** The set algebra behind closing and moving. */
  lemma TakingAway(keys: set<Multiaddr>, rest: set<Multiaddr>, x: Multiaddr, y: set<Multiaddr>)
    ensures keys <= rest + {x} ==> keys - {x} + y <= rest + y
    ensures keys == rest + {x} ==> (keys - {x} + y == rest + y <==> (x in rest ==> x in y))
  {
    if x in rest && x !in y {
      assert x in rest + y && x !in keys - {x} + y;
    }
  }

  lemma AfterMoves(w: Swarm, s: SwarmStep, p: PeerId)
    requires CanStep(w, s) && s.Moves?
    ensures var x := Normalize(w.OpenOf(s.peer)[s.i].RemoteAddress(), p);
            ConnectionsOf(Advance(w, s).book, p).Keys ==
            if p == s.peer then ConnectionsOf(w.book, p).Keys - {x} + {Normalize(s.cp.RemoteAddress(), p)}
            else ConnectionsOf(w.book, p).Keys
    ensures Advance(w, s).OpenOf(p) == if p == s.peer then w.OpenOf(p)[s.i := s.cp] else w.OpenOf(p)
  {
    ChangeOnConnections(w.book, s.peer, w.OpenOf(s.peer)[s.i], s.cp, s.now, p);
  }

  lemma MovesOnMap(w: Swarm, s: SwarmStep, p: PeerId)
    requires CanStep(w, s) && s.Moves?
    ensures NothingStale(w, p) ==> NothingStale(Advance(w, s), p)
    ensures IsExact(w, p) ==> (IsExact(Advance(w, s), p) <==> !Shadows(w, s, p))
  {
    var cps := w.OpenOf(s.peer);
    var x, y := Normalize(cps[s.i].RemoteAddress(), p), Normalize(s.cp.RemoteAddress(), p);
    AfterMoves(w, s, p);
    var rest := Remotes(p, Drop(cps, s.i));
    if s.peer == p {
      assert NothingStale(w, p) == (ConnectionsOf(w.book, p).Keys <= rest + {x})
          && IsExact(w, p) == (ConnectionsOf(w.book, p).Keys == rest + {x}) by {
        RemotesSplit(p, cps, s.i);
      }
      assert Remotes(p, Advance(w, s).OpenOf(p)) == rest + {y} by {
        RemotesUpdate(p, cps, s.i, s.cp);
      }
      TakingAway(ConnectionsOf(w.book, p).Keys, rest, x, {y});
    }
  }

  lemma ClosesOnMap(w: Swarm, s: SwarmStep, p: PeerId)
    requires CanStep(w, s) && s.Closes?
    ensures NothingStale(w, p) ==> NothingStale(Advance(w, s), p)
    ensures IsExact(w, p) ==> (IsExact(Advance(w, s), p) <==> !Shadows(w, s, p))
  {
    var cps := w.OpenOf(s.peer);
    DisconnectOnConnections(w.book, s.peer, cps[s.i], |cps| - 1, s.reason, s.now, p);
    if s.peer == p {
      RemotesSplit(p, cps, s.i);
      TakingAway(ConnectionsOf(w.book, p).Keys, Remotes(p, Drop(cps, s.i)), Normalize(cps[s.i].RemoteAddress(), p), {});
    }
  }

  /** What one step makes of the map, relative to the open connections: an exact
      map stays exact if and only if the step does not shadow, and a map without
      stale addresses never gets one. */
  lemma StepOnMap(w: Swarm, s: SwarmStep, p: PeerId)
    requires CanStep(w, s)
    ensures NothingStale(w, p) ==> NothingStale(Advance(w, s), p)
    ensures IsExact(w, p) ==> (IsExact(Advance(w, s), p) <==> !Shadows(w, s, p))
  {
    match s
    case Opens(_, _, _, _) => OpensOnMap(w, s, p);
    case Moves(_, _, _, _) => MovesOnMap(w, s, p);
    case Closes(_, _, _, _) => ClosesOnMap(w, s, p);
    case ForeignDial(_) =>
    case _ =>
      SwarmStepsAreBookSteps(w, s);
      OtherStepsKeepConnections(w.book, Report(w, s), p);
  }

  lemma RunStepOnMap(run: SwarmRun, k: nat, p: PeerId)
    requires run.Valid() && k < |run.steps|
    ensures NothingStale(run.states[k], p) ==> NothingStale(run.states[k + 1], p)
    ensures IsExact(run.states[k], p) ==> (IsExact(run.states[k + 1], p) <==> !Shadows(run.states[k], run.steps[k], p))
  {
    StepOnMap(run.states[k], run.steps[k], p);
  }

  /** In every honest run the map never holds an address without an open
      connection. */
  lemma {:induction false} MapIsNeverStale(run: SwarmRun, cfg: Config, n: nat, p: PeerId)
    requires run.Valid() && run.states[0] == EmptySwarm(cfg) && n < |run.states|
    ensures NothingStale(run.states[n], p)
  {
    if n != 0 {
      MapIsNeverStale(run, cfg, n - 1, p);
      RunStepOnMap(run, n - 1, p);
    }
  }

  /** In an honest run without shadowing steps the map is exactly the set of
      open remote addresses, and `is_connected` tells the truth. */
  lemma {:induction false} MapIsExact(run: SwarmRun, cfg: Config, n: nat, p: PeerId)
    requires run.Valid() && run.states[0] == EmptySwarm(cfg) && n < |run.states|
    requires forall k :: 0 <= k < n ==> !Shadows(run.states[k], run.steps[k], p)
    ensures IsExact(run.states[n], p)
    ensures IsConnected(run.states[n].book, p) <==> p == cfg.local || run.states[n].OpenOf(p) != []
  {
    if n == 0 {
      assert Remotes(p, []) == {};
    } else {
      MapIsExact(run, cfg, n - 1, p);
      RunStepOnMap(run, n - 1, p);
    }
    ConfigIsFixed(run, cfg, n);
    var cps := run.states[n].OpenOf(p);
    if cps != [] {
      assert Normalize(cps[0].RemoteAddress(), p) in Remotes(p, cps);
    }
  }

  lemma {:induction false} ConfigIsFixed(run: SwarmRun, cfg: Config, n: nat)
    requires run.Valid() && run.states[0] == EmptySwarm(cfg) && n < |run.states|
    ensures run.states[n].book.cfg == cfg
  {
    if n != 0 {
      ConfigIsFixed(run, cfg, n - 1);
    }
  }

  /** `is_connected`. */
  predicate IsConnected(b: Book, p: PeerId) {
    p == b.cfg.local || (p in b.peers && b.peers[p].connections != map[])
  }

  /** Distinct remote addresses rule shadowing out. */
  predicate HasDistinctRemotes(w: Swarm, p: PeerId) {
    forall i, j :: 0 <= i < j < |w.OpenOf(p)| ==>
      Normalize(w.OpenOf(p)[i].RemoteAddress(), p) != Normalize(w.OpenOf(p)[j].RemoteAddress(), p)
  }

  lemma DistinctRemotesDoNotShadow(w: Swarm, s: SwarmStep, p: PeerId)
    requires CanStep(w, s) && HasDistinctRemotes(w, p)
    ensures !Shadows(w, s, p)
  {
  }

  /** While the open connections of a peer have distinct remote addresses, the
      map is exact and `is_connected` tells the truth. */
  lemma DistinctRemotesKeepMapExact(run: SwarmRun, cfg: Config, n: nat, p: PeerId)
    requires run.Valid() && run.states[0] == EmptySwarm(cfg) && n < |run.states|
    requires forall k :: 0 <= k < n ==> HasDistinctRemotes(run.states[k], p)
    ensures IsExact(run.states[n], p)
    ensures IsConnected(run.states[n].book, p) <==> p == cfg.local || run.states[n].OpenOf(p) != []
  {
    forall k | 0 <= k < n
      ensures !Shadows(run.states[k], run.steps[k], p)
    {
      DistinctRemotesDoNotShadow(run.states[k], run.steps[k], p);
    }
    MapIsExact(run, cfg, n, p);
  }

  /** With two connections from the same remote address, closing one makes the
      book deny the other. */
  lemma ShadowedConnectionIsDenied(w: Swarm, p: PeerId, cp: ConnectedPoint, reason: CloseReason, now: Time)
    requires p != w.book.cfg.local && w.OpenOf(p) == [cp, cp] && NothingStale(w, p)
    ensures var w' := Advance(w, Closes(p, 0, reason, now));
            w'.OpenOf(p) == [cp] && !IsConnected(w'.book, p)
  {
    DisconnectOnConnections(w.book, p, cp, 1, reason, now, p);
    assert Remotes(p, [cp, cp]) == {Normalize(cp.RemoteAddress(), p)};
    assert Drop([cp, cp], 0) == [cp];
    var b' := Disconnect(w.book, p, cp, 1, reason, now);
    assert ConnectionsOf(b', p).Keys == {};
    assert Advance(w, Closes(p, 0, reason, now)).book == b';
  }

  lemma OneMoreOpen(w: Swarm, p: PeerId, cp: ConnectedPoint, now: Time)
    requires IsExact(w, p)
    ensures var w' := Advance(w, Opens(p, cp, now, None)); IsExact(w', p) && w'.OpenOf(p) == w.OpenOf(p) + [cp]
  {
    OpensOnMap(w, Opens(p, cp, now, None), p);
  }

  /** Such a state is reached from the empty one. */
  lemma SharedRemoteIsReachable(cfg: Config, p: PeerId, cp: ConnectedPoint, now: Time)
    ensures var w1 := Advance(EmptySwarm(cfg), Opens(p, cp, now, None));
            var w2 := Advance(w1, Opens(p, cp, now, None));
            w2.OpenOf(p) == [cp, cp] && IsExact(w2, p)
  {
    var w0, s := EmptySwarm(cfg), Opens(p, cp, now, None);
    assert IsExact(w0, p) by {
      assert Remotes(p, []) == {};
    }
    OneMoreOpen(w0, p, cp, now);
    OneMoreOpen(Advance(w0, s), p, cp, now);
  }

  // ---- Connected and Disconnected alternate ---------------------------------

  /** Reads the events of a peer: is the link up? `None` when a `Connected` or a
      `Disconnected` comes twice in a row, or a `Disconnected` comes first. */
  function LinkUp(events: seq<Event>, p: PeerId): Option<bool> {
    if events == [] then Some(false)
    else
      var before, e := LinkUp(events[..|events| - 1], p), events[|events| - 1];
      if e == Connected(p) then (if before == Some(false) then Some(true) else None)
      else if e == Disconnected(p) then (if before == Some(true) then Some(false) else None)
      else before
  }

  predicate Quiet(es: seq<Event>, p: PeerId) {
    forall i :: 0 <= i < |es| ==> es[i] != Connected(p) && es[i] != Disconnected(p)
  }

  lemma {:induction false} QuietEvents(events: seq<Event>, es: seq<Event>, p: PeerId)
    requires Quiet(es, p)
    ensures LinkUp(events + es, p) == LinkUp(events, p)
  {
    if es == [] {
      assert events + es == events;
    } else {
      QuietEvents(events, es[..|es| - 1], p);
      assert (events + es)[..|events + es| - 1] == events + es[..|es| - 1];
    }
  }

  lemma LinkEvent(events: seq<Event>, e: Event, p: PeerId)
    ensures LinkUp(events + [e], p) ==
            if e == Connected(p) then (if LinkUp(events, p) == Some(false) then Some(true) else None)
            else if e == Disconnected(p) then (if LinkUp(events, p) == Some(true) then Some(false) else None)
            else LinkUp(events, p)
  {
    assert (events + [e])[..|events|] == events;
  }

  lemma AddAddressIsQuiet(b: Book, peer: PeerId, addr: Multiaddr, source: AddressSource, now: Time, p: PeerId)
    ensures LinkUp(AddAddress(b, peer, addr, source, now).events, p) == LinkUp(b.events, p)
  {
    if !Refused(b, peer, addr) {
      var discovered := !b.InfoOf(peer).HasConfirmed() && source.IsConfirmed();
      LinkEvent(b.events, Discovered(peer), p);
      LinkEvent(if discovered then b.events + [Discovered(peer)] else b.events, NewInfo(peer), p);
    }
  }

  lemma FailValidationIsQuiet(b: Book, peer: PeerId, own: OwnDial, keepAlive: bool, error: DialFault, now: Time,
                              p: PeerId)
    requires peer in b.peers
    ensures LinkUp(FailValidation(b, peer, own, keepAlive, error, now).events, p) == LinkUp(b.events, p)
  {
    LinkEvent(b.events, DialFailure(peer, own.addr), p);
    LinkEvent(b.events + [DialFailure(peer, own.addr)], NewInfo(peer), p);
  }

  lemma FailPlainIsQuiet(b: Book, peer: PeerId, faults: seq<Fault>, now: Time, p: PeerId)
    requires peer in b.peers
    ensures LinkUp(FailPlain(b, peer, faults, now).events, p) == LinkUp(b.events, p)
  {
    var reported := b.events + FaultEvents(peer, faults);
    QuietEvents(b.events, FaultEvents(peer, faults), p);
    if FaultRedials(peer, faults, b.cfg.keepAlive) == [] {
      LinkEvent(reported, Unreachable(peer), p);
      LinkEvent(reported + [Unreachable(peer)], NewInfo(peer), p);
    } else {
      LinkEvent(reported, NewInfo(peer), p);
    }
  }

  lemma FailDialIsQuiet(b: Book, s: Step, p: PeerId)
    requires s.GotDialFailure?
    ensures LinkUp(Next(b, s).events, p) == LinkUp(b.events, p)
  {
    var blamed := BlamedPeer(s.blame, s.own);
    if blamed.Some? && blamed.value in b.peers {
      LinkEvent(b.events, Unreachable(blamed.value), p);
      if s.own.Some? {
        FailValidationIsQuiet(b, blamed.value, s.own.value, s.keepAlive, s.error, s.now, p);
      } else if s.error.Transport? {
        FailPlainIsQuiet(b, blamed.value, s.error.faults, s.now, p);
      }
    }
  }

  lemma OtherStepsAreQuiet(b: Book, s: Step, p: PeerId)
    requires Enabled(b, s) && !s.GotConnection? && !s.GotAddressChange? && !s.GotClose?
    requires !s.CallAddAddress? && !s.GotDialFailure?
    ensures LinkUp(Next(b, s).events, p) == LinkUp(b.events, p)
  {
    match s
    case CallPrune(_, _, pruned) => QuietEvents(b.events, NewInfos(pruned), p);
    case Pinged(peer, _) => LinkEvent(b.events, NewInfo(peer), p);
    case GotIdentify(peer, _, _, _) => LinkEvent(b.events, NewInfo(peer), p);
    case GotListenAddr(id, listen) => LinkEvent(b.events, NewListenAddr(id, listen), p);
    case LostListenAddr(id, listen) => LinkEvent(b.events, ExpiredListenAddr(id, listen), p);
    case Notice(event) => LinkEvent(b.events, event, p);
    case _ =>
  }

  lemma ConnectOnLink(b: Book, peer: PeerId, cp: ConnectedPoint, other: nat, now: Time, p: PeerId)
    requires LinkUp(b.events, p).Some?
    requires p == peer ==> LinkUp(b.events, p) == Some(other != 0)
    ensures LinkUp(Connect(b, peer, cp, other, now).events, p) == if p == peer then Some(true) else LinkUp(b.events, p)
  {
    var conn := NormalizePoint(cp, b.cfg.local, peer);
    var b1 := AddAddress(b, peer, conn.RemoteAddress(), SourceOf(conn), now);
    AddAddressIsQuiet(b, peer, conn.RemoteAddress(), SourceOf(conn), now, p);
    var established := ConnectionEstablished(peer, conn);
    if other == 0 {
      LinkEvent(b1.events, Connected(peer), p);
      LinkEvent(b1.events + [Connected(peer)], established, p);
    } else {
      LinkEvent(b1.events, established, p);
    }
  }

  lemma ChangeOnLink(b: Book, peer: PeerId, before: ConnectedPoint, after: ConnectedPoint, now: Time, p: PeerId)
    ensures LinkUp(ChangeAddress(b, peer, before, after, now).events, p) == LinkUp(b.events, p)
  {
    var newConn := NormalizePoint(after, b.cfg.local, peer);
    AddAddressIsQuiet(b, peer, newConn.RemoteAddress(), SourceOf(newConn), now, p);
    LinkEvent(AddAddress(b, peer, newConn.RemoteAddress(), SourceOf(newConn), now).events,
              AddressChanged(peer, NormalizePoint(before, b.cfg.local, peer), newConn), p);
  }

  lemma DisconnectOnLink(b: Book, peer: PeerId, cp: ConnectedPoint, left: nat, reason: CloseReason, now: Time,
                         p: PeerId)
    requires LinkUp(b.events, p).Some?
    requires p == peer ==> LinkUp(b.events, p) == Some(true)
    ensures LinkUp(Disconnect(b, peer, cp, left, reason, now).events, p) ==
            if p == peer then Some(left != 0) else LinkUp(b.events, p)
  {
    var closed := ConnectionClosed(peer, NormalizePoint(cp, b.cfg.local, peer));
    LinkEvent(b.events, closed, p);
    if left == 0 {
      LinkEvent(b.events + [closed], Disconnected(peer), p);
      LinkEvent(b.events + [closed] + [Disconnected(peer)], NewInfo(peer), p);
    } else {
      LinkEvent(b.events + [closed], NewInfo(peer), p);
    }
  }

  lemma LocalStepOnLink(b: Book, s: Step, p: PeerId)
    requires Enabled(b, s) && !s.GotConnection? && !s.GotAddressChange? && !s.GotClose?
    ensures LinkUp(Next(b, s).events, p) == LinkUp(b.events, p)
  {
    if s.CallAddAddress? {
      AddAddressIsQuiet(b, s.peer, s.addr, s.source, s.now, p);
    } else if s.GotDialFailure? {
      FailDialIsQuiet(b, s, p);
    } else {
      OtherStepsAreQuiet(b, s, p);
    }
  }

  predicate LinkMatches(w: Swarm, p: PeerId) {
    LinkUp(w.book.events, p) == Some(w.OpenOf(p) != [])
  }

  lemma OpensOnLink(w: Swarm, s: SwarmStep, p: PeerId)
    requires CanStep(w, s) && s.Opens? && LinkMatches(w, p)
    ensures LinkMatches(Advance(w, s), p)
  {
    ConnectOnLink(w.book, s.peer, s.cp, |w.OpenOf(s.peer)|, s.now, p);
  }

  lemma MovesOnLink(w: Swarm, s: SwarmStep, p: PeerId)
    requires CanStep(w, s) && s.Moves? && LinkMatches(w, p)
    ensures LinkMatches(Advance(w, s), p)
  {
    ChangeOnLink(w.book, s.peer, w.OpenOf(s.peer)[s.i], s.cp, s.now, p);
  }

  lemma ClosesOnLink(w: Swarm, s: SwarmStep, p: PeerId)
    requires CanStep(w, s) && s.Closes? && LinkMatches(w, p)
    ensures LinkMatches(Advance(w, s), p)
  {
    var cps := w.OpenOf(s.peer);
    DisconnectOnLink(w.book, s.peer, cps[s.i], |cps| - 1, s.reason, s.now, p);
  }

  lemma StepOnLink(w: Swarm, s: SwarmStep, p: PeerId)
    requires CanStep(w, s) && LinkMatches(w, p)
    ensures LinkMatches(Advance(w, s), p)
  {
    match s
    case Opens(_, _, _, _) => OpensOnLink(w, s, p);
    case Moves(_, _, _, _) => MovesOnLink(w, s, p);
    case Closes(_, _, _, _) => ClosesOnLink(w, s, p);
    case ForeignDial(_) =>
    case _ =>
      SwarmStepsAreBookSteps(w, s);
      LocalStepOnLink(w.book, Report(w, s), p);
  }

  /** In every honest run the `Connected` and `Disconnected` events of a peer
      alternate, beginning with `Connected`, and the last one tells whether a
      connection is open. */
  lemma {:induction false} LinkEventsAlternate(run: SwarmRun, cfg: Config, n: nat, p: PeerId)
    requires run.Valid() && run.states[0] == EmptySwarm(cfg) && n < |run.states|
    ensures LinkMatches(run.states[n], p)
  {
    if n != 0 {
      LinkEventsAlternate(run, cfg, n - 1, p);
      StepOnLink(run.states[n - 1], run.steps[n - 1], p);
    }
  }
}
