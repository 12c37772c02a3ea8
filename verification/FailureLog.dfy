/** The failure history of a peer over whole runs: the deque in its record is the
    newest end of everything that was booked on it. */
module FailureLogs {
  import opened Wrappers
  import opened Orders
  import opened Multiaddrs
  import opened PeerInfos
  import opened Books

  function DialRecords(faults: seq<Fault>, now: Time): (fs: seq<ConnectionFailure>)
    ensures |fs| == |faults|
    ensures forall i :: 0 <= i < |faults| ==> fs[i] == DialRecord(faults[i].addr, now)
  {
    seq(|faults|, i requires 0 <= i < |faults| => DialRecord(faults[i].addr, now))
  }

  /** The failures that a step reports about a peer: the end of a connection, a
      failed validation dial, or every failed address of a plain dial. The dials
      only count for peers that have a record. */
  function Booked(b: Book, s: Step, p: PeerId): seq<ConnectionFailure> {
    match s
    case GotClose(peer, cp, _, reason, now) =>
      if peer != p then []
      else [ConnectionFailure(if reason.IoFault? then PeerDisconnected else WeDisconnected,
                              WithoutPeerId(Normalize(cp.RemoteAddress(), p)), now)]
    case GotDialFailure(blame, own, _, error, now) =>
      if BlamedPeer(blame, own) != Some(p) || p !in b.peers then []
      else if own.Some? then [DialRecord(own.value.addr, now)]
      else if error.Transport? then DialRecords(error.faults, now)
      else []
    case _ => []
  }

  /** Everything booked on a peer since its record was created, oldest first. */
  function LogUpTo(run: Run, n: nat, p: PeerId): seq<ConnectionFailure>
    requires run.Valid() && n < |run.books|
  {
    if n == 0 || p !in run.books[n].peers then []
    else LogUpTo(run, n - 1, p) + Booked(run.books[n - 1], run.steps[n - 1], p)
  }

  function PushAll(fs: seq<ConnectionFailure>, more: seq<ConnectionFailure>): seq<ConnectionFailure> {
    if more == [] then fs else PushBounded(PushAll(fs, more[..|more| - 1]), more[|more| - 1])
  }

  lemma {:induction false} HistoryOfTwo(log: seq<ConnectionFailure>, more: seq<ConnectionFailure>)
    ensures History(log + more) == PushAll(History(log), more)
  {
    if more == [] {
      assert log + more == log;
    } else {
      var init, f := more[..|more| - 1], more[|more| - 1];
      HistoryOfTwo(log, init);
      assert (log + more)[..|log + more| - 1] == log + init;
    }
  }

  lemma PushAllOne(fs: seq<ConnectionFailure>, f: ConnectionFailure)
    ensures PushAll(fs, [f]) == PushBounded(fs, f)
  {
    assert [f][..0] == [];
  }

  lemma {:induction false} PushFaultsBooks(info: Info, peer: PeerId, faults: seq<Fault>, now: Time)
    ensures PushFaults(info, peer, faults, now).failures == PushAll(info.failures, DialRecords(faults, now))
  {
    if faults != [] {
      var init := faults[..|faults| - 1];
      PushFaultsBooks(info, peer, init, now);
      assert DialRecords(faults, now)[..|faults| - 1] == DialRecords(init, now);
    }
  }

  lemma {:induction false} CandidatesKeepFailures(info: Info, order: seq<Multiaddr>, portReuse: bool,
                                                  ours: set<Multiaddr>, now: Time)
    ensures IngestCandidates(info, order, portReuse, ours, now).failures == info.failures
  {
    if order != [] {
      CandidatesKeepFailures(info, order[..|order| - 1], portReuse, ours, now);
    }
  }

  // ---- Step by step ---------------------------------------------------------

  /** What a step makes of a peer's failures. */
  ghost predicate BooksFailures(b: Book, s: Step, p: PeerId)
    requires Enabled(b, s)
  {
    p in Next(b, s).peers ==> Next(b, s).peers[p].failures == PushAll(b.InfoOf(p).failures, Booked(b, s, p))
  }

  lemma AddAddressKeepsFailures(b: Book, peer: PeerId, addr: Multiaddr, source: AddressSource, now: Time, p: PeerId)
    ensures AddAddress(b, peer, addr, source, now).InfoOf(p).failures == b.InfoOf(p).failures
  {
  }

  lemma ConnectionsKeepFailures(b: Book, s: Step, p: PeerId)
    requires s.GotConnection? || s.GotAddressChange?
    ensures Next(b, s).InfoOf(p).failures == b.InfoOf(p).failures
  {
    match s
    case GotConnection(peer, cp, _, now) =>
      AddAddressKeepsFailures(b, peer, Normalize(cp.RemoteAddress(), peer), SourceOf(cp), now, p);
    case GotAddressChange(peer, _, after, now) =>
      AddAddressKeepsFailures(b, peer, Normalize(after.RemoteAddress(), peer), SourceOf(after), now, p);
  }

  lemma CloseBooks(b: Book, s: Step, p: PeerId)
    requires s.GotClose?
    ensures Next(b, s).InfoOf(p).failures == PushAll(b.InfoOf(p).failures, Booked(b, s, p))
  {
    if s.peer == p {
      PushAllOne(b.InfoOf(p).failures, Booked(b, s, p)[0]);
    }
  }

  lemma FailDialBooks(b: Book, s: Step, p: PeerId)
    requires s.GotDialFailure?
    ensures Next(b, s).InfoOf(p).failures == PushAll(b.InfoOf(p).failures, Booked(b, s, p))
  {
    if BlamedPeer(s.blame, s.own) == Some(p) && p in b.peers {
      if s.own.Some? {
        PushAllOne(b.peers[p].failures, DialRecord(s.own.value.addr, s.now));
      } else if s.error.Transport? {
        PushFaultsBooks(b.peers[p], p, s.error.faults, s.now);
      }
    }
  }

  lemma OtherStepsKeepFailures(b: Book, s: Step, p: PeerId)
    requires Enabled(b, s) && !s.GotConnection? && !s.GotAddressChange? && !s.GotClose? && !s.GotDialFailure?
    ensures p in Next(b, s).peers ==> Next(b, s).peers[p].failures == b.InfoOf(p).failures
  {
    if s.GotIdentify? && s.peer in b.peers {
      CandidatesKeepFailures(Identified(b.peers[s.peer], s.id), s.order, b.cfg.portReuse, b.listeners, s.now);
    } else if s.CallAddAddress? {
      AddAddressKeepsFailures(b, s.peer, s.addr, s.source, s.now, p);
    }
  }

  lemma StepBooksFailures(b: Book, s: Step, p: PeerId)
    requires Enabled(b, s)
    ensures BooksFailures(b, s, p)
  {
    if s.GotConnection? || s.GotAddressChange? {
      ConnectionsKeepFailures(b, s, p);
    } else if s.GotClose? {
      CloseBooks(b, s, p);
    } else if s.GotDialFailure? {
      FailDialBooks(b, s, p);
    } else {
      OtherStepsKeepFailures(b, s, p);
    }
  }

  // ---- Whole runs -----------------------------------------------------------

  lemma OneMoreStep(run: Run, n: nat, p: PeerId)
    requires run.Valid() && 0 < n < |run.books| && p in run.books[n].peers
    ensures run.books[n].peers[p].failures ==
            PushAll(run.books[n - 1].InfoOf(p).failures, Booked(run.books[n - 1], run.steps[n - 1], p))
  {
    StepBooksFailures(run.books[n - 1], run.steps[n - 1], p);
  }

  lemma {:induction false} FailuresAreHistory(run: Run, cfg: Config, n: nat, p: PeerId)
    requires run.Valid() && run.books[0] == EmptyBook(cfg) && n < |run.books|
    ensures run.books[n].InfoOf(p).failures == History(LogUpTo(run, n, p))
  {
    if n != 0 && p in run.books[n].peers {
      FailuresAreHistory(run, cfg, n - 1, p);
      OneMoreStep(run, n, p);
      HistoryOfTwo(LogUpTo(run, n - 1, p), Booked(run.books[n - 1], run.steps[n - 1], p));
    }
  }

  /** In every run the failures kept for a peer are the newest ten of all that were
      booked on it since its record was created, newest first. So the one that
      pruning looks at is the most recent. */
  lemma {:induction false} FailuresAreNewest(run: Run, cfg: Config, n: nat, p: PeerId)
    requires run.Valid() && run.books[0] == EmptyBook(cfg) && n < |run.books|
    ensures IsNewestEnd(run.books[n].InfoOf(p).failures, LogUpTo(run, n, p))
  {
    FailuresAreHistory(run, cfg, n, p);
    HistoryIsNewestEnd(LogUpTo(run, n, p));
  }
}
