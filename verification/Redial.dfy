/** Redialling after TCP simultaneous open comes to an end. */
module RedialTheorems {
  import opened Wrappers
  import opened Multiaddrs
  import opened PeerInfos
  import opened Books
  import opened Swarms
  import P = ProbeTheorems
  import D = Decisions

  // ---- Sums over dials ------------------------------------------------------

  function Total(ds: seq<DialAction>, weight: DialAction -> nat): nat {
    if ds == [] then 0 else Total(ds[..|ds| - 1], weight) + weight(ds[|ds| - 1])
  }

  lemma {:induction false} TotalAppend(xs: seq<DialAction>, ys: seq<DialAction>, weight: DialAction -> nat)
    ensures Total(xs + ys, weight) == Total(xs, weight) + Total(ys, weight)
  {
    if ys == [] {
      assert xs + ys == xs;
    } else {
      TotalAppend(xs, ys[..|ys| - 1], weight);
      assert (xs + ys)[..|xs + ys| - 1] == xs + ys[..|ys| - 1];
    }
  }

  lemma TotalSingle(d: DialAction, weight: DialAction -> nat)
    ensures Total([d], weight) == weight(d)
  {
    assert [d][..0] == [];
  }

  lemma TotalDrop(ds: seq<DialAction>, i: nat, weight: DialAction -> nat)
    requires i < |ds|
    ensures Total(ds, weight) == Total(Drop(ds, i), weight) + weight(ds[i])
  {
    var before, d, after := ds[..i], ds[i], ds[i + 1..];
    assert ds == before + ([d] + after);
    TotalAppend(before, [d] + after, weight);
    TotalAppend([d], after, weight);
    TotalSingle(d, weight);
    TotalAppend(before, after, weight);
  }

  lemma TotalOutstanding(w: Swarm, weight: DialAction -> nat)
    ensures Total(w.Outstanding(), weight) ==
            Total(w.book.actions, weight) + Total(w.book.deferred, weight) + Total(w.inflight, weight)
  {
    TotalAppend(w.book.actions, w.book.deferred, weight);
    TotalAppend(w.book.actions + w.book.deferred, w.inflight, weight);
  }

  /** Dials that ask the book for addresses. */
  function PlainWeight(d: DialAction): nat {
    if d.own.Some? then 0 else 1
  }

  /** The attempts an address dial has left, counting itself. */
  function TriesWeight(d: DialAction): nat {
    if d.own.Some? then d.own.value.retries + 1 else 0
  }

  /** The failures a dial can account for by itself. */
  function FailureWeight(d: DialAction): nat {
    if d.own.Some? then d.own.value.retries + 1 else 1
  }

  // ---- What a failed dial is followed by ------------------------------------

  /** The dials that the book defers when a dial fails. */
  function RedialsOf(b: Book, d: DialAction, error: DialFault): seq<DialAction> {
    var blamed := BlamedPeer(Some(d.peer), d.own);
    if blamed.value !in b.peers then []
    else if d.own.Some? then
      if error.IsSimOpen() && d.own.value.retries > 0
      then [Redial(blamed.value, d.own.value.addr, d.own.value.retries - 1, d.keepAlive)] else []
    else if error.Transport? then FaultRedials(blamed.value, error.faults, b.cfg.keepAlive)
    else []
  }

  lemma FailDialDefers(b: Book, d: DialAction, error: DialFault, now: Time)
    ensures var b' := FailDial(b, Some(d.peer), d.own, d.keepAlive, error, now);
            b'.deferred == b.deferred + RedialsOf(b, d, error) && b'.actions == b.actions
  {
  }

  function SimOpens(faults: seq<Fault>): nat {
    if faults == [] then 0 else SimOpens(faults[..|faults| - 1]) + if faults[|faults| - 1].simOpen then 1 else 0
  }

  lemma {:induction false} FaultRedialsMeaning(peer: PeerId, faults: seq<Fault>, keepAlive: bool)
    ensures var ds := FaultRedials(peer, faults, keepAlive);
            && |ds| == SimOpens(faults)
            && (forall i :: 0 <= i < |ds| ==> ds[i].own.Some? && ds[i].own.value.retries == 10)
            && Total(ds, PlainWeight) == 0
            && Total(ds, FailureWeight) == 11 * SimOpens(faults)
  {
    if faults != [] {
      var init, f := faults[..|faults| - 1], faults[|faults| - 1];
      FaultRedialsMeaning(peer, init, keepAlive);
      if f.simOpen {
        var d := Redial(peer, f.addr, SIM_OPEN_RETRIES, keepAlive);
        TotalAppend(FaultRedials(peer, init, keepAlive), [d], PlainWeight);
        TotalAppend(FaultRedials(peer, init, keepAlive), [d], FailureWeight);
        TotalSingle(d, PlainWeight);
        TotalSingle(d, FailureWeight);
      } else {
        assert FaultRedials(peer, faults, keepAlive) == FaultRedials(peer, init, keepAlive);
      }
    }
  }

  // ---- Every failure lowers the measure -------------------------------------

  /** The measure: plain dials first, then the attempts left. */
  ghost predicate Below(w': Swarm, w: Swarm) {
    var plain', plain := Total(w'.Outstanding(), PlainWeight), Total(w.Outstanding(), PlainWeight);
    plain' < plain || (plain' == plain && Total(w'.Outstanding(), TriesWeight) < Total(w.Outstanding(), TriesWeight))
  }

  lemma FailureChangesTotal(w: Swarm, s: SwarmStep, weight: DialAction -> nat)
    requires CanStep(w, s) && s.DialFails?
    ensures Total(Advance(w, s).Outstanding(), weight) + weight(w.inflight[s.i]) ==
            Total(w.Outstanding(), weight) + Total(RedialsOf(w.book, w.inflight[s.i], s.error), weight)
  {
    var d := w.inflight[s.i];
    FailDialDefers(w.book, d, s.error, s.now);
    TotalOutstanding(w, weight);
    TotalOutstanding(Advance(w, s), weight);
    TotalAppend(w.book.deferred, RedialsOf(w.book, d, s.error), weight);
    TotalDrop(w.inflight, s.i, weight);
  }

  /** Every dial failure, whatever the error, strictly lowers the lexicographic
      measure over queued, deferred and running dials. */
  lemma FailureLowersMeasure(w: Swarm, s: SwarmStep)
    requires CanStep(w, s) && s.DialFails?
    ensures Below(Advance(w, s), w)
  {
    var d := w.inflight[s.i];
    var redials := RedialsOf(w.book, d, s.error);
    FailureChangesTotal(w, s, PlainWeight);
    FailureChangesTotal(w, s, TriesWeight);
    if d.own.Some? {
      if redials != [] {
        assert redials == [redials[0]];
        TotalSingle(redials[0], PlainWeight);
        TotalSingle(redials[0], TriesWeight);
      }
    } else if s.error.Transport? {
      FaultRedialsMeaning(d.peer, s.error.faults, w.book.cfg.keepAlive);
    }
  }

  lemma TotalPolled(b: Book, k: nat, weight: DialAction -> nat)
    requires CanPoll(b, k)
    ensures Total(PollRest(b, k).actions, weight) + Total(PollRest(b, k).deferred, weight) + weight(PollDial(b, k)) ==
            Total(b.actions, weight) + Total(b.deferred, weight)
  {
    if b.actions != [] {
      TotalDrop(b.actions, 0, weight);
      assert Drop(b.actions, 0) == b.actions[1..];
    } else {
      TotalDrop(b.deferred, k, weight);
    }
  }

  /** Handing a dial to the swarm, and a dial that succeeds, never raise it. */
  lemma PollingKeepsTotals(w: Swarm, s: SwarmStep, weight: DialAction -> nat)
    requires CanStep(w, s) && s.TakeDial?
    ensures Total(Advance(w, s).Outstanding(), weight) == Total(w.Outstanding(), weight)
  {
    TotalOutstanding(w, weight);
    TotalOutstanding(Advance(w, s), weight);
    TotalPolled(w.book, s.k, weight);
    var d := PollDial(w.book, s.k);
    TotalAppend(w.inflight, [d], weight);
    TotalSingle(d, weight);
  }

  lemma OpeningLowersTotals(w: Swarm, s: SwarmStep, weight: DialAction -> nat)
    requires CanStep(w, s) && s.Opens?
    ensures Total(Advance(w, s).Outstanding(), weight) <= Total(w.Outstanding(), weight)
  {
    P.ConnectQueuesNothing(w.book, s.peer, s.cp, |w.OpenOf(s.peer)|, s.now);
    TotalOutstanding(w, weight);
    TotalOutstanding(Advance(w, s), weight);
    if s.via.Some? {
      TotalDrop(w.inflight, s.via.value, weight);
    }
  }

  // ---- One lineage ----------------------------------------------------------

  /** `d'` is a redial of `d`, in some book and for some error. */
  ghost predicate IsRedial(d: DialAction, d': DialAction) {
    exists b: Book, error: DialFault :: d' in RedialsOf(b, d, error)
  }

  ghost predicate IsLineage(ds: seq<DialAction>) {
    ds != [] && forall i :: 0 <= i < |ds| - 1 ==> IsRedial(ds[i], ds[i + 1])
  }

  lemma RedialLosesRetry(d: DialAction, d': DialAction)
    requires IsRedial(d, d')
    ensures d'.own.Some?
    ensures d'.own.value.retries == if d.own.Some? then d.own.value.retries - 1 else 10
  {
    var b: Book, error: DialFault :| d' in RedialsOf(b, d, error);
    if d.own.None? && error.Transport? {
      FaultRedialsMeaning(d.peer, error.faults, b.cfg.keepAlive);
    }
  }

  lemma {:induction false} FaultRedialsTargets(peer: PeerId, faults: seq<Fault>, keepAlive: bool, d: DialAction)
    requires d in FaultRedials(peer, faults, keepAlive)
    ensures d.peer == peer && !d.always && d.keepAlive == keepAlive
    ensures d.own.Some? && d.addresses == Some([d.own.value.addr])
    ensures Fault(d.own.value.addr, true) in faults
  {
    var init := faults[..|faults| - 1];
    if d in FaultRedials(peer, init, keepAlive) {
      FaultRedialsTargets(peer, init, keepAlive, d);
      assert Fault(d.own.value.addr, true) in init;
    } else {
      assert faults[|faults| - 1] == Fault(d.own.value.addr, true);
    }
  }

  /** A redial goes to the very address that failed, of the peer the failure is
      booked on, and never under any condition. Validation dials keep their
      handler's keep-alive flag, plain dials get the book's. */
  lemma RedialTargetsFailedAddress(b: Book, d: DialAction, error: DialFault, d': DialAction)
    requires d' in RedialsOf(b, d, error)
    ensures Some(d'.peer) == BlamedPeer(Some(d.peer), d.own) && d'.peer in b.peers && !d'.always
    ensures D.HasSimOpen(error) && d'.own.Some? && d'.addresses == Some([d'.own.value.addr])
    ensures if d.own.Some? then d'.own.value.addr == d.own.value.addr && d'.keepAlive == d.keepAlive
            else Fault(d'.own.value.addr, true) in error.faults && d'.keepAlive == b.cfg.keepAlive
  {
    if d.own.None? {
      FaultRedialsTargets(d.peer, error.faults, b.cfg.keepAlive, d');
    }
  }

  /** No dial has more successors in a line than its handler has retries: eleven
      for a requested or added address, four for an Identify probe. For a plain
      dial it is eleven for each address that fails. */
  lemma {:induction false} LineageIsBounded(ds: seq<DialAction>)
    requires IsLineage(ds)
    ensures |ds| - 1 <= if ds[0].own.Some? then ds[0].own.value.retries else 11
  {
    if |ds| > 1 {
      RedialLosesRetry(ds[0], ds[1]);
      var rest := ds[1..];
      forall i | 0 <= i < |rest| - 1
        ensures IsRedial(rest[i], rest[i + 1])
      {
        assert IsRedial(ds[i + 1], ds[i + 1 + 1]);
      }
      LineageIsBounded(rest);
    }
  }

  /** The bound is reached: as long as retries are left, one more simultaneous
      open brings one more redial. */
  lemma RedialWhileRetriesLast(b: Book, d: DialAction, fault: Fault)
    requires d.own.Some? && BlamedPeer(Some(d.peer), d.own).value in b.peers && fault.simOpen
    ensures |RedialsOf(b, d, Transport([fault]))| == if d.own.value.retries > 0 then 1 else 0
  {
    assert Transport([fault]).faults[0].simOpen;
  }

  // ---- Whole runs -----------------------------------------------------------

  /** The failures a step can pay for: what it newly requests, one for a dial of
      another protocol, and eleven for every simultaneous open that a plain dial
      reports, whoever asked for it. */
  function Credit(w: Swarm, s: SwarmStep): nat
    requires CanStep(w, s)
  {
    match s
    case Local(step) => Total(P.Queued(w.book, step), FailureWeight)
    case ForeignDial(_) => 1
    case DialFails(i, error, _) =>
      if w.inflight[i].own.None? && error.Transport? then 11 * SimOpens(error.faults) else 0
    case _ => 0
  }

  /** What requests are worth: one failure for a plain dial, twelve for an
      address, five for an Identify probe. */
  lemma CreditOfRequests(b: Book, s: Step, d: DialAction)
    requires Enabled(b, s) && d in P.Queued(b, s)
    ensures FailureWeight(d) ==
            if s.CallDial? then 1 else if s.GotIdentify? then 5 else 12
  {
    if d.always {
      P.OwnListenersAreNotProbed(b, s, d);
      if !s.CallAddAddress? && !s.GotIdentify? {
        P.OtherStepsQueueNoProbes(b, s, d.peer, []);
      }
    } else if s.CallAddAddress? {
      P.AddAddressQueues(b, s.peer, s.addr, s.source, s.now);
    } else if s.GotIdentify? {
      if s.peer in b.peers {
        P.SetInfoQueues(b, s.peer, s.id, s.now, s.order);
      }
    } else if s.GotConnection? || s.GotAddressChange? {
      P.ConnectionsQueueNothing(b, s);
    }
  }

  /** The redials in a line after a request: eleven after a dial or an added
      address, four after an Identify probe. */
  lemma RequestedLineageIsBounded(b: Book, s: Step, ds: seq<DialAction>)
    requires Enabled(b, s) && IsLineage(ds) && ds[0] in P.Queued(b, s)
    ensures |ds| - 1 <= if s.GotIdentify? then 4 else 11
  {
    CreditOfRequests(b, s, ds[0]);
    LineageIsBounded(ds);
  }

  lemma LocalStepsAppend(b: Book, s: Step)
    requires Enabled(b, s) && IsLocal(s)
    ensures Next(b, s).actions == b.actions + P.Queued(b, s) && Next(b, s).deferred == b.deferred
  {
  }

  ghost predicate IsPaid(w: Swarm, s: SwarmStep)
    requires CanStep(w, s)
  {
    (if s.DialFails? then 1 else 0) + Total(Advance(w, s).Outstanding(), FailureWeight)
    <= Total(w.Outstanding(), FailureWeight) + Credit(w, s)
  }

  lemma FailuresArePaid(w: Swarm, s: SwarmStep)
    requires CanStep(w, s) && s.DialFails?
    ensures IsPaid(w, s)
  {
    var d := w.inflight[s.i];
    var redials := RedialsOf(w.book, d, s.error);
    FailureChangesTotal(w, s, FailureWeight);
    if d.own.Some? {
      if redials != [] {
        assert redials == [redials[0]];
        TotalSingle(redials[0], FailureWeight);
      }
    } else if s.error.Transport? {
      FaultRedialsMeaning(d.peer, s.error.faults, w.book.cfg.keepAlive);
    }
  }

  lemma LocalStepsArePaid(w: Swarm, s: SwarmStep)
    requires CanStep(w, s) && s.Local?
    ensures IsPaid(w, s)
  {
    LocalStepsAppend(w.book, s.step);
    TotalOutstanding(w, FailureWeight);
    TotalOutstanding(Advance(w, s), FailureWeight);
    TotalAppend(w.book.actions, P.Queued(w.book, s.step), FailureWeight);
  }

  lemma ForeignDialsArePaid(w: Swarm, s: SwarmStep)
    requires CanStep(w, s) && s.ForeignDial?
    ensures IsPaid(w, s)
  {
    TotalOutstanding(w, FailureWeight);
    TotalOutstanding(Advance(w, s), FailureWeight);
    TotalAppend(w.inflight, [s.dial], FailureWeight);
    TotalSingle(s.dial, FailureWeight);
  }

  lemma MovingKeepsDials(w: Swarm, s: SwarmStep)
    requires CanStep(w, s) && (s.Moves? || s.Closes?)
    ensures Advance(w, s).Outstanding() == w.Outstanding()
  {
    if s.Moves? {
      P.ChangeQueuesNothing(w.book, s.peer, w.OpenOf(s.peer)[s.i], s.cp, s.now);
    }
  }

  lemma EveryStepIsPaid(w: Swarm, s: SwarmStep)
    requires CanStep(w, s)
    ensures IsPaid(w, s)
  {
    match s
    case Local(_) => LocalStepsArePaid(w, s);
    case TakeDial(_) => PollingKeepsTotals(w, s, FailureWeight);
    case ForeignDial(_) => ForeignDialsArePaid(w, s);
    case DialFails(_, _, _) => FailuresArePaid(w, s);
    case Opens(_, _, _, _) => OpeningLowersTotals(w, s, FailureWeight);
    case Moves(_, _, _, _) => MovingKeepsDials(w, s);
    case Closes(_, _, _, _) => MovingKeepsDials(w, s);
  }

  function FailuresUpTo(run: SwarmRun, n: nat): nat
    requires run.Valid() && n < |run.states|
  {
    if n == 0 then 0 else FailuresUpTo(run, n - 1) + if run.steps[n - 1].DialFails? then 1 else 0
  }

  function CreditUpTo(run: SwarmRun, n: nat): nat
    requires run.Valid() && n < |run.states|
  {
    if n == 0 then 0 else CreditUpTo(run, n - 1) + Credit(run.states[n - 1], run.steps[n - 1])
  }

  /** What has been paid beyond the failures seen and those still possible. */
  function Balance(run: SwarmRun, n: nat): int
    requires run.Valid() && n < |run.states|
  {
    CreditUpTo(run, n) - FailuresUpTo(run, n) - Total(run.states[n].Outstanding(), FailureWeight)
  }

  lemma BalanceGrows(run: SwarmRun, n: nat)
    requires run.Valid() && 0 < n < |run.states|
    ensures Balance(run, n - 1) <= Balance(run, n)
  {
    EveryStepIsPaid(run.states[n - 1], run.steps[n - 1]);
  }

  lemma {:induction false} BalanceNeverFalls(run: SwarmRun, n: nat)
    requires run.Valid() && n < |run.states|
    ensures Balance(run, 0) <= Balance(run, n)
  {
    if n != 0 {
      BalanceNeverFalls(run, n - 1);
      BalanceGrows(run, n);
    }
  }

  /** In every run, with other protocols dialling as they like, the dial failures
      are bounded by the requests: with what is still outstanding they never exceed
      the initial dials plus the credit. So once requests and plain dials stop,
      failures, and with them redials, stop as well. */
  lemma {:induction false} FailuresAreBounded(run: SwarmRun, n: nat)
    requires run.Valid() && n < |run.states|
    ensures FailuresUpTo(run, n) + Total(run.states[n].Outstanding(), FailureWeight)
            <= Total(run.states[0].Outstanding(), FailureWeight) + CreditUpTo(run, n)
  {
    BalanceNeverFalls(run, n);
  }
}
