/** The queue of dials and the deferred dials over whole runs: nothing is lost, invented
    or overtaken. */
module QueueTheorems {
  import opened Wrappers
  import opened Orders
  import opened Multiaddrs
  import opened PeerInfos
  import opened Books
  import P = ProbeTheorems

  // ---- What callers request -------------------------------------------------

  /** A dial request is queued unless it is for ourselves; one for an address names that
      address, may be tried again eleven times, and is skipped if the address is
      connected. The latter also makes sure there is a record. */
  lemma RequestsAreQueued(b: Book, peer: PeerId, addr: Multiaddr)
    ensures P.Queued(b, CallDial(peer)) ==
            if peer == b.cfg.local then [] else [DialAction(peer, None, false, None, b.cfg.keepAlive)]
    ensures P.Queued(b, CallDialAddress(peer, addr)) ==
            if peer == b.cfg.local || Normalize(addr, peer) in ConnectionsOf(b, peer) then []
            else [DialAction(peer, Some([addr]), false, Some(OwnDial(Normalize(addr, peer), 11)), b.cfg.keepAlive)]
    ensures peer != b.cfg.local ==> peer in Next(b, CallDialAddress(peer, addr)).peers
    ensures Next(b, CallDial(peer)).peers == b.peers
  {
  }

  // ---- One step -------------------------------------------------------------

  /** The dials that a step appends to the deferred ones. */
  function Deferred(b: Book, s: Step): seq<DialAction>
    requires Enabled(b, s)
  {
    var b' := Next(b, s);
    if |b.deferred| <= |b'.deferred| then b'.deferred[|b.deferred|..] else []
  }

  predicate ServesQueue(b: Book, s: Step) {
    s.Poll? && b.actions != []
  }

  predicate ServesDeferred(b: Book, s: Step)
    requires Enabled(b, s)
  {
    s.Poll? && b.actions == []
  }

  lemma ConnectionsLeaveQueue(b: Book, s: Step)
    requires s.GotConnection? || s.GotAddressChange?
    ensures Next(b, s).actions == b.actions && Next(b, s).deferred == b.deferred
  {
    match s
    case GotConnection(peer, cp, other, now) => P.ConnectQueuesNothing(b, peer, cp, other, now);
    case GotAddressChange(peer, before, after, now) => P.ChangeQueuesNothing(b, peer, before, after, now);
  }

  lemma FailuresDefer(b: Book, s: Step)
    requires s.GotDialFailure?
    ensures Next(b, s).actions == b.actions && b.deferred <= Next(b, s).deferred
  {
  }

  /** A step takes the first dial off the queue, or appends to it. */
  lemma StepOnQueue(b: Book, s: Step)
    requires Enabled(b, s)
    ensures Next(b, s).actions == if ServesQueue(b, s) then b.actions[1..] else b.actions + P.Queued(b, s)
  {
    if s.GotConnection? || s.GotAddressChange? {
      ConnectionsLeaveQueue(b, s);
    } else if s.GotDialFailure? {
      FailuresDefer(b, s);
    } else if s.CallAddAddress? {
      P.AddAddressQueues(b, s.peer, s.addr, s.source, s.now);
    }
  }

  /** A step takes one deferred dial, once the queue is empty, or appends to them. */
  lemma StepOnDeferred(b: Book, s: Step)
    requires Enabled(b, s)
    ensures if ServesDeferred(b, s)
            then multiset(b.deferred) == multiset(Next(b, s).deferred) + multiset{PollDial(b, s.k)}
            else Next(b, s).deferred == b.deferred + Deferred(b, s)
  {
    if s.GotConnection? || s.GotAddressChange? {
      ConnectionsLeaveQueue(b, s);
    } else if s.GotDialFailure? {
      FailuresDefer(b, s);
    } else if ServesDeferred(b, s) {
      TakingOne(b.deferred, s.k);
    }
  }

  lemma TakingOne(ds: seq<DialAction>, k: nat)
    requires k < |ds|
    ensures multiset(ds) == multiset(ds[..k] + ds[k + 1..]) + multiset{ds[k]}
  {
    assert ds == ds[..k] + [ds[k]] + ds[k + 1..];
  }

  // ---- Whole runs -----------------------------------------------------------

  /** Everything queued so far, in order, and everything served from the queue. */
  function QueuedUpTo(run: Run, n: nat): seq<DialAction>
    requires run.Valid() && n < |run.books|
  {
    if n == 0 then []
    else if ServesQueue(run.books[n - 1], run.steps[n - 1]) then QueuedUpTo(run, n - 1)
    else QueuedUpTo(run, n - 1) + P.Queued(run.books[n - 1], run.steps[n - 1])
  }

  function ServedUpTo(run: Run, n: nat): seq<DialAction>
    requires run.Valid() && n < |run.books|
  {
    if n == 0 then []
    else if ServesQueue(run.books[n - 1], run.steps[n - 1])
    then ServedUpTo(run, n - 1) + [PollDial(run.books[n - 1], run.steps[n - 1].k)]
    else ServedUpTo(run, n - 1)
  }

  lemma RunStepOnQueue(run: Run, n: nat)
    requires run.Valid() && 0 < n < |run.books|
    ensures var b, b', s := run.books[n - 1], run.books[n], run.steps[n - 1];
            if ServesQueue(b, s) then b.actions == [PollDial(b, s.k)] + b'.actions
            else b'.actions == b.actions + P.Queued(b, s)
  {
    StepOnQueue(run.books[n - 1], run.steps[n - 1]);
  }

  /** In every run the queue is first in, first out: what has been queued is what has
      been served followed by what is waiting. */
  lemma {:induction false} QueueIsFifo(run: Run, cfg: Config, n: nat)
    requires run.Valid() && run.books[0] == EmptyBook(cfg) && n < |run.books|
    ensures QueuedUpTo(run, n) == ServedUpTo(run, n) + run.books[n].actions
  {
    if n != 0 {
      QueueIsFifo(run, cfg, n - 1);
      RunStepOnQueue(run, n);
    }
  }

  function DeferredUpTo(run: Run, n: nat): multiset<DialAction>
    requires run.Valid() && n < |run.books|
  {
    if n == 0 then multiset{}
    else DeferredUpTo(run, n - 1) + multiset(Deferred(run.books[n - 1], run.steps[n - 1]))
  }

  function RetriedUpTo(run: Run, n: nat): multiset<DialAction>
    requires run.Valid() && n < |run.books|
  {
    if n == 0 then multiset{}
    else if ServesDeferred(run.books[n - 1], run.steps[n - 1])
    then RetriedUpTo(run, n - 1) + multiset{PollDial(run.books[n - 1], run.steps[n - 1].k)}
    else RetriedUpTo(run, n - 1)
  }

  lemma RunStepOnDeferred(run: Run, n: nat)
    requires run.Valid() && 0 < n < |run.books|
    ensures var b, b', s := run.books[n - 1], run.books[n], run.steps[n - 1];
            && (ServesDeferred(b, s) ==>
                  Deferred(b, s) == [] && multiset(b.deferred) == multiset(b'.deferred) + multiset{PollDial(b, s.k)})
            && (!ServesDeferred(b, s) ==> multiset(b'.deferred) == multiset(b.deferred) + multiset(Deferred(b, s)))
  {
    StepOnDeferred(run.books[n - 1], run.steps[n - 1]);
  }

  /** In every run each deferred dial is retried at most once, and none is lost: what has
      been deferred is what has been retried together with what is waiting. */
  lemma {:induction false} DeferredAreConserved(run: Run, cfg: Config, n: nat)
    requires run.Valid() && run.books[0] == EmptyBook(cfg) && n < |run.books|
    ensures DeferredUpTo(run, n) == RetriedUpTo(run, n) + multiset(run.books[n].deferred)
  {
    if n != 0 {
      DeferredAreConserved(run, cfg, n - 1);
      RunStepOnDeferred(run, n);
    }
  }
}
