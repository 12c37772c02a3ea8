/** The query router: `poll_swarm` and the query half of the network behaviour.
    Reply channels are numbered; `sent` records what has gone into each. Kademlia
    and bitswap are an environment that hands out fresh query ids and reports
    results of the kind that was asked for. */
module Routers {
  import opened Wrappers

  type ChannelId = nat

  datatype QueryId = Bitswap(n: nat) | Kad(n: nat)

  /** The variants of `QueryChannel`. */
  datatype Kind = Get | Sync | Bootstrap | GetClosestPeers | GetProviders | StartProviding | GetRecord | PutRecord

  datatype QueryChannel = QueryChannel(kind: Kind, ch: ChannelId)

  datatype Outcome = Done(payload: nat) | Failed(error: nat) | NotBootstrapped | Refused(error: nat)

  /** What travels through a channel: one answer, or for a sync query any number
      of progress reports and one completion. */
  datatype Message = Reply(kind: Kind, outcome: Outcome) | Progress(missing: nat) | Complete(outcome: Outcome)

  /** A request that was taken, and the query that was started for it, if any. */
  datatype Request = Request(kind: Kind, query: Option<QueryId>)

  /** Bookkeeping that the source does not have: the requests taken, the queries
      started for them, the handles still held by callers, the cancel commands
      under way, and how senders ended without an answer: by a cancel command,
      with the loop, or in any other way. */
  datatype History = History(
    accepted: map<ChannelId, Request>,
    issued: map<QueryId, QueryChannel>,
    handles: set<QueryId>,
    cancels: set<QueryId>,
    cancelled: set<ChannelId>,
    abandoned: set<ChannelId>,
    dropped: set<ChannelId>)

  datatype Router = Router(
    running: bool,
    kad: bool,
    bitswap: bool,
    bootstrapped: bool,
    queries: map<QueryId, QueryChannel>,
    sent: map<ChannelId, seq<Message>>,
    hist: History)
  {
    function Log(ch: ChannelId): seq<Message> {
      if ch in sent then sent[ch] else []
    }
  }

  function NewRouter(kad: bool, bitswap: bool): Router {
    Router(true, kad, bitswap, false, map[], map[], History(map[], map[], {}, {}, {}, {}, {}))
  }

  function Send(r: Router, ch: ChannelId, m: Message): Router {
    r.(sent := r.sent[ch := r.Log(ch) + [m]])
  }

  function Accept(r: Router, ch: ChannelId, kind: Kind): Router {
    r.(hist := r.hist.(accepted := r.hist.accepted[ch := Request(kind, None)]))
  }

  function DropSender(r: Router, ch: ChannelId): Router {
    r.(hist := r.hist.(dropped := r.hist.dropped + {ch}))
  }

  /** `queries.insert`: a channel that was stored under the id is dropped. */
  function Insert(r: Router, id: QueryId, q: QueryChannel): Router {
    var r1 := if id in r.queries then DropSender(r, r.queries[id].ch) else r;
    r1.(queries := r1.queries[id := q],
    hist := r1.hist.(issued := r1.hist.issued[id := q],
    accepted := r1.hist.accepted[q.ch := Request(q.kind, Some(id))]))
  }

  function Remove(r: Router, id: QueryId): Router {
    r.(queries := r.queries - {id})
  }

  /** `if let Some(QueryChannel::K(ch)) = queries.remove(&id) { ch.send(..) }`: a
      channel of another kind is removed and dropped. */
  function Finish(r: Router, id: QueryId, kind: Kind, outcome: Outcome): Router {
    if id !in r.queries then r
    else
      var q := r.queries[id];
      if q.kind == kind then Send(Remove(r, id), q.ch, Reply(kind, outcome)) else DropSender(Remove(r, id), q.ch)
  }

  // ---- Requests -------------------------------------------------------------

  /** `bootstrap`; `started` is the id, unless Kademlia refuses. */
  function AskBootstrap(r: Router, ch: ChannelId, started: Option<QueryId>): Router {
    var r1 := Accept(r, ch, Bootstrap);
    if r.kad then
      if started.Some? then Insert(r1, started.value, QueryChannel(Bootstrap, ch))
      else Send(r1, ch, Reply(Bootstrap, Refused(0)))
    else Send(r1, ch, Reply(Bootstrap, NotBootstrapped))
  }

  /** `provide`, `providers`, `get_record` and `put_record`. */
  function AskKad(r: Router, kind: Kind, ch: ChannelId, started: Option<QueryId>): Router {
    var r1 := Accept(r, ch, kind);
    if r.bootstrapped then
      if r.kad then
        if started.Some? then Insert(r1, started.value, QueryChannel(kind, ch))
        else Send(r1, ch, Reply(kind, Refused(0)))
      else DropSender(r1, ch)
    else Send(r1, ch, Reply(kind, NotBootstrapped))
  }

  /** `get` and `sync`; the caller receives a handle with the query id. */
  function AskBitswap(r: Router, kind: Kind, ch: ChannelId, id: QueryId): Router {
    var r1 := Insert(Accept(r, ch, kind), id, QueryChannel(kind, ch));
    r1.(hist := r1.hist.(handles := r1.hist.handles + {id}))
  }

  /** Dropping a `GetQuery` or `SyncQuery` tries to enqueue a cancel command. */
  function DropHandle(r: Router, id: QueryId, enqueued: bool): Router {
    r.(hist := r.hist.(handles := r.hist.handles - {id},
    cancels := if enqueued then r.hist.cancels + {id} else r.hist.cancels))
  }

  function Cancel(r: Router, id: QueryId): Router {
    var r1 := r.(hist := r.hist.(cancels := r.hist.cancels - {id}));
    if id in r.queries
    then Remove(r1, id).(hist := r1.hist.(cancelled := r1.hist.cancelled + {r.queries[id].ch}))
    else r1
  }

  // ---- Events ---------------------------------------------------------------

  datatype KadResult =
    | Bootstrapping(remaining: nat)
    | Finished(kind: Kind, outcome: Outcome)
    | Republished

  /** `inject_kad_event` for completed queries. */
  function KadCompleted(r: Router, id: QueryId, result: KadResult): Router {
    match result
    case Bootstrapping(remaining) =>
      if remaining == 0 then Finish(r.(bootstrapped := true), id, Bootstrap, Done(0)) else r
    case Finished(kind, outcome) => Finish(r, id, kind, outcome)
    case Republished => r
  }

  /** `inject_bitswap_event`, progress. */
  function BitswapProgress(r: Router, id: QueryId, missing: nat): Router {
    if id in r.queries && r.queries[id].kind == Sync then Send(r, r.queries[id].ch, Progress(missing)) else r
  }

  /** `inject_bitswap_event`, completion. */
  function BitswapComplete(r: Router, id: QueryId, outcome: Outcome): Router {
    if id !in r.queries then r
    else
      var q := r.queries[id];
      match q.kind
      case Get => Send(Remove(r, id), q.ch, Reply(Get, outcome))
      case Sync => Send(Remove(r, id), q.ch, Complete(outcome))
      case _ => DropSender(Remove(r, id), q.ch)
  }

  // ---- The loop -------------------------------------------------------------

  function StoredChannels(r: Router): set<ChannelId> {
    set id | id in r.queries :: r.queries[id].ch
  }

  /** The loop ends, or its task is dropped together with the last service handle:
      the table and all senders in it are gone. */
  function Stop(r: Router): Router {
    r.(running := false, queries := map[], hist := r.hist.(abandoned := r.hist.abandoned + StoredChannels(r)))
  }

  datatype Step =
    | OnBootstrap(ch: ChannelId, started: Option<QueryId>)
    | OnKadRequest(kind: Kind, ch: ChannelId, started: Option<QueryId>)
    | OnBitswapRequest(kind: Kind, ch: ChannelId, id: QueryId)
    | OnHandleDropped(id: QueryId, enqueued: bool)
    | OnCancel(id: QueryId)
    | OnKadEvent(id: QueryId, result: KadResult)
    | OnProgress(id: QueryId, missing: nat)
    | OnComplete(id: QueryId, outcome: Outcome)
    | OnStop

  predicate IsBitswapKind(kind: Kind) {
    kind == Get || kind == Sync
  }

  predicate IsFreshKad(r: Router, id: Option<QueryId>) {
    id.Some? ==> id.value.Kad? && id.value !in r.hist.issued
  }

  /** Requests bring fresh channels, the protocols issue fresh ids, events come
      from protocols that are enabled, and Kademlia reports the kind it was asked
      for. Looking up providers or records is never refused. Once the loop has
      stopped only handles are dropped, and no cancel command can be enqueued. */
  predicate Honest(r: Router, s: Step) {
    && (!r.running ==> s.OnHandleDropped? && !s.enqueued)
    && match s
    case OnBootstrap(ch, started) => ch !in r.hist.accepted && IsFreshKad(r, started)
    case OnKadRequest(kind, ch, started) =>
      && kind in {StartProviding, GetProviders, GetRecord, PutRecord}
      && ch !in r.hist.accepted && IsFreshKad(r, started)
      && (kind == GetProviders || kind == GetRecord ==> started.Some?)
    case OnBitswapRequest(kind, ch, id) =>
      && r.bitswap && IsBitswapKind(kind) && ch !in r.hist.accepted && id.Bitswap? && id !in r.hist.issued
    case OnHandleDropped(id, _) => id in r.hist.handles
    case OnCancel(id) => id in r.hist.cancels
    case OnKadEvent(id, result) =>
      && r.kad && id.Kad?
      && (id in r.hist.issued ==>
            match result
            case Bootstrapping(_) => r.hist.issued[id].kind == Bootstrap
            case Finished(kind, _) => r.hist.issued[id].kind == kind
            case Republished => false)
    case OnProgress(id, _) => r.bitswap && id.Bitswap?
    case OnComplete(id, _) => r.bitswap && id.Bitswap?
    case OnStop => true
  }

  function Next(r: Router, s: Step): Router {
    match s
    case OnBootstrap(ch, started) => AskBootstrap(r, ch, started)
    case OnKadRequest(kind, ch, started) => AskKad(r, kind, ch, started)
    case OnBitswapRequest(kind, ch, id) => AskBitswap(r, kind, ch, id)
    case OnHandleDropped(id, enqueued) => DropHandle(r, id, enqueued)
    case OnCancel(id) => Cancel(r, id)
    case OnKadEvent(id, result) => KadCompleted(r, id, result)
    case OnProgress(id, missing) => BitswapProgress(r, id, missing)
    case OnComplete(id, outcome) => BitswapComplete(r, id, outcome)
    case OnStop => Stop(r)
  }

  datatype Run = Run(states: seq<Router>, steps: seq<Step>)
  {
    predicate Valid() {
      && |states| == |steps| + 1
      && forall i :: 0 <= i < |steps| ==> Honest(states[i], steps[i]) && states[i + 1] == Next(states[i], steps[i])
    }
  }

  // ---- What becomes of a request --------------------------------------------

  predicate IsFinal(kind: Kind, m: Message) {
    if kind == Sync then m.Complete? else m.Reply? && m.kind == kind
  }

  /** Nothing but progress reports, and those only for a sync query. */
  predicate IsOpenLog(kind: Kind, log: seq<Message>) {
    forall i :: 0 <= i < |log| ==> kind == Sync && log[i].Progress?
  }

  /** Progress reports followed by exactly one answer of the right kind, except
      that a refused request is answered without a query. */
  predicate IsClosedLog(kind: Kind, log: seq<Message>) {
    log != [] && IsOpenLog(kind, log[..|log| - 1]) && IsFinal(kind, log[|log| - 1])
  }

  /** The query of the request is stored. */
  predicate IsPending(r: Router, ch: ChannelId)
    requires ch in r.hist.accepted
  {
    r.hist.accepted[ch].query.Some? && r.hist.accepted[ch].query.value in r.queries
  }

  datatype Fate = Pending | Answered | Cancelled | Abandoned

  /** A request is in exactly one of four conditions; the definitions exclude one
      another. Abandoned is one whose query was stored when the loop stopped. */
  predicate HasFate(r: Router, ch: ChannelId, fate: Fate)
    requires ch in r.hist.accepted
  {
    var kind := r.hist.accepted[ch].kind;
    && (IsPending(r, ch) <==> fate == Pending)
    && (ch in r.hist.cancelled <==> fate == Cancelled)
    && (ch in r.hist.abandoned <==> fate == Abandoned)
    && if fate == Answered then IsClosedLog(kind, r.Log(ch)) else IsOpenLog(kind, r.Log(ch))
  }

  /** Stored channels belong to the request and the kind they were stored for. */
  predicate QueriesMatch(r: Router) {
    && (forall id :: id in r.queries ==> id in r.hist.issued && r.hist.issued[id] == r.queries[id])
    && (forall id :: id in r.hist.issued ==>
          var q := r.hist.issued[id];
          && q.ch in r.hist.accepted && r.hist.accepted[q.ch] == Request(q.kind, Some(id))
          && (IsBitswapKind(q.kind) <==> id.Bitswap?))
    && (forall ch :: ch in r.hist.accepted && r.hist.accepted[ch].query.Some? ==>
          var id := r.hist.accepted[ch].query.value; id in r.hist.issued && r.hist.issued[id].ch == ch)
  }

  predicate HandlesMatch(r: Router) {
    && (forall id :: id in r.hist.handles ==> id in r.hist.issued && id !in r.hist.cancels)
    && (forall id :: id in r.hist.handles ==> r.hist.issued[id].ch !in r.hist.cancelled)
    && r.hist.cancels <= r.hist.issued.Keys
    && r.hist.cancelled <= r.hist.accepted.Keys
    && r.hist.abandoned <= r.hist.accepted.Keys
    && (forall ch :: ch in r.sent ==> ch in r.hist.accepted)
  }

  predicate HasSomeFate(r: Router, ch: ChannelId)
    requires ch in r.hist.accepted
  {
    HasFate(r, ch, Pending) || HasFate(r, ch, Answered) || HasFate(r, ch, Cancelled) || HasFate(r, ch, Abandoned)
  }

  predicate AllDecided(r: Router) {
    forall ch :: ch in r.hist.accepted ==> HasSomeFate(r, ch)
  }

  /** While the loop runs nothing is abandoned; afterwards nothing is stored. */
  predicate LifeIsGood(r: Router) {
    && (r.running ==> r.hist.abandoned == {})
    && (!r.running ==> r.queries == map[])
    && (forall id :: id in r.hist.issued && id.Bitswap? ==> r.bitswap)
  }

  predicate Inv(r: Router) {
    && (r.bootstrapped ==> r.kad)
    && LifeIsGood(r)
    && QueriesMatch(r) && HandlesMatch(r) && AllDecided(r)
    && r.hist.dropped == {}
  }
}

/** Reply-channel conservation, and the shape of the message streams. */
module RouterTheorems {
  import opened Wrappers
  import opened Routers

  lemma FatesExclude(r: Router, ch: ChannelId, f: Fate, g: Fate)
    requires ch in r.hist.accepted && HasFate(r, ch, f) && HasFate(r, ch, g)
    ensures f == g
  {
  }

  // ---- The invariant, operation by operation --------------------------------

  /** Pending requests are those with a channel in `queries`, which is stored
      only once. */
  lemma PendingMeansStored(r: Router, ch: ChannelId)
    requires Inv(r) && ch in r.hist.accepted
    ensures IsPending(r, ch) ==>
              exists id :: id in r.queries && r.queries[id] == QueryChannel(r.hist.accepted[ch].kind, ch)
    ensures forall id :: id in r.queries && r.queries[id].ch == ch ==> r.hist.accepted[ch].query == Some(id)
  {
    if IsPending(r, ch) {
      assert HasSomeFate(r, ch);
      var id := r.hist.accepted[ch].query.value;
      assert r.queries[id] == r.hist.issued[id];
    }
  }

  /** Nothing about request `c` is touched. */
  predicate Untouched(r: Router, r': Router, c: ChannelId) {
    && c in r.hist.accepted && c in r'.hist.accepted && r.hist.accepted[c] == r'.hist.accepted[c]
    && IsPending(r, c) == IsPending(r', c)
    && (c in r.hist.cancelled <==> c in r'.hist.cancelled)
    && (c in r.hist.abandoned <==> c in r'.hist.abandoned)
    && r.Log(c) == r'.Log(c)
  }

  /** It is enough to look at the request that an operation is about. */
  lemma DecidedExcept(r: Router, r': Router, ch: ChannelId)
    requires AllDecided(r) && ch in r'.hist.accepted && HasSomeFate(r', ch)
    requires forall c :: c in r'.hist.accepted && c != ch ==> Untouched(r, r', c)
    ensures AllDecided(r')
  {
    forall c | c in r'.hist.accepted && c != ch
      ensures HasSomeFate(r', c)
    {
      assert Untouched(r, r', c) && HasSomeFate(r, c);
    }
  }

  lemma InsertMatchesQueries(r: Router, kind: Kind, ch: ChannelId, id: QueryId)
    requires QueriesMatch(r) && ch !in r.hist.accepted && id !in r.hist.issued && (IsBitswapKind(kind) <==> id.Bitswap?)
    ensures QueriesMatch(Insert(Accept(r, ch, kind), id, QueryChannel(kind, ch))) && id !in r.queries
  {
    assert forall other :: other in r.hist.issued ==> r.hist.issued[other].ch != ch;
  }

  lemma InsertMatchesHandles(r: Router, kind: Kind, ch: ChannelId, id: QueryId)
    requires HandlesMatch(r) && ch !in r.hist.accepted && id !in r.hist.issued && id !in r.queries
    ensures HandlesMatch(Insert(Accept(r, ch, kind), id, QueryChannel(kind, ch)))
    ensures id !in r.hist.handles && id !in r.hist.cancels
  {
  }

  lemma InsertMatches(r: Router, kind: Kind, ch: ChannelId, id: QueryId)
    requires QueriesMatch(r) && HandlesMatch(r)
    requires ch !in r.hist.accepted && id !in r.hist.issued && (IsBitswapKind(kind) <==> id.Bitswap?)
    ensures var r' := Insert(Accept(r, ch, kind), id, QueryChannel(kind, ch));
            QueriesMatch(r') && HandlesMatch(r') && id !in r.queries && id !in r.hist.handles && id !in r.hist.cancels
  {
    InsertMatchesQueries(r, kind, ch, id);
    InsertMatchesHandles(r, kind, ch, id);
  }

  /** Requests that start a query become pending. */
  lemma InsertKeepsInv(r: Router, kind: Kind, ch: ChannelId, id: QueryId)
    requires Inv(r) && r.running && ch !in r.hist.accepted && id !in r.hist.issued
    requires (IsBitswapKind(kind) <==> id.Bitswap?) && (id.Bitswap? ==> r.bitswap)
    ensures Inv(Insert(Accept(r, ch, kind), id, QueryChannel(kind, ch)))
  {
    var r' := Insert(Accept(r, ch, kind), id, QueryChannel(kind, ch));
    InsertMatches(r, kind, ch, id);
    assert HasFate(r', ch, Fate.Pending);
    DecidedExcept(r, r', ch);
  }

  lemma SendMatches(r: Router, ch: ChannelId, m: Message)
    requires QueriesMatch(r) && HandlesMatch(r) && ch in r.hist.accepted
    ensures QueriesMatch(Send(r, ch, m)) && HandlesMatch(Send(r, ch, m))
  {
  }

  lemma AcceptMatches(r: Router, ch: ChannelId, kind: Kind)
    requires QueriesMatch(r) && HandlesMatch(r) && ch !in r.hist.accepted
    ensures QueriesMatch(Accept(r, ch, kind)) && HandlesMatch(Accept(r, ch, kind))
  {
  }

  lemma RemoveMatches(r: Router, id: QueryId)
    requires QueriesMatch(r) && HandlesMatch(r)
    ensures QueriesMatch(Remove(r, id)) && HandlesMatch(Remove(r, id))
  {
  }

  /** Requests that are turned down are answered at once. */
  lemma TurnDownKeepsInv(r: Router, kind: Kind, ch: ChannelId, outcome: Outcome)
    requires Inv(r) && ch !in r.hist.accepted && kind != Sync
    ensures Inv(Send(Accept(r, ch, kind), ch, Reply(kind, outcome)))
  {
    var r1 := Accept(r, ch, kind);
    AcceptMatches(r, ch, kind);
    SendMatches(r1, ch, Reply(kind, outcome));
    TurnDownDecides(r, kind, ch, outcome);
  }

  lemma TurnDownDecides(r: Router, kind: Kind, ch: ChannelId, outcome: Outcome)
    requires AllDecided(r) && HandlesMatch(r) && ch !in r.hist.accepted && kind != Sync
    ensures AllDecided(Send(Accept(r, ch, kind), ch, Reply(kind, outcome)))
  {
    var r' := Send(Accept(r, ch, kind), ch, Reply(kind, outcome));
    assert r'.Log(ch)[..0] == [];
    assert HasFate(r', ch, Answered);
    DecidedExcept(r, r', ch);
  }

  /** A stored query is open, and the only one of its request. */
  lemma StoredQuery(r: Router, id: QueryId)
    requires Inv(r) && id in r.queries
    ensures var q := r.queries[id];
            && q.ch in r.hist.accepted && r.hist.accepted[q.ch] == Request(q.kind, Some(id))
            && (IsBitswapKind(q.kind) <==> id.Bitswap?)
            && IsWaiting(r, id)
  {
    assert r.queries[id] == r.hist.issued[id];
    assert HasSomeFate(r, r.queries[id].ch);
  }

  lemma OthersUntouched(r: Router, id: QueryId, r': Router)
    requires QueriesMatch(r) && id in r.queries && r'.queries == r.queries - {id}
    requires r'.hist.accepted == r.hist.accepted && r'.hist.abandoned == r.hist.abandoned
    requires forall c :: c != r.queries[id].ch ==> r'.Log(c) == r.Log(c)
    requires forall c :: c != r.queries[id].ch ==> (c in r'.hist.cancelled <==> c in r.hist.cancelled)
    ensures forall c :: c in r.hist.accepted && c != r.queries[id].ch ==> Untouched(r, r', c)
  {
    forall c | c in r.hist.accepted && c != r.queries[id].ch
      ensures Untouched(r, r', c)
    {
      assert r.hist.accepted[c].query != Some(id);
    }
  }

  /** Answering a stored query closes its log. */
  lemma AnswerKeepsInv(r: Router, id: QueryId, m: Message)
    requires Inv(r) && id in r.queries && IsFinal(r.queries[id].kind, m)
    ensures Inv(Send(Remove(r, id), r.queries[id].ch, m))
  {
    StoredQuery(r, id);
    RemoveMatches(r, id);
    SendMatches(Remove(r, id), r.queries[id].ch, m);
    AnswerDecides(r, id, m);
  }

  /** The query is stored, and its request is waiting. */
  predicate IsWaiting(r: Router, id: QueryId) {
    && id in r.queries
    && var q := r.queries[id];
       q.ch in r.hist.accepted && r.hist.accepted[q.ch] == Request(q.kind, Some(id)) && HasFate(r, q.ch, Fate.Pending)
  }

  lemma AnswerCloses(r: Router, id: QueryId, m: Message)
    requires IsWaiting(r, id) && IsFinal(r.queries[id].kind, m)
    ensures var q, r' := r.queries[id], Send(Remove(r, id), r.queries[id].ch, m);
            q.ch in r'.hist.accepted && HasFate(r', q.ch, Answered) && r'.Log(q.ch) == r.Log(q.ch) + [m]
  {
    var ch := r.queries[id].ch;
    assert Send(Remove(r, id), ch, m).Log(ch)[..|r.Log(ch)|] == r.Log(ch);
  }

  lemma AnswerDecides(r: Router, id: QueryId, m: Message)
    requires QueriesMatch(r) && AllDecided(r) && IsWaiting(r, id) && IsFinal(r.queries[id].kind, m)
    ensures AllDecided(Send(Remove(r, id), r.queries[id].ch, m))
  {
    var q := r.queries[id];
    var r' := Send(Remove(r, id), q.ch, m);
    AnswerCloses(r, id, m);
    OthersUntouched(r, id, r');
    DecidedExcept(r, r', q.ch);
  }

  lemma ProgressKeepsInv(r: Router, id: QueryId, missing: nat)
    requires Inv(r)
    ensures Inv(BitswapProgress(r, id, missing))
  {
    if id in r.queries && r.queries[id].kind == Sync {
      StoredQuery(r, id);
      SendMatches(r, r.queries[id].ch, Progress(missing));
      ProgressDecides(r, id, missing);
    }
  }

  lemma ProgressKeepsWaiting(r: Router, id: QueryId, missing: nat)
    requires IsWaiting(r, id) && r.queries[id].kind == Sync
    ensures var ch, r' := r.queries[id].ch, Send(r, r.queries[id].ch, Progress(missing));
            HasFate(r', ch, Fate.Pending) && r'.Log(ch) == r.Log(ch) + [Progress(missing)]
  {
  }

  lemma ProgressDecides(r: Router, id: QueryId, missing: nat)
    requires AllDecided(r) && IsWaiting(r, id) && r.queries[id].kind == Sync
    ensures AllDecided(Send(r, r.queries[id].ch, Progress(missing)))
  {
    ProgressKeepsWaiting(r, id, missing);
    DecidedExcept(r, Send(r, r.queries[id].ch, Progress(missing)), r.queries[id].ch);
  }

  lemma CancelMatches(r: Router, id: QueryId)
    requires QueriesMatch(r) && HandlesMatch(r) && id in r.hist.cancels
    ensures QueriesMatch(Cancel(r, id)) && HandlesMatch(Cancel(r, id))
  {
    if id in r.queries {
      var ch := r.queries[id].ch;
      assert r.hist.accepted[ch].query == Some(id);
      forall h | h in r.hist.handles
        ensures r.hist.issued[h].ch != ch
      {
        assert r.hist.accepted[r.hist.issued[h].ch].query == Some(h);
      }
    }
    assert QueriesMatch(Remove(r, id));
  }

  lemma CancelKeepsLife(r: Router, id: QueryId)
    requires LifeIsGood(r)
    ensures LifeIsGood(Cancel(r, id))
  {
  }

  lemma CancelKeepsInv(r: Router, id: QueryId)
    requires Inv(r) && id in r.hist.cancels
    ensures Inv(Cancel(r, id))
  {
    var r' := Cancel(r, id);
    CancelMatches(r, id);
    CancelKeepsLife(r, id);
    if id in r.queries {
      StoredQuery(r, id);
      CancelDecides(r, id);
    } else {
      AllUntouched(r, r');
    }
  }

  lemma CancelDecides(r: Router, id: QueryId)
    requires QueriesMatch(r) && AllDecided(r) && IsWaiting(r, id)
    ensures AllDecided(Cancel(r, id))
  {
    var ch, r' := r.queries[id].ch, Cancel(r, id);
    assert HasFate(r', ch, Cancelled);
    OthersUntouched(r, id, r');
    DecidedExcept(r, r', ch);
  }

  lemma AllUntouched(r: Router, r': Router)
    requires AllDecided(r) && r'.hist.accepted == r.hist.accepted
    requires r'.queries == r.queries && r'.sent == r.sent
    requires r'.hist.cancelled == r.hist.cancelled && r'.hist.abandoned == r.hist.abandoned
    ensures AllDecided(r')
  {
    forall c | c in r'.hist.accepted
      ensures HasSomeFate(r', c)
    {
      assert Untouched(r, r', c) && HasSomeFate(r, c);
    }
  }

  lemma FinishKeepsInv(r: Router, id: QueryId, kind: Kind, outcome: Outcome)
    requires Inv(r) && kind != Sync && (id in r.queries ==> r.queries[id].kind == kind)
    ensures Inv(Finish(r, id, kind, outcome))
  {
    if id in r.queries {
      AnswerKeepsInv(r, id, Reply(kind, outcome));
    }
  }

  lemma KadEventKeepsInv(r: Router, id: QueryId, result: KadResult)
    requires Inv(r) && Honest(r, OnKadEvent(id, result))
    ensures Inv(KadCompleted(r, id, result))
  {
    match result
    case Bootstrapping(remaining) =>
      if remaining == 0 {
        var r1 := r.(bootstrapped := true);
        AllUntouched(r, r1);
        FinishKeepsInv(r1, id, Bootstrap, Done(0));
      }
    case Finished(kind, outcome) =>
      if id in r.queries {
        StoredQuery(r, id);
        FinishKeepsInv(r, id, kind, outcome);
      }
    case Republished =>
  }

  lemma CompleteKeepsInv(r: Router, id: QueryId, outcome: Outcome)
    requires Inv(r) && id.Bitswap?
    ensures Inv(BitswapComplete(r, id, outcome))
  {
    if id in r.queries {
      StoredQuery(r, id);
      AnswerKeepsInv(r, id, if r.queries[id].kind == Get then Reply(Get, outcome) else Complete(outcome));
    }
  }

  /** What is pending when the loop stops is what is stored. */
  lemma PendingIsStored(r: Router, ch: ChannelId)
    requires QueriesMatch(r) && ch in r.hist.accepted
    ensures ch in StoredChannels(r) <==> IsPending(r, ch)
  {
    if IsPending(r, ch) {
      var id := r.hist.accepted[ch].query.value;
      assert r.queries[id].ch in StoredChannels(r);
    }
  }

  /** Stopping abandons exactly the pending requests. */
  lemma StopMeaning(r: Router, ch: ChannelId)
    requires Inv(r) && r.running && ch in r.hist.accepted
    ensures var r' := Stop(r);
            && HasSomeFate(r', ch)
            && (IsPending(r, ch) <==> HasFate(r', ch, Abandoned))
            && (!IsPending(r, ch) ==> Untouched(r, r', ch))
  {
    assert HasSomeFate(r, ch);
    PendingIsStored(r, ch);
  }

  lemma StopKeepsInv(r: Router)
    requires Inv(r) && r.running
    ensures Inv(Stop(r))
  {
    var r' := Stop(r);
    forall ch | ch in r'.hist.accepted
      ensures HasSomeFate(r', ch)
    {
      StopMeaning(r, ch);
    }
    assert StoredChannels(r) <= r.hist.accepted.Keys;
  }

  lemma HandleStepsKeepInv(r: Router, s: Step)
    requires Inv(r) && Honest(r, s) && (s.OnBitswapRequest? || s.OnHandleDropped?)
    ensures Inv(Next(r, s))
  {
    match s
    case OnBitswapRequest(kind, ch, id) =>
      var r1 := Insert(Accept(r, ch, kind), id, QueryChannel(kind, ch));
      InsertKeepsInv(r, kind, ch, id);
      InsertMatches(r, kind, ch, id);
      AllUntouched(r1, Next(r, s));
    case OnHandleDropped(id, enqueued) => AllUntouched(r, Next(r, s));
  }

  lemma StepKeepsInv(r: Router, s: Step)
    requires Inv(r) && Honest(r, s)
    ensures Inv(Next(r, s))
    ensures r.bootstrapped ==> Next(r, s).bootstrapped
  {
    match s
    case OnBootstrap(ch, started) =>
      if r.kad && started.Some? {
        InsertKeepsInv(r, Bootstrap, ch, started.value);
      } else {
        TurnDownKeepsInv(r, Bootstrap, ch, if r.kad then Refused(0) else NotBootstrapped);
      }
    case OnKadRequest(kind, ch, started) =>
      if r.bootstrapped && started.Some? {
        InsertKeepsInv(r, kind, ch, started.value);
      } else {
        TurnDownKeepsInv(r, kind, ch, if r.bootstrapped then Refused(0) else NotBootstrapped);
      }
    case OnBitswapRequest(_, _, _) => HandleStepsKeepInv(r, s);
    case OnHandleDropped(_, _) => HandleStepsKeepInv(r, s);
    case OnCancel(id) => CancelKeepsInv(r, id);
    case OnKadEvent(id, result) => KadEventKeepsInv(r, id, result);
    case OnProgress(id, missing) => ProgressKeepsInv(r, id, missing);
    case OnComplete(id, outcome) => CompleteKeepsInv(r, id, outcome);
    case OnStop => StopKeepsInv(r);
  }

  /** In every honest run: every accepted request is exactly one of pending,
      answered once, cancelled, and abandoned; none is abandoned while the loop
      runs; no sender is dropped in any other way; stored channels match their
      queries; and bootstrapping implies Kademlia. */
  lemma {:induction false} RequestsAreConserved(run: Run, kad: bool, bitswap: bool, n: nat)
    requires run.Valid() && run.states[0] == NewRouter(kad, bitswap) && n < |run.states|
    ensures Inv(run.states[n])
  {
    if n != 0 {
      RequestsAreConserved(run, kad, bitswap, n - 1);
      StepKeepsInv(run.states[n - 1], run.steps[n - 1]);
    }
  }

  // ---- Decided requests stay as they are ------------------------------------

  predicate IsDecided(r: Router, ch: ChannelId) {
    ch in r.hist.accepted && HasSomeFate(r, ch) && !IsPending(r, ch)
  }

  lemma InsertLeavesOthers(r: Router, kind: Kind, c: ChannelId, id: QueryId, ch: ChannelId)
    requires QueriesMatch(r) && ch in r.hist.accepted && c !in r.hist.accepted && id !in r.hist.issued
    ensures Untouched(r, Insert(Accept(r, c, kind), id, QueryChannel(kind, c)), ch)
  {
    assert r.hist.accepted[ch].query != Some(id);
  }

  lemma TurnDownLeavesOthers(r: Router, kind: Kind, c: ChannelId, m: Message, ch: ChannelId)
    requires QueriesMatch(r) && ch in r.hist.accepted && c !in r.hist.accepted
    ensures Untouched(r, Send(Accept(r, c, kind), c, m), ch)
  {
  }

  lemma DroppingLeavesOthers(r: Router, kind: Kind, c: ChannelId, ch: ChannelId)
    requires QueriesMatch(r) && ch in r.hist.accepted && c !in r.hist.accepted
    ensures Untouched(r, DropSender(Accept(r, c, kind), c), ch)
  {
  }

  lemma BootstrapLeavesOthers(r: Router, c: ChannelId, started: Option<QueryId>, ch: ChannelId)
    requires QueriesMatch(r) && ch in r.hist.accepted && c !in r.hist.accepted && IsFreshKad(r, started)
    ensures Untouched(r, AskBootstrap(r, c, started), ch)
  {
    TurnDownLeavesOthers(r, Bootstrap, c, Reply(Bootstrap, if r.kad then Refused(0) else NotBootstrapped), ch);
    if started.Some? {
      InsertLeavesOthers(r, Bootstrap, c, started.value, ch);
    }
  }

  lemma KadRequestLeavesOthers(r: Router, kind: Kind, c: ChannelId, started: Option<QueryId>, ch: ChannelId)
    requires QueriesMatch(r) && ch in r.hist.accepted && c !in r.hist.accepted && IsFreshKad(r, started)
    ensures Untouched(r, AskKad(r, kind, c, started), ch)
  {
    TurnDownLeavesOthers(r, kind, c, Reply(kind, if r.bootstrapped then Refused(0) else NotBootstrapped), ch);
    DroppingLeavesOthers(r, kind, c, ch);
    if started.Some? {
      InsertLeavesOthers(r, kind, c, started.value, ch);
    }
  }

  lemma BitswapRequestLeavesOthers(r: Router, kind: Kind, c: ChannelId, id: QueryId, ch: ChannelId)
    requires QueriesMatch(r) && ch in r.hist.accepted && c !in r.hist.accepted && id !in r.hist.issued
    ensures Untouched(r, AskBitswap(r, kind, c, id), ch)
  {
    InsertLeavesOthers(r, kind, c, id, ch);
  }

  lemma FinishLeavesOthers(r: Router, id: QueryId, m: Message, ch: ChannelId)
    requires QueriesMatch(r) && id in r.queries && r.queries[id].ch != ch && ch in r.hist.accepted
    ensures Untouched(r, Send(Remove(r, id), r.queries[id].ch, m), ch)
  {
    assert r.hist.accepted[ch].query != Some(id);
  }

  lemma EventLeavesOthers(r: Router, s: Step, ch: ChannelId)
    requires QueriesMatch(r) && Honest(r, s) && ch in r.hist.accepted
    requires s.OnKadEvent? || s.OnProgress? || s.OnComplete?
    requires s.id in r.queries ==> r.queries[s.id].ch != ch
    ensures Untouched(r, Next(r, s), ch)
  {
    if s.id in r.queries {
      assert r.queries[s.id] == r.hist.issued[s.id];
      var kind := r.queries[s.id].kind;
      match s
      case OnKadEvent(id, result) =>
        FinishLeavesOthers(r, id, Reply(kind, if result.Finished? then result.outcome else Done(0)), ch);
      case OnComplete(id, outcome) =>
        FinishLeavesOthers(r, id, if kind == Get then Reply(Get, outcome) else Complete(outcome), ch);
      case OnProgress(_, _) =>
    }
  }

  lemma CancelLeavesOthers(r: Router, id: QueryId, ch: ChannelId)
    requires QueriesMatch(r) && ch in r.hist.accepted && (id in r.queries ==> r.queries[id].ch != ch)
    ensures Untouched(r, Cancel(r, id), ch)
  {
    if id in r.queries {
      assert r.hist.accepted[ch].query != Some(id);
    }
  }

  /** Events only write to channels that are still stored. */
  lemma StepOnDecided(r: Router, s: Step, ch: ChannelId)
    requires Inv(r) && Honest(r, s) && IsDecided(r, ch)
    ensures Untouched(r, Next(r, s), ch)
  {
    if (s.OnKadEvent? || s.OnProgress? || s.OnComplete? || s.OnCancel?) && s.id in r.queries {
      StoredQuery(r, s.id);
    }
    match s
    case OnStop => StopMeaning(r, ch);
    case OnCancel(id) => CancelLeavesOthers(r, id, ch);
    case OnHandleDropped(_, _) =>
    case OnKadEvent(_, _) => EventLeavesOthers(r, s, ch);
    case OnProgress(_, _) => EventLeavesOthers(r, s, ch);
    case OnComplete(_, _) => EventLeavesOthers(r, s, ch);
    case OnBootstrap(c, started) => BootstrapLeavesOthers(r, c, started, ch);
    case OnKadRequest(kind, c, started) => KadRequestLeavesOthers(r, kind, c, started, ch);
    case OnBitswapRequest(kind, c, id) => BitswapRequestLeavesOthers(r, kind, c, id, ch);
  }

  lemma DecidedStays(r: Router, s: Step, ch: ChannelId)
    requires Inv(r) && Honest(r, s) && IsDecided(r, ch)
    ensures var r' := Next(r, s);
            && IsDecided(r', ch) && r'.Log(ch) == r.Log(ch)
            && (ch in r'.hist.cancelled <==> ch in r.hist.cancelled)
            && (ch in r'.hist.abandoned <==> ch in r.hist.abandoned)
  {
    StepOnDecided(r, s, ch);
  }

  /** Nothing is ever sent after an answer, a cancellation or the end of the loop,
      and none of them is taken back. */
  lemma {:induction false} DecidedRequestsStay(run: Run, kad: bool, bitswap: bool, i: nat, j: nat, ch: ChannelId)
    requires run.Valid() && run.states[0] == NewRouter(kad, bitswap) && i <= j < |run.states|
    requires IsDecided(run.states[i], ch)
    ensures IsDecided(run.states[j], ch) && run.states[j].Log(ch) == run.states[i].Log(ch)
    ensures ch in run.states[i].hist.cancelled <==> ch in run.states[j].hist.cancelled
    ensures ch in run.states[i].hist.abandoned <==> ch in run.states[j].hist.abandoned
  {
    if i < j {
      DecidedRequestsStay(run, kad, bitswap, i, j - 1, ch);
      RequestsAreConserved(run, kad, bitswap, j - 1);
      DecidedStays(run.states[j - 1], run.steps[j - 1], ch);
    }
  }

  lemma {:induction false} BootstrappedStays(run: Run, kad: bool, bitswap: bool, i: nat, j: nat)
    requires run.Valid() && run.states[0] == NewRouter(kad, bitswap) && i <= j < |run.states|
    ensures run.states[i].bootstrapped ==> run.states[j].bootstrapped && run.states[j].kad
  {
    if i == j {
      RequestsAreConserved(run, kad, bitswap, j);
    } else {
      BootstrappedStays(run, kad, bitswap, i, j - 1);
      RequestsAreConserved(run, kad, bitswap, j - 1);
      StepKeepsInv(run.states[j - 1], run.steps[j - 1]);
    }
  }

  // ---- What a caller gets ---------------------------------------------------

  /** No request but `ch` notices. */
  predicate LeavesOthers(r: Router, r': Router, ch: ChannelId) {
    forall c :: c in r.hist.accepted && c != ch ==> Untouched(r, r', c)
  }

  predicate IsRequest(s: Step) {
    s.OnBootstrap? || s.OnKadRequest? || s.OnBitswapRequest?
  }

  function KindOf(s: Step): Kind
    requires IsRequest(s)
  {
    if s.OnBootstrap? then Bootstrap else s.kind
  }

  /** Is a query started? Kademlia must be there, and bootstrapped unless that is
      what is asked for. */
  predicate Starts(r: Router, s: Step)
    requires IsRequest(s)
  {
    s.OnBitswapRequest? || (s.started.Some? && if s.OnBootstrap? then r.kad else r.bootstrapped)
  }

  /** A started request waits with an empty channel; any other is answered at once,
      and the answer tells a missing protocol from a refusal. */
  predicate IsTaken(r: Router, s: Step, r': Router)
    requires IsRequest(s)
  {
    && s.ch in r'.hist.accepted && r'.hist.accepted[s.ch].kind == KindOf(s)
    && if Starts(r, s) then HasFate(r', s.ch, Fate.Pending) && r'.Log(s.ch) == []
       else
         && HasFate(r', s.ch, Answered)
         && var reason := if r.kad && (s.OnBootstrap? || r.bootstrapped) then Refused(0) else NotBootstrapped;
            r'.Log(s.ch) == [Reply(KindOf(s), reason)]
  }

  lemma StartedIsPending(r: Router, kind: Kind, ch: ChannelId, id: QueryId)
    requires HandlesMatch(r) && ch !in r.hist.accepted && id !in r.hist.issued
    ensures var r' := Insert(Accept(r, ch, kind), id, QueryChannel(kind, ch));
            HasFate(r', ch, Fate.Pending) && r'.Log(ch) == [] && r'.hist.accepted[ch].kind == kind
  {
  }

  lemma OneReplyCloses(kind: Kind, outcome: Outcome)
    requires kind != Sync
    ensures IsClosedLog(kind, [Reply(kind, outcome)])
  {
    assert [Reply(kind, outcome)][..0] == [];
  }

  lemma TurnedDownIsAnswered(r: Router, kind: Kind, ch: ChannelId, outcome: Outcome)
    requires ch !in r.hist.cancelled && ch !in r.hist.abandoned && ch !in r.sent && kind != Sync
    ensures var r' := Send(Accept(r, ch, kind), ch, Reply(kind, outcome));
            HasFate(r', ch, Answered) && r'.Log(ch) == [Reply(kind, outcome)]
  {
    assert Accept(r, ch, kind).Log(ch) == [];
    assert Send(Accept(r, ch, kind), ch, Reply(kind, outcome)).Log(ch) == [Reply(kind, outcome)];
    OneReplyCloses(kind, outcome);
  }

  lemma BootstrapIsTaken(r: Router, s: Step)
    requires Inv(r) && Honest(r, s) && s.OnBootstrap?
    ensures IsTaken(r, s, Next(r, s))
  {
    if Starts(r, s) {
      StartedIsPending(r, Bootstrap, s.ch, s.started.value);
    } else {
      TurnedDownIsAnswered(r, Bootstrap, s.ch, if r.kad then Refused(0) else NotBootstrapped);
    }
  }

  lemma KadRequestIsTaken(r: Router, s: Step)
    requires Inv(r) && Honest(r, s) && s.OnKadRequest?
    ensures IsTaken(r, s, Next(r, s))
  {
    if Starts(r, s) {
      StartedIsPending(r, s.kind, s.ch, s.started.value);
    } else {
      TurnedDownIsAnswered(r, s.kind, s.ch, if r.bootstrapped then Refused(0) else NotBootstrapped);
    }
  }

  lemma BitswapRequestIsTaken(r: Router, s: Step)
    requires Inv(r) && Honest(r, s) && s.OnBitswapRequest?
    ensures IsTaken(r, s, Next(r, s)) && s.id in Next(r, s).hist.handles
  {
    StartedIsPending(r, s.kind, s.ch, s.id);
  }

  lemma DroppingHandlesIsSilent(r: Router, id: QueryId, enqueued: bool, c: ChannelId)
    requires c in r.hist.accepted
    ensures Untouched(r, DropHandle(r, id, enqueued), c)
  {
  }

  /** Dropping a handle changes no request by itself. If there is room for the cancel
      command it is sent, and executing it ends the request. */
  lemma DroppedHandleIsCancelled(r: Router, id: QueryId)
    requires r.running && id in r.hist.handles
    ensures var r1 := DropHandle(r, id, true);
            && id !in r1.hist.handles && Honest(r1, OnCancel(id))
            && id !in Cancel(r1, id).queries
            && (id in r.queries ==> r.queries[id].ch in Cancel(r1, id).hist.cancelled)
  {
  }

  /** Every request is taken, and disturbs no other. */
  lemma RequestsAreTaken(r: Router, s: Step)
    requires Inv(r) && Honest(r, s) && IsRequest(s)
    ensures IsTaken(r, s, Next(r, s)) && LeavesOthers(r, Next(r, s), s.ch)
  {
    match s {
      case OnBootstrap(_, _) => BootstrapIsTaken(r, s);
      case OnKadRequest(_, _, _) => KadRequestIsTaken(r, s);
      case OnBitswapRequest(_, _, _) => BitswapRequestIsTaken(r, s);
    }
    forall c | c in r.hist.accepted
      ensures Untouched(r, Next(r, s), c)
    {
      RequestLeavesOthers(r, s, c);
    }
  }

  lemma RequestLeavesOthers(r: Router, s: Step, c: ChannelId)
    requires QueriesMatch(r) && Honest(r, s) && IsRequest(s) && c in r.hist.accepted
    ensures Untouched(r, Next(r, s), c)
  {
    match s
    case OnBootstrap(ch, started) => BootstrapLeavesOthers(r, ch, started, c);
    case OnKadRequest(kind, ch, started) => KadRequestLeavesOthers(r, kind, ch, started, c);
    case OnBitswapRequest(kind, ch, id) => BitswapRequestLeavesOthers(r, kind, ch, id, c);
  }

  /** Events that finish a query: a bootstrap counts once nothing remains. */
  predicate IsCompletion(s: Step) {
    s.OnComplete? || (s.OnKadEvent? && (s.result.Finished? || s.result == Bootstrapping(0)))
  }

  /** The outcome that such an event reports. */
  function OutcomeOf(s: Step): Outcome
    requires IsCompletion(s)
  {
    if s.OnComplete? then s.outcome else if s.result.Finished? then s.result.outcome else Done(0)
  }

  /** The answer a query of the given kind calls for. */
  function AnswerOf(kind: Kind, outcome: Outcome): Message {
    if kind == Sync then Complete(outcome) else Reply(kind, outcome)
  }

  /** The answer is in the channel of the query, as its last message. */
  predicate IsDelivered(r: Router, id: QueryId, outcome: Outcome, r': Router)
    requires id in r.queries
  {
    var q := r.queries[id];
    && id !in r'.queries && q.ch in r'.hist.accepted && HasFate(r', q.ch, Answered)
    && r'.Log(q.ch) == r.Log(q.ch) + [AnswerOf(q.kind, outcome)]
  }

  lemma AnswerIsDelivered(r: Router, id: QueryId, outcome: Outcome)
    requires Inv(r) && id in r.queries
    ensures var q := r.queries[id];
            IsDelivered(r, id, outcome, Send(Remove(r, id), q.ch, AnswerOf(q.kind, outcome)))
  {
    StoredQuery(r, id);
    AnswerCloses(r, id, AnswerOf(r.queries[id].kind, outcome));
  }

  /** A completion takes the stored query out and sends its outcome, as the
      answer that the query's kind calls for, into that query's channel, and into
      no other. A bootstrap that succeeds is remembered as well. */
  lemma CompletionIsDelivered(r: Router, s: Step)
    requires Inv(r) && Honest(r, s) && IsCompletion(s) && s.id in r.queries
    ensures IsDelivered(r, s.id, OutcomeOf(s), Next(r, s))
    ensures LeavesOthers(r, Next(r, s), r.queries[s.id].ch)
    ensures s.OnKadEvent? && s.result.Bootstrapping? ==> Next(r, s).bootstrapped
  {
    StoredQuery(r, s.id);
    var q, outcome := r.queries[s.id], OutcomeOf(s);
    AnswerIsDelivered(r, s.id, outcome);
    CompletionSends(r, s);
    EventLeavesAllOthers(r, s);
  }

  lemma CompletionSends(r: Router, s: Step)
    requires QueriesMatch(r) && Honest(r, s) && IsCompletion(s) && s.id in r.queries
    ensures var q := r.queries[s.id];
            var sent := Send(Remove(r, s.id), q.ch, AnswerOf(q.kind, OutcomeOf(s)));
            Next(r, s) == if s.OnKadEvent? && s.result.Bootstrapping? then sent.(bootstrapped := true) else sent
  {
    assert r.queries[s.id] == r.hist.issued[s.id];
  }

  lemma EventLeavesAllOthers(r: Router, s: Step)
    requires QueriesMatch(r) && Honest(r, s) && (s.OnKadEvent? || s.OnProgress? || s.OnComplete?) && s.id in r.queries
    ensures LeavesOthers(r, Next(r, s), r.queries[s.id].ch)
  {
    forall c | c in r.hist.accepted && c != r.queries[s.id].ch
      ensures Untouched(r, Next(r, s), c)
    {
      EventLeavesOthers(r, s, c);
    }
  }

  /** Progress goes to a stored sync query, which stays pending. */
  lemma ProgressIsDelivered(r: Router, s: Step)
    requires Inv(r) && Honest(r, s) && s.OnProgress? && s.id in r.queries
    ensures var q, r' := r.queries[s.id], Next(r, s);
            && q.ch in r'.hist.accepted && HasFate(r', q.ch, Fate.Pending)
            && r'.Log(q.ch) == r.Log(q.ch) + (if q.kind == Sync then [Progress(s.missing)] else [])
            && LeavesOthers(r, r', q.ch)
  {
    StoredQuery(r, s.id);
    EventLeavesAllOthers(r, s);
    if r.queries[s.id].kind == Sync {
      ProgressKeepsWaiting(r, s.id, s.missing);
    } else {
      assert r.Log(r.queries[s.id].ch) + [] == r.Log(r.queries[s.id].ch);
    }
  }

  /** A cancel command ends the one request of its query, if that is pending, and
      nothing else. */
  lemma CancelEndsOneRequest(r: Router, id: QueryId)
    requires Inv(r) && id in r.hist.cancels
    ensures var r' := Cancel(r, id);
            if id in r.queries then
              var ch := r.queries[id].ch;
              && ch in r.hist.accepted && HasFate(r, ch, Fate.Pending)
              && ch in r'.hist.accepted && HasFate(r', ch, Cancelled) && r'.Log(ch) == r.Log(ch)
              && LeavesOthers(r, r', ch)
            else forall c :: c in r.hist.accepted ==> Untouched(r, r', c)
    ensures id !in Cancel(r, id).queries
  {
    if id in r.queries {
      StoredQuery(r, id);
    }
    forall c | c in r.hist.accepted && (id in r.queries ==> c != r.queries[id].ch)
      ensures Untouched(r, Cancel(r, id), c)
    {
      CancelLeavesOthers(r, id, c);
    }
  }

  /** In every honest run the abandoned requests are those that were pending when
      the loop stopped. */
  lemma {:induction false} AbandonedIff(run: Run, kad: bool, bitswap: bool, n: nat, ch: ChannelId)
    requires run.Valid() && run.states[0] == NewRouter(kad, bitswap) && n < |run.states|
    ensures ch in run.states[n].hist.abandoned <==>
            exists k :: 0 <= k < n && run.steps[k].OnStop? && WasPending(run.states[k], ch)
  {
    if n != 0 {
      AbandonedIff(run, kad, bitswap, n - 1, ch);
      RequestsAreConserved(run, kad, bitswap, n - 1);
      StepAbandons(run.states[n - 1], run.steps[n - 1], ch);
    }
  }

  predicate WasPending(r: Router, ch: ChannelId) {
    ch in r.hist.accepted && IsPending(r, ch)
  }

  lemma RequestsAbandonNothing(r: Router, s: Step)
    requires IsRequest(s)
    ensures Next(r, s).hist.abandoned == r.hist.abandoned
  {
  }

  lemma FinishAbandonsNothing(r: Router, id: QueryId, kind: Kind, outcome: Outcome)
    ensures Finish(r, id, kind, outcome).hist.abandoned == r.hist.abandoned
  {
  }

  lemma BitswapAbandonsNothing(r: Router, id: QueryId, outcome: Outcome, missing: nat)
    ensures BitswapComplete(r, id, outcome).hist.abandoned == r.hist.abandoned
    ensures BitswapProgress(r, id, missing).hist.abandoned == r.hist.abandoned
  {
  }

  lemma EventsAbandonNothing(r: Router, s: Step)
    requires !IsRequest(s) && !s.OnStop?
    ensures Next(r, s).hist.abandoned == r.hist.abandoned
  {
    match s
    case OnKadEvent(id, result) =>
      FinishAbandonsNothing(r.(bootstrapped := true), id, Bootstrap, Done(0));
      if result.Finished? {
        FinishAbandonsNothing(r, id, result.kind, result.outcome);
      }
    case OnComplete(id, outcome) => BitswapAbandonsNothing(r, id, outcome, 0);
    case OnProgress(id, missing) => BitswapAbandonsNothing(r, id, Done(0), missing);
    case _ =>
  }

  lemma StepAbandons(r: Router, s: Step, ch: ChannelId)
    requires Inv(r) && Honest(r, s)
    ensures ch in Next(r, s).hist.abandoned <==> ch in r.hist.abandoned || (s.OnStop? && WasPending(r, ch))
  {
    if s.OnStop? {
      assert StoredChannels(r) <= r.hist.accepted.Keys;
      if ch in r.hist.accepted {
        PendingIsStored(r, ch);
      }
    } else if IsRequest(s) {
      RequestsAbandonNothing(r, s);
    } else {
      EventsAbandonNothing(r, s);
    }
  }

  // ---- Bootstrapping --------------------------------------------------------

  /** The report that ends a bootstrap. Reports of rounds that leave work do not. */
  predicate EndsBootstrap(s: Step) {
    s.OnKadEvent? && s.result == Bootstrapping(0)
  }

  lemma RequestsKeepBootstrapped(r: Router, s: Step)
    requires IsRequest(s)
    ensures Next(r, s).bootstrapped == r.bootstrapped
  {
  }

  lemma FinishKeepsBootstrapped(r: Router, id: QueryId, kind: Kind, outcome: Outcome)
    ensures Finish(r, id, kind, outcome).bootstrapped == r.bootstrapped
  {
  }

  lemma BitswapKeepsBootstrapped(r: Router, id: QueryId, outcome: Outcome, missing: nat)
    ensures BitswapComplete(r, id, outcome).bootstrapped == r.bootstrapped
    ensures BitswapProgress(r, id, missing).bootstrapped == r.bootstrapped
  {
  }

  /** One step sets the flag if and only if it reports a bootstrap with nothing left,
      whether or not anybody waits for it. */
  lemma StepBootstraps(r: Router, s: Step)
    ensures Next(r, s).bootstrapped <==> r.bootstrapped || EndsBootstrap(s)
  {
    if IsRequest(s) {
      RequestsKeepBootstrapped(r, s);
    } else {
      match s
      case OnKadEvent(id, result) =>
        FinishKeepsBootstrapped(r.(bootstrapped := true), id, Bootstrap, Done(0));
        if result.Finished? {
          FinishKeepsBootstrapped(r, id, result.kind, result.outcome);
        }
      case OnComplete(id, outcome) => BitswapKeepsBootstrapped(r, id, outcome, 0);
      case OnProgress(id, missing) => BitswapKeepsBootstrapped(r, id, Done(0), missing);
      case _ =>
    }
  }

  /** In every run the router is bootstrapped if and only if some step has reported a
      bootstrap with nothing left. */
  lemma {:induction false} BootstrappedIff(run: Run, kad: bool, bitswap: bool, n: nat)
    requires run.Valid() && run.states[0] == NewRouter(kad, bitswap) && n < |run.states|
    ensures run.states[n].bootstrapped <==> exists k :: 0 <= k < n && EndsBootstrap(run.steps[k])
  {
    if n != 0 {
      BootstrappedIff(run, kad, bitswap, n - 1);
      StepBootstraps(run.states[n - 1], run.steps[n - 1]);
    }
  }
}
