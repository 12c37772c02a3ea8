/** The query handlers as the source writes them: they insert into and remove
    from one table of reply channels. Each is proved to take the router's step, and
    to give its caller what conservation promises: the request at hand ends up in
    the right condition, every other request is left alone, and the invariant is
    kept. */
module Backends {
  import opened Wrappers
  import opened Routers
  import opened RouterTheorems

  class Backend {
    const kad: bool
    const bitswap: bool
    var running: bool
    var bootstrapped: bool
    var queries: map<QueryId, QueryChannel>
    var sent: map<ChannelId, seq<Message>>
    ghost var hist: History

    ghost function Abs(): Router
      reads this
    {
      Router(running, kad, bitswap, bootstrapped, queries, sent, hist)
    }

    /** The table is as conservation demands, and the environment may do this. */
    ghost predicate Expects(s: Step)
      reads this
    {
      Inv(Abs()) && Honest(Abs(), s)
    }

    constructor (kad: bool, bitswap: bool)
      ensures Abs() == NewRouter(kad, bitswap) && Inv(Abs())
    {
      this.kad, this.bitswap := kad, bitswap;
      running, bootstrapped, queries, sent := true, false, map[], map[];
      hist := History(map[], map[], {}, {}, {}, {}, {});
    }

    method SendTo(ch: ChannelId, m: Message)
      modifies this`sent
      ensures Abs() == Send(old(Abs()), ch, m)
    {
      if ch in sent {
        sent := sent[ch := sent[ch] + [m]];
      } else {
        assert [] + [m] == [m];
        sent := sent[ch := [m]];
      }
    }

    method Store(id: QueryId, q: QueryChannel)
      modifies this`queries, this`hist
      ensures Abs() == Insert(old(Abs()), id, q)
    {
      hist := Insert(Abs(), id, q).hist;
      queries := queries[id := q];
    }

    method Bootstrap(ch: ChannelId, started: Option<QueryId>)
      modifies this`queries, this`sent, this`hist
      ensures Abs() == AskBootstrap(old(Abs()), ch, started)
      ensures old(Expects(OnBootstrap(ch, started))) ==>
                && Inv(Abs())
                && IsTaken(old(Abs()), OnBootstrap(ch, started), Abs())
                && LeavesOthers(old(Abs()), Abs(), ch)
    {
      RequestIsExpected(OnBootstrap(ch, started));
      hist := Accept(Abs(), ch, Kind.Bootstrap).hist;
      if kad {
        if started.Some? {
          Store(started.value, QueryChannel(Kind.Bootstrap, ch));
        } else {
          SendTo(ch, Reply(Kind.Bootstrap, Refused(0)));
        }
      } else {
        SendTo(ch, Reply(Kind.Bootstrap, NotBootstrapped));
      }
    }

    /** `provide`, `providers`, `get_record` and `put_record`. */
    method KadRequest(kind: Kind, ch: ChannelId, started: Option<QueryId>)
      modifies this`queries, this`sent, this`hist
      ensures Abs() == AskKad(old(Abs()), kind, ch, started)
      ensures old(Expects(OnKadRequest(kind, ch, started))) ==>
                && Inv(Abs())
                && IsTaken(old(Abs()), OnKadRequest(kind, ch, started), Abs())
                && LeavesOthers(old(Abs()), Abs(), ch)
    {
      RequestIsExpected(OnKadRequest(kind, ch, started));
      hist := Accept(Abs(), ch, kind).hist;
      if bootstrapped {
        if kad {
          if started.Some? {
            Store(started.value, QueryChannel(kind, ch));
          } else {
            SendTo(ch, Reply(kind, Refused(0)));
          }
        } else {
          hist := DropSender(Abs(), ch).hist;
        }
      } else {
        SendTo(ch, Reply(kind, NotBootstrapped));
      }
    }

    /** `get` and `sync`. */
    method BitswapRequest(kind: Kind, ch: ChannelId, id: QueryId)
      requires bitswap
      modifies this`queries, this`hist
      ensures Abs() == AskBitswap(old(Abs()), kind, ch, id)
      ensures old(Expects(OnBitswapRequest(kind, ch, id))) ==>
                && Inv(Abs()) && id in hist.handles
                && IsTaken(old(Abs()), OnBitswapRequest(kind, ch, id), Abs())
                && LeavesOthers(old(Abs()), Abs(), ch)
    {
      RequestIsExpected(OnBitswapRequest(kind, ch, id));
      hist := Accept(Abs(), ch, kind).hist;
      Store(id, QueryChannel(kind, ch));
      hist := hist.(handles := hist.handles + {id});
    }

    lemma RequestIsExpected(s: Step)
      requires IsRequest(s)
      ensures Expects(s) ==>
                && Inv(Next(Abs(), s))
                && IsTaken(Abs(), s, Next(Abs(), s))
                && LeavesOthers(Abs(), Next(Abs(), s), s.ch)
    {
      if Expects(s) {
        StepKeepsInv(Abs(), s);
        RequestsAreTaken(Abs(), s);
      }
    }

    /** `queries.remove(&id)` for a cancel command. */
    method Forget(id: QueryId)
      modifies this`queries, this`hist
      ensures Abs() == Cancel(old(Abs()), id)
    {
      hist := hist.(cancels := hist.cancels - {id});
      if id in queries {
        hist := hist.(cancelled := hist.cancelled + {queries[id].ch});
        queries := queries - {id};
      }
    }

    /** The source unwraps bitswap for the cancel of a bitswap query. Such a query
        was only ever started with bitswap enabled. */
    method CancelQuery(id: QueryId)
      requires Expects(OnCancel(id))
      modifies this`queries, this`hist
      ensures Abs() == Cancel(old(Abs()), id) && Inv(Abs()) && id !in queries
      ensures id in old(queries) ==>
                && old(queries)[id].ch in hist.accepted && HasFate(Abs(), old(queries)[id].ch, Cancelled)
                && LeavesOthers(old(Abs()), Abs(), old(queries)[id].ch)
      ensures id !in old(queries) ==> forall c :: c in old(hist).accepted ==> Untouched(old(Abs()), Abs(), c)
    {
      CancelKeepsInv(Abs(), id);
      CancelEndsOneRequest(Abs(), id);
      if id.Bitswap? {
        assert bitswap;
      }
      Forget(id);
    }

    /** `if let Some(QueryChannel::K(ch)) = queries.remove(&id) { .. }` */
    method FinishKad(id: QueryId, kind: Kind, outcome: Outcome)
      modifies this`queries, this`sent, this`hist
      ensures Abs() == Finish(old(Abs()), id, kind, outcome) && id !in queries
      ensures old(Inv(Abs())) && id in old(queries) && old(queries)[id].kind == kind && kind != Sync ==>
                && Inv(Abs())
                && IsDelivered(old(Abs()), id, outcome, Abs())
    {
      ghost var r := Abs();
      if Inv(r) && id in queries && queries[id].kind == kind && kind != Sync {
        AnswerIsDelivered(r, id, outcome);
        FinishKeepsInv(r, id, kind, outcome);
      }
      if id in queries {
        var q := queries[id];
        queries := queries - {id};
        if q.kind == kind {
          SendTo(q.ch, Reply(kind, outcome));
        } else {
          hist := DropSender(Abs(), q.ch).hist;
        }
      }
    }

    lemma CompletionIsExpected(s: Step)
      requires s.OnKadEvent? || s.OnComplete?
      ensures Expects(s) ==> Inv(Next(Abs(), s))
      ensures Expects(s) && IsCompletion(s) && s.id in queries ==>
                && IsDelivered(Abs(), s.id, OutcomeOf(s), Next(Abs(), s))
                && LeavesOthers(Abs(), Next(Abs(), s), queries[s.id].ch)
    {
      if Expects(s) {
        StepKeepsInv(Abs(), s);
        if IsCompletion(s) && s.id in queries {
          CompletionIsDelivered(Abs(), s);
        }
      }
    }

    /** `inject_kad_event`, with the copy of the shared flag that `poll_swarm`
        writes back when it has changed. */
    method InjectKadEvent(id: QueryId, result: KadResult)
      modifies this
      ensures Abs() == KadCompleted(old(Abs()), id, result)
      ensures bootstrapped <==> old(bootstrapped) || result == Bootstrapping(0)
      ensures old(Expects(OnKadEvent(id, result))) ==> Inv(Abs())
      ensures old(Expects(OnKadEvent(id, result))) && IsCompletion(OnKadEvent(id, result)) && id in old(queries) ==>
                && IsDelivered(old(Abs()), id, OutcomeOf(OnKadEvent(id, result)), Abs())
                && LeavesOthers(old(Abs()), Abs(), old(queries)[id].ch)
    {
      CompletionIsExpected(OnKadEvent(id, result));
      var complete := bootstrapped;
      match result {
        case Bootstrapping(remaining) =>
          if remaining == 0 {
            complete := true;
            FinishKad(id, Kind.Bootstrap, Done(0));
          }
        case Finished(kind, outcome) => FinishKad(id, kind, outcome);
        case Republished =>
      }
      if complete != bootstrapped {
        bootstrapped := complete;
      }
    }

    method InjectProgress(id: QueryId, missing: nat)
      modifies this`sent
      ensures Abs() == BitswapProgress(old(Abs()), id, missing)
      ensures old(Expects(OnProgress(id, missing))) ==> Inv(Abs())
      ensures old(Expects(OnProgress(id, missing))) && id in queries ==>
                && queries[id].ch in hist.accepted && HasFate(Abs(), queries[id].ch, Fate.Pending)
                && LeavesOthers(old(Abs()), Abs(), queries[id].ch)
    {
      ghost var r := Abs();
      if Expects(OnProgress(id, missing)) {
        ProgressKeepsInv(r, id, missing);
        if id in queries {
          ProgressIsDelivered(r, OnProgress(id, missing));
        }
      }
      if id in queries && queries[id].kind == Sync {
        SendTo(queries[id].ch, Progress(missing));
      }
    }

    /** The match on the removed channel. */
    method FinishBitswap(id: QueryId, outcome: Outcome)
      modifies this`queries, this`sent, this`hist
      ensures Abs() == BitswapComplete(old(Abs()), id, outcome) && id !in queries
    {
      if id in queries {
        var q := queries[id];
        queries := queries - {id};
        match q.kind
        case Get => SendTo(q.ch, Reply(Get, outcome));
        case Sync => SendTo(q.ch, Complete(outcome));
        case _ => hist := DropSender(Abs(), q.ch).hist;
      }
    }

    method InjectComplete(id: QueryId, outcome: Outcome)
      modifies this`queries, this`sent, this`hist
      ensures id !in queries && Abs() == BitswapComplete(old(Abs()), id, outcome)
      ensures old(Expects(OnComplete(id, outcome))) ==> Inv(Abs())
      ensures old(Expects(OnComplete(id, outcome))) && id in old(queries) ==>
                && IsDelivered(old(Abs()), id, outcome, Abs())
                && LeavesOthers(old(Abs()), Abs(), old(queries)[id].ch)
    {
      ghost var r := Abs();
      CompletionIsExpected(OnComplete(id, outcome));
      FinishBitswap(id, outcome);
      assert Abs() == Next(r, OnComplete(id, outcome));
    }

    /** `poll_swarm` returns or is dropped, and its table with it. */
    method Shutdown()
      requires Expects(OnStop)
      modifies this`running, this`queries, this`hist
      ensures Abs() == Stop(old(Abs())) && Inv(Abs()) && queries == map[]
      ensures forall c :: c in hist.accepted ==>
                (HasFate(Abs(), c, Abandoned) <==> old(WasPending(Abs(), c)))
    {
      ghost var r := Abs();
      StopKeepsInv(r);
      forall c | c in r.hist.accepted
        ensures HasFate(Stop(r), c, Abandoned) <==> WasPending(r, c)
      {
        StopMeaning(r, c);
      }
      hist := hist.(abandoned := hist.abandoned + StoredChannels(r));
      running, queries := false, map[];
    }
  }
}
