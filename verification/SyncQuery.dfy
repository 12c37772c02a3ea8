/** The receiving end of a sync query: the `SyncQuery` future. */
module SyncQueries {
  import opened Wrappers
  import opened Routers
  import opened RouterTheorems

  /** `Spins` stands for a poll that does not return: the channel is closed and
      empty, and the loop asks it again and again. */
  datatype PollResult = Ready(outcome: Outcome) | Blocked | Spins

  predicate HasComplete(inbox: seq<Message>) {
    exists i :: 0 <= i < |inbox| && inbox[i].Complete?
  }

  /** The position of the first completion, or the length if there is none. */
  function FirstComplete(inbox: seq<Message>): (n: nat)
    ensures n <= |inbox|
    ensures n < |inbox| ==> inbox[n].Complete?
    ensures forall i :: 0 <= i < n ==> !inbox[i].Complete?
  {
    if inbox == [] || inbox[0].Complete? then 0 else 1 + FirstComplete(inbox[1..])
  }

  lemma {:induction false} FirstCompleteIf(inbox: seq<Message>, n: nat)
    requires n <= |inbox| && forall i :: 0 <= i < n ==> !inbox[i].Complete?
    ensures n == |inbox| || inbox[n].Complete? ==> FirstComplete(inbox) == n
  {
  }

  class SyncQuery {
    /** Messages sent and not yet taken out. */
    var inbox: seq<Message>
    /** Whether the router still holds the sending end. */
    var connected: bool

    constructor (inbox: seq<Message>, connected: bool)
      ensures this.inbox == inbox && this.connected == connected
    {
      this.inbox, this.connected := inbox, connected;
    }

    /** `Future::poll`. */
    method Poll() returns (r: PollResult)
      modifies this`inbox
      ensures r == PollOutcome(old(inbox), connected)
      ensures var n := FirstComplete(old(inbox));
              && (r.Ready? <==> n < |old(inbox)|)
              && (r.Ready? ==> r.outcome == old(inbox)[n].outcome && inbox == old(inbox)[n + 1..])
              && (!r.Ready? ==> inbox == [] && (r.Blocked? <==> connected))
    {
      while true
        invariant |inbox| <= |old(inbox)|
        invariant var k := |old(inbox)| - |inbox|;
                  inbox == old(inbox)[k..] && forall i :: 0 <= i < k ==> !old(inbox)[i].Complete?
        decreases |inbox|
      {
        FirstCompleteIf(old(inbox), |old(inbox)| - |inbox|);
        if inbox == [] {
          return if connected then Blocked else Spins;
        }
        var message := inbox[0];
        inbox := inbox[1..];
        if message.Complete? {
          return Ready(message.outcome);
        }
      }
    }
  }

  /** The result of `poll` as a function of what is in the channel. */
  function PollOutcome(inbox: seq<Message>, connected: bool): PollResult {
    var n := FirstComplete(inbox);
    if n < |inbox| then Ready(inbox[n].outcome) else if connected then Blocked else Spins
  }

  /** A poll spins exactly when the sender is gone and no completion is left. */
  lemma SpinsIff(inbox: seq<Message>, connected: bool)
    ensures PollOutcome(inbox, connected).Spins? <==> !connected && !HasComplete(inbox)
  {
  }

  lemma HeldQuery(r: Router, id: QueryId)
    requires Inv(r) && id in r.hist.handles && r.hist.issued[id].kind == Sync
    ensures var ch := r.hist.issued[id].ch;
            && ch in r.hist.accepted && r.hist.accepted[ch] == Request(Sync, Some(id))
            && (HasFate(r, ch, Fate.Pending) || HasFate(r, ch, Answered) || HasFate(r, ch, Abandoned))
            && (id in r.queries <==> HasFate(r, ch, Fate.Pending))
  {
    assert HasSomeFate(r, r.hist.issued[id].ch);
  }

  lemma OpenLogPolls(log: seq<Message>, read: nat, connected: bool)
    requires IsOpenLog(Sync, log) && read <= |log|
    ensures PollOutcome(log[read..], connected) == if connected then Blocked else Spins
  {
  }

  lemma ClosedLogPolls(log: seq<Message>, read: nat, connected: bool)
    requires IsClosedLog(Sync, log) && read <= |log| && !HasComplete(log[..read])
    ensures read < |log| && PollOutcome(log[read..], connected) == Ready(log[|log| - 1].outcome)
  {
    var last := |log| - 1;
    assert forall i :: 0 <= i < last ==> log[..last][i] == log[i];
    assert HasComplete(log) && log[..|log|] == log;
    assert log[read..][last - read] == log[last];
  }

  /** What a poll of a held sync query does, when only progress has been read from
      it so far. It blocks while the query is stored. It gives the outcome of the
      completion once that has been sent. And it fails to return if and only if the
      loop stopped while the query was pending. */
  lemma HeldSyncQueryPolls(r: Router, id: QueryId, read: nat)
    requires Inv(r) && id in r.hist.handles && r.hist.issued[id].kind == Sync
    requires var log := r.Log(r.hist.issued[id].ch); read <= |log| && !HasComplete(log[..read])
    ensures var ch := r.hist.issued[id].ch;
            var log, outcome := r.Log(ch), PollOutcome(r.Log(ch)[read..], id in r.queries);
            && (outcome.Spins? <==> ch in r.hist.abandoned)
            && (outcome.Blocked? <==> id in r.queries)
            && (outcome.Ready? ==> log != [] && log[|log| - 1] == Complete(outcome.outcome))
  {
    var ch := r.hist.issued[id].ch;
    HeldQuery(r, id);
    if HasFate(r, ch, Answered) {
      ClosedLogPolls(r.Log(ch), read, id in r.queries);
    } else {
      OpenLogPolls(r.Log(ch), read, id in r.queries);
    }
  }

  /** While the loop runs, a held sync query never spins. */
  lemma LiveSyncQueryTerminates(r: Router, id: QueryId, read: nat)
    requires Inv(r) && r.running && id in r.hist.handles && r.hist.issued[id].kind == Sync
    requires var log := r.Log(r.hist.issued[id].ch); read <= |log| && !HasComplete(log[..read])
    ensures !PollOutcome(r.Log(r.hist.issued[id].ch)[read..], id in r.queries).Spins?
  {
    HeldSyncQueryPolls(r, id, read);
  }

  /** The same over runs: the poll spins if and only if some earlier step stopped
      the loop while the query was pending. */
  lemma SpinsIffStoppedWhilePending(run: Run, kad: bool, bitswap: bool, n: nat, id: QueryId, read: nat)
    requires run.Valid() && run.states[0] == NewRouter(kad, bitswap) && n < |run.states|
    requires var r := run.states[n]; id in r.hist.handles && id in r.hist.issued && r.hist.issued[id].kind == Sync
    requires var r := run.states[n];
             var log := r.Log(r.hist.issued[id].ch); read <= |log| && !HasComplete(log[..read])
    ensures var r := run.states[n];
            PollOutcome(r.Log(r.hist.issued[id].ch)[read..], id in r.queries).Spins? <==>
            exists k :: 0 <= k < n && run.steps[k].OnStop? && WasPending(run.states[k], r.hist.issued[id].ch)
  {
    RequestsAreConserved(run, kad, bitswap, n);
    HeldSyncQueryPolls(run.states[n], id, read);
    AbandonedIff(run, kad, bitswap, n, run.states[n].hist.issued[id].ch);
  }

  /** Such a run exists: a sync query is started, and the loop stops. */
  lemma StopWhilePendingIsReachable(kad: bool, ch: ChannelId, n: nat)
    ensures var id := QueryId.Bitswap(n);
            var r0, s0 := NewRouter(kad, true), OnBitswapRequest(Sync, ch, id);
            var r1 := Next(r0, s0);
            var r2 := Next(r1, OnStop);
            && Run([r0, r1, r2], [s0, OnStop]).Valid()
            && id in r2.hist.handles && id in r2.hist.issued && r2.hist.issued[id] == QueryChannel(Sync, ch)
            && PollOutcome(r2.Log(ch), id in r2.queries).Spins?
  {
    var r1 := Next(NewRouter(kad, true), OnBitswapRequest(Sync, ch, QueryId.Bitswap(n)));
    assert Honest(r1, OnStop);
  }

  // ---- Queries without a router ---------------------------------------------

  /** `sync`: what is answered without asking the router. */
  datatype SyncRequest = Immediately(outcome: Outcome) | AskRouter

  function RequestSync(missing: seq<nat>, providers: seq<nat>): SyncRequest {
    if missing == [] then Immediately(Done(0))
    else if providers == [] then Immediately(Failed(missing[0]))
    else AskRouter
  }

  /** The router is asked exactly when blocks are missing and somebody may have
      them. Otherwise the caller gets a query without a sender, whose first poll
      returns, with success exactly when nothing was missing. */
  lemma ReadyQueryReturns(missing: seq<nat>, providers: seq<nat>)
    ensures var r := RequestSync(missing, providers);
            && (r.AskRouter? <==> missing != [] && providers != [])
            && (r.Immediately? ==>
                  && PollOutcome([Complete(r.outcome)], false) == Ready(r.outcome)
                  && r.outcome == if missing == [] then Done(0) else Failed(missing[0]))
  {
  }

  /** Nothing is left for a poll after the one that returned: it would spin. */
  lemma PollAfterCompletionSpins(r: Router, id: QueryId)
    requires Inv(r) && id in r.hist.issued && r.hist.issued[id].kind == Sync
    requires HasFate(r, r.hist.issued[id].ch, Answered)
    ensures var log := r.Log(r.hist.issued[id].ch);
            PollOutcome(log[FirstComplete(log) + 1..], id in r.queries).Spins?
  {
    var ch := r.hist.issued[id].ch;
    var log := r.Log(ch);
    var last := |log| - 1;
    assert forall i :: 0 <= i < last ==> log[..last][i] == log[i];
    assert log[FirstComplete(log) + 1..] == [];
  }
}
