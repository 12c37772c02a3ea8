/** Topic subscriptions: local subscriber lists against the subscriptions held in
    gossipsub and broadcast, and what each receiver gets. */
module Subscriptions {
  import opened Wrappers
  import opened Orders

  type Topic = string
  type Rx = nat

  datatype GossipEvent = Subscribed(peer: nat) | Message(peer: nat, data: seq<nat>) | Unsubscribed(peer: nat)

  /** When a receiver came in: its topic, and the events published before. */
  datatype Origin = Origin(topic: Topic, from: nat)

  /** A protocol is disabled, or holds a set of subscribed topics. `published`
      and `origins` are bookkeeping that the source does not have. */
  datatype Hub = Hub(
    gossip: Option<set<Topic>>,
    broadcast: Option<set<Topic>>,
    subs: map<Topic, seq<Rx>>,
    live: set<Rx>,
    inboxes: map<Rx, seq<GossipEvent>>,
    published: map<Topic, seq<GossipEvent>>,
    origins: map<Rx, Origin>)
  {
    function Inbox(rx: Rx): seq<GossipEvent> {
      if rx in inboxes then inboxes[rx] else []
    }

    function Published(topic: Topic): seq<GossipEvent> {
      if topic in published then published[topic] else []
    }
  }

  function NewHub(gossip: bool, broadcast: bool): Hub {
    Hub(if gossip then Some({}) else None, if broadcast then Some({}) else None, map[], {}, map[], map[], map[])
  }

  function Register(h: Hub, topic: Topic, rx: Rx): Hub {
    h.(live := h.live + {rx}, origins := h.origins[rx := Origin(topic, |h.Published(topic)|)])
  }

  function With(topics: Option<set<Topic>>, topic: Topic): Option<set<Topic>> {
    if topics.Some? then Some(topics.value + {topic}) else None
  }

  function Without(topics: Option<set<Topic>>, topic: Topic): Option<set<Topic>> {
    if topics.Some? then Some(topics.value - {topic}) else None
  }

  /** `subscribe`; `ok` says whether gossipsub accepts. On failure the caller gets
      no receiver, but the sender has already been stored. */
  function SubscribeTo(h: Hub, topic: Topic, rx: Rx, ok: bool): Hub {
    if h.gossip.None? && h.broadcast.None? then h
    else if topic in h.subs then Register(h, topic, rx).(subs := h.subs[topic := h.subs[topic] + [rx]])
    else
      var h1 := h.(subs := h.subs[topic := [rx]]);
      if h.gossip.Some? && !ok then h1.(origins := h.origins[rx := Origin(topic, |h.Published(topic)|)])
      else Register(h1, topic, rx).(gossip := With(h.gossip, topic), broadcast := With(h.broadcast, topic))
  }

  /** `retain(|s| s.unbounded_send(..).is_ok())`: who stays, and who gets it. */
  function Retained(rxs: seq<Rx>, live: set<Rx>): seq<Rx> {
    if rxs == [] then []
    else Retained(rxs[..|rxs| - 1], live) + if rxs[|rxs| - 1] in live then [rxs[|rxs| - 1]] else []
  }

  function Deliver(inboxes: map<Rx, seq<GossipEvent>>, rxs: seq<Rx>, live: set<Rx>,
                   e: GossipEvent): map<Rx, seq<GossipEvent>> {
    if rxs == [] then inboxes
    else
      var before, rx := Deliver(inboxes, rxs[..|rxs| - 1], live, e), rxs[|rxs| - 1];
      if rx in live then before[rx := (if rx in before then before[rx] else []) + [e]] else before
  }

  /** `notify_subscribers`; `ok` says whether gossipsub lets go of the topic when
      the last subscriber has left. */
  function Publish(h: Hub, topic: Topic, e: GossipEvent, ok: bool): Hub {
    var h1 := h.(published := h.published[topic := h.Published(topic) + [e]]);
    if topic !in h.subs then h1
    else
      var rest := Retained(h.subs[topic], h.live);
      var h2 := h1.(inboxes := Deliver(h.inboxes, h.subs[topic], h.live, e));
      if rest != [] then h2.(subs := h.subs[topic := rest])
      else
        h2.(subs := h.subs - {topic}, broadcast := Without(h.broadcast, topic),
        gossip := if ok then Without(h.gossip, topic) else h.gossip)
  }

  datatype Step =
    | OnSubscribe(topic: Topic, rx: Rx, ok: bool)
    | OnEvent(topic: Topic, event: GossipEvent, ok: bool)
    | OnReceiverDropped(rx: Rx)

  predicate Enabled(h: Hub, s: Step) {
    s.OnSubscribe? ==> s.rx !in h.origins
  }

  function Next(h: Hub, s: Step): Hub {
    match s
    case OnSubscribe(topic, rx, ok) => SubscribeTo(h, topic, rx, ok)
    case OnEvent(topic, e, ok) => Publish(h, topic, e, ok)
    case OnReceiverDropped(rx) => h.(live := h.live - {rx})
  }

  datatype Run = Run(states: seq<Hub>, steps: seq<Step>)
  {
    predicate Valid() {
      && |states| == |steps| + 1
      && forall i :: 0 <= i < |steps| ==> Enabled(states[i], steps[i]) && states[i + 1] == Next(states[i], steps[i])
    }
  }

  // ---- Delivery -------------------------------------------------------------

  /** Each list is nonempty, without duplicates, and of its own topic. */
  predicate ListsAreGood(h: Hub) {
    forall t :: t in h.subs ==>
      && h.subs[t] != [] && NoDuplicates(h.subs[t])
      && forall rx :: rx in h.subs[t] ==> rx in h.origins && h.origins[rx].topic == t
  }

  /** A live receiver has exactly the events of its topic since it came in. */
  predicate IsServed(h: Hub, rx: Rx)
    requires rx in h.origins
  {
    var o := h.origins[rx];
    && o.topic in h.subs && rx in h.subs[o.topic]
    && o.from <= |h.Published(o.topic)|
    && h.Inbox(rx) == h.Published(o.topic)[o.from..]
  }

  predicate Inv(h: Hub) {
    && ListsAreGood(h)
    && (forall rx :: rx in h.live ==> rx in h.origins && IsServed(h, rx))
    && (forall rx :: rx in h.inboxes ==> rx in h.origins)
  }

  lemma {:induction false} RetainedMeaning(rxs: seq<Rx>, live: set<Rx>)
    requires NoDuplicates(rxs)
    ensures NoDuplicates(Retained(rxs, live))
    ensures forall rx :: rx in Retained(rxs, live) <==> rx in rxs && rx in live
  {
    if rxs != [] {
      var init, x := rxs[..|rxs| - 1], rxs[|rxs| - 1];
      RetainedMeaning(init, live);
      assert rxs == init + [x];
      assert x !in init;
    }
  }

  lemma {:induction false} DeliverMeaning(inboxes: map<Rx, seq<GossipEvent>>, rxs: seq<Rx>, live: set<Rx>,
                                          e: GossipEvent, rx: Rx)
    requires NoDuplicates(rxs)
    ensures var after := Deliver(inboxes, rxs, live, e);
            var before := if rx in inboxes then inboxes[rx] else [];
            && (rx in after <==> rx in inboxes || (rx in rxs && rx in live))
            && (rx in after ==> after[rx] == if rx in rxs && rx in live then before + [e] else before)
  {
    if rxs != [] {
      var init, x := rxs[..|rxs| - 1], rxs[|rxs| - 1];
      DeliverMeaning(inboxes, init, live, e, rx);
      assert rxs == init + [x];
      assert x !in init;
    }
  }

  lemma SubscribeKeepsLists(h: Hub, topic: Topic, rx: Rx, ok: bool)
    requires ListsAreGood(h) && rx !in h.origins
    ensures ListsAreGood(SubscribeTo(h, topic, rx, ok))
  {
    var h' := SubscribeTo(h, topic, rx, ok);
    if topic in h.subs {
      assert rx !in h.subs[topic];
    }
    assert forall t :: t in h.subs && t != topic ==> t in h'.subs && h'.subs[t] == h.subs[t];
  }

  lemma NewcomerIsServed(h: Hub, topic: Topic, rx: Rx, ok: bool)
    requires rx !in h.inboxes && rx !in h.live && rx in SubscribeTo(h, topic, rx, ok).live
    ensures var h' := SubscribeTo(h, topic, rx, ok); rx in h'.origins && IsServed(h', rx)
  {
    var h' := SubscribeTo(h, topic, rx, ok);
    assert h'.origins[rx] == Origin(topic, |h.Published(topic)|);
    assert h.Published(topic)[|h.Published(topic)|..] == [];
    assert h'.subs[topic][|h'.subs[topic]| - 1] == rx;
  }

  lemma OthersAreServed(h: Hub, topic: Topic, rx: Rx, ok: bool, x: Rx)
    requires x in h.origins && IsServed(h, x) && x != rx
    ensures var h' := SubscribeTo(h, topic, rx, ok); x in h'.origins && IsServed(h', x)
  {
    var h' := SubscribeTo(h, topic, rx, ok);
    var t := h.origins[x].topic;
    assert h'.Published(t) == h.Published(t) && h'.Inbox(x) == h.Inbox(x) && h'.origins[x] == h.origins[x];
    assert t in h'.subs && h.subs[t] <= h'.subs[t];
  }

  lemma SubscribeServes(h: Hub, topic: Topic, rx: Rx, ok: bool, x: Rx)
    requires Inv(h) && rx !in h.origins && x in SubscribeTo(h, topic, rx, ok).live
    ensures var h' := SubscribeTo(h, topic, rx, ok); x in h'.origins && IsServed(h', x)
  {
    if x == rx {
      NewcomerIsServed(h, topic, rx, ok);
    } else {
      OthersAreServed(h, topic, rx, ok, x);
    }
  }

  lemma SubscribeKeepsInv(h: Hub, topic: Topic, rx: Rx, ok: bool)
    requires Inv(h) && rx !in h.origins
    ensures Inv(SubscribeTo(h, topic, rx, ok))
  {
    SubscribeKeepsLists(h, topic, rx, ok);
    forall x | x in SubscribeTo(h, topic, rx, ok).live
      ensures var h' := SubscribeTo(h, topic, rx, ok); x in h'.origins && IsServed(h', x)
    {
      SubscribeServes(h, topic, rx, ok, x);
    }
  }

  lemma PublishServes(h: Hub, topic: Topic, e: GossipEvent, ok: bool, rx: Rx)
    requires Inv(h) && rx in h.live
    ensures rx in h.origins && IsServed(Publish(h, topic, e, ok), rx)
  {
    var h' := Publish(h, topic, e, ok);
    var o := h.origins[rx];
    if topic in h.subs {
      RetainedMeaning(h.subs[topic], h.live);
      DeliverMeaning(h.inboxes, h.subs[topic], h.live, e, rx);
    }
    if o.topic == topic {
      assert h'.Published(topic)[o.from..] == h.Published(topic)[o.from..] + [e];
    }
  }

  lemma PublishKeepsLists(h: Hub, topic: Topic, e: GossipEvent, ok: bool)
    requires Inv(h)
    ensures ListsAreGood(Publish(h, topic, e, ok))
    ensures forall rx :: rx in Publish(h, topic, e, ok).inboxes ==> rx in h.origins
  {
    if topic in h.subs {
      RetainedMeaning(h.subs[topic], h.live);
      forall rx | rx in Publish(h, topic, e, ok).inboxes
        ensures rx in h.origins
      {
        DeliverMeaning(h.inboxes, h.subs[topic], h.live, e, rx);
      }
    }
  }

  lemma StepKeepsInv(h: Hub, s: Step)
    requires Inv(h) && Enabled(h, s)
    ensures Inv(Next(h, s))
  {
    match s
    case OnSubscribe(topic, rx, ok) => SubscribeKeepsInv(h, topic, rx, ok);
    case OnEvent(topic, e, ok) =>
      PublishKeepsLists(h, topic, e, ok);
      forall rx | rx in h.live
        ensures rx in h.origins && IsServed(Publish(h, topic, e, ok), rx)
      {
        PublishServes(h, topic, e, ok, rx);
      }
    case OnReceiverDropped(_) =>
  }

  /** In every run, also when gossipsub refuses, subscriber lists are nonempty
      and every live receiver has got every event of its topic since it
      subscribed, exactly once and in order. */
  lemma {:induction false} ReceiversGetEverything(run: Run, gossip: bool, broadcast: bool, n: nat)
    requires run.Valid() && run.states[0] == NewHub(gossip, broadcast) && n < |run.states|
    ensures Inv(run.states[n])
  {
    if n != 0 {
      ReceiversGetEverything(run, gossip, broadcast, n - 1);
      StepKeepsInv(run.states[n - 1], run.steps[n - 1]);
    }
  }

  /** A subscriber gets a receiver if and only if some protocol is enabled and, for a
      topic that is new here, gossipsub accepts it or is not asked. */
  predicate Accepts(h: Hub, topic: Topic, ok: bool) {
    (h.gossip.Some? || h.broadcast.Some?) && (topic in h.subs || h.gossip.None? || ok)
  }

  lemma SubscribeAcceptsIff(h: Hub, topic: Topic, rx: Rx, ok: bool)
    requires rx !in h.live
    ensures var h' := SubscribeTo(h, topic, rx, ok);
            && h'.live == (if Accepts(h, topic, ok) then h.live + {rx} else h.live)
            && (Accepts(h, topic, ok) ==> topic in h'.subs && rx in h'.subs[topic])
            && (Accepts(h, topic, ok) ==> rx in h'.origins && h'.origins[rx] == Origin(topic, |h.Published(topic)|))
  {
  }

  // ---- Agreement with the protocols -----------------------------------------

  predicate Agrees(h: Hub) {
    && (h.gossip.Some? ==> h.gossip.value == h.subs.Keys)
    && (h.broadcast.Some? ==> h.broadcast.value == h.subs.Keys)
  }

  /** Gossipsub refuses a new topic, or fails to give up an abandoned one. */
  predicate Breaks(h: Hub, s: Step) {
    match s
    case OnSubscribe(topic, _, ok) => h.gossip.Some? && topic !in h.subs && !ok
    case OnEvent(topic, _, ok) => h.gossip.Some? && topic in h.subs && Retained(h.subs[topic], h.live) == [] && !ok
    case OnReceiverDropped(_) => false
  }

  /** One step breaks the agreement if and only if gossipsub fails in it. */
  lemma AgreementBreaksIff(h: Hub, s: Step)
    requires Agrees(h)
    ensures Agrees(Next(h, s)) <==> !Breaks(h, s)
  {
    var h' := Next(h, s);
    if s.OnSubscribe? && Breaks(h, s) {
      assert s.topic in h'.subs && s.topic !in h'.gossip.value;
    }
    if s.OnEvent? && Breaks(h, s) {
      assert s.topic !in h'.subs && s.topic in h'.gossip.value;
    }
  }

  /** As long as gossipsub does as it is told, the topics with local subscribers
      are the topics subscribed in each enabled protocol. */
  lemma {:induction false} TopicsAgree(run: Run, gossip: bool, broadcast: bool, n: nat)
    requires run.Valid() && run.states[0] == NewHub(gossip, broadcast) && n < |run.states|
    requires forall k :: 0 <= k < n ==> !Breaks(run.states[k], run.steps[k])
    ensures Agrees(run.states[n])
  {
    if n != 0 {
      TopicsAgree(run, gossip, broadcast, n - 1);
      AgreementBreaksIff(run.states[n - 1], run.steps[n - 1]);
    }
  }

  /** A refusal is not repaired by trying again: the next subscriber finds the
      topic in the table, and gossipsub is not asked any more. */
  lemma RefusalSticks(h: Hub, topic: Topic, rx: Rx, rx2: Rx)
    requires h.gossip.Some? && topic !in h.subs && topic !in h.gossip.value
    ensures var h2 := SubscribeTo(SubscribeTo(h, topic, rx, false), topic, rx2, true);
            && rx2 in h2.live && rx2 in h2.subs[topic]
            && topic !in h2.gossip.value
  {
    var h1 := SubscribeTo(h, topic, rx, false);
    assert h1.subs[topic] == [rx];
  }

  // ---- The handlers in place ------------------------------------------------

  class SubscriptionTable {
    var gossip: Option<set<Topic>>
    var broadcast: Option<set<Topic>>
    var subs: map<Topic, seq<Rx>>
    var live: set<Rx>
    var inboxes: map<Rx, seq<GossipEvent>>
    ghost var published: map<Topic, seq<GossipEvent>>
    ghost var origins: map<Rx, Origin>

    ghost function Abs(): Hub
      reads this
    {
      Hub(gossip, broadcast, subs, live, inboxes, published, origins)
    }

    constructor (gossip: bool, broadcast: bool)
      ensures Abs() == NewHub(gossip, broadcast)
    {
      this.gossip := if gossip then Some({}) else None;
      this.broadcast := if broadcast then Some({}) else None;
      subs, live, inboxes, published, origins := map[], {}, map[], map[], map[];
    }

    /** The result says whether the caller gets a receiver. */
    method Subscribe(topic: Topic, rx: Rx, ok: bool) returns (accepted: bool)
      requires rx !in live
      modifies this
      ensures Abs() == SubscribeTo(old(Abs()), topic, rx, ok)
      ensures accepted <==> rx in live
      ensures accepted <==> old(Accepts(Abs(), topic, ok))
    {
      if gossip.None? && broadcast.None? {
        return false;
      }
      origins := origins[rx := Origin(topic, |Abs().Published(topic)|)];
      if topic in subs {
        subs := subs[topic := subs[topic] + [rx]];
      } else {
        subs := subs[topic := [rx]];
        if gossip.Some? {
          if !ok {
            return false;
          }
          gossip := Some(gossip.value + {topic});
        }
        if broadcast.Some? {
          broadcast := Some(broadcast.value + {topic});
        }
      }
      live := live + {rx};
      return true;
    }

    /** The `retain` in `notify_subscribers`. */
    method SendToAll(rxs: seq<Rx>, e: GossipEvent) returns (rest: seq<Rx>)
      modifies this`inboxes
      ensures rest == Retained(rxs, live) && inboxes == Deliver(old(inboxes), rxs, live, e)
    {
      rest := [];
      for i := 0 to |rxs|
        invariant rest == Retained(rxs[..i], live)
        invariant inboxes == Deliver(old(inboxes), rxs[..i], live, e)
      {
        assert rxs[..i + 1][..i] == rxs[..i];
        if rxs[i] in live {
          inboxes := inboxes[rxs[i] := (if rxs[i] in inboxes then inboxes[rxs[i]] else []) + [e]];
          rest := rest + [rxs[i]];
        }
      }
      assert rxs[..|rxs|] == rxs;
    }

    method NotifySubscribers(topic: Topic, e: GossipEvent, ok: bool)
      modifies this
      ensures Abs() == Publish(old(Abs()), topic, e, ok)
    {
      published := published[topic := Abs().Published(topic) + [e]];
      if topic in subs {
        var rest := SendToAll(subs[topic], e);
        if rest == [] {
          if gossip.Some? && ok {
            gossip := Some(gossip.value - {topic});
          }
          if broadcast.Some? {
            broadcast := Some(broadcast.value - {topic});
          }
          subs := subs - {topic};
        } else {
          subs := subs[topic := rest];
        }
      }
    }
  }
}
