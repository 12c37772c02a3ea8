/** Pruning, in words that do not mention the order of the checks. */
module PruneTheorems {
  import opened Orders
  import opened Multiaddrs
  import opened Rtts
  import opened PeerInfos
  import opened Books

  /** The reasons to keep a peer: a connection, a newest failure younger than the
      minimum age, a confirmed address, or an address to be probed that was seen
      within the minimum age or the last ten seconds. Times are in nanoseconds. */
  predicate Kept(info: Info, minAge: Duration, now: Time) {
    || info.connections != map[]
    || (info.failures != [] && 0 < minAge && now - info.failures[0].time < minAge)
    || (exists a :: a in info.addresses && info.addresses[a].source in {Candidate, User, Dial})
    || (exists a :: a in info.addresses && info.addresses[a].source in {Listen, Kad, Mdns, Candidate}
                    && (now - info.addresses[a].seen < minAge || now - info.addresses[a].seen < 10_000_000_000))
  }

  /** A peer is prunable exactly if there is no reason to keep it. */
  lemma PrunableIff(info: Info, minAge: Duration, now: Time)
    ensures IsPrunable(info, minAge, now) <==> !Kept(info, minAge, now)
  {
    if a :| a in info.addresses && KeepsPeer(info.addresses[a], minAge, now) {
      assert Kept(info, minAge, now);
    }
  }

  /** Pruning removes exactly the peers there is no reason to keep. The other
      records, the dials and the listeners are unchanged, and one event is sent
      for each peer that went. */
  lemma PruneMeaning(b: Book, minAge: Duration, now: Time, order: seq<PeerId>)
    requires Enabled(b, CallPrune(minAge, now, order))
    ensures var b' := Prune(b, minAge, now, order);
            && (forall p :: p in b'.peers <==> p in b.peers && Kept(b.peers[p], minAge, now))
            && (forall p :: p in b'.peers ==> b'.peers[p] == b.peers[p])
            && b' == b.(peers := b'.peers, events := b'.events)
            && |b'.events| == |b.events| + |Prunable(b, minAge, now)|
            && (forall p :: NewInfo(p) in b'.events[|b.events|..] <==> p in b.peers && p !in b'.peers)
  {
    var b' := Prune(b, minAge, now, order);
    var gone := Prunable(b, minAge, now);
    forall p | p in b.peers
      ensures IsPrunable(b.peers[p], minAge, now) <==> !Kept(b.peers[p], minAge, now)
    {
      PrunableIff(b.peers[p], minAge, now);
    }
    assert b'.events[|b.events|..] == NewInfos(order);
    forall p
      ensures NewInfo(p) in NewInfos(order) <==> p in gone
    {
      if p in gone {
        assert p in order;
        var i :| 0 <= i < |order| && order[i] == p;
        assert NewInfos(order)[i] == NewInfo(p);
      }
    }
    DistinctCount(order);
  }

  lemma {:induction false} DistinctCount<T>(xs: seq<T>)
    requires NoDuplicates(xs)
    ensures |set x | x in xs| == |xs|
  {
    if xs != [] {
      var init, x := xs[..|xs| - 1], xs[|xs| - 1];
      DistinctCount(init);
      assert xs == init + [x];
      assert x !in init;
      assert (set y | y in xs) == (set y | y in init) + {x};
    } else {
      assert (set x | x in xs) == {};
    }
  }

  /** Pruning again at the same time removes nobody. */
  lemma PruneIsIdempotent(b: Book, minAge: Duration, now: Time, order: seq<PeerId>, again: seq<PeerId>)
    requires Enabled(b, CallPrune(minAge, now, order))
    requires Enabled(Prune(b, minAge, now, order), CallPrune(minAge, now, again))
    ensures Prune(Prune(b, minAge, now, order), minAge, now, again) == Prune(b, minAge, now, order)
  {
    var b1 := Prune(b, minAge, now, order);
    assert Prunable(b1, minAge, now) == {};
    DistinctCount(again);
    assert NewInfos(again) == [];
    assert b1.peers - {} == b1.peers;
  }

  /** A larger minimum age prunes a subset. */
  lemma LongerMinAgePrunesLess(b: Book, less: Duration, more: Duration, now: Time)
    requires less <= more
    ensures Prunable(b, more, now) <= Prunable(b, less, now)
  {
    forall p | p in Prunable(b, more, now)
      ensures p in Prunable(b, less, now)
    {
      forall a | a in b.peers[p].addresses
        ensures !KeepsPeer(b.peers[p].addresses[a], less, now)
      {
        assert !KeepsPeer(b.peers[p].addresses[a], more, now);
      }
    }
  }
}
