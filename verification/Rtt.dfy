/** Round-trip-time statistics of a peer: two moving averages and a failure
    rate, all in integer arithmetic. Durations are natural numbers of
    nanoseconds; division rounds down. */
module Rtts {
  import opened Wrappers

  type Duration = nat

  const U32_LIMIT := 0x1_0000_0000

  /** The largest failure rate that is ever reached. */
  const RATE_CEILING := 999_901

  datatype Rtt = Rtt(current: Duration, decay3: Duration, decay10: Duration, failures: nat, failureRate: nat)
  {
    function Register(sample: Duration): Rtt {
      Rtt(sample, decay3 * 7 / 10 + sample * 3 / 10, decay10 * 9 / 10 + sample / 10, 0, failureRate * 99 / 100)
    }

    function RegisterFailure(): Rtt {
      this.(failures := failures + 1, failureRate := failureRate * 99 / 100 + 10_000)
    }
  }

  function NewRtt(sample: Duration): Rtt {
    Rtt(sample, sample, sample, 0, 0)
  }

  /** `PeerInfo::set_rtt`: a failed ping before the first success is ignored. */
  function SetRtt(rtt: Option<Rtt>, ping: Option<Duration>): Option<Rtt> {
    match (rtt, ping)
    case (Some(r), Some(d)) => Some(r.Register(d))
    case (None, Some(d)) => Some(NewRtt(d))
    case (Some(r), None) => Some(r.RegisterFailure())
    case (None, None) => None
  }

  /** The statistics after a whole history of pings, oldest first. */
  function Feed(pings: seq<Option<Duration>>): Option<Rtt> {
    if pings == [] then None else SetRtt(Feed(pings[..|pings| - 1]), pings[|pings| - 1])
  }

  ghost predicate SamplesWithin(pings: seq<Option<Duration>>, lo: Duration, hi: Duration) {
    forall i :: 0 <= i < |pings| && pings[i].Some? ==> lo <= pings[i].value <= hi
  }

  /** Whatever the interleaving of successes and failures, both averages stay
      between the smallest and the largest sample, up to the rounding loss of
      three and nine nanoseconds. */
  lemma {:induction false} AveragesStayWithinSamples(pings: seq<Option<Duration>>, lo: Duration, hi: Duration)
    requires SamplesWithin(pings, lo, hi)
    ensures Feed(pings).Some? ==>
              var r := Feed(pings).value;
              && lo <= r.current <= hi
              && lo - 3 <= r.decay3 <= hi
              && lo - 9 <= r.decay10 <= hi
  {
    if pings != [] {
      AveragesStayWithinSamples(pings[..|pings| - 1], lo, hi);
    }
  }

  /** One more success: the sample is the current value, the counter restarts, and each
      average moves to its share of old and new, up to the loss of two roundings. The
      first success sets everything to the sample. */
  lemma SuccessMovesAverages(pings: seq<Option<Duration>>, sample: Duration)
    ensures Feed(pings + [Some(sample)]).Some?
    ensures var r := Feed(pings + [Some(sample)]).value;
            && r.current == sample && r.failures == 0
            && if Feed(pings).None? then r == Rtt(sample, sample, sample, 0, 0)
               else
                 var old_ := Feed(pings).value;
                 && 7 * old_.decay3 + 3 * sample - 18 <= 10 * r.decay3 <= 7 * old_.decay3 + 3 * sample
                 && 9 * old_.decay10 + sample - 18 <= 10 * r.decay10 <= 9 * old_.decay10 + sample
  {
    assert (pings + [Some(sample)])[..|pings|] == pings;
  }

  /** A failure only touches the counter and the rate, once there has been a success. */
  lemma FailureKeepsAverages(pings: seq<Option<Duration>>)
    ensures var before, after := Feed(pings), Feed(pings + [None]);
            && (before.None? ==> after.None?)
            && (before.Some? ==> after.Some? && after.value.current == before.value.current
                                 && after.value.decay3 == before.value.decay3
                                 && after.value.decay10 == before.value.decay10)
  {
    assert (pings + [None])[..|pings|] == pings;
  }

  /** The current value is the newest successful sample. */
  lemma {:induction false} CurrentIsNewest(pings: seq<Option<Duration>>, k: nat)
    requires k < |pings| && pings[k].Some? && forall i :: k < i < |pings| ==> pings[i].None?
    ensures Feed(pings).Some? && Feed(pings).value.current == pings[k].value
    decreases |pings|
  {
    var init := pings[..|pings| - 1];
    if k < |init| {
      CurrentIsNewest(init, k);
      FailureKeepsAverages(init);
      assert pings == init + [None];
    }
  }

  function Constant(sample: Duration, n: nat): (pings: seq<Option<Duration>>)
    ensures |pings| == n && forall i :: 0 <= i < n ==> pings[i] == Some(sample)
  {
    seq(n, _ => Some(sample))
  }

  lemma ShortMarginIsReached()
    ensures Feed(Constant(3, 4)).Some? && Feed(Constant(3, 4)).value.decay3 == 3 - 3
  {
    for n := 1 to 4
      invariant 1 <= n
      invariant Feed(Constant(3, n)).Some? && Feed(Constant(3, n)).value.decay3 == 4 - n
    {
      assert Constant(3, n + 1)[..n] == Constant(3, n);
    }
  }

  lemma LongMarginIsReached()
    ensures Feed(Constant(9, 10)).Some? && Feed(Constant(9, 10)).value.decay10 == 9 - 9
  {
    for n := 1 to 10
      invariant 1 <= n
      invariant Feed(Constant(9, n)).Some? && Feed(Constant(9, n)).value.decay10 == 10 - n
    {
      assert Constant(9, n + 1)[..n] == Constant(9, n);
    }
  }

  /** The margins cannot be improved: constant samples reach both of them. */
  lemma RoundingMarginsAreReached()
    ensures Feed(Constant(3, 4)).Some? && Feed(Constant(3, 4)).value.decay3 == 3 - 3
    ensures Feed(Constant(9, 10)).Some? && Feed(Constant(9, 10)).value.decay10 == 9 - 9
  {
    ShortMarginIsReached();
    LongMarginIsReached();
  }

  /** The number of failed pings since the last success. */
  function TrailingFailures(pings: seq<Option<Duration>>): nat {
    if pings == [] || pings[|pings| - 1].Some? then 0 else 1 + TrailingFailures(pings[..|pings| - 1])
  }

  /** In every reachable state the rate is at most 999_901, so neither the
      documented 1_000_000 nor a `u32` overflow is ever reached, and the failure
      counter counts exactly the failures since the last success. */
  lemma {:induction false} ReachableFailureRate(pings: seq<Option<Duration>>)
    ensures Feed(pings).Some? <==> exists i :: 0 <= i < |pings| && pings[i].Some?
    ensures Feed(pings).Some? ==>
              var r := Feed(pings).value;
              && r.failureRate <= RATE_CEILING < 1_000_000
              && r.failureRate * 99 + 10_000 < U32_LIMIT
              && r.failures == TrailingFailures(pings)
  {
    if pings != [] {
      var before := pings[..|pings| - 1];
      ReachableFailureRate(before);
      assert pings == before + [pings[|pings| - 1]];
      if i :| 0 <= i < |before| && before[i].Some? {
        assert pings[i].Some?;
      }
    }
  }

  function FailRate(rate: nat, n: nat): nat {
    if n == 0 then rate else FailRate(rate, n - 1) * 99 / 100 + 10_000
  }

  function DrainRate(rate: nat, n: nat): nat {
    if n == 0 then rate else DrainRate(rate, n - 1) * 99 / 100
  }

  /** Failures alone: the rate rises with every failure until it sits at the
      ceiling for good. */
  lemma {:induction false} FailuresClimbToCeiling(rate: nat, n: nat)
    requires rate <= RATE_CEILING
    ensures FailRate(rate, n) <= RATE_CEILING
    ensures FailRate(rate, n) < RATE_CEILING ==> FailRate(rate, n) < FailRate(rate, n + 1)
    ensures FailRate(rate, n) == RATE_CEILING ==> FailRate(rate, n + 1) == RATE_CEILING
    ensures n >= RATE_CEILING - rate ==> FailRate(rate, n) == RATE_CEILING
    ensures FailRate(rate, n) >= rate + n || FailRate(rate, n) == RATE_CEILING
  {
    if n != 0 {
      FailuresClimbToCeiling(rate, n - 1);
    }
  }

  /** Successes alone: the rate falls with every success until it is zero. */
  lemma {:induction false} SuccessesDrainToZero(rate: nat, n: nat)
    ensures DrainRate(rate, n) > 0 ==> DrainRate(rate, n + 1) < DrainRate(rate, n)
    ensures n >= rate ==> DrainRate(rate, n) == 0
    ensures DrainRate(rate, n) + n <= rate || DrainRate(rate, n) == 0
  {
    if n != 0 {
      SuccessesDrainToZero(rate, n - 1);
    }
  }

  /** The closed forms are what the statistics do under repeated pings. */
  lemma {:induction false} RepeatedPings(r: Rtt, failed: bool, n: nat)
    ensures Repeat(Some(r), if failed then None else Some(r.current), n).Some?
    ensures Repeat(Some(r), if failed then None else Some(r.current), n).value.failureRate ==
            if failed then FailRate(r.failureRate, n) else DrainRate(r.failureRate, n)
  {
    if n != 0 {
      RepeatedPings(r, failed, n - 1);
    }
  }

  function Repeat(rtt: Option<Rtt>, ping: Option<Duration>, n: nat): Option<Rtt> {
    if n == 0 then rtt else SetRtt(Repeat(rtt, ping, n - 1), ping)
  }
}
