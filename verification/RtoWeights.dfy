/** What the smoothed estimates are worth: each sample with its weight, in closed form (section 2 of RFC 6298). */
module RtoWeights {
  import opened Prelude
  import opened Rto

  function Power(x: real, n: nat): real
  {
    if n == 0 then 1.0 else x * Power(x, n - 1)
  }

  /** Sum of gain * (1 - gain)^(n - 1 - i) * r_i over n values: the last one weighs `gain`, each earlier one
      less by the factor 1 - gain. */
  function Weighted(gain: real, rs: seq<real>): real
  {
    if rs == [] then 0.0 else gain * Power(1.0 - gain, |rs| - 1) * rs[0] + Weighted(gain, rs[1..])
  }

  /** An average that starts at `first` and has taken in `rs`. */
  function Smoothed(gain: real, first: real, rs: seq<real>): real
  {
    Power(1.0 - gain, |rs|) * first + Weighted(gain, rs)
  }

  /** One more value taken into an average. */
  function Mix(gain: real, x: real, r: real): real
  {
    (1.0 - gain) * x + gain * r
  }

  lemma SmoothedOne(gain: real, first: real, r: real, rest: seq<real>)
    ensures Smoothed(gain, Mix(gain, first, r), rest) == Smoothed(gain, first, [r] + rest)
  {
    var w := Power(1.0 - gain, |rest|);
    assert ([r] + rest)[1..] == rest;
    assert Power(1.0 - gain, |rest| + 1) == (1.0 - gain) * w;
    Distribute(w, 1.0 - gain, first, gain, r);
  }

  lemma Distribute(w: real, a: real, x: real, b: real, y: real)
    ensures w * (a * x + b * y) == a * w * x + b * w * y
  {
  }

  /** The average itself, value by value. */
  function Average(gain: real, first: real, rs: seq<real>): real
    decreases |rs|
  {
    if rs == [] then first else Average(gain, Mix(gain, first, rs[0]), rs[1..])
  }

  lemma {:induction false} AverageIsSmoothed(gain: real, first: real, rs: seq<real>)
    ensures Average(gain, first, rs) == Smoothed(gain, first, rs)
    decreases |rs|
  {
    if rs != [] {
      assert rs == [rs[0]] + rs[1..];
      AverageIsSmoothed(gain, Mix(gain, first, rs[0]), rs[1..]);
      SmoothedOne(gain, first, rs[0], rs[1..]);
    }
  }

  function Distance(x: real, y: real): real
  {
    if x < y then y - x else x - y
  }

  /** How far each sample lies from the average of those before it. */
  function Deviations(first: real, rs: seq<real>): (ds: seq<real>)
    ensures |ds| == |rs|
  {
    seq(|rs|, i requires 0 <= i < |rs| => Distance(Smoothed(0.125, first, rs[..i]), rs[i]))
  }

  lemma DeviationsFirst(first: real, r: real, rest: seq<real>)
    ensures Deviations(first, [r] + rest) == [Distance(first, r)] + Deviations(Mix(0.125, first, r), rest)
  {
    var (rs, next) := ([r] + rest, Mix(0.125, first, r));
    assert rs[..0] == [];
    forall i | 0 < i < |rs| ensures Smoothed(0.125, first, rs[..i]) == Smoothed(0.125, next, rest[..i - 1]) {
      assert rs[..i] == [r] + rest[..i - 1];
      SmoothedOne(0.125, first, r, rest[..i - 1]);
    }
  }

  /** The round trips of a history, in order; timeouts bring none. */
  function RoundTrips(history: seq<Happening>): seq<real>
  {
    if history == [] then []
    else (if history[0].Measured? then [history[0].rtt] else []) + RoundTrips(history[1..])
  }

  /** An estimator that holds `srtt` and `rttvar`. */
  predicate Holds(e: Estimate, srtt: real, rttvar: real)
  {
    e.srtt == Some(srtt) && e.rttvar == Some(rttvar)
  }

  lemma RoundTripsFirst(h: Happening, rest: seq<Happening>)
    ensures RoundTrips([h] + rest) == (if h.Measured? then [h.rtt] + RoundTrips(rest) else RoundTrips(rest))
  {
    assert ([h] + rest)[1..] == rest;
  }

  lemma AverageFirst(gain: real, first: real, r: real, rest: seq<real>)
    ensures Average(gain, first, [r] + rest) == Average(gain, Mix(gain, first, r), rest)
  {
    assert ([r] + rest)[1..] == rest;
  }

  lemma {:induction false} EstimatesAreAverages(e: Estimate, s: real, v: real, history: seq<Happening>)
    requires Holds(e, s, v)
    ensures var rs := RoundTrips(history);
      Holds(After(e, history), Average(0.125, s, rs), Average(0.25, v, Deviations(s, rs)))
    decreases |history|
  {
    if history != [] {
      var (h, rest) := (history[0], history[1..]);
      var rs := RoundTrips(rest);
      assert history == [h] + rest;
      RoundTripsFirst(h, rest);
      match h {
        case TimedOut => EstimatesAreAverages(Backoff(e), s, v, rest);
        case Measured(r) =>
          var (next, d) := (Mix(0.125, s, r), Distance(s, r));
          EstimatesAreAverages(Sample(e, r), next, Mix(0.25, v, d), rest);
          DeviationsFirst(s, r, rs);
          AverageFirst(0.125, s, r, rs);
          AverageFirst(0.25, v, d, Deviations(next, rs));
      }
    }
  }

  /** Once there is an estimate, any history leaves it at the weighted sums, with gains 1/8 and 1/4,
      timeouts or not. */
  lemma EstimatesAreWeightedSums(e: Estimate, s: real, v: real, history: seq<Happening>)
    requires Holds(e, s, v)
    ensures var rs := RoundTrips(history);
      Holds(After(e, history), Smoothed(0.125, s, rs), Smoothed(0.25, v, Deviations(s, rs)))
  {
    EstimatesAreAverages(e, s, v, history);
    AverageIsSmoothed(0.125, s, RoundTrips(history));
    AverageIsSmoothed(0.25, v, Deviations(s, RoundTrips(history)));
  }

  /** The first round trip r after any number of timeouts counts as srtt = r and rttvar = r / 2; those after
      it are weighed as above. */
  lemma {:induction false} EstimatesFromTheFirst(e: Estimate, history: seq<Happening>)
    requires e.srtt.None? && e.rttvar.None?
    ensures var rs := RoundTrips(history); var f := After(e, history);
      if rs == [] then f.srtt.None? && f.rttvar.None?
      else Holds(f, Smoothed(0.125, rs[0], rs[1..]), Smoothed(0.25, rs[0] / 2.0, Deviations(rs[0], rs[1..])))
    decreases |history|
  {
    if history != [] {
      var (h, rest) := (history[0], history[1..]);
      assert history == [h] + rest;
      RoundTripsFirst(h, rest);
      match h {
        case TimedOut => EstimatesFromTheFirst(Backoff(e), rest);
        case Measured(r) =>
          EstimatesAreWeightedSums(Sample(e, r), r, r / 2.0, rest);
          assert ([r] + RoundTrips(rest))[1..] == RoundTrips(rest);
      }
    }
  }

  /** After any history that ends in a round trip, the time-out is srtt + 4 * rttvar, held between its bounds. */
  lemma TimeoutAfterSample(e: Estimate, history: seq<Happening>, rtt: real)
    requires e.minRto <= e.maxRto
    ensures var f := After(e, history + [Measured(rtt)]);
      && f.srtt.Some? && f.rttvar.Some? && f.minRto == e.minRto && f.maxRto == e.maxRto
      && var sum := f.srtt.value + 4.0 * f.rttvar.value;
         var floored := if sum < e.minRto then e.minRto else sum;
         f.rto == if floored < e.maxRto then floored else e.maxRto
  {
    AfterLast(e, history, Measured(rtt));
    BoundsStay(e, history);
  }

  lemma {:induction false} AfterLast(e: Estimate, history: seq<Happening>, h: Happening)
    ensures After(e, history + [h]) == match h case Measured(r) => Sample(After(e, history), r) case TimedOut => Backoff(After(e, history))
    decreases |history|
  {
    if history == [] {
      assert (history + [h])[1..] == [];
    } else {
      var next := match history[0] case Measured(r) => Sample(e, r) case TimedOut => Backoff(e);
      assert (history + [h])[1..] == history[1..] + [h];
      AfterLast(next, history[1..], h);
    }
  }

  lemma {:induction false} BoundsStay(e: Estimate, history: seq<Happening>)
    ensures After(e, history).minRto == e.minRto && After(e, history).maxRto == e.maxRto
    decreases |history|
  {
    if history != [] {
      BoundsStay(match history[0] case Measured(r) => Sample(e, r) case TimedOut => Backoff(e), history[1..]);
    }
  }

  // ---- convergence -----------------------------------------------------------------------------

  /** n equal values draw an average towards themselves by the factor (1 - gain)^n. */
  lemma {:induction false} EqualValuesAttract(gain: real, first: real, r: real, rs: seq<real>)
    requires forall i :: 0 <= i < |rs| ==> rs[i] == r
    ensures Average(gain, first, rs) - r == Power(1.0 - gain, |rs|) * (first - r)
    decreases |rs|
  {
    if rs != [] {
      var next := Mix(gain, first, r);
      EqualValuesAttract(gain, next, r, rs[1..]);
      assert next - r == (1.0 - gain) * (first - r);
      Regrouped(Power(1.0 - gain, |rs| - 1), 1.0 - gain, first - r);
    }
  }

  lemma Regrouped(w: real, a: real, x: real)
    ensures w * (a * x) == (a * w) * x
  {
  }

  lemma NoDeviation(r: real, rs: seq<real>)
    requires forall i :: 0 <= i < |rs| ==> rs[i] == r
    ensures forall i :: 0 <= i < |rs| ==> Deviations(r, rs)[i] == 0.0
  {
    forall i | 0 <= i < |rs| ensures Deviations(r, rs)[i] == 0.0 {
      EqualValuesAttract(0.125, r, r, rs[..i]);
      AverageIsSmoothed(0.125, r, rs[..i]);
    }
  }

  /** With n equal round trips the error of srtt shrinks by 7/8 each time ... */
  lemma SteadyRoundTrips(e: Estimate, s: real, v: real, history: seq<Happening>, r: real, n: nat)
    requires Holds(e, s, v) && n == |RoundTrips(history)|
    requires forall i :: 0 <= i < n ==> RoundTrips(history)[i] == r
    ensures After(e, history).srtt.Some? && After(e, history).srtt.value - r == Power(1.0 - 0.125, n) * (s - r)
  {
    EstimatesAreAverages(e, s, v, history);
    EqualValuesAttract(0.125, s, r, RoundTrips(history));
  }

  /** ... and once srtt is exact, rttvar shrinks by 3/4 each time. */
  lemma SteadyRoundTripsCalm(e: Estimate, v: real, history: seq<Happening>, r: real, n: nat)
    requires Holds(e, r, v) && n == |RoundTrips(history)|
    requires forall i :: 0 <= i < n ==> RoundTrips(history)[i] == r
    ensures After(e, history).rttvar.Some? && After(e, history).rttvar.value - 0.0 == Power(1.0 - 0.25, n) * (v - 0.0)
  {
    EstimatesAreAverages(e, r, v, history);
    NoDeviation(r, RoundTrips(history));
    EqualValuesAttract(0.25, v, 0.0, Deviations(r, RoundTrips(history)));
  }
}
