/** Retransmission-timeout estimator (photontcp/reliability/rto.py; RFC 6298, sections 2 and 5), over reals. */
module Rto {
  import opened Prelude

  datatype Estimate = Estimate(
    initialRto: real,
    minRto: real,
    maxRto: real,
    srtt: Option<real>,
    rttvar: Option<real>,
    rto: real)

  function NewEstimate(initialRto: real, minRto: real, maxRto: real): Estimate
  {
    Estimate(initialRto, minRto, maxRto, None, None, initialRto)
  }

  function Clamp(value: real, low: real, high: real): real
  {
    if value < low then low else if value > high then high else value
  }

  function Abs(x: real): real
  {
    if x < 0.0 then -x else x
  }

  /** The state after a non-negative sample. */
  function Sample(e: Estimate, rtt: real): Estimate
  {
    var (srtt, rttvar) :=
      if e.srtt.None? || e.rttvar.None? then
        (rtt, rtt / 2.0)
      else
        (0.875 * e.srtt.value + 0.125 * rtt, 0.75 * e.rttvar.value + 0.25 * Abs(e.srtt.value - rtt));
    e.(srtt := Some(srtt), rttvar := Some(rttvar), rto := Clamp(srtt + 4.0 * rttvar, e.minRto, e.maxRto))
  }

  function Backoff(e: Estimate): Estimate
  {
    e.(rto := if e.rto * 2.0 < e.maxRto then e.rto * 2.0 else e.maxRto)
  }

  function SampleAll(e: Estimate, rtts: seq<real>): Estimate
    decreases |rtts|
  {
    if rtts == [] then e else SampleAll(Sample(e, rtts[0]), rtts[1..])
  }

  /** The configuration range the constructor expects but does not check. */
  predicate ConfigOk(e: Estimate)
  {
    0.0 < e.minRto <= e.initialRto <= e.maxRto
  }

  /** RTO inside its bounds; both estimates absent, or both present with srtt inside [lo, hi]
      and a deviation no wider than that range allows. */
  predicate Bounded(e: Estimate, lo: real, hi: real)
  {
    && ConfigOk(e)
    && e.minRto <= e.rto <= e.maxRto
    && (e.srtt.None? <==> e.rttvar.None?)
    && (e.srtt.Some? ==> lo <= e.srtt.value <= hi && 0.0 <= e.rttvar.value <= hi)
  }

  datatype Happening = Measured(rtt: real) | TimedOut

  function After(e: Estimate, history: seq<Happening>): Estimate
    decreases |history|
  {
    if history == [] then e
    else
      var next := match history[0] case Measured(r) => Sample(e, r) case TimedOut => Backoff(e);
      After(next, history[1..])
  }

  lemma StepStaysBounded(e: Estimate, h: Happening, lo: real, hi: real)
    requires 0.0 <= lo <= hi && Bounded(e, lo, hi)
    requires h.Measured? ==> lo <= h.rtt <= hi
    ensures Bounded(match h case Measured(r) => Sample(e, r) case TimedOut => Backoff(e), lo, hi)
  {
  }

  /** Over any history of samples drawn from [lo, hi] and any number of timeouts, the smoothed
      round-trip time stays in the sample range and the RTO inside its configured bounds. */
  lemma {:induction false} HistoryStaysBounded(e: Estimate, history: seq<Happening>, lo: real, hi: real)
    requires 0.0 <= lo <= hi && Bounded(e, lo, hi)
    requires forall i :: 0 <= i < |history| && history[i].Measured? ==> lo <= history[i].rtt <= hi
    ensures Bounded(After(e, history), lo, hi)
    ensures (exists h :: h in history && h.Measured?) || e.srtt.Some? ==> After(e, history).srtt.Some?
    decreases |history|
  {
    if history != [] {
      StepStaysBounded(e, history[0], lo, hi);
      var next := match history[0] case Measured(r) => Sample(e, r) case TimedOut => Backoff(e);
      HistoryStaysBounded(next, history[1..], lo, hi);
      assert forall h :: h in history ==> h == history[0] || h in history[1..];
    }
  }

  /** Timeouts alone change nothing but the RTO: it doubles each time until it meets the ceiling. */
  lemma {:induction false} BackoffReachesCeiling(e: Estimate, history: seq<Happening>)
    requires ConfigOk(e) && e.minRto <= e.rto <= e.maxRto
    requires forall h :: h in history ==> h.TimedOut?
    ensures var doubled := Scaled(e.rto, |history|);
      After(e, history) == e.(rto := if doubled < e.maxRto then doubled else e.maxRto)
    decreases |history|
  {
    if history != [] {
      assert history[0] in history;
      BackoffReachesCeiling(Backoff(e), history[1..]);
      ScaledGrows(e.rto * 2.0, |history| - 1);
      ScaledGrows(e.maxRto, |history| - 1);
    }
  }

  function Scaled(x: real, n: nat): real
    decreases n
  {
    if n == 0 then x else Scaled(x * 2.0, n - 1)
  }

  lemma {:induction false} ScaledGrows(x: real, n: nat)
    requires x > 0.0
    ensures Scaled(x, n) >= x
    decreases n
  {
    if n > 0 {
      ScaledGrows(x * 2.0, n - 1);
    }
  }

  class RtoEstimator {
    const initialRto: real
    const minRto: real
    const maxRto: real
    var srtt: Option<real>
    var rttvar: Option<real>
    var rto: real

    function View(): Estimate
      reads this
    {
      Estimate(initialRto, minRto, maxRto, srtt, rttvar, rto)
    }

    constructor (initialRto: real, minRto: real, maxRto: real)
      ensures View() == NewEstimate(initialRto, minRto, maxRto)
    {
      this.initialRto, this.minRto, this.maxRto := initialRto, minRto, maxRto;
      srtt, rttvar, rto := None, None, initialRto;
    }

    /** Same configuration, no samples; shares nothing with the original. */
    method Clone() returns (c: RtoEstimator)
      ensures fresh(c)
      ensures c.View() == NewEstimate(initialRto, minRto, maxRto)
    {
      c := new RtoEstimator(initialRto, minRto, maxRto);
    }

    /** `ok` is false where the source raises ValueError; the state is then untouched. */
    method OnSample(rtt: real) returns (ok: bool)
      modifies this
      ensures ok <==> rtt >= 0.0
      ensures View() == if ok then Sample(old(View()), rtt) else old(View())
    {
      if rtt < 0.0 {
        return false;
      }
      if srtt.None? || rttvar.None? {
        srtt := Some(rtt);
        rttvar := Some(rtt / 2.0);
      } else {
        rttvar := Some(0.75 * rttvar.value + 0.25 * Abs(srtt.value - rtt));
        srtt := Some(0.875 * srtt.value + 0.125 * rtt);
      }
      rto := Clamp(srtt.value + 4.0 * rttvar.value, minRto, maxRto);
      ok := true;
    }

    method OnTimeout()
      modifies this
      ensures View() == Backoff(old(View()))
    {
      rto := if rto * 2.0 < maxRto then rto * 2.0 else maxRto;
    }
  }
}
