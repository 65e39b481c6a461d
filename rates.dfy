/** The one piece of arithmetic both services share: a counter's change per second. */
module Rates {

  /** `(current - previous) / elapsed` for a cumulative byte counter. Nothing guards against a
      counter that went down: the rate is then negative. */
  function PerSecond(previous: nat, current: nat, elapsed: real): (r: real)
    requires elapsed > 0.0
    ensures r * elapsed == (current as int - previous as int) as real
    ensures r >= 0.0 <==> current >= previous
    ensures current == previous ==> r == 0.0
  {
    (current as int - previous as int) as real / elapsed
  }

  /** A fact about the rate formula alone, not about either service's stored baseline: over a
      series of counter samples taken at strictly increasing times, each interval's
      `PerSecond` multiplied back by the interval's length, summed. */
  ghost function Accumulated(counts: seq<nat>, times: seq<real>): real
    requires |counts| == |times| > 0
    requires forall i :: 0 < i < |times| ==> times[i - 1] < times[i]
  {
    if |counts| == 1 then 0.0
    else
      var n := |counts| - 1;
      Accumulated(counts[..n], times[..n])
        + PerSecond(counts[n - 1], counts[n], times[n] - times[n - 1]) * (times[n] - times[n - 1])
  }

  /** Rates lose nothing: integrated over the series they give back the counter's total change
      between the first and the last sample. */
  lemma {:induction false} AccumulatedIsTotalChange(counts: seq<nat>, times: seq<real>)
    requires |counts| == |times| > 0
    requires forall i :: 0 < i < |times| ==> times[i - 1] < times[i]
    ensures Accumulated(counts, times) == (counts[|counts| - 1] as int - counts[0] as int) as real
  {
    if |counts| > 1 {
      var n := |counts| - 1;
      AccumulatedIsTotalChange(counts[..n], times[..n]);
    }
  }
}
