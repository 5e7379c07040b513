/**
  `determine_movement_trend`: the direction of travel relative to home, read
  off the tail of the location history.
 */
module Trend {
  import opened History

  /** `MIN_SAMPLES_FOR_TREND`: both the minimum history length and the window size. */
  const MinSamplesForTrend: nat := 2

  /** `MOVEMENT_THRESHOLD`, in miles. */
  const MovementThreshold: real := 0.01

  /**
    The four labels the estimator reports: `"unknown"`, `"approaching"`,
    `"moving_away"` and `"stationary"`.
   */
  datatype MovementTrend = Unknown | Approaching | MovingAway | Stationary

  /**
    `distance_changes`: the change of distance between each pair of
    consecutive samples, oldest pair first.
   */
  function Deltas(recent: seq<LocationSample>): (d: seq<real>)
    ensures |d| == if recent == [] then 0 else |recent| - 1
    ensures forall i :: 0 <= i < |d| ==> d[i] == recent[i + 1].distance - recent[i].distance
    decreases |recent|
  {
    if |recent| < 2 then []
    else Deltas(recent[..|recent| - 1]) + [recent[|recent| - 1].distance - recent[|recent| - 2].distance]
  }

  /** Python's `sum` over a list of numbers. */
  function Sum(xs: seq<real>): real
    decreases |xs|
  {
    if xs == [] then 0.0 else Sum(xs[..|xs| - 1]) + xs[|xs| - 1]
  }

  /**
    The changes telescope: over any window, their sum is the newest distance
    minus the oldest.
   */
  lemma {:induction false} DeltasTelescope(recent: seq<LocationSample>)
    requires recent != []
    ensures Sum(Deltas(recent)) == recent[|recent| - 1].distance - recent[0].distance
    decreases |recent|
  {
    if |recent| >= 2 {
      var init := recent[..|recent| - 1];
      DeltasTelescope(init);
      var d := Deltas(recent);
      assert d[..|d| - 1] == Deltas(init);
    }
  }

  /** The label for an average change of distance. */
  function Classify(avgChange: real): MovementTrend
  {
    if avgChange < -MovementThreshold then Approaching
    else if avgChange > MovementThreshold then MovingAway
    else Stationary
  }

  /**
    `determine_movement_trend` on a snapshot of the history. With fewer than
    two samples the trend is unknown whatever the distances; otherwise it is
    decided by the last change of distance alone, since the window is two
    samples wide, and it is never unknown.
   */
  function TrendOf(history: seq<LocationSample>): (t: MovementTrend)
    ensures |history| < 2 ==> t == Unknown
    ensures |history| >= 2 ==>
      t == Classify(history[|history| - 1].distance - history[|history| - 2].distance)
    ensures |history| >= 2 ==> t != Unknown
  {
    if |history| < MinSamplesForTrend then Unknown
    else
      var recent := history[|history| - MinSamplesForTrend..];
      var changes := Deltas(recent);
      if changes == [] then Unknown
      else
        DeltasTelescope(recent);
        assert recent[1] == history[|history| - 1] && recent[0] == history[|history| - 2];
        var count := |changes| as real;
        assert count == 1.0;
        Classify(Sum(changes) / count)
  }

  /** The three thresholds, both ways: exactly +-0.01 counts as stationary. */
  lemma ClassifyThresholds(d: real)
    ensures Classify(d) == Approaching <==> d < -0.01
    ensures Classify(d) == MovingAway <==> d > 0.01
    ensures Classify(d) == Stationary <==> -0.01 <= d <= 0.01
    ensures Classify(d) != Unknown
  {
  }

  /** Two histories whose last change of distance agrees get the same trend, whatever else they hold. */
  lemma TrendDependsOnLastChange(h1: seq<LocationSample>, h2: seq<LocationSample>)
    requires |h1| >= 2 && |h2| >= 2
    requires h1[|h1| - 1].distance - h1[|h1| - 2].distance == h2[|h2| - 1].distance - h2[|h2| - 2].distance
    ensures TrendOf(h1) == TrendOf(h2)
  {
  }
}
