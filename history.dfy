/**
  The location history store: the process-wide deque of location samples that
  every ping first prunes to the retention window and then appends to.
 */
module History {

  /** `HISTORY_RETENTION_MINUTES`. */
  const HistoryRetentionMinutes: int := 30

  /** The retention window in seconds, as the cutoff computes it. */
  const RetentionSeconds: real := (HistoryRetentionMinutes * 60) as real

  /**
    One entry of the history. Times are seconds of the wall clock; the
    distance from home is in miles and the speed in miles per hour, all taken
    as exact reals.
   */
  datatype LocationSample = LocationSample(timestamp: real, distance: real, speed: real, lat: real, lon: real)

  /** The cutoff `cleanup_old_locations` computes from the clock reading `now`. */
  function Cutoff(now: real): real
  {
    now - RetentionSeconds
  }

  /**
    The samples that survive a cleanup with the given cutoff: those at the
    front are dropped as long as they are strictly older than the cutoff.
    What is left is a suffix of `samples`, in the same order, that is empty
    or starts with a sample no older than the cutoff.
   */
  function DropStale(samples: seq<LocationSample>, cutoff: real): (r: seq<LocationSample>)
    ensures |r| <= |samples|
    ensures forall i :: 0 <= i < |r| ==> r[i] == samples[|samples| - |r| + i]
    ensures r == [] || r[0].timestamp >= cutoff
    ensures forall i :: 0 <= i < |samples| - |r| ==> samples[i].timestamp < cutoff
    decreases |samples|
  {
    if samples != [] && samples[0].timestamp < cutoff then DropStale(samples[1..], cutoff) else samples
  }

  /** Timestamps never decrease along the history. */
  predicate Chronological(samples: seq<LocationSample>)
  {
    forall i, j :: 0 <= i < j < |samples| ==> samples[i].timestamp <= samples[j].timestamp
  }

  /** Cleanup only removes from the front: what is left is a suffix of the history, in the same order. */
  lemma DropStaleIsSuffix(samples: seq<LocationSample>, cutoff: real)
    ensures DropStale(samples, cutoff) == samples[|samples| - |DropStale(samples, cutoff)|..]
  {
  }

  /** A second cleanup with the same clock reading removes nothing. */
  lemma DropStaleIdempotent(samples: seq<LocationSample>, cutoff: real)
    ensures DropStale(DropStale(samples, cutoff), cutoff) == DropStale(samples, cutoff)
  {
  }

  /** The test is strict: a front sample stamped exactly at the cutoff is kept, and so is all that follows it. */
  lemma CutoffSampleKept(samples: seq<LocationSample>, cutoff: real)
    requires samples != [] && samples[0].timestamp == cutoff
    ensures DropStale(samples, cutoff) == samples
  {
  }

  /**
    In a chronological history a cleanup removes exactly the samples older
    than the cutoff: sample `i` survives if and only if it is no older than
    the cutoff. So a sample stamped `t` is still there at clock `t + 1800`
    and gone at any later clock reading.
   */
  lemma {:induction false} DropStaleChronological(samples: seq<LocationSample>, cutoff: real, i: int)
    requires Chronological(samples) && 0 <= i < |samples|
    ensures i >= |samples| - |DropStale(samples, cutoff)| <==> samples[i].timestamp >= cutoff
  {
    var first := |samples| - |DropStale(samples, cutoff)|;
    if i >= first {
      assert DropStale(samples, cutoff)[0] == samples[first];
    }
  }

  /**
    The retention window in clock terms: in a chronological history, a
    cleanup at clock reading `now` keeps sample `i` if and only if the sample
    is at most 30 minutes old, `now <= timestamp + 1800`.
   */
  lemma RetentionWindow(samples: seq<LocationSample>, now: real, i: int)
    requires Chronological(samples) && 0 <= i < |samples|
    ensures i >= |samples| - |DropStale(samples, Cutoff(now))| <==> now <= samples[i].timestamp + 1800.0
  {
    DropStaleChronological(samples, Cutoff(now), i);
  }

  /** Every suffix of a chronological history is chronological. */
  lemma ChronologicalSuffix(samples: seq<LocationSample>, k: int)
    requires Chronological(samples) && 0 <= k <= |samples|
    ensures Chronological(samples[k..])
  {
    var r := samples[k..];
    forall i, j | 0 <= i < j < |r| ensures r[i].timestamp <= r[j].timestamp {
      assert r[i] == samples[k + i] && r[j] == samples[k + j];
    }
  }

  /** A cleanup keeps a chronological history chronological. */
  lemma DropStaleKeepsChronological(samples: seq<LocationSample>, cutoff: real)
    requires Chronological(samples)
    ensures Chronological(DropStale(samples, cutoff))
  {
    DropStaleIsSuffix(samples, cutoff);
    ChronologicalSuffix(samples, |samples| - |DropStale(samples, cutoff)|);
  }

  /** `location_history`: the deque of samples, oldest first. */
  class LocationHistory {
    var samples: seq<LocationSample>

    /** `deque()`: an empty history. */
    constructor ()
      ensures samples == []
    {
      samples := [];
    }

    /** `cleanup_old_locations` with `now` in place of `time.time()`. */
    method CleanupOldLocations(now: real)
      modifies this
      ensures samples == DropStale(old(samples), Cutoff(now))
    {
      var cutoff := now - RetentionSeconds;
      while samples != [] && samples[0].timestamp < cutoff
        invariant DropStale(samples, cutoff) == DropStale(old(samples), cutoff)
        decreases |samples|
      {
        samples := samples[1..];
      }
    }

    /** `location_history.append(sample)`. */
    method Append(sample: LocationSample)
      modifies this
      ensures samples == old(samples) + [sample]
    {
      samples := samples + [sample];
    }
  }
}
