/**
 * The statistics panel's rolling window: every five seconds one data point
 * holding the current aircraft count is appended, and the window keeps the
 * newest 120 of them (ten minutes).
 */
module Statistics {
  import opened Wrappers

  /** One sample.  `id` is the random UUID and `timestamp` the clock reading, both supplied by the caller. */
  datatype DataPoint = DataPoint(id: nat, timestamp: real, aircraftCount: int)

  const MaxPoints: nat := 120

  /** The window after trimming: the newest `MaxPoints` points, or all of them when there are fewer. */
  function Trimmed(points: seq<DataPoint>): (r: seq<DataPoint>)
    ensures |r| == if |points| > MaxPoints then MaxPoints else |points|
    ensures r == points[|points| - |r|..]
  {
    if |points| > MaxPoints then points[|points| - MaxPoints..] else points
  }

  /** Trimming after every append keeps the same window as trimming the whole history once. */
  lemma TrimAbsorbs(history: seq<DataPoint>, p: DataPoint)
    ensures Trimmed(Trimmed(history) + [p]) == Trimmed(history + [p])
  {
    var all := history + [p];
    var kept := Trimmed(history) + [p];
    var r := Trimmed(kept);
    assert kept == all[|all| - |kept|..];
    assert r == kept[|kept| - |r|..];
    assert all[|all| - |kept|..][|kept| - |r|..] == all[|all| - |r|..];
  }

  /** One sample: the point just added is the last one kept, and the window grows by one until it is full. */
  lemma SampleGrowth(points: seq<DataPoint>, p: DataPoint)
    requires |points| <= MaxPoints
    ensures var r := Trimmed(points + [p]);
            |r| > 0 && r[|r| - 1] == p &&
            (|points| < MaxPoints ==> r == points + [p]) &&
            (|points| == MaxPoints ==> |r| == MaxPoints && r == points[1..] + [p])
  {
    var r := Trimmed(points + [p]);
    assert r == (points + [p])[|points| + 1 - |r|..];
    if |points| == MaxPoints {
      assert (points + [p])[1..] == points[1..] + [p];
    }
  }

  class StatisticsCollector {
    var dataPoints: seq<DataPoint>
    /** Every point ever sampled, oldest first. */
    ghost var history: seq<DataPoint>

    /** The published points are the newest `MaxPoints` samples ever taken. */
    ghost predicate Valid()
      reads this
    {
      dataPoints == Trimmed(history)
    }

    constructor ()
      ensures Valid() && dataPoints == [] && history == []
    {
      dataPoints := [];
      history := [];
    }

    /** `sample`: the provider's count, or 0 with no provider, appended and then trimmed to the window. */
    method Sample(provider: Option<int>, id: nat, now: real)
      requires Valid()
      modifies this
      ensures Valid()
      ensures history == old(history) + [DataPoint(id, now, provider.GetOr(0))]
      ensures dataPoints == Trimmed(old(dataPoints) + [DataPoint(id, now, provider.GetOr(0))])
    {
      var count := provider.GetOr(0);
      var point := DataPoint(id, now, count);
      dataPoints := dataPoints + [point];
      if |dataPoints| > MaxPoints {
        dataPoints := dataPoints[|dataPoints| - MaxPoints..];
      }
      TrimAbsorbs(history, point);
      history := history + [point];
    }
  }
}
