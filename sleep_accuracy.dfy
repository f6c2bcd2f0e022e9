/** Sleep-time measurement and its accuracy (data_analysis/sleep_accuracy.py).
    The query of the last day's `bed_state` records is abstract: its result is
    an input, either a failure (the query or the processing raised) or the
    records' timestamps, in whole seconds, and states, in query order. */
module SleepAccuracy {
  import opened Wrappers

  datatype QueryResult = QueryFailed | Records(times: seq<int>, states: seq<int>)

  /** The seconds spent in bed: over consecutive records `(k - 1, k)` whose
      earlier state is 1, the sum of the gaps `times[k] - times[k - 1]`. */
  function SleepSeconds(times: seq<int>, states: seq<int>): int
    requires |times| == |states|
  {
    if |times| <= 1 then 0
    else
      var n := |times|;
      SleepSeconds(times[..n - 1], states[..n - 1])
        + (if states[n - 2] == 1 then times[n - 1] - times[n - 2] else 0)
  }

  predicate NonDecreasing(times: seq<int>) {
    forall j, k :: 0 <= j <= k < |times| ==> times[j] <= times[k]
  }

  /** `get_total_sleep_time`: `None` when the query fails or returns no
      records, otherwise the sleep seconds converted to hours. */
  method TotalSleepTime(result: QueryResult) returns (hours: Option<real>)
    requires result.Records? ==> |result.times| == |result.states|
    ensures result.QueryFailed? ==> hours.None?
    ensures result.Records? ==>
      hours == if result.times == [] then None
               else Some(SleepSeconds(result.times, result.states) as real / 3600.0)
  {
    if result.QueryFailed? {
      return None;
    }
    var times, states := result.times, result.states;
    if times == [] {
      return None;
    }
    var total := 0;
    for i := 1 to |times|
      invariant total == SleepSeconds(times[..i], states[..i])
    {
      if states[i - 1] == 1 {
        total := total + (times[i] - times[i - 1]);
      }
      assert times[..i + 1][..i] == times[..i];
      assert states[..i + 1][..i] == states[..i];
    }
    assert times[..|times|] == times && states[..|states|] == states;
    hours := Some(total as real / 3600.0);
  }

  /** The state of the last record never counts: only a record followed by
      another one opens a gap. */
  lemma LastStateIgnored(times: seq<int>, states: seq<int>, other: int)
    requires |times| == |states| && states != []
    ensures SleepSeconds(times, states[..|states| - 1] + [other]) == SleepSeconds(times, states)
  {
    var n := |states|;
    var alt := states[..n - 1] + [other];
    if n > 1 {
      assert alt[..n - 1] == states[..n - 1];
      assert alt[n - 2] == states[n - 2];
    }
  }

  /** With nobody in bed before the last record there is no sleep. */
  lemma {:induction false} NoSleepWithoutBed(times: seq<int>, states: seq<int>)
    requires |times| == |states|
    requires forall k :: 0 <= k < |states| - 1 ==> states[k] != 1
    ensures SleepSeconds(times, states) == 0
  {
    if |times| > 1 {
      NoSleepWithoutBed(times[..|times| - 1], states[..|states| - 1]);
    }
  }

  /** For records in time order, the sleep lies between 0 and the span of the
      records, and reaches the span when every state but the last is 1. */
  lemma {:induction false} SleepWithinSpan(times: seq<int>, states: seq<int>)
    requires |times| == |states| && times != []
    requires NonDecreasing(times)
    ensures 0 <= SleepSeconds(times, states) <= times[|times| - 1] - times[0]
    ensures (forall k :: 0 <= k < |states| - 1 ==> states[k] == 1) ==>
      SleepSeconds(times, states) == times[|times| - 1] - times[0]
  {
    var n := |times|;
    if n > 1 {
      SleepWithinSpan(times[..n - 1], states[..n - 1]);
      assert times[n - 2] <= times[n - 1];
    }
  }

  /** `100 - |measured - truth| / truth * 100`, the accuracy `main` reports;
      `None` when `truth` is 0, where numpy's division yields a non-finite value. */
  function Accuracy(measured: real, truth: real): (r: Option<real>)
    ensures r.None? <==> truth == 0.0
    ensures truth > 0.0 ==> r.Some? && r.value <= 100.0
    ensures truth > 0.0 ==> (r == Some(100.0) <==> measured == truth)
  {
    if truth == 0.0 then None
    else
      var diff := if measured >= truth then measured - truth else truth - measured;
      Some(100.0 - diff / truth * 100.0)
  }

  /** The closer the measurement, the higher the accuracy. */
  lemma AccuracyMonotone(m1: real, m2: real, truth: real)
    requires truth > 0.0
    requires (if m1 >= truth then m1 - truth else truth - m1) <= (if m2 >= truth then m2 - truth else truth - m2)
    ensures Accuracy(m1, truth).value >= Accuracy(m2, truth).value
  {
    var d1 := if m1 >= truth then m1 - truth else truth - m1;
    var d2 := if m2 >= truth then m2 - truth else truth - m2;
    assert d1 / truth <= d2 / truth;
  }
}
