/** The analysis server's latency statistics (data_analysis/server.py): the
    MQTT callback that folds every reported delay into a running mean, and the
    `GET /delay` handler that reports it. Numbers are exact reals; the Python
    floats' rounding is not modelled. */
module DelayAverage {
  import opened Wrappers
  import opened JsonValue

  const DelayTopic: string := "iot_alarm/delay"

  /** What one call of `handle_mqtt_message` did. */
  datatype Outcome =
    | Raised          // `.decode()` raised `UnicodeDecodeError`, which is not caught
    | InvalidJson     // `JSONDecodeError`: logged
    | OtherTopic      // decoded, but not on the delay topic
    | Rejected        // `float(payload.get("delay"))` raised: logged, nothing changes
    | Accepted(delay: real)

  function Sum(s: seq<real>): real {
    if s == [] then 0.0 else s[0] + Sum(s[1..])
  }

  /** The arithmetic mean of the delays, 0 when there are none (the initial
      value of `cumulative_average`). */
  function Mean(s: seq<real>): real {
    if s == [] then 0.0 else Sum(s) / |s| as real
  }

  lemma {:induction false} SumAppend(s: seq<real>, d: real)
    ensures Sum(s + [d]) == Sum(s) + d
  {
    if s != [] {
      assert (s + [d])[1..] == s[1..] + [d];
      SumAppend(s[1..], d);
    }
  }

  /** The source's update `((avg * (n - 1)) + d) / n`, with `n` the count after
      the increment, turns the mean of `s` into the mean of `s + [d]`. */
  lemma MeanStep(s: seq<real>, d: real)
    ensures (Mean(s) * |s| as real + d) / (|s| + 1) as real == Mean(s + [d])
  {
    SumAppend(s, d);
    if s != [] {
      assert Mean(s) * |s| as real == Sum(s);
    }
  }

  /** The mean lies between any bounds of the delays it averages. */
  lemma {:induction false} MeanBounds(s: seq<real>, lo: real, hi: real)
    requires s != []
    requires forall k :: 0 <= k < |s| ==> lo <= s[k] <= hi
    ensures lo <= Mean(s) <= hi
  {
    SumBounds(s, lo, hi);
    var n := |s| as real;
    DivMonotone(lo * n, Sum(s), n);
    DivMonotone(Sum(s), hi * n, n);
    MulDiv(lo, n);
    MulDiv(hi, n);
    assert Mean(s) == Sum(s) / n;
  }

  lemma MulDiv(x: real, n: real)
    requires n > 0.0
    ensures (x * n) / n == x
  {
  }

  lemma DivMonotone(a: real, b: real, n: real)
    requires n > 0.0 && a <= b
    ensures a / n <= b / n
  {
  }

  lemma {:induction false} SumBounds(s: seq<real>, lo: real, hi: real)
    requires forall k :: 0 <= k < |s| ==> lo <= s[k] <= hi
    ensures lo * |s| as real <= Sum(s) <= hi * |s| as real
  {
    if s != [] {
      SumBounds(s[1..], lo, hi);
    }
  }

  /** What `handle_mqtt_message` makes of a message: the delay it accepts, if any. */
  function Classify(topic: string, body: Body): (r: Outcome)
    ensures r.Accepted? <==> topic == DelayTopic && body.Decoded? && Get(body.value, "delay").Some?
                              && PyFloat(Get(body.value, "delay").value).Some?
    ensures r.Accepted? ==> r.delay == PyFloat(Get(body.value, "delay").value).value
    ensures topic != DelayTopic && body.Decoded? ==> r == OtherTopic
  {
    match body
    case NotUtf8 => Raised
    case NotJson => InvalidJson
    case Decoded(payload) =>
      if topic != DelayTopic then OtherTopic
      else match Get(payload, "delay")
        case None => Rejected
        case Some(v) => match PyFloat(v)
          case None => Rejected
          case Some(delay) => Accepted(delay)
  }

  class DelayStats {
    var cumulativeAverage: real
    var numDelays: nat
    /** Every delay accepted so far, oldest first. */
    ghost var delays: seq<real>

    ghost predicate Valid()
      reads this
    {
      numDelays == |delays| && cumulativeAverage == Mean(delays)
    }

    constructor ()
      ensures Valid() && delays == [] && cumulativeAverage == 0.0 && numDelays == 0
    {
      cumulativeAverage, numDelays, delays := 0.0, 0, [];
    }

    /** `handle_mqtt_message`: on the delay topic, counts the delay and folds
        it into the running mean; anything else changes nothing. */
    method HandleMqttMessage(topic: string, body: Body) returns (outcome: Outcome)
      requires Valid()
      modifies this
      ensures Valid()
      ensures outcome == Classify(topic, body)
      ensures outcome.Accepted? ==> delays == old(delays) + [outcome.delay] && numDelays == old(numDelays) + 1
      ensures !outcome.Accepted? ==>
        delays == old(delays) && numDelays == old(numDelays) && cumulativeAverage == old(cumulativeAverage)
    {
      if body.NotUtf8? {
        return Raised;
      }
      if body.NotJson? {
        return InvalidJson;
      }
      if topic != DelayTopic {
        return OtherTopic;
      }
      var member := Get(body.value, "delay");
      if member.None? || PyFloat(member.value).None? {
        return Rejected;
      }
      var delay := PyFloat(member.value).value;
      MeanStep(delays, delay);
      numDelays := numDelays + 1;
      cumulativeAverage := ((cumulativeAverage * (numDelays - 1) as real) + delay) / numDelays as real;
      delays := delays + [delay];
      outcome := Accepted(delay);
    }

    /** `GET /delay`: the mean of every accepted delay, with status 200. */
    method GetAverageDelay() returns (delay: real, status: int)
      requires Valid()
      ensures delay == Mean(delays) && status == 200
    {
      delay, status := cumulativeAverage, 200;
    }
  }
}
