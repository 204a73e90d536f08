/**
 * The `ZooKeeperMetrics` sink the current clock reports to, modelled as the
 * sequence of calls it receives (what the strict mocks of the clock's tests
 * check). `ZooKeeperMetricsJmx` in module ZooKeeperMetricsJmxModel is the
 * counting implementation.
 */
module MetricCalls {

  /** One call on the `ZooKeeperMetrics` interface. */
  datatype ZkMetricCall =
    | KeyCollision
    | KeyCreation
    | ConnectionLossEvent
    | SessionExpiredEvent
    | InterruptedEvent
    | KeeperExceptionEvent

  /** How many times `c` occurs in `calls`. */
  function Count(calls: seq<ZkMetricCall>, c: ZkMetricCall): nat
  {
    if calls == [] then 0
    else Count(calls[..|calls| - 1], c) + (if calls[|calls| - 1] == c then 1 else 0)
  }

  lemma {:induction false} CountAppend(a: seq<ZkMetricCall>, b: seq<ZkMetricCall>, c: ZkMetricCall)
    ensures Count(a + b, c) == Count(a, c) + Count(b, c)
  {
    if b != [] {
      assert (a + b)[..|a + b| - 1] == a + b[..|b| - 1];
      CountAppend(a, b[..|b| - 1], c);
    } else {
      assert a + b == a;
    }
  }

  class MetricsRecorder {
    var calls: seq<ZkMetricCall>

    constructor ()
      ensures calls == []
    {
      calls := [];
    }

    method Record(c: ZkMetricCall)
      modifies this
      ensures calls == old(calls) + [c]
    {
      calls := calls + [c];
    }
  }
}
