/**
 * `ZooKeeperMetricsJmx` of the older server. It extends the older
 * `SequencingMetricsJmx`, modelled here as the `base` bean it holds, and
 * counts key collisions only: every other increment does nothing and every
 * other getter answers 0. Registration with JMX is not part of this model.
 */
module LegacyZooKeeperMetricsJmxModel {
  import opened JavaInt
  import opened MetricCalls
  import Base = LegacySequencingMetricsJmxModel

  const BeanName: string := "com.talis:name=ZkSequencingMetrics"

  /** The older bean's counter after one call on its `ZooKeeperMetrics` interface: only a key collision moves it. */
  function AfterCall(count: int, call: ZkMetricCall): int {
    if call == KeyCollision then Bump(count) else count
  }

  /** The older bean's counter after receiving `calls` from new. */
  function CollisionsAfter(calls: seq<ZkMetricCall>): int {
    if calls == [] then 0
    else AfterCall(CollisionsAfter(calls[..|calls| - 1]), calls[|calls| - 1])
  }

  /** As long as it cannot wrap, the older bean's counter holds exactly the key collisions among the calls. */
  lemma {:induction false} CollisionsCounted(calls: seq<ZkMetricCall>)
    requires |calls| <= MaxInt
    ensures CollisionsAfter(calls) == Count(calls, KeyCollision)
  {
    if calls != [] {
      var init := calls[..|calls| - 1];
      CollisionsCounted(init);
      CountBound(init, KeyCollision);
    }
  }

  lemma {:induction false} CountBound(calls: seq<ZkMetricCall>, c: ZkMetricCall)
    ensures Count(calls, c) <= |calls|
  {
    if calls != [] {
      CountBound(calls[..|calls| - 1], c);
    }
  }

  class ZooKeeperMetricsJmx {
    const base: Base.SequencingMetricsJmx
    var keyCollisions: int

    constructor ()
      ensures fresh(base) && base.sequencesGenerated == 0 && keyCollisions == 0
    {
      base := new Base.SequencingMetricsJmx();
      keyCollisions := 0;
    }

    method IncrementKeyCollisions()
      modifies this
      ensures keyCollisions == Bump(old(keyCollisions))
    {
      keyCollisions := Bump(keyCollisions);
    }

    method GetKeyCollisions() returns (r: int)
      modifies this
      ensures (r, keyCollisions) == Take(old(keyCollisions))
    {
      r := keyCollisions;
      keyCollisions := 0;
    }

    /** The call `call` on the `ZooKeeperMetrics` interface: anything but a key collision is ignored. */
    method Receive(call: ZkMetricCall)
      modifies this
      ensures keyCollisions == AfterCall(old(keyCollisions), call)
    {
      match call {
        case KeyCollision => IncrementKeyCollisions();
        case KeyCreation => IncrementKeyCreations();
        case ConnectionLossEvent => IncrementConnectionLossEvents();
        case SessionExpiredEvent => IncrementExpiredSessionEvents();
        case InterruptedEvent => IncrementInterruptedExceptions();
        case KeeperExceptionEvent => IncrementKeeperExceptions();
      }
    }

    method IncrementConnectionLossEvents()
      ensures unchanged(this)
    {
    }

    method IncrementExpiredSessionEvents()
      ensures unchanged(this)
    {
    }

    method IncrementInterruptedExceptions()
      ensures unchanged(this)
    {
    }

    method IncrementKeeperExceptions()
      ensures unchanged(this)
    {
    }

    method IncrementKeyCreations()
      ensures unchanged(this)
    {
    }

    method GetConnectionLossEvents() returns (r: int)
      ensures r == 0
    {
      r := 0;
    }

    method GetInterruptedExceptions() returns (r: int)
      ensures r == 0
    {
      r := 0;
    }

    method GetKeeperExceptions() returns (r: int)
      ensures r == 0
    {
      r := 0;
    }

    method GetKeyCreations() returns (r: int)
      ensures r == 0
    {
      r := 0;
    }

    method GetSessionExpiredEvents() returns (r: int)
      ensures r == 0
    {
      r := 0;
    }
  }
}
