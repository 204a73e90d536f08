/**
 * `ZooKeeperMetricsJmx` of the current server: six counters behind the
 * `ZooKeeperMetrics` calls the clock makes. A connection loss or a session
 * expiry also counts as a KeeperException. Each getter returns its counter
 * and sets it back to 0. Registration with JMX is not part of this model.
 */
module ZooKeeperMetricsJmxModel {
  import opened JavaInt
  import opened MetricCalls

  const BeanName: string := "com.talis:name=ZkSequencingMetrics"

  /** The six figures, named after their getters. */
  datatype Counter =
    | KeyCollisions
    | KeyCreations
    | ConnectionLossEvents
    | SessionExpiredEvents
    | InterruptedExceptions
    | KeeperExceptions

  datatype Counters = Counters(
    keyCollisions: int,
    keyCreations: int,
    connectionLossEvents: int,
    sessionExpiredEvents: int,
    interruptedExceptions: int,
    keeperExceptions: int)

  /** Every counter of a new bean starts at 0. */
  const Zero: Counters := Counters(0, 0, 0, 0, 0, 0)

  function Get(s: Counters, c: Counter): int {
    match c
    case KeyCollisions => s.keyCollisions
    case KeyCreations => s.keyCreations
    case ConnectionLossEvents => s.connectionLossEvents
    case SessionExpiredEvents => s.sessionExpiredEvents
    case InterruptedExceptions => s.interruptedExceptions
    case KeeperExceptions => s.keeperExceptions
  }

  /** What a getter leaves behind: its own counter at 0. */
  function Reset(s: Counters, c: Counter): Counters {
    match c
    case KeyCollisions => s.(keyCollisions := 0)
    case KeyCreations => s.(keyCreations := 0)
    case ConnectionLossEvents => s.(connectionLossEvents := 0)
    case SessionExpiredEvents => s.(sessionExpiredEvents := 0)
    case InterruptedExceptions => s.(interruptedExceptions := 0)
    case KeeperExceptions => s.(keeperExceptions := 0)
  }

  /** The `increment...` method the clock's call `call` lands on. */
  function Apply(s: Counters, call: ZkMetricCall): Counters {
    match call
    case KeyCollision => s.(keyCollisions := Bump(s.keyCollisions))
    case KeyCreation => s.(keyCreations := Bump(s.keyCreations))
    case ConnectionLossEvent =>
      s.(connectionLossEvents := Bump(s.connectionLossEvents), keeperExceptions := Bump(s.keeperExceptions))
    case SessionExpiredEvent =>
      s.(sessionExpiredEvents := Bump(s.sessionExpiredEvents), keeperExceptions := Bump(s.keeperExceptions))
    case InterruptedEvent => s.(interruptedExceptions := Bump(s.interruptedExceptions))
    case KeeperExceptionEvent => s.(keeperExceptions := Bump(s.keeperExceptions))
  }

  /** A new bean after receiving `calls`, with no getter called in between. */
  function Tally(calls: seq<ZkMetricCall>): Counters {
    if calls == [] then Zero else Apply(Tally(calls[..|calls| - 1]), calls[|calls| - 1])
  }

  /**
   * How many of `calls` a counter counts, stated independently of the bean:
   * its own call, and for KeeperExceptions also every connection loss and
   * session expiry.
   */
  function Expected(calls: seq<ZkMetricCall>, c: Counter): nat {
    match c
    case KeyCollisions => Count(calls, KeyCollision)
    case KeyCreations => Count(calls, KeyCreation)
    case ConnectionLossEvents => Count(calls, ConnectionLossEvent)
    case SessionExpiredEvents => Count(calls, SessionExpiredEvent)
    case InterruptedExceptions => Count(calls, InterruptedEvent)
    case KeeperExceptions =>
      Count(calls, KeeperExceptionEvent) + Count(calls, ConnectionLossEvent) + Count(calls, SessionExpiredEvent)
  }

  lemma {:induction false} ExpectedBound(calls: seq<ZkMetricCall>, c: Counter)
    ensures Expected(calls, c) <= |calls|
  {
    if calls != [] {
      ExpectedBound(calls[..|calls| - 1], c);
    }
  }

  /** One more call on counters that match the calls so far. */
  lemma ApplyCounts(calls: seq<ZkMetricCall>, call: ZkMetricCall, s: Counters)
    requires |calls| < MaxInt
    requires forall c :: Get(s, c) == Expected(calls, c)
    ensures forall c :: Get(Apply(s, call), c) == Expected(calls + [call], c)
  {
    var next := calls + [call];
    assert next[..|next| - 1] == calls;
    forall c
      ensures Get(Apply(s, call), c) == Expected(next, c)
    {
      ExpectedBound(calls, c);
    }
  }

  /**
   * However the calls interleave, as long as no counter can wrap, each
   * getter of a new bean would report exactly the calls its counter counts.
   */
  lemma {:induction false} TallyCounts(calls: seq<ZkMetricCall>)
    requires |calls| <= MaxInt
    ensures forall c :: Get(Tally(calls), c) == Expected(calls, c)
  {
    if calls != [] {
      var init := calls[..|calls| - 1];
      TallyCounts(init);
      ApplyCounts(init, calls[|calls| - 1], Tally(init));
      assert init + [calls[|calls| - 1]] == calls;
    }
  }

  /** A getter resets its own counter and no other. */
  lemma ResetOnlyOwn(s: Counters, c: Counter, d: Counter)
    ensures Get(Reset(s, c), d) == if c == d then 0 else Get(s, d)
  {
  }

  /** Three key collisions are read back as 3, and read again as 0. */
  lemma ThreeCollisions()
    ensures Get(Tally([KeyCollision, KeyCollision, KeyCollision]), KeyCollisions) == 3
    ensures Get(Reset(Tally([KeyCollision, KeyCollision, KeyCollision]), KeyCollisions), KeyCollisions) == 0
  {
    var calls := [KeyCollision, KeyCollision, KeyCollision];
    TallyCounts(calls);
    assert calls[..2] == [KeyCollision, KeyCollision] && [KeyCollision, KeyCollision][..1] == [KeyCollision];
    assert [KeyCollision][..0] == [];
  }

  class ZooKeeperMetricsJmx {
    var keyCollisions: int
    var keyCreations: int
    var connectionLossEvents: int
    var sessionExpiredEvents: int
    var interruptedExceptions: int
    var keeperExceptions: int

    ghost function State(): Counters
      reads this
    {
      Counters(keyCollisions, keyCreations, connectionLossEvents, sessionExpiredEvents,
               interruptedExceptions, keeperExceptions)
    }

    constructor ()
      ensures State() == Zero
    {
      keyCollisions, keyCreations, connectionLossEvents := 0, 0, 0;
      sessionExpiredEvents, interruptedExceptions, keeperExceptions := 0, 0, 0;
    }

    method IncrementKeyCollisions()
      modifies this
      ensures State() == Apply(old(State()), KeyCollision)
    {
      keyCollisions := Bump(keyCollisions);
    }

    method GetKeyCollisions() returns (r: int)
      modifies this
      ensures r == Get(old(State()), KeyCollisions) && State() == Reset(old(State()), KeyCollisions)
    {
      r := keyCollisions;
      keyCollisions := 0;
    }

    method IncrementKeyCreations()
      modifies this
      ensures State() == Apply(old(State()), KeyCreation)
    {
      keyCreations := Bump(keyCreations);
    }

    method GetKeyCreations() returns (r: int)
      modifies this
      ensures r == Get(old(State()), KeyCreations) && State() == Reset(old(State()), KeyCreations)
    {
      r := keyCreations;
      keyCreations := 0;
    }

    method IncrementConnectionLossEvents()
      modifies this
      ensures State() == Apply(old(State()), ConnectionLossEvent)
    {
      connectionLossEvents := Bump(connectionLossEvents);
      keeperExceptions := Bump(keeperExceptions);
    }

    method GetConnectionLossEvents() returns (r: int)
      modifies this
      ensures r == Get(old(State()), ConnectionLossEvents) && State() == Reset(old(State()), ConnectionLossEvents)
    {
      r := connectionLossEvents;
      connectionLossEvents := 0;
    }

    method IncrementSessionExpiredEvents()
      modifies this
      ensures State() == Apply(old(State()), SessionExpiredEvent)
    {
      sessionExpiredEvents := Bump(sessionExpiredEvents);
      keeperExceptions := Bump(keeperExceptions);
    }

    method GetSessionExpiredEvents() returns (r: int)
      modifies this
      ensures r == Get(old(State()), SessionExpiredEvents) && State() == Reset(old(State()), SessionExpiredEvents)
    {
      r := sessionExpiredEvents;
      sessionExpiredEvents := 0;
    }

    method IncrementInterruptedExceptions()
      modifies this
      ensures State() == Apply(old(State()), InterruptedEvent)
    {
      interruptedExceptions := Bump(interruptedExceptions);
    }

    method GetInterruptedExceptions() returns (r: int)
      modifies this
      ensures r == Get(old(State()), InterruptedExceptions) && State() == Reset(old(State()), InterruptedExceptions)
    {
      r := interruptedExceptions;
      interruptedExceptions := 0;
    }

    method IncrementKeeperExceptions()
      modifies this
      ensures State() == Apply(old(State()), KeeperExceptionEvent)
    {
      keeperExceptions := Bump(keeperExceptions);
    }

    method GetKeeperExceptions() returns (r: int)
      modifies this
      ensures r == Get(old(State()), KeeperExceptions) && State() == Reset(old(State()), KeeperExceptions)
    {
      r := keeperExceptions;
      keeperExceptions := 0;
    }
  }
}
