/**
 * The current ZooKeeper-backed sequence clock: an optimistic
 * read-increment-write loop on one counter node per key, which creates the
 * node on first use and re-reads on a version conflict or an interruption,
 * inside an outer loop that sorts store failures into fatal (session
 * expired) and retryable (connection loss, anything else) ones.
 *
 * The clock's behaviour is first given as functions over a value `World`
 * (the store and the metric calls so far); the `ZkClock` class runs the
 * same loops against a `Store` and a `MetricsRecorder` and is proved to end
 * in the state those functions describe.
 */
module ZkSequenceClock {
  import opened Outcomes
  import opened LongCodec
  import opened CounterStore
  import opened MetricCalls

  const DefaultRetryDelay: nat := 100
  const DefaultRetryCount: int := 10

  /** What the clock can see and change: the store and the metric calls made so far. */
  datatype World = World(env: Env, calls: seq<ZkMetricCall>)

  /** What leaves `getAndIncrement`: a KeeperException, or the unchecked underflow of `getLong`. */
  datatype Escape = KeeperThrown(error: KeeperError) | BufferUnderflow

  /** How one pass of the `while (!committed)` body ends. */
  datatype Pass = Committed(id: int) | Again | Thrown(escape: Escape)

  /** What `getNextSequence` throws. */
  datatype ClockFailure =
    | SequencingException(message: string, cause: Option<KeeperError>)
    | BufferUnderflowException

  function Note(w: World, c: ZkMetricCall): World {
    World(w.env, w.calls + [c])
  }

  function FailedMessage(key: Path): string {
    "Failed to obtain next sequence for key " + key
  }

  /** `createKey`: `None` when the node was created, already existed or the create was interrupted. */
  function CreateKeySpec(w: World, key: Path): (r: (Option<KeeperError>, World))
    ensures Step(w.env, r.1.env)
    ensures w.env.script == [] && key !in w.env.nodes ==> r.0.None? && key in r.1.env.nodes
  {
    var (r, env) := CreateSpec(w.env, key, DefaultData);
    match r
    case Done(_) => (None, World(env, w.calls + [KeyCreation]))
    case Interrupted => (None, World(env, w.calls + [InterruptedEvent]))
    case Keeper(e) =>
      if e.code == NodeExists then (None, World(env, w.calls))
      else (Some(e), World(env, w.calls + [KeeperExceptionEvent]))
  }

  /** The three `catch (KeeperException ...)` outcomes inside the increment loop. */
  function CatchSpec(w: World, key: Path, e: KeeperError): (r: (Pass, World))
    ensures |r.1.env.script| <= |w.env.script| && w.env.nodes.Keys <= r.1.env.nodes.Keys
    ensures r.0.Again? && w.env.script == [] && e.code == NoNode ==> key in r.1.env.nodes
    ensures !r.0.Again? ==> r.0.Thrown? && r.0.escape.KeeperThrown?
  {
    if e.code == NoNode then
      var (thrown, w') := CreateKeySpec(w, key);
      if thrown.Some? then (Thrown(KeeperThrown(thrown.value)), w') else (Again, w')
    else if e.code == BadVersion then (Again, Note(w, KeyCollision))
    else (Thrown(KeeperThrown(e)), w)
  }

  /** Nothing is consumed from nothing, and a pass that goes round again has used up script or created the key. */
  ghost predicate Progress(w: World, w': World, key: Path, again: bool) {
    && |w'.env.script| <= |w.env.script|
    && (key in w.env.nodes ==> key in w'.env.nodes)
    && (again ==> |w'.env.script| < |w.env.script| || (key !in w.env.nodes && key in w'.env.nodes))
  }

  /** One pass of the body of `while (!committed)`. */
  function RoundSpec(w: World, key: Path): (r: (Pass, World))
    ensures Progress(w, r.1, key, r.0.Again?)
  {
    var (got, env1) := GetDataSpec(w.env, key);
    var w1 := World(env1, w.calls);
    match got
    case Interrupted => (Again, Note(w1, InterruptedEvent))
    case Keeper(e) => CatchSpec(w1, key, e)
    case Done(node) =>
      if |node.data| < 8 then (Thrown(BufferUnderflow), w1)
      else WriteBackSpec(w1, key, node)
  }

  /** The rest of a pass once `node` has been read: `setData` of the next value, conditioned on the read version. */
  function WriteBackSpec(w: World, key: Path, node: Node): (r: (Pass, World))
    requires |node.data| >= 8
    ensures |r.1.env.script| <= |w.env.script| && w.env.nodes.Keys <= r.1.env.nodes.Keys
    ensures w.env.script == [] && key in w.env.nodes && w.env.nodes[key] == node ==> r.0.Committed?
  {
    var id := Inc(DecodeLong(node.data));
    var (put, env2) := SetDataSpec(w.env, key, Bumped(node.data), node.version);
    var w2 := World(env2, w.calls);
    match put
    case Done(_) => (Committed(id), w2)
    case Interrupted => (Again, Note(w2, InterruptedEvent))
    case Keeper(e) => CatchSpec(w2, key, e)
  }

  /** `getAndIncrement`: passes until one commits or throws. */
  function IncrementSpec(w: World, key: Path): (r: (Pass, World))
    ensures !r.0.Again?
    decreases |w.env.script|, if key in w.env.nodes then 0 else 1
  {
    var (p, w1) := RoundSpec(w, key);
    if p.Again? then IncrementSpec(w1, key) else (p, w1)
  }

  /** `retryWithDelay(attempt)`: the pause taken, none after the first attempt. */
  function Backoff(attempt: int, delay: nat): seq<nat> {
    if attempt > 0 then [attempt * delay] else []
  }

  /** `getNextSequence` from attempt `i` on, with `recent` the most recent error so far. */
  function NextSequenceSpec(w: World, naps: seq<nat>, key: Path, i: int, recent: Option<KeeperError>,
                            count: int, delay: nat): (Result<int, ClockFailure>, World, seq<nat>)
    decreases count - i
  {
    if i >= count then (Failure(SequencingException(FailedMessage(key), recent)), w, naps)
    else
      var (p, w1) := IncrementSpec(w, key);
      match p
      case Committed(id) => (Success(id), w1, naps)
      case Thrown(BufferUnderflow) => (Failure(BufferUnderflowException), w1, naps)
      case Thrown(KeeperThrown(e)) =>
        if e.code == SessionExpired then
          (Failure(SequencingException("Session expired", Some(e))), Note(w1, SessionExpiredEvent), naps)
        else if e.code == ConnectionLoss then
          NextSequenceSpec(Note(w1, ConnectionLossEvent), naps + Backoff(i, delay), key, i + 1, Some(e), count, delay)
        else
          NextSequenceSpec(Note(w1, KeeperExceptionEvent), naps, key, i + 1, Some(e), count, delay)
  }

  class ZkClock {
    const keeper: Store
    const metrics: MetricsRecorder
    const retryDelay: nat
    const retryCount: int
    /** The pauses `retryWithDelay` has asked for, in milliseconds. */
    var naps: seq<nat>

    ghost function State(): World
      reads keeper, metrics
    {
      World(keeper.State(), metrics.calls)
    }

    constructor (keeper: Store, metrics: MetricsRecorder, retryDelay: nat, retryCount: int)
      ensures this.keeper == keeper && this.metrics == metrics
      ensures this.retryDelay == retryDelay && this.retryCount == retryCount
      ensures naps == []
    {
      this.keeper := keeper;
      this.metrics := metrics;
      this.retryDelay := retryDelay;
      this.retryCount := retryCount;
      naps := [];
    }

    method GetNextSequence(key: Path) returns (r: Result<int, ClockFailure>)
      modifies this, keeper, metrics
      ensures (r, State(), naps) == NextSequenceSpec(old(State()), old(naps), key, 0, None, retryCount, retryDelay)
    {
      var recent: Option<KeeperError> := None;
      var i := 0;
      while i < retryCount
        invariant 0 <= i
        invariant NextSequenceSpec(State(), naps, key, i, recent, retryCount, retryDelay)
               == NextSequenceSpec(old(State()), old(naps), key, 0, None, retryCount, retryDelay)
      {
        var p := GetAndIncrement(key);
        ghost var w1 := State();
        match p {
          case Committed(id) =>
            return Success(id);
          case Thrown(BufferUnderflow) =>
            return Failure(BufferUnderflowException);
          case Thrown(KeeperThrown(e)) =>
            if e.code == SessionExpired {
              metrics.Record(SessionExpiredEvent);
              assert State() == Note(w1, SessionExpiredEvent);
              return Failure(SequencingException("Session expired", Some(e)));
            } else if e.code == ConnectionLoss {
              metrics.Record(ConnectionLossEvent);
              recent := Some(e);
              RetryWithDelay(i);
              assert State() == Note(w1, ConnectionLossEvent);
            } else {
              metrics.Record(KeeperExceptionEvent);
              recent := Some(e);
              assert State() == Note(w1, KeeperExceptionEvent);
            }
        }
        i := i + 1;
      }
      r := Failure(SequencingException(FailedMessage(key), recent));
    }

    method RetryWithDelay(attempt: int)
      modifies this
      ensures naps == old(naps) + Backoff(attempt, retryDelay)
    {
      if attempt > 0 {
        naps := naps + [attempt * retryDelay];
      }
    }

    method GetAndIncrement(key: Path) returns (p: Pass)
      modifies keeper, metrics
      ensures (p, State()) == IncrementSpec(old(State()), key)
    {
      var committed := false;
      var id := 0;
      while !committed
        invariant !committed ==> IncrementSpec(State(), key) == IncrementSpec(old(State()), key)
        invariant committed ==> (Committed(id), State()) == IncrementSpec(old(State()), key)
        decreases |keeper.script|, (if key in keeper.nodes then 0 else 1), (if committed then 0 else 1)
      {
        ghost var before := State();
        var got := keeper.GetData(key);
        ghost var read := State();
        match got {
          case Done(node) =>
            if |node.data| < 8 {
              assert RoundSpec(before, key) == (Thrown(BufferUnderflow), State());
              return Thrown(BufferUnderflow);
            }
            var payload;
            id, payload := NextPayload(node.data);
            var put := keeper.SetData(key, payload, node.version);
            match put {
              case Done(_) =>
                committed := true;
              case Interrupted =>
                metrics.Record(InterruptedEvent);
              case Keeper(e) =>
                var thrown := Catch(key, e);
                if thrown.Some? {
                  assert WriteBackSpec(read, key, node) == (Thrown(KeeperThrown(thrown.value)), State());
                  assert RoundSpec(before, key) == (Thrown(KeeperThrown(thrown.value)), State());
                  return Thrown(KeeperThrown(thrown.value));
                }
            }
            assert WriteBackSpec(read, key, node) == (if committed then Committed(id) else Again, State());
          case Interrupted =>
            metrics.Record(InterruptedEvent);
          case Keeper(e) =>
            var thrown := Catch(key, e);
            if thrown.Some? {
              assert RoundSpec(before, key) == (Thrown(KeeperThrown(thrown.value)), State());
              return Thrown(KeeperThrown(thrown.value));
            }
        }
        assert RoundSpec(before, key) == (if committed then Committed(id) else Again, State());
      }
      p := Committed(id);
    }

    /** The catch clauses for NoNode and BadVersion; any other error is handed back to be rethrown. */
    method Catch(key: Path, e: KeeperError) returns (thrown: Option<KeeperError>)
      modifies keeper, metrics
      ensures var (p, w) := CatchSpec(old(State()), key, e);
              State() == w && (if p.Again? then thrown.None? else thrown.Some? && p == Thrown(KeeperThrown(thrown.value)))
    {
      if e.code == NoNode {
        thrown := CreateKey(key);
      } else if e.code == BadVersion {
        metrics.Record(KeyCollision);
        thrown := None;
      } else {
        thrown := Some(e);
      }
    }

    method CreateKey(key: Path) returns (thrown: Option<KeeperError>)
      modifies keeper, metrics
      ensures (thrown, State()) == CreateKeySpec(old(State()), key)
    {
      var made := keeper.Create(key, DefaultData);
      match made {
        case Done(_) =>
          metrics.Record(KeyCreation);
          thrown := None;
        case Interrupted =>
          metrics.Record(InterruptedEvent);
          thrown := None;
        case Keeper(e) =>
          if e.code == NodeExists {
            thrown := None;
          } else {
            metrics.Record(KeeperExceptionEvent);
            thrown := Some(e);
          }
      }
    }
  }
}
