/**
 * The earlier ZooKeeper-backed sequence clock. It runs the same optimistic
 * read-increment-write protocol as the current one, with these differences:
 *   - it reports no metrics;
 *   - after creating a missing node it starts over by calling itself;
 *   - an interrupted create is rethrown;
 *   - any KeeperException other than NoNode and BadVersion escapes at once;
 *   - only connection losses are retried, with settings fixed at
 *     construction (10 attempts, 500 ms steps);
 *   - when the attempts run out it rethrows the FIRST connection loss.
 */
module LegacyZkSequenceClock {
  import opened Outcomes
  import opened LongCodec
  import opened CounterStore

  const RetryDelay: nat := 500
  const RetryCount: int := 10

  /** What escapes `incrementCounter`. */
  datatype Escape = KeeperThrown(error: KeeperError) | InterruptedThrown | UnderflowThrown

  /** What escapes `getNextSequence`; `NullThrown` is `throw exception` with nothing recorded. */
  datatype Thrown = Rethrown(escape: Escape) | NullThrown

  /** How one pass of the `while (!committed)` body ends; a created node also ends in `Again`. */
  datatype Pass = Committed(id: int) | Again | Escaped(escape: Escape)

  /** `createKey`: `None` when the node was created or already existed. */
  function CreateKeySpec(e: Env, key: Path): (r: (Option<Escape>, Env))
    ensures Step(e, r.1)
    ensures e.script == [] && key !in e.nodes ==> r.0.None? && key in r.1.nodes
  {
    var (made, e1) := CreateSpec(e, key, DefaultData);
    match made
    case Done(_) => (None, e1)
    case Interrupted => (Some(InterruptedThrown), e1)
    case Keeper(err) => if err.code == NodeExists then (None, e1) else (Some(KeeperThrown(err)), e1)
  }

  /** The catch clauses of the increment loop. */
  function CatchSpec(e: Env, key: Path, err: KeeperError): (r: (Pass, Env))
    ensures |r.1.script| <= |e.script| && e.nodes.Keys <= r.1.nodes.Keys
    ensures r.0.Again? && e.script == [] && err.code == NoNode ==> key in r.1.nodes
    ensures !r.0.Again? ==> r.0.Escaped?
  {
    if err.code == NoNode then
      var (thrown, e1) := CreateKeySpec(e, key);
      if thrown.Some? then (Escaped(thrown.value), e1) else (Again, e1)
    else if err.code == BadVersion then (Again, e)
    else (Escaped(KeeperThrown(err)), e)
  }

  ghost predicate Progress(e: Env, e': Env, key: Path, again: bool) {
    && |e'.script| <= |e.script|
    && (key in e.nodes ==> key in e'.nodes)
    && (again ==> |e'.script| < |e.script| || (key !in e.nodes && key in e'.nodes))
  }

  /** One pass of the body of `while (!committed)`. */
  function RoundSpec(e: Env, key: Path): (r: (Pass, Env))
    ensures Progress(e, r.1, key, r.0.Again?)
  {
    var (got, e1) := GetDataSpec(e, key);
    match got
    case Interrupted => (Again, e1)
    case Keeper(err) => CatchSpec(e1, key, err)
    case Done(node) =>
      if |node.data| < 8 then (Escaped(UnderflowThrown), e1)
      else WriteBackSpec(e1, key, node)
  }

  function WriteBackSpec(e: Env, key: Path, node: Node): (r: (Pass, Env))
    requires |node.data| >= 8
    ensures |r.1.script| <= |e.script| && e.nodes.Keys <= r.1.nodes.Keys
    ensures e.script == [] && key in e.nodes && e.nodes[key] == node ==> r.0.Committed?
  {
    var (put, e2) := SetDataSpec(e, key, Bumped(node.data), node.version);
    match put
    case Done(_) => (Committed(Inc(DecodeLong(node.data))), e2)
    case Interrupted => (Again, e2)
    case Keeper(err) => CatchSpec(e2, key, err)
  }

  /** `incrementCounter`: passes until one commits or throws. */
  function IncrementSpec(e: Env, key: Path): (r: (Pass, Env))
    ensures !r.0.Again?
    decreases |e.script|, if key in e.nodes then 0 else 1
  {
    var (p, e1) := RoundSpec(e, key);
    if p.Again? then IncrementSpec(e1, key) else (p, e1)
  }

  /** `retryWithDelay(attempt)`. */
  function Backoff(attempt: int, delay: nat): seq<nat> {
    if attempt > 0 then [attempt * delay] else []
  }

  /**
   * `getNextSequence` from attempt `i` on, with `first` the first connection
   * loss so far; `count` and `delay` are the clock's `retryCount` and `retryDelay`.
   */
  function NextSequenceSpec(e: Env, naps: seq<nat>, key: Path, i: int, first: Option<KeeperError>, count: int, delay: nat)
    : (Result<int, Thrown>, Env, seq<nat>)
    decreases count - i
  {
    if i >= count then
      (Failure(if first.Some? then Rethrown(KeeperThrown(first.value)) else NullThrown), e, naps)
    else
      var (p, e1) := IncrementSpec(e, key);
      if p.Committed? then (Success(p.id), e1, naps)
      else if p.escape.KeeperThrown? && p.escape.error.code == ConnectionLoss then
        NextSequenceSpec(e1, naps + Backoff(i, delay), key, i + 1, if first.Some? then first else Some(p.escape.error), count, delay)
      else (Failure(Rethrown(p.escape)), e1, naps)
  }

  class ZkClock {
    const keeper: Store
    const retryDelay: nat
    const retryCount: int
    /** The pauses `retryWithDelay` has asked for, in milliseconds. */
    var naps: seq<nat>

    constructor (keeper: Store)
      ensures this.keeper == keeper && naps == []
      ensures retryDelay == RetryDelay && retryCount == RetryCount
    {
      this.keeper := keeper;
      retryDelay := RetryDelay;
      retryCount := RetryCount;
      naps := [];
    }

    method GetNextSequence(key: Path) returns (r: Result<int, Thrown>)
      modifies this, keeper
      ensures (r, keeper.State(), naps) == NextSequenceSpec(old(keeper.State()), old(naps), key, 0, None, retryCount, retryDelay)
    {
      var exception: Option<KeeperError> := None;
      var i := 0;
      while i < retryCount
        invariant 0 <= i
        invariant NextSequenceSpec(keeper.State(), naps, key, i, exception, retryCount, retryDelay)
               == NextSequenceSpec(old(keeper.State()), old(naps), key, 0, None, retryCount, retryDelay)
      {
        var p := IncrementCounter(key);
        match p {
          case Committed(id) =>
            return Success(id);
          case Escaped(KeeperThrown(err)) =>
            if err.code != ConnectionLoss {
              return Failure(Rethrown(KeeperThrown(err)));
            }
            if exception.None? {
              exception := Some(err);
            }
            RetryWithDelay(i);
          case Escaped(t) =>
            return Failure(Rethrown(t));
        }
        i := i + 1;
      }
      r := Failure(if exception.Some? then Rethrown(KeeperThrown(exception.value)) else NullThrown);
    }

    method RetryWithDelay(attempt: int)
      modifies this
      ensures naps == old(naps) + Backoff(attempt, retryDelay)
    {
      if attempt > 0 {
        naps := naps + [attempt * retryDelay];
      }
    }

    /** `incrementCounter`, which calls itself once it has created a missing node. */
    method IncrementCounter(key: Path) returns (p: Pass)
      modifies keeper
      ensures (p, keeper.State()) == IncrementSpec(old(keeper.State()), key)
      decreases |keeper.script|, if key in keeper.nodes then 0 else 1
    {
      var committed := false;
      var id := 0;
      while !committed
        invariant !committed ==> IncrementSpec(keeper.State(), key) == IncrementSpec(old(keeper.State()), key)
        invariant committed ==> (Committed(id), keeper.State()) == IncrementSpec(old(keeper.State()), key)
        invariant |keeper.script| <= |old(keeper.script)|
        invariant key in old(keeper.nodes) ==> key in keeper.nodes
        decreases |keeper.script|, (if key in keeper.nodes then 0 else 1), (if committed then 0 else 1)
      {
        ghost var before := keeper.State();
        // the body of the `try` block; a KeeperException it raises is kept in `caught`
        var caught: Option<KeeperError> := None;
        var got := keeper.GetData(key);
        match got {
          case Done(node) =>
            if |node.data| < 8 {
              assert RoundSpec(before, key) == (Escaped(UnderflowThrown), keeper.State());
              return Escaped(UnderflowThrown);
            }
            ghost var read := keeper.State();
            var payload;
            id, payload := NextPayload(node.data);
            var put := keeper.SetData(key, payload, node.version);
            match put {
              case Done(_) => committed := true;
              case Interrupted =>
              case Keeper(err) => caught := Some(err);
            }
            assert WriteBackSpec(read, key, node)
                == if caught.Some? then CatchSpec(keeper.State(), key, caught.value)
                   else (if committed then Committed(id) else Again, keeper.State());
          case Interrupted =>
          case Keeper(err) => caught := Some(err);
        }
        assert RoundSpec(before, key)
            == if caught.Some? then CatchSpec(keeper.State(), key, caught.value)
               else (if committed then Committed(id) else Again, keeper.State());
        // the catch clauses
        if caught.Some? {
          var err := caught.value;
          if err.code == NoNode {
            var thrown := CreateKey(key);
            if thrown.Some? {
              return Escaped(thrown.value);
            }
            p := IncrementCounter(key);
            return;
          } else if err.code != BadVersion {
            return Escaped(KeeperThrown(err));
          }
        }
      }
      p := Committed(id);
    }

    method CreateKey(key: Path) returns (thrown: Option<Escape>)
      modifies keeper
      ensures (thrown, keeper.State()) == CreateKeySpec(old(keeper.State()), key)
    {
      var made := keeper.Create(key, DefaultData);
      match made {
        case Done(_) =>
          thrown := None;
        case Interrupted =>
          thrown := Some(InterruptedThrown);
        case Keeper(err) =>
          thrown := if err.code == NodeExists then None else Some(KeeperThrown(err));
      }
    }
  }
}
