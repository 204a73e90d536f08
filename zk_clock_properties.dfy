/**
 * What the current clock promises, proved about the functions that specify
 * it: the first number handed out for a new key is 0, every number handed
 * out is above the counter's previous value and is what the node now holds,
 * version conflicts are only counted when another writer got in, session
 * expiry is fatal and counted once, and failing attempts are retried until
 * the fault clears or the attempts run out.
 */
module ZkSequenceClockProperties {
  import opened Outcomes
  import opened LongCodec
  import opened CounterStore
  import opened MetricCalls
  import opened ZkSequenceClock

  /**
   * A pass commits only by writing the payload it read with its counter
   * moved on by one, conditioned on the version of that same read (the node
   * still had it when the write arrived); the number it hands out is the
   * value written.
   */
  lemma CommitWritesWhatItRead(w: World, key: Path)
    ensures var (p, w') := RoundSpec(w, key);
      p.Committed? ==>
        var (got, e1) := GetDataSpec(w.env, key);
        && got.Done? && |got.value.data| >= 8
        && key in e1.nodes && e1.nodes[key] == got.value
        && p.id == Inc(DecodeLong(got.value.data))
        && key in w'.env.nodes && w'.env.nodes[key] == Node(Bumped(got.value.data), got.value.version + 1)
  {
  }

  /** A call that throws or is interrupted but whose write or create still took effect. */
  predicate Applies(i: Interference) {
    (i.Fail? || i.Interrupt?) && i.applied
  }

  /** No other writer touches the counter: no rival increment and no failed or interrupted call that still wrote. */
  predicate NoRivals(script: seq<Interference>) {
    Raced !in script && forall i | i in script :: !Applies(i)
  }

  /** The key has not been created yet, or holds the payload it is created with. */
  ghost predicate Unborn(env: Env, key: Path) {
    key !in env.nodes || env.nodes[key].data == DefaultData
  }

  /** Nothing can write to the counter but this clock, and the counter is absent or fresh. */
  ghost predicate Calm(env: Env, key: Path) {
    Unborn(env, key) && NoRivals(env.script)
  }

  lemma NoRivalsStep(e: Env, e': Env)
    requires Step(e, e') && NoRivals(e.script)
    ensures NoRivals(e'.script)
    ensures e.script != [] ==> !e.script[0].Raced? && !Applies(e.script[0])
  {
    if e.script != [] {
      assert e.script[0] in e.script;
    }
  }

  lemma GetDataCalm(e: Env, key: Path)
    requires Calm(e, key)
    ensures var (got, e') := GetDataSpec(e, key);
      Calm(e', key) && (got.Done? ==> got.value.data == DefaultData)
  {
    NoRivalsStep(e, GetDataSpec(e, key).1);
  }

  lemma SetDataCalm(e: Env, key: Path, data: seq<Byte>, version: nat)
    requires Calm(e, key)
    ensures var (put, e') := SetDataSpec(e, key, data, version);
      && NoRivals(e'.script)
      && (put.Done? ==> key in e'.nodes && e'.nodes[key].data == data)
      && (!put.Done? ==> Unborn(e', key))
  {
    NoRivalsStep(e, SetDataSpec(e, key, data, version).1);
  }

  lemma CreateKeyCalm(w: World, key: Path)
    requires Calm(w.env, key)
    ensures Calm(CreateKeySpec(w, key).1.env, key)
  {
    NoRivalsStep(w.env, CreateSpec(w.env, key, DefaultData).1);
  }

  lemma CatchCalm(w: World, key: Path, e: KeeperError)
    requires Calm(w.env, key)
    ensures Calm(CatchSpec(w, key, e).1.env, key)
  {
    if e.code == NoNode {
      CreateKeyCalm(w, key);
    }
  }

  lemma RoundFromDefault(w: World, key: Path)
    requires Calm(w.env, key)
    ensures var (p, w') := RoundSpec(w, key);
      && NoRivals(w'.env.script)
      && (p.Committed? ==> p.id == 0 && key in w'.env.nodes && w'.env.nodes[key].data == EncodeLong(0))
      && (!p.Committed? ==> Unborn(w'.env, key))
  {
    GetDataCalm(w.env, key);
    var (got, env1) := GetDataSpec(w.env, key);
    var w1 := World(env1, w.calls);
    match got
    case Interrupted =>
    case Keeper(e) => CatchCalm(w1, key, e);
    case Done(node) =>
      if |node.data| >= 8 {
        DefaultDataIsMinusOne();
        assert Bumped(node.data) == EncodeLong(0);
        SetDataCalm(env1, key, Bumped(node.data), node.version);
        var (put, env2) := SetDataSpec(env1, key, Bumped(node.data), node.version);
        if put.Keeper? {
          CatchCalm(World(env2, w.calls), key, put.error);
        }
      }
  }

  lemma {:induction false} IncrementFromDefault(w: World, key: Path)
    requires Unborn(w.env, key) && NoRivals(w.env.script)
    ensures var (p, w') := IncrementSpec(w, key);
      && NoRivals(w'.env.script)
      && (p.Committed? ==> p.id == 0 && key in w'.env.nodes && w'.env.nodes[key].data == EncodeLong(0))
      && (!p.Committed? ==> Unborn(w'.env, key))
    decreases |w.env.script|, if key in w.env.nodes then 0 else 1
  {
    RoundFromDefault(w, key);
    var (p, w1) := RoundSpec(w, key);
    if p.Again? {
      IncrementFromDefault(w1, key);
    }
  }

  /**
   * The first number handed out for a key that does not exist yet is 0 (the
   * node is created holding -1 and then incremented), and the node then
   * holds 0, whatever failures and retries come first.
   */
  lemma {:induction false} FirstSequenceIsZero(w: World, naps: seq<nat>, key: Path, i: int,
                                               recent: Option<KeeperError>, count: int, delay: nat)
    requires Unborn(w.env, key) && NoRivals(w.env.script)
    ensures var (r, w', _) := NextSequenceSpec(w, naps, key, i, recent, count, delay);
      r.Success? ==> r.value == 0 && key in w'.env.nodes && |w'.env.nodes[key].data| >= 8 && DecodeLong(w'.env.nodes[key].data) == 0
    decreases count - i
  {
    if i < count {
      IncrementFromDefault(w, key);
      var (p, w1) := IncrementSpec(w, key);
      if p.Committed? {
        DecodeEncode(0);
      } else if p.Thrown? && p.escape.KeeperThrown? {
        var e := p.escape.error;
        if e.code == ConnectionLoss {
          FirstSequenceIsZero(Note(w1, ConnectionLossEvent), naps + Backoff(i, delay), key, i + 1, Some(e), count, delay);
        } else if e.code != SessionExpired {
          FirstSequenceIsZero(Note(w1, KeeperExceptionEvent), naps, key, i + 1, Some(e), count, delay);
        }
      }
    }
  }

  /**
   * The counter exists, holds at least `floor`, and cannot wrap before the
   * script runs out: each scripted call lets a rival add at most one.
   */
  ghost predicate Headroom(env: Env, key: Path, floor: int) {
    && key in env.nodes
    && |env.nodes[key].data| >= 8
    && floor <= DecodeLong(env.nodes[key].data)
    && DecodeLong(env.nodes[key].data) + |env.script| < MaxLong
  }

  lemma GetDataHeadroom(e: Env, key: Path, floor: int)
    requires Headroom(e, key, floor)
    ensures var (got, e') := GetDataSpec(e, key);
      Headroom(e', key, floor) && (got.Done? ==> got.value == e'.nodes[key])
  {
  }

  lemma SetDataHeadroom(e: Env, key: Path, node: Node, floor: int)
    requires Headroom(e, key, floor) && |node.data| >= 8
    requires e.nodes[key] == node || e.nodes[key].version > node.version
    ensures var (put, e') := SetDataSpec(e, key, Bumped(node.data), node.version);
      && (put.Done? ==> key in e'.nodes && e.nodes[key] == node && e'.nodes[key].data == Bumped(node.data))
      && (!put.Done? ==> Headroom(e', key, floor))
  {
  }

  lemma CreateKeyHeadroom(w: World, key: Path, floor: int)
    requires Headroom(w.env, key, floor)
    ensures Headroom(CreateKeySpec(w, key).1.env, key, floor)
  {
  }

  lemma CatchHeadroom(w: World, key: Path, e: KeeperError, floor: int)
    requires Headroom(w.env, key, floor)
    ensures Headroom(CatchSpec(w, key, e).1.env, key, floor)
  {
    if e.code == NoNode {
      CreateKeyHeadroom(w, key, floor);
    }
  }

  lemma RoundHeadroom(w: World, key: Path, floor: int)
    requires Headroom(w.env, key, floor)
    ensures var (p, w') := RoundSpec(w, key);
      && (p.Committed? ==> key in w'.env.nodes && |w'.env.nodes[key].data| >= 8
                           && p.id == DecodeLong(w'.env.nodes[key].data) && floor < p.id)
      && (!p.Committed? ==> Headroom(w'.env, key, floor))
  {
    GetDataHeadroom(w.env, key, floor);
    var (got, env1) := GetDataSpec(w.env, key);
    var w1 := World(env1, w.calls);
    match got
    case Interrupted =>
    case Keeper(e) => CatchHeadroom(w1, key, e, floor);
    case Done(node) =>
      SetDataHeadroom(env1, key, node, floor);
      var (put, env2) := SetDataSpec(env1, key, Bumped(node.data), node.version);
      if put.Keeper? {
        CatchHeadroom(World(env2, w.calls), key, put.error, floor);
      }
  }

  lemma {:induction false} IncrementHeadroom(w: World, key: Path, floor: int)
    requires Headroom(w.env, key, floor)
    ensures var (p, w') := IncrementSpec(w, key);
      && (p.Committed? ==> key in w'.env.nodes && |w'.env.nodes[key].data| >= 8
                           && p.id == DecodeLong(w'.env.nodes[key].data) && floor < p.id)
      && (!p.Committed? ==> Headroom(w'.env, key, floor))
    decreases |w.env.script|
  {
    RoundHeadroom(w, key, floor);
    var (p, w1) := RoundSpec(w, key);
    if p.Again? {
      IncrementHeadroom(w1, key, floor);
    }
  }

  /**
   * Every number handed out is above the value the counter held before the
   * call, and it is the value the counter holds afterwards, so callers that
   * share the counter never get a number twice. (`floor` is that earlier
   * value; the headroom keeps the 64-bit counter from wrapping.)
   */
  lemma {:induction false} NumbersIncrease(w: World, naps: seq<nat>, key: Path, i: int,
                                           recent: Option<KeeperError>, count: int, delay: nat, floor: int)
    requires Headroom(w.env, key, floor)
    ensures var (r, w', _) := NextSequenceSpec(w, naps, key, i, recent, count, delay);
      r.Success? ==> floor < r.value && key in w'.env.nodes && |w'.env.nodes[key].data| >= 8
                     && DecodeLong(w'.env.nodes[key].data) == r.value
    decreases count - i
  {
    if i < count {
      IncrementHeadroom(w, key, floor);
      var (p, w1) := IncrementSpec(w, key);
      if p.Thrown? && p.escape.KeeperThrown? {
        var e := p.escape.error;
        if e.code == ConnectionLoss {
          NumbersIncrease(Note(w1, ConnectionLossEvent), naps + Backoff(i, delay), key, i + 1, Some(e), count, delay, floor);
        } else if e.code != SessionExpired {
          NumbersIncrease(Note(w1, KeeperExceptionEvent), naps, key, i + 1, Some(e), count, delay, floor);
        }
      }
    }
  }

  lemma CountNote(calls: seq<ZkMetricCall>, x: ZkMetricCall, c: ZkMetricCall)
    ensures Count(calls + [x], c) == Count(calls, c) + (if x == c then 1 else 0)
  {
    assert (calls + [x])[..|calls|] == calls;
  }

  /** No other writer, and no version conflict the environment makes up. */
  predicate NoConflicts(script: seq<Interference>) {
    && Raced !in script
    && forall i | i in script :: !(i.Fail? && i.error.code == BadVersion)
  }

  lemma NoConflictsStep(e: Env, e': Env)
    requires Step(e, e') && NoConflicts(e.script)
    ensures NoConflicts(e'.script)
    ensures e.script != [] ==> !e.script[0].Raced? && !(e.script[0].Fail? && e.script[0].error.code == BadVersion)
  {
    if e.script != [] {
      assert e.script[0] in e.script;
    }
  }

  lemma CreateKeyNoCollision(w: World, key: Path)
    requires NoConflicts(w.env.script)
    ensures var w' := CreateKeySpec(w, key).1;
      NoConflicts(w'.env.script) && Count(w'.calls, KeyCollision) == Count(w.calls, KeyCollision)
  {
    var (made, env) := CreateSpec(w.env, key, DefaultData);
    NoConflictsStep(w.env, env);
    CountNote(w.calls, KeyCreation, KeyCollision);
    CountNote(w.calls, InterruptedEvent, KeyCollision);
    CountNote(w.calls, KeeperExceptionEvent, KeyCollision);
  }

  lemma RoundNoCollision(w: World, key: Path)
    requires NoConflicts(w.env.script)
    ensures var w' := RoundSpec(w, key).1;
      NoConflicts(w'.env.script) && Count(w'.calls, KeyCollision) == Count(w.calls, KeyCollision)
  {
    var (got, env1) := GetDataSpec(w.env, key);
    NoConflictsStep(w.env, env1);
    var w1 := World(env1, w.calls);
    CountNote(w.calls, InterruptedEvent, KeyCollision);
    match got
    case Interrupted =>
    case Keeper(e) =>
      assert e.code != BadVersion;
      if e.code == NoNode {
        CreateKeyNoCollision(w1, key);
      }
    case Done(node) =>
      if |node.data| >= 8 {
        var (put, env2) := SetDataSpec(env1, key, Bumped(node.data), node.version);
        NoConflictsStep(env1, env2);
        if put.Keeper? {
          assert put.error.code != BadVersion;
          if put.error.code == NoNode {
            CreateKeyNoCollision(World(env2, w.calls), key);
          }
        }
      }
  }

  lemma {:induction false} IncrementNoCollision(w: World, key: Path)
    requires NoConflicts(w.env.script)
    ensures var w' := IncrementSpec(w, key).1;
      NoConflicts(w'.env.script) && Count(w'.calls, KeyCollision) == Count(w.calls, KeyCollision)
    decreases |w.env.script|, if key in w.env.nodes then 0 else 1
  {
    RoundNoCollision(w, key);
    var (p, w1) := RoundSpec(w, key);
    if p.Again? {
      IncrementNoCollision(w1, key);
    }
  }

  /**
   * A key collision is only reported when the version read has changed by
   * the time of the conditional write: with no other writer and no made-up
   * version conflict, `getNextSequence` reports none.
   */
  lemma {:induction false} NoCollisionWithoutRivals(w: World, naps: seq<nat>, key: Path, i: int,
                                                    recent: Option<KeeperError>, count: int, delay: nat)
    requires NoConflicts(w.env.script)
    ensures Count(NextSequenceSpec(w, naps, key, i, recent, count, delay).1.calls, KeyCollision)
         == Count(w.calls, KeyCollision)
    decreases count - i
  {
    if i < count {
      IncrementNoCollision(w, key);
      var (p, w1) := IncrementSpec(w, key);
      CountNote(w1.calls, SessionExpiredEvent, KeyCollision);
      CountNote(w1.calls, ConnectionLossEvent, KeyCollision);
      CountNote(w1.calls, KeeperExceptionEvent, KeyCollision);
      if p.Thrown? && p.escape.KeeperThrown? {
        var e := p.escape.error;
        if e.code == ConnectionLoss {
          NoCollisionWithoutRivals(Note(w1, ConnectionLossEvent), naps + Backoff(i, delay), key, i + 1, Some(e), count, delay);
        } else if e.code != SessionExpired {
          NoCollisionWithoutRivals(Note(w1, KeeperExceptionEvent), naps, key, i + 1, Some(e), count, delay);
        }
      }
    }
  }

  lemma CatchLeavesRetryEvents(w: World, key: Path, e: KeeperError, c: ZkMetricCall)
    requires c == SessionExpiredEvent || c == ConnectionLossEvent
    ensures Count(CatchSpec(w, key, e).1.calls, c) == Count(w.calls, c)
  {
    CountNote(w.calls, InterruptedEvent, c);
    CountNote(w.calls, KeyCollision, c);
    CountNote(w.calls, KeyCreation, c);
    CountNote(w.calls, KeeperExceptionEvent, c);
  }

  lemma RoundLeavesRetryEvents(w: World, key: Path, c: ZkMetricCall)
    requires c == SessionExpiredEvent || c == ConnectionLossEvent
    ensures Count(RoundSpec(w, key).1.calls, c) == Count(w.calls, c)
  {
    var (got, env1) := GetDataSpec(w.env, key);
    var w1 := World(env1, w.calls);
    CountNote(w.calls, InterruptedEvent, c);
    match got
    case Interrupted =>
    case Keeper(e) => CatchLeavesRetryEvents(w1, key, e, c);
    case Done(node) =>
      if |node.data| >= 8 {
        var (put, env2) := SetDataSpec(env1, key, Bumped(node.data), node.version);
        if put.Keeper? {
          CatchLeavesRetryEvents(World(env2, w.calls), key, put.error, c);
        }
      }
  }

  /** The increment loop itself never reports a session expiry or a connection loss; the retry loop does. */
  lemma {:induction false} IncrementLeavesRetryEvents(w: World, key: Path, c: ZkMetricCall)
    requires c == SessionExpiredEvent || c == ConnectionLossEvent
    ensures Count(IncrementSpec(w, key).1.calls, c) == Count(w.calls, c)
    decreases |w.env.script|, if key in w.env.nodes then 0 else 1
  {
    RoundLeavesRetryEvents(w, key, c);
    var (p, w1) := RoundSpec(w, key);
    if p.Again? {
      IncrementLeavesRetryEvents(w1, key, c);
    }
  }

  /**
   * A session expiry is fatal: `getNextSequence` fails with "Session expired"
   * at the first one, and reports exactly one session expiry for the call,
   * and none when it ends any other way.
   */
  lemma {:induction false} SessionExpiryReportedOnce(w: World, naps: seq<nat>, key: Path, i: int,
                                                     recent: Option<KeeperError>, count: int, delay: nat)
    ensures var (r, w', _) := NextSequenceSpec(w, naps, key, i, recent, count, delay);
      Count(w'.calls, SessionExpiredEvent)
      == Count(w.calls, SessionExpiredEvent)
         + (if r.Failure? && r.error.SequencingException? && r.error.message == "Session expired" then 1 else 0)
    decreases count - i
  {
    if i < count {
      IncrementLeavesRetryEvents(w, key, SessionExpiredEvent);
      var (p, w1) := IncrementSpec(w, key);
      if p.Thrown? && p.escape.KeeperThrown? {
        var e := p.escape.error;
        if e.code == SessionExpired {
          CountNote(w1.calls, SessionExpiredEvent, SessionExpiredEvent);
        } else if e.code == ConnectionLoss {
          CountNote(w1.calls, ConnectionLossEvent, SessionExpiredEvent);
          SessionExpiryReportedOnce(Note(w1, ConnectionLossEvent), naps + Backoff(i, delay), key, i + 1, Some(e), count, delay);
        } else {
          CountNote(w1.calls, KeeperExceptionEvent, SessionExpiredEvent);
          SessionExpiryReportedOnce(Note(w1, KeeperExceptionEvent), naps, key, i + 1, Some(e), count, delay);
        }
      }
    } else {
      assert FailedMessage(key) != "Session expired" by {
        assert FailedMessage(key)[0] == 'F';
      }
    }
  }

  /** The store throws each of `errs` in turn, one per call (the reads these reach have nothing to apply). */
  function Fails(errs: seq<KeeperError>): (r: seq<Interference>)
    ensures |r| == |errs|
  {
    if errs == [] then [] else [Fail(errs[0], false)] + Fails(errs[1..])
  }

  /** An error the retry loop retries: the increment loop rethrows it and it is not a session expiry. */
  predicate Retryable(e: KeeperError) {
    e.code != NoNode && e.code != BadVersion && e.code != SessionExpired
  }

  /** The metric call the retry loop makes for a retryable error. */
  function RetryEvent(e: KeeperError): ZkMetricCall {
    if e.code == ConnectionLoss then ConnectionLossEvent else KeeperExceptionEvent
  }

  function RetryEvents(errs: seq<KeeperError>): seq<ZkMetricCall> {
    if errs == [] then [] else [RetryEvent(errs[0])] + RetryEvents(errs[1..])
  }

  /** The pauses taken when attempts `i`, `i + 1`, ... fail with `errs`: only connection losses pause. */
  function RetryNaps(errs: seq<KeeperError>, i: int, delay: nat): seq<nat> {
    if errs == [] then []
    else (if errs[0].code == ConnectionLoss then Backoff(i, delay) else []) + RetryNaps(errs[1..], i + 1, delay)
  }

  /** An attempt whose first store call throws a retryable error goes straight to the next attempt. */
  lemma OneFailedAttempt(w: World, naps: seq<nat>, key: Path, i: int, recent: Option<KeeperError>,
                         count: int, delay: nat, e: KeeperError, applied: bool)
    requires Retryable(e) && w.env.script != [] && w.env.script[0] == Fail(e, applied)
    requires i < count
    ensures NextSequenceSpec(w, naps, key, i, recent, count, delay)
         == NextSequenceSpec(World(Env(w.env.nodes, w.env.script[1..]), w.calls + [RetryEvent(e)]),
                             naps + (if e.code == ConnectionLoss then Backoff(i, delay) else []),
                             key, i + 1, Some(e), count, delay)
  {
    var w1 := World(Env(w.env.nodes, w.env.script[1..]), w.calls);
    assert RoundSpec(w, key) == (Thrown(KeeperThrown(e)), w1);
    assert IncrementSpec(w, key) == (Thrown(KeeperThrown(e)), w1);
    assert Note(w1, RetryEvent(e)) == World(Env(w.env.nodes, w.env.script[1..]), w.calls + [RetryEvent(e)]);
    if e.code != ConnectionLoss {
      assert naps + [] == naps;
    }
  }

  /** The most recent error once `errs` have followed `recent`. */
  function Latest(recent: Option<KeeperError>, errs: seq<KeeperError>): Option<KeeperError> {
    if errs == [] then recent else Some(errs[|errs| - 1])
  }

  lemma FailsStep(errs: seq<KeeperError>, rest: seq<Interference>)
    requires errs != []
    ensures (Fails(errs) + rest)[1..] == Fails(errs[1..]) + rest
  {
    assert Fails(errs) == [Fail(errs[0], false)] + Fails(errs[1..]);
  }

  lemma LatestStep(recent: Option<KeeperError>, errs: seq<KeeperError>)
    requires errs != []
    ensures Latest(recent, errs) == Latest(Some(errs[0]), errs[1..])
  {
    if |errs| > 1 {
      assert errs[1..][|errs[1..]| - 1] == errs[|errs| - 1];
    }
  }

  /** One failed attempt taken off the front of the scripted failures and of what they leave behind. */
  lemma RetryListsStep(errs: seq<KeeperError>, rest: seq<Interference>, calls: seq<ZkMetricCall>,
                       naps: seq<nat>, i: int, delay: nat, recent: Option<KeeperError>)
    requires errs != []
    ensures (Fails(errs) + rest)[1..] == Fails(errs[1..]) + rest
    ensures calls + RetryEvents(errs) == (calls + [RetryEvent(errs[0])]) + RetryEvents(errs[1..])
    ensures naps + RetryNaps(errs, i, delay)
         == (naps + (if errs[0].code == ConnectionLoss then Backoff(i, delay) else [])) + RetryNaps(errs[1..], i + 1, delay)
    ensures Latest(recent, errs) == Latest(Some(errs[0]), errs[1..])
  {
    FailsStep(errs, rest);
    LatestStep(recent, errs);
  }

  /**
   * When attempts `i`, `i + 1`, ... each fail at their first store call with
   * the retryable errors `errs`, and there are no attempts left after them,
   * `getNextSequence` reports each one, pauses after each connection loss,
   * and gives up with "Failed to obtain next sequence for key" caused by the
   * most recent error, leaving the store untouched.
   */
  lemma {:induction false} ExhaustedRetriesReportLastError(w: World, naps: seq<nat>, key: Path, i: int, recent: Option<KeeperError>,
                                                        count: int, delay: nat, errs: seq<KeeperError>, rest: seq<Interference>)
    requires forall e | e in errs :: Retryable(e)
    requires w.env.script == Fails(errs) + rest
    requires i + |errs| == count
    ensures NextSequenceSpec(w, naps, key, i, recent, count, delay)
         == (Failure(SequencingException(FailedMessage(key), Latest(recent, errs))),
             World(Env(w.env.nodes, rest), w.calls + RetryEvents(errs)),
             naps + RetryNaps(errs, i, delay))
    decreases errs
  {
    if errs != [] {
      var e := errs[0];
      var w1 := World(Env(w.env.nodes, Fails(errs[1..]) + rest), w.calls + [RetryEvent(e)]);
      var naps1 := naps + (if e.code == ConnectionLoss then Backoff(i, delay) else []);
      FirstAttemptFails(w, naps, key, i, recent, count, delay, errs, rest);
      RetryListsStep(errs, rest, w.calls, naps, i, delay, recent);
      ExhaustedRetriesReportLastError(w1, naps1, key, i + 1, Some(e), count, delay, errs[1..], rest);
    } else {
      assert w == World(Env(w.env.nodes, rest), w.calls + RetryEvents(errs));
      assert naps + RetryNaps(errs, i, delay) == naps;
    }
  }

  lemma FirstAttemptFails(w: World, naps: seq<nat>, key: Path, i: int, recent: Option<KeeperError>,
                          count: int, delay: nat, errs: seq<KeeperError>, rest: seq<Interference>)
    requires forall e | e in errs :: Retryable(e)
    requires w.env.script == Fails(errs) + rest
    requires i + |errs| <= count && errs != []
    ensures forall e | e in errs[1..] :: Retryable(e)
    ensures NextSequenceSpec(w, naps, key, i, recent, count, delay)
         == NextSequenceSpec(World(Env(w.env.nodes, Fails(errs[1..]) + rest), w.calls + [RetryEvent(errs[0])]),
                             naps + (if errs[0].code == ConnectionLoss then Backoff(i, delay) else []),
                             key, i + 1, Some(errs[0]), count, delay)
  {
    assert errs[0] in errs;
    RetryListsStep(errs, rest, w.calls, naps, i, delay, recent);
    OneFailedAttempt(w, naps, key, i, recent, count, delay, errs[0], false);
  }

  /**
   * When attempts `i`, `i + 1`, ... each fail at their first store call with
   * the retryable errors `errs`, the store then answers normally and an
   * attempt is left, `getNextSequence` reports each failure, pauses
   * `i * delay`, `(i + 1) * delay`, ... after the connection losses, and
   * hands out the counter's next value.
   */
  lemma {:induction false} RetriesUntilFaultClears(w: World, naps: seq<nat>, key: Path, i: int, recent: Option<KeeperError>,
                                                   count: int, delay: nat, errs: seq<KeeperError>)
    requires forall e | e in errs :: Retryable(e)
    requires w.env.script == Fails(errs)
    requires i + |errs| < count
    requires key in w.env.nodes && |w.env.nodes[key].data| >= 8
    ensures var (r, w', naps') := NextSequenceSpec(w, naps, key, i, recent, count, delay);
      && r == Success(Inc(DecodeLong(w.env.nodes[key].data)))
      && w'.calls == w.calls + RetryEvents(errs)
      && naps' == naps + RetryNaps(errs, i, delay)
    decreases errs
  {
    if errs != [] {
      var e := errs[0];
      var w1 := World(Env(w.env.nodes, Fails(errs[1..])), w.calls + [RetryEvent(e)]);
      var naps1 := naps + (if e.code == ConnectionLoss then Backoff(i, delay) else []);
      assert Fails(errs) == Fails(errs) + [] && Fails(errs[1..]) + [] == Fails(errs[1..]);
      FirstAttemptFails(w, naps, key, i, recent, count, delay, errs, []);
      RetryListsStep(errs, [], w.calls, naps, i, delay, recent);
      RetriesUntilFaultClears(w1, naps1, key, i + 1, Some(e), count, delay, errs[1..]);
    } else {
      assert naps + RetryNaps(errs, i, delay) == naps;
      assert w.calls + RetryEvents(errs) == w.calls;
    }
  }

  /**
   * A rival increment between the read and the conditional write: the write
   * fails with BadVersion, one key collision is reported, and the clock
   * re-reads and hands out the value after the rival's.
   */
  lemma CollisionIsReportedAndRetried(w: World, naps: seq<nat>, key: Path, count: int, delay: nat)
    requires count > 0
    requires key in w.env.nodes && |w.env.nodes[key].data| >= 8
    requires DecodeLong(w.env.nodes[key].data) + 2 <= MaxLong
    requires w.env.script == [Proceed, Raced]
    ensures var (r, w', naps') := NextSequenceSpec(w, naps, key, 0, None, count, delay);
      && r == Success(DecodeLong(w.env.nodes[key].data) + 2)
      && w'.calls == w.calls + [KeyCollision]
      && naps' == naps
  {
    var n := w.env.nodes[key];
    var raced := Node(Bumped(n.data), n.version + 1);
    var w1 := World(Env(w.env.nodes[key := raced], []), w.calls + [KeyCollision]);
    assert RoundSpec(w, key) == (Again, w1);
    assert IncrementSpec(w1, key).0 == Committed(DecodeLong(raced.data) + 1);
  }

  /**
   * An interruption of the write: the clock reports it and re-reads; the
   * next value is one further on when the interrupted write reached the
   * store, and the same when it did not.
   */
  lemma InterruptedWriteIsRetried(w: World, naps: seq<nat>, key: Path, count: int, delay: nat, applied: bool)
    requires count > 0
    requires key in w.env.nodes && |w.env.nodes[key].data| >= 8
    requires DecodeLong(w.env.nodes[key].data) + 2 <= MaxLong
    requires w.env.script == [Proceed, Interrupt(applied)]
    ensures var (r, w', naps') := NextSequenceSpec(w, naps, key, 0, None, count, delay);
      && r == Success(DecodeLong(w.env.nodes[key].data) + (if applied then 2 else 1))
      && w'.calls == w.calls + [InterruptedEvent]
      && naps' == naps
  {
    var n := w.env.nodes[key];
    var nodes1 := if applied then w.env.nodes[key := Node(Bumped(n.data), n.version + 1)] else w.env.nodes;
    var w1 := World(Env(nodes1, []), w.calls + [InterruptedEvent]);
    assert RoundSpec(w, key) == (Again, w1);
    assert IncrementSpec(w1, key).0 == Committed(DecodeLong(nodes1[key].data) + 1);
  }

  /**
   * An interruption of the create of a new key that did not reach the
   * store: the interruption and then the key creation are reported, and the
   * first number is 0.
   */
  lemma InterruptedCreateIsRetried(w: World, naps: seq<nat>, key: Path, count: int, delay: nat)
    requires count > 0
    requires key !in w.env.nodes
    requires w.env.script == [Proceed, Interrupt(false)]
    ensures var (r, w', naps') := NextSequenceSpec(w, naps, key, 0, None, count, delay);
      && r == Success(0)
      && w'.calls == w.calls + [InterruptedEvent, KeyCreation]
      && naps' == naps
  {
    var w1 := World(Env(w.env.nodes, []), w.calls + [InterruptedEvent]);
    assert RoundSpec(w, key) == (Again, w1);
    var w2 := World(Env(w.env.nodes[key := Node(DefaultData, 0)], []), w1.calls + [KeyCreation]);
    assert RoundSpec(w1, key) == (Again, w2);
    DefaultDataIsMinusOne();
    assert RoundSpec(w2, key).0 == Committed(0);
    assert IncrementSpec(w1, key) == IncrementSpec(w2, key) == RoundSpec(w2, key);
  }

  /**
   * A create of a new key that fails with an error other than "node
   * exists" ends the attempt: `createKey` counts it as a KeeperException,
   * the retry loop counts it again under its own kind, and the next attempt
   * starts with that error as the most recent one. When the create took
   * effect before the error (a connection lost after the request reached
   * the store), the next attempt finds the key there holding -1.
   */
  lemma CreateFailureUsesAttempt(w: World, naps: seq<nat>, key: Path, i: int, recent: Option<KeeperError>,
                                 count: int, delay: nat, err: KeeperError, applied: bool, rest: seq<Interference>)
    requires Retryable(err) && err.code != NodeExists
    requires key !in w.env.nodes
    requires w.env.script == [Proceed, Fail(err, applied)] + rest
    requires i < count
    ensures var nodes := if applied then w.env.nodes[key := Node(DefaultData, 0)] else w.env.nodes;
      NextSequenceSpec(w, naps, key, i, recent, count, delay)
         == NextSequenceSpec(World(Env(nodes, rest), w.calls + [KeeperExceptionEvent, RetryEvent(err)]),
                             naps + (if err.code == ConnectionLoss then Backoff(i, delay) else []),
                             key, i + 1, Some(err), count, delay)
  {
    var nodes := if applied then w.env.nodes[key := Node(DefaultData, 0)] else w.env.nodes;
    var w1 := World(Env(nodes, rest), w.calls + [KeeperExceptionEvent]);
    assert ([Proceed, Fail(err, applied)] + rest)[1..] == [Fail(err, applied)] + rest;
    assert ([Fail(err, applied)] + rest)[1..] == rest;
    assert CreateKeySpec(World(Env(w.env.nodes, [Fail(err, applied)] + rest), w.calls), key) == (Some(err), w1);
    assert IncrementSpec(w, key) == (Thrown(KeeperThrown(err)), w1);
    assert Note(w1, RetryEvent(err)) == World(Env(nodes, rest), w.calls + [KeeperExceptionEvent, RetryEvent(err)]);
    if err.code != ConnectionLoss {
      assert naps + [] == naps;
    }
  }

  /**
   * A write that fails with a retryable error: the retry loop counts it and
   * the next attempt re-reads. When the write took effect before the error
   * (a connection lost after the request reached the store) the number it
   * wrote is wasted and the next one is handed out instead.
   */
  lemma LostWriteIsRetried(w: World, naps: seq<nat>, key: Path, count: int, delay: nat, err: KeeperError, applied: bool)
    requires count > 1 && Retryable(err)
    requires key in w.env.nodes && |w.env.nodes[key].data| >= 8
    requires DecodeLong(w.env.nodes[key].data) + 2 <= MaxLong
    requires w.env.script == [Proceed, Fail(err, applied)]
    ensures var (r, w', naps') := NextSequenceSpec(w, naps, key, 0, None, count, delay);
      && r == Success(DecodeLong(w.env.nodes[key].data) + (if applied then 2 else 1))
      && w'.calls == w.calls + [RetryEvent(err)]
      && naps' == naps
  {
    var n := w.env.nodes[key];
    var nodes1 := if applied then w.env.nodes[key := Node(Bumped(n.data), n.version + 1)] else w.env.nodes;
    var w1 := World(Env(nodes1, []), w.calls);
    assert RoundSpec(w, key) == (Thrown(KeeperThrown(err)), w1);
    assert IncrementSpec(w, key) == (Thrown(KeeperThrown(err)), w1);
    var w2 := Note(w1, RetryEvent(err));
    assert w2.calls == w.calls + [RetryEvent(err)];
    assert IncrementSpec(w2, key).0 == Committed(DecodeLong(nodes1[key].data) + 1);
    assert Backoff(0, delay) == [];
  }
}
