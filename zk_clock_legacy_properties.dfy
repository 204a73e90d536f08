/**
 * What the earlier clock promises, proved about the functions that specify
 * it: the first number for a new key is 0, numbers only go up and are what
 * the node holds, an interrupted create and every store error but a
 * connection loss escape at once, and when connection losses use up the
 * attempts the first of them is rethrown.
 */
module LegacyZkSequenceClockProperties {
  import opened Outcomes
  import opened LongCodec
  import opened CounterStore
  import opened LegacyZkSequenceClock
  import P = ZkSequenceClockProperties

  /** A successful pass wrote the bumped payload of the node it read, conditioned on that node's version. */
  lemma CommitWritesWhatItRead(e: Env, key: Path)
    ensures var (p, e') := RoundSpec(e, key);
      p.Committed? ==>
        var (got, e1) := GetDataSpec(e, key);
        && got.Done? && |got.value.data| >= 8
        && key in e1.nodes && e1.nodes[key] == got.value
        && p.id == Inc(DecodeLong(got.value.data))
        && key in e'.nodes && e'.nodes[key] == Node(Bumped(got.value.data), got.value.version + 1)
  {
  }

  lemma CreateKeyCalm(e: Env, key: Path)
    requires P.Calm(e, key)
    ensures P.Calm(CreateKeySpec(e, key).1, key)
  {
    P.NoRivalsStep(e, CreateSpec(e, key, DefaultData).1);
  }

  lemma CatchCalm(e: Env, key: Path, err: KeeperError)
    requires P.Calm(e, key)
    ensures P.Calm(CatchSpec(e, key, err).1, key)
  {
    if err.code == NoNode {
      CreateKeyCalm(e, key);
    }
  }

  lemma RoundFromDefault(e: Env, key: Path)
    requires P.Calm(e, key)
    ensures var (p, e') := RoundSpec(e, key);
      && P.NoRivals(e'.script)
      && (p.Committed? ==> p.id == 0 && key in e'.nodes && e'.nodes[key].data == EncodeLong(0))
      && (!p.Committed? ==> P.Unborn(e', key))
  {
    P.GetDataCalm(e, key);
    var (got, e1) := GetDataSpec(e, key);
    match got
    case Interrupted =>
    case Keeper(err) => CatchCalm(e1, key, err);
    case Done(node) =>
      if |node.data| >= 8 {
        DefaultDataIsMinusOne();
        assert Bumped(node.data) == EncodeLong(0);
        P.SetDataCalm(e1, key, Bumped(node.data), node.version);
        var (put, e2) := SetDataSpec(e1, key, Bumped(node.data), node.version);
        if put.Keeper? {
          CatchCalm(e2, key, put.error);
        }
      }
  }

  lemma {:induction false} IncrementFromDefault(e: Env, key: Path)
    requires P.Calm(e, key)
    ensures var (p, e') := IncrementSpec(e, key);
      && P.NoRivals(e'.script)
      && (p.Committed? ==> p.id == 0 && key in e'.nodes && e'.nodes[key].data == EncodeLong(0))
      && (!p.Committed? ==> P.Unborn(e', key))
    decreases |e.script|, if key in e.nodes then 0 else 1
  {
    RoundFromDefault(e, key);
    var (p, e1) := RoundSpec(e, key);
    if p.Again? {
      IncrementFromDefault(e1, key);
    }
  }

  /** The first number handed out for a key that does not exist yet is 0, and the node then holds 0. */
  lemma {:induction false} FirstSequenceIsZero(e: Env, naps: seq<nat>, key: Path, i: int, first: Option<KeeperError>,
                                               count: int, delay: nat)
    requires P.Calm(e, key)
    ensures var (r, e', _) := NextSequenceSpec(e, naps, key, i, first, count, delay);
      r.Success? ==> r.value == 0 && key in e'.nodes && |e'.nodes[key].data| >= 8 && DecodeLong(e'.nodes[key].data) == 0
    decreases count - i
  {
    if i < count {
      IncrementFromDefault(e, key);
      var (p, e1) := IncrementSpec(e, key);
      if p.Committed? {
        DecodeEncode(0);
      } else if p.Escaped? && p.escape.KeeperThrown? && p.escape.error.code == ConnectionLoss {
        var err := p.escape.error;
        FirstSequenceIsZero(e1, naps + Backoff(i, delay), key, i + 1, if first.Some? then first else Some(err), count, delay);
      }
    }
  }

  lemma CreateKeyHeadroom(e: Env, key: Path, floor: int)
    requires P.Headroom(e, key, floor)
    ensures P.Headroom(CreateKeySpec(e, key).1, key, floor)
  {
  }

  lemma CatchHeadroom(e: Env, key: Path, err: KeeperError, floor: int)
    requires P.Headroom(e, key, floor)
    ensures P.Headroom(CatchSpec(e, key, err).1, key, floor)
  {
    if err.code == NoNode {
      CreateKeyHeadroom(e, key, floor);
    }
  }

  lemma RoundHeadroom(e: Env, key: Path, floor: int)
    requires P.Headroom(e, key, floor)
    ensures var (p, e') := RoundSpec(e, key);
      && (p.Committed? ==> key in e'.nodes && |e'.nodes[key].data| >= 8
                           && p.id == DecodeLong(e'.nodes[key].data) && floor < p.id)
      && (!p.Committed? ==> P.Headroom(e', key, floor))
  {
    P.GetDataHeadroom(e, key, floor);
    var (got, e1) := GetDataSpec(e, key);
    match got
    case Interrupted =>
    case Keeper(err) => CatchHeadroom(e1, key, err, floor);
    case Done(node) =>
      P.SetDataHeadroom(e1, key, node, floor);
      var (put, e2) := SetDataSpec(e1, key, Bumped(node.data), node.version);
      if put.Keeper? {
        CatchHeadroom(e2, key, put.error, floor);
      }
  }

  lemma {:induction false} IncrementHeadroom(e: Env, key: Path, floor: int)
    requires P.Headroom(e, key, floor)
    ensures var (p, e') := IncrementSpec(e, key);
      && (p.Committed? ==> key in e'.nodes && |e'.nodes[key].data| >= 8
                           && p.id == DecodeLong(e'.nodes[key].data) && floor < p.id)
      && (!p.Committed? ==> P.Headroom(e', key, floor))
    decreases |e.script|
  {
    RoundHeadroom(e, key, floor);
    var (p, e1) := RoundSpec(e, key);
    if p.Again? {
      IncrementHeadroom(e1, key, floor);
    }
  }

  /** Every number handed out is above the counter's earlier value `floor` and is what the counter then holds. */
  lemma {:induction false} NumbersIncrease(e: Env, naps: seq<nat>, key: Path, i: int, first: Option<KeeperError>,
                                           count: int, delay: nat, floor: int)
    requires P.Headroom(e, key, floor)
    ensures var (r, e', _) := NextSequenceSpec(e, naps, key, i, first, count, delay);
      r.Success? ==> floor < r.value && key in e'.nodes && |e'.nodes[key].data| >= 8
                     && DecodeLong(e'.nodes[key].data) == r.value
    decreases count - i
  {
    if i < count {
      IncrementHeadroom(e, key, floor);
      var (p, e1) := IncrementSpec(e, key);
      if p.Escaped? && p.escape.KeeperThrown? && p.escape.error.code == ConnectionLoss {
        var err := p.escape.error;
        NumbersIncrease(e1, naps + Backoff(i, delay), key, i + 1, if first.Some? then first else Some(err), count, delay, floor);
      }
    }
  }

  /**
   * `throw exception` never throws null: once an attempt has failed a
   * connection loss has been recorded, and with at least one attempt (the
   * clock makes 10) the loop cannot end before one has failed.
   */
  lemma {:induction false} NeverThrowsNull(e: Env, naps: seq<nat>, key: Path, i: int, first: Option<KeeperError>,
                                               count: int, delay: nat)
    requires 0 <= i < count || first.Some?
    ensures NextSequenceSpec(e, naps, key, i, first, count, delay).0 != Failure(NullThrown)
    decreases count - i
  {
    if i < count {
      var (p, e1) := IncrementSpec(e, key);
      if p.Escaped? && p.escape.KeeperThrown? && p.escape.error.code == ConnectionLoss {
        var err := p.escape.error;
        NeverThrowsNull(e1, naps + Backoff(i, delay), key, i + 1, if first.Some? then first else Some(err), count, delay);
      }
    }
  }

  /** The pauses after connection losses on attempts `i`, `i + 1`, ..., `i + n - 1`. */
  function Pauses(i: int, n: nat, delay: nat): seq<nat>
    decreases n
  {
    if n == 0 then [] else Backoff(i, delay) + Pauses(i + 1, n - 1, delay)
  }

  /**
   * When attempts `i`, `i + 1`, ... each fail with a connection loss at
   * their first store call and there are no attempts left after them, the
   * clock pauses `i * delay`, `(i + 1) * delay`, ... and rethrows the first
   * connection loss of the whole call, leaving the store untouched.
   */
  lemma {:induction false} FirstConnectionLossRethrown(e: Env, naps: seq<nat>, key: Path, i: int, first: Option<KeeperError>,
                                                       count: int, delay: nat, errs: seq<KeeperError>, rest: seq<Interference>)
    requires forall err | err in errs :: err.code == ConnectionLoss
    requires e.script == P.Fails(errs) + rest
    requires i + |errs| == count
    requires first.Some? || errs != []
    ensures NextSequenceSpec(e, naps, key, i, first, count, delay)
         == (Failure(Rethrown(KeeperThrown(if first.Some? then first.value else errs[0]))),
             Env(e.nodes, rest), naps + Pauses(i, |errs|, delay))
    decreases errs
  {
    if errs != [] {
      var err := errs[0];
      assert err in errs;
      assert (P.Fails(errs) + rest)[1..] == P.Fails(errs[1..]) + rest;
      var e1 := Env(e.nodes, P.Fails(errs[1..]) + rest);
      assert RoundSpec(e, key) == (Escaped(KeeperThrown(err)), e1);
      assert IncrementSpec(e, key) == (Escaped(KeeperThrown(err)), e1);
      var first' := if first.Some? then first else Some(err);
      forall err' | err' in errs[1..] ensures err'.code == ConnectionLoss {
        assert err' in errs;
      }
      FirstConnectionLossRethrown(e1, naps + Backoff(i, delay), key, i + 1, first', count, delay, errs[1..], rest);
      assert naps + Pauses(i, |errs|, delay) == naps + Backoff(i, delay) + Pauses(i + 1, |errs| - 1, delay);
    } else {
      assert naps + Pauses(i, 0, delay) == naps;
      assert e == Env(e.nodes, rest);
    }
  }

  /** With the clock's settings, ten connection losses in a row: pauses of 500, 1000, ..., 4500 ms, then the first loss. */
  lemma ConnectionLossesExhaustAttempts(e: Env, naps: seq<nat>, key: Path, errs: seq<KeeperError>, rest: seq<Interference>)
    requires forall err | err in errs :: err.code == ConnectionLoss
    requires e.script == P.Fails(errs) + rest
    requires |errs| == RetryCount
    ensures NextSequenceSpec(e, naps, key, 0, None, RetryCount, RetryDelay)
         == (Failure(Rethrown(KeeperThrown(errs[0]))), Env(e.nodes, rest),
             naps + [500, 1000, 1500, 2000, 2500, 3000, 3500, 4000, 4500])
  {
    FirstConnectionLossRethrown(e, naps, key, 0, None, RetryCount, RetryDelay, errs, rest);
    TenPauses();
  }

  lemma TenPauses()
    ensures Pauses(0, RetryCount, RetryDelay) == [500, 1000, 1500, 2000, 2500, 3000, 3500, 4000, 4500]
  {
    assert Pauses(9, 1, 500) == [4500];
    assert Pauses(5, 5, 500) == [2500, 3000, 3500, 4000, 4500];
  }

  /**
   * Any store error other than a missing node, a version conflict or a
   * connection loss, a session expiry included, escapes the call at its
   * first occurrence with no retry and no pause.
   */
  lemma OtherErrorsEscapeAtOnce(e: Env, naps: seq<nat>, key: Path, count: int, delay: nat, err: KeeperError, applied: bool,
                                 rest: seq<Interference>)
    requires err.code != NoNode && err.code != BadVersion && err.code != ConnectionLoss
    requires e.script == [Fail(err, applied)] + rest
    requires count > 0
    ensures NextSequenceSpec(e, naps, key, 0, None, count, delay) == (Failure(Rethrown(KeeperThrown(err))), Env(e.nodes, rest), naps)
  {
    assert e.script[1..] == rest;
    assert IncrementSpec(e, key) == RoundSpec(e, key) == (Escaped(KeeperThrown(err)), Env(e.nodes, rest));
  }

  /** An interrupted create of a new key escapes to the caller instead of being retried. */
  lemma InterruptedCreateEscapes(e: Env, naps: seq<nat>, key: Path, count: int, delay: nat, applied: bool)
    requires key !in e.nodes
    requires e.script == [Proceed, Interrupt(applied)]
    requires count > 0
    ensures NextSequenceSpec(e, naps, key, 0, None, count, delay).0 == Failure(Rethrown(InterruptedThrown))
  {
    var e1 := Env(e.nodes, [Interrupt(applied)]);
    assert GetDataSpec(e, key) == (Keeper(StateError(NoNode)), e1);
    assert IncrementSpec(e, key).0 == Escaped(InterruptedThrown);
  }
}
