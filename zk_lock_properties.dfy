/**
 * What the distributed lock guarantees, and what it does not: when it says
 * the lock is held, this client's request is the smallest on the lock node;
 * a waiter watches exactly the request ahead of it; and the paths where
 * failures are swallowed or requests are left behind.
 */
module ZkLockProperties {
  import opened Outcomes
  import opened Decimal
  import opened CounterStore
  import opened LockNodes
  import opened RequestOrder
  import opened ZkLocking

  /** `mine` is on the lock node and no request there has a smaller number: it holds the lock. */
  ghost predicate Holds(q: Queue, mine: string) {
    && mine in q.children
    && IsDigits(mine)
    && forall c :: c in q.children ==> ParseDigits(mine) <= Number(c)
  }

  /** Every child was created before the counter reached its present value. */
  ghost predicate Numbered(q: Queue) {
    forall c :: c in q.children ==> Number(c) < q.counter
  }

  /** The script throws no KeeperException. */
  predicate NoKeeperFailures(script: seq<LockEvent>) {
    forall i :: 0 <= i < |script| ==> !script[i].Fails?
  }

  /** While a request is recorded, neither way of taking the lock touches the store. */
  lemma SecondRequestRefused(s: LockState, key: string)
    requires s.request.Some?
    ensures var refusal := AlreadyLocked(AlreadyLockedMessage(key, s.request.value));
      && TryLockSpec(s, key) == (Raises(refusal), s)
      && LockInterruptiblySpec(s, key) == (Raises(refusal), s)
  {
  }

  /** A created request is recorded by its own sequential name, which is now on the lock node. */
  lemma RequestRecordedByName(s: LockState, key: string)
    ensures var (r, s') := RequestLockSpec(s, key);
      r.Returns? ==>
        && s'.request == Some(SequenceName(s.queue.counter))
        && SequenceName(s.queue.counter) in s'.queue.children
        && s'.queue.counter == s.queue.counter + 1
  {
    LastSegmentOfChild(key, SequenceName(s.queue.counter));
  }

  /** When `tryLock` answers true, the recorded request holds the lock. */
  lemma TryLockTrueHolds(s: LockState, key: string)
    ensures var (r, s') := TryLockSpec(s, key);
      r == Returns(true) ==> s'.request.Some? && Holds(s'.queue, s'.request.value)
  {
    var (r, s') := TryLockSpec(s, key);
    if r == Returns(true) {
      var (made, s1) := RequestLockSpec(s, key);
      var (listed, q2) := GetOrderedLockRequestsSpec(s1.queue);
      assert s' == s1.(queue := q2);
      SortedFirstIsLeast(q2.children);
      SortKeepsRequests(q2.children, listed.value[0]);
    }
  }

  /** The request a waiter watches is just ahead of its own: below it, with nothing between. */
  lemma AheadIsImmediatePredecessor(children: seq<RequestName>, mine: RequestName)
    requires mine in children && mine != SortRequests(children)[0]
    ensures var requests := SortRequests(children);
      var index := IndexOf(requests, mine) - 1;
      && 0 <= index
      && requests[index] in children && requests[index] != mine
      && Number(requests[index]) <= Number(mine)
      && forall c :: c in children ==> !(Number(requests[index]) < Number(c) < Number(mine))
  {
    var requests := SortRequests(children);
    var k := IndexOf(requests, mine);
    assert 0 < k by {
      SortKeepsRequests(children, mine);
    }
    assert requests[k - 1] != mine by {
      assert requests[..k][k - 1] == requests[k - 1];
    }
    assert requests[k - 1] in children by {
      SortKeepsRequests(children, requests[k - 1]);
    }
    PredecessorIsImmediate(children, k);
  }

  /**
   * When `waitForLock` returns, the request holds the lock; without a
   * scripted KeeperException it never throws one.
   */
  lemma {:induction false} WaitForLockReturnsHeld(q: Queue, mine: string)
    ensures var (r, q') := WaitForLockSpec(q, mine);
      && (r.Returns? ==> Holds(q', mine))
      && (NoKeeperFailures(q.script) ==> !(r.Raises? && r.exception.KeeperThrown?))
    decreases |q.script|, 1
  {
    var (listed, q1) := GetOrderedLockRequestsSpec(q);
    assert NoKeeperFailures(q.script) ==> NoKeeperFailures(q1.script);
    if listed.Returns? {
      var requests := listed.value;
      if |requests| > 0 && mine == requests[0] {
        SortedFirstIsLeast(q1.children);
        SortKeepsRequests(q1.children, mine);
      } else if |requests| > 0 {
        var index := IndexOf(requests, mine) - 1;
        if index >= 0 {
          SortKeepsRequests(q1.children, requests[index]);
          WatchReturnsHeld(q1, mine, requests[index]);
        }
      }
    }
  }

  lemma {:induction false} WatchReturnsHeld(q: Queue, mine: string, ahead: RequestName)
    requires ahead in q.children
    ensures var (r, q') := WatchSpec(q, mine, ahead);
      && (r.Returns? ==> Holds(q', mine))
      && (NoKeeperFailures(q.script) ==> !(r.Raises? && r.exception.KeeperThrown?))
    decreases |q.script|, 0
  {
    var (seen, q1) := ExistsSpec(q, ahead);
    assert NoKeeperFailures(q.script) ==> NoKeeperFailures(q1.script);
    if seen.Done? {
      if !seen.value {
        WaitForLockReturnsHeld(q1, mine);
      } else {
        var (wake, q2) := WaitSpec(q1);
        if wake.Woken? {
          assert NoKeeperFailures(q1.script) ==> NoKeeperFailures(q2.script);
          WaitForLockReturnsHeld(q2, mine);
        }
      }
    }
  }

  /**
   * When `lockInterruptibly` returns without a KeeperException in the way,
   * this client holds the lock.
   */
  lemma LockInterruptiblyReturnsHeld(s: LockState, key: string)
    requires s.request.None? && NoKeeperFailures(s.queue.script)
    ensures var (r, s') := LockInterruptiblySpec(s, key);
      r.Returns? ==> s'.request.Some? && Holds(s'.queue, s'.request.value)
  {
    var (made, s1) := RequestLockSpec(s, key);
    if made.Returns? {
      assert NoKeeperFailures(s1.queue.script);
      WaitForLockReturnsHeld(s1.queue, s1.request.value);
    }
  }

  /**
   * A KeeperException while placing the request is swallowed:
   * `lockInterruptibly` returns normally with no request recorded and no
   * lock. When the create took effect before the error, its request is
   * left on the lock node, unknown to this client.
   */
  lemma SwallowedFailureReturnsUnlocked(s: LockState, key: string, err: KeeperError, applied: bool)
    requires s.request.None? && s.queue.script != [] && s.queue.script[0] == Fails(err, applied)
    ensures var q1 := s.queue.(script := s.queue.script[1..]);
      LockInterruptiblySpec(s, key) == (Returns(()), LockState(if applied then Added(q1) else q1, None))
  {
  }

  /** Adding the next sequential child keeps every child below the counter. */
  lemma AddedNumbered(q: Queue)
    requires Numbered(q)
    ensures Numbered(Added(q))
  {
    SequenceNameValue(q.counter);
  }

  /**
   * The request left behind by a create whose error was swallowed is
   * ahead of every later request: with nothing else in the way, this same
   * client's next `tryLock` answers false.
   */
  lemma OrphanBlocksTryLock(s: LockState, key: string, err: KeeperError)
    requires s.request.None? && Numbered(s.queue) && s.queue.script == [Fails(err, true)]
    ensures var (r, s') := LockInterruptiblySpec(s, key);
      && r == Returns(()) && s'.request.None?
      && SequenceName(s.queue.counter) in s'.queue.children
      && TryLockSpec(s', key).0 == Returns(false)
  {
    var q1 := Added(s.queue.(script := []));
    SwallowedFailureReturnsUnlocked(s, key, err, true);
    AddedNumbered(s.queue.(script := []));
    TryLockYieldsToEarlierRequest(LockState(q1, None), key);
  }

  /**
   * A KeeperException while waiting is swallowed as well: `lockInterruptibly`
   * returns normally with its request still recorded and on the lock node,
   * and when an earlier request is outstanding this client does not hold
   * the lock.
   */
  lemma SwallowedWaitFailureReturnsUnheld(s: LockState, key: string, err: KeeperError, applied: bool)
    requires s.request.None? && |s.queue.script| >= 2
    requires s.queue.script[0] == Quiet && s.queue.script[1] == Fails(err, applied)
    ensures var (r, s') := LockInterruptiblySpec(s, key);
      && r == Returns(())
      && s'.request == Some(SequenceName(s.queue.counter))
      && s'.queue.children == s.queue.children + [SequenceName(s.queue.counter)]
      && (s.queue.children != [] && Numbered(s.queue) ==> !Holds(s'.queue, s'.request.value))
  {
    RequestLockProceeds(s, key);
    var name := SequenceName(s.queue.counter);
    var q1 := Added(Next(s.queue).1);
    assert q1.script[0] == Fails(err, applied);
    assert WaitForLockSpec(q1, name).0 == Raises(KeeperThrown(err));
    if s.queue.children != [] && Numbered(s.queue) {
      SequenceNameValue(s.queue.counter);
      assert s.queue.children[0] in WaitForLockSpec(q1, name).1.children;
    }
  }

  /** An interruption while placing the request is rethrown, with nothing recorded. */
  lemma InterruptionRethrown(s: LockState, key: string, applied: bool)
    requires s.request.None? && s.queue.script != [] && s.queue.script[0] == Interrupts(applied)
    ensures var (r, s') := LockInterruptiblySpec(s, key);
      r == Raises(InterruptedThrown) && s'.request.None?
  {
  }

  lemma WithoutAbsentLast(children: seq<RequestName>, name: RequestName)
    requires name !in children
    ensures Without(children + [name], name) == children
  {
    if children != [] {
      assert (children + [name])[1..] == children[1..] + [name];
      WithoutAbsentLast(children[1..], name);
    }
  }

  /** The next sequential name is not yet taken. */
  lemma FreshName(q: Queue)
    requires Numbered(q)
    ensures SequenceName(q.counter) !in q.children
  {
    SequenceNameValue(q.counter);
  }

  /** With nothing in the way, withdrawing the request added last leaves the children as they were. */
  lemma WithdrawLast(q: Queue, name: RequestName)
    requires q.script == [] && name !in q.children
    ensures RemoveLockRequestSpec(LockState(q.(children := q.children + [name]), Some(name))) == LockState(q, None)
  {
    WithoutAbsentLast(q.children, name);
  }

  /** Placing a request when the store lets the create through. */
  lemma RequestLockProceeds(s: LockState, key: string)
    requires s.queue.script == [] || s.queue.script[0] == Quiet
    ensures RequestLockSpec(s, key) == (Returns(()), LockState(Added(Next(s.queue).1), Some(SequenceName(s.queue.counter))))
  {
    LastSegmentOfChild(key, SequenceName(s.queue.counter));
  }

  /** With nothing in the way and no other request outstanding, `tryLock` takes the lock. */
  lemma TryLockTakesFreeLock(s: LockState, key: string)
    requires s.request.None? && s.queue.script == [] && s.queue.children == []
    ensures TryLockSpec(s, key) == (Returns(true), LockState(Added(s.queue), Some(SequenceName(s.queue.counter))))
  {
    var q1 := Added(s.queue);
    var name := SequenceName(s.queue.counter);
    assert TryLockSpec(s, key) == CheckFirstSpec(LockState(q1, Some(name))) by {
      RequestLockProceeds(s, key);
    }
    assert GetOrderedLockRequestsSpec(q1) == (Returns([name]), q1) by {
      assert q1.children == [name];
      assert q1.children[..0] == [];
    }
  }

  /** A fresh request joining a non-empty listing does not come first. */
  lemma LatecomerNotFirst(q: Queue)
    requires q.children != [] && Numbered(q)
    ensures var c := Added(q).children; SortRequests(c) != [] && SortRequests(c)[0] != SequenceName(q.counter)
  {
    var c := Added(q).children;
    SequenceNameValue(q.counter);
    SortedFirstIsLeast(c);
    assert q.children[0] in c;
  }

  /** The second half of `tryLock`, for a request that finds another ahead of it. */
  lemma CheckFirstYields(q: Queue)
    requires q.script == [] && q.children != [] && Numbered(q)
    ensures CheckFirstSpec(LockState(Added(q), Some(SequenceName(q.counter))))
         == (Returns(false), LockState(q.(counter := q.counter + 1), None))
  {
    var name := SequenceName(q.counter);
    var q1 := Added(q);
    assert CheckFirstSpec(LockState(q1, Some(name))) == (Returns(false), RemoveLockRequestSpec(LockState(q1, Some(name)))) by {
      assert GetOrderedLockRequestsSpec(q1) == (Returns(SortRequests(q1.children)), q1);
      LatecomerNotFirst(q);
    }
    var left := q.(counter := q.counter + 1);
    assert RemoveLockRequestSpec(LockState(q1, Some(name))) == LockState(left, None) by {
      FreshName(q);
      WithdrawLast(left, name);
      assert q1 == left.(children := q.children + [name]);
    }
  }

  /**
   * With nothing in the way and another request outstanding, `tryLock`
   * answers false and withdraws its own request: only the counter has moved.
   */
  lemma TryLockYieldsToEarlierRequest(s: LockState, key: string)
    requires s.request.None? && s.queue.script == [] && s.queue.children != [] && Numbered(s.queue)
    ensures TryLockSpec(s, key) == (Returns(false), LockState(s.queue.(counter := s.queue.counter + 1), None))
  {
    assert TryLockSpec(s, key) == CheckFirstSpec(LockState(Added(s.queue), Some(SequenceName(s.queue.counter)))) by {
      RequestLockProceeds(s, key);
    }
    CheckFirstYields(s.queue);
  }

  /**
   * A failed create makes `tryLock` answer false with nothing recorded; if
   * the create took effect before the exception or the interruption, the
   * request is left on the lock node.
   */
  lemma TryLockCreateFailure(s: LockState, key: string)
    requires s.request.None? && s.queue.script != [] && (s.queue.script[0].Fails? || s.queue.script[0].Interrupts?)
    ensures var (r, s') := TryLockSpec(s, key);
      && r == Returns(false) && s'.request.None?
      && s'.queue.children == (if s.queue.script[0].applied then s.queue.children + [SequenceName(s.queue.counter)] else s.queue.children)
  {
    var q := s.queue;
    var e := q.script[0];
    var q1 := q.(script := q.script[1..]);
    assert Next(q) == (e, q1);
    var made := CreateRequestSpec(q, key + "/");
    assert made.0.Keeper? || made.0.Interrupted?;
    assert made.1 == if e.applied then Added(q1) else q1;
    assert RequestLockSpec(s, key) == (if made.0.Keeper? then Raises(KeeperThrown(made.0.error)) else Raises(InterruptedThrown), s.(queue := made.1));
  }

  /** The second half of `tryLock` when the listing fails: the request is withdrawn. */
  lemma CheckFirstListingFails(q: Queue, e: LockEvent, rest: seq<LockEvent>)
    requires e.Fails? || e.Interrupts?
    ensures var name := SequenceName(q.counter);
      CheckFirstSpec(LockState(Added(q.(script := [e] + rest)), Some(name)))
        == (Returns(false), RemoveLockRequestSpec(LockState(Added(q.(script := rest)), Some(name))))
  {
    var q1 := Added(q.(script := [e] + rest));
    assert q1.script[1..] == rest;
    assert GetOrderedLockRequestsSpec(q1).0.Raises? && GetOrderedLockRequestsSpec(q1).1 == Added(q.(script := rest));
  }

  /**
   * How withdrawing the request added last ends: with nothing in the way
   * it is deleted and forgotten; when the delete fails it stays recorded,
   * and it stays on the lock node unless the delete took effect first.
   */
  lemma WithdrawLastOutcome(q: Queue)
    requires Numbered(q)
    ensures var name := SequenceName(q.counter);
      var s' := RemoveLockRequestSpec(LockState(Added(q), Some(name)));
      && (q.script == [] || q.script[0] == Quiet ==>
            s' == LockState(q.(counter := q.counter + 1, script := if q.script == [] then [] else q.script[1..]), None))
      && (q.script != [] && (q.script[0].Fails? || q.script[0].Interrupts?) ==>
            && s'.request == Some(name)
            && s'.queue.children == if q.script[0].applied then q.children else q.children + [name])
  {
    var name := SequenceName(q.counter);
    FreshName(q);
    var left := q.(counter := q.counter + 1, script := if q.script == [] then [] else q.script[1..]);
    if q.script == [] || !q.script[0].Leaves? {
      assert Next(Added(q)).1 == left.(children := q.children + [name]);
      WithoutAbsentLast(q.children, name);
      if q.script == [] || q.script[0] == Quiet {
        WithdrawLast(left.(script := []), name);
      }
    }
  }

  /**
   * A failed listing makes `tryLock` withdraw its request and answer false;
   * whether the withdrawal succeeds is up to the delete that follows.
   */
  lemma TryLockListingFailure(s: LockState, key: string, e: LockEvent, rest: seq<LockEvent>)
    requires s.request.None? && Numbered(s.queue)
    requires s.queue.script == [Quiet, e] + rest && (e.Fails? || e.Interrupts?)
    ensures var name := SequenceName(s.queue.counter);
      var (r, s') := TryLockSpec(s, key);
      && r == Returns(false)
      && s' == RemoveLockRequestSpec(LockState(Added(s.queue.(script := rest)), Some(name)))
      && (rest == [] || rest[0] == Quiet ==> s'.request.None? && s'.queue.children == s.queue.children)
      && (rest != [] && (rest[0].Fails? || rest[0].Interrupts?) ==>
            && s'.request == Some(name)
            && s'.queue.children == if rest[0].applied then s.queue.children else s.queue.children + [name])
  {
    var q := s.queue;
    assert TryLockSpec(s, key) == CheckFirstSpec(LockState(Added(q.(script := [e] + rest)), Some(SequenceName(q.counter)))) by {
      RequestLockProceeds(s, key);
      assert q.script[1..] == [e] + rest;
    }
    CheckFirstListingFails(q, e, rest);
    WithdrawLastOutcome(q.(script := rest));
  }

  /** `unlock` without a request changes nothing. */
  lemma UnlockWithoutRequest(s: LockState)
    requires s.request.None?
    ensures UnlockSpec(s) == s
  {
  }

  /** With nothing in the way, `unlock` deletes the request and clears the record. */
  lemma UnlockReleases(s: LockState)
    requires s.request.Some? && s.request.value in s.queue.children && s.queue.script == []
    ensures UnlockSpec(s) == LockState(s.queue.(children := Without(s.queue.children, s.request.value)), None)
    ensures s.request.value !in UnlockSpec(s).queue.children
  {
  }

  /**
   * A failed delete is swallowed and keeps the record, so the request is
   * still known to this client, even when the delete took effect first and
   * the request is gone from the lock node.
   */
  lemma UnlockFailureKeepsRecord(s: LockState, e: LockEvent)
    requires s.request.Some? && s.queue.script != [] && s.queue.script[0] == e
    requires e.Fails? || e.Interrupts?
    ensures var q1 := s.queue.(script := s.queue.script[1..]);
      UnlockSpec(s) == LockState(if e.applied then q1.(children := Without(q1.children, s.request.value)) else q1, s.request)
  {
  }

  /** With no event left to wake it, a waiter that is not first waits forever. */
  lemma WaitWithoutEventsHangs(q: Queue, mine: RequestName)
    requires q.script == [] && mine in q.children && mine != SortRequests(q.children)[0]
    ensures WaitForLockSpec(q, mine).0 == Hangs
  {
    var requests := SortRequests(q.children);
    var index := IndexOf(requests, mine) - 1;
    assert 0 <= index by {
      SortKeepsRequests(q.children, mine);
    }
    var ahead := requests[index];
    assert ahead in q.children by {
      SortKeepsRequests(q.children, ahead);
    }
    assert WaitForLockSpec(q, mine) == WatchSpec(q, mine, ahead) by {
      assert GetOrderedLockRequestsSpec(q) == (Returns(requests), q);
    }
    WatchWithoutEventsHangs(q, mine, ahead);
  }

  /** With nothing left to happen, watching a request that is there never ends. */
  lemma WatchWithoutEventsHangs(q: Queue, mine: RequestName, ahead: RequestName)
    requires q.script == [] && ahead in q.children
    ensures WatchSpec(q, mine, ahead).0 == Hangs
  {
    var q1 := q.(watched := q.watched + [ahead]);
    assert ExistsSpec(q, ahead) == (Done(true), q1);
    assert WaitSpec(q1).0 == NeverWoken;
  }

  /** A lone request with nothing in the way finds itself first at once. */
  lemma LoneRequestHolds(q: Queue, mine: RequestName)
    requires q.children == [mine] && q.script == []
    ensures WaitForLockSpec(q, mine) == (Returns(()), q)
  {
    var lone: seq<RequestName> := [mine];
    assert lone[..0] == [];
    assert SortRequests(lone) == lone;
  }

  /** A waiter found at position `k > 0` of the listing goes on to watch the request at `k - 1`. */
  lemma WaitWatchesPredecessor(q: Queue, mine: string, k: int)
    requires GetOrderedLockRequestsSpec(q).0.Returns?
    requires var requests := GetOrderedLockRequestsSpec(q).0.value;
      0 < k < |requests| && requests[k] == mine && forall j :: 0 <= j < k ==> requests[j] != mine
    ensures var (listed, q1) := GetOrderedLockRequestsSpec(q);
      && listed.value[k - 1] in q1.children
      && WaitForLockSpec(q, mine) == WatchSpec(q1, mine, listed.value[k - 1])
  {
    var (listed, q1) := GetOrderedLockRequestsSpec(q);
    var requests := listed.value;
    assert IndexOf(requests, mine) == k;
    SortKeepsRequests(q1.children, requests[k - 1]);
  }

  lemma HandOverFirstLook(q: Queue, ahead: RequestName, mine: RequestName)
    requires Number(ahead) < Number(mine)
    requires q.children == [ahead, mine] && q.script != [] && q.script[0] == Quiet
    ensures WaitForLockSpec(q, mine) == WatchSpec(q.(script := q.script[1..]), mine, ahead)
  {
    var q1 := q.(script := q.script[1..]);
    var requests: seq<RequestName> := [ahead, mine];
    assert GetOrderedLockRequestsSpec(q) == (Returns(requests), q1) by {
      SortPair(ahead, mine);
    }
    assert ahead != mine;
    WaitWatchesPredecessor(q, mine, 1);
  }

  lemma SortPair(a: RequestName, b: RequestName)
    requires Number(a) < Number(b)
    ensures SortRequests([a, b]) == [a, b]
  {
    var pair: seq<RequestName> := [a, b];
    var one: seq<RequestName> := [a];
    assert pair[..1] == one && one[..0] == [];
  }

  lemma HandOverWake(q: Queue, ahead: RequestName, mine: RequestName)
    requires ahead != mine && q.children == [ahead, mine]
    requires |q.script| >= 2 && q.script[0] == Quiet && q.script[1] == Leaves(ahead)
    ensures WatchSpec(q, mine, ahead) == WaitForLockSpec(q.(children := [mine], watched := q.watched + [ahead], script := q.script[2..]), mine)
  {
    var q1 := q.(script := q.script[1..]);
    var q2 := q1.(watched := q.watched + [ahead]);
    assert ExistsSpec(q, ahead) == (Done(true), q2) by {
      assert Next(q) == (Quiet, q1);
      assert ahead in q1.children;
    }
    assert WaitSpec(q2) == (Woken, q.(children := [mine], watched := q.watched + [ahead], script := q.script[2..])) by {
      assert Without([ahead, mine], ahead) == [mine];
      assert q2.script[1..] == q.script[2..];
    }
  }

  /**
   * The hand-over: with `ahead` holding the lock, the waiter watches it,
   * is woken when it leaves, looks again and finds itself first.
   */
  lemma LockPassesWhenAheadLeaves(q: Queue, ahead: RequestName, mine: RequestName)
    requires Number(ahead) < Number(mine)
    requires q.children == [ahead, mine] && q.script == [Quiet, Quiet, Leaves(ahead)]
    ensures WaitForLockSpec(q, mine) == (Returns(()), q.(children := [mine], watched := q.watched + [ahead], script := []))
  {
    var q1 := q.(script := q.script[1..]);
    HandOverFirstLook(q, ahead, mine);
    HandOverWake(q1, ahead, mine);
    assert q1.script[2..] == [];
    LoneRequestHolds(q1.(children := [mine], watched := q.watched + [ahead], script := []), mine);
  }
}
