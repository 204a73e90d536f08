/**
 * The distributed lock: one client's view of a lock node. A request is an
 * ephemeral sequential child of the lock node; the request with the smallest
 * number holds the lock, and a waiter watches the request just before its
 * own until it goes away.
 *
 * Each operation is a spec function over the store's queue and the client's
 * recorded request, and a method of `ZkLock` proved equal to it.
 */
module ZkLocking {
  import opened Outcomes
  import opened Decimal
  import opened CounterStore
  import opened LockNodes
  import opened RequestOrder

  /** The exceptions the lock's operations throw. */
  datatype LockException =
    | Unsupported(message: string)   // UnsupportedOperationException
    | AlreadyLocked(message: string) // AlreadyLockedException
    | KeeperThrown(error: KeeperError)
    | InterruptedThrown
    | IndexOutOfBounds(index: int)   // from `List.get`

  /** How a call ends: it returns, it throws, or it waits forever for a watch. */
  datatype Outcome<+T> = Returns(value: T) | Raises(exception: LockException) | Hangs

  /** The store's lock node and the client's outstanding request, `myLockRequest`. */
  datatype LockState = LockState(queue: Queue, request: Option<string>)

  const LockMessage := "Not implemented, use lockInterruptibly instead"
  const ConditionMessage := "Not Supported"
  const TimeoutMessage := "Timeout values are not supported, use tryLock() instead"

  function AlreadyLockedMessage(key: string, request: string): string {
    "Lock already has lock request active for " + key + " : " + request
  }

  /** The position of the last `c` in `s`, or -1: `String.lastIndexOf`. */
  function LastIndexOf(s: string, c: char): (i: int)
    ensures -1 <= i < |s|
    ensures 0 <= i ==> s[i] == c
    ensures forall j :: i < j < |s| ==> s[j] != c
  {
    if s == [] then -1
    else if s[|s| - 1] == c then |s| - 1
    else LastIndexOf(s[..|s| - 1], c)
  }

  /** What follows the last '/' of a path: `path.substring(path.lastIndexOf("/") + 1)`. */
  function LastSegment(path: string): string {
    path[LastIndexOf(path, '/') + 1..]
  }

  /** The request name recovered from the created path is the child's own name, whatever the key. */
  lemma LastSegmentOfChild(key: string, name: RequestName)
    ensures LastSegment(key + "/" + name) == name
  {
    var path := key + "/" + name;
    var i := LastIndexOf(path, '/');
    assert path[|key|] == '/';
    assert path[|key| + 1..] == name;
  }

  /** `requestLock`: a sequential child under `key + "/"`, recorded by its last segment. */
  function RequestLockSpec(s: LockState, key: string): (r: (Outcome<()>, LockState))
    ensures r.0.Returns? || r.0.Raises?
    ensures r.0.Raises? ==> r.0.exception.KeeperThrown? || r.0.exception.InterruptedThrown?
    ensures r.0.Raises? ==> r.1.request == s.request
  {
    var (made, q) := CreateRequestSpec(s.queue, key + "/");
    match made
    case Done(path) => (Returns(()), LockState(q, Some(LastSegment(path))))
    case Keeper(err) => (Raises(KeeperThrown(err)), s.(queue := q))
    case Interrupted => (Raises(InterruptedThrown), s.(queue := q))
  }

  /** `getOrderedLockRequests`: the children of the lock node, sorted by number. */
  function GetOrderedLockRequestsSpec(q: Queue): (r: (Outcome<seq<RequestName>>, Queue))
    ensures r.1 == Next(q).1
    ensures r.0.Returns? || r.0.Raises?
    ensures r.0.Raises? ==> r.0.exception.KeeperThrown? || r.0.exception.InterruptedThrown?
    ensures r.0.Returns? ==> r.0.value == SortRequests(r.1.children)
  {
    var (listed, q1) := GetChildrenSpec(q);
    match listed
    case Done(children) => (Returns(SortRequests(children)), q1)
    case Keeper(err) => (Raises(KeeperThrown(err)), q1)
    case Interrupted => (Raises(InterruptedThrown), q1)
  }

  /**
   * `removeLockRequest`: deletes the request at any version; the record is
   * cleared only when the delete succeeds, and every failure is swallowed.
   */
  function RemoveLockRequestSpec(s: LockState): (r: LockState)
    requires s.request.Some?
  {
    var (deleted, q) := DeleteSpec(s.queue, s.request.value);
    if deleted.Done? then LockState(q, None) else s.(queue := q)
  }

  /** `unlock`: nothing to do without a request. */
  function UnlockSpec(s: LockState): (r: LockState) {
    if s.request.None? then s else RemoveLockRequestSpec(s)
  }

  /** `tryLock`. */
  function TryLockSpec(s: LockState, key: string): (r: (Outcome<bool>, LockState)) {
    if s.request.Some? then (Raises(AlreadyLocked(AlreadyLockedMessage(key, s.request.value))), s)
    else
      var (made, s1) := RequestLockSpec(s, key);
      if made.Returns? then CheckFirstSpec(s1) else (Returns(false), s1)
  }

  /**
   * The second `try` block of `tryLock`: true when the recorded request
   * comes first; otherwise, or when the listing fails, the request is
   * withdrawn and the answer is false.
   */
  function CheckFirstSpec(s: LockState): (r: (Outcome<bool>, LockState))
    requires s.request.Some?
  {
    var (listed, q) := GetOrderedLockRequestsSpec(s.queue);
    var s1 := s.(queue := q);
    if !listed.Returns? then (Returns(false), RemoveLockRequestSpec(s1))
    else if |listed.value| == 0 then (Raises(IndexOutOfBounds(0)), s1)
    else if s.request.value == listed.value[0] then (Returns(true), s1)
    else (Returns(false), RemoveLockRequestSpec(s1))
  }

  /**
   * `waitForLock` for the request `mine`: returns once `mine` comes first;
   * otherwise watches the request just before it and, after a wake-up or at
   * once when that request is already gone, looks again.
   */
  function WaitForLockSpec(q: Queue, mine: string): (r: (Outcome<()>, Queue))
    ensures !r.0.Raises? || r.0.exception.KeeperThrown? || r.0.exception.InterruptedThrown? || r.0.exception.IndexOutOfBounds?
    decreases |q.script|, 1
  {
    var (listed, q1) := GetOrderedLockRequestsSpec(q);
    if !listed.Returns? then (Raises(listed.exception), q1)
    else
      var requests := listed.value;
      if |requests| == 0 then (Raises(IndexOutOfBounds(0)), q1)
      else if mine == requests[0] then (Returns(()), q1)
      else
        var index := IndexOf(requests, mine) - 1;
        if index < 0 then (Raises(IndexOutOfBounds(index)), q1)
        else
          assert requests[index] in q1.children by {
            SortKeepsRequests(q1.children, requests[index]);
          }
          WatchSpec(q1, mine, requests[index])
  }

  /**
   * The rest of `waitForLock` once `ahead`, the request just before `mine`,
   * is known: watch it, wait while it is there, and look again.
   */
  function WatchSpec(q: Queue, mine: string, ahead: RequestName): (r: (Outcome<()>, Queue))
    requires ahead in q.children
    ensures !r.0.Raises? || r.0.exception.KeeperThrown? || r.0.exception.InterruptedThrown? || r.0.exception.IndexOutOfBounds?
    decreases |q.script|, 0
  {
    var (seen, q1) := ExistsSpec(q, ahead);
    match seen
    case Keeper(err) => (Raises(KeeperThrown(err)), q1)
    case Interrupted => (Raises(InterruptedThrown), q1)
    case Done(present) =>
      if !present then WaitForLockSpec(q1, mine)
      else
        var (wake, q2) := WaitSpec(q1);
        match wake
        case NeverWoken => (Hangs, q2)
        case WaitInterrupted => (Raises(InterruptedThrown), q2)
        case Woken => WaitForLockSpec(q2, mine)
  }

  /**
   * `lockInterruptibly`: requests the lock and waits for it. A
   * KeeperException from either step is swallowed and the call returns; an
   * interruption is rethrown.
   */
  function LockInterruptiblySpec(s: LockState, key: string): (r: (Outcome<()>, LockState)) {
    if s.request.Some? then (Raises(AlreadyLocked(AlreadyLockedMessage(key, s.request.value))), s)
    else
      var (made, s1) := RequestLockSpec(s, key);
      if made.Raises? then
        (if made.exception.KeeperThrown? then Returns(()) else made, s1)
      else
        var (waited, q2) := WaitForLockSpec(s1.queue, s1.request.value);
        var s2 := s1.(queue := q2);
        if waited.Raises? && waited.exception.KeeperThrown? then (Returns(()), s2)
        else (waited, s2)
  }

  class ZkLock {
    const keeper: LockStore
    const key: string
    var request: Option<string>

    ghost function State(): LockState
      reads this, keeper
    {
      LockState(keeper.State(), request)
    }

    constructor (keeper: LockStore, key: string)
      ensures this.keeper == keeper && this.key == key && request == None
    {
      this.keeper := keeper;
      this.key := key;
      request := None;
    }

    /** `lock()` is not offered. */
    method Lock() returns (r: Outcome<()>)
      ensures r == Raises(Unsupported(LockMessage))
    {
      r := Raises(Unsupported(LockMessage));
    }

    /** `newCondition()` is not offered. */
    method NewCondition() returns (r: Outcome<()>)
      ensures r == Raises(Unsupported(ConditionMessage))
    {
      r := Raises(Unsupported(ConditionMessage));
    }

    /** `tryLock(time, unit)` is not offered, whatever the timeout. */
    method TryLockWithTimeout(time: int, unit: string) returns (r: Outcome<bool>)
      ensures r == Raises(Unsupported(TimeoutMessage))
    {
      r := Raises(Unsupported(TimeoutMessage));
    }

    method LockInterruptibly() returns (r: Outcome<()>)
      modifies this, keeper
      ensures (r, State()) == LockInterruptiblySpec(old(State()), key)
    {
      if request.Some? {
        return Raises(AlreadyLocked(AlreadyLockedMessage(key, request.value)));
      }
      r := RequestLock();
      if r.Raises? {
        if r.exception.KeeperThrown? {
          r := Returns(());
        }
        return;
      }
      ghost var s1 := State();
      r := WaitForLock();
      assert (r, keeper.State()) == WaitForLockSpec(s1.queue, s1.request.value);
      if r.Raises? && r.exception.KeeperThrown? {
        r := Returns(());
      }
    }

    method TryLock() returns (r: Outcome<bool>)
      modifies this, keeper
      ensures (r, State()) == TryLockSpec(old(State()), key)
    {
      if request.Some? {
        return Raises(AlreadyLocked(AlreadyLockedMessage(key, request.value)));
      }
      var made := RequestLock();
      if !made.Returns? {
        return Returns(false);
      }
      ghost var s1 := State();
      assert TryLockSpec(old(State()), key) == CheckFirstSpec(s1);
      var listed := GetOrderedLockRequests();
      if !listed.Returns? {
        RemoveLockRequest();
        return Returns(false);
      }
      var requests := listed.value;
      if |requests| == 0 {
        return Raises(IndexOutOfBounds(0));
      }
      if request.value == requests[0] {
        return Returns(true);
      }
      RemoveLockRequest();
      r := Returns(false);
    }

    method Unlock()
      modifies this, keeper
      ensures State() == UnlockSpec(old(State()))
    {
      if request.None? {
        return;
      }
      RemoveLockRequest();
    }

    method RemoveLockRequest()
      requires request.Some?
      modifies this, keeper
      ensures State() == RemoveLockRequestSpec(old(State()))
    {
      var deleted := keeper.Delete(request.value);
      if deleted.Done? {
        request := None;
      }
    }

    method RequestLock() returns (r: Outcome<()>)
      modifies this, keeper
      ensures (r, State()) == RequestLockSpec(old(State()), key)
    {
      var made := keeper.Create(key + "/");
      match made {
        case Done(path) =>
          request := Some(LastSegment(path));
          r := Returns(());
        case Keeper(err) =>
          r := Raises(KeeperThrown(err));
        case Interrupted =>
          r := Raises(InterruptedThrown);
      }
    }

    method GetOrderedLockRequests() returns (r: Outcome<seq<RequestName>>)
      modifies keeper
      ensures (r, keeper.State()) == GetOrderedLockRequestsSpec(old(keeper.State()))
    {
      var listed := keeper.GetChildren();
      match listed {
        case Done(children) =>
          r := Returns(SortRequests(children));
        case Keeper(err) =>
          r := Raises(KeeperThrown(err));
        case Interrupted =>
          r := Raises(InterruptedThrown);
      }
    }

    method WaitForLock() returns (r: Outcome<()>)
      requires request.Some?
      modifies keeper
      ensures (r, keeper.State()) == WaitForLockSpec(old(keeper.State()), request.value)
      decreases |keeper.script|, 1
    {
      var listed := GetOrderedLockRequests();
      if !listed.Returns? {
        return Raises(listed.exception);
      }
      var requests := listed.value;
      if |requests| == 0 {
        return Raises(IndexOutOfBounds(0));
      }
      if request.value == requests[0] {
        return Returns(());
      }
      var index := IndexOf(requests, request.value) - 1;
      if index < 0 {
        return Raises(IndexOutOfBounds(index));
      }
      SortKeepsRequests(keeper.children, requests[index]);
      r := WatchAhead(requests[index]);
    }

    /** The `else` branch of `waitForLock`, once the request just before this one is known. */
    method WatchAhead(ahead: RequestName) returns (r: Outcome<()>)
      requires request.Some? && ahead in keeper.children
      modifies keeper
      ensures (r, keeper.State()) == WatchSpec(old(keeper.State()), request.value, ahead)
      decreases |keeper.script|, 0
    {
      ghost var q := keeper.State();
      var seen := keeper.Exists(ahead);
      if seen.Keeper? {
        return Raises(KeeperThrown(seen.error));
      }
      if seen.Interrupted? {
        return Raises(InterruptedThrown);
      }
      if seen.value {
        var wake := keeper.Wait();
        if wake.NeverWoken? {
          return Hangs;
        }
        if wake.WaitInterrupted? {
          return Raises(InterruptedThrown);
        }
      }
      r := WaitForLock();
    }
  }
}
