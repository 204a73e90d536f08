# H1 sequencing service in Dafny

H1 hands out sequence numbers over HTTP. The numbers are kept in ZooKeeper:
each key is a counter node holding an 8-byte big-endian `long`. This project
models the service's logic and proves properties about it. The model covers:

- **The sequence clock (current server).** `getAndIncrement` is an optimistic
  read–increment–conditional-write loop. It creates the node, holding -1, on
  first use. It goes round again on a version conflict, on an interruption
  and after creating the node. `getNextSequence` is the retry loop around it:
  - a session expiry is fatal;
  - a connection loss is retried after a pause that grows linearly;
  - any other store error is retried at once;
  - when the attempts run out, the clock fails and names the most recent
    error.
- **The earlier clock.** It has the same protocol, but:
  - it reports no metrics;
  - it starts over after creating a node;
  - an interrupted create escapes to the caller;
  - only connection losses are retried;
  - when the attempts run out it rethrows the *first* connection loss.
- **The distributed lock.** `ZkLock` places ephemeral-sequential requests
  under a lock node and orders them by the number in their names:
  - `tryLock` keeps its request only if it comes first;
  - `lockInterruptibly` watches the request just ahead of its own until it
    comes first;
  - `unlock` withdraws the request;
  - `lock`, `newCondition` and the timed `tryLock` are not offered.
- **The metrics beans.**
  - `LatencyMetric`: the count and the min, max and average latency, each
    reset when it is read.
  - The current `SequencingMetricsJmx`: write and read latencies plus two
    error counters.
  - The current `ZooKeeperMetricsJmx`: six counters. A connection loss or a
    session expiry also counts as a KeeperException.
  - The older, stubbed versions of both beans.
- **The `/seq/` HTTP resource `Sequence`.** It reads one or several sequences
  and increments one. Each clock call is timed and reported to the metrics
  sink. A missing sequence reads as -1. Other failures become HTTP errors.
- **Two helpers of the EC2 deployment script.** `internalNameToIpAddress`
  turns an internal host name into a dotted address. `validateGroupName`
  refuses a group name that contains a full stop.

ZooKeeper itself is a `Store` class (`CounterStore`) and a `LockStore` class
(`LockNodes`). Each holds the nodes and a script saying what the environment
does to each successive call:
- let it through;
- throw a given KeeperException, before or after a write, create or delete
  took effect (a connection lost after the request reached the store leaves
  the outcome unknown to the caller);
- interrupt it, before or after a write, create or delete took effect;
- let a rival client complete one increment first;
- let a lock request leave.

An empty script means every call runs against the store undisturbed. The
script is finite, so the clock's unbounded `while (!committed)` loop
terminates. The blocking wait of the lock becomes a wake-up event, or
waiting forever (`Hangs`) once the script is exhausted.

Each stateful operation has two parts: a specification function over
values (`...Spec`) and a method on the class. The method's postcondition
says it ends in exactly the state and result the function gives. The
properties are proved as lemmas about those functions.

Files:
- `long_codec.dfy`: the 8-byte payload.
- `counter_store.dfy`: the clock's store.
- `metric_calls.dfy`: the clock's metrics sink.
- `zk_clock.dfy` and `zk_clock_properties.dfy`: the current clock.
- `zk_clock_legacy.dfy` and `zk_clock_legacy_properties.dfy`: the earlier clock.
- `decimal.dfy`: `Long.toString` and `Long.parseLong`.
- `request_order.dfy`: the lock's comparator and sort.
- `lock_nodes.dfy`: the lock node.
- `zk_lock.dfy` and `zk_lock_properties.dfy`: the lock.
- `java_int.dfy`: Java `int` and `long` arithmetic.
- `latency_metric.dfy`, `sequencing_metrics.dfy`, `zookeeper_metrics.dfy`,
  `sequencing_metrics_legacy.dfy` and `zookeeper_metrics_legacy.dfy`: the
  metrics beans.
- `sequence_resource.dfy`: the HTTP resource.
- `ec2_names.dfy`: the script helpers.
- `outcomes.dfy`: `Option` and `Result`.

## Model

| member | source | states |
|---|---|---|
| LongCodec.EncodeLong | src/main/java/com/talis/platform/sequencing/zookeeper/ZkClock.java:40-41 | A `long` is written as exactly 8 bytes. |
| LongCodec.DecodeLong | src/main/java/com/talis/platform/sequencing/zookeeper/ZkClock.java:101-102 | The first 8 bytes of a payload always read back as a value in the `long` range. |
| LongCodec.DecodeEncode | src/main/java/com/talis/platform/sequencing/zookeeper/ZkClock.java:101-104 | Decoding the 8 bytes written for any `long` gives that `long` back. |
| LongCodec.EncodeDecode | src/main/java/com/talis/platform/sequencing/zookeeper/ZkClock.java:101-104 | Encoding the value read from any 8 bytes gives the same 8 bytes. |
| LongCodec.BytesThenBigEndian | src/main/java/com/talis/platform/sequencing/zookeeper/ZkClock.java:101-104 | Big-endian digits of a number below 256^k read back as that number. |
| LongCodec.BigEndianThenBytes | src/main/java/com/talis/platform/sequencing/zookeeper/ZkClock.java:101-104 | Reading bytes as a big-endian number and writing it back gives the same bytes. |
| LongCodec.DefaultDataIsMinusOne | src/main/java/com/talis/platform/sequencing/zookeeper/ZkClock.java:40-41 | `DEFAULT_DATA` is eight 0xFF bytes and decodes to -1. |
| LongCodec.Inc | src/main/java/com/talis/platform/sequencing/zookeeper/ZkClock.java:104 | `++id` on a `long`: one more, except that `Long.MAX_VALUE` wraps to `Long.MIN_VALUE`. |
| LongCodec.Bumped | src/main/java/com/talis/platform/sequencing/zookeeper/ZkClock.java:101-105 | The payload written back is as long as the one read and decodes to the read value moved on by `++`. |
| LongCodec.GetLong | src/main/java/com/talis/platform/sequencing/zookeeper/ZkClock.java:101-102 | `ByteBuffer.getLong` on the wrapped array returns the decoded first 8 bytes. |
| LongCodec.PutLong | src/main/java/com/talis/platform/sequencing/zookeeper/ZkClock.java:103-104 | After `rewind` and `putLong`, the array holds the encoded value followed by its old bytes past the eighth. |
| LongCodec.NextPayload | src/main/java/com/talis/platform/sequencing/zookeeper/ZkClock.java:100-105 | The id handed out is the decoded payload plus one, and the array written back decodes to that id. |
| CounterStore.GetDataSpec | src/main/java/com/talis/platform/sequencing/zookeeper/ZkClock.java:100 | With nothing in the way, `getData` returns the node, or NoNode for a missing path, and changes nothing. Every call consumes one scripted event and never removes a node. |
| CounterStore.SetDataSpec | src/main/java/com/talis/platform/sequencing/zookeeper/ZkClock.java:105 | With nothing in the way, `setData` writes only if the node still has the version given (NoNode or BadVersion otherwise), and moves the version on. A scripted KeeperException or interruption may still have written first. |
| CounterStore.CreateSpec | src/main/java/com/talis/platform/sequencing/zookeeper/ZkClock.java:136-137 | With nothing in the way, `create` adds the node at version 0, or answers NodeExists. A scripted KeeperException or interruption may still have created it first. |
| CounterStore.Store.GetData | src/main/java/com/talis/platform/sequencing/zookeeper/ZkClock.java:100 | The store handle's `getData` ends in the reply and state `GetDataSpec` gives. |
| CounterStore.Store.SetData | src/main/java/com/talis/platform/sequencing/zookeeper/ZkClock.java:105 | The store handle's `setData` ends in the reply and state `SetDataSpec` gives. |
| CounterStore.Store.Create | src/main/java/com/talis/platform/sequencing/zookeeper/ZkClock.java:136-137 | The store handle's `create` ends in the reply and state `CreateSpec` gives. |
| MetricCalls.MetricsRecorder.Record | src/main/java/com/talis/platform/sequencing/zookeeper/ZkClock.java:50 | Every call the clock makes on its `ZooKeeperMetrics` is appended, in order. |
| MetricCalls.CountAppend | src/main/java/com/talis/platform/sequencing/zookeeper/ZkClock.java:50 | The calls of a given kind in two runs of calls add up. |
| ZkSequenceClock.CreateKeySpec | src/main/java/com/talis/platform/sequencing/zookeeper/ZkClock.java:133-154 | With nothing in the way, a missing key is created and nothing is thrown. A created key counts a key creation. An interrupted create counts an interruption and is swallowed. NodeExists is ignored. Any other error counts a KeeperException and is rethrown. |
| ZkSequenceClock.CatchSpec | src/main/java/com/talis/platform/sequencing/zookeeper/ZkClock.java:107-114 | NoNode creates the key and goes round again, unless the create throws. BadVersion counts one collision and goes round again. Any other KeeperException is rethrown. |
| ZkSequenceClock.RoundSpec | src/main/java/com/talis/platform/sequencing/zookeeper/ZkClock.java:99-127 | Going round again always consumes a scripted event or creates the key, so the loop makes progress. |
| ZkSequenceClock.WriteBackSpec | src/main/java/com/talis/platform/sequencing/zookeeper/ZkClock.java:102-106 | With nothing in the way and the node as it was read, the conditional write commits. |
| ZkSequenceClock.IncrementSpec | src/main/java/com/talis/platform/sequencing/zookeeper/ZkClock.java:93-131 | The `while (!committed)` loop always ends, either committed or throwing. |
| ZkSequenceClock.ZkClock.GetNextSequence | src/main/java/com/talis/platform/sequencing/zookeeper/ZkClock.java:63-91 | The retry loop ends with the result, store, metric calls and pauses that `NextSequenceSpec` gives from attempt 0 with no error recorded. |
| ZkSequenceClock.ZkClock.RetryWithDelay | src/main/java/com/talis/platform/sequencing/zookeeper/ZkClock.java:156-164 | After attempt i > 0 the clock pauses `i * retryDelay`. After attempt 0 it does not pause. |
| ZkSequenceClock.ZkClock.GetAndIncrement | src/main/java/com/talis/platform/sequencing/zookeeper/ZkClock.java:93-131 | The loop ends in the pass and state `IncrementSpec` gives. |
| ZkSequenceClock.ZkClock.Catch | src/main/java/com/talis/platform/sequencing/zookeeper/ZkClock.java:107-114 | The catch clauses end in the state `CatchSpec` gives, and rethrow exactly when it does. |
| ZkSequenceClock.ZkClock.CreateKey | src/main/java/com/talis/platform/sequencing/zookeeper/ZkClock.java:133-154 | `createKey` ends in the outcome and state `CreateKeySpec` gives. |
| ZkSequenceClock.ZkClock.constructor | src/main/java/com/talis/platform/sequencing/zookeeper/ZkClock.java:52-61 | The clock keeps its store, metrics, retry delay and retry count, and has not paused yet. |
| ZkSequenceClockProperties.CommitWritesWhatItRead | src/main/java/com/talis/platform/sequencing/zookeeper/ZkClock.java:100-106 | A pass commits only after reading a decodable node. The node still had the version read when the write arrived. Its payload is now the read payload moved on by one, at the next version. The id returned is the read value plus one. |
| ZkSequenceClockProperties.RoundFromDefault | src/main/java/com/talis/platform/sequencing/zookeeper/ZkClock.java:99-127 | With no rival writer, no failed or interrupted call that still wrote, and a missing or freshly created node, a committing pass hands out 0 and leaves 0 stored. Any other pass leaves the node missing or fresh. |
| ZkSequenceClockProperties.IncrementFromDefault | src/main/java/com/talis/platform/sequencing/zookeeper/ZkClock.java:93-131 | The same for the whole increment loop. |
| ZkSequenceClockProperties.FirstSequenceIsZero | src/main/java/com/talis/platform/sequencing/zookeeper/ZkClock.java:40-41 | The first number handed out for a new key is 0, and the node then decodes to 0. This holds whatever failures and retries come first, as long as no rival wrote and no failed or interrupted call wrote before failing. |
| ZkSequenceClockProperties.RoundHeadroom | src/main/java/com/talis/platform/sequencing/zookeeper/ZkClock.java:99-127 | A committing pass hands out a number above the counter's earlier value, and that number is what the node now holds. Any other pass keeps the counter at or above that value. |
| ZkSequenceClockProperties.IncrementHeadroom | src/main/java/com/talis/platform/sequencing/zookeeper/ZkClock.java:93-131 | The same for the whole increment loop. |
| ZkSequenceClockProperties.NumbersIncrease | src/main/java/com/talis/platform/sequencing/zookeeper/ZkClock.java:63-131 | Every number `getNextSequence` hands out is above the counter's value before the call, short of the `long` wrap, and is the value the node then holds. Callers sharing a counter never get the same number. |
| ZkSequenceClockProperties.NoCollisionWithoutRivals | src/main/java/com/talis/platform/sequencing/zookeeper/ZkClock.java:110-114 | A key collision is reported only when another writer got in: without rivals and without made-up version conflicts, none is counted. |
| ZkSequenceClockProperties.CollisionIsReportedAndRetried | src/main/java/com/talis/platform/sequencing/zookeeper/ZkClock.java:110-114 | When a rival increments between the read and the write, exactly one collision is counted and the clock re-reads. It hands out the value after the rival's, with no pause. |
| ZkSequenceClockProperties.InterruptedWriteIsRetried | src/main/java/com/talis/platform/sequencing/zookeeper/ZkClock.java:115-127 | An interrupted write counts one interruption and re-reads. The number handed out is fresh: one further on if the interrupted write reached the store, otherwise the same as an undisturbed call. |
| ZkSequenceClockProperties.LostWriteIsRetried | src/main/java/com/talis/platform/sequencing/zookeeper/ZkClock.java:75-86 | A write that throws a retryable error is counted by the retry loop, and the next attempt re-reads. If the write took effect before the error, that number is wasted and the next one is handed out. |
| ZkSequenceClockProperties.InterruptedCreateIsRetried | src/main/java/com/talis/platform/sequencing/zookeeper/ZkClock.java:139-143 | An interrupted create of a new key is counted and swallowed. The key is then created, and the first number is 0. |
| ZkSequenceClockProperties.CreateFailureUsesAttempt | src/main/java/com/talis/platform/sequencing/zookeeper/ZkClock.java:144-153 | A create error other than NodeExists ends the attempt. It is counted as a KeeperException by `createKey` and again by the retry loop, and becomes the most recent error. If the create took effect before the error, the next attempt finds the key holding -1. |
| ZkSequenceClockProperties.IncrementLeavesRetryEvents | src/main/java/com/talis/platform/sequencing/zookeeper/ZkClock.java:93-131 | The increment loop itself never reports a session expiry or a connection loss. |
| ZkSequenceClockProperties.SessionExpiryReportedOnce | src/main/java/com/talis/platform/sequencing/zookeeper/ZkClock.java:70-74 | A call reports exactly one session expiry when it fails with "Session expired", and none otherwise. |
| ZkSequenceClockProperties.OneFailedAttempt | src/main/java/com/talis/platform/sequencing/zookeeper/ZkClock.java:75-86 | An attempt whose first store call throws a retryable error counts it, pauses only for a connection loss, and moves to the next attempt with that error as the most recent. |
| ZkSequenceClockProperties.ExhaustedRetriesReportLastError | src/main/java/com/talis/platform/sequencing/zookeeper/ZkClock.java:67-90 | When every remaining attempt fails with a retryable error, the clock counts each one and pauses `i * delay` after each connection loss. It then fails with "Failed to obtain next sequence for key" caused by the most recent error, and the store is untouched. |
| ZkSequenceClockProperties.RetriesUntilFaultClears | src/main/java/com/talis/platform/sequencing/zookeeper/ZkClock.java:67-90 | When a run of retryable failures ends with attempts left, the clock counts and pauses for each failure, then hands out the counter's next value. |
| LegacyZkSequenceClock.CreateKeySpec | src/java/com/talis/platform/sequencing/zookeeper/ZkClock.java:96-116 | With nothing in the way, a missing key is created. NodeExists is ignored. An interruption or any other error escapes. |
| LegacyZkSequenceClock.CatchSpec | src/java/com/talis/platform/sequencing/zookeeper/ZkClock.java:74-80 | NoNode creates the key and starts over. BadVersion goes round again. Anything else escapes. |
| LegacyZkSequenceClock.RoundSpec | src/java/com/talis/platform/sequencing/zookeeper/ZkClock.java:65-91 | Going round again always consumes a scripted event or creates the key. |
| LegacyZkSequenceClock.WriteBackSpec | src/java/com/talis/platform/sequencing/zookeeper/ZkClock.java:66-73 | With nothing in the way and the node as it was read, the conditional write commits. |
| LegacyZkSequenceClock.IncrementSpec | src/java/com/talis/platform/sequencing/zookeeper/ZkClock.java:58-94 | `incrementCounter` always ends, either committed or throwing. |
| LegacyZkSequenceClock.ZkClock.constructor | src/java/com/talis/platform/sequencing/zookeeper/ZkClock.java:26-34 | The clock keeps its store, with 10 attempts 500 ms apart, and has not paused yet. |
| LegacyZkSequenceClock.ZkClock.GetNextSequence | src/java/com/talis/platform/sequencing/zookeeper/ZkClock.java:36-56 | The retry loop ends with the result, store and pauses that `NextSequenceSpec` gives. |
| LegacyZkSequenceClock.ZkClock.RetryWithDelay | src/java/com/talis/platform/sequencing/zookeeper/ZkClock.java:118-126 | After attempt i > 0 the clock pauses `i * retryDelay`. After attempt 0 it does not pause. |
| LegacyZkSequenceClock.ZkClock.IncrementCounter | src/java/com/talis/platform/sequencing/zookeeper/ZkClock.java:58-94 | `incrementCounter` ends in the pass and store `IncrementSpec` gives. |
| LegacyZkSequenceClock.ZkClock.CreateKey | src/java/com/talis/platform/sequencing/zookeeper/ZkClock.java:96-116 | `createKey` ends in the outcome and store `CreateKeySpec` gives. |
| LegacyZkSequenceClockProperties.CommitWritesWhatItRead | src/java/com/talis/platform/sequencing/zookeeper/ZkClock.java:66-73 | A pass commits only by writing the payload it read, moved on by one, at the version read. It returns the value written. |
| LegacyZkSequenceClockProperties.IncrementFromDefault | src/java/com/talis/platform/sequencing/zookeeper/ZkClock.java:58-94 | With no rival writer, no failed or interrupted call that still wrote, and a missing or fresh node, a commit hands out 0 and leaves 0 stored. |
| LegacyZkSequenceClockProperties.FirstSequenceIsZero | src/java/com/talis/platform/sequencing/zookeeper/ZkClock.java:22-23 | The first number for a new key is 0, and the node then decodes to 0. |
| LegacyZkSequenceClockProperties.IncrementHeadroom | src/java/com/talis/platform/sequencing/zookeeper/ZkClock.java:58-94 | A commit hands out a number above the counter's earlier value, and that number is what the node holds. |
| LegacyZkSequenceClockProperties.NumbersIncrease | src/java/com/talis/platform/sequencing/zookeeper/ZkClock.java:36-94 | Every number handed out is above the counter's earlier value and is what the node then holds. |
| LegacyZkSequenceClockProperties.NeverThrowsNull | src/java/com/talis/platform/sequencing/zookeeper/ZkClock.java:38-55 | With at least one attempt, `throw exception` never throws null: the loop cannot run out before a connection loss was recorded. |
| LegacyZkSequenceClockProperties.FirstConnectionLossRethrown | src/java/com/talis/platform/sequencing/zookeeper/ZkClock.java:46-55 | When the remaining attempts all fail with connection losses, the clock pauses `i * delay` after each and rethrows the first connection loss of the whole call, with the store untouched. |
| LegacyZkSequenceClockProperties.ConnectionLossesExhaustAttempts | src/java/com/talis/platform/sequencing/zookeeper/ZkClock.java:27-28 | With the clock's settings, ten connection losses in a row give pauses of 500 to 4500 ms, then the first loss is rethrown. |
| LegacyZkSequenceClockProperties.TenPauses | src/java/com/talis/platform/sequencing/zookeeper/ZkClock.java:118-126 | The pauses over ten attempts are 500, 1000, ..., 4500 ms. |
| LegacyZkSequenceClockProperties.OtherErrorsEscapeAtOnce | src/java/com/talis/platform/sequencing/zookeeper/ZkClock.java:39-54 | Any store error other than NoNode, BadVersion or a connection loss, session expiry included, escapes at its first occurrence with no retry and no pause. |
| LegacyZkSequenceClockProperties.InterruptedCreateEscapes | src/java/com/talis/platform/sequencing/zookeeper/ZkClock.java:104-106 | An interrupted create of a new key escapes to the caller instead of being retried. |
| Decimal.Digits | src/main/java/com/talis/platform/sequencing/http/Sequence.java:104 | `toString` of a natural number is decimal digits with no leading zero. |
| Decimal.ParseDigitsOfDigits | src/main/java/com/talis/platform/sequencing/http/Sequence.java:104 | Parsing the digits written for n gives n back. |
| Decimal.LongToStringRoundTrip | src/main/java/com/talis/platform/sequencing/http/Sequence.java:104 | `Long.toString` of any value is text that `Long.parseLong` accepts and reads back as that value. |
| Decimal.ParseDigitsLeadingZeros | src/com/talis/concurrent/zookeeper/ZkLock.java:29-30 | `Long.parseLong` ignores leading zeros. |
| Decimal.SequenceNameValue | src/com/talis/concurrent/zookeeper/ZkLock.java:155-158 | A sequential child's zero-padded name parses back to its sequence number. |
| RequestOrder.Compare | src/com/talis/concurrent/zookeeper/ZkLock.java:25-32 | The comparator answers -1, 0 or 1, and is negative or positive exactly when the first name's number is smaller or larger. |
| RequestOrder.Insert | src/com/talis/concurrent/zookeeper/ZkLock.java:166 | Inserting into an ordered listing keeps it ordered, and adds exactly that name to its contents. |
| RequestOrder.SortRequests | src/com/talis/concurrent/zookeeper/ZkLock.java:166 | `Collections.sort` with the comparator gives an ordered permutation of the listing. |
| RequestOrder.IndexOf | src/com/talis/concurrent/zookeeper/ZkLock.java:182 | `indexOf` gives the first position holding the name, or -1 exactly when it is absent. |
| RequestOrder.SortKeepsRequests | src/com/talis/concurrent/zookeeper/ZkLock.java:163-170 | A name is in the sorted listing exactly when it is among the children. |
| RequestOrder.SortedFirstIsLeast | src/com/talis/concurrent/zookeeper/ZkLock.java:176 | The first request after sorting has the smallest number of all children. |
| RequestOrder.PredecessorIsImmediate | src/com/talis/concurrent/zookeeper/ZkLock.java:182-186 | In the sorted listing, no child's number lies strictly between the numbers at positions k-1 and k. |
| RequestOrder.AppendOrdered | src/com/talis/concurrent/zookeeper/ZkLock.java:166 | An ordered listing stays ordered when a name no lower than its last is appended. |
| RequestOrder.NumbersNotText | src/com/talis/concurrent/zookeeper/ZkLock.java:25-32 | Names are ordered by number, not as text: "9" sorts before "10". |
| LockNodes.Without | src/com/talis/concurrent/zookeeper/ZkLock.java:144 | A deleted child is removed and every other child is kept. |
| LockNodes.Next | src/com/talis/concurrent/zookeeper/ZkLock.java:144-186 | Each call consumes one scripted event. A departing request leaves the lock node before the call runs. |
| LockNodes.CreateRequestSpec | src/com/talis/concurrent/zookeeper/ZkLock.java:155-158 | A successful create answers the prefix followed by the next sequential name, adds that child and moves the counter on. A create that throws or is interrupted may still have added it. |
| LockNodes.GetChildrenSpec | src/com/talis/concurrent/zookeeper/ZkLock.java:165 | A successful listing answers exactly the current children. |
| LockNodes.ExistsSpec | src/com/talis/concurrent/zookeeper/ZkLock.java:183-186 | A successful `exists` says whether the child is present, and leaves a watch on it. |
| LockNodes.DeleteSpec | src/com/talis/concurrent/zookeeper/ZkLock.java:144 | A successful delete at any version removes exactly that child. A delete that throws or is interrupted may still have removed it. |
| LockNodes.WaitSpec | src/com/talis/concurrent/zookeeper/ZkLock.java:198-206 | The wait for the watch ends by a wake-up or an interruption, or never once no event is left. |
| LockNodes.LockStore.Create | src/com/talis/concurrent/zookeeper/ZkLock.java:155-158 | The store's `create` ends as `CreateRequestSpec` says. |
| LockNodes.LockStore.GetChildren | src/com/talis/concurrent/zookeeper/ZkLock.java:165 | The store's `getChildren` ends as `GetChildrenSpec` says. |
| LockNodes.LockStore.Exists | src/com/talis/concurrent/zookeeper/ZkLock.java:183-186 | The store's `exists` ends as `ExistsSpec` says. |
| LockNodes.LockStore.Delete | src/com/talis/concurrent/zookeeper/ZkLock.java:144 | The store's `delete` ends as `DeleteSpec` says. |
| LockNodes.LockStore.Wait | src/com/talis/concurrent/zookeeper/ZkLock.java:198-206 | Waiting on the watch ends as `WaitSpec` says. |
| ZkLocking.LastIndexOf | src/com/talis/concurrent/zookeeper/ZkLock.java:159-160 | `lastIndexOf` gives the last position of the character, or -1 when it does not occur. |
| ZkLocking.LastSegmentOfChild | src/com/talis/concurrent/zookeeper/ZkLock.java:159-160 | The request recorded from the created path is the child's own name, whatever the key. |
| ZkLocking.RequestLockSpec | src/com/talis/concurrent/zookeeper/ZkLock.java:154-161 | `requestLock` only throws a KeeperException or an interruption, and records nothing when it throws. |
| ZkLocking.GetOrderedLockRequestsSpec | src/com/talis/concurrent/zookeeper/ZkLock.java:163-170 | A successful call answers the lock node's children sorted by number. |
| ZkLocking.WaitForLockSpec | src/com/talis/concurrent/zookeeper/ZkLock.java:172-196 | `waitForLock` throws only a KeeperException, an interruption or an index out of bounds. |
| ZkLocking.WatchSpec | src/com/talis/concurrent/zookeeper/ZkLock.java:182-195 | The watch-and-retry branch throws only those same exceptions. |
| ZkLocking.ZkLock.constructor | src/com/talis/concurrent/zookeeper/ZkLock.java:39-43 | A new lock keeps its store and key and has no request. |
| ZkLocking.ZkLock.Lock | src/com/talis/concurrent/zookeeper/ZkLock.java:45-49 | `lock()` always throws UnsupportedOperationException with its message. |
| ZkLocking.ZkLock.NewCondition | src/com/talis/concurrent/zookeeper/ZkLock.java:51-54 | `newCondition()` always throws UnsupportedOperationException. |
| ZkLocking.ZkLock.TryLockWithTimeout | src/com/talis/concurrent/zookeeper/ZkLock.java:123-128 | `tryLock(time, unit)` always throws UnsupportedOperationException, whatever the arguments. |
| ZkLocking.ZkLock.LockInterruptibly | src/com/talis/concurrent/zookeeper/ZkLock.java:56-78 | Ends in the outcome and state `LockInterruptiblySpec` gives. |
| ZkLocking.ZkLock.TryLock | src/com/talis/concurrent/zookeeper/ZkLock.java:80-121 | Ends in the outcome and state `TryLockSpec` gives. |
| ZkLocking.ZkLock.Unlock | src/com/talis/concurrent/zookeeper/ZkLock.java:130-138 | Ends in the state `UnlockSpec` gives. |
| ZkLocking.ZkLock.RemoveLockRequest | src/com/talis/concurrent/zookeeper/ZkLock.java:140-152 | Ends in the state `RemoveLockRequestSpec` gives. |
| ZkLocking.ZkLock.RequestLock | src/com/talis/concurrent/zookeeper/ZkLock.java:154-161 | Ends in the outcome and state `RequestLockSpec` gives. |
| ZkLocking.ZkLock.GetOrderedLockRequests | src/com/talis/concurrent/zookeeper/ZkLock.java:163-170 | Ends in the outcome and store `GetOrderedLockRequestsSpec` gives. |
| ZkLocking.ZkLock.WaitForLock | src/com/talis/concurrent/zookeeper/ZkLock.java:172-196 | Ends in the outcome and store `WaitForLockSpec` gives. |
| ZkLocking.ZkLock.WatchAhead | src/com/talis/concurrent/zookeeper/ZkLock.java:182-195 | Ends in the outcome and store `WatchSpec` gives. |
| ZkLockProperties.SecondRequestRefused | src/com/talis/concurrent/zookeeper/ZkLock.java:58-63 | While a request is recorded, `tryLock` and `lockInterruptibly` both throw AlreadyLockedException naming the key and the request. Nothing changes, the store included. |
| ZkLockProperties.RequestRecordedByName | src/com/talis/concurrent/zookeeper/ZkLock.java:154-161 | A placed request is recorded by its own sequential name, which is now a child of the lock node. |
| ZkLockProperties.TryLockTrueHolds | src/com/talis/concurrent/zookeeper/ZkLock.java:102-106 | When `tryLock` answers true, the recorded request is on the lock node and no request there has a smaller number. |
| ZkLockProperties.TryLockTakesFreeLock | src/com/talis/concurrent/zookeeper/ZkLock.java:80-106 | With nothing in the way and no other request, `tryLock` answers true and keeps its request. |
| ZkLockProperties.TryLockYieldsToEarlierRequest | src/com/talis/concurrent/zookeeper/ZkLock.java:107-111 | With nothing in the way and an earlier request present, `tryLock` answers false and deletes its own request. Only the sequence counter has moved. |
| ZkLockProperties.TryLockCreateFailure | src/com/talis/concurrent/zookeeper/ZkLock.java:91-100 | A failed create makes `tryLock` answer false with nothing recorded. If the create took effect before the exception or interruption, the request is left behind on the lock node. |
| ZkLockProperties.TryLockListingFailure | src/com/talis/concurrent/zookeeper/ZkLock.java:112-120 | A failed listing makes `tryLock` answer false and try to delete its request, whatever follows in the script. A completed delete clears the record and restores the children. A failed delete keeps the record, and keeps the request on the node unless the delete took effect first. |
| ZkLockProperties.WithdrawLastOutcome | src/com/talis/concurrent/zookeeper/ZkLock.java:140-151 | Withdrawing the request added last either deletes and forgets it, or, when the delete fails, keeps the record and keeps the child unless the delete took effect first. |
| ZkLockProperties.UnlockWithoutRequest | src/com/talis/concurrent/zookeeper/ZkLock.java:132-136 | `unlock` with no request changes nothing. |
| ZkLockProperties.UnlockReleases | src/com/talis/concurrent/zookeeper/ZkLock.java:137-145 | With nothing in the way, `unlock` deletes the request at any version and clears the record. |
| ZkLockProperties.UnlockFailureKeepsRecord | src/com/talis/concurrent/zookeeper/ZkLock.java:143-151 | A failed or interrupted delete is swallowed and the record is kept. This holds even when the delete took effect first and the request is gone from the lock node. |
| ZkLockProperties.AheadIsImmediatePredecessor | src/com/talis/concurrent/zookeeper/ZkLock.java:182-186 | A waiter that is not first watches a different child that sorts just before it. No child's number lies between the two. |
| ZkLockProperties.WaitWatchesPredecessor | src/com/talis/concurrent/zookeeper/ZkLock.java:182-194 | A waiter at position k > 0 of the listing watches the request at k-1, which is on the lock node. |
| ZkLockProperties.WaitForLockReturnsHeld | src/com/talis/concurrent/zookeeper/ZkLock.java:172-196 | When `waitForLock` returns, the request holds the lock. Without scripted KeeperExceptions it never throws one. |
| ZkLockProperties.WatchReturnsHeld | src/com/talis/concurrent/zookeeper/ZkLock.java:182-195 | The same for the watch-and-retry branch. |
| ZkLockProperties.LockInterruptiblyReturnsHeld | src/com/talis/concurrent/zookeeper/ZkLock.java:56-78 | Without KeeperExceptions, `lockInterruptibly` returns only with its request holding the lock. |
| ZkLockProperties.SwallowedFailureReturnsUnlocked | src/com/talis/concurrent/zookeeper/ZkLock.java:67-72 | A KeeperException while placing the request is swallowed: `lockInterruptibly` returns normally with no request recorded. If the create took effect first, its request is left on the lock node. |
| ZkLockProperties.SwallowedWaitFailureReturnsUnheld | src/com/talis/concurrent/zookeeper/ZkLock.java:67-72 | A KeeperException while waiting is swallowed too. `lockInterruptibly` returns normally with its request recorded and on the lock node, and with an earlier request outstanding it does not hold the lock. |
| ZkLockProperties.OrphanBlocksTryLock | src/com/talis/concurrent/zookeeper/ZkLock.java:67-111 | A request left behind by a swallowed create failure blocks this same client: its next `tryLock` answers false. |
| ZkLockProperties.InterruptionRethrown | src/com/talis/concurrent/zookeeper/ZkLock.java:73-76 | An interruption while placing the request is rethrown, with nothing recorded. |
| ZkLockProperties.WaitWithoutEventsHangs | src/com/talis/concurrent/zookeeper/ZkLock.java:192 | With no event left to wake it, a waiter that is not first waits forever. |
| ZkLockProperties.LoneRequestHolds | src/com/talis/concurrent/zookeeper/ZkLock.java:176-180 | A lone request finds itself first at once. |
| ZkLockProperties.LockPassesWhenAheadLeaves | src/com/talis/concurrent/zookeeper/ZkLock.java:182-194 | Hand-over: the waiter watches the holder, is woken when it leaves, looks again and returns holding the lock. |
| ZkLockProperties.FreshName | src/com/talis/concurrent/zookeeper/ZkLock.java:155-158 | The next sequential name is not yet a child. |
| ZkLockProperties.LatecomerNotFirst | src/com/talis/concurrent/zookeeper/ZkLock.java:103-104 | A fresh request joining a non-empty lock node does not sort first. |
| ZkLockProperties.WithdrawLast | src/com/talis/concurrent/zookeeper/ZkLock.java:140-146 | With nothing in the way, deleting the request added last restores the children and clears the record. |
| JavaInt.WrapInt | src/main/java/com/talis/platform/sequencing/metrics/LatencyMetric.java:23 | A value reduced into the `int` range, congruent modulo 2^32, and unchanged when it already fits. |
| JavaInt.WrapLong | src/main/java/com/talis/platform/sequencing/http/Sequence.java:102 | `end - start` as a `long`: in range, congruent modulo 2^64, and unchanged when it fits. |
| JavaInt.Quot | src/main/java/com/talis/platform/sequencing/metrics/LatencyMetric.java:39 | Java's `/` rounds toward zero for either sign of the dividend. |
| JavaInt.Bump | src/main/java/com/talis/platform/sequencing/metrics/LatencyMetric.java:59 | `incrementAndGet` on an `int`: one more, except that `Integer.MAX_VALUE` wraps to `Integer.MIN_VALUE`. |
| JavaInt.BumpTimesAdds | src/java/com/talis/platform/sequencing/metrics/SequencingMetricsJmx.java:33-36 | n increments from c add n, as long as the counter does not wrap. |
| JavaInt.IncrementsThenRead | src/java/com/talis/platform/sequencing/metrics/SequencingMetricsJmx.java:38-43 | After n increments from 0 a read answers n, and a second read answers 0. |
| Latency.Record | src/main/java/com/talis/platform/sequencing/metrics/LatencyMetric.java:58-69 | The minimum becomes the latency when it was 0 (unset) or the latency is smaller, and is otherwise kept. The maximum never falls below the latency or the old maximum. Fields stay in their Java ranges. |
| Latency.Least | src/main/java/com/talis/platform/sequencing/metrics/LatencyMetric.java:62-65 | The least element: it is in the sequence and no element is smaller. |
| Latency.Greatest | src/main/java/com/talis/platform/sequencing/metrics/LatencyMetric.java:66-68 | The greatest element: it is in the sequence and no element is larger. |
| Latency.RecordAllSummarises | src/main/java/com/talis/platform/sequencing/metrics/LatencyMetric.java:58-69 | After recording positive latencies on a fresh metric: the count and samples are their number, the total their sum, the minimum their least and the maximum their greatest. |
| Latency.AverageOfRecorded | src/main/java/com/talis/platform/sequencing/metrics/LatencyMetric.java:35-44 | The reported average is their sum divided by their number. |
| Latency.OneToFive | src/main/java/com/talis/platform/sequencing/metrics/LatencyMetric.java:29-69 | Recording 1 to 5 gives count 5, min 1, max 5 and average 3. |
| Latency.FreshReportsZero | src/main/java/com/talis/platform/sequencing/metrics/LatencyMetric.java:23-56 | A new metric reports 0 for every figure. |
| Latency.ReadTwiceGivesZero | src/main/java/com/talis/platform/sequencing/metrics/LatencyMetric.java:29-56 | Every getter resets what it reports: read again at once, each figure is 0. |
| Latency.ZeroLatencyReplaced | src/main/java/com/talis/platform/sequencing/metrics/LatencyMetric.java:62-65 | A recorded latency of 0 is not kept as the minimum: the next latency replaces it. |
| Latency.LatencyMetric.constructor | src/main/java/com/talis/platform/sequencing/metrics/LatencyMetric.java:23-27 | Every field starts at 0. |
| Latency.LatencyMetric.GetCount | src/main/java/com/talis/platform/sequencing/metrics/LatencyMetric.java:29-33 | Returns the count and resets only the count. |
| Latency.LatencyMetric.GetAverageLatency | src/main/java/com/talis/platform/sequencing/metrics/LatencyMetric.java:35-44 | Ends as `TakeAverage` says: 0 with nothing reset when there are no samples, otherwise the total over the samples with both reset. |
| Latency.LatencyMetric.GetMaxLatency | src/main/java/com/talis/platform/sequencing/metrics/LatencyMetric.java:46-50 | Returns the maximum and resets only the maximum. |
| Latency.LatencyMetric.GetMinLatency | src/main/java/com/talis/platform/sequencing/metrics/LatencyMetric.java:52-56 | Returns the minimum and resets only the minimum. |
| Latency.LatencyMetric.RecordLatency | src/main/java/com/talis/platform/sequencing/metrics/LatencyMetric.java:58-69 | Ends in the state `Record` gives. |
| SequencingMetricsJmxModel.WriteAverageExample | src/main/java/com/talis/platform/sequencing/metrics/SequencingMetricsJmx.java:67-75 | Write latencies 5, 5, 10, 10 and 20 give an average of 10 over 5 operations. |
| SequencingMetricsJmxModel.SequencingMetricsJmx.constructor | src/main/java/com/talis/platform/sequencing/metrics/SequencingMetricsJmx.java:33-43 | Two distinct, fresh latency metrics and both error counters at 0. |
| SequencingMetricsJmxModel.SequencingMetricsJmx.GetWriteSequenceOperations | src/main/java/com/talis/platform/sequencing/metrics/SequencingMetricsJmx.java:52-55 | Reads and resets the write metric's count. The read metric and the counters are unchanged. |
| SequencingMetricsJmxModel.SequencingMetricsJmx.GetMinWriteSequenceLatency | src/main/java/com/talis/platform/sequencing/metrics/SequencingMetricsJmx.java:57-60 | Reads and resets the write minimum only. |
| SequencingMetricsJmxModel.SequencingMetricsJmx.GetMaxWriteSequenceLatency | src/main/java/com/talis/platform/sequencing/metrics/SequencingMetricsJmx.java:62-65 | Reads and resets the write maximum only. |
| SequencingMetricsJmxModel.SequencingMetricsJmx.GetAverageWriteSequenceLatency | src/main/java/com/talis/platform/sequencing/metrics/SequencingMetricsJmx.java:67-70 | The write average, as `TakeAverage` gives it. |
| SequencingMetricsJmxModel.SequencingMetricsJmx.RecordSequenceWriteLatency | src/main/java/com/talis/platform/sequencing/metrics/SequencingMetricsJmx.java:72-75 | Records on the write metric. The read metric is unchanged. |
| SequencingMetricsJmxModel.SequencingMetricsJmx.GetReadSequenceOperations | src/main/java/com/talis/platform/sequencing/metrics/SequencingMetricsJmx.java:79-82 | Reads and resets the read metric's count. The write metric is unchanged. |
| SequencingMetricsJmxModel.SequencingMetricsJmx.GetMinReadSequenceLatency | src/main/java/com/talis/platform/sequencing/metrics/SequencingMetricsJmx.java:84-87 | Reads and resets the read minimum only. |
| SequencingMetricsJmxModel.SequencingMetricsJmx.GetMaxReadSequenceLatency | src/main/java/com/talis/platform/sequencing/metrics/SequencingMetricsJmx.java:89-92 | Reads and resets the read maximum only. |
| SequencingMetricsJmxModel.SequencingMetricsJmx.GetAverageReadSequenceLatency | src/main/java/com/talis/platform/sequencing/metrics/SequencingMetricsJmx.java:94-97 | The read average, as `TakeAverage` gives it. |
| SequencingMetricsJmxModel.SequencingMetricsJmx.RecordSequenceReadLatency | src/main/java/com/talis/platform/sequencing/metrics/SequencingMetricsJmx.java:99-102 | Records on the read metric. The write metric is unchanged. |
| SequencingMetricsJmxModel.SequencingMetricsJmx.IncrementErrorResponses | src/main/java/com/talis/platform/sequencing/metrics/SequencingMetricsJmx.java:106-109 | Adds one, with `int` wrap, to the error counter only. |
| SequencingMetricsJmxModel.SequencingMetricsJmx.IncrementReadErrorResponses | src/main/java/com/talis/platform/sequencing/metrics/SequencingMetricsJmx.java:111-114 | Adds one to the read-error counter only. |
| SequencingMetricsJmxModel.SequencingMetricsJmx.GetErrorResponseCount | src/main/java/com/talis/platform/sequencing/metrics/SequencingMetricsJmx.java:116-121 | Returns the error count and resets it. The read-error count is unchanged. |
| SequencingMetricsJmxModel.SequencingMetricsJmx.GetReadErrorResponseCount | src/main/java/com/talis/platform/sequencing/metrics/SequencingMetricsJmx.java:123-128 | Returns the read-error count and resets it. The error count is unchanged. |
| ZooKeeperMetricsJmxModel.ExpectedBound | src/main/java/com/talis/platform/sequencing/zookeeper/metrics/ZooKeeperMetricsJmx.java:44-123 | No counter counts more calls than there were. |
| ZooKeeperMetricsJmxModel.ApplyCounts | src/main/java/com/talis/platform/sequencing/zookeeper/metrics/ZooKeeperMetricsJmx.java:45-116 | One more call keeps every counter equal to the calls it is meant to count. |
| ZooKeeperMetricsJmxModel.TallyCounts | src/main/java/com/talis/platform/sequencing/zookeeper/metrics/ZooKeeperMetricsJmx.java:44-123 | For any sequence of calls on a new bean, short of an `int` wrap, each counter equals its own calls. KeeperExceptions also count every connection loss and session expiry. |
| ZooKeeperMetricsJmxModel.ResetOnlyOwn | src/main/java/com/talis/platform/sequencing/zookeeper/metrics/ZooKeeperMetricsJmx.java:50-123 | A getter resets its own counter and no other. |
| ZooKeeperMetricsJmxModel.ThreeCollisions | src/main/java/com/talis/platform/sequencing/zookeeper/metrics/ZooKeeperMetricsJmx.java:44-55 | Three collisions are read back as 3, and then as 0. |
| ZooKeeperMetricsJmxModel.ZooKeeperMetricsJmx.constructor | src/main/java/com/talis/platform/sequencing/zookeeper/metrics/ZooKeeperMetricsJmx.java:33-37 | All six counters start at 0. |
| ZooKeeperMetricsJmxModel.ZooKeeperMetricsJmx.IncrementKeyCollisions | src/main/java/com/talis/platform/sequencing/zookeeper/metrics/ZooKeeperMetricsJmx.java:45-48 | Adds one to the collisions counter only. |
| ZooKeeperMetricsJmxModel.ZooKeeperMetricsJmx.GetKeyCollisions | src/main/java/com/talis/platform/sequencing/zookeeper/metrics/ZooKeeperMetricsJmx.java:50-55 | Returns the collisions counter and resets it only. |
| ZooKeeperMetricsJmxModel.ZooKeeperMetricsJmx.IncrementKeyCreations | src/main/java/com/talis/platform/sequencing/zookeeper/metrics/ZooKeeperMetricsJmx.java:58-61 | Adds one to the creations counter only. |
| ZooKeeperMetricsJmxModel.ZooKeeperMetricsJmx.GetKeyCreations | src/main/java/com/talis/platform/sequencing/zookeeper/metrics/ZooKeeperMetricsJmx.java:63-68 | Returns the creations counter and resets it only. |
| ZooKeeperMetricsJmxModel.ZooKeeperMetricsJmx.IncrementConnectionLossEvents | src/main/java/com/talis/platform/sequencing/zookeeper/metrics/ZooKeeperMetricsJmx.java:72-76 | Adds one to both the connection-loss and KeeperException counters. |
| ZooKeeperMetricsJmxModel.ZooKeeperMetricsJmx.GetConnectionLossEvents | src/main/java/com/talis/platform/sequencing/zookeeper/metrics/ZooKeeperMetricsJmx.java:78-83 | Returns the connection-loss counter and resets it only. |
| ZooKeeperMetricsJmxModel.ZooKeeperMetricsJmx.IncrementSessionExpiredEvents | src/main/java/com/talis/platform/sequencing/zookeeper/metrics/ZooKeeperMetricsJmx.java:86-90 | Adds one to both the session-expiry and KeeperException counters. |
| ZooKeeperMetricsJmxModel.ZooKeeperMetricsJmx.GetSessionExpiredEvents | src/main/java/com/talis/platform/sequencing/zookeeper/metrics/ZooKeeperMetricsJmx.java:92-97 | Returns the session-expiry counter and resets it only. |
| ZooKeeperMetricsJmxModel.ZooKeeperMetricsJmx.IncrementInterruptedExceptions | src/main/java/com/talis/platform/sequencing/zookeeper/metrics/ZooKeeperMetricsJmx.java:100-103 | Adds one to the interruptions counter only. |
| ZooKeeperMetricsJmxModel.ZooKeeperMetricsJmx.GetInterruptedExceptions | src/main/java/com/talis/platform/sequencing/zookeeper/metrics/ZooKeeperMetricsJmx.java:105-110 | Returns the interruptions counter and resets it only. |
| ZooKeeperMetricsJmxModel.ZooKeeperMetricsJmx.IncrementKeeperExceptions | src/main/java/com/talis/platform/sequencing/zookeeper/metrics/ZooKeeperMetricsJmx.java:113-116 | Adds one to the KeeperException counter only. |
| ZooKeeperMetricsJmxModel.ZooKeeperMetricsJmx.GetKeeperExceptions | src/main/java/com/talis/platform/sequencing/zookeeper/metrics/ZooKeeperMetricsJmx.java:118-123 | Returns the KeeperException counter and resets it only. |
| LegacySequencingMetricsJmxModel.SequencingMetricsJmx.constructor | src/java/com/talis/platform/sequencing/metrics/SequencingMetricsJmx.java:20-26 | The count of sequences generated starts at 0. |
| LegacySequencingMetricsJmxModel.SequencingMetricsJmx.IncrementSequencesGenerated | src/java/com/talis/platform/sequencing/metrics/SequencingMetricsJmx.java:33-36 | Adds one, with `int` wrap. |
| LegacySequencingMetricsJmxModel.SequencingMetricsJmx.GetSequencesGenerated | src/java/com/talis/platform/sequencing/metrics/SequencingMetricsJmx.java:38-43 | Returns the count and resets it to 0. |
| LegacyZooKeeperMetricsJmxModel.CollisionsCounted | src/java/com/talis/platform/sequencing/zookeeper/metrics/ZooKeeperMetricsJmx.java:29-69 | Short of an `int` wrap, the older bean's counter holds exactly the key collisions among the calls it received. |
| LegacyZooKeeperMetricsJmxModel.CountBound | src/java/com/talis/platform/sequencing/zookeeper/metrics/ZooKeeperMetricsJmx.java:29-32 | No kind of call is counted more often than there were calls. |
| LegacyZooKeeperMetricsJmxModel.ZooKeeperMetricsJmx.constructor | src/java/com/talis/platform/sequencing/zookeeper/metrics/ZooKeeperMetricsJmx.java:16-22 | A fresh base bean with its count at 0, and the collisions counter at 0. |
| LegacyZooKeeperMetricsJmxModel.ZooKeeperMetricsJmx.IncrementKeyCollisions | src/java/com/talis/platform/sequencing/zookeeper/metrics/ZooKeeperMetricsJmx.java:29-32 | Adds one to the collisions counter. |
| LegacyZooKeeperMetricsJmxModel.ZooKeeperMetricsJmx.GetKeyCollisions | src/java/com/talis/platform/sequencing/zookeeper/metrics/ZooKeeperMetricsJmx.java:34-39 | Returns the collisions counter and resets it. |
| LegacyZooKeeperMetricsJmxModel.ZooKeeperMetricsJmx.Receive | src/java/com/talis/platform/sequencing/zookeeper/metrics/ZooKeeperMetricsJmx.java:29-69 | A call on the `ZooKeeperMetrics` interface moves the counter as `AfterCall` says: only a key collision moves it. `CollisionsCounted` proves what a run of such steps counts. |
| LegacyZooKeeperMetricsJmxModel.ZooKeeperMetricsJmx.IncrementConnectionLossEvents | src/java/com/talis/platform/sequencing/zookeeper/metrics/ZooKeeperMetricsJmx.java:41-45 | Changes nothing. |
| LegacyZooKeeperMetricsJmxModel.ZooKeeperMetricsJmx.IncrementExpiredSessionEvents | src/java/com/talis/platform/sequencing/zookeeper/metrics/ZooKeeperMetricsJmx.java:47-51 | Changes nothing. |
| LegacyZooKeeperMetricsJmxModel.ZooKeeperMetricsJmx.IncrementInterruptedExceptions | src/java/com/talis/platform/sequencing/zookeeper/metrics/ZooKeeperMetricsJmx.java:53-57 | Changes nothing. |
| LegacyZooKeeperMetricsJmxModel.ZooKeeperMetricsJmx.IncrementKeeperExceptions | src/java/com/talis/platform/sequencing/zookeeper/metrics/ZooKeeperMetricsJmx.java:59-63 | Changes nothing. |
| LegacyZooKeeperMetricsJmxModel.ZooKeeperMetricsJmx.IncrementKeyCreations | src/java/com/talis/platform/sequencing/zookeeper/metrics/ZooKeeperMetricsJmx.java:65-69 | Changes nothing. |
| LegacyZooKeeperMetricsJmxModel.ZooKeeperMetricsJmx.GetConnectionLossEvents | src/java/com/talis/platform/sequencing/zookeeper/metrics/ZooKeeperMetricsJmx.java:71-75 | Always 0. |
| LegacyZooKeeperMetricsJmxModel.ZooKeeperMetricsJmx.GetInterruptedExceptions | src/java/com/talis/platform/sequencing/zookeeper/metrics/ZooKeeperMetricsJmx.java:77-81 | Always 0. |
| LegacyZooKeeperMetricsJmxModel.ZooKeeperMetricsJmx.GetKeeperExceptions | src/java/com/talis/platform/sequencing/zookeeper/metrics/ZooKeeperMetricsJmx.java:83-87 | Always 0. |
| LegacyZooKeeperMetricsJmxModel.ZooKeeperMetricsJmx.GetKeyCreations | src/java/com/talis/platform/sequencing/zookeeper/metrics/ZooKeeperMetricsJmx.java:89-93 | Always 0. |
| LegacyZooKeeperMetricsJmxModel.ZooKeeperMetricsJmx.GetSessionExpiredEvents | src/java/com/talis/platform/sequencing/zookeeper/metrics/ZooKeeperMetricsJmx.java:95-99 | Always 0. |
| SequenceResource.ReadSpec | src/main/java/com/talis/platform/sequencing/http/Sequence.java:112-131 | A read asks the clock for "/" + key once, and never changes the clock's values. |
| SequenceResource.ReadAllSpec | src/main/java/com/talis/platform/sequencing/http/Sequence.java:70-73 | Reading a batch of keys never changes the clock's values or its failing paths. |
| SequenceResource.NextValue | src/main/java/com/talis/platform/sequencing/http/Sequence.java:100 | The clock's next value is always a `long`. |
| SequenceResource.IncrementSpec | src/main/java/com/talis/platform/sequencing/http/Sequence.java:95-110 | An increment asks the clock for the next value of "/" + key once, and keeps every value a `long`. |
| SequenceResource.EmptyKeysRefused | src/main/java/com/talis/platform/sequencing/http/Sequence.java:64-68 | A missing or empty key set is a bad request. The clock, the time and the metrics are not touched. |
| SequenceResource.ReadOne | src/main/java/com/talis/platform/sequencing/http/Sequence.java:112-131 | A failing path counts one read error and answers a server error naming the path. Otherwise the answer is the clock's value or -1, and at most one read latency is recorded. |
| SequenceResource.ReadLatencyIsElapsedTime | src/main/java/com/talis/platform/sequencing/http/Sequence.java:116-121 | A read of a held sequence answers its value and records, once, the time between the timestamps taken before and after the clock call. |
| SequenceResource.WriteLatencyIsElapsedTime | src/main/java/com/talis/platform/sequencing/http/Sequence.java:99-102 | A successful increment records, once, the time its clock call took as a write latency. |
| SequenceResource.ReadAllAnswersEveryKey | src/main/java/com/talis/platform/sequencing/http/Sequence.java:70-73 | With no failing key, the loop succeeds with one entry per key, keyed without the "/", holding the clock's value or -1. Earlier entries are kept. |
| SequenceResource.ReadAllStep | src/main/java/com/talis/platform/sequencing/http/Sequence.java:71-72 | One turn of the loop puts the key's reported value and goes on with the rest. |
| SequenceResource.ReadAllAsksEveryKey | src/main/java/com/talis/platform/sequencing/http/Sequence.java:71-72 | With no failing key, the clock is asked for each key's path once, in order. |
| SequenceResource.ReadAllRecordsLatencies | src/main/java/com/talis/platform/sequencing/http/Sequence.java:116-125 | With no failing key, exactly one read latency is recorded per sequence the clock holds, and nothing else. |
| SequenceResource.ReadAllSplit | src/main/java/com/talis/platform/sequencing/http/Sequence.java:71-73 | The loop over the keys is the loop over a healthy prefix followed by the loop over the rest. |
| SequenceResource.ReadAllStopsAtFailure | src/main/java/com/talis/platform/sequencing/http/Sequence.java:126-130 | The batch stops at the first failing key with a server error naming its path. The clock is asked for the keys before it and for it, and no further. |
| SequenceResource.ReadAllFailureRecords | src/main/java/com/talis/platform/sequencing/http/Sequence.java:119-129 | Before stopping, the batch records one read latency per held sequence before the failing key, then one read error. |
| SequenceResource.CurrentSequencesAnswersEveryKey | src/main/java/com/talis/platform/sequencing/http/Sequence.java:64-75 | With a healthy clock, the map's keys are exactly the requested keys, each holding the clock's value for "/" + key or -1. The clock is asked once per key. |
| SequenceResource.MissingReadsMinusOne | src/main/java/com/talis/platform/sequencing/http/Sequence.java:122-125 | A sequence the clock does not hold reads as "-1", and nothing is reported to the metrics. |
| SequenceResource.ReadFailureReported | src/main/java/com/talis/platform/sequencing/http/Sequence.java:126-130 | A failed read counts one read error and answers a server error naming the path. |
| SequenceResource.IncrementFailureReported | src/main/java/com/talis/platform/sequencing/http/Sequence.java:105-109 | A failed increment counts one error response, changes no sequence and answers "Internal Error". |
| SequenceResource.IncrementThenRead | src/main/java/com/talis/platform/sequencing/http/Sequence.java:95-104 | Read after write. An increment answers the text of the value the clock now holds, and the next read answers the same text. The value is one more than before, or 0 for a new sequence, short of the `long` wrap. One write latency is recorded. |
| SequenceResource.IncrementAnswerParses | src/main/java/com/talis/platform/sequencing/http/Sequence.java:104 | The text a successful increment answers is well-formed decimal that parses back to the new value. |
| SequenceResource.Clock.GetSequence | src/main/java/com/talis/platform/sequencing/http/Sequence.java:117 | The clock answers as `Answer` says and records the call. |
| SequenceResource.Clock.GetNextSequence | src/main/java/com/talis/platform/sequencing/http/Sequence.java:100 | The clock fails on a failing path, and otherwise stores and answers `NextValue`. The call is recorded. |
| SequenceResource.TimestampProvider.GetCurrentTimeInMillis | src/main/java/com/talis/platform/sequencing/http/Sequence.java:99 | The k-th reading answers `at(k)`. |
| SequenceResource.MetricsLog.RecordSequenceWriteLatency | src/main/java/com/talis/platform/sequencing/http/Sequence.java:102 | The call is appended to the calls received. |
| SequenceResource.MetricsLog.RecordSequenceReadLatency | src/main/java/com/talis/platform/sequencing/http/Sequence.java:119 | The call is appended to the calls received. |
| SequenceResource.MetricsLog.IncrementErrorResponses | src/main/java/com/talis/platform/sequencing/http/Sequence.java:106 | The call is appended to the calls received. |
| SequenceResource.MetricsLog.IncrementReadErrorResponses | src/main/java/com/talis/platform/sequencing/http/Sequence.java:127 | The call is appended to the calls received. |
| SequenceResource.Sequence.constructor | src/main/java/com/talis/platform/sequencing/http/Sequence.java:55-60 | The resource keeps its clock, timestamp provider and metrics. |
| SequenceResource.Sequence.GetSequence | src/main/java/com/talis/platform/sequencing/http/Sequence.java:112-131 | Ends in the answer and collaborator state `ReadSpec` gives. |
| SequenceResource.Sequence.GetCurrentSequences | src/main/java/com/talis/platform/sequencing/http/Sequence.java:62-75 | The `for` loop ends in the map and collaborator state `CurrentSequencesSpec` gives. |
| SequenceResource.Sequence.GetCurrentSequencesByFormPost | src/main/java/com/talis/platform/sequencing/http/Sequence.java:77-82 | Answers exactly what `getCurrentSequences` answers for the same keys. |
| SequenceResource.Sequence.GetCurrentSequence | src/main/java/com/talis/platform/sequencing/http/Sequence.java:84-90 | Ends as `CurrentSequenceSpec` says: the value read, as decimal text. |
| SequenceResource.Sequence.IncrementSequence | src/main/java/com/talis/platform/sequencing/http/Sequence.java:92-110 | Ends in the answer and collaborator state `IncrementSpec` gives. |
| Ec2Names.FindFrom | etc/ec2/Ec2.rb:210-214 | The first index from a start point where the pattern occurs. None exactly when there is no such index. |
| Ec2Names.FirstAt | etc/ec2/Ec2.rb:210-214 | An occurrence with none before it is the one found. |
| Ec2Names.ReplaceFirstFails | etc/ec2/Ec2.rb:210-214 | `str[pattern] = replacement` raises exactly when the pattern occurs nowhere. |
| Ec2Names.InternalNameToIpAddress | etc/ec2/Ec2.rb:208-216 | The five in-place rewrites of the copy end as `IpAddressOf` says: the first rewrite that finds nothing raises. |
| Ec2Names.StripName | etc/ec2/Ec2.rb:210-211 | Deleting "ip-" and the region suffix from an internal name leaves the dashed address. |
| Ec2Names.ThreeDashes | etc/ec2/Ec2.rb:212-214 | The three dash rewrites turn `a-b-c-d` into `a.b.c.d` when no part holds a dash or a dot. |
| Ec2Names.AddressOfInternalName | etc/ec2/Ec2.rb:208-216 | Any internal name built from plain parts maps to its dotted address. |
| Ec2Names.ThreePartsFail | etc/ec2/Ec2.rb:214 | A name with only three address parts raises IndexError at the third dash rewrite. |
| Ec2Names.NotAnInternalName | etc/ec2/Ec2.rb:210 | A name without "ip-" raises IndexError. |
| Ec2Names.ExampleAddress | etc/ec2/Ec2.rb:208-216 | "ip-10-48-7-1.eu-west-1.compute.internal" maps to "10.48.7.1". |
| Ec2Names.HasFullStop | etc/ec2/Ec2.rb:55 | The pattern `/\./` matches exactly when the name holds a full stop. |
| Ec2Names.ValidateGroupName | etc/ec2/Ec2.rb:54-59 | The name is refused, with the `--group` message, exactly when it holds a full stop. |

## Left out

- Logging: every log call is left out, and so are the log messages built in the clocks and the lock.
- Sleeping: `Thread.sleep` in `retryWithDelay` is recorded as the pause asked for (`naps`). The interruption of a sleep, which only logs, is not modelled.
- JMX: the MBean registration done by the bean constructors and `JmxSupport`/`JmxMetricsReporterBase` is left out. `getBeanName` is the constant `BeanName` of each bean module.
- Atomicity and concurrency: the atomic fields are plain fields and every model is sequential. Other clients appear only as scripted events: a rival increment, a departing lock request, a failure or an interruption.
- The store connection: `ZooKeeperProvider` and the ZooKeeper client are not part of this model. The clocks and the lock take a store handle.
- The store's ACLs and create modes are left out. Sequential lock children are named by a counter, as ten zero-padded digits.
- ZkLocking.WaitForLockSpec: the monitor `wait`/`notifyAll` of `waitForNotification` and `process` is a scripted wake-up. With no event left, the waiter waits forever (`Hangs`). Spurious wake-ups are wake-ups.
- ZkLocking: the lock's `exists`, `delete` and `getChildren` calls are modelled on child names under the one lock node. The full `key + "/" + name` path is not rebuilt, and the lock's key is not checked against the node.
- ZkLockProperties.WaitForLockReturnsHeld: it holds only for the state the waiter last listed. Another client's request that arrives after that listing is not modelled, because arrivals are not scripted.
- Latency.RecordAllSummarises: stated only for positive latencies that cannot wrap the counters. A latency of 0 or below upsets the minimum (see `ZeroLatencyReplaced`), and very many latencies wrap the `int` counters.
- ZooKeeperMetricsJmxModel.TallyCounts: stated only for at most `Integer.MAX_VALUE` calls. Beyond that the counters wrap, as `Bump` models.
- LegacyZooKeeperMetricsJmxModel.ZooKeeperMetricsJmx: the inheritance from the older `SequencingMetricsJmx` is the `base` field. Only the behaviour the subclass overrides or adds is modelled on it.
- SequenceResource: the clock behind the resource is the `Clock` interface, not the ZooKeeper clock. It is abstracted to the value of each sequence it holds and the set of paths on which it fails. Its next value behaves as the ZooKeeper clock's does.
- SequenceResource: the time is `at(k)`, the k-th reading of the timestamp provider. The metrics sink is the list of calls it receives.
- SequenceResource: exceptions thrown by the timestamp provider or the metrics sink are not modelled.
- SequenceResource: the `SortedSet` of keys is given as a sequence in its iteration order. The `HashMap` is a Dafny map.
- SequenceResource: the Jersey annotations, HTTP routing, JSON output and status codes are left out. The exceptions are `BadRequest` and `ServerError`.
- ZkSequenceClock and LegacyZkSequenceClock: the clocks never create sequential nodes, so the store's sequential-name counter plays no part in them.
- LockNodes.Added: the lock node's sequential counter is unbounded. ZooKeeper keeps it as a signed 32-bit number, written with `%010d`. After 2^31 - 1 creates under one lock node the names turn negative, and `Long.parseLong` then sorts them first.
- ZkLockProperties.FreshName and ZkLockProperties.LatecomerNotFirst: they hold only while the lock node has seen fewer than 2^31 - 1 creates. Past that, the wrapped counter can repeat a name or put a latecomer first.
- ZkSequenceClock and LegacyZkSequenceClock: the payload must hold at least 8 bytes. A shorter payload ends in the unchecked `BufferUnderflowException`.
- Ec2Names.InternalNameToIpAddress: Ruby strings are values here, so the copy taken at line 209 is implicit and the caller's string is never changed.
- Ec2Names: the region suffix is fixed to "eu-west-1", as in the script. A name from another region raises IndexError.
- Ec2Names.ValidateGroupName: the `puts` and `Process.exit` become the message returned.
- Ec2Names: the rest of the deployment script (AWS calls, uploads, prompts) is left out.
- The tests under `test/src/` exercise other versions of these classes. The provider-taking constructor and retry-on-any-error behaviour in `test/src/com/talis/platform/sequencing/zookeeper/ZkClockTest.java` do not match the earlier clock, and `ZkLockTest` expects a `/lock/a` prefix. The model follows the classes themselves: lock requests are created directly under `key + "/"`.
