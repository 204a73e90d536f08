/**
 * The `/seq/` HTTP resource (`Sequence`): reads the current value of one
 * or several sequences and increments a sequence, timing each clock call
 * and reporting latencies and errors to the `SequencingMetrics` sink.
 *
 * The clock behind the resource is abstracted to the current value of each
 * sequence it holds and the set of paths on which it fails; the time is the
 * `at(k)` reading of a timestamp provider read `k` times before; the metrics
 * sink is the sequence of calls it receives.
 */
module SequenceResource {
  import opened Outcomes
  import opened Decimal
  import opened LongCodec
  import opened JavaInt

  /** `DEFAULT_SEQUENCE`: the value reported for a sequence the clock does not hold. */
  const DefaultSequence: int := -1

  const EmptyListMessage: string := "Cannot query an empty list of sequences"
  const IncrementFailedMessage: string := "Internal Error"

  function ReadFailedMessage(path: string): string {
    "Internal Error while accessing sequence " + path
  }

  /** The Jersey exceptions the resource throws, each answered with its HTTP status. */
  datatype HttpError = BadRequest(message: string) | ServerError(message: string)

  /** A call on the `Clock` interface. */
  datatype ClockCall = GetSequence(path: string) | GetNextSequence(path: string)

  /** What `getSequence` does: answers a value, throws `NoSuchSequenceException`, or throws anything else. */
  datatype ClockAnswer = Current(value: int) | NoSuchSequence | ClockFailed

  /** A call on the `SequencingMetrics` interface. */
  datatype MetricsCall =
    | SequenceWriteLatency(latency: int)
    | SequenceReadLatency(latency: int)
    | ErrorResponse
    | ReadErrorResponse

  /**
   * The resource's collaborators: the clock (the value of each sequence it
   * holds, the paths it fails on, the calls it received), how many times the
   * timestamp provider has been read, and the calls the metrics sink received.
   */
  datatype Services = Services(
    values: map<string, int>,
    failing: set<string>,
    asked: seq<ClockCall>,
    readings: nat,
    calls: seq<MetricsCall>)

  /** The clock's values are Java `long`s. */
  predicate Longs(values: map<string, int>) {
    forall path :: path in values ==> IsLong(values[path])
  }

  /** `clock.getSequence(path)` of the abstract clock. */
  function Answer(values: map<string, int>, failing: set<string>, path: string): ClockAnswer {
    if path in failing then ClockFailed
    else if path in values then Current(values[path])
    else NoSuchSequence
  }

  /** The value a read of `key` reports when the clock does not fail: the current value, or -1 for a sequence it does not hold. */
  function Reported(s: Services, key: string): int {
    var path := "/" + key;
    if path in s.values then s.values[path] else DefaultSequence
  }

  /**
   * `getSequence(key)`: reads the time, asks the clock for "/" + key, reads
   * the time again and records the difference as a read latency. A missing
   * sequence reads as -1 with no metric; any other failure counts as a read
   * error and becomes a server error naming the path.
   */
  function ReadSpec(s: Services, at: nat -> int, key: string): (r: (Result<int, HttpError>, Services))
    ensures r.1.values == s.values && r.1.failing == s.failing
    ensures r.1.asked == s.asked + [GetSequence("/" + key)]
  {
    var path := "/" + key;
    var start := at(s.readings);
    var s1 := s.(readings := s.readings + 1, asked := s.asked + [GetSequence(path)]);
    match Answer(s.values, s.failing, path)
    case ClockFailed => (Failure(ServerError(ReadFailedMessage(path))), s1.(calls := s1.calls + [ReadErrorResponse]))
    case NoSuchSequence => (Success(DefaultSequence), s1)
    case Current(value) =>
      var end := at(s1.readings);
      (Success(value), s1.(readings := s1.readings + 1, calls := s1.calls + [SequenceReadLatency(WrapLong(end - start))]))
  }

  /** The loop of `getCurrentSequences` over `keys`, with `results` the entries put so far. */
  function ReadAllSpec(s: Services, at: nat -> int, keys: seq<string>, results: map<string, int>)
    : (r: (Result<map<string, int>, HttpError>, Services))
    ensures r.1.values == s.values && r.1.failing == s.failing
    decreases |keys|
  {
    if keys == [] then (Success(results), s)
    else
      var (read, s1) := ReadSpec(s, at, keys[0]);
      match read
      case Failure(e) => (Failure(e), s1)
      case Success(value) => ReadAllSpec(s1, at, keys[1..], results[keys[0] := value])
  }

  /** `getCurrentSequences(keys)`: a missing or empty key set is a bad request; otherwise every key is read in turn. */
  function CurrentSequencesSpec(s: Services, at: nat -> int, keys: Option<seq<string>>)
    : (Result<map<string, int>, HttpError>, Services)
  {
    if keys.None? || keys.value == [] then (Failure(BadRequest(EmptyListMessage)), s)
    else ReadAllSpec(s, at, keys.value, map[])
  }

  /** `getCurrentSequence(key)`: the value read, as decimal text. */
  function CurrentSequenceSpec(s: Services, at: nat -> int, key: string): (Result<string, HttpError>, Services) {
    var (read, s1) := ReadSpec(s, at, key);
    match read
    case Failure(e) => (Failure(e), s1)
    case Success(value) => (Success(LongToString(value)), s1)
  }

  /**
   * `clock.getNextSequence(path)` of the abstract clock, as the ZooKeeper
   * clock behaves: a new sequence starts at 0, an existing one moves on by one.
   */
  function NextValue(values: map<string, int>, path: string): (n: int)
    requires Longs(values)
    ensures IsLong(n)
  {
    Inc(if path in values then values[path] else DefaultSequence)
  }

  /**
   * `incrementSequence(key)`: times the clock's `getNextSequence("/" + key)`,
   * records the write latency and answers the new value as decimal text; on
   * any failure counts an error response and answers a server error.
   */
  function IncrementSpec(s: Services, at: nat -> int, key: string): (r: (Result<string, HttpError>, Services))
    requires Longs(s.values)
    ensures Longs(r.1.values) && r.1.failing == s.failing
    ensures r.1.asked == s.asked + [GetNextSequence("/" + key)]
  {
    var path := "/" + key;
    var start := at(s.readings);
    var s1 := s.(readings := s.readings + 1, asked := s.asked + [GetNextSequence(path)]);
    if path in s.failing then (Failure(ServerError(IncrementFailedMessage)), s1.(calls := s1.calls + [ErrorResponse]))
    else
      var next := NextValue(s.values, path);
      var end := at(s1.readings);
      (Success(LongToString(next)),
       s1.(values := s.values[path := next], readings := s1.readings + 1,
           calls := s1.calls + [SequenceWriteLatency(WrapLong(end - start))]))
  }

  /** The paths `getCurrentSequences` asks the clock for, in order. */
  function ReadCalls(keys: seq<string>): (r: seq<ClockCall>)
    ensures |r| == |keys|
  {
    if keys == [] then [] else [GetSequence("/" + keys[0])] + ReadCalls(keys[1..])
  }

  /** The keys whose sequences the clock holds. */
  function Held(values: map<string, int>, keys: seq<string>): nat {
    if keys == [] then 0 else (if "/" + keys[0] in values then 1 else 0) + Held(values, keys[1..])
  }

  predicate IsReadLatency(c: MetricsCall) {
    c.SequenceReadLatency?
  }

  /** None of `keys` is on a path the clock fails on. */
  predicate Healthy(failing: set<string>, keys: seq<string>) {
    forall i :: 0 <= i < |keys| ==> "/" + keys[i] !in failing
  }

  /** `after` is `before` followed by `n` more read latencies. */
  predicate Extends(before: seq<MetricsCall>, after: seq<MetricsCall>, n: nat) {
    && |after| == |before| + n
    && after[..|before|] == before
    && forall i :: |before| <= i < |after| ==> IsReadLatency(after[i])
  }

  lemma ExtendsTransitive(c0: seq<MetricsCall>, c1: seq<MetricsCall>, c2: seq<MetricsCall>, m: nat, n: nat)
    requires Extends(c0, c1, m) && Extends(c1, c2, n)
    ensures Extends(c0, c2, m + n)
  {
    assert c2[..|c0|] == c2[..|c1|][..|c0|];
  }

  /** A missing or empty key set is refused before the clock, the time or the metrics are touched. */
  lemma EmptyKeysRefused(s: Services, at: nat -> int, keys: Option<seq<string>>)
    requires keys.None? || keys.value == []
    ensures CurrentSequencesSpec(s, at, keys) == (Failure(BadRequest(EmptyListMessage)), s)
  {
  }

  /**
   * One read on its own: a failing path counts one read error; otherwise
   * the reported value, after at most one read latency appended to the
   * calls so far.
   */
  lemma ReadOne(s: Services, at: nat -> int, key: string)
    ensures var (r, s') := ReadSpec(s, at, key);
      && ("/" + key in s.failing ==>
            r == Failure(ServerError(ReadFailedMessage("/" + key))) && s'.calls == s.calls + [ReadErrorResponse])
      && ("/" + key !in s.failing ==>
            && r == Success(Reported(s, key))
            && Extends(s.calls, s'.calls, if "/" + key in s.values then 1 else 0))
  {
    var s' := ReadSpec(s, at, key).1;
    if "/" + key !in s.failing && "/" + key in s.values {
      assert s'.calls[..|s.calls|] == s.calls;
    }
  }

  /**
   * A read of a sequence the clock holds records, once, the time between the
   * timestamp taken before the clock call and the one taken after it.
   */
  lemma ReadLatencyIsElapsedTime(s: Services, at: nat -> int, key: string)
    requires "/" + key in s.values && "/" + key !in s.failing
    ensures var (r, s') := ReadSpec(s, at, key);
      && r == Success(s.values["/" + key])
      && s'.readings == s.readings + 2
      && s'.calls == s.calls + [SequenceReadLatency(WrapLong(at(s.readings + 1) - at(s.readings)))]
  {
  }

  /** A successful increment records, once, the time its clock call took as a write latency. */
  lemma WriteLatencyIsElapsedTime(s: Services, at: nat -> int, key: string)
    requires Longs(s.values) && "/" + key !in s.failing
    ensures var (r, s') := IncrementSpec(s, at, key);
      && r.Success?
      && s'.readings == s.readings + 2
      && s'.calls == s.calls + [SequenceWriteLatency(WrapLong(at(s.readings + 1) - at(s.readings)))]
  {
  }

  /**
   * When the clock fails on none of the keys, the loop puts one entry per
   * key, holding the value the clock holds for "/" + key or -1, and keeps
   * the entries put before.
   */
  lemma {:induction false} ReadAllAnswersEveryKey(s: Services, at: nat -> int, keys: seq<string>, results: map<string, int>)
    requires Healthy(s.failing, keys)
    ensures var r := ReadAllSpec(s, at, keys, results).0;
      && r.Success?
      && (forall k :: k in r.value <==> k in results || k in keys)
      && (forall k :: k in keys ==> k in r.value && r.value[k] == Reported(s, k))
      && (forall k :: k in results && k !in keys ==> k in r.value && r.value[k] == results[k])
    decreases |keys|
  {
    if keys != [] {
      var s1 := ReadSpec(s, at, keys[0]).1;
      assert Healthy(s1.failing, keys[1..]) by {
        assert forall i :: 0 <= i < |keys| - 1 ==> keys[1..][i] == keys[i + 1];
      }
      ReadAllAnswersEveryKey(s1, at, keys[1..], results[keys[0] := Reported(s, keys[0])]);
      assert forall k :: k in keys <==> k == keys[0] || k in keys[1..];
    }
  }

  /** One step of the loop over a key the clock does not fail on. */
  lemma ReadAllStep(s: Services, at: nat -> int, keys: seq<string>, results: map<string, int>)
    requires keys != [] && "/" + keys[0] !in s.failing
    ensures ReadAllSpec(s, at, keys, results)
         == ReadAllSpec(ReadSpec(s, at, keys[0]).1, at, keys[1..], results[keys[0] := Reported(s, keys[0])])
  {
    ReadOne(s, at, keys[0]);
  }

  /** When the clock fails on none of the keys, the loop asks it for each key's path once, in order. */
  lemma {:induction false} ReadAllAsksEveryKey(s: Services, at: nat -> int, keys: seq<string>, results: map<string, int>)
    requires Healthy(s.failing, keys)
    ensures ReadAllSpec(s, at, keys, results).1.asked == s.asked + ReadCalls(keys)
    decreases |keys|
  {
    if keys != [] {
      var s1 := ReadSpec(s, at, keys[0]).1;
      ReadAllStep(s, at, keys, results);
      assert Healthy(s1.failing, keys[1..]);
      ReadAllAsksEveryKey(s1, at, keys[1..], results[keys[0] := Reported(s, keys[0])]);
      assert s1.asked + ReadCalls(keys[1..]) == s.asked + ReadCalls(keys);
    }
  }

  /**
   * When the clock fails on none of the keys, the loop records one read
   * latency per sequence the clock holds, and nothing else.
   */
  lemma {:induction false} ReadAllRecordsLatencies(s: Services, at: nat -> int, keys: seq<string>, results: map<string, int>)
    requires Healthy(s.failing, keys)
    ensures Extends(s.calls, ReadAllSpec(s, at, keys, results).1.calls, Held(s.values, keys))
    decreases |keys|
  {
    if keys == [] {
      assert s.calls[..|s.calls|] == s.calls;
    } else {
      var s1 := ReadSpec(s, at, keys[0]).1;
      ReadAllStep(s, at, keys, results);
      ReadOne(s, at, keys[0]);
      assert Healthy(s1.failing, keys[1..]);
      var rest := results[keys[0] := Reported(s, keys[0])];
      ReadAllRecordsLatencies(s1, at, keys[1..], rest);
      ExtendsTransitive(s.calls, s1.calls, ReadAllSpec(s1, at, keys[1..], rest).1.calls,
                        if "/" + keys[0] in s.values then 1 else 0, Held(s.values, keys[1..]));
    }
  }

  /** The loop over `keys` is the loop over its first `j` keys, when the clock fails on none of them, then over the rest. */
  lemma {:induction false} ReadAllSplit(s: Services, at: nat -> int, keys: seq<string>, results: map<string, int>, j: nat)
    requires j <= |keys| && Healthy(s.failing, keys[..j])
    ensures var (r0, s0) := ReadAllSpec(s, at, keys[..j], results);
      r0.Success? && ReadAllSpec(s, at, keys, results) == ReadAllSpec(s0, at, keys[j..], r0.value)
    decreases j
  {
    if j == 0 {
      assert keys[..0] == [] && keys[0..] == keys;
    } else {
      var s1 := ReadSpec(s, at, keys[0]).1;
      var rest := results[keys[0] := Reported(s, keys[0])];
      assert keys[..j][0] == keys[0];
      ReadAllStep(s, at, keys, results);
      ReadAllStep(s, at, keys[..j], results);
      assert keys[1..][..j - 1] == keys[..j][1..];
      assert keys[1..][j - 1..] == keys[j..];
      ReadAllSplit(s1, at, keys[1..], rest, j - 1);
    }
  }

  /**
   * The batch stops at the first key the clock fails on: the answer is a
   * server error naming that key's path, and the clock was asked for the
   * keys before it and then for it.
   */
  lemma ReadAllStopsAtFailure(s: Services, at: nat -> int, keys: seq<string>, results: map<string, int>, j: nat)
    requires j < |keys| && Healthy(s.failing, keys[..j]) && "/" + keys[j] in s.failing
    ensures var (r, s') := ReadAllSpec(s, at, keys, results);
      && r == Failure(ServerError(ReadFailedMessage("/" + keys[j])))
      && s'.asked == s.asked + ReadCalls(keys[..j]) + [GetSequence("/" + keys[j])]
  {
    ReadAllSplit(s, at, keys, results, j);
    ReadAllAsksEveryKey(s, at, keys[..j], results);
    var s0 := ReadAllSpec(s, at, keys[..j], results).1;
    assert keys[j..][0] == keys[j];
    ReadOne(s0, at, keys[j]);
  }

  /**
   * Before stopping at the first key the clock fails on, the batch records
   * one read latency per sequence it read that the clock holds, and then
   * that key's read error, once.
   */
  lemma ReadAllFailureRecords(s: Services, at: nat -> int, keys: seq<string>, results: map<string, int>, j: nat)
    requires j < |keys| && Healthy(s.failing, keys[..j]) && "/" + keys[j] in s.failing
    ensures var calls := ReadAllSpec(s, at, keys, results).1.calls;
      && |calls| == |s.calls| + Held(s.values, keys[..j]) + 1
      && Extends(s.calls, calls[..|calls| - 1], Held(s.values, keys[..j]))
      && calls[|calls| - 1] == ReadErrorResponse
  {
    ReadAllSplit(s, at, keys, results, j);
    ReadAllRecordsLatencies(s, at, keys[..j], results);
    var s0 := ReadAllSpec(s, at, keys[..j], results).1;
    assert keys[j..][0] == keys[j];
    ReadOne(s0, at, keys[j]);
    assert (s0.calls + [ReadErrorResponse])[..|s0.calls|] == s0.calls;
  }

  /** The whole request: with a healthy clock, one entry per requested key, keyed without the "/". */
  lemma CurrentSequencesAnswersEveryKey(s: Services, at: nat -> int, keys: seq<string>)
    requires keys != [] && Healthy(s.failing, keys)
    ensures var (r, s') := CurrentSequencesSpec(s, at, Some(keys));
      && r.Success?
      && (forall k :: k in r.value <==> k in keys)
      && (forall k :: k in keys ==> k in r.value && r.value[k] == Reported(s, k))
      && s'.asked == s.asked + ReadCalls(keys)
      && |s'.calls| == |s.calls| + Held(s.values, keys)
  {
    ReadAllAnswersEveryKey(s, at, keys, map[]);
    ReadAllAsksEveryKey(s, at, keys, map[]);
    ReadAllRecordsLatencies(s, at, keys, map[]);
  }

  /** A sequence the clock does not hold reads as "-1", and nothing is reported to the metrics. */
  lemma MissingReadsMinusOne(s: Services, at: nat -> int, key: string)
    requires "/" + key !in s.values && "/" + key !in s.failing
    ensures var (r, s') := CurrentSequenceSpec(s, at, key);
      r == Success("-1") && s'.calls == s.calls
  {
    assert DigitChar(1) == '1';
    assert LongToString(-1) == "-" + Digits(1) == "-1";
  }

  /** A read the clock fails on counts one read error and answers a server error naming the path. */
  lemma ReadFailureReported(s: Services, at: nat -> int, key: string)
    requires "/" + key in s.failing
    ensures var (r, s') := CurrentSequenceSpec(s, at, key);
      r == Failure(ServerError(ReadFailedMessage("/" + key))) && s'.calls == s.calls + [ReadErrorResponse]
  {
  }

  /** An increment the clock fails on counts one error response, changes no sequence and answers "Internal Error". */
  lemma IncrementFailureReported(s: Services, at: nat -> int, key: string)
    requires Longs(s.values) && "/" + key in s.failing
    ensures var (r, s') := IncrementSpec(s, at, key);
      && r == Failure(ServerError(IncrementFailedMessage))
      && s'.calls == s.calls + [ErrorResponse] && s'.values == s.values
  {
  }

  /**
   * Read after write: an increment answers the text of the value the clock
   * now holds, the next read of the key answers the same text, and the value
   * is one more than before, or 0 for a new sequence (short of the `long`
   * wrap). The text parses back to that value.
   */
  lemma IncrementThenRead(s: Services, at: nat -> int, key: string)
    requires Longs(s.values) && "/" + key !in s.failing
    ensures var (written, s1) := IncrementSpec(s, at, key);
      && written == Success(LongToString(Reported(s1, key)))
      && CurrentSequenceSpec(s1, at, key).0 == written
      && (Reported(s, key) < MaxLong ==> Reported(s1, key) == Reported(s, key) + 1)
      && |s1.calls| == |s.calls| + 1 && s1.calls[|s.calls|].SequenceWriteLatency?
  {
  }

  /** The text a successful increment answers is read back by `Long.parseLong` as the new value. */
  lemma IncrementAnswerParses(s: Services, at: nat -> int, key: string)
    requires Longs(s.values) && "/" + key !in s.failing
    ensures var (written, s1) := IncrementSpec(s, at, key);
      var text := LongToString(NextValue(s.values, "/" + key));
      && written == Success(text) && |text| > 0 && (text[0] == '-' ==> |text| > 1)
      && (forall i :: (if text[0] == '-' then 1 else 0) <= i < |text| ==> IsDigit(text[i]))
      && ParseLong(text) == Reported(s1, key)
  {
    LongToStringRoundTrip(NextValue(s.values, "/" + key));
  }

  /** The clock the resource is given, as the abstract clock above. */
  class Clock {
    var values: map<string, int>
    const failing: set<string>
    var asked: seq<ClockCall>

    constructor (values: map<string, int>, failing: set<string>)
      ensures this.values == values && this.failing == failing && asked == []
    {
      this.values := values;
      this.failing := failing;
      asked := [];
    }

    method GetSequence(path: string) returns (a: ClockAnswer)
      modifies this
      ensures a == Answer(old(values), failing, path)
      ensures values == old(values) && asked == old(asked) + [ClockCall.GetSequence(path)]
    {
      asked := asked + [ClockCall.GetSequence(path)];
      if path in failing {
        a := ClockFailed;
      } else if path in values {
        a := Current(values[path]);
      } else {
        a := NoSuchSequence;
      }
    }

    method GetNextSequence(path: string) returns (a: ClockAnswer)
      requires Longs(values)
      modifies this
      ensures path in failing ==> a == ClockFailed && values == old(values)
      ensures path !in failing ==> a == Current(NextValue(old(values), path)) && values == old(values)[path := a.value]
      ensures Longs(values) && asked == old(asked) + [ClockCall.GetNextSequence(path)]
    {
      asked := asked + [ClockCall.GetNextSequence(path)];
      if path in failing {
        a := ClockFailed;
      } else {
        var next := NextValue(values, path);
        values := values[path := next];
        a := Current(next);
      }
    }
  }

  /** The timestamp provider: its `k`th reading is `at(k)`. */
  class TimestampProvider {
    const at: nat -> int
    var readings: nat

    constructor (at: nat -> int)
      ensures this.at == at && readings == 0
    {
      this.at := at;
      readings := 0;
    }

    method GetCurrentTimeInMillis() returns (t: int)
      modifies this
      ensures t == at(old(readings)) && readings == old(readings) + 1
    {
      t := at(readings);
      readings := readings + 1;
    }
  }

  /** The `SequencingMetrics` sink, as the calls it receives. */
  class MetricsLog {
    var calls: seq<MetricsCall>

    constructor ()
      ensures calls == []
    {
      calls := [];
    }

    method RecordSequenceWriteLatency(latency: int)
      modifies this
      ensures calls == old(calls) + [SequenceWriteLatency(latency)]
    {
      calls := calls + [SequenceWriteLatency(latency)];
    }

    method RecordSequenceReadLatency(latency: int)
      modifies this
      ensures calls == old(calls) + [SequenceReadLatency(latency)]
    {
      calls := calls + [SequenceReadLatency(latency)];
    }

    method IncrementErrorResponses()
      modifies this
      ensures calls == old(calls) + [ErrorResponse]
    {
      calls := calls + [ErrorResponse];
    }

    method IncrementReadErrorResponses()
      modifies this
      ensures calls == old(calls) + [ReadErrorResponse]
    {
      calls := calls + [ReadErrorResponse];
    }
  }

  /** The resource, built on a clock, a metrics sink and a timestamp provider. */
  class Sequence {
    const clock: Clock
    const metrics: MetricsLog
    const timestampProvider: TimestampProvider

    ghost function State(): Services
      reads this, clock, metrics, timestampProvider
    {
      Services(clock.values, clock.failing, clock.asked, timestampProvider.readings, metrics.calls)
    }

    constructor (clock: Clock, timestampProvider: TimestampProvider, metrics: MetricsLog)
      ensures this.clock == clock && this.metrics == metrics && this.timestampProvider == timestampProvider
    {
      this.clock := clock;
      this.metrics := metrics;
      this.timestampProvider := timestampProvider;
    }

    /** `getSequence`, the read behind every query. */
    method GetSequence(key: string) returns (r: Result<int, HttpError>)
      modifies clock, metrics, timestampProvider
      ensures (r, State()) == ReadSpec(old(State()), timestampProvider.at, key)
    {
      var path := "/" + key;
      var start := timestampProvider.GetCurrentTimeInMillis();
      var answer := clock.GetSequence(path);
      match answer
      case ClockFailed =>
        metrics.IncrementReadErrorResponses();
        r := Failure(ServerError(ReadFailedMessage(path)));
      case NoSuchSequence =>
        r := Success(DefaultSequence);
      case Current(value) =>
        var end := timestampProvider.GetCurrentTimeInMillis();
        metrics.RecordSequenceReadLatency(WrapLong(end - start));
        r := Success(value);
    }

    method GetCurrentSequences(keys: Option<seq<string>>) returns (r: Result<map<string, int>, HttpError>)
      modifies clock, metrics, timestampProvider
      ensures (r, State()) == CurrentSequencesSpec(old(State()), timestampProvider.at, keys)
    {
      if keys.None? || keys.value == [] {
        return Failure(BadRequest(EmptyListMessage));
      }
      var results: map<string, int> := map[];
      var i := 0;
      while i < |keys.value|
        invariant i <= |keys.value|
        invariant ReadAllSpec(old(State()), timestampProvider.at, keys.value, map[])
               == ReadAllSpec(State(), timestampProvider.at, keys.value[i..], results)
      {
        var key := keys.value[i];
        assert keys.value[i..][0] == key && keys.value[i..][1..] == keys.value[i + 1..];
        var read := GetSequence(key);
        if read.Failure? {
          return Failure(read.error);
        }
        results := results[key := read.value];
        i := i + 1;
      }
      r := Success(results);
    }

    /** The same query, with the keys from a form post. */
    method GetCurrentSequencesByFormPost(keys: Option<seq<string>>) returns (r: Result<map<string, int>, HttpError>)
      modifies clock, metrics, timestampProvider
      ensures (r, State()) == CurrentSequencesSpec(old(State()), timestampProvider.at, keys)
    {
      r := GetCurrentSequences(keys);
    }

    method GetCurrentSequence(key: string) returns (r: Result<string, HttpError>)
      modifies clock, metrics, timestampProvider
      ensures (r, State()) == CurrentSequenceSpec(old(State()), timestampProvider.at, key)
    {
      var read := GetSequence(key);
      match read
      case Failure(e) =>
        r := Failure(e);
      case Success(value) =>
        r := Success(LongToString(value));
    }

    method IncrementSequence(key: string) returns (r: Result<string, HttpError>)
      requires Longs(clock.values)
      modifies clock, metrics, timestampProvider
      ensures (r, State()) == IncrementSpec(old(State()), timestampProvider.at, key)
    {
      var path := "/" + key;
      var start := timestampProvider.GetCurrentTimeInMillis();
      var answer := clock.GetNextSequence(path);
      if answer.Current? {
        var end := timestampProvider.GetCurrentTimeInMillis();
        metrics.RecordSequenceWriteLatency(WrapLong(end - start));
        r := Success(LongToString(answer.value));
      } else {
        metrics.IncrementErrorResponses();
        r := Failure(ServerError(IncrementFailedMessage));
      }
    }
  }
}
