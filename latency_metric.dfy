/**
 * `LatencyMetric`: a count of operations and the minimum, maximum and
 * average of the latencies recorded since each figure was last read. Every
 * getter resets what it reports; a minimum of 0 stands for "nothing
 * recorded since the last read".
 */
module Latency {
  import opened LongCodec
  import opened JavaInt

  /** The five atomic fields of a `LatencyMetric`. */
  datatype Latencies = Latencies(count: int, total: int, min: int, max: int, samples: int)

  /** Each field holds a value of its Java type: `count` and `samples` are `int`s, the rest `long`s. */
  predicate InRange(m: Latencies) {
    IsInt(m.count) && IsLong(m.total) && IsLong(m.min) && IsLong(m.max) && IsInt(m.samples)
  }

  /** A new metric: every field starts at 0. */
  const Fresh: Latencies := Latencies(0, 0, 0, 0, 0)

  /** `recordLatency`: one more operation and sample, the latency added to the total, minimum and maximum updated. */
  function Record(m: Latencies, latency: int): (r: Latencies)
    requires IsLong(latency)
    ensures InRange(m) ==> InRange(r)
    ensures r.min == latency || r.min == m.min
    ensures m.min == 0 ==> r.min == latency
    ensures m.min != 0 ==> r.min <= latency && r.min <= m.min
    ensures r.max == latency || r.max == m.max
    ensures latency <= r.max && m.max <= r.max
  {
    Latencies(
      Bump(m.count),
      WrapLong(m.total + latency),
      if latency < m.min || m.min == 0 then latency else m.min,
      if latency > m.max then latency else m.max,
      Bump(m.samples))
  }

  /** `getCount`: the operations counted, and the count reset. */
  function TakeCount(m: Latencies): (int, Latencies) {
    (m.count, m.(count := 0))
  }

  /** `getMinLatency`: the minimum, and the minimum reset. */
  function TakeMin(m: Latencies): (int, Latencies) {
    (m.min, m.(min := 0))
  }

  /** `getMaxLatency`: the maximum, and the maximum reset. */
  function TakeMax(m: Latencies): (int, Latencies) {
    (m.max, m.(max := 0))
  }

  /**
   * `getAverageLatency`: with samples, the total divided by their number
   * (Java's integer division) and both reset; without, 0 and nothing changed.
   */
  function TakeAverage(m: Latencies): (int, Latencies) {
    if m.samples > 0 then (Quot(m.total, m.samples), m.(total := 0, samples := 0))
    else (0, m)
  }

  /** Recording `latencies` in order. */
  function RecordAll(m: Latencies, latencies: seq<int>): Latencies
    requires forall i :: 0 <= i < |latencies| ==> IsLong(latencies[i])
  {
    if latencies == [] then m
    else Record(RecordAll(m, latencies[..|latencies| - 1]), latencies[|latencies| - 1])
  }

  function Sum(s: seq<int>): int {
    if s == [] then 0 else Sum(s[..|s| - 1]) + s[|s| - 1]
  }

  function Least(s: seq<int>): (r: int)
    requires s != []
    ensures r in s && forall x :: x in s ==> r <= x
  {
    if |s| == 1 then s[0]
    else
      var init := s[..|s| - 1];
      assert s == init + [s[|s| - 1]];
      var m := Least(init);
      if s[|s| - 1] < m then s[|s| - 1] else m
  }

  function Greatest(s: seq<int>): (r: int)
    requires s != []
    ensures r in s && forall x :: x in s ==> x <= r
  {
    if |s| == 1 then s[0]
    else
      var init := s[..|s| - 1];
      assert s == init + [s[|s| - 1]];
      var m := Greatest(init);
      if s[|s| - 1] > m then s[|s| - 1] else m
  }

  /** Latencies a fresh metric summarises exactly: positive, and not so many or so large that a counter wraps. */
  predicate Summable(latencies: seq<int>) {
    && |latencies| <= MaxInt
    && (forall i :: 0 <= i < |latencies| ==> 0 < latencies[i])
    && Sum(latencies) <= MaxLong
  }

  lemma {:induction false} SumOfPrefix(s: seq<int>, k: nat)
    requires k <= |s| && forall i :: 0 <= i < |s| ==> 0 < s[i]
    ensures 0 <= Sum(s[..k]) <= Sum(s)
  {
    if k < |s| {
      assert s[..|s| - 1][..k] == s[..k];
      SumOfPrefix(s[..|s| - 1], k);
    } else {
      assert s[..k] == s;
      if s != [] {
        SumOfPrefix(s[..|s| - 1], |s| - 1);
        assert s[..|s| - 1][..|s| - 1] == s[..|s| - 1];
      }
    }
  }

  /** Each latency of a summable sequence is a `long`, and so is every one of a summable sequence's prefix. */
  lemma SummableParts(latencies: seq<int>)
    requires Summable(latencies)
    ensures forall i :: 0 <= i < |latencies| ==> IsLong(latencies[i])
    ensures latencies != [] ==> Summable(latencies[..|latencies| - 1])
  {
    forall i | 0 <= i < |latencies|
      ensures IsLong(latencies[i])
    {
      SumOfPrefix(latencies, i);
      SumOfPrefix(latencies, i + 1);
      assert latencies[..i + 1][..i] == latencies[..i];
    }
    if latencies != [] {
      SumOfPrefix(latencies, |latencies| - 1);
    }
  }

  /** One more positive latency recorded on a summary that has not wrapped. */
  lemma RecordOnSummary(n: int, total: int, least: int, greatest: int, latency: int)
    requires 0 < n < MaxInt && 0 <= total && total + latency <= MaxLong && 0 < least && 0 < latency
    ensures Record(Latencies(n, total, least, greatest, n), latency)
         == Latencies(n + 1, total + latency, if latency < least then latency else least,
                      if latency > greatest then latency else greatest, n + 1)
  {
  }

  /**
   * What a fresh metric reports after recording positive latencies: their
   * number, their sum, the least and the greatest of them.
   */
  lemma {:induction false} RecordAllSummarises(latencies: seq<int>)
    requires latencies != [] && Summable(latencies)
    ensures forall i :: 0 <= i < |latencies| ==> IsLong(latencies[i])
    ensures RecordAll(Fresh, latencies)
         == Latencies(|latencies|, Sum(latencies), Least(latencies), Greatest(latencies), |latencies|)
  {
    SummableParts(latencies);
    var init := latencies[..|latencies| - 1];
    var last := latencies[|latencies| - 1];
    if init == [] {
      assert RecordAll(Fresh, init) == Fresh;
    } else {
      RecordAllSummarises(init);
      assert 0 < Least(init) by {
        var k :| 0 <= k < |init| && init[k] == Least(init);
      }
      assert Sum(latencies) == Sum(init) + last;
      SumOfPrefix(latencies, |latencies| - 1);
      RecordOnSummary(|init|, Sum(init), Least(init), Greatest(init), last);
    }
  }

  /** The average a fresh metric reports after recording positive latencies is their sum over their number. */
  lemma AverageOfRecorded(latencies: seq<int>)
    requires latencies != [] && Summable(latencies)
    ensures forall i :: 0 <= i < |latencies| ==> IsLong(latencies[i])
    ensures TakeAverage(RecordAll(Fresh, latencies)).0 == Sum(latencies) / |latencies|
  {
    RecordAllSummarises(latencies);
    SumOfPrefix(latencies, |latencies|);
    assert latencies[..|latencies|] == latencies;
  }

  /** A new metric reports 0 for every figure. */
  lemma FreshReportsZero()
    ensures TakeCount(Fresh).0 == 0 && TakeMin(Fresh).0 == 0 && TakeMax(Fresh).0 == 0
    ensures TakeAverage(Fresh).0 == 0
  {
  }

  /** Every getter resets what it reports: read again at once, each figure is 0. */
  lemma ReadTwiceGivesZero(m: Latencies)
    ensures TakeCount(TakeCount(m).1).0 == 0 && TakeMin(TakeMin(m).1).0 == 0 && TakeMax(TakeMax(m).1).0 == 0
    ensures TakeAverage(TakeAverage(m).1).0 == 0
  {
  }

  /** Recording 1, 2, 3, 4 and 5 gives a count of 5, a minimum of 1, a maximum of 5 and an average of 3. */
  lemma OneToFive()
    ensures var m := RecordAll(Fresh, [1, 2, 3, 4, 5]);
      TakeCount(m).0 == 5 && TakeMin(m).0 == 1 && TakeMax(m).0 == 5 && TakeAverage(m).0 == 3
  {
    var s := [1, 2, 3, 4, 5];
    assert s[..4] == [1, 2, 3, 4] && [1, 2, 3, 4][..3] == [1, 2, 3];
    assert [1, 2, 3][..2] == [1, 2] && [1, 2][..1] == [1] && [1][..0] == [];
    assert Sum(s) == 15;
    assert Least(s) == 1 && Greatest(s) == 5;
    RecordAllSummarises(s);
  }

  /**
   * A latency of 0 is not kept as the minimum: 0 is what the minimum holds
   * when nothing has been recorded, so the next latency replaces it.
   */
  lemma ZeroLatencyReplaced(m: Latencies, later: int)
    requires 0 <= m.min && IsLong(later)
    ensures Record(Record(m, 0), later).min == later
  {
  }

  class LatencyMetric {
    var count: int
    var totalLatency: int
    var minLatency: int
    var maxLatency: int
    var sampleLatency: int

    ghost function State(): Latencies
      reads this
    {
      Latencies(count, totalLatency, minLatency, maxLatency, sampleLatency)
    }

    constructor ()
      ensures State() == Fresh
    {
      count, totalLatency, minLatency, maxLatency, sampleLatency := 0, 0, 0, 0, 0;
    }

    method GetCount() returns (r: int)
      modifies this
      ensures r == old(count) && State() == old(State()).(count := 0)
      ensures (r, State()) == TakeCount(old(State()))
    {
      r := count;
      count := 0;
    }

    method GetAverageLatency() returns (r: int)
      modifies this
      ensures (r, State()) == TakeAverage(old(State()))
    {
      r := 0;
      if sampleLatency > 0 {
        r := Quot(totalLatency, sampleLatency);
        sampleLatency := 0;
        totalLatency := 0;
      }
    }

    method GetMaxLatency() returns (r: int)
      modifies this
      ensures r == old(maxLatency) && State() == old(State()).(max := 0)
      ensures (r, State()) == TakeMax(old(State()))
    {
      r := maxLatency;
      maxLatency := 0;
    }

    method GetMinLatency() returns (r: int)
      modifies this
      ensures r == old(minLatency) && State() == old(State()).(min := 0)
      ensures (r, State()) == TakeMin(old(State()))
    {
      r := minLatency;
      minLatency := 0;
    }

    method RecordLatency(latency: int)
      requires IsLong(latency)
      modifies this
      ensures State() == Record(old(State()), latency)
    {
      count := Bump(count);
      sampleLatency := Bump(sampleLatency);
      totalLatency := WrapLong(totalLatency + latency);
      if latency < minLatency || minLatency == 0 {
        minLatency := latency;
      }
      if latency > maxLatency {
        maxLatency := latency;
      }
    }
  }
}
