/**
 * `SequencingMetricsJmx` of the current server: latency figures for writes
 * (increments) and for reads, kept in two separate `LatencyMetric`s, and
 * two error counters, one for failed increments and one for failed reads.
 * Registration with JMX is not part of this model.
 */
module SequencingMetricsJmxModel {
  import opened LongCodec
  import opened JavaInt
  import opened Latency

  const BeanName: string := "com.talis:name=SequencingMetrics"

  /** The write figures after recording 5, 5, 10, 10 and 20: an average of 10 over 5 operations. */
  lemma WriteAverageExample()
    ensures var m := RecordAll(Fresh, [5, 5, 10, 10, 20]);
      TakeAverage(m).0 == 10 && TakeCount(m).0 == 5 && TakeAverage(TakeAverage(m).1).0 == 0
  {
    var s := [5, 5, 10, 10, 20];
    assert s[..4] == [5, 5, 10, 10] && [5, 5, 10, 10][..3] == [5, 5, 10];
    assert [5, 5, 10][..2] == [5, 5] && [5, 5][..1] == [5] && [5][..0] == [];
    assert Sum(s) == 50;
    RecordAllSummarises(s);
  }

  class SequencingMetricsJmx {
    const writeLatencyMetrics: LatencyMetric
    const readLatencyMetrics: LatencyMetric
    var errorResponses: int
    var readErrorResponses: int

    /** Writes and reads are measured by two different metrics. */
    ghost predicate Valid()
      reads this
    {
      writeLatencyMetrics != readLatencyMetrics
    }

    constructor ()
      ensures Valid() && fresh(writeLatencyMetrics) && fresh(readLatencyMetrics)
      ensures writeLatencyMetrics.State() == Fresh && readLatencyMetrics.State() == Fresh
      ensures errorResponses == 0 && readErrorResponses == 0
    {
      writeLatencyMetrics := new LatencyMetric();
      readLatencyMetrics := new LatencyMetric();
      errorResponses, readErrorResponses := 0, 0;
    }

    method GetWriteSequenceOperations() returns (r: int)
      requires Valid()
      modifies writeLatencyMetrics
      ensures (r, writeLatencyMetrics.State()) == TakeCount(old(writeLatencyMetrics.State()))
      ensures unchanged(this, readLatencyMetrics)
    {
      r := writeLatencyMetrics.GetCount();
    }

    method GetMinWriteSequenceLatency() returns (r: int)
      requires Valid()
      modifies writeLatencyMetrics
      ensures (r, writeLatencyMetrics.State()) == TakeMin(old(writeLatencyMetrics.State()))
      ensures unchanged(this, readLatencyMetrics)
    {
      r := writeLatencyMetrics.GetMinLatency();
    }

    method GetMaxWriteSequenceLatency() returns (r: int)
      requires Valid()
      modifies writeLatencyMetrics
      ensures (r, writeLatencyMetrics.State()) == TakeMax(old(writeLatencyMetrics.State()))
      ensures unchanged(this, readLatencyMetrics)
    {
      r := writeLatencyMetrics.GetMaxLatency();
    }

    method GetAverageWriteSequenceLatency() returns (r: int)
      requires Valid()
      modifies writeLatencyMetrics
      ensures (r, writeLatencyMetrics.State()) == TakeAverage(old(writeLatencyMetrics.State()))
      ensures unchanged(this, readLatencyMetrics)
    {
      r := writeLatencyMetrics.GetAverageLatency();
    }

    method RecordSequenceWriteLatency(latency: int)
      requires Valid() && IsLong(latency)
      modifies writeLatencyMetrics
      ensures writeLatencyMetrics.State() == Record(old(writeLatencyMetrics.State()), latency)
      ensures unchanged(this, readLatencyMetrics)
    {
      writeLatencyMetrics.RecordLatency(latency);
    }

    method GetReadSequenceOperations() returns (r: int)
      requires Valid()
      modifies readLatencyMetrics
      ensures (r, readLatencyMetrics.State()) == TakeCount(old(readLatencyMetrics.State()))
      ensures unchanged(this, writeLatencyMetrics)
    {
      r := readLatencyMetrics.GetCount();
    }

    method GetMinReadSequenceLatency() returns (r: int)
      requires Valid()
      modifies readLatencyMetrics
      ensures (r, readLatencyMetrics.State()) == TakeMin(old(readLatencyMetrics.State()))
      ensures unchanged(this, writeLatencyMetrics)
    {
      r := readLatencyMetrics.GetMinLatency();
    }

    method GetMaxReadSequenceLatency() returns (r: int)
      requires Valid()
      modifies readLatencyMetrics
      ensures (r, readLatencyMetrics.State()) == TakeMax(old(readLatencyMetrics.State()))
      ensures unchanged(this, writeLatencyMetrics)
    {
      r := readLatencyMetrics.GetMaxLatency();
    }

    method GetAverageReadSequenceLatency() returns (r: int)
      requires Valid()
      modifies readLatencyMetrics
      ensures (r, readLatencyMetrics.State()) == TakeAverage(old(readLatencyMetrics.State()))
      ensures unchanged(this, writeLatencyMetrics)
    {
      r := readLatencyMetrics.GetAverageLatency();
    }

    method RecordSequenceReadLatency(latency: int)
      requires Valid() && IsLong(latency)
      modifies readLatencyMetrics
      ensures readLatencyMetrics.State() == Record(old(readLatencyMetrics.State()), latency)
      ensures unchanged(this, writeLatencyMetrics)
    {
      readLatencyMetrics.RecordLatency(latency);
    }

    method IncrementErrorResponses()
      modifies this
      ensures errorResponses == Bump(old(errorResponses)) && readErrorResponses == old(readErrorResponses)
    {
      errorResponses := Bump(errorResponses);
    }

    method IncrementReadErrorResponses()
      modifies this
      ensures readErrorResponses == Bump(old(readErrorResponses)) && errorResponses == old(errorResponses)
    {
      readErrorResponses := Bump(readErrorResponses);
    }

    method GetErrorResponseCount() returns (r: int)
      modifies this
      ensures (r, errorResponses) == Take(old(errorResponses)) && readErrorResponses == old(readErrorResponses)
    {
      r := errorResponses;
      errorResponses := 0;
    }

    method GetReadErrorResponseCount() returns (r: int)
      modifies this
      ensures (r, readErrorResponses) == Take(old(readErrorResponses)) && errorResponses == old(errorResponses)
    {
      r := readErrorResponses;
      readErrorResponses := 0;
    }
  }
}
