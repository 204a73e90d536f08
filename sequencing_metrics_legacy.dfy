/**
 * `SequencingMetricsJmx` of the older server: a single count of the
 * sequences generated, read and reset by its getter. Registration with JMX
 * is not part of this model.
 */
module LegacySequencingMetricsJmxModel {
  import opened JavaInt

  const BeanName: string := "com.talis:name=SequencingMetrics"

  class SequencingMetricsJmx {
    /** A plain `int` field: `++` on it wraps like any `int`. */
    var sequencesGenerated: int

    constructor ()
      ensures sequencesGenerated == 0
    {
      sequencesGenerated := 0;
    }

    method IncrementSequencesGenerated()
      modifies this
      ensures sequencesGenerated == Bump(old(sequencesGenerated))
    {
      sequencesGenerated := Bump(sequencesGenerated);
    }

    method GetSequencesGenerated() returns (r: int)
      modifies this
      ensures (r, sequencesGenerated) == Take(old(sequencesGenerated))
    {
      r := sequencesGenerated;
      sequencesGenerated := 0;
    }
  }
}
