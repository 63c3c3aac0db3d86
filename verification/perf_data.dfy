/** Nagios performance data (`NagiosPerformanceVal`, go_nagios.go), following
    the performance-data section of the Nagios Plugin Development Guidelines:
    `'label'=value[UOM];[warn];[crit];[min];[max]`. */
module PerfData {
  import opened Strings

  /** Every field is text; an absent field is the empty string. `name` is
      the Go `Label` field (`label` is a Dafny keyword). */
  datatype PerformanceVal = PerformanceVal(
    name: string,
    value: string,
    uom: string,
    warnThreshold: string,
    critThreshold: string,
    minValue: string,
    maxValue: string)

  /** Go's zero value `NagiosPerformanceVal{}`. */
  const Zero := PerformanceVal("", "", "", "", "", "", "")

  /** One entry in the format `'%s'=%s%s;%s;%s;%s;%s` used both by
      `Aggregate` and by the performance-data rendering. */
  function Format(p: PerformanceVal): (r: string)
  {
    "'" + p.name + "'=" + p.value + p.uom
      + ";" + p.warnThreshold + ";" + p.critThreshold
      + ";" + p.minValue + ";" + p.maxValue
  }

  /** The five semicolon-separated positions of an entry: the quoted label
      with value and unit, then warn, crit, min and max. */
  function Positions(p: PerformanceVal): (r: seq<string>)
  {
    ["'" + p.name + "'=" + p.value + p.uom,
     p.warnThreshold, p.critThreshold, p.minValue, p.maxValue]
  }

  /** No field contains the position separator. */
  predicate SemicolonFree(p: PerformanceVal)
  {
    && ';' !in p.name && ';' !in p.value && ';' !in p.uom
    && ';' !in p.warnThreshold && ';' !in p.critThreshold
    && ';' !in p.minValue && ';' !in p.maxValue
  }

  /** Joining the positions lays them out as the format string does. */
  lemma JoinPositions(p: PerformanceVal)
    ensures Join(Positions(p), ";")
         == "'" + p.name + "'=" + p.value + p.uom
          + ";" + p.warnThreshold + ";" + p.critThreshold
          + ";" + p.minValue + ";" + p.maxValue
  {
    var ps := Positions(p);
    var t1, t2, t3, t4 := ps[1..], ps[2..], ps[3..], ps[4..];
    assert t4 == [p.maxValue] && t3[1..] == t4 && t2[1..] == t3 && t1[1..] == t2;
    assert Join(t3, ";") == p.minValue + ";" + p.maxValue;
    assert Join(t2, ";") == p.critThreshold + ";" + p.minValue + ";" + p.maxValue;
    assert Join(t1, ";")
        == p.warnThreshold + ";" + p.critThreshold + ";" + p.minValue + ";" + p.maxValue;
  }

  /** Every entry has all five positions, empty ones included: splitting it
      at ';' gives back the label-and-value head and the four threshold and
      bound fields, in order. */
  lemma FormatPositions(p: PerformanceVal)
    requires SemicolonFree(p)
    ensures Split(Format(p), ';') == Positions(p)
  {
    var ps := Positions(p);
    JoinPositions(p);
    assert ';' !in ps[0] by {
      assert ps[0] == "'" + p.name + "'=" + p.value + p.uom;
    }
    SplitJoin(ps, ';');
  }

  /** An entry starts with the label in single quotes followed by '='. */
  lemma FormatQuotesLabel(p: PerformanceVal)
    ensures Format(p)[..|p.name| + 3] == "'" + p.name + "'="
  {
  }

  /** The zero value still renders every position, as `''=;;;;`. */
  lemma FormatZero()
    ensures Format(Zero) == "''=;;;;"
    ensures Split(Format(Zero), ';') == ["''=", "", "", "", ""]
  {
    FormatPositions(Zero);
    assert "'" + Zero.name + "'=" + Zero.value + Zero.uom == "''=";
  }

  /** A latency metric: `'latency'=120ms;100;200;;`, warn before crit and
      the empty bounds kept. */
  lemma FormatLatency()
    ensures Format(PerformanceVal("latency", "120", "ms", "100", "200", "", ""))
         == "'latency'=120ms;100;200;;"
  {
  }
}
