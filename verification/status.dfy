/** A Nagios check status (`NagiosStatus`, `NagiosStatusWithPerformanceData`
    in go_nagios.go), the one-line output it renders and the exit code it
    reports. */
module Status {
  import opened Wrappers
  import opened StatusValues
  import opened PerfData

  /** `NagiosStatus`: the output text, the exit state and a performance value
      (carried, but not rendered by the plain output line). */
  datatype NagiosStatus = NagiosStatus(message: string, value: StatusVal, perfdata: PerformanceVal)

  /** `NagiosStatusWithPerformanceData`: a status together with an outer
      performance value, which shadows the status's own `perfdata` field. */
  datatype NagiosStatusWithPerformanceData =
    NagiosStatusWithPerformanceData(status: NagiosStatus, perfdata: PerformanceVal)

  /** The format `"%s %s"` applied to a label and a message. */
  function MessageLine(v: StatusVal, message: string): (r: string)
  {
    Label(v) + " " + message
  }

  /** `constructedNagiosMessage` on `NagiosStatus`: a line from which the
      status value and the message, whatever it contains, are read back. */
  function ConstructedMessage(s: NagiosStatus): (r: string)
    ensures ParseLine(r) == Some((s.value, s.message))
  {
    ParseMessageLine(s.value, s.message);
    MessageLine(s.value, s.message)
  }

  /** `constructedNagiosMessage` on `NagiosStatusWithPerformanceData`: the
      plain line, " | ", and one performance entry built from the OUTER
      performance value. */
  function ConstructedMessageWithPerf(s: NagiosStatusWithPerformanceData): (r: string)
    ensures ParseLine(r) == Some((s.status.value, s.status.message + " | " + Format(s.perfdata)))
  {
    var m := s.status.message + " | " + Format(s.perfdata);
    ParseMessageLine(s.status.value, m);
    assert MessageLine(s.status.value, s.status.message) + " | " + Format(s.perfdata)
        == MessageLine(s.status.value, m);
    MessageLine(s.status.value, s.status.message) + " | " + Format(s.perfdata)
  }

  /** A line reader written as the proof partner of `MessageLine`; the
      library itself never parses a line. The text up to the first space
      must be one of the four labels, and the rest is the message. */
  function ParseLine(line: string): (r: Option<(StatusVal, string)>)
  {
    var i := Strings.IndexOf(line, ' ');
    if i == |line| then None
    else
      match LabelToStatusVal(line[..i])
      case None => None
      case Some(v) => Some((v, line[i + 1..]))
  }

  /** The pure part of `NagiosExit` on `NagiosStatus`: the line passed to
      `fmt.Fprintln`, which adds a trailing newline, and the process exit
      code. */
  function NagiosExit(s: NagiosStatus): (r: (string, int))
    ensures ParseLine(r.0) == Some((s.value, s.message))
    ensures 0 <= r.1 < 4
    ensures FromOrdinal(r.1) == Some(s.value)
  {
    (ConstructedMessage(s), Ordinal(s.value))
  }

  /** The pure part of `NagiosExit` on `NagiosStatusWithPerformanceData`: the
      line passed to `fmt.Fprintln`, which adds a trailing newline, and the
      exit code, which is the embedded status's value. */
  function NagiosExitWithPerf(s: NagiosStatusWithPerformanceData): (r: (string, int))
    ensures ParseLine(r.0) == Some((s.status.value, s.status.message + " | " + Format(s.perfdata)))
    ensures 0 <= r.1 < 4
    ensures FromOrdinal(r.1) == Some(s.status.value)
  {
    (ConstructedMessageWithPerf(s), Ordinal(s.status.value))
  }

  /** Reading a rendered line gives back the value and message it was
      rendered from, whatever the message contains. */
  lemma ParseMessageLine(v: StatusVal, message: string)
    ensures ParseLine(MessageLine(v, message)) == Some((v, message))
  {
    var line := MessageLine(v, message);
    Strings.IndexOfAfter(Label(v), ' ', message);
    assert line[..|Label(v)|] == Label(v);
    assert line[|Label(v)| + 1..] == message;
    LabelRoundTrip(v, v);
  }

  /** The performance-data line extends the plain line of the embedded
      status by " | " and the entry of the outer performance value; the
      status's own `perfdata` is never looked at. */
  lemma ConstructedMessageWithPerfShape(s: NagiosStatusWithPerformanceData, inner: PerformanceVal)
    ensures ConstructedMessageWithPerf(s) == ConstructedMessage(s.status) + " | " + Format(s.perfdata)
    ensures ConstructedMessageWithPerf(s)
         == ConstructedMessageWithPerf(s.(status := s.status.(perfdata := inner)))
  {
  }

  /** What Nagios reads agrees: the label at the head of the written
      line and the exit code name the same status value. */
  lemma ExitAgrees(s: NagiosStatus, sp: NagiosStatusWithPerformanceData)
    ensures ParseLine(NagiosExit(s).0).Some?
    ensures FromOrdinal(NagiosExit(s).1) == Some(ParseLine(NagiosExit(s).0).value.0)
    ensures ParseLine(NagiosExitWithPerf(sp).0).Some?
    ensures FromOrdinal(NagiosExitWithPerf(sp).1) == Some(ParseLine(NagiosExitWithPerf(sp).0).value.0)
  {
  }

  /** The four plain lines of the library's examples. */
  lemma ConstructedMessageExamples()
    ensures ConstructedMessage(NagiosStatus("Shrug dunno", Unknown, Zero)) == "UNKNOWN: Shrug dunno"
    ensures ConstructedMessage(NagiosStatus("Uh oh", Critical, Zero)) == "CRITICAL: Uh oh"
    ensures ConstructedMessage(NagiosStatus("Not so bad", Warning, Zero)) == "WARNING: Not so bad"
    ensures ConstructedMessage(NagiosStatus("ok", Ok, Zero)) == "OK: ok"
  {
    assert MessageLine(Unknown, "Shrug dunno") == "UNKNOWN: Shrug dunno";
    assert MessageLine(Critical, "Uh oh") == "CRITICAL: Uh oh";
    assert MessageLine(Warning, "Not so bad") == "WARNING: Not so bad";
    assert MessageLine(Ok, "ok") == "OK: ok";
  }
}
