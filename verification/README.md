# go_nagios in Dafny

A Dafny model of the `nagios` Go package (`go_nagios.go`). The package helps
Nagios check programs report their result. It follows the performance-data
section of the Nagios Plugin Development Guidelines. The model covers:

- the four exit states OK < WARNING < CRITICAL < UNKNOWN (`NagiosStatusVal`),
  their ordinal (which is also the exit code) and the `valMessages` label table;
- `NagiosStatus`, `NagiosPerformanceVal` and `NagiosStatusWithPerformanceData`
  as immutable records;
- both `constructedNagiosMessage` renderings: `"LABEL: message"`, and
  `"LABEL: message | 'label'=value+uom;warn;crit;min;max"` built from the outer
  performance value;
- `Aggregate`, written as a left fold over the children. It returns the updated
  receiver instead of mutating it;
- the pure part of both `NagiosExit` methods: the output line paired with the
  exit code.

Modules (the "bar separator" below is the three characters space, vertical bar, space):

- `StatusValues`: the enumeration, its ordinal, the label table and the severity order.
- `Strings`: Go's `strings.Join`, and two readers used only as partners in proofs: `Split` and `IndexOf`.
- `PerfData`: the performance-data entry format.
- `Status`: the records, the two renderings, a line reader (`ParseLine`) and the exit pairs.
- `Aggregation`: the fold and its closed-form results.

The model follows the code, not the package's test file. The test file is out
of date: it builds three-field structs from two values, and its message
expectations disagree with the code. The code behaves as follows, and the model
proves each point:

- the receiver's own message is never kept;
- with no children, the message becomes `""` and the value is kept;
- with an empty receiver message, every child overwrites the message, so only
  the last child's full line survives;
- with a non-empty receiver message, every child adds a performance entry, even
  an all-empty `''=;;;;`.

The comment on `Aggregate` (go_nagios.go:38-40) says it combines all the
messages. The test expects the receiver's message to come first, followed on
the same line by the children's messages joined with `" - "`
(go_nagios_test.go:28), and expects the receiver's message to be kept when there are no children
(go_nagios_test.go:36). The code does neither, and this model follows the code.

## Model

| member | source | states |
|---|---|---|
| StatusValues.Ordinal | go_nagios.go:9-17 | every status value has an ordinal below 4 (the `iota` constants 0..3) |
| StatusValues.FromOrdinal | go_nagios.go:9-17 | an integer names a status value exactly when it is in 0..3, and then names the one with that ordinal |
| StatusValues.Label | go_nagios.go:20-27 | the label of a value is the `valMessages` entry at its ordinal; it ends in ':' and contains no space |
| StatusValues.LabelToStatusVal | go_nagios.go:20-27 | reading a label gives a value whose label it is, and gives nothing only for text that is no value's label |
| StatusValues.Max | go_nagios.go:58-60 | the compare-and-replace step yields a value no better than either input and equal to one of them |
| StatusValues.OrdinalRoundTrip | go_nagios.go:12-17 | ordinal and integer conversion are inverse on 0..3 |
| StatusValues.LabelTable | go_nagios.go:21-26 | OK, WARNING, CRITICAL and UNKNOWN are labelled "OK:", "WARNING:", "CRITICAL:" and "UNKNOWN:" |
| StatusValues.LabelRoundTrip | go_nagios.go:20-27 | labels are distinct, and reading a label back gives its value |
| StatusValues.LeTotalOrder | go_nagios.go:11-17 | the severity order is reflexive, antisymmetric, transitive and total |
| PerfData.FormatPositions | go_nagios.go:42 | the `perfFormat` entry (used by `Aggregate` and by the performance rendering) always has five positions: when no field contains ';', it splits at ';' into exactly five pieces: the quoted label with value and unit, then warn, crit, min and max, with empty fields kept |
| PerfData.FormatQuotesLabel | go_nagios.go:132-135 | an entry starts with the label in single quotes followed by '=' |
| PerfData.FormatZero | go_nagios.go:76-83 | the zero performance value still renders all positions, as `''=;;;;` |
| PerfData.FormatLatency | go_nagios.go:132-141 | a latency metric of 120 ms with thresholds 100 and 200 renders as `'latency'=120ms;100;200;;` |
| Status.ConstructedMessage | go_nagios.go:99-101 | the plain line reads back as exactly the status value and the message, whatever the message contains |
| Status.ConstructedMessageWithPerf | go_nagios.go:131-143 | the performance line reads back as the embedded status's value and its message followed by the bar separator and the outer performance entry |
| Status.ParseMessageLine | go_nagios.go:43 | a line in the `msgFormat` "%s %s" shape reads back as the value and message it was built from, whatever the message contains |
| Status.ConstructedMessageWithPerfShape | go_nagios.go:125-143 | the performance line is the plain line of the embedded status plus the bar separator and the entry of the OUTER performance value; the embedded status's own performance value has no effect |
| Status.NagiosExit | go_nagios.go:104-107 | the written line reads back as the status's value and message (it is the plain rendering), and the exit code is in 0..3 and converts back to the status value |
| Status.NagiosExitWithPerf | go_nagios.go:146-149 | the written line reads back as the embedded status's value and its message followed by the bar separator and the outer performance entry; the exit code is the embedded status's value, in 0..3 |
| Status.ExitAgrees | go_nagios.go:104-107 | the label at the head of the written line and the exit code name the same status value, for both kinds of status |
| Status.ConstructedMessageExamples | go_nagios_test.go:51-65 | the four plain lines, such as "UNKNOWN: Shrug dunno", come out as the tests expect |
| Aggregation.Aggregate | go_nagios.go:41-96 | only Value and Message change; the value is no better than the receiver's or any child's, and equals one of them |
| Aggregation.FoldValue | go_nagios.go:49-60 | the loop's value is at least the starting value and every child's, and is one of them |
| Aggregation.FoldPrimaryEmpty | go_nagios.go:61-71 | with an empty receiver message, no lines or entries accumulate and `msg` is the full line of the last child |
| Aggregation.FoldPrimarySetLines | go_nagios.go:72-75 | with a non-empty receiver message, `longMessageArr` ends as the children's "label msg" lines in input order |
| Aggregation.FoldPrimarySetEntries | go_nagios.go:76-84 | with a non-empty receiver message, `msg` stays empty and `perfDataStringArr` ends with one entry per child in input order |
| Strings.SplitJoin | go_nagios.go:86-92 | `strings.Join` with a one-character separator loses nothing: lines free of that character, joined by it, split back into exactly those lines in order |
| Aggregation.AggregateValueUnchanged | go_nagios.go:58-60 | the value is unchanged exactly when no child is worse than the receiver (ties keep it) |
| Aggregation.AggregateOneChild | go_nagios.go:58-60 | aggregating one child gives the worse of the two values |
| Aggregation.AggregateNoChildren | go_nagios.go:44-95 | with no children the value and performance value are kept and the message becomes "" |
| Aggregation.AggregatePrimaryEmpty | go_nagios.go:61-94 | with an empty receiver message and at least one child, the message is the last child's line rendered with its own performance data |
| Aggregation.AggregatePrimarySet | go_nagios.go:72-94 | with a non-empty receiver message and k ≥ 1 children, the receiver's text is dropped and the message is "\n", the k lines joined by "\n", the bar separator, and the k entries joined by "\n" |
| Aggregation.AggregateValueIdempotent | go_nagios.go:58-60 | aggregating the same children again does not change the value |
| Aggregation.AggregateExample | go_nagios.go:41-96 | receiver ("Uh oh", CRITICAL) with children ("ok", OK) and ("Not so bad", WARNING) gives CRITICAL and a message made of "\n", the lines "OK: ok" and "WARNING: Not so bad", the bar separator and two `''=;;;;` entries; "Uh oh" is gone |

## Left out

- The diagnostic `fmt.Printf` of each child inside the `Aggregate` loop (go_nagios.go:50-57): console output that does not affect the result.
- Writing to standard output and `os.Exit` in both `NagiosExit` methods: the model returns the line passed to `fmt.Fprintln` and the exit code instead. `fmt.Fprintln` adds a trailing newline, which the returned line does not contain.
- The wrappers `Unknown`, `Critical`, `Warning`, `Ok` and `ExitWithStatus`: each is a single terminal call to `NagiosExit`. `Critical` also takes its message from a foreign `err.Error()`.
- The nil embedded pointer of `NagiosStatusWithPerformanceData`: in Go it would panic, and here the embedded status is always present. Go's struct embedding is modelled as a record holding a status and an outer performance value.
- Nil children: `otherStatuses` is a `[]*NagiosStatus`, and a nil entry panics at `s.Value` (go_nagios.go:50). Here children are values and cannot be nil, so that panic is not modelled.
- Pointer aliasing: children are passed as values, so "the children are left unchanged" holds by construction and is not stated as a lemma. This also differs from Go when the receiver is among its own children, as in `status.Aggregate([]*NagiosStatus{worse, status})`. Go raises `status.Value` at line 59 while handling `worse`, then reads that raised value when it labels the receiver-as-child at lines 63 and 74. The model's copy of the receiver keeps its original value, so that child's label, and the message, differ from Go's.
- Out-of-range status values, which would panic at `valMessages[...]` in Go: the closed enumeration cannot represent them. `FromOrdinal` returns `None` for them.
- Go strings are byte strings. Here they are `seq<char>`, with no encoding; every operation of the package is plain concatenation, so nothing depends on the encoding.
- The message expectations in go_nagios_test.go:24-37: they contradict the code. `AggregateExample` and `AggregateNoChildren` state what the code produces instead.
