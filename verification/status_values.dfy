/** The four exit states of a Nagios check (`NagiosStatusVal`, go_nagios.go),
    their ordinal (which is also the process exit code) and their output labels. */
module StatusValues {
  import opened Wrappers

  /** Closed enumeration: an out-of-range status value cannot be built, so the
      `valMessages[...]` index in the Go code can never panic here. */
  datatype StatusVal = Ok | Warning | Critical | Unknown

  /** The `iota` values 0..3: OK < WARNING < CRITICAL < UNKNOWN. */
  function Ordinal(v: StatusVal): (n: nat)
    ensures n < 4
  {
    match v
    case Ok => 0
    case Warning => 1
    case Critical => 2
    case Unknown => 3
  }

  /** Converting an integer back into a status value; `None` where the Go
      code would index `valMessages` out of range. */
  function FromOrdinal(n: int): (r: Option<StatusVal>)
    ensures r.Some? <==> 0 <= n < 4
    ensures r.Some? ==> Ordinal(r.value) == n
  {
    if n == 0 then Some(Ok)
    else if n == 1 then Some(Warning)
    else if n == 2 then Some(Critical)
    else if n == 3 then Some(Unknown)
    else None
  }

  /** The `valMessages` table, indexed by ordinal. */
  const ValMessages: seq<string> := ["OK:", "WARNING:", "CRITICAL:", "UNKNOWN:"]

  /** The output label of a status value: the table entry at its ordinal. */
  function Label(v: StatusVal): (l: string)
    ensures l == ValMessages[Ordinal(v)]
    ensures |l| > 0 && l[|l| - 1] == ':'
    ensures ' ' !in l
  {
    match v
    case Ok => "OK:"
    case Warning => "WARNING:"
    case Critical => "CRITICAL:"
    case Unknown => "UNKNOWN:"
  }

  /** Reading a label back; the partner of `Label`. */
  function LabelToStatusVal(l: string): (r: Option<StatusVal>)
    ensures r.Some? ==> Label(r.value) == l
    ensures r.None? ==> forall v :: Label(v) != l
  {
    if l == "OK:" then Some(Ok)
    else if l == "WARNING:" then Some(Warning)
    else if l == "CRITICAL:" then Some(Critical)
    else if l == "UNKNOWN:" then Some(Unknown)
    else None
  }

  /** Severity order: `a` is no worse than `b`. */
  predicate Le(a: StatusVal, b: StatusVal) {
    Ordinal(a) <= Ordinal(b)
  }

  /** The worse of two values, keeping `a` on a tie, as the Go comparison
      `if status.Value < s.Value { status.Value = s.Value }` does. */
  function Max(a: StatusVal, b: StatusVal): (r: StatusVal)
    ensures Le(a, r) && Le(b, r)
    ensures r == a || r == b
  {
    if Ordinal(a) < Ordinal(b) then b else a
  }

  /** Ordinal and FromOrdinal are inverse: every exit code 0..3 names exactly
      one status value, and each status value exits with its own code. */
  lemma OrdinalRoundTrip(v: StatusVal, n: int)
    ensures FromOrdinal(Ordinal(v)) == Some(v)
    ensures 0 <= n < 4 ==> Ordinal(FromOrdinal(n).value) == n
  {
  }

  /** The label table, entry by entry. */
  lemma LabelTable()
    ensures Label(Ok) == "OK:"
    ensures Label(Warning) == "WARNING:"
    ensures Label(Critical) == "CRITICAL:"
    ensures Label(Unknown) == "UNKNOWN:"
  {
  }

  /** Labels identify their status value: no two values share a label, and
      reading a label back gives the value it was written for. */
  lemma LabelRoundTrip(a: StatusVal, b: StatusVal)
    ensures LabelToStatusVal(Label(a)) == Some(a)
    ensures Label(a) == Label(b) <==> a == b
  {
  }

  /** `Le` is a total order on status values. */
  lemma LeTotalOrder(a: StatusVal, b: StatusVal, c: StatusVal)
    ensures Le(a, a)
    ensures Le(a, b) && Le(b, a) ==> a == b
    ensures Le(a, b) && Le(b, c) ==> Le(a, c)
    ensures Le(a, b) || Le(b, a)
  {
  }
}
