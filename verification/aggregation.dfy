/** `NagiosStatus.Aggregate` (go_nagios.go): folding child statuses into a
    receiver. The receiver comes back as a new value instead of being
    updated in place. */
module Aggregation {
  import opened StatusValues
  import opened Strings
  import opened PerfData
  import opened Status

  /** The loop state of `Aggregate`: the receiver's `Value`, the local `msg`,
      `longMessageArr` and `perfDataStringArr`. */
  datatype Acc = Acc(value: StatusVal, msg: string, longMessages: seq<string>, perfEntries: seq<string>)

  /** The state before the first child. */
  function Start(status: NagiosStatus): (r: Acc)
  {
    Acc(status.value, "", [], [])
  }

  /** The line a child contributes when the receiver's message is empty:
      `"%s %s | " + perfFormat` over the child's own fields. */
  function FullLine(s: NagiosStatus): (r: string)
  {
    MessageLine(s.value, s.message) + " | " + Format(s.perfdata)
  }

  /** One loop iteration. `primaryEmpty` is `status.Message == ""` for the
      ORIGINAL receiver message: the loop never writes `status.Message`, so
      every child takes the same branch. */
  function Step(primaryEmpty: bool, acc: Acc, s: NagiosStatus): (r: Acc)
  {
    var v := Max(acc.value, s.value);
    if primaryEmpty then
      acc.(value := v, msg := FullLine(s))
    else
      acc.(value := v,
           longMessages := acc.longMessages + [MessageLine(s.value, s.message)],
           perfEntries := acc.perfEntries + [Format(s.perfdata)])
  }

  /** The loop over the children, in slice order. */
  function Fold(primaryEmpty: bool, acc: Acc, others: seq<NagiosStatus>): (r: Acc)
    decreases |others|
  {
    if |others| == 0 then acc
    else Step(primaryEmpty, Fold(primaryEmpty, acc, others[..|others| - 1]), others[|others| - 1])
  }

  /** After the loop: the long-message block after "\n", then the
      performance block after " | ", each only when non-empty. */
  function Finish(acc: Acc): (r: string)
  {
    var m := if |acc.longMessages| > 0 then acc.msg + "\n" + Join(acc.longMessages, "\n") else acc.msg;
    if |acc.perfEntries| > 0 then m + " | " + Join(acc.perfEntries, "\n") else m
  }

  /** `status.Aggregate(others)`: only `Value` and `Message` of the receiver
      are written. */
  function Aggregate(status: NagiosStatus, others: seq<NagiosStatus>): (r: NagiosStatus)
    ensures r == status.(value := r.value, message := r.message)
    ensures Le(status.value, r.value)
    ensures forall i :: 0 <= i < |others| ==> Le(others[i].value, r.value)
    ensures r.value == status.value || exists i :: 0 <= i < |others| && others[i].value == r.value
  {
    var acc := Fold(status.message == "", Start(status), others);
    FoldValue(status.message == "", Start(status), others);
    status.(value := acc.value, message := Finish(acc))
  }

  /** The "label msg" lines of the children, in order. */
  function Lines(others: seq<NagiosStatus>): (r: seq<string>)
    ensures |r| == |others|
  {
    seq(|others|, i requires 0 <= i < |others| => MessageLine(others[i].value, others[i].message))
  }

  /** The performance entries of the children, in order, one per child. */
  function Entries(others: seq<NagiosStatus>): (r: seq<string>)
    ensures |r| == |others|
  {
    seq(|others|, i requires 0 <= i < |others| => Format(others[i].perfdata))
  }

  /** The loop's value is the worst of the starting value and all children:
      no better than any of them, and equal to one of them. */
  lemma {:induction false} FoldValue(primaryEmpty: bool, acc: Acc, others: seq<NagiosStatus>)
    ensures Le(acc.value, Fold(primaryEmpty, acc, others).value)
    ensures forall i :: 0 <= i < |others| ==> Le(others[i].value, Fold(primaryEmpty, acc, others).value)
    ensures Fold(primaryEmpty, acc, others).value == acc.value
         || exists i :: 0 <= i < |others| && others[i].value == Fold(primaryEmpty, acc, others).value
    decreases |others|
  {
    if |others| > 0 {
      var n := |others| - 1;
      var prefix := others[..n];
      FoldValue(primaryEmpty, acc, prefix);
      var before := Fold(primaryEmpty, acc, prefix).value;
      var after := Fold(primaryEmpty, acc, others).value;
      assert after == Max(before, others[n].value);
      forall i | 0 <= i < |others|
        ensures Le(others[i].value, after)
      {
        if i < n {
          assert prefix[i] == others[i];
          LeTotalOrder(others[i].value, before, after);
        }
      }
      if after != acc.value && after != others[n].value {
        assert after == before;
        var j :| 0 <= j < n && prefix[j].value == before;
        assert others[j] == prefix[j];
      }
    }
  }

  /** With an empty receiver message the lists stay empty and `msg` is the
      full line of the last child seen. */
  lemma {:induction false} FoldPrimaryEmpty(acc: Acc, others: seq<NagiosStatus>)
    ensures Fold(true, acc, others).longMessages == acc.longMessages
    ensures Fold(true, acc, others).perfEntries == acc.perfEntries
    ensures |others| == 0 ==> Fold(true, acc, others).msg == acc.msg
    ensures |others| > 0 ==> Fold(true, acc, others).msg == FullLine(others[|others| - 1])
    decreases |others|
  {
    if |others| > 0 {
      FoldPrimaryEmpty(acc, others[..|others| - 1]);
    }
  }

  /** A step with a non-empty receiver message appends the child's line and
      entry and leaves `msg` alone. */
  lemma StepAppends(acc: Acc, s: NagiosStatus)
    ensures Step(false, acc, s).msg == acc.msg
    ensures Step(false, acc, s).longMessages == acc.longMessages + [MessageLine(s.value, s.message)]
    ensures Step(false, acc, s).perfEntries == acc.perfEntries + [Format(s.perfdata)]
  {
  }

  /** `Lines` grows by the last child's line. */
  lemma LinesSnoc(others: seq<NagiosStatus>)
    requires |others| > 0
    ensures Lines(others)
         == Lines(others[..|others| - 1])
          + [MessageLine(others[|others| - 1].value, others[|others| - 1].message)]
  {
  }

  /** `Entries` grows by the last child's entry. */
  lemma EntriesSnoc(others: seq<NagiosStatus>)
    requires |others| > 0
    ensures Entries(others) == Entries(others[..|others| - 1]) + [Format(others[|others| - 1].perfdata)]
  {
  }

  /** With a non-empty receiver message every child appends its
      "label msg" line, so `longMessageArr` ends as the children's lines. */
  lemma {:induction false} FoldPrimarySetLines(acc: Acc, others: seq<NagiosStatus>)
    requires acc.longMessages == []
    ensures Fold(false, acc, others).longMessages == Lines(others)
    decreases |others|
  {
    if |others| > 0 {
      var n := |others| - 1;
      var prev := Fold(false, acc, others[..n]);
      FoldPrimarySetLines(acc, others[..n]);
      LinesSnoc(others);
      assert Fold(false, acc, others) == Step(false, prev, others[n]);
      StepAppends(prev, others[n]);
    }
  }

  /** With a non-empty receiver message `msg` is untouched and every child
      appends its performance entry, also when that entry is all empty, so
      `perfDataStringArr` ends as the children's entries. */
  lemma {:induction false} FoldPrimarySetEntries(acc: Acc, others: seq<NagiosStatus>)
    requires acc.perfEntries == []
    ensures Fold(false, acc, others).msg == acc.msg
    ensures Fold(false, acc, others).perfEntries == Entries(others)
    decreases |others|
  {
    if |others| > 0 {
      var n := |others| - 1;
      var prev := Fold(false, acc, others[..n]);
      FoldPrimarySetEntries(acc, others[..n]);
      EntriesSnoc(others);
      assert Fold(false, acc, others) == Step(false, prev, others[n]);
      StepAppends(prev, others[n]);
    }
  }

  /** Ties and better children leave the value alone: it is unchanged
      exactly when no child is worse than the receiver. */
  lemma AggregateValueUnchanged(status: NagiosStatus, others: seq<NagiosStatus>)
    ensures Aggregate(status, others).value == status.value
        <==> forall i :: 0 <= i < |others| ==> Le(others[i].value, status.value)
  {
  }

  /** Aggregating one child gives the worse of the two values. */
  lemma AggregateOneChild(status: NagiosStatus, child: NagiosStatus)
    ensures Aggregate(status, [child]).value == Max(status.value, child.value)
  {
  }

  /** The message `Aggregate` writes back is the finished loop state. */
  lemma AggregateMessage(status: NagiosStatus, others: seq<NagiosStatus>)
    ensures Aggregate(status, others).message == Finish(Fold(status.message == "", Start(status), others))
  {
  }

  /** With `msg` empty and both blocks present the message is "\n", the
      long block, " | " and the performance block. */
  lemma FinishBlocks(acc: Acc)
    requires acc.msg == ""
    requires |acc.longMessages| > 0 && |acc.perfEntries| > 0
    ensures Finish(acc) == "\n" + Join(acc.longMessages, "\n") + " | " + Join(acc.perfEntries, "\n")
  {
  }

  /** No children: the value is kept but the message becomes "", because
      `msg` starts empty and neither block is appended. */
  lemma AggregateNoChildren(status: NagiosStatus)
    ensures Aggregate(status, []) == status.(message := "")
  {
  }

  /** Empty receiver message and at least one child: the message is the
      full line of the LAST child; earlier children only affect the value. */
  lemma AggregatePrimaryEmpty(status: NagiosStatus, others: seq<NagiosStatus>)
    requires status.message == ""
    requires |others| > 0
    ensures Aggregate(status, others).message == FullLine(others[|others| - 1])
    ensures Aggregate(status, others).message
         == ConstructedMessageWithPerf(
              NagiosStatusWithPerformanceData(others[|others| - 1], others[|others| - 1].perfdata))
  {
    FoldPrimaryEmpty(Start(status), others);
  }

  /** Non-empty receiver message and at least one child: the receiver's own
      text is dropped; the message is "\n", the children's lines joined by
      "\n", " | ", and one performance entry per child joined by "\n". */
  lemma AggregatePrimarySet(status: NagiosStatus, others: seq<NagiosStatus>)
    requires status.message != ""
    requires |others| > 0
    ensures Aggregate(status, others).message
         == "\n" + Join(Lines(others), "\n") + " | " + Join(Entries(others), "\n")
  {
    var acc := Fold(false, Start(status), others);
    AggregateMessage(status, others);
    FoldPrimarySetLines(Start(status), others);
    FoldPrimarySetEntries(Start(status), others);
    FinishBlocks(acc);
  }

  /** Aggregating the same children a second time leaves the value as the
      first aggregation left it. */
  lemma AggregateValueIdempotent(status: NagiosStatus, others: seq<NagiosStatus>)
    ensures Aggregate(Aggregate(status, others), others).value == Aggregate(status, others).value
  {
  }

  /** The receiver and children of the library's own example. */
  function ExampleReceiver(): (r: NagiosStatus) { NagiosStatus("Uh oh", Critical, Zero) }
  function ExampleChildren(): (r: seq<NagiosStatus>)
  {
    [NagiosStatus("ok", Ok, Zero), NagiosStatus("Not so bad", Warning, Zero)]
  }

  /** The long-message block of the example. */
  lemma ExampleLines()
    ensures Join(Lines(ExampleChildren()), "\n") == "OK: ok" + "\n" + "WARNING: Not so bad"
  {
    var lines := Lines(ExampleChildren());
    var first, second := MessageLine(Ok, "ok"), MessageLine(Warning, "Not so bad");
    assert lines == [first, second];
    assert lines[1..] == [second];
    assert first == "OK: ok";
    assert second == "WARNING: Not so bad";
  }

  /** The performance block of the example: one zero entry per child. */
  lemma ExampleEntries()
    ensures Join(Entries(ExampleChildren()), "\n") == "''=;;;;" + "\n" + "''=;;;;"
  {
    var entries := Entries(ExampleChildren());
    var zero := Format(Zero);
    assert entries == [zero, zero];
    assert entries[1..] == [zero];
    FormatZero();
  }

  /** The library's own example, as the code computes it: receiver
      ("Uh oh", CRITICAL), children ("ok", OK) and ("Not so bad", WARNING)
      with zero performance values. The receiver's "Uh oh" is not kept. */
  lemma AggregateExample()
    ensures Aggregate(ExampleReceiver(), ExampleChildren()).value == Critical
    ensures Aggregate(ExampleReceiver(), ExampleChildren()).message
         == "\n" + ("OK: ok" + "\n" + "WARNING: Not so bad") + " | " + ("''=;;;;" + "\n" + "''=;;;;")
  {
    var status, others := ExampleReceiver(), ExampleChildren();
    AggregatePrimarySet(status, others);
    ExampleLines();
    ExampleEntries();
  }
}
