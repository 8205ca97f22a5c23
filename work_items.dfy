/** The `get_work_items` tool: reshape every fetched work item and total their minutes. */
module WorkItems {
  import opened Values
  import opened Records

  /** What `get_work_items` returns on success (the hours fields are not modelled). */
  datatype WorkItemsReport = WorkItemsReport(
    issueId: string,
    totalWorkItems: int,
    totalDurationMinutes: int,
    workItems: seq<FormattedWorkItem>)

  /** No work item has an `author` key holding null. */
  predicate AllReadable(items: seq<WorkItem>)
  {
    forall k :: 0 <= k < |items| ==> Readable(items[k].author)
  }

  /** The normalised minutes of all items, accumulated front to back. */
  function SumMinutes(items: seq<WorkItem>): int
  {
    if items == [] then 0 else SumMinutes(items[..|items| - 1]) + Minutes(items[|items| - 1])
  }

  /** The `duration_minutes` of formatted items, added up. */
  function SumFormatted(formatted: seq<FormattedWorkItem>): int
  {
    if formatted == [] then 0
    else SumFormatted(formatted[..|formatted| - 1]) + formatted[|formatted| - 1].durationMinutes
  }

  /** The formatted list: one record per input item, in input order. */
  function FormatWorkItems(items: seq<WorkItem>): (r: seq<FormattedWorkItem>)
    requires AllReadable(items)
    ensures |r| == |items|
    ensures forall k :: 0 <= k < |items| ==> r[k] == FormatWorkItem(items[k])
  {
    if items == [] then []
    else FormatWorkItems(items[..|items| - 1]) + [FormatWorkItem(items[|items| - 1])]
  }

  /** The reported total is the sum of the reported per-item minutes. */
  lemma {:induction false} TotalIsSumOfFormatted(items: seq<WorkItem>)
    requires AllReadable(items)
    ensures SumFormatted(FormatWorkItems(items)) == SumMinutes(items)
  {
    if items != [] {
      var init := items[..|items| - 1];
      TotalIsSumOfFormatted(init);
      var f := FormatWorkItems(items);
      assert f[..|f| - 1] == FormatWorkItems(init);
    }
  }

  /** Totals of a concatenation add up. */
  lemma {:induction false} SumMinutesAppend(a: seq<WorkItem>, b: seq<WorkItem>)
    ensures SumMinutes(a + b) == SumMinutes(a) + SumMinutes(b)
    decreases |b|
  {
    if b != [] {
      var b' := b[..|b| - 1];
      SumMinutesAppend(a, b');
      assert (a + b)[..|a + b| - 1] == a + b';
    } else {
      assert a + b == a;
    }
  }

  /** Items whose duration is absent, null or zero leave the total unchanged. */
  lemma {:induction false} UntimedItemsAddNothing(items: seq<WorkItem>, untimed: WorkItem)
    requires !untimed.duration.Value? || untimed.duration.value == 0
    ensures SumMinutes(items + [untimed]) == SumMinutes(items)
  {
    assert (items + [untimed])[..|items|] == items;
  }

  /** `get_work_items(issue_id)` given the outcome of the work-item fetch. An author
      key holding null makes the whole tool fail with the AttributeError message. */
  method GetWorkItems(issueId: string, fetched: Reply<seq<WorkItem>>) returns (r: Reply<WorkItemsReport>)
    ensures fetched.Err? ==> r == Err(fetched.error)
    ensures fetched.Ok? && !AllReadable(fetched.value) ==> r == Err(NoneTypeGet)
    ensures fetched.Ok? && AllReadable(fetched.value) ==>
      r == Ok(WorkItemsReport(issueId, |fetched.value|, SumMinutes(fetched.value), FormatWorkItems(fetched.value)))
  {
    if fetched.Err? {
      return Err(fetched.error);
    }
    var items := fetched.value;
    var result: seq<FormattedWorkItem> := [];
    var totalMinutes := 0;
    var i := 0;
    while i < |items|
      invariant 0 <= i <= |items|
      invariant AllReadable(items[..i])
      invariant result == FormatWorkItems(items[..i])
      invariant totalMinutes == SumMinutes(items[..i])
    {
      var item := items[i];
      var durationMinutes := Minutes(item);
      totalMinutes := totalMinutes + durationMinutes;
      if item.author.Null? {
        return Err(NoneTypeGet);
      }
      assert items[..i + 1][..i] == items[..i];
      result := result + [FormatWorkItem(item)];
      i := i + 1;
    }
    assert items[..i] == items;
    r := Ok(WorkItemsReport(issueId, |result|, totalMinutes, result));
  }
}
