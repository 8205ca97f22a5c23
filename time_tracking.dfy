/** The `get_time_tracking` tool: the summary fields it copies through and the
    per-author breakdown of the issue's work items. */
module TimeTracking {
  import opened Values
  import opened Records
  import opened WorkItems

  /** The time-tracking summary the issue client returns; only the fields the tool copies. */
  datatype TimeSummary = TimeSummary(
    estimation: Field<string>,
    spentTime: Field<string>,
    workItemsCount: Field<int>,
    totalDurationMinutes: Field<int>)

  /** One author's entry of `breakdown_by_author` (`total_hours` is not modelled). */
  datatype AuthorTotals = AuthorTotals(totalMinutes: int, count: int)

  /** What `get_time_tracking` returns on success (the hours fields are not modelled). */
  datatype TimeTrackingReport = TimeTrackingReport(
    issueId: string,
    estimation: Option<string>,
    spentTime: Option<string>,
    totalWorkItems: Option<int>,
    totalDurationMinutes: Option<int>,
    breakdownByAuthor: map<string, AuthorTotals>)

  /** The breakdown key of a work item. */
  function AuthorKey(item: WorkItem): string
    requires Readable(item.author)
  {
    ResolvedAuthor(AuthorOrEmpty(item.author))
  }

  /** Filing one more item: its author's entry is created with zero totals on first
      sight, then gains the item's minutes and one to its count. */
  function AddItem(byAuthor: map<string, AuthorTotals>, item: WorkItem): map<string, AuthorTotals>
    requires Readable(item.author)
  {
    var name := AuthorKey(item);
    var prior := if name in byAuthor then byAuthor[name] else AuthorTotals(0, 0);
    byAuthor[name := AuthorTotals(prior.totalMinutes + Minutes(item), prior.count + 1)]
  }

  /** The breakdown of a list of work items, filed front to back. */
  function Breakdown(items: seq<WorkItem>): map<string, AuthorTotals>
    requires AllReadable(items)
  {
    if items == [] then map[]
    else AddItem(Breakdown(items[..|items| - 1]), items[|items| - 1])
  }

  /** The items filed under `name`, in input order. */
  function ItemsOf(items: seq<WorkItem>, name: string): (r: seq<WorkItem>)
    requires AllReadable(items)
    ensures |r| <= |items|
    ensures AllReadable(r)
    ensures forall k :: 0 <= k < |r| ==> AuthorKey(r[k]) == name
  {
    if items == [] then []
    else
      var last := items[|items| - 1];
      ItemsOf(items[..|items| - 1], name) + (if AuthorKey(last) == name then [last] else [])
  }

  function Plus(a: AuthorTotals, b: AuthorTotals): AuthorTotals
  {
    AuthorTotals(a.totalMinutes + b.totalMinutes, a.count + b.count)
  }

  ghost function Pick(m: map<string, AuthorTotals>): string
    requires m != map[]
  {
    var k :| k in m; k
  }

  /** Minutes and counts added up over every author of a breakdown. */
  ghost function SumTotals(m: map<string, AuthorTotals>): AuthorTotals
    decreases |m|
  {
    if m == map[] then AuthorTotals(0, 0)
    else
      var k := Pick(m);
      assert |m - {k}| == |m| - 1 by { assert (m - {k}).Keys == m.Keys - {k}; }
      Plus(m[k], SumTotals(m - {k}))
  }

  /** The sum over a breakdown does not depend on the order its keys are visited in. */
  lemma {:induction false} SumTotalsRemove(m: map<string, AuthorTotals>, key: string)
    requires key in m
    ensures SumTotals(m) == Plus(m[key], SumTotals(m - {key}))
    decreases |m|
  {
    var k := Pick(m);
    if k != key {
      assert |m - {k}| == |m| - 1 by { assert (m - {k}).Keys == m.Keys - {k}; }
      SumTotalsRemove(m - {k}, key);
      SumTotalsRemove(m - {key}, k);
      assert m - {k} - {key} == m - {key} - {k};
    }
  }

  /** A name is a key of the breakdown exactly when some work item is filed under it. */
  lemma {:induction false} BreakdownKeys(items: seq<WorkItem>, name: string)
    requires AllReadable(items)
    ensures name in Breakdown(items) <==> exists k :: 0 <= k < |items| && AuthorKey(items[k]) == name
  {
    if items != [] {
      var init := items[..|items| - 1];
      BreakdownKeys(init, name);
      if name in Breakdown(init) {
        var k :| 0 <= k < |init| && AuthorKey(init[k]) == name;
        assert items[k] == init[k];
      }
      if exists k :: 0 <= k < |items| && AuthorKey(items[k]) == name {
        var k :| 0 <= k < |items| && AuthorKey(items[k]) == name;
        if k < |init| {
          assert init[k] == items[k];
        }
      }
    }
  }

  /** Each author's entry holds exactly the minutes and the number of the items filed
      under that author, so every item is counted once, under one key, whatever its
      duration. */
  lemma {:induction false} BreakdownPerAuthor(items: seq<WorkItem>, name: string)
    requires AllReadable(items)
    ensures name in Breakdown(items) ==>
      Breakdown(items)[name] == AuthorTotals(SumMinutes(ItemsOf(items, name)), |ItemsOf(items, name)|)
  {
    if items != [] {
      var init := items[..|items| - 1];
      var last := items[|items| - 1];
      BreakdownPerAuthor(init, name);
      if AuthorKey(last) == name {
        var prefix := ItemsOf(init, name);
        assert ItemsOf(items, name) == prefix + [last];
        assert (prefix + [last])[..|prefix|] == prefix;
        if name !in Breakdown(init) {
          BreakdownKeys(init, name);
          ItemsOfEmpty(init, name);
        }
      } else {
        assert ItemsOf(items, name) == ItemsOf(init, name);
      }
    }
  }

  /** No item is filed under a name that no item resolves to. */
  lemma {:induction false} ItemsOfEmpty(items: seq<WorkItem>, name: string)
    requires AllReadable(items)
    requires forall k :: 0 <= k < |items| ==> AuthorKey(items[k]) != name
    ensures ItemsOf(items, name) == []
  {
    if items != [] {
      var init := items[..|items| - 1];
      assert forall k :: 0 <= k < |init| ==> init[k] == items[k];
      ItemsOfEmpty(init, name);
    }
  }

  /** Over all authors, the minutes add up to the normalised minutes of every work item
      and the counts add up to the number of work items. */
  lemma {:induction false} BreakdownGrandTotal(items: seq<WorkItem>)
    requires AllReadable(items)
    ensures SumTotals(Breakdown(items)) == AuthorTotals(SumMinutes(items), |items|)
  {
    if items != [] {
      var init := items[..|items| - 1];
      var last := items[|items| - 1];
      BreakdownGrandTotal(init);
      var before := Breakdown(init);
      var after := Breakdown(items);
      var name := AuthorKey(last);
      SumTotalsRemove(after, name);
      assert after - {name} == before - {name};
      if name in before {
        SumTotalsRemove(before, name);
      } else {
        assert before - {name} == before;
      }
    }
  }

  /** `get_time_tracking(issue_id)` given the outcomes of the summary fetch and of the
      work-item fetch, made in that order. An author key holding null makes the whole
      tool fail with the AttributeError message. */
  method GetTimeTracking(issueId: string, summary: Reply<TimeSummary>, fetched: Reply<seq<WorkItem>>)
    returns (r: Reply<TimeTrackingReport>)
    ensures summary.Err? ==> r == Err(summary.error)
    ensures summary.Ok? && fetched.Err? ==> r == Err(fetched.error)
    ensures summary.Ok? && fetched.Ok? && !AllReadable(fetched.value) ==> r == Err(NoneTypeGet)
    ensures summary.Ok? && fetched.Ok? && AllReadable(fetched.value) ==>
      r.Ok? && r.value.issueId == issueId && r.value.breakdownByAuthor == Breakdown(fetched.value)
    ensures r.Ok? ==>
      && r.value.estimation == summary.value.estimation.Get()
      && r.value.spentTime == summary.value.spentTime.Get()
      && r.value.totalWorkItems == summary.value.workItemsCount.GetOr(0)
      && r.value.totalDurationMinutes == summary.value.totalDurationMinutes.GetOr(0)
  {
    if summary.Err? {
      return Err(summary.error);
    }
    if fetched.Err? {
      return Err(fetched.error);
    }
    var items := fetched.value;
    var byAuthor: map<string, AuthorTotals> := map[];
    var i := 0;
    while i < |items|
      invariant 0 <= i <= |items|
      invariant AllReadable(items[..i])
      invariant byAuthor == Breakdown(items[..i])
    {
      var item := items[i];
      if item.author.Null? {
        return Err(NoneTypeGet);
      }
      var authorName := ResolvedAuthor(AuthorOrEmpty(item.author));
      if authorName !in byAuthor {
        byAuthor := byAuthor[authorName := AuthorTotals(0, 0)];
      }
      var duration := Minutes(item);
      byAuthor := byAuthor[authorName := byAuthor[authorName].(totalMinutes := byAuthor[authorName].totalMinutes + duration)];
      byAuthor := byAuthor[authorName := byAuthor[authorName].(count := byAuthor[authorName].count + 1)];
      assert items[..i + 1][..i] == items[..i];
      i := i + 1;
    }
    assert items[..i] == items;
    var s := summary.value;
    r := Ok(TimeTrackingReport(
      issueId,
      s.estimation.Get(),
      s.spentTime.Get(),
      s.workItemsCount.GetOr(0),
      s.totalDurationMinutes.GetOr(0),
      byAuthor));
  }
}
