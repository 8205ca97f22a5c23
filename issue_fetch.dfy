/** The `get_issue` tool: the fetched issue is returned as it is, except that a bare
    issue shell without a summary is given a placeholder one. */
module IssueFetch {
  import opened Values

  /** A response `{"$type": "Issue", ...}` that has no `summary` key at all. */
  predicate NeedsDefaultSummary(raw: Json)
  {
    raw.JObj? && "$type" in raw.fields && raw.fields["$type"] == JStr("Issue") && "summary" !in raw.fields
  }

  /** The placeholder summary for an issue id. */
  function DefaultSummary(issueId: string): Json
  {
    JStr("Issue " + issueId)
  }

  /** The patch applied to the fetched document. */
  function PatchSummary(issueId: string, raw: Json): (r: Json)
    ensures !NeedsDefaultSummary(raw) ==> r == raw
    ensures NeedsDefaultSummary(raw) ==>
      && r.JObj?
      && r.fields.Keys == raw.fields.Keys + {"summary"}
      && r.fields["summary"] == DefaultSummary(issueId)
      && forall key :: key in raw.fields ==> r.fields[key] == raw.fields[key]
    ensures !NeedsDefaultSummary(r)
  {
    if NeedsDefaultSummary(raw) then JObj(raw.fields["summary" := DefaultSummary(issueId)]) else raw
  }

  /** Patching is idempotent: a patched document is never patched again. */
  lemma PatchSummaryIdempotent(issueId: string, raw: Json)
    ensures PatchSummary(issueId, PatchSummary(issueId, raw)) == PatchSummary(issueId, raw)
  {
  }

  /** `get_issue(issue_id)` given the outcome of the fetch. */
  function GetIssue(issueId: string, fetched: Reply<Json>): (r: Json)
    ensures fetched.Err? ==> r == ErrorObject(fetched.error)
    ensures fetched.Ok? ==> r == PatchSummary(issueId, fetched.value)
  {
    match fetched
    case Err(message) => ErrorObject(message)
    case Ok(raw) => PatchSummary(issueId, raw)
  }
}
