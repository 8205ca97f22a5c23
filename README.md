# youtrack-mcp issue tools, modelled in Dafny

A model of the logic inside the issue tools of the YouTrack MCP server
(`youtrack_mcp/api/issues.py`, class `IssueTools`). Each tool makes one or two
calls to the tracker's clients, reshapes what comes back and returns it as JSON. In
the read tools, an exception that reaches the tool boundary becomes
`{"error": message}`; `create_issue` reports its exceptions as
`{"error": message, "status": "error"}` instead. The model
covers the parts that do more than pass data through:

- `get_work_items` reshapes each work item and keeps a running total of minutes
  (`work_items.dfy`);
- `get_comments` reshapes each comment and counts them (`comments.dfy`);
- `get_time_tracking` groups work items by resolved author name, keeping a minute sum and
  an item count per author (`time_tracking.dfy`);
- `create_issue` validates its arguments in a fixed order, resolves a short project
  name through a lookup, and handles the create and detail-fetch outcomes, including the
  fallback to the created issue (`issue_creation.dfy`);
- `get_issue` gives a bare issue shell with no `summary` the placeholder summary
  `Issue <id>` (`issue_fetch.dfy`).

The shared values are in `values.dfy`. `Field` is a JSON object key that can be
absent, null or set. `Json` is a decoded document. `Reply` is a report or the message
of the exception that reached the boundary. The tracker records and the reshaping of
one entry are in `records.dfy`.

Collaborators are inputs. The list and summary fetches are `Reply` values. The project
lookup, the create call and the detail fetch are outcome values (`LookupOutcome`,
`CreateOutcome`, `DetailOutcome`). `create_issue` also returns the log of the
collaborator calls it made, so "no lookup", "create never called" and "the detail
fetch uses the new id" are stated on the log.

The loops of `get_work_items`, `get_comments` and `get_time_tracking` are methods with
`while` loops over the fetched list. The `by_author` dictionary is a local `map` that
the loop reassigns. Each method is proved against a prefix-recursive specification
function (`FormatWorkItems`, `SumMinutes`, `FormatComments`, `Breakdown`). The lemmas
state what those functions guarantee.

Reading an author is done with `d.get("author", {}).get("name")`. When the `author`
key holds `null`, that call raises an AttributeError. The whole tool then replies with
`{"error": "'NoneType' object has no attribute 'get'"}`. The model returns that error
for any list containing such an item. It does not treat the item as missing.

Defaults follow Python's `dict.get`: `d.get(k, default)` substitutes only for an
absent key. So a comment whose `deleted` key is present but `null` keeps `null`; it is
not set to `false`. `d.get(k, 0) or 0`, used for durations, turns absent, null and 0
all into 0.

## Model

| member | source | states |
|---|---|---|
| `Records.DisplayName` | youtrack_mcp/api/issues.py:228 | the shown author is `name` when it is non-empty, and otherwise whatever `login` holds (possibly absent or empty) |
| `Records.ResolvedAuthor` | youtrack_mcp/api/issues.py:331 | the breakdown key is never empty: a non-empty `name`, else a non-empty `login`, else `"Unknown"` |
| `Records.ResolvedAuthorAgreesWithDisplay` | youtrack_mcp/api/issues.py:284 | the breakdown key equals the name the work-item listing shows whenever that name is non-empty; it is `"Unknown"` exactly when the shown name is absent or empty, or is literally "Unknown" |
| `Records.Minutes` | youtrack_mcp/api/issues.py:275 | an absent or null duration counts as 0; a present duration counts as its value |
| `Records.TypeName` | youtrack_mcp/api/issues.py:286 | the work-item type name is present exactly when `type` is set and has a `name`; an absent, null or nameless type gives None |
| `Records.FormatWorkItem` | youtrack_mcp/api/issues.py:278-289 | a formatted item's `duration_minutes` is the item's normalised minutes, its `author` is the display name, `author_details` is the author reference as given, and `type` is the type name |
| `Records.FormatComment` | youtrack_mcp/api/issues.py:225-234 | `deleted` defaults to false and `attachments` to [] only when the key is absent; a key present with null stays null; present values are copied; `author` is the display name |
| `WorkItems.FormatWorkItems` | youtrack_mcp/api/issues.py:265-290 | one formatted record per work item, in input order |
| `WorkItems.TotalIsSumOfFormatted` | youtrack_mcp/api/issues.py:276-295 | `total_duration_minutes` equals the sum of the listed items' `duration_minutes` |
| `WorkItems.SumMinutesAppend` | youtrack_mcp/api/issues.py:266-276 | the running total is additive over concatenated lists |
| `WorkItems.UntimedItemsAddNothing` | youtrack_mcp/api/issues.py:275-276 | an item with an absent, null or zero duration leaves the total unchanged |
| `WorkItems.GetWorkItems` | youtrack_mcp/api/issues.py:261-302 | a fetch error is passed on; a null author fails the whole tool; otherwise the report has the count of items, the total minutes and the formatted list |
| `Comments.FormatComments` | youtrack_mcp/api/issues.py:217-235 | one formatted record per comment, in input order |
| `Comments.FormatCommentsAppend` | youtrack_mcp/api/issues.py:217-235 | formatting a longer list only appends records to the shorter list's result |
| `Comments.GetComments` | youtrack_mcp/api/issues.py:213-245 | a fetch error is passed on; a null author fails the whole tool; otherwise `total_comments` is the number of comments and the list is the formatted one; no comments give `total_comments` 0 and an empty list |
| `TimeTracking.BreakdownKeys` | youtrack_mcp/api/issues.py:331-337 | a name is a key of `breakdown_by_author` if and only if some work item resolves to it |
| `TimeTracking.BreakdownPerAuthor` | youtrack_mcp/api/issues.py:331-341 | each author's `total_minutes` and `count` are the minutes and the number of exactly the items filed under that author, zero-duration items included |
| `TimeTracking.BreakdownGrandTotal` | youtrack_mcp/api/issues.py:324-341 | summed over all authors, `total_minutes` is the normalised minutes of all work items and `count` is their number |
| `TimeTracking.SumTotalsRemove` | youtrack_mcp/api/issues.py:324-341 | helper for the grand-total property: the sum over the authors of `by_author` does not depend on the order in which the authors are visited |
| `TimeTracking.GetTimeTracking` | youtrack_mcp/api/issues.py:317-364 | summary-fetch errors, then work-item-fetch errors, then a null author fail the tool; otherwise the breakdown is that of the fetched items, and the summary fields are copied with their defaults |
| `IssueCreation.CreateIssue` | youtrack_mcp/api/issues.py:107-161 | an empty project is reported before an empty summary, with no calls made; an id starting with "0-" is used without a lookup; a short name is looked up, and a miss or a lookup exception is reported with create never called; a resolved project leads to exactly one create call with the resolved id |
| `IssueCreation.AfterCreate` | youtrack_mcp/api/issues.py:134-172 | a create exception becomes a status error; a returned mapping (an error mapping included) comes back unchanged with no detail fetch; an issue object leads to one detail fetch by its id, whose result is returned, or on failure the created issue is returned |
| `IssueCreation.CreateCalledExactlyWhen` | youtrack_mcp/api/issues.py:107-135 | create is called if and only if both fields are non-empty and the project is an id or a short name the lookup finds |
| `IssueCreation.LookupCalledExactlyWhen` | youtrack_mcp/api/issues.py:113-120 | the lookup is called if and only if both fields are non-empty and the project does not start with "0-" |
| `IssueCreation.ErrorMappingReturnedUnchanged` | youtrack_mcp/api/issues.py:138-140 | an error mapping from create is the reply, unchanged, and no detail fetch is made |
| `IssueFetch.PatchSummary` | youtrack_mcp/api/issues.py:43-44 | a document is changed only if it is an `Issue` shell without a `summary` key; then exactly the key `summary` is added, set to `Issue <id>`, with every other key kept |
| `IssueFetch.PatchSummaryIdempotent` | youtrack_mcp/api/issues.py:43-44 | patching a patched document changes nothing |
| `IssueFetch.GetIssue` | youtrack_mcp/api/issues.py:37-51 | a fetch exception gives `{"error": message}`; otherwise the reply is the patched document |

## Left out

- HTTP calls, the issue and project clients, `close()` and the `sync_wrapper` decorator: these are I/O and foreign code. Their results are inputs to the model.
- The `limit` arguments of `get_comments`, `get_work_items` and `get_time_tracking`: they are only passed to the fetch. The fetched list is an input.
- `search_issues`, `add_comment` and `get_issue_raw`: they only call a collaborator and serialise the result.
- Every `*_hours` value (`round(minutes / 60, 2)`), including the second loop of `get_time_tracking` that sets `total_hours`: this is floating-point arithmetic. Only integer minutes are modelled.
- JSON serialisation, indentation, logging, and the `model_dump` dispatch: records are modelled as already-plain values.
- Python truthiness of non-string values where the source reads strings (for example, a numeric `name`): names, logins, ids and texts are strings in the model.
- `create_issue`'s unpacking of a `project` argument that is itself a mapping: this is a dynamic-typing shim. The model takes `project` as a string.
- `create_issue` appends the decoded HTTP response body to the error message of a create exception; the model keeps only the message.
- `create_issue`'s outermost `except`, which catches errors raised outside the collaborator calls, is not modelled.
- `get_tool_definitions`: static metadata.
- `PatchSummary`: `get_issue` sets the `summary` key on the fetched dictionary in place. The model returns a new document instead. The dictionary is fresh and local to the call, so nothing else could observe the difference.
- `GetTimeTracking`: `breakdown_by_author` is a map without order. The source's dictionary keeps authors in the order they first appear, and the JSON reply lists them in that order; the model does not capture that order.
- `GetTimeTracking`: the summary's `estimation` and `spent_time` are modelled as strings and are copied through. Their structure is not interpreted.
