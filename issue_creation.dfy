/** The `create_issue` tool: validation in a fixed order, project resolution, and the
    handling of what the create and detail-fetch collaborators give back. Each
    collaborator is represented by the outcome it gives when called; the result records
    which collaborators were called and with what arguments. */
module IssueCreation {
  import opened Values

  /** What looking a project up by short name gives. */
  datatype LookupOutcome = Found(projectId: string) | NotFound | LookupRaised(message: string)

  /** What the issue client's create call gives: a plain mapping (possibly an error
      mapping), an issue object with an `id` and its dumped form, or an exception. */
  datatype CreateOutcome = Returned(doc: Json) | IssueObject(id: string, doc: Json) | CreateRaised(message: string)

  /** What fetching the created issue's details gives. */
  datatype DetailOutcome = Fetched(doc: Json) | FetchRaised(message: string)

  /** A collaborator call made by the tool. */
  datatype Call =
    | LookupProject(name: string)
    | Create(projectId: string, summary: string, description: Option<string>)
    | FetchDetail(issueId: string)

  /** The tool's reply together with the collaborator calls it made, in order. */
  datatype Run = Run(reply: Json, calls: seq<Call>)

  /** A project given as an internal identifier rather than a short name. */
  predicate IsProjectId(project: string)
  {
    |project| >= 2 && project[..2] == "0-"
  }

  /** `isinstance(issue, dict) and issue.get('error')`. */
  predicate IsErrorMapping(doc: Json)
  {
    doc.JObj? && "error" in doc.fields && Truthy(doc.fields["error"])
  }

  /** True when some call in the log is a create call. */
  predicate Created(calls: seq<Call>)
  {
    exists c :: c in calls && c.Create?
  }

  /** True when some call in the log is a project lookup. */
  predicate LookedUp(calls: seq<Call>)
  {
    exists c :: c in calls && c.LookupProject?
  }

  /** The tool's handling of the create call's outcome: an exception becomes a status
      error, a returned mapping (an error mapping included) is passed back unchanged, and
      an issue object leads to one detail fetch by its id, whose failure falls back to
      the issue as created. */
  function AfterCreate(created: CreateOutcome, detail: DetailOutcome): (r: Run)
    ensures created.CreateRaised? ==> r == Run(StatusError(created.message), [])
    ensures created.Returned? ==> r == Run(created.doc, [])
    ensures created.IssueObject? ==> r.calls == [FetchDetail(created.id)]
    ensures created.IssueObject? && detail.Fetched? ==> r.reply == detail.doc
    ensures created.IssueObject? && detail.FetchRaised? ==> r.reply == created.doc
  {
    match created
    case CreateRaised(message) => Run(StatusError(message), [])
    case Returned(doc) =>
      // An error mapping is returned as it is; any other mapping has no `id`
      // attribute, so no detail fetch is made and it is its own fallback.
      Run(doc, [])
    case IssueObject(id, doc) =>
      match detail
      case Fetched(d) => Run(d, [FetchDetail(id)])
      case FetchRaised(_) => Run(doc, [FetchDetail(id)])
  }

  /** The project id create is called with: an identifier verbatim, a short name
      through the lookup, whose miss or failure is reported instead. */
  function ResolveProject(project: string, lookup: LookupOutcome): Reply<string>
  {
    if IsProjectId(project) then Ok(project)
    else match lookup
      case Found(id) => Ok(id)
      case NotFound => Err("Project not found: " + project)
      case LookupRaised(message) => Err("Error finding project: " + message)
  }

  /** `create_issue(project, summary, description)`, given the outcomes the project
      lookup, the create call and the detail fetch would give. */
  function CreateIssue(project: string, summary: string, description: Option<string>,
                       lookup: LookupOutcome, created: CreateOutcome, detail: DetailOutcome): (r: Run)
    // Validation comes first, project before summary, and calls nothing.
    ensures project == "" ==> r == Run(StatusError("Project is required"), [])
    ensures project != "" && summary == "" ==> r == Run(StatusError("Summary is required"), [])
    // An identifier is used verbatim, without a lookup.
    ensures project != "" && summary != "" && IsProjectId(project) ==>
      r == Run(AfterCreate(created, detail).reply,
               [Create(project, summary, description)] + AfterCreate(created, detail).calls)
    // A short name is looked up; a miss or a failure stops before create.
    ensures project != "" && summary != "" && !IsProjectId(project) && lookup.NotFound? ==>
      r == Run(StatusError("Project not found: " + project), [LookupProject(project)])
    ensures project != "" && summary != "" && !IsProjectId(project) && lookup.LookupRaised? ==>
      r == Run(StatusError("Error finding project: " + lookup.message), [LookupProject(project)])
    ensures project != "" && summary != "" && !IsProjectId(project) && lookup.Found? ==>
      r == Run(AfterCreate(created, detail).reply,
               [LookupProject(project), Create(lookup.projectId, summary, description)] + AfterCreate(created, detail).calls)
  {
    if project == "" then
      Run(StatusError("Project is required"), [])
    else if summary == "" then
      Run(StatusError("Summary is required"), [])
    else
      var lookups := if IsProjectId(project) then [] else [LookupProject(project)];
      match ResolveProject(project, lookup)
      case Err(message) => Run(StatusError(message), lookups)
      case Ok(projectId) =>
        var after := AfterCreate(created, detail);
        Run(after.reply, lookups + [Create(projectId, summary, description)] + after.calls)
  }

  /** Create is called exactly when both fields are given and the project is an
      identifier or a short name the lookup resolves. */
  lemma CreateCalledExactlyWhen(project: string, summary: string, description: Option<string>,
                                lookup: LookupOutcome, created: CreateOutcome, detail: DetailOutcome)
    ensures Created(CreateIssue(project, summary, description, lookup, created, detail).calls)
        <==> project != "" && summary != "" && (IsProjectId(project) || lookup.Found?)
  {
    var r := CreateIssue(project, summary, description, lookup, created, detail);
    if project != "" && summary != "" && (IsProjectId(project) || lookup.Found?) {
      var pid := if IsProjectId(project) then project else lookup.projectId;
      assert Create(pid, summary, description) in r.calls;
    } else if project != "" && summary != "" {
      assert r.calls == [LookupProject(project)];
    }
  }

  /** A lookup happens exactly when both fields are given and the project is a short name. */
  lemma LookupCalledExactlyWhen(project: string, summary: string, description: Option<string>,
                                lookup: LookupOutcome, created: CreateOutcome, detail: DetailOutcome)
    ensures LookedUp(CreateIssue(project, summary, description, lookup, created, detail).calls)
        <==> project != "" && summary != "" && !IsProjectId(project)
  {
    var r := CreateIssue(project, summary, description, lookup, created, detail);
    if project != "" && summary != "" && !IsProjectId(project) {
      assert r.calls[0] == LookupProject(project);
    } else if project != "" && summary != "" {
      var after := AfterCreate(created, detail);
      assert r.calls == [Create(project, summary, description)] + after.calls;
      assert forall c :: c in r.calls ==> !c.LookupProject?;
    }
  }

  /** An error mapping from create comes back unchanged and no detail fetch is made. */
  lemma ErrorMappingReturnedUnchanged(project: string, summary: string, description: Option<string>,
                                      lookup: LookupOutcome, doc: Json, detail: DetailOutcome)
    requires project != "" && summary != "" && (IsProjectId(project) || lookup.Found?)
    requires IsErrorMapping(doc)
    ensures CreateIssue(project, summary, description, lookup, Returned(doc), detail).reply == doc
    ensures forall c :: c in CreateIssue(project, summary, description, lookup, Returned(doc), detail).calls ==> !c.FetchDetail?
  {
  }
}
