/** The tracker records the listing tools read (users, work items, comments) and the
    reshaping of one entry, as in youtrack_mcp/api/issues.py. */
module Records {
  import opened Values

  /** A user reference (`author`): only `name` and `login` are read; the whole
      reference is copied out as `author_details`. */
  datatype UserRef = UserRef(name: Field<string>, login: Field<string>)

  /** A work-item type reference (`type`); only its `name` is read. */
  datatype WorkType = WorkType(name: Field<string>)

  /** A work item (time-tracking entry); `duration` is in minutes. */
  datatype WorkItem = WorkItem(
    id: Field<string>,
    duration: Field<int>,
    date: Field<int>,
    description: Field<string>,
    author: Field<UserRef>,
    itemType: Field<WorkType>,
    created: Field<int>,
    updated: Field<int>)

  /** A comment on an issue. */
  datatype Comment = Comment(
    id: Field<string>,
    text: Field<string>,
    author: Field<UserRef>,
    created: Field<int>,
    updated: Field<int>,
    deleted: Field<bool>,
    attachments: Field<seq<string>>)

  /** The reshaped work item (`duration_hours` is not modelled). */
  datatype FormattedWorkItem = FormattedWorkItem(
    id: Option<string>,
    durationMinutes: int,
    date: Option<int>,
    description: Option<string>,
    author: Option<string>,
    authorDetails: Option<UserRef>,
    typeName: Option<string>,
    created: Option<int>,
    updated: Option<int>)

  /** The reshaped comment. */
  datatype FormattedComment = FormattedComment(
    id: Option<string>,
    text: Option<string>,
    author: Option<string>,
    authorDetails: Option<UserRef>,
    created: Option<int>,
    updated: Option<int>,
    deleted: Option<bool>,
    attachments: Option<seq<string>>)

  /** The message of the AttributeError raised by `None.get(...)`, which is what
      `d.get("author", {}).get("name")` raises when `author` is present but null. */
  const NoneTypeGet: string := "'NoneType' object has no attribute 'get'"

  /** `d.get("author", {})` yields something `.get` can be called on. */
  predicate Readable(author: Field<UserRef>)
  {
    !author.Null?
  }

  /** `d.get("author", {})`: an absent author reads as the empty object. */
  function AuthorOrEmpty(author: Field<UserRef>): UserRef
    requires Readable(author)
  {
    if author.Value? then author.value else UserRef(Missing, Missing)
  }

  /** Python truthiness of an optional string. */
  predicate NonEmpty(s: Option<string>)
  {
    s.Some? && s.value != ""
  }

  /** `author.get("name") or author.get("login")`: the display name of a user. */
  function DisplayName(u: UserRef): (r: Option<string>)
    ensures NonEmpty(u.name.Get()) ==> r == u.name.Get()
    ensures !NonEmpty(u.name.Get()) ==> r == u.login.Get()
  {
    if NonEmpty(u.name.Get()) then u.name.Get() else u.login.Get()
  }

  /** `... or "Unknown"`: the key under which the time-tracking breakdown files a user. */
  function ResolvedAuthor(u: UserRef): (r: string)
    ensures r != ""
    ensures NonEmpty(u.name.Get()) ==> r == u.name.value
    ensures !NonEmpty(u.name.Get()) && NonEmpty(u.login.Get()) ==> r == u.login.value
    ensures !NonEmpty(u.name.Get()) && !NonEmpty(u.login.Get()) ==> r == "Unknown"
  {
    var d := DisplayName(u);
    if NonEmpty(d) then d.value else "Unknown"
  }

  /** The breakdown key agrees with the name the listings show, except that an absent
      or empty display name is filed under "Unknown". */
  lemma ResolvedAuthorAgreesWithDisplay(u: UserRef)
    ensures NonEmpty(DisplayName(u)) ==> ResolvedAuthor(u) == DisplayName(u).value
    ensures ResolvedAuthor(u) == "Unknown" <==> !NonEmpty(DisplayName(u)) || DisplayName(u) == Some("Unknown")
  {
  }

  /** `item.get("duration", 0) or 0`: an absent, null or zero duration counts as 0. */
  function Minutes(item: WorkItem): (m: int)
    ensures !item.duration.Value? ==> m == 0
    ensures item.duration.Value? ==> m == item.duration.value
  {
    match item.duration.GetOr(0)
    case None => 0
    case Some(d) => d
  }

  /** `item.get("type", {}).get("name") if item.get("type") else None`. An empty type
      object is falsy, but it has no name either, so it reads as None like any nameless type. */
  function TypeName(t: Field<WorkType>): (r: Option<string>)
    ensures r.Some? <==> t.Value? && t.value.name.Value?
    ensures r.Some? ==> r.value == t.value.name.value
  {
    match t.Get()
    case None => None
    case Some(w) => w.name.Get()
  }

  /** The record `get_work_items` builds for one work item. */
  function FormatWorkItem(item: WorkItem): (f: FormattedWorkItem)
    requires Readable(item.author)
    ensures f.durationMinutes == Minutes(item)
    ensures f.author == DisplayName(AuthorOrEmpty(item.author))
    ensures f.authorDetails == item.author.Get()
    ensures f.typeName == TypeName(item.itemType)
  {
    FormattedWorkItem(
      item.id.Get(),
      Minutes(item),
      item.date.Get(),
      item.description.Get(),
      DisplayName(AuthorOrEmpty(item.author)),
      item.author.Get(),
      TypeName(item.itemType),
      item.created.Get(),
      item.updated.Get())
  }

  /** The record `get_comments` builds for one comment. `deleted` and `attachments`
      default to false and [] only when the key is absent. */
  function FormatComment(c: Comment): (f: FormattedComment)
    requires Readable(c.author)
    ensures f.author == DisplayName(AuthorOrEmpty(c.author))
    ensures c.deleted.Missing? ==> f.deleted == Some(false)
    ensures c.attachments.Missing? ==> f.attachments == Some([])
    ensures c.deleted.Value? ==> f.deleted == Some(c.deleted.value)
    ensures c.attachments.Value? ==> f.attachments == Some(c.attachments.value)
    ensures c.deleted.Null? ==> f.deleted == None
    ensures c.attachments.Null? ==> f.attachments == None
  {
    FormattedComment(
      c.id.Get(),
      c.text.Get(),
      DisplayName(AuthorOrEmpty(c.author)),
      c.author.Get(),
      c.created.Get(),
      c.updated.Get(),
      c.deleted.GetOr(false),
      c.attachments.GetOr([]))
  }
}
