/** The `get_comments` tool: reshape every fetched comment and count them. */
module Comments {
  import opened Values
  import opened Records

  /** What `get_comments` returns on success. */
  datatype CommentsReport = CommentsReport(
    issueId: string,
    totalComments: int,
    comments: seq<FormattedComment>)

  /** No comment has an `author` key holding null. */
  predicate AllReadable(comments: seq<Comment>)
  {
    forall k :: 0 <= k < |comments| ==> Readable(comments[k].author)
  }

  /** The formatted list: one record per input comment, in input order. */
  function FormatComments(comments: seq<Comment>): (r: seq<FormattedComment>)
    requires AllReadable(comments)
    ensures |r| == |comments|
    ensures forall k :: 0 <= k < |comments| ==> r[k] == FormatComment(comments[k])
  {
    if comments == [] then []
    else FormatComments(comments[..|comments| - 1]) + [FormatComment(comments[|comments| - 1])]
  }

  /** Formatting distributes over concatenation: fetching more comments only appends records. */
  lemma {:induction false} FormatCommentsAppend(a: seq<Comment>, b: seq<Comment>)
    requires AllReadable(a) && AllReadable(b)
    ensures AllReadable(a + b)
    ensures FormatComments(a + b) == FormatComments(a) + FormatComments(b)
    decreases |b|
  {
    // Both sides have the same length and agree index by index, by the contract of
    // FormatComments; sequence extensionality does the rest.
    assert AllReadable(a + b) by {
      forall k | 0 <= k < |a + b| ensures Readable((a + b)[k].author) {
        if k >= |a| { assert (a + b)[k] == b[k - |a|]; }
      }
    }
  }

  /** `get_comments(issue_id)` given the outcome of the comment fetch. An author key
      holding null makes the whole tool fail with the AttributeError message. */
  method GetComments(issueId: string, fetched: Reply<seq<Comment>>) returns (r: Reply<CommentsReport>)
    ensures fetched.Err? ==> r == Err(fetched.error)
    ensures fetched.Ok? && !AllReadable(fetched.value) ==> r == Err(NoneTypeGet)
    ensures fetched.Ok? && AllReadable(fetched.value) ==>
      r == Ok(CommentsReport(issueId, |fetched.value|, FormatComments(fetched.value)))
    ensures fetched == Ok([]) ==> r == Ok(CommentsReport(issueId, 0, []))
  {
    if fetched.Err? {
      return Err(fetched.error);
    }
    var comments := fetched.value;
    var result: seq<FormattedComment> := [];
    var i := 0;
    while i < |comments|
      invariant 0 <= i <= |comments|
      invariant AllReadable(comments[..i])
      invariant result == FormatComments(comments[..i])
    {
      var comment := comments[i];
      if comment.author.Null? {
        return Err(NoneTypeGet);
      }
      assert comments[..i + 1][..i] == comments[..i];
      result := result + [FormatComment(comment)];
      i := i + 1;
    }
    assert comments[..i] == comments;
    r := Ok(CommentsReport(issueId, |result|, result));
  }
}
