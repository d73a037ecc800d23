/**
 * The lookups of util/post.js: find a post, the index of a comment by id,
 * the comment itself, and the index of a reply inside one comment. None of
 * them changes the post.
 */
module PostLookup {
  import opened Seqs
  import opened Model

  /** `getPost`: `found` is what the lookup by id returned. */
  function GetPost(found: Post?): (r: Result<Post>)
    ensures r.Success? <==> found != null
    ensures r.Success? ==> r.value == found
    ensures r.Failure? ==> r.error == Abort("Post not found")
  {
    if found == null then Failure(Abort("Post not found")) else Success(found)
  }

  /** `getCommentIndex`: the first comment whose id is `commentId`. */
  function CommentIndex(comments: seq<Comment>, commentId: Id): (r: Result<nat>)
    ensures r.Success? ==> r.value < |comments| && comments[r.value].id == commentId
    ensures r.Success? ==> forall j :: 0 <= j < r.value ==> comments[j].id != commentId
    ensures r.Failure? <==> forall j :: 0 <= j < |comments| ==> comments[j].id != commentId
    ensures r.Failure? ==> r.error == Abort("Comment not found")
  {
    match FindFirst(comments, (c: Comment) => c.id == commentId)
    case Some(i) => Success(i)
    case None => Failure(Abort("Comment not found"))
  }

  /** `getExistingComment`: the first comment whose id is `commentId`. */
  function ExistingComment(comments: seq<Comment>, commentId: Id): (r: Result<Comment>)
    ensures r.Success? <==> CommentIndex(comments, commentId).Success?
    ensures r.Success? ==> r.value == comments[CommentIndex(comments, commentId).value]
    ensures r.Failure? ==> r.error == Abort("Comment does not exist")
  {
    match CommentIndex(comments, commentId)
    case Success(i) => Success(comments[i])
    case Failure(_) => Failure(Abort("Comment does not exist"))
  }

  /** `getReplyIndex`: the first reply with id `replyId` among the replies of comment `commentIndex` only. */
  function ReplyIndex(comments: seq<Comment>, commentIndex: nat, replyId: Id): (r: Result<nat>)
    requires commentIndex < |comments|
    ensures r.Success? ==> r.value < |comments[commentIndex].replies| && comments[commentIndex].replies[r.value].id == replyId
    ensures r.Success? ==> forall j :: 0 <= j < r.value ==> comments[commentIndex].replies[j].id != replyId
    ensures r.Failure? <==> forall j :: 0 <= j < |comments[commentIndex].replies| ==> comments[commentIndex].replies[j].id != replyId
    ensures r.Failure? ==> r.error == Abort("Comment not found")
  {
    match FindFirst(comments[commentIndex].replies, (y: Reply) => y.id == replyId)
    case Some(i) => Success(i)
    case None => Failure(Abort("Comment not found"))
  }

  /** A reply that lives under another comment is not found. */
  lemma ReplyIndexLooksInOneComment(comments: seq<Comment>, commentIndex: nat, other: nat, replyId: Id)
    requires commentIndex < |comments| && other < |comments|
    requires forall j :: 0 <= j < |comments[commentIndex].replies| ==> comments[commentIndex].replies[j].id != replyId
    requires exists j :: 0 <= j < |comments[other].replies| && comments[other].replies[j].id == replyId
    ensures ReplyIndex(comments, commentIndex, replyId).Failure?
    ensures ReplyIndex(comments, other, replyId).Success?
  {
  }
}
