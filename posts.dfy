/**
 * A user's own posts (controller/user.js): creating, updating and deleting
 * a post, with the image releases that go with a deletion.
 *
 * `user` is the account `req.body.userId` names and `post` the post
 * `postId` names, `null` when the lookup found nothing. `upload` is the
 * image the host returned for an attached file (`None` when the request
 * carries no file), `newId` the id the database gives a new post and
 * `now` the clock.
 */
module Posts {
  import opened Seqs
  import opened Model

  /** `createPost`: a post with content, or with an image that has a url, joins the author's posts. */
  method CreatePost(user: User?, userId: Id, content: string, upload: Option<Image>, newId: Id)
    returns (r: Outcome, post: Post?)
    requires user != null ==> user.id == userId
    modifies user
    ensures user == null && upload.None? ==> r == Fail(Abort("not authorize"))
    ensures user == null && upload.Some? ==> r == Fail(Abort("not authorizedd"))
    ensures user != null && content == [] && (upload.None? || upload.value.imageUrl.None?) ==>
      r == Fail(Abort("no content posted"))
    ensures user != null && (content != [] || (upload.Some? && upload.value.imageUrl.Some?)) ==> r == Ok
    ensures r.Fail? ==> post == null && OnlyChanged(user, {})
    ensures r.Ok? ==>
      user != null && (content != [] || (upload.Some? && upload.value.imageUrl.Some?)) &&
      post != null && fresh(post) &&
      post.id == newId && post.creator == userId && post.content == content &&
      post.image == (if upload.Some? then upload.value else NoImage) &&
      post.edited == None && post.likes == [] && post.comments == [] && post.LikesOnce() &&
      user.posts == old(user.posts) + [newId]
    ensures OnlyChanged(user, {PostsPart})
  {
    if user == null {
      r := Fail(Abort(if upload.None? then "not authorize" else "not authorizedd"));
      post := null;
      return;
    }
    if content == [] && (upload.None? || upload.value.imageUrl.None?) {
      r := Fail(Abort("no content posted"));
      post := null;
      return;
    }
    post := new Post(newId, userId, content, if upload.Some? then upload.value else NoImage);
    user.posts := user.posts + [newId];
    r := Ok;
  }

  /** `updatePost`: the author replaces the content, the image when a file came with the request, and stamps the edit. */
  method UpdatePost(post: Post?, userId: Id, content: string, upload: Option<Image>, now: int) returns (r: Outcome)
    modifies post
    ensures post == null ==> r == Fail(Abort("Post not found"))
    ensures post != null && content == [] ==> r == Fail(Abort("post cannot be empty"))
    ensures post != null && content != [] && post.creator != userId ==> r == Fail(Abort("not authorized"))
    ensures post != null && content != [] && post.creator == userId ==> r == Ok
    ensures r.Fail? ==> post == null || unchanged(post)
    ensures r.Ok? ==>
      post != null && content != [] && post.creator == userId &&
      post.content == content && post.edited == Some(now) &&
      post.image == (if upload.Some? then upload.value else old(post.image))
    ensures post != null ==> post.likes == old(post.likes) && post.comments == old(post.comments)
  {
    if post == null {
      return Fail(Abort("Post not found"));
    }
    if content == [] {
      return Fail(Abort("post cannot be empty"));
    }
    if post.creator != userId {
      return Fail(Abort("not authorized"));
    }
    post.content := content;
    if upload.Some? {
      post.image := upload.value;
    }
    post.edited := Some(now);
    r := Ok;
  }

  /** Releases of every reply's image, by id. */
  function ReplyReleases(ys: seq<Reply>): (r: seq<Release>)
    ensures |r| == |ys|
    ensures forall j :: 0 <= j < |ys| ==> r[j] == ReleaseId(ys[j].image.imageId)
  {
    seq(|ys|, j requires 0 <= j < |ys| => ReleaseId(ys[j].image.imageId))
  }

  /**
   * The releases of the delete cascade over a post's comments: each
   * comment's image (when it has one) by its id, then the images of its
   * replies, comment after comment.
   */
  function CascadeReleases(cs: seq<Comment>): (r: seq<Release>)
    ensures forall i :: 0 <= i < |cs| && cs[i].image.Some? ==> ReleaseId(cs[i].image.value.imageId) in r
    ensures forall i, j :: 0 <= i < |cs| && 0 <= j < |cs[i].replies| ==> ReleaseId(cs[i].replies[j].image.imageId) in r
    ensures |r| <= |CascadeReleasesAsWritten(cs)|
  {
    if cs == [] then []
    else
      var r := (if cs[0].image.Some? then [ReleaseId(cs[0].image.value.imageId)] else []) +
        ReplyReleases(cs[0].replies) + CascadeReleases(cs[1..]);
      assert forall i :: 1 <= i < |cs| ==> cs[i] == cs[1..][i - 1];
      r
  }

  /**
   * The cascade as `deletePost` writes it: `removeImage` takes the response
   * object first and the id second, but the comment and reply calls pass
   * the id alone, so the image host is asked to delete no id at all. The
   * `postImage` nested path is never falsy, so every comment and every
   * reply makes such a call, with or without an image.
   */
  function CascadeReleasesAsWritten(cs: seq<Comment>): (r: seq<Release>)
    ensures forall x :: x in r ==> x == ReleaseId(None)
    ensures |r| >= |cs|
  {
    if cs == [] then []
    else
      [ReleaseId(None)] + seq(|cs[0].replies|, j => ReleaseId(None)) + CascadeReleasesAsWritten(cs[1..])
  }

  /** A post with one comment whose image has id 7: as written nothing names image 7; the cascade does. */
  lemma CommentImageLostOnPostDelete()
    ensures var cs := [Comment(1, 2, "", Some(Image(Some("url"), Some(7))), None, [], [])];
      CascadeReleasesAsWritten(cs) == [ReleaseId(None)] &&
      CascadeReleases(cs) == [ReleaseId(Some(7))]
  {
    var cs := [Comment(1, 2, "", Some(Image(Some("url"), Some(7))), None, [], [])];
    assert cs[1..] == [];
    assert seq(|cs[0].replies|, j => ReleaseId(None)) == [];
  }

  /** Everything `deletePost` releases: the post image when it has an id, then the cascade. */
  function PostReleases(image: Image, cs: seq<Comment>): (r: seq<Release>)
    ensures image.imageId.Some? ==> |r| > 0 && r[0] == ReleaseId(image.imageId)
    ensures image.imageId.None? ==> r == CascadeReleases(cs)
    ensures forall i :: 0 <= i < |cs| && cs[i].image.Some? ==> ReleaseId(cs[i].image.value.imageId) in r
  {
    (if image.imageId.Some? then [ReleaseId(image.imageId)] else []) + CascadeReleases(cs)
  }

  /**
   * `deletePost`: the post lookup fails first, then the user lookup, then
   * the author check; on success the post leaves the author's posts and
   * the database, and its images are released through the corrected
   * cascade `CascadeReleases`, not the id-less calls the source makes
   * (`CommentImageLostOnPostDelete`).
   */
  method DeletePost(user: User?, post: Post?, userId: Id, postId: Id) returns (r: Outcome, released: seq<Release>)
    requires user != null ==> user.id == userId
    requires post != null ==> post.id == postId
    modifies user
    ensures post == null ==> r == Fail(Abort("Post not found"))
    ensures post != null && user == null ==> r == Fail(Abort("user not found"))
    ensures post != null && user != null && post.creator != userId ==> r == Fail(Abort("not authorized"))
    ensures post != null && user != null && post.creator == userId ==> r == Ok
    ensures r.Fail? ==> released == [] && OnlyChanged(user, {})
    ensures r.Ok? ==>
      post != null && user != null && post.creator == userId &&
      user.posts == Pull(old(user.posts), postId) && postId !in user.posts &&
      released == PostReleases(post.image, post.comments)
    ensures OnlyChanged(user, {PostsPart})
  {
    released := [];
    if post == null {
      r := Fail(Abort("Post not found"));
      return;
    }
    if user == null {
      r := Fail(Abort("user not found"));
      return;
    }
    if post.creator != userId {
      r := Fail(Abort("not authorized"));
      return;
    }
    released := PostReleases(post.image, post.comments);
    user.posts := Pull(user.posts, postId);
    r := Ok;
  }
}
