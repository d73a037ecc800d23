/**
 * The feed controllers (controller/feed.js): likes on posts, comments and
 * replies; adding, editing and deleting comments and replies; clearing a
 * user's notifications and message counter.
 *
 * Every lookup by id is a parameter that is `null` when nothing was found:
 * `post` is the post, `actor` the acting user (`req.body.userId`) and
 * `owner` the user a notification goes to. `names` gives the name of each
 * user a populated reference points at; `upload` is the image the host
 * returned for an attached file; `newId` is the id the database gives a new
 * sub-document; `now` is the clock.
 */
module Feed {
  import opened Seqs
  import opened Model
  import opened Alerts
  import opened Notices
  import opened PostLookup

  /** The comment authors of a post, populated. */
  function Commenters(cs: seq<Comment>, names: Id -> Name): (r: seq<Author>)
    ensures |r| == |cs|
    ensures forall i :: 0 <= i < |cs| ==> r[i] == Author(cs[i].user, names(cs[i].user))
  {
    seq(|cs|, i requires 0 <= i < |cs| => Author(cs[i].user, names(cs[i].user)))
  }

  /** `comments.pull(id)`: every comment with that id goes, the others keep their order. */
  function PullComment(cs: seq<Comment>, id: Id): (r: seq<Comment>)
    ensures forall c :: c in r <==> c in cs && c.id != id
    ensures |r| <= |cs|
  {
    if cs == [] then []
    else if cs[0].id == id then PullComment(cs[1..], id)
    else [cs[0]] + PullComment(cs[1..], id)
  }

  /** `replies.pull(id)`: every reply with that id goes, the others keep their order. */
  function PullReply(ys: seq<Reply>, id: Id): (r: seq<Reply>)
    ensures forall y :: y in r <==> y in ys && y.id != id
    ensures |r| <= |ys|
  {
    if ys == [] then []
    else if ys[0].id == id then PullReply(ys[1..], id)
    else [ys[0]] + PullReply(ys[1..], id)
  }

  /** With ids unique, pulling a present id removes exactly one comment. */
  lemma {:induction false} PullCommentOnce(cs: seq<Comment>, k: nat)
    requires k < |cs|
    requires forall i, j :: 0 <= i < j < |cs| ==> cs[i].id != cs[j].id
    ensures PullComment(cs, cs[k].id) == RemoveAt(cs, k)
  {
    var rest := cs[1..];
    if k == 0 {
      forall i | 0 <= i < |rest| ensures rest[i].id != cs[0].id {
        assert rest[i] == cs[i + 1];
      }
      PullCommentAbsent(rest, cs[0].id);
      assert RemoveAt(cs, 0) == rest;
    } else {
      forall i, j | 0 <= i < j < |rest| ensures rest[i].id != rest[j].id {
        assert rest[i] == cs[i + 1] && rest[j] == cs[j + 1];
      }
      assert rest[k - 1] == cs[k];
      assert cs[0].id != cs[k].id;
      assert PullComment(cs, cs[k].id) == [cs[0]] + PullComment(rest, cs[k].id);
      PullCommentOnce(rest, k - 1);
      RemoveAtTail(cs, k);
    }
  }

  lemma {:induction false} PullCommentAbsent(cs: seq<Comment>, id: Id)
    requires forall i :: 0 <= i < |cs| ==> cs[i].id != id
    ensures PullComment(cs, id) == cs
  {
    if cs != [] {
      PullCommentAbsent(cs[1..], id);
      assert [cs[0]] + cs[1..] == cs;
    }
  }

  /**
   * The image releases of `deleteComment`: the `postImage` of a comment is
   * never falsy, so its id is released (undefined when no image was
   * attached), then each reply's image record.
   */
  function CommentReleases(c: Comment): (r: seq<Release>)
    ensures |r| == 1 + |c.replies|
    ensures r[0] == ReleaseId(PostImageId(c.image))
    ensures forall j :: 0 <= j < |c.replies| ==> r[j + 1] == ReleaseObject(c.replies[j].image)
  {
    [ReleaseId(PostImageId(c.image))] +
    seq(|c.replies|, j requires 0 <= j < |c.replies| => ReleaseObject(c.replies[j].image))
  }

  /** `postComment`. */
  method PostComment(post: Post?, actor: User?, owner: User?, userId: Id, content: string,
                     upload: Option<Image>, newId: Id, names: Id -> Name) returns (r: Outcome)
    requires actor != null ==> actor.id == userId
    requires post != null && owner != null ==> owner.id == post.creator
    modifies post, owner
    ensures post == null ==> r == Fail(Abort("Post not found"))
    ensures post != null && actor == null ==> r == Fail(Abort("user not found"))
    ensures post != null && actor != null && content == [] && upload.None? ==>
      r == Fail(Abort("comment cannot be empty"))
    ensures post != null && (actor == null || (content == [] && upload.None?)) ==>
      post.comments == old(post.comments)
    ensures post != null && actor != null && (content != [] || upload.Some?) ==>
      post.comments == old(post.comments) + [Comment(newId, userId, content, upload, None, [], [])]
    ensures post != null && actor != null && (content != [] || upload.Some?) && userId != post.creator ==>
      r == (if owner == null then Fail(Crash) else Ok)
    ensures post != null && actor != null && (content != [] || upload.Some?) && userId != post.creator && owner != null ==>
      owner.notifications == CommentNotice(old(owner.notifications), post.id, Commented(post.id, post.creator, post.content),
        post.id, actor.profileImage, Commenters(post.comments, names))
    ensures post != null && actor != null && (content != [] || upload.Some?) && userId == post.creator ==> r == Ok
    ensures owner != null && !(post != null && actor != null && (content != [] || upload.Some?) && userId != post.creator) ==>
      owner.notifications == old(owner.notifications)
    ensures post != null ==> post.likes == old(post.likes)
    ensures OnlyReactionsChanged(post) && OnlyChanged(owner, {InboxPart})
  {
    if post == null {
      return Fail(Abort("Post not found"));
    }
    if actor == null {
      return Fail(Abort("user not found"));
    }
    if content == [] && upload.None? {
      return Fail(Abort("comment cannot be empty"));
    }
    post.comments := post.comments + [Comment(newId, userId, content, upload, None, [], [])];
    if userId != post.creator {
      r := NotifyComment("post", Commented(post.id, post.creator, post.content), Commenters(post.comments, names),
        post.id, post.id, actor.profileImage, owner);
    } else {
      r := Ok;
    }
  }

  /** `deleteComment`: only the author may delete; the images go with the comment. */
  method DeleteComment(post: Post?, userId: Id, commentId: Id) returns (r: Outcome, released: seq<Release>)
    modifies post
    ensures post == null ==> r == Fail(Abort("Post not found")) && released == []
    ensures post != null && ExistingComment(old(post.comments), commentId).Failure? ==>
      r == Fail(Abort("Comment does not exist")) && released == [] && post.comments == old(post.comments)
    ensures post != null && ExistingComment(old(post.comments), commentId).Success? ==>
      var c := ExistingComment(old(post.comments), commentId).value;
      if c.user != userId then
        r == Fail(Abort("not authorized")) && released == [] && post.comments == old(post.comments)
      else
        r == Ok && released == CommentReleases(c) && post.comments == PullComment(old(post.comments), commentId)
    ensures post != null ==> post.likes == old(post.likes)
    ensures OnlyReactionsChanged(post)
  {
    released := [];
    if post == null {
      r := Fail(Abort("Post not found"));
      return;
    }
    var existing := ExistingComment(post.comments, commentId);
    if existing.Failure? {
      r := Fail(existing.error);
      return;
    }
    var c := existing.value;
    if c.user != userId {
      r := Fail(Abort("not authorized"));
      return;
    }
    released := [ReleaseId(PostImageId(c.image))];
    var j := 0;
    while j < |c.replies|
      invariant 0 <= j <= |c.replies|
      invariant released == [ReleaseId(PostImageId(c.image))] +
        seq(j, k requires 0 <= k < j => ReleaseObject(c.replies[k].image))
    {
      released := released + [ReleaseObject(c.replies[j].image)];
      j := j + 1;
    }
    post.comments := PullComment(post.comments, commentId);
    r := Ok;
  }

  /** Deleting a comment removes every comment with its id and keeps the rest in order; with unique ids, exactly that one. */
  lemma DeleteRemovesById(cs: seq<Comment>, commentId: Id)
    requires forall i, j :: 0 <= i < j < |cs| ==> cs[i].id != cs[j].id
    requires CommentIndex(cs, commentId).Success?
    ensures PullComment(cs, commentId) == RemoveAt(cs, CommentIndex(cs, commentId).value)
    ensures forall c :: c in PullComment(cs, commentId) ==> c.id != commentId
  {
    PullCommentOnce(cs, CommentIndex(cs, commentId).value);
  }

  /** `editComment`: the author sets new content and the edit time of that one comment. */
  method EditComment(post: Post?, userId: Id, commentId: Id, content: string, now: int) returns (r: Outcome)
    modifies post
    ensures post == null ==> r == Fail(Abort("Post not found"))
    ensures post != null && content == [] ==> r == Fail(Abort("fields cannot be empty"))
    ensures post != null && content != [] && CommentIndex(old(post.comments), commentId).Failure? ==>
      r == Fail(Abort("comment no found"))
    ensures post != null && content != [] && CommentIndex(old(post.comments), commentId).Success? ==>
      var k := CommentIndex(old(post.comments), commentId).value;
      if old(post.comments)[k].user != userId then r == Fail(Abort("not authorized"))
      else (r == Ok && post.comments == old(post.comments)[k := old(post.comments)[k].(content := content, edited := Some(now))])
    ensures r != Ok && post != null ==> post.comments == old(post.comments)
    ensures post != null ==> post.likes == old(post.likes)
    ensures OnlyReactionsChanged(post)
  {
    if post == null {
      return Fail(Abort("Post not found"));
    }
    if content == [] {
      return Fail(Abort("fields cannot be empty"));
    }
    var index := FindFirst(post.comments, (c: Comment) => c.id == commentId);
    if index.None? {
      return Fail(Abort("comment no found"));
    }
    var k := index.value;
    if post.comments[k].user != userId {
      return Fail(Abort("not authorized"));
    }
    post.comments := post.comments[k := post.comments[k].(content := content)];
    post.comments := post.comments[k := post.comments[k].(edited := Some(now))];
    r := Ok;
  }

  /** `addLikeToPost`: a new liker goes to the end of the post's likes. */
  method AddLikeToPost(post: Post?, actor: User?, owner: User?, userId: Id, names: Id -> Name) returns (r: Outcome)
    requires actor != null ==> actor.id == userId
    requires post != null && owner != null ==> owner.id == post.creator
    modifies post, owner
    ensures post == null ==> r == Fail(Crash)
    ensures post != null && userId in old(post.likes) ==> r == Fail(Refused(422, "")) && post.likes == old(post.likes)
    ensures post != null && userId !in old(post.likes) ==> post.likes == old(post.likes) + [userId]
    ensures post != null && userId !in old(post.likes) && userId == post.creator ==> r == Ok
    ensures post != null && userId !in old(post.likes) && userId != post.creator ==>
      r == (if actor == null || owner == null then Fail(Crash) else Ok)
    ensures post != null && userId !in old(post.likes) && userId != post.creator && actor != null && owner != null ==>
      owner.notifications == LikeNotice(old(owner.notifications), post.id, post.content, post.id, actor.profileImage,
        Populate(post.likes, names), Add)
    ensures owner != null && !(post != null && userId !in old(post.likes) && userId != post.creator && actor != null) ==>
      owner.notifications == old(owner.notifications)
    ensures post != null ==> post.comments == old(post.comments)
    ensures post != null && old(post.LikesOnce()) ==> post.LikesOnce()
    ensures OnlyReactionsChanged(post) && OnlyChanged(owner, {InboxPart})
  {
    if post == null {
      return Fail(Crash);
    }
    if userId in post.likes {
      return Fail(Refused(422, ""));
    }
    if NoDup(post.likes) {
      SnocNoDup(post.likes, userId);
    }
    post.likes := post.likes + [userId];
    if userId != post.creator {
      if actor == null {
        return Fail(Crash);
      }
      r := NotifyLikes("post", Liked(Some(post.creator), None, post.content), Populate(post.likes, names),
        post.id, Add, post.id, actor.profileImage, owner);
    } else {
      r := Ok;
    }
  }

  /** `removeLikeFromPost`: the liker leaves the post's likes, the others stay in order. */
  method RemoveLikeFromPost(post: Post?, actor: User?, owner: User?, userId: Id, names: Id -> Name) returns (r: Outcome)
    requires actor != null ==> actor.id == userId
    requires post != null && owner != null ==> owner.id == post.creator
    modifies post, owner
    ensures post == null ==> r == Fail(Abort("Post not found"))
    ensures post != null && actor == null ==> r == Fail(Abort("user not found"))
    ensures post != null && actor != null && userId !in old(post.likes) ==> r == Fail(Abort("no likes to remove"))
    ensures post != null && (actor == null || userId !in old(post.likes)) ==> post.likes == old(post.likes)
    ensures post != null && actor != null && userId in old(post.likes) ==> post.likes == Pull(old(post.likes), userId)
    ensures post != null && actor != null && userId in old(post.likes) ==>
      r == (if userId != post.creator && owner == null then Fail(Crash) else Ok)
    ensures post != null && actor != null && userId in old(post.likes) && userId != post.creator && owner != null ==>
      owner.notifications == LikeNotice(old(owner.notifications), post.id, post.content, post.id, actor.profileImage,
        Populate(post.likes, names), Remove)
    ensures owner != null && !(post != null && actor != null && userId in old(post.likes) && userId != post.creator) ==>
      owner.notifications == old(owner.notifications)
    ensures post != null ==> post.comments == old(post.comments)
    ensures post != null && old(post.LikesOnce()) ==> post.LikesOnce()
    ensures OnlyReactionsChanged(post) && OnlyChanged(owner, {InboxPart})
  {
    if post == null {
      return Fail(Abort("Post not found"));
    }
    if actor == null {
      return Fail(Abort("user not found"));
    }
    if userId !in post.likes {
      return Fail(Abort("no likes to remove"));
    }
    PullKeepsNoDupIf(post.likes, userId);
    post.likes := Pull(post.likes, userId);
    if userId != post.creator {
      r := NotifyLikes("post", Liked(Some(post.creator), None, post.content), Populate(post.likes, names),
        post.id, Remove, post.id, actor.profileImage, owner);
    } else {
      r := Ok;
    }
  }

  /** A like then its removal leaves the post's likes as they were. */
  lemma LikeThenUnlikePost(likes: seq<Id>, userId: Id)
    requires userId !in likes
    ensures Pull(likes + [userId], userId) == likes
  {
    PullAfterPush(likes, userId);
  }

  /** The comment `commentId` (the first with that id), if the post has it. */
  function CommentAt(cs: seq<Comment>, commentId: Id): (r: Option<nat>)
    ensures r.Some? <==> CommentIndex(cs, commentId).Success?
    ensures r.Some? ==> r.value == CommentIndex(cs, commentId).value && r.value < |cs|
  {
    match CommentIndex(cs, commentId)
    case Success(k) => Some(k)
    case Failure(_) => None
  }

  /** One comment's likes replaced; it stays liked-once if the new list is duplicate-free. */
  lemma SetCommentLikesOnce(cs: seq<Comment>, k: nat, likes: seq<Id>)
    requires k < |cs| && CommentLikesOnce(cs[k]) && NoDup(likes)
    ensures CommentLikesOnce(cs[k].(likes := likes))
  {
  }

  /**
   * `addCommentLike`: a new liker goes to the front of that comment's likes.
   * The notice goes to the comment's author, but is skipped when the liker
   * is the post's creator.
   */
  method AddCommentLike(post: Post?, actor: User?, owner: User?, userId: Id, commentId: Id, names: Id -> Name)
    returns (r: Outcome)
    requires actor != null ==> actor.id == userId
    requires post != null && owner != null && CommentAt(post.comments, commentId).Some? ==>
      owner.id == post.comments[CommentAt(post.comments, commentId).value].user
    modifies post, owner
    ensures post == null ==> r == Fail(Crash)
    ensures post != null && CommentAt(old(post.comments), commentId).None? ==>
      r == Fail(Abort("Comment not found")) && post.comments == old(post.comments)
    ensures post != null && CommentAt(old(post.comments), commentId).Some? ==>
      var k := CommentAt(old(post.comments), commentId).value;
      var c := old(post.comments)[k];
      if actor == null then r == Fail(Abort("user not found")) && post.comments == old(post.comments)
      else if userId in c.likes then r == Fail(Refused(422, "already liked")) && post.comments == old(post.comments)
      else (post.comments == old(post.comments)[k := c.(likes := [userId] + c.likes)] &&
        (userId == post.creator ==> r == Ok && (owner != null ==> owner.notifications == old(owner.notifications))) &&
        (userId != post.creator ==> r == (if owner == null then Fail(Crash) else Ok)) &&
        (userId != post.creator && owner != null ==>
          owner.notifications == LikeNotice(old(owner.notifications), commentId, c.content, post.id, actor.profileImage,
            Populate([userId] + c.likes, names), Add)))
    ensures post != null && owner != null && r != Ok && r != Fail(Crash) ==> owner.notifications == old(owner.notifications)
    ensures post != null ==> post.likes == old(post.likes)
    ensures post != null && old(post.LikesOnce()) ==> post.LikesOnce()
    ensures OnlyReactionsChanged(post) && OnlyChanged(owner, {InboxPart})
  {
    if post == null {
      return Fail(Crash);
    }
    var index := CommentIndex(post.comments, commentId);
    if index.Failure? {
      return Fail(index.error);
    }
    var k := index.value;
    if actor == null {
      return Fail(Abort("user not found"));
    }
    r := LikeComment(post, actor, owner, userId, k, commentId, names);
  }

  /** The part of `addCommentLike` after the lookup and the user check. */
  method LikeComment(post: Post, actor: User, owner: User?, userId: Id, k: nat, commentId: Id, names: Id -> Name)
    returns (r: Outcome)
    requires k < |post.comments|
    requires actor.id == userId
    requires owner != null ==> owner.id == post.comments[k].user
    modifies post, owner
    ensures var c := old(post.comments)[k];
      if userId in c.likes then r == Fail(Refused(422, "already liked")) && post.comments == old(post.comments)
      else (post.comments == old(post.comments)[k := c.(likes := [userId] + c.likes)] &&
        (userId == post.creator ==> r == Ok && (owner != null ==> owner.notifications == old(owner.notifications))) &&
        (userId != post.creator ==> r == (if owner == null then Fail(Crash) else Ok)) &&
        (userId != post.creator && owner != null ==>
          owner.notifications == LikeNotice(old(owner.notifications), commentId, c.content, post.id, actor.profileImage,
            Populate([userId] + c.likes, names), Add)))
    ensures owner != null && r != Ok && r != Fail(Crash) ==> owner.notifications == old(owner.notifications)
    ensures post.likes == old(post.likes)
    ensures old(post.LikesOnce()) ==> post.LikesOnce()
    ensures OnlyReactionsChanged(post) && OnlyChanged(owner, {InboxPart})
  {
    var c := post.comments[k];
    if userId in c.likes {
      return Fail(Refused(422, "already liked"));
    }
    if post.LikesOnce() {
      ConsNoDup(userId, c.likes);
      SetCommentLikesOnce(post.comments, k, [userId] + c.likes);
    }
    post.comments := post.comments[k := c.(likes := [userId] + c.likes)];
    if userId != post.creator {
      r := NotifyLikes("comment", Liked(None, Some(c.user), c.content), Populate([userId] + c.likes, names),
        commentId, Add, post.id, actor.profileImage, owner);
    } else {
      r := Ok;
    }
  }

  /** `removeCommentLike`: the liker leaves that comment's likes. */
  method RemoveCommentLike(post: Post?, actor: User?, owner: User?, userId: Id, commentId: Id, names: Id -> Name)
    returns (r: Outcome)
    requires actor != null ==> actor.id == userId
    requires post != null && owner != null && CommentAt(post.comments, commentId).Some? ==>
      owner.id == post.comments[CommentAt(post.comments, commentId).value].user
    modifies post, owner
    ensures post == null ==> r == Fail(Crash)
    ensures post != null && CommentAt(old(post.comments), commentId).None? ==>
      r == Fail(Abort("Comment not found")) && post.comments == old(post.comments)
    ensures post != null && CommentAt(old(post.comments), commentId).Some? ==>
      var k := CommentAt(old(post.comments), commentId).value;
      var c := old(post.comments)[k];
      if actor == null then r == Fail(Abort("user not found")) && post.comments == old(post.comments)
      else if userId !in c.likes then r == Fail(Abort("no likes to remove")) && post.comments == old(post.comments)
      else (post.comments == old(post.comments)[k := c.(likes := Pull(c.likes, userId))] &&
        (userId == post.creator ==> r == Ok && (owner != null ==> owner.notifications == old(owner.notifications))) &&
        (userId != post.creator ==> r == (if owner == null then Fail(Crash) else Ok)) &&
        (userId != post.creator && owner != null ==>
          owner.notifications == LikeNotice(old(owner.notifications), commentId, c.content, post.id, actor.profileImage,
            Populate(Pull(c.likes, userId), names), Remove)))
    ensures post != null && owner != null && r != Ok && r != Fail(Crash) ==> owner.notifications == old(owner.notifications)
    ensures post != null ==> post.likes == old(post.likes)
    ensures post != null && old(post.LikesOnce()) ==> post.LikesOnce()
    ensures OnlyReactionsChanged(post) && OnlyChanged(owner, {InboxPart})
  {
    if post == null {
      return Fail(Crash);
    }
    var index := CommentIndex(post.comments, commentId);
    if index.Failure? {
      return Fail(index.error);
    }
    var k := index.value;
    if actor == null {
      return Fail(Abort("user not found"));
    }
    r := UnlikeComment(post, actor, owner, userId, k, commentId, names);
  }

  /** The part of `removeCommentLike` after the lookup and the user check. */
  method UnlikeComment(post: Post, actor: User, owner: User?, userId: Id, k: nat, commentId: Id, names: Id -> Name)
    returns (r: Outcome)
    requires k < |post.comments|
    requires actor.id == userId
    requires owner != null ==> owner.id == post.comments[k].user
    modifies post, owner
    ensures var c := old(post.comments)[k];
      if userId !in c.likes then r == Fail(Abort("no likes to remove")) && post.comments == old(post.comments)
      else (post.comments == old(post.comments)[k := c.(likes := Pull(c.likes, userId))] &&
        (userId == post.creator ==> r == Ok && (owner != null ==> owner.notifications == old(owner.notifications))) &&
        (userId != post.creator ==> r == (if owner == null then Fail(Crash) else Ok)) &&
        (userId != post.creator && owner != null ==>
          owner.notifications == LikeNotice(old(owner.notifications), commentId, c.content, post.id, actor.profileImage,
            Populate(Pull(c.likes, userId), names), Remove)))
    ensures owner != null && r != Ok && r != Fail(Crash) ==> owner.notifications == old(owner.notifications)
    ensures post.likes == old(post.likes)
    ensures old(post.LikesOnce()) ==> post.LikesOnce()
    ensures OnlyReactionsChanged(post) && OnlyChanged(owner, {InboxPart})
  {
    var c := post.comments[k];
    if userId !in c.likes {
      return Fail(Abort("no likes to remove"));
    }
    if post.LikesOnce() {
      PullKeepsNoDup(c.likes, userId);
      SetCommentLikesOnce(post.comments, k, Pull(c.likes, userId));
    }
    post.comments := post.comments[k := c.(likes := Pull(c.likes, userId))];
    if userId != post.creator {
      r := NotifyLikes("comment", Liked(None, Some(c.user), c.content), Populate(Pull(c.likes, userId), names),
        commentId, Remove, post.id, actor.profileImage, owner);
    } else {
      r := Ok;
    }
  }

  /** `addReply`: the reply goes to the end of the comment's replies; its image record is always set. */
  method AddReply(post: Post?, actor: User?, userId: Id, commentId: Id, content: string,
                  upload: Option<Image>, newId: Id) returns (r: Outcome)
    requires actor != null ==> actor.id == userId
    modifies post
    ensures actor == null ==> r == Fail(Abort("user not found"))
    ensures actor != null && post == null ==> r == Fail(Abort("Post not found"))
    ensures post != null && actor != null && CommentAt(old(post.comments), commentId).None? ==>
      r == Fail(Abort("Comment not found"))
    ensures post != null && actor != null && CommentAt(old(post.comments), commentId).Some? ==>
      var k := CommentAt(old(post.comments), commentId).value;
      var c := old(post.comments)[k];
      var image := if upload.Some? then upload.value else NoImage;
      r == Ok && post.comments == old(post.comments)[k := c.(replies := c.replies + [Reply(newId, userId, content, image, None, [])])]
    ensures post != null && r != Ok ==> post.comments == old(post.comments)
    ensures post != null ==> post.likes == old(post.likes)
    ensures post != null && old(post.LikesOnce()) ==> post.LikesOnce()
    ensures OnlyReactionsChanged(post)
  {
    if actor == null {
      return Fail(Abort("user not found"));
    }
    if post == null {
      return Fail(Abort("Post not found"));
    }
    var index := CommentIndex(post.comments, commentId);
    if index.Failure? {
      return Fail(index.error);
    }
    var k := index.value;
    var c := post.comments[k];
    var image := if upload.Some? then upload.value else NoImage;
    var reply := Reply(newId, userId, content, image, None, []);
    ghost var before := post.LikesOnce();
    post.comments := post.comments[k := c.(replies := c.replies + [reply])];
    if before {
      assert CommentLikesOnce(post.comments[k]) by {
        forall j | 0 <= j < |post.comments[k].replies| ensures NoDup(post.comments[k].replies[j].likes) {
          if j < |c.replies| {
            assert post.comments[k].replies[j] == c.replies[j];
          }
        }
      }
    }
    // The reply notice passes type "reply", which falls through to the default case.
    r := NotifyComment("reply", Commented(post.id, post.creator, post.content), [], commentId, post.id, actor.profileImage, null);
  }

  /** `removeReply`: the reply's author removes it; its image goes when it has a url. */
  method RemoveReply(post: Post?, userId: Id, commentId: Id, replyId: Id) returns (r: Outcome, released: seq<Release>)
    modifies post
    ensures post == null ==> r == Fail(Abort("Post not found"))
    ensures post != null && CommentAt(old(post.comments), commentId).None? ==> r == Fail(Abort("Comment not found"))
    ensures post != null && CommentAt(old(post.comments), commentId).Some? ==>
      var k := CommentAt(old(post.comments), commentId).value;
      var c := old(post.comments)[k];
      match FindFirst(c.replies, (y: Reply) => y.id == replyId)
      case None => r == Fail(Abort("comment not found"))
      case Some(j) =>
        if c.replies[j].user != userId then r == Fail(Abort("not authorized"))
        else (r == Ok && post.comments == old(post.comments)[k := c.(replies := PullReply(c.replies, replyId))] &&
          released == (if c.replies[j].image.imageUrl.Some? then [ReleaseId(c.replies[j].image.imageId)] else []))
    ensures r != Ok ==> released == []
    ensures post != null && r != Ok ==> post.comments == old(post.comments)
    ensures post != null ==> post.likes == old(post.likes)
    ensures post != null && old(post.LikesOnce()) ==> post.LikesOnce()
    ensures OnlyReactionsChanged(post)
  {
    released := [];
    if post == null {
      r := Fail(Abort("Post not found"));
      return;
    }
    var index := CommentIndex(post.comments, commentId);
    if index.Failure? {
      r := Fail(index.error);
      return;
    }
    var k := index.value;
    var c := post.comments[k];
    var replyIndex := FindFirst(c.replies, (y: Reply) => y.id == replyId);
    if replyIndex.None? {
      r := Fail(Abort("comment not found"));
      return;
    }
    var j := replyIndex.value;
    if c.replies[j].user != userId {
      r := Fail(Abort("not authorized"));
      return;
    }
    if c.replies[j].image.imageUrl.Some? {
      released := [ReleaseId(c.replies[j].image.imageId)];
    }
    ghost var before := post.LikesOnce();
    post.comments := post.comments[k := c.(replies := PullReply(c.replies, replyId))];
    if before {
      assert CommentLikesOnce(post.comments[k]) by {
        forall i | 0 <= i < |post.comments[k].replies| ensures NoDup(post.comments[k].replies[i].likes) {
          assert post.comments[k].replies[i] in c.replies;
        }
      }
    }
    r := Ok;
  }

  /** The reply `replyId` of comment `commentId`, if both exist. */
  function ReplyAt(cs: seq<Comment>, commentId: Id, replyId: Id): (r: Option<(nat, nat)>)
    ensures r.Some? ==> r.value.0 < |cs| && r.value.1 < |cs[r.value.0].replies|
    ensures r.Some? ==> cs[r.value.0].id == commentId && cs[r.value.0].replies[r.value.1].id == replyId
    ensures r.Some? <==> CommentIndex(cs, commentId).Success? && ReplyIndex(cs, CommentIndex(cs, commentId).value, replyId).Success?
  {
    match CommentIndex(cs, commentId)
    case Failure(_) => None
    case Success(k) =>
      match ReplyIndex(cs, k, replyId)
      case Failure(_) => None
      case Success(j) => Some((k, j))
  }

  /** `cs` with the likes of reply `j` of comment `k` replaced. */
  function SetReplyLikes(cs: seq<Comment>, k: nat, j: nat, likes: seq<Id>): (r: seq<Comment>)
    requires k < |cs| && j < |cs[k].replies|
    ensures |r| == |cs| && forall i :: 0 <= i < |cs| && i != k ==> r[i] == cs[i]
    ensures r[k] == cs[k].(replies := cs[k].replies[j := cs[k].replies[j].(likes := likes)])
    ensures r[k].replies[j].likes == likes
  {
    cs[k := cs[k].(replies := cs[k].replies[j := cs[k].replies[j].(likes := likes)])]
  }

  lemma SetReplyLikesOnce(cs: seq<Comment>, k: nat, j: nat, likes: seq<Id>)
    requires k < |cs| && j < |cs[k].replies| && CommentLikesOnce(cs[k]) && NoDup(likes)
    ensures CommentLikesOnce(SetReplyLikes(cs, k, j, likes)[k])
  {
    var c := SetReplyLikes(cs, k, j, likes)[k];
    forall i | 0 <= i < |c.replies| ensures NoDup(c.replies[i].likes) {
      if i != j {
        assert c.replies[i] == cs[k].replies[i];
      }
    }
  }

  /** Replacing one reply's likes by a duplicate-free list keeps every like on the post unique. */
  method SetReplyLikesOf(post: Post, k: nat, j: nat, likes: seq<Id>)
    requires k < |post.comments| && j < |post.comments[k].replies|
    modifies post
    ensures post.comments == SetReplyLikes(old(post.comments), k, j, likes)
    ensures post.likes == old(post.likes) && OnlyReactionsChanged(post)
    ensures old(post.LikesOnce()) && NoDup(likes) ==> post.LikesOnce()
  {
    if post.LikesOnce() && NoDup(likes) {
      SetReplyLikesOnce(post.comments, k, j, likes);
    }
    post.comments := SetReplyLikes(post.comments, k, j, likes);
  }

  /**
   * `addLikeToReply`, with the early return after the duplicate check that
   * the source omits: a new liker goes to the front of the reply's likes
   * and the reply's author is told, unless they liked it themselves.
   */
  method AddLikeToReply(post: Post?, actor: User?, owner: User?, userId: Id, commentId: Id, replyId: Id, names: Id -> Name)
    returns (r: Outcome)
    requires actor != null ==> actor.id == userId
    requires post != null && owner != null && ReplyAt(post.comments, commentId, replyId).Some? ==>
      owner.id == post.comments[ReplyAt(post.comments, commentId, replyId).value.0].replies[ReplyAt(post.comments, commentId, replyId).value.1].user
    modifies post, owner
    ensures post == null ==> r == Fail(Crash)
    ensures post != null && ReplyAt(old(post.comments), commentId, replyId).None? ==>
      r == Fail(Abort("Comment not found")) && post.comments == old(post.comments)
    ensures post != null && ReplyAt(old(post.comments), commentId, replyId).Some? ==>
      var kj := ReplyAt(old(post.comments), commentId, replyId).value;
      var y := old(post.comments)[kj.0].replies[kj.1];
      if actor == null then r == Fail(Abort("user not found")) && post.comments == old(post.comments)
      else if userId in y.likes then r == Fail(Refused(200, "you've liked this before")) && post.comments == old(post.comments)
      else (post.comments == SetReplyLikes(old(post.comments), kj.0, kj.1, [userId] + y.likes) &&
        (userId == y.user ==> r == Ok && (owner != null ==> owner.notifications == old(owner.notifications))) &&
        (userId != y.user ==> r == (if owner == null then Fail(Crash) else Ok)) &&
        (userId != y.user && owner != null ==>
          owner.notifications == LikeNotice(old(owner.notifications), replyId, y.content, post.id, actor.profileImage,
            Populate([userId] + y.likes, names), Add)))
    ensures post != null && owner != null && r != Ok && r != Fail(Crash) ==> owner.notifications == old(owner.notifications)
    ensures post != null ==> post.likes == old(post.likes)
    ensures post != null && old(post.LikesOnce()) ==> post.LikesOnce()
    ensures OnlyReactionsChanged(post) && OnlyChanged(owner, {InboxPart})
  {
    if post == null {
      return Fail(Crash);
    }
    var index := CommentIndex(post.comments, commentId);
    if index.Failure? {
      return Fail(index.error);
    }
    var k := index.value;
    var replyIndex := ReplyIndex(post.comments, k, replyId);
    if replyIndex.Failure? {
      return Fail(replyIndex.error);
    }
    var j := replyIndex.value;
    assert ReplyAt(post.comments, commentId, replyId) == Some((k, j));
    if actor == null {
      return Fail(Abort("user not found"));
    }
    r := LikeReply(post, actor, owner, userId, k, j, replyId, names);
  }

  /** The part of `addLikeToReply` after both lookups and the user check. */
  method LikeReply(post: Post, actor: User, owner: User?, userId: Id, k: nat, j: nat, replyId: Id, names: Id -> Name)
    returns (r: Outcome)
    requires k < |post.comments| && j < |post.comments[k].replies|
    requires actor.id == userId
    requires owner != null ==> owner.id == post.comments[k].replies[j].user
    modifies post, owner
    ensures var y := old(post.comments)[k].replies[j];
      if userId in y.likes then r == Fail(Refused(200, "you've liked this before")) && post.comments == old(post.comments)
      else (post.comments == SetReplyLikes(old(post.comments), k, j, [userId] + y.likes) &&
        (userId == y.user ==> r == Ok && (owner != null ==> owner.notifications == old(owner.notifications))) &&
        (userId != y.user ==> r == (if owner == null then Fail(Crash) else Ok)) &&
        (userId != y.user && owner != null ==>
          owner.notifications == LikeNotice(old(owner.notifications), replyId, y.content, post.id, actor.profileImage,
            Populate([userId] + y.likes, names), Add)))
    ensures owner != null && r != Ok && r != Fail(Crash) ==> owner.notifications == old(owner.notifications)
    ensures post.likes == old(post.likes)
    ensures old(post.LikesOnce()) ==> post.LikesOnce()
    ensures OnlyReactionsChanged(post) && OnlyChanged(owner, {InboxPart})
  {
    var y := post.comments[k].replies[j];
    if userId in y.likes {
      return Fail(Refused(200, "you've liked this before"));
    }
    if post.LikesOnce() {
      ConsNoDup(userId, y.likes);
    }
    SetReplyLikesOf(post, k, j, [userId] + y.likes);
    if userId != y.user {
      r := NotifyLikes("comment", Liked(None, Some(y.user), y.content), Populate([userId] + y.likes, names),
        replyId, Add, post.id, actor.profileImage, owner);
    } else {
      r := Ok;
    }
  }

  /**
   * The reply likes `addLikeToReply` leaves as written: the duplicate check
   * answers the client but does not return, so the liker is put in front
   * again.
   */
  function ReplyLikesAsWritten(likes: seq<Id>, userId: Id): (r: seq<Id>)
    ensures |r| == |likes| + 1 && r[0] == userId && r[1..] == likes
  {
    [userId] + likes
  }

  /** The reply likes after `addLikeToReply` with the early return. */
  function ReplyLikesCorrected(likes: seq<Id>, userId: Id): (r: seq<Id>)
    ensures userId in likes ==> r == likes
    ensures userId !in likes ==> r == [userId] + likes
    ensures NoDup(likes) ==> NoDup(r)
  {
    if userId in likes then likes
    else
      ConsNoDupIf(userId, likes);
      [userId] + likes
  }

  /** A second like by the same user: as written the reply is liked twice by them; corrected it is unchanged. */
  lemma SecondReplyLikeDuplicates(userId: Id)
    ensures Occurrences(ReplyLikesAsWritten([userId], userId), userId) == 2
    ensures !NoDup(ReplyLikesAsWritten([userId], userId))
    ensures ReplyLikesCorrected([userId], userId) == [userId]
  {
    var s := ReplyLikesAsWritten([userId], userId);
    assert s == [userId, userId];
    assert s[1..] == [userId];
    assert s[0] == s[1];
  }

  /** `removeLikeFromReply`: the liker leaves the reply's likes. */
  method RemoveLikeFromReply(post: Post?, actor: User?, owner: User?, userId: Id, commentId: Id, replyId: Id,
                             names: Id -> Name) returns (r: Outcome)
    requires actor != null ==> actor.id == userId
    requires post != null && owner != null && ReplyAt(post.comments, commentId, replyId).Some? ==>
      owner.id == post.comments[ReplyAt(post.comments, commentId, replyId).value.0].replies[ReplyAt(post.comments, commentId, replyId).value.1].user
    modifies post, owner
    ensures post == null ==> r == Fail(Abort("Post not found"))
    ensures post != null && CommentAt(old(post.comments), commentId).None? ==> r == Fail(Abort("Comment does not exist"))
    ensures post != null && CommentAt(old(post.comments), commentId).Some? && ReplyAt(old(post.comments), commentId, replyId).None? ==>
      r == Fail(Abort("Comment not found"))
    ensures post != null && ReplyAt(old(post.comments), commentId, replyId).None? ==> post.comments == old(post.comments)
    ensures post != null && ReplyAt(old(post.comments), commentId, replyId).Some? ==>
      var kj := ReplyAt(old(post.comments), commentId, replyId).value;
      var y := old(post.comments)[kj.0].replies[kj.1];
      if actor == null then r == Fail(Abort("user not found")) && post.comments == old(post.comments)
      else if userId !in y.likes then r == Fail(Abort("no like to remove")) && post.comments == old(post.comments)
      else (post.comments == SetReplyLikes(old(post.comments), kj.0, kj.1, Pull(y.likes, userId)) &&
        (userId == y.user ==> r == Ok && (owner != null ==> owner.notifications == old(owner.notifications))) &&
        (userId != y.user ==> r == (if owner == null then Fail(Crash) else Ok)) &&
        (userId != y.user && owner != null ==>
          owner.notifications == LikeNotice(old(owner.notifications), replyId, y.content, post.id, actor.profileImage,
            Populate(Pull(y.likes, userId), names), Remove)))
    ensures post != null && owner != null && r != Ok && r != Fail(Crash) ==> owner.notifications == old(owner.notifications)
    ensures post != null ==> post.likes == old(post.likes)
    ensures post != null && old(post.LikesOnce()) ==> post.LikesOnce()
    ensures OnlyReactionsChanged(post) && OnlyChanged(owner, {InboxPart})
  {
    if post == null {
      return Fail(Abort("Post not found"));
    }
    var existing := ExistingComment(post.comments, commentId);
    if existing.Failure? {
      return Fail(existing.error);
    }
    var k := CommentIndex(post.comments, commentId).value;
    var replyIndex := ReplyIndex(post.comments, k, replyId);
    if replyIndex.Failure? {
      return Fail(replyIndex.error);
    }
    var j := replyIndex.value;
    assert ReplyAt(post.comments, commentId, replyId) == Some((k, j));
    if actor == null {
      return Fail(Abort("user not found"));
    }
    r := UnlikeReply(post, actor, owner, userId, k, j, replyId, names);
  }

  /** The part of `removeLikeFromReply` after both lookups and the user check. */
  method UnlikeReply(post: Post, actor: User, owner: User?, userId: Id, k: nat, j: nat, replyId: Id, names: Id -> Name)
    returns (r: Outcome)
    requires k < |post.comments| && j < |post.comments[k].replies|
    requires actor.id == userId
    requires owner != null ==> owner.id == post.comments[k].replies[j].user
    modifies post, owner
    ensures var y := old(post.comments)[k].replies[j];
      if userId !in y.likes then r == Fail(Abort("no like to remove")) && post.comments == old(post.comments)
      else (post.comments == SetReplyLikes(old(post.comments), k, j, Pull(y.likes, userId)) &&
        (userId == y.user ==> r == Ok && (owner != null ==> owner.notifications == old(owner.notifications))) &&
        (userId != y.user ==> r == (if owner == null then Fail(Crash) else Ok)) &&
        (userId != y.user && owner != null ==>
          owner.notifications == LikeNotice(old(owner.notifications), replyId, y.content, post.id, actor.profileImage,
            Populate(Pull(y.likes, userId), names), Remove)))
    ensures owner != null && r != Ok && r != Fail(Crash) ==> owner.notifications == old(owner.notifications)
    ensures post.likes == old(post.likes)
    ensures old(post.LikesOnce()) ==> post.LikesOnce()
    ensures OnlyReactionsChanged(post) && OnlyChanged(owner, {InboxPart})
  {
    var y := post.comments[k].replies[j];
    if userId !in y.likes {
      return Fail(Abort("no like to remove"));
    }
    PullKeepsNoDupIf(y.likes, userId);
    SetReplyLikesOf(post, k, j, Pull(y.likes, userId));
    if userId != y.user {
      r := NotifyLikes("comment", Liked(None, Some(y.user), y.content), Populate(Pull(y.likes, userId), names),
        replyId, Remove, post.id, actor.profileImage, owner);
    } else {
      r := Ok;
    }
  }

  /** `clearNotifications`: the counter always goes to 0; the entries only for type "clear". */
  method ClearNotifications(user: User?, kind: string) returns (r: Outcome)
    modifies user
    ensures user == null ==> r == Fail(Abort("user not found"))
    ensures user != null ==> r == Ok && user.notifications.count == 0
    ensures user != null ==>
      user.notifications.content == (if kind == "clear" then [] else old(user.notifications.content))
    ensures OnlyChanged(user, {InboxPart})
  {
    if user == null {
      return Fail(Abort("user not found"));
    }
    if kind == "clear" {
      user.notifications := user.notifications.(content := []);
    }
    user.notifications := user.notifications.(count := 0);
    r := Ok;
  }

  /** `clearMessagesCount`: the unread message counter goes to 0. */
  method ClearMessagesCount(user: User?) returns (r: Outcome)
    modifies user
    ensures user == null ==> r == Fail(Abort("user not found"))
    ensures user != null ==> r == Ok && user.messages == old(user.messages).(count := 0)
    ensures OnlyChanged(user, {MessagesPart})
  {
    if user == null {
      return Fail(Abort("user not found"));
    }
    user.messages := user.messages.(count := 0);
    r := Ok;
  }
}
