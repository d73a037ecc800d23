/**
 * Notification bookkeeping on a user's inbox (util/notifications.js):
 * the aggregated "like" entry per reacted-to document, the comment entry,
 * and the friend-request and new-friend entries.
 *
 * Each notifier is a method on the recipient documents, proved against a
 * function on inbox values; the lemmas state what those functions keep.
 */
module Notices {
  import opened Seqs
  import opened Model
  import opened Alerts

  datatype Action = Add | Remove

  /** An entry about document `oid` of alert type `t`. */
  predicate IsAlert(n: Notification, oid: Id, t: string) {
    n.payload.originalId == Some(oid) && n.payload.alertType == t
  }

  /** An entry about another user `fid` of alert type `t`. */
  predicate IsFriendAlert(n: Notification, fid: Id, t: string) {
    n.payload.friendId == Some(fid) && n.payload.alertType == t
  }

  /** Number of entries about `oid` of type `t`. */
  function CountAlerts(s: seq<Notification>, oid: Id, t: string): (k: nat)
    ensures k <= |s|
  {
    if s == [] then 0
    else (if IsAlert(s[0], oid, t) then 1 else 0) + CountAlerts(s[1..], oid, t)
  }

  /** The entries that are not about `oid` with type `t`, in order. */
  function OtherAlerts(s: seq<Notification>, oid: Id, t: string): (r: seq<Notification>)
    ensures |r| == |s| - CountAlerts(s, oid, t)
    ensures forall n :: n in r ==> n in s && !IsAlert(n, oid, t)
  {
    if s == [] then []
    else if IsAlert(s[0], oid, t) then OtherAlerts(s[1..], oid, t)
    else [s[0]] + OtherAlerts(s[1..], oid, t)
  }

  /** Number of entries about user `fid` of type `t`. */
  function CountFriendAlerts(s: seq<Notification>, fid: Id, t: string): (k: nat)
    ensures k <= |s|
    ensures k == 0 <==> forall i :: 0 <= i < |s| ==> !IsFriendAlert(s[i], fid, t)
  {
    if s == [] then 0
    else (if IsFriendAlert(s[0], fid, t) then 1 else 0) + CountFriendAlerts(s[1..], fid, t)
  }

  lemma {:induction false} CountAlertsConcat(a: seq<Notification>, b: seq<Notification>, oid: Id, t: string)
    ensures CountAlerts(a + b, oid, t) == CountAlerts(a, oid, t) + CountAlerts(b, oid, t)
    ensures OtherAlerts(a + b, oid, t) == OtherAlerts(a, oid, t) + OtherAlerts(b, oid, t)
  {
    if a == [] {
      assert a + b == b;
    } else {
      assert (a + b)[0] == a[0];
      assert (a + b)[1..] == a[1..] + b;
      CountAlertsConcat(a[1..], b, oid, t);
    }
  }

  /** Removing one entry about `oid` of type `t` lowers that count by one and keeps the other entries. */
  lemma RemoveAlertAt(s: seq<Notification>, i: nat, oid: Id, t: string)
    requires i < |s| && IsAlert(s[i], oid, t)
    ensures CountAlerts(RemoveAt(s, i), oid, t) == CountAlerts(s, oid, t) - 1
    ensures OtherAlerts(RemoveAt(s, i), oid, t) == OtherAlerts(s, oid, t)
  {
    assert s == s[..i] + ([s[i]] + s[i + 1..]);
    CountAlertsConcat(s[..i], [s[i]] + s[i + 1..], oid, t);
    CountAlertsConcat([s[i]], s[i + 1..], oid, t);
    CountAlertsConcat(s[..i], s[i + 1..], oid, t);
  }

  /** Removing an entry of another kind keeps the count of entries about `oid` of type `t`. */
  lemma RemoveOtherAt(s: seq<Notification>, i: nat, oid: Id, t: string)
    requires i < |s| && !IsAlert(s[i], oid, t)
    ensures CountAlerts(RemoveAt(s, i), oid, t) == CountAlerts(s, oid, t)
  {
    assert s == s[..i] + ([s[i]] + s[i + 1..]);
    CountAlertsConcat(s[..i], [s[i]] + s[i + 1..], oid, t);
    CountAlertsConcat([s[i]], s[i + 1..], oid, t);
    CountAlertsConcat(s[..i], s[i + 1..], oid, t);
  }

  /** The first "like" entry about `oid`. */
  function FindLike(s: seq<Notification>, oid: Id): (r: Option<nat>)
    ensures r.Some? ==> r.value < |s| && IsAlert(s[r.value], oid, "like")
    ensures r.None? <==> CountAlerts(s, oid, "like") == 0
  {
    var r := FindFirst(s, (n: Notification) => IsAlert(n, oid, "like"));
    if r.None? then NoAlertsCounted(s, oid, "like"); r
    else CountAtLeastOne(s, r.value, oid, "like"); r
  }

  lemma {:induction false} NoAlertsCounted(s: seq<Notification>, oid: Id, t: string)
    requires forall j :: 0 <= j < |s| ==> !IsAlert(s[j], oid, t)
    ensures CountAlerts(s, oid, t) == 0
  {
    if s != [] {
      NoAlertsCounted(s[1..], oid, t);
    }
  }

  lemma {:induction false} CountAtLeastOne(s: seq<Notification>, i: nat, oid: Id, t: string)
    requires i < |s| && IsAlert(s[i], oid, t)
    ensures CountAlerts(s, oid, t) >= 1
  {
    if i > 0 {
      CountAtLeastOne(s[1..], i - 1, oid, t);
    }
  }

  /** The first entry about `oid`, whatever its type; entries without an `originalId` never match. */
  function FindOriginal(s: seq<Notification>, oid: Id): (r: Option<nat>)
    ensures r.Some? ==> r.value < |s| && s[r.value].payload.originalId == Some(oid)
    ensures r.Some? ==> forall j :: 0 <= j < r.value ==> s[j].payload.originalId != Some(oid)
    ensures r.None? ==> forall j :: 0 <= j < |s| ==> s[j].payload.originalId != Some(oid)
  {
    FindFirst(s, (n: Notification) => n.payload.originalId == Some(oid))
  }

  /**
   * The lookup of the remove path as written: it reads
   * `item.payload.originalId.toString()` on every entry it passes, so an
   * entry without an `originalId` (a friend notification) before the match
   * is a TypeError.
   */
  function FindOriginalAsWritten(s: seq<Notification>, oid: Id): (r: Result<Option<nat>>)
    ensures r.Success? ==> r.value == FindOriginal(s, oid)
    ensures r.Failure? ==> r.error == Crash
  {
    if s == [] then Success(None)
    else if s[0].payload.originalId.None? then Failure(Crash)
    else if s[0].payload.originalId == Some(oid) then Success(Some(0))
    else match FindOriginalAsWritten(s[1..], oid)
      case Failure(e) => Failure(e)
      case Success(None) => Success(None)
      case Success(Some(i)) => Success(Some(i + 1))
  }

  /** The entries without the one at `found`, if any. */
  function Without(s: seq<Notification>, found: Option<nat>): (r: seq<Notification>)
    requires found.Some? ==> found.value < |s|
  {
    if found.Some? then RemoveAt(s, found.value) else s
  }

  /** The aggregated like entry `notifyLikes` writes. */
  function LikeEntry(oid: Id, content: string, sourcePost: Id, userImage: string, message: string): (n: Notification)
    ensures IsAlert(n, oid, "like")
  {
    Notification(Payload(Some(oid), content, "like", None, Some(sourcePost), userImage), message)
  }

  /**
   * The recipient's inbox after `notifyLikes` for document `oid`, given
   * the number of likers left and the new entry.
   */
  function LikesNotified(inbox: Inbox, oid: Id, entry: Notification, likers: nat, action: Action): (r: Inbox)
    ensures r.count == if action == Add then inbox.count + 1 else inbox.count - 1
  {
    if likers == 0 && action == Remove then
      Inbox(inbox.count - 1, Without(inbox.content, FindOriginal(inbox.content, oid)))
    else
      Inbox(if action == Add then inbox.count + 1 else inbox.count - 1,
            [entry] + Without(inbox.content, FindLike(inbox.content, oid)))
  }

  /**
   * While likers remain, the new entry stands first, there is exactly one
   * like entry about `oid` when there was at most one before, and every
   * other entry stays, in order.
   */
  lemma LikeEntryReplaced(inbox: Inbox, oid: Id, entry: Notification, likers: nat, action: Action)
    requires IsAlert(entry, oid, "like")
    requires !(likers == 0 && action == Remove)
    ensures var r := LikesNotified(inbox, oid, entry, likers, action);
      |r.content| >= 1 && r.content[0] == entry &&
      CountAlerts(r.content, oid, "like") == (if CountAlerts(inbox.content, oid, "like") == 0 then 1 else CountAlerts(inbox.content, oid, "like")) &&
      OtherAlerts(r.content, oid, "like") == OtherAlerts(inbox.content, oid, "like")
  {
    var s := inbox.content;
    var rest := Without(s, FindLike(s, oid));
    var found := FindLike(s, oid);
    if found.Some? {
      RemoveAlertAt(s, found.value, oid, "like");
    }
    CountAlertsConcat([entry], rest, oid, "like");
  }

  /** Hence at most one like entry per document is kept. */
  lemma AtMostOneLikeEntry(inbox: Inbox, oid: Id, entry: Notification, likers: nat, action: Action)
    requires IsAlert(entry, oid, "like")
    requires CountAlerts(inbox.content, oid, "like") <= 1
    ensures CountAlerts(LikesNotified(inbox, oid, entry, likers, action).content, oid, "like") <= 1
    ensures !(likers == 0 && action == Remove) ==>
      CountAlerts(LikesNotified(inbox, oid, entry, likers, action).content, oid, "like") == 1
  {
    if likers == 0 && action == Remove {
      var s := inbox.content;
      var found := FindOriginal(s, oid);
      if found.Some? {
        if IsAlert(s[found.value], oid, "like") {
          RemoveAlertAt(s, found.value, oid, "like");
        } else {
          RemoveOtherAt(s, found.value, oid, "like");
        }
      }
    } else {
      LikeEntryReplaced(inbox, oid, entry, likers, action);
    }
  }

  /**
   * When the last liker goes, the first entry about `oid` (of any type) is
   * removed and nothing else; if that was the only one, none is left.
   */
  lemma LastLikeRemovesEntry(inbox: Inbox, oid: Id, entry: Notification)
    ensures var r := LikesNotified(inbox, oid, entry, 0, Remove);
      (forall j :: 0 <= j < |inbox.content| ==> inbox.content[j].payload.originalId != Some(oid)) ==> r.content == inbox.content
    ensures var r := LikesNotified(inbox, oid, entry, 0, Remove);
      (exists j :: 0 <= j < |inbox.content| && inbox.content[j].payload.originalId == Some(oid)) ==>
        |r.content| == |inbox.content| - 1
    ensures var r := LikesNotified(inbox, oid, entry, 0, Remove);
      (forall i, j :: 0 <= i < j < |inbox.content| ==>
        inbox.content[i].payload.originalId != Some(oid) || inbox.content[j].payload.originalId != Some(oid)) ==>
      forall k :: 0 <= k < |r.content| ==> r.content[k].payload.originalId != Some(oid)
  {
    var s := inbox.content;
    var found := FindOriginal(s, oid);
    if found.Some? {
      var i := found.value;
      var r := RemoveAt(s, i);
      forall k | 0 <= k < |r| && i <= k
        ensures (forall a, b :: 0 <= a < b < |s| ==> s[a].payload.originalId != Some(oid) || s[b].payload.originalId != Some(oid))
          ==> r[k].payload.originalId != Some(oid)
      {
        assert r[k] == s[k + 1];
      }
    }
  }

  /** The remove path as written, which can crash on the lookup. */
  function LastLikeRemovedAsWritten(inbox: Inbox, oid: Id): (r: Result<Inbox>)
    ensures r.Success? ==> r.value.count == inbox.count - 1
  {
    match FindOriginalAsWritten(inbox.content, oid)
    case Failure(e) => Failure(e)
    case Success(found) => Success(Inbox(inbox.count - 1, Without(inbox.content, found)))
  }

  /** An inbox whose only like entry sits behind a friend notification. */
  function FriendThenLike(oid: Id): Inbox {
    Inbox(2, [Notification(Payload(None, "", "friend request", Some(7), None, ""), "Ann Kay sent you a friend request"),
              LikeEntry(oid, "hello", oid, "", "")])
  }

  /**
   * Removing the last like on such an inbox crashes as written, while the
   * intended lookup finds and removes the like entry.
   */
  lemma LastLikeRemovalCrashesBehindFriendEntry(oid: Id, entry: Notification)
    ensures LastLikeRemovedAsWritten(FriendThenLike(oid), oid) == Failure(Crash)
    ensures LikesNotified(FriendThenLike(oid), oid, entry, 0, Remove).content == [FriendThenLike(oid).content[0]]
  {
    var s := FriendThenLike(oid).content;
    assert FindOriginal(s, oid) == Some(1) by {
      assert s[1].payload.originalId == Some(oid);
    }
    assert RemoveAt(s, 1) == [s[0]];
  }

  /** `LikesNotified` with the entry and the count `notifyLikes` derives from the likers. */
  function LikeNotice(inbox: Inbox, oid: Id, content: string, sourcePost: Id, userImage: string,
                      likers: seq<Author>, action: Action): (r: Inbox)
    ensures r.count == if action == Add then inbox.count + 1 else inbox.count - 1
    ensures |likers| > 0 || action == Add ==> |r.content| >= 1 && IsAlert(r.content[0], oid, "like")
  {
    LikesNotified(inbox, oid,
      LikeEntry(oid, content, sourcePost, userImage, GenerateMessage(Reacted(likers, [], []), Like).message),
      |likers|, action)
  }

  /**
   * Who `notifyLikes` notifies: the `creator` of a liked post, the `user`
   * of a liked comment or reply; nobody for any other type. The document
   * passed may lack the field read, which is a TypeError.
   */
  datatype Liked = Liked(creator: Option<Id>, user: Option<Id>, content: string)

  datatype Recipient = Skip | Missing | To(id: Id)

  function LikeRecipient(kind: string, target: Liked): (r: Recipient)
    ensures kind == "post" ==> r == (if target.creator.Some? then To(target.creator.value) else Missing)
    ensures kind == "comment" ==> r == (if target.user.Some? then To(target.user.value) else Missing)
    ensures kind != "post" && kind != "comment" ==> r == Skip
  {
    if kind == "post" then (if target.creator.Some? then To(target.creator.value) else Missing)
    else if kind == "comment" then (if target.user.Some? then To(target.user.value) else Missing)
    else Skip
  }

  /**
   * `notifyLikes(post, updatedPost, postId, type, action, sourcePost, senderImage)`:
   * `found` is the recipient document the lookup returned, `likers` the
   * populated likes of the updated document. Removing the last like takes
   * out the entry `FindOriginal` finds, the corrected half of
   * `LastLikeRemovalCrashesBehindFriendEntry`, where the scan as written
   * would throw on an earlier entry with no `originalId`.
   */
  method NotifyLikes(kind: string, target: Liked, likers: seq<Author>, oid: Id, action: Action,
                     sourcePost: Id, senderImage: string, found: User?) returns (r: Outcome)
    requires found != null ==> LikeRecipient(kind, target) == To(found.id)
    modifies found
    ensures LikeRecipient(kind, target) == Skip ==> r == Ok
    ensures LikeRecipient(kind, target) != Skip && found == null ==> r == Fail(Crash)
    ensures found != null ==> r == Ok
    ensures found != null ==>
      found.notifications == LikeNotice(old(found.notifications), oid, target.content, sourcePost, senderImage, likers, action)
    ensures OnlyChanged(found, {InboxPart})
  {
    var recipient := LikeRecipient(kind, target);
    if recipient == Skip {
      return Ok;
    }
    if found == null {
      return Fail(Crash);
    }
    var alert := GenerateMessage(Reacted(likers, [], []), Like);
    assert alert.count == |likers|;
    var inbox := found.notifications;
    if alert.count <= 0 && action == Remove {
      found.notifications := Inbox(inbox.count - 1, Without(inbox.content, FindOriginal(inbox.content, oid)));
      return Ok;
    }
    var entry := LikeEntry(oid, target.content, sourcePost, senderImage, alert.message);
    var count := if action == Add then inbox.count + 1 else inbox.count - 1;
    found.notifications := Inbox(count, [entry] + Without(inbox.content, FindLike(inbox.content, oid)));
    r := Ok;
  }

  /** The entry `notifyComment` writes for a comment on post `postId`. */
  function CommentEntry(postId: Id, content: string, sourcePost: Id, userImage: string, message: string): (n: Notification)
    ensures IsAlert(n, postId, "comment")
  {
    Notification(Payload(Some(postId), content, "comment", None, Some(sourcePost), userImage), message)
  }

  /**
   * The post creator's inbox after `notifyComment(..., "post", "add", ...)`:
   * the lookup for an existing entry matches the "like" entry, so a like
   * entry about the post is what gets replaced.
   */
  function CommentNotified(inbox: Inbox, postId: Id, entry: Notification): (r: Inbox)
    ensures r.count == inbox.count + 1
    ensures |r.content| >= 1 && r.content[0] == entry
  {
    Inbox(inbox.count + 1, [entry] + Without(inbox.content, FindLike(inbox.content, postId)))
  }

  /**
   * Each comment notice adds a comment entry about the post (they
   * accumulate) and takes away the like entry about it, if there was one.
   */
  lemma CommentEntriesAccumulate(inbox: Inbox, postId: Id, entry: Notification)
    requires IsAlert(entry, postId, "comment")
    ensures var r := CommentNotified(inbox, postId, entry).content;
      CountAlerts(r, postId, "comment") == CountAlerts(inbox.content, postId, "comment") + 1 &&
      CountAlerts(r, postId, "like") == (if CountAlerts(inbox.content, postId, "like") == 0 then 0 else CountAlerts(inbox.content, postId, "like") - 1)
  {
    var s := inbox.content;
    var found := FindLike(s, postId);
    if found.Some? {
      RemoveAlertAt(s, found.value, postId, "like");
      RemoveOtherAt(s, found.value, postId, "comment");
    }
    CountAlertsConcat([entry], Without(s, found), postId, "comment");
    CountAlertsConcat([entry], Without(s, found), postId, "like");
  }

  /** The fields of the post `notifyComment` reads. */
  datatype Commented = Commented(id: Id, creator: Id, content: string)

  /** `CommentNotified` with the entry `notifyComment` builds for `post`. */
  function CommentNotice(inbox: Inbox, postId: Id, post: Commented, sourcePost: Id, userImage: string,
                         commenters: seq<Author>): (r: Inbox)
    ensures r.count == inbox.count + 1
    ensures |r.content| >= 1 && IsAlert(r.content[0], post.id, "comment")
  {
    CommentNotified(inbox, postId,
      CommentEntry(post.id, post.content, sourcePost, userImage,
        GenerateMessage(Reacted([], commenters, []), CommentedOn).message))
  }

  /**
   * The inbox of a user document loaded by `User.findById(id, projection)`
   * for a one-path projection: present only when the projection names the
   * schema's `notifications` path.
   */
  function LoadedInbox(inbox: Inbox, projection: string): (r: Option<Inbox>)
    ensures r.Some? <==> projection == "notifications"
    ensures r.Some? ==> r.value == inbox
  {
    if projection == "notifications" then Some(inbox) else None
  }

  /**
   * `notifyComment` for type "post" as written: the creator is loaded with
   * the projection "notification", so the inbox is missing and the filter
   * over its entries throws; the creator's inbox stays as it was.
   */
  function CommentNoticeAsWritten(inbox: Inbox, postId: Id, post: Commented, sourcePost: Id, userImage: string,
                                  commenters: seq<Author>): (r: (Outcome, Inbox))
  {
    match LoadedInbox(inbox, "notification")
    case None => (Fail(Crash), inbox)
    case Some(loaded) => (Ok, CommentNotice(loaded, postId, post, sourcePost, userImage, commenters))
  }

  /**
   * For every comment on a post by someone other than its creator, the
   * code as written crashes and leaves the creator's inbox unchanged, where
   * the corrected lookup gives the creator one more counted comment entry.
   */
  lemma CommentOnPostCrashesAsWritten(inbox: Inbox, postId: Id, post: Commented, sourcePost: Id, userImage: string,
                                      commenters: seq<Author>)
    ensures CommentNoticeAsWritten(inbox, postId, post, sourcePost, userImage, commenters) == (Fail(Crash), inbox)
    ensures LoadedInbox(inbox, "notifications") == Some(inbox)
    ensures CommentNotice(inbox, postId, post, sourcePost, userImage, commenters) != inbox
  {
    var corrected := CommentNotice(inbox, postId, post, sourcePost, userImage, commenters);
    assert corrected.count == inbox.count + 1;
  }

  /**
   * `notifyComment(post, updatedPost, postId, type, "add", sourcePost, senderImage)`,
   * with the creator loaded through the `notifications` path (the corrected
   * half of `CommentOnPostCrashesAsWritten`):
   * only type "post" notifies (the creator); "comment" and "reply" fall
   * through to the default case and return. `commenters` are the populated
   * comment authors of the updated post.
   */
  method NotifyComment(kind: string, post: Commented, commenters: seq<Author>, postId: Id,
                       sourcePost: Id, senderImage: string, found: User?) returns (r: Outcome)
    requires found != null ==> kind == "post" && found.id == post.creator
    modifies found
    ensures kind != "post" ==> r == Ok
    ensures kind == "post" && found == null ==> r == Fail(Crash)
    ensures found != null ==> r == Ok
    ensures found != null ==>
      found.notifications == CommentNotice(old(found.notifications), postId, post, sourcePost, senderImage, commenters)
    ensures OnlyChanged(found, {InboxPart})
  {
    if kind != "post" {
      return Ok;
    }
    if found == null {
      return Fail(Crash);
    }
    var alert := GenerateMessage(Reacted([], commenters, []), CommentedOn);
    var entry := CommentEntry(post.id, post.content, sourcePost, senderImage, alert.message);
    var existing := FindLike(found.notifications.content, postId);
    if existing.Some? {
      found.notifications := found.notifications.(content := RemoveAt(found.notifications.content, existing.value));
    }
    found.notifications := found.notifications.(content := [entry] + found.notifications.content);
    found.notifications := found.notifications.(count := found.notifications.count + 1);
    r := Ok;
  }

  /** An entry about user `fid`, of type `t`. */
  function FriendEntry(fid: Id, t: string, userImage: string, message: string): (n: Notification)
    ensures IsFriendAlert(n, fid, t)
  {
    Notification(Payload(None, "", t, Some(fid), None, userImage), message)
  }

  /** Add an entry at the front and count it, unless `present`. */
  function FriendNotified(inbox: Inbox, present: bool, entry: Notification): (r: Inbox)
    ensures present ==> r == inbox
    ensures !present ==> r.count == inbox.count + 1 && r.content == [entry] + inbox.content
  {
    if present then inbox else Inbox(inbox.count + 1, [entry] + inbox.content)
  }

  /**
   * Adding a friend entry only when none of its kind is there keeps at most
   * one, and leaves exactly one.
   */
  lemma FriendEntryOnce(inbox: Inbox, fid: Id, t: string, entry: Notification)
    requires IsFriendAlert(entry, fid, t)
    requires CountFriendAlerts(inbox.content, fid, t) <= 1
    ensures CountFriendAlerts(FriendNotified(inbox, CountFriendAlerts(inbox.content, fid, t) > 0, entry).content, fid, t) == 1
  {
    var s := inbox.content;
    if CountFriendAlerts(s, fid, t) == 0 {
      assert ([entry] + s)[1..] == s;
    }
  }

  function RequestSentMessage(receiver: Name): string {
    "You send " + FullName(receiver) + " a friend request"
  }

  function RequestReceivedMessage(sender: Name): string {
    FullName(sender) + " sent you a friend request"
  }

  function NowFriendsMessage(other: Name): string {
    "You and " + FullName(other) + " are now friends"
  }

  /**
   * `notifyFriendRequest(currentUser, receivingUser, type)`. The sender's
   * guard compares `payload.alert`, a field no entry has, so the sender
   * always gets a new entry; the receiver's guard looks for type "request".
   */
  method NotifyFriendRequest(current: User, receiving: User, t: string)
    requires current != receiving
    modifies current, receiving
    ensures current.notifications ==
      FriendNotified(old(current.notifications), false,
        FriendEntry(receiving.id, t, receiving.profileImage, RequestSentMessage(receiving.name)))
    ensures receiving.notifications ==
      FriendNotified(old(receiving.notifications), CountFriendAlerts(old(receiving.notifications.content), current.id, "request") > 0,
        FriendEntry(current.id, t, current.profileImage, RequestReceivedMessage(current.name)))
    ensures OnlyChanged(current, {InboxPart}) && OnlyChanged(receiving, {InboxPart})
  {
    var receiverHas := CountFriendAlerts(receiving.notifications.content, current.id, "request") > 0;
    var entry := FriendEntry(receiving.id, t, receiving.profileImage, RequestSentMessage(receiving.name));
    current.notifications := current.notifications.(content := [entry] + current.notifications.content);
    current.notifications := current.notifications.(count := current.notifications.count + 1);
    if !receiverHas {
      var back := FriendEntry(current.id, t, current.profileImage, RequestReceivedMessage(current.name));
      receiving.notifications := receiving.notifications.(content := [back] + receiving.notifications.content);
      receiving.notifications := receiving.notifications.(count := receiving.notifications.count + 1);
    }
  }

  /** `notifyFriend(currentUser, requestingUser, type)`: each side is guarded by an entry about the other of type `t`. */
  method NotifyFriend(current: User, requesting: User, t: string)
    requires current != requesting
    modifies current, requesting
    ensures current.notifications ==
      FriendNotified(old(current.notifications), CountFriendAlerts(old(current.notifications.content), requesting.id, t) > 0,
        FriendEntry(requesting.id, t, requesting.profileImage, NowFriendsMessage(requesting.name)))
    ensures requesting.notifications ==
      FriendNotified(old(requesting.notifications), CountFriendAlerts(old(requesting.notifications.content), current.id, t) > 0,
        FriendEntry(current.id, t, current.profileImage, NowFriendsMessage(current.name)))
    ensures OnlyChanged(current, {InboxPart}) && OnlyChanged(requesting, {InboxPart})
  {
    var currentHas := CountFriendAlerts(current.notifications.content, requesting.id, t) > 0;
    var requestingHas := CountFriendAlerts(requesting.notifications.content, current.id, t) > 0;
    if !currentHas {
      var entry := FriendEntry(requesting.id, t, requesting.profileImage, NowFriendsMessage(requesting.name));
      current.notifications := current.notifications.(content := [entry] + current.notifications.content);
      current.notifications := current.notifications.(count := current.notifications.count + 1);
    }
    if !requestingHas {
      var entry := FriendEntry(current.id, t, current.profileImage, NowFriendsMessage(current.name));
      requesting.notifications := requesting.notifications.(content := [entry] + requesting.notifications.content);
      requesting.notifications := requesting.notifications.(count := requesting.notifications.count + 1);
    }
  }

  /**
   * `acceptRequest` calls `notifyFriend` with type "friend request", the
   * type of the entries `notifyFriendRequest` left: an inbox that still
   * holds the request entry about the other user gets no "now friends"
   * entry and no count.
   */
  lemma RequestEntryBlocksFriendNotice(inbox: Inbox, fid: Id, k: nat, entry: Notification)
    requires k < |inbox.content| && IsFriendAlert(inbox.content[k], fid, "friend request")
    ensures CountFriendAlerts(inbox.content, fid, "friend request") > 0
    ensures FriendNotified(inbox, CountFriendAlerts(inbox.content, fid, "friend request") > 0, entry) == inbox
  {
  }
}
