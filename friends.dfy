/**
 * The friend-request lifecycle of controller/user.js: sending, declining,
 * accepting and cancelling a request, and removing a friend.
 *
 * `current` is the acting user (`req.body.userId`); the other user is the
 * one `req.body.friendId` names. Either is `null` when its lookup found
 * nothing. The two lookups load two separate documents, so when both are
 * found they are distinct objects, whatever their ids. `newId` is the id
 * the database gives a new request entry.
 */
module Friends {
  import opened Seqs
  import opened Model
  import opened Notices

  /** The users who sent the pending requests, in order. */
  function Senders(rs: seq<FriendRequest>): (r: seq<Id>)
    ensures |r| == |rs|
    ensures forall i :: 0 <= i < |rs| ==> r[i] == rs[i].user
  {
    seq(|rs|, i requires 0 <= i < |rs| => rs[i].user)
  }

  /** The ids of the pending requests, in order. */
  function RequestIds(rs: seq<FriendRequest>): (r: seq<Id>)
    ensures |r| == |rs|
    ensures forall i :: 0 <= i < |rs| ==> r[i] == rs[i].id
  {
    seq(|rs|, i requires 0 <= i < |rs| => rs[i].id)
  }

  /** `requests.content.pull(requestId)`: the request with that id goes, the others keep their order. */
  function PullRequest(rs: seq<FriendRequest>, id: Id): (r: seq<FriendRequest>)
    ensures forall q :: q in r <==> q in rs && q.id != id
    ensures id !in RequestIds(r)
  {
    if rs == [] then []
    else if rs[0].id == id then PullRequest(rs[1..], id)
    else [rs[0]] + PullRequest(rs[1..], id)
  }

  /** The filter of `cancelFriendRequest`: every request sent by `u` goes, the others keep their order. */
  function WithoutSender(rs: seq<FriendRequest>, u: Id): (r: seq<FriendRequest>)
    ensures forall q :: q in r <==> q in rs && q.user != u
    ensures u !in Senders(r)
  {
    if rs == [] then []
    else if rs[0].user == u then WithoutSender(rs[1..], u)
    else [rs[0]] + WithoutSender(rs[1..], u)
  }

  /** Declining the request just sent gives back the receiver's earlier pending list. */
  lemma {:induction false} DeclineUndoesSend(rs: seq<FriendRequest>, q: FriendRequest)
    requires q.id !in RequestIds(rs)
    ensures PullRequest(rs + [q], q.id) == rs
  {
    if rs == [] {
      assert [q][1..] == [];
    } else {
      assert RequestIds(rs)[0] == rs[0].id;
      assert q.id !in RequestIds(rs[1..]) by {
        forall i | 0 <= i < |rs[1..]| ensures RequestIds(rs[1..])[i] != q.id {
          assert RequestIds(rs)[i + 1] == rs[i + 1].id;
        }
      }
      assert (rs + [q])[1..] == rs[1..] + [q];
      DeclineUndoesSend(rs[1..], q);
    }
  }

  /** Cancelling the request just sent gives back the receiver's earlier pending list. */
  lemma {:induction false} CancelUndoesSend(rs: seq<FriendRequest>, q: FriendRequest)
    requires q.user !in Senders(rs)
    ensures WithoutSender(rs + [q], q.user) == rs
  {
    if rs == [] {
      assert [q][1..] == [];
    } else {
      assert Senders(rs)[0] == rs[0].user;
      assert q.user !in Senders(rs[1..]) by {
        forall i | 0 <= i < |rs[1..]| ensures Senders(rs[1..])[i] != q.user {
          assert Senders(rs)[i + 1] == rs[i + 1].user;
        }
      }
      assert (rs + [q])[1..] == rs[1..] + [q];
      CancelUndoesSend(rs[1..], q);
    }
  }

  /** Cancelling twice is cancelling once. */
  lemma {:induction false} CancelIdempotent(rs: seq<FriendRequest>, u: Id)
    ensures WithoutSender(WithoutSender(rs, u), u) == WithoutSender(rs, u)
  {
    if rs != [] {
      CancelIdempotent(rs[1..], u);
      if rs[0].user != u {
        assert ([rs[0]] + WithoutSender(rs[1..], u))[1..] == WithoutSender(rs[1..], u);
      }
    }
  }

  /** The two users are on each other's friend list, or on neither. */
  predicate Mutual(a: User, b: User)
    reads a, b
  {
    (b.id in a.friends) <==> (a.id in b.friends)
  }

  /**
   * `sendRequest`. The three refusals (a request already pending in either
   * direction, or an existing friendship) change nothing; otherwise both
   * sides are notified and the receiver holds one more pending request.
   */
  method SendRequest(current: User?, receiving: User?, userId: Id, friendId: Id, newId: Id) returns (r: Outcome)
    requires current != null ==> current.id == userId
    requires receiving != null ==> receiving.id == friendId
    requires current != null && receiving != null ==> current != receiving
    modifies current, receiving
    ensures receiving == null ==> r == Fail(Abort("No user found"))
    ensures receiving != null && current == null ==> r == Fail(Abort("not authorized"))
    ensures receiving != null && current != null && friendId in Senders(old(current.requests.content)) ==>
      r == Fail(Refused(500, "you already have a pending request"))
    ensures (receiving != null && current != null && friendId !in Senders(old(current.requests.content)) &&
             userId in Senders(old(receiving.requests.content))) ==>
      r == Fail(Refused(500, "request sent already"))
    ensures (receiving != null && current != null && friendId !in Senders(old(current.requests.content)) &&
             userId !in Senders(old(receiving.requests.content)) && friendId in current.friends) ==>
      r == Fail(Abort("already friends with this user"))
    ensures (receiving != null && current != null && friendId !in Senders(old(current.requests.content)) &&
             userId !in Senders(old(receiving.requests.content)) && friendId !in old(current.friends)) ==> r == Ok
    ensures r.Fail? ==> OnlyChanged(current, {}) && OnlyChanged(receiving, {})
    ensures r.Ok? ==>
      current != null && receiving != null &&
      friendId !in Senders(old(current.requests.content)) &&
      userId !in Senders(old(receiving.requests.content)) && friendId !in current.friends &&
      receiving.requests ==
        Requests(old(receiving.requests.count) + 1, old(receiving.requests.content) + [FriendRequest(newId, userId)]) &&
      userId in Senders(receiving.requests.content) &&
      current.notifications ==
        FriendNotified(old(current.notifications), false,
          FriendEntry(friendId, "friend request", receiving.profileImage, RequestSentMessage(receiving.name))) &&
      receiving.notifications ==
        FriendNotified(old(receiving.notifications),
          CountFriendAlerts(old(receiving.notifications.content), userId, "request") > 0,
          FriendEntry(userId, "friend request", current.profileImage, RequestReceivedMessage(current.name)))
    ensures OnlyChanged(current, {InboxPart}) && OnlyChanged(receiving, {InboxPart, RequestsPart})
  {
    if receiving == null {
      return Fail(Abort("No user found"));
    }
    if current == null {
      return Fail(Abort("not authorized"));
    }
    if friendId in Senders(current.requests.content) {
      return Fail(Refused(500, "you already have a pending request"));
    }
    if userId in Senders(receiving.requests.content) {
      return Fail(Refused(500, "request sent already"));
    }
    if friendId in current.friends {
      return Fail(Abort("already friends with this user"));
    }
    NotifyFriendRequest(current, receiving, "friend request");
    var sent := receiving.requests.content + [FriendRequest(newId, userId)];
    assert Senders(sent)[|sent| - 1] == userId;
    receiving.requests := Requests(receiving.requests.count + 1, sent);
    r := Ok;
  }

  /** `declineRequest`: a pending request goes; the counter drops by one unless it is already 0. */
  method DeclineRequest(user: User?, requestId: Id) returns (r: Outcome)
    modifies user
    ensures user == null ==> r == Fail(Abort("not authorized"))
    ensures user != null && requestId !in RequestIds(old(user.requests.content)) ==>
      r == Fail(Abort("friend request not found"))
    ensures user != null && requestId in RequestIds(old(user.requests.content)) ==> r == Ok
    ensures r.Fail? ==> OnlyChanged(user, {})
    ensures r.Ok? ==>
      user != null && requestId in RequestIds(old(user.requests.content)) &&
      user.requests == Requests(
        if old(user.requests.count) != 0 then old(user.requests.count) - 1 else 0,
        PullRequest(old(user.requests.content), requestId))
    ensures user != null && old(user.requests.count) >= 0 ==> user.requests.count >= 0
    ensures OnlyChanged(user, {RequestsPart})
  {
    if user == null {
      return Fail(Abort("not authorized"));
    }
    if requestId !in RequestIds(user.requests.content) {
      return Fail(Abort("friend request not found"));
    }
    var count := if user.requests.count != 0 then user.requests.count - 1 else 0;
    user.requests := Requests(count, PullRequest(user.requests.content, requestId));
    r := Ok;
  }

  /** Each user joins the end of the other's friends; mutual, repeat-free lists stay so. */
  method Befriend(a: User, b: User)
    requires a != b && b.id !in a.friends
    modifies a, b
    ensures a.friends == old(a.friends) + [b.id] && b.friends == old(b.friends) + [a.id]
    ensures old(Mutual(a, b)) ==> Mutual(a, b)
    ensures old(Mutual(a, b) && NoDup(a.friends) && NoDup(b.friends)) ==> NoDup(a.friends) && NoDup(b.friends)
    ensures OnlyChanged(a, {FriendsPart}) && OnlyChanged(b, {FriendsPart})
  {
    if NoDup(a.friends) {
      SnocNoDup(a.friends, b.id);
    }
    if NoDup(b.friends) && a.id !in b.friends {
      SnocNoDup(b.friends, a.id);
    }
    a.friends := a.friends + [b.id];
    b.friends := b.friends + [a.id];
  }

  /**
   * `acceptRequest`: each user joins the other's friends, the acceptor's
   * counter drops by one with no floor and the request id is pulled (the
   * request need not exist), and both sides are told they are now friends.
   * Only the acceptor's list is checked for an existing friendship, which
   * is enough to keep both lists free of repeats while friendship is mutual.
   */
  method AcceptRequest(current: User?, requesting: User?, userId: Id, friendId: Id, requestId: Id) returns (r: Outcome)
    requires current != null ==> current.id == userId
    requires requesting != null ==> requesting.id == friendId
    requires current != null && requesting != null ==> current != requesting
    modifies current, requesting
    ensures current == null ==> r == Fail(Abort("not authorized"))
    ensures current != null && requesting == null ==> r == Fail(Abort("No user found"))
    ensures current != null && requesting != null && friendId in old(current.friends) ==>
      r == Fail(Abort("you are friends already"))
    ensures current != null && requesting != null && friendId !in old(current.friends) ==> r == Ok
    ensures r.Fail? ==> OnlyChanged(current, {}) && OnlyChanged(requesting, {})
    ensures r.Ok? ==>
      current != null && requesting != null && friendId !in old(current.friends) &&
      current.friends == old(current.friends) + [friendId] &&
      requesting.friends == old(requesting.friends) + [userId] &&
      current.requests ==
        Requests(old(current.requests.count) - 1, PullRequest(old(current.requests.content), requestId)) &&
      current.notifications ==
        FriendNotified(old(current.notifications),
          CountFriendAlerts(old(current.notifications.content), friendId, "friend request") > 0,
          FriendEntry(friendId, "friend request", requesting.profileImage, NowFriendsMessage(requesting.name))) &&
      requesting.notifications ==
        FriendNotified(old(requesting.notifications),
          CountFriendAlerts(old(requesting.notifications.content), userId, "friend request") > 0,
          FriendEntry(userId, "friend request", current.profileImage, NowFriendsMessage(current.name)))
    ensures current != null && requesting != null && old(Mutual(current, requesting)) ==>
      Mutual(current, requesting)
    ensures (current != null && requesting != null &&
             old(Mutual(current, requesting) && NoDup(current.friends) && NoDup(requesting.friends))) ==>
      NoDup(current.friends) && NoDup(requesting.friends)
    ensures OnlyChanged(current, {FriendsPart, RequestsPart, InboxPart})
    ensures OnlyChanged(requesting, {FriendsPart, InboxPart})
  {
    if current == null {
      return Fail(Abort("not authorized"));
    }
    if requesting == null {
      return Fail(Abort("No user found"));
    }
    if friendId in current.friends {
      return Fail(Abort("you are friends already"));
    }
    Befriend(current, requesting);
    current.requests := Requests(current.requests.count - 1, PullRequest(current.requests.content, requestId));
    NotifyFriend(current, requesting, "friend request");
    r := Ok;
  }

  /** `cancelFriendRequest`: every request from the caller leaves the friend's list; the counter drops by one when above 0. */
  method CancelFriendRequest(friend: User?, userId: Id) returns (r: Outcome)
    modifies friend
    ensures friend == null ==> r == Fail(Abort("user not found")) && OnlyChanged(friend, {})
    ensures friend != null ==>
      r == Ok &&
      friend.requests == Requests(
        if old(friend.requests.count) > 0 then old(friend.requests.count) - 1 else old(friend.requests.count),
        WithoutSender(old(friend.requests.content), userId)) &&
      userId !in Senders(friend.requests.content)
    ensures friend != null && old(friend.requests.count) >= 0 ==> friend.requests.count >= 0
    ensures OnlyChanged(friend, {RequestsPart})
  {
    if friend == null {
      return Fail(Abort("user not found"));
    }
    var count := if friend.requests.count > 0 then friend.requests.count - 1 else friend.requests.count;
    friend.requests := Requests(count, WithoutSender(friend.requests.content, userId));
    r := Ok;
  }

  /** `removeFriend`: each user leaves the other's friend list; nothing else changes. */
  method RemoveFriend(current: User?, friend: User?, userId: Id, friendId: Id) returns (r: Outcome)
    requires current != null ==> current.id == userId
    requires friend != null ==> friend.id == friendId
    requires current != null && friend != null ==> current != friend
    modifies current, friend
    ensures friend == null ==> r == Fail(Abort("No user found"))
    ensures friend != null && (current == null || friendId !in old(current.friends)) ==>
      r == Fail(Abort("friend not found"))
    ensures current != null && friend != null && friendId in old(current.friends) ==> r == Ok
    ensures r.Fail? ==> OnlyChanged(current, {}) && OnlyChanged(friend, {})
    ensures r.Ok? ==>
      current != null && friend != null && friendId in old(current.friends) &&
      current.friends == Pull(old(current.friends), friendId) &&
      friend.friends == Pull(old(friend.friends), userId) &&
      friendId !in current.friends && userId !in friend.friends
    ensures current != null && friend != null && old(Mutual(current, friend)) ==> Mutual(current, friend)
    ensures OnlyChanged(current, {FriendsPart}) && OnlyChanged(friend, {FriendsPart})
  {
    if friend == null {
      return Fail(Abort("No user found"));
    }
    if current == null || friendId !in current.friends {
      return Fail(Abort("friend not found"));
    }
    current.friends := Pull(current.friends, friendId);
    friend.friends := Pull(friend.friends, userId);
    r := Ok;
  }
}
