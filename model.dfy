/**
 * The documents of the social network for pharmacists: users with their
 * friends, friend requests, notification inbox and message counters; posts
 * with embedded comments, replies and likes; chat rooms and single chats;
 * and the three kinds of business listing (demands, joint purchases and
 * sales at a discount).
 *
 * A class stands for a document whose fields the controllers update in
 * place and then save; an embedded sub-document is a datatype value.
 */
module Model {
  import opened Seqs

  /** A database id (a Mongo ObjectId); ids are only compared for equality. */
  type Id = nat

  /** How a request that does not succeed ends. */
  datatype Error =
      /** `errorHandler` raised with this message; the request ends with it. */
    | Abort(message: string)
      /** The controller answered early with this status and message. */
    | Refused(status: int, message: string)
      /** A TypeError or ReferenceError, caught by the controller's catch. */
    | Crash

  datatype Outcome = Ok | Fail(error: Error)

  datatype Result<+T> = Success(value: T) | Failure(error: Error)

  datatype Name = Name(firstName: string, lastName: string)

  /** The `fullName` virtual of a user: first name, a space, last name. */
  function FullName(n: Name): (r: string)
    ensures |r| == |n.firstName| + 1 + |n.lastName|
    ensures r[|n.firstName|] == ' '
    ensures r[..|n.firstName|] == n.firstName && r[|n.firstName| + 1..] == n.lastName
  {
    n.firstName + " " + n.lastName
  }

  /** An uploaded image: its public url and the id the image host knows it by. */
  datatype Image = Image(imageUrl: Option<string>, imageId: Option<Id>)

  /**
   * The `imageId` read through a comment's `postImage`. The schema declares
   * `postImage` as a nested path, which reads as an object whether or not an
   * image was attached, so a comment without one has an undefined id.
   */
  function PostImageId(image: Option<Image>): (r: Option<Id>)
    ensures image.None? ==> r.None?
    ensures image.Some? ==> r == image.value.imageId
  {
    if image.Some? then image.value.imageId else None
  }

  const NoImage := Image(None, None)

  /** A notification's payload; every field but `alertType` may be absent. */
  datatype Payload = Payload(
    originalId: Option<Id>,
    content: string,
    alertType: string,
    friendId: Option<Id>,
    sourcePost: Option<Id>,
    userImage: string)

  datatype Notification = Notification(payload: Payload, message: string)

  /** `user.notification`: an unread counter (never floored) and the newest-first entries. */
  datatype Inbox = Inbox(count: int, content: seq<Notification>)

  /** One pending friend request: its own id and the user who sent it. */
  datatype FriendRequest = FriendRequest(id: Id, user: Id)

  datatype Requests = Requests(count: int, content: seq<FriendRequest>)

  /** `user.messages`: an unread counter and the ids of the user's chats, newest first. */
  datatype Messages = Messages(count: int, singleChats: seq<Id>, chatrooms: seq<Id>)

  class User {
    const id: Id
    const name: Name
    var profileImage: string
    var friends: seq<Id>
    var posts: seq<Id>
    var notifications: Inbox
    var requests: Requests
    var messages: Messages

    /** A new account: no friends, no posts, nothing pending, every counter at zero. */
    constructor (id: Id, name: Name, profileImage: string)
      ensures this.id == id && this.name == name && this.profileImage == profileImage
      ensures friends == [] && posts == []
      ensures notifications == Inbox(0, [])
      ensures requests == Requests(0, [])
      ensures messages == Messages(0, [], [])
    {
      this.id := id;
      this.name := name;
      this.profileImage := profileImage;
      friends := [];
      posts := [];
      notifications := Inbox(0, []);
      requests := Requests(0, []);
      messages := Messages(0, [], []);
    }
  }

  /** The parts of a user document the controllers change. */
  datatype Part = FriendsPart | PostsPart | InboxPart | RequestsPart | MessagesPart

  /** Of the user `u` (if any), only the `parts` named may have changed; the profile image never does. */
  twostate predicate OnlyChanged(u: User?, parts: set<Part>)
    reads u
  {
    u != null ==>
      u.profileImage == old(u.profileImage) &&
      (FriendsPart !in parts ==> u.friends == old(u.friends)) &&
      (PostsPart !in parts ==> u.posts == old(u.posts)) &&
      (InboxPart !in parts ==> u.notifications == old(u.notifications)) &&
      (RequestsPart !in parts ==> u.requests == old(u.requests)) &&
      (MessagesPart !in parts ==> u.messages == old(u.messages))
  }

  /**
   * The users a fan-out loop finds by id: each entry is the user with
   * that id. An id with no entry is an account that no longer exists.
   */
  predicate Directory(users: map<Id, User>) {
    forall k :: k in users ==> users[k].id == k
  }

  datatype Reply = Reply(
    id: Id,
    user: Id,
    content: string,
    image: Image,
    edited: Option<int>,
    likes: seq<Id>)

  datatype Comment = Comment(
    id: Id,
    user: Id,
    content: string,
    image: Option<Image>,
    edited: Option<int>,
    likes: seq<Id>,
    replies: seq<Reply>)

  class Post {
    const id: Id
    const creator: Id
    var content: string
    var image: Image
    var edited: Option<int>
    var likes: seq<Id>
    var comments: seq<Comment>

    /** Nobody likes the post, one of its comments or one of their replies twice. */
    ghost predicate LikesOnce()
      reads this
    {
      NoDup(likes) && forall i :: 0 <= i < |comments| ==> CommentLikesOnce(comments[i])
    }

    /** A new post by `creator`, not yet liked or commented on. */
    constructor (id: Id, creator: Id, content: string, image: Image)
      ensures this.id == id && this.creator == creator
      ensures this.content == content && this.image == image
      ensures edited == None && likes == [] && comments == []
      ensures LikesOnce()
    {
      this.id := id;
      this.creator := creator;
      this.content := content;
      this.image := image;
      edited := None;
      likes := [];
      comments := [];
    }
  }

  /** Nobody likes a comment, or a reply under it, twice. */
  ghost predicate CommentLikesOnce(c: Comment) {
    NoDup(c.likes) && forall j :: 0 <= j < |c.replies| ==> NoDup(c.replies[j].likes)
  }

  /**
   * A request to the image host to delete an upload: by its id, or, as
   * `deleteComment` does for replies, with the whole image record.
   */
  datatype Release = ReleaseId(imageId: Option<Id>) | ReleaseObject(image: Image)

  /** Nothing but the likes and comments of `p` (if any) may have changed. */
  twostate predicate OnlyReactionsChanged(p: Post?)
    reads p
  {
    p != null ==>
      p.content == old(p.content) && p.image == old(p.image) && p.edited == old(p.edited)
  }

  datatype ChatMessage = ChatMessage(user: Id, message: string)

  class ChatRoom {
    const id: Id
    const title: string
    const admin: Id
    var users: seq<Id>
    var messages: seq<ChatMessage>

    /** A room's member list holds each member once. */
    ghost predicate Valid()
      reads this
    {
      NoDup(users)
    }

    constructor (id: Id, title: string, admin: Id, users: seq<Id>)
      requires NoDup(users)
      ensures this.id == id && this.title == title && this.admin == admin
      ensures this.users == users && messages == []
      ensures Valid()
    {
      this.id := id;
      this.title := title;
      this.admin := admin;
      this.users := users;
      messages := [];
    }
  }

  class Chat {
    const id: Id
    var users: seq<Id>
    var messages: seq<ChatMessage>

    constructor (id: Id, users: seq<Id>)
      ensures this.id == id && this.users == users && messages == []
    {
      this.id := id;
      this.users := users;
      messages := [];
    }
  }

  /** An interested party of a demand and the price they offer. */
  datatype Bid = Bid(user: Id, price: int)

  /** A buyer of a sale at a discount and the quantity they take. */
  datatype Order = Order(user: Id, quantity: int)

  class Demand {
    const id: Id
    const creator: Id
    var partners: seq<Bid>
    var status: bool

    /** Each user declares interest in a demand at most once. */
    ghost predicate Valid()
      reads this
    {
      forall i, j :: 0 <= i < j < |partners| ==> partners[i].user != partners[j].user
    }

    constructor (id: Id, creator: Id)
      ensures this.id == id && this.creator == creator
      ensures partners == [] && !status
      ensures Valid()
    {
      this.id := id;
      this.creator := creator;
      partners := [];
      status := false;
    }
  }

  class JointPurchase {
    const id: Id
    const creator: Id
    var partners: seq<Id>
    var status: bool

    /** A joint purchase's partner list holds each partner once. */
    ghost predicate Valid()
      reads this
    {
      NoDup(partners)
    }

    constructor (id: Id, creator: Id)
      ensures this.id == id && this.creator == creator
      ensures partners == [creator] && !status
      ensures Valid()
    {
      this.id := id;
      this.creator := creator;
      partners := [creator];
      status := false;
    }
  }

  class SaleAtDiscount {
    const id: Id
    const creator: Id
    var partners: seq<Order>
    var status: bool

    /** Nobody takes a negative quantity. */
    ghost predicate Valid()
      reads this
    {
      forall i :: 0 <= i < |partners| ==> partners[i].quantity >= 0
    }

    constructor (id: Id, creator: Id)
      ensures this.id == id && this.creator == creator
      ensures partners == [] && !status
      ensures Valid()
    {
      this.id := id;
      this.creator := creator;
      partners := [];
      status := false;
    }
  }
}
