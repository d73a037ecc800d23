# Pharmapool server: reactions, notifications, friends, chats and group buying

Pharmapool is an Express/Mongoose back end for a social network of
pharmacists. Users write posts; others like them, comment on them and reply
to the comments, and each reaction leaves an aggregated notification in the
author's inbox ("Bob Lee and Ann Kay like your post"). Users send, accept,
decline and cancel friend requests, exchange direct messages and talk in
chatrooms that an admin manages. Business posts (product demands, joint
purchases, sales at a discount) collect lists of interested partners.

This project models the in-memory bookkeeping that the controllers do on
those documents once each database read is replaced by the document it
returns:

- `Model` (model.dfy): the documents. Users, posts, chatrooms, single chats,
  demands, joint purchases and sales at a discount are classes whose fields
  the operations update. Comments, replies, inbox entries, friend requests,
  bids and orders are datatypes kept in sequence fields. Ids are natural
  numbers compared for equality; counters are `int`, because several paths
  decrement them without a floor.
- `Seqs` (seqs.dfy): Mongoose's `pull` (remove every equal element), and
  the move-to-front that a pull followed by an unshift performs, with their
  laws.
- `Alerts` (alerts.dfy): `generateMessage`, the aggregated text and actor
  count.
- `Notices` (notices.dfy): `notifyLikes`, `notifyComment`,
  `notifyFriendRequest` and `notifyFriend` on a user's inbox.
- `PostLookup` and `ChatGuards`: the lookups of util/post.js and the checks
  of util/chat.js, as functions returning a result or an error.
- `Feed`: likes, comments and replies on posts (controller/feed.js).
- `Posts`, `Friends`, `Chats`: the post, friend-request and chat handlers of
  controller/user.js.
- `Business`: the partner lists of controller/business.js.

A lookup that finds nothing is a `null` argument. A request ends in `Ok` or
in a failure. `Abort` and `Refused` come before any change. A `Crash` can
come after a change the handler has already saved: several handlers update
the post and then throw while notifying, and their contracts state the
saved state alongside the `Crash`.

- `Abort(msg)` is a call to the error handler;
- `Refused(status, msg)` is an early `res.status(..).json(..)` reply;
- `Crash` is a TypeError or ReferenceError the code would throw.

Each state-changing handler is a method whose postcondition gives the
outcome in both directions, each refusal with its error and `Ok` for every
request that passes all the checks. It also gives the whole new state:
which fields of which documents change, as a function of the old ones.
`OnlyChanged(u, parts)` says that a user document changed in the listed
parts and nowhere else. Image uploads, the edit times of `updatePost` and
`editComment`, and new database ids are parameters. The releases sent to
the image host are returned as a sequence of `ReleaseId` values.

`clearMessageCount` in controller/user.js does what `clearMessagesCount` in
controller/feed.js does, so one method, `Feed.ClearMessagesCount`, models
both.

## Model

| member | source | states |
|---|---|---|
| Model.FullName | model/user.js:184-187 | the full name is the first name, a space, then the last name |
| Seqs.Pull | controller/feed.js:315-326 | the result holds exactly the values of the list other than the pulled one, and is shorter by the number of its occurrences |
| Seqs.PullAfterPush | controller/feed.js:249-261 | pulling a value just pushed onto a list that lacked it gives the list back |
| Seqs.PullAfterUnshift | controller/feed.js:386-399 | pulling a value just unshifted onto a list that lacked it gives the list back |
| Seqs.PullKeepsOthers | controller/user.js:458-468 | a pull leaves the number of occurrences of every other value unchanged |
| Seqs.PullKeepsNoDup | controller/user.js:458-468 | pulling from a duplicate-free list keeps it duplicate-free |
| Seqs.PullMemberOnce | controller/user.js:458-468 | in a duplicate-free list a member occurs once, and pulling it removes exactly one element |
| Seqs.MoveToFront | controller/user.js:826-856 | the value ends first, and the list holds the values it held before plus that one |
| Seqs.MoveToFrontIdempotent | controller/user.js:826-856 | moving the same value to the front twice is the same as once |
| Seqs.MoveToFrontNoDup | controller/user.js:826-856 | on a duplicate-free list the result stays duplicate-free, and behind the front is the old list with the value pulled |
| Alerts.Distinct | util/notifications.js:414-435 | no user id appears twice, the ids are exactly those of the input, and the list is no longer than the input |
| Alerts.DistinctKeepsFirstOccurrences | util/notifications.js:414-435 | each entry of the distinct list is the first entry with that id in the input, and their order is the order of first occurrence |
| Alerts.CollectDistinctUsers | util/notifications.js:414-435 | the hash-building loop yields the names of the distinct users, first occurrences in order |
| Alerts.ParseNatToString | util/notifications.js:443-448 | the decimal count written into the message reads back as the same number |
| Alerts.GenerateMessage | util/notifications.js:408-455 | count is the number of likes for "like" and the number of distinct users otherwise; the message is empty exactly when fewer than two actors |
| Alerts.MessageNamesNewestFirst | util/notifications.js:438-449 | with two or more actors the message begins with the last actor's full name and ends with the verb and "your post" |
| Alerts.MessageCountsOthers | util/notifications.js:443-448 | beyond two actors the message ends "N others VERB your post" where N is the count minus the two named |
| Alerts.PostLikerNamedFirst | controller/feed.js:260 | since post likes are pushed, the user who just liked a post is named first |
| Alerts.UnshiftedLikerNotNamedFirst | controller/feed.js:397 | since comment likes are unshifted, beyond two likers the oldest liker is named first, not the new one |
| Alerts.CommenterCountedOnce | util/notifications.js:424-435 | a further comment by a user who already commented leaves the count unchanged; a new commenter adds one |
| Alerts.TwoActorsMessage | util/notifications.js:438-442 | with exactly two actors the message is "<newest full name> and <oldest full name> <verb> your post" |
| Alerts.ManyActorsMessage | util/notifications.js:443-448 | with more actors the message names the last two actors, the verb, and "<count - 2> others <verb> your post" |
| Notices.FindLike | util/notifications.js:66-77 | finds a "like" entry about the document, and finds none exactly when there is none |
| Notices.FindOriginal | util/notifications.js:45-56 | finds the first entry about the document, of any alert type |
| Notices.FindOriginalAsWritten | util/notifications.js:45-56 | when the scan as written does not crash it agrees with the intended lookup; otherwise it is a TypeError |
| Notices.LikesNotified | util/notifications.js:45-129 | the inbox count rises by one on add and falls by one on remove, never floored |
| Notices.LikeEntryReplaced | util/notifications.js:66-111 | while likers remain, the new entry is first, exactly one like entry about the document remains, and every other entry stays in order |
| Notices.AtMostOneLikeEntry | util/notifications.js:45-111 | an inbox with at most one like entry per document keeps at most one, and exactly one while likers remain |
| Notices.LastLikeRemovesEntry | util/notifications.js:45-63 | when the last liker goes, the first entry about the document is removed and nothing else; none is left if it was the only one |
| Notices.LastLikeRemovedAsWritten | util/notifications.js:45-63 | the remove path as written lowers the count by one whenever it does not crash |
| Notices.LastLikeRemovalCrashesBehindFriendEntry | util/notifications.js:47-49 | a like entry behind a friend-request entry makes the remove path crash, while the intended lookup removes the like entry |
| Notices.LikeRecipient | util/notifications.js:18-35 | type "post" notifies the creator, type "comment" the document's user; a missing field is a TypeError; any other type notifies nobody |
| Notices.NotifyLikes | util/notifications.js:7-137 | the recipient's inbox becomes the like notice for the updated likers; other types change nothing; a missing recipient crashes; removing the last like uses the corrected scan of the Findings row for util/notifications.js:47-49, so it does not crash behind a friend entry |
| Notices.CommentNotified | util/notifications.js:200-221 | the comment entry stands first and the inbox count rises by one |
| Notices.CommentEntriesAccumulate | util/notifications.js:200-221 | comment entries about a post accumulate one per comment, and each comment takes away one like entry about the post |
| Notices.LoadedInbox | util/notifications.js:151-159 | a user loaded through a one-path projection has an inbox exactly when the projection names `notifications`, and then it is the stored inbox |
| Notices.CommentOnPostCrashesAsWritten | util/notifications.js:151-154 | as written, a comment notice for a post always ends in a crash with the creator's inbox unchanged, while the corrected notice changes the inbox |
| Notices.NotifyComment | util/notifications.js:138-269 | with the creator loaded through `notifications` (the corrected lookup), for a post the creator's inbox gets the comment notice; comment and reply types change nothing |
| Notices.FriendNotified | util/notifications.js:297-334 | an entry is added at the front and counted only when no matching entry is present; otherwise the inbox is unchanged |
| Notices.FriendEntryOnce | util/notifications.js:366-404 | adding a friend entry only when none of its kind is present leaves exactly one |
| Notices.NotifyFriendRequest | util/notifications.js:270-337 | the sender always gets a "You send … a friend request" entry; the receiver gets one unless a "request" entry about the sender is there |
| Notices.NotifyFriend | util/notifications.js:338-407 | each side gets a "You and … are now friends" entry, counted, unless its inbox already holds any entry about the other of the given type, the request entries included |
| Notices.RequestEntryBlocksFriendNotice | util/notifications.js:340-365 | since accepting passes the type "friend request" that the request entries carry, an inbox still holding the request entry about the other user gets no "now friends" entry and no count |
| PostLookup.GetPost | util/post.js:6-11 | fails with "Post not found" exactly when the lookup found nothing, and otherwise returns the post |
| PostLookup.CommentIndex | util/post.js:13-21 | the first index whose id matches, or "Comment not found" exactly when no comment matches |
| PostLookup.ExistingComment | util/post.js:23-31 | the first comment with the id, or an error exactly when none has it |
| PostLookup.ReplyIndex | util/post.js:32-40 | the first index of the reply among that comment's replies, or an error when none matches |
| PostLookup.ReplyIndexLooksInOneComment | util/post.js:32-37 | a reply that exists only under another comment is not found under the given one, and is found under its own |
| ChatGuards.GetChat | util/chat.js:7-11 | an error exactly when no chat was found, and nothing else otherwise |
| ChatGuards.ValidChatUser | util/chat.js:12-17 | "Not authorized" exactly when no member matches the user |
| ChatGuards.ValidAdmin | util/chat.js:18-26 | true exactly when the chat's admin is the user; otherwise the error "only admin can add members" |
| Feed.PullComment | controller/feed.js:164 | keeps exactly the comments whose id differs from the one removed |
| Feed.DeleteRemovesById | controller/feed.js:164 | with distinct comment ids, removal by id removes exactly the comment the lookup found |
| Feed.PostComment | controller/feed.js:42-127 | rejects a missing post, a missing user and an empty comment; appends the comment; notifies the creator when someone else comments, through the corrected creator lookup |
| Model.PostImageId | model/post.js:35-44 | a comment's image id as read through `postImage`: the stored id, or undefined when no image was attached |
| Feed.DeleteComment | controller/feed.js:128-180 | only the comment's author may delete; the comment goes and its image id is released even when it has none, then each reply's image record; nothing else on the post changes |
| Feed.EditComment | controller/feed.js:181-236 | rejects empty content, an unknown comment and a non-author; sets content and edit time on that comment only |
| Feed.AddLikeToPost | controller/feed.js:237-298 | a repeat like is refused with 422 and changes nothing; otherwise the liker is appended, and the creator is notified unless they liked their own post |
| Feed.RemoveLikeFromPost | controller/feed.js:299-366 | "no likes to remove" when the user has not liked; otherwise exactly that user is pulled and the rest kept; the notice for the last like follows the corrected scan of the Findings row for util/notifications.js:47-49 |
| Feed.LikeThenUnlikePost | controller/feed.js:237-366 | a like followed by an unlike leaves a post's likes as they were |
| Feed.AddCommentLike | controller/feed.js:367-442 | rejects a repeat liker; otherwise prepends the user to that comment's likes only; the comment's author is notified |
| Feed.LikeComment | controller/feed.js:385-442 | a user already among the comment's likers is refused with 422 and nothing changes; otherwise the user is prepended to that comment's likes only, and the comment's author gets the like notice unless the post's creator liked |
| Feed.RemoveCommentLike | controller/feed.js:443-516 | rejects a user who has not liked; otherwise pulls the user from that comment's likes only; the notice for the last like follows the corrected scan of the Findings row for util/notifications.js:47-49 |
| Feed.UnlikeComment | controller/feed.js:459-516 | a user not among the comment's likers gets "no likes to remove" and nothing changes; otherwise the user is pulled from that comment's likes only, and the comment's author gets the removal notice unless the post's creator unliked |
| Feed.AddReply | controller/feed.js:517-598 | rejects a missing user, a missing post and an unknown comment; appends the reply to that comment only |
| Feed.RemoveReply | controller/feed.js:599-657 | rejects an unknown comment, an unknown reply and a non-author; pulls that reply from its comment and releases its image |
| Feed.AddLikeToReply | controller/feed.js:658-746 | with the `return` after the repeat check restored (the corrected half of the Findings row for controller/feed.js:692-699): rejects a repeat liker; otherwise prepends the user to that reply's likes only; reply likes stay duplicate-free |
| Feed.LikeReply | controller/feed.js:686-746 | with the restored `return`: a repeat liker is refused and nothing changes; otherwise the user is prepended to that reply's likes only, likes on the post stay unique, and the reply's author is notified unless they liked their own reply |
| Feed.SetReplyLikesOf | controller/feed.js:699 | one reply's likes are replaced and every other comment, reply and the post's likes are kept; a duplicate-free list keeps every like list on the post duplicate-free |
| Feed.ReplyLikesAsWritten | controller/feed.js:692-699 | as written the liker is prepended even when they already liked |
| Feed.ReplyLikesCorrected | controller/feed.js:692-699 | the intended update keeps a repeat liker's list and keeps likes duplicate-free |
| Feed.SecondReplyLikeDuplicates | controller/feed.js:692-699 | a second like by the same user lists them twice as written, once as intended |
| Feed.RemoveLikeFromReply | controller/feed.js:747-831 | rejects an unknown comment or reply and a user who has not liked; otherwise pulls the user from that reply's likes only; the notice for the last like follows the corrected scan of the Findings row for util/notifications.js:47-49 |
| Feed.UnlikeReply | controller/feed.js:771-831 | a user not among the reply's likers gets "no like to remove" and nothing changes; otherwise the user is pulled from that reply's likes only, and the reply's author gets the removal notice unless they unliked their own reply |
| Feed.ClearNotifications | controller/feed.js:918-949 | the count always becomes zero; the entries are emptied only for type "clear" |
| Feed.ClearMessagesCount | controller/feed.js:950-968 | the unread message count becomes zero and nothing else changes; the handler in controller/user.js (lines 985-1009) does the same |
| Posts.CreatePost | controller/user.js:22-108 | a missing user and a post with neither text nor image url are rejected; otherwise a new post with no likes or comments joins the end of the author's posts |
| Posts.UpdatePost | controller/user.js:113-152 | only the author with non-empty content may edit; content, image when uploaded and edit time change; likes and comments stay |
| Posts.CascadeReleases | controller/user.js:180-188 | every comment image and every reply image of the post is released by its id |
| Posts.CascadeReleasesAsWritten | controller/user.js:180-188 | as written every cascade release names no image id, and every comment makes one whether or not it has an image |
| Posts.CommentImageLostOnPostDelete | controller/user.js:180-188 | a comment image with id 7 is released by id 7 as intended and by no id as written |
| Posts.PostReleases | controller/user.js:176-188 | the post's own image is released first, then every comment image |
| Posts.DeletePost | controller/user.js:157-213 | post lookup, user lookup, then author check; the post leaves the author's posts; its images are released through the corrected cascade of the Findings row for controller/user.js:180-188, not the id-less calls as written |
| Friends.PullRequest | controller/user.js:324-336 | keeps exactly the requests with a different id |
| Friends.WithoutSender | controller/user.js:421-428 | keeps exactly the requests from other senders |
| Friends.DeclineUndoesSend | controller/user.js:287-336 | declining a request just sent restores the request list |
| Friends.CancelUndoesSend | controller/user.js:287-428 | cancelling a request just sent restores the request list |
| Friends.CancelIdempotent | controller/user.js:421-428 | cancelling twice is the same as cancelling once |
| Friends.SendRequest | controller/user.js:240-308 | rejects pending requests either way and existing friends without change; otherwise the request is appended to the receiver and counted |
| Friends.DeclineRequest | controller/user.js:313-346 | rejects an unknown request; pulls it and decrements the count only when non-zero, so a count that was not negative stays not negative |
| Friends.AcceptRequest | controller/user.js:351-402 | rejects existing friends; each user joins the other's friends, the request is pulled, the count falls by one unfloored, and friendship stays mutual |
| Friends.CancelFriendRequest | controller/user.js:407-439 | every request from the user is removed; the count falls by one only when positive |
| Friends.RemoveFriend | controller/user.js:444-485 | rejects a non-friend; removes each from the other's friends, keeping friendship mutual |
| Chats.RoomMessaged | controller/user.js:826-856 | the room moves to the front of the chatroom list with no other copy, and the unread count rises by one |
| Chats.RoomMessagedTwice | controller/user.js:826-856 | two messages in the same room leave it once at the front and count two |
| Chats.SendMessage | controller/user.js:490-559 | appends to an existing chat, or creates one between the two users and puts it at the front of both users' chats |
| Chats.MessageChatroom | controller/user.js:788-866 | a non-member or missing chat crashes; every other member gets the room at the front and one more unread; the message is appended |
| Chats.NotifyMembers | controller/user.js:822-853 | every member of the room other than the sender, found in the directory, has the room moved to the front of their rooms with one more unread; every other user is unchanged |
| Chats.NotifyMember | controller/user.js:832-848 | one member's rooms get the room at the front and the unread count rises by one; nothing else of theirs changes |
| Chats.ClearFriendRequestCount | controller/user.js:1014-1042 | the friend-request count becomes zero and the requests stay |
| Chats.GetSingleChat | controller/user.js:1075-1100 | the chat is returned exactly when it exists and the user is a member |
| Chats.AddFriendToChatroom | controller/user.js:564-627 | only the admin may add, only a friend, only a non-member; the friend joins the members, gets the room first and one more unread |
| Chats.RemoveFriendFromChatroom | controller/user.js:632-682 | only the admin may remove a friend who is a member; the member and the room are pulled |
| Chats.RemoveUndoesAdd | controller/user.js:564-682 | removing a friend just added restores the members and the friend's rooms |
| Chats.LeaveChatroom | controller/user.js:687-733 | a member leaves; the room is deleted exactly when no member is left, that is when the leaver was the only one |
| Chats.CreateChatroom | controller/user.js:871-920 | rejects a taken title; a new room with the creator as admin and only member joins the creator's rooms |
| Business.WithoutBidder | controller/business.js:167-178 | keeps exactly the bids of other users |
| Business.WithdrawUndoesBid | controller/business.js:110-178 | withdrawing a bid just made restores the bids |
| Business.AddInterestedPartners | controller/business.js:91-142 | rejects a user who already bid; otherwise appends the bid; bidders stay distinct |
| Business.RemoveInterestedPartner | controller/business.js:147-189 | rejects a non-partner; otherwise removes exactly that user's bid |
| Business.ChangeDemandStatus | controller/business.js:194-233 | only the creator succeeds, and the status only ever becomes true |
| Business.CreateJointPurchase | controller/business.js:238-306 | the new joint purchase has the creator as its only partner |
| Business.AddJointPurchasePartner | controller/business.js:311-359 | rejects an existing partner; otherwise appends the user; partners stay distinct |
| Business.RemoveJointPurchasePartner | controller/business.js:364-407 | rejects a non-partner; otherwise pulls the user |
| Business.ChangeJointPurchaseStatus | controller/business.js:412-454 | only the creator succeeds, and the status only ever becomes true |
| Business.CreateJointPurchaseGroup | controller/business.js:459-523 | creator only, title not taken; the room's members are the partners and each partner gets the room id appended |
| Business.JoinGroups | controller/business.js:510-515 | every partner found in the directory gets the new room's id appended to their rooms; every other user is unchanged |
| Business.JoinGroup | controller/business.js:511-514 | one partner's rooms get the room id at the end; nothing else of theirs changes |
| Business.AddPartnerToSaleAtDiscount | controller/business.js:721-761 | rejects a negative quantity; otherwise appends the order with no duplicate check |
| Business.WithoutBuyer | controller/business.js:766-801 | keeps exactly the orders of other users |
| Business.WithdrawTakesEveryOrder | controller/business.js:766-801 | withdrawing removes all of a user's orders at once |
| Business.RemoveInterestedPartnerFromSaleAtDiscount | controller/business.js:766-801 | succeeds whenever user and sale exist, removing all that user's orders |
| Business.ChangeSaleAtDiscountStatus | controller/business.js:806-841 | only the creator succeeds, and the status only ever becomes true |

## Left out

- Persistence: `findById`, `findOne`, `populate`, `save` and deletions are replaced by the documents they return; each document a successful request changes is treated as saved.
- Friends.SendRequest: the source saves only the receiver, so the sender's new inbox entry is not stored; the model shows the in-memory state of both.
- Chats.MessageChatroom, Chats.NotifyMembers, Business.CreateJointPurchaseGroup and Business.JoinGroups: the source's asynchronous fan-out over members is a sequential loop here; a member missing from the user directory is skipped, where the source would throw inside an unawaited callback.
- Chats.MessageChatroom: its error checks pass an undefined variable to the error handler, so every failure is a `Crash`.
- Chats.AddFriendToChatroom, Chats.RemoveFriendFromChatroom, Chats.LeaveChatroom, Chats.CreateChatroom, Chats.MessageChatroom and Chats.NotifyMembers: chatroom members are kept as user ids. The schema stores plain ids, but the code reads a `userId` field on each one (controller/user.js:594, 657, 700 and 829) and creates the room with `{ userId }` objects (line 895). As the code stands, those reads throw on any room with members, no member of a chatroom is ever notified of a message, and room creation fails to cast. The Ok results of these members describe the code as it would behave if schema and code agreed.
- ChatGuards.ValidChatUser: util/chat.js:13 reads `chat.user`, a path neither the chat nor the chatroom schema has, so as written every call throws. The model decides from the members list the guard evidently means; nothing in the modelled handlers calls it.
- Feed.EditComment: the comment schema has no `edited` path (only replies do), so the edit time it sets is not stored; the model keeps the in-memory value.
- Alerts.Populate: populated references are a total name function; dangling references are not modelled.
- Posts.UpdatePost: the old image is not released, because the source does not release it.
- Socket broadcasts, the image host itself, authentication, mail and the random id generator: side channels outside the bookkeeping; new ids, uploads and the edit times are parameters.
- Dates: the `Date.now()` stamps on inbox entries (util/notifications.js:306, 325, 375, 394), on friend requests (controller/user.js:289) and on chat messages (controller/user.js:524, 820) are not modelled; `Notification`, `FriendRequest` and `ChatMessage` carry no date.
- Request validation by express-validator: it runs before the handlers.
- The Product documents that createJointPurchase and createSaleAtDiscount also create, and createProductDemand: they are stored records with no list logic.
- notifyComment's remove branch: it reads an undefined variable and always throws.
- updateReply, getNotifications and editPost: their broken paths are outside this model.
- Read-only listing endpoints: they change nothing.

## Findings

| source | as written | input that shows it | evidently intended | confidence | as-written member | corrected member |
|---|---|---|---|---|---|---|
| controller/feed.js:692-699 | a repeat like on a reply is detected but the handler does not return, so the user is prepended again | a user who already likes the reply likes it again | answer "already liked" and leave the likes unchanged | not executed | Feed.SecondReplyLikeDuplicates | Feed.AddLikeToReply |
| util/notifications.js:47-49 | removing the last like scans the inbox calling `toString` on each entry's `originalId`, which friend entries lack | an inbox with a friend-request entry before the like entry | skip entries without an `originalId` and remove the first entry about the document | not executed | Notices.LastLikeRemovalCrashesBehindFriendEntry | Notices.LastLikeRemovesEntry |
| controller/user.js:180-188 | the comment and reply image releases pass the id as the first argument of a two-argument function, so no id reaches the image host | a post with a comment whose image has id 7 | release every comment and reply image by its id | not executed | Posts.CommentImageLostOnPostDelete | Posts.CascadeReleases |
| util/notifications.js:151-154 | the post creator is loaded with the projection `"notification"`, a path the user schema does not have (it is `notifications`), so the inbox is not loaded and the filter over its entries throws after the comment was saved | any comment on a post by a user other than its creator | load the creator's `notifications` and give them the comment notice | not executed | Notices.CommentOnPostCrashesAsWritten | Notices.NotifyComment |
