/**
 * The business listings (controller/business.js): who is interested in a
 * demand, a joint purchase or a sale at a discount, the creator-only
 * status flag, and the chat room a joint purchase's creator opens for its
 * partners.
 *
 * `user` is the account `req.body.userId` names, `null` when the lookup
 * found nothing, and likewise for the listing. `users` is the directory
 * the group-creation loop looks the partners up in; `newId` is the id the
 * database gives a new document.
 */
module Business {
  import opened Seqs
  import opened Model

  /** The users who bid on a demand, in order. */
  function Bidders(bs: seq<Bid>): (r: seq<Id>)
    ensures |r| == |bs|
    ensures forall i :: 0 <= i < |bs| ==> r[i] == bs[i].user
  {
    seq(|bs|, i requires 0 <= i < |bs| => bs[i].user)
  }

  /** `interestedPartners.pull({user})` on a demand: every bid by `u` goes, the others keep their order. */
  function WithoutBidder(bs: seq<Bid>, u: Id): (r: seq<Bid>)
    ensures forall b :: b in r <==> b in bs && b.user != u
    ensures u !in Bidders(r)
  {
    if bs == [] then []
    else if bs[0].user == u then WithoutBidder(bs[1..], u)
    else [bs[0]] + WithoutBidder(bs[1..], u)
  }

  /** When each user bids at most once, withdrawing a bidder removes exactly their one bid. */
  lemma {:induction false} WithoutBidderOnce(bs: seq<Bid>, k: nat)
    requires k < |bs|
    requires forall i, j :: 0 <= i < j < |bs| ==> bs[i].user != bs[j].user
    ensures WithoutBidder(bs, bs[k].user) == RemoveAt(bs, k)
  {
    if k == 0 {
      WithoutBidderAbsent(bs[1..], bs[0].user);
      assert RemoveAt(bs, 0) == bs[1..];
    } else {
      WithoutBidderOnce(bs[1..], k - 1);
      assert RemoveAt(bs, k) == [bs[0]] + RemoveAt(bs[1..], k - 1);
    }
  }

  lemma {:induction false} WithoutBidderAbsent(bs: seq<Bid>, u: Id)
    requires forall i :: 0 <= i < |bs| ==> bs[i].user != u
    ensures WithoutBidder(bs, u) == bs
  {
    if bs != [] {
      WithoutBidderAbsent(bs[1..], u);
      assert [bs[0]] + bs[1..] == bs;
    }
  }

  /** `addInterestedPartners`: a user not yet interested bids `amount` at the end of the list. */
  method AddInterestedPartners(user: User?, demand: Demand?, userId: Id, amount: int) returns (r: Outcome)
    requires user != null ==> user.id == userId
    modifies demand
    ensures user == null ==> r == Fail(Abort("not authorized"))
    ensures user != null && demand == null ==> r == Fail(Abort("demand not found"))
    ensures user != null && demand != null && userId in Bidders(old(demand.partners)) ==>
      r == Fail(Abort("you have already declared interest"))
    ensures user != null && demand != null && userId !in Bidders(old(demand.partners)) ==> r == Ok
    ensures r.Fail? ==> demand == null || unchanged(demand)
    ensures r.Ok? ==>
      user != null && demand != null && userId !in Bidders(old(demand.partners)) &&
      demand.partners == old(demand.partners) + [Bid(userId, amount)]
    ensures demand != null ==> demand.status == old(demand.status)
    ensures demand != null && old(demand.Valid()) ==> demand.Valid()
  {
    if user == null {
      return Fail(Abort("not authorized"));
    }
    if demand == null {
      return Fail(Abort("demand not found"));
    }
    if userId in Bidders(demand.partners) {
      return Fail(Abort("you have already declared interest"));
    }
    ghost var before := demand.partners;
    demand.partners := demand.partners + [Bid(userId, amount)];
    assert forall i :: 0 <= i < |before| ==> Bidders(before)[i] == demand.partners[i].user;
    r := Ok;
  }

  /** `removeInterestedPartner`: a bidder's bids leave the demand. */
  method RemoveInterestedPartner(user: User?, demand: Demand?, userId: Id) returns (r: Outcome)
    requires user != null ==> user.id == userId
    modifies demand
    ensures user == null ==> r == Fail(Abort("not authorized"))
    ensures user != null && demand == null ==> r == Fail(Abort("demand not found"))
    ensures user != null && demand != null && userId !in Bidders(old(demand.partners)) ==>
      r == Fail(Abort("user not a partner"))
    ensures user != null && demand != null && userId in Bidders(old(demand.partners)) ==> r == Ok
    ensures r.Fail? ==> demand == null || unchanged(demand)
    ensures r.Ok? ==>
      user != null && demand != null && userId in Bidders(old(demand.partners)) &&
      demand.partners == WithoutBidder(old(demand.partners), userId)
    ensures r.Ok? && old(demand.Valid()) ==> |demand.partners| == |old(demand.partners)| - 1 && demand.Valid()
    ensures demand != null ==> demand.status == old(demand.status)
  {
    if user == null {
      return Fail(Abort("not authorized"));
    }
    if demand == null {
      return Fail(Abort("demand not found"));
    }
    if userId !in Bidders(demand.partners) {
      return Fail(Abort("user not a partner"));
    }
    if demand.Valid() {
      var k :| 0 <= k < |demand.partners| && Bidders(demand.partners)[k] == userId;
      WithoutBidderOnce(demand.partners, k);
    }
    demand.partners := WithoutBidder(demand.partners, userId);
    r := Ok;
  }

  /** Withdrawing the bid just made gives back the demand's earlier bids. */
  lemma {:induction false} WithdrawUndoesBid(bs: seq<Bid>, b: Bid)
    requires b.user !in Bidders(bs)
    ensures WithoutBidder(bs + [b], b.user) == bs
  {
    if bs == [] {
      assert [b][1..] == [];
    } else {
      assert Bidders(bs)[0] == bs[0].user;
      assert b.user !in Bidders(bs[1..]) by {
        forall i | 0 <= i < |bs[1..]| ensures Bidders(bs[1..])[i] != b.user {
          assert Bidders(bs)[i + 1] == bs[i + 1].user;
        }
      }
      assert (bs + [b])[1..] == bs[1..] + [b];
      WithdrawUndoesBid(bs[1..], b);
    }
  }

  /** `changeDemandStatus`: only the creator may act, and the status only ever becomes true. */
  method ChangeDemandStatus(demand: Demand?, user: User?, userId: Id) returns (r: Outcome)
    requires user != null ==> user.id == userId
    modifies demand
    ensures demand == null ==> r == Fail(Abort("demand not found"))
    ensures demand != null && user == null ==> r == Fail(Abort("not authorized"))
    ensures demand != null && user != null && demand.creator != userId ==> r == Fail(Abort("not authorized"))
    ensures r.Ok? <==> demand != null && user != null && demand.creator == userId
    ensures demand != null ==> demand.status == (r.Ok? || old(demand.status))
    ensures demand != null ==> demand.partners == old(demand.partners)
  {
    if demand == null {
      return Fail(Abort("demand not found"));
    }
    if user == null {
      return Fail(Abort("not authorized"));
    }
    if demand.creator != userId {
      return Fail(Abort("not authorized"));
    }
    demand.status := true;
    r := Ok;
  }

  /** `createJointPurchase`: the creator is the first and only partner. */
  method CreateJointPurchase(user: User?, creator: Id, newId: Id) returns (r: Outcome, purchase: JointPurchase?)
    requires user != null ==> user.id == creator
    ensures user == null ==> r == Fail(Abort("not authorized")) && purchase == null
    ensures user != null ==>
      r == Ok && purchase != null && fresh(purchase) &&
      purchase.id == newId && purchase.creator == creator && purchase.partners == [creator] &&
      !purchase.status && purchase.Valid()
  {
    if user == null {
      r := Fail(Abort("not authorized"));
      purchase := null;
      return;
    }
    purchase := new JointPurchase(newId, creator);
    r := Ok;
  }

  /** `addJointPurchasePartner`: a user not yet a partner joins the end of the partners. */
  method AddJointPurchasePartner(user: User?, purchase: JointPurchase?, userId: Id) returns (r: Outcome)
    requires user != null ==> user.id == userId
    modifies purchase
    ensures user == null ==> r == Fail(Abort("not authorized"))
    ensures user != null && purchase == null ==> r == Fail(Abort("joint purchase not found"))
    ensures user != null && purchase != null && userId in old(purchase.partners) ==>
      r == Fail(Abort("user is already a partner"))
    ensures user != null && purchase != null && userId !in old(purchase.partners) ==> r == Ok
    ensures r.Fail? ==> purchase == null || unchanged(purchase)
    ensures r.Ok? ==>
      user != null && purchase != null && userId !in old(purchase.partners) &&
      purchase.partners == old(purchase.partners) + [userId]
    ensures purchase != null ==> purchase.status == old(purchase.status)
    ensures purchase != null && old(purchase.Valid()) ==> purchase.Valid()
  {
    if user == null {
      return Fail(Abort("not authorized"));
    }
    if purchase == null {
      return Fail(Abort("joint purchase not found"));
    }
    if userId in purchase.partners {
      return Fail(Abort("user is already a partner"));
    }
    if NoDup(purchase.partners) {
      SnocNoDup(purchase.partners, userId);
    }
    purchase.partners := purchase.partners + [userId];
    r := Ok;
  }

  /** `removeJointPurchasePartner`: a partner leaves, the others keep their order. */
  method RemoveJointPurchasePartner(user: User?, purchase: JointPurchase?, userId: Id) returns (r: Outcome)
    requires user != null ==> user.id == userId
    modifies purchase
    ensures user == null ==> r == Fail(Abort("not authorized"))
    ensures user != null && purchase == null ==> r == Fail(Abort("joint purchase not found"))
    ensures user != null && purchase != null && userId !in old(purchase.partners) ==>
      r == Fail(Abort("user not a partner"))
    ensures user != null && purchase != null && userId in old(purchase.partners) ==> r == Ok
    ensures r.Fail? ==> purchase == null || unchanged(purchase)
    ensures r.Ok? ==>
      user != null && purchase != null && userId in old(purchase.partners) &&
      purchase.partners == Pull(old(purchase.partners), userId) && userId !in purchase.partners
    ensures r.Ok? && old(purchase.Valid()) ==> |purchase.partners| == |old(purchase.partners)| - 1 && purchase.Valid()
    ensures purchase != null ==> purchase.status == old(purchase.status)
  {
    if user == null {
      return Fail(Abort("not authorized"));
    }
    if purchase == null {
      return Fail(Abort("joint purchase not found"));
    }
    if userId !in purchase.partners {
      return Fail(Abort("user not a partner"));
    }
    if NoDup(purchase.partners) {
      PullMemberOnce(purchase.partners, userId);
      PullKeepsNoDup(purchase.partners, userId);
    }
    purchase.partners := Pull(purchase.partners, userId);
    r := Ok;
  }

  /** `changeJointPurchaseStatus`: only the creator may act, and the status only ever becomes true. */
  method ChangeJointPurchaseStatus(purchase: JointPurchase?, user: User?, userId: Id) returns (r: Outcome)
    requires user != null ==> user.id == userId
    modifies purchase
    ensures purchase == null ==> r == Fail(Abort("joint purchase not found"))
    ensures purchase != null && user == null ==> r == Fail(Abort("not authorized"))
    ensures purchase != null && user != null && purchase.creator != userId ==> r == Fail(Abort("not authorized"))
    ensures r.Ok? <==> purchase != null && user != null && purchase.creator == userId
    ensures purchase != null ==> purchase.status == (r.Ok? || old(purchase.status))
    ensures purchase != null ==> purchase.partners == old(purchase.partners)
  {
    if purchase == null {
      return Fail(Abort("joint purchase not found"));
    }
    if user == null {
      return Fail(Abort("not authorized"));
    }
    if purchase.creator != userId {
      return Fail(Abort("not authorized"));
    }
    purchase.status := true;
    r := Ok;
  }

  /** One partner's side of a new group: the room's id joins the end of their rooms. */
  method JoinGroup(u: User, roomId: Id)
    modifies u
    ensures u.messages == old(u.messages).(chatrooms := old(u.messages.chatrooms) + [roomId])
    ensures OnlyChanged(u, {MessagesPart})
  {
    u.messages := u.messages.(chatrooms := u.messages.chatrooms + [roomId]);
  }

  /** The loop of `createJointPurchaseGroup` over the partners, each looked up in the directory. */
  method JoinGroups(partners: seq<Id>, users: map<Id, User>, roomId: Id)
    requires Directory(users) && NoDup(partners)
    modifies set k | k in users :: users[k]
    ensures forall k :: k in users ==>
      users[k].messages ==
        (if k in partners then old(users[k].messages).(chatrooms := old(users[k].messages.chatrooms) + [roomId])
         else old(users[k].messages))
    ensures forall k :: k in users ==> OnlyChanged(users[k], {MessagesPart})
  {
    var i := 0;
    while i < |partners|
      invariant 0 <= i <= |partners|
      invariant forall k :: k in users ==>
        users[k].messages ==
          (if k in partners[..i] then old(users[k].messages).(chatrooms := old(users[k].messages.chatrooms) + [roomId])
           else old(users[k].messages))
      invariant forall k :: k in users ==> OnlyChanged(users[k], {MessagesPart})
    {
      var partner := partners[i];
      assert partner !in partners[..i];
      assert partners[..i + 1] == partners[..i] + [partner];
      if partner in users {
        JoinGroup(users[partner], roomId);
      }
      i := i + 1;
    }
    assert partners[..i] == partners;
  }

  /**
   * `createJointPurchaseGroup`: the creator opens a room, under a title no
   * room has yet, whose admin is the creator and whose members are the
   * partners; every partner found in the directory gets the room's id.
   * `existing` is the room that already has this title, if any.
   */
  method CreateJointPurchaseGroup(user: User?, purchase: JointPurchase?, existing: ChatRoom?, users: map<Id, User>,
                                  userId: Id, title: string, newId: Id) returns (r: Outcome, room: ChatRoom?)
    requires user != null ==> user.id == userId
    requires purchase != null ==> purchase.Valid()
    requires existing != null ==> existing.title == title
    requires Directory(users)
    modifies set k | k in users :: users[k]
    ensures user == null ==> r == Fail(Abort("not authorized"))
    ensures user != null && purchase == null ==> r == Fail(Abort("joint purchase not found"))
    ensures user != null && purchase != null && purchase.creator != userId ==> r == Fail(Abort("not authorized"))
    ensures user != null && purchase != null && purchase.creator == userId && existing != null ==>
      r == Fail(Abort("chat room exist already"))
    ensures user != null && purchase != null && purchase.creator == userId && existing == null ==> r == Ok
    ensures r.Fail? ==> room == null && forall k :: k in users ==> unchanged(users[k])
    ensures r.Ok? ==>
      user != null && purchase != null && purchase.creator == userId && existing == null &&
      room != null && fresh(room) && room.id == newId && room.title == title && room.admin == userId &&
      room.users == purchase.partners && room.messages == [] && room.Valid()
    ensures r.Ok? ==> forall k :: k in users ==>
      users[k].messages ==
        (if k in purchase.partners then old(users[k].messages).(chatrooms := old(users[k].messages.chatrooms) + [newId])
         else old(users[k].messages))
    ensures forall k :: k in users ==> OnlyChanged(users[k], {MessagesPart})
  {
    room := null;
    if user == null {
      r := Fail(Abort("not authorized"));
      return;
    }
    if purchase == null {
      r := Fail(Abort("joint purchase not found"));
      return;
    }
    if purchase.creator != userId {
      r := Fail(Abort("not authorized"));
      return;
    }
    if existing != null {
      r := Fail(Abort("chat room exist already"));
      return;
    }
    room := new ChatRoom(newId, title, userId, purchase.partners);
    JoinGroups(purchase.partners, users, newId);
    r := Ok;
  }

  /** `addPartnerToSaleAtDiscount`: a non-negative quantity is appended, with no check for a repeat buyer. */
  method AddPartnerToSaleAtDiscount(user: User?, sale: SaleAtDiscount?, userId: Id, quantity: int) returns (r: Outcome)
    requires user != null ==> user.id == userId
    modifies sale
    ensures user == null ==> r == Fail(Abort("not authorized"))
    ensures user != null && sale == null ==> r == Fail(Abort("sale not found"))
    ensures user != null && sale != null && quantity < 0 ==> r == Fail(Abort("please provide a valid quantity"))
    ensures user != null && sale != null && quantity >= 0 ==> r == Ok
    ensures r.Fail? ==> sale == null || unchanged(sale)
    ensures r.Ok? ==>
      user != null && sale != null && quantity >= 0 &&
      sale.partners == old(sale.partners) + [Order(userId, quantity)]
    ensures sale != null ==> sale.status == old(sale.status)
    ensures sale != null && old(sale.Valid()) ==> sale.Valid()
  {
    if user == null {
      return Fail(Abort("not authorized"));
    }
    if sale == null {
      return Fail(Abort("sale not found"));
    }
    if quantity < 0 {
      return Fail(Abort("please provide a valid quantity"));
    }
    sale.partners := sale.partners + [Order(userId, quantity)];
    r := Ok;
  }

  /** `interestedPartners.pull({user})` on a sale: every order by `u` goes, the others keep their order. */
  function WithoutBuyer(os: seq<Order>, u: Id): (r: seq<Order>)
    ensures forall o :: o in r <==> o in os && o.user != u
    ensures |r| <= |os|
  {
    if os == [] then []
    else if os[0].user == u then WithoutBuyer(os[1..], u)
    else [os[0]] + WithoutBuyer(os[1..], u)
  }

  /** The same buyer may order twice; one withdrawal takes both orders back. */
  lemma {:induction false} WithdrawTakesEveryOrder(os: seq<Order>, u: Id, q1: int, q2: int)
    ensures WithoutBuyer(os + [Order(u, q1)] + [Order(u, q2)], u) == WithoutBuyer(os, u)
  {
    if os == [] {
      assert [Order(u, q1)] + [Order(u, q2)] == [Order(u, q1), Order(u, q2)];
      assert [Order(u, q1), Order(u, q2)][1..] == [Order(u, q2)];
      assert [Order(u, q2)][1..] == [];
    } else {
      assert (os + [Order(u, q1)] + [Order(u, q2)])[1..] == os[1..] + [Order(u, q1)] + [Order(u, q2)];
      WithdrawTakesEveryOrder(os[1..], u, q1, q2);
    }
  }

  /** `removeInterestedPartnerFromSaleAtDiscount`: every order of the caller goes; there is no membership check. */
  method RemoveInterestedPartnerFromSaleAtDiscount(user: User?, sale: SaleAtDiscount?, userId: Id) returns (r: Outcome)
    requires user != null ==> user.id == userId
    modifies sale
    ensures user == null ==> r == Fail(Abort("not authorized"))
    ensures user != null && sale == null ==> r == Fail(Abort("sale not found"))
    ensures r.Fail? ==> sale == null || unchanged(sale)
    ensures r.Ok? <==> user != null && sale != null
    ensures r.Ok? ==> sale.partners == WithoutBuyer(old(sale.partners), userId)
    ensures sale != null ==> sale.status == old(sale.status)
    ensures sale != null && old(sale.Valid()) ==> sale.Valid()
  {
    if user == null {
      return Fail(Abort("not authorized"));
    }
    if sale == null {
      return Fail(Abort("sale not found"));
    }
    sale.partners := WithoutBuyer(sale.partners, userId);
    r := Ok;
  }

  /** `changeSaleAtDiscountStatus`: the user is checked before the sale; only the creator may act; the status only becomes true. */
  method ChangeSaleAtDiscountStatus(user: User?, sale: SaleAtDiscount?, userId: Id) returns (r: Outcome)
    requires user != null ==> user.id == userId
    modifies sale
    ensures user == null ==> r == Fail(Abort("not authorized"))
    ensures user != null && sale == null ==> r == Fail(Abort("sale not found"))
    ensures user != null && sale != null && sale.creator != userId ==> r == Fail(Abort("not authorized"))
    ensures r.Ok? <==> user != null && sale != null && sale.creator == userId
    ensures sale != null ==> sale.status == (r.Ok? || old(sale.status))
    ensures sale != null ==> sale.partners == old(sale.partners)
  {
    if user == null {
      return Fail(Abort("not authorized"));
    }
    if sale == null {
      return Fail(Abort("sale not found"));
    }
    if sale.creator != userId {
      return Fail(Abort("not authorized"));
    }
    sale.status := true;
    r := Ok;
  }
}
