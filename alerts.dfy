/**
 * The text of an aggregated notification ("A and B like your post"), built
 * from the users who reacted to a post, comment or reply
 * (`generateMessage` in util/notifications.js).
 */
module Alerts {
  import opened Seqs
  import opened Model

  /** The three verbs the notifiers pass; the inserted word is exactly this text. */
  datatype Verb = Like | CommentedOn | RepliedTo

  function VerbText(v: Verb): (r: string)
    ensures |r| > 0
  {
    match v
    case Like => "like"
    case CommentedOn => "commented on"
    case RepliedTo => "replied to"
  }

  /** A populated user reference of a like, comment or reply. */
  datatype Author = Author(id: Id, name: Name)

  /** The reacted-to document as `generateMessage` reads it, references populated. */
  datatype Reacted = Reacted(likes: seq<Author>, comments: seq<Author>, replies: seq<Author>)

  /** The result of `generateMessage`: the text and the number of distinct actors. */
  datatype Alert = Alert(message: string, count: nat)

  /** Populating a list of user references with the users' names. */
  function Populate(ids: seq<Id>, names: Id -> Name): (r: seq<Author>)
    ensures |r| == |ids|
    ensures forall i :: 0 <= i < |ids| ==> r[i] == Author(ids[i], names(ids[i]))
  {
    seq(|ids|, i requires 0 <= i < |ids| => Author(ids[i], names(ids[i])))
  }

  function Names(s: seq<Author>): (r: seq<Name>)
    ensures |r| == |s|
    ensures forall i :: 0 <= i < |s| ==> r[i] == s[i].name
  {
    seq(|s|, i requires 0 <= i < |s| => s[i].name)
  }

  /** The ids an author list mentions. */
  function IdSet(s: seq<Author>): set<Id> {
    set i | 0 <= i < |s| :: s[i].id
  }

  predicate UniqueIds(s: seq<Author>) {
    forall i, j :: 0 <= i < j < |s| ==> s[i].id != s[j].id
  }

  lemma IdSetSnoc(s: seq<Author>, a: Author)
    ensures IdSet(s + [a]) == IdSet(s) + {a.id}
  {
    assert forall i :: 0 <= i < |s| ==> (s + [a])[i] == s[i];
    assert (s + [a])[|s|] == a;
  }

  /**
   * The users of `s` keyed by id, each kept at the position where it first
   * occurs (the insertion order of the hash `generateMessage` builds).
   */
  function Distinct(s: seq<Author>): (r: seq<Author>)
    ensures UniqueIds(r)
    ensures IdSet(r) == IdSet(s)
    ensures |r| <= |s|
  {
    if s == [] then []
    else
      var d := Distinct(s[..|s| - 1]);
      var a := s[|s| - 1];
      IdSetSnoc(s[..|s| - 1], a);
      assert s[..|s| - 1] + [a] == s;
      if a.id in IdSet(d) then d
      else
        assert forall i :: 0 <= i < |d| ==> d[i].id != a.id;
        IdSetSnoc(d, a);
        d + [a]
  }

  /** A list without repeated ids has exactly as many entries as ids. */
  lemma {:induction false} UniqueIdsCount(s: seq<Author>)
    requires UniqueIds(s)
    ensures |IdSet(s)| == |s|
  {
    if s != [] {
      var p := s[..|s| - 1];
      assert s == p + [s[|s| - 1]];
      IdSetSnoc(p, s[|s| - 1]);
      assert UniqueIds(p);
      UniqueIdsCount(p);
      assert s[|s| - 1].id !in IdSet(p);
    }
  }

  /** The number of distinct actors is the number of distinct ids. */
  lemma DistinctCount(s: seq<Author>)
    ensures |Distinct(s)| == |IdSet(s)|
  {
    UniqueIdsCount(Distinct(s));
  }

  /** The position of the first entry with id `id`. */
  function FirstIndex(s: seq<Author>, id: Id): (k: nat)
    requires id in IdSet(s)
    ensures k < |s| && s[k].id == id
    ensures forall j :: 0 <= j < k ==> s[j].id != id
  {
    if s[0].id == id then 0
    else
      assert id in IdSet(s[1..]) by {
        var i :| 0 <= i < |s| && s[i].id == id;
        assert s[1..][i - 1] == s[i];
      }
      1 + FirstIndex(s[1..], id)
  }

  /** The last entry of `s` when its id is new: it is the first entry with that id. */
  lemma NewIdFirstAtEnd(p: seq<Author>, a: Author)
    requires a.id !in IdSet(p)
    ensures a.id in IdSet(p + [a]) && FirstIndex(p + [a], a.id) == |p|
  {
    IdSetSnoc(p, a);
  }

  /** Every distinct actor is the first entry of `s` with its id. */
  lemma {:induction false} DistinctEntriesFirst(s: seq<Author>)
    ensures forall k :: 0 <= k < |Distinct(s)| ==>
      Distinct(s)[k].id in IdSet(s) && Distinct(s)[k] == s[FirstIndex(s, Distinct(s)[k].id)]
  {
    if s != [] {
      var p := s[..|s| - 1];
      var a := s[|s| - 1];
      assert p + [a] == s;
      IdSetSnoc(p, a);
      DistinctEntriesFirst(p);
      var d := Distinct(p);
      var r := Distinct(s);
      forall k | 0 <= k < |r| ensures r[k].id in IdSet(s) && r[k] == s[FirstIndex(s, r[k].id)] {
        if k < |d| {
          assert r[k] == d[k];
          FirstIndexPrefix(p, a, d[k].id);
        } else {
          NewIdFirstAtEnd(p, a);
        }
      }
    }
  }

  /** The distinct actors appear in the order of their first entries. */
  lemma {:induction false} DistinctInFirstOrder(s: seq<Author>)
    ensures forall k :: 0 <= k < |Distinct(s)| ==> Distinct(s)[k].id in IdSet(s)
    ensures forall k, l :: 0 <= k < l < |Distinct(s)| ==>
      FirstIndex(s, Distinct(s)[k].id) < FirstIndex(s, Distinct(s)[l].id)
  {
    if s != [] {
      var p := s[..|s| - 1];
      var a := s[|s| - 1];
      assert p + [a] == s;
      IdSetSnoc(p, a);
      DistinctInFirstOrder(p);
      var d := Distinct(p);
      var r := Distinct(s);
      forall k | 0 <= k < |d| ensures FirstIndex(s, d[k].id) == FirstIndex(p, d[k].id) {
        FirstIndexPrefix(p, a, d[k].id);
      }
      if a.id !in IdSet(d) {
        NewIdFirstAtEnd(p, a);
        assert r == d + [a];
        forall k, l | 0 <= k < l < |r| ensures FirstIndex(s, r[k].id) < FirstIndex(s, r[l].id) {
          assert r[k] == d[k];
          if l < |d| {
            assert r[l] == d[l];
          }
        }
      }
    }
  }

  /**
   * Every distinct actor is the first entry of `s` with its id, and the
   * actors appear in the order of those first entries.
   */
  lemma DistinctKeepsFirstOccurrences(s: seq<Author>)
    ensures forall k :: 0 <= k < |Distinct(s)| ==>
      Distinct(s)[k].id in IdSet(s) && Distinct(s)[k] == s[FirstIndex(s, Distinct(s)[k].id)]
    ensures forall k, l :: 0 <= k < l < |Distinct(s)| ==>
      FirstIndex(s, Distinct(s)[k].id) < FirstIndex(s, Distinct(s)[l].id)
  {
    DistinctEntriesFirst(s);
    DistinctInFirstOrder(s);
  }

  lemma {:induction false} FirstIndexPrefix(p: seq<Author>, a: Author, id: Id)
    requires id in IdSet(p)
    ensures id in IdSet(p + [a]) && FirstIndex(p + [a], id) == FirstIndex(p, id)
  {
    IdSetSnoc(p, a);
    if p[0].id != id {
      assert (p + [a])[1..] == p[1..] + [a];
      assert id in IdSet(p[1..]) by {
        var i :| 0 <= i < |p| && p[i].id == id;
        assert p[1..][i - 1] == p[i];
      }
      FirstIndexPrefix(p[1..], a, id);
    }
  }

  /**
   * How `generateMessage` collects the commenters or repliers: a hash keyed
   * by user id, filled in list order, read back in insertion order.
   */
  method CollectDistinctUsers(items: seq<Author>) returns (users: seq<Name>)
    ensures users == Names(Distinct(items))
  {
    var hash: map<Id, Name> := map[];
    var order: seq<Author> := [];
    var i := 0;
    while i < |items|
      invariant 0 <= i <= |items|
      invariant order == Distinct(items[..i])
      invariant hash.Keys == IdSet(order)
      invariant forall k :: 0 <= k < |order| ==> hash[order[k].id] == order[k].name
    {
      assert items[..i + 1][..i] == items[..i];
      var item := items[i];
      assert items[..i + 1][i] == item;
      if item.id !in hash {
        hash := hash[item.id := item.name];
        IdSetSnoc(order, item);
        order := order + [item];
      }
      i := i + 1;
    }
    assert items[..i] == items;
    users := seq(|order|, k requires 0 <= k < |order| => hash[order[k].id]);
  }

  /** The actors `generateMessage` names for a verb, oldest first. */
  function Actors(target: Reacted, verb: Verb): seq<Name> {
    match verb
    case Like => Names(target.likes)
    case CommentedOn => Names(Distinct(target.comments))
    case RepliedTo => Names(Distinct(target.replies))
  }

  function DigitChar(d: nat): (c: char)
    requires d < 10
    ensures '0' <= c <= '9'
  {
    (48 + d) as char
  }

  /** The decimal text of a non-negative number. */
  function NatToString(n: nat): (s: string)
    ensures |s| >= 1
    ensures forall i :: 0 <= i < |s| ==> '0' <= s[i] <= '9'
  {
    if n < 10 then [DigitChar(n)] else NatToString(n / 10) + [DigitChar(n % 10)]
  }

  /** Reading decimal digits back as a number. */
  function ParseNat(s: string): nat {
    if s == [] then 0
    else 10 * ParseNat(s[..|s| - 1]) + (if '0' <= s[|s| - 1] <= '9' then s[|s| - 1] as int - 48 else 0)
  }

  /** The number written into a message reads back as itself. */
  lemma {:induction false} ParseNatToString(n: nat)
    ensures ParseNat(NatToString(n)) == n
  {
    if n >= 10 {
      var s := NatToString(n);
      assert s[..|s| - 1] == NatToString(n / 10);
      ParseNatToString(n / 10);
    }
  }

  /** The closing words of every message: the verb and "your post". */
  function Tail(verb: string): string {
    " " + verb + " your post"
  }

  /** The closing clause beyond two actors: how many others, then the tail. */
  function Others(k: nat, verb: string): string {
    NatToString(k) + " others" + Tail(verb)
  }

  /** The sentence for a list of actors, newest last; empty below two actors. */
  function Render(users: seq<Name>, verb: string): (m: string)
    ensures |users| < 2 <==> m == []
  {
    var n := |users|;
    if n == 2 then
      FullName(users[1]) + (" and " + FullName(users[0]) + Tail(verb))
    else if n > 2 then
      FullName(users[n - 1]) + (", " + FullName(users[n - 2]) + " " + verb + " and " + Others(n - 2, verb))
    else ""
  }

  /** `generateMessage(target, action, verb)`. */
  function GenerateMessage(target: Reacted, verb: Verb): (a: Alert)
    ensures verb == Like ==> a.count == |target.likes|
    ensures verb == CommentedOn ==> a.count == |IdSet(target.comments)|
    ensures verb == RepliedTo ==> a.count == |IdSet(target.replies)|
    ensures a.message == [] <==> a.count < 2
  {
    DistinctCount(target.comments);
    DistinctCount(target.replies);
    var users := Actors(target, verb);
    Alert(Render(users, VerbText(verb)), |users|)
  }

  predicate EndsWith(s: string, t: string) {
    |t| <= |s| && s[|s| - |t|..] == t
  }

  lemma EndsWithConcat(a: string, t: string)
    ensures EndsWith(a + t, t)
  {
    assert (a + t)[|a + t| - |t|..] == t;
  }

  lemma EndsWithExtended(a: string, b: string, t: string)
    requires EndsWith(b, t)
    ensures EndsWith(a + b, t)
  {
    assert (a + b)[|a + b| - |t|..] == b[|b| - |t|..];
  }

  lemma PrefixOfConcat(a: string, b: string)
    ensures a <= a + b
  {
    assert (a + b)[..|a|] == a;
  }

  /** A rendered sentence starts with the newest actor and ends with the verb and "your post". */
  lemma RenderNamesNewestFirst(users: seq<Name>, v: string)
    requires |users| >= 2
    ensures FullName(users[|users| - 1]) <= Render(users, v)
    ensures EndsWith(Render(users, v), Tail(v))
  {
    var n := |users|;
    if n == 2 {
      var rest := " and " + FullName(users[0]);
      assert Render(users, v) == FullName(users[1]) + (rest + Tail(v));
      EndsWithConcat(rest, Tail(v));
      EndsWithExtended(FullName(users[1]), rest + Tail(v), Tail(v));
      PrefixOfConcat(FullName(users[1]), rest + Tail(v));
    } else {
      var rest := ", " + FullName(users[n - 2]) + " " + v + " and ";
      assert Render(users, v) == FullName(users[n - 1]) + (rest + Others(n - 2, v));
      EndsWithConcat(NatToString(n - 2) + " others", Tail(v));
      EndsWithExtended(rest, Others(n - 2, v), Tail(v));
      EndsWithExtended(FullName(users[n - 1]), rest + Others(n - 2, v), Tail(v));
      PrefixOfConcat(FullName(users[n - 1]), rest + Others(n - 2, v));
    }
  }

  /**
   * A message names the newest actor first and ends with the verb and
   * "your post".
   */
  lemma MessageNamesNewestFirst(target: Reacted, verb: Verb)
    requires GenerateMessage(target, verb).count >= 2
    ensures var users := Actors(target, verb);
      var m := GenerateMessage(target, verb).message;
      FullName(users[|users| - 1]) <= m && EndsWith(m, Tail(VerbText(verb)))
  {
    RenderNamesNewestFirst(Actors(target, verb), VerbText(verb));
  }

  /**
   * Beyond two actors the message states how many others there are, in a
   * number that reads back as the count minus the two named.
   */
  lemma MessageCountsOthers(target: Reacted, verb: Verb)
    requires GenerateMessage(target, verb).count > 2
    ensures var a := GenerateMessage(target, verb);
      EndsWith(a.message, Others(a.count - 2, VerbText(verb))) &&
      ParseNat(NatToString(a.count - 2)) + 2 == a.count
  {
    var users := Actors(target, verb);
    var n := |users|;
    var v := VerbText(verb);
    var rest := ", " + FullName(users[n - 2]) + " " + v + " and ";
    EndsWithConcat(rest, Others(n - 2, v));
    EndsWithExtended(FullName(users[n - 1]), rest + Others(n - 2, v), Others(n - 2, v));
    ParseNatToString(n - 2);
  }

  /** Like lists are pushed (post likes): the newest liker is named first. */
  lemma PostLikerNamedFirst(likes: seq<Author>, u: Author, comments: seq<Author>, replies: seq<Author>)
    requires |likes| >= 1
    ensures FullName(u.name) <= GenerateMessage(Reacted(likes + [u], comments, replies), Like).message
  {
    var t := Reacted(likes + [u], comments, replies);
    MessageNamesNewestFirst(t, Like);
    assert Actors(t, Like)[|likes|] == u.name;
  }

  /**
   * Like lists that are unshifted (comment and reply likes): beyond two
   * likers the oldest one is named first, not the one who just liked.
   */
  lemma UnshiftedLikerNotNamedFirst(u: Author, likes: seq<Author>, comments: seq<Author>, replies: seq<Author>)
    requires |likes| >= 2
    ensures FullName(likes[|likes| - 1].name) <= GenerateMessage(Reacted([u] + likes, comments, replies), Like).message
  {
    var t := Reacted([u] + likes, comments, replies);
    MessageNamesNewestFirst(t, Like);
    assert Actors(t, Like)[|likes|] == likes[|likes| - 1].name;
  }

  /** A further comment by someone who already commented does not change the count; a new commenter adds one. */
  lemma {:induction false} CommenterCountedOnce(likes: seq<Author>, comments: seq<Author>, c: Author, replies: seq<Author>)
    ensures GenerateMessage(Reacted(likes, comments + [c], replies), CommentedOn).count ==
      GenerateMessage(Reacted(likes, comments, replies), CommentedOn).count + (if c.id in IdSet(comments) then 0 else 1)
  {
    IdSetSnoc(comments, c);
  }

  /** Two actors: "<newest> and <oldest> <verb> your post". */
  lemma TwoActorsMessage(target: Reacted, verb: Verb)
    requires GenerateMessage(target, verb).count == 2
    ensures var users := Actors(target, verb);
      GenerateMessage(target, verb).message == FullName(users[1]) + " and " + FullName(users[0]) + Tail(VerbText(verb))
  {
    var users := Actors(target, verb);
    var m := GenerateMessage(target, verb).message;
    assert m == FullName(users[1]) + (" and " + FullName(users[0]) + Tail(VerbText(verb)));
  }

  /** More actors: "<last>, <second to last> <verb> and <n - 2> others <verb> your post". */
  lemma ManyActorsMessage(target: Reacted, verb: Verb)
    requires GenerateMessage(target, verb).count > 2
    ensures var users := Actors(target, verb);
      var n := |users|;
      GenerateMessage(target, verb).message ==
        FullName(users[n - 1]) + ", " + FullName(users[n - 2]) + " " + VerbText(verb) + " and " + Others(n - 2, VerbText(verb))
  {
    var users := Actors(target, verb);
    var n := |users|;
    var v := VerbText(verb);
    var m := GenerateMessage(target, verb).message;
    assert m == FullName(users[n - 1]) + (", " + FullName(users[n - 2]) + " " + v + " and " + Others(n - 2, v));
  }
}
