/**
 * `ReactionsService`: emoji reactions to chat messages, at most one per
 * (message, user), and the queries over them. The socket notifications are
 * kept as a log of events; new ids and the clock are parameters.
 */
module Reactions {
  import opened Common
  import opened Documents
  import opened Grouping

  datatype Reaction = Reaction(messageId: string, userId: string, emoji: string, createdAt: int)

  /** The socket events, addressed to the message's room. */
  datatype ReactionEvent =
    | NewReaction(messageId: string, reaction: Doc<Reaction>)
    | ReactionRemoved(messageId: string, userId: string)

  predicate OfPair(r: Reaction, messageId: string, userId: string) {
    r.messageId == messageId && r.userId == userId
  }

  /** At most one reaction per (message, user). */
  predicate OnePerPair(s: seq<Doc<Reaction>>) {
    forall i, j :: 0 <= i < j < |s| ==> !OfPair(s[j].body, s[i].body.messageId, s[i].body.userId)
  }

  /** The position of the first reaction of the pair, as `findOneAndDelete` finds it. */
  function PairIndex(s: seq<Doc<Reaction>>, messageId: string, userId: string): (r: Option<nat>)
    ensures r.Some? ==> r.value < |s| && OfPair(s[r.value].body, messageId, userId)
    ensures r.None? ==> forall i :: 0 <= i < |s| ==> !OfPair(s[i].body, messageId, userId)
  {
    if s == [] then None
    else if OfPair(s[0].body, messageId, userId) then Some(0)
    else match PairIndex(s[1..], messageId, userId)
      case None => None
      case Some(k) => Some(k + 1)
  }

  /** `findOneAndDelete({ messageId, userId })`: the first reaction of the pair removed, if any. */
  function WithoutPair(s: seq<Doc<Reaction>>, messageId: string, userId: string): (r: seq<Doc<Reaction>>)
    ensures PairIndex(s, messageId, userId).None? ==> r == s
    ensures PairIndex(s, messageId, userId).Some? ==>
      var i := PairIndex(s, messageId, userId).value;
      r == s[..i] + s[i + 1..]
  {
    match PairIndex(s, messageId, userId)
    case None => s
    case Some(i) => s[..i] + s[i + 1..]
  }

  /** With one reaction per pair, removing the first removes them all, and the rest still has one per pair. */
  lemma WithoutPairClears(s: seq<Doc<Reaction>>, messageId: string, userId: string)
    requires OnePerPair(s)
    ensures var r := WithoutPair(s, messageId, userId);
      && OnePerPair(r)
      && (forall i :: 0 <= i < |r| ==> !OfPair(r[i].body, messageId, userId))
      && (UniqueIds(s) ==> UniqueIds(r))
  {
    var k := PairIndex(s, messageId, userId);
    if k.Some? {
      var i := k.value;
      var r := s[..i] + s[i + 1..];
      forall a | 0 <= a < |r| ensures !OfPair(r[a].body, messageId, userId) {
        ElementAfterRemoval(s, i, a);
      }
      forall a, b | 0 <= a < b < |r| ensures !OfPair(r[b].body, r[a].body.messageId, r[a].body.userId) {
        ElementAfterRemoval(s, i, a);
        ElementAfterRemoval(s, i, b);
      }
      if UniqueIds(s) {
        forall a, b | 0 <= a < b < |r| ensures r[a].id != r[b].id {
          ElementAfterRemoval(s, i, a);
          ElementAfterRemoval(s, i, b);
        }
      }
    }
  }

  /** Position `a` after removing position `i`. */
  lemma ElementAfterRemoval(s: seq<Doc<Reaction>>, i: nat, a: nat)
    requires i < |s| && a < |s| - 1
    ensures (s[..i] + s[i + 1..])[a] == s[if a < i then a else a + 1]
  {
  }

  /** The number of reactions a user made: `countDocuments({ userId })`. */
  function CountByUser(s: seq<Reaction>, userId: string): (n: nat)
    ensures n <= |s|
    ensures n == 0 <==> forall r :: r in s ==> r.userId != userId
  {
    if s == [] then 0
    else (if s[0].userId == userId then 1 else 0) + CountByUser(s[1..], userId)
  }

  lemma {:induction false} CountAppend(a: seq<Reaction>, b: seq<Reaction>, userId: string)
    ensures CountByUser(a + b, userId) == CountByUser(a, userId) + CountByUser(b, userId)
  {
    if a == [] {
      assert a + b == b;
    } else {
      CountAppend(a[1..], b, userId);
      assert (a + b)[1..] == a[1..] + b;
    }
  }

  function UserOf(r: Reaction): string {
    r.userId
  }

  function MessageOf(r: Reaction): string {
    r.messageId
  }

  /** The reactions whose message is one of `messageIds`, in collection order. */
  function ForMessages(s: seq<Reaction>, messageIds: seq<string>): (r: seq<Reaction>)
    ensures forall x :: x in r <==> x in s && x.messageId in messageIds
    ensures |r| <= |s|
    ensures messageIds == [] ==> r == []
  {
    if s == [] then []
    else (if s[0].messageId in messageIds then [s[0]] else []) + ForMessages(s[1..], messageIds)
  }

  /** The reactions to the listed messages, grouped by message in collection order. */
  function GroupedByMessage(s: seq<Reaction>, messageIds: seq<string>): (groups: map<string, seq<Reaction>>)
    ensures forall m :: m in groups <==> m in messageIds && exists x :: x in s && x.messageId == m
    ensures forall m :: m in groups ==> |groups[m]| > 0 && groups[m] == WithKey(ForMessages(s, messageIds), MessageOf, m)
    ensures forall m :: m in groups ==> forall x :: x in groups[m] <==> x in s && x.messageId == m
  {
    var found := ForMessages(s, messageIds);
    var g := GroupBy(found, MessageOf);
    forall m | m in g ensures m in messageIds && exists x :: x in s && x.messageId == m {
      var i :| 0 <= i < |found| && found[i].messageId == m;
      assert found[i] in found;
    }
    forall m | m in messageIds && (exists x :: x in s && x.messageId == m) ensures m in g {
      var x :| x in s && x.messageId == m;
      ItemInOwnGroup(found, MessageOf, x, m);
    }
    g
  }

  class ReactionStore {
    var reactions: seq<Doc<Reaction>>
    var events: seq<ReactionEvent>

    ghost predicate Valid()
      reads this
    {
      UniqueIds(reactions) && OnePerPair(reactions)
    }

    constructor()
      ensures Valid() && reactions == [] && events == []
    {
      reactions := [];
      events := [];
    }

    /**
     * `addReaction`: the user's earlier reaction to the message, if any, is
     * deleted, the new one saved and announced; one reaction per pair stays.
     */
    method AddReaction(messageId: string, userId: string, emoji: string, newId: string, now: int) returns (r: Doc<Reaction>)
      requires Valid() && !HasId(reactions, newId)
      modifies this
      ensures Valid()
      ensures r == Doc(newId, Reaction(messageId, userId, emoji, now))
      ensures reactions == WithoutPair(old(reactions), messageId, userId) + [r]
      ensures events == old(events) + [NewReaction(messageId, r)]
    {
      WithoutPairClears(reactions, messageId, userId);
      var rest := WithoutPair(reactions, messageId, userId);
      r := Doc(newId, Reaction(messageId, userId, emoji, now));
      assert forall d :: d in rest ==> d in reactions by {
        var k := PairIndex(reactions, messageId, userId);
        if k.Some? {
          assert forall a :: 0 <= a < |rest| ==> rest[a] == (if a < k.value then reactions[a] else reactions[a + 1]);
        }
      }
      reactions := rest + [r];
      events := events + [NewReaction(messageId, r)];
    }

    /** `removeReaction`: deletes the pair's reaction; the removal is announced only if there was one. */
    method RemoveReaction(messageId: string, userId: string)
      requires Valid()
      modifies this
      ensures Valid()
      ensures reactions == WithoutPair(old(reactions), messageId, userId)
      ensures forall i :: 0 <= i < |reactions| ==> !OfPair(reactions[i].body, messageId, userId)
      ensures PairIndex(old(reactions), messageId, userId).Some? ==> events == old(events) + [ReactionRemoved(messageId, userId)]
      ensures PairIndex(old(reactions), messageId, userId).None? ==> events == old(events)
    {
      WithoutPairClears(reactions, messageId, userId);
      var existed := PairIndex(reactions, messageId, userId);
      reactions := WithoutPair(reactions, messageId, userId);
      if existed.Some? {
        events := events + [ReactionRemoved(messageId, userId)];
      }
    }

    /** `getReactionsByMessage`: exactly the reactions to that message, in collection order. */
    function GetReactionsByMessage(messageId: string): (r: seq<Reaction>)
      reads this
      ensures forall x :: x in r <==> x in Bodies(reactions) && x.messageId == messageId
      ensures |r| <= |reactions|
    {
      WithKey(Bodies(reactions), MessageOf, messageId)
    }

    /**
     * `getReactionsForMessages`: the reactions to the listed messages grouped
     * by message; only messages with reactions get a key, and each group
     * keeps collection order.
     */
    function GetReactionsForMessages(messageIds: seq<string>): (groups: map<string, seq<Reaction>>)
      reads this
      ensures forall m :: m in groups <==> m in messageIds && exists x :: x in Bodies(reactions) && x.messageId == m
      ensures forall m :: m in groups ==> |groups[m]| > 0
      ensures forall m :: m in groups ==> forall x :: x in groups[m] <==> x in Bodies(reactions) && x.messageId == m
    {
      GroupedByMessage(Bodies(reactions), messageIds)
    }

    /** `getUserReactionsCount`. */
    function GetUserReactionsCount(userId: string): (n: nat)
      reads this
      ensures n <= |reactions|
      ensures n == 0 <==> forall x :: x in Bodies(reactions) ==> x.userId != userId
    {
      CountByUser(Bodies(reactions), userId)
    }

    /**
     * `getReactionsReceivedCount`: the user's messages are looked up by a
     * helper that returns none, so no reaction is ever counted.
     */
    function GetReactionsReceivedCount(userId: string): (n: nat)
      reads this
      ensures n == 0
    {
      var messagesOfUser: seq<string> := [];
      |ForMessages(Bodies(reactions), messagesOfUser)|
    }
  }

  /**
   * A new reaction raises the user's count by one, unless it replaces the
   * user's earlier reaction to the same message.
   */
  lemma {:induction false} AddReactionCount(s: seq<Doc<Reaction>>, messageId: string, userId: string, r: Doc<Reaction>)
    requires r.body.messageId == messageId && r.body.userId == userId
    ensures CountByUser(Bodies(WithoutPair(s, messageId, userId) + [r]), userId)
      == CountByUser(Bodies(s), userId) + (if PairIndex(s, messageId, userId).Some? then 0 else 1)
  {
    var rest := WithoutPair(s, messageId, userId);
    AppendedCount(rest, r, userId);
    var k := PairIndex(s, messageId, userId);
    if k.Some? {
      assert rest == s[..k.value] + s[k.value + 1..];
      RemovedCount(s, k.value, userId);
    } else {
      assert rest == s;
    }
  }

  /** Saving a reaction of the user raises the user's count by one. */
  lemma AppendedCount(s: seq<Doc<Reaction>>, r: Doc<Reaction>, userId: string)
    requires r.body.userId == userId
    ensures CountByUser(Bodies(s + [r]), userId) == CountByUser(Bodies(s), userId) + 1
  {
    BodiesConcat(s, [r]);
    assert Bodies([r]) == [r.body];
    CountAppend(Bodies(s), [r.body], userId);
    assert CountByUser([r.body], userId) == 1;
  }

  /** Removing a reaction of the user lowers the user's count by one. */
  lemma RemovedCount(s: seq<Doc<Reaction>>, i: nat, userId: string)
    requires i < |s| && s[i].body.userId == userId
    ensures CountByUser(Bodies(s[..i] + s[i + 1..]), userId) + 1 == CountByUser(Bodies(s), userId)
  {
    var a, b := s[..i], s[i + 1..];
    var x := s[i].body;
    assert s == (a + [s[i]]) + b;
    BodiesConcat(a + [s[i]], b);
    BodiesConcat(a, [s[i]]);
    BodiesConcat(a, b);
    var A, B := Bodies(a), Bodies(b);
    assert Bodies([s[i]]) == [x];
    assert Bodies(s) == (A + [x]) + B;
    assert Bodies(a + b) == A + B;
    CountAppend(A + [x], B, userId);
    CountAppend(A, [x], userId);
    CountAppend(A, B, userId);
    assert CountByUser([x], userId) == 1;
  }
}
