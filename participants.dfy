/**
 * The participant list of a help point or marker and the three ways the
 * services change it: `$push` of a new applicant, `$pull` of every entry of a
 * user, and the positional `$set` of the first entry of a user.
 */
module Participants {
  import opened Documents

  /** The services write 'Pending' (capitalised); owners set 'accepted' or 'rejected'. */
  datatype ParticipantStatus = Pending | Accepted | Rejected

  datatype Participant = Participant(userId: string, status: ParticipantStatus, joinedAt: string)

  /** `participants.some((p) => p.userId === userId)`. */
  predicate IsParticipant(ps: seq<Participant>, userId: string) {
    exists i :: 0 <= i < |ps| && ps[i].userId == userId
  }

  predicate UniqueUsers(ps: seq<Participant>) {
    forall i, j :: 0 <= i < j < |ps| ==> ps[i].userId != ps[j].userId
  }

  /** `$push`: the applicant joins at the end as Pending. */
  function WithApplicant(ps: seq<Participant>, userId: string, joinedAt: string): (r: seq<Participant>)
    ensures |r| == |ps| + 1 && r[..|ps|] == ps && r[|ps|] == Participant(userId, Pending, joinedAt)
    ensures UniqueUsers(ps) && !IsParticipant(ps, userId) ==> UniqueUsers(r)
  {
    ps + [Participant(userId, Pending, joinedAt)]
  }

  /** `$pull: { participants: { userId } }`: every entry of the user goes, the rest stay in order. */
  function Pulled(ps: seq<Participant>, userId: string): (r: seq<Participant>)
    ensures forall p :: p in r <==> p in ps && p.userId != userId
    ensures !IsParticipant(r, userId)
    ensures |r| <= |ps|
    ensures !IsParticipant(ps, userId) ==> r == ps
    decreases |ps|
  {
    if ps == [] then []
    else
      var rest := Pulled(ps[1..], userId);
      assert forall i :: 1 <= i < |ps| ==> ps[i] == ps[1..][i - 1];
      if ps[0].userId == userId then rest else [ps[0]] + rest
  }

  /** Pulling works piece by piece, so the kept entries keep their relative order. */
  lemma {:induction false} PulledConcat(a: seq<Participant>, b: seq<Participant>, userId: string)
    ensures Pulled(a + b, userId) == Pulled(a, userId) + Pulled(b, userId)
    decreases |a|
  {
    if a == [] {
      assert a + b == b;
    } else {
      assert (a + b)[1..] == a[1..] + b;
      assert (a + b)[0] == a[0];
      PulledConcat(a[1..], b, userId);
      if a[0].userId != userId {
        assert [a[0]] + (Pulled(a[1..], userId) + Pulled(b, userId)) == ([a[0]] + Pulled(a[1..], userId)) + Pulled(b, userId);
      }
    }
  }

  /** Pulling keeps uniqueness. */
  lemma {:induction false} PulledUnique(ps: seq<Participant>, userId: string)
    requires UniqueUsers(ps)
    ensures UniqueUsers(Pulled(ps, userId))
    decreases |ps|
  {
    if ps != [] {
      PulledUnique(ps[1..], userId);
      var rest := Pulled(ps[1..], userId);
      if ps[0].userId != userId {
        forall j | 0 <= j < |rest| ensures rest[j].userId != ps[0].userId {
          assert rest[j] in ps[1..];
        }
      }
    }
  }

  /** Withdrawing right after applying restores the list. */
  lemma ApplyThenWithdraw(ps: seq<Participant>, userId: string, joinedAt: string)
    requires !IsParticipant(ps, userId)
    ensures Pulled(WithApplicant(ps, userId, joinedAt), userId) == ps
  {
    PulledConcat(ps, [Participant(userId, Pending, joinedAt)], userId);
  }

  /** The positional `$set` of `participants.$.status`: only the first entry of the user changes. */
  function SetFirstStatus(ps: seq<Participant>, userId: string, status: ParticipantStatus): (r: seq<Participant>)
    ensures |r| == |ps|
    ensures forall i :: 0 <= i < |ps| ==> r[i].userId == ps[i].userId && r[i].joinedAt == ps[i].joinedAt
    ensures !IsParticipant(ps, userId) ==> r == ps
    decreases |ps|
  {
    if ps == [] then []
    else if ps[0].userId == userId then [ps[0].(status := status)] + ps[1..]
    else
      assert forall i :: 1 <= i < |ps| ==> ps[i] == ps[1..][i - 1];
      [ps[0]] + SetFirstStatus(ps[1..], userId, status)
  }

  /** With unique users, exactly that participant gets the new status and everyone else is untouched. */
  lemma {:induction false} SetFirstStatusUnique(ps: seq<Participant>, userId: string, status: ParticipantStatus)
    requires UniqueUsers(ps)
    ensures forall i :: 0 <= i < |ps| ==>
      SetFirstStatus(ps, userId, status)[i] == (if ps[i].userId == userId then ps[i].(status := status) else ps[i])
    decreases |ps|
  {
    if ps != [] {
      SetFirstStatusUnique(ps[1..], userId, status);
      var r := SetFirstStatus(ps, userId, status);
      if ps[0].userId == userId {
        forall i | 1 <= i < |ps| ensures r[i] == ps[i] {
          assert ps[i].userId != userId;
        }
      } else {
        forall i | 1 <= i < |ps| ensures r[i] == (if ps[i].userId == userId then ps[i].(status := status) else ps[i]) {
          assert r[i] == SetFirstStatus(ps[1..], userId, status)[i - 1];
          assert ps[i] == ps[1..][i - 1];
        }
      }
    }
  }

  /** Every stored record's participant list, as `parts` reads it, names each user at most once. */
  predicate AllUniqueUsers<T>(docs: seq<Doc<T>>, parts: T -> seq<Participant>) {
    forall i :: 0 <= i < |docs| ==> UniqueUsers(parts(docs[i].body))
  }

  lemma UniqueUsersAt<T>(docs: seq<Doc<T>>, id: string, parts: T -> seq<Participant>)
    requires AllUniqueUsers(docs, parts)
    ensures Get(docs, id).Some? ==> UniqueUsers(parts(Get(docs, id).value))
  {
  }

  /** Replacing one body by one whose participants are unique keeps the store's invariant. */
  lemma SetBodyKeepsUniqueUsers<T>(docs: seq<Doc<T>>, id: string, body: T, parts: T -> seq<Participant>)
    requires UniqueIds(docs) && AllUniqueUsers(docs, parts) && UniqueUsers(parts(body))
    ensures UniqueIds(SetBody(docs, id, body)) && AllUniqueUsers(SetBody(docs, id, body), parts)
  {
    var r := SetBody(docs, id, body);
    forall i | 0 <= i < |r| ensures UniqueUsers(parts(r[i].body)) {
      if docs[i].id == id {
        UniqueIndex(docs, i);
        UniqueIndex(r, i);
      }
    }
  }

  lemma DeleteKeepsUniqueUsers<T>(docs: seq<Doc<T>>, id: string, parts: T -> seq<Participant>)
    requires UniqueIds(docs) && AllUniqueUsers(docs, parts)
    ensures UniqueIds(Delete(docs, id)) && AllUniqueUsers(Delete(docs, id), parts)
  {
    var r := Delete(docs, id);
    forall i | 0 <= i < |r| ensures UniqueUsers(parts(r[i].body)) {
      assert r[i] in docs;
    }
  }
}
