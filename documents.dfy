/**
 * A document collection as the services see it: records tagged with their
 * object id, in insertion order, at most one per id. Lookups by an id string
 * that is not an object id fail with a cast error before reaching the
 * collection.
 */
module Documents {
  import opened Common

  datatype Doc<T> = Doc(id: string, body: T)

  predicate IsHexDigit(c: char) {
    ('0' <= c <= '9') || ('a' <= c <= 'f') || ('A' <= c <= 'F')
  }

  /** The string form of an object id: 24 hexadecimal digits. */
  predicate IsObjectId(s: string) {
    |s| == 24 && forall i :: 0 <= i < |s| ==> IsHexDigit(s[i])
  }

  predicate UniqueIds<T>(s: seq<Doc<T>>) {
    forall i, j :: 0 <= i < j < |s| ==> s[i].id != s[j].id
  }

  predicate HasId<T>(s: seq<Doc<T>>, id: string) {
    exists i :: 0 <= i < |s| && s[i].id == id
  }

  /** The position of the first record with this id. */
  function IndexOf<T>(s: seq<Doc<T>>, id: string): (r: Option<nat>)
    ensures r.Some? ==> r.value < |s| && s[r.value].id == id
    ensures r.Some? ==> forall j :: 0 <= j < r.value ==> s[j].id != id
    ensures r.None? <==> !HasId(s, id)
    decreases |s|
  {
    if s == [] then None
    else if s[0].id == id then Some(0)
    else
      match IndexOf(s[1..], id)
      case None =>
        assert forall i :: 1 <= i < |s| ==> s[i] == s[1..][i - 1];
        None
      case Some(k) =>
        assert s[k + 1] == s[1..][k];
        Some(k + 1)
  }

  /** In a collection with unique ids, the record with a given id is at its index. */
  lemma UniqueIndex<T>(s: seq<Doc<T>>, i: nat)
    requires UniqueIds(s) && i < |s|
    ensures IndexOf(s, s[i].id) == Some(i)
  {
  }

  /** `findById`: the record body, if a record has that id. */
  function Get<T>(s: seq<Doc<T>>, id: string): (r: Option<T>)
    ensures r.Some? <==> HasId(s, id)
    ensures r.Some? ==> exists i :: 0 <= i < |s| && s[i].id == id && s[i].body == r.value
  {
    match IndexOf(s, id)
    case None => None
    case Some(i) => Some(s[i].body)
  }

  /** Replaces the body of the record with this id; everything else stays. */
  function SetBody<T>(s: seq<Doc<T>>, id: string, body: T): (r: seq<Doc<T>>)
    ensures |r| == |s| && forall i :: 0 <= i < |s| ==> r[i].id == s[i].id
    ensures HasId(s, id) ==> Get(r, id) == Some(body)
    ensures !HasId(s, id) ==> r == s
    ensures forall i :: 0 <= i < |s| && s[i].id != id ==> r[i] == s[i]
  {
    match IndexOf(s, id)
    case None => s
    case Some(i) =>
      var r := s[i := Doc(id, body)];
      assert r[i].id == id;
      assert forall j :: 0 <= j < i ==> r[j].id == s[j].id;
      assert IndexOf(r, id) == Some(i);
      r
  }

  /** After replacing the body of a stored record, the new record is in the collection. */
  lemma SetBodyStored<T>(s: seq<Doc<T>>, d: Doc<T>, body: T)
    requires d in s
    ensures Doc(d.id, body) in SetBody(s, d.id, body)
  {
    var i :| 0 <= i < |s| && s[i] == d;
    match IndexOf(s, d.id)
    case None =>
    case Some(k) =>
      assert SetBody(s, d.id, body)[k] == Doc(d.id, body);
  }

  /** The bodies of a concatenation are the concatenated bodies. */
  lemma BodiesConcat<T>(a: seq<Doc<T>>, b: seq<Doc<T>>)
    ensures Bodies(a + b) == Bodies(a) + Bodies(b)
  {
  }

  /** Removing the record at `i` shifts the tail down by one, position by position. */
  lemma RemovedAt<T>(s: seq<Doc<T>>, i: nat, j: nat)
    requires i < |s| && j < |s| - 1
    ensures (s[..i] + s[i + 1..])[j] == (if j < i then s[j] else s[j + 1])
  {
  }

  /** Removing the record at `i` keeps every other record, in order. */
  lemma RemoveAtShifts<T>(s: seq<Doc<T>>, i: nat)
    requires i < |s|
    ensures var r := s[..i] + s[i + 1..];
      |r| == |s| - 1 && forall j :: 0 <= j < |r| ==> r[j] == (if j < i then s[j] else s[j + 1])
  {
    forall j | 0 <= j < |s| - 1 ensures (s[..i] + s[i + 1..])[j] == (if j < i then s[j] else s[j + 1]) {
      RemovedAt(s, i, j);
    }
  }

  /** A record other than the removed one is still there. */
  lemma RemoveAtKeeps<T>(s: seq<Doc<T>>, i: nat)
    requires i < |s|
    ensures forall k :: 0 <= k < |s| && k != i ==> s[k] in s[..i] + s[i + 1..]
  {
    forall k | 0 <= k < |s| && k != i ensures s[k] in s[..i] + s[i + 1..] {
      var j := if k < i then k else k - 1;
      RemovedAt(s, i, j);
    }
  }

  /** Nothing new appears. */
  lemma RemoveAtOnlyOld<T>(s: seq<Doc<T>>, i: nat)
    requires i < |s|
    ensures forall d :: d in s[..i] + s[i + 1..] ==> d in s
  {
    forall d | d in s[..i] + s[i + 1..] ensures d in s {
      var r := s[..i] + s[i + 1..];
      var j :| 0 <= j < |r| && r[j] == d;
      RemovedAt(s, i, j);
    }
  }

  /** `findByIdAndDelete`: drops the first record with this id. */
  function Delete<T>(s: seq<Doc<T>>, id: string): (r: seq<Doc<T>>)
    ensures UniqueIds(s) ==> UniqueIds(r) && !HasId(r, id)
    ensures !HasId(s, id) ==> r == s
    ensures HasId(s, id) ==> |r| == |s| - 1
    ensures forall d :: d in s && d.id != id ==> d in r
    ensures forall d :: d in r ==> d in s
  {
    match IndexOf(s, id)
    case None => s
    case Some(i) =>
      RemoveAtShifts(s, i);
      RemoveAtKeeps(s, i);
      RemoveAtOnlyOld(s, i);
      s[..i] + s[i + 1..]
  }

  /** The bodies in collection order. */
  function Bodies<T>(s: seq<Doc<T>>): (r: seq<T>)
    ensures |r| == |s| && forall i :: 0 <= i < |s| ==> r[i] == s[i].body
  {
    seq(|s|, i requires 0 <= i < |s| => s[i].body)
  }
}
