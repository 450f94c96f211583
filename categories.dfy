/**
 * `CategoriesService`: the category collection with its marker counters, the
 * active-by-name listing, lookups that fail with NotFound, and the reset to the
 * five default categories.
 */
module Categories {
  import opened Common
  import opened Documents
  import opened Sorting

  datatype Category = Category(
    name: string,
    icon: string,
    color: string,
    description: Option<string>,
    categoryType: string,
    markersCount: int,
    isActive: bool)

  /** `Partial<Category>`: the fields an update sets. */
  datatype CategoryPatch = CategoryPatch(
    name: Option<string>,
    icon: Option<string>,
    color: Option<string>,
    description: Option<string>,
    categoryType: Option<string>,
    markersCount: Option<int>,
    isActive: Option<bool>)

  function Pick<T>(p: Option<T>, current: T): T {
    if p.Some? then p.value else current
  }

  /** The record after `findByIdAndUpdate(id, patch, { new: true })`. */
  function Patched(c: Category, p: CategoryPatch): (r: Category)
    ensures p.name.Some? ==> r.name == p.name.value
    ensures p.name.None? ==> r.name == c.name
    ensures p.markersCount.None? ==> r.markersCount == c.markersCount
    ensures p.isActive.None? ==> r.isActive == c.isActive
  {
    Category(
      Pick(p.name, c.name), Pick(p.icon, c.icon), Pick(p.color, c.color),
      if p.description.Some? then p.description else c.description,
      Pick(p.categoryType, c.categoryType), Pick(p.markersCount, c.markersCount),
      Pick(p.isActive, c.isActive))
  }

  /** `.sort({ name: 1 })`. */
  predicate NameLe(a: Category, b: Category) {
    LexLessEq(a.name, b.name)
  }

  lemma NameLeIsTotalPreorder()
    ensures TotalPreorder(NameLe)
  {
    forall a: Category, b: Category ensures NameLe(a, b) || NameLe(b, a) {
      LexTotal(a.name, b.name);
    }
    forall a: Category, b: Category, c: Category | NameLe(a, b) && NameLe(b, c) ensures NameLe(a, c) {
      LexTransitive(a.name, b.name, c.name);
    }
  }

  /** `find({ isActive: true })`, in collection order. */
  function Active(s: seq<Category>): (r: seq<Category>)
    ensures forall c :: c in r <==> c in s && c.isActive
    ensures |r| <= |s|
  {
    if s == [] then []
    else (if s[0].isActive then [s[0]] else []) + Active(s[1..])
  }

  /** `$inc: { markersCount: delta }` on the record with this id; no record, no change. */
  function Bumped(s: seq<Doc<Category>>, id: string, delta: int): (r: seq<Doc<Category>>)
    ensures |r| == |s| && forall i :: 0 <= i < |s| ==> r[i].id == s[i].id
  {
    match Get(s, id)
    case None => s
    case Some(c) => SetBody(s, id, c.(markersCount := c.markersCount + delta))
  }

  /** The count of the category with this id changes by exactly `delta`; every other record is untouched. */
  lemma BumpedChangesOnlyThatCount(s: seq<Doc<Category>>, id: string, delta: int)
    requires UniqueIds(s)
    ensures var r := Bumped(s, id, delta);
      && (forall i :: 0 <= i < |s| && s[i].id != id ==> r[i] == s[i])
      && (forall i :: 0 <= i < |s| && s[i].id == id ==>
            r[i].body == s[i].body.(markersCount := s[i].body.markersCount + delta))
  {
    var r := Bumped(s, id, delta);
    forall i | 0 <= i < |s| && s[i].id == id
      ensures r[i].body == s[i].body.(markersCount := s[i].body.markersCount + delta)
    {
      UniqueIndex(s, i);
      UniqueIndex(r, i);
    }
  }

  /** A decrement undoes an increment. */
  lemma DecrementUndoesIncrement(s: seq<Doc<Category>>, id: string)
    requires UniqueIds(s)
    ensures Bumped(Bumped(s, id, 1), id, -1) == s
  {
    var r := Bumped(s, id, 1);
    BumpedChangesOnlyThatCount(s, id, 1);
    BumpedChangesOnlyThatCount(r, id, -1);
    var t := Bumped(r, id, -1);
    assert forall i :: 0 <= i < |s| ==> t[i] == s[i];
  }

  /** The number of markers counted over all categories. */
  function Total(s: seq<Doc<Category>>): int {
    if s == [] then 0 else s[0].body.markersCount + Total(s[1..])
  }

  /** Two collections that differ only in the count at index `i`, by `delta`, differ by `delta` in total. */
  lemma {:induction false} TotalDiffersAt(s: seq<Doc<Category>>, r: seq<Doc<Category>>, i: nat, delta: int)
    requires |r| == |s| && i < |s|
    requires forall j :: 0 <= j < |s| && j != i ==> r[j].body.markersCount == s[j].body.markersCount
    requires r[i].body.markersCount == s[i].body.markersCount + delta
    ensures Total(r) == Total(s) + delta
    decreases |s|
  {
    if i > 0 {
      TotalDiffersAt(s[1..], r[1..], i - 1, delta);
    } else {
      TotalSame(s[1..], r[1..]);
    }
  }

  lemma {:induction false} TotalSame(s: seq<Doc<Category>>, r: seq<Doc<Category>>)
    requires |r| == |s| && forall j :: 0 <= j < |s| ==> r[j].body.markersCount == s[j].body.markersCount
    ensures Total(r) == Total(s)
    decreases |s|
  {
    if s != [] {
      TotalSame(s[1..], r[1..]);
    }
  }

  /** An increment or decrement of an existing category moves the total by exactly `delta`. */
  lemma BumpedTotal(s: seq<Doc<Category>>, id: string, delta: int)
    requires UniqueIds(s) && HasId(s, id)
    ensures Total(Bumped(s, id, delta)) == Total(s) + delta
  {
    var i :| 0 <= i < |s| && s[i].id == id;
    BumpedChangesOnlyThatCount(s, id, delta);
    TotalDiffersAt(s, Bumped(s, id, delta), i, delta);
  }

  /** The five categories `initializeDefaultCategories` inserts, with their schema defaults. */
  function DefaultCategories(): (r: seq<Category>)
    ensures |r| == 5 && forall i :: 0 <= i < 5 ==> r[i].markersCount == 0 && r[i].isActive
  {
    [ Category("Moving Help", "truck", "#FF5733", Some("Help with moving and transportation"), "moving", 0, true),
      Category("Elderly Care", "heart", "#33FF57", Some("Assistance for elderly people"), "care", 0, true),
      Category("Pet Care", "paw", "#3357FF", Some("Help with pets and animal care"), "pets", 0, true),
      Category("Home Repair", "tools", "#FF33F6", Some("Assistance with home repairs and maintenance"), "repair", 0, true),
      Category("Education", "book", "#33FFF6", Some("Educational support and tutoring"), "education", 0, true) ]
  }

  predicate DistinctIds(ids: seq<string>) {
    forall i, j :: 0 <= i < j < |ids| ==> ids[i] != ids[j]
  }

  class CategoryStore {
    var docs: seq<Doc<Category>>

    ghost predicate Valid()
      reads this
    {
      UniqueIds(docs)
    }

    constructor()
      ensures Valid() && docs == []
    {
      docs := [];
    }

    /** `findAll`: the active categories, sorted by name (ties in collection order). */
    function FindAll(): (r: seq<Category>)
      reads this
      ensures Sorted(r, NameLe)
      ensures multiset(r) == multiset(Active(Bodies(docs)))
      ensures forall c :: c in r <==> c.isActive && exists i :: 0 <= i < |docs| && docs[i].body == c
    {
      NameLeIsTotalPreorder();
      var r := SortBy(Active(Bodies(docs)), NameLe);
      assert forall c :: c in r <==> c in multiset(Active(Bodies(docs)));
      r
    }

    /** `findOne`: a malformed id fails the cast; an unknown one is NotFound. */
    function FindOne(id: string): (r: Outcome<Category>)
      reads this
      ensures !IsObjectId(id) ==> r == Err(InvalidId)
      ensures IsObjectId(id) && !HasId(docs, id) ==> r == Err(NotFound)
      ensures r.Ok? ==> exists i :: 0 <= i < |docs| && docs[i].id == id && docs[i].body == r.value
      ensures IsObjectId(id) && HasId(docs, id) ==> r.Ok?
    {
      if !IsObjectId(id) then Err(InvalidId)
      else match Get(docs, id)
        case None => Err(NotFound)
        case Some(c) => Ok(c)
    }

    /** `update`: the patched record, or the error of the lookup with nothing changed. */
    method Update(id: string, patch: CategoryPatch) returns (r: Outcome<Category>)
      requires Valid()
      modifies this
      ensures Valid()
      ensures old(FindOne(id)).Err? ==> r == old(FindOne(id)) && docs == old(docs)
      ensures old(FindOne(id)).Ok? ==> r == Ok(Patched(old(FindOne(id)).value, patch))
      ensures r.Ok? ==> docs == SetBody(old(docs), id, r.value) && FindOne(id) == r
    {
      r := FindOne(id);
      if r.Ok? {
        r := Ok(Patched(r.value, patch));
        docs := SetBody(docs, id, r.value);
      }
    }

    /** `remove`: deletes the record, or fails as the lookup does with nothing changed. */
    method Remove(id: string) returns (r: Outcome<()>)
      requires Valid()
      modifies this
      ensures Valid()
      ensures old(FindOne(id)).Err? ==> r == Err(old(FindOne(id)).error) && docs == old(docs)
      ensures old(FindOne(id)).Ok? ==> r == Ok(()) && docs == Delete(old(docs), id) && FindOne(id) == Err(NotFound)
    {
      var found := FindOne(id);
      if found.Err? {
        r := Err(found.error);
      } else {
        docs := Delete(docs, id);
        r := Ok(());
      }
    }

    /** `incrementMarkersCount`: +1 on that category; an unknown id changes nothing. */
    method IncrementMarkersCount(id: string) returns (r: Outcome<()>)
      requires Valid()
      modifies this
      ensures Valid()
      ensures !IsObjectId(id) ==> r == Err(InvalidId) && docs == old(docs)
      ensures IsObjectId(id) ==> r == Ok(()) && docs == Bumped(old(docs), id, 1)
    {
      if !IsObjectId(id) {
        r := Err(InvalidId);
      } else {
        docs := Bumped(docs, id, 1);
        r := Ok(());
      }
    }

    /** `decrementMarkersCount`: −1 on that category, with no lower bound. */
    method DecrementMarkersCount(id: string) returns (r: Outcome<()>)
      requires Valid()
      modifies this
      ensures Valid()
      ensures !IsObjectId(id) ==> r == Err(InvalidId) && docs == old(docs)
      ensures IsObjectId(id) ==> r == Ok(()) && docs == Bumped(old(docs), id, -1)
    {
      if !IsObjectId(id) {
        r := Err(InvalidId);
      } else {
        docs := Bumped(docs, id, -1);
        r := Ok(());
      }
    }

    /** `initializeDefaultCategories`: empties the collection, then inserts the five defaults under the ids the store assigns. */
    method InitializeDefaultCategories(ids: seq<string>)
      requires |ids| == 5 && DistinctIds(ids)
      modifies this
      ensures Valid()
      ensures |docs| == 5 && forall i :: 0 <= i < 5 ==> docs[i] == Doc(ids[i], DefaultCategories()[i])
    {
      var defaults := DefaultCategories();
      docs := seq(5, i requires 0 <= i < 5 => Doc(ids[i], defaults[i]));
    }
  }

  /** Filtering a list of active categories keeps all of it. */
  lemma {:induction false} ActiveOfAllActive(s: seq<Category>)
    requires forall i :: 0 <= i < |s| ==> s[i].isActive
    ensures Active(s) == s
  {
    if s != [] {
      ActiveOfAllActive(s[1..]);
    }
  }

  /** After the reset every category is active, so the listing shows all five. */
  lemma DefaultsAllListed(s: seq<Doc<Category>>, ids: seq<string>)
    requires |ids| == 5 && |s| == 5 && forall i :: 0 <= i < 5 ==> s[i] == Doc(ids[i], DefaultCategories()[i])
    ensures Active(Bodies(s)) == DefaultCategories()
  {
    var b := Bodies(s);
    assert b == DefaultCategories();
    ActiveOfAllActive(b);
  }
}
