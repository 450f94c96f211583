/**
 * How editing or re-statusing a help point or marker moves the per-category
 * counters. A counter update names a category (or nothing, when the source
 * passes `undefined`, which matches no category) and a delta.
 */
module CounterDeltas {
  import opened Common

  datatype Bump = Bump(categoryId: Option<string>, delta: int)

  function CountOf(counts: map<string, int>, k: string): int {
    if k in counts then counts[k] else 0
  }

  /** The counters after the bumps; a bump without a category changes nothing. */
  function AfterBumps(counts: map<string, int>, bumps: seq<Bump>): (r: map<string, int>)
    decreases |bumps|
  {
    if bumps == [] then counts
    else
      var b := bumps[0];
      var next := if b.categoryId.Some? then counts[b.categoryId.value := CountOf(counts, b.categoryId.value) + b.delta] else counts;
      AfterBumps(next, bumps[1..])
  }

  /** The counters follow the record from `oldCat` to `newCat`: −1 there, +1 here, nothing elsewhere. */
  ghost predicate MovesWithRecord(before: map<string, int>, after: map<string, int>, oldCat: string, newCat: string) {
    forall k :: CountOf(after, k) - CountOf(before, k) == (if k == newCat then 1 else 0) - (if k == oldCat then 1 else 0)
  }

  /**
   * The update step as written: whenever `updateData.categoryId !== stored`,
   * +1 for the patch's category and −1 for the stored one. A patch without a
   * category id is `undefined`, which differs from every stored id.
   */
  function UpdateBumpsAsWritten(patchCategory: Option<string>, stored: string): seq<Bump> {
    if patchCategory != Some(stored) then [Bump(patchCategory, 1), Bump(Some(stored), -1)] else []
  }

  /** The category a record has after the patch. */
  function NewCategory(patchCategory: Option<string>, stored: string): string {
    if patchCategory.Some? then patchCategory.value else stored
  }

  /** The intended update step: counters move only when the patch names a different category. */
  function UpdateBumps(patchCategory: Option<string>, stored: string): (bumps: seq<Bump>)
    ensures patchCategory.None? || patchCategory == Some(stored) ==> bumps == []
  {
    if patchCategory.Some? && patchCategory.value != stored then [Bump(patchCategory, 1), Bump(Some(stored), -1)] else []
  }

  /** With the intended step the counters always follow the record. */
  lemma UpdateBumpsFollowRecord(counts: map<string, int>, patchCategory: Option<string>, stored: string)
    ensures MovesWithRecord(counts, AfterBumps(counts, UpdateBumps(patchCategory, stored)), stored, NewCategory(patchCategory, stored))
  {
    var after := AfterBumps(counts, UpdateBumps(patchCategory, stored));
    if patchCategory.Some? && patchCategory.value != stored {
      var c := patchCategory.value;
      var mid := counts[c := CountOf(counts, c) + 1];
      assert after == AfterBumps(mid, [Bump(Some(stored), -1)]);
      assert [Bump(Some(stored), -1)][1..] == [];
      assert after == AfterBumps(mid[stored := CountOf(mid, stored) - 1], []);
    }
  }

  /** As written, a patch that leaves the category alone still takes one from it. */
  lemma AsWrittenDropsUnchangedCategory(counts: map<string, int>, stored: string)
    ensures var after := AfterBumps(counts, UpdateBumpsAsWritten(None, stored));
      CountOf(after, stored) == CountOf(counts, stored) - 1
      && !MovesWithRecord(counts, after, stored, NewCategory(None, stored))
  {
    var after := AfterBumps(counts, UpdateBumpsAsWritten(None, stored));
    assert after == AfterBumps(counts, [Bump(Some(stored), -1)]);
    assert [Bump(Some(stored), -1)][1..] == [];
    assert after == AfterBumps(counts[stored := CountOf(counts, stored) - 1], []);
    assert CountOf(after, stored) - CountOf(counts, stored) != 0;
  }

  /** The two steps agree whenever the patch names a category. */
  lemma AsWrittenAgreesWithCategory(patchCategory: string, stored: string)
    ensures UpdateBumpsAsWritten(Some(patchCategory), stored) == UpdateBumps(Some(patchCategory), stored)
  {
  }
}
