/**
 * `AchievementHelper`: the percentage shown for a progress value, the
 * achievements still to earn, the progress ordering of a user's records and
 * the grouping of definitions by type. Every operation builds a new value.
 */
module AchievementHelper {
  import opened Common
  import opened Documents
  import opened Sorting
  import opened Grouping
  import opened Achievements

  /** `calculateProgressPercentage`, for a non-zero total of either sign. */
  function ProgressPercentage(current: real, total: real): (r: real)
    requires total != 0.0
    ensures r <= 100.0
    ensures r == 100.0 || r == current / total * 100.0
    ensures r == 100.0 <==> current / total >= 1.0
    ensures total > 0.0 && current >= total ==> r == 100.0
    ensures total > 0.0 && current < total ==> r == current / total * 100.0
    ensures total > 0.0 && current >= 0.0 ==> r >= 0.0
  {
    var raw := current / total * 100.0;
    if raw < 100.0 then raw else 100.0
  }

  /** More progress never shows a smaller percentage. */
  lemma PercentageMonotone(a: real, b: real, total: real)
    requires total > 0.0 && a <= b
    ensures ProgressPercentage(a, total) <= ProgressPercentage(b, total)
  {
    assert a / total <= b / total;
  }

  /** `completedIds`: the achievement ids of the completed records. */
  function CompletedIds(userAchievements: seq<UserAchievement>): set<string> {
    set ua | ua in userAchievements && ua.isCompleted :: ua.achievementId
  }

  /** Whether some completed record of the user is for this achievement. */
  predicate CompletedFor(userAchievements: seq<UserAchievement>, id: string) {
    id in CompletedIds(userAchievements)
  }

  /** `getNextAchievements`: the definitions, in their order, that no completed record names. */
  function NextAchievements(userAchievements: seq<UserAchievement>, all: seq<Doc<AchievementDef>>): (r: seq<Doc<AchievementDef>>)
    ensures forall d :: d in r <==> d in all && !CompletedFor(userAchievements, d.id)
    ensures |r| <= |all|
  {
    if all == [] then []
    else (if CompletedFor(userAchievements, all[0].id) then [] else [all[0]]) + NextAchievements(userAchievements, all[1..])
  }

  /**
   * The filter works element by element: the result for a concatenation is
   * the results for its parts, in order. With the membership clause on
   * single definitions, this fixes the order and the multiplicity.
   */
  lemma {:induction false} NextConcat(userAchievements: seq<UserAchievement>, a: seq<Doc<AchievementDef>>, b: seq<Doc<AchievementDef>>)
    ensures NextAchievements(userAchievements, a + b) == NextAchievements(userAchievements, a) + NextAchievements(userAchievements, b)
    decreases |a|
  {
    if a == [] {
      assert a + b == b;
    } else {
      var head := if CompletedFor(userAchievements, a[0].id) then [] else [a[0]];
      assert (a + b)[1..] == a[1..] + b;
      assert (a + b)[0] == a[0];
      assert NextAchievements(userAchievements, a + b) == head + NextAchievements(userAchievements, (a + b)[1..]);
      assert NextAchievements(userAchievements, a) == head + NextAchievements(userAchievements, a[1..]);
      NextConcat(userAchievements, a[1..], b);
      var x, y := NextAchievements(userAchievements, a[1..]), NextAchievements(userAchievements, b);
      assert NextAchievements(userAchievements, a + b) == head + (x + y);
      ConcatAssoc(head, x, y);
    }
  }

  /** Completing nothing leaves every achievement still to earn. */
  lemma {:induction false} NothingCompletedAllNext(userAchievements: seq<UserAchievement>, all: seq<Doc<AchievementDef>>)
    requires forall ua :: ua in userAchievements ==> !ua.isCompleted
    ensures NextAchievements(userAchievements, all) == all
  {
    if all != [] {
      NothingCompletedAllNext(userAchievements, all[1..]);
      assert !CompletedFor(userAchievements, all[0].id);
      assert all == [all[0]] + all[1..];
    }
  }

  /** Completion times, newest first; a record without one comes after those with one. */
  predicate NewerOrSame(a: Option<int>, b: Option<int>) {
    match (a, b)
    case (Some(x), Some(y)) => x >= y
    case (Some(_), None) => true
    case (None, Some(_)) => false
    case (None, None) => true
  }

  /**
   * The order of `sortAchievementsByProgress`: incomplete records first,
   * those by progress, highest first; then completed records by completion
   * time, newest first.
   */
  predicate ProgressLe(a: UserAchievement, b: UserAchievement) {
    if a.isCompleted != b.isCompleted then !a.isCompleted
    else if !a.isCompleted then a.progress >= b.progress
    else NewerOrSame(a.completedAt, b.completedAt)
  }

  lemma ProgressLeIsTotalPreorder()
    ensures TotalPreorder(ProgressLe)
  {
    forall a: UserAchievement, b: UserAchievement ensures ProgressLe(a, b) || ProgressLe(b, a) {
    }
    forall a: UserAchievement, b: UserAchievement, c: UserAchievement | ProgressLe(a, b) && ProgressLe(b, c)
      ensures ProgressLe(a, c)
    {
    }
  }

  /** `sortAchievementsByProgress`: a sorted copy, a permutation of the records. */
  function SortByProgress(s: seq<UserAchievement>): (r: seq<UserAchievement>)
    ensures multiset(r) == multiset(s) && |r| == |s|
    ensures forall i, j :: 0 <= i < j < |r| && r[i].isCompleted ==> r[j].isCompleted
    ensures forall i, j :: 0 <= i < j < |r| && !r[i].isCompleted && !r[j].isCompleted ==> r[i].progress >= r[j].progress
    ensures forall i, j :: 0 <= i < j < |r| && r[i].isCompleted && r[j].isCompleted ==>
      NewerOrSame(r[i].completedAt, r[j].completedAt)
  {
    ProgressLeIsTotalPreorder();
    var r := SortBy(s, ProgressLe);
    assert forall i, j :: 0 <= i < j < |r| ==> ProgressLe(r[i], r[j]);
    r
  }

  function TypeOf(a: AchievementDef): string {
    a.achievementType
  }

  /**
   * `groupAchievementsByType`: one group per type that occurs, holding the
   * definitions of that type in their original order.
   */
  function GroupByType(s: seq<AchievementDef>): (groups: map<string, seq<AchievementDef>>)
    ensures forall t :: t in groups <==> exists a :: a in s && a.achievementType == t
    ensures forall t :: t in groups ==> |groups[t]| > 0 && groups[t] == WithKey(s, TypeOf, t)
    ensures forall a :: a in s ==> a.achievementType in groups && a in groups[a.achievementType]
  {
    var g := GroupBy(s, TypeOf);
    forall a | a in s ensures a.achievementType in g && a in g[a.achievementType] {
      ItemInOwnGroup(s, TypeOf, a, a.achievementType);
    }
    g
  }
}
