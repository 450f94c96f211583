/**
 * `AchievementsService`: achievement definitions, one progress record per
 * (user, achievement), and the completion step that fires once per record.
 * The completion handler has no effect beyond being called, so its calls are
 * kept as a log; the clock and new record ids are parameters.
 */
module Achievements {
  import opened Common
  import opened Documents

  /** An achievement definition. `isHidden` is not a declared field, so it may be absent. */
  datatype AchievementDef = AchievementDef(
    name: string, description: string, icon: string, color: string, total: int, achievementType: string,
    isHidden: Option<bool>)

  datatype UserAchievement = UserAchievement(
    userId: string, achievementId: string, progress: int, isCompleted: bool, completedAt: Option<int>)

  /** One call of the completion handler. */
  datatype Completion = Completion(userId: string, achievementId: string)

  predicate SamePair(a: UserAchievement, userId: string, achievementId: string) {
    a.userId == userId && a.achievementId == achievementId
  }

  /** At most one record per (user, achievement). */
  predicate OnePerPair(s: seq<Doc<UserAchievement>>) {
    forall i, j :: 0 <= i < j < |s| ==> !SamePair(s[j].body, s[i].body.userId, s[i].body.achievementId)
  }

  /** Every completed record carries its completion time. */
  predicate CompletionsStamped(s: seq<Doc<UserAchievement>>) {
    forall i :: 0 <= i < |s| && s[i].body.isCompleted ==> s[i].body.completedAt.Some?
  }

  /** The index of the record of this pair. */
  function RecordIndex(s: seq<Doc<UserAchievement>>, userId: string, achievementId: string): (r: Option<nat>)
    ensures r.Some? ==> r.value < |s| && SamePair(s[r.value].body, userId, achievementId)
    ensures r.None? ==> forall i :: 0 <= i < |s| ==> !SamePair(s[i].body, userId, achievementId)
  {
    if s == [] then None
    else if SamePair(s[0].body, userId, achievementId) then Some(0)
    else match RecordIndex(s[1..], userId, achievementId)
      case None => None
      case Some(k) => Some(k + 1)
  }

  /**
   * The record after a progress report: the progress is overwritten, and a
   * record reaching its total becomes completed, stamped with `now` on the
   * transition only. A completed record never becomes incomplete.
   */
  function Progressed(a: UserAchievement, total: int, progress: int, now: int): (r: UserAchievement)
    ensures r.userId == a.userId && r.achievementId == a.achievementId && r.progress == progress
    ensures r.isCompleted <==> a.isCompleted || progress >= total
    ensures a.isCompleted ==> r.completedAt == a.completedAt
    ensures !a.isCompleted && progress >= total ==> r.completedAt == Some(now)
    ensures !a.isCompleted && progress < total ==> r.completedAt == a.completedAt
  {
    if progress >= total && !a.isCompleted then a.(progress := progress, isCompleted := true, completedAt := Some(now))
    else a.(progress := progress)
  }

  /** Overwriting a record by one of the same id and pair keeps the store's invariants. */
  lemma ReplacedRecordKeeps(s: seq<Doc<UserAchievement>>, k: nat, after: Doc<UserAchievement>)
    requires UniqueIds(s) && OnePerPair(s) && CompletionsStamped(s)
    requires k < |s| && after.id == s[k].id && SamePair(after.body, s[k].body.userId, s[k].body.achievementId)
    requires after.body.isCompleted ==> after.body.completedAt.Some?
    ensures UniqueIds(s[k := after]) && OnePerPair(s[k := after]) && CompletionsStamped(s[k := after])
  {
    var r := s[k := after];
    forall i, j | 0 <= i < j < |r| ensures r[i].id != r[j].id {
      assert r[i].id == s[i].id && r[j].id == s[j].id;
    }
    forall i, j | 0 <= i < j < |r| ensures !SamePair(r[j].body, r[i].body.userId, r[i].body.achievementId) {
      assert SamePair(r[i].body, s[i].body.userId, s[i].body.achievementId);
      assert SamePair(r[j].body, s[j].body.userId, s[j].body.achievementId);
    }
  }

  /** Adding a record of a new id and a pair without a record keeps the store's invariants. */
  lemma AppendedRecordKeeps(s: seq<Doc<UserAchievement>>, after: Doc<UserAchievement>)
    requires UniqueIds(s) && OnePerPair(s) && CompletionsStamped(s)
    requires !HasId(s, after.id) && RecordIndex(s, after.body.userId, after.body.achievementId).None?
    requires after.body.isCompleted ==> after.body.completedAt.Some?
    ensures UniqueIds(s + [after]) && OnePerPair(s + [after]) && CompletionsStamped(s + [after])
  {
    var r := s + [after];
    forall i, j | 0 <= i < j < |r| ensures r[i].id != r[j].id {
      assert r[i] == s[i];
    }
    forall i, j | 0 <= i < j < |r| ensures !SamePair(r[j].body, r[i].body.userId, r[i].body.achievementId) {
      assert r[i] == s[i];
    }
  }

  /** Whether this report is the one that completes the record (and calls the handler). */
  predicate Completes(a: UserAchievement, total: int, progress: int) {
    progress >= total && !a.isCompleted
  }

  /** Once completed, later reports, whatever their progress, keep the completion and its time. */
  lemma {:induction false} CompletionIsFinal(a: UserAchievement, total: int, reports: seq<int>, times: seq<int>)
    requires a.isCompleted && |times| == |reports|
    ensures var r := Replayed(a, total, reports, times); r.isCompleted && r.completedAt == a.completedAt
    decreases |reports|
  {
    if reports != [] {
      CompletionIsFinal(Progressed(a, total, reports[0], times[0]), total, reports[1..], times[1..]);
    }
  }

  /** The record after a sequence of reports. */
  function Replayed(a: UserAchievement, total: int, reports: seq<int>, times: seq<int>): UserAchievement
    requires |times| == |reports|
    decreases |reports|
  {
    if reports == [] then a else Replayed(Progressed(a, total, reports[0], times[0]), total, reports[1..], times[1..])
  }

  /** The number of reports in a sequence that complete the record: never more than one. */
  function CompletingReports(a: UserAchievement, total: int, reports: seq<int>, times: seq<int>): (n: nat)
    requires |times| == |reports|
    decreases |reports|
  {
    if reports == [] then 0
    else
      var first := if Completes(a, total, reports[0]) then 1 else 0;
      first + CompletingReports(Progressed(a, total, reports[0], times[0]), total, reports[1..], times[1..])
  }

  lemma {:induction false} HandlerRunsAtMostOnce(a: UserAchievement, total: int, reports: seq<int>, times: seq<int>)
    requires |times| == |reports|
    ensures CompletingReports(a, total, reports, times) <= 1
    ensures a.isCompleted ==> CompletingReports(a, total, reports, times) == 0
    decreases |reports|
  {
    if reports != [] {
      var next := Progressed(a, total, reports[0], times[0]);
      HandlerRunsAtMostOnce(next, total, reports[1..], times[1..]);
    }
  }

  /**
   * `calculateProgress`: every case of its switch yields 0 (the cases also
   * name upper-case types that the stored lower-case types never match).
   */
  function CalculateProgress(userId: string, a: AchievementDef): (p: int)
    ensures p == 0
  {
    match a.achievementType
    case "MARKERS_CREATED" => 0
    case "MARKERS_COMPLETED" => 0
    case "MESSAGES_SENT" => 0
    case "REACTIONS_RECEIVED" => 0
    case "HELP_PROVIDED" => 0
    case _ => 0
  }

  function Visible(s: seq<AchievementDef>): (r: seq<AchievementDef>)
    ensures forall a :: a in r <==> a in s && a.isHidden == Some(false)
    ensures |r| <= |s|
  {
    if s == [] then []
    else (if s[0].isHidden == Some(false) then [s[0]] else []) + Visible(s[1..])
  }

  function RecordsOf(s: seq<UserAchievement>, userId: string): (r: seq<UserAchievement>)
    ensures forall a :: a in r <==> a in s && a.userId == userId
    ensures |r| <= |s|
  {
    if s == [] then []
    else (if s[0].userId == userId then [s[0]] else []) + RecordsOf(s[1..], userId)
  }

  class AchievementStore {
    var definitions: seq<Doc<AchievementDef>>
    var records: seq<Doc<UserAchievement>>
    /** Every call of the completion handler, oldest first. */
    var completions: seq<Completion>

    ghost predicate Valid()
      reads this
    {
      UniqueIds(definitions) && UniqueIds(records) && OnePerPair(records) && CompletionsStamped(records)
    }

    constructor(definitions: seq<Doc<AchievementDef>>)
      requires UniqueIds(definitions)
      ensures Valid() && this.definitions == definitions && records == [] && completions == []
    {
      this.definitions := definitions;
      records := [];
      completions := [];
    }

    /** `getAchievements`: the definitions stored with `isHidden: false`. */
    function GetAchievements(): (r: seq<AchievementDef>)
      reads this
      ensures forall a :: a in r <==> a in Bodies(definitions) && a.isHidden == Some(false)
    {
      Visible(Bodies(definitions))
    }

    /** `getUserAchievements`: exactly that user's records. */
    function GetUserAchievements(userId: string): (r: seq<UserAchievement>)
      reads this
      ensures forall a :: a in r <==> a in Bodies(records) && a.userId == userId
    {
      RecordsOf(Bodies(records), userId)
    }

    /**
     * `updateAchievementProgress`: a malformed achievement id fails the cast
     * and an unknown one fails. The pair's record (created with progress 0
     * when missing) gets the new progress and, on reaching the total for the
     * first time, its completion; the handler is called exactly then.
     */
    method UpdateAchievementProgress(userId: string, achievementId: string, progress: int, newId: string, now: int)
      returns (r: Outcome<Doc<UserAchievement>>)
      requires Valid() && !HasId(records, newId)
      modifies this
      ensures Valid() && definitions == old(definitions)
      ensures !IsObjectId(achievementId) ==> r == Err(InvalidId) && unchanged(this)
      ensures IsObjectId(achievementId) && !HasId(definitions, achievementId) ==> r == Err(Failure) && unchanged(this)
      ensures IsObjectId(achievementId) && HasId(definitions, achievementId) ==>
        var total := Get(definitions, achievementId).value.total;
        var k := RecordIndex(old(records), userId, achievementId);
        var before := if k.Some? then old(records)[k.value] else Doc(newId, UserAchievement(userId, achievementId, 0, false, None));
        var after := Doc(before.id, Progressed(before.body, total, progress, now));
        && r == Ok(after)
        && (k.Some? ==> records == old(records)[k.value := after])
        && (k.None? ==> records == old(records) + [after])
        && completions == old(completions) + (if Completes(before.body, total, progress) then [Completion(userId, achievementId)] else [])
    {
      if !IsObjectId(achievementId) {
        return Err(InvalidId);
      }
      var def := Get(definitions, achievementId);
      if def.None? {
        return Err(Failure);
      }
      var total := def.value.total;
      var k := RecordIndex(records, userId, achievementId);
      var before := if k.Some? then records[k.value] else Doc(newId, UserAchievement(userId, achievementId, 0, false, None));
      var updated := before.body.(progress := progress);
      if progress >= total && !before.body.isCompleted {
        updated := updated.(isCompleted := true, completedAt := Some(now));
        completions := completions + [Completion(userId, achievementId)];
      }
      var after := Doc(before.id, updated);
      if k.Some? {
        ReplacedRecordKeeps(records, k.value, after);
        records := records[k.value := after];
      } else {
        AppendedRecordKeeps(records, after);
        records := records + [after];
      }
      r := Ok(after);
    }

    /**
     * `checkAchievementProgress`: for each definition, a positive computed
     * progress would be reported. The computed progress is always 0, so the
     * report is never made and nothing changes.
     */
    method CheckAchievementProgress(userId: string)
      requires Valid()
      modifies this
      ensures Valid() && unchanged(this)
    {
      var i := 0;
      while i < |definitions|
        invariant 0 <= i <= |definitions|
        invariant unchanged(this)
      {
        var progress := CalculateProgress(userId, definitions[i].body);
        if progress > 0 {
          assert false;
        }
        i := i + 1;
      }
    }
  }
}
