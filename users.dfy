/**
 * `UsersService`: the user collection, lookups by id and phone number,
 * updates that delete a replaced avatar from storage, and the
 * find-or-create of a user by phone number used at registration.
 * Password hashing is a function parameter, storage deletions are a log of
 * object keys, and the default achievement records go through the
 * achievement service.
 */
module Users {
  import opened Common
  import opened Documents
  import StorageUrl
  import Achievements

  /** The four onboarding steps of `onboardingProgress`. */
  datatype OnboardingStep = WelcomeScreenSeen | PhoneVerified | SafetyGuidelinesAccepted | TutorialCompleted

  datatype User = User(
    name: Option<string>,
    firstName: Option<string>,
    lastName: Option<string>,
    email: Option<string>,
    password: Option<string>,
    phoneNumber: Option<string>,
    agreedToTerms: bool,
    isPhoneVerified: bool,
    hasAcceptedSafetyGuidelines: bool,
    hasCompletedOnboarding: bool,
    /** The steps recorded so far; a step never recorded is absent. */
    onboardingProgress: map<OnboardingStep, bool>,
    avatarUrl: string,
    points: Option<int>,
    friendIds: seq<string>,
    isOnline: bool,
    isActive: bool,
    lastSeen: Option<int>,
    achievements: Option<seq<string>>,
    badges: Option<seq<string>>,
    achievementIds: seq<string>)

  /** `CreateUserDto`, as far as the stored record is concerned. */
  datatype UserInput = UserInput(
    name: Option<string>,
    phoneNumber: Option<string>,
    agreedToTerms: Option<bool>,
    firstName: Option<string>,
    lastName: Option<string>,
    email: Option<string>,
    password: Option<string>,
    avatarUrl: Option<string>)

  /** `UpdateUserDto`, plus the fields a whole user record passed as an update carries. */
  datatype UserPatch = UserPatch(
    name: Option<string>,
    firstName: Option<string>,
    lastName: Option<string>,
    email: Option<string>,
    password: Option<string>,
    avatarUrl: Option<string>,
    phoneNumber: Option<string>,
    agreedToTerms: Option<bool>,
    isOnline: Option<bool>,
    lastSeen: Option<int>,
    isPhoneVerified: Option<bool>,
    hasAcceptedSafetyGuidelines: Option<bool>,
    hasCompletedOnboarding: Option<bool>,
    onboardingProgress: Option<map<OnboardingStep, bool>>)

  /** The optional user data of `findOrCreateByPhone`. */
  datatype UserData = UserData(name: Option<string>, agreedToTerms: Option<bool>, email: Option<string>)

  const NoChange: UserPatch := UserPatch(None, None, None, None, None, None, None, None, None, None, None, None, None, None)

  /** The ids `create` asks the achievement service to start records for. */
  const FirstHelpCreated: string := "first_help_created"
  const FirstHelpDone: string := "first_help_done"

  /** A truthy password is stored hashed; any other value is stored as given. */
  function HashedPassword(password: Option<string>, hash: string -> string): (r: Option<string>)
    ensures Truthy(password) ==> r == Some(hash(password.value))
    ensures !Truthy(password) ==> r == password
  {
    if Truthy(password) then Some(hash(password.value)) else password
  }

  /** The record `create` saves, with the schema defaults. */
  function NewUser(input: UserInput, hash: string -> string): User {
    User(input.name, input.firstName, input.lastName, input.email, HashedPassword(input.password, hash),
      input.phoneNumber, input.agreedToTerms == Some(true), false, false, false, map[],
      if input.avatarUrl.Some? then input.avatarUrl.value else "",
      None, [], false, true, None, None, None, [])
  }

  function Pick<T>(p: Option<T>, current: T): T {
    if p.Some? then p.value else current
  }

  /** The record after an update: every field the patch carries replaces the stored one. */
  function Applied(u: User, p: UserPatch): User {
    u.(
      name := if p.name.Some? then p.name else u.name,
      firstName := if p.firstName.Some? then p.firstName else u.firstName,
      lastName := if p.lastName.Some? then p.lastName else u.lastName,
      email := if p.email.Some? then p.email else u.email,
      password := if p.password.Some? then p.password else u.password,
      avatarUrl := Pick(p.avatarUrl, u.avatarUrl),
      phoneNumber := if p.phoneNumber.Some? then p.phoneNumber else u.phoneNumber,
      agreedToTerms := Pick(p.agreedToTerms, u.agreedToTerms),
      isOnline := Pick(p.isOnline, u.isOnline),
      lastSeen := if p.lastSeen.Some? then p.lastSeen else u.lastSeen,
      isPhoneVerified := Pick(p.isPhoneVerified, u.isPhoneVerified),
      hasAcceptedSafetyGuidelines := Pick(p.hasAcceptedSafetyGuidelines, u.hasAcceptedSafetyGuidelines),
      hasCompletedOnboarding := Pick(p.hasCompletedOnboarding, u.hasCompletedOnboarding),
      onboardingProgress := Pick(p.onboardingProgress, u.onboardingProgress))
  }

  /** A whole record passed as an update: every updatable field present. */
  function AsPatch(u: User): UserPatch {
    UserPatch(u.name, u.firstName, u.lastName, u.email, u.password, Some(u.avatarUrl), u.phoneNumber,
      Some(u.agreedToTerms), Some(u.isOnline), u.lastSeen, Some(u.isPhoneVerified),
      Some(u.hasAcceptedSafetyGuidelines), Some(u.hasCompletedOnboarding), Some(u.onboardingProgress))
  }

  /** Applying a record's own fields leaves it as it is. */
  lemma AppliedOwnFields(u: User)
    ensures Applied(u, AsPatch(u)) == u
  {
  }

  /** An empty patch changes nothing. */
  lemma AppliedNothing(u: User)
    ensures Applied(u, NoChange) == u
  {
  }

  /** `update` deletes the stored avatar only when both the new and the stored URL are non-empty. */
  predicate ReplacesAvatar(u: User, p: UserPatch) {
    Truthy(p.avatarUrl) && u.avatarUrl != ""
  }

  /** The storage keys `update` deletes. */
  function AvatarDeletions(u: User, p: UserPatch): (keys: seq<string>)
    ensures |keys| <= 1
    ensures keys != [] <==> ReplacesAvatar(u, p)
    ensures keys != [] ==> keys == [StorageUrl.ExtractKeyFromUrl(u.avatarUrl)]
  {
    if ReplacesAvatar(u, p) then [StorageUrl.ExtractKeyFromUrl(u.avatarUrl)] else []
  }

  /** `userData.x || user.x` for the three fields `findOrCreateByPhone` merges. */
  function Merged(u: User, d: UserData): (r: User)
    ensures r.name == (if Truthy(d.name) then d.name else u.name)
    ensures r.agreedToTerms == (d.agreedToTerms == Some(true) || u.agreedToTerms)
    ensures r.email == (if Truthy(d.email) then d.email else u.email)
    ensures r == u.(name := r.name, agreedToTerms := r.agreedToTerms, email := r.email)
  {
    u.(
      name := if Truthy(d.name) then d.name else u.name,
      agreedToTerms := d.agreedToTerms == Some(true) || u.agreedToTerms,
      email := if Truthy(d.email) then d.email else u.email)
  }

  /** `phoneNumber.replace(/\D/g, '')`: the digits, in order. */
  function DigitsOnly(s: string): (r: string)
    ensures AllDigits(r) && |r| <= |s|
    ensures forall c :: c in r <==> c in s && IsDigit(c)
  {
    if s == [] then [] else (if IsDigit(s[0]) then [s[0]] else []) + DigitsOnly(s[1..])
  }

  lemma {:induction false} DigitsOnlyKeepsDigits(s: string)
    requires AllDigits(s)
    ensures DigitsOnly(s) == s
  {
    if s != [] {
      DigitsOnlyKeepsDigits(s[1..]);
      assert s == [s[0]] + s[1..];
    }
  }

  /** Stripping twice strips nothing more, so a stored number is found again under its own text. */
  lemma DigitsOnlyIdempotent(s: string)
    ensures DigitsOnly(DigitsOnly(s)) == DigitsOnly(s)
  {
    DigitsOnlyKeepsDigits(DigitsOnly(s));
  }

  /** Two spellings that differ only in separators name the same stored number. */
  lemma {:induction false} SeparatorsIgnored(a: string, sep: char, b: string)
    requires !IsDigit(sep)
    ensures DigitsOnly(a + [sep] + b) == DigitsOnly(a + b)
  {
    if a == [] {
      assert [sep] + b == [sep] + b;
      assert (a + [sep] + b)[1..] == b;
      assert a + b == b;
    } else {
      SeparatorsIgnored(a[1..], sep, b);
      assert (a + [sep] + b)[1..] == a[1..] + [sep] + b;
      assert (a + b)[1..] == a[1..] + b;
    }
  }

  /** The two fields the service looks users up by. */
  datatype LookupField = ByPhone | ByEmail

  function LookupKey(u: User, f: LookupField): Option<string> {
    match f
    case ByPhone => u.phoneNumber
    case ByEmail => u.email
  }

  /** `findOne({ <field>: value })`: the first record whose field holds exactly this value. */
  function FirstWith(s: seq<Doc<User>>, f: LookupField, value: string): (r: Option<Doc<User>>)
    ensures r.Some? ==> r.value in s && LookupKey(r.value.body, f) == Some(value)
    ensures r.None? <==> forall d :: d in s ==> LookupKey(d.body, f) != Some(value)
  {
    if s == [] then None
    else if LookupKey(s[0].body, f) == Some(value) then Some(s[0])
    else FirstWith(s[1..], f, value)
  }

  predicate AllObjectIds(s: seq<Doc<User>>) {
    forall i :: 0 <= i < |s| ==> IsObjectId(s[i].id)
  }

  /** Replacing a body keeps the ids, so both id invariants hold afterwards. */
  lemma SetBodyKeepsIds(s: seq<Doc<User>>, id: string, body: User)
    requires UniqueIds(s) && AllObjectIds(s)
    ensures UniqueIds(SetBody(s, id, body)) && AllObjectIds(SetBody(s, id, body))
  {
    var r := SetBody(s, id, body);
    forall i, j | 0 <= i < j < |r| ensures r[i].id != r[j].id {
      assert r[i].id == s[i].id && r[j].id == s[j].id;
    }
    forall i | 0 <= i < |r| ensures IsObjectId(r[i].id) {
      assert r[i].id == s[i].id;
    }
  }

  class UserStore {
    var docs: seq<Doc<User>>
    /** Every storage object key deleted, oldest first. */
    var deletedFiles: seq<string>
    /** The achievement service `create` starts the default records with. */
    const achievements: Achievements.AchievementStore

    ghost predicate Valid()
      reads this, achievements
    {
      UniqueIds(docs) && AllObjectIds(docs) && achievements.Valid()
    }

    constructor(achievements: Achievements.AchievementStore)
      requires achievements.Valid()
      ensures Valid() && docs == [] && deletedFiles == [] && this.achievements == achievements
    {
      docs := [];
      deletedFiles := [];
      this.achievements := achievements;
    }

    /** `findOne`: a malformed id fails the cast; an unknown one is NotFound. */
    function FindOne(id: string): (r: Outcome<User>)
      reads this
      ensures !IsObjectId(id) ==> r == Err(InvalidId)
      ensures IsObjectId(id) && !HasId(docs, id) ==> r == Err(NotFound)
      ensures IsObjectId(id) && HasId(docs, id) ==> r == Ok(Get(docs, id).value)
    {
      if !IsObjectId(id) then Err(InvalidId)
      else match Get(docs, id)
        case None => Err(NotFound)
        case Some(u) => Ok(u)
    }

    /** `findByPhoneNumber`: the first user with exactly this number, if any. */
    function FindByPhoneNumber(phoneNumber: string): (r: Option<Doc<User>>)
      reads this
      ensures r.Some? ==> r.value in docs && r.value.body.phoneNumber == Some(phoneNumber)
      ensures r.None? <==> forall d :: d in docs ==> d.body.phoneNumber != Some(phoneNumber)
    {
      FirstWith(docs, ByPhone, phoneNumber)
    }

    /** `findByEmail`: the first user with exactly this email, if any. */
    function FindByEmail(email: string): (r: Option<Doc<User>>)
      reads this
      ensures r.Some? ==> r.value in docs && r.value.body.email == Some(email)
      ensures r.None? <==> forall d :: d in docs ==> d.body.email != Some(email)
    {
      FirstWith(docs, ByEmail, email)
    }

    /**
     * `create`: the user is saved, then the two default achievement records
     * are requested. Their ids are not ObjectIds, so the first request fails
     * its cast, the failure is swallowed, and the user keeps no achievement ids.
     */
    method Create(input: UserInput, newId: string, hash: string -> string, recordId: string, now: int)
      returns (u: Doc<User>)
      requires Valid() && IsObjectId(newId) && !HasId(docs, newId) && !HasId(achievements.records, recordId)
      modifies this, achievements
      ensures Valid() && deletedFiles == old(deletedFiles)
      ensures u == Doc(newId, NewUser(input, hash)) && docs == old(docs) + [u]
      ensures u.body.achievementIds == []
      ensures achievements.records == old(achievements.records) && achievements.completions == old(achievements.completions)
    {
      u := Doc(newId, NewUser(input, hash));
      docs := docs + [u];
      var achievementIds: seq<string> := [];
      var first := achievements.UpdateAchievementProgress(newId, FirstHelpCreated, 0, recordId, now);
      assert first == Err(InvalidId);
      u := u.(body := u.body.(achievementIds := achievementIds));
      docs := docs[|docs| - 1 := u];
    }

    /**
     * `update`: the user must exist. A replaced avatar is deleted from
     * storage first, a truthy password is hashed, and the patch is applied.
     */
    method Update(id: string, patch: UserPatch, hash: string -> string) returns (r: Outcome<User>)
      requires Valid()
      modifies this
      ensures Valid()
      ensures old(FindOne(id)).Err? ==> r == old(FindOne(id)) && unchanged(this)
      ensures old(FindOne(id)).Ok? ==>
        var u := old(FindOne(id)).value;
        var updated := Applied(u, patch.(password := HashedPassword(patch.password, hash)));
        && r == Ok(updated)
        && docs == SetBody(old(docs), id, updated)
        && deletedFiles == old(deletedFiles) + AvatarDeletions(u, patch)
    {
      var found := FindOne(id);
      if found.Err? {
        return found;
      }
      var u := found.value;
      if Truthy(patch.avatarUrl) && u.avatarUrl != "" {
        deletedFiles := deletedFiles + [StorageUrl.ExtractKeyFromUrl(u.avatarUrl)];
      }
      var hashed := patch.(password := HashedPassword(patch.password, hash));
      var updated := Applied(u, hashed);
      SetBodyKeepsIds(docs, id, updated);
      docs := SetBody(docs, id, updated);
      r := Ok(updated);
    }

    /** `remove`: the user must exist; a non-empty avatar is deleted from storage, then the user. */
    method Remove(id: string) returns (r: Outcome<()>)
      requires Valid()
      modifies this
      ensures Valid()
      ensures old(FindOne(id)).Err? ==> r == Err(old(FindOne(id)).error) && unchanged(this)
      ensures old(FindOne(id)).Ok? ==>
        var u := old(FindOne(id)).value;
        && r == Ok(())
        && docs == Delete(old(docs), id)
        && deletedFiles == old(deletedFiles) + (if u.avatarUrl != "" then [StorageUrl.ExtractKeyFromUrl(u.avatarUrl)] else [])
    {
      var found := FindOne(id);
      if found.Err? {
        return Err(found.error);
      }
      if found.value.avatarUrl != "" {
        deletedFiles := deletedFiles + [StorageUrl.ExtractKeyFromUrl(found.value.avatarUrl)];
      }
      forall d | d in Delete(docs, id) ensures IsObjectId(d.id) {
        assert d in docs;
      }
      docs := Delete(docs, id);
      r := Ok(());
    }

    /**
     * `uploadAvatar`: a missing file fails first; then the user must exist.
     * The new file is uploaded (`uploaded` is its URL, or None when the
     * upload fails), the old avatar deleted if there was one, and the URL stored.
     */
    method UploadAvatar(userId: string, hasFile: bool, uploaded: Option<string>) returns (r: Outcome<string>)
      requires Valid()
      modifies this
      ensures Valid()
      ensures !hasFile ==> r == Err(Failure) && unchanged(this)
      ensures hasFile && old(FindOne(userId)).Err? ==> r == Err(old(FindOne(userId)).error) && unchanged(this)
      ensures hasFile && old(FindOne(userId)).Ok? && uploaded.None? ==> r == Err(Failure) && unchanged(this)
      ensures hasFile && old(FindOne(userId)).Ok? && uploaded.Some? ==>
        var u := old(FindOne(userId)).value;
        && r == Ok(uploaded.value)
        && docs == SetBody(old(docs), userId, u.(avatarUrl := uploaded.value))
        && deletedFiles == old(deletedFiles) + (if u.avatarUrl != "" then [StorageUrl.ExtractKeyFromUrl(u.avatarUrl)] else [])
    {
      if !hasFile {
        return Err(Failure);
      }
      var found := FindOne(userId);
      if found.Err? {
        return Err(found.error);
      }
      if uploaded.None? {
        return Err(Failure);
      }
      var u := found.value;
      if u.avatarUrl != "" {
        deletedFiles := deletedFiles + [StorageUrl.ExtractKeyFromUrl(u.avatarUrl)];
      }
      SetBodyKeepsIds(docs, userId, u.(avatarUrl := uploaded.value));
      docs := SetBody(docs, userId, u.(avatarUrl := uploaded.value));
      r := Ok(uploaded.value);
    }

    /**
     * `findOrCreateByPhone`: the number is reduced to its digits. An unknown
     * number creates a user (and crashes when no user data is given, since
     * the name is read from it); a known one, given user data, gets the
     * truthy fields merged and the whole record written back through
     * `update`. That write-back carries the stored avatar URL and the stored
     * password hash, so a non-empty avatar is deleted from storage and the
     * hash is hashed again.
     */
    method FindOrCreateByPhone(phoneNumber: string, userData: Option<UserData>, newId: string,
                               hash: string -> string, recordId: string, now: int)
      returns (r: Outcome<Doc<User>>)
      requires Valid() && IsObjectId(newId) && !HasId(docs, newId) && !HasId(achievements.records, recordId)
      modifies this, achievements
      ensures Valid()
      ensures achievements.records == old(achievements.records) && achievements.completions == old(achievements.completions)
      ensures var existing := old(FindByPhoneNumber(DigitsOnly(phoneNumber)));
        existing.None? && userData.None? ==> r == Err(Crash) && unchanged(this)
      ensures var existing := old(FindByPhoneNumber(DigitsOnly(phoneNumber)));
        existing.None? && userData.Some? ==>
          && r == Ok(Doc(newId, CreatedByPhone(DigitsOnly(phoneNumber), userData.value, hash)))
          && docs == old(docs) + [r.value] && deletedFiles == old(deletedFiles)
      ensures var existing := old(FindByPhoneNumber(DigitsOnly(phoneNumber)));
        existing.Some? && userData.None? ==> r == Ok(existing.value) && unchanged(this)
      ensures var existing := old(FindByPhoneNumber(DigitsOnly(phoneNumber)));
        existing.Some? && userData.Some? ==>
          var stored := WrittenBack(existing.value.body, userData.value, hash);
          && r == Ok(Doc(existing.value.id, stored))
          && docs == SetBody(old(docs), existing.value.id, stored)
          && deletedFiles == old(deletedFiles) + OwnAvatarKey(existing.value.body)
    {
      var digits := DigitsOnly(phoneNumber);
      var existing := FindByPhoneNumber(digits);
      if existing.None? {
        if userData.None? {
          return Err(Crash);
        }
        var input := UserInput(userData.value.name, Some(digits), Some(userData.value.agreedToTerms == Some(true)),
                               None, None, None, None, None);
        var created := Create(input, newId, hash, recordId, now);
        return Ok(created);
      }
      if userData.None? {
        return Ok(existing.value);
      }
      var u := existing.value;
      MemberFound(docs, u);
      var merged := Merged(u.body, userData.value);
      WriteBack(u.body, userData.value, hash);
      var updated := Update(u.id, AsPatch(merged), hash);
      r := Ok(Doc(u.id, updated.value));
    }
  }

  /** A record of a collection with unique, well-formed ids is what `findOne` finds under its id. */
  lemma MemberFound(s: seq<Doc<User>>, d: Doc<User>)
    requires UniqueIds(s) && AllObjectIds(s) && d in s
    ensures IsObjectId(d.id) && Get(s, d.id) == Some(d.body)
  {
    var i :| 0 <= i < |s| && s[i] == d;
    UniqueIndex(s, i);
  }

  /** The user `findOrCreateByPhone` creates for an unknown number. */
  function CreatedByPhone(digits: string, d: UserData, hash: string -> string): (u: User)
    ensures u.phoneNumber == Some(digits) && u.name == d.name
    ensures u.agreedToTerms <==> d.agreedToTerms == Some(true)
    ensures !u.isPhoneVerified && u.avatarUrl == "" && u.achievementIds == [] && u.password == None
  {
    NewUser(UserInput(d.name, Some(digits), Some(d.agreedToTerms == Some(true)), None, None, None, None, None), hash)
  }

  /** The record `findOrCreateByPhone` stores for a known number: the merge, with the stored password hashed again. */
  function WrittenBack(u: User, d: UserData, hash: string -> string): User {
    var m := Merged(u, d);
    m.(password := HashedPassword(m.password, hash))
  }

  /** The storage key of the user's avatar, when there is one. */
  function OwnAvatarKey(u: User): seq<string> {
    if u.avatarUrl != "" then [StorageUrl.ExtractKeyFromUrl(u.avatarUrl)] else []
  }

  /**
   * Writing the merged record back through `update` stores `WrittenBack`:
   * every field is carried, the password is hashed, and since the carried
   * avatar URL is the stored one, that avatar is deleted from storage.
   */
  lemma WriteBack(u: User, d: UserData, hash: string -> string)
    ensures var m := Merged(u, d);
      && Applied(u, AsPatch(m).(password := HashedPassword(AsPatch(m).password, hash))) == WrittenBack(u, d, hash)
      && AvatarDeletions(u, AsPatch(m)) == OwnAvatarKey(u)
  {
  }

  /** The write-back replaces a stored password hash by its hash. */
  lemma WriteBackRehashes(u: User, d: UserData, hash: string -> string)
    requires Truthy(u.password)
    ensures WrittenBack(u, d, hash).password == Some(hash(u.password.value))
  {
  }

  /** The write-back keeps everything but the merged fields and the password. */
  lemma WriteBackKeepsRest(u: User, d: UserData, hash: string -> string)
    ensures var w := WrittenBack(u, d, hash);
      w == u.(name := w.name, agreedToTerms := w.agreedToTerms, email := w.email, password := w.password)
  {
  }
}
