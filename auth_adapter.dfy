/**
 * `AuthAdapter`: the projection of a stored user onto the shape the app
 * reads after a login or registration.
 */
module AuthAdapter {
  import opened Common
  import opened Documents
  import Users

  datatype AppUser = AppUser(
    id: string,
    name: Option<string>,
    agreedToTerms: bool,
    avatarUrl: string,
    points: Option<int>,
    email: Option<string>,
    isPhoneVerified: bool,
    firstName: Option<string>,
    lastName: Option<string>,
    friendIds: seq<string>,
    isOnline: bool,
    isActive: bool,
    lastSeen: Option<int>,
    phoneNumber: Option<string>,
    hasAcceptedSafetyGuidelines: bool,
    achievements: seq<string>,
    badges: seq<string>)

  /** `achievements || []` and `badges || []`. */
  function OrNone(s: Option<seq<string>>): (r: seq<string>)
    ensures s.Some? ==> r == s.value
    ensures s.None? ==> r == []
  {
    if s.Some? then s.value else []
  }

  /**
   * `mapUserToAppUser`: the app's `agreedToTerms` is the safety-guideline
   * flag, not the stored terms flag; the lists default to empty.
   */
  function MapUserToAppUser(u: Doc<Users.User>): (a: AppUser)
    ensures a.id == u.id
    ensures a.agreedToTerms == u.body.hasAcceptedSafetyGuidelines
    ensures a.hasAcceptedSafetyGuidelines == u.body.hasAcceptedSafetyGuidelines
    ensures a.achievements == OrNone(u.body.achievements) && a.badges == OrNone(u.body.badges)
    ensures a.name == u.body.name && a.email == u.body.email && a.phoneNumber == u.body.phoneNumber
    ensures a.avatarUrl == u.body.avatarUrl && a.points == u.body.points && a.isPhoneVerified == u.body.isPhoneVerified
    ensures a.firstName == u.body.firstName && a.lastName == u.body.lastName && a.friendIds == u.body.friendIds
    ensures a.isOnline == u.body.isOnline && a.isActive == u.body.isActive && a.lastSeen == u.body.lastSeen
  {
    var b := u.body;
    AppUser(u.id, b.name, b.hasAcceptedSafetyGuidelines, b.avatarUrl, b.points, b.email, b.isPhoneVerified,
      b.firstName, b.lastName, b.friendIds, b.isOnline, b.isActive, b.lastSeen, b.phoneNumber,
      b.hasAcceptedSafetyGuidelines, OrNone(b.achievements), OrNone(b.badges))
  }

  /**
   * The stored terms flag never reaches the app: two users that differ only
   * in it (and in fields the view does not carry) are shown alike.
   */
  lemma TermsFlagNotShown(u: Doc<Users.User>, agreed: bool)
    ensures MapUserToAppUser(u.(body := u.body.(agreedToTerms := agreed))) == MapUserToAppUser(u)
  {
  }
}
