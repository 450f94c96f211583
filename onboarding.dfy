/**
 * `OnboardingService`: its own one-time-code store for phone verification,
 * the merge of onboarding progress flags, and the acceptance of the safety
 * guidelines. All user writes go through `UsersService.update`.
 */
module Onboarding {
  import opened Common
  import opened Documents
  import Users
  import Otp

  type Progress = map<Users.OnboardingStep, bool>

  /** Whether a confirmation with `code` at `now` gets past the three checks. */
  predicate Confirms(store: map<string, Otp.OtpEntry>, phoneNumber: string, code: string, now: int) {
    phoneNumber in store && !(now > store[phoneNumber].expiresAt) && store[phoneNumber].otp == code
  }

  /**
   * Unlike the OTP service, whose codes lapse at their expiry instant, a code
   * here is still accepted at exactly that instant.
   */
  lemma AcceptedAtExpiryInstant(store: map<string, Otp.OtpEntry>, phoneNumber: string)
    requires phoneNumber in store
    ensures var e := store[phoneNumber];
      Confirms(store, phoneNumber, e.otp, e.expiresAt) && !Otp.Accepts(store, phoneNumber, e.otp, e.expiresAt)
  {
  }

  /** The progress flags laid over the stored ones: the request's flags win, the others stay. */
  function MergedProgress(stored: Progress, request: Progress): (m: Progress)
    ensures forall k :: k in m <==> k in stored || k in request
    ensures forall k :: k in request ==> m[k] == request[k]
    ensures forall k :: k in stored && k !in request ==> m[k] == stored[k]
  {
    stored + request
  }

  /** `Object.values(progress).every(v => v === true)`; true for no flags at all. */
  predicate AllDone(m: Progress) {
    forall k :: k in m ==> m[k]
  }

  /** Reporting every step done completes onboarding, whatever was stored. */
  lemma AllStepsReported(stored: Progress, request: Progress)
    requires forall k: Users.OnboardingStep :: k in request && request[k]
    ensures AllDone(MergedProgress(stored, request))
  {
  }

  /** A step reported as not done keeps onboarding incomplete. */
  lemma OpenStepBlocks(stored: Progress, request: Progress, k: Users.OnboardingStep)
    requires k in request && !request[k]
    ensures !AllDone(MergedProgress(stored, request))
  {
    assert k in MergedProgress(stored, request);
  }

  /** The update `confirmPhoneVerification` writes. */
  function PhoneVerifiedPatch(u: Users.User, phoneNumber: string): Users.UserPatch {
    Users.NoChange.(phoneNumber := Some(phoneNumber), isPhoneVerified := Some(true),
                    onboardingProgress := Some(u.onboardingProgress[Users.PhoneVerified := true]))
  }

  /** A confirmed user has the number and the verified flag; only that progress flag changes. */
  function WithPhoneVerified(u: Users.User, phoneNumber: string): (v: Users.User)
    ensures v.phoneNumber == Some(phoneNumber) && v.isPhoneVerified
    ensures Users.PhoneVerified in v.onboardingProgress && v.onboardingProgress[Users.PhoneVerified]
    ensures forall k :: k != Users.PhoneVerified ==>
      (k in v.onboardingProgress <==> k in u.onboardingProgress)
      && (k in u.onboardingProgress ==> v.onboardingProgress[k] == u.onboardingProgress[k])
    ensures v.hasAcceptedSafetyGuidelines == u.hasAcceptedSafetyGuidelines && v.avatarUrl == u.avatarUrl
    ensures v.password == u.password && v.name == u.name && v.email == u.email
  {
    Users.Applied(u, PhoneVerifiedPatch(u, phoneNumber))
  }

  /** The update `acceptSafetyGuidelines` writes. */
  function GuidelinesPatch(u: Users.User): Users.UserPatch {
    Users.NoChange.(hasAcceptedSafetyGuidelines := Some(true),
                    onboardingProgress := Some(u.onboardingProgress[Users.SafetyGuidelinesAccepted := true]))
  }

  /** After accepting, the flag and its progress step are set; the other steps stay. */
  function WithGuidelinesAccepted(u: Users.User): (v: Users.User)
    ensures v.hasAcceptedSafetyGuidelines
    ensures Users.SafetyGuidelinesAccepted in v.onboardingProgress && v.onboardingProgress[Users.SafetyGuidelinesAccepted]
    ensures forall k :: k != Users.SafetyGuidelinesAccepted ==>
      (k in v.onboardingProgress <==> k in u.onboardingProgress)
      && (k in u.onboardingProgress ==> v.onboardingProgress[k] == u.onboardingProgress[k])
    ensures v.isPhoneVerified == u.isPhoneVerified && v.phoneNumber == u.phoneNumber && v.avatarUrl == u.avatarUrl
  {
    Users.Applied(u, GuidelinesPatch(u))
  }

  /** The update `updateOnboardingProgress` writes. */
  function ProgressPatch(u: Users.User, request: Progress): Users.UserPatch {
    var merged := MergedProgress(u.onboardingProgress, request);
    Users.NoChange.(onboardingProgress := Some(merged), hasCompletedOnboarding := Some(AllDone(merged)))
  }

  /** After a progress report the stored flags are the merge, and completion says whether all of them are set. */
  function WithProgress(u: Users.User, request: Progress): (v: Users.User)
    ensures v.onboardingProgress == MergedProgress(u.onboardingProgress, request)
    ensures v.hasCompletedOnboarding <==> forall k :: k in v.onboardingProgress ==> v.onboardingProgress[k]
    ensures v.isPhoneVerified == u.isPhoneVerified && v.hasAcceptedSafetyGuidelines == u.hasAcceptedSafetyGuidelines
  {
    Users.Applied(u, ProgressPatch(u, request))
  }

  class OnboardingService {
    const users: Users.UserStore
    var otpStore: map<string, Otp.OtpEntry>

    ghost predicate Valid()
      reads this, users, users.achievements
    {
      users.Valid()
    }

    constructor(users: Users.UserStore)
      requires users.Valid()
      ensures Valid() && this.users == users && otpStore == map[]
    {
      this.users := users;
      otpStore := map[];
    }

    /**
     * `requestPhoneVerification`: the user must exist and not be verified
     * yet; a fresh six-digit code for the number replaces any earlier one
     * and is valid for five minutes.
     */
    method RequestPhoneVerification(userId: string, phoneNumber: string, random: real, now: int) returns (r: Outcome<string>)
      requires 0.0 <= random < 1.0
      modifies this
      ensures users.FindOne(userId).Err? ==> r == Err(users.FindOne(userId).error) && otpStore == old(otpStore)
      ensures users.FindOne(userId).Ok? && users.FindOne(userId).value.isPhoneVerified ==>
        r == Err(BadRequest) && otpStore == old(otpStore)
      ensures users.FindOne(userId).Ok? && !users.FindOne(userId).value.isPhoneVerified ==>
        && r == Ok(Otp.GenerateOtp(random)) && |r.value| == 6
        && otpStore == old(otpStore)[phoneNumber := Otp.OtpEntry(r.value, now + Otp.OtpLifetime)]
    {
      var found := users.FindOne(userId);
      if found.Err? {
        return Err(found.error);
      }
      if found.value.isPhoneVerified {
        return Err(BadRequest);
      }
      var code := Otp.GenerateOtp(random);
      otpStore := otpStore[phoneNumber := Otp.OtpEntry(code, now + Otp.OtpLifetime)];
      r := Ok(code);
    }

    /**
     * `confirmPhoneVerification`: no request is BadRequest; an expired one is
     * removed and BadRequest; a wrong code is Unauthorized and the request
     * stays. A right code is used up, and then the user gets the number, the
     * verified flag and that progress step.
     */
    method ConfirmPhoneVerification(userId: string, phoneNumber: string, code: string, now: int) returns (r: Outcome<()>)
      requires Valid()
      modifies this, users
      ensures Valid()
      ensures phoneNumber !in old(otpStore) ==> r == Err(BadRequest) && unchanged(this) && unchanged(users)
      ensures phoneNumber in old(otpStore) && now > old(otpStore)[phoneNumber].expiresAt ==>
        r == Err(BadRequest) && otpStore == old(otpStore) - {phoneNumber} && unchanged(users)
      ensures phoneNumber in old(otpStore) && !(now > old(otpStore)[phoneNumber].expiresAt)
              && old(otpStore)[phoneNumber].otp != code ==>
        r == Err(Unauthorized) && unchanged(this) && unchanged(users)
      ensures Confirms(old(otpStore), phoneNumber, code, now) ==>
        && otpStore == old(otpStore) - {phoneNumber}
        && (old(users.FindOne(userId)).Err? ==> r == Err(old(users.FindOne(userId)).error) && unchanged(users))
        && (old(users.FindOne(userId)).Ok? ==>
              && r == Ok(())
              && users.docs == SetBody(old(users.docs), userId, WithPhoneVerified(old(users.FindOne(userId)).value, phoneNumber))
              && users.deletedFiles == old(users.deletedFiles))
    {
      if phoneNumber !in otpStore {
        return Err(BadRequest);
      }
      var stored := otpStore[phoneNumber];
      if now > stored.expiresAt {
        otpStore := otpStore - {phoneNumber};
        return Err(BadRequest);
      }
      if stored.otp != code {
        return Err(Unauthorized);
      }
      otpStore := otpStore - {phoneNumber};
      var found := users.FindOne(userId);
      if found.Err? {
        return Err(found.error);
      }
      var updated := users.Update(userId, PhoneVerifiedPatch(found.value, phoneNumber), (s: string) => s);
      r := Ok(());
    }

    /**
     * `updateOnboardingProgress`: the user must exist; the reported flags are
     * laid over the stored ones, onboarding is complete exactly when every
     * merged flag is set, and that verdict is returned.
     */
    method UpdateOnboardingProgress(userId: string, request: Progress) returns (r: Outcome<bool>)
      requires Valid()
      modifies users
      ensures Valid()
      ensures old(users.FindOne(userId)).Err? ==> r == Err(old(users.FindOne(userId)).error) && unchanged(users)
      ensures old(users.FindOne(userId)).Ok? ==>
        var u := old(users.FindOne(userId)).value;
        && r == Ok(AllDone(MergedProgress(u.onboardingProgress, request)))
        && users.docs == SetBody(old(users.docs), userId, WithProgress(u, request))
        && users.deletedFiles == old(users.deletedFiles)
    {
      var found := users.FindOne(userId);
      if found.Err? {
        return Err(found.error);
      }
      var merged := MergedProgress(found.value.onboardingProgress, request);
      var done := AllDone(merged);
      var updated := users.Update(userId, ProgressPatch(found.value, request), (s: string) => s);
      r := Ok(done);
    }

    /**
     * `acceptSafetyGuidelines`: refusing is BadRequest before the user is
     * looked up; otherwise the flag and its progress step are set.
     */
    method AcceptSafetyGuidelines(userId: string, accepted: bool) returns (r: Outcome<()>)
      requires Valid()
      modifies users
      ensures Valid()
      ensures !accepted ==> r == Err(BadRequest) && unchanged(users)
      ensures accepted && old(users.FindOne(userId)).Err? ==> r == Err(old(users.FindOne(userId)).error) && unchanged(users)
      ensures accepted && old(users.FindOne(userId)).Ok? ==>
        && r == Ok(())
        && users.docs == SetBody(old(users.docs), userId, WithGuidelinesAccepted(old(users.FindOne(userId)).value))
        && users.deletedFiles == old(users.deletedFiles)
    {
      if !accepted {
        return Err(BadRequest);
      }
      var found := users.FindOne(userId);
      if found.Err? {
        return Err(found.error);
      }
      var updated := users.Update(userId, GuidelinesPatch(found.value), (s: string) => s);
      r := Ok(());
    }
  }
}
