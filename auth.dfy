/**
 * `AuthService`: the order of the checks in the phone login and
 * registration flows, registration by phone number, and the lifecycle of
 * password-reset tokens. Tokens are kept in a map from token to
 * (email, expiry); the new token, the clock, the OTP draw and the password
 * hash are parameters. JWT signing and the reset e-mail are left out.
 */
module Auth {
  import opened Common
  import opened Documents
  import Users
  import Otp
  import AuthAdapter

  /** One hour, in milliseconds. */
  const ResetTokenLifetime: int := 60 * 60 * 1000

  datatype ResetEntry = ResetEntry(email: string, expires: int)

  /** The `{ isSuccess, ... }` replies of the phone flows. */
  datatype PhoneReply =
    | Refused(message: string)
    | OtpSent(isOtpSent: bool)
    | LoggedIn(user: AuthAdapter.AppUser)

  /**
   * The reply of `verifyUser`: the user and the token it carries, either the
   * one given (`Some`) or a newly signed one (`None`; signing is not modelled).
   */
  datatype Verified = Verified(user: AuthAdapter.AppUser, token: Option<string>)

  /** `login`: the body returns before any check. */
  function Login(phoneNumber: string): (r: bool)
    ensures r
  {
    true
  }

  /**
   * `bcrypt.compare` with the salt left out: a candidate matches a stored
   * password when the stored value is its hash.
   */
  predicate PasswordMatches(candidate: string, stored: Option<string>, hash: string -> string) {
    stored == Some(hash(candidate))
  }

  /**
   * The stored password after a reset as written: the new password is
   * hashed, and `update` hashes the (non-empty) hash once more.
   */
  function ResetStoredAsWritten(newPassword: string, hash: string -> string): (r: Option<string>)
    ensures hash(newPassword) != "" ==> r == Some(hash(hash(newPassword)))
  {
    Users.HashedPassword(Some(hash(newPassword)), hash)
  }

  /** With a hash that prefixes a marker, the new password does not match what the reset stores. */
  lemma ResetAsWrittenRejectsNewPassword()
    ensures var hash := (s: string) => "$" + s;
      !PasswordMatches("secret", ResetStoredAsWritten("secret", hash), hash)
  {
    var hash := (s: string) => "$" + s;
    assert hash("secret") == "$secret";
    assert hash("$secret") == "$$secret";
    assert ResetStoredAsWritten("secret", hash) == Some("$$secret");
    assert "$$secret"[1] != "$secret"[1];
  }

  /**
   * The stored password after a reset as evidently intended: the plain new
   * password goes to `update`, which hashes it once, so a non-empty new
   * password is the one that matches.
   */
  function ResetStored(newPassword: string, hash: string -> string): (r: Option<string>)
    ensures newPassword != "" ==> PasswordMatches(newPassword, r, hash)
    ensures newPassword == "" ==> r == Some("")
  {
    Users.HashedPassword(Some(newPassword), hash)
  }

  /**
   * `loginVerifiedPhone` as written: after the two user checks, the OTP
   * service receives an object where it expects a phone number, and the
   * reply is read for `isSuccess` while it only carries `isValid`; the
   * undefined field makes every attempt fail with "Invalid OTP".
   */
  function LoginVerifiedPhoneAsWritten(found: Option<Doc<Users.User>>): (r: PhoneReply)
    ensures !r.LoggedIn?
    ensures found.None? ==> r == Refused("User not found")
    ensures found.Some? && !found.value.body.isPhoneVerified ==> r == Refused("Phone number must be verified first")
    ensures found.Some? && found.value.body.isPhoneVerified ==> r == Refused("Invalid OTP")
  {
    if found.None? then Refused("User not found")
    else if !found.value.body.isPhoneVerified then Refused("Phone number must be verified first")
    else Refused("Invalid OTP")
  }

  class AuthService {
    const users: Users.UserStore
    const otp: Otp.OtpService
    var passwordResetTokens: map<string, ResetEntry>

    ghost predicate Valid()
      reads this, users, users.achievements
    {
      users.Valid()
    }

    constructor(users: Users.UserStore, otp: Otp.OtpService)
      requires users.Valid()
      ensures Valid() && this.users == users && this.otp == otp && passwordResetTokens == map[]
    {
      this.users := users;
      this.otp := otp;
      passwordResetTokens := map[];
    }

    /**
     * `loginWithPhone`: an unknown number, then an unverified one, is refused
     * before any code is sent; otherwise a code is sent to the number.
     */
    method LoginWithPhone(phoneNumber: string, random: real, now: int) returns (r: PhoneReply)
      requires 0.0 <= random < 1.0
      modifies otp
      ensures var found := users.FindByPhoneNumber(phoneNumber);
        && (found.None? ==> r == Refused("User not found") && unchanged(otp))
        && (found.Some? && !found.value.body.isPhoneVerified ==>
              r == Refused("Phone number must be verified first") && unchanged(otp))
        && (found.Some? && found.value.body.isPhoneVerified ==>
              && r == OtpSent(true)
              && otp.otpStore == old(otp.otpStore)[phoneNumber := Otp.OtpEntry(Otp.GenerateOtp(random), now + Otp.OtpLifetime)]
              && otp.verifiedPhones == old(otp.verifiedPhones))
    {
      var found := users.FindByPhoneNumber(phoneNumber);
      if found.None? {
        return Refused("User not found");
      }
      if !found.value.body.isPhoneVerified {
        return Refused("Phone number must be verified first");
      }
      var sent := otp.SendOtp(phoneNumber, random, now);
      r := OtpSent(sent);
    }

    /**
     * `loginVerifiedPhone`, with the code checked against the OTP service
     * as evidently intended: the same two refusals first, then a code that
     * the service accepts logs the user in and any other is refused.
     */
    method LoginVerifiedPhone(phoneNumber: string, code: string, now: int) returns (r: PhoneReply)
      modifies otp
      ensures var found := users.FindByPhoneNumber(phoneNumber);
        && (found.None? ==> r == Refused("User not found") && unchanged(otp))
        && (found.Some? && !found.value.body.isPhoneVerified ==>
              r == Refused("Phone number must be verified first") && unchanged(otp))
        && (found.Some? && found.value.body.isPhoneVerified ==>
              && (Otp.Accepts(old(otp.otpStore), phoneNumber, code, now) ==>
                    r == LoggedIn(AuthAdapter.MapUserToAppUser(found.value))
                    && otp.otpStore == old(otp.otpStore) - {phoneNumber}
                    && otp.verifiedPhones == old(otp.verifiedPhones) + {phoneNumber})
              && (!Otp.Accepts(old(otp.otpStore), phoneNumber, code, now) ==>
                    r == Refused("Invalid OTP")
                    && otp.otpStore == old(otp.otpStore) && otp.verifiedPhones == old(otp.verifiedPhones)))
    {
      var found := users.FindByPhoneNumber(phoneNumber);
      if found.None? {
        return Refused("User not found");
      }
      if !found.value.body.isPhoneVerified {
        return Refused("Phone number must be verified first");
      }
      var isValid := otp.VerifyOtp(phoneNumber, code, now);
      if !isValid {
        return Refused("Invalid OTP");
      }
      r := LoggedIn(AuthAdapter.MapUserToAppUser(found.value));
    }

    /** `registerWithPhone`: a registered number is refused without sending a code. */
    method RegisterWithPhone(phoneNumber: string, random: real, now: int) returns (r: PhoneReply)
      requires 0.0 <= random < 1.0
      modifies otp
      ensures users.FindByPhoneNumber(phoneNumber).Some? ==> r == Refused("User already exists") && unchanged(otp)
      ensures users.FindByPhoneNumber(phoneNumber).None? ==>
        && r == OtpSent(true)
        && otp.otpStore == old(otp.otpStore)[phoneNumber := Otp.OtpEntry(Otp.GenerateOtp(random), now + Otp.OtpLifetime)]
        && otp.verifiedPhones == old(otp.verifiedPhones)
    {
      var found := users.FindByPhoneNumber(phoneNumber);
      if found.Some? {
        return Refused("User already exists");
      }
      var sent := otp.SendOtp(phoneNumber, random, now);
      r := OtpSent(sent);
    }

    /**
     * `register`: refused unless the terms are agreed to; then the user is
     * found or created under the digits of the number, with the terms flag
     * set, and returned in its app shape.
     */
    method Register(phoneNumber: string, name: Option<string>, email: Option<string>, agreedToTerms: Option<bool>,
                    newId: string, hash: string -> string, recordId: string, now: int)
      returns (r: Outcome<AuthAdapter.AppUser>)
      requires Valid() && IsObjectId(newId) && !HasId(users.docs, newId) && !HasId(users.achievements.records, recordId)
      modifies users, users.achievements
      ensures Valid()
      ensures agreedToTerms != Some(true) ==> r == Err(BadRequest) && unchanged(users) && unchanged(users.achievements)
      ensures agreedToTerms == Some(true) ==>
        && r.Ok?
        && (exists d :: d in users.docs && r.value == AuthAdapter.MapUserToAppUser(d)
              && d.body.phoneNumber == Some(Users.DigitsOnly(phoneNumber)) && d.body.agreedToTerms)
        && users.FindByPhoneNumber(Users.DigitsOnly(phoneNumber)).Some?
        && users.achievements.records == old(users.achievements.records)
        && users.achievements.completions == old(users.achievements.completions)
      ensures agreedToTerms == Some(true) && old(users.FindByPhoneNumber(Users.DigitsOnly(phoneNumber))).None? ==>
        var d := Doc(newId, Users.CreatedByPhone(Users.DigitsOnly(phoneNumber), Users.UserData(name, agreedToTerms, email), hash));
        && r == Ok(AuthAdapter.MapUserToAppUser(d))
        && users.docs == old(users.docs) + [d]
        && users.deletedFiles == old(users.deletedFiles)
      ensures agreedToTerms == Some(true) && old(users.FindByPhoneNumber(Users.DigitsOnly(phoneNumber))).Some? ==>
        var e := old(users.FindByPhoneNumber(Users.DigitsOnly(phoneNumber))).value;
        var stored := Users.WrittenBack(e.body, Users.UserData(name, agreedToTerms, email), hash);
        && r == Ok(AuthAdapter.MapUserToAppUser(Doc(e.id, stored)))
        && users.docs == SetBody(old(users.docs), e.id, stored)
        && users.deletedFiles == old(users.deletedFiles) + Users.OwnAvatarKey(e.body)
    {
      if agreedToTerms != Some(true) {
        return Err(BadRequest);
      }
      ghost var existing := users.FindByPhoneNumber(Users.DigitsOnly(phoneNumber));
      ghost var before := users.docs;
      var found := users.FindOrCreateByPhone(phoneNumber, Some(Users.UserData(name, agreedToTerms, email)),
                                             newId, hash, recordId, now);
      var d := found.value;
      if existing.None? {
        assert users.docs[|users.docs| - 1] == d;
      } else {
        SetBodyStored(before, existing.value, d.body);
      }
      assert users.FindByPhoneNumber(Users.DigitsOnly(phoneNumber)).Some?;
      r := Ok(AuthAdapter.MapUserToAppUser(d));
    }

    /**
     * `verifyUser`: an unknown or unverified number is Unauthorized. A given
     * token is checked with the JWT service, whose `verify` throws on a bad or
     * expired token (`tokenVerifies` is its verdict); a good one is handed
     * back. Without a token the user gets a newly signed one.
     */
    function VerifyUser(phoneNumber: string, token: Option<string>, tokenVerifies: bool): (r: Outcome<Verified>)
      reads this, users
      ensures var found := users.FindByPhoneNumber(phoneNumber);
        r == Err(Unauthorized) <==> found.None? || !found.value.body.isPhoneVerified
      ensures var found := users.FindByPhoneNumber(phoneNumber);
        r == Err(Failure) <==> found.Some? && found.value.body.isPhoneVerified && Truthy(token) && !tokenVerifies
      ensures r.Ok? ==> exists d :: d in users.docs && d.body.phoneNumber == Some(phoneNumber) && d.body.isPhoneVerified
                                    && r.value.user == AuthAdapter.MapUserToAppUser(d)
      ensures r.Ok? ==> r.value.token == (if Truthy(token) then token else None)
    {
      match users.FindByPhoneNumber(phoneNumber)
      case None => Err(Unauthorized)
      case Some(d) =>
        if !d.body.isPhoneVerified then Err(Unauthorized)
        else if Truthy(token) && !tokenVerifies then Err(Failure)
        else if Truthy(token) then Ok(Verified(AuthAdapter.MapUserToAppUser(d), token))
        else Ok(Verified(AuthAdapter.MapUserToAppUser(d), None))
    }

    /** `requestPasswordReset`: an unknown email is NotFound; otherwise the token maps to it for one hour. */
    method RequestPasswordReset(email: string, token: string, now: int) returns (r: Outcome<()>)
      modifies this
      ensures users.FindByEmail(email).None? ==> r == Err(NotFound) && passwordResetTokens == old(passwordResetTokens)
      ensures users.FindByEmail(email).Some? ==>
        r == Ok(()) && passwordResetTokens == old(passwordResetTokens)[token := ResetEntry(email, now + ResetTokenLifetime)]
    {
      var found := users.FindByEmail(email);
      if found.None? {
        return Err(NotFound);
      }
      passwordResetTokens := passwordResetTokens[token := ResetEntry(found.value.body.email.value, now + ResetTokenLifetime)];
      r := Ok(());
    }

    /**
     * `resetPassword`: an unknown token is Unauthorized; an expired one is
     * removed and Unauthorized; if the user has gone, NotFound and the token
     * stays. Otherwise the user's password is replaced (hashed once, as
     * evidently intended) and the token is used up.
     */
    method ResetPassword(token: string, newPassword: string, now: int, hash: string -> string) returns (r: Outcome<()>)
      requires Valid()
      modifies this, users
      ensures Valid()
      ensures token !in old(passwordResetTokens) ==> r == Err(Unauthorized) && unchanged(this) && unchanged(users)
      ensures token in old(passwordResetTokens) && now > old(passwordResetTokens)[token].expires ==>
        && r == Err(Unauthorized) && passwordResetTokens == old(passwordResetTokens) - {token} && unchanged(users)
      ensures token in old(passwordResetTokens) && now <= old(passwordResetTokens)[token].expires ==>
        var found := old(users.FindByEmail(passwordResetTokens[token].email));
        && (found.None? ==> r == Err(NotFound) && unchanged(this) && unchanged(users))
        && (found.Some? ==>
              && r == Ok(())
              && passwordResetTokens == old(passwordResetTokens) - {token}
              && users.docs == SetBody(old(users.docs), found.value.id,
                                       found.value.body.(password := ResetStored(newPassword, hash)))
              && users.deletedFiles == old(users.deletedFiles))
    {
      if token !in passwordResetTokens {
        return Err(Unauthorized);
      }
      var entry := passwordResetTokens[token];
      if now > entry.expires {
        passwordResetTokens := passwordResetTokens - {token};
        return Err(Unauthorized);
      }
      var found := users.FindByEmail(entry.email);
      if found.None? {
        return Err(NotFound);
      }
      Users.MemberFound(users.docs, found.value);
      var patch := Users.NoChange.(password := Some(newPassword));
      var updated := users.Update(found.value.id, patch, hash);
      passwordResetTokens := passwordResetTokens - {token};
      r := Ok(());
    }
  }
}
