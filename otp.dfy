/**
 * `OtpService`: one-time codes per phone number, kept in memory with a
 * five-minute lifetime, and the set of phone numbers verified by a code.
 * The random draw and the clock are parameters; the SMS send is left out.
 */
module Otp {
  import opened Common

  /** Five minutes, in milliseconds. */
  const OtpLifetime: int := 5 * 60 * 1000

  /** `Math.floor(100000 + random * 900000)` for a draw in [0, 1). */
  function OtpValue(random: real): (n: nat)
    requires 0.0 <= random < 1.0
    ensures 100000 <= n <= 999999
  {
    var x := 100000.0 + random * 900000.0;
    assert 100000.0 <= x < 1000000.0;
    x.Floor
  }

  /** `generateOtp`: the decimal text of the drawn value, always six digits. */
  function GenerateOtp(random: real): (s: string)
    requires 0.0 <= random < 1.0
    ensures |s| == 6 && AllDigits(s)
    ensures 100000 <= DecimalValue(s) <= 999999
  {
    var n := OtpValue(random);
    DigitCount(n, 5);
    DecimalRoundTrip(n);
    NatToString(n)
  }

  datatype OtpEntry = OtpEntry(otp: string, expiresAt: int)

  /** Whether `otp` is the stored code for the phone and `now` is strictly before its expiry. */
  predicate Accepts(store: map<string, OtpEntry>, phoneNumber: string, otp: string, now: int) {
    phoneNumber in store && store[phoneNumber].otp == otp && now < store[phoneNumber].expiresAt
  }

  class OtpService {
    var otpStore: map<string, OtpEntry>
    var verifiedPhones: set<string>

    constructor()
      ensures otpStore == map[] && verifiedPhones == {}
    {
      otpStore := map[];
      verifiedPhones := {};
    }

    /** `sendOtp`: a fresh code replaces any earlier one for the phone, valid for five minutes. */
    method SendOtp(phoneNumber: string, random: real, now: int) returns (isOtpSent: bool)
      requires 0.0 <= random < 1.0
      modifies this
      ensures isOtpSent
      ensures otpStore == old(otpStore)[phoneNumber := OtpEntry(GenerateOtp(random), now + OtpLifetime)]
      ensures verifiedPhones == old(verifiedPhones)
    {
      var otp := GenerateOtp(random);
      otpStore := otpStore[phoneNumber := OtpEntry(otp, now + OtpLifetime)];
      isOtpSent := true;
    }

    /**
     * `verifyOtp`: a matching, unexpired code is consumed and the phone
     * becomes verified; any other attempt changes nothing, and an expired
     * entry stays stored.
     */
    method VerifyOtp(phoneNumber: string, otp: string, now: int) returns (isValid: bool)
      modifies this
      ensures isValid <==> Accepts(old(otpStore), phoneNumber, otp, now)
      ensures isValid ==> otpStore == old(otpStore) - {phoneNumber} && verifiedPhones == old(verifiedPhones) + {phoneNumber}
      ensures !isValid ==> otpStore == old(otpStore) && verifiedPhones == old(verifiedPhones)
    {
      if phoneNumber !in otpStore {
        return false;
      }
      var stored := otpStore[phoneNumber];
      isValid := stored.otp == otp && now < stored.expiresAt;
      if isValid {
        otpStore := otpStore - {phoneNumber};
        verifiedPhones := verifiedPhones + {phoneNumber};
      }
    }

    /** `isPhoneNumberVerified`. */
    function IsPhoneNumberVerified(phoneNumber: string): (r: bool)
      reads this
      ensures r <==> phoneNumber in verifiedPhones
    {
      phoneNumber in verifiedPhones
    }

    /** `removePhoneNumber`: only that phone leaves the verified set. */
    method RemovePhoneNumber(phoneNumber: string)
      modifies this
      ensures verifiedPhones == old(verifiedPhones) - {phoneNumber} && otpStore == old(otpStore)
    {
      verifiedPhones := verifiedPhones - {phoneNumber};
    }
  }

  /** A code is single-use: once accepted and removed, no code is accepted for that phone. */
  lemma SingleUse(store: map<string, OtpEntry>, phoneNumber: string, otp: string, later: string, now: int, afterwards: int)
    requires Accepts(store, phoneNumber, otp, now)
    ensures !Accepts(store - {phoneNumber}, phoneNumber, later, afterwards)
  {
  }

  /** The code just sent is accepted exactly until five minutes have passed. */
  lemma SentCodeAcceptedUntilExpiry(store: map<string, OtpEntry>, phoneNumber: string, random: real, sentAt: int, now: int)
    requires 0.0 <= random < 1.0
    ensures Accepts(store[phoneNumber := OtpEntry(GenerateOtp(random), sentAt + OtpLifetime)], phoneNumber, GenerateOtp(random), now)
      <==> now < sentAt + 300000
  {
  }
}
