/**
 * `normalizePhoneNumber`: strips everything but digits and '+', then rewrites
 * Israeli local and bare national mobile numbers to E.164 (`+972…`) and
 * prefixes '+' to other numbers of unusual length.
 */
module Phone {
  import opened Common

  /** The characters `/[^+\d]/g` keeps. */
  predicate PhoneChar(c: char) {
    c == '+' || IsDigit(c)
  }

  predicate Clean(s: string) {
    forall i :: 0 <= i < |s| ==> PhoneChar(s[i])
  }

  /** `phone.replace(/[^+\d]/g, '')`. */
  function Cleaned(s: string): (r: string)
    ensures Clean(r) && |r| <= |s|
    ensures forall c :: c in r <==> c in s && PhoneChar(c)
    decreases |s|
  {
    if s == [] then []
    else (if PhoneChar(s[0]) then [s[0]] else []) + Cleaned(s[1..])
  }

  /** Cleaning a string that is already clean leaves it alone. */
  lemma {:induction false} CleanedOfClean(s: string)
    requires Clean(s)
    ensures Cleaned(s) == s
    decreases |s|
  {
    if s != [] {
      CleanedOfClean(s[1..]);
      assert [s[0]] + s[1..] == s;
    }
  }

  function NormalizePhoneNumber(phone: string): (r: string)
    ensures Clean(r)
  {
    Rewritten(Cleaned(phone))
  }

  /** The rewriting of an already cleaned number into international form. */
  function Rewritten(cleaned: string): string {
    if StartsWith(cleaned, "0") && |cleaned| == 10 then "+972" + cleaned[1..]
    else if !StartsWith(cleaned, "+") then
      if |cleaned| == 9 || |cleaned| == 10 then
        if |cleaned| == 9 && !StartsWith(cleaned, "0") then "+972" + cleaned
        else cleaned
      else "+" + cleaned
    else cleaned
  }

  /**
   * Every result carries a leading '+', except a 9-character number starting
   * with '0' and a 10-character number starting with neither '0' nor '+', which
   * come back as cleaned.
   */
  lemma NormalizedShape(phone: string)
    ensures var r := NormalizePhoneNumber(phone);
      StartsWith(r, "+") || (r == Cleaned(phone) && ((|r| == 9 && r[0] == '0') || (|r| == 10 && r[0] != '0' && r[0] != '+')))
  {
  }

  /** A local Israeli mobile number `0XXXXXXXXX` becomes `+972XXXXXXXXX`. */
  lemma LocalIsraeliNumber(digits: string)
    requires |digits| == 9 && AllDigits(digits)
    ensures NormalizePhoneNumber("0" + digits) == "+972" + digits
  {
    assert Clean("0" + digits);
    CleanedOfClean("0" + digits);
    assert ("0" + digits)[1..] == digits;
  }

  /** A bare national number of nine digits not starting with '0' gains `+972`. */
  lemma NationalIsraeliNumber(digits: string)
    requires |digits| == 9 && AllDigits(digits) && digits[0] != '0'
    ensures NormalizePhoneNumber(digits) == "+972" + digits
  {
    CleanedOfClean(digits);
  }

  /** Separators, spaces and brackets do not change the result. */
  lemma FormattingIgnored(phone: string)
    ensures NormalizePhoneNumber(phone) == NormalizePhoneNumber(Cleaned(phone))
  {
    CleanedOfClean(Cleaned(phone));
  }

  /** Normalising twice gives the same number as normalising once. */
  lemma NormalizeIdempotent(phone: string)
    ensures NormalizePhoneNumber(NormalizePhoneNumber(phone)) == NormalizePhoneNumber(phone)
  {
    var r := NormalizePhoneNumber(phone);
    NormalizedShape(phone);
    if StartsWith(r, "+") {
      PlusNumberKept(r);
    } else {
      CleanedOfClean(r);
    }
  }

  /** A clean number that already starts with '+' is returned as it is. */
  lemma PlusNumberKept(r: string)
    requires Clean(r) && StartsWith(r, "+")
    ensures NormalizePhoneNumber(r) == r
  {
    CleanedOfClean(r);
    assert !StartsWith(r, "0");
  }
}
