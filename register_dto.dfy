/**
 * The validation rules of the registration payload (`RegisterUserDto`), as the
 * class-validator decorators apply them: a property's validators run only when
 * the property is present and every `@ValidateIf` condition on it holds. The
 * identifier rule is modelled twice: as intended, over the payload's own
 * fields (`Violations`), and as the library calls it (`ViolationsAsWritten`):
 * `@Validate(AtLeastOneIdentifierConstraint)` sits on the `atLeastOneIdentifier`
 * property, so `validate` receives that property's value, not the payload.
 * The email syntax check is the validation library's and is a parameter here.
 */
module RegisterDto {
  import opened Common

  datatype RegisterUserDto = RegisterUserDto(
    phoneNumber: Option<string>,
    email: Option<string>,
    password: Option<string>,
    googleId: Option<string>,
    name: Option<string>,
    bio: Option<string>,
    skills: Option<seq<string>>,
    language: Option<string>,
    agreedToTerms: Option<bool>,
    atLeastOneIdentifier: DummyValue)

  /**
   * What the request carries under `atLeastOneIdentifier`: nothing (or
   * `null`); a boolean, number or string, on which `.phoneNumber`, `.email`
   * and `.googleId` read as `undefined`; or an object with those fields.
   */
  datatype DummyValue =
    | Missing
    | Scalar
    | Holder(phoneNumber: Option<string>, email: Option<string>, googleId: Option<string>)

  /** The properties a payload can be rejected on. */
  datatype Violation = NameEmpty | EmailInvalid | SkillsEmpty | NoIdentifier

  /** `AtLeastOneIdentifierConstraint.validate` applied to the payload, as intended. */
  predicate AtLeastOneIdentifier(o: RegisterUserDto) {
    Truthy(o.phoneNumber) || Truthy(o.email) || Truthy(o.googleId)
  }

  /** `@ValidateIf((o) => !o.phoneNumber && !o.googleId)` together with `@IsOptional()` on email. */
  predicate EmailValidated(o: RegisterUserDto) {
    o.email.Some? && !Truthy(o.phoneNumber) && !Truthy(o.googleId)
  }

  /** The violations of the email, name and skills rules, in declaration order. */
  function FieldViolations(o: RegisterUserDto, isEmail: string -> bool): seq<Violation> {
    (if EmailValidated(o) && !isEmail(o.email.value) then [EmailInvalid] else [])
    + (if o.name.None? || o.name.value == "" then [NameEmpty] else [])
    + (if o.skills == Some([]) then [SkillsEmpty] else [])
  }

  /** Every rule the payload breaks, in declaration order, with the identifier rule read over the payload. */
  function Violations(o: RegisterUserDto, isEmail: string -> bool): (vs: seq<Violation>)
    ensures EmailInvalid in vs <==> EmailValidated(o) && !isEmail(o.email.value)
    ensures NameEmpty in vs <==> o.name.None? || o.name.value == ""
    ensures SkillsEmpty in vs <==> o.skills == Some([])
    ensures NoIdentifier in vs <==> !AtLeastOneIdentifier(o)
  {
    FieldViolations(o, isEmail) + (if !AtLeastOneIdentifier(o) then [NoIdentifier] else [])
  }

  /**
   * `validate(value)` as class-validator calls it, with the value of the
   * `atLeastOneIdentifier` property: reading `.phoneNumber` of `undefined`
   * throws a TypeError; on a scalar every read is `undefined`.
   */
  function ConstraintAsCalled(v: DummyValue): (r: Outcome<bool>)
    ensures r.Err? <==> v.Missing?
    ensures r.Err? ==> r.error == Crash
    ensures r.Ok? ==> (r.value <==> v.Holder? && (Truthy(v.phoneNumber) || Truthy(v.email) || Truthy(v.googleId)))
  {
    match v
    case Missing => Err(Crash)
    case Scalar => Ok(false)
    case Holder(p, e, g) => Ok(Truthy(p) || Truthy(e) || Truthy(g))
  }

  /**
   * The payload's validation as written: the constraint is handed the dummy
   * property, so a payload without it fails with the TypeError, and otherwise
   * the identifier rule ignores the payload's own identifiers.
   */
  function ViolationsAsWritten(o: RegisterUserDto, isEmail: string -> bool): (r: Outcome<seq<Violation>>)
    ensures r.Err? <==> o.atLeastOneIdentifier.Missing?
    ensures r.Ok? ==> forall v :: v != NoIdentifier ==> (v in r.value <==> v in Violations(o, isEmail))
    ensures r.Ok? ==> (NoIdentifier in r.value <==> !ConstraintAsCalled(o.atLeastOneIdentifier).value)
  {
    match ConstraintAsCalled(o.atLeastOneIdentifier)
    case Err(e) => Err(e)
    case Ok(found) => Ok(FieldViolations(o, isEmail) + (if !found then [NoIdentifier] else []))
  }

  /**
   * A well-formed payload with a phone number and a name, and without the
   * dummy property, is accepted as intended but fails as written.
   */
  lemma AsWrittenRejectsWellFormedPayload(isEmail: string -> bool)
    ensures var o := RegisterUserDto(Some("+15551234567"), None, None, None, Some("John Doe"), None, None, None, None, Missing);
      Valid(o, isEmail) && ViolationsAsWritten(o, isEmail) == Err(Crash)
  {
    var o := RegisterUserDto(Some("+15551234567"), None, None, None, Some("John Doe"), None, None, None, None, Missing);
    assert FieldViolations(o, isEmail) == [];
  }

  /** Sending `atLeastOneIdentifier: true` avoids the TypeError but is always refused, whatever identifiers the payload has. */
  lemma AsWrittenFlagNeverSatisfies(o: RegisterUserDto, isEmail: string -> bool)
    requires o.atLeastOneIdentifier == Scalar
    ensures ViolationsAsWritten(o, isEmail).Ok? && NoIdentifier in ViolationsAsWritten(o, isEmail).value
  {
  }

  predicate Valid(o: RegisterUserDto, isEmail: string -> bool) {
    Violations(o, isEmail) == []
  }

  /** An accepted payload names the user and carries a usable identifier. */
  lemma ValidHasIdentifierAndName(o: RegisterUserDto, isEmail: string -> bool)
    requires Valid(o, isEmail)
    ensures AtLeastOneIdentifier(o) && o.name.Some? && o.name.value != ""
    ensures o.skills.Some? ==> |o.skills.value| > 0
  {
    assert NoIdentifier !in Violations(o, isEmail);
    assert NameEmpty !in Violations(o, isEmail);
    assert SkillsEmpty !in Violations(o, isEmail);
  }

  /** An email that is not an address passes when a phone number or Google id accompanies it. */
  lemma EmailUncheckedBesideOtherIdentifier(o: RegisterUserDto, isEmail: string -> bool)
    requires o.email.Some? && (Truthy(o.phoneNumber) || Truthy(o.googleId))
    requires o.name.Some? && o.name.value != "" && o.skills != Some([])
    ensures Valid(o, isEmail)
  {
  }

  /** `language?: string = 'he'`: the language a missing property defaults to. */
  function Language(o: RegisterUserDto): (lang: string)
    ensures o.language.None? ==> lang == "he"
    ensures o.language.Some? ==> lang == o.language.value
  {
    if o.language.Some? then o.language.value else "he"
  }
}
