/**
 * `FileValidator`: an upload is accepted when its MIME type is on the allowed
 * list and its size does not exceed the maximum; the type is checked first.
 */
module FileValidation {

  /** The validator's settings, fixed at construction. */
  datatype FileValidator = FileValidator(allowedMimeTypes: seq<string>, maxSize: int)
  {
    /** `validate(file)`: the verdict with the reason for a rejection. */
    function Validate(mimeType: string, size: int): (r: ValidationResult)
      ensures r.isValid <==> mimeType in allowedMimeTypes && size <= maxSize
      ensures r.error == TypeNotAllowed(allowedMimeTypes) <==> mimeType !in allowedMimeTypes
      ensures r.error == TooLarge(maxSize) <==> mimeType in allowedMimeTypes && size > maxSize
      ensures r.isValid <==> r.error == NoError
    {
      if mimeType !in allowedMimeTypes then ValidationResult(false, TypeNotAllowed(allowedMimeTypes))
      else if size > maxSize then ValidationResult(false, TooLarge(maxSize))
      else ValidationResult(true, NoError)
    }
  }

  /** The rejection reasons; each message quotes the allowed types or the limit. */
  datatype ValidationError = NoError | TypeNotAllowed(allowed: seq<string>) | TooLarge(maxSize: int)

  datatype ValidationResult = ValidationResult(isValid: bool, error: ValidationError)

  /** Raising the limit never turns an accepted file away. */
  lemma LargerLimitAcceptsMore(allowed: seq<string>, m1: int, m2: int, mimeType: string, size: int)
    requires m1 <= m2
    requires FileValidator(allowed, m1).Validate(mimeType, size).isValid
    ensures FileValidator(allowed, m2).Validate(mimeType, size).isValid
  {
  }

  /** A file of a disallowed type is reported as such whatever its size. */
  lemma TypeCheckedFirst(v: FileValidator, mimeType: string, s1: int, s2: int)
    requires mimeType !in v.allowedMimeTypes
    ensures v.Validate(mimeType, s1) == v.Validate(mimeType, s2)
  {
  }
}
