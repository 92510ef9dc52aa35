/** The validators of shared/utils.js; a thrown error is an `Outcome.Fail`. */
module Validation {
  import opened Wrappers
  import opened Strings
  import opened Json

  /** `validateRequired`: throws when the value is falsy or its string form is blank. */
  function ValidateRequired(value: Value, fieldName: string): (r: Outcome)
    ensures r.Fail? <==> !Truthy(value) || StringFormBlank(value)
    ensures r.Fail? ==> r.message == fieldName + " is required"
    ensures value.Str? ==> (r.Fail? <==> forall i :: 0 <= i < |value.s| ==> IsWhitespace(value.s[i]))
  {
    if !Truthy(value) || StringFormBlank(value) then Fail(fieldName + " is required") else Pass
  }

  /** `validateLength`: throws exactly when the UTF-16 length is outside `[min, max]`. */
  function ValidateLength(value: string, min: int, max: int, fieldName: string): (r: Outcome)
    ensures r.Pass? <==> min <= Utf16Length(value) <= max
    ensures r.Fail? ==> r.message == LengthMessage(min, max, fieldName)
  {
    if Utf16Length(value) < min || Utf16Length(value) > max then
      Fail(LengthMessage(min, max, fieldName))
    else Pass
  }

  function LengthMessage(min: int, max: int, fieldName: string): string
  {
    fieldName + " must be between " + IntToString(min) + " and " + IntToString(max) + " characters"
  }
}
