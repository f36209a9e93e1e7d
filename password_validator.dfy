/**
  The password policy check (PasswordValidatorServiceImpl): presence, then
  minimum length, then maximum length, then the configured pattern; the
  first failing check decides the message. Lengths are String.length(),
  i.e. UTF-16 code units. The regular expression is a predicate parameter
  standing for String.matches with the configured pattern (a whole-string
  match).
*/
module PasswordValidation {
  import opened Wrappers
  import opened JavaText

  /** my-configuration.security.password. */
  datatype PasswordPolicy = PasswordPolicy(minLength: int, maxLength: int, matches: string -> bool)

  /** PasswordValidationResult: a null message when valid. */
  datatype ValidationResult = ValidationResult(isValid: bool, errorMessage: Option<string>)

  const EmptyMessage := "密码不能为空"
  const PatternMessage := "密码格式不符合要求"

  function TooShortMessage(minLength: int): string {
    "密码长度不能少于" + IntString(minLength) + "位"
  }

  function TooLongMessage(maxLength: int): string {
    "密码长度不能超过" + IntString(maxLength) + "位"
  }

  /** Every check passes. */
  predicate Acceptable(policy: PasswordPolicy, password: Option<string>) {
    password.Some?
    && policy.minLength <= Utf16Length(password.value) <= policy.maxLength
    && policy.matches(password.value)
  }

  /** validatePassword: valid exactly when every check passes, and then
      without a message; otherwise the message of the first failing check. */
  function ValidatePassword(policy: PasswordPolicy, password: Option<string>): (r: ValidationResult)
    ensures r.isValid <==> Acceptable(policy, password)
    ensures r.isValid <==> r.errorMessage.None?
    ensures password.None? ==> r.errorMessage == Some(EmptyMessage)
    ensures password.Some? && Utf16Length(password.value) < policy.minLength ==>
              r.errorMessage == Some(TooShortMessage(policy.minLength))
    ensures password.Some? && policy.minLength <= Utf16Length(password.value)
            && Utf16Length(password.value) > policy.maxLength ==>
              r.errorMessage == Some(TooLongMessage(policy.maxLength))
    ensures password.Some? && policy.minLength <= Utf16Length(password.value) <= policy.maxLength
            && !policy.matches(password.value) ==>
              r.errorMessage == Some(PatternMessage)
  {
    if password.None? then ValidationResult(false, Some(EmptyMessage))
    else if Utf16Length(password.value) < policy.minLength then
      ValidationResult(false, Some(TooShortMessage(policy.minLength)))
    else if Utf16Length(password.value) > policy.maxLength then
      ValidationResult(false, Some(TooLongMessage(policy.maxLength)))
    else if !policy.matches(password.value) then ValidationResult(false, Some(PatternMessage))
    else ValidationResult(true, None)
  }

  /** A policy whose minimum exceeds its maximum accepts no password. */
  lemma InvertedBoundsRejectAll(policy: PasswordPolicy, password: Option<string>)
    requires policy.minLength > policy.maxLength
    ensures !ValidatePassword(policy, password).isValid
  {
  }

  /** A character above U+FFFF counts twice towards the length limits. */
  lemma SupplementaryCountsTwice(policy: PasswordPolicy)
    requires policy.minLength == 2 && policy.maxLength == 2 && policy.matches("\U{1F600}")
    ensures ValidatePassword(policy, Some("\U{1F600}")).isValid
  {
    assert "\U{1F600}"[1..] == [];
  }
}
