/**
 * The password strength rule and the submit sequence shared by the reset-password page and
 * the change-password modal: the mismatch check, then the strength check, then the update.
 */
module PasswordRules {
  import opened Wrappers
  import opened Text

  /** The characters of the class `[!@#$%^&*(),.?":{}|<>]`. */
  const SpecialChars: string := "!@#$%^&*(),.?\":{}|<>"

  predicate IsSpecial(c: char) {
    c in SpecialChars
  }

  /** The four character classes a password must each contain once. */
  datatype CharClasses = CharClasses(upper: bool, lower: bool, digit: bool, special: bool)

  /** One pass over the password, noting which classes occur. */
  function ScanClasses(password: string): (k: CharClasses)
    ensures k.upper <==> exists i :: 0 <= i < |password| && IsUpper(password[i])
    ensures k.lower <==> exists i :: 0 <= i < |password| && IsLower(password[i])
    ensures k.digit <==> exists i :: 0 <= i < |password| && IsDigit(password[i])
    ensures k.special <==> exists i :: 0 <= i < |password| && IsSpecial(password[i])
  {
    if password == [] then CharClasses(false, false, false, false)
    else
      var c := password[0];
      var rest := ScanClasses(password[1..]);
      assert forall i :: 1 <= i < |password| ==> password[i] == password[1..][i - 1];
      CharClasses(rest.upper || IsUpper(c), rest.lower || IsLower(c), rest.digit || IsDigit(c), rest.special || IsSpecial(c))
  }

  /** What `validatePassword` returns. */
  datatype PasswordValidation = PasswordValidation(
    minLength: bool,
    hasUpperCase: bool,
    hasLowerCase: bool,
    hasNumbers: bool,
    hasSpecialChar: bool,
    isValid: bool)

  /** `validatePassword`: five independent flags and their conjunction. */
  function ValidatePassword(password: string): (v: PasswordValidation)
    ensures v.minLength <==> |password| >= 8
    ensures v.hasUpperCase <==> exists i :: 0 <= i < |password| && 'A' <= password[i] <= 'Z'
    ensures v.hasLowerCase <==> exists i :: 0 <= i < |password| && 'a' <= password[i] <= 'z'
    ensures v.hasNumbers <==> exists i :: 0 <= i < |password| && '0' <= password[i] <= '9'
    ensures v.hasSpecialChar <==> exists i :: 0 <= i < |password| && password[i] in SpecialChars
    ensures v.isValid <==> v.minLength && v.hasUpperCase && v.hasLowerCase && v.hasNumbers && v.hasSpecialChar
  {
    var k := ScanClasses(password);
    var minLength := |password| >= 8;
    PasswordValidation(minLength, k.upper, k.lower, k.digit, k.special,
                       minLength && k.upper && k.lower && k.digit && k.special)
  }

  predicate IsStrong(password: string) {
    ValidatePassword(password).isValid
  }

  /** Adding characters never makes a strong password weak. */
  lemma StrongExtends(password: string, more: string)
    requires IsStrong(password)
    ensures IsStrong(password + more)
  {
    var p := password + more;
    var u :| 0 <= u < |password| && 'A' <= password[u] <= 'Z';
    var l :| 0 <= l < |password| && 'a' <= password[l] <= 'z';
    var d :| 0 <= d < |password| && '0' <= password[d] <= '9';
    var s :| 0 <= s < |password| && password[s] in SpecialChars;
    assert p[u] == password[u] && p[l] == password[l] && p[d] == password[d] && p[s] == password[s];
  }

  /** A password without a special character is weak however long it is. */
  lemma NoSpecialIsWeak(password: string)
    requires forall i :: 0 <= i < |password| ==> password[i] !in SpecialChars
    ensures !IsStrong(password)
  {
  }

  /** Which way a submit goes before anything is sent. */
  datatype Gate = Mismatch | Weak | Send

  /** The mismatch check comes first, then the strength check. */
  function SubmitGate(newPassword: string, confirmPassword: string): (g: Gate)
    ensures g == Mismatch <==> newPassword != confirmPassword
    ensures g == Weak <==> newPassword == confirmPassword && !IsStrong(newPassword)
    ensures g == Send <==> newPassword == confirmPassword && IsStrong(newPassword)
  {
    if newPassword != confirmPassword then Mismatch
    else if !IsStrong(newPassword) then Weak
    else Send
  }

  /** The submit button's rule: `disabled={loading || !isValid || new !== confirm}`. */
  predicate SubmitEnabled(loading: bool, newPassword: string, confirmPassword: string) {
    !loading && ValidatePassword(newPassword).isValid && newPassword == confirmPassword
  }

  /** A submit the button allows always passes both checks and reaches the update. */
  lemma EnabledSubmitSends(loading: bool, newPassword: string, confirmPassword: string)
    requires SubmitEnabled(loading, newPassword, confirmPassword)
    ensures SubmitGate(newPassword, confirmPassword) == Send
  {
  }

  /** How `updatePassword` went: no error, an error with its message, or a throw. */
  datatype UpdateReply = Updated | UpdateFailed(message: string) | UpdateThrew

  const UnexpectedError: string := "An unexpected error occurred"

  /** The error an update leaves: none, the service's message, or the generic one. */
  function UpdateError(reply: UpdateReply): (e: string)
    ensures reply.Updated? ==> e == ""
    ensures reply.UpdateFailed? ==> e == reply.message
    ensures reply.UpdateThrew? ==> e == UnexpectedError
  {
    match reply
    case Updated => ""
    case UpdateFailed(message) => message
    case UpdateThrew => UnexpectedError
  }

  /** The error a whole submit leaves, given the page's two check messages. */
  function SubmitError(newPassword: string, confirmPassword: string, reply: UpdateReply,
                       mismatchMessage: string, weakMessage: string): (e: string)
    ensures SubmitGate(newPassword, confirmPassword) == Mismatch ==> e == mismatchMessage
    ensures SubmitGate(newPassword, confirmPassword) == Weak ==> e == weakMessage
    ensures SubmitGate(newPassword, confirmPassword) == Send ==> e == UpdateError(reply)
  {
    match SubmitGate(newPassword, confirmPassword)
    case Mismatch => mismatchMessage
    case Weak => weakMessage
    case Send => UpdateError(reply)
  }

  /** Whether a submit succeeds: both checks pass and the update reports no error. */
  predicate SubmitSucceeds(newPassword: string, confirmPassword: string, reply: UpdateReply) {
    SubmitGate(newPassword, confirmPassword) == Send && reply.Updated?
  }

  /** The password handed to `updatePassword`, if the checks let the submit reach it. */
  function SentPassword(newPassword: string, confirmPassword: string): (sent: Option<string>)
    ensures sent.Some? <==> newPassword == confirmPassword && IsStrong(newPassword)
    ensures sent.Some? ==> sent.value == newPassword
  {
    if SubmitGate(newPassword, confirmPassword) == Send then Some(newPassword) else None
  }

  /** Mismatched passwords are reported as such whatever their strength, and nothing is sent. */
  lemma MismatchReportedFirst(newPassword: string, confirmPassword: string, reply: UpdateReply, m: string, w: string)
    requires newPassword != confirmPassword
    ensures SubmitError(newPassword, confirmPassword, reply, m, w) == m
    ensures SentPassword(newPassword, confirmPassword).None?
    ensures !SubmitSucceeds(newPassword, confirmPassword, reply)
  {
  }
}
