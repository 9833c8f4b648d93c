/**
 * The page a password-reset link opens: the session check, the form's submit and which of
 * its three screens is shown.
 */
module ResetPassword {
  import opened Wrappers
  import opened PasswordRules

  const InvalidLink: string := "Invalid or expired reset link. Please request a new password reset."
  const PasswordsDoNotMatch: string := "Passwords do not match"
  const RequirementsNotMet: string := "Please ensure your password meets all requirements"

  datatype Screen = SuccessScreen | InvalidLinkScreen | FormScreen

  /** Success wins; an error without a valid session shows the invalid-link screen. */
  function ScreenOf(success: bool, isValidSession: bool, error: string): (s: Screen)
    ensures s == SuccessScreen <==> success
    ensures s == InvalidLinkScreen <==> !success && !isValidSession && error != ""
  {
    if success then SuccessScreen
    else if !isValidSession && error != "" then InvalidLinkScreen
    else FormScreen
  }

  class ResetPasswordPage {
    var newPassword: string
    var confirmPassword: string
    var loading: bool
    var error: string
    var success: bool
    var isValidSession: bool

    constructor()
      ensures newPassword == "" && confirmPassword == "" && !loading && error == ""
      ensures !success && !isValidSession
    {
      newPassword := "";
      confirmPassword := "";
      loading := false;
      error := "";
      success := false;
      isValidSession := false;
    }

    function Screen(): Screen
      reads this
    {
      ScreenOf(success, isValidSession, error)
    }

    function CanSubmit(): bool
      reads this
    {
      SubmitEnabled(loading, newPassword, confirmPassword)
    }

    /** The mount-time session check: a session validates the page, no session reports the invalid link. */
    method CheckSession(hasSession: bool)
      modifies this
      ensures isValidSession == (hasSession || old(isValidSession))
      ensures error == (if hasSession then old(error) else InvalidLink)
      ensures newPassword == old(newPassword) && confirmPassword == old(confirmPassword)
      ensures loading == old(loading) && success == old(success)
      ensures !hasSession && !old(isValidSession) && !success ==> Screen() == InvalidLinkScreen
    {
      if hasSession {
        isValidSession := true;
      } else {
        error := InvalidLink;
      }
    }

    method SetNewPassword(password: string)
      modifies this
      ensures newPassword == password
      ensures confirmPassword == old(confirmPassword) && loading == old(loading) && error == old(error)
      ensures success == old(success) && isValidSession == old(isValidSession)
    {
      newPassword := password;
    }

    method SetConfirmPassword(password: string)
      modifies this
      ensures confirmPassword == password
      ensures newPassword == old(newPassword) && loading == old(loading) && error == old(error)
      ensures success == old(success) && isValidSession == old(isValidSession)
    {
      confirmPassword := password;
    }

    /**
     * `handleSubmit`: mismatch, then strength, then the update; `sent` is the password passed to
     * `updatePassword`, if it is called. Loading is off again on every path.
     */
    method HandleSubmit(reply: UpdateReply) returns (sent: Option<string>)
      modifies this
      ensures sent == SentPassword(old(newPassword), old(confirmPassword))
      ensures error == SubmitError(old(newPassword), old(confirmPassword), reply, PasswordsDoNotMatch, RequirementsNotMet)
      ensures success == (old(success) || SubmitSucceeds(old(newPassword), old(confirmPassword), reply))
      ensures !loading
      ensures newPassword == old(newPassword) && confirmPassword == old(confirmPassword)
      ensures isValidSession == old(isValidSession)
    {
      loading := true;
      error := "";
      if newPassword != confirmPassword {
        error := PasswordsDoNotMatch;
        loading := false;
        return None;
      }
      if !ValidatePassword(newPassword).isValid {
        error := RequirementsNotMet;
        loading := false;
        return None;
      }
      sent := Some(newPassword);
      match reply {
        case UpdateFailed(message) =>
          error := message;
        case Updated =>
          success := true;
        case UpdateThrew =>
          error := UnexpectedError;
      }
      loading := false;
    }
  }
}
