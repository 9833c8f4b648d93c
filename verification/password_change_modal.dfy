/**
 * The signed-in user's change-password dialog. It runs the same checks as the reset page
 * with its own messages. It keeps a current-password state that it only ever clears: no input
 * sets it and the submit never reads it.
 */
module PasswordChangeModal {
  import opened Wrappers
  import opened PasswordRules

  const NewPasswordsDoNotMatch: string := "New passwords do not match"
  const NewRequirementsNotMet: string := "Please ensure your new password meets all requirements"

  datatype ModalScreen = Hidden | UpdatedScreen | FormScreen

  /** A closed dialog renders nothing; an open one shows the confirmation after a success. */
  function ModalScreenOf(isOpen: bool, success: bool): (s: ModalScreen)
    ensures s == Hidden <==> !isOpen
    ensures s == UpdatedScreen <==> isOpen && success
  {
    if !isOpen then Hidden
    else if success then UpdatedScreen
    else FormScreen
  }

  class PasswordChangeDialog {
    var currentPassword: string
    var newPassword: string
    var confirmPassword: string
    var loading: bool
    var error: string
    var success: bool

    constructor()
      ensures currentPassword == "" && newPassword == "" && confirmPassword == ""
      ensures !loading && error == "" && !success
    {
      currentPassword := "";
      newPassword := "";
      confirmPassword := "";
      loading := false;
      error := "";
      success := false;
    }

    function CanSubmit(): bool
      reads this
    {
      SubmitEnabled(loading, newPassword, confirmPassword)
    }

    /**
     * The two inputs the dialog renders, new and confirmed password. The current-password state
     * has no input, so it keeps whatever it held (empty from the start).
     */
    method SetPasswords(typed: string, confirm: string)
      modifies this
      ensures newPassword == typed && confirmPassword == confirm
      ensures currentPassword == old(currentPassword)
      ensures loading == old(loading) && error == old(error) && success == old(success)
    {
      newPassword, confirmPassword := typed, confirm;
    }

    /**
     * `handleSubmit`: the outcome and the password sent depend on the new and confirmed
     * passwords and the reply only; a success also clears all three fields.
     */
    method HandleSubmit(reply: UpdateReply) returns (sent: Option<string>)
      modifies this
      ensures sent == SentPassword(old(newPassword), old(confirmPassword))
      ensures error == SubmitError(old(newPassword), old(confirmPassword), reply, NewPasswordsDoNotMatch, NewRequirementsNotMet)
      ensures success == (old(success) || SubmitSucceeds(old(newPassword), old(confirmPassword), reply))
      ensures !loading
      ensures SubmitSucceeds(old(newPassword), old(confirmPassword), reply) ==>
                currentPassword == "" && newPassword == "" && confirmPassword == ""
      ensures !SubmitSucceeds(old(newPassword), old(confirmPassword), reply) ==>
                currentPassword == old(currentPassword) && newPassword == old(newPassword) && confirmPassword == old(confirmPassword)
    {
      loading := true;
      error := "";
      if newPassword != confirmPassword {
        error := NewPasswordsDoNotMatch;
        loading := false;
        return None;
      }
      if !ValidatePassword(newPassword).isValid {
        error := NewRequirementsNotMet;
        loading := false;
        return None;
      }
      sent := Some(newPassword);
      match reply {
        case UpdateFailed(message) =>
          error := message;
        case Updated =>
          success := true;
          currentPassword := "";
          newPassword := "";
          confirmPassword := "";
        case UpdateThrew =>
          error := UnexpectedError;
      }
      loading := false;
    }

    /** The two-second timer after a success: the confirmation goes away and the dialog asks to close. */
    method SuccessTimerFires()
      modifies this
      ensures !success
      ensures currentPassword == old(currentPassword) && newPassword == old(newPassword)
      ensures confirmPassword == old(confirmPassword) && loading == old(loading) && error == old(error)
    {
      success := false;
    }

    /** `handleClose`: everything typed, the error and the success flag are cleared before `onClose`. */
    method HandleClose()
      modifies this
      ensures currentPassword == "" && newPassword == "" && confirmPassword == ""
      ensures error == "" && !success
      ensures loading == old(loading)
    {
      currentPassword := "";
      newPassword := "";
      confirmPassword := "";
      error := "";
      success := false;
    }
  }
}
