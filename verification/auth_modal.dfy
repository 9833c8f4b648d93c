/**
 * The sign-in dialog with its three modes: sign in, sign up and the password-reset request.
 */
module AuthModal {
  datatype Mode = SignIn | SignUp | ForgotPassword

  /** The mode `toggleMode` leads to: back to sign in from the reset form, else sign in and sign up swap. */
  function Toggled(m: Mode): (r: Mode)
    ensures r != ForgotPassword
    ensures m == SignIn ==> r == SignUp
    ensures m != SignIn ==> r == SignIn
  {
    match m
    case ForgotPassword => SignIn
    case SignIn => SignUp
    case SignUp => SignIn
  }

  /** Toggling twice from sign in or sign up comes back to where it started. */
  lemma ToggleTwice(m: Mode)
    requires m != ForgotPassword
    ensures Toggled(Toggled(m)) == m
  {
  }

  /** Which service call a submit makes. */
  datatype Request = ResetRequest(email: string) | SignInRequest(email: string, password: string)
                   | SignUpRequest(email: string, password: string)

  /** How that call went: no error, an error with its message, or a throw. */
  datatype AuthReply = AuthOk | AuthFailed(message: string) | AuthThrew

  const ResetEmailSent: string := "Password reset email sent! Check your inbox."
  const UnexpectedError: string := "An unexpected error occurred"

  /** The error a submit leaves; a service error with an empty message leaves none on screen. */
  function AuthError(reply: AuthReply): (e: string)
    ensures e == "" <==> reply.AuthOk? || reply == AuthFailed("")
  {
    match reply
    case AuthOk => ""
    case AuthFailed(message) => message
    case AuthThrew => UnexpectedError
  }

  class AuthDialog {
    var isLogin: bool
    var isForgotPassword: bool
    var email: string
    var password: string
    var loading: bool
    var error: string
    var successMessage: string

    /** Never both the reset form and sign in. */
    predicate Valid()
      reads this
    {
      !(isForgotPassword && isLogin)
    }

    /**
     * The mode the form renders. In a valid state the sign-in flag alone decides between sign
     * in and the other two, as the "Forgot password?" link (`!isForgotPassword && isLogin`) assumes.
     */
    function CurrentMode(): (m: Mode)
      reads this
      ensures m == ForgotPassword <==> isForgotPassword
      ensures Valid() ==> (m == SignIn <==> isLogin)
    {
      if isForgotPassword then ForgotPassword else if isLogin then SignIn else SignUp
    }

    constructor()
      ensures Valid() && CurrentMode() == SignIn
      ensures isLogin && !isForgotPassword
      ensures email == "" && password == "" && !loading && error == "" && successMessage == ""
    {
      isLogin := true;
      isForgotPassword := false;
      email := "";
      password := "";
      loading := false;
      error := "";
      successMessage := "";
    }

    method SetCredentials(typedEmail: string, typedPassword: string)
      requires Valid()
      modifies this
      ensures Valid()
      ensures email == typedEmail && password == typedPassword
      ensures isLogin == old(isLogin) && isForgotPassword == old(isForgotPassword)
      ensures loading == old(loading) && error == old(error) && successMessage == old(successMessage)
    {
      email, password := typedEmail, typedPassword;
    }

    /** `toggleMode`. */
    method ToggleMode()
      modifies this
      ensures Valid()
      ensures CurrentMode() == Toggled(old(CurrentMode()))
      ensures !isForgotPassword && isLogin == (old(isForgotPassword) || !old(isLogin))
      ensures error == "" && successMessage == ""
      ensures email == old(email) && password == old(password) && loading == old(loading)
    {
      if isForgotPassword {
        isForgotPassword := false;
        isLogin := true;
      } else {
        isLogin := !isLogin;
      }
      error := "";
      successMessage := "";
    }

    /** `showForgotPassword`. */
    method ShowForgotPassword()
      modifies this
      ensures Valid()
      ensures CurrentMode() == ForgotPassword
      ensures isForgotPassword && !isLogin
      ensures error == "" && successMessage == ""
      ensures email == old(email) && password == old(password) && loading == old(loading)
    {
      isForgotPassword := true;
      isLogin := false;
      error := "";
      successMessage := "";
    }

    /**
     * `handleSubmit`: the reset form asks for a reset email and stays open on success; sign in
     * and sign up close the dialog on success and forget what was typed. Loading is off again
     * on every path, the early return included.
     */
    method HandleSubmit(reply: AuthReply) returns (request: Request, closed: bool)
      requires Valid()
      modifies this
      ensures Valid() && CurrentMode() == old(CurrentMode())
      ensures request.SignInRequest? <==> old(CurrentMode()) == SignIn
      ensures old(isForgotPassword) ==> request == ResetRequest(old(email))
      ensures !old(isForgotPassword) && old(isLogin) ==> request == SignInRequest(old(email), old(password))
      ensures !old(isForgotPassword) && !old(isLogin) ==> request == SignUpRequest(old(email), old(password))
      ensures closed <==> !old(isForgotPassword) && reply.AuthOk?
      ensures error == AuthError(reply)
      ensures successMessage == (if old(isForgotPassword) && reply.AuthOk? then ResetEmailSent else "")
      ensures email == (if reply.AuthOk? then "" else old(email))
      ensures password == (if closed then "" else old(password))
      ensures !loading
      ensures isLogin == old(isLogin) && isForgotPassword == old(isForgotPassword)
    {
      loading := true;
      error := "";
      successMessage := "";
      closed := false;
      if isForgotPassword {
        request := ResetRequest(email);
        if reply.AuthOk? {
          successMessage := ResetEmailSent;
          email := "";
          loading := false;
          return;
        }
      } else if isLogin {
        request := SignInRequest(email, password);
      } else {
        request := SignUpRequest(email, password);
      }
      match reply {
        case AuthFailed(message) =>
          error := message;
        case AuthOk =>
          if !isForgotPassword {
            closed := true;
            email := "";
            password := "";
          }
        case AuthThrew =>
          error := UnexpectedError;
      }
      loading := false;
    }
  }
}
