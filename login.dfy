/** The sign-in / sign-up page: local validation of a new password, the
    submit state machine and the mode toggle. */
module Login {
  import opened Common

  const PASSWORD_MISMATCH := "Passwords do not match"
  const PASSWORD_TOO_SHORT := "Password must be at least 6 characters"
  const SIGN_UP_SUCCESS := "Account created! Please check your email to verify your account."
  const MIN_PASSWORD_LENGTH := 6
  const HOME := "/"

  /** The sign-up checks, in the page's order: a confirmation mismatch is
      reported before a short password. */
  function ValidateSignUp(password: string, confirmPassword: string): (r: Option<string>)
    ensures r == Some(PASSWORD_MISMATCH) <==> password != confirmPassword
    ensures r == Some(PASSWORD_TOO_SHORT) <==>
              password == confirmPassword && |password| < MIN_PASSWORD_LENGTH
    ensures r.None? <==> password == confirmPassword && |password| >= MIN_PASSWORD_LENGTH
  {
    if password != confirmPassword then Some(PASSWORD_MISMATCH)
    else if |password| < MIN_PASSWORD_LENGTH then Some(PASSWORD_TOO_SHORT)
    else None
  }

  /** The call a submit makes on the authentication provider, if any. */
  datatype AuthRequest =
    | NoRequest
    | SignUpRequest(email: string, password: string)
    | SignInRequest(email: string, password: string)

  /** The message fields and the loading flag right after a submit starts. */
  datatype SubmitStart = SubmitStart(error: Option<string>, success: Option<string>, loading: bool)

  class LoginPage {
    var isSignUp: bool
    var email: string
    var password: string
    var confirmPassword: string
    var error: Option<string>
    var success: Option<string>
    var loading: bool
    /** Where `router.push` sent the browser, if it was called. */
    var redirect: Option<string>

    constructor ()
      ensures !isSignUp && email == "" && password == "" && confirmPassword == ""
      ensures error.None? && success.None? && !loading && redirect.None?
    {
      isSignUp := false;
      email, password, confirmPassword := "", "", "";
      error, success := None, None;
      loading := false;
      redirect := None;
    }

    method EditEmail(value: string)
      modifies this`email
      ensures email == value
    {
      email := value;
    }

    method EditPassword(value: string)
      modifies this`password
      ensures password == value
    {
      password := value;
    }

    method EditConfirmPassword(value: string)
      modifies this`confirmPassword
      ensures confirmPassword == value
    {
      confirmPassword := value;
    }

    /** `handleSubmit`. `reply` is the `{ error }` the provider call returns
        when one is made. */
    method HandleSubmit(reply: Option<Error>) returns (request: AuthRequest, ghost atStart: SubmitStart)
      modifies this
      ensures atStart == SubmitStart(None, None, true)
      ensures isSignUp == old(isSignUp)
      // sign-up: local validation, then the provider
      ensures old(isSignUp) ==>
        var invalid := ValidateSignUp(old(password), old(confirmPassword));
        && redirect == old(redirect) && !loading
        && (invalid.Some? ==>
              request == NoRequest && error == invalid && success.None? &&
              email == old(email) && password == old(password) &&
              confirmPassword == old(confirmPassword))
        && (invalid.None? ==> request == SignUpRequest(old(email), old(password)))
        && (invalid.None? && reply.Some? ==>
              error == Some(reply.value.message) && success.None? &&
              email == old(email) && password == old(password) &&
              confirmPassword == old(confirmPassword))
        && (invalid.None? && reply.None? ==>
              error.None? && success == Some(SIGN_UP_SUCCESS) &&
              email == "" && password == "" && confirmPassword == "")
      // sign-in: no local validation
      ensures !old(isSignUp) ==>
        && request == SignInRequest(old(email), old(password))
        && success.None?
        && email == old(email) && password == old(password)
        && confirmPassword == old(confirmPassword)
        && (reply.Some? ==>
              error == Some(reply.value.message) && !loading && redirect == old(redirect))
        && (reply.None? ==> error.None? && loading && redirect == Some(HOME))
    {
      error := None;
      success := None;
      loading := true;
      atStart := SubmitStart(error, success, loading);
      request := NoRequest;
      if isSignUp {
        if password != confirmPassword {
          error := Some(PASSWORD_MISMATCH);
          loading := false;
          return;
        }
        if |password| < MIN_PASSWORD_LENGTH {
          error := Some(PASSWORD_TOO_SHORT);
          loading := false;
          return;
        }
        request := SignUpRequest(email, password);
        if reply.Some? {
          error := Some(reply.value.message);
          loading := false;
        } else {
          success := Some(SIGN_UP_SUCCESS);
          loading := false;
          email := "";
          password := "";
          confirmPassword := "";
        }
      } else {
        request := SignInRequest(email, password);
        if reply.Some? {
          error := Some(reply.value.message);
          loading := false;
        } else {
          redirect := Some(HOME);
        }
      }
    }

    /** `toggleMode`: flips the mode and clears the messages and both
        password fields; the email and the loading flag are kept. */
    method ToggleMode()
      modifies this
      ensures isSignUp == !old(isSignUp)
      ensures error.None? && success.None? && password == "" && confirmPassword == ""
      ensures email == old(email) && loading == old(loading) && redirect == old(redirect)
    {
      isSignUp := !isSignUp;
      error := None;
      success := None;
      password := "";
      confirmPassword := "";
    }
  }
}
