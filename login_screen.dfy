/**
 * The login / sign-up form (components/LoginScreen.tsx): five pieces of state and
 * the handlers that move between them. The form validates its fields, then calls
 * the backend with the loading flag raised, and always lowers it again.
 */
module LoginScreen {
  import opened Wrappers
  import opened AuthBackend

  const RequiredFieldsMessage := "Email and password are required"
  const ShortPasswordMessage := "Password must be at least 6 characters"
  const UnexpectedErrorMessage := "An unexpected error occurred. Please try again."
  /** The shortest password sign-up accepts. */
  const MinPasswordLength := 6

  /**
   * The message validation stops a submission with, or None when the backend is
   * called. Both fields are required in either mode; the length rule applies only
   * to sign-up, and only once both fields are present.
   */
  function ValidationError(email: string, password: string, signUp: bool): (r: Option<string>)
    ensures r.None? <==> email != "" && password != "" && (signUp ==> |password| >= MinPasswordLength)
    ensures email == "" || password == "" ==> r == Some(RequiredFieldsMessage)
    ensures email != "" && password != "" && r.Some? ==> signUp && r == Some(ShortPasswordMessage)
  {
    if email == "" || password == "" then Some(RequiredFieldsMessage)
    else if signUp && |password| < MinPasswordLength then Some(ShortPasswordMessage)
    else None
  }

  /**
   * The error shown once the backend has answered: the fixed message when it threw,
   * its own error when that is non-empty, and none otherwise.
   */
  function ErrorAfterReply(reply: AuthReply): (r: Option<string>)
    ensures reply.Threw? ==> r == Some(UnexpectedErrorMessage)
    ensures reply.Replied? && Truthy(reply.error) ==> r == reply.error
    ensures r.None? <==> reply.Replied? && !Truthy(reply.error)
  {
    match reply
    case Threw(_) => Some(UnexpectedErrorMessage)
    case Replied(_, error) => if Truthy(error) then error else None
  }

  /**
   * The user handed to `onLoginSuccess`, if any: only a user that came back without
   * an error, so success and an error message never go together.
   */
  function SignedInUser(reply: AuthReply): (r: Option<AuthUser>)
    ensures r.Some? <==> reply.Replied? && !Truthy(reply.error) && reply.user.Some?
    ensures r.Some? ==> r == reply.user && ErrorAfterReply(reply).None?
  {
    match reply
    case Threw(_) => None
    case Replied(user, error) => if Truthy(error) then None else user
  }

  class LoginForm {
    var email: string
    var password: string
    var isSignUp: bool
    var loading: bool
    var errorMessage: Option<string>

    /** The initial `useState` values. */
    constructor ()
      ensures email == "" && password == "" && !isSignUp && !loading && errorMessage == None
    {
      email := "";
      password := "";
      isSignUp := false;
      loading := false;
      errorMessage := None;
    }

    /** The email input's `onChangeText`. */
    method SetEmail(v: string)
      modifies this`email
      ensures email == v
    {
      email := v;
    }

    /** The password input's `onChangeText`. */
    method SetPassword(v: string)
      modifies this`password
      ensures password == v
    {
      password := v;
    }

    /**
     * The part both handlers share once validation has passed: raise the loading
     * flag and clear the error, await the backend, record its error or report its
     * user, and lower the flag in the `finally` block.
     */
    method CallBackend(reply: AuthReply) returns (signedIn: Option<AuthUser>)
      modifies this`loading, this`errorMessage
      ensures !loading
      ensures errorMessage == ErrorAfterReply(reply)
      ensures signedIn == SignedInUser(reply)
    {
      loading := true;
      errorMessage := None;
      signedIn := None;
      match reply {
        case Threw(_) =>
          errorMessage := Some(UnexpectedErrorMessage);
        case Replied(user, error) =>
          if Truthy(error) {
            errorMessage := error;
          } else if user.Some? {
            signedIn := user;
          }
      }
      loading := false;
    }

    /**
     * `handleLogin()`, given what `loginWithEmail` answers. `authCalled` says whether
     * the backend was called, `signedIn` what was passed to `onLoginSuccess`.
     */
    method HandleLogin(reply: AuthReply) returns (authCalled: bool, signedIn: Option<AuthUser>)
      modifies this`loading, this`errorMessage
      ensures authCalled <==> ValidationError(email, password, false).None?
      ensures !authCalled ==>
        errorMessage == ValidationError(email, password, false) && loading == old(loading) && signedIn == None
      ensures authCalled ==>
        !loading && errorMessage == ErrorAfterReply(reply) && signedIn == SignedInUser(reply)
    {
      if email == "" || password == "" {
        errorMessage := Some(RequiredFieldsMessage);
        return false, None;
      }
      authCalled := true;
      signedIn := CallBackend(reply);
    }

    /**
     * `handleSignUp()`, given what `createUserAccount` answers: the same as
     * `HandleLogin` with the password-length rule added to the validation.
     */
    method HandleSignUp(reply: AuthReply) returns (authCalled: bool, signedIn: Option<AuthUser>)
      modifies this`loading, this`errorMessage
      ensures authCalled <==> ValidationError(email, password, true).None?
      ensures !authCalled ==>
        errorMessage == ValidationError(email, password, true) && loading == old(loading) && signedIn == None
      ensures authCalled ==>
        !loading && errorMessage == ErrorAfterReply(reply) && signedIn == SignedInUser(reply)
    {
      if email == "" || password == "" {
        errorMessage := Some(RequiredFieldsMessage);
        return false, None;
      }
      if |password| < MinPasswordLength {
        errorMessage := Some(ShortPasswordMessage);
        return false, None;
      }
      authCalled := true;
      signedIn := CallBackend(reply);
    }

    /** `toggleAuthMode()`: flips the mode and clears the error; the fields stay. */
    method ToggleAuthMode()
      modifies this`isSignUp, this`errorMessage
      ensures isSignUp == !old(isSignUp)
      ensures errorMessage == None
    {
      isSignUp := !isSignUp;
      errorMessage := None;
    }

    /**
     * The submit button: `handleSignUp` in sign-up mode, `handleLogin` otherwise.
     * Validation follows the current mode, and the mode itself does not change.
     */
    method Submit(reply: AuthReply) returns (authCalled: bool, signedIn: Option<AuthUser>)
      modifies this`loading, this`errorMessage
      ensures authCalled <==> ValidationError(email, password, isSignUp).None?
      ensures !authCalled ==>
        errorMessage == ValidationError(email, password, isSignUp) && loading == old(loading) && signedIn == None
      ensures authCalled ==>
        !loading && errorMessage == ErrorAfterReply(reply) && signedIn == SignedInUser(reply)
    {
      if isSignUp {
        authCalled, signedIn := HandleSignUp(reply);
      } else {
        authCalled, signedIn := HandleLogin(reply);
      }
    }
  }
}
