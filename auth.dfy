/**
 * The sign-in / sign-up page: the mode it opens in, the mode toggle, the
 * order of the form checks, the auth call a valid form makes, and the
 * toast each outcome shows. The auth service is a parameter: its reply is
 * passed in.
 */
module AuthForm {
  import opened Wrappers
  import opened Text

  const MinPasswordLength: int := 6
  const SignupMode := "signup"
  const AlreadyRegistered := "already registered"

  /** The checks `handleSubmit` makes before calling the auth service, in the order it makes them. */
  datatype FormError = MissingFields | PasswordTooShort

  /** What the auth service is asked to do. */
  datatype AuthCall =
    | SignIn(email: string, password: string)
    | SignUp(email: string, password: string, displayName: Option<string>)

  /** What the awaited call gives: no error, an error with its message, or a thrown exception. */
  datatype AuthReply = Accepted | Rejected(message: string) | Threw

  datatype Toast = Toast(title: string, description: string, destructive: bool)

  /** What one submit does: the auth call it makes, if any, and the toast it shows, if any. */
  datatype Submission = Submission(call: Option<AuthCall>, toast: Option<Toast>)

  /** The page opens in login mode unless the `mode` query parameter is exactly "signup". */
  function InitialIsLogin(modeParam: Option<string>): (isLogin: bool)
    ensures !isLogin <==> modeParam == Some(SignupMode)
  {
    modeParam != Some(SignupMode)
  }

  /**
   * The form checks: an empty email or password first, then a password
   * shorter than six UTF-16 code units (what `password.length` counts).
   */
  function Validate(email: string, password: string): Option<FormError> {
    if email == "" || password == "" then Some(MissingFields)
    else if Utf16Length(password) < MinPasswordLength then Some(PasswordTooShort)
    else None
  }

  /**
   * A form passes exactly when the email is not empty and the password
   * has at least six code units; an empty field is reported as missing
   * even when the password is also short, and a non-empty short password
   * is reported as too short.
   */
  lemma ValidateMeaning(email: string, password: string)
    ensures Validate(email, password).None? <==> email != "" && Utf16Length(password) >= MinPasswordLength
    ensures Validate(email, password) == Some(MissingFields) <==> email == "" || password == ""
    ensures Validate(email, password) == Some(PasswordTooShort) <==>
              email != "" && password != "" && Utf16Length(password) < MinPasswordLength
  {
  }

  /** Six characters always pass the length check; fewer than three never do. */
  lemma PasswordLengthBounds(email: string, password: string)
    requires email != ""
    ensures |password| >= MinPasswordLength ==> Validate(email, password).None?
    ensures 0 < |password| < 3 ==> Validate(email, password) == Some(PasswordTooShort)
  {
  }

  /** `displayName || undefined`: an empty name is not sent. */
  function SignupName(displayName: string): (name: Option<string>)
    ensures name.None? <==> displayName == ""
    ensures name.Some? ==> name.value == displayName
  {
    if displayName == "" then None else Some(displayName)
  }

  function ValidationToast(e: FormError): Toast {
    match e
    case MissingFields => Toast("Missing fields", "Please fill in all required fields.", true)
    case PasswordTooShort => Toast("Password too short", "Password must be at least 6 characters.", true)
  }

  /** The toast for a sign-up error: an existing account, or the service's own message. */
  function SignupErrorToast(message: string): Toast {
    if Contains(message, AlreadyRegistered) then
      Toast("Account exists", "This email is already registered. Try logging in instead.", true)
    else Toast("Signup failed", message, true)
  }

  /**
   * A sign-up error reads "Account exists" exactly when its message
   * contains "already registered" somewhere, and otherwise shows the
   * message itself under "Signup failed".
   */
  lemma SignupErrorClassified(message: string)
    ensures SignupErrorToast(message).title == "Account exists" <==> exists i :: OccursAt(message, AlreadyRegistered, i)
    ensures SignupErrorToast(message).title != "Account exists" ==>
              SignupErrorToast(message) == Toast("Signup failed", message, true)
  {
  }

  const ErrorToast := Toast("Error", "Something went wrong. Please try again.", true)
  const WelcomeToast := Toast("Welcome to StandUp!", "Your account has been created. Let's build!", false)

  /** The toast for the service's reply; a successful sign-in shows none. */
  function ReplyToast(isLogin: bool, reply: AuthReply): Option<Toast> {
    match reply
    case Threw => Some(ErrorToast)
    case Rejected(message) =>
      if isLogin then Some(Toast("Login failed", message, true)) else Some(SignupErrorToast(message))
    case Accepted => if isLogin then None else Some(WelcomeToast)
  }

  /**
   * What a submit does. An invalid form makes no call and shows its check's
   * toast. A valid one signs in, or signs up with the name when one was
   * typed, and shows the toast for the reply.
   */
  function Submit(isLogin: bool, email: string, password: string, displayName: string, reply: AuthReply): (s: Submission)
    ensures s.call.None? <==> Validate(email, password).Some?
    ensures Validate(email, password).Some? ==> s.toast == Some(ValidationToast(Validate(email, password).value))
    ensures s.call.Some? && isLogin ==> s.call.value == SignIn(email, password)
    ensures s.call.Some? && !isLogin ==> s.call.value == SignUp(email, password, SignupName(displayName))
    ensures s.call.Some? ==> s.toast == ReplyToast(isLogin, reply)
  {
    var e := Validate(email, password);
    if e.Some? then Submission(None, Some(ValidationToast(e.value)))
    else
      var call := if isLogin then SignIn(email, password) else SignUp(email, password, SignupName(displayName));
      Submission(Some(call), ReplyToast(isLogin, reply))
  }

  /** Only a successful sign-in is silent; every other submit shows a toast, and only a new account's is not an error. */
  lemma SubmitToasts(isLogin: bool, email: string, password: string, displayName: string, reply: AuthReply)
    ensures var s := Submit(isLogin, email, password, displayName, reply);
            && (s.toast.None? <==> s.call.Some? && isLogin && reply.Accepted?)
            && (s.toast.Some? && !s.toast.value.destructive <==> s.call.Some? && !isLogin && reply.Accepted?)
  {
  }

  class AuthPage {
    var isLogin: bool
    var email: string
    var password: string
    var displayName: string
    var isLoading: bool

    /** The page as it opens: the mode from the query string, empty fields, not loading. */
    constructor (modeParam: Option<string>)
      ensures isLogin == InitialIsLogin(modeParam)
      ensures email == "" && password == "" && displayName == "" && !isLoading
    {
      isLogin := InitialIsLogin(modeParam);
      email := "";
      password := "";
      displayName := "";
      isLoading := false;
    }

    /** The mode link flips the mode and keeps what was typed. */
    method ToggleMode()
      modifies this
      ensures isLogin == !old(isLogin)
      ensures email == old(email) && password == old(password) && displayName == old(displayName)
      ensures isLoading == old(isLoading)
    {
      isLogin := !isLogin;
    }

    /** Typing in a field; the name field is rendered only in sign-up mode. */
    method EditEmail(value: string)
      modifies this
      ensures email == value
      ensures isLogin == old(isLogin) && password == old(password) && displayName == old(displayName)
      ensures isLoading == old(isLoading)
    {
      email := value;
    }

    method EditPassword(value: string)
      modifies this
      ensures password == value
      ensures isLogin == old(isLogin) && email == old(email) && displayName == old(displayName)
      ensures isLoading == old(isLoading)
    {
      password := value;
    }

    method EditDisplayName(value: string)
      requires !isLogin
      modifies this
      ensures displayName == value
      ensures isLogin == old(isLogin) && email == old(email) && password == old(password)
      ensures isLoading == old(isLoading)
    {
      displayName := value;
    }

    /**
     * `handleSubmit`: loading is switched on, the checks run in order, a
     * valid form makes its call and the reply picks the toast; on every
     * path loading is off again at the end and the form is kept.
     */
    method HandleSubmit(reply: AuthReply) returns (call: Option<AuthCall>, toast: Option<Toast>)
      modifies this
      ensures Submission(call, toast) == Submit(old(isLogin), old(email), old(password), old(displayName), reply)
      ensures !isLoading
      ensures isLogin == old(isLogin) && email == old(email) && password == old(password)
      ensures displayName == old(displayName)
    {
      isLoading := true;
      if email == "" || password == "" {
        toast := Some(ValidationToast(MissingFields));
        isLoading := false;
        return None, toast;
      }
      if Utf16Length(password) < MinPasswordLength {
        toast := Some(ValidationToast(PasswordTooShort));
        isLoading := false;
        return None, toast;
      }
      if isLogin {
        call := Some(SignIn(email, password));
        toast := match reply
          case Rejected(message) => Some(Toast("Login failed", message, true))
          case Threw => Some(ErrorToast)
          case Accepted => None;
      } else {
        call := Some(SignUp(email, password, if displayName == "" then None else Some(displayName)));
        match reply {
          case Rejected(message) =>
            if Contains(message, AlreadyRegistered) {
              toast := Some(Toast("Account exists", "This email is already registered. Try logging in instead.", true));
            } else {
              toast := Some(Toast("Signup failed", message, true));
            }
          case Threw =>
            toast := Some(ErrorToast);
          case Accepted =>
            toast := Some(WelcomeToast);
        }
      }
      isLoading := false;
    }
  }
}
