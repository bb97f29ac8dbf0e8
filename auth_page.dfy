/** The registration half of the sign-in page: the checks run on submit
    before any request is sent, the request itself, and the live
    password-match indicator. */
module AuthPage {
  import opened Wrappers
  import opened UserJson
  import Page

  const MismatchError: string := "Passwords do not match!"
  const TooShortError: string := "Password must be at least 6 characters long"
  const RegistrationFailed: string := "Registration failed"
  const CreatedMessage: string := "Account created successfully! Signing you in..."
  const MinPasswordLength: nat := 6

  /** The `role` string sent with the registration request for the role
      chosen by the form's two role buttons. */
  function RoleName(r: Page.Role): (name: string)
    ensures name == "applicant" || name == "hr"
    ensures name == "hr" <==> r == Page.HR
  {
    match r
    case Applicant => "applicant"
    case HR => "hr"
  }

  /** A user whose stored role is the one chosen at registration reaches
      the dashboard for that role. */
  lemma RegisteredRoleDispatch(u: User, r: Page.Role)
    requires u.role == Some(RoleName(r))
    ensures Page.RoleOf(u) == r
  {
  }

  /** The password-match hint under the confirmation field (and the border
      colour of that field). */
  datatype Indicator = Hidden | Matching | NotMatching

  function MatchIndicator(password: string, confirm: string): (r: Indicator)
    ensures r == Hidden <==> password == "" || confirm == ""
    ensures r == Matching <==> password != "" && password == confirm
    ensures r == NotMatching <==> password != "" && confirm != "" && password != confirm
  {
    if confirm != "" && password != "" then
      (if password == confirm then Matching else NotMatching)
    else Hidden
  }

  /** The error the submit checks report, if any: the mismatch is checked
      first, the length second. */
  function RegistrationError(password: string, confirm: string): (r: Option<string>)
    ensures r.None? <==> password == confirm && |password| >= MinPasswordLength
    ensures password != confirm ==> r == Some(MismatchError)
    ensures password == confirm && |password| < MinPasswordLength ==> r == Some(TooShortError)
  {
    if password != confirm then Some(MismatchError)
    else if |password| < MinPasswordLength then Some(TooShortError)
    else None
  }

  /** `err.message || 'Registration failed'`. */
  function MessageOr(message: string): (r: string)
    ensures r != ""
    ensures message != "" ==> r == message
    ensures message == "" ==> r == RegistrationFailed
  {
    if message == "" then RegistrationFailed else message
  }

  /** The body of `POST auth/register`. */
  datatype RegisterRequest = RegisterRequest(email: string, password: string, name: string, role: string)

  /** The register call: accepted (`response.ok`), or an error with the
      server's or the transport's message (possibly empty). */
  datatype RegisterReply = Accepted | Refused(message: string)

  /** The sign-in that follows: an error, or data whose session may be null. */
  datatype SignInReply = SignInError(message: string) | SignedIn(session: Option<(User, string)>)

  /** The form's state hooks that registration reads and writes. */
  class RegisterForm {
    var name: string
    var email: string
    var password: string
    var confirm: string
    var role: Page.Role
    var loading: bool
    var error: string
    var success: string

    constructor ()
      ensures name == "" && email == "" && password == "" && confirm == ""
      ensures role == Page.Applicant
      ensures !loading && error == "" && success == ""
    {
      name, email, password, confirm := "", "", "", "";
      role := Page.Applicant;
      loading, error, success := false, "", "";
    }

    method ChooseRole(r: Page.Role)
      modifies this`role
      ensures role == r
    {
      role := r;
    }

    method EditPasswords(newPassword: string, newConfirm: string)
      modifies this`password, this`confirm
      ensures password == newPassword && confirm == newConfirm
    {
      password := newPassword;
      confirm := newConfirm;
    }

    /** `handleRegister`. Returns the request sent, if any, and the pair handed
        to `onLoginSuccess`, if any. */
    method Register(reply: RegisterReply, signIn: SignInReply)
      returns (sent: Option<RegisterRequest>, loggedIn: Option<(User, string)>)
      modifies this`loading, this`error, this`success
      ensures !loading
      ensures sent.Some? <==> RegistrationError(password, confirm).None?
      ensures sent.None? ==>
        error == RegistrationError(password, confirm).value && success == "" && loggedIn.None?
      ensures sent.Some? ==> sent.value == RegisterRequest(email, password, name, RoleName(role))
      ensures sent.Some? && reply.Refused? ==>
        error == MessageOr(reply.message) && success == "" && loggedIn.None?
      ensures sent.Some? && reply.Accepted? ==> success == CreatedMessage
      ensures sent.Some? && reply.Accepted? && signIn.SignInError? ==>
        error == MessageOr(signIn.message) && loggedIn.None?
      ensures sent.Some? && reply.Accepted? && signIn.SignedIn? ==>
        error == "" && loggedIn == signIn.session
    {
      loading := true;
      error := "";
      success := "";
      sent, loggedIn := None, None;

      if password != confirm {
        error := MismatchError;
        loading := false;
        return;
      }

      if |password| < MinPasswordLength {
        error := TooShortError;
        loading := false;
        return;
      }

      sent := Some(RegisterRequest(email, password, name, RoleName(role)));
      match reply {
        case Refused(message) =>
          error := MessageOr(message);
        case Accepted =>
          success := CreatedMessage;
          match signIn {
            case SignInError(message) =>
              error := MessageOr(message);
            case SignedIn(session) =>
              loggedIn := session;
          }
      }
      loading := false;
    }
  }
}
