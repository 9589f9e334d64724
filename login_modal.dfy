/** The sign-in dialog (components/LoginModal.tsx): three views (log in,
    register, reset the password) with their texts and links, and the submit
    handler that calls the authentication service for the current view. The
    service is a parameter: the message it threw, or `None` when it succeeded. */
module LoginModalState {
  import opened AnimeTypes

  datatype View = Login | Register | Reset

  /** The service call each view makes on submit. */
  datatype AuthCall = SignIn(email: string, password: string)
                    | SignUp(email: string, password: string)
                    | SendResetEmail(email: string)

  const RegisteredMessage: string := "Registration successful! Please check your email to verify your account."
  const ResetLead: string := "If an account exists for "
  const ResetTail: string := ", a password reset link has been sent."

  function ResetSentMessage(email: string): string {
    ResetLead + email + ResetTail
  }

  /** The reset confirmation names the address typed, right after its lead. */
  lemma ResetMessageNamesEmail(email: string)
    ensures |ResetSentMessage(email)| == |ResetLead| + |email| + |ResetTail|
    ensures ResetSentMessage(email)[|ResetLead|..|ResetLead| + |email|] == email
  {
    assert ResetSentMessage(email)[|ResetLead|..|ResetLead| + |email|] == (ResetLead + email)[|ResetLead|..];
  }

  function Title(v: View): string {
    match v
    case Register => "Create Account"
    case Reset => "Reset Password"
    case Login => "Welcome Back"
  }

  function Description(v: View): string {
    match v
    case Register => "Sign up to get started."
    case Reset => "Enter your email to receive a password reset link."
    case Login => "Log in to save your recommendations."
  }

  /** Each view has its own title, its own description and its own submit text. */
  lemma ViewTextsDistinct(v: View, w: View)
    ensures Title(v) == Title(w) <==> v == w
    ensures Description(v) == Description(w) <==> v == w
    ensures SubmitLabel(v, false) == SubmitLabel(w, false) <==> v == w
  {
    assert |Title(Register)| == 14 && |Title(Reset)| == 14 && |Title(Login)| == 12;
    assert Title(Register)[0] == 'C' && Title(Reset)[0] == 'R';
    assert |Description(Register)| == 23 && |Description(Reset)| == 50 && |Description(Login)| == 36;
  }

  /** The submit button's text: "Loading..." exactly while loading, and
      otherwise the view's action. */
  function SubmitLabel(v: View, isLoading: bool): (caption: string)
    ensures caption == "Loading..." <==> isLoading
  {
    if isLoading then "Loading..."
    else match v
      case Login => "Log In"
      case Register => "Sign Up"
      case Reset => "Send Reset Link"
  }

  /** The view the link under the form leads to. */
  function FooterTarget(v: View): (w: View)
    ensures w != v
    ensures w == Login <==> v != Login
  {
    match v
    case Reset => Login
    case Login => Register
    case Register => Login
  }

  predicate ShowsPasswordField(v: View) {
    v != Reset
  }

  predicate ShowsForgotPasswordLink(v: View) {
    v == Login
  }

  /** The views one click away: the footer link, and "Forgot Password?" in the login view. */
  function Links(v: View): (targets: set<View>)
    ensures v !in targets
  {
    {FooterTarget(v)} + (if ShowsForgotPasswordLink(v) then {Reset} else {})
  }

  /** Every view is reachable from every other in at most two clicks, and from
      any view one click leads back to login or onwards from it. */
  lemma EveryViewReachable(v: View, w: View)
    ensures w == v || w in Links(v) || exists u :: u in Links(v) && w in Links(u)
  {
    if w != v && w !in Links(v) {
      assert Login in Links(v) && w in Links(Login);
    }
  }

  /** The call a submit makes from view `v` with the typed address and password. */
  function CallFor(v: View, email: string, password: string): (c: AuthCall)
    ensures c.email == email
    // the password is sent exactly from the views that show its field
    ensures !c.SendResetEmail? <==> ShowsPasswordField(v)
    ensures !c.SendResetEmail? ==> c.password == password
  {
    match v
    case Login => SignIn(email, password)
    case Register => SignUp(email, password)
    case Reset => SendResetEmail(email)
  }

  /** The success banner a completed submit leaves in view `v`. */
  function SuccessFor(v: View, email: string): (m: Option<string>)
    ensures m.None? <==> v == Login
  {
    match v
    case Login => None
    case Register => Some(RegisteredMessage)
    case Reset => Some(ResetSentMessage(email))
  }

  class LoginModal {
    var view: View
    var email: string
    var password: string
    var error: Option<string>
    var isLoading: bool
    var successMessage: Option<string>

    constructor ()
      ensures view == Login && email == "" && password == ""
      ensures error == None && !isLoading && successMessage == None
    {
      view := Login;
      email := "";
      password := "";
      error := None;
      isLoading := false;
      successMessage := None;
    }

    function CurrentStatus(): FormStatus
      reads this
    {
      FormStatus(error, isLoading, successMessage)
    }

    predicate SubmitDisabled()
      reads this
    {
      isLoading || successMessage.Some?
    }

    /** `switchView`: moves to `newView` and clears the banners and the password. */
    method SwitchView(newView: View)
      modifies this
      ensures view == newView && password == ""
      ensures error == None && successMessage == None
      ensures email == old(email) && isLoading == old(isLoading)
    {
      view := newView;
      error := None;
      successMessage := None;
      password := "";
    }

    /** `handleSubmit`: shows the loading state with no banners while the call
        for the current view runs (`waiting`), then shows its result; a login
        that succeeds tells the page (`loggedIn`). */
    method HandleSubmit(auth: AuthCall -> Option<string>) returns (call: AuthCall, waiting: FormStatus, loggedIn: bool)
      modifies this
      ensures call == CallFor(view, email, password)
      ensures waiting == FormStatus(None, true, None)
      ensures !isLoading
      ensures view == old(view) && email == old(email) && password == old(password)
      ensures auth(call).Some? ==> error == auth(call) && successMessage == None && !loggedIn
      ensures auth(call).None? ==> error == None && successMessage == SuccessFor(view, email)
      ensures loggedIn <==> view == Login && auth(call).None?
      // a registration or reset that went through keeps the button disabled
      ensures auth(call).None? && view != Login ==> SubmitDisabled()
    {
      isLoading := true;
      error := None;
      successMessage := None;
      waiting := CurrentStatus();
      call := CallFor(view, email, password);
      loggedIn := false;
      var thrown := auth(call);
      if thrown.Some? {
        error := thrown;
      } else if view == Login {
        loggedIn := true;
      } else {
        successMessage := SuccessFor(view, email);
      }
      isLoading := false;
    }
  }
}
