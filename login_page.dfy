/** The login / sign-up form: the e-mail check, the two submit handlers, the
    mode toggle and the submit button, over the form's four state fields. */
module LoginPage {

  const GmailSuffix := "@gmail.com"

  /** `email.endsWith('@gmail.com')`. */
  predicate IsGmail(email: string)
    ensures IsGmail(email) ==> |email| >= |GmailSuffix| && email == email[..|email| - |GmailSuffix|] + GmailSuffix
  {
    |email| >= |GmailSuffix| && email[|email| - |GmailSuffix|..] == GmailSuffix
  }

  /** The suffix test holds exactly of the strings that are some local part
      followed by "@gmail.com"; in particular only of non-empty strings. */
  lemma IsGmailIffEndsWith(email: string)
    ensures IsGmail(email) <==> exists local: string :: email == local + GmailSuffix
    ensures IsGmail(email) ==> email != ""
  {
    if IsGmail(email) {
      var local := email[..|email| - |GmailSuffix|];
      assert email == local + GmailSuffix;
    }
    if exists local: string :: email == local + GmailSuffix {
      var local: string :| email == local + GmailSuffix;
      assert email[|local|..] == GmailSuffix;
    }
  }

  /** What a remote call (validation or registration) produced. */
  datatype Reply = Returned(ok: bool) | Threw

  /** What the user sees after a handler: an alert, a move to another
      screen, or nothing. */
  datatype Effect = Silent | Alert(title: string, message: string) | Navigate(screen: string)

  /** The form's state fields. */
  datatype Form = Form(username: string, password: string, isSignUp: bool, loading: bool)

  /** A handler's result: the new form, what the user sees, and whether the
      remote service was called. */
  datatype Submission = Submission(form: Form, effect: Effect, calledApi: bool)

  const InvalidLoginEmail := Alert("Invalid Email", "Enter the proper gmail")
  const InvalidSignUpEmail := Alert("Invalid Email", "Email should end with @gmail.com")
  const LoginMissing := Alert("Login Failed", "Please enter both email and password.")
  const LoginRejected := Alert("Login Failed", "Invalid email or password.")
  const LoginError := Alert("Login Error", "An error occurred during login.")
  const SignUpMissing := Alert("SignUp Failed", "Please enter both email and password.")
  const SignUpDone := Alert("SignUp Successful", "Your account has been created.")
  const SignUpError := Alert("SignUp Error", "An error occurred during SignUp.")
  const HomeScreen := Navigate("Home")

  /** The login handler; `reply` is what the validation service would answer. */
  function Login(f: Form, reply: Reply): (s: Submission)
    ensures !IsGmail(f.username) ==> s == Submission(f, InvalidLoginEmail, false)
    ensures s.calledApi <==> IsGmail(f.username) && f.password != ""
    ensures IsGmail(f.username) && f.password == "" ==> s.effect == LoginMissing
    ensures IsGmail(f.username) ==> s.form == f.(loading := false)
    ensures s.calledApi ==> s.effect == (match reply
                                         case Returned(true) => HomeScreen
                                         case Returned(false) => LoginRejected
                                         case Threw => LoginError)
    ensures s.effect == HomeScreen <==> s.calledApi && reply == Returned(true)
  {
    if !IsGmail(f.username) then
      Submission(f, InvalidLoginEmail, false)
    else if f.username != "" && f.password != "" then
      var effect :=
        match reply
        case Returned(ok) => if ok then HomeScreen else LoginRejected
        case Threw => LoginError;
      Submission(f.(loading := false), effect, true)
    else
      Submission(f.(loading := false), LoginMissing, false)
  }

  /** The sign-up handler; `reply` is what the registration service would answer. */
  function SignUp(f: Form, reply: Reply): (s: Submission)
    ensures !IsGmail(f.username) ==> s == Submission(f, InvalidSignUpEmail, false)
    ensures s.calledApi <==> IsGmail(f.username) && f.password != ""
    ensures IsGmail(f.username) && f.password == "" ==> s == Submission(f, SignUpMissing, false)
    ensures s.calledApi ==> && !s.form.loading
                            && s.form.username == f.username && s.form.password == f.password
                            && s.effect == (if reply.Threw? then SignUpError else SignUpDone)
    // only a positive answer switches back to the login mode
    ensures s.form.isSignUp == (f.isSignUp && !(s.calledApi && reply == Returned(true)))
  {
    if !IsGmail(f.username) then
      Submission(f, InvalidSignUpEmail, false)
    else if f.username != "" && f.password != "" then
      match reply
      case Returned(ok) =>
        if ok then Submission(f.(isSignUp := false, loading := false), SignUpDone, true)
        else Submission(f.(loading := false), SignUpDone, true)
      case Threw => Submission(f.(loading := false), SignUpError, true)
    else
      Submission(f, SignUpMissing, false)
  }

  /** The "Sign Up" / "Back to Login" link. */
  function Toggle(f: Form): (g: Form)
    ensures g.isSignUp == !f.isSignUp
    ensures g.username == "" && g.password == ""
    ensures g.loading == f.loading
  {
    f.(isSignUp := !f.isSignUp, username := "", password := "")
  }

  /** Toggling twice restores the mode, with empty credentials. */
  lemma ToggleTwice(f: Form)
    ensures Toggle(Toggle(f)) == f.(username := "", password := "")
  {
  }

  /** The submit button: disabled while loading, otherwise the sign-up handler
      in sign-up mode and the login handler in login mode. */
  function Press(f: Form, reply: Reply): (s: Submission)
    ensures f.loading ==> s == Submission(f, Silent, false)
    ensures !f.loading && f.isSignUp ==> s == SignUp(f, reply)
    ensures !f.loading && !f.isSignUp ==> s == Login(f, reply)
  {
    if f.loading then Submission(f, Silent, false)
    else if f.isSignUp then SignUp(f, reply)
    else Login(f, reply)
  }

  /** A form that is not loading is still not loading after a press, so the
      button is never left disabled. */
  lemma PressLeavesIdle(f: Form, reply: Reply)
    requires !f.loading
    ensures !Press(f, reply).form.loading
  {
  }

  /** After a sign-up the service accepts, the next press logs in with the
      same credentials. */
  lemma SignUpThenLogin(f: Form, first: Reply, second: Reply)
    requires !f.loading && f.isSignUp
    requires IsGmail(f.username) && f.password != ""
    ensures var g := Press(f, first).form;
            first == Returned(true) ==> Press(g, second) == Login(f.(isSignUp := false), second)
  {
  }

  /** A login press with an address that is not a Gmail address calls nothing
      and changes nothing. */
  lemma LoginRejectsForeignAddress(f: Form, reply: Reply, local: string)
    requires !f.loading && !f.isSignUp
    requires f.username == local + "@example.com"
    ensures Press(f, reply) == Submission(f, InvalidLoginEmail, false)
  {
    var u := f.username;
    assert u[|u| - |GmailSuffix|] == 'x' != GmailSuffix[0];
  }

  /** The login screen: its `useState` fields, updated in place by the handlers. */
  class Screen {
    var username: string
    var password: string
    var isSignUp: bool
    var loading: bool

    function State(): Form
      reads this
    {
      Form(username, password, isSignUp, loading)
    }

    constructor ()
      ensures State() == Form("", "", false, false)
    {
      username, password := "", "";
      isSignUp, loading := false, false;
    }

    method SetUsername(text: string)
      modifies this
      ensures State() == old(State()).(username := text)
    {
      username := text;
    }

    method SetPassword(text: string)
      modifies this
      ensures State() == old(State()).(password := text)
    {
      password := text;
    }

    method HandleLogin(reply: Reply) returns (effect: Effect, calledApi: bool)
      modifies this
      ensures Submission(State(), effect, calledApi) == Login(old(State()), reply)
    {
      if !IsGmail(username) {
        return InvalidLoginEmail, false;
      }
      calledApi := false;
      if username != "" && password != "" {
        loading := true;
        calledApi := true;
        match reply {
          case Returned(ok) =>
            effect := if ok then HomeScreen else LoginRejected;
          case Threw =>
            effect := LoginError;
        }
      } else {
        effect := LoginMissing;
      }
      loading := false;
    }

    method HandleSignUp(reply: Reply) returns (effect: Effect, calledApi: bool)
      modifies this
      ensures Submission(State(), effect, calledApi) == SignUp(old(State()), reply)
    {
      if !IsGmail(username) {
        return InvalidSignUpEmail, false;
      }
      if username != "" && password != "" {
        loading := true;
        calledApi := true;
        match reply {
          case Returned(ok) =>
            if ok {
              effect := SignUpDone;
              isSignUp := false;
            } else {
              effect := SignUpDone;
            }
          case Threw =>
            effect := SignUpError;
        }
        loading := false;
      } else {
        effect, calledApi := SignUpMissing, false;
      }
    }

    method ToggleMode()
      modifies this
      ensures State() == Toggle(old(State()))
    {
      isSignUp := !isSignUp;
      username := "";
      password := "";
    }

    method PressSubmit(reply: Reply) returns (effect: Effect, calledApi: bool)
      modifies this
      ensures Submission(State(), effect, calledApi) == Press(old(State()), reply)
    {
      if loading {
        return Silent, false;
      }
      if isSignUp {
        effect, calledApi := HandleSignUp(reply);
      } else {
        effect, calledApi := HandleLogin(reply);
      }
    }
  }
}
