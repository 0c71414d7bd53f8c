/**
 * The login dialog (components/LoginModal.tsx): the fixed admin credential,
 * email-and-password login against the user store, the ordered signup
 * checks, the password-reset screen and the dialog's four views.
 */
module Login {
  import opened Wrappers
  import opened Types
  import opened Text
  import Db
  import Storefront

  const AdminUsername := "jaisonvarghese7005"
  const AdminPassword := "101488"
  const MinPasswordLength := 6

  const InvalidLoginMessage := "Invalid username/email or password."
  const PasswordMismatchMessage := "Passwords do not match."
  const PasswordTooShortMessage := "Password must be at least 6 characters long."
  const EmailTakenMessage := "An account with this email already exists."

  predicate IsAdminPair(id: string, password: string) {
    id == AdminUsername && password == AdminPassword
  }

  datatype LoginOutcome = AdminLogin | UserLogin(user: User) | LoginFailed

  /**
   * `handleLogin`'s decision: the admin pair first, without a lookup; then a
   * stored user whose email matches ignoring case and whose hash verifies.
   */
  function DecideLogin(users: seq<User>, id: string, password: string): (r: LoginOutcome)
    ensures r.AdminLogin? <==> IsAdminPair(id, password)
    ensures r.UserLogin? <==>
              !IsAdminPair(id, password) && Db.FindUserByEmail(users, id).Some?
              && Db.VerifyPassword(Db.FindUserByEmail(users, id).value, password)
    ensures r.UserLogin? ==> r.user in users && SameIgnoringCase(r.user.email, id) && Db.VerifyPassword(r.user, password)
    ensures r.UserLogin? ==> Db.FindUserByEmail(users, id) == Some(r.user)
  {
    if IsAdminPair(id, password) then AdminLogin
    else
      var user := Db.FindUserByEmail(users, id);
      if user.Some? && Db.VerifyPassword(user.value, password) then UserLogin(user.value) else LoginFailed
  }

  /** The admin pair logs in as admin whatever the user store holds. */
  lemma AdminIgnoresUserStore(users: seq<User>, others: seq<User>)
    ensures DecideLogin(users, AdminUsername, AdminPassword) == DecideLogin(others, AdminUsername, AdminPassword) == AdminLogin
  {
  }

  /**
   * An account created under an email nobody has yet logs in with the same
   * email and password (unless that pair is the admin's).
   */
  lemma SignUpThenLogin(users: seq<User>, name: string, email: string, password: string, now: int)
    requires Db.FindUserByEmail(users, email).None?
    requires !IsAdminPair(email, password)
    ensures var u := User(now, name, email, Db.HashPassword(password));
            DecideLogin(users + [u], email, password) == UserLogin(u)
  {
    var u := User(now, name, email, Db.HashPassword(password));
    var all := users + [u];
    assert all[|users|] == u;
    assert forall j :: 0 <= j < |users| ==> all[j] == users[j];
    var found := Db.FindUserByEmail(all, email);
    assert found.Some?;
    var k :| 0 <= k < |all| && all[k] == found.value && SameIgnoringCase(all[k].email, email)
             && forall j :: 0 <= j < k ==> !SameIgnoringCase(all[j].email, email);
    assert k == |users|;
  }

  datatype SignUpCheck = PasswordMismatch | PasswordTooShort | SignUpAllowed

  /** `handleSignUp`'s checks, in order: the confirmation first, then the length. */
  function CheckSignUp(password: string, confirmPassword: string): (r: SignUpCheck)
    ensures r == PasswordMismatch <==> password != confirmPassword
    ensures r == PasswordTooShort <==> password == confirmPassword && |password| < MinPasswordLength
    ensures r == SignUpAllowed <==> password == confirmPassword && |password| >= MinPasswordLength
  {
    if password != confirmPassword then PasswordMismatch
    else if |password| < MinPasswordLength then PasswordTooShort
    else SignUpAllowed
  }

  function CheckMessage(c: SignUpCheck): string {
    match c
    case PasswordMismatch => PasswordMismatchMessage
    case PasswordTooShort => PasswordTooShortMessage
    case SignUpAllowed => ""
  }

  datatype AuthView = LoginView | SignupView | ForgotPasswordView | ResetSentView

  /** The dialog's view buttons. */
  datatype ViewButton =
    | ForgotPasswordLink   // under the login password field
    | BackToLogin          // on the forgot-password and reset-sent screens
    | LoginTab             // the tabs shown over the login and signup forms
    | SignupTab

  /** Whether a button is on screen in a view. */
  predicate Shown(v: AuthView, b: ViewButton) {
    match b
    case ForgotPasswordLink => v == LoginView
    case BackToLogin => v == ForgotPasswordView || v == ResetSentView
    case LoginTab => v == LoginView || v == SignupView
    case SignupTab => v == LoginView || v == SignupView
  }

  function Target(b: ViewButton): AuthView {
    match b
    case ForgotPasswordLink => ForgotPasswordView
    case BackToLogin => LoginView
    case LoginTab => LoginView
    case SignupTab => SignupView
  }

  /**
   * No button leads to the reset-sent screen (only the reset form does), and
   * the reset-sent screen leads back to login only.
   */
  lemma ViewButtonsReachability(v: AuthView, b: ViewButton)
    ensures Target(b) != ResetSentView
    ensures Shown(v, b) && v == ResetSentView ==> Target(b) == LoginView
    ensures Shown(v, b) && Target(b) == ForgotPasswordView ==> v == LoginView
  {
  }

  datatype AuthField = NameField | EmailField | PasswordField | ConfirmPasswordField

  datatype AuthForm = AuthForm(name: string, email: string, password: string, confirmPassword: string)

  function AuthGet(f: AuthForm, field: AuthField): string {
    match field
    case NameField => f.name
    case EmailField => f.email
    case PasswordField => f.password
    case ConfirmPasswordField => f.confirmPassword
  }

  /** `setFormState(prev => ({ ...prev, [name]: value }))`. */
  function SetAuthField(f: AuthForm, field: AuthField, value: string): (r: AuthForm)
    ensures AuthGet(r, field) == value
    ensures forall g :: g != field ==> AuthGet(r, g) == AuthGet(f, g)
  {
    match field
    case NameField => f.(name := value)
    case EmailField => f.(email := value)
    case PasswordField => f.(password := value)
    case ConfirmPasswordField => f.(confirmPassword := value)
  }

  /** The dialog's state cells; the callbacks it receives are the controller's handlers. */
  class LoginModal {
    var view: AuthView
    var error: Option<string>
    var form: AuthForm

    constructor ()
      ensures view == LoginView && error == None && form == AuthForm("", "", "", "")
    {
      view := LoginView;
      error := None;
      form := AuthForm("", "", "", "");
    }

    /** Any edit stores the value and clears the error. */
    method HandleChange(field: AuthField, value: string)
      modifies this
      ensures form == SetAuthField(old(form), field, value) && error == None && view == old(view)
    {
      form := SetAuthField(form, field, value);
      error := None;
    }

    /** A view button: the new view, with the error cleared. */
    method Show(b: ViewButton)
      requires Shown(view, b)
      modifies this
      ensures view == Target(b) && error == None && form == old(form)
    {
      view := Target(b);
      error := None;
    }

    /** The reset form always reports success, whether or not the email is registered. */
    method HandleForgotPassword()
      modifies this
      ensures view == ResetSentView && error == None && form == old(form)
    {
      view := ResetSentView;
      error := None;
    }

    /** `onClose`. */
    method Close(app: Storefront.App)
      modifies app
      ensures app.State() == old(app.State()).(isLoginModalOpen := false)
    {
      app.SetLoginModalOpen(false);
    }

    method HandleLogin(app: Storefront.App)
      modifies this, app
      ensures view == old(view) && form == old(form)
      ensures var o := DecideLogin(app.userDB.users, form.email, form.password);
              && (o.AdminLogin? ==>
                    error == old(error)
                    && app.State() == old(app.State()).(isAdmin := true, view := Storefront.AdminView, isLoginModalOpen := false))
              && (o.UserLogin? ==>
                    error == old(error)
                    && app.State() == old(app.State()).(currentUser := Some(o.user), isLoginModalOpen := false))
              && (o.LoginFailed? ==> error == Some(InvalidLoginMessage) && app.State() == old(app.State()))
    {
      var o := DecideLogin(app.userDB.users, form.email, form.password);
      match o
      case AdminLogin =>
        app.HandleAdminLoginSuccess();
      case UserLogin(user) =>
        app.HandleLoginSuccess(user);
      case LoginFailed =>
        error := Some(InvalidLoginMessage);
    }

    /**
     * The two password checks refuse before anything is sent; otherwise the
     * controller's signup runs and a taken email is reported.
     */
    method HandleSignUp(app: Storefront.App, now: int)
      modifies this, app, app.userDB
      ensures view == old(view) && form == old(form)
      ensures var c := CheckSignUp(form.password, form.confirmPassword);
              && (c != SignUpAllowed ==>
                    error == Some(CheckMessage(c)) && app.State() == old(app.State())
                    && app.userDB.users == old(app.userDB.users))
              && (c == SignUpAllowed && old(app.userDB.GetUserByEmail(form.email)).Some? ==>
                    error == Some(EmailTakenMessage) && app.State() == old(app.State())
                    && app.userDB.users == old(app.userDB.users))
              && (c == SignUpAllowed && old(app.userDB.GetUserByEmail(form.email)).None? ==>
                    var u := User(now, form.name, form.email, Db.HashPassword(form.password));
                    && error == old(error)
                    && app.userDB.users == old(app.userDB.users) + [u]
                    && app.State() == old(app.State()).(currentUser := Some(u), isLoginModalOpen := false))
    {
      var c := CheckSignUp(form.password, form.confirmPassword);
      if c != SignUpAllowed {
        error := Some(CheckMessage(c));
        return;
      }
      var newUser := app.HandleSignUp(form.name, form.email, form.password, now);
      if newUser.None? {
        error := Some(EmailTakenMessage);
      }
    }
  }
}
