/** The authentication dialog: it shows one of three forms and moves between
    them through the links each form offers. Opening the dialog (or changing
    the requested view while it is open) resets it to the requested view. */
module AuthModal {
  import opened Common
  import Auth

  datatype AuthView = Login | Register | ForgotPassword

  datatype FormKind = LoginForm | RegisterForm | ForgotPasswordForm

  /** The callbacks a form can fire while it is rendered. */
  datatype Event =
    | LoginSucceeded       // login form: success callback, `handleSuccess`
    | SwitchToRegister     // login form: "create an account"
    | ForgotPasswordLink   // login form: "forgot password"
    | SwitchToLogin        // register form: "already have an account"
    | RegisterSucceeded    // register form: delayed success callback
    | Back                 // forgot-password form: back link

  /** Calls the dialog makes on its parent. */
  datatype ParentCall = OnSuccess(user: Auth.User) | OnOpenChange(open: bool)

  /** The view used when the parent gives none. */
  function DefaultView(requested: Option<AuthView>): (v: AuthView)
    ensures requested.Some? ==> v == requested.value
    ensures requested.None? ==> v == Login
  {
    if requested.Some? then requested.value else Login
  }

  /** The three conditional blocks of the dialog body, in order. */
  function Rendered(view: AuthView): (forms: seq<FormKind>)
    ensures |forms| == 1
    ensures forms[0] == LoginForm <==> view == Login
    ensures forms[0] == RegisterForm <==> view == Register
    ensures forms[0] == ForgotPasswordForm <==> view == ForgotPassword
  {
    (if view == Login then [LoginForm] else [])
    + (if view == Register then [RegisterForm] else [])
    + (if view == ForgotPassword then [ForgotPasswordForm] else [])
  }

  /** The callbacks passed to the form rendered for `view`. */
  function Handlers(view: AuthView): (evs: set<Event>)
    ensures LoginSucceeded in evs <==> view == Login
    ensures SwitchToRegister in evs <==> view == Login
    ensures ForgotPasswordLink in evs <==> view == Login
    ensures SwitchToLogin in evs <==> view == Register
    ensures RegisterSucceeded in evs <==> view == Register
    ensures Back in evs <==> view == ForgotPassword
  {
    match view
    case Login => {LoginSucceeded, SwitchToRegister, ForgotPasswordLink}
    case Register => {SwitchToLogin, RegisterSucceeded}
    case ForgotPassword => {Back}
  }

  /** The view each callback leaves the dialog on: the login success keeps
      the login view (`handleSuccess` does not touch it), every other
      callback installs its fixed target. */
  function Target(ev: Event): (v: AuthView)
    ensures ev == SwitchToRegister ==> v == Register
    ensures ev == ForgotPasswordLink ==> v == ForgotPassword
    ensures v == Login <==> ev == LoginSucceeded || ev == SwitchToLogin || ev == RegisterSucceeded || ev == Back
  {
    match ev
    case LoginSucceeded => Login
    case SwitchToRegister => Register
    case ForgotPasswordLink => ForgotPassword
    case SwitchToLogin => Login
    case RegisterSucceeded => Login
    case Back => Login
  }

  /** From the login view both other views are one click away and the login
      success stays on it; every callback of the other two views leads back
      to the login view. */
  lemma Transitions(view: AuthView, ev: Event)
    ensures view == Login && ev in Handlers(view) && ev != LoginSucceeded ==> Target(ev) != Login
    ensures view == Login && ev in Handlers(view) && ev == LoginSucceeded ==> Target(ev) == view
    ensures view != Login && ev in Handlers(view) ==> Target(ev) == Login
    ensures exists e :: e in Handlers(Login) && Target(e) == Register
    ensures exists e :: e in Handlers(Login) && Target(e) == ForgotPassword
    ensures SwitchToLogin in Handlers(Register) && RegisterSucceeded in Handlers(Register)
    ensures Back in Handlers(ForgotPassword)
  {
    assert SwitchToRegister in Handlers(Login) && Target(SwitchToRegister) == Register;
    assert ForgotPasswordLink in Handlers(Login) && Target(ForgotPasswordLink) == ForgotPassword;
  }

  class Modal {
    var open: bool
    var defaultView: AuthView
    var currentView: AuthView

    /** Mounting: the state starts at the requested view, and the effect
        that runs on mount sets it to the same view when open. */
    constructor (open: bool, requested: Option<AuthView>)
      ensures this.open == open
      ensures defaultView == DefaultView(requested)
      ensures currentView == DefaultView(requested)
    {
      this.open := open;
      defaultView := DefaultView(requested);
      currentView := DefaultView(requested);
    }

    /** New props from the parent. The sync effect runs only when `open` or
        `defaultView` changed, and resets the view only while open. */
    method SetProps(newOpen: bool, requested: Option<AuthView>)
      modifies this
      ensures open == newOpen && defaultView == DefaultView(requested)
      ensures (old(open) != open || old(defaultView) != defaultView) && open ==> currentView == defaultView
      ensures !((old(open) != open || old(defaultView) != defaultView) && open) ==> currentView == old(currentView)
    {
      var dv := DefaultView(requested);
      var changed := newOpen != open || dv != defaultView;
      open, defaultView := newOpen, dv;
      if changed && open {
        currentView := defaultView;
      }
    }

    /** A form callback fires; it exists only on the form currently shown.
        The login success leaves the view as it is; what it asks of the
        parent is `HandleSuccess`. */
    method Dispatch(ev: Event)
      requires ev in Handlers(currentView)
      modifies this`currentView
      ensures currentView == Target(ev)
      ensures ev == LoginSucceeded ==> currentView == old(currentView)
      ensures old(currentView) == Login && ev != LoginSucceeded ==> currentView != Login
      ensures old(currentView) != Login ==> currentView == Login
    {
      currentView := Target(ev);
    }

    /** `handleSuccess`: the login form's success callback reports the user
        to the parent, then asks the parent to close the dialog. */
    method HandleSuccess(user: Auth.User) returns (calls: seq<ParentCall>)
      ensures |calls| == 2
      ensures calls[0] == OnSuccess(user)
      ensures calls[1] == OnOpenChange(false)
    {
      calls := [OnSuccess(user), OnOpenChange(false)];
    }
  }
}
