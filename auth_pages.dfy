// The sign-in and sign-up screens. Each component's React state is a class
// whose fields are its state cells; an async submit handler is split at its
// `await` into a Begin method (before the call) and a Finish method (after it
// settles), so that the state in between is visible.

/** Frontend/src/pages/auth/Login.jsx. */
module LoginPage {
  import opened Common
  import opened Views
  import Session

  /** `result.user.role === 'customer' ? '/customer' : '/caterer'`, taken only
      on success. A successful result without a user has no target: reading
      its role throws. */
  function DashboardAfterLogin(result: Session.LoginResult): (target: Option<string>)
    ensures target.Some? <==> result.success && result.user.Some?
    ensures target == Some("/customer") <==> result.success && Session.RoleOf(result.user) == Some("customer")
    ensures target == Some("/caterer") <==>
              result.success && result.user.Some? && Session.RoleOf(result.user) != Some("customer")
  {
    if result.success && result.user.Some? then
      Some(if result.user.value.role == Some("customer") then "/customer" else "/caterer")
    else None
  }

  /** A login that the session store reports as successful always lets the
      page navigate, and an admin lands on "/caterer". */
  lemma SuccessfulLoginNavigates(s: Session.SessionState, reply: Session.AuthReply)
    requires Session.Login(s, reply).1.success
    ensures DashboardAfterLogin(Session.Login(s, reply).1).Some?
    ensures Session.RoleOf(reply.body.user) == Some("admin") ==>
              DashboardAfterLogin(Session.Login(s, reply).1) == Some("/caterer")
  {
  }

  class LoginScreen {
    var formData: map<string, string>
    var isLoading: bool

    constructor ()
      ensures formData == map["email" := "", "password" := ""] && !isLoading
    {
      formData := map["email" := "", "password" := ""];
      isLoading := false;
    }

    method HandleChange(name: string, value: string)
      modifies this
      ensures formData == SetField(old(formData), name, value) && isLoading == old(isLoading)
    {
      formData := SetField(formData, name, value);
    }

    /** Up to `await login(formData)`: the flag is raised and the whole form
        is handed over. */
    method BeginSubmit() returns (credentials: map<string, string>)
      modifies this
      ensures isLoading && formData == old(formData) && credentials == formData
    {
      isLoading := true;
      credentials := formData;
    }

    /** After the login settles. When reading `result.user.role` throws, the
        handler stops before `setIsLoading(false)`. */
    method FinishSubmit(result: Session.LoginResult) returns (navigation: Option<Navigation>)
      modifies this
      ensures formData == old(formData)
      ensures navigation.Some? <==> DashboardAfterLogin(result).Some?
      ensures navigation.Some? ==> navigation.value == Navigation(DashboardAfterLogin(result).value, false, None)
      ensures isLoading <==> old(isLoading) && result.success && result.user.None?
    {
      navigation := None;
      if result.success {
        if result.user.None? {
          return;
        }
        navigation := Some(Navigation(DashboardAfterLogin(result).value, false, None));
      }
      isLoading := false;
    }
  }
}

/** Frontend/src/components/auth/Login.jsx. */
module LoginCard {
  import opened Common
  import opened Views
  import Session

  /** The effect that sends an already signed-in visitor to "/". */
  function RedirectIfSignedIn(isLoading: bool, isAuthenticated: bool, user: Option<Session.User>): (n: Option<Navigation>)
    ensures n.Some? <==> !isLoading && isAuthenticated && user.Some?
    ensures n.Some? ==> n.value == Navigation("/", true, None)
  {
    if !isLoading && isAuthenticated && user.Some? then Some(Navigation("/", true, None)) else None
  }

  datatype CardView = Spinner | SignInForm

  /** While the session store is loading only the spinner is rendered. */
  function Render(isLoading: bool): (v: CardView)
    ensures v == Spinner <==> isLoading
  {
    if isLoading then Spinner else SignInForm
  }

  class LoginCardForm {
    var formData: map<string, string>
    var isSubmitting: bool

    constructor ()
      ensures formData == map["email" := "", "password" := ""] && !isSubmitting
    {
      formData := map["email" := "", "password" := ""];
      isSubmitting := false;
    }

    method HandleChange(name: string, value: string)
      modifies this
      ensures formData == SetField(old(formData), name, value) && isSubmitting == old(isSubmitting)
    {
      formData := SetField(formData, name, value);
    }

    method BeginSubmit() returns (credentials: map<string, string>)
      modifies this
      ensures isSubmitting && formData == old(formData) && credentials == formData
    {
      isSubmitting := true;
      credentials := formData;
    }

    /** `navigate('/')` on success, then the flag is cleared either way. */
    method FinishSubmit(result: Session.LoginResult) returns (navigation: Option<Navigation>)
      modifies this
      ensures !isSubmitting && formData == old(formData)
      ensures navigation.Some? <==> result.success
      ensures navigation.Some? ==> navigation.value == Navigation("/", false, None)
    {
      navigation := if result.success then Some(Navigation("/", false, None)) else None;
      isSubmitting := false;
    }
  }
}

/** Frontend/src/components/auth/Register.jsx. */
module RegisterCard {
  import opened Common
  import opened Views
  import Session

  const InitialForm: map<string, string> := map["name" := "", "email" := "", "password" := "", "role" := "customer"]

  class RegisterForm {
    var formData: map<string, string>
    var isLoading: bool

    constructor ()
      ensures formData == InitialForm && !isLoading
    {
      formData := InitialForm;
      isLoading := false;
    }

    method HandleChange(name: string, value: string)
      modifies this
      ensures formData == SetField(old(formData), name, value) && isLoading == old(isLoading)
    {
      formData := SetField(formData, name, value);
    }

    method HandleRoleChange(value: string)
      modifies this
      ensures formData == SetField(old(formData), "role", value) && isLoading == old(isLoading)
    {
      formData := SetField(formData, "role", value);
    }

    /** The whole form object is what `register` receives. */
    method BeginSubmit() returns (registration: map<string, string>)
      modifies this
      ensures isLoading && formData == old(formData) && registration == formData
    {
      isLoading := true;
      registration := formData;
    }

    /** `navigate('/login')` on success; never a dashboard. */
    method FinishSubmit(result: Session.RegisterResult) returns (navigation: Option<Navigation>)
      modifies this
      ensures !isLoading && formData == old(formData)
      ensures navigation.Some? <==> result.success
      ensures navigation.Some? ==> navigation.value == Navigation("/login", false, None)
    {
      navigation := if result.success then Some(Navigation("/login", false, None)) else None;
      isLoading := false;
    }
  }
}

/** Frontend/src/pages/Auth.jsx: two tabbed forms over the session store. */
module AuthScreen {
  import opened Common

  datatype LoginFields = LoginFields(email: string, password: string)

  datatype RegisterFields = RegisterFields(email: string, password: string, role: string)

  datatype LoginCall = LoginCall(email: string, password: string)

  datatype RegisterCall = RegisterCall(email: string, password: string, role: string)

  /** `handleLogin`: the call it makes, if any. */
  function LoginRequest(f: LoginFields): (c: Option<LoginCall>)
    ensures c.Some? <==> f.email != "" && f.password != ""
    ensures c.Some? ==> c.value == LoginCall(f.email, f.password)
  {
    if f.email != "" && f.password != "" then Some(LoginCall(f.email, f.password)) else None
  }

  /** `handleRegister`: the call it makes, if any. */
  function RegisterRequest(f: RegisterFields): (c: Option<RegisterCall>)
    ensures c.Some? <==> f.email != "" && f.password != "" && f.role != ""
    ensures c.Some? ==> c.value == RegisterCall(f.email, f.password, f.role)
  {
    if f.email != "" && f.password != "" && f.role != "" then Some(RegisterCall(f.email, f.password, f.role)) else None
  }

  /** The sign-in button is disabled exactly when a click could not reach `login`. */
  function SignInDisabled(isLoading: bool, f: LoginFields): (d: bool)
    ensures d <==> isLoading || LoginRequest(f).None?
  {
    isLoading || f.email == "" || f.password == ""
  }

  /** The create-account button ignores the role: with a role chosen it is
      disabled exactly when a click could not reach `register`. */
  function CreateAccountDisabled(isLoading: bool, f: RegisterFields): (d: bool)
    ensures f.role != "" ==> (d <==> isLoading || RegisterRequest(f).None?)
    ensures f.role == "" && !isLoading && f.email != "" && f.password != "" ==> !d && RegisterRequest(f).None?
  {
    isLoading || f.email == "" || f.password == ""
  }

  /** For an enabled sign-in button the handler always builds the login
      call; the browser's own `type="email"` and `required` checks, which may
      block the submit first, are not modelled. For an enabled create-account
      button the handler builds the register call exactly when a role is
      chosen: the button does not look at the role, the handler does. */
  lemma EnabledButtonsCall(isLoading: bool, l: LoginFields, r: RegisterFields)
    ensures !SignInDisabled(isLoading, l) ==> LoginRequest(l).Some?
    ensures !CreateAccountDisabled(isLoading, r) ==> (RegisterRequest(r).Some? <==> r.role != "")
  {
  }

  class AuthForms {
    var loginForm: LoginFields
    var registerForm: RegisterFields

    constructor ()
      ensures loginForm == LoginFields("", "") && registerForm == RegisterFields("", "", "customer")
    {
      loginForm := LoginFields("", "");
      registerForm := RegisterFields("", "", "customer");
    }

    method SetLoginEmail(value: string)
      modifies this
      ensures loginForm == old(loginForm).(email := value) && registerForm == old(registerForm)
    {
      loginForm := loginForm.(email := value);
    }

    method SetLoginPassword(value: string)
      modifies this
      ensures loginForm == old(loginForm).(password := value) && registerForm == old(registerForm)
    {
      loginForm := loginForm.(password := value);
    }

    method SetRegisterEmail(value: string)
      modifies this
      ensures registerForm == old(registerForm).(email := value) && loginForm == old(loginForm)
    {
      registerForm := registerForm.(email := value);
    }

    method SetRegisterPassword(value: string)
      modifies this
      ensures registerForm == old(registerForm).(password := value) && loginForm == old(loginForm)
    {
      registerForm := registerForm.(password := value);
    }

    method SetRegisterRole(value: string)
      modifies this
      ensures registerForm == old(registerForm).(role := value) && loginForm == old(loginForm)
    {
      registerForm := registerForm.(role := value);
    }
  }
}
