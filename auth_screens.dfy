/** The sign-in and sign-up screens (Login.jsx, Register.jsx): where an
    authenticated user is sent, the ordered sign-up validator, and the
    submit handlers around the session provider's `login` and `register`.
    The server's answer to the auth call is the parameter `response`. */
module AuthScreens {
  import opened Wrappers
  import opened Helpers
  import opened AuthContext

  // ---- Login ----

  /** `location.state?.from?.pathname || (user?.role === 'ADMIN' ? '/dashboard'
      : '/employee-dashboard')`; an empty path counts as absent. */
  function LoginTarget(fromPath: Option<string>, user: Option<UserInfo>): (r: string)
    ensures fromPath.Some? && fromPath.value != "" ==> r == fromPath.value
    ensures (fromPath.None? || fromPath.value == "") && user.Some? && user.value.role == "ADMIN" ==> r == "/dashboard"
    ensures (fromPath.None? || fromPath.value == "") && !(user.Some? && user.value.role == "ADMIN") ==> r == "/employee-dashboard"
  {
    if fromPath.Some? && fromPath.value != "" then fromPath.value
    else if user.Some? && user.value.role == "ADMIN" then "/dashboard"
    else "/employee-dashboard"
  }

  /** An authenticated visitor is redirected instead of shown the form. */
  function LoginRedirect(state: AuthState, fromPath: Option<string>): (r: Option<string>)
    ensures r.Some? <==> state.isAuthenticated
    ensures r.Some? ==> r.value == LoginTarget(fromPath, state.user)
  {
    if state.isAuthenticated then Some(LoginTarget(fromPath, state.user)) else None
  }

  datatype Credentials = Credentials(username: string, password: string)

  class LoginScreen {
    const auth: AuthProvider
    const fromPath: Option<string>
    var form: Credentials
    var error: string
    var loading: bool

    constructor (auth: AuthProvider, fromPath: Option<string>)
      ensures this.auth == auth && this.fromPath == fromPath
      ensures form == Credentials("", "") && error == "" && !loading
    {
      this.auth := auth;
      this.fromPath := fromPath;
      form := Credentials("", "");
      error := "";
      loading := false;
    }

    /** `handleSubmit`: clear the error, raise the busy flag, log in, show
        the error on failure, and always lower the flag. A successful login
        authenticates the session, so the next render redirects to the
        requested page or to the role's dashboard. */
    method HandleSubmit(response: Result<AuthResponse, RequestError>)
      modifies this, auth
      ensures !loading && form == old(form)
      ensures response.Ok? ==>
        error == "" && auth.state.isAuthenticated
        && auth.state.user == Some(ResponseUser(response.value))
        && auth.state.token == response.value.accessToken && auth.storedToken == response.value.accessToken
        && auth.storedUser == Some(UserJson(ResponseUser(response.value)))
        && LoginRedirect(auth.state, fromPath) == Some(LoginTarget(fromPath, Some(ResponseUser(response.value))))
      ensures response.Failure? ==>
        error == GetErrorMessage(response.error) && auth.state == old(auth.state).(loading := false)
        && auth.storedToken == old(auth.storedToken) && auth.storedUser == old(auth.storedUser)
    {
      error := "";
      loading := true;
      var result := auth.Login(response);
      if result.Failure? {
        error := GetErrorMessage(result.error);
      }
      loading := false;
    }
  }

  // ---- Register ----

  datatype RegisterFormData = RegisterFormData(username: string, email: string, password: string, confirmPassword: string)

  /** The body sent to `register`: the form without `confirmPassword`. */
  datatype RegisterData = RegisterData(username: string, email: string, password: string)

  function RegisterPayload(form: RegisterFormData): (r: RegisterData)
    ensures r.username == form.username && r.email == form.email && r.password == form.password
  {
    RegisterData(form.username, form.email, form.password)
  }

  /** `validateForm` of the sign-up screen. */
  function ValidateRegistration(form: RegisterFormData): Option<string>
  {
    if |form.username| < 3 then Some("Username must be at least 3 characters long")
    else if !ValidateEmail(form.email) then Some("Please enter a valid email address")
    else if |form.password| < 6 then Some("Password must be at least 6 characters long")
    else if form.password != form.confirmPassword then Some("Passwords do not match")
    else None
  }

  predicate RegistrationValid(form: RegisterFormData)
  {
    |form.username| >= 3 && EmailPattern(form.email) && |form.password| >= 6 && form.password == form.confirmPassword
  }

  /** The validator accepts exactly the forms with a long enough username, an
      address matching `^[^\s@]+@[^\s@]+\.[^\s@]+$`, a long enough password
      and a matching confirmation. */
  lemma ValidateRegistrationAcceptsExactlyValid(form: RegisterFormData)
    ensures ValidateRegistration(form).None? <==> RegistrationValid(form)
  {
    ValidateEmailMatchesPattern(form.email);
  }

  /** Only the first failing check's message is shown, in declaration order. */
  lemma ValidateRegistrationOrder(form: RegisterFormData)
    ensures |form.username| < 3 ==> ValidateRegistration(form) == Some("Username must be at least 3 characters long")
    ensures |form.username| >= 3 && !EmailPattern(form.email) ==>
      ValidateRegistration(form) == Some("Please enter a valid email address")
    ensures |form.username| >= 3 && EmailPattern(form.email) && |form.password| < 6 ==>
      ValidateRegistration(form) == Some("Password must be at least 6 characters long")
    ensures |form.username| >= 3 && EmailPattern(form.email) && |form.password| >= 6 && form.password != form.confirmPassword ==>
      ValidateRegistration(form) == Some("Passwords do not match")
  {
    ValidateEmailMatchesPattern(form.email);
  }

  /** An authenticated visitor of the sign-up page goes to the employee
      dashboard, whatever the role. */
  function RegisterRedirect(state: AuthState): (r: Option<string>)
    ensures r.Some? <==> state.isAuthenticated
    ensures r.Some? ==> r.value == "/employee-dashboard"
  {
    if state.isAuthenticated then Some("/employee-dashboard") else None
  }

  class RegisterScreen {
    const auth: AuthProvider
    var form: RegisterFormData
    var error: string
    var loading: bool

    constructor (auth: AuthProvider)
      ensures this.auth == auth && form == RegisterFormData("", "", "", "") && error == "" && !loading
    {
      this.auth := auth;
      form := RegisterFormData("", "", "", "");
      error := "";
      loading := false;
    }

    /** `handleSubmit`: a form that fails validation shows the message and
        calls nothing; a valid one calls `register` with the payload. */
    method HandleSubmit(response: Result<AuthResponse, RequestError>) returns (sent: Option<RegisterData>)
      modifies this, auth
      ensures form == old(form)
      ensures !RegistrationValid(form) ==>
        sent.None? && Some(error) == ValidateRegistration(form) && loading == old(loading)
        && auth.state == old(auth.state) && auth.storedToken == old(auth.storedToken) && auth.storedUser == old(auth.storedUser)
      ensures RegistrationValid(form) ==> sent == Some(RegisterPayload(form)) && !loading
      ensures RegistrationValid(form) && response.Ok? ==>
        error == "" && auth.state.isAuthenticated && auth.state.user == Some(ResponseUser(response.value))
        && auth.state.token == response.value.accessToken && auth.storedToken == response.value.accessToken
        && auth.storedUser == Some(UserJson(ResponseUser(response.value)))
      ensures RegistrationValid(form) && response.Failure? ==>
        error == GetErrorMessage(response.error) && auth.state == old(auth.state).(loading := false)
        && auth.storedToken == old(auth.storedToken) && auth.storedUser == old(auth.storedUser)
    {
      error := "";
      ValidateRegistrationAcceptsExactlyValid(form);
      var validation := ValidateRegistration(form);
      if validation.Some? {
        error := validation.value;
        return None;
      }
      loading := true;
      sent := Some(RegisterPayload(form));
      var result := auth.Register(response);
      if result.Failure? {
        error := GetErrorMessage(result.error);
      }
      loading := false;
    }
  }
}
