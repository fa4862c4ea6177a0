/**
 * The login and registration page (src/pages/auth-page.jsx): the redirect
 * of a signed-in visitor, and the outcomes of the two forms.
 */
module AuthPage {
  import opened Wrappers
  import opened JsValues
  import opened QueryClient
  import opened Auth
  import ProtectedRoute

  /** Where the page sends a visitor once signed in or registered. */
  const Home: string := "/"

  /** A render of the page: either the forms, or nothing with a redirect home. */
  datatype Render = RedirectHome | ShowForms

  function RenderPage(user: JsValue): (r: Render)
    ensures r == RedirectHome <==> Truthy(user)
  {
    if Truthy(user) then RedirectHome else ShowForms
  }

  const LoginFallback: string := "Login failed. Please check your credentials."

  /** `handleLogin`: navigate home when the login settles successfully, else alert. */
  method HandleLogin(auth: AuthProvider, loginData: JsValue, fetched: Fetched)
    returns (navigateTo: Option<string>, alert: Option<string>)
    modifies auth, auth.store
    ensures HandlerSettlement(fetched, "data").Resolved? ==> navigateTo == Some(Home) && alert.None?
    ensures HandlerSettlement(fetched, "data").Rejected? ==> navigateTo.None?
    ensures HandlerSettlement(fetched, "data").Rejected? ==>
              alert == Some(if HandlerSettlement(fetched, "data").message != ""
                            then HandlerSettlement(fetched, "data").message else LoginFallback)
    ensures HandlerSettlement(fetched, "data").Rejected? ==> auth.store.token == None && auth.user == old(auth.user)
  {
    var req, outcome := auth.Login(loginData, fetched);
    if outcome.Resolved? {
      navigateTo := Some(Home);
      alert := None;
    } else {
      navigateTo := None;
      alert := Some(if outcome.message != "" then outcome.message else LoginFallback);
    }
  }

  /** The three fields of the registration form. */
  datatype RegisterForm = RegisterForm(username: string, password: string, confirmPassword: string)

  /** The body posted to create the account. */
  datatype RegisterPayload = RegisterPayload(username: string, password: string, role: string)

  const CreateUserUrl: string := "http://localhost:3000/api/users/create"

  /** The outcome of `handleRegister`, given whether the server accepts the post. */
  datatype RegisterOutcome = RegisterOutcome(post: Option<RegisterPayload>, navigateTo: Option<string>, alert: Option<string>)

  /**
   * `handleRegister`: a password mismatch alerts and posts nothing; otherwise
   * it posts an admin account to `CreateUserUrl` directly, without the auth
   * provider, and navigates home on success.
   */
  function HandleRegister(form: RegisterForm, serverAccepts: bool): (o: RegisterOutcome)
    ensures form.password != form.confirmPassword ==>
              o == RegisterOutcome(None, None, Some("Passwords do not match!"))
    ensures form.password == form.confirmPassword ==>
              o.post == Some(RegisterPayload(form.username, form.password, "admin"))
    ensures form.password == form.confirmPassword && serverAccepts ==> o.navigateTo == Some(Home) && o.alert.None?
    ensures form.password == form.confirmPassword && !serverAccepts ==>
              o.navigateTo.None? && o.alert == Some("Registration failed. Please try again.")
  {
    if form.password != form.confirmPassword then RegisterOutcome(None, None, Some("Passwords do not match!"))
    else
      var post := Some(RegisterPayload(form.username, form.password, "admin"));
      if serverAccepts then RegisterOutcome(post, Some(Home), None)
      else RegisterOutcome(post, None, Some("Registration failed. Please try again."))
  }

  /**
   * Registration leaves the session anonymous, so the home page it navigates
   * to shows the blank guard and sends the visitor on to "/" again.
   */
  lemma RegisteredVisitorLandsOnBlankPage(user: JsValue)
    requires !Truthy(user)
    ensures ProtectedRoute.Screen(ProtectedRoute.AppRoutes, ProtectedRoute.RedirectTarget, Home, false, user)
              == ProtectedRoute.GuardOutcome(ProtectedRoute.Blank, Some(ProtectedRoute.RedirectTarget))
  {
    ProtectedRoute.RootIsGuarded();
    ProtectedRoute.AnonymousOnGuarded(ProtectedRoute.AppRoutes, ProtectedRoute.RedirectTarget, Home, user);
  }
}
