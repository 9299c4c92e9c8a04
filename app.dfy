/** The route table and the guard in front of the authenticated pages. */
module App {
  import opened Types
  import AuthContext

  const LoginPath: string := "/login"
  const RegisterPath: string := "/register"
  const HomePath: string := "/"
  const OrderPrefix: string := "/order/"

  /** What ProtectedRoute renders. */
  datatype GuardView = GuardSpinner | RedirectTo(path: string) | ShowChildren

  /** ProtectedRoute: the spinner while the session is loading, whatever the
      authentication state; then the children only for an authenticated
      session, and a redirect to the login page otherwise. */
  function Guard(loading: bool, isAuthenticated: bool): (r: GuardView)
    ensures loading ==> r == GuardSpinner
    ensures !loading && !isAuthenticated ==> r == RedirectTo(LoginPath)
    ensures !loading && isAuthenticated ==> r == ShowChildren
  {
    if loading then GuardSpinner
    else if !isAuthenticated then RedirectTo(LoginPath)
    else ShowChildren
  }

  datatype Page = LoginPage | RegisterPage | DashboardPage | OrderDetailsPage(id: string)

  /** What a route's element is: a page, a page behind the guard, or a redirect. */
  datatype Element = Public(page: Page) | Protected(page: Page) | Redirect(to: string)

  /** The `:id` of "/order/:id": one non-empty segment after the prefix. */
  function OrderId(path: string): (r: Option<string>)
    ensures r.Some? ==> path == OrderPrefix + r.value && r.value != [] && '/' !in r.value
  {
    if |path| > |OrderPrefix| && path[..|OrderPrefix|] == OrderPrefix && '/' !in path[|OrderPrefix|..] then
      assert path == path[..|OrderPrefix|] + path[|OrderPrefix|..];
      Some(path[|OrderPrefix|..])
    else None
  }

  /** Every path of the form "/order/<id>" is recognised, with its id. */
  lemma OrderIdOfOrderPath(id: string)
    requires id != [] && '/' !in id
    ensures OrderId(OrderPrefix + id) == Some(id)
  {
    var p := OrderPrefix + id;
    assert p[..|OrderPrefix|] == OrderPrefix;
    assert p[|OrderPrefix|..] == id;
  }

  /** The route table. Its patterns never match the same path, so the router's
      ranking by specificity does not matter here; anything unmatched goes home. */
  function Route(path: string): (r: Element)
    ensures r.Public? ==> (r.page == LoginPage <==> path == LoginPath)
    ensures r.Protected? ==> r.page.DashboardPage? || r.page.OrderDetailsPage?
  {
    if path == LoginPath then Public(LoginPage)
    else if path == RegisterPath then Public(RegisterPage)
    else if path == HomePath then Protected(DashboardPage)
    else if OrderId(path).Some? then Protected(OrderDetailsPage(OrderId(path).value))
    else Redirect(HomePath)
  }

  /** The table's shape, path by path: "/login" and "/register" are exactly
      the public paths, "/" and "/order/:id" exactly the guarded ones, and every
      other path redirects to "/". */
  lemma RouteKinds(path: string)
    ensures Route(path).Public? <==> path == LoginPath || path == RegisterPath
    ensures Route(path).Protected? <==> path == HomePath || OrderId(path).Some?
    ensures Route(path).Redirect? <==> path != LoginPath && path != RegisterPath && path != HomePath && OrderId(path).None?
    ensures Route(path).Redirect? ==> Route(path).to == HomePath
  {
    if OrderId(path).Some? {
      assert path[1] == 'o';
    }
  }

  /** The four routes and their pages. */
  lemma RouteTable(id: string)
    requires id != [] && '/' !in id
    ensures Route(LoginPath) == Public(LoginPage) && Route(RegisterPath) == Public(RegisterPage)
    ensures Route(HomePath) == Protected(DashboardPage)
    ensures Route(OrderPrefix + id) == Protected(OrderDetailsPage(id))
  {
    OrderIdOfOrderPath(id);
    var p := OrderPrefix + id;
    assert p[1] == 'o';
    assert p != LoginPath && p != RegisterPath && p != HomePath;
  }

  /** The screen for a path under a given session state. */
  datatype Screen = Spinner | Navigate(to: string) | Show(page: Page)

  /** A guarded path waits for the session, then shows its page to an
      authenticated user and sends anyone else to the login page. The login and
      register pages show whatever the session, and every other path goes home. */
  function Resolve(path: string, loading: bool, isAuthenticated: bool): (r: Screen)
    ensures r.Show? && r.page.DashboardPage? ==> !loading && isAuthenticated
    ensures r.Show? && r.page.OrderDetailsPage? ==> !loading && isAuthenticated
    ensures Route(path).Protected? && loading ==> r == Spinner
    ensures Route(path).Protected? && !loading && isAuthenticated ==> r == Show(Route(path).page)
    ensures Route(path).Protected? && !loading && !isAuthenticated ==> r == Navigate(LoginPath)
    ensures path == LoginPath ==> r == Show(LoginPage)
    ensures path == RegisterPath ==> r == Show(RegisterPage)
    ensures Route(path).Redirect? ==> r == Navigate(HomePath)
    ensures r.Spinner? ==> Route(path).Protected? && loading
  {
    match Route(path)
    case Public(p) => Show(p)
    case Redirect(to) => Navigate(to)
    case Protected(p) =>
      match Guard(loading, isAuthenticated)
      case GuardSpinner => Spinner
      case RedirectTo(to) => Navigate(to)
      case ShowChildren => Show(p)
  }

  /** Logout sends every guarded path to the login page once the session has
      settled, even though the token cookie is still there. */
  lemma LogoutLocksProtectedPages(st: AuthContext.AuthState, path: string)
    requires !st.loading && Route(path).Protected?
    ensures Resolve(path, AuthContext.AfterLogout(st).loading, AuthContext.IsAuthenticated(AuthContext.AfterLogout(st)))
      == Navigate(LoginPath)
    ensures AuthContext.AfterLogout(st).cookies == st.cookies
  {
  }

  /** On a fresh load the guarded pages show the spinner until bootstrap settles,
      then the page or the login redirect according to its outcome. */
  lemma BootstrapDecidesProtectedPages(cookies: map<string, AuthContext.Cookie>, storage: map<string, string>,
                                       verify: Outcome<User>, path: string)
    requires Route(path).Protected?
    ensures var st := AuthContext.Initial(cookies, storage);
      Resolve(path, st.loading, AuthContext.IsAuthenticated(st)) == Spinner
    ensures var st := AuthContext.AfterBootstrap(AuthContext.Initial(cookies, storage), verify);
      Resolve(path, st.loading, AuthContext.IsAuthenticated(st)) ==
        (if AuthContext.StoredToken(AuthContext.Initial(cookies, storage)).Some? && verify.Success?
         then Show(Route(path).page) else Navigate(LoginPath))
  {
  }
}
