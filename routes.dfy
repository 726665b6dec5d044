/**
 * The application's route table and the two guards that wrap some of its
 * pages: a protected route renders for any session, the admin route only
 * for an administrator's; both otherwise redirect to the login page.
 */
module Routes {
  import opened Common
  import Auth

  datatype Page =
    | HomePage | ProductsPage | CategoriesPage | LoginPage | SignupPage
    | ForgotPasswordPage | ProfilePage | CartPage | CheckoutPage | AdminPanel

  /** How a route guards its page. */
  datatype Guard = Open | Protected | AdminOnly

  datatype Route = Route(path: string, page: Page, guard: Guard)

  const RootPath := "/"
  const ProductsPath := "/products"
  const CategoriesPath := "/categories"
  const LoginPath := "/login"
  const SignupPath := "/signup"
  const ForgotPasswordPath := "/forgot-password"
  const ProfilePath := "/profile"
  const CartPath := "/cart"
  const CheckoutPath := "/checkout"
  const AdminPath := "/admin"

  /** The `<Routes>` of the application, in order. */
  const Table: seq<Route> := [
    Route(RootPath, HomePage, Open),
    Route(ProductsPath, ProductsPage, Open),
    Route(CategoriesPath, CategoriesPage, Open),
    Route(LoginPath, LoginPage, Open),
    Route(SignupPath, SignupPage, Open),
    Route(ForgotPasswordPath, ForgotPasswordPage, Open),
    Route(ProfilePath, ProfilePage, Protected),
    Route(CartPath, CartPage, Protected),
    Route(CheckoutPath, CheckoutPage, Protected),
    Route(AdminPath, AdminPanel, AdminOnly)
  ]

  /** What visiting a location shows. */
  datatype Visit = Renders(page: Page) | RedirectsTo(path: string) | NoMatch

  /** ASCII case folding: an upper-case letter becomes its lower-case form, anything else stays. */
  function LowerChar(c: char): char {
    if 'A' <= c <= 'Z' then (c as int + 32) as char else c
  }

  function Lower(s: string): string {
    seq(|s|, i requires 0 <= i < |s| => LowerChar(s[i]))
  }

  /** The path without its trailing slashes. */
  function StripSlashes(s: string): string {
    if s != [] && s[|s| - 1] == '/' then StripSlashes(s[..|s| - 1]) else s
  }

  /** Stripping keeps a prefix that does not end in a slash and drops only slashes. */
  lemma {:induction false} StripSlashesMeaning(s: string)
    ensures var r := StripSlashes(s);
      && |r| <= |s| && r == s[..|r|]
      && (r == [] || r[|r| - 1] != '/')
      && forall i :: |r| <= i < |s| ==> s[i] == '/'
  {
    if s != [] && s[|s| - 1] == '/' {
      var t := s[..|s| - 1];
      StripSlashesMeaning(t);
      var r := StripSlashes(t);
      assert forall i :: |r| <= i < |t| ==> s[i] == t[i];
      assert s[..|r|] == t[..|r|];
    }
  }

  /**
   * The form in which the router compares a location with a route's path:
   * without regard to ASCII case and ignoring trailing slashes, so that
   * `/CART` and `/cart/` match the route `/cart`.
   */
  function Canonical(path: string): string {
    StripSlashes(Lower(path))
  }

  /** Whether a location matches a route's path. */
  predicate Matches(routePath: string, path: string) {
    Canonical(routePath) == Canonical(path)
  }

  /** The first route of a table whose path has the canonical form `key`. */
  function Lookup(routes: seq<Route>, key: string): (r: Option<Route>)
    ensures r.None? <==> forall i :: 0 <= i < |routes| ==> Canonical(routes[i].path) != key
    ensures r.Some? ==> r.value in routes && Canonical(r.value.path) == key
    ensures r.Some? ==> exists i :: (0 <= i < |routes| && routes[i] == r.value
      && forall j :: 0 <= j < i ==> Canonical(routes[j].path) != key)
  {
    if routes == [] then None
    else if Canonical(routes[0].path) == key then Some(routes[0])
    else
      var r := Lookup(routes[1..], key);
      assert r.Some? ==> exists i :: (1 <= i < |routes| && routes[i] == r.value
        && forall j :: 0 <= j < i ==> Canonical(routes[j].path) != key) by {
        if r.Some? {
          var i :| (0 <= i < |routes| - 1 && routes[1..][i] == r.value
            && forall j :: 0 <= j < i ==> Canonical(routes[1..][j].path) != key);
          assert forall j :: 1 <= j < i + 1 ==> routes[j] == routes[1..][j - 1];
          assert routes[i + 1] == r.value;
        }
      }
      r
  }

  /** Whether a guard lets a session (None when logged out) through. */
  predicate Admits(guard: Guard, user: Option<Auth.SessionUser>) {
    match guard
    case Open => true
    case Protected => user.Some?
    case AdminOnly => user.Some? && user.value.role == Auth.Admin
  }

  /** `ProtectedRoute` and `AdminRoute` applied to a route's page. */
  function Guarded(route: Route, user: Option<Auth.SessionUser>): (v: Visit)
    ensures v == Renders(route.page) <==> Admits(route.guard, user)
    ensures !Admits(route.guard, user) ==> v == RedirectsTo(LoginPath)
  {
    if Admits(route.guard, user) then Renders(route.page) else RedirectsTo(LoginPath)
  }

  /** Visiting a path with the given session. */
  function VisitPath(path: string, user: Option<Auth.SessionUser>): Visit {
    match Lookup(Table, Canonical(path))
    case None => NoMatch
    case Some(route) => Guarded(route, user)
  }

  /** The page that ends up on screen, following a redirect. */
  function Lands(path: string, user: Option<Auth.SessionUser>): (r: Option<Page>) {
    match VisitPath(path, user)
    case Renders(page) => Some(page)
    case RedirectsTo(target) => if VisitPath(target, user).Renders? then Some(VisitPath(target, user).page) else None
    case NoMatch => None
  }

  /** A path in lower case without a trailing slash is its own canonical form. */
  lemma CanonicalPath(path: string)
    requires forall i :: 0 <= i < |path| ==> !('A' <= path[i] <= 'Z')
    requires path == [] || path[|path| - 1] != '/'
    ensures Canonical(path) == path
  {
    assert Lower(path) == path;
  }

  /** The canonical forms of the table's paths, in table order. */
  const CanonicalTable: seq<string> := ["", ProductsPath, CategoriesPath, LoginPath, SignupPath,
    ForgotPasswordPath, ProfilePath, CartPath, CheckoutPath, AdminPath]

  lemma TableCanonical(i: nat)
    requires i < |Table|
    ensures Canonical(Table[i].path) == CanonicalTable[i]
  {
    if i < 5 { BrowsingCanonical(i); } else { AccountCanonical(i); }
  }

  lemma BrowsingCanonical(i: nat)
    requires i < 5
    ensures Canonical(Table[i].path) == CanonicalTable[i]
  {
    if i == 0 {
      assert Lower(RootPath) == RootPath;
      assert StripSlashes(RootPath) == StripSlashes("");
    } else if i == 1 { CanonicalPath(ProductsPath);
    } else if i == 2 { CanonicalPath(CategoriesPath);
    } else if i == 3 { CanonicalPath(LoginPath);
    } else { CanonicalPath(SignupPath);
    }
  }

  lemma AccountCanonical(i: nat)
    requires 5 <= i < |Table|
    ensures Canonical(Table[i].path) == CanonicalTable[i]
  {
    if i == 5 { CanonicalPath(ForgotPasswordPath);
    } else if i == 6 { CanonicalPath(ProfilePath);
    } else if i == 7 { CanonicalPath(CartPath);
    } else if i == 8 { CanonicalPath(CheckoutPath);
    } else { CanonicalPath(AdminPath);
    }
  }

  lemma CanonicalTableDistinct()
    ensures forall j, k :: 0 <= j < k < |CanonicalTable| ==> CanonicalTable[j] != CanonicalTable[k]
  {
    assert CanonicalTable[1][1] != CanonicalTable[8][1];
    assert CanonicalTable[3][1] != CanonicalTable[9][1];
  }

  /** No two paths of the table match each other, so each route is the one found under any path it matches. */
  lemma {:induction false} TableLookup(i: nat, path: string)
    requires i < |Table| && Matches(Table[i].path, path)
    ensures Lookup(Table, Canonical(path)) == Some(Table[i])
  {
    CanonicalTableDistinct();
    forall j, k | 0 <= j < k < |Table| ensures Canonical(Table[j].path) != Canonical(Table[k].path) {
      TableCanonical(j);
      TableCanonical(k);
    }
    TableLookupFrom(Table, i, Canonical(path));
  }

  lemma {:induction false} TableLookupFrom(routes: seq<Route>, i: nat, key: string)
    requires i < |routes| && Canonical(routes[i].path) == key
    requires forall j, k :: 0 <= j < k < |routes| ==> Canonical(routes[j].path) != Canonical(routes[k].path)
    ensures Lookup(routes, key) == Some(routes[i])
  {
    if i > 0 {
      assert Canonical(routes[0].path) != key;
      assert routes[1..][i - 1] == routes[i];
      TableLookupFrom(routes[1..], i - 1, key);
    }
  }

  /** Every route of the table renders its page exactly when its guard admits the session, and otherwise goes to login. */
  lemma VisitRoute(i: nat, user: Option<Auth.SessionUser>)
    requires i < |Table|
    ensures VisitPath(Table[i].path, user) == Renders(Table[i].page) <==> Admits(Table[i].guard, user)
    ensures !Admits(Table[i].guard, user) ==> VisitPath(Table[i].path, user) == RedirectsTo(LoginPath)
  {
    TableLookup(i, Table[i].path);
  }

  /** Locations that differ only in ASCII case or trailing slashes are treated alike. */
  lemma SameCanonicalSameVisit(p: string, q: string, user: Option<Auth.SessionUser>)
    requires Canonical(p) == Canonical(q)
    ensures VisitPath(p, user) == VisitPath(q, user)
  {
  }

  /** `/CART/` in canonical form is the cart's path. */
  lemma CartVariantCanonical()
    ensures Canonical("/CART/") == CartPath
  {
    assert Lower("/CART/") == "/cart/" by {
      var l := Lower("/CART/");
      assert l[1] == 'c' && l[2] == 'a' && l[3] == 'r' && l[4] == 't';
    }
    assert StripSlashes("/cart/") == StripSlashes(CartPath);
    CanonicalPath(CartPath);
  }

  /** Logged out, `/CART/` is the cart route and so redirects to the login page. */
  lemma LoggedOutCartVariant()
    ensures VisitPath("/CART/", None) == RedirectsTo(LoginPath)
  {
    CartVariantCanonical();
    CanonicalPath(CartPath);
    SameCanonicalSameVisit("/CART/", CartPath, None);
    VisitTablePath(7, CartPath, None);
  }

  /** An administrator reaches every page of the table. */
  lemma AdminReachesEveryRoute(admin: Auth.SessionUser)
    requires admin.role == Auth.Admin
    ensures forall i :: 0 <= i < |Table| ==> VisitPath(Table[i].path, Some(admin)) == Renders(Table[i].page)
  {
    forall i | 0 <= i < |Table| ensures VisitPath(Table[i].path, Some(admin)) == Renders(Table[i].page) {
      VisitRoute(i, Some(admin));
    }
  }

  /** A path written out as it stands in the table visits that route's guarded page. */
  lemma VisitTablePath(i: nat, path: string, user: Option<Auth.SessionUser>)
    requires i < |Table| && path == Table[i].path
    ensures VisitPath(path, user) == Guarded(Table[i], user)
  {
    TableLookup(i, path);
  }

  /** The home, products and categories pages render for everyone. */
  lemma BrowsingRoutesOpen(user: Option<Auth.SessionUser>)
    ensures VisitPath(RootPath, user).Renders? && VisitPath(ProductsPath, user).Renders?
    ensures VisitPath(CategoriesPath, user).Renders?
  {
    VisitTablePath(0, RootPath, user);
    VisitTablePath(1, ProductsPath, user);
    VisitTablePath(2, CategoriesPath, user);
  }

  /** The login, signup and forgot-password pages render for everyone. */
  lemma AccountRoutesOpen(user: Option<Auth.SessionUser>)
    ensures VisitPath(LoginPath, user).Renders? && VisitPath(SignupPath, user).Renders?
    ensures VisitPath(ForgotPasswordPath, user).Renders?
  {
    VisitTablePath(3, LoginPath, user);
    VisitTablePath(4, SignupPath, user);
    VisitTablePath(5, ForgotPasswordPath, user);
  }

  /** Profile, cart and checkout render exactly for a session. */
  lemma SessionRoutesProtected(user: Option<Auth.SessionUser>)
    ensures VisitPath(ProfilePath, user).Renders? <==> user.Some?
    ensures VisitPath(CartPath, user).Renders? <==> user.Some?
    ensures VisitPath(CheckoutPath, user).Renders? <==> user.Some?
  {
    VisitTablePath(6, ProfilePath, user);
    VisitTablePath(7, CartPath, user);
    VisitTablePath(8, CheckoutPath, user);
  }

  /** The admin panel renders exactly for an administrator's session. */
  lemma AdminRouteRestricted(user: Option<Auth.SessionUser>)
    ensures VisitPath(AdminPath, user).Renders? <==> user.Some? && user.value.role == Auth.Admin
  {
    VisitTablePath(9, AdminPath, user);
  }

  /** The login page renders for everyone, so a redirect to it lands there. */
  lemma LoginRenders(user: Option<Auth.SessionUser>)
    ensures VisitPath(LoginPath, user) == Renders(LoginPage)
  {
    VisitTablePath(3, LoginPath, user);
  }

  /** Logged out, the cart lands on the login page. */
  lemma LoggedOutCartLandsOnLogin()
    ensures Lands(CartPath, None) == Some(LoginPage)
  {
    VisitTablePath(7, CartPath, None);
    LoginRenders(None);
  }

  /** Logged out, the admin panel lands on the login page. */
  lemma LoggedOutAdminLandsOnLogin()
    ensures Lands(AdminPath, None) == Some(LoginPage)
  {
    VisitTablePath(9, AdminPath, None);
    LoginRenders(None);
  }

  /** A logged-in customer is sent from the admin panel to the login page. */
  lemma UserRedirectedFromAdmin(user: Auth.SessionUser)
    requires user.role == Auth.User
    ensures VisitPath(AdminPath, Some(user)) == RedirectsTo(LoginPath)
    ensures Lands(AdminPath, Some(user)) == Some(LoginPage)
  {
    VisitTablePath(9, AdminPath, Some(user));
    LoginRenders(Some(user));
  }

  /** A location that matches no path of the table renders nothing. */
  lemma UnknownPath(path: string, user: Option<Auth.SessionUser>)
    requires forall i :: 0 <= i < |Table| ==> !Matches(Table[i].path, path)
    ensures VisitPath(path, user) == NoMatch
  {
  }

  /** For example `/unknown-page`. */
  lemma UnknownPage(user: Option<Auth.SessionUser>)
    ensures VisitPath("/unknown-page", user) == NoMatch
  {
    CanonicalPath("/unknown-page");
    forall i | 0 <= i < |Table| ensures !Matches(Table[i].path, "/unknown-page") {
      TableCanonical(i);
    }
  }
}
