/**
 * `ProtectedRoute` (src/lib/protected-route.jsx) and the route table it sits in
 * (src/components/app-client.jsx). The guard's render choice and its redirect
 * effect are one value, computed from `(isLoading, user)`.
 */
module ProtectedRoute {
  import opened Wrappers
  import opened JsValues

  /** The page components of the route table. */
  datatype Page = Dashboard | Products | StockManagement | Coupons | Orders
                | Customers | StoreSettings | Categories | AuthPage | NotFound

  /** What the guard renders: the spinner, nothing (`null`), or the wrapped route. */
  datatype View = Spinner | Blank | Routed(page: Page)

  /** A render together with the `setLocation` call its effect makes, if any. */
  datatype GuardOutcome = GuardOutcome(view: View, redirect: Option<string>)

  /** The redirect target as written. */
  const RedirectTarget: string := "/"

  /** The target the redirect evidently means: the login page. */
  const CorrectedRedirectTarget: string := "/auth"

  /** The guard for `component`, redirecting anonymous visitors to `target`. */
  function Guard(target: string, page: Page, isLoading: bool, user: JsValue): (g: GuardOutcome)
    ensures g.view == Spinner <==> isLoading
    ensures g.view == Blank <==> !isLoading && !Truthy(user)
    ensures g.view.Routed? <==> !isLoading && Truthy(user)
    ensures g.view.Routed? ==> g.view.page == page
    ensures g.redirect.Some? <==> g.view == Blank
    ensures g.redirect.Some? ==> g.redirect.value == target
  {
    if isLoading then GuardOutcome(Spinner, None)
    else if !Truthy(user) then GuardOutcome(Blank, Some(target))
    else GuardOutcome(Routed(page), None)
  }

  /** One child of the `Switch`. */
  datatype RouteEntry = Guarded(path: string, page: Page) | Open(path: string, page: Page) | CatchAll(page: Page)

  /** The `Switch` of `Router()`, in order. */
  const AppRoutes: seq<RouteEntry> := [
    Guarded("/", Dashboard),
    Guarded("/products", Products),
    Guarded("/stock", StockManagement),
    Guarded("/coupons", Coupons),
    Guarded("/orders", Orders),
    Guarded("/customers", Customers),
    Guarded("/settings", StoreSettings),
    Guarded("/categories", Categories),
    Open("/auth", AuthPage),
    CatchAll(NotFound)
  ]

  predicate Matches(e: RouteEntry, location: string) {
    match e
    case Guarded(p, _) => p == location
    case Open(p, _) => p == location
    case CatchAll(_) => true
  }

  /** `routes[i]` matches `location` and no earlier child does. */
  predicate FirstMatchAt(routes: seq<RouteEntry>, location: string, i: int) {
    0 <= i < |routes| && Matches(routes[i], location) && forall j :: 0 <= j < i ==> !Matches(routes[j], location)
  }

  /** The first child of the `Switch` that matches; a table without a catch-all falls back to `NotFound`. */
  function SelectRoute(routes: seq<RouteEntry>, location: string): (e: RouteEntry)
    ensures Matches(e, location)
    ensures e in routes || (e == CatchAll(NotFound) && forall r :: r in routes ==> !Matches(r, location))
    ensures e in routes ==> exists i :: FirstMatchAt(routes, location, i) && routes[i] == e
    decreases |routes|
  {
    if routes == [] then CatchAll(NotFound)
    else if Matches(routes[0], location) then
      assert FirstMatchAt(routes, location, 0);
      routes[0]
    else
      var e := SelectRoute(routes[1..], location);
      if e in routes[1..] then
        var i :| FirstMatchAt(routes[1..], location, i) && routes[1..][i] == e;
        assert FirstMatchAt(routes, location, i + 1);
        e
      else
        e
  }

  /** What the application shows at `location`, with anonymous visitors sent to `target`. */
  function Screen(routes: seq<RouteEntry>, target: string, location: string, isLoading: bool, user: JsValue): (o: GuardOutcome)
    ensures o.redirect.Some? <==> SelectRoute(routes, location).Guarded? && !isLoading && !Truthy(user)
    ensures o.redirect.Some? ==> o == GuardOutcome(Blank, Some(target))
    ensures o.view == Spinner <==> SelectRoute(routes, location).Guarded? && isLoading
  {
    match SelectRoute(routes, location)
    case Guarded(_, page) => Guard(target, page, isLoading, user)
    case Open(_, page) => GuardOutcome(Routed(page), None)
    case CatchAll(page) => GuardOutcome(Routed(page), None)
  }

  /** The location reached after following at most `steps` redirects. */
  function Follow(routes: seq<RouteEntry>, target: string, location: string, isLoading: bool, user: JsValue, steps: nat): (r: string)
    ensures r == location || r == target
    decreases steps
  {
    if steps == 0 then location
    else
      var o := Screen(routes, target, location, isLoading, user);
      if o.redirect.Some? then Follow(routes, target, o.redirect.value, isLoading, user, steps - 1) else location
  }

  /** The guard's own target is a guarded path. */
  lemma RootIsGuarded()
    ensures SelectRoute(AppRoutes, RedirectTarget) == Guarded("/", Dashboard)
  {
  }

  /** The login page is an open path. */
  lemma AuthIsOpen()
    ensures SelectRoute(AppRoutes, CorrectedRedirectTarget) == Open("/auth", AuthPage)
  {
    assert AppRoutes[8..] == [Open("/auth", AuthPage), CatchAll(NotFound)];
    assert SelectRoute(AppRoutes, "/auth") == SelectRoute(AppRoutes[8..], "/auth");
  }

  /** On a guarded path an anonymous visitor gets a blank screen and one redirect to `target`. */
  lemma AnonymousOnGuarded(routes: seq<RouteEntry>, target: string, location: string, user: JsValue)
    requires !Truthy(user) && SelectRoute(routes, location).Guarded?
    ensures Screen(routes, target, location, false, user) == GuardOutcome(Blank, Some(target))
  {
  }

  /** Redirects are followed one at a time. */
  lemma FollowRedirect(routes: seq<RouteEntry>, target: string, location: string, user: JsValue, steps: nat)
    requires !Truthy(user) && SelectRoute(routes, location).Guarded?
    requires steps >= 1
    ensures Follow(routes, target, location, false, user, steps) == Follow(routes, target, target, false, user, steps - 1)
  {
    AnonymousOnGuarded(routes, target, location, user);
  }

  /** A target that is itself guarded traps an anonymous visitor there. */
  lemma {:induction false} GuardedTargetTraps(routes: seq<RouteEntry>, target: string, location: string, user: JsValue, steps: nat)
    requires !Truthy(user)
    requires SelectRoute(routes, location).Guarded? && SelectRoute(routes, target).Guarded?
    requires steps >= 1
    ensures Follow(routes, target, location, false, user, steps) == target
    decreases steps
  {
    FollowRedirect(routes, target, location, user, steps);
    if steps > 1 {
      GuardedTargetTraps(routes, target, target, user, steps - 1);
    }
  }

  /**
   * As written, an anonymous visitor to any guarded page is sent to "/", which
   * is guarded too: however many redirects follow, the screen stays blank and
   * the login page is never shown.
   */
  lemma AnonymousVisitorIsStuck(location: string, user: JsValue, steps: nat)
    requires !Truthy(user) && SelectRoute(AppRoutes, location).Guarded?
    requires steps >= 1
    ensures Follow(AppRoutes, RedirectTarget, location, false, user, steps) == RedirectTarget
    ensures Screen(AppRoutes, RedirectTarget, RedirectTarget, false, user) == GuardOutcome(Blank, Some(RedirectTarget))
  {
    RootIsGuarded();
    GuardedTargetTraps(AppRoutes, RedirectTarget, location, user, steps);
    AnonymousOnGuarded(AppRoutes, RedirectTarget, RedirectTarget, user);
  }

  /** With the corrected target, one redirect brings an anonymous visitor to the login page, which stays put. */
  lemma CorrectedGuardReachesLogin(location: string, user: JsValue, steps: nat)
    requires !Truthy(user) && SelectRoute(AppRoutes, location).Guarded?
    requires steps >= 1
    ensures Follow(AppRoutes, CorrectedRedirectTarget, location, false, user, steps) == CorrectedRedirectTarget
    ensures Screen(AppRoutes, CorrectedRedirectTarget, CorrectedRedirectTarget, false, user)
              == GuardOutcome(Routed(AuthPage), None)
  {
    AuthIsOpen();
    FollowRedirect(AppRoutes, CorrectedRedirectTarget, location, user, steps);
  }

  /** A signed-in user sees the guarded page itself, whichever target is used. */
  lemma SignedInSeesPage(routes: seq<RouteEntry>, target: string, location: string, user: JsValue)
    requires Truthy(user) && SelectRoute(routes, location).Guarded?
    ensures Screen(routes, target, location, false, user) == GuardOutcome(Routed(SelectRoute(routes, location).page), None)
    ensures Follow(routes, target, location, false, user, 1) == location
  {
  }
}
