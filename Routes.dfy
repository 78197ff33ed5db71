/**
 * The application's route table: what each path shows, given the session
 * flag read once when the application renders, and where the chain of
 * redirects ends.
 */
module Routes {
  import opened Wrappers
  import Session

  const RootPath := "/"
  const LoginPath := "/login"
  const AdminPath := "/admin"

  /** What a route renders: one of the two pages, or a redirect to another path. */
  datatype Element = LoginPage | AdminPage | NavigateTo(to: string)

  /** The route table, matched on the exact path; `*` catches everything else. */
  function RouteElement(path: string, isAdmin: bool): (e: Element)
    ensures path == RootPath ==> e == NavigateTo(LoginPath)
    ensures path == LoginPath ==> e == LoginPage
    ensures path == AdminPath ==> (e == AdminPage <==> isAdmin)
    ensures path == AdminPath && !isAdmin ==> e == NavigateTo(LoginPath)
    ensures path !in {RootPath, LoginPath, AdminPath} ==> e == NavigateTo(RootPath)
    ensures e == AdminPage ==> path == AdminPath && isAdmin
  {
    if path == RootPath then NavigateTo(LoginPath)
    else if path == LoginPath then LoginPage
    else if path == AdminPath then (if isAdmin then AdminPage else NavigateTo(LoginPath))
    else NavigateTo(RootPath)
  }

  /**
   * The route table with the flag decoded from a stored value: in the
   * application as written, the value read when `App` renders.
   */
  function RouteFromStorage(path: string, stored: Option<string>): (e: Element)
    ensures e == AdminPage <==> path == AdminPath && stored == Some(Session.TrueText)
  {
    RouteElement(path, Session.IsAdmin(stored))
  }

  /**
   * The application component. It reads the flag once, when it renders on
   * page load; a later `navigate` changes only the router's location, so the
   * `/admin` element keeps the value read then.
   */
  class App {
    const isAdmin: bool

    constructor (store: Session.Storage)
      ensures isAdmin == Session.StoredIsAdmin(store)
    {
      isAdmin := Session.StoredIsAdmin(store);
    }

    /** What the router renders for `path` in this rendering of the application. */
    function Element(path: string): (e: Element)
      ensures e == RouteElement(path, isAdmin)
      ensures path == AdminPath ==> (e == AdminPage <==> isAdmin)
    {
      RouteElement(path, isAdmin)
    }
  }

  /**
   * The intended route decision: the table consulted with the flag the store
   * holds when the route is matched, so a login or logout takes effect at once.
   */
  function CurrentElement(path: string, store: Session.Storage): (e: Element)
    reads store
    ensures e == AdminPage <==> path == AdminPath && Session.StoredIsAdmin(store)
    ensures path == AdminPath && !Session.StoredIsAdmin(store) ==> e == NavigateTo(LoginPath)
  {
    RouteFromStorage(path, store.GetItem(Session.IsAdminKey))
  }

  /**
   * The route table as written, with the flag read before a login: the store
   * says "true" after the login, yet `/admin` still redirects to `/login`.
   */
  lemma StaleFlagCounterexample()
    ensures Session.IsAdmin(Some(Session.TrueText))
    ensures RouteFromStorage(AdminPath, None) == NavigateTo(LoginPath)
    ensures RouteFromStorage(AdminPath, Some(Session.TrueText)) == AdminPage
  {
  }

  /** Where following at most `fuel` redirects from `path` ends. */
  datatype Landing = Landing(page: Element, path: string, redirects: nat)

  /** Follow redirects from `path`; `None` when `fuel` runs out before a page renders. */
  function Follow(path: string, isAdmin: bool, fuel: nat): (r: Option<Landing>)
    ensures r.Some? ==> !r.value.page.NavigateTo? && r.value.redirects <= fuel
    ensures r.Some? ==> RouteElement(r.value.path, isAdmin) == r.value.page
    decreases fuel
  {
    var e := RouteElement(path, isAdmin);
    if !e.NavigateTo? then Some(Landing(e, path, 0))
    else if fuel == 0 then None
    else
      match Follow(e.to, isAdmin, fuel - 1)
      case None => None
      case Some(l) => Some(l.(redirects := l.redirects + 1))
  }

  /**
   * Every path settles within two redirects. The admin page is reached only
   * from `/admin` with the flag set; every other start ends on the login page,
   * an unknown path after exactly two redirects (to `/`, then to `/login`).
   */
  lemma EveryPathSettles(path: string, isAdmin: bool)
    ensures Follow(path, isAdmin, 2).Some?
    ensures var l := Follow(path, isAdmin, 2).value;
      && (l.page == AdminPage <==> path == AdminPath && isAdmin)
      && (l.page != AdminPage ==> l.page == LoginPage && l.path == LoginPath)
      && (path !in {RootPath, LoginPath, AdminPath} ==> l.redirects == 2)
      && (path == RootPath ==> l.redirects == 1)
      && (path == LoginPath ==> l.redirects == 0)
  {
  }
}
