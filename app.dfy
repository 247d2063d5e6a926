/**
 * The application shell: a second session manager of its own (restore and
 * logout over the stored token) and the route table with its guards.
 */
module AppShell {

  import opened Api
  import opened Auth

  /** What a route renders. `Blank` is an unmatched path, for which the
      router renders nothing. */
  datatype Page = LoadingScreen | LoginPage | DashboardPage | AdminPage | ResultsPage | Blank

  /** A route either renders a page or redirects to another path. */
  datatype View = Render(page: Page) | Redirect(to: string)

  /** The route table, consulted once loading is over; while loading only
      the spinner is shown. */
  function Route(loading: bool, path: string, user: Option<User>): View
  {
    if loading then Render(LoadingScreen)
    else if path == "/login" then (if user.Some? then Redirect("/dashboard") else Render(LoginPage))
    else if path == "/dashboard" then (if user.Some? then Render(DashboardPage) else Redirect("/login"))
    else if path == "/admin" then (if user.Some? && user.value.isAdmin then Render(AdminPage) else Redirect("/dashboard"))
    else if path == "/results" then Render(ResultsPage)
    else if path == "/" then Redirect(if user.Some? then "/dashboard" else "/login")
    else Render(Blank)
  }

  /** Follows at most `hops` redirects from `v`; None when more are needed. */
  function Follow(v: View, user: Option<User>, hops: nat): Option<Page>
    decreases hops
  {
    match v
    case Render(p) => Some(p)
    case Redirect(to) => if hops == 0 then None else Follow(Route(false, to, user), user, hops - 1)
  }

  /**
   * Where a visit to `path` lands once loading is over. At most two
   * redirects are ever followed, so every path lands on a page, and the
   * guards hold of the page it lands on: the administration panel only for
   * an administrator, the voter dashboard only for a signed-in user, the
   * login form only for an anonymous one.
   */
  function Land(path: string, user: Option<User>): (r: Option<Page>)
    ensures r.Some? && r != Some(LoadingScreen)
    ensures r == Some(AdminPage) ==> user.Some? && user.value.isAdmin
    ensures r == Some(DashboardPage) ==> user.Some?
    ensures r == Some(LoginPage) ==> user.None?
  {
    Follow(Route(false, path, user), user, 2)
  }

  /** Nothing is routed while loading: every path shows the spinner. */
  lemma NothingRoutedWhileLoading(path: string, user: Option<User>)
    ensures Route(true, path, user) == Render(LoadingScreen)
    ensures Follow(Route(true, path, user), user, 0) == Some(LoadingScreen)
  {
  }

  /** An anonymous visit to the administration panel is sent to the
      dashboard, which sends it on to the login form; a signed-in
      non-administrator lands on the dashboard. */
  lemma AdminRedirects(user: Option<User>)
    ensures user.None? ==> Route(false, "/admin", user) == Redirect("/dashboard")
    ensures user.None? ==> Route(false, "/dashboard", user) == Redirect("/login")
    ensures user.None? ==> Land("/admin", user) == Some(LoginPage)
    ensures user.Some? && !user.value.isAdmin ==> Land("/admin", user) == Some(DashboardPage)
    ensures user.Some? && user.value.isAdmin ==> Land("/admin", user) == Some(AdminPage)
  {
  }

  /** The results page is shown to everyone, and "/" leads to the dashboard
      or to the login form according to whether a user is signed in. */
  lemma UnguardedAndRoot(user: Option<User>)
    ensures Land("/results", user) == Some(ResultsPage)
    ensures Land("/", user) == Some(if user.Some? then DashboardPage else LoginPage)
    ensures Land("/login", user) == Some(if user.Some? then DashboardPage else LoginPage)
  {
  }

  class App {
    var storage: TokenStore
    var user: Option<User>
    var loading: bool

    constructor (storage: TokenStore)
      ensures this.storage == storage && user == None && loading
    {
      this.storage := storage;
      user := None;
      loading := true;
    }

    /**
     * The mount effect. A stored token is sent as the bearer credential of
     * the identity request (section 2.1 of RFC 6750); success sets the user
     * and failure removes the stored token, leaving the user unset. With no
     * stored token nothing is sent. Loading ends on every path.
     */
    method Restore(meReply: Reply<User>) returns (sent: seq<Request>)
      modifies this, storage
      ensures storage == old(storage) && !loading
      ensures !Present(old(storage.token)) ==> sent == [] && user == old(user) && storage.token == old(storage.token)
      ensures Present(old(storage.token)) ==> sent == [GetMe(old(storage.token))]
      ensures Present(old(storage.token)) && meReply.Ok? ==> user == Some(meReply.payload) && storage.token == old(storage.token)
      ensures Present(old(storage.token)) && meReply.Err? ==> user == old(user) && storage.token == None
    {
      var token := storage.token;
      sent := [];
      if Present(token) {
        sent := [GetMe(token)];
        if meReply.Ok? {
          user := Some(meReply.payload);
          loading := false;
        } else {
          storage.Remove();
          loading := false;
        }
      } else {
        loading := false;
      }
    }

    /** `handleLogout`: the stored token is removed and the user unset;
        the result does not depend on the state before, so a second call
        changes nothing. */
    method HandleLogout()
      modifies this, storage
      ensures storage == old(storage) && loading == old(loading)
      ensures storage.token == None && user == None
    {
      storage.Remove();
      user := None;
    }
  }
}
