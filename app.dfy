/** `App`: the shell around the pages. It renders the navigation bar for the active route,
    renders the page the route resolves to, and wires the logout link. The route resolver
    and the pages themselves are inputs: the resolver's answer is a parameter, and so is
    whether building or rendering the page throws. */
module App {
  import opened Wrappers
  import opened JsString
  import opened Entities
  import opened Browser

  const LandingRoute := "/landing"
  const SessionKeys := {TokenKey, UserIdKey, UserNameKey}

  /** What `renderNav()` returns: nothing on the landing page, otherwise a bar whose right
      side is the logout link or the Login / Register link. */
  datatype NavBar = NoNav | Nav(logoutLink: bool)

  /** `renderNav()` for the active route and the stored token. */
  function RenderNav(route: string, token: Option<string>): (n: NavBar)
    ensures n == NoNav <==> route == LandingRoute
    ensures n.Nav? ==> (n.logoutLink <==> token.Some? && token.value != "")
  {
    if route == LandingRoute then NoNav else Nav(Truthy(token))
  }

  /** The main content element. */
  datatype Content = Empty | PageShown(page: string) | ErrorPage

  /** How far building and rendering the resolved page gets. */
  datatype PageRun = Completes | ThrowsInConstructor | ThrowsInRender

  class App {
    const window: Window
    /** Whether the document has the `app-header` element. */
    const hasHeader: bool
    /** The navigation bar last written into the header, if any. */
    var header: Option<NavBar>
    /** Whether the header's logout link has its click listener. */
    var logoutListener: bool
    var content: Content

    constructor (window: Window, hasHeader: bool)
      ensures this.window == window && this.hasHeader == hasHeader
      ensures header == None && !logoutListener && content == Empty
    {
      this.window := window;
      this.hasHeader := hasHeader;
      header := None;
      logoutListener := false;
      content := Empty;
    }

    /** `renderPage()` for the active `route`; `resolved` is the page the resolver gives
        (`None` when it gives a falsy value) and `run` how far the page gets. */
    method RenderPage(route: string, resolved: Option<string>, run: PageRun)
      modifies this
      ensures resolved.None? ==>
        header == old(header) && logoutListener == old(logoutListener) && content == old(content)
      ensures resolved.Some? && run == ThrowsInConstructor ==>
        header == old(header) && logoutListener == old(logoutListener) && content == ErrorPage
      ensures resolved.Some? && run != ThrowsInConstructor && hasHeader ==>
        var nav := RenderNav(route, window.GetItem(TokenKey));
        header == Some(nav) && (logoutListener <==> nav == Nav(true))
      ensures resolved.Some? && run != ThrowsInConstructor && !hasHeader ==>
        header == old(header) && logoutListener == old(logoutListener)
      ensures resolved.Some? && run == Completes ==> content == PageShown(resolved.value)
      ensures resolved.Some? && run == ThrowsInRender ==> content == ErrorPage
    {
      if resolved.None? {
        return;
      }
      if run == ThrowsInConstructor {
        content := ErrorPage;
        return;
      }
      if hasHeader {
        var nav := RenderNav(route, window.GetItem(TokenKey));
        header := Some(nav);
        SetupNavListeners();
      }
      if run == ThrowsInRender {
        content := ErrorPage;
      } else {
        content := PageShown(resolved.value);
      }
    }

    /** `_setupNavListeners()`: the logout link gets its listener when the bar has one. */
    method SetupNavListeners()
      modifies this
      ensures logoutListener <==> header == Some(Nav(true))
      ensures header == old(header) && content == old(content)
    {
      logoutListener := header == Some(Nav(true));
    }

    /** The logout link's click listener: removes exactly the three session keys, then goes
        to the landing page. */
    method Logout()
      requires logoutListener
      modifies window
      ensures window.storage == old(window.storage) - SessionKeys
      ensures window.hash == "#/landing"
    {
      window.RemoveItem(TokenKey);
      window.RemoveItem(UserIdKey);
      window.RemoveItem(UserNameKey);
      window.Navigate("#/landing");
    }
  }

  /** Logging out forgets whatever a login stored: the storage after `_storeAuthData` and
      logout is the storage before the login with the session keys removed, and every
      other key keeps its value. */
  lemma LogoutForgetsSession(storage: map<string, string>, r: LoginResult)
    ensures storage[TokenKey := r.token][UserIdKey := r.userId][UserNameKey := r.name] - SessionKeys
         == storage - SessionKeys
    ensures forall k :: k in storage && k !in SessionKeys ==> k in storage - SessionKeys && (storage - SessionKeys)[k] == storage[k]
  {
    var signed := storage[TokenKey := r.token][UserIdKey := r.userId][UserNameKey := r.name];
    assert (signed - SessionKeys).Keys == (storage - SessionKeys).Keys;
  }

  /** After logout no token is stored, so every route but the landing page shows the
      Login / Register link again. */
  lemma NavAfterLogout(storage: map<string, string>, route: string)
    requires route != LandingRoute
    ensures var s := storage - SessionKeys;
      RenderNav(route, if TokenKey in s then Some(s[TokenKey]) else None) == Nav(false)
  {
  }
}
