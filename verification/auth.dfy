/** The session flag of `AuthService` and the route guard `AuthGuard`
    (frontend/src/app/auth.service.ts, frontend/src/app/auth/auth-guard.ts):
    an in-memory flag next to a string kept in `localStorage`, and the
    decision the guard derives from them. */
module Auth {
  import opened Wrappers
  import opened LocalStore
  import StockService

  /** Storage key of the login flag. */
  const LoggedInKey: string := "isLoggedIn"

  /** Storage key of the token. */
  const TokenKey: string := "token"

  /** Route the guard redirects to. */
  const LoginRoute: string := "/login"

  /** The service's private flag and the browser storage it shares with the
      rest of the application. A new page load starts with the flag `false`
      and the storage as it was. */
  datatype Session = Session(isLoggedIn: bool, store: Store)

  /** JavaScript `String(b)` of a boolean. */
  function BoolText(b: bool): (r: string)
    ensures r == "true" <==> b
    ensures r == "true" || r == "false"
  {
    if b then "true" else "false"
  }

  /** `isAuthenticated()`: the flag is set, or the stored flag reads exactly
      `"true"`. */
  predicate IsAuthenticated(s: Session) {
    s.isLoggedIn || GetItem(s.store, LoggedInKey) == Some("true")
  }

  /** `getToken()`: the stored token, or `null`. */
  function GetToken(s: Session): (r: Option<string>)
    ensures r.None? <==> TokenKey !in s.store
    ensures r.Some? ==> r.value == s.store[TokenKey]
  {
    GetItem(s.store, TokenKey)
  }

  /** `setLoginStatus(status)`: sets the flag and stores its text; no other
      stored key changes. */
  function SetLoginStatus(s: Session, status: bool): (r: Session)
    ensures r.isLoggedIn == status
    ensures GetItem(r.store, LoggedInKey) == Some(if status then "true" else "false")
    ensures forall k :: k != LoggedInKey ==> GetItem(r.store, k) == GetItem(s.store, k)
  {
    Session(status, SetItem(s.store, LoggedInKey, BoolText(status)))
  }

  /** `logout()`: clears the flag and removes the stored flag; no other stored
      key changes. */
  function Logout(s: Session): (r: Session)
    ensures !r.isLoggedIn && GetItem(r.store, LoggedInKey).None?
    ensures forall k :: k != LoggedInKey ==> GetItem(r.store, k) == GetItem(s.store, k)
  {
    Session(false, RemoveItem(s.store, LoggedInKey))
  }

  /** After `setLoginStatus(true)` the user is authenticated, also after a
      reload. */
  lemma LoginAuthenticates(s: Session)
    ensures IsAuthenticated(SetLoginStatus(s, true))
    ensures IsAuthenticated(Session(false, SetLoginStatus(s, true).store))
  {
  }

  /** After `setLoginStatus(false)` the stored flag reads `"false"` and the
      user is not authenticated, whatever came before. */
  lemma FalseStatusSignsOut(s: Session)
    ensures GetItem(SetLoginStatus(s, false).store, LoggedInKey) == Some("false")
    ensures !IsAuthenticated(SetLoginStatus(s, false))
  {
  }

  /** After `logout()` the user is not authenticated, whatever came before,
      and the token is still there. */
  lemma LogoutSignsOut(s: Session)
    ensures !IsAuthenticated(Logout(s))
    ensures GetToken(Logout(s)) == GetToken(s)
  {
  }

  /** Where the guard sends the user: route commands and the `returnUrl`
      query parameter. */
  datatype Navigation = Navigation(commands: seq<string>, returnUrl: string)

  /** What `canActivate` returns, with the navigation it started, if any. */
  datatype GuardDecision = GuardDecision(allow: bool, navigation: Option<Navigation>)

  /** `canActivate(route, state)` for a requested `state.url`: allow an
      authenticated user without navigating; otherwise refuse and send the
      user to the login route, remembering the requested URL. */
  function CanActivate(s: Session, url: string): (r: GuardDecision)
    ensures r.allow <==> IsAuthenticated(s)
    ensures r.allow ==> r.navigation.None?
    ensures !r.allow ==> r.navigation == Some(Navigation([LoginRoute], url))
  {
    if IsAuthenticated(s) then GuardDecision(true, None)
    else GuardDecision(false, Some(Navigation([LoginRoute], url)))
  }

  /** Logging out closes every guarded route, redirecting back to it after
      the next login; logging in opens them. */
  lemma GuardFollowsSession(s: Session, url: string)
    ensures CanActivate(Logout(s), url) == GuardDecision(false, Some(Navigation([LoginRoute], url)))
    ensures CanActivate(SetLoginStatus(s, true), url) == GuardDecision(true, None)
    ensures CanActivate(SetLoginStatus(s, false), url).navigation == Some(Navigation([LoginRoute], url))
  {
    LogoutSignsOut(s);
    FalseStatusSignsOut(s);
  }

  /** Remembering a search writes only its own key: the session and the
      token read as before. */
  lemma SaveSearchKeepsSession(s: Session, stockName: string, ticker: string, date: string)
    requires StockService.SaveSearch(s.store, stockName, ticker, date).Returned?
    ensures var after := Session(s.isLoggedIn, StockService.SaveSearch(s.store, stockName, ticker, date).value);
            && (IsAuthenticated(after) <==> IsAuthenticated(s))
            && GetToken(after) == GetToken(s)
  {
  }
}
