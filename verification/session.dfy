/** The dashboard's session state: the bearer token and the cached vendor
    profile, with the login screen, the first-time profile fetch and the two
    logout buttons as the only code that writes them. */
module Session {
  import opened Wrappers

  /** The vendor record returned by `/users/me`; `compound` may be absent. */
  datatype Profile = Profile(id: int, name: string, compound: Option<string>)

  /** The two session keys, `token` and `profile`. A missing key and a key
      holding `None` behave alike once the page has initialised them. */
  datatype Session = Session(token: Option<string>, profile: Option<Profile>)

  /** The session right after initialisation: both keys hold `None`. */
  const Initial := Session(None, None)

  /** The page shows the dashboard rather than the login screen: the token
      is truthy, so an empty string counts as no token. */
  predicate LoggedIn(s: Session) {
    s.token.Some? && s.token.value != ""
  }

  /** The states the page can reach: a stored token is never empty, and a
      profile is only cached while logged in. */
  predicate Valid(s: Session) {
    && (s.token.Some? ==> s.token.value != "")
    && (s.profile.Some? ==> LoggedIn(s))
  }

  /** What the identity provider did with the submitted credentials. */
  datatype AuthResult =
    | IdToken(token: string)
    | NotAuthorized
    | ProviderFailure(detail: string)

  /** The error shown on the login screen. */
  datatype LoginError = IncorrectCredentials | LoginFailed(detail: string)

  /** The result of `login_cognito`: the token, or `None` with the error the
      vendor is shown. */
  datatype LoginResult = LoginResult(token: Option<string>, error: Option<LoginError>)

  /** `login_cognito`: a token only when the provider issued one; wrong
      credentials are reported as such, every other failure generically. */
  function LoginCognito(a: AuthResult): (r: LoginResult)
    ensures r.token.Some? <==> a.IdToken?
    ensures r.token.Some? <==> r.error.None?
    ensures a.IdToken? ==> r.token == Some(a.token)
    ensures r.error == Some(IncorrectCredentials) <==> a.NotAuthorized?
  {
    match a
    case IdToken(t) => LoginResult(Some(t), None)
    case NotAuthorized => LoginResult(None, Some(IncorrectCredentials))
    case ProviderFailure(d) => LoginResult(None, Some(LoginFailed(d)))
  }

  /** How the backend answered `GET /users/me`. `body` is `None` when the
      returned JSON is null or an empty object, which the page treats as no
      profile. */
  datatype ProfileReply = ProfileHttp(code: int, body: Option<Profile>) | ProfileConnectionError

  /** `fetch_profile`: the profile on a 200 answer, `None` otherwise; a
      connection error is swallowed and also gives `None`. */
  function FetchProfile(reply: ProfileReply): (r: Option<Profile>)
    ensures r.Some? ==> reply.ProfileHttp? && reply.code == 200 && reply.body == r
    ensures reply.ProfileHttp? && reply.code == 200 ==> r == reply.body
  {
    match reply
    case ProfileConnectionError => None
    case ProfileHttp(code, body) => if code == 200 then body else None
  }

  /** One run of the page driven by the vendor. */
  datatype Event =
      /** "Log In" pressed on the login screen; the provider answered `result`. */
    | PressLogIn(result: AuthResult)
      /** The dashboard is opened before a profile is cached: the profile is
          fetched, and on failure the vendor may press "Logout". */
    | OpenDashboard(reply: ProfileReply, logoutPressed: bool)
      /** "Log Out" pressed in the sidebar. */
    | PressLogOut

  /** The session after one run of the page. An event whose button the
      current screen does not show leaves the session as it is. */
  function Step(s: Session, e: Event): (r: Session)
    ensures Valid(s) ==> Valid(r)
    ensures r.token != s.token ==>
      || (e.PressLogIn? && !LoggedIn(s) && e.result.IdToken? && r.token == Some(e.result.token))
      || (r.token.None? && r.profile.None?)
    ensures r.profile != s.profile ==> r.profile.None? || (e.OpenDashboard? && s.profile.None?)
    ensures e.OpenDashboard? && LoggedIn(s) && s.profile.None? && FetchProfile(e.reply).Some? ==>
      r.token == s.token && r.profile == FetchProfile(e.reply)
  {
    match e
    case PressLogIn(a) =>
      if LoggedIn(s) then s
      else
        var token := LoginCognito(a).token;
        if token.Some? && token.value != "" then s.(token := token) else s
    case OpenDashboard(reply, logoutPressed) =>
      if !LoggedIn(s) || s.profile.Some? then s
      else
        var fetched := FetchProfile(reply);
        if fetched.Some? then s.(profile := fetched)
        else if logoutPressed then s.(token := None)
        else s
    case PressLogOut =>
      if LoggedIn(s) && s.profile.Some? then Session(None, None) else s
  }

  /** The session after a sequence of page runs. */
  function Run(s: Session, es: seq<Event>): (r: Session)
    ensures Valid(s) ==> Valid(r)
    decreases |es|
  {
    if |es| == 0 then s else Run(Step(s, es[0]), es[1..])
  }

  /** Every session the page can reach from its initial state is valid. */
  lemma ReachableIsValid(es: seq<Event>)
    ensures Valid(Run(Initial, es))
  {
  }

  /** A failed login stores nothing: the vendor stays on the login screen
      with neither token nor profile, whichever way the provider failed. */
  lemma FailedLoginStoresNothing(s: Session, a: AuthResult)
    requires Valid(s) && !LoggedIn(s)
    requires !a.IdToken?
    ensures var r := Step(s, PressLogIn(a));
      !LoggedIn(r) && r.token.None? && r.profile.None?
  {
  }

  /** From the login screen, a login ends logged in exactly when the
      provider issued a non-empty token, and that token is what is stored. */
  lemma LoginSucceedsOnlyWithToken(s: Session, a: AuthResult)
    requires !LoggedIn(s)
    ensures LoggedIn(Step(s, PressLogIn(a))) <==> a.IdToken? && a.token != ""
    ensures LoggedIn(Step(s, PressLogIn(a))) ==> Step(s, PressLogIn(a)).token == Some(a.token)
  {
  }

  /** The sidebar logout clears both keys. */
  lemma SidebarLogoutClears(s: Session)
    requires LoggedIn(s) && s.profile.Some?
    ensures Step(s, PressLogOut) == Initial
  {
  }

  /** The first dashboard run after login caches the fetched profile and
      keeps the token, whether or not a stale "Logout" press is pending: that
      button is only shown when the fetch fails. */
  lemma FirstFetchCachesProfile(s: Session, reply: ProfileReply, logoutPressed: bool)
    requires LoggedIn(s) && s.profile.None?
    requires FetchProfile(reply).Some?
    ensures Step(s, OpenDashboard(reply, logoutPressed)) == s.(profile := FetchProfile(reply))
    ensures LoggedIn(Step(s, OpenDashboard(reply, logoutPressed)))
  {
  }

  /** When the profile cannot be fetched, pressing "Logout" clears the token;
      the profile was never cached on this path, so the session is back to
      its initial state. Without the press the session is kept and the run
      stops. */
  lemma ProfileFailureLogout(s: Session, reply: ProfileReply, logoutPressed: bool)
    requires LoggedIn(s) && s.profile.None?
    requires FetchProfile(reply).None?
    ensures logoutPressed ==> Step(s, OpenDashboard(reply, logoutPressed)) == Initial
    ensures !logoutPressed ==> Step(s, OpenDashboard(reply, logoutPressed)) == s
  {
  }
}
