/** The authentication state (state/auth_state.py): the two session tokens, the signed-in user and
    the login form's feedback. The identity service is a set of oracles: verifying an access
    token, refreshing a session, signing in, signing up and signing out. Each handler returns the
    redirects it yields, in order. */
module Auth {
  import opened Wrappers

  /** The fields of the user record the state reads. */
  datatype User = User(id: string, email: string, appMetadata: map<string, string>)

  /** A session handed out by the identity service. */
  datatype Session = Session(accessToken: string, refreshToken: string, user: Option<User>)

  /** What sign-up returns: the user created, and a session when sign-in is immediate. */
  datatype SignUpResponse = SignUpResponse(user: Option<User>, session: Option<Session>)

  /** `auth.get_user(token)`: the user, no user, or the error raised. */
  type GetUser = string -> Result<Option<User>>
  /** `auth.refresh_session(token)`: the response's session, or the error raised. */
  type Refresh = string -> Result<Option<Session>>
  /** `auth.sign_in_with_password({email, password})` */
  type SignIn = (string, string) -> Result<Option<Session>>
  /** `auth.sign_up({email, password})` */
  type SignUp = (string, string) -> Result<SignUpResponse>

  const LoginPath := "/login"
  const HomePath := "/"
  const LoginError := "이메일 또는 비밀번호가 잘못되었습니다."
  const SignupConfirm := "회원가입 성공! 확인 이메일을 확인해주세요."
  const SignupFailed := "회원가입에 실패했습니다."
  const SignupErrorPrefix := "오류 발생: "

  datatype View = View(
    accessToken: string,
    refreshToken: string,
    isAuthenticated: bool,
    user: Option<User>,
    errorMessage: string,
    isLoading: bool)

  /** `user_email` */
  function UserEmail(user: Option<User>): string {
    match user
    case None => ""
    case Some(u) => u.email
  }

  /** `role`: the `role` entry of a signed-in user's (non-empty) app metadata, `"user"` when that
      entry is missing, and `"guest"` in every other case. */
  function Role(isAuthenticated: bool, user: Option<User>): string {
    if isAuthenticated && user.Some? && user.value.appMetadata != map[] then
      if "role" in user.value.appMetadata then user.value.appMetadata["role"] else "user"
    else "guest"
  }

  lemma RoleSpec(isAuthenticated: bool, user: Option<User>)
    ensures !isAuthenticated || user.None? ==> Role(isAuthenticated, user) == "guest"
    ensures Role(isAuthenticated, user) == "admin" ==>
      isAuthenticated && user.Some? && "role" in user.value.appMetadata
      && user.value.appMetadata["role"] == "admin"
    ensures (isAuthenticated && user.Some? && user.value.appMetadata != map[]
             && "role" !in user.value.appMetadata) ==> Role(isAuthenticated, user) == "user"
  {
  }

  lemma UserEmailSpec(user: Option<User>)
    ensures user.None? ==> UserEmail(user) == ""
    ensures user.Some? ==> UserEmail(user) == user.value.email
  {
  }

  /** Signed out: no tokens, no user. */
  predicate SignedOut(v: View) {
    v.accessToken == "" && v.refreshToken == "" && !v.isAuthenticated && v.user.None?
  }

  /** `_reset_auth_state` */
  function Reset(v: View): View {
    v.(accessToken := "", refreshToken := "", isAuthenticated := false, user := None)
  }

  /** Resetting signs out, keeps the form feedback, and a second reset changes nothing. */
  lemma ResetSpec(v: View)
    ensures SignedOut(Reset(v))
    ensures Reset(v).errorMessage == v.errorMessage && Reset(v).isLoading == v.isLoading
    ensures Reset(Reset(v)) == Reset(v)
    ensures Role(Reset(v).isAuthenticated, Reset(v).user) == "guest" && UserEmail(Reset(v).user) == ""
  {
  }

  /** The state a session installs. */
  function Install(v: View, s: Session): View {
    v.(accessToken := s.accessToken, refreshToken := s.refreshToken, user := s.user, isAuthenticated := true)
  }

  /** The refresh attempt after the access token was rejected. */
  function RefreshStep(v: View, refresh: Refresh): (View, seq<string>) {
    match refresh(v.refreshToken)
    case Ok(Some(s)) => (Install(v, s), [])
    case _ => (Reset(v), [LoginPath])
  }

  /** `check_auth`. Without an access token: a stale sign-in flag is cleared with the user, and the
      page goes to the login path. A token that yields a user signs that user in. Otherwise the
      refresh token is tried; when there is none the state is reset and the login path yielded,
      and the refresh is then still attempted with the now-empty token. */
  function CheckAuth(v: View, getUser: GetUser, refresh: Refresh): (View, seq<string>) {
    if v.accessToken == "" then
      (if v.isAuthenticated then v.(isAuthenticated := false, user := None) else v, [LoginPath])
    else
      match getUser(v.accessToken)
      case Ok(Some(u)) => (v.(user := Some(u), isAuthenticated := true), [])
      case _ =>
        if v.refreshToken == "" then
          var r := RefreshStep(Reset(v), refresh);
          (r.0, [LoginPath] + r.1)
        else RefreshStep(v, refresh)
  }

  lemma CheckAuthNoAccessToken(v: View, getUser: GetUser, refresh: Refresh)
    requires v.accessToken == ""
    ensures var (w, redirects) := CheckAuth(v, getUser, refresh);
      && redirects == [LoginPath] && !w.isAuthenticated
      && (v.isAuthenticated ==> w.user.None?)
      && (!v.isAuthenticated ==> w == v)
      && w.refreshToken == v.refreshToken
  {
  }

  lemma CheckAuthVerified(v: View, getUser: GetUser, refresh: Refresh, u: User)
    requires v.accessToken != "" && getUser(v.accessToken) == Ok(Some(u))
    ensures var (w, redirects) := CheckAuth(v, getUser, refresh);
      && redirects == [] && w.isAuthenticated && w.user == Some(u)
      && w.accessToken == v.accessToken && w.refreshToken == v.refreshToken
  {
  }

  /** The error `await` raises on a value that is not awaitable. */
  const NotAwaitable := "object AuthResponse can't be used in 'await' expression"

  /** `await` applied to what a call on the synchronous client gave: an error the call raised
      propagates, and a response, being no coroutine, makes the `await` itself raise. */
  function AwaitSync(r: Result<Option<Session>>): (a: Result<Option<Session>>)
    ensures a.Err?
    ensures r.Err? ==> a == r
  {
    match r
    case Err(e) => Err(e)
    case Ok(_) => Err(NotAwaitable)
  }

  /** The refresh as `check_auth` issues it: the module-wide client is synchronous, and its
      `refresh_session` result is awaited. */
  function AwaitedSync(refresh: Refresh): (awaited: Refresh)
    ensures forall t :: awaited(t).Err? && (refresh(t).Err? ==> awaited(t) == refresh(t))
  {
    var awaited := t => AwaitSync(refresh(t));
    assert forall t :: awaited(t) == AwaitSync(refresh(t));
    awaited
  }

  /** `check_auth` as written: the intended steps, with the refresh awaited on the synchronous
      client. */
  function CheckAuthAsWritten(v: View, getUser: GetUser, refresh: Refresh): (View, seq<string>) {
    CheckAuth(v, getUser, AwaitedSync(refresh))
  }

  /** As written, a rejected access token always ends signed out: one redirect to the login path
      when there was a refresh token, two when there was none, whatever the service answers. */
  lemma CheckAuthAsWrittenSignsOut(v: View, getUser: GetUser, refresh: Refresh)
    requires v.accessToken != "" && (getUser(v.accessToken).Err? || getUser(v.accessToken) == Ok(None))
    ensures var (w, redirects) := CheckAuthAsWritten(v, getUser, refresh);
      && SignedOut(w)
      && redirects == (if v.refreshToken == "" then [LoginPath, LoginPath] else [LoginPath])
  {
    var awaited := AwaitedSync(refresh);
    assert awaited(v.refreshToken).Err? && awaited("").Err?;
  }

  /** A service that hands out a session shows the difference: the intended step signs in with
      no redirect, the step as written signs out and redirects to the login path. */
  lemma RefreshLostAsWritten(v: View, getUser: GetUser, refresh: Refresh, s: Session)
    requires v.accessToken != "" && v.refreshToken != "" && getUser(v.accessToken) == Ok(None)
    requires refresh(v.refreshToken) == Ok(Some(s))
    ensures CheckAuth(v, getUser, refresh) == (Install(v, s), [])
    ensures CheckAuthAsWritten(v, getUser, refresh) == (Reset(v), [LoginPath])
  {
    var awaited := AwaitedSync(refresh);
    assert awaited(v.refreshToken).Err?;
  }

  /** A rejected access token with a refresh token: a new session rotates both tokens, anything
      else signs out and redirects to the login path. */
  lemma CheckAuthRefresh(v: View, getUser: GetUser, refresh: Refresh)
    requires getUser(v.accessToken).Err? || getUser(v.accessToken) == Ok(None)
    requires v.accessToken != "" && v.refreshToken != ""
    ensures var (w, redirects) := CheckAuth(v, getUser, refresh);
      match refresh(v.refreshToken)
      case Ok(Some(s)) =>
        redirects == [] && w.isAuthenticated && w.user == s.user
        && w.accessToken == s.accessToken && w.refreshToken == s.refreshToken
      case _ => redirects == [LoginPath] && SignedOut(w)
  {
  }

  /** A rejected access token without a refresh token: the login redirect comes first, and the
      refresh is still attempted with the emptied token, so a second redirect follows unless the
      service hands out a session for an empty token. */
  lemma CheckAuthNoRefreshToken(v: View, getUser: GetUser, refresh: Refresh)
    requires v.accessToken != "" && v.refreshToken == ""
    requires getUser(v.accessToken).Err? || getUser(v.accessToken) == Ok(None)
    ensures var (w, redirects) := CheckAuth(v, getUser, refresh);
      && redirects[0] == LoginPath
      && (refresh("").Ok? && refresh("").value.Some? <==> w.isAuthenticated)
      && (!w.isAuthenticated ==> SignedOut(w) && redirects == [LoginPath, LoginPath])
  {
  }

  /** The form feedback is never touched by `check_auth`. */
  lemma CheckAuthKeepsFeedback(v: View, getUser: GetUser, refresh: Refresh)
    ensures CheckAuth(v, getUser, refresh).0.errorMessage == v.errorMessage
    ensures CheckAuth(v, getUser, refresh).0.isLoading == v.isLoading
  {
  }

  /** `check_admin`: the `check_auth` redirects, then the home path unless the role is admin. */
  function CheckAdmin(v: View, getUser: GetUser, refresh: Refresh): (View, seq<string>) {
    var (w, redirects) := CheckAuth(v, getUser, refresh);
    (w, redirects + (if Role(w.isAuthenticated, w.user) != "admin" then [HomePath] else []))
  }

  /** Whoever does not end as an admin is sent home last; an admin is not redirected home. */
  lemma CheckAdminSpec(v: View, getUser: GetUser, refresh: Refresh)
    ensures var (w, redirects) := CheckAdmin(v, getUser, refresh);
      && (Role(w.isAuthenticated, w.user) != "admin" <==> redirects != [] && redirects[|redirects| - 1] == HomePath)
      && w == CheckAuth(v, getUser, refresh).0
  {
    var (w, r) := CheckAuth(v, getUser, refresh);
    assert forall k :: 0 <= k < |r| ==> r[k] == LoginPath;
  }

  /** `handle_login`. The form's `email` and `password` are read inside the `try`, so a missing
      field ends like a rejected sign-in. A session signs in and redirects home; a response
      without a session leaves the message empty; an error sets the fixed message. Loading ends
      on every path. */
  function Login(v: View, form: map<string, string>, signIn: SignIn): (View, seq<string>) {
    var started := v.(isLoading := true, errorMessage := "");
    var response := if "email" in form && "password" in form then signIn(form["email"], form["password"])
                    else Err("KeyError");
    match response
    case Ok(Some(s)) => (Install(started, s).(isLoading := false), [HomePath])
    case Ok(None) => (started.(isLoading := false), [])
    case Err(_) => (started.(errorMessage := LoginError, isLoading := false), [])
  }

  lemma LoginSpec(v: View, form: map<string, string>, signIn: SignIn)
    ensures var (w, redirects) := Login(v, form, signIn);
      && !w.isLoading
      && (redirects == [HomePath] ==> w.isAuthenticated && w.errorMessage == "")
      && (redirects == [] ==> w.accessToken == v.accessToken && w.refreshToken == v.refreshToken
                              && w.user == v.user && w.isAuthenticated == v.isAuthenticated)
      && (w.errorMessage == "" || w.errorMessage == LoginError)
      && (w.errorMessage == LoginError ==> redirects == [])
      && ("email" !in form ==> w.errorMessage == LoginError)
  {
    var (w, redirects) := Login(v, form, signIn);
    if redirects == [] {
      assert w == v.(isLoading := false, errorMessage := w.errorMessage);
    }
  }

  /** A successful sign-in stores the session's tokens and user. */
  lemma LoginSession(v: View, email: string, password: string, signIn: SignIn, s: Session)
    requires signIn(email, password) == Ok(Some(s))
    ensures var (w, redirects) := Login(v, map["email" := email, "password" := password], signIn);
      && redirects == [HomePath] && w.errorMessage == ""
      && w.accessToken == s.accessToken && w.refreshToken == s.refreshToken
      && w.user == s.user && w.isAuthenticated
  {
    var form := map["email" := email, "password" := password];
    assert "email" in form && "password" in form;
    assert form["email"] == email && form["password"] == password;
  }

  /** `handle_logout`: the state is signed out before the service is told; when signing out at the
      service raises, the redirect is never yielded. */
  function Logout(v: View, signOut: Outcome): (View, seq<string>) {
    (Reset(v), if signOut.Pass? then [LoginPath] else [])
  }

  lemma LogoutSpec(v: View, signOut: Outcome)
    ensures SignedOut(Logout(v, signOut).0)
    ensures Logout(v, signOut).0.errorMessage == v.errorMessage
    ensures signOut.Pass? <==> Logout(v, signOut).1 == [LoginPath]
  {
  }

  /** `handle_signup`. A user with a session hands over to `handle_login` with the same form (which
      signs in again); a user without a session gets the confirmation message; no user gets the
      failure message; an error gets the prefixed error text. */
  function Signup(v: View, form: map<string, string>, signUp: SignUp, signIn: SignIn): (View, seq<string>) {
    var started := v.(isLoading := true, errorMessage := "");
    var response := if "email" in form && "password" in form then signUp(form["email"], form["password"])
                    else Err(if "email" !in form then "'email'" else "'password'");
    match response
    case Ok(r) =>
      if r.user.Some? then
        if r.session.Some? then Login(started, form, signIn)
        else (started.(errorMessage := SignupConfirm, isLoading := false), [])
      else (started.(errorMessage := SignupFailed, isLoading := false), [])
    case Err(e) => (started.(errorMessage := SignupErrorPrefix + e, isLoading := false), [])
  }

  lemma SignupSpec(v: View, form: map<string, string>, signUp: SignUp, signIn: SignIn)
    ensures var (w, redirects) := Signup(v, form, signUp, signIn);
      && !w.isLoading
      && (w.isAuthenticated != v.isAuthenticated ==> redirects == [HomePath])
      && (redirects == [HomePath] ==> w.isAuthenticated && w.errorMessage == "")
  {
    var started := v.(isLoading := true, errorMessage := "");
    LoginSpec(started, form, signIn);
  }

  class AuthState {
    var accessToken: string
    var refreshToken: string
    var isAuthenticated: bool
    var user: Option<User>
    var errorMessage: string
    var isLoading: bool

    constructor()
      ensures Snapshot() == View("", "", false, None, "", false)
    {
      accessToken, refreshToken, isAuthenticated, user, errorMessage, isLoading := "", "", false, None, "", false;
    }

    function Snapshot(): View
      reads this
    {
      View(accessToken, refreshToken, isAuthenticated, user, errorMessage, isLoading)
    }

    method ResetAuthState()
      modifies this
      ensures Snapshot() == Reset(old(Snapshot()))
    {
      accessToken := "";
      refreshToken := "";
      isAuthenticated := false;
      user := None;
    }

    method TryRefresh(refresh: Refresh) returns (redirects: seq<string>)
      modifies this
      ensures (Snapshot(), redirects) == RefreshStep(old(Snapshot()), refresh)
    {
      redirects := [];
      var response := refresh(refreshToken);
      if response.Ok? && response.value.Some? {
        var s := response.value.value;
        accessToken := s.accessToken;
        refreshToken := s.refreshToken;
        user := s.user;
        isAuthenticated := true;
      } else {
        ResetAuthState();
        redirects := [LoginPath];
      }
    }

    method CheckAuthHandler(getUser: GetUser, refresh: Refresh) returns (redirects: seq<string>)
      modifies this
      ensures (Snapshot(), redirects) == CheckAuth(old(Snapshot()), getUser, refresh)
    {
      if accessToken == "" {
        if isAuthenticated {
          isAuthenticated := false;
          user := None;
        }
        return [LoginPath];
      }
      var response := getUser(accessToken);
      if response.Ok? && response.value.Some? {
        user := response.value;
        isAuthenticated := true;
        return [];
      }
      redirects := [];
      if refreshToken == "" {
        ResetAuthState();
        redirects := [LoginPath];
      }
      var more := TryRefresh(refresh);
      assert [] + more == more;
      redirects := redirects + more;
    }

    method HandleLogin(form: map<string, string>, signIn: SignIn) returns (redirects: seq<string>)
      modifies this
      ensures (Snapshot(), redirects) == Login(old(Snapshot()), form, signIn)
    {
      isLoading := true;
      errorMessage := "";
      if "email" in form && "password" in form {
        var response := signIn(form["email"], form["password"]);
        match response {
          case Ok(Some(s)) =>
            accessToken := s.accessToken;
            refreshToken := s.refreshToken;
            isAuthenticated := true;
            user := s.user;
            isLoading := false;
            return [HomePath];
          case Ok(None) =>
          case Err(_) =>
            errorMessage := LoginError;
        }
      } else {
        errorMessage := LoginError;
      }
      isLoading := false;
      redirects := [];
    }

    method CheckAdminHandler(getUser: GetUser, refresh: Refresh) returns (redirects: seq<string>)
      modifies this
      ensures (Snapshot(), redirects) == CheckAdmin(old(Snapshot()), getUser, refresh)
    {
      redirects := CheckAuthHandler(getUser, refresh);
      if Role(isAuthenticated, user) != "admin" {
        redirects := redirects + [HomePath];
      } else {
        assert redirects + [] == redirects;
      }
    }

    method HandleSignup(form: map<string, string>, signUp: SignUp, signIn: SignIn) returns (redirects: seq<string>)
      modifies this
      ensures (Snapshot(), redirects) == Signup(old(Snapshot()), form, signUp, signIn)
    {
      isLoading := true;
      errorMessage := "";
      var response := if "email" in form && "password" in form then signUp(form["email"], form["password"])
                      else Err(if "email" !in form then "'email'" else "'password'");
      match response {
        case Ok(r) =>
          if r.user.Some? {
            if r.session.Some? {
              redirects := HandleLogin(form, signIn);
              return;
            }
            errorMessage := SignupConfirm;
          } else {
            errorMessage := SignupFailed;
          }
        case Err(e) =>
          errorMessage := SignupErrorPrefix + e;
      }
      isLoading := false;
      redirects := [];
    }

    method HandleLogout(signOut: Outcome) returns (redirects: seq<string>)
      modifies this
      ensures (Snapshot(), redirects) == Logout(old(Snapshot()), signOut)
    {
      accessToken := "";
      refreshToken := "";
      isAuthenticated := false;
      user := None;
      redirects := if signOut.Pass? then [LoginPath] else [];
    }
  }
}
