/**
 * The session store shared through the authentication context: the token
 * kept in the browser's local storage, the current user, and the restore,
 * login, register and logout operations.
 */
module Auth {

  import opened Api

  const LoginSucceeded := "Login successful!"
  const LoginFailed := "Login failed"
  const RegisterSucceeded := "Registration successful! Please login."
  const RegisterFailed := "Registration failed"
  const LoggedOut := "Logged out successfully"

  /** The browser's local storage, reduced to its one key "token". */
  class TokenStore {
    var token: Option<string>

    constructor (initial: Option<string>)
      ensures token == initial
    {
      token := initial;
    }

    /** `localStorage.setItem("token", t)`. */
    method Set(t: string)
      modifies this
      ensures token == Some(t)
    {
      token := Some(t);
    }

    /** `localStorage.removeItem("token")`. */
    method Remove()
      modifies this
      ensures token == None
    {
      token := None;
    }
  }

  /** `if (token)`: a stored token counts only when it is a non-empty
      string. */
  predicate Present(t: Option<string>)
  {
    t.Some? && t.value != ""
  }

  /** The form the context posts to "/token". */
  function CredentialsForm(username: string, password: string): seq<(string, string)>
  {
    [("username", username), ("password", password)]
  }

  /**
   * The context's token request carries the two credentials under their
   * own names and no other field: unlike the shell's login form it sends no
   * `grant_type`, which section 4.3.2 of RFC 6749 makes required.
   */
  lemma CredentialsFields(username: string, password: string)
    ensures var form := CredentialsForm(username, password);
      && FormValue(form, "username") == Some(username)
      && FormValue(form, "password") == Some(password)
      && FormValue(form, "grant_type") == None
      && (forall k :: FormValue(form, k).Some? <==> k == "username" || k == "password")
  {
    var form := CredentialsForm(username, password);
    FormValueAt(form, 0, "username");
    FormValueAt(form, 1, "password");
    forall k | k != "username" && k != "password"
      ensures FormValue(form, k) == None
    {
      FormValueMissing(form, k);
    }
  }

  /** The detail of the first of the two login requests that failed. */
  function FailedDetail(tokenReply: Reply<string>, meReply: Reply<User>): (d: Detail)
    ensures tokenReply.Err? ==> d == tokenReply.detail
    ensures tokenReply.Ok? && meReply.Err? ==> d == meReply.detail
  {
    if tokenReply.Err? then tokenReply.detail
    else if meReply.Err? then meReply.detail
    else NoDetail
  }

  /** The observable session: what storage holds, the context's token, the
      user and the loading flag. */
  datatype Session = Session(stored: Option<string>, token: Option<string>, user: Option<User>, loading: bool)

  /** The session after `logout`: storage, token and user cleared, loading
      kept. */
  function AfterLogout(s: Session): (r: Session)
    ensures r.stored == None && r.token == None && r.user == None
    ensures r.loading == s.loading
  {
    s.(stored := None, token := None, user := None)
  }

  /** Logging out twice leaves the same session as logging out once, and a
      logged-out session has no token to restore. */
  lemma LogoutIdempotent(s: Session)
    ensures AfterLogout(AfterLogout(s)) == AfterLogout(s)
    ensures !Present(AfterLogout(s).stored)
  {
  }

  class AuthProvider {
    var storage: TokenStore
    var user: Option<User>
    var loading: bool
    var token: Option<string>

    /** The provider mounts with no user, loading, and the token storage
        holds. */
    constructor (storage: TokenStore)
      ensures this.storage == storage && token == storage.token
      ensures user == None && loading
    {
      this.storage := storage;
      token := storage.token;
      user := None;
      loading := true;
    }

    function State(): Session
      reads this, storage
    {
      Session(storage.token, token, user, loading)
    }

    /**
     * The restore effect. With a token the identity is fetched (the
     * bearer header is added by the shared API client, which is not part of
     * this model); success sets the user and failure logs out. With no
     * token nothing is sent. Loading ends on every path.
     */
    method Restore(meReply: Reply<User>) returns (sent: seq<Request>, toast: Option<Toast>)
      modifies this, storage
      ensures storage == old(storage) && !loading
      ensures !Present(old(token)) ==> sent == [] && toast == None
      ensures !Present(old(token)) ==> user == old(user) && token == old(token) && storage.token == old(storage.token)
      ensures Present(old(token)) ==> sent == [GetMe(None)]
      ensures Present(old(token)) && meReply.Ok? ==> user == Some(meReply.payload) && toast == None
      ensures Present(old(token)) && meReply.Ok? ==> token == old(token) && storage.token == old(storage.token)
      ensures Present(old(token)) && meReply.Err? ==> State() == AfterLogout(old(State())).(loading := false)
      ensures Present(old(token)) && meReply.Err? ==> toast == Some(SuccessToast(LoggedOut))
    {
      sent, toast := [], None;
      if Present(token) {
        sent := [GetMe(None)];
        if meReply.Ok? {
          user := Some(meReply.payload);
        } else {
          toast := Logout();
        }
        loading := false;
      } else {
        loading := false;
      }
    }

    /**
     * `login`: post the credentials, persist and publish the returned
     * token, fetch the identity and publish it. It never throws: the
     * result is true exactly when both requests succeed. When only the
     * identity request fails the new token stays stored.
     */
    method Login(username: string, password: string, tokenReply: Reply<string>, meReply: Reply<User>)
      returns (ok: bool, sent: seq<Request>, storedAtIdentity: Option<string>, toast: Toast)
      modifies this, storage
      ensures storage == old(storage) && loading == old(loading)
      ensures ok <==> tokenReply.Ok? && meReply.Ok?
      ensures tokenReply.Err? ==> sent == [PostToken(CredentialsForm(username, password))]
      ensures tokenReply.Err? ==> token == old(token) && storage.token == old(storage.token)
      ensures tokenReply.Ok? ==> sent == [PostToken(CredentialsForm(username, password)), GetMe(None)]
      ensures tokenReply.Ok? ==> storedAtIdentity == Some(tokenReply.payload)
      ensures tokenReply.Ok? ==> token == Some(tokenReply.payload) && storage.token == Some(tokenReply.payload)
      ensures ok ==> user == Some(meReply.payload) && toast == SuccessToast(LoginSucceeded)
      ensures !ok ==> user == old(user) && toast == ErrorToast(DetailOr(FailedDetail(tokenReply, meReply), LoginFailed))
    {
      sent := [PostToken(CredentialsForm(username, password))];
      storedAtIdentity := None;
      if tokenReply.Err? {
        return false, sent, storedAtIdentity, ErrorToast(DetailOr(tokenReply.detail, LoginFailed));
      }
      var accessToken := tokenReply.payload;
      storage.Set(accessToken);
      token := Some(accessToken);
      sent := sent + [GetMe(None)];
      storedAtIdentity := storage.token;
      if meReply.Err? {
        return false, sent, storedAtIdentity, ErrorToast(DetailOr(meReply.detail, LoginFailed));
      }
      user := Some(meReply.payload);
      ok, toast := true, SuccessToast(LoginSucceeded);
    }

    /** `register`: one request with the three fields as query parameters;
        it never throws and leaves the session alone. */
    method Register(username: string, email: string, password: string, reply: Reply<()>)
      returns (ok: bool, sent: seq<Request>, toast: Toast)
      ensures ok <==> reply.Ok?
      ensures sent == [PostRegister(username, email, password)]
      ensures ok ==> toast == SuccessToast(RegisterSucceeded)
      ensures !ok ==> toast == ErrorToast(DetailOr(reply.detail, RegisterFailed))
    {
      sent := [PostRegister(username, email, password)];
      if reply.Ok? {
        ok, toast := true, SuccessToast(RegisterSucceeded);
      } else {
        ok, toast := false, ErrorToast(DetailOr(reply.detail, RegisterFailed));
      }
    }

    /** `logout`: the stored token, the token and the user are cleared. */
    method Logout() returns (toast: Option<Toast>)
      modifies this, storage
      ensures storage == old(storage)
      ensures State() == AfterLogout(old(State()))
      ensures toast == Some(SuccessToast(LoggedOut))
    {
      storage.Remove();
      token := None;
      user := None;
      toast := Some(SuccessToast(LoggedOut));
    }
  }
}
