/**
 * The application shell's login form: the resource owner password
 * credentials grant of section 4.3.2 of RFC 6749, then an identity request
 * carrying the returned access token as a bearer credential (section 2.1
 * of RFC 6750).
 */
module TokenLogin {

  import opened Api
  import opened Auth
  import opened AppShell

  const InvalidCredentials := "Invalid credentials"

  const GrantFields := ["grant_type", "username", "password", "scope", "client_id", "client_secret"]

  /** The form-encoded body of the token request. */
  function PasswordGrantForm(username: string, password: string): seq<(string, string)>
  {
    [("grant_type", "password"), ("username", username), ("password", password),
     ("scope", ""), ("client_id", ""), ("client_secret", "")]
  }

  /**
   * The token request carries grant_type "password", the two credentials,
   * and empty scope, client_id and client_secret; no other field, and no
   * field twice.
   */
  lemma PasswordGrantFields(username: string, password: string)
    ensures var form := PasswordGrantForm(username, password);
      && |form| == 6
      && (forall i, j :: 0 <= i < j < |form| ==> form[i].0 != form[j].0)
      && FormValue(form, "grant_type") == Some("password")
      && FormValue(form, "username") == Some(username)
      && FormValue(form, "password") == Some(password)
      && FormValue(form, "scope") == Some("")
      && FormValue(form, "client_id") == Some("")
      && FormValue(form, "client_secret") == Some("")
      && (forall k :: FormValue(form, k).Some? <==> k in GrantFields)
  {
    var form := PasswordGrantForm(username, password);
    FormValueAt(form, 0, "grant_type");
    FormValueAt(form, 1, "username");
    FormValueAt(form, 2, "password");
    FormValueAt(form, 3, "scope");
    FormValueAt(form, 4, "client_id");
    FormValueAt(form, 5, "client_secret");
    forall k | k !in GrantFields
      ensures FormValue(form, k) == None
    {
      FormValueMissing(form, k);
    }
  }

  class LoginBox {
    /** The shell whose `setUser` the form is given. */
    var app: App
    var error: Shown
    var loading: bool

    constructor (app: App)
      ensures this.app == app && error == Text("") && !loading
    {
      this.app := app;
      error := Text("");
      loading := false;
    }

    /**
     * `handleSubmit`. The access token is stored before the identity
     * request is sent, and that request carries the token just returned,
     * not what storage holds. The user is set and "/dashboard" opened only
     * when both requests succeed; otherwise the error is the backend's
     * detail or "Invalid credentials", and a token already stored stays
     * stored. The error line is not cleared by a new submit. `loading` is
     * true while the requests are pending and false on every exit.
     */
    method HandleSubmit(username: string, password: string, tokenReply: Reply<string>, meReply: Reply<User>)
      returns (pending: bool, sent: seq<Request>, storedAtIdentity: Option<string>, navigateTo: Option<string>)
      modifies this, app, app.storage
      ensures app == old(app) && app.storage == old(app.storage) && app.loading == old(app.loading)
      ensures pending && !loading
      ensures |sent| >= 1 && sent[0] == PostToken(PasswordGrantForm(username, password))
      ensures tokenReply.Err? ==> sent == [PostToken(PasswordGrantForm(username, password))]
      ensures tokenReply.Err? ==> app.storage.token == old(app.storage.token)
      ensures tokenReply.Ok? ==> sent == [PostToken(PasswordGrantForm(username, password)), GetMe(Some(tokenReply.payload))]
      ensures tokenReply.Ok? ==> storedAtIdentity == Some(tokenReply.payload) && app.storage.token == Some(tokenReply.payload)
      ensures navigateTo.Some? <==> tokenReply.Ok? && meReply.Ok?
      ensures navigateTo.Some? ==> navigateTo == Some("/dashboard") && app.user == Some(meReply.payload) && error == old(error)
      ensures navigateTo.None? ==> app.user == old(app.user) && error == DetailOr(FailedDetail(tokenReply, meReply), InvalidCredentials)
    {
      loading := true;
      pending := loading;
      sent := [PostToken(PasswordGrantForm(username, password))];
      storedAtIdentity, navigateTo := None, None;
      if tokenReply.Err? {
        error := DetailOr(tokenReply.detail, InvalidCredentials);
      } else {
        var accessToken := tokenReply.payload;
        app.storage.Set(accessToken);
        storedAtIdentity := app.storage.token;
        sent := sent + [GetMe(Some(accessToken))];
        if meReply.Err? {
          error := DetailOr(meReply.detail, InvalidCredentials);
        } else {
          app.user := Some(meReply.payload);
          navigateTo := Some("/dashboard");
        }
      }
      loading := false;
    }
  }
}
