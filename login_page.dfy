/**
 * The login page: both fields are required, the username first; then the
 * session store's `login` is awaited and its outcome reported.
 */
module LoginPage {

  import opened Api
  import opened Forms

  const UsernameRequired := "Username is required"
  const PasswordRequired := "Password is required"
  const InvalidCredentials := "Invalid credentials"
  const LoggedIn := "Logged in successfully"

  /** What one submit leaves behind: the two field errors, whether `login`
      was called, the toast and the navigation target. */
  datatype Outcome = Outcome(usernameError: Shown, passwordError: Shown, callsLogin: bool, toast: Option<Toast>, navigateTo: Option<string>)

  /**
   * `handleSubmit` as written. Both errors are cleared first; the first
   * empty field, the username before the password, gets the only error and
   * `login` is not called. Otherwise a thrown error puts the same message,
   * the detail or "Invalid credentials", on both fields; a call that
   * resolves, whatever its boolean, toasts success and opens "/".
   */
  function Submit(username: string, password: string, call: AuthCall): (o: Outcome)
    ensures o.callsLogin <==> username != "" && password != ""
    ensures username == "" ==> o.usernameError == Text(UsernameRequired) && o.passwordError == Text("")
    ensures username != "" && password == "" ==> o.usernameError == Text("") && o.passwordError == Text(PasswordRequired)
    ensures !o.callsLogin ==> o.toast == None && o.navigateTo == None
    ensures o.callsLogin && call.Threw? ==> o.usernameError == DetailOr(call.detail, InvalidCredentials) == o.passwordError
    ensures o.callsLogin && call.Threw? ==> o.toast == Some(ErrorToast(DetailOr(call.detail, InvalidCredentials))) && o.navigateTo == None
    ensures o.callsLogin && call.Resolved? ==> o.toast == Some(SuccessToast(LoggedIn)) && o.navigateTo == Some("/")
    ensures o.callsLogin && call.Resolved? ==> o.usernameError == Text("") == o.passwordError
  {
    var fields := [username, password];
    assert fields[0] == username && fields[1] == password;
    match FirstMissing(fields)
    case Some(0) => Outcome(Text(UsernameRequired), Text(""), false, None, None)
    case Some(_) => Outcome(Text(""), Text(PasswordRequired), false, None, None)
    case None =>
      match call
      case Resolved(_) => Outcome(Text(""), Text(""), true, Some(SuccessToast(LoggedIn)), Some("/"))
      case Threw(d) =>
        var message := DetailOr(d, InvalidCredentials);
        Outcome(message, message, true, Some(ErrorToast(message)), None)
  }

  /** The session store's `login` never throws: a rejected login resolves
      with false, and the page still toasts success and opens "/". */
  lemma FailedLoginStillNavigates(username: string, password: string)
    requires username != "" && password != ""
    ensures Submit(username, password, Resolved(false)).navigateTo == Some("/")
    ensures Submit(username, password, Resolved(false)).toast == Some(SuccessToast(LoggedIn))
  {
  }

  /**
   * The submit as evidently intended: the boolean `login` resolves with is
   * checked, and a false result (already reported by the store's own
   * error toast) neither toasts success nor navigates.
   */
  function SubmitChecked(username: string, password: string, call: AuthCall): (o: Outcome)
    ensures o.navigateTo.Some? <==> username != "" && password != "" && call == Resolved(true)
    ensures o.toast == Some(SuccessToast(LoggedIn)) <==> o.navigateTo.Some?
  {
    if call == Resolved(false) && username != "" && password != "" then
      Outcome(Text(""), Text(""), true, None, None)
    else Submit(username, password, call)
  }

  /** The correction changes only the outcome of a login that resolved with
      false. */
  lemma CheckedDiffersOnlyOnRejection(username: string, password: string, call: AuthCall)
    ensures SubmitChecked(username, password, call) != Submit(username, password, call)
      <==> username != "" && password != "" && call == Resolved(false)
  {
  }

  class Form {
    var username: string
    var password: string
    var usernameError: Shown
    var passwordError: Shown
    var isLoading: bool

    constructor ()
      ensures username == "" && password == "" && !isLoading
      ensures usernameError == Text("") && passwordError == Text("")
    {
      username, password := "", "";
      usernameError, passwordError := Text(""), Text("");
      isLoading := false;
    }

    /**
     * `handleSubmit` step by step: the field errors and the loading flag
     * are set in order, with an early return per missing field. `pending`
     * is the loading flag while `login` is awaited, which happens exactly
     * when both fields are filled; the flag is false on every exit.
     */
    method HandleSubmit(call: AuthCall) returns (pending: bool, loginCalled: bool, toast: Option<Toast>, navigateTo: Option<string>)
      modifies this
      ensures username == old(username) && password == old(password) && !isLoading
      ensures pending <==> loginCalled
      ensures Outcome(usernameError, passwordError, loginCalled, toast, navigateTo) == Submit(username, password, call)
    {
      usernameError, passwordError := Text(""), Text("");
      isLoading := true;
      pending, loginCalled, toast, navigateTo := false, false, None, None;
      if username == "" {
        usernameError := Text(UsernameRequired);
        isLoading := false;
        return;
      }
      if password == "" {
        passwordError := Text(PasswordRequired);
        isLoading := false;
        return;
      }
      pending, loginCalled := isLoading, true;
      if call.Resolved? {
        toast, navigateTo := Some(SuccessToast(LoggedIn)), Some("/");
      } else {
        var message := DetailOr(call.detail, InvalidCredentials);
        toast := Some(ErrorToast(message));
        usernameError, passwordError := message, message;
      }
      isLoading := false;
    }
  }
}
