/**
 * The registration page: username, email and password are required, in
 * that order; then the session store's `register` is awaited and its
 * outcome reported.
 */
module RegisterPage {

  import opened Api
  import opened Forms

  const UsernameRequired := "Username is required"
  const EmailRequired := "Email is required"
  const PasswordRequired := "Password is required"
  const RegistrationFailed := "Registration failed"
  const Registered := "Registration successful. Please login."

  /** What one submit leaves behind: the three field errors, whether
      `register` was called, the toast and the navigation target. */
  datatype Outcome = Outcome(errors: seq<Shown>, callsRegister: bool, toast: Option<Toast>, navigateTo: Option<string>)

  const RequiredMessages := [UsernameRequired, EmailRequired, PasswordRequired]

  /**
   * `handleSubmit` as written. The three errors are cleared first; the
   * first empty field, in the order username, email, password, gets the
   * only error and `register` is not called. Otherwise a thrown error puts
   * the same message, the detail or "Registration failed", on all three
   * fields; a call that resolves, whatever its boolean, toasts success and
   * opens "/login".
   */
  function Submit(username: string, email: string, password: string, call: AuthCall): (o: Outcome)
    ensures |o.errors| == 3
    ensures o.callsRegister <==> username != "" && email != "" && password != ""
    ensures !o.callsRegister ==> o.toast == None && o.navigateTo == None
    ensures username == "" ==> o.errors == [Text(UsernameRequired), Text(""), Text("")]
    ensures username != "" && email == "" ==> o.errors == [Text(""), Text(EmailRequired), Text("")]
    ensures username != "" && email != "" && password == "" ==> o.errors == [Text(""), Text(""), Text(PasswordRequired)]
    ensures o.callsRegister && call.Threw? ==> o.errors == seq(3, _ => DetailOr(call.detail, RegistrationFailed))
    ensures o.callsRegister && call.Threw? ==> o.toast == Some(ErrorToast(DetailOr(call.detail, RegistrationFailed))) && o.navigateTo == None
    ensures o.callsRegister && call.Resolved? ==> o.toast == Some(SuccessToast(Registered)) && o.navigateTo == Some("/login")
    ensures o.callsRegister && call.Resolved? ==> o.errors == [Text(""), Text(""), Text("")]
  {
    var fields := [username, email, password];
    assert fields[0] == username && fields[1] == email && fields[2] == password;
    match FirstMissing(fields)
    case Some(k) => Outcome(seq(3, j => if j == k then Text(RequiredMessages[k]) else Text("")), false, None, None)
    case None =>
      match call
      case Resolved(_) => Outcome([Text(""), Text(""), Text("")], true, Some(SuccessToast(Registered)), Some("/login"))
      case Threw(d) =>
        var message := DetailOr(d, RegistrationFailed);
        Outcome(seq(3, _ => message), true, Some(ErrorToast(message)), None)
  }

  /** Validation sets at most one field error. */
  lemma AtMostOneRequiredError(username: string, email: string, password: string, call: AuthCall)
    ensures var o := Submit(username, email, password, call);
      !o.callsRegister ==> forall i, j :: 0 <= i < j < 3 ==> o.errors[i] == Text("") || o.errors[j] == Text("")
  {
  }

  /** The session store's `register` never throws: a rejected registration
      resolves with false, and the page still toasts success and opens
      "/login". */
  lemma FailedRegistrationStillNavigates(username: string, email: string, password: string)
    requires username != "" && email != "" && password != ""
    ensures Submit(username, email, password, Resolved(false)).navigateTo == Some("/login")
    ensures Submit(username, email, password, Resolved(false)).toast == Some(SuccessToast(Registered))
  {
  }

  /**
   * The submit as evidently intended: the boolean `register` resolves with
   * is checked, and a false result (already reported by the store's own
   * error toast) neither toasts success nor navigates.
   */
  function SubmitChecked(username: string, email: string, password: string, call: AuthCall): (o: Outcome)
    ensures o.navigateTo.Some? <==> username != "" && email != "" && password != "" && call == Resolved(true)
    ensures o.toast == Some(SuccessToast(Registered)) <==> o.navigateTo.Some?
  {
    if call == Resolved(false) && username != "" && email != "" && password != "" then
      Outcome([Text(""), Text(""), Text("")], true, None, None)
    else Submit(username, email, password, call)
  }

  /** The correction changes only the outcome of a registration that
      resolved with false. */
  lemma CheckedDiffersOnlyOnRejection(username: string, email: string, password: string, call: AuthCall)
    ensures SubmitChecked(username, email, password, call) != Submit(username, email, password, call)
      <==> username != "" && email != "" && password != "" && call == Resolved(false)
  {
  }

  class Form {
    var username: string
    var email: string
    var password: string
    var usernameError: Shown
    var emailError: Shown
    var passwordError: Shown
    var isLoading: bool

    constructor ()
      ensures username == "" && email == "" && password == "" && !isLoading
      ensures usernameError == Text("") && emailError == Text("") && passwordError == Text("")
    {
      username, email, password := "", "", "";
      usernameError, emailError, passwordError := Text(""), Text(""), Text("");
      isLoading := false;
    }

    /**
     * `handleSubmit` step by step, with an early return per missing field.
     * `pending` is the loading flag while `register` is awaited, which
     * happens exactly when the three fields are filled; the flag is false
     * on every exit.
     */
    method HandleSubmit(call: AuthCall) returns (pending: bool, registerCalled: bool, toast: Option<Toast>, navigateTo: Option<string>)
      modifies this
      ensures username == old(username) && email == old(email) && password == old(password) && !isLoading
      ensures pending <==> registerCalled
      ensures Outcome([usernameError, emailError, passwordError], registerCalled, toast, navigateTo) == Submit(username, email, password, call)
    {
      usernameError, emailError, passwordError := Text(""), Text(""), Text("");
      isLoading := true;
      pending, registerCalled, toast, navigateTo := false, false, None, None;
      if username == "" {
        usernameError := Text(UsernameRequired);
        isLoading := false;
        return;
      }
      if email == "" {
        emailError := Text(EmailRequired);
        isLoading := false;
        return;
      }
      if password == "" {
        passwordError := Text(PasswordRequired);
        isLoading := false;
        return;
      }
      pending, registerCalled := isLoading, true;
      if call.Resolved? {
        toast, navigateTo := Some(SuccessToast(Registered)), Some("/login");
      } else {
        var message := DetailOr(call.detail, RegistrationFailed);
        toast := Some(ErrorToast(message));
        usernameError, emailError, passwordError := message, message, message;
      }
      isLoading := false;
    }
  }
}
