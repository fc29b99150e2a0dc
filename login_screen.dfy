/**
 * The "Continue" press of LoginScreen.js: the credential length checks that
 * run before `signIn`.
 */
module LoginScreen {
  import opened Results
  import opened Text
  import opened AppContext
  import DoneStorage

  const MinUsername := 3
  const MinPassword := 8
  const UsernameMessage := "Username must be at least 3 characters long."
  const PasswordMessage := "Password must be at least 8 characters long."

  /** Either the alert shown, or the arguments `signIn` is called with. */
  datatype Verdict = Rejected(message: string) | Proceed(username: string, password: string)

  /** Lines 56-68. */
  function OnContinue(username: string, password: string): (v: Verdict)
    ensures v == Rejected(UsernameMessage) <==> |Trim(username)| < MinUsername
    ensures v == Rejected(PasswordMessage) <==> |Trim(username)| >= MinUsername && |password| < MinPassword
    ensures v.Proceed? <==> |Trim(username)| >= MinUsername && |password| >= MinPassword
    ensures v.Proceed? ==> v.username == Trim(username) && v.password == password
  {
    var trimmedUsername := Trim(username);
    if |trimmedUsername| < MinUsername then Rejected(UsernameMessage)
    else if |password| < MinPassword then Rejected(PasswordMessage)
    else Proceed(trimmedUsername, password)
  }

  /**
   * A name that passes the checks has no surrounding white space and is never
   * empty, so it always yields a storage key for the done-task map.
   */
  lemma AcceptedNameHasKey(username: string, password: string)
    requires OnContinue(username, password).Proceed?
    ensures Trimmed(OnContinue(username, password).username)
    ensures DoneStorage.GetKey(Some(OnContinue(username, password).username)).Success?
  {
    TrimShape(username);
  }

  /** The press itself: an alert leaves the app state as it was, otherwise `signIn` runs. */
  method Continue(app: AppProvider, username: string, password: string) returns (v: Verdict, outcome: Option<SignInOutcome>)
    modifies app
    ensures v == OnContinue(username, password)
    ensures v.Rejected? ==> outcome.None? && unchanged(app)
    ensures v.Proceed? ==> outcome.Some?
    ensures v.Proceed? && outcome.value != IncorrectPassword ==>
              app.currentUser != null && app.currentUser.username == Trim(username)
  {
    v := OnContinue(username, password);
    if v.Rejected? {
      return v, None;
    }
    var signedIn := app.SignIn(v.username, v.password);
    outcome := Some(signedIn);
  }
}
