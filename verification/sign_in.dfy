/** The sign-in handler of SignInButton.tsx: which attempt is made, and the
    message a failure is shown with. The pop-up and the demo sign-in are
    outside the model; their outcome is a parameter. */
module SignIn {
  import opened Common

  /** A thrown error: an optional `code` and the `message`. */
  datatype AuthError = AuthError(code: Option<string>, message: string)

  const DefaultMessage := "Failed to sign in. Please try again."
  const CancelledMessage := "Sign-in was cancelled. Please try again."
  const BlockedMessage := "Pop-up was blocked. Please allow pop-ups and try again."
  const NetworkMessage := "Network error. Please check your connection and try again."
  const TooManyMessage := "Too many attempts. Please wait a moment and try again."
  const NotConfiguredMessage := "Authentication service is not configured. Please check your Firebase settings."

  /** The message thrown when Firebase is missing. */
  const NotConfiguredError := "Firebase is not properly configured"

  /** The catch block's choice of message: the listed codes first, in
      order, then the configuration message, then the default. */
  function SignInMessage(e: AuthError): (m: string)
    ensures e.code == Some("auth/popup-closed-by-user") ==> m == CancelledMessage
    ensures e.code == Some("auth/popup-blocked") ==> m == BlockedMessage
    ensures e.code == Some("auth/network-request-failed") ==> m == NetworkMessage
    ensures e.code == Some("auth/too-many-requests") ==> m == TooManyMessage
  {
    if e.code == Some("auth/popup-closed-by-user") then CancelledMessage
    else if e.code == Some("auth/popup-blocked") then BlockedMessage
    else if e.code == Some("auth/network-request-failed") then NetworkMessage
    else if e.code == Some("auth/too-many-requests") then TooManyMessage
    else if e.message == NotConfiguredError then NotConfiguredMessage
    else DefaultMessage
  }

  /** One of the four listed codes decides the message whatever the error's
      text; otherwise the configuration text gives its own message and any
      other error the default one. */
  predicate ListedCode(code: Option<string>) {
    code == Some("auth/popup-closed-by-user") || code == Some("auth/popup-blocked") ||
    code == Some("auth/network-request-failed") || code == Some("auth/too-many-requests")
  }

  lemma MessagePrecedence(e: AuthError, other: string)
    ensures ListedCode(e.code) ==> SignInMessage(e) == SignInMessage(e.(message := other))
    ensures !ListedCode(e.code) ==>
      (SignInMessage(e) == NotConfiguredMessage <==> e.message == NotConfiguredError)
    ensures !ListedCode(e.code) && e.message != NotConfiguredError ==> SignInMessage(e) == DefaultMessage
  {
  }

  /** The state once the attempt has settled: loading is over and the error
      text is empty on success. */
  datatype SignInState = SignInState(loading: bool, error: string)

  /** `handleSignIn`: in demo mode the demo sign-in is tried; otherwise a
      missing auth instance or provider raises the configuration error before
      any pop-up, and the pop-up's outcome decides. */
  function HandleSignIn(demoMode: bool, authReady: bool, outcome: Option<AuthError>): (r: SignInState)
    ensures !r.loading
    ensures r.error == "" <==> outcome.None? && (demoMode || authReady)
    ensures !demoMode && !authReady ==> r.error == NotConfiguredMessage
  {
    var failure :=
      if demoMode then outcome
      else if !authReady then Some(AuthError(None, NotConfiguredError))
      else outcome;
    match failure
    case None => SignInState(false, "")
    case Some(e) => SignInState(false, SignInMessage(e))
  }
}
