/**
 * The sign-up page (`SignupPage`). It handles the e-mail/password form and
 * Google sign-in, and pushes every signed-in Firebase user to the backend.
 * The form is checked in a fixed order before anything goes over the
 * network.
 */
module SignupPage {
  import opened Wrappers
  import opened Json
  import Text
  import opened Routes
  import opened Remote

  const AllRequired := "All fields are required."
  const Mismatch := "Passwords do not match."
  const TooWeak := "Password is too weak. It must be at least 6 characters."
  const MinPasswordLength := 6
  const AlreadyRegistered := "This email is already registered. Please try logging in"
  const GoogleSuffix := " using Google Sign-in."
  const PasswordSuffix := " with your email and password."
  /** `GoogleAuthProvider.PROVIDER_ID`. */
  const GoogleProvider := "google.com"
  const PasswordProvider := "password"
  const BackendSignupFailed := "Backend signup failed."
  const SignupSucceeded := "Signed up with email/password successfully!"
  const GoogleSucceeded := "Signed up with Google successfully!"
  const UnknownUser := "unknown_user"

  // ------------------------------------------------------------ sync to backend

  /** `email?.split('@')[0]`: `undefined` when there is no e-mail. */
  function EmailName(email: Option<string>): (r: Option<string>)
    ensures r.Some? <==> email.Some?
    ensures r.Some? ==> Text.IsPrefix(r.value, email.value) && '@' !in r.value
  {
    if email.Some? then Some(Text.Before(email.value, '@')) else None
  }

  /**
   * `formUsername || displayName || email?.split('@')[0] || 'unknown_user'`:
   * the first non-empty candidate, so never empty.
   */
  function UsernameToSync(formUsername: Option<string>, user: FirebaseUser): (r: string)
    ensures r != ""
    ensures Text.Truthy(formUsername) ==> r == formUsername.value
    ensures !Text.Truthy(formUsername) && Text.Truthy(user.displayName) ==> r == user.displayName.value
    ensures !Text.Truthy(formUsername) && !Text.Truthy(user.displayName) && Text.Truthy(EmailName(user.email)) ==>
      r == EmailName(user.email).value
    ensures !Text.Truthy(formUsername) && !Text.Truthy(user.displayName) && !Text.Truthy(EmailName(user.email)) ==>
      r == UnknownUser
  {
    Text.Or(formUsername, Text.Or(user.displayName, Text.Or(EmailName(user.email), Some(UnknownUser)))).value
  }

  /**
   * The `sign_in_provider` sent: the first provider id when there is one (even
   * an empty one), else 'anonymous' for an anonymous user, else
   * 'custom_token' when the ID token is non-empty, else 'unknown'.
   */
  function SignInProvider(user: FirebaseUser, token: string): (r: string)
    ensures |user.providerIds| > 0 ==> r == user.providerIds[0]
    ensures |user.providerIds| == 0 && user.isAnonymous ==> r == "anonymous"
    ensures |user.providerIds| == 0 && !user.isAnonymous && token != "" ==> r == "custom_token"
    ensures |user.providerIds| == 0 && !user.isAnonymous && token == "" ==> r == "unknown"
  {
    if |user.providerIds| > 0 then user.providerIds[0]
    else if user.isAnonymous then "anonymous"
    else if token != "" then "custom_token"
    else "unknown"
  }

  /**
   * `syncUserToBackend(user, formUsername)`: the request it posts, or `None`
   * when `getIdToken` rejects. Every failure, including a rejected or non-OK
   * sync, is caught and only logged, so nothing else is observable.
   */
  function SyncRequestFor(user: FirebaseUser, formUsername: Option<string>, token: Step<string>): (r: Option<SyncRequest>)
    ensures r.Some? <==> token.Done?
    ensures r.Some? ==>
      && r.value.authorization == Bearer(token.value)
      && r.value.firebaseUid == user.uid && r.value.email == user.email
      && r.value.username == UsernameToSync(formUsername, user)
      && r.value.profileImage == user.photoURL
      && r.value.provider == SignInProvider(user, token.value)
  {
    match token
    case Fails(_) => None
    case Done(t) =>
      Some(SyncRequest(Bearer(t), user.uid, user.email, UsernameToSync(formUsername, user),
                       user.photoURL, SignInProvider(user, t)))
  }

  /**
   * The auth-state listener syncs without a form username, so the name sent
   * is the display name, else the e-mail's local part, else 'unknown_user'.
   */
  lemma ListenerSyncIgnoresForm(user: FirebaseUser, t: string)
    ensures SyncRequestFor(user, None, Done(t)).Some?
    ensures var req := SyncRequestFor(user, None, Done(t)).value;
      && (Text.Truthy(user.displayName) ==> req.username == user.displayName.value)
      && (!Text.Truthy(user.displayName) && user.email.Some? && Text.Before(user.email.value, '@') != "" ==>
            req.username == Text.Before(user.email.value, '@'))
      && (!Text.Truthy(user.displayName) && user.email.None? ==> req.username == UnknownUser)
  {
  }

  // ---------------------------------------------------------- e-mail sign-up

  /**
   * The form checks of `handleSignup`, in order: every field filled, the two
   * passwords equal, the password at least 6 characters long.
   */
  function Validate(email: string, password: string, confirm: string, username: string): (r: Option<string>)
    ensures r == Some(AllRequired) <==> email == "" || password == "" || confirm == "" || username == ""
    ensures r == Some(Mismatch) <==>
      email != "" && password != "" && confirm != "" && username != "" && password != confirm
    ensures r == Some(TooWeak) <==>
      email != "" && password != "" && confirm != "" && username != "" && password == confirm
      && |password| < MinPasswordLength
    ensures r.None? <==>
      email != "" && username != "" && password == confirm && |password| >= MinPasswordLength
  {
    if email == "" || password == "" || confirm == "" || username == "" then Some(AllRequired)
    else if password != confirm then Some(Mismatch)
    else if |password| < MinPasswordLength then Some(TooWeak)
    else None
  }

  /**
   * The error shown when the e-mail already has sign-in methods: the fixed
   * lead, then a hint naming Google if it is among them, else e-mail and
   * password if that is, else nothing.
   */
  function ExistingAccountMessage(signInMethods: seq<string>): (r: string)
    ensures Text.IsPrefix(AlreadyRegistered, r)
    ensures GoogleProvider in signInMethods ==> r == AlreadyRegistered + GoogleSuffix
    ensures GoogleProvider !in signInMethods && PasswordProvider in signInMethods ==> r == AlreadyRegistered + PasswordSuffix
    ensures GoogleProvider !in signInMethods && PasswordProvider !in signInMethods ==> r == AlreadyRegistered
  {
    if GoogleProvider in signInMethods then AlreadyRegistered + GoogleSuffix
    else if PasswordProvider in signInMethods then AlreadyRegistered + PasswordSuffix
    else AlreadyRegistered
  }

  /** The Firebase error codes `handleSignup` explains, with the message each gets. */
  const SignupMessages: map<string, string> := map[
    "auth/invalid-email" := "Invalid email address format.",
    "auth/email-already-in-use" := "This email is already in use. Try logging in.",
    "auth/weak-password" := TooWeak,
    "auth/network-request-failed" := "Network error. Please check your connection."]

  /** The `catch` of `handleSignup`: a known code's fixed message, else the raw message. */
  function SignupErrorMessage(f: Failure): (r: string)
    ensures f.code.Some? && f.code.value in SignupMessages ==> r == SignupMessages[f.code.value]
    ensures !(f.code.Some? && f.code.value in SignupMessages) ==> r == "Signup failed: " + f.message
  {
    if f.code.Some? && f.code.value in SignupMessages then SignupMessages[f.code.value]
    else "Signup failed: " + f.message
  }

  /**
   * A known code hides the raw message; any other failure shows it, so two
   * such failures with different messages read differently. Firebase's
   * weak-password code reads exactly like the page's own length check.
   */
  lemma SignupErrorMessageShape(f: Failure, g: Failure)
    ensures SignupErrorMessage(Failure(Some("auth/weak-password"), f.message)) == TooWeak
    ensures f.code == g.code && f.code.Some? && f.code.value in SignupMessages ==>
      SignupErrorMessage(f) == SignupErrorMessage(g)
    ensures f.code == g.code && !(f.code.Some? && f.code.value in SignupMessages) && f.message != g.message ==>
      SignupErrorMessage(f) != SignupErrorMessage(g)
  {
    if f.code == g.code && !(f.code.Some? && f.code.value in SignupMessages) && f.message != g.message {
      var p := "Signup failed: ";
      assert SignupErrorMessage(f)[|p|..] == f.message;
      assert SignupErrorMessage(g)[|p|..] == g.message;
    }
  }

  /** The body of `POST /api/auth/signup`. */
  datatype SignupRequest = SignupRequest(email: string, username: string, firebaseUid: string, provider: string)

  /** How one submission ends. */
  datatype Outcome =
    | Refused(error: string)  // a form check failed; nothing was awaited
    | Failed(error: string)   // stopped after the loading flag went up
    | SignedUp(token: Option<Json>, user: Option<Json>)  // the backend's `{ token, user }`

  /**
   * `handleSignup` given what each awaited call settles to: the sign-in
   * methods already on the e-mail, the created account (after its display
   * name is set) and the backend's reply.
   */
  function SignupFlow(email: string, password: string, confirm: string, username: string,
                      signInMethods: Step<seq<string>>, account: Step<FirebaseUser>, reply: Step<Reply>): Outcome
  {
    if Validate(email, password, confirm, username).Some? then
      Refused(Validate(email, password, confirm, username).value)
    else
      match signInMethods
      case Fails(f) => Failed(SignupErrorMessage(f))
      case Done(ms) =>
        if |ms| > 0 then Failed(ExistingAccountMessage(ms))
        else
          match account
          case Fails(f) => Failed(SignupErrorMessage(f))
          case Done(_) =>
            match reply
            case Fails(f) => Failed(SignupErrorMessage(f))
            case Done(rep) =>
              if !rep.ok then Failed(SignupErrorMessage(BackendFailure(rep.body, BackendSignupFailed)))
              else SignedUp(Field(Some(rep.body), "token"), Field(Some(rep.body), "user"))
  }

  /** The sign-up request, sent only once the form passed, the e-mail was free and the account exists. */
  function SignupSent(email: string, password: string, confirm: string, username: string,
                      signInMethods: Step<seq<string>>, account: Step<FirebaseUser>): (r: Option<SignupRequest>)
    ensures r.Some? <==> Validate(email, password, confirm, username).None? && signInMethods == Done([]) && account.Done?
    ensures r.Some? ==> r.value == SignupRequest(email, username, account.value.uid, "email_password")
  {
    if Validate(email, password, confirm, username).None? && signInMethods == Done([]) && account.Done? then
      Some(SignupRequest(email, username, account.value.uid, "email_password"))
    else None
  }

  /** A form that fails a check is refused with that check's message, whatever the services would answer. */
  lemma RefusedBeforeAnyCall(email: string, password: string, confirm: string, username: string,
                             signInMethods: Step<seq<string>>, account: Step<FirebaseUser>, reply: Step<Reply>)
    ensures Validate(email, password, confirm, username).Some? <==>
      SignupFlow(email, password, confirm, username, signInMethods, account, reply).Refused?
    ensures Validate(email, password, confirm, username).Some? ==>
      && SignupFlow(email, password, confirm, username, signInMethods, account, reply).error
           == Validate(email, password, confirm, username).value
      && SignupSent(email, password, confirm, username, signInMethods, account).None?
  {
  }

  /**
   * A sign-up succeeds exactly when the form passes, the e-mail has no
   * sign-in method yet, the account is created and the backend answers OK;
   * the request it sends carries the form's e-mail and username.
   */
  lemma SignedUpIff(email: string, password: string, confirm: string, username: string,
                    signInMethods: Step<seq<string>>, account: Step<FirebaseUser>, reply: Step<Reply>)
    ensures SignupFlow(email, password, confirm, username, signInMethods, account, reply).SignedUp? <==>
      && Validate(email, password, confirm, username).None?
      && signInMethods == Done([]) && account.Done? && reply.Done? && reply.value.ok
    ensures SignupFlow(email, password, confirm, username, signInMethods, account, reply).SignedUp? ==>
      SignupSent(email, password, confirm, username, signInMethods, account)
        == Some(SignupRequest(email, username, account.value.uid, "email_password"))
  {
    if signInMethods.Done? && |signInMethods.value| == 0 {
      assert signInMethods.value == [];
    }
  }

  /** An e-mail that already has a sign-in method never reaches account creation. */
  lemma ExistingEmailBlocks(email: string, password: string, confirm: string, username: string,
                            ms: seq<string>, account: Step<FirebaseUser>, reply: Step<Reply>)
    requires Validate(email, password, confirm, username).None? && |ms| > 0
    ensures SignupFlow(email, password, confirm, username, Done(ms), account, reply) == Failed(ExistingAccountMessage(ms))
    ensures SignupSent(email, password, confirm, username, Done(ms), account).None?
  {
  }

  /** A non-OK backend reply shows its message behind 'Signup failed: ', or the fallback. */
  lemma BackendRefusalMessage(email: string, password: string, confirm: string, username: string,
                              account: FirebaseUser, body: Json)
    requires Validate(email, password, confirm, username).None?
    ensures var o := SignupFlow(email, password, confirm, username, Done([]), Done(account), Done(Reply(false, body)));
      && o.Failed?
      && (Truthy(Field(Some(body), "message")) ==> o.error == "Signup failed: " + Show(Field(Some(body), "message")))
      && (!Truthy(Field(Some(body), "message")) ==> o.error == "Signup failed: " + BackendSignupFailed)
  {
  }

  // --------------------------------------------------------- Google sign-up

  /** The Firebase error codes `handleGoogleSignIn` explains, with the message each gets. */
  const GoogleMessages: map<string, string> := map[
    "auth/popup-closed-by-user" := "Google Sign-in popup closed.",
    "auth/cancelled-popup-request" := "Google Sign-in popup was cancelled.",
    "auth/operation-not-allowed" := "Google Sign-in is not enabled in your Firebase project.",
    "auth/network-request-failed" := "Network error during Google Sign-in.",
    "auth/account-exists-with-different-credential" := "This email is already registered with a different method."]

  /** The `catch` of `handleGoogleSignIn`: a known code's fixed message, else the raw message. */
  function GoogleErrorMessage(f: Failure): (r: string)
    ensures f.code.Some? && f.code.value in GoogleMessages ==> r == GoogleMessages[f.code.value]
    ensures !(f.code.Some? && f.code.value in GoogleMessages) ==> r == "Google Sign-in failed: " + f.message
  {
    if f.code.Some? && f.code.value in GoogleMessages then GoogleMessages[f.code.value]
    else "Google Sign-in failed: " + f.message
  }

  /**
   * A closed popup reads the same whatever Firebase's message says, and the
   * network failure the two handlers share is worded differently by each.
   */
  lemma GoogleErrorMessageShape(m: string)
    ensures GoogleErrorMessage(Failure(Some("auth/popup-closed-by-user"), m)) == "Google Sign-in popup closed."
    ensures GoogleErrorMessage(Failure(Some("auth/network-request-failed"), m))
      != SignupErrorMessage(Failure(Some("auth/network-request-failed"), m))
    ensures GoogleErrorMessage(Failure(None, m)) == "Google Sign-in failed: " + m
  {
  }

  // -------------------------------------------------------------- page state

  class SignupForm {
    var email: string
    var password: string
    var confirmPassword: string
    var username: string
    var error: Option<string>
    var successMessage: Option<string>
    var loading: bool
    var googleLoading: bool
    /** The Firebase user the auth-state listener last reported. */
    var user: Option<FirebaseUser>

    constructor()
      ensures email == "" && password == "" && confirmPassword == "" && username == ""
      ensures error.None? && successMessage.None? && !loading && !googleLoading && user.None?
    {
      email, password, confirmPassword, username := "", "", "", "";
      error, successMessage := None, None;
      loading, googleLoading := false, false;
      user := None;
    }

    /**
     * The `onAuthStateChanged` listener: it records the user and, for a
     * signed-in one, hands the Firebase user itself to `onAuthSuccess` and
     * syncs it with no form username.
     */
    method OnAuthStateChanged(current: Option<FirebaseUser>, token: Step<string>)
      returns (authSuccess: Option<FirebaseUser>, sent: Option<SyncRequest>)
      modifies this
      ensures user == current
      ensures authSuccess == current
      ensures current.None? ==> sent.None?
      ensures current.Some? ==> sent == SyncRequestFor(current.value, None, token)
      ensures email == old(email) && password == old(password) && confirmPassword == old(confirmPassword)
      ensures username == old(username) && error == old(error) && successMessage == old(successMessage)
      ensures loading == old(loading) && googleLoading == old(googleLoading)
    {
      user := current;
      authSuccess := current;
      sent := None;
      if current.Some? {
        sent := SyncRequestFor(current.value, None, token);
      }
    }

    /**
     * `handleSignup`. Returns the sign-up request posted, the value written
     * to `localStorage.authToken` (`setItem` stores `String(token)`), what
     * `onAuthSuccess` received and where the page navigated.
     */
    method HandleSignup(signInMethods: Step<seq<string>>, account: Step<FirebaseUser>, reply: Step<Reply>)
      returns (sent: Option<SignupRequest>, stored: Option<string>, authSuccess: Option<Option<Json>>, nav: Option<Route>)
      modifies this
      ensures sent == SignupSent(old(email), old(password), old(confirmPassword), old(username), signInMethods, account)
      ensures var o := SignupFlow(old(email), old(password), old(confirmPassword), old(username), signInMethods, account, reply);
        o.SignedUp? ==>
          && error.None? && successMessage == Some(SignupSucceeded) && !loading
          && email == "" && password == "" && confirmPassword == "" && username == ""
          && stored == Some(Show(o.token)) && authSuccess == Some(o.user) && nav == Some(MusicPage)
      ensures var o := SignupFlow(old(email), old(password), old(confirmPassword), old(username), signInMethods, account, reply);
        !o.SignedUp? ==>
          && error == Some(o.error) && successMessage.None?
          && email == old(email) && password == old(password)
          && confirmPassword == old(confirmPassword) && username == old(username)
          && stored.None? && authSuccess.None? && nav.None?
      ensures var o := SignupFlow(old(email), old(password), old(confirmPassword), old(username), signInMethods, account, reply);
        (o.Refused? ==> loading == old(loading)) && (o.Failed? ==> !loading)
      ensures googleLoading == old(googleLoading) && user == old(user)
    {
      error, successMessage := None, None;
      sent, stored, authSuccess, nav := None, None, None, None;
      sent := SignupSent(email, password, confirmPassword, username, signInMethods, account);
      var outcome := SignupFlow(email, password, confirmPassword, username, signInMethods, account, reply);
      match outcome {
        case Refused(e) =>
          error := Some(e);
        case Failed(e) =>
          loading := true;
          error := Some(e);
          loading := false;
        case SignedUp(token, backendUser) =>
          loading := true;
          stored := Some(Show(token));
          authSuccess := Some(backendUser);
          email, password, confirmPassword, username := "", "", "", "";
          successMessage := Some(SignupSucceeded);
          nav := Some(MusicPage);
          loading := false;
      }
    }

    /**
     * `handleGoogleSignIn`: once the popup yields a user, the sync runs (and
     * swallows its own failures) and the page always goes on to /music.
     */
    method HandleGoogleSignIn(popup: Step<FirebaseUser>, token: Step<string>)
      returns (sent: Option<SyncRequest>, nav: Option<Route>)
      modifies this
      ensures popup.Done? ==>
        && sent == SyncRequestFor(popup.value, None, token)
        && error.None? && successMessage == Some(GoogleSucceeded) && nav == Some(MusicPage)
      ensures popup.Fails? ==>
        && sent.None? && nav.None?
        && error == Some(GoogleErrorMessage(popup.failure)) && successMessage.None?
      ensures !googleLoading && loading == old(loading) && user == old(user)
      ensures email == old(email) && password == old(password)
      ensures confirmPassword == old(confirmPassword) && username == old(username)
    {
      error, successMessage := None, None;
      googleLoading := true;
      sent, nav := None, None;
      match popup {
        case Fails(f) =>
          error := Some(GoogleErrorMessage(f));
        case Done(u) =>
          sent := SyncRequestFor(u, None, token);
          successMessage := Some(GoogleSucceeded);
          nav := Some(MusicPage);
      }
      googleLoading := false;
    }
  }
}
