/**
 * The login page (`LoginPage`): e-mail/password or Google sign-in, then a
 * sync with the backend whose user is handed to `onAuthSuccess`. Unlike the
 * sign-up page, a failed sync here is a failed login.
 */
module LoginPage {
  import opened Wrappers
  import opened Json
  import Text
  import opened Routes
  import opened Remote
  import TokenMiddleware
  import SignupPage

  const EnterBoth := "Please enter both email and password."
  const BackendSyncFailed := "Backend sync failed"
  const LoginFailed := "Login failed."
  const GoogleFailed := "Google sign-in failed."
  const LoggedInMessage := "Logged in successfully!"
  const GoogleSignedIn := "Signed in with Google successfully!"
  const DefaultProvider := "email_password"
  /** What reading `split` of a `null` e-mail throws. */
  const NullEmailError := "Cannot read properties of null (reading 'split')"

  /**
   * `displayName || email.split('@')[0]`: `None` when there is no display
   * name and the e-mail is `null`, where the expression throws.
   */
  function LoginUsername(user: FirebaseUser): (r: Option<string>)
    ensures r.None? <==> !Text.Truthy(user.displayName) && user.email.None?
    ensures Text.Truthy(user.displayName) ==> r == user.displayName
    ensures !Text.Truthy(user.displayName) && user.email.Some? ==> r == Some(Text.Before(user.email.value, '@'))
  {
    if Text.Truthy(user.displayName) then user.displayName
    else if user.email.Some? then Some(Text.Before(user.email.value, '@'))
    else None
  }

  /** `providerData[0]?.providerId || 'email_password'`. */
  function LoginProvider(user: FirebaseUser): (r: string)
    ensures r != ""
    ensures |user.providerIds| > 0 && user.providerIds[0] != "" ==> r == user.providerIds[0]
    ensures |user.providerIds| == 0 || user.providerIds[0] == "" ==> r == DefaultProvider
  {
    if |user.providerIds| > 0 && user.providerIds[0] != "" then user.providerIds[0] else DefaultProvider
  }

  /** `photoURL || null`: an empty URL is sent as `null`. */
  function ProfileImage(user: FirebaseUser): (r: Option<string>)
    ensures r.Some? <==> Text.Truthy(user.photoURL)
    ensures r.Some? ==> r == user.photoURL
  {
    if Text.Truthy(user.photoURL) then user.photoURL else None
  }

  /** The sync request built for `user` with ID token `token`, or `None` when building it throws. */
  function LoginSyncRequest(user: FirebaseUser, token: string): (r: Option<SyncRequest>)
    ensures r.Some? <==> LoginUsername(user).Some?
    ensures r.Some? ==>
      && r.value.authorization == Bearer(token)
      && r.value.firebaseUid == user.uid && r.value.email == user.email
      && r.value.username == LoginUsername(user).value
      && r.value.profileImage == ProfileImage(user)
      && r.value.provider == LoginProvider(user)
  {
    match LoginUsername(user)
    case None => None
    case Some(name) => Some(SyncRequest(Bearer(token), user.uid, user.email, name, ProfileImage(user), LoginProvider(user)))
  }

  /**
   * `syncUserToBackend(user)`: the backend's `data.user`, or the error it
   * rethrows. The ID token is fetched first, then the body is built, then
   * the request goes out.
   */
  function Sync(user: FirebaseUser, token: Step<string>, reply: Step<Reply>): (r: Step<Option<Json>>)
    ensures r.Done? <==>
      token.Done? && LoginUsername(user).Some? && reply.Done? && reply.value.ok
    ensures r.Done? ==> r.value == Field(Some(reply.value.body), "user")
    ensures token.Done? && LoginUsername(user).Some? && reply.Done? && !reply.value.ok ==>
      r == Fails(BackendFailure(reply.value.body, BackendSyncFailed))
  {
    match token
    case Fails(f) => Fails(f)
    case Done(t) =>
      if LoginSyncRequest(user, t).None? then Fails(Failure(None, NullEmailError))
      else
        match reply
        case Fails(f) => Fails(f)
        case Done(rep) =>
          if rep.ok then Done(Field(Some(rep.body), "user"))
          else Fails(BackendFailure(rep.body, BackendSyncFailed))
  }

  /** The request the sync posts, if it gets that far. */
  function SyncSent(user: FirebaseUser, token: Step<string>): (r: Option<SyncRequest>)
    ensures r.Some? <==> token.Done? && LoginUsername(user).Some?
    ensures r.Some? ==> r == LoginSyncRequest(user, token.value)
  {
    if token.Done? then LoginSyncRequest(user, token.value) else None
  }

  /** `err.message || fallback`. */
  function ErrorText(f: Failure, fallback: string): (r: string)
    ensures f.message != "" ==> r == f.message
    ensures f.message == "" ==> r == fallback
  {
    if f.message != "" then f.message else fallback
  }

  datatype Outcome = Refused(error: string) | Failed(error: string) | LoggedIn(user: Option<Json>)

  /** `handleLogin` given the sign-in, the ID token and the backend reply. */
  function LoginFlow(email: string, password: string, signIn: Step<FirebaseUser>,
                     token: Step<string>, reply: Step<Reply>): Outcome
  {
    if email == "" || password == "" then Refused(EnterBoth)
    else
      match signIn
      case Fails(f) => Failed(ErrorText(f, LoginFailed))
      case Done(u) =>
        match Sync(u, token, reply)
        case Fails(f) => Failed(ErrorText(f, LoginFailed))
        case Done(backendUser) => LoggedIn(backendUser)
  }

  /**
   * An empty e-mail or password is refused before any sign-in; otherwise a
   * login succeeds exactly when Firebase signs the user in and the sync
   * succeeds, and the backend's user is what the page hands on.
   */
  lemma LoginOutcomes(email: string, password: string, signIn: Step<FirebaseUser>,
                      token: Step<string>, reply: Step<Reply>)
    ensures LoginFlow(email, password, signIn, token, reply).Refused? <==> email == "" || password == ""
    ensures LoginFlow(email, password, signIn, token, reply).Refused? ==>
      LoginFlow(email, password, signIn, token, reply).error == EnterBoth
    ensures LoginFlow(email, password, signIn, token, reply).LoggedIn? <==>
      email != "" && password != "" && signIn.Done? && Sync(signIn.value, token, reply).Done?
    ensures LoginFlow(email, password, signIn, token, reply).LoggedIn? ==>
      LoginFlow(email, password, signIn, token, reply).user == Field(Some(reply.value.body), "user")
    ensures LoginFlow(email, password, signIn, token, reply).Failed? ==>
      LoginFlow(email, password, signIn, token, reply).error != ""
  {
  }

  /**
   * A non-OK sync reply fails the login with the server's message, or with
   * 'Backend sync failed' when it has none.
   */
  lemma BackendRefusalFailsLogin(email: string, password: string, user: FirebaseUser, t: string, body: Json)
    requires email != "" && password != "" && LoginUsername(user).Some?
    ensures var o := LoginFlow(email, password, Done(user), Done(t), Done(Reply(false, body)));
      && o.Failed?
      && (Truthy(Field(Some(body), "message")) && Show(Field(Some(body), "message")) != "" ==>
            o.error == Show(Field(Some(body), "message")))
      && (!Truthy(Field(Some(body), "message")) ==> o.error == BackendSyncFailed)
  {
  }

  /**
   * The header the sync sends is one the backend's token guard accepts as a
   * bearer header, and the token it extracts is the page's ID token.
   */
  lemma SyncHeaderReachesGuard(user: FirebaseUser, t: string)
    requires LoginUsername(user).Some? && ' ' !in t
    ensures TokenMiddleware.TokenOf(LoginSyncRequest(user, t).value.authorization) == Some(t)
    ensures Text.StartsWith(LoginSyncRequest(user, t).value.authorization, TokenMiddleware.BearerPrefix)
  {
    TokenMiddleware.TokenOfBearer(t);
  }

  /**
   * The two pages disagree on an empty first provider id: sign-up sends it
   * as is, login replaces it with 'email_password'.
   */
  lemma ProviderChainsDiffer(user: FirebaseUser, t: string)
    requires |user.providerIds| > 0 && user.providerIds[0] == ""
    ensures SignupPage.SignInProvider(user, t) == ""
    ensures LoginProvider(user) == DefaultProvider
  {
  }

  class LoginForm {
    var email: string
    var password: string
    var error: Option<string>
    var loading: bool
    var successMessage: Option<string>

    constructor()
      ensures email == "" && password == "" && error.None? && !loading && successMessage.None?
    {
      email, password := "", "";
      error, successMessage := None, None;
      loading := false;
    }

    /**
     * `handleLogin`. Returns the sync request posted, what `onAuthSuccess`
     * received and where the page navigated. `loading` is down again on
     * every path.
     */
    method HandleLogin(signIn: Step<FirebaseUser>, token: Step<string>, reply: Step<Reply>)
      returns (sent: Option<SyncRequest>, authSuccess: Option<Option<Json>>, nav: Option<Route>)
      modifies this
      ensures var o := LoginFlow(old(email), old(password), signIn, token, reply);
        && (o.LoggedIn? ==>
              && error.None? && successMessage == Some(LoggedInMessage)
              && email == "" && password == ""
              && authSuccess == Some(o.user) && nav == Some(MusicPage))
        && (!o.LoggedIn? ==>
              && error == Some(o.error) && successMessage.None?
              && email == old(email) && password == old(password)
              && authSuccess.None? && nav.None?)
      ensures !loading
      ensures old(email) == "" || old(password) == "" || signIn.Fails? ==> sent.None?
      ensures old(email) != "" && old(password) != "" && signIn.Done? ==> sent == SyncSent(signIn.value, token)
    {
      error, successMessage := None, None;
      loading := true;
      sent, authSuccess, nav := None, None, None;
      if email == "" || password == "" {
        error := Some(EnterBoth);
        loading := false;
        return;
      }
      match signIn {
        case Fails(f) =>
          error := Some(ErrorText(f, LoginFailed));
        case Done(u) =>
          sent := SyncSent(u, token);
          match Sync(u, token, reply) {
            case Fails(f) =>
              error := Some(ErrorText(f, LoginFailed));
            case Done(backendUser) =>
              authSuccess := Some(backendUser);
              successMessage := Some(LoggedInMessage);
              email, password := "", "";
              nav := Some(MusicPage);
          }
      }
      loading := false;
    }

    /** `handleGoogleSignIn`: the same sync after a popup sign-in, with no form check. */
    method HandleGoogleSignIn(popup: Step<FirebaseUser>, token: Step<string>, reply: Step<Reply>)
      returns (sent: Option<SyncRequest>, authSuccess: Option<Option<Json>>, nav: Option<Route>)
      modifies this
      ensures popup.Fails? ==>
        && error == Some(ErrorText(popup.failure, GoogleFailed))
        && sent.None? && authSuccess.None? && nav.None? && successMessage.None?
      ensures popup.Done? ==> sent == SyncSent(popup.value, token)
      ensures popup.Done? && Sync(popup.value, token, reply).Done? ==>
        && error.None? && successMessage == Some(GoogleSignedIn)
        && authSuccess == Some(Sync(popup.value, token, reply).value) && nav == Some(MusicPage)
      ensures popup.Done? && Sync(popup.value, token, reply).Fails? ==>
        && error == Some(ErrorText(Sync(popup.value, token, reply).failure, GoogleFailed))
        && authSuccess.None? && nav.None? && successMessage.None?
      ensures !loading && email == old(email) && password == old(password)
    {
      error, successMessage := None, None;
      loading := true;
      sent, authSuccess, nav := None, None, None;
      match popup {
        case Fails(f) =>
          error := Some(ErrorText(f, GoogleFailed));
        case Done(u) =>
          sent := SyncSent(u, token);
          match Sync(u, token, reply) {
            case Fails(f) =>
              error := Some(ErrorText(f, GoogleFailed));
            case Done(backendUser) =>
              authSuccess := Some(backendUser);
              successMessage := Some(GoogleSignedIn);
              nav := Some(MusicPage);
          }
      }
      loading := false;
    }
  }
}
