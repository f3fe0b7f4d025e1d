/**
 * The route guard that authenticates API requests with a Firebase ID token
 * (Back-end/middlewares/verifyFirebaseToken.js). Token verification by the
 * Firebase Admin SDK is a parameter: `verify(token)` is the decoded token, or
 * `None` when verification rejects it.
 */
module TokenMiddleware {
  import opened Wrappers
  import opened Text

  const BearerPrefix := "Bearer "
  const MissingHeaderError := "Missing or invalid Authorization header"
  const InvalidTokenError := "Invalid or expired token"

  /** The claims of a verified ID token that the guard reads. */
  datatype DecodedToken = DecodedToken(
    uid: string,
    email: Option<string>,
    name: Option<string>,
    picture: Option<string>,
    signInProvider: Option<string>)   // `firebase.sign_in_provider`

  /** What the guard attaches to the request as `req.user`. */
  datatype AuthUser = AuthUser(
    uid: string,
    email: Option<string>,
    name: Option<string>,
    picture: Option<string>,
    signInProvider: string)

  /** Either the request continues (`next()`) with a user, or it is answered 401. */
  datatype Outcome = Continue(user: AuthUser) | Unauthorized(error: string)

  /** `authHeader.split(' ')[1]`: the token is the second space-separated field. */
  function TokenOf(header: string): Option<string>
  {
    SecondField(header, " ")
  }

  /** `req.user` built from a decoded token; the provider defaults to 'unknown'. */
  function UserOf(t: DecodedToken): (u: AuthUser)
    ensures u.uid == t.uid && u.email == t.email && u.name == t.name && u.picture == t.picture
    ensures Truthy(t.signInProvider) ==> u.signInProvider == t.signInProvider.value
    ensures !Truthy(t.signInProvider) ==> u.signInProvider == "unknown"
  {
    AuthUser(t.uid, t.email, t.name, t.picture, Or(t.signInProvider, Some("unknown")).value)
  }

  /** The guard's decision for an `Authorization` header value. */
  function Authenticate(header: Option<string>, verify: string -> Option<DecodedToken>): Outcome
  {
    if header.None? || !StartsWith(header.value, BearerPrefix) then Unauthorized(MissingHeaderError)
    else
      match TokenOf(header.value)
      case None => Unauthorized(InvalidTokenError)
      case Some(token) =>
        match verify(token)
        case None => Unauthorized(InvalidTokenError)
        case Some(decoded) => Continue(UserOf(decoded))
  }

  /**
   * The request continues exactly when the header starts with 'Bearer ' (case
   * sensitive) and its second space-separated field verifies; the user it
   * carries is built from that token's claims. Every other request gets 401.
   */
  lemma AuthenticateIff(header: Option<string>, verify: string -> Option<DecodedToken>)
    ensures Authenticate(header, verify).Continue? <==>
      && header.Some? && StartsWith(header.value, BearerPrefix)
      && TokenOf(header.value).Some? && verify(TokenOf(header.value).value).Some?
    ensures Authenticate(header, verify).Continue? ==>
      Authenticate(header, verify).user == UserOf(verify(TokenOf(header.value).value).value)
    ensures header.None? || !StartsWith(header.value, BearerPrefix) ==>
      Authenticate(header, verify) == Unauthorized(MissingHeaderError)
  {
  }

  /** For 'Bearer <t>' with no space inside `t`, the token handed to the verifier is `t`. */
  lemma {:induction false} TokenOfBearer(t: string)
    requires ' ' !in t
    ensures StartsWith(BearerPrefix + t, BearerPrefix)
    ensures TokenOf(BearerPrefix + t) == Some(t)
  {
    var h := BearerPrefix + t;
    assert h[..|BearerPrefix|] == BearerPrefix;
    assert IsPrefix("Bearer", h) by { assert h[..6] == "Bearer"; }
    assert IndexOf(h, " ") == Some(6) by {
      forall j | 0 <= j < 6 ensures !IsPrefix(" ", h[j..]) {
        assert h[j..][0] == h[j] == BearerPrefix[j];
      }
      assert IsPrefix(" ", h[6..]);
      IndexOfFirst(h, " ", 6);
    }
    assert h[7..] == t;
    NoOccurrence(t, ' ');
  }

  /** The first position where `pat` occurs is the one `IndexOf` reports. */
  lemma {:induction false} IndexOfFirst(s: string, pat: string, k: nat)
    requires k + |pat| <= |s| && IsPrefix(pat, s[k..])
    requires forall j :: 0 <= j < k ==> !IsPrefix(pat, s[j..])
    ensures IndexOf(s, pat) == Some(k)
    decreases k
  {
    if k > 0 {
      assert !IsPrefix(pat, s[0..]) && s[0..] == s;
      forall j | 0 <= j < k - 1 ensures !IsPrefix(pat, s[1..][j..]) {
        assert s[1..][j..] == s[j + 1..];
      }
      assert s[1..][k - 1..] == s[k..];
      IndexOfFirst(s[1..], pat, k - 1);
    } else {
      assert s[0..] == s;
    }
  }

  /** A string without the character `c` does not contain the one-character string [c]. */
  lemma {:induction false} NoOccurrence(t: string, c: char)
    requires c !in t
    ensures IndexOf(t, [c]).None?
    decreases |t|
  {
    if t != [] {
      assert t[0] != c;
      NoOccurrence(t[1..], c);
    }
  }

  /** The request and response objects as the guard sees them, plus the number of `next()` calls. */
  class Exchange {
    var user: Option<AuthUser>     // req.user
    var status: Option<int>        // the status sent, if any
    var error: Option<string>      // the JSON error sent, if any
    var nextCalls: nat

    constructor ()
      ensures user == None && status == None && error == None && nextCalls == 0
    {
      user, status, error, nextCalls := None, None, None, 0;
    }
  }

  /**
   * `verifyFirebaseToken(req, res, next)`: on success sets `req.user` and calls
   * `next` once without answering; otherwise answers 401 and never calls `next`.
   */
  method VerifyFirebaseToken(ex: Exchange, header: Option<string>, verify: string -> Option<DecodedToken>)
    modifies ex
    ensures Authenticate(header, verify).Continue? ==>
      && ex.user == Some(Authenticate(header, verify).user)
      && ex.nextCalls == old(ex.nextCalls) + 1
      && ex.status == old(ex.status) && ex.error == old(ex.error)
    ensures Authenticate(header, verify).Unauthorized? ==>
      && ex.status == Some(401) && ex.error == Some(Authenticate(header, verify).error)
      && ex.user == old(ex.user) && ex.nextCalls == old(ex.nextCalls)
  {
    if header.None? || !StartsWith(header.value, BearerPrefix) {
      ex.status, ex.error := Some(401), Some(MissingHeaderError);
      return;
    }
    var token := TokenOf(header.value);
    var decoded := if token.Some? then verify(token.value) else None;
    if decoded.Some? {
      ex.user := Some(UserOf(decoded.value));
      ex.nextCalls := ex.nextCalls + 1;
    } else {
      ex.status, ex.error := Some(401), Some(InvalidTokenError);
    }
  }
}
