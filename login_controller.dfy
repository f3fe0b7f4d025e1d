/**
 * `login` (Back-end/controllers/loginController.js): verifies the Firebase ID
 * token of the `Authorization` header and finds or creates the caller's row.
 * Token verification is the parameter `verify` (`None` when the Admin SDK
 * rejects the token).
 */
module LoginController {
  import opened Wrappers
  import opened Text
  import opened UserStore
  import TokenMiddleware

  type DecodedToken = TokenMiddleware.DecodedToken

  const NoTokenError := "No ID token provided"
  const InvalidTokenError := "Invalid or expired ID token"
  const BearerSeparator := "Bearer "

  /** 401 without a token, 401 for any later failure, or 200 with the row. */
  datatype LoginResponse = NoToken | InvalidToken | LoggedIn(user: UserRow)

  function StatusOf(r: LoginResponse): nat
  {
    if r.LoggedIn? then 200 else 401
  }

  function ErrorOf(r: LoginResponse): Option<string>
  {
    match r
    case NoToken => Some(NoTokenError)
    case InvalidToken => Some(InvalidTokenError)
    case LoggedIn(_) => None
  }

  /** `authorization?.split('Bearer ')[1]`. */
  function IdToken(authorization: Option<string>): Option<string>
  {
    if authorization.None? then None else SecondField(authorization.value, BearerSeparator)
  }

  /** 'Bearer <t>' yields `t` whenever `t` does not itself contain 'Bearer '. */
  lemma IdTokenOfBearer(t: string)
    requires !Contains(t, BearerSeparator)
    ensures IdToken(Some(BearerSeparator + t)) == Some(t)
  {
    SecondFieldAfterPrefix(BearerSeparator, t);
  }

  /** A header without 'Bearer ' (or no header at all) yields no token. */
  lemma IdTokenNeedsBearer(authorization: Option<string>)
    ensures IdToken(authorization).Some? <==> authorization.Some? && Contains(authorization.value, BearerSeparator)
  {
  }

  /**
   * The `defaults` of the find-or-create: the token's e-mail, its name or else
   * its e-mail as username, its picture or null. The provider the handler
   * also passes is not a column of the users table.
   */
  function Defaults(d: DecodedToken): (n: NewUser)
    ensures n.firebaseUid == d.uid && n.email == d.email
    ensures n.username == if Truthy(d.name) then d.name else d.email
    ensures n.profileImage.Some? <==> Truthy(d.picture)
    ensures n.profileImage.Some? ==> n.profileImage == d.picture
  {
    NewUser(d.uid, d.email, Or(d.name, d.email), if Truthy(d.picture) then d.picture else None)
  }

  /** The table after the request and the answer. */
  function Login(rows: map<string, UserRow>, nextId: nat, authorization: Option<string>,
                 verify: string -> Option<DecodedToken>, now: Timestamp)
    : (map<string, UserRow>, LoginResponse)
  {
    var token := IdToken(authorization);
    if !Truthy(token) then (rows, NoToken)
    else
      match verify(token.value)
      case None => (rows, InvalidToken)
      case Some(d) =>
        var (rows1, user, _) := FindOrCreate(rows, Defaults(d), nextId, now);
        if user.None? then (rows, InvalidToken) else (rows1, LoggedIn(user.value))
  }

  /** The handler, step by step. */
  method HandleLogin(db: UserTable, authorization: Option<string>, verify: string -> Option<DecodedToken>, now: Timestamp)
    returns (resp: LoginResponse)
    requires db.Valid()
    modifies db
    ensures db.Valid()
    ensures (db.rows, resp) == Login(old(db.rows), old(db.nextId), authorization, verify, now)
  {
    var token := IdToken(authorization);
    if !Truthy(token) {
      return NoToken;
    }
    var decoded := verify(token.value);
    if decoded.None? {
      return InvalidToken;
    }
    var user, _ := db.FindOrCreateByUid(Defaults(decoded.value), now);
    if user.None? {
      return InvalidToken;
    }
    resp := LoggedIn(user.value);
  }

  /**
   * 'No ID token provided' exactly when the header has no non-empty text
   * after 'Bearer '; a rejected token or a refused insert is answered
   * 'Invalid or expired ID token'; no refusal writes to the table.
   */
  lemma LoginRefusals(rows: map<string, UserRow>, nextId: nat, authorization: Option<string>,
                      verify: string -> Option<DecodedToken>, now: Timestamp)
    ensures var (rows1, resp) := Login(rows, nextId, authorization, verify, now);
      && (resp == NoToken <==> !Truthy(IdToken(authorization)))
      && (Truthy(IdToken(authorization)) && verify(IdToken(authorization).value).None? ==> resp == InvalidToken)
      && (!resp.LoggedIn? ==> rows1 == rows)
  {
  }

  /**
   * A successful login returns the row of the token's uid: the stored row,
   * untouched, for a known uid, or a new row built from the token's claims.
   */
  lemma LoginReturnsCallersRow(rows: map<string, UserRow>, nextId: nat, authorization: Option<string>,
                               verify: string -> Option<DecodedToken>, now: Timestamp)
    requires KeyedByUid(rows)
    requires Login(rows, nextId, authorization, verify, now).1.LoggedIn?
    ensures var (rows1, resp) := Login(rows, nextId, authorization, verify, now);
      var d := verify(IdToken(authorization).value).value;
      && resp.user.firebaseUid == d.uid
      && rows1.Keys == rows.Keys + {d.uid} && rows1[d.uid] == resp.user
      && (d.uid in rows ==> rows1 == rows && resp.user == rows[d.uid])
      && (d.uid !in rows ==> resp.user == RowOf(Defaults(d), nextId, now))
  {
  }

  /** A token without an e-mail claim logs in a known user but cannot create a new one. */
  lemma LoginWithoutEmail(rows: map<string, UserRow>, nextId: nat, authorization: Option<string>,
                          verify: string -> Option<DecodedToken>, now: Timestamp)
    requires Truthy(IdToken(authorization))
    requires verify(IdToken(authorization).value).Some?
    requires verify(IdToken(authorization).value).value.email.None?
    ensures Login(rows, nextId, authorization, verify, now).1.LoggedIn? <==>
      verify(IdToken(authorization).value).value.uid in rows
  {
  }
}
