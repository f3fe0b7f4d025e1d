/**
 * `signup` (Back-end/controllers/signupController.js): registers the row of
 * a user just created in Firebase. The Firebase Admin lookup
 * `admin.auth().getUser(uid)` is the parameter `getUser`, `None` when no such
 * account exists (the SDK throws).
 */
module SignupController {
  import opened Wrappers
  import opened Text
  import opened UserStore

  const MissingFieldsMessage := "Missing required fields"
  const CreatedMessage := "User created successfully"
  const ExistsMessage := "User already exists"

  /** The JSON body of `POST /api/signup`. */
  datatype SignupRequest = SignupRequest(
    email: Option<string>,
    username: Option<string>,
    firebaseUid: Option<string>,
    signInProvider: Option<string>)   // `sign_in_provider`

  /** The Firebase account record the handler reads. */
  datatype FirebaseRecord = FirebaseRecord(uid: string, photoUrl: Option<string>)

  /** 400, 201 with the row (found or created), or 500 for a failed lookup or insert. */
  datatype SignupResponse = MissingFields | Registered(user: UserRow, created: bool) | ServerError

  function StatusOf(r: SignupResponse): nat
  {
    match r
    case MissingFields => 400
    case Registered(_, _) => 201
    case ServerError => 500
  }

  /** The `message` of the answer; a server error carries the thrown error's own text. */
  function MessageOf(r: SignupResponse): Option<string>
  {
    match r
    case MissingFields => Some(MissingFieldsMessage)
    case Registered(_, created) => Some(if created then CreatedMessage else ExistsMessage)
    case ServerError => None
  }

  /** The `defaults` of the find-or-create: the request's e-mail and username, Firebase's photo or null. */
  function Defaults(uid: string, req: SignupRequest, rec: FirebaseRecord): (n: NewUser)
    ensures n.firebaseUid == uid && n.email == req.email && n.username == req.username
    ensures n.profileImage.Some? <==> Truthy(rec.photoUrl)
    ensures n.profileImage.Some? ==> n.profileImage == rec.photoUrl
  {
    NewUser(uid, req.email, req.username, if Truthy(rec.photoUrl) then rec.photoUrl else None)
  }

  /** The table after the request and the answer. */
  function Signup(rows: map<string, UserRow>, nextId: nat, req: SignupRequest,
                  getUser: string -> Option<FirebaseRecord>, now: Timestamp)
    : (map<string, UserRow>, SignupResponse)
  {
    if !Truthy(req.firebaseUid) || !Truthy(req.email) || !Truthy(req.username) then (rows, MissingFields)
    else
      var uid := req.firebaseUid.value;
      match getUser(uid)
      case None => (rows, ServerError)
      case Some(rec) =>
        var (rows1, user, created) := FindOrCreate(rows, Defaults(uid, req, rec), nextId, now);
        if user.None? then (rows, ServerError) else (rows1, Registered(user.value, created))
  }

  /** The handler, step by step. */
  method HandleSignup(db: UserTable, req: SignupRequest, getUser: string -> Option<FirebaseRecord>, now: Timestamp)
    returns (resp: SignupResponse)
    requires db.Valid()
    modifies db
    ensures db.Valid()
    ensures (db.rows, resp) == Signup(old(db.rows), old(db.nextId), req, getUser, now)
  {
    if !Truthy(req.firebaseUid) || !Truthy(req.email) || !Truthy(req.username) {
      return MissingFields;
    }
    var uid := req.firebaseUid.value;
    var rec := getUser(uid);
    if rec.None? {
      return ServerError;
    }
    var user, created := db.FindOrCreateByUid(Defaults(uid, req, rec.value), now);
    if user.None? {
      return ServerError;
    }
    resp := Registered(user.value, created);
  }

  /**
   * 400 exactly when the uid, e-mail or username is missing or empty; 500
   * when Firebase has no such account or the e-mail belongs to another row; in
   * every refusal the table is unchanged.
   */
  lemma SignupRefusals(rows: map<string, UserRow>, nextId: nat, req: SignupRequest,
                       getUser: string -> Option<FirebaseRecord>, now: Timestamp)
    ensures var (rows1, resp) := Signup(rows, nextId, req, getUser, now);
      && (resp == MissingFields <==> !Truthy(req.firebaseUid) || !Truthy(req.email) || !Truthy(req.username))
      && (!resp.Registered? ==> rows1 == rows)
      && (resp != MissingFields && getUser(req.firebaseUid.value).None? ==> resp == ServerError)
  {
  }

  /**
   * A known uid is answered 201 'User already exists' with its stored row, and
   * nothing is written even when the request's e-mail or username differ.
   */
  lemma SignupExistingUser(rows: map<string, UserRow>, nextId: nat, req: SignupRequest,
                           getUser: string -> Option<FirebaseRecord>, now: Timestamp)
    requires Truthy(req.firebaseUid) && Truthy(req.email) && Truthy(req.username)
    requires getUser(req.firebaseUid.value).Some?
    requires req.firebaseUid.value in rows
    ensures Signup(rows, nextId, req, getUser, now) == (rows, Registered(rows[req.firebaseUid.value], false))
    ensures MessageOf(Signup(rows, nextId, req, getUser, now).1) == Some(ExistsMessage)
  {
  }

  /**
   * A new uid whose e-mail is free gets a row with the request's e-mail and
   * username and Firebase's photo, answered 201 'User created successfully'.
   */
  lemma SignupNewUser(rows: map<string, UserRow>, nextId: nat, req: SignupRequest,
                      getUser: string -> Option<FirebaseRecord>, now: Timestamp)
    requires Truthy(req.firebaseUid) && Truthy(req.email) && Truthy(req.username)
    requires getUser(req.firebaseUid.value).Some?
    requires req.firebaseUid.value !in rows && EmailFree(rows, req.email.value, None)
    ensures var (rows1, resp) := Signup(rows, nextId, req, getUser, now);
      && resp.Registered? && resp.created
      && MessageOf(resp) == Some(CreatedMessage)
      && rows1 == rows[req.firebaseUid.value := resp.user]
      && resp.user.email == req.email.value && resp.user.username == req.username
      && resp.user.profileImage == Defaults(req.firebaseUid.value, req, getUser(req.firebaseUid.value).value).profileImage
  {
  }

  /** Signing up twice: the second request finds the first one's row and changes nothing. */
  lemma SignupTwice(rows: map<string, UserRow>, nextId: nat, nextId2: nat, req: SignupRequest,
                    getUser: string -> Option<FirebaseRecord>, now: Timestamp, now2: Timestamp)
    requires Signup(rows, nextId, req, getUser, now).1.Registered?
    ensures var (rows1, resp1) := Signup(rows, nextId, req, getUser, now);
      Signup(rows1, nextId2, req, getUser, now2) == (rows1, resp1.(created := false))
  {
    var uid := req.firebaseUid.value;
    var rec := getUser(uid).value;
    FindOrCreateIdempotent(rows, Defaults(uid, req, rec), Defaults(uid, req, rec), nextId, nextId2, now, now2);
  }
}
