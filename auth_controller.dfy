/**
 * `syncUser` (Back-end/controllers/authController.js): the front end posts
 * the signed-in Firebase user and the server upserts the matching row of the
 * users table. `Math.random()` is the parameter `random`, the value of
 * `Math.floor(Math.random() * 10000)`.
 */
module AuthController {
  import opened Wrappers
  import opened Text
  import opened UserStore

  const MissingFieldsError := "Missing required fields"
  const UsernamePrefix := "user_"

  /** The JSON body of `POST /api/auth/sync`. */
  datatype SyncRequest = SyncRequest(
    firebaseUid: Option<string>,
    email: Option<string>,
    username: Option<string>,
    profileImage: Option<string>)   // `profile_image`

  /** 400 for missing fields, 200 with the row, or 500 when the database refuses. */
  datatype SyncResponse = MissingFields | Synced(user: UserRow, created: bool) | DatabaseError

  function StatusOf(r: SyncResponse): nat
  {
    match r
    case MissingFields => 400
    case Synced(_, _) => 200
    case DatabaseError => 500
  }

  /** The username is blank: absent, empty, or white space only. */
  predicate Blank(username: Option<string>)
  {
    !Truthy(username) || Trim(username.value) == ""
  }

  /**
   * The username stored: the given one unless blank; otherwise the part of the
   * e-mail before '@', or 'user_<random>' when that part is empty.
   */
  function EffectiveUsername(username: Option<string>, email: string, random: nat): (r: string)
    ensures r != ""
    ensures !Blank(username) ==> r == username.value
    ensures Blank(username) && Before(email, '@') != "" ==> r == Before(email, '@')
    ensures Blank(username) && Before(email, '@') == "" ==>
      IsPrefix(UsernamePrefix, r) && r[|UsernamePrefix|..] == NatToString(random)
  {
    if !Blank(username) then username.value
    else if Before(email, '@') != "" then Before(email, '@')
    else UsernamePrefix + NatToString(random)
  }

  /** `profile_image || null`. */
  function ImageOrNull(image: Option<string>): (r: Option<string>)
    ensures r.Some? <==> Truthy(image)
    ensures r.Some? ==> r == image
  {
    if Truthy(image) then image else None
  }

  /**
   * The table after the request and the answer, as `syncUser` computes them.
   * The answer's `created: !user` is evaluated after `user` holds the found or
   * created row, so it is false in both cases.
   */
  function Sync(rows: map<string, UserRow>, nextId: nat, req: SyncRequest, random: nat, now: Timestamp)
    : (map<string, UserRow>, SyncResponse)
  {
    if !Truthy(req.firebaseUid) || !Truthy(req.email) then (rows, MissingFields)
    else
      var uid, email := req.firebaseUid.value, req.email.value;
      var name := Some(EffectiveUsername(req.username, email, random));
      var image := ImageOrNull(req.profileImage);
      if uid in rows then
        if EmailFree(rows, email, Some(uid)) then
          var row := rows[uid].(email := email, username := name, profileImage := image);
          (rows[uid := row], Synced(row, false))
        else (rows, DatabaseError)
      else
        var n := NewUser(uid, Some(email), name, image);
        if CanInsert(rows, n) then (rows[uid := RowOf(n, nextId, now)], Synced(RowOf(n, nextId, now), false))
        else (rows, DatabaseError)
  }

  /** The handler, step by step: validate, fall back on a username, find, then update or create. */
  method SyncUser(db: UserTable, req: SyncRequest, random: nat, now: Timestamp) returns (resp: SyncResponse)
    requires db.Valid()
    modifies db
    ensures db.Valid()
    ensures (db.rows, resp) == Sync(old(db.rows), old(db.nextId), req, random, now)
  {
    if !Truthy(req.firebaseUid) || !Truthy(req.email) {
      return MissingFields;
    }
    var uid, email := req.firebaseUid.value, req.email.value;
    var username := req.username;
    if Blank(username) {
      username := Some(EffectiveUsername(username, email, random));
    }
    var image := ImageOrNull(req.profileImage);
    var user := db.FindOne(uid);
    if user.Some? {
      user := db.UpdateAccount(uid, email, username, image);
    } else {
      user := db.Create(NewUser(uid, Some(email), username, image), now);
    }
    if user.None? {
      return DatabaseError;
    }
    resp := Synced(user.value, user.None?);
  }

  /** The request is refused with 400 exactly when the uid or the e-mail is missing or empty, and then nothing changes. */
  lemma SyncMissingFieldsIff(rows: map<string, UserRow>, nextId: nat, req: SyncRequest, random: nat, now: Timestamp)
    ensures Sync(rows, nextId, req, random, now).1 == MissingFields <==> !Truthy(req.firebaseUid) || !Truthy(req.email)
    ensures Sync(rows, nextId, req, random, now).1 != MissingFields || Sync(rows, nextId, req, random, now).0 == rows
  {
  }

  /**
   * With both fields present the database refuses (500) exactly when another
   * user already has the e-mail; otherwise the uid's row holds the request's
   * e-mail, username and image, is the row returned, and no other row changes.
   */
  lemma SyncUpserts(rows: map<string, UserRow>, nextId: nat, req: SyncRequest, random: nat, now: Timestamp)
    requires Truthy(req.firebaseUid) && Truthy(req.email)
    ensures var (rows1, resp) := Sync(rows, nextId, req, random, now);
      var uid := req.firebaseUid.value;
      && (resp == DatabaseError <==> !EmailFree(rows, req.email.value, Some(uid)))
      && (resp == DatabaseError ==> rows1 == rows)
      && (resp != DatabaseError ==>
        && resp.Synced?
        && uid in rows1 && resp.user == rows1[uid]
        && resp.user.email == req.email.value
        && resp.user.username == Some(EffectiveUsername(req.username, req.email.value, random))
        && resp.user.profileImage == ImageOrNull(req.profileImage)
        && rows1.Keys == rows.Keys + {uid}
        && (forall u :: u in rows && u != uid ==> rows1[u] == rows[u]))
  {
  }

  /** An existing user keeps its id and creation time across a sync. */
  lemma SyncKeepsIdentity(rows: map<string, UserRow>, nextId: nat, req: SyncRequest, random: nat, now: Timestamp)
    requires Truthy(req.firebaseUid) && req.firebaseUid.value in rows
    requires Sync(rows, nextId, req, random, now).1.Synced?
    ensures var user := Sync(rows, nextId, req, random, now).1.user;
      user.userId == rows[req.firebaseUid.value].userId && user.createdAt == rows[req.firebaseUid.value].createdAt
  {
  }

  /** Repeating a successful sync changes nothing more and answers the same. */
  lemma SyncIdempotent(rows: map<string, UserRow>, nextId: nat, nextId2: nat, req: SyncRequest, random: nat, now: Timestamp, now2: Timestamp)
    requires KeyedByUid(rows)
    requires Sync(rows, nextId, req, random, now).1.Synced?
    ensures var (rows1, resp1) := Sync(rows, nextId, req, random, now);
      Sync(rows1, nextId2, req, random, now2) == (rows1, resp1)
  {
    var (rows1, resp1) := Sync(rows, nextId, req, random, now);
    var uid, email := req.firebaseUid.value, req.email.value;
    forall u | u in rows1 && Some(u) != Some(uid) ensures rows1[u].email != email {
      assert u in rows && rows1[u] == rows[u];
    }
    var name := Some(EffectiveUsername(req.username, email, random));
    var image := ImageOrNull(req.profileImage);
    assert uid in rows1 && rows1[uid] == resp1.user;
    assert resp1.user.email == email && resp1.user.username == name && resp1.user.profileImage == image;
    var row := rows1[uid].(email := email, username := name, profileImage := image);
    assert row == rows1[uid];
    assert rows1[uid := row] == rows1;
  }

  /**
   * The `created` flag is false on every successful sync, including the one
   * that inserted the row.
   */
  lemma SyncCreatedAlwaysFalse(rows: map<string, UserRow>, nextId: nat, req: SyncRequest, random: nat, now: Timestamp)
    requires Sync(rows, nextId, req, random, now).1.Synced?
    ensures !Sync(rows, nextId, req, random, now).1.created
    ensures req.firebaseUid.value !in rows ==> req.firebaseUid.value in Sync(rows, nextId, req, random, now).0
  {
  }
}
