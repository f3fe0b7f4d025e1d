/**
 * `getProfile` and `updateProfile` (Back-end/controllers/profileController.js):
 * read, create on first visit, and update the caller's row, with profile
 * pictures sent as base64 data URLs and uploaded to cloud storage. The route
 * guard's `req.user` is an `Option<AuthUser>`; `uuid` stands for `uuidv4()`
 * and `upload(path)` for saving the object at `path` and taking its public
 * URL (`None` when the save fails).
 */
module ProfileController {
  import opened Wrappers
  import opened Text
  import opened UserStore
  import TokenMiddleware

  type AuthUser = TokenMiddleware.AuthUser

  const UnauthorizedError := "Unauthorized: User not found or invalid token."
  const FetchFailedError := "Failed to fetch profile data"
  const UnsupportedFormatError := "Unsupported image format. Only PNG and JPG are allowed."
  const InvalidFormatError := "Invalid image data format."
  const NotFoundError := "User profile not found for update."
  const UpdatedMessage := "Profile updated successfully"
  const PlaceholderImage := "https://placehold.co/150x150/333333/FFFFFF?text=Profile"
  const FallbackEmailDomain := "@example.com"
  const FallbackUsernamePrefix := "User-"
  const ImageFolder := "profile_images/"

  // ------------------------------------------------------------ data URLs

  const DataPrefix := "data:"
  const Base64Marker := ";base64,"

  /** `[A-Za-z-+\/]`: the characters of the media type. */
  predicate MimeChar(c: char)
  {
    ('A' <= c <= 'Z') || ('a' <= c <= 'z') || c == '-' || c == '+' || c == '/'
  }

  /** The characters a regular expression's `.` does not match. */
  predicate LineTerminator(c: char)
  {
    c == '\n' || c == '\r' || c == '\U{2028}' || c == '\U{2029}'
  }

  predicate WellFormedMime(m: string)
  {
    m != [] && forall i :: 0 <= i < |m| ==> MimeChar(m[i])
  }

  predicate WellFormedPayload(d: string)
  {
    d != [] && forall i :: 0 <= i < |d| ==> !LineTerminator(d[i])
  }

  /** `data:<mime>;base64,<data>`. */
  function DataUrl(mime: string, data: string): string
  {
    DataPrefix + mime + Base64Marker + data
  }

  /** The longest prefix of `s` made of media-type characters. */
  function MimeRun(s: string): (r: string)
    ensures IsPrefix(r, s)
    ensures forall i :: 0 <= i < |r| ==> MimeChar(r[i])
    ensures |r| < |s| ==> !MimeChar(s[|r|])
  {
    if s != [] && MimeChar(s[0]) then [s[0]] + MimeRun(s[1..]) else []
  }

  /**
   * `s.match(/^data:([A-Za-z-+\/]+);base64,(.+)$/)`: the two groups, or `None`.
   * The media-type class excludes ';', so the first group is the longest run
   * of media-type characters after 'data:'.
   */
  function ParseDataUrl(s: string): Option<(string, string)>
  {
    if !StartsWith(s, DataPrefix) then None
    else
      var rest := s[|DataPrefix|..];
      var mime := MimeRun(rest);
      var after := rest[|mime|..];
      if mime == [] || !StartsWith(after, Base64Marker) then None
      else
        var data := after[|Base64Marker|..];
        if WellFormedPayload(data) then Some((mime, data)) else None
  }

  /** What the parser accepts is a data URL of its two groups, each well formed. */
  lemma ParseDataUrlSound(s: string)
    requires ParseDataUrl(s).Some?
    ensures var (m, d) := ParseDataUrl(s).value;
      WellFormedMime(m) && WellFormedPayload(d) && s == DataUrl(m, d)
  {
    var rest := s[|DataPrefix|..];
    var mime := MimeRun(rest);
    var after := rest[|mime|..];
    assert s == DataPrefix + rest;
    assert rest == mime + after;
    assert after == Base64Marker + after[|Base64Marker|..];
  }

  lemma {:induction false} MimeRunStopsAtMarker(m: string, t: string)
    requires forall i :: 0 <= i < |m| ==> MimeChar(m[i])
    requires t != [] && !MimeChar(t[0])
    ensures MimeRun(m + t) == m
    decreases |m|
  {
    if m != [] {
      assert (m + t)[1..] == m[1..] + t;
      MimeRunStopsAtMarker(m[1..], t);
    } else {
      assert m + t == t;
    }
  }

  /** Every data URL of a well-formed media type and payload is parsed back into them. */
  lemma ParseDataUrlComplete(m: string, d: string)
    requires WellFormedMime(m) && WellFormedPayload(d)
    ensures ParseDataUrl(DataUrl(m, d)) == Some((m, d))
  {
    var s := DataUrl(m, d);
    assert s == DataPrefix + (m + (Base64Marker + d));
    assert s[|DataPrefix|..] == m + (Base64Marker + d);
    MimeRunStopsAtMarker(m, Base64Marker + d);
    assert (m + (Base64Marker + d))[|m|..] == Base64Marker + d;
    assert (Base64Marker + d)[|Base64Marker|..] == d;
  }

  /** The file extension for a media type: '.png', '.jpg', or none (refused). */
  function Extension(mime: string): (r: Option<string>)
    ensures r == Some(".png") <==> Contains(mime, "png")
    ensures r == Some(".jpg") <==> !Contains(mime, "png") && (Contains(mime, "jpeg") || Contains(mime, "jpg"))
    ensures r.None? <==> !Contains(mime, "png") && !Contains(mime, "jpeg") && !Contains(mime, "jpg")
  {
    if Contains(mime, "png") then Some(".png")
    else if Contains(mime, "jpeg") || Contains(mime, "jpg") then Some(".jpg")
    else None
  }

  /** The storage path `profile_images/<uid>/<file>`: one folder per user. */
  function ObjectPath(uid: string, file: string): (p: string)
    ensures IsPrefix(ImageFolder + uid + "/", p) && p[|ImageFolder + uid + "/"|..] == file
  {
    ImageFolder + uid + "/" + file
  }

  // --------------------------------------------------------------- answers

  /** The profile fields both handlers send back. */
  datatype ProfileView = ProfileView(username: Option<string>, email: string, profileImage: Option<string>, createdAt: Timestamp)

  datatype ProfileResponse =
    | Unauthorized
    | BadImage(error: string)
    | NotFound
    | Profile(view: ProfileView, message: Option<string>)
    | ServerError

  function StatusOf(r: ProfileResponse): nat
  {
    match r
    case Unauthorized => 401
    case BadImage(_) => 400
    case NotFound => 404
    case Profile(_, _) => 200
    case ServerError => 500
  }

  function ViewOf(row: UserRow): (v: ProfileView)
    ensures v.username == row.username && v.email == row.email
    ensures v.profileImage == row.profileImage && v.createdAt == row.createdAt
  {
    ProfileView(row.username, row.email, row.profileImage, row.createdAt)
  }

  /** `!user || !user.uid`. */
  predicate HasUid(user: Option<AuthUser>)
  {
    user.Some? && user.value.uid != ""
  }

  // ------------------------------------------------------------ getProfile

  /** The row created for a first visit: Firebase's e-mail and name, or ones made from the uid. */
  function FirstVisitUser(user: AuthUser): (n: NewUser)
    ensures n.firebaseUid == user.uid
    ensures n.email == Some(if Truthy(user.email) then user.email.value else Take(user.uid, 6) + FallbackEmailDomain)
    ensures n.username == Some(if Truthy(user.name) then user.name.value else FallbackUsernamePrefix + Take(user.uid, 6))
    ensures n.profileImage == Some(PlaceholderImage)
  {
    NewUser(user.uid,
            Or(user.email, Some(Take(user.uid, 6) + FallbackEmailDomain)),
            Or(user.name, Some(FallbackUsernamePrefix + Take(user.uid, 6))),
            Some(PlaceholderImage))
  }

  function GetProfile(rows: map<string, UserRow>, nextId: nat, user: Option<AuthUser>, now: Timestamp)
    : (map<string, UserRow>, ProfileResponse)
  {
    if !HasUid(user) then (rows, Unauthorized)
    else
      var (rows1, row, _) := FindOrCreate(rows, FirstVisitUser(user.value), nextId, now);
      if row.None? then (rows, ServerError) else (rows1, Profile(ViewOf(row.value), None))
  }

  /** The handler, step by step. */
  method HandleGetProfile(db: UserTable, user: Option<AuthUser>, now: Timestamp) returns (resp: ProfileResponse)
    requires db.Valid()
    modifies db
    ensures db.Valid()
    ensures (db.rows, resp) == GetProfile(old(db.rows), old(db.nextId), user, now)
  {
    if !HasUid(user) {
      return Unauthorized;
    }
    var row := db.FindOne(user.value.uid);
    if row.None? {
      row := db.Create(FirstVisitUser(user.value), now);
      if row.None? {
        return ServerError;
      }
    }
    resp := Profile(ViewOf(row.value), None);
  }

  /**
   * A known caller gets the view of its row and nothing changes; an unknown
   * caller gets a row made by `FirstVisitUser`, unless its e-mail is taken (500).
   */
  lemma GetProfileOutcomes(rows: map<string, UserRow>, nextId: nat, user: Option<AuthUser>, now: Timestamp)
    requires HasUid(user)
    ensures var (rows1, resp) := GetProfile(rows, nextId, user, now);
      var uid := user.value.uid;
      && (uid in rows ==> rows1 == rows && resp == Profile(ViewOf(rows[uid]), None))
      && (uid !in rows && CanInsert(rows, FirstVisitUser(user.value)) ==>
            rows1 == rows[uid := RowOf(FirstVisitUser(user.value), nextId, now)]
            && resp == Profile(ViewOf(rows1[uid]), None))
      && (resp == ServerError <==> uid !in rows && !CanInsert(rows, FirstVisitUser(user.value)))
  {
  }

  /** Fetching the profile again returns the same view and writes nothing. */
  lemma GetProfileIdempotent(rows: map<string, UserRow>, nextId: nat, nextId2: nat, user: Option<AuthUser>, now: Timestamp, now2: Timestamp)
    requires GetProfile(rows, nextId, user, now).1.Profile?
    ensures var (rows1, resp1) := GetProfile(rows, nextId, user, now);
      GetProfile(rows1, nextId2, user, now2) == (rows1, resp1)
  {
    FindOrCreateIdempotent(rows, FirstVisitUser(user.value), FirstVisitUser(user.value), nextId, nextId2, now, now2);
  }

  /**
   * Two e-mail-less accounts whose uids share their first six characters get
   * the same made-up e-mail, so the second one's first visit is answered 500.
   */
  lemma GetProfileFallbackEmailClash(rows: map<string, UserRow>, nextId: nat, a: AuthUser, b: AuthUser, now: Timestamp, now2: Timestamp)
    requires a.uid != "" && b.uid != "" && a.uid != b.uid && a.uid !in rows && b.uid !in rows
    requires !Truthy(a.email) && !Truthy(b.email) && Take(a.uid, 6) == Take(b.uid, 6)
    requires GetProfile(rows, nextId, Some(a), now).1.Profile?
    ensures GetProfile(GetProfile(rows, nextId, Some(a), now).0, nextId + 1, Some(b), now2).1 == ServerError
  {
    var rows1 := GetProfile(rows, nextId, Some(a), now).0;
    assert rows1[a.uid].email == FirstVisitUser(b).email.value;
    assert !EmailFree(rows1, FirstVisitUser(b).email.value, None);
  }

  // --------------------------------------------------------- updateProfile

  /** The outcome of the picture step. */
  datatype ImageStep = NoImage | Uploaded(url: string) | Rejected(error: string) | UploadFailed

  /**
   * A truthy `profile_image` must be a PNG or JPEG data URL; it is stored as
   * `profile_images/<uid>/<uuid><ext>` and replaced by its public URL.
   */
  function ImageStepOf(uid: string, image: Option<string>, uuid: string, upload: string -> Option<string>)
    : (r: ImageStep)
    ensures !Truthy(image) <==> r == NoImage
    ensures r == Rejected(InvalidFormatError) <==> Truthy(image) && ParseDataUrl(image.value).None?
    ensures r == Rejected(UnsupportedFormatError) <==>
      Truthy(image) && ParseDataUrl(image.value).Some? && Extension(ParseDataUrl(image.value).value.0).None?
    ensures r.Uploaded? ==>
      && Truthy(image) && ParseDataUrl(image.value).Some?
      && var ext := Extension(ParseDataUrl(image.value).value.0);
      ext.Some? && upload(ObjectPath(uid, uuid + ext.value)) == Some(r.url)
  {
    if !Truthy(image) then NoImage
    else
      match ParseDataUrl(image.value)
      case None => Rejected(InvalidFormatError)
      case Some((mime, _)) =>
        match Extension(mime)
        case None => Rejected(UnsupportedFormatError)
        case Some(ext) =>
          match upload(ObjectPath(uid, uuid + ext))
          case None => UploadFailed
          case Some(url) => Uploaded(url)
  }

  /**
   * The table and the answer with the update's result read back: 404 when no
   * row has the uid, else 200 with the patched row. `username` is `None` when
   * the body has none, `Some(None)` for JSON null.
   */
  function UpdateProfile(rows: map<string, UserRow>, user: Option<AuthUser>, username: Option<Option<string>>,
                         image: Option<string>, uuid: string, upload: string -> Option<string>)
    : (map<string, UserRow>, ProfileResponse)
  {
    if !HasUid(user) then (rows, Unauthorized)
    else
      var uid := user.value.uid;
      match ImageStepOf(uid, image, uuid, upload)
      case Rejected(e) => (rows, BadImage(e))
      case UploadFailed => (rows, ServerError)
      case NoImage => Patch(rows, uid, username, None)
      case Uploaded(url) => Patch(rows, uid, username, Some(url))
  }

  function Patch(rows: map<string, UserRow>, uid: string, username: Option<Option<string>>, url: Option<string>)
    : (map<string, UserRow>, ProfileResponse)
  {
    if uid !in rows then (rows, NotFound)
    else
      var row := Patched(rows[uid], username, url);
      (rows[uid := row], Profile(ViewOf(row), Some(UpdatedMessage)))
  }

  /** The handler with the updated row read back by uid after the update. */
  method HandleUpdateProfile(db: UserTable, user: Option<AuthUser>, username: Option<Option<string>>,
                             image: Option<string>, uuid: string, upload: string -> Option<string>)
    returns (resp: ProfileResponse)
    requires db.Valid()
    modifies db`rows
    ensures db.Valid()
    ensures (db.rows, resp) == UpdateProfile(old(db.rows), user, username, image, uuid, upload)
  {
    if !HasUid(user) {
      return Unauthorized;
    }
    var uid := user.value.uid;
    var url: Option<string> := None;
    if Truthy(image) {
      var parsed := ParseDataUrl(image.value);
      if parsed.None? {
        return BadImage(InvalidFormatError);
      }
      var ext := Extension(parsed.value.0);
      if ext.None? {
        return BadImage(UnsupportedFormatError);
      }
      url := upload(ObjectPath(uid, uuid + ext.value));
      if url.None? {
        return ServerError;
      }
    }
    var affected := db.UpdateWhereUid(uid, username, url);
    if affected == 0 {
      return NotFound;
    }
    var row := db.FindOne(uid);
    resp := Profile(ViewOf(row.value), Some(UpdatedMessage));
  }

  /**
   * A successful update changes only the caller's row: the username when the
   * body has one, the picture when one was uploaded; the e-mail, id and
   * creation time stay. Every refusal leaves the table unchanged.
   */
  lemma UpdateProfileEffects(rows: map<string, UserRow>, user: Option<AuthUser>, username: Option<Option<string>>,
                             image: Option<string>, uuid: string, upload: string -> Option<string>)
    ensures var (rows1, resp) := UpdateProfile(rows, user, username, image, uuid, upload);
      && (!resp.Profile? ==> rows1 == rows)
      && (resp.Profile? ==>
        var uid := user.value.uid;
        && uid in rows && rows1.Keys == rows.Keys
        && (forall u :: u in rows && u != uid ==> rows1[u] == rows[u])
        && rows1[uid].email == rows[uid].email && rows1[uid].userId == rows[uid].userId
        && rows1[uid].createdAt == rows[uid].createdAt
        && rows1[uid].username == (if username.Some? then username.value else rows[uid].username)
        && (!Truthy(image) ==> rows1[uid].profileImage == rows[uid].profileImage)
        && resp.view == ViewOf(rows1[uid]))
  {
  }

  /** An authenticated caller without a row is answered 404 once the picture step passes. */
  lemma UpdateProfileNotFound(rows: map<string, UserRow>, user: Option<AuthUser>, username: Option<Option<string>>,
                              image: Option<string>, uuid: string, upload: string -> Option<string>)
    requires HasUid(user) && user.value.uid !in rows
    requires var step := ImageStepOf(user.value.uid, image, uuid, upload); step.NoImage? || step.Uploaded?
    ensures UpdateProfile(rows, user, username, image, uuid, upload) == (rows, NotFound)
  {
  }
}
