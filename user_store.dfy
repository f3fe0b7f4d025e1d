/**
 * The `users` table (Back-end/models/user.js) as the controllers use it:
 * rows keyed by the unique Firebase uid, with a unique e-mail column, an
 * auto-increment `user_id` and a creation timestamp. The wall clock is a
 * parameter (`now`).
 */
module UserStore {
  import opened Wrappers

  type Timestamp = nat

  datatype UserRow = UserRow(
    userId: nat,
    firebaseUid: string,
    username: Option<string>,
    email: string,
    profileImage: Option<string>,
    createdAt: Timestamp)

  /** The attributes of a row to insert; `userId` and `createdAt` come from the database. */
  datatype NewUser = NewUser(
    firebaseUid: string,
    email: Option<string>,
    username: Option<string>,
    profileImage: Option<string>)

  /** Every row sits under its own uid. */
  ghost predicate KeyedByUid(rows: map<string, UserRow>)
  {
    forall uid :: uid in rows ==> rows[uid].firebaseUid == uid
  }

  /** No row other than the one under `except` has e-mail `email`. */
  predicate EmailFree(rows: map<string, UserRow>, email: string, except: Option<string>)
  {
    forall uid :: uid in rows && Some(uid) != except ==> rows[uid].email != email
  }

  /** The `unique` constraint on `email`. */
  ghost predicate EmailsUnique(rows: map<string, UserRow>)
  {
    forall u, v :: u in rows && v in rows && u != v ==> rows[u].email != rows[v].email
  }

  /** An INSERT succeeds: e-mail present (NOT NULL), uid and e-mail not yet used. */
  predicate CanInsert(rows: map<string, UserRow>, n: NewUser)
  {
    n.email.Some? && n.firebaseUid !in rows && EmailFree(rows, n.email.value, None)
  }

  function RowOf(n: NewUser, id: nat, now: Timestamp): UserRow
    requires n.email.Some?
  {
    UserRow(id, n.firebaseUid, n.username, n.email.value, n.profileImage, now)
  }

  /**
   * Sequelize's `findOrCreate` keyed by the uid: the existing row unchanged
   * (created = false), or a new row from `defaults` (created = true), or
   * `None` when the insert violates a constraint.
   */
  function FindOrCreate(rows: map<string, UserRow>, n: NewUser, id: nat, now: Timestamp)
    : (r: (map<string, UserRow>, Option<UserRow>, bool))
    ensures n.firebaseUid in rows ==> r == (rows, Some(rows[n.firebaseUid]), false)
    ensures n.firebaseUid !in rows && CanInsert(rows, n) ==>
      r == (rows[n.firebaseUid := RowOf(n, id, now)], Some(RowOf(n, id, now)), true)
    ensures n.firebaseUid !in rows && !CanInsert(rows, n) ==> r == (rows, None, false)
  {
    if n.firebaseUid in rows then (rows, Some(rows[n.firebaseUid]), false)
    else if CanInsert(rows, n) then (rows[n.firebaseUid := RowOf(n, id, now)], Some(RowOf(n, id, now)), true)
    else (rows, None, false)
  }

  /**
   * Find-or-create is idempotent: a second call with the same uid returns the
   * same row, reports nothing created and leaves the table alone, whatever
   * defaults it carries.
   */
  lemma FindOrCreateIdempotent(rows: map<string, UserRow>, n: NewUser, n2: NewUser, id: nat, id2: nat, now: Timestamp, now2: Timestamp)
    requires n2.firebaseUid == n.firebaseUid
    requires FindOrCreate(rows, n, id, now).1.Some?
    ensures var (rows1, user1, _) := FindOrCreate(rows, n, id, now);
      FindOrCreate(rows1, n2, id2, now2) == (rows1, user1, false)
  {
  }

  /** Find-or-create never touches a row other than the uid's own, and adds at most that one. */
  lemma FindOrCreateFrame(rows: map<string, UserRow>, n: NewUser, id: nat, now: Timestamp)
    ensures var rows1 := FindOrCreate(rows, n, id, now).0;
      && rows1.Keys <= rows.Keys + {n.firebaseUid}
      && (forall uid :: uid in rows ==> uid in rows1 && rows1[uid] == rows[uid])
  {
  }

  /** The rows the table holds, with its invariants: uid keys, unique e-mails and user ids. */
  class UserTable {
    var rows: map<string, UserRow>
    var nextId: nat

    ghost predicate Valid()
      reads this
    {
      && KeyedByUid(rows)
      && EmailsUnique(rows)
      && (forall uid :: uid in rows ==> rows[uid].userId < nextId)
      && (forall u, v :: u in rows && v in rows && u != v ==> rows[u].userId != rows[v].userId)
    }

    constructor ()
      ensures Valid() && rows == map[]
    {
      rows, nextId := map[], 1;
    }

    /** `User.findOne({ where: { firebaseUid } })`. */
    method FindOne(uid: string) returns (r: Option<UserRow>)
      requires Valid()
      ensures r.Some? <==> uid in rows
      ensures r.Some? ==> r.value == rows[uid] && r.value.firebaseUid == uid
    {
      r := if uid in rows then Some(rows[uid]) else None;
    }

    /** `User.create(n)`: a fresh row with the next id, or `None` on a constraint violation. */
    method Create(n: NewUser, now: Timestamp) returns (r: Option<UserRow>)
      requires Valid()
      modifies this
      ensures Valid()
      ensures CanInsert(old(rows), n) ==>
        && r == Some(RowOf(n, old(nextId), now))
        && rows == old(rows)[n.firebaseUid := RowOf(n, old(nextId), now)]
      ensures !CanInsert(old(rows), n) ==> r.None? && rows == old(rows)
    {
      if CanInsert(rows, n) {
        var row := RowOf(n, nextId, now);
        rows := rows[n.firebaseUid := row];
        nextId := nextId + 1;
        r := Some(row);
      } else {
        r := None;
      }
    }

    /** `user.update({ email, username, profileImage })` on the uid's row; fails on a duplicate e-mail. */
    method UpdateAccount(uid: string, email: string, username: Option<string>, image: Option<string>)
      returns (r: Option<UserRow>)
      requires Valid() && uid in rows
      modifies this`rows
      ensures Valid()
      ensures EmailFree(old(rows), email, Some(uid)) ==>
        && r == Some(old(rows)[uid].(email := email, username := username, profileImage := image))
        && rows == old(rows)[uid := r.value]
      ensures !EmailFree(old(rows), email, Some(uid)) ==> r.None? && rows == old(rows)
    {
      if EmailFree(rows, email, Some(uid)) {
        var row := rows[uid].(email := email, username := username, profileImage := image);
        rows := rows[uid := row];
        r := Some(row);
      } else {
        r := None;
      }
    }

    /**
     * `User.update(updateData, { where: { firebaseUid } })` with optional
     * username and profile image: the number of rows matched (0 or 1).
     */
    method UpdateWhereUid(uid: string, username: Option<Option<string>>, image: Option<string>)
      returns (affected: nat)
      requires Valid()
      modifies this`rows
      ensures Valid()
      ensures affected == if uid in old(rows) then 1 else 0
      ensures uid !in old(rows) ==> rows == old(rows)
      ensures uid in old(rows) ==> rows == old(rows)[uid := Patched(old(rows)[uid], username, image)]
    {
      if uid in rows {
        rows := rows[uid := Patched(rows[uid], username, image)];
        affected := 1;
      } else {
        affected := 0;
      }
    }

    /** Sequelize's `findOrCreate` on the uid, as a step on the table. */
    method FindOrCreateByUid(n: NewUser, now: Timestamp) returns (user: Option<UserRow>, created: bool)
      requires Valid()
      modifies this
      ensures Valid()
      ensures (rows, user, created) == FindOrCreate(old(rows), n, old(nextId), now)
    {
      var found := FindOne(n.firebaseUid);
      if found.Some? {
        user, created := found, false;
      } else {
        user := Create(n, now);
        created := user.Some?;
      }
    }
  }

  /** A row with the supplied fields overwritten and the others kept. */
  function Patched(row: UserRow, username: Option<Option<string>>, image: Option<string>): (r: UserRow)
    ensures r.userId == row.userId && r.firebaseUid == row.firebaseUid && r.email == row.email
    ensures r.createdAt == row.createdAt
    ensures r.username == if username.Some? then username.value else row.username
    ensures r.profileImage == if image.Some? then image else row.profileImage
  {
    row.(username := username.GetOr(row.username),
         profileImage := if image.Some? then image else row.profileImage)
  }
}
