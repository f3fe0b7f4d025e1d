/**
 * What the sign-up and login pages receive from outside: the Firebase user
 * object, a rejected promise (from the Firebase SDK or from `fetch`), and a
 * backend reply. The pages await these; the model takes each awaited
 * outcome as a parameter.
 */
module Remote {
  import opened Wrappers
  import opened Json

  /**
   * The fields of a Firebase `User` the pages read; `providerIds` lists
   * `providerData[i].providerId` in order. `None` stands for `null`.
   */
  datatype FirebaseUser = FirebaseUser(
    uid: string,
    email: Option<string>,
    displayName: Option<string>,
    photoURL: Option<string>,
    providerIds: seq<string>,
    isAnonymous: bool)

  /** A thrown error: its `code` (`undefined` for a plain `Error`) and its `message`. */
  datatype Failure = Failure(code: Option<string>, message: string)

  /** The settled state of an awaited promise. */
  datatype Step<T> = Done(value: T) | Fails(failure: Failure)

  /** A `fetch` response: `response.ok` and the parsed `response.json()`. */
  datatype Reply = Reply(ok: bool, body: Json)

  /** The body and bearer header of `POST /api/auth/sync`. */
  datatype SyncRequest = SyncRequest(
    authorization: string,
    firebaseUid: string,
    email: Option<string>,
    username: string,
    profileImage: Option<string>,
    provider: string)

  /** `Authorization: Bearer ${token}`. */
  function Bearer(token: string): string
  {
    "Bearer " + token
  }

  /**
   * `new Error(errorData.message || fallback)`: the message the page then
   * reads back from the thrown error, which has no `code`.
   */
  function BackendFailure(body: Json, fallback: string): (f: Failure)
    ensures f.code.None?
    ensures Truthy(Field(Some(body), "message")) ==> f.message == Show(Field(Some(body), "message"))
    ensures !Truthy(Field(Some(body), "message")) ==> f.message == fallback
  {
    Failure(None, Show(OrElse(Field(Some(body), "message"), Some(Str(fallback)))))
  }
}
