/**
 * The auth context (`AuthProvider`): the Firebase user, the backend user
 * that a sign-up or login puts in its place, and the loading flag. The user
 * the rest of the app sees is the backend user when there is one.
 */
module AuthSession {
  import opened Wrappers
  import opened Json

  /** `backendUser || currentUser`: user objects are always truthy. */
  function Effective(backendUser: Option<Item>, currentUser: Option<Item>): (r: Option<Item>)
    ensures backendUser.Some? ==> r == backendUser
    ensures backendUser.None? ==> r == currentUser
    ensures r.Some? <==> backendUser.Some? || currentUser.Some?
  {
    if backendUser.Some? then backendUser else currentUser
  }

  class AuthState {
    var currentUser: Option<Item>
    var backendUser: Option<Item>
    var loading: bool
    /** `localStorage.authToken`. */
    var storedToken: Option<string>

    /** The two users are never set at once. */
    predicate Valid()
      reads this
    {
      !(currentUser.Some? && backendUser.Some?)
    }

    function EffectiveUser(): Option<Item>
      reads this
    {
      Effective(backendUser, currentUser)
    }

    /** `isAuthenticated: !!effectiveUser`. */
    predicate IsAuthenticated()
      reads this
    {
      EffectiveUser().Some?
    }

    constructor(storedToken: Option<string>)
      ensures Valid() && loading
      ensures currentUser.None? && backendUser.None? && this.storedToken == storedToken
    {
      currentUser, backendUser := None, None;
      loading := true;
      this.storedToken := storedToken;
    }

    /** The `onAuthStateChanged` listener: `user` is `None` after a sign-out. */
    method OnAuthStateChanged(user: Option<Item>)
      requires Valid()
      modifies this
      ensures Valid()
      ensures backendUser.None? && currentUser == user && !loading
      ensures EffectiveUser() == user
      ensures storedToken == old(storedToken)
    {
      backendUser := None;
      currentUser := user;
      loading := false;
    }

    /** `login(userFromBackend)`: the backend user replaces the Firebase one. */
    method Login(userFromBackend: Item)
      requires Valid()
      modifies this
      ensures Valid()
      ensures backendUser == Some(userFromBackend) && currentUser.None?
      ensures EffectiveUser() == Some(userFromBackend) && IsAuthenticated()
      ensures loading == old(loading) && storedToken == old(storedToken)
    {
      backendUser := Some(userFromBackend);
      currentUser := None;
    }

    /**
     * `logOut`: the stored token goes first; the users are cleared only when
     * the Firebase sign-out succeeds, and otherwise the error propagates.
     */
    method LogOut(signOutSucceeds: bool) returns (thrown: bool)
      requires Valid()
      modifies this
      ensures Valid()
      ensures storedToken.None? && loading == old(loading)
      ensures thrown <==> !signOutSucceeds
      ensures signOutSucceeds ==> currentUser.None? && backendUser.None? && !IsAuthenticated()
      ensures !signOutSucceeds ==> currentUser == old(currentUser) && backendUser == old(backendUser)
    {
      storedToken := None;
      if signOutSucceeds {
        currentUser := None;
        backendUser := None;
        thrown := false;
      } else {
        thrown := true;
      }
    }
  }
}
