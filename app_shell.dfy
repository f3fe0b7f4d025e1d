/**
 * The application shell (`App`, `AppContent`): the route guards, the
 * redirect away from the landing page, the copy of the catalogue's songs the
 * player receives, and the single "now playing" slot.
 */
module AppShell {
  import opened Wrappers
  import opened Json
  import opened Routes
  import opened Playback
  import AuthSession

  /** What a guarded route renders. */
  datatype Guard = Loading | Render | Redirect(to: Route)

  /** `PrivateRoute`. */
  function PrivateRoute(loading: bool, currentUser: Option<Item>): (g: Guard)
    ensures loading <==> g == Loading
    ensures !loading ==> (g == Render <==> currentUser.Some?)
    ensures !loading && currentUser.None? ==> g == Redirect(LoginPage)
  {
    if loading then Loading else if currentUser.Some? then Render else Redirect(LoginPage)
  }

  /** `PublicOnlyRoute`. */
  function PublicOnlyRoute(loading: bool, currentUser: Option<Item>): (g: Guard)
    ensures loading <==> g == Loading
    ensures !loading ==> (g == Render <==> currentUser.None?)
    ensures !loading && currentUser.Some? ==> g == Redirect(MusicPage)
  {
    if loading then Loading else if currentUser.Some? then Redirect(MusicPage) else Render
  }

  /** Once auth has loaded, exactly one of the two guards lets its page through. */
  lemma GuardsComplement(currentUser: Option<Item>)
    ensures (PrivateRoute(false, currentUser) == Render) != (PublicOnlyRoute(false, currentUser) == Render)
  {
  }

  /** The redirect effect: a signed-in user on '/' is sent to /music. */
  function LandingRedirect(authLoading: bool, currentUser: Option<Item>, pathname: string): (r: Option<Route>)
    ensures r.Some? <==> !authLoading && currentUser.Some? && pathname == "/"
    ensures r.Some? ==> r.value == MusicPage
  {
    if !authLoading && currentUser.Some? && pathname == "/" then Some(MusicPage) else None
  }

  class AppState {
    var currentPlayingSong: Option<Item>
    var allSongs: seq<Item>

    constructor()
      ensures currentPlayingSong.None? && allSongs == []
    {
      currentPlayingSong := None;
      allSongs := [];
    }

    /** The effect copying the catalogue's songs once they have loaded; it never clears them. */
    method SyncAllSongs(contextSongs: seq<Item>, dataLoading: bool)
      modifies this
      ensures !dataLoading && |contextSongs| > 0 ==> allSongs == contextSongs
      ensures dataLoading || |contextSongs| == 0 ==> allSongs == old(allSongs)
      ensures old(allSongs) != [] ==> allSongs != []
      ensures currentPlayingSong == old(currentPlayingSong)
    {
      if !dataLoading && |contextSongs| > 0 {
        allSongs := contextSongs;
      }
    }

    /**
     * `setCurrentPlayingSong(song, queue)` reaches a plain state setter,
     * which keeps the song and drops the queue.
     */
    method SetCurrentPlayingSong(request: PlayRequest)
      modifies this
      ensures currentPlayingSong == request.song
      ensures allSongs == old(allSongs)
    {
      currentPlayingSong := request.song;
    }

    /** What the player receives: the slot's song, and always `allSongs` as the list. */
    function PlayerInput(): (r: PlayRequest)
      reads this
      ensures r.song == currentPlayingSong && r.queue == allSongs
    {
      PlayRequest(currentPlayingSong, allSongs)
    }
  }

  /**
   * `handleSignOutAndRedirect`: home after a successful sign-out, nowhere
   * otherwise. The stored token is removed before the sign-out is tried.
   */
  method HandleSignOutAndRedirect(auth: AuthSession.AuthState, signOutSucceeds: bool) returns (nav: Option<Route>)
    requires auth.Valid()
    modifies auth
    ensures auth.Valid()
    ensures signOutSucceeds ==> nav == Some(Home) && !auth.IsAuthenticated()
    ensures !signOutSucceeds ==> nav.None? && auth.EffectiveUser() == old(auth.EffectiveUser())
    ensures !signOutSucceeds ==> auth.currentUser == old(auth.currentUser) && auth.backendUser == old(auth.backendUser)
    ensures auth.storedToken.None? && auth.loading == old(auth.loading)
  {
    var thrown := auth.LogOut(signOutSucceeds);
    if thrown {
      nav := None;
    } else {
      nav := Some(Home);
    }
  }
}
