/**
 * The favourites page (`FavoritePage`): clearing on sign-out, turning the
 * favourites the API returns into song cards, and the play guard.
 */
module FavoritePage {
  import opened Wrappers
  import opened Json
  import Lists
  import opened Playback

  const UnknownTitle := "Unknown Title"
  const UnknownArtist := "Unknown Artist"
  const UnknownAlbum := "Unknown Album"
  const NoImage := "https://placehold.co/150x150/4a4a4a/e0e0e0?text=No+Image"
  const UnknownSongPrefix := "unknown-song-"

  /** The backend user whose favourites the page shows. */
  const ShownUserId := 1

  /** `v || fallback`. */
  function Fallback(v: Option<Json>, fallback: string): (r: Json)
    ensures Truthy(v) ==> r == v.value
    ensures !Truthy(v) ==> r == Str(fallback)
  {
    if Truthy(v) then v.value else Str(fallback)
  }

  /** `fav.userId === 1`. */
  predicate ShownUsers(fav: Item)
  {
    StrictEq(Get(fav, "userId"), Some(Num(ShownUserId)))
  }

  /**
   * One favourite as a song card, `None` when it has no `Song`. `noise` is
   * the `Math.random()` text drawn for a favourite with neither id.
   */
  function CardOf(fav: Item, noise: Item -> string): (r: Option<Item>)
    ensures r.None? <==> !Truthy(Get(fav, "Song"))
    ensures r.Some? ==>
      var song := Get(fav, "Song");
      Get(r.value, "title") == Some(Fallback(Field(song, "title"), UnknownTitle))
      && Get(r.value, "artist") == Some(Fallback(Field(Field(song, "Artist"), "name"), UnknownArtist))
      && Get(r.value, "album") == Some(Fallback(Field(Field(song, "Album"), "name"), UnknownAlbum))
      && Get(r.value, "songUrl") == Some(Fallback(Field(song, "audioUrl"), ""))
      && Get(r.value, "songArt") == Get(r.value, "albumArt") == Some(Fallback(Field(song, "coverImage"), NoImage))
      && Truthy(Get(r.value, "id"))
  {
    var song := Get(fav, "Song");
    if !Truthy(song) then None
    else
      var id := Fallback(OrElse(Get(fav, "songId"), Get(fav, "favoriteId")), UnknownSongPrefix + noise(fav));
      var cover := Fallback(Field(song, "coverImage"), NoImage);
      Some(map[
        "id" := id,
        "title" := Fallback(Field(song, "title"), UnknownTitle),
        "artist" := Fallback(Field(Field(song, "Artist"), "name"), UnknownArtist),
        "album" := Fallback(Field(Field(song, "Album"), "name"), UnknownAlbum),
        "songUrl" := Fallback(Field(song, "audioUrl"), ""),
        "songArt" := cover,
        "albumArt" := cover])
  }

  /** `.map(toCard).filter(Boolean)`. */
  function Cards(favs: seq<Item>, noise: Item -> string): (r: seq<Item>)
    ensures |r| <= |favs|
    ensures forall c :: c in r ==> exists f :: f in favs && CardOf(f, noise) == Some(c)
  {
    if favs == [] then []
    else
      var rest := Cards(favs[1..], noise);
      assert forall c :: c in rest ==> exists f :: f in favs && CardOf(f, noise) == Some(c) by {
        forall c | c in rest
          ensures exists f :: f in favs && CardOf(f, noise) == Some(c)
        {
          var f :| f in favs[1..] && CardOf(f, noise) == Some(c);
          assert f in favs;
        }
      }
      match CardOf(favs[0], noise)
      case Some(c) => [c] + rest
      case None => rest
  }

  /** The favourite-songs effect. */
  function FavoriteSongs(favoritesFromApi: seq<Item>, signedIn: bool, noise: Item -> string): seq<Item>
  {
    if |favoritesFromApi| > 0 && signedIn then Cards(Lists.Filter(favoritesFromApi, ShownUsers), noise) else []
  }

  /** With nobody signed in or nothing fetched there are no cards. */
  lemma NoCardsWithoutData(favs: seq<Item>, signedIn: bool, noise: Item -> string)
    ensures !signedIn || favs == [] ==> FavoriteSongs(favs, signedIn, noise) == []
  {
  }

  /**
   * Every card comes from a favourite of backend user 1 that carries a
   * `Song`, and there are no more cards than favourites.
   */
  lemma CardsFromUserOne(favs: seq<Item>, noise: Item -> string)
    ensures |FavoriteSongs(favs, true, noise)| <= |favs|
    ensures forall c :: c in FavoriteSongs(favs, true, noise) ==>
      exists f :: f in favs && ShownUsers(f) && Truthy(Get(f, "Song")) && CardOf(f, noise) == Some(c)
  {
    if |favs| > 0 {
      var kept := Lists.Filter(favs, ShownUsers);
      forall c | c in FavoriteSongs(favs, true, noise)
        ensures exists f :: f in favs && ShownUsers(f) && Truthy(Get(f, "Song")) && CardOf(f, noise) == Some(c)
      {
        var f :| f in kept && CardOf(f, noise) == Some(c);
        assert f in favs && ShownUsers(f);
      }
    }
  }

  /** Cards are made favourite by favourite: dropping a favourite without `Song` keeps the others' order. */
  lemma {:induction false} CardsAppend(a: seq<Item>, b: seq<Item>, noise: Item -> string)
    ensures Cards(a + b, noise) == Cards(a, noise) + Cards(b, noise)
    decreases |a|
  {
    if a != [] {
      assert (a + b)[1..] == a[1..] + b;
      CardsAppend(a[1..], b, noise);
    } else {
      assert a + b == b;
    }
  }

  /** `handlePlayFavoriteSong`: plays, with the cards as queue, only a card with a URL. */
  function PlayFavorite(song: Item, favoriteSongs: seq<Item>): (r: Option<PlayRequest>)
    ensures r.Some? <==> Truthy(Get(song, "songUrl"))
    ensures r.Some? ==> r.value == PlayRequest(Some(song), favoriteSongs)
  {
    if Truthy(Get(song, "songUrl")) then Some(PlayRequest(Some(song), favoriteSongs)) else None
  }

  /** A card plays exactly when its song had a truthy `audioUrl`. */
  lemma PlayableIffAudio(fav: Item, noise: Item -> string, favoriteSongs: seq<Item>)
    requires CardOf(fav, noise).Some?
    ensures PlayFavorite(CardOf(fav, noise).value, favoriteSongs).Some? <==> Truthy(Field(Get(fav, "Song"), "audioUrl"))
  {
  }

  class FavoritePageState {
    var favoritesFromApi: seq<Item>
    var favoriteSongs: seq<Item>
    var error: bool

    constructor()
      ensures favoritesFromApi == [] && favoriteSongs == [] && !error
    {
      favoritesFromApi, favoriteSongs, error := [], [], false;
    }

    /**
     * The effect on `currentUser`: with a user, `fetched` is the API's
     * answer (`None` when the request fails); without one both lists clear.
     */
    method OnUserChange(signedIn: bool, fetched: Option<seq<Item>>)
      modifies this
      ensures !signedIn ==> favoritesFromApi == [] && favoriteSongs == [] && error == old(error)
      ensures signedIn && fetched.Some? ==> favoritesFromApi == fetched.value && !error && favoriteSongs == old(favoriteSongs)
      ensures signedIn && fetched.None? ==> error && favoritesFromApi == old(favoritesFromApi) && favoriteSongs == old(favoriteSongs)
    {
      if signedIn {
        error := false;
        if fetched.Some? {
          favoritesFromApi := fetched.value;
        } else {
          error := true;
        }
      } else {
        favoritesFromApi := [];
        favoriteSongs := [];
      }
    }

    /** The effect on the fetched favourites and the user. */
    method OnFavoritesChange(signedIn: bool, noise: Item -> string)
      modifies this
      ensures favoriteSongs == FavoriteSongs(favoritesFromApi, signedIn, noise)
      ensures favoritesFromApi == old(favoritesFromApi) && error == old(error)
    {
      if |favoritesFromApi| > 0 && signedIn {
        var userFavorites := Lists.Filter(favoritesFromApi, ShownUsers);
        favoriteSongs := Cards(userFavorites, noise);
      } else {
        favoriteSongs := [];
      }
    }

    method HandlePlayFavoriteSong(song: Item) returns (play: Option<PlayRequest>)
      ensures play == PlayFavorite(song, favoriteSongs)
    {
      if Truthy(Get(song, "songUrl")) {
        play := Some(PlayRequest(Some(song), favoriteSongs));
      } else {
        play := None;
      }
    }
  }
}
