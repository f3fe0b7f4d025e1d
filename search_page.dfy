/**
 * The search page (`SearchPage`): reading the query from the URL, filtering
 * the five catalogue collections, the shuffled "Top Results" mix, and the
 * small view machine behind the back button.
 */
module SearchPage {
  import opened Wrappers
  import opened Json
  import Text
  import Lists
  import opened Playback

  /** The collections the data context provides. */
  datatype Catalog = Catalog(songs: seq<Item>, artists: seq<Item>, albums: seq<Item>, radios: seq<Item>, playlists: seq<Item>)

  /** The filter effect's output. */
  datatype Filtered = Filtered(
    songs: seq<Item>, artists: seq<Item>, albums: seq<Item>, radios: seq<Item>, playlists: seq<Item>,
    combined: seq<Item>)

  datatype View = SearchResults | ArtistProfile | AlbumSongs | PlaylistSongs

  /** How many items of each kind enter the "Top Results" mix. */
  const TopPerKind: nat := 3

  // ----------------------------------------------------------- matching

  /**
   * `field?.toLowerCase()` works on a string and gives `undefined` on `null`
   * or `undefined`; on any other value it throws.
   */
  predicate TextOrNullish(v: Option<Json>)
  {
    v.None? || v.value.Null? || v.value.Str?
  }

  /** `field?.toLowerCase().includes(query.toLowerCase())`. */
  predicate Matches(v: Option<Json>, query: string)
  {
    Text.FieldMatches(AsString(v), query)
  }

  /** `artists.find(a => a.artistId === song.artistId)`. */
  function ArtistOfSong(artists: seq<Item>, song: Item): Option<Item>
  {
    Lists.Find(artists, a => StrictEq(Get(a, "artistId"), Get(song, "artistId")))
  }

  predicate SongMatches(artists: seq<Item>, query: string, song: Item)
  {
    Matches(Get(song, "title"), query)
    || (ArtistOfSong(artists, song).Some? && Matches(Get(ArtistOfSong(artists, song).value, "name"), query))
  }

  predicate ArtistMatches(query: string, artist: Item)
  {
    Matches(Get(artist, "name"), query) || Matches(Get(artist, "genre"), query)
  }

  predicate AlbumMatches(query: string, album: Item)
  {
    Matches(Get(album, "name"), query) || Matches(Field(Get(album, "Artist"), "name"), query)
  }

  predicate RadioMatches(query: string, radio: Item)
  {
    Matches(Get(radio, "title"), query) || Matches(Get(radio, "description"), query)
  }

  predicate PlaylistMatches(query: string, playlist: Item)
  {
    Matches(Get(playlist, "name"), query) || Matches(Get(playlist, "creator"), query)
  }

  /** Every field the filters lower-case is a string or absent, so none of them throws. */
  predicate Searchable(c: Catalog)
  {
    (forall s :: s in c.songs ==> TextOrNullish(Get(s, "title")))
    && (forall a :: a in c.artists ==> TextOrNullish(Get(a, "name")) && TextOrNullish(Get(a, "genre")))
    && (forall a :: a in c.albums ==> TextOrNullish(Get(a, "name")) && TextOrNullish(Field(Get(a, "Artist"), "name")))
    && (forall r :: r in c.radios ==> TextOrNullish(Get(r, "title")) && TextOrNullish(Get(r, "description")))
    && (forall p :: p in c.playlists ==> TextOrNullish(Get(p, "name")) && TextOrNullish(Get(p, "creator")))
  }

  // -------------------------------------------------------- top results

  /** `items.map(item => ({ ...item, _type: kind }))`. */
  function Tag(items: seq<Item>, kind: string): (r: seq<Item>)
    ensures |r| == |items|
    ensures forall i :: 0 <= i < |r| ==> r[i] == items[i]["_type" := Str(kind)]
  {
    if items == [] then [] else [items[0]["_type" := Str(kind)]] + Tag(items[1..], kind)
  }

  /** The first three matches of each kind, tagged, before shuffling. */
  function TopSlices(songs: seq<Item>, artists: seq<Item>, albums: seq<Item>, playlists: seq<Item>, radios: seq<Item>): seq<Item>
  {
    Tag(Lists.Prefix(songs, TopPerKind), "song")
    + Tag(Lists.Prefix(artists, TopPerKind), "artist")
    + Tag(Lists.Prefix(albums, TopPerKind), "album")
    + Tag(Lists.Prefix(playlists, TopPerKind), "playlist")
    + Tag(Lists.Prefix(radios, TopPerKind), "radio")
  }

  /**
   * `.sort(() => 0.5 - Math.random())` reorders its input; `shuffle` stands
   * for the order the random comparator happens to produce.
   */
  ghost predicate IsShuffle(shuffle: seq<Item> -> seq<Item>)
  {
    forall s :: multiset(shuffle(s)) == multiset(s)
  }

  // ------------------------------------------------------------ effects

  /** The filter effect over the current catalogue, query and loading flags. */
  function FilterEffect(c: Catalog, query: string, loading: bool, error: bool, shuffle: seq<Item> -> seq<Item>): Filtered
  {
    if loading || error then Filtered([], [], [], [], [], [])
    else if query == "" then Filtered(c.songs, c.artists, c.albums, c.radios, c.playlists, [])
    else
      var songs := Lists.Filter(c.songs, s => SongMatches(c.artists, query, s));
      var artists := Lists.Filter(c.artists, a => ArtistMatches(query, a));
      var albums := Lists.Filter(c.albums, a => AlbumMatches(query, a));
      var radios := Lists.Filter(c.radios, r => RadioMatches(query, r));
      var playlists := Lists.Filter(c.playlists, p => PlaylistMatches(query, p));
      Filtered(songs, artists, albums, radios, playlists, shuffle(TopSlices(songs, artists, albums, playlists, radios)))
  }

  /** `hasSearchResults`. */
  predicate HasSearchResults(query: string, f: Filtered)
  {
    query != "" && (|f.songs| > 0 || |f.artists| > 0 || |f.albums| > 0 || |f.radios| > 0 || |f.playlists| > 0)
  }

  class SearchPageState {
    var searchQuery: string
    var filtered: Filtered
    var currentView: View
    var selectedArtist: Option<Item>
    var selectedAlbum: Option<Item>
    var selectedPlaylist: Option<Item>

    constructor()
      ensures searchQuery == "" && filtered == Filtered([], [], [], [], [], [])
      ensures currentView == SearchResults
      ensures selectedArtist.None? && selectedAlbum.None? && selectedPlaylist.None?
    {
      searchQuery := "";
      filtered := Filtered([], [], [], [], [], []);
      currentView := SearchResults;
      selectedArtist, selectedAlbum, selectedPlaylist := None, None, None;
    }

    /**
     * The effect on `location.search`: `q` is `params.get('q')`, `None` when
     * the parameter is missing.
     */
    method OnLocationSearch(q: Option<string>)
      modifies this
      ensures searchQuery == q.GetOr("")
      ensures currentView == SearchResults
      ensures selectedArtist.None? && selectedAlbum.None? && selectedPlaylist.None?
      ensures filtered == old(filtered)
    {
      searchQuery := if q.Some? && q.value != "" then q.value else "";
      currentView := SearchResults;
      selectedArtist, selectedAlbum, selectedPlaylist := None, None, None;
    }

    /** The filter effect, run whenever the query or the catalogue changes. */
    method OnCatalogOrQuery(c: Catalog, loading: bool, error: bool, shuffle: seq<Item> -> seq<Item>)
      requires Searchable(c)
      modifies this
      ensures filtered == FilterEffect(c, searchQuery, loading, error, shuffle)
      ensures searchQuery == old(searchQuery) && currentView == old(currentView)
      ensures selectedArtist == old(selectedArtist) && selectedAlbum == old(selectedAlbum)
      ensures selectedPlaylist == old(selectedPlaylist)
    {
      if loading || error {
        filtered := Filtered([], [], [], [], [], []);
        return;
      }
      if searchQuery == "" {
        filtered := Filtered(c.songs, c.artists, c.albums, c.radios, c.playlists, []);
        return;
      }
      var q := searchQuery;
      var songs := Lists.Filter(c.songs, s => SongMatches(c.artists, q, s));
      var artists := Lists.Filter(c.artists, a => ArtistMatches(q, a));
      var albums := Lists.Filter(c.albums, a => AlbumMatches(q, a));
      var radios := Lists.Filter(c.radios, r => RadioMatches(q, r));
      var playlists := Lists.Filter(c.playlists, p => PlaylistMatches(q, p));
      var top := TopSlices(songs, artists, albums, playlists, radios);
      filtered := Filtered(songs, artists, albums, radios, playlists, shuffle(top));
    }

    method SelectArtist(artist: Item)
      modifies this
      ensures selectedArtist == Some(artist) && currentView == ArtistProfile
      ensures selectedAlbum == old(selectedAlbum) && selectedPlaylist == old(selectedPlaylist)
      ensures searchQuery == old(searchQuery) && filtered == old(filtered)
    {
      selectedArtist := Some(artist);
      currentView := ArtistProfile;
    }

    method SelectAlbum(album: Item)
      modifies this
      ensures selectedAlbum == Some(album) && currentView == AlbumSongs
      ensures selectedArtist == old(selectedArtist) && selectedPlaylist == old(selectedPlaylist)
      ensures searchQuery == old(searchQuery) && filtered == old(filtered)
    {
      selectedAlbum := Some(album);
      currentView := AlbumSongs;
    }

    method SelectPlaylist(playlist: Item)
      modifies this
      ensures selectedPlaylist == Some(playlist) && currentView == PlaylistSongs
      ensures selectedArtist == old(selectedArtist) && selectedAlbum == old(selectedAlbum)
      ensures searchQuery == old(searchQuery) && filtered == old(filtered)
    {
      selectedPlaylist := Some(playlist);
      currentView := PlaylistSongs;
    }

    /** `handleBack`: from any detail view, back to the results with nothing selected. */
    method HandleBack()
      modifies this
      ensures old(currentView) != SearchResults ==>
        currentView == SearchResults && selectedArtist.None? && selectedAlbum.None? && selectedPlaylist.None?
      ensures old(currentView) == SearchResults ==>
        currentView == SearchResults && selectedArtist == old(selectedArtist)
        && selectedAlbum == old(selectedAlbum) && selectedPlaylist == old(selectedPlaylist)
      ensures searchQuery == old(searchQuery) && filtered == old(filtered)
    {
      if currentView == AlbumSongs || currentView == PlaylistSongs || currentView == ArtistProfile {
        currentView := SearchResults;
        selectedArtist, selectedAlbum, selectedPlaylist := None, None, None;
      }
    }

    /** A click on a "Top Results" card: songs and radios play, the rest open their view. */
    method TopResultClick(item: Item, songs: seq<Item>) returns (play: Option<PlayRequest>)
      modifies this
      ensures Get(item, "_type") in {Some(Str("song")), Some(Str("radio"))} ==>
        play == Some(PlayRequest(Some(item), songs)) && currentView == old(currentView)
      ensures Get(item, "_type") == Some(Str("artist")) ==> play.None? && currentView == ArtistProfile && selectedArtist == Some(item)
      ensures Get(item, "_type") == Some(Str("album")) ==> play.None? && currentView == AlbumSongs && selectedAlbum == Some(item)
      ensures Get(item, "_type") == Some(Str("playlist")) ==> play.None? && currentView == PlaylistSongs && selectedPlaylist == Some(item)
      ensures Get(item, "_type") != Some(Str("artist")) ==> selectedArtist == old(selectedArtist)
      ensures Get(item, "_type") != Some(Str("album")) ==> selectedAlbum == old(selectedAlbum)
      ensures Get(item, "_type") != Some(Str("playlist")) ==> selectedPlaylist == old(selectedPlaylist)
      ensures Get(item, "_type") !in {Some(Str("artist")), Some(Str("album")), Some(Str("playlist"))} ==>
        currentView == old(currentView)
      ensures Get(item, "_type") !in {Some(Str("song")), Some(Str("radio"))} ==> play.None?
      ensures searchQuery == old(searchQuery) && filtered == old(filtered)
    {
      var kind := Get(item, "_type");
      play := None;
      if StrictEq(kind, Some(Str("song"))) || StrictEq(kind, Some(Str("radio"))) {
        play := Some(PlayTrack(item, songs));
      } else if StrictEq(kind, Some(Str("artist"))) {
        SelectArtist(item);
      } else if StrictEq(kind, Some(Str("album"))) {
        SelectAlbum(item);
      } else if StrictEq(kind, Some(Str("playlist"))) {
        SelectPlaylist(item);
      }
    }
  }

  /** `handlePlayTrack`: the whole catalogue is the queue. */
  function PlayTrack(song: Item, songs: seq<Item>): (r: PlayRequest)
    ensures r.song == Some(song) && r.queue == songs
  {
    PlayRequest(Some(song), songs)
  }

  // ------------------------------------------------------------- lemmas

  /** While loading or after an error every list is empty. */
  lemma LoadingOrErrorClears(c: Catalog, query: string, loading: bool, error: bool, shuffle: seq<Item> -> seq<Item>)
    requires loading || error
    ensures FilterEffect(c, query, loading, error, shuffle) == Filtered([], [], [], [], [], [])
    ensures !HasSearchResults(query, FilterEffect(c, query, loading, error, shuffle))
  {
  }

  /** Without a query every collection is shown whole and there are no top results. */
  lemma EmptyQueryShowsAll(c: Catalog, shuffle: seq<Item> -> seq<Item>)
    ensures FilterEffect(c, "", false, false, shuffle) == Filtered(c.songs, c.artists, c.albums, c.radios, c.playlists, [])
    ensures !HasSearchResults("", FilterEffect(c, "", false, false, shuffle))
  {
  }

  /**
   * With a query, a song is kept exactly when its title matches or the first
   * artist with the same `artistId` has a matching name; each list keeps its
   * source's order.
   */
  lemma FilteredExact(c: Catalog, query: string, shuffle: seq<Item> -> seq<Item>)
    requires query != ""
    ensures var f := FilterEffect(c, query, false, false, shuffle);
      (forall s :: s in f.songs <==> s in c.songs && SongMatches(c.artists, query, s))
      && (forall a :: a in f.artists <==> a in c.artists && ArtistMatches(query, a))
      && (forall a :: a in f.albums <==> a in c.albums && AlbumMatches(query, a))
      && (forall r :: r in f.radios <==> r in c.radios && RadioMatches(query, r))
      && (forall p :: p in f.playlists <==> p in c.playlists && PlaylistMatches(query, p))
    ensures var f := FilterEffect(c, query, false, false, shuffle);
      Lists.IsSubsequence(f.songs, c.songs) && Lists.IsSubsequence(f.artists, c.artists)
      && Lists.IsSubsequence(f.albums, c.albums) && Lists.IsSubsequence(f.radios, c.radios)
      && Lists.IsSubsequence(f.playlists, c.playlists)
  {
    Lists.FilterIsSubsequence(c.songs, s => SongMatches(c.artists, query, s));
    Lists.FilterIsSubsequence(c.artists, a => ArtistMatches(query, a));
    Lists.FilterIsSubsequence(c.albums, a => AlbumMatches(query, a));
    Lists.FilterIsSubsequence(c.radios, r => RadioMatches(query, r));
    Lists.FilterIsSubsequence(c.playlists, p => PlaylistMatches(query, p));
  }

  /**
   * The top results are a reordering of the first three matches of each
   * kind, tagged with their kind: at most fifteen items.
   */
  lemma TopResultsMix(c: Catalog, query: string, shuffle: seq<Item> -> seq<Item>)
    requires query != "" && IsShuffle(shuffle)
    ensures var f := FilterEffect(c, query, false, false, shuffle);
      multiset(f.combined) == multiset(TopSlices(f.songs, f.artists, f.albums, f.playlists, f.radios))
      && |f.combined| <= 5 * TopPerKind
  {
    var f := FilterEffect(c, query, false, false, shuffle);
    var top := TopSlices(f.songs, f.artists, f.albums, f.playlists, f.radios);
    assert multiset(f.combined) == multiset(top);
    assert |f.combined| == |multiset(f.combined)| == |multiset(top)| == |top|;
  }

  /**
   * `hasSearchResults` holds exactly when there is a query and something in
   * the catalogue matches it.
   */
  lemma HasSearchResultsIff(c: Catalog, query: string, shuffle: seq<Item> -> seq<Item>)
    ensures HasSearchResults(query, FilterEffect(c, query, false, false, shuffle)) <==>
      query != "" &&
      ((exists s :: s in c.songs && SongMatches(c.artists, query, s))
       || (exists a :: a in c.artists && ArtistMatches(query, a))
       || (exists a :: a in c.albums && AlbumMatches(query, a))
       || (exists r :: r in c.radios && RadioMatches(query, r))
       || (exists p :: p in c.playlists && PlaylistMatches(query, p)))
  {
    if query != "" {
      FilteredExact(c, query, shuffle);
      var f := FilterEffect(c, query, false, false, shuffle);
      if |f.songs| > 0 { assert f.songs[0] in f.songs; }
      if |f.artists| > 0 { assert f.artists[0] in f.artists; }
      if |f.albums| > 0 { assert f.albums[0] in f.albums; }
      if |f.radios| > 0 { assert f.radios[0] in f.radios; }
      if |f.playlists| > 0 { assert f.playlists[0] in f.playlists; }
    }
  }
}
