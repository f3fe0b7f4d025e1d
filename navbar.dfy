/**
 * The navbar (`Navbar`): whether the logo shows, the flattening of the
 * artist → album → song tree from the search endpoint into searchable
 * entries, and where selecting an entry navigates.
 */
module Navbar {
  import opened Wrappers
  import opened Json
  import opened Routes
  import opened SearchBar
  import Lists

  /** An album as the search endpoint returns it; `Songs` may be absent. */
  datatype AlbumNode = AlbumNode(fields: Item, songs: Option<seq<Item>>)

  /** An artist as the search endpoint returns it; `Albums` may be absent. */
  datatype ArtistNode = ArtistNode(fields: Item, albums: Option<seq<AlbumNode>>)

  /** The paths on which a signed-out visitor sees the logo. */
  const LogoPaths: seq<string> := ["/", "/login", "/signup"]

  predicate ShowLogo(isAuthenticated: bool, pathname: string)
  {
    !isAuthenticated && pathname in LogoPaths
  }

  lemma LogoOnlyWhenSignedOut(isAuthenticated: bool, pathname: string)
    ensures ShowLogo(isAuthenticated, pathname) <==>
      !isAuthenticated && (pathname == "/" || pathname == "/login" || pathname == "/signup")
  {
  }

  // ------------------------------------------------------------ entries

  function ArtistLink(artist: Item): Entry
  {
    Entry(Get(artist, "name"), "/artist/" + Show(Get(artist, "artistId")), ArtistEntry)
  }

  function AlbumLink(album: Item): Entry
  {
    Entry(Get(album, "name"), "/album/" + Show(Get(album, "albumId")), AlbumEntry)
  }

  function SongLink(song: Item): Entry
  {
    Entry(Get(song, "title"), "/song/" + Show(Get(song, "songId")), SongEntry)
  }

  // --------------------------------------------- the pre-order walk

  function SongsOf(album: AlbumNode): seq<Item>
  {
    album.songs.GetOr([])
  }

  function AlbumsOf(artist: ArtistNode): seq<AlbumNode>
  {
    artist.albums.GetOr([])
  }

  function SongsFlat(songs: seq<Item>): (r: seq<Entry>)
    ensures |r| == |songs|
  {
    if songs == [] then [] else SongsFlat(songs[..|songs| - 1]) + [SongLink(songs[|songs| - 1])]
  }

  function AlbumFlat(album: AlbumNode): seq<Entry>
  {
    [AlbumLink(album.fields)] + SongsFlat(SongsOf(album))
  }

  /** The number of songs under a list of albums, absent lists counting as empty. */
  function SongTotal(albums: seq<AlbumNode>): nat
  {
    if albums == [] then 0 else SongTotal(albums[..|albums| - 1]) + |SongsOf(albums[|albums| - 1])|
  }

  function AlbumsFlat(albums: seq<AlbumNode>): seq<Entry>
  {
    Lists.FlatMap(albums, AlbumFlat)
  }

  function ArtistFlat(artist: ArtistNode): seq<Entry>
  {
    [ArtistLink(artist.fields)] + AlbumsFlat(AlbumsOf(artist))
  }

  function AlbumTotal(artists: seq<ArtistNode>): nat
  {
    if artists == [] then 0 else AlbumTotal(artists[..|artists| - 1]) + |AlbumsOf(artists[|artists| - 1])|
  }

  function ArtistSongTotal(artists: seq<ArtistNode>): nat
  {
    if artists == [] then 0
    else ArtistSongTotal(artists[..|artists| - 1]) + SongTotal(AlbumsOf(artists[|artists| - 1]))
  }

  /** The walk over all artists, one block per artist. */
  function ArtistsFlat(artists: seq<ArtistNode>): seq<Entry>
  {
    Lists.FlatMap(artists, ArtistFlat)
  }

  /** `flattenData(data)`, `artists` being `data.artists` (`None` when falsy). */
  function Flatten(artists: Option<seq<ArtistNode>>): seq<Entry>
  {
    if artists.None? then [] else ArtistsFlat(artists.value)
  }

  /** The innermost loop of `flattenData`: one entry per song of an album. */
  method PushSongs(results: seq<Entry>, songs: seq<Item>) returns (out: seq<Entry>)
    ensures out == results + SongsFlat(songs)
  {
    out := results;
    var k := 0;
    while k < |songs|
      invariant 0 <= k <= |songs|
      invariant out == results + SongsFlat(songs[..k])
    {
      assert songs[..k + 1][..k] == songs[..k];
      out := out + [SongLink(songs[k])];
      k := k + 1;
    }
    assert songs[..k] == songs;
  }

  /** The middle loop: each album's entry followed by its songs. */
  method PushAlbums(results: seq<Entry>, albums: seq<AlbumNode>) returns (out: seq<Entry>)
    ensures out == results + AlbumsFlat(albums)
  {
    out := results;
    var j := 0;
    while j < |albums|
      invariant 0 <= j <= |albums|
      invariant out == results + AlbumsFlat(albums[..j])
    {
      var album := albums[j];
      ghost var prev := out;
      out := out + [AlbumLink(album.fields)];
      out := PushSongs(out, SongsOf(album));
      AlbumsFlatStep(albums, j, prev, results);
      j := j + 1;
    }
    assert albums[..j] == albums;
  }

  lemma AlbumsFlatStep(albums: seq<AlbumNode>, j: nat, prev: seq<Entry>, results: seq<Entry>)
    requires j < |albums| && prev == results + AlbumsFlat(albums[..j])
    ensures prev + [AlbumLink(albums[j].fields)] + SongsFlat(SongsOf(albums[j])) == results + AlbumsFlat(albums[..j + 1])
  {
    Lists.FlatMapStep(albums, j, AlbumFlat);
  }

  /** `flattenData`: the outer loop, each artist's entry followed by its albums. */
  method FlattenData(artists: Option<seq<ArtistNode>>) returns (results: seq<Entry>)
    ensures results == Flatten(artists)
  {
    results := [];
    if artists.Some? {
      results := PushArtists(artists.value);
    }
  }

  method PushArtists(all: seq<ArtistNode>) returns (results: seq<Entry>)
    ensures results == ArtistsFlat(all)
  {
    results := [];
    var i := 0;
    while i < |all|
      invariant 0 <= i <= |all|
      invariant results == ArtistsFlat(all[..i])
    {
      ghost var prev := results;
      results := results + [ArtistLink(all[i].fields)];
      results := PushAlbums(results, AlbumsOf(all[i]));
      ArtistsFlatStep(all, i, prev);
      i := i + 1;
    }
    assert all[..i] == all;
  }

  lemma ArtistsFlatStep(all: seq<ArtistNode>, i: nat, prev: seq<Entry>)
    requires i < |all| && prev == ArtistsFlat(all[..i])
    ensures prev + [ArtistLink(all[i].fields)] + AlbumsFlat(AlbumsOf(all[i])) == ArtistsFlat(all[..i + 1])
  {
    Lists.FlatMapStep(all, i, ArtistFlat);
  }

  /**
   * Pre-order: the entries of an artist form one contiguous block between
   * those of the artists before and after it, and the block opens with the
   * artist's entry.
   */
  lemma PreOrder(before: seq<ArtistNode>, x: ArtistNode, after: seq<ArtistNode>)
    ensures ArtistsFlat(before + [x] + after) == ArtistsFlat(before) + ArtistFlat(x) + ArtistsFlat(after)
    ensures ArtistFlat(x)[0] == ArtistLink(x.fields)
  {
    Lists.FlatMapAppend(before + [x], after, ArtistFlat);
    Lists.FlatMapAppend(before, [x], ArtistFlat);
    assert Lists.FlatMap([x], ArtistFlat) == ArtistFlat(x) by {
      assert [x][..0] == [];
    }
  }

  /**
   * Inside an artist's block, each album's entry is followed at once by that
   * album's songs, between the blocks of the albums before and after it.
   */
  lemma AlbumPreOrder(before: seq<AlbumNode>, x: AlbumNode, after: seq<AlbumNode>)
    ensures AlbumsFlat(before + [x] + after) == AlbumsFlat(before) + AlbumFlat(x) + AlbumsFlat(after)
    ensures AlbumFlat(x) == [AlbumLink(x.fields)] + SongsFlat(SongsOf(x))
  {
    Lists.FlatMapAppend(before + [x], after, AlbumFlat);
    Lists.FlatMapAppend(before, [x], AlbumFlat);
    assert Lists.FlatMap([x], AlbumFlat) == AlbumFlat(x) by {
      assert [x][..0] == [];
    }
  }

  lemma {:induction false} AlbumsFlatLength(albums: seq<AlbumNode>)
    ensures |AlbumsFlat(albums)| == |albums| + SongTotal(albums)
    decreases |albums|
  {
    if albums != [] {
      AlbumsFlatLength(albums[..|albums| - 1]);
    }
  }

  /** The walk has one entry per artist, per album of those artists and per song of those albums. */
  lemma {:induction false} FlattenLength(artists: seq<ArtistNode>)
    ensures |ArtistsFlat(artists)| == |artists| + AlbumTotal(artists) + ArtistSongTotal(artists)
    decreases |artists|
  {
    if artists != [] {
      FlattenLength(artists[..|artists| - 1]);
      AlbumsFlatLength(AlbumsOf(artists[|artists| - 1]));
    }
  }

  /** Without `data.artists` there is nothing to search. */
  lemma FlattenAbsent()
    ensures Flatten(None) == []
  {
  }

  // -------------------------------------------------------------- state

  /** `handleSearchSelect`: navigates only for an item with a truthy title. */
  function SearchSelect(item: Option<Entry>): (nav: Option<Route>)
    ensures nav.Some? <==> item.Some? && Truthy(item.value.title)
    ensures nav.Some? ==> nav.value == Search(Show(item.value.title))
  {
    if item.Some? && Truthy(item.value.title) then Some(Search(Show(item.value.title))) else None
  }

  class NavbarState {
    var searchData: seq<Entry>

    constructor()
      ensures searchData == []
    {
      searchData := [];
    }

    /**
     * `fetchSearchData`: `response` is `None` when the request fails, in
     * which case the entries stay as they were.
     */
    method FetchSearchData(response: Option<Option<seq<ArtistNode>>>)
      modifies this
      ensures response.None? ==> searchData == old(searchData)
      ensures response.Some? ==> searchData == Flatten(response.value)
    {
      if response.Some? {
        searchData := FlattenData(response.value);
      }
    }
  }
}
